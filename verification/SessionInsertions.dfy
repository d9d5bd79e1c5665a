/** What a session puts out in the course of a run, and what is said of it. */
module SessionInsertions {
  import opened Backends
  import opened Broadcasts
  import opened LlmText
  import opened Pipeline
  import opened SessionInvariant
  import opened SessionReports
  import opened SessionSteps
  import opened SessionTheorems
  import opened Sessions
  import opened StateMachines
  import opened Wrappers

  /** The text a step inserts for session `s`. */
  function PutBy(y: Sys, step: Step, s: SessionId): seq<string> {
    if step.Run? && step.task in y.tasks && y.tasks[step.task].Piping? && y.tasks[step.task].sid == s
      && y.tasks[step.task].stage.Inserting?
    then [y.tasks[step.task].stage.outcome.output] else []
  }

  /** All texts inserted for session `s`. */
  ghost function PutOut(alnum: AlphaNum, steps: seq<Step>, s: SessionId): seq<string>
    decreases |steps|
  {
    if steps == [] then []
    else
      var front := steps[..|steps| - 1];
      PutOut(alnum, front, s) + PutBy(After(alnum, front), steps[|steps| - 1], s)
  }

  /** What a session at this stage has put out. */
  function Due(pc: Pc): seq<string> {
    if pc.Piping? then
      match pc.stage
      case InjectComplete(_, o) => if o.inject then [o.output] else []
      case InjectAnnounce(_, o, _) => if o.inject then [o.output] else []
      case AppendHistory(_, o) => if o.inject then [o.output] else []
      case AnnounceHistory(_, o) => if o.inject then [o.output] else []
      case Finish(_, o) => if o.inject then [o.output] else []
      case _ => []
    else []
  }

  predicate TaskPut(y: Sys, t: TaskId, s: SessionId, put: seq<string>) {
    t in y.tasks && Holder(y.tasks[t]) == Some(s) ==> put == Due(y.tasks[t])
  }

  /** A session nobody has in hands, and that has not ended, has put out nothing. */
  predicate PlacePut(y: Sys, s: SessionId, put: seq<string>) {
    (s in y.places ==> y.places[s] in {Slot, Stranded, Rejected}) ==> put == []
  }

  /** The final transcript says whether and what. */
  predicate FinalPut(e: Event, put: seq<string>)
    requires e.Final?
  {
    (e.skipped <==> put == []) && (put != [] ==> put == [e.output])
  }

  ghost predicate AllPut(y: Sys, s: SessionId, put: seq<string>) {
    && |put| <= 1
    && (forall j :: FinalAt(y.b.log, j, s) ==> FinalPut(y.b.log[j].event, put))
  }

  ghost predicate PutOk(y: Sys, s: SessionId, put: seq<string>) {
    (forall t :: TaskPut(y, t, s, put)) && PlacePut(y, s, put) && AllPut(y, s, put)
  }

  // ------------------------------------------------------------------- one step

  predicate Delivering(stage: Stage) {
    stage.Inserting? || stage.InjectAnnounce? || stage.AppendHistory? || stage.AnnounceHistory? || stage.Finish?
  }

  /** The task goes on with the same session, if at all, and owes `due`. */
  predicate GoesOn(z: Sys, t: TaskId, s: SessionId, due: seq<string>) {
    t in z.tasks && (z.tasks[t] == Done || (Holder(z.tasks[t]) == Some(s) && Due(z.tasks[t]) == due))
  }

  lemma DeliveryDue(y: Sys, t: TaskId, s: SessionId, stage: Stage, i: Input)
    requires Delivering(stage) && StageOk(y.alnum, stage)
    ensures GoesOn(Pipe(y, t, s, stage, i), t, s,
                   Due(Piping(s, stage)) + if stage.Inserting? then [stage.outcome.output] else [])
  {
    hide Decide, Emitted, FinalEvent;
  }

  lemma EarlyDue(y: Sys, t: TaskId, s: SessionId, stage: Stage, i: Input)
    requires t in y.tasks && y.tasks[t] == Piping(s, stage) && !Delivering(stage) && ActionAt(s, stage).None?
    ensures GoesOn(Pipe(y, t, s, stage, i), t, s, [])
  {
    hide Decide, Emitted, FinalEvent, Job.Planned;
  }

  lemma PipeDue(y: Sys, t: TaskId, s: SessionId, stage: Stage, i: Input)
    requires t in y.tasks && y.tasks[t] == Piping(s, stage) && StageOk(y.alnum, stage)
    requires ActionAt(s, stage).Some? ==> Apply(y.b.machine, ActionAt(s, stage).value).Ok?
    ensures GoesOn(Pipe(y, t, s, stage, i), t, s,
                   Due(Piping(s, stage)) + if stage.Inserting? then [stage.outcome.output] else [])
  {
    if Delivering(stage) {
      DeliveryDue(y, t, s, stage, i);
    } else if ActionAt(s, stage).Some? {
      PipeAccepted(y, t, s, stage, i);
      hide Pipe, Apply, Job.WantsTextProcessing, Job.WantsOutput;
    } else {
      EarlyDue(y, t, s, stage, i);
    }
    hide Pipe, GoesOn;
  }

  lemma HandlerDue(y: Sys, t: TaskId, pc: Pc, i: Input)
    requires t in y.tasks && y.tasks[t] == pc && !pc.Piping?
    ensures var z := Advance(y, t, pc, i); t in z.tasks && Due(z.tasks[t]) == []
  {
    hide Pipe, Emitted, Apply;
  }

  /** A task that takes a session over takes it from the shared state, or has made it. */
  lemma TakesOver(y: Sys, t: TaskId, i: Input, s: SessionId)
    requires Inv(y) && Inv(Exec(y, Run(t, i))) && t in y.tasks && Holder(y.tasks[t]) != Some(s)
    requires var z := Exec(y, Run(t, i)); t in z.tasks && Holder(z.tasks[t]) == Some(s)
    ensures s in y.places ==> y.places[s] == Slot
  {
    var z := Exec(y, Run(t, i));
    assert TaskOk(z, t);
    assert SessionOk(y, s);
    AdvanceFair(y, t, y.tasks[t], i, s);
    hide Advance, Told, TextOk, PcOk, Expects, BackendOk;
    if s in y.places && y.places[s] != Slot { NotInSlot(y, s); }
  }

  lemma NotInSlot(y: Sys, s: SessionId)
    requires SessionOk(y, s) && s in y.places && y.places[s] != Slot
    ensures NotRecording(y.b, s) && s in y.texts
  {
    hide Told, TextOk;
    if y.places[s].At? { NeverExpectsRecording(y.tasks[y.places[s].task]); }
  }

  lemma NeverExpectsRecording(pc: Pc)
    ensures Expects(pc) != Some(Recording)
  {
    if pc.Piping? { hide Job.WantsOutput, Job.WantsTextProcessing; }
  }

  lemma MoverPut(y: Sys, t: TaskId, i: Input, s: SessionId, put: seq<string>)
    requires Inv(y) && Inv(Exec(y, Run(t, i))) && t in y.tasks
    requires TaskPut(y, t, s, put) && PlacePut(y, s, put)
    ensures TaskPut(Exec(y, Run(t, i)), t, s, put + PutBy(y, Run(t, i), s))
  {
    var pc := y.tasks[t];
    var z := Exec(y, Run(t, i));
    hide Inv, Advance, Due;
    if t !in z.tasks || Holder(z.tasks[t]) != Some(s) { return; }
    if Holder(pc) != Some(s) {
      TakesOver(y, t, i, s);
      if pc.Piping? {
        Acceptable(y, t, pc.sid, pc.stage);
        PipeDue(y, t, pc.sid, pc.stage, i);
        PipingAdvances(y, t, pc, i);
      } else {
        HandlerDue(y, t, pc, i);
      }
    } else if pc.Piping? {
      Acceptable(y, t, pc.sid, pc.stage);
      PipeDue(y, t, pc.sid, pc.stage, i);
      PipingAdvances(y, t, pc, i);
    } else {
      HandlerDue(y, t, pc, i);
      NothingDue(pc);
    }
  }

  lemma NothingDue(pc: Pc)
    requires !pc.Piping?
    ensures Due(pc) == []
  {}

  lemma Acceptable(y: Sys, t: TaskId, s: SessionId, stage: Stage)
    requires Inv(y) && t in y.tasks && y.tasks[t] == Piping(s, stage)
    ensures StageOk(y.alnum, stage)
    ensures ActionAt(s, stage).Some? ==> Apply(y.b.machine, ActionAt(s, stage).value).Ok?
  {
    assert TaskOk(y, t);
    hide Inv, StageOk, Apply, Holds, ActionAt;
    HolderHolds(y, t);
    if ActionAt(s, stage).Some? { PipeActs(y, t, s, stage, Input(true, true, s, NO_JOB)); }
  }

  /** Only the task that has the session in hands inserts for it, and it has put out
      nothing before; no final transcript has been broadcast. */
  lemma InserterIsHolder(y: Sys, step: Step, s: SessionId, put: seq<string>)
    requires Inv(y) && PutBy(y, step, s) != [] && forall t :: TaskPut(y, t, s, put)
    ensures step.Run? && step.task in y.tasks && Holder(y.tasks[step.task]) == Some(s) && put == []
    ensures s in y.places && y.places[s] == At(step.task)
    ensures forall j :: !FinalAt(y.b.log, j, s)
  {
    assert TaskOk(y, step.task);
    assert SessionOk(y, s);
    assert TaskPut(y, step.task, s, put);
    hide Told, TextOk, Expects, PcOk;
    forall j | FinalAt(y.b.log, j, s) ensures false { FinalTold(y.b.log, s, j); }
  }

  lemma OtherPut(y: Sys, step: Step, u: TaskId, s: SessionId, put: seq<string>)
    requires Inv(y) && (forall t :: TaskPut(y, t, s, put)) && !(step.Run? && step.task == u)
    ensures TaskPut(Exec(y, step), u, s, put + PutBy(y, step, s))
  {
    assert TaskPut(y, u, s, put);
    if u !in Exec(y, step).tasks { return; }
    OnlyMoverMoves(y, step, u);
    if PutBy(y, step, s) != [] { InserterIsHolder(y, step, s, put); }
    hide Exec, PutBy, SessionOk, BackendOk, Told, PcOk, Due;
    if u in y.tasks { assert TaskOk(y, u); }
  }

  lemma AnyPut(y: Sys, step: Step, u: TaskId, s: SessionId, put: seq<string>)
    requires Inv(y) && Inv(Exec(y, step)) && (forall t :: TaskPut(y, t, s, put)) && PlacePut(y, s, put)
    ensures TaskPut(Exec(y, step), u, s, put + PutBy(y, step, s))
  {
    assert TaskPut(y, u, s, put);
    hide Inv, TaskPut, PlacePut, PutBy;
    if !step.Run? || step.task != u {
      OtherPut(y, step, u, s, put);
    } else if u in y.tasks {
      MoverPut(y, u, step.input, s, put);
    } else {
      assert Exec(y, step) == y;
      AbsentPut(y, step, s, put);
    }
  }

  lemma AbsentPut(y: Sys, step: Step, s: SessionId, put: seq<string>)
    requires step.Run? && step.task !in y.tasks
    ensures TaskPut(y, step.task, s, put + PutBy(y, step, s))
  {}

  /** Where a session can go in one step without ending. */
  predicate Onwards(y: Sys, z: Sys, pc: Pc, s: SessionId) {
    (s in z.places ==> z.places[s] in {Slot, Stranded, Rejected}) ==>
      || (s !in y.places && s !in z.places)
      || (s in y.places && s in z.places && y.places[s] == z.places[s])
      || (Holder(pc) == Some(s) && !pc.Piping?)
  }

  lemma PipeOnwards(y: Sys, t: TaskId, sid: SessionId, stage: Stage, i: Input, s: SessionId)
    ensures Onwards(y, Pipe(y, t, sid, stage, i), Piping(sid, stage), s)
  {
    hide Decide, Apply, Emitted, Job.Planned, Job.WantsOutput, Job.WantsTextProcessing, Job.Processed, Job.Rewritten;
  }

  lemma HandlerOnwards(y: Sys, t: TaskId, pc: Pc, i: Input, s: SessionId)
    requires !pc.Piping?
    ensures Onwards(y, Advance(y, t, pc, i), pc, s)
  {
    hide Pipe, Emitted;
  }

  lemma StepOnwards(y: Sys, step: Step, s: SessionId)
    ensures Onwards(y, Exec(y, step), if step.Run? && step.task in y.tasks then y.tasks[step.task] else Done, s)
  {
    hide Emitted, Advance, Holder;
    match step
    case Run(t, i) =>
      if t in y.tasks && y.tasks[t].Piping? {
        PipeOnwards(y, t, y.tasks[t].sid, y.tasks[t].stage, i, s);
        PipingAdvances(y, t, y.tasks[t], i);
      } else if t in y.tasks {
        HandlerOnwards(y, t, y.tasks[t], i, s);
      }
    case Arrive(_, _) =>
    case MeterLevel(_) =>
    case OtherEmit =>
    case _ => if step.sid in y.texts { TextPlaces(y, step.sid, step); }
  }

  lemma StepPlacePut(y: Sys, step: Step, s: SessionId, put: seq<string>)
    requires Inv(y) && (forall t :: TaskPut(y, t, s, put)) && PlacePut(y, s, put)
    ensures PlacePut(Exec(y, step), s, put + PutBy(y, step, s))
  {
    StepOnwards(y, step, s);
    if PutBy(y, step, s) != [] { InserterIsHolder(y, step, s, put); }
    if step.Run? && step.task in y.tasks {
      assert TaskPut(y, step.task, s, put);
      if !y.tasks[step.task].Piping? { NothingDue(y.tasks[step.task]); }
    }
    hide Exec, Inv, Due;
  }

  lemma NewFinalPut(y: Sys, step: Step, s: SessionId, put: seq<string>)
    requires Inv(y) && (forall t :: TaskPut(y, t, s, put))
    requires Emission(y, step).Some? && Emission(y, step).value.Final? && Emission(y, step).value.sid == s
    ensures PutBy(y, step, s) == [] && FinalPut(Emission(y, step).value, put)
  {
    FinalBy(y, step, s);
    assert TaskPut(y, step.task, s, put);
    hide Inv, Emission, Decide, Job.Processed, Job.Rewritten;
  }

  lemma StepAllPut(y: Sys, step: Step, s: SessionId, put: seq<string>)
    requires Inv(y) && (forall t :: TaskPut(y, t, s, put)) && AllPut(y, s, put)
    ensures AllPut(Exec(y, step), s, put + PutBy(y, step, s))
  {
    hide Exec, Inv, Emission, FinalPut, PutBy, TaskPut;
    LogGrows(y, step);
    InsertsQuietly(y, step, s);
    var z, now, e := Exec(y, step), PutBy(y, step, s), Emission(y, step);
    if now != [] {
      InserterIsHolder(y, step, s, put);
    } else {
      assert put + now == put;
      if e.Some? && e.value.Final? && e.value.sid == s { NewFinalPut(y, step, s, put); }
    }
    forall j | FinalAt(z.b.log, j, s) ensures FinalPut(z.b.log[j].event, put + now) {
      if j < |y.b.log| { assert FinalAt(y.b.log, j, s); }
    }
  }

  lemma InsertsQuietly(y: Sys, step: Step, s: SessionId)
    ensures |PutBy(y, step, s)| <= 1
    ensures PutBy(y, step, s) != [] ==> Emission(y, step) == None
  {}

  lemma StepPutOk(y: Sys, step: Step, s: SessionId, put: seq<string>)
    requires Inv(y) && Inv(Exec(y, step)) && PutOk(y, s, put)
    ensures PutOk(Exec(y, step), s, put + PutBy(y, step, s))
  {
    StepPlacePut(y, step, s, put);
    StepAllPut(y, step, s, put);
    var z, more := Exec(y, step), put + PutBy(y, step, s);
    forall u ensures TaskPut(z, u, s, more) { AnyPut(y, step, u, s, put); }
    hide Exec, Inv, AllPut, PlacePut, TaskPut;
  }

  // ------------------------------------------------------------------ every run

  lemma NothingPut(alnum: AlphaNum, s: SessionId)
    ensures PutOk(Init(alnum), s, [])
  {}

  lemma {:induction false} RunsPutOk(alnum: AlphaNum, steps: seq<Step>, s: SessionId)
    ensures PutOk(After(alnum, steps), s, PutOut(alnum, steps, s))
    decreases |steps|
  {
    hide Exec, Inv, PutOk, PutBy;
    if steps == [] {
      NothingPut(alnum, s);
    } else {
      var front := steps[..|steps| - 1];
      RunsPutOk(alnum, front, s);
      EveryRunOk(alnum, front);
      EveryRunOk(alnum, steps);
      LastStep(alnum, steps);
      hide After;
      StepPutOk(After(alnum, front), steps[|steps| - 1], s, PutOut(alnum, front, s));
    }
  }

  /** Over every run a session inserts at most one text. Its final transcript says that
      insertion was skipped exactly if it has inserted none, and otherwise gives the
      text that was inserted. */
  lemma FinalsReportInsertions(steps: seq<Step>, y: Sys, s: SessionId)
    requires RunsTo(steps, y)
    ensures AllPut(y, s, PutOut(y.alnum, steps, s))
  {
    RunsPutOk(y.alnum, steps, s);
    hide PutOut, After, TaskPut, PlacePut, AllPut;
  }
}
