/** Every task of the daemon comes to its end, and with it every session. */
module SessionProgress {
  import opened Backends
  import opened LlmText
  import opened Pipeline
  import opened SessionInvariant
  import opened SessionSteps
  import opened SessionTheorems
  import opened Sessions
  import opened StateMachines
  import opened Wrappers

  /** How many steps a task has left at most, waiting aside. */
  function Rank(pc: Pc): nat {
    match pc
    case Done => 0
    case StartPrepare => 25
    case Committing(_) => 24
    case StartAnnounce(_, _) => 23
    case StartRejected(_) => 1
    case Watching(_) => 22
    case Toggling => 26
    case StopRequest(_) => 23
    case StopAnnounce(_, _, _) => 22
    case StopSettings(_) => 21
    case CancelRequest(_) => 4
    case CancelStop(_, _, _) => 3
    case CancelAnnounce(_, _) => 2
    case CancelFail(_) => 1
    case AutoAnnounce(_, _) => 21
    case Piping(_, stage) => StageRank(stage)
  }

  function StageRank(stage: Stage): nat {
    match stage
    case StopCapture => 20
    case JoinForward => 19
    case JoinAsr => 18
    case JoinText => 17
    case Complete(_) => 16
    case Announce(_, _) => 15
    case AskModel(_) => 14
    case PostComplete(_, _) => 13
    case PostAnnounce(_, _, _) => 12
    case Inserting(_, _) => 11
    case InjectComplete(_, _) => 10
    case InjectAnnounce(_, _, _) => 9
    case AppendHistory(_, _) => 8
    case AnnounceHistory(_, _) => 7
    case Finish(_, _) => 6
    case FailLock => 5
    case FailAnnounce(_) => 4
    case FailEvent => 3
    case RecoverLock => 2
    case RecoverAnnounce(_) => 1
  }

  /** The step cannot be taken yet: the new id is not new, or the text is not there. */
  predicate Waits(y: Sys, pc: Pc, i: Input) {
    || (pc.StartPrepare? && i.settingsRead && i.ok && i.sid in y.texts)
    || (pc.Piping? && pc.stage.JoinText? && (pc.sid !in y.texts || y.texts[pc.sid].Running?))
  }

  /** Stage `stage` has been left for a later one, or for good. */
  predicate Advanced(z: Sys, t: TaskId, stage: Stage) {
    t in z.tasks && (z.tasks[t] == Done || (z.tasks[t].Piping? && StageRank(z.tasks[t].stage) < StageRank(stage)))
  }

  /** The stage after the machine has refused the action, if there is one. */
  function Refusing(stage: Stage): Option<Stage> {
    if stage.RecoverLock? then None else if stage.FailLock? then Some(FailEvent) else Some(FailLock)
  }

  lemma NextRanks(s: SessionId, stage: Stage, moved: Transition)
    ensures ActionAt(s, stage).Some? ==>
              && StageRank(Accepting(stage, moved)) < StageRank(stage)
              && (Refusing(stage).Some? ==> StageRank(Refusing(stage).value) < StageRank(stage))
    ensures Announces(stage) ==> StageRank(Announced(stage)) < StageRank(stage)
  {}

  lemma PipeRefused(y: Sys, t: TaskId, s: SessionId, stage: Stage, i: Input)
    requires ActionAt(s, stage).Some? && Apply(y.b.machine, ActionAt(s, stage).value).Err?
    ensures var pc := match Refusing(stage) case Some(next) => Piping(s, next) case None => Done;
            Pipe(y, t, s, stage, i).tasks == y.tasks[t := pc]
  {
    hide Apply, Job.WantsTextProcessing, Job.WantsOutput;
  }

  lemma ActionEnds(y: Sys, t: TaskId, s: SessionId, stage: Stage, i: Input)
    requires ActionAt(s, stage).Some?
    ensures Advanced(Pipe(y, t, s, stage, i), t, stage)
  {
    hide Apply, ActionAt, Pipe, StageRank, Refusing, Accepting, Announced;
    var r := Apply(y.b.machine, ActionAt(s, stage).value);
    if r.Ok? {
      PipeAccepted(y, t, s, stage, i);
      NextRanks(s, stage, r.value.1);
    } else {
      PipeRefused(y, t, s, stage, i);
      NextRanks(s, stage, Moved(Idle, Idle, None, false));
    }
  }

  lemma AnnouncementEnds(y: Sys, t: TaskId, s: SessionId, stage: Stage, i: Input)
    requires Announces(stage)
    ensures Advanced(Pipe(y, t, s, stage, i), t, stage)
  {
    NextRanks(s, stage, Moved(Idle, Idle, None, false));
    hide Emitted, StageRank;
  }

  lemma JoinEnds(y: Sys, t: TaskId, s: SessionId, stage: Stage, i: Input)
    requires stage.StopCapture? || stage.JoinForward? || stage.JoinAsr? || stage.JoinText?
    requires !Waits(y, Piping(s, stage), i)
    ensures Advanced(Pipe(y, t, s, stage, i), t, stage)
  {}

  lemma OtherEnds(y: Sys, t: TaskId, s: SessionId, stage: Stage, i: Input)
    requires ActionAt(s, stage).None? && !Announces(stage) && !Waits(y, Piping(s, stage), i)
    ensures Advanced(Pipe(y, t, s, stage, i), t, stage)
  {
    if stage.StopCapture? || stage.JoinForward? || stage.JoinAsr? || stage.JoinText? {
      hide Pipe, Advanced;
      JoinEnds(y, t, s, stage, i);
    } else {
      hide Emitted, Decide, FinalEvent, Job.Planned, ActionAt, Waits;
      match stage
      case AskModel(_) =>
      case Inserting(_, _) =>
      case AppendHistory(_, _) =>
      case Finish(_, _) =>
      case FailEvent =>
      case RecoverAnnounce(_) =>
      case _ =>
    }
  }

  lemma PipeEnds(y: Sys, t: TaskId, s: SessionId, stage: Stage, i: Input)
    requires !Waits(y, Piping(s, stage), i)
    ensures Advanced(Pipe(y, t, s, stage, i), t, stage)
  {
    if ActionAt(s, stage).Some? {
      hide Pipe, Advanced;
      ActionEnds(y, t, s, stage, i);
    } else if Announces(stage) {
      hide Pipe, Advanced;
      AnnouncementEnds(y, t, s, stage, i);
    } else {
      hide Pipe, Advanced;
      OtherEnds(y, t, s, stage, i);
    }
  }

  /** Every task ends: each of its steps brings it nearer to its end, however steps of
      other tasks fall in between. */
  lemma TasksEnd(y: Sys, t: TaskId, i: Input)
    requires t in y.tasks && y.tasks[t] != Done && !Waits(y, y.tasks[t], i)
    ensures var z := Advance(y, t, y.tasks[t], i); t in z.tasks && Rank(z.tasks[t]) < Rank(y.tasks[t])
  {
    hide Emitted, Apply, Pipe, StageRank;
    var pc := y.tasks[t];
    if pc.Piping? {
      PipeEnds(y, t, pc.sid, pc.stage, i);
      RankPositive(pc.stage);
    } else {
      FirstStage();
    }
  }

  lemma RankPositive(stage: Stage)
    ensures StageRank(stage) > 0
  {}

  lemma FirstStage()
    ensures StageRank(StopCapture) == 20
  {}

  /** No deadlock: while a session keeps the machine busy after recording, a task of
      that session is at work on it, exactly if the settings were read for its stop. */
  lemma BusyHasWorkerIff(steps: seq<Step>, y: Sys, s: SessionId)
    requires RunsTo(steps, y) && y.b.machine.active == Some(s) && y.b.machine.state != Recording
    ensures !Lost(y.alnum, steps, s) <==>
              exists t ::
                t in y.tasks && Holder(y.tasks[t]) == Some(s) && Expects(y.tasks[t]) == Some(y.b.machine.state)
  {
    RunsToOk(steps, y, s);
    hide RunsTo, Lost, Told, TextOk, Inv;
    if IsStranded(y, s) {
      StrandedAbandoned(y, s);
    } else {
      var t := y.places[s].task;
      assert t in y.tasks && Holder(y.tasks[t]) == Some(s) && Expects(y.tasks[t]) == Some(y.b.machine.state);
    }
  }

  // -------------------------------------------------------------- over whole runs

  lemma PipeTasks(y: Sys, t: TaskId, s: SessionId, stage: Stage, i: Input, u: TaskId)
    requires u in y.tasks && u != t
    ensures var z := Pipe(y, t, s, stage, i); u in z.tasks && z.tasks[u] == y.tasks[u]
  {
    hide Emitted, Apply, Decide, FinalEvent, Job.Planned, Job.WantsOutput, Job.WantsTextProcessing;
  }

  /** A task moves no other. */
  lemma OthersStay(y: Sys, t: TaskId, pc: Pc, i: Input, u: TaskId)
    requires u in y.tasks && u != t
    ensures var z := Advance(y, t, pc, i); u in z.tasks && z.tasks[u] == y.tasks[u]
  {
    hide Pipe, Emitted;
    if pc.Piping? { PipeTasks(y, t, pc.sid, pc.stage, i, u); }
  }

  /** A step of task `t` that does not have to wait. */
  predicate Goes(y: Sys, step: Step, t: TaskId) {
    step.Run? && step.task == t && t in y.tasks && !Waits(y, y.tasks[t], step.input)
  }

  /** The steps of `more` in which task `t` goes on. */
  function Taken(alnum: AlphaNum, steps: seq<Step>, more: seq<Step>, t: TaskId): nat
    decreases |more|
  {
    if more == [] then 0
    else
      var front := more[..|more| - 1];
      Taken(alnum, steps, front, t) + if Goes(After(alnum, steps + front), more[|more| - 1], t) then 1 else 0
  }

  lemma StepRank(y: Sys, step: Step, t: TaskId)
    requires t in y.tasks
    ensures var z := Exec(y, step);
            && t in z.tasks && (y.tasks[t] == Done ==> z.tasks[t] == Done)
            && (y.tasks[t] != Done ==> Rank(z.tasks[t]) + (if Goes(y, step, t) then 1 else 0) <= Rank(y.tasks[t]))
  {
    hide Rank, Advance, TextStep, Emitted;
    match step
    case Run(u, i) =>
      if u in y.tasks {
        if u != t { OthersStay(y, u, y.tasks[u], i, t); }
        else if y.tasks[t] == Done || Waits(y, y.tasks[t], i) { WaitingStays(y, t, y.tasks[t], i); }
        else { TasksEnd(y, t, i); }
      }
    case Arrive(_, _) =>
    case MeterLevel(_) =>
    case OtherEmit =>
    case _ => if step.sid in y.texts { TextPlaces(y, step.sid, step); }
  }

  lemma WaitingStays(y: Sys, t: TaskId, pc: Pc, i: Input)
    requires pc == Done || Waits(y, pc, i)
    ensures Advance(y, t, pc, i) == y
  {}

  lemma {:induction false} RankFalls(alnum: AlphaNum, steps: seq<Step>, more: seq<Step>, t: TaskId)
    requires t in After(alnum, steps).tasks
    ensures var y, z := After(alnum, steps), After(alnum, steps + more);
            && t in z.tasks
            && (z.tasks[t] == Done || Rank(z.tasks[t]) + Taken(alnum, steps, more, t) <= Rank(y.tasks[t]))
    decreases |more|
  {
    hide Exec, Rank, Goes;
    if more == [] {
      assert steps + more == steps;
    } else {
      var front := more[..|more| - 1];
      RankFalls(alnum, steps, front, t);
      Continued(alnum, steps, more);
      hide After;
      StepRank(After(alnum, steps + front), more[|more| - 1], t);
    }
  }

  /** Every task is done once it has gone on 26 times, whatever falls in between. */
  lemma EveryTaskEnds(alnum: AlphaNum, steps: seq<Step>, more: seq<Step>, t: TaskId)
    requires t in After(alnum, steps).tasks && Taken(alnum, steps, more, t) >= 26
    ensures t in After(alnum, steps + more).tasks && After(alnum, steps + more).tasks[t] == Done
  {
    hide After;
    RankFalls(alnum, steps, more, t);
    Ranks(After(alnum, steps).tasks[t]);
    Ranks(After(alnum, steps + more).tasks[t]);
  }

  lemma Ranks(pc: Pc)
    ensures Rank(pc) <= 26 && (Rank(pc) == 0 ==> pc == Done)
    ensures Holder(pc).Some? && AcceptedBy(pc) ==> Rank(pc) <= 22
  {}

  // ----------------------------------------------------- the end of a session

  /** The recording of `s` is with task `t`, or the session is over or lost. */
  predicate WithOrEnded(y: Sys, s: SessionId, t: TaskId) {
    s in y.accepted && s in y.places && y.places[s] in {At(t), Settled, Stranded}
  }

  lemma PipePlaces(y: Sys, t: TaskId, s: SessionId, stage: Stage, i: Input)
    requires s in y.places
    ensures var z := Pipe(y, t, s, stage, i); s in z.places && z.places[s] in {y.places[s], Settled}
  {
    hide Decide, Apply, Emitted, FinalEvent, Job.Planned, Job.WantsOutput, Job.WantsTextProcessing;
  }

  lemma HolderPlaces(y: Sys, t: TaskId, pc: Pc, i: Input, s: SessionId)
    requires s in y.places && Holder(pc) == Some(s) && AcceptedBy(pc)
    ensures var z := Advance(y, t, pc, i); s in z.places && z.places[s] in {y.places[s], Settled, Stranded}
  {
    hide Pipe, Emitted;
    if pc.Piping? { PipePlaces(y, t, s, pc.stage, i); }
  }

  lemma WithStep(y: Sys, step: Step, s: SessionId, t: TaskId)
    requires Inv(y) && WithOrEnded(y, s, t)
    ensures WithOrEnded(Exec(y, step), s, t)
  {
    assert SessionOk(y, s);
    hide Advance, TextStep, Emitted, Told, TextOk, PcOk;
    match step
    case Run(u, i) =>
      if u in y.tasks {
        assert TaskOk(y, u);
        AcceptedStays(y, u, y.tasks[u], i);
        if Holder(y.tasks[u]) == Some(s) { HolderPlaces(y, u, y.tasks[u], i, s); }
        else { AdvanceFair(y, u, y.tasks[u], i, s); }
      }
    case Arrive(_, _) =>
    case MeterLevel(_) =>
    case OtherEmit =>
    case _ => if step.sid in y.texts { TextPlaces(y, step.sid, step); }
  }

  lemma {:induction false} WithForGood(alnum: AlphaNum, steps: seq<Step>, more: seq<Step>, s: SessionId, t: TaskId)
    requires WithOrEnded(After(alnum, steps), s, t)
    ensures WithOrEnded(After(alnum, steps + more), s, t)
    decreases |more|
  {
    hide Exec, WithOrEnded;
    if more == [] {
      assert steps + more == steps;
    } else {
      var front := more[..|more| - 1];
      WithForGood(alnum, steps, front, s, t);
      Continued(alnum, steps, more);
      EveryRunOk(alnum, steps + front);
      WithStep(After(alnum, steps + front), more[|more| - 1], s, t);
    }
  }

  /** Once the task that has an accepted session in its hands has gone on 22 times, the
      session has its terminal event, exactly if the settings were read for its stop. */
  lemma SessionEndsIff(alnum: AlphaNum, steps: seq<Step>, more: seq<Step>, s: SessionId, t: TaskId)
    requires var y := After(alnum, steps); s in y.accepted && t in y.tasks && Holder(y.tasks[t]) == Some(s)
    requires Taken(alnum, steps, more, t) >= 22
    ensures (exists i :: TerminalAt(After(alnum, steps + more).b.log, i, s)) <==> !Lost(alnum, steps + more, s)
  {
    var y, z := After(alnum, steps), After(alnum, steps + more);
    EveryRunOk(alnum, steps);
    RunsReach(alnum, steps + more);
    HolderHolds(y, t);
    Ranks(y.tasks[t]);
    RankFalls(alnum, steps, more, t);
    Ranks(z.tasks[t]);
    WithForGood(alnum, steps, more, s, t);
    RunsToOk(steps + more, z, s);
    hide After, Told, TextOk, Inv, Lost;
    assert z.places[s] != At(t);
    EndedAbandoned(z, s);
    ExactlyOneTerminalIff(steps + more, z, s);
  }

  lemma EndedAbandoned(y: Sys, s: SessionId)
    requires Inv(y) && s in y.places && y.places[s] in {Settled, Stranded}
    ensures Abandoned(y, s) && y.b.machine != Machine(Recording, Some(s))
  {
    assert SessionOk(y, s);
    hide SessionOk, PcOk, Told, TextOk;
    forall t | t in y.tasks ensures Holder(y.tasks[t]) != Some(s) { assert TaskOk(y, t); }
  }

  // ------------------------------------------------------------ sessions at no risk

  /** The task has session `s` in its hands and no settings to read any more: the session
      was stopped by silence or cancelled, or its pipeline has begun. */
  predicate Beyond(pc: Pc, s: SessionId) {
    && Holder(pc) == Some(s)
    && (pc.AutoAnnounce? || pc.CancelStop? || pc.CancelAnnounce? || pc.CancelFail? || pc.Piping?)
  }

  predicate Safe(y: Sys, s: SessionId, t: TaskId) {
    && s in y.accepted && s in y.places && t in y.tasks
    && (y.places[s] == Settled || (y.places[s] == At(t) && Beyond(y.tasks[t], s)))
  }

  lemma PipeStays(y: Sys, t: TaskId, s: SessionId, stage: Stage, i: Input)
    requires t in y.tasks && y.tasks[t] == Piping(s, stage) && s in y.places
    ensures var z := Pipe(y, t, s, stage, i);
            && t in z.tasks && s in z.places
            && (z.places[s] == Settled || (z.places[s] == y.places[s] && Beyond(z.tasks[t], s)))
  {
    hide Decide, Apply, Emitted, FinalEvent, Job.Planned, Job.WantsOutput, Job.WantsTextProcessing;
  }

  lemma BeyondStays(y: Sys, t: TaskId, pc: Pc, i: Input, s: SessionId)
    requires t in y.tasks && y.tasks[t] == pc && Beyond(pc, s) && s in y.places
    ensures var z := Advance(y, t, pc, i);
            && t in z.tasks && s in z.places
            && (z.places[s] == Settled || (z.places[s] == y.places[s] && Beyond(z.tasks[t], s)))
  {
    hide Pipe, Emitted;
    if pc.Piping? { PipeStays(y, t, s, pc.stage, i); }
  }

  lemma SafeStep(y: Sys, step: Step, s: SessionId, t: TaskId)
    requires Inv(y) && Safe(y, s, t)
    ensures Safe(Exec(y, step), s, t)
  {
    assert SessionOk(y, s);
    hide Advance, TextStep, Emitted, Told, TextOk, PcOk;
    match step
    case Run(u, i) =>
      if u in y.tasks {
        assert TaskOk(y, u);
        AcceptedStays(y, u, y.tasks[u], i);
        if u != t { OthersStay(y, u, y.tasks[u], i, t); }
        if Holder(y.tasks[u]) == Some(s) { BeyondStays(y, u, y.tasks[u], i, s); }
        else {
          AdvanceFair(y, u, y.tasks[u], i, s);
          if u == t { StepRank(y, step, t); }
        }
      }
    case Arrive(_, _) =>
    case MeterLevel(_) =>
    case OtherEmit =>
    case _ => if step.sid in y.texts { TextPlaces(y, step.sid, step); }
  }

  lemma {:induction false} SafeForGood(alnum: AlphaNum, steps: seq<Step>, more: seq<Step>, s: SessionId, t: TaskId)
    requires Safe(After(alnum, steps), s, t)
    ensures Safe(After(alnum, steps + more), s, t)
    decreases |more|
  {
    hide Exec, Safe;
    if more == [] {
      assert steps + more == steps;
    } else {
      var front := more[..|more| - 1];
      SafeForGood(alnum, steps, front, s, t);
      Continued(alnum, steps, more);
      EveryRunOk(alnum, steps + front);
      SafeStep(After(alnum, steps + front), more[|more| - 1], s, t);
    }
  }

  /** A session stopped by silence, cancelled, or whose pipeline has begun is never lost,
      however the run goes on. */
  lemma NeverLost(alnum: AlphaNum, steps: seq<Step>, more: seq<Step>, s: SessionId, t: TaskId)
    requires var y := After(alnum, steps); t in y.tasks && Beyond(y.tasks[t], s)
    ensures !Lost(alnum, steps + more, s)
  {
    var y := After(alnum, steps);
    EveryRunOk(alnum, steps);
    HolderHolds(y, t);
    SafeForGood(alnum, steps, more, s, t);
    StrandedIff(alnum, steps + more, s);
  }
}
