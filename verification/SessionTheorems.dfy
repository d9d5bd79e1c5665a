/** What every run of the daemon guarantees its clients. */
module SessionTheorems {
  import opened Backends
  import opened Integers
  import opened LlmText
  import opened Pipeline
  import opened SessionInvariant
  import opened Sessions
  import opened SessionSteps
  import opened StateMachines
  import opened Wrappers

  // ----------------------------------------------------------- terminal events

  predicate IsTerminal(e: Event, s: SessionId) {
    (e.Final? || e.SessionFailed?) && e.sid == s
  }

  predicate TerminalAt(log: seq<Envelope>, i: int, s: SessionId) {
    0 <= i < |log| && IsTerminal(log[i].event, s)
  }

  lemma {:induction false} TerminalsCounted(log: seq<Envelope>, s: SessionId, i: int, j: int)
    requires TerminalAt(log, i, s) && TerminalAt(log, j, s)
    ensures Told(log, s).terminals >= if i == j then 1 else 2
    decreases |log|
  {
    var n := |log| - 1;
    var front := log[..n];
    if i < n && j < n { TerminalsCounted(front, s, i, j); }
    else if i < n { TerminalsCounted(front, s, i, i); }
    else if j < n { TerminalsCounted(front, s, j, j); }
  }

  lemma {:induction false} TerminalFound(log: seq<Envelope>, s: SessionId) returns (i: int)
    requires Told(log, s).terminals >= 1
    ensures TerminalAt(log, i, s)
    decreases |log|
  {
    var n := |log| - 1;
    if IsTerminal(log[n].event, s) { i := n; } else { i := TerminalFound(log[..n], s); }
  }

  /** No session has two terminal events. */
  lemma AtMostOneTerminal(y: Sys, s: SessionId, i: int, j: int)
    requires Reachable(y) && TerminalAt(y.b.log, i, s) && TerminalAt(y.b.log, j, s)
    ensures i == j
  {
    ReachableOk(y);
    assert SessionOk(y, s);
    hide Told, TextOk;
    TerminalsCounted(y.b.log, s, i, j);
  }

  /** No task has anything more to do for the session. */
  ghost predicate Abandoned(y: Sys, s: SessionId) {
    forall t :: t in y.tasks ==> Holder(y.tasks[t]) != Some(s)
  }

  // --------------------------------------------- the settings read of a stop

  predicate IsStranded(y: Sys, s: SessionId) { s in y.places && y.places[s] == Stranded }

  predicate NotRecording(b: Backend, s: SessionId) {
    b.recording != Some(s) && b.machine != Machine(Recording, Some(s))
  }

  /** A step moves a recording only if its task holds it, the machine is recording it,
      or the session is new; it accepts a session only when the machine is idle; and
      it loses a recording only if the settings cannot be read for its stop. */
  predicate Fair(y: Sys, z: Sys, pc: Pc, s: SessionId, settingsRead: bool) {
    && (s in y.places && s in y.texts && Holder(pc) != Some(s) && NotRecording(y.b, s) ==>
          s in z.places && z.places[s] == y.places[s])
    && (y.b.machine.state != Idle ==> z.accepted == y.accepted)
    && (IsStranded(z, s) ==> IsStranded(y, s) || (pc == StopSettings(s) && !settingsRead))
  }

  lemma PipeFair(y: Sys, t: TaskId, sid: SessionId, stage: Stage, i: Input, s: SessionId)
    ensures Fair(y, Pipe(y, t, sid, stage, i), Piping(sid, stage), s, i.settingsRead)
  {
    hide Decide, Apply, Emitted, Job.Planned, Job.WantsOutput, Job.WantsTextProcessing, Job.Processed, Job.Rewritten;
  }

  lemma AdvanceFair(y: Sys, t: TaskId, pc: Pc, i: Input, s: SessionId)
    ensures Fair(y, Advance(y, t, pc, i), pc, s, i.settingsRead)
  {
    hide Pipe, Emitted;
    if pc.Piping? { PipeFair(y, t, pc.sid, pc.stage, i, s); }
  }

  lemma TextPlaces(y: Sys, s: SessionId, step: Step)
    requires s in y.texts
    ensures var z := TextStep(y, s, y.texts[s], step);
            z.places == y.places && z.tasks == y.tasks && z.accepted == y.accepted && z.b.machine == y.b.machine
  {
    hide Trim, Joined;
  }

  lemma FairStep(y: Sys, step: Step, s: SessionId)
    requires Inv(y) && IsStranded(y, s)
    ensures IsStranded(Exec(y, step), s) && Exec(y, step).accepted == y.accepted
  {
    assert SessionOk(y, s);
    hide Advance, TextStep, Emitted, Told, TextOk, PcOk;
    match step
    case Run(t, i) =>
      if t in y.tasks {
        assert TaskOk(y, t);
        AdvanceFair(y, t, y.tasks[t], i, s);
      }
    case Arrive(_, _) =>
    case MeterLevel(_) =>
    case OtherEmit =>
    case _ => if step.sid in y.texts { TextPlaces(y, step.sid, step); }
  }

  /** The step in which the stop of `s` fails to read the settings. */
  predicate Loses(y: Sys, step: Step, s: SessionId) {
    step.Run? && step.task in y.tasks && y.tasks[step.task] == StopSettings(s) && !step.input.settingsRead
  }

  predicate LosesAt(alnum: AlphaNum, steps: seq<Step>, k: int, s: SessionId) {
    0 <= k < |steps| && Loses(After(alnum, steps[..k]), steps[k], s)
  }

  /** Some step of the run is that step. */
  ghost predicate Lost(alnum: AlphaNum, steps: seq<Step>, s: SessionId) {
    exists k :: LosesAt(alnum, steps, k, s)
  }

  lemma StrandedStep(y: Sys, step: Step, s: SessionId)
    requires Inv(y)
    ensures IsStranded(Exec(y, step), s) <==> IsStranded(y, s) || Loses(y, step, s)
  {
    if IsStranded(y, s) {
      FairStep(y, step, s);
    } else {
      hide Inv, Pipe, TextStep, Emitted;
      match step
      case Run(t, i) => if t in y.tasks { AdvanceFair(y, t, y.tasks[t], i, s); }
      case Arrive(_, _) =>
      case MeterLevel(_) =>
      case OtherEmit =>
      case _ => if step.sid in y.texts { TextPlaces(y, step.sid, step); }
    }
  }

  lemma LostMore(alnum: AlphaNum, steps: seq<Step>, s: SessionId)
    requires steps != []
    ensures var n := |steps| - 1;
            Lost(alnum, steps, s) <==> Lost(alnum, steps[..n], s) || Loses(After(alnum, steps[..n]), steps[n], s)
  {
    hide After, Loses;
    var n := |steps| - 1;
    var front := steps[..n];
    forall k | 0 <= k < n ensures LosesAt(alnum, steps, k, s) <==> LosesAt(alnum, front, k, s) {
      assert front[..k] == steps[..k];
    }
    assert LosesAt(alnum, steps, n, s) <==> Loses(After(alnum, front), steps[n], s);
  }

  /** A recording is lost exactly if the settings read of its own stop fails. */
  lemma {:induction false} StrandedIff(alnum: AlphaNum, steps: seq<Step>, s: SessionId)
    ensures IsStranded(After(alnum, steps), s) <==> Lost(alnum, steps, s)
    decreases |steps|
  {
    hide Exec, Loses;
    if steps != [] {
      var n := |steps| - 1;
      StrandedIff(alnum, steps[..n], s);
      LostMore(alnum, steps, s);
      EveryRunOk(alnum, steps[..n]);
      StrandedStep(After(alnum, steps[..n]), steps[n], s);
    }
  }

  /** The run `steps` leads to `y`. */
  ghost predicate RunsTo(steps: seq<Step>, y: Sys) { y == After(y.alnum, steps) }

  lemma RunsToOk(steps: seq<Step>, y: Sys, s: SessionId)
    requires RunsTo(steps, y)
    ensures Reachable(y) && Inv(y) && SessionOk(y, s)
    ensures IsStranded(y, s) <==> Lost(y.alnum, steps, s)
  {
    hide After, SessionOk;
    EveryRunOk(y.alnum, steps);
    StrandedIff(y.alnum, steps, s);
  }

  /** An accepted session that has left Recording and whose tasks are done has its
      terminal event exactly if the settings were read when it was stopped; failing
      reads of others, or of starts, do it no harm. */
  lemma ExactlyOneTerminalIff(steps: seq<Step>, y: Sys, s: SessionId)
    requires RunsTo(steps, y) && s in y.accepted && y.b.machine != Machine(Recording, Some(s)) && Abandoned(y, s)
    ensures (exists i :: TerminalAt(y.b.log, i, s)) <==> !Lost(y.alnum, steps, s)
  {
    RunsToOk(steps, y, s);
    hide Told, TextOk, RunsTo, Lost;
    if y.places[s] == Settled { var i := TerminalFound(y.b.log, s); }
    forall i | TerminalAt(y.b.log, i, s) ensures y.places[s] == Settled {
      TerminalsCounted(y.b.log, s, i, i);
    }
  }

  /** It then has exactly one. */
  lemma ExactlyOneTerminal(steps: seq<Step>, y: Sys, s: SessionId)
    requires RunsTo(steps, y) && s in y.accepted && y.b.machine != Machine(Recording, Some(s)) && Abandoned(y, s)
    requires !Lost(y.alnum, steps, s)
    ensures exists i :: TerminalAt(y.b.log, i, s) && forall j :: TerminalAt(y.b.log, j, s) ==> j == i
  {
    RunsToOk(steps, y, s);
    ExactlyOneTerminalIff(steps, y, s);
    hide RunsTo, Lost, Inv, SessionOk, Reachable;
    var i :| TerminalAt(y.b.log, i, s);
    forall j | TerminalAt(y.b.log, j, s) ensures j == i { AtMostOneTerminal(y, s, j, i); }
  }

  /** A lost recording is lost for good. */
  lemma {:induction false} StrandedStays(alnum: AlphaNum, steps: seq<Step>, more: seq<Step>, s: SessionId)
    requires IsStranded(After(alnum, steps), s)
    ensures var y, z := After(alnum, steps), After(alnum, steps + more);
            IsStranded(z, s) && z.accepted == y.accepted
    decreases |more|
  {
    hide Exec;
    if more == [] {
      assert steps + more == steps;
    } else {
      var n := |more| - 1;
      StrandedStays(alnum, steps, more[..n], s);
      Continued(alnum, steps, more);
      EveryRunOk(alnum, steps + more[..n]);
      FairStep(After(alnum, steps + more[..n]), more[n], s);
    }
  }

  lemma LastStep(alnum: AlphaNum, steps: seq<Step>)
    requires steps != []
    ensures After(alnum, steps) == Exec(After(alnum, steps[..|steps| - 1]), steps[|steps| - 1])
  {
    hide Exec;
  }

  lemma Continued(alnum: AlphaNum, steps: seq<Step>, more: seq<Step>)
    requires more != []
    ensures After(alnum, steps + more) == Exec(After(alnum, steps + more[..|more| - 1]), more[|more| - 1])
  {
    hide Exec, After;
    var all := steps + more;
    LastStep(alnum, all);
    assert all[..|all| - 1] == steps + more[..|more| - 1];
  }

  /** A run that leads to `y` goes on to `z`. */
  ghost predicate Leads(y: Sys, z: Sys) {
    exists steps, more :: y == After(y.alnum, steps) && z == After(y.alnum, steps + more)
  }

  /** When the settings read of a stop fails, the daemon never recovers: whatever
      happens next, the machine stays transcribing that session, which never gets a
      terminal event, and no other session is ever accepted. */
  lemma StrandedForever(y: Sys, z: Sys, s: SessionId, i: int)
    requires Leads(y, z) && s in y.accepted && y.b.machine == Machine(Transcribing, Some(s)) && Abandoned(y, s)
    ensures z.b.machine == Machine(Transcribing, Some(s)) && z.accepted == y.accepted && !TerminalAt(z.b.log, i, s)
  {
    hide After;
    var steps, more :| y == After(y.alnum, steps) && z == After(y.alnum, steps + more);
    EveryRunOk(y.alnum, steps);
    EveryRunOk(y.alnum, steps + more);
    assert SessionOk(y, s);
    assert SessionOk(z, s);
    hide After, Told, TextOk, TaskOk;
    assert y.places[s] == Stranded;
    StrandedStays(y.alnum, steps, more, s);
    if TerminalAt(z.b.log, i, s) { TerminalsCounted(z.b.log, s, i, i); }
  }

  // ------------------------------------------------ the machine and the pipeline

  /** Every action a pipeline asks of the machine is accepted. */
  lemma PipelineNeverRefused(y: Sys, t: TaskId, s: SessionId, stage: Stage)
    requires Reachable(y) && t in y.tasks && y.tasks[t] == Piping(s, stage) && ActionAt(s, stage).Some?
    ensures Apply(y.b.machine, ActionAt(s, stage).value).Ok?
  {
    ReachableOk(y);
    hide Inv, Reachable, Apply, ActionAt, Holds;
    HolderHolds(y, t);
    PipeActs(y, t, s, stage, Input(true, true, s, NO_JOB));
  }

  /** Once the text is decided on, a session is in Injecting exactly until its
      insertion is reported, and only if it is to insert; at the final transcript it
      has given the machine back. */
  lemma InjectingExactly(y: Sys, t: TaskId, s: SessionId, stage: Stage)
    requires Reachable(y) && t in y.tasks && y.tasks[t] == Piping(s, stage)
    requires OutcomeOf(stage).Some? && !stage.PostComplete?
    ensures var m := y.b.machine;
            && (m == Machine(Injecting, Some(s)) <==>
                  OutcomeOf(stage).value.inject && (stage.PostAnnounce? || stage.Inserting? || stage.InjectComplete?))
            && (m != Machine(Injecting, Some(s)) ==> m.active != Some(s))
            && OutcomeOf(stage).value == Decide(stage.job, y.alnum)
  {
    ReachableOk(y);
    hide Inv, Reachable, Told, Decide, TextOk;
    HolderHolds(y, t);
  }

  lemma InserterHolds(y: Sys, t: TaskId)
    requires Inv(y) && t in y.tasks && y.tasks[t].Piping? && y.tasks[t].stage.Inserting?
    ensures var s, stage := y.tasks[t].sid, y.tasks[t].stage;
            && y.b.machine == Machine(Injecting, Some(s)) && s in y.places && y.places[s] == At(t)
            && stage.outcome == Decide(stage.job, y.alnum) && stage.outcome.inject
  {
    hide Inv, Told, Decide, TextOk;
    HolderHolds(y, t);
  }

  /** Insertions never overlap: a task inserts only while its own session holds the
      machine in Injecting, and nobody else inserts. What it inserts into a terminal
      that came from the shipped provider has no line break. */
  lemma InsertionsExclusive(y: Sys, t: TaskId, u: TaskId)
    requires Reachable(y)
    requires t in y.tasks && y.tasks[t].Piping? && y.tasks[t].stage.Inserting?
    requires u in y.tasks && y.tasks[u].Piping? && y.tasks[u].stage.Inserting?
    ensures t == u
    ensures var stage := y.tasks[t].stage;
            && y.b.machine == Machine(Injecting, Some(y.tasks[t].sid))
            && stage.outcome.inject && !stage.outcome.refused && stage.job.settings.mode != NoOutput
            && stage.outcome.output != ""
            && (stage.job.isTerminal && stage.job.FromModel() && ProvidedReply(stage.job, y.alnum) ==>
                  !ContainsLineBreak(stage.outcome.output))
  {
    ReachableOk(y);
    hide Inv, Reachable, Decide, ContainsLineBreak, ProvidedReply;
    InserterHolds(y, t);
    InserterHolds(y, u);
    InjectedIsSafe(y.tasks[t].stage.job, y.alnum);
  }

  lemma InjectedIsSafe(job: Job, alnum: AlphaNum)
    requires Decide(job, alnum).inject
    ensures !Decide(job, alnum).refused && job.settings.mode != NoOutput && Decide(job, alnum).output != ""
    ensures job.isTerminal && job.FromModel() && ProvidedReply(job, alnum) ==>
              !ContainsLineBreak(Decide(job, alnum).output)
  {
    hide ContainsLineBreak, PrepareLlmInsertion, Job.FinalText, ProvidedReply;
    ProvidedNeverEmpty(job, alnum);
  }

  /** A recording is in the shared state exactly while the machine is recording, and
      it is the active session's. */
  lemma RecordingExactly(y: Sys)
    requires Reachable(y)
    ensures y.b.recording == (if y.b.machine.state == Recording then y.b.machine.active else None)
    ensures Coherent(y.b.machine)
  {
    ReachableOk(y);
  }

  // ---------------------------------------------------------------- captures

  /** Task `t` has the running capture of session `s`. */
  ghost predicate Captures(y: Sys, t: TaskId, s: SessionId) {
    t in y.tasks && Holder(y.tasks[t]) == Some(s) && StopsBy(y.tasks[t]) == 0
  }

  /** Every prepared capture is in one place: with one task, or in the shared state,
      or stopped once; or lost, with the machine left transcribing. */
  lemma CapturesConserved(y: Sys, s: SessionId, t: TaskId, u: TaskId)
    requires Reachable(y) && s in y.texts
    ensures && StopsOf(y, s) <= 1
            && (Captures(y, t, s) && Captures(y, u, s) ==> t == u)
            && (Captures(y, t, s) ==> y.b.recording != Some(s) && StopsOf(y, s) == 0)
            && (y.b.recording == Some(s) ==> StopsOf(y, s) == 0)
            && (StopsOf(y, s) == 0 ==>
                  || y.b.recording == Some(s)
                  || (exists v :: Captures(y, v, s))
                  || (y.b.machine == Machine(Transcribing, Some(s)) && Abandoned(y, s)))
  {
    ReachableOk(y);
    assert SessionOk(y, s);
    if t in y.tasks { assert TaskOk(y, t); }
    if u in y.tasks { assert TaskOk(y, u); }
    hide Reachable, Told, TextOk, Inv, PcOk;
    match y.places[s]
    case At(v) => assert StopsOf(y, s) == 0 ==> Captures(y, v, s);
    case Slot =>
    case Stranded => StrandedAbandoned(y, s);
    case Rejected =>
    case Settled =>
  }

  lemma StrandedAbandoned(y: Sys, s: SessionId)
    requires Inv(y) && s in y.places && y.places[s] == Stranded
    ensures Abandoned(y, s)
  {
    hide SessionOk, PcOk, BackendOk;
    forall t | t in y.tasks ensures Holder(y.tasks[t]) != Some(s) { assert TaskOk(y, t); }
  }

  // ------------------------------------------------------------------- events

  /** Events are numbered without gap or repetition, up to the largest number. */
  lemma EventsNumbered(y: Sys, i: nat)
    requires Reachable(y) && i < |y.b.log|
    ensures y.b.log[i].sequence == Saturate(i + 1)
  {
    ReachableOk(y);
    hide Told, SessionOk, TaskOk;
  }

  predicate PartialAt(log: seq<Envelope>, i: int, s: SessionId) {
    0 <= i < |log| && log[i].event.Partial? && log[i].event.sid == s
  }

  predicate FinalAt(log: seq<Envelope>, i: int, s: SessionId) {
    0 <= i < |log| && log[i].event.Final? && log[i].event.sid == s
  }

  lemma {:induction false} PartialTold(log: seq<Envelope>, s: SessionId, i: int)
    requires PartialAt(log, i, s) && Told(log, s).coherent
    ensures log[i].event.text <= Told(log, s).partial
    decreases |log|
  {
    var n := |log| - 1;
    if i < n { PartialTold(log[..n], s, i); }
  }

  lemma {:induction false} FinalTold(log: seq<Envelope>, s: SessionId, i: int)
    requires FinalAt(log, i, s)
    ensures Told(log, s).final
    decreases |log|
  {
    var n := |log| - 1;
    if i < n { FinalTold(log[..n], s, i); }
  }

  lemma {:induction false} PartialsExtend(log: seq<Envelope>, s: SessionId, i: int, j: int)
    requires Told(log, s).coherent && PartialAt(log, i, s) && PartialAt(log, j, s) && i < j
    ensures log[i].event.text < log[j].event.text
    decreases |log|
  {
    var n := |log| - 1;
    if j < n { PartialsExtend(log[..n], s, i, j); } else { PartialTold(log[..n], s, i); }
  }

  lemma {:induction false} LastPartial(log: seq<Envelope>, s: SessionId) returns (i: int)
    requires Told(log, s).partial != ""
    ensures PartialAt(log, i, s) && log[i].event.text == Told(log, s).partial
    decreases |log|
  {
    var n := |log| - 1;
    if PartialAt(log, n, s) { i := n; } else { i := LastPartial(log[..n], s); }
  }

  lemma {:induction false} FinalRepeats(log: seq<Envelope>, s: SessionId, i: int, j: int)
    requires Told(log, s).coherent && FinalAt(log, j, s)
    ensures PartialAt(log, i, s) ==> i < j && log[i].event.text <= log[j].event.raw
    ensures log[j].event.raw != "" ==> exists k :: PartialAt(log, k, s) && log[k].event.text == log[j].event.raw
    decreases |log|
  {
    var n := |log| - 1;
    var front := log[..n];
    if j < n {
      FinalRepeats(front, s, if i < n then i else 0, j);
      FinalTold(front, s, j);
      if log[j].event.raw != "" {
        var k :| PartialAt(front, k, s) && front[k].event.text == log[j].event.raw;
        assert PartialAt(log, k, s);
      }
    } else {
      if PartialAt(log, i, s) { PartialTold(front, s, i); }
      if log[j].event.raw != "" {
        var k := LastPartial(front, s);
        assert PartialAt(log, k, s);
      }
    }
  }

  /** Each partial text of a session properly extends the ones before it; the final
      transcript repeats the last of them, and no partial follows it. */
  lemma TextsGrow(y: Sys, s: SessionId, i: int, j: int)
    requires Reachable(y)
    ensures var log := y.b.log;
            && (PartialAt(log, i, s) && PartialAt(log, j, s) && i < j ==> log[i].event.text < log[j].event.text)
            && (FinalAt(log, j, s) && PartialAt(log, i, s) ==> i < j && log[i].event.text <= log[j].event.raw)
            && (FinalAt(log, j, s) && log[j].event.raw != "" ==>
                  exists k :: PartialAt(log, k, s) && log[k].event.text == log[j].event.raw)
  {
    ReachableOk(y);
    assert SessionOk(y, s);
    assert Told(y.b.log, s).coherent;
    hide Reachable, Told, Inv, SessionOk;
    if PartialAt(y.b.log, i, s) && PartialAt(y.b.log, j, s) && i < j { PartialsExtend(y.b.log, s, i, j); }
    if FinalAt(y.b.log, j, s) { FinalRepeats(y.b.log, s, i, j); }
  }

  // ---------------------------------------------------------------- late requests

  /** The task acts for session `s`: it names it, or cancels whatever is active. */
  predicate ActsFor(pc: Pc, s: SessionId) {
    || pc == Watching(s) || pc == StopRequest(s) || pc == CancelRequest(Some(s)) || pc == CancelRequest(None)
    || (pc.Piping? && pc.sid == s)
  }

  /** A step leaves the machine alone, or follows an edge of the protocol. */
  predicate Edge(m: Machine, n: Machine) { n == m || CanTransitionTo(m.state, n.state) }

  lemma ApplyEdge(m: Machine, a: Action)
    requires Coherent(m) && Apply(m, a).Ok?
    ensures Edge(m, Apply(m, a).value.0)
    ensures m.active.Some? && Names(a).Some? ==> Names(a) == m.active
    ensures a.Start? ==> m.active == None
  {}

  lemma PipeMachine(y: Sys, t: TaskId, s: SessionId, stage: Stage, i: Input)
    requires Coherent(y.b.machine)
    requires ActionAt(s, stage).Some? ==> Expects(Piping(s, stage)).Some? && y.b.machine.active == Some(s)
    ensures var z := Pipe(y, t, s, stage, i);
            Edge(y.b.machine, z.b.machine) && (z.b.machine != y.b.machine ==> y.b.machine.active == Some(s))
  {
    if ActionAt(s, stage).Some? && Apply(y.b.machine, ActionAt(s, stage).value).Ok? {
      ApplyEdge(y.b.machine, ActionAt(s, stage).value);
      PipeAccepted(y, t, s, stage, i);
    }
    EdgeSelf(y.b.machine);
    hide Edge, Apply, Decide, Coherent, Expects, Job.Planned;
    hide Job.WantsOutput, Job.WantsTextProcessing, Job.Processed, Job.Rewritten;
  }

  lemma EdgeSelf(m: Machine)
    ensures Edge(m, m)
  {}

  lemma HandlerMachine(y: Sys, t: TaskId, pc: Pc, i: Input)
    requires Coherent(y.b.machine) && !pc.Piping?
    ensures var z := Advance(y, t, pc, i);
            && Edge(y.b.machine, z.b.machine)
            && (z.b.machine != y.b.machine && y.b.machine.active.Some? ==> ActsFor(pc, y.b.machine.active.value))
  {
    EmittedMachine(y.b);
    hide Emitted, Pipe;
  }

  /** Every step of the machine is an edge of the protocol, and while a session is
      active only tasks that act for it move the machine: a stop or cancel aimed at
      another session, a late watcher or an old pipeline changes nothing. */
  lemma OnlyItsTasks(y: Sys, step: Step)
    requires Reachable(y)
    ensures var m, n := y.b.machine, Exec(y, step).b.machine;
            && Edge(m, n)
            && (n != m && m.active.Some? ==>
                  step.Run? && step.task in y.tasks && ActsFor(y.tasks[step.task], m.active.value))
  {
    ReachableOk(y);
    assert Coherent(y.b.machine);
    hide Reachable;
    EdgeSelf(y.b.machine);
    if step.Run? && step.task in y.tasks {
      assert TaskOk(y, step.task);
      TaskMachine(y, step.task, y.tasks[step.task], step.input);
    } else {
      hide Inv, Edge, Coherent, Trim, Joined, Emitted;
      EmittedMachine(y.b);
    }
  }

  lemma EmittedMachine(b: Backend)
    ensures forall e :: Emitted(b, e).machine == b.machine
  {}

  lemma TaskMachine(y: Sys, t: TaskId, pc: Pc, i: Input)
    requires Coherent(y.b.machine) && t in y.tasks && y.tasks[t] == pc && TaskOk(y, t)
    ensures var m, n := y.b.machine, Advance(y, t, pc, i).b.machine;
            Edge(m, n) && (n != m && m.active.Some? ==> ActsFor(pc, m.active.value))
  {
    if pc.Piping? {
      ActionExpects(pc.sid, pc.stage);
      PipeMachine(y, t, pc.sid, pc.stage, i);
    } else {
      HandlerMachine(y, t, pc, i);
    }
  }

  lemma ActionExpects(s: SessionId, stage: Stage)
    ensures ActionAt(s, stage).Some? ==> Expects(Piping(s, stage)).Some?
  {}

  /** Only the start of a session that was never accepted makes it active. */
  lemma MadeActive(y: Sys, t: TaskId, pc: Pc, i: Input, s: SessionId)
    requires y.b.machine.active != Some(s) && Advance(y, t, pc, i).b.machine.active == Some(s)
    ensures pc == Committing(s)
  {
    EmittedMachine(y.b);
    RegionsActive(y.b);
    hide Emitted, Pipe, Started, TakenBy, Cancelled, AutoStopped;
    if pc.Piping? { PipeActive(y, t, pc.sid, pc.stage, i); }
  }

  lemma RegionsActive(b: Backend)
    ensures forall s :: Started(b, s).0.machine.active in {b.machine.active, Some(s)}
    ensures forall a: Action :: a.Stop? || a.Cancel? ==> TakenBy(b, a).0.machine.active in {b.machine.active, None}
    ensures forall target :: Cancelled(b, target).0.machine.active in {b.machine.active, None}
    ensures forall s :: AutoStopped(b, s).0.machine.active in {b.machine.active, None}
  {}

  lemma PipeActive(y: Sys, t: TaskId, sid: SessionId, stage: Stage, i: Input)
    ensures Pipe(y, t, sid, stage, i).b.machine.active in {None, y.b.machine.active}
  {
    EmittedMachine(y.b);
    hide Emitted, Decide, Job.Planned, Job.WantsOutput, Job.WantsTextProcessing, Job.Processed, Job.Rewritten;
  }

  /** A session that was accepted and is no longer active. */
  predicate Over(y: Sys, s: SessionId) { s in y.accepted && y.b.machine.active != Some(s) }

  lemma OverStep(y: Sys, step: Step, s: SessionId)
    requires Inv(y) && Over(y, s)
    ensures Over(Exec(y, step), s)
  {
    assert SessionOk(y, s);
    EmittedMachine(y.b);
    hide Advance, TextStep, Emitted, Told, TextOk, PcOk;
    match step
    case Run(t, i) =>
      if t in y.tasks {
        assert TaskOk(y, t);
        AcceptedStays(y, t, y.tasks[t], i);
        if Exec(y, step).b.machine.active == Some(s) { MadeActive(y, t, y.tasks[t], i, s); }
      }
    case Arrive(_, _) =>
    case MeterLevel(_) =>
    case OtherEmit =>
    case _ => if step.sid in y.texts { TextPlaces(y, step.sid, step); }
  }

  lemma AcceptedStays(y: Sys, t: TaskId, pc: Pc, i: Input)
    ensures y.accepted <= Advance(y, t, pc, i).accepted
  {
    hide Pipe, Emitted;
    if pc.Piping? { PipeAccepts(y, t, pc.sid, pc.stage, i); }
  }

  lemma PipeAccepts(y: Sys, t: TaskId, sid: SessionId, stage: Stage, i: Input)
    ensures Pipe(y, t, sid, stage, i).accepted == y.accepted
  {
    hide Decide, Apply, Emitted, Job.Planned, Job.WantsOutput, Job.WantsTextProcessing, Job.Processed, Job.Rewritten;
  }

  /** A session that is over never becomes active again. */
  lemma {:induction false} OverForGood(alnum: AlphaNum, steps: seq<Step>, more: seq<Step>, s: SessionId)
    requires Over(After(alnum, steps), s)
    ensures Over(After(alnum, steps + more), s)
    decreases |more|
  {
    hide Exec, Over;
    if more == [] {
      assert steps + more == steps;
    } else {
      var front := more[..|more| - 1];
      OverForGood(alnum, steps, front, s);
      Continued(alnum, steps, more);
      EveryRunOk(alnum, steps + front);
      OverStep(After(alnum, steps + front), more[|more| - 1], s);
    }
  }

  /** A shortcut that saw one session recording cannot stop a later one: it asks to stop
      the session it saw, and once that one is over, the request changes nothing, at
      whatever later point of the run it is carried out. */
  lemma ShortcutCannotStopNewer(y: Sys, x: Sys, z: Sys, t: TaskId, i: Input, s: SessionId)
    requires t in y.tasks && y.tasks[t] == Toggling && y.b.machine == Machine(Recording, Some(s))
    requires Leads(x, z) && Over(x, s)
    ensures Advance(y, t, Toggling, i) == Go(y, t, StopRequest(s), y.b)
    ensures Advance(z, t, StopRequest(s), i) == Go(z, t, Done, z.b)
  {
    assert z.b.machine.active != Some(s) by {
      hide After, Exec;
      var steps, more :| x == After(x.alnum, steps) && z == After(x.alnum, steps + more);
      OverForGood(x.alnum, steps, more, s);
    }
    hide Pipe, Emitted;
  }

  // ------------------------------------------------------- a stranding run

  lemma OneMore(alnum: AlphaNum, steps: seq<Step>, step: Step)
    ensures After(alnum, steps + [step]) == Exec(After(alnum, steps), step)
  {
    assert (steps + [step])[..|steps|] == steps;
  }

  const NO_JOB := Job(Settings(false, false, false, NoOutput, false), false, false, false, "", "", TimedOut, TimedOut)

  /** A start, and a stop whose settings read fails. */
  function LosingRun(s: SessionId): seq<Step> {
    var go := Input(true, true, s, NO_JOB);
    [Arrive(0, StartPrepare), Run(0, go), Run(0, go), Arrive(1, StopRequest(s)), Run(1, go), Run(1, go),
     Run(1, go.(settingsRead := false))]
  }

  /** The failing read that loses a session can happen in any daemon. */
  lemma StrandingHappens(alnum: AlphaNum, s: SessionId)
    ensures var y := After(alnum, LosingRun(s));
            s in y.accepted && y.b.machine == Machine(Transcribing, Some(s)) && Abandoned(y, s)
  {
    var steps := LosingRun(s);
    forall k: nat | k < 7 ensures After(alnum, steps[..k + 1]) == Exec(After(alnum, steps[..k]), steps[k]) {
      Next(alnum, steps, k);
    }
    assert steps[..7] == steps;
    hide After;
    StartCommits(After(alnum, []), s);
    LosingStop(After(alnum, steps[..3]), s);
  }

  lemma StartCommits(y: Sys, s: SessionId)
    requires y.tasks == map[] && y.texts == map[] && y.b == NEW_BACKEND
    ensures var steps := LosingRun(s);
            var z := Exec(Exec(Exec(y, steps[0]), steps[1]), steps[2]);
            && z.tasks == map[0 := StartAnnounce(s, Moved(Idle, Recording, Some(s), false))] && s in z.accepted
            && z.b.machine == Machine(Recording, Some(s)) && z.b.recording == Some(s)
  {
    hide Pipe, TextStep, Emitted;
    var go := Input(true, true, s, NO_JOB);
    var y1 := Exec(y, Arrive(0, StartPrepare));
    assert y1 == y.(tasks := map[0 := StartPrepare]);
    var y2 := Exec(y1, Run(0, go));
    assert y2.tasks == map[0 := Committing(s)] && y2.b == NEW_BACKEND;
  }

  lemma LosingStop(y: Sys, s: SessionId)
    requires y.tasks.Keys == {0} && y.tasks[0].StartAnnounce? && s in y.accepted
    requires y.b.machine == Machine(Recording, Some(s)) && y.b.recording == Some(s)
    ensures var steps := LosingRun(s);
            var z := Exec(Exec(Exec(Exec(y, steps[3]), steps[4]), steps[5]), steps[6]);
            s in z.accepted && z.b.machine == Machine(Transcribing, Some(s)) && Abandoned(z, s)
  {
    hide Pipe, TextStep;
  }

  lemma Next(alnum: AlphaNum, steps: seq<Step>, k: nat)
    requires k < |steps|
    ensures After(alnum, steps[..k + 1]) == Exec(After(alnum, steps[..k]), steps[k])
  {
    assert steps[..k + 1] == steps[..k] + [steps[k]];
    OneMore(alnum, steps[..k], steps[k]);
  }
}
