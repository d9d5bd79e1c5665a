/** A pipeline whose steps are not interleaved with others does what the pipeline
    written as one method does. */
module Undisturbed {
  import opened Backends
  import opened Handlers
  import opened Pipeline
  import opened SessionProgress
  import opened SessionSteps
  import opened Sessions
  import opened StateMachines
  import opened Wrappers

  /** What a pipeline is given from outside, all in all. */
  datatype Given = Given(stopped: bool, forwarded: bool, recognised: bool, historyTaken: bool, job: Job)

  /** What it is given at one of its steps. */
  function InputAt(g: Given, pc: Pc): Input {
    var ok := if !pc.Piping? then true
              else match pc.stage
                   case StopCapture => g.stopped
                   case JoinForward => g.forwarded
                   case JoinAsr => g.recognised
                   case AppendHistory(_, _) => g.historyTaken
                   case _ => true;
    Input(ok, true, 0, g.job)
  }

  /** The state after task `t` alone has gone on until it is done, or has to wait. */
  ghost function UntilDone(y: Sys, t: TaskId, g: Given): Sys
    requires t in y.tasks
    decreases Rank(y.tasks[t])
  {
    var pc := y.tasks[t];
    var i := InputAt(g, pc);
    if pc == Done || Waits(y, pc, i) then y
    else
      TasksEnd(y, t, i);
      UntilDone(Exec(y, Run(t, i)), t, g)
  }

  /** Task `t` comes to its end, and leaves the shared state at `b`. */
  ghost predicate Ends(y: Sys, t: TaskId, g: Given, b: Backend) {
    && t in y.tasks
    && var z := UntilDone(y, t, g);
       t in z.tasks && z.tasks[t] == Done && z.b == b
  }

  lemma AtEnd(y: Sys, t: TaskId, g: Given)
    requires t in y.tasks && y.tasks[t] == Done
    ensures Ends(y, t, g, y.b)
  {}

  /** One step, and the rest. */
  lemma Onward(y: Sys, t: TaskId, g: Given, z: Sys, b: Backend)
    requires t in y.tasks && y.tasks[t] != Done && !Waits(y, y.tasks[t], InputAt(g, y.tasks[t]))
    requires z == Advance(y, t, y.tasks[t], InputAt(g, y.tasks[t])) && Ends(z, t, g, b)
    ensures Ends(y, t, g, b)
  {
    hide Advance, InputAt, Waits, Rank;
  }

  predicate At(y: Sys, t: TaskId, sid: SessionId, stage: Stage) { t in y.tasks && y.tasks[t] == Piping(sid, stage) }

  // ------------------------------------------------------------ from the end back

  lemma FromFinish(y: Sys, t: TaskId, g: Given, sid: SessionId, job: Job, o: Outcome)
    requires At(y, t, sid, Finish(job, o))
    ensures Ends(y, t, g, Emitted(y.b, FinalEvent(sid, job, o)))
  {
    hide FinalEvent, Emitted, UntilDone;
    var z := Advance(y, t, y.tasks[t], InputAt(g, y.tasks[t]));
    AtEnd(z, t, g);
    hide Ends;
    Onward(y, t, g, z, z.b);
  }

  lemma FromReport(y: Sys, t: TaskId, g: Given, sid: SessionId, job: Job, o: Outcome)
    requires At(y, t, sid, AppendHistory(job, o)) && y.b.machine == NEW_MACHINE
    ensures Ends(y, t, g, Said(y.b, ReportCourse(sid, job, o, Recorded(job, o, g.historyTaken)), NEW_MACHINE))
  {
    hide FinalEvent, Emitted, Ends, Said;
    var f, a := FinalEvent(sid, job, o), HistoryAdded(sid);
    assert y.b.(machine := NEW_MACHINE) == y.b;
    var z := Advance(y, t, y.tasks[t], InputAt(g, y.tasks[t]));
    if Recorded(job, o, g.historyTaken) {
      var x := Advance(z, t, z.tasks[t], InputAt(g, z.tasks[t]));
      FromFinish(x, t, g, sid, job, o);
      Onward(z, t, g, x, Emitted(x.b, f));
      SaidOne(y.b, NEW_MACHINE, a);
      SaidMore(y.b, [a], NEW_MACHINE, f);
      Onward(y, t, g, z, Emitted(x.b, f));
    } else {
      FromFinish(z, t, g, sid, job, o);
      SaidOne(y.b, NEW_MACHINE, f);
      Onward(y, t, g, z, Emitted(z.b, f));
      assert ReportCourse(sid, job, o, false) == [f];
    }
  }

  predicate Ready(pc: Pc) { pc.Piping? && !pc.stage.JoinText? }

  /** A use of the machine, and its announcement. */
  lemma MoveThenSay(y: Sys, t: TaskId, g: Given, x: Sys, z: Sys, moved: Transition, rest: seq<Event>, m: Machine)
    requires t in y.tasks && Ready(y.tasks[t]) && x == Advance(y, t, y.tasks[t], InputAt(g, y.tasks[t]))
    requires t in x.tasks && Ready(x.tasks[t]) && z == Advance(x, t, x.tasks[t], InputAt(g, x.tasks[t]))
    requires x.b == y.b.(machine := x.b.machine) && z.b == Emitted(x.b, StateChanged(moved))
    requires Ends(z, t, g, Said(z.b, rest, m))
    ensures Ends(y, t, g, Said(y.b, [StateChanged(moved)] + rest, m))
  {
    hide Advance, InputAt, Ends, Emitted, Said;
    SaidFirst(y.b, x.b.machine, StateChanged(moved), rest, m);
    Onward(x, t, g, z, Said(z.b, rest, m));
    Onward(y, t, g, x, Said(z.b, rest, m));
  }

  /** The state after a stage's use of the machine and its announcement. */
  function ActedAndSaid(y: Sys, t: TaskId, sid: SessionId, stage: Stage, m: Machine, moved: Transition): Sys
    requires Announces(Accepting(stage, moved))
  {
    Go(y, t, Piping(sid, Announced(Accepting(stage, moved))), Emitted(y.b.(machine := m), StateChanged(moved)))
  }

  lemma Says(y: Sys, t: TaskId, sid: SessionId, stage: Stage, moved: Transition, i: Input)
    requires Announces(stage) && !stage.AnnounceHistory? && stage.moved == moved
    ensures Pipe(y, t, sid, stage, i) == Go(y, t, Piping(sid, Announced(stage)), Emitted(y.b, StateChanged(moved)))
  {
    hide Emitted;
  }

  /** A use of the machine that is accepted, its announcement, and the rest. */
  lemma ActThenSay(y: Sys, t: TaskId, g: Given, sid: SessionId, stage: Stage, m: Machine, moved: Transition,
                   rest: seq<Event>, end: Machine)
    requires At(y, t, sid, stage) && ActionAt(sid, stage).Some? && !stage.RecoverLock?
    requires Apply(y.b.machine, ActionAt(sid, stage).value) == Ok((m, moved))
    requires Announces(Accepting(stage, moved))
    requires var z := ActedAndSaid(y, t, sid, stage, m, moved); Ends(z, t, g, Said(z.b, rest, end))
    ensures Ends(y, t, g, Said(y.b, [StateChanged(moved)] + rest, end))
  {
    hide Apply, Emitted, Ends, Said, Announced, Job.WantsOutput, Job.WantsTextProcessing, Pipe;
    var i := InputAt(g, y.tasks[t]);
    var x := Advance(y, t, y.tasks[t], i);
    PipeAccepted(y, t, sid, stage, i);
    Says(x, t, sid, Accepting(stage, moved), moved, InputAt(g, x.tasks[t]));
    MoveThenSay(y, t, g, x, ActedAndSaid(y, t, sid, stage, m, moved), moved, rest, end);
  }

  lemma FromInsert(y: Sys, t: TaskId, g: Given, sid: SessionId, job: Job, o: Outcome)
    requires At(y, t, sid, Inserting(job, o)) && y.b.machine == Machine(Injecting, Some(sid)) && o.inject
    ensures Ends(y, t, g, Said(y.b, DeliverCourse(sid, job, o, Recorded(job, o, g.historyTaken)), NEW_MACHINE))
  {
    hide FinalEvent, Ends, Said, ReportCourse, Recorded, Emitted;
    var report := ReportCourse(sid, job, o, Recorded(job, o, g.historyTaken));
    var stage, moved := InjectComplete(job, o), Moved(Injecting, Idle, Some(sid), true);
    var w := Advance(y, t, y.tasks[t], InputAt(g, y.tasks[t]));
    EmittedKeeps(w.b.(machine := NEW_MACHINE), StateChanged(moved));
    FromReport(ActedAndSaid(w, t, sid, stage, NEW_MACHINE, moved), t, g, sid, job, o);
    ActThenSay(w, t, g, sid, stage, NEW_MACHINE, moved, report, NEW_MACHINE);
    Onward(y, t, g, w, Said(y.b, [StateChanged(moved)] + report, NEW_MACHINE));
  }

  lemma FromDelivery(y: Sys, t: TaskId, g: Given, sid: SessionId, job: Job, o: Outcome)
    requires At(y, t, sid, Sessions.Deliver(job, o))
    requires y.b.machine == if o.inject then Machine(Injecting, Some(sid)) else NEW_MACHINE
    ensures Ends(y, t, g, Said(y.b, DeliverCourse(sid, job, o, Recorded(job, o, g.historyTaken)), NEW_MACHINE))
  {
    hide Ends, Said, ReportCourse, Recorded;
    if o.inject {
      FromInsert(y, t, g, sid, job, o);
    } else {
      FromReport(y, t, g, sid, job, o);
      var report := ReportCourse(sid, job, o, Recorded(job, o, g.historyTaken));
      assert DeliverCourse(sid, job, o, Recorded(job, o, g.historyTaken)) == report;
    }
  }

  lemma FromPost(y: Sys, t: TaskId, g: Given, sid: SessionId, job: Job, o: Outcome)
    requires At(y, t, sid, PostComplete(job, o)) && y.b.machine == Machine(PostProcessing, Some(sid))
    requires job.Planned() == PostProcessing
    ensures Ends(y, t, g, Said(y.b, OutputCourse(sid, job, o, Recorded(job, o, g.historyTaken)), NEW_MACHINE))
  {
    hide FinalEvent, Ends, Said, DeliverCourse, Recorded, Job.Planned, Emitted;
    var stage, m := PostComplete(job, o), if o.inject then Machine(Injecting, Some(sid)) else NEW_MACHINE;
    var moved := Moved(PostProcessing, m.state, Some(sid), !o.inject);
    EmittedKeeps(y.b.(machine := m), StateChanged(moved));
    FromDelivery(ActedAndSaid(y, t, sid, stage, m, moved), t, g, sid, job, o);
    var rest := DeliverCourse(sid, job, o, Recorded(job, o, g.historyTaken));
    ActThenSay(y, t, g, sid, stage, m, moved, rest, NEW_MACHINE);
  }

  /** `job` is what the pipeline was given, for the transcript it has. */
  predicate ForGiven(g: Given, job: Job) { job == g.job.(raw := job.raw) }

  lemma FromDecision(y: Sys, t: TaskId, g: Given, sid: SessionId, job: Job)
    requires At(y, t, sid, AskModel(job)) && y.b.machine == PlannedMachine(sid, job) && ForGiven(g, job)
    ensures var o := Decide(job, y.alnum);
            Ends(y, t, g, Said(y.b, OutputCourse(sid, job, o, Recorded(job, o, g.historyTaken)), NEW_MACHINE))
  {
    var o := Decide(job, y.alnum);
    DecisionFitsState(job, y.alnum);
    PlannedOneOf(job);
    hide Decide, Ends, Said, DeliverCourse, Recorded, Job.Planned;
    assert job.(cleanup := g.job.cleanup, rewrite := g.job.rewrite) == job;
    var z := Advance(y, t, y.tasks[t], InputAt(g, y.tasks[t]));
    var course := OutputCourse(sid, job, o, Recorded(job, o, g.historyTaken));
    if job.Planned() == PostProcessing {
      FromPost(z, t, g, sid, job, o);
    } else {
      FromDelivery(z, t, g, sid, job, o);
      assert course == DeliverCourse(sid, job, o, Recorded(job, o, g.historyTaken));
    }
    hide OutputCourse;
    Onward(y, t, g, z, Said(y.b, course, NEW_MACHINE));
  }

  lemma CompletionAccepted(sid: SessionId, job: Job)
    ensures ActionAt(sid, Complete(job)).Some?
    ensures Apply(Machine(Transcribing, Some(sid)), ActionAt(sid, Complete(job)).value) ==
              Ok((PlannedMachine(sid, job), Moved(Transcribing, job.Planned(), Some(sid), job.Planned() == Idle)))
  {
    hide Job.WantsOutput, Job.WantsTextProcessing;
  }

  lemma FromComplete(y: Sys, t: TaskId, g: Given, sid: SessionId, job: Job)
    requires At(y, t, sid, Complete(job)) && y.b.machine == Machine(Transcribing, Some(sid)) && ForGiven(g, job)
    ensures var o := Decide(job, y.alnum);
            Ends(y, t, g, Said(y.b, [Completed(sid, job)] + OutputCourse(sid, job, o, Recorded(job, o, g.historyTaken)),
                               NEW_MACHINE))
  {
    var stage, m := Complete(job), PlannedMachine(sid, job);
    var moved := Moved(Transcribing, job.Planned(), Some(sid), job.Planned() == Idle);
    CompletionAccepted(sid, job);
    hide Decide, Ends, Said, OutputCourse, Recorded, Job.Planned, PlannedMachine, Apply, Emitted, ActionAt;
    EmittedKeeps(y.b.(machine := m), StateChanged(moved));
    FromDecision(ActedAndSaid(y, t, sid, stage, m, moved), t, g, sid, job);
    var o := Decide(job, y.alnum);
    ActThenSay(y, t, g, sid, stage, m, moved, OutputCourse(sid, job, o, Recorded(job, o, g.historyTaken)), NEW_MACHINE);
  }

  // ---------------------------------------------------------------------- failure

  lemma FromRecovery(y: Sys, t: TaskId, g: Given, sid: SessionId)
    requires At(y, t, sid, RecoverLock) && y.b.machine.state == Error
    ensures Ends(y, t, g, Said(y.b, [StateChanged(Moved(Error, Idle, None, false))], NEW_MACHINE))
  {
    hide Said, UntilDone;
    var x := Advance(y, t, y.tasks[t], InputAt(g, y.tasks[t]));
    var z := Advance(x, t, x.tasks[t], InputAt(g, x.tasks[t]));
    AtEnd(z, t, g);
    hide Ends;
    var moved := Moved(Error, Idle, None, false);
    SaidOne(y.b, NEW_MACHINE, StateChanged(moved));
    Onward(x, t, g, z, z.b);
    Onward(y, t, g, x, z.b);
  }

  lemma FromFailEvent(y: Sys, t: TaskId, g: Given, sid: SessionId)
    requires At(y, t, sid, FailEvent) && y.b.machine.state == Error
    ensures var events := [SessionFailed(sid, false), StateChanged(Moved(Error, Idle, None, false))];
            Ends(y, t, g, Said(y.b, events, NEW_MACHINE))
  {
    hide Said, Ends, Emitted;
    var failed, recovered := SessionFailed(sid, false), StateChanged(Moved(Error, Idle, None, false));
    var w := Advance(y, t, y.tasks[t], InputAt(g, y.tasks[t]));
    EmittedKeeps(y.b, failed);
    FromRecovery(w, t, g, sid);
    assert y.b.(machine := y.b.machine) == y.b;
    SaidFirst(y.b, y.b.machine, failed, [recovered], NEW_MACHINE);
    Onward(y, t, g, w, Said(w.b, [recovered], NEW_MACHINE));
    assert [failed] + [recovered] == [failed, recovered];
  }

  lemma FromFailure(y: Sys, t: TaskId, g: Given, sid: SessionId)
    requires At(y, t, sid, FailLock) && y.b.machine == Machine(Transcribing, Some(sid))
    ensures var (events, m) := FailureCourse(sid, y.b.machine);
            Ends(y, t, g, Said(y.b, events, m))
  {
    hide Said, Ends, Emitted;
    var m, moved := Machine(Error, Some(sid)), Moved(Transcribing, Error, Some(sid), true);
    var rest := [SessionFailed(sid, false), StateChanged(Moved(Error, Idle, None, false))];
    EmittedKeeps(y.b.(machine := m), StateChanged(moved));
    FromFailEvent(ActedAndSaid(y, t, sid, FailLock, m, moved), t, g, sid);
    ActThenSay(y, t, g, sid, FailLock, m, moved, rest, NEW_MACHINE);
    assert [StateChanged(moved)] + rest == [StateChanged(moved), rest[0], rest[1]];
  }

  // ------------------------------------------------------------ the whole pipeline

  /** What the text task of the session has to say at its end. */
  function TextOf(y: Sys, sid: SessionId): Option<string> {
    if sid in y.texts && y.texts[sid].Finished? then Some(y.texts[sid].text) else None
  }

  predicate Transcribes(y: Sys, t: TaskId, sid: SessionId, stage: Stage) {
    && At(y, t, sid, stage) && y.b.machine == Machine(Transcribing, Some(sid))
    && sid in y.texts && !y.texts[sid].Running?
  }

  lemma FromText(y: Sys, t: TaskId, g: Given, sid: SessionId)
    requires Transcribes(y, t, sid, JoinText)
    ensures Ends(y, t, g, PipelineEffect(y.b, sid, true, TextOf(y, sid), g.job, y.alnum, g.historyTaken))
  {
    hide Ends, Said, OutputCourse, FailureCourse, Decide, Recorded, Completed, UntilDone;
    var z := Advance(y, t, y.tasks[t], InputAt(g, y.tasks[t]));
    if TextOf(y, sid).Some? {
      FromComplete(z, t, g, sid, g.job.(raw := y.texts[sid].text));
    } else {
      FromFailure(z, t, g, sid);
    }
    Onward(y, t, g, z, PipelineEffect(y.b, sid, true, TextOf(y, sid), g.job, y.alnum, g.historyTaken));
  }

  /** The stages before, each of which goes on if all is well. */
  lemma FromJoin(y: Sys, t: TaskId, g: Given, sid: SessionId, stage: Stage, next: Stage, fine: bool, rest: bool)
    requires Transcribes(y, t, sid, stage)
    requires (stage == StopCapture && next == JoinForward && fine == g.stopped)
          || (stage == JoinForward && next == JoinAsr && fine == g.forwarded)
          || (stage == JoinAsr && next == JoinText && fine == g.recognised)
    requires var z := Advance(y, t, y.tasks[t], InputAt(g, y.tasks[t]));
             fine ==> Ends(z, t, g, PipelineEffect(y.b, sid, rest, TextOf(y, sid), g.job, y.alnum, g.historyTaken))
    ensures Ends(y, t, g, PipelineEffect(y.b, sid, fine && rest, TextOf(y, sid), g.job, y.alnum, g.historyTaken))
  {
    hide Ends, Said, OutputCourse, FailureCourse, Decide, Recorded, Completed, UntilDone;
    var z := Advance(y, t, y.tasks[t], InputAt(g, y.tasks[t]));
    if !fine { FromFailure(z, t, g, sid); }
    Onward(y, t, g, z, PipelineEffect(y.b, sid, fine && rest, TextOf(y, sid), g.job, y.alnum, g.historyTaken));
  }

  /** The step system run without interruption agrees with the pipeline method: from the
      same shared state both end in the same one, event numbers included. */
  lemma UndisturbedPipeline(y: Sys, t: TaskId, g: Given, sid: SessionId)
    requires Transcribes(y, t, sid, StopCapture)
    ensures var ok := g.stopped && g.forwarded && g.recognised;
            Ends(y, t, g, PipelineEffect(y.b, sid, ok, TextOf(y, sid), g.job, y.alnum, g.historyTaken))
  {
    hide Ends, PipelineEffect;
    var forward := Advance(y, t, y.tasks[t], InputAt(g, y.tasks[t]));
    if g.stopped {
      var asr := Advance(forward, t, forward.tasks[t], InputAt(g, forward.tasks[t]));
      if g.forwarded {
        var text := Advance(asr, t, asr.tasks[t], InputAt(g, asr.tasks[t]));
        if g.recognised { FromText(text, t, g, sid); }
        FromJoin(asr, t, g, sid, JoinAsr, JoinText, g.recognised, true);
      }
      FromJoin(forward, t, g, sid, JoinForward, JoinAsr, g.forwarded, g.recognised);
    }
    FromJoin(y, t, g, sid, StopCapture, JoinForward, g.stopped, g.forwarded && g.recognised);
  }
}
