/** What a session's final transcript says: the decision on what its pipeline was given. */
module SessionReports {
  import opened Backends
  import opened Broadcasts
  import opened LlmText
  import opened Pipeline
  import opened SessionInvariant
  import opened SessionSteps
  import opened SessionTheorems
  import opened Sessions
  import opened StateMachines
  import opened Wrappers

  /** What the step gives the pipeline of `s`: once its text is complete, the settings
      and that text; later, the replies of the model. */
  function GivenBy(y: Sys, step: Step, s: SessionId, before: Option<Job>): Option<Job> {
    if !step.Run? || step.task !in y.tasks || !y.tasks[step.task].Piping? || y.tasks[step.task].sid != s then before
    else
      match y.tasks[step.task].stage
      case JoinText =>
        if s in y.texts && y.texts[s].Finished? then Some(step.input.job.(raw := y.texts[s].text)) else before
      case AskModel(_) =>
        if before.None? then None
        else Some(before.value.(cleanup := step.input.job.cleanup, rewrite := step.input.job.rewrite))
      case _ => before
  }

  /** What the pipeline of `s` has been given in the course of a run. */
  ghost function Given(alnum: AlphaNum, steps: seq<Step>, s: SessionId): Option<Job>
    decreases |steps|
  {
    if steps == [] then None
    else
      var front, step := steps[..|steps| - 1], steps[|steps| - 1];
      GivenBy(After(alnum, front), step, s, Given(alnum, front, s))
  }

  /** The job in a task's hands, if it is one of session `s`. */
  function JobFor(pc: Pc, s: SessionId): Option<Job> { if pc.Piping? && pc.sid == s then JobOf(pc) else None }

  predicate Works(y: Sys, t: TaskId, s: SessionId, given: Option<Job>) {
    t in y.tasks && JobFor(y.tasks[t], s).Some? ==> JobFor(y.tasks[t], s) == given
  }

  /** The event reports the decision on what was given. */
  predicate Decided(alnum: AlphaNum, e: Event, s: SessionId, given: Option<Job>) {
    given.Some? && e == FinalEvent(s, given.value, Decide(given.value, alnum))
  }

  ghost predicate AllDecided(y: Sys, s: SessionId, given: Option<Job>) {
    forall j :: FinalAt(y.b.log, j, s) ==> Decided(y.alnum, y.b.log[j].event, s, given)
  }

  /** Every task of `s` works on what was given, and every final transcript of `s` is
      decided on it. */
  ghost predicate AllGiven(y: Sys, s: SessionId, given: Option<Job>) {
    (forall t :: Works(y, t, s, given)) && AllDecided(y, s, given)
  }

  lemma JoinJob(y: Sys, t: TaskId, s: SessionId, i: Input)
    requires t in y.tasks && y.tasks[t] == Piping(s, JoinText)
    ensures var job := JobFor(Pipe(y, t, s, JoinText, i).tasks[t], s);
            job.Some? ==> s in y.texts && y.texts[s].Finished? && job.value == i.job.(raw := y.texts[s].text)
  {}

  lemma AskJob(y: Sys, t: TaskId, s: SessionId, asked: Job, i: Input)
    ensures JobFor(Pipe(y, t, s, AskModel(asked), i).tasks[t], s) ==
              Some(asked.(cleanup := i.job.cleanup, rewrite := i.job.rewrite))
  {
    hide Decide, Job.Planned;
  }

  lemma PipeKeepsJob(y: Sys, z: Sys, t: TaskId, r: SessionId, stage: Stage, i: Input)
    requires z == Pipe(y, t, r, stage, i) && t in z.tasks
    requires !stage.AskModel? && JobOf(Piping(r, stage)).Some?
    ensures z.tasks[t].Piping? ==> z.tasks[t].sid == r && JobOf(z.tasks[t]) in {None, JobOf(Piping(r, stage))}
  {
    hide Performed, Decide, Emitted, FinalEvent, Job.Planned, Job.WantsOutput, Job.WantsTextProcessing;
  }

  lemma PipeNoJob(y: Sys, z: Sys, t: TaskId, r: SessionId, stage: Stage, i: Input)
    requires z == Pipe(y, t, r, stage, i) && t in z.tasks
    requires !stage.JoinText? && JobOf(Piping(r, stage)).None?
    ensures z.tasks[t].Piping? ==> z.tasks[t].sid == r && JobOf(z.tasks[t]) == None
  {
    hide Performed, Emitted;
  }

  lemma PipeSid(y: Sys, z: Sys, t: TaskId, r: SessionId, stage: Stage, i: Input)
    requires z == Pipe(y, t, r, stage, i) && t in z.tasks && (stage.JoinText? || stage.AskModel?)
    requires t in y.tasks && y.tasks[t] == Piping(r, stage)
    ensures z.tasks[t].Piping? ==> z.tasks[t].sid == r
  {
    hide Decide, Job.Planned;
  }

  lemma HandlerJob(y: Sys, z: Sys, t: TaskId, pc: Pc, i: Input)
    requires t in y.tasks && y.tasks[t] == pc && !pc.Piping? && z == Advance(y, t, pc, i) && t in z.tasks
    ensures JobOf(z.tasks[t]) == None
  {
    hide Pipe, Apply, Emitted;
  }

  /** The task that moves goes on with what was given. */
  lemma MoverWorks(y: Sys, t: TaskId, i: Input, s: SessionId, before: Option<Job>)
    requires t in y.tasks && Works(y, t, s, before)
    ensures Works(Exec(y, Run(t, i)), t, s, GivenBy(y, Run(t, i), s, before))
  {
    hide Pipe, Advance, JobOf;
    var pc := y.tasks[t];
    var z := Exec(y, Run(t, i));
    if t !in z.tasks { return; }
    if !pc.Piping? {
      HandlerJob(y, z, t, pc, i);
    } else {
      PipingAdvances(y, t, pc, i);
      if pc.stage.JoinText? {
        PipeSid(y, z, t, pc.sid, pc.stage, i);
        JoinJob(y, t, pc.sid, i);
      } else if pc.stage.AskModel? {
        PipeSid(y, z, t, pc.sid, pc.stage, i);
        AskJob(y, t, pc.sid, pc.stage.job, i);
        AskedJob(pc.sid, pc.stage.job);
      } else if JobOf(pc).Some? {
        PipeKeepsJob(y, z, t, pc.sid, pc.stage, i);
      } else {
        PipeNoJob(y, z, t, pc.sid, pc.stage, i);
      }
    }
  }

  lemma AskedJob(s: SessionId, job: Job)
    ensures JobOf(Piping(s, AskModel(job))) == Some(job)
  {}

  /** Only the task that has the session's recording is given something for it. */
  lemma GivenToHolder(y: Sys, step: Step, s: SessionId, before: Option<Job>)
    requires Inv(y) && GivenBy(y, step, s, before) != before
    ensures step.Run? && step.task in y.tasks && s in y.places && y.places[s] == At(step.task)
    ensures forall j :: !FinalAt(y.b.log, j, s)
  {
    assert TaskOk(y, step.task);
    assert SessionOk(y, s);
    hide Told, TextOk, Expects, PcOk;
    forall j | FinalAt(y.b.log, j, s) ensures false { FinalTold(y.b.log, s, j); }
  }

  lemma PipeMoves(y: Sys, t: TaskId, s: SessionId, stage: Stage, i: Input, u: TaskId)
    requires u != t
    ensures u in Pipe(y, t, s, stage, i).tasks <==> u in y.tasks
    ensures u in y.tasks ==> Pipe(y, t, s, stage, i).tasks[u] == y.tasks[u]
  {
    hide Performed, Decide, Emitted, FinalEvent, Job.Planned, Job.WantsOutput, Job.WantsTextProcessing;
  }

  lemma AdvanceMoves(y: Sys, t: TaskId, pc: Pc, i: Input, u: TaskId)
    requires u != t
    ensures u in Advance(y, t, pc, i).tasks <==> u in y.tasks
    ensures u in y.tasks ==> Advance(y, t, pc, i).tasks[u] == y.tasks[u]
  {
    hide Pipe, Emitted, Started, TakenBy, Cancelled, AutoStopped;
    if pc.Piping? { PipeMoves(y, t, pc.sid, pc.stage, i, u); }
  }

  lemma OnlyMoverMoves(y: Sys, step: Step, u: TaskId)
    requires u in Exec(y, step).tasks && !(step.Run? && step.task == u)
    ensures if u in y.tasks then Exec(y, step).tasks[u] == y.tasks[u] else IsRequest(Exec(y, step).tasks[u])
  {
    hide Advance, Emitted, Trim, Joined;
    if step.Run? && step.task in y.tasks { AdvanceMoves(y, step.task, y.tasks[step.task], step.input, u); }
  }

  lemma OtherWorks(y: Sys, step: Step, u: TaskId, s: SessionId, before: Option<Job>)
    requires Inv(y) && Works(y, u, s, before) && !(step.Run? && step.task == u)
    ensures Works(Exec(y, step), u, s, GivenBy(y, step, s, before))
  {
    if u !in Exec(y, step).tasks { return; }
    OnlyMoverMoves(y, step, u);
    if GivenBy(y, step, s, before) != before { GivenToHolder(y, step, s, before); }
    hide Exec, GivenBy, SessionOk, BackendOk, Told;
    if u in y.tasks { assert TaskOk(y, u); }
  }

  lemma FinisherDecided(y: Sys, step: Step, s: SessionId, before: Option<Job>)
    requires step.Run? && step.task in y.tasks && y.tasks[step.task].Piping? && y.tasks[step.task].stage.Finish?
    requires y.tasks[step.task].sid == s && TaskOk(y, step.task) && Works(y, step.task, s, before)
    ensures Decided(y.alnum, SaidBy(y.tasks[step.task]).value, s, GivenBy(y, step, s, before))
  {
    hide FinalEvent, Decide, Expects, Holder;
  }

  /** Only a pipeline at its end says a final transcript. */
  lemma FinalBy(y: Sys, step: Step, s: SessionId)
    requires Emission(y, step).Some? && Emission(y, step).value.Final? && Emission(y, step).value.sid == s
    ensures step.Run? && step.task in y.tasks
    ensures var pc := y.tasks[step.task]; pc.Piping? && pc.stage.Finish? && pc.sid == s
    ensures Emission(y, step) == SaidBy(y.tasks[step.task])
  {}

  lemma NewFinalDecided(y: Sys, step: Step, s: SessionId, before: Option<Job>)
    requires Inv(y) && forall t :: Works(y, t, s, before)
    ensures var e := Emission(y, step);
            e.Some? && e.value.Final? && e.value.sid == s ==>
              Decided(y.alnum, e.value, s, GivenBy(y, step, s, before))
  {
    var e := Emission(y, step);
    if e.None? || !e.value.Final? || e.value.sid != s { return; }
    FinalBy(y, step, s);
    hide Emission, SaidBy, TaskOk, SessionOk, BackendOk, GivenBy, Works, Decided;
    assert TaskOk(y, step.task) && Works(y, step.task, s, before);
    FinisherDecided(y, step, s, before);
  }

  lemma AllGivenStep(y: Sys, step: Step, s: SessionId, before: Option<Job>)
    requires Inv(y) && AllGiven(y, s, before)
    ensures AllGiven(Exec(y, step), s, GivenBy(y, step, s, before))
  {
    hide Exec, Decided, Inv, Works, GivenBy, Emission;
    var given := GivenBy(y, step, s, before);
    var z := Exec(y, step);
    ExecAlnum(y, step);
    LogGrows(y, step);
    if given != before { GivenToHolder(y, step, s, before); }
    NewFinalDecided(y, step, s, before);
    forall u ensures Works(z, u, s, given) { StepWorks(y, step, u, s, before); }
    forall j | FinalAt(z.b.log, j, s) ensures Decided(y.alnum, z.b.log[j].event, s, given) {
      if j < |y.b.log| { assert FinalAt(y.b.log, j, s); }
    }
  }

  lemma StepWorks(y: Sys, step: Step, u: TaskId, s: SessionId, before: Option<Job>)
    requires Inv(y) && Works(y, u, s, before)
    ensures Works(Exec(y, step), u, s, GivenBy(y, step, s, before))
  {
    hide Inv, Works, GivenBy;
    if !step.Run? || step.task != u {
      OtherWorks(y, step, u, s, before);
    } else if u in y.tasks {
      MoverWorks(y, u, step.input, s, before);
    } else {
      assert Exec(y, step) == y;
      AbsentWorks(y, u, s, GivenBy(y, step, s, before));
    }
  }

  lemma AbsentWorks(y: Sys, u: TaskId, s: SessionId, given: Option<Job>)
    requires u !in y.tasks
    ensures Works(y, u, s, given)
  {}

  lemma {:induction false} RunsGiven(alnum: AlphaNum, steps: seq<Step>, s: SessionId)
    ensures AllGiven(After(alnum, steps), s, Given(alnum, steps, s))
    decreases |steps|
  {
    RunsReach(alnum, steps);
    if steps != [] {
      var front := steps[..|steps| - 1];
      RunsGiven(alnum, front, s);
      EveryRunOk(alnum, front);
      LastStep(alnum, steps);
      hide Exec, Inv, AllGiven, GivenBy, After;
      AllGivenStep(After(alnum, front), steps[|steps| - 1], s, Given(alnum, front, s));
    }
  }

  /** Field by field, the event says what came of the job: the transcript, the text
      after the filler setting or the clean-up's reply, the rewriting's reply, what was
      put out, and whether insertion was skipped. */
  predicate Quotes(e: Event, s: SessionId, g: Job, alnum: AlphaNum) {
    var t := if g.settings.removeFillers then g.withoutFillers else g.raw;
    var rewrites := g.settings.rewriteEnabled && Trim(t) != "";
    var cleansUp := !g.settings.rewriteEnabled && g.settings.postEnabled && g.hasProcessor && Trim(t) != "";
    && e.Final? && e.sid == s && e.raw == g.raw
    && e.processed == (if cleansUp && g.cleanup.Text? && Trim(g.cleanup.text) != "" then g.cleanup.text else t)
    && e.rewritten == (if rewrites && g.hasRewriter && g.rewrite.Text? && Trim(g.rewrite.text) != ""
                       then Some(g.rewrite.text) else None)
    && e.output == Decide(g, alnum).output
    && (e.skipped <==> !Decide(g, alnum).inject)
  }

  lemma FinalQuotes(s: SessionId, g: Job, alnum: AlphaNum)
    ensures Quotes(FinalEvent(s, g, Decide(g, alnum)), s, g, alnum)
  {
    hide Decide, Trim;
  }

  ghost predicate AllQuote(y: Sys, s: SessionId, given: Option<Job>) {
    forall j :: FinalAt(y.b.log, j, s) ==> given.Some? && Quotes(y.b.log[j].event, s, given.value, y.alnum)
  }

  /** Every final transcript of a session reports what came of what its own pipeline was
      given: the texts of each stage, what was put out, and whether that was skipped. */
  lemma FinalsReportDecisions(steps: seq<Step>, y: Sys, s: SessionId)
    requires RunsTo(steps, y)
    ensures AllQuote(y, s, Given(y.alnum, steps, s))
  {
    RunsGiven(y.alnum, steps, s);
    hide Given, After, Works, FinalEvent, Quotes, Decide;
    var given := Given(y.alnum, steps, s);
    if given.Some? { FinalQuotes(s, given.value, y.alnum); }
  }
}
