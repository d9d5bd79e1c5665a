/** Every step of the daemon keeps the invariant. */
module SessionSteps {
  import opened Backends
  import opened LlmText
  import opened Pipeline
  import opened SessionInvariant
  import opened Sessions
  import opened StateMachines
  import opened Wrappers

  // ------------------------------------------------------------------ emission

  /** The session whose story an event adds to. */
  function About(e: Event): Option<SessionId> {
    match e
    case Partial(sid, _) => Some(sid)
    case Final(sid, _, _, _, _, _) => Some(sid)
    case SessionFailed(sid, _) => Some(sid)
    case _ => None
  }

  /** The state after at most one event, which adds to the story of `s` alone. */
  ghost predicate Emits(b: Backend, c: Backend, s: Option<SessionId>) {
    c == b || exists e :: About(e) in {None, s} && c == Emitted(b, e)
  }

  lemma EmitsNumbered(b: Backend, c: Backend, s: Option<SessionId>)
    requires Emits(b, c, s) && Numbered(b.sequence, b.log)
    ensures Numbered(c.sequence, c.log) && c.machine == b.machine && c.recording == b.recording
  {}

  lemma EmitsOne(b: Backend, e: Event, s: Option<SessionId>)
    requires About(e) in {None, s}
    ensures Emits(b, Emitted(b, e), s)
  {}

  lemma EmitsOther(b: Backend, c: Backend, s: Option<SessionId>, r: SessionId)
    requires Emits(b, c, s) && s != Some(r)
    ensures Told(c.log, r) == Told(b.log, r)
  {
    if c != b {
      var e :| About(e) in {None, s} && c == Emitted(b, e);
      ToldEmitted(b, e, r);
    }
  }

  // ------------------------------------------------ steps that hold no session

  lemma Quiet(y: Sys, t: TaskId, pc: Pc, b: Backend)
    requires Inv(y) && Emits(y.b, b, None)
    requires (t in y.tasks ==> Holder(y.tasks[t]) == None) && Holder(pc) == None
    ensures Inv(Go(y, t, pc, b))
  {
    hide Told, SessionOk, Numbered, Emits, Coherent;
    var z := Go(y, t, pc, b);
    EmitsNumbered(y.b, b, None);
    forall r: SessionId ensures Untouched(y, z, r) { EmitsOther(y.b, b, None, r); }
    forall r: SessionId ensures SessionOk(z, r) {
      assert SessionOk(y, r);
      OtherSession(y, z, t, r + 1, r);
    }
    forall u | u in z.tasks ensures TaskOk(z, u) {
      if u != t { OtherTask(y, z, t, if Holder(y.tasks[u]) == Some(0) then 1 else 0, u); }
    }
  }

  // ----------------------------------------- steps with a session in its hands

  /** Task `t` is at `pc` with session `s` in its hands. */
  ghost predicate Holds(y: Sys, t: TaskId, s: SessionId) {
    && Inv(y) && t in y.tasks && Holder(y.tasks[t]) == Some(s)
    && s in y.places && y.places[s] == At(t)
    && PlaceOk(y, s, At(t), Told(y.b.log, s)) && TaskOk(y, t)
  }

  lemma HolderHolds(y: Sys, t: TaskId)
    requires Inv(y) && t in y.tasks && Holder(y.tasks[t]).Some?
    ensures Holds(y, t, Holder(y.tasks[t]).value)
  {
    hide Told, Numbered, Coherent, PlaceOk, PcOk, TextOk, BackendOk, Expects;
    var s := Holder(y.tasks[t]).value;
    assert TaskOk(y, t);
    assert SessionOk(y, s);
  }

  /** Going on with the same session, having told at most its terminal event. */
  lemma HeldSay(y: Sys, t: TaskId, s: SessionId, pc: Pc, b: Backend)
    requires Holds(y, t, s) && Holder(pc) == Some(s) && PcOk(y, pc) && Emits(y.b, b, Some(s))
    requires Told(b.log, s) == Told(y.b.log, s).(terminals := TerminalsBy(pc))
    requires var was := y.tasks[t];
             Expects(pc) == Expects(was) && StopsBy(pc) == StopsBy(was) && AcceptedBy(pc) == AcceptedBy(was)
    ensures Inv(Go(y, t, pc, b))
  {
    hide Told, Numbered, Emits, Coherent, Expects, StopsBy, TerminalsBy, AcceptedBy, PcOk;
    var z := Go(y, t, pc, b);
    EmitsNumbered(y.b, b, Some(s));
    forall r: SessionId | r != s ensures Untouched(y, z, r) { EmitsOther(y.b, b, Some(s), r); }
    assert PcOk(z, pc) by { PcOkSame(y, z, pc); }
    assert SessionOk(y, s);
    Keep(y, z, t, s);
  }

  lemma HeldGo(y: Sys, t: TaskId, s: SessionId, pc: Pc, b: Backend)
    requires Holds(y, t, s) && Holder(pc) == Some(s) && PcOk(y, pc) && Emits(y.b, b, None)
    requires var was := y.tasks[t];
             && Expects(pc) == Expects(was) && StopsBy(pc) == StopsBy(was)
             && TerminalsBy(pc) == TerminalsBy(was) && AcceptedBy(pc) == AcceptedBy(was)
    ensures Inv(Go(y, t, pc, b))
  {
    hide Told, Numbered, Coherent, Expects, StopsBy, TerminalsBy, AcceptedBy, PcOk, TaskOk, Inv;
    EmitsOther(y.b, b, None, s);
    HeldSay(y, t, s, pc, b);
  }

  lemma PcOkSame(y: Sys, z: Sys, pc: Pc)
    requires PcOk(y, pc) && z.alnum == y.alnum && z.texts == y.texts
    ensures PcOk(z, pc)
  {}

  /** A pipeline's use of the machine: whatever it is moved to, the session stays
      active exactly if the pipeline goes on relying on it. */
  lemma HeldAct(y: Sys, t: TaskId, s: SessionId, pc: Pc, m: Machine)
    requires Holds(y, t, s) && Holder(pc) == Some(s) && PcOk(y, pc)
    requires var was := y.tasks[t];
             && Expects(was).Some? && StopsBy(pc) == StopsBy(was)
             && TerminalsBy(pc) == TerminalsBy(was) && AcceptedBy(pc) == AcceptedBy(was)
    requires m == match Expects(pc) case Some(st) => Machine(st, Some(s)) case None => Machine(Idle, None)
    ensures Inv(Go(y, t, pc, y.b.(machine := m)))
  {
    hide Told, TextOk, Numbered, StopsBy, TerminalsBy, AcceptedBy, PcOk;
    var z := Go(y, t, pc, y.b.(machine := m));
    assert PcOk(z, pc) by { PcOkSame(y, z, pc); }
    assert SessionOk(y, s);
    Keep(y, z, t, s);
  }

  /** The capture is stopped, and the tasks of the recording perhaps aborted. */
  lemma HeldStop(y: Sys, t: TaskId, s: SessionId, pc: Pc, aborted: bool)
    requires Holds(y, t, s) && Holder(pc) == Some(s) && PcOk(y, pc) && JobOf(pc) == None
    requires var was := y.tasks[t];
             && Expects(pc) == Expects(was) && StopsBy(was) == 0 && StopsBy(pc) == 1
             && TerminalsBy(pc) == TerminalsBy(was) && AcceptedBy(pc) == AcceptedBy(was)
    ensures var z := CaptureStopped(Go(y, t, pc, y.b), s);
            Inv(if aborted then z.(texts := z.texts[s := Broken]) else z)
  {
    hide Told, Numbered, Coherent, Expects, StopsBy, TerminalsBy, AcceptedBy, StageOk;
    var z := CaptureStopped(Go(y, t, pc, y.b), s);
    z := if aborted then z.(texts := z.texts[s := Broken]) else z;
    assert SessionOk(y, s);
    Keep(y, z, t, s);
  }

  /** The task lets go of its session for good: the session ends, is turned away, or
      is forgotten. */
  lemma HeldEnd(y: Sys, t: TaskId, s: SessionId, place: Place, b: Backend)
    requires Holds(y, t, s) && Emits(y.b, b, Some(s))
    requires SessionOk(Put(Go(y, t, Done, b), s, place), s)
    ensures Inv(Put(Go(y, t, Done, b), s, place))
  {
    hide Told, Numbered, Emits, Coherent, PlaceOk, TextOk, PcOk;
    var z := Put(Go(y, t, Done, b), s, place);
    EmitsNumbered(y.b, b, Some(s));
    forall r: SessionId | r != s ensures Untouched(y, z, r) { EmitsOther(y.b, b, Some(s), r); }
    assert PcOk(z, Done) by { DoneOk(z); }
    Keep(y, z, t, s);
  }

  lemma DoneOk(y: Sys)
    ensures PcOk(y, Done)
  {}

  /** A start that lost the race stops its capture and aborts its tasks. */
  lemma Rejecting(y: Sys, t: TaskId, s: SessionId)
    requires Holds(y, t, s) && y.tasks[t] == StartRejected(s)
    ensures Inv(RecordingStopped(Put(Go(y, t, Done, y.b), s, Rejected), Some(s)))
  {
    hide Told, Numbered, Coherent;
    var z := RecordingStopped(Put(Go(y, t, Done, y.b), s, Rejected), Some(s));
    assert SessionOk(y, s);
    Keep(y, z, t, s);
  }

  lemma Failing(y: Sys, t: TaskId, s: SessionId, i: Input)
    requires Holds(y, t, s) && y.tasks[t] == Piping(s, FailEvent)
    ensures Inv(Pipe(y, t, s, FailEvent, i))
  {
    hide Told, Numbered, Coherent, TaskOk, Inv, Emits, Emitted, TextOk;
    var e := SessionFailed(s, false);
    EmitsOne(y.b, e, Some(s));
    ToldEmitted(y.b, e, s);
    HeldSay(y, t, s, Piping(s, RecoverLock), Emitted(y.b, e));
  }

  // ---------------------------------------------- a session comes into existence

  lemma Preparing(y: Sys, t: TaskId, s: SessionId, pc: Pc)
    requires Inv(y) && t in y.tasks && Holder(y.tasks[t]) == None && s !in y.texts && pc == Committing(s)
    ensures Inv(Put(Go(y, t, pc, y.b), s, At(t)).(texts := y.texts[s := Running("", false)]))
  {
    hide Told, Numbered, Coherent, Holder, Expects, StopsBy, TerminalsBy, AcceptedBy, PcOk;
    var z := Put(Go(y, t, pc, y.b), s, At(t)).(texts := y.texts[s := Running("", false)]);
    assert SessionOk(y, s);
    CommittingFacts(z, pc);
    Keep(y, z, t, s);
  }

  lemma CommittingFacts(y: Sys, pc: Pc)
    requires pc.Committing?
    ensures Holder(pc) == Some(pc.sid) && Expects(pc) == None && StopsBy(pc) == 0 && TerminalsBy(pc) == 0
    ensures !AcceptedBy(pc) && PcOk(y, pc)
  {}

  /** A start that finds the machine idle makes its recording the active one. */
  lemma Committed(y: Sys, t: TaskId, s: SessionId, moved: Transition)
    requires Holds(y, t, s) && y.tasks[t] == Committing(s) && y.b.machine.state == Idle
    ensures var b := y.b.(machine := Machine(Recording, Some(s)), recording := Some(s));
            Inv(Put(Go(y, t, StartAnnounce(s, moved), b), s, Slot).(accepted := y.accepted + {s}))
  {
    hide Told, Numbered;
    var b := y.b.(machine := Machine(Recording, Some(s)), recording := Some(s));
    var z := Put(Go(y, t, StartAnnounce(s, moved), b), s, Slot).(accepted := y.accepted + {s});
    assert SessionOk(y, s);
    assert TaskOk(z, t) by { hide SessionOk, PlaceOk, TextOk, StageOk; }
    assert SessionOk(z, s) by { hide TaskOk, StageOk; }
    Keep(y, z, t, s) by { hide SessionOk, TaskOk; }
  }

  /** The active recording is taken into a task's hands. */
  lemma Taking(y: Sys, t: TaskId, s: SessionId, pc: Pc)
    requires Inv(y) && t in y.tasks && Holder(y.tasks[t]) == None && y.b.recording == Some(s)
    requires pc.StopAnnounce? || pc.AutoAnnounce? || pc.CancelStop?
    requires Holder(pc) == Some(s) && PcOk(y, pc)
    ensures var m := if pc.CancelStop? then Machine(Idle, None) else Machine(Transcribing, Some(s));
            Inv(Put(Go(y, t, pc, y.b.(machine := m, recording := None)), s, At(t)))
  {
    hide Told, Numbered, PcOk;
    var m := if pc.CancelStop? then Machine(Idle, None) else Machine(Transcribing, Some(s));
    var z := Put(Go(y, t, pc, y.b.(machine := m, recording := None)), s, At(t));
    assert PcOk(z, pc) by { PcOkSame(y, z, pc); }
    assert SessionOk(y, s);
    Keep(y, z, t, s);
  }

  // ------------------------------------------------------------- the pipeline

  /** The pipeline of session `s` is at `stage` in task `t`. */
  ghost predicate Pipes(y: Sys, t: TaskId, s: SessionId, stage: Stage) {
    Holds(y, t, s) && y.tasks[t] == Piping(s, stage)
  }

  /** Stage `next` relies on and stands for the same things as `stage`. */
  predicate Follows(alnum: AlphaNum, stage: Stage, next: Stage, s: SessionId) {
    var was, pc := Piping(s, stage), Piping(s, next);
    && Expects(pc) == Expects(was) && StopsBy(pc) == StopsBy(was) && TerminalsBy(pc) == TerminalsBy(was)
    && JobFollows(alnum, stage, next, s)
  }

  predicate JobFollows(alnum: AlphaNum, stage: Stage, next: Stage, s: SessionId) {
    var was, pc := Piping(s, stage), Piping(s, next);
    && (StageOk(alnum, stage) ==> StageOk(alnum, next))
    && (JobOf(pc).Some? ==> JobOf(was).Some? && JobOf(was).value.raw == JobOf(pc).value.raw)
  }

  lemma PcFollows(y: Sys, stage: Stage, next: Stage, s: SessionId)
    requires PcOk(y, Piping(s, stage)) && JobFollows(y.alnum, stage, next, s)
    ensures PcOk(y, Piping(s, next))
  {}

  lemma PipeGoes(y: Sys, t: TaskId, s: SessionId, stage: Stage, next: Stage, b: Backend)
    requires Pipes(y, t, s, stage) && Follows(y.alnum, stage, next, s) && Emits(y.b, b, None)
    ensures Inv(Go(y, t, Piping(s, next), b))
  {
    hide Told, Inv, Emits, PlaceOk, Expects, StopsBy, TerminalsBy, JobOf, StageOk, Decide, PcOk;
    PcFollows(y, stage, next, s);
    HeldGo(y, t, s, Piping(s, next), b);
  }

  lemma PipeMoves(y: Sys, t: TaskId, s: SessionId, stage: Stage, next: Stage, m: Machine)
    requires Pipes(y, t, s, stage) && JobFollows(y.alnum, stage, next, s)
    requires var was, pc := Piping(s, stage), Piping(s, next);
             && Expects(was).Some? && StopsBy(pc) == StopsBy(was) && TerminalsBy(pc) == TerminalsBy(was)
             && m == match Expects(pc) case Some(st) => Machine(st, Some(s)) case None => Machine(Idle, None)
    ensures Inv(Go(y, t, Piping(s, next), y.b.(machine := m)))
  {
    hide Told, Inv, Emits, PlaceOk, Expects, StopsBy, TerminalsBy, JobOf, StageOk, Decide, PcOk;
    PcFollows(y, stage, next, s);
    HeldAct(y, t, s, Piping(s, next), m);
  }

  /** The action a pipeline asks of the machine at `stage`. */
  function ActionAt(s: SessionId, stage: Stage): Option<Action> {
    match stage
    case Complete(job) => Some(TranscriptionComplete(s, job.WantsTextProcessing(), job.WantsOutput()))
    case PostComplete(_, outcome) => Some(PostProcessingComplete(s, outcome.inject))
    case InjectComplete(_, _) => Some(InjectionComplete(s))
    case FailLock => Some(Fail(s))
    case RecoverLock => Some(Recover)
    case _ => None
  }

  /** The stage after the machine has accepted the action. */
  function Accepting(stage: Stage, moved: Transition): Stage {
    match stage
    case Complete(job) => Announce(job, moved)
    case PostComplete(job, outcome) => PostAnnounce(job, outcome, moved)
    case InjectComplete(job, outcome) => InjectAnnounce(job, outcome, moved)
    case FailLock => FailAnnounce(moved)
    case _ => RecoverAnnounce(moved)
  }

  /** An action of a pipeline is accepted by the machine it relies on, which then is
      the machine the next stage relies on. */
  lemma ActionAccepted(s: SessionId, stage: Stage, m: Machine)
    requires ActionAt(s, stage).Some? && m == Machine(Expects(Piping(s, stage)).value, Some(s))
    ensures var r := Apply(m, ActionAt(s, stage).value);
            && r.Ok?
            && r.value.0 == match Expects(Piping(s, Accepting(stage, r.value.1)))
                            case Some(st) => Machine(st, Some(s)) case None => Machine(Idle, None)
  {}

  lemma AcceptingFollows(alnum: AlphaNum, s: SessionId, stage: Stage, moved: Transition)
    requires ActionAt(s, stage).Some?
    ensures JobFollows(alnum, stage, Accepting(stage, moved), s)
    ensures var was, pc := Piping(s, stage), Piping(s, Accepting(stage, moved));
            Expects(was).Some? && StopsBy(pc) == StopsBy(was) && TerminalsBy(pc) == TerminalsBy(was)
  {}

  lemma PipeAccepted(y: Sys, t: TaskId, s: SessionId, stage: Stage, i: Input)
    requires ActionAt(s, stage).Some? && Apply(y.b.machine, ActionAt(s, stage).value).Ok?
    ensures var (m, moved) := Apply(y.b.machine, ActionAt(s, stage).value).value;
            Pipe(y, t, s, stage, i) == Go(y, t, Piping(s, Accepting(stage, moved)), y.b.(machine := m))
  {
    hide Apply, Job.WantsTextProcessing, Job.WantsOutput;
  }

  /** The machine accepts every action of a pipeline. */
  lemma PipeActs(y: Sys, t: TaskId, s: SessionId, stage: Stage, i: Input)
    requires Pipes(y, t, s, stage) && ActionAt(s, stage).Some?
    ensures Apply(y.b.machine, ActionAt(s, stage).value).Ok?
    ensures Inv(Pipe(y, t, s, stage, i))
  {
    hide Told, Inv, PlaceOk, StopsBy, TerminalsBy, JobFollows, Expects, ActionAt, Accepting, Apply, Pipe;
    AcceptingFollows(y.alnum, s, stage, Moved(Idle, Idle, None, false));
    ActionAccepted(s, stage, y.b.machine);
    PipeAccepted(y, t, s, stage, i);
    var (m, moved) := Apply(y.b.machine, ActionAt(s, stage).value).value;
    AcceptingFollows(y.alnum, s, stage, moved);
    PipeMoves(y, t, s, stage, Accepting(stage, moved), m);
  }

  predicate Announces(stage: Stage) {
    stage.Announce? || stage.PostAnnounce? || stage.InjectAnnounce? || stage.AnnounceHistory? || stage.FailAnnounce?
  }

  /** The stage after an announcement. */
  function Announced(stage: Stage): Stage
    requires Announces(stage)
  {
    match stage
    case Announce(job, _) => AskModel(job)
    case PostAnnounce(job, outcome, _) => Deliver(job, outcome)
    case InjectAnnounce(job, outcome, _) => AppendHistory(job, outcome)
    case AnnounceHistory(job, outcome) => Finish(job, outcome)
    case FailAnnounce(_) => FailEvent
  }

  lemma AnnouncedFollows(alnum: AlphaNum, s: SessionId, stage: Stage)
    requires Announces(stage)
    ensures Follows(alnum, stage, Announced(stage), s)
  {
    hide Decide, Job.Planned;
  }

  lemma PipeSays(y: Sys, t: TaskId, s: SessionId, stage: Stage, i: Input)
    requires Pipes(y, t, s, stage) && Announces(stage)
    ensures Inv(Pipe(y, t, s, stage, i))
  {
    hide Inv, Emits, Holds, Follows, Emitted;
    var e := if stage.AnnounceHistory? then HistoryAdded(s) else StateChanged(stage.moved);
    EmitsOne(y.b, e, None);
    AnnouncedFollows(y.alnum, s, stage);
    PipeGoes(y, t, s, stage, Announced(stage), Emitted(y.b, e));
  }

  lemma PipeGoesOn(y: Sys, t: TaskId, s: SessionId, stage: Stage, i: Input)
    requires Pipes(y, t, s, stage) && (stage.Inserting? || stage.AppendHistory?)
    ensures Inv(Pipe(y, t, s, stage, i))
  {
    hide Inv, Holds;
    var next := if stage.Inserting? then InjectComplete(stage.job, stage.outcome)
                else if stage.job.settings.historyEnabled && stage.outcome.output != "" && i.ok
                then AnnounceHistory(stage.job, stage.outcome) else Finish(stage.job, stage.outcome);
    GoesOnFollows(y.alnum, s, stage, next);
    hide Follows;
    PipeGoes(y, t, s, stage, next, y.b);
  }

  lemma GoesOnFollows(alnum: AlphaNum, s: SessionId, stage: Stage, next: Stage)
    requires stage.Inserting? || stage.AppendHistory?
    requires stage.Inserting? ==> next == InjectComplete(stage.job, stage.outcome)
    requires stage.AppendHistory? ==>
               next in {AnnounceHistory(stage.job, stage.outcome), Finish(stage.job, stage.outcome)}
    ensures Follows(alnum, stage, next, s)
  {
    hide Decide, Job.Planned;
  }

  lemma PipeDecides(y: Sys, t: TaskId, s: SessionId, asked: Job, i: Input)
    requires Pipes(y, t, s, AskModel(asked))
    ensures Inv(Pipe(y, t, s, AskModel(asked), i))
  {
    hide Inv, Holds, Decide, Job.Planned, Follows;
    var job := asked.(cleanup := i.job.cleanup, rewrite := i.job.rewrite);
    var outcome := Decide(job, y.alnum);
    var next := if job.Planned() == PostProcessing then PostComplete(job, outcome) else Deliver(job, outcome);
    DecisionFollows(y.alnum, s, asked, i.job.cleanup, i.job.rewrite);
    PipeGoes(y, t, s, AskModel(asked), next, y.b);
  }

  lemma DecisionFollows(alnum: AlphaNum, s: SessionId, asked: Job, cleanup: Reply, rewrite: Reply)
    ensures var job := asked.(cleanup := cleanup, rewrite := rewrite);
            var outcome := Decide(job, alnum);
            var next := if job.Planned() == PostProcessing then PostComplete(job, outcome) else Deliver(job, outcome);
            Follows(alnum, AskModel(asked), next, s)
  {
    var job := asked.(cleanup := cleanup, rewrite := rewrite);
    DecisionFitsState(job, alnum);
    SamePlan(asked, cleanup, rewrite);
    PlannedStates(job);
    hide Decide, Job.Planned;
  }

  lemma SamePlan(job: Job, cleanup: Reply, rewrite: Reply)
    ensures job.(cleanup := cleanup, rewrite := rewrite).Planned() == job.Planned()
  {}

  lemma PlannedStates(job: Job)
    ensures job.Planned() in {PostProcessing, Injecting, Idle}
  {}

  lemma StopFollows(y: Sys, s: SessionId, next: Stage)
    requires next == JoinForward || next == FailLock
    ensures var was, pc := Piping(s, StopCapture), Piping(s, next);
            && Holder(pc) == Some(s) && PcOk(y, pc) && JobOf(pc) == None
            && Expects(pc) == Expects(was) && StopsBy(was) == 0 && StopsBy(pc) == 1
            && TerminalsBy(pc) == TerminalsBy(was) && AcceptedBy(pc) == AcceptedBy(was)
  {}

  lemma PipeStops(y: Sys, t: TaskId, s: SessionId, i: Input)
    requires Pipes(y, t, s, StopCapture)
    ensures Inv(Pipe(y, t, s, StopCapture, i))
  {
    var next := if i.ok then JoinForward else FailLock;
    StopFollows(y, s, next);
    hide Inv, Holds, Expects, StopsBy, TerminalsBy, AcceptedBy, PcOk, JobOf;
    HeldStop(y, t, s, Piping(s, next), false);
  }

  lemma JoinFollows(alnum: AlphaNum, s: SessionId, stage: Stage, next: Stage)
    requires stage.JoinForward? || stage.JoinAsr? || stage.JoinText?
    requires next in {JoinAsr, JoinText, FailLock}
    ensures Follows(alnum, stage, next, s)
  {}

  lemma PipeJoins(y: Sys, t: TaskId, s: SessionId, stage: Stage, i: Input)
    requires Pipes(y, t, s, stage) && (stage.JoinForward? || stage.JoinAsr?)
    ensures Inv(Pipe(y, t, s, stage, i))
  {
    hide Inv, Holds, Follows;
    var next := if !i.ok then FailLock else if stage.JoinForward? then JoinAsr else JoinText;
    JoinFollows(y.alnum, s, stage, next);
    PipeGoes(y, t, s, stage, next, y.b);
  }

  lemma PipeText(y: Sys, t: TaskId, s: SessionId, i: Input)
    requires Pipes(y, t, s, JoinText)
    ensures Inv(Pipe(y, t, s, JoinText, i))
  {
    hide Told, Inv, PlaceOk, Follows;
    if s in y.texts && y.texts[s].Finished? {
      HeldGo(y, t, s, Piping(s, Complete(i.job.(raw := y.texts[s].text))), y.b);
    } else {
      JoinFollows(y.alnum, s, JoinText, FailLock);
      PipeGoes(y, t, s, JoinText, FailLock, y.b);
    }
  }

  /** A session told of `e` last has ended. */
  lemma Settling(y: Sys, t: TaskId, s: SessionId, b: Backend)
    requires Holds(y, t, s) && Expects(y.tasks[t]) == None && StopsBy(y.tasks[t]) == 1 && AcceptedBy(y.tasks[t])
    requires Emits(y.b, b, Some(s)) && Told(b.log, s).terminals == 1
    requires s in y.texts && TextOk(Told(b.log, s), y.texts[s])
    ensures Inv(Put(Go(y, t, Done, b), s, Settled))
  {
    hide Told, Numbered, Emits, Coherent, TextOk, StopsBy, AcceptedBy, TerminalsBy, PcOk, Expects;
    assert SessionOk(y, s);
    EmitsNumbered(y.b, b, Some(s));
    HeldEnd(y, t, s, Settled, b);
  }

  lemma Finishing(y: Sys, t: TaskId, s: SessionId, job: Job, outcome: Outcome, i: Input)
    requires Pipes(y, t, s, Finish(job, outcome))
    ensures Inv(Pipe(y, t, s, Finish(job, outcome), i))
  {
    hide Told, Numbered, Emits, Coherent, Emitted, Decide, Job.Processed, Job.Rewritten;
    var e := FinalEvent(s, job, outcome);
    EmitsOne(y.b, e, Some(s));
    ToldEmitted(y.b, e, s);
    assert SessionOk(y, s);
    Settling(y, t, s, Emitted(y.b, e));
  }

  lemma Cancelling(y: Sys, t: TaskId, s: SessionId)
    requires Holds(y, t, s) && y.tasks[t] == CancelFail(s)
    ensures Inv(Put(Go(y, t, Done, Emitted(y.b, SessionFailed(s, true))), s, Settled))
  {
    hide Told, Numbered, Emits, Coherent, Emitted;
    var e := SessionFailed(s, true);
    EmitsOne(y.b, e, Some(s));
    ToldEmitted(y.b, e, s);
    assert SessionOk(y, s);
    Settling(y, t, s, Emitted(y.b, e));
  }

  lemma Recovered(y: Sys, t: TaskId, s: SessionId, moved: Transition, i: Input)
    requires Pipes(y, t, s, RecoverAnnounce(moved))
    ensures Inv(Pipe(y, t, s, RecoverAnnounce(moved), i))
  {
    hide Told, Numbered, Emits, Coherent, Emitted;
    var e := StateChanged(moved);
    EmitsOne(y.b, e, Some(s));
    ToldEmitted(y.b, e, s);
    assert SessionOk(y, s);
    Settling(y, t, s, Emitted(y.b, e));
  }

  lemma PipeKeeps(y: Sys, t: TaskId, s: SessionId, stage: Stage, i: Input)
    requires Pipes(y, t, s, stage)
    ensures Inv(Pipe(y, t, s, stage, i))
  {
    hide Inv, Holds, Pipe;
    if ActionAt(s, stage).Some? { PipeActs(y, t, s, stage, i); }
    else if Announces(stage) { PipeSays(y, t, s, stage, i); }
    else {
      match stage
      case StopCapture => PipeStops(y, t, s, i);
      case JoinForward => PipeJoins(y, t, s, stage, i);
      case JoinAsr => PipeJoins(y, t, s, stage, i);
      case JoinText => PipeText(y, t, s, i);
      case AskModel(job) => PipeDecides(y, t, s, job, i);
      case Inserting(_, _) => PipeGoesOn(y, t, s, stage, i);
      case AppendHistory(_, _) => PipeGoesOn(y, t, s, stage, i);
      case Finish(job, outcome) => Finishing(y, t, s, job, outcome, i);
      case FailEvent => Failing(y, t, s, i);
      case RecoverAnnounce(moved) => Recovered(y, t, s, moved, i);
      case _ =>
    }
  }

  // --------------------------------------------------- handlers and watchers

  lemma StartKeeps(y: Sys, t: TaskId, i: Input)
    requires Inv(y) && t in y.tasks && y.tasks[t] == StartPrepare
    ensures Inv(Advance(y, t, StartPrepare, i))
  {
    hide Inv;
    if !i.settingsRead || !i.ok { Quiet(y, t, Done, y.b); }
    else if i.sid !in y.texts { Preparing(y, t, i.sid, Committing(i.sid)); }
  }

  lemma RejectedFollows(y: Sys, s: SessionId)
    ensures var was, pc := Committing(s), StartRejected(s);
            && Holder(pc) == Some(s) && PcOk(y, pc)
            && Expects(pc) == Expects(was) && StopsBy(pc) == StopsBy(was)
            && TerminalsBy(pc) == TerminalsBy(was) && AcceptedBy(pc) == AcceptedBy(was)
  {}

  lemma CommitKeeps(y: Sys, t: TaskId, s: SessionId, i: Input)
    requires Holds(y, t, s) && y.tasks[t] == Committing(s)
    ensures Inv(Advance(y, t, Committing(s), i))
  {
    hide Inv, Holds, Expects, StopsBy, TerminalsBy, AcceptedBy, PcOk;
    if y.b.machine.state == Idle {
      Committed(y, t, s, Moved(Idle, Recording, Some(s), false));
    } else {
      RejectedFollows(y, s);
      EmitsNothing(y.b);
      HeldGo(y, t, s, StartRejected(s), y.b);
    }
  }

  lemma EmitsNothing(b: Backend)
    ensures Emits(b, b, None)
  {}

  /** The shared recording is that of the session the machine would stop or cancel. */
  lemma SlotIs(y: Sys, s: SessionId)
    requires Inv(y) && y.b.machine == Machine(Recording, Some(s))
    ensures y.b.recording == Some(s)
  {}

  lemma WatchKeeps(y: Sys, t: TaskId, s: SessionId, i: Input)
    requires Inv(y) && t in y.tasks && y.tasks[t] == Watching(s)
    ensures Inv(Advance(y, t, Watching(s), i))
  {
    hide Inv;
    EmitsNothing(y.b);
    if i.ok && y.b.machine == Machine(Recording, Some(s)) {
      SlotIs(y, s);
      Taking(y, t, s, AutoAnnounce(s, Moved(Recording, Transcribing, Some(s), false)));
    } else {
      Quiet(y, t, Done, y.b);
    }
  }

  lemma StopKeeps(y: Sys, t: TaskId, s: SessionId, i: Input)
    requires Inv(y) && t in y.tasks && y.tasks[t] == StopRequest(s)
    ensures Inv(Advance(y, t, StopRequest(s), i))
  {
    hide Inv;
    EmitsNothing(y.b);
    if y.b.machine == Machine(Recording, Some(s)) {
      SlotIs(y, s);
      Taking(y, t, s, StopAnnounce(s, Some(s), Moved(Recording, Transcribing, Some(s), false)));
    } else {
      Quiet(y, t, Done, y.b);
    }
  }

  lemma CancelKeeps(y: Sys, t: TaskId, target: Option<SessionId>, i: Input)
    requires Inv(y) && t in y.tasks && y.tasks[t] == CancelRequest(target)
    ensures Inv(Advance(y, t, CancelRequest(target), i))
  {
    hide Inv;
    EmitsNothing(y.b);
    if y.b.machine.state == Recording && y.b.machine.active.Some? && target in {None, y.b.machine.active} {
      var s := y.b.machine.active.value;
      SlotIs(y, s);
      Taking(y, t, s, CancelStop(s, Some(s), Moved(Recording, Idle, Some(s), true)));
    } else {
      Quiet(y, t, Done, y.b);
    }
  }

  predicate SaysMove(pc: Pc) { pc.StopAnnounce? || pc.CancelAnnounce? || pc.AutoAnnounce? }

  function AfterMove(pc: Pc): Pc
    requires SaysMove(pc)
  {
    if pc.StopAnnounce? then StopSettings(pc.sid)
    else if pc.CancelAnnounce? then CancelFail(pc.sid)
    else Piping(pc.sid, StopCapture)
  }

  lemma AfterMoveFollows(y: Sys, was: Pc)
    requires SaysMove(was)
    ensures var pc := AfterMove(was);
            && Holder(pc) == Holder(was) == Some(was.sid) && PcOk(y, pc)
            && Expects(pc) == Expects(was) && StopsBy(pc) == StopsBy(was)
            && TerminalsBy(pc) == TerminalsBy(was) && AcceptedBy(pc) == AcceptedBy(was)
  {}

  lemma MoveSaid(y: Sys, t: TaskId, s: SessionId, pc: Pc, i: Input)
    requires Holds(y, t, s) && y.tasks[t] == pc && SaysMove(pc)
    ensures Inv(Advance(y, t, pc, i))
  {
    hide Inv, PlaceOk, Emits, Emitted, Expects, StopsBy, TerminalsBy, AcceptedBy;
    AfterMoveFollows(y, pc);
    EmitsOne(y.b, StateChanged(pc.moved), None);
    HeldGo(y, t, s, AfterMove(pc), Emitted(y.b, StateChanged(pc.moved)));
  }

  lemma SettingsFollows(y: Sys, s: SessionId)
    ensures var was, pc := StopSettings(s), Piping(s, StopCapture);
            && Holder(pc) == Some(s) && PcOk(y, pc)
            && Expects(pc) == Expects(was) && StopsBy(pc) == StopsBy(was)
            && TerminalsBy(pc) == TerminalsBy(was) && AcceptedBy(pc) == AcceptedBy(was)
  {}

  lemma Stranding(y: Sys, t: TaskId, s: SessionId)
    requires Holds(y, t, s) && y.tasks[t] == StopSettings(s)
    ensures Inv(Put(Go(y, t, Done, y.b), s, Stranded))
  {
    hide Told, Numbered, Coherent, TextOk;
    assert SessionOk(y, s);
    HeldEnd(y, t, s, Stranded, y.b);
  }

  lemma SettingsKeeps(y: Sys, t: TaskId, s: SessionId, i: Input)
    requires Holds(y, t, s) && y.tasks[t] == StopSettings(s)
    ensures Inv(Advance(y, t, StopSettings(s), i))
  {
    hide Inv, Holds, Expects, StopsBy, TerminalsBy, AcceptedBy, PcOk;
    if i.settingsRead {
      SettingsFollows(y, s);
      EmitsNothing(y.b);
      HeldGo(y, t, s, Piping(s, StopCapture), y.b);
    } else {
      Stranding(y, t, s);
    }
  }

  lemma CancelStopFollows(y: Sys, was: Pc, pc: Pc)
    requires was.CancelStop? && pc == CancelAnnounce(was.sid, was.moved)
    ensures && Holder(pc) == Some(was.sid) && PcOk(y, pc) && JobOf(pc) == None
            && Expects(pc) == Expects(was) && StopsBy(was) == 0 && StopsBy(pc) == 1
            && TerminalsBy(pc) == TerminalsBy(was) && AcceptedBy(pc) == AcceptedBy(was)
  {}

  lemma CancelStopKeeps(y: Sys, t: TaskId, s: SessionId, pc: Pc, i: Input)
    requires Holds(y, t, s) && y.tasks[t] == pc && pc.CancelStop?
    ensures Inv(Advance(y, t, pc, i))
  {
    hide Inv, PlaceOk, Expects, StopsBy, TerminalsBy, AcceptedBy, JobOf;
    var next := CancelAnnounce(s, pc.moved);
    CancelStopFollows(y, pc, next);
    HeldStop(y, t, s, next, true);
    assert PcOk(y, pc);
  }

  lemma HandlerKeeps(y: Sys, t: TaskId, pc: Pc, i: Input)
    requires Inv(y) && t in y.tasks && y.tasks[t] == pc && Holder(pc) == None
    ensures Inv(Advance(y, t, pc, i))
  {
    hide Inv, Emits, Emitted;
    EmitsNothing(y.b);
    match pc
    case Done =>
    case StartPrepare => StartKeeps(y, t, i);
    case StartAnnounce(s, moved) =>
      EmitsOne(y.b, StateChanged(moved), None);
      Quiet(y, t, Watching(s), Emitted(y.b, StateChanged(moved)));
    case Watching(s) => hide Advance; WatchKeeps(y, t, s, i);
    case Toggling =>
      var m := y.b.machine;
      Quiet(y, t,
            if m.state == Idle then StartPrepare
            else if m.state == Recording && m.active.Some? then StopRequest(m.active.value)
            else Done, y.b);
    case StopRequest(s) => hide Advance; StopKeeps(y, t, s, i);
    case CancelRequest(target) => hide Advance; CancelKeeps(y, t, target, i);
  }

  lemma HeldKeeps(y: Sys, t: TaskId, s: SessionId, pc: Pc, i: Input)
    requires Holds(y, t, s) && y.tasks[t] == pc && Holder(pc) == Some(s)
    ensures Inv(Advance(y, t, pc, i))
  {
    hide Inv, Holds, Pipe;
    match pc
    case Committing(_) => hide Advance; CommitKeeps(y, t, s, i);
    case StartRejected(_) => Rejecting(y, t, s);
    case StopAnnounce(_, _, _) => hide Advance; MoveSaid(y, t, s, pc, i);
    case StopSettings(_) => hide Advance; SettingsKeeps(y, t, s, i);
    case CancelStop(_, _, _) => hide Advance; CancelStopKeeps(y, t, s, pc, i);
    case CancelAnnounce(_, _) => hide Advance; MoveSaid(y, t, s, pc, i);
    case CancelFail(_) => Cancelling(y, t, s);
    case AutoAnnounce(_, _) => hide Advance; MoveSaid(y, t, s, pc, i);
    case Piping(_, stage) => PipeKeeps(y, t, s, stage, i);
  }

  // ----------------------------------------------------- text tasks and meters

  /** A running text task moves on to `task`, having said nothing or its text so far. */
  lemma TextMoves(y: Sys, s: SessionId, task: TextTask, b: Backend)
    requires Inv(y) && s in y.texts && y.texts[s].Running? && Emits(y.b, b, Some(s))
    requires TextOk(Told(b.log, s), task)
    requires Told(b.log, s) == Told(y.b.log, s).(partial := Told(b.log, s).partial, coherent := true)
    ensures Inv(y.(b := b, texts := y.texts[s := task]))
  {
    hide Told, Numbered, Coherent, Emits, TextOk, Expects, Holder, StopsBy, TerminalsBy, AcceptedBy, StageOk;
    var z := y.(b := b, texts := y.texts[s := task]);
    EmitsNumbered(y.b, b, Some(s));
    forall r: SessionId ensures SessionOk(z, r) {
      assert SessionOk(y, r);
      if r != s { EmitsOther(y.b, b, Some(s), r); }
      else { TextCoherent(Told(y.b.log, s), y.texts[s]); }
    }
    forall u | u in z.tasks ensures TaskOk(z, u) {
      assert TaskOk(y, u);
      assert PcOk(z, y.tasks[u]) by { hide JobOf, SessionOk; }
    }
  }

  lemma TextCoherent(story: Story, task: TextTask)
    requires TextOk(story, task)
    ensures story.coherent
  {}

  lemma JoinedExtends(text: string, piece: string)
    requires piece != ""
    ensures text < Joined(text, piece)
  {}

  lemma TextKeeps(y: Sys, s: SessionId, step: Step)
    requires Inv(y) && s in y.texts
    ensures Inv(TextStep(y, s, y.texts[s], step))
  {
    hide Inv, Told, Trim, Joined, Emitted, Emits;
    var task := y.texts[s];
    if task.Running? {
      EmitsSame(y.b, Some(s));
      TextTold(y, s);
      if !task.pending && step.TextReceive? && Trim(step.chunk) != "" {
        JoinedExtends(task.text, Trim(step.chunk));
        TextMoves(y, s, Running(Joined(task.text, Trim(step.chunk)), true), y.b);
      } else if task.pending && step.TextEmit? {
        EmitsOne(y.b, Partial(s, task.text), Some(s));
        ToldEmitted(y.b, Partial(s, task.text), s);
        TextMoves(y, s, Running(task.text, false), Emitted(y.b, Partial(s, task.text)));
      } else if !task.pending && step.TextEnd? {
        TextMoves(y, s, Finished(task.text), y.b);
      } else if step.TextBreak? {
        TextMoves(y, s, Broken, y.b);
      }
    }
  }

  lemma EmitsSame(b: Backend, s: Option<SessionId>)
    ensures Emits(b, b, s)
  {}

  lemma TextTold(y: Sys, s: SessionId)
    requires Inv(y) && s in y.texts
    ensures TextOk(Told(y.b.log, s), y.texts[s])
  {
    hide Told, PlaceOk, TextOk, TaskOk;
    assert SessionOk(y, s);
  }

  /** An event that adds to no story, from a task that is not modelled further. */
  lemma Aside(y: Sys, e: Event)
    requires Inv(y) && About(e) == None
    ensures Inv(y.(b := Emitted(y.b, e)))
  {
    hide Told, Numbered, Coherent, Emits, Emitted, TextOk, Expects, Holder, StopsBy, TerminalsBy, AcceptedBy, StageOk;
    var z := y.(b := Emitted(y.b, e));
    EmitsOne(y.b, e, None);
    EmitsNumbered(y.b, z.b, None);
    forall r: SessionId ensures SessionOk(z, r) {
      assert SessionOk(y, r);
      EmitsOther(y.b, z.b, None, r);
    }
    forall u | u in z.tasks ensures TaskOk(z, u) { assert TaskOk(y, u); }
  }

  // ------------------------------------------------------------- every step

  lemma TaskKeeps(y: Sys, t: TaskId, i: Input)
    requires Inv(y) && t in y.tasks
    ensures Inv(Advance(y, t, y.tasks[t], i))
  {
    hide Inv, Holds, Advance;
    if Holder(y.tasks[t]).Some? {
      HolderHolds(y, t);
      HeldKeeps(y, t, Holder(y.tasks[t]).value, y.tasks[t], i);
    } else {
      HandlerKeeps(y, t, y.tasks[t], i);
    }
  }

  lemma ExecKeeps(y: Sys, step: Step)
    requires Inv(y)
    ensures Inv(Exec(y, step))
  {
    hide Inv, Advance, TextStep, Emitted;
    match step
    case Arrive(t, request) =>
      EmitsNothing(y.b);
      if t !in y.tasks && IsRequest(request) { Quiet(y, t, request, y.b); }
    case Run(t, i) => if t in y.tasks { TaskKeeps(y, t, i); }
    case MeterLevel(s) => Aside(y, Level(s));
    case OtherEmit => Aside(y, OtherEvent);
    case _ => if step.sid in y.texts { TextKeeps(y, step.sid, step); }
  }

  lemma InitOk(alnum: AlphaNum)
    ensures Inv(Init(alnum))
  {}

  /** The invariant holds after every run. */
  lemma {:induction false} EveryRunOk(alnum: AlphaNum, steps: seq<Step>)
    ensures Inv(After(alnum, steps))
    decreases |steps|
  {
    hide Inv, Exec;
    if steps == [] {
      InitOk(alnum);
    } else {
      EveryRunOk(alnum, steps[..|steps| - 1]);
      ExecKeeps(After(alnum, steps[..|steps| - 1]), steps[|steps| - 1]);
    }
  }

  // --------------------------------------------------------------- every run

  lemma PipeAlnum(y: Sys, t: TaskId, s: SessionId, stage: Stage, i: Input)
    ensures Pipe(y, t, s, stage, i).alnum == y.alnum
  {
    hide Emitted, Performed, Decide, Job.Planned, Job.WantsOutput, Job.WantsTextProcessing;
    hide Job.Processed, Job.Rewritten;
  }

  lemma ExecAlnum(y: Sys, step: Step)
    ensures Exec(y, step).alnum == y.alnum
  {
    hide Emitted, Performed, Decide, Trim, Joined, Pipe, Started, TakenBy, Cancelled, AutoStopped;
    if step.Run? && step.task in y.tasks && y.tasks[step.task].Piping? {
      PipeAlnum(y, step.task, y.tasks[step.task].sid, y.tasks[step.task].stage, step.input);
    }
  }

  /** A state that some run of the daemon leads to. */
  ghost predicate Reachable(y: Sys) {
    exists steps :: y == After(y.alnum, steps)
  }

  lemma {:induction false} RunsReach(alnum: AlphaNum, steps: seq<Step>)
    ensures Reachable(After(alnum, steps)) && After(alnum, steps).alnum == alnum
    decreases |steps|
  {
    if steps != [] {
      RunsReach(alnum, steps[..|steps| - 1]);
      ExecAlnum(After(alnum, steps[..|steps| - 1]), steps[|steps| - 1]);
    }
    hide Exec;
    assert After(alnum, steps).alnum == alnum;
  }

  lemma ReachableOk(y: Sys)
    requires Reachable(y)
    ensures Inv(y)
  {
    hide Inv, After;
    var steps :| y == After(y.alnum, steps);
    EveryRunOk(y.alnum, steps);
  }
}
