/** What every reachable state of the daemon satisfies. */
module SessionInvariant {
  import opened Backends
  import opened Integers
  import opened LlmText
  import opened Pipeline
  import opened Sessions
  import opened StateMachines
  import opened Wrappers

  // ------------------------------------------------------- what was broadcast

  /** What listeners have been told of one session: how many terminal events, whether
      the final transcript, the last partial text, and whether the texts made sense:
      each partial extended the one before, none followed the final transcript, and
      the final transcript repeated the last partial. */
  datatype Story = Story(terminals: nat, final: bool, partial: string, coherent: bool)

  const UNTOLD := Story(0, false, "", true)

  function Tell(st: Story, e: Event, s: SessionId): Story {
    match e
    case Partial(sid, text) =>
      if sid == s then Story(st.terminals, st.final, text, st.coherent && st.partial < text && !st.final) else st
    case Final(sid, raw, _, _, _, _) =>
      if sid == s then Story(st.terminals + 1, true, st.partial, st.coherent && raw == st.partial) else st
    case SessionFailed(sid, _) => if sid == s then st.(terminals := st.terminals + 1) else st
    case _ => st
  }

  function Told(log: seq<Envelope>, s: SessionId): Story
    decreases |log|
  {
    if log == [] then UNTOLD else Tell(Told(log[..|log| - 1], s), log[|log| - 1].event, s)
  }

  lemma ToldEmitted(b: Backend, e: Event, s: SessionId)
    ensures Told(Emitted(b, e).log, s) == Tell(Told(b.log, s), e, s)
  {
    assert Emitted(b, e).log[..|b.log|] == b.log;
  }

  predicate Numbered(sequence: nat, log: seq<Envelope>) {
    && sequence == Saturate(|log|)
    && forall i :: 0 <= i < |log| ==> log[i].sequence == Saturate(i + 1)
  }

  // ------------------------------------------- what a task stands for, by its pc

  /** The session whose recording, or whose remaining course, is in the task's hands. */
  function Holder(pc: Pc): Option<SessionId> {
    match pc
    case Committing(_) | StartRejected(_) | StopAnnounce(_, _, _) | StopSettings(_) | CancelStop(_, _, _)
       | CancelAnnounce(_, _) | CancelFail(_) | AutoAnnounce(_, _) | Piping(_, _) => Some(pc.sid)
    case _ => None
  }

  function StateOf(job: Job): Option<DictationState> {
    if job.Planned() == Idle then None else Some(job.Planned())
  }

  /** The state the machine must be in, with the task's session active. */
  function Expects(pc: Pc): Option<DictationState> {
    match pc
    case StopAnnounce(_, _, _) | StopSettings(_) | AutoAnnounce(_, _) => Some(Transcribing)
    case Piping(_, stage) =>
      (match stage
       case StopCapture | JoinForward | JoinAsr | JoinText | Complete(_) | FailLock => Some(Transcribing)
       case Announce(job, _) => StateOf(job)
       case AskModel(job) => StateOf(job)
       case PostComplete(_, _) => Some(PostProcessing)
       case PostAnnounce(_, outcome, _) => if outcome.inject then Some(Injecting) else None
       case Inserting(_, _) | InjectComplete(_, _) => Some(Injecting)
       case InjectAnnounce(_, _, _) | AppendHistory(_, _) | AnnounceHistory(_, _) | Finish(_, _)
          | RecoverAnnounce(_) => None
       case FailAnnounce(_) | FailEvent | RecoverLock => Some(Error))
    case _ => None
  }

  function TerminalsBy(pc: Pc): nat {
    if pc.Piping? && (pc.stage.RecoverLock? || pc.stage.RecoverAnnounce?) then 1 else 0
  }

  function StopsBy(pc: Pc): nat {
    if pc.CancelAnnounce? || pc.CancelFail? || (pc.Piping? && !pc.stage.StopCapture?) then 1 else 0
  }

  predicate AcceptedBy(pc: Pc) { !pc.Committing? && !pc.StartRejected? }

  function JobOf(pc: Pc): Option<Job> {
    if pc.Piping? then
      match pc.stage
      case StopCapture | JoinForward | JoinAsr | JoinText | FailLock | FailAnnounce(_) | FailEvent
         | RecoverLock | RecoverAnnounce(_) => None
      case _ => Some(pc.stage.job)
    else None
  }

  function OutcomeOf(stage: Stage): Option<Outcome> {
    match stage
    case PostComplete(_, o) => Some(o)
    case PostAnnounce(_, o, _) => Some(o)
    case Inserting(_, o) => Some(o)
    case InjectComplete(_, o) => Some(o)
    case InjectAnnounce(_, o, _) => Some(o)
    case AppendHistory(_, o) => Some(o)
    case AnnounceHistory(_, o) => Some(o)
    case Finish(_, o) => Some(o)
    case _ => None
  }

  predicate StageOk(alnum: AlphaNum, stage: Stage) {
    && (OutcomeOf(stage).Some? ==> OutcomeOf(stage).value == Decide(stage.job, alnum))
    && (stage.Inserting? || stage.InjectComplete? ==> stage.outcome.inject)
  }

  predicate PcOk(y: Sys, pc: Pc) {
    && (pc.StopAnnounce? ==> pc.recording == Some(pc.sid))
    && (pc.CancelStop? ==> pc.recording == Some(pc.sid))
    && (pc.Piping? ==> StageOk(y.alnum, pc.stage))
    && (JobOf(pc).Some? ==> pc.sid in y.texts && y.texts[pc.sid] == Finished(JobOf(pc).value.raw))
  }

  // ---------------------------------------------------------------- invariant

  predicate TaskOk(y: Sys, t: TaskId)
    requires t in y.tasks
  {
    var pc := y.tasks[t];
    && PcOk(y, pc)
    && (Holder(pc).Some? ==> Holder(pc).value in y.places && y.places[Holder(pc).value] == At(t))
    && (Expects(pc).Some? ==> y.b.machine == Machine(Expects(pc).value, Holder(pc)))
  }

  /** What is due for a session by the place of its recording. */
  predicate PlaceOk(y: Sys, s: SessionId, place: Place, story: Story) {
    match place
    case At(t) =>
      && t in y.tasks && Holder(y.tasks[t]) == Some(s)
      && story.terminals == TerminalsBy(y.tasks[t]) && !story.final
      && StopsOf(y, s) == StopsBy(y.tasks[t])
      && (s in y.accepted <==> AcceptedBy(y.tasks[t]))
      && (y.b.machine.active == Some(s) ==> Expects(y.tasks[t]) == Some(y.b.machine.state))
    case Slot =>
      && story.terminals == 0 && !story.final && StopsOf(y, s) == 0 && s in y.accepted
      && y.b.machine == Machine(Recording, Some(s)) && y.b.recording == Some(s)
    case Stranded =>
      && story.terminals == 0 && !story.final && StopsOf(y, s) == 0 && s in y.accepted
      && y.b.machine == Machine(Transcribing, Some(s))
    case Rejected =>
      story.terminals == 0 && !story.final && StopsOf(y, s) == 1 && s !in y.accepted && y.b.machine.active != Some(s)
    case Settled =>
      story.terminals == 1 && StopsOf(y, s) == 1 && s in y.accepted && y.b.machine.active != Some(s)
  }

  /** The text task and what it has announced. */
  predicate TextOk(story: Story, task: TextTask) {
    && story.coherent
    && match task
       case Running(text, pending) => !story.final && (if pending then story.partial < text else story.partial == text)
       case Finished(text) => story.partial == text
       case Broken => !story.final
  }

  predicate UnknownOk(y: Sys, s: SessionId) {
    && s !in y.texts && StopsOf(y, s) == 0 && s !in y.accepted && Told(y.b.log, s) == UNTOLD
    && y.b.machine.active != Some(s)
  }

  predicate SessionOk(y: Sys, s: SessionId) {
    && (y.b.recording == Some(s) ==> s in y.places && y.places[s] == Slot)
    && if s !in y.places then UnknownOk(y, s)
       else
         && s in y.texts
         && PlaceOk(y, s, y.places[s], Told(y.b.log, s))
         && TextOk(Told(y.b.log, s), y.texts[s])
  }

  /** A recording is active exactly while the machine is recording. */
  predicate BackendOk(y: Sys) {
    && Coherent(y.b.machine) && Numbered(y.b.sequence, y.b.log)
    && y.b.recording == if y.b.machine.state == Recording then y.b.machine.active else None
  }

  ghost predicate Inv(y: Sys) {
    && BackendOk(y)
    && (forall t :: t in y.tasks ==> TaskOk(y, t))
    && forall s :: SessionOk(y, s)
  }

  // ------------------------------------------------------------------- framing

  /** Nothing that concerns session `r` has changed, tasks aside. */
  predicate Untouched(y: Sys, z: Sys, r: SessionId) {
    && (r in y.places <==> r in z.places) && (r in y.places ==> y.places[r] == z.places[r])
    && (r in y.texts <==> r in z.texts) && (r in y.texts ==> y.texts[r] == z.texts[r])
    && StopsOf(y, r) == StopsOf(z, r)
    && (r in y.accepted <==> r in z.accepted)
    && Told(y.b.log, r) == Told(z.b.log, r)
    && (y.b.recording == Some(r) <==> z.b.recording == Some(r))
    && (y.b.machine == z.b.machine || (y.b.machine.active != Some(r) && z.b.machine.active != Some(r)))
  }

  /** Task `t` alone moves, and at most session `s` is concerned. */
  ghost predicate Moves(y: Sys, z: Sys, t: TaskId, s: SessionId) {
    && z.alnum == y.alnum
    && t in z.tasks && z.tasks == y.tasks[t := z.tasks[t]]
    && forall r :: r != s ==> Untouched(y, z, r)
  }

  lemma OtherSession(y: Sys, z: Sys, t: TaskId, s: SessionId, r: SessionId)
    requires Moves(y, z, t, s) && r != s
    requires SessionOk(y, r)
    requires t in y.tasks ==> Holder(y.tasks[t]) != Some(r)
    ensures SessionOk(z, r)
  {
    hide Told, Coherent, Expects, Holder, StopsBy, TerminalsBy, StopsOf, AcceptedBy, TextOk;
    assert Untouched(y, z, r);
  }

  lemma OtherTask(y: Sys, z: Sys, t: TaskId, s: SessionId, u: TaskId)
    requires Moves(y, z, t, s) && u != t && u in y.tasks && TaskOk(y, u)
    requires Holder(y.tasks[u]) != Some(s)
    ensures TaskOk(z, u)
  {
    hide Told, StageOk, Decide, StopsOf;
    if Holder(y.tasks[u]).Some? { assert Untouched(y, z, Holder(y.tasks[u]).value); }
  }

  /** A task that touches only a session in its hands, or a session in nobody's
      hands, keeps the invariant if it does so for itself and that session. */
  lemma Keep(y: Sys, z: Sys, t: TaskId, s: SessionId)
    requires Inv(y) && Moves(y, z, t, s)
    requires t in y.tasks ==> Holder(y.tasks[t]) in {None, Some(s)}
    requires s in y.places ==> y.places[s] in {At(t), Slot}
    requires BackendOk(z) && SessionOk(z, s) && TaskOk(z, t)
    ensures Inv(z)
  {
    forall r ensures SessionOk(z, r) {
      if r != s {
        assert SessionOk(y, r);
        OtherSession(y, z, t, s, r);
      }
    }
    forall u | u in z.tasks ensures TaskOk(z, u) {
      if u != t { OtherTask(y, z, t, s, u); }
    }
  }
}
