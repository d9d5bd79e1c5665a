/** The daemon as a system of interleaved tasks. A step is one stretch of a task up
    to where another task can run: one use of the lock, or one awaited call. */
module Sessions {
  import opened Backends
  import opened LlmText
  import opened Pipeline
  import opened StateMachines
  import opened Wrappers

  type TaskId = nat

  /** Where the pipeline of a stopped recording is. */
  datatype Stage =
    | StopCapture
    | JoinForward
    | JoinAsr
    | JoinText
    | Complete(job: Job)
    | Announce(job: Job, moved: Transition)
    | AskModel(job: Job)
    | PostComplete(job: Job, outcome: Outcome)
    | PostAnnounce(job: Job, outcome: Outcome, moved: Transition)
    | Inserting(job: Job, outcome: Outcome)
    | InjectComplete(job: Job, outcome: Outcome)
    | InjectAnnounce(job: Job, outcome: Outcome, moved: Transition)
    | AppendHistory(job: Job, outcome: Outcome)
    | AnnounceHistory(job: Job, outcome: Outcome)
    | Finish(job: Job, outcome: Outcome)
    | FailLock
    | FailAnnounce(moved: Transition)
    | FailEvent
    | RecoverLock
    | RecoverAnnounce(moved: Transition)

  /** Where a task is: request handlers, the watcher a start turns into, and the
      pipeline a stop or a watcher turns into. */
  datatype Pc =
    | Done
    | StartPrepare
    | Committing(sid: SessionId)
    | StartAnnounce(sid: SessionId, moved: Transition)
    | StartRejected(sid: SessionId)
    | Watching(sid: SessionId)
    | Toggling
    | StopRequest(sid: SessionId)
    | StopAnnounce(sid: SessionId, recording: Option<SessionId>, moved: Transition)
    | StopSettings(sid: SessionId)
    | CancelRequest(target: Option<SessionId>)
    | CancelStop(sid: SessionId, recording: Option<SessionId>, moved: Transition)
    | CancelAnnounce(sid: SessionId, moved: Transition)
    | CancelFail(sid: SessionId)
    | AutoAnnounce(sid: SessionId, moved: Transition)
    | Piping(sid: SessionId, stage: Stage)

  /** The task that collects a session's partial texts: running, perhaps about to
      announce what it has, ended with its text, or aborted. */
  datatype TextTask =
    | Running(text: string, pending: bool)
    | Finished(text: string)
    | Broken

  /** Where the recording of a session is: with a task, in the shared state, lost, or
      over with. No step looks at it. */
  datatype Place = At(task: TaskId) | Slot | Stranded | Rejected | Settled

  datatype Sys = Sys(
    alnum: AlphaNum,
    b: Backend,
    tasks: map<TaskId, Pc>,
    texts: map<SessionId, TextTask>,
    stops: map<SessionId, nat>,
    accepted: set<SessionId>,
    places: map<SessionId, Place>)

  /** What the outside decides in a step: whether a call succeeds, whether stored
      settings can be read, a new session id, and what the pipeline is given. */
  datatype Input = Input(ok: bool, settingsRead: bool, sid: SessionId, job: Job)

  datatype Step =
    | Arrive(task: TaskId, request: Pc)
    | Run(task: TaskId, input: Input)
    | TextReceive(sid: SessionId, chunk: string)
    | TextEmit(sid: SessionId)
    | TextEnd(sid: SessionId)
    | TextBreak(sid: SessionId)
    | MeterLevel(sid: SessionId)
    | OtherEmit

  function Init(alnum: AlphaNum): Sys {
    Sys(alnum, NEW_BACKEND, map[], map[], map[], {}, map[])
  }

  predicate IsRequest(pc: Pc) {
    pc.StartPrepare? || pc.Toggling? || pc.StopRequest? || pc.CancelRequest?
  }

  /** Task `t` goes on at `pc`, having used the lock. */
  function Go(y: Sys, t: TaskId, pc: Pc, b: Backend): Sys {
    y.(b := b, tasks := y.tasks[t := pc])
  }

  function Put(y: Sys, sid: SessionId, place: Place): Sys {
    y.(places := y.places[sid := place])
  }

  function StopsOf(y: Sys, sid: SessionId): nat { if sid in y.stops then y.stops[sid] else 0 }

  function CaptureStopped(y: Sys, sid: SessionId): Sys {
    y.(stops := y.stops[sid := StopsOf(y, sid) + 1])
  }

  /** `stop_recording`: the capture is stopped and the session's tasks are aborted. */
  function RecordingStopped(y: Sys, recording: Option<SessionId>): Sys {
    match recording
    case Some(sid) => CaptureStopped(y, sid).(texts := y.texts[sid := Broken])
    case None => y
  }

  function Advance(y: Sys, t: TaskId, pc: Pc, i: Input): Sys {
    match pc
    case Done => y
    case StartPrepare =>
      if !i.settingsRead || !i.ok then Go(y, t, Done, y.b)
      else if i.sid in y.texts then y
      else Put(Go(y, t, Committing(i.sid), y.b), i.sid, At(t)).(texts := y.texts[i.sid := Running("", false)])
    case Committing(sid) =>
      (match Started(y.b, sid)
       case (b, Ok(moved)) => Put(Go(y, t, StartAnnounce(sid, moved), b), sid, Slot).(accepted := y.accepted + {sid})
       case (b, Err(_)) => Go(y, t, StartRejected(sid), b))
    case StartAnnounce(sid, moved) => Go(y, t, Watching(sid), Emitted(y.b, StateChanged(moved)))
    case StartRejected(sid) => RecordingStopped(Put(Go(y, t, Done, y.b), sid, Rejected), Some(sid))
    case Watching(sid) =>
      if !i.ok then Go(y, t, Done, y.b)
      else
        (match AutoStopped(y.b, sid)
         case (b, Some(Taken(moved, Some(recording)))) =>
           Put(Go(y, t, AutoAnnounce(recording, moved), b), recording, At(t))
         case (b, _) => Go(y, t, Done, b))
    case Toggling =>
      Go(y, t,
         if y.b.machine.state == Idle then StartPrepare
         else if y.b.machine.state == Recording && y.b.machine.active.Some? then StopRequest(y.b.machine.active.value)
         else Done, y.b)
    case StopRequest(sid) =>
      (match TakenBy(y.b, Stop(sid))
       case (b, Ok(Taken(moved, recording))) => Put(Go(y, t, StopAnnounce(sid, recording, moved), b), sid, At(t))
       case (b, Err(_)) => Go(y, t, Done, b))
    case StopAnnounce(sid, recording, moved) =>
      Go(y, t, if recording.Some? then StopSettings(recording.value) else Done, Emitted(y.b, StateChanged(moved)))
    case StopSettings(sid) =>
      if i.settingsRead then Go(y, t, Piping(sid, StopCapture), y.b)
      else Put(Go(y, t, Done, y.b), sid, Stranded)
    case CancelRequest(target) =>
      (match Cancelled(y.b, target)
       case (b, Ok(Taken(moved, recording))) =>
         if moved.session.Some? then
           Put(Go(y, t, CancelStop(moved.session.value, recording, moved), b), moved.session.value, At(t))
         else Go(y, t, Done, b)
       case (b, Err(_)) => Go(y, t, Done, b))
    case CancelStop(sid, recording, moved) => RecordingStopped(Go(y, t, CancelAnnounce(sid, moved), y.b), recording)
    case CancelAnnounce(sid, moved) => Go(y, t, CancelFail(sid), Emitted(y.b, StateChanged(moved)))
    case CancelFail(sid) => Put(Go(y, t, Done, Emitted(y.b, SessionFailed(sid, true))), sid, Settled)
    case AutoAnnounce(sid, moved) => Go(y, t, Piping(sid, StopCapture), Emitted(y.b, StateChanged(moved)))
    case Piping(sid, stage) => Pipe(y, t, sid, stage, i)
  }

  /** After the text is decided on and the machine has followed. */
  function Deliver(job: Job, outcome: Outcome): Stage {
    if outcome.inject then Inserting(job, outcome) else AppendHistory(job, outcome)
  }

  function FinalEvent(sid: SessionId, job: Job, outcome: Outcome): Event {
    Final(sid, job.raw, job.Processed(), job.Rewritten(), outcome.output, !outcome.inject)
  }

  function Pipe(y: Sys, t: TaskId, sid: SessionId, stage: Stage, i: Input): Sys {
    match stage
    case StopCapture => CaptureStopped(Go(y, t, Piping(sid, if i.ok then JoinForward else FailLock), y.b), sid)
    case JoinForward => Go(y, t, Piping(sid, if i.ok then JoinAsr else FailLock), y.b)
    case JoinAsr => Go(y, t, Piping(sid, if i.ok then JoinText else FailLock), y.b)
    case JoinText =>
      if sid !in y.texts || y.texts[sid].Running? then y
      else if y.texts[sid].Broken? then Go(y, t, Piping(sid, FailLock), y.b)
      else Go(y, t, Piping(sid, Complete(i.job.(raw := y.texts[sid].text))), y.b)
    case Complete(job) =>
      (match Performed(y.b, TranscriptionComplete(sid, job.WantsTextProcessing(), job.WantsOutput()))
       case (b, Ok(moved)) => Go(y, t, Piping(sid, Announce(job, moved)), b)
       case (b, Err(_)) => Go(y, t, Piping(sid, FailLock), b))
    case Announce(job, moved) => Go(y, t, Piping(sid, AskModel(job)), Emitted(y.b, StateChanged(moved)))
    case AskModel(asked) =>
      var job := asked.(cleanup := i.job.cleanup, rewrite := i.job.rewrite);
      var outcome := Decide(job, y.alnum);
      var next := if job.Planned() == PostProcessing then PostComplete(job, outcome) else Deliver(job, outcome);
      Go(y, t, Piping(sid, next), y.b)
    case PostComplete(job, outcome) =>
      (match Performed(y.b, PostProcessingComplete(sid, outcome.inject))
       case (b, Ok(moved)) => Go(y, t, Piping(sid, PostAnnounce(job, outcome, moved)), b)
       case (b, Err(_)) => Go(y, t, Piping(sid, FailLock), b))
    case PostAnnounce(job, outcome, moved) =>
      Go(y, t, Piping(sid, Deliver(job, outcome)), Emitted(y.b, StateChanged(moved)))
    case Inserting(job, outcome) => Go(y, t, Piping(sid, InjectComplete(job, outcome)), y.b)
    case InjectComplete(job, outcome) =>
      (match Performed(y.b, InjectionComplete(sid))
       case (b, Ok(moved)) => Go(y, t, Piping(sid, InjectAnnounce(job, outcome, moved)), b)
       case (b, Err(_)) => Go(y, t, Piping(sid, FailLock), b))
    case InjectAnnounce(job, outcome, moved) =>
      Go(y, t, Piping(sid, AppendHistory(job, outcome)), Emitted(y.b, StateChanged(moved)))
    case AppendHistory(job, outcome) =>
      Go(y, t, Piping(sid, if job.settings.historyEnabled && outcome.output != "" && i.ok
                           then AnnounceHistory(job, outcome) else Finish(job, outcome)), y.b)
    case AnnounceHistory(job, outcome) => Go(y, t, Piping(sid, Finish(job, outcome)), Emitted(y.b, HistoryAdded(sid)))
    case Finish(job, outcome) => Put(Go(y, t, Done, Emitted(y.b, FinalEvent(sid, job, outcome))), sid, Settled)
    case FailLock =>
      (match Performed(y.b, Fail(sid))
       case (b, Ok(moved)) => Go(y, t, Piping(sid, FailAnnounce(moved)), b)
       case (b, Err(_)) => Go(y, t, Piping(sid, FailEvent), b))
    case FailAnnounce(moved) => Go(y, t, Piping(sid, FailEvent), Emitted(y.b, StateChanged(moved)))
    case FailEvent => Go(y, t, Piping(sid, RecoverLock), Emitted(y.b, SessionFailed(sid, false)))
    case RecoverLock =>
      (match Performed(y.b, Recover)
       case (b, Ok(moved)) => Go(y, t, Piping(sid, RecoverAnnounce(moved)), b)
       case (b, Err(_)) => Put(Go(y, t, Done, b), sid, Settled))
    case RecoverAnnounce(moved) => Put(Go(y, t, Done, Emitted(y.b, StateChanged(moved))), sid, Settled)
  }

  /** The collected text with one more trimmed piece. */
  function Joined(text: string, piece: string): string {
    if text == "" then piece else text + " " + piece
  }

  function TextStep(y: Sys, sid: SessionId, task: TextTask, step: Step): Sys {
    if task.Running? && !task.pending && step.TextReceive? && Trim(step.chunk) != "" then
      y.(texts := y.texts[sid := Running(Joined(task.text, Trim(step.chunk)), true)])
    else if task.Running? && task.pending && step.TextEmit? then
      y.(texts := y.texts[sid := Running(task.text, false)], b := Emitted(y.b, Partial(sid, task.text)))
    else if task.Running? && !task.pending && step.TextEnd? then
      y.(texts := y.texts[sid := Finished(task.text)])
    else if task.Running? && step.TextBreak? then y.(texts := y.texts[sid := Broken])
    else y
  }

  /** One step; a step that cannot be taken changes nothing. */
  function Exec(y: Sys, step: Step): Sys {
    match step
    case Arrive(t, request) => if t in y.tasks || !IsRequest(request) then y else Go(y, t, request, y.b)
    case Run(t, input) => if t in y.tasks then Advance(y, t, y.tasks[t], input) else y
    case MeterLevel(sid) => if sid in y.texts then y.(b := Emitted(y.b, Level(sid))) else y
    case OtherEmit => y.(b := Emitted(y.b, OtherEvent))
    case _ => if step.sid in y.texts then TextStep(y, step.sid, y.texts[step.sid], step) else y
  }

  /** Every run: any steps, in any order, from a fresh daemon. */
  function After(alnum: AlphaNum, steps: seq<Step>): Sys
    decreases |steps|
  {
    if steps == [] then Init(alnum) else Exec(After(alnum, steps[..|steps| - 1]), steps[|steps| - 1])
  }
}
