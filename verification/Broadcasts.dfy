/** What each step of the daemon adds to its broadcast. */
module Broadcasts {
  import opened Backends
  import opened LlmText
  import opened Pipeline
  import opened Sessions
  import opened StateMachines
  import opened Wrappers

  /** The event a task announces in its next step. */
  function SaidBy(pc: Pc): Option<Event> {
    match pc
    case StartAnnounce(_, moved) => Some(StateChanged(moved))
    case StopAnnounce(_, _, moved) => Some(StateChanged(moved))
    case CancelAnnounce(_, moved) => Some(StateChanged(moved))
    case CancelFail(sid) => Some(SessionFailed(sid, true))
    case AutoAnnounce(_, moved) => Some(StateChanged(moved))
    case Piping(sid, stage) =>
      (match stage
       case Announce(_, moved) => Some(StateChanged(moved))
       case PostAnnounce(_, _, moved) => Some(StateChanged(moved))
       case InjectAnnounce(_, _, moved) => Some(StateChanged(moved))
       case AnnounceHistory(_, _) => Some(HistoryAdded(sid))
       case Finish(job, outcome) => Some(FinalEvent(sid, job, outcome))
       case FailAnnounce(moved) => Some(StateChanged(moved))
       case FailEvent => Some(SessionFailed(sid, false))
       case RecoverAnnounce(moved) => Some(StateChanged(moved))
       case _ => None)
    case _ => None
  }

  /** The event of a step. */
  function Emission(y: Sys, step: Step): Option<Event> {
    match step
    case Run(t, _) => if t in y.tasks then SaidBy(y.tasks[t]) else None
    case TextEmit(s) =>
      if s in y.texts && y.texts[s].Running? && y.texts[s].pending then Some(Partial(s, y.texts[s].text)) else None
    case MeterLevel(s) => if s in y.texts then Some(Level(s)) else None
    case OtherEmit => Some(OtherEvent)
    case _ => None
  }

  /** The broadcast after saying something, or nothing. */
  function LogWith(b: Backend, said: Option<Event>): seq<Envelope> {
    if said.None? then b.log else Emitted(b, said.value).log
  }

  lemma PipeEmits(y: Sys, t: TaskId, s: SessionId, stage: Stage, i: Input)
    ensures Pipe(y, t, s, stage, i).b.log == LogWith(y.b, SaidBy(Piping(s, stage)))
  {
    hide Emitted, Apply, Decide, FinalEvent, Job.Planned, Job.WantsOutput, Job.WantsTextProcessing;
  }

  lemma HandlerEmits(y: Sys, t: TaskId, pc: Pc, i: Input)
    requires !pc.Piping?
    ensures Advance(y, t, pc, i).b.log == LogWith(y.b, SaidBy(pc))
  {
    hide Emitted, Apply, Pipe;
  }

  lemma PipingAdvances(y: Sys, t: TaskId, pc: Pc, i: Input)
    requires pc.Piping?
    ensures Advance(y, t, pc, i) == Pipe(y, t, pc.sid, pc.stage, i)
  {
    hide Pipe;
  }

  lemma StepEmits(y: Sys, step: Step)
    ensures Exec(y, step).b.log == LogWith(y.b, Emission(y, step))
  {
    hide Emitted, Advance, SaidBy, Trim, Joined;
    if step.Run? && step.task in y.tasks {
      var pc := y.tasks[step.task];
      if pc.Piping? {
        PipeEmits(y, step.task, pc.sid, pc.stage, step.input);
        PipingAdvances(y, step.task, pc, step.input);
      } else {
        HandlerEmits(y, step.task, pc, step.input);
      }
    }
  }

  /** The broadcast only grows, by at most the one event of the step. */
  lemma LogGrows(y: Sys, step: Step)
    ensures var log, more := y.b.log, Exec(y, step).b.log;
            && log <= more
            && |more| == |log| + (if Emission(y, step).Some? then 1 else 0)
            && (Emission(y, step).Some? ==> more[|log|].event == Emission(y, step).value)
  {
    StepEmits(y, step);
    hide Exec, Emission;
  }
}
