/** The daemon's tasks written out as they run when nothing comes between: the loop that
    collects texts, and the pipeline of a stopped recording. */
module Handlers {
  import opened Backends
  import opened LlmText
  import opened Pipeline
  import opened Sessions
  import opened StateMachines
  import opened Wrappers

  // ---------------------------------------------------------------- partial texts

  /** What is left of received texts once they are trimmed and blank ones dropped. */
  function Pieces(received: seq<string>): seq<string>
    decreases |received|
  {
    if received == [] then []
    else
      var front, last := Pieces(received[..|received| - 1]), Trim(received[|received| - 1]);
      if last == "" then front else front + [last]
  }

  /** The pieces with a space between neighbours. */
  function JoinedAll(pieces: seq<string>): string
    decreases |pieces|
  {
    if pieces == [] then "" else Joined(JoinedAll(pieces[..|pieces| - 1]), pieces[|pieces| - 1])
  }

  /** One announcement for each piece, of all the text so far. */
  function Announcements(sid: SessionId, pieces: seq<string>): seq<Event>
    decreases |pieces|
  {
    if pieces == [] then [] else Announcements(sid, pieces[..|pieces| - 1]) + [Partial(sid, JoinedAll(pieces))]
  }

  /** The shared state after announcing some events, and with the machine at `m`. */
  function Said(b: Backend, events: seq<Event>, m: Machine): Backend
    decreases |events|
  {
    if events == [] then b.(machine := m)
    else Emitted(Said(b, events[..|events| - 1], m), events[|events| - 1])
  }

  lemma SaidMore(b: Backend, events: seq<Event>, m: Machine, e: Event)
    ensures Said(b, events + [e], m) == Emitted(Said(b, events, m), e)
  {
    assert (events + [e])[..|events|] == events;
  }

  lemma {:induction false} SaidMoved(b: Backend, events: seq<Event>, m: Machine, next: Machine)
    ensures Said(b, events, m).(machine := next) == Said(b, events, next) && Said(b, events, m).machine == m
    decreases |events|
  {
    if events != [] { SaidMoved(b, events[..|events| - 1], m, next); }
  }

  /** Announcing in two parts is announcing at once. */
  lemma {:induction false} SaidTogether(b: Backend, xs: seq<Event>, m: Machine, ys: seq<Event>, next: Machine)
    ensures Said(Said(b, xs, m), ys, next) == Said(b, xs + ys, next)
    decreases |ys|
  {
    if ys == [] {
      assert xs + ys == xs;
      SaidMoved(b, xs, m, next);
    } else {
      var front := ys[..|ys| - 1];
      SaidTogether(b, xs, m, front, next);
      assert (xs + ys)[..|xs + ys| - 1] == xs + front;
    }
  }

  /** Another receipt: nothing if it is blank, one more piece and its announcement
      otherwise. */
  lemma ReceivedMore(received: seq<string>, text: string, sid: SessionId)
    ensures var pieces := Pieces(received);
            var all := Pieces(received + [text]);
            && (Trim(text) == "" ==> all == pieces)
            && (Trim(text) != "" ==>
                  && JoinedAll(all) == Joined(JoinedAll(pieces), Trim(text))
                  && Announcements(sid, all) == Announcements(sid, pieces) + [Partial(sid, JoinedAll(all))])
  {
    hide Trim;
    assert (received + [text])[..|received|] == received;
    var pieces := Pieces(received);
    assert (pieces + [Trim(text)])[..|pieces|] == pieces;
  }

  /** The text task: collects what recognition sends and announces the text so far. */
  method CollectText(state: BackendState, sid: SessionId, received: seq<string>) returns (accumulated: string)
    modifies state
    ensures accumulated == JoinedAll(Pieces(received))
    ensures state.Value() == Said(old(state.Value()), Announcements(sid, Pieces(received)), old(state.Value()).machine)
  {
    hide Pieces, JoinedAll, Announcements, Trim, Emitted;
    accumulated := "";
    Nothing(sid);
    ghost var b := state.Value();
    for i := 0 to |received|
      invariant accumulated == JoinedAll(Pieces(received[..i]))
      invariant state.Value() == Said(b, Announcements(sid, Pieces(received[..i])), b.machine)
    {
      assert received[..i + 1] == received[..i] + [received[i]];
      ReceivedMore(received[..i], received[i], sid);
      var partial := Trim(received[i]);
      if partial != "" {
        if accumulated != "" { accumulated := accumulated + " "; }
        accumulated := accumulated + partial;
        SaidMore(b, Announcements(sid, Pieces(received[..i])), b.machine, Partial(sid, accumulated));
        var _ := state.EmitEvent(Partial(sid, accumulated));
      }
    }
    assert received[..|received|] == received;
  }

  lemma Nothing(sid: SessionId)
    ensures Pieces([]) == [] && JoinedAll([]) == "" && Announcements(sid, []) == []
  {}

  // --------------------------------------------------------------------- failure

  /** The events of a failing session, and the machine after it: one that has the
      machine goes through Error to Idle; another only says that it failed, and clears
      an Error it finds. */
  function FailureCourse(sid: SessionId, m: Machine): (seq<Event>, Machine) {
    match Apply(m, Fail(sid))
    case Ok((_, moved)) =>
      ([StateChanged(moved), SessionFailed(sid, false), StateChanged(Moved(Error, Idle, None, false))], NEW_MACHINE)
    case Err(_) =>
      if m.state == Error then ([SessionFailed(sid, false), StateChanged(Moved(Error, Idle, None, false))], NEW_MACHINE)
      else ([SessionFailed(sid, false)], m)
  }

  /** Performs an action the machine is ready for, and announces it. */
  method Move(state: BackendState, action: Action) returns (ok: bool)
    modifies state, state.machine
    ensures var was := old(state.Value());
            match Apply(was.machine, action)
            case Err(_) => !ok && state.Value() == was
            case Ok((m, moved)) => ok && state.Value() == Emitted(was.(machine := m), StateChanged(moved))
  {
    hide Apply;
    var r := state.ApplyTransition(action);
    if r.Err? { return false; }
    var _ := state.EmitEvent(StateChanged(r.value));
    ok := true;
  }

  method FailSession(state: BackendState, sid: SessionId)
    modifies state, state.machine
    ensures var b := old(state.Value());
            var (events, m) := FailureCourse(sid, b.machine);
            state.Value() == Said(b, events, m)
  {
    ghost var b := state.Value();
    var failed := Move(state, Fail(sid));
    var _ := state.EmitEvent(SessionFailed(sid, false));
    var recovered := Move(state, Recover);
    FailureSaid(b, sid, failed, recovered, state.Value());
  }

  /** What the three steps of a failure amount to. */
  lemma FailureSaid(b: Backend, sid: SessionId, failed: bool, recovered: bool, after: Backend)
    requires failed == Apply(b.machine, Fail(sid)).Ok?
    requires var b1 := match Apply(b.machine, Fail(sid))
                       case Ok((m, moved)) => Emitted(b.(machine := m), StateChanged(moved))
                       case Err(_) => b;
             var b2 := Emitted(b1, SessionFailed(sid, false));
             && recovered == Apply(b2.machine, Recover).Ok?
             && after == match Apply(b2.machine, Recover)
                         case Ok((m, moved)) => Emitted(b2.(machine := m), StateChanged(moved))
                         case Err(_) => b2
    ensures var (events, m) := FailureCourse(sid, b.machine);
            after == Said(b, events, m)
  {
    var (events, m) := FailureCourse(sid, b.machine);
    if |events| == 3 {
      assert events[..2] == [events[0], events[1]] && events[..2][..1] == [events[0]];
      assert after == Emitted(Emitted(Emitted(b.(machine := m), events[0]), events[1]), events[2]);
      assert Said(b, events[..2], m) == Emitted(Said(b, events[..2][..1], m), events[1]);
      assert Said(b, events[..2][..1], m) == Emitted(Said(b, [], m), events[0]);
    } else if |events| == 2 {
      assert events[..1] == [events[0]];
      assert Said(b, events[..1], m) == Emitted(Said(b, [], m), events[0]);
    } else {
      assert Said(b, events, m) == Emitted(Said(b, [], m), events[0]);
    }
  }

  // -------------------------------------------------------------------- pipeline

  /** The machine once the transcription of the session is complete. */
  function PlannedMachine(sid: SessionId, job: Job): Machine {
    if job.Planned() == Idle then NEW_MACHINE else Machine(job.Planned(), Some(sid))
  }

  function Completed(sid: SessionId, job: Job): Event {
    StateChanged(Moved(Transcribing, job.Planned(), Some(sid), job.Planned() == Idle))
  }

  /** The events from the decision on: what the machine still does, and the report. */
  function OutputCourse(sid: SessionId, job: Job, o: Outcome, recorded: bool): seq<Event> {
    (if job.Planned() == PostProcessing
     then [StateChanged(Moved(PostProcessing, if o.inject then Injecting else Idle, Some(sid), !o.inject))] else [])
    + DeliverCourse(sid, job, o, recorded)
  }

  function DeliverCourse(sid: SessionId, job: Job, o: Outcome, recorded: bool): seq<Event> {
    (if o.inject then [StateChanged(Moved(Injecting, Idle, Some(sid), true))] else [])
    + ReportCourse(sid, job, o, recorded)
  }

  function ReportCourse(sid: SessionId, job: Job, o: Outcome, recorded: bool): seq<Event> {
    (if recorded then [HistoryAdded(sid)] else []) + [FinalEvent(sid, job, o)]
  }

  predicate Recorded(job: Job, o: Outcome, historyTaken: bool) {
    job.settings.historyEnabled && o.output != "" && historyTaken
  }

  /** What an undisturbed pipeline does to the shared state: the failure of a session
      whose tasks did not end well, or the course of the decision on its text. */
  function PipelineEffect(
      b: Backend, sid: SessionId, ok: bool, text: Option<string>, given: Job, alnum: AlphaNum, historyTaken: bool)
    : Backend
  {
    if ok && text.Some? then
      var job := given.(raw := text.value);
      var o := Decide(job, alnum);
      Said(b, [Completed(sid, job)] + OutputCourse(sid, job, o, Recorded(job, o, historyTaken)), NEW_MACHINE)
    else
      var (events, m) := FailureCourse(sid, b.machine);
      Said(b, events, m)
  }

  lemma SaidOne(b: Backend, m: Machine, e: Event)
    ensures Said(b, [e], m) == Emitted(b.(machine := m), e)
  {
    assert [e][..0] == [];
  }

  /** The first event, and the rest after it. */
  lemma SaidFirst(b: Backend, m: Machine, e: Event, rest: seq<Event>, next: Machine)
    ensures Said(Emitted(b.(machine := m), e), rest, next) == Said(b, [e] + rest, next)
  {
    SaidOne(b, m, e);
    SaidTogether(b, [e], m, rest, next);
  }

  /** Transcription is complete: the machine goes where the job needs it. */
  method CompleteTranscription(state: BackendState, sid: SessionId, job: Job)
    requires state.Value().machine == Machine(Transcribing, Some(sid))
    modifies state, state.machine
    ensures state.Value() == Emitted(old(state.Value()).(machine := PlannedMachine(sid, job)), Completed(sid, job))
  {
    hide Job.WantsOutput, Job.WantsTextProcessing;
    var _ := Move(state, TranscriptionComplete(sid, job.WantsTextProcessing(), job.WantsOutput()));
  }

  /** The report of a session that has given the machine back. */
  method Report(state: BackendState, sid: SessionId, job: Job, o: Outcome, historyTaken: bool)
    requires state.Value().machine == NEW_MACHINE
    modifies state, state.machine
    ensures state.Value() ==
              Said(old(state.Value()), ReportCourse(sid, job, o, Recorded(job, o, historyTaken)), NEW_MACHINE)
  {
    hide FinalEvent, Emitted;
    ghost var b := state.Value();
    SaidOne(b, NEW_MACHINE, FinalEvent(sid, job, o));
    assert b.(machine := NEW_MACHINE) == b;
    if job.settings.historyEnabled && o.output != "" && historyTaken {
      SaidOne(b, NEW_MACHINE, HistoryAdded(sid));
      SaidMore(b, [HistoryAdded(sid)], NEW_MACHINE, FinalEvent(sid, job, o));
      var _ := state.EmitEvent(HistoryAdded(sid));
    } else {
      assert ReportCourse(sid, job, o, false) == [FinalEvent(sid, job, o)];
    }
    var _ := state.EmitEvent(FinalEvent(sid, job, o));
  }

  /** The text goes out, if it is to, and is reported. */
  method Deliver(state: BackendState, sid: SessionId, job: Job, o: Outcome, historyTaken: bool)
    returns (inserted: Option<string>)
    requires state.Value().machine == if o.inject then Machine(Injecting, Some(sid)) else NEW_MACHINE
    modifies state, state.machine
    ensures inserted == if o.inject then Some(o.output) else None
    ensures state.Value() ==
              Said(old(state.Value()), DeliverCourse(sid, job, o, Recorded(job, o, historyTaken)), NEW_MACHINE)
  {
    hide ReportCourse, Emitted;
    ghost var b := state.Value();
    ghost var report := ReportCourse(sid, job, o, Recorded(job, o, historyTaken));
    inserted := None;
    if o.inject {
      inserted := Some(o.output);
      var _ := Move(state, InjectionComplete(sid));
      SaidFirst(b, NEW_MACHINE, StateChanged(Moved(Injecting, Idle, Some(sid), true)), report, NEW_MACHINE);
      EmittedKeeps(b.(machine := NEW_MACHINE), StateChanged(Moved(Injecting, Idle, Some(sid), true)));
    } else {
      assert DeliverCourse(sid, job, o, Recorded(job, o, historyTaken)) == report;
    }
    Report(state, sid, job, o, historyTaken);
  }

  lemma EmittedKeeps(b: Backend, e: Event)
    ensures Emitted(b, e).machine == b.machine
  {}

  /** Everything after the decision: post-processing is over, the text goes out. */
  method Output(state: BackendState, sid: SessionId, job: Job, o: Outcome, historyTaken: bool)
    returns (inserted: Option<string>)
    requires state.Value().machine == PlannedMachine(sid, job)
    requires job.Planned() in {PostProcessing, Injecting, Idle}
    requires job.Planned() != PostProcessing ==> (o.inject <==> job.Planned() == Injecting)
    modifies state, state.machine
    ensures inserted == if o.inject then Some(o.output) else None
    ensures state.Value() ==
              Said(old(state.Value()), OutputCourse(sid, job, o, Recorded(job, o, historyTaken)), NEW_MACHINE)
  {
    hide DeliverCourse, Emitted, Job.Planned;
    ghost var b := state.Value();
    ghost var rest := DeliverCourse(sid, job, o, Recorded(job, o, historyTaken));
    if job.Planned() == PostProcessing {
      ghost var m := if o.inject then Machine(Injecting, Some(sid)) else NEW_MACHINE;
      ghost var e := StateChanged(Moved(PostProcessing, m.state, Some(sid), !o.inject));
      var _ := Move(state, PostProcessingComplete(sid, o.inject));
      SaidFirst(b, m, e, rest, NEW_MACHINE);
      EmittedKeeps(b.(machine := m), e);
    } else {
      assert OutputCourse(sid, job, o, Recorded(job, o, historyTaken)) == rest;
    }
    inserted := Deliver(state, sid, job, o, historyTaken);
  }

  /** The pipeline of a stopped recording; the flags and `text` say which of the
      session's tasks ended well, `given` what the providers reply. */
  method RunPipeline(state: BackendState, sid: SessionId, stopped: bool, forwarded: bool, recognised: bool,
                     text: Option<string>, given: Job, alnum: AlphaNum, historyTaken: bool)
    returns (inserted: Option<string>)
    requires state.Value().machine == Machine(Transcribing, Some(sid))
    modifies state, state.machine
    ensures var ok := stopped && forwarded && recognised;
            && state.Value() == PipelineEffect(old(state.Value()), sid, ok, text, given, alnum, historyTaken)
            && inserted == if ok && text.Some? && Decide(given.(raw := text.value), alnum).inject
                           then Some(Decide(given.(raw := text.value), alnum).output) else None
  {
    hide FailureCourse, OutputCourse, Emitted, Said, Decide, Job.Planned, Completed;
    if !stopped || !forwarded || !recognised || text.None? {
      FailSession(state, sid);
      return None;
    }
    ghost var b := state.Value();
    var job := given.(raw := text.value);
    CompleteTranscription(state, sid, job);
    EmittedKeeps(b.(machine := PlannedMachine(sid, job)), Completed(sid, job));
    var o := Decide(job, alnum);
    DecisionFitsState(job, alnum);
    PlannedOneOf(job);
    inserted := Output(state, sid, job, o, historyTaken);
    SaidFirst(b, PlannedMachine(sid, job), Completed(sid, job),
              OutputCourse(sid, job, o, Recorded(job, o, historyTaken)), NEW_MACHINE);
  }

  lemma PlannedOneOf(job: Job)
    ensures job.Planned() in {PostProcessing, Injecting, Idle}
  {}
}
