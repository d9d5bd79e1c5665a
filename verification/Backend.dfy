/** The daemon's shared state. Every task reaches it through one lock; each method
    of `BackendState` is what one holder of the lock does before letting go. */
module Backends {
  import opened Integers
  import opened StateMachines
  import opened Wrappers

  datatype Event =
    | StateChanged(moved: Transition)
    | Partial(sid: SessionId, text: string)
    | Level(sid: SessionId)
    | Final(sid: SessionId, raw: string, processed: string, rewritten: Option<string>, output: string, skipped: bool)
    | SessionFailed(sid: SessionId, cancelled: bool)
    | HistoryAdded(sid: SessionId)
    | OtherEvent

  datatype Envelope = Envelope(sequence: nat, event: Event)

  /** The lock-protected fields, and everything broadcast so far. A recording is
      known by its session. */
  datatype Backend = Backend(machine: Machine, sequence: nat, recording: Option<SessionId>, log: seq<Envelope>)

  const NEW_BACKEND := Backend(NEW_MACHINE, 0, None, [])

  /** A transition, with the recording that was taken out of the shared state. */
  datatype Taken = Taken(moved: Transition, recording: Option<SessionId>)

  datatype Refusal = NothingActive | Refused(error: TransitionError)

  function Emitted(b: Backend, e: Event): Backend {
    var n := Saturate(b.sequence + 1);
    b.(sequence := n, log := b.log + [Envelope(n, e)])
  }

  function Performed(b: Backend, a: Action): (Backend, Result<Transition, TransitionError>) {
    match Apply(b.machine, a)
    case Ok((m, moved)) => (b.(machine := m), Ok(moved))
    case Err(e) => (b, Err(e))
  }

  /** A prepared recording becomes the active one, unless another start has won. */
  function Started(b: Backend, sid: SessionId): (Backend, Result<Transition, TransitionError>) {
    match Performed(b, Start(sid))
    case (next, Ok(moved)) => (next.(recording := Some(sid)), Ok(moved))
    case (_, Err(e)) => (b, Err(e))
  }

  function TakenBy(b: Backend, a: Action): (Backend, Result<Taken, Refusal>) {
    match Performed(b, a)
    case (next, Ok(moved)) => (next.(recording := None), Ok(Taken(moved, b.recording)))
    case (_, Err(e)) => (b, Err(Refused(e)))
  }

  /** Cancels the named session or, without a name, whichever is active. */
  function Cancelled(b: Backend, target: Option<SessionId>): (Backend, Result<Taken, Refusal>) {
    match if target.Some? then target else b.machine.active
    case Some(sid) => TakenBy(b, Cancel(sid))
    case None => (b, Err(NothingActive))
  }

  /** What the silence watcher of a session does when its signal arrives. */
  function AutoStopped(b: Backend, sid: SessionId): (Backend, Option<Taken>) {
    if b.machine.state != Recording || b.machine.active != Some(sid) then (b, None)
    else
      match TakenBy(b, Stop(sid))
      case (next, Ok(taken)) => (next, Some(taken))
      case (_, Err(_)) => (b, None)
  }

  class BackendState {
    const machine: StateMachine
    var sequence: nat
    var activeRecording: Option<SessionId>
    var events: seq<Envelope>

    ghost function Value(): Backend
      reads this, machine
    {
      Backend(machine.Value(), sequence, activeRecording, events)
    }

    constructor ()
      ensures fresh(machine) && Value() == NEW_BACKEND
    {
      machine := new StateMachine();
      sequence, activeRecording, events := 0, None, [];
    }

    method EmitEvent(event: Event) returns (envelope: Envelope)
      modifies this
      ensures Value() == Emitted(old(Value()), event)
      ensures sequence == (if old(sequence) < U64_MAX then old(sequence) + 1 else U64_MAX)
      ensures envelope == Envelope(sequence, event) && events == old(events) + [envelope]
      ensures activeRecording == old(activeRecording)
    {
      sequence := if sequence < U64_MAX then sequence + 1 else U64_MAX;
      envelope := Envelope(sequence, event);
      events := events + [envelope];
    }

    method ApplyTransition(action: Action) returns (r: Result<Transition, TransitionError>)
      modifies machine
      ensures (Value(), r) == Performed(old(Value()), action)
    {
      r := machine.Transition(action);
    }

    method CommitStart(sid: SessionId) returns (r: Result<Transition, TransitionError>)
      modifies this, machine
      ensures (Value(), r) == Started(old(Value()), sid)
      ensures if old(machine.state) == Idle
              then r == Ok(Moved(Idle, Recording, Some(sid), false)) && activeRecording == Some(sid)
                   && machine.Value() == Machine(Recording, Some(sid))
              else r.Err? && Value() == old(Value())
      ensures sequence == old(sequence) && events == old(events)
    {
      r := machine.Transition(Start(sid));
      if r.Ok? { activeRecording := Some(sid); }
    }

    method CommitStop(sid: SessionId) returns (r: Result<Taken, Refusal>)
      modifies this, machine
      ensures (Value(), r) == TakenBy(old(Value()), Stop(sid))
      ensures if old(machine.Value()) == Machine(Recording, Some(sid))
              then r == Ok(Taken(Moved(Recording, Transcribing, Some(sid), false), old(activeRecording)))
                   && activeRecording == None && machine.Value() == Machine(Transcribing, Some(sid))
              else r.Err? && Value() == old(Value())
      ensures sequence == old(sequence) && events == old(events)
    {
      var moved := machine.Transition(Stop(sid));
      match moved
      case Ok(t) =>
        r := Ok(Taken(t, activeRecording));
        activeRecording := None;
      case Err(e) => r := Err(Refused(e));
    }

    method CommitCancel(target: Option<SessionId>) returns (r: Result<Taken, Refusal>)
      modifies this, machine
      ensures (Value(), r) == Cancelled(old(Value()), target)
      ensures var sid := if target.Some? then target else old(machine.activeSessionId);
              if sid.Some? && old(machine.Value()) == Machine(Recording, sid)
              then r == Ok(Taken(Moved(Recording, Idle, sid, true), old(activeRecording)))
                   && activeRecording == None && machine.Value() == NEW_MACHINE
              else r.Err? && Value() == old(Value()) && (r.error == NothingActive <==> sid == None)
      ensures sequence == old(sequence) && events == old(events)
    {
      var named := if target.Some? then target else machine.activeSessionId;
      if named.None? { return Err(NothingActive); }
      var moved := machine.Transition(Cancel(named.value));
      match moved
      case Ok(t) =>
        r := Ok(Taken(t, activeRecording));
        activeRecording := None;
      case Err(e) => r := Err(Refused(e));
    }

    method CommitAutoStop(sid: SessionId) returns (r: Option<Taken>)
      modifies this, machine
      ensures (Value(), r) == AutoStopped(old(Value()), sid)
      ensures if old(machine.Value()) == Machine(Recording, Some(sid))
              then r == Some(Taken(Moved(Recording, Transcribing, Some(sid), false), old(activeRecording)))
                   && activeRecording == None && machine.Value() == Machine(Transcribing, Some(sid))
              else r == None && Value() == old(Value())
      ensures sequence == old(sequence) && events == old(events)
    {
      if machine.state != Recording || machine.activeSessionId != Some(sid) { return None; }
      var moved := machine.Transition(Stop(sid));
      match moved
      case Ok(t) =>
        r := Some(Taken(t, activeRecording));
        activeRecording := None;
      case Err(_) => r := None;
    }
  }
}
