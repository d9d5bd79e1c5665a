/** The dictation state machine. */
module StateMachines {
  import opened Wrappers

  type SessionId = nat

  datatype DictationState =
    Starting | Idle | Recording | Transcribing | PostProcessing | Injecting | Error | ShuttingDown

  /** The edges the protocol allows. */
  predicate CanTransitionTo(from: DictationState, next: DictationState) {
    match next
    case Idle => from in {Starting, Transcribing, PostProcessing, Injecting, Error, Recording}
    case Error => from in {Starting, Recording, Transcribing, PostProcessing, Injecting}
    case Recording => from == Idle
    case ShuttingDown => from == Idle || from == Error
    case Transcribing => from == Recording
    case PostProcessing => from == Transcribing
    case Injecting => from == Transcribing || from == PostProcessing
    case Starting => false
  }

  datatype Action =
    | Start(sid: SessionId)
    | Stop(sid: SessionId)
    | TranscriptionComplete(sid: SessionId, postProcess: bool, inject: bool)
    | PostProcessingComplete(sid: SessionId, inject: bool)
    | InjectionComplete(sid: SessionId)
    | Cancel(sid: SessionId)
    | Fail(sid: SessionId)
    | Recover
    | Shutdown

  datatype Transition = Moved(
    previous: DictationState, current: DictationState, session: Option<SessionId>, terminal: bool)

  datatype TransitionError =
    | InvalidState(state: DictationState, action: Action)
    | StaleSession(active: SessionId, received: SessionId)

  datatype Machine = Machine(state: DictationState, active: Option<SessionId>)

  const NEW_MACHINE := Machine(Idle, None)

  /** The error of an action of session `received`, if it is not the active one. */
  function Stale(m: Machine, received: SessionId): Option<TransitionError> {
    match m.active
    case Some(active) => if active == received then None else Some(StaleSession(active, received))
    case None => Some(InvalidState(m.state, Cancel(received)))
  }

  function Move(m: Machine, next: DictationState, active: Option<SessionId>, session: Option<SessionId>, terminal: bool)
    : Result<(Machine, Transition), TransitionError>
  {
    Ok((Machine(next, active), Moved(m.state, next, session, terminal)))
  }

  /** `Move` for the active session; the session stays active unless it ends in Idle. */
  function MoveOwn(m: Machine, sid: SessionId, next: DictationState, terminal: bool)
    : Result<(Machine, Transition), TransitionError>
  {
    match Stale(m, sid)
    case Some(e) => Err(e)
    case None => Move(m, next, if next == Idle then None else m.active, Some(sid), terminal)
  }

  /** One action: the new machine and the transition, or why it is refused. */
  function Apply(m: Machine, a: Action): Result<(Machine, Transition), TransitionError> {
    match a
    case Start(sid) =>
      if m.state == Idle then Move(m, Recording, Some(sid), Some(sid), false) else Err(InvalidState(m.state, a))
    case Stop(sid) =>
      if m.state == Recording then MoveOwn(m, sid, Transcribing, false) else Err(InvalidState(m.state, a))
    case TranscriptionComplete(sid, postProcess, inject) =>
      if m.state != Transcribing then Err(InvalidState(m.state, a))
      else if postProcess then MoveOwn(m, sid, PostProcessing, false)
      else if inject then MoveOwn(m, sid, Injecting, false)
      else MoveOwn(m, sid, Idle, true)
    case PostProcessingComplete(sid, inject) =>
      if m.state != PostProcessing then Err(InvalidState(m.state, a))
      else if inject then MoveOwn(m, sid, Injecting, false)
      else MoveOwn(m, sid, Idle, true)
    case InjectionComplete(sid) =>
      if m.state == Injecting then MoveOwn(m, sid, Idle, true) else Err(InvalidState(m.state, a))
    case Cancel(sid) =>
      if m.state == Recording then MoveOwn(m, sid, Idle, true) else Err(InvalidState(m.state, a))
    case Fail(sid) =>
      if m.state in {Recording, Transcribing, PostProcessing, Injecting} then MoveOwn(m, sid, Error, true)
      else Err(InvalidState(m.state, a))
    case Recover =>
      if m.state == Error then Move(m, Idle, None, None, false) else Err(InvalidState(m.state, a))
    case Shutdown =>
      if m.state == Idle || m.state == Error then Move(m, ShuttingDown, None, None, false)
      else Err(InvalidState(m.state, a))
  }

  /** The machine as it is kept in the daemon's shared state. */
  class StateMachine {
    var state: DictationState
    var activeSessionId: Option<SessionId>

    ghost function Value(): Machine
      reads this
    {
      Machine(state, activeSessionId)
    }

    constructor ()
      ensures Value() == NEW_MACHINE
    {
      state, activeSessionId := Idle, None;
    }

    method RequireActive(received: SessionId) returns (e: Option<TransitionError>)
      ensures e == Stale(Value(), received)
      ensures match activeSessionId
              case None => e == Some(InvalidState(state, Cancel(received)))
              case Some(active) => e == if active == received then None else Some(StaleSession(active, received))
    {
      match activeSessionId
      case Some(active) => e := if active == received then None else Some(StaleSession(active, received));
      case None => e := Some(InvalidState(state, Cancel(received)));
    }

    /** Performs an action, or leaves the machine as it was and says why. */
    method Transition(action: Action) returns (r: Result<Transition, TransitionError>)
      modifies this
      ensures match Apply(old(Value()), action)
              case Ok((m, t)) => Value() == m && r == Ok(t)
              case Err(e) => Value() == old(Value()) && r == Err(e)
    {
      var previous := state;
      var current, session, terminal := Idle, None, true;
      var stale: Option<TransitionError> := None;
      match action {
        case Start(sid) =>
          if previous != Idle { return Err(InvalidState(previous, action)); }
          activeSessionId := Some(sid);
          current, session, terminal := Recording, Some(sid), false;
        case Stop(sid) =>
          if previous != Recording { return Err(InvalidState(previous, action)); }
          stale := RequireActive(sid);
          current, session, terminal := Transcribing, Some(sid), false;
        case TranscriptionComplete(sid, postProcess, inject) =>
          if previous != Transcribing { return Err(InvalidState(previous, action)); }
          stale := RequireActive(sid);
          session := Some(sid);
          if postProcess {
            current, terminal := PostProcessing, false;
          } else if inject {
            current, terminal := Injecting, false;
          } else if stale.None? {
            activeSessionId := None;
          }
        case PostProcessingComplete(sid, inject) =>
          if previous != PostProcessing { return Err(InvalidState(previous, action)); }
          stale := RequireActive(sid);
          session := Some(sid);
          if inject {
            current, terminal := Injecting, false;
          } else if stale.None? {
            activeSessionId := None;
          }
        case InjectionComplete(sid) =>
          if previous != Injecting { return Err(InvalidState(previous, action)); }
          stale := RequireActive(sid);
          session := Some(sid);
          if stale.None? { activeSessionId := None; }
        case Cancel(sid) =>
          if previous != Recording { return Err(InvalidState(previous, action)); }
          stale := RequireActive(sid);
          session := Some(sid);
          if stale.None? { activeSessionId := None; }
        case Fail(sid) =>
          if previous !in {Recording, Transcribing, PostProcessing, Injecting} {
            return Err(InvalidState(previous, action));
          }
          stale := RequireActive(sid);
          current, session := Error, Some(sid);
        case Recover =>
          if previous != Error { return Err(InvalidState(previous, action)); }
          activeSessionId := None;
          terminal := false;
        case Shutdown =>
          if previous != Idle && previous != Error { return Err(InvalidState(previous, action)); }
          activeSessionId := None;
          current, terminal := ShuttingDown, false;
      }
      if stale.Some? { return Err(stale.value); }
      state := current;
      r := Ok(Moved(previous, current, session, terminal));
    }
  }

  // -------------------------------------------------------------------- laws

  predicate Busy(s: DictationState) { s in {Recording, Transcribing, PostProcessing, Injecting, Error} }

  /** A session is active exactly in the busy states. */
  predicate Coherent(m: Machine) { m.active.Some? <==> Busy(m.state) }

  /** The machine after a list of attempted actions; refused ones change nothing. */
  function Run(m: Machine, actions: seq<Action>): Machine
    decreases |actions|
  {
    if actions == [] then m
    else
      match Apply(m, actions[0])
      case Ok((next, _)) => Run(next, actions[1..])
      case Err(_) => Run(m, actions[1..])
  }

  lemma ApplyCoherent(m: Machine, a: Action)
    requires Coherent(m) && Apply(m, a).Ok?
    ensures Coherent(Apply(m, a).value.0)
  {}

  /** Whatever actions are attempted, a session is active exactly in the busy states,
      and an accepted step is an edge of the protocol that reports itself truthfully:
      it is terminal exactly when a session leaves the stage. */
  lemma {:induction false} EveryRun(m: Machine, actions: seq<Action>, a: Action)
    requires Coherent(m)
    ensures var r := Run(m, actions);
            && Coherent(r)
            && (Apply(r, a).Ok? ==>
                  var (next, t) := Apply(r, a).value;
                  && CanTransitionTo(r.state, next.state)
                  && t.previous == r.state && t.current == next.state
                  && (t.terminal <==> t.session.Some? && (next.state == Idle || next.state == Error))
                  && (t.session.Some? && r.active.Some? ==> t.session == r.active))
    decreases |actions|
  {
    if actions != [] {
      if Apply(m, actions[0]).Ok? { ApplyCoherent(m, actions[0]); }
      EveryRun(if Apply(m, actions[0]).Ok? then Apply(m, actions[0]).value.0 else m, actions[1..], a);
    }
  }

  /** The session an action speaks for; `Start` opens a new one. */
  function Names(a: Action): Option<SessionId> {
    match a
    case Start(_) | Recover | Shutdown => None
    case _ => Some(a.sid)
  }

  /** The states an action starts from. */
  function From(a: Action): set<DictationState> {
    match a
    case Start(_) => {Idle}
    case Stop(_) | Cancel(_) => {Recording}
    case TranscriptionComplete(_, _, _) => {Transcribing}
    case PostProcessingComplete(_, _) => {PostProcessing}
    case InjectionComplete(_) => {Injecting}
    case Fail(_) => {Recording, Transcribing, PostProcessing, Injecting}
    case Recover => {Error}
    case Shutdown => {Idle, Error}
  }

  /** The state it leads to. */
  function To(a: Action): DictationState {
    match a
    case Start(_) => Recording
    case Stop(_) => Transcribing
    case TranscriptionComplete(_, postProcess, inject) =>
      if postProcess then PostProcessing else if inject then Injecting else Idle
    case PostProcessingComplete(_, inject) => if inject then Injecting else Idle
    case InjectionComplete(_) | Cancel(_) | Recover => Idle
    case Fail(_) => Error
    case Shutdown => ShuttingDown
  }

  /** Every action by the table: which is accepted, what it makes of the machine and
      reports, and which error refuses it. */
  lemma ActionsAre(m: Machine, a: Action)
    requires Coherent(m)
    ensures var named, to := Names(a), To(a);
            var session := if a.Start? then Some(a.sid) else named;
            match Apply(m, a)
            case Ok((next, t)) =>
              && m.state in From(a) && (named.Some? ==> named == m.active)
              && next == Machine(to, if to in {Idle, ShuttingDown} then None else session)
              && t == Moved(m.state, to, session, named.Some? && to in {Idle, Error})
            case Err(e) =>
              if m.state !in From(a) then e == InvalidState(m.state, a)
              else named.Some? && m.active.Some? && named != m.active
                   && e == StaleSession(m.active.value, named.value)
  {}

  /** Late actions of another session are refused in every state. */
  lemma LateActionsRefused(m: Machine, a: Action)
    requires Coherent(m) && Names(a).Some? && Names(a) != m.active
    ensures Apply(m, a).Err?
  {}

  /** The machine realises exactly the edges of the protocol, except those that leave
      Starting: no action is accepted there. */
  lemma EdgesExact(m: Machine, next: DictationState)
    requires Coherent(m)
    ensures m.state != Starting && CanTransitionTo(m.state, next)
            <==> exists a :: Apply(m, a).Ok? && Apply(m, a).value.0.state == next
  {
    if m.state != Starting && CanTransitionTo(m.state, next) {
      var s := if m.active.Some? then m.active.value else 0;
      var a := if next == Recording then Start(s)
               else if next == Transcribing then Stop(s)
               else if next == PostProcessing then TranscriptionComplete(s, true, false)
               else if next == Injecting && m.state == Transcribing then TranscriptionComplete(s, false, true)
               else if next == Injecting then PostProcessingComplete(s, true)
               else if next == Error then Fail(s)
               else if next == ShuttingDown then Shutdown
               else if m.state == Recording then Cancel(s)
               else if m.state == Transcribing then TranscriptionComplete(s, false, false)
               else if m.state == PostProcessing then PostProcessingComplete(s, false)
               else if m.state == Injecting then InjectionComplete(s)
               else Recover;
      assert Apply(m, a).Ok? && Apply(m, a).value.0.state == next;
    }
  }
}
