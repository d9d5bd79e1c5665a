/** The desktop client's picture of the daemon, kept up to date by numbered events. */
module ViewModels {
  import opened Integers
  import opened StateMachines
  import opened Wrappers

  type InstanceId = nat

  datatype Kind = Request | Response | Event

  /** Who a message is meant for, by its name. */
  datatype Purpose = Snapshots | AllSettings | Events

  /** The name of a message with its payload as the client reads it. */
  datatype Body =
    | StateGet(state: DictationState, active: Option<SessionId>, revision: nat, capabilities: seq<string>)
    | SettingsGet(revision: nat, settings: string)
    | SettingsReplace(revision: nat, settings: string)
    | StateChanged(current: DictationState, session: Option<SessionId>)
    | RecordingLevel(sid: SessionId, level: real)
    | TranscriptPartial(sid: SessionId, text: string)
    | TranscriptFinal
    | SessionFailed(code: string, message: string)
    | SettingsChanged(changed: Option<nat>)
    | Notice
    | BadPayload(purpose: Purpose)
    | OtherName

  datatype Message = Message(kind: Kind, instance: Option<InstanceId>, sequence: Option<nat>, body: Body)

  datatype ViewModelError =
    | UnexpectedMessage
    | BackendRestarted(expected: InstanceId, received: InstanceId)
    | SequenceGap(next: nat, got: nat)
    | Payload

  datatype Model = Model(
    instance: Option<InstanceId>, lastSequence: Option<nat>, state: DictationState, active: Option<SessionId>,
    revision: nat, settings: string, capabilities: seq<string>, level: real, partial: string,
    error: Option<string>, stale: bool)

  const NEW_MODEL := Model(None, None, DictationState.Starting, None, 0, "", [], 0.0, "", None, false)

  function Clamp(x: real): real { if x < 0.0 then 0.0 else if x > 1.0 then 1.0 else x }

  /** Why an event is not the next one, if it is not. */
  function OutOfOrder(m: Model, e: Message): Option<ViewModelError> {
    if e.kind != Event || e.instance.None? then Some(UnexpectedMessage)
    else if m.instance.Some? && m.instance != e.instance then Some(BackendRestarted(m.instance.value, e.instance.value))
    else if e.sequence.None? then Some(UnexpectedMessage)
    else if m.lastSequence.Some? && e.sequence.value != Saturate(m.lastSequence.value + 1) then
      Some(SequenceGap(Saturate(m.lastSequence.value + 1), e.sequence.value))
    else None
  }

  /** What an event in order does to the picture. */
  function Shown(m: Model, body: Body): (Model, Option<ViewModelError>) {
    match body
    case StateChanged(current, session) =>
      (m.(state := current,
          active := if current == Idle then None else session,
          level := if current == Recording then m.level else 0.0,
          partial := if current == Recording then "" else m.partial), None)
    case RecordingLevel(sid, level) => (if m.active == Some(sid) then m.(level := Clamp(level)) else m, None)
    case TranscriptPartial(sid, text) => (if m.active == Some(sid) then m.(partial := text) else m, None)
    case TranscriptFinal => (m.(partial := "", level := 0.0), None)
    case SessionFailed(code, message) =>
      (m.(error := if code == "cancelled" then None else Some(message), level := 0.0), None)
    case SettingsChanged(changed) => (m.(stale := changed.Some? && changed.value != m.revision), None)
    case Notice => (m, None)
    case BadPayload(Events) => (m, Some(Payload))
    case _ => (m, Some(UnexpectedMessage))
  }

  /** An event: what is out of order is refused, except that the first event of all
      settles which daemon is listened to. */
  function Applied(m: Model, e: Message): (Model, Option<ViewModelError>) {
    match OutOfOrder(m, e)
    case Some(error) => (if e.kind == Event && m.instance.None? then m.(instance := e.instance) else m, Some(error))
    case None => Shown(m.(instance := e.instance, lastSequence := e.sequence), e.body)
  }

  function SnapshotApplied(m: Model, e: Message): (Model, Option<ViewModelError>) {
    if e.kind != Response || !(e.body.StateGet? || e.body == BadPayload(Snapshots)) then (m, Some(UnexpectedMessage))
    else if e.body.BadPayload? then (m, Some(Payload))
    else
      (m.(lastSequence := if m.instance == e.instance then m.lastSequence else None,
          instance := e.instance, state := e.body.state, active := e.body.active, revision := e.body.revision,
          capabilities := e.body.capabilities, level := 0.0, error := None), None)
  }

  function SettingsApplied(m: Model, e: Message): (Model, Option<ViewModelError>) {
    if e.kind != Response || !(e.body.SettingsGet? || e.body.SettingsReplace? || e.body == BadPayload(AllSettings)) then
      (m, Some(UnexpectedMessage))
    else if e.body.BadPayload? then (m, Some(Payload))
    else (m.(revision := e.body.revision, settings := e.body.settings, stale := false, error := None), None)
  }

  class GuiViewModel {
    var instanceId: Option<InstanceId>
    var lastSequence: Option<nat>
    var state: DictationState
    var activeSessionId: Option<SessionId>
    var settingsRevision: nat
    var settings: string
    var capabilities: seq<string>
    var audioLevel: real
    var partialText: string
    var error: Option<string>
    var settingsStale: bool

    ghost function Value(): Model
      reads this
    {
      Model(instanceId, lastSequence, state, activeSessionId, settingsRevision, settings, capabilities, audioLevel,
            partialText, error, settingsStale)
    }

    constructor ()
      ensures Value() == NEW_MODEL
    {
      instanceId, lastSequence, state, activeSessionId := None, None, DictationState.Starting, None;
      settingsRevision, settings, capabilities, audioLevel := 0, "", [], 0.0;
      partialText, error, settingsStale := "", None, false;
    }

    method ApplySnapshot(envelope: Message) returns (e: Option<ViewModelError>)
      modifies this
      ensures (Value(), e) == SnapshotApplied(old(Value()), envelope)
    {
      if envelope.kind != Response || !(envelope.body.StateGet? || envelope.body == BadPayload(Snapshots)) {
        return Some(UnexpectedMessage);
      }
      if envelope.body.BadPayload? { return Some(Payload); }
      if instanceId != envelope.instance { lastSequence := None; }
      instanceId := envelope.instance;
      state := envelope.body.state;
      activeSessionId := envelope.body.active;
      settingsRevision := envelope.body.revision;
      capabilities := envelope.body.capabilities;
      audioLevel := 0.0;
      error := None;
      e := None;
    }

    method ApplySettings(envelope: Message) returns (e: Option<ViewModelError>)
      modifies this
      ensures (Value(), e) == SettingsApplied(old(Value()), envelope)
    {
      if envelope.kind != Response
        || !(envelope.body.SettingsGet? || envelope.body.SettingsReplace? || envelope.body == BadPayload(AllSettings)) {
        return Some(UnexpectedMessage);
      }
      if envelope.body.BadPayload? { return Some(Payload); }
      settingsRevision := envelope.body.revision;
      settings := envelope.body.settings;
      settingsStale := false;
      error := None;
      e := None;
    }

    method ApplyEvent(envelope: Message) returns (e: Option<ViewModelError>)
      modifies this
      ensures (Value(), e) == Applied(old(Value()), envelope)
    {
      if envelope.kind != Event || envelope.instance.None? { return Some(UnexpectedMessage); }
      if instanceId.Some? {
        if instanceId != envelope.instance {
          return Some(BackendRestarted(instanceId.value, envelope.instance.value));
        }
      } else {
        instanceId := envelope.instance;
      }
      if envelope.sequence.None? { return Some(UnexpectedMessage); }
      if lastSequence.Some? {
        var expected := Saturate(lastSequence.value + 1);
        if envelope.sequence.value != expected { return Some(SequenceGap(expected, envelope.sequence.value)); }
      }
      lastSequence := envelope.sequence;
      e := Show(envelope.body);
    }

    /** The part of `ApplyEvent` for events in order. */
    method Show(body: Body) returns (e: Option<ViewModelError>)
      modifies this
      ensures (Value(), e) == Shown(old(Value()), body)
    {
      e := None;
      match body {
        case StateChanged(current, session) =>
          state := current;
          activeSessionId := if current == Idle then None else session;
          if current != Recording { audioLevel := 0.0; }
          if current == Recording { partialText := ""; }
        case RecordingLevel(sid, level) =>
          if activeSessionId == Some(sid) { audioLevel := Clamp(level); }
        case TranscriptPartial(sid, text) =>
          if activeSessionId == Some(sid) { partialText := text; }
        case TranscriptFinal =>
          partialText := "";
          audioLevel := 0.0;
        case SessionFailed(code, message) =>
          error := if code != "cancelled" then Some(message) else None;
          audioLevel := 0.0;
        case SettingsChanged(changed) =>
          settingsStale := changed.Some? && changed.value != settingsRevision;
        case Notice =>
        case BadPayload(purpose) =>
          e := if purpose == Events then Some(Payload) else Some(UnexpectedMessage);
        case _ =>
          e := Some(UnexpectedMessage);
      }
    }
  }

  // ------------------------------------------------------------------- event order

  /** Who has numbered events has been met. */
  predicate WellFormed(m: Model) { m.lastSequence.Some? ==> m.instance.Some? }

  /** A gap or an event of another daemon changes no field. */
  lemma RefusedChangesNothing(m: Model, e: Message)
    requires WellFormed(m)
    ensures WellFormed(Applied(m, e).0)
    ensures var error := Applied(m, e).1;
            error.Some? && (error.value.BackendRestarted? || error.value.SequenceGap?) ==> Applied(m, e).0 == m
  {}

  /** An event is let through exactly if it comes from the daemon listened to, with
      the number after the last one; the first event settles both. */
  lemma InOrderIff(m: Model, e: Message)
    requires WellFormed(m)
    ensures OutOfOrder(m, e).None? <==>
              && e.kind == Event && e.instance.Some? && e.sequence.Some?
              && m.instance in {None, e.instance}
              && (m.lastSequence.Some? ==> e.sequence.value == Saturate(m.lastSequence.value + 1))
    ensures OutOfOrder(m, e).None? ==>
              Applied(m, e).0.lastSequence == e.sequence && Applied(m, e).0.instance == e.instance
  {}

  // ------------------------------------------------------- what each message does

  /** A message that is no event, or out of order, changes nothing the user sees, and the
      error says why; only a first event without a number settles the daemon. */
  lemma RefusedIs(m: Model, e: Message)
    ensures var (n, error) := Applied(m, e);
            var fromHere := m.instance in {None, e.instance};
            var next := if m.lastSequence.None? then e.sequence
                        else if m.lastSequence.value < U64_MAX then Some(m.lastSequence.value + 1) else Some(U64_MAX);
            if e.kind != Event || e.instance.None? then n == m && error == Some(UnexpectedMessage)
            else if !fromHere then n == m && error == Some(BackendRestarted(m.instance.value, e.instance.value))
            else if e.sequence.None? then n == m.(instance := e.instance) && error == Some(UnexpectedMessage)
            else if e.sequence != next then
              n == m.(instance := e.instance) && error == Some(SequenceGap(next.value, e.sequence.value))
            else n.instance == e.instance && n.lastSequence == e.sequence
  {
    hide Shown;
    ShownKeepsOrder(m.(instance := e.instance, lastSequence := e.sequence), e.body);
  }

  /** What an event that is let through does to the picture; `was` is the picture with
      the number of the event. */
  lemma EventIs(m: Model, e: Message)
    requires OutOfOrder(m, e).None?
    ensures var was := m.(instance := e.instance, lastSequence := e.sequence);
            var (n, error) := Applied(m, e);
            match e.body
            case StateChanged(current, session) =>
              && error == None && n.state == current && n.active == (if current == Idle then None else session)
              && n.level == (if current == Recording then m.level else 0.0)
              && n.partial == (if current == Recording then "" else m.partial)
              && n == was.(state := n.state, active := n.active, level := n.level, partial := n.partial)
            case RecordingLevel(sid, level) =>
              && error == None && n == was.(level := n.level)
              && n.level == (if m.active != Some(sid) then m.level
                             else if level < 0.0 then 0.0 else if level > 1.0 then 1.0 else level)
            case TranscriptPartial(sid, text) =>
              error == None && n == if m.active == Some(sid) then was.(partial := text) else was
            case TranscriptFinal => error == None && n == was.(partial := "", level := 0.0)
            case SessionFailed(code, message) =>
              error == None && n == was.(error := if code == "cancelled" then None else Some(message), level := 0.0)
            case SettingsChanged(changed) =>
              error == None && n == was.(stale := changed.Some? && changed.value != m.revision)
            case Notice => error == None && n == was
            case BadPayload(Events) => error == Some(Payload) && n == was
            case _ => error == Some(UnexpectedMessage) && n == was
  {}

  /** What a snapshot does: the daemon's state as it is, and a number forgotten only if
      the daemon is another. */
  lemma SnapshotIs(m: Model, e: Message)
    ensures var (n, error) := SnapshotApplied(m, e);
            if e.kind == Response && e.body.StateGet? then
              && error == None && n.instance == e.instance && n.state == e.body.state && n.active == e.body.active
              && n.revision == e.body.revision && n.capabilities == e.body.capabilities
              && n.level == 0.0 && n.error == None
              && n.lastSequence == (if m.instance == e.instance then m.lastSequence else None)
              && n.settings == m.settings && n.partial == m.partial && n.stale == m.stale
            else n == m && error == Some(if e.kind == Response && e.body == BadPayload(Snapshots) then Payload
                                         else UnexpectedMessage)
  {}

  lemma SettingsAre(m: Model, e: Message)
    ensures var (n, error) := SettingsApplied(m, e);
            if e.kind == Response && (e.body.SettingsGet? || e.body.SettingsReplace?) then
              && error == None
              && n == m.(revision := e.body.revision, settings := e.body.settings, stale := false, error := None)
            else n == m && error == Some(if e.kind == Response && e.body == BadPayload(AllSettings) then Payload
                                         else UnexpectedMessage)
  {}

  datatype Op = GotEvent(message: Message) | GotState(message: Message) | GotSettings(message: Message)

  /** The model, with the numbers of the events let through since it last changed to
      another daemon. */
  datatype Tracked = Tracked(m: Model, heard: seq<nat>)

  function Track(t: Tracked, op: Op): Tracked {
    match op
    case GotEvent(e) =>
      Tracked(Applied(t.m, e).0, if OutOfOrder(t.m, e).None? then t.heard + [e.sequence.value] else t.heard)
    case GotState(e) =>
      var m := SnapshotApplied(t.m, e).0;
      Tracked(m, if m.instance == t.m.instance then t.heard else [])
    case GotSettings(e) => Tracked(SettingsApplied(t.m, e).0, t.heard)
  }

  function AfterOps(ops: seq<Op>): Tracked
    decreases |ops|
  {
    if ops == [] then Tracked(NEW_MODEL, []) else Track(AfterOps(ops[..|ops| - 1]), ops[|ops| - 1])
  }

  ghost predicate Consecutive(t: Tracked) {
    && WellFormed(t.m)
    && (t.m.lastSequence == if t.heard == [] then None else Some(t.heard[|t.heard| - 1]))
    && forall i :: 0 < i < |t.heard| ==> t.heard[i] == Saturate(t.heard[i - 1] + 1)
  }

  lemma TrackConsecutive(t: Tracked, op: Op)
    requires Consecutive(t)
    ensures Consecutive(Track(t, op))
  {
    hide Shown, Saturate;
    if op.GotEvent? {
      ShownKeepsOrder(t.m.(instance := op.message.instance, lastSequence := op.message.sequence), op.message.body);
    }
  }

  lemma ShownKeepsOrder(m: Model, body: Body)
    ensures Shown(m, body).0.lastSequence == m.lastSequence && Shown(m, body).0.instance == m.instance
  {}

  /** Whatever messages arrive, lost, repeated, reordered or from other daemons, the
      events let through within one daemon's life have consecutive numbers. */
  lemma {:induction false} EventsConsecutive(ops: seq<Op>)
    ensures Consecutive(AfterOps(ops))
    decreases |ops|
  {
    if ops != [] {
      EventsConsecutive(ops[..|ops| - 1]);
      TrackConsecutive(AfterOps(ops[..|ops| - 1]), ops[|ops| - 1]);
    }
  }

  /** Whatever arrives, the level shown is between 0 and 1. */
  lemma {:induction false} LevelInRange(ops: seq<Op>)
    ensures 0.0 <= AfterOps(ops).m.level <= 1.0
    decreases |ops|
  {
    if ops != [] { LevelInRange(ops[..|ops| - 1]); }
  }
}
