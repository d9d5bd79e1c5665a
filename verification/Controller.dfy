/** The desktop client: how it recovers from missed events, and its record button. */
module Controllers {
  import opened Integers
  import opened StateMachines
  import opened ViewModels
  import opened Wrappers

  datatype ControllerError = ClientFailed | ModelRefused(error: ViewModelError) | StateMoved

  /** One round of the event loop: the event received and what the daemon answers if
      it is asked for its state and settings; nothing when the transport fails. */
  datatype Round = Round(event: Option<Message>, stateGet: Option<Message>, settingsGet: Option<Message>)

  function Refetched(m: Model, r: Round): (Model, Option<ControllerError>) {
    if r.stateGet.None? then (m, Some(ClientFailed))
    else
      match SnapshotApplied(m, r.stateGet.value)
      case (n, Some(e)) => (n, Some(ModelRefused(e)))
      case (n, None) =>
        if r.settingsGet.None? then (n, Some(ClientFailed))
        else
          match SettingsApplied(n, r.settingsGet.value)
          case (o, Some(e)) => (o, Some(ModelRefused(e)))
          case (o, None) => (o, None)
  }

  function Stepped(m: Model, r: Round): (Model, Option<ControllerError>) {
    if r.event.None? then (m, Some(ClientFailed))
    else
      match Applied(m, r.event.value)
      case (n, None) => (n, None)
      case (n, Some(e)) => if e.BackendRestarted? || e.SequenceGap? then Refetched(n, r) else (n, Some(ModelRefused(e)))
  }

  datatype Command = StartRecording | StopRecording(sid: SessionId)

  class GuiController {
    const model: GuiViewModel

    constructor ()
      ensures fresh(model) && model.Value() == NEW_MODEL
    {
      model := new GuiViewModel();
    }

    /** Takes the next event; when events were missed, fetches state and settings anew. */
    method NextEvent(r: Round) returns (e: Option<ControllerError>)
      modifies model
      ensures (model.Value(), e) == Stepped(old(model.Value()), r)
    {
      hide Applied, SnapshotApplied, SettingsApplied;
      if r.event.None? { return Some(ClientFailed); }
      var refused := model.ApplyEvent(r.event.value);
      if refused.None? { return None; }
      if !(refused.value.BackendRestarted? || refused.value.SequenceGap?) { return Some(ModelRefused(refused.value)); }
      if r.stateGet.None? { return Some(ClientFailed); }
      var noState := model.ApplySnapshot(r.stateGet.value);
      if noState.Some? { return Some(ModelRefused(noState.value)); }
      if r.settingsGet.None? { return Some(ClientFailed); }
      var noSettings := model.ApplySettings(r.settingsGet.value);
      if noSettings.Some? { return Some(ModelRefused(noSettings.value)); }
      e := None;
    }

    /** The record button: asks for what the picture shows to be possible; `started` is
        the answer to a start. */
    method StartOrStop(started: Option<(SessionId, DictationState)>, stopped: bool)
      returns (sent: Option<Command>, e: Option<ControllerError>)
      modifies model
      ensures var was := old(model.Value());
              && sent == (if was.state == Idle then Some(StartRecording)
                          else if was.state == Recording && was.active.Some? then Some(StopRecording(was.active.value))
                          else None)
              && model.Value() == (if was.state == Idle && started.Some?
                                   then was.(active := Some(started.value.0), state := started.value.1) else was)
              && (e.None? <==>
                    (was.state == Idle && started.Some?) || (sent.Some? && sent.value.StopRecording? && stopped))
              && (e == Some(StateMoved) <==> sent.None?)
    {
      if model.state == Idle {
        sent := Some(StartRecording);
        if started.None? { return sent, Some(ClientFailed); }
        model.activeSessionId := Some(started.value.0);
        model.state := started.value.1;
        e := None;
      } else if model.state == Recording && model.activeSessionId.Some? {
        sent := Some(StopRecording(model.activeSessionId.value));
        e := if stopped then None else Some(ClientFailed);
      } else {
        sent, e := None, Some(StateMoved);
      }
    }
  }

  // ------------------------------------------------------------------------- laws

  /** A successful round has applied the next event, or has left the picture equal to
      freshly fetched answers. */
  lemma RoundOutcome(m: Model, r: Round)
    requires WellFormed(m) && Stepped(m, r).1.None?
    ensures var n := Stepped(m, r).0;
            || (r.event.Some? && OutOfOrder(m, r.event.value).None? && n == Applied(m, r.event.value).0
                && n.lastSequence == r.event.value.sequence)
            || (r.stateGet.Some? && r.settingsGet.Some?
                && r.stateGet.value.body.StateGet? && n.instance == r.stateGet.value.instance
                && n.state == r.stateGet.value.body.state && n.active == r.stateGet.value.body.active
                && n.settings == r.settingsGet.value.body.settings && n.revision == r.settingsGet.value.body.revision
                && !n.stale && n.error == None)
  {
    var e := r.event.value;
    RefusedChangesNothing(m, e);
    hide Saturate;
    if OutOfOrder(m, e).None? {
      ShownKeepsOrder(m.(instance := e.instance, lastSequence := e.sequence), e.body);
      ShownErrors(m.(instance := e.instance, lastSequence := e.sequence), e.body);
    }
    hide Shown;
  }

  /** What a round that fails reports: the transport, if a message that was needed did
      not come, or what the picture refused; events are needed first, then the state, then
      the settings. */
  lemma RoundFails(m: Model, r: Round)
    ensures var error := Stepped(m, r).1;
            var refused := if r.event.Some? then Applied(m, r.event.value).1 else None;
            var refetches := refused.Some? && (refused.value.BackendRestarted? || refused.value.SequenceGap?);
            var n := if r.event.Some? then Applied(m, r.event.value).0 else m;
            if r.event.None? then error == Some(ClientFailed) && Stepped(m, r).0 == m
            else if !refetches then
              error == (if refused.None? then None else Some(ModelRefused(refused.value))) && Stepped(m, r).0 == n
            else if r.stateGet.None? then error == Some(ClientFailed) && Stepped(m, r).0 == n
            else
              var (o, noState) := SnapshotApplied(n, r.stateGet.value);
              if noState.Some? then error == Some(ModelRefused(noState.value)) && Stepped(m, r).0 == o
              else if r.settingsGet.None? then error == Some(ClientFailed) && Stepped(m, r).0 == o
              else
                var (p, noSettings) := SettingsApplied(o, r.settingsGet.value);
                && Stepped(m, r).0 == p
                && error == if noSettings.None? then None else Some(ModelRefused(noSettings.value))
  {
    hide Applied, SnapshotApplied, SettingsApplied;
  }

  lemma ShownErrors(m: Model, body: Body)
    ensures Shown(m, body).1 in {None, Some(Payload), Some(UnexpectedMessage)}
  {}

  function AfterRounds(m: Model, rounds: seq<Round>): Model
    decreases |rounds|
  {
    if rounds == [] then m else Stepped(AfterRounds(m, rounds[..|rounds| - 1]), rounds[|rounds| - 1]).0
  }

  /** What a round leaves as the last number: that of its event if it was the next
      one; otherwise only a snapshot of another daemon makes the client forget where
      it was. */
  lemma LastNumberAfter(m: Model, r: Round)
    requires m.instance.Some? && m.lastSequence.Some?
    requires r.event.Some? && r.event.value.kind == Event
    requires r.event.value.instance.Some? && r.event.value.sequence.Some?
    ensures var e := r.event.value;
            Stepped(m, r).0.lastSequence ==
              if e.instance == m.instance && e.sequence.value == Saturate(m.lastSequence.value + 1) then e.sequence
              else if r.stateGet.Some? && SnapshotApplied(m, r.stateGet.value).1.None?
                && r.stateGet.value.instance != m.instance
              then None
              else m.lastSequence
  {
    hide Saturate;
    var e := r.event.value;
    ShownKeepsOrder(m.(instance := e.instance, lastSequence := e.sequence), e.body);
    ShownErrors(m.(instance := e.instance, lastSequence := e.sequence), e.body);
    hide Shown;
  }
}
