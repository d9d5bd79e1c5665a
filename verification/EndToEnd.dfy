/** The daemon's broadcast as a client sees it. */
module EndToEnd {
  import B = Backends
  import C = Controllers
  import V = ViewModels
  import SessionInvariant
  import SessionSteps
  import Sessions
  import StateMachines
  import SessionTheorems
  import opened LlmText
  import opened Integers
  import opened Wrappers

  /** A broadcast event as the message a client receives; `level` is what the meter
      shows. */
  function Sent(envelope: B.Envelope, daemon: V.InstanceId, level: real): V.Message {
    var body := match envelope.event
      case StateChanged(moved) => V.StateChanged(moved.current, moved.session)
      case Partial(sid, text) => V.TranscriptPartial(sid, text)
      case Level(sid) => V.RecordingLevel(sid, level)
      case Final(_, _, _, _, _, _) => V.TranscriptFinal
      case SessionFailed(_, cancelled) => V.SessionFailed(if cancelled then "cancelled" else "pipeline_failed", "")
      case HistoryAdded(_) => V.Notice
      case OtherEvent => V.Notice;
    V.Message(V.Event, Some(daemon), Some(envelope.sequence), body)
  }

  /** The client's picture after the events up to the `hi`-th, if it has seen all from
      the `lo`-th on. */
  function Watched(m: V.Model, log: seq<B.Envelope>, daemon: V.InstanceId, level: real, lo: nat, hi: nat): V.Model
    requires lo <= hi <= |log|
    decreases hi
  {
    if lo == hi then m else V.Applied(Watched(m, log, daemon, level, lo, hi - 1), Sent(log[hi - 1], daemon, level)).0
  }

  lemma SentAccepted(m: V.Model, envelope: B.Envelope, daemon: V.InstanceId, level: real)
    requires m.instance == Some(daemon)
    requires m.lastSequence.Some? ==> envelope.sequence == Saturate(m.lastSequence.value + 1)
    ensures var (n, error) := V.Applied(m, Sent(envelope, daemon, level));
            error == None && n.instance == Some(daemon) && n.lastSequence == Some(envelope.sequence)
  {
    hide Saturate;
  }

  /** What the user sees of each event that is accepted. */
  lemma SentShows(m: V.Model, envelope: B.Envelope, daemon: V.InstanceId, level: real)
    requires V.Applied(m, Sent(envelope, daemon, level)).1.None?
    ensures var n := V.Applied(m, Sent(envelope, daemon, level)).0;
            match envelope.event
            case StateChanged(moved) =>
              && n.state == moved.current && n.error == m.error
              && n.active == if moved.current == StateMachines.Idle then None else moved.session
            case Partial(sid, text) =>
              n.partial == (if m.active == Some(sid) then text else m.partial) && n.level == m.level
            case Level(sid) =>
              n.partial == m.partial && (m.active == Some(sid) && 0.0 <= level <= 1.0 ==> n.level == level)
            case Final(_, _, _, _, _, _) => n.partial == "" && n.level == 0.0 && n.error == m.error
            case SessionFailed(_, cancelled) => (n.error.None? <==> cancelled) && n.level == 0.0
            case _ => n.partial == m.partial && n.level == m.level && n.error == m.error
  {}

  lemma {:induction false} StreamAccepted(
      log: seq<B.Envelope>, sequence: nat, m: V.Model, daemon: V.InstanceId, level: real, lo: nat, hi: nat)
    requires lo < hi <= |log| && SessionInvariant.Numbered(sequence, log)
    requires m.instance == Some(daemon) && m.lastSequence == None
    ensures var before, after := Watched(m, log, daemon, level, lo, hi - 1), Watched(m, log, daemon, level, lo, hi);
            && V.Applied(before, Sent(log[hi - 1], daemon, level)).1 == None
            && after.instance == Some(daemon) && after.lastSequence == Some(Saturate(hi))
    decreases hi
  {
    assert log[hi - 1].sequence == Saturate(hi);
    hide V.Applied, Saturate, SessionInvariant.Numbered, Sent;
    if hi - 1 > lo { StreamAccepted(log, sequence, m, daemon, level, lo, hi - 1); }
    Successor(hi);
    SentAccepted(Watched(m, log, daemon, level, lo, hi - 1), log[hi - 1], daemon, level);
  }

  /** A client that has taken a snapshot of the daemon and misses no event from then on
      has each of them accepted, in every run of the daemon: it never falls back. */
  lemma WholeStreamAccepted(y: Sessions.Sys, m: V.Model, daemon: V.InstanceId, level: real, lo: nat, hi: nat)
    requires SessionSteps.Reachable(y) && lo < hi <= |y.b.log|
    requires m.instance == Some(daemon) && m.lastSequence == None
    ensures V.Applied(Watched(m, y.b.log, daemon, level, lo, hi - 1), Sent(y.b.log[hi - 1], daemon, level)).1 == None
  {
    SessionSteps.ReachableOk(y);
    assert SessionInvariant.Numbered(y.b.sequence, y.b.log);
    hide *;
    StreamAccepted(y.b.log, y.b.sequence, m, daemon, level, lo, hi);
  }

  /** Also where numbers stop growing, each is the next of the one before. */
  lemma Successor(n: nat)
    requires n > 0
    ensures Saturate(Saturate(n - 1) + 1) == Saturate(n)
  {}

  // -------------------------------------------------------------- missed events

  /** The client receives the events of the broadcast at the increasing places `idx`,
      one in each round; whatever state it is answered is that of the same daemon. */
  predicate Delivered(log: seq<B.Envelope>, daemon: V.InstanceId, level: real, idx: seq<nat>, rounds: seq<C.Round>) {
    && |idx| == |rounds|
    && (forall k :: 0 < k < |idx| ==> idx[k - 1] < idx[k])
    && forall k :: 0 <= k < |idx| ==> RoundOf(log, daemon, level, idx[k], rounds[k])
  }

  predicate RoundOf(log: seq<B.Envelope>, daemon: V.InstanceId, level: real, i: nat, r: C.Round) {
    && i < |log| && r.event == Some(Sent(log[i], daemon, level))
    && (r.stateGet.Some? ==> r.stateGet.value.instance == Some(daemon))
  }

  /** The client's picture before round `k`. */
  function Before(m: V.Model, rounds: seq<C.Round>, k: nat): V.Model
    requires k <= |rounds|
  {
    C.AfterRounds(m, rounds[..k])
  }

  predicate Accepts(m: V.Model, r: C.Round) { r.event.Some? && V.Applied(m, r.event.value).1.None? }

  /** Up to the `k`-th, the events received follow one another in the broadcast. */
  predicate InStep(idx: seq<nat>, k: nat)
    requires k < |idx|
  {
    forall j :: 0 < j <= k ==> idx[j] == idx[j - 1] + 1
  }

  lemma BeforeNext(m: V.Model, rounds: seq<C.Round>, k: nat)
    requires k < |rounds|
    ensures Before(m, rounds, k + 1) == C.Stepped(Before(m, rounds, k), rounds[k]).0
  {
    hide C.Stepped;
    assert rounds[..k + 1][..k] == rounds[..k];
  }

  /** One round of a client that listens to the daemon. */
  lemma OneRound(m: V.Model, envelope: B.Envelope, daemon: V.InstanceId, level: real, r: C.Round)
    requires m.instance == Some(daemon) && r.event == Some(Sent(envelope, daemon, level))
    requires r.stateGet.Some? ==> r.stateGet.value.instance == Some(daemon)
    ensures var next := m.lastSequence.None? || envelope.sequence == Saturate(m.lastSequence.value + 1);
            && (Accepts(m, r) <==> next)
            && C.Stepped(m, r).0.instance == Some(daemon)
            && C.Stepped(m, r).0.lastSequence == if next then Some(envelope.sequence) else m.lastSequence
  {
    var e := Sent(envelope, daemon, level);
    V.InOrderIff(m, e);
    hide Saturate;
    if V.OutOfOrder(m, e).None? { SentAccepted(m, envelope, daemon, level); }
    hide V.Shown, Sent;
  }

  /** After round `k` the client is where the broadcast is, or behind it for good. */
  predicate Placed(m: V.Model, daemon: V.InstanceId, idx: seq<nat>, k: nat)
    requires k < |idx|
  {
    && m.instance == Some(daemon) && m.lastSequence.Some?
    && if InStep(idx, k) then m.lastSequence.value == idx[k] + 1 else m.lastSequence.value <= idx[k]
  }

  lemma InStepNext(idx: seq<nat>, k: nat)
    requires 0 < k < |idx|
    ensures InStep(idx, k) <==> InStep(idx, k - 1) && idx[k] == idx[k - 1] + 1
  {}

  lemma RoundPlaces(
      m: V.Model, log: seq<B.Envelope>, sequence: nat, daemon: V.InstanceId, level: real, idx: seq<nat>, k: nat,
      r: C.Round)
    requires SessionInvariant.Numbered(sequence, log) && |log| <= U64_MAX
    requires k < |idx| && RoundOf(log, daemon, level, idx[k], r)
    requires if k == 0 then m.instance == Some(daemon) && m.lastSequence.None?
             else idx[k - 1] < idx[k] && Placed(m, daemon, idx, k - 1)
    ensures Accepts(m, r) <==> InStep(idx, k)
    ensures Placed(C.Stepped(m, r).0, daemon, idx, k)
  {
    assert log[idx[k]].sequence == idx[k] + 1;
    OneRound(m, log[idx[k]], daemon, level, r);
    if k > 0 { InStepNext(idx, k); }
    hide Accepts, C.Stepped, Sent;
  }

  lemma {:induction false} RoundsPlace(
      m: V.Model, log: seq<B.Envelope>, sequence: nat, daemon: V.InstanceId, level: real, idx: seq<nat>,
      rounds: seq<C.Round>, k: nat)
    requires SessionInvariant.Numbered(sequence, log) && |log| <= U64_MAX
    requires Delivered(log, daemon, level, idx, rounds) && k < |idx|
    requires m.instance == Some(daemon) && m.lastSequence == None
    ensures Accepts(Before(m, rounds, k), rounds[k]) <==> InStep(idx, k)
    ensures Placed(Before(m, rounds, k + 1), daemon, idx, k)
  {
    assert Before(m, rounds, 0) == m;
    hide Accepts, Placed, InStep, RoundOf, C.Stepped, SessionInvariant.Numbered;
    if k > 0 { RoundsPlace(m, log, sequence, daemon, level, idx, rounds, k - 1); }
    BeforeNext(m, rounds, k);
    hide Before;
    assert RoundOf(log, daemon, level, idx[k], rounds[k]);
    RoundPlaces(Before(m, rounds, k), log, sequence, daemon, level, idx, k, rounds[k]);
  }

  /** A client that has taken a snapshot accepts an event exactly if it has missed none
      since the first it received: after one missed event, fetching the state from the
      same daemon as often as it likes, it accepts no further event of that daemon. */
  lemma AcceptedIffNoneMissed(
      y: Sessions.Sys, m: V.Model, daemon: V.InstanceId, level: real, idx: seq<nat>, rounds: seq<C.Round>, k: nat)
    requires SessionSteps.Reachable(y) && |y.b.log| <= U64_MAX
    requires m.instance == Some(daemon) && m.lastSequence == None
    requires Delivered(y.b.log, daemon, level, idx, rounds) && k < |idx|
    ensures Accepts(Before(m, rounds, k), rounds[k]) <==> InStep(idx, k)
  {
    SessionSteps.ReachableOk(y);
    assert SessionInvariant.Numbered(y.b.sequence, y.b.log);
    hide *;
    RoundsPlace(m, y.b.log, y.b.sequence, daemon, level, idx, rounds, k);
  }

  /** Events of a fresh daemon that say nothing of a session. */
  function Notices(alnum: AlphaNum): Sessions.Sys {
    Sessions.After(alnum, [Sessions.OtherEmit, Sessions.OtherEmit, Sessions.OtherEmit])
  }

  lemma ThreeNotices(alnum: AlphaNum)
    ensures |Notices(alnum).b.log| == 3 && SessionSteps.Reachable(Notices(alnum))
  {
    var e := Sessions.OtherEmit;
    var init := Sessions.After(alnum, []);
    SessionTheorems.OneMore(alnum, [], e);
    SessionTheorems.OneMore(alnum, [e], e);
    SessionTheorems.OneMore(alnum, [e, e], e);
    assert [e, e] + [e] == [e, e, e] && [e] + [e] == [e, e] && [] + [e] == [e];
    SessionSteps.RunsReach(alnum, [e, e, e]);
    hide Sessions.After, SessionSteps.Reachable, Saturate;
  }

  /** An event can be missed, and the next one is then refused, whatever client it is and
      whatever it is answered. */
  lemma RefusalHappens(alnum: AlphaNum, m: V.Model, daemon: V.InstanceId, level: real, answers: seq<Option<V.Message>>)
    requires m.instance == Some(daemon) && m.lastSequence == None && |answers| == 4
    requires forall a :: a in answers && a.Some? ==> a.value.instance == Some(daemon)
    ensures var y, idx := Notices(alnum), [0, 2];
            && |y.b.log| == 3 && SessionSteps.Reachable(y)
            && var rounds := [C.Round(Some(Sent(y.b.log[0], daemon, level)), answers[0], answers[1]),
                              C.Round(Some(Sent(y.b.log[2], daemon, level)), answers[2], answers[3])];
               Delivered(y.b.log, daemon, level, idx, rounds) && !Accepts(Before(m, rounds, 1), rounds[1])
  {
    ThreeNotices(alnum);
    var y, idx := Notices(alnum), [0, 2];
    var rounds := [C.Round(Some(Sent(y.b.log[0], daemon, level)), answers[0], answers[1]),
                   C.Round(Some(Sent(y.b.log[2], daemon, level)), answers[2], answers[3])];
    assert idx[1] != idx[0] + 1;
    hide Notices, SessionSteps.Reachable, Sent, Accepts, Before;
    AcceptedIffNoneMissed(y, m, daemon, level, idx, rounds, 1);
  }
}
