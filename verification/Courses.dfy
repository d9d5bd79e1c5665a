/** Requests, text tasks and pipelines that nothing comes between, event by event. */
module Courses {
  import opened Backends
  import opened Handlers
  import opened Integers
  import opened LlmText
  import opened Pipeline
  import opened SessionReports
  import opened Sessions
  import opened StateMachines
  import opened Wrappers

  /** The shared state has broadcast these events, numbered on, and nothing else. */
  predicate Broadcast(b: Backend, c: Backend, events: seq<Event>) {
    && |c.log| == |b.log| + |events| && b.log <= c.log
    && forall i :: 0 <= i < |events| ==>
         c.log[|b.log| + i] == Envelope(Saturate(b.sequence + 1 + i), events[i])
  }

  lemma NumbersGoOn(n: nat, i: nat)
    ensures Saturate(Saturate(n + i) + 1) == Saturate(n + 1 + i)
  {}

  /** Announcing some events adds them to the broadcast, numbered on, and sets the
      machine. */
  lemma {:induction false} SaidIs(b: Backend, events: seq<Event>, m: Machine)
    ensures var c := Said(b, events, m);
            && Broadcast(b, c, events) && c.machine == m && c.recording == b.recording
            && c.sequence == if events == [] then b.sequence else Saturate(b.sequence + |events|)
    decreases |events|
  {
    if events != [] {
      var n := |events| - 1;
      SaidIs(b, events[..n], m);
      NumbersGoOn(b.sequence, n);
      hide Saturate;
    }
  }

  // ------------------------------------------------------------------- requests

  /** A step of task `t` alone. */
  function Next(y: Sys, t: TaskId, i: Input): Sys { Exec(y, Run(t, i)) }

  /** A start that nothing comes between records its session and says so. */
  lemma StartCourse(y: Sys, t: TaskId, i: Input)
    requires t in y.tasks && y.tasks[t] == StartPrepare && y.b.machine.state == Idle
    requires i.ok && i.settingsRead && i.sid !in y.texts
    ensures var z, s := Next(Next(Next(y, t, i), t, i), t, i), i.sid;
            && z.b.machine == Machine(Recording, Some(s)) && z.b.recording == Some(s) && s in z.accepted
            && t in z.tasks && z.tasks[t] == Watching(s) && s in z.texts && z.texts[s] == Running("", false)
            && Broadcast(y.b, z.b, [StateChanged(Moved(Idle, Recording, Some(s), false))])
  {
    hide Pipe, TextStep;
  }

  /** A start whose settings cannot be read, or whose capture cannot be prepared, does
      nothing. */
  lemma StartFails(y: Sys, t: TaskId, i: Input)
    requires t in y.tasks && y.tasks[t] == StartPrepare && !(i.ok && i.settingsRead)
    ensures Next(y, t, i) == y.(tasks := y.tasks[t := Done])
  {
    hide Pipe, TextStep;
  }

  /** A start that comes second stops its own capture, aborts its tasks, and changes
      nothing else. */
  lemma SecondStart(y: Sys, t: TaskId, i: Input, s: SessionId)
    requires t in y.tasks && y.tasks[t] == Committing(s) && y.b.machine.state != Idle
    ensures var z := Next(Next(y, t, i), t, i);
            && z.b == y.b && z.accepted == y.accepted && t in z.tasks && z.tasks[t] == Done
            && StopsOf(z, s) == StopsOf(y, s) + 1 && s in z.texts && z.texts[s] == Broken
  {
    hide Pipe, TextStep, Emitted;
  }

  /** The shortcut starts when idle, stops what is recording, and else does nothing. */
  lemma ShortcutCourse(y: Sys, t: TaskId, i: Input)
    requires t in y.tasks && y.tasks[t] == Toggling && Coherent(y.b.machine)
    ensures Next(y, t, i) == y.(tasks := y.tasks[t :=
              match y.b.machine.state
              case Idle => StartPrepare
              case Recording => StopRequest(y.b.machine.active.value)
              case _ => Done])
  {
    hide Pipe, TextStep;
  }

  /** Session `s` is the one that is recorded. */
  predicate Records(y: Sys, s: SessionId) { y.b.machine == Machine(Recording, Some(s)) && y.b.recording == Some(s) }

  /** The stop has taken the recording, said so, and goes on with the pipeline. */
  predicate StoppedAndSaid(y: Sys, z: Sys, t: TaskId, s: SessionId) {
    && z.b.machine == Machine(Transcribing, Some(s)) && z.b.recording == None
    && t in z.tasks && z.tasks[t] == Piping(s, StopCapture)
    && Broadcast(y.b, z.b, [StateChanged(Moved(Recording, Transcribing, Some(s), false))])
  }

  lemma StopCourse(y: Sys, t: TaskId, i: Input, s: SessionId)
    requires t in y.tasks && y.tasks[t] == StopRequest(s) && Records(y, s) && i.settingsRead
    ensures StoppedAndSaid(y, Next(Next(Next(y, t, i), t, i), t, i), t, s)
  {
    hide Next, Broadcast, Records;
    StopMade(y, t, i, s);
    var moved := Moved(Recording, Transcribing, Some(s), false);
    var x := Next(y, t, i);
    StopSaid(x, t, i, s, moved);
    OneSaid(x.b, StateChanged(moved));
    SameBroadcast(x.b, y.b, Emitted(x.b, StateChanged(moved)), [StateChanged(moved)]);
  }

  lemma StopMade(y: Sys, t: TaskId, i: Input, s: SessionId)
    requires t in y.tasks && y.tasks[t] == StopRequest(s) && Records(y, s)
    ensures var x, moved := Next(y, t, i), Moved(Recording, Transcribing, Some(s), false);
            && t in x.tasks && x.tasks[t] == StopAnnounce(s, Some(s), moved)
            && x.b == y.b.(machine := Machine(Transcribing, Some(s)), recording := None)
  {
    hide Pipe, TextStep, Emitted;
  }

  lemma StopSaid(x: Sys, t: TaskId, i: Input, s: SessionId, moved: Transition)
    requires t in x.tasks && x.tasks[t] == StopAnnounce(s, Some(s), moved) && i.settingsRead
    ensures var z := Next(Next(x, t, i), t, i);
            && t in z.tasks && z.tasks[t] == Piping(s, StopCapture) && z.b == Emitted(x.b, StateChanged(moved))
            && z.b.machine == x.b.machine && z.b.recording == x.b.recording
  {
    hide Pipe, TextStep;
  }

  lemma OneSaid(b: Backend, e: Event)
    ensures Broadcast(b, Emitted(b, e), [e])
  {}

  lemma SilenceCourse(y: Sys, t: TaskId, i: Input, s: SessionId)
    requires t in y.tasks && y.tasks[t] == Watching(s) && Records(y, s) && i.ok
    ensures StoppedAndSaid(y, Next(Next(y, t, i), t, i), t, s)
  {
    hide Pipe, TextStep;
  }

  /** A cancel, of the session or of whatever is recording, stops the capture, aborts
      the session's tasks, and reports the session as cancelled. */
  lemma CancelCourse(y: Sys, t: TaskId, i: Input, target: Option<SessionId>, s: SessionId)
    requires t in y.tasks && y.tasks[t] == CancelRequest(target) && Records(y, s) && target in {None, Some(s)}
    ensures var z := Next(Next(Next(Next(y, t, i), t, i), t, i), t, i);
            && z.b.machine == NEW_MACHINE && z.b.recording == None && t in z.tasks && z.tasks[t] == Done
            && StopsOf(z, s) == StopsOf(y, s) + 1 && s in z.texts && z.texts[s] == Broken
            && Broadcast(y.b, z.b, [StateChanged(Moved(Recording, Idle, Some(s), true)), SessionFailed(s, true)])
  {
    hide Next, Saturate, Broadcast, StopsOf;
    var moved := Moved(Recording, Idle, Some(s), true);
    CancelMade(y, t, i, target, s);
    var x := Next(y, t, i);
    CancelSaid(x, t, i, s, moved);
    TwoSaid(x.b, StateChanged(moved), SessionFailed(s, true));
    SameBroadcast(x.b, y.b, Emitted(Emitted(x.b, StateChanged(moved)), SessionFailed(s, true)),
                  [StateChanged(moved), SessionFailed(s, true)]);
    hide Emitted;
  }

  lemma CancelMade(y: Sys, t: TaskId, i: Input, target: Option<SessionId>, s: SessionId)
    requires t in y.tasks && y.tasks[t] == CancelRequest(target) && Records(y, s) && target in {None, Some(s)}
    ensures var x := Next(y, t, i);
            && t in x.tasks && x.tasks[t] == CancelStop(s, Some(s), Moved(Recording, Idle, Some(s), true))
            && x.b == y.b.(machine := NEW_MACHINE, recording := None) && StopsOf(x, s) == StopsOf(y, s)
  {
    hide Pipe, TextStep, Emitted;
  }

  lemma TwoSaid(b: Backend, e: Event, f: Event)
    ensures Broadcast(b, Emitted(Emitted(b, e), f), [e, f])
  {
    NumbersGoOn(b.sequence, 1);
    hide Saturate;
  }

  lemma SameBroadcast(b: Backend, c: Backend, d: Backend, events: seq<Event>)
    requires Broadcast(b, d, events) && c.log == b.log && c.sequence == b.sequence
    ensures Broadcast(c, d, events)
  {}

  lemma CancelSaid(x: Sys, t: TaskId, i: Input, s: SessionId, moved: Transition)
    requires t in x.tasks && x.tasks[t] == CancelStop(s, Some(s), moved)
    ensures var z := Next(Next(Next(x, t, i), t, i), t, i);
            && z.b.machine == x.b.machine && z.b.recording == x.b.recording && t in z.tasks && z.tasks[t] == Done
            && StopsOf(z, s) == StopsOf(x, s) + 1 && s in z.texts && z.texts[s] == Broken
            && z.b == Emitted(Emitted(x.b, StateChanged(moved)), SessionFailed(s, true))
  {
    hide Pipe, TextStep;
  }

  /** A stop, cancel or silence signal does nothing if its session is not the one that is
      recorded; no more does a cancel of whatever is active when nothing is, nor a watcher
      whose signal never comes. */
  lemma TooLate(y: Sys, t: TaskId, i: Input, s: SessionId)
    requires t in y.tasks
    requires || (y.b.machine != Machine(Recording, Some(s))
                 && y.tasks[t] in {StopRequest(s), CancelRequest(Some(s)), Watching(s)})
             || (y.tasks[t] == CancelRequest(None) && y.b.machine.active == None)
             || (y.tasks[t] == Watching(s) && !i.ok)
    ensures Next(y, t, i) == y.(tasks := y.tasks[t := Done])
  {
    hide Pipe, TextStep;
  }

  // ------------------------------------------------------------------ text tasks

  /** Blank pieces are dropped, the others trimmed, in order. */
  lemma {:induction false} PiecesTogether(xs: seq<string>, ys: seq<string>)
    ensures Pieces(xs + ys) == Pieces(xs) + Pieces(ys)
    decreases |ys|
  {
    if ys == [] {
      assert xs + ys == xs;
    } else {
      assert (xs + ys)[..|xs + ys| - 1] == xs + ys[..|ys| - 1];
      PiecesTogether(xs, ys[..|ys| - 1]);
    }
  }

  lemma OnePiece(text: string)
    ensures Pieces([text]) == if Trim(text) == "" then [] else [Trim(text)]
    ensures Pieces([]) == []
  {
    assert [text][..0] == [];
  }

  predicate NoneEmpty(pieces: seq<string>) { forall i :: 0 <= i < |pieces| ==> pieces[i] != "" }

  lemma {:induction false} JoinedNotEmpty(pieces: seq<string>)
    requires pieces != [] && NoneEmpty(pieces)
    ensures JoinedAll(pieces) != ""
  {}

  /** Pieces are joined by one space. */
  lemma {:induction false} JoinedTogether(xs: seq<string>, ys: seq<string>)
    requires NoneEmpty(xs) && NoneEmpty(ys) && xs != [] && ys != []
    ensures JoinedAll(xs + ys) == JoinedAll(xs) + " " + JoinedAll(ys)
    decreases |ys|
  {
    var front, last := ys[..|ys| - 1], ys[|ys| - 1];
    assert (xs + ys)[..|xs + ys| - 1] == xs + front;
    JoinedNotEmpty(xs);
    if front == [] {
      assert xs + front == xs;
      OneJoined(last);
      assert ys == [last];
    } else {
      JoinedTogether(xs, front);
      JoinedNotEmpty(front);
    }
  }

  lemma OneJoined(piece: string)
    ensures JoinedAll([]) == "" && JoinedAll([piece]) == piece
  {
    assert [piece][..0] == [];
  }

  /** After each piece the text so far is announced. */
  lemma {:induction false} AnnouncementsAre(sid: SessionId, pieces: seq<string>)
    ensures |Announcements(sid, pieces)| == |pieces|
    ensures forall i :: 0 <= i < |pieces| ==> Announcements(sid, pieces)[i] == Partial(sid, JoinedAll(pieces[..i + 1]))
    decreases |pieces|
  {
    hide JoinedAll;
    if pieces != [] {
      var front := pieces[..|pieces| - 1];
      AnnouncementsAre(sid, front);
      assert pieces[..|pieces|] == pieces;
      forall i | 0 <= i < |pieces|
        ensures Announcements(sid, pieces)[i] == Partial(sid, JoinedAll(pieces[..i + 1]))
      {
        if i < |front| { assert front[..i + 1] == pieces[..i + 1]; }
      }
    }
  }

  /** The text task of `sid` receiving these texts and announcing each before the next. */
  function Receiving(y: Sys, sid: SessionId, received: seq<string>): Sys
    decreases |received|
  {
    if received == [] then y
    else
      var before := Receiving(y, sid, received[..|received| - 1]);
      Exec(Exec(before, TextReceive(sid, received[|received| - 1])), TextEmit(sid))
  }

  lemma OneReceived(y: Sys, sid: SessionId, text: string, chunk: string)
    requires sid in y.texts && y.texts[sid] == Running(text, false)
    ensures var z := Exec(Exec(y, TextReceive(sid, chunk)), TextEmit(sid));
            var w := Trim(chunk);
            z == if w == "" then y
                 else y.(texts := y.texts[sid := Running(Joined(text, w), false)],
                         b := Emitted(y.b, Partial(sid, Joined(text, w))))
  {
    hide Trim, Emitted, Joined;
    var x := Exec(y, TextReceive(sid, chunk));
    if Trim(chunk) == "" {
      assert x == y;
    } else {
      assert x.texts[sid := Running(Joined(text, Trim(chunk)), false)]
          == y.texts[sid := Running(Joined(text, Trim(chunk)), false)];
    }
  }

  /** The text task that nothing comes between does what the loop does: it ends with the
      pieces joined, having announced each longer text once. */
  lemma {:induction false} TextCourse(y: Sys, sid: SessionId, received: seq<string>)
    requires sid in y.texts && y.texts[sid] == Running("", false)
    ensures var z, pieces := Receiving(y, sid, received), Pieces(received);
            z == y.(texts := y.texts[sid := Running(JoinedAll(pieces), false)],
                    b := Said(y.b, Announcements(sid, pieces), y.b.machine))
    decreases |received|
  {
    hide Exec, Said, Pieces, JoinedAll, Announcements, Trim, Joined, Emitted;
    Nothing(sid);
    if received == [] {
      NothingSaid(y.b);
      assert y.texts == y.texts[sid := Running("", false)];
    } else {
      var n := |received| - 1;
      TextCourse(y, sid, received[..n]);
      var pieces := Pieces(received[..n]);
      OneReceived(Receiving(y, sid, received[..n]), sid, JoinedAll(pieces), received[n]);
      assert received[..n] + [received[n]] == received;
      ReceivedMore(received[..n], received[n], sid);
      SaidMore(y.b, Announcements(sid, pieces), y.b.machine, Partial(sid, JoinedAll(Pieces(received))));
    }
  }

  lemma NothingSaid(b: Backend)
    ensures Said(b, [], b.machine) == b
  {}

  /** When recognition is over the text is complete; an aborted task has none. */
  lemma TextEnds(y: Sys, sid: SessionId, text: string)
    requires sid in y.texts && y.texts[sid] == Running(text, false)
    ensures Exec(y, TextEnd(sid)) == y.(texts := y.texts[sid := Finished(text)])
    ensures Exec(y, TextBreak(sid)) == y.(texts := y.texts[sid := Broken])
  {
    hide Trim, Joined, Emitted;
  }

  // ------------------------------------------------------------------- pipelines

  /** The events of a session whose text is complete, told from what it was given. */
  lemma PipelineCourse(b: Backend, sid: SessionId, text: string, given: Job, alnum: AlphaNum, historyTaken: bool)
    returns (events: seq<Event>, final: Event)
    ensures var g := given.(raw := text);
            var o, s := Decide(g, alnum), g.settings;
            var blank := Trim(if s.removeFillers then g.withoutFillers else g.raw) == "";
            var processed := !blank && (s.rewriteEnabled || (s.postEnabled && g.hasProcessor));
            var next := if processed then PostProcessing
                        else if !blank && s.mode != NoOutput then Injecting else Idle;
            && Quotes(final, sid, g, alnum)
            && events ==
                 [StateChanged(Moved(Transcribing, next, Some(sid), next == Idle))]
                 + (if processed then
                      [StateChanged(Moved(PostProcessing, if o.inject then Injecting else Idle, Some(sid), !o.inject))]
                    else [])
                 + (if o.inject then [StateChanged(Moved(Injecting, Idle, Some(sid), true))] else [])
                 + (if s.historyEnabled && o.output != "" && historyTaken then [HistoryAdded(sid)] else [])
                 + [final]
    ensures var c := PipelineEffect(b, sid, true, Some(text), given, alnum, historyTaken);
            Broadcast(b, c, events) && c.machine == NEW_MACHINE && c.recording == b.recording
  {
    var g := given.(raw := text);
    var o := Decide(g, alnum);
    PlanIs(g);
    FinalQuotes(sid, g, alnum);
    hide Decide, Trim, FinalEvent, Job.Planned, Quotes, Said;
    final := FinalEvent(sid, g, o);
    events := [Completed(sid, g)] + OutputCourse(sid, g, o, Recorded(g, o, historyTaken));
    SaidIs(b, events, NEW_MACHINE);
    hide Broadcast;
  }

  /** A failing session goes through Error to Idle if it has the machine; another only
      says that it failed, and clears an Error it finds. */
  lemma FailureIs(sid: SessionId, m: Machine)
    requires Coherent(m)
    ensures var failed, recovered := SessionFailed(sid, false), StateChanged(Moved(Error, Idle, None, false));
            FailureCourse(sid, m) ==
              if m.active == Some(sid) && m.state != Error then
                ([StateChanged(Moved(m.state, Error, Some(sid), true)), failed, recovered], NEW_MACHINE)
              else if m.state == Error then ([failed, recovered], NEW_MACHINE)
              else ([failed], m)
  {}

  /** The events of a session that does not end well. */
  lemma FailedCourse(
      b: Backend, sid: SessionId, ok: bool, text: Option<string>, given: Job, alnum: AlphaNum, taken: bool)
    requires b.machine == Machine(Transcribing, Some(sid)) && (!ok || text == None)
    ensures var c := PipelineEffect(b, sid, ok, text, given, alnum, taken);
            && Broadcast(b, c, [StateChanged(Moved(Transcribing, Error, Some(sid), true)), SessionFailed(sid, false),
                                StateChanged(Moved(Error, Idle, None, false))])
            && c.machine == NEW_MACHINE && c.recording == b.recording
  {
    hide Said, Broadcast;
    SaidIs(b, FailureCourse(sid, b.machine).0, NEW_MACHINE);
  }
}
