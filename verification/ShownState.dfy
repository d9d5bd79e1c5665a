/** What a client shows, compared with the daemon's machine. A transition is made in one
    use of the lock and announced in another, so tasks can announce out of order. */
module ShownState {
  import B = Backends
  import V = ViewModels
  import opened Broadcasts
  import opened EndToEnd
  import opened LlmText
  import opened Pipeline
  import opened SessionInvariant
  import opened SessionReports
  import opened SessionSteps
  import opened SessionTheorems
  import opened Sessions
  import opened StateMachines
  import opened Wrappers

  /** The machine a transition leads to. */
  function Target(moved: Transition): Machine {
    Machine(moved.current, if moved.current == Idle then None else moved.session)
  }

  /** The transition the task has made and not announced yet. */
  function Unsaid(pc: Pc): Option<Transition> {
    match pc
    case StartAnnounce(_, moved) => Some(moved)
    case StopAnnounce(_, _, moved) => Some(moved)
    case CancelStop(_, _, moved) => Some(moved)
    case CancelAnnounce(_, moved) => Some(moved)
    case AutoAnnounce(_, moved) => Some(moved)
    case Piping(_, stage) =>
      (match stage
       case Announce(_, moved) => Some(moved)
       case PostAnnounce(_, _, moved) => Some(moved)
       case InjectAnnounce(_, _, moved) => Some(moved)
       case FailAnnounce(moved) => Some(moved)
       case RecoverAnnounce(moved) => Some(moved)
       case _ => None)
    case _ => None
  }

  /** The transition a step announces. */
  function Says(y: Sys, step: Step): Option<Transition> {
    var e := Emission(y, step);
    if e.Some? && e.value.StateChanged? then Some(e.value.moved) else None
  }

  // ----------------------------------------------------------- one step

  /** What a step adds to the broadcast: the announcement, or nothing about the machine. */
  predicate Adds(b: B.Backend, c: B.Backend, said: Option<Transition>) {
    && b.log <= c.log && |c.log| <= |b.log| + 1
    && match said
       case Some(moved) => |c.log| == |b.log| + 1 && c.log[|b.log|].event == B.StateChanged(moved)
       case None => |c.log| == |b.log| || !c.log[|b.log|].event.StateChanged?
  }

  lemma StepAdds(y: Sys, step: Step)
    ensures Adds(y.b, Exec(y, step).b, Says(y, step))
  {
    LogGrows(y, step);
    hide Exec, Emission;
  }

  /** Task `t` has still to announce the state the machine is in. */
  predicate Waits(y: Sys, t: TaskId) {
    t in y.tasks && Unsaid(y.tasks[t]).Some? && Target(Unsaid(y.tasks[t]).value) == y.b.machine
  }

  lemma ApplyTarget(m: Machine, a: Action)
    requires Coherent(m) && !a.Shutdown?
    ensures Apply(m, a).Ok? ==> Target(Apply(m, a).value.1) == Apply(m, a).value.0
  {}

  /** Task `t` has announced or kept what it had to; what it has to announce now is the
      state of the machine, and if it has moved the machine, it has that to announce. */
  predicate Owes(y: Sys, z: Sys, t: TaskId) {
    && (z.b.machine == y.b.machine || Waits(z, t))
    && (t in z.tasks && Unsaid(z.tasks[t]).Some? ==> Waits(z, t))
  }

  lemma PipeOwes(y: Sys, t: TaskId, s: SessionId, stage: Stage, i: Input)
    requires Coherent(y.b.machine) && t in y.tasks && y.tasks[t] == Piping(s, stage)
    ensures Owes(y, Pipe(y, t, s, stage, i), t)
    ensures Unsaid(Piping(s, stage)).Some? ==> Pipe(y, t, s, stage, i).b.machine == y.b.machine
  {
    if ActionAt(s, stage).Some? && Apply(y.b.machine, ActionAt(s, stage).value).Ok? {
      ApplyTarget(y.b.machine, ActionAt(s, stage).value);
      PipeAccepted(y, t, s, stage, i);
      hide Pipe, Apply, Target, Decide, Job.Planned, Coherent;
    } else {
      PipeStays(y, t, s, stage, i);
      hide Pipe, Apply, Target, Coherent;
    }
  }

  lemma PipeStays(y: Sys, t: TaskId, s: SessionId, stage: Stage, i: Input)
    requires t in y.tasks && y.tasks[t] == Piping(s, stage)
    requires ActionAt(s, stage).None? || Apply(y.b.machine, ActionAt(s, stage).value).Err?
    ensures var z := Pipe(y, t, s, stage, i);
            z.b.machine == y.b.machine && t in z.tasks && Unsaid(z.tasks[t]).None?
  {
    EmittedMachine(y.b);
    hide B.Emitted, Apply, Decide, FinalEvent, Job.Planned, Job.WantsOutput, Job.WantsTextProcessing;
  }

  /** Each use of the lock by a handler returns the transition it has made. */
  predicate Returns(b: B.Backend, c: B.Backend, moved: Option<Transition>) {
    match moved
    case Some(t) => Target(t) == c.machine
    case None => c.machine == b.machine
  }

  lemma StartReturns(b: B.Backend, s: SessionId)
    requires Coherent(b.machine)
    ensures var (c, r) := B.Started(b, s);
            Returns(b, c, if r.Ok? then Some(r.value) else None)
  {
    ApplyTarget(b.machine, Start(s));
    hide Apply, Coherent, Target;
  }

  lemma TakeReturns(b: B.Backend, a: Action)
    requires Coherent(b.machine) && (a.Stop? || a.Cancel?)
    ensures var (c, r) := B.TakenBy(b, a);
            && Returns(b, c, if r.Ok? then Some(r.value.moved) else None)
            && (r.Ok? ==> r.value.recording == b.recording && r.value.moved.session == Some(a.sid))
  {
    ApplyTarget(b.machine, a);
    hide Coherent, Target;
  }

  lemma CancelReturns(b: B.Backend, target: Option<SessionId>)
    requires Coherent(b.machine)
    ensures var (c, r) := B.Cancelled(b, target);
            && Returns(b, c, if r.Ok? then Some(r.value.moved) else None)
            && (r.Ok? ==> r.value.moved.session.Some?)
  {
    var named := if target.Some? then target else b.machine.active;
    if named.Some? { TakeReturns(b, Cancel(named.value)); }
    hide B.TakenBy, Coherent, Target;
  }

  lemma AutoReturns(b: B.Backend, s: SessionId)
    requires Coherent(b.machine) && b.recording == if b.machine.state == Recording then b.machine.active else None
    ensures var (c, r) := B.AutoStopped(b, s);
            && Returns(b, c, if r.Some? then Some(r.value.moved) else None)
            && (r.Some? ==> r.value.recording.Some?)
  {
    TakeReturns(b, Stop(s));
    hide B.TakenBy, Coherent, Target;
  }

  predicate Commits(pc: Pc) { pc.Committing? || pc.StopRequest? || pc.CancelRequest? || pc.Watching? }

  lemma HandlerStays(y: Sys, t: TaskId, pc: Pc, i: Input)
    requires !pc.Piping? && !Commits(pc) && t in y.tasks && y.tasks[t] == pc
    ensures var z := Advance(y, t, pc, i);
            && z.b.machine == y.b.machine && t in z.tasks
            && Unsaid(z.tasks[t]) == if pc.CancelStop? then Some(pc.moved) else None
  {
    EmittedMachine(y.b);
    hide B.Emitted, Pipe, B.Started, B.TakenBy, B.Cancelled, B.AutoStopped;
  }

  lemma CommitOwes(y: Sys, t: TaskId, s: SessionId, i: Input)
    requires BackendOk(y)
    ensures Owes(y, Advance(y, t, Committing(s), i), t)
  {
    StartReturns(y.b, s);
    hide BackendOk, B.Started, Target;
  }

  lemma StopOwes(y: Sys, t: TaskId, s: SessionId, i: Input)
    requires BackendOk(y)
    ensures Owes(y, Advance(y, t, StopRequest(s), i), t)
  {
    TakeReturns(y.b, Stop(s));
    hide BackendOk, B.TakenBy, Target;
  }

  lemma CancelOwes(y: Sys, t: TaskId, target: Option<SessionId>, i: Input)
    requires BackendOk(y)
    ensures Owes(y, Advance(y, t, CancelRequest(target), i), t)
  {
    CancelReturns(y.b, target);
    hide BackendOk, B.Cancelled, Target;
  }

  lemma WatchOwes(y: Sys, t: TaskId, s: SessionId, i: Input)
    requires BackendOk(y)
    ensures Owes(y, Advance(y, t, Watching(s), i), t)
  {
    AutoReturns(y.b, s);
    hide BackendOk, B.AutoStopped, Target;
  }

  lemma HandlerOwes(y: Sys, t: TaskId, pc: Pc, i: Input)
    requires BackendOk(y) && Commits(pc)
    ensures Owes(y, Advance(y, t, pc, i), t)
  {
    hide Advance, BackendOk, Owes;
    match pc
    case Committing(sid) => CommitOwes(y, t, sid, i);
    case StopRequest(sid) => StopOwes(y, t, sid, i);
    case CancelRequest(target) => CancelOwes(y, t, target, i);
    case Watching(sid) => WatchOwes(y, t, sid, i);
  }

  lemma StaysOwes(y: Sys, z: Sys, t: TaskId)
    requires z.b.machine == y.b.machine && t in z.tasks
    requires Unsaid(z.tasks[t]).Some? ==> Target(Unsaid(z.tasks[t]).value) == y.b.machine
    ensures Owes(y, z, t)
  {}

  /** The task that moves; a cancel that stops its capture only keeps what it owes. */
  lemma MoverOwes(y: Sys, t: TaskId, i: Input)
    requires Inv(y) && t in y.tasks && (y.tasks[t].CancelStop? ==> Waits(y, t))
    ensures Owes(y, Exec(y, Run(t, i)), t)
  {
    hide B.Emitted, Advance, Owes, Target;
    var pc := y.tasks[t];
    if pc.Piping? {
      PipeOwes(y, t, pc.sid, pc.stage, i);
      PipingAdvances(y, t, pc, i);
    } else if Commits(pc) {
      HandlerOwes(y, t, pc, i);
    } else {
      HandlerStays(y, t, pc, i);
      StaysOwes(y, Exec(y, Run(t, i)), t);
    }
  }

  /** Who moves the machine has that to announce, and does not announce in the same
      step. */
  lemma StepMakes(y: Sys, step: Step)
    requires Inv(y)
    ensures var z := Exec(y, step);
            z.b.machine == y.b.machine || (step.Run? && Says(y, step).None? && Waits(z, step.task))
  {
    EmittedMachine(y.b);
    hide B.Emitted, Advance, Waits, Target, Trim, Joined;
    if step.Run? && step.task in y.tasks {
      var t, pc := step.task, y.tasks[step.task];
      if pc.Piping? {
        PipeOwes(y, t, pc.sid, pc.stage, step.input);
        PipingAdvances(y, t, pc, step.input);
      } else if Commits(pc) {
        HandlerOwes(y, t, pc, step.input);
      } else {
        HandlerStays(y, t, pc, step.input);
      }
    }
  }

  /** A task that waits to announce goes on waiting until it does. */
  lemma StillWaits(y: Sys, step: Step, t: TaskId)
    requires Waits(y, t) && Exec(y, step).b.machine == y.b.machine
    requires Says(y, step).Some? ==> step.task != t
    ensures Waits(Exec(y, step), t)
  {
    if step.Run? && step.task == t {
      hide Pipe, Target;
    } else {
      OthersStay(y, step, t);
      hide Exec, Unsaid, Target;
    }
  }

  lemma OthersStay(y: Sys, step: Step, u: TaskId)
    requires u in y.tasks && !(step.Run? && step.task == u)
    ensures u in Exec(y, step).tasks && Exec(y, step).tasks[u] == y.tasks[u]
  {
    hide Advance, B.Emitted, Trim, Joined;
    if step.Run? && step.task in y.tasks { AdvanceMoves(y, step.task, y.tasks[step.task], step.input, u); }
  }

  // ------------------------------------------------------------ whole runs

  /** The daemon after more steps. */
  ghost function Onward(x: Sys, more: seq<Step>): (y: Sys)
    ensures x.b.log <= y.b.log
    decreases |more|
  {
    if more == [] then x
    else
      var front, step := more[..|more| - 1], more[|more| - 1];
      LogGrows(Onward(x, front), step);
      Exec(Onward(x, front), step)
  }

  /** The last transition announced in these steps, with the machine at that moment. */
  ghost function LastSaid(x: Sys, more: seq<Step>): Option<(Transition, Machine)>
    decreases |more|
  {
    if more == [] then None
    else
      var front, step := more[..|more| - 1], more[|more| - 1];
      var y := Onward(x, front);
      if Says(y, step).Some? then Some((Says(y, step).value, y.b.machine)) else LastSaid(x, front)
  }

  /** The last announcement, if there was one, was still true when it was made. */
  ghost predicate UpToDate(x: Sys, more: seq<Step>) {
    LastSaid(x, more).Some? ==> Target(LastSaid(x, more).value.0) == LastSaid(x, more).value.1
  }

  /** What the announcements of these steps leave one with who knew the machine before. */
  ghost function Heard(x: Sys, more: seq<Step>): Machine {
    if LastSaid(x, more).Some? then Target(LastSaid(x, more).value.0) else x.b.machine
  }

  /** Nobody has anything left to announce. */
  ghost predicate AllSaid(y: Sys) { forall t :: t in y.tasks ==> Unsaid(y.tasks[t]).None? }

  /** What was heard is the machine exactly if it was announced in time, unless the
      state of the machine has still to be announced. */
  ghost predicate Settles(y: Sys, heard: Machine, inTime: bool) {
    (heard == y.b.machine <==> inTime) || exists t :: Waits(y, t)
  }

  lemma StepSettles(y: Sys, step: Step, heard: Machine, inTime: bool)
    requires Inv(y) && Settles(y, heard, inTime)
    ensures var said := Says(y, step);
            Settles(Exec(y, step), if said.Some? then Target(said.value) else heard,
                    if said.Some? then Target(said.value) == y.b.machine else inTime)
  {
    StepMakes(y, step);
    hide Inv, Exec, Says, Target, Waits;
    if Exec(y, step).b.machine == y.b.machine && Says(y, step).None? && !(heard == y.b.machine <==> inTime) {
      var t :| Waits(y, t);
      StillWaits(y, step, t);
    }
  }

  lemma OnwardReaches(x: Sys, more: seq<Step>)
    requires Reachable(x)
    ensures Reachable(Onward(x, more))
  {
    hide After, Exec;
    var steps :| x == After(x.alnum, steps);
    OnwardIsAfter(x.alnum, steps, more);
    RunsReach(x.alnum, steps + more);
  }

  lemma {:induction false} OnwardIsAfter(alnum: AlphaNum, steps: seq<Step>, more: seq<Step>)
    ensures Onward(After(alnum, steps), more) == After(alnum, steps + more)
    decreases |more|
  {
    hide Exec;
    if more == [] {
      assert steps + more == steps;
    } else {
      OnwardIsAfter(alnum, steps, more[..|more| - 1]);
      Continued(alnum, steps, more);
    }
  }

  lemma {:induction false} RunSettles(x: Sys, more: seq<Step>)
    requires Reachable(x)
    ensures Settles(Onward(x, more), Heard(x, more), UpToDate(x, more))
    decreases |more|
  {
    if more != [] {
      var front := more[..|more| - 1];
      RunSettles(x, front);
      OnwardReaches(x, front);
      ReachableOk(Onward(x, front));
      hide Exec, Says, Target, Inv, Settles, Reachable;
      StepSettles(Onward(x, front), more[|more| - 1], Heard(x, front), UpToDate(x, front));
    }
  }

  /** Announcements of a run are those of its second part, if it has any. */
  lemma {:induction false} SaidLater(w: Sys, early: seq<Step>, late: seq<Step>)
    ensures Onward(w, early + late) == Onward(Onward(w, early), late)
    ensures var later := LastSaid(Onward(w, early), late);
            LastSaid(w, early + late) == if later.Some? then later else LastSaid(w, early)
    decreases |late|
  {
    hide Exec, Says;
    if late == [] {
      assert early + late == early;
    } else {
      var front := late[..|late| - 1];
      SaidLater(w, early, front);
      assert (early + late)[..|early + late| - 1] == early + front;
    }
  }

  // ---------------------------------------------------------- the client's picture

  /** The state and session a client shows. */
  function Picture(m: V.Model): Machine { Machine(m.state, m.active) }

  lemma EventShows(m: V.Model, envelope: B.Envelope, daemon: V.InstanceId, level: real)
    requires V.Applied(m, Sent(envelope, daemon, level)).1.None?
    ensures Picture(V.Applied(m, Sent(envelope, daemon, level)).0) ==
              if envelope.event.StateChanged? then Target(envelope.event.moved) else Picture(m)
  {}

  lemma {:induction false} WatchedPrefix(
      m: V.Model, log: seq<B.Envelope>, more: seq<B.Envelope>, daemon: V.InstanceId, level: real, lo: nat, hi: nat)
    requires lo <= hi <= |log| && log <= more
    ensures Watched(m, more, daemon, level, lo, hi) == Watched(m, log, daemon, level, lo, hi)
    decreases hi
  {
    hide V.Applied, Sent;
    if lo < hi { WatchedPrefix(m, log, more, daemon, level, lo, hi - 1); }
  }

  /** The picture of a client that has listened since `w`. */
  ghost function Seen(w: Sys, more: seq<Step>, m: V.Model, daemon: V.InstanceId, level: real): V.Model {
    var log := Onward(w, more).b.log;
    Watched(m, log, daemon, level, |w.b.log|, |log|)
  }

  lemma NextSeen(
      y: Sys, z: Sys, said: Option<Transition>, m: V.Model, daemon: V.InstanceId, level: real, lo: nat)
    requires Reachable(z) && Adds(y.b, z.b, said) && lo <= |y.b.log|
    requires m.instance == Some(daemon) && m.lastSequence == None
    ensures Picture(Watched(m, z.b.log, daemon, level, lo, |z.b.log|)) ==
              if said.Some? then Target(said.value) else Picture(Watched(m, y.b.log, daemon, level, lo, |y.b.log|))
  {
    hide V.Applied, Sent, Target, Reachable, Picture;
    var n := |y.b.log|;
    WatchedPrefix(m, y.b.log, z.b.log, daemon, level, lo, n);
    if |z.b.log| > n {
      WholeStreamAccepted(z, m, daemon, level, lo, n + 1);
      EventShows(Watched(m, z.b.log, daemon, level, lo, n), z.b.log[n], daemon, level);
    }
  }

  lemma StepSeen(w: Sys, more: seq<Step>, m: V.Model, daemon: V.InstanceId, level: real)
    requires Reachable(w) && more != [] && m.instance == Some(daemon) && m.lastSequence == None
    ensures var front := more[..|more| - 1];
            var said := Says(Onward(w, front), more[|more| - 1]);
            Picture(Seen(w, more, m, daemon, level)) ==
              if said.Some? then Target(said.value) else Picture(Seen(w, front, m, daemon, level))
  {
    var front, step := more[..|more| - 1], more[|more| - 1];
    var y := Onward(w, front);
    assert Onward(w, more) == Exec(y, step);
    OnwardReaches(w, more);
    StepAdds(y, step);
    hide Exec, Says, Target, Onward, Reachable, Picture, Watched, Adds;
    NextSeen(y, Exec(y, step), Says(y, step), m, daemon, level, |w.b.log|);
  }

  lemma {:induction false} SeenIsHeard(w: Sys, more: seq<Step>, m: V.Model, daemon: V.InstanceId, level: real)
    requires Reachable(w) && m.instance == Some(daemon) && m.lastSequence == None
    ensures Picture(Seen(w, more, m, daemon, level)) ==
              if LastSaid(w, more).Some? then Target(LastSaid(w, more).value.0) else Picture(m)
    decreases |more|
  {
    if more != [] {
      SeenIsHeard(w, more[..|more| - 1], m, daemon, level);
      StepSeen(w, more, m, daemon, level);
      hide Exec, Says, Target, Seen, Reachable, Onward;
    }
  }

  /** A client that listens from `w` on, fetches the state later and misses no event
      shows the daemon's state, once nobody has anything left to announce, exactly if
      the last announcement was still true when it was made. */
  lemma ShowsMachineIff(
      w: Sys, early: seq<Step>, late: seq<Step>, m: V.Model, daemon: V.InstanceId, level: real)
    requires Reachable(w) && AllSaid(Onward(w, early + late))
    requires m.instance == Some(daemon) && m.lastSequence == None && Picture(m) == Onward(w, early).b.machine
    ensures Picture(Seen(w, early + late, m, daemon, level)) == Onward(w, early + late).b.machine
            <==> UpToDate(w, early + late)
  {
    var x := Onward(w, early);
    SaidLater(w, early, late);
    SeenIsHeard(w, early + late, m, daemon, level);
    OnwardReaches(w, early);
    RunSettles(w, early + late);
    RunSettles(x, late);
    hide Exec, Target, Seen, Reachable, Onward, LastSaid;
  }

  // -------------------------------------------------- announcements in order

  /** Nobody moves the machine while a transition has still to be announced. */
  ghost predicate Orderly(x: Sys, more: seq<Step>)
    decreases |more|
  {
    || more == []
    || (Orderly(x, more[..|more| - 1]) && InTurn(Onward(x, more[..|more| - 1]), more[|more| - 1]))
  }

  ghost predicate InTurn(y: Sys, step: Step) { Exec(y, step).b.machine != y.b.machine ==> AllSaid(y) }

  /** All that is left to announce is the state of the machine. */
  ghost predicate AllTrue(y: Sys) { forall t :: t in y.tasks && Unsaid(y.tasks[t]).Some? ==> Waits(y, t) }

  lemma StepTrue(y: Sys, step: Step, u: TaskId)
    requires Inv(y) && AllTrue(y) && InTurn(y, step)
    requires u in Exec(y, step).tasks && Unsaid(Exec(y, step).tasks[u]).Some?
    ensures Waits(Exec(y, step), u)
  {
    hide Inv, Target;
    if step.Run? && step.task == u && u in y.tasks {
      MoverOwes(y, u, step.input);
      hide Exec, Waits;
    } else {
      if !(step.Run? && step.task == u) { OnlyMoverMoves(y, step, u); }
      hide Advance, Pipe, B.Emitted, Trim, Joined;
    }
  }

  lemma SaysUnsaid(y: Sys, step: Step)
    ensures Says(y, step).Some? ==>
              step.Run? && step.task in y.tasks && Unsaid(y.tasks[step.task]) == Says(y, step)
  {}

  lemma {:induction false} OrderlyTrue(x: Sys, more: seq<Step>)
    requires Reachable(x) && AllSaid(x) && Orderly(x, more)
    ensures AllTrue(Onward(x, more)) && UpToDate(x, more)
    decreases |more|
  {
    if more != [] {
      var front, step := more[..|more| - 1], more[|more| - 1];
      OrderlyTrue(x, front);
      OnwardReaches(x, front);
      var y := Onward(x, front);
      ReachableOk(y);
      SaysUnsaid(y, step);
      hide Exec, Target, Inv, Reachable, InTurn, Emission, Says;
      forall u | u in Exec(y, step).tasks && Unsaid(Exec(y, step).tasks[u]).Some? ensures Waits(Exec(y, step), u) {
        StepTrue(y, step, u);
      }
      assert Says(y, step).Some? ==> Waits(y, step.task);
    }
  }

  /** If every transition is announced before the next is made, such a client shows the
      daemon's state whenever nothing is left to announce. */
  lemma OrderlyShowsMachine(
      w: Sys, early: seq<Step>, late: seq<Step>, m: V.Model, daemon: V.InstanceId, level: real)
    requires Reachable(w) && AllSaid(w) && Orderly(w, early + late) && AllSaid(Onward(w, early + late))
    requires m.instance == Some(daemon) && m.lastSequence == None && Picture(m) == Onward(w, early).b.machine
    ensures Picture(Seen(w, early + late, m, daemon, level)) == Onward(w, early + late).b.machine
  {
    OrderlyTrue(w, early + late);
    ShowsMachineIff(w, early, late, m, daemon, level);
    hide *;
  }

  // ------------------------------------------------- a picture left behind

  /** A start is accepted; before it is announced, a cancel is accepted, announced and
      reported. */
  function StaleRun(s: SessionId): seq<Step> {
    var go := Input(true, true, s, NO_JOB);
    [Arrive(0, StartPrepare), Run(0, go), Run(0, go),
     Arrive(1, CancelRequest(None)), Run(1, go), Run(1, go), Run(1, go), Run(1, go), Run(0, go)]
  }

  function StartMoved(s: SessionId): Transition { Moved(Idle, Recording, Some(s), false) }

  lemma StaleCancel(y: Sys, s: SessionId)
    requires y.tasks == map[0 := StartAnnounce(s, StartMoved(s))]
    requires y.b.machine == Machine(Recording, Some(s)) && y.b.recording == Some(s)
    ensures var run := StaleRun(s);
            var x := Exec(Exec(y, run[3]), run[4]);
            var z := Exec(Exec(Exec(x, run[5]), run[6]), run[7]);
            z.tasks == map[0 := StartAnnounce(s, StartMoved(s)), 1 := Done] && z.b.machine == NEW_MACHINE
  {
    hide Pipe, TextStep, B.Emitted;
    EmittedMachine(y.b);
    var run := StaleRun(s);
    var moved := Moved(Recording, Idle, Some(s), true);
    var x := Exec(Exec(y, run[3]), run[4]);
    assert x.tasks == map[0 := StartAnnounce(s, StartMoved(s)), 1 := CancelStop(s, Some(s), moved)];
    assert x.b.machine == NEW_MACHINE;
    StaleReport(x, s, moved);
  }

  lemma StaleReport(x: Sys, s: SessionId, moved: Transition)
    requires x.tasks == map[0 := StartAnnounce(s, StartMoved(s)), 1 := CancelStop(s, Some(s), moved)]
    requires x.b.machine == NEW_MACHINE
    ensures var run := StaleRun(s);
            var z := Exec(Exec(Exec(x, run[5]), run[6]), run[7]);
            z.tasks == map[0 := StartAnnounce(s, StartMoved(s)), 1 := Done] && z.b.machine == NEW_MACHINE
  {
    hide Pipe, TextStep;
  }

  lemma StaleEnd(y: Sys, s: SessionId)
    requires y.tasks == map[0 := StartAnnounce(s, StartMoved(s)), 1 := Done] && y.b.machine == NEW_MACHINE
    ensures var step := StaleRun(s)[8];
            && Says(y, step) == Some(StartMoved(s))
            && AllSaid(Exec(y, step)) && Exec(y, step).b.machine == NEW_MACHINE
  {
    hide Pipe, TextStep;
  }

  lemma OnwardNext(x: Sys, more: seq<Step>, k: nat)
    requires k < |more|
    ensures Onward(x, more[..k + 1]) == Exec(Onward(x, more[..k]), more[k])
  {
    hide Exec;
    assert more[..k + 1][..k] == more[..k];
  }

  /** The daemon can be idle, with everything announced, while a client that has missed
      nothing shows a recording: the session's start was announced after its end. */
  lemma StaleRecordingHappens(alnum: AlphaNum, s: SessionId, m: V.Model, daemon: V.InstanceId, level: real)
    requires m.instance == Some(daemon) && m.lastSequence == None && Picture(m) == NEW_MACHINE
    ensures var w, run := Init(alnum), StaleRun(s);
            && AllSaid(Onward(w, run)) && Onward(w, run).b.machine == NEW_MACHINE
            && Picture(Seen(w, run, m, daemon, level)) == Machine(Recording, Some(s))
  {
    hide Exec, Says, Reachable, Picture, Seen;
    var w, run := Init(alnum), StaleRun(s);
    InitReachable(alnum);
    SeenIsHeard(w, run, m, daemon, level);
    forall k: nat | k < 9 ensures Onward(w, run[..k + 1]) == Exec(Onward(w, run[..k]), run[k]) {
      OnwardNext(w, run, k);
    }
    assert run[..9] == run;
    StartCommits(Onward(w, run[..0]), s);
    StaleCancel(Onward(w, run[..3]), s);
    StaleEnd(Onward(w, run[..8]), s);
    assert LastSaid(w, run) == Some((StartMoved(s), NEW_MACHINE));
  }

  lemma InitReachable(alnum: AlphaNum)
    ensures Reachable(Init(alnum))
  {
    assert Init(alnum) == After(alnum, []);
  }
}
