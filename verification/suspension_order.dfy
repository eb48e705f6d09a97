/** The two races of the suspension protocol, and that its runs must avoid exactly them: block_epoch is raised and read
    without a lock after a mutex wait (kernel_scheduler/src/utils_kernel_scheduler.c), and the dispatcher writes EXEC
    into a process that is already running (kernel_scheduler/src/planificadorCortoPlazo.c). */
module SuspensionOrder {
  import opened Estados
  import opened Suspension
  import opened SuspensionRuns
  import opened Words

  /* ---------- what is past saving ---------- */

  ghost predicate Broken(s: State) {
    exists pid :: Seen(s.log, pid).phase == Wrong
  }

  /** At most `n` orderly steps can take the system from `s` to where the protocol is broken. */
  ghost predicate Within(s: State, n: nat)
    decreases n
  {
    Broken(s) || (n > 0 && exists a :: Enabled(s, a) && Orderly(s, a) && Within(Apply(s, a), n - 1))
  }

  ghost predicate Doomed(s: State) {
    exists n: nat :: Within(s, n)
  }

  lemma Onward(s: State, a: Action, n: nat)
    requires Enabled(s, a) && Orderly(s, a) && Within(Apply(s, a), n)
    ensures Within(s, n + 1)
  {}

  lemma BrokenNow(s: State, pid: int, n: nat)
    requires Seen(s.log, pid).phase == Wrong
    ensures Within(s, n)
  {}

  lemma {:induction false} SafeWithin(s: State, n: nat)
    requires Inv(s)
    ensures !Within(s, n)
    decreases n
  {
    hide Inv, Enabled, Orderly, Apply, Seen;
    forall pid ensures Seen(s.log, pid).phase != Wrong { NotWrong(s, pid); }
    if n > 0 {
      forall a | Enabled(s, a) && Orderly(s, a) ensures !Within(Apply(s, a), n - 1) {
        ActionKeeps(s, a);
        SafeWithin(Apply(s, a), n - 1);
      }
    }
  }

  /** As long as the order is kept nothing is lost. */
  lemma Safe(s: State)
    requires Inv(s)
    ensures !Doomed(s)
  {
    forall n: nat ensures !Within(s, n) { SafeWithin(s, n); }
  }

  /* ---------- a wait that goes on with the segments in swap ---------- */

  predicate Away(w: Watch) {
    w.phase == InSwap || w.phase == Wrong
  }

  /** How many steps a process that is blocked on I/O has still to take to become READY. */
  function Left(at: Where): nat {
    match at
    case Queued => 7
    case Timed => 6
    case Serving => 5
    case Finished => 4
    case Taken => 3
    case TookRam => 2
    case Written => 1
    case _ => 0
  }

  /** The next of these steps. */
  function Advance(at: Where): Step {
    match at
    case Queued => StartTimer
    case Timed => Enqueue
    case Serving => IoDone
    case Finished => Extract
    case Taken => Look
    case TookRam => WriteNow(true)
    case _ => Wake
  }

  lemma Advances(p: Pcb)
    requires Left(p.at) > 0 && p.estado == Exec
    ensures var step := Advance(p.at); Can(p, step) && InOrder(p, step) && step != Send && step != Kill
    ensures Left(p.at) > 1 ==> var p' := NextPcb(p, Advance(p.at)); Left(p'.at) == Left(p.at) - 1 && p'.estado == Exec
  {}

  lemma ShowsLost(pid: int, p: Pcb, w: Watch)
    requires Left(p.at) > 0 && p.estado == Exec && Away(w)
    ensures var w' := After(w, Shows(pid, p, Advance(p.at))); if Left(p.at) == 1 then w'.phase == Wrong else Away(w')
  {}

  lemma AdvanceOne(s: State, pid: int)
    requires pid in s.procs && Left(s.procs[pid].at) > 0 && s.procs[pid].estado == Exec && Away(Seen(s.log, pid))
    ensures var s', left := ApplyStep(s, pid, Advance(s.procs[pid].at)), Left(s.procs[pid].at);
            && pid in s'.procs
            && if left == 1 then Seen(s'.log, pid).phase == Wrong
               else Left(s'.procs[pid].at) == left - 1 && s'.procs[pid].estado == Exec && Away(Seen(s'.log, pid))
  {
    hide Can, NextPcb, Shows, Left, Advance, Away, After, Observe, Seen;
    var p := s.procs[pid];
    Advances(p);
    ShowsLost(pid, p, Seen(s.log, pid));
    ShowsOwn(pid, p, Advance(p.at));
    SeenAfter(s.log, Shows(pid, p, Advance(p.at)), pid);
  }

  /** A process blocked on I/O in EXEC, as no timer left it, whose segments are in swap: whatever the I/O is, it ends in
      a write into memory that is not there or in a process READY without its segments. */
  lemma {:induction false} Lost(s: State, pid: int)
    requires pid in s.procs && Left(s.procs[pid].at) > 0 && s.procs[pid].estado == Exec && Away(Seen(s.log, pid))
    ensures Within(s, Left(s.procs[pid].at))
    decreases Left(s.procs[pid].at)
  {
    hide Can, InOrder, ApplyStep, Seen, Within, Left, Advance, Away;
    var a := Of(pid, Advance(s.procs[pid].at));
    Advances(s.procs[pid]);
    AdvanceOne(s, pid);
    if Left(s.procs[pid].at) == 1 {
      BrokenNow(Apply(s, a), pid, 0);
    } else {
      Lost(Apply(s, a), pid);
    }
    Onward(s, a, Left(s.procs[pid].at) - 1);
  }

  /* ---------- a timer that marks a process about to be put in EXEC ---------- */

  /** The timer goes on, ... */
  lemma DumpsAway(s: State, t: nat)
    requires TimerAt(s, t, Listed)
    ensures Away(Seen(DumpTimer(s, t).log, s.timers[t].pid))
  {
    var x, s' := s.timers[t], DumpTimer(s, t);
    SeenMore(s.log, Suspend(x.pid, x.origin), x.pid);
    SeenMore(s.log + [Suspend(x.pid, x.origin)], SuspendAck(x.pid), x.pid);
    assert s'.log == s.log + [Suspend(x.pid, x.origin)] + [SuspendAck(x.pid)];
  }

  /** ... and the late EXEC hides from the I/O that the process has been suspended. */
  lemma WrittenOver(s: State, pid: int)
    requires pid in s.procs && InBlock(s.procs[pid]) && s.procs[pid].due && Away(Seen(s.log, pid))
    ensures Within(s, 8)
  {
    hide Within, Seen, Away;
    var a := Of(pid, WriteExec);
    assert s.log + [] == s.log;
    Lost(Apply(s, a), pid);
    Longer(Apply(s, a), Left(s.procs[pid].at), 7);
    Onward(s, a, 7);
  }

  lemma {:induction false} Longer(s: State, m: nat, n: nat)
    requires Within(s, m) && m <= n
    ensures Within(s, n)
    decreases m
  {
    hide Broken, Enabled, Orderly, Apply;
    if !Broken(s) {
      var a :| Enabled(s, a) && Orderly(s, a) && Within(Apply(s, a), m - 1);
      Longer(Apply(s, a), m - 1, n - 1);
    }
  }

  lemma MarkedWhileDue(s: State, t: nat)
    requires TimerAt(s, t, Sleeping) && Marks(s, t) && s.procs[s.timers[t].pid].due
    ensures Within(MarkTimer(s, t), 10)
  {
    hide Within, Seen, Away;
    var pid := s.timers[t].pid;
    var s1 := MarkTimer(s, t);
    var s2 := ListTimer(s1, t);
    DumpsAway(s2, t);
    WrittenOver(DumpTimer(s2, t), pid);
    Onward(s2, Dump(t), 8);
    Onward(s1, List(t), 9);
  }

  /* ---------- a wait that begins while the epoch of another is open ---------- */

  lemma DumpsAnother(s: State, t: nat)
    requires TimerAt(s, t, Listed) && s.timers[t].origin != Seen(s.log, s.timers[t].pid).episode
    ensures Seen(DumpTimer(s, t).log, s.timers[t].pid).phase == Wrong
  {
    var x, s' := s.timers[t], DumpTimer(s, t);
    SeenMore(s.log, Suspend(x.pid, x.origin), x.pid);
    SeenMore(s.log + [Suspend(x.pid, x.origin)], SuspendAck(x.pid), x.pid);
    assert s'.log == s.log + [Suspend(x.pid, x.origin)] + [SuspendAck(x.pid)];
  }

  /** A timer of another wait that would suspend the process. */
  lemma SuspendsAnother(s: State, t: nat)
    requires TimerAt(s, t, Sleeping) && Marks(s, t) && !s.procs[s.timers[t].pid].due
    requires s.timers[t].origin != Seen(s.log, s.timers[t].pid).episode
    ensures Within(s, 3)
  {
    hide Within, Seen;
    var s1 := MarkTimer(s, t);
    assert s.log + [] == s.log;
    var s2 := ListTimer(s1, t);
    DumpsAnother(s2, t);
    BrokenNow(DumpTimer(s2, t), s.timers[t].pid, 0);
    Onward(s2, Dump(t), 0);
    Onward(s1, List(t), 1);
    Onward(s, Mark(t), 2);
  }

  /** The process waits for I/O, and the thread of an earlier wait has block_epoch still to raise or to read. */
  ghost predicate Open(s: State, pid: int) {
    && pid in s.procs && s.procs[pid].at == Queued && s.procs[pid].estado == Block && !s.procs[pid].due
    && s.procs[pid].late != [] && s.procs[pid].late[0].origin != Seen(s.log, pid).episode
  }

  lemma ReadsLate(s: State, pid: int)
    requires Open(s, pid) && s.procs[pid].late[0].raised
    ensures Within(s, 4)
  {
    hide Within, Seen;
    var a, t := Of(pid, StartLate(0)), |s.timers|;
    var s' := ApplyStep(s, pid, StartLate(0));
    assert s.log + [] == s.log;
    assert s'.timers[t] == Timer(pid, s.procs[pid].epoch, s.procs[pid].late[0].origin, Sleeping);
    SuspendsAnother(s', t);
    Onward(s, a, 3);
  }

  lemma RaisesLate(s: State, pid: int)
    requires Open(s, pid)
    ensures Within(s, 5)
  {
    hide Within, Seen;
    if s.procs[pid].late[0].raised {
      ReadsLate(s, pid);
      Longer(s, 4, 5);
    } else {
      var a := Of(pid, RaiseEpoch(0));
      assert s.log + [] == s.log;
      ReadsLate(Apply(s, a), pid);
      Onward(s, a, 4);
    }
  }

  lemma EntersOpen(s: State, pid: int)
    requires Inv(s) && pid in s.procs && Can(s.procs[pid], EnterQueue) && !InOrder(s.procs[pid], EnterQueue)
    ensures Open(ApplyStep(s, pid, EnterQueue), pid)
  {
    hide Inv, Seen;
    Known(s, pid);
    SeenMore(s.log, Blocked(pid, true), pid);
    assert s.procs[pid].late[0].origin <= s.procs[pid].blocks;
  }

  /* ---------- exactness ---------- */

  /** From a state with everything in order, an action leads to a state from which orderly steps can break the protocol
      exactly if it is one of the two races. */
  lemma OrderExact(s: State, a: Action)
    requires Inv(s) && Enabled(s, a)
    ensures Orderly(s, a) <==> !Doomed(Apply(s, a))
  {
    hide Inv, Within, ApplyStep, MarkTimer, InOrder, Marks;
    if Orderly(s, a) {
      ActionKeeps(s, a);
      Safe(Apply(s, a));
    } else {
      match a
      case Of(pid, step) => {
        hide Doomed;
        OnlyEntry(s.procs[pid], step);
        EntersOpen(s, pid);
        RaisesLate(Apply(s, a), pid);
        IsDoomed(Apply(s, a), 5);
      }
      case Mark(t) => {
        hide Doomed;
        MarkedWhileDue(s, t);
        IsDoomed(Apply(s, a), 10);
      }
    }
  }

  lemma OnlyEntry(p: Pcb, step: Step)
    requires !InOrder(p, step)
    ensures step == EnterQueue
  {}

  lemma IsDoomed(s: State, n: nat)
    requires Within(s, n)
    ensures Doomed(s)
  {}

  ghost predicate OrderlyUpTo(states: seq<State>, actions: seq<Action>, n: nat)
    requires Run(states, actions) && n <= |actions|
  {
    forall i :: 0 <= i < n ==> Orderly(states[i], actions[i])
  }

  lemma UpTo(states: seq<State>, actions: seq<Action>, n: nat)
    requires Run(states, actions) && n <= |actions| && OrderlyUpTo(states, actions, n)
    ensures Inv(states[n])
  {
    hide Enabled, Apply, Orderly, Inv;
    Reachable(states[..n + 1], actions[..n], n);
  }

  lemma {:induction false} FirstRace(states: seq<State>, actions: seq<Action>, n: nat) returns (i: nat)
    requires Run(states, actions) && n <= |actions| && !OrderlyUpTo(states, actions, n)
    ensures i < n && OrderlyUpTo(states, actions, i) && !Orderly(states[i], actions[i])
  {
    hide Run, Orderly;
    i := n - 1;
    if !OrderlyUpTo(states, actions, n - 1) { i := FirstRace(states, actions, n - 1); }
  }

  /** Over whole runs: a run is orderly exactly if it never reaches a state from which orderly steps can break the
      protocol. */
  lemma RunExact(states: seq<State>, actions: seq<Action>)
    requires Run(states, actions)
    ensures OrderlyRun(states, actions) <==> forall i :: 0 <= i < |states| ==> !Doomed(states[i])
  {
    hide Enabled, Apply, Orderly, Inv, Doomed;
    if OrderlyRun(states, actions) {
      forall i | 0 <= i < |states| ensures !Doomed(states[i]) {
        Reachable(states, actions, i);
        Safe(states[i]);
      }
    } else {
      var i := FirstRace(states, actions, |actions|);
      UpTo(states, actions, i);
      OrderExact(states[i], actions[i]);
      assert Doomed(states[i + 1]);
    }
  }

  /* ---------- both races happen ---------- */

  ghost predicate Reached(s: State) {
    exists states, actions :: OrderlyRun(states, actions) && states[|actions|] == s
  }

  lemma ReachedStart()
    ensures Reached(INITIAL)
  {
    var none: seq<Action> := [];
    assert OrderlyRun([INITIAL], none) && [INITIAL][|none|] == INITIAL;
  }

  lemma ReachedNext(s: State, a: Action)
    requires Reached(s) && Enabled(s, a) && Orderly(s, a)
    ensures Reached(Apply(s, a))
  {
    hide Enabled, Orderly, Apply;
    var states, actions :| OrderlyRun(states, actions) && states[|actions|] == s;
    var states', actions' := states + [Apply(s, a)], actions + [a];
    assert OrderlyRun(states', actions') && states'[|actions'|] == Apply(s, a);
  }

  lemma ReachedInv(s: State)
    requires Reached(s)
    ensures Inv(s)
  {
    hide Inv;
    var states, actions :| OrderlyRun(states, actions) && states[|actions|] == s;
    Reachable(states, actions, |actions|);
  }

  /** Process 1 alone, no timer started. */
  function Alone(p: Pcb, log: seq<Event>): State {
    State(map[1 := p], [], [], Resting, log)
  }

  lemma OneStep(p: Pcb, log: seq<Event>, step: Step, p': Pcb, log': seq<Event>)
    requires Reached(Alone(p, log)) && Can(p, step) && InOrder(p, step) && (step == Send ==> !p.due)
    requires Starts(1, p, step) == [] && step != Kill && p' == NextPcb(p, step) && log' == log + Shows(1, p, step)
    ensures Reached(Alone(p', log'))
  {
    hide Reached, Can, InOrder, NextPcb, Shows, Starts;
    var s := Alone(p, log);
    assert s.timers + Starts(1, p, step) == [];
    ReachedNext(s, Of(1, step));
    assert s.procs[1 := NextPcb(p, step)] == map[1 := NextPcb(p, step)];
  }

  const SENT := NEWBORN.(at := OnCpu, due := true)

  lemma Sent()
    ensures Reached(Alone(SENT, []))
  {
    hide Reached;
    ReachedStart();
    ReachedNext(INITIAL, Create(1));
    assert INITIAL.procs[1 := NEWBORN] == map[1 := NEWBORN] && INITIAL.log + [] == [];
    OneStep(NEWBORN, [], Send, SENT, []);
  }

  /** After a mutex wait whose epoch the thread still has to raise, or to read. */
  function Handed(raised: bool): Pcb {
    NEWBORN.(blocks := 1, late := [Late(1, raised)], epoch := One(raised))
  }

  lemma OnItsMutex()
    ensures Reached(Alone(Handed(false).(at := OnMutex, estado := Block), [Blocked(1, false)]))
  {
    hide Reached;
    Sent();
    var p1 := SENT.(estado := Exec, due := false);
    OneStep(SENT, [], WriteExec, p1, []);
    OneStep(p1, [], WaitMutex, Handed(false).(at := OnMutex, estado := Block), [Blocked(1, false)]);
  }

  lemma HandedOver(raised: bool)
    ensures Reached(Alone(Handed(raised), [Blocked(1, false)]))
  {
    hide Reached;
    OnItsMutex();
    var p2, p3 := Handed(false).(at := OnMutex, estado := Block), Handed(raised).(at := OnMutex, estado := Block);
    if raised { OneStep(p2, [Blocked(1, false)], RaiseEpoch(0), p3, [Blocked(1, false)]); }
    OneStep(p3, [Blocked(1, false)], TakeMutex, Handed(raised), [Blocked(1, false)]);
  }

  lemma RunsAgain(raised: bool)
    ensures Reached(Alone(Handed(raised).(at := OnCpu, estado := Exec), [Blocked(1, false)]))
  {
    hide Reached;
    HandedOver(raised);
    var log := [Blocked(1, false)];
    var p1 := Handed(raised).(at := OnCpu, due := true);
    OneStep(Handed(raised), log, Send, p1, log);
    OneStep(p1, log, WriteExec, p1.(estado := Exec, due := false), log);
  }

  lemma EpochOpen(raised: bool) returns (s: State)
    ensures Reached(s) && 1 in s.procs && s.procs[1].late == [Late(1, raised)]
    ensures Enabled(s, Of(1, EnterQueue)) && !Orderly(s, Of(1, EnterQueue))
  {
    hide Reached;
    RunsAgain(raised);
    var log := [Blocked(1, false)];
    var p2, p3 := Handed(raised).(at := OnCpu, estado := Exec), Handed(raised).(at := Entering, estado := Block);
    OneStep(p2, log, BeginIo(false), p3, log);
    s := Alone(p3, log);
  }

  const ASKING := SENT.(estado := Block, stdin := true)

  lemma Asked()
    ensures Reached(Alone(ASKING.(at := Queued, epoch := 1, mine := 1, blocks := 1), [Blocked(1, true)]))
  {
    hide Reached;
    Sent();
    var p1 := ASKING.(at := Entering);
    OneStep(SENT, [], BeginIo(true), p1, []);
    OneStep(p1, [], EnterQueue, p1.(at := Queued, epoch := 1, mine := 1, blocks := 1), [Blocked(1, true)]);
  }

  lemma ExecDue() returns (s: State)
    ensures Reached(s) && 1 in s.procs && s.procs[1].due && TimerAt(s, 0, Sleeping) && Marks(s, 0)
    ensures s.timers[0].pid == 1 && s.procs[1].stdin && s.procs[1].late == []
  {
    hide Reached;
    var before := Alone(ASKING.(at := Queued, epoch := 1, mine := 1, blocks := 1), [Blocked(1, true)]);
    Asked();
    ReachedNext(before, Of(1, StartTimer));
    s := ApplyStep(before, 1, StartTimer);
  }

  lemma {:induction false} BreaksWithin(states: seq<State>, actions: seq<Action>, n: nat) returns (longer: seq<State>, more: seq<Action>)
    requires Run(states, actions) && Within(states[|actions|], n)
    ensures Run(longer, more) && states <= longer && actions <= more && Broken(longer[|more|])
    decreases n
  {
    hide Enabled, Orderly, Apply, Broken;
    longer, more := states, actions;
    if !Broken(states[|actions|]) {
      var s := states[|actions|];
      var a :| Enabled(s, a) && Orderly(s, a) && Within(Apply(s, a), n - 1);
      var states', actions' := states + [Apply(s, a)], actions + [a];
      assert forall i :: 0 <= i < |actions| ==> actions'[i] == actions[i] && states'[i] == states[i];
      longer, more := BreaksWithin(states', actions', n - 1);
    }
  }

  /** What is doomed does go wrong, in some run. */
  lemma Breaks(s: State, a: Action) returns (states: seq<State>, actions: seq<Action>, k: nat)
    requires Reached(s) && Enabled(s, a) && Doomed(Apply(s, a))
    ensures Run(states, actions) && k < |actions| && states[k] == s && actions[k] == a && Broken(states[|actions|])
  {
    hide Enabled, Orderly, Apply, Broken, Within;
    var before, done :| OrderlyRun(before, done) && before[|done|] == s;
    var n: nat :| Within(Apply(s, a), n);
    k := |done|;
    var upto, with := before + [Apply(s, a)], done + [a];
    assert forall i :: 0 <= i < k ==> with[i] == done[i] && upto[i] == before[i];
    states, actions := BreaksWithin(upto, with, n);
    assert states[k] == upto[k] && actions[k] == with[k];
  }

  /** The first race: a mutex is handed to a process before the thread of its wait has raised block_epoch (`raised`
      false) or before it has read it again (`raised` true), and the process begins an I/O wait meanwhile. */
  lemma EpochRace(raised: bool) returns (states: seq<State>, actions: seq<Action>, k: nat)
    ensures Run(states, actions) && k < |actions| && Broken(states[|actions|])
    ensures actions[k] == Of(1, EnterQueue) && 1 in states[k].procs && states[k].procs[1].late == [Late(1, raised)]
  {
    hide Reached, Doomed, Broken, Run;
    var s := EpochOpen(raised);
    ReachedInv(s);
    OrderExact(s, Of(1, EnterQueue));
    states, actions, k := Breaks(s, Of(1, EnterQueue));
  }

  /** The second race: the process has been sent to a CPU, has asked for STDIN and has been found in BLOCK by its
      timer, and the dispatcher has yet to write EXEC. No mutex comes into it. */
  lemma ExecRace() returns (states: seq<State>, actions: seq<Action>, k: nat)
    ensures Run(states, actions) && k < |actions| && Broken(states[|actions|])
    ensures actions[k] == Mark(0) && 1 in states[k].procs && states[k].procs[1].due && states[k].procs[1].late == []
  {
    hide Reached, Doomed, Broken, Run;
    var s := ExecDue();
    ReachedInv(s);
    OrderExact(s, Mark(0));
    states, actions, k := Breaks(s, Mark(0));
  }
}
