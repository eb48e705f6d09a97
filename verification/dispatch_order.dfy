/** Who comes next: which process the dispatcher takes and which CPU gets it, in what order the processes of a READY
    level, of a mutex and of NEW are served, and that the dispatcher does not stop while it has work
    (kernel_scheduler/src/planificadorCortoPlazo.c, utils_kernel_scheduler.c and planificadorLargoPlazo.c). */
module DispatchOrder {
  import opened Estados
  import opened Words
  import opened Dispatcher
  import opened Conservation

  /* ---------- one step ---------- */

  /** The process dispatched is the first of the best level that has any, and it alone leaves the queues. */
  lemma PopTakesFirst(s: State, k: nat)
    requires s.pcp == Choosing && k < |s.queues| && s.queues[k] != [] && forall j :: 0 <= j < k ==> s.queues[j] == []
    ensures var s' := Apply(s, Pop);
            && s'.pcp == Holding(s.queues[k][0]) && |s'.queues| == |s.queues|
            && s.queues[k] == [s'.pcp.pid] + s'.queues[k]
            && forall j :: 0 <= j < |s.queues| && j != k ==> s'.queues[j] == s.queues[j]
  {
    SomeEntries(s.queues, k);
  }

  lemma {:induction false} SomeEntries(queues: seq<seq<int>>, k: nat)
    requires k < |queues| && queues[k] != []
    ensures 0 < Entries(queues)
  {
    if 0 < k { SomeEntries(queues[1..], k - 1); }
  }

  /** With nothing queued it goes back to sleep. */
  lemma PopFindsNone(s: State)
    requires s.pcp == Choosing && forall k :: 0 <= k < |s.queues| ==> s.queues[k] == []
    ensures Apply(s, Pop) == s.(pcp := Top)
  {
    EmptyQueues(s.queues);
  }

  /** The process held goes to the first free CPU, and to no other. */
  lemma SendTakesFirstFree(s: State, i: nat)
    requires s.pcp.Holding? && i < |s.slots| && Free(s.slots[i]) && forall j :: 0 <= j < i ==> !Free(s.slots[j])
    ensures Enabled(s, Send)
    ensures var s' := Apply(s, Send);
            && s'.pcp == Sent(s.pcp.pid) && |s'.slots| == |s.slots|
            && s'.slots[i].current == Some(s.pcp.pid) && !s'.slots[i].available && s'.slots[i].connected
            && forall j :: 0 <= j < |s.slots| && j != i ==> s'.slots[j] == s.slots[j]
  {
    FirstFreeIs(s.slots, i);
  }

  lemma {:induction false} FirstFreeIs(slots: seq<Slot>, i: nat)
    requires i < |slots| && Free(slots[i]) && forall j :: 0 <= j < i ==> !Free(slots[j])
    ensures SomeFree(slots) && FirstFree(slots) == i
  {
    assert SomeFree(slots);
    if 0 < i {
      FirstFreeIs(slots[1..], i - 1);
    }
  }

  /** A CPU that a process is taken off is free for another, unless it is reserved for the same process, which then can go
      back to it; and one whose process ends is free. A CPU that is gone is never free. */
  lemma CpuTurnover(s: State, a: Action)
    requires Enabled(s, a) && (a.Return? || a.BackToCpu? || a.Settle? || a.Disconnect?)
    ensures var c, c' := s.slots[a.i], Apply(s, a).slots[a.i];
            && c'.connected == (c.connected && !a.Disconnect?)
            && (a.Return? ==> c'.hand == c.current && c'.current == None && (Free(c') <==> c.connected && !a.reserve))
            && (a.Return? && a.reserve && c.connected ==> Enabled(Apply(s, a), BackToCpu(a.i)))
            && (a.BackToCpu? ==> c'.current == c.hand && c'.hand == None && !Free(c'))
            && (a.Settle? ==> c'.hand == None && c'.current == c.current
                              && (Free(c') <==> Free(c) || (c.connected && c.current == None && c.goal == ToExit)))
            && (a.Disconnect? ==> !Free(c') && c'.current == c.current && c'.hand == c.hand)
  {
    hide Remove, FirstFree, SomeFree, Entries, Pushed;
  }

  /** A CPU that connects, while there is room in the table, is free. */
  lemma ConnectAdds(s: State)
    ensures var s' := Apply(s, Connect);
            && (|s.slots| < MAX_CPUS ==> SomeFree(s'.slots) && s.slots <= s'.slots && |s'.slots| == |s.slots| + 1)
            && (|s.slots| >= MAX_CPUS ==> s'.slots == s.slots)
  {
    var s' := Apply(s, Connect);
    if |s.slots| < MAX_CPUS { assert Free(s'.slots[|s.slots|]); }
  }

  /* ---------- lines ---------- */

  /** The queues that are served from the front: a READY level, the waiters of a mutex, the processes in NEW. */
  datatype Line = Level(k: nat) | Mutex(m: nat) | Newcomers

  function Waiters(s: State, l: Line): seq<int> {
    match l
    case Level(k) => if k < |s.queues| then s.queues[k] else []
    case Mutex(m) => if m < |s.waiting| then s.waiting[m] else []
    case Newcomers => s.newcomers
  }

  /** The turn of process `x` has come: it is with the dispatcher, with the thread that hands the mutex on, or with the
      long-term scheduler. */
  predicate Turn(s: State, a: Action, l: Line, x: int)
    requires Enabled(s, a)
  {
    match l
    case Level(_) => a == Pop && Apply(s, a).pcp == Holding(x)
    case Mutex(m) => a == HandOff(m) && Apply(s, a).passed == s.passed + [x]
    case Newcomers => a == TakeNew && Apply(s, a).admitting == Some(x)
  }

  /** `x` changes its READY level, or its place in it. */
  predicate Moved(a: Action, x: int) {
    a.Move? && a.pid == x
  }

  ghost predicate Before(q: seq<int>, x: int, y: int) {
    exists i, j :: 0 <= i < j < |q| && q[i] == x && q[j] == y
  }

  /** The action puts `y` at the end of the line. */
  predicate JoinsLine(s: State, a: Action, l: Line, y: int) {
    match l
    case Level(k) => k < |s.queues| && JoinsLevel(s, a, k, y)
    case Mutex(m) =>
      m < |s.waiting| && a.Settle? && a.i < |s.slots| && s.slots[a.i].hand == Some(y) && s.slots[a.i].goal == ToMutex(m)
    case Newcomers => a == Create(y)
  }

  predicate JoinsLevel(s: State, a: Action, k: nat, y: int) {
    match a
    case Push(pid, level) => pid == y && level == k
    case Settle(i) => i < |s.slots| && s.slots[i].hand == Some(y) && s.slots[i].goal == ToReady(k, false)
    case Requeue(level, front, _) => s.pcp == Holding(y) && level == k && !front
    case Move(pid, _, to) => pid == y && to == k
    case _ => false
  }

  lemma BeforePushed(q: seq<int>, pid: int, front: bool, x: int, y: int)
    requires Before(q, x, y)
    ensures Before(Pushed(q, pid, front), x, y)
  {
    var i, j :| 0 <= i < j < |q| && q[i] == x && q[j] == y;
    var d := if front then 1 else 0;
    assert Pushed(q, pid, front)[i + d] == x && Pushed(q, pid, front)[j + d] == y;
  }

  lemma BeforeTail(q: seq<int>, x: int, y: int)
    requires Before(q, x, y) && q[0] != x
    ensures Before(q[1..], x, y)
  {
    var i, j :| 0 <= i < j < |q| && q[i] == x && q[j] == y;
    assert q[1..][i - 1] == x && q[1..][j - 1] == y;
  }

  lemma {:induction false} RemoveKeepsIn(q: seq<int>, pid: int, x: int)
    requires x in q && x != pid
    ensures x in Remove(q, pid)
  {
    if q[0] != pid && q[0] != x { RemoveKeepsIn(q[1..], pid, x); }
  }

  lemma {:induction false} BeforeRemove(q: seq<int>, pid: int, x: int, y: int)
    requires Before(q, x, y) && pid != x && pid != y
    ensures Before(Remove(q, pid), x, y)
  {
    var i, j :| 0 <= i < j < |q| && q[i] == x && q[j] == y;
    if q[0] == pid {
      BeforeTail(q, x, y);
    } else if i == 0 {
      assert q[1..][j - 1] == y;
      RemoveKeepsIn(q[1..], pid, y);
      var n :| 0 <= n < |Remove(q[1..], pid)| && Remove(q[1..], pid)[n] == y;
      assert Remove(q, pid)[0] == x && Remove(q, pid)[n + 1] == y;
    } else {
      assert q[1..][i - 1] == x && q[1..][j - 1] == y;
      BeforeRemove(q[1..], pid, x, y);
      var m, n :| 0 <= m < n < |Remove(q[1..], pid)| && Remove(q[1..], pid)[m] == x && Remove(q[1..], pid)[n] == y;
      assert Remove(q, pid)[m + 1] == x && Remove(q, pid)[n + 1] == y;
    }
  }

  lemma BehindAll(q: seq<int>, x: int, y: int)
    requires x in q
    ensures Before(q + [y], x, y)
  {
    var i :| 0 <= i < |q| && q[i] == x;
    assert (q + [y])[i] == x && (q + [y])[|q|] == y;
  }

  /** Whoever joins a line is behind all who are in it. */
  lemma JoinsBehind(s: State, a: Action, l: Line, x: int, y: int)
    requires Enabled(s, a) && JoinsLine(s, a, l, y) && x in Waiters(s, l) && x != y
    ensures Before(Waiters(Apply(s, a), l), x, y)
  {
    hide Before, Remove, Entries, SomeFree;
    BehindAll(Waiters(s, l), x, y);
    if a.Move? && l.Level? {
      var taken := s.queues[a.from := Remove(s.queues[a.from], y)];
      if a.from == a.to { RemoveKeepsIn(s.queues[a.from], y, x); }
      BehindAll(taken[a.to], x, y);
    }
  }

  /** The action puts `y` at the front of a READY level. */
  predicate JumpsLine(s: State, a: Action, k: nat, y: int) {
    match a
    case Settle(i) => i < |s.slots| && s.slots[i].hand == Some(y) && s.slots[i].goal == ToReady(k, true)
    case Requeue(level, front, _) => s.pcp == Holding(y) && level == k && front
    case _ => false
  }

  /** Whoever is put at the front of a level is ahead of all who are in it. */
  lemma JumpsAhead(s: State, a: Action, k: nat, x: int, y: int)
    requires Enabled(s, a) && JumpsLine(s, a, k, y) && x in Waiters(s, Level(k))
    ensures Before(Waiters(Apply(s, a), Level(k)), y, x)
  {
    hide SomeFree;
    var i :| 0 <= i < |s.queues[k]| && s.queues[k][i] == x;
    assert ([y] + s.queues[k])[0] == y && ([y] + s.queues[k])[i + 1] == x;
  }

  /* ---------- the order is kept ---------- */

  lemma QueueKeepsOrder(s: State, pid: int, level: nat, front: bool, k: nat, x: int, y: int)
    requires level < |s.queues| && Before(Waiters(s, Level(k)), x, y)
    ensures Before(Waiters(Queue(s, pid, level, front), Level(k)), x, y)
  {
    hide Before;
    if k == level { BeforePushed(s.queues[level], pid, front, x, y); }
  }

  lemma MoveKeepsOrder(s: State, pid: int, from: nat, to: nat, k: nat, x: int, y: int)
    requires from < |s.queues| && to < |s.queues| && pid != x && pid != y && Before(Waiters(s, Level(k)), x, y)
    ensures Before(Waiters(MoveTo(s, pid, from, to), Level(k)), x, y)
  {
    hide Before, Remove;
    var taken := s.queues[from := Remove(s.queues[from], pid)];
    if k == from { BeforeRemove(s.queues[from], pid, x, y); }
    if k == to { BeforePushed(taken[to], pid, false, x, y); }
  }

  lemma PopKeepsOrder(s: State, k: nat, x: int, y: int)
    requires s.pcp == Choosing && Before(Waiters(s, Level(k)), x, y) && PopBest(s).pcp != Holding(x)
    ensures Before(Waiters(PopBest(s), Level(k)), x, y)
  {
    hide Before, Entries;
    if Entries(s.queues) != 0 && FirstLevel(s.queues) == k { BeforeTail(s.queues[k], x, y); }
  }

  lemma SettleKeepsOrder(s: State, i: nat, l: Line, x: int, y: int)
    requires Decided(s, i) && Before(Waiters(s, l), x, y)
    ensures Before(Waiters(SettleHand(s, i), l), x, y)
  {
    hide Before;
    var pid := s.slots[i].hand.value;
    match s.slots[i].goal
    case ToReady(level, front) => if l.Level? { QueueKeepsOrder(LetGo(s, i), pid, level, front, l.k, x, y); }
    case ToMutex(m) => if l == Mutex(m) { BeforePushed(s.waiting[m], pid, false, x, y); }
    case _ =>
  }

  predicate MayChange(a: Action, l: Line) {
    match l
    case Level(_) => a.Requeue? || a.Push? || a.Settle? || a.Pop? || a.Move?
    case Mutex(_) => a.Settle? || a.HandOff?
    case Newcomers => a.Create? || a.TakeNew?
  }

  lemma OthersLeaveLine(s: State, a: Action, l: Line)
    requires Enabled(s, a) && !MayChange(a, l)
    ensures Waiters(Apply(s, a), l) == Waiters(s, l)
  {
    hide Apply, Enabled;
    match l
    case Level(_) => LevelsStay(s, a);
    case Mutex(_) => WaitingStays(s, a);
    case Newcomers => NewcomersStay(s, a);
  }

  lemma LevelsStay(s: State, a: Action)
    requires Enabled(s, a) && !a.Requeue? && !a.Push? && !a.Settle? && !a.Pop? && !a.Move?
    ensures Apply(s, a).queues == s.queues
  {
    hide Remove, FirstFree, SomeFree, Entries;
  }

  lemma WaitingStays(s: State, a: Action)
    requires Enabled(s, a) && !a.Settle? && !a.HandOff?
    ensures Apply(s, a).waiting == s.waiting
  {
    hide Remove, FirstFree, SomeFree, Entries, Pushed, Queue, PopBest, MoveTo;
    match a
    case Requeue(level, front, _) => QueueLeaves(s, s.pcp.pid, level, front);
    case Push(pid, level) => QueueLeaves(s.(readied := Remove(s.readied, pid)), pid, level, false);
    case Pop => PopLeaves(s);
    case Move(pid, from, to) => MoveLeaves(s, pid, from, to);
    case _ =>
  }

  lemma QueueLeaves(s: State, pid: int, level: nat, front: bool)
    requires level < |s.queues|
    ensures Queue(s, pid, level, front).waiting == s.waiting && Queue(s, pid, level, front).newcomers == s.newcomers
  {}

  lemma PopLeaves(s: State)
    ensures PopBest(s).waiting == s.waiting && PopBest(s).newcomers == s.newcomers
  {}

  lemma MoveLeaves(s: State, pid: int, from: nat, to: nat)
    requires from < |s.queues| && to < |s.queues|
    ensures MoveTo(s, pid, from, to).waiting == s.waiting && MoveTo(s, pid, from, to).newcomers == s.newcomers
  {}

  lemma SettleLeaves(s: State, i: nat)
    requires Decided(s, i)
    ensures SettleHand(s, i).newcomers == s.newcomers
  {}

  lemma NewcomersStay(s: State, a: Action)
    requires Enabled(s, a) && !a.Create? && !a.TakeNew?
    ensures Apply(s, a).newcomers == s.newcomers
  {
    hide Remove, FirstFree, SomeFree, Entries, Pushed, Queue, PopBest, MoveTo, SettleHand;
    match a
    case Requeue(level, front, _) => QueueLeaves(s, s.pcp.pid, level, front);
    case Push(pid, level) => QueueLeaves(s.(readied := Remove(s.readied, pid)), pid, level, false);
    case Settle(i) => SettleLeaves(s, i);
    case Pop => PopLeaves(s);
    case Move(pid, from, to) => MoveLeaves(s, pid, from, to);
    case _ =>
  }

  lemma LevelStays(s: State, a: Action, k: nat, x: int, y: int)
    requires Enabled(s, a) && Before(Waiters(s, Level(k)), x, y) && !Turn(s, a, Level(k), x) && !Moved(a, x) && !Moved(a, y)
    ensures Before(Waiters(Apply(s, a), Level(k)), x, y)
  {
    hide Before, Remove, Entries, SomeFree, PopBest, MoveTo, SettleHand;
    match a
    case Requeue(level, front, _) => QueueKeepsOrder(s, s.pcp.pid, level, front, k, x, y);
    case Push(pid, level) => QueueKeepsOrder(s.(readied := Remove(s.readied, pid)), pid, level, false, k, x, y);
    case Settle(i) => SettleKeepsOrder(s, i, Level(k), x, y);
    case Pop => PopKeepsOrder(s, k, x, y);
    case Move(pid, from, to) => MoveKeepsOrder(s, pid, from, to, k, x, y);
    case _ => {
      hide Apply;
      OthersLeaveLine(s, a, Level(k));
    }
  }

  lemma MutexStays(s: State, a: Action, m: nat, x: int, y: int)
    requires Enabled(s, a) && Before(Waiters(s, Mutex(m)), x, y) && !Turn(s, a, Mutex(m), x)
    ensures Before(Waiters(Apply(s, a), Mutex(m)), x, y)
  {
    hide Before, SettleHand;
    match a
    case Settle(i) => SettleKeepsOrder(s, i, Mutex(m), x, y);
    case HandOff(n) => if m == n { BeforeTail(s.waiting[m], x, y); }
    case _ => {
      hide Apply;
      OthersLeaveLine(s, a, Mutex(m));
    }
  }

  lemma NewStays(s: State, a: Action, x: int, y: int)
    requires Enabled(s, a) && Before(Waiters(s, Newcomers), x, y) && !Turn(s, a, Newcomers, x)
    ensures Before(Waiters(Apply(s, a), Newcomers), x, y)
  {
    hide Before;
    match a
    case Create(pid) => BeforePushed(s.newcomers, pid, false, x, y);
    case TakeNew => BeforeTail(s.newcomers, x, y);
    case _ => {
      hide Apply;
      OthersLeaveLine(s, a, Newcomers);
    }
  }

  /** Nothing but the turn of the first, or a move, changes the order of two processes in a line. */
  lemma OrderStays(s: State, a: Action, l: Line, x: int, y: int)
    requires Enabled(s, a) && Before(Waiters(s, l), x, y) && !Turn(s, a, l, x) && !Moved(a, x) && !Moved(a, y)
    ensures Before(Waiters(Apply(s, a), l), x, y)
  {
    hide Before, Enabled, Apply, Waiters, Turn;
    match l
    case Level(k) => LevelStays(s, a, k, x, y);
    case Mutex(m) => MutexStays(s, a, m, x, y);
    case Newcomers => NewStays(s, a, x, y);
  }

  /* ---------- no turn out of order ---------- */

  lemma {:induction false} CountTwice(q: seq<int>, i: nat, j: nat)
    requires i < j < |q| && q[i] == q[j]
    ensures 2 <= Count(q, q[i])
  {
    if i == 0 {
      CountIn(q[1..], q[j]);
      assert q[1..][j - 1] == q[j];
    } else {
      CountTwice(q[1..], i - 1, j - 1);
    }
  }

  lemma {:induction false} CountedThere(queues: seq<seq<int>>, k: nat, x: int)
    requires k < |queues|
    ensures Count(queues[k], x) <= InQueues(queues, x)
  {
    QueueUpdate(queues, k, queues[k], x);
  }

  lemma {:induction false} CountedTwice(queues: seq<seq<int>>, j: nat, k: nat, x: int)
    requires j < k < |queues| && x in queues[j] && x in queues[k]
    ensures 2 <= InQueues(queues, x)
  {
    if j == 0 {
      CountIn(queues[0], x);
      CountIn(queues[k], x);
      CountedThere(queues[1..], k - 1, x);
    } else {
      CountedTwice(queues[1..], j - 1, k - 1, x);
    }
  }

  lemma FirstIsNotBehind(q: seq<int>, x: int, y: int)
    requires Before(q, x, y) && Count(q, y) <= 1
    ensures q[0] != y
  {
    var i, j :| 0 <= i < j < |q| && q[i] == x && q[j] == y;
    if q[0] == y { CountTwice(q, 0, j); }
  }

  lemma AtMostOnce(s: State, x: int)
    requires Inv(s)
    ensures InQueues(s.queues, x) <= 1 && InQueues(s.waiting, x) <= 1 && Count(s.newcomers, x) <= 1
  {
    Each(s, x);
    assert Here(s, InReady, x) <= 1 && Here(s, OnMutex, x) <= 1 && Here(s, InNew, x) <= 1;
  }

  lemma NotBehindReady(s: State, k: nat, x: int, y: int)
    requires Inv(s) && s.pcp == Choosing && k < |s.queues| && Before(s.queues[k], x, y)
    ensures PopBest(s).pcp != Holding(y)
  {
    hide Inv, Count, InQueues;
    if Entries(s.queues) != 0 {
      var f := FirstLevel(s.queues);
      assert s.queues[f][0] in s.queues[f] && y in s.queues[k];
      assert f <= k;
      hide Entries, FirstLevel;
      AtMostOnce(s, y);
      if s.queues[f][0] == y {
        if f < k { CountedTwice(s.queues, f, k, y); }
        CountedThere(s.queues, k, y);
        FirstIsNotBehind(s.queues[k], x, y);
      }
    }
  }

  /** As long as `x` is ahead of `y` in a line, it is not the turn of `y`. */
  lemma NoTurnBehind(s: State, a: Action, l: Line, x: int, y: int)
    requires Inv(s) && Enabled(s, a) && Before(Waiters(s, l), x, y)
    ensures !Turn(s, a, l, y)
  {
    hide Inv, Before, Count, InQueues, Entries;
    AtMostOnce(s, y);
    match l
    case Level(k) => if a == Pop { NotInEmpty(s.queues, k, x, y); NotBehindReady(s, k, x, y); }
    case Mutex(m) =>
      if a == HandOff(m) {
        CountedThere(s.waiting, m, y);
        FirstIsNotBehind(s.waiting[m], x, y);
        assert (s.passed + [y])[|s.passed|] == y;
      }
    case Newcomers => if a == TakeNew { FirstIsNotBehind(s.newcomers, x, y); }
  }

  lemma NotInEmpty(queues: seq<seq<int>>, k: nat, x: int, y: int)
    requires Before(if k < |queues| then queues[k] else [], x, y)
    ensures k < |queues|
  {}

  /** First come, first served, over any stretch of any orderly run: if `x` is ahead of `y` in a READY level, among the
      waiters of a mutex or in NEW, and neither is moved, then it is not the turn of `y` before that of `x`. */
  lemma {:induction false} FirstServed(states: seq<State>, actions: seq<Action>, levels: nat, mutexes: nat,
                                       i: nat, j: nat, l: Line, x: int, y: int) returns (m: nat)
    requires OrderlyRun(states, actions, levels, mutexes) && i <= j < |actions|
    requires Before(Waiters(states[i], l), x, y) && Turn(states[j], actions[j], l, y)
    requires forall n :: i <= n < j ==> !Moved(actions[n], x) && !Moved(actions[n], y)
    ensures i <= m < j && Turn(states[m], actions[m], l, x)
    decreases j - i
  {
    hide Initial, Inv, Before, Turn, Waiters, Enabled, Apply, Orderly;
    assert Enabled(states[i], actions[i]) && states[i + 1] == Apply(states[i], actions[i]);
    if Turn(states[i], actions[i], l, x) && i < j {
      m := i;
    } else {
      Reachable(states, actions, levels, mutexes, i);
      NoTurnBehind(states[i], actions[i], l, x, y);
      OrderStays(states[i], actions[i], l, x, y);
      m := FirstServed(states, actions, levels, mutexes, i + 1, j, l, x, y);
    }
  }

  /** So one that is in a line when another joins it at the end has its turn first. */
  lemma FirstCome(states: seq<State>, actions: seq<Action>, levels: nat, mutexes: nat, i: nat, j: nat, l: Line, x: int, y: int)
      returns (m: nat)
    requires OrderlyRun(states, actions, levels, mutexes) && i < j < |actions|
    requires x in Waiters(states[i], l) && x != y && JoinsLine(states[i], actions[i], l, y) && Turn(states[j], actions[j], l, y)
    requires forall n :: i < n < j ==> !Moved(actions[n], x) && !Moved(actions[n], y)
    ensures i < m < j && Turn(states[m], actions[m], l, x)
  {
    hide Initial, Before, Turn, Waiters, Enabled, Apply, Orderly, JoinsLine;
    assert Enabled(states[i], actions[i]) && states[i + 1] == Apply(states[i], actions[i]);
    JoinsBehind(states[i], actions[i], l, x, y);
    m := FirstServed(states, actions, levels, mutexes, i + 1, j, l, x, y);
  }

  /* ---------- the dispatcher goes on ---------- */

  /** What the dispatcher does by itself, and the posts that are due. */
  predicate OwnStep(a: Action) {
    match a
    case TakeToken => true
    case SeeNoCpu => true
    case Repost => true
    case WakeForCpu => true
    case SeeCpu => true
    case Pop => true
    case Send => true
    case WriteExec => true
    case Recheck => true
    case WakeToRecheck => true
    case PostReady => true
    case PostCpu => true
    case _ => false
  }

  /** Within `n` such steps a process is sent to a CPU. */
  ghost predicate Soon(s: State, n: nat)
    decreases n
  {
    n > 0 && exists a :: OwnStep(a) && Enabled(s, a) && (a == Send || Soon(Apply(s, a), n - 1))
  }

  function Next(s: State): Action {
    match s.pcp
    case Top => if 0 < s.readyTokens then TakeToken else PostReady
    case Awake => SeeCpu
    case NoCpu => Repost
    case Sleeping => if 0 < s.cpuTokens then WakeForCpu else PostCpu
    case Choosing => Pop
    case Holding(_) => Send
    case Sent(_) => WriteExec
    case Failed => Recheck
    case Retrying => if 0 < s.cpuTokens then WakeToRecheck else PostCpu
  }

  function Rank(s: State): nat {
    match s.pcp
    case Holding(_) => 1
    case Choosing => 2
    case Awake => 3
    case Top => if 0 < s.readyTokens then 4 else 5
    case Sent(_) => 6
    case Failed => 6
    case Sleeping => if 0 < s.cpuTokens then 6 else 7
    case Retrying => if 0 < s.cpuTokens then 7 else 8
    case NoCpu => 8
  }

  /** There is a process to dispatch and a CPU to dispatch it to. */
  predicate HasWork(s: State) {
    SomeFree(s.slots) && (s.pcp.Holding? || 0 < Entries(s.queues))
  }

  lemma NextAdvances(s: State)
    requires Roused(s) && HasWork(s)
    ensures OwnStep(Next(s)) && Enabled(s, Next(s))
    ensures Next(s) != Send ==> HasWork(Apply(s, Next(s))) && Rank(Apply(s, Next(s))) < Rank(s)
  {
    hide Entries, SomeFree, SlotOk, FirstFree;
  }

  lemma {:induction false} WorkIsDone(s: State, n: nat)
    requires Roused(s) && HasWork(s) && Rank(s) <= n
    ensures Soon(s, n)
    decreases n
  {
    hide Roused, HasWork, Next, Apply, Enabled, OwnStep;
    NextAdvances(s);
    NeverZero(s);
    if Next(s) != Send {
      StepRouses(s, Next(s));
      WorkIsDone(Apply(s, Next(s)), n - 1);
    }
  }

  lemma NeverZero(s: State)
    ensures 1 <= Rank(s)
  {}

  /** At every moment of every run, if there is a process in READY and a free CPU, the dispatcher needs at most eight steps
      of its own, or posts already due, to send a process to a CPU: no token is lost that it would need. */
  lemma DispatchesSoon(states: seq<State>, actions: seq<Action>, levels: nat, mutexes: nat, i: nat)
    requires Run(states, actions, levels, mutexes) && i < |states| && SomeFree(states[i].slots)
    requires states[i].pcp.Holding? || exists k :: 0 <= k < |states[i].queues| && states[i].queues[k] != []
    ensures Soon(states[i], 8)
  {
    hide Run, Soon, Roused, SomeFree;
    AlwaysRoused(states, actions, levels, mutexes, i);
    if k :| 0 <= k < |states[i].queues| && states[i].queues[k] != [] { SomeEntries(states[i].queues, k); }
    WorkIsDone(states[i], 8);
  }
}
