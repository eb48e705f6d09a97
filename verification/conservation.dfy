/** Where the scheduler keeps each process: in exactly one place, which is one for its estado, as long as the late EXEC of
    the dispatcher finds the process on its CPU (kernel_scheduler/src/utils_kernel_scheduler.c, colaIO.c,
    planificadorCortoPlazo.c and planificadorMedianoPlazo.c). */
module Conservation {
  import opened Estados
  import opened Words
  import opened Dispatcher

  /* ---------- the places ---------- */

  /** In NEW or on its way from it; in a READY queue; on a CPU, or in the hand of its thread, undecided or bound for READY,
      for BLOCK or for its end; in the queue of blocked processes or in one of a mutex; in the hands of an I/O worker, of
      a thread that hands a mutex on, of the medium-term scheduler, of one that is about to queue it in READY, or of the
      dispatcher; or in SUSP_READY, in the suspended list and nowhere else. */
  datatype Spot =
    | InNew | FromNew | InReady | OnCpu | InHand | BoundForReady | BoundForBlock | BoundForExit
    | InBlock | OnMutex | AtWorker | Passing | Restoring | Queueing | Dispatching | Parked

  /** How often `x` occurs. */
  function Count(q: seq<int>, x: int): nat {
    if q == [] then 0 else One(q[0] == x) + Count(q[1..], x)
  }

  function InQueues(queues: seq<seq<int>>, x: int): nat {
    if queues == [] then 0 else Count(queues[0], x) + InQueues(queues[1..], x)
  }

  predicate SlotHas(c: Slot, p: Spot, x: int) {
    match p
    case OnCpu => c.current == Some(x)
    case InHand => c.hand == Some(x) && c.goal.Undecided?
    case BoundForReady => c.hand == Some(x) && c.goal.ToReady?
    case BoundForBlock => c.hand == Some(x) && (c.goal.ToBlock? || c.goal.ToMutex?)
    case BoundForExit => c.hand == Some(x) && c.goal.ToExit?
    case _ => false
  }

  function InSlots(slots: seq<Slot>, p: Spot, x: int): nat {
    if slots == [] then 0 else One(SlotHas(slots[0], p, x)) + InSlots(slots[1..], p, x)
  }

  /** How often process `x` is in a place. */
  function Here(s: State, p: Spot, x: int): nat {
    match p
    case InNew => Count(s.newcomers, x)
    case FromNew => One(s.admitting == Some(x))
    case InReady => InQueues(s.queues, x)
    case OnCpu => InSlots(s.slots, p, x)
    case InHand => InSlots(s.slots, p, x)
    case BoundForReady => InSlots(s.slots, p, x)
    case BoundForBlock => InSlots(s.slots, p, x)
    case BoundForExit => InSlots(s.slots, p, x)
    case InBlock => Count(s.blocked, x)
    case OnMutex => InQueues(s.waiting, x)
    case AtWorker => Count(s.served, x)
    case Passing => Count(s.passed, x)
    case Restoring => One(s.restored == Some(x))
    case Queueing => Count(s.readied, x)
    case Dispatching => One(s.pcp == Holding(x))
    case Parked => if Labelled(s, x, SuspReady) then Count(s.listed, x) else 0
  }

  /** The places for an estado. `due`: the dispatcher has put the process on a CPU and has still to write EXEC. */
  predicate Fits(p: Spot, e: Estado, due: bool) {
    match p
    case InNew => e == New
    case FromNew => e == New
    case InReady => e == Ready
    case OnCpu => e == if due then Ready else Exec
    case InHand => e == if due then Ready else Exec
    case BoundForReady => e == Ready
    case BoundForBlock => e == Block
    case BoundForExit => e == Exit
    case InBlock => e == Block || e == SuspBlock
    case OnMutex => e == Block
    case AtWorker => e == Block || e == SuspBlock
    case Passing => e == Block
    case Restoring => e == SuspReady
    case Queueing => e == Ready
    case Dispatching => e == Ready
    case Parked => e == SuspReady
  }

  ghost predicate Only(s: State, x: int, p: Spot) {
    forall q :: Here(s, q, x) == One(q == p)
  }

  /** A live process is in exactly one place, once, and it is a place for its estado. One that has ended is nowhere. */
  ghost predicate InPlace(s: State, x: int) {
    if x in s.labels then exists p :: Only(s, x, p) && Fits(p, s.labels[x], s.pcp == Sent(x))
    else forall p :: Here(s, p, x) == 0
  }

  /** In SUSP_BLOCK a process is in the suspended list too, once, or its timer is about to put it there; the timer is at
      work as long as the dump is not known to be over. No other process is in the list, but for those it is the place of. */
  predicate TimersOk(s: State, x: int) {
    && Count(s.listed, x) + Count(s.marking, x) == One(Labelled(s, x, SuspBlock) || 0 < Here(s, Parked, x))
    && Count(s.marking, x) + Count(s.dumping, x) == One(Labelled(s, x, SuspBlock) && 0 < Count(s.blocked, x) && x !in s.dumped)
    && (Labelled(s, x, SuspBlock) && 0 < Count(s.served, x) ==> x in s.dumped)
  }

  ghost predicate Inv(s: State) {
    forall x :: InPlace(s, x) && TimersOk(s, x)
  }

  /** On a CPU, or taken off it and not yet decided about. */
  predicate OnItsCpu(slots: seq<Slot>, x: int) {
    exists i :: 0 <= i < |slots| && (SlotHas(slots[i], OnCpu, x) || SlotHas(slots[i], InHand, x))
  }

  /** The race that the code does not exclude: the dispatcher writes EXEC after it has sent the process, without a lock,
      and by then the process may be elsewhere. */
  predicate Orderly(s: State, a: Action)
    requires Enabled(s, a)
  {
    a.WriteExec? && s.pcp.pid in s.labels ==> OnItsCpu(s.slots, s.pcp.pid)
  }

  ghost predicate OrderlyRun(states: seq<State>, actions: seq<Action>, levels: nat, mutexes: nat) {
    Run(states, actions, levels, mutexes) && forall i :: 0 <= i < |actions| ==> Orderly(states[i], actions[i])
  }

  /* ---------- counting ---------- */

  lemma {:induction false} CountConcat(q: seq<int>, r: seq<int>, x: int)
    ensures Count(q + r, x) == Count(q, x) + Count(r, x)
  {
    if q == [] {
      assert q + r == r;
    } else {
      assert (q + r)[1..] == q[1..] + r;
      CountConcat(q[1..], r, x);
    }
  }

  lemma CountPushed(q: seq<int>, pid: int, front: bool, x: int)
    ensures Count(Pushed(q, pid, front), x) == Count(q, x) + One(x == pid)
  {
    assert Count([pid], x) == One(x == pid);
    CountConcat(q, [pid], x);
    CountConcat([pid], q, x);
  }

  lemma {:induction false} CountRemove(q: seq<int>, pid: int, x: int)
    ensures Count(Remove(q, pid), x) + One(x == pid && 0 < Count(q, x)) == Count(q, x)
  {
    if q != [] && q[0] != pid {
      CountRemove(q[1..], pid, x);
      assert Remove(q, pid)[1..] == Remove(q[1..], pid);
    }
  }

  lemma {:induction false} CountIn(q: seq<int>, x: int)
    ensures x in q <==> 0 < Count(q, x)
  {
    if q != [] { CountIn(q[1..], x); }
  }

  lemma {:induction false} QueueUpdate(queues: seq<seq<int>>, k: nat, q: seq<int>, x: int)
    requires k < |queues|
    ensures InQueues(queues[k := q], x) + Count(queues[k], x) == InQueues(queues, x) + Count(q, x)
    ensures Count(queues[k], x) <= InQueues(queues, x)
  {
    if k == 0 {
      assert queues[0 := q][1..] == queues[1..];
    } else {
      assert queues[k := q][1..] == queues[1..][k - 1 := q];
      QueueUpdate(queues[1..], k - 1, q, x);
    }
  }

  lemma {:induction false} SlotUpdate(slots: seq<Slot>, i: nat, c: Slot, p: Spot, x: int)
    requires i < |slots|
    ensures InSlots(slots[i := c], p, x) + One(SlotHas(slots[i], p, x)) == InSlots(slots, p, x) + One(SlotHas(c, p, x))
  {
    hide SlotHas;
    if i == 0 {
      assert slots[0 := c][1..] == slots[1..];
    } else {
      assert slots[i := c][1..] == slots[1..][i - 1 := c];
      SlotUpdate(slots[1..], i - 1, c, p, x);
    }
  }

  lemma {:induction false} SlotAppend(slots: seq<Slot>, c: Slot, p: Spot, x: int)
    ensures InSlots(slots + [c], p, x) == InSlots(slots, p, x) + One(SlotHas(c, p, x))
  {
    hide SlotHas;
    if slots == [] {
      assert slots + [c] == [c] && [c][1..] == [];
    } else {
      assert (slots + [c])[1..] == slots[1..] + [c];
      SlotAppend(slots[1..], c, p, x);
    }
  }

  lemma {:induction false} SlotSome(slots: seq<Slot>, p: Spot, x: int)
    ensures 0 < InSlots(slots, p, x) <==> exists i :: 0 <= i < |slots| && SlotHas(slots[i], p, x)
  {
    hide SlotHas;
    if slots != [] {
      SlotSome(slots[1..], p, x);
      if i :| 0 <= i < |slots| && SlotHas(slots[i], p, x) {
        if 0 < i { assert SlotHas(slots[1..][i - 1], p, x); }
      }
      if i :| 0 <= i < |slots[1..]| && SlotHas(slots[1..][i], p, x) {
        assert SlotHas(slots[i + 1], p, x);
      }
    }
  }

  lemma SlotSeen(s: State, i: nat, p: Spot, x: int)
    requires i < |s.slots| && SlotHas(s.slots[i], p, x)
    ensures 0 < InSlots(s.slots, p, x)
  {
    SlotSome(s.slots, p, x);
  }

  /* ---------- every orderly action keeps it ---------- */

  /** Nothing is said of the process or of its lists by what changed. */
  ghost predicate Untouched(s: State, s': State, x: int) {
    && (forall q :: Here(s', q, x) == Here(s, q, x))
    && (x in s'.labels <==> x in s.labels) && (x in s.labels ==> s'.labels[x] == s.labels[x])
    && (s'.pcp == Sent(x) <==> s.pcp == Sent(x)) && (x in s'.dumped <==> x in s.dumped)
    && Count(s'.listed, x) == Count(s.listed, x) && Count(s'.marking, x) == Count(s.marking, x)
    && Count(s'.dumping, x) == Count(s.dumping, x)
  }

  lemma UntouchedPlace(s: State, s': State, x: int)
    requires InPlace(s, x) && Untouched(s, s', x)
    ensures InPlace(s', x)
  {
    hide Here, Fits;
    if x in s.labels {
      var p :| Only(s, x, p) && Fits(p, s.labels[x], s.pcp == Sent(x));
      assert Only(s', x, p);
    }
  }

  lemma UntouchedTimers(s: State, s': State, x: int)
    requires TimersOk(s, x) && Untouched(s, s', x)
    ensures TimersOk(s', x)
  {
    assert Here(s', InBlock, x) == Here(s, InBlock, x) && Here(s', AtWorker, x) == Here(s, AtWorker, x);
    assert Here(s', Parked, x) == Here(s, Parked, x);
  }

  ghost predicate Moves(s: State, s': State, x: int, from: Spot, to: Spot) {
    forall q :: Here(s', q, x) + One(q == from) == Here(s, q, x) + One(q == to)
  }

  lemma MovedPlace(s: State, s': State, x: int, from: Spot, to: Spot)
    requires InPlace(s, x) && from != to && Moves(s, s', x, from, to)
    requires x in s.labels && x in s'.labels && Fits(to, s'.labels[x], s'.pcp == Sent(x))
    ensures InPlace(s', x)
  {
    hide Fits, Here;
    var p :| Only(s, x, p) && Fits(p, s.labels[x], s.pcp == Sent(x));
    assert Here(s, from, x) == One(from == p) && p == from;
    assert Only(s', x, to);
  }

  /** An action that concerns one process leaves the others where they are. */
  lemma Alone(s: State, s': State, pid: int)
    requires Inv(s) && InPlace(s', pid) && TimersOk(s', pid) && forall x :: x != pid ==> Untouched(s, s', x)
    ensures Inv(s')
  {
    hide InPlace, TimersOk, Untouched;
    forall x ensures InPlace(s', x) && TimersOk(s', x) {
      if x != pid {
        UntouchedPlace(s, s', x);
        UntouchedTimers(s, s', x);
      }
    }
  }

  /** The lists of the timers do not concern a process that is not suspended. */
  lemma Calm(s: State, s': State, x: int)
    requires TimersOk(s, x) && s'.listed == s.listed && s'.marking == s.marking && s'.dumping == s.dumping
    requires !Labelled(s, x, SuspBlock) && !Labelled(s, x, SuspReady)
    requires !Labelled(s', x, SuspBlock) && !Labelled(s', x, SuspReady)
    ensures TimersOk(s', x)
  {}

  /** What the place of a process says of its estado. */
  lemma Known(s: State, x: int, p: Spot)
    requires Inv(s) && 0 < Here(s, p, x)
    ensures x in s.labels && Only(s, x, p) && Fits(p, s.labels[x], s.pcp == Sent(x)) && TimersOk(s, x)
  {
    hide Fits, Here;
    assert InPlace(s, x);
    var q :| Only(s, x, q) && Fits(q, s.labels[x], s.pcp == Sent(x));
    assert Here(s, p, x) == One(p == q);
  }

  /** One process goes from one place to another, and no other process moves. */
  ghost predicate Goes(s: State, s': State, pid: int, from: Spot, to: Spot) {
    forall x, q :: Here(s', q, x) + One(x == pid && q == from) == Here(s, q, x) + One(x == pid && q == to)
  }

  /** One process comes to a place where it was not, from none. */
  ghost predicate Comes(s: State, s': State, pid: int, to: Spot) {
    forall x, q :: Here(s', q, x) == Here(s, q, x) + One(x == pid && q == to)
  }

  /** One process is taken out of a place, for good. */
  ghost predicate Ends(s: State, s': State, pid: int, from: Spot) {
    forall x, q :: Here(s', q, x) + One(x == pid && q == from) == Here(s, q, x)
  }

  ghost predicate NoneMoves(s: State, s': State) {
    forall x, q :: Here(s', q, x) == Here(s, q, x)
  }

  /** One process changes its place, and the lists of the timers stay. */
  ghost predicate Shifts(s: State, s': State, pid: int, from: Spot, to: Spot) {
    && Goes(s, s', pid, from, to)
    && s'.listed == s.listed && s'.marking == s.marking && s'.dumping == s.dumping && s'.dumped == s.dumped
    && (forall x :: x != pid ==> (x in s'.labels <==> x in s.labels) && (x in s.labels ==> s'.labels[x] == s.labels[x]))
    && (forall x :: x != pid ==> (s'.pcp == Sent(x) <==> s.pcp == Sent(x)))
  }

  /** Such a change keeps the invariant if the process is not suspended and the new place is one for its new estado. */
  lemma Transfer(s: State, s': State, pid: int, from: Spot, to: Spot)
    requires Inv(s) && Shifts(s, s', pid, from, to) && from != to
    requires pid in s.labels && !Labelled(s, pid, SuspBlock) && !Labelled(s, pid, SuspReady)
    requires pid in s'.labels && !Labelled(s', pid, SuspBlock) && !Labelled(s', pid, SuspReady)
    requires Fits(to, s'.labels[pid], s'.pcp == Sent(pid))
    ensures Inv(s')
  {
    hide Inv, Here, TimersOk, Fits;
    assert InPlace(s, pid) && TimersOk(s, pid) by { Each(s, pid); }
    assert Moves(s, s', pid, from, to);
    MovedPlace(s, s', pid, from, to);
    Calm(s, s', pid);
    forall x | x != pid ensures Untouched(s, s', x) {}
    Alone(s, s', pid);
  }

  lemma Each(s: State, x: int)
    requires Inv(s)
    ensures InPlace(s, x) && TimersOk(s, x)
  {}

  predicate Quiet(a: Action) {
    match a
    case TakeToken => true
    case WaitCompaction => true
    case SeeNoCpu => true
    case Repost => true
    case WakeForCpu => true
    case SeeCpu => true
    case Recheck => true
    case WakeToRecheck => true
    case PostReady => true
    case PostCpu => true
    case ExtraReady => true
    case _ => false
  }

  lemma AllUntouched(s: State, s': State)
    requires Inv(s) && forall x :: Untouched(s, s', x)
    ensures Inv(s')
    ensures NoneMoves(s, s')
  {
    hide Untouched, InPlace, TimersOk, Here;
    forall x ensures InPlace(s', x) && TimersOk(s', x) {
      UntouchedPlace(s, s', x);
      UntouchedTimers(s, s', x);
    }
    forall x, q ensures Here(s', q, x) == Here(s, q, x) { UntouchedHere(s, s', x, q); }
  }

  lemma UntouchedHere(s: State, s': State, x: int, q: Spot)
    requires Untouched(s, s', x)
    ensures Here(s', q, x) == Here(s, q, x)
  {}

  lemma QuietKeeps(s: State, a: Action)
    requires Inv(s) && Enabled(s, a) && Quiet(a)
    ensures Inv(Apply(s, a))
    ensures NoneMoves(s, Apply(s, a))
  {
    hide Inv;
    var s' := Apply(s, a);
    assert s' == s.(pcp := s'.pcp, readyTokens := s'.readyTokens, readyPosts := s'.readyPosts, cpuTokens := s'.cpuTokens,
                    cpuPosts := s'.cpuPosts);
    assert s'.pcp == s.pcp || (!s.pcp.Holding? && !s.pcp.Sent? && !s'.pcp.Holding? && !s'.pcp.Sent?);
    hide Apply, Enabled, Count, InQueues, InSlots;
    forall x ensures Untouched(s, s', x) {}
    AllUntouched(s, s');
  }

  /* ---- the READY queues and the dispatcher ---- */

  lemma QueueCount(s: State, pid: int, level: nat, front: bool, x: int)
    requires level < |s.queues|
    ensures InQueues(Queue(s, pid, level, front).queues, x) == InQueues(s.queues, x) + One(x == pid)
  {
    hide Count, InQueues;
    QueueUpdate(s.queues, level, Pushed(s.queues[level], pid, front), x);
    CountPushed(s.queues[level], pid, front, x);
  }

  lemma PopCount(s: State, x: int)
    requires s.pcp == Choosing && Entries(s.queues) != 0
    ensures InQueues(PopBest(s).queues, x) + One(x == PopBest(s).pcp.pid) == InQueues(s.queues, x)
  {
    hide InQueues, Entries;
    var k := FirstLevel(s.queues);
    QueueUpdate(s.queues, k, s.queues[k][1..], x);
    assert Count(s.queues[k], x) == One(s.queues[k][0] == x) + Count(s.queues[k][1..], x);
  }

  lemma PopKeeps(s: State)
    requires Inv(s) && s.pcp == Choosing
    ensures Inv(PopBest(s))
    ensures Entries(s.queues) == 0 ==> NoneMoves(s, PopBest(s))
    ensures Entries(s.queues) != 0 ==> Goes(s, PopBest(s), s.queues[FirstLevel(s.queues)][0], InReady, Dispatching)
  {
    hide Inv, Count, InQueues, InSlots, Entries, FirstLevel;
    var s' := PopBest(s);
    if Entries(s.queues) == 0 {
      forall x ensures Untouched(s, s', x) {}
      AllUntouched(s, s');
    } else {
      var pid := s'.pcp.pid;
      forall x ensures InQueues(s'.queues, x) + One(x == pid) == InQueues(s.queues, x) { PopCount(s, x); }
      Known(s, pid, InReady);
      Transfer(s, s', pid, InReady, Dispatching);
    }
  }

  lemma RequeueKeeps(s: State, a: Action)
    requires Inv(s) && a.Requeue? && Enabled(s, a)
    ensures Inv(Apply(s, a))
    ensures Goes(s, Apply(s, a), s.pcp.pid, Dispatching, InReady)
  {
    hide Inv, Count, InQueues, InSlots, SomeFree;
    var s', pid := Apply(s, a), s.pcp.pid;
    forall x ensures InQueues(s'.queues, x) == InQueues(s.queues, x) + One(x == pid) { QueueCount(s, pid, a.level, a.front, x); }
    Known(s, pid, Dispatching);
    assert Shifts(s, s', pid, Dispatching, InReady);
    Transfer(s, s', pid, Dispatching, InReady);
  }

  lemma PushKeeps(s: State, pid: int, level: nat)
    requires Inv(s) && Enabled(s, Push(pid, level))
    ensures Inv(Apply(s, Push(pid, level)))
    ensures Goes(s, Apply(s, Push(pid, level)), pid, Queueing, InReady)
  {
    hide Inv, Count, InQueues, InSlots, Remove;
    var s1 := s.(readied := Remove(s.readied, pid));
    var s' := Queue(s1, pid, level, false);
    forall x
      ensures InQueues(s'.queues, x) == InQueues(s.queues, x) + One(x == pid)
      ensures Count(s'.readied, x) + One(x == pid) == Count(s.readied, x)
    {
      QueueCount(s1, pid, level, false, x);
      Removed(s.readied, pid, x);
    }
    Known(s, pid, Queueing);
    assert Shifts(s, s', pid, Queueing, InReady);
    Transfer(s, s', pid, Queueing, InReady);
  }

  lemma Removed(q: seq<int>, pid: int, x: int)
    requires pid in q
    ensures Count(Remove(q, pid), x) + One(x == pid) == Count(q, x)
  {
    hide Remove;
    CountRemove(q, pid, x);
    CountIn(q, pid);
  }

  lemma Added(q: seq<int>, pid: int, x: int)
    ensures Count(q + [pid], x) == Count(q, x) + One(x == pid)
  {
    CountPushed(q, pid, false, x);
  }

  lemma MoveKeeps(s: State, pid: int, from: nat, to: nat)
    requires Inv(s) && Enabled(s, Move(pid, from, to))
    ensures Inv(MoveTo(s, pid, from, to))
    ensures NoneMoves(s, MoveTo(s, pid, from, to))
  {
    hide Inv, Count, InQueues, InSlots, Remove, Entries;
    var taken, s' := s.queues[from := Remove(s.queues[from], pid)], MoveTo(s, pid, from, to);
    forall x ensures Untouched(s, s', x) {
      Removed(s.queues[from], pid, x);
      QueueUpdate(s.queues, from, taken[from], x);
      CountPushed(taken[to], pid, false, x);
      QueueUpdate(taken, to, Pushed(taken[to], pid, false), x);
    }
    AllUntouched(s, s');
  }

  /* ---- the CPUs ---- */

  lemma SlotSpots(s: State, i: nat, c: Slot, x: int)
    requires i < |s.slots|
    ensures forall p ::
      InSlots(s.slots[i := c], p, x) + One(SlotHas(s.slots[i], p, x)) == InSlots(s.slots, p, x) + One(SlotHas(c, p, x))
  {
    hide InSlots, SlotHas;
    forall p
      ensures InSlots(s.slots[i := c], p, x) + One(SlotHas(s.slots[i], p, x)) == InSlots(s.slots, p, x) + One(SlotHas(c, p, x))
    {
      SlotUpdate(s.slots, i, c, p, x);
    }
  }

  /** One slot changes, and nothing else that concerns the places. */
  ghost predicate SlotOnly(s: State, s': State, i: nat, c: Slot) {
    && i < |s.slots| && s'.slots == s.slots[i := c]
    && s'.newcomers == s.newcomers && s'.admitting == s.admitting && s'.queues == s.queues && s'.blocked == s.blocked
    && s'.waiting == s.waiting && s'.served == s.served && s'.passed == s.passed && s'.restored == s.restored
    && s'.readied == s.readied && s'.listed == s.listed && s'.marking == s.marking && s'.dumping == s.dumping
    && s'.dumped == s.dumped && s'.pcp == s.pcp
  }

  lemma SlotHere(s: State, s': State, i: nat, c: Slot, pid: int, from: Spot, to: Spot, x: int, q: Spot)
    requires SlotOnly(s, s', i, c) && from in {OnCpu, InHand} && to in {OnCpu, InHand, BoundForReady, BoundForBlock, BoundForExit}
    requires One(SlotHas(c, q, x)) + One(x == pid && q == from) == One(SlotHas(s.slots[i], q, x)) + One(x == pid && q == to)
    requires Here(s', Parked, x) == Here(s, Parked, x)
    ensures Here(s', q, x) + One(x == pid && q == from) == Here(s, q, x) + One(x == pid && q == to)
  {
    hide Count, InQueues, InSlots, SlotHas;
    SlotSpots(s, i, c, x);
  }

  /** A process that is not suspended changes its place within the slot of a CPU. */
  lemma SlotMoves(s: State, s': State, i: nat, c: Slot, pid: int, from: Spot, to: Spot)
    requires Inv(s) && SlotOnly(s, s', i, c) && from != to && 0 < Here(s, from, pid)
    requires forall x, p :: One(SlotHas(c, p, x)) + One(x == pid && p == from) == One(SlotHas(s.slots[i], p, x)) + One(x == pid && p == to)
    requires forall x :: x != pid ==> (x in s'.labels <==> x in s.labels) && (x in s.labels ==> s'.labels[x] == s.labels[x])
    requires pid in s'.labels && Fits(to, s'.labels[pid], s.pcp == Sent(pid))
    requires from in {OnCpu, InHand} && to in {OnCpu, InHand, BoundForReady, BoundForBlock, BoundForExit}
    ensures Inv(s')
    ensures Goes(s, s', pid, from, to)
  {
    hide Inv, SlotHas;
    Known(s, pid, from);
    forall x ensures Here(s', Parked, x) == Here(s, Parked, x) {
      assert Here(s, Parked, pid) == 0;
    }
    hide Here;
    forall x, q ensures Here(s', q, x) + One(x == pid && q == from) == Here(s, q, x) + One(x == pid && q == to) {
      SlotHere(s, s', i, c, pid, from, to, x, q);
    }
    Transfer(s, s', pid, from, to);
  }

  lemma SendKeeps(s: State)
    requires Inv(s) && s.pcp.Holding? && SomeFree(s.slots) && s.slots[FirstFree(s.slots)].current == None
    ensures Inv(SendTo(s))
    ensures Goes(s, SendTo(s), s.pcp.pid, Dispatching, OnCpu)
  {
    hide Inv, Count, InQueues, InSlots, SomeFree, FirstFree;
    var i, s', pid := FirstFree(s.slots), SendTo(s), s.pcp.pid;
    forall x, p ensures InSlots(s'.slots, p, x) == InSlots(s.slots, p, x) + One(x == pid && p == OnCpu) {
      SlotSpots(s, i, s'.slots[i], x);
    }
    hide SlotHas;
    Known(s, pid, Dispatching);
    assert Shifts(s, s', pid, Dispatching, OnCpu);
    Transfer(s, s', pid, Dispatching, OnCpu);
  }

  lemma ReturnKeeps(s: State, i: nat, reserve: bool)
    requires Inv(s) && Enabled(s, Return(i, reserve))
    ensures Inv(TakeOff(s, i, reserve))
    ensures Goes(s, TakeOff(s, i, reserve), s.slots[i].current.value, OnCpu, InHand)
  {
    var s', pid := TakeOff(s, i, reserve), s.slots[i].current.value;
    hide Inv, Count, InQueues, InSlots, TimersOk;
    SlotSeen(s, i, OnCpu, pid);
    Known(s, pid, OnCpu);
    hide Here;
    SlotMoves(s, s', i, s'.slots[i], pid, OnCpu, InHand);
  }

  lemma BackKeeps(s: State, i: nat)
    requires Inv(s) && Enabled(s, BackToCpu(i))
    ensures Inv(GiveBack(s, i))
    ensures Goes(s, GiveBack(s, i), s.slots[i].hand.value, InHand, OnCpu)
  {
    var s', pid := GiveBack(s, i), s.slots[i].hand.value;
    hide Inv, Count, InQueues, InSlots, TimersOk;
    SlotSeen(s, i, InHand, pid);
    Known(s, pid, InHand);
    hide Here;
    SlotMoves(s, s', i, s'.slots[i], pid, InHand, OnCpu);
  }

  function BoundFor(goal: Goal): Spot {
    match goal
    case ToReady(_, _) => BoundForReady
    case ToExit => BoundForExit
    case _ => BoundForBlock
  }

  lemma DecidedSlot(c: Slot, goal: Goal)
    requires Deciding(c) && goal != Goal.Undecided
    ensures forall x, p ::
      (One(SlotHas(c.(goal := goal), p, x)) + One(x == c.hand.value && p == InHand)
       == One(SlotHas(c, p, x)) + One(x == c.hand.value && p == BoundFor(goal)))
  {}

  lemma DecideKeeps(s: State, i: nat, goal: Goal)
    requires Inv(s) && Enabled(s, Decide(i, goal))
    ensures Inv(DecideHand(s, i, goal))
    ensures Goes(s, DecideHand(s, i, goal), s.slots[i].hand.value, InHand, BoundFor(goal))
  {
    var s', pid := DecideHand(s, i, goal), s.slots[i].hand.value;
    hide Inv, Count, InQueues, InSlots, TimersOk;
    SlotSeen(s, i, InHand, pid);
    Known(s, pid, InHand);
    hide Here;
    DecidedSlot(s.slots[i], goal);
    hide SlotHas;
    SlotMoves(s, s', i, s'.slots[i], pid, InHand, BoundFor(goal));
  }

  /** The process leaves the hand of the thread, ... */
  lemma LetGoCount(s: State, i: nat, x: int, p: Spot)
    requires i < |s.slots| && s.slots[i].hand.Some? && s.slots[i].goal != Goal.Undecided
    ensures InSlots(LetGo(s, i).slots, p, x) + One(s.slots[i].hand == Some(x) && p == BoundFor(s.slots[i].goal)) == InSlots(s.slots, p, x)
  {
    hide InSlots;
    SlotSpots(s, i, LetGo(s, i).slots[i], x);
  }

  function TargetOf(goal: Goal): Spot {
    match goal
    case ToReady(_, _) => InReady
    case ToMutex(_) => OnMutex
    case _ => InBlock
  }

  /** ... and goes where it was bound for. */
  lemma SettledCount(s: State, i: nat, x: int)
    requires Decided(s, i) && !s.slots[i].goal.ToExit?
    ensures var s', pid, to := SettleHand(s, i), s.slots[i].hand.value, TargetOf(s.slots[i].goal);
            && InQueues(s'.queues, x) == InQueues(s.queues, x) + One(x == pid && to == InReady)
            && Count(s'.blocked, x) == Count(s.blocked, x) + One(x == pid && to == InBlock)
            && InQueues(s'.waiting, x) == InQueues(s.waiting, x) + One(x == pid && to == OnMutex)
  {
    hide Count, InQueues;
    var pid := s.slots[i].hand.value;
    match s.slots[i].goal
    case ToReady(level, front) => QueueCount(LetGo(s, i), pid, level, front, x);
    case ToBlock => Added(s.blocked, pid, x);
    case ToMutex(m) =>
      QueueUpdate(s.waiting, m, s.waiting[m] + [pid], x);
      Added(s.waiting[m], pid, x);
  }

  lemma SettledHere(s: State, i: nat, x: int, q: Spot)
    requires Decided(s, i) && !s.slots[i].goal.ToExit?
    ensures var pid, goal := s.slots[i].hand.value, s.slots[i].goal;
            Here(SettleHand(s, i), q, x) + One(x == pid && q == BoundFor(goal)) == Here(s, q, x) + One(x == pid && q == TargetOf(goal))
  {
    hide Count, InQueues, InSlots, SlotHas;
    LetGoCount(s, i, x, q);
    SettledCount(s, i, x);
    SettledRest(s, i);
    hide SettleHand, LetGo;
  }

  lemma SettlesIn(s: State, i: nat)
    requires Inv(s) && Decided(s, i) && !s.slots[i].goal.ToExit?
    ensures Inv(SettleHand(s, i))
    ensures Goes(s, SettleHand(s, i), s.slots[i].hand.value, BoundFor(s.slots[i].goal), TargetOf(s.slots[i].goal))
  {
    hide Inv, Here, LetGo;
    var s', pid := SettleHand(s, i), s.slots[i].hand.value;
    var from, to := BoundFor(s.slots[i].goal), TargetOf(s.slots[i].goal);
    forall x, q ensures Here(s', q, x) + One(x == pid && q == from) == Here(s, q, x) + One(x == pid && q == to) {
      SettledHere(s, i, x, q);
    }
    SettledRest(s, i);
    hide SettleHand, TimersOk;
    assert 0 < Here(s, from, pid);
    Known(s, pid, from);
    Transfer(s, s', pid, from, to);
  }

  lemma SettledRest(s: State, i: nat)
    requires Decided(s, i) && !s.slots[i].goal.ToExit?
    ensures var s' := SettleHand(s, i);
            s' == s.(slots := s'.slots, queues := s'.queues, blocked := s'.blocked, waiting := s'.waiting,
                     readyPosts := s'.readyPosts, cpuPosts := s'.cpuPosts)
  {}

  lemma Loosens(s: State, i: nat)
    requires i < |s.slots|
    ensures LetGo(s, i) == s.(slots := LetGo(s, i).slots, cpuPosts := LetGo(s, i).cpuPosts)
  {}

  /** A process that is removed was in one place, and is nowhere after. */
  lemma Gone(s: State, s': State, pid: int, from: Spot)
    requires Inv(s) && forall x :: x != pid ==> Untouched(s, s', x)
    requires forall q :: Here(s', q, pid) + One(q == from) == Here(s, q, pid)
    requires pid !in s'.labels && TimersOk(s', pid)
    ensures Inv(s')
    ensures Ends(s, s', pid, from)
  {
    hide Inv, Here, TimersOk, Untouched;
    assert 0 < Here(s, from, pid);
    Known(s, pid, from);
    forall q ensures Here(s', q, pid) == 0 {}
    Alone(s, s', pid);
    forall x, q | x != pid ensures Here(s', q, x) == Here(s, q, x) { UntouchedHere(s, s', x, q); }
  }

  lemma SettlesOut(s: State, i: nat)
    requires Inv(s) && Decided(s, i) && s.slots[i].goal.ToExit?
    ensures Inv(SettleHand(s, i))
    ensures Ends(s, SettleHand(s, i), s.slots[i].hand.value, BoundForExit)
  {
    hide Inv, Count, InQueues, InSlots, SlotHas, LetGo;
    var s', s1, pid, from := SettleHand(s, i), LetGo(s, i), s.slots[i].hand.value, BoundForExit;
    forall x, p ensures InSlots(s'.slots, p, x) + One(x == pid && p == from) == InSlots(s.slots, p, x) {
      LetGoCount(s, i, x, p);
    }
    assert 0 < InSlots(s.slots, from, pid);
    Loosens(s, i);
    Known(s, pid, from);
    assert Here(s, Parked, pid) == 0;
    Calm(s, s', pid);
    Gone(s, s', pid, from);
  }

  lemma SettleKeeps(s: State, i: nat)
    requires Inv(s) && Decided(s, i)
    ensures Inv(SettleHand(s, i))
    ensures s.slots[i].goal.ToExit? ==> Ends(s, SettleHand(s, i), s.slots[i].hand.value, BoundForExit)
    ensures !s.slots[i].goal.ToExit? ==> Goes(s, SettleHand(s, i), s.slots[i].hand.value, BoundFor(s.slots[i].goal), TargetOf(s.slots[i].goal))
  {
    hide Inv, SettleHand;
    if s.slots[i].goal.ToExit? { SettlesOut(s, i); } else { SettlesIn(s, i); }
  }

  lemma CpuTableKeeps(s: State, a: Action)
    requires Inv(s) && Enabled(s, a) && (a.Connect? || a.Disconnect?)
    ensures Inv(Apply(s, a))
    ensures NoneMoves(s, Apply(s, a))
  {
    hide Inv, Count, InQueues, InSlots;
    var s' := Apply(s, a);
    forall x, p ensures InSlots(s'.slots, p, x) == InSlots(s.slots, p, x) {
      match a
      case Connect => SlotAppend(s.slots, Slot(true, true, None, None, Goal.Undecided), p, x);
      case Disconnect(i) => SlotSpots(s, i, s'.slots[i], x);
    }
    hide SlotHas;
    forall x ensures Untouched(s, s', x) {}
    AllUntouched(s, s');
  }

  /* ---- the hands of the other threads ---- */

  lemma TakeNewKeeps(s: State)
    requires Inv(s) && s.newcomers != [] && s.admitting == None
    ensures Inv(Apply(s, TakeNew))
    ensures Goes(s, Apply(s, TakeNew), s.newcomers[0], InNew, FromNew)
  {
    hide Inv, InQueues, InSlots;
    var s', pid := Apply(s, TakeNew), s.newcomers[0];
    forall x ensures Count(s'.newcomers, x) + One(x == pid) == Count(s.newcomers, x) {}
    assert 0 < Count(s.newcomers, pid);
    hide Count, Apply;
    Known(s, pid, InNew);
    assert Shifts(s, s', pid, InNew, FromNew);
    Transfer(s, s', pid, InNew, FromNew);
  }

  /** In READY, and about to be queued. */
  lemma ReadiedHere(s: State, pid: int, x: int, q: Spot)
    requires pid in s.labels && Here(s, Parked, pid) == 0
    ensures Here(Readied(s, pid), q, x) == Here(s, q, x) + One(x == pid && q == Queueing)
  {
    hide Count, InQueues, InSlots;
    Added(s.readied, pid, x);
  }

  /** A thread that has taken the process from `from`, which left `taken`, puts it in READY. */
  lemma Readies(s: State, taken: State, pid: int, from: Spot)
    requires Inv(s) && taken == s.(admitting := taken.admitting, passed := taken.passed, served := taken.served, restored := taken.restored)
    requires forall x, q :: Here(taken, q, x) + One(x == pid && q == from) == Here(s, q, x)
    requires from != Queueing && from != Parked && Here(s, Parked, pid) == 0
    requires pid in s.labels && s.labels[pid] != SuspBlock && Count(s.marking, pid) == 0
    ensures Inv(Readied(taken, pid))
    ensures Goes(s, Readied(taken, pid), pid, from, Queueing)
  {
    hide Inv, Here, Count, InQueues, InSlots;
    var s' := Readied(taken, pid);
    assert Here(taken, Parked, pid) == 0;
    forall x, q ensures Here(s', q, x) + One(x == pid && q == from) == Here(s, q, x) + One(x == pid && q == Queueing) {
      ReadiedHere(taken, pid, x, q);
    }
    assert TimersOk(s', pid) by {
      Each(s, pid);
      assert Here(s', Parked, pid) == 0;
    }
    hide TimersOk, Readied;
    assert Fits(Queueing, Ready, s.pcp == Sent(pid));
    Displaced(s, s', pid, from, Queueing);
  }

  lemma AdmitKeeps(s: State)
    requires Inv(s) && s.admitting.Some?
    ensures Inv(Readied(s.(admitting := None), s.admitting.value))
    ensures Goes(s, Readied(s.(admitting := None), s.admitting.value), s.admitting.value, FromNew, Queueing)
  {
    hide Inv, Count, InQueues, InSlots, Readied;
    var taken, pid := s.(admitting := None), s.admitting.value;
    Known(s, pid, FromNew);
    assert Here(s, Parked, pid) == 0;
    forall x, q ensures Here(taken, q, x) + One(x == pid && q == FromNew) == Here(s, q, x) {}
    Readies(s, taken, pid, FromNew);
  }

  lemma HandOffKeeps(s: State, m: nat)
    requires Inv(s) && Enabled(s, HandOff(m))
    ensures Inv(Apply(s, HandOff(m)))
    ensures Goes(s, Apply(s, HandOff(m)), s.waiting[m][0], OnMutex, Passing)
  {
    hide Inv, InQueues, InSlots;
    var s', pid := Apply(s, HandOff(m)), s.waiting[m][0];
    forall x
      ensures InQueues(s'.waiting, x) + One(x == pid) == InQueues(s.waiting, x)
      ensures Count(s'.passed, x) == Count(s.passed, x) + One(x == pid)
    {
      QueueUpdate(s.waiting, m, s.waiting[m][1..], x);
      Added(s.passed, pid, x);
    }
    assert 0 < InQueues(s.waiting, pid);
    hide Count, Apply;
    Known(s, pid, OnMutex);
    assert Shifts(s, s', pid, OnMutex, Passing);
    Transfer(s, s', pid, OnMutex, Passing);
  }

  lemma PassKeeps(s: State, pid: int)
    requires Inv(s) && pid in s.passed
    ensures Inv(Readied(s.(passed := Remove(s.passed, pid)), pid))
    ensures Goes(s, Readied(s.(passed := Remove(s.passed, pid)), pid), pid, Passing, Queueing)
  {
    hide Inv, Count, InQueues, InSlots, Remove, Readied;
    var taken := s.(passed := Remove(s.passed, pid));
    CountIn(s.passed, pid);
    Known(s, pid, Passing);
    assert Here(s, Parked, pid) == 0;
    forall x, q ensures Here(taken, q, x) + One(x == pid && q == Passing) == Here(s, q, x) { Removed(s.passed, pid, x); }
    Readies(s, taken, pid, Passing);
  }

  lemma CreateKeeps(s: State, pid: int)
    requires Inv(s) && pid !in s.labels
    ensures Inv(Apply(s, Create(pid)))
    ensures Comes(s, Apply(s, Create(pid)), pid, InNew)
  {
    hide Inv, Count, InQueues, InSlots;
    var s' := Apply(s, Create(pid));
    forall x ensures Count(s'.newcomers, x) == Count(s.newcomers, x) + One(x == pid) { Added(s.newcomers, pid, x); }
    Each(s, pid);
    forall q ensures Here(s', q, pid) == One(q == InNew) {
      assert Here(s, q, pid) == 0;
    }
    assert Only(s', pid, InNew) && Fits(InNew, New, s'.pcp == Sent(pid));
    assert Here(s, Parked, pid) == 0;
    Calm(s, s', pid);
    forall x | x != pid ensures Untouched(s, s', x) {}
    Alone(s, s', pid);
  }

  /* ---- suspension ---- */

  /** A process that goes from one place to another while the timers of the others stay as they are. */
  lemma Displaced(s: State, s': State, pid: int, from: Spot, to: Spot)
    requires Inv(s) && from != to && s'.pcp == s.pcp
    requires forall x, q :: Here(s', q, x) + One(x == pid && q == from) == Here(s, q, x) + One(x == pid && q == to)
    requires forall x :: x != pid ==> (x in s'.labels <==> x in s.labels) && (x in s.labels ==> s'.labels[x] == s.labels[x])
    requires forall x :: x != pid ==> (x in s'.dumped <==> x in s.dumped) && Count(s'.listed, x) == Count(s.listed, x)
    requires forall x :: x != pid ==> Count(s'.marking, x) == Count(s.marking, x) && Count(s'.dumping, x) == Count(s.dumping, x)
    requires pid in s.labels && pid in s'.labels && Fits(to, s'.labels[pid], s.pcp == Sent(pid)) && TimersOk(s', pid)
    ensures Inv(s')
  {
    hide Inv, Here, Count, TimersOk, Fits;
    assert InPlace(s, pid) by { Each(s, pid); }
    assert Moves(s, s', pid, from, to);
    MovedPlace(s, s', pid, from, to);
    forall x | x != pid ensures Untouched(s, s', x) {}
    Alone(s, s', pid);
  }

  /** The same for a process that stays in the queue of blocked ones. */
  lemma StaysBlocked(s: State, s': State, pid: int)
    requires Inv(s) && 0 < Here(s, InBlock, pid) && s'.pcp == s.pcp
    requires forall x, q :: Here(s', q, x) == Here(s, q, x)
    requires forall x :: x != pid ==> (x in s'.labels <==> x in s.labels) && (x in s.labels ==> s'.labels[x] == s.labels[x])
    requires forall x :: x != pid ==> (x in s'.dumped <==> x in s.dumped) && Count(s'.listed, x) == Count(s.listed, x)
    requires forall x :: x != pid ==> Count(s'.marking, x) == Count(s.marking, x) && Count(s'.dumping, x) == Count(s.dumping, x)
    requires pid in s'.labels && Fits(InBlock, s'.labels[pid], s.pcp == Sent(pid)) && TimersOk(s', pid)
    ensures Inv(s')
    ensures NoneMoves(s, s')
  {
    hide Inv, Here, Count, TimersOk, Fits;
    Known(s, pid, InBlock);
    assert Only(s', pid, InBlock);
    forall x | x != pid ensures Untouched(s, s', x) {}
    Alone(s, s', pid);
  }

  lemma MarkKeeps(s: State, pid: int)
    requires Inv(s) && Enabled(s, Mark(pid))
    ensures Inv(Apply(s, Mark(pid)))
    ensures NoneMoves(s, Apply(s, Mark(pid)))
  {
    hide Inv, Count, InQueues, InSlots;
    var s' := Apply(s, Mark(pid));
    forall x ensures Count(s'.marking, x) == Count(s.marking, x) + One(x == pid) { Added(s.marking, pid, x); }
    CountIn(s.blocked, pid);
    Known(s, pid, InBlock);
    assert Here(s, AtWorker, pid) == 0 && Here(s, Parked, pid) == 0;
    StaysBlocked(s, s', pid);
  }

  /** A timer at work has its process in SUSP_BLOCK in the queue of blocked ones. */
  lemma AtWork(s: State, pid: int)
    requires Inv(s) && (pid in s.marking || pid in s.dumping)
    ensures pid in s.labels && s.labels[pid] == SuspBlock && 0 < Here(s, InBlock, pid) && pid !in s.dumped && TimersOk(s, pid)
    ensures Only(s, pid, InBlock)
  {
    hide Inv;
    Each(s, pid);
    CountIn(s.marking, pid);
    CountIn(s.dumping, pid);
    Known(s, pid, InBlock);
  }

  lemma ListKeeps(s: State, pid: int)
    requires Inv(s) && pid in s.marking
    ensures Inv(Apply(s, List(pid)))
    ensures NoneMoves(s, Apply(s, List(pid)))
  {
    hide Inv, Count, InQueues, InSlots, Remove;
    var s' := Apply(s, List(pid));
    AtWork(s, pid);
    forall x
      ensures Count(s'.marking, x) + One(x == pid) == Count(s.marking, x)
      ensures Count(s'.listed, x) == Count(s.listed, x) + One(x == pid)
      ensures Count(s'.dumping, x) == Count(s.dumping, x) + One(x == pid)
    {
      Removed(s.marking, pid, x);
      Added(s.listed, pid, x);
      Added(s.dumping, pid, x);
    }
    assert Here(s, AtWorker, pid) == 0;
    StaysBlocked(s, s', pid);
  }

  lemma FlagKeeps(s: State, pid: int)
    requires Inv(s) && pid in s.dumping
    ensures Inv(Apply(s, Flag(pid)))
    ensures NoneMoves(s, Apply(s, Flag(pid)))
  {
    hide Inv, Count, InQueues, InSlots, Remove;
    var s' := Apply(s, Flag(pid));
    AtWork(s, pid);
    CountIn(s.blocked, pid);
    forall x ensures Count(s'.dumping, x) + One(x == pid) == Count(s.dumping, x) { Removed(s.dumping, pid, x); }
    StaysBlocked(s, s', pid);
  }

  /** From the check of the timer until the dump is over the process cannot be taken out of the queue of blocked ones, and
      from then on it can: it is in SUSP_BLOCK and about to be listed, then listed and being dumped, then dumped. */
  lemma TimerHolds(s: State, a: Action)
    requires Inv(s) && Enabled(s, a) && (a.Mark? || a.List? || a.Flag?)
    ensures var s' := Apply(s, a);
            && Labelled(s', a.pid, SuspBlock) && a.pid in s'.blocked
            && (a.Mark? ==> a.pid in s'.marking && !Enabled(s', Extract(a.pid)))
            && (a.List? ==> a.pid in s'.listed && a.pid in s'.dumping && !Enabled(s', Extract(a.pid)))
            && (a.Flag? ==> Enabled(s', Extract(a.pid)))
  {
    hide Inv, Count, InQueues, InSlots, Remove;
    if a.Mark? {
      CountIn(s.blocked, a.pid);
      Known(s, a.pid, InBlock);
      assert (s.marking + [a.pid])[|s.marking|] == a.pid;
    } else {
      AtWork(s, a.pid);
      CountIn(s.blocked, a.pid);
      if a.List? {
        assert (s.listed + [a.pid])[|s.listed|] == a.pid && (s.dumping + [a.pid])[|s.dumping|] == a.pid;
      }
    }
  }

  lemma ExtractKeeps(s: State, pid: int)
    requires Inv(s) && Enabled(s, Extract(pid))
    ensures Inv(Apply(s, Extract(pid)))
    ensures Goes(s, Apply(s, Extract(pid)), pid, InBlock, AtWorker)
  {
    hide Inv, Count, InQueues, InSlots, Remove;
    var s' := Apply(s, Extract(pid));
    forall x
      ensures Count(s'.blocked, x) + One(x == pid) == Count(s.blocked, x)
      ensures Count(s'.served, x) == Count(s.served, x) + One(x == pid)
    {
      Removed(s.blocked, pid, x);
      Added(s.served, pid, x);
    }
    Known(s, pid, InBlock);
    assert Here(s, InBlock, pid) == 1;
    Displaced(s, s', pid, InBlock, AtWorker);
  }

  lemma ServeKeeps(s: State, pid: int)
    requires Inv(s) && pid in s.served
    ensures Inv(ServeOne(s, pid))
    ensures Goes(s, ServeOne(s, pid), pid, AtWorker, if Labelled(s, pid, SuspBlock) then Parked else Queueing)
  {
    hide Inv, Count, InQueues, InSlots, Remove, Readied;
    var taken := s.(served := Remove(s.served, pid));
    CountIn(s.served, pid);
    Known(s, pid, AtWorker);
    assert Here(s, InBlock, pid) == 0 && Here(s, Parked, pid) == 0;
    forall x, q ensures Here(taken, q, x) + One(x == pid && q == AtWorker) == Here(s, q, x) { Removed(s.served, pid, x); }
    if Labelled(s, pid, SuspBlock) {
      ParkKeeps(s, taken, pid);
    } else {
      Readies(s, taken, pid, AtWorker);
    }
  }

  /** Put in SUSP_READY, the process is left to the suspended list. */
  lemma ParkKeeps(s: State, taken: State, pid: int)
    requires Inv(s) && Labelled(s, pid, SuspBlock) && taken == s.(served := taken.served) && 0 < Here(s, AtWorker, pid)
    requires forall x, q :: Here(taken, q, x) + One(x == pid && q == AtWorker) == Here(s, q, x)
    ensures Inv(Label(taken, pid, SuspReady))
    ensures Goes(s, Label(taken, pid, SuspReady), pid, AtWorker, Parked)
  {
    hide Inv, Count, InQueues, InSlots;
    var s' := Label(taken, pid, SuspReady);
    Known(s, pid, AtWorker);
    assert Here(s, InBlock, pid) == 0 && Here(s, AtWorker, pid) == 1 && Count(s.listed, pid) == 1;
    forall x, q ensures Here(s', q, x) + One(x == pid && q == AtWorker) == Here(s, q, x) + One(x == pid && q == Parked) {
      assert Here(taken, q, x) + One(x == pid && q == AtWorker) == Here(s, q, x);
    }
    assert TimersOk(s', pid);
    hide Here, TimersOk;
    Displaced(s, s', pid, AtWorker, Parked);
  }

  lemma EndServedKeeps(s: State, pid: int)
    requires Inv(s) && Enabled(s, EndServed(pid))
    ensures Inv(Apply(s, EndServed(pid)))
    ensures Ends(s, Apply(s, EndServed(pid)), pid, AtWorker)
  {
    hide Inv, Count, InQueues, InSlots, Remove;
    var s' := Apply(s, EndServed(pid));
    forall x
      ensures Count(s'.served, x) + One(x == pid) == Count(s.served, x)
      ensures Count(s'.listed, x) + One(x == pid && 0 < Count(s.listed, x)) == Count(s.listed, x)
    {
      Removed(s.served, pid, x);
      CountRemove(s.listed, pid, x);
    }
    Known(s, pid, AtWorker);
    assert Here(s, Parked, pid) == 0;
    Gone(s, s', pid, AtWorker);
  }

  lemma DelistKeeps(s: State, pid: int)
    requires Inv(s) && Enabled(s, Delist(pid))
    ensures Inv(Apply(s, Delist(pid)))
    ensures Goes(s, Apply(s, Delist(pid)), pid, Parked, Restoring)
  {
    hide Inv, Count, InQueues, InSlots, Remove;
    var s' := Apply(s, Delist(pid));
    forall x ensures Count(s'.listed, x) + One(x == pid) == Count(s.listed, x) { Removed(s.listed, pid, x); }
    Known(s, pid, Parked);
    assert Here(s, Parked, pid) == 1;
    Displaced(s, s', pid, Parked, Restoring);
  }

  lemma RestoreKeeps(s: State)
    requires Inv(s) && s.restored.Some?
    ensures Inv(Readied(s.(restored := None), s.restored.value))
    ensures Goes(s, Readied(s.(restored := None), s.restored.value), s.restored.value, Restoring, Queueing)
  {
    hide Inv, Count, InQueues, InSlots, Readied;
    var taken, pid := s.(restored := None), s.restored.value;
    Known(s, pid, Restoring);
    assert Here(s, Parked, pid) == 0;
    forall x, q ensures Here(taken, q, x) + One(x == pid && q == Restoring) == Here(s, q, x) {}
    Readies(s, taken, pid, Restoring);
  }

  lemma EndRestoredKeeps(s: State)
    requires Inv(s) && s.restored.Some?
    ensures Inv(Apply(s, EndRestored))
    ensures Ends(s, Apply(s, EndRestored), s.restored.value, Restoring)
  {
    hide Inv, Count, InQueues, InSlots;
    var s', pid := Apply(s, EndRestored), s.restored.value;
    Known(s, pid, Restoring);
    assert Here(s, Parked, pid) == 0;
    Gone(s, s', pid, Restoring);
  }

  /* ---- the late EXEC ---- */

  lemma CpuSeen(s: State, x: int)
    ensures OnItsCpu(s.slots, x) <==> 0 < Here(s, OnCpu, x) || 0 < Here(s, InHand, x)
  {
    SlotSome(s.slots, OnCpu, x);
    SlotSome(s.slots, InHand, x);
  }

  lemma ExecUntouched(s: State, x: int)
    requires s.pcp.Sent? && x != s.pcp.pid
    ensures Untouched(s, Apply(s, WriteExec), x)
  {
    hide Count, InQueues, InSlots;
  }

  lemma ExecHere(s: State, q: Spot)
    requires s.pcp.Sent? && (s.pcp.pid in s.labels ==> Here(s, Parked, s.pcp.pid) == 0)
    ensures Here(Apply(s, WriteExec), q, s.pcp.pid) == Here(s, q, s.pcp.pid)
  {
    hide Count, InQueues, InSlots;
  }

  lemma ExecKeeps(s: State)
    requires Inv(s) && s.pcp.Sent? && Orderly(s, WriteExec)
    ensures Inv(Apply(s, WriteExec))
    ensures NoneMoves(s, Apply(s, WriteExec))
  {
    hide Inv, Here, OnItsCpu, Untouched;
    var s', pid := Apply(s, WriteExec), s.pcp.pid;
    Each(s, pid);
    forall x | x != pid ensures Untouched(s, s', x) { ExecUntouched(s, x); }
    if pid in s.labels {
      CpuSeen(s, pid);
      var p := if 0 < Here(s, OnCpu, pid) then OnCpu else InHand;
      Known(s, pid, p);
      assert Here(s, Parked, pid) == 0;
      forall q ensures Here(s', q, pid) == Here(s, q, pid) { ExecHere(s, q); }
      assert Only(s', pid, p) && Fits(p, s'.labels[pid], s'.pcp == Sent(pid));
      Calm(s, s', pid);
    } else {
      forall q ensures Here(s', q, pid) == Here(s, q, pid) { ExecHere(s, q); }
      Calm(s, s', pid);
    }
    hide TimersOk;
    Alone(s, s', pid);
    forall x, q ensures Here(s', q, x) == Here(s, q, x) {
      if x != pid { UntouchedHere(s, s', x, q); }
    }
  }

  /** If the process is not on its CPU, EXEC fits no place that it can be in. */
  lemma ExecBreaks(s: State)
    requires s.pcp.Sent? && !Orderly(s, WriteExec)
    ensures !Inv(Apply(s, WriteExec))
  {
    hide Count, InQueues, InSlots, OnItsCpu;
    var s', pid := Apply(s, WriteExec), s.pcp.pid;
    CpuSeen(s', pid);
    assert Here(s', OnCpu, pid) == 0 && Here(s', InHand, pid) == 0;
    hide Here, Apply, TimersOk;
    forall p ensures !(Only(s', pid, p) && Fits(p, Exec, false)) {
      assert Fits(p, Exec, false) ==> p == OnCpu || p == InHand;
    }
    assert !InPlace(s', pid);
  }

  /** Who moves with an action, and between which places. */
  ghost predicate Travels(s: State, a: Action, s': State)
    requires Enabled(s, a)
  {
    match a
    case Pop =>
      if Entries(s.queues) == 0 then NoneMoves(s, s')
      else Goes(s, s', s.queues[FirstLevel(s.queues)][0], InReady, Dispatching)
    case Send => Goes(s, s', s.pcp.pid, Dispatching, OnCpu)
    case Requeue(_, _, _) => Goes(s, s', s.pcp.pid, Dispatching, InReady)
    case Return(i, _) => Goes(s, s', s.slots[i].current.value, OnCpu, InHand)
    case BackToCpu(i) => Goes(s, s', s.slots[i].hand.value, InHand, OnCpu)
    case Decide(i, goal) => Goes(s, s', s.slots[i].hand.value, InHand, BoundFor(goal))
    case Settle(i) =>
      if s.slots[i].goal.ToExit? then Ends(s, s', s.slots[i].hand.value, BoundForExit)
      else Goes(s, s', s.slots[i].hand.value, BoundFor(s.slots[i].goal), TargetOf(s.slots[i].goal))
    case Create(pid) => Comes(s, s', pid, InNew)
    case TakeNew => Goes(s, s', s.newcomers[0], InNew, FromNew)
    case Admit => Goes(s, s', s.admitting.value, FromNew, Queueing)
    case Push(pid, _) => Goes(s, s', pid, Queueing, InReady)
    case Extract(pid) => Goes(s, s', pid, InBlock, AtWorker)
    case Serve(pid) => Goes(s, s', pid, AtWorker, if Labelled(s, pid, SuspBlock) then Parked else Queueing)
    case EndServed(pid) => Ends(s, s', pid, AtWorker)
    case Delist(pid) => Goes(s, s', pid, Parked, Restoring)
    case Restore => Goes(s, s', s.restored.value, Restoring, Queueing)
    case EndRestored => Ends(s, s', s.restored.value, Restoring)
    case HandOff(m) => Goes(s, s', s.waiting[m][0], OnMutex, Passing)
    case Pass(pid) => Goes(s, s', pid, Passing, Queueing)
    case _ => NoneMoves(s, s')
  }

  lemma ActionKeeps(s: State, a: Action)
    requires Inv(s) && Roused(s) && Enabled(s, a) && Orderly(s, a)
    ensures Inv(Apply(s, a))
    ensures Travels(s, a, Apply(s, a))
  {
    hide Inv, PopBest, SendTo, TakeOff, GiveBack, DecideHand, SettleHand, MoveTo, Queue, Readied, ServeOne, Label, OnItsCpu, Entries,
      Goes, Comes, Ends, NoneMoves, Remove;
    match a
    case Pop => PopKeeps(s);
    case Send => {
      assert SlotOk(s.slots[FirstFree(s.slots)]);
      SendKeeps(s);
    }
    case WriteExec => ExecKeeps(s);
    case Requeue(_, _, _) => RequeueKeeps(s, a);
    case Return(i, reserve) => ReturnKeeps(s, i, reserve);
    case BackToCpu(i) => BackKeeps(s, i);
    case Decide(i, goal) => DecideKeeps(s, i, goal);
    case Settle(i) => SettleKeeps(s, i);
    case Create(pid) => CreateKeeps(s, pid);
    case TakeNew => TakeNewKeeps(s);
    case Admit => AdmitKeeps(s);
    case Push(pid, level) => PushKeeps(s, pid, level);
    case Mark(pid) => MarkKeeps(s, pid);
    case List(pid) => ListKeeps(s, pid);
    case Flag(pid) => FlagKeeps(s, pid);
    case Extract(pid) => ExtractKeeps(s, pid);
    case Serve(pid) => ServeKeeps(s, pid);
    case EndServed(pid) => EndServedKeeps(s, pid);
    case Delist(pid) => DelistKeeps(s, pid);
    case Restore => RestoreKeeps(s);
    case EndRestored => EndRestoredKeeps(s);
    case HandOff(m) => HandOffKeeps(s, m);
    case Pass(pid) => PassKeeps(s, pid);
    case Move(pid, from, to) => MoveKeeps(s, pid, from, to);
    case Connect => CpuTableKeeps(s, a);
    case Disconnect(_) => CpuTableKeeps(s, a);
    case _ => QuietKeeps(s, a);
  }

  /* ---------- what holds of every orderly run ---------- */

  lemma {:induction false} NothingQueued(queues: seq<seq<int>>, x: int)
    requires forall k :: 0 <= k < |queues| ==> queues[k] == []
    ensures InQueues(queues, x) == 0
  {
    if queues != [] { NothingQueued(queues[1..], x); }
  }

  lemma InitialOk(levels: nat, mutexes: nat)
    ensures Inv(Initial(levels, mutexes))
  {
    var s := Initial(levels, mutexes);
    forall x ensures InPlace(s, x) && TimersOk(s, x) {
      NothingQueued(s.queues, x);
      NothingQueued(s.waiting, x);
    }
  }

  lemma {:induction false} Reachable(states: seq<State>, actions: seq<Action>, levels: nat, mutexes: nat, i: nat)
    requires OrderlyRun(states, actions, levels, mutexes) && i < |states|
    ensures Inv(states[i])
  {
    hide Enabled, Apply, Orderly, Inv, Initial;
    if i == 0 {
      InitialOk(levels, mutexes);
    } else {
      Reachable(states, actions, levels, mutexes, i - 1);
      AlwaysRoused(states, actions, levels, mutexes, i - 1);
      ActionKeeps(states[i - 1], actions[i - 1]);
    }
  }

  /** In an orderly run every action moves the process that it is about, from the one place to the other, and no other. */
  lemma EveryStepTravels(states: seq<State>, actions: seq<Action>, levels: nat, mutexes: nat, i: nat)
    requires OrderlyRun(states, actions, levels, mutexes) && i < |actions|
    ensures Travels(states[i], actions[i], states[i + 1])
  {
    hide Enabled, Apply, Orderly, Inv, Initial, Travels;
    Reachable(states, actions, levels, mutexes, i);
    AlwaysRoused(states, actions, levels, mutexes, i);
    ActionKeeps(states[i], actions[i]);
  }

  /** No step of any thread loses or duplicates a process: at every moment of an orderly run each live process is in exactly
      one place, once, and it is a place for its estado; and one that has ended is nowhere. */
  lemma Conserved(states: seq<State>, actions: seq<Action>, levels: nat, mutexes: nat, i: nat, pid: int)
    requires OrderlyRun(states, actions, levels, mutexes) && i < |states|
    ensures var s := states[i];
            if pid in s.labels then
              exists p :: Only(s, pid, p) && Fits(p, s.labels[pid], s.pcp == Sent(pid))
            else forall p :: Here(s, p, pid) == 0
  {
    hide OrderlyRun, Here, Fits, Inv;
    Reachable(states, actions, levels, mutexes, i);
    Each(states[i], pid);
  }

  /** Read from the estado: what is in EXEC is on a CPU; what is in SUSP_READY is in the suspended list once, or with the
      medium-term scheduler; what is in SUSP_BLOCK is once in the queue of blocked processes or out of it with an I/O
      worker, and in the suspended list once unless its timer has yet to list it; and nothing else is in that list. */
  lemma EstadoTells(states: seq<State>, actions: seq<Action>, levels: nat, mutexes: nat, i: nat, pid: int)
    requires OrderlyRun(states, actions, levels, mutexes) && i < |states| && pid in states[i].labels
    ensures var s, e := states[i], states[i].labels[pid];
            && (e == Exec ==> OnItsCpu(s.slots, pid))
            && (e == SuspReady ==> Count(s.listed, pid) + One(s.restored == Some(pid)) == 1)
            && (e == SuspBlock ==> Count(s.blocked, pid) + Count(s.served, pid) == 1 && Count(s.listed, pid) + Count(s.marking, pid) == 1)
            && (pid in s.listed ==> e == SuspBlock || e == SuspReady)
  {
    hide OrderlyRun, Inv, Count, InQueues, InSlots, OnItsCpu;
    var s := states[i];
    Reachable(states, actions, levels, mutexes, i);
    Each(s, pid);
    CpuSeen(s, pid);
    CountIn(s.listed, pid);
    var p :| Only(s, pid, p) && Fits(p, s.labels[pid], s.pcp == Sent(pid));
    assert Here(s, p, pid) == 1 && Here(s, Parked, pid) == One(p == Parked) && Here(s, Restoring, pid) == One(p == Restoring);
    assert Here(s, InBlock, pid) == One(p == InBlock) && Here(s, AtWorker, pid) == One(p == AtWorker);
  }

  /** The order of the late EXEC is exactly what this takes. */
  lemma RunExact(states: seq<State>, actions: seq<Action>, levels: nat, mutexes: nat)
    requires Run(states, actions, levels, mutexes)
    ensures OrderlyRun(states, actions, levels, mutexes) <==> forall i :: 0 <= i < |states| ==> Inv(states[i])
  {
    hide Enabled, Apply, Orderly, Inv, Initial;
    if OrderlyRun(states, actions, levels, mutexes) {
      forall i | 0 <= i < |states| ensures Inv(states[i]) {
        Reachable(states, actions, levels, mutexes, i);
      }
    } else {
      var i :| 0 <= i < |actions| && !Orderly(states[i], actions[i]);
      OnlyExec(states[i], actions[i]);
      ExecBreaks(states[i]);
      assert !Inv(states[i + 1]);
    }
  }

  lemma OnlyExec(s: State, a: Action)
    requires Enabled(s, a) && !Orderly(s, a)
    ensures a == WriteExec && s.pcp.Sent?
  {}

  /* ---------- the race happens ---------- */

  ghost predicate Reached(s: State) {
    exists states, actions :: OrderlyRun(states, actions, 1, 0) && states[|actions|] == s
  }

  lemma Next(s: State, a: Action, s': State)
    requires Reached(s) && Enabled(s, a) && Orderly(s, a) && s' == Apply(s, a)
    ensures Reached(s')
  {
    hide Enabled, Orderly, Apply, Initial;
    var states, actions :| OrderlyRun(states, actions, 1, 0) && states[|actions|] == s;
    var longer, more := states + [s'], actions + [a];
    assert OrderlyRun(longer, more, 1, 0) && longer[|more|] == s';
  }

  const START: State := Initial(1, 0).(queues := [[]])

  lemma ReachedStart()
    ensures Reached(START)
  {
    var none: seq<Action> := [];
    assert Initial(1, 0).queues == [[]];
    assert OrderlyRun([START], none, 1, 0) && [START][|none|] == START;
  }

  const TAKEN: State := START.(labels := map[1 := New], admitting := Some(1))

  lemma ReachedTaken()
    ensures Reached(TAKEN)
  {
    hide Reached;
    ReachedNew();
    Next(START.(labels := map[1 := New], newcomers := [1]), TakeNew, TAKEN);
  }

  lemma ReachedNew()
    ensures Reached(START.(labels := map[1 := New], newcomers := [1]))
  {
    hide Reached;
    ReachedStart();
    Next(START, Create(1), START.(labels := map[1 := New], newcomers := [1]));
  }

  const QUEUED: State := START.(labels := map[1 := Ready], queues := [[1]], readyPosts := 1)

  lemma ReachedQueued()
    ensures Reached(QUEUED)
  {
    hide Reached;
    ReachedReadied();
    PushedOne();
    Next(START.(labels := map[1 := Ready], readied := [1]), Push(1, 0), QUEUED);
  }

  lemma ReachedReadied()
    ensures Reached(START.(labels := map[1 := Ready], readied := [1]))
  {
    hide Reached;
    ReachedTaken();
    var s3 := START.(labels := map[1 := Ready], readied := [1]);
    assert TAKEN.labels[1 := Ready] == s3.labels && TAKEN.readied + [1] == [1];
    Next(TAKEN, Admit, s3);
  }

  lemma PushedOne()
    ensures [[]][0 := Pushed([], 1, false)] == [[1]]
  {
    var none: seq<int> := [];
    assert none + [1] == [1];
  }

  const IDLE := Slot(true, true, None, None, Goal.Undecided)

  const ROUSED: State := QUEUED.(slots := [IDLE], cpuPosts := 1, readyTokens := 1)

  lemma ReachedRoused()
    ensures Reached(ROUSED)
  {
    hide Reached;
    ReachedQueued();
    var s1 := QUEUED.(slots := [IDLE], cpuPosts := 1);
    assert QUEUED.slots + [IDLE] == [IDLE];
    Next(QUEUED, Connect, s1);
    Next(s1, ExtraReady, ROUSED);
  }

  const CHOOSING: State := ROUSED.(readyTokens := 0, pcp := Choosing)

  lemma ReachedChoosing()
    ensures Reached(CHOOSING)
  {
    hide Reached;
    ReachedRoused();
    var s3 := ROUSED.(readyTokens := 0, pcp := Awake);
    Next(ROUSED, TakeToken, s3);
    assert Free(s3.slots[0]) && SomeFree(s3.slots);
    Next(s3, SeeCpu, CHOOSING);
  }

  const SENT: State := CHOOSING.(queues := [[]], slots := [IDLE.(available := false, current := Some(1))], pcp := Sent(1))

  lemma ReachedSent()
    ensures Reached(SENT)
  {
    hide Reached;
    ReachedChoosing();
    var s1 := CHOOSING.(queues := [[]], pcp := Holding(1));
    assert [1][1..] == [] && CHOOSING.queues[0 := []] == [[]] && Entries(CHOOSING.queues) == 1;
    Next(CHOOSING, Pop, s1);
    assert Free(s1.slots[0]) && SomeFree(s1.slots);
    assert s1.slots[0 := SENT.slots[0]] == SENT.slots;
    Next(s1, Send, SENT);
  }

  const BACK: State := SENT.(queues := [[1]], slots := [IDLE], readyPosts := 2, cpuPosts := 2)

  lemma ReachedDecided()
    ensures Reached(BACK.(queues := [[]], readyPosts := 1, slots := [IDLE.(hand := Some(1), goal := Goal.ToReady(0, false))]))
  {
    hide Reached;
    ReachedSent();
    var s1 := SENT.(slots := [IDLE.(hand := Some(1))], cpuPosts := 2);
    var s2 := SENT.(slots := [IDLE.(hand := Some(1), goal := Goal.ToReady(0, false))], cpuPosts := 2);
    assert SENT.slots[0 := s1.slots[0]] == s1.slots && s1.slots[0 := s2.slots[0]] == s2.slots;
    Next(SENT, Return(0, false), s1);
    assert s1.labels[1 := Ready] == s1.labels;
    Next(s1, Decide(0, Goal.ToReady(0, false)), s2);
  }

  lemma ReachedBack()
    ensures Reached(BACK)
  {
    hide Reached;
    ReachedDecided();
    var s2 := BACK.(queues := [[]], readyPosts := 1, slots := [IDLE.(hand := Some(1), goal := Goal.ToReady(0, false))]);
    assert s2.slots[0 := IDLE] == BACK.slots;
    PushedOne();
    Next(s2, Settle(0), BACK);
  }

  const LATE: State := BACK.(labels := map[1 := Exec], pcp := Top)

  lemma WrittenLate()
    ensures Enabled(BACK, WriteExec) && !Orderly(BACK, WriteExec) && Apply(BACK, WriteExec) == LATE
    ensures Labelled(LATE, 1, Exec) && LATE.queues == [[1]] && !OnItsCpu(LATE.slots, 1)
  {
    assert BACK.labels[1 := Exec] == LATE.labels;
  }

  lemma LastStep(s: State, a: Action) returns (states: seq<State>, actions: seq<Action>)
    requires Reached(s) && Enabled(s, a)
    ensures Run(states, actions, 1, 0) && states[|actions|] == Apply(s, a)
    ensures 0 < |actions| && states[|actions| - 1] == s && actions[|actions| - 1] == a
  {
    hide Enabled, Orderly, Apply, Initial;
    var before, done :| OrderlyRun(before, done, 1, 0) && before[|done|] == s;
    states, actions := before + [Apply(s, a)], done + [a];
  }

  /** The dispatcher has sent a process, the process has used its quantum and is in READY again, and only then does the
      dispatcher write EXEC: it is in EXEC and in a READY queue. */
  lemma LateExec() returns (states: seq<State>, actions: seq<Action>)
    ensures Run(states, actions, 1, 0) && !OrderlyRun(states, actions, 1, 0) && !Inv(states[|actions|])
    ensures var s := states[|actions|]; Labelled(s, 1, Exec) && s.queues == [[1]] && !OnItsCpu(s.slots, 1)
  {
    hide Inv, Reached, Run, Orderly, Apply, OnItsCpu;
    ReachedBack();
    WrittenLate();
    ExecBreaks(BACK);
    states, actions := LastStep(BACK, WriteExec);
  }
}
