/** Mutexes with priority inheritance (kernel_scheduler/src/globalesKernelScheduler.c and
    kernel_scheduler/src/utils_kernel_scheduler.c). A smaller number is a better priority. */
module Mutexes {
  import opened Words

  /** `waiting` is the place in the list of the mutex that the process is blocked on. */
  datatype Pcb = Pcb(base: int, dyn: int, waiting: Option<nat>)

  /** `owner` is -1 while the mutex is free. */
  datatype Mutex = Mutex(name: string, owner: int, queue: seq<int>)

  type Pcbs = map<int, Pcb>

  /** Process `q` is blocked on a mutex that `o` owns. */
  ghost predicate Waits(pcbs: Pcbs, ms: seq<Mutex>, q: int, o: int) {
    && q in pcbs && pcbs[q].waiting.Some? && pcbs[q].waiting.value < |ms|
    && ms[pcbs[q].waiting.value].owner == o
  }

  /** Processes and mutex queues agree about who waits for what. */
  ghost predicate Linked(pcbs: Pcbs, ms: seq<Mutex>) {
    && -1 !in pcbs
    && (forall i :: 0 <= i < |ms| ==> QueueOk(pcbs, ms[i], i))
    && (forall q :: q in pcbs && pcbs[q].waiting.Some? ==>
          pcbs[q].waiting.value < |ms| && q in ms[pcbs[q].waiting.value].queue)
  }

  ghost predicate QueueOk(pcbs: Pcbs, m: Mutex, i: int) {
    && (if m.owner == -1 then m.queue == [] else m.owner in pcbs)
    && (forall k :: 0 <= k < |m.queue| ==> m.queue[k] in pcbs && pcbs[m.queue[k]].waiting == Some(i))
    && (forall k, l :: 0 <= k < l < |m.queue| ==> m.queue[k] != m.queue[l])
  }

  /** `v` is the best of the base priority of `o` and the dynamic priorities of those waiting for it. */
  ghost predicate IsBest(pcbs: Pcbs, ms: seq<Mutex>, o: int, v: int)
    requires o in pcbs
  {
    && v <= pcbs[o].base
    && (forall q :: Waits(pcbs, ms, q, o) ==> v <= pcbs[q].dyn)
    && (v == pcbs[o].base || exists q :: Waits(pcbs, ms, q, o) && pcbs[q].dyn == v)
  }

  /** Every process, except possibly `e` and `f`, has the priority it should have. */
  ghost predicate BalancedBut(pcbs: Pcbs, ms: seq<Mutex>, e: int, f: int) {
    forall o :: o in pcbs && o != e && o != f ==> IsBest(pcbs, ms, o, pcbs[o].dyn)
  }

  ghost predicate Balanced(pcbs: Pcbs, ms: seq<Mutex>) {
    forall o :: o in pcbs ==> IsBest(pcbs, ms, o, pcbs[o].dyn)
  }

  /** Balanced once the one that `p` waits for has been given priority `v` as well. */
  ghost predicate Pending(pcbs: Pcbs, ms: seq<Mutex>, p: int, v: int) {
    forall o :: o in pcbs ==>
      IsBest(pcbs, ms, o, if Waits(pcbs, ms, p, o) && v < pcbs[o].dyn then v else pcbs[o].dyn)
  }

  /** The same processes in the same situation; some priorities were improved to `v`. */
  ghost predicate Improved(pcbs: Pcbs, pcbs0: Pcbs, v: int) {
    && pcbs.Keys == pcbs0.Keys
    && forall q :: q in pcbs ==> pcbs[q] == pcbs0[q] || (v < pcbs0[q].dyn && pcbs[q] == pcbs0[q].(dyn := v))
  }

  ghost function Worse(pcbs: Pcbs, v: int): set<int> {
    set q | q in pcbs && v < pcbs[q].dyn
  }

  function Named(ms: seq<Mutex>, name: string): (i: int)
    ensures -1 <= i < |ms|
    ensures 0 <= i ==> ms[i].name == name && forall k :: 0 <= k < i ==> ms[k].name != name
    ensures i == -1 ==> forall k :: 0 <= k < |ms| ==> ms[k].name != name
  {
    if ms == [] then -1
    else
      var n := |ms| - 1;
      var r := Named(ms[..n], name);
      if 0 <= r then r else if ms[n].name == name then n else -1
  }

  class Scheduler {
    var pcbs: Pcbs
    var mutexes: seq<Mutex>

    ghost predicate Valid()
      reads this
    {
      Linked(pcbs, mutexes) && Balanced(pcbs, mutexes)
    }

    constructor ()
      ensures Valid() && pcbs == map[] && mutexes == []
    {
      pcbs, mutexes := map[], [];
    }

    /** A new process starts with its base priority. */
    method CreateProcess(pid: int, priority: int)
      requires Valid() && pid !in pcbs && pid != -1
      modifies this`pcbs
      ensures Valid() && pcbs == old(pcbs)[pid := Pcb(priority, priority, None)]
    {
      NewcomerBalanced(pcbs, mutexes, pid, Pcb(priority, priority, None));
      pcbs := pcbs[pid := Pcb(priority, priority, None)];
    }

    /** buscar_mutex_por_nombre. */
    method Find(name: string) returns (i: int)
      ensures i == Named(mutexes, name)
    {
      i := 0;
      while i < |mutexes|
        invariant 0 <= i <= |mutexes|
        invariant forall k :: 0 <= k < i ==> mutexes[k].name != name
      {
        if mutexes[i].name == name { return; }
        i := i + 1;
      }
      i := -1;
    }

    /** manejar_syscall_mutex_create: nothing happens if there is one of that name. */
    method CreateMutex(name: string)
      requires Valid()
      modifies this`mutexes
      ensures Valid()
      ensures mutexes == if Named(old(mutexes), name) < 0 then old(mutexes) + [Mutex(name, -1, [])] else old(mutexes)
      ensures 0 <= Named(mutexes, name)
    {
      var i := Find(name);
      if i < 0 {
        NewMutexBalanced(pcbs, mutexes, Mutex(name, -1, []));
        mutexes := mutexes + [Mutex(name, -1, [])];
        assert mutexes[|mutexes| - 1].name == name;
      }
    }

    /** manejar_syscall_mutex_lock: takes a free mutex; blocks on one that is taken, even by the caller itself,
        and lends its priority to the owner, to the one the owner waits for, and so on. */
    method Lock(pid: int, name: string) returns (blocked: bool)
      requires Valid() && pid in pcbs && pcbs[pid].waiting == None
      modifies this
      ensures Valid()
      ensures var i := Named(mutexes, name);
              var before := if Named(old(mutexes), name) < 0 then old(mutexes) + [Mutex(name, -1, [])] else old(mutexes);
              && 0 <= i < |before| && |mutexes| == |before|
              && (blocked <==> before[i].owner != -1)
              && (!blocked ==> pcbs == old(pcbs) && mutexes == before[i := before[i].(owner := pid)])
              && (blocked ==> mutexes == before[i := before[i].(queue := before[i].queue + [pid])]
                              && Improved(pcbs, old(pcbs)[pid := old(pcbs)[pid].(waiting := Some(i))], old(pcbs)[pid].dyn))
    {
      hide Linked, Balanced, Named, Improved, Pending;
      CreateMutex(name);
      var i := Find(name);
      var m := mutexes[i];
      if m.owner == -1 {
        TakenBalanced(pcbs, mutexes, i, pid);
        SameNames(mutexes, mutexes[i := m.(owner := pid)], name);
        mutexes := mutexes[i := m.(owner := pid)];
        return false;
      }
      SameNames(mutexes, mutexes[i := m.(queue := m.queue + [pid])], name);
      BlockOn(pid, i);
      blocked := true;
    }

    /** The rest of manejar_syscall_mutex_lock once it has read that mutex `i` is taken. No lock covers that reading and
        this: it is in order exactly if the mutex is still taken. If not, the process is left in the queue of a free
        mutex, and propagar_herencia_prioridad has nobody to go to. */
    method BlockOn(pid: int, i: nat)
      requires Valid() && pid in pcbs && pcbs[pid].waiting == None && i < |mutexes|
      modifies this
      ensures mutexes == old(mutexes)[i := old(mutexes)[i].(queue := old(mutexes)[i].queue + [pid])]
      ensures Valid() <==> old(mutexes)[i].owner != -1
      ensures var blocked := old(pcbs)[pid := old(pcbs)[pid].(waiting := Some(i))];
              if old(mutexes)[i].owner == -1 then pcbs == blocked else Improved(pcbs, blocked, old(pcbs)[pid].dyn)
    {
      hide Linked, Balanced, Improved, Pending;
      var m := mutexes[i];
      if m.owner != -1 {
        BlockedPending(pcbs, mutexes, i, pid);
      } else {
        WaitsForNobody(pcbs[pid := pcbs[pid].(waiting := Some(i))], mutexes, i, pid);
      }
      pcbs := pcbs[pid := pcbs[pid].(waiting := Some(i))];
      mutexes := mutexes[i := m.(queue := m.queue + [pid])];
      if m.owner != -1 { Propagate(pid, pcbs[pid].dyn); }
    }

    /** propagar_herencia_prioridad. The wait-for graph may have cycles; each round leaves fewer processes with a
        worse priority than `v`. */
    method Propagate(pid: int, v: int)
      requires Linked(pcbs, mutexes) && pid in pcbs && Pending(pcbs, mutexes, pid, v)
      modifies this`pcbs
      ensures Valid() && Improved(pcbs, old(pcbs), v)
      decreases Worse(pcbs, v)
    {
      hide Linked, Balanced, IsBest, Pending, Improved, Worse, Waits;
      PendingEnds(pcbs, mutexes, pid, v);
      if pcbs[pid].waiting == None { return; }
      var m := mutexes[pcbs[pid].waiting.value];
      if m.owner == -1 { return; }
      if m.owner !in pcbs { return; }
      var o := m.owner;
      if v < pcbs[o].dyn {
        Lent(pcbs, mutexes, pid, o, v);
        FewerWorse(pcbs, o, v);
        pcbs := pcbs[o := pcbs[o].(dyn := v)];
        PendingEnds(pcbs, mutexes, o, v);
        ghost var lent := pcbs;
        if pcbs[o].waiting != None {
          Propagate(o, v);
          ImprovedFurther(pcbs, lent, old(pcbs), o, v);
        }
      }
    }

    /** recalcular_prioridad_dinamica. */
    method Recalculate(pid: int)
      requires Linked(pcbs, mutexes) && pid in pcbs
      modifies this`pcbs
      ensures pid in pcbs && IsBest(old(pcbs), mutexes, pid, pcbs[pid].dyn)
      ensures pcbs == old(pcbs)[pid := old(pcbs)[pid].(dyn := pcbs[pid].dyn)]
    {
      var best := pcbs[pid].base;
      var i := 0;
      while i < |mutexes|
        invariant 0 <= i <= |mutexes| && pcbs == old(pcbs) && best <= pcbs[pid].base
        invariant forall q :: Waits(pcbs, mutexes, q, pid) && pcbs[q].waiting.value < i ==> best <= pcbs[q].dyn
        invariant best == pcbs[pid].base || exists q :: Waits(pcbs, mutexes, q, pid) && pcbs[q].dyn == best
      {
        assert QueueOk(pcbs, mutexes[i], i);
        if mutexes[i].owner == pid {
          best := BestInQueue(pid, i, best);
        }
        i := i + 1;
      }
      if best != pcbs[pid].dyn {
        pcbs := pcbs[pid := pcbs[pid].(dyn := best)];
      }
    }

    /** The inner loop of recalcular_prioridad_dinamica. */
    method BestInQueue(pid: int, i: nat, best0: int) returns (best: int)
      requires i < |mutexes| && QueueOk(pcbs, mutexes[i], i) && mutexes[i].owner == pid
      ensures best <= best0
      ensures forall q :: q in mutexes[i].queue ==> best <= pcbs[q].dyn
      ensures best == best0 || exists q :: Waits(pcbs, mutexes, q, pid) && pcbs[q].dyn == best
    {
      best := best0;
      var j := 0;
      while j < |mutexes[i].queue|
        invariant 0 <= j <= |mutexes[i].queue| && best <= best0
        invariant forall k :: 0 <= k < j ==> best <= pcbs[mutexes[i].queue[k]].dyn
        invariant best == best0 || exists q :: Waits(pcbs, mutexes, q, pid) && pcbs[q].dyn == best
      {
        var q := mutexes[i].queue[j];
        if pcbs[q].dyn < best {
          best := pcbs[q].dyn;
          assert Waits(pcbs, mutexes, q, pid);
        }
        j := j + 1;
      }
    }

    /** manejar_syscall_mutex_unlock: only the owner can; the mutex goes to the one that has waited longest. */
    method Unlock(pid: int, name: string)
      requires Valid() && pid in pcbs && pcbs[pid].waiting == None
      modifies this
      ensures Valid()
      ensures var i := Named(old(mutexes), name);
              if i < 0 || old(mutexes)[i].owner != pid then mutexes == old(mutexes) && pcbs == old(pcbs)
              else HandedOff(mutexes, old(mutexes), i) && WokenBy(pcbs, old(pcbs), old(mutexes)[i].queue)
    {
      hide Linked, Balanced, Named, BalancedBut, IsBest;
      var i := Find(name);
      if i < 0 { return; }
      if mutexes[i].owner != pid { return; }
      BalancedMeans(pcbs, mutexes, pid);
      HandOff(pid, i);
      ghost var pcbs1 := pcbs;
      EitherOrder(pcbs, mutexes, pid, -1);
      Recalculate(pid);
      Rebalanced(pcbs1, mutexes, pid, pcbs[pid].dyn, -1);
    }

    /** Gives mutex `i` of process `pid` to the next in its queue, and that one its priority; or frees it. */
    method HandOff(pid: int, i: nat)
      requires Linked(pcbs, mutexes) && BalancedBut(pcbs, mutexes, pid, -1)
      requires pid in pcbs && pcbs[pid].waiting == None && i < |mutexes| && mutexes[i].owner == pid
      modifies this
      ensures Linked(pcbs, mutexes) && BalancedBut(pcbs, mutexes, pid, -1)
      ensures HandedOff(mutexes, old(mutexes), i)
      ensures WokenBy(pcbs, old(pcbs), old(mutexes)[i].queue) && pcbs[pid] == old(pcbs)[pid]
    {
      hide Linked, BalancedBut, IsBest;
      var m := mutexes[i];
      if m.queue != [] {
        var next := m.queue[0];
        NextIsBlocked(pcbs, mutexes, i, pid);
        HandOffKeeps(pcbs, mutexes, i, pid);
        mutexes := mutexes[i := Mutex(m.name, next, m.queue[1..])];
        pcbs := pcbs[next := pcbs[next].(waiting := None)];
        ghost var pcbs1 := pcbs;
        Recalculate(next);
        Rebalanced(pcbs1, mutexes, next, pcbs[next].dyn, pid);
      } else {
        FreeingKeeps(pcbs, mutexes, i, pid);
        mutexes := mutexes[i := m.(owner := -1)];
      }
    }

    /** liberar_mutexes_de_proceso, and the removal of the process: every mutex it held is handed off or freed. */
    method Terminate(pid: int)
      requires Valid() && pid in pcbs && pcbs[pid].waiting == None
      modifies this
      ensures Valid() && pcbs.Keys == old(pcbs).Keys - {pid}
      ensures forall q :: q in pcbs ==>
                && pcbs[q].base == old(pcbs)[q].base
                && pcbs[q].waiting == if NextOf(old(mutexes), old(pcbs)[q], q, pid, |mutexes|) then None else old(pcbs)[q].waiting
      ensures |mutexes| == |old(mutexes)|
      ensures forall i :: 0 <= i < |mutexes| ==>
                if old(mutexes)[i].owner == pid then HandedOff([mutexes[i]], [old(mutexes)[i]], 0) else mutexes[i] == old(mutexes)[i]
    {
      hide Linked, Balanced, BalancedBut, IsBest, WokenBy, WokenUpTo, HandedUpTo, HandedOff, NextOf, Others;
      BalancedMeans(pcbs, mutexes, pid);
      NoneYet(pcbs, mutexes, pid);
      var i := 0;
      while i < |mutexes|
        invariant 0 <= i <= |mutexes| == |old(mutexes)|
        invariant Linked(pcbs, mutexes) && BalancedBut(pcbs, mutexes, pid, -1)
        invariant pid in pcbs && pcbs[pid].waiting == None
        invariant WokenUpTo(pcbs, old(pcbs), old(mutexes), pid, i) && HandedUpTo(mutexes, old(mutexes), pid, i)
      {
        ghost var pcbs1, mutexes1 := pcbs, mutexes;
        NextUntouched(mutexes, old(mutexes), pid, i);
        if mutexes[i].owner == pid {
          NotOwnSuccessor(pcbs, mutexes, i, pid);
          HandOff(pid, i);
          WokenStep(pcbs, pcbs1, old(pcbs), old(mutexes), i, pid);
          HandedStep(mutexes, mutexes1, old(mutexes), pid, i);
        } else {
          var queue := Remaining(mutexes[i].queue, pid);
          NotInQueue(pcbs, mutexes, i, pid);
          mutexes := mutexes[i := mutexes[i].(queue := queue)];
          assert mutexes == mutexes1;
          NotItsOwn(pcbs, old(pcbs), mutexes, old(mutexes), pid, i);
        }
        i := i + 1;
      }
      AllHanded(pcbs, old(pcbs), mutexes, old(mutexes), pid);
      Removed(pcbs, mutexes, pid);
      pcbs := map q | q in pcbs && q != pid :: pcbs[q];
    }
  }

  /** Two CPUs serve their processes at once. Process 1 holds a mutex; LOCK of process 2 reads that it is taken; UNLOCK of
      process 1 finds nobody waiting and frees it; and only then does process 2 enter its queue. */
  method LateWaiter() returns (s: Scheduler, taken: bool)
    ensures taken && !s.Valid()
    ensures |s.mutexes| == 1 && s.mutexes[0].owner == -1 && s.mutexes[0].queue == [2]
    ensures 2 in s.pcbs && s.pcbs[2].waiting == Some(0)
  {
    hide Linked, Balanced, Improved;
    s := new Scheduler();
    s.CreateProcess(1, 0);
    s.CreateProcess(2, 0);
    var _ := s.Lock(1, "m");
    taken := s.mutexes[0].owner != -1;
    s.Unlock(1, "m");
    s.BlockOn(2, 0);
  }

  /** The loop that copies a queue without `pid`. */
  method Remaining(queue: seq<int>, pid: int) returns (r: seq<int>)
    ensures r == Others(queue, pid)
    ensures pid !in r
    ensures pid !in queue ==> r == queue
  {
    r := [];
    var left := queue;
    ghost var done: seq<int> := [];
    while left != []
      invariant queue == done + left && r == Others(done, pid)
    {
      var q := left[0];
      assert (done + [q])[..|done|] == done;
      done, left := done + [q], left[1..];
      if q != pid { r := r + [q]; }
    }
    assert done == queue;
    OthersAre(queue, pid);
  }

  function Others(queue: seq<int>, x: int): seq<int> {
    if queue == [] then []
    else
      var n := |queue| - 1;
      Others(queue[..n], x) + if queue[n] == x then [] else [queue[n]]
  }

  /** Everybody else is there, ... */
  lemma {:induction false} OthersAre(queue: seq<int>, x: int)
    ensures forall y :: y in Others(queue, x) <==> y in queue && y != x
    ensures x !in queue ==> Others(queue, x) == queue
  {
    if queue != [] {
      var n := |queue| - 1;
      OthersAre(queue[..n], x);
      assert queue == queue[..n] + [queue[n]];
    }
  }

  /** ... as often as before, ... */
  lemma {:induction false} OthersCount(queue: seq<int>, x: int, y: int)
    requires y != x
    ensures multiset(Others(queue, x))[y] == multiset(queue)[y]
  {
    if queue != [] {
      var n := |queue| - 1;
      OthersCount(queue[..n], x, y);
      assert queue == queue[..n] + [queue[n]];
    }
  }

  /** ... and in the same order. */
  lemma {:induction false} OthersInOrder(queue: seq<int>, x: int, i: nat, j: nat) returns (k: nat, l: nat)
    requires i < j < |Others(queue, x)|
    ensures k < l < |queue| && queue[k] == Others(queue, x)[i] && queue[l] == Others(queue, x)[j]
  {
    var n := |queue| - 1;
    var before := Others(queue[..n], x);
    if j < |before| {
      k, l := OthersInOrder(queue[..n], x, i, j);
    } else {
      OthersAre(queue[..n], x);
      assert before[i] in before;
      var m :| 0 <= m < n && queue[..n][m] == before[i];
      k, l := m, n;
    }
  }

  ghost predicate HandedOff(ms: seq<Mutex>, ms0: seq<Mutex>, i: nat) {
    && i < |ms0|
    && ms == ms0[i := if ms0[i].queue == [] then ms0[i].(owner := -1)
                      else Mutex(ms0[i].name, ms0[i].queue[0], ms0[i].queue[1..])]
  }

  /** The head of the queue no longer waits; nothing else about anyone changes but priorities. */
  ghost predicate WokenBy(pcbs: Pcbs, pcbs0: Pcbs, queue: seq<int>) {
    && pcbs.Keys == pcbs0.Keys
    && forall q :: q in pcbs ==>
         && pcbs[q].base == pcbs0[q].base
         && pcbs[q].waiting == if queue != [] && q == queue[0] then None else pcbs0[q].waiting
  }

  /** Process `q` is the next for one of the first `n` mutexes, and `pid` owns that one. */
  ghost predicate NextOf(ms: seq<Mutex>, p: Pcb, q: int, pid: int, n: int) {
    && p.waiting.Some? && p.waiting.value < n <= |ms|
    && ms[p.waiting.value].owner == pid && ms[p.waiting.value].queue != [] && ms[p.waiting.value].queue[0] == q
  }

  /** The successors in those of the first `n` mutexes that `pid` owns wait no more; all else is as it was but for
      priorities. */
  ghost predicate WokenUpTo(pcbs: Pcbs, pcbs0: Pcbs, ms0: seq<Mutex>, pid: int, n: int) {
    && pcbs.Keys == pcbs0.Keys
    && forall q :: q in pcbs ==>
         && pcbs[q].base == pcbs0[q].base
         && pcbs[q].waiting == if NextOf(ms0, pcbs0[q], q, pid, n) then None else pcbs0[q].waiting
  }

  /** Those of the first `n` mutexes that `pid` owned have been handed off, and no other has changed. */
  ghost predicate HandedUpTo(ms: seq<Mutex>, ms0: seq<Mutex>, pid: int, n: int) {
    && |ms| == |ms0|
    && (forall k :: 0 <= k < |ms| ==>
          if k < n && ms0[k].owner == pid then HandedOff([ms[k]], [ms0[k]], 0) else ms[k] == ms0[k])
    && (forall k :: 0 <= k < |ms| && k < n ==> ms[k].owner != pid)
  }

  lemma NoneYet(pcbs: Pcbs, ms: seq<Mutex>, pid: int)
    ensures WokenUpTo(pcbs, pcbs, ms, pid, 0) && HandedUpTo(ms, ms, pid, 0)
  {}

  lemma NextUntouched(ms: seq<Mutex>, ms0: seq<Mutex>, pid: int, i: nat)
    requires HandedUpTo(ms, ms0, pid, i) && i < |ms|
    ensures |ms| == |ms0| && ms[i] == ms0[i]
  {
    hide HandedOff;
  }

  lemma WokenStep(pcbs: Pcbs, pcbs1: Pcbs, pcbs0: Pcbs, ms0: seq<Mutex>, i: nat, pid: int)
    requires i < |ms0| && ms0[i].owner == pid && WokenBy(pcbs, pcbs1, ms0[i].queue)
    requires WokenUpTo(pcbs1, pcbs0, ms0, pid, i)
    requires ms0[i].queue != [] ==> ms0[i].queue[0] in pcbs1 && pcbs1[ms0[i].queue[0]].waiting == Some(i)
    ensures WokenUpTo(pcbs, pcbs0, ms0, pid, i + 1)
  {}

  lemma HandedStep(ms: seq<Mutex>, ms1: seq<Mutex>, ms0: seq<Mutex>, pid: int, i: nat)
    requires HandedUpTo(ms1, ms0, pid, i) && i < |ms1| && ms1[i].owner == pid && HandedOff(ms, ms1, i)
    requires pid != -1 && (ms1[i].queue != [] ==> ms1[i].queue[0] != pid)
    ensures HandedUpTo(ms, ms0, pid, i + 1)
  {
    forall k | 0 <= k < |ms| ensures if k < i + 1 && ms0[k].owner == pid then HandedOff([ms[k]], [ms0[k]], 0) else ms[k] == ms0[k] {
      assert k != i ==> ms[k] == ms1[k];
    }
  }

  lemma NotItsOwn(pcbs: Pcbs, pcbs0: Pcbs, ms: seq<Mutex>, ms0: seq<Mutex>, pid: int, i: nat)
    requires WokenUpTo(pcbs, pcbs0, ms0, pid, i) && HandedUpTo(ms, ms0, pid, i) && i < |ms| && ms[i].owner != pid
    ensures WokenUpTo(pcbs, pcbs0, ms0, pid, i + 1) && HandedUpTo(ms, ms0, pid, i + 1)
  {
    hide HandedOff;
  }

  lemma AllHanded(pcbs: Pcbs, pcbs0: Pcbs, ms: seq<Mutex>, ms0: seq<Mutex>, pid: int)
    requires WokenUpTo(pcbs, pcbs0, ms0, pid, |ms|) && HandedUpTo(ms, ms0, pid, |ms|)
    ensures pcbs.Keys == pcbs0.Keys
    ensures forall q :: q in pcbs ==>
      && pcbs[q].base == pcbs0[q].base
      && pcbs[q].waiting == if NextOf(ms0, pcbs0[q], q, pid, |ms|) then None else pcbs0[q].waiting
    ensures |ms| == |ms0| && forall i :: 0 <= i < |ms| ==> ms[i].owner != pid
    ensures forall i :: 0 <= i < |ms| ==> if ms0[i].owner == pid then HandedOff([ms[i]], [ms0[i]], 0) else ms[i] == ms0[i]
  {
    hide HandedOff, NextOf;
  }

  /* ---------- what a balanced state means ---------- */

  /** Each process in the path is blocked on a mutex of the next one. */
  ghost predicate Chain(pcbs: Pcbs, ms: seq<Mutex>, path: seq<int>) {
    && path != [] && (forall i :: 0 <= i < |path| ==> path[i] in pcbs)
    && forall i, j :: 0 <= i && j == i + 1 && j < |path| ==> Waits(pcbs, ms, path[i], path[j])
  }

  lemma {:induction false} NeverBehind(pcbs: Pcbs, ms: seq<Mutex>, path: seq<int>, i: nat)
    requires Balanced(pcbs, ms) && Chain(pcbs, ms, path) && i < |path|
    ensures pcbs[path[i]].dyn <= pcbs[path[0]].base
  {
    assert IsBest(pcbs, ms, path[i], pcbs[path[i]].dyn);
    if i != 0 {
      NeverBehind(pcbs, ms, path, i - 1);
      assert Waits(pcbs, ms, path[i - 1], path[i]);
    }
  }

  /** Waiting leads each process to one other, so two equal places in a chain that ends would be followed by equal
      places up to that end. */
  lemma {:induction false} NoReturn(pcbs: Pcbs, ms: seq<Mutex>, path: seq<int>, i: nat, j: nat)
    requires Chain(pcbs, ms, path) && pcbs[path[|path| - 1]].waiting == None
    requires i < j < |path|
    ensures path[i] != path[j]
    decreases |path| - j
  {
    assert Waits(pcbs, ms, path[i], path[i + 1]);
    if path[i] == path[j] && j + 1 < |path| {
      assert Waits(pcbs, ms, path[j], path[j + 1]);
      NoReturn(pcbs, ms, path, i + 1, j + 1);
    }
  }

  lemma {:induction false} DistinctFit(path: seq<int>, s: set<int>)
    requires forall i, j :: 0 <= i < j < |path| ==> path[i] != path[j]
    requires forall i :: 0 <= i < |path| ==> path[i] in s
    ensures |path| <= |s|
  {
    if path != [] {
      DistinctFit(path[1..], s - {path[0]});
    }
  }

  lemma ChainFits(pcbs: Pcbs, ms: seq<Mutex>, path: seq<int>)
    requires Chain(pcbs, ms, path) && pcbs[path[|path| - 1]].waiting == None
    ensures |path| <= |pcbs.Keys|
  {
    forall i, j | 0 <= i < j < |path| ensures path[i] != path[j] {
      NoReturn(pcbs, ms, path, i, j);
    }
    DistinctFit(path, pcbs.Keys);
  }

  lemma LongerChain(pcbs: Pcbs, ms: seq<Mutex>, path: seq<int>, q: int)
    requires Chain(pcbs, ms, path) && Waits(pcbs, ms, q, path[0])
    ensures Chain(pcbs, ms, [q] + path)
  {
    hide Waits;
    var longer := [q] + path;
    assert Waits(pcbs, ms, longer[0], longer[1]);
    forall i, j | 0 <= i && j == i + 1 && j < |longer| ensures Waits(pcbs, ms, longer[i], longer[j]) {
      if 0 < i { assert Waits(pcbs, ms, path[i - 1], path[j - 1]); }
    }
    assert q in pcbs by { InTable(pcbs, ms, q, path[0]); }
  }

  lemma InTable(pcbs: Pcbs, ms: seq<Mutex>, q: int, o: int)
    requires Waits(pcbs, ms, q, o)
    ensures q in pcbs
  {}

  /** What `IsBest` leaves open: the base priority, or that of someone who waits. */
  lemma BestIsLent(pcbs: Pcbs, ms: seq<Mutex>, o: int) returns (q: int)
    requires Linked(pcbs, ms) && Balanced(pcbs, ms) && o in pcbs && pcbs[o].base != pcbs[o].dyn
    ensures Waits(pcbs, ms, q, o) && q in pcbs && pcbs[q].dyn == pcbs[o].dyn
  {
    assert IsBest(pcbs, ms, o, pcbs[o].dyn);
    q :| Waits(pcbs, ms, q, o) && pcbs[q].dyn == pcbs[o].dyn;
  }

  lemma ChainMembers(pcbs: Pcbs, ms: seq<Mutex>, path: seq<int>)
    requires Chain(pcbs, ms, path)
    ensures path != [] && forall i :: 0 <= i < |path| ==> path[i] in pcbs
  {}

  /** Some process up the chain lends its own base priority. */
  lemma {:induction false} Lender(pcbs: Pcbs, ms: seq<Mutex>, path: seq<int>) returns (full: seq<int>)
    requires Linked(pcbs, ms) && Balanced(pcbs, ms) && Chain(pcbs, ms, path)
    requires pcbs[path[|path| - 1]].waiting == None && pcbs[path[0]].dyn == pcbs[path[|path| - 1]].dyn
    ensures Chain(pcbs, ms, full) && full[|full| - 1] == path[|path| - 1]
    ensures pcbs[full[0]].base == pcbs[path[|path| - 1]].dyn
    decreases |pcbs.Keys| - |path|
  {
    hide Linked, Balanced, IsBest, Chain, Waits;
    ChainMembers(pcbs, ms, path);
    if pcbs[path[0]].base == pcbs[path[0]].dyn {
      full := path;
    } else {
      var q := BestIsLent(pcbs, ms, path[0]);
      LongerChain(pcbs, ms, path, q);
      ChainFits(pcbs, ms, [q] + path);
      full := Lender(pcbs, ms, [q] + path);
    }
  }

  /** A process that is not blocked runs with the best base priority among itself and all those it keeps waiting,
      directly or through any number of others. */
  lemma InheritedPriority(pcbs: Pcbs, ms: seq<Mutex>, o: int)
    requires Linked(pcbs, ms) && Balanced(pcbs, ms) && o in pcbs && pcbs[o].waiting == None
    ensures forall path :: Chain(pcbs, ms, path) && path[|path| - 1] == o ==> pcbs[o].dyn <= pcbs[path[0]].base
    ensures exists path :: Chain(pcbs, ms, path) && path[|path| - 1] == o && pcbs[path[0]].base == pcbs[o].dyn
  {
    forall path | Chain(pcbs, ms, path) && path[|path| - 1] == o ensures pcbs[o].dyn <= pcbs[path[0]].base {
      NeverBehind(pcbs, ms, path, |path| - 1);
    }
    var full := Lender(pcbs, ms, [o]);
  }

  /* ---------- what each change of the tables does ---------- */

  lemma NewcomerBalanced(pcbs: Pcbs, ms: seq<Mutex>, pid: int, p: Pcb)
    requires Linked(pcbs, ms) && Balanced(pcbs, ms) && pid !in pcbs && pid != -1
    requires p.dyn == p.base && p.waiting == None
    ensures Linked(pcbs[pid := p], ms) && Balanced(pcbs[pid := p], ms)
  {
    var pcbs' := pcbs[pid := p];
    forall i | 0 <= i < |ms| ensures QueueOk(pcbs', ms[i], i) {
      assert QueueOk(pcbs, ms[i], i);
    }
    forall q, o ensures Waits(pcbs', ms, q, o) <==> Waits(pcbs, ms, q, o) {}
    forall o | o in pcbs' ensures IsBest(pcbs', ms, o, pcbs'[o].dyn) {
      if o in pcbs {
        assert IsBest(pcbs, ms, o, pcbs[o].dyn);
      } else {
        forall q ensures !Waits(pcbs, ms, q, o) {
          if Waits(pcbs, ms, q, o) { assert false; }
        }
      }
    }
  }

  lemma NewMutexBalanced(pcbs: Pcbs, ms: seq<Mutex>, m: Mutex)
    requires Linked(pcbs, ms) && Balanced(pcbs, ms) && m.owner == -1 && m.queue == []
    ensures Linked(pcbs, ms + [m]) && Balanced(pcbs, ms + [m])
  {
    forall i | 0 <= i < |ms + [m]| ensures QueueOk(pcbs, (ms + [m])[i], i) {
      if i < |ms| { assert QueueOk(pcbs, ms[i], i); }
    }
    forall q, o | q in pcbs ensures Waits(pcbs, ms + [m], q, o) <==> Waits(pcbs, ms, q, o) {}
    forall o | o in pcbs ensures IsBest(pcbs, ms + [m], o, pcbs[o].dyn) {
      assert IsBest(pcbs, ms, o, pcbs[o].dyn);
    }
  }

  lemma SameNames(ms: seq<Mutex>, ms': seq<Mutex>, name: string)
    requires |ms| == |ms'| && forall i :: 0 <= i < |ms| ==> ms'[i].name == ms[i].name
    ensures Named(ms', name) == Named(ms, name)
  {}

  lemma TakenBalanced(pcbs: Pcbs, ms: seq<Mutex>, i: nat, pid: int)
    requires Linked(pcbs, ms) && Balanced(pcbs, ms) && i < |ms| && ms[i].owner == -1 && pid in pcbs
    ensures Linked(pcbs, ms[i := ms[i].(owner := pid)]) && Balanced(pcbs, ms[i := ms[i].(owner := pid)])
  {
    var ms' := ms[i := ms[i].(owner := pid)];
    assert QueueOk(pcbs, ms[i], i);
    forall k | 0 <= k < |ms'| ensures QueueOk(pcbs, ms'[k], k) {
      assert QueueOk(pcbs, ms[k], k);
    }
    forall q, o | o in pcbs ensures Waits(pcbs, ms', q, o) <==> Waits(pcbs, ms, q, o) {}
    forall o | o in pcbs ensures IsBest(pcbs, ms', o, pcbs[o].dyn) {
      assert IsBest(pcbs, ms, o, pcbs[o].dyn);
    }
  }

  lemma BlockedLinked(pcbs: Pcbs, ms: seq<Mutex>, i: nat, pid: int)
    requires Linked(pcbs, ms) && i < |ms| && ms[i].owner != -1 && pid in pcbs && pcbs[pid].waiting == None
    ensures Linked(pcbs[pid := pcbs[pid].(waiting := Some(i))], ms[i := ms[i].(queue := ms[i].queue + [pid])])
  {
    var pcbs', ms' := pcbs[pid := pcbs[pid].(waiting := Some(i))], ms[i := ms[i].(queue := ms[i].queue + [pid])];
    forall k | 0 <= k < |ms'| ensures QueueOk(pcbs', ms'[k], k) {
      assert QueueOk(pcbs, ms[k], k);
    }
    forall q | q in pcbs' && pcbs'[q].waiting.Some?
      ensures pcbs'[q].waiting.value < |ms'| && q in ms'[pcbs'[q].waiting.value].queue
    {
      if q == pid { assert ms'[i].queue[|ms[i].queue|] == pid; }
    }
  }

  /** Blocking leaves one thing to do: lend the priority to the owner. */
  lemma BlockedPending(pcbs: Pcbs, ms: seq<Mutex>, i: nat, pid: int)
    requires Linked(pcbs, ms) && Balanced(pcbs, ms) && i < |ms| && ms[i].owner != -1
    requires pid in pcbs && pcbs[pid].waiting == None
    ensures var pcbs', ms' := pcbs[pid := pcbs[pid].(waiting := Some(i))], ms[i := ms[i].(queue := ms[i].queue + [pid])];
            Linked(pcbs', ms') && Pending(pcbs', ms', pid, pcbs[pid].dyn)
  {
    var pcbs', ms' := pcbs[pid := pcbs[pid].(waiting := Some(i))], ms[i := ms[i].(queue := ms[i].queue + [pid])];
    BlockedLinked(pcbs, ms, i, pid);
    var owner := ms[i].owner;
    hide Linked, Waits, IsBest;
    forall q, o ensures Waits(pcbs', ms', q, o) <==> Waits(pcbs, ms, q, o) || (q == pid && o == owner) {
      BlockedWaits(pcbs, ms, i, pid, q, o);
    }
    forall o | o in pcbs'
      ensures IsBest(pcbs', ms', o, if Waits(pcbs', ms', pid, o) && pcbs[pid].dyn < pcbs'[o].dyn then pcbs[pid].dyn else pcbs'[o].dyn)
    {
      OneMoreWaits(pcbs, ms, pcbs', ms', pid, owner, o);
    }
  }

  lemma BlockedWaits(pcbs: Pcbs, ms: seq<Mutex>, i: nat, pid: int, q: int, o: int)
    requires i < |ms| && pid in pcbs && pcbs[pid].waiting == None
    ensures var pcbs', ms' := pcbs[pid := pcbs[pid].(waiting := Some(i))], ms[i := ms[i].(queue := ms[i].queue + [pid])];
            Waits(pcbs', ms', q, o) <==> Waits(pcbs, ms, q, o) || (q == pid && o == ms[i].owner)
  {}

  lemma OneMoreWaits(pcbs: Pcbs, ms: seq<Mutex>, pcbs': Pcbs, ms': seq<Mutex>, pid: int, owner: int, o: int)
    requires pid in pcbs && o in pcbs && pcbs'.Keys == pcbs.Keys && IsBest(pcbs, ms, o, pcbs[o].dyn)
    requires forall q :: q in pcbs ==> pcbs'[q].base == pcbs[q].base && pcbs'[q].dyn == pcbs[q].dyn
    requires forall q, x :: Waits(pcbs', ms', q, x) <==> Waits(pcbs, ms, q, x) || (q == pid && x == owner)
    ensures IsBest(pcbs', ms', o, if Waits(pcbs', ms', pid, o) && pcbs[pid].dyn < pcbs'[o].dyn then pcbs[pid].dyn else pcbs'[o].dyn)
  {
    var v := pcbs[o].dyn;
    if v != pcbs[o].base {
      var q :| Waits(pcbs, ms, q, o) && pcbs[q].dyn == v;
      assert Waits(pcbs', ms', q, o);
    }
  }

  /** A free mutex must have nobody in its queue. */
  lemma WaitsForNobody(pcbs: Pcbs, ms: seq<Mutex>, i: nat, pid: int)
    requires i < |ms| && ms[i].owner == -1
    ensures !Linked(pcbs, ms[i := ms[i].(queue := ms[i].queue + [pid])])
  {
    var ms' := ms[i := ms[i].(queue := ms[i].queue + [pid])];
    assert !QueueOk(pcbs, ms'[i], i);
  }

  /** Priorities do not say who waits for whom. */
  lemma PriorityOnly(pcbs: Pcbs, ms: seq<Mutex>, o: int, v: int)
    requires Linked(pcbs, ms) && o in pcbs
    ensures Linked(pcbs[o := pcbs[o].(dyn := v)], ms)
    ensures forall q, x :: Waits(pcbs[o := pcbs[o].(dyn := v)], ms, q, x) <==> Waits(pcbs, ms, q, x)
  {
    forall k | 0 <= k < |ms| ensures QueueOk(pcbs[o := pcbs[o].(dyn := v)], ms[k], k) {
      assert QueueOk(pcbs, ms[k], k);
    }
  }

  /** Giving `o` the priority moves the pending change one step along the chain. */
  lemma Lent(pcbs: Pcbs, ms: seq<Mutex>, pid: int, o: int, v: int)
    requires Linked(pcbs, ms) && Pending(pcbs, ms, pid, v) && Waits(pcbs, ms, pid, o) && o in pcbs && v < pcbs[o].dyn
    ensures var pcbs' := pcbs[o := pcbs[o].(dyn := v)];
            Linked(pcbs', ms) && Pending(pcbs', ms, o, v)
  {
    var pcbs' := pcbs[o := pcbs[o].(dyn := v)];
    PriorityOnly(pcbs, ms, o, v);
    hide Linked, IsBest;
    forall x | x in pcbs'
      ensures IsBest(pcbs', ms, x, if Waits(pcbs', ms, o, x) && v < pcbs'[x].dyn then v else pcbs'[x].dyn)
    {
      assert IsBest(pcbs, ms, x, if Waits(pcbs, ms, pid, x) && v < pcbs[x].dyn then v else pcbs[x].dyn);
      if x == o {
        LentToSelf(pcbs, ms, o, v);
      } else {
        LentToNext(pcbs, ms, o, v, x);
      }
    }
  }

  /** When there is nothing to lend, or nobody to lend it to, all is balanced. */
  lemma PendingEnds(pcbs: Pcbs, ms: seq<Mutex>, pid: int, v: int)
    requires Linked(pcbs, ms) && pid in pcbs && Pending(pcbs, ms, pid, v)
    ensures Improved(pcbs, pcbs, v)
    ensures pcbs[pid].waiting == None ==> Balanced(pcbs, ms)
    ensures pcbs[pid].waiting.Some? ==>
      var i := pcbs[pid].waiting.value;
      && i < |ms| && ms[i].owner != -1 && ms[i].owner in pcbs && Waits(pcbs, ms, pid, ms[i].owner)
      && (pcbs[ms[i].owner].dyn <= v ==> Balanced(pcbs, ms))
  {
    hide IsBest;
    if pcbs[pid].waiting.Some? {
      var i := pcbs[pid].waiting.value;
      assert QueueOk(pcbs, ms[i], i);
    }
    forall o | o in pcbs && !(Waits(pcbs, ms, pid, o) && v < pcbs[o].dyn) ensures IsBest(pcbs, ms, o, pcbs[o].dyn) {}
  }

  lemma FewerWorse(pcbs: Pcbs, o: int, v: int)
    requires o in pcbs && v < pcbs[o].dyn
    ensures Worse(pcbs[o := pcbs[o].(dyn := v)], v) < Worse(pcbs, v) && Improved(pcbs[o := pcbs[o].(dyn := v)], pcbs, v)
  {
    assert o in Worse(pcbs, v) && o !in Worse(pcbs[o := pcbs[o].(dyn := v)], v);
  }

  lemma ImprovedFurther(pcbs: Pcbs, lent: Pcbs, pcbs0: Pcbs, o: int, v: int)
    requires o in pcbs0 && v < pcbs0[o].dyn && lent == pcbs0[o := pcbs0[o].(dyn := v)] && Improved(pcbs, lent, v)
    ensures Improved(pcbs, pcbs0, v)
  {}

  lemma LentToSelf(pcbs: Pcbs, ms: seq<Mutex>, o: int, v: int)
    requires o in pcbs && v < pcbs[o].dyn && IsBest(pcbs, ms, o, v)
    requires forall q, x :: Waits(pcbs[o := pcbs[o].(dyn := v)], ms, q, x) <==> Waits(pcbs, ms, q, x)
    ensures IsBest(pcbs[o := pcbs[o].(dyn := v)], ms, o, v)
  {}

  lemma LentToNext(pcbs: Pcbs, ms: seq<Mutex>, o: int, v: int, x: int)
    requires o in pcbs && v < pcbs[o].dyn && x in pcbs && x != o && IsBest(pcbs, ms, x, pcbs[x].dyn)
    requires forall q, y :: Waits(pcbs[o := pcbs[o].(dyn := v)], ms, q, y) <==> Waits(pcbs, ms, q, y)
    ensures IsBest(pcbs[o := pcbs[o].(dyn := v)], ms, x, if Waits(pcbs, ms, o, x) && v < pcbs[x].dyn then v else pcbs[x].dyn)
  {
    var pcbs' := pcbs[o := pcbs[o].(dyn := v)];
    if Waits(pcbs, ms, o, x) && v < pcbs[x].dyn {
      assert Waits(pcbs', ms, o, x) && pcbs'[o].dyn == v;
    } else if pcbs[x].dyn != pcbs[x].base {
      var q :| Waits(pcbs, ms, q, x) && pcbs[q].dyn == pcbs[x].dyn;
      assert Waits(pcbs', ms, q, x) && pcbs'[q].dyn == pcbs[x].dyn;
    }
  }

  lemma EitherOrder(pcbs: Pcbs, ms: seq<Mutex>, e: int, f: int)
    ensures BalancedBut(pcbs, ms, e, f) <==> BalancedBut(pcbs, ms, f, e)
  {}

  lemma BalancedMeans(pcbs: Pcbs, ms: seq<Mutex>, pid: int)
    requires Linked(pcbs, ms) && Balanced(pcbs, ms)
    ensures BalancedBut(pcbs, ms, pid, -1)
  {}

  /** A recalculated process is balanced, and as it waits for nobody it disturbs nobody. */
  lemma Rebalanced(pcbs: Pcbs, ms: seq<Mutex>, pid: int, v: int, e: int)
    requires Linked(pcbs, ms) && BalancedBut(pcbs, ms, e, pid) && pid in pcbs && pcbs[pid].waiting == None
    requires IsBest(pcbs, ms, pid, v)
    ensures var pcbs' := pcbs[pid := pcbs[pid].(dyn := v)];
            && Linked(pcbs', ms) && BalancedBut(pcbs', ms, e, -1) && (e == -1 ==> Balanced(pcbs', ms))
  {
    var pcbs' := pcbs[pid := pcbs[pid].(dyn := v)];
    PriorityOnly(pcbs, ms, pid, v);
    forall x | x in pcbs' && x != e ensures IsBest(pcbs', ms, x, pcbs'[x].dyn) {
      assert x != pid ==> IsBest(pcbs, ms, x, pcbs[x].dyn);
    }
  }

  lemma NextIsBlocked(pcbs: Pcbs, ms: seq<Mutex>, i: nat, pid: int)
    requires Linked(pcbs, ms) && i < |ms| && ms[i].queue != [] && pid in pcbs && pcbs[pid].waiting == None
    ensures ms[i].queue[0] in pcbs && ms[i].queue[0] != pid && pcbs[ms[i].queue[0]].waiting == Some(i)
  {
    assert QueueOk(pcbs, ms[i], i);
  }

  lemma HandOffKeeps(pcbs: Pcbs, ms: seq<Mutex>, i: nat, pid: int)
    requires Linked(pcbs, ms) && BalancedBut(pcbs, ms, pid, -1) && i < |ms| && ms[i].owner == pid && ms[i].queue != []
    requires pid in pcbs && pcbs[pid].waiting == None && ms[i].queue[0] in pcbs
    ensures var next := ms[i].queue[0];
            var pcbs', ms' := pcbs[next := pcbs[next].(waiting := None)], ms[i := Mutex(ms[i].name, next, ms[i].queue[1..])];
            Linked(pcbs', ms') && BalancedBut(pcbs', ms', pid, next)
  {
    var next := ms[i].queue[0];
    var pcbs', ms' := pcbs[next := pcbs[next].(waiting := None)], ms[i := Mutex(ms[i].name, next, ms[i].queue[1..])];
    assert QueueOk(pcbs, ms[i], i);
    forall k | 0 <= k < |ms'| ensures QueueOk(pcbs', ms'[k], k) {
      assert QueueOk(pcbs, ms[k], k);
    }
    forall q | q in pcbs' && pcbs'[q].waiting.Some?
      ensures pcbs'[q].waiting.value < |ms'| && q in ms'[pcbs'[q].waiting.value].queue
    {
      if pcbs[q].waiting.value == i {
        var k :| 0 <= k < |ms[i].queue| && ms[i].queue[k] == q;
        assert ms'[i].queue[k - 1] == q;
      }
    }
    forall q, x | x != pid && x != next ensures Waits(pcbs', ms', q, x) <==> Waits(pcbs, ms, q, x) {}
    forall x | x in pcbs' && x != pid && x != next ensures IsBest(pcbs', ms', x, pcbs'[x].dyn) {
      assert IsBest(pcbs, ms, x, pcbs[x].dyn);
    }
  }

  lemma FreeingKeeps(pcbs: Pcbs, ms: seq<Mutex>, i: nat, pid: int)
    requires Linked(pcbs, ms) && BalancedBut(pcbs, ms, pid, -1) && i < |ms| && ms[i].owner == pid && ms[i].queue == []
    ensures var ms' := ms[i := ms[i].(owner := -1)];
            Linked(pcbs, ms') && BalancedBut(pcbs, ms', pid, -1)
  {
    var ms' := ms[i := ms[i].(owner := -1)];
    forall k | 0 <= k < |ms'| ensures QueueOk(pcbs, ms'[k], k) {
      assert QueueOk(pcbs, ms[k], k);
    }
    forall q, x | x in pcbs && x != pid ensures Waits(pcbs, ms', q, x) <==> Waits(pcbs, ms, q, x) {}
    forall x | x in pcbs && x != pid ensures IsBest(pcbs, ms', x, pcbs[x].dyn) {
      assert IsBest(pcbs, ms, x, pcbs[x].dyn);
    }
  }

  lemma NotOwnSuccessor(pcbs: Pcbs, ms: seq<Mutex>, i: nat, pid: int)
    requires Linked(pcbs, ms) && i < |ms| && pid in pcbs && pcbs[pid].waiting == None
    ensures ms[i].queue != [] ==> ms[i].queue[0] in pcbs && ms[i].queue[0] != pid && pcbs[ms[i].queue[0]].waiting == Some(i)
    ensures pid != -1
  {
    assert QueueOk(pcbs, ms[i], i);
  }

  lemma NotInQueue(pcbs: Pcbs, ms: seq<Mutex>, i: nat, pid: int)
    requires Linked(pcbs, ms) && i < |ms| && pid in pcbs && pcbs[pid].waiting == None
    ensures pid !in ms[i].queue
  {
    assert QueueOk(pcbs, ms[i], i);
  }

  lemma Removed(pcbs: Pcbs, ms: seq<Mutex>, pid: int)
    requires Linked(pcbs, ms) && BalancedBut(pcbs, ms, pid, -1) && pid in pcbs && pcbs[pid].waiting == None
    requires forall i :: 0 <= i < |ms| ==> ms[i].owner != pid
    ensures var pcbs' := map q | q in pcbs && q != pid :: pcbs[q];
            Linked(pcbs', ms) && Balanced(pcbs', ms)
  {
    var pcbs' := map q | q in pcbs && q != pid :: pcbs[q];
    forall k | 0 <= k < |ms| ensures QueueOk(pcbs', ms[k], k) {
      assert QueueOk(pcbs, ms[k], k);
    }
    forall q, x ensures Waits(pcbs', ms, q, x) <==> Waits(pcbs, ms, q, x) {}
    forall x | x in pcbs' ensures IsBest(pcbs', ms, x, pcbs'[x].dyn) {
      assert IsBest(pcbs, ms, x, pcbs[x].dyn);
    }
  }
}
