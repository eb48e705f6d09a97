/** The dispatcher and the threads around it, as a state machine (kernel_scheduler/src/planificadorCortoPlazo.c,
    utils_kernel_scheduler.c, colaIO.c, planificadorLargoPlazo.c and planificadorMedianoPlazo.c). Each action is one
    critical section, one semaphore operation or one unlocked write of an estado, of one thread. */
module Dispatcher {
  import opened Estados
  import opened Words

  /** What the receptor thread of a CPU has decided about the process in its hand, after writing its estado. */
  datatype Goal = Undecided | ToReady(level: nat, front: bool) | ToBlock | ToMutex(m: nat) | ToExit

  /** A CPU of the table. `current` is proceso_actual; `hand` is the process that the receptor thread of the CPU
      has taken off it and is handling. */
  datatype Slot = Slot(connected: bool, available: bool, current: Option<int>, hand: Option<int>, goal: Goal)

  /** Where the dispatcher is in its loop. `Sleeping` and `Retrying` end when a CPU token comes; `Sent` has still to
      write EXEC. */
  datatype Pcp = Top | Awake | NoCpu | Sleeping | Choosing | Holding(pid: int) | Sent(pid: int) | Failed | Retrying

  /** `labels` holds the estado of every live process. `newcomers` is the queue of NEW processes and `admitting` the one
      that the long-term scheduler has taken from it; `queues` are the READY queues by level; `blocked` is
      cola_procesos_block and `waiting` the queues of the mutexes. In the hands of threads are `served`, taken out of
      `blocked` by I/O workers, `passed`, taken out of a mutex queue to be given the mutex, `restored`, taken out of
      the suspended list by the medium-term scheduler, and `readied`, in READY and about to be queued.
      `listed` is the suspended list; `marking` are processes put in SUSP_BLOCK by a timer that has still to list them,
      `dumping` those listed whose dump is not known to be over, `dumped` those with suspendido_en_swap set.
      `readyPosts` and `cpuPosts` count the sem_post calls that are due: the entry is queued, or the CPU marked
      free, but the semaphore is not yet raised. */
  datatype State = State(
    labels: map<int, Estado>, newcomers: seq<int>, admitting: Option<int>, queues: seq<seq<int>>, slots: seq<Slot>,
    blocked: seq<int>, waiting: seq<seq<int>>, served: seq<int>, passed: seq<int>, restored: Option<int>, readied: seq<int>,
    listed: seq<int>, marking: seq<int>, dumping: seq<int>, dumped: set<int>,
    pcp: Pcp, readyTokens: nat, readyPosts: nat, cpuTokens: nat, cpuPosts: nat)

  datatype Action =
    | TakeToken | WaitCompaction | SeeNoCpu | Repost | WakeForCpu | SeeCpu | Pop | Send | WriteExec
    | Requeue(level: nat, front: bool, posts: bool) | Recheck | WakeToRecheck
    | Return(i: nat, reserve: bool) | BackToCpu(i: nat) | Decide(i: nat, goal: Goal) | Settle(i: nat)
    | Create(pid: int) | TakeNew | Admit | Push(pid: int, level: nat)
    | Mark(pid: int) | List(pid: int) | Flag(pid: int) | Extract(pid: int) | Serve(pid: int) | EndServed(pid: int)
    | Delist(pid: int) | Restore | EndRestored | HandOff(m: nat) | Pass(pid: int) | Move(pid: int, from: nat, to: nat)
    | PostReady | PostCpu | ExtraReady | Connect | Disconnect(i: nat)

  const MAX_CPUS := 1000

  /** hay_cpu_libre. */
  predicate Free(c: Slot) {
    c.available && c.connected
  }

  predicate SomeFree(slots: seq<Slot>) {
    exists i :: 0 <= i < |slots| && Free(slots[i])
  }

  lemma LaterFree(slots: seq<Slot>)
    requires SomeFree(slots) && !Free(slots[0])
    ensures SomeFree(slots[1..])
  {
    var k :| 0 <= k < |slots| && Free(slots[k]);
    assert slots[1..][k - 1] == slots[k];
  }

  function FirstFree(slots: seq<Slot>): (i: nat)
    requires SomeFree(slots)
    ensures i < |slots| && Free(slots[i])
  {
    if Free(slots[0]) then 0
    else
      LaterFree(slots);
      1 + FirstFree(slots[1..])
  }

  function Entries(queues: seq<seq<int>>): nat {
    if queues == [] then 0 else |queues[0]| + Entries(queues[1..])
  }

  /** The best level that has an entry. */
  function FirstLevel(queues: seq<seq<int>>): (k: nat)
    requires 0 < Entries(queues)
    ensures k < |queues| && queues[k] != [] && forall j :: 0 <= j < k ==> queues[j] == []
  {
    if queues[0] != [] then 0 else 1 + FirstLevel(queues[1..])
  }

  function Pushed(q: seq<int>, pid: int, front: bool): seq<int> {
    if front then [pid] + q else q + [pid]
  }

  predicate Labelled(s: State, pid: int, e: Estado) {
    pid in s.labels && s.labels[pid] == e
  }

  /** Kept for the process in hand, whose memory system call is being served. */
  predicate Reserved(c: Slot) {
    !c.available && c.current == None
  }

  predicate Enabled(s: State, a: Action) {
    match a
    case TakeToken => s.pcp == Top && 0 < s.readyTokens
    case WaitCompaction => s.pcp == Awake
    case SeeNoCpu => s.pcp == Awake && !SomeFree(s.slots)
    case Repost => s.pcp == NoCpu
    case WakeForCpu => s.pcp == Sleeping && 0 < s.cpuTokens
    case SeeCpu => s.pcp == Awake && SomeFree(s.slots)
    case Pop => s.pcp == Choosing
    case Send => s.pcp.Holding? && SomeFree(s.slots)
    case WriteExec => s.pcp.Sent?
    case Requeue(level, _, _) => s.pcp.Holding? && !SomeFree(s.slots) && level < |s.queues|
    case Recheck => s.pcp == Failed
    case WakeToRecheck => s.pcp == Retrying && 0 < s.cpuTokens
    case Return(i, _) => i < |s.slots| && s.slots[i].current.Some? && s.slots[i].hand == None && !s.slots[i].available
    case BackToCpu(i) => i < |s.slots| && Deciding(s.slots[i]) && Reserved(s.slots[i]) && s.slots[i].connected
    case Decide(i, goal) => i < |s.slots| && Deciding(s.slots[i]) && MayDecide(s, s.slots[i], goal)
    case Settle(i) => Decided(s, i)
    case Create(pid) => pid !in s.labels
    case TakeNew => s.newcomers != [] && s.admitting == None
    case Admit => s.admitting.Some?
    case Push(pid, level) => pid in s.readied && level < |s.queues|
    case Mark(pid) => pid in s.blocked && Labelled(s, pid, Block)
    case List(pid) => pid in s.marking
    case Flag(pid) => pid in s.dumping
    case Extract(pid) => pid in s.blocked && !(Labelled(s, pid, SuspBlock) && pid !in s.dumped)
    case Serve(pid) => pid in s.served
    case EndServed(pid) => pid in s.served && !Labelled(s, pid, SuspBlock)
    case Delist(pid) => pid in s.listed && Labelled(s, pid, SuspReady) && s.restored == None
    case Restore => s.restored.Some?
    case EndRestored => s.restored.Some?
    case HandOff(m) => m < |s.waiting| && s.waiting[m] != []
    case Pass(pid) => pid in s.passed
    case Move(pid, from, to) => from < |s.queues| && to < |s.queues| && pid in s.queues[from] && Labelled(s, pid, Ready)
    case PostReady => 0 < s.readyPosts
    case PostCpu => 0 < s.cpuPosts
    case ExtraReady => true
    case Connect => true
    case Disconnect(i) => i < |s.slots|
  }

  predicate Deciding(c: Slot) {
    c.hand.Some? && c.goal == Undecided
  }

  predicate Decided(s: State, i: nat) {
    i < |s.slots| && s.slots[i].hand.Some? && s.slots[i].goal != Undecided && GoalExists(s, s.slots[i].goal)
  }

  /** After a memory system call the process goes back to its CPU, unless it ends or the CPU is gone. */
  predicate MayDecide(s: State, c: Slot, goal: Goal) {
    goal != Undecided && GoalExists(s, goal) && (Reserved(c) ==> goal == ToExit || (goal.ToReady? && !c.connected))
  }

  predicate GoalExists(s: State, goal: Goal) {
    (goal.ToReady? ==> goal.level < |s.queues|) && (goal.ToMutex? ==> goal.m < |s.waiting|)
  }

  /** A process added to a queue; the semaphore is raised in the same critical section, just after. */
  function Queue(s: State, pid: int, level: nat, front: bool): State
    requires level < |s.queues|
  {
    s.(queues := s.queues[level := Pushed(s.queues[level], pid, front)], readyPosts := s.readyPosts + 1)
  }

  function PopBest(s: State): State {
    if Entries(s.queues) == 0 then s.(pcp := Top)
    else
      var k := FirstLevel(s.queues);
      s.(queues := s.queues[k := s.queues[k][1..]], pcp := Holding(s.queues[k][0]))
  }

  function SendTo(s: State): State
    requires s.pcp.Holding? && SomeFree(s.slots)
  {
    var i := FirstFree(s.slots);
    s.(slots := s.slots[i := s.slots[i].(available := false, current := Some(s.pcp.pid))], pcp := Sent(s.pcp.pid))
  }

  function Label(s: State, pid: int, e: Estado): State {
    if pid in s.labels then s.(labels := s.labels[pid := e]) else s
  }

  /** retirar_proceso_de_cpu, and its variant that keeps the CPU reserved. */
  function TakeOff(s: State, i: nat, reserve: bool): State
    requires i < |s.slots|
  {
    var c := s.slots[i];
    s.(slots := s.slots[i := c.(current := None, hand := c.current, goal := Undecided, available := !reserve)],
       cpuPosts := if reserve then s.cpuPosts else s.cpuPosts + 1)
  }

  /** devolver_proceso_a_misma_cpu. */
  function GiveBack(s: State, i: nat): State
    requires i < |s.slots|
  {
    s.(slots := s.slots[i := s.slots[i].(current := s.slots[i].hand, hand := None)])
  }

  function EstadoFor(goal: Goal): Estado {
    match goal
    case Undecided => Exec
    case ToReady(_, _) => Ready
    case ToBlock => Block
    case ToMutex(_) => Block
    case ToExit => Exit
  }

  /** The thread writes the new estado, ... */
  function DecideHand(s: State, i: nat, goal: Goal): State
    requires i < |s.slots| && s.slots[i].hand.Some?
  {
    Label(s, s.slots[i].hand.value, EstadoFor(goal)).(slots := s.slots[i := s.slots[i].(goal := goal)])
  }

  /** ... and then puts the process where it goes. A reserved CPU is let go when its process ends. */
  function SettleHand(s: State, i: nat): State
    requires i < |s.slots| && s.slots[i].hand.Some? && GoalExists(s, s.slots[i].goal)
  {
    var pid, s1 := s.slots[i].hand.value, LetGo(s, i);
    match s.slots[i].goal
    case ToReady(level, front) => Queue(s1, pid, level, front)
    case ToBlock => s1.(blocked := s1.blocked + [pid])
    case ToMutex(m) => s1.(waiting := s1.waiting[m := s1.waiting[m] + [pid]])
    case ToExit => s1.(labels := s1.labels - {pid})
    case Undecided => s1
  }

  function LetGo(s: State, i: nat): State
    requires i < |s.slots|
  {
    var c := s.slots[i];
    var free := Reserved(c) && c.goal == ToExit;
    s.(slots := s.slots[i := c.(hand := None, goal := Undecided, available := c.available || free)],
       cpuPosts := s.cpuPosts + One(free))
  }

  /** reubicar_proceso_en_ready. */
  function MoveTo(s: State, pid: int, from: nat, to: nat): State
    requires from < |s.queues| && to < |s.queues|
  {
    var taken := s.queues[from := Remove(s.queues[from], pid)];
    s.(queues := taken[to := Pushed(taken[to], pid, false)])
  }

  /** encolar_en_ready_y_notificar for a process that a thread other than that of its CPU holds: first the estado. */
  function Readied(s: State, pid: int): State {
    Label(s, pid, Ready).(readied := s.readied + [pid])
  }

  /** What an I/O worker does with a process out of the queue of blocked ones. In SUSP_READY only the suspended list still
      has it. */
  function ServeOne(s: State, pid: int): State {
    var s1 := s.(served := Remove(s.served, pid));
    if Labelled(s, pid, SuspBlock) then Label(s1, pid, SuspReady) else Readied(s1, pid)
  }

  function Apply(s: State, a: Action): State
    requires Enabled(s, a)
  {
    match a
    case TakeToken => s.(pcp := Awake, readyTokens := s.readyTokens - 1)
    case WaitCompaction => s.(pcp := Top, readyTokens := s.readyTokens + 1)
    case SeeNoCpu => s.(pcp := NoCpu)
    case Repost => s.(pcp := Sleeping, readyTokens := s.readyTokens + 1)
    case WakeForCpu => s.(pcp := Top, cpuTokens := s.cpuTokens - 1)
    case SeeCpu => s.(pcp := Choosing)
    case Pop => PopBest(s)
    case Send => SendTo(s)
    case WriteExec => Label(s, s.pcp.pid, Exec).(pcp := Top)
    case Requeue(level, front, posts) =>
      var s1 := Queue(s, s.pcp.pid, level, front);
      s1.(pcp := Failed, readyPosts := if posts then s1.readyPosts + 1 else s1.readyPosts)
    case Recheck => if SomeFree(s.slots) then s.(pcp := Top) else s.(pcp := Retrying)
    case WakeToRecheck => s.(pcp := Failed, cpuTokens := s.cpuTokens - 1)
    case Return(i, reserve) => TakeOff(s, i, reserve)
    case BackToCpu(i) => GiveBack(s, i)
    case Decide(i, goal) => DecideHand(s, i, goal)
    case Settle(i) => SettleHand(s, i)
    case Create(pid) => s.(newcomers := s.newcomers + [pid], labels := s.labels[pid := New])
    case TakeNew => s.(newcomers := s.newcomers[1..], admitting := Some(s.newcomers[0]))
    case Admit => Readied(s.(admitting := None), s.admitting.value)
    case Push(pid, level) => Queue(s.(readied := Remove(s.readied, pid)), pid, level, false)
    case Mark(pid) => Label(s, pid, SuspBlock).(dumped := s.dumped - {pid}, marking := s.marking + [pid])
    case List(pid) => s.(marking := Remove(s.marking, pid), listed := s.listed + [pid], dumping := s.dumping + [pid])
    case Flag(pid) =>
      s.(dumping := Remove(s.dumping, pid), dumped := if pid in s.blocked then s.dumped + {pid} else s.dumped)
    case Extract(pid) => s.(blocked := Remove(s.blocked, pid), served := s.served + [pid])
    case Serve(pid) => ServeOne(s, pid)
    case EndServed(pid) => s.(served := Remove(s.served, pid), listed := Remove(s.listed, pid), labels := s.labels - {pid})
    case Delist(pid) => s.(listed := Remove(s.listed, pid), restored := Some(pid))
    case Restore => Readied(s.(restored := None), s.restored.value)
    case EndRestored => s.(restored := None, labels := s.labels - {s.restored.value})
    case HandOff(m) => s.(waiting := s.waiting[m := s.waiting[m][1..]], passed := s.passed + [s.waiting[m][0]])
    case Pass(pid) => Readied(s.(passed := Remove(s.passed, pid)), pid)
    case Move(pid, from, to) => MoveTo(s, pid, from, to)
    case PostReady => s.(readyTokens := s.readyTokens + 1, readyPosts := s.readyPosts - 1)
    case PostCpu => s.(cpuTokens := s.cpuTokens + 1, cpuPosts := s.cpuPosts - 1)
    case ExtraReady => s.(readyTokens := s.readyTokens + 1)
    case Connect =>
      s.(slots := if |s.slots| < MAX_CPUS then s.slots + [Slot(true, true, None, None, Undecided)] else s.slots,
         cpuPosts := s.cpuPosts + 1)
    case Disconnect(i) => s.(slots := s.slots[i := s.slots[i].(connected := false)])
  }

  function Initial(levels: nat, mutexes: nat): State {
    State(map[], [], None, seq(levels, _ => []), [], [], seq(mutexes, _ => []), [], [], None, [], [], [], [], {}, Top, 0, 0, 0, 0)
  }

  ghost predicate Run(states: seq<State>, actions: seq<Action>, levels: nat, mutexes: nat) {
    && |states| == |actions| + 1 && states[0] == Initial(levels, mutexes)
    && forall i :: 0 <= i < |actions| ==> Enabled(states[i], actions[i]) && states[i + 1] == Apply(states[i], actions[i])
  }

  /* ---------- the semaphores ---------- */

  /** The token that the dispatcher has taken and not yet used or given back. */
  function Held(pcp: Pcp): nat {
    if pcp == Awake || pcp == NoCpu || pcp == Choosing then 1 else 0
  }

  ghost predicate Roused(s: State) {
    && Entries(s.queues) <= s.readyTokens + s.readyPosts + Held(s.pcp)
    && (s.pcp in {NoCpu, Sleeping, Retrying} && SomeFree(s.slots) ==> 0 < s.cpuTokens + s.cpuPosts)
    && (forall i :: 0 <= i < |s.slots| ==> SlotOk(s.slots[i]))
  }

  /** A free CPU runs nothing, and a CPU that is not free has a process on it or comes back when one is done with. */
  predicate SlotOk(c: Slot) {
    && (c.available ==> c.current == None)
    && (c.connected && !c.available ==> c.current.Some? || c.hand.Some?)
    && (c.hand.Some? && Reserved(c) && c.goal != Undecided ==> c.goal == ToExit || !c.connected)
  }

  lemma {:induction false} EntriesUpdate(queues: seq<seq<int>>, k: nat, q: seq<int>)
    requires k < |queues|
    ensures Entries(queues[k := q]) + |queues[k]| == Entries(queues) + |q|
  {
    if k == 0 {
      assert queues[0 := q][1..] == queues[1..];
    } else {
      assert queues[k := q][1..] == queues[1..][k - 1 := q];
      EntriesUpdate(queues[1..], k - 1, q);
    }
  }

  lemma {:induction false} LengthRemove(q: seq<int>, pid: int)
    requires pid in q
    ensures |Remove(q, pid)| == |q| - 1
  {
    if q[0] != pid { LengthRemove(q[1..], pid); }
  }

  /** A process queued with its post due leaves nobody asleep. */
  lemma QueueRouses(s: State, pid: int, level: nat, front: bool)
    requires Roused(s) && level < |s.queues|
    ensures Roused(Queue(s, pid, level, front))
  {
    hide Entries, SlotOk, Free;
    EntriesUpdate(s.queues, level, Pushed(s.queues[level], pid, front));
  }

  lemma PopRouses(s: State)
    requires Roused(s) && s.pcp == Choosing
    ensures Roused(PopBest(s))
  {
    hide SlotOk, Free;
    if Entries(s.queues) != 0 {
      var k := FirstLevel(s.queues);
      EntriesUpdate(s.queues, k, s.queues[k][1..]);
    }
  }

  lemma MoveRouses(s: State, pid: int, from: nat, to: nat)
    requires Roused(s) && from < |s.queues| && to < |s.queues| && pid in s.queues[from]
    ensures Roused(MoveTo(s, pid, from, to))
  {
    hide Entries, SlotOk, Remove, Free;
    var taken := s.queues[from := Remove(s.queues[from], pid)];
    LengthRemove(s.queues[from], pid);
    EntriesUpdate(s.queues, from, taken[from]);
    EntriesUpdate(taken, to, Pushed(taken[to], pid, false));
  }

  /** If only slot `i` changed and it is free only if it was, whatever is free was free before. */
  lemma StillFree(slots: seq<Slot>, slots': seq<Slot>, i: nat)
    requires i < |slots| == |slots'| && SomeFree(slots')
    requires Free(slots'[i]) ==> Free(slots[i])
    requires forall j :: 0 <= j < |slots| && j != i ==> slots'[j] == slots[j]
    ensures SomeFree(slots)
  {
    var k :| 0 <= k < |slots'| && Free(slots'[k]);
    assert Free(slots[k]);
  }

  /** One slot changes: what is left to show is that it is in order and that freeing it is announced. */
  lemma SlotRouses(s: State, i: nat, c: Slot, posts: nat)
    requires Roused(s) && i < |s.slots| && SlotOk(c) && (Free(c) && !Free(s.slots[i]) ==> 0 < posts)
    ensures Roused(s.(slots := s.slots[i := c], cpuPosts := s.cpuPosts + posts))
  {
    hide Entries, SlotOk, Free;
    var slots' := s.slots[i := c];
    if SomeFree(slots') && posts == 0 { StillFree(s.slots, slots', i); }
  }

  lemma SettleRouses(s: State, i: nat)
    requires Roused(s) && Enabled(s, Settle(i))
    ensures Roused(SettleHand(s, i))
  {
    hide Entries, SomeFree;
    var c, s1 := s.slots[i], LetGo(s, i);
    assert SlotOk(c);
    SlotRouses(s, i, s1.slots[i], One(Reserved(c) && c.goal == ToExit));
    hide SlotOk, LetGo;
    if c.goal.ToReady? { QueueRouses(s1, c.hand.value, c.goal.level, c.goal.front); }
  }

  lemma CpuRouses(s: State, a: Action)
    requires Roused(s) && Enabled(s, a)
    requires a.Send? || a.Return? || a.BackToCpu? || a.Decide? || a.Disconnect?
    ensures Roused(Apply(s, a))
  {
    hide Entries, SomeFree, FirstFree;
    var i := if a.Send? then FirstFree(s.slots) else a.i;
    assert SlotOk(s.slots[i]);
    var s' := Apply(s, a);
    SlotRouses(s, i, s'.slots[i], if a.Return? && !a.reserve then 1 else 0);
  }

  lemma ConnectRouses(s: State)
    requires Roused(s)
    ensures Roused(Apply(s, Connect))
  {
    hide Entries;
  }

  predicate Queues(a: Action) {
    match a
    case Requeue(_, _, _) => true
    case Push(_, _) => true
    case _ => false
  }

  predicate TouchesCpu(a: Action) {
    match a
    case Send => true
    case Return(_, _) => true
    case BackToCpu(_) => true
    case Decide(_, _) => true
    case Disconnect(_) => true
    case _ => false
  }

  predicate OfDispatcher(a: Action) {
    match a
    case TakeToken => true
    case WaitCompaction => true
    case SeeNoCpu => true
    case Repost => true
    case WakeForCpu => true
    case SeeCpu => true
    case WriteExec => true
    case Recheck => true
    case WakeToRecheck => true
    case PostReady => true
    case PostCpu => true
    case ExtraReady => true
    case _ => false
  }

  lemma LoopRouses(s: State, a: Action)
    requires Roused(s) && Enabled(s, a) && OfDispatcher(a)
    ensures Roused(Apply(s, a))
  {
    hide Entries, SlotOk, Free;
  }

  lemma OtherRouses(s: State, a: Action)
    requires Roused(s) && Enabled(s, a) && !OfDispatcher(a) && !Queues(a) && !TouchesCpu(a)
    requires !a.Settle? && !a.Connect? && !a.Pop? && !a.Move?
    ensures Roused(Apply(s, a))
  {
    var s' := Apply(s, a);
    assert s'.queues == s.queues && s'.slots == s.slots && s'.pcp == s.pcp;
    assert s'.readyTokens == s.readyTokens && s'.readyPosts == s.readyPosts;
    assert s'.cpuTokens == s.cpuTokens && s'.cpuPosts == s.cpuPosts;
    hide Apply, Enabled, Entries, SlotOk, SomeFree;
  }

  lemma RequeueRouses(s: State, a: Action)
    requires Roused(s) && Enabled(s, a) && a.Requeue?
    ensures Roused(Apply(s, a))
  {
    hide Entries, SlotOk, Free;
    QueueRouses(s, s.pcp.pid, a.level, a.front);
  }

  lemma PushRouses(s: State, pid: int, level: nat)
    requires Roused(s) && level < |s.queues|
    ensures Roused(Queue(s.(readied := Remove(s.readied, pid)), pid, level, false))
  {
    hide Entries, SlotOk, Free, Remove;
    QueueRouses(s.(readied := Remove(s.readied, pid)), pid, level, false);
  }

  lemma StepRouses(s: State, a: Action)
    requires Roused(s) && Enabled(s, a)
    ensures Roused(Apply(s, a))
  {
    hide Roused, Entries, SlotOk, Free, Remove, Queue, PopBest, SettleHand, MoveTo;
    match a
    case Pop => PopRouses(s);
    case Requeue(_, _, _) => RequeueRouses(s, a);
    case Push(pid, level) => PushRouses(s, pid, level);
    case Settle(i) => SettleRouses(s, i);
    case Connect => ConnectRouses(s);
    case Move(pid, from, to) => MoveRouses(s, pid, from, to);
    case _ => if TouchesCpu(a) { CpuRouses(s, a); } else if OfDispatcher(a) { LoopRouses(s, a); } else { OtherRouses(s, a); }
  }

  lemma {:induction false} EmptyQueues(queues: seq<seq<int>>)
    requires forall k :: 0 <= k < |queues| ==> queues[k] == []
    ensures Entries(queues) == 0
  {
    if queues != [] { EmptyQueues(queues[1..]); }
  }

  lemma InitialRoused(levels: nat, mutexes: nat)
    ensures Roused(Initial(levels, mutexes))
  {
    EmptyQueues(Initial(levels, mutexes).queues);
  }

  lemma {:induction false} AlwaysRoused(states: seq<State>, actions: seq<Action>, levels: nat, mutexes: nat, i: nat)
    requires Run(states, actions, levels, mutexes) && i < |states|
    ensures Roused(states[i])
  {
    hide Enabled, Apply, Roused;
    if i == 0 {
      InitialRoused(levels, mutexes);
    } else {
      AlwaysRoused(states, actions, levels, mutexes, i - 1);
      StepRouses(states[i - 1], actions[i - 1]);
    }
  }

  lemma {:induction false} NoEntries(queues: seq<seq<int>>, k: nat)
    requires Entries(queues) == 0 && k < |queues|
    ensures queues[k] == []
  {
    if 0 < k { NoEntries(queues[1..], k - 1); }
  }

  /** The dispatcher is never asleep, with no post on its way, while there is work for it: asleep for want of READY
      processes, it finds every queue empty; asleep for want of a CPU, there is no free one. And no connected CPU is
      ever left neither free nor with a process. */
  lemma NeverAsleepInVain(states: seq<State>, actions: seq<Action>, levels: nat, mutexes: nat, i: nat)
    requires Run(states, actions, levels, mutexes) && i < |states|
    ensures var s := states[i];
            && (s.pcp == Top && s.readyTokens == 0 && s.readyPosts == 0 ==> forall k :: 0 <= k < |s.queues| ==> s.queues[k] == [])
            && (s.pcp in {Sleeping, Retrying} && s.cpuTokens == 0 && s.cpuPosts == 0 ==> !SomeFree(s.slots))
            && (forall j :: 0 <= j < |s.slots| && s.slots[j].connected ==>
                  s.slots[j].available || s.slots[j].current.Some? || s.slots[j].hand.Some?)
  {
    hide Run;
    AlwaysRoused(states, actions, levels, mutexes, i);
    var s := states[i];
    assert forall j :: 0 <= j < |s.slots| ==> SlotOk(s.slots[j]);
    if s.pcp == Top && s.readyTokens == 0 && s.readyPosts == 0 {
      forall k | 0 <= k < |s.queues| ensures s.queues[k] == [] {
        NoEntries(s.queues, k);
      }
    }
  }

  /* ---------- preemption between queues ---------- */

  /** A CPU as the choice of a victim sees it; `running` if it is connected and has a process. */
  datatype Candidate = Candidate(running: bool, pid: int, priority: int, start: int)

  /** `a` is a better victim than `b`: less urgent, or as urgent and running for longer. */
  predicate Rather(a: Candidate, b: Candidate) {
    a.priority > b.priority || (a.priority == b.priority && a.start < b.start)
  }

  /** The choice in verificar_y_desalojar_por_prioridad: nobody unless some running process is strictly less urgent
      than the new one, and then the least urgent, among those the one running longest, and among those the first. */
  method ChooseVictim(cpus: seq<Candidate>, priority: int) returns (victim: int)
    ensures victim == -1 <==> forall i :: 0 <= i < |cpus| && cpus[i].running ==> cpus[i].priority <= priority
    ensures victim != -1 ==>
      && 0 <= victim < |cpus| && cpus[victim].running && priority < cpus[victim].priority
      && forall i :: 0 <= i < |cpus| && cpus[i].running && i != victim ==>
           !Rather(cpus[i], cpus[victim]) && (i < victim ==> Rather(cpus[victim], cpus[i]))
  {
    victim := -1;
    var i := 0;
    while i < |cpus|
      invariant 0 <= i <= |cpus| && -1 <= victim < i
      invariant victim == -1 ==> forall k :: 0 <= k < i ==> !cpus[k].running
      invariant victim != -1 ==> cpus[victim].running
      invariant victim != -1 ==> forall k :: 0 <= k < i && cpus[k].running && k != victim ==>
                  !Rather(cpus[k], cpus[victim]) && (k < victim ==> Rather(cpus[victim], cpus[k]))
    {
      if cpus[i].running {
        if victim == -1 || cpus[i].priority > cpus[victim].priority {
          victim := i;
        } else if cpus[i].priority == cpus[victim].priority && cpus[i].start < cpus[victim].start {
          victim := i;
        }
      }
      i := i + 1;
    }
    if victim != -1 && cpus[victim].priority <= priority { victim := -1; }
  }
}
