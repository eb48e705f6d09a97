/** The medium-term suspension protocol of the scheduler as a state machine
    (kernel_scheduler/src/planificadorMedianoPlazo.c and kernel_scheduler/src/colaIO.c). Each action is one
    critical section, one exchange on the memory socket, or one unlocked access to a PCB that others may see; the
    actions of all threads interleave freely. */
module Suspension {
  import opened Estados
  import opened Words

  /** Where a process really is: in a READY queue, on a CPU or in the hands of the CPU's thread, in a mutex queue;
      entering BLOCK for I/O, in the queue of blocked processes while its I/O gets from one stage to the next,
      taken out of that queue by the I/O worker, waiting in SUSP_READY, or over. */
  datatype Where =
    | InReady | OnCpu | OnMutex
    | Entering | Queued | Timed | Serving | Finished
    | Taken | TookRam | Written | Failed | TookSusp | Deferred
    | Waiting | Over

  /** A mutex wait whose thread still has to raise block_epoch or, once `raised`, to read it for the timer. `origin`
      is the wait, by the count of `blocks`. */
  datatype Late = Late(origin: nat, raised: bool)

  /** `dumped`: suspendido_en_swap. `mine`: the epoch that the current I/O wait took for its timer. `pending`:
      stdin_pendiente is set. `blocks` counts how often the process has blocked. `due`: the dispatcher has sent the
      process to a CPU and has not yet written EXEC into its estado. */
  datatype Pcb = Pcb(estado: Estado, at: Where, stdin: bool, dumped: bool, epoch: nat, mine: nat, pending: bool,
                     blocks: nat, late: seq<Late>, due: bool)

  datatype Stage = Sleeping | Marked | Listed | Dumped | Done

  /** `origin` is the wait that started the timer, by the count of `blocks`. */
  datatype Timer = Timer(pid: int, epoch: nat, origin: nat, stage: Stage)

  /** Where the medium-term scheduler is in its loop over the candidates. */
  datatype Pmp =
    | Resting
    | Trying(cands: seq<int>)
    | Accepted(pid: int, cands: seq<int>)
    | Delisted(pid: int, cands: seq<int>)
    | Restored(pid: int, cands: seq<int>)
    | Broken(pid: int, cands: seq<int>)

  /** What can be seen from outside: the messages to Kernel Memory, and a process blocking, getting the result of
      its STDIN, becoming READY and ending. */
  datatype Event =
    | Blocked(pid: int, io: bool)
    | Suspend(pid: int, origin: nat)
    | SuspendAck(pid: int)
    | Restore(pid: int, accepted: bool)
    | Access(pid: int)
    | Result(pid: int)
    | Write(pid: int, ok: bool)
    | Readied(pid: int)
    | Ended(pid: int)

  datatype State = State(procs: map<int, Pcb>, timers: seq<Timer>, listed: seq<int>, pmp: Pmp, log: seq<Event>)

  /** What happens to one process: to its execution, its mutex waits and its I/O. */
  datatype Step =
    | Send | WriteExec | Preempt | Use | Leave
    | WaitMutex | RaiseEpoch(k: nat) | StartLate(k: nat) | TakeMutex
    | BeginIo(stdin: bool) | EnterQueue | StartTimer | Enqueue
    | IoDone | Extract | Look | WriteNow(ok: bool) | Wake | Kill | Defer | MarkReady

  datatype Action =
    | Create(pid: int)
    | Of(pid: int, step: Step)
    | Mark(t: nat) | List(t: nat) | Dump(t: nat) | Flag(t: nat)
    | Snapshot(cands: seq<int>) | Try(accepted: bool) | Delist | WriteDeferred(ok: bool) | WakeRestored | KillRestored | Rest

  const NEWBORN := Pcb(Ready, InReady, false, false, 0, 0, false, 0, [], false)

  const INITIAL := State(map[], [], [], Resting, [])

  predicate Distinct(xs: seq<int>) {
    forall i, j :: 0 <= i < j < |xs| ==> xs[i] != xs[j]
  }

  /** In cola_procesos_block. */
  predicate InBlock(p: Pcb) {
    p.at == Queued || p.at == Timed || p.at == Serving || p.at == Finished
  }

  /** The candidates of a snapshot: the listed processes in SUSP_READY, in the order of the sort. */
  ghost predicate Candidates(s: State, cands: seq<int>) {
    && Distinct(cands)
    && forall x :: x in cands <==> x in s.listed && x in s.procs && s.procs[x].estado == SuspReady
  }

  predicate TimerAt(s: State, t: nat, stage: Stage) {
    t < |s.timers| && s.timers[t].stage == stage
  }

  /** What the code tests before a step, or where its thread has got to. The estado may be other than the place
      suggests, as the dispatcher writes it late. */
  predicate Can(p: Pcb, step: Step) {
    match step
    case Send => p.at == InReady && !p.due
    case WriteExec => p.due
    case Preempt => p.at == OnCpu
    case Use => p.at == OnCpu
    case Leave => p.at == OnCpu
    case WaitMutex => p.at == OnCpu
    case RaiseEpoch(k) => k < |p.late| && !p.late[k].raised
    case StartLate(k) => k < |p.late| && p.late[k].raised
    case TakeMutex => p.at == OnMutex
    case BeginIo(_) => p.at == OnCpu
    case EnterQueue => p.at == Entering
    case StartTimer => p.at == Queued
    case Enqueue => p.at == Timed
    case IoDone => p.at == Serving
    case Extract => p.at == Finished && !(p.estado == SuspBlock && !p.dumped)
    case Look => p.at == Taken
    case WriteNow(_) => p.at == TookRam
    case Wake => p.at == Written
    case Kill => p.at == Failed
    case Defer => p.at == TookSusp
    case MarkReady => p.at == Deferred
  }

  function NextPcb(p: Pcb, step: Step): Pcb {
    match step
    case Send => p.(at := OnCpu, due := true)
    case WriteExec => p.(estado := if p.at == Over then p.estado else Exec, due := false)
    case Preempt => p.(at := InReady, estado := Ready)
    case Use => p
    case Leave => p.(at := Over, estado := Exit)
    case WaitMutex => p.(at := OnMutex, estado := Block, blocks := p.blocks + 1, late := p.late + [Late(p.blocks + 1, false)])
    case RaiseEpoch(k) => if k < |p.late| then p.(epoch := p.epoch + 1, late := p.late[k := Late(p.late[k].origin, true)]) else p
    case StartLate(k) => if k < |p.late| then p.(late := p.late[..k] + p.late[k + 1..]) else p
    case TakeMutex => p.(at := InReady, estado := Ready)
    case BeginIo(stdin) => p.(at := Entering, estado := Block, stdin := stdin)
    case EnterQueue => p.(at := Queued, epoch := p.epoch + 1, mine := p.epoch + 1, blocks := p.blocks + 1)
    case StartTimer => p.(at := Timed)
    case Enqueue => p.(at := Serving)
    case IoDone => p.(at := Finished)
    case Extract => p.(at := Taken)
    case Look => p.(at := if p.estado == SuspBlock then TookSusp else TookRam)
    case WriteNow(ok) => p.(at := if p.stdin && !ok then Failed else Written)
    case Wake => p.(at := InReady, estado := Ready)
    case Kill => p.(at := Over, estado := Exit)
    case Defer => p.(at := Deferred, pending := p.stdin)
    case MarkReady => p.(at := Waiting, estado := SuspReady)
  }

  function Shows(pid: int, p: Pcb, step: Step): seq<Event> {
    match step
    case Use => [Access(pid)]
    case Leave => [Ended(pid)]
    case WaitMutex => [Blocked(pid, false)]
    case EnterQueue => [Blocked(pid, true)]
    case IoDone => if p.stdin then [Result(pid)] else []
    case WriteNow(ok) => if p.stdin then [Write(pid, ok)] else []
    case Wake => [Readied(pid)]
    case Kill => [Ended(pid)]
    case _ => []
  }

  /** notificar_proceso_en_block. After a mutex wait the epoch is read without a lock, as it is by then. */
  function Starts(pid: int, p: Pcb, step: Step): seq<Timer> {
    match step
    case StartLate(k) => if k < |p.late| then [Timer(pid, p.epoch, p.late[k].origin, Sleeping)] else []
    case StartTimer => [Timer(pid, p.mine, p.blocks, Sleeping)]
    case _ => []
  }

  /** There is one dispatcher, which writes EXEC for one process before it sends another. */
  ghost predicate Enabled(s: State, a: Action) {
    match a
    case Create(pid) => pid !in s.procs
    case Of(pid, step) =>
      && pid in s.procs && Can(s.procs[pid], step)
      && (step == Send ==> forall x :: x in s.procs ==> !s.procs[x].due)
    case Mark(t) => TimerAt(s, t, Sleeping)
    case List(t) => TimerAt(s, t, Marked)
    case Dump(t) => TimerAt(s, t, Listed)
    case Flag(t) => TimerAt(s, t, Dumped)
    case Snapshot(cands) => s.pmp == Resting && Candidates(s, cands)
    case Try(_) => s.pmp.Trying? && s.pmp.cands != []
    case Delist => s.pmp.Accepted?
    case WriteDeferred(_) => s.pmp.Delisted? && s.pmp.pid in s.procs
    case WakeRestored => s.pmp.Restored? && s.pmp.pid in s.procs
    case KillRestored => s.pmp.Broken? && s.pmp.pid in s.procs
    case Rest => s.pmp.Trying? && s.pmp.cands == []
  }

  /** The two races that the code does not exclude. An I/O wait must not begin while the thread of an earlier mutex
      wait still has to raise or to read block_epoch; it does no harm if the estado of the process is not, or will
      not stay, BLOCK. And no timer may find a process in BLOCK that the dispatcher is still about to put in EXEC. */
  ghost predicate Orderly(s: State, a: Action)
    requires Enabled(s, a)
  {
    match a
    case Of(pid, step) => InOrder(s.procs[pid], step)
    case Mark(t) => Marks(s, t) ==> !s.procs[s.timers[t].pid].due
    case _ => true
  }

  predicate InOrder(p: Pcb, step: Step) {
    step == EnterQueue ==> p.late == [] || p.due || p.estado != Block
  }

  /** The test of the timer under mutex_block. */
  predicate Marks(s: State, t: nat)
    requires t < |s.timers|
  {
    var x := s.timers[t];
    x.pid in s.procs && InBlock(s.procs[x.pid]) && s.procs[x.pid].estado == Block && s.procs[x.pid].epoch == x.epoch
  }

  /** The state with process `pid` changed to `p` and events `es` observed. */
  function With(s: State, pid: int, p: Pcb, es: seq<Event>): State {
    s.(procs := s.procs[pid := p], log := s.log + es)
  }

  function AtStage(s: State, t: nat, stage: Stage): State
    requires t < |s.timers|
  {
    s.(timers := s.timers[t := s.timers[t].(stage := stage)])
  }

  function ApplyStep(s: State, pid: int, step: Step): State
    requires pid in s.procs
  {
    var p := s.procs[pid];
    With(s, pid, NextPcb(p, step), Shows(pid, p, step))
      .(timers := s.timers + Starts(pid, p, step), listed := if step == Kill then Remove(s.listed, pid) else s.listed)
  }

  /** suspension_timer_thread: the check under mutex_block when the time is up. */
  function MarkTimer(s: State, t: nat): State
    requires t < |s.timers|
  {
    var pid := s.timers[t].pid;
    if Marks(s, t) then
      AtStage(With(s, pid, s.procs[pid].(estado := SuspBlock, dumped := false), []), t, Marked)
    else AtStage(s, t, Done)
  }

  /** agregar_a_lista_suspendidos. */
  function ListTimer(s: State, t: nat): State
    requires t < |s.timers|
  {
    AtStage(s, t, Listed).(listed := s.listed + [s.timers[t].pid])
  }

  /** SUSPENDER_PROCESO and its acknowledgement, under mutex_memory_socket. */
  function DumpTimer(s: State, t: nat): State
    requires t < |s.timers|
  {
    var x := s.timers[t];
    AtStage(s, t, Dumped).(log := s.log + [Suspend(x.pid, x.origin), SuspendAck(x.pid)])
  }

  function FlagTimer(s: State, t: nat): State
    requires t < |s.timers|
  {
    var pid := s.timers[t].pid;
    if pid in s.procs && InBlock(s.procs[pid]) then AtStage(With(s, pid, s.procs[pid].(dumped := true), []), t, Done)
    else AtStage(s, t, Done)
  }

  /** DES_SUSPENDER_PROCESO for the first candidate. */
  function TryFirst(s: State, accepted: bool): State
    requires s.pmp.Trying? && s.pmp.cands != []
  {
    var pid := s.pmp.cands[0];
    s.(log := s.log + [Restore(pid, accepted)],
       pmp := if accepted then Accepted(pid, s.pmp.cands[1..]) else Trying(s.pmp.cands[1..]))
  }

  function DelistAccepted(s: State): State
    requires s.pmp.Accepted?
  {
    s.(listed := Remove(s.listed, s.pmp.pid), pmp := Delisted(s.pmp.pid, s.pmp.cands))
  }

  function WritePending(s: State, ok: bool): State
    requires s.pmp.Delisted? && s.pmp.pid in s.procs
  {
    var pid := s.pmp.pid;
    if s.procs[pid].pending then
      With(s, pid, s.procs[pid].(pending := false), [Write(pid, ok)])
        .(pmp := if ok then Restored(pid, s.pmp.cands) else Broken(pid, s.pmp.cands))
    else s.(pmp := Restored(pid, s.pmp.cands))
  }

  function WakeProcess(s: State): State
    requires s.pmp.Restored? && s.pmp.pid in s.procs
  {
    With(s, s.pmp.pid, s.procs[s.pmp.pid].(at := InReady, estado := Ready), [Readied(s.pmp.pid)]).(pmp := Trying(s.pmp.cands))
  }

  /** finalizar_pcb_por_seg_fault. */
  function KillProcess(s: State): State
    requires s.pmp.Broken? && s.pmp.pid in s.procs
  {
    With(s, s.pmp.pid, s.procs[s.pmp.pid].(at := Over, estado := Exit), [Ended(s.pmp.pid)])
      .(pmp := Trying(s.pmp.cands), listed := Remove(s.listed, s.pmp.pid))
  }

  /** The effect of each critical section. */
  ghost function Apply(s: State, a: Action): State
    requires Enabled(s, a)
  {
    match a
    case Create(pid) => With(s, pid, NEWBORN, [])
    case Of(pid, step) => ApplyStep(s, pid, step)
    case Mark(t) => MarkTimer(s, t)
    case List(t) => ListTimer(s, t)
    case Dump(t) => DumpTimer(s, t)
    case Flag(t) => FlagTimer(s, t)
    case Snapshot(cands) => s.(pmp := Trying(cands))
    case Try(accepted) => TryFirst(s, accepted)
    case Delist => DelistAccepted(s)
    case WriteDeferred(ok) => WritePending(s, ok)
    case WakeRestored => WakeProcess(s)
    case KillRestored => KillProcess(s)
    case Rest => s.(pmp := Resting)
  }

  /** A run: any actions, of any threads, in any order in which they are enabled. */
  ghost predicate Run(states: seq<State>, actions: seq<Action>) {
    && |states| == |actions| + 1 && states[0] == INITIAL
    && forall i :: 0 <= i < |actions| ==>
         Enabled(states[i], actions[i]) && states[i + 1] == Apply(states[i], actions[i])
  }

  ghost predicate OrderlyRun(states: seq<State>, actions: seq<Action>) {
    Run(states, actions) && forall i :: 0 <= i < |actions| ==> Orderly(states[i], actions[i])
  }

  /* ---------- an independent observer ---------- */

  datatype Phase = InRam | Dumping | InSwap | Faulted | Gone | Wrong

  datatype Answer = NotYet | Owed | Stored

  /** What an observer of the events of one process knows: where its segments are, whether the STDIN result of the
      current wait has come and been written, how many times it has blocked, and whether it is blocked on I/O now. */
  datatype Watch = Watch(phase: Phase, result: Answer, episode: nat, blocked: bool)

  const START := Watch(InRam, NotYet, 0, false)

  /** The rules of the protocol. Whatever they do not allow is wrong, for good. */
  function Observe(w: Watch, e: Event): Watch {
    match e
    case Blocked(_, io) =>
      if w.phase == InRam && w.result != Owed && !w.blocked then w.(result := NotYet, episode := w.episode + 1, blocked := io)
      else w.(phase := Wrong)
    case Suspend(_, origin) =>
      if w.phase == InRam && w.blocked && origin == w.episode then w.(phase := Dumping) else w.(phase := Wrong)
    case SuspendAck(_) => if w.phase == Dumping then w.(phase := InSwap) else w.(phase := Wrong)
    case Restore(_, accepted) =>
      if w.phase == InSwap then if accepted then w.(phase := InRam) else w else w.(phase := Wrong)
    case Access(_) => if w.phase == InRam && !w.blocked then w else w.(phase := Wrong)
    case Result(_) =>
      if w.blocked && w.result == NotYet && w.phase in {InRam, Dumping, InSwap} then w.(result := Owed) else w.(phase := Wrong)
    case Write(_, ok) =>
      if w.phase == InRam && w.result == Owed then w.(result := Stored, phase := if ok then InRam else Faulted)
      else w.(phase := Wrong)
    case Readied(_) =>
      if w.phase == InRam && w.blocked && w.result != Owed then w.(blocked := false) else w.(phase := Wrong)
    case Ended(_) =>
      if w.phase == Faulted || (w.phase == InRam && !w.blocked) then w.(phase := Gone) else w.(phase := Wrong)
  }

  function Seen(log: seq<Event>, pid: int): Watch {
    if log == [] then START
    else
      var w, e := Seen(log[..|log| - 1], pid), log[|log| - 1];
      if e.pid == pid then Observe(w, e) else w
  }

  lemma SeenMore(log: seq<Event>, e: Event, pid: int)
    ensures Seen(log + [e], pid) == if e.pid == pid then Observe(Seen(log, pid), e) else Seen(log, pid)
  {
    assert (log + [e])[..|log|] == log;
  }

  /* ---------- the invariant ---------- */

  datatype Hold = Free | HeldListed | HeldOut | HeldBack | HeldBroken

  /** What the medium-term scheduler is doing with the process. */
  function HoldOf(pmp: Pmp, pid: int): Hold {
    match pmp
    case Accepted(x, _) => if x == pid then HeldListed else Free
    case Delisted(x, _) => if x == pid then HeldOut else Free
    case Restored(x, _) => if x == pid then HeldBack else Free
    case Broken(x, _) => if x == pid then HeldBroken else Free
    case _ => Free
  }

  /** What the observer must have seen of a process in this situation, and whether it is in the suspended list. */
  predicate PcbOk(p: Pcb, w: Watch, listed: bool, h: Hold) {
    && w.episode == p.blocks && p.mine <= p.epoch
    && (forall k :: 0 <= k < |p.late| ==> p.late[k].origin <= p.blocks)
    && (p.at != Waiting ==> h == Free)
    && (p.due ==> p.estado != SuspBlock && p.estado != SuspReady)
    && match p.at {
       case InReady => Calm(p, w, listed)
       case OnCpu => Calm(p, w, listed)
       case OnMutex => Calm(p, w, listed)
       case Entering => Calm(p, w, listed)
       case Queued => BlockOk(p, w, listed)
       case Timed => BlockOk(p, w, listed)
       case Serving => BlockOk(p, w, listed)
       case Finished => BlockOk(p, w, listed)
       case Taken =>
         && !p.pending && w.blocked && w.result == Came(p.stdin)
         && if p.estado == SuspBlock then p.dumped && w.phase == InSwap && listed else Resident(p, w, listed)
       case TookRam => Resident(p, w, listed) && !p.pending && w.blocked && w.result == Came(p.stdin)
       case Written => Resident(p, w, listed) && !p.pending && w.blocked && w.result != Owed
       case Failed => NotSuspended(p) && w.phase == Faulted && !listed && !p.pending
       case TookSusp => p.estado == SuspBlock && w.phase == InSwap && listed && w.blocked && w.result == Came(p.stdin) && !p.pending
       case Deferred =>
         p.estado == SuspBlock && w.phase == InSwap && listed && w.blocked && w.result == Came(p.stdin) && p.pending == p.stdin
       case Waiting =>
         && p.estado == SuspReady && (w.result == Owed <==> p.pending)
         && match h {
            case Free => w.phase == InSwap && w.blocked && listed
            case HeldListed => w.phase == InRam && w.blocked && listed
            case HeldOut => w.phase == InRam && w.blocked && !listed
            case HeldBack => w.phase == InRam && w.blocked && !listed && !p.pending
            case HeldBroken => w.phase == Faulted && !listed && !p.pending
            }
       case Over => p.estado == Exit && w.phase == Gone && !listed && !p.pending
       }
  }

  /** Not waiting for I/O. */
  predicate Calm(p: Pcb, w: Watch, listed: bool) {
    Resident(p, w, listed) && !p.pending && w.result != Owed && !w.blocked
  }

  predicate Resident(p: Pcb, w: Watch, listed: bool) {
    NotSuspended(p) && w.phase == InRam && !listed
  }

  predicate NotSuspended(p: Pcb) {
    p.estado == Ready || p.estado == Exec || p.estado == Block
  }

  /** In the queue of blocked processes. A process that a timer may still find in BLOCK has no thread about to touch
      its epoch. */
  predicate BlockOk(p: Pcb, w: Watch, listed: bool) {
    && !p.pending && w.blocked && w.result == Came(p.stdin && p.at == Finished)
    && if p.estado == SuspBlock then
         (p.dumped ==> w.phase == InSwap && listed) && (w.phase == InRam || w.phase == InSwap)
       else
         Resident(p, w, listed) && (p.estado == Block && !p.due ==> p.late == [] && p.mine == p.epoch)
  }

  function Came(b: bool): Answer {
    if b then Owed else NotYet
  }

  /** A sleeping timer whose epoch is that of a wait it could suspend was started by that wait. One past its check is
      suspending the wait it was started by, and the process waits for it. */
  predicate TimerOk(t: Timer, p: Pcb, w: Watch, listed: bool) {
    && t.epoch <= p.epoch
    && (t.epoch == p.epoch && InBlock(p) && p.estado == Block && !p.due ==> t.origin == p.blocks)
    && (Active(t) ==>
          && p.estado == SuspBlock && InBlock(p) && !p.dumped && t.origin == p.blocks
          && w.phase == (if t.stage == Dumped then InSwap else InRam)
          && (listed <==> t.stage != Marked))
  }

  predicate Active(t: Timer) {
    t.stage == Marked || t.stage == Listed || t.stage == Dumped
  }

  ghost predicate PmpOk(s: State) {
    && (s.pmp != Resting ==>
          Distinct(s.pmp.cands)
          && forall x :: x in s.pmp.cands ==> x in s.procs && s.procs[x].estado == SuspReady && HoldOf(s.pmp, x) == Free)
    && (s.pmp != Resting && !s.pmp.Trying? ==> s.pmp.pid in s.procs && s.procs[s.pmp.pid].estado == SuspReady)
  }

  ghost predicate Inv(s: State) {
    && (forall x :: x in s.procs ==> PcbOk(s.procs[x], Seen(s.log, x), x in s.listed, HoldOf(s.pmp, x)))
    && (forall x :: x !in s.procs ==> Seen(s.log, x) == START && x !in s.listed)
    && (forall i :: 0 <= i < |s.timers| ==>
          s.timers[i].pid in s.procs
          && TimerOk(s.timers[i], s.procs[s.timers[i].pid], Seen(s.log, s.timers[i].pid), s.timers[i].pid in s.listed))
    && (forall i, j :: 0 <= i < j < |s.timers| && Active(s.timers[i]) && Active(s.timers[j]) ==> s.timers[i].pid != s.timers[j].pid)
    && Distinct(s.listed) && PmpOk(s)
  }

  function After(w: Watch, es: seq<Event>): Watch {
    if es == [] then w else Observe(w, es[0])
  }

  lemma SeenAfter(log: seq<Event>, es: seq<Event>, pid: int)
    requires |es| <= 1
    ensures es == [] || es[0].pid == pid ==> Seen(log + es, pid) == After(Seen(log, pid), es)
    ensures es == [] || es[0].pid != pid ==> Seen(log + es, pid) == Seen(log, pid)
  {
    if es == [] {
      assert log + es == log;
    } else {
      assert es == [es[0]];
      SeenMore(log, es[0], pid);
    }
  }

  /* ---------- every action keeps it ---------- */

  /** For one process, each orderly step does what the observer expects: while it runs, ... */
  lemma RunStepOk(pid: int, p: Pcb, step: Step, w: Watch, listed: bool, h: Hold)
    requires PcbOk(p, w, listed, h) && Can(p, step) && OfRun(step)
    ensures PcbOk(NextPcb(p, step), After(w, Shows(pid, p, step)), listed, h)
  {}

  /** ... when it waits for a mutex, ... */
  lemma MutexStepOk(pid: int, p: Pcb, step: Step, w: Watch, listed: bool, h: Hold)
    requires PcbOk(p, w, listed, h) && Can(p, step) && (step == WaitMutex || step == TakeMutex)
    ensures PcbOk(NextPcb(p, step), After(w, Shows(pid, p, step)), listed, h)
  {}

  /** ... and after that wait, ... */
  lemma LateStepOk(pid: int, p: Pcb, step: Step, w: Watch, listed: bool, h: Hold)
    requires PcbOk(p, w, listed, h) && Can(p, step) && (step.RaiseEpoch? || step.StartLate?)
    ensures PcbOk(NextPcb(p, step), After(w, Shows(pid, p, step)), listed, h)
  {}

  /** ... on the way to a wait for I/O, ... */
  lemma EntryStepOk(pid: int, p: Pcb, step: Step, w: Watch, listed: bool, h: Hold)
    requires PcbOk(p, w, listed, h) && Can(p, step) && InOrder(p, step)
    requires step == EnterQueue || step == StartTimer || step == Enqueue || step == IoDone
    ensures PcbOk(NextPcb(p, step), After(w, Shows(pid, p, step)), listed, h)
  {}

  /** ... with the process taken out of the queue, ... */
  lemma WorkerStepOk(pid: int, p: Pcb, step: Step, w: Watch, listed: bool, h: Hold)
    requires PcbOk(p, w, listed, h) && Can(p, step) && (step == Extract || step == Look || step.WriteNow?)
    ensures PcbOk(NextPcb(p, step), After(w, Shows(pid, p, step)), listed, h)
  {}

  /** ... and at the end of the I/O. */
  lemma EndStepOk(pid: int, p: Pcb, step: Step, w: Watch, listed: bool, h: Hold)
    requires PcbOk(p, w, listed, h) && Can(p, step) && (step == Wake || step == Kill || step == Defer || step == MarkReady)
    ensures PcbOk(NextPcb(p, step), After(w, Shows(pid, p, step)), listed, h)
    ensures step == Kill ==> !listed
  {}

  predicate OfRun(step: Step) {
    match step
    case Send => true
    case WriteExec => true
    case Preempt => true
    case Use => true
    case Leave => true
    case BeginIo(_) => true
    case _ => false
  }

  lemma StepOk(pid: int, p: Pcb, step: Step, w: Watch, listed: bool, h: Hold)
    requires PcbOk(p, w, listed, h) && Can(p, step) && InOrder(p, step)
    ensures PcbOk(NextPcb(p, step), After(w, Shows(pid, p, step)), listed, h)
    ensures step == Kill ==> !listed
  {
    hide PcbOk, NextPcb, After, Shows, Can, InOrder;
    if OfRun(step) {
      RunStepOk(pid, p, step, w, listed, h);
    } else if step == WaitMutex || step == TakeMutex {
      MutexStepOk(pid, p, step, w, listed, h);
    } else if step.RaiseEpoch? || step.StartLate? {
      LateStepOk(pid, p, step, w, listed, h);
    } else if step == EnterQueue || step == StartTimer || step == Enqueue || step == IoDone {
      EntryStepOk(pid, p, step, w, listed, h);
    } else if step == Extract || step == Look || step.WriteNow? {
      WorkerStepOk(pid, p, step, w, listed, h);
    } else {
      EndStepOk(pid, p, step, w, listed, h);
    }
  }

  /** A step never lowers the epoch or takes a process out of SUSP_READY, ... */
  lemma StepRises(p: Pcb, step: Step, w: Watch, listed: bool, h: Hold)
    requires PcbOk(p, w, listed, h) && Can(p, step)
    ensures p.epoch <= NextPcb(p, step).epoch && (p.estado == SuspReady ==> NextPcb(p, step).estado == SuspReady)
  {
    if p.estado == SuspReady { SuspReadyWaits(p, w, listed, h); }
    hide PcbOk;
  }

  lemma SuspReadyWaits(p: Pcb, w: Watch, listed: bool, h: Hold)
    requires PcbOk(p, w, listed, h) && p.estado == SuspReady
    ensures p.at == Waiting && !p.due
  {}

  /** ... a timer that it starts could suspend only the wait that starts it, ... */
  lemma StepStarts(pid: int, p: Pcb, step: Step, w: Watch, listed: bool, h: Hold)
    requires PcbOk(p, w, listed, h) && Can(p, step) && InOrder(p, step)
    ensures forall t :: t in Starts(pid, p, step) ==>
      t.pid == pid && t.stage == Sleeping && TimerOk(t, NextPcb(p, step), After(w, Shows(pid, p, step)), listed)
  {
    hide After, Observe, Shows;
  }

  /** ... one that sleeps could after it suspend only the wait it could before, ... */
  lemma StepSleeps(pid: int, p: Pcb, step: Step, w: Watch, listed: bool, h: Hold, t: Timer)
    requires PcbOk(p, w, listed, h) && Can(p, step) && InOrder(p, step) && TimerOk(t, p, w, listed) && !Active(t)
    ensures TimerOk(t, NextPcb(p, step), After(w, Shows(pid, p, step)), listed)
  {
    hide After, Observe, Shows;
  }

  /** ... and one that is suspending the process is not disturbed. */
  lemma StepWaits(pid: int, p: Pcb, step: Step, w: Watch, listed: bool, h: Hold, t: Timer)
    requires PcbOk(p, w, listed, h) && Can(p, step) && InOrder(p, step) && TimerOk(t, p, w, listed)
    ensures TimerOk(t, NextPcb(p, step), After(w, Shows(pid, p, step)), listed)
  {
    if !Active(t) {
      hide *;
      StepSleeps(pid, p, step, w, listed, h, t);
    }
  }

  /** A step that changes one process and starts timers for it keeps the invariant, if it does so for that process. */
  lemma LocalStep(s: State, pid: int, p: Pcb, es: seq<Event>, extra: seq<Timer>)
    requires Inv(s) && |es| <= 1 && forall e :: e in es ==> e.pid == pid
    requires PcbOk(p, After(Seen(s.log, pid), es), pid in s.listed, HoldOf(s.pmp, pid))
    requires pid in s.procs ==> s.procs[pid].epoch <= p.epoch && (s.procs[pid].estado == SuspReady ==> p.estado == SuspReady)
    requires forall t :: t in s.timers && t.pid == pid ==> TimerOk(t, p, After(Seen(s.log, pid), es), pid in s.listed)
    requires forall t :: t in extra ==>
      t.pid == pid && t.stage == Sleeping && TimerOk(t, p, After(Seen(s.log, pid), es), pid in s.listed)
    ensures Inv(With(s, pid, p, es).(timers := s.timers + extra))
  {
    hide PcbOk, Seen, After;
    var s' := With(s, pid, p, es).(timers := s.timers + extra);
    forall x ensures Seen(s'.log, x) == if x == pid then After(Seen(s.log, pid), es) else Seen(s.log, x) {
      SeenAfter(s.log, es, x);
    }
    forall i | 0 <= i < |s'.timers|
      ensures s'.timers[i].pid in s'.procs
      ensures TimerOk(s'.timers[i], s'.procs[s'.timers[i].pid], Seen(s'.log, s'.timers[i].pid), s'.timers[i].pid in s'.listed)
    {
      if i < |s.timers| {
        assert s.timers[i] in s.timers;
      } else {
        assert s'.timers[i] in extra;
      }
    }
    assert PmpOk(s');
  }

  lemma Known(s: State, x: int)
    requires Inv(s)
    ensures x in s.procs ==> PcbOk(s.procs[x], Seen(s.log, x), x in s.listed, HoldOf(s.pmp, x))
    ensures x !in s.procs ==> Seen(s.log, x) == START && x !in s.listed && HoldOf(s.pmp, x) == Free
                              && forall t :: t in s.timers ==> t.pid != x
    ensures x in s.procs ==> forall t :: t in s.timers && t.pid == x ==> TimerOk(t, s.procs[x], Seen(s.log, x), x in s.listed)
  {
    hide PcbOk, Seen, TimerOk;
    forall t | t in s.timers && t.pid == x && x in s.procs ensures TimerOk(t, s.procs[x], Seen(s.log, x), x in s.listed) {
      var i :| 0 <= i < |s.timers| && s.timers[i] == t;
    }
  }

  lemma ProcessKeeps(s: State, pid: int, step: Step)
    requires Inv(s) && pid in s.procs && Can(s.procs[pid], step) && InOrder(s.procs[pid], step)
    ensures Inv(ApplyStep(s, pid, step))
  {
    hide Inv, Seen, PcbOk, TimerOk, HoldOf, Observe, After, NextPcb, Shows, Starts, Can, InOrder;
    Known(s, pid);
    var p, w, listed := s.procs[pid], Seen(s.log, pid), pid in s.listed;
    StepOk(pid, p, step, w, listed, HoldOf(s.pmp, pid));
    StepRises(p, step, w, listed, HoldOf(s.pmp, pid));
    StepStarts(pid, p, step, w, listed, HoldOf(s.pmp, pid));
    forall t | t in s.timers && t.pid == pid
      ensures TimerOk(t, NextPcb(p, step), After(w, Shows(pid, p, step)), listed)
    {
      StepWaits(pid, p, step, w, listed, HoldOf(s.pmp, pid), t);
    }
    ShowsOwn(pid, p, step);
    LocalStep(s, pid, NextPcb(p, step), Shows(pid, p, step), Starts(pid, p, step));
    if step == Kill { RemoveAbsent(s.listed, pid); }
  }

  lemma ShowsOwn(pid: int, p: Pcb, step: Step)
    ensures |Shows(pid, p, step)| <= 1 && forall e :: e in Shows(pid, p, step) ==> e.pid == pid
  {}

  lemma {:induction false} RemoveAbsent(xs: seq<int>, x: int)
    requires x !in xs
    ensures Remove(xs, x) == xs
  {
    if xs != [] { RemoveAbsent(xs[1..], x); }
  }

  lemma NewbornOk()
    ensures PcbOk(NEWBORN, After(START, []), false, Free)
  {}

  lemma CreateKeeps(s: State, pid: int)
    requires Inv(s) && pid !in s.procs
    ensures Inv(With(s, pid, NEWBORN, []))
  {
    hide Inv, Seen, HoldOf, TimerOk, PcbOk, After, Observe;
    Known(s, pid);
    NewbornOk();
    var none: seq<Timer> := [];
    LocalStep(s, pid, NEWBORN, [], none);
    assert s.timers + none == s.timers;
  }

  /** A timer that takes a step, alone among the timers of its process in suspending it. */
  lemma TimerMoves(s: State, s': State, t: nat, pid: int)
    requires Inv(s) && t < |s.timers| && pid == s.timers[t].pid && s'.pmp == s.pmp
    requires |s'.timers| == |s.timers| && s'.timers[t].pid == pid
    requires forall i :: 0 <= i < |s.timers| && i != t ==> s'.timers[i] == s.timers[i]
    requires s'.procs.Keys == s.procs.Keys && pid in s.procs
    requires forall x :: x in s.procs && x != pid ==> s'.procs[x] == s.procs[x]
    requires forall x :: x != pid ==> Seen(s'.log, x) == Seen(s.log, x) && (x in s'.listed <==> x in s.listed)
    requires Distinct(s'.listed)
    requires PcbOk(s'.procs[pid], Seen(s'.log, pid), pid in s'.listed, HoldOf(s.pmp, pid))
    requires s'.procs[pid].epoch == s.procs[pid].epoch && s'.procs[pid].blocks == s.procs[pid].blocks && s.procs[pid].estado != SuspReady
    requires s'.procs[pid].at == s.procs[pid].at && s'.procs[pid].due == s.procs[pid].due
    requires s'.procs[pid].estado == s.procs[pid].estado || s'.procs[pid].estado == SuspBlock
    requires TimerOk(s'.timers[t], s'.procs[pid], Seen(s'.log, pid), pid in s'.listed)
    requires forall i :: 0 <= i < |s.timers| && i != t && s.timers[i].pid == pid ==> !Active(s.timers[i])
    ensures Inv(s')
  {
    hide PcbOk, Seen;
    forall i | 0 <= i < |s'.timers|
      ensures s'.timers[i].pid in s'.procs
      ensures TimerOk(s'.timers[i], s'.procs[s'.timers[i].pid], Seen(s'.log, s'.timers[i].pid), s'.timers[i].pid in s'.listed)
    {
      if i != t {
        assert TimerOk(s.timers[i], s.procs[s.timers[i].pid], Seen(s.log, s.timers[i].pid), s.timers[i].pid in s.listed);
      }
    }
    assert PmpOk(s');
  }

  /** What is known of the process that an active timer is suspending. */
  lemma Suspending(s: State, t: nat)
    requires Inv(s) && t < |s.timers| && Active(s.timers[t])
    ensures s.timers[t].pid in s.procs && HoldOf(s.pmp, s.timers[t].pid) == Free
    ensures PcbOk(s.procs[s.timers[t].pid], Seen(s.log, s.timers[t].pid), s.timers[t].pid in s.listed, Free)
    ensures TimerOk(s.timers[t], s.procs[s.timers[t].pid], Seen(s.log, s.timers[t].pid), s.timers[t].pid in s.listed)
    ensures forall i :: 0 <= i < |s.timers| && i != t && s.timers[i].pid == s.timers[t].pid ==> !Active(s.timers[i])
  {
    hide Seen;
  }

  lemma DoneKeeps(s: State, t: nat)
    requires Inv(s) && t < |s.timers| && s.timers[t].stage == Sleeping
    ensures Inv(AtStage(s, t, Done))
  {
    hide Seen, PcbOk;
    var s' := AtStage(s, t, Done);
    forall i | 0 <= i < |s'.timers|
      ensures s'.timers[i].pid in s'.procs
      ensures TimerOk(s'.timers[i], s'.procs[s'.timers[i].pid], Seen(s'.log, s'.timers[i].pid), s'.timers[i].pid in s'.listed)
    {
      assert TimerOk(s.timers[i], s.procs[s.timers[i].pid], Seen(s.log, s.timers[i].pid), s.timers[i].pid in s.listed);
    }
    assert PmpOk(s');
  }

  lemma MarkKeeps(s: State, t: nat)
    requires Inv(s) && TimerAt(s, t, Sleeping) && (Marks(s, t) ==> !s.procs[s.timers[t].pid].due)
    ensures Inv(MarkTimer(s, t))
  {
    hide Inv, Seen, HoldOf;
    var pid, s' := s.timers[t].pid, MarkTimer(s, t);
    assert s'.log == s.log;
    if !Marks(s, t) {
      DoneKeeps(s, t);
    } else {
      Known(s, pid);
      assert forall i :: 0 <= i < |s.timers| ==> s.timers[i] in s.timers;
      DistinctListed(s);
      TimerMoves(s, s', t, pid);
    }
  }

  lemma DistinctListed(s: State)
    requires Inv(s)
    ensures Distinct(s.listed)
  {}

  lemma ListKeeps(s: State, t: nat)
    requires Inv(s) && TimerAt(s, t, Marked)
    ensures Inv(ListTimer(s, t))
  {
    hide Inv, Seen, HoldOf;
    Suspending(s, t);
    DistinctListed(s);
    assert s.timers[t].pid in s.listed + [s.timers[t].pid];
    TimerMoves(s, ListTimer(s, t), t, s.timers[t].pid);
  }

  lemma DumpKeeps(s: State, t: nat)
    requires Inv(s) && TimerAt(s, t, Listed)
    ensures Inv(DumpTimer(s, t))
  {
    hide Inv, HoldOf;
    var x := s.timers[t];
    Suspending(s, t);
    DistinctListed(s);
    forall y
      ensures Seen(DumpTimer(s, t).log, y)
           == if y == x.pid then Observe(Observe(Seen(s.log, y), Suspend(x.pid, x.origin)), SuspendAck(x.pid)) else Seen(s.log, y)
    {
      SeenMore(s.log, Suspend(x.pid, x.origin), y);
      SeenMore(s.log + [Suspend(x.pid, x.origin)], SuspendAck(x.pid), y);
      assert DumpTimer(s, t).log == s.log + [Suspend(x.pid, x.origin)] + [SuspendAck(x.pid)];
    }
    hide Seen;
    TimerMoves(s, DumpTimer(s, t), t, x.pid);
  }

  lemma FlagKeeps(s: State, t: nat)
    requires Inv(s) && TimerAt(s, t, Dumped)
    ensures Inv(FlagTimer(s, t))
  {
    hide Inv, Seen, HoldOf;
    var s' := FlagTimer(s, t);
    Suspending(s, t);
    DistinctListed(s);
    assert s.log + [] == s.log;
    TimerMoves(s, s', t, s.timers[t].pid);
  }

  /** A step of the medium-term scheduler on one process. */
  lemma PmpMoves(s: State, s': State, pid: int)
    requires Inv(s) && s'.timers == s.timers && s'.procs.Keys == s.procs.Keys
    requires pid in s.procs && s.procs[pid].estado == SuspReady && s'.procs[pid].epoch == s.procs[pid].epoch && !InBlock(s'.procs[pid])
    requires forall x :: x in s.procs && x != pid ==> s'.procs[x] == s.procs[x]
    requires forall x :: x != pid ==> Seen(s'.log, x) == Seen(s.log, x) && (x in s'.listed <==> x in s.listed)
    requires forall x :: x != pid ==> HoldOf(s'.pmp, x) == HoldOf(s.pmp, x)
    requires PcbOk(s'.procs[pid], Seen(s'.log, pid), pid in s'.listed, HoldOf(s'.pmp, pid))
    requires Distinct(s'.listed) && PmpOk(s')
    ensures Inv(s')
  {
    hide PcbOk, Seen, HoldOf;
    forall i | 0 <= i < |s'.timers|
      ensures s'.timers[i].pid in s'.procs
      ensures TimerOk(s'.timers[i], s'.procs[s'.timers[i].pid], Seen(s'.log, s'.timers[i].pid), s'.timers[i].pid in s'.listed)
    {
      assert TimerOk(s.timers[i], s.procs[s.timers[i].pid], Seen(s.log, s.timers[i].pid), s.timers[i].pid in s.listed);
    }
  }

  lemma {:induction false} RemoveOne(xs: seq<int>, x: int)
    requires Distinct(xs)
    ensures Distinct(Remove(xs, x)) && forall y :: y in Remove(xs, x) <==> y in xs && y != x
  {
    if xs != [] && xs[0] != x {
      var rest := Remove(xs[1..], x);
      RemoveOne(xs[1..], x);
      assert xs[0] !in xs[1..] && xs == [xs[0]] + xs[1..];
      assert xs[0] !in rest;
      assert forall j :: 0 <= j < |rest| ==> rest[j] in rest;
    }
  }

  lemma Planner(s: State)
    requires Inv(s)
    ensures PmpOk(s) && Distinct(s.listed)
  {}

  lemma SnapshotKeeps(s: State, cands: seq<int>)
    requires Inv(s) && s.pmp == Resting && Candidates(s, cands)
    ensures Inv(s.(pmp := Trying(cands)))
  {
    hide PcbOk, Seen, TimerOk;
  }

  lemma RestKeeps(s: State)
    requires Inv(s) && s.pmp.Trying?
    ensures Inv(s.(pmp := Resting))
  {
    hide PcbOk, Seen, TimerOk;
  }

  lemma TryKeeps(s: State, accepted: bool)
    requires Inv(s) && s.pmp.Trying? && s.pmp.cands != []
    ensures Inv(TryFirst(s, accepted))
  {
    hide Inv, Seen;
    var pid, s' := s.pmp.cands[0], TryFirst(s, accepted);
    Planner(s);
    assert pid in s.pmp.cands;
    Known(s, pid);
    forall y ensures Seen(s'.log, y) == if y == pid then Observe(Seen(s.log, y), Restore(pid, accepted)) else Seen(s.log, y) {
      SeenMore(s.log, Restore(pid, accepted), y);
    }
    PmpMoves(s, s', pid);
  }

  lemma DelistKeeps(s: State)
    requires Inv(s) && s.pmp.Accepted?
    ensures Inv(DelistAccepted(s))
  {
    hide Inv, Seen;
    Planner(s);
    Known(s, s.pmp.pid);
    RemoveOne(s.listed, s.pmp.pid);
    PmpMoves(s, DelistAccepted(s), s.pmp.pid);
  }

  lemma WriteKeeps(s: State, ok: bool)
    requires Inv(s) && s.pmp.Delisted? && s.pmp.pid in s.procs
    ensures Inv(WritePending(s, ok))
  {
    hide Inv, Seen;
    var pid, s' := s.pmp.pid, WritePending(s, ok);
    Planner(s);
    Known(s, pid);
    if s.procs[pid].pending {
      forall y ensures Seen(s'.log, y) == if y == pid then Observe(Seen(s.log, y), Write(pid, ok)) else Seen(s.log, y) {
        SeenMore(s.log, Write(pid, ok), y);
      }
    }
    PmpMoves(s, s', pid);
  }

  lemma WakeKeeps(s: State)
    requires Inv(s) && s.pmp.Restored? && s.pmp.pid in s.procs
    ensures Inv(WakeProcess(s))
  {
    hide Inv, Seen;
    var pid, s' := s.pmp.pid, WakeProcess(s);
    Planner(s);
    Known(s, pid);
    forall y ensures Seen(s'.log, y) == if y == pid then Observe(Seen(s.log, y), Readied(pid)) else Seen(s.log, y) {
      SeenMore(s.log, Readied(pid), y);
    }
    PmpMoves(s, s', pid);
  }

  lemma KillKeeps(s: State)
    requires Inv(s) && s.pmp.Broken? && s.pmp.pid in s.procs
    ensures Inv(KillProcess(s))
  {
    hide Inv, Seen;
    var pid, s' := s.pmp.pid, KillProcess(s);
    Planner(s);
    Known(s, pid);
    RemoveOne(s.listed, pid);
    forall y ensures Seen(s'.log, y) == if y == pid then Observe(Seen(s.log, y), Ended(pid)) else Seen(s.log, y) {
      SeenMore(s.log, Ended(pid), y);
    }
    PmpMoves(s, s', pid);
  }

  /** Every action of an orderly run keeps the invariant. */
  lemma ActionKeeps(s: State, a: Action)
    requires Inv(s) && Enabled(s, a) && Orderly(s, a)
    ensures Inv(Apply(s, a))
  {
    hide Inv, ApplyStep, MarkTimer, ListTimer, DumpTimer, FlagTimer, TryFirst, DelistAccepted, WritePending, WakeProcess, KillProcess,
      With, AtStage, Candidates, Can, InOrder, Marks;
    match a
    case Create(pid) => CreateKeeps(s, pid);
    case Of(pid, step) => ProcessKeeps(s, pid, step);
    case Mark(t) => MarkKeeps(s, t);
    case List(t) => ListKeeps(s, t);
    case Dump(t) => DumpKeeps(s, t);
    case Flag(t) => FlagKeeps(s, t);
    case Snapshot(cands) => SnapshotKeeps(s, cands);
    case Try(accepted) => TryKeeps(s, accepted);
    case Delist => DelistKeeps(s);
    case WriteDeferred(ok) => WriteKeeps(s, ok);
    case WakeRestored => WakeKeeps(s);
    case KillRestored => KillKeeps(s);
    case Rest => RestKeeps(s);
  }
}
