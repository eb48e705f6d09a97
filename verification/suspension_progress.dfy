/** No process that waits for I/O is left waiting by the suspension protocol: whatever has happened, orderly steps lead to
    its becoming READY, or to its end when the result of its STDIN cannot be written
    (kernel_scheduler/src/planificadorMedianoPlazo.c and kernel_scheduler/src/colaIO.c). */
module SuspensionProgress {
  import opened Estados
  import opened Words
  import opened Suspension
  import opened SuspensionRuns

  /* ---------- who waits for whom ---------- */

  ghost predicate ActiveFor(timers: seq<Timer>, i: int, pid: int) {
    0 <= i < |timers| && timers[i].pid == pid && Active(timers[i])
  }

  ghost predicate HasActive(timers: seq<Timer>, pid: int) {
    exists i :: ActiveFor(timers, i, pid)
  }

  /** Suspended in the queue of blocked processes, with suspendido_en_swap not set: the I/O worker cannot take it out. */
  predicate Detained(p: Pcb) {
    p.estado == SuspBlock && InBlock(p) && !p.dumped
  }

  /** A process that is detained has a timer at work that will set the flag. */
  ghost predicate Attended(s: State) {
    forall x :: x in s.procs && Detained(s.procs[x]) ==> HasActive(s.timers, x)
  }

  /** The timer of the wait that process `p` is in, whatever has become of it. */
  ghost predicate TimerOf(timers: seq<Timer>, i: int, pid: int, p: Pcb) {
    0 <= i < |timers| && timers[i].pid == pid && timers[i].origin == p.blocks && timers[i].epoch == p.mine
  }

  predicate Requested(p: Pcb) {
    p.at == Timed || p.at == Serving || p.at == Finished
  }

  /** A wait whose I/O has been requested has had its timer started. */
  ghost predicate Armed(s: State) {
    forall x :: x in s.procs && Requested(s.procs[x]) ==> exists i :: TimerOf(s.timers, i, x, s.procs[x])
  }

  lemma StepDetains(p: Pcb, step: Step, w: Watch, listed: bool, h: Hold)
    requires PcbOk(p, w, listed, h) && Can(p, step) && Detained(NextPcb(p, step))
    ensures Detained(p)
  {}

  lemma StepRequests(p: Pcb, step: Step, w: Watch, listed: bool, h: Hold)
    requires PcbOk(p, w, listed, h) && Can(p, step) && Requested(NextPcb(p, step)) && step != StartTimer
    ensures Requested(p) && NextPcb(p, step).blocks == p.blocks && NextPcb(p, step).mine == p.mine
  {}

  lemma StepAttends(s: State, pid: int, step: Step)
    requires Inv(s) && Attended(s) && Armed(s) && pid in s.procs && Can(s.procs[pid], step)
    ensures Attended(ApplyStep(s, pid, step)) && Armed(ApplyStep(s, pid, step))
  {
    hide Inv, PcbOk, Detained, Requested, NextPcb, Can, Shows, Starts;
    var s', p := ApplyStep(s, pid, step), s.procs[pid];
    Suspension.Known(s, pid);
    forall x | x in s'.procs && Detained(s'.procs[x]) ensures HasActive(s'.timers, x) {
      if x == pid { StepDetains(p, step, Seen(s.log, pid), pid in s.listed, HoldOf(s.pmp, pid)); }
      var i :| ActiveFor(s.timers, i, x);
      assert ActiveFor(s'.timers, i, x);
    }
    forall x | x in s'.procs && Requested(s'.procs[x]) ensures exists i :: TimerOf(s'.timers, i, x, s'.procs[x]) {
      if x == pid && step == StartTimer {
        StartsOwn(pid, p);
        assert TimerOf(s'.timers, |s.timers|, x, s'.procs[x]);
      } else {
        if x == pid { StepRequests(p, step, Seen(s.log, pid), pid in s.listed, HoldOf(s.pmp, pid)); }
        var i :| TimerOf(s.timers, i, x, s.procs[x]);
        assert TimerOf(s'.timers, i, x, s'.procs[x]);
      }
    }
  }

  lemma StartsOwn(pid: int, p: Pcb)
    ensures Starts(pid, p, StartTimer) == [Timer(pid, p.mine, p.blocks, Sleeping)]
    ensures NextPcb(p, StartTimer).mine == p.mine && NextPcb(p, StartTimer).blocks == p.blocks
  {}

  /** A timer that takes a step attends to its process until it has set the flag. */
  lemma TimerAttends(s: State, s': State, t: nat)
    requires Attended(s) && Armed(s) && t < |s.timers| == |s'.timers| && s'.procs.Keys == s.procs.Keys
    requires forall i :: 0 <= i < |s.timers| && i != t ==> s'.timers[i] == s.timers[i]
    requires s'.timers[t] == s.timers[t].(stage := s'.timers[t].stage) && s.timers[t].pid in s.procs
    requires forall x :: x in s.procs && x != s.timers[t].pid ==> s'.procs[x] == s.procs[x]
    requires var p, p' := s.procs[s.timers[t].pid], s'.procs[s.timers[t].pid]; p' == p.(estado := p'.estado, dumped := p'.dumped)
    requires Detained(s'.procs[s.timers[t].pid]) ==>
               Active(s'.timers[t]) || (s'.procs == s.procs && !Active(s.timers[t]))
    ensures Attended(s') && Armed(s')
  {
    hide Detained;
    forall x | x in s'.procs && Detained(s'.procs[x]) ensures HasActive(s'.timers, x) {
      if x == s.timers[t].pid && Active(s'.timers[t]) {
        assert ActiveFor(s'.timers, t, x);
      } else {
        var i :| ActiveFor(s.timers, i, x);
        assert ActiveFor(s'.timers, i, x);
      }
    }
    forall x | x in s'.procs && Requested(s'.procs[x]) ensures exists i :: TimerOf(s'.timers, i, x, s'.procs[x]) {
      var i :| TimerOf(s.timers, i, x, s.procs[x]);
      assert TimerOf(s'.timers, i, x, s'.procs[x]);
    }
  }

  lemma OfTimerAttends(s: State, a: Action)
    requires Inv(s) && Attended(s) && Armed(s) && Enabled(s, a) && (a.Mark? || a.List? || a.Dump? || a.Flag?)
    ensures Attended(Apply(s, a)) && Armed(Apply(s, a))
  {
    hide Inv, Seen, HoldOf, PcbOk, Attended, Armed;
    if a.Mark? { Sleeper(s, a.t); } else { Suspending(s, a.t); }
    TimerAttends(s, Apply(s, a), a.t);
  }

  lemma Sleeper(s: State, t: nat)
    requires Inv(s) && t < |s.timers|
    ensures s.timers[t].pid in s.procs
  {
    hide PcbOk, Seen;
  }

  /** The medium-term scheduler has to do with processes that are out of the queue. */
  lemma PmpAttends(s: State, s': State, pid: int)
    requires Attended(s) && Armed(s) && s'.timers == s.timers && s'.procs.Keys == s.procs.Keys + {pid}
    requires forall x :: x in s.procs && x != pid ==> s'.procs[x] == s.procs[x]
    requires !InBlock(s'.procs[pid])
    ensures Attended(s') && Armed(s')
  {
    forall x | x in s'.procs && Detained(s'.procs[x]) ensures HasActive(s'.timers, x) {
      var i :| ActiveFor(s.timers, i, x);
    }
    forall x | x in s'.procs && Requested(s'.procs[x]) ensures exists i :: TimerOf(s'.timers, i, x, s'.procs[x]) {
      var i :| TimerOf(s.timers, i, x, s.procs[x]);
    }
  }

  lemma SameAttends(s: State, s': State)
    requires Attended(s) && Armed(s) && s'.timers == s.timers && s'.procs == s.procs
    ensures Attended(s') && Armed(s')
  {}

  lemma OfPmpAttends(s: State, a: Action)
    requires Inv(s) && Attended(s) && Armed(s) && Enabled(s, a) && (a.WriteDeferred? || a.WakeRestored? || a.KillRestored?)
    ensures Attended(Apply(s, a)) && Armed(Apply(s, a))
  {
    hide Inv, Seen, Attended, Armed;
    Planner(s);
    Known(s, s.pmp.pid);
    if a.WriteDeferred? && !s.procs[s.pmp.pid].pending {
      SameAttends(s, Apply(s, a));
    } else {
      PmpAttends(s, Apply(s, a), s.pmp.pid);
    }
  }

  /** Every action keeps both. */
  lemma ActionAttends(s: State, a: Action)
    requires Inv(s) && Attended(s) && Armed(s) && Enabled(s, a)
    ensures Attended(Apply(s, a)) && Armed(Apply(s, a))
  {
    hide Inv, Attended, Armed, ApplyStep, MarkTimer, ListTimer, DumpTimer, FlagTimer, WritePending, WakeProcess, KillProcess, Candidates, Can;
    match a
    case Create(pid) => PmpAttends(s, Apply(s, a), pid);
    case Of(pid, step) => StepAttends(s, pid, step);
    case Snapshot(_) => SameAttends(s, Apply(s, a));
    case Try(_) => SameAttends(s, Apply(s, a));
    case Delist => SameAttends(s, Apply(s, a));
    case Rest => SameAttends(s, Apply(s, a));
    case WriteDeferred(_) => OfPmpAttends(s, a);
    case WakeRestored => OfPmpAttends(s, a);
    case KillRestored => OfPmpAttends(s, a);
    case _ => OfTimerAttends(s, a);
  }

  /** All that is known of a state reached in order. */
  ghost predicate Good(s: State) {
    Inv(s) && Attended(s) && Armed(s)
  }

  lemma GoodStays(s: State, a: Action)
    requires Good(s) && Enabled(s, a) && Orderly(s, a)
    ensures Good(Apply(s, a))
  {
    hide Inv, Attended, Armed, Enabled, Orderly, Apply;
    ActionKeeps(s, a);
    ActionAttends(s, a);
  }

  lemma {:induction false} ReachedGood(states: seq<State>, actions: seq<Action>, i: nat)
    requires OrderlyRun(states, actions) && i < |states|
    ensures Good(states[i])
  {
    hide Enabled, Apply, Orderly, Inv;
    if i == 0 {
      InitialOk();
    } else {
      hide Good;
      ReachedGood(states, actions, i - 1);
      GoodStays(states[i - 1], actions[i - 1]);
    }
  }

  /* ---------- how a wait goes on ---------- */

  /** From before the wait until READY. */
  predicate Waits(at: Where) {
    at != InReady && at != OnCpu && at != OnMutex && at != Over
  }

  /** The next step of a process that nobody detains. Before a wait begins the threads of earlier ones go first. */
  function OwnStep(p: Pcb, ok: bool): Step {
    match p.at
    case Entering =>
      if p.late == [] || p.due || p.estado != Block then EnterQueue else if p.late[0].raised then StartLate(0) else RaiseEpoch(0)
    case Queued => StartTimer
    case Timed => Enqueue
    case Serving => IoDone
    case Finished => Extract
    case Taken => Look
    case TookRam => WriteNow(ok)
    case Written => Wake
    case Failed => Kill
    case TookSusp => Defer
    case _ => MarkReady
  }

  /** The result of a STDIN has still to be written. */
  predicate ToWrite(p: Pcb) {
    match p.at
    case Written => false
    case Failed => false
    case Waiting => p.pending
    case _ => p.stdin
  }

  /** How the wait ends, `ok` being whether the write succeeds. */
  function Outcome(pid: int, p: Pcb, h: Hold, ok: bool): Event {
    if p.at == Failed || h == HeldBroken || (ToWrite(p) && !ok) then Ended(pid) else Readied(pid)
  }

  /** How many steps of its own are left, with `x` for what may come after them. */
  function OwnRank(p: Pcb, x: nat): nat {
    match p.at
    case Entering => x + 20 + 2 * |p.late| - One(p.late != [] && p.late[0].raised)
    case Queued => x + 18
    case Timed => x + 17
    case Serving => x + 16
    case Finished => x + 15
    case Taken => x + 14
    case TookSusp => x + 13
    case Deferred => x + 12
    case TookRam => 2
    case Written => 1
    case Failed => 1
    case _ => 0
  }

  /** The step can be taken, in order, and it ends the wait or brings its end, the same one, nearer. */
  predicate Advances(pid: int, p: Pcb, step: Step, ok: bool, x: nat) {
    var p' := NextPcb(p, step);
    && Can(p, step) && InOrder(p, step) && step != Send
    && if p.at == Written || p.at == Failed then Shows(pid, p, step) == [Outcome(pid, p, Free, ok)]
       else
         && Waits(p'.at) && Outcome(pid, p', Free, ok) == Outcome(pid, p, Free, ok) && step != Kill
         && if p.at == Deferred then p'.at == Waiting else p'.at != Waiting && OwnRank(p', x) < OwnRank(p, x)
  }

  lemma EntersQueue(pid: int, p: Pcb, ok: bool, x: nat)
    requires p.at == Entering && (p.late == [] || p.due || p.estado != Block)
    ensures Advances(pid, p, EnterQueue, ok, x)
  {}

  lemma ClearsLate(pid: int, p: Pcb, ok: bool, x: nat)
    requires p.at == Entering && p.late != []
    ensures Advances(pid, p, if p.late[0].raised then StartLate(0) else RaiseEpoch(0), ok, x)
  {}

  lemma Requests(pid: int, p: Pcb, ok: bool, x: nat)
    requires p.at == Queued || p.at == Timed
    ensures Advances(pid, p, if p.at == Queued then StartTimer else Enqueue, ok, x)
  {}

  lemma Completes(pid: int, p: Pcb, ok: bool, x: nat)
    requires p.at == Serving
    ensures Advances(pid, p, IoDone, ok, x)
  {}

  lemma IsExtracted(pid: int, p: Pcb, ok: bool, x: nat)
    requires p.at == Finished && !Detained(p)
    ensures Advances(pid, p, Extract, ok, x)
  {}

  lemma IsLookedAt(pid: int, p: Pcb, ok: bool, x: nat)
    requires p.at == Taken
    ensures Advances(pid, p, Look, ok, x)
  {}

  lemma IsWritten(pid: int, p: Pcb, ok: bool, x: nat)
    requires p.at == TookRam
    ensures Advances(pid, p, WriteNow(ok), ok, x)
  {}

  lemma IsDeferred(pid: int, p: Pcb, ok: bool, x: nat)
    requires p.at == TookSusp
    ensures Advances(pid, p, Defer, ok, x)
  {}

  lemma IsParked(pid: int, p: Pcb, w: Watch, listed: bool, ok: bool, x: nat)
    requires p.at == Deferred && PcbOk(p, w, listed, Free)
    ensures Advances(pid, p, MarkReady, ok, x)
  {}

  lemma IsOver(pid: int, p: Pcb, ok: bool, x: nat)
    requires p.at == Written || p.at == Failed
    ensures Advances(pid, p, if p.at == Written then Wake else Kill, ok, x)
  {}

  lemma OwnAdvances(pid: int, p: Pcb, w: Watch, listed: bool, ok: bool, x: nat)
    requires PcbOk(p, w, listed, Free) && Waits(p.at) && p.at != Waiting && !(p.at == Finished && Detained(p))
    ensures Advances(pid, p, OwnStep(p, ok), ok, x)
  {
    hide PcbOk, Advances, Detained;
    match p.at
    case Entering => if p.late == [] || p.due || p.estado != Block { EntersQueue(pid, p, ok, x); } else { ClearsLate(pid, p, ok, x); }
    case Queued => Requests(pid, p, ok, x);
    case Timed => Requests(pid, p, ok, x);
    case Serving => Completes(pid, p, ok, x);
    case Finished => IsExtracted(pid, p, ok, x);
    case Taken => IsLookedAt(pid, p, ok, x);
    case TookRam => IsWritten(pid, p, ok, x);
    case TookSusp => IsDeferred(pid, p, ok, x);
    case Deferred => IsParked(pid, p, w, listed, ok, x);
    case Written => IsOver(pid, p, ok, x);
    case Failed => IsOver(pid, p, ok, x);
    case _ =>
  }

  /* ---------- and how the others are brought to let it ---------- */

  /** What the timers of a process still have to do. Listing the process makes the list longer, and counts double. */
  function Weight(t: Timer, pid: int): nat {
    if t.pid != pid then 0
    else match t.stage
         case Marked => 4
         case Listed => 2
         case Dumped => 1
         case _ => 0
  }

  function TimerWork(timers: seq<Timer>, pid: int): nat {
    if timers == [] then 0 else TimerWork(timers[..|timers| - 1], pid) + Weight(timers[|timers| - 1], pid)
  }

  lemma {:induction false} WorkMore(timers: seq<Timer>, extra: seq<Timer>, pid: int)
    requires forall t :: t in extra ==> t.stage == Sleeping
    ensures TimerWork(timers + extra, pid) == TimerWork(timers, pid)
  {
    if extra == [] {
      assert timers + extra == timers;
    } else {
      var n := |extra| - 1;
      assert (timers + extra)[..|timers| + n] == timers + extra[..n];
      assert extra[n] in extra;
      WorkMore(timers, extra[..n], pid);
    }
  }

  lemma {:induction false} WorkUpdate(timers: seq<Timer>, t: nat, next: Timer, pid: int)
    requires t < |timers|
    ensures TimerWork(timers[t := next], pid) + Weight(timers[t], pid) == TimerWork(timers, pid) + Weight(next, pid)
  {
    hide Weight;
    var n := |timers| - 1;
    if t == n {
      assert timers[t := next][..n] == timers[..n];
    } else {
      assert timers[t := next][..n] == timers[..n][t := next];
      WorkUpdate(timers[..n], t, next, pid);
    }
  }

  function FirstActive(timers: seq<Timer>, pid: int): (t: nat)
    requires HasActive(timers, pid)
    ensures ActiveFor(timers, t, pid)
  {
    var n := |timers| - 1;
    if timers[n].pid == pid && Active(timers[n]) then n
    else
      EarlierActive(timers, pid);
      FirstActive(timers[..n], pid)
  }

  lemma EarlierActive(timers: seq<Timer>, pid: int)
    requires HasActive(timers, pid)
    requires !(timers[|timers| - 1].pid == pid && Active(timers[|timers| - 1]))
    ensures HasActive(timers[..|timers| - 1], pid)
  {
    var i :| ActiveFor(timers, i, pid);
    assert ActiveFor(timers[..|timers| - 1], i, pid);
  }

  function CandsOf(pmp: Pmp): seq<int> {
    if pmp == Resting then [] else pmp.cands
  }

  /** How far the medium-term scheduler is from waking the process. */
  function PmpRank(pmp: Pmp, listed: nat, pid: int): nat {
    match pmp
    case Resting => listed + 6
    case Trying(cands) => if 0 <= IndexOf(cands, pid) then IndexOf(cands, pid) + 5 else |cands| + listed + 8
    case Accepted(x, cands) => if x == pid then 4 else |cands| + listed + 11
    case Delisted(x, cands) => if x == pid then 3 else |cands| + listed + 10
    case Restored(x, cands) => if x == pid then 1 else |cands| + listed + 9
    case Broken(x, cands) => if x == pid then 1 else |cands| + listed + 9
  }

  function Rank(s: State, pid: int): nat
    requires pid in s.procs
  {
    var p := s.procs[pid];
    TimerWork(s.timers, pid)
    + if p.at == Waiting then PmpRank(s.pmp, |s.listed|, pid) else OwnRank(p, |s.listed| + |CandsOf(s.pmp)|)
  }

  /** The listed processes that are in SUSP_READY. */
  function InSuspReady(listed: seq<int>, procs: map<int, Pcb>): seq<int> {
    if listed == [] then []
    else
      var rest, x := InSuspReady(listed[..|listed| - 1], procs), listed[|listed| - 1];
      if x in procs && procs[x].estado == SuspReady then rest + [x] else rest
  }

  lemma {:induction false} SnapshotTaken(listed: seq<int>, procs: map<int, Pcb>)
    requires Distinct(listed)
    ensures var cands := InSuspReady(listed, procs);
            && Distinct(cands) && |cands| <= |listed|
            && forall x :: x in cands <==> x in listed && x in procs && procs[x].estado == SuspReady
  {
    if listed != [] {
      var n := |listed| - 1;
      SnapshotTaken(listed[..n], procs);
      assert listed == listed[..n] + [listed[n]];
      assert listed[n] !in listed[..n];
      var rest := InSuspReady(listed[..n], procs);
      assert forall i :: 0 <= i < |rest| ==> rest[i] in rest;
    }
  }

  function TimerNext(timers: seq<Timer>, pid: int): Action
    requires HasActive(timers, pid)
  {
    var t := FirstActive(timers, pid);
    match timers[t].stage
    case Marked => List(t)
    case Listed => Dump(t)
    case _ => Flag(t)
  }

  function PmpNext(s: State, pid: int, ok: bool): Action {
    match s.pmp
    case Resting => Snapshot(InSuspReady(s.listed, s.procs))
    case Trying(cands) => if cands == [] then Rest else Try(cands[0] == pid)
    case Accepted(_, _) => Delist
    case Delisted(x, _) => WriteDeferred(x == pid ==> ok)
    case Restored(_, _) => WakeRestored
    case Broken(_, _) => KillRestored
  }

  /** The next step towards the end of the wait of `pid`: its own, or of the timer that detains it, or, in SUSP_READY, of
      the medium-term scheduler. */
  ghost function Next(s: State, pid: int, ok: bool): Action
    requires pid in s.procs && Attended(s)
  {
    var p := s.procs[pid];
    if p.at == Waiting then PmpNext(s, pid, ok)
    else if p.at == Finished && Detained(p) then TimerNext(s.timers, pid)
    else Of(pid, OwnStep(p, ok))
  }

  function End(s: State, pid: int, ok: bool): Event
    requires pid in s.procs
  {
    Outcome(pid, s.procs[pid], HoldOf(s.pmp, pid), ok)
  }

  /** The state after a step: the wait is over, as it was to be, or its end, the same one, is nearer. */
  ghost predicate Nearer(s: State, s': State, pid: int, ok: bool)
    requires pid in s.procs
  {
    || s'.log == s.log + [End(s, pid, ok)]
    || (pid in s'.procs && Waits(s'.procs[pid].at) && End(s', pid, ok) == End(s, pid, ok) && Rank(s', pid) < Rank(s, pid))
  }

  lemma OwnEffect(s: State, pid: int, step: Step)
    requires pid in s.procs
    ensures var s' := ApplyStep(s, pid, step);
            && pid in s'.procs && s'.procs[pid] == NextPcb(s.procs[pid], step) && s'.pmp == s.pmp
            && (step != Kill ==> s'.listed == s.listed)
            && s'.log == s.log + Shows(pid, s.procs[pid], step)
            && TimerWork(s'.timers, pid) == TimerWork(s.timers, pid)
  {
    hide NextPcb, Shows, Starts, TimerWork;
    StartsSleeping(pid, s.procs[pid], step);
    WorkMore(s.timers, Starts(pid, s.procs[pid], step), pid);
  }

  lemma OfEnabled(s: State, pid: int, step: Step)
    requires pid in s.procs && Can(s.procs[pid], step) && InOrder(s.procs[pid], step) && step != Send
    ensures Enabled(s, Of(pid, step)) && Orderly(s, Of(pid, step)) && Apply(s, Of(pid, step)) == ApplyStep(s, pid, step)
  {
    hide Can, InOrder, ApplyStep;
  }

  lemma EffectNearer(s: State, s': State, pid: int, step: Step, ok: bool)
    requires pid in s.procs && pid in s'.procs && s.procs[pid].at != Waiting && HoldOf(s.pmp, pid) == Free
    requires Advances(pid, s.procs[pid], step, ok, |s.listed| + |CandsOf(s.pmp)|)
    requires s'.procs[pid] == NextPcb(s.procs[pid], step) && s'.pmp == s.pmp && (step != Kill ==> s'.listed == s.listed)
    requires s'.log == s.log + Shows(pid, s.procs[pid], step) && TimerWork(s'.timers, pid) == TimerWork(s.timers, pid)
    ensures Nearer(s, s', pid, ok)
  {
    hide Can, InOrder, NextPcb, Shows, OwnRank, Outcome, TimerWork, PmpRank, HoldOf, Waits;
    if s.procs[pid].at == Deferred { LastOfOwn(s.procs[pid], s.pmp, |s.listed|, pid); }
  }

  lemma OwnNearer(s: State, pid: int, ok: bool)
    requires Inv(s) && pid in s.procs && Waits(s.procs[pid].at) && s.procs[pid].at != Waiting
    requires !(s.procs[pid].at == Finished && Detained(s.procs[pid]))
    ensures var a := Of(pid, OwnStep(s.procs[pid], ok)); Enabled(s, a) && Orderly(s, a) && Nearer(s, Apply(s, a), pid, ok)
  {
    hide Inv, Seen, PcbOk, Can, InOrder, NextPcb, Shows, OwnStep, Advances, Detained, TimerWork, HoldOf, ApplyStep, Nearer, Apply, Enabled, Orderly;
    var p := s.procs[pid];
    var step := OwnStep(p, ok);
    Known(s, pid);
    FreeUntilWaiting(p, Seen(s.log, pid), pid in s.listed, HoldOf(s.pmp, pid));
    OwnAdvances(pid, p, Seen(s.log, pid), pid in s.listed, ok, |s.listed| + |CandsOf(s.pmp)|);
    AdvanceIsPossible(pid, p, step, ok, |s.listed| + |CandsOf(s.pmp)|);
    OfEnabled(s, pid, step);
    OwnEffect(s, pid, step);
    EffectNearer(s, ApplyStep(s, pid, step), pid, step, ok);
  }

  lemma AdvanceIsPossible(pid: int, p: Pcb, step: Step, ok: bool, x: nat)
    requires Advances(pid, p, step, ok, x)
    ensures Can(p, step) && InOrder(p, step) && step != Send
  {
    hide Can, InOrder, NextPcb, Shows, Outcome, OwnRank;
  }

  lemma FreeUntilWaiting(p: Pcb, w: Watch, listed: bool, h: Hold)
    requires PcbOk(p, w, listed, h) && p.at != Waiting
    ensures h == Free
  {}

  lemma StartsSleeping(pid: int, p: Pcb, step: Step)
    ensures forall t :: t in Starts(pid, p, step) ==> t.stage == Sleeping
  {}

  lemma LastOfOwn(p: Pcb, pmp: Pmp, listed: nat, pid: int)
    requires p.at == Deferred
    ensures PmpRank(pmp, listed, pid) < OwnRank(p, listed + |CandsOf(pmp)|)
  {}

  lemma TimerNearer(s: State, pid: int, ok: bool)
    requires Good(s) && pid in s.procs && s.procs[pid].at == Finished && Detained(s.procs[pid])
    ensures var a := TimerNext(s.timers, pid); Enabled(s, a) && Orderly(s, a) && Nearer(s, Apply(s, a), pid, ok)
  {
    hide Inv, Seen, PcbOk, FirstActive, TimerWork;
    var t, a := FirstActive(s.timers, pid), TimerNext(s.timers, pid);
    var s' := Apply(s, a);
    WorkUpdate(s.timers, t, s'.timers[t], pid);
    assert s'.timers == s.timers[t := s'.timers[t]];
  }

  /** What is known of a process in SUSP_READY. */
  lemma Parked(s: State, pid: int)
    requires Inv(s) && pid in s.procs && s.procs[pid].at == Waiting
    ensures s.procs[pid].estado == SuspReady && PmpOk(s) && Distinct(s.listed)
    ensures HoldOf(s.pmp, pid) == Free ==> pid in s.listed
    ensures HoldOf(s.pmp, pid) == HeldBack || HoldOf(s.pmp, pid) == HeldBroken ==> !s.procs[pid].pending
  {
    hide Inv, Seen, PmpOk, HoldOf;
    Planner(s);
    Known(s, pid);
  }

  /** The medium-term scheduler has taken the process up. */
  lemma HeldNearer(s: State, pid: int, ok: bool)
    requires Inv(s) && pid in s.procs && s.procs[pid].at == Waiting && HoldOf(s.pmp, pid) != Free
    ensures var a := PmpNext(s, pid, ok); Enabled(s, a) && Orderly(s, a) && Nearer(s, Apply(s, a), pid, ok)
  {
    hide Inv, Seen, TimerWork, Remove, IndexOf;
    Parked(s, pid);
  }

  lemma {:induction false} RemoveShorter(xs: seq<int>, x: int)
    ensures |Remove(xs, x)| <= |xs|
  {
    if xs != [] { RemoveShorter(xs[1..], x); }
  }

  lemma TailIndex(xs: seq<int>, x: int)
    requires xs != [] && xs[0] != x
    ensures IndexOf(xs[1..], x) == if IndexOf(xs, x) < 0 then -1 else IndexOf(xs, x) - 1
  {
    var i, j := IndexOf(xs, x), IndexOf(xs[1..], x);
    if 0 <= i { assert xs[1..][i - 1] == x; }
    if 0 <= j { assert xs[j + 1] == x; }
  }

  /** It has another in hand, and is done with it in at most three steps. */
  lemma OtherNearer(s: State, pid: int, ok: bool)
    requires Inv(s) && pid in s.procs && s.procs[pid].at == Waiting && HoldOf(s.pmp, pid) == Free
    requires s.pmp != Resting && !s.pmp.Trying?
    ensures var a := PmpNext(s, pid, ok); Enabled(s, a) && Orderly(s, a) && Nearer(s, Apply(s, a), pid, ok)
  {
    hide Inv, Seen, TimerWork, Remove, IndexOf;
    Parked(s, pid);
    RemoveShorter(s.listed, s.pmp.pid);
  }

  /** It goes through its candidates. Only this process is taken up; the others remain listed. */
  lemma TryNearer(s: State, pid: int, ok: bool)
    requires Inv(s) && pid in s.procs && s.procs[pid].at == Waiting && s.pmp.Trying?
    ensures var a := PmpNext(s, pid, ok); Enabled(s, a) && Orderly(s, a) && Nearer(s, Apply(s, a), pid, ok)
  {
    hide Inv, Seen, TimerWork, Remove, IndexOf;
    Parked(s, pid);
    if s.pmp.cands != [] && s.pmp.cands[0] != pid { TailIndex(s.pmp.cands, pid); }
  }

  /** It begins a round, and the process is among the candidates. */
  lemma SnapshotNearer(s: State, pid: int, ok: bool)
    requires Inv(s) && pid in s.procs && s.procs[pid].at == Waiting && s.pmp == Resting
    ensures var a := PmpNext(s, pid, ok); Enabled(s, a) && Orderly(s, a) && Nearer(s, Apply(s, a), pid, ok)
  {
    hide Inv, Seen, TimerWork, Remove, IndexOf, InSuspReady;
    Parked(s, pid);
    SnapshotTaken(s.listed, s.procs);
  }

  lemma NextNearer(s: State, pid: int, ok: bool)
    requires Good(s) && pid in s.procs && Waits(s.procs[pid].at)
    ensures var a := Next(s, pid, ok); Enabled(s, a) && Orderly(s, a) && Nearer(s, Apply(s, a), pid, ok)
  {
    hide Inv, Enabled, Orderly, Apply, Nearer, PmpNext, TimerNext, OwnStep, HoldOf, Detained;
    if s.procs[pid].at != Waiting {
      if s.procs[pid].at == Finished && Detained(s.procs[pid]) { TimerNearer(s, pid, ok); } else { OwnNearer(s, pid, ok); }
    } else if s.pmp == Resting {
      SnapshotNearer(s, pid, ok);
    } else if s.pmp.Trying? {
      TryNearer(s, pid, ok);
    } else if HoldOf(s.pmp, pid) == Free {
      OtherNearer(s, pid, ok);
    } else {
      HeldNearer(s, pid, ok);
    }
  }

  /* ---------- no wait without an end ---------- */

  /** Within `n` orderly steps, the last of which shows `e`. */
  ghost predicate Ahead(s: State, e: Event, n: nat)
    decreases n
  {
    n > 0 && exists a :: Enabled(s, a) && Orderly(s, a) && (Apply(s, a).log == s.log + [e] || Ahead(Apply(s, a), e, n - 1))
  }

  lemma {:induction false} WaitEnds(s: State, pid: int, ok: bool, n: nat)
    requires Good(s) && pid in s.procs && Waits(s.procs[pid].at) && Rank(s, pid) < n
    ensures Ahead(s, End(s, pid, ok), n)
    decreases n
  {
    hide Good, Enabled, Orderly, Apply, Waits, Rank, End, Next;
    GoodAttends(s);
    var a := Next(s, pid, ok);
    NextNearer(s, pid, ok);
    GoodStays(s, a);
    if Apply(s, a).log != s.log + [End(s, pid, ok)] { WaitEnds(Apply(s, a), pid, ok, n - 1); }
  }

  lemma GoodAttends(s: State)
    requires Good(s)
    ensures Attended(s)
  {
    hide Inv, Attended, Armed;
  }

  /** From every moment of every orderly run at which a process waits for I/O or is about to, suspended or not, orderly
      steps lead to the moment at which it becomes READY, if the result of its STDIN is written, and to its end if it
      cannot be: nothing that the timers, the I/O workers and the medium-term scheduler have done can leave it hanging. */
  lemma NoHang(states: seq<State>, actions: seq<Action>, i: nat, pid: int)
    requires OrderlyRun(states, actions) && i < |states| && pid in states[i].procs && Waits(states[i].procs[pid].at)
    ensures exists n: nat :: Ahead(states[i], End(states[i], pid, true), n)
    ensures exists n: nat :: Ahead(states[i], End(states[i], pid, false), n)
    ensures var s := states[i];
            && End(s, pid, true) == (if s.procs[pid].at == Failed || HoldOf(s.pmp, pid) == HeldBroken then Ended(pid) else Readied(pid))
            && (!ToWrite(s.procs[pid]) ==> End(s, pid, false) == End(s, pid, true))
            && (ToWrite(s.procs[pid]) ==> End(s, pid, false) == Ended(pid))
  {
    hide OrderlyRun, Good, Ahead, Rank;
    ReachedGood(states, actions, i);
    WaitEnds(states[i], pid, true, Rank(states[i], pid) + 1);
    WaitEnds(states[i], pid, false, Rank(states[i], pid) + 1);
  }

  /* ---------- the timer does what it is for ---------- */

  /** The timer of a wait, when its time is up and the process is still in BLOCK, ... */
  lemma MarksItsWait(s: State, t: nat, pid: int)
    requires Inv(s) && TimerAt(s, t, Sleeping) && pid in s.procs && TimerOf(s.timers, t, pid, s.procs[pid])
    requires InBlock(s.procs[pid]) && s.procs[pid].estado == Block && !s.procs[pid].due
    ensures Enabled(s, Mark(t)) && Orderly(s, Mark(t)) && Marks(s, t)
  {
    hide Inv, Seen;
    Known(s, pid);
  }

  /** ... puts it in SUSP_BLOCK and then in the suspended list, has Kernel Memory suspend it, and sets the flag without
      which it could not leave the queue. */
  lemma SuspendsWhenDue(s: State, t: nat, pid: int)
    requires Inv(s) && TimerAt(s, t, Sleeping) && pid in s.procs && TimerOf(s.timers, t, pid, s.procs[pid])
    requires InBlock(s.procs[pid]) && s.procs[pid].estado == Block && !s.procs[pid].due
    ensures Enabled(s, Mark(t)) && Orderly(s, Mark(t))
    ensures var s1 := Apply(s, Mark(t));
            && Enabled(s1, List(t)) && s1.procs == s.procs[pid := s.procs[pid].(estado := SuspBlock, dumped := false)]
            && var s2 := Apply(s1, List(t));
            && Enabled(s2, Dump(t)) && s2.listed == s.listed + [pid] && s2.procs == s1.procs
            && var s3 := Apply(s2, Dump(t));
            && Enabled(s3, Flag(t)) && s3.log == s.log + [Suspend(pid, s.procs[pid].blocks), SuspendAck(pid)] && s3.procs == s1.procs
            && var s4 := Apply(s3, Flag(t));
            && s4.procs == s1.procs[pid := s1.procs[pid].(dumped := true)] && s4.listed == s2.listed && s4.log == s3.log
  {
    hide Inv, Seen, PcbOk;
    MarksItsWait(s, t, pid);
    assert s.log + [] == s.log;
  }

  /** A timer whose wait is over, or whose process is not in BLOCK, changes nothing when its time is up. */
  lemma GoesOffInVain(s: State, t: nat)
    requires TimerAt(s, t, Sleeping) && !Marks(s, t)
    ensures Apply(s, Mark(t)) == s.(timers := s.timers[t := s.timers[t].(stage := Done)])
  {}

  /** In every orderly run: a wait whose I/O has been requested has its timer, and a process that is detained in the queue
      of blocked ones has one at work. */
  lemma AlwaysTimed(states: seq<State>, actions: seq<Action>, i: nat, pid: int)
    requires OrderlyRun(states, actions) && i < |states| && pid in states[i].procs
    ensures Requested(states[i].procs[pid]) ==> exists t :: TimerOf(states[i].timers, t, pid, states[i].procs[pid])
    ensures Detained(states[i].procs[pid]) ==> exists t :: ActiveFor(states[i].timers, t, pid)
  {
    hide OrderlyRun, Inv, Requested, Detained;
    ReachedGood(states, actions, i);
    if Detained(states[i].procs[pid]) { assert HasActive(states[i].timers, pid); }
  }

  /* ---------- and READY leads to running ---------- */

  /** The processes sent to a CPU whose EXEC is outstanding. */
  function Dues(s: State): set<int> {
    set x | x in s.procs && s.procs[x].due
  }

  function RunRank(s: State, pid: int): nat
    requires pid in s.procs
  {
    match s.procs[pid].at
    case OnCpu => 1
    case InReady => 2 + |Dues(s)|
    case _ => 3 + |Dues(s)|
  }

  predicate Runs(at: Where) {
    at == InReady || at == OnCpu || at == OnMutex
  }

  lemma WritesDue(s: State, pid: int, x: int)
    requires pid in s.procs && s.procs[pid].at == InReady && x in s.procs && s.procs[x].due
    ensures var a := Of(x, WriteExec);
            && x in Dues(s) && Enabled(s, a) && Orderly(s, a) && pid in Apply(s, a).procs && Apply(s, a).procs[pid].at == InReady
            && Dues(Apply(s, a)) == Dues(s) - {x}
  {}

  lemma NoneDue(s: State, pid: int)
    requires pid in s.procs && s.procs[pid].at == InReady && forall x :: x in s.procs ==> !s.procs[x].due
    ensures var a := Of(pid, Send); Enabled(s, a) && Orderly(s, a) && pid in Apply(s, a).procs && Apply(s, a).procs[pid].at == OnCpu
  {}

  lemma Accesses(s: State, pid: int)
    requires pid in s.procs && s.procs[pid].at == OnCpu
    ensures var a := Of(pid, Use); Enabled(s, a) && Orderly(s, a) && Apply(s, a).log == s.log + [Access(pid)]
  {}

  lemma GetsMutex(s: State, pid: int)
    requires pid in s.procs && s.procs[pid].at == OnMutex
    ensures var a := Of(pid, TakeMutex);
            && Enabled(s, a) && Orderly(s, a) && pid in Apply(s, a).procs && Apply(s, a).procs[pid].at == InReady
            && Dues(Apply(s, a)) == Dues(s)
  {}

  /** A process that is READY, on a CPU or in a mutex queue comes to run, whatever else is due. */
  lemma {:induction false} ComesToRun(s: State, pid: int, n: nat)
    requires pid in s.procs && Runs(s.procs[pid].at) && RunRank(s, pid) <= n
    ensures Ahead(s, Access(pid), n)
    decreases n
  {
    hide Enabled, Orderly, Apply, Dues;
    if s.procs[pid].at == OnCpu {
      Accesses(s, pid);
    } else if s.procs[pid].at == OnMutex {
      GetsMutex(s, pid);
      ComesToRun(Apply(s, Of(pid, TakeMutex)), pid, n - 1);
    } else if x :| x in s.procs && s.procs[x].due {
      WritesDue(s, pid, x);
      ComesToRun(Apply(s, Of(x, WriteExec)), pid, n - 1);
    } else {
      NoneDue(s, pid);
      ComesToRun(Apply(s, Of(pid, Send)), pid, n - 1);
    }
  }
}
