/** What every orderly run of the suspension protocol does, as seen by the observer and in plain words about the
    messages sent (kernel_scheduler/src/planificadorMedianoPlazo.c and kernel_scheduler/src/colaIO.c). */
module SuspensionRuns {
  import opened Estados
  import opened Words
  import opened Suspension

  lemma {:induction false} Reachable(states: seq<State>, actions: seq<Action>, i: nat)
    requires OrderlyRun(states, actions) && i < |states|
    ensures Inv(states[i])
  {
    hide Enabled, Apply, Orderly, Inv;
    if i == 0 {
      InitialOk();
    } else {
      Reachable(states, actions, i - 1);
      ActionKeeps(states[i - 1], actions[i - 1]);
    }
  }

  lemma InitialOk()
    ensures Inv(INITIAL)
  {}

  lemma NotWrong(s: State, pid: int)
    requires Inv(s)
    ensures Seen(s.log, pid).phase != Wrong
  {
    hide Inv;
    Known(s, pid);
  }

  /** In no orderly interleaving does the observer of any process see the protocol broken. */
  lemma NeverWrong(states: seq<State>, actions: seq<Action>, i: nat, pid: int)
    requires OrderlyRun(states, actions) && i < |states|
    ensures Seen(states[i].log, pid).phase != Wrong
  {
    hide OrderlyRun;
    Reachable(states, actions, i);
    NotWrong(states[i], pid);
  }

  /** A process in SUSP_READY that the medium-term scheduler has not taken up is in its list exactly once, so that it
      will be a candidate; a process that is not suspended is not in the list. */
  lemma ListedExactly(states: seq<State>, actions: seq<Action>, i: nat, pid: int)
    requires OrderlyRun(states, actions) && i < |states| && pid in states[i].procs
    ensures var s := states[i];
            && (s.procs[pid].estado == SuspReady && HoldOf(s.pmp, pid) == Free ==> pid in s.listed && multiset(s.listed)[pid] == 1)
            && (s.procs[pid].estado in {Ready, Exec, Block, Exit} ==> pid !in s.listed)
  {
    hide OrderlyRun;
    Reachable(states, actions, i);
    Known(states[i], pid);
    DistinctListed(states[i]);
    if pid in states[i].listed { CountOne(states[i].listed, pid); }
  }

  lemma CountOne(xs: seq<int>, x: int)
    requires Distinct(xs) && x in xs
    ensures multiset(xs)[x] == 1
  {
    var k :| 0 <= k < |xs| && xs[k] == x;
    var before, after := xs[..k], xs[k + 1..];
    assert x !in before && x !in after;
    hide Distinct;
    assert xs == before + [x] + after;
  }

  /* ---------- what it means that the observer is content ---------- */

  /** The observer's state after the first `m` events. */
  function At(log: seq<Event>, pid: int, m: nat): Watch
    requires m <= |log|
  {
    Seen(log[..m], pid)
  }

  lemma AtNext(log: seq<Event>, pid: int, m: nat)
    requires m < |log|
    ensures At(log, pid, m + 1) == if log[m].pid == pid then Observe(At(log, pid, m), log[m]) else At(log, pid, m)
  {
    assert log[..m + 1] == log[..m] + [log[m]];
    SeenMore(log[..m], log[m], pid);
  }

  /** Once wrong, always wrong. */
  lemma {:induction false} ContentBefore(log: seq<Event>, pid: int, m: nat)
    requires Seen(log, pid).phase != Wrong && m <= |log|
    ensures At(log, pid, m).phase != Wrong
    decreases |log| - m
  {
    if m == |log| {
      assert log[..m] == log;
    } else {
      ContentBefore(log, pid, m + 1);
      AtNext(log, pid, m);
    }
  }

  ghost predicate RestoredBetween(log: seq<Event>, pid: int, i: int, k: int)
    requires -1 <= i && k <= |log|
  {
    exists j :: i < j < k && log[j] == Restore(pid, true)
  }

  lemma {:induction false} StaysOut(log: seq<Event>, pid: int, i: nat, k: nat)
    requires Seen(log, pid).phase != Wrong && i < k <= |log| && log[i].Suspend? && log[i].pid == pid
    requires !RestoredBetween(log, pid, i, k)
    ensures At(log, pid, k).phase in {Dumping, InSwap}
    decreases k
  {
    hide At;
    ContentBefore(log, pid, k);
    AtNext(log, pid, k - 1);
    if i < k - 1 {
      StaysOut(log, pid, i, k - 1);
      assert log[k - 1] != Restore(pid, true);
    }
  }

  /** From SUSPENDER until DES_SUSPENDER is accepted, the scheduler sends no access and no write for the process,
      does not suspend it again and does not make it READY. */
  lemma QuietInSwap(log: seq<Event>, pid: int, i: nat, k: nat)
    requires Seen(log, pid).phase != Wrong && i < k < |log|
    requires log[i].Suspend? && log[i].pid == pid
    requires log[k].pid == pid && (log[k].Access? || log[k].Write? || log[k].Suspend? || log[k].Readied? || log[k].Ended?)
    ensures RestoredBetween(log, pid, i, k)
  {
    hide At;
    if !RestoredBetween(log, pid, i, k) {
      StaysOut(log, pid, i, k);
      ContentBefore(log, pid, k + 1);
      AtNext(log, pid, k);
    }
  }

  lemma {:induction false} AckBefore(log: seq<Event>, pid: int, k: nat) returns (i: nat)
    requires k <= |log| && At(log, pid, k).phase == InSwap
    ensures i < k && log[i] == SuspendAck(pid) && !RestoredBetween(log, pid, i, k)
    decreases k
  {
    hide At;
    if k == 0 {
      EmptyStart(log, pid);
    } else {
      AtNext(log, pid, k - 1);
      if log[k - 1] == SuspendAck(pid) {
        i := k - 1;
      } else {
        i := AckBefore(log, pid, k - 1);
      }
    }
  }

  lemma EmptyStart(log: seq<Event>, pid: int)
    ensures At(log, pid, 0) == START
  {
    assert log[..0] == [];
  }

  /** DES_SUSPENDER is sent only after the acknowledgement of a SUSPENDER that has not been undone since. */
  lemma RestoreFollowsAck(log: seq<Event>, pid: int, k: nat) returns (i: nat)
    requires Seen(log, pid).phase != Wrong && k < |log| && log[k].Restore? && log[k].pid == pid
    ensures i < k && log[i] == SuspendAck(pid) && !RestoredBetween(log, pid, i, k)
  {
    hide At;
    ContentBefore(log, pid, k + 1);
    AtNext(log, pid, k);
    i := AckBefore(log, pid, k);
  }

  /** How many times the process has blocked among the first `m` events. */
  function Blocks(log: seq<Event>, pid: int, m: nat): nat
    requires m <= |log|
  {
    if m == 0 then 0 else Blocks(log, pid, m - 1) + One(log[m - 1].Blocked? && log[m - 1].pid == pid)
  }

  lemma {:induction false} EpisodeCounts(log: seq<Event>, pid: int, m: nat)
    requires Seen(log, pid).phase != Wrong && m <= |log|
    ensures At(log, pid, m).episode == Blocks(log, pid, m)
  {
    hide At;
    if m == 0 {
      EmptyStart(log, pid);
    } else {
      EpisodeCounts(log, pid, m - 1);
      AtNext(log, pid, m - 1);
      ContentBefore(log, pid, m);
    }
  }

  lemma {:induction false} WaitBegan(log: seq<Event>, pid: int, k: nat) returns (i: nat)
    requires Seen(log, pid).phase != Wrong && k <= |log| && At(log, pid, k).blocked
    ensures i < k && log[i] == Blocked(pid, true)
    ensures forall j :: i < j < k && log[j].pid == pid ==> !log[j].Readied? && !log[j].Blocked?
    decreases k
  {
    hide At;
    if k == 0 {
      EmptyStart(log, pid);
    } else {
      AtNext(log, pid, k - 1);
      ContentBefore(log, pid, k);
      if log[k - 1] == Blocked(pid, true) {
        i := k - 1;
      } else {
        i := WaitBegan(log, pid, k - 1);
      }
    }
  }

  /** SUSPENDER is sent by the timer of the wait the process is in: the one begun by its last block, an I/O that has
      not ended. A timer never suspends a later one. */
  lemma SuspendsCurrentWait(log: seq<Event>, pid: int, k: nat) returns (i: nat)
    requires Seen(log, pid).phase != Wrong && k < |log| && log[k].Suspend? && log[k].pid == pid
    ensures i < k && log[i] == Blocked(pid, true) && Blocks(log, pid, i) + 1 == log[k].origin == Blocks(log, pid, k)
    ensures forall j :: i < j < k && log[j].pid == pid ==> !log[j].Readied?
  {
    hide At;
    ContentBefore(log, pid, k + 1);
    AtNext(log, pid, k);
    EpisodeCounts(log, pid, k);
    i := WaitBegan(log, pid, k);
    NoBlocksBetween(log, pid, i, k);
  }

  lemma {:induction false} NoBlocksBetween(log: seq<Event>, pid: int, i: nat, k: nat)
    requires i < k <= |log| && log[i] == Blocked(pid, true)
    requires forall j :: i < j < k && log[j].pid == pid ==> !log[j].Blocked?
    ensures Blocks(log, pid, k) == Blocks(log, pid, i) + 1
    decreases k
  {
    if i < k - 1 { NoBlocksBetween(log, pid, i, k - 1); }
  }

  /** How many writes to the memory of the process there are in log[i..k]. */
  function Writes(log: seq<Event>, pid: int, i: nat, k: nat): nat
    requires i <= k <= |log|
    decreases k
  {
    if i == k then 0 else Writes(log, pid, i, k - 1) + One(log[k - 1].Write? && log[k - 1].pid == pid)
  }

  lemma {:induction false} WriteDue(log: seq<Event>, pid: int, i: nat, k: nat)
    requires Seen(log, pid).phase != Wrong && i < k <= |log| && log[i] == Result(pid)
    requires forall j :: i < j < k && log[j].pid == pid ==> !log[j].Readied? && !log[j].Ended?
    ensures var w, n := At(log, pid, k), Writes(log, pid, i, k);
            if w.result == Owed then n == 0 && w.blocked && w.phase in {InRam, Dumping, InSwap}
            else w.result == Stored && n == 1 && (w.phase == Faulted || w.blocked)
    decreases k
  {
    hide At;
    ContentBefore(log, pid, k);
    AtNext(log, pid, k - 1);
    if i < k - 1 { WriteDue(log, pid, i, k - 1); }
  }

  /** Nothing is heard of a process after its end. */
  lemma {:induction false} EndIsFinal(log: seq<Event>, pid: int, j: nat, k: nat)
    requires Seen(log, pid).phase != Wrong && j < k < |log| && log[j] == Ended(pid)
    ensures At(log, pid, k).phase == Gone && log[k].pid != pid
    decreases k
  {
    hide At;
    ContentBefore(log, pid, k + 1);
    ContentBefore(log, pid, k);
    AtNext(log, pid, k);
    AtNext(log, pid, k - 1);
    if j < k - 1 { EndIsFinal(log, pid, j, k - 1); }
  }

  /** Between the result of a STDIN and the process becoming READY it is written exactly once. */
  lemma StdinWrittenOnce(log: seq<Event>, pid: int, i: nat, k: nat)
    requires Seen(log, pid).phase != Wrong && i < k < |log| && log[i] == Result(pid) && log[k] == Readied(pid)
    requires forall j :: i < j < k && log[j].pid == pid ==> !log[j].Readied?
    ensures Writes(log, pid, i, k) == 1
  {
    hide At;
    forall j | i < j < k && log[j].pid == pid ensures !log[j].Ended? {
      if log[j].Ended? { EndIsFinal(log, pid, j, k); }
    }
    WriteDue(log, pid, i, k);
    AtNext(log, pid, k);
    ContentBefore(log, pid, k + 1);
  }

  ghost predicate Suspended(log: seq<Event>, pid: int, i: int) {
    0 <= i < |log| && log[i].Suspend? && log[i].pid == pid
  }

  /** An event that has no place while the process is in swap. */
  ghost predicate Stirs(log: seq<Event>, pid: int, k: int) {
    && 0 <= k < |log| && log[k].pid == pid
    && (log[k].Access? || log[k].Write? || log[k].Suspend? || log[k].Readied? || log[k].Ended?)
  }

  /** A STDIN result at `i` and the process READY at `k`. */
  ghost predicate Answered(log: seq<Event>, pid: int, i: int, k: int) {
    0 <= i < k < |log| && log[i] == Result(pid) && log[k] == Readied(pid)
  }

  ghost predicate NotReadied(log: seq<Event>, pid: int, i: int, k: int) {
    forall j :: 0 <= j < |log| && i < j < k && log[j].pid == pid ==> !log[j].Readied?
  }

  /** All of this, of every process, at every moment of every orderly run. */
  lemma EveryRun(states: seq<State>, actions: seq<Action>, n: nat, pid: int)
    requires OrderlyRun(states, actions) && n < |states|
    ensures forall i, k :: Suspended(states[n].log, pid, i) && i < k && Stirs(states[n].log, pid, k) ==>
              RestoredBetween(states[n].log, pid, i, k)
    ensures forall k :: 0 <= k < |states[n].log| && states[n].log[k].Restore? && states[n].log[k].pid == pid ==>
              exists i :: 0 <= i < k && states[n].log[i] == SuspendAck(pid) && !RestoredBetween(states[n].log, pid, i, k)
    ensures forall k :: Suspended(states[n].log, pid, k) ==>
              exists i :: 0 <= i < k && states[n].log[i] == Blocked(pid, true) && NotReadied(states[n].log, pid, i, k)
                          && Blocks(states[n].log, pid, i) + 1 == states[n].log[k].origin
    ensures forall i, k :: Answered(states[n].log, pid, i, k) && NotReadied(states[n].log, pid, i, k) ==>
              Writes(states[n].log, pid, i, k) == 1
  {
    hide OrderlyRun, Seen, Observe, RestoredBetween, Blocks, Writes;
    NeverWrong(states, actions, n, pid);
    var log := states[n].log;
    forall i, k | Suspended(log, pid, i) && i < k && Stirs(log, pid, k) ensures RestoredBetween(log, pid, i, k) {
      QuietInSwap(log, pid, i, k);
    }
    forall k | 0 <= k < |log| && log[k].Restore? && log[k].pid == pid
      ensures exists i :: 0 <= i < k && log[i] == SuspendAck(pid) && !RestoredBetween(log, pid, i, k)
    {
      var i := RestoreFollowsAck(log, pid, k);
    }
    forall k | Suspended(log, pid, k)
      ensures exists i :: 0 <= i < k && log[i] == Blocked(pid, true) && NotReadied(log, pid, i, k)
                          && Blocks(log, pid, i) + 1 == log[k].origin
    {
      var i := SuspendsCurrentWait(log, pid, k);
      assert NotReadied(log, pid, i, k);
    }
    forall i, k | Answered(log, pid, i, k) && NotReadied(log, pid, i, k)
      ensures Writes(log, pid, i, k) == 1
    {
      StdinWrittenOnce(log, pid, i, k);
    }
  }

  /* ---------- block_epoch, and who is on a CPU ---------- */

  /** Mutex waits whose thread has still to raise block_epoch. */
  function Unraised(late: seq<Late>): nat {
    if late == [] then 0 else Unraised(late[..|late| - 1]) + One(!late[|late| - 1].raised)
  }

  lemma {:induction false} UnraisedWithout(late: seq<Late>, k: nat)
    requires k < |late|
    ensures Unraised(late[..k] + late[k + 1..]) + One(!late[k].raised) == Unraised(late)
  {
    var n := |late| - 1;
    if k == n {
      assert late[..k] + late[k + 1..] == late[..n];
    } else {
      assert (late[..k] + late[k + 1..])[..n - 1] == late[..n][..k] + late[..n][k + 1..];
      UnraisedWithout(late[..n], k);
    }
  }

  lemma {:induction false} UnraisedUpdate(late: seq<Late>, k: nat, x: Late)
    requires k < |late|
    ensures Unraised(late[k := x]) + One(!late[k].raised) == Unraised(late) + One(!x.raised)
  {
    var n := |late| - 1;
    if k == n {
      assert late[k := x][..n] == late[..n];
    } else {
      assert late[k := x][..n] == late[..n][k := x];
      UnraisedUpdate(late[..n], k, x);
    }
  }

  /** block_epoch is the number of waits begun, less those that have still to raise it. */
  predicate EpochOk(p: Pcb) {
    p.epoch + Unraised(p.late) == p.blocks
  }

  lemma StepCounts(p: Pcb, step: Step)
    requires EpochOk(p) && Can(p, step)
    ensures EpochOk(NextPcb(p, step))
  {
    match step
    case WaitMutex => assert (p.late + [Late(p.blocks + 1, false)])[..|p.late|] == p.late;
    case RaiseEpoch(k) => UnraisedUpdate(p.late, k, Late(p.late[k].origin, true));
    case StartLate(k) => UnraisedWithout(p.late, k);
    case _ =>
  }

  lemma ActionCounts(s: State, a: Action, pid: int)
    requires Enabled(s, a) && (pid in s.procs ==> EpochOk(s.procs[pid])) && pid in Apply(s, a).procs
    ensures EpochOk(Apply(s, a).procs[pid])
  {
    hide Can, Starts, Shows, Candidates, NextPcb, Remove;
    match a
    case Create(_) => assert EpochOk(NEWBORN);
    case Of(x, step) => if x == pid { StepCounts(s.procs[pid], step); }
    case _ => assert pid in s.procs && Apply(s, a).procs[pid].epoch == s.procs[pid].epoch;
  }

  /** In every run, orderly or not: every wait raises block_epoch once, so that the timers of two waits for I/O never
      share an epoch. */
  lemma {:induction false} EpochCounts(states: seq<State>, actions: seq<Action>, i: nat, pid: int)
    requires Run(states, actions) && i < |states| && pid in states[i].procs
    ensures EpochOk(states[i].procs[pid])
  {
    hide Enabled, Apply, EpochOk;
    if i != 0 {
      if pid in states[i - 1].procs { EpochCounts(states, actions, i - 1, pid); }
      ActionCounts(states[i - 1], actions[i - 1], pid);
    }
  }

  predicate TakesOffCpu(step: Step) {
    step == Preempt || step == Leave || step == WaitMutex || step.BeginIo?
  }

  lemma OffUntilSent(s: State, a: Action, pid: int)
    requires Enabled(s, a) && pid in s.procs
    requires if a.Of? && a.pid == pid then TakesOffCpu(a.step) || (s.procs[pid].at != OnCpu && a.step != Send)
             else s.procs[pid].at != OnCpu
    ensures pid in Apply(s, a).procs && Apply(s, a).procs[pid].at != OnCpu
  {
    hide Shows, Starts, Candidates, Marks, InBlock, Remove;
  }

  /** In every run: a process that is preempted, ends or goes to wait is off its CPU. It accesses memory again only after it
      has been sent to one. */
  lemma {:induction false} AccessNeedsSend(states: seq<State>, actions: seq<Action>, i: nat, j: nat, pid: int, step: Step)
      returns (k: nat)
    requires Run(states, actions) && i < j < |actions|
    requires actions[i] == Of(pid, step) && TakesOffCpu(step) && actions[j] == Of(pid, Use)
    ensures i < k < j && actions[k] == Of(pid, Send)
  {
    hide Apply, TakesOffCpu;
    k := i + 1;
    assert Enabled(states[i], actions[i]) && states[i + 1] == Apply(states[i], actions[i]);
    OffUntilSent(states[i], actions[i], pid);
    while actions[k] != Of(pid, Send)
      invariant i < k <= j && pid in states[k].procs && states[k].procs[pid].at != OnCpu
      decreases j - k
    {
      assert Enabled(states[k], actions[k]) && states[k + 1] == Apply(states[k], actions[k]);
      OffUntilSent(states[k], actions[k], pid);
      k := k + 1;
    }
  }

  lemma StdinStays(s: State, a: Action, pid: int)
    requires Enabled(s, a) && pid in s.procs && !(a.Of? && a.pid == pid && a.step.BeginIo?)
    ensures pid in Apply(s, a).procs && Apply(s, a).procs[pid].stdin == s.procs[pid].stdin
  {
    hide Shows, Starts, Candidates, Can, Remove;
  }

  /** In every run: an I/O comes back with a result to be written exactly if it was begun as a STDIN. */
  lemma {:induction false} ResultOfStdin(states: seq<State>, actions: seq<Action>, i: nat, j: nat, pid: int, stdin: bool)
    requires Run(states, actions) && i < j < |actions|
    requires actions[i] == Of(pid, BeginIo(stdin)) && actions[j] == Of(pid, IoDone)
    requires forall k :: i < k < j && actions[k].Of? && actions[k].pid == pid ==> !actions[k].step.BeginIo?
    ensures states[j + 1].log == states[j].log + if stdin then [Result(pid)] else []
  {
    assert Enabled(states[i], actions[i]) && states[i + 1] == Apply(states[i], actions[i]);
    assert Enabled(states[j], actions[j]) && states[j + 1] == Apply(states[j], actions[j]);
    hide Apply, Enabled;
    Begun(states[i], pid, stdin);
    var k := i + 1;
    while k < j
      invariant i < k <= j && pid in states[k].procs && states[k].procs[pid].stdin == stdin
    {
      assert Enabled(states[k], actions[k]) && states[k + 1] == Apply(states[k], actions[k]);
      StdinStays(states[k], actions[k], pid);
      k := k + 1;
    }
    Shown(states[j], pid);
  }

  lemma Begun(s: State, pid: int, stdin: bool)
    requires Enabled(s, Of(pid, BeginIo(stdin)))
    ensures var s' := Apply(s, Of(pid, BeginIo(stdin))); pid in s'.procs && s'.procs[pid].stdin == stdin
  {}

  lemma Shown(s: State, pid: int)
    requires Enabled(s, Of(pid, IoDone))
    ensures pid in s.procs && Apply(s, Of(pid, IoDone)).log == s.log + if s.procs[pid].stdin then [Result(pid)] else []
  {}
}
