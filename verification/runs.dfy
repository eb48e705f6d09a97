/** Whole runs of the machine: the loop in which Kernel Memory serves the scheduler's requests one at a time
    (kernel_memory/src/memory_scheduler.c), between them the reads and writes of the CPUs, and what no run can
    do to a segment. */
module Runs {
  import opened Words
  import opened Segments
  import opened Tables
  import opened KernelMemory
  import opened FreeBlocks
  import opened Swap
  import opened CpuInstructions
  import MemorySticks
  import Mmu
  import opened Logical

  datatype Request =
    | NewProcess(pid: int)
    | Finish(pid: int)
    | NewSegment(pid: int, id: u32, size: u32)
    | Delete(pid: int, id: u32)
    | Suspend(pid: int)
    | Unsuspend(pid: int)
    | Read(pid: int, dir: u32, size: u32)
    | Write(pid: int, dir: u32, data: seq<byte>)
    | CpuRead(pid: int, dir: u32, size: u32)
    | CpuWrite(pid: int, dir: u32, data: seq<byte>)
    | NewStick(size: u32)
    | QueryFree

  /** The segments of the process that `pid` designates. */
  function TableOf(procs: seq<Process>, pid: int): seq<Segment> {
    var p := IndexOf(Pids(procs), pid);
    if p < 0 then [] else procs[p].segs
  }

  /** What is left to the scheduler: only segments in RAM are deleted, only processes in RAM are suspended or run,
      only suspended ones are restored, no range reaches past 2^32 and memory does not outgrow it. */
  predicate Proper(procs: seq<Process>, ram: int, cfg: Config, r: Request) {
    match r
    case Delete(pid, id) => Designates(procs, pid, id).None? || Designates(procs, pid, id).value.Resident()
    case Suspend(pid) => AllResident(TableOf(procs, pid))
    case Unsuspend(pid) => NothingInRam(TableOf(procs, pid))
    case Write(_, dir, data) => Offset(dir, cfg.segMax) + |data| < U32
    case CpuRead(pid, _, _) => AllResident(TableOf(procs, pid))
    case CpuWrite(pid, _, data) => AllResident(TableOf(procs, pid)) && |data| < U32
    case NewStick(size) => ram + size + cfg.segMax < U32
    case _ => true
  }

  /** One request on the logical machine. What the tables say of its answer is in `Answers`. */
  ghost predicate Step(v: MemView, r: Request, reply: Reply, v': MemView, cfg: Config) {
    match r
    case NewProcess(pid) => reply == Ack && v' == AddProcess(v, pid)
    case Finish(pid) => reply == Ack && v' == RemoveProcess(v, pid)
    case NewSegment(pid, id, size) =>
      if reply.Created? then
        reply.id == id && reply.limit == size
        && exists bytes: seq<byte> :: |bytes| == size && v' == AddSegment(v, pid, SegView(id, bytes))
      else reply == SegmentationFault && v' == v
    case Delete(pid, id) => reply == Ack && v' == RemoveSegment(v, pid, id)
    case Read(pid, dir, size) =>
      && v' == v
      && (reply.Data? ==> Load(v, pid, SegmentNumber(dir, cfg.segMax), Offset(dir, cfg.segMax), size) == Some(reply.bytes))
    case Write(pid, dir, data) =>
      if reply == Ack then
        && Load(v, pid, SegmentNumber(dir, cfg.segMax), Offset(dir, cfg.segMax), |data|).Some?
        && v' == Store(v, pid, SegmentNumber(dir, cfg.segMax), Offset(dir, cfg.segMax), data)
      else reply == SegmentationFault && v' == v
    case CpuRead(pid, dir, size) =>
      && v' == v
      && reply == match Load(v, pid, SegmentNumber(dir, cfg.segMax), Offset(dir, cfg.segMax), size)
                  { case None => SegmentationFault case Some(d) => Data(d) }
    case CpuWrite(pid, dir, data) =>
      && reply == (if Load(v, pid, SegmentNumber(dir, cfg.segMax), Offset(dir, cfg.segMax), |data|).Some? then Ack
                   else SegmentationFault)
      && v' == Store(v, pid, SegmentNumber(dir, cfg.segMax), Offset(dir, cfg.segMax), data)
    case _ => v' == v
  }

  /** What Kernel Memory keeps besides the bytes: the segment tables, the free list, the size of RAM, the next swap block
      and how many sticks there are. */
  datatype Books = Books(procs: seq<Process>, free: seq<Block>, ram: int, next: u32, sticks: nat)

  /** What does not change in a run. */
  datatype Setup = Setup(cfg: Config, worstFit: bool, online: bool, swapBlocks: u32)

  ghost function BooksOf(m: Memory): Books
    reads m, m.free, m.bank, m.area
  {
    Books(m.procs, m.free.blocks, |m.bank.flat|, m.area.nextBlock, |m.bank.sticks|)
  }

  ghost function SetupOf(m: Memory): Setup {
    Setup(m.cfg, m.free.worstFit, m.swapOnline, m.area.totalBlocks)
  }

  /** The free space: RAM less the limits of the segments in it. */
  ghost function Unused(t: Books): int {
    t.ram - TotalSize(ResidentBlocks(t.procs))
  }

  /** traducir_dir_logica lets the range pass: the segment is in RAM and the wrapping test holds. */
  predicate Passes(t: Books, pid: int, dir: u32, size: int, cfg: Config)
    requires 0 <= size < U32
  {
    var s, off := Designates(t.procs, pid, SegmentNumber(dir, cfg.segMax)), Offset(dir, cfg.segMax);
    s.Some? && s.value.Resident() && Add32(off, size) <= s.value.limit
  }

  /** A segment is granted exactly for a size within the maximum, to a process that exists, when the free space is enough. */
  ghost predicate Grants(t: Books, pid: int, size: u32, cfg: Config) {
    && size <= cfg.segMax && 0 <= IndexOf(Pids(t.procs), pid)
    && if size == 0 then t.free != [] else size <= Unused(t)
  }

  /** The answer to a request and the tables after it, from those before it. */
  ghost predicate Answers(t: Books, r: Request, reply: Reply, t': Books, k: Setup) {
    match r
    case NewProcess(pid) => reply == Ack && t' == t.(procs := t.procs + [Process(pid, [])])
    case Finish(pid) =>
      && reply == Ack && t' == t.(procs := t'.procs, free := t'.free)
      && var p := IndexOf(Pids(t.procs), pid); t'.procs == if p < 0 then t.procs else Without(t.procs, p)
    case NewSegment(pid, id, size) => Creates(t, pid, id, size, reply, t', k)
    case Delete(pid, id) => reply == Ack && t' == t.(procs := t'.procs, free := t'.free) && Deletes(t.procs, pid, id, t'.procs)
    case Suspend(pid) => Suspends(t, pid, reply, t', k)
    case Unsuspend(pid) => Restores(t, pid, reply, t', k)
    case Read(pid, dir, size) =>
      t' == t && if !Passes(t, pid, dir, size, k.cfg) then reply == SegmentationFault
                 else if Offset(dir, k.cfg.segMax) + size < U32 then reply.Data? else reply == NoReply
    case Write(pid, dir, data) =>
      t' == t && reply == if |data| < U32 && Passes(t, pid, dir, |data|, k.cfg) then Ack else SegmentationFault
    case NewStick(size) =>
      && reply == NoReply
      && t' == if t.sticks < MemorySticks.MAX_STICKS then t.(ram := t.ram + size, free := t'.free, sticks := t.sticks + 1) else t
    case QueryFree => t' == t && reply.Space? && reply.free == Unused(t)
    case _ => t' == t
  }

  ghost predicate Creates(t: Books, pid: int, id: u32, size: u32, reply: Reply, t': Books, k: Setup) {
    && t' == t.(procs := t'.procs, free := t'.free)
    && if Grants(t, pid, size, k.cfg) then
         && reply.Created? && reply == Created(id, reply.base, size)
         && Placed(t'.procs, t'.free, t.procs, t.free, pid, Segment(id, reply.base, size, 0), t.ram, k.worstFit)
       else reply == SegmentationFault && (0 < size ==> t' == t)
  }

  ghost predicate Deletes(procs: seq<Process>, pid: int, id: u32, procs': seq<Process>) {
    var p := IndexOf(Pids(procs), pid);
    var j := if p < 0 then -1 else IndexOf(Ids(procs[p].segs), id);
    procs' == if j < 0 then procs else procs[p := Process(procs[p].pid, Without(procs[p].segs, j))]
  }

  /** The first segments, as many as swap has room for, go there. */
  ghost predicate Suspends(t: Books, pid: int, reply: Reply, t': Books, k: Setup) {
    var p := IndexOf(Pids(t.procs), pid);
    && reply == Ack
    && if p < 0 || !k.online then t' == t
       else
         var room := k.swapBlocks - t.next;
         && t' == t.(procs := t'.procs, free := t'.free, next := t'.next)
         && MovedToSwap(t'.procs, t.procs, p, Fit(t.procs[p].segs, room, k.cfg.blockSize))
         && k.swapBlocks - t'.next == RoomLeft(t.procs[p].segs, room, k.cfg.blockSize)
  }

  /** All segments of the process get RAM again, or nothing changes. */
  ghost predicate Restores(t: Books, pid: int, reply: Reply, t': Books, k: Setup) {
    var p := IndexOf(Pids(t.procs), pid);
    if p < 0 || !k.online then t' == t && reply == if p < 0 then Ack else SegmentationFault
    else
      && t' == t.(procs := t'.procs, free := t'.free)
      && if Refused(t.free, t.procs[p].segs, k.worstFit) then
           reply == SegmentationFault && t'.procs == t.procs && SameBlocks(t'.free, t.free)
         else
           && reply == Ack && p < |t'.procs| && t'.procs == t.procs[p := Process(t.procs[p].pid, t'.procs[p].segs)]
           && Rebased(t'.procs[p].segs, t.procs[p].segs) && AllResident(t'.procs[p].segs)
           && KernelMemory.Served(t.free, t'.free, t.procs[p].segs, t'.procs[p].segs, k.worstFit)
  }

  ghost predicate Run(trace: seq<MemView>, rs: seq<Request>, replies: seq<Reply>, cfg: Config) {
    && |trace| == |replies| + 1 && |replies| <= |rs|
    && forall i :: 0 <= i < |replies| ==> Step(trace[i], rs[i], replies[i], trace[i + 1], cfg)
  }

  /** A CPU that runs process `pid`: its own copy of the table is the current one. */
  method LoadByCpu(m: Memory, pid: int, dir: u32, size: u32) returns (reply: Reply)
    requires m.Valid() && AllResident(TableOf(m.procs, pid))
    ensures Step(m.View(), CpuRead(pid, dir, size), reply, m.View(), m.cfg)
  {
    hide Sound, ViewOf, SegmentNumber, Offset, Load, Mmu.Physical, RamBytes;
    var cpu := new Cpu(m.bank, m.cfg.segMax, TableOf(m.procs, pid), NO_REGISTERS);
    var data := cpu.Read(dir, size);
    SeenByCpu(m.procs, m.free.blocks, pid, SegmentNumber(dir, m.cfg.segMax), Offset(dir, m.cfg.segMax), size, m.bank.flat,
              m.file.blocks[..], m.cfg, m.area.nextBlock);
    reply := if data == None then SegmentationFault else Data(data.value);
  }

  method StoreByCpu(m: Memory, pid: int, dir: u32, data: seq<byte>) returns (reply: Reply)
    requires m.Valid() && AllResident(TableOf(m.procs, pid)) && |data| < U32
    modifies m.bank`flat, m.bank.Repr
    ensures m.Valid() && |m.bank.flat| == |old(m.bank.flat)|
    ensures Step(old(m.View()), CpuWrite(pid, dir, data), reply, m.View(), m.cfg)
  {
    hide Sound, ViewOf, SegmentNumber, Offset, Load, Store, Mmu.Physical, Overlay, RamBytes;
    var cpu := new Cpu(m.bank, m.cfg.segMax, TableOf(m.procs, pid), NO_REGISTERS);
    ghost var num, off := SegmentNumber(dir, m.cfg.segMax), Offset(dir, m.cfg.segMax);
    SeenByCpu(m.procs, m.free.blocks, pid, num, off, |data|, m.bank.flat, m.file.blocks[..], m.cfg, m.area.nextBlock);
    DoneByCpu(m.procs, m.free.blocks, pid, num, off, data, m.bank.flat, m.file.blocks[..], m.cfg, m.area.nextBlock);
    var ok := cpu.Write(dir, data);
    reply := if ok then Ack else SegmentationFault;
  }

  const NO_REGISTERS := Registers(0, 0, 0, 0, 0, 0, 0, 0, 0, 0, 0)

  lemma SeenByCpu(procs: seq<Process>, free: seq<Block>, pid: int, id: int, off: u32, size: u32, flat: seq<byte>,
                  content: seq<seq<byte>>, cfg: Config, next: int)
    requires Sound(procs, free, |flat|, cfg, next) && AllResident(TableOf(procs, pid)) && off < cfg.segMax
    ensures var a := Mmu.Physical(TableOf(procs, pid), id, off, size, |flat|);
            Load(ViewOf(procs, flat, content, cfg.blockSize), pid, id, off, size)
            == if a == None then None else Some(RamBytes(flat, a.value, size))
  {
    hide Sound, BlocksFor, RamBytes;
    if Designates(procs, pid, id) == None {
      SameNames(procs, flat, content, cfg.blockSize);
    } else {
      ReadIsLoad(procs, free, pid, id, off, size, flat, content, cfg, next);
    }
  }

  lemma DoneByCpu(procs: seq<Process>, free: seq<Block>, pid: int, id: int, off: u32, data: seq<byte>, flat: seq<byte>,
                  content: seq<seq<byte>>, cfg: Config, next: int)
    requires Sound(procs, free, |flat|, cfg, next) && AllResident(TableOf(procs, pid)) && off < cfg.segMax && |data| < U32
    ensures var a := Mmu.Physical(TableOf(procs, pid), id, off, |data|, |flat|);
            ViewOf(procs, if a == None then flat else Overlay(flat, a.value, data), content, cfg.blockSize)
            == Store(ViewOf(procs, flat, content, cfg.blockSize), pid, id, off, data)
  {
    hide Sound, BlocksFor, Overlay;
    if Designates(procs, pid, id) == None {
      SameNames(procs, flat, content, cfg.blockSize);
    } else {
      WriteIsStore(procs, free, pid, id, off, data, flat, content, cfg, next);
    }
  }

  method ServeAccess(m: Memory, r: Request) returns (reply: Reply)
    requires m.Valid() && Proper(m.procs, |m.bank.flat|, m.cfg, r)
    requires r.Read? || r.Write? || r.CpuRead? || r.CpuWrite?
    modifies m.bank`flat, m.bank.Repr
    ensures m.Valid() && |m.bank.flat| == |old(m.bank.flat)|
    ensures Step(old(m.View()), r, reply, m.View(), m.cfg)
    ensures Answers(old(BooksOf(m)), r, reply, BooksOf(m), SetupOf(m))
  {
    hide Sound, ViewOf, SegmentNumber, Offset, Load, Store, Overlay, Designates;
    match r
    case Read(pid, dir, size) =>
      reply := m.ReadMemory(pid, dir, size);
    case Write(pid, dir, data) =>
      reply := m.WriteMemory(pid, dir, data);
    case CpuRead(pid, dir, size) =>
      reply := LoadByCpu(m, pid, dir, size);
    case CpuWrite(pid, dir, data) =>
      reply := StoreByCpu(m, pid, dir, data);
  }

  lemma PrefixResident(segs: seq<Segment>)
    ensures AllResident(segs) ==> forall k: nat :: k <= |segs| ==> AllResident(segs[..k]) && !HasSwappedBytes(segs[..k])
  {
    if AllResident(segs) {
      forall k: nat | k <= |segs| ensures AllResident(segs[..k]) && !HasSwappedBytes(segs[..k]) {
        assert forall s :: s in segs[..k] ==> s in segs;
      }
    }
  }

  lemma FreeIsUnused(procs: seq<Process>, free: seq<Block>, ram: nat, cfg: Config, next: int)
    requires Sound(procs, free, ram, cfg, next)
    ensures TotalSize(free) == ram - TotalSize(ResidentBlocks(procs))
  {
    hide Sound;
    Conservation(procs, free, ram, cfg, next);
  }

  /** A process that is all in swap has its bytes in blocks that have been reserved. */
  lemma StoredThere(procs: seq<Process>, free: seq<Block>, pid: int, ram: int, cfg: Config, next: int)
    requires Sound(procs, free, ram, cfg, next) && NothingInRam(TableOf(procs, pid))
    ensures StoredBelow(TableOf(procs, pid), next, cfg.blockSize)
  {
    hide Sound, NothingInRam;
    var p := IndexOf(Pids(procs), pid);
    if 0 <= p {
      NotRebased(procs, p);
      StoredInSwap(procs, free, p, procs[p].segs, ram, cfg, next);
    }
  }

  method ServeSegment(m: Memory, r: Request) returns (reply: Reply)
    requires m.Valid() && Proper(m.procs, |m.bank.flat|, m.cfg, r)
    requires r.NewSegment?
    modifies m`procs, m.free, m.bank`flat, m.bank.Repr
    ensures m.Valid() && Step(old(m.View()), r, reply, m.View(), m.cfg)
    ensures Answers(old(BooksOf(m)), r, reply, BooksOf(m), SetupOf(m))
  {
    hide Sound, ViewOf, AddSegment, IndexOf, Pids, TotalSize, ResidentBlocks, NoneFits, Extends, LastSegment, Placed, Proper;
    FreeIsUnused(m.procs, m.free.blocks, |m.bank.flat|, m.cfg, m.area.nextBlock);
    reply := m.CreateSegment(r.pid, r.id, r.size);
  }

  method ServeDelete(m: Memory, r: Request) returns (reply: Reply)
    requires m.Valid() && Proper(m.procs, |m.bank.flat|, m.cfg, r)
    requires r.Delete?
    modifies m`procs, m.free
    ensures m.Valid() && Step(old(m.View()), r, reply, m.View(), m.cfg)
    ensures Answers(old(BooksOf(m)), r, reply, BooksOf(m), SetupOf(m))
  {
    hide Sound, ViewOf, RemoveSegment, IndexOf, Pids, Ids, Without;
    reply := m.DeleteSegment(r.pid, r.id);
  }

  method ServeSwap(m: Memory, r: Request) returns (reply: Reply)
    requires m.Valid() && Proper(m.procs, |m.bank.flat|, m.cfg, r)
    requires r.Suspend? || r.Unsuspend?
    modifies m`procs, m.free, m.bank`flat, m.bank.Repr, m.area, m.file.blocks
    ensures m.Valid() && Step(old(m.View()), r, reply, m.View(), m.cfg)
    ensures Answers(old(BooksOf(m)), r, reply, BooksOf(m), SetupOf(m))
  {
    hide Sound, ViewOf, IndexOf, Pids, AllResident, NothingInRam, Fit, RoomLeft, HasSwappedBytes, MovedToSwap, Rebased, BlockFor, LimitSum,
      StoredBelow, SameBlocks, Refused, KernelMemory.Served;
    match r
    case Suspend(pid) =>
      PrefixResident(TableOf(m.procs, pid));
      reply := m.SuspendProcess(pid);
    case Unsuspend(pid) =>
      StoredThere(m.procs, m.free.blocks, pid, |m.bank.flat|, m.cfg, m.area.nextBlock);
      reply := m.UnsuspendProcess(pid);
  }

  /** memory_receptor_scheduler_thread: one request, one handler. */
  method Serve(m: Memory, r: Request) returns (reply: Reply)
    requires m.Valid() && Proper(m.procs, |m.bank.flat|, m.cfg, r)
    modifies m, m.free, m.bank, m.bank.Repr, m.area, m.file.blocks
    ensures m.Valid() && fresh(m.bank.Repr - old(m.bank.Repr))
    ensures Step(old(m.View()), r, reply, m.View(), m.cfg)
    ensures Answers(old(BooksOf(m)), r, reply, BooksOf(m), SetupOf(m))
  {
    hide Sound, ViewOf, SegmentNumber, Offset, AddProcess, RemoveProcess, AddSegment, RemoveSegment, Load, Store,
      AllResident, NothingInRam, IndexOf, Pids, TotalSize, ResidentBlocks, Creates, Deletes, Suspends, Restores, Passes, Without;
    match r
    case NewProcess(pid) =>
      reply := m.CreateProcess(pid);
    case Finish(pid) =>
      reply := m.FinishProcess(pid);
    case NewSegment(_, _, _) =>
      reply := ServeSegment(m, r);
    case Delete(_, _) =>
      reply := ServeDelete(m, r);
    case Suspend(_) =>
      reply := ServeSwap(m, r);
    case Unsuspend(_) =>
      reply := ServeSwap(m, r);
    case NewStick(size) =>
      m.RegisterStick(size);
      reply := NoReply;
    case QueryFree =>
      var space := m.FreeSpace();
      reply := Space(space);
    case _ =>
      reply := ServeAccess(m, r);
  }

  /** The tables over a whole run: sound at every moment, and every answer the one they call for. */
  ghost predicate Account(books: seq<Books>, rs: seq<Request>, replies: seq<Reply>, k: Setup) {
    && |books| == |replies| + 1 && |replies| <= |rs|
    && (forall i :: 0 <= i < |replies| ==> Answers(books[i], rs[i], replies[i], books[i + 1], k))
    && (forall i :: 0 <= i < |replies| ==> Proper(books[i].procs, books[i].ram, k.cfg, rs[i]))
    && (forall i :: 0 <= i < |books| ==> SoundBooks(books[i], k))
  }

  ghost predicate SoundBooks(t: Books, k: Setup) {
    Sound(t.procs, t.free, t.ram, k.cfg, t.next)
  }

  lemma NothingServed(trace: seq<MemView>, books: seq<Books>, rs: seq<Request>, k: Setup)
    requires |trace| == |books| == 1 && SoundBooks(books[0], k)
    ensures Run(trace, rs, [], k.cfg) && Account(books, rs, [], k)
  {}

  lemma OneServed(trace: seq<MemView>, books: seq<Books>, rs: seq<Request>, replies: seq<Reply>, k: Setup, reply: Reply, v: MemView, t: Books)
    requires Run(trace, rs, replies, k.cfg) && Account(books, rs, replies, k) && |replies| < |rs|
    requires |trace| == |books| == |replies| + 1
    requires Step(trace[|replies|], rs[|replies|], reply, v, k.cfg) && Answers(books[|replies|], rs[|replies|], reply, t, k)
    requires Proper(books[|replies|].procs, books[|replies|].ram, k.cfg, rs[|replies|]) && SoundBooks(t, k)
    ensures Run(trace + [v], rs, replies + [reply], k.cfg) && Account(books + [t], rs, replies + [reply], k)
  {
    hide Step, Answers, Proper, SoundBooks;
  }

  /** Serves requests for as long as the scheduler keeps to the protocol. `trace` is the sequence of views
      and `books` that of the tables. */
  method ServeAll(m: Memory, rs: seq<Request>) returns (replies: seq<Reply>, ghost trace: seq<MemView>, ghost books: seq<Books>)
    requires m.Valid()
    modifies m, m.free, m.bank, m.bank.Repr, m.area, m.file.blocks
    ensures m.Valid() && Run(trace, rs, replies, m.cfg)
    ensures trace[0] == old(m.View()) && trace[|replies|] == m.View()
    ensures |replies| < |rs| ==> !Proper(m.procs, |m.bank.flat|, m.cfg, rs[|replies|])
    ensures Account(books, rs, replies, SetupOf(m)) && books[0] == old(BooksOf(m)) && books[|replies|] == BooksOf(m)
  {
    hide Sound, ViewOf, Proper, Step, Answers, Run, Account;
    replies, trace, books := [], [m.View()], [BooksOf(m)];
    NothingServed(trace, books, rs, SetupOf(m));
    while |replies| < |rs|
      invariant m.Valid() && Run(trace, rs, replies, m.cfg) && |replies| <= |rs| && |trace| == |books| == |replies| + 1
      invariant trace[0] == old(m.View()) && trace[|replies|] == m.View()
      invariant fresh(m.bank.Repr - old(m.bank.Repr))
      invariant Account(books, rs, replies, SetupOf(m)) && books[0] == old(BooksOf(m)) && books[|replies|] == BooksOf(m)
    {
      var r := rs[|replies|];
      var ram := m.bank.TotalRam();
      if !Proper(m.procs, ram, m.cfg, r) { return; }
      var reply := Serve(m, r);
      OneServed(trace, books, rs, replies, SetupOf(m), reply, m.View(), BooksOf(m));
      replies, trace, books := replies + [reply], trace + [m.View()], books + [BooksOf(m)];
    }
  }

  /* ---------- what the answers of a run amount to ---------- */

  /** Requests that leave the tables alone. */
  predicate OnlyAccesses(r: Request) {
    r.Read? || r.Write? || r.CpuRead? || r.CpuWrite? || r.QueryFree?
  }

  lemma {:induction false} SameBooks(books: seq<Books>, rs: seq<Request>, replies: seq<Reply>, k: Setup, i: nat, j: nat)
    requires Account(books, rs, replies, k) && i <= j < |books| && forall m :: i <= m < j ==> OnlyAccesses(rs[m])
    ensures books[j] == books[i]
    decreases j
  {
    hide SoundBooks, Proper, Passes;
    if i < j {
      SameBooks(books, rs, replies, k, i, j - 1);
      assert Answers(books[j - 1], rs[j - 1], replies[j - 1], books[j], k);
    }
  }

  /** The free space that was announced is what a segment can be created in: with nothing but accesses in between, the
      request is granted exactly for a size up to the answer, however the free space is scattered. */
  lemma Announced(books: seq<Books>, rs: seq<Request>, replies: seq<Reply>, k: Setup, i: nat, j: nat)
    requires Account(books, rs, replies, k) && i < j < |replies| && rs[i] == QueryFree && rs[j].NewSegment?
    requires 0 < rs[j].size <= k.cfg.segMax && 0 <= IndexOf(Pids(books[i].procs), rs[j].pid)
    requires forall m :: i < m < j ==> OnlyAccesses(rs[m])
    ensures replies[i].Space? && (replies[j].Created? <==> rs[j].size <= replies[i].free)
  {
    hide SoundBooks, Proper, Passes, Placed;
    SameBooks(books, rs, replies, k, i, j);
    assert Answers(books[i], rs[i], replies[i], books[i + 1], k) && Answers(books[j], rs[j], replies[j], books[j + 1], k);
  }

  /* ---------- what no run can do ---------- */

  /** The requests that may change the segment that (pid, id) designates. */
  ghost predicate Touches(r: Request, pid: int, id: int, cfg: Config) {
    match r
    case Write(p, dir, _) => p == pid && SegmentNumber(dir, cfg.segMax) == id
    case CpuWrite(p, dir, _) => p == pid && SegmentNumber(dir, cfg.segMax) == id
    case Delete(p, i) => p == pid && i == id
    case Finish(p) => p == pid
    case _ => false
  }

  lemma {:induction false} FirstMatch(xs: seq<int>, k: nat)
    requires k < |xs| && forall i :: 0 <= i < k ==> xs[i] != xs[k]
    ensures IndexOf(xs, xs[k]) == k
  {
    var r := IndexOf(xs, xs[k]);
    if r == -1 { assert false; }
  }

  lemma MatchAfterAppend(xs: seq<int>, y: int, x: int)
    ensures 0 <= IndexOf(xs, x) ==> IndexOf(xs + [y], x) == IndexOf(xs, x)
  {
    var k := IndexOf(xs, x);
    if 0 <= k { FirstMatch(xs + [y], k); }
  }

  /** Removing a first match of another value moves the first match of `x` by at most one place. */
  lemma MatchAfterRemove(xs: seq<int>, k: nat, x: int)
    requires k < |xs| && xs[k] != x
    ensures var i := IndexOf(xs, x);
            0 <= i ==> IndexOf(Without(xs, k), x) == if i < k then i else i - 1
  {
    var i := IndexOf(xs, x);
    if 0 <= i {
      var i' := if i < k then i else i - 1;
      assert Without(xs, k)[i'] == x;
      FirstMatch(Without(xs, k), i');
    }
  }

  lemma AddProcessKeeps(v: MemView, q: int, pid: int, id: int)
    requires SegmentBytes(v, pid, id).Some?
    ensures SegmentBytes(AddProcess(v, q), pid, id) == SegmentBytes(v, pid, id)
  {
    assert VPids(AddProcess(v, q)) == VPids(v) + [q];
    MatchAfterAppend(VPids(v), q, pid);
  }

  lemma RemoveProcessKeeps(v: MemView, q: int, pid: int, id: int)
    requires SegmentBytes(v, pid, id).Some? && q != pid
    ensures SegmentBytes(RemoveProcess(v, q), pid, id) == SegmentBytes(v, pid, id)
  {
    hide IndexOf;
    var k, i := FindProc(v, q), FindProc(v, pid);
    if 0 <= k {
      assert VPids(Without(v, k)) == Without(VPids(v), k);
      MatchAfterRemove(VPids(v), k, pid);
      assert Without(v, k)[if i < k then i else i - 1] == v[i];
    }
  }

  lemma AddSegmentKeeps(v: MemView, q: int, s: SegView, pid: int, id: int)
    requires SegmentBytes(v, pid, id).Some?
    ensures SegmentBytes(AddSegment(v, q, s), pid, id) == SegmentBytes(v, pid, id)
  {
    var p := FindProc(v, q);
    if 0 <= p {
      assert VPids(AddSegment(v, q, s)) == VPids(v);
      assert VIds(AddSegment(v, q, s)[p].segs) == VIds(v[p].segs) + [s.id];
      MatchAfterAppend(VIds(v[p].segs), s.id, id);
    }
  }

  lemma RemoveSegmentKeeps(v: MemView, q: int, n: int, pid: int, id: int)
    requires SegmentBytes(v, pid, id).Some? && (q != pid || n != id)
    ensures SegmentBytes(RemoveSegment(v, q, n), pid, id) == SegmentBytes(v, pid, id)
  {
    var v', p := RemoveSegment(v, q, n), FindProc(v, q);
    var j := FindSeg(v, p, n);
    if 0 <= j {
      assert VPids(v') == VPids(v);
      assert VIds(v'[p].segs) == Without(VIds(v[p].segs), j);
      if q == pid { MatchAfterRemove(VIds(v[p].segs), j, id); }
    }
  }

  lemma StepKeeps(v: MemView, r: Request, reply: Reply, v': MemView, cfg: Config, pid: int, id: int)
    requires Step(v, r, reply, v', cfg) && !Touches(r, pid, id, cfg)
    requires SegmentBytes(v, pid, id).Some?
    ensures SegmentBytes(v', pid, id) == SegmentBytes(v, pid, id)
  {
    hide SegmentNumber, Offset, Load, Store, SegmentBytes, AddProcess, RemoveProcess, AddSegment, RemoveSegment;
    match r
    case NewProcess(q) => AddProcessKeeps(v, q, pid, id);
    case Finish(q) => RemoveProcessKeeps(v, q, pid, id);
    case NewSegment(q, n, size) =>
      if reply.Created? {
        var bytes: seq<byte> :| |bytes| == size && v' == AddSegment(v, q, SegView(n, bytes));
        AddSegmentKeeps(v, q, SegView(n, bytes), pid, id);
      }
    case Delete(q, n) => RemoveSegmentKeeps(v, q, n, pid, id);
    case Write(q, dir, data) =>
      StoreIsLocal(v, q, SegmentNumber(dir, cfg.segMax), Offset(dir, cfg.segMax), data, pid, id);
    case CpuWrite(q, dir, data) =>
      StoreIsLocal(v, q, SegmentNumber(dir, cfg.segMax), Offset(dir, cfg.segMax), data, pid, id);
    case _ =>
  }

  /** A store changes the one segment it addresses. */
  lemma StoreIsLocal(v: MemView, q: int, n: int, off: nat, data: seq<byte>, pid: int, id: int)
    ensures var v' := Store(v, q, n, off, data);
            q == pid && n == id && Load(v, q, n, off, |data|).Some? ==>
              SegmentBytes(v', pid, id) == Some(Overlay(SegmentBytes(v, pid, id).value, off, data))
    ensures (q == pid && n == id) || SegmentBytes(Store(v, q, n, off, data), pid, id) == SegmentBytes(v, pid, id)
  {
    var v', p := Store(v, q, n, off, data), FindProc(v, q);
    assert VPids(v') == VPids(v);
    if 0 <= FindSeg(v, p, n) {
      assert VIds(v'[p].segs) == VIds(v[p].segs);
    }
  }

  /** Over any stretch of any run, whatever is suspended, restored, compacted, created, deleted or finished, the
      bytes of a segment that nobody writes or deletes, and whose process is not finished, stay the same. */
  lemma {:induction false} RunKeeps(trace: seq<MemView>, rs: seq<Request>, replies: seq<Reply>, cfg: Config,
                                    i: nat, j: nat, pid: int, id: int)
    requires Run(trace, rs, replies, cfg) && i <= j < |trace|
    requires forall k :: i <= k < j ==> !Touches(rs[k], pid, id, cfg)
    requires SegmentBytes(trace[i], pid, id).Some?
    ensures SegmentBytes(trace[j], pid, id) == SegmentBytes(trace[i], pid, id)
    decreases j - i
  {
    hide Touches, Step, SegmentBytes;
    if i < j {
      RunKeeps(trace, rs, replies, cfg, i, j - 1, pid, id);
      StepKeeps(trace[j - 1], rs[j - 1], replies[j - 1], trace[j], cfg, pid, id);
    }
  }

  predicate IsWrite(r: Request) {
    r.Write? || r.CpuWrite?
  }

  predicate IsRead(r: Request) {
    r.Read? || r.CpuRead?
  }

  /** A read, by a CPU or by the scheduler, sees the last write to its segment by either of them, and around it
      what the segment held before. */
  lemma ReadAfterWrite(trace: seq<MemView>, rs: seq<Request>, replies: seq<Reply>, cfg: Config, i: nat, j: nat)
    requires Run(trace, rs, replies, cfg) && i < j < |replies|
    requires IsWrite(rs[i]) && replies[i] == Ack && IsRead(rs[j]) && replies[j].Data?
    requires rs[i].pid == rs[j].pid && SegmentNumber(rs[i].dir, cfg.segMax) == SegmentNumber(rs[j].dir, cfg.segMax)
    requires forall k :: i < k < j ==> !Touches(rs[k], rs[j].pid, SegmentNumber(rs[j].dir, cfg.segMax), cfg)
    ensures var before := SegmentBytes(trace[i], rs[j].pid, SegmentNumber(rs[j].dir, cfg.segMax));
            var from, to := Offset(rs[i].dir, cfg.segMax), Offset(rs[j].dir, cfg.segMax);
            && before.Some? && to + rs[j].size <= |before.value| && |replies[j].bytes| == rs[j].size
            && forall k :: 0 <= k < rs[j].size ==>
                 replies[j].bytes[k] == if from <= to + k < from + |rs[i].data| then rs[i].data[to + k - from]
                                        else before.value[to + k]
  {
    hide SegmentNumber, Offset, Load, Store, AddProcess, AddSegment, Touches, SegmentBytes, Overlay;
    assert Step(trace[i], rs[i], replies[i], trace[i + 1], cfg) && Step(trace[j], rs[j], replies[j], trace[j + 1], cfg);
    var pid, id := rs[j].pid, SegmentNumber(rs[j].dir, cfg.segMax);
    var from, to := Offset(rs[i].dir, cfg.segMax), Offset(rs[j].dir, cfg.segMax);
    Wrote(trace[i], trace[i + 1], rs[i], cfg);
    RunKeeps(trace, rs, replies, cfg, i + 1, j, pid, id);
    LoadIsSlice(trace[j], pid, id, to, rs[j].size);
    SliceOfOverlay(SegmentBytes(trace[i], pid, id).value, from, rs[i].data, to, rs[j].size);
  }

  /** What an acknowledged write has done to its segment. */
  lemma Wrote(v: MemView, v': MemView, r: Request, cfg: Config)
    requires Step(v, r, Ack, v', cfg) && IsWrite(r)
    ensures var id, off := SegmentNumber(r.dir, cfg.segMax), Offset(r.dir, cfg.segMax);
            && SegmentBytes(v, r.pid, id).Some?
            && SegmentBytes(v', r.pid, id) == Some(Overlay(SegmentBytes(v, r.pid, id).value, off, r.data))
  {
    hide SegmentNumber, Offset, Load, Store, SegmentBytes, Overlay;
    var id, off := SegmentNumber(r.dir, cfg.segMax), Offset(r.dir, cfg.segMax);
    StoreIsLocal(v, r.pid, id, off, r.data, r.pid, id);
    LoadIsSlice(v, r.pid, id, off, |r.data|);
  }

  lemma SliceOfOverlay(before: seq<byte>, from: nat, data: seq<byte>, to: nat, size: nat)
    requires to + size <= |before|
    ensures var read := Overlay(before, from, data)[to..to + size];
            forall k :: 0 <= k < size ==> read[k] == if from <= to + k < from + |data| then data[to + k - from] else before[to + k]
  {
    var after, read := Overlay(before, from, data), Overlay(before, from, data)[to..to + size];
    assert forall k :: 0 <= k < size ==> read[k] == after[to + k];
  }

  lemma LoadIsSlice(v: MemView, pid: int, id: int, off: nat, size: nat)
    requires Load(v, pid, id, off, size).Some?
    ensures SegmentBytes(v, pid, id).Some? && off + size <= |SegmentBytes(v, pid, id).value|
    ensures Load(v, pid, id, off, size).value == SegmentBytes(v, pid, id).value[off..off + size]
  {}
}
