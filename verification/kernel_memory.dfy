/** Kernel Memory: the requests of the scheduler, one handler each (kernel_memory/src/memory_scheduler.c).
    Every handler is proved against the logical machine of module Logical. */
module KernelMemory {
  import opened Words
  import opened FreeBlocks
  import opened MemorySticks
  import opened Swap
  import opened Segments
  import opened Tables
  import opened Compaction
  import Logical

  datatype Reply =
    | Ack
    | SegmentationFault
    | Created(id: u32, base: u32, limit: u32)
    | Data(bytes: seq<byte>)
    | Space(free: u32)
    | NoReply

  /** procesos_buscar. */
  method FindProcess(procs: seq<Process>, pid: int) returns (p: int)
    ensures p == IndexOf(Pids(procs), pid)
  {
    p := 0;
    while p < |procs|
      invariant 0 <= p <= |procs|
      invariant forall m :: 0 <= m < p ==> procs[m].pid != pid
    {
      if procs[p].pid == pid { return; }
      p := p + 1;
    }
    p := -1;
  }

  class Memory {
    const cfg: Config
    const swapOnline: bool
    const free: FreeList
    const bank: Bank
    const area: SwapArea
    const file: SwapFile
    var procs: seq<Process>

    /** The parts are distinct objects, each well-formed, and agree on the sizes they share. */
    ghost predicate Wired()
      reads this, bank, bank.Repr, area, file, file.blocks
    {
      && free !in bank.Repr && area !in bank.Repr && file.blocks !in bank.Repr && this !in bank.Repr
      && bank.Valid() && file.Valid()
      && area.blockSize == file.blockSize == cfg.blockSize
      && area.totalBlocks == file.blocks.Length && area.nextBlock <= area.totalBlocks
      && area.totalBlocks + cfg.segMax < U32
    }

    ghost predicate Valid()
      reads this, free, bank, bank.Repr, area, file, file.blocks
    {
      Wired() && Sound(procs, free.blocks, |bank.flat|, cfg, area.nextBlock)
    }

    /** What the processes see. */
    ghost function View(): MemView
      reads this, bank, file, file.blocks
    {
      ViewOf(procs, bank.flat, file.blocks[..], cfg.blockSize)
    }

    constructor (cfg: Config, worstFit: bool, swapOnline: bool, swapBlocks: u32)
      requires cfg.segMax + cfg.blockSize <= U32 && swapBlocks + cfg.segMax < U32
      requires cfg.segMax < U32
      ensures Valid() && View() == [] && fresh(free) && fresh(bank) && fresh(area) && fresh(file) && fresh(file.blocks)
      ensures bank.Repr == {} && bank.sticks == [] && bank.flat == []
      ensures this.cfg == cfg && this.swapOnline == swapOnline && area.totalBlocks == swapBlocks && area.nextBlock == 0
      ensures free.worstFit == worstFit
    {
      this.cfg, this.swapOnline, procs := cfg, swapOnline, [];
      free := new FreeList(worstFit);
      bank := new Bank();
      area := new SwapArea(cfg.blockSize, swapBlocks);
      file := new SwapFile(cfg.blockSize, swapBlocks);
      new;
      assert Tiles(free.blocks, procs, 0);
    }

    /** manejar_crear_proceso. */
    method CreateProcess(pid: int) returns (reply: Reply)
      requires Valid()
      modifies this`procs
      ensures Valid() && reply == Ack && procs == old(procs) + [Process(pid, [])]
      ensures View() == Logical.AddProcess(old(View()), pid)
    {
      NewProcess(procs, free.blocks, pid, |bank.flat|, cfg, area.nextBlock);
      procs := procs + [Process(pid, [])];
      reply := Ack;
    }

    /** registrar_memory_stick, with the table entry and the free block added in one step. */
    method RegisterStick(size: u32)
      requires Valid() && |bank.flat| + size + cfg.segMax < U32
      modifies free, bank
      ensures Valid() && View() == old(View())
      ensures if |old(bank.sticks)| < MAX_STICKS then
                |bank.flat| == |old(bank.flat)| + size && |bank.sticks| == |old(bank.sticks)| + 1
              else bank.flat == old(bank.flat) && bank.sticks == old(bank.sticks) && free.blocks == old(free.blocks)
      ensures old(bank.Repr) <= bank.Repr && fresh(bank.Repr - old(bank.Repr))
    {
      hide Released;
      ghost var flat0, free0 := bank.flat, free.blocks;
      var added, base := bank.AddStick(size);
      if added {
        free.Release(base, size);
        MoreMemory(procs, free0, free.blocks, base, size, cfg, area.nextBlock);
        ViewFrame(procs, flat0, bank.flat, file.blocks[..], file.blocks[..], cfg, area.nextBlock);
      }
    }

    /** manejar_eliminar_segmento. The code does not check that the segment is in RAM: freeing a swapped one
        puts a block that is not memory into the free list. */
    method DeleteSegment(pid: int, id: u32) returns (reply: Reply)
      requires Valid()
      modifies this`procs, free
      ensures reply == Ack && Wired()
      ensures Valid() <==> Designates(old(procs), pid, id).None? || Designates(old(procs), pid, id).value.Resident()
      ensures View() == Logical.RemoveSegment(old(View()), pid, id)
      ensures var p := IndexOf(Pids(old(procs)), pid);
              var j := if p < 0 then -1 else IndexOf(Ids(old(procs)[p].segs), id);
              procs == if j < 0 then old(procs)
                       else old(procs)[p := Process(old(procs)[p].pid, Without(old(procs)[p].segs, j))]
    {
      hide Sound, Released, ViewOf, Logical.RemoveSegment, Without, IndexOf, Ids, Pids;
      reply := Ack;
      var p := FindProcess(procs, pid);
      var j := -1;
      if 0 <= p { j := FindSegment(procs[p].segs, id); }
      ViewRemoveSegment(procs, pid, id, p, j, bank.flat, file.blocks[..], cfg.blockSize);
      if j < 0 { return; }
      ghost var free0, procs0 := free.blocks, procs;
      free.Release(procs[p].segs[j].base, procs[p].segs[j].limit);
      Deleted(procs, free0, p, j, free.blocks, |bank.flat|, cfg, area.nextBlock);
      procs := procs[p := Process(procs[p].pid, Without(procs[p].segs, j))];
    }

    /** manejar_finalizar_proceso. */
    method FinishProcess(pid: int) returns (reply: Reply)
      requires Valid()
      modifies this`procs, free
      ensures Valid() && reply == Ack
      ensures View() == Logical.RemoveProcess(old(View()), pid)
      ensures var p := IndexOf(Pids(old(procs)), pid);
              procs == if p < 0 then old(procs) else Without(old(procs), p)
    {
      hide Sound, Released, ViewOf, Logical.RemoveProcess, Without, IndexOf, Pids;
      reply := Ack;
      var p := FindProcess(procs, pid);
      ViewRemoveProcess(procs, pid, p, bank.flat, file.blocks[..], cfg.blockSize);
      if p < 0 { return; }
      ghost var free0 := free.blocks;
      FreeResident(p);
      DropProcess(procs, free0, p, free.blocks, |bank.flat|, cfg, area.nextBlock);
      procs := Without(procs, p);
    }

    /** The loop of manejar_finalizar_proceso: frees the segments of process `p` that are in RAM. */
    method FreeResident(p: nat)
      requires Valid() && p < |procs|
      modifies free
      ensures InRange(free.blocks, |bank.flat|) && Merged(free.blocks)
      ensures forall a: int :: Cover(free.blocks, a) == Cover(old(free.blocks), a) + Cover(RamOf(procs[p].segs), a)
    {
      var segs := procs[p].segs;
      assert procs[p] in procs;
      ghost var free0, total, done := free.blocks, |bank.flat|, RamOf(segs[..0]);
      var j := 0;
      while j < |segs|
        invariant 0 <= j <= |segs| && done == RamOf(segs[..j])
        invariant InRange(free.blocks, total) && Merged(free.blocks)
        invariant forall a: int :: Cover(free.blocks, a) == Cover(free0, a) + Cover(done, a)
      {
        assert segs[j] in segs;
        CoverAppend(done, segs[j].Ram());
        if segs[j].Resident() {
          free.Release(segs[j].base, segs[j].limit);
        }
        j := j + 1;
        done := done + [segs[j - 1].Ram()];
        assert RamOf(segs[..j]) == done;
      }
      assert segs[..|segs|] == segs;
    }

    /* ---------- suspension ---------- */

    /** manejar_suspender_proceso. Swap has room for the first `Fit` segments of the process. If they are all in RAM they go
        to swap, with everything kept, and the rest stay. If not, either there is no answer, as soon as one with bytes
        already in swap comes, or the free list ends with a block that is not memory. */
    method SuspendProcess(pid: int) returns (reply: Reply)
      requires Valid()
      modifies this`procs, free, area, file.blocks
      ensures Wired() && |procs| == |old(procs)|
      ensures var p := IndexOf(Pids(old(procs)), pid);
              if p < 0 || !swapOnline then
                procs == old(procs) && free.blocks == old(free.blocks) && area.nextBlock == old(area.nextBlock)
                && reply == Ack && Valid() && View() == old(View())
              else
                var segs := old(procs)[p].segs;
                var k := Fit(segs, area.totalBlocks - old(area.nextBlock), cfg.blockSize);
                && ((reply == Ack && Valid()) <==> AllResident(segs[..k]))
                && (AllResident(segs[..k]) ==> View() == old(View()) && MovedToSwap(procs, old(procs), p, k))
                && (reply == if HasSwappedBytes(segs[..k]) then NoReply else Ack)
                && (reply == Ack ==> area.totalBlocks - area.nextBlock
                                     == RoomLeft(segs, area.totalBlocks - old(area.nextBlock), cfg.blockSize))
    {
      hide Sound, ViewOf, BlocksFor, MovedToSwap, IndexOf, Pids, AllResident, HasSwappedBytes, Fit, RoomLeft;
      reply := Ack;
      var p := FindProcess(procs, pid);
      if p < 0 || !swapOnline { return; }
      reply := SuspendAll(p);
    }

    /** The loop of manejar_suspender_proceso. */
    method SuspendAll(p: nat) returns (reply: Reply)
      requires Valid() && p < |procs|
      modifies this`procs, free, area, file.blocks
      ensures Wired() && |procs| == |old(procs)|
      ensures var segs := old(procs)[p].segs;
              var k := Fit(segs, area.totalBlocks - old(area.nextBlock), cfg.blockSize);
              && ((reply == Ack && Valid()) <==> AllResident(segs[..k]))
              && (AllResident(segs[..k]) ==> View() == old(View()) && MovedToSwap(procs, old(procs), p, k))
              && (reply == if HasSwappedBytes(segs[..k]) then NoReply else Ack)
              && (reply == Ack ==> area.totalBlocks - area.nextBlock
                                   == RoomLeft(segs, area.totalBlocks - old(area.nextBlock), cfg.blockSize))
    {
      hide Sound, ViewOf, BlocksFor, MovedToSwap, OneChanged, AllResident, HasSwappedBytes, StrayAmong, Fit, RoomLeft, InBounds,
        Released, BoundsOk, Swapped, Moving;
      ghost var segs0, total, room := procs[p].segs, |bank.flat|, area.totalBlocks - area.nextBlock;
      SuspendBegins(procs, free.blocks, p, total, cfg, area.nextBlock, room);
      var i := 0;
      while i < |procs[p].segs|
        invariant Wired() && |procs| == |old(procs)| && 0 <= i <= |procs[p].segs| == |segs0|
        invariant Moving(procs[p].segs, segs0, i, room, area.totalBlocks - area.nextBlock, total, cfg)
        invariant AllResident(segs0[..i]) ==> Valid() && View() == old(View()) && MovedToSwap(procs, old(procs), p, i)
        invariant !AllResident(segs0[..i]) ==> StrayAmong(free.blocks, total)
      {
        ghost var procs1, free1, next1 := procs, free.blocks, area.nextBlock;
        ghost var left := area.totalBlocks - area.nextBlock;
        MovingNext(procs[p].segs, segs0, i, room, left, total, cfg);
        RangeOfSound(procs, free.blocks, total, cfg, area.nextBlock);
        var moved, failed := SwapOut(p, i);
        if failed {
          SwappedBytesSeen(segs0, i, Fit(segs0, room, cfg.blockSize));
          return NoReply;
        }
        if !moved {
          StrayIsUnsound(procs, free.blocks, total, cfg, area.nextBlock);
          return Ack;
        }
        SuspendStep(procs, procs1, old(procs), p, i, next1, free.blocks, free1, total, cfg, AllResident(segs0[..i]));
        MovingStep(procs1[p].segs, procs[p].segs, segs0, i, room, left, total, cfg);
        i := i + 1;
      }
      MovingEnds(procs[p].segs, segs0, room, area.totalBlocks - area.nextBlock, total, cfg);
      StrayIsUnsound(procs, free.blocks, total, cfg, area.nextBlock);
      reply := Ack;
    }

    /** One round of the loop of manejar_suspender_proceso: reserve, dump, free, forget the base. */
    method SwapOut(p: nat, i: nat) returns (moved: bool, failed: bool)
      requires Wired() && p < |procs| && i < |procs[p].segs| && |bank.flat| < NO_BASE
      requires BoundsOk(procs[p].segs[i], |bank.flat|, cfg)
      modifies this`procs, free, area, file.blocks
      ensures Wired() && OneChanged(procs, old(procs), p, i) && |procs| == |old(procs)|
      ensures var s := old(procs)[p].segs[i];
              var n := BlocksFor(s.limit, cfg.blockSize);
              if area.totalBlocks < old(area.nextBlock) + n then
                !moved && !failed && procs == old(procs) && free.blocks == old(free.blocks) && area.nextBlock == old(area.nextBlock)
                && (old(Valid()) ==> Valid()) && View() == old(View())
              else
                && area.nextBlock == old(area.nextBlock) + n && (failed <==> !s.Resident() && 0 < s.limit) && moved == !failed
                && (moved ==> procs[p].segs[i] == Swapped(s, old(area.nextBlock))
                              && Released(free.blocks, old(free.blocks), Block(s.base, s.limit)))
                && (old(Valid()) && s.Resident() ==> Valid() && View() == old(View()))
    {
      hide ViewOf, BlocksFor, Sound, OneChanged, Released;
      FewBlocks(procs[p].segs[i].limit, cfg.blockSize);
      SameIsOne(procs, p, i);
      var n := BlocksFor(procs[p].segs[i].limit, cfg.blockSize);
      var start := area.Reserve(n);
      if start == NO_BASE {
        return false, false;
      }
      ghost var procs0 := procs;
      moved := DumpOut(p, i, start);
      PutAt(procs0, Entry(p, i), Swapped(procs0[p].segs[i], start), Entry(p, i));
      failed := !moved;
    }

    /** The rest of the round, for a segment with `start` as its first reserved block. */
    method DumpOut(p: nat, i: nat, start: u32) returns (moved: bool)
      requires Wired() && p < |procs| && i < |procs[p].segs| && |bank.flat| < NO_BASE
      requires BoundsOk(procs[p].segs[i], |bank.flat|, cfg)
      requires area.nextBlock == start + BlocksFor(procs[p].segs[i].limit, cfg.blockSize)
      modifies this`procs, free, file.blocks
      ensures Wired() && OneChanged(procs, old(procs), p, i) && |procs| == |old(procs)|
      ensures var s := old(procs)[p].segs[i];
              && (moved <==> s.limit == 0 || s.Resident())
              && (moved ==> procs == Put(old(procs), Entry(p, i), Swapped(s, start))
                            && Released(free.blocks, old(free.blocks), Block(s.base, s.limit)))
              && (s.Resident() && old(Sound(procs, free.blocks, |bank.flat|, cfg, start)) ==> Valid() && View() == old(View()))
    {
      hide Released, ViewOf, BlocksFor, Sound, SwapBytes, OneChanged, Put, Span, BlockAt, Cover, Used;
      var s := procs[p].segs[i];
      ghost var procs0, free0, content0 := procs, free.blocks, file.blocks[..];
      ChangeTwice(procs, p, i, s.(swapStart := start), Swapped(s, start));
      procs := Put(procs, Entry(p, i), s.(swapStart := start));
      moved := DumpSegment(bank, file, s.base, s.limit, start);
      if !moved { return; }
      free.Release(s.base, s.limit);
      procs := Put(procs, Entry(p, i), Segment(s.id, NO_BASE, s.limit, start));
      if s.Resident() && Sound(procs0, free0, |bank.flat|, cfg, start) {
        SwappedOut(procs0, free0, p, i, free.blocks, bank.flat, content0, file.blocks[..], cfg, start);
      }
    }

    /* ---------- un-suspension ---------- */

    /** manejar_des_suspender_proceso. The code takes it for granted that the whole process is in swap: when
        bytes of it are still in RAM, restoring it loses them. When there is no room, all is put back. */
    method UnsuspendProcess(pid: int) returns (reply: Reply)
      requires Valid()
      modifies this`procs, free, bank`flat, bank.Repr
      ensures Wired() && |procs| == |old(procs)|
      ensures var p := IndexOf(Pids(old(procs)), pid);
              if p < 0 || !swapOnline then
                && reply == (if p < 0 then Ack else SegmentationFault) && procs == old(procs) && free.blocks == old(free.blocks)
                && Valid() && View() == old(View())
              else
                && procs == old(procs)[p := Process(old(procs)[p].pid, procs[p].segs)] && Rebased(procs[p].segs, old(procs)[p].segs)
                && (reply == Ack ==> AllResident(procs[p].segs) && (Valid() <==> NothingInRam(old(procs)[p].segs)))
                && (StoredBelow(old(procs)[p].segs, area.nextBlock, cfg.blockSize) ==>
                      (reply == Ack <==> !Refused(old(free.blocks), old(procs)[p].segs, free.worstFit)))
                && (reply == Ack ==> Served(old(free.blocks), free.blocks, old(procs)[p].segs, procs[p].segs, free.worstFit))
                && (BlockFor(old(free.blocks), LimitSum(old(procs)[p].segs)) && StoredBelow(old(procs)[p].segs, area.nextBlock, cfg.blockSize)
                    ==> reply == Ack)
                && (NothingInRam(old(procs)[p].segs) ==>
                      && Valid() && View() == old(View())
                      && (reply != Ack ==> reply == SegmentationFault && procs == old(procs)
                                           && SameBlocks(free.blocks, old(free.blocks))))
    {
      hide Sound, ViewOf, BlocksFor, SameBlocks, LoadedAt, RamsReserved, BlockFor, LimitSum, StoredBelow, Refused, Served;
      var p := FindProcess(procs, pid);
      if p < 0 { return Ack; }
      if !swapOnline { return SegmentationFault; }
      ghost var procs0, free0, flat0 := procs, free.blocks, bank.flat;
      NotRebased(procs0, p);
      var room := ReserveAll(p);
      if !room {
        return SegmentationFault;
      }
      ReadyToLoad(procs0, free0, p, procs[p].segs, free.blocks, |bank.flat|, cfg, area.nextBlock);
      var read := LoadAll(p);
      MovedInFacts(procs0, free0, p, procs[p].segs, free.blocks, flat0, bank.flat, file.blocks[..], cfg, area.nextBlock, read);
      reply := if read then Ack else SegmentationFault;
    }

    /** reservar_segmentos_con_rollback: new bases for every segment, or everything as it was. */
    method ReserveAll(p: nat) returns (room: bool)
      requires Valid() && p < |procs|
      modifies this`procs, free
      ensures |procs| == |old(procs)|
      ensures BlockFor(old(free.blocks), LimitSum(old(procs)[p].segs)) ==> room
      ensures room <==> !Refused(old(free.blocks), old(procs)[p].segs, free.worstFit)
      ensures room ==> Served(old(free.blocks), free.blocks, old(procs)[p].segs, procs[p].segs, free.worstFit)
      ensures room ==> procs == old(procs)[p := Process(old(procs)[p].pid, procs[p].segs)]
                       && RamsReserved(procs[p].segs, old(procs)[p].segs, |procs[p].segs|, free.blocks, old(free.blocks), |bank.flat|)
      ensures !room ==> procs == old(procs) && SameBlocks(free.blocks, old(free.blocks))
                        && Sound(procs, free.blocks, |bank.flat|, cfg, area.nextBlock)
    {
      hide BlocksFor, SameBlocks, RamsReserved, Tiles, BlockFor, LimitSum, Chosen, Carve, NoneFits, Gives, Took, Refused, Served;
      ghost var free0, segs0, total := free.blocks, procs[p].segs, |bank.flat|;
      ghost var frees, bases := [free0], [];
      TookNone(free0, segs0, free.worstFit);
      ghost var roomy := BlockFor(free0, LimitSum(segs0));
      assert segs0[0..] == segs0;
      var previous: seq<u32> := [];
      var i := 0;
      NothingReserved(segs0, free0, procs, p, total, cfg, area.nextBlock);
      while i < |procs[p].segs|
        invariant |procs| == |old(procs)| && 0 <= i == |previous| <= |procs[p].segs| == |segs0|
        invariant procs == old(procs)[p := Process(old(procs)[p].pid, procs[p].segs)]
        invariant RamsReserved(procs[p].segs, segs0, i, free.blocks, free0, total)
        invariant forall j :: 0 <= j < i ==> previous[j] == segs0[j].base
        invariant roomy ==> BlockFor(free.blocks, LimitSum(segs0[i..]))
        invariant |bases| == i && |frees| == i + 1 && frees[0] == free0 && frees[i] == free.blocks
        invariant Took(frees, segs0, bases, free.worstFit) && forall j :: 0 <= j < i ==> procs[p].segs[j].base == bases[j]
      {
        var s := procs[p].segs[i];
        ghost var before := free.blocks;
        var base, k := free.Assign(s.limit);
        NotYetRebased(procs[p].segs, segs0, i, before, free0, total);
        if roomy { BlockStays(before, free.blocks, segs0, i, k); }
        if base == NO_BASE {
          NotAssigned(procs[p].segs, segs0, i, before, free0, total, k, base, s.limit);
          TookRefuses(frees, segs0, bases, free.worstFit);
          PutBack(p, previous, segs0, free0);
          assert procs == old(procs);
          SameAfterRollback(procs, free0, free.blocks, total, cfg, area.nextBlock);
          return false;
        }
        ReserveOne(procs[p].segs, segs0, i, before, free0, total, k);
        GivenBy(before, free.blocks, s.limit, base, free.worstFit, k);
        TookOne(frees, segs0, bases, free.blocks, base, free.worstFit);
        frees, bases := frees + [free.blocks], bases + [base];
        previous := previous + [s.base];
        procs := procs[p := Process(procs[p].pid, procs[p].segs[i := s.(base := base)])];
        i := i + 1;
      }
      TookAll(frees, segs0, bases, procs[p].segs, free.worstFit);
      room := true;
    }

    /** The rollback loop: frees the new bases in the order they were taken and restores the old ones. */
    method PutBack(p: nat, previous: seq<u32>, ghost segs0: seq<Segment>, ghost free0: seq<Block>)
      requires p < |procs| && |previous| <= |procs[p].segs| == |segs0|
      requires RamsReserved(procs[p].segs, segs0, |previous|, free.blocks, free0, |bank.flat|) && |bank.flat| < U32
      requires forall j :: 0 <= j < |previous| ==> previous[j] == segs0[j].base
      modifies this`procs, free
      ensures procs == old(procs)[p := Process(old(procs)[p].pid, segs0)]
      ensures InRange(free.blocks, |bank.flat|) && Merged(free.blocks)
      ensures forall a: int :: Cover(free.blocks, a) == Cover(free0, a)
    {
      ghost var total, n, segs1 := |bank.flat|, |previous|, procs[p].segs;
      assert procs == procs[p := Process(procs[p].pid, procs[p].segs)];
      var k := 0;
      while k < |previous|
        invariant 0 <= k <= n && |procs| == |old(procs)| && |procs[p].segs| == |segs0|
        invariant procs == old(procs)[p := Process(old(procs)[p].pid, procs[p].segs)]
        invariant forall j :: 0 <= j < |segs0| ==> procs[p].segs[j] == if j < k then segs0[j] else segs1[j]
        invariant InRange(free.blocks, total) && Merged(free.blocks)
        invariant forall a: int :: Cover(free.blocks, a) + Cover(RamOf(segs1[k..n]), a) == Cover(free0, a)
      {
        var s := procs[p].segs[k];
        assert s == segs1[k] && s.Resident() && s.base + s.limit <= total;
        forall a: int
          ensures Cover(RamOf(segs1[k..n]), a) == One(Block(s.base, s.limit).Has(a)) + Cover(RamOf(segs1[k + 1..n]), a)
        {
          assert RamOf(segs1[k..n])[1..] == RamOf(segs1[k + 1..n]);
        }
        free.Release(s.base, s.limit);
        procs := procs[p := Process(procs[p].pid, procs[p].segs[k := s.(base := previous[k])])];
        k := k + 1;
      }
      assert procs[p].segs == segs0;
      assert RamOf(segs1[n..n]) == [];
    }

    /** transferir_swap_a_ram. */
    method LoadAll(p: nat) returns (read: bool)
      requires Wired() && p < |procs| && cfg.segMax + cfg.blockSize <= U32
      requires forall s :: s in procs[p].segs ==> s.Resident() && s.limit <= cfg.segMax && s.base + s.limit <= |bank.flat|
      requires Disjoint(RamOf(procs[p].segs))
      modifies bank`flat, bank.Repr
      ensures Wired() && |bank.flat| == |old(bank.flat)| && file.blocks[..] == old(file.blocks[..])
      ensures forall a :: 0 <= a < |bank.flat| && Cover(RamOf(procs[p].segs), a) == 0 ==> bank.flat[a] == old(bank.flat)[a]
      ensures StoredBelow(procs[p].segs, area.nextBlock, cfg.blockSize) ==>
                read && forall s :: s in procs[p].segs ==> LoadedAt(s, bank.flat, file.blocks[..], cfg.blockSize)
    {
      hide BlocksFor, SwapBytes;
      var segs := procs[p].segs;
      ghost var stored := StoredBelow(segs, area.nextBlock, cfg.blockSize);
      ghost var flat0, content := bank.flat, file.blocks[..];
      var i := 0;
      while i < |segs|
        invariant 0 <= i <= |segs|
        invariant Wired() && |bank.flat| == |flat0| && file.blocks[..] == content
        invariant forall a :: 0 <= a < |bank.flat| && Cover(RamOf(segs), a) == 0 ==> bank.flat[a] == flat0[a]
        invariant stored ==> forall j :: 0 <= j < i ==> LoadedAt(segs[j], bank.flat, content, cfg.blockSize)
      {
        var s := segs[i];
        assert s in segs;
        ghost var before := bank.flat;
        var ok := LoadSegment(bank, file, s.base, s.limit, s.swapStart);
        OnlyOwnRam(segs, i, before, bank.flat, flat0);
        if !ok {
          return false;
        }
        LoadedOne(segs, i, before, bank.flat, content, cfg.blockSize, stored);
        i := i + 1;
      }
      read := true;
    }

    /* ---------- compaction ---------- */

    /** compactar_memoria. `es` is the order in which the segments were moved. */
    method Compact() returns (ghost es: seq<Entry>)
      requires Valid()
      modifies this`procs, free, bank`flat, bank.Repr
      ensures Valid() && View() == old(View()) && |bank.flat| == |old(bank.flat)|
      ensures NoSegments(old(procs)) ==> procs == old(procs) && free.blocks == old(free.blocks)
      ensures !NoSegments(old(procs)) ==> CompactedTo(procs, old(procs), es, free.blocks, |bank.flat|)
    {
      hide Sound, ViewOf, Ordered, CompactedTo;
      es := [];
      var count := CountSegments();
      if count == 0 { return; }
      var entries, n := CollectInOrder(count);
      es := entries[..n];
      SlideDown(entries, n);
    }

    /** The second half of compactar_memoria: slides the collected segments down and rebuilds the free list. */
    method SlideDown(entries: array<Entry>, n: nat)
      requires Valid() && n <= entries.Length && entries !in bank.Repr && Ordered(procs, entries[..n])
      modifies this`procs, free, bank`flat, bank.Repr
      ensures Valid() && View() == old(View()) && |bank.flat| == |old(bank.flat)|
      ensures CompactedTo(procs, old(procs), old(entries[..n]), free.blocks, |bank.flat|)
    {
      hide Sound, ViewOf, Ordered, SlideState, CompactedTo, Rest, Start;
      ghost var es, procs0, free0, flat0, content := entries[..n], procs, free.blocks, bank.flat, file.blocks[..];
      NothingMoved(procs0, free0, es, flat0, cfg, area.nextBlock);
      var cursor := 0;
      if 0 < n {
        cursor := SlideAll(entries, n, free0);
      }
      AllMoved(procs, procs0, free0, es, bank.flat, flat0, content, cfg, area.nextBlock);
      RestMeans(cursor, |bank.flat|);
      var ram := bank.TotalRam();
      free.ResetToSingle(cursor, if ram > cursor then ram - cursor else 0);
    }

    /** Collects and sorts. */
    method CollectInOrder(count: nat) returns (entries: array<Entry>, n: nat)
      requires count == SegmentCount(procs, |procs|)
      ensures fresh(entries) && n <= entries.Length && Ordered(procs, entries[..n])
    {
      entries, n := Collect(count);
      SortByBase(entries, n, procs);
      SortedIsOrdered(procs, entries[..n]);
    }

    method CountSegments() returns (count: nat)
      ensures count == SegmentCount(procs, |procs|)
      ensures count == 0 <==> NoSegments(procs)
    {
      count := 0;
      var p := 0;
      while p < |procs|
        invariant 0 <= p <= |procs| && count == SegmentCount(procs, p)
        invariant count == 0 <==> forall q :: 0 <= q < p ==> procs[q].segs == []
      {
        count := count + |procs[p].segs|;
        p := p + 1;
      }
    }

    /** Fills `entradas` with the segments that are in RAM. */
    method Collect(count: nat) returns (entries: array<Entry>, n: nat)
      requires count == SegmentCount(procs, |procs|)
      ensures fresh(entries) && n <= entries.Length && entries[..n] == AllEntries(procs)
    {
      entries := new Entry[count](_ => Entry(0, 0));
      n := 0;
      var p := 0;
      while p < |procs|
        invariant 0 <= p <= |procs| && n <= SegmentCount(procs, p) <= entries.Length
        invariant entries[..n] == EntriesBefore(procs, p, 0)
      {
        SegmentCountMonotone(procs, p + 1, |procs|);
        n := CollectProcess(p, entries, n);
        p := p + 1;
      }
    }

    /** The inner loop: the segments of process `p`. */
    method CollectProcess(p: nat, entries: array<Entry>, n0: nat) returns (n: nat)
      requires p < |procs| && n0 + |procs[p].segs| <= entries.Length
      requires entries[..n0] == EntriesBefore(procs, p, 0)
      modifies entries
      ensures n0 <= n <= n0 + |procs[p].segs| && entries[..n] == EntriesBefore(procs, p + 1, 0)
    {
      n := n0;
      var j := 0;
      while j < |procs[p].segs|
        invariant 0 <= j <= |procs[p].segs| && n0 <= n <= n0 + j
        invariant entries[..n] == EntriesBefore(procs, p, j)
      {
        ghost var before := entries[..n];
        if procs[p].segs[j].base != NO_BASE {
          entries[n] := Entry(p, j);
          n := n + 1;
          assert entries[..n] == before + [Entry(p, j)];
        }
        j := j + 1;
      }
    }

    /** The sliding loop: each segment is copied down to the cursor, its base set, the cursor advanced. */
    method SlideAll(entries: array<Entry>, n: nat, ghost free0: seq<Block>) returns (cursor: u32)
      requires Wired() && n <= entries.Length && entries !in bank.Repr
      requires Ordered(procs, entries[..n]) && Sound(procs, free0, |bank.flat|, cfg, area.nextBlock)
      requires SlideState(procs, procs, bank.flat, bank.flat, entries[..n], 0)
      modifies this`procs, bank`flat, bank.Repr
      ensures Wired() && |bank.flat| == |old(bank.flat)| && entries[..] == old(entries[..])
      ensures SlideState(procs, old(procs), bank.flat, old(bank.flat), entries[..n], n)
      ensures cursor == Start(old(procs), entries[..n], n)
    {
      hide Sound, Ordered, Slid, SlidRam, SlideState, Start;
      ghost var es, procs0, flat0 := entries[..n], procs, bank.flat;
      StartZero(procs, es);
      cursor := 0;
      var i := 0;
      while i < n
        invariant 0 <= i <= n && entries[..] == old(entries[..]) && entries[..n] == es && Wired() && |bank.flat| == |flat0|
        invariant cursor == Start(procs0, es, i) && SlideState(procs, procs0, bank.flat, flat0, es, i)
      {
        assert entries[i] == es[i];
        SlideNext(procs, procs0, bank.flat, flat0, es, i, cursor, free0, cfg, area.nextBlock);
        ghost var flat1, procs1 := bank.flat, procs;
        var limit := procs[entries[i].p].segs[entries[i].j].limit;
        SlideEntry(entries[i], cursor);
        SlideStep(procs1, procs0, flat1, bank.flat, flat0, es, i, cursor, free0, cfg, area.nextBlock);
        cursor := cursor + limit;
        i := i + 1;
      }
    }

    /** The body of the loop: nothing is copied when the segment is already in place. */
    method SlideEntry(e: Entry, cursor: u32)
      requires Wired() && InTable(procs, e)
      requires At(procs, e).base + At(procs, e).limit <= |bank.flat| && cursor + At(procs, e).limit <= |bank.flat|
      modifies this`procs, bank`flat, bank.Repr
      ensures Wired() && procs == Put(old(procs), e, At(old(procs), e).(base := cursor))
      ensures Patched(bank.flat, old(bank.flat), cursor,
                old(bank.flat)[At(old(procs), e).base..At(old(procs), e).base + At(old(procs), e).limit], 0, At(old(procs), e).limit)
    {
      hide Patched, Overlay;
      var s := procs[e.p].segs[e.j];
      AlreadyThere(bank.flat, s.base, s.limit);
      if s.base != cursor {
        var data := bank.Read(s.base, s.limit);
        if data.Some? {
          assert data.value == bank.flat[s.base..s.base + s.limit];
          OverlaidPatch(bank.flat, cursor, data.value);
          var _ := bank.Write(cursor, data.value);
        }
      }
      procs := procs[e.p := Process(procs[e.p].pid, procs[e.p].segs[e.j := s.(base := cursor)])];
    }

    /* ---------- segment creation ---------- */

    /** manejar_solicitar_segmento: for a positive size within the maximum it succeeds exactly when the free
        space is enough in total, and compacts only when no block is. */
    method CreateSegment(pid: int, id: u32, size: u32) returns (reply: Reply)
      requires Valid()
      modifies this`procs, free, bank`flat, bank.Repr
      ensures Valid() && |bank.flat| == |old(bank.flat)|
      ensures reply.Created? <==> (size <= cfg.segMax && 0 <= IndexOf(Pids(old(procs)), pid)
                                   && if size == 0 then old(free.blocks) != [] else size <= TotalSize(old(free.blocks)))
      ensures !reply.Created? ==> reply == SegmentationFault && View() == old(View())
      ensures reply.Created? ==> (reply == Created(id, reply.base, size) && reply.base + size <= |bank.flat|
                && View() == Logical.AddSegment(old(View()), pid, SegView(id, bank.flat[reply.base..reply.base + size])))
      ensures reply.Created? ==> LastSegment(procs, pid, Segment(id, reply.base, size, 0))
      ensures !NoneFits(old(free.blocks), size) ==> (bank.flat == old(bank.flat) && Extends(procs, old(procs)))
      ensures reply.Created? ==> Placed(procs, free.blocks, old(procs), old(free.blocks), pid, Segment(id, reply.base, size, 0),
                                        |bank.flat|, free.worstFit)
      ensures !reply.Created? && 0 < size ==> procs == old(procs) && free.blocks == old(free.blocks)
    {
      hide Sound, ViewOf, Logical.AddSegment, NoneFits, Assigned, Extends, LastSegment, IndexOf, Pids, TotalSize, Placed, WithSegment,
        RoomAt;
      NotExtended(procs);
      if size > cfg.segMax { return SegmentationFault; }
      var p := FindProcess(procs, pid);
      if p < 0 { return SegmentationFault; }
      reply := PlaceSegment(pid, p, id, size);
    }

    /** The rest of manejar_solicitar_segmento, for a process that exists and a size within the maximum. */
    method PlaceSegment(pid: int, p0: nat, id: u32, size: u32) returns (reply: Reply)
      requires Valid() && p0 == IndexOf(Pids(procs), pid) && size <= cfg.segMax
      modifies this`procs, free, bank`flat, bank.Repr
      ensures Valid() && |bank.flat| == |old(bank.flat)|
      ensures reply.Created? <==> if size == 0 then old(free.blocks) != [] else size <= TotalSize(old(free.blocks))
      ensures !reply.Created? ==> reply == SegmentationFault && View() == old(View())
                                  && (0 < size ==> procs == old(procs) && free.blocks == old(free.blocks))
      ensures reply.Created? ==> (reply == Created(id, reply.base, size) && reply.base + size <= |bank.flat|
                && View() == Logical.AddSegment(old(View()), pid, SegView(id, bank.flat[reply.base..reply.base + size])))
      ensures reply.Created? ==> LastSegment(procs, pid, Segment(id, reply.base, size, 0))
      ensures reply.Created? ==> Placed(procs, free.blocks, old(procs), old(free.blocks), pid, Segment(id, reply.base, size, 0), |bank.flat|, free.worstFit)
      ensures !NoneFits(old(free.blocks), size) ==> (bank.flat == old(bank.flat) && Extends(procs, old(procs)))
    {
      hide Sound, ViewOf, Logical.AddSegment, NoneFits, Assigned, Extends, LastSegment, IndexOf, Pids, TotalSize, Placed, WithSegment,
        RoomAt;
      NotExtended(procs);
      var base, p, k, free0 := FindRoom(pid, p0, size);
      if base == NO_BASE { return SegmentationFault; }
      ghost var procs1 := procs;
      AppendSegment(pid, p, Segment(id, base, size, 0), k, free0);
      reply := Created(id, base, size);
      NowPlaced(procs, procs1, old(procs), free.blocks, old(free.blocks), pid, Segment(id, base, size, 0), |bank.flat|, free.worstFit);
    }

    /** The middle of manejar_solicitar_segmento: a block for the segment, after a compaction if there must be one. */
    method FindRoom(pid: int, p0: nat, size: u32) returns (base: u32, p: int, ghost k: int, ghost free0: seq<Block>)
      requires Valid() && p0 == IndexOf(Pids(procs), pid)
      modifies this`procs, free, bank`flat, bank.Repr
      ensures Wired() && |bank.flat| == |old(bank.flat)| && View() == old(View())
      ensures 0 <= p == IndexOf(Pids(procs), pid)
      ensures base != NO_BASE <==> if size == 0 then old(free.blocks) != [] else size <= TotalSize(old(free.blocks))
      ensures base == NO_BASE ==> Valid() && (0 < size ==> procs == old(procs) && free.blocks == old(free.blocks))
      ensures base != NO_BASE ==> Sound(procs, free0, |bank.flat|, cfg, area.nextBlock)
      ensures base != NO_BASE ==> Assigned(free.blocks, free0, k, base, size, |bank.flat|, free.worstFit)
      ensures !NoneFits(old(free.blocks), size) ==> procs == old(procs) && bank.flat == old(bank.flat)
      ensures base != NO_BASE ==> RoomAt(procs, free.blocks, old(procs), old(free.blocks), base, size, |bank.flat|, free.worstFit)
    {
      hide Sound, ViewOf, NoneFits, Assigned, IndexOf, Pids, TotalSize, RoomAt, Chosen, Carve, Better;
      p, free0 := p0, free.blocks;
      base, k := free.Assign(size);
      AssignMeans(procs, free0, free.blocks, |bank.flat|, cfg, area.nextBlock, k, base, size, free.worstFit);
      if base == NO_BASE {
        SpaceBounds(procs, free0, |bank.flat|, cfg, area.nextBlock);
        var space := free.FreeSpace();
        if space < size { return NO_BASE, p, k, free0; }
        base, p, k, free0 := CompactAndReassign(pid, size);
      } else {
        AssignedRoom(procs, free.blocks, free0, k, base, size, |bank.flat|, free.worstFit);
      }
    }

    /** compactar_y_reasignar. The process is looked up again, as its table has been rewritten. */
    method CompactAndReassign(pid: int, size: u32) returns (base: u32, p: int, ghost k: int, ghost free0: seq<Block>)
      requires Valid() && 0 <= IndexOf(Pids(procs), pid)
      requires NoneFits(free.blocks, size) && size <= TotalSize(free.blocks)
      modifies this`procs, free, bank`flat, bank.Repr
      ensures Wired() && |bank.flat| == |old(bank.flat)| && View() == old(View())
      ensures Sound(procs, free0, |bank.flat|, cfg, area.nextBlock)
      ensures 0 <= p == IndexOf(Pids(procs), pid)
      ensures Assigned(free.blocks, free0, k, base, size, |bank.flat|, free.worstFit)
      ensures base != NO_BASE ==> RoomAt(procs, free.blocks, old(procs), old(free.blocks), base, size, |bank.flat|, free.worstFit)
      ensures (base == NO_BASE <==> size == 0) && (size == 0 ==> old(free.blocks) == [] && free.blocks == free0)
    {
      hide Sound, ViewOf, CompactedTo, NoneFits, Assigned, NoSegments, TotalSize, IndexOf, Pids, Carve, Better, Rest, CompactedFrom;
      ghost var before, procs0 := free.blocks, procs;
      ghost var es := Compact();
      CompactionMakesRoom(procs, procs0, es, free.blocks, before, |bank.flat|, cfg, area.nextBlock, size);
      free0 := free.blocks;
      base, k := free.Assign(size);
      AssignMeans(procs, free0, free.blocks, |bank.flat|, cfg, area.nextBlock, k, base, size, free.worstFit);
      p := FindProcess(procs, pid);
      CompactedStart(procs, procs0, es, free0, before, |bank.flat|, cfg, area.nextBlock);
      if base != NO_BASE {
        OnlyBlockGiven(free.blocks, free0, k, base, size, |bank.flat|, free.worstFit, |bank.flat| - TotalSize(before));
      }
    }

    /** The end of manejar_solicitar_segmento: the new segment goes to the end of the process's table. */
    method AppendSegment(pid: int, p: nat, s: Segment, ghost k: int, ghost free0: seq<Block>)
      requires Wired() && p < |procs| && p == IndexOf(Pids(procs), pid) && s.limit <= cfg.segMax && s.Resident()
      requires Sound(procs, free0, |bank.flat|, cfg, area.nextBlock)
      requires Assigned(free.blocks, free0, k, s.base, s.limit, |bank.flat|, free.worstFit)
      modifies this`procs
      ensures Valid() && s.base + s.limit <= |bank.flat|
      ensures View() == Logical.AddSegment(old(View()), pid, SegView(s.id, bank.flat[s.base..s.base + s.limit]))
      ensures Extends(procs, old(procs)) && LastSegment(procs, pid, s) && procs == WithSegment(old(procs), pid, s)
    {
      hide Sound, ViewOf, Logical.AddSegment, Extends, LastSegment, Carve, Better;
      Allocated(procs, free0, p, s, k, |bank.flat|, cfg, area.nextBlock);
      ViewAddSegment(procs, pid, p, s, bank.flat, file.blocks[..], cfg.blockSize);
      Extended(procs, pid, p, s);
      procs := procs[p := Process(procs[p].pid, procs[p].segs + [s])];
    }

    /** manejar_obtener_espacio_libre. */
    method FreeSpace() returns (space: u32)
      requires Valid()
      ensures space == |bank.flat| - TotalSize(ResidentBlocks(procs))
    {
      Conservation(procs, free.blocks, |bank.flat|, cfg, area.nextBlock);
      space := free.FreeSpace();
    }

    /* ---------- reads and writes ---------- */

    /** traducir_dir_logica: the physical address, or none. `offset + size` may wrap in this test. */
    method Translate(ghost pid: int, p: nat, dir: u32, size: u32) returns (physical: Option<u32>)
      requires Valid() && p < |procs| && p == IndexOf(Pids(procs), pid)
      ensures var s := Designates(procs, pid, SegmentNumber(dir, cfg.segMax));
              physical == if s == None || Add32(Offset(dir, cfg.segMax), size) > s.value.limit || !s.value.Resident() then None
                          else Some(s.value.base + Offset(dir, cfg.segMax))
    {
      hide BlocksFor, SegmentNumber;
      var num, off := SegmentNumber(dir, cfg.segMax), Offset(dir, cfg.segMax);
      var j := FindSegment(procs[p].segs, num);
      if j < 0 || Add32(off, size) > procs[p].segs[j].limit { return None; }
      if procs[p].segs[j].base == NO_BASE { return None; }
      assert procs[p] in procs && procs[p].segs[j] in procs[p].segs;
      physical := Some(Add32(procs[p].segs[j].base, off));
    }

    /** manejar_lectura_memoria. A range that fits its segment is answered with the logical bytes. One whose
        end wraps past 2^32 passes the limit test, runs off physical memory and gets no reply. */
    method ReadMemory(pid: int, dir: u32, size: u32) returns (reply: Reply)
      requires Valid()
      ensures var s := Designates(procs, pid, SegmentNumber(dir, cfg.segMax));
              var off := Offset(dir, cfg.segMax);
              if s == None || !s.value.Resident() || Add32(off, size) > s.value.limit then reply == SegmentationFault
              else
                match Logical.Load(View(), pid, SegmentNumber(dir, cfg.segMax), off, size)
                case Some(bytes) => off + size < U32 && reply == Data(bytes)
                case None => U32 <= off + size && reply == NoReply
    {
      hide Sound, ViewOf, Logical.Load, SegmentNumber, Offset, Designates;
      var p := FindProcess(procs, pid);
      if p < 0 {
        NotThere(procs, pid, SegmentNumber(dir, cfg.segMax));
        return SegmentationFault;
      }
      var physical := Translate(pid, p, dir, size);
      if physical == None { return SegmentationFault; }
      TranslatedRange(procs, free.blocks, pid, SegmentNumber(dir, cfg.segMax), Offset(dir, cfg.segMax), size, |bank.flat|, cfg,
                      area.nextBlock);
      var data := bank.Read(physical.value, size);
      if data == None {
        WrappedNeverLoads(procs, pid, SegmentNumber(dir, cfg.segMax), Offset(dir, cfg.segMax), size, bank.flat, file.blocks[..],
                          cfg.blockSize);
        return NoReply;
      }
      assert data.value == bank.flat[physical.value..physical.value + size];
      ViewLoad(procs, pid, SegmentNumber(dir, cfg.segMax), Offset(dir, cfg.segMax), size, bank.flat, file.blocks[..], cfg.blockSize);
      reply := Data(data.value);
    }

    /** manejar_escritura_memoria. A range that fits its segment changes the logical bytes of that segment and
        nothing else. One whose end wraps is acknowledged after overwriting RAM from there to its end, and it is no
        store at all: there are no such bytes to load. */
    method WriteMemory(pid: int, dir: u32, data: seq<byte>) returns (reply: Reply)
      requires Valid() && |data| < U32
      modifies bank`flat, bank.Repr
      ensures Valid() && |bank.flat| == |old(bank.flat)|
      ensures var s := Designates(procs, pid, SegmentNumber(dir, cfg.segMax));
              var off := Offset(dir, cfg.segMax);
              if s == None || !s.value.Resident() || Add32(off, |data|) > s.value.limit then
                reply == SegmentationFault && bank.flat == old(bank.flat)
              else
                && reply == Ack
                && bank.flat == Overlay(old(bank.flat), s.value.base + off, data)
                && (off + |data| < U32 <==> Logical.Load(old(View()), pid, SegmentNumber(dir, cfg.segMax), off, |data|).Some?)
                && (off + |data| < U32 ==> View() == Logical.Store(old(View()), pid, SegmentNumber(dir, cfg.segMax), off, data))
    {
      hide Sound, ViewOf, Logical.Store, Logical.Load, SegmentNumber, Offset, Designates, Overlay;
      var p := FindProcess(procs, pid);
      if p < 0 {
        NotThere(procs, pid, SegmentNumber(dir, cfg.segMax));
        return SegmentationFault;
      }
      var physical := Translate(pid, p, dir, |data|);
      if physical == None { return SegmentationFault; }
      TranslatedRange(procs, free.blocks, pid, SegmentNumber(dir, cfg.segMax), Offset(dir, cfg.segMax), |data|, |bank.flat|, cfg,
                      area.nextBlock);
      ghost var flat0 := bank.flat;
      var _ := bank.Write(physical.value, data);
      if Offset(dir, cfg.segMax) + |data| < U32 {
        ViewLoad(procs, pid, SegmentNumber(dir, cfg.segMax), Offset(dir, cfg.segMax), |data|, flat0, file.blocks[..], cfg.blockSize);
        ViewStore(procs, free.blocks, pid, SegmentNumber(dir, cfg.segMax), Offset(dir, cfg.segMax), data, flat0, bank.flat,
                  file.blocks[..], cfg, area.nextBlock);
      } else {
        WrappedNeverLoads(procs, pid, SegmentNumber(dir, cfg.segMax), Offset(dir, cfg.segMax), |data|, flat0, file.blocks[..], cfg.blockSize);
      }
      reply := Ack;
    }
  }

  /* ---------- facts about creation ---------- */

  /** What the result of an allocation says about the free list before and after it. */
  ghost predicate Assigned(free: seq<Block>, free0: seq<Block>, k: int, base: u32, size: u32, total: int, worstFit: bool) {
    if base == NO_BASE then
      NoneFits(free0, size) && free == free0 && (size == 0 ==> free0 == [])
    else
      && Chosen(free0, k, size, worstFit) && base == free0[k].base && free == Carve(free0, k, size)
      && !NoneFits(free0, size) && base + size <= total
      && if size == 0 then free0 != [] else size <= TotalSize(free0)
  }

  lemma AssignMeans(procs: seq<Process>, free0: seq<Block>, free: seq<Block>, total: int, cfg: Config, next: int,
                    k: int, base: u32, size: u32, worstFit: bool)
    requires Sound(procs, free0, total, cfg, next)
    requires k == -1 ==> NoneFits(free0, size) && base == NO_BASE && free == free0
    requires k != -1 ==> Chosen(free0, k, size, worstFit) && base == free0[k].base && free == Carve(free0, k, size)
    ensures Assigned(free, free0, k, base, size, total, worstFit)
    ensures base == NO_BASE ==> NoneFits(free0, size) && free == free0 && (size == 0 ==> free0 == [])
    ensures base != NO_BASE ==> !NoneFits(free0, size) && if size == 0 then free0 != [] else size <= TotalSize(free0)
  {
    hide BlocksFor, Carve;
    if k != -1 {
      assert free0[k] in free0;
      BlockWithinTotal(free0, k);
    } else {
      EmptyRequest(free0, size);
    }
  }

  /** `procs` with one more segment at the end of the table of process `pid`. */
  function WithSegment(procs: seq<Process>, pid: int, s: Segment): seq<Process> {
    var p := IndexOf(Pids(procs), pid);
    if p < 0 then procs else procs[p := Process(procs[p].pid, procs[p].segs + [s])]
  }

  /** Compaction has led from `procs0` to `procs`, with the segments packed up to `end`. */
  ghost predicate CompactedFrom(procs: seq<Process>, procs0: seq<Process>, end: nat, total: int) {
    end <= total < U32 && exists es :: CompactedTo(procs, procs0, es, Rest(end, total), total)
  }

  /** Where a new segment goes: to the block chosen for it if some block fits, and otherwise, after a compaction, right
      after all the others, the free list being what is left after it. */
  ghost predicate Placed(procs: seq<Process>, free: seq<Block>, procs0: seq<Process>, free0: seq<Block>, pid: int, s: Segment,
                         total: int, worstFit: bool) {
    if !NoneFits(free0, s.limit) then
      Gives(free0, free, s.limit, s.base, worstFit) && procs == WithSegment(procs0, pid, s)
    else
      && s.base == total - TotalSize(free0) && s.base + s.limit <= total < U32 && free == Rest(s.base + s.limit, total)
      && exists packed :: CompactedFrom(packed, procs0, s.base, total) && procs == WithSegment(packed, pid, s)
  }

  /** The tables and the free list are those from which the segment goes to `base`. */
  ghost predicate RoomAt(procs: seq<Process>, free: seq<Block>, procs0: seq<Process>, free0: seq<Block>, base: u32, size: u32,
                         total: int, worstFit: bool) {
    if !NoneFits(free0, size) then
      procs == procs0 && Gives(free0, free, size, base, worstFit)
    else
      && CompactedFrom(procs, procs0, base, total) && base == total - TotalSize(free0)
      && base + size <= total < U32 && free == Rest(base + size, total)
  }

  lemma AssignedRoom(procs: seq<Process>, free: seq<Block>, free0: seq<Block>, k: int, base: u32, size: u32, total: int, worstFit: bool)
    requires Assigned(free, free0, k, base, size, total, worstFit) && base != NO_BASE
    ensures RoomAt(procs, free, procs, free0, base, size, total, worstFit)
  {
    hide Chosen, Carve, NoneFits, TotalSize;
    GivenBy(free0, free, size, base, worstFit, k);
  }

  lemma NowPlaced(procs: seq<Process>, packed: seq<Process>, procs0: seq<Process>, free: seq<Block>, free0: seq<Block>, pid: int,
                  s: Segment, total: int, worstFit: bool)
    requires procs == WithSegment(packed, pid, s) && RoomAt(packed, free, procs0, free0, s.base, s.limit, total, worstFit)
    ensures Placed(procs, free, procs0, free0, pid, s, total, worstFit)
  {
    hide WithSegment, CompactedFrom, Gives, NoneFits, TotalSize;
  }

  /** What compaction leaves free begins where the packed segments end. */
  lemma CompactedStart(procs: seq<Process>, procs0: seq<Process>, es: seq<Entry>, free: seq<Block>, free0: seq<Block>,
                       total: nat, cfg: Config, next: int)
    requires Sound(procs0, free0, total, cfg, next) && Sound(procs, free, total, cfg, next) && total < U32
    requires if NoSegments(procs0) then procs == procs0 && free == free0 else CompactedTo(procs, procs0, es, free, total)
    ensures !NoSegments(procs0) ==> TotalSize(free0) <= total && free == Rest(total - TotalSize(free0), total)
                                    && CompactedFrom(procs, procs0, total - TotalSize(free0), total)
  {
    hide Sound, Ordered, Slid, Start, NoSegments;
    if !NoSegments(procs0) {
      CompactedFreeSpace(procs, procs0, es, free, free0, total, cfg, next);
      RestTotal(Start(procs0, es, |es|), total);
    }
  }

  lemma RestTotal(cursor: u32, total: u32)
    requires cursor <= total
    ensures TotalSize(Rest(cursor, total)) == total - cursor
  {
    if cursor < total { assert Rest(cursor, total)[..0] == []; }
  }

  lemma OnlyBlockGiven(free: seq<Block>, free0: seq<Block>, k: int, base: u32, size: u32, total: nat, worstFit: bool, cursor: nat)
    requires Assigned(free, free0, k, base, size, total, worstFit) && base != NO_BASE
    requires cursor <= total < U32 && free0 == Rest(cursor, total)
    ensures base == cursor && base + size <= total && free == Rest(base + size, total)
  {
    assert |free0| == 1 && k == 0;
  }

  lemma SpaceBounds(procs: seq<Process>, free: seq<Block>, total: nat, cfg: Config, next: int)
    requires Sound(procs, free, total, cfg, next)
    ensures TotalSize(free) <= total < U32
  {
    hide BlocksFor;
    Conservation(procs, free, total, cfg, next);
  }

  /** If no block fits but the total does, there is some segment to compact, and then the one block fits. */
  lemma CompactionMakesRoom(procs: seq<Process>, procs0: seq<Process>, es: seq<Entry>, free: seq<Block>, free0: seq<Block>,
                            total: nat, cfg: Config, next: int, size: u32)
    requires Sound(procs0, free0, total, cfg, next) && Sound(procs, free, total, cfg, next)
    requires NoneFits(free0, size) && size <= TotalSize(free0)
    requires NoSegments(procs0) ==> procs == procs0 && free == free0
    requires !NoSegments(procs0) ==> CompactedTo(procs, procs0, es, free, total)
    ensures Pids(procs) == Pids(procs0) && |procs| == |procs0|
    ensures NoneFits(free, size) <==> size == 0
    ensures size == 0 ==> free0 == []
    ensures NoSegments(procs0) ==> size == 0
    ensures total < U32
  {
    hide Sound, Ordered, Slid, Start, Rest, NoneFits, TotalSize, Pids, NoSegments;
    EmptyRequest(free0, size);
    EmptyRequest(free, size);
    SpaceBounds(procs0, free0, total, cfg, next);
    if NoSegments(procs0) {
      if size != 0 {
        FitsWhole(procs0, free0, total, cfg, next, size);
        assert false;
      }
    } else {
      CompactedFreeSpace(procs, procs0, es, free, free0, total, cfg, next);
      CompactedOne(procs, procs0, es, free, total, size);
    }
  }

  lemma EmptyRequest(free: seq<Block>, size: u32)
    ensures size == 0 ==> (NoneFits(free, size) <==> free == [])
    ensures free == [] ==> TotalSize(free) == 0
  {
    if free != [] { assert free[0] in free; }
  }

  lemma FitsWhole(procs: seq<Process>, free: seq<Block>, total: nat, cfg: Config, next: int, size: u32)
    requires Sound(procs, free, total, cfg, next) && NoSegments(procs) && 0 < size <= TotalSize(free)
    ensures !NoneFits(free, size)
  {
    hide Sound, NoSegments, TotalSize;
    AllFree(procs, free, total, cfg, next);
    SpaceBounds(procs, free, total, cfg, next);
  }

  /** The free space is one block, or nothing. */
  lemma CompactedOne(procs: seq<Process>, procs0: seq<Process>, es: seq<Entry>, free: seq<Block>, total: int, size: u32)
    requires CompactedTo(procs, procs0, es, free, total) && size <= TotalSize(free)
    ensures Pids(procs) == Pids(procs0) && |procs| == |procs0|
    ensures size != 0 ==> !NoneFits(free, size)
    ensures TotalSize(free) == 0 ==> free == []
  {
    hide Ordered, Start;
    if free != [] {
      assert free[..0] == [];
      assert free[0] in free;
    }
  }

  /** With no segment at all, memory is a single free block. */
  lemma AllFree(procs: seq<Process>, free: seq<Block>, total: nat, cfg: Config, next: int)
    requires Sound(procs, free, total, cfg, next) && NoSegments(procs)
    ensures 0 < total ==> Block(0, total) in free
  {
    hide BlocksFor;
    TiledFree(free, procs, total);
    forall a: int
      ensures Used(procs, a) == 0
    {
      NothingUsed(procs, a);
    }
    if 0 < total {
      forall a | 0 <= a < total
        ensures Cover(free, a) == 1
      {
        assert Cover(free, a) + Used(procs, a) == One(0 <= a < total);
      }
      WholeMemoryIsOneBlock(free, total);
    }
  }

  lemma {:induction false} NothingUsed(procs: seq<Process>, a: int)
    requires NoSegments(procs)
    ensures Used(procs, a) == 0
  {
    if procs != [] {
      assert RamOf(procs[0].segs) == [];
      NothingUsed(procs[1..], a);
    }
  }

  lemma ViewAddSegment(procs: seq<Process>, pid: int, p: nat, s: Segment, flat: seq<byte>, content: seq<seq<byte>>, bs: pos32)
    requires p < |procs| && p == IndexOf(Pids(procs), pid) && s.Resident() && s.base + s.limit <= |flat|
    ensures ViewOf(procs[p := Process(procs[p].pid, procs[p].segs + [s])], flat, content, bs)
         == Logical.AddSegment(ViewOf(procs, flat, content, bs), pid, SegView(s.id, flat[s.base..s.base + s.limit]))
  {
    SameNames(procs, flat, content, bs);
    assert Bytes(s, flat, content, bs) == flat[s.base..s.base + s.limit];
    hide Bytes;
    assert SegViews(procs[p].segs + [s], flat, content, bs)
        == SegViews(procs[p].segs, flat, content, bs) + [SegView(s.id, Bytes(s, flat, content, bs))];
  }

  /** Every process is still there, its segments unchanged and at most followed by new ones. */
  ghost predicate Extends(procs: seq<Process>, procs0: seq<Process>) {
    |procs| == |procs0| && forall p :: 0 <= p < |procs0| ==> procs[p].pid == procs0[p].pid && procs0[p].segs <= procs[p].segs
  }

  lemma NotExtended(procs: seq<Process>)
    ensures Extends(procs, procs)
  {}

  lemma Extended(procs: seq<Process>, pid: int, p: nat, s: Segment)
    requires p < |procs| && p == IndexOf(Pids(procs), pid)
    ensures Extends(procs[p := Process(procs[p].pid, procs[p].segs + [s])], procs)
    ensures LastSegment(procs[p := Process(procs[p].pid, procs[p].segs + [s])], pid, s)
  {
    assert Pids(procs[p := Process(procs[p].pid, procs[p].segs + [s])]) == Pids(procs);
  }

  /** `s` is the last segment of the process that `pid` designates. */
  ghost predicate LastSegment(procs: seq<Process>, pid: int, s: Segment) {
    var p := IndexOf(Pids(procs), pid);
    0 <= p && procs[p].segs != [] && procs[p].segs[|procs[p].segs| - 1] == s
  }

  /* ---------- facts about reads and writes ---------- */

  lemma NotThere(procs: seq<Process>, pid: int, id: int)
    requires IndexOf(Pids(procs), pid) < 0
    ensures Designates(procs, pid, id) == None
  {}

  /** A translated range lies in its segment unless its end wraps, and then it leaves physical memory. */
  lemma TranslatedRange(procs: seq<Process>, free: seq<Block>, pid: int, id: int, off: u32, size: u32, total: int,
                        cfg: Config, next: int)
    requires Sound(procs, free, total, cfg, next)
    requires Designates(procs, pid, id).Some? && Designates(procs, pid, id).value.Resident()
    requires Add32(off, size) <= Designates(procs, pid, id).value.limit
    ensures var s := Designates(procs, pid, id).value;
            && s.base + s.limit <= total
            && if off + size < U32 then off + size <= s.limit else 0 < size && total < s.base + off + size
  {
    hide BlocksFor;
    var p := IndexOf(Pids(procs), pid);
    assert procs[p] in procs && Designates(procs, pid, id).value in procs[p].segs;
  }

  lemma ViewLoad(procs: seq<Process>, pid: int, id: int, off: nat, size: nat, flat: seq<byte>, content: seq<seq<byte>>, bs: pos32)
    requires Designates(procs, pid, id).Some? && Designates(procs, pid, id).value.Resident()
    requires off + size <= Designates(procs, pid, id).value.limit
    requires Designates(procs, pid, id).value.base + Designates(procs, pid, id).value.limit <= |flat|
    ensures Logical.Load(ViewOf(procs, flat, content, bs), pid, id, off, size)
         == Some(flat[Designates(procs, pid, id).value.base + off..Designates(procs, pid, id).value.base + off + size])
  {
    SameNames(procs, flat, content, bs);
    var p := IndexOf(Pids(procs), pid);
    var j := IndexOf(Ids(procs[p].segs), id);
    var s := procs[p].segs[j];
    assert Bytes(s, flat, content, bs) == flat[s.base..s.base + s.limit];
    var view := ViewOf(procs, flat, content, bs);
    assert view[p].segs[j].bytes == flat[s.base..s.base + s.limit];
    hide IndexOf, SegViews, Bytes, Pids, Ids;
    SliceOfSlice(flat, s.base, s.limit, off, size);
  }

  /** A range that wraps is longer than any segment. */
  lemma WrappedNeverLoads(procs: seq<Process>, pid: int, id: int, off: nat, size: nat, flat: seq<byte>, content: seq<seq<byte>>, bs: pos32)
    requires U32 <= off + size
    ensures Logical.Load(ViewOf(procs, flat, content, bs), pid, id, off, size) == None
  {
    hide IndexOf, Bytes;
    SameNames(procs, flat, content, bs);
  }

  lemma SliceOfSlice(f: seq<byte>, a: nat, n: nat, off: nat, size: nat)
    requires a + n <= |f| && off + size <= n
    ensures f[a..a + n][off..off + size] == f[a + off..a + off + size]
  {
    var l, r := f[a..a + n][off..off + size], f[a + off..a + off + size];
    forall i | 0 <= i < size ensures l[i] == r[i] {
      assert l[i] == f[a..a + n][off + i] == f[a + (off + i)];
    }
  }

  /** No address is in two segments. */
  lemma SegmentsApart(procs: seq<Process>, free: seq<Block>, total: int, d: Entry, e: Entry, a: int)
    requires Tiles(free, procs, total) && InTable(procs, d) && InTable(procs, e)
    requires At(procs, d).Ram().Has(a) && At(procs, e).Ram().Has(a)
    ensures d == e
  {
    assert Cover(free, a) + Used(procs, a) == One(0 <= a < total);
    if d.p == e.p {
      UsedSplit(procs, d.p, a);
      if d.j < e.j { CoverTwo(RamOf(procs[d.p].segs), d.j, e.j, a); }
      if e.j < d.j { CoverTwo(RamOf(procs[d.p].segs), e.j, d.j, a); }
    } else {
      var lo, hi := if d.p < e.p then d else e, if d.p < e.p then e else d;
      UsedSplit(procs, hi.p, a);
      CoverSplit(RamOf(procs[hi.p].segs), hi.j, a);
      UsedBySegment(procs[..hi.p], lo.p, lo.j, a);
    }
  }

  /** Writing inside one segment changes that segment's bytes and no others: isolation. */
  lemma ViewStore(procs: seq<Process>, free: seq<Block>, pid: int, id: int, off: nat, data: seq<byte>, flat: seq<byte>,
                  flat': seq<byte>, content: seq<seq<byte>>, cfg: Config, next: int)
    requires Sound(procs, free, |flat|, cfg, next)
    requires Designates(procs, pid, id).Some? && Designates(procs, pid, id).value.Resident()
    requires off + |data| <= Designates(procs, pid, id).value.limit
    requires flat' == Overlay(flat, Designates(procs, pid, id).value.base + off, data)
    ensures ViewOf(procs, flat', content, cfg.blockSize)
         == Logical.Store(ViewOf(procs, flat, content, cfg.blockSize), pid, id, off, data)
  {
    hide BlocksFor, SwapBytes, Tiles, InRange, Merged, IndexOf, Bytes, SegViews, Overlay;
    SameNames(procs, flat, content, cfg.blockSize);
    var p := IndexOf(Pids(procs), pid);
    var j := IndexOf(Ids(procs[p].segs), id);
    var v, v' := ViewOf(procs, flat, content, cfg.blockSize), ViewOf(procs, flat', content, cfg.blockSize);
    forall q | 0 <= q < |procs|
      ensures v'[q].segs == if q == p then v[p].segs[j := SegView(v[p].segs[j].id, Overlay(v[p].segs[j].bytes, off, data))] else v[q].segs
    {
      StoredSegs(procs, free, Entry(p, j), q, off, data, flat, flat', content, cfg, next);
    }
    assert v' == v[p := v'[p]];
  }

  /** What the processes see of the segments of process `q`. */
  lemma StoredSegs(procs: seq<Process>, free: seq<Block>, d: Entry, q: nat, off: nat, data: seq<byte>, flat: seq<byte>,
                   flat': seq<byte>, content: seq<seq<byte>>, cfg: Config, next: int)
    requires Sound(procs, free, |flat|, cfg, next) && InTable(procs, d) && q < |procs|
    requires At(procs, d).Resident() && off + |data| <= At(procs, d).limit
    requires flat' == Overlay(flat, At(procs, d).base + off, data)
    ensures var v, v' := SegViews(procs[q].segs, flat, content, cfg.blockSize), SegViews(procs[q].segs, flat', content, cfg.blockSize);
            v' == if q == d.p then v[d.j := SegView(v[d.j].id, Overlay(v[d.j].bytes, off, data))] else v
  {
    hide BlocksFor, SwapBytes, Tiles, InRange, Merged;
    assert procs[d.p] in procs && procs[d.p].segs[d.j] in procs[d.p].segs;
    var s := At(procs, d);
    assert Bytes(s, flat', content, cfg.blockSize) == Overlay(Bytes(s, flat, content, cfg.blockSize), off, data);
    hide Bytes, Overlay, Sound;
    forall m | 0 <= m < |procs[q].segs| && !(q == d.p && m == d.j)
      ensures Bytes(procs[q].segs[m], flat', content, cfg.blockSize) == Bytes(procs[q].segs[m], flat, content, cfg.blockSize)
    {
      OtherSegment(procs, free, d, Entry(q, m), off, data, flat, flat', content, cfg, next);
    }
  }

  lemma OtherSegment(procs: seq<Process>, free: seq<Block>, d: Entry, e: Entry, off: nat, data: seq<byte>, flat: seq<byte>,
                     flat': seq<byte>, content: seq<seq<byte>>, cfg: Config, next: int)
    requires Sound(procs, free, |flat|, cfg, next) && InTable(procs, d) && InTable(procs, e) && d != e
    requires At(procs, d).Resident() && off + |data| <= At(procs, d).limit
    requires flat' == Overlay(flat, At(procs, d).base + off, data)
    ensures Bytes(At(procs, e), flat', content, cfg.blockSize) == Bytes(At(procs, e), flat, content, cfg.blockSize)
  {
    hide BlocksFor, SwapBytes, Tiles, InRange, Merged;
    var s := At(procs, e);
    assert procs[e.p] in procs && s in procs[e.p].segs;
    if s.Resident() {
      forall a | s.base <= a < s.base + s.limit
        ensures flat'[a] == flat[a]
      {
        if At(procs, d).Ram().Has(a) {
          SegmentsApart(procs, free, |flat|, d, e, a);
        }
      }
      assert flat'[s.base..s.base + s.limit] == flat[s.base..s.base + s.limit];
    }
  }

  ghost predicate NoSegments(procs: seq<Process>) {
    forall p :: 0 <= p < |procs| ==> procs[p].segs == []
  }

  /** Every resident segment slid down, packed from 0 in the order `es`, and one free block after them. */
  ghost predicate CompactedTo(procs: seq<Process>, procs0: seq<Process>, es: seq<Entry>, free: seq<Block>, total: int) {
    && Ordered(procs0, es) && Slid(procs, procs0, es, |es|)
    && Start(procs0, es, |es|) <= total < U32 && free == Rest(Start(procs0, es, |es|), total)
  }

  function SegmentCount(procs: seq<Process>, p: nat): nat
    requires p <= |procs|
  {
    if p == 0 then 0 else SegmentCount(procs, p - 1) + |procs[p - 1].segs|
  }

  lemma {:induction false} SegmentCountMonotone(procs: seq<Process>, p: nat, q: nat)
    requires p <= q <= |procs|
    ensures SegmentCount(procs, p) <= SegmentCount(procs, q)
  {
    if p < q { SegmentCountMonotone(procs, p, q - 1); }
  }

  lemma SortedIsOrdered(procs: seq<Process>, es: seq<Entry>)
    requires multiset(es) == multiset(AllEntries(procs)) && SortedByBase(procs, es)
    ensures Ordered(procs, es)
  {}

  /** The invariant of the sliding loop. */
  ghost predicate SlideState(procs: seq<Process>, procs0: seq<Process>, flat: seq<byte>, flat0: seq<byte>, es: seq<Entry>, i: nat) {
    && i <= |es|
    && Slid(procs, procs0, es, i) && SlidRam(flat, flat0, procs0, es, i)
    && forall a: int :: Used(procs, a) == One(0 <= a < Start(procs0, es, i)) + Covering(procs0, es[i..], a)
  }

  lemma SlideStep(procs: seq<Process>, procs0: seq<Process>, flat: seq<byte>, flat': seq<byte>, flat0: seq<byte>,
                  es: seq<Entry>, i: nat, cursor: u32, free: seq<Block>, cfg: Config, next: int)
    requires Sound(procs0, free, |flat0|, cfg, next) && Ordered(procs0, es) && i < |es|
    requires SlideState(procs, procs0, flat, flat0, es, i) && cursor == Start(procs0, es, i)
    requires At(procs, es[i]) == At(procs0, es[i]) && At(procs, es[i]).base + At(procs, es[i]).limit <= |flat|
    requires Patched(flat', flat, cursor, flat[At(procs, es[i]).base..At(procs, es[i]).base + At(procs, es[i]).limit], 0,
                     At(procs, es[i]).limit)
    requires InTable(procs, es[i])
    ensures SlideState(Put(procs, es[i], At(procs, es[i]).(base := cursor)), procs0, flat', flat0, es, i + 1)
  {
    hide Sound, Ordered, Slid, SlidRam;
    SlideBounds(procs0, es, free, |flat0|, cfg, next, i);
    SlideTable(procs, procs0, es, i, cursor);
    SlideRam(flat, flat', flat0, procs0, es, i, flat[At(procs, es[i]).base..At(procs, es[i]).base + At(procs, es[i]).limit],
             free, cfg, next);
    forall a: int
      ensures Used(Put(procs, es[i], At(procs, es[i]).(base := cursor)), a)
           == One(0 <= a < Start(procs0, es, i + 1)) + Covering(procs0, es[i + 1..], a)
    {
      SlideCount(procs, procs0, es, i, cursor, a);
    }
  }

  lemma SlideBegins(procs: seq<Process>, flat: seq<byte>, es: seq<Entry>)
    requires Ordered(procs, es) && Slid(procs, procs, es, 0) && SlidRam(flat, flat, procs, es, 0)
    ensures SlideState(procs, procs, flat, flat, es, 0)
  {
    hide Ordered, Slid, SlidRam;
    forall a: int
      ensures Used(procs, a) == One(0 <= a < 0) + Covering(procs, es[0..], a)
    {
      assert es[0..] == es;
      OrderedCount(procs, es, a);
    }
  }

  /** Where the state says entry `i` still is. */
  lemma SlideNext(procs: seq<Process>, procs0: seq<Process>, flat: seq<byte>, flat0: seq<byte>, es: seq<Entry>, i: nat,
                  cursor: u32, free: seq<Block>, cfg: Config, next: int)
    requires Sound(procs0, free, |flat0|, cfg, next) && Ordered(procs0, es) && i < |es|
    requires SlideState(procs, procs0, flat, flat0, es, i) && cursor == Start(procs0, es, i)
    ensures |flat| == |flat0| && InTable(procs, es[i]) && At(procs, es[i]) == At(procs0, es[i])
    ensures At(procs, es[i]).base + At(procs, es[i]).limit <= |flat|
    ensures cursor + At(procs, es[i]).limit == Start(procs0, es, i + 1) <= |flat|
  {
    hide Sound, Ordered, Slid;
    SlideBounds(procs0, es, free, |flat0|, cfg, next, i);
    SlideTable(procs, procs0, es, i, cursor);
  }

  lemma AlreadyThere(flat: seq<byte>, a: nat, n: nat)
    requires a + n <= |flat|
    ensures Patched(flat, flat, a, flat[a..a + n], 0, n)
  {}

  lemma OverlaidPatch(flat: seq<byte>, a: nat, d: seq<byte>)
    ensures Patched(Overlay(flat, a, d), flat, a, d, 0, |d|)
  {}

  lemma StartZero(procs: seq<Process>, es: seq<Entry>)
    ensures Start(procs, es, 0) == 0
  {}

  lemma SlideEnds(procs: seq<Process>, procs0: seq<Process>, flat: seq<byte>, flat0: seq<byte>, es: seq<Entry>)
    requires SlideState(procs, procs0, flat, flat0, es, |es|)
    ensures |flat| == |flat0| && Slid(procs, procs0, es, |es|) && SlidRam(flat, flat0, procs0, es, |es|)
    ensures forall a: int :: Used(procs, a) == One(0 <= a < Start(procs0, es, |es|))
  {
    assert es[|es|..] == [];
  }

  lemma NothingMoved(procs: seq<Process>, free: seq<Block>, es: seq<Entry>, flat: seq<byte>, cfg: Config, next: int)
    requires Sound(procs, free, |flat|, cfg, next) && Ordered(procs, es)
    ensures SlideState(procs, procs, flat, flat, es, 0) && Start(procs, es, 0) == 0
  {
    hide BlocksFor, Ordered;
    forall m | 0 <= m < |es|
      ensures Kept(flat, At(procs, es[m]).base, flat, At(procs, es[m]))
    {
      OrderedMembers(procs, es, es[m]);
      EntryOk(procs, es[m], |flat|, cfg, next);
    }
    SlideBegins(procs, flat, es);
  }

  /** When every entry has moved, the single free block makes the tables sound again and nothing was lost. */
  lemma AllMoved(procs: seq<Process>, procs0: seq<Process>, free0: seq<Block>, es: seq<Entry>, flat: seq<byte>,
                 flat0: seq<byte>, content: seq<seq<byte>>, cfg: Config, next: int)
    requires Sound(procs0, free0, |flat0|, cfg, next) && Ordered(procs0, es)
    requires SlideState(procs, procs0, flat, flat0, es, |es|)
    ensures |flat| == |flat0| && Start(procs0, es, |es|) <= |flat| < U32
    ensures CompactedTo(procs, procs0, es, Rest(Start(procs0, es, |es|), |flat|), |flat|)
    ensures Sound(procs, Rest(Start(procs0, es, |es|), |flat|), |flat|, cfg, next)
    ensures ViewOf(procs, flat, content, cfg.blockSize) == ViewOf(procs0, flat0, content, cfg.blockSize)
  {
    hide ViewOf, Ordered, Slid, SlidRam, Rest, Start, SlideState, Tiles, TablesOk, Merged, InRange;
    SlideEnds(procs, procs0, flat, flat0, es);
    CompactedSound(procs, procs0, es, free0, |flat0|, cfg, next);
    CompactedView(procs, procs0, es, flat, flat0, free0, content, cfg, next);
  }

  lemma RestMeans(cursor: u32, ram: u32)
    requires cursor <= ram
    ensures Rest(cursor, ram) == if 0 < ram - cursor then [Block(cursor, ram - cursor)] else []
  {}

  /** What moving entry `i` needs to know about where it is and where it goes. */
  lemma SlideBounds(procs: seq<Process>, es: seq<Entry>, free: seq<Block>, total: int, cfg: Config, next: int, i: nat)
    requires Sound(procs, free, total, cfg, next) && Ordered(procs, es) && i < |es| && 0 <= total
    ensures At(procs, es[i]).Resident() && At(procs, es[i]).base + At(procs, es[i]).limit <= total
    ensures Start(procs, es, i) + At(procs, es[i]).limit == Start(procs, es, i + 1) <= total < NO_BASE
    ensures Tiles(free, procs, total) && TablesOk(procs, total, cfg, next)
  {
    hide BlocksFor;
    OrderedMembers(procs, es, es[i]);
    EntryOk(procs, es[i], total, cfg, next);
    CursorBehind(procs, es, free, total, cfg, next, i + 1);
  }

  /** The first `i` segments have new RAM, taken from `free0`; `free` is what is left of it. */
  ghost predicate RamsReserved(segs: seq<Segment>, segs0: seq<Segment>, i: nat, free: seq<Block>, free0: seq<Block>, total: int) {
    && i <= |segs| == |segs0| && total < NO_BASE
    && (forall j :: 0 <= j < i ==> segs[j] == segs0[j].(base := segs[j].base)
                                   && segs[j].Resident() && segs[j].base + segs[j].limit <= total)
    && (forall j :: i <= j < |segs| ==> segs[j] == segs0[j])
    && InRange(free, total) && Merged(free) && Disjoint(free0)
    && (forall a: int :: Cover(free, a) + Cover(RamOf(segs[..i]), a) == Cover(free0, a))
  }

  /** Given RAM in table order, each from the block chosen for its limit, the first |bases| of these segments get these
      bases; `frees` is the free list before the first, after it, and so on. */
  ghost predicate Took(frees: seq<seq<Block>>, segs: seq<Segment>, bases: seq<u32>, worstFit: bool) {
    && |frees| == |bases| + 1 && |bases| <= |segs|
    && forall j :: 0 <= j < |bases| ==> Gives(frees[j], frees[j + 1], segs[j].limit, bases[j], worstFit)
  }

  /** When some of them have their RAM, no block fits the next. */
  ghost predicate Refused(free: seq<Block>, segs: seq<Segment>, worstFit: bool) {
    exists frees, bases :: Took(frees, segs, bases, worstFit)
      && frees[0] == free && |bases| < |segs| && NoneFits(frees[|bases|], segs[|bases|].limit)
  }

  function Bases(segs: seq<Segment>): (r: seq<u32>)
    ensures |r| == |segs| && forall i :: 0 <= i < |r| ==> r[i] == segs[i].base
  {
    seq(|segs|, i requires 0 <= i < |segs| => segs[i].base)
  }

  /** All of them get RAM, at the bases that `segs` has, and `rest` is left. */
  ghost predicate Served(free: seq<Block>, rest: seq<Block>, segs0: seq<Segment>, segs: seq<Segment>, worstFit: bool) {
    |segs| == |segs0| && exists frees :: Took(frees, segs0, Bases(segs), worstFit) && frees[0] == free && frees[|segs|] == rest
  }

  lemma TookNone(free: seq<Block>, segs: seq<Segment>, worstFit: bool)
    ensures Took([free], segs, [], worstFit)
  {}

  lemma GivenBy(before: seq<Block>, after: seq<Block>, size: u32, base: u32, worstFit: bool, k: int)
    requires Chosen(before, k, size, worstFit) && base == before[k].base && after == Carve(before, k, size)
    ensures Gives(before, after, size, base, worstFit)
  {}

  lemma TookOne(frees: seq<seq<Block>>, segs: seq<Segment>, bases: seq<u32>, after: seq<Block>, base: u32, worstFit: bool)
    requires Took(frees, segs, bases, worstFit) && |bases| < |segs|
    requires Gives(frees[|bases|], after, segs[|bases|].limit, base, worstFit)
    ensures Took(frees + [after], segs, bases + [base], worstFit)
  {
    hide Gives;
  }

  lemma TookRefuses(frees: seq<seq<Block>>, segs: seq<Segment>, bases: seq<u32>, worstFit: bool)
    requires Took(frees, segs, bases, worstFit) && |bases| < |segs| && NoneFits(frees[|bases|], segs[|bases|].limit)
    ensures Refused(frees[0], segs, worstFit)
  {}

  /** There is only one way to go about it. */
  lemma {:induction false} TookSame(segs: seq<Segment>, frees: seq<seq<Block>>, bases: seq<u32>, frees': seq<seq<Block>>,
                                    bases': seq<u32>, worstFit: bool, n: nat)
    requires Took(frees, segs, bases, worstFit) && Took(frees', segs, bases', worstFit) && frees[0] == frees'[0]
    requires n <= |bases| && n <= |bases'|
    ensures frees[n] == frees'[n] && bases[..n] == bases'[..n]
  {
    hide Gives;
    if n != 0 {
      TookSame(segs, frees, bases, frees', bases', worstFit, n - 1);
      GivesSame(frees[n - 1], frees[n], frees'[n], segs[n - 1].limit, bases[n - 1], bases'[n - 1], worstFit);
    }
  }

  lemma TookAll(frees: seq<seq<Block>>, segs0: seq<Segment>, bases: seq<u32>, segs: seq<Segment>, worstFit: bool)
    requires Took(frees, segs0, bases, worstFit) && |bases| == |segs0| == |segs|
    requires forall j :: 0 <= j < |segs| ==> segs[j].base == bases[j]
    ensures Served(frees[0], frees[|segs|], segs0, segs, worstFit) && !Refused(frees[0], segs0, worstFit)
  {
    hide Gives, NoneFits;
    assert Bases(segs) == bases;
    if Refused(frees[0], segs0, worstFit) {
      var frees', bases' :| Took(frees', segs0, bases', worstFit)
        && frees'[0] == frees[0] && |bases'| < |segs0| && NoneFits(frees'[|bases'|], segs0[|bases'|].limit);
      var n := |bases'|;
      TookSame(segs0, frees, bases, frees', bases', worstFit, n);
      GivesFits(frees[n], frees[n + 1], segs0[n].limit, bases[n], worstFit);
      assert false;
    }
  }

  function LimitSum(segs: seq<Segment>): nat {
    if segs == [] then 0 else segs[0].limit + LimitSum(segs[1..])
  }

  /** One block has more than `n` bytes. */
  ghost predicate BlockFor(free: seq<Block>, n: int) {
    exists b :: b in free && n < b.size
  }

  /** Such a block outlives every allocation that it was to serve. */
  lemma BlockStays(before: seq<Block>, free: seq<Block>, segs: seq<Segment>, i: nat, k: int)
    requires i < |segs| && BlockFor(before, LimitSum(segs[i..]))
    requires k == -1 ==> NoneFits(before, segs[i].limit)
    requires k != -1 ==> 0 <= k < |before| && segs[i].limit <= before[k].size && free == Carve(before, k, segs[i].limit)
    ensures k != -1 && BlockFor(free, LimitSum(segs[i + 1..]))
  {
    assert segs[i..][0] == segs[i] && segs[i..][1..] == segs[i + 1..];
    var b :| b in before && LimitSum(segs[i..]) < b.size;
    var m :| 0 <= m < |before| && before[m] == b;
    if before[k].size == segs[i].limit {
      assert m != k && free[if m < k then m else m - 1] == b;
    } else {
      assert free[m] == if m == k then Block(Add32(b.base, segs[i].limit), b.size - segs[i].limit) else b;
      assert free[m] in free;
    }
  }

  lemma NothingReserved(segs: seq<Segment>, free: seq<Block>, procs: seq<Process>, p: nat, total: int, cfg: Config, next: int)
    requires Sound(procs, free, total, cfg, next) && p < |procs| && segs == procs[p].segs
    ensures RamsReserved(segs, segs, 0, free, free, total)
  {
    TiledFree(free, procs, total);
    assert RamOf(segs[..0]) == [];
  }

  lemma ReadyToLoad(procs0: seq<Process>, free0: seq<Block>, p: nat, segs: seq<Segment>, free: seq<Block>, total: int,
                    cfg: Config, next: int)
    requires Sound(procs0, free0, total, cfg, next) && p < |procs0|
    requires RamsReserved(segs, procs0[p].segs, |segs|, free, free0, total)
    ensures cfg.segMax + cfg.blockSize <= U32
    ensures forall s :: s in segs ==> s.Resident() && s.limit <= cfg.segMax && s.base + s.limit <= total
    ensures Disjoint(RamOf(segs))
  {
    hide BlocksFor;
    LeftDisjoint(segs, procs0[p].segs, |segs|, free, free0, total);
    assert segs[..|segs|] == segs;
    forall s | s in segs
      ensures s.Resident() && s.limit <= cfg.segMax && s.base + s.limit <= total
    {
      var j :| 0 <= j < |segs| && segs[j] == s;
      assert procs0[p] in procs0 && procs0[p].segs[j] in procs0[p].segs;
    }
  }

  lemma NotYetRebased(segs: seq<Segment>, segs0: seq<Segment>, i: nat, free: seq<Block>, free0: seq<Block>, total: int)
    requires RamsReserved(segs, segs0, i, free, free0, total) && i < |segs|
    ensures segs[i] == segs0[i]
  {}

  lemma LeftDisjoint(segs: seq<Segment>, segs0: seq<Segment>, i: nat, free: seq<Block>, free0: seq<Block>, total: int)
    requires RamsReserved(segs, segs0, i, free, free0, total)
    ensures Disjoint(free) && Disjoint(RamOf(segs[..i]))
  {
    forall a: int
      ensures Cover(free, a) <= 1 && Cover(RamOf(segs[..i]), a) <= 1
    {
      assert Cover(free, a) + Cover(RamOf(segs[..i]), a) == Cover(free0, a);
      assert Cover(free0, a) <= 1;
    }
  }

  lemma ReserveOne(segs: seq<Segment>, segs0: seq<Segment>, i: nat, free: seq<Block>, free0: seq<Block>, total: int, k: nat)
    requires RamsReserved(segs, segs0, i, free, free0, total) && i < |segs|
    requires k < |free| && segs[i].limit <= free[k].size
    ensures RamsReserved(segs[i := segs[i].(base := free[k].base)], segs0, i + 1, Carve(free, k, segs[i].limit), free0, total)
  {
    var s := segs[i].(base := free[k].base);
    var segs' := segs[i := s];
    LeftDisjoint(segs, segs0, i, free, free0, total);
    CarveKeeps(free, k, s.limit, total);
    assert free[k] in free;
    forall a: int
      ensures Cover(Carve(free, k, s.limit), a) + Cover(RamOf(segs'[..i + 1]), a) == Cover(free0, a)
    {
      assert segs'[..i + 1] == segs[..i] + [s];
      RamOfAppend(segs[..i], s, a);
      assert Cover(free, a) + Cover(RamOf(segs[..i]), a) == Cover(free0, a);
    }
  }

  /** A free block is never based at NO_BASE, so that result does mean "no block fits". */
  lemma NotAssigned(segs: seq<Segment>, segs0: seq<Segment>, i: nat, free: seq<Block>, free0: seq<Block>, total: int,
                    k: int, base: u32, size: u32)
    requires RamsReserved(segs, segs0, i, free, free0, total)
    requires base == NO_BASE && (k != -1 ==> 0 <= k < |free| && base == free[k].base)
    ensures k == -1
  {
    if k != -1 { assert false; }
  }

  lemma SameAfterRollback(procs: seq<Process>, free0: seq<Block>, free: seq<Block>, total: int, cfg: Config, next: int)
    requires Sound(procs, free0, total, cfg, next) && InRange(free, total) && Merged(free)
    requires forall a: int :: Cover(free, a) == Cover(free0, a)
    ensures Sound(procs, free, total, cfg, next) && SameBlocks(free, free0)
  {
    hide BlocksFor;
    TiledFree(free0, procs, total);
    forall a: int
      ensures Cover(free, a) + Used(procs, a) == One(0 <= a < total) && Cover(free, a) <= 1
    {
      assert Cover(free0, a) + Used(procs, a) == One(0 <= a < total);
    }
    Canonical(free, free0, total);
  }

  lemma OnlyOwnRam(segs: seq<Segment>, i: nat, before: seq<byte>, flat: seq<byte>, flat0: seq<byte>)
    requires i < |segs| && |before| == |flat0|
    requires segs[i].Resident() && SameOutside(flat, before, segs[i].base, segs[i].limit)
    requires forall a :: 0 <= a < |before| && Cover(RamOf(segs), a) == 0 ==> before[a] == flat0[a]
    ensures forall a :: 0 <= a < |flat| && Cover(RamOf(segs), a) == 0 ==> flat[a] == flat0[a]
  {
    forall a | 0 <= a < |flat| && Cover(RamOf(segs), a) == 0
      ensures flat[a] == flat0[a]
    {
      CoverSplit(RamOf(segs), i, a);
    }
  }

  lemma LoadedOne(segs: seq<Segment>, i: nat, before: seq<byte>, flat: seq<byte>,
                  content: seq<seq<byte>>, bs: pos32, stored: bool)
    requires i < |segs| && Disjoint(RamOf(segs))
    requires segs[i].Resident() && segs[i].base + segs[i].limit <= |flat| && SameOutside(flat, before, segs[i].base, segs[i].limit)
    requires stored ==> forall j :: 0 <= j < i ==> LoadedAt(segs[j], before, content, bs)
    requires stored && 0 < segs[i].limit ==> LoadedAt(segs[i], flat, content, bs)
    ensures stored ==> forall j :: 0 <= j < i + 1 ==> LoadedAt(segs[j], flat, content, bs)
  {
    hide SwapBytes;
    var b := segs[i].Ram();
    if stored {
      forall j | 0 <= j < i + 1
        ensures LoadedAt(segs[j], flat, content, bs)
      {
        if j < i {
          var s := segs[j];
          assert LoadedAt(s, before, content, bs);
          forall a | s.base <= a < s.base + s.limit
            ensures flat[a] == before[a]
          {
            if b.Has(a) { DisjointPair(RamOf(segs), i, j, a); }
          }
          assert flat[s.base..s.base + s.limit] == before[s.base..s.base + s.limit];
        } else if segs[i].limit == 0 {
          assert flat[segs[i].base..segs[i].base + segs[i].limit] == [] == SwapBytes(content, bs, segs[i].swapStart, 0);
        }
      }
    }
  }

  /** After the load: sound and with the same view exactly if no bytes of the process were in RAM. */
  lemma MovedInFacts(procs0: seq<Process>, free0: seq<Block>, p: nat, segs: seq<Segment>, free: seq<Block>,
                     flat0: seq<byte>, flat: seq<byte>, content: seq<seq<byte>>, cfg: Config, next: nat, read: bool)
    requires Sound(procs0, free0, |flat0|, cfg, next) && p < |procs0| && next <= |content| && |flat| == |flat0|
    requires RamsReserved(segs, procs0[p].segs, |segs|, free, free0, |flat0|)
    requires forall a :: 0 <= a < |flat| && Cover(RamOf(segs), a) == 0 ==> flat[a] == flat0[a]
    requires StoredBelow(segs, next, cfg.blockSize) ==>
               read && forall s :: s in segs ==> LoadedAt(s, flat, content, cfg.blockSize)
    ensures AllResident(segs) && Rebased(segs, procs0[p].segs) && (StoredBelow(procs0[p].segs, next, cfg.blockSize) ==> read)
    ensures NothingInRam(procs0[p].segs) <==> Sound(procs0[p := Process(procs0[p].pid, segs)], free, |flat0|, cfg, next)
    ensures NothingInRam(procs0[p].segs) ==> read && ViewOf(procs0[p := Process(procs0[p].pid, segs)], flat, content, cfg.blockSize)
                                                     == ViewOf(procs0, flat0, content, cfg.blockSize)
  {
    hide BlocksFor, ViewOf, LoadedAt, Sound;
    assert segs[..|segs|] == segs;
    StoredSame(segs, procs0[p].segs, next, cfg.blockSize);
    MovedIn(procs0, free0, p, segs, free, |flat0|, cfg, next);
    if NothingInRam(procs0[p].segs) {
      StoredInSwap(procs0, free0, p, segs, |flat0|, cfg, next);
      forall a | 0 <= a < |flat| && Cover(free0, a) == 0
        ensures flat[a] == flat0[a]
      {
        assert Cover(free, a) + Cover(RamOf(segs), a) == Cover(free0, a);
      }
      MovedInView(procs0, free0, p, segs, flat0, flat, content, cfg, next);
    }
  }

  lemma NotRebased(procs: seq<Process>, p: nat)
    requires p < |procs|
    ensures procs == procs[p := Process(procs[p].pid, procs[p].segs)] && Rebased(procs[p].segs, procs[p].segs)
  {}

  /** Every segment with bytes is where swap blocks have been reserved. */
  ghost predicate StoredBelow(segs: seq<Segment>, next: int, bs: pos32) {
    forall s :: s in segs && 0 < s.limit ==> s.swapStart + BlocksFor(s.limit, bs) <= next
  }

  lemma StoredSame(segs: seq<Segment>, segs0: seq<Segment>, next: int, bs: pos32)
    requires Rebased(segs, segs0)
    ensures StoredBelow(segs0, next, bs) ==> StoredBelow(segs, next, bs)
  {
    hide BlocksFor;
    if !StoredBelow(segs0, next, bs) { return; }
    forall s | s in segs && 0 < s.limit ensures s.swapStart + BlocksFor(s.limit, bs) <= next {
      var j :| 0 <= j < |segs| && segs[j] == s;
      assert segs0[j] in segs0;
    }
  }

  lemma StoredInSwap(procs: seq<Process>, free: seq<Block>, p: nat, segs: seq<Segment>, total: int, cfg: Config, next: int)
    requires Sound(procs, free, total, cfg, next) && p < |procs|
    requires Rebased(segs, procs[p].segs) && NothingInRam(procs[p].segs)
    ensures StoredBelow(segs, next, cfg.blockSize)
  {
    hide BlocksFor;
    forall s | s in segs && 0 < s.limit
      ensures s.swapStart + BlocksFor(s.limit, cfg.blockSize) <= next
    {
      var j :| 0 <= j < |segs| && segs[j] == s;
      assert procs[p] in procs && procs[p].segs[j] in procs[p].segs;
    }
  }

  /** Nothing but segment `i` of process `p` differs, and that not in its limit. */
  ghost predicate OneChanged(procs: seq<Process>, procs0: seq<Process>, p: nat, i: nat) {
    && p < |procs| == |procs0| && i < |procs[p].segs| == |procs0[p].segs|
    && procs == procs0[p := Process(procs0[p].pid, procs0[p].segs[i := procs[p].segs[i]])]
    && procs[p].segs[i].limit == procs0[p].segs[i].limit
  }

  lemma SameIsOne(procs: seq<Process>, p: nat, i: nat)
    requires p < |procs| && i < |procs[p].segs|
    ensures OneChanged(procs, procs, p, i)
  {
    assert procs[p].segs[i := procs[p].segs[i]] == procs[p].segs;
  }

  lemma ChangeTwice(procs: seq<Process>, p: nat, i: nat, s: Segment, t: Segment)
    requires p < |procs| && i < |procs[p].segs| && s.limit == t.limit == procs[p].segs[i].limit
    ensures var e, marked := Entry(p, i), Put(procs, Entry(p, i), s);
            && InTable(marked, e) && Put(marked, e, t) == Put(procs, e, t)
            && |marked| == |procs| == |Put(procs, e, t)|
            && OneChanged(marked, procs, p, i) && OneChanged(Put(procs, e, t), procs, p, i)
  {
    assert procs[p].segs[i := s][i := t] == procs[p].segs[i := t];
  }

  /** How many segments, from the first on, `room` swap blocks hold. */
  function Fit(segs: seq<Segment>, room: int, bs: pos32): (k: nat)
    ensures k <= |segs|
  {
    if segs == [] || room < BlocksFor(segs[0].limit, bs) then 0 else 1 + Fit(segs[1..], room - BlocksFor(segs[0].limit, bs), bs)
  }

  /** What is left of `room` after them. */
  function RoomLeft(segs: seq<Segment>, room: int, bs: pos32): int {
    if segs == [] || room < BlocksFor(segs[0].limit, bs) then room else RoomLeft(segs[1..], room - BlocksFor(segs[0].limit, bs), bs)
  }

  lemma FitStep(segs: seq<Segment>, i: nat, room: int, bs: pos32)
    requires i < |segs|
    ensures var n := BlocksFor(segs[i].limit, bs);
            && Fit(segs[i..], room, bs) == (if room < n then 0 else 1 + Fit(segs[i + 1..], room - n, bs))
            && RoomLeft(segs[i..], room, bs) == if room < n then room else RoomLeft(segs[i + 1..], room - n, bs)
  {
    hide BlocksFor;
    assert segs[i..][0] == segs[i] && segs[i..][1..] == segs[i + 1..];
  }

  /** Some segment of at least one byte is in swap. */
  predicate HasSwappedBytes(segs: seq<Segment>) {
    exists s :: s in segs && !s.Resident() && 0 < s.limit
  }

  lemma SwappedBytesSeen(segs: seq<Segment>, i: nat, k: nat)
    requires i < k <= |segs| && !segs[i].Resident() && 0 < segs[i].limit
    ensures HasSwappedBytes(segs[..k]) && !AllResident(segs[..k])
  {
    assert segs[..k][i] == segs[i] && segs[i] in segs[..k];
  }

  ghost predicate BoundsOk(s: Segment, total: int, cfg: Config) {
    s.limit <= cfg.segMax && cfg.segMax + cfg.blockSize <= U32 && (s.Resident() ==> s.base + s.limit <= total)
  }

  ghost predicate InBounds(segs: seq<Segment>, total: int, cfg: Config) {
    total < NO_BASE && forall s :: s in segs ==> BoundsOk(s, total, cfg)
  }

  lemma NextInBounds(segs: seq<Segment>, i: nat, total: int, cfg: Config)
    requires InBounds(segs, total, cfg) && i < |segs|
    ensures total < NO_BASE && BoundsOk(segs[i], total, cfg)
  {
    assert segs[i] in segs;
  }

  /** The first `i` segments have been dumped, none of them with bytes already in swap; the rest are as they were, and
      have `left` of the `room` blocks to go to. */
  ghost predicate Moving(segs: seq<Segment>, segs0: seq<Segment>, i: nat, room: int, left: int, total: int, cfg: Config) {
    && i <= |segs| == |segs0| && InBounds(segs, total, cfg)
    && (forall j :: i <= j < |segs| ==> segs[j] == segs0[j])
    && Fit(segs0, room, cfg.blockSize) == i + Fit(segs0[i..], left, cfg.blockSize)
    && RoomLeft(segs0, room, cfg.blockSize) == RoomLeft(segs0[i..], left, cfg.blockSize)
    && !HasSwappedBytes(segs0[..i])
  }

  /** The next segment goes if there are blocks for it, and if there are not, all that swap has room for have gone. */
  lemma MovingNext(segs: seq<Segment>, segs0: seq<Segment>, i: nat, room: int, left: int, total: int, cfg: Config)
    requires Moving(segs, segs0, i, room, left, total, cfg) && i < |segs|
    ensures total < NO_BASE && BoundsOk(segs[i], total, cfg) && segs[i] == segs0[i] && InBounds(segs, total, cfg)
    ensures !HasSwappedBytes(segs0[..i]) && Fit(segs0, room, cfg.blockSize) <= |segs0|
    ensures left < BlocksFor(segs[i].limit, cfg.blockSize) ==>
              Fit(segs0, room, cfg.blockSize) == i && RoomLeft(segs0, room, cfg.blockSize) == left
    ensures BlocksFor(segs[i].limit, cfg.blockSize) <= left ==> i < Fit(segs0, room, cfg.blockSize)
  {
    hide BlocksFor, BoundsOk, HasSwappedBytes, Fit, RoomLeft;
    FitStep(segs0, i, left, cfg.blockSize);
    NextInBounds(segs, i, total, cfg);
  }

  lemma MovingStep(segs: seq<Segment>, segs': seq<Segment>, segs0: seq<Segment>, i: nat, room: int, left: int, total: int, cfg: Config)
    requires Moving(segs, segs0, i, room, left, total, cfg) && i < |segs| == |segs'|
    requires BlocksFor(segs0[i].limit, cfg.blockSize) <= left && InBounds(segs', total, cfg)
    requires forall j :: i < j < |segs| ==> segs'[j] == segs[j]
    requires !HasSwappedBytes(segs0[..i + 1])
    ensures Moving(segs', segs0, i + 1, room, left - BlocksFor(segs0[i].limit, cfg.blockSize), total, cfg)
  {
    hide BlocksFor, InBounds, HasSwappedBytes, Fit, RoomLeft;
    FitStep(segs0, i, left, cfg.blockSize);
  }

  lemma MovingEnds(segs: seq<Segment>, segs0: seq<Segment>, room: int, left: int, total: int, cfg: Config)
    requires Moving(segs, segs0, |segs|, room, left, total, cfg)
    ensures segs0[..|segs|] == segs0 && Fit(segs0, room, cfg.blockSize) == |segs0| && RoomLeft(segs0, room, cfg.blockSize) == left
    ensures !HasSwappedBytes(segs0) && total < NO_BASE
  {
    hide BlocksFor, HasSwappedBytes, Fit, RoomLeft;
    assert segs0[..|segs|] == segs0 && segs0[|segs|..] == [];
    NothingLeft(cfg.blockSize, left);
  }

  lemma SuspendBegins(procs: seq<Process>, free: seq<Block>, p: nat, total: int, cfg: Config, next: int, room: int)
    requires Sound(procs, free, total, cfg, next) && p < |procs|
    ensures MovedToSwap(procs, procs, p, 0) && AllResident(procs[p].segs[..0])
    ensures Moving(procs[p].segs, procs[p].segs, 0, room, room, total, cfg)
  {
    hide BlocksFor, Fit, RoomLeft;
    assert procs[p] in procs && procs[p].segs[0..] == procs[p].segs;
  }

  /** One more segment has been dumped: in RAM before, it is one more moved; of no bytes and already in swap, it has left
      a block that is not memory in the free list, and that stays. */
  lemma SuspendStep(procs: seq<Process>, procs1: seq<Process>, procs0: seq<Process>, p: nat, i: nat, start: u32,
                    free: seq<Block>, free1: seq<Block>, total: int, cfg: Config, inRam: bool)
    requires OneChanged(procs, procs1, p, i) && p < |procs0| && i < |procs0[p].segs|
    requires procs1[p].segs[i] == procs0[p].segs[i] && (procs0[p].segs[i].Resident() || procs0[p].segs[i].limit == 0)
    requires InBounds(procs1[p].segs, total, cfg) && procs[p].segs[i] == Swapped(procs1[p].segs[i], start)
    requires inRam == AllResident(procs0[p].segs[..i]) && !HasSwappedBytes(procs0[p].segs[..i])
    requires Released(free, free1, Block(procs0[p].segs[i].base, procs0[p].segs[i].limit))
    requires if inRam then MovedToSwap(procs1, procs0, p, i) && InRange(free1, total) else StrayAmong(free1, total)
    ensures |procs| == |procs1| && |procs[p].segs| == |procs1[p].segs|
    ensures forall j :: i < j < |procs[p].segs| ==> procs[p].segs[j] == procs1[p].segs[j]
    ensures InBounds(procs[p].segs, total, cfg) && !HasSwappedBytes(procs0[p].segs[..i + 1])
    ensures AllResident(procs0[p].segs[..i + 1]) <==> inRam && procs0[p].segs[i].Resident()
    ensures inRam && procs0[p].segs[i].Resident() ==> MovedToSwap(procs, procs0, p, i + 1)
    ensures !AllResident(procs0[p].segs[..i + 1]) ==> StrayAmong(free, total)
  {
    hide Released, StrayAmong, InRange;
    var segs0 := procs0[p].segs;
    assert segs0[..i + 1] == segs0[..i] + [segs0[i]];
    assert procs1[p].segs[i] in procs1[p].segs;
    forall s | s in procs[p].segs ensures BoundsOk(s, total, cfg) {
      assert s in procs1[p].segs || s == procs[p].segs[i];
    }
    if inRam && segs0[i].Resident() { OneMoreMoved(procs, procs1, procs0, p, i, start); }
    if !inRam || !segs0[i].Resident() { Strays(free, free1, Block(segs0[i].base, segs0[i].limit), total); }
  }

  lemma NothingLeft(bs: pos32, room: int)
    ensures Fit([], room, bs) == 0 && RoomLeft([], room, bs) == room
  {}

  lemma RangeOfSound(procs: seq<Process>, free: seq<Block>, total: int, cfg: Config, next: int)
    ensures Sound(procs, free, total, cfg, next) ==> InRange(free, total)
  {
    hide BlocksFor, Merged, InRange;
  }

  lemma StrayIsUnsound(procs: seq<Process>, free: seq<Block>, total: int, cfg: Config, next: int)
    ensures total < NO_BASE && StrayAmong(free, total) ==> !Sound(procs, free, total, cfg, next)
  {
    hide BlocksFor, Merged;
  }

  lemma OneMoreMoved(procs: seq<Process>, procs1: seq<Process>, procs0: seq<Process>, p: nat, m: nat, start: u32)
    requires MovedToSwap(procs1, procs0, p, m) && OneChanged(procs, procs1, p, m)
    requires procs[p].segs[m] == Swapped(procs1[p].segs[m], start)
    ensures MovedToSwap(procs, procs0, p, m + 1)
  {}

  lemma FewBlocks(limit: u32, bs: pos32)
    requires limit + bs <= U32
    ensures BlocksFor(limit, bs) <= limit
  {
    BlocksForBounds(limit, bs);
  }

  lemma SwappedOut(procs: seq<Process>, free: seq<Block>, p: nat, i: nat, free': seq<Block>, flat: seq<byte>,
                   content: seq<seq<byte>>, content': seq<seq<byte>>, cfg: Config, next: u32)
    requires Sound(procs, free, |flat|, cfg, next) && p < |procs| && i < |procs[p].segs| && procs[p].segs[i].Resident()
    requires Released(free', free, procs[p].segs[i].Ram())
    requires next <= |content| == |content'| && forall k :: 0 <= k < next ==> content'[k] == content[k]
    requires procs[p].segs[i].base + procs[p].segs[i].limit <= |flat|
    requires SwapBytes(content', cfg.blockSize, next, procs[p].segs[i].limit)
          == flat[procs[p].segs[i].base..procs[p].segs[i].base + procs[p].segs[i].limit]
    ensures var procs' := Put(procs, Entry(p, i), Swapped(procs[p].segs[i], next));
            && Sound(procs', free', |flat|, cfg, next + BlocksFor(procs[p].segs[i].limit, cfg.blockSize))
            && ViewOf(procs', flat, content', cfg.blockSize) == ViewOf(procs, flat, content, cfg.blockSize)
  {
    hide Released, BlocksFor, ViewOf, SwapBytes, Tiles, Merged, InRange;
    MovedOut(procs, free, p, i, free', |flat|, cfg, next);
    MovedOutView(procs, p, i, flat, content, content', cfg, next);
  }

  predicate AllResident(segs: seq<Segment>) {
    forall s :: s in segs ==> s.Resident()
  }

  /** Only process `p` differs, and in it exactly the first `m` segments have gone to swap. */
  ghost predicate MovedToSwap(procs: seq<Process>, procs0: seq<Process>, p: nat, m: nat) {
    && p < |procs| == |procs0| && m <= |procs[p].segs| == |procs0[p].segs|
    && procs == procs0[p := Process(procs0[p].pid, procs[p].segs)]
    && (forall j :: 0 <= j < m ==> procs[p].segs[j] == Swapped(procs0[p].segs[j], procs[p].segs[j].swapStart))
    && (forall j :: m <= j < |procs[p].segs| ==> procs[p].segs[j] == procs0[p].segs[j])
  }

  lemma CoverAppend(bs: seq<Block>, b: Block)
    ensures forall a: int :: Cover(bs + [b], a) == Cover(bs, a) + One(b.Has(a))
  {
    forall a: int
      ensures Cover(bs + [b], a) == Cover(bs, a) + One(b.Has(a))
    {
      CoverConcat(bs, [b], a);
      CoverSingle(b, a);
    }
  }

  /** The segment that (pid, id) designates. */
  function Designates(procs: seq<Process>, pid: int, id: int): Option<Segment> {
    var p := IndexOf(Pids(procs), pid);
    var j := if p < 0 then -1 else IndexOf(Ids(procs[p].segs), id);
    if j < 0 then None else Some(procs[p].segs[j])
  }

  lemma ViewRemoveSegment(procs: seq<Process>, pid: int, id: int, p: int, j: int, flat: seq<byte>,
                          content: seq<seq<byte>>, bs: pos32)
    requires p == IndexOf(Pids(procs), pid) && j == if p < 0 then -1 else IndexOf(Ids(procs[p].segs), id)
    ensures Logical.RemoveSegment(ViewOf(procs, flat, content, bs), pid, id)
         == if j < 0 then ViewOf(procs, flat, content, bs)
            else ViewOf(procs[p := Process(procs[p].pid, Without(procs[p].segs, j))], flat, content, bs)
  {
    hide Bytes;
    SameNames(procs, flat, content, bs);
    if 0 <= j {
      var segs := procs[p].segs;
      assert SegViews(Without(segs, j), flat, content, bs)
          == Without(SegViews(segs, flat, content, bs), j);
    }
  }

  lemma ViewRemoveProcess(procs: seq<Process>, pid: int, p: int, flat: seq<byte>, content: seq<seq<byte>>, bs: pos32)
    requires p == IndexOf(Pids(procs), pid)
    ensures Logical.RemoveProcess(ViewOf(procs, flat, content, bs), pid)
         == if p < 0 then ViewOf(procs, flat, content, bs) else ViewOf(Without(procs, p), flat, content, bs)
  {
    hide SegViews;
    SameNames(procs, flat, content, bs);
  }

  /** Processes and segments are found at the same index in the tables and in the view. */
  lemma SameNames(procs: seq<Process>, flat: seq<byte>, content: seq<seq<byte>>, bs: pos32)
    ensures Logical.VPids(ViewOf(procs, flat, content, bs)) == Pids(procs)
    ensures forall p :: 0 <= p < |procs| ==>
      Logical.VIds(ViewOf(procs, flat, content, bs)[p].segs) == Ids(procs[p].segs)
  {}
}
