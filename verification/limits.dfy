/** Small machines, built by the handlers of Kernel Memory themselves, on which what they do not check shows
    (kernel_memory/src/memory_scheduler.c). */
module Limits {
  import opened Words
  import opened FreeBlocks
  import opened Swap
  import opened Segments
  import opened Tables
  import opened KernelMemory
  import Logical

  const CFG := Config(4, 4)

  /** If only four bytes of 32 are in use, some free block has at least 14. */
  lemma Roomy(procs: seq<Process>, free: seq<Block>, next: int, lo: nat)
    requires Sound(procs, free, 32, CFG, next) && lo <= 28
    requires forall a: int :: !(lo <= a < lo + 4) ==> Used(procs, a) == 0
    ensures BlockFor(free, 13) && 13 < TotalSize(free) && !NoneFits(free, 4) && free != []
  {
    var from, to := if lo < 14 then lo + 4 else 0, if lo < 14 then 32 else lo;
    TiledFree(free, procs, 32);
    forall a | from <= a < to ensures 0 < Cover(free, a) {
      assert Cover(free, a) + Used(procs, a) == One(0 <= a < 32);
    }
    var k := RunIsOneBlock(free, from, to, 32);
    assert free[k] in free;
    BlockWithinTotal(free, k);
  }

  /** The table of process 1 with two segments of four bytes. */
  function Two(s: Segment, t: Segment): seq<Process> {
    [Process(1, [s, t])]
  }

  lemma UsedByTwo(s: Segment, t: Segment, a: int)
    ensures Used(Two(s, t), a) == One(s.Ram().Has(a)) + One(t.Ram().Has(a))
  {
    assert RamOf([s, t]) == [s.Ram()] + [t.Ram()];
    CoverConcat([s.Ram()], [t.Ram()], a);
    CoverSingle(s.Ram(), a);
    CoverSingle(t.Ram(), a);
    assert Two(s, t)[1..] == [];
  }

  lemma UsedByOne(s: Segment, a: int)
    ensures Used([Process(1, [s])], a) == One(s.Ram().Has(a)) && Used([Process(1, [])], a) == 0
  {
    assert RamOf([s]) == [s.Ram()] && RamOf([]) == [];
    CoverSingle(s.Ram(), a);
    assert [Process(1, [s])][1..] == [] && [Process(1, [])][1..] == [];
  }

  /** After a segment has been created for it, the only process has one segment more. */
  lemma Created(procs: seq<Process>, procs0: seq<Process>, flat: seq<byte>, flat0: seq<byte>, content: seq<seq<byte>>, content0: seq<seq<byte>>,
                v: SegView, s: Segment)
    requires |procs0| == 1 && procs0[0].pid == 1 && LastSegment(procs, 1, s)
    requires ViewOf(procs, flat, content, 4) == Logical.AddSegment(ViewOf(procs0, flat0, content0, 4), 1, v)
    ensures |procs| == 1 && procs[0].pid == 1 && |procs[0].segs| == |procs0[0].segs| + 1
    ensures procs[0].segs[|procs0[0].segs|] == s
  {
    hide Bytes;
    SameNames(procs0, flat0, content0, 4);
    var view0, view := ViewOf(procs0, flat0, content0, 4), ViewOf(procs, flat, content, 4);
    assert Pids(procs0)[0] == 1 && IndexOf(Pids(procs0), 1) == 0;
    assert view == view0[0 := ProcView(1, view0[0].segs + [v])];
    assert |procs| == |view| == 1 && procs[0].pid == view[0].pid && |procs[0].segs| == |view[0].segs|;
    assert Pids(procs)[0] == 1 && IndexOf(Pids(procs), 1) == 0;
  }

  /** Process 1 with segments 0 and 1, four bytes each, of 32. */
  method TwoSegments(blocks: u32) returns (m: Memory, b0: u32, b1: u32)
    requires blocks < 100
    ensures fresh(m) && fresh(m.free) && fresh(m.bank) && fresh(m.bank.Repr) && fresh(m.area) && fresh(m.file) && fresh(m.file.blocks)
    ensures m.Valid() && m.cfg == CFG && m.swapOnline && m.area.totalBlocks == blocks && m.area.nextBlock == 0 && |m.bank.flat| == 32
    ensures m.procs == Two(Segment(0, b0, 4, 0), Segment(1, b1, 4, 0)) && b0 + 4 <= 32 && b1 + 4 <= 32
  {
    hide Sound, ViewOf, Logical.AddSegment, NoneFits, TotalSize, Extends, LastSegment, IndexOf, Pids;
    m := new Memory(CFG, false, true, blocks);
    m.RegisterStick(32);
    EmptyTable(m.procs, m.bank.flat, m.file.blocks[..]);
    var _ := m.CreateProcess(1);
    assert m.procs == [Process(1, [])];
    b0 := First(m);
    b1 := Second(m, b0);
  }

  lemma EmptyTable(procs: seq<Process>, flat: seq<byte>, content: seq<seq<byte>>)
    ensures ViewOf(procs, flat, content, 4) == [] ==> procs == []
  {}

  lemma RoomyAtFirst(free: seq<Block>, next: int)
    requires Sound([Process(1, [])], free, 32, CFG, next)
    ensures 4 <= TotalSize(free) && !NoneFits(free, 4)
  {
    hide Sound, NoneFits, TotalSize;
    forall a: int ensures Used([Process(1, [])], a) == 0 { UsedByOne(Segment(0, 0, 0, 0), a); }
    Roomy([Process(1, [])], free, next, 0);
  }

  method First(m: Memory) returns (b0: u32)
    requires m.Valid() && m.cfg == CFG && |m.bank.flat| == 32 && m.procs == [Process(1, [])]
    modifies m, m.free, m.bank`flat, m.bank.Repr
    ensures m.Valid() && |m.bank.flat| == 32 && b0 + 4 <= 32 && m.procs == [Process(1, [Segment(0, b0, 4, 0)])]
  {
    hide Sound, ViewOf, Logical.AddSegment, NoneFits, TotalSize, Extends, LastSegment, IndexOf, Pids, Used, Placed;
    ghost var procs0, flat0 := m.procs, m.bank.flat;
    ProcessOne(m.procs);
    RoomyAtFirst(m.free.blocks, m.area.nextBlock);
    var reply := m.CreateSegment(1, 0, 4);
    b0 := reply.base;
    Created(m.procs, procs0, m.bank.flat, flat0, m.file.blocks[..], m.file.blocks[..], SegView(0, m.bank.flat[b0..b0 + 4]),
            Segment(0, b0, 4, 0));
    assert m.procs[0].segs == [Segment(0, b0, 4, 0)] && m.procs == [m.procs[0]];
  }

  lemma ProcessOne(procs: seq<Process>)
    requires |procs| == 1 && procs[0].pid == 1
    ensures IndexOf(Pids(procs), 1) == 0
  {
    assert Pids(procs)[0] == 1;
  }

  method Second(m: Memory, b0: u32) returns (b1: u32)
    requires m.Valid() && m.cfg == CFG && |m.bank.flat| == 32 && b0 + 4 <= 32 && m.procs == [Process(1, [Segment(0, b0, 4, 0)])]
    modifies m, m.free, m.bank`flat, m.bank.Repr
    ensures m.Valid() && |m.bank.flat| == 32 && b1 + 4 <= 32 && m.procs == Two(Segment(0, b0, 4, 0), Segment(1, b1, 4, 0))
  {
    hide Sound, ViewOf, Logical.AddSegment, NoneFits, TotalSize, LastSegment, IndexOf, Pids, Used;
    ghost var procs0, flat0 := m.procs, m.bank.flat;
    ProcessOne(m.procs);
    forall a: int ensures Used(m.procs, a) == One(b0 <= a < b0 + 4) { UsedByOne(Segment(0, b0, 4, 0), a); }
    Roomy(m.procs, m.free.blocks, m.area.nextBlock, b0);
    var reply := m.CreateSegment(1, 1, 4);
    b1 := reply.base;
    Created(m.procs, procs0, m.bank.flat, flat0, m.file.blocks[..], m.file.blocks[..], SegView(1, m.bank.flat[b1..b1 + 4]),
            Segment(1, b1, 4, 0));
    assert m.procs[0].segs == [Segment(0, b0, 4, 0), Segment(1, b1, 4, 0)];
  }

  /* ---------- an acknowledged write that is no store ---------- */

  lemma Apart(procs: seq<Process>, free: seq<Block>, next: int, b0: u32, b1: u32)
    requires Sound(procs, free, 32, CFG, next) && procs == Two(Segment(0, b0, 4, 0), Segment(1, b1, 4, 0)) && b0 < 32 && b1 < 32
    ensures b0 + 4 <= b1 || b1 + 4 <= b0
  {
    var a := if b0 < b1 then b1 else b0;
    UsedByTwo(Segment(0, b0, 4, 0), Segment(1, b1, 4, 0), a);
    assert Cover(free, a) + Used(procs, a) == One(0 <= a < 32);
  }

  lemma Found(b0: u32, b1: u32, id: u32)
    requires b0 < 32 && b1 < 32 && id < 2
    ensures var procs := Two(Segment(0, b0, 4, 0), Segment(1, b1, 4, 0));
            Designates(procs, 1, id) == Some(Segment(id, if id == 0 then b0 else b1, 4, 0))
  {
    var procs := Two(Segment(0, b0, 4, 0), Segment(1, b1, 4, 0));
    ProcessOne(procs);
    assert Ids(procs[0].segs)[0] == 0 && Ids(procs[0].segs)[1] == 1;
    assert IndexOf(Ids(procs[0].segs)[..1], 1) == -1;
  }

  lemma Spread(flat: seq<byte>, from: nat, a: nat)
    requires from <= a && a + 4 <= |flat| < U32 - 1
    ensures Overlay(flat, from, seq(U32 - 1, _ => 7))[a..a + 4] == [7, 7, 7, 7]
  {
    var after := Overlay(flat, from, seq(U32 - 1, _ => 7));
    assert after[a] == after[a + 1] == after[a + 2] == after[a + 3] == 7;
  }

  method Zeros(m: Memory, b0: u32, b1: u32, o: u32)
    requires m.Valid() && m.cfg == CFG && |m.bank.flat| == 32 && o < 2
    requires m.procs == Two(Segment(0, b0, 4, 0), Segment(1, b1, 4, 0)) && b0 + 4 <= 32 && b1 + 4 <= 32
    modifies m.bank`flat, m.bank.Repr
    ensures m.Valid() && |m.bank.flat| == 32 && Logical.Load(m.View(), 1, o, 0, 4) == Some([0, 0, 0, 0])
  {
    hide Sound, ViewOf, Logical.Load, Logical.Store, Designates, Overlay;
    Found(b0, b1, o);
    var bo := if o == 0 then b0 else b1;
    var _ := m.WriteMemory(1, 4 * o, [0, 0, 0, 0]);
    ViewLoad(m.procs, 1, o, 0, 4, m.bank.flat, m.file.blocks[..], 4);
    OverlaySlices(old(m.bank.flat), m.bank.flat, bo, 0, [0, 0, 0, 0]);
  }

  method Sevens(m: Memory, b0: u32, b1: u32, w: u32, o: u32) returns (reply: Reply)
    requires m.Valid() && m.cfg == CFG && |m.bank.flat| == 32 && w < 2 && o == 1 - w
    requires m.procs == Two(Segment(0, b0, 4, 0), Segment(1, b1, 4, 0)) && b0 + 4 <= 32 && b1 + 4 <= 32
    requires if w == 0 then b0 + 4 <= b1 else b1 + 4 <= b0
    modifies m.bank`flat, m.bank.Repr
    ensures m.Valid() && reply == Ack && Logical.Load(old(m.View()), 1, w, 1, U32 - 1) == None
    ensures Logical.Load(m.View(), 1, o, 0, 4) == Some([7, 7, 7, 7])
  {
    hide Sound, ViewOf, Logical.Load, Logical.Store, Designates, Overlay;
    Found(b0, b1, w);
    Found(b0, b1, o);
    var bo := if o == 0 then b0 else b1;
    reply := m.WriteMemory(1, 4 * w + 1, seq(U32 - 1, _ => 7));
    ViewLoad(m.procs, 1, o, 0, 4, m.bank.flat, m.file.blocks[..], 4);
    Spread(old(m.bank.flat), if w == 0 then b0 + 1 else b1 + 1, bo);
  }

  /** Four zero bytes are stored in segment `o`; then a write at offset 1 of segment `w`, so long that its end wraps to
      offset 0, is acknowledged. There are no such bytes to load, and it has overwritten those of segment `o`. */
  method WrappedWrite() returns (m: Memory, ghost before: MemView, w: u32, o: u32, reply: Reply)
    ensures reply == Ack && m.Valid()
    ensures Logical.Load(before, 1, w, 1, U32 - 1) == None
    ensures Logical.Load(before, 1, o, 0, 4) == Some([0, 0, 0, 0]) && Logical.Load(m.View(), 1, o, 0, 4) == Some([7, 7, 7, 7])
  {
    hide Sound, ViewOf, Logical.Load;
    var b0, b1;
    m, b0, b1 := TwoSegments(0);
    Apart(m.procs, m.free.blocks, m.area.nextBlock, b0, b1);
    if b0 < b1 { w, o := 0, 1; } else { w, o := 1, 0; }
    Zeros(m, b0, b1, o);
    before := m.View();
    reply := Sevens(m, b0, b1, w, o);
  }

  /* ---------- segments in swap ---------- */

  lemma FitsTwo(s: Segment, t: Segment, room: nat)
    requires s.limit == t.limit == 4 && 0 < room
    ensures Fit([s, t], room, 4) == (if room == 1 then 1 else 2) && RoomLeft([s, t], room, 4) == if room == 1 then 0 else room - 2
  {
    assert [s, t][1..] == [t] && [t][1..] == [] && BlocksFor(4, 4) == 1;
    assert RoomLeft([], room - 2, 4) == room - 2 && RoomLeft([t], room - 1, 4) == if room == 1 then 0 else room - 2;
  }

  method SuspendTwo(m: Memory, b0: u32, b1: u32) returns (start: u32, t: Segment)
    requires m.Valid() && m.cfg == CFG && m.swapOnline && |m.bank.flat| == 32 && 0 == m.area.nextBlock < m.area.totalBlocks
    requires m.procs == Two(Segment(0, b0, 4, 0), Segment(1, b1, 4, 0)) && b0 + 4 <= 32 && b1 + 4 <= 32
    modifies m`procs, m.free, m.area, m.file.blocks
    ensures m.Valid() && m.procs == Two(Segment(0, NO_BASE, 4, start), t)
    ensures m.area.totalBlocks - m.area.nextBlock == if m.area.totalBlocks == 1 then 0 else m.area.totalBlocks - 2
    ensures t.id == 1 && t.limit == 4
    ensures if m.area.totalBlocks == 1 then t.base + 4 <= 32 && t.swapStart == 0 else !t.Resident()
  {
    hide Sound, ViewOf, IndexOf, Pids, Fit, RoomLeft;
    ProcessOne(m.procs);
    FitsTwo(Segment(0, b0, 4, 0), Segment(1, b1, 4, 0), m.area.totalBlocks);
    var _ := m.SuspendProcess(1);
    start, t := m.procs[0].segs[0].swapStart, m.procs[0].segs[1];
    assert m.procs[0].segs == [m.procs[0].segs[0], t] && m.procs == [m.procs[0]];
  }

  /** Process 1 after it has been suspended with room in swap for both segments, or for the first only. */
  method Suspended(blocks: u32) returns (m: Memory, start: u32, t: Segment)
    requires 1 <= blocks < 100
    ensures fresh(m) && fresh(m.free) && fresh(m.bank) && fresh(m.bank.Repr) && fresh(m.area) && fresh(m.file) && fresh(m.file.blocks)
    ensures m.Valid() && m.cfg == CFG && m.swapOnline && |m.bank.flat| == 32 && m.area.totalBlocks == blocks
    ensures m.area.totalBlocks - m.area.nextBlock == if blocks == 1 then 0 else blocks - 2
    ensures m.procs == Two(Segment(0, NO_BASE, 4, start), t)
    ensures t.id == 1 && t.limit == 4 && if blocks == 1 then t.base + 4 <= 32 && t.swapStart == 0 else !t.Resident()
  {
    hide Sound, ViewOf;
    var b0, b1;
    m, b0, b1 := TwoSegments(blocks);
    start, t := SuspendTwo(m, b0, b1);
  }

  /** Deleting a segment while its process is suspended leaves a block in the free list that is not memory. */
  method DeletedInSwap() returns (m: Memory, reply: Reply)
    ensures reply == Ack && |m.procs| == 1 && |m.procs[0].segs| == 1 && !m.Valid()
  {
    hide Sound, ViewOf, IndexOf, Pids, Ids, Designates;
    var start, t;
    m, start, t := Suspended(10);
    ghost var s := Segment(0, NO_BASE, 4, start);
    ProcessOne(m.procs);
    FirstOfTwo(s, t);
    reply := m.DeleteSegment(1, 0);
    assert Without([s, t], 0) == [t];
    assert m.procs == [Process(1, [t])];
  }

  lemma FirstOfTwo(s: Segment, t: Segment)
    requires s.id == 0
    ensures IndexOf(Ids([s, t]), 0) == 0 && Designates(Two(s, t), 1, 0) == Some(s)
  {
    ProcessOne(Two(s, t));
    assert Ids([s, t])[0] == 0;
  }

  /** Restoring a process of which only a part went to swap loses the memory that the other part had. */
  method RestoredInPart() returns (m: Memory, reply: Reply)
    ensures reply == Ack && AllResident(TableOne(m.procs)) && !m.Valid()
  {
    hide Sound, ViewOf, IndexOf, Pids, LimitSum, Used, AllResident;
    var start, t;
    m, start, t := Suspended(1);
    ghost var s := Segment(0, NO_BASE, 4, start);
    ProcessOne(m.procs);
    forall a: int ensures Used(m.procs, a) == One(t.base <= a < t.base + 4) { UsedByTwo(s, t, a); }
    Roomy(m.procs, m.free.blocks, m.area.nextBlock, t.base);
    SumOfTwo(s, t);
    StoredOne(m.procs, m.free.blocks, m.area.nextBlock, s, t);
    assert t in m.procs[0].segs && !NothingInRam(m.procs[0].segs);
    reply := m.UnsuspendProcess(1);
  }

  function TableOne(procs: seq<Process>): seq<Segment> {
    if procs == [] then [] else procs[0].segs
  }

  lemma SumOfTwo(s: Segment, t: Segment)
    requires s.limit == t.limit == 4
    ensures LimitSum([s, t]) == 8
  {
    assert [s, t][1..] == [t] && [t][1..] == [];
    assert LimitSum([t]) == 4;
  }

  lemma StoredOne(procs: seq<Process>, free: seq<Block>, next: int, s: Segment, t: Segment)
    requires Sound(procs, free, 32, CFG, next) && procs == Two(s, t)
    requires !s.Resident() && s.limit == t.limit == 4 && t.swapStart == 0
    ensures StoredBelow([s, t], next, 4)
  {
    hide Tiles, InRange, Merged;
    assert procs[0] in procs && s in procs[0].segs;
    assert BlocksFor(4, 4) == 1;
  }

  /** Suspending a process twice: the second request has no answer. */
  method SuspendedTwice() returns (m: Memory, reply: Reply)
    ensures reply == NoReply
  {
    hide Sound, ViewOf, IndexOf, Pids, Fit, RoomLeft;
    var start, t;
    m, start, t := Suspended(10);
    ghost var s := Segment(0, NO_BASE, 4, start);
    ProcessOne(m.procs);
    FitsTwo(s, t, 8);
    assert [s, t][..2] == [s, t] && s in [s, t];
    reply := m.SuspendProcess(1);
  }
}
