/** Segment tables (kernel_memory/src/memory_procesos.c), what it means for them to be sound, and the
    logical view of memory that they implement: for each process, the bytes of each of its segments. */
module Segments {
  import opened Words
  import opened FreeBlocks
  import opened Swap

  /** `base` is NO_BASE while the segment is in swap; `swapStart` matters only then. */
  datatype Segment = Segment(id: u32, base: u32, limit: u32, swapStart: u32) {

    predicate Resident() {
      base != NO_BASE
    }

    /** The RAM the segment takes up. */
    function Ram(): Block {
      if Resident() then Block(base, limit) else Block(0, 0)
    }
  }

  datatype Process = Process(pid: int, segs: seq<Segment>)

  function Pids(procs: seq<Process>): (r: seq<int>)
    ensures |r| == |procs| && forall i :: 0 <= i < |r| ==> r[i] == procs[i].pid
  {
    seq(|procs|, i requires 0 <= i < |procs| => procs[i].pid)
  }

  function Ids(segs: seq<Segment>): (r: seq<int>)
    ensures |r| == |segs| && forall i :: 0 <= i < |r| ==> r[i] == segs[i].id
  {
    seq(|segs|, i requires 0 <= i < |segs| => segs[i].id)
  }

  /** buscar_segmento, and the same search in the handlers of Kernel Memory: the first match wins. */
  method FindSegment(segs: seq<Segment>, id: int) returns (j: int)
    ensures j == IndexOf(Ids(segs), id)
  {
    j := 0;
    while j < |segs|
      invariant 0 <= j <= |segs|
      invariant forall m :: 0 <= m < j ==> segs[m].id != id
    {
      if segs[j].id == id { return; }
      j := j + 1;
    }
    j := -1;
  }

  function RamOf(segs: seq<Segment>): (r: seq<Block>)
    ensures |r| == |segs| && forall i :: 0 <= i < |r| ==> r[i] == segs[i].Ram()
  {
    seq(|segs|, i requires 0 <= i < |segs| => segs[i].Ram())
  }

  /** How many resident segments contain address `a`. */
  ghost function Used(procs: seq<Process>, a: int): nat {
    if procs == [] then 0 else Cover(RamOf(procs[0].segs), a) + Used(procs[1..], a)
  }

  /** Every address of physical memory is in exactly one free block or resident segment, and no block or
      segment reaches outside physical memory. */
  ghost predicate Tiles(free: seq<Block>, procs: seq<Process>, total: int) {
    forall a: int :: Cover(free, a) + Used(procs, a) == One(0 <= a < total)
  }

  datatype Config = Config(segMax: pos32, blockSize: pos32)

  ghost predicate SegmentOk(s: Segment, total: int, cfg: Config, nextBlock: int) {
    && s.limit <= cfg.segMax
    && (s.Resident() ==> s.base + s.limit <= total)
    && (!s.Resident() ==> s.swapStart + BlocksFor(s.limit, cfg.blockSize) <= nextBlock)
  }

  ghost predicate TableOk(segs: seq<Segment>, total: int, cfg: Config, nextBlock: int) {
    forall s :: s in segs ==> SegmentOk(s, total, cfg, nextBlock)
  }

  ghost predicate TablesOk(procs: seq<Process>, total: int, cfg: Config, nextBlock: int) {
    forall q :: q in procs ==> TableOk(q.segs, total, cfg, nextBlock)
  }

  ghost predicate Sound(procs: seq<Process>, free: seq<Block>, total: int, cfg: Config, nextBlock: int) {
    && total + cfg.segMax < U32 && cfg.segMax + cfg.blockSize <= U32
    && InRange(free, total) && Merged(free)
    && Tiles(free, procs, total)
    && TablesOk(procs, total, cfg, nextBlock)
  }

  /* ---------- logical addresses ---------- */

  function SegmentNumber(dir: u32, segMax: pos32): u32 {
    dir / segMax
  }

  function Offset(dir: u32, segMax: pos32): (off: u32)
    ensures off < segMax
  {
    dir % segMax
  }

  /** A logical address is split into the one segment number and offset that it was made of. */
  lemma Decomposed(dir: u32, segMax: pos32, num: u32, off: u32)
    requires off < segMax
    ensures dir == num * segMax + off <==> SegmentNumber(dir, segMax) == num && Offset(dir, segMax) == off
  {
    var q, r := dir / segMax, dir % segMax;
    assert dir == q * segMax + r;
    if q < num { Rows(segMax, q, num); }
    if num < q { Rows(segMax, num, q); }
  }

  lemma Rows(m: nat, a: nat, b: nat)
    requires a < b
    ensures a * m + m <= b * m
  {
    ProductMonotone(a + 1, b, m);
    assert (a + 1) * m == a * m + m;
  }

  /* ---------- counting ---------- */

  lemma {:induction false} UsedConcat(xs: seq<Process>, ys: seq<Process>, a: int)
    ensures Used(xs + ys, a) == Used(xs, a) + Used(ys, a)
  {
    if xs == [] {
      assert xs + ys == ys;
    } else {
      assert (xs + ys)[1..] == xs[1..] + ys;
      UsedConcat(xs[1..], ys, a);
    }
  }

  lemma UsedSplit(procs: seq<Process>, p: nat, a: int)
    requires p < |procs|
    ensures Used(procs, a) == Used(procs[..p], a) + Cover(RamOf(procs[p].segs), a) + Used(procs[p + 1..], a)
    ensures Used(procs[..p] + procs[p + 1..], a) == Used(procs, a) - Cover(RamOf(procs[p].segs), a)
  {
    assert procs == procs[..p] + ([procs[p]] + procs[p + 1..]);
    UsedConcat(procs[..p], [procs[p]] + procs[p + 1..], a);
    UsedConcat([procs[p]], procs[p + 1..], a);
    UsedConcat(procs[..p], procs[p + 1..], a);
    assert [procs[p]][1..] == [];
    assert Used([procs[p]][1..], a) == 0;
  }

  lemma UsedUpdate(procs: seq<Process>, p: nat, q: Process, a: int)
    requires p < |procs|
    ensures Used(procs[p := q], a) == Used(procs, a) - Cover(RamOf(procs[p].segs), a) + Cover(RamOf(q.segs), a)
  {
    UsedSplit(procs, p, a);
    UsedSplit(procs[p := q], p, a);
    assert procs[p := q][..p] == procs[..p];
    assert procs[p := q][p + 1..] == procs[p + 1..];
  }

  lemma UsedAppend(procs: seq<Process>, q: Process, a: int)
    ensures Used(procs + [q], a) == Used(procs, a) + Cover(RamOf(q.segs), a)
  {
    UsedConcat(procs, [q], a);
    assert [q][1..] == [];
    assert Used([q][1..], a) == 0;
  }

  lemma RamOfUpdate(segs: seq<Segment>, j: nat, s: Segment, a: int)
    requires j < |segs|
    ensures Cover(RamOf(segs[j := s]), a) == Cover(RamOf(segs), a) - One(segs[j].Ram().Has(a)) + One(s.Ram().Has(a))
  {
    assert RamOf(segs[j := s]) == RamOf(segs)[j := s.Ram()];
    CoverUpdate(RamOf(segs), j, s.Ram(), a);
  }

  lemma RamOfAppend(segs: seq<Segment>, s: Segment, a: int)
    ensures Cover(RamOf(segs + [s]), a) == Cover(RamOf(segs), a) + One(s.Ram().Has(a))
  {
    assert RamOf(segs + [s]) == RamOf(segs) + [s.Ram()];
    CoverConcat(RamOf(segs), [s.Ram()], a);
    CoverSingle(s.Ram(), a);
  }

  lemma RamOfRemove(segs: seq<Segment>, j: nat, a: int)
    requires j < |segs|
    ensures Cover(RamOf(segs[..j] + segs[j + 1..]), a) == Cover(RamOf(segs), a) - One(segs[j].Ram().Has(a))
  {
    assert RamOf(segs[..j] + segs[j + 1..]) == RamOf(segs)[..j] + RamOf(segs)[j + 1..];
    CoverRemove(RamOf(segs), j, a);
  }

  /** A segment in the table accounts for its own addresses. */
  lemma UsedBySegment(procs: seq<Process>, p: nat, j: nat, a: int)
    requires p < |procs| && j < |procs[p].segs| && procs[p].segs[j].Ram().Has(a)
    ensures 1 <= Cover(RamOf(procs[p].segs), a) <= Used(procs, a)
  {
    UsedSplit(procs, p, a);
    CoverSplit(RamOf(procs[p].segs), j, a);
  }

  lemma TiledFree(free: seq<Block>, procs: seq<Process>, total: int)
    requires Tiles(free, procs, total)
    ensures Disjoint(free)
  {
    forall a: int
      ensures Cover(free, a) <= 1
    {
      assert Cover(free, a) + Used(procs, a) == One(0 <= a < total);
    }
  }

  /* ---------- conservation ---------- */

  /** The RAM of all segments, as one list. */
  ghost function ResidentBlocks(procs: seq<Process>): seq<Block> {
    if procs == [] then [] else RamOf(procs[0].segs) + ResidentBlocks(procs[1..])
  }

  lemma {:induction false} ResidentCover(procs: seq<Process>, a: int)
    ensures Cover(ResidentBlocks(procs), a) == Used(procs, a)
  {
    if procs != [] {
      CoverConcat(RamOf(procs[0].segs), ResidentBlocks(procs[1..]), a);
      ResidentCover(procs[1..], a);
    }
  }

  lemma {:induction false} ResidentInRange(procs: seq<Process>, total: nat, cfg: Config, nextBlock: int)
    requires TablesOk(procs, total, cfg, nextBlock)
    ensures InRange(ResidentBlocks(procs), total)
  {
    hide BlocksFor;
    if procs != [] {
      assert procs[0] in procs;
      forall b | b in RamOf(procs[0].segs)
        ensures b.base + b.size <= total
      {
        var j :| 0 <= j < |procs[0].segs| && procs[0].segs[j].Ram() == b;
        assert procs[0].segs[j] in procs[0].segs;
      }
      ResidentInRange(procs[1..], total, cfg, nextBlock);
    }
  }

  /** Free space plus the limits of the resident segments is the size of physical memory. */
  lemma Conservation(procs: seq<Process>, free: seq<Block>, total: nat, cfg: Config, nextBlock: int)
    requires Sound(procs, free, total, cfg, nextBlock)
    ensures TotalSize(free) + TotalSize(ResidentBlocks(procs)) == total
  {
    var all := free + ResidentBlocks(procs);
    ResidentInRange(procs, total, cfg, nextBlock);
    forall a | 0 <= a < total
      ensures Cover(all, a) == 1
    {
      CoverConcat(free, ResidentBlocks(procs), a);
      ResidentCover(procs, a);
      assert Cover(free, a) + Used(procs, a) == One(0 <= a < total);
    }
    assert InRange(all, total);
    MassIsTotal(all, total);
    MassOfTiling(all, total);
    TotalConcat(free, ResidentBlocks(procs));
  }

  /* ---------- the logical view ---------- */

  datatype SegView = SegView(id: u32, bytes: seq<byte>)

  datatype ProcView = ProcView(pid: int, segs: seq<SegView>)

  type MemView = seq<ProcView>

  function RamBytes(flat: seq<byte>, base: u32, limit: u32): (r: seq<byte>)
    ensures |r| == limit
  {
    if base + limit <= |flat| then flat[base..base + limit] else seq(limit, _ => 0)
  }

  /** The bytes a segment stands for: RAM at its base, or its swap blocks cut to its limit. */
  function Bytes(s: Segment, flat: seq<byte>, content: seq<seq<byte>>, bs: pos32): (r: seq<byte>)
    ensures |r| == s.limit
  {
    if s.Resident() then RamBytes(flat, s.base, s.limit) else SwapBytes(content, bs, s.swapStart, s.limit)
  }

  function SegViews(segs: seq<Segment>, flat: seq<byte>, content: seq<seq<byte>>, bs: pos32): (r: seq<SegView>)
    ensures |r| == |segs|
    ensures forall j :: 0 <= j < |segs| ==> r[j] == SegView(segs[j].id, Bytes(segs[j], flat, content, bs))
  {
    seq(|segs|, j requires 0 <= j < |segs| => SegView(segs[j].id, Bytes(segs[j], flat, content, bs)))
  }

  function ViewOf(procs: seq<Process>, flat: seq<byte>, content: seq<seq<byte>>, bs: pos32): (r: MemView)
    ensures |r| == |procs|
    ensures forall p :: 0 <= p < |procs| ==> r[p] == ProcView(procs[p].pid, SegViews(procs[p].segs, flat, content, bs))
  {
    seq(|procs|, p requires 0 <= p < |procs| => ProcView(procs[p].pid, SegViews(procs[p].segs, flat, content, bs)))
  }

  /** The bytes of a sound segment do not depend on free RAM or on unreserved swap blocks. */
  lemma BytesFrame(s: Segment, flat: seq<byte>, flat': seq<byte>, content: seq<seq<byte>>, content': seq<seq<byte>>,
                   cfg: Config, nextBlock: nat)
    requires SegmentOk(s, |flat|, cfg, nextBlock) && |flat| <= |flat'| && cfg.segMax + cfg.blockSize <= U32
    requires forall a :: 0 <= a < |flat| && s.Ram().Has(a) ==> flat'[a] == flat[a]
    requires nextBlock <= |content| == |content'|
    requires forall k :: 0 <= k < nextBlock ==> content'[k] == content[k]
    ensures Bytes(s, flat', content', cfg.blockSize) == Bytes(s, flat, content, cfg.blockSize)
  {
    hide BlocksFor, Span;
    if s.Resident() {
      assert RamBytes(flat', s.base, s.limit) == RamBytes(flat, s.base, s.limit);
    } else {
      BlocksCover(s.limit, cfg.blockSize);
      SwapBytesFrame(content, content', cfg.blockSize, s.swapStart, s.limit, BlocksFor(s.limit, cfg.blockSize));
    }
  }

  lemma BlocksCover(limit: u32, bs: pos32)
    requires limit + bs <= U32
    ensures limit <= Span(BlocksFor(limit, bs), bs)
  {
    BlocksForBounds(limit, bs);
  }

  /** Writing free RAM and unreserved swap blocks leaves the view alone. */
  lemma ViewFrame(procs: seq<Process>, flat: seq<byte>, flat': seq<byte>, content: seq<seq<byte>>,
                  content': seq<seq<byte>>, cfg: Config, nextBlock: nat)
    requires TablesOk(procs, |flat|, cfg, nextBlock) && |flat| <= |flat'| && cfg.segMax + cfg.blockSize <= U32
    requires forall a :: 0 <= a < |flat| && 0 < Used(procs, a) ==> flat'[a] == flat[a]
    requires nextBlock <= |content| == |content'|
    requires forall k :: 0 <= k < nextBlock ==> content'[k] == content[k]
    ensures ViewOf(procs, flat', content', cfg.blockSize) == ViewOf(procs, flat, content, cfg.blockSize)
  {
    hide BlocksFor, Span, Bytes;
    forall p | 0 <= p < |procs|
      ensures SegViews(procs[p].segs, flat', content', cfg.blockSize) == SegViews(procs[p].segs, flat, content, cfg.blockSize)
    {
      assert procs[p] in procs;
      forall j | 0 <= j < |procs[p].segs|
        ensures Bytes(procs[p].segs[j], flat', content', cfg.blockSize) == Bytes(procs[p].segs[j], flat, content, cfg.blockSize)
      {
        var s := procs[p].segs[j];
        assert s in procs[p].segs;
        forall a | 0 <= a < |flat| && s.Ram().Has(a)
          ensures flat'[a] == flat[a]
        {
          UsedBySegment(procs, p, j, a);
        }
        BytesFrame(s, flat, flat', content, content', cfg, nextBlock);
      }
    }
  }

  /** Replacing a table by one with the same ids and bytes leaves the view alone. */
  lemma ViewSame(procs: seq<Process>, p: nat, segs: seq<Segment>, flat: seq<byte>, content: seq<seq<byte>>, bs: pos32)
    requires p < |procs|
    requires SegViews(segs, flat, content, bs) == SegViews(procs[p].segs, flat, content, bs)
    ensures ViewOf(procs[p := Process(procs[p].pid, segs)], flat, content, bs) == ViewOf(procs, flat, content, bs)
  {}
}
