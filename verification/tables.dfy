/** How each change of the tables and the free list keeps them sound and what it does to the logical view. */
module Tables {
  import opened Words
  import opened FreeBlocks
  import opened Swap
  import opened Segments

  /** Bytes may move between the free list and one process as long as none is lost or shared. */
  lemma Exchange(procs: seq<Process>, free: seq<Block>, p: nat, segs: seq<Segment>, free': seq<Block>,
                 total: int, cfg: Config, next: int, next': int)
    requires Sound(procs, free, total, cfg, next) && p < |procs| && next <= next'
    requires InRange(free', total) && Merged(free') && TableOk(segs, total, cfg, next')
    requires forall a: int :: Cover(free', a) + Cover(RamOf(segs), a) == Cover(free, a) + Cover(RamOf(procs[p].segs), a)
    ensures Sound(procs[p := Process(procs[p].pid, segs)], free', total, cfg, next')
  {
    hide BlocksFor, Merged, InRange;
    var procs' := procs[p := Process(procs[p].pid, segs)];
    forall a: int
      ensures Cover(free', a) + Used(procs', a) == One(0 <= a < total)
    {
      UsedUpdate(procs, p, procs'[p], a);
      assert Cover(free, a) + Used(procs, a) == One(0 <= a < total);
    }
    forall q | q in procs'
      ensures TableOk(q.segs, total, cfg, next')
    {
      assert q in procs || q == procs'[p];
    }
  }

  /** If bytes are lost, the result is not sound. */
  lemma LostBytes(procs: seq<Process>, free: seq<Block>, p: nat, segs: seq<Segment>, free': seq<Block>,
                  total: int, cfg: Config, next: int, next': int, a: int)
    requires Sound(procs, free, total, cfg, next) && p < |procs|
    requires Cover(free', a) + Cover(RamOf(segs), a) < Cover(free, a) + Cover(RamOf(procs[p].segs), a)
    ensures !Sound(procs[p := Process(procs[p].pid, segs)], free', total, cfg, next')
  {
    var procs' := procs[p := Process(procs[p].pid, segs)];
    UsedUpdate(procs, p, procs'[p], a);
    NothingOutside(free, total, a);
    assert Cover(free, a) + Used(procs, a) == One(0 <= a < total);
    assert Cover(free', a) + Used(procs', a) < One(0 <= a < total);
  }

  lemma DropProcess(procs: seq<Process>, free: seq<Block>, p: nat, free': seq<Block>, total: int, cfg: Config, next: int)
    requires Sound(procs, free, total, cfg, next) && p < |procs|
    requires InRange(free', total) && Merged(free')
    requires forall a: int :: Cover(free', a) == Cover(free, a) + Cover(RamOf(procs[p].segs), a)
    ensures Sound(Without(procs, p), free', total, cfg, next)
  {
    hide BlocksFor, Merged, InRange;
    forall a: int
      ensures Cover(free', a) + Used(Without(procs, p), a) == One(0 <= a < total)
    {
      UsedSplit(procs, p, a);
      assert Cover(free, a) + Used(procs, a) == One(0 <= a < total);
    }
  }

  lemma NewProcess(procs: seq<Process>, free: seq<Block>, pid: int, total: int, cfg: Config, next: int)
    requires Sound(procs, free, total, cfg, next)
    ensures Sound(procs + [Process(pid, [])], free, total, cfg, next)
  {
    hide BlocksFor, Merged, InRange;
    forall a: int
      ensures Cover(free, a) + Used(procs + [Process(pid, [])], a) == One(0 <= a < total)
    {
      UsedAppend(procs, Process(pid, []), a);
      assert RamOf([]) == [];
      assert Cover(free, a) + Used(procs, a) == One(0 <= a < total);
    }
  }

  lemma MoreMemory(procs: seq<Process>, free: seq<Block>, free': seq<Block>, total: u32, size: u32, cfg: Config, next: int)
    requires Sound(procs, free, total, cfg, next) && total + size + cfg.segMax < U32
    requires Released(free', free, Block(total, size))
    ensures Sound(procs, free', total + size, cfg, next)
  {
    hide BlocksFor;
    assert InRange(free, total + size);
    forall a: int
      ensures Cover(free', a) + Used(procs, a) == One(0 <= a < total + size)
    {
      assert Cover(free, a) + Used(procs, a) == One(0 <= a < total);
    }
    forall q | q in procs
      ensures TableOk(q.segs, total + size, cfg, next)
    {
      assert TableOk(q.segs, total, cfg, next);
    }
  }

  /** A segment carved from free block `k` and appended to process `p`. */
  lemma Allocated(procs: seq<Process>, free: seq<Block>, p: nat, s: Segment, k: nat, total: int, cfg: Config, next: int)
    requires Sound(procs, free, total, cfg, next) && p < |procs|
    requires k < |free| && s.limit <= free[k].size && s.base == free[k].base && s.limit <= cfg.segMax
    ensures s.Resident()
    ensures Sound(procs[p := Process(procs[p].pid, procs[p].segs + [s])], Carve(free, k, s.limit), total, cfg, next)
  {
    hide BlocksFor;
    TiledFree(free, procs, total);
    CarveKeeps(free, k, s.limit, total);
    assert free[k] in free;
    forall a: int
      ensures Cover(Carve(free, k, s.limit), a) + Cover(RamOf(procs[p].segs + [s]), a)
           == Cover(free, a) + Cover(RamOf(procs[p].segs), a)
    {
      RamOfAppend(procs[p].segs, s, a);
    }
    assert procs[p] in procs;
    Exchange(procs, free, p, procs[p].segs + [s], Carve(free, k, s.limit), total, cfg, next, next);
  }

  /** Segment `j` of process `p` removed and the block at its base freed: sound exactly if it was in RAM. */
  lemma Deleted(procs: seq<Process>, free: seq<Block>, p: nat, j: nat, free': seq<Block>, total: int, cfg: Config, next: int)
    requires Sound(procs, free, total, cfg, next) && p < |procs| && j < |procs[p].segs|
    requires Released(free', free, Block(procs[p].segs[j].base, procs[p].segs[j].limit))
    ensures procs[p].segs[j].Resident() <==>
            Sound(procs[p := Process(procs[p].pid, Without(procs[p].segs, j))], free', total, cfg, next)
  {
    hide BlocksFor;
    var s := procs[p].segs[j];
    assert procs[p] in procs && s in procs[p].segs;
    if !s.Resident() {
      Strays(free', free, Block(s.base, s.limit), total);
      return;
    }
    assert InRange(free', total);
    hide Released, InRange;
    var segs := Without(procs[p].segs, j);
    forall a: int
      ensures Cover(free', a) + Cover(RamOf(segs), a) == Cover(free, a) + Cover(RamOf(procs[p].segs), a)
    {
      RamOfRemove(procs[p].segs, j, a);
    }
    Exchange(procs, free, p, segs, free', total, cfg, next, next);
  }

  /** The segment as the dump leaves it: no base, stored from block `start` on. */
  function Swapped(s: Segment, start: u32): Segment {
    s.(base := NO_BASE, swapStart := start)
  }

  /** Segment `j` of process `p` moved to the swap blocks from `next` on. */
  lemma MovedOut(procs: seq<Process>, free: seq<Block>, p: nat, j: nat, free': seq<Block>, total: int, cfg: Config, next: u32)
    requires Sound(procs, free, total, cfg, next) && p < |procs| && j < |procs[p].segs| && procs[p].segs[j].Resident()
    requires Released(free', free, procs[p].segs[j].Ram())
    ensures Sound(procs[p := Process(procs[p].pid, procs[p].segs[j := Swapped(procs[p].segs[j], next)])], free', total, cfg,
                  next + BlocksFor(procs[p].segs[j].limit, cfg.blockSize))
  {
    hide BlocksFor;
    assert procs[p] in procs && procs[p].segs[j] in procs[p].segs;
    assert InRange(free', total);
    hide Released, InRange;
    var s := Swapped(procs[p].segs[j], next);
    var segs, next' := procs[p].segs[j := s], next + BlocksFor(s.limit, cfg.blockSize);
    forall a: int
      ensures Cover(free', a) + Cover(RamOf(segs), a) == Cover(free, a) + Cover(RamOf(procs[p].segs), a)
    {
      RamOfUpdate(procs[p].segs, j, s, a);
    }
    assert procs[p] in procs && procs[p].segs[j] in procs[p].segs;
    forall t | t in segs
      ensures SegmentOk(t, total, cfg, next')
    {
      assert t in procs[p].segs || t == s;
    }
    Exchange(procs, free, p, segs, free', total, cfg, next, next');
  }

  /** ... keeps its bytes, and everyone else's, if the dump copied them. */
  lemma MovedOutView(procs: seq<Process>, p: nat, j: nat, flat: seq<byte>, content: seq<seq<byte>>,
                     content': seq<seq<byte>>, cfg: Config, next: u32)
    requires TablesOk(procs, |flat|, cfg, next) && cfg.segMax + cfg.blockSize <= U32
    requires p < |procs| && j < |procs[p].segs| && procs[p].segs[j].Resident()
    requires next <= |content| == |content'| && forall k :: 0 <= k < next ==> content'[k] == content[k]
    requires procs[p].segs[j].base + procs[p].segs[j].limit <= |flat|
    requires SwapBytes(content', cfg.blockSize, next, procs[p].segs[j].limit)
          == flat[procs[p].segs[j].base..procs[p].segs[j].base + procs[p].segs[j].limit]
    ensures ViewOf(procs[p := Process(procs[p].pid, procs[p].segs[j := Swapped(procs[p].segs[j], next)])],
                   flat, content', cfg.blockSize)
         == ViewOf(procs, flat, content, cfg.blockSize)
  {
    hide BlocksFor, SwapBytes;
    var s := Swapped(procs[p].segs[j], next);
    ViewFrame(procs, flat, flat, content, content', cfg, next);
    assert Bytes(s, flat, content', cfg.blockSize) == Bytes(procs[p].segs[j], flat, content', cfg.blockSize);
    ViewSame(procs, p, procs[p].segs[j := s], flat, content', cfg.blockSize);
  }

  /* ---------- un-suspension ---------- */

  /** `segs'` is `segs` with other bases. */
  ghost predicate Rebased(segs': seq<Segment>, segs: seq<Segment>) {
    |segs'| == |segs| && forall j :: 0 <= j < |segs| ==> segs'[j] == segs[j].(base := segs'[j].base)
  }

  /** None of the process's bytes are in RAM. */
  predicate NothingInRam(segs: seq<Segment>) {
    forall s :: s in segs && s.Resident() ==> s.limit == 0
  }

  lemma {:induction false} NothingCovered(segs: seq<Segment>, a: int)
    requires NothingInRam(segs)
    ensures Cover(RamOf(segs), a) == 0
  {
    if 0 < Cover(RamOf(segs), a) {
      var k := CoverWitness(RamOf(segs), a);
      assert false;
    }
  }

  lemma MovedIn(procs: seq<Process>, free: seq<Block>, p: nat, segs: seq<Segment>, free': seq<Block>,
                total: int, cfg: Config, next: int)
    requires Sound(procs, free, total, cfg, next) && p < |procs|
    requires InRange(free', total) && Merged(free')
    requires Rebased(segs, procs[p].segs) && forall s :: s in segs ==> s.Resident() && s.base + s.limit <= total
    requires forall a: int :: Cover(free', a) + Cover(RamOf(segs), a) == Cover(free, a)
    ensures NothingInRam(procs[p].segs) <==>
            Sound(procs[p := Process(procs[p].pid, segs)], free', total, cfg, next)
  {
    hide Sound, NothingInRam, Rebased, InRange, Merged;
    if NothingInRam(procs[p].segs) {
      MovedInSound(procs, free, p, segs, free', total, cfg, next);
    } else {
      MovedInLoses(procs, free, p, segs, free', total, cfg, next);
    }
  }

  lemma MovedInSound(procs: seq<Process>, free: seq<Block>, p: nat, segs: seq<Segment>, free': seq<Block>,
                     total: int, cfg: Config, next: int)
    requires Sound(procs, free, total, cfg, next) && p < |procs| && NothingInRam(procs[p].segs)
    requires InRange(free', total) && Merged(free')
    requires Rebased(segs, procs[p].segs) && forall s :: s in segs ==> s.Resident() && s.base + s.limit <= total
    requires forall a: int :: Cover(free', a) + Cover(RamOf(segs), a) == Cover(free, a)
    ensures Sound(procs[p := Process(procs[p].pid, segs)], free', total, cfg, next)
  {
    hide BlocksFor, Merged, InRange, Tiles, Used, Cover;
    forall a: int
      ensures Cover(free', a) + Cover(RamOf(segs), a) == Cover(free, a) + Cover(RamOf(procs[p].segs), a)
    {
      NothingCovered(procs[p].segs, a);
    }
    assert procs[p] in procs;
    forall s | s in segs
      ensures SegmentOk(s, total, cfg, next)
    {
      var j :| 0 <= j < |segs| && segs[j] == s;
      assert procs[p].segs[j] in procs[p].segs;
    }
    Exchange(procs, free, p, segs, free', total, cfg, next, next);
  }

  lemma MovedInLoses(procs: seq<Process>, free: seq<Block>, p: nat, segs: seq<Segment>, free': seq<Block>,
                     total: int, cfg: Config, next: int)
    requires Sound(procs, free, total, cfg, next) && p < |procs| && !NothingInRam(procs[p].segs)
    requires forall a: int :: Cover(free', a) + Cover(RamOf(segs), a) == Cover(free, a)
    ensures !Sound(procs[p := Process(procs[p].pid, segs)], free', total, cfg, next)
  {
    hide Sound, Cover;
    var s :| s in procs[p].segs && s.Resident() && s.limit != 0;
    var j :| 0 <= j < |procs[p].segs| && procs[p].segs[j] == s;
    CoverSplit(RamOf(procs[p].segs), j, s.base);
    LostBytes(procs, free, p, segs, free', total, cfg, next, next, s.base);
  }

  /** RAM at the segment's base holds what its swap blocks hold. */
  ghost predicate LoadedAt(s: Segment, flat: seq<byte>, content: seq<seq<byte>>, bs: pos32) {
    && s.Resident() && s.base + s.limit <= |flat|
    && flat[s.base..s.base + s.limit] == SwapBytes(content, bs, s.swapStart, s.limit)
  }

  /** The view survives if the load wrote only free RAM and copied each segment from its blocks. */
  lemma MovedInView(procs: seq<Process>, free: seq<Block>, p: nat, segs: seq<Segment>, flat: seq<byte>, flat': seq<byte>,
                    content: seq<seq<byte>>, cfg: Config, next: nat)
    requires Sound(procs, free, |flat|, cfg, next) && p < |procs| && next <= |content| && |flat'| == |flat|
    requires Rebased(segs, procs[p].segs) && NothingInRam(procs[p].segs)
    requires forall a :: 0 <= a < |flat| && Cover(free, a) == 0 ==> flat'[a] == flat[a]
    requires forall s :: s in segs ==> LoadedAt(s, flat', content, cfg.blockSize)
    ensures ViewOf(procs[p := Process(procs[p].pid, segs)], flat', content, cfg.blockSize)
         == ViewOf(procs, flat, content, cfg.blockSize)
  {
    hide BlocksFor, SwapBytes, Merged, InRange;
    forall a | 0 <= a < |flat| && 0 < Used(procs, a)
      ensures flat'[a] == flat[a]
    {
      assert Cover(free, a) + Used(procs, a) == One(0 <= a < |flat|);
    }
    ViewFrame(procs, flat, flat', content, content, cfg, next);
    var old_segs := procs[p].segs;
    forall j | 0 <= j < |segs|
      ensures SegView(segs[j].id, Bytes(segs[j], flat', content, cfg.blockSize))
           == SegView(old_segs[j].id, Bytes(old_segs[j], flat', content, cfg.blockSize))
    {
      assert segs[j] in segs && old_segs[j] in old_segs;
      if old_segs[j].Resident() {
        assert Bytes(segs[j], flat', content, cfg.blockSize) == [] == Bytes(old_segs[j], flat', content, cfg.blockSize);
      }
    }
    assert SegViews(segs, flat', content, cfg.blockSize) == SegViews(old_segs, flat', content, cfg.blockSize);
    ViewSame(procs, p, segs, flat', content, cfg.blockSize);
  }
}
