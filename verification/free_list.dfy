/** The list of free blocks of physical memory (kernel_memory/src/memory_bloques.c). */
module FreeBlocks {
  import opened Words

  datatype Block = Block(base: u32, size: u32) {

    ghost predicate Has(a: int) {
      base <= a < base + size
    }

    /** Where the block ends, as `uint32_t` arithmetic computes it. */
    function End(): u32 {
      Add32(base, size)
    }
  }

  /** How many of the blocks contain address `a`. */
  ghost function Cover(bs: seq<Block>, a: int): nat {
    if bs == [] then 0 else One(bs[0].Has(a)) + Cover(bs[1..], a)
  }

  function TotalSize(bs: seq<Block>): nat {
    if bs == [] then 0 else TotalSize(bs[..|bs| - 1]) + bs[|bs| - 1].size
  }

  ghost predicate InRange(bs: seq<Block>, total: int) {
    forall b :: b in bs ==> b.base + b.size <= total
  }

  ghost predicate Disjoint(bs: seq<Block>) {
    forall a: int :: Cover(bs, a) <= 1
  }

  ghost predicate Adjoin(bs: seq<Block>, i: int, j: int) {
    0 <= i < |bs| && 0 <= j < |bs| && i != j && bs[i].End() == bs[j].base
  }

  /** No block of at least one byte ends where another such block begins. */
  ghost predicate Merged(bs: seq<Block>) {
    forall i, j :: Adjoin(bs, i, j) ==> bs[i].size == 0 || bs[j].size == 0
  }

  /** No block whatsoever ends where another begins. */
  ghost predicate FullyMerged(bs: seq<Block>) {
    forall i, j :: !Adjoin(bs, i, j)
  }

  /** Both lists hold the same blocks, not counting blocks of no bytes. */
  ghost predicate SameBlocks(xs: seq<Block>, ys: seq<Block>) {
    forall b: Block :: 0 < b.size ==> (b in xs <==> b in ys)
  }

  /* ---------- counting lemmas ---------- */

  lemma {:induction false} CoverConcat(xs: seq<Block>, ys: seq<Block>, a: int)
    ensures Cover(xs + ys, a) == Cover(xs, a) + Cover(ys, a)
  {
    if xs == [] {
      assert xs + ys == ys;
    } else {
      assert (xs + ys)[1..] == xs[1..] + ys;
      CoverConcat(xs[1..], ys, a);
    }
  }

  lemma CoverSingle(b: Block, a: int)
    ensures Cover([b], a) == One(b.Has(a))
  {
    assert [b][1..] == [];
    assert Cover([b][1..], a) == 0;
  }

  lemma CoverSplit(bs: seq<Block>, k: nat, a: int)
    requires k < |bs|
    ensures Cover(bs, a) == Cover(bs[..k], a) + One(bs[k].Has(a)) + Cover(bs[k + 1..], a)
  {
    assert bs == bs[..k] + ([bs[k]] + bs[k + 1..]);
    CoverConcat(bs[..k], [bs[k]] + bs[k + 1..], a);
    CoverConcat([bs[k]], bs[k + 1..], a);
  }

  lemma CoverUpdate(bs: seq<Block>, k: nat, b: Block, a: int)
    requires k < |bs|
    ensures Cover(bs[k := b], a) == Cover(bs, a) - One(bs[k].Has(a)) + One(b.Has(a))
  {
    CoverSplit(bs, k, a);
    CoverSplit(bs[k := b], k, a);
    assert bs[k := b][..k] == bs[..k];
    assert bs[k := b][k + 1..] == bs[k + 1..];
  }

  lemma CoverRemove(bs: seq<Block>, k: nat, a: int)
    requires k < |bs|
    ensures Cover(bs[..k] + bs[k + 1..], a) == Cover(bs, a) - One(bs[k].Has(a))
  {
    CoverSplit(bs, k, a);
    CoverConcat(bs[..k], bs[k + 1..], a);
  }

  lemma CoverTwo(bs: seq<Block>, i: nat, j: nat, a: int)
    requires i < j < |bs| && bs[i].Has(a) && bs[j].Has(a)
    ensures 2 <= Cover(bs, a)
  {
    CoverSplit(bs, j, a);
    CoverSplit(bs[..j], i, a);
  }

  lemma {:induction false} CoverWitness(bs: seq<Block>, a: int) returns (k: nat)
    requires 0 < Cover(bs, a)
    ensures k < |bs| && bs[k].Has(a)
  {
    if bs[0].Has(a) {
      k := 0;
    } else {
      var r := CoverWitness(bs[1..], a);
      k := r + 1;
    }
  }

  lemma DisjointPair(bs: seq<Block>, i: nat, j: nat, a: int)
    requires Disjoint(bs) && i < |bs| && j < |bs| && bs[i].Has(a) && bs[j].Has(a)
    ensures i == j
  {
    assert Cover(bs, a) <= 1;
    if i < j { CoverTwo(bs, i, j, a); }
    if j < i { CoverTwo(bs, j, i, a); }
  }

  lemma {:induction false} TotalConcat(xs: seq<Block>, ys: seq<Block>)
    ensures TotalSize(xs + ys) == TotalSize(xs) + TotalSize(ys)
  {
    if ys == [] {
      assert xs + ys == xs;
    } else {
      assert (xs + ys)[..|xs + ys| - 1] == xs + ys[..|ys| - 1];
      TotalConcat(xs, ys[..|ys| - 1]);
    }
  }

  lemma TotalSplit(bs: seq<Block>, k: nat)
    requires k < |bs|
    ensures TotalSize(bs) == TotalSize(bs[..k]) + bs[k].size + TotalSize(bs[k + 1..])
  {
    var head := bs[..k + 1];
    assert head[..k] == bs[..k] && head[k] == bs[k];
    assert TotalSize(head) == TotalSize(bs[..k]) + bs[k].size;
    assert bs == head + bs[k + 1..];
    TotalConcat(head, bs[k + 1..]);
  }

  lemma {:induction false} TotalOfSizes(xs: seq<Block>, ys: seq<Block>)
    requires |xs| == |ys| && forall i :: 0 <= i < |xs| ==> xs[i].size == ys[i].size
    ensures TotalSize(xs) == TotalSize(ys)
  {
    if xs != [] {
      TotalOfSizes(xs[..|xs| - 1], ys[..|ys| - 1]);
    }
  }

  /* ---------- the mass of a list: its covered addresses, counted one by one ---------- */

  ghost function Mass(bs: seq<Block>, n: nat): nat {
    if n == 0 then 0 else Mass(bs, n - 1) + Cover(bs, n - 1)
  }

  lemma {:induction false} MassOfBlock(b: Block, n: nat)
    ensures Mass([b], n) == if n <= b.base then 0 else if n <= b.base + b.size then n - b.base else b.size
  {
    if n != 0 {
      MassOfBlock(b, n - 1);
      CoverSingle(b, n - 1);
    }
  }

  lemma {:induction false} MassConcat(xs: seq<Block>, ys: seq<Block>, n: nat)
    ensures Mass(xs + ys, n) == Mass(xs, n) + Mass(ys, n)
  {
    if n != 0 {
      MassConcat(xs, ys, n - 1);
      CoverConcat(xs, ys, n - 1);
    }
  }

  lemma {:induction false} MassEmpty(n: nat)
    ensures Mass([], n) == 0
  {
    if n != 0 { MassEmpty(n - 1); }
  }

  /** Counting addresses one by one gives the sum of the sizes. */
  lemma {:induction false} MassIsTotal(bs: seq<Block>, n: nat)
    requires InRange(bs, n)
    ensures Mass(bs, n) == TotalSize(bs)
  {
    if bs == [] {
      MassEmpty(n);
    } else {
      var m := |bs| - 1;
      assert bs == bs[..m] + [bs[m]];
      MassIsTotal(bs[..m], n);
      MassConcat(bs[..m], [bs[m]], n);
      MassOfBlock(bs[m], n);
    }
  }

  lemma {:induction false} MassOfTiling(bs: seq<Block>, n: nat)
    requires forall a :: 0 <= a < n ==> Cover(bs, a) == 1
    ensures Mass(bs, n) == n
  {
    if n != 0 { MassOfTiling(bs, n - 1); }
  }

  /* ---------- a merged list is determined by its bytes ---------- */

  /** If merged `xs` frees the same bytes as `ys`, a block of `ys` cannot reach back past a start in `xs`. */
  lemma SameStart(xs: seq<Block>, k: nat, ys: seq<Block>, c: nat, total: int)
    requires total < U32 && InRange(xs, total) && Disjoint(xs) && Merged(xs)
    requires forall a: int :: Cover(xs, a) == Cover(ys, a)
    requires k < |xs| && 0 < xs[k].size && c < |ys| && ys[c].Has(xs[k].base)
    ensures ys[c].base == xs[k].base
  {
    if ys[c].base < xs[k].base {
      var a := xs[k].base - 1;
      CoverSplit(ys, c, a);
      assert Cover(xs, a) == Cover(ys, a);
      var d := CoverWitness(xs, a);
      assert xs[d] in xs;
      if xs[d].Has(xs[k].base) { DisjointPair(xs, d, k, xs[k].base); }
      var adjoin := Adjoin(xs, d, k);
      assert false;
    }
  }

  /** ... nor can it end before a block of `xs` with the same start. */
  lemma EndsNoEarlier(xs: seq<Block>, k: nat, ys: seq<Block>, c: nat, total: int)
    requires total < U32 && InRange(ys, total) && Disjoint(ys) && Merged(ys)
    requires forall a: int :: Cover(xs, a) == Cover(ys, a)
    requires k < |xs| && c < |ys| && 0 < ys[c].size && ys[c].base == xs[k].base
    ensures xs[k].size <= ys[c].size
  {
    var e := ys[c].base + ys[c].size;
    if e < xs[k].base + xs[k].size {
      CoverSplit(xs, k, e);
      assert Cover(xs, e) == Cover(ys, e);
      var d := CoverWitness(ys, e);
      assert ys[c] in ys;
      if ys[d].Has(e - 1) { DisjointPair(ys, d, c, e - 1); }
      var adjoin := Adjoin(ys, c, d);
      assert false;
    }
  }

  lemma CanonicalOneWay(xs: seq<Block>, ys: seq<Block>, total: int, k: nat)
    requires total < U32 && InRange(xs, total) && InRange(ys, total)
    requires Disjoint(xs) && Disjoint(ys) && Merged(xs) && Merged(ys)
    requires forall a: int :: Cover(xs, a) == Cover(ys, a)
    requires k < |xs| && 0 < xs[k].size
    ensures xs[k] in ys
  {
    CoverSplit(xs, k, xs[k].base);
    assert Cover(ys, xs[k].base) == Cover(xs, xs[k].base);
    var c := CoverWitness(ys, xs[k].base);
    SameStart(xs, k, ys, c, total);
    EndsNoEarlier(xs, k, ys, c, total);
    EndsNoEarlier(ys, c, xs, k, total);
    assert ys[c] == xs[k];
  }

  /** Two merged lists that free the same bytes hold the same blocks. */
  lemma Canonical(xs: seq<Block>, ys: seq<Block>, total: int)
    requires total < U32 && InRange(xs, total) && InRange(ys, total)
    requires Disjoint(xs) && Disjoint(ys) && Merged(xs) && Merged(ys)
    requires forall a: int :: Cover(xs, a) == Cover(ys, a)
    ensures SameBlocks(xs, ys)
  {
    forall b: Block | 0 < b.size
      ensures b in xs <==> b in ys
    {
      if b in xs {
        var k :| 0 <= k < |xs| && xs[k] == b;
        CanonicalOneWay(xs, ys, total, k);
      }
      if b in ys {
        var k :| 0 <= k < |ys| && ys[k] == b;
        CanonicalOneWay(ys, xs, total, k);
      }
    }
  }

  /** Blocks of no bytes have to be set apart: releasing an empty segment can leave one behind, and then the same
      bytes are free, fully merged, in a list with one block more. */
  lemma EmptyBlockLeftBehind()
    ensures var before, after := [Block(0, 10)], [Block(0, 10), Block(5, 0)];
            && FullyMerged(before) && FullyMerged(after) && (forall a: int :: Cover(after, a) == Cover(before, a))
            && Block(5, 0) in after && Block(5, 0) !in before
  {
    var before, after := [Block(0, 10)], [Block(0, 10), Block(5, 0)];
    forall a: int ensures Cover(after, a) == Cover(before, a) {
      CoverConcat(before, [Block(5, 0)], a);
      assert after == before + [Block(5, 0)];
      CoverSingle(Block(5, 0), a);
    }
  }

  /** A stretch of memory that is all free lies in one block of a merged list. */
  lemma {:induction false} RunIsOneBlock(bs: seq<Block>, lo: nat, hi: nat, total: int) returns (k: nat)
    requires lo < hi && total < U32 && InRange(bs, total) && Disjoint(bs) && Merged(bs)
    requires forall a :: lo <= a < hi ==> 0 < Cover(bs, a)
    ensures k < |bs| && bs[k].base <= lo && hi <= bs[k].base + bs[k].size
    decreases hi
  {
    var d := CoverWitness(bs, hi - 1);
    k := d;
    if lo < hi - 1 {
      k := RunIsOneBlock(bs, lo, hi - 1, total);
      assert bs[k] in bs && bs[d] in bs;
      if !bs[k].Has(hi - 1) {
        if bs[d].base < hi - 1 { DisjointPair(bs, k, d, hi - 2); }
        var adjoin := Adjoin(bs, k, d);
        assert false;
      }
    }
  }

  lemma NothingOutside(bs: seq<Block>, total: int, a: int)
    requires InRange(bs, total)
    ensures a < 0 || total <= a ==> Cover(bs, a) == 0
  {
    if 0 < Cover(bs, a) {
      var k := CoverWitness(bs, a);
      assert bs[k] in bs;
    }
  }

  /** A merged list that frees all of memory is one block, so any request up to `total` fits in it. */
  lemma WholeMemoryIsOneBlock(bs: seq<Block>, total: int)
    requires 0 < total < U32 && InRange(bs, total) && Disjoint(bs) && Merged(bs)
    requires forall a :: 0 <= a < total ==> Cover(bs, a) == 1
    ensures Block(0, total) in bs
  {
    var one := [Block(0, total)];
    forall a: int
      ensures Cover(one, a) == Cover(bs, a)
    {
      CoverSingle(Block(0, total), a);
      NothingOutside(bs, total, a);
    }
    assert Disjoint(one) by {
      forall a: int
        ensures Cover(one, a) <= 1
      { assert Cover(one, a) == Cover(bs, a); }
    }
    CanonicalOneWay(one, bs, total, 0);
  }

  /* ---------- allocation ---------- */

  /** Best fit prefers the smaller of two blocks, worst fit the larger. */
  predicate Better(worstFit: bool, b: Block, c: Block) {
    if worstFit then b.size > c.size else b.size < c.size
  }

  /** `k` is the first of the preferred blocks among those that fit. */
  ghost predicate Chosen(bs: seq<Block>, k: int, size: u32, worstFit: bool) {
    && 0 <= k < |bs| && size <= bs[k].size
    && forall i :: 0 <= i < |bs| && size <= bs[i].size ==>
         !Better(worstFit, bs[i], bs[k]) && (i < k ==> Better(worstFit, bs[k], bs[i]))
  }

  ghost predicate NoneFits(bs: seq<Block>, size: u32) {
    forall b :: b in bs ==> b.size < size
  }

  /** `bs` after taking `size` bytes from the front of block `k`. */
  ghost function Carve(bs: seq<Block>, k: nat, size: u32): seq<Block>
    requires k < |bs| && size <= bs[k].size
  {
    if bs[k].size == size then bs[..k] + bs[k + 1..]
    else bs[k := Block(Add32(bs[k].base, size), bs[k].size - size)]
  }

  /** One allocation: `base` is that of the block chosen for `size` bytes, which are taken from its front. */
  ghost predicate Gives(before: seq<Block>, after: seq<Block>, size: u32, base: u32, worstFit: bool) {
    exists k :: Chosen(before, k, size, worstFit) && base == before[k].base && after == Carve(before, k, size)
  }

  /** There is one first best block. */
  lemma OneChosen(bs: seq<Block>, k: int, m: int, size: u32, worstFit: bool)
    requires Chosen(bs, k, size, worstFit) && Chosen(bs, m, size, worstFit)
    ensures k == m
  {}

  lemma GivesSame(before: seq<Block>, after: seq<Block>, after': seq<Block>, size: u32, base: u32, base': u32, worstFit: bool)
    requires Gives(before, after, size, base, worstFit) && Gives(before, after', size, base', worstFit)
    ensures after == after' && base == base'
  {
    hide Carve;
    var k :| Chosen(before, k, size, worstFit) && base == before[k].base && after == Carve(before, k, size);
    var m :| Chosen(before, m, size, worstFit) && base' == before[m].base && after' == Carve(before, m, size);
    OneChosen(before, k, m, size, worstFit);
  }

  lemma GivesFits(before: seq<Block>, after: seq<Block>, size: u32, base: u32, worstFit: bool)
    requires Gives(before, after, size, base, worstFit)
    ensures !NoneFits(before, size)
  {
    hide Carve;
    var k :| Chosen(before, k, size, worstFit);
    assert before[k] in before;
  }

  lemma CarveCover(bs: seq<Block>, k: nat, size: u32, a: int)
    requires k < |bs| && size <= bs[k].size && bs[k].base + bs[k].size < U32
    ensures Cover(Carve(bs, k, size), a) == Cover(bs, a) - One(Block(bs[k].base, size).Has(a))
  {
    if bs[k].size == size {
      CoverRemove(bs, k, a);
    } else {
      CoverUpdate(bs, k, Carve(bs, k, size)[k], a);
    }
  }

  lemma CarveMerged(bs: seq<Block>, k: nat, size: u32, total: int, i: int, j: int)
    requires k < |bs| && size <= bs[k].size
    requires total < U32 && InRange(bs, total) && Disjoint(bs) && Merged(bs)
    requires Adjoin(Carve(bs, k, size), i, j)
    ensures Carve(bs, k, size)[i].size == 0 || Carve(bs, k, size)[j].size == 0
  {
    hide Disjoint, Merged, Adjoin;
    if bs[k].size == size {
      CarveWholeMerged(bs, k, i, j);
    } else {
      AdjoinBounds(Carve(bs, k, size), i, j);
      assert bs[k] in bs && bs[i] in bs;
      CarveFrontMerged(bs, k, size, total, i, j);
    }
  }

  lemma AdjoinBounds(bs: seq<Block>, i: int, j: int)
    requires Adjoin(bs, i, j)
    ensures 0 <= i < |bs| && 0 <= j < |bs|
  {}

  lemma CarveWholeMerged(bs: seq<Block>, k: nat, i: int, j: int)
    requires k < |bs| && Merged(bs) && Adjoin(bs[..k] + bs[k + 1..], i, j)
    ensures 0 <= i < |bs| - 1 && 0 <= j < |bs| - 1
    ensures (bs[..k] + bs[k + 1..])[i].size == 0 || (bs[..k] + bs[k + 1..])[j].size == 0
  {
    assert Adjoin(bs, if i < k then i else i + 1, if j < k then j else j + 1);
  }

  lemma CarveFrontMerged(bs: seq<Block>, k: nat, size: u32, total: int, i: int, j: int)
    requires k < |bs| && size < bs[k].size && bs[k].base + bs[k].size <= total < U32 && Disjoint(bs) && Merged(bs)
    requires 0 <= i < |bs| && bs[i].base + bs[i].size <= total
    requires Adjoin(bs[k := Block(bs[k].base + size, bs[k].size - size)], i, j)
    ensures bs[i].size == 0 || (j != k && bs[j].size == 0) || (i == k && bs[j].size == 0)
  {
    hide Disjoint;
    if j != k || size == 0 {
      assert Adjoin(bs, i, j);
    } else if bs[i].size != 0 {
      DisjointPair(bs, i, k, bs[k].base + size - 1);
    }
  }

  /** Carving removes exactly the bytes handed out and keeps the list merged. */
  lemma CarveKeeps(bs: seq<Block>, k: nat, size: u32, total: int)
    requires k < |bs| && size <= bs[k].size
    requires total < U32 && InRange(bs, total) && Disjoint(bs) && Merged(bs)
    ensures InRange(Carve(bs, k, size), total) && Merged(Carve(bs, k, size)) && Disjoint(Carve(bs, k, size))
    ensures forall a: int ::
      Cover(Carve(bs, k, size), a) == Cover(bs, a) - One(Block(bs[k].base, size).Has(a))
  {
    var cs := Carve(bs, k, size);
    assert bs[k] in bs;
    forall a: int
      ensures Cover(cs, a) == Cover(bs, a) - One(Block(bs[k].base, size).Has(a)) && Cover(cs, a) <= 1
    {
      CarveCover(bs, k, size, a);
      assert Cover(bs, a) <= 1;
    }
    forall b | b in cs
      ensures b.base + b.size <= total
    {
      assert b in bs || (bs[k].size != size && b == cs[k]);
    }
    forall i, j | Adjoin(cs, i, j)
      ensures cs[i].size == 0 || cs[j].size == 0
    {
      CarveMerged(bs, k, size, total, i, j);
    }
  }

  lemma {:induction false} BlockWithinTotal(bs: seq<Block>, k: nat)
    requires k < |bs|
    ensures bs[k].size <= TotalSize(bs)
  {
    TotalSplit(bs, k);
  }

  /* ---------- release ---------- */

  /** `bs` with block `j` absorbed by block `i`. */
  ghost function Fuse(bs: seq<Block>, i: nat, j: nat): seq<Block>
    requires i < |bs| && j < |bs|
  {
    var grown := bs[i := Block(bs[i].base, Add32(bs[i].size, bs[j].size))];
    grown[..j] + grown[j + 1..]
  }

  lemma FuseKeeps(bs: seq<Block>, i: nat, j: nat, total: int)
    requires Adjoin(bs, i, j)
    requires total < U32 && InRange(bs, total)
    ensures InRange(Fuse(bs, i, j), total)
    ensures forall a: int :: Cover(Fuse(bs, i, j), a) == Cover(bs, a)
  {
    assert bs[i] in bs && bs[j] in bs;
    var g := Block(bs[i].base, Add32(bs[i].size, bs[j].size));
    var grown := bs[i := g];
    forall a: int
      ensures Cover(Fuse(bs, i, j), a) == Cover(bs, a)
    {
      CoverUpdate(bs, i, g, a);
      CoverRemove(grown, j, a);
    }
    forall b | b in Fuse(bs, i, j)
      ensures b.base + b.size <= total
    {
      if b in bs {} else { assert b == g; }
    }
  }

  /** A block based at NO_BASE outlives every merge with blocks that are in range. */
  lemma FuseKeepsStray(bs: seq<Block>, i: nat, j: nat, total: int)
    requires Adjoin(bs, i, j) && total < NO_BASE && StrayAmong(bs, total)
    ensures StrayAmong(Fuse(bs, i, j), total)
  {
    var fused := Fuse(bs, i, j);
    assert bs[i] in bs && bs[j] in bs;
    var s :| 0 <= s < |bs| && bs[s].base == NO_BASE;
    assert s == j ==> bs[i].base == NO_BASE;
    var s' := if s == j then i else s;
    assert fused[if s' < j then s' else s' - 1].base == NO_BASE;
    forall b | b in fused
      ensures b.base == NO_BASE || b.base + b.size <= total
    {
      assert b in bs || b == Block(bs[i].base, Add32(bs[i].size, bs[j].size));
    }
  }

  /** Some block is based at NO_BASE; all others are in range. */
  ghost predicate StrayAmong(bs: seq<Block>, total: int) {
    && (exists b :: b in bs && b.base == NO_BASE)
    && (forall b :: b in bs ==> b.base == NO_BASE || b.base + b.size <= total)
  }

  /** `after` frees the bytes of `before` and of `b`, merged; a block that is not memory is not lost either. */
  ghost predicate Released(after: seq<Block>, before: seq<Block>, b: Block) {
    && FullyMerged(after)
    && (forall total: int :: total < U32 && InRange(before, total) && b.base + b.size <= total ==>
          InRange(after, total) && forall a: int :: Cover(after, a) == Cover(before, a) + One(b.Has(a)))
    && (forall total: int :: total < NO_BASE && StrayAmong(before + [b], total) ==> StrayAmong(after, total))
  }

  /** A block based at NO_BASE, once released, stays in the list whatever is released after it. */
  lemma Strays(after: seq<Block>, before: seq<Block>, b: Block, total: int)
    requires Released(after, before, b) && total < NO_BASE
    requires (InRange(before, total) && b.base == NO_BASE)
             || (StrayAmong(before, total) && (b.base == NO_BASE || b.base + b.size <= total))
    ensures StrayAmong(after, total) && !InRange(after, total)
  {
    if StrayAmong(before, total) {
      var c :| c in before && c.base == NO_BASE;
      assert c in before + [b];
    } else {
      assert (before + [b])[|before|] == b;
    }
    assert StrayAmong(before + [b], total);
  }

  class FreeList {
    var blocks: seq<Block>
    const worstFit: bool

    constructor (worstFit: bool)
      ensures blocks == [] && this.worstFit == worstFit
    {
      blocks := [];
      this.worstFit := worstFit;
    }

    /** bloques_asignar. `k` is the index of the block it carved, or -1. */
    method Assign(size: u32) returns (base: u32, ghost k: int)
      modifies this
      ensures k == -1 ==> NoneFits(old(blocks), size) && base == NO_BASE && blocks == old(blocks)
      ensures k != -1 ==> Chosen(old(blocks), k, size, worstFit) && base == old(blocks)[k].base
                          && blocks == Carve(old(blocks), k, size)
    {
      var best, bestSize := -1, 0;
      var i := 0;
      while i < |blocks|
        invariant 0 <= i <= |blocks|
        invariant blocks == old(blocks)
        invariant best == -1 ==> forall m :: 0 <= m < i ==> blocks[m].size < size
        invariant best != -1 ==> 0 <= best < i && bestSize == blocks[best].size && size <= bestSize
        invariant best != -1 ==> forall m :: 0 <= m < i && size <= blocks[m].size ==>
                    !Better(worstFit, blocks[m], blocks[best]) && (m < best ==> Better(worstFit, blocks[best], blocks[m]))
      {
        var b := blocks[i];
        if size <= b.size {
          if best == -1 {
            best, bestSize := i, b.size;
          } else if !worstFit && b.size < bestSize {
            best, bestSize := i, b.size;
          } else if worstFit && b.size > bestSize {
            best, bestSize := i, b.size;
          }
        }
        i := i + 1;
      }
      k := best;
      if best == -1 {
        return NO_BASE, -1;
      }
      var chosen := blocks[best];
      base := chosen.base;
      if chosen.size == size {
        blocks := blocks[..best] + blocks[best + 1..];
      } else {
        blocks := blocks[best := Block(Add32(chosen.base, size), chosen.size - size)];
      }
    }

    /** The nested search of bloques_liberar for a block `i` that ends where a block `j` begins. */
    method FindAdjoining() returns (found: bool, i: nat, j: nat)
      ensures found ==> Adjoin(blocks, i, j)
      ensures !found ==> FullyMerged(blocks)
    {
      found, i, j := false, 0, 0;
      while i < |blocks|
        invariant i <= |blocks|
        invariant forall m, n :: m < i ==> !Adjoin(blocks, m, n)
      {
        j := 0;
        while j < |blocks|
          invariant j <= |blocks|
          invariant i < |blocks|
          invariant forall n :: n < j ==> !Adjoin(blocks, i, n)
        {
          if i != j && blocks[i].End() == blocks[j].base {
            return true, i, j;
          }
          j := j + 1;
        }
        i := i + 1;
      }
    }

    /** bloques_liberar: adds the block and merges neighbours until none are left. */
    method Release(base: u32, size: u32)
      modifies this
      ensures Released(blocks, old(blocks), Block(base, size))
    {
      blocks := blocks + [Block(base, size)];
      ghost var added := blocks;
      forall a: int
        ensures Cover(added, a) == Cover(old(blocks), a) + One(Block(base, size).Has(a))
      {
        CoverConcat(old(blocks), [Block(base, size)], a);
        CoverSingle(Block(base, size), a);
      }
      var merging := true;
      while merging
        invariant !merging ==> FullyMerged(blocks)
        invariant forall total: int :: total < U32 && InRange(added, total) ==>
                    InRange(blocks, total) && forall a: int :: Cover(blocks, a) == Cover(added, a)
        invariant forall total: int :: total < NO_BASE && StrayAmong(added, total) ==> StrayAmong(blocks, total)
        decreases |blocks|, merging
      {
        var i, j;
        merging, i, j := FindAdjoining();
        if merging {
          var grown := blocks[i := Block(blocks[i].base, Add32(blocks[i].size, blocks[j].size))];
          forall total: int | total < U32 && InRange(added, total)
            ensures InRange(Fuse(blocks, i, j), total) && forall a: int :: Cover(Fuse(blocks, i, j), a) == Cover(added, a)
          {
            FuseKeeps(blocks, i, j, total);
          }
          forall total: int | total < NO_BASE && StrayAmong(added, total)
            ensures StrayAmong(Fuse(blocks, i, j), total)
          {
            FuseKeepsStray(blocks, i, j, total);
          }
          blocks := grown[..j] + grown[j + 1..];
        }
      }
      forall total: int | total < U32 && InRange(old(blocks), total) && base + size <= total
        ensures InRange(blocks, total)
        ensures forall a: int :: Cover(blocks, a) == Cover(old(blocks), a) + One(Block(base, size).Has(a))
      {
        assert InRange(added, total);
      }
    }

    /** bloques_calcular_espacio_libre. */
    method FreeSpace() returns (total: u32)
      requires TotalSize(blocks) < U32
      ensures total == TotalSize(blocks)
    {
      total := 0;
      var i := 0;
      while i < |blocks|
        invariant 0 <= i <= |blocks|
        invariant total == TotalSize(blocks[..i])
      {
        assert blocks[..i + 1][..i] == blocks[..i];
        assert TotalSize(blocks[..i + 1]) <= TotalSize(blocks) by {
          assert blocks[..i + 1] + blocks[i + 1..] == blocks;
          TotalConcat(blocks[..i + 1], blocks[i + 1..]);
        }
        total := total + blocks[i].size;
        i := i + 1;
      }
      assert blocks[..|blocks|] == blocks;
    }

    /** bloques_reset_a_unico. */
    method ResetToSingle(base: u32, size: u32)
      modifies this
      ensures blocks == if 0 < size then [Block(base, size)] else []
    {
      blocks := [];
      if 0 < size {
        blocks := [Block(base, size)];
      }
    }
  }
}
