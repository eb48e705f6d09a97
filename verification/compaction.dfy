/** Compaction (kernel_memory/src/memory_compactacion.c): the entries it collects and sorts, and why sliding
    the segments down one by one, in place, loses nothing. */
module Compaction {
  import opened Words
  import opened FreeBlocks
  import opened Swap
  import opened Segments

  /** Segment `j` of process `p`. */
  datatype Entry = Entry(p: nat, j: nat)

  predicate InTable(procs: seq<Process>, e: Entry) {
    e.p < |procs| && e.j < |procs[e.p].segs|
  }

  /** The segment of an entry; an entry outside the table designates an empty swapped segment. */
  function At(procs: seq<Process>, e: Entry): Segment {
    if InTable(procs, e) then procs[e.p].segs[e.j] else Segment(0, NO_BASE, 0, 0)
  }

  function Put(procs: seq<Process>, e: Entry, s: Segment): seq<Process>
    requires InTable(procs, e)
  {
    procs[e.p := Process(procs[e.p].pid, procs[e.p].segs[e.j := s])]
  }

  lemma PutAt(procs: seq<Process>, e: Entry, s: Segment, d: Entry)
    requires InTable(procs, e)
    ensures At(Put(procs, e, s), d) == if d == e then s else At(procs, d)
  {}

  /** The resident segments found before position (p, j), in table order. */
  ghost function EntriesBefore(procs: seq<Process>, p: nat, j: nat): (r: seq<Entry>)
    requires p <= |procs| && if p < |procs| then j <= |procs[p].segs| else j == 0
    ensures forall e :: e in r <==> At(procs, e).Resident() && (e.p < p || (e.p == p && e.j < j))
    decreases p, j
  {
    if 0 < j then
      EntriesBefore(procs, p, j - 1) + (if procs[p].segs[j - 1].Resident() then [Entry(p, j - 1)] else [])
    else if 0 < p then
      EntriesBefore(procs, p - 1, |procs[p - 1].segs|)
    else []
  }

  ghost function AllEntries(procs: seq<Process>): seq<Entry> {
    EntriesBefore(procs, |procs|, 0)
  }

  lemma {:induction false} EntriesDistinct(procs: seq<Process>, p: nat, j: nat)
    requires p <= |procs| && if p < |procs| then j <= |procs[p].segs| else j == 0
    ensures forall e :: multiset(EntriesBefore(procs, p, j))[e] <= 1
    decreases p, j
  {
    if 0 < j {
      EntriesDistinct(procs, p, j - 1);
      var before := EntriesBefore(procs, p, j - 1);
      assert Entry(p, j - 1) !in before;
      assert multiset(before)[Entry(p, j - 1)] == 0;
    } else if 0 < p {
      EntriesDistinct(procs, p - 1, |procs[p - 1].segs|);
    }
  }

  /** How many of the entries' segments contain address `a`. */
  ghost function Covering(procs: seq<Process>, es: seq<Entry>, a: int): nat
  {
    if es == [] then 0 else One(At(procs, es[0]).Ram().Has(a)) + Covering(procs, es[1..], a)
  }

  lemma {:induction false} CoveringConcat(procs: seq<Process>, xs: seq<Entry>, ys: seq<Entry>, a: int)
    ensures Covering(procs, xs + ys, a) == Covering(procs, xs, a) + Covering(procs, ys, a)
  {
    if xs == [] {
      assert xs + ys == ys;
    } else {
      assert (xs + ys)[1..] == xs[1..] + ys;
      CoveringConcat(procs, xs[1..], ys, a);
    }
  }

  lemma CoveringOne(procs: seq<Process>, e: Entry, a: int)
    ensures Covering(procs, [e], a) == One(At(procs, e).Ram().Has(a))
  {
    assert [e][1..] == [];
    assert Covering(procs, [e][1..], a) == 0;
  }

  lemma CoveringSplit(procs: seq<Process>, es: seq<Entry>, k: nat, a: int)
    requires k < |es|
    ensures Covering(procs, es, a)
         == Covering(procs, es[..k], a) + One(At(procs, es[k]).Ram().Has(a)) + Covering(procs, es[k + 1..], a)
    ensures Covering(procs, es, a)
         == One(At(procs, es[k]).Ram().Has(a)) + Covering(procs, es[..k] + es[k + 1..], a)
  {
    assert es == es[..k] + ([es[k]] + es[k + 1..]);
    CoveringConcat(procs, es[..k], [es[k]] + es[k + 1..], a);
    CoveringConcat(procs, [es[k]], es[k + 1..], a);
    CoveringOne(procs, es[k], a);
    CoveringConcat(procs, es[..k], es[k + 1..], a);
  }

  lemma WithoutOne<T>(xs: seq<T>, ys: seq<T>, k: nat)
    requires xs != [] && k < |ys| && ys[k] == xs[0] && multiset(xs) == multiset(ys)
    ensures multiset(xs[1..]) == multiset(ys[..k] + ys[k + 1..])
  {
    assert xs == [xs[0]] + xs[1..];
    assert ys == ys[..k] + [ys[k]] + ys[k + 1..];
    assert multiset(xs) == multiset{xs[0]} + multiset(xs[1..]);
    assert multiset(ys) == multiset(ys[..k]) + multiset{ys[k]} + multiset(ys[k + 1..]);
    assert multiset(ys[..k] + ys[k + 1..]) == multiset(ys[..k]) + multiset(ys[k + 1..]);
    assert multiset(xs[1..]) == multiset(xs) - multiset{xs[0]};
  }

  /** The count does not depend on the order of the entries. */
  lemma {:induction false} CoveringPermuted(procs: seq<Process>, xs: seq<Entry>, ys: seq<Entry>, a: int)
    requires multiset(xs) == multiset(ys)
    ensures Covering(procs, xs, a) == Covering(procs, ys, a)
  {
    if xs == [] {
      assert |multiset(ys)| == 0;
    } else {
      hide At;
      assert xs[0] in multiset(ys);
      var k :| 0 <= k < |ys| && ys[k] == xs[0];
      var rest := ys[..k] + ys[k + 1..];
      WithoutOne(xs, ys, k);
      CoveringPermuted(procs, xs[1..], rest, a);
      CoveringSplit(procs, ys, k, a);
    }
  }

  /** Counting over the collected entries is counting over the tables. */
  lemma {:induction false} CoveringBefore(procs: seq<Process>, p: nat, j: nat, a: int)
    requires p <= |procs| && if p < |procs| then j <= |procs[p].segs| else j == 0
    ensures Covering(procs, EntriesBefore(procs, p, j), a)
         == Used(procs[..p], a) + if p < |procs| then Cover(RamOf(procs[p].segs[..j]), a) else 0
    decreases p, j
  {
    hide Cover, Covering, Used, EntriesBefore, RamOf;
    if 0 < j {
      CoveringBefore(procs, p, j - 1, a);
      CoveringNext(procs, p, j, a);
    } else {
      if 0 < p {
        CoveringBefore(procs, p - 1, |procs[p - 1].segs|, a);
      }
      CoveringRow(procs, p, a);
    }
  }

  /** The step to a new row, and the start. */
  lemma CoveringRow(procs: seq<Process>, p: nat, a: int)
    requires p <= |procs|
    ensures p < |procs| ==> Cover(RamOf(procs[p].segs[..0]), a) == 0
    ensures p == 0 ==>
      EntriesBefore(procs, 0, 0) == [] && Covering(procs, EntriesBefore(procs, 0, 0), a) == 0 && Used(procs[..0], a) == 0
    ensures 0 < p ==>
      && EntriesBefore(procs, p, 0) == EntriesBefore(procs, p - 1, |procs[p - 1].segs|)
      && Used(procs[..p], a) == Used(procs[..p - 1], a) + Cover(RamOf(procs[p - 1].segs[..|procs[p - 1].segs|]), a)
  {
    assert p < |procs| ==> RamOf(procs[p].segs[..0]) == [];
    if 0 < p {
      assert procs[p - 1].segs[..|procs[p - 1].segs|] == procs[p - 1].segs;
      assert procs[..p] == procs[..p - 1] + [procs[p - 1]];
      UsedAppend(procs[..p - 1], procs[p - 1], a);
    } else {
      assert procs[..0] == [];
    }
  }

  lemma CoveringNext(procs: seq<Process>, p: nat, j: nat, a: int)
    requires p < |procs| && 0 < j <= |procs[p].segs|
    ensures Covering(procs, EntriesBefore(procs, p, j), a) - Covering(procs, EntriesBefore(procs, p, j - 1), a)
         == Cover(RamOf(procs[p].segs[..j]), a) - Cover(RamOf(procs[p].segs[..j - 1]), a)
  {
    hide Cover, Covering;
    var s := procs[p].segs[j - 1];
    assert procs[p].segs[..j] == procs[p].segs[..j - 1] + [s];
    RamOfAppend(procs[p].segs[..j - 1], s, a);
    assert At(procs, Entry(p, j - 1)) == s;
    if s.Resident() {
      CoveringConcat(procs, EntriesBefore(procs, p, j - 1), [Entry(p, j - 1)], a);
      CoveringOne(procs, Entry(p, j - 1), a);
    } else {
      assert EntriesBefore(procs, p, j) == EntriesBefore(procs, p, j - 1);
    }
  }

  /* ---------- the order in which segments slide ---------- */

  ghost predicate SortedByBase(procs: seq<Process>, es: seq<Entry>)
  {
    forall i, k :: 0 <= i < k < |es| ==> At(procs, es[i]).base <= At(procs, es[k]).base
  }

  /** `es` lists every resident segment once, by increasing base. */
  ghost predicate Ordered(procs: seq<Process>, es: seq<Entry>) {
    && multiset(es) == multiset(AllEntries(procs))
    && SortedByBase(procs, es)
  }

  lemma OrderedMembers(procs: seq<Process>, es: seq<Entry>, e: Entry)
    requires Ordered(procs, es)
    ensures e in es <==> At(procs, e).Resident()
  {
    var all := AllEntries(procs);
    assert e in es <==> e in multiset(es);
    assert e in all <==> e in multiset(all);
    if At(procs, e).Resident() { assert InTable(procs, e); }
  }

  lemma OrderedDistinct(procs: seq<Process>, es: seq<Entry>, i: nat, k: nat)
    requires Ordered(procs, es) && i < k < |es|
    ensures es[i] != es[k]
  {
    EntriesDistinct(procs, |procs|, 0);
    assert es == es[..k] + [es[k]] + es[k + 1..];
    assert es[i] in es[..k];
    assert multiset(es) == multiset(es[..k]) + multiset{es[k]} + multiset(es[k + 1..]);
    assert multiset(AllEntries(procs))[es[k]] <= 1;
  }

  lemma OrderedCount(procs: seq<Process>, es: seq<Entry>, a: int)
    requires Ordered(procs, es)
    ensures Covering(procs, es, a) == Used(procs, a)
  {
    CoveringPermuted(procs, es, AllEntries(procs), a);
    CoveringBefore(procs, |procs|, 0, a);
    assert procs[..|procs|] == procs;
  }

  /** Where entry `i` ends up: right after the entries before it. */
  ghost function Start(procs: seq<Process>, es: seq<Entry>, i: nat): nat
    requires i <= |es|
  {
    if i == 0 then 0 else Start(procs, es, i - 1) + At(procs, es[i - 1]).limit
  }

  /** A segment with bytes ends before the next one in the order begins. */
  lemma Apart(procs: seq<Process>, es: seq<Entry>, free: seq<Block>, total: int, i: nat, k: nat)
    requires Ordered(procs, es) && Tiles(free, procs, total)
    requires i < k < |es| && 0 < At(procs, es[i]).limit && 0 < At(procs, es[k]).limit
    ensures At(procs, es[i]).base + At(procs, es[i]).limit <= At(procs, es[k]).base
  {
    var a := At(procs, es[k]).base;
    OrderedMembers(procs, es, es[i]);
    OrderedMembers(procs, es, es[k]);
    if a < At(procs, es[i]).base + At(procs, es[i]).limit {
      CoveringSplit(procs, es, k, a);
      CoveringSplit(procs, es[..k], i, a);
      OrderedCount(procs, es, a);
      assert false;
    }
  }

  lemma EntryOk(procs: seq<Process>, e: Entry, total: int, cfg: Config, next: int)
    requires TablesOk(procs, total, cfg, next) && At(procs, e).Resident()
    ensures InTable(procs, e) && SegmentOk(At(procs, e), total, cfg, next)
  {
    assert procs[e.p] in procs && procs[e.p].segs[e.j] in procs[e.p].segs;
  }

  /** The cursor never passes the base of a segment with bytes still to be moved, nor the end of memory. */
  lemma {:induction false} CursorBehind(procs: seq<Process>, es: seq<Entry>, free: seq<Block>, total: int, cfg: Config,
                                        next: int, i: nat)
    requires Ordered(procs, es) && Tiles(free, procs, total) && TablesOk(procs, total, cfg, next) && i <= |es| && 0 <= total
    ensures Start(procs, es, i) <= total
    ensures forall k :: i <= k < |es| && 0 < At(procs, es[k]).limit ==> Start(procs, es, i) <= At(procs, es[k]).base
  {
    if i != 0 {
      CursorBehind(procs, es, free, total, cfg, next, i - 1);
      OrderedMembers(procs, es, es[i - 1]);
      EntryOk(procs, es[i - 1], total, cfg, next);
      if 0 < At(procs, es[i - 1]).limit {
        forall k | i <= k < |es| && 0 < At(procs, es[k]).limit
          ensures Start(procs, es, i) <= At(procs, es[k]).base
        {
          Apart(procs, es, free, total, i - 1, k);
        }
      }
    }
  }

  lemma {:induction false} StartMonotone(procs: seq<Process>, es: seq<Entry>, i: nat, k: nat)
    requires i <= k <= |es|
    ensures Start(procs, es, i) <= Start(procs, es, k)
    ensures i < k ==> Start(procs, es, i) + At(procs, es[i]).limit <= Start(procs, es, k)
    decreases k - i
  {
    if i < k { StartMonotone(procs, es, i + 1, k); }
  }

  /* ---------- the state after sliding the first `i` entries ---------- */

  ghost predicate SameShape(procs: seq<Process>, procs0: seq<Process>) {
    |procs| == |procs0|
    && forall p :: 0 <= p < |procs| ==> procs[p].pid == procs0[p].pid && |procs[p].segs| == |procs0[p].segs|
  }

  /** The table: entries before `i` moved to their place, everything else as it was. */
  ghost predicate Slid(procs: seq<Process>, procs0: seq<Process>, es: seq<Entry>, i: nat)
    requires i <= |es|
  {
    && SameShape(procs, procs0)
    && (forall m :: 0 <= m < |es| ==> At(procs, es[m]) == Moved(procs0, es, i, m))
    && (forall e :: e !in es ==> At(procs, e) == At(procs0, e))
  }

  /** Entry `m` once the first `i` entries have moved. */
  ghost function Moved(procs0: seq<Process>, es: seq<Entry>, i: nat, m: nat): Segment
    requires m < |es|
  {
    if m < i && Start(procs0, es, m) < U32 then At(procs0, es[m]).(base := Start(procs0, es, m)) else At(procs0, es[m])
  }

  /** RAM: entries before `i` hold their bytes at the new place, the others at the old one. */
  ghost predicate SlidRam(flat: seq<byte>, flat0: seq<byte>, procs0: seq<Process>, es: seq<Entry>, i: nat)
    requires i <= |es|
  {
    && |flat| == |flat0|
    && (forall m :: 0 <= m < i ==> Kept(flat, Start(procs0, es, m), flat0, At(procs0, es[m])))
    && (forall m :: i <= m < |es| ==> Kept(flat, At(procs0, es[m]).base, flat0, At(procs0, es[m])))
  }

  /** `flat` holds at `base` the bytes that `flat0` held in segment `s`. */
  ghost predicate Kept(flat: seq<byte>, base: int, flat0: seq<byte>, s: Segment) {
    && 0 <= base && base + s.limit <= |flat| && s.base + s.limit <= |flat0|
    && forall a :: base <= a < base + s.limit ==> flat[a] == flat0[s.base + a - base]
  }

  lemma SlideTable(procs: seq<Process>, procs0: seq<Process>, es: seq<Entry>, i: nat, cursor: u32)
    requires Ordered(procs0, es) && i < |es| && Slid(procs, procs0, es, i) && cursor == Start(procs0, es, i)
    ensures InTable(procs, es[i]) && At(procs, es[i]) == At(procs0, es[i])
    ensures Slid(Put(procs, es[i], At(procs, es[i]).(base := cursor)), procs0, es, i + 1)
  {
    hide Ordered, Start;
    OrderedMembers(procs0, es, es[i]);
    assert InTable(procs0, es[i]);
    assert At(procs, es[i]) == Moved(procs0, es, i, i);
    var s := At(procs, es[i]).(base := cursor);
    var procs' := Put(procs, es[i], s);
    forall m | 0 <= m < |es|
      ensures At(procs', es[m]) == Moved(procs0, es, i + 1, m)
    {
      PutAt(procs, es[i], s, es[m]);
      assert At(procs, es[m]) == Moved(procs0, es, i, m);
      if m < i { OrderedDistinct(procs0, es, m, i); } else if i < m { OrderedDistinct(procs0, es, i, m); }
    }
    forall e | e !in es
      ensures At(procs', e) == At(procs0, e)
    {
      PutAt(procs, es[i], s, e);
    }
  }

  lemma SlideCount(procs: seq<Process>, procs0: seq<Process>, es: seq<Entry>, i: nat, cursor: u32, a: int)
    requires i < |es| && InTable(procs, es[i]) && At(procs, es[i]) == At(procs0, es[i]) && At(procs0, es[i]).Resident()
    requires cursor == Start(procs0, es, i) && cursor != NO_BASE
    requires Used(procs, a) == One(0 <= a < Start(procs0, es, i)) + Covering(procs0, es[i..], a)
    ensures Used(Put(procs, es[i], At(procs, es[i]).(base := cursor)), a)
         == One(0 <= a < Start(procs0, es, i + 1)) + Covering(procs0, es[i + 1..], a)
  {
    var e := es[i];
    var s := At(procs, e).(base := cursor);
    RamOfUpdate(procs[e.p].segs, e.j, s, a);
    UsedUpdate(procs, e.p, Process(procs[e.p].pid, procs[e.p].segs[e.j := s]), a);
    assert es[i..][0] == e && es[i..][1..] == es[i + 1..];
  }

  lemma SlideRam(flat: seq<byte>, flat': seq<byte>, flat0: seq<byte>, procs0: seq<Process>, es: seq<Entry>, i: nat,
                 data: seq<byte>, free: seq<Block>, cfg: Config, next: int)
    requires Ordered(procs0, es) && Tiles(free, procs0, |flat0|) && TablesOk(procs0, |flat0|, cfg, next)
    requires i < |es| && SlidRam(flat, flat0, procs0, es, i)
    requires |data| == At(procs0, es[i]).limit && Patched(flat', flat, Start(procs0, es, i), data, 0, |data|)
    requires forall o :: 0 <= o < |data| ==> data[o] == flat[At(procs0, es[i]).base + o]
    ensures SlidRam(flat', flat0, procs0, es, i + 1)
  {
    assert Kept(flat, At(procs0, es[i]).base, flat0, At(procs0, es[i]));
    hide Ordered, Tiles, TablesOk, Cover, Kept, Start;
    forall m | 0 <= m < |es|
      ensures Kept(flat', if m < i + 1 then Start(procs0, es, m) else At(procs0, es[m]).base, flat0, At(procs0, es[m]))
    {
      assert Kept(flat, if m < i then Start(procs0, es, m) else At(procs0, es[m]).base, flat0, At(procs0, es[m]));
      SlideOne(flat, flat', flat0, procs0, es, i, data, free, cfg, next, m);
    }
  }

  /** The bytes of entry `m`, before and after the move of entry `i`. */
  lemma SlideOne(flat: seq<byte>, flat': seq<byte>, flat0: seq<byte>, procs0: seq<Process>, es: seq<Entry>, i: nat,
                 data: seq<byte>, free: seq<Block>, cfg: Config, next: int, m: nat)
    requires Ordered(procs0, es) && Tiles(free, procs0, |flat0|) && TablesOk(procs0, |flat0|, cfg, next)
    requires i < |es| && m < |es| && |flat| == |flat0| && At(procs0, es[i]).base + At(procs0, es[i]).limit <= |flat|
    requires Kept(flat, if m < i then Start(procs0, es, m) else At(procs0, es[m]).base, flat0, At(procs0, es[m]))
    requires |data| == At(procs0, es[i]).limit && Patched(flat', flat, Start(procs0, es, i), data, 0, |data|)
    requires forall o :: 0 <= o < |data| ==> data[o] == flat[At(procs0, es[i]).base + o]
    ensures Kept(flat', if m < i + 1 then Start(procs0, es, m) else At(procs0, es[m]).base, flat0, At(procs0, es[m]))
  {
    hide Ordered, Tiles, TablesOk, Cover, Kept, Patched;
    var c := Start(procs0, es, i);
    CursorBehind(procs0, es, free, |flat0|, cfg, next, i);
    if m < i {
      StartMonotone(procs0, es, m, i);
      KeptElsewhere(flat, flat', c, data, Start(procs0, es, m), flat0, At(procs0, es[m]));
    } else if m == i {
      CursorBehind(procs0, es, free, |flat0|, cfg, next, i + 1);
      KeptHere(flat, flat', c, data, flat0, At(procs0, es[i]));
    } else {
      if 0 < At(procs0, es[m]).limit && 0 < |data| {
        Apart(procs0, es, free, |flat0|, i, m);
      }
      KeptElsewhere(flat, flat', c, data, At(procs0, es[m]).base, flat0, At(procs0, es[m]));
    }
  }

  lemma KeptHere(flat: seq<byte>, flat': seq<byte>, c: nat, d: seq<byte>, flat0: seq<byte>, s: Segment)
    requires |d| == s.limit && c + |d| <= |flat|
    requires Patched(flat', flat, c, d, 0, |d|) && Kept(flat, s.base, flat0, s)
    requires forall o :: 0 <= o < |d| ==> d[o] == flat[s.base + o]
    ensures Kept(flat', c, flat0, s)
  {}

  lemma KeptElsewhere(flat: seq<byte>, flat': seq<byte>, c: nat, d: seq<byte>, base: int, flat0: seq<byte>, t: Segment)
    requires Patched(flat', flat, c, d, 0, |d|) && Kept(flat, base, flat0, t)
    requires t.limit == 0 || d == [] || base + t.limit <= c || c + |d| <= base
    ensures Kept(flat', base, flat0, t)
  {}

  /* ---------- what compaction achieves ---------- */

  /** The single free block after the last segment, if there is room for one. */
  function Rest(cursor: u32, total: u32): seq<Block>
    requires cursor <= total
  {
    if cursor < total then [Block(cursor, total - cursor)] else []
  }

  /** Where compaction leaves an entry. */
  lemma CompactedEntry(procs: seq<Process>, procs0: seq<Process>, es: seq<Entry>, free: seq<Block>, total: nat,
                       cfg: Config, next: int, e: Entry) returns (m: nat)
    requires Sound(procs0, free, total, cfg, next) && Ordered(procs0, es) && Slid(procs, procs0, es, |es|)
    ensures !At(procs0, e).Resident() ==> At(procs, e) == At(procs0, e)
    ensures At(procs0, e).Resident() ==>
              && m < |es| && es[m] == e
              && Start(procs0, es, m) + At(procs0, e).limit <= Start(procs0, es, |es|) <= total
              && At(procs, e) == At(procs0, e).(base := Start(procs0, es, m))
  {
    hide BlocksFor;
    m := 0;
    OrderedMembers(procs0, es, e);
    CursorBehind(procs0, es, free, total, cfg, next, |es|);
    if At(procs0, e).Resident() {
      m :| 0 <= m < |es| && es[m] == e;
      StartMonotone(procs0, es, m, |es|);
      assert At(procs, es[m]) == Moved(procs0, es, |es|, m);
    }
  }

  lemma CompactedSound(procs: seq<Process>, procs0: seq<Process>, es: seq<Entry>, free: seq<Block>, total: nat,
                       cfg: Config, next: int)
    requires Sound(procs0, free, total, cfg, next) && Ordered(procs0, es) && Slid(procs, procs0, es, |es|)
    requires forall a: int :: Used(procs, a) == One(0 <= a < Start(procs0, es, |es|))
    ensures Start(procs0, es, |es|) <= total
    ensures Sound(procs, Rest(Start(procs0, es, |es|), total), total, cfg, next)
  {
    hide BlocksFor, Slid, Ordered;
    CursorBehind(procs0, es, free, total, cfg, next, |es|);
    var rest := Rest(Start(procs0, es, |es|), total);
    forall a: int
      ensures Cover(rest, a) + Used(procs, a) == One(0 <= a < total)
    {
      if rest != [] { CoverSingle(rest[0], a); }
    }
    forall q | q in procs
      ensures TableOk(q.segs, total, cfg, next)
    {
      var p :| 0 <= p < |procs| && procs[p] == q;
      forall s | s in q.segs
        ensures SegmentOk(s, total, cfg, next)
      {
        var j :| 0 <= j < |q.segs| && q.segs[j] == s;
        CompactedSegment(procs, procs0, es, free, total, cfg, next, p, j);
      }
    }
  }

  lemma CompactedSegment(procs: seq<Process>, procs0: seq<Process>, es: seq<Entry>, free: seq<Block>, total: nat,
                         cfg: Config, next: int, p: nat, j: nat)
    requires Sound(procs0, free, total, cfg, next) && Ordered(procs0, es) && Slid(procs, procs0, es, |es|)
    requires InTable(procs, Entry(p, j))
    ensures SegmentOk(procs[p].segs[j], total, cfg, next)
  {
    hide BlocksFor, Ordered;
    var m := CompactedEntry(procs, procs0, es, free, total, cfg, next, Entry(p, j));
    assert procs0[p] in procs0 && procs0[p].segs[j] in procs0[p].segs;
    assert At(procs, Entry(p, j)) == procs[p].segs[j] && At(procs0, Entry(p, j)) == procs0[p].segs[j];
  }

  /** Compaction neither creates nor destroys free space. */
  lemma {:induction false} SameResidentTotal(procs: seq<Process>, procs0: seq<Process>)
    requires SameShape(procs, procs0)
    requires forall p, j :: 0 <= p < |procs| && 0 <= j < |procs[p].segs| ==>
      procs[p].segs[j].Ram().size == procs0[p].segs[j].Ram().size
    ensures TotalSize(ResidentBlocks(procs)) == TotalSize(ResidentBlocks(procs0))
  {
    if procs != [] {
      TotalOfSizes(RamOf(procs[0].segs), RamOf(procs0[0].segs));
      TotalConcat(RamOf(procs[0].segs), ResidentBlocks(procs[1..]));
      TotalConcat(RamOf(procs0[0].segs), ResidentBlocks(procs0[1..]));
      SameResidentTotal(procs[1..], procs0[1..]);
    }
  }

  lemma CompactedFreeSpace(procs: seq<Process>, procs0: seq<Process>, es: seq<Entry>, free: seq<Block>, free0: seq<Block>,
                           total: nat, cfg: Config, next: int)
    requires Sound(procs0, free0, total, cfg, next) && Ordered(procs0, es) && Slid(procs, procs0, es, |es|)
    requires Sound(procs, free, total, cfg, next)
    ensures TotalSize(free) == TotalSize(free0)
  {
    hide Ordered, Slid, BlocksFor;
    Conservation(procs, free, total, cfg, next);
    Conservation(procs0, free0, total, cfg, next);
    assert SameShape(procs, procs0) by { SlidShape(procs, procs0, es); }
    forall p, j | 0 <= p < |procs| && 0 <= j < |procs[p].segs|
      ensures procs[p].segs[j].Ram().size == procs0[p].segs[j].Ram().size
    {
      var m := CompactedEntry(procs, procs0, es, free0, total, cfg, next, Entry(p, j));
      assert At(procs, Entry(p, j)) == procs[p].segs[j] && At(procs0, Entry(p, j)) == procs0[p].segs[j];
    }
    SameResidentTotal(procs, procs0);
  }

  lemma SlidShape(procs: seq<Process>, procs0: seq<Process>, es: seq<Entry>)
    requires Slid(procs, procs0, es, |es|)
    ensures SameShape(procs, procs0)
  {}

  lemma CompactedBytes(procs: seq<Process>, procs0: seq<Process>, es: seq<Entry>, flat: seq<byte>, flat0: seq<byte>,
                       free: seq<Block>, content: seq<seq<byte>>, cfg: Config, next: int, e: Entry)
    requires Sound(procs0, free, |flat0|, cfg, next) && Ordered(procs0, es)
    requires Slid(procs, procs0, es, |es|) && SlidRam(flat, flat0, procs0, es, |es|)
    ensures At(procs, e).id == At(procs0, e).id
    ensures Bytes(At(procs, e), flat, content, cfg.blockSize) == Bytes(At(procs0, e), flat0, content, cfg.blockSize)
  {
    hide BlocksFor, SwapBytes, Ordered, Slid, Start, Tiles, TablesOk, InRange, Merged;
    var m := CompactedEntry(procs, procs0, es, free, |flat0|, cfg, next, e);
    if At(procs0, e).Resident() {
      assert Kept(flat, Start(procs0, es, m), flat0, At(procs0, es[m]));
      assert RamBytes(flat, At(procs, e).base, At(procs, e).limit) == RamBytes(flat0, At(procs0, e).base, At(procs0, e).limit);
    }
  }

  lemma CompactedView(procs: seq<Process>, procs0: seq<Process>, es: seq<Entry>, flat: seq<byte>, flat0: seq<byte>,
                      free: seq<Block>, content: seq<seq<byte>>, cfg: Config, next: int)
    requires Sound(procs0, free, |flat0|, cfg, next) && Ordered(procs0, es)
    requires Slid(procs, procs0, es, |es|) && SlidRam(flat, flat0, procs0, es, |es|)
    ensures ViewOf(procs, flat, content, cfg.blockSize) == ViewOf(procs0, flat0, content, cfg.blockSize)
  {
    hide BlocksFor, Bytes, Ordered, Sound, SlidRam;
    forall p | 0 <= p < |procs|
      ensures SegViews(procs[p].segs, flat, content, cfg.blockSize) == SegViews(procs0[p].segs, flat0, content, cfg.blockSize)
    {
      forall j | 0 <= j < |procs[p].segs|
        ensures procs[p].segs[j].id == procs0[p].segs[j].id
        ensures Bytes(procs[p].segs[j], flat, content, cfg.blockSize) == Bytes(procs0[p].segs[j], flat0, content, cfg.blockSize)
      {
        CompactedBytes(procs, procs0, es, flat, flat0, free, content, cfg, next, Entry(p, j));
        assert At(procs, Entry(p, j)) == procs[p].segs[j] && At(procs0, Entry(p, j)) == procs0[p].segs[j];
      }
    }
  }

  /** Compaction never raises the base of a segment with bytes, and keeps such segments in the same order. */
  lemma CompactionLowersAndKeepsOrder(procs: seq<Process>, procs0: seq<Process>, es: seq<Entry>, free: seq<Block>,
                                      total: nat, cfg: Config, next: int, d: Entry, e: Entry)
    requires Sound(procs0, free, total, cfg, next) && Ordered(procs0, es) && Slid(procs, procs0, es, |es|)
    requires At(procs0, d).Resident() && 0 < At(procs0, d).limit
    requires At(procs0, e).Resident() && 0 < At(procs0, e).limit
    ensures At(procs, d).base <= At(procs0, d).base
    ensures At(procs, d).base < At(procs, e).base <==> At(procs0, d).base < At(procs0, e).base
  {
    hide BlocksFor, Slid;
    var m := CompactedEntry(procs, procs0, es, free, total, cfg, next, d);
    var n := CompactedEntry(procs, procs0, es, free, total, cfg, next, e);
    CursorBehind(procs0, es, free, total, cfg, next, m);
    if m < n {
      StartMonotone(procs0, es, m, n);
      Apart(procs0, es, free, total, m, n);
    } else if n < m {
      StartMonotone(procs0, es, n, m);
      Apart(procs0, es, free, total, n, m);
    }
  }

  /* ---------- sorting ---------- */

  /** Exchanges two neighbours. */
  method Exchange(entries: array<Entry>, n: nat, j: nat)
    requires 0 < j < n <= entries.Length
    modifies entries
    ensures multiset(entries[..n]) == old(multiset(entries[..n]))
    ensures entries[j - 1] == old(entries[j]) && entries[j] == old(entries[j - 1])
    ensures forall k :: 0 <= k < entries.Length && k != j - 1 && k != j ==> entries[k] == old(entries[k])
  {
    ghost var before := entries[..n];
    entries[j - 1], entries[j] := entries[j], entries[j - 1];
    assert entries[..n] == before[j - 1 := before[j]][j := before[j - 1]];
  }

  /** qsort with comparar_seg_por_base on the first `n` entries. */
  method SortByBase(entries: array<Entry>, n: nat, procs: seq<Process>)
    requires n <= entries.Length
    modifies entries
    ensures multiset(entries[..n]) == old(multiset(entries[..n]))
    ensures SortedByBase(procs, entries[..n])
  {
    var i := 0;
    while i < n
      invariant 0 <= i <= n
      invariant multiset(entries[..n]) == old(multiset(entries[..n]))
      invariant forall k, m :: 0 <= k < m < i ==> At(procs, entries[k]).base <= At(procs, entries[m]).base
    {
      Insert(entries, n, i, procs);
      i := i + 1;
    }
  }

  /** Moves entry `i` down to its place among the sorted ones before it. */
  method Insert(entries: array<Entry>, n: nat, i: nat, procs: seq<Process>)
    requires i < n <= entries.Length
    requires forall k, m :: 0 <= k < m < i ==> At(procs, entries[k]).base <= At(procs, entries[m]).base
    modifies entries
    ensures multiset(entries[..n]) == old(multiset(entries[..n]))
    ensures forall k, m :: 0 <= k < m <= i ==> At(procs, entries[k]).base <= At(procs, entries[m]).base
  {
    hide At;
    var j := i;
    while 0 < j && At(procs, entries[j]).base < At(procs, entries[j - 1]).base
      invariant 0 <= j <= i
      invariant multiset(entries[..n]) == old(multiset(entries[..n]))
      invariant forall k, m :: 0 <= k < m <= i && m != j ==> At(procs, entries[k]).base <= At(procs, entries[m]).base
    {
      Exchange(entries, n, j);
      j := j - 1;
    }
  }
}
