/** The memory unit of a CPU (cpu/src/cpu_mmu.c): from a logical address to the pieces of Memory Sticks that
    hold the bytes. */
module Mmu {
  import opened Words
  import opened MemorySticks
  import opened Segments

  /** `t_traduccion_fisica`. */
  datatype Chunk = Chunk(stick: nat, local: u32, bytes: u32)

  /** The chunk is the part [from, to) of memory, inside one stick. */
  ghost predicate ChunkAt(c: Chunk, from: int, to: int, sticks: seq<Stick>) {
    && c.stick < |sticks| && 0 < c.bytes
    && sticks[c.stick].base + c.local == from && from + c.bytes == to
    && c.local + c.bytes <= sticks[c.stick].data.Length
  }

  /** The chunks follow one another from `a` to `a + size`, each from a later stick: chunk `i` is
      [cuts[i], cuts[i + 1]). */
  ghost predicate Split(chunks: seq<Chunk>, cuts: seq<int>, sticks: seq<Stick>, a: int, size: int) {
    && |cuts| == |chunks| + 1 && cuts[0] == a && cuts[|chunks|] == a + size
    && (forall i :: 0 <= i < |chunks| ==> ChunkAt(chunks[i], cuts[i], cuts[i + 1], sticks))
    && (forall i, j :: 0 <= i < j < |chunks| ==> chunks[i].stick < chunks[j].stick)
  }

  /** What a translation finds: the physical address, or none. Both sums may wrap. */
  function Physical(segs: seq<Segment>, num: int, off: u32, size: u32, total: int): Option<u32> {
    var j := IndexOf(Ids(segs), num);
    if j < 0 || Add32(off, size) > segs[j].limit then None
    else
      var a := Add32(segs[j].base, off);
      if 0 < size && total < a + size then None else Some(a)
  }

  /** mmu_traducir. */
  method Translate(segs: seq<Segment>, num: u32, off: u32, size: u32, sticks: seq<Stick>, ghost flat: seq<byte>,
                   result: array<Chunk>)
    returns (ok: bool, count: nat, physical: u32, ghost cuts: seq<int>)
    requires Tabled(sticks, flat) && |sticks| < result.Length
    modifies result
    ensures ok <==> Physical(segs, num, off, size, |flat|).Some?
    ensures ok ==> physical == Physical(segs, num, off, size, |flat|).value
    ensures ok ==> count < result.Length && Split(result[..count], cuts, sticks, physical, size)
  {
    hide Split;
    var j := FindSegment(segs, num);
    if j < 0 { return false, 0, 0, []; }
    if Add32(off, size) > segs[j].limit { return false, 0, 0, []; }
    physical := Add32(segs[j].base, off);
    ok, count, cuts := Distribute(physical, size, sticks, flat, result);
  }

  /** The loop of mmu_traducir. The result array has one place more than there can be sticks: it is never
      overrun. */
  method Distribute(a: u32, size: u32, sticks: seq<Stick>, ghost flat: seq<byte>, result: array<Chunk>)
    returns (ok: bool, count: nat, ghost cuts: seq<int>)
    requires Tabled(sticks, flat) && |sticks| < result.Length
    modifies result
    ensures ok <==> size == 0 || a + size <= |flat|
    ensures ok ==> count < result.Length && Split(result[..count], cuts, sticks, a, size)
  {
    hide Split;
    count, cuts := 0, [a];
    SplitNone(sticks, a);
    assert result[..0] == [];
    ghost var chunks: seq<Chunk> := [];
    var left, at := size, a;
    while left > 0
      invariant 0 <= left <= size && (0 < left || 0 < size ==> at == a + (size - left))
      invariant left < size ==> at <= |flat|
      invariant 0 <= count == |chunks| <= |sticks| && chunks == result[..count]
      invariant Split(chunks, cuts, sticks, a, size - left)
      invariant 0 < count ==> Ends(chunks[count - 1], sticks, count, left, at)
      decreases left
    {
      var idx := FindStick(sticks, flat, at);
      if idx < 0 {
        return false, count, cuts;
      }
      StickFits(sticks, flat, idx);
      if 0 < count { LaterStick(sticks, flat, chunks[count - 1].stick, idx, at); }
      var local := at - sticks[idx].base;
      var room := sticks[idx].data.Length - local;
      var chunk := if left < room then left else room;
      result[count] := Chunk(idx, local, chunk);
      SplitMore(chunks, cuts, sticks, a, size - left, Chunk(idx, local, chunk));
      chunks, cuts := chunks + [Chunk(idx, local, chunk)], cuts + [at + chunk];
      count := count + 1;
      at, left := at + chunk, left - chunk;
    }
    ok := true;
  }

  /** The last of `count` chunks: it is on no earlier than the `count`-th stick, and unless it is the end of the
      request it goes to the end of its stick. */
  ghost predicate Ends(c: Chunk, sticks: seq<Stick>, count: nat, left: int, at: int) {
    c.stick < |sticks| && count <= c.stick + 1 && (0 < left ==> at == sticks[c.stick].base + sticks[c.stick].data.Length)
  }

  lemma SplitNone(sticks: seq<Stick>, a: int)
    ensures Split([], [a], sticks, a, 0)
  {}

  lemma StickFits(sticks: seq<Stick>, flat: seq<byte>, i: nat)
    requires Tabled(sticks, flat) && i < |sticks|
    ensures sticks[i].base + sticks[i].data.Length <= |flat| < U32 && EndToEnd(sticks, |flat|)
  {
    assert Stores(sticks[i], flat);
  }

  /** An address past the end of a stick is held only by later sticks. */
  lemma LaterStick(sticks: seq<Stick>, flat: seq<byte>, i: nat, j: nat, a: int)
    requires EndToEnd(sticks, |flat|) && i < |sticks| && j < |sticks|
    requires a == sticks[i].base + sticks[i].data.Length && Holds(sticks[j], a)
    ensures i < j
  {
    if j < i { StickOrder(sticks, |flat|, j, i); }
  }

  lemma SplitMore(chunks: seq<Chunk>, cuts: seq<int>, sticks: seq<Stick>, a: int, size: int, c: Chunk)
    requires Split(chunks, cuts, sticks, a, size) && ChunkAt(c, a + size, a + size + c.bytes, sticks)
    requires chunks != [] ==> chunks[|chunks| - 1].stick < c.stick
    ensures Split(chunks + [c], cuts + [a + size + c.bytes], sticks, a, size + c.bytes)
  {
    var chunks', cuts' := chunks + [c], cuts + [a + size + c.bytes];
    forall i | 0 <= i < |chunks'|
      ensures ChunkAt(chunks'[i], cuts'[i], cuts'[i + 1], sticks)
    {
      if i < |chunks| { assert ChunkAt(chunks[i], cuts[i], cuts[i + 1], sticks); }
    }
  }

  /* ---------- what the wrapping sums accept ---------- */

  /** For a segment in RAM the translation accepts the ranges that fit it, and besides them only those
      whose address and whose end both wrap past 2^32. */
  lemma AcceptedRanges(segs: seq<Segment>, num: int, off: u32, size: u32, total: int)
    requires 0 <= IndexOf(Ids(segs), num) && total < U32
    requires segs[IndexOf(Ids(segs), num)].base + segs[IndexOf(Ids(segs), num)].limit <= total
    ensures var s := segs[IndexOf(Ids(segs), num)];
            Physical(segs, num, off, size, total).Some? <==>
              off + size <= s.limit || (U32 <= s.base + off && U32 <= off + size <= U32 + s.limit)
  {}

  /** So while memory and the largest segment together stay within 2^32, a translation succeeds exactly when
      offset + size truly fits in the segment, and gives the address there. */
  lemma TranslationExact(segs: seq<Segment>, num: int, off: u32, size: u32, total: int, segMax: pos32)
    requires 0 <= IndexOf(Ids(segs), num) && off < segMax && total + segMax <= U32
    requires segs[IndexOf(Ids(segs), num)].base + segs[IndexOf(Ids(segs), num)].limit <= total
    ensures var s := segs[IndexOf(Ids(segs), num)];
            Physical(segs, num, off, size, total) == if off + size <= s.limit then Some(s.base + off) else None
  {
    AcceptedRanges(segs, num, off, size, total);
  }

  /** Without that bound it is not so: here a range of nearly 2^32 bytes passes the test of a 32-byte segment. */
  lemma WrappedRangeAccepted()
    ensures var segs := [Segment(0, 0xFFFF_FF00, 0x20, 0)];
            Physical(segs, 0, 0x100, 0xFFFF_FF10, 0xFFFF_FFF0) == Some(0)
  {
    var segs := [Segment(0, 0xFFFF_FF00, 0x20, 0)];
    assert Ids(segs) == [0];
    assert IndexOf([0], 0) == 0;
  }
}
