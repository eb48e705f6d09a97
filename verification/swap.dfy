/** Swap space: the block allocator of kernel_memory/src/memory_swap.c, the block file of
    swap/src/utils_swap.c, and the copies between RAM and swap of kernel_memory/src/memory_scheduler.c. */
module Swap {
  import opened Words
  import opened MemorySticks

  /** Blocks needed for `limit` bytes, with the `uint32_t` rounding up of the source. */
  function BlocksFor(limit: u32, bs: pos32): u32 {
    (limit + bs - 1) % U32 / bs
  }

  /** Bytes in `b` whole blocks. */
  function Span(b: nat, bs: pos32): nat {
    b * bs
  }

  /** Block `k` of the file; blocks outside the file read as zeros. */
  function BlockAt(content: seq<seq<byte>>, bs: pos32, k: nat): (r: seq<byte>)
    ensures |r| == bs
  {
    if k < |content| && |content[k]| == bs then content[k] else seq(bs, _ => 0)
  }

  /** The first `limit` bytes stored from block `start` on. */
  function SwapBytes(content: seq<seq<byte>>, bs: pos32, start: nat, limit: nat): (r: seq<byte>)
    ensures |r| == limit
    decreases limit
  {
    if limit <= bs then BlockAt(content, bs, start)[..limit]
    else BlockAt(content, bs, start) + SwapBytes(content, bs, start + 1, limit - bs)
  }

  /** Swapped bytes depend only on the blocks that hold them. */
  lemma {:induction false} SwapBytesFrame(c: seq<seq<byte>>, d: seq<seq<byte>>, bs: pos32, start: nat, limit: nat, n: nat)
    requires limit <= Span(n, bs)
    requires forall k :: start <= k < start + n ==> BlockAt(c, bs, k) == BlockAt(d, bs, k)
    ensures SwapBytes(c, bs, start, limit) == SwapBytes(d, bs, start, limit)
    decreases limit
  {
    hide Span, BlockAt;
    SpanStep(n, bs);
    if 0 < limit {
      assert BlockAt(c, bs, start) == BlockAt(d, bs, start);
      if bs < limit {
        SwapBytesFrame(c, d, bs, start + 1, limit - bs, n - 1);
      }
    }
  }

  /** After `b` full blocks come the bytes of the next one. */
  lemma {:induction false} SwapBytesAppend(c: seq<seq<byte>>, bs: pos32, start: nat, b: nat, m: nat, chunk: nat)
    requires m == Span(b, bs) && 0 < chunk <= bs
    ensures SwapBytes(c, bs, start, m + chunk) == SwapBytes(c, bs, start, m) + BlockAt(c, bs, start + b)[..chunk]
    decreases b
  {
    hide Span, BlockAt;
    SpanStep(b, bs);
    var last := BlockAt(c, bs, start + b)[..chunk];
    if b == 0 {
      assert SwapBytes(c, bs, start, 0) == [];
    } else {
      var head, rest := BlockAt(c, bs, start), m - bs;
      SwapBytesAppend(c, bs, start + 1, b - 1, rest, chunk);
      assert start + 1 + (b - 1) == start + b;
      assert SwapBytes(c, bs, start, m) == head + SwapBytes(c, bs, start + 1, rest) by {
        if rest == 0 { assert SwapBytes(c, bs, start + 1, rest) == []; }
      }
      assert SwapBytes(c, bs, start, m + chunk) == head + (SwapBytes(c, bs, start + 1, rest) + last);
    }
  }

  lemma SpanStep(b: nat, bs: pos32)
    ensures Span(0, bs) == 0 && 0 <= Span(b, bs)
    ensures 0 < b ==> 0 <= Span(b - 1, bs) == Span(b, bs) - bs
  {}

  /** Rounding up: the blocks hold the segment, and the last one is needed. */
  lemma BlocksForBounds(limit: u32, bs: pos32)
    requires limit + bs <= U32
    ensures limit <= BlocksFor(limit, bs) * bs < limit + bs
    ensures BlocksFor(limit, bs) <= limit
  {
    var x := limit + bs - 1;
    var n := x / bs;
    assert x == n * bs + x % bs;
    if limit < n {
      ProductMonotone(limit + 1, n, bs);
      assert (limit + 1) * bs == limit * bs + bs;
      ProductMonotone(1, bs, limit);
    }
  }

  lemma NoBlocks(limit: u32, bs: pos32)
    requires limit + bs <= U32
    ensures Span(0, bs) == 0 && (BlocksFor(limit, bs) == 0 <==> limit == 0)
  {
    BlocksForBounds(limit, bs);
  }

  lemma ProductMonotone(x: int, y: int, z: nat)
    requires x <= y
    ensures x * z <= y * z && z * x <= z * y
  {}

  /** Where block `b` of a segment falls and how much of it the segment uses. */
  lemma ChunkBounds(limit: u32, bs: pos32, b: nat)
    requires limit + bs <= U32 && b < BlocksFor(limit, bs)
    ensures Span(b, bs) < limit && Span(b + 1, bs) == Span(b, bs) + bs
    ensures b < BlocksFor(limit, bs) - 1 ==> Span(b, bs) + bs <= limit
    ensures b == BlocksFor(limit, bs) - 1 ==> 0 < limit - Span(b, bs) <= bs
  {
    BlocksForBounds(limit, bs);
    var n := BlocksFor(limit, bs);
    assert (b + 1) * bs == b * bs + bs && (n - 1) * bs == n * bs - bs;
    ProductMonotone(0, b, bs);
    ProductMonotone(b, n - 1, bs);
    if b < n - 1 {
      ProductMonotone(b + 1, n - 1, bs);
    }
  }

  /** The bump allocator. */
  class SwapArea {
    const blockSize: pos32
    const totalBlocks: u32
    var nextBlock: u32

    constructor (blockSize: pos32, totalBlocks: u32)
      ensures this.blockSize == blockSize && this.totalBlocks == totalBlocks && nextBlock == 0
    {
      this.blockSize, this.totalBlocks, nextBlock := blockSize, totalBlocks, 0;
    }

    /** swap_reservar_bloques. The guard is exact as long as `nextBlock + n` does not wrap. */
    method Reserve(n: u32) returns (start: u32)
      modifies this
      ensures old(nextBlock) + n <= totalBlocks ==> start == old(nextBlock) && nextBlock == start + n
      ensures totalBlocks < old(nextBlock) + n < U32 ==> start == NO_BASE && nextBlock == old(nextBlock)
      ensures U32 <= old(nextBlock) + n ==>
                if totalBlocks < old(nextBlock) + n - U32 then start == NO_BASE && nextBlock == old(nextBlock)
                else start == old(nextBlock) && nextBlock == start + n - U32
    {
      if Add32(nextBlock, n) > totalBlocks {
        return NO_BASE;
      }
      start := nextBlock;
      nextBlock := Add32(nextBlock, n);
    }
  }

  /** The block file of the swap module. */
  class SwapFile {
    const blockSize: pos32
    const blocks: array<seq<byte>>

    ghost predicate Valid()
      reads this, blocks
    {
      blocks.Length < U32 && forall k :: 0 <= k < blocks.Length ==> |blocks[k]| == blockSize
    }

    constructor (blockSize: pos32, blockCount: u32)
      ensures Valid() && this.blockSize == blockSize && blocks.Length == blockCount && fresh(blocks)
    {
      this.blockSize := blockSize;
      blocks := new seq<byte>[blockCount](_ => seq(blockSize, _ => 0));
    }

    /** swap_write_block: status 0, or -1 for a block outside the file. */
    method WriteBlock(k: u32, data: seq<byte>) returns (status: int)
      requires Valid() && |data| == blockSize
      modifies blocks
      ensures Valid()
      ensures k < blocks.Length ==> status == 0 && blocks[..] == old(blocks[..])[k := data]
      ensures blocks.Length <= k ==> status == -1 && blocks[..] == old(blocks[..])
    {
      if k >= blocks.Length {
        return -1;
      }
      blocks[k] := data;
      status := 0;
    }

    /** swap_read_block: no data for a block outside the file. */
    method ReadBlock(k: u32) returns (data: Option<seq<byte>>)
      requires Valid()
      ensures data == if k < blocks.Length then Some(blocks[k]) else None
    {
      if k >= blocks.Length {
        return None;
      }
      data := Some(blocks[k]);
    }
  }

  /** One block of volcar_segmento_a_swap: `chunk` bytes of RAM from `at` on, padded with zeros. It fails, and
      writes nothing, exactly when they are not all in RAM. */
  method DumpBlock(bank: Bank, file: SwapFile, at: u32, chunk: u32, k: u32) returns (ok: bool)
    requires bank.Valid() && file.Valid() && file.blocks !in bank.Repr
    requires 0 < chunk <= file.blockSize && k < file.blocks.Length
    modifies file.blocks
    ensures file.Valid() && bank.Valid()
    ensures ok <==> at + chunk <= |bank.flat|
    ensures !ok ==> file.blocks[..] == old(file.blocks[..])
    ensures |file.blocks[k]| == file.blockSize && file.blocks[..] == old(file.blocks[..])[k := file.blocks[k]]
    ensures ok ==> file.blocks[k][..chunk] == bank.flat[at..at + chunk]
  {
    var bytes := bank.Read(at, chunk);
    if bytes == None {
      return false;
    }
    var status := file.WriteBlock(k, bytes.value + seq(file.blockSize - chunk, _ => 0));
    ok := status == 0;
  }

  lemma DumpStep(before: seq<seq<byte>>, after: seq<seq<byte>>, bs: pos32, start: nat, b: nat, done: nat, chunk: nat,
                 flat: seq<byte>, base: nat)
    requires done == Span(b, bs) && 0 < chunk <= bs && base + done + chunk <= |flat|
    requires start + b < |before| == |after| && |after[start + b]| == bs && after == before[start + b := after[start + b]]
    requires after[start + b][..chunk] == flat[base + done..base + done + chunk]
    requires SwapBytes(before, bs, start, done) == flat[base..base + done]
    ensures SwapBytes(after, bs, start, done + chunk) == flat[base..base + (done + chunk)]
  {
    hide SwapBytes, Span;
    SwapBytesFrame(before, after, bs, start, done, b);
    SwapBytesAppend(after, bs, start, b, done, chunk);
  }

  /** volcar_segmento_a_swap. It fails exactly when the segment is not in RAM. Every write passes the range check
      of the swap module, and when all are done the reserved blocks hold the segment. */
  method DumpSegment(bank: Bank, file: SwapFile, base: u32, limit: u32, start: u32) returns (ok: bool)
    requires bank.Valid() && file.Valid() && file.blocks !in bank.Repr
    requires limit + file.blockSize <= U32 && start + BlocksFor(limit, file.blockSize) <= file.blocks.Length
    modifies file.blocks
    ensures file.Valid() && bank.Valid()
    ensures ok <==> limit == 0 || base + limit <= |bank.flat|
    ensures base + limit <= |bank.flat| ==> SwapBytes(file.blocks[..], file.blockSize, start, limit) == bank.flat[base..base + limit]
    ensures forall k :: 0 <= k < file.blocks.Length && !(start <= k < start + BlocksFor(limit, file.blockSize)) ==>
              file.blocks[k] == old(file.blocks[k])
  {
    hide BlocksFor, SwapBytes, Span, BlockAt, DumpState;
    var bs := file.blockSize;
    var n := BlocksFor(limit, bs);
    var b := 0;
    ghost var done, content, flat := 0, file.blocks[..], bank.flat;
    DumpBegins(content, bs, start, limit, flat, base);
    while b < n
      invariant 0 <= b <= n && 0 <= done && file.Valid() && bank.Valid() && |content| == file.blocks.Length
      invariant DumpState(file.blocks[..], content, bs, start, limit, flat, base, b, done)
    {
      DumpNext(file.blocks[..], content, bs, start, limit, flat, base, b, done);
      var chunk := if b == n - 1 then limit - Span(b, bs) else bs;
      ghost var before := file.blocks[..];
      var stored := DumpBlock(bank, file, Add32(base, Span(b, bs)), chunk, start + b);
      if !stored {
        DumpEnds(before, content, bs, start, limit, flat, base, b, done);
        return false;
      }
      DumpAdvances(before, file.blocks[..], content, bs, start, limit, flat, base, b, done, chunk);
      done := done + chunk;
      b := b + 1;
    }
    DumpEnds(file.blocks[..], content, bs, start, limit, flat, base, b, done);
    ok := true;
  }

  /** The invariant of that loop: the first `b` blocks, `done` bytes, are written, and no other blocks. */
  ghost predicate DumpState(blocks: seq<seq<byte>>, content: seq<seq<byte>>, bs: pos32, start: nat, limit: u32, flat: seq<byte>,
                            base: u32, b: nat, done: nat) {
    && b <= BlocksFor(limit, bs) && done <= limit
    && (if b < BlocksFor(limit, bs) then done == Span(b, bs) else done == limit)
    && (0 < b ==> 0 < done && base + done <= |flat|)
    && (base + done <= |flat| ==> SwapBytes(blocks, bs, start, done) == flat[base..base + done])
    && SameOutside(blocks, content, start, BlocksFor(limit, bs))
  }

  lemma DumpBegins(content: seq<seq<byte>>, bs: pos32, start: nat, limit: u32, flat: seq<byte>, base: u32)
    requires limit + bs <= U32
    ensures DumpState(content, content, bs, start, limit, flat, base, 0, 0)
  {
    hide BlocksFor, SwapBytes, Span;
    NoBlocks(limit, bs);
    assert SwapBytes(content, bs, start, 0) == [];
  }

  lemma DumpNext(blocks: seq<seq<byte>>, content: seq<seq<byte>>, bs: pos32, start: nat, limit: u32, flat: seq<byte>, base: u32,
                 b: nat, done: nat)
    requires DumpState(blocks, content, bs, start, limit, flat, base, b, done) && |flat| < U32
    requires limit + bs <= U32 && b < BlocksFor(limit, bs)
    ensures var chunk := if b == BlocksFor(limit, bs) - 1 then limit - Span(b, bs) else bs;
            && 0 < chunk <= bs && Span(b, bs) < limit && done == Span(b, bs) && done + chunk <= limit
            && Add32(base, Span(b, bs)) == base + done && |blocks| == |content|
  {
    hide BlocksFor, SwapBytes, Span, SameOutside;
    ChunkBounds(limit, bs, b);
    FirstSpan(bs);
    assert SameOutside(blocks, content, start, BlocksFor(limit, bs));
    OnlyInside(blocks, content, start, BlocksFor(limit, bs));
  }

  lemma DumpAdvances(before: seq<seq<byte>>, blocks: seq<seq<byte>>, content: seq<seq<byte>>, bs: pos32, start: nat, limit: u32,
                     flat: seq<byte>, base: u32, b: nat, done: nat, chunk: nat)
    requires DumpState(before, content, bs, start, limit, flat, base, b, done) && limit + bs <= U32 && b < BlocksFor(limit, bs)
    requires chunk == (if b == BlocksFor(limit, bs) - 1 then limit - Span(b, bs) else bs) && base + done + chunk <= |flat|
    requires start + b < |before| == |blocks| && |blocks[start + b]| == bs && blocks == before[start + b := blocks[start + b]]
    requires blocks[start + b][..chunk] == flat[base + done..base + done + chunk]
    ensures DumpState(blocks, content, bs, start, limit, flat, base, b + 1, done + chunk)
  {
    hide BlocksFor, SwapBytes, Span, SameOutside;
    ChunkBounds(limit, bs, b);
    DumpStep(before, blocks, bs, start, b, done, chunk, flat, base);
    UpdateInside(blocks, before, content, start, BlocksFor(limit, bs), start + b);
  }

  lemma DumpEnds(blocks: seq<seq<byte>>, content: seq<seq<byte>>, bs: pos32, start: nat, limit: u32, flat: seq<byte>, base: u32,
                 b: nat, done: nat)
    requires DumpState(blocks, content, bs, start, limit, flat, base, b, done) && limit + bs <= U32
    ensures |blocks| == |content|
    ensures forall k :: 0 <= k < |content| && !(start <= k < start + BlocksFor(limit, bs)) ==> blocks[k] == content[k]
    ensures b == BlocksFor(limit, bs) ==>
      && (limit == 0 || base + limit <= |flat|)
      && (base + limit <= |flat| ==> SwapBytes(blocks, bs, start, limit) == flat[base..base + limit])
  {
    hide BlocksFor, SwapBytes, Span, SameOutside;
    NoBlocks(limit, bs);
    OnlyInside(blocks, content, start, BlocksFor(limit, bs));
  }

  lemma UpdateInside<T>(h: seq<T>, g: seq<T>, f: seq<T>, a: int, n: int, k: nat)
    requires SameOutside(g, f, a, n) && a <= k < a + n && k < |h| == |g| && h == g[k := h[k]]
    ensures SameOutside(h, f, a, n)
  {}

  lemma OnlyInside<T>(g: seq<T>, f: seq<T>, a: int, n: int)
    requires SameOutside(g, f, a, n)
    ensures |g| == |f| && forall k :: 0 <= k < |f| && !(a <= k < a + n) ==> g[k] == f[k]
  {}

  lemma FirstSpan(bs: pos32)
    ensures Span(0, bs) == 0
  {}

  /** One block of transferir_swap_a_ram; false when the swap module rejects block `k`. */
  method LoadBlock(bank: Bank, file: SwapFile, at: u32, chunk: u32, k: u32) returns (ok: bool)
    requires bank.Valid() && file.Valid() && file.blocks !in bank.Repr
    requires at + chunk <= |bank.flat| && 0 < chunk <= file.blockSize
    modifies bank`flat, bank.Repr
    ensures file.Valid() && bank.Valid() && file.blocks[..] == old(file.blocks[..])
    ensures ok <==> k < file.blocks.Length
    ensures ok ==> bank.flat == Overlay(old(bank.flat), at, BlockAt(file.blocks[..], file.blockSize, k)[..chunk])
    ensures !ok ==> bank.flat == old(bank.flat)
  {
    var data := file.ReadBlock(k);
    if data == None {
      return false;
    }
    var _ := bank.Write(at, data.value[..chunk]);
    ok := true;
  }

  lemma SliceJoin(f: seq<byte>, a: nat, m: nat, n: nat)
    requires a + m + n <= |f|
    ensures f[a..a + (m + n)] == f[a..a + m] + f[a + m..a + m + n]
  {}

  lemma OverlaySlices(f: seq<byte>, g: seq<byte>, base: nat, done: nat, d: seq<byte>)
    requires g == Overlay(f, base + done, d) && base + done + |d| <= |f|
    ensures g[base..base + done] == f[base..base + done] && g[base + done..base + done + |d|] == d
  {}

  lemma LoadStep(content: seq<seq<byte>>, bs: pos32, start: nat, b: nat, done: nat, chunk: nat,
                 before: seq<byte>, after: seq<byte>, base: nat)
    requires done == Span(b, bs) && 0 < chunk <= bs && base + done + chunk <= |before|
    requires after == Overlay(before, base + done, BlockAt(content, bs, start + b)[..chunk])
    requires before[base..base + done] == SwapBytes(content, bs, start, done)
    ensures after[base..base + (done + chunk)] == SwapBytes(content, bs, start, done + chunk)
  {
    hide SwapBytes, Span, Overlay, BlockAt;
    SwapBytesAppend(content, bs, start, b, done, chunk);
    OverlaySlices(before, after, base, done, BlockAt(content, bs, start + b)[..chunk]);
    SliceJoin(after, base, done, chunk);
  }

  /** `g` differs from `f` only in the `n` places from `a` on. */
  ghost predicate SameOutside<T>(g: seq<T>, f: seq<T>, a: int, n: int) {
    |g| == |f| && forall i :: 0 <= i < |f| && !(a <= i < a + n) ==> g[i] == f[i]
  }

  lemma OverlayInside<T>(h: seq<T>, g: seq<T>, f: seq<T>, base: int, limit: int, a: int, d: seq<T>)
    requires SameOutside(g, f, base, limit) && h == Overlay(g, a, d)
    requires base <= a && a + |d| <= base + limit
    ensures SameOutside(h, f, base, limit)
  {}

  /** The inner loop of transferir_swap_a_ram. It reports failure when a block is outside the swap file. */
  method LoadSegment(bank: Bank, file: SwapFile, base: u32, limit: u32, start: u32) returns (ok: bool)
    requires bank.Valid() && file.Valid() && file.blocks !in bank.Repr
    requires base + limit <= |bank.flat| && limit + file.blockSize <= U32
    modifies bank`flat, bank.Repr
    ensures file.Valid() && bank.Valid() && file.blocks[..] == old(file.blocks[..])
    ensures SameOutside(bank.flat, old(bank.flat), base, limit)
    ensures limit == 0 ==> ok
    ensures start + BlocksFor(limit, file.blockSize) <= file.blocks.Length ==>
              ok && bank.flat[base..base + limit] == SwapBytes(file.blocks[..], file.blockSize, start, limit)
  {
    hide BlocksFor, SwapBytes, Span, BlockAt, SameOutside, Overlay, LoadState;
    var bs := file.blockSize;
    var n := BlocksFor(limit, bs);
    var b := 0;
    ghost var done, first, content := 0, bank.flat, file.blocks[..];
    LoadBegins(first, content, bs, start, limit, base);
    while b < n
      invariant 0 <= b <= n && 0 <= done && file.Valid() && bank.Valid() && file.blocks[..] == content
      invariant LoadState(bank.flat, first, content, bs, start, limit, base, b, done)
    {
      LoadNext(bank.flat, first, content, bs, start, limit, base, b, done);
      var chunk := if b == n - 1 then limit - Span(b, bs) else bs;
      ghost var before := bank.flat;
      var read := LoadBlock(bank, file, base + Span(b, bs), chunk, Add32(start, b));
      if !read {
        return false;
      }
      LoadAdvances(before, bank.flat, first, content, bs, start, limit, base, b, done, chunk);
      done := done + chunk;
      b := b + 1;
    }
    LoadEnds(bank.flat, first, content, bs, start, limit, base, b, done);
    ok := true;
  }

  /** The invariant of that loop: the first `b` blocks are in RAM, if they are blocks of the file, and nothing outside the
      segment has changed. */
  ghost predicate LoadState(flat: seq<byte>, first: seq<byte>, content: seq<seq<byte>>, bs: pos32, start: nat, limit: u32, base: u32,
                            b: nat, done: nat) {
    && b <= BlocksFor(limit, bs) && done <= limit && |flat| == |first| && base + limit <= |flat|
    && (if b < BlocksFor(limit, bs) then done == Span(b, bs) else done == limit)
    && (start + BlocksFor(limit, bs) <= |content| ==> flat[base..base + done] == SwapBytes(content, bs, start, done))
    && SameOutside(flat, first, base, limit)
  }

  lemma LoadBegins(flat: seq<byte>, content: seq<seq<byte>>, bs: pos32, start: nat, limit: u32, base: u32)
    requires limit + bs <= U32 && base + limit <= |flat|
    ensures LoadState(flat, flat, content, bs, start, limit, base, 0, 0)
    ensures BlocksFor(limit, bs) == 0 <==> limit == 0
    ensures SameOutside(flat, flat, base, limit)
  {
    hide BlocksFor, SwapBytes, Span;
    NoBlocks(limit, bs);
    assert SwapBytes(content, bs, start, 0) == [];
  }

  lemma LoadNext(flat: seq<byte>, first: seq<byte>, content: seq<seq<byte>>, bs: pos32, start: nat, limit: u32, base: u32, b: nat, done: nat)
    requires LoadState(flat, first, content, bs, start, limit, base, b, done) && limit + bs <= U32 && b < BlocksFor(limit, bs)
    ensures var chunk := if b == BlocksFor(limit, bs) - 1 then limit - Span(b, bs) else bs;
            && 0 < chunk <= bs && Span(b, bs) < limit && done == Span(b, bs) && done + chunk <= limit
            && base + limit <= |flat| == |first|
    ensures SameOutside(flat, first, base, limit)
  {
    hide BlocksFor, SwapBytes, Span, SameOutside;
    ChunkBounds(limit, bs, b);
  }

  lemma LoadAdvances(before: seq<byte>, flat: seq<byte>, first: seq<byte>, content: seq<seq<byte>>, bs: pos32, start: u32, limit: u32,
                     base: u32, b: nat, done: nat, chunk: nat)
    requires LoadState(before, first, content, bs, start, limit, base, b, done) && limit + bs <= U32 && b < BlocksFor(limit, bs)
    requires chunk == if b == BlocksFor(limit, bs) - 1 then limit - Span(b, bs) else bs
    requires |content| < U32 && chunk <= bs
    requires flat == Overlay(before, base + done, BlockAt(content, bs, Add32(start, b))[..chunk])
    ensures LoadState(flat, first, content, bs, start, limit, base, b + 1, done + chunk)
  {
    hide BlocksFor, SwapBytes, Span, SameOutside, Overlay, BlockAt;
    ChunkBounds(limit, bs, b);
    OverlayInside(flat, before, first, base, limit, base + done, BlockAt(content, bs, Add32(start, b))[..chunk]);
    if start + BlocksFor(limit, bs) <= |content| {
      LoadStep(content, bs, start, b, done, chunk, before, flat, base);
    }
  }

  lemma LoadEnds(flat: seq<byte>, first: seq<byte>, content: seq<seq<byte>>, bs: pos32, start: nat, limit: u32, base: u32, b: nat, done: nat)
    requires LoadState(flat, first, content, bs, start, limit, base, b, done) && b == BlocksFor(limit, bs)
    ensures base + limit <= |flat| && SameOutside(flat, first, base, limit)
    ensures start + BlocksFor(limit, bs) <= |content| ==> flat[base..base + limit] == SwapBytes(content, bs, start, limit)
  {
    hide BlocksFor, SwapBytes, Span, SameOutside;
  }
}
