/** Physical memory spread over Memory Sticks: the stick table of
    kernel_memory/src/memory_conexiones.c and the cross-stick I/O of kernel_memory/src/memory_io.c. */
module MemorySticks {
  import opened Words

  const MAX_STICKS: int := 1000

  datatype Stick = Stick(base: u32, data: array<byte>)

  /** The table `sticks` lays its sticks end to end from address 0, and `flat` is their concatenated content. */
  ghost predicate Tabled(sticks: seq<Stick>, flat: seq<byte>)
    reads set s | s in sticks :: s.data
  {
    && |flat| < U32
    && EndToEnd(sticks, |flat|)
    && (forall i, j :: 0 <= i < j < |sticks| ==> sticks[i].data != sticks[j].data)
    && (forall i :: 0 <= i < |sticks| ==> Stores(sticks[i], flat))
  }

  /** The stick stores the part of `flat` that starts at its base. */
  ghost predicate Stores(s: Stick, flat: seq<byte>)
    reads s.data
  {
    && s.base + s.data.Length <= |flat|
    && forall k :: 0 <= k < s.data.Length ==> s.data[k] == flat[s.base + k]
  }

  ghost predicate EndToEnd(sticks: seq<Stick>, total: int) {
    && (sticks == [] ==> total == 0)
    && (sticks != [] ==> sticks[0].base == 0 && total == sticks[|sticks| - 1].base + sticks[|sticks| - 1].data.Length)
    && (forall i :: 0 < i < |sticks| ==> sticks[i].base == sticks[i - 1].base + sticks[i - 1].data.Length)
  }

  ghost predicate Holds(s: Stick, a: int) {
    s.base <= a < s.base + s.data.Length
  }

  lemma {:induction false} StickOrder(sticks: seq<Stick>, total: int, i: nat, j: nat)
    requires EndToEnd(sticks, total) && i < j < |sticks|
    ensures sticks[i].base + sticks[i].data.Length <= sticks[j].base
    decreases j - i
  {
    assert sticks[j].base == sticks[j - 1].base + sticks[j - 1].data.Length;
    if i < j - 1 {
      StickOrder(sticks, total, i, j - 1);
    }
  }

  lemma {:induction false} StickBound(sticks: seq<Stick>, total: int, i: nat)
    requires EndToEnd(sticks, total) && i < |sticks|
    ensures sticks[i].base + sticks[i].data.Length <= total
  {
    if i < |sticks| - 1 {
      StickOrder(sticks, total, i, |sticks| - 1);
    }
  }

  lemma SticksApart(sticks: seq<Stick>, total: int, i: nat, j: nat)
    requires EndToEnd(sticks, total) && i < |sticks| && j < |sticks| && i != j
    ensures sticks[i].base + sticks[i].data.Length <= sticks[j].base
         || sticks[j].base + sticks[j].data.Length <= sticks[i].base
  {
    hide EndToEnd;
    if i < j {
      StickOrder(sticks, total, i, j);
    } else {
      StickOrder(sticks, total, j, i);
    }
  }

  lemma AppendStick(sticks: seq<Stick>, flat: seq<byte>, s: Stick)
    requires Tabled(sticks, flat)
    requires s.base == |flat| && |flat| + s.data.Length < U32
    requires forall t :: t in sticks ==> t.data != s.data
    ensures Tabled(sticks + [s], flat + s.data[..])
  {
    var after, content := sticks + [s], flat + s.data[..];
    forall i | 0 <= i < |after|
      ensures Stores(after[i], content)
    {
      if i < |sticks| {
        assert Stores(sticks[i], flat);
      }
    }
  }

  /** Every address below the total is in some stick among the first `n`, or at or above where they end. */
  lemma {:induction false} SomeStick(sticks: seq<Stick>, total: int, n: nat, a: nat)
    requires EndToEnd(sticks, total) && n <= |sticks|
    requires n == |sticks| ==> a < total
    requires n < |sticks| ==> a < sticks[n].base
    ensures exists i :: 0 <= i < n && Holds(sticks[i], a)
  {
    if n != 0 {
      if n < |sticks| {
        assert sticks[n].base == sticks[n - 1].base + sticks[n - 1].data.Length;
      }
      if a < sticks[n - 1].base {
        SomeStick(sticks, total, n - 1, a);
      } else {
        assert Holds(sticks[n - 1], a);
      }
    }
  }

  /** conexiones_buscar_stick_por_dir and cpu_buscar_stick_por_dir: the first stick that holds `a`, or -1. */
  method FindStick(sticks: seq<Stick>, ghost flat: seq<byte>, a: u32) returns (idx: int)
    requires Tabled(sticks, flat)
    ensures -1 <= idx < |sticks|
    ensures 0 <= idx <==> a < |flat|
    ensures 0 <= idx ==> Holds(sticks[idx], a)
  {
    idx := -1;
    var i := 0;
    while i < |sticks|
      invariant 0 <= i <= |sticks|
      invariant forall m :: 0 <= m < i ==> !Holds(sticks[m], a)
    {
      assert Stores(sticks[i], flat);
      if sticks[i].base <= a < Add32(sticks[i].base, sticks[i].data.Length) {
        return i;
      }
      i := i + 1;
    }
    if a < |flat| {
      SomeStick(sticks, |flat|, |sticks|, a);
    }
  }

  /** The Memory Sticks of one machine. `flat` is the memory they form together: one flat byte array. */
  class Bank {
    var sticks: seq<Stick>
    ghost var flat: seq<byte>

    ghost var Repr: set<object>  // the arrays of the sticks

    ghost predicate Valid()
      reads this, Repr
    {
      && (forall s :: s in sticks ==> s.data in Repr)
      && this !in Repr
      && Tabled(sticks, flat) && |sticks| <= MAX_STICKS
    }

    constructor ()
      ensures Valid() && sticks == [] && flat == [] && Repr == {}
    {
      Repr := {};
      sticks := [];
      flat := [];
    }

    /** conexiones_agregar_stick: appends a stick after the ones already registered, unless the table is full. */
    method AddStick(size: u32) returns (added: bool, base: u32)
      requires Valid() && |flat| + size < U32
      modifies this
      ensures Valid()
      ensures added <==> |old(sticks)| < MAX_STICKS
      ensures !added ==> sticks == old(sticks) && flat == old(flat)
      ensures added ==> base == |old(flat)| && |flat| == base + size && flat[..base] == old(flat)
      ensures old(Repr) <= Repr && fresh(Repr - old(Repr))
      ensures old(sticks) <= sticks && |sticks| == |old(sticks)| + One(added)
    {
      if |sticks| >= MAX_STICKS {
        return false, 0;
      }
      base := TotalRam();
      var data := new byte[size];
      AppendStick(sticks, flat, Stick(base, data));
      sticks := sticks + [Stick(base, data)];
      flat := flat + data[..];
      Repr := Repr + {data};
      added := true;
    }

    /** conexiones_tamanio_total_ram. */
    method TotalRam() returns (total: u32)
      requires Valid()
      ensures total == |flat|
    {
      total := 0;
      var i := 0;
      while i < |sticks|
        invariant 0 <= i <= |sticks|
        invariant total == if i < |sticks| then sticks[i].base else |flat|
      {
        StickBound(sticks, |flat|, i);
        total := total + sticks[i].data.Length;
        i := i + 1;
      }
    }

    /** memory_io_leer. It fails exactly when the range leaves physical memory. */
    method Read(a: u32, size: u32) returns (r: Option<seq<byte>>)
      requires Valid()
      ensures r.Some? <==> size == 0 || a + size <= |flat|
      ensures r.Some? ==> |r.value| == size && forall i :: 0 <= i < size ==> r.value[i] == flat[a + i]
    {
      var result := new byte[size];
      var left: u32, at: u32, done: u32 := size, a, 0;
      while left > 0
        invariant done + left == size && (size == 0 || at == a + done)
        invariant 0 < done ==> at <= |flat|
        invariant forall i :: 0 <= i < done ==> a + i < |flat| && result[i] == flat[a + i]
        decreases left
      {
        var chunk := ReadSome(result, at, done, left);
        if chunk == 0 {
          return None;
        }
        at, done, left := at + chunk, done + chunk, left - chunk;
      }
      r := Some(result[..]);
    }

    /** One round of the loop above: the bytes of the stick that holds `at` go to `result` from `done` on; 0 bytes if no stick
        does. */
    method ReadSome(result: array<byte>, at: u32, done: u32, left: u32) returns (chunk: u32)
      requires Valid() && result !in Repr && 0 < left && done + left <= result.Length
      modifies result
      ensures chunk <= left && (chunk == 0 <==> |flat| <= at) && (chunk != 0 ==> at + chunk <= |flat|)
      ensures forall i :: 0 <= i < result.Length ==>
                result[i] == if done <= i < done + chunk then flat[at + i - done] else old(result[i])
    {
      var idx := FindStick(sticks, flat, at);
      if idx < 0 {
        return 0;
      }
      var local := at - sticks[idx].base;
      chunk := sticks[idx].data.Length - local;
      if chunk > left { chunk := left; }
      assert Stores(sticks[idx], flat);
      forall k | 0 <= k < chunk {
        result[done + k] := sticks[idx].data[local + k];
      }
      assert forall i :: done <= i < done + chunk ==> result[i] == old(sticks[idx].data[local + (i - done)]);
    }

    /** memory_io_escribir. What fits in physical memory is written even when the call fails. */
    method Write(a: u32, data: seq<byte>) returns (ok: bool)
      requires Valid() && |data| < U32
      modifies this`flat, Repr
      ensures Valid()
      ensures ok <==> data == [] || a + |data| <= |flat|
      ensures flat == Overlay(old(flat), a, data)
    {
      var left: u32, at: u32, done: u32 := |data|, a, 0;
      ghost var before := flat;
      while left > 0
        invariant done + left == |data| && (data == [] || at == a + done)
        invariant 0 < done ==> at <= |flat|
        invariant Valid() && sticks == old(sticks)
        invariant Patched(flat, before, a, data, 0, done)
        decreases left
      {
        ghost var last := flat;
        var chunk := WriteSome(at, data, done);
        if chunk == 0 {
          PatchedIsOverlay(flat, before, a, data, done);
          return false;
        }
        PatchedTwice(flat, last, before, a, data, done, chunk);
        at, done, left := at + chunk, done + chunk, left - chunk;
      }
      PatchedIsOverlay(flat, before, a, data, done);
      ok := true;
    }

    /** One round of the loop above: writes the bytes of `data`, from `done` on, that fall in the stick
        holding `at`; 0 bytes if no stick does. */
    method WriteSome(at: u32, data: seq<byte>, done: u32) returns (chunk: u32)
      requires Valid() && done < |data| < U32
      modifies this`flat, Repr
      ensures Valid()
      ensures done + chunk <= |data| && (chunk == 0 <==> |flat| <= at)
      ensures chunk != 0 ==> at + chunk <= |flat|
      ensures Patched(flat, old(flat), at, data, done, chunk)
    {
      var idx := FindStick(sticks, flat, at);
      if idx < 0 {
        return 0;
      }
      assert Stores(sticks[idx], flat);
      var local := at - sticks[idx].base;
      chunk := sticks[idx].data.Length - local;
      if chunk > |data| - done { chunk := |data| - done; }
      WriteChunk(idx, local, data, done, chunk);
    }

    /** One ESCRITURA_MEMORIA message to one stick (memory_stick/src/utils_memory_stick.c, manejar_escritura). */
    method WriteChunk(idx: nat, local: u32, data: seq<byte>, done: u32, chunk: u32)
      requires Valid() && idx < |sticks| && local + chunk <= sticks[idx].data.Length && done + chunk <= |data|
      modifies this`flat, Repr
      ensures Valid()
      ensures Patched(flat, old(flat), sticks[idx].base + local, data, done, chunk)
    {
      hide EndToEnd, Patch;
      var cells := sticks[idx].data;
      ghost var start := sticks[idx].base + local;
      forall k | 0 <= k < chunk {
        cells[local + k] := data[done + k];
      }
      ghost var before := flat;
      flat := Patch(before, start, data, done, chunk);
      forall i | 0 <= i < |sticks|
        ensures Stores(sticks[i], flat)
      {
        assert old(Stores(sticks[i], flat));
        if i != idx {
          SticksApart(sticks, |flat|, i, idx);
          assert sticks[i].data != cells;
          forall k | 0 <= k < sticks[i].data.Length
            ensures sticks[i].data[k] == flat[sticks[i].base + k]
          {
            assert sticks[i].data[k] == old(sticks[i].data[k]);
          }
        } else {
          forall k | 0 <= k < cells.Length
            ensures cells[k] == flat[sticks[i].base + k]
          {
            assert old(cells[k]) == before[sticks[i].base + k];
            assert cells[k] == if local <= k < local + chunk then data[done + k - local] else old(cells[k]);
          }
        }
      }
    }
  }
}
