/** The memory instructions of a CPU (cpu/src/cpu_ciclo.c): registers, reads and writes through the MMU, and
    what they do to the logical memory that Kernel Memory maintains. */
module CpuInstructions {
  import opened Words
  import opened FreeBlocks
  import opened MemorySticks
  import opened Segments
  import opened Swap
  import opened Mmu
  import KernelMemory
  import LittleEndian
  import Logical

  /** `t_registros`. */
  datatype Registers = Registers(pc: u32, ax: byte, bx: byte, cx: byte, dx: byte,
                                 eax: u32, ebx: u32, ecx: u32, edx: u32, si: u32, di: u32)

  /** obtener_valor_registro. */
  function Value(r: Registers, name: string): u32 {
    if name == "AX" then r.ax else if name == "BX" then r.bx else if name == "CX" then r.cx else if name == "DX" then r.dx
    else if name == "EAX" then r.eax else if name == "EBX" then r.ebx else if name == "ECX" then r.ecx
    else if name == "EDX" then r.edx else if name == "SI" then r.si else if name == "DI" then r.di
    else 0
  }

  /** asignar_valor_registro: one-byte registers keep the low byte, unknown names are ignored. */
  function Assign(r: Registers, name: string, v: u32): Registers {
    if name == "AX" then r.(ax := v % 256) else if name == "BX" then r.(bx := v % 256)
    else if name == "CX" then r.(cx := v % 256) else if name == "DX" then r.(dx := v % 256)
    else if name == "EAX" then r.(eax := v) else if name == "EBX" then r.(ebx := v)
    else if name == "ECX" then r.(ecx := v) else if name == "EDX" then r.(edx := v)
    else if name == "SI" then r.(si := v) else if name == "DI" then r.(di := v)
    else r
  }

  /** sizeof_registro. */
  function Width(name: string): u32 {
    if name == "AX" || name == "BX" || name == "CX" || name == "DX" then 1 else 4
  }

  datatype Outcome = Continue | SegFault | Failed

  class Cpu {
    const bank: Bank
    const segMax: pos32
    var segs: seq<Segment>
    var regs: Registers

    constructor (bank: Bank, segMax: pos32, segs: seq<Segment>, regs: Registers)
      ensures this.bank == bank && this.segMax == segMax && this.segs == segs && this.regs == regs
    {
      this.bank, this.segMax, this.segs, this.regs := bank, segMax, segs, regs;
    }

    /** Where the MMU takes a logical address. */
    ghost function Target(dir: u32, size: u32): Option<u32>
      reads this, bank
    {
      Physical(segs, SegmentNumber(dir, segMax), Offset(dir, segMax), size, |bank.flat|)
    }

    lemma TargetInside(dir: u32, size: u32)
      ensures Target(dir, size).Some? && 0 < size ==> Target(dir, size).value + size <= |bank.flat|
    {}

    /** mmu_leer. */
    method Read(dir: u32, size: u32) returns (r: Option<seq<byte>>)
      requires bank.Valid()
      ensures r == if Target(dir, size) == None then None else Some(RamBytes(bank.flat, Target(dir, size).value, size))
    {
      hide Physical, SegmentNumber, Offset, Split;
      var trad := new Chunk[MAX_STICKS + 1](_ => Chunk(0, 0, 0));
      var ok, count, physical, cuts :=
        Translate(segs, SegmentNumber(dir, segMax), Offset(dir, segMax), size, bank.sticks, bank.flat, trad);
      if !ok { return None; }
      var data := Gather(bank, trad[..count], cuts, physical, size);
      r := Some(data);
    }

    /** mmu_escribir. */
    method Write(dir: u32, data: seq<byte>) returns (ok: bool)
      requires bank.Valid() && |data| < U32 && this !in bank.Repr
      modifies bank`flat, bank.Repr
      ensures bank.Valid() && |bank.flat| == |old(bank.flat)|
      ensures ok <==> old(Target(dir, |data|)).Some?
      ensures bank.flat == if ok then Overlay(old(bank.flat), old(Target(dir, |data|)).value, data) else old(bank.flat)
    {
      hide Physical, SegmentNumber, Offset, Split, Overlay;
      var trad := new Chunk[MAX_STICKS + 1](_ => Chunk(0, 0, 0));
      var found, count, physical, cuts :=
        Translate(segs, SegmentNumber(dir, segMax), Offset(dir, segMax), |data|, bank.sticks, bank.flat, trad);
      if !found { return false; }
      Scatter(bank, trad[..count], cuts, physical, data);
      ok := true;
    }

    /** ejecutar_mov_in: register <- memory[SI]. */
    method MovIn(params: seq<string>) returns (r: Outcome)
      requires bank.Valid()
      modifies this`regs
      ensures r == Failed <==> params == []
      ensures r != Failed ==> (r == Continue <==> old(Target(regs.si, Width(params[0]))).Some?)
      ensures r != Continue ==> regs == old(regs)
      ensures r == Continue ==>
                var d := RamBytes(bank.flat, old(Target(regs.si, Width(params[0]))).value, Width(params[0]));
                LittleEndian.Decode(d) < U32 && regs == Assign(old(regs), params[0], LittleEndian.Decode(d))
    {
      if |params| < 1 { return Failed; }
      var data := Read(regs.si, Width(params[0]));
      if data == None { return SegFault; }
      LittleEndian.EncodeDecode(data.value);
      LittleEndian.Widths();
      regs := Assign(regs, params[0], LittleEndian.Decode(data.value));
      r := Continue;
    }

    /** ejecutar_mov_out: memory[DI] <- register. */
    method MovOut(params: seq<string>) returns (r: Outcome)
      requires bank.Valid() && this !in bank.Repr
      modifies bank`flat, bank.Repr
      ensures bank.Valid() && |bank.flat| == |old(bank.flat)|
      ensures r == Failed <==> params == []
      ensures r != Failed ==> (r == Continue <==> old(Target(regs.di, Width(params[0]))).Some?)
      ensures r != Continue ==> bank.flat == old(bank.flat)
      ensures r == Continue ==> bank.flat == Overlay(old(bank.flat), old(Target(regs.di, Width(params[0]))).value,
                                                     LittleEndian.Encode(Value(regs, params[0]), Width(params[0])))
    {
      if |params| < 1 { return Failed; }
      var ok := Write(regs.di, LittleEndian.Encode(Value(regs, params[0]), Width(params[0])));
      r := if ok then Continue else SegFault;
    }

    /** MOV_OUT and then MOV_IN of one register, with the same address in SI and DI: both succeed or both fault, and the
        registers are as they were. */
    method MovOutThenIn(name: string) returns (stored: Outcome, loaded: Outcome)
      requires bank.Valid() && this !in bank.Repr && regs.si == regs.di
      modifies this`regs, bank`flat, bank.Repr
      ensures bank.Valid() && regs == old(regs) && stored == loaded
      ensures stored == if old(Target(regs.di, Width(name))).Some? then Continue else SegFault
    {
      hide Physical, SegmentNumber, Offset, Overlay, RamBytes, Value, Assign;
      ghost var flat0, a := bank.flat, Target(regs.di, Width(name));
      TargetInside(regs.di, Width(name));
      stored := MovOut([name]);
      if stored == Continue { MovOutMovIn(regs, name, flat0, a.value); }
      loaded := MovIn([name]);
    }

    /** MOV_OUT of one register and then MOV_IN of another with the same address in SI and DI. The low byte is stored
        first, so that a one-byte register gets the low byte of what a four-byte one has stored. */
    method MovOutThenInOf(from: string, to: string) returns (stored: Outcome, loaded: Outcome)
      requires bank.Valid() && this !in bank.Repr && regs.si == regs.di && Width(to) <= Width(from)
      modifies this`regs, bank`flat, bank.Repr
      ensures bank.Valid() && stored == if old(Target(regs.di, Width(from))).Some? then Continue else SegFault
      ensures loaded == if old(Target(regs.di, Width(to))).Some? then Continue else SegFault
      ensures stored == Continue && Offset(old(regs).di, segMax) + Width(from) < U32 ==> loaded == Continue
      ensures stored == loaded == Continue ==> regs == Assign(old(regs), to, Truncated(Value(old(regs), from), Width(to)))
    {
      hide Physical, SegmentNumber, Offset, Overlay, RamBytes, Value, Assign, Truncated;
      ghost var flat0, a, b := bank.flat, Target(regs.di, Width(from)), Target(regs.di, Width(to));
      TargetInside(regs.di, Width(from));
      if a.Some? { Narrower(segs, SegmentNumber(regs.di, segMax), Offset(regs.di, segMax), Width(from), Width(to), |bank.flat|); }
      stored := MovOut([from]);
      loaded := MovIn([to]);
      if stored == loaded == Continue { MovOutMovInOf(old(regs), from, to, flat0, a.value); }
    }

    /** ejecutar_copy_mem: memory[DI] <- memory[SI], as many bytes as the register says. All bytes are read before
        any is written, so an overlap does no harm; if either range faults, nothing changes. */
    method CopyMem(params: seq<string>) returns (r: Outcome)
      requires bank.Valid() && this !in bank.Repr
      modifies bank`flat, bank.Repr
      ensures bank.Valid() && |bank.flat| == |old(bank.flat)|
      ensures r == Failed <==> params == []
      ensures r != Failed ==> (r == Continue <==> old(Target(regs.si, Value(regs, params[0]))).Some?
                                                  && old(Target(regs.di, Value(regs, params[0]))).Some?)
      ensures r != Continue ==> bank.flat == old(bank.flat)
      ensures r == Continue ==>
                var n, from, to := Value(regs, params[0]), old(Target(regs.si, Value(regs, params[0]))).value,
                                   old(Target(regs.di, Value(regs, params[0]))).value;
                CopiedAtOnce(bank.flat, old(bank.flat), from, to, n)
    {
      hide Physical, Overlay, RamBytes, SegmentNumber, Offset, CopiedAtOnce;
      if |params| < 1 { return Failed; }
      ghost var n := Value(regs, params[0]);
      ghost var from, to := Target(regs.si, n), Target(regs.di, n);
      TargetInside(regs.si, n);
      var data := Read(regs.si, Value(regs, params[0]));
      if data == None { return SegFault; }
      ghost var before := bank.flat;
      var ok := Write(regs.di, data.value);
      if ok { OverlaidIsCopied(before, from.value, to.value, n); }
      r := if ok then Continue else SegFault;
    }
  }

  /** `g` is `f` with its bytes [from, from + n) copied to [to, to + n), all at the same time. */
  ghost predicate CopiedAtOnce(g: seq<byte>, f: seq<byte>, from: int, to: int, n: int) {
    && |g| == |f| && (0 < n ==> 0 <= from && from + n <= |f|)
    && forall i :: 0 <= i < |f| ==> g[i] == if to <= i < to + n then f[from + i - to] else f[i]
  }

  lemma OverlaidIsCopied(f: seq<byte>, from: u32, to: u32, n: u32)
    requires 0 < n ==> from + n <= |f|
    ensures CopiedAtOnce(Overlay(f, to, RamBytes(f, from, n)), f, from, to, n)
  {}

  /** The loop of mmu_leer: the bytes of the chunks, one after another. */
  method Gather(bank: Bank, chunks: seq<Chunk>, ghost cuts: seq<int>, a: u32, size: u32) returns (data: seq<byte>)
    requires bank.Valid() && Split(chunks, cuts, bank.sticks, a, size)
    ensures data == RamBytes(bank.flat, a, size)
  {
    data := [];
    var i := 0;
    while i < |chunks|
      invariant 0 <= i <= |chunks| && a + |data| == cuts[i]
      invariant 0 < i ==> a + |data| <= |bank.flat|
      invariant forall k :: 0 <= k < |data| ==> a + k < |bank.flat| && data[k] == bank.flat[a + k]
    {
      var c := chunks[i];
      assert ChunkAt(c, cuts[i], cuts[i + 1], bank.sticks) && Stores(bank.sticks[c.stick], bank.flat);
      data := data + bank.sticks[c.stick].data[c.local..c.local + c.bytes];
      i := i + 1;
    }
  }

  /** The loop of mmu_escribir. */
  method Scatter(bank: Bank, chunks: seq<Chunk>, ghost cuts: seq<int>, a: u32, data: seq<byte>)
    requires bank.Valid() && Split(chunks, cuts, bank.sticks, a, |data|)
    modifies bank`flat, bank.Repr
    ensures bank.Valid() && bank.flat == Overlay(old(bank.flat), a, data)
  {
    hide Patched, Overlay;
    var i, off := 0, 0;
    ghost var before := bank.flat;
    NothingPatched(before, a, data);
    while i < |chunks|
      invariant bank.Valid() && bank.sticks == old(bank.sticks)
      invariant 0 <= i <= |chunks| && 0 <= off <= |data| && a + off == cuts[i]
      invariant Patched(bank.flat, before, a, data, 0, off)
    {
      var c := chunks[i];
      assert ChunkAt(c, cuts[i], cuts[i + 1], bank.sticks);
      CutsGrow(chunks, cuts, bank.sticks, a, |data|, i + 1);
      ghost var last := bank.flat;
      SamePatchedLength(last, before, a, data, off);
      bank.WriteChunk(c.stick, c.local, data, off, c.bytes);
      PatchedTwice(bank.flat, last, before, a, data, off, c.bytes);
      off, i := off + c.bytes, i + 1;
    }
    PatchedIsOverlay(bank.flat, before, a, data, |data|);
  }

  lemma NothingPatched(f: seq<byte>, a: int, d: seq<byte>)
    ensures Patched(f, f, a, d, 0, 0)
  {}

  lemma SamePatchedLength(g: seq<byte>, f: seq<byte>, a: int, d: seq<byte>, n: nat)
    requires Patched(g, f, a, d, 0, n)
    ensures |g| == |f|
  {}

  lemma {:induction false} CutsGrow(chunks: seq<Chunk>, cuts: seq<int>, sticks: seq<Stick>, a: int, size: int, i: nat)
    requires Split(chunks, cuts, sticks, a, size) && i <= |chunks|
    ensures cuts[i] <= a + size
    decreases |chunks| - i
  {
    if i < |chunks| {
      CutsGrow(chunks, cuts, sticks, a, size, i + 1);
      assert ChunkAt(chunks[i], cuts[i], cuts[i + 1], sticks);
    }
  }

  /* ---------- what the instructions mean ---------- */

  /** MOV_OUT and then MOV_IN of the same register at the same address give the register back. */
  lemma MovOutMovIn(r: Registers, name: string, flat: seq<byte>, a: u32)
    requires a + Width(name) <= |flat|
    ensures var d := RamBytes(Overlay(flat, a, LittleEndian.Encode(Value(r, name), Width(name))), a, Width(name));
            LittleEndian.Decode(d) < U32 && Assign(r, name, LittleEndian.Decode(d)) == r
  {
    var data := LittleEndian.Encode(Value(r, name), Width(name));
    assert RamBytes(Overlay(flat, a, data), a, Width(name)) == data;
    LittleEndian.Widths();
    LittleEndian.DecodeEncode(Value(r, name), Width(name));
  }

  /** What `w` bytes keep of a value. */
  function Truncated(v: u32, w: u32): u32 {
    if w == 1 then v % 256 else v
  }

  predicate IsRegister(name: string) {
    name == "AX" || name == "BX" || name == "CX" || name == "DX" || name == "EAX" || name == "EBX" || name == "ECX" || name == "EDX"
    || name == "SI" || name == "DI"
  }

  /** A register holds what was assigned to it, cut to its width, and no other register changes; other names have no
      effect. */
  lemma AssignReads(r: Registers, name: string, other: string, v: u32)
    ensures IsRegister(name) ==> Value(Assign(r, name, v), name) == Truncated(v, Width(name))
    ensures !IsRegister(name) ==> Assign(r, name, v) == r
    ensures other != name ==> Value(Assign(r, name, v), other) == Value(r, other)
    ensures Assign(r, name, v).pc == r.pc && Value(r, name) < (if Width(name) == 1 then 256 else U32)
  {}

  /** Fewer bytes at the same address: the translation gives the same address, and fails only if the longer range wraps. */
  lemma Narrower(segs: seq<Segment>, num: int, off: u32, size: u32, less: u32, total: int)
    requires 0 < less <= size && Physical(segs, num, off, size, total).Some?
    ensures Physical(segs, num, off, less, total).Some? ==>
              Physical(segs, num, off, less, total) == Physical(segs, num, off, size, total)
    ensures off + size < U32 ==> Physical(segs, num, off, less, total).Some?
  {}

  lemma MovOutMovInOf(r: Registers, from: string, to: string, flat: seq<byte>, a: u32)
    requires a + Width(from) <= |flat| && Width(to) <= Width(from)
    ensures var d := RamBytes(Overlay(flat, a, LittleEndian.Encode(Value(r, from), Width(from))), a, Width(to));
            LittleEndian.Decode(d) == Truncated(Value(r, from), Width(to))
  {
    var v, data := Value(r, from), LittleEndian.Encode(Value(r, from), Width(from));
    hide Value;
    var d := RamBytes(Overlay(flat, a, data), a, Width(to));
    assert d == data[..Width(to)];
    if Width(to) == 1 {
      LittleEndian.ByteAt(v, Width(from), 0);
      LittleEndian.DecodeIsWeight(d);
      LittleEndian.LowByte(d);
    } else {
      LittleEndian.Widths();
      LittleEndian.DecodeEncode(v, 4);
      assert data[..4] == data;
    }
  }

  /** A CPU that runs a process sees, through its own copy of the segment table, exactly what Kernel Memory shows
      at the same logical address. */
  lemma ReadIsLoad(procs: seq<Process>, free: seq<Block>, pid: int, id: int, off: u32, size: u32, flat: seq<byte>,
                   content: seq<seq<byte>>, cfg: Config, next: int)
    requires Sound(procs, free, |flat|, cfg, next) && off < cfg.segMax
    requires KernelMemory.Designates(procs, pid, id).Some? && KernelMemory.Designates(procs, pid, id).value.Resident()
    ensures var a := Physical(procs[IndexOf(Pids(procs), pid)].segs, id, off, size, |flat|);
            Logical.Load(ViewOf(procs, flat, content, cfg.blockSize), pid, id, off, size)
            == if a == None then None else Some(RamBytes(flat, a.value, size))
  {
    hide BlocksFor, Physical, Sound, Logical.Load, ViewOf, KernelMemory.Designates;
    Found(procs, free, pid, id, off, size, |flat|, cfg, next);
    var s := KernelMemory.Designates(procs, pid, id).value;
    if off + size <= s.limit {
      KernelMemory.ViewLoad(procs, pid, id, off, size, flat, content, cfg.blockSize);
    } else {
      BeyondLimit(procs, pid, id, off, size, flat, content, cfg.blockSize);
    }
  }

  lemma BeyondLimit(procs: seq<Process>, pid: int, id: int, off: nat, size: nat, flat: seq<byte>, content: seq<seq<byte>>, bs: pos32)
    requires KernelMemory.Designates(procs, pid, id).Some? && KernelMemory.Designates(procs, pid, id).value.limit < off + size
    ensures Logical.Load(ViewOf(procs, flat, content, bs), pid, id, off, size) == None
  {
    hide Bytes;
    KernelMemory.SameNames(procs, flat, content, bs);
  }

  /** What it writes is a store to that segment and leaves every other segment of every process alone. */
  lemma WriteIsStore(procs: seq<Process>, free: seq<Block>, pid: int, id: int, off: u32, data: seq<byte>, flat: seq<byte>,
                     content: seq<seq<byte>>, cfg: Config, next: int)
    requires Sound(procs, free, |flat|, cfg, next) && off < cfg.segMax && |data| < U32
    requires KernelMemory.Designates(procs, pid, id).Some? && KernelMemory.Designates(procs, pid, id).value.Resident()
    ensures var a := Physical(procs[IndexOf(Pids(procs), pid)].segs, id, off, |data|, |flat|);
            ViewOf(procs, if a == None then flat else Overlay(flat, a.value, data), content, cfg.blockSize)
            == Logical.Store(ViewOf(procs, flat, content, cfg.blockSize), pid, id, off, data)
  {
    hide BlocksFor, Physical, Sound;
    Found(procs, free, pid, id, off, |data|, |flat|, cfg, next);
    var s := KernelMemory.Designates(procs, pid, id).value;
    if off + |data| <= s.limit {
      KernelMemory.ViewStore(procs, free, pid, id, off, data, flat, Overlay(flat, s.base + off, data), content, cfg, next);
    } else {
      KernelMemory.SameNames(procs, flat, content, cfg.blockSize);
    }
  }

  lemma Found(procs: seq<Process>, free: seq<Block>, pid: int, id: int, off: u32, size: u32, total: int, cfg: Config, next: int)
    requires Sound(procs, free, total, cfg, next) && off < cfg.segMax
    requires KernelMemory.Designates(procs, pid, id).Some? && KernelMemory.Designates(procs, pid, id).value.Resident()
    ensures var s := KernelMemory.Designates(procs, pid, id).value;
            && s.base + s.limit <= total
            && Physical(procs[IndexOf(Pids(procs), pid)].segs, id, off, size, total)
               == if off + size <= s.limit then Some(s.base + off) else None
  {
    hide BlocksFor, Physical;
    var p := IndexOf(Pids(procs), pid);
    assert procs[p] in procs && KernelMemory.Designates(procs, pid, id).value in procs[p].segs;
    TranslationExact(procs[p].segs, id, off, size, total, cfg.segMax);
  }
}
