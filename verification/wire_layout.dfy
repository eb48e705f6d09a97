/** What the messages look like on the wire, byte by byte (utils/src/utils/serializacion.c and utils/src/utils/mensajes.c),
    whatever the receiver makes of them. */
module WireLayout {
  import opened Words
  import opened Segments
  import opened CpuInstructions
  import opened Wire
  import LittleEndian

  /** At offset `at` there are `n` bytes of the number `v`, the one that counts least first. */
  ghost predicate NumberAt(s: seq<byte>, at: nat, v: nat, n: nat) {
    at + n <= |s| && forall i: nat :: i < n ==> s[at + i] == v / LittleEndian.Range(i) % 256
  }

  ghost predicate BytesAt(s: seq<byte>, at: nat, d: seq<byte>) {
    at + |d| <= |s| && s[at..at + |d|] == d
  }

  /** A C string after its length, which counts the NUL. */
  ghost predicate StringAt(s: seq<byte>, at: nat, text: seq<byte>) {
    && NumberAt(s, at, |text| + 1, 4)
    && at + 4 + |text| < |s| && BytesAt(s, at + 4, text) && s[at + 4 + |text|] == 0
  }

  lemma NumberLies(s: seq<byte>, at: nat, v: nat, n: nat)
    requires at + n <= |s| && forall i: nat :: i < n ==> s[at + i] == LittleEndian.Encode(v, n)[i]
    ensures NumberAt(s, at, v, n)
  {
    forall i: nat | i < n ensures s[at + i] == v / LittleEndian.Range(i) % 256 {
      LittleEndian.ByteAt(v, n, i);
    }
  }

  /** A negative `int` is sent as its two's complement. */
  function Unsigned(v: i32): nat {
    if v < 0 then v + U32 else v
  }

  lemma StringLies(s: seq<byte>, at: nat, text: seq<byte>)
    requires |text| + 1 < I31 && BytesAt(s, at, Str(text))
    ensures StringAt(s, at, text)
  {
    var d := Str(text);
    hide LittleEndian.Encode;
    forall i: nat | i < |d| ensures s[at + i] == d[i] {
      assert s[at + i] == s[at..at + |d|][i];
    }
    assert d == Word(|text| + 1) + text + [0];
    NumberLies(s, at, |text| + 1, 4);
    forall i: nat | i < |text| ensures s[at + 4 + i] == text[i] {
      assert s[at + (4 + i)] == d[4 + i];
    }
    assert s[at + 4..at + 4 + |text|] == text;
    assert s[at + (4 + |text|)] == d[4 + |text|];
  }

  /** Operation code, size and payload. */
  lemma FrameLayout(op: u32, payload: seq<byte>)
    ensures var s := Frame(op, payload);
            |s| == 12 + |payload| && NumberAt(s, 0, op, 4) && NumberAt(s, 4, |payload|, 8) && s[12..] == payload
  {
    hide LittleEndian.Encode;
    var s := Frame(op, payload);
    NumberLies(s, 0, op, 4);
    NumberLies(s, 4, |payload|, 8);
  }

  /** `t_registros`: the program counter, the four registers of one byte, and the six of four. */
  lemma RegsLayout(r: Registers)
    ensures var s := Regs(r);
            && |s| == 32 && NumberAt(s, 0, r.pc, 4) && s[4..8] == [r.ax, r.bx, r.cx, r.dx]
            && NumberAt(s, 8, r.eax, 4) && NumberAt(s, 12, r.ebx, 4) && NumberAt(s, 16, r.ecx, 4) && NumberAt(s, 20, r.edx, 4)
            && NumberAt(s, 24, r.si, 4) && NumberAt(s, 28, r.di, 4)
  {
    hide LittleEndian.Encode;
    var s := Regs(r);
    hide NumberAt;
    NumberLies(s, 0, r.pc, 4);
    NumberLies(s, 8, r.eax, 4);
    NumberLies(s, 12, r.ebx, 4);
    NumberLies(s, 16, r.ecx, 4);
    NumberLies(s, 20, r.edx, 4);
    NumberLies(s, 24, r.si, 4);
    NumberLies(s, 28, r.di, 4);
  }

  lemma SegmentLies(x: Segment)
    ensures var s := Word(x.id) + Word(x.base) + Word(x.limit) + Word(x.swapStart);
            |s| == 16 && NumberAt(s, 0, x.id, 4) && NumberAt(s, 4, x.base, 4) && NumberAt(s, 8, x.limit, 4) && NumberAt(s, 12, x.swapStart, 4)
  {
    hide LittleEndian.Encode;
    var s := Word(x.id) + Word(x.base) + Word(x.limit) + Word(x.swapStart);
    hide NumberAt;
    NumberLies(s, 0, x.id, 4);
    NumberLies(s, 4, x.base, 4);
    NumberLies(s, 8, x.limit, 4);
    NumberLies(s, 12, x.swapStart, 4);
  }

  lemma NumberShifted(s: seq<byte>, t: seq<byte>, from: nat, at: nat, v: nat, n: nat)
    requires BytesAt(s, from, t) && NumberAt(t, at, v, n)
    ensures NumberAt(s, from + at, v, n)
  {
    forall i: nat | i < n ensures s[from + at + i] == v / LittleEndian.Range(i) % 256 {
      assert s[from + (at + i)] == s[from..from + |t|][at + i];
    }
  }

  lemma StringShifted(s: seq<byte>, t: seq<byte>, from: nat, at: nat, text: seq<byte>)
    requires BytesAt(s, from, t) && StringAt(t, at, text)
    ensures StringAt(s, from + at, text)
  {
    NumberShifted(s, t, from, at, |text| + 1, 4);
    forall i | 0 <= i < |text| ensures s[from + at + 4 + i] == text[i] {
      assert s[from + (at + 4 + i)] == s[from..from + |t|][at + 4 + i] == t[at + 4..at + 4 + |text|][i];
    }
    assert s[from + at + 4..from + at + 4 + |text|] == text;
    assert s[from + (at + 4 + |text|)] == s[from..from + |t|][at + 4 + |text|];
  }

  /** The segment table: 16 bytes for each, in order. */
  lemma {:induction false} SegsLayout(xs: seq<Segment>, k: nat)
    requires k < |xs|
    ensures var s := Segs(xs);
            && |s| == 16 * |xs| && NumberAt(s, 16 * k, xs[k].id, 4) && NumberAt(s, 16 * k + 4, xs[k].base, 4)
            && NumberAt(s, 16 * k + 8, xs[k].limit, 4) && NumberAt(s, 16 * k + 12, xs[k].swapStart, 4)
    decreases |xs|
  {
    hide Word, NumberAt;
    var s, one := Segs(xs), Word(xs[0].id) + Word(xs[0].base) + Word(xs[0].limit) + Word(xs[0].swapStart);
    SegmentLies(xs[0]);
    SegsLength(xs);
    assert s == one + Segs(xs[1..]);
    var from, part, at := if k == 0 then 0 else 16, if k == 0 then one else Segs(xs[1..]), if k == 0 then 0 else 16 * (k - 1);
    if k != 0 { SegsLayout(xs[1..], k - 1); }
    assert BytesAt(s, from, part);
    NumberShifted(s, part, from, at, xs[k].id, 4);
    NumberShifted(s, part, from, at + 4, xs[k].base, 4);
    NumberShifted(s, part, from, at + 8, xs[k].limit, 4);
    NumberShifted(s, part, from, at + 12, xs[k].swapStart, 4);
  }

  lemma {:induction false} SegsLength(xs: seq<Segment>)
    ensures |Segs(xs)| == 16 * |xs|
  {
    if xs != [] { SegsLength(xs[1..]); }
  }

  /** ACTUALIZAR_CONTEXTO: the pid, the registers, how many segments, and the segments. */
  lemma ContextLayout(c: Context)
    requires |c.segs| < I31
    ensures var s := ContextPayload(c);
            && |s| == 40 + 16 * |c.segs| && NumberAt(s, 0, c.pid, 4) && s[4..36] == Regs(c.regs)
            && NumberAt(s, 36, |c.segs|, 4) && s[40..] == Segs(c.segs)
  {
    hide LittleEndian.Encode, Regs;
    var s := ContextPayload(c);
    SegsLength(c.segs);
    NumberLies(s, 0, c.pid, 4);
    NumberLies(s, 36, |c.segs|, 4);
  }

  /** How many bytes the first `k` strings take. */
  function Extent(xs: seq<seq<byte>>, k: nat): nat
    requires k <= |xs|
  {
    if k == 0 then 0 else Extent(xs, k - 1) + |xs[k - 1]| + 5
  }

  lemma {:induction false} ExtentTail(xs: seq<seq<byte>>, k: nat)
    requires 0 < k <= |xs|
    ensures Extent(xs, k) == |xs[0]| + 5 + Extent(xs[1..], k - 1)
  {
    if 1 < k { ExtentTail(xs, k - 1); }
  }

  /** Strings lie one right after another. */
  lemma {:induction false} StrsLayout(xs: seq<seq<byte>>, k: nat)
    requires AllSendable(xs) && k < |xs|
    ensures |Strs(xs)| == Extent(xs, |xs|) && StringAt(Strs(xs), Extent(xs, k), xs[k])
    decreases |xs|
  {
    hide Str, StringAt, Extent, Sendable;
    SendableSize(xs[0]);
    var s, one := Strs(xs), Str(xs[0]);
    StrLength(xs[0]);
    StrsLength(xs);
    assert s == one + Strs(xs[1..]);
    if k == 0 {
      NoExtent(xs);
      assert BytesAt(s, 0, one);
      StringLies(s, 0, xs[0]);
    } else {
      ExtentTail(xs, k);
      StrsLayout(xs[1..], k - 1);
      assert BytesAt(s, |one|, Strs(xs[1..]));
      StringShifted(s, Strs(xs[1..]), |one|, Extent(xs[1..], k - 1), xs[k]);
    }
  }

  lemma NoExtent(xs: seq<seq<byte>>)
    ensures Extent(xs, 0) == 0
  {}

  lemma StrLength(x: seq<byte>)
    requires |x| + 1 < I31
    ensures |Str(x)| == |x| + 5
  {}

  lemma {:induction false} StrsLength(xs: seq<seq<byte>>)
    requires AllSendable(xs)
    ensures |Strs(xs)| == Extent(xs, |xs|)
  {
    if xs != [] {
      ExtentTail(xs, |xs|);
      StrsLength(xs[1..]);
    }
  }

  /** DEVOLVER_PROCESO: the pid and the motive and, if there is a call, its name, how many parameters, and the parameters. */
  lemma ReturnedLayout(r: Returned)
    requires CallOk(r.call)
    ensures var s := ReturnedPayload(r);
            && NumberAt(s, 0, Unsigned(r.pid), 4) && NumberAt(s, 4, Unsigned(r.motivo), 4)
            && match r.call
               case None => |s| == 8
               case Some(c) =>
                 var n := 8 + |c.name| + 5;
                 StringAt(s, 8, c.name) && NumberAt(s, n, |c.params|, 4) && |s| == n + 4 + Extent(c.params, |c.params|)
                 && s[n + 4..] == Strs(c.params)
  {
    hide LittleEndian.Encode, Strs, Extent, Str, StringAt;
    var s := ReturnedPayload(r);
    NumberLies(s, 0, Unsigned(r.pid), 4);
    NumberLies(s, 4, Unsigned(r.motivo), 4);
    if r.call.Some? {
      var c := r.call.value;
      var n := 8 + |c.name| + 5;
      StrLength(c.name);
      StrsLength(c.params);
      assert BytesAt(s, 8, Str(c.name));
      StringLies(s, 8, c.name);
      NumberLies(s, n, |c.params|, 4);
    }
  }

  /** NUEVA_MEMORIA_DISPONIBLE: size, base, address and port. */
  lemma NewMemoryLayout(size: u32, base: u32, ip: seq<byte>, port: seq<byte>)
    requires Sendable(ip) && Sendable(port)
    ensures var s := Payload(NewMemory(size, base, ip, port));
            && NumberAt(s, 0, size, 4) && NumberAt(s, 4, base, 4) && StringAt(s, 8, ip) && StringAt(s, 8 + |ip| + 5, port)
            && |s| == 8 + |ip| + 5 + |port| + 5
  {
    hide LittleEndian.Encode, Str, StringAt;
    var s := Payload(NewMemory(size, base, ip, port));
    StrLength(ip);
    StrLength(port);
    assert s == Word(size) + Word(base) + Str(ip) + Str(port);
    NumberLies(s, 0, size, 4);
    NumberLies(s, 4, base, 4);
    assert BytesAt(s, 8, Str(ip)) && BytesAt(s, 8 + |ip| + 5, Str(port));
    StringLies(s, 8, ip);
    StringLies(s, 8 + |ip| + 5, port);
  }

  /** CREAR_PROCESO: the pid and the path. */
  lemma CreateLayout(pid: i32, path: seq<byte>)
    requires Sendable(path)
    ensures var s := Payload(Create(pid, path)); NumberAt(s, 0, Unsigned(pid), 4) && StringAt(s, 4, path) && |s| == 4 + |path| + 5
  {
    hide LittleEndian.Encode, Str, StringAt;
    var s := Payload(Create(pid, path));
    StrLength(path);
    assert s == Word(Unsigned(pid)) + Str(path);
    NumberLies(s, 0, Unsigned(pid), 4);
    assert BytesAt(s, 4, Str(path));
    StringLies(s, 4, path);
  }

  /** An acknowledgement carries -1. */
  lemma AckLayout(op: u32)
    ensures var s := Payload(Ok(op)); |s| == 4 && NumberAt(s, 0, 0xFFFF_FFFF, 4)
  {
    hide LittleEndian.Encode;
    var s := Payload(Ok(op));
    assert s[0..4] == s == Word(Unsigned(-1));
    NumberLies(s, 0, Unsigned(-1), 4);
  }

  /** A message begins with its operation code, a number of the protocol, and the size of what follows. */
  lemma MessageLayout(m: Message)
    requires Fits(m)
    ensures var s := Encoded(m);
            && |s| == 12 + |Payload(m)| && NumberAt(s, 4, |Payload(m)|, 8) && s[12..] == Payload(m)
            && NumberAt(s, 0, match m { case Return(_) => 33 case Update(_) => 14 case NewMemory(_, _, _, _) => 30
                                        case Create(_, _) => 5 case Ok(op) => op }, 4)
  {
    hide Payload, NumberAt;
    FrameLayout(Op(m), Payload(m));
  }
}
