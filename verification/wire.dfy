/** The wire format (utils/src/utils/serializacion.c, utils/src/utils/mensajes.c) and the demultiplexer of the
    scheduler's socket to Kernel Memory (kernel_scheduler/src/memory_protocol.c). Integers travel as the bytes of
    a little-endian machine. */
module Wire {
  import opened Words
  import opened Segments
  import opened CpuInstructions
  import LittleEndian

  const I31: int := 0x8000_0000

  /** A C `int`. */
  type i32 = x: int | -0x8000_0000 <= x < 0x8000_0000

  const CREAR_PROCESO: u32 := 5
  const INICIAR_COMPACTACION: u32 := 11
  const FINALIZAR_COMPACTACION: u32 := 12
  const ACTUALIZAR_CONTEXTO: u32 := 14
  const MEMORIA_CORRUPTA_BSOD: u32 := 29
  const NUEVA_MEMORIA_DISPONIBLE: u32 := 30
  const MEMORIA_LIBERADA: u32 := 31
  const DEVOLVER_PROCESO: u32 := 33

  const MOTIVO_SYSCALL: i32 := 1

  /** What a parser found, and the bytes it left in the socket. */
  type Parsed<T> = Option<(T, seq<byte>)>

  /* ---------- fields ---------- */

  function Word(v: u32): (r: seq<byte>)
    ensures |r| == 4
  {
    LittleEndian.Encode(v, 4)
  }

  function Int(v: i32): (r: seq<byte>)
    ensures |r| == 4
  {
    Word(if v < 0 then v + U32 else v)
  }

  function TakeWord(s: seq<byte>): (r: Parsed<u32>)
    ensures r.Some? ==> |r.value.1| < |s|
  {
    if |s| < 4 then None
    else
      LittleEndian.EncodeDecode(s[..4]);
      LittleEndian.Widths();
      Some((LittleEndian.Decode(s[..4]), s[4..]))
  }

  function TakeInt(s: seq<byte>): (r: Parsed<i32>)
    ensures r.Some? ==> |r.value.1| <= |s|
  {
    match TakeWord(s)
    case None => None
    case Some((v, rest)) => Some((if v < I31 then v else v - U32, rest))
  }

  lemma WordBack(v: u32, rest: seq<byte>)
    ensures TakeWord(Word(v) + rest) == Some((v, rest))
  {
    LittleEndian.Widths();
    LittleEndian.DecodeEncode(v, 4);
    assert (Word(v) + rest)[..4] == Word(v) && (Word(v) + rest)[4..] == rest;
  }

  lemma IntBack(v: i32, rest: seq<byte>)
    ensures TakeInt(Int(v) + rest) == Some((v, rest))
  {
    WordBack(if v < 0 then v + U32 else v, rest);
  }

  /** A string that can be sent: no NUL inside, and its length with the NUL is an `int`. */
  predicate Sendable(s: seq<byte>) {
    0 !in s && |s| + 1 < I31
  }

  /** agregar_cadena. */
  function Str(s: seq<byte>): seq<byte>
    requires |s| + 1 < I31
  {
    Int(|s| + 1) + s + [0]
  }

  /** The bytes before the first NUL. */
  function CString(s: seq<byte>): (r: seq<byte>)
    ensures r <= s && 0 !in r
    ensures |r| < |s| ==> s[|r|] == 0
  {
    if s == [] || s[0] == 0 then [] else [s[0]] + CString(s[1..])
  }

  /** recibir_cadena. */
  function TakeString(s: seq<byte>): (r: Parsed<seq<byte>>)
    ensures r.Some? ==> |r.value.1| <= |s|
  {
    match TakeInt(s)
    case None => None
    case Some((n, rest)) => if n < 0 || |rest| < n then None else Some((CString(rest[..n]), rest[n..]))
  }

  lemma {:induction false} CStringOf(s: seq<byte>, t: seq<byte>)
    requires 0 !in s
    ensures CString(s + [0] + t) == s
  {
    if s != [] {
      assert (s + [0] + t)[1..] == s[1..] + [0] + t;
      CStringOf(s[1..], t);
    }
  }

  lemma StringBack(s: seq<byte>, rest: seq<byte>)
    requires Sendable(s)
    ensures TakeString(Str(s) + rest) == Some((s, rest))
  {
    var tail := s + [0] + rest;
    assert Str(s) + rest == Int(|s| + 1) + tail;
    IntBack(|s| + 1, tail);
    assert tail[..|s| + 1] == s + [0] + [] && tail[|s| + 1..] == rest;
    CStringOf(s, []);
  }

  predicate AllSendable(xs: seq<seq<byte>>) {
    forall i :: 0 <= i < |xs| ==> Sendable(xs[i])
  }

  function Strs(xs: seq<seq<byte>>): seq<byte>
    requires AllSendable(xs)
  {
    if xs == [] then [] else Str(xs[0]) + Strs(xs[1..])
  }

  function TakeStrings(s: seq<byte>, n: nat): (r: Parsed<seq<seq<byte>>>)
    ensures r.Some? ==> |r.value.1| <= |s|
  {
    if n == 0 then Some(([], s))
    else
      match TakeString(s)
      case None => None
      case Some((x, rest)) =>
        match TakeStrings(rest, n - 1)
        case None => None
        case Some((xs, rest')) => Some(([x] + xs, rest'))
  }

  lemma {:induction false} StringsBack(xs: seq<seq<byte>>, rest: seq<byte>)
    requires AllSendable(xs)
    ensures TakeStrings(Strs(xs) + rest, |xs|) == Some((xs, rest))
  {
    hide TakeString, Str;
    if xs == [] {
      assert Strs(xs) + rest == rest;
    } else {
      assert Strs(xs) + rest == Str(xs[0]) + (Strs(xs[1..]) + rest);
      StringBack(xs[0], Strs(xs[1..]) + rest);
      StringsBack(xs[1..], rest);
      assert [xs[0]] + xs[1..] == xs;
    }
  }

  /* ---------- DEVOLVER_PROCESO ---------- */

  datatype Syscall = Syscall(name: seq<byte>, params: seq<seq<byte>>)

  datatype Returned = Returned(pid: i32, motivo: i32, call: Option<Syscall>)

  predicate CallOk(call: Option<Syscall>) {
    call.Some? ==> Sendable(call.value.name) && |call.value.params| < I31 && AllSendable(call.value.params)
  }

  function ReturnedPayload(r: Returned): seq<byte>
    requires CallOk(r.call)
  {
    Int(r.pid) + Int(r.motivo)
    + match r.call { case None => [] case Some(c) => Str(c.name) + Int(|c.params|) + Strs(c.params) }
  }

  /** recibir_devolver_proceso: whether a call follows is decided by the motive alone. */
  function TakeReturned(s: seq<byte>): (r: Parsed<Returned>)
    ensures r.Some? ==> |r.value.1| <= |s|
  {
    match TakeInt(s)
    case None => None
    case Some((pid, s1)) =>
      match TakeInt(s1)
      case None => None
      case Some((motivo, s2)) =>
        if motivo != MOTIVO_SYSCALL then Some((Returned(pid, motivo, None), s2))
        else
          match TakeCall(s2)
          case None => None
          case Some((call, s3)) => Some((Returned(pid, motivo, Some(call)), s3))
  }

  function TakeCall(s: seq<byte>): (r: Parsed<Syscall>)
    ensures r.Some? ==> |r.value.1| <= |s|
  {
    match TakeString(s)
    case None => None
    case Some((name, s1)) =>
      match TakeInt(s1)
      case None => None
      case Some((cant, s2)) =>
        match TakeStrings(s2, if cant < 0 then 0 else cant)
        case None => None
        case Some((params, s3)) => Some((Syscall(name, params), s3))
  }

  lemma CallBack(c: Syscall, rest: seq<byte>)
    requires CallOk(Some(c))
    ensures TakeCall(Str(c.name) + Int(|c.params|) + Strs(c.params) + rest) == Some((c, rest))
  {
    var s2 := Strs(c.params) + rest;
    assert Str(c.name) + Int(|c.params|) + Strs(c.params) + rest == Str(c.name) + (Int(|c.params|) + s2);
    StringBack(c.name, Int(|c.params|) + s2);
    IntBack(|c.params|, s2);
    StringsBack(c.params, rest);
  }

  /** A returned process is read back as it was sent, with nothing left over, exactly when a system call is sent
      with the motive MOTIVO_SYSCALL and with no other. */
  lemma ReturnedBack(r: Returned, rest: seq<byte>)
    requires CallOk(r.call)
    ensures TakeReturned(ReturnedPayload(r) + rest) == Some((r, rest)) <==> (r.call.Some? <==> r.motivo == MOTIVO_SYSCALL)
  {
    var body := match r.call { case None => [] case Some(c) => Str(c.name) + Int(|c.params|) + Strs(c.params) };
    assert ReturnedPayload(r) + rest == Int(r.pid) + (Int(r.motivo) + (body + rest));
    IntBack(r.pid, Int(r.motivo) + (body + rest));
    IntBack(r.motivo, body + rest);
    if r.call.Some? {
      CallBack(r.call.value, rest);
    } else {
      assert body + rest == rest;
    }
  }

  /* ---------- ACTUALIZAR_CONTEXTO ---------- */

  datatype Context = Context(pid: u32, regs: Registers, segs: seq<Segment>)

  /** `t_registros` as it lies in memory: a word, four bytes and six words. */
  function Regs(r: Registers): (s: seq<byte>)
    ensures |s| == 32
  {
    Word(r.pc) + [r.ax, r.bx, r.cx, r.dx] + Word(r.eax) + Word(r.ebx) + Word(r.ecx) + Word(r.edx) + Word(r.si) + Word(r.di)
  }

  function WordAt(s: seq<byte>, i: nat): u32
    requires i + 4 <= |s|
  {
    TakeWord(s[i..]).value.0
  }

  function TakeRegs(s: seq<byte>): (r: Parsed<Registers>)
    ensures r.Some? ==> |r.value.1| <= |s|
  {
    if |s| < 32 then None
    else Some((Registers(WordAt(s, 0), s[4], s[5], s[6], s[7], WordAt(s, 8), WordAt(s, 12), WordAt(s, 16), WordAt(s, 20),
                         WordAt(s, 24), WordAt(s, 28)), s[32..]))
  }

  lemma WordPlaced(s: seq<byte>, i: nat, v: u32)
    requires i + 4 <= |s| && s[i..i + 4] == Word(v)
    ensures WordAt(s, i) == v
  {
    assert s[i..] == Word(v) + s[i + 4..];
    WordBack(v, s[i + 4..]);
  }

  lemma RegsBack(r: Registers, rest: seq<byte>)
    ensures TakeRegs(Regs(r) + rest) == Some((r, rest))
  {
    var s := Regs(r) + rest;
    WordPlaced(s, 0, r.pc);
    WordPlaced(s, 8, r.eax);
    WordPlaced(s, 12, r.ebx);
    WordPlaced(s, 16, r.ecx);
    WordPlaced(s, 20, r.edx);
    WordPlaced(s, 24, r.si);
    WordPlaced(s, 28, r.di);
    assert s[32..] == rest;
  }

  function Segs(xs: seq<Segment>): seq<byte> {
    if xs == [] then []
    else Word(xs[0].id) + Word(xs[0].base) + Word(xs[0].limit) + Word(xs[0].swapStart) + Segs(xs[1..])
  }

  function TakeSegs(s: seq<byte>, n: nat): (r: Parsed<seq<Segment>>)
    ensures r.Some? ==> |r.value.1| <= |s|
  {
    if n == 0 then Some(([], s))
    else if |s| < 16 then None
    else
      match TakeSegs(s[16..], n - 1)
      case None => None
      case Some((xs, rest)) => Some(([Segment(WordAt(s, 0), WordAt(s, 4), WordAt(s, 8), WordAt(s, 12))] + xs, rest))
  }

  lemma {:induction false} SegsBack(xs: seq<Segment>, rest: seq<byte>)
    ensures TakeSegs(Segs(xs) + rest, |xs|) == Some((xs, rest))
  {
    hide WordAt, Word;
    if xs == [] {
      assert Segs(xs) + rest == rest;
    } else {
      var s := Segs(xs) + rest;
      WordPlaced(s, 0, xs[0].id);
      WordPlaced(s, 4, xs[0].base);
      WordPlaced(s, 8, xs[0].limit);
      WordPlaced(s, 12, xs[0].swapStart);
      assert s[16..] == Segs(xs[1..]) + rest;
      SegsBack(xs[1..], rest);
      assert [xs[0]] + xs[1..] == xs;
    }
  }

  function ContextPayload(c: Context): seq<byte>
    requires |c.segs| < I31
  {
    Word(c.pid) + Regs(c.regs) + Int(|c.segs|) + Segs(c.segs)
  }

  function TakeContext(s: seq<byte>): (r: Parsed<Context>)
    ensures r.Some? ==> |r.value.1| <= |s|
  {
    match TakeWord(s)
    case None => None
    case Some((pid, s1)) =>
      match TakeRegs(s1)
      case None => None
      case Some((regs, s2)) =>
        match TakeInt(s2)
        case None => None
        case Some((n, s3)) =>
          match TakeSegs(s3, if n < 0 then 0 else n)
          case None => None
          case Some((segs, s4)) => Some((Context(pid, regs, segs), s4))
  }

  lemma ContextBack(c: Context, rest: seq<byte>)
    requires |c.segs| < I31
    ensures TakeContext(ContextPayload(c) + rest) == Some((c, rest))
  {
    var s3 := Segs(c.segs) + rest;
    assert ContextPayload(c) + rest == Word(c.pid) + (Regs(c.regs) + (Int(|c.segs|) + s3));
    WordBack(c.pid, Regs(c.regs) + (Int(|c.segs|) + s3));
    RegsBack(c.regs, Int(|c.segs|) + s3);
    IntBack(|c.segs|, s3);
    SegsBack(c.segs, rest);
  }

  /* ---------- messages ---------- */

  datatype Message =
    | Return(returned: Returned)
    | Update(context: Context)
    | NewMemory(size: u32, base: u32, ip: seq<byte>, port: seq<byte>)
    | Create(pid: i32, path: seq<byte>)
    | Ok(op: u32)

  function Op(m: Message): u32 {
    match m
    case Return(_) => DEVOLVER_PROCESO
    case Update(_) => ACTUALIZAR_CONTEXTO
    case NewMemory(_, _, _, _) => NUEVA_MEMORIA_DISPONIBLE
    case Create(_, _) => CREAR_PROCESO
    case Ok(op) => op
  }

  /** The messages that the senders build. CREAR_PROCESO is a request when it goes to Kernel Memory (`toMemory`), and the
      operation code of its acknowledgement when it comes from there. */
  predicate Proper(m: Message, toMemory: bool) {
    && Fits(m) && |Payload(m)| < I31
    && match m
       case Return(r) => r.call.Some? <==> r.motivo == MOTIVO_SYSCALL
       case Create(_, _) => toMemory
       case Ok(op) =>
         op != DEVOLVER_PROCESO && op != ACTUALIZAR_CONTEXTO && op != NUEVA_MEMORIA_DISPONIBLE && (toMemory ==> op != CREAR_PROCESO)
       case _ => true
  }

  predicate Fits(m: Message) {
    match m
    case Return(r) => CallOk(r.call)
    case Update(c) => |c.segs| < I31
    case NewMemory(_, _, ip, port) => Sendable(ip) && Sendable(port)
    case Create(_, path) => Sendable(path)
    case Ok(_) => true
  }

  function Payload(m: Message): seq<byte>
    requires Fits(m)
  {
    match m
    case Return(r) => ReturnedPayload(r)
    case Update(c) => ContextPayload(c)
    case NewMemory(size, base, ip, port) => Word(size) + Word(base) + Str(ip) + Str(port)
    case Create(pid, path) => Int(pid) + Str(path)
    case Ok(_) => Int(-1)
  }

  /** serializar_paquete. */
  function Frame(op: u32, payload: seq<byte>): seq<byte> {
    Word(op) + LittleEndian.Encode(|payload|, 8) + payload
  }

  function Encoded(m: Message): seq<byte>
    requires Fits(m)
  {
    Frame(Op(m), Payload(m))
  }

  /** validar_buffer: the size, and whether that many bytes can be read. If not, the module aborts. */
  function Validated(s: seq<byte>): Option<seq<byte>> {
    if |s| < 8 || |s| - 8 < LittleEndian.Decode(s[..8]) then None else Some(s[8..])
  }

  function TakeNewMemory(s: seq<byte>): (r: Parsed<Message>)
    ensures r.Some? ==> |r.value.1| <= |s|
  {
    match TakeWord(s)
    case None => None
    case Some((size, s1)) =>
      match TakeWord(s1)
      case None => None
      case Some((base, s2)) =>
        match TakeString(s2)
        case None => None
        case Some((ip, s3)) =>
          match TakeString(s3)
          case None => None
          case Some((port, s4)) => Some((NewMemory(size, base, ip, port), s4))
  }

  /** recibir_crear_proceso. */
  function TakeCreate(s: seq<byte>): (r: Parsed<Message>)
    ensures r.Some? ==> |r.value.1| <= |s|
  {
    match TakeInt(s)
    case None => None
    case Some((pid, s1)) =>
      match TakeString(s1)
      case None => None
      case Some((path, s2)) => Some((Create(pid, path), s2))
  }

  lemma CreateBack(pid: i32, path: seq<byte>, rest: seq<byte>)
    requires Sendable(path)
    ensures TakeCreate(Int(pid) + Str(path) + rest) == Some((Create(pid, path), rest))
  {
    hide TakeInt, TakeString, Int, Str;
    assert Int(pid) + Str(path) + rest == Int(pid) + (Str(path) + rest);
    IntBack(pid, Str(path) + rest);
    StringBack(path, rest);
  }

  /** The fields of the message with this operation code, read one by one. */
  function TakeBody(op: u32, s: seq<byte>, toMemory: bool): (r: Parsed<Message>)
    ensures r.Some? ==> |r.value.1| <= |s|
  {
    if op == DEVOLVER_PROCESO then
      match TakeReturned(s) { case None => None case Some((r, rest)) => Some((Return(r), rest)) }
    else if op == ACTUALIZAR_CONTEXTO then
      match TakeContext(s) { case None => None case Some((c, rest)) => Some((Update(c), rest)) }
    else if op == NUEVA_MEMORIA_DISPONIBLE then TakeNewMemory(s)
    else if op == CREAR_PROCESO && toMemory then TakeCreate(s)
    else match TakeInt(s) { case None => None case Some((_, rest)) => Some((Ok(op), rest)) }
  }

  /** What the receiver of a message does once it has read the operation code. */
  function TakeValidated(op: u32, s: seq<byte>, toMemory: bool): (r: Parsed<Message>)
    ensures r.Some? ==> |r.value.1| <= |s|
  {
    match Validated(s)
    case None => None
    case Some(body) => TakeBody(op, body, toMemory)
  }

  lemma NewMemoryBack(size: u32, base: u32, ip: seq<byte>, port: seq<byte>, rest: seq<byte>)
    requires Sendable(ip) && Sendable(port)
    ensures TakeNewMemory(Word(size) + Word(base) + Str(ip) + Str(port) + rest) == Some((NewMemory(size, base, ip, port), rest))
  {
    hide TakeWord, TakeString, Word, Str;
    assert Word(size) + Word(base) + Str(ip) + Str(port) + rest
        == Word(size) + (Word(base) + (Str(ip) + (Str(port) + rest)));
    WordBack(size, Word(base) + (Str(ip) + (Str(port) + rest)));
    WordBack(base, Str(ip) + (Str(port) + rest));
    StringBack(ip, Str(port) + rest);
    StringBack(port, rest);
  }

  lemma BodyBack(m: Message, rest: seq<byte>, toMemory: bool)
    requires Proper(m, toMemory)
    ensures TakeBody(Op(m), Payload(m) + rest, toMemory) == Some((m, rest))
  {
    hide ReturnedPayload, ContextPayload, TakeReturned, TakeContext, TakeNewMemory, TakeCreate, TakeInt, Word, Str;
    match m
    case Return(r) => ReturnedBack(r, rest);
    case Update(c) => ContextBack(c, rest);
    case NewMemory(size, base, ip, port) => NewMemoryBack(size, base, ip, port, rest);
    case Create(pid, path) => CreateBack(pid, path, rest);
    case Ok(op) => IntBack(-1, rest);
  }

  lemma ValidatedBack(payload: seq<byte>, rest: seq<byte>)
    requires |payload| < I31
    ensures Validated(LittleEndian.Encode(|payload|, 8) + payload + rest) == Some(payload + rest)
  {
    var size := LittleEndian.Encode(|payload|, 8);
    LittleEndian.Widths();
    LittleEndian.DecodeEncode(|payload|, 8);
    assert size + payload + rest == size + (payload + rest);
    assert (size + (payload + rest))[..8] == size && (size + (payload + rest))[8..] == payload + rest;
  }

  lemma MessageBack(m: Message, rest: seq<byte>, toMemory: bool)
    requires Proper(m, toMemory)
    ensures TakeWord(Encoded(m) + rest) == Some((Op(m), LittleEndian.Encode(|Payload(m)|, 8) + Payload(m) + rest))
    ensures TakeValidated(Op(m), LittleEndian.Encode(|Payload(m)|, 8) + Payload(m) + rest, toMemory) == Some((m, rest))
  {
    hide Payload, TakeBody, Op;
    var tail := LittleEndian.Encode(|Payload(m)|, 8) + Payload(m) + rest;
    assert Encoded(m) + rest == Word(Op(m)) + tail;
    WordBack(Op(m), tail);
    ValidatedBack(Payload(m), rest);
    BodyBack(m, rest, toMemory);
  }

  function EncodedAll(ms: seq<Message>): seq<byte>
    requires forall m :: m in ms ==> Fits(m)
  {
    if ms == [] then [] else Encoded(ms[0]) + EncodedAll(ms[1..])
  }

  /** Reads messages until the stream is empty. */
  function TakeAll(s: seq<byte>, n: nat, toMemory: bool): Parsed<seq<Message>>
    decreases n
  {
    if n == 0 then Some(([], s))
    else
      match TakeWord(s)
      case None => None
      case Some((op, s1)) =>
        match TakeValidated(op, s1, toMemory)
        case None => None
        case Some((m, s2)) =>
          match TakeAll(s2, n - 1, toMemory)
          case None => None
          case Some((ms, rest)) => Some(([m] + ms, rest))
  }

  /** Any concatenation of messages is read back in order, with nothing left over. */
  lemma {:induction false} StreamBack(ms: seq<Message>, rest: seq<byte>, toMemory: bool)
    requires forall m :: m in ms ==> Fits(m) && Proper(m, toMemory)
    ensures TakeAll(EncodedAll(ms) + rest, |ms|, toMemory) == Some((ms, rest))
  {
    hide Encoded, TakeValidated, Op, Proper, TakeWord;
    if ms == [] {
      assert EncodedAll(ms) + rest == rest;
    } else {
      assert EncodedAll(ms) + rest == Encoded(ms[0]) + (EncodedAll(ms[1..]) + rest);
      assert ms[0] in ms;
      MessageBack(ms[0], EncodedAll(ms[1..]) + rest, toMemory);
      StreamBack(ms[1..], rest, toMemory);
      assert [ms[0]] + ms[1..] == ms;
    }
  }

  /* ---------- sending ---------- */

  lemma NulAt(text: seq<byte>, i: nat)
    requires 0 in text && i <= |CString(text)|
    ensures |CString(text)| < |text| && (text[i] == 0 <==> i == |CString(text)|)
    ensures CString(text) == text[..|CString(text)|]
  {
    if |CString(text)| == |text| { assert false; }
  }

  /** A packet under construction: fields are appended one by one. */
  class Packet {
    const op: u32
    var stream: seq<byte>

    constructor (op: u32)
      ensures this.op == op && stream == []
    {
      this.op, stream := op, [];
    }

    /** agregar_a_paquete. */
    method Append(value: seq<byte>)
      modifies this
      ensures stream == old(stream) + value
    {
      stream := stream + value;
    }

    /** agregar_cadena: counts up to and including the NUL of a C string, then appends count and bytes. */
    method AppendString(text: seq<byte>)
      requires 0 in text && |text| < I31
      modifies this
      ensures stream == old(stream) + Str(CString(text))
    {
      hide CString, Word;
      NulAt(text, 0);
      var length := 0;
      while text[length] != 0
        invariant 0 <= length <= |CString(text)| < |text| && stream == old(stream)
        decreases |text| - length
      {
        NulAt(text, length);
        length := length + 1;
      }
      NulAt(text, length);
      length := length + 1;
      Append(Int(length));
      Append(text[..length]);
      assert text[..length] == CString(text) + [0];
      assert Str(CString(text)) == Int(length) + (CString(text) + [0]);
    }

    /** serializar_paquete. */
    method Serialize() returns (bytes: seq<byte>)
      ensures bytes == Frame(op, stream)
    {
      bytes := Word(op);
      bytes := bytes + LittleEndian.Encode(|stream|, 8);
      if |stream| > 0 {
        bytes := bytes + stream;
      }
    }
  }

  /** The C strings of an array, without their NULs. */
  function Texts(params: seq<seq<byte>>): (r: seq<seq<byte>>)
    ensures |r| == |params| && forall i :: 0 <= i < |r| ==> r[i] == CString(params[i])
  {
    seq(|params|, i requires 0 <= i < |params| => CString(params[i]))
  }

  predicate AllTerminated(params: seq<seq<byte>>) {
    forall i :: 0 <= i < |params| ==> 0 in params[i] && |params[i]| < I31
  }

  lemma TerminatedSendable(text: seq<byte>)
    requires 0 in text && |text| < I31
    ensures Sendable(CString(text))
  {
    if CString(text) == text { assert false; }
  }

  lemma SendableSize(x: seq<byte>)
    requires Sendable(x)
    ensures |x| + 1 < I31
  {}

  lemma {:induction false} StrsAppend(xs: seq<seq<byte>>, x: seq<byte>)
    requires AllSendable(xs) && Sendable(x)
    ensures AllSendable(xs + [x]) && Strs(xs + [x]) == Strs(xs) + Str(x)
  {
    hide Str, Sendable;
    SendableSize(x);
    if xs == [] {
      assert xs + [x] == [x] && [x][1..] == [];
      assert Strs([x]) == Str(x) + Strs([]);
    } else {
      var tail := xs[1..] + [x];
      assert xs + [x] == [xs[0]] + tail && (xs + [x])[1..] == tail;
      StrsAppend(xs[1..], x);
      SendableSize(xs[0]);
      assert Strs(xs + [x]) == Str(xs[0]) + Strs(tail);
    }
  }

  /** enviar_devolver_proceso. A NULL name sends no call; a negative count sends no parameters. */
  method SendReturned(pid: i32, motivo: i32, name: Option<seq<byte>>, params: seq<seq<byte>>, cant: i32) returns (bytes: seq<byte>)
    requires name.Some? ==> 0 in name.value && |name.value| < I31 && cant <= |params| && AllTerminated(params)
    ensures var call := match name { case None => None
                                     case Some(n) => Some(Syscall(CString(n), Texts(params[..if cant < 0 then 0 else cant]))) };
            CallOk(call) && bytes == Frame(DEVOLVER_PROCESO, ReturnedPayload(Returned(pid, motivo, call)))
  {
    hide Word, CString, Str, Frame;
    var packet := new Packet(DEVOLVER_PROCESO);
    packet.Append(Int(pid));
    packet.Append(Int(motivo));
    ghost var head := packet.stream;
    assert head == Int(pid) + Int(motivo);
    if name.Some? {
      TerminatedSendable(name.value);
      packet.AppendString(name.value);
      var n: i32 := cant;
      if n < 0 { n := 0; }
      packet.Append(Int(n));
      ghost var before := packet.stream;
      ghost var texts := Texts(params[..0]);
      assert before + Strs(texts) == before;
      var i := 0;
      while i < n
        invariant 0 <= i <= n && texts == Texts(params[..i]) && AllSendable(texts)
        invariant packet.stream == before + Strs(texts)
      {
        TerminatedSendable(params[i]);
        packet.AppendString(params[i]);
        StrsAppend(texts, CString(params[i]));
        texts := texts + [CString(params[i])];
        i := i + 1;
        assert Texts(params[..i]) == texts;
      }
      assert packet.stream == head + (Str(CString(name.value)) + Int(n) + Strs(texts));
    } else {
      assert packet.stream == head + [];
    }
    bytes := packet.Serialize();
  }

  /* ---------- the demultiplexer ---------- */

  predicate IsNotification(op: u32) {
    op == MEMORIA_CORRUPTA_BSOD || op == MEMORIA_LIBERADA || op == INICIAR_COMPACTACION || op == FINALIZAR_COMPACTACION
    || op == NUEVA_MEMORIA_DISPONIBLE
  }

  /** How a wait for an answer ends: with its operation code, with the socket closed, or with an invalid message. */
  datatype Wait = Answer(op: u32) | Closed | Invalid

  /** What waiting for an answer comes to: how it ends, the notifications before it, and the bytes after the answer's
      operation code. */
  function Demux(s: seq<byte>): (Wait, seq<Message>, seq<byte>)
    decreases |s|
  {
    match TakeWord(s)
    case None => (Closed, [], [])
    case Some((op, rest)) =>
      if op == NO_BASE then (Closed, [], rest)
      else if !IsNotification(op) then (Answer(op), [], rest)
      else
        match TakeValidated(op, rest, false)
        case None => (Invalid, [], rest)
        case Some((m, rest')) => var (w, ms, end) := Demux(rest'); (w, [m] + ms, end)
  }

  /** The first step of that, with the notifications `seen` before. */
  lemma DemuxOne(s: seq<byte>, seen: seq<Message>)
    ensures seen + [] == seen
    ensures match TakeWord(s)
            case None => Demux(s) == (Closed, [], [])
            case Some((op, rest)) =>
              if op == NO_BASE then Demux(s) == (Closed, [], rest)
              else if !IsNotification(op) then Demux(s) == (Answer(op), [], rest)
              else
                match TakeValidated(op, rest, false)
                case None => Demux(s) == (Invalid, [], rest)
                case Some((m, rest')) =>
                  && Demux(s).0 == Demux(rest').0 && seen + Demux(s).1 == seen + [m] + Demux(rest').1 && Demux(s).2 == Demux(rest').2
  {
    hide TakeValidated, IsNotification, TakeWord;
    match TakeWord(s)
    case None =>
    case Some((op, rest)) =>
      if op != NO_BASE && IsNotification(op) && TakeValidated(op, rest, false).Some? {
        var (m, rest') := TakeValidated(op, rest, false).value;
        assert Demux(s).1 == [m] + Demux(rest').1;
        assert seen + ([m] + Demux(rest').1) == seen + [m] + Demux(rest').1;
      }
  }

  /** The acknowledgements that handling these notifications sends: one for each start of a compaction. */
  function Replies(ms: seq<Message>): seq<byte> {
    if ms == [] then []
    else Replies(ms[..|ms| - 1]) + if Op(ms[|ms| - 1]) == INICIAR_COMPACTACION then Frame(INICIAR_COMPACTACION, Int(-1)) else []
  }

  lemma NoReplies(ms: seq<Message>)
    ensures ms == [] ==> Replies(ms) == []
  {}

  lemma RepliesAppend(ms: seq<Message>, m: Message)
    ensures Replies(ms + [m]) == Replies(ms) + if Op(m) == INICIAR_COMPACTACION then Frame(INICIAR_COMPACTACION, Int(-1)) else []
  {
    assert (ms + [m])[..|ms|] == ms;
  }

  /** What is taken for an operation code is a message with that code. */
  lemma TakenOp(op: u32, s: seq<byte>)
    requires TakeValidated(op, s, false).Some?
    ensures Op(TakeValidated(op, s, false).value.0) == op
  {}

  /** Waiting for an answer handles the notifications sent before it, each once and in order, and stops right after
      the operation code of the answer. */
  lemma {:induction false} DemuxExact(ns: seq<Message>, op: u32, tail: seq<byte>)
    requires forall n :: n in ns ==> Fits(n) && Proper(n, false) && IsNotification(Op(n))
    requires !IsNotification(op) && op != NO_BASE
    ensures Demux(EncodedAll(ns) + Word(op) + tail) == (Answer(op), ns, tail)
  {
    hide Encoded, TakeValidated, Op;
    if ns == [] {
      assert EncodedAll(ns) + Word(op) + tail == Word(op) + tail;
      WordBack(op, tail);
    } else {
      var rest := EncodedAll(ns[1..]) + Word(op) + tail;
      assert EncodedAll(ns) + Word(op) + tail == Encoded(ns[0]) + rest;
      assert ns[0] in ns;
      MessageBack(ns[0], rest, false);
      DemuxExact(ns[1..], op, tail);
      assert [ns[0]] + ns[1..] == ns;
    }
  }

  class Channel {
    var input: seq<byte>
    var output: seq<byte>
    ghost var handled: seq<Message>

    constructor (input: seq<byte>)
      ensures this.input == input && output == [] && handled == []
    {
      this.input, output, handled := input, [], [];
    }

    /** recv with MSG_WAITALL: all the bytes asked for, unless the stream ends before. */
    method Receive(n: nat) returns (d: Option<seq<byte>>)
      modifies this`input
      ensures if n <= |old(input)| then d == Some(old(input)[..n]) && input == old(input)[n..] else d == None && input == []
    {
      if n <= |input| {
        d := Some(input[..n]);
        input := input[n..];
      } else {
        d := None;
        input := [];
      }
    }

    /** recibir_codigo_operacion. */
    method ReceiveOp() returns (op: Option<u32>)
      modifies this`input
      ensures match TakeWord(old(input))
              case None => op == None
              case Some((v, rest)) => op == Some(v) && input == rest
    {
      var d := Receive(4);
      if d == None { return None; }
      LittleEndian.EncodeDecode(d.value);
      LittleEndian.Widths();
      op := Some(LittleEndian.Decode(d.value));
    }

    method ReceiveInt() returns (v: Option<i32>)
      modifies this`input
      ensures match TakeInt(old(input))
              case None => v == None
              case Some((x, rest)) => v == Some(x) && input == rest
    {
      var w := ReceiveOp();
      if w == None { return None; }
      v := Some(if w.value < I31 then w.value else w.value - U32);
    }

    /** recibir_cadena. */
    method ReceiveString() returns (text: Option<seq<byte>>)
      modifies this`input
      ensures match TakeString(old(input))
              case None => text == None
              case Some((x, rest)) => text == Some(x) && input == rest
    {
      var length := ReceiveInt();
      if length == None || length.value < 0 { return None; }
      var d := Receive(length.value);
      if d == None { return None; }
      text := Some(CString(d.value));
    }

    /** The parameters of a system call, the last loop of recibir_devolver_proceso. */
    method ReceiveStrings(n: nat) returns (texts: Option<seq<seq<byte>>>)
      modifies this`input
      ensures match TakeStrings(old(input), n)
              case None => texts == None
              case Some((xs, rest)) => texts == Some(xs) && input == rest
    {
      hide TakeString;
      var got: seq<seq<byte>> := [];
      assert forall xs: seq<seq<byte>> :: got + xs == xs;
      var i := 0;
      while i < n
        invariant 0 <= i <= n
        invariant TakeStrings(old(input), n) == match TakeStrings(input, n - i)
                                                { case None => None case Some((xs, rest)) => Some((got + xs, rest)) }
      {
        ghost var before := input;
        var text := ReceiveString();
        if text == None { return None; }
        ghost var tail := TakeStrings(input, n - i - 1);
        assert tail.Some? ==> got + ([text.value] + tail.value.0) == got + [text.value] + tail.value.0;
        got := got + [text.value];
        i := i + 1;
      }
      assert got + [] == got;
      texts := Some(got);
    }

    /** recibir_devolver_proceso. */
    method ReceiveReturned() returns (r: Option<Returned>)
      modifies this`input
      ensures match Validated(old(input))
              case None => r == None
              case Some(body) =>
                match TakeReturned(body)
                case None => r == None
                case Some((x, rest)) => r == Some(x) && input == rest
    {
      hide TakeInt, TakeString, TakeStrings;
      var body := Validated(input);
      if body == None { return None; }
      input := body.value;
      var pid := ReceiveInt();
      if pid == None { return None; }
      var motivo := ReceiveInt();
      if motivo == None { return None; }
      if motivo.value != MOTIVO_SYSCALL { return Some(Returned(pid.value, motivo.value, None)); }
      var name := ReceiveString();
      if name == None { return None; }
      var cant := ReceiveInt();
      if cant == None { return None; }
      var params := ReceiveStrings(if cant.value < 0 then 0 else cant.value);
      if params == None { return None; }
      r := Some(Returned(pid.value, motivo.value, Some(Syscall(name.value, params.value))));
    }

    /** despachar_si_es_notificacion: drains and handles a notification; false if it is an answer. */
    method Dispatch(op: u32) returns (was: bool, valid: bool)
      modifies this
      ensures was <==> IsNotification(op)
      ensures !was ==> valid && input == old(input) && output == old(output) && handled == old(handled)
      ensures was ==> match TakeValidated(op, old(input), false)
                      case None => !valid && handled == old(handled)
                      case Some((m, rest)) =>
                        && valid && input == rest && handled == old(handled) + [m]
                        && output == old(output) + if op == INICIAR_COMPACTACION then Frame(op, Int(-1)) else []
    {
      hide TakeBody, Frame;
      if !IsNotification(op) { return false, true; }
      was := true;
      var found := TakeValidated(op, input, false);
      if found == None { return true, false; }
      input := found.value.1;
      handled := handled + [found.value.0];
      if op == INICIAR_COMPACTACION {
        output := output + Frame(op, Int(-1));
      }
      valid := true;
    }

    /** recibir_respuesta_de_memoria: handles the notifications that come before the answer, and returns the
        operation code of the answer. */
    method ReceiveAnswer() returns (w: Wait)
      modifies this
      ensures w == Demux(old(input)).0 && handled == old(handled) + Demux(old(input)).1
      ensures w.Answer? ==> input == Demux(old(input)).2 && output == old(output) + Replies(Demux(old(input)).1)
    {
      hide TakeValidated, Frame, TakeWord, IsNotification, Demux, Replies, Op;
      ghost var input0, handled0, output0 := input, handled, output;
      ghost var seen: seq<Message> := [];
      NoReplies(seen);
      while true
        invariant handled == handled0 + seen && output == output0 + Replies(seen)
        invariant Demux(input0).0 == Demux(input).0 && Demux(input0).1 == seen + Demux(input).1 && Demux(input0).2 == Demux(input).2
        decreases |input|
      {
        ghost var before := input;
        DemuxOne(before, seen);
        var op := ReceiveOp();
        if op == None { return Closed; }
        if op.value == NO_BASE { return Closed; }
        var was, valid := Dispatch(op.value);
        if !was { return Answer(op.value); }
        if !valid { return Invalid; }
        ghost var m := TakeValidated(op.value, TakeWord(before).value.1, false).value.0;
        TakenOp(op.value, TakeWord(before).value.1);
        RepliesAppend(seen, m);
        seen := seen + [m];
        assert handled == handled0 + seen;
      }
    }
  }
}
