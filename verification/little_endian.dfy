/** Integers as the bytes that an x86 machine keeps in memory and sends through a socket. */
module LittleEndian {
  import opened Words

  /** 256 to the power `n`. */
  function Range(n: nat): (r: nat)
    ensures 1 <= r
  {
    if n == 0 then 1 else 256 * Range(n - 1)
  }

  /** The low `n` bytes of `v`. */
  function Encode(v: nat, n: nat): (r: seq<byte>)
    ensures |r| == n
  {
    if n == 0 then [] else [v % 256] + Encode(v / 256, n - 1)
  }

  function Decode(d: seq<byte>): nat {
    if d == [] then 0 else d[0] + 256 * Decode(d[1..])
  }

  /** Decoding gives back what fits in the bytes kept. */
  lemma {:induction false} DecodeEncode(v: nat, n: nat)
    ensures v < Range(n) ==> Decode(Encode(v, n)) == v
  {
    if n != 0 {
      DecodeEncode(v / 256, n - 1);
      assert Encode(v, n)[1..] == Encode(v / 256, n - 1);
    }
  }

  lemma {:induction false} EncodeDecode(d: seq<byte>)
    ensures Decode(d) < Range(|d|) && Encode(Decode(d), |d|) == d
  {
    if d != [] {
      EncodeDecode(d[1..]);
      assert Decode(d) % 256 == d[0] && Decode(d) / 256 == Decode(d[1..]);
    }
  }

  /** Byte `i` of an encoding is the one that counts for 256 to the power `i`: the low byte comes first. */
  lemma {:induction false} ByteAt(v: nat, n: nat, i: nat)
    requires i < n
    ensures Encode(v, n)[i] == v / Range(i) % 256
  {
    if 0 < i {
      ByteAt(v / 256, n - 1, i - 1);
      DivideTwice(v, Range(i - 1));
    }
  }

  lemma DivideTwice(v: nat, m: nat)
    requires 0 < m
    ensures v / 256 / m == v / (256 * m)
  {
    var q, r := v / (256 * m), v % (256 * m);
    assert v == q * (256 * m) + r == 256 * (q * m) + r by { assert q * (256 * m) == 256 * (q * m); }
    assert v / 256 == q * m + r / 256;
    assert 0 <= r / 256 < m;
    QuotientIs(v / 256, m, q, r / 256);
  }

  lemma QuotientIs(v: nat, m: nat, q: nat, r: nat)
    requires v == q * m + r && r < m
    ensures v / m == q
  {
    var k := v / m;
    Rows(k, q, m);
    Rows(q, k, m);
  }

  lemma {:induction false} Rows(a: nat, b: nat, m: nat)
    ensures a < b ==> a * m + m <= b * m
    decreases b
  {
    if a < b {
      assert b * m == (b - 1) * m + m;
      Rows(a, b - 1, m);
    }
  }

  /** What the first `n` bytes of `d` count for. */
  function Weight(d: seq<byte>, n: nat): nat
    requires n <= |d|
  {
    if n == 0 then 0 else Weight(d, n - 1) + d[n - 1] * Range(n - 1)
  }

  /** A number is the sum of its bytes, each times 256 to the power of its index. */
  lemma {:induction false} DecodeIsWeight(d: seq<byte>)
    ensures Decode(d) == Weight(d, |d|)
  {
    if d != [] {
      DecodeIsWeight(d[1..]);
      WeightShift(d, |d|);
    }
  }

  lemma {:induction false} WeightShift(d: seq<byte>, n: nat)
    requires 0 < n <= |d|
    ensures Weight(d, n) == d[0] + 256 * Weight(d[1..], n - 1)
  {
    if n == 1 {
      assert Weight(d, 0) == 0 && Range(0) == 1;
    } else {
      WeightShift(d, n - 1);
      var x, m := d[n - 1], Range(n - 2);
      assert d[1..][n - 2] == x && x * (256 * m) == 256 * (x * m);
    }
  }

  lemma LowByte(d: seq<byte>)
    requires |d| == 1
    ensures Weight(d, 1) == d[0]
  {
    assert Range(0) == 1 && Weight(d, 0) == 0;
  }

  lemma Widths()
    ensures Range(1) == 256 && Range(4) == U32 && Range(8) == U32 * U32
  {
    assert Range(0) == 1 && Range(1) == 256 && Range(2) == 0x1_0000 && Range(3) == 0x100_0000;
    assert Range(4) == U32 && Range(5) == 256 * U32 && Range(6) == 0x1_0000 * U32 && Range(7) == 0x100_0000 * U32;
  }
}
