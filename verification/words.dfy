/** Fixed-width values of the C sources, and the few helpers every module shares. */
module Words {

  const U32: int := 0x1_0000_0000

  /** A C `uint32_t`. Storing a sum in a `u32` is an obligation to prove that it does not wrap. */
  type u32 = x: int | 0 <= x < 0x1_0000_0000

  /** A divisor read from a configuration file. */
  type pos32 = x: int | 1 <= x < 0x1_0000_0000 witness 1

  type byte = x: int | 0 <= x < 256

  /** `(uint32_t)-1`: "no base" for a swapped segment, "no block" for a failed allocation. */
  const NO_BASE: u32 := 0xFFFF_FFFF

  /** `a + b` on `uint32_t`, for the sums that the sources leave free to wrap. */
  function Add32(a: u32, b: u32): u32 {
    if a + b < U32 then a + b else a + b - U32
  }

  datatype Option<+T> = None | Some(value: T)

  function One(b: bool): nat {
    if b then 1 else 0
  }

  /** `xs` with element `k` taken out. */
  function Without<T>(xs: seq<T>, k: nat): seq<T>
    requires k < |xs|
  {
    xs[..k] + xs[k + 1..]
  }

  /** `xs` without the first `x`. */
  function Remove(xs: seq<int>, x: int): seq<int> {
    if xs == [] then [] else if xs[0] == x then xs[1..] else [xs[0]] + Remove(xs[1..], x)
  }

  /** Index of the first occurrence of `x`, or -1. */
  function IndexOf(xs: seq<int>, x: int): (k: int)
    ensures -1 <= k < |xs|
    ensures 0 <= k ==> xs[k] == x && forall i :: 0 <= i < k ==> xs[i] != x
    ensures k == -1 ==> x !in xs
  {
    if xs == [] then -1
    else
      var n := |xs| - 1;
      var r := IndexOf(xs[..n], x);
      if 0 <= r then r else if xs[n] == x then n else -1
  }

  /** `g` is `f` with `n` elements of `d`, from index `from` on, written over it from address `a`. */
  ghost predicate Patched<T>(g: seq<T>, f: seq<T>, a: int, d: seq<T>, from: int, n: int) {
    && 0 <= from <= from + n <= |d|
    && |g| == |f|
    && forall i :: 0 <= i < |f| ==> g[i] == if a <= i < a + n then d[from + i - a] else f[i]
  }

  function Patch<T>(f: seq<T>, a: int, d: seq<T>, from: int, n: int): (r: seq<T>)
    requires 0 <= from <= from + n <= |d|
    ensures Patched(r, f, a, d, from, n)
  {
    seq(|f|, i requires 0 <= i < |f| => if a <= i < a + n then d[from + i - a] else f[i])
  }

  /** `f` with `d` written over it from address `a`; what falls outside `f` is dropped. */
  function Overlay<T>(f: seq<T>, a: int, d: seq<T>): (r: seq<T>)
    ensures |r| == |f|
    ensures forall i :: 0 <= i < |f| ==> r[i] == if a <= i < a + |d| then d[i - a] else f[i]
  {
    Patch(f, a, d, 0, |d|)
  }

  lemma PatchedTwice<T>(h: seq<T>, g: seq<T>, f: seq<T>, a: int, d: seq<T>, m: int, n: int)
    requires Patched(g, f, a, d, 0, m) && Patched(h, g, a + m, d, m, n)
    ensures Patched(h, f, a, d, 0, m + n)
  {}

  /** What would be written past the end of `f` does not matter. */
  lemma PatchedIsOverlay<T>(g: seq<T>, f: seq<T>, a: int, d: seq<T>, n: int)
    requires Patched(g, f, a, d, 0, n)
    requires n == |d| || |f| <= a + n
    ensures g == Overlay(f, a, d)
  {}
}
