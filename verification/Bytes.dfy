/** Bytes, machine words as byte sequences, and bytewise exclusive or. */
module Bytes {

  type byte = x: int | 0 <= x < 256

  /** Exclusive or of the low `n` bits. */
  function XorBits(x: nat, y: nat, n: nat): nat {
    if n == 0 then 0 else (x + y) % 2 + 2 * XorBits(x / 2, y / 2, n - 1)
  }

  function Pow2(n: nat): (p: nat)
    ensures p > 0
  {
    if n == 0 then 1 else 2 * Pow2(n - 1)
  }

  lemma {:induction false} XorBitsBound(x: nat, y: nat, n: nat)
    ensures XorBits(x, y, n) < Pow2(n)
  {
    if n > 0 {
      XorBitsBound(x / 2, y / 2, n - 1);
    }
  }

  /** Exclusive or with the same word twice gives the word back. */
  lemma {:induction false} XorBitsCancels(x: nat, y: nat, n: nat)
    requires x < Pow2(n)
    ensures XorBits(XorBits(x, y, n), y, n) == x
  {
    if n > 0 {
      var rest := XorBits(x / 2, y / 2, n - 1);
      var low := (x + y) % 2;
      assert XorBits(x, y, n) == low + 2 * rest;
      assert (low + 2 * rest) / 2 == rest;
      assert (low + 2 * rest + y) % 2 == x % 2;
      XorBitsCancels(x / 2, y / 2, n - 1);
    }
  }

  function Xor(x: byte, y: byte): byte {
    XorBitsBound(x, y, 8);
    assert Pow2(8) == 256;
    XorBits(x, y, 8)
  }

  lemma XorCancels(x: byte, y: byte)
    ensures Xor(Xor(x, y), y) == x
  {
    assert Pow2(8) == 256;
    XorBitsCancels(x, y, 8);
  }

  /** Big-endian bytes of the low 16 bits. */
  function Be16(x: nat): (s: seq<byte>)
    ensures |s| == 2
  {
    [(x / 256) % 256, x % 256]
  }

  function FromBe16(high: byte, low: byte): nat {
    256 * (high as int) + low as int
  }

  /** Big-endian value of a byte sequence. */
  function FromBe(s: seq<byte>): nat {
    if s == [] then 0 else 256 * FromBe(s[..|s| - 1]) + s[|s| - 1]
  }

  /** The `n` low bytes of `x`, most significant first. */
  function ToBe(x: nat, n: nat): (s: seq<byte>)
    ensures |s| == n
  {
    if n == 0 then [] else ToBe(x / 256, n - 1) + [x % 256]
  }

  function Pow256(n: nat): nat {
    if n == 0 then 1 else 256 * Pow256(n - 1)
  }

  lemma {:induction false} BeRoundTrip(x: nat, n: nat)
    requires x < Pow256(n)
    ensures FromBe(ToBe(x, n)) == x
  {
    if n > 0 {
      BeRoundTrip(x / 256, n - 1);
      assert ToBe(x, n)[..n - 1] == ToBe(x / 256, n - 1);
    }
  }

  /** Little-endian 32-bit word at an offset. */
  function Le32(s: seq<byte>, at: nat): nat
    requires at + 4 <= |s|
  {
    (s[at] as int) + 256 * (s[at + 1] as int) + 65536 * (s[at + 2] as int) + 16777216 * (s[at + 3] as int)
  }

  /** Little-endian 16-bit word at an offset. */
  function Le16(s: seq<byte>, at: nat): nat
    requires at + 2 <= |s|
  {
    (s[at] as int) + 256 * (s[at + 1] as int)
  }

  /** Bit `n` of a word. */
  predicate Bit(x: nat, n: nat) {
    (x / Pow2(n)) % 2 == 1
  }

  function Zeros(n: nat): (s: seq<byte>)
    ensures |s| == n && forall i | 0 <= i < n :: s[i] == 0
  {
    seq(n, i => 0)
  }

  /** `copy_from_slice` at an offset. */
  method CopyInto(source: seq<byte>, target: array<byte>, at: nat)
    requires at + |source| <= target.Length
    modifies target
    ensures target[..] == old(target[..at]) + source + old(target[at + |source|..])
  {
    forall k | 0 <= k < |source| {
      target[at + k] := source[k];
    }
  }

  /** The first `k` bytes from `from` on moved down to `to`. */
  function Slid(s: seq<byte>, from: nat, to: nat, k: nat): (t: seq<byte>)
    requires to <= from && from + k <= |s|
    ensures |t| == |s|
  {
    s[..to] + s[from..from + k] + s[to + k..]
  }

  /** The next byte is still where it was. */
  lemma SlideOne(s: seq<byte>, from: nat, to: nat, k: nat)
    requires to <= from && from + k < |s|
    ensures var t := Slid(s, from, to, k); t[to + k := t[from + k]] == Slid(s, from, to, k + 1)
  {
    var t := Slid(s, from, to, k);
    assert t[from + k] == s[from + k];
    assert s[from..from + (k + 1)] == s[from..from + k] + [s[from + k]];
    assert s[to + k..] == [s[to + k]] + s[to + (k + 1)..];
  }

  /** `copy_within` towards the front: byte by byte, each read before the write
      position reaches it. */
  method CopyDown(a: array<byte>, from: nat, end: nat, to: nat)
    requires to <= from <= end <= a.Length
    modifies a
    ensures a[..] == Slid(old(a[..]), from, to, end - from)
  {
    hide Slid;
    ghost var was := a[..];
    var k := 0;
    assert a[..] == Slid(was, from, to, 0) by { NotSlid(was, from, to); }
    while k < end - from
      invariant k <= end - from && a[..] == Slid(was, from, to, k)
    {
      SlideOne(was, from, to, k);
      a[to + k] := a[from + k];
      k := k + 1;
    }
  }

  lemma NotSlid(s: seq<byte>, from: nat, to: nat)
    requires to <= from <= |s|
    ensures Slid(s, from, to, 0) == s
  {
  }
}
