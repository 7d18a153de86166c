/** AES key unwrap (src/wpa2.rs) against the wrap process of RFC 3394. */
module KeyWrap {
  import opened Bytes
  import opened Wrappers

  /** One block cipher under one key. AES is any permutation of 16-byte blocks. */
  datatype BlockCipher = BlockCipher(enc: seq<byte> -> seq<byte>, dec: seq<byte> -> seq<byte>)

  ghost predicate Permutation(c: BlockCipher) {
    && (forall b | |b| == 16 :: |Encrypt(c, b)| == 16 && Decrypt(c, Encrypt(c, b)) == b)
    && (forall b | |b| == 16 :: |Decrypt(c, b)| == 16 && Encrypt(c, Decrypt(c, b)) == b)
  }

  function Encrypt(c: BlockCipher, b: seq<byte>): seq<byte> {
    c.enc(b)
  }

  function Decrypt(c: BlockCipher, b: seq<byte>): seq<byte> {
    c.dec(b)
  }

  /** Errors about encrypted key data. */
  datatype KeyDataError = InvalidEncryptedKeyData | OutputTooSmall | KeyUnwrapIntegrity | MissingGroupKey

  const IV: seq<byte> := [0xa6, 0xa6, 0xa6, 0xa6, 0xa6, 0xa6, 0xa6, 0xa6]

  /** The integrity register A and the blocks R[1..n], as one flat sequence. */
  datatype Register = Register(a: seq<byte>, r: seq<byte>)

  predicate Shaped(x: Register, n: nat) {
    |x.a| == 8 && |x.r| == 8 * n
  }

  function XorCounter(a: seq<byte>, t: nat): (s: seq<byte>)
    requires |a| == 8
    ensures |s| == 8
  {
    seq(8, i requires 0 <= i < 8 => Xor(a[i], ToBe(t, 8)[i]))
  }

  lemma XorCounterCancels(a: seq<byte>, t: nat)
    requires |a| == 8
    ensures XorCounter(XorCounter(a, t), t) == a
  {
    forall i | 0 <= i < 8 ensures XorCounter(XorCounter(a, t), t)[i] == a[i] {
      XorCancels(a[i], ToBe(t, 8)[i]);
    }
  }

  function BlockAt(r: seq<byte>, i: nat): (b: seq<byte>)
    requires 1 <= i && 8 * i <= |r|
    ensures |b| == 8
  {
    r[8 * (i - 1)..8 * i]
  }

  function WithBlock(r: seq<byte>, i: nat, b: seq<byte>): (s: seq<byte>)
    requires 1 <= i && 8 * i <= |r| && |b| == 8
    ensures |s| == |r|
  {
    r[..8 * (i - 1)] + b + r[8 * i..]
  }

  /** Section 2.2.1 of RFC 3394, step 2, for one index. */
  ghost function WrapStep(c: BlockCipher, n: nat, t: nat, i: nat, x: Register): (y: Register)
    requires Permutation(c) && Shaped(x, n) && 1 <= i <= n
    ensures Shaped(y, n)
  {
    var b := Encrypt(c, x.a + BlockAt(x.r, i));
    Register(XorCounter(b[..8], t), WithBlock(x.r, i, b[8..]))
  }

  /** Section 2.2.2 of RFC 3394, step 2, for one index. */
  ghost function UnwrapStep(c: BlockCipher, n: nat, t: nat, i: nat, x: Register): (y: Register)
    requires Permutation(c) && Shaped(x, n) && 1 <= i <= n
    ensures Shaped(y, n)
  {
    var b := Decrypt(c, XorCounter(x.a, t) + BlockAt(x.r, i));
    Register(b[..8], WithBlock(x.r, i, b[8..]))
  }

  lemma WithBlockTwice(r: seq<byte>, i: nat, b: seq<byte>)
    requires 1 <= i && 8 * i <= |r| && |b| == 8
    ensures BlockAt(WithBlock(r, i, b), i) == b
    ensures WithBlock(WithBlock(r, i, b), i, BlockAt(r, i)) == r
  {
  }

  lemma StepInverse(c: BlockCipher, n: nat, t: nat, i: nat, x: Register)
    requires Permutation(c) && Shaped(x, n) && 1 <= i <= n
    ensures UnwrapStep(c, n, t, i, WrapStep(c, n, t, i, x)) == x
    ensures WrapStep(c, n, t, i, UnwrapStep(c, n, t, i, x)) == x
  {
    var b := Encrypt(c, x.a + BlockAt(x.r, i));
    XorCounterCancels(b[..8], t);
    WithBlockTwice(x.r, i, b[8..]);
    assert b[..8] + b[8..] == b;
    assert (x.a + BlockAt(x.r, i))[..8] == x.a && (x.a + BlockAt(x.r, i))[8..] == BlockAt(x.r, i);

    var d := Decrypt(c, XorCounter(x.a, t) + BlockAt(x.r, i));
    XorCounterCancels(x.a, t);
    WithBlockTwice(x.r, i, d[8..]);
    assert d[..8] + d[8..] == d;
    var e := XorCounter(x.a, t) + BlockAt(x.r, i);
    assert e[..8] == XorCounter(x.a, t) && e[8..] == BlockAt(x.r, i);
  }

  /** Indices 1 to `i` of round `j`, upwards. */
  ghost function WrapRound(c: BlockCipher, n: nat, j: nat, i: nat, x: Register): (y: Register)
    requires Permutation(c) && Shaped(x, n) && i <= n
    ensures Shaped(y, n)
  {
    if i == 0 then x else WrapStep(c, n, n * j + i, i, WrapRound(c, n, j, i - 1, x))
  }

  /** Rounds 0 to `k - 1`, upwards. */
  ghost function WrapRounds(c: BlockCipher, n: nat, k: nat, x: Register): (y: Register)
    requires Permutation(c) && Shaped(x, n)
    ensures Shaped(y, n)
  {
    if k == 0 then x else WrapRound(c, n, k - 1, n, WrapRounds(c, n, k - 1, x))
  }

  /** Indices `i` to 1 of round `j`, downwards. */
  ghost function UnwrapRound(c: BlockCipher, n: nat, j: nat, i: nat, x: Register): (y: Register)
    requires Permutation(c) && Shaped(x, n) && i <= n
    ensures Shaped(y, n)
    decreases i
  {
    if i == 0 then x else UnwrapRound(c, n, j, i - 1, UnwrapStep(c, n, n * j + i, i, x))
  }

  /** Rounds `k - 1` to 0, downwards. */
  ghost function UnwrapRounds(c: BlockCipher, n: nat, k: nat, x: Register): (y: Register)
    requires Permutation(c) && Shaped(x, n)
    ensures Shaped(y, n)
    decreases k
  {
    if k == 0 then x else UnwrapRounds(c, n, k - 1, UnwrapRound(c, n, k - 1, n, x))
  }

  lemma {:induction false} RoundInverse(c: BlockCipher, n: nat, j: nat, i: nat, x: Register)
    requires Permutation(c) && Shaped(x, n) && i <= n
    ensures UnwrapRound(c, n, j, i, WrapRound(c, n, j, i, x)) == x
    ensures WrapRound(c, n, j, i, UnwrapRound(c, n, j, i, x)) == x
    decreases i
  {
    hide Permutation, WrapStep, UnwrapStep, Shaped;
    if i > 0 {
      StepInverse(c, n, n * j + i, i, WrapRound(c, n, j, i - 1, x));
      RoundInverse(c, n, j, i - 1, x);
      var y := UnwrapStep(c, n, n * j + i, i, x);
      RoundInverse(c, n, j, i - 1, y);
      StepInverse(c, n, n * j + i, i, x);
    }
  }

  lemma {:induction false} RoundsInverse(c: BlockCipher, n: nat, k: nat, x: Register)
    requires Permutation(c) && Shaped(x, n)
    ensures UnwrapRounds(c, n, k, WrapRounds(c, n, k, x)) == x
    ensures WrapRounds(c, n, k, UnwrapRounds(c, n, k, x)) == x
    decreases k
  {
    hide Permutation, WrapRound, UnwrapRound, Shaped;
    if k > 0 {
      RoundInverse(c, n, k - 1, n, WrapRounds(c, n, k - 1, x));
      RoundsInverse(c, n, k - 1, x);
      var y := UnwrapRound(c, n, k - 1, n, x);
      RoundsInverse(c, n, k - 1, y);
      RoundInverse(c, n, k - 1, n, x);
    }
  }

  /** Key wrap, section 2.2.1 of RFC 3394. */
  ghost function Wrap(c: BlockCipher, plain: seq<byte>): (s: seq<byte>)
    requires Permutation(c) && |plain| % 8 == 0
    ensures |s| == |plain| + 8
  {
    var x := WrapRounds(c, |plain| / 8, 6, Register(IV, plain));
    x.a + x.r
  }

  /** What `aes_key_unwrap` returns for an output buffer of `capacity` bytes. */
  ghost function Unwrap(c: BlockCipher, wrapped: seq<byte>, capacity: nat): Result<seq<byte>, KeyDataError>
    requires Permutation(c)
  {
    if |wrapped| < 24 || |wrapped| % 8 != 0 then Err(InvalidEncryptedKeyData)
    else if |wrapped| - 8 > capacity then Err(OutputTooSmall)
    else Checked(UnwrapRounds(c, (|wrapped| - 8) / 8, 6, Register(wrapped[..8], wrapped[8..])))
  }

  /** The integrity check of section 2.2.3 of RFC 3394. */
  function Checked(x: Register): Result<seq<byte>, KeyDataError> {
    if x.a == IV then Ok(x.r) else Err(KeyUnwrapIntegrity)
  }

  /** Unwrap inverts wrap for every plaintext of two or more blocks. */
  lemma UnwrapInvertsWrap(c: BlockCipher, plain: seq<byte>, capacity: nat)
    requires Permutation(c) && |plain| % 8 == 0 && 16 <= |plain| <= capacity
    ensures Unwrap(c, Wrap(c, plain), capacity) == Ok(plain)
  {
    hide Permutation, WrapRounds, UnwrapRounds;
    var n := |plain| / 8;
    var x := Register(IV, plain);
    RoundsInverse(c, n, 6, x);
    var w := Wrap(c, plain);
    var y := WrapRounds(c, n, 6, x);
    assert w[..8] == y.a && w[8..] == y.r;
  }

  /** Unwrap accepts exactly the wraps of the plaintexts it returns. */
  lemma AcceptedIsWrapped(c: BlockCipher, wrapped: seq<byte>, plain: seq<byte>, capacity: nat)
    requires Permutation(c)
    ensures Unwrap(c, wrapped, capacity) == Ok(plain) <==>
            |plain| % 8 == 0 && 16 <= |plain| <= capacity && wrapped == Wrap(c, plain)
  {
    hide Permutation, WrapRounds, UnwrapRounds;
    if Unwrap(c, wrapped, capacity) == Ok(plain) {
      var n := (|wrapped| - 8) / 8;
      RoundsInverse(c, n, 6, Register(wrapped[..8], wrapped[8..]));
      assert UnwrapRounds(c, n, 6, Register(wrapped[..8], wrapped[8..])) == Register(IV, plain);
      assert wrapped == wrapped[..8] + wrapped[8..];
    } else if |plain| % 8 == 0 && 16 <= |plain| <= capacity && wrapped == Wrap(c, plain) {
      UnwrapInvertsWrap(c, plain, capacity);
    }
  }

  /** Two keys that wrap to the same ciphertext are the same key. */
  lemma WrapIsInjective(c: BlockCipher, left: seq<byte>, right: seq<byte>)
    requires Permutation(c) && |left| % 8 == 0 && |right| % 8 == 0 && 16 <= |left| && 16 <= |right|
    requires Wrap(c, left) == Wrap(c, right)
    ensures left == right
  {
    UnwrapInvertsWrap(c, left, |left|);
    UnwrapInvertsWrap(c, right, |left|);
  }

  // ------------------------------------------------------ the in-place loops

  lemma BlockSizes(c: BlockCipher, b: seq<byte>)
    requires Permutation(c) && |b| == 16
    ensures |Encrypt(c, b)| == 16 && |Decrypt(c, b)| == 16
  {
  }

  /** The cipher input of one iteration: A exclusive-or t, then the block. */
  method MakeBlock(a: array<byte>, t: nat, out: array<byte>, start: nat) returns (block: array<byte>)
    requires a.Length == 8 && start + 8 <= out.Length
    ensures fresh(block) && block[..] == XorCounter(a[..], t) + out[start..start + 8]
  {
    hide Xor, ToBe;
    block := new byte[16](i => 0);
    var counter := ToBe(t, 8);
    for position := 0 to 8
      invariant forall k | 0 <= k < position :: block[k] == Xor(a[k], counter[k])
    {
      block[position] := Xor(a[position], counter[position]);
    }
    assert block[..8] == XorCounter(a[..], t);
    CopyInto(out[start..start + 8], block, 8);
  }

  /** One iteration of `unwrap_key_blocks`. */
  method UnwrapBlock(c: BlockCipher, n: nat, t: nat, index: nat, a: array<byte>, out: array<byte>)
    requires Permutation(c) && a != out && a.Length == 8 && out.Length >= 8 * n && 1 <= index <= n
    modifies a, out
    ensures Register(a[..], out[..8 * n]) == UnwrapStep(c, n, t, index, old(Register(a[..], out[..8 * n])))
    ensures out[8 * n..] == old(out[8 * n..])
  {
    hide Permutation, XorCounter;
    var start := (index - 1) * 8;
    ghost var was := out[..];
    var block := MakeBlock(a, t, out, start);
    assert out[start..start + 8] == BlockAt(was[..8 * n], index);
    BlockSizes(c, block[..]);
    var decrypted := Decrypt(c, block[..]);
    CopyInto(decrypted[..8], a, 0);
    CopyInto(decrypted[8..], out, start);
    SpliceIsWithBlock(was, n, index, decrypted[8..]);
  }

  lemma SpliceIsWithBlock(was: seq<byte>, n: nat, index: nat, b: seq<byte>)
    requires 8 * n <= |was| && 1 <= index <= n && |b| == 8
    ensures var now := was[..8 * (index - 1)] + b + was[8 * index..];
            now[..8 * n] == WithBlock(was[..8 * n], index, b) && now[8 * n..] == was[8 * n..]
  {
  }

  /** `unwrap_key_blocks`: six rounds down, `n` indices down in each. */
  method UnwrapKeyBlocks(c: BlockCipher, n: nat, a: array<byte>, out: array<byte>)
    requires Permutation(c) && a != out && a.Length == 8 && out.Length >= 8 * n
    modifies a, out
    ensures Register(a[..], out[..8 * n]) == UnwrapRounds(c, n, 6, old(Register(a[..], out[..8 * n])))
    ensures out[8 * n..] == old(out[8 * n..])
  {
    hide Permutation, UnwrapStep;
    ghost var goal := UnwrapRounds(c, n, 6, Register(a[..], out[..8 * n]));
    for round := 6 downto 0
      invariant UnwrapRounds(c, n, round, Register(a[..], out[..8 * n])) == goal
      invariant out[8 * n..] == old(out[8 * n..])
    {
      ghost var after := UnwrapRound(c, n, round, n, Register(a[..], out[..8 * n]));
      for index := n downto 0
        invariant UnwrapRound(c, n, round, index, Register(a[..], out[..8 * n])) == after
        invariant out[8 * n..] == old(out[8 * n..])
      {
        UnwrapBlock(c, n, n * round + index + 1, index + 1, a, out);
      }
    }
  }

  /** `aes_key_unwrap`: the plaintext on success; on an integrity failure the
      attempted plaintext is wiped. */
  method AesKeyUnwrap(c: BlockCipher, wrapped: seq<byte>, out: array<byte>) returns (r: Result<nat, KeyDataError>)
    requires Permutation(c)
    modifies out
    ensures r.Ok? ==> r.value <= out.Length && Unwrap(c, wrapped, out.Length) == Ok(out[..r.value])
    ensures r.Ok? ==> out[r.value..] == old(out[..])[r.value..]
    ensures r.Err? ==> Unwrap(c, wrapped, out.Length) == Err(r.error)
    ensures r == Err(KeyUnwrapIntegrity) ==>
              |wrapped| - 8 <= out.Length && forall k | 0 <= k < |wrapped| - 8 :: out[k] == 0
    ensures r.Err? && r.error != KeyUnwrapIntegrity ==> out[..] == old(out[..])
  {
    hide Permutation, UnwrapRounds;
    if |wrapped| < 24 || |wrapped| % 8 != 0 {
      return Err(InvalidEncryptedKeyData);
    }
    var len := |wrapped| - 8;
    if len > out.Length {
      return Err(OutputTooSmall);
    }
    var n := len / 8;
    var a: array<byte> := new byte[8](i requires 0 <= i < 8 => wrapped[i]);
    forall k | 0 <= k < len {
      out[k] := wrapped[8 + k];
    }
    assert a[..] == wrapped[..8];
    assert out[..8 * n] == wrapped[8..];
    UnwrapKeyBlocks(c, n, a, out);
    if a[..] != IV {
      forall k | 0 <= k < len {
        out[k] := 0;
      }
      return Err(KeyUnwrapIntegrity);
    }
    return Ok(len);
  }
}
