/** The pairwise key expansion and the group key in Message 3 (src/wpa2.rs). */
module KeyMaterial {
  import opened Bytes
  import opened EapolKey
  import opened KeyWrap
  import opened Wrappers

  // ------------------------------------------------------- pairwise expansion

  /** "Pairwise key expansion" followed by the zero byte. */
  const LABEL: seq<byte> := [80, 97, 105, 114, 119, 105, 115, 101, 32, 107, 101, 121, 32,
                             101, 120, 112, 97, 110, 115, 105, 111, 110, 0]

  predicate LexLe(l: seq<byte>, r: seq<byte>)
    requires |l| == |r|
  {
    l == [] || l[0] < r[0] || (l[0] == r[0] && LexLe(l[1..], r[1..]))
  }

  lemma {:induction false} LexTotal(l: seq<byte>, r: seq<byte>)
    requires |l| == |r|
    ensures LexLe(l, r) || LexLe(r, l)
    ensures LexLe(l, r) && LexLe(r, l) ==> l == r
  {
    if l != [] {
      LexTotal(l[1..], r[1..]);
      if l[0] == r[0] && l[1..] == r[1..] {
        assert l == [l[0]] + l[1..] && r == [r[0]] + r[1..];
      }
    }
  }

  /** The smaller of two values, then the larger. */
  function Ordered(l: seq<byte>, r: seq<byte>): (s: seq<byte>)
    requires |l| == |r|
    ensures |s| == |l| + |r|
  {
    if LexLe(l, r) then l + r else r + l
  }

  function PrfBlock(c: Crypto, pmk: seq<byte>, context: seq<byte>, counter: byte): (s: seq<byte>)
    ensures |s| == 20
  {
    Hmac(c, pmk, LABEL + context + [counter])
  }

  /** The first `n` blocks of the pseudorandom function. */
  function Prf(c: Crypto, pmk: seq<byte>, context: seq<byte>, n: byte): (s: seq<byte>)
    ensures |s| == 20 * n
    decreases n
  {
    if n == 0 then [] else Prf(c, pmk, context, n - 1) + PrfBlock(c, pmk, context, n - 1)
  }

  /** Pairwise transient key: the first 48 bytes of the expansion. */
  function Ptk(c: Crypto, pmk: seq<byte>, aa: seq<byte>, spa: seq<byte>, an: seq<byte>, sn: seq<byte>): (s: seq<byte>)
    requires |aa| == |spa| && |an| == |sn|
    ensures |s| == 48
  {
    Prf(c, pmk, Ordered(aa, spa) + Ordered(an, sn), 3)[..48]
  }

  /** Both ends derive the same key, whichever calls itself the authenticator. */
  lemma PtkIsSymmetric(c: Crypto, pmk: seq<byte>, aa: seq<byte>, spa: seq<byte>, an: seq<byte>, sn: seq<byte>)
    requires |aa| == |spa| && |an| == |sn|
    ensures Ptk(c, pmk, aa, spa, an, sn) == Ptk(c, pmk, spa, aa, sn, an)
  {
    LexTotal(aa, spa);
    LexTotal(an, sn);
  }

  function Kck(ptk: seq<byte>): (k: seq<byte>)
    requires |ptk| == 48
    ensures |k| == 16
  {
    ptk[..16]
  }

  function Kek(ptk: seq<byte>): (k: seq<byte>)
    requires |ptk| == 48
    ensures |k| == 16
  {
    ptk[16..32]
  }

  function TemporalKey(ptk: seq<byte>): (k: seq<byte>)
    requires |ptk| == 48
    ensures |k| == 16
  {
    ptk[32..]
  }

  lemma PrfGrows(c: Crypto, pmk: seq<byte>, context: seq<byte>, n: byte)
    requires n < 255
    ensures Prf(c, pmk, context, n + 1) == Prf(c, pmk, context, n) + PrfBlock(c, pmk, context, n)
  {
  }

  /** `Pmk::derive_ptk`: fills 48 bytes block by block, the last one cut short. */
  method DerivePtk(c: Crypto, pmk: seq<byte>, aa: seq<byte>, spa: seq<byte>, an: seq<byte>, sn: seq<byte>)
    returns (ptk: seq<byte>)
    requires |aa| == |spa| == 6 && |an| == |sn| == 32
    ensures ptk == Ptk(c, pmk, aa, spa, an, sn)
  {
    hide Ordered;
    var context: array<byte> := new byte[76](i => 0);
    CopyInto(Ordered(aa, spa), context, 0);
    CopyInto(Ordered(an, sn), context, 12);
    assert context[..] == Ordered(aa, spa) + Ordered(an, sn);
    ptk := Expand(c, pmk, context[..]);
  }

  method Expand(c: Crypto, pmk: seq<byte>, context: seq<byte>) returns (ptk: seq<byte>)
    ensures ptk == Prf(c, pmk, context, 3)[..48]
  {
    var bytes: array<byte> := new byte[48](i => 0);
    var written := 0;
    var counter: byte := 0;
    assert bytes[..0] == Prf(c, pmk, context, 0)[..0];
    hide Prf, PrfBlock;
    while written < 48
      invariant counter <= 3 && written == if 20 * counter < 48 then 20 * counter else 48
      invariant bytes[..written] == Prf(c, pmk, context, counter)[..written]
    {
      PrfGrows(c, pmk, context, counter);
      var block := PrfBlock(c, pmk, context, counter);
      var count := if |block| < 48 - written then |block| else 48 - written;
      CopyInto(block[..count], bytes, written);
      written := written + count;
      counter := counter + 1;
    }
    ptk := bytes[..];
    assert ptk == bytes[..written];
  }

  // ---------------------------------------------------------------- group key

  datatype Gtk = Gtk(index: byte, key: seq<byte>)

  datatype Kde = Kde(id: byte, body: seq<byte>)

  const GTK_OUI: seq<byte> := [0x00, 0x0f, 0xac, 0x01]

  predicate Encodable(k: Kde) {
    k.id != 0 && 0 < |k.body| < 256
  }

  predicate IsGtk(k: Kde) {
    k.id == 0xdd && GTK_OUI <= k.body
  }

  function EncodeKde(k: Kde): (s: seq<byte>)
    requires Encodable(k)
    ensures |s| == |k.body| + 2
  {
    [k.id, |k.body|] + k.body
  }

  ghost predicate Skipped(ks: seq<Kde>) {
    forall i | 0 <= i < |ks| :: Encodable(ks[i]) && !IsGtk(ks[i])
  }

  ghost function EncodeAll(ks: seq<Kde>): seq<byte>
    requires Skipped(ks)
  {
    if ks == [] then [] else EncodeKde(ks[0]) + EncodeAll(ks[1..])
  }

  /** A GTK element: index in the low bits, reserved bits clear, 16 key bytes. */
  function GtkKde(index: byte, key: seq<byte>): Kde {
    Kde(0xdd, GTK_OUI + [index, 0] + key)
  }

  /** `take_kde` at the start of a byte string. */
  function FirstKde(bytes: seq<byte>): (r: Result<Option<Kde>, KeyDataError>)
    ensures r.Ok? && r.value.Some? ==>
              Encodable(r.value.value) && EncodeKde(r.value.value) <= bytes
  {
    if |bytes| == 0 || bytes[0] == 0 then Ok(None)
    else if |bytes| < 2 then Err(MissingGroupKey)
    else if bytes[1] == 0 then Ok(None)
    else if bytes[1] > |bytes| - 2 then Err(MissingGroupKey)
    else
      assert [bytes[0], bytes[1]] + bytes[2..2 + bytes[1]] <= bytes;
      Ok(Some(Kde(bytes[0], bytes[2..2 + bytes[1]])))
  }

  function GtkBody(body: seq<byte>): Result<Gtk, KeyDataError> {
    if |body| != 22 then Err(InvalidEncryptedKeyData)
    else if body[4] >= 8 || body[5] != 0 then Err(InvalidEncryptedKeyData)
    else Ok(Gtk(body[4] % 4, body[6..]))
  }

  /** `parse_gtk_kde`. */
  function ParseGtk(bytes: seq<byte>): Result<Gtk, KeyDataError>
    decreases |bytes|
  {
    match FirstKde(bytes)
    case Err(e) => Err(e)
    case Ok(None) => Err(MissingGroupKey)
    case Ok(Some(k)) =>
      if IsGtk(k) then GtkBody(k.body) else ParseGtk(bytes[|EncodeKde(k)|..])
  }

  lemma FirstOfEncoded(k: Kde, rest: seq<byte>)
    requires Encodable(k)
    ensures FirstKde(EncodeKde(k) + rest) == Ok(Some(k))
  {
    var bytes := EncodeKde(k) + rest;
    assert bytes[2..2 + |k.body|] == k.body;
  }

  ghost function Carrying(ks: seq<Kde>, index: byte, key: seq<byte>, rest: seq<byte>): (s: seq<byte>)
    requires Skipped(ks) && |key| == 16
    ensures |s| >= 24
  {
    EncodeAll(ks) + EncodeKde(GtkKde(index, key)) + rest
  }

  lemma CarryingStep(k: Kde, ks: seq<Kde>, index: byte, key: seq<byte>, rest: seq<byte>)
    requires Encodable(k) && !IsGtk(k) && Skipped(ks) && |key| == 16
    ensures Skipped([k] + ks)
    ensures Carrying([k] + ks, index, key, rest) == EncodeKde(k) + Carrying(ks, index, key, rest)
  {
    hide EncodeKde;
    assert ([k] + ks)[1..] == ks;
  }

  lemma FirstIsGtk(index: byte, key: seq<byte>, rest: seq<byte>)
    requires index < 8 && |key| == 16
    ensures ParseGtk(EncodeKde(GtkKde(index, key)) + rest) == Ok(Gtk(index % 4, key))
  {
    FirstOfEncoded(GtkKde(index, key), rest);
    assert GtkKde(index, key).body[..4] == GTK_OUI;
  }

  /** Whatever elements come first, and whatever follows, the GTK is found. */
  lemma {:induction false} GtkIsFound(ks: seq<Kde>, index: byte, key: seq<byte>, rest: seq<byte>)
    requires Skipped(ks) && index < 8 && |key| == 16
    ensures ParseGtk(Carrying(ks, index, key, rest)) == Ok(Gtk(index % 4, key))
    decreases |ks|
  {
    if ks == [] {
      FirstIsGtk(index, key, rest);
      assert Carrying(ks, index, key, rest) == EncodeKde(GtkKde(index, key)) + rest;
    } else {
      hide Carrying, EncodeKde;
      var tail := ks[1..];
      assert ks == [ks[0]] + tail;
      CarryingStep(ks[0], tail, index, key, rest);
      FirstOfEncoded(ks[0], Carrying(tail, index, key, rest));
      GtkIsFound(tail, index, key, rest);
    }
  }

  lemma GtkBodyShape(body: seq<byte>)
    requires GTK_OUI <= body && GtkBody(body).Ok?
    ensures body[4] < 8 && |body[6..]| == 16 && body == GtkKde(body[4], body[6..]).body
  {
  }

  /** Conversely an accepted byte string is made of skipped elements, one GTK
      element with clear reserved bits, and a rest that is never read. */
  lemma {:induction false} FoundIsGtk(bytes: seq<byte>) returns (ks: seq<Kde>, index: byte, rest: seq<byte>)
    requires ParseGtk(bytes).Ok?
    ensures Skipped(ks) && index < 8
    ensures var gtk := ParseGtk(bytes).value;
            gtk.index == index % 4 && |gtk.key| == 16 && bytes == Carrying(ks, index, gtk.key, rest)
    decreases |bytes|
  {
    hide EncodeKde;
    var k := FirstKde(bytes).value.value;
    var size := |EncodeKde(k)|;
    assert bytes == EncodeKde(k) + bytes[size..];
    if IsGtk(k) {
      ks, index, rest := [], k.body[4], bytes[size..];
      GtkBodyShape(k.body);
      assert EncodeAll(ks) + EncodeKde(k) == EncodeKde(k);
    } else {
      hide Carrying;
      var more;
      more, index, rest := FoundIsGtk(bytes[size..]);
      ks := [k] + more;
      CarryingStep(k, more, index, ParseGtk(bytes).value.key, rest);
    }
  }

  /** `take_kde`: reads one element at `offset` and moves past it. */
  method TakeKde(bytes: seq<byte>, offset: nat) returns (r: Result<Option<Kde>, KeyDataError>, next: nat)
    requires offset <= |bytes|
    ensures r == FirstKde(bytes[offset..])
    ensures next == offset + if r.Ok? && r.value.Some? then |EncodeKde(r.value.value)| else 0
    ensures next <= |bytes|
  {
    next := offset;
    if offset >= |bytes| || bytes[offset] == 0 {
      return Ok(None), next;
    }
    if |bytes| - offset < 2 {
      return Err(MissingGroupKey), next;
    }
    var len := bytes[offset + 1];
    if len == 0 {
      return Ok(None), next;
    }
    var start := offset + 2;
    if len > |bytes| - start {
      return Err(MissingGroupKey), next;
    }
    next := start + len;
    assert bytes[offset..][2..2 + len] == bytes[start..next];
    r := Ok(Some(Kde(bytes[offset], bytes[start..next])));
  }

  /** `parse_gtk_kde`: walks the elements up to the first GTK. */
  method FindGtk(bytes: seq<byte>) returns (r: Result<Gtk, KeyDataError>)
    ensures r == ParseGtk(bytes)
  {
    var offset := 0;
    while true
      invariant offset <= |bytes|
      invariant ParseGtk(bytes[offset..]) == ParseGtk(bytes)
      decreases |bytes| - offset
    {
      var taken, next := TakeKde(bytes, offset);
      if taken.Err? {
        return Err(taken.error);
      }
      if taken.value.None? {
        return Err(MissingGroupKey);
      }
      var k := taken.value.value;
      if IsGtk(k) {
        return GtkBody(k.body);
      }
      assert bytes[offset..][|EncodeKde(k)|..] == bytes[next..];
      offset := next;
    }
  }

  // ------------------------------------------------------------- installation

  /** `group_key_install`: the GTK carried in a frame's encrypted key data. */
  ghost function FrameGtk(c: Crypto, f: Frame, ptk: seq<byte>): Result<Gtk, KeyDataError>
    requires Sound(c) && |ptk| == 48
  {
    match Unwrap(Cipher(c, Kek(ptk)), f.keyData, MAX_LEN - 99)
    case Err(e) => Err(e)
    case Ok(plain) => ParseGtk(plain)
  }

  method GroupKeyOf(c: Crypto, f: Frame, ptk: seq<byte>) returns (r: Result<Gtk, KeyDataError>)
    requires Sound(c) && |ptk| == 48
    ensures r == FrameGtk(c, f, ptk)
  {
    hide Unwrap, ParseGtk;
    var plain: array<byte> := new byte[MAX_LEN - 99](i => 0);
    var unwrapped := AesKeyUnwrap(Cipher(c, Kek(ptk)), f.keyData, plain);
    if unwrapped.Err? {
      return Err(unwrapped.error);
    }
    r := FindGtk(plain[..unwrapped.value]);
  }

  /** An authenticator that wraps any element list holding a GTK under the
      same KEK delivers that GTK. */
  lemma WrappedGtkArrives(c: Crypto, f: Frame, ptk: seq<byte>, ks: seq<Kde>, index: byte, key: seq<byte>,
                          pad: seq<byte>)
    requires Sound(c) && |ptk| == 48 && Skipped(ks) && index < 8 && |key| == 16
    requires var plain := Carrying(ks, index, key, pad);
             && |plain| % 8 == 0 && |plain| <= MAX_LEN - 99
             && f.keyData == Wrap(Cipher(c, Kek(ptk)), plain)
    ensures FrameGtk(c, f, ptk) == Ok(Gtk(index % 4, key))
  {
    hide Wrap, Unwrap, ParseGtk, Carrying;
    var plain := Carrying(ks, index, key, pad);
    GtkIsFound(ks, index, key, pad);
    UnwrapInvertsWrap(Cipher(c, Kek(ptk)), plain, MAX_LEN - 99);
  }
}
