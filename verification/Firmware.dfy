/** The combined firmware container (src/firmware.rs): the parser against the
    grammar of the file. */
module Firmware {
  import opened Bytes
  import opened Wrappers

  const SIGNATURE := 0xdead_1eaf
  const IMAGE_COUNT := 4
  const VERSION := 0x0102_0e09
  const SYSTEM_MODE := 1
  const HEADER_LEN := 52
  const IMAGE_HEADER_LEN := 8

  datatype FirmwareError =
    | TruncatedHeader
    | BadSignature(signature: nat)
    | BadImageCount(count: nat)
    | IncompatibleVersion(version: nat)
    | IncompatibleFeatures(features: nat)
    | TruncatedPayload
    | TruncatedImage
    | InvalidImageType(kind: nat)
    | LengthMismatch

  /** One image's kind and the bounds of its body. */
  datatype Extent = Extent(kind: nat, start: nat, end: nat)

  // ------------------------------------------------------------------- parser

  /** `parse_compatible_header` and `exact_payload_end`. */
  function HeaderFault(f: seq<byte>): (fault: Option<FirmwareError>)
    ensures fault.None? ==> |f| >= HEADER_LEN
  {
    if |f| < HEADER_LEN then Some(TruncatedHeader)
    else if Le32(f, 0) != SIGNATURE then Some(BadSignature(Le32(f, 0)))
    else if Le32(f, 4) != IMAGE_COUNT then Some(BadImageCount(Le32(f, 4)))
    else if Le32(f, 8) != VERSION then Some(IncompatibleVersion(Le32(f, 8)))
    else if Le32(f, 12) != SYSTEM_MODE then Some(IncompatibleFeatures(Le32(f, 12)))
    else if HEADER_LEN + Le32(f, 16) > |f| then Some(TruncatedPayload)
    else if HEADER_LEN + Le32(f, 16) != |f| then Some(LengthMismatch)
    else None
  }

  /** `image_extent`. */
  function ImageExtent(f: seq<byte>, offset: nat): (r: Result<Extent, FirmwareError>)
    ensures r.Ok? ==> r.value.kind < 4 && r.value.start == offset + 8 <= r.value.end <= |f|
  {
    if offset + IMAGE_HEADER_LEN > |f| then Err(TruncatedImage)
    else if Le32(f, offset) >= 4 then Err(InvalidImageType(Le32(f, offset)))
    else if offset + IMAGE_HEADER_LEN + Le32(f, offset + 4) > |f| then Err(TruncatedImage)
    else Ok(Extent(Le32(f, offset), offset + 8, offset + 8 + Le32(f, offset + 4)))
  }

  /** `validate_images` with `n` images left. */
  function ImagesFault(f: seq<byte>, offset: nat, seen: set<nat>, n: nat): Option<FirmwareError>
    decreases n
  {
    if n == 0 then
      if seen != {0, 1, 2, 3} || offset != |f| then Some(LengthMismatch) else None
    else
      match ImageExtent(f, offset)
      case Err(e) => Some(e)
      case Ok(x) =>
        if x.kind in seen then Some(InvalidImageType(x.kind)) else ImagesFault(f, x.end, seen + {x.kind}, n - 1)
  }

  /** `FirmwareBundle::parse`: none if the file is accepted. */
  function ParseFault(f: seq<byte>): Option<FirmwareError> {
    if HeaderFault(f).Some? then HeaderFault(f) else ImagesFault(f, HEADER_LEN, {}, IMAGE_COUNT)
  }

  /** `image`, from the image at `offset` with `n` left. */
  function Find(f: seq<byte>, wanted: nat, offset: nat, n: nat): Result<seq<byte>, FirmwareError>
    decreases n
  {
    if n == 0 then Err(InvalidImageType(wanted))
    else
      match ImageExtent(f, offset)
      case Err(e) => Err(e)
      case Ok(x) => if x.kind == wanted then Ok(f[x.start..x.end]) else Find(f, wanted, x.end, n - 1)
  }

  // ------------------------------------------------------------------ grammar

  datatype Image = Image(kind: nat, body: seq<byte>)

  predicate ImageOk(i: Image) {
    i.kind < 4 && |i.body| < 0x1_0000_0000
  }

  function LeBytes(x: nat): (s: seq<byte>)
    ensures |s| == 4
  {
    [x % 256, x / 256 % 256, x / 256 / 256 % 256, x / 256 / 256 / 256 % 256]
  }

  function ImageBytes(i: Image): (s: seq<byte>)
    ensures |s| == 8 + |i.body|
  {
    LeBytes(i.kind) + LeBytes(|i.body|) + i.body
  }

  function ImagesBytes(images: seq<Image>): seq<byte> {
    if images == [] then [] else ImageBytes(images[0]) + ImagesBytes(images[1..])
  }

  ghost predicate ImagesOk(images: seq<Image>) {
    forall i | 0 <= i < |images| :: ImageOk(images[i])
  }

  ghost predicate Distinct(images: seq<Image>) {
    forall i, j | 0 <= i < j < |images| :: images[i].kind != images[j].kind
  }

  /** The pinned header, then four images of distinct kinds that fill the
      payload. The digest is arbitrary here; it is checked separately. */
  ghost predicate Bundle(f: seq<byte>, digest: seq<byte>, images: seq<Image>) {
    && |digest| == 32 && |images| == IMAGE_COUNT && ImagesOk(images) && Distinct(images)
    && var payload := ImagesBytes(images);
    && |payload| < 0x1_0000_0000
    && f == LeBytes(SIGNATURE) + LeBytes(IMAGE_COUNT) + LeBytes(VERSION) + LeBytes(SYSTEM_MODE)
            + LeBytes(|payload|) + digest + payload
  }

  // ------------------------------------------------------------------- proofs

  lemma LeRoundTrip(x: nat, before: seq<byte>, after: seq<byte>)
    requires x < 0x1_0000_0000
    ensures Le32(before + LeBytes(x) + after, |before|) == x
  {
    var f := before + LeBytes(x) + after;
    assert f[|before|] == LeBytes(x)[0] && f[|before| + 1] == LeBytes(x)[1];
    assert f[|before| + 2] == LeBytes(x)[2] && f[|before| + 3] == LeBytes(x)[3];
  }

  lemma LeIsBytes(f: seq<byte>, at: nat)
    requires at + 4 <= |f|
    ensures f[at..at + 4] == LeBytes(Le32(f, at)) && Le32(f, at) < 0x1_0000_0000
  {
    LeDigits(f[at], f[at + 1], f[at + 2], f[at + 3]);
  }

  lemma LeDigits(a: byte, b: byte, c: byte, d: byte)
    ensures var x := (a as int) + 256 * (b as int) + 65536 * (c as int) + 16777216 * (d as int);
            LeBytes(x) == [a, b, c, d]
  {
    Digit(d, c);
    Digit((c as int) + 256 * (d as int), b);
    Digit((b as int) + 256 * ((c as int) + 256 * (d as int)), a);
  }

  lemma Digit(q: nat, r: byte)
    ensures ((r as int) + 256 * q) / 256 == q && ((r as int) + 256 * q) % 256 == r
  {
  }

  /** An image inside a file is read back. */
  lemma ExtentOfImage(before: seq<byte>, i: Image, after: seq<byte>)
    requires ImageOk(i)
    ensures var f := before + ImageBytes(i) + after;
            && ImageExtent(f, |before|) == Ok(Extent(i.kind, |before| + 8, |before| + 8 + |i.body|))
            && f[|before| + 8..|before| + 8 + |i.body|] == i.body
  {
    hide Le32, LeBytes;
    var f := before + ImageBytes(i) + after;
    LeRoundTrip(i.kind, before, LeBytes(|i.body|) + i.body + after);
    assert f == before + LeBytes(i.kind) + (LeBytes(|i.body|) + i.body + after);
    LeRoundTrip(|i.body|, before + LeBytes(i.kind), i.body + after);
    assert f == (before + LeBytes(i.kind)) + LeBytes(|i.body|) + (i.body + after);
  }

  /** Conversely an extent found in a file is an image of the grammar. */
  lemma ExtentIsImage(f: seq<byte>, offset: nat) returns (i: Image)
    requires ImageExtent(f, offset).Ok?
    ensures var x := ImageExtent(f, offset).value;
            ImageOk(i) && i == Image(x.kind, f[x.start..x.end]) && f[offset..x.end] == ImageBytes(i)
  {
    var x := ImageExtent(f, offset).value;
    i := Image(x.kind, f[x.start..x.end]);
    LeIsBytes(f, offset);
    LeIsBytes(f, offset + 4);
    assert f[offset..x.end] == f[offset..offset + 4] + f[offset + 4..offset + 8] + f[offset + 8..x.end];
  }

  function Kinds(images: seq<Image>): set<nat> {
    set i | 0 <= i < |images| :: images[i].kind
  }

  /** Four different kinds below four are all the kinds. */
  lemma AllKinds(images: seq<Image>)
    requires |images| == 4 && ImagesOk(images) && Distinct(images)
    ensures Kinds(images) == {0, 1, 2, 3}
  {
    var a, b, c, d := images[0].kind, images[1].kind, images[2].kind, images[3].kind;
    assert a in Kinds(images) && b in Kinds(images) && c in Kinds(images) && d in Kinds(images);
    assert {a, b, c, d} <= Kinds(images);
  }

  /** Images written one after another pass validation. */
  lemma {:induction false} WrittenPass(before: seq<byte>, done: seq<Image>, rest: seq<Image>)
    requires |done + rest| == 4 && ImagesOk(done + rest) && Distinct(done + rest)
    ensures ImagesFault(before + ImagesBytes(rest), |before|, Kinds(done), |rest|).None?
    decreases |rest|
  {
    hide ImageBytes, ImageExtent, Kinds, ImagesOk, Distinct;
    if rest == [] {
      assert done + rest == done;
      AllKinds(done);
      assert before + ImagesBytes(rest) == before;
    } else {
      var i := rest[0];
      NextOk(done, rest);
      var f := before + ImagesBytes(rest);
      assert f == before + ImageBytes(i) + ImagesBytes(rest[1..]);
      ExtentOfImage(before, i, ImagesBytes(rest[1..]));
      NotYetSeen(done, rest);
      assert (done + [i]) + rest[1..] == done + rest;
      KindsGrow(done, i);
      WrittenPass(before + ImageBytes(i), done + [i], rest[1..]);
    }
  }

  lemma NextOk(done: seq<Image>, rest: seq<Image>)
    requires rest != [] && ImagesOk(done + rest)
    ensures ImageOk(rest[0])
  {
    assert (done + rest)[|done|] == rest[0];
  }

  lemma NotYetSeen(done: seq<Image>, rest: seq<Image>)
    requires rest != [] && Distinct(done + rest)
    ensures rest[0].kind !in Kinds(done)
  {
    assert (done + rest)[|done|] == rest[0];
    forall i | 0 <= i < |done| ensures done[i].kind != rest[0].kind {
      assert (done + rest)[i] == done[i];
    }
  }

  lemma KindsGrow(done: seq<Image>, i: Image)
    ensures Kinds(done + [i]) == Kinds(done) + {i.kind}
  {
    var all := done + [i];
    assert all[|done|] == i;
    forall k | 0 <= k < |done| ensures done[k].kind in Kinds(all) {
      assert all[k] == done[k];
    }
    assert Kinds(done) <= Kinds(all);
  }

  /** What passes validation is written images. */
  lemma {:induction false} PassedAreWritten(f: seq<byte>, offset: nat, done: seq<Image>, n: nat)
    returns (rest: seq<Image>)
    requires offset <= |f| && ImagesOk(done) && Distinct(done)
    requires ImagesFault(f, offset, Kinds(done), n).None?
    ensures |rest| == n && ImagesOk(done + rest) && Distinct(done + rest)
    ensures f[offset..] == ImagesBytes(rest)
    decreases n
  {
    if n == 0 {
      rest := [];
      assert done + rest == done;
    } else {
      var x := ImageExtent(f, offset).value;
      var i := ExtentIsImage(f, offset);
      KindsGrow(done, i);
      NewKindDistinct(done, i);
      var more := PassedAreWritten(f, x.end, done + [i], n - 1);
      rest := [i] + more;
      assert (done + [i]) + more == done + rest;
      assert rest[1..] == more;
      assert f[offset..] == f[offset..x.end] + f[x.end..];
    }
  }

  lemma NewKindDistinct(done: seq<Image>, i: Image)
    requires ImagesOk(done) && Distinct(done) && ImageOk(i) && i.kind !in Kinds(done)
    ensures ImagesOk(done + [i]) && Distinct(done + [i])
  {
  }

  lemma HeaderOfBundle(f: seq<byte>, digest: seq<byte>, payload: seq<byte>)
    requires |digest| == 32 && |payload| < 0x1_0000_0000
    requires f == LeBytes(SIGNATURE) + LeBytes(IMAGE_COUNT) + LeBytes(VERSION) + LeBytes(SYSTEM_MODE)
                  + LeBytes(|payload|) + digest + payload
    ensures HeaderFault(f).None? && f[HEADER_LEN..] == payload && f == f[..HEADER_LEN] + payload
  {
    hide LeBytes, Le32;
    var s, c, v, m, p :=
      LeBytes(SIGNATURE), LeBytes(IMAGE_COUNT), LeBytes(VERSION), LeBytes(SYSTEM_MODE), LeBytes(|payload|);
    assert f == [] + s + (c + v + m + p + digest + payload);
    LeRoundTrip(SIGNATURE, [], c + v + m + p + digest + payload);
    assert f == s + c + (v + m + p + digest + payload);
    LeRoundTrip(IMAGE_COUNT, s, v + m + p + digest + payload);
    assert f == (s + c) + v + (m + p + digest + payload);
    LeRoundTrip(VERSION, s + c, m + p + digest + payload);
    assert f == (s + c + v) + m + (p + digest + payload);
    LeRoundTrip(SYSTEM_MODE, s + c + v, p + digest + payload);
    assert f == (s + c + v + m) + p + (digest + payload);
    LeRoundTrip(|payload|, s + c + v + m, digest + payload);
  }

  lemma HeaderIsBundle(f: seq<byte>)
    requires HeaderFault(f).None?
    ensures f == LeBytes(SIGNATURE) + LeBytes(IMAGE_COUNT) + LeBytes(VERSION) + LeBytes(SYSTEM_MODE)
                 + LeBytes(|f| - HEADER_LEN) + f[20..HEADER_LEN] + f[HEADER_LEN..]
    ensures |f| - HEADER_LEN < 0x1_0000_0000
  {
    LeIsBytes(f, 0);
    LeIsBytes(f, 4);
    LeIsBytes(f, 8);
    LeIsBytes(f, 12);
    LeIsBytes(f, 16);
    hide LeBytes, Le32;
    assert f == f[0..4] + f[4..8] + f[8..12] + f[12..16] + f[16..20] + f[20..52] + f[52..];
  }

  // ----------------------------------------------------------------- theorems

  /** Every file of the grammar is accepted, whatever the order of its images. */
  lemma BundlesAreAccepted(f: seq<byte>, digest: seq<byte>, images: seq<Image>)
    requires Bundle(f, digest, images)
    ensures ParseFault(f).None?
  {
    hide LeBytes;
    HeaderOfBundle(f, digest, ImagesBytes(images));
    assert [] + images == images;
    WrittenPass(f[..HEADER_LEN], [], images);
    assert Kinds([]) == {};
  }

  /** Every accepted file is one of the grammar. */
  lemma AcceptedAreBundles(f: seq<byte>) returns (digest: seq<byte>, images: seq<Image>)
    requires ParseFault(f).None?
    ensures Bundle(f, digest, images)
  {
    hide LeBytes;
    HeaderIsBundle(f);
    assert Kinds([]) == {};
    images := PassedAreWritten(f, HEADER_LEN, [], IMAGE_COUNT);
    assert [] + images == images;
    digest := f[20..HEADER_LEN];
  }

  lemma {:induction false} FoundInWritten(before: seq<byte>, rest: seq<Image>, k: nat)
    requires ImagesOk(rest) && Distinct(rest) && k < |rest|
    ensures Find(before + ImagesBytes(rest), rest[k].kind, |before|, |rest|) == Ok(rest[k].body)
    decreases |rest|
  {
    hide ImageBytes, ImageExtent;
    var i := rest[0];
    var f := before + ImagesBytes(rest);
    assert f == before + ImageBytes(i) + ImagesBytes(rest[1..]);
    ExtentOfImage(before, i, ImagesBytes(rest[1..]));
    if k > 0 {
      assert rest[k] == rest[1..][k - 1] && i.kind != rest[k].kind;
      FoundInWritten(before + ImageBytes(i), rest[1..], k - 1);
    }
  }

  /** On an accepted file `image` returns exactly the body of each kind. */
  lemma ImageReturnsItsBody(f: seq<byte>, digest: seq<byte>, images: seq<Image>, k: nat)
    requires Bundle(f, digest, images) && k < IMAGE_COUNT
    ensures Find(f, images[k].kind, HEADER_LEN, IMAGE_COUNT) == Ok(images[k].body)
  {
    hide LeBytes;
    HeaderOfBundle(f, digest, ImagesBytes(images));
    FoundInWritten(f[..HEADER_LEN], images, k);
  }

  /** On an accepted file every kind is found. */
  lemma EveryKindIsFound(f: seq<byte>, wanted: nat)
    requires ParseFault(f).None? && wanted < 4
    ensures Find(f, wanted, HEADER_LEN, IMAGE_COUNT).Ok?
  {
    hide ParseFault, Find, ImagesBytes, LeBytes;
    var digest, images := AcceptedAreBundles(f);
    AllKinds(images);
    assert wanted in Kinds(images);
    var k :| 0 <= k < 4 && images[k].kind == wanted;
    ImageReturnsItsBody(f, digest, images, k);
  }

  // -------------------------------------------------------------------- loops

  /** `parse`. */
  method Parse(f: seq<byte>) returns (fault: Option<FirmwareError>)
    ensures fault == ParseFault(f)
  {
    fault := HeaderFault(f);
    if fault.Some? {
      return;
    }
    fault := ValidateImages(f);
  }

  /** `validate_images`: a bit set of kinds, an offset, four rounds. */
  method ValidateImages(f: seq<byte>) returns (fault: Option<FirmwareError>)
    requires |f| >= HEADER_LEN
    ensures fault == ImagesFault(f, HEADER_LEN, {}, IMAGE_COUNT)
  {
    var offset: nat := HEADER_LEN;
    var seen := [false, false, false, false];
    assert KindsIn(seen) == {};
    for round := 0 to IMAGE_COUNT
      invariant |seen| == 4
      invariant ImagesFault(f, HEADER_LEN, {}, IMAGE_COUNT) ==
                ImagesFault(f, offset, KindsIn(seen), IMAGE_COUNT - round)
    {
      var extent := ImageExtent(f, offset);
      if extent.Err? {
        return Some(extent.error);
      }
      var kind := extent.value.kind;
      if seen[kind] {
        return Some(InvalidImageType(kind));
      }
      assert KindsIn(seen[kind := true]) == KindsIn(seen) + {kind};
      seen := seen[kind := true];
      offset := extent.value.end;
    }
    AllSeen(seen);
    if seen != [true, true, true, true] || offset != |f| {
      return Some(LengthMismatch);
    }
    fault := None;
  }

  ghost function KindsIn(seen: seq<bool>): set<nat> {
    set k | 0 <= k < |seen| && seen[k]
  }

  lemma AllSeen(seen: seq<bool>)
    requires |seen| == 4
    ensures KindsIn(seen) == {0, 1, 2, 3} <==> seen == [true, true, true, true]
  {
    if KindsIn(seen) == {0, 1, 2, 3} {
      assert 0 in KindsIn(seen) && 1 in KindsIn(seen) && 2 in KindsIn(seen) && 3 in KindsIn(seen);
    }
  }

  /** `image`. */
  method FindImage(f: seq<byte>, wanted: nat) returns (r: Result<seq<byte>, FirmwareError>)
    ensures r == Find(f, wanted, HEADER_LEN, IMAGE_COUNT)
  {
    var offset: nat := HEADER_LEN;
    for round := 0 to IMAGE_COUNT
      invariant Find(f, wanted, HEADER_LEN, IMAGE_COUNT) == Find(f, wanted, offset, IMAGE_COUNT - round)
    {
      var extent := ImageExtent(f, offset);
      if extent.Err? {
        return Err(extent.error);
      }
      if extent.value.kind == wanted {
        return Ok(f[extent.value.start..extent.value.end]);
      }
      offset := extent.value.end;
    }
    r := Err(InvalidImageType(wanted));
  }
}
