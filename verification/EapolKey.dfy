/** EAPOL-Key frames, the pairwise key expansion and the GTK key data
    (src/wpa2.rs). */
module EapolKey {
  import opened Bytes
  import opened KeyWrap
  import opened Wrappers

  /** The external primitives. Nothing is assumed about the two hashes except
      their output lengths. */
  datatype Crypto = Crypto(
    hmacSha1: (seq<byte>, seq<byte>) -> seq<byte>,
    sha256: seq<byte> -> seq<byte>,
    aes: seq<byte> -> BlockCipher)

  ghost predicate Sound(c: Crypto) {
    forall key :: Permutation(Cipher(c, key))
  }

  function Cipher(c: Crypto, key: seq<byte>): BlockCipher {
    c.aes(key)
  }

  function Sized(s: seq<byte>, n: nat): (r: seq<byte>)
    ensures |r| == n
  {
    if |s| == n then s else Zeros(n)
  }

  function Hmac(c: Crypto, key: seq<byte>, message: seq<byte>): (mac: seq<byte>)
    ensures |mac| == 20
  {
    Sized(c.hmacSha1(key, message), 20)
  }

  function Sha256(c: Crypto, message: seq<byte>): (digest: seq<byte>)
    ensures |digest| == 32
  {
    Sized(c.sha256(message), 32)
  }

  // ------------------------------------------------------------------ frames

  const MIN_LEN := 99
  const MAX_LEN := 512
  const MIC_START := 81
  const MIC_END := 97

  const DESCRIPTOR_VERSION := 2
  const PAIRWISE := 8
  const INSTALL := 64
  const ACK := 128
  const MIC := 256
  const SECURE := 512
  const ERROR := 1024
  const REQUEST := 2048
  const ENCRYPTED := 4096
  const SMK := 8192

  datatype Message = Pairwise1 | Pairwise2 | Pairwise3 | Pairwise4 | Group1 | Group2 | Other

  datatype FrameError =
    | FrameTooShort
    | FrameTooLarge
    | UnsupportedProtocolVersion(version: byte)
    | NotEapolKey
    | UnsupportedDescriptor
    | LengthMismatch

  /** A parsed frame borrows its bytes; every field is read from them. */
  datatype Frame = Frame(bytes: seq<byte>, info: nat, keyData: seq<byte>)

  predicate Flag(info: nat, mask: nat)
    requires mask > 0
  {
    (info / mask) % 2 == 1
  }

  function Classify(info: nat): Message {
    if Flag(info, ERROR) || Flag(info, REQUEST) || Flag(info, SMK) then Other
    else if Flag(info, PAIRWISE) then
      ClassifyPairwise(Flag(info, ACK), Flag(info, MIC), Flag(info, INSTALL), Flag(info, SECURE))
    else
      ClassifyGroup(Flag(info, ACK), Flag(info, MIC), Flag(info, INSTALL), Flag(info, SECURE))
  }

  function ClassifyPairwise(ack: bool, mic: bool, install: bool, secure: bool): Message {
    if ack && !mic && !install && !secure then Pairwise1
    else if !ack && mic && !install && !secure then Pairwise2
    else if ack && mic && install && secure then Pairwise3
    else if !ack && mic && !install && secure then Pairwise4
    else Other
  }

  function ClassifyGroup(ack: bool, mic: bool, install: bool, secure: bool): Message {
    if ack && mic && secure then Group1
    else if !ack && mic && !install && secure then Group2
    else Other
  }

  function Parse(bytes: seq<byte>): (r: Result<Frame, FrameError>)
    ensures r.Ok? ==> WellFormed(r.value) && r.value.bytes == bytes
  {
    if |bytes| < MIN_LEN then Err(FrameTooShort)
    else if |bytes| > MAX_LEN then Err(FrameTooLarge)
    else if bytes[0] != 1 && bytes[0] != 2 then Err(UnsupportedProtocolVersion(bytes[0]))
    else if bytes[1] != 3 then Err(NotEapolKey)
    else if bytes[4] != 2 then Err(UnsupportedDescriptor)
    else if 4 + FromBe16(bytes[2], bytes[3]) != |bytes| || FromBe16(bytes[2], bytes[3]) < 95 then Err(LengthMismatch)
    else if 99 + FromBe16(bytes[97], bytes[98]) != |bytes| then Err(LengthMismatch)
    else Ok(Frame(bytes, FromBe16(bytes[5], bytes[6]), bytes[99..]))
  }

  predicate WellFormed(f: Frame) {
    MIN_LEN <= |f.bytes| <= MAX_LEN && f.keyData == f.bytes[99..]
  }

  function Version(f: Frame): byte
    requires WellFormed(f)
  {
    f.bytes[0]
  }

  function KeyLength(f: Frame): nat
    requires WellFormed(f)
  {
    FromBe16(f.bytes[7], f.bytes[8])
  }

  function Replay(f: Frame): nat
    requires WellFormed(f)
  {
    FromBe(f.bytes[9..17])
  }

  function Nonce(f: Frame): (n: seq<byte>)
    requires WellFormed(f)
    ensures |n| == 32
  {
    f.bytes[17..49]
  }

  function ReceiveSequence(f: Frame): (n: seq<byte>)
    requires WellFormed(f)
    ensures |n| == 8
  {
    f.bytes[65..73]
  }

  function Digest(c: Crypto, f: Frame): (d: seq<byte>)
    ensures |d| == 32
  {
    Sha256(c, f.bytes)
  }

  /** The MIC field is the MAC of the frame with that field zeroed. */
  predicate VerifyMic(c: Crypto, f: Frame, kck: seq<byte>)
    requires WellFormed(f)
  {
    f.bytes[MIC_START..MIC_END] ==
    Hmac(c, kck, f.bytes[..MIC_START] + Zeros(16) + f.bytes[MIC_END..])[..16]
  }

  // --------------------------------------------------------------- responses

  /** The arguments of `build_response`. */
  datatype Response = Response(
    version: byte, info: nat, keyLength: nat, replay: nat, nonce: seq<byte>, keyData: seq<byte>)

  predicate Buildable(r: Response) {
    && r.info < 65536
    && r.keyLength < 65536
    && r.replay < Pow256(8)
    && |r.nonce| == 32
  }

  function Message2(version: byte, keyLength: nat, replay: nat, nonce: seq<byte>, rsnIe: seq<byte>): Response {
    Response(version, DESCRIPTOR_VERSION + PAIRWISE + MIC, keyLength, replay, nonce, rsnIe)
  }

  function Message4(version: byte, keyLength: nat, replay: nat): Response {
    Response(version, DESCRIPTOR_VERSION + PAIRWISE + MIC + SECURE, keyLength, replay, Zeros(32), [])
  }

  function GroupMessage2(version: byte, keyLength: nat, replay: nat): Response {
    Response(version, DESCRIPTOR_VERSION + MIC + SECURE, keyLength, replay, Zeros(32), [])
  }

  function Head(r: Response): (s: seq<byte>)
    requires 99 + |r.keyData| <= MAX_LEN
    ensures |s| == 17
  {
    [r.version, 3] + Be16(95 + |r.keyData|) + [2] + Be16(r.info) + Be16(r.keyLength) + ToBe(r.replay, 8)
  }

  /** The frame with a zero MIC field. */
  function Unsigned(r: Response): (s: seq<byte>)
    requires 99 + |r.keyData| <= MAX_LEN && |r.nonce| == 32
    ensures |s| == 99 + |r.keyData|
  {
    Head(r) + r.nonce + Zeros(48) + Be16(|r.keyData|) + r.keyData
  }

  function Signed(c: Crypto, r: Response, kck: seq<byte>): (s: seq<byte>)
    requires 99 + |r.keyData| <= MAX_LEN && |r.nonce| == 32
    ensures |s| == 99 + |r.keyData|
  {
    Unsigned(r)[..MIC_START] + Hmac(c, kck, Unsigned(r))[..16] + Unsigned(r)[MIC_END..]
  }

  /** `build_response`. */
  function Build(c: Crypto, r: Response, kck: seq<byte>): Result<seq<byte>, FrameError>
    requires |r.nonce| == 32
  {
    if 99 + |r.keyData| > MAX_LEN then Err(FrameTooLarge) else Ok(Signed(c, r, kck))
  }

  lemma HeadFields(r: Response)
    requires 99 + |r.keyData| <= MAX_LEN && Buildable(r)
    ensures var h := Head(r);
            && h[0] == r.version && h[1] == 3 && h[4] == 2
            && FromBe16(h[2], h[3]) == 95 + |r.keyData|
            && FromBe16(h[5], h[6]) == r.info
            && FromBe16(h[7], h[8]) == r.keyLength
            && FromBe(h[9..17]) == r.replay
  {
    hide ToBe, FromBe, Pow256;
    assert Head(r)[9..17] == ToBe(r.replay, 8);
    BeRoundTrip(r.replay, 8);
  }

  lemma UnsignedFields(r: Response)
    requires 99 + |r.keyData| <= MAX_LEN && |r.nonce| == 32
    ensures var u := Unsigned(r);
            && u[..17] == Head(r)
            && u[17..49] == r.nonce
            && u[MIC_START..MIC_END] == Zeros(16)
            && FromBe16(u[97], u[98]) == |r.keyData|
            && u[99..] == r.keyData
  {
    hide Head;
  }

  /** Outside the MIC field the signed frame is the unsigned one. */
  lemma SignedFields(c: Crypto, r: Response, kck: seq<byte>)
    requires 99 + |r.keyData| <= MAX_LEN && |r.nonce| == 32
    ensures var s := Signed(c, r, kck);
            && s[..MIC_START] == Unsigned(r)[..MIC_START]
            && s[MIC_START..MIC_END] == Hmac(c, kck, Unsigned(r))[..16]
            && s[MIC_END..] == Unsigned(r)[MIC_END..]
  {
    hide Unsigned, Hmac;
  }

  /** EAPOL-Key round trip: what the supplicant builds parses back to every
      field, and its MIC verifies under the same key. */
  lemma BuildParses(c: Crypto, r: Response, kck: seq<byte>)
    requires 99 + |r.keyData| <= MAX_LEN && Buildable(r) && r.version in {1, 2}
    ensures Parse(Signed(c, r, kck)).Ok?
    ensures var f := Parse(Signed(c, r, kck)).value;
            && f.keyData == r.keyData
            && f.info == r.info
            && Version(f) == r.version
            && KeyLength(f) == r.keyLength
            && Replay(f) == r.replay
            && Nonce(f) == r.nonce
            && ReceiveSequence(f) == Zeros(8)
            && VerifyMic(c, f, kck)
  {
    hide Head, Unsigned, Signed, Hmac, ToBe, FromBe, Pow256;
    HeadFields(r);
    UnsignedFields(r);
    SignedFields(c, r, kck);
    var s, u := Signed(c, r, kck), Unsigned(r);
    assert s[..17] == s[..MIC_START][..17] == u[..17];
    assert forall k | 0 <= k < 17 :: s[k] == s[..17][k] == Head(r)[k];
    assert s[9..17] == s[..17][9..17];
    assert s[17..49] == s[..MIC_START][17..49] == u[17..49];
    assert s[97] == s[MIC_END..][0] && s[98] == s[MIC_END..][1];
    assert s[99..] == s[MIC_END..][2..] == u[99..];
    assert s[65..73] == s[..MIC_START][65..73] == u[65..73];
    ReservedIsZero(r);
    assert u == u[..MIC_START] + u[MIC_START..MIC_END] + u[MIC_END..];
  }

  lemma ReservedIsZero(r: Response)
    requires 99 + |r.keyData| <= MAX_LEN && |r.nonce| == 32
    ensures Unsigned(r)[65..73] == Zeros(8)
  {
    hide Head;
  }

  /** The three responses carry the key information of their message class. */
  lemma ResponseClasses(version: byte, keyLength: nat, replay: nat, nonce: seq<byte>, rsnIe: seq<byte>)
    ensures Classify(Message2(version, keyLength, replay, nonce, rsnIe).info) == Pairwise2
    ensures Classify(Message4(version, keyLength, replay).info) == Pairwise4
    ensures Classify(GroupMessage2(version, keyLength, replay).info) == Group2
  {
  }

  /** `build_response`: writes the fields into a zeroed 512-byte buffer, signs
      it, and stores the truncated MIC. */
  method BuildResponse(c: Crypto, r: Response, kck: seq<byte>)
    returns (frame: array<byte>, result: Result<nat, FrameError>)
    requires |r.nonce| == 32
    ensures fresh(frame) && frame.Length == MAX_LEN
    ensures result.Ok? ==> result.value == 99 + |r.keyData| <= MAX_LEN
    ensures result.Ok? ==> Build(c, r, kck) == Ok(frame[..result.value])
    ensures result.Ok? ==> forall k | result.value <= k < MAX_LEN :: frame[k] == 0
    ensures result.Err? ==> Build(c, r, kck) == Err(result.error)
  {
    hide Hmac, ToBe, Head;
    frame := new byte[MAX_LEN](i => 0);
    var total := 99 + |r.keyData|;
    if total > MAX_LEN {
      return frame, Err(FrameTooLarge);
    }
    assert frame[..] == Zeros(MAX_LEN);
    WriteHead(r, frame);
    WriteTail(r, frame);
    assert frame[..total] == Unsigned(r);
    var mac := Hmac(c, kck, frame[..total]);
    hide Unsigned;
    CopyInto(mac[..16], frame, MIC_START);
    assert frame[..total] == Signed(c, r, kck);
    return frame, Ok(total);
  }

  /** The fields up to the replay counter. */
  method WriteHead(r: Response, frame: array<byte>)
    requires frame.Length == MAX_LEN && 99 + |r.keyData| <= MAX_LEN
    modifies frame
    ensures frame[..] == Head(r) + old(frame[17..])
  {
    hide ToBe;
    ghost var was := frame[..];
    frame[0] := r.version;
    frame[1] := 3;
    CopyInto(Be16(95 + |r.keyData|), frame, 2);
    frame[4] := 2;
    assert frame[..] == [r.version, 3] + Be16(95 + |r.keyData|) + [2] + was[5..];
    CopyInto(Be16(r.info), frame, 5);
    CopyInto(Be16(r.keyLength), frame, 7);
    assert frame[..9] == Head(r)[..9] && frame[9..] == was[9..];
    CopyInto(ToBe(r.replay, 8), frame, 9);
  }

  /** The nonce and the key data. */
  method WriteTail(r: Response, frame: array<byte>)
    requires |r.nonce| == 32 && frame.Length == MAX_LEN && 99 + |r.keyData| <= MAX_LEN
    requires frame[..] == Head(r) + Zeros(MAX_LEN - 17)
    modifies frame
    ensures frame[..] == Unsigned(r) + Zeros(MAX_LEN - 99 - |r.keyData|)
  {
    hide Head, Be16;
    CopyInto(r.nonce, frame, 17);
    assert frame[..97] == Head(r) + r.nonce + Zeros(48);
    assert frame[97..] == Zeros(MAX_LEN - 97);
    CopyInto(Be16(|r.keyData|), frame, 97);
    assert frame[..99] == Head(r) + r.nonce + Zeros(48) + Be16(|r.keyData|);
    assert frame[99..] == Zeros(MAX_LEN - 99);
    CopyInto(r.keyData, frame, 99);
    assert frame[..99 + |r.keyData|] == Unsigned(r);
    assert frame[99 + |r.keyData|..] == Zeros(MAX_LEN - 99 - |r.keyData|);
  }
}
