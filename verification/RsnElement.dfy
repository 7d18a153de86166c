/** Validation of the RSN element a supplicant is created with (src/wpa2.rs). */
module RsnElement {
  import opened Bytes
  import opened Wrappers

  type Suite = s: seq<byte> | |s| == 4 witness [0, 0, 0, 0]

  datatype RsnError = InvalidRsnInformationElement | UnsupportedRsnCapabilities

  const MAX_RSN_IE_LEN := 256
  const CCMP: Suite := [0x00, 0x0f, 0xac, 0x04]
  const PSK: Suite := [0x00, 0x0f, 0xac, 0x02]

  /** What is taken at an offset, and the offset just past it. */
  datatype Taken<+T> = Taken(value: T, next: nat)

  // -------------------------------------------------------------- validation

  function TakeU16(b: seq<byte>, at: nat): (r: Result<Taken<nat>, RsnError>)
    ensures r.Ok? ==> r.value.next == at + 2 <= |b| && r.value.value < 65536
  {
    if at + 2 > |b| then Err(InvalidRsnInformationElement) else Ok(Taken(Le16(b, at), at + 2))
  }

  function TakeSuite(b: seq<byte>, at: nat): Result<Taken<Suite>, RsnError> {
    if at + 4 > |b| then Err(InvalidRsnInformationElement) else Ok(Taken(b[at..at + 4], at + 4))
  }

  /** `chunks_exact(4)`, any of them equal to `suite`. */
  predicate Among(suite: Suite, list: seq<byte>) {
    exists k | 0 <= k < |list| / 4 :: list[4 * k..4 * k + 4] == suite
  }

  /** `take_required_suite_list`. */
  function TakeRequired(b: seq<byte>, at: nat, required: Suite): Result<nat, RsnError> {
    match TakeU16(b, at)
    case Err(e) => Err(e)
    case Ok(count) =>
      var end := count.next + 4 * count.value;
      if count.value == 0 || end > |b| || !Among(required, b[count.next..end]) then Err(InvalidRsnInformationElement)
      else Ok(end)
  }

  /** Management frame protection, bits 6 and 7, is not supported. */
  predicate Protected(capabilities: nat) {
    (capabilities / 64) % 4 != 0
  }

  /** `validate_optional_rsn_fields`: nothing, capabilities, or capabilities and
      an empty list of PMKIDs. */
  function ValidateOptional(b: seq<byte>, at: nat): Option<RsnError> {
    if at == |b| then None
    else
      match TakeU16(b, at)
      case Err(e) => Some(e)
      case Ok(capabilities) =>
        if Protected(capabilities.value) then Some(UnsupportedRsnCapabilities)
        else if capabilities.next == |b| then None
        else
          match TakeU16(b, capabilities.next)
          case Err(e) => Some(e)
          case Ok(pmkids) =>
            if pmkids.value != 0 || pmkids.next != |b| then Some(UnsupportedRsnCapabilities) else None
  }

  function ValidateLists(b: seq<byte>, at: nat): Option<RsnError> {
    match TakeRequired(b, at, CCMP)
    case Err(e) => Some(e)
    case Ok(middle) =>
      match TakeRequired(b, middle, PSK)
      case Err(e) => Some(e)
      case Ok(end) => ValidateOptional(b, end)
  }

  function ValidateBody(b: seq<byte>): Option<RsnError> {
    match TakeU16(b, 0)
    case Err(e) => Some(e)
    case Ok(version) =>
      if version.value != 1 then Some(InvalidRsnInformationElement)
      else
        match TakeSuite(b, version.next)
        case Err(e) => Some(e)
        case Ok(group) =>
          if group.value != CCMP then Some(InvalidRsnInformationElement) else ValidateLists(b, group.next)
  }

  /** `validate_rsn_ie`. */
  function Validate(ie: seq<byte>): Option<RsnError> {
    if !(4 <= |ie| <= MAX_RSN_IE_LEN) || ie[0] != 0x30 || (ie[1] as int) + 2 != |ie| then
      Some(InvalidRsnInformationElement)
    else ValidateBody(ie[2..])
  }

  // ----------------------------------------------------------------- elements

  function Le16Bytes(x: nat): (s: seq<byte>)
    requires x < 65536
    ensures |s| == 2 && Le16(s, 0) == x
  {
    [x % 256, x / 256]
  }

  function Flat(suites: seq<Suite>): (s: seq<byte>)
    ensures |s| == 4 * |suites|
  {
    if suites == [] then [] else suites[0] + Flat(suites[1..])
  }

  function Suites(s: seq<byte>): (suites: seq<Suite>)
    requires |s| % 4 == 0
    ensures 4 * |suites| == |s|
  {
    if s == [] then [] else [s[..4]] + Suites(s[4..])
  }

  function SuiteList(suites: seq<Suite>): (s: seq<byte>)
    requires |suites| < 65536
    ensures |s| == 2 + 4 * |suites|
  {
    Le16Bytes(|suites|) + Flat(suites)
  }

  /** The fields after the two suite lists. */
  datatype Rest = Nothing | Capabilities(bits: nat) | NoPmkids(bits: nat)

  predicate RestOk(r: Rest) {
    match r
    case Nothing => true
    case Capabilities(bits) => bits < 65536 && !Protected(bits)
    case NoPmkids(bits) => bits < 65536 && !Protected(bits)
  }

  function RestBytes(r: Rest): seq<byte>
    requires RestOk(r)
  {
    match r
    case Nothing => []
    case Capabilities(bits) => Le16Bytes(bits)
    case NoPmkids(bits) => Le16Bytes(bits) + [0, 0]
  }

  /** An RSN element by its fields: version 1, group cipher CCMP, and lists of
      pairwise ciphers and key managements that offer CCMP and PSK (section
      9.4.2.24 of IEEE 802.11-2020). */
  datatype Element = Element(pairwise: seq<Suite>, akm: seq<Suite>, rest: Rest)

  predicate ElementOk(e: Element) {
    && |e.pairwise| < 65536 && |e.akm| < 65536 && RestOk(e.rest)
    && CCMP in e.pairwise && PSK in e.akm
    && |Body(e)| <= MAX_RSN_IE_LEN - 2
  }

  function Body(e: Element): seq<byte>
    requires |e.pairwise| < 65536 && |e.akm| < 65536 && RestOk(e.rest)
  {
    [1, 0] + CCMP + SuiteList(e.pairwise) + SuiteList(e.akm) + RestBytes(e.rest)
  }

  function ElementBytes(e: Element): seq<byte>
    requires ElementOk(e)
  {
    [0x30, |Body(e)|] + Body(e)
  }

  lemma {:induction false} FlatAt(suites: seq<Suite>, k: nat)
    requires k < |suites|
    ensures Flat(suites)[4 * k..4 * k + 4] == suites[k]
  {
    if k > 0 {
      FlatAt(suites[1..], k - 1);
      assert Flat(suites)[4 * k..4 * k + 4] == Flat(suites[1..])[4 * (k - 1)..4 * (k - 1) + 4];
    }
  }

  lemma {:induction false} FlatSuites(s: seq<byte>)
    requires |s| % 4 == 0
    ensures Flat(Suites(s)) == s
  {
    if s != [] {
      FlatSuites(s[4..]);
      assert Suites(s)[1..] == Suites(s[4..]);
    }
  }

  lemma AmongIsIn(suite: Suite, suites: seq<Suite>)
    ensures Among(suite, Flat(suites)) <==> suite in suites
  {
    forall k | 0 <= k < |suites| ensures Flat(suites)[4 * k..4 * k + 4] == suites[k] {
      FlatAt(suites, k);
    }
    if suite in suites {
      var k :| 0 <= k < |suites| && suites[k] == suite;
      assert Flat(suites)[4 * k..4 * k + 4] == suite;
    }
    if Among(suite, Flat(suites)) {
      var k :| 0 <= k < |suites| && Flat(suites)[4 * k..4 * k + 4] == suite;
      assert suites[k] == suite;
    }
  }

  /** A suite list anywhere in a body is taken whole. */
  lemma ListIsTaken(before: seq<byte>, suites: seq<Suite>, after: seq<byte>, required: Suite)
    requires |suites| < 65536 && required in suites
    ensures TakeRequired(before + SuiteList(suites) + after, |before|, required)
            == Ok(|before| + |SuiteList(suites)|)
  {
    hide Among;
    var b, at := before + SuiteList(suites) + after, |before|;
    assert b[at] == Le16Bytes(|suites|)[0] && b[at + 1] == Le16Bytes(|suites|)[1];
    assert b[at + 2..at + 2 + 4 * |suites|] == Flat(suites);
    AmongIsIn(required, suites);
  }

  lemma RestIsAccepted(before: seq<byte>, r: Rest)
    requires RestOk(r)
    ensures ValidateOptional(before + RestBytes(r), |before|).None?
  {
    var b, at := before + RestBytes(r), |before|;
    if !r.Nothing? {
      assert b[at] == Le16Bytes(r.bits)[0] && b[at + 1] == Le16Bytes(r.bits)[1];
    }
  }

  /** Every such element is accepted. */
  lemma ElementsAreAccepted(e: Element)
    requires ElementOk(e)
    ensures Validate(ElementBytes(e)).None?
  {
    hide TakeRequired, ValidateOptional, SuiteList, RestBytes;
    var b, head := Body(e), [1, 0] + CCMP;
    var first, second := SuiteList(e.pairwise), SuiteList(e.akm);
    assert b == head + first + (second + RestBytes(e.rest));
    ListIsTaken(head, e.pairwise, second + RestBytes(e.rest), CCMP);
    assert b == (head + first) + second + RestBytes(e.rest);
    ListIsTaken(head + first, e.akm, RestBytes(e.rest), PSK);
    assert b == (head + first + second) + RestBytes(e.rest);
    RestIsAccepted(head + first + second, e.rest);
    assert b[2..6] == CCMP;
    assert ElementBytes(e)[2..] == b;
  }

  lemma CountBytes(b: seq<byte>, at: nat)
    requires at + 2 <= |b|
    ensures Le16(b, at) < 65536 && b[at..at + 2] == Le16Bytes(Le16(b, at))
  {
  }

  /** What is taken as a suite list is one. */
  lemma TakenIsList(b: seq<byte>, at: nat, required: Suite) returns (suites: seq<Suite>)
    requires TakeRequired(b, at, required).Ok?
    ensures var end := TakeRequired(b, at, required).value;
            && at <= end <= |b| && |suites| < 65536 && required in suites
            && b[at..end] == SuiteList(suites)
  {
    hide Among, Flat, Suites;
    var count, end := Le16(b, at), TakeRequired(b, at, required).value;
    hide TakeU16;
    suites := Suites(b[at + 2..end]);
    FlatSuites(b[at + 2..end]);
    AmongIsIn(required, suites);
    CountBytes(b, at);
    assert b[at..end] == b[at..at + 2] + b[at + 2..end];
  }

  lemma AcceptedIsRest(b: seq<byte>, at: nat) returns (r: Rest)
    requires at <= |b| && ValidateOptional(b, at).None?
    ensures RestOk(r) && b[at..] == RestBytes(r)
  {
    if at == |b| {
      r := Nothing;
    } else {
      var bits := Le16(b, at);
      r := if at + 2 == |b| then Capabilities(bits) else NoPmkids(bits);
      assert b[at..at + 2] == Le16Bytes(bits);
      assert b[at..] == b[at..at + 2] + b[at + 2..];
    }
  }

  /** Conversely, everything accepted is the bytes of such an element. */
  lemma AcceptedAreElements(ie: seq<byte>) returns (e: Element)
    requires Validate(ie).None?
    ensures ElementOk(e) && ie == ElementBytes(e)
  {
    hide TakeRequired, ValidateOptional, SuiteList, RestBytes;
    var b := ie[2..];
    var middle := TakeRequired(b, 6, CCMP).value;
    var end := TakeRequired(b, middle, PSK).value;
    var pairwise := TakenIsList(b, 6, CCMP);
    var akm := TakenIsList(b, middle, PSK);
    var rest := AcceptedIsRest(b, end);
    e := Element(pairwise, akm, rest);
    assert b[..2] == [1, 0] && b[2..6] == CCMP;
    assert b == b[..2] + b[2..6] + b[6..middle] + b[middle..end] + b[end..];
    assert b == Body(e);
  }
}
