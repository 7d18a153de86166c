/** In-place conversion of received 802.11 payloads to Ethernet frames
    (src/data.rs). */
module Conversion {
  import opened Bytes
  import opened Wrappers

  datatype PayloadType = Mpdu | MsduWithMac | Msdu

  /** `IndexPanic` is not an error of the source: it reads the frame control
      without a bounds check, so there it ends the call by a panic. */
  datatype ConvertError = FrameTooShort | FrameTooLarge | IndexPanic

  const ETHERNET_HEADER_LEN := 14
  const TYPED := 0x0600

  // -------------------------------------------------------------- conversion

  predicate ToDs(frame: seq<byte>)
    requires |frame| >= 2
  {
    frame[1] % 2 == 1
  }

  predicate FromDs(frame: seq<byte>)
    requires |frame| >= 2
  {
    (frame[1] / 2) % 2 == 1
  }

  datatype Addresses = Addresses(destination: seq<byte>, source: seq<byte>)

  /** `ieee80211_addresses`. */
  function MacAddresses(frame: seq<byte>): Result<Addresses, ConvertError>
    requires |frame| >= 2
  {
    if |frame| < 24 then Err(FrameTooShort)
    else if ToDs(frame) && FromDs(frame) then
      if |frame| < 30 then Err(FrameTooShort) else Ok(Addresses(frame[16..22], frame[24..30]))
    else if ToDs(frame) then Ok(Addresses(frame[16..22], frame[10..16]))
    else if FromDs(frame) then Ok(Addresses(frame[4..10], frame[16..22]))
    else Ok(Addresses(frame[4..10], frame[10..16]))
  }

  function LlcType(frame: seq<byte>, at: nat): (r: Result<nat, ConvertError>)
    ensures r.Ok? ==> r.value < 65536 && at + 8 <= |frame|
  {
    if at + 8 > |frame| then Err(FrameTooShort) else Ok(FromBe16(frame[at + 6], frame[at + 7]))
  }

  /** A value below 0x0600 is a length: the LLC header is then payload. */
  function LlcSkip(etherType: nat): nat {
    if etherType >= TYPED then 8 else 2
  }

  function EthernetHeader(a: Addresses, etherType: nat): (h: seq<byte>)
    requires |a.destination| == |a.source| == 6
    ensures |h| == ETHERNET_HEADER_LEN
  {
    a.destination + a.source + Be16(etherType)
  }

  function Rebuilt(frame: seq<byte>, at: nat, a: Addresses, etherType: nat): Result<seq<byte>, ConvertError>
    requires |a.destination| == |a.source| == 6
  {
    if at > |frame| then Err(FrameTooShort)
    else if ETHERNET_HEADER_LEN + |frame| - at > |frame| then Err(FrameTooLarge)
    else Ok(EthernetHeader(a, etherType) + frame[at..])
  }

  function ConvertMpdu(frame: seq<byte>, macLen: nat): Result<seq<byte>, ConvertError>
  {
    if macLen < 24 then Err(FrameTooShort)
    else if |frame| < 2 then Err(IndexPanic)
    else
      match MacAddresses(frame)
      case Err(e) => Err(e)
      case Ok(a) =>
        match LlcType(frame, macLen)
        case Err(e) => Err(e)
        case Ok(etherType) => Rebuilt(frame, macLen + LlcSkip(etherType), a, etherType)
  }

  function ConvertMsdu(frame: seq<byte>, macLen: nat): Result<seq<byte>, ConvertError> {
    if |frame| < macLen + 14 then Err(FrameTooShort)
    else
      match LlcType(frame, macLen + 14)
      case Err(e) => Err(e)
      case Ok(etherType) =>
        Rebuilt(frame, macLen + 14 + LlcSkip(etherType),
                Addresses(frame[macLen..macLen + 6], frame[macLen + 6..macLen + 12]), etherType)
  }

  /** `convert_to_ethernet`. */
  function Convert(frame: seq<byte>, payload: PayloadType, macLen: nat): Result<seq<byte>, ConvertError>
  {
    match payload
    case Mpdu => ConvertMpdu(frame, macLen)
    case MsduWithMac => ConvertMsdu(frame, macLen)
    case Msdu => ConvertMsdu(frame, 0)
  }

  /** Conversion gives a frame or an error on every input but an MPDU without
      its two frame-control bytes behind a MAC header of a plausible length. */
  lemma PanicsExactly(frame: seq<byte>, payload: PayloadType, macLen: nat)
    ensures Convert(frame, payload, macLen) == Err(IndexPanic) <==> payload == Mpdu && macLen >= 24 && |frame| < 2
  {
  }

  // ------------------------------------------------------------ encapsulation

  /** An Ethernet frame by its fields. */
  datatype Ethernet = Ethernet(addresses: Addresses, etherType: nat, payload: seq<byte>)

  predicate EthernetOk(e: Ethernet) {
    |e.addresses.destination| == |e.addresses.source| == 6 && e.etherType < 65536
  }

  function EthernetBytes(e: Ethernet): seq<byte>
    requires EthernetOk(e)
  {
    EthernetHeader(e.addresses, e.etherType) + e.payload
  }

  /** The MAC header fields an Ethernet frame does not determine. `others` are
      the addresses of the cells and stations between the end points. */
  datatype Mac = Mac(control: byte, flags: byte, duration: seq<byte>, others: seq<byte>, sequence: seq<byte>,
                     extension: seq<byte>)

  predicate MacOk(m: Mac) {
    |m.duration| == |m.sequence| == 2 && |m.others| == 12
  }

  /** The header layout of section 9.3.2.1 of IEEE 802.11-2020. */
  function MacHeader(m: Mac, a: Addresses): (h: seq<byte>)
    requires MacOk(m) && |a.destination| == |a.source| == 6
    ensures |h| >= 24
  {
    var toDs, fromDs := m.flags % 2 == 1, (m.flags / 2) % 2 == 1;
    if toDs && fromDs then FourAddresses(m, m.others[..6], m.others[6..], a.destination, a.source)
    else if toDs then ThreeAddresses(m, m.others[..6], a.source, a.destination)
    else if fromDs then ThreeAddresses(m, a.destination, m.others[..6], a.source)
    else ThreeAddresses(m, a.destination, a.source, m.others[..6])
  }

  function ThreeAddresses(m: Mac, a1: seq<byte>, a2: seq<byte>, a3: seq<byte>): (h: seq<byte>)
    requires MacOk(m) && |a1| == |a2| == |a3| == 6
    ensures |h| == 24 + |m.extension|
  {
    [m.control, m.flags] + m.duration + a1 + a2 + a3 + m.sequence + m.extension
  }

  function FourAddresses(m: Mac, a1: seq<byte>, a2: seq<byte>, a3: seq<byte>, a4: seq<byte>): (h: seq<byte>)
    requires MacOk(m) && |a1| == |a2| == |a3| == |a4| == 6
    ensures |h| == 30 + |m.extension|
  {
    [m.control, m.flags] + m.duration + a1 + a2 + a3 + m.sequence + a4 + m.extension
  }

  /** SNAP encapsulation of section 9.2 of RFC 1042. */
  function Llc(etherType: nat): (h: seq<byte>)
    ensures |h| == 8
  {
    [0xaa, 0xaa, 0x03, 0, 0, 0] + Be16(etherType)
  }

  function AsMpdu(e: Ethernet, m: Mac): seq<byte>
    requires EthernetOk(e) && MacOk(m)
  {
    MacHeader(m, e.addresses) + Llc(e.etherType) + e.payload
  }

  /** An A-MSDU subframe behind `mac` header bytes. */
  function AsMsdu(e: Ethernet, mac: seq<byte>): seq<byte>
    requires EthernetOk(e)
  {
    mac + e.addresses.destination + e.addresses.source + Be16(8 + |e.payload|) + Llc(e.etherType) + e.payload
  }

  lemma ThreeFields(m: Mac, a1: seq<byte>, a2: seq<byte>, a3: seq<byte>)
    requires MacOk(m) && |a1| == |a2| == |a3| == 6
    ensures var h := ThreeAddresses(m, a1, a2, a3);
            h[1] == m.flags && h[4..10] == a1 && h[10..16] == a2 && h[16..22] == a3
  {
    var h, start := ThreeAddresses(m, a1, a2, a3), [m.control, m.flags] + m.duration;
    assert h == start + a1 + (a2 + a3 + m.sequence + m.extension);
    assert h == (start + a1) + a2 + (a3 + m.sequence + m.extension);
    assert h == (start + a1 + a2) + a3 + (m.sequence + m.extension);
  }

  lemma FourFields(m: Mac, a1: seq<byte>, a2: seq<byte>, a3: seq<byte>, a4: seq<byte>)
    requires MacOk(m) && |a1| == |a2| == |a3| == |a4| == 6
    ensures var h := FourAddresses(m, a1, a2, a3, a4);
            h[1] == m.flags && h[16..22] == a3 && h[24..30] == a4
  {
    var h, start := FourAddresses(m, a1, a2, a3, a4), [m.control, m.flags] + m.duration;
    assert h == (start + a1 + a2) + a3 + (m.sequence + a4 + m.extension);
    assert h == (start + a1 + a2 + a3 + m.sequence) + a4 + m.extension;
  }

  lemma MacHeaderFields(m: Mac, a: Addresses)
    requires MacOk(m) && |a.destination| == |a.source| == 6
    ensures MacAddresses(MacHeader(m, a)) == Ok(a)
  {
    hide ThreeAddresses, FourAddresses;
    var toDs, fromDs := m.flags % 2 == 1, (m.flags / 2) % 2 == 1;
    if toDs && fromDs {
      FourFields(m, m.others[..6], m.others[6..], a.destination, a.source);
    } else if toDs {
      ThreeFields(m, m.others[..6], a.source, a.destination);
    } else if fromDs {
      ThreeFields(m, a.destination, m.others[..6], a.source);
    } else {
      ThreeFields(m, a.destination, a.source, m.others[..6]);
    }
  }

  lemma AddressesOfPrefix(h: seq<byte>, more: seq<byte>)
    requires |h| >= 24 && MacAddresses(h).Ok?
    ensures MacAddresses(h + more) == MacAddresses(h)
  {
    var f := h + more;
    assert f[4..10] == h[4..10] && f[10..16] == h[10..16] && f[16..22] == h[16..22];
    if |h| >= 30 {
      assert f[24..30] == h[24..30];
    }
  }

  /** Behind any header the LLC type is read back, and what remains is the
      payload, preceded by six LLC bytes if the type is a length. */
  lemma LlcFields(h: seq<byte>, etherType: nat, payload: seq<byte>)
    requires etherType < 65536
    ensures var f := h + Llc(etherType) + payload;
            && LlcType(f, |h|) == Ok(etherType)
            && f[|h| + LlcSkip(etherType)..] == if etherType >= TYPED then payload else Llc(etherType)[2..] + payload
  {
    var f := h + Llc(etherType) + payload;
    assert f[|h| + 6] == Llc(etherType)[6] && f[|h| + 7] == Llc(etherType)[7];
  }

  /** In-place conversion inverts MPDU encapsulation in all four To-DS/From-DS
      modes exactly for typed frames. */
  lemma MpduRoundTrip(e: Ethernet, m: Mac)
    requires EthernetOk(e) && MacOk(m)
    ensures Convert(AsMpdu(e, m), Mpdu, |MacHeader(m, e.addresses)|) == Ok(EthernetBytes(e)) <==> e.etherType >= TYPED
  {
    hide MacHeader, MacAddresses, LlcType, Llc, EthernetHeader;
    var h := MacHeader(m, e.addresses);
    MacHeaderFields(m, e.addresses);
    assert AsMpdu(e, m) == h + (Llc(e.etherType) + e.payload);
    AddressesOfPrefix(h, Llc(e.etherType) + e.payload);
    LlcFields(h, e.etherType, e.payload);
    if e.etherType < TYPED {
      assert |Convert(AsMpdu(e, m), Mpdu, |h|).value| == |EthernetBytes(e)| + 6;
    }
  }

  /** The same for a subframe behind a MAC header, or with none. */
  lemma MsduRoundTrip(e: Ethernet, mac: seq<byte>)
    requires EthernetOk(e)
    ensures Convert(AsMsdu(e, mac), MsduWithMac, |mac|) == Ok(EthernetBytes(e)) <==> e.etherType >= TYPED
    ensures mac == [] ==> (Convert(AsMsdu(e, mac), Msdu, 0) == Ok(EthernetBytes(e)) <==> e.etherType >= TYPED)
  {
    hide LlcType, Llc, EthernetHeader;
    var h := mac + e.addresses.destination + e.addresses.source + Be16(8 + |e.payload|);
    var f := AsMsdu(e, mac);
    assert f == h + Llc(e.etherType) + e.payload;
    LlcFields(h, e.etherType, e.payload);
    assert f[|mac|..|mac| + 6] == e.addresses.destination && f[|mac| + 6..|mac| + 12] == e.addresses.source;
    if e.etherType < TYPED {
      assert |Convert(f, MsduWithMac, |mac|).value| == |EthernetBytes(e)| + 6;
    }
  }

  // ------------------------------------------------------------- in the buffer

  /** `rebuild_ethernet`. */
  method RebuildEthernet(frame: array<byte>, n: nat, at: nat, a: Addresses, etherType: nat)
    returns (r: Result<nat, ConvertError>)
    requires |a.destination| == |a.source| == 6 && n <= frame.Length
    modifies frame
    ensures r.Ok? ==> r.value <= n && Rebuilt(old(frame[..n]), at, a, etherType) == Ok(frame[..r.value])
    ensures r.Ok? ==> frame[r.value..] == old(frame[..])[r.value..]
    ensures r.Err? ==> Rebuilt(old(frame[..n]), at, a, etherType) == Err(r.error) && frame[..] == old(frame[..])
  {
    if at > n {
      return Err(FrameTooShort);
    }
    var newLen := ETHERNET_HEADER_LEN + n - at;
    if newLen > n {
      return Err(FrameTooLarge);
    }
    ghost var was := frame[..];
    CopyDown(frame, at, n, ETHERNET_HEADER_LEN);
    assert frame[ETHERNET_HEADER_LEN..newLen] == was[at..n] && frame[newLen..] == was[newLen..];
    CopyInto(EthernetHeader(a, etherType), frame, 0);
    assert was[..n][at..] == was[at..n];
    assert frame[..newLen] == EthernetHeader(a, etherType) + was[at..n];
    r := Ok(newLen);
  }

  /** `convert_to_ethernet`: the frame in the first `n` bytes is rewritten at the
      front of its buffer. */
  method ConvertToEthernet(frame: array<byte>, n: nat, payload: PayloadType, macLen: nat)
    returns (r: Result<nat, ConvertError>)
    requires n <= frame.Length
    modifies frame
    ensures r.Ok? ==> r.value <= n && Convert(old(frame[..n]), payload, macLen) == Ok(frame[..r.value])
    ensures r.Ok? ==> frame[r.value..] == old(frame[..])[r.value..]
    ensures r.Err? ==> Convert(old(frame[..n]), payload, macLen) == Err(r.error) && frame[..] == old(frame[..])
  {
    hide Rebuilt;
    match payload {
      case Mpdu => r := ConvertMpduInPlace(frame, n, macLen);
      case MsduWithMac => r := ConvertMsduInPlace(frame, n, macLen);
      case Msdu => r := ConvertMsduInPlace(frame, n, 0);
    }
  }

  method ConvertMpduInPlace(frame: array<byte>, n: nat, macLen: nat) returns (r: Result<nat, ConvertError>)
    requires n <= frame.Length
    modifies frame
    ensures r.Ok? ==> r.value <= n && ConvertMpdu(old(frame[..n]), macLen) == Ok(frame[..r.value])
    ensures r.Ok? ==> frame[r.value..] == old(frame[..])[r.value..]
    ensures r.Err? ==> ConvertMpdu(old(frame[..n]), macLen) == Err(r.error) && frame[..] == old(frame[..])
  {
    hide Rebuilt;
    if macLen < 24 {
      return Err(FrameTooShort);
    }
    if n < 2 {
      return Err(IndexPanic);
    }
    var addresses := MacAddresses(frame[..n]);
    if addresses.Err? {
      return Err(addresses.error);
    }
    var etherType := LlcType(frame[..n], macLen);
    if etherType.Err? {
      return Err(etherType.error);
    }
    r := RebuildEthernet(frame, n, macLen + LlcSkip(etherType.value), addresses.value, etherType.value);
  }

  method ConvertMsduInPlace(frame: array<byte>, n: nat, macLen: nat) returns (r: Result<nat, ConvertError>)
    requires n <= frame.Length
    modifies frame
    ensures r.Ok? ==> r.value <= n && ConvertMsdu(old(frame[..n]), macLen) == Ok(frame[..r.value])
    ensures r.Ok? ==> frame[r.value..] == old(frame[..])[r.value..]
    ensures r.Err? ==> ConvertMsdu(old(frame[..n]), macLen) == Err(r.error) && frame[..] == old(frame[..])
  {
    hide Rebuilt;
    if n < macLen + 14 {
      return Err(FrameTooShort);
    }
    var whole := frame[..n];
    var addresses := Addresses(whole[macLen..macLen + 6], whole[macLen + 6..macLen + 12]);
    var etherType := LlcType(whole, macLen + 14);
    if etherType.Err? {
      return Err(etherType.error);
    }
    r := RebuildEthernet(frame, n, macLen + 14 + LlcSkip(etherType.value), addresses, etherType.value);
  }
}
