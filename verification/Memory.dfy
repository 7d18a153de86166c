/** RPU address translation and chunked memory access (src/memory.rs). */
module Memory {
  import opened Bytes
  import opened Spi
  import opened Wrappers

  datatype Processor = Lmac | Umac

  datatype AccessError = Unaligned | Unsupported | RangeError | BusFailed

  /** One host-visible region: RPU addresses `first` to `last` appear at
      `base + address % 2^24` on the host bus. */
  datatype Region = Region(first: nat, last: nat, base: nat)

  const SBUS := Region(0xa400_0000, 0xa400_7fff, 0)
  const PBUS := Region(0xa500_0000, 0xa503_ffff, 0x04_0000)
  const GRAM := Region(0xb700_0000, 0xb701_01ff, 0x08_0000)
  const PKTRAM := Region(0xb000_0000, 0xb003_0fff, 0x0c_0000)
  const LMAC_ROM := Region(0x8000_0000, 0x8003_3fff, 0x10_0000)
  const LMAC_RET := Region(0x8004_0000, 0x8004_bfff, 0x10_0000)
  const LMAC_SCRATCH := Region(0x8008_0000, 0x8008_ffff, 0x10_0000)
  const UMAC_ROM := Region(0x8000_0000, 0x8006_17ff, 0x20_0000)
  const UMAC_RET := Region(0x8008_0000, 0x800a_3fff, 0x20_0000)
  const UMAC_SCRATCH := Region(0x8010_0000, 0x8013_7fff, 0x20_0000)

  function Regions(p: Processor): seq<Region> {
    [SBUS, PBUS, GRAM, PKTRAM] +
    if p == Lmac then [LMAC_ROM, LMAC_RET, LMAC_SCRATCH] else [UMAC_ROM, UMAC_RET, UMAC_SCRATCH]
  }

  predicate In(r: Region, a: nat) {
    r.first <= a <= r.last
  }

  const MASK := 0x100_0000

  // -------------------------------------------------------------- translation

  function SharedBase(a: nat): Option<nat> {
    if In(SBUS, a) then Some(SBUS.base)
    else if In(PBUS, a) then Some(PBUS.base)
    else if In(GRAM, a) then Some(GRAM.base)
    else if In(PKTRAM, a) then Some(PKTRAM.base)
    else None
  }

  function ProcessorBase(p: Processor, a: nat): Option<nat> {
    match p
    case Lmac => if In(LMAC_ROM, a) || In(LMAC_RET, a) || In(LMAC_SCRATCH, a) then Some(0x10_0000) else None
    case Umac => if In(UMAC_ROM, a) || In(UMAC_RET, a) || In(UMAC_SCRATCH, a) then Some(0x20_0000) else None
  }

  /** `host_offset`. */
  function HostOffset(p: Processor, a: nat): (r: Result<nat, AccessError>)
    ensures r.Ok? ==> r.value + 0x1_0000 <= INCREMENTING
  {
    if SharedBase(a).Some? then Ok(SharedBase(a).value + a % MASK)
    else if ProcessorBase(p, a).Some? then Ok(ProcessorBase(p, a).value + a % MASK)
    else Err(Unsupported)
  }

  /** An address is translated exactly if it lies in one of the processor's
      regions, and then by that region's base. */
  lemma TranslatedIffMapped(p: Processor, a: nat)
    ensures HostOffset(p, a).Ok? <==> exists r :: r in Regions(p) && In(r, a)
    ensures forall r :: r in Regions(p) && In(r, a) ==> HostOffset(p, a) == Ok(r.base + a - r.first / MASK * MASK)
  {
    var rs := Regions(p);
    assert rs[0] == SBUS && rs[1] == PBUS && rs[2] == GRAM && rs[3] == PKTRAM;
    assert p == Lmac ==> rs[4] == LMAC_ROM && rs[5] == LMAC_RET && rs[6] == LMAC_SCRATCH;
    assert p == Umac ==> rs[4] == UMAC_ROM && rs[5] == UMAC_RET && rs[6] == UMAC_SCRATCH;
  }

  /** No two addresses of one processor share a host offset. */
  lemma HostOffsetIsInjective(p: Processor, a: nat, b: nat)
    requires HostOffset(p, a).Ok? && HostOffset(p, a) == HostOffset(p, b)
    ensures a == b
  {
    SharedRange(a);
    SharedRange(b);
    if SharedBase(a).Some? {
      SharedInjective(a, b);
    } else {
      ProcessorInjective(p, a, b);
    }
  }

  lemma SharedRange(a: nat)
    ensures SharedBase(a).Some? ==> SharedBase(a).value + a % MASK < 0x10_0000
  {
  }

  lemma SharedInjective(a: nat, b: nat)
    requires SharedBase(a).Some? && SharedBase(b).Some?
    requires SharedBase(a).value + a % MASK == SharedBase(b).value + b % MASK
    ensures a == b
  {
  }

  lemma ProcessorInjective(p: Processor, a: nat, b: nat)
    requires ProcessorBase(p, a).Some? && ProcessorBase(p, b).Some?
    requires ProcessorBase(p, a).value + a % MASK == ProcessorBase(p, b).value + b % MASK
    ensures a == b
  {
  }

  /** `a` to `a + n - 1` inside one region. */
  predicate OneRegion(p: Processor, r: Region, a: nat, n: nat) {
    r in Regions(p) && r.first <= a && a + n <= r.last + 1
  }

  /** Where a region's address appears on the host bus. */
  function Host(r: Region, a: nat): int {
    r.base + a - r.first / MASK * MASK
  }

  /** Read latency is constant across each region. */
  lemma RegionLatency(preset: Preset, p: Processor, r: Region, a: nat)
    requires r in Regions(p) && In(r, a)
    ensures 0 <= Host(r, a) && 0 <= Host(r, r.first)
    ensures Latency(preset, Host(r, a)) == Latency(preset, Host(r, r.first))
  {
    if r in [SBUS, PBUS, GRAM, PKTRAM] {
      SharedLatency(preset, r, a);
    } else {
      assert r in (if p == Lmac then [LMAC_ROM, LMAC_RET, LMAC_SCRATCH] else [UMAC_ROM, UMAC_RET, UMAC_SCRATCH]);
    }
  }

  lemma SharedLatency(preset: Preset, r: Region, a: nat)
    requires r in [SBUS, PBUS, GRAM, PKTRAM] && In(r, a)
    ensures 0 <= Host(r, a) && 0 <= Host(r, r.first)
    ensures Latency(preset, Host(r, a)) == Latency(preset, Host(r, r.first))
  {
  }

  /** Inside one region the host sees consecutive addresses at one latency. */
  lemma RegionIsFlat(preset: Preset, p: Processor, r: Region, a: nat, n: nat, k: nat)
    requires OneRegion(p, r, a, n) && k < n
    ensures HostOffset(p, a).Ok? && HostOffset(p, a + k) == Ok(HostOffset(p, a).value + k)
    ensures Latency(preset, HostOffset(p, a + k).value) == Latency(preset, HostOffset(p, a).value)
  {
    hide HostOffset, Latency, Regions;
    TranslatedIffMapped(p, a);
    TranslatedIffMapped(p, a + k);
    RegionLatency(preset, p, r, a);
    RegionLatency(preset, p, r, a + k);
  }

  lemma RegionIsSteady(preset: Preset, p: Processor, r: Region, a: nat, n: nat)
    requires OneRegion(p, r, a, n) && n > 0
    ensures HostOffset(p, a).Ok? && HostOffset(p, a).value + n <= INCREMENTING
    ensures Steady(preset, HostOffset(p, a).value, n)
  {
    hide HostOffset, Latency;
    RegionIsFlat(preset, p, r, a, n, n - 1);
    var host := HostOffset(p, a).value;
    forall k | host <= k < host + n ensures Latency(preset, k) == Latency(preset, host) {
      RegionIsFlat(preset, p, r, a, n, k - host);
    }
  }

  /** The whole range lies inside some region of the processor. */
  ghost predicate Inside(p: Processor, a: nat, n: nat) {
    exists r :: OneRegion(p, r, a, n)
  }

  /** The host offset of an address, or 0. */
  function At(p: Processor, a: nat): (host: nat)
    ensures host + 0x1_0000 <= INCREMENTING
  {
    if HostOffset(p, a).Ok? then HostOffset(p, a).value else 0
  }

  lemma InsideIsFlat(preset: Preset, p: Processor, a: nat, n: nat, k: nat)
    requires Inside(p, a, n) && k < n
    ensures HostOffset(p, a) == Ok(At(p, a)) && HostOffset(p, a + k) == Ok(At(p, a) + k)
    ensures At(p, a) + n <= INCREMENTING && Steady(preset, At(p, a), n)
  {
    hide HostOffset, Steady, Latency;
    var r :| OneRegion(p, r, a, n);
    RegionIsFlat(preset, p, r, a, n, k);
    RegionIsSteady(preset, p, r, a, n);
  }

  lemma InsidePart(p: Processor, a: nat, n: nat, k: nat, m: nat)
    requires Inside(p, a, n) && k + m <= n
    ensures Inside(p, a + k, m)
  {
    var r :| OneRegion(p, r, a, n);
    assert OneRegion(p, r, a + k, m);
  }

  // --------------------------------------------------------------- validation

  function Align4(n: nat): (m: nat)
    ensures n <= m < n + 4 && m % 4 == 0
  {
    (n + 3) / 4 * 4
  }

  /** `validate_access`: alignment, and both ends of the padded range mapped at
      the same distance. */
  function Validate(p: Processor, a: nat, len: nat): Option<AccessError> {
    if a % 4 != 0 then Some(Unaligned)
    else if len == 0 then if HostOffset(p, a).Ok? then None else Some(Unsupported)
    else
      var span := Align4(len) - 1;
      if a + span >= 0x1_0000_0000 then Some(RangeError)
      else if HostOffset(p, a).Err? || HostOffset(p, a + span).Err? then Some(Unsupported)
      else if HostOffset(p, a + span).value - HostOffset(p, a).value != span then Some(RangeError)
      else None
  }

  /** Every aligned access inside one region is accepted. */
  lemma OneRegionIsValid(p: Processor, r: Region, a: nat, len: nat)
    requires a % 4 == 0 && 0 < len && OneRegion(p, r, a, Align4(len))
    ensures Validate(p, a, len).None?
  {
    hide HostOffset, Latency;
    RegionIsFlat(NordicDefault, p, r, a, Align4(len), Align4(len) - 1);
    RegionEnds(p);
  }

  lemma RegionEnds(p: Processor)
    ensures forall r :: r in Regions(p) ==> r.last < 0x1_0000_0000
  {
  }

  /** But only the ends are compared: an access that starts in the LMAC ROM and
      ends in the retention RAM is accepted although the addresses between them
      are not mapped. */
  lemma GapIsAccepted()
    ensures Validate(Lmac, 0x8003_3ffc, 0xc008).None?
    ensures HostOffset(Lmac, 0x8003_4000).Err?
    ensures forall r :: !OneRegion(Lmac, r, 0x8003_3ffc, 0xc008)
  {
    var rs := Regions(Lmac);
    forall r ensures !OneRegion(Lmac, r, 0x8003_3ffc, 0xc008) {
      if r in rs {
        assert r in [SBUS, PBUS, GRAM, PKTRAM] || r in [LMAC_ROM, LMAC_RET, LMAC_SCRATCH];
      }
    }
  }

  /** Which ends the code accepts: those in two regions with the same base. The
      shared regions have a base each, so an access to them stays in one; the
      three local regions of a processor have one base together. */
  lemma AcceptedEnds(p: Processor, a: nat, len: nat)
    requires a % 4 == 0 && 0 < len
    ensures Validate(p, a, len).None? <==>
            exists r, s :: r in Regions(p) && s in Regions(p) && r.base == s.base
                           && In(r, a) && In(s, a + Align4(len) - 1)
  {
    hide Validate, HostOffset, Align4, Regions;
    var end := a + Align4(len) - 1;
    if Validate(p, a, len).None? {
      AcceptedHaveOneBase(p, a, len);
    }
    forall r, s | r in Regions(p) && s in Regions(p) && r.base == s.base && In(r, a) && In(s, end)
      ensures Validate(p, a, len).None?
    {
      OneBaseIsAccepted(p, r, s, a, len);
    }
  }

  lemma AcceptedHaveOneBase(p: Processor, a: nat, len: nat)
    requires 0 < len && Validate(p, a, len).None?
    ensures exists r, s :: r in Regions(p) && s in Regions(p) && r.base == s.base
                           && In(r, a) && In(s, a + Align4(len) - 1)
  {
    hide HostOffset, Align4, Regions;
    var end := a + Align4(len) - 1;
    TranslatedIffMapped(p, a);
    TranslatedIffMapped(p, end);
    var r :| r in Regions(p) && In(r, a);
    var s :| s in Regions(p) && In(s, end);
    SameShiftSameBase(p, r, s);
  }

  lemma OneBaseIsAccepted(p: Processor, r: Region, s: Region, a: nat, len: nat)
    requires a % 4 == 0 && 0 < len && r in Regions(p) && s in Regions(p) && r.base == s.base
    requires In(r, a) && In(s, a + Align4(len) - 1)
    ensures Validate(p, a, len).None?
  {
    hide HostOffset, Align4, Regions;
    RegionEnds(p);
    TranslatedIffMapped(p, a);
    TranslatedIffMapped(p, a + Align4(len) - 1);
    SameShiftSameBase(p, r, s);
  }

  /** Two regions of a processor appear at the same distance from their RPU
      addresses exactly if they have the same base. */
  lemma SameShiftSameBase(p: Processor, r: Region, s: Region)
    requires r in Regions(p) && s in Regions(p)
    ensures r.base == s.base <==> r.base - r.first / MASK * MASK == s.base - s.first / MASK * MASK
  {
    RegionList(p, r);
    RegionList(p, s);
  }

  lemma RegionList(p: Processor, r: Region)
    requires r in Regions(p)
    ensures r in [SBUS, PBUS, GRAM, PKTRAM]
            || r in (if p == Lmac then [LMAC_ROM, LMAC_RET, LMAC_SCRATCH] else [UMAC_ROM, UMAC_RET, UMAC_SCRATCH])
  {
  }

  /** No region of a processor begins where another ends. */
  lemma GapAfterRegion(p: Processor, r: Region)
    requires r in Regions(p)
    ensures HostOffset(p, r.last + 1).Err?
  {
    RegionList(p, r);
  }

  /** An accepted access touches mapped addresses only if and only if one region
      holds both its ends: a caller has to check that, the code does not. */
  lemma AcceptedTouchesOnlyMapped(p: Processor, a: nat, len: nat)
    requires 0 < len && Validate(p, a, len).None?
    ensures (forall b | a <= b < a + Align4(len) :: HostOffset(p, b).Ok?) <==>
            exists r :: r in Regions(p) && In(r, a) && In(r, a + Align4(len) - 1)
  {
    hide HostOffset, Align4, Validate;
    var end := a + Align4(len) - 1;
    if forall b | a <= b < a + Align4(len) :: HostOffset(p, b).Ok? {
      TranslatedIffMapped(p, a);
      var r :| r in Regions(p) && In(r, a);
      GapAfterRegion(p, r);
      assert In(r, end);
    }
    forall r, b | r in Regions(p) && In(r, a) && In(r, end) && a <= b <= end
      ensures HostOffset(p, b).Ok?
    {
      TranslatedIffMapped(p, b);
    }
  }

  // ------------------------------------------------------------------- access

  /** What a write leaves in the padded range: the data, then zeros. */
  function Padded(data: seq<byte>): (s: seq<byte>)
    ensures |s| == Align4(|data|)
  {
    data + Zeros(Align4(|data|) - |data|)
  }

  /** The first `k` bytes are those of memory from `host` on. */
  predicate Matches(bytes: seq<byte>, m: seq<byte>, host: nat, k: nat) {
    k <= |bytes| && host + k <= |m| && bytes[..k] == m[host..host + k]
  }

  lemma NoneMatches(bytes: seq<byte>, m: seq<byte>, host: nat)
    requires host <= |m|
    ensures Matches(bytes, m, host, 0)
  {
  }

  /** A non-empty access that `validate_access` lets through. */
  predicate Accepted(p: Processor, a: nat, len: nat) {
    0 < len && Validate(p, a, len).None?
  }

  predicate MappedAt(p: Processor, a: nat, d: nat) {
    HostOffset(p, a + d).Ok?
  }

  /** Every chunk of the first `n` bytes begins at a mapped address. */
  predicate StartsMapped(p: Processor, a: nat, n: nat) {
    forall d | 0 <= d < n && d % MAX_DATA_LEN == 0 :: MappedAt(p, a, d)
  }

  lemma AcceptedFits(p: Processor, a: nat, len: nat)
    requires Accepted(p, a, len)
    ensures HostOffset(p, a) == Ok(At(p, a)) && At(p, a) + Align4(len) <= INCREMENTING
  {
  }

  /** The mapped addresses of an accepted access appear in one flat range on the
      host bus, even across a gap. */
  lemma AcceptedIsFlat(p: Processor, a: nat, len: nat, d: nat)
    requires Accepted(p, a, len) && d < Align4(len)
    ensures MappedAt(p, a, d) ==> HostOffset(p, a + d) == Ok(At(p, a) + d) && At(p, a + d) == At(p, a) + d
  {
    if MappedAt(p, a, d) {
      BetweenIsFlat(p, a, a + d, a + Align4(len) - 1);
    }
  }

  lemma BetweenIsFlat(p: Processor, a: nat, b: nat, end: nat)
    requires a <= b <= end && HostOffset(p, a).Ok? && HostOffset(p, b).Ok? && HostOffset(p, end).Ok?
    requires HostOffset(p, end).value - HostOffset(p, a).value == end - a
    ensures HostOffset(p, b).value - HostOffset(p, a).value == b - a
  {
  }

  /** Chunks end at words, and at whole chunks but for the last one. */
  lemma ChunkEnds(n: nat, done: nat, count: nat)
    requires n % 4 == 0 && done % 4 == 0 && done % MAX_DATA_LEN == 0 && done < n
    requires count == if MAX_DATA_LEN < n - done then MAX_DATA_LEN else n - done
    ensures (done + count) % 4 == 0 && ((done + count) % MAX_DATA_LEN == 0 || done + count == n)
  {
  }

  /** The last word of an accepted access is mapped as a whole. */
  lemma TailIsMapped(p: Processor, a: nat, len: nat)
    requires Accepted(p, a, len) && len % 4 != 0
    ensures Align4(len) == len / 4 * 4 + 4 && MappedAt(p, a, len / 4 * 4)
  {
    hide HostOffset;
    LastWord(len);
    assert a % 4 == 0 && HostOffset(p, a + Align4(len) - 1).Ok?;
    hide Validate, Align4;
    WordIsMapped(p, a + len / 4 * 4);
  }

  lemma LastWord(len: nat)
    requires len % 4 != 0
    ensures Align4(len) == len / 4 * 4 + 4
  {
  }

  lemma WordIsMapped(p: Processor, a: nat)
    requires a % 4 == 0 && HostOffset(p, a + 3).Ok?
    ensures HostOffset(p, a).Ok?
  {
  }

  /** Inside one region every chunk begins at a mapped address. */
  lemma InsideStarts(preset: Preset, p: Processor, a: nat, n: nat, m: nat)
    requires Inside(p, a, n) && m <= n
    ensures StartsMapped(p, a, m)
  {
    hide HostOffset, Inside, Latency;
    forall d | 0 <= d < m && d % MAX_DATA_LEN == 0 ensures MappedAt(p, a, d) {
      InsideIsFlat(preset, p, a, n, d);
    }
  }

  class Rpu {
    const bus: SpiTransport

    predicate Valid() {
      bus.Valid()
    }

    constructor (bus: SpiTransport)
      requires bus.Valid()
      ensures Valid() && this.bus == bus
    {
      this.bus := bus;
    }

    /** `write`: 4096-byte chunks, then a zero-padded tail word. A refused access
        changes nothing. An accepted one writes a prefix of the padded data to
        one flat host range: all of it if no transaction fails and every chunk
        begins at a mapped address, as it does inside one region. */
    method Write(p: Processor, a: nat, data: seq<byte>) returns (e: Option<AccessError>, ghost sent: nat)
      requires Valid()
      modifies bus.slave, bus.io
      ensures Validate(p, a, |data|).Some? ==> e == Validate(p, a, |data|) && bus.slave.memory == old(bus.slave.memory)
      ensures data == [] && Validate(p, a, 0).None? ==> e.None? && bus.slave.memory == old(bus.slave.memory)
      ensures Accepted(p, a, |data|) ==>
                && sent <= Align4(|data|) && At(p, a) + Align4(|data|) <= INCREMENTING
                && bus.slave.memory == Splice(old(bus.slave.memory), At(p, a), Padded(data)[..sent])
                && (e.None? ==> sent == Align4(|data|))
                && (e.Some? ==> e.value == Unsupported || e.value == BusFailed)
      ensures old(bus.slave.Healthy()) ==> bus.slave.Healthy()
      ensures old(bus.slave.Healthy()) && Accepted(p, a, |data|) ==>
                (e.None? <==> StartsMapped(p, a, |data| / 4 * 4))
      ensures old(bus.slave.Healthy()) && a % 4 == 0 && 0 < |data| && Inside(p, a, Align4(|data|)) ==>
                e.None? && Accepted(p, a, |data|)
    {
      hide HostOffset, Validate, Inside, At, Splice, Steady, Slave.Healthy, MappedAt, StartsMapped;
      e, sent := Validate(p, a, |data|), 0;
      InsideIsAccepted(bus.slave.preset, p, a, |data|);
      if e.Some? || data == [] {
        return;
      }
      var aligned := |data| / 4 * 4;
      PaddedParts(data, aligned);
      AcceptedFits(p, a, |data|);
      e, sent := WriteAligned(p, a, |data|, data[..aligned]);
      assert data[..aligned][..sent] == Padded(data)[..sent];
      if e.Some? || aligned == |data| {
        return;
      }
      TailIsMapped(p, a, |data|);
      AcceptedIsFlat(p, a, |data|, aligned);
      assert data[..aligned][..aligned] == data[..aligned];
      ghost var arrived;
      e, arrived := WriteChunk(p, a + aligned, Tail(data, aligned));
      SpliceTwice(old(bus.slave.memory), At(p, a), data[..aligned], Tail(data, aligned)[..arrived]);
      sent := aligned + arrived;
      assert data[..aligned] + Tail(data, aligned)[..arrived] == Padded(data)[..sent];
    }

    method WriteAligned(p: Processor, a: nat, len: nat, data: seq<byte>)
      returns (e: Option<AccessError>, ghost sent: nat)
      requires Valid() && Accepted(p, a, len) && |data| <= Align4(len)
      requires At(p, a) + Align4(len) <= INCREMENTING
      modifies bus.slave, bus.io
      ensures sent <= |data| && (e.None? ==> sent == |data|)
      ensures bus.slave.memory == Splice(old(bus.slave.memory), At(p, a), data[..sent])
      ensures e.Some? ==> e.value == Unsupported || e.value == BusFailed
      ensures old(bus.slave.Healthy()) ==> bus.slave.Healthy() && (e.None? <==> StartsMapped(p, a, |data|))
    {
      hide HostOffset, Validate, At, Splice, Slave.Healthy, StartsMapped;
      NoStarts(p, a);
      AcceptedFits(p, a, len);
      SpliceEmpty(bus.slave.memory, At(p, a));
      assert data[..0] == [];
      var done := 0;
      sent := 0;
      while done < |data|
        invariant done % MAX_DATA_LEN == 0 || done == |data|
        invariant done == sent <= |data|
        invariant bus.slave.memory == Splice(old(bus.slave.memory), At(p, a), data[..done])
        invariant old(bus.slave.Healthy()) ==> bus.slave.Healthy()
        invariant StartsMapped(p, a, done)
      {
        var count := if MAX_DATA_LEN < |data| - done then MAX_DATA_LEN else |data| - done;
        var chunk := data[done..done + count];
        ghost var arrived;
        e, arrived := WriteChunk(p, a + done, chunk);
        AcceptedIsFlat(p, a, len, done);
        if MappedAt(p, a, done) {
          SpliceTwice(old(bus.slave.memory), At(p, a), data[..done], chunk[..arrived]);
        }
        assert data[..done] + chunk[..arrived] == data[..done + arrived];
        sent := done + arrived;
        if e.Some? {
          if !MappedAt(p, a, done) {
            StartsBroken(p, a, done, |data|);
          }
          return;
        }
        StartsGrow(p, a, done, count);
        done := done + count;
      }
      e := None;
    }

    /** One bus write at a translated address. */
    method WriteChunk(p: Processor, a: nat, chunk: seq<byte>) returns (e: Option<AccessError>, ghost sent: nat)
      requires Valid() && |chunk| <= MAX_DATA_LEN
      modifies bus.slave, bus.io
      ensures sent <= |chunk| && (e.None? ==> sent == |chunk|)
      ensures HostOffset(p, a).Err? ==> e == Some(Unsupported) && sent == 0 && bus.slave.memory == old(bus.slave.memory)
      ensures HostOffset(p, a).Ok? ==>
                (e.None? || e.value == BusFailed)
                && bus.slave.memory == Splice(old(bus.slave.memory), At(p, a), chunk[..sent])
      ensures old(bus.slave.Healthy()) ==> bus.slave.Healthy() && (e.None? <==> HostOffset(p, a).Ok?)
    {
      hide Splice, Slave.Healthy;
      var offset := HostOffset(p, a);
      if offset.Err? {
        return Some(offset.error), 0;
      }
      var ok;
      ok, sent := bus.Write(offset.value, chunk);
      e := if ok then None else Some(BusFailed);
    }

    /** `read`: 4096-byte chunks, then a tail word read into scratch. A refused
        access leaves the buffer alone. An accepted one that succeeds returns the
        host memory of one flat range, if its latency is the same all over, as
        it is inside one region; and it succeeds if no transaction fails and
        every chunk begins at a mapped address. */
    method Read(p: Processor, a: nat, out: array<byte>) returns (e: Option<AccessError>)
      requires Valid() && out != bus.io
      modifies bus.slave`endings, bus.io, out
      ensures Validate(p, a, out.Length).Some? ==> e == Validate(p, a, out.Length) && out[..] == old(out[..])
      ensures Accepted(p, a, out.Length) ==>
                && At(p, a) + Align4(out.Length) <= INCREMENTING
                && (e.Some? ==> e.value == Unsupported || e.value == BusFailed)
                && (e.None? && Steady(bus.slave.preset, At(p, a), Align4(out.Length)) ==>
                      out[..] == bus.slave.memory[At(p, a)..At(p, a) + out.Length])
      ensures old(bus.slave.Healthy()) ==> bus.slave.Healthy()
      ensures old(bus.slave.Healthy()) && Accepted(p, a, out.Length) ==>
                (e.None? <==> StartsMapped(p, a, out.Length / 4 * 4))
      ensures old(bus.slave.Healthy()) && a % 4 == 0 && 0 < out.Length && Inside(p, a, Align4(out.Length)) ==>
                e.None? && Accepted(p, a, out.Length) && Steady(bus.slave.preset, At(p, a), Align4(out.Length))
    {
      hide HostOffset, Validate, Steady, Inside, At, Slave.Healthy, MappedAt, StartsMapped;
      e := Validate(p, a, out.Length);
      InsideIsAccepted(bus.slave.preset, p, a, out.Length);
      if e.Some? || out.Length == 0 {
        return;
      }
      ValidIsAligned(p, a, out.Length);
      AcceptedFits(p, a, out.Length);
      e := ReadAll(p, a, out);
    }

    method ReadAll(p: Processor, a: nat, out: array<byte>) returns (e: Option<AccessError>)
      requires Valid() && out != bus.io && a % 4 == 0 && Accepted(p, a, out.Length)
      requires At(p, a) + Align4(out.Length) <= INCREMENTING
      modifies bus.slave`endings, bus.io, out
      ensures e.Some? ==> e.value == Unsupported || e.value == BusFailed
      ensures e.None? && Steady(bus.slave.preset, At(p, a), Align4(out.Length)) ==>
                out[..] == bus.slave.memory[At(p, a)..At(p, a) + out.Length]
      ensures old(bus.slave.Healthy()) ==>
                bus.slave.Healthy() && (e.None? <==> StartsMapped(p, a, out.Length / 4 * 4))
    {
      hide HostOffset, Validate, Steady, At, Slave.Healthy, MappedAt, StartsMapped, Align4;
      var aligned := out.Length / 4 * 4;
      e := ReadAligned(p, a, out, aligned);
      if e.Some? || aligned == out.Length {
        assert aligned == out.Length ==> out[..aligned] == out[..];
        return;
      }
      TailIsMapped(p, a, out.Length);
      AcceptedIsFlat(p, a, out.Length, aligned);
      ghost var front := out[..aligned];
      e := ReadTail(p, a, aligned, out);
      if Steady(bus.slave.preset, At(p, a), Align4(out.Length)) {
        SteadyPart(bus.slave.preset, At(p, a), Align4(out.Length), aligned, 4);
        assert out[..] == front + out[aligned..];
        TwoParts(bus.slave.memory, At(p, a), aligned, out.Length - aligned);
      }
    }

    method ReadAligned(p: Processor, a: nat, out: array<byte>, n: nat) returns (e: Option<AccessError>)
      requires Valid() && out != bus.io && n <= out.Length && n % 4 == 0 && a % 4 == 0 && Accepted(p, a, out.Length)
      requires At(p, a) + Align4(out.Length) <= INCREMENTING
      modifies bus.slave`endings, bus.io, out
      ensures e.Some? ==> e.value == Unsupported || e.value == BusFailed
      ensures e.None? && Steady(bus.slave.preset, At(p, a), Align4(out.Length)) ==>
                Matches(out[..], bus.slave.memory, At(p, a), n)
      ensures old(bus.slave.Healthy()) ==> bus.slave.Healthy() && (e.None? <==> StartsMapped(p, a, n))
    {
      hide HostOffset, Validate, At, Steady, Slave.Healthy, StartsMapped, MappedAt, Align4, Accepted, Matches;
      NoStarts(p, a);
      NoneMatches(out[..], bus.slave.memory, At(p, a));
      ghost var host, flat := At(p, a), Steady(bus.slave.preset, At(p, a), Align4(out.Length));
      var done := 0;
      while done < n
        invariant done <= n && done % 4 == 0 && (done % MAX_DATA_LEN == 0 || done == n)
        invariant flat ==> Matches(out[..], bus.slave.memory, host, done)
        invariant old(bus.slave.Healthy()) ==> bus.slave.Healthy()
        invariant StartsMapped(p, a, done)
      {
        var count := if MAX_DATA_LEN < n - done then MAX_DATA_LEN else n - done;
        ChunkEnds(n, done, count);
        if flat {
          SteadyPart(bus.slave.preset, host, Align4(out.Length), done, count);
        }
        AcceptedIsFlat(p, a, out.Length, done);
        e := ReadNext(p, a, host, out, done, count);
        if e.Some? {
          if !MappedAt(p, a, done) {
            StartsBroken(p, a, done, n);
          }
          return;
        }
        StartsGrow(p, a, done, count);
        done := done + count;
      }
      e := None;
    }

    /** The next chunk of a read into the front of `out`. */
    method ReadNext(p: Processor, a: nat, ghost host: nat, out: array<byte>, done: nat, count: nat)
      returns (e: Option<AccessError>)
      requires Valid() && out != bus.io && done + count <= out.Length && 0 < count <= MAX_DATA_LEN
      requires a % 4 == 0 && done % 4 == 0 && host + done + count <= INCREMENTING
      requires MappedAt(p, a, done) ==> HostOffset(p, a + done) == Ok(host + done)
      modifies bus.slave`endings, bus.io, out
      ensures e.Some? ==> e.value == Unsupported || e.value == BusFailed
      ensures e.None? ==> MappedAt(p, a, done)
      ensures e.None? && Steady(bus.slave.preset, host + done, count)
              && old(Matches(out[..], bus.slave.memory, host, done)) ==>
                Matches(out[..], bus.slave.memory, host, done + count)
      ensures old(bus.slave.Healthy()) ==> bus.slave.Healthy() && (e.None? <==> MappedAt(p, a, done))
    {
      hide HostOffset, At, Steady, Slave.Healthy;
      ghost var before := out[..];
      e := ReadChunk(p, a + done, out, done, count);
      if e.None? {
        AtIs(p, a + done);
        if Steady(bus.slave.preset, host + done, count) && Matches(before, bus.slave.memory, host, done) {
          PartsRead(before, out[..], 0, bus.slave.memory, host, done, count);
        }
      }
    }

    /** One bus read at a translated address. */
    method ReadChunk(p: Processor, a: nat, out: array<byte>, at: nat, count: nat) returns (e: Option<AccessError>)
      requires Valid() && out != bus.io && at + count <= out.Length && 0 < count <= MAX_DATA_LEN && a % 4 == 0
      modifies bus.slave`endings, bus.io, out
      ensures out[..at] == old(out[..at])
      ensures e.None? ==> HostOffset(p, a).Ok?
      ensures e.Some? ==> e.value == Unsupported || e.value == BusFailed
      ensures e.None? && Steady(bus.slave.preset, At(p, a), count) ==>
                out[at..at + count] == bus.slave.memory[At(p, a)..At(p, a) + count]
      ensures old(bus.slave.Healthy()) ==> bus.slave.Healthy() && (e.None? <==> HostOffset(p, a).Ok?)
    {
      hide HostOffset, Steady, At, Slave.Healthy;
      var offset := HostOffset(p, a);
      if offset.Err? {
        OnlyUnsupported(p, a);
        return Some(offset.error);
      }
      AtIs(p, a);
      OffsetAligned(p, a);
      var ok := bus.Read(offset.value, out, at, count);
      e := if ok then None else Some(BusFailed);
    }

    method ReadTail(p: Processor, a: nat, aligned: nat, out: array<byte>) returns (e: Option<AccessError>)
      requires Valid() && out != bus.io && aligned < out.Length < aligned + 4 && a % 4 == 0 && aligned % 4 == 0
      requires MappedAt(p, a, aligned)
      modifies bus.slave`endings, bus.io, out
      ensures out[..aligned] == old(out[..aligned])
      ensures e.Some? ==> e.value == Unsupported || e.value == BusFailed
      ensures e.None? && Steady(bus.slave.preset, At(p, a + aligned), 4) ==>
                out[aligned..] == bus.slave.memory[At(p, a + aligned)..At(p, a + aligned) + (out.Length - aligned)]
      ensures old(bus.slave.Healthy()) ==> bus.slave.Healthy() && e.None?
    {
      hide HostOffset, At, Steady, Slave.Healthy;
      var tail: array<byte> := new byte[4](i => 0);
      e := ReadChunk(p, a + aligned, tail, 0, 4);
      if e.Some? {
        return;
      }
      var count := out.Length - aligned;
      CopyInto(tail[..count], out, aligned);
      assert out[aligned..] == tail[..count];
      ghost var host := At(p, a + aligned);
      assert tail[..] == tail[0..4];
      FrontOf(bus.slave.memory, host, count, 4);
    }
  }

  lemma OnlyUnsupported(p: Processor, a: nat)
    ensures HostOffset(p, a).Err? ==> HostOffset(p, a).error == Unsupported
  {
  }

  lemma AtIs(p: Processor, a: nat)
    requires HostOffset(p, a).Ok?
    ensures At(p, a) == HostOffset(p, a).value
  {
  }

  lemma SpliceEmpty(m: seq<byte>, a: nat)
    requires a <= |m|
    ensures Splice(m, a, []) == m
  {
  }

  lemma TwoParts(m: seq<byte>, a: nat, j: nat, k: nat)
    requires a + j + k <= |m|
    ensures m[a..a + j + k] == m[a..a + j] + m[a + j..a + j + k]
  {
  }

  /** The tail word: the remaining bytes, then zeros. */
  function Tail(data: seq<byte>, aligned: nat): (s: seq<byte>)
    requires aligned < |data| < aligned + 4
    ensures |s| == 4
  {
    data[aligned..] + Zeros(4 - (|data| - aligned))
  }

  lemma PaddedParts(data: seq<byte>, aligned: nat)
    requires aligned == |data| / 4 * 4
    ensures aligned == |data| ==> Padded(data) == data == data[..aligned]
    ensures aligned < |data| ==> Padded(data) == data[..aligned] + Tail(data, aligned) && Align4(|data|) == aligned + 4
  {
  }

  lemma InsideIsAccepted(preset: Preset, p: Processor, a: nat, len: nat)
    ensures a % 4 == 0 && 0 < len && Inside(p, a, Align4(len)) ==>
              && Accepted(p, a, len) && StartsMapped(p, a, len / 4 * 4)
              && At(p, a) + Align4(len) <= INCREMENTING && Steady(preset, At(p, a), Align4(len))
  {
    hide Validate, HostOffset, Steady, At, StartsMapped;
    if a % 4 == 0 && 0 < len && Inside(p, a, Align4(len)) {
      var r :| OneRegion(p, r, a, Align4(len));
      OneRegionIsValid(p, r, a, len);
      InsideStarts(preset, p, a, Align4(len), len / 4 * 4);
      InsideIsFlat(preset, p, a, Align4(len), 0);
    }
  }

  lemma ValidIsAligned(p: Processor, a: nat, len: nat)
    requires Validate(p, a, len).None?
    ensures a % 4 == 0
  {
  }

  lemma OffsetAligned(p: Processor, a: nat)
    requires HostOffset(p, a).Ok? && a % 4 == 0
    ensures HostOffset(p, a).value % 4 == 0
  {
    hide HostOffset, Regions;
    TranslatedIffMapped(p, a);
    var r :| r in Regions(p) && In(r, a);
    BasesAreAligned(p, r);
  }

  lemma BasesAreAligned(p: Processor, r: Region)
    requires r in Regions(p)
    ensures r.base % 4 == 0 && (r.first / MASK * MASK) % 4 == 0
  {
    RegionList(p, r);
  }

  /** One more chunk that begins at a mapped address. */
  lemma StartsGrow(p: Processor, a: nat, done: nat, count: nat)
    requires StartsMapped(p, a, done) && MappedAt(p, a, done) && done % MAX_DATA_LEN == 0 && count <= MAX_DATA_LEN
    ensures StartsMapped(p, a, done + count)
  {
    forall d | 0 <= d < done + count && d % MAX_DATA_LEN == 0 ensures MappedAt(p, a, d) {
      assert d < done || d == done;
    }
  }

  lemma NoStarts(p: Processor, a: nat)
    ensures StartsMapped(p, a, 0)
  {
  }

  lemma StartsBroken(p: Processor, a: nat, done: nat, n: nat)
    requires !MappedAt(p, a, done) && done % MAX_DATA_LEN == 0 && done < n
    ensures !StartsMapped(p, a, n)
  {
  }

  lemma FrontOf(m: seq<byte>, host: nat, count: nat, whole: nat)
    requires host + whole <= |m| && count <= whole
    ensures m[host..host + whole][..count] == m[host..host + count]
  {
  }

  /** What a write leaves behind, a read of the same length gives back, and
      nothing outside the padded range has changed. */
  lemma WrittenIsRead(m: seq<byte>, host: nat, data: seq<byte>)
    requires host + Align4(|data|) <= |m|
    ensures var after := Splice(m, host, Padded(data));
            && after[host..host + |data|] == data
            && after[host + |data|..host + Align4(|data|)] == Zeros(Align4(|data|) - |data|)
            && after[..host] == m[..host] && after[host + Align4(|data|)..] == m[host + Align4(|data|)..]
  {
  }

  /** Chunked access refines flat memory: a write inside one region followed by a
      read gives the data back, under either Nordic preset. */
  method WriteThenRead(rpu: Rpu, p: Processor, a: nat, data: seq<byte>) returns (out: array<byte>)
    requires rpu.Valid() && a % 4 == 0 && 0 < |data| && Inside(p, a, Align4(|data|)) && rpu.bus.slave.Healthy()
    modifies rpu.bus.slave, rpu.bus.io
    ensures out[..] == data
    ensures At(p, a) + Align4(|data|) <= INCREMENTING
    ensures rpu.bus.slave.memory == Splice(old(rpu.bus.slave.memory), At(p, a), Padded(data))
  {
    hide HostOffset, Validate, Splice, Inside, At, Steady, Accepted, StartsMapped, Slave.Healthy;
    var e, sent := rpu.Write(p, a, data);
    assert Padded(data)[..sent] == Padded(data);
    WrittenIsRead(old(rpu.bus.slave.memory), At(p, a), data);
    out := new byte[|data|](i => 0);
    e := rpu.Read(p, a, out);
  }
}
