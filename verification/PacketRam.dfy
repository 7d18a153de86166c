/** The static packet-RAM layout (src/data.rs). */
module PacketRam {
  import opened Wrappers

  const PACKET_BASE := 0xb000_5000
  const PACKET_END := 0xb003_0fff
  const PACKET_RAM_SIZE := 180_224
  const RX_HEADROOM := 4
  const TX_HEADROOM := 52
  const TX_COMMAND_BASE := 0xb000_00b8
  const TX_COMMAND_SLOT := 148
  const TX_COMMAND_LEN := 59
  const MAX_TX_TOKENS := (PACKET_BASE - TX_COMMAND_BASE) / TX_COMMAND_SLOT
  const WORD := 0x1_0000_0000

  datatype LayoutError = InvalidCapacity | PacketRamExhausted

  /** Descriptor counts and buffer sizes given to `DataPath::new`. */
  datatype Geometry = Geometry(rx: nat, tx: nat, rxSize: nat, txSize: nat)

  datatype Layout = Layout(g: Geometry, rxStride: nat, txStride: nat, rxBase: nat)

  function Align4(n: nat): nat {
    (n + 3) / 4 * 4
  }

  /** Bytes taken by `n` slots. */
  function Span(n: nat, stride: nat): nat {
    n * stride
  }

  /** `DataPath::new`. */
  function New(g: Geometry): Result<Layout, LayoutError> {
    if g.rx == 0 || g.tx == 0 || g.rx > 65535 || g.tx > MAX_TX_TOKENS then Err(InvalidCapacity)
    else if g.rxSize == 0 || g.txSize < 14 || g.rxSize > 65535 || g.txSize > 65535 then Err(InvalidCapacity)
    else
      var rxStride, txStride := Align4(g.rxSize + RX_HEADROOM), Align4(g.txSize + TX_HEADROOM);
      if Span(g.rx, rxStride) + Span(g.tx, txStride) > PACKET_RAM_SIZE then Err(PacketRamExhausted)
      else Ok(Layout(g, rxStride, txStride, PACKET_END + 1 - Span(g.rx, rxStride)))
  }

  function RxSlot(l: Layout, descriptor: nat): int {
    l.rxBase + Span(descriptor, l.rxStride)
  }

  function TxSlot(l: Layout, token: nat): int {
    PACKET_BASE + Span(token, l.txStride)
  }

  function CommandSlot(token: nat): int {
    TX_COMMAND_BASE + TX_COMMAND_SLOT * token
  }

  // ------------------------------------------------------------------ regions

  /** Addresses from `lo` up to, not including, `hi`. */
  datatype Region = Region(lo: int, hi: int)

  predicate Within(inner: Region, outer: Region) {
    outer.lo <= inner.lo <= inner.hi <= outer.hi
  }

  predicate Apart(r: Region, s: Region) {
    r.hi <= s.lo || s.hi <= r.lo
  }

  const PACKET_RAM := Region(PACKET_BASE, PACKET_END + 1)

  function RxRegion(l: Layout, i: nat): Region {
    Region(RxSlot(l, i), RxSlot(l, i) + l.rxStride)
  }

  function TxRegion(l: Layout, j: nat): Region {
    Region(TxSlot(l, j), TxSlot(l, j) + l.txStride)
  }

  function CommandRegion(j: nat): Region {
    Region(CommandSlot(j), CommandSlot(j) + TX_COMMAND_SLOT)
  }

  lemma Scaled(i: nat, n: nat, stride: nat)
    requires i < n
    ensures Span(i, stride) + stride <= Span(n, stride)
  {
    assert (i + 1) * stride <= n * stride;
  }

  /** Every slot is word aligned, inside packet RAM, and without overflow. */
  lemma SlotsAreInside(g: Geometry, i: nat, j: nat)
    requires New(g).Ok? && i < g.rx && j < g.tx
    ensures var l := New(g).value;
            && RxSlot(l, i) % 4 == 0 && Within(RxRegion(l, i), PACKET_RAM)
            && TxSlot(l, j) % 4 == 0 && Within(TxRegion(l, j), PACKET_RAM)
            && CommandSlot(j) % 4 == 0 && CommandRegion(j).hi <= PACKET_BASE
            && PACKET_END < WORD
  {
    hide Span;
    var l := New(g).value;
    Scaled(i, g.rx, l.rxStride);
    Scaled(j, g.tx, l.txStride);
    Multiple4(i, l.rxStride);
    Multiple4(j, l.txStride);
    Multiple4(g.rx, l.rxStride);
  }

  lemma Multiple4(i: nat, stride: nat)
    requires stride % 4 == 0
    ensures Span(i, stride) % 4 == 0
  {
    var q := stride / 4;
    assert i * stride == 4 * (i * q);
  }

  /** No two slots of any kind overlap. */
  lemma SlotsAreApart(g: Geometry, i: nat, k: nat, j: nat, m: nat)
    requires New(g).Ok? && i < g.rx && k < g.rx && j < g.tx && m < g.tx
    ensures var l := New(g).value;
            && (i != k ==> Apart(RxRegion(l, i), RxRegion(l, k)))
            && (j != m ==> Apart(TxRegion(l, j), TxRegion(l, m)))
            && Apart(RxRegion(l, i), TxRegion(l, j))
            && (j != m ==> Apart(CommandRegion(j), CommandRegion(m)))
            && Apart(CommandRegion(j), TxRegion(l, m)) && Apart(CommandRegion(j), RxRegion(l, i))
  {
    hide Span;
    var l := New(g).value;
    SlotsAreInside(g, i, j);
    SlotsAreInside(g, k, m);
    if i < k { Scaled(i, k, l.rxStride); }
    if k < i { Scaled(k, i, l.rxStride); }
    if j < m { Scaled(j, m, l.txStride); }
    if m < j { Scaled(m, j, l.txStride); }
    Scaled(j, g.tx, l.txStride);
  }

  /** Word-padded transfers stay in their own slot: a frame write, a packet
      read behind the headroom, and a command write. */
  lemma TransfersStayInside(g: Geometry, i: nat, j: nat, len: nat)
    requires New(g).Ok? && i < g.rx && j < g.tx
    ensures var l := New(g).value;
            && (len <= g.txSize ==> Within(Region(TxSlot(l, j), TxSlot(l, j) + Align4(len)), TxRegion(l, j)))
            && (len <= g.rxSize ==>
                  Within(Region(RxSlot(l, i) + RX_HEADROOM, RxSlot(l, i) + RX_HEADROOM + Align4(len)), RxRegion(l, i)))
            && Within(Region(CommandSlot(j), CommandSlot(j) + Align4(TX_COMMAND_LEN)), CommandRegion(j))
  {
    hide New;
    assert var l := New(g).value;
           l.rxStride == Align4(g.rxSize + RX_HEADROOM) && l.txStride == Align4(g.txSize + TX_HEADROOM) by {
      Strides(g);
    }
  }

  lemma Strides(g: Geometry)
    requires New(g).Ok?
    ensures var l := New(g).value;
            l.rxStride == Align4(g.rxSize + RX_HEADROOM) && l.txStride == Align4(g.txSize + TX_HEADROOM)
  {
  }
}
