/** Ownership of TX tokens and RX descriptors between the host and firmware
    (src/data.rs), over a bus that may fail and firmware that may finish at any
    time. */
module DataPath {
  import opened Bytes
  import opened Conversion
  import opened DeviceTypes
  import P = PacketRam
  import opened Wrappers

  /** The host's marks: tokens in flight, descriptors posted, next token. */
  datatype Marks = Marks(inFlight: seq<bool>, posted: seq<bool>, next: nat)

  /** The fixed sizes of one data path. */
  datatype Sizes = Sizes(rxSize: nat, txSize: nat)

  predicate MarksOk(m: Marks) {
    0 < |m.inFlight| <= P.MAX_TX_TOKENS && 0 < |m.posted| <= 65535 && m.next < |m.inFlight|
  }

  /** Where posting a descriptor stops. */
  datatype PostIo = PostUninitialized | PostBadPool | PostWriteFailed | PostEnqueueFailed | PostDone

  /** Where a transmission stops. */
  datatype TransmitIo =
    | PacketWriteFailed
    | TransmitUninitialized
    | CommandWriteFailed
    | CommandEnqueueFailed
    | TriggerFailed
    | TransmitDone

  datatype Changed<T> = Changed(m: Marks, result: Result<T, DataError>)

  /** How a reception ends without a frame. */
  datatype Stop = Reported(error: DataError) | Panicked

  datatype Received = Received(m: Marks, result: Result<ReceivedFrame, Stop>)

  // -------------------------------------------------------------- transitions

  /** `post_rx`: the mark is set before the queue write, whose failure does not
      prove that firmware missed it. */
  function PostRx(m: Marks, descriptor: nat, io: PostIo): Changed<()> {
    if descriptor >= |m.posted| then Changed(m, Err(DataMalformed))
    else if m.posted[descriptor] then Changed(m, Err(ReceiveDescriptorBusy))
    else
      match io
      case PostUninitialized => Changed(m, Err(DataDevice(NotInitialized)))
      case PostBadPool => Changed(m, Err(DataMalformed))
      case PostWriteFailed => Changed(m, Err(DataRpu))
      case PostEnqueueFailed => Changed(m.(posted := m.posted[descriptor := true]), Err(QueueOwnershipUncertain))
      case PostDone => Changed(m.(posted := m.posted[descriptor := true]), Ok(()))
  }

  /** The first free token in cyclic order from `next`, among `n` candidates. */
  function FirstFree(m: Marks, from: nat, n: nat): (token: Option<nat>)
    requires MarksOk(m)
    ensures token.Some? ==> token.value < |m.inFlight|
    decreases n
  {
    if n == 0 then None
    else
      var index := from % |m.inFlight|;
      if m.inFlight[index] then FirstFree(m, from + 1, n - 1) else Some(index)
  }

  /** `reserve_tx`. */
  function Reserve(m: Marks): (Marks, Option<nat>)
    requires MarksOk(m)
  {
    match FirstFree(m, m.next, |m.inFlight|)
    case None => (m, None)
    case Some(i) => (m.(inFlight := m.inFlight[i := true], next := (i + 1) % |m.inFlight|), Some(i))
  }

  function Freed(m: Marks, token: nat): Marks
    requires token < |m.inFlight|
  {
    m.(inFlight := m.inFlight[token := false])
  }

  /** `transmit` of a frame of `len` bytes. */
  function Transmit(sizes: Sizes, m: Marks, len: nat, io: TransmitIo): Changed<nat>
    requires MarksOk(m)
  {
    if len < 14 || len > sizes.txSize || len > 65535 then Changed(m, Err(DataMalformed))
    else
      var (reserved, token) := Reserve(m);
      match token
      case None => Changed(m, Err(NoTransmitToken))
      case Some(t) =>
        ReserveIsFirstFree(m);
        match io
        case PacketWriteFailed => Changed(Freed(reserved, t), Err(DataRpu))
        case TransmitUninitialized => Changed(reserved, Err(DataDevice(NotInitialized)))
        case CommandWriteFailed => Changed(Freed(reserved, t), Err(DataRpu))
        case CommandEnqueueFailed => Changed(reserved, Err(QueueOwnershipUncertain))
        case TriggerFailed => Changed(reserved, Err(QueueOwnershipUncertain))
        case TransmitDone => Changed(reserved, Ok(t))
  }

  /** `complete_tx`. */
  function CompleteTx(m: Marks, token: nat): Changed<()> {
    if token >= |m.inFlight| || !m.inFlight[token] then Changed(m, Err(DataMalformed))
    else Changed(Freed(m, token), Ok(()))
  }

  /** `reset_after_rpu_reset`. */
  function Reset(m: Marks): Marks {
    Marks(seq(|m.inFlight|, i => false), seq(|m.posted|, i => false), 0)
  }

  /** One received packet: its descriptor (none if the event is unreadable), its
      claimed length and form, and what a read of its slot leaves in the buffer
      and whether it succeeds. */
  datatype Packet = Packet(
    descriptor: Option<nat>, len: nat, form: PayloadType, macLen: nat, contents: seq<byte>, intact: bool)

  predicate PacketOk(p: Packet) {
    |p.contents| == p.len
  }

  function FrameOf(frame: seq<byte>): ReceivedFrame
    requires |frame| >= 14
  {
    ReceivedFrame(|frame|, FromBe16(frame[12], frame[13]))
  }

  /** `receive_packet`: the descriptor is taken back, then reposted whatever
      becomes of the packet; a failed repost is the reported error. Only a panic
      of the conversion ends the call before the repost. */
  function Receive(sizes: Sizes, m: Marks, p: Packet, capacity: nat, io: PostIo): Received
    requires PacketOk(p)
  {
    if !Taken(m, p) then Received(m, Err(Reported(DataMalformed)))
    else ReadTaken(sizes, m.(posted := m.posted[p.descriptor.value := false]), p, p.descriptor.value, capacity, io)
  }

  function ReadTaken(sizes: Sizes, m: Marks, p: Packet, descriptor: nat, capacity: nat, io: PostIo): Received
    requires PacketOk(p)
  {
    if Panics(sizes, p, capacity) then Received(m, Err(Panicked))
    else Reposted(m, descriptor, io, Reading(sizes, p, capacity))
  }

  /** `post_rx` before a result is returned. */
  function Reposted(m: Marks, descriptor: nat, io: PostIo, result: Result<ReceivedFrame, Stop>): Received {
    var reposted := PostRx(m, descriptor, io);
    Received(reposted.m, if reposted.result.Err? then Err(Reported(reposted.result.error)) else result)
  }

  /** Is the packet read and then converted without its frame control? */
  predicate Panics(sizes: Sizes, p: Packet, capacity: nat)
    requires PacketOk(p)
  {
    p.len <= sizes.rxSize && p.len <= capacity && p.intact && Convert(p.contents, p.form, p.macLen) == Err(IndexPanic)
  }

  /** The result of a packet whose descriptor was reposted. */
  function Reading(sizes: Sizes, p: Packet, capacity: nat): Result<ReceivedFrame, Stop>
    requires PacketOk(p)
  {
    if p.len > sizes.rxSize then Err(Reported(DataMalformed))
    else if p.len > capacity then Err(Reported(OutputTooSmall))
    else if !p.intact then Err(Reported(DataRpu))
    else
      match Convert(p.contents, p.form, p.macLen)
      case Err(_) => Err(Reported(DataMalformed))
      case Ok(frame) =>
        ConvertedLength(p.contents, p.form, p.macLen);
        Ok(FrameOf(frame))
  }

  predicate Taken(m: Marks, p: Packet) {
    p.descriptor.Some? && p.descriptor.value < |m.posted| && m.posted[p.descriptor.value]
  }

  /** What `receive_packet` leaves in the caller's buffer, whatever it returns. */
  function Filled(sizes: Sizes, m: Marks, p: Packet, output: seq<byte>): (filled: seq<byte>)
    requires PacketOk(p)
    ensures |filled| == |output|
  {
    if Taken(m, p) then ReadInto(sizes, p, output) else output
  }

  function ReadInto(sizes: Sizes, p: Packet, output: seq<byte>): (filled: seq<byte>)
    requires PacketOk(p)
    ensures |filled| == |output|
  {
    if p.len > sizes.rxSize || p.len > |output| then output
    else
      var read := p.contents + output[p.len..];
      if p.intact then Converted(p, read) else read
  }

  /** The packet at the front of a buffer, converted there. */
  function Converted(p: Packet, read: seq<byte>): (filled: seq<byte>)
    requires PacketOk(p) && p.len <= |read|
    ensures |filled| == |read|
  {
    match Convert(p.contents, p.form, p.macLen)
    case Err(_) => read
    case Ok(frame) =>
      ConvertedLength(p.contents, p.form, p.macLen);
      frame + read[|frame|..]
  }

  lemma ConvertedLength(frame: seq<byte>, form: PayloadType, macLen: nat)
    requires Convert(frame, form, macLen).Ok?
    ensures 14 <= |Convert(frame, form, macLen).value| <= |frame|
  {
  }

  // ------------------------------------------------------------------- tokens

  /** Every one of `n` tokens from `from` on, cyclically, is in flight. */
  ghost predicate AllBusy(m: Marks, from: nat, n: nat)
    requires MarksOk(m)
  {
    forall k | from <= k < from + n :: m.inFlight[k % |m.inFlight|]
  }

  lemma {:induction false} FirstFreeIsFirst(m: Marks, from: nat, n: nat)
    requires MarksOk(m)
    ensures match FirstFree(m, from, n)
            case None => AllBusy(m, from, n)
            case Some(i) => i < |m.inFlight| && !m.inFlight[i]
                            && exists k :: from <= k < from + n && i == k % |m.inFlight| && AllBusy(m, from, k - from)
    decreases n
  {
    if n > 0 {
      var index := from % |m.inFlight|;
      if m.inFlight[index] {
        FirstFreeIsFirst(m, from + 1, n - 1);
        if FirstFree(m, from + 1, n - 1).Some? {
          var i := FirstFree(m, from + 1, n - 1).value;
          var k :| from + 1 <= k < from + n && i == k % |m.inFlight| && AllBusy(m, from + 1, k - from - 1);
          assert AllBusy(m, from, k - from);
        }
      } else {
        assert AllBusy(m, from, from - from);
      }
    }
  }

  lemma CyclicCovers(n: nat, from: nat, i: nat) returns (k: nat)
    requires i < n && from < n
    ensures from <= k < from + n && k % n == i
  {
    k := if i >= from then i else i + n;
  }

  /** `reserve_tx` takes the first free token in cyclic order from `next`, and
      fails exactly when every token is in flight. */
  lemma ReserveIsFirstFree(m: Marks)
    requires MarksOk(m)
    ensures var (after, token) := Reserve(m);
            && MarksOk(after)
            && (token.None? <==> forall i | 0 <= i < |m.inFlight| :: m.inFlight[i])
            && (token.Some? ==>
                  && token.value < |m.inFlight| && !m.inFlight[token.value]
                  && (exists k :: m.next <= k < m.next + |m.inFlight| && token.value == k % |m.inFlight|
                                  && AllBusy(m, m.next, k - m.next)))
  {
    FirstFreeIsFirst(m, m.next, |m.inFlight|);
    if FirstFree(m, m.next, |m.inFlight|).None? {
      forall i | 0 <= i < |m.inFlight| ensures m.inFlight[i] {
        var k := CyclicCovers(|m.inFlight|, m.next, i);
      }
    }
  }

  predicate ValidFrame(sizes: Sizes, len: nat) {
    14 <= len <= sizes.txSize && len <= 65535
  }

  /** On an initialized device `transmit` reports that no token is left for a
      valid frame exactly when every token is in flight. */
  lemma NoTokenExactlyWhenAllBusy(sizes: Sizes, m: Marks, len: nat, io: TransmitIo)
    requires MarksOk(m) && ValidFrame(sizes, len)
    ensures Transmit(sizes, m, len, io).result == Err(NoTransmitToken) <==>
            forall i | 0 <= i < |m.inFlight| :: m.inFlight[i]
  {
    ReserveIsFirstFree(m);
  }

  /** On a device that is not initialized a valid frame costs a free token until
      the next reset, although firmware never hears of it. */
  lemma UninitializedTransmitLosesAToken(sizes: Sizes, m: Marks, len: nat)
    requires MarksOk(m) && ValidFrame(sizes, len) && exists i :: 0 <= i < |m.inFlight| && !m.inFlight[i]
    ensures var r := Transmit(sizes, m, len, TransmitUninitialized);
            && r.result == Err(DataDevice(NotInitialized))
            && exists t :: 0 <= t < |m.inFlight| && !m.inFlight[t] && r.m.inFlight == m.inFlight[t := true]
  {
    ReserveIsFirstFree(m);
    var t := Reserve(m).1.value;
    assert Transmit(sizes, m, len, TransmitUninitialized).m.inFlight == m.inFlight[t := true];
  }

  // ---------------------------------------------------------------- ownership

  /** The host's marks and what firmware may own. */
  datatype World = World(m: Marks, tokens: set<nat>, descriptors: set<nat>)

  /** A token or descriptor that the host treats as free is never one that
      firmware may own. */
  ghost predicate Owned(w: World) {
    && MarksOk(w.m)
    && (forall t | t in w.tokens :: t < |w.m.inFlight| && w.m.inFlight[t])
    && (forall d | d in w.descriptors :: d < |w.m.posted| && w.m.posted[d])
  }

  datatype DataCall =
    | CallPost(descriptor: nat, io: PostIo)
    | CallTransmit(len: nat, sent: TransmitIo)
    | CallComplete(token: nat)
    | CallReceive(packet: Packet, capacity: nat, repost: PostIo)
    | CallReset

  /** Firmware reports only what it releases: a completed token it owns, or a
      packet in a descriptor it owns. Reports about free tokens or descriptors
      are harmless and may be arbitrary. */
  predicate Genuine(w: World, c: DataCall) {
    match c
    case CallComplete(t) => t < |w.m.inFlight| && w.m.inFlight[t] ==> t in w.tokens
    case CallReceive(p, _, _) =>
      PacketOk(p)
      && (p.descriptor.Some? && p.descriptor.value < |w.m.posted| && w.m.posted[p.descriptor.value]
          ==> p.descriptor.value in w.descriptors)
    case _ => true
  }

  /** May the queue write have reached firmware? */
  predicate PostReaches(io: PostIo) {
    io == PostEnqueueFailed || io == PostDone
  }

  predicate TransmitReaches(io: TransmitIo) {
    io == CommandEnqueueFailed || io == TriggerFailed || io == TransmitDone
  }

  function NextWorld(sizes: Sizes, w: World, c: DataCall): World
    requires MarksOk(w.m) && Genuine(w, c)
  {
    match c
    case CallPost(d, io) =>
      World(PostRx(w.m, d, io).m, w.tokens,
            if d < |w.m.posted| && !w.m.posted[d] && PostReaches(io) then w.descriptors + {d} else w.descriptors)
    case CallTransmit(len, io) =>
      var token := Reserve(w.m).1;
      World(Transmit(sizes, w.m, len, io).m,
            if ValidFrame(sizes, len) && token.Some? && TransmitReaches(io) then w.tokens + {token.value} else w.tokens,
            w.descriptors)
    case CallComplete(t) => World(CompleteTx(w.m, t).m, w.tokens - {t}, w.descriptors)
    case CallReceive(p, capacity, io) =>
      World(Receive(sizes, w.m, p, capacity, io).m, w.tokens,
            if p.descriptor.None? then w.descriptors
            else if Panics(sizes, p, capacity) || !PostReaches(io) then w.descriptors - {p.descriptor.value}
            else w.descriptors)
    case CallReset => World(Reset(w.m), {}, {})
  }

  lemma NextIsOwned(sizes: Sizes, w: World, c: DataCall)
    requires Owned(w) && Genuine(w, c)
    ensures Owned(NextWorld(sizes, w, c))
  {
    hide FirstFree, Reading, AllBusy;
    ReserveIsFirstFree(w.m);
  }

  ghost predicate WorldRun(sizes: Sizes, ws: seq<World>, calls: seq<DataCall>) {
    && |ws| == |calls| + 1 && MarksOk(ws[0].m) && ws[0] == World(Reset(ws[0].m), {}, {})
    && forall i | 0 <= i < |calls| ::
         MarksOk(ws[i].m) && Genuine(ws[i], calls[i]) && ws[i + 1] == NextWorld(sizes, ws[i], calls[i])
  }

  /** Over every run of posts, transmissions, completions, receptions and
      resets, with a bus failure at any step: what the host treats as free
      firmware does not own. */
  lemma {:induction false} FreeIsNeverOwned(sizes: Sizes, ws: seq<World>, calls: seq<DataCall>, k: nat)
    requires WorldRun(sizes, ws, calls) && k < |ws|
    ensures Owned(ws[k])
    ensures forall t | 0 <= t < |ws[k].m.inFlight| && !ws[k].m.inFlight[t] :: t !in ws[k].tokens
    ensures forall d | 0 <= d < |ws[k].m.posted| && !ws[k].m.posted[d] :: d !in ws[k].descriptors
    decreases k
  {
    if k > 0 {
      hide NextWorld, Genuine;
      FreeIsNeverOwned(sizes, ws, calls, k - 1);
      NextIsOwned(sizes, ws[k - 1], calls[k - 1]);
    }
  }

  /** Nothing is lost: what the host treats as taken, firmware may own. */
  ghost predicate TokensExact(w: World) {
    forall t: nat :: t in w.tokens <==> t < |w.m.inFlight| && w.m.inFlight[t]
  }

  ghost predicate DescriptorsExact(w: World) {
    forall d: nat :: d in w.descriptors <==> d < |w.m.posted| && w.m.posted[d]
  }

  /** A valid frame with a free token, on a device that is not initialized. */
  predicate LosesAToken(sizes: Sizes, w: World, c: DataCall) {
    && c.CallTransmit? && c.sent == TransmitUninitialized && ValidFrame(sizes, c.len)
    && exists t | 0 <= t < |w.m.inFlight| :: !w.m.inFlight[t]
  }

  /** No call ever loses a descriptor, and a call loses a token exactly when it
      transmits a valid frame on a device that is not initialized. */
  lemma ExactlyOwned(sizes: Sizes, w: World, c: DataCall)
    requires Owned(w) && Genuine(w, c) && DescriptorsExact(w)
    ensures DescriptorsExact(NextWorld(sizes, w, c))
    ensures TokensExact(w) ==> (TokensExact(NextWorld(sizes, w, c)) <==> !LosesAToken(sizes, w, c))
  {
    hide FirstFree, Reading, AllBusy;
    ReserveIsFirstFree(w.m);
    if TokensExact(w) && LosesAToken(sizes, w, c) {
      var t := Reserve(w.m).1.value;
      assert NextWorld(sizes, w, c).m.inFlight[t] && t !in NextWorld(sizes, w, c).tokens;
    }
  }

  /** A lost token is not recovered by anything but a reset. */
  lemma LostStaysLost(sizes: Sizes, w: World, c: DataCall)
    requires Owned(w) && Genuine(w, c) && !TokensExact(w) && !c.CallReset?
    ensures !TokensExact(NextWorld(sizes, w, c))
  {
    hide FirstFree, Reading, AllBusy;
    ReserveIsFirstFree(w.m);
    var t: nat :| !(t in w.tokens <==> t < |w.m.inFlight| && w.m.inFlight[t]);
    assert t < |w.m.inFlight| && w.m.inFlight[t] && t !in w.tokens;
    assert NextWorld(sizes, w, c).m.inFlight[t] && t !in NextWorld(sizes, w, c).tokens;
  }

  /** How many calls there have been when the last reset before call `k` was done. */
  function LastReset(calls: seq<DataCall>, k: nat): (r: nat)
    requires k <= |calls|
    ensures r <= k
  {
    if k == 0 then 0 else if calls[k - 1].CallReset? then k else LastReset(calls, k - 1)
  }

  ghost predicate NoLoss(sizes: Sizes, ws: seq<World>, calls: seq<DataCall>, from: nat, k: nat)
    requires k <= |calls| && |ws| == |calls| + 1
  {
    forall i | from <= i < k :: !LosesAToken(sizes, ws[i], calls[i])
  }

  lemma NoLossBefore(sizes: Sizes, ws: seq<World>, calls: seq<DataCall>, from: nat, k: nat)
    requires from < k <= |calls| && |ws| == |calls| + 1
    ensures NoLoss(sizes, ws, calls, from, k) <==>
            NoLoss(sizes, ws, calls, from, k - 1) && !LosesAToken(sizes, ws[k - 1], calls[k - 1])
  {
    hide LosesAToken;
  }

  /** Over every run: no descriptor is ever lost, and every token that the host
      treats as in flight is one firmware may own if and only if no valid frame
      was transmitted on an uninitialized device, with a token free, since the
      last reset. */
  lemma {:induction false} OnlyThatLosesAToken(sizes: Sizes, ws: seq<World>, calls: seq<DataCall>, k: nat)
    requires WorldRun(sizes, ws, calls) && k < |ws|
    ensures Owned(ws[k]) && DescriptorsExact(ws[k])
    ensures TokensExact(ws[k]) <==> NoLoss(sizes, ws, calls, LastReset(calls, k), k)
    decreases k
  {
    FreeIsNeverOwned(sizes, ws, calls, k);
    hide NextWorld, Genuine, TokensExact, DescriptorsExact, LosesAToken, Owned, NoLoss;
    if k == 0 {
      StartIsExact(sizes, ws, calls);
    } else {
      OnlyThatLosesAToken(sizes, ws, calls, k - 1);
      FreeIsNeverOwned(sizes, ws, calls, k - 1);
      var w, c := ws[k - 1], calls[k - 1];
      ExactlyOwned(sizes, w, c);
      if c.CallReset? {
        ResetIsExact(sizes, w);
        NothingLost(sizes, ws, calls, k);
      } else {
        NoLossBefore(sizes, ws, calls, LastReset(calls, k), k);
        if !TokensExact(w) {
          LostStaysLost(sizes, w, c);
        }
      }
    }
  }

  lemma NothingLost(sizes: Sizes, ws: seq<World>, calls: seq<DataCall>, k: nat)
    requires k <= |calls| && |ws| == |calls| + 1
    ensures NoLoss(sizes, ws, calls, k, k)
  {
  }

  lemma StartIsExact(sizes: Sizes, ws: seq<World>, calls: seq<DataCall>)
    requires WorldRun(sizes, ws, calls)
    ensures DescriptorsExact(ws[0]) && TokensExact(ws[0]) && NoLoss(sizes, ws, calls, 0, 0)
  {
  }

  lemma ResetIsExact(sizes: Sizes, w: World)
    requires MarksOk(w.m)
    ensures TokensExact(NextWorld(sizes, w, CallReset))
  {
  }

  // --------------------------------------------------------------- the object

  class DataPath {
    const sizes: Sizes
    const inFlight: array<bool>
    const posted: array<bool>
    var next: nat

    function Value(): Marks
      reads this, inFlight, posted
    {
      Marks(inFlight[..], posted[..], next)
    }

    predicate Valid()
      reads this, inFlight, posted
    {
      inFlight != posted && MarksOk(Value())
    }

    constructor (rx: nat, tx: nat, sizes: Sizes)
      requires P.New(P.Geometry(rx, tx, sizes.rxSize, sizes.txSize)).Ok?
      ensures Valid() && this.sizes == sizes && fresh(inFlight) && fresh(posted)
      ensures inFlight.Length == tx && posted.Length == rx && Value() == Reset(Value())
    {
      this.sizes := sizes;
      inFlight := new bool[tx](i => false);
      posted := new bool[rx](i => false);
      next := 0;
    }

    method ResetAfterRpuReset()
      requires Valid()
      modifies this, inFlight, posted
      ensures Valid() && Value() == Reset(old(Value()))
    {
      forall i | 0 <= i < inFlight.Length {
        inFlight[i] := false;
      }
      forall i | 0 <= i < posted.Length {
        posted[i] := false;
      }
      next := 0;
    }

    method PostDescriptor(descriptor: nat, io: PostIo) returns (r: Result<(), DataError>)
      requires Valid()
      modifies posted
      ensures Valid() && Changed(Value(), r) == PostRx(old(Value()), descriptor, io)
    {
      if descriptor >= posted.Length {
        return Err(DataMalformed);
      }
      if posted[descriptor] {
        return Err(ReceiveDescriptorBusy);
      }
      match io {
        case PostUninitialized => return Err(DataDevice(NotInitialized));
        case PostBadPool => return Err(DataMalformed);
        case PostWriteFailed => return Err(DataRpu);
        case _ =>
      }
      posted[descriptor] := true;
      r := if io == PostDone then Ok(()) else Err(QueueOwnershipUncertain);
    }

    /** `post_all_rx`, up to the first failure. */
    method PostAllRx(ios: seq<PostIo>) returns (r: Result<(), DataError>)
      requires Valid() && |ios| == posted.Length
      modifies posted
      ensures Valid() && inFlight[..] == old(inFlight[..])
      ensures r.Ok? <==> forall d | 0 <= d < |ios| && !old(posted[..])[d] :: ios[d] == PostDone
      ensures r.Ok? ==> forall d | 0 <= d < posted.Length :: posted[d]
      ensures forall d | 0 <= d < posted.Length && old(posted[..])[d] :: posted[d]
    {
      r := Ok(());
      for d := 0 to posted.Length
        invariant Valid() && inFlight[..] == old(inFlight[..]) && r.Ok?
        invariant forall k | 0 <= k < d :: posted[k]
        invariant forall k | 0 <= k < d && !old(posted[..])[k] :: ios[k] == PostDone
        invariant forall k | d <= k < posted.Length :: posted[k] == old(posted[..])[k]
      {
        if !posted[d] {
          ghost var before := posted[..];
          r := PostDescriptor(d, ios[d]);
          assert forall k | 0 <= k < posted.Length && k != d :: posted[..][k] == before[k];
          if r.Err? {
            return;
          }
        }
      }
    }

    /** `reserve_tx`. */
    method ReserveTx() returns (token: Option<nat>)
      requires Valid()
      modifies this`next, inFlight
      ensures Valid() && (Value(), token) == Reserve(old(Value()))
    {
      ghost var m := Value();
      for offset := 0 to inFlight.Length
        invariant Value() == m
        invariant FirstFree(m, m.next, |m.inFlight|) == FirstFree(m, m.next + offset, |m.inFlight| - offset)
      {
        var index := (next + offset) % inFlight.Length;
        if !inFlight[index] {
          inFlight[index] := true;
          next := (index + 1) % inFlight.Length;
          return Some(index);
        }
      }
      token := None;
    }

    method TransmitFrame(len: nat, io: TransmitIo) returns (r: Result<nat, DataError>)
      requires Valid()
      modifies this`next, inFlight
      ensures Valid() && Changed(Value(), r) == Transmit(sizes, old(Value()), len, io)
    {
      hide FirstFree, AllBusy;
      if len < 14 {
        return Err(DataMalformed);
      }
      if len > sizes.txSize || len > 65535 {
        return Err(DataMalformed);
      }
      ReserveIsFirstFree(Value());
      var token := ReserveTx();
      if token.None? {
        return Err(NoTransmitToken);
      }
      match io {
        case PacketWriteFailed =>
          inFlight[token.value] := false;
          r := Err(DataRpu);
        case TransmitUninitialized => r := Err(DataDevice(NotInitialized));
        case CommandWriteFailed =>
          inFlight[token.value] := false;
          r := Err(DataRpu);
        case CommandEnqueueFailed => r := Err(QueueOwnershipUncertain);
        case TriggerFailed => r := Err(QueueOwnershipUncertain);
        case TransmitDone => r := Ok(token.value);
      }
    }

    method Complete(token: nat) returns (r: Result<(), DataError>)
      requires Valid()
      modifies inFlight
      ensures Valid() && Changed(Value(), r) == CompleteTx(old(Value()), token)
    {
      if token >= inFlight.Length || !inFlight[token] {
        return Err(DataMalformed);
      }
      inFlight[token] := false;
      r := Ok(());
    }

    /** `receive_packet`: the packet is read into the front of `output`, converted
        there, and its descriptor reposted. */
    method ReceivePacket(p: Packet, output: array<byte>, io: PostIo) returns (r: Result<ReceivedFrame, Stop>)
      requires Valid() && PacketOk(p)
      modifies posted, output
      ensures Valid() && Received(Value(), r) == Receive(sizes, old(Value()), p, output.Length, io)
      ensures output[..] == Filled(sizes, old(Value()), p, old(output[..]))
      ensures r.Ok? ==> p.len <= output.Length && Convert(p.contents, p.form, p.macLen) == Ok(output[..r.value.len])
    {
      hide Convert, ReadTaken, ReadInto;
      if p.descriptor.None? || p.descriptor.value >= posted.Length || !posted[p.descriptor.value] {
        return Err(Reported(DataMalformed));
      }
      posted[p.descriptor.value] := false;
      r := ReceiveTaken(p, output, p.descriptor.value, io);
    }

    method ReceiveTaken(p: Packet, output: array<byte>, d: nat, io: PostIo) returns (r: Result<ReceivedFrame, Stop>)
      requires Valid() && PacketOk(p)
      modifies posted, output
      ensures Valid() && Received(Value(), r) == ReadTaken(sizes, old(Value()), p, d, output.Length, io)
      ensures output[..] == ReadInto(sizes, p, old(output[..]))
      ensures r.Ok? ==> p.len <= output.Length && Convert(p.contents, p.form, p.macLen) == Ok(output[..r.value.len])
    {
      hide Convert, Reposted, ReadInto, Reading, Panics, MarksOk;
      r := ReadAndConvert(sizes, p, output);
      if r != Err(Panicked) {
        r := Repost(d, io, r);
      }
    }

    /** A packet too long for its slot or for `output` is not read. */
    static method ReadAndConvert(sizes: Sizes, p: Packet, output: array<byte>) returns (r: Result<ReceivedFrame, Stop>)
      requires PacketOk(p)
      modifies output
      ensures r == if Panics(sizes, p, output.Length) then Err(Panicked) else Reading(sizes, p, output.Length)
      ensures output[..] == ReadInto(sizes, p, old(output[..]))
      ensures r.Ok? ==> p.len <= output.Length && Convert(p.contents, p.form, p.macLen) == Ok(output[..r.value.len])
      ensures !Panics(sizes, p, output.Length) ==> r != Err(Panicked)
    {
      hide Convert, Converted;
      if p.len > sizes.rxSize {
        return Err(Reported(DataMalformed));
      }
      if p.len > output.Length {
        return Err(Reported(OutputTooSmall));
      }
      CopyInto(p.contents, output, 0);
      if !p.intact {
        return Err(Reported(DataRpu));
      }
      var converted := ConvertFront(p, output);
      match converted {
        case Ok(len) => r := Ok(ReceivedFrame(len, FromBe16(output[12], output[13])));
        case Err(e) => r := Err(if e == IndexPanic then Panicked else Reported(DataMalformed));
      }
    }

    method Repost(descriptor: nat, io: PostIo, result: Result<ReceivedFrame, Stop>)
      returns (r: Result<ReceivedFrame, Stop>)
      requires Valid()
      modifies posted
      ensures Valid() && Received(Value(), r) == Reposted(old(Value()), descriptor, io, result)
      ensures r.Ok? ==> r == result
    {
      hide PostRx;
      var again := PostDescriptor(descriptor, io);
      r := if again.Err? then Err(Reported(again.error)) else result;
    }

    /** The conversion of the packet at the front of the buffer. */
    static method ConvertFront(p: Packet, output: array<byte>) returns (r: Result<nat, ConvertError>)
      requires PacketOk(p) && p.len <= output.Length && output[..p.len] == p.contents
      modifies output
      ensures output[..] == Converted(p, old(output[..]))
      ensures r.Err? ==> Convert(p.contents, p.form, p.macLen) == Err(r.error)
      ensures r.Ok? ==> 14 <= r.value <= p.len && Convert(p.contents, p.form, p.macLen) == Ok(output[..r.value])
    {
      hide Convert;
      r := ConvertToEthernet(output, p.len, p.form, p.macLen);
      if r.Ok? {
        ConvertedLength(p.contents, p.form, p.macLen);
        assert output[..] == output[..r.value] + output[r.value..];
      }
    }
  }
}
