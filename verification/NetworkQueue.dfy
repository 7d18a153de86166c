/**
  The two-slot network queue shared by `embassy-net` tokens, hardware runners
  and link controllers (src/embassy.rs), as an interleaved transition system.

  An agent is one call in progress or one live token or lease. Every atomic
  load, store, swap and compare-exchange of the source is one step of one agent;
  between two steps any other agent may run. There may be any number of agents
  of every kind, link controllers included.
*/
module NetworkQueue {
  import opened Bytes
  import opened Wrappers

  datatype SlotState = Free | Ready | Client | Producer

  datatype Link = Link(up: bool, epoch: nat)

  datatype Frame = Frame(epoch: nat, bytes: seq<byte>)

  /** One slot: its atomic state, length and epoch words and its buffer, then two
      history variables: the agent that holds it, and the log index of the frame
      stored in it. No step looks at a history variable to decide what to do. */
  datatype Slot = Slot(state: SlotState, len: nat, epoch: nat, buf: seq<byte>,
                       owner: Option<nat>, frame: Option<nat>)

  /** Bytes handed to a caller. `since`, `seen` and `until` index the link
      history: call start, the instant the link was seen up, hand-over. */
  datatype Handout = Handout(epoch: nat, bytes: seq<byte>, frame: nat,
                             since: nat, seen: nat, until: nat)

  datatype Outcome = Submitted | WouldBlock | Dropped

  /** A lease reported `Submitted` or `Dropped`: the frame and the lease's epoch,
      then the instants at which the lease claimed the frame, was last seen
      current by `take_tx`, and was reported. */
  datatype Final = Final(frame: nat, outcome: Outcome, epoch: nat, claimed: nat, leased: nat, reported: nat)

  /** Shared memory, then the logs: frames stored READY in each slot, bytes given
      to RX callbacks, bytes read through leases, frames finally reported, and
      the link after every step. The logs are history variables too. */
  datatype Mem = Mem(size: nat, link: Link, rx: Slot, tx: Slot,
                     accepted: seq<Frame>, published: seq<Frame>,
                     deliveries: seq<Handout>, readings: seq<Handout>,
                     finals: seq<Final>, history: seq<Link>)

  /** What called `active_epoch`. */
  datatype Op = TryReceive | TryTransmit | PushRx | TakeTx

  /** What follows one `epoch_is_active` call. */
  datatype Then =
    | ClaimRx | ConfirmRx | RestoreRx | ReserveTx | ConfirmTx
    | ConsumeRx | PublishTx | PushFirst | PushRecheck
    | ConfirmLease | SliceLease | ReturnLease

  // Program points, by source method.
  datatype LinkPoint = LinkSwap(up: bool) | LinkBump | LinkDropRx  // set_authorized_link
  datatype EpochPoint = EpochFirst(op: Op) | EpochUp(op: Op) | EpochSecond(op: Op)  // active_epoch
  datatype DropPoint = LinkDropTx | DropRx | DropTx  // discard_ready_rx, discard_ready_tx
  // release_rx, release_tx
  datatype ReleasePoint = ReleaseRxLen(thenTx: bool) | ReleaseRxState(thenTx: bool) | ReleaseTxLen | ReleaseTxState
  datatype ClaimPoint = ClaimState | ClaimEpoch | ClaimCas  // claim_ready_rx
  // claimed_rx_is_current, restore_rx_after_tx_contention
  datatype HoldPoint = ConfirmEpoch | RestoreEpoch | RestoreReady
  datatype ReservePoint = TxCas | TxEpochStore  // reserve_tx
  datatype RxTokenPoint = RxTok | RxTokEpoch  // RxToken::consume, up to the length load
  datatype RxUsePoint = RxTokLen(valid: bool) | RxBody  // RxToken::consume, callback
  datatype TxTokenPoint = TxTok | TxBody  // TxToken::consume, callback
  datatype PublishPoint = TxTokEpoch | TxLenStore | TxReadyStore  // TxToken::consume, publication
  datatype PushPoint = PushCas | PushReady | PushDropEpoch  // push_rx
  datatype FillPoint = PushEpoch | PushLen  // push_rx, epoch and length stores
  datatype StalePoint = StaleState | StaleEpoch  // discard_stale_tx
  datatype TakePoint = TakeCas | TakeEpoch  // take_tx
  datatype SlicePoint = SliceEpoch | SliceLen(current: bool)  // TxLease::as_slice
  datatype ReturnPoint = ReturnEpoch | ReturnReady  // TxLease::report(WouldBlock), TxLease::drop

  datatype At =
    | Idle
    | CheckUp(k: Then) | CheckEpoch(k: Then)  // epoch_is_active
    | BothTokens                              // try_receive succeeded
    | PushCopy                                // push_rx, copy
    | Lease | SliceBody                       // a TxLease, and a live slice of it
    | Linking(linking: LinkPoint) | Reading(reading: EpochPoint) | Dropping(dropping: DropPoint)
    | Releasing(releasing: ReleasePoint) | Claiming(claiming: ClaimPoint) | Holding(holding: HoldPoint)
    | Reserving(reserving: ReservePoint)
    | RxToken(rxtoken: RxTokenPoint) | RxUse(rxuse: RxUsePoint) | TxToken(txtoken: TxTokenPoint)
    | Publishing(publishing: PublishPoint) | Pushing(pushing: PushPoint) | Filling(filling: FillPoint)
    | Staling(staling: StalePoint) | Taking(taking: TakePoint) | Slicing(slicing: SlicePoint)
    | Returning(returning: ReturnPoint)

  /** An agent's hold on a slot: none, with the claimed frame still in it, or
      with no frame in it. Besides recording the hold, the RX component tells a
      transmit step whether `try_receive` or `try_transmit` is running. */
  datatype Hold = NoHold | Keeps | Fills

  /** A program point and the local variables of the call: its epoch, the history
      instants `since` and `seen`, the frame being pushed or published, and a
      count (tries, bytes copied, the length of the slice in use, or the log
      index of the frame a `push_rx` has stored). The last two are history
      variables of a lease: when it claimed its frame and was seen current. */
  datatype Agent = Agent(at: At, e: nat, since: nat, seen: nat, bytes: seq<byte>, n: nat,
                         rx: Hold, tx: Hold, claimed: nat, leased: nat)

  /** Everything a step leaves open: which call starts, what a callback writes,
      what the hardware reports, and which agent receives a moved token. */
  datatype Choice =
    | SetLink(up: bool) | Receive | Transmit | Push(frame: seq<byte>) | Take
    | Consume(len: nat) | DropIt | WriteByte(index: nat, value: byte) | Finish
    | AsSlice | ReadSlice | Report(outcome: Outcome) | MoveTx(to: nat) | Go

  datatype PushResult = Accepted | FrameTooLarge | LinkDown | RxBusy

  /** The result of one `push_rx`: the log index of the frame it stored READY, if
      it came to that, and the epoch; then the instant of that store, the one
      the link was last seen up at, and the one the result was settled at. */
  datatype Pushed = Pushed(result: PushResult, frame: Option<nat>, epoch: nat, stored: nat, seen: nat, settled: nat)

  /** Shared memory, every agent that is not idle, and the results of `push_rx`. */
  datatype State = State(mem: Mem, agents: map<nat, Agent>, pushes: seq<Pushed>)

  const IDLE := Agent(Idle, 0, 0, 0, [], 0, NoHold, NoHold, 0, 0)

  function Get(s: State, a: nat): Agent {
    if a in s.agents then s.agents[a] else IDLE
  }

  /** The current instant: the index of the last recorded link. */
  function Now(m: Mem): nat {
    if |m.history| == 0 then 0 else |m.history| - 1
  }

  function EmptySlot(size: nat): Slot {
    Slot(Free, 0, 0, seq(size, i => 0), None, None)
  }

  function Init(size: nat): State {
    State(Mem(size, Link(false, 0), EmptySlot(size), EmptySlot(size),
              [], [], [], [], [], [Link(false, 0)]), map[], [])
  }

  function Claim(slot: Slot, to: SlotState, a: nat): Slot {
    slot.(state := to, owner := Some(a))
  }

  function Unclaim(slot: Slot, to: SlotState): Slot {
    slot.(state := to, owner := None)
  }

  /** `release_rx` and `release_tx`, first store. */
  function Emptied(slot: Slot): Slot {
    slot.(len := 0, frame := None)
  }

  function Min(a: nat, b: nat): nat {
    if a < b then a else b
  }

  /** Starts an `epoch_is_active` call. */
  function Check(m: Mem, g: Agent, k: Then): Agent {
    g.(at := CheckUp(k), since := Now(m))
  }

  // --------------------------------------------- starting, link, active_epoch

  function StepIdle(m: Mem, g: Agent, c: Choice): Agent {
    match c
    case SetLink(up) => g.(at := Linking(LinkSwap(up)))
    case Receive => g.(at := Reading(EpochFirst(TryReceive)), n := 0)
    case Transmit => g.(at := Reading(EpochFirst(TryTransmit)), n := 0)
    case Push(frame) =>
      if |frame| > m.size then g else g.(at := Reading(EpochFirst(PushRx)), n := 0, bytes := frame)
    case Take => g.(at := Reading(EpochFirst(TakeTx)), n := 0)
    case _ => g
  }

  function StepLink(m: Mem, a: nat, g: Agent, p: LinkPoint): (Mem, Agent) {
    match p
    case LinkSwap(up) =>
      (m.(link := Link(up, m.link.epoch)), if m.link.up == up then IDLE else g.(at := Linking(LinkBump)))
    case LinkBump => (m.(link := Link(m.link.up, m.link.epoch + 1)), g.(at := Linking(LinkDropRx)))
    case _ =>
      if m.rx.state == Ready
      then (m.(rx := Claim(m.rx, Producer, a)), g.(at := Releasing(ReleaseRxLen(true)), rx := Keeps))
      else (m, g.(at := Dropping(LinkDropTx)))
  }

  function StepEpoch(m: Mem, g: Agent, p: EpochPoint): Agent {
    match p
    case EpochFirst(op) => g.(at := Reading(EpochUp(op)), e := m.link.epoch)
    case EpochUp(op) => if m.link.up then g.(at := Reading(EpochSecond(op))) else IDLE
    case EpochSecond(op) =>
      if m.link.epoch == g.e then AfterEpoch(m, g, op)
      else if g.n + 1 < 3 then g.(at := Reading(EpochFirst(op)), n := g.n + 1)
      else IDLE
  }

  function AfterEpoch(m: Mem, g: Agent, op: Op): Agent {
    match op
    case TryReceive => Check(m, g, ClaimRx)
    case TryTransmit => Check(m, g, ReserveTx)
    case PushRx => g.(at := Pushing(PushCas))
    case TakeTx => g.(at := Staling(StaleState))
  }

  // ------------------------------------------------------- epoch_is_active

  /** `epoch_is_active`, load of the link flag. */
  function StepCheckUp(m: Mem, g: Agent, k: Then): Agent {
    if m.link.up then g.(at := CheckEpoch(k), seen := Now(m)) else Inactive(g, k)
  }

  /** `epoch_is_active`, load of the link epoch. */
  function StepCheckEpoch(m: Mem, g: Agent, k: Then): Agent {
    if m.link.epoch == g.e then Active(m, g, k) else Inactive(g, k)
  }

  /** Where an agent goes when `epoch_is_active` said yes. */
  function Active(m: Mem, g: Agent, k: Then): Agent {
    match k
    case ClaimRx => g.(at := Claiming(ClaimState))
    case ConfirmRx => Check(m, g, ReserveTx)
    case RestoreRx => g.(at := Holding(RestoreReady))
    case ReserveTx => g.(at := Reserving(TxCas))
    case ConfirmTx => g.(at := if g.rx.NoHold? then TxToken(TxTok) else BothTokens)
    case ConsumeRx => g.(at := RxToken(RxTokEpoch))
    case PublishTx => g.(at := Publishing(TxTokEpoch))
    case PushFirst => g.(at := PushCopy, n := 0)
    case PushRecheck => IDLE
    case ConfirmLease => g.(at := Lease, leased := g.seen)
    case SliceLease => g.(at := Slicing(SliceEpoch))
    case ReturnLease => g.(at := Returning(ReturnEpoch))
  }

  /** Where an agent goes when `epoch_is_active` said no. */
  function Inactive(g: Agent, k: Then): Agent {
    match k
    case ClaimRx => IDLE
    case ConfirmRx => g.(at := Releasing(ReleaseRxLen(false)))
    case RestoreRx => g.(at := Releasing(ReleaseRxLen(false)))
    case ReserveTx => if g.rx.NoHold? then IDLE else g.(at := Holding(RestoreEpoch))
    case ConfirmTx => g.(at := Releasing(ReleaseTxLen))
    case ConsumeRx => g.(at := RxUse(RxTokLen(false)))
    case PublishTx => g.(at := Releasing(ReleaseTxLen))
    case PushFirst => g.(at := Releasing(ReleaseRxLen(false)))
    case PushRecheck => g.(at := Pushing(PushDropEpoch))
    case ConfirmLease => g.(at := Releasing(ReleaseTxLen))
    case SliceLease => g.(at := Slicing(SliceLen(false)))
    case ReturnLease => g.(at := Releasing(ReleaseTxLen))
  }

  // ----------------------------------------------------- discard and release

  function StepDrop(m: Mem, a: nat, g: Agent, p: DropPoint): (Mem, Agent) {
    match p
    case DropRx =>
      if m.rx.state == Ready
      then (m.(rx := Claim(m.rx, Producer, a)), g.(at := Releasing(ReleaseRxLen(false)), rx := Keeps))
      else (m, IDLE)
    case _ =>
      if m.tx.state == Ready
      then (m.(tx := Claim(m.tx, Producer, a)), g.(at := Releasing(ReleaseTxLen), tx := Keeps))
      else (m, IDLE)
  }

  function StepRelease(m: Mem, g: Agent, p: ReleasePoint): (Mem, Agent) {
    match p
    case ReleaseRxLen(thenTx) => (m.(rx := Emptied(m.rx)), g.(at := Releasing(ReleaseRxState(thenTx)), rx := Fills))
    case ReleaseRxState(thenTx) =>
      (m.(rx := Unclaim(m.rx, Free)), if thenTx then g.(at := Dropping(LinkDropTx), rx := NoHold) else IDLE)
    case ReleaseTxLen => (m.(tx := Emptied(m.tx)), g.(at := Releasing(ReleaseTxState), tx := Fills))
    case _ =>
      (m.(tx := Unclaim(m.tx, Free)),
       if g.rx.NoHold? then IDLE else g.(at := Holding(RestoreEpoch), tx := NoHold))
  }

  // ------------------------------------------------------ receive, transmit

  function StepClaim(m: Mem, a: nat, g: Agent, p: ClaimPoint): (Mem, Agent) {
    match p
    case ClaimState => (m, g.(at := if m.rx.state == Ready then Claiming(ClaimEpoch) else Claiming(ClaimCas)))
    case ClaimEpoch => (m, g.(at := if m.rx.epoch != g.e then Dropping(DropRx) else Claiming(ClaimCas)))
    case _ =>
      if m.rx.state == Ready
      then (m.(rx := Claim(m.rx, Client, a)), g.(at := Holding(ConfirmEpoch), rx := Keeps))
      else (m, IDLE)
  }

  function StepHold(m: Mem, g: Agent, p: HoldPoint): (Mem, Agent) {
    match p
    case ConfirmEpoch =>
      (m, if m.rx.epoch == g.e then Check(m, g, ConfirmRx) else g.(at := Releasing(ReleaseRxLen(false))))
    case RestoreEpoch =>
      (m, if m.rx.epoch == g.e then Check(m, g, RestoreRx) else g.(at := Releasing(ReleaseRxLen(false))))
    case _ => (m.(rx := Unclaim(m.rx, Ready)), IDLE)
  }

  function StepReserve(m: Mem, a: nat, g: Agent, p: ReservePoint): (Mem, Agent) {
    match p
    case TxCas =>
      if m.tx.state == Free
      then (m.(tx := Claim(m.tx, Client, a)), g.(at := Reserving(TxEpochStore), tx := Fills))
      else (m, if g.rx.NoHold? then IDLE else g.(at := Holding(RestoreEpoch)))
    case _ => (m.(tx := m.tx.(epoch := g.e)), Check(m, g, ConfirmTx))
  }

  // -------------------------------------------------------- RxToken, TxToken

  function StepRxToken(m: Mem, g: Agent, p: RxTokenPoint, c: Choice): (Mem, Agent) {
    match p
    case RxTok =>
      (m, if c.Consume? then Check(m, g, ConsumeRx)
          else if c.DropIt? then g.(at := Releasing(ReleaseRxLen(false)))
          else g)
    case _ => (m, g.(at := RxUse(RxTokLen(m.rx.epoch == g.e))))
  }

  function StepRxUse(m: Mem, g: Agent, p: RxUsePoint, c: Choice): (Mem, Agent) {
    match p
    case RxTokLen(valid) =>
      var len := if valid then Min(m.rx.len, |m.rx.buf|) else 0;
      (m.(deliveries := m.deliveries + [HandoutOf(m, m.rx, g, len)], rx := m.rx.(frame := None)),
       g.(at := RxUse(RxBody), n := len, rx := Fills))
    case _ =>
      if c.WriteByte? && c.index < g.n && c.index < |m.rx.buf|
      then (m.(rx := m.rx.(buf := m.rx.buf[c.index := c.value])), g)
      else (m, if c.Finish? then g.(at := Releasing(ReleaseRxLen(false))) else g)
  }

  function HandoutOf(m: Mem, slot: Slot, g: Agent, len: nat): Handout
    requires len <= |slot.buf|
  {
    Handout(g.e, slot.buf[..len], if slot.frame.Some? then slot.frame.value else 0, g.since, g.seen, Now(m))
  }

  function StepTxToken(m: Mem, g: Agent, p: TxTokenPoint, c: Choice): (Mem, Agent) {
    match p
    case TxTok =>
      // A length above the slot size panics, which drops the token.
      (m, if c.Consume? && c.len <= m.size then g.(at := TxToken(TxBody), n := c.len)
          else if c.Consume? || c.DropIt? then g.(at := Releasing(ReleaseTxLen))
          else g)
    case _ =>
      if c.WriteByte? && c.index < g.n && c.index < |m.tx.buf|
      then (m.(tx := m.tx.(buf := m.tx.buf[c.index := c.value])), g)
      else (m, if c.Finish? then Check(m, g, PublishTx).(bytes := m.tx.buf[..Min(g.n, |m.tx.buf|)]) else g)
  }

  function StepPublish(m: Mem, g: Agent, p: PublishPoint): (Mem, Agent) {
    match p
    case TxTokEpoch => (m, g.(at := if m.tx.epoch == g.e then Publishing(TxLenStore) else Releasing(ReleaseTxLen)))
    case TxLenStore => (m.(tx := m.tx.(len := |g.bytes|)), g.(at := Publishing(TxReadyStore)))
    case _ =>
      (m.(tx := Unclaim(m.tx, Ready).(frame := Some(|m.published|)),
          published := m.published + [Frame(g.e, g.bytes)]), IDLE)
  }

  // --------------------------------------------------------- push_rx, take_tx

  function StepPush(m: Mem, a: nat, g: Agent, p: PushPoint): (Mem, Agent) {
    match p
    case PushCas =>
      if m.rx.state == Free
      then (m.(rx := Claim(m.rx, Producer, a)), Check(m, g, PushFirst).(rx := Fills))
      else (m, IDLE)
    case PushReady =>
      (m.(rx := Unclaim(m.rx, Ready).(frame := Some(|m.accepted|)),
          accepted := m.accepted + [Frame(g.e, g.bytes)]),
       Check(m, g, PushRecheck).(rx := NoHold, n := |m.accepted|))
    case _ => (m, if m.rx.epoch != g.e then IDLE else g.(at := Dropping(DropRx)))
  }

  function StepCopy(m: Mem, g: Agent): (Mem, Agent) {
    if g.n < |g.bytes| && g.n < |m.rx.buf|
    then (m.(rx := m.rx.(buf := m.rx.buf[g.n := g.bytes[g.n]])), g.(n := g.n + 1))
    else (m, g.(at := Filling(PushEpoch)))
  }

  function StepFill(m: Mem, g: Agent, p: FillPoint): (Mem, Agent) {
    match p
    case PushEpoch => (m.(rx := m.rx.(epoch := g.e)), g.(at := Filling(PushLen)))
    case _ => (m.(rx := m.rx.(len := |g.bytes|)), g.(at := Pushing(PushReady)))
  }

  /** `discard_stale_tx`, two loads. */
  function StepStale(m: Mem, g: Agent, p: StalePoint): Agent {
    match p
    case StaleState => g.(at := if m.tx.state != Ready then Taking(TakeCas) else Staling(StaleEpoch))
    case _ => g.(at := if m.tx.epoch == g.e then Taking(TakeCas) else Dropping(DropTx))
  }

  function StepTake(m: Mem, a: nat, g: Agent, p: TakePoint): (Mem, Agent) {
    match p
    case TakeCas =>
      if m.tx.state == Ready
      then (m.(tx := Claim(m.tx, Producer, a)), g.(at := Taking(TakeEpoch), tx := Keeps, claimed := Now(m)))
      else (m, IDLE)
    case _ => (m, if m.tx.epoch == g.e then Check(m, g, ConfirmLease) else g.(at := Releasing(ReleaseTxLen)))
  }

  // --------------------------------------------------------------- TxLease

  /** `report(Submitted)` and `report(Dropped)`. */
  function StepReport(m: Mem, g: Agent, outcome: Outcome): (Mem, Agent) {
    (m.(finals := m.finals + [FinalOf(m, g, outcome)], tx := m.tx.(frame := None)),
     g.(at := Releasing(ReleaseTxLen), tx := Fills))
  }

  function FinalOf(m: Mem, g: Agent, outcome: Outcome): Final {
    Final(if m.tx.frame.Some? then m.tx.frame.value else 0, outcome, g.e, g.claimed, g.leased, Now(m))
  }

  function StepLease(m: Mem, g: Agent, c: Choice): (Mem, Agent) {
    if c.Report? && c.outcome != WouldBlock then StepReport(m, g, c.outcome)
    else if c.AsSlice? then (m, Check(m, g, SliceLease))
    else if c.Report? || c.DropIt? then (m, Check(m, g, ReturnLease))
    else (m, g)
  }

  /** `as_slice`, up to the slice. */
  function StepSlice(m: Mem, g: Agent, p: SlicePoint): Agent {
    match p
    case SliceEpoch => g.(at := Slicing(SliceLen(m.tx.epoch == g.e)))
    case SliceLen(current) => g.(at := SliceBody, n := if current then Min(m.tx.len, |m.tx.buf|) else 0)
  }

  /** A live slice: read any number of times, then given up. */
  function StepRead(m: Mem, g: Agent, c: Choice): (Mem, Agent) {
    if c.ReadSlice? && g.n <= |m.tx.buf|
    then (m.(readings := m.readings + [HandoutOf(m, m.tx, g, g.n)]), g)
    else (m, if c.Finish? then g.(at := Lease) else g)
  }

  /** `report(WouldBlock)` and `TxLease::drop`, after the epoch check. */
  function StepReturn(m: Mem, g: Agent, p: ReturnPoint): (Mem, Agent) {
    match p
    case ReturnEpoch => (m, g.(at := if m.tx.epoch == g.e then Returning(ReturnReady) else Releasing(ReleaseTxLen)))
    case _ => (m.(tx := Unclaim(m.tx, Ready)), IDLE)
  }

  // ------------------------------------------------------------------ steps

  /** One step of agent `a` in condition `g`. */
  function StepLocal(m: Mem, a: nat, g: Agent, c: Choice): (Mem, Agent) {
    match g.at
    case Idle => (m, StepIdle(m, g, c))
    case CheckUp(k) => (m, StepCheckUp(m, g, k))
    case CheckEpoch(k) => (m, StepCheckEpoch(m, g, k))
    case BothTokens => (m, g)
    case PushCopy => StepCopy(m, g)
    case Lease => StepLease(m, g, c)
    case SliceBody => StepRead(m, g, c)
    case Linking(p) => StepLink(m, a, g, p)
    case Reading(p) => (m, StepEpoch(m, g, p))
    case Dropping(p) => StepDrop(m, a, g, p)
    case Releasing(p) => StepRelease(m, g, p)
    case Claiming(p) => StepClaim(m, a, g, p)
    case Holding(p) => StepHold(m, g, p)
    case Reserving(p) => StepReserve(m, a, g, p)
    case RxToken(p) => StepRxToken(m, g, p, c)
    case RxUse(p) => StepRxUse(m, g, p, c)
    case TxToken(p) => StepTxToken(m, g, p, c)
    case Publishing(p) => StepPublish(m, g, p)
    case Pushing(p) => StepPush(m, a, g, p)
    case Filling(p) => StepFill(m, g, p)
    case Staling(p) => (m, StepStale(m, g, p))
    case Taking(p) => StepTake(m, a, g, p)
    case Slicing(p) => (m, StepSlice(m, g, p))
    case Returning(p) => StepReturn(m, g, p)
  }

  /** What `push_rx` returns, where a step of it settles that. After the frame was
      stored the recheck of the link decides; the rest only cleans up. */
  function Settled(m: Mem, g: Agent, c: Choice): seq<Pushed> {
    match g.at
    case Idle => if c.Push? && |c.frame| > m.size then [Early(m, g, FrameTooLarge)] else []
    case Reading(EpochUp(PushRx)) => if m.link.up then [] else [Early(m, g, LinkDown)]
    case Reading(EpochSecond(PushRx)) =>
      if m.link.epoch == g.e || g.n + 1 < 3 then [] else [Early(m, g, LinkDown)]
    case Pushing(PushCas) => if m.rx.state == Free then [] else [Early(m, g, RxBusy)]
    case CheckUp(PushFirst) => if m.link.up then [] else [Early(m, g, LinkDown)]
    case CheckEpoch(PushFirst) => if m.link.epoch == g.e then [] else [Early(m, g, LinkDown)]
    case CheckUp(PushRecheck) => if m.link.up then [] else [Late(m, g, LinkDown)]
    case CheckEpoch(PushRecheck) => [Late(m, g, if m.link.epoch == g.e then Accepted else LinkDown)]
    case _ => []
  }

  function Early(m: Mem, g: Agent, r: PushResult): Pushed {
    Pushed(r, None, g.e, Now(m), Now(m), Now(m))
  }

  function Late(m: Mem, g: Agent, r: PushResult): Pushed {
    Pushed(r, Some(g.n), g.e, g.since + 1, g.seen, Now(m))
  }

  function Record(m: Mem): Mem {
    m.(history := m.history + [m.link])
  }

  /** One step of agent `a`. A finished `try_receive` hands out two tokens; moving
      the TX token to another agent lets the two be used independently. */
  function Exec(s: State, a: nat, c: Choice): State {
    var g := Get(s, a);
    if g.at.BothTokens? && c.MoveTx? then
      if Get(s, c.to) == IDLE then
        State(Record(s.mem.(tx := s.mem.tx.(owner := Some(c.to)))),
              s.agents[a := g.(at := RxToken(RxTok), tx := NoHold)][c.to := g.(at := TxToken(TxTok), rx := NoHold)],
              s.pushes)
      else s
    else
      var (m, next) := StepLocal(s.mem, a, g, c);
      State(Record(m), s.agents[a := next], s.pushes + Settled(s.mem, g, c))
  }

  /** Runs a schedule: which agent steps next, and how it chooses. */
  function Run(s: State, schedule: seq<(nat, Choice)>): State
    decreases |schedule|
  {
    if schedule == [] then s
    else Run(Exec(s, schedule[0].0, schedule[0].1), schedule[1..])
  }
}
