/** Safety of the network queue in every interleaving. */
module NetworkQueueProof {
  import opened Bytes
  import opened Wrappers
  import opened NetworkQueue

  // ------------------------------------------------------------- invariant

  ghost predicate SlotOk(slot: Slot, size: nat, log: seq<Frame>) {
    && |slot.buf| == size
    && (slot.owner.None? <==> slot.state == Free || slot.state == Ready)
    && (slot.state == Free ==> slot.frame.None?)
    && (slot.state == Ready ==> slot.frame.Some?)
    && (slot.frame.Some? ==>
          && slot.frame.value < |log|
          && slot.len <= size
          && log[slot.frame.value] == Frame(slot.epoch, slot.buf[..slot.len]))
  }

  ghost predicate HoldOk(slot: Slot, a: nat, h: Hold) {
    && (h == NoHold <==> slot.owner != Some(a))
    && (h == Keeps ==> slot.frame.Some?)
    && (h == Fills ==> slot.frame.None?)
  }

  ghost predicate SeenUp(history: seq<Link>, e: nat, since: nat, seen: nat) {
    since <= seen < |history| && history[seen] == Link(true, e)
  }

  predicate Stores(slot: Slot, bytes: seq<byte>) {
    |bytes| <= |slot.buf| && slot.buf[..|bytes|] == bytes
  }

  /** What an agent inside `epoch_is_active` holds, by what it does next. */
  predicate KnowsThen(m: Mem, g: Agent, k: Then) {
    match k
    case ClaimRx => g.rx == NoHold && g.tx == NoHold
    case ConfirmRx => g.rx == Keeps && g.tx == NoHold
    case RestoreRx => g.rx == Keeps && g.tx == NoHold
    case ReserveTx => g.rx != Fills && g.tx == NoHold
    case ConfirmTx => g.rx != Fills && g.tx == Fills
    case ConsumeRx => g.rx == Keeps && g.tx == NoHold
    case PublishTx => g.rx == NoHold && g.tx == Fills && Stores(m.tx, g.bytes)
    case PushFirst => g.rx == Fills && g.tx == NoHold && |g.bytes| <= m.size
    case PushRecheck => g.rx == NoHold && g.tx == NoHold
    case _ => g.rx == NoHold && g.tx == Keeps
  }

  /** What an agent holds of the RX and the TX slot at each program point, and
      what it knows about the shared memory there. */
  ghost predicate Knows(m: Mem, g: Agent) {
    match g.at
    case CheckUp(k) => g.since < |m.history| && KnowsThen(m, g, k)
    case CheckEpoch(k) =>
      && g.since <= g.seen < |m.history|
      && m.history[g.seen].up && m.history[g.seen].epoch >= g.e
      && KnowsThen(m, g, k)
    case Reading(p) => g.rx == NoHold && g.tx == NoHold && (p.op.PushRx? ==> |g.bytes| <= m.size)
    case Releasing(p) => KnowsReleasing(g, p)
    case Holding(_) => g.rx == Keeps && g.tx == NoHold
    case Reserving(p) => g.rx != Fills && g.tx == if p.TxCas? then NoHold else Fills
    case BothTokens => g.rx == Keeps && g.tx == Fills
    case RxToken(p) => g.rx == Keeps && g.tx == NoHold && (p.RxTokEpoch? ==> Seen(m, g))
    case RxUse(p) =>
      && g.tx == NoHold
      && g.rx == (if p.RxTokLen? then Keeps else Fills)
      && (p.RxTokLen? && p.valid ==> Seen(m, g) && m.rx.epoch == g.e)
    case TxToken(p) => g.rx == NoHold && g.tx == Fills && (p.TxBody? ==> g.n <= m.size)
    case Publishing(p) =>
      && g.rx == NoHold && g.tx == Fills && Stores(m.tx, g.bytes)
      && (!p.TxTokEpoch? ==> m.tx.epoch == g.e)
      && (p.TxReadyStore? ==> m.tx.len == |g.bytes|)
    case Pushing(p) =>
      && g.tx == NoHold && g.rx == (if p.PushReady? then Fills else NoHold)
      && (p.PushCas? ==> |g.bytes| <= m.size)
      && (p.PushReady? ==> Stores(m.rx, g.bytes) && m.rx.epoch == g.e && m.rx.len == |g.bytes|)
    case PushCopy =>
      && g.rx == Fills && g.tx == NoHold
      && g.n <= |g.bytes| <= m.size && Stores(m.rx, g.bytes[..g.n])
    case Filling(p) =>
      g.rx == Fills && g.tx == NoHold && Stores(m.rx, g.bytes) && (p.PushLen? ==> m.rx.epoch == g.e)
    case Taking(p) => g.rx == NoHold && g.tx == if p.TakeCas? then NoHold else Keeps
    case Lease => g.rx == NoHold && g.tx == Keeps
    case Slicing(p) =>
      && g.rx == NoHold && g.tx == Keeps
      && (p.SliceEpoch? ==> Seen(m, g))
      && (p.SliceLen? && p.current ==> Seen(m, g) && m.tx.epoch == g.e)
    case SliceBody =>
      && g.rx == NoHold && g.tx == Keeps
      && (g.n != 0 ==> Seen(m, g) && m.tx.epoch == g.e && g.n == m.tx.len)
    case Returning(_) => g.rx == NoHold && g.tx == Keeps
    case _ => g.rx == NoHold && g.tx == NoHold
  }

  predicate KnowsReleasing(g: Agent, p: ReleasePoint) {
    match p
    case ReleaseRxLen(_) => g.rx != NoHold && g.tx == NoHold
    case ReleaseRxState(_) => g.rx == Fills && g.tx == NoHold
    case ReleaseTxLen => g.rx != Fills && g.tx != NoHold
    case ReleaseTxState => g.rx != Fills && g.tx == Fills
  }

  ghost predicate Seen(m: Mem, g: Agent) {
    SeenUp(m.history, g.e, g.since, g.seen)
  }

  ghost predicate AgentOk(m: Mem, a: nat, g: Agent) {
    && HoldOk(m.rx, a, g.rx)
    && HoldOk(m.tx, a, g.tx)
    && g.e <= m.link.epoch
    && Knows(m, g)
  }

  ghost predicate SlotsOk(m: Mem) {
    && SlotOk(m.rx, m.size, m.accepted)
    && SlotOk(m.tx, m.size, m.published)
  }

  ghost predicate HistoryOk(m: Mem) {
    && |m.history| > 0
    && m.history[|m.history| - 1] == m.link
    && forall i | 0 <= i < |m.history| :: m.history[i].epoch <= m.link.epoch
  }

  // ------------------------------------------------------------- stability

  ghost predicate SlotStable(slot: Slot, slot': Slot, a: nat) {
    || slot' == slot
    || ((slot.owner.None? || slot.owner == Some(a)) && (slot'.owner.None? || slot'.owner == Some(a)))
  }

  /** What one step of agent `a` leaves to every other agent. */
  ghost predicate Stable(m: Mem, m': Mem, a: nat) {
    && m'.size == m.size
    && m.link.epoch <= m'.link.epoch
    && (m'.history != m.history ==> m.history <= m'.history)
    && SlotStable(m.rx, m'.rx, a)
    && SlotStable(m.tx, m'.tx, a)
  }

  lemma OthersKeepTheirs(m: Mem, m': Mem, a: nat, b: nat, g: Agent)
    requires AgentOk(m, b, g) && a != b && Stable(m, m', a)
    ensures AgentOk(m', b, g)
  {
    assert g.rx != NoHold ==> m'.rx == m.rx;
    assert g.tx != NoHold ==> m'.tx == m.tx;
  }

  // ------------------------------------------------------------------ logs

  /** Non-empty bytes handed out are a logged frame of the same epoch, and the
      link was up in that epoch at an instant inside the call. */
  ghost predicate HandoutOk(h: Handout, log: seq<Frame>, history: seq<Link>) {
    && h.frame < |log|
    && h.until < |history|
    && (h.bytes != [] ==>
          && log[h.frame] == Frame(h.epoch, h.bytes)
          && SeenUp(history, h.epoch, h.since, h.seen)
          && h.seen <= h.until)
  }

  ghost predicate LogsOk(m: Mem) {
    && (forall h | h in m.deliveries :: HandoutOk(h, m.accepted, m.history))
    && (forall h | h in m.readings :: HandoutOk(h, m.published, m.history))
    && (forall i, j | 0 <= i < j < |m.deliveries| :: m.deliveries[i].frame != m.deliveries[j].frame)
    && (forall i, j | 0 <= i < j < |m.finals| :: m.finals[i].frame != m.finals[j].frame)
    && (forall f | f in m.finals :: f.frame < |m.published|)
    && (forall h | h in m.deliveries :: Some(h.frame) != m.rx.frame)
    && (forall f | f in m.finals :: Some(f.frame) != m.tx.frame)
  }

  /** A frame leaves a slot, or stays, or a newly logged one arrives. */
  predicate FrameMove(before: Option<nat>, after: Option<nat>, logged: nat) {
    after.Some? ==> after == before || after.value >= logged
  }

  /** The only ways a step may change the logs. */
  ghost predicate LogStep(m: Mem, m': Mem) {
    && (m'.history != m.history ==> m.history <= m'.history)
    && (m'.accepted != m.accepted ==> m.accepted <= m'.accepted)
    && (m'.published != m.published ==> m.published <= m'.published)
    && FrameMove(m.rx.frame, m'.rx.frame, |m.accepted|)
    && FrameMove(m.tx.frame, m'.tx.frame, |m.published|)
    && (m'.deliveries != m.deliveries ==>
          && |m'.deliveries| == |m.deliveries| + 1
          && m'.deliveries[..|m.deliveries|] == m.deliveries
          && var h := m'.deliveries[|m.deliveries|];
             HandoutOk(h, m.accepted, m.history) && m.rx.frame == Some(h.frame) && m'.rx.frame.None?)
    && (m'.readings != m.readings ==>
          && |m'.readings| == |m.readings| + 1
          && m'.readings[..|m.readings|] == m.readings
          && HandoutOk(m'.readings[|m.readings|], m.published, m.history))
    && (m'.finals != m.finals ==>
          && |m'.finals| == |m.finals| + 1
          && m'.finals[..|m.finals|] == m.finals
          && m.tx.frame == Some(m'.finals[|m.finals|].frame) && m'.tx.frame.None?
          && m'.finals[|m.finals|].frame < |m.published|)
  }

  lemma LogsKept(m: Mem, m': Mem)
    requires LogsOk(m) && LogStep(m, m')
    ensures LogsOk(m')
  {
    forall h | h in m'.deliveries
      ensures HandoutOk(h, m'.accepted, m'.history) && Some(h.frame) != m'.rx.frame
    {
      if h !in m.deliveries {
        assert h == m'.deliveries[|m.deliveries|];
      }
    }
    forall h | h in m'.readings ensures HandoutOk(h, m'.published, m'.history) {
      if h !in m.readings {
        assert h == m'.readings[|m.readings|];
      }
    }
    forall f | f in m'.finals ensures f.frame < |m'.published| && Some(f.frame) != m'.tx.frame {
      if f !in m.finals {
        assert f == m'.finals[|m.finals|];
      }
    }
    forall i, j | 0 <= i < j < |m'.deliveries| ensures m'.deliveries[i].frame != m'.deliveries[j].frame {
      if m'.deliveries != m.deliveries {
        assert m'.deliveries[i] == m'.deliveries[..|m.deliveries|][i] == m.deliveries[i];
        assert m.deliveries[i] in m.deliveries;
        assert j < |m.deliveries| ==> m'.deliveries[j] == m.deliveries[j];
      }
    }
    forall i, j | 0 <= i < j < |m'.finals| ensures m'.finals[i].frame != m'.finals[j].frame {
      if m'.finals != m.finals {
        assert m'.finals[i] == m.finals[i];
        assert m.finals[i] in m.finals;
        assert j < |m.finals| ==> m'.finals[j] == m.finals[j];
      }
    }
  }

  /** The effect every local step must have, before the link is recorded. */
  ghost predicate StepOk(m: Mem, a: nat, m': Mem, g': Agent) {
    && SlotsOk(m')
    && AgentOk(m', a, g')
    && Stable(m, m', a)
    && LogStep(m, m')
    && m'.history == m.history
  }

  lemma IdleOk(m: Mem, a: nat, g: Agent, c: Choice)
    requires g.at.Idle? && SlotsOk(m) && AgentOk(m, a, g)
    ensures StepOk(m, a, m, StepIdle(m, g, c))
  {}

  lemma LinkOk(m: Mem, a: nat, g: Agent)
    requires g.at.Linking? && SlotsOk(m) && AgentOk(m, a, g)
    ensures StepOk(m, a, StepLink(m, a, g, g.at.linking).0, StepLink(m, a, g, g.at.linking).1)
  {}

  lemma EpochOk(m: Mem, a: nat, g: Agent)
    requires g.at.Reading? && SlotsOk(m) && AgentOk(m, a, g) && |m.history| > 0
    ensures StepOk(m, a, m, StepEpoch(m, g, g.at.reading))
  {}

  lemma CheckUpOk(m: Mem, a: nat, g: Agent)
    requires g.at.CheckUp? && SlotsOk(m) && AgentOk(m, a, g) && |m.history| > 0
    requires m.history[|m.history| - 1] == m.link
    ensures StepOk(m, a, m, StepCheckUp(m, g, g.at.k))
  {}

  lemma InactiveOk(m: Mem, a: nat, g: Agent)
    requires g.at.CheckEpoch? && SlotsOk(m) && AgentOk(m, a, g)
    ensures StepOk(m, a, m, Inactive(g, g.at.k))
  {}

  lemma ActiveOk(m: Mem, a: nat, g: Agent)
    requires g.at.CheckEpoch? && SlotsOk(m) && AgentOk(m, a, g) && |m.history| > 0
    requires m.history[g.seen].epoch <= m.link.epoch == g.e
    ensures StepOk(m, a, m, Active(m, g, g.at.k))
  {}

  lemma CheckEpochOk(m: Mem, a: nat, g: Agent)
    requires g.at.CheckEpoch? && HistoryOk(m) && SlotsOk(m) && AgentOk(m, a, g)
    ensures StepOk(m, a, m, StepCheckEpoch(m, g, g.at.k))
  {
    assert m.history[g.seen].epoch <= m.link.epoch;
    if m.link.epoch == g.e { ActiveOk(m, a, g); } else { InactiveOk(m, a, g); }
  }

  lemma DropOk(m: Mem, a: nat, g: Agent)
    requires g.at.Dropping? && SlotsOk(m) && AgentOk(m, a, g)
    ensures StepOk(m, a, StepDrop(m, a, g, g.at.dropping).0, StepDrop(m, a, g, g.at.dropping).1)
  {}

  lemma ReleaseOk(m: Mem, a: nat, g: Agent)
    requires g.at.Releasing? && SlotsOk(m) && AgentOk(m, a, g)
    ensures StepOk(m, a, StepRelease(m, g, g.at.releasing).0, StepRelease(m, g, g.at.releasing).1)
  {}

  lemma ClaimCasOk(m: Mem, a: nat, g: Agent)
    requires g.at.Claiming? && g.at.claiming.ClaimCas? && SlotsOk(m) && AgentOk(m, a, g) && |m.history| > 0
    ensures StepOk(m, a, StepClaim(m, a, g, g.at.claiming).0, StepClaim(m, a, g, g.at.claiming).1)
  {}

  lemma ClaimOk(m: Mem, a: nat, g: Agent)
    requires g.at.Claiming? && !g.at.claiming.ClaimCas? && SlotsOk(m) && AgentOk(m, a, g) && |m.history| > 0
    ensures StepOk(m, a, StepClaim(m, a, g, g.at.claiming).0, StepClaim(m, a, g, g.at.claiming).1)
  {}

  lemma RestoreOk(m: Mem, a: nat, g: Agent)
    requires g.at.Holding? && g.at.holding.RestoreReady? && SlotsOk(m) && AgentOk(m, a, g) && |m.history| > 0
    ensures StepOk(m, a, StepHold(m, g, g.at.holding).0, StepHold(m, g, g.at.holding).1)
  {}

  lemma HoldingOk(m: Mem, a: nat, g: Agent)
    requires g.at.Holding? && !g.at.holding.RestoreReady? && SlotsOk(m) && AgentOk(m, a, g) && |m.history| > 0
    ensures StepOk(m, a, StepHold(m, g, g.at.holding).0, StepHold(m, g, g.at.holding).1)
  {}

  lemma ReserveOk(m: Mem, a: nat, g: Agent)
    requires g.at.Reserving? && SlotsOk(m) && AgentOk(m, a, g) && |m.history| > 0
    ensures StepOk(m, a, StepReserve(m, a, g, g.at.reserving).0, StepReserve(m, a, g, g.at.reserving).1)
  {}

  lemma BothOk(m: Mem, a: nat, g: Agent)
    requires g.at.BothTokens? && SlotsOk(m) && AgentOk(m, a, g)
    ensures StepOk(m, a, m, g)
  {}

  lemma RxTokenOk(m: Mem, a: nat, g: Agent, c: Choice)
    requires g.at.RxToken? && SlotsOk(m) && AgentOk(m, a, g) && |m.history| > 0
    ensures StepOk(m, a, StepRxToken(m, g, g.at.rxtoken, c).0, StepRxToken(m, g, g.at.rxtoken, c).1)
  {}

  lemma DeliverOk(m: Mem, a: nat, g: Agent, c: Choice)
    requires g.at.RxUse? && g.at.rxuse.RxTokLen? && SlotsOk(m) && AgentOk(m, a, g) && |m.history| > 0
    ensures StepOk(m, a, StepRxUse(m, g, g.at.rxuse, c).0, StepRxUse(m, g, g.at.rxuse, c).1)
  {}

  lemma RxUseOk(m: Mem, a: nat, g: Agent, c: Choice)
    requires g.at.RxUse? && !g.at.rxuse.RxTokLen? && SlotsOk(m) && AgentOk(m, a, g) && |m.history| > 0
    ensures StepOk(m, a, StepRxUse(m, g, g.at.rxuse, c).0, StepRxUse(m, g, g.at.rxuse, c).1)
  {}

  lemma TxBodyOk(m: Mem, a: nat, g: Agent, c: Choice)
    requires g.at.TxToken? && g.at.txtoken.TxBody? && SlotsOk(m) && AgentOk(m, a, g) && |m.history| > 0
    ensures StepOk(m, a, StepTxToken(m, g, g.at.txtoken, c).0, StepTxToken(m, g, g.at.txtoken, c).1)
  {}

  lemma TxTokenOk(m: Mem, a: nat, g: Agent, c: Choice)
    requires g.at.TxToken? && !g.at.txtoken.TxBody? && SlotsOk(m) && AgentOk(m, a, g) && |m.history| > 0
    ensures StepOk(m, a, StepTxToken(m, g, g.at.txtoken, c).0, StepTxToken(m, g, g.at.txtoken, c).1)
  {}

  lemma PublishReadyOk(m: Mem, a: nat, g: Agent)
    requires g.at.Publishing? && g.at.publishing.TxReadyStore? && SlotsOk(m) && AgentOk(m, a, g)
    ensures StepOk(m, a, StepPublish(m, g, g.at.publishing).0, StepPublish(m, g, g.at.publishing).1)
  {}

  lemma PublishOk(m: Mem, a: nat, g: Agent)
    requires g.at.Publishing? && !g.at.publishing.TxReadyStore? && SlotsOk(m) && AgentOk(m, a, g)
    ensures StepOk(m, a, StepPublish(m, g, g.at.publishing).0, StepPublish(m, g, g.at.publishing).1)
  {}

  lemma PushReadyOk(m: Mem, a: nat, g: Agent)
    requires g.at.Pushing? && g.at.pushing.PushReady? && SlotsOk(m) && AgentOk(m, a, g) && |m.history| > 0
    ensures StepOk(m, a, StepPush(m, a, g, g.at.pushing).0, StepPush(m, a, g, g.at.pushing).1)
  {}

  lemma PushOk(m: Mem, a: nat, g: Agent)
    requires g.at.Pushing? && !g.at.pushing.PushReady? && SlotsOk(m) && AgentOk(m, a, g) && |m.history| > 0
    ensures StepOk(m, a, StepPush(m, a, g, g.at.pushing).0, StepPush(m, a, g, g.at.pushing).1)
  {}

  lemma CopyOk(m: Mem, a: nat, g: Agent)
    requires g.at.PushCopy? && SlotsOk(m) && AgentOk(m, a, g)
    ensures StepOk(m, a, StepCopy(m, g).0, StepCopy(m, g).1)
  {
    if g.n < |g.bytes| {
      assert g.bytes[..g.n + 1] == g.bytes[..g.n] + [g.bytes[g.n]];
      assert m.rx.buf[g.n := g.bytes[g.n]][..g.n + 1] == m.rx.buf[..g.n] + [g.bytes[g.n]];
    } else {
      assert g.bytes[..g.n] == g.bytes;
    }
  }

  lemma FillOk(m: Mem, a: nat, g: Agent)
    requires g.at.Filling? && SlotsOk(m) && AgentOk(m, a, g)
    ensures StepOk(m, a, StepFill(m, g, g.at.filling).0, StepFill(m, g, g.at.filling).1)
  {}

  lemma StaleOk(m: Mem, a: nat, g: Agent)
    requires g.at.Staling? && SlotsOk(m) && AgentOk(m, a, g)
    ensures StepOk(m, a, m, StepStale(m, g, g.at.staling))
  {}

  lemma TakeOk(m: Mem, a: nat, g: Agent)
    requires g.at.Taking? && SlotsOk(m) && AgentOk(m, a, g) && |m.history| > 0
    ensures StepOk(m, a, StepTake(m, a, g, g.at.taking).0, StepTake(m, a, g, g.at.taking).1)
  {}

  lemma LeaseOk(m: Mem, a: nat, g: Agent, c: Choice)
    requires g.at.Lease? && SlotsOk(m) && AgentOk(m, a, g) && |m.history| > 0
    ensures StepOk(m, a, StepLease(m, g, c).0, StepLease(m, g, c).1)
  {}

  lemma SliceOk(m: Mem, a: nat, g: Agent)
    requires g.at.Slicing? && SlotsOk(m) && AgentOk(m, a, g)
    ensures StepOk(m, a, m, StepSlice(m, g, g.at.slicing))
  {}

  lemma ReadOk(m: Mem, a: nat, g: Agent, c: Choice)
    requires g.at.SliceBody? && SlotsOk(m) && AgentOk(m, a, g) && |m.history| > 0
    ensures StepOk(m, a, StepRead(m, g, c).0, StepRead(m, g, c).1)
  {}

  lemma ReturnOk(m: Mem, a: nat, g: Agent)
    requires g.at.Returning? && SlotsOk(m) && AgentOk(m, a, g)
    ensures StepOk(m, a, StepReturn(m, g, g.at.returning).0, StepReturn(m, g, g.at.returning).1)
  {}

  // ------------------------------------------------------------- every run

  predicate ClientSide(at: At) {
    at.Claiming? || at.Holding? || at.Reserving? || at.BothTokens? || at.RxToken? || at.RxUse?
    || at.TxToken? || at.Publishing?
  }

  predicate RunnerSide(at: At) {
    at.Pushing? || at.PushCopy? || at.Filling? || at.Staling? || at.Taking? || at.Lease? || at.Slicing?
    || at.SliceBody? || at.Returning?
  }

  lemma ClientOk(m: Mem, a: nat, g: Agent, c: Choice)
    requires ClientSide(g.at)
    requires HistoryOk(m) && SlotsOk(m) && AgentOk(m, a, g)
    ensures StepOk(m, a, StepLocal(m, a, g, c).0, StepLocal(m, a, g, c).1)
  {
    assert |m.history| > 0 && m.history[|m.history| - 1] == m.link;
    // The case split needs no definition but `StepLocal`.
    hide HistoryOk, SlotsOk, AgentOk, StepOk, IDLE, StepIdle, StepLink, StepEpoch, StepCheckUp, StepCheckEpoch,
         StepDrop, StepRelease, StepClaim, StepHold, StepReserve, StepRxToken, StepRxUse, StepTxToken, StepPublish,
         StepPush, StepCopy, StepFill, StepStale, StepTake, StepLease, StepSlice, StepRead, StepReturn;
    match g.at
    case Claiming(p) => if p.ClaimCas? { ClaimCasOk(m, a, g); } else { ClaimOk(m, a, g); }
    case Holding(p) => if p.RestoreReady? { RestoreOk(m, a, g); } else { HoldingOk(m, a, g); }
    case Reserving(_) => ReserveOk(m, a, g);
    case BothTokens => BothOk(m, a, g);
    case RxToken(_) => RxTokenOk(m, a, g, c);
    case RxUse(p) => if p.RxTokLen? { DeliverOk(m, a, g, c); } else { RxUseOk(m, a, g, c); }
    case TxToken(p) => if p.TxBody? { TxBodyOk(m, a, g, c); } else { TxTokenOk(m, a, g, c); }
    case Publishing(p) => if p.TxReadyStore? { PublishReadyOk(m, a, g); } else { PublishOk(m, a, g); }
  }

  lemma RunnerOk(m: Mem, a: nat, g: Agent, c: Choice)
    requires RunnerSide(g.at)
    requires HistoryOk(m) && SlotsOk(m) && AgentOk(m, a, g)
    ensures StepOk(m, a, StepLocal(m, a, g, c).0, StepLocal(m, a, g, c).1)
  {
    assert |m.history| > 0 && m.history[|m.history| - 1] == m.link;
    // The case split needs no definition but `StepLocal`.
    hide HistoryOk, SlotsOk, AgentOk, StepOk, IDLE, StepIdle, StepLink, StepEpoch, StepCheckUp, StepCheckEpoch,
         StepDrop, StepRelease, StepClaim, StepHold, StepReserve, StepRxToken, StepRxUse, StepTxToken, StepPublish,
         StepPush, StepCopy, StepFill, StepStale, StepTake, StepLease, StepSlice, StepRead, StepReturn;
    match g.at
    case Pushing(p) => if p.PushReady? { PushReadyOk(m, a, g); } else { PushOk(m, a, g); }
    case PushCopy => CopyOk(m, a, g);
    case Filling(_) => FillOk(m, a, g);
    case Staling(_) => StaleOk(m, a, g);
    case Taking(_) => TakeOk(m, a, g);
    case Lease => LeaseOk(m, a, g, c);
    case Slicing(_) => SliceOk(m, a, g);
    case SliceBody => ReadOk(m, a, g, c);
    case Returning(_) => ReturnOk(m, a, g);
  }

  lemma SharedOk(m: Mem, a: nat, g: Agent, c: Choice)
    requires !ClientSide(g.at) && !RunnerSide(g.at)
    requires HistoryOk(m) && SlotsOk(m) && AgentOk(m, a, g)
    ensures StepOk(m, a, StepLocal(m, a, g, c).0, StepLocal(m, a, g, c).1)
  {
    assert |m.history| > 0 && m.history[|m.history| - 1] == m.link;
    // The case split needs no definition but `StepLocal`.
    hide HistoryOk, SlotsOk, AgentOk, StepOk, IDLE, StepIdle, StepLink, StepEpoch, StepCheckUp, StepCheckEpoch,
         StepDrop, StepRelease, StepClaim, StepHold, StepReserve, StepRxToken, StepRxUse, StepTxToken, StepPublish,
         StepPush, StepCopy, StepFill, StepStale, StepTake, StepLease, StepSlice, StepRead, StepReturn;
    match g.at
    case Idle => IdleOk(m, a, g, c);
    case CheckUp(_) => CheckUpOk(m, a, g);
    case CheckEpoch(_) => CheckEpochOk(m, a, g);
    case Linking(_) => LinkOk(m, a, g);
    case Reading(_) => EpochOk(m, a, g);
    case Dropping(_) => DropOk(m, a, g);
    case Releasing(_) => ReleaseOk(m, a, g);
  }

  ghost predicate Inv(s: State) {
    && HistoryOk(s.mem)
    && SlotsOk(s.mem)
    && LogsOk(s.mem)
    && forall a: nat :: AgentOk(s.mem, a, Get(s, a))
  }

  lemma InitOk(size: nat)
    ensures Inv(Init(size))
  {
  }

  lemma RecordOk(m: Mem, m': Mem, a: nat)
    requires HistoryOk(m) && SlotsOk(m') && LogsOk(m') && Stable(m, m', a) && m'.history == m.history
    ensures HistoryOk(Record(m')) && SlotsOk(Record(m')) && LogsOk(Record(m'))
    ensures Stable(m, Record(m'), a)
  {
    var h := Record(m').history;
    assert m.history <= h;
    assert forall i | 0 <= i < |m.history| :: h[i] == m.history[i];
    LogsKept(m', Record(m'));
  }

  lemma ExecOk(s: State, a: nat, c: Choice)
    requires Inv(s)
    ensures Inv(Exec(s, a, c))
  {
    var g := Get(s, a);
    if g.at.BothTokens? && c.MoveTx? {
      MoveOk(s, a, c);
    } else {
      var (m, next) := StepLocal(s.mem, a, g, c);
      assert AgentOk(s.mem, a, g);
      if ClientSide(g.at) { ClientOk(s.mem, a, g, c); }
      else if RunnerSide(g.at) { RunnerOk(s.mem, a, g, c); }
      else { SharedOk(s.mem, a, g, c); }
      AdvanceOk(s, a, m, next, Exec(s, a, c).pushes);
    }
  }

  lemma AdvanceOk(s: State, a: nat, m: Mem, next: Agent, pushes: seq<Pushed>)
    requires Inv(s) && StepOk(s.mem, a, m, next)
    ensures Inv(State(Record(m), s.agents[a := next], pushes))
  {
    LogsKept(s.mem, m);
    RecordOk(s.mem, m, a);
    var t := State(Record(m), s.agents[a := next], pushes);
    forall b: nat ensures AgentOk(t.mem, b, Get(t, b)) {
      if b == a {
        OthersKeepTheirs(m, Record(m), a + 1, a, next);
      } else {
        assert AgentOk(s.mem, b, Get(s, b));
        OthersKeepTheirs(s.mem, t.mem, a, b, Get(s, b));
      }
    }
  }

  /** Handing the TX token to agent `b` changes who holds the slot, nothing else. */
  lemma MovedOk(m: Mem, a: nat, b: nat, g: Agent)
    requires g.at.BothTokens? && AgentOk(m, a, g) && AgentOk(m, b, IDLE) && SlotsOk(m) && a != b
    ensures var m' := m.(tx := m.tx.(owner := Some(b)));
            && SlotsOk(m')
            && AgentOk(m', a, g.(at := RxToken(RxTok), tx := NoHold))
            && AgentOk(m', b, g.(at := TxToken(TxTok), rx := NoHold))
            && forall x: nat, o | x != a && x != b && AgentOk(m, x, o) :: AgentOk(m', x, o)
  {
    var m' := m.(tx := m.tx.(owner := Some(b)));
    forall x: nat, o | x != a && x != b && AgentOk(m, x, o) ensures AgentOk(m', x, o) {
      assert o.tx == NoHold;
    }
  }

  lemma OtherThanIdle(s: State, a: nat, b: nat)
    requires Get(s, a).at.BothTokens? && Get(s, b) == IDLE
    ensures a != b
  {
  }

  lemma MoveRecorded(m: Mem, b: nat, x: nat)
    requires HistoryOk(m) && LogsOk(m) && SlotsOk(m.(tx := m.tx.(owner := Some(b))))
    ensures var r := Record(m.(tx := m.tx.(owner := Some(b))));
            HistoryOk(r) && SlotsOk(r) && LogsOk(r) && Stable(m.(tx := m.tx.(owner := Some(b))), r, x)
  {
    var m' := m.(tx := m.tx.(owner := Some(b)));
    LogsKept(m, m');
    RecordOk(m', m', x);
  }

  lemma MoveOk(s: State, a: nat, c: Choice)
    requires Inv(s) && Get(s, a).at.BothTokens? && c.MoveTx?
    ensures Inv(Exec(s, a, c))
  {
    hide AgentOk, SlotsOk, LogsOk, HistoryOk, Stable, Record, StepLocal;
    var g := Get(s, a);
    assert AgentOk(s.mem, a, g) && AgentOk(s.mem, c.to, Get(s, c.to));
    if Get(s, c.to) == IDLE {
      var m := s.mem.(tx := s.mem.tx.(owner := Some(c.to)));
      OtherThanIdle(s, a, c.to);
      MovedOk(s.mem, a, c.to, g);
      MoveRecorded(s.mem, c.to, 0);
      var t := Exec(s, a, c);
      forall b: nat ensures AgentOk(t.mem, b, Get(t, b)) {
        assert AgentOk(s.mem, b, Get(s, b));
        MoveRecorded(s.mem, c.to, b + 1);
        OthersKeepTheirs(m, t.mem, b + 1, b, Get(t, b));
      }
    }
  }

  lemma {:induction false} RunOk(s: State, schedule: seq<(nat, Choice)>)
    requires Inv(s)
    ensures Inv(Run(s, schedule))
    decreases |schedule|
  {
    if schedule != [] {
      ExecOk(s, schedule[0].0, schedule[0].1);
      RunOk(Exec(s, schedule[0].0, schedule[0].1), schedule[1..]);
    }
  }

  // -------------------------------------------------------------- theorems

  predicate HoldsRx(s: State, a: nat) {
    Get(s, a).rx != NoHold
  }

  predicate HoldsTx(s: State, a: nat) {
    Get(s, a).tx != NoHold
  }

  /** A running `RxToken` callback, or `push_rx` filling the slot. */
  predicate WritesRx(at: At) {
    at == RxUse(RxBody) || at.PushCopy? || at.Filling?
  }

  /** A running `TxToken` callback, or a live slice of a lease. */
  predicate ViewsTx(at: At) {
    at == TxToken(TxBody) || at.SliceBody?
  }

  lemma HoldersAreOwners(s: State, a: nat)
    requires Inv(s)
    ensures HoldsRx(s, a) <==> s.mem.rx.owner == Some(a)
    ensures HoldsTx(s, a) <==> s.mem.tx.owner == Some(a)
    ensures WritesRx(Get(s, a).at) ==> HoldsRx(s, a)
    ensures ViewsTx(Get(s, a).at) ==> HoldsTx(s, a)
  {
    assert AgentOk(s.mem, a, Get(s, a));
  }

  /** A slot in CLIENT or PRODUCER has exactly one holder, a slot in FREE or READY
      has none, and whoever has a view of a buffer is its holder. So no two
      mutable views of one buffer, and no mutable view beside a live slice. */
  lemma ExclusiveOwnership(size: nat, schedule: seq<(nat, Choice)>)
    ensures var s := Run(Init(size), schedule);
            && (s.mem.rx.state in {Client, Producer} <==> exists a: nat :: HoldsRx(s, a))
            && (s.mem.tx.state in {Client, Producer} <==> exists a: nat :: HoldsTx(s, a))
            && (forall a: nat, b: nat | HoldsRx(s, a) && HoldsRx(s, b) :: a == b)
            && (forall a: nat, b: nat | HoldsTx(s, a) && HoldsTx(s, b) :: a == b)
            && (forall a: nat | WritesRx(Get(s, a).at) :: HoldsRx(s, a))
            && (forall a: nat | ViewsTx(Get(s, a).at) :: HoldsTx(s, a))
  {
    InitOk(size);
    RunOk(Init(size), schedule);
    var s := Run(Init(size), schedule);
    assert SlotsOk(s.mem);
    var rx, tx := s.mem.rx, s.mem.tx;
    assert rx.owner.Some? <==> rx.state in {Client, Producer};
    assert tx.owner.Some? <==> tx.state in {Client, Producer};
    hide Inv, SlotsOk, Get, HoldsRx, HoldsTx, WritesRx, ViewsTx, Run, Init;
    forall a: nat
      ensures HoldsRx(s, a) <==> rx.owner == Some(a)
      ensures HoldsTx(s, a) <==> tx.owner == Some(a)
      ensures WritesRx(Get(s, a).at) ==> HoldsRx(s, a)
      ensures ViewsTx(Get(s, a).at) ==> HoldsTx(s, a)
    {
      HoldersAreOwners(s, a);
    }
    assert rx.owner.Some? ==> HoldsRx(s, rx.owner.value);
    assert tx.owner.Some? ==> HoldsTx(s, tx.owner.value);
  }

  /** In every reachable state, only the holder of a slot can change its buffer,
      its length word or its epoch word. */
  lemma OnlyTheHolderWrites(size: nat, schedule: seq<(nat, Choice)>, a: nat, c: Choice)
    ensures var s := Run(Init(size), schedule);
            var t := Exec(s, a, c);
            && ((t.mem.rx.buf, t.mem.rx.len, t.mem.rx.epoch) != (s.mem.rx.buf, s.mem.rx.len, s.mem.rx.epoch)
                ==> HoldsRx(s, a))
            && ((t.mem.tx.buf, t.mem.tx.len, t.mem.tx.epoch) != (s.mem.tx.buf, s.mem.tx.len, s.mem.tx.epoch)
                ==> HoldsTx(s, a))
  {
    InitOk(size);
    RunOk(Init(size), schedule);
    var s := Run(Init(size), schedule);
    assert AgentOk(s.mem, a, Get(s, a));
    WritesNeedHold(s.mem, a, Get(s, a), c);
  }

  ghost predicate WritesHeld(m: Mem, g: Agent, m': Mem) {
    && (g.rx == NoHold ==> (m'.rx.buf, m'.rx.len, m'.rx.epoch) == (m.rx.buf, m.rx.len, m.rx.epoch))
    && (g.tx == NoHold ==> (m'.tx.buf, m'.tx.len, m'.tx.epoch) == (m.tx.buf, m.tx.len, m.tx.epoch))
  }

  lemma ClientWrites(m: Mem, a: nat, g: Agent, c: Choice)
    requires AgentOk(m, a, g) && ClientSide(g.at)
    ensures WritesHeld(m, g, StepLocal(m, a, g, c).0)
  {
  }

  lemma OtherWrites(m: Mem, a: nat, g: Agent, c: Choice)
    requires AgentOk(m, a, g) && !ClientSide(g.at)
    ensures WritesHeld(m, g, StepLocal(m, a, g, c).0)
  {
  }

  lemma WritesNeedHold(m: Mem, a: nat, g: Agent, c: Choice)
    requires AgentOk(m, a, g)
    ensures WritesHeld(m, g, StepLocal(m, a, g, c).0)
  {
    hide StepLocal, WritesHeld, AgentOk;
    if ClientSide(g.at) {
      ClientWrites(m, a, g, c);
    } else {
      OtherWrites(m, a, g, c);
    }
  }

  /** Non-empty bytes given to an `RxToken` callback are exactly one frame that
      `push_rx` stored READY in the token's epoch; the link was up in that epoch
      at an instant inside the `consume` call; and no stored frame is given to
      two callbacks. */
  lemma ReceivedFramesAreExact(size: nat, schedule: seq<(nat, Choice)>)
    ensures var m := Run(Init(size), schedule).mem;
            && (forall h | h in m.deliveries && h.bytes != [] ::
                  && h.frame < |m.accepted|
                  && m.accepted[h.frame] == Frame(h.epoch, h.bytes)
                  && h.since <= h.seen <= h.until < |m.history|
                  && m.history[h.seen] == Link(true, h.epoch))
            && (forall i, j | 0 <= i < j < |m.deliveries| :: m.deliveries[i].frame != m.deliveries[j].frame)
  {
    InitOk(size);
    RunOk(Init(size), schedule);
  }

  /** Non-empty bytes read through a `TxLease` are exactly the frame one
      `TxToken::consume` published in the lease's epoch, however late they are
      read; and the link was up in that epoch at an instant inside `as_slice`. */
  lemma LeasedFramesAreExact(size: nat, schedule: seq<(nat, Choice)>)
    ensures var m := Run(Init(size), schedule).mem;
            forall h | h in m.readings && h.bytes != [] ::
              && h.frame < |m.published|
              && m.published[h.frame] == Frame(h.epoch, h.bytes)
              && h.since <= h.seen <= h.until < |m.history|
              && m.history[h.seen] == Link(true, h.epoch)
  {
    InitOk(size);
    RunOk(Init(size), schedule);
  }

  /** A published frame is reported `Submitted` or `Dropped` at most once, and
      only after it was published. */
  lemma AtMostOneFinalReport(size: nat, schedule: seq<(nat, Choice)>)
    ensures var m := Run(Init(size), schedule).mem;
            && (forall i, j | 0 <= i < j < |m.finals| :: m.finals[i].frame != m.finals[j].frame)
            && (forall f | f in m.finals :: f.frame < |m.published|)
  {
    InitOk(size);
    RunOk(Init(size), schedule);
  }
}
