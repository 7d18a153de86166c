/** The fail-closed production driver (src/production.rs): recovery policy and
    controlled port over the native driver. */
module Production {
  import opened Bytes
  import opened DeviceTypes
  import opened Driver
  import EventBus
  import EventQueue
  import opened Station
  import opened Wrappers

  datatype Operation = Control | Event | ReceiveOp | TransmitOp | Watchdog

  datatype ProductionError =
    | DriverError(driver: Driver.DriverError)
    | StationError(station: Station.StationError)
    | InvalidEthernetFrame
    | PortClosed(etherType: nat)

  datatype PStep<T> = PStep(n: Native, result: Result<T, ProductionError>)

  // ---------------------------------------------------------- recovery policy

  predicate DeviceNeedsRecovery(e: DeviceError) {
    || e == Rpu || e == NotInitialized || e == InvalidQueueMap || e == CommandDeliveryUncertain
    || e == RecoveryRequired || e == EventTooLarge
  }

  predicate StationNeedsRecovery(e: Station.StationError) {
    e.Faulted? || (e.Device? && DeviceNeedsRecovery(e.device))
  }

  predicate IsInput(op: Operation) {
    op == ReceiveOp || op == Event
  }

  predicate DataNeedsRecovery(e: DataError, op: Operation) {
    match e
    case DataDevice(error) => DeviceNeedsRecovery(error)
    case DataMalformed => IsInput(op)
    case NoTransmitToken => false
    case OutputTooSmall => false
    case _ => true
  }

  predicate NeedsRecovery(e: Driver.DriverError, op: Operation) {
    match e
    case DeviceFailed(error) => DeviceNeedsRecovery(error)
    case DataFailed(error) => DataNeedsRecovery(error, op)
    case StationFailed(error) => StationNeedsRecovery(error)
    case WrongInterface(_) => IsInput(op)
    case WrongState(_, _) => false
    case FrameTooShort => false
    case ControlledPortClosed(_) => false
    case _ => true
  }

  // -------------------------------------------------------------- transitions

  function Finish<T>(s: Step<T>, op: Operation): PStep<T> {
    match s.result
    case Ok(value) => PStep(s.n, Ok(value))
    case Err(e) => PStep(if NeedsRecovery(e, op) then EnterRecovery(s.n) else s.n, Err(DriverError(e)))
  }

  function Unready<T>(n: Native): PStep<T> {
    PStep(n, Err(DriverError(WrongState(n.state, Ready))))
  }

  /** The station commands the production API offers. */
  predicate Offered(c: Command) {
    !c.Security?
  }

  function Run(ids: Ids, n: Native, c: Command, io: Submission): PStep<()> {
    if n.state != Ready then Unready(n)
    else
      var o := Submit(ids, n.station, c, io);
      var after := n.(station := o.s);
      match o.error
      case None => PStep(after, Ok(()))
      case Some(e) => PStep(if StationNeedsRecovery(e) then EnterRecovery(after) else after, Err(StationError(e)))
  }

  /** `frame_allowed`. */
  predicate Allowed(s: Controller, etherType: nat) {
    PortOpen(s) || (etherType == EAPOL && EapolRequired(s))
  }

  function Send(ids: Ids, n: Native, wdevId: nat, frame: seq<byte>, io: Result<nat, DataError>): PStep<nat> {
    if n.state != Ready then Unready(n)
    else if |frame| < 14 then PStep(n, Err(InvalidEthernetFrame))
    else if !Allowed(n.station, EtherType(frame)) then PStep(n, Err(PortClosed(EtherType(frame))))
    else Finish(Transmit(ids, n, wdevId, frame, io), TransmitOp)
  }

  /** `receive_packet`; the second component is the caller's buffer. */
  function Take(ids: Ids, n: Native, wdevId: nat, io: Result<ReceivedFrame, DataError>, copied: seq<byte>)
    : (PStep<ReceivedFrame>, seq<byte>)
  {
    if n.state != Ready then (Unready(n), copied)
    else
      var s := Receive(ids, n, wdevId, io);
      match s.result
      case Ok(frame) =>
        if Allowed(s.n.station, frame.etherType) then (PStep(s.n, Ok(frame)), copied)
        else (PStep(s.n, Err(PortClosed(frame.etherType))), Wiped(copied, frame.len))
      case Err(ControlledPortClosed(etherType)) =>
        (PStep(s.n, Err(PortClosed(etherType))), Wiped(copied, |copied|))
      case Err(e) => (Finish(s, ReceiveOp), copied)
  }

  function Wiped(buffer: seq<byte>, len: nat): (w: seq<byte>)
    ensures |w| == |buffer|
  {
    if len <= |buffer| then Zeros(len) + buffer[len..] else buffer
  }

  // --------------------------------------------------------- reachable states

  /** A driver that is not ready has a closed and idle station. */
  predicate Quiet(s: Controller) {
    s.link == UNLINKED && (s.state == Down || s.state == Recovering)
  }

  predicate Closed(n: Native) {
    n.state != Ready ==> Quiet(n.station)
  }

  predicate Recovered(before: Native, after: Native) {
    after.state == InRecovery && Quiet(after.station) && after.mac.None?
  }

  datatype Call =
    | CallRecover(mac: Option<seq<byte>>)
    | CallRun(command: Command, io: Submission)
    | CallTimeouts(timeouts: StationTimeouts)
    | CallTick(elapsed: nat)
    | CallPoll(read: EventRead)
    | CallReceive(wdevId: nat, received: Result<ReceivedFrame, DataError>, copied: seq<byte>)
    | CallTransmit(wdevId: nat, frame: seq<byte>, token: Result<nat, DataError>)
    | CallWatchdog(watchdog: WatchdogRead)
    | CallAcknowledge(written: bool)

  datatype Reply = Reply(n: Native, error: Option<ProductionError>)

  function Replied<T>(s: PStep<T>): Reply {
    Reply(s.n, if s.result.Err? then Some(s.result.error) else None)
  }

  predicate CallOk(c: Call) {
    c.CallRun? ==> Offered(c.command)
  }

  /** One call of the public API. A failed `recover` reports its own error. */
  function Perform(ids: Ids, n: Native, c: Call): Reply {
    match c
    case CallRecover(mac) => Reply(Recover(n, mac), None)
    case CallRun(command, io) => Replied(Run(ids, n, command, io))
    case CallTimeouts(t) => Reply(n.(station := Retimed(n.station, t)), None)
    case CallTick(elapsed) => Replied(Finish(AdvanceTime(n, elapsed), Control))
    case CallPoll(read) => Replied(Finish(Poll(ids, n, read), Event))
    case CallReceive(wdevId, received, copied) => Replied(Take(ids, n, wdevId, received, copied).0)
    case CallTransmit(wdevId, frame, token) => Replied(Send(ids, n, wdevId, frame, token))
    case CallWatchdog(io) => Replied(Finish(WatchdogPending(n, io), Watchdog))
    case CallAcknowledge(written) => Replied(Finish(AcknowledgeWatchdog(n, written), Watchdog))
  }

  function Performed(ids: Ids, calls: seq<Call>): Native {
    if calls == [] then NewDriver()
    else Perform(ids, Performed(ids, calls[..|calls| - 1]), calls[|calls| - 1]).n
  }

  ghost predicate CallsOk(calls: seq<Call>) {
    forall i | 0 <= i < |calls| :: CallOk(calls[i])
  }

  lemma RecoveryIsQuiet(n: Native)
    ensures Quiet(EnterRecovery(n).station) && Recovered(n, EnterRecovery(n))
  {
  }

  /** Events change a quiet station of a driver that is not ready only by
      finishing or restarting recovery. */
  lemma PollKeepsClosed(ids: Ids, n: Native, read: EventRead)
    requires Closed(n)
    ensures Closed(Poll(ids, n, read).n)
  {
    hide OnControl, OnData;
  }

  lemma TickKeepsClosed(n: Native, elapsed: nat)
    requires Closed(n)
    ensures Closed(AdvanceTime(n, elapsed).n)
  {
  }

  /** Every call keeps the driver closed unless it is ready. */
  lemma PerformKeepsClosed(ids: Ids, n: Native, c: Call)
    requires Closed(n)
    ensures Closed(Perform(ids, n, c).n)
  {
    hide Poll, AdvanceTime, Submit, DataNeedsRecovery, StationNeedsRecovery, PortAdmits, Timeout;
    match c
    case CallPoll(read) => PollKeepsClosed(ids, n, read);
    case CallTick(elapsed) => TickKeepsClosed(n, elapsed);
    case _ =>
  }

  /** Fail closed: in every reachable state the controlled port is open only
      if the driver is ready, and a driver that is not ready has a station with
      no peer, no authorization and no carrier, down or recovering. */
  lemma {:induction false} PortOpenOnlyWhenReady(ids: Ids, calls: seq<Call>)
    requires CallsOk(calls)
    ensures var n := Performed(ids, calls);
            Closed(n) && (PortOpen(n.station) ==> n.state == Ready)
    decreases |calls|
  {
    if calls != [] {
      hide Perform;
      PortOpenOnlyWhenReady(ids, calls[..|calls| - 1]);
      PerformKeepsClosed(ids, Performed(ids, calls[..|calls| - 1]), calls[|calls| - 1]);
    }
  }

  lemma PollErrors(ids: Ids, n: Native, read: EventRead)
    requires Poll(ids, n, read).result.Err?
    ensures var s := Poll(ids, n, read); s.n == n || Recovered(n, s.n)
  {
    hide OnControl, OnData;
  }

  lemma SubmitErrors(ids: Ids, s: Controller, c: Command, io: Submission)
    requires Submit(ids, s, c, io).error.Some?
    ensures var o := Submit(ids, s, c, io); o.s == s || StationNeedsRecovery(o.error.value)
  {
  }

  /** What an error leaves behind: either nothing changed, or the driver is in
      recovery with the port closed and no station configured. */
  lemma ErrorsChangeNothingOrRecover(ids: Ids, n: Native, c: Call)
    requires Perform(ids, n, c).error.Some?
    ensures var after := Perform(ids, n, c).n;
            after == n || (Recovered(n, after) && !PortOpen(after.station))
  {
    hide Poll, Submit, StationNeedsRecovery, DataNeedsRecovery, DeviceNeedsRecovery, PortAdmits, Timeout;
    match c
    case CallPoll(read) => PollErrors(ids, n, read);
    case CallRun(command, io) =>
      if n.state == Ready { SubmitErrors(ids, n.station, command, io); }
    case _ =>
  }

  /** A bus error while an event is read never changes the native driver, even
      where reassembly does not survive it; here every one forces recovery. */
  lemma BrokenReadRecovers<Id>(ids: Ids, n: Native, f: nat, p: Option<EventQueue.Pending<Id>>, id: Id,
                               scratch: seq<byte>, avail: seq<EventQueue.Fragment>, io: EventBus.Io)
    requires EventQueue.LimitOk(f) && EventQueue.FragmentsOk(f, avail)
    requires p.Some? ==> p.value.copied < p.value.declared
    requires EventBus.ReadOver(f, p, id, scratch, avail, io).Broken?
    ensures var e := EventBus.ReadOver(f, p, id, scratch, avail, io).error;
            && Poll(ids, n, Unreadable(e)).n == n
            && Recovered(n, Perform(ids, n, CallPoll(Unreadable(e))).n)
  {
    hide EventBus.ReadOver;
    EventBus.ReadKeptOk(f, p, id, scratch, avail, io);
  }

  /** The watchdog fault that the native layer leaves open is closed here. */
  lemma WatchdogFaultRecovers(ids: Ids, n: Native)
    ensures Recovered(n, Perform(ids, n, CallWatchdog(OnlySentinels)).n)
  {
  }

  /** A frame reaches the packet queue exactly when the driver is ready and the
      controlled port admits its EtherType. EAPOL never passes on an open
      network, although `frame_allowed` would let it. */
  lemma TransmitExactly(ids: Ids, n: Native, wdevId: nat, frame: seq<byte>, io: Result<nat, DataError>)
    ensures Send(ids, n, wdevId, frame, io).result.Ok? <==>
            && n.state == Ready && wdevId == ids.wdevId && |frame| >= 14 && io.Ok?
            && if EtherType(frame) == EAPOL then EapolRequired(n.station) else PortOpen(n.station)
    ensures Send(ids, n, wdevId, frame, io).result.Ok? ==>
              Send(ids, n, wdevId, frame, io) == PStep(n, Ok(io.value))
  {
  }

  /** A packet is handed to the caller exactly when the driver is ready and the
      controlled port admits it; a packet the port rejects leaves only zeros in
      the caller's buffer and changes nothing else. */
  lemma ReceiveExactly(ids: Ids, n: Native, wdevId: nat, frame: ReceivedFrame, copied: seq<byte>)
    requires n.state == Ready && wdevId == ids.wdevId
    ensures var (s, buffer) := Take(ids, n, wdevId, Ok(frame), copied);
            && s.n == n
            && if PortAdmits(n.station, frame.etherType)
               then s.result == Ok(frame) && buffer == copied
               else s.result == Err(PortClosed(frame.etherType)) && buffer == Zeros(|copied|)
  {
    assert Wiped(copied, |copied|) == Zeros(|copied|);
  }

  // --------------------------------------------------------------- the object

  class MissionCriticalDriver {
    const inner: NativeDriver

    function Value(): Native
      reads inner, inner.station
    {
      inner.Value()
    }

    predicate Valid() {
      inner.Valid()
    }

    constructor (ids: Ids)
      ensures Valid() && inner.ids == ids && fresh(inner) && fresh(inner.station) && Value() == NewDriver()
    {
      inner := new NativeDriver(ids);
    }

    method Restore(initialized: Option<seq<byte>>)
      modifies inner, inner.station
      ensures Value() == Recover(old(Value()), initialized)
    {
      inner.RunRecovery(initialized);
    }

    method SetStationTimeouts(t: StationTimeouts)
      modifies inner.station
      ensures Value() == old(Value()).(station := Retimed(old(Value()).station, t))
    {
      inner.station.SetTimeouts(t);
    }

    method FinishDriver<T>(r: Result<T, Driver.DriverError>, op: Operation) returns (p: Result<T, ProductionError>)
      modifies inner, inner.station
      ensures PStep(Value(), p) == Finish(Step(old(Value()), r), op)
    {
      if r.Ok? {
        return Ok(r.value);
      }
      if NeedsRecovery(r.error, op) {
        inner.StartRecovery();
      }
      p := Err(DriverError(r.error));
    }

    method StationCommand(c: Command, io: Submission) returns (p: Result<(), ProductionError>)
      requires Valid() && Offered(c)
      modifies inner, inner.station
      ensures PStep(Value(), p) == Run(inner.ids, old(Value()), c, io)
    {
      hide Submit;
      if inner.state != Ready {
        return Err(DriverError(WrongState(inner.state, Ready)));
      }
      var error := inner.station.Run(c, io);
      if error.None? {
        return Ok(());
      }
      if StationNeedsRecovery(error.value) {
        inner.StartRecovery();
      }
      p := Err(StationError(error.value));
    }

    method Tick(elapsed: nat) returns (p: Result<(), ProductionError>)
      requires Valid()
      modifies inner, inner.station
      ensures PStep(Value(), p) == Finish(AdvanceTime(old(Value()), elapsed), Control)
    {
      var r := inner.Tick(elapsed);
      p := FinishDriver(r, Control);
    }

    method PollEvent(read: EventRead) returns (p: Result<Option<DriverEvent>, ProductionError>)
      requires Valid()
      modifies inner, inner.station
      ensures PStep(Value(), p) == Finish(Poll(inner.ids, old(Value()), read), Event)
    {
      hide Poll;
      var r := inner.PollEvent(read);
      p := FinishDriver(r, Event);
    }

    predicate FrameAllowed(etherType: nat)
      reads inner.station
      ensures FrameAllowed(etherType) == Allowed(inner.station.Value(), etherType)
    {
      inner.station.ControlledPortOpen() || (etherType == EAPOL && inner.station.IsEapolRequired())
    }

    /** The caller's buffer already holds the copied packet. */
    method ReceivePacket(wdevId: nat, io: Result<ReceivedFrame, DataError>, output: array<byte>)
      returns (p: Result<ReceivedFrame, ProductionError>)
      requires Valid()
      modifies inner, inner.station, output
      ensures (PStep(Value(), p), output[..]) == Take(inner.ids, old(Value()), wdevId, io, old(output[..]))
    {
      hide PortAdmits, PortOpen, EapolRequired, NeedsRecovery;
      if inner.state != Ready {
        return Err(DriverError(WrongState(inner.state, Ready)));
      }
      var r := inner.ReceivePacket(wdevId, io);
      match r {
        case Ok(frame) =>
          if FrameAllowed(frame.etherType) {
            return Ok(frame);
          }
          Wipe(output, frame.len);
          p := Err(PortClosed(frame.etherType));
        case Err(ControlledPortClosed(etherType)) =>
          Wipe(output, output.Length);
          p := Err(PortClosed(etherType));
        case Err(e) => p := FinishDriver(r, ReceiveOp);
      }
    }

    method TransmitFrame(wdevId: nat, frame: seq<byte>, io: Result<nat, DataError>)
      returns (p: Result<nat, ProductionError>)
      requires Valid()
      modifies inner, inner.station
      ensures PStep(Value(), p) == Send(inner.ids, old(Value()), wdevId, frame, io)
    {
      hide PortAdmits, PortOpen, EapolRequired, NeedsRecovery;
      if inner.state != Ready {
        return Err(DriverError(WrongState(inner.state, Ready)));
      }
      if |frame| < 14 {
        return Err(InvalidEthernetFrame);
      }
      if !FrameAllowed(EtherType(frame)) {
        return Err(PortClosed(EtherType(frame)));
      }
      var r := inner.TransmitFrame(wdevId, frame, io);
      p := FinishDriver(r, TransmitOp);
    }

    method ReadWatchdog(io: WatchdogRead) returns (p: Result<bool, ProductionError>)
      modifies inner, inner.station
      ensures PStep(Value(), p) == Finish(WatchdogPending(old(Value()), io), Watchdog)
    {
      var r := inner.ReadWatchdog(io);
      p := FinishDriver(r, Watchdog);
    }

    method ClearWatchdog(written: bool) returns (p: Result<(), ProductionError>)
      modifies inner, inner.station
      ensures PStep(Value(), p) == Finish(AcknowledgeWatchdog(old(Value()), written), Watchdog)
    {
      var r := inner.ClearWatchdog(written);
      p := FinishDriver(r, Watchdog);
    }
  }

  method Wipe(buffer: array<byte>, len: nat)
    modifies buffer
    ensures buffer[..] == Wiped(old(buffer[..]), len)
  {
    if len <= buffer.Length {
      forall k | 0 <= k < len {
        buffer[k] := 0;
      }
    }
  }
}
