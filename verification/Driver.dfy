/** Event dispatch, watchdog and recovery of the native driver
    (src/runtime.rs). Firmware, bus and packet-RAM results are inputs. */
module Driver {
  import opened Bytes
  import opened DeviceTypes
  import opened Station
  import opened Wrappers

  datatype DriverState = Cold | InRecovery | WaitingForSystemInit | Ready | DriverFault

  datatype DriverError =
    | DeviceFailed(device: DeviceError)
    | DataFailed(data: DataError)
    | StationFailed(station: StationError)
    | DataProtocol
    | ProtocolFailed
    | WrongState(current: DriverState, required: DriverState)
    | WrongInterface(received: nat)
    | FrameTooShort
    | ControlledPortClosed(etherType: nat)
    | UnexpectedEventForState(state: DriverState)
    | InvalidWatchdogStatus

  /** The whole driver, as far as the controlled port is concerned. */
  datatype Native = Native(state: DriverState, station: Controller, mac: Option<seq<byte>>)

  datatype Step<T> = Step(n: Native, result: Result<T, DriverError>)

  datatype SystemEvent = UnreadableSystem | InitDone | DeinitDone | OtherSystem

  datatype TxResult = TxResult(token: nat, statuses: seq<nat>)

  datatype DataMessage =
    | UnreadableData
    | TxDoneData(done: TxResult, known: bool)
    | ReceiveData(readable: bool)
    | LinkData(link: LinkEvent)

  datatype Message =
    | SystemMessage(system: SystemEvent)
    | ControlMessage(control: Option<ControlEvent>)
    | DataMessageOf(data: DataMessage)
    | SupplicantMessage

  datatype DriverEvent =
    | SystemDone(system: SystemEvent)
    | ControlDone(control: ControlEvent)
    | LinkDone(link: LinkEvent)
    | TransmitDone(done: TxResult)
    | ReceiveReady
    | SupplicantDone

  /** What one read of the event queue gives. */
  datatype EventRead = Unrecovered | Unreadable(error: DeviceError) | NoEvent | Read(message: Message)

  datatype WatchdogRead = WatchdogUnreadable | OnlySentinels | WatchdogStatus(pending: bool)

  const EAPOL := 0x888e

  // -------------------------------------------------------------- transitions

  function NewDriver(): Native {
    Native(Cold, Station.New(), None)
  }

  function EnterRecovery(n: Native): Native {
    Native(InRecovery, BeginRecovery(n.station), None)
  }

  /** `recover`: system initialization has been sent, or recovery failed. */
  function Recover(n: Native, mac: Option<seq<byte>>): Native {
    Native(if mac.Some? then WaitingForSystemInit else DriverFault, BeginRecovery(n.station), mac)
  }

  function Refused<T>(n: Native, e: DriverError): Step<T> {
    Step(n, Err(e))
  }

  /** A station error during dispatch is always followed by recovery. */
  function Dispatched(n: Native, o: Outcome, event: DriverEvent): Step<DriverEvent> {
    if o.error.Some?
    then Step(EnterRecovery(n.(station := o.s)), Err(StationFailed(o.error.value)))
    else Step(n.(station := o.s), Ok(event))
  }

  function AdvanceTime(n: Native, elapsed: nat): Step<()> {
    var o := Advance(n.station, elapsed);
    if o.error.Some?
    then Step(EnterRecovery(n.(station := o.s)), Err(StationFailed(o.error.value)))
    else Step(n.(station := o.s), Ok(()))
  }

  /** `poll_event`. */
  function Poll(ids: Ids, n: Native, read: EventRead): Step<Option<DriverEvent>> {
    match read
    case Unrecovered => Step(EnterRecovery(n), Err(DeviceFailed(RecoveryRequired)))
    case Unreadable(e) => Refused(n, DeviceFailed(e))
    case NoEvent => Step(n, Ok(None))
    case Read(m) =>
      var d := Dispatch(ids, n, m);
      Step(d.n, if d.result.Ok? then Ok(Some(d.result.value)) else Err(d.result.error))
  }

  /** `dispatch_message`. */
  function Dispatch(ids: Ids, n: Native, m: Message): Step<DriverEvent> {
    match m
    case SystemMessage(e) => DispatchSystem(n, e)
    case _ =>
      if n.state != Ready then Refused(n, WrongState(n.state, Ready))
      else
        match m
        case ControlMessage(None) => Refused(n, ProtocolFailed)
        case ControlMessage(Some(e)) => Dispatched(n, OnControl(ids, n.station, e), ControlDone(e))
        case DataMessageOf(d) => DispatchData(ids, n, d)
        case _ => Step(n, Ok(SupplicantDone))
  }

  function DispatchSystem(n: Native, e: SystemEvent): Step<DriverEvent> {
    if e == UnreadableSystem then Refused(n, ProtocolFailed)
    else if e == InitDone && n.state == WaitingForSystemInit then
      Step(n.(state := Ready, station := RecoveryComplete(n.station)), Ok(SystemDone(e)))
    else if e == InitDone || e == DeinitDone then Step(EnterRecovery(n), Err(UnexpectedEventForState(n.state)))
    else Step(n, Ok(SystemDone(e)))
  }

  function DispatchData(ids: Ids, n: Native, d: DataMessage): Step<DriverEvent> {
    match d
    case UnreadableData => Refused(n, DataProtocol)
    case TxDoneData(done, known) => if known then Step(n, Ok(TransmitDone(done))) else Refused(n, DataProtocol)
    case ReceiveData(readable) => if readable then Step(n, Ok(ReceiveReady)) else Refused(n, DataProtocol)
    case LinkData(e) => Dispatched(n, OnData(ids, n.station, e), LinkDone(e))
  }

  /** `require_controlled_port`. */
  predicate PortAdmits(s: Controller, etherType: nat) {
    if etherType == EAPOL then EapolRequired(s) else PortOpen(s)
  }

  function Receive(ids: Ids, n: Native, wdevId: nat, io: Result<ReceivedFrame, DataError>): Step<ReceivedFrame> {
    match io
    case Err(e) => Refused(n, DataFailed(e))
    case Ok(frame) =>
      if wdevId != ids.wdevId then Step(EnterRecovery(n), Err(WrongInterface(wdevId)))
      else if !PortAdmits(n.station, frame.etherType) then Refused(n, ControlledPortClosed(frame.etherType))
      else Step(n, Ok(frame))
  }

  function EtherType(frame: seq<byte>): nat
    requires |frame| >= 14
  {
    FromBe16(frame[12], frame[13])
  }

  function Transmit(ids: Ids, n: Native, wdevId: nat, frame: seq<byte>, io: Result<nat, DataError>): Step<nat> {
    if wdevId != ids.wdevId then Refused(n, WrongInterface(wdevId))
    else if |frame| < 14 then Refused(n, FrameTooShort)
    else if !PortAdmits(n.station, EtherType(frame)) then Refused(n, ControlledPortClosed(EtherType(frame)))
    else if io.Err? then Refused(n, DataFailed(io.error))
    else Step(n, Ok(io.value))
  }

  function WatchdogPending(n: Native, io: WatchdogRead): Step<bool> {
    match io
    case WatchdogUnreadable => Refused(n, DeviceFailed(Rpu))
    case OnlySentinels => Step(n.(state := DriverFault), Err(InvalidWatchdogStatus))
    case WatchdogStatus(pending) => Step(n, Ok(pending))
  }

  function AcknowledgeWatchdog(n: Native, written: bool): Step<()> {
    if written then Step(EnterRecovery(n), Ok(())) else Refused(n, DeviceFailed(Rpu))
  }

  /** A watchdog check leaves the port open in a driver that is not ready if and
      only if the port was open, and either the driver was not ready before or
      the check read nothing but sentinels, which faults the driver without
      closing the port. The layer above turns that error into recovery. */
  lemma NativeWatchdogLeavesThePortOpen(n: Native, io: WatchdogRead)
    ensures var after := WatchdogPending(n, io).n;
            after.state != Ready && PortOpen(after.station) <==>
            PortOpen(n.station) && (n.state != Ready || io == OnlySentinels)
  {
  }

  // --------------------------------------------------------------- the object

  class NativeDriver {
    const ids: Ids
    const station: StationController
    var state: DriverState
    var mac: Option<seq<byte>>

    function Value(): Native
      reads this, station
    {
      Native(state, station.Value(), mac)
    }

    predicate Valid() {
      station.ids == ids
    }

    constructor (ids: Ids)
      ensures Valid() && this.ids == ids && fresh(station) && Value() == NewDriver()
    {
      this.ids := ids;
      station := new StationController(ids);
      state, mac := Cold, None;
    }

    method StartRecovery()
      modifies this, station
      ensures Value() == EnterRecovery(old(Value()))
    {
      station.StartRecovery();
      mac := None;
      state := InRecovery;
    }

    method RunRecovery(initialized: Option<seq<byte>>)
      modifies this, station
      ensures Value() == Recover(old(Value()), initialized)
    {
      state := InRecovery;
      station.StartRecovery();
      mac := None;
      if initialized.Some? {
        mac := initialized;
        state := WaitingForSystemInit;
      } else {
        state := DriverFault;
      }
    }

    method Tick(elapsed: nat) returns (r: Result<(), DriverError>)
      requires Valid()
      modifies this, station
      ensures Step(Value(), r) == AdvanceTime(old(Value()), elapsed)
    {
      var error := station.AdvanceTime(elapsed);
      if error.Some? {
        StartRecovery();
        return Err(StationFailed(error.value));
      }
      r := Ok(());
    }

    method PollEvent(read: EventRead) returns (r: Result<Option<DriverEvent>, DriverError>)
      requires Valid()
      modifies this, station
      ensures Step(Value(), r) == Poll(ids, old(Value()), read)
    {
      hide Dispatch;
      match read {
        case Unrecovered =>
          StartRecovery();
          r := Err(DeviceFailed(RecoveryRequired));
        case Unreadable(e) => r := Err(DeviceFailed(e));
        case NoEvent => r := Ok(None);
        case Read(m) =>
          var d := DispatchMessage(m);
          r := if d.Ok? then Ok(Some(d.value)) else Err(d.error);
      }
    }

    method DispatchMessage(m: Message) returns (r: Result<DriverEvent, DriverError>)
      requires Valid()
      modifies this, station
      ensures Step(Value(), r) == Dispatch(ids, old(Value()), m)
    {
      hide OnControl, OnData, RecoveryComplete, BeginRecovery;
      if m.SystemMessage? {
        r := DispatchSystemMessage(m.system);
        return;
      }
      if state != Ready {
        return Err(WrongState(state, Ready));
      }
      match m {
        case ControlMessage(None) => r := Err(ProtocolFailed);
        case ControlMessage(Some(e)) =>
          var error := station.HandleControlEvent(e);
          r := FinishDispatch(error, ControlDone(e));
        case DataMessageOf(d) => r := DispatchDataMessage(d);
        case SupplicantMessage => r := Ok(SupplicantDone);
      }
    }

    /** Recovery after a station error. */
    method FinishDispatch(error: Option<StationError>, event: DriverEvent) returns (r: Result<DriverEvent, DriverError>)
      modifies this, station
      ensures Step(Value(), r) == Dispatched(old(Value()), Outcome(old(station.Value()), error), event)
    {
      if error.Some? {
        StartRecovery();
        return Err(StationFailed(error.value));
      }
      r := Ok(event);
    }

    method DispatchSystemMessage(e: SystemEvent) returns (r: Result<DriverEvent, DriverError>)
      modifies this, station
      ensures Step(Value(), r) == DispatchSystem(old(Value()), e)
    {
      if e == UnreadableSystem {
        return Err(ProtocolFailed);
      }
      if e == InitDone && state == WaitingForSystemInit {
        station.FinishRecovery();
        state := Ready;
      } else if e == InitDone || e == DeinitDone {
        var current := state;
        StartRecovery();
        return Err(UnexpectedEventForState(current));
      }
      r := Ok(SystemDone(e));
    }

    method DispatchDataMessage(d: DataMessage) returns (r: Result<DriverEvent, DriverError>)
      requires Valid()
      modifies this, station
      ensures Step(Value(), r) == DispatchData(ids, old(Value()), d)
    {
      hide OnData, BeginRecovery;
      match d {
        case UnreadableData => r := Err(DataProtocol);
        case TxDoneData(done, known) => r := if known then Ok(TransmitDone(done)) else Err(DataProtocol);
        case ReceiveData(readable) => r := if readable then Ok(ReceiveReady) else Err(DataProtocol);
        case LinkData(e) =>
          var error := station.HandleDataEvent(e);
          r := FinishDispatch(error, LinkDone(e));
      }
    }

    predicate Admits(etherType: nat)
      reads this, station
      ensures Admits(etherType) == PortAdmits(station.Value(), etherType)
    {
      if etherType == EAPOL then station.IsEapolRequired() else station.ControlledPortOpen()
    }

    method ReceivePacket(wdevId: nat, io: Result<ReceivedFrame, DataError>)
      returns (r: Result<ReceivedFrame, DriverError>)
      modifies this, station
      ensures Step(Value(), r) == Receive(ids, old(Value()), wdevId, io)
    {
      if io.Err? {
        return Err(DataFailed(io.error));
      }
      if wdevId != ids.wdevId {
        StartRecovery();
        return Err(WrongInterface(wdevId));
      }
      if !Admits(io.value.etherType) {
        return Err(ControlledPortClosed(io.value.etherType));
      }
      r := Ok(io.value);
    }

    method TransmitFrame(wdevId: nat, frame: seq<byte>, io: Result<nat, DataError>)
      returns (r: Result<nat, DriverError>)
      ensures Step(Value(), r) == Transmit(ids, Value(), wdevId, frame, io)
    {
      if wdevId != ids.wdevId {
        return Err(WrongInterface(wdevId));
      }
      if |frame| < 14 {
        return Err(FrameTooShort);
      }
      if !Admits(EtherType(frame)) {
        return Err(ControlledPortClosed(EtherType(frame)));
      }
      r := if io.Ok? then Ok(io.value) else Err(DataFailed(io.error));
    }

    method ReadWatchdog(io: WatchdogRead) returns (r: Result<bool, DriverError>)
      modifies this
      ensures Step(Value(), r) == WatchdogPending(old(Value()), io)
    {
      match io {
        case WatchdogUnreadable => r := Err(DeviceFailed(Rpu));
        case OnlySentinels =>
          state := DriverFault;
          r := Err(InvalidWatchdogStatus);
        case WatchdogStatus(pending) => r := Ok(pending);
      }
    }

    method ClearWatchdog(written: bool) returns (r: Result<(), DriverError>)
      modifies this, station
      ensures Step(Value(), r) == AcknowledgeWatchdog(old(Value()), written)
    {
      if !written {
        return Err(DeviceFailed(Rpu));
      }
      StartRecovery();
      r := Ok(());
    }
  }
}
