/** The station connection state machine (src/station.rs): a transition
    function on values, and the controller that performs it in place. */
module Station {
  import opened Bytes
  import opened DeviceTypes
  import opened Wrappers

  datatype StationState =
    | Down
    | InterfaceCreatePending
    | Idle
    | RegulatoryPending
    | InterfaceUpPending
    | Scanning
    | ScanComplete
    | ReadingScanResults
    | Authenticating
    | Authenticated
    | Associating
    | Securing
    | Authorizing
    | AwaitingCarrier
    | Connected
    | PowerSavePending
    | Disconnecting
    | InterfaceDownPending
    | Recovering
    | Fault

  datatype StationTimeouts = StationTimeouts(
    regulatory: nat, interface: nat, scan: nat, scanComplete: nat, scanResults: nat,
    authentication: nat, authenticated: nat, association: nat, keyExchange: nat,
    authorization: nat, carrier: nat, powerSave: nat, disconnect: nat)

  const DEFAULT_TIMEOUTS :=
    StationTimeouts(5000, 5000, 30000, 10000, 10000, 5000, 10000, 20000, 10000, 5000, 5000, 5000, 5000)

  datatype StationFault =
    | CommandRejected(command: nat, status: int)
    | AuthenticationFailed(code: nat)
    | AssociationFailed(code: nat)
    | MlmeTimeout
    | PeerMismatch
    | InterfaceMismatch
    | UnexpectedEvent
    | CarrierLost
    | TimedOut(in_: StationState)

  datatype StationError =
    | Device(device: DeviceError)
    | Protocol
    | InvalidState(current: StationState, required: StationState)
    | InterfaceAlreadyCreated
    | InterfaceNotCreated
    | Faulted(fault: StationFault)

  const TRIGGER_SCAN := 0
  const GET_SCAN_RESULTS := 1
  const AUTHENTICATE := 2
  const ASSOCIATE := 3
  const DEAUTHENTICATE := 4
  const NEW_KEY := 6
  const DELETE_KEY := 7
  const SET_KEY := 8
  const NEW_INTERFACE := 15
  const SET_INTERFACE_FLAGS := 18
  const SET_STATION := 21
  const SET_POWER_SAVE := 33
  const REQUEST_SET_REGULATORY := 46
  const SET_POWER_SAVE_TIMEOUT := 53
  const NEW_INTERFACE_EVENT := 281

  /** The interface identifiers fixed by `new`. */
  datatype Ids = Ids(ifaceindex: int, wdevId: nat)

  datatype Link = Link(peer: Option<seq<byte>>, secure: bool, authorized: bool, carrier: bool)

  const UNLINKED := Link(None, false, false, false)

  datatype Controller = Controller(
    state: StationState,
    pending: Option<nat>,
    returnState: Option<StationState>,
    link: Link,
    created: bool,
    fault: Option<StationFault>,
    timeouts: StationTimeouts,
    remaining: Option<nat>)

  datatype Outcome = Outcome(s: Controller, error: Option<StationError>)

  /** What the encoder and the device make of one command. */
  datatype Submission = Accepted | BadRequest | Undelivered(error: DeviceError)

  datatype Command =
    | CreateInterface
    | SetRegulatory
    | BringUp
    | BringDown
    | StartScan
    | RequestScanResults
    | Authenticate(bssid: seq<byte>)
    | Associate(bssid: seq<byte>, secure: bool)
    | SetPowerSave
    | SetPowerSaveTimeout(ms: int)
    | Disconnect
    | Security(security: SecurityCommand)

  /** The commands only the security coordinator submits. */
  datatype SecurityCommand = InstallKey(command: nat, group: bool) | SelectKey | Authorize

  datatype Header = Header(
    ifaceValid: bool, ifaceindex: int, wdevValid: bool, wdevId: nat, result: int, commandEvent: nat)

  datatype Mlme = Mlme(frameValid: bool, timedOut: bool, frame: seq<byte>)

  datatype ControlBody =
    | ScanDone(scanStatus: int)
    | ScanResult(sequence: nat)
    | Authentication(mlme: Mlme)
    | Association(mlme: Mlme)
    | Deauthentication(mlme: Mlme)
    | Disassociation(mlme: Mlme)
    | CommandStatus(command: nat, status: nat)
    | InterfaceState(interfaceStatus: int)
    | RegulatoryChange
    | OtherControl

  datatype ControlEvent = ControlEvent(header: Header, body: ControlBody)

  datatype LinkEvent = CarrierOn(wdevId: nat) | CarrierOff(wdevId: nat) | OtherData

  // -------------------------------------------------------------- observation

  /** `controlled_port_open`: normal traffic is permitted. */
  predicate PortOpen(s: Controller) {
    s.state == Connected && s.link.authorized && s.link.carrier
  }

  predicate InSecurityPhase(state: StationState) {
    state == Securing || state == Authorizing || state == AwaitingCarrier || state == Connected
  }

  /** `eapol_required`: a host supplicant can process EAPOL traffic. */
  predicate EapolRequired(s: Controller) {
    s.link.secure && InSecurityPhase(s.state)
  }

  // -------------------------------------------------------------- transitions

  function Deadline(t: StationTimeouts, state: StationState): Option<nat> {
    match state
    case InterfaceCreatePending => Some(t.interface)
    case RegulatoryPending => Some(t.regulatory)
    case InterfaceUpPending => Some(t.interface)
    case Scanning => Some(t.scan)
    case ScanComplete => Some(t.scanComplete)
    case ReadingScanResults => Some(t.scanResults)
    case Authenticating => Some(t.authentication)
    case Authenticated => Some(t.authenticated)
    case Associating => Some(t.association)
    case Securing => Some(t.keyExchange)
    case Authorizing => Some(t.authorization)
    case AwaitingCarrier => Some(t.carrier)
    case PowerSavePending => Some(t.powerSave)
    case Disconnecting => Some(t.disconnect)
    case InterfaceDownPending => Some(t.interface)
    case _ => None
  }

  /** Deadlines are at least one millisecond. */
  function Timeout(t: StationTimeouts, state: StationState): Option<nat> {
    match Deadline(t, state)
    case Some(ms) => Some(if ms == 0 then 1 else ms)
    case None => None
  }

  function Enter(s: Controller, state: StationState): Controller {
    s.(state := state, remaining := Timeout(s.timeouts, state))
  }

  /** Leaves a pending command and enters a state. */
  function Settle(s: Controller, state: StationState): Controller {
    Enter(s.(pending := None), state)
  }

  function FailedWith(s: Controller, fault: StationFault): Controller {
    Enter(s.(fault := Some(fault), pending := None, returnState := None), Fault)
  }

  function Fail(s: Controller, fault: StationFault): Outcome {
    Outcome(FailedWith(s, fault), Some(Faulted(fault)))
  }

  function Done(s: Controller): Outcome {
    Outcome(s, None)
  }

  function Refuse(s: Controller, e: StationError): Outcome {
    Outcome(s, Some(e))
  }

  function RefreshConnected(s: Controller): Controller {
    if s.link.carrier && s.link.authorized then Enter(s, Connected) else s
  }

  function New(): Controller {
    Controller(Down, None, None, UNLINKED, false, None, DEFAULT_TIMEOUTS, None)
  }

  function BeginRecovery(s: Controller): Controller {
    Enter(s.(created := false, link := UNLINKED, pending := None, returnState := None), Recovering)
  }

  function RecoveryComplete(s: Controller): Controller {
    Enter(s.(created := false, link := UNLINKED, pending := None, returnState := None, fault := None), Down)
  }

  function Retimed(s: Controller, t: StationTimeouts): Controller {
    s.(timeouts := t, remaining := Timeout(t, s.state))
  }

  /** `advance_time`. */
  function Advance(s: Controller, elapsed: nat): Outcome {
    if s.remaining.None? then Done(s)
    else if elapsed < s.remaining.value then Done(s.(remaining := Some(s.remaining.value - elapsed)))
    else Fail(s, TimedOut(s.state))
  }

  /** `complete_group_rekey`. */
  function GroupRekeyed(s: Controller): Controller {
    if s.link.secure && s.link.authorized
    then Enter(s, if s.link.carrier then Connected else AwaitingCarrier)
    else Enter(s.(fault := Some(UnexpectedEvent)), Fault)
  }

  // ----------------------------------------------------------------- commands

  /** The states that accept a command, the reported one first. */
  function Accepting(c: Command): (states: seq<StationState>)
    ensures |states| > 0
  {
    match c
    case CreateInterface => [Down]
    case SetRegulatory => [Down, Idle]
    case BringUp => [Down]
    case BringDown => [Idle, Connected, Fault]
    case StartScan => [Idle]
    case RequestScanResults => [ScanComplete]
    case Authenticate(_) => [Idle]
    case Associate(_, _) => [Authenticated]
    case SetPowerSave => [Idle, Connected]
    case SetPowerSaveTimeout(_) => [Idle, Connected]
    case Disconnect => [Authenticated, Associating, Securing, Authorizing, AwaitingCarrier, Connected]
    case Security(security) =>
      if security.InstallKey? then [Securing, Authorizing, Connected] else [Securing]
  }

  /** Checks after the state check, before anything is encoded. */
  function Precheck(s: Controller, c: Command): Option<StationError> {
    match c
    case CreateInterface => if s.created then Some(InterfaceAlreadyCreated) else None
    case BringUp => if s.created then None else Some(InterfaceNotCreated)
    case BringDown => if s.created then None else Some(InterfaceNotCreated)
    case SetPowerSaveTimeout(ms) => if ms < 0 then Some(Protocol) else None
    case Disconnect => if s.link.peer.None? then Some(Faulted(PeerMismatch)) else None
    case Security(security) =>
      if s.link.peer.None? && !security.SelectKey? && !(security.InstallKey? && security.group)
      then Some(Faulted(PeerMismatch)) else None
    case _ => None
  }

  /** The state after the device accepted a command. */
  function Committed(s: Controller, c: Command): Controller {
    match c
    case CreateInterface => Await(s, NEW_INTERFACE, InterfaceCreatePending)
    case SetRegulatory => Await(s.(returnState := Some(s.state)), REQUEST_SET_REGULATORY, RegulatoryPending)
    case BringUp => Await(s, SET_INTERFACE_FLAGS, InterfaceUpPending)
    case BringDown => Await(s.(returnState := None), SET_INTERFACE_FLAGS, InterfaceDownPending)
    case StartScan => Await(s, TRIGGER_SCAN, Scanning)
    case RequestScanResults => Await(s, GET_SCAN_RESULTS, ReadingScanResults)
    case Authenticate(bssid) =>
      Await(s.(link := s.link.(peer := Some(bssid))), AUTHENTICATE, Authenticating)
    case Associate(_, secure) =>
      Await(s.(link := s.link.(secure := secure, authorized := !secure)), ASSOCIATE, Associating)
    case SetPowerSave => Await(s.(returnState := Some(s.state)), SET_POWER_SAVE, PowerSavePending)
    case SetPowerSaveTimeout(_) => Await(s.(returnState := Some(s.state)), SET_POWER_SAVE_TIMEOUT, PowerSavePending)
    case Disconnect => Await(s.(returnState := None), DEAUTHENTICATE, Disconnecting)
    case Security(security) => Secured(s, security)
  }

  function Secured(s: Controller, c: SecurityCommand): Controller {
    match c
    case InstallKey(command, _) => Await(s, command, Securing)
    case SelectKey => Await(s, SET_KEY, Securing)
    case Authorize => Await(s, SET_STATION, Authorizing)
  }

  function Await(s: Controller, command: nat, state: StationState): Controller {
    Enter(s.(pending := Some(command)), state)
  }

  /** Every station command: state check, further checks, delivery, commit. */
  function Submit(ids: Ids, s: Controller, c: Command, io: Submission): Outcome {
    if s.state !in Accepting(c) then Refuse(s, InvalidState(s.state, Accepting(c)[0]))
    else if Precheck(s, c).Some? then Refuse(s, Precheck(s, c).value)
    else if c.CreateInterface? && ids.wdevId == 0 then
      Done(Settle(s.(created := true, returnState := None), Down))
    else if c.Associate? && s.link.peer != Some(c.bssid) then Fail(s, PeerMismatch)
    else
      match io
      case BadRequest => Refuse(s, Protocol)
      case Undelivered(e) => Refuse(s, Device(e))
      case Accepted => Done(Committed(s, c))
  }

  // ------------------------------------------------------------------- events

  predicate HeaderMatches(ids: Ids, h: Header) {
    (h.ifaceValid ==> h.ifaceindex == ids.ifaceindex) && (h.wdevValid ==> h.wdevId == ids.wdevId)
  }

  /** `handle_control_event`. */
  function OnControl(ids: Ids, s: Controller, e: ControlEvent): Outcome {
    if !HeaderMatches(ids, e.header) then Fail(s, InterfaceMismatch)
    else
      match e.body
      case CommandStatus(command, status) => OnCommandStatus(s, command, status)
      case InterfaceState(status) => OnInterfaceState(s, status)
      case RegulatoryChange => OnRegulatoryChange(s)
      case OtherControl =>
        if e.header.commandEvent == NEW_INTERFACE_EVENT then OnInterfaceCreated(s, e.header.result) else Done(s)
      case ScanDone(status) => OnScanDone(s, status)
      case ScanResult(sequence) => OnScanResult(s, sequence)
      case Authentication(m) => OnAuthentication(s, e.header.result, m)
      case Association(m) => OnAssociation(s, e.header.result, m)
      case Deauthentication(m) => OnDisconnected(s, m)
      case Disassociation(m) => OnDisconnected(s, m)
  }

  function OnCommandStatus(s: Controller, command: nat, status: nat): Outcome {
    if command == NEW_INTERFACE && s.created && s.pending.None? then
      if status == 0 then Done(s) else Fail(s, CommandRejected(command, status))
    else if s.pending != Some(command) then Fail(s, UnexpectedEvent)
    else if status != 0 then Fail(s, CommandRejected(command, status))
    else if command == NEW_INTERFACE then Done(s)
    else Done(Succeeded(s.(pending := None), command))
  }

  /** `apply_successful_command`. */
  function Succeeded(s: Controller, command: nat): Controller {
    if command == NEW_KEY || command == DELETE_KEY || command == SET_KEY then Enter(s, Securing)
    else if command == SET_STATION && s.state == Authorizing then
      RefreshConnected(Enter(s.(link := s.link.(authorized := true)), AwaitingCarrier))
    else if (command == SET_POWER_SAVE || command == SET_POWER_SAVE_TIMEOUT) && s.state == PowerSavePending then
      Enter(s.(returnState := None), if s.returnState.Some? then s.returnState.value else Fault)
    else s
  }

  function OnInterfaceState(s: Controller, status: int): Outcome {
    if status != 0 then Fail(s, CommandRejected(SET_INTERFACE_FLAGS, status))
    else if s.state == InterfaceUpPending then Done(Settle(s, Idle))
    else if s.state == InterfaceDownPending then Done(Settle(s.(link := UNLINKED), Down))
    else Fail(s, UnexpectedEvent)
  }

  function OnRegulatoryChange(s: Controller): Outcome {
    if s.state == RegulatoryPending
    then Done(Settle(s.(returnState := None), if s.returnState.Some? then s.returnState.value else Down))
    else Done(s)
  }

  function OnInterfaceCreated(s: Controller, result: int): Outcome {
    if result != 0 then Fail(s, CommandRejected(NEW_INTERFACE, result))
    else if s.state == InterfaceCreatePending && s.pending == Some(NEW_INTERFACE) then
      Done(Settle(s.(created := true), Down))
    else if s.created && s.state == Down then Done(s)
    else Fail(s, UnexpectedEvent)
  }

  function OnScanDone(s: Controller, status: int): Outcome {
    if s.state != Scanning then Fail(s, UnexpectedEvent)
    else if status == 0 then Done(Settle(s, ScanComplete))
    else Fail(s, CommandRejected(TRIGGER_SCAN, status))
  }

  function OnScanResult(s: Controller, sequence: nat): Outcome {
    if s.state != ReadingScanResults then Fail(s, UnexpectedEvent)
    else if sequence == 0 then Done(Settle(s, Idle))
    else Done(Enter(s, ReadingScanResults))
  }

  function Address(m: Mlme, offset: nat): Option<seq<byte>> {
    if m.frameValid && |m.frame| >= offset + 6 then Some(m.frame[offset..offset + 6]) else None
  }

  /** `mlme_status`: a nonzero result is truncated to 16 bits, so a multiple of
      65536 reads as success. */
  function MlmeStatus(result: int, m: Mlme, offset: nat): Result<nat, StationFault> {
    if m.timedOut then Err(MlmeTimeout)
    else if result != 0 then Ok(result % 65536)
    else if !m.frameValid then Ok(0)
    else if |m.frame| < offset + 2 then Err(UnexpectedEvent)
    else Ok(Le16(m.frame, offset))
  }

  /** The checks common to both management responses. An unreadable status is
      returned without failing the controller. */
  function Rejection(s: Controller, result: int, m: Mlme, at: nat, statusAt: nat): Option<Outcome> {
    if Address(m, at).None? then Some(Fail(s, UnexpectedEvent))
    else if s.link.peer != Address(m, at) then Some(Fail(s, PeerMismatch))
    else if MlmeStatus(result, m, statusAt).Err? then
      Some(Refuse(s, Faulted(MlmeStatus(result, m, statusAt).error)))
    else None
  }

  function OnAuthentication(s: Controller, result: int, m: Mlme): Outcome {
    if s.state != Authenticating then Fail(s, UnexpectedEvent)
    else if Rejection(s, result, m, 10, 28).Some? then Rejection(s, result, m, 10, 28).value
    else
      var status := MlmeStatus(result, m, 28).value;
      if status != 0 then Fail(s, AuthenticationFailed(status)) else Done(Settle(s, Authenticated))
  }

  function OnAssociation(s: Controller, result: int, m: Mlme): Outcome {
    if s.state != Associating then Fail(s, UnexpectedEvent)
    else if Rejection(s, result, m, 16, 26).Some? then Rejection(s, result, m, 16, 26).value
    else
      var status := MlmeStatus(result, m, 26).value;
      if status != 0 then Fail(s, AssociationFailed(status))
      else Done(RefreshConnected(Settle(s, if s.link.secure then Securing else AwaitingCarrier)))
  }

  function OnDisconnected(s: Controller, m: Mlme): Outcome {
    if s.link.peer.None? then Done(s)
    else if Address(m, 10).None? then Fail(s, UnexpectedEvent)
    else if s.link.peer != Address(m, 10) then Fail(s, PeerMismatch)
    else Done(Settle(s.(link := UNLINKED, returnState := None), Idle))
  }

  /** `handle_data_event`. */
  function OnData(ids: Ids, s: Controller, e: LinkEvent): Outcome {
    if e.OtherData? then Done(s)
    else if e.wdevId != ids.wdevId then Fail(s, InterfaceMismatch)
    else if e.CarrierOn? then Done(RefreshConnected(s.(link := s.link.(carrier := true))))
    else if s.state == Connected then Fail(Enter(s.(link := UNLINKED), Idle), CarrierLost)
    else Done(s.(link := s.link.(carrier := false)))
  }

  // ------------------------------------------------------- management status

  /** The peer's response to what the station waits for, in time. */
  predicate Answers(s: Controller, m: Mlme, at: nat) {
    Address(m, at).Some? && s.link.peer == Address(m, at) && !m.timedOut
  }

  /** A nonzero result is a rejection by the peer or firmware; yet the station
      proceeds if and only if it is a multiple of 65536, since only its low 16
      bits are looked at. */
  lemma NonzeroResultProceeds(s: Controller, result: int, m: Mlme)
    requires result != 0
    ensures s.state == Authenticating && Answers(s, m, 10) ==>
              var o := OnAuthentication(s, result, m);
              && (o.error.None? <==> result % 65536 == 0)
              && o == if result % 65536 == 0 then Done(Settle(s, Authenticated))
                      else Fail(s, AuthenticationFailed(result % 65536))
    ensures s.state == Associating && Answers(s, m, 16) ==>
              var o := OnAssociation(s, result, m);
              && (o.error.None? <==> result % 65536 == 0)
              && (o.error.Some? ==> o == Fail(s, AssociationFailed(result % 65536)))
              && (o.error.None? ==> o.s.state == if s.link.carrier && s.link.authorized then Connected
                                                 else if s.link.secure then Securing
                                                 else AwaitingCarrier)
  {
    hide Timeout;
  }

  /** The smallest rejections that proceed, of either sign, whatever status the
      response itself carries. */
  lemma TruncatedRejectionsProceed(s: Controller, m: Mlme)
    ensures s.state == Authenticating && Answers(s, m, 10) ==>
              OnAuthentication(s, 65536, m).s.state == OnAuthentication(s, -65536, m).s.state == Authenticated
    ensures s.state == Associating && s.link.secure && !s.link.authorized && Answers(s, m, 16) ==>
              OnAssociation(s, 65536, m).s.state == OnAssociation(s, -65536, m).s.state == Securing
  {
    hide Timeout;
    NonzeroResultProceeds(s, 65536, m);
    NonzeroResultProceeds(s, -65536, m);
  }

  /** With a zero result the response's own status decides, if it has a frame. */
  lemma ZeroResultProceeds(s: Controller, m: Mlme)
    ensures s.state == Authenticating && Answers(s, m, 10) ==>
              (OnAuthentication(s, 0, m).error.None? <==> |m.frame| >= 30 && Le16(m.frame, 28) == 0)
    ensures s.state == Associating && Answers(s, m, 16) ==>
              (OnAssociation(s, 0, m).error.None? <==> |m.frame| >= 28 && Le16(m.frame, 26) == 0)
  {
    hide Timeout;
  }

  // --------------------------------------------------------------- the object

  class StationController {
    const ids: Ids
    var state: StationState
    var pending: Option<nat>
    var returnState: Option<StationState>
    var peer: Option<seq<byte>>
    var secure: bool
    var authorized: bool
    var carrier: bool
    var created: bool
    var fault: Option<StationFault>
    var timeouts: StationTimeouts
    var remaining: Option<nat>

    function Value(): Controller
      reads this
    {
      Controller(state, pending, returnState, Link(peer, secure, authorized, carrier), created, fault,
                 timeouts, remaining)
    }

    constructor (ids: Ids)
      ensures this.ids == ids && Value() == New()
    {
      this.ids := ids;
      state, pending, returnState := Down, None, None;
      peer, secure, authorized, carrier := None, false, false, false;
      created, fault, timeouts, remaining := false, None, DEFAULT_TIMEOUTS, None;
    }

    predicate ControlledPortOpen()
      reads this
      ensures ControlledPortOpen() == PortOpen(Value())
    {
      state == Connected && authorized && carrier
    }

    predicate IsEapolRequired()
      reads this
      ensures IsEapolRequired() == EapolRequired(Value())
    {
      secure && InSecurityPhase(state)
    }

    method Transition(next: StationState)
      modifies this
      ensures Value() == Enter(old(Value()), next)
    {
      state := next;
      remaining := Timeout(timeouts, next);
    }

    method ClearConnection()
      modifies this
      ensures Value() == old(Value()).(link := UNLINKED)
    {
      peer := None;
      secure := false;
      authorized := false;
      carrier := false;
    }

    method FailNow(f: StationFault) returns (r: Option<StationError>)
      modifies this
      ensures Outcome(Value(), r) == Fail(old(Value()), f)
    {
      fault := Some(f);
      pending := None;
      returnState := None;
      Transition(Fault);
      r := Some(Faulted(f));
    }

    method Refresh()
      modifies this
      ensures Value() == RefreshConnected(old(Value()))
    {
      if carrier && authorized {
        Transition(Connected);
      }
    }

    method SetTimeouts(t: StationTimeouts)
      modifies this
      ensures Value() == Retimed(old(Value()), t)
    {
      timeouts := t;
      remaining := Timeout(t, state);
    }

    method AdvanceTime(elapsed: nat) returns (r: Option<StationError>)
      modifies this
      ensures Outcome(Value(), r) == Advance(old(Value()), elapsed)
    {
      if remaining.None? {
        return None;
      }
      if elapsed < remaining.value {
        remaining := Some(remaining.value - elapsed);
        return None;
      }
      r := FailNow(TimedOut(state));
    }

    method StartRecovery()
      modifies this
      ensures Value() == BeginRecovery(old(Value()))
    {
      created := false;
      ClearConnection();
      pending := None;
      returnState := None;
      Transition(Recovering);
    }

    method FinishRecovery()
      modifies this
      ensures Value() == RecoveryComplete(old(Value()))
    {
      created := false;
      ClearConnection();
      pending := None;
      returnState := None;
      fault := None;
      Transition(Down);
    }

    method CompleteGroupRekey() returns (next: StationState)
      modifies this
      ensures Value() == GroupRekeyed(old(Value())) && next == Value().state
    {
      if secure && authorized {
        next := if carrier then Connected else AwaitingCarrier;
      } else {
        fault := Some(UnexpectedEvent);
        next := Fault;
      }
      Transition(next);
    }

    /** Encoding and reliable delivery of the command buffer. */
    static function Delivery(io: Submission): Option<StationError> {
      match io
      case BadRequest => Some(Protocol)
      case Undelivered(e) => Some(Device(e))
      case Accepted => None
    }

    method CreateInterface(io: Submission) returns (r: Option<StationError>)
      modifies this
      ensures Outcome(Value(), r) == Submit(ids, old(Value()), Command.CreateInterface, io)
    {
      hide Timeout;
      if state != Down {
        return Some(InvalidState(state, Down));
      }
      if created {
        return Some(InterfaceAlreadyCreated);
      }
      if ids.wdevId == 0 {
        created := true;
        pending := None;
        returnState := None;
        Transition(Down);
        return None;
      }
      r := Delivery(io);
      if r.Some? {
        return;
      }
      pending := Some(NEW_INTERFACE);
      Transition(InterfaceCreatePending);
    }

    method SetRegulatory(io: Submission) returns (r: Option<StationError>)
      modifies this
      ensures Outcome(Value(), r) == Submit(ids, old(Value()), Command.SetRegulatory, io)
    {
      hide Timeout;
      if state != Down && state != Idle {
        return Some(InvalidState(state, Down));
      }
      r := Delivery(io);
      if r.Some? {
        return;
      }
      returnState := Some(state);
      pending := Some(REQUEST_SET_REGULATORY);
      Transition(RegulatoryPending);
    }

    method BringUp(io: Submission) returns (r: Option<StationError>)
      modifies this
      ensures Outcome(Value(), r) == Submit(ids, old(Value()), Command.BringUp, io)
    {
      hide Timeout;
      if state != Down {
        return Some(InvalidState(state, Down));
      }
      if !created {
        return Some(InterfaceNotCreated);
      }
      r := Delivery(io);
      if r.Some? {
        return;
      }
      pending := Some(SET_INTERFACE_FLAGS);
      Transition(InterfaceUpPending);
    }

    method BringDown(io: Submission) returns (r: Option<StationError>)
      modifies this
      ensures Outcome(Value(), r) == Submit(ids, old(Value()), Command.BringDown, io)
    {
      hide Timeout;
      if state != Idle && state != Connected && state != Fault {
        return Some(InvalidState(state, Idle));
      }
      if !created {
        return Some(InterfaceNotCreated);
      }
      r := Delivery(io);
      if r.Some? {
        return;
      }
      returnState := None;
      pending := Some(SET_INTERFACE_FLAGS);
      Transition(InterfaceDownPending);
    }

    method StartScan(io: Submission) returns (r: Option<StationError>)
      modifies this
      ensures Outcome(Value(), r) == Submit(ids, old(Value()), Command.StartScan, io)
    {
      hide Timeout;
      if state != Idle {
        return Some(InvalidState(state, Idle));
      }
      r := Delivery(io);
      if r.Some? {
        return;
      }
      pending := Some(TRIGGER_SCAN);
      Transition(Scanning);
    }

    method RequestScanResults(io: Submission) returns (r: Option<StationError>)
      modifies this
      ensures Outcome(Value(), r) == Submit(ids, old(Value()), Command.RequestScanResults, io)
    {
      hide Timeout;
      if state != ScanComplete {
        return Some(InvalidState(state, ScanComplete));
      }
      r := Delivery(io);
      if r.Some? {
        return;
      }
      pending := Some(GET_SCAN_RESULTS);
      Transition(ReadingScanResults);
    }

    method Authenticate(bssid: seq<byte>, io: Submission) returns (r: Option<StationError>)
      modifies this
      ensures Outcome(Value(), r) == Submit(ids, old(Value()), Command.Authenticate(bssid), io)
    {
      hide Timeout;
      if state != Idle {
        return Some(InvalidState(state, Idle));
      }
      r := Delivery(io);
      if r.Some? {
        return;
      }
      peer := Some(bssid);
      pending := Some(AUTHENTICATE);
      Transition(Authenticating);
    }

    method Associate(bssid: seq<byte>, withSecurity: bool, io: Submission) returns (r: Option<StationError>)
      modifies this
      ensures Outcome(Value(), r) == Submit(ids, old(Value()), Command.Associate(bssid, withSecurity), io)
    {
      hide Timeout;
      if state != Authenticated {
        return Some(InvalidState(state, Authenticated));
      }
      if peer != Some(bssid) {
        r := FailNow(PeerMismatch);
        return;
      }
      r := Delivery(io);
      if r.Some? {
        return;
      }
      secure := withSecurity;
      authorized := !secure;
      pending := Some(ASSOCIATE);
      Transition(Associating);
    }

    method KeyCommand(command: nat, group: bool, io: Submission) returns (r: Option<StationError>)
      modifies this
      ensures Outcome(Value(), r) == Submit(ids, old(Value()), Security(InstallKey(command, group)), io)
    {
      hide Timeout;
      if state != Securing && state != Authorizing && state != Connected {
        return Some(InvalidState(state, Securing));
      }
      if !group && peer.None? {
        return Some(Faulted(PeerMismatch));
      }
      r := Delivery(io);
      if r.Some? {
        return;
      }
      pending := Some(command);
      Transition(Securing);
    }

    method SetKey(io: Submission) returns (r: Option<StationError>)
      modifies this
      ensures Outcome(Value(), r) == Submit(ids, old(Value()), Security(SelectKey), io)
    {
      hide Timeout;
      if state != Securing {
        return Some(InvalidState(state, Securing));
      }
      r := Delivery(io);
      if r.Some? {
        return;
      }
      pending := Some(SET_KEY);
      Transition(Securing);
    }

    method AuthorizePeer(io: Submission) returns (r: Option<StationError>)
      modifies this
      ensures Outcome(Value(), r) == Submit(ids, old(Value()), Security(Authorize), io)
    {
      hide Timeout;
      if state != Securing {
        return Some(InvalidState(state, Securing));
      }
      if peer.None? {
        return Some(Faulted(PeerMismatch));
      }
      r := Delivery(io);
      if r.Some? {
        return;
      }
      pending := Some(SET_STATION);
      Transition(Authorizing);
    }

    method SetPowerSave(io: Submission) returns (r: Option<StationError>)
      modifies this
      ensures Outcome(Value(), r) == Submit(ids, old(Value()), Command.SetPowerSave, io)
    {
      hide Timeout;
      if state != Idle && state != Connected {
        return Some(InvalidState(state, Idle));
      }
      r := Delivery(io);
      if r.Some? {
        return;
      }
      returnState := Some(state);
      pending := Some(SET_POWER_SAVE);
      Transition(PowerSavePending);
    }

    method SetPowerSaveTimeout(ms: int, io: Submission) returns (r: Option<StationError>)
      modifies this
      ensures Outcome(Value(), r) == Submit(ids, old(Value()), Command.SetPowerSaveTimeout(ms), io)
    {
      hide Timeout;
      if state != Idle && state != Connected {
        return Some(InvalidState(state, Idle));
      }
      if ms < 0 {
        return Some(Protocol);
      }
      r := Delivery(io);
      if r.Some? {
        return;
      }
      returnState := Some(state);
      pending := Some(SET_POWER_SAVE_TIMEOUT);
      Transition(PowerSavePending);
    }

    method Disconnect(io: Submission) returns (r: Option<StationError>)
      modifies this
      ensures Outcome(Value(), r) == Submit(ids, old(Value()), Command.Disconnect, io)
    {
      hide Timeout;
      if !InSecurityPhase(state) && state != Authenticated && state != Associating {
        return Some(InvalidState(state, Authenticated));
      }
      if peer.None? {
        return Some(Faulted(PeerMismatch));
      }
      r := Delivery(io);
      if r.Some? {
        return;
      }
      returnState := None;
      pending := Some(DEAUTHENTICATE);
      Transition(Disconnecting);
    }

    // The command macros of the two upper layers.
    method Run(c: Command, io: Submission) returns (r: Option<StationError>)
      modifies this
      ensures Outcome(Value(), r) == Submit(ids, old(Value()), c, io)
    {
      hide Submit;
      match c {
        case CreateInterface => r := CreateInterface(io);
        case SetRegulatory => r := SetRegulatory(io);
        case BringUp => r := BringUp(io);
        case BringDown => r := BringDown(io);
        case StartScan => r := StartScan(io);
        case RequestScanResults => r := RequestScanResults(io);
        case Authenticate(bssid) => r := Authenticate(bssid, io);
        case Associate(bssid, withSecurity) => r := Associate(bssid, withSecurity, io);
        case SetPowerSave => r := SetPowerSave(io);
        case SetPowerSaveTimeout(ms) => r := SetPowerSaveTimeout(ms, io);
        case Disconnect => r := Disconnect(io);
        case Security(InstallKey(command, group)) => r := KeyCommand(command, group, io);
        case Security(SelectKey) => r := SetKey(io);
        case Security(Authorize) => r := AuthorizePeer(io);
      }
    }

    /** `handle_control_event`. */
    method HandleControlEvent(e: ControlEvent) returns (r: Option<StationError>)
      modifies this
      ensures Outcome(Value(), r) == OnControl(ids, old(Value()), e)
    {
      hide OnCommandStatus, OnInterfaceState, OnRegulatoryChange, OnInterfaceCreated, OnScanDone, OnScanResult,
        OnAuthentication, OnAssociation, OnDisconnected;
      var h := e.header;
      if h.ifaceValid && h.ifaceindex != ids.ifaceindex {
        r := FailNow(InterfaceMismatch);
        return;
      }
      if h.wdevValid && h.wdevId != ids.wdevId {
        r := FailNow(InterfaceMismatch);
        return;
      }
      r := None;
      match e.body {
        case CommandStatus(command, status) => r := HandleCommandStatus(command, status);
        case InterfaceState(status) => r := HandleInterfaceState(status);
        case RegulatoryChange => HandleRegulatoryChange();
        case OtherControl =>
          if h.commandEvent == NEW_INTERFACE_EVENT {
            r := HandleInterfaceCreated(h.result);
          }
        case ScanDone(status) => r := HandleScanDone(status);
        case ScanResult(sequence) => r := HandleScanResult(sequence);
        case Authentication(m) => r := HandleAuthentication(h.result, m);
        case Association(m) => r := HandleAssociation(h.result, m);
        case Deauthentication(m) => r := HandleDisconnectEvent(m);
        case Disassociation(m) => r := HandleDisconnectEvent(m);
      }
    }

    method HandleCommandStatus(command: nat, status: nat) returns (r: Option<StationError>)
      modifies this
      ensures Outcome(Value(), r) == OnCommandStatus(old(Value()), command, status)
    {
      hide Timeout;
      if command == NEW_INTERFACE && created && pending.None? {
        if status == 0 {
          return None;
        }
        r := FailNow(CommandRejected(command, status));
        return;
      }
      if pending != Some(command) {
        r := FailNow(UnexpectedEvent);
        return;
      }
      if status != 0 {
        r := FailNow(CommandRejected(command, status));
        return;
      }
      if command == NEW_INTERFACE {
        return None;
      }
      pending := None;
      ApplySuccessfulCommand(command);
      r := None;
    }

    method ApplySuccessfulCommand(command: nat)
      modifies this
      ensures Value() == Succeeded(old(Value()), command)
    {
      hide Timeout;
      if command == NEW_KEY || command == DELETE_KEY || command == SET_KEY {
        Transition(Securing);
      } else if command == SET_STATION && state == Authorizing {
        authorized := true;
        Transition(AwaitingCarrier);
        Refresh();
      } else if (command == SET_POWER_SAVE || command == SET_POWER_SAVE_TIMEOUT) && state == PowerSavePending {
        var next := if returnState.Some? then returnState.value else Fault;
        returnState := None;
        Transition(next);
      }
    }

    method HandleInterfaceState(status: int) returns (r: Option<StationError>)
      modifies this
      ensures Outcome(Value(), r) == OnInterfaceState(old(Value()), status)
    {
      hide Timeout;
      if status != 0 {
        r := FailNow(CommandRejected(SET_INTERFACE_FLAGS, status));
        return;
      }
      if state == InterfaceUpPending {
        pending := None;
        Transition(Idle);
        return None;
      }
      if state == InterfaceDownPending {
        ClearConnection();
        pending := None;
        Transition(Down);
        return None;
      }
      r := FailNow(UnexpectedEvent);
    }

    method HandleRegulatoryChange()
      modifies this
      ensures Outcome(Value(), None) == OnRegulatoryChange(old(Value()))
    {
      hide Timeout;
      if state == RegulatoryPending {
        pending := None;
        var next := if returnState.Some? then returnState.value else Down;
        returnState := None;
        Transition(next);
      }
    }

    method HandleInterfaceCreated(result: int) returns (r: Option<StationError>)
      modifies this
      ensures Outcome(Value(), r) == OnInterfaceCreated(old(Value()), result)
    {
      hide Timeout;
      if result != 0 {
        r := FailNow(CommandRejected(NEW_INTERFACE, result));
        return;
      }
      if state == InterfaceCreatePending && pending == Some(NEW_INTERFACE) {
        created := true;
        pending := None;
        Transition(Down);
        return None;
      }
      if created && state == Down {
        return None;
      }
      r := FailNow(UnexpectedEvent);
    }

    method HandleScanDone(status: int) returns (r: Option<StationError>)
      modifies this
      ensures Outcome(Value(), r) == OnScanDone(old(Value()), status)
    {
      hide Timeout;
      if state != Scanning {
        r := FailNow(UnexpectedEvent);
        return;
      }
      pending := None;
      if status == 0 {
        Transition(ScanComplete);
        return None;
      }
      r := FailNow(CommandRejected(TRIGGER_SCAN, status));
    }

    method HandleScanResult(sequence: nat) returns (r: Option<StationError>)
      modifies this
      ensures Outcome(Value(), r) == OnScanResult(old(Value()), sequence)
    {
      hide Timeout;
      if state != ReadingScanResults {
        r := FailNow(UnexpectedEvent);
        return;
      }
      if sequence == 0 {
        pending := None;
        Transition(Idle);
      } else {
        Transition(ReadingScanResults);
      }
      r := None;
    }

    method HandleAuthentication(result: int, m: Mlme) returns (r: Option<StationError>)
      modifies this
      ensures Outcome(Value(), r) == OnAuthentication(old(Value()), result, m)
    {
      hide Timeout, MlmeStatus;
      if state != Authenticating {
        r := FailNow(UnexpectedEvent);
        return;
      }
      var status;
      status, r := ReadResponse(result, m, 10, 28);
      if r.Some? {
        return;
      }
      if status != 0 {
        r := FailNow(AuthenticationFailed(status));
        return;
      }
      pending := None;
      Transition(Authenticated);
    }

    method HandleAssociation(result: int, m: Mlme) returns (r: Option<StationError>)
      modifies this
      ensures Outcome(Value(), r) == OnAssociation(old(Value()), result, m)
    {
      hide Timeout, MlmeStatus;
      if state != Associating {
        r := FailNow(UnexpectedEvent);
        return;
      }
      var status;
      status, r := ReadResponse(result, m, 16, 26);
      if r.Some? {
        return;
      }
      if status != 0 {
        r := FailNow(AssociationFailed(status));
        return;
      }
      pending := None;
      Transition(if secure then Securing else AwaitingCarrier);
      Refresh();
    }

    /** Peer check and status of one management response. */
    method ReadResponse(result: int, m: Mlme, at: nat, statusAt: nat) returns (status: nat, r: Option<StationError>)
      modifies this
      ensures match Rejection(old(Value()), result, m, at, statusAt) {
        case Some(rejected) => Outcome(Value(), r) == rejected && r.Some?
        case None => Value() == old(Value()) && r == None && MlmeStatus(result, m, statusAt) == Ok(status)
      }
    {
      hide Timeout, MlmeStatus;
      status := 0;
      var address := Address(m, at);
      if address.None? {
        r := FailNow(UnexpectedEvent);
        return;
      }
      if peer != address {
        r := FailNow(PeerMismatch);
        return;
      }
      var read := MlmeStatus(result, m, statusAt);
      if read.Err? {
        return 0, Some(Faulted(read.error));
      }
      return read.value, None;
    }

    method HandleDisconnectEvent(m: Mlme) returns (r: Option<StationError>)
      modifies this
      ensures Outcome(Value(), r) == OnDisconnected(old(Value()), m)
    {
      hide Timeout;
      if peer.None? {
        return None;
      }
      var address := Address(m, 10);
      if address.None? {
        r := FailNow(UnexpectedEvent);
        return;
      }
      if peer != address {
        r := FailNow(PeerMismatch);
        return;
      }
      ClearConnection();
      pending := None;
      returnState := None;
      Transition(Idle);
      r := None;
    }

    /** `handle_data_event`. */
    method HandleDataEvent(e: LinkEvent) returns (r: Option<StationError>)
      modifies this
      ensures Outcome(Value(), r) == OnData(ids, old(Value()), e)
    {
      hide Timeout;
      if e.OtherData? {
        return None;
      }
      if e.wdevId != ids.wdevId {
        r := FailNow(InterfaceMismatch);
        return;
      }
      if e.CarrierOn? {
        carrier := true;
        Refresh();
        return None;
      }
      carrier := false;
      if state == Connected {
        ClearConnection();
        Transition(Idle);
        r := FailNow(CarrierLost);
        return;
      }
      r := None;
    }
  }
}
