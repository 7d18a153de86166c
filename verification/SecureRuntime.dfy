/** Coordination of the supplicant, the station and the packet queue
    (src/wpa2_runtime.rs). */
module SecureRuntime {
  import opened Bytes
  import opened DeviceTypes
  import opened Driver
  import EapolKey
  import opened Station
  import Supplicant
  import opened Wrappers

  datatype Purpose = ForMessage2 | ForMessage4 | ForGroupMessage2 | ForRetransmission

  datatype RuntimeState =
    | AwaitingAuthenticator
    | AwaitingEapolTransmit(token: nat, purpose: Purpose)
    | AwaitingPairwiseKeyStatus
    | AwaitingGroupKeyStatus
    | AwaitingDefaultGroupKeyStatus
    | AwaitingAuthorizationStatus
    | AwaitingLinkCarrier
    | AwaitingGroupRekeyStatus
    | AwaitingDefaultGroupRekeyStatus
    | RuntimeComplete
    | RuntimeFailed

  datatype Wpa2Timeouts = Wpa2Timeouts(authenticator: nat, eapolTransmit: nat, firmwareCommand: nat, carrier: nat)

  const DEFAULT_WPA2_TIMEOUTS := Wpa2Timeouts(5000, 2000, 5000, 5000)

  datatype Progress =
    | NoChange
    | EapolSubmitted(token: nat, purpose: Purpose)
    | PairwiseKeySubmitted
    | GroupKeySubmitted
    | DefaultGroupKeySubmitted
    | AuthorizationSubmitted
    | CarrierAwaited
    | HandshakeComplete

  datatype EthernetError = EthernetTooShort | EthernetTooLarge | WrongDestination | WrongSource | WrongEtherType

  datatype RuntimeError =
    | Wpa2Failed(wpa2: Supplicant.Wpa2Error)
    | DriverRejected(driver: Driver.DriverError)
    | StationRejected(station: Station.StationError)
    | BadEthernet(ethernet: EthernetError)
    | UnexpectedState(state: RuntimeState)
    | UnexpectedCommandStatus(expected: nat, received: nat)
    | CommandRefused(command: nat, status: nat)
    | MissingInstallRequest
    | TransmitCompletionMismatch(expected: nat, received: nat)
    | TransmitNotDelivered
    | RuntimeTimeout(state: RuntimeState)

  /** What `new` fixes: the supplicant's configuration and the interfaces. */
  datatype Env = Env(cfg: Supplicant.Config, ids: Ids, wdevId: nat)

  datatype Runtime = Runtime(
    state: RuntimeState,
    supplicant: Supplicant.State,
    pairwise: Option<Supplicant.KeyRequest>,
    group: Option<Supplicant.GroupRequest>,
    digest: Option<seq<byte>>,
    timeouts: Wpa2Timeouts,
    remaining: Option<nat>)

  /** How the device answers one command and the packet queue one frame. */
  datatype Io = Io(key: Submission, token: Result<nat, DataError>)

  datatype RStep = RStep(rt: Runtime, n: Native, result: Result<Progress, RuntimeError>)

  datatype KeySubmission = PairwiseKey | InitialGroup | InitialDefaultGroup | RekeyGroup | RekeyDefaultGroup

  const HEADER_LEN := 14
  const MAX_ETHERNET_LEN := 526
  const PAE_GROUP: seq<byte> := [0x01, 0x80, 0xc2, 0x00, 0x00, 0x03]

  ghost predicate EnvOk(env: Env) {
    Supplicant.Configured(env.cfg)
  }

  // -------------------------------------------------------------- transitions

  function TimeoutOf(t: Wpa2Timeouts, state: RuntimeState): Option<nat> {
    var ms := match state {
      case RuntimeComplete => None
      case RuntimeFailed => None
      case AwaitingAuthenticator => Some(t.authenticator)
      case AwaitingEapolTransmit(_, _) => Some(t.eapolTransmit)
      case AwaitingLinkCarrier => Some(t.carrier)
      case _ => Some(t.firmwareCommand)
    };
    if ms == Some(0) then Some(1) else ms
  }

  function Move(rt: Runtime, state: RuntimeState): Runtime {
    rt.(state := state, remaining := TimeoutOf(rt.timeouts, state))
  }

  function Fresh(nonce: seq<byte>): Runtime {
    Move(Runtime(AwaitingAuthenticator, Supplicant.Initial(nonce), None, None, None, DEFAULT_WPA2_TIMEOUTS, None),
         AwaitingAuthenticator)
  }

  /** Outstanding installations are reported to the supplicant as failed. */
  function Abandoned(rt: Runtime): (s: Supplicant.State)
    requires Supplicant.Typed(rt.supplicant)
    ensures Supplicant.Typed(s)
  {
    var first := if rt.pairwise.Some?
    then Supplicant.CompleteKeys(rt.supplicant, rt.pairwise.value, false).after else rt.supplicant;
    if rt.group.Some? then Supplicant.CompleteGroup(first, rt.group.value, false).after else first
  }

  function FailClosed(rt: Runtime, n: Native, e: RuntimeError): RStep
    requires Supplicant.Typed(rt.supplicant)
  {
    RStep(Move(rt.(supplicant := Abandoned(rt), pairwise := None, group := None, digest := None), RuntimeFailed),
          EnterRecovery(n), Err(e))
  }

  /** Every error inside an input becomes a failure. */
  function Guarded(r: RStep): RStep
    requires Supplicant.Typed(r.rt.supplicant)
  {
    if r.result.Err? then FailClosed(r.rt, r.n, r.result.error) else r
  }

  function Retime(rt: Runtime, t: Wpa2Timeouts): Runtime {
    rt.(timeouts := t, remaining := TimeoutOf(t, rt.state))
  }

  function AdvanceRuntime(rt: Runtime, n: Native, elapsed: nat): RStep
    requires Supplicant.Typed(rt.supplicant)
  {
    if rt.remaining.None? then RStep(rt, n, Ok(NoChange))
    else if elapsed < rt.remaining.value then
      RStep(rt.(remaining := Some(rt.remaining.value - elapsed)), n, Ok(NoChange))
    else FailClosed(rt, n, RuntimeTimeout(rt.state))
  }

  /** `restart_pairwise`. */
  function Restart(rt: Runtime, nonce: seq<byte>): (r: (Runtime, Option<Supplicant.HandshakeError>))
    requires Supplicant.Typed(rt.supplicant) && |nonce| == 32
    ensures Supplicant.Typed(r.0.supplicant)
  {
    var s := Supplicant.Restart(rt.supplicant, nonce);
    if s.1.Some? then (rt.(supplicant := s.0), s.1)
    else (Move(rt.(supplicant := s.0, pairwise := None, group := None, digest := None), AwaitingAuthenticator), None)
  }

  /** `refresh_carrier`, and every control event that is not a status. */
  function Refresh(rt: Runtime, n: Native): (Runtime, Progress) {
    if n.station.state == Connected then (Move(rt, RuntimeComplete), HandshakeComplete) else (rt, NoChange)
  }

  predicate RadioPending(state: RuntimeState) {
    state != AwaitingAuthenticator && state != AwaitingLinkCarrier && state != RuntimeComplete && state != RuntimeFailed
  }

  // ------------------------------------------------------------- submissions

  function KeyPresent(rt: Runtime, k: KeySubmission): bool {
    if k == RekeyGroup || k == RekeyDefaultGroup then rt.group.Some? else rt.pairwise.Some?
  }

  function KeyCommandOf(k: KeySubmission): SecurityCommand {
    match k
    case PairwiseKey => InstallKey(NEW_KEY, false)
    case InitialGroup => InstallKey(NEW_KEY, true)
    case RekeyGroup => InstallKey(NEW_KEY, true)
    case _ => SelectKey
  }

  function AfterKey(k: KeySubmission): RuntimeState {
    match k
    case PairwiseKey => AwaitingPairwiseKeyStatus
    case InitialGroup => AwaitingGroupKeyStatus
    case InitialDefaultGroup => AwaitingDefaultGroupKeyStatus
    case RekeyGroup => AwaitingGroupRekeyStatus
    case RekeyDefaultGroup => AwaitingDefaultGroupRekeyStatus
  }

  function KeyProgress(k: KeySubmission): Progress {
    match k
    case PairwiseKey => PairwiseKeySubmitted
    case InitialGroup => GroupKeySubmitted
    case RekeyGroup => GroupKeySubmitted
    case _ => DefaultGroupKeySubmitted
  }

  function SubmitKey(env: Env, rt: Runtime, n: Native, k: KeySubmission, io: Submission): (r: RStep)
    ensures r.rt.supplicant == rt.supplicant
  {
    if !KeyPresent(rt, k) then RStep(rt, n, Err(MissingInstallRequest))
    else
      var o := Submit(env.ids, n.station, Security(KeyCommandOf(k)), io);
      var after := n.(station := o.s);
      if o.error.Some? then RStep(rt, after, Err(StationRejected(o.error.value)))
      else RStep(Move(rt, AfterKey(k)), after, Ok(KeyProgress(k)))
  }

  function EthernetFrame(env: Env, response: seq<byte>): seq<byte> {
    env.cfg.peer + env.cfg.local + Be16(EAPOL) + response
  }

  function SubmitEapol(env: Env, rt: Runtime, n: Native, response: seq<byte>, purpose: Purpose,
                       io: Result<nat, DataError>): (r: RStep)
    ensures r.rt.supplicant == rt.supplicant
  {
    if HEADER_LEN + |response| > MAX_ETHERNET_LEN then RStep(rt, n, Err(BadEthernet(EthernetTooLarge)))
    else
      var s := Transmit(env.ids, n, env.wdevId, EthernetFrame(env, response), io);
      match s.result
      case Err(e) => RStep(rt, s.n, Err(DriverRejected(e)))
      case Ok(token) => RStep(Move(rt, AwaitingEapolTransmit(token, purpose)), s.n, Ok(EapolSubmitted(token, purpose)))
  }

  // ------------------------------------------------------------ radio frames

  function EthernetFault(env: Env, frame: seq<byte>): (fault: Option<EthernetError>)
    ensures fault.None? ==> |frame| >= HEADER_LEN
  {
    if |frame| < HEADER_LEN then Some(EthernetTooShort)
    else if |frame| > MAX_ETHERNET_LEN then Some(EthernetTooLarge)
    else if frame[..6] != env.cfg.local && frame[..6] != PAE_GROUP then Some(WrongDestination)
    else if frame[6..12] != env.cfg.peer then Some(WrongSource)
    else if EtherType(frame) != EAPOL then Some(WrongEtherType)
    else None
  }

  /** `on_ethernet_frame`. */
  ghost function OnFrame(env: Env, rt: Runtime, n: Native, frame: seq<byte>, io: Io): RStep
    requires EnvOk(env) && Supplicant.Typed(rt.supplicant)
  {
    if EthernetFault(env, frame).Some? then FailClosed(rt, n, BadEthernet(EthernetFault(env, frame).value))
    else OnPayload(env, rt, n, frame[HEADER_LEN..], io)
  }

  ghost function OnPayload(env: Env, rt: Runtime, n: Native, payload: seq<byte>, io: Io): RStep
    requires EnvOk(env) && Supplicant.Typed(rt.supplicant)
  {
    var digest := EapolKey.Sha256(env.cfg.crypto, payload);
    if RadioPending(rt.state) then
      if rt.digest == Some(digest) then RStep(rt, n, Ok(NoChange)) else FailClosed(rt, n, UnexpectedState(rt.state))
    else
      var step := Supplicant.OnEapol(env.cfg, rt.supplicant, env.cfg.peer, payload);
      var next := rt.(supplicant := step.state);
      match step.result
      case Err(e) => FailClosed(next, n, Wpa2Failed(e))
      case Ok(action) =>
        Guarded(Act(env, next.(digest := Some(digest)), n, action, rt.supplicant.phase == Supplicant.Complete, io))
  }

  /** `dispatch_wpa2_action`. */
  function Act(env: Env, rt: Runtime, n: Native, action: Supplicant.Action, wasComplete: bool, io: Io): (r: RStep)
    ensures r.rt.supplicant == rt.supplicant
  {
    match action
    case NoAction => RStep(rt, n, Ok(NoChange))
    case Transmit(response) =>
      SubmitEapol(env, rt, n, response, if wasComplete then ForRetransmission else ForMessage2, io.token)
    case InstallKeys(request) =>
      if rt.state != AwaitingAuthenticator then RStep(rt, n, Err(UnexpectedState(rt.state)))
      else SubmitKey(env, rt.(pairwise := Some(request)), n, PairwiseKey, io.key)
    case InstallGroupKey(request) =>
      if rt.state != RuntimeComplete then RStep(rt, n, Err(UnexpectedState(rt.state)))
      else SubmitKey(env, rt.(group := Some(request)), n, RekeyGroup, io.key)
  }

  // ----------------------------------------------------------- control events

  /** `on_control_event`. */
  function OnStatus(env: Env, rt: Runtime, n: Native, e: ControlEvent, io: Io): RStep
    requires Supplicant.Typed(rt.supplicant)
  {
    if !e.body.CommandStatus? then
      var (next, progress) := Refresh(rt, n);
      RStep(next, n, Ok(progress))
    else if e.body.status != 0 then FailClosed(rt, n, CommandRefused(e.body.command, e.body.status))
    else Guarded(OnSuccess(env, rt, n, e.body.command, io))
  }

  /** `dispatch_command_status`. */
  function OnSuccess(env: Env, rt: Runtime, n: Native, command: nat, io: Io): (r: RStep)
    requires Supplicant.Typed(rt.supplicant)
    ensures Supplicant.Typed(r.rt.supplicant)
  {
    match rt.state
    case AwaitingPairwiseKeyStatus => AdvanceKey(env, rt, n, command, InitialGroup, io)
    case AwaitingGroupKeyStatus => AdvanceKey(env, rt, n, command, InitialDefaultGroup, io)
    case AwaitingGroupRekeyStatus => AdvanceKey(env, rt, n, command, RekeyDefaultGroup, io)
    case AwaitingDefaultGroupKeyStatus => CompleteInstall(env, rt, n, command, false, io)
    case AwaitingDefaultGroupRekeyStatus => CompleteInstall(env, rt, n, command, true, io)
    case AwaitingAuthorizationStatus => Authorized(rt, n, command)
    case _ => RStep(rt, n, Err(UnexpectedState(rt.state)))
  }

  function AdvanceKey(env: Env, rt: Runtime, n: Native, command: nat, k: KeySubmission, io: Io): (r: RStep)
    ensures r.rt.supplicant == rt.supplicant
  {
    if command != NEW_KEY then RStep(rt, n, Err(UnexpectedCommandStatus(NEW_KEY, command)))
    else SubmitKey(env, rt, n, k, io.key)
  }

  function Authorized(rt: Runtime, n: Native, command: nat): (r: RStep)
    ensures r.rt.supplicant == rt.supplicant
  {
    if command != SET_STATION then RStep(rt, n, Err(UnexpectedCommandStatus(SET_STATION, command)))
    else if n.station.state == Connected then RStep(Move(rt, RuntimeComplete), n, Ok(HandshakeComplete))
    else RStep(Move(rt, AwaitingLinkCarrier), n, Ok(CarrierAwaited))
  }

  /** `complete_key_install`: all keys of a request are in. */
  function CompleteInstall(env: Env, rt: Runtime, n: Native, command: nat, rekey: bool, io: Io): (r: RStep)
    requires Supplicant.Typed(rt.supplicant)
    ensures Supplicant.Typed(r.rt.supplicant)
  {
    if command != SET_KEY then RStep(rt, n, Err(UnexpectedCommandStatus(SET_KEY, command)))
    else if (if rekey then rt.group.None? else rt.pairwise.None?) then RStep(rt, n, Err(MissingInstallRequest))
    else
      var c := if rekey then Supplicant.CompleteGroup(rt.supplicant, rt.group.value, true)
               else Supplicant.CompleteKeys(rt.supplicant, rt.pairwise.value, true);
      var next := if rekey then rt.(supplicant := c.after, group := None)
                  else rt.(supplicant := c.after, pairwise := None);
      match c.response
      case Err(e) => RStep(next, n, Err(Wpa2Failed(e)))
      case Ok(response) =>
        SubmitEapol(env, next, n, response, if rekey then ForGroupMessage2 else ForMessage4, io.token)
  }

  // ----------------------------------------------------------- transmit done

  predicate Delivered(done: TxResult) {
    done.statuses == [0]
  }

  /** `on_transmit_done`. */
  function OnTransmitDone(env: Env, rt: Runtime, n: Native, done: TxResult, io: Io): RStep
    requires Supplicant.Typed(rt.supplicant)
  {
    if !rt.state.AwaitingEapolTransmit? then RStep(rt, n, Ok(NoChange))
    else if rt.state.token != done.token then FailClosed(rt, n, TransmitCompletionMismatch(rt.state.token, done.token))
    else if !Delivered(done) then FailClosed(rt, n, TransmitNotDelivered)
    else Guarded(AfterTransmit(env, rt, n, rt.state.purpose, io))
  }

  /** `dispatch_transmit_purpose`. */
  function AfterTransmit(env: Env, rt: Runtime, n: Native, purpose: Purpose, io: Io): (r: RStep)
    ensures r.rt.supplicant == rt.supplicant
  {
    match purpose
    case ForMessage2 => RStep(Move(rt, AwaitingAuthenticator), n, Ok(NoChange))
    case ForRetransmission => RStep(Move(rt, RuntimeComplete), n, Ok(HandshakeComplete))
    case ForMessage4 =>
      var o := Submit(env.ids, n.station, Security(Authorize), io.key);
      var after := n.(station := o.s);
      if o.error.Some? then RStep(rt, after, Err(StationRejected(o.error.value)))
      else RStep(Move(rt, AwaitingAuthorizationStatus), after, Ok(AuthorizationSubmitted))
    case ForGroupMessage2 =>
      var after := n.(station := GroupRekeyed(n.station));
      if after.station.state == Fault then RStep(rt, after, Err(UnexpectedState(rt.state)))
      else RStep(Move(rt, RuntimeComplete), after, Ok(HandshakeComplete))
  }

  // -------------------------------------------------------------- fail closed

  /** What every error leaves behind. */
  predicate FailedClosed(r: RStep) {
    && r.rt.state == RuntimeFailed
    && r.rt.pairwise.None? && r.rt.group.None?
    && r.n.state == InRecovery && r.n.station.state == Recovering
    && r.n.station.link == UNLINKED && !PortOpen(r.n.station)
  }

  lemma FailIsClosed(rt: Runtime, n: Native, e: RuntimeError)
    requires Supplicant.Typed(rt.supplicant)
    ensures FailedClosed(FailClosed(rt, n, e))
    ensures rt.pairwise.Some? || rt.group.Some? ==> FailClosed(rt, n, e).rt.supplicant.phase == Supplicant.Failed
  {
  }

  /** Every error of the frame, control-event, transmit-done and time inputs
      leaves the runtime failed, both install slots empty, the driver in
      recovery and the controlled port closed. */
  lemma ErrorsFailClosed(env: Env, rt: Runtime, n: Native, frame: seq<byte>, e: ControlEvent, done: TxResult,
                         elapsed: nat, io: Io)
    requires EnvOk(env) && Supplicant.Typed(rt.supplicant)
    ensures OnFrame(env, rt, n, frame, io).result.Err? ==> FailedClosed(OnFrame(env, rt, n, frame, io))
    ensures OnStatus(env, rt, n, e, io).result.Err? ==> FailedClosed(OnStatus(env, rt, n, e, io))
    ensures OnTransmitDone(env, rt, n, done, io).result.Err? ==> FailedClosed(OnTransmitDone(env, rt, n, done, io))
    ensures AdvanceRuntime(rt, n, elapsed).result.Err? ==> FailedClosed(AdvanceRuntime(rt, n, elapsed))
  {
    hide Supplicant.OnEapol, Supplicant.CompleteKeys, Supplicant.CompleteGroup, Abandoned, Act, OnSuccess,
      AfterTransmit, EthernetFault, TimeoutOf;
  }

  /** While a radio operation is outstanding the frame that started it is
      ignored without extending its deadline; any other frame is fatal. */
  lemma OutstandingOperationIsUndisturbed(env: Env, rt: Runtime, n: Native, frame: seq<byte>, io: Io)
    requires EnvOk(env) && Supplicant.Typed(rt.supplicant)
    requires EthernetFault(env, frame).None? && RadioPending(rt.state)
    ensures var r := OnFrame(env, rt, n, frame, io);
            if rt.digest == Some(EapolKey.Sha256(env.cfg.crypto, frame[HEADER_LEN..]))
            then r == RStep(rt, n, Ok(NoChange))
            else r.result == Err(UnexpectedState(rt.state)) && FailedClosed(r)
  {
    hide Abandoned, EapolKey.Sha256, TimeoutOf;
  }

  // --------------------------------------------------------------- the object

  class Wpa2Runtime {
    const supplicant: Supplicant.Wpa2Supplicant
    const wdevId: nat
    var state: RuntimeState
    var pairwise: Option<Supplicant.KeyRequest>
    var group: Option<Supplicant.GroupRequest>
    var digest: Option<seq<byte>>
    var timeouts: Wpa2Timeouts
    var remaining: Option<nat>

    ghost function Value(): Runtime
      reads this, supplicant
    {
      Runtime(state, supplicant.Value(), pairwise, group, digest, timeouts, remaining)
    }

    ghost predicate Valid()
      reads supplicant
    {
      supplicant.Valid()
    }

    function EnvWith(ids: Ids): Env {
      Env(supplicant.cfg, ids, wdevId)
    }

    constructor (supplicant: Supplicant.Wpa2Supplicant, wdevId: nat)
      requires supplicant.Valid()
      ensures Valid() && this.supplicant == supplicant && this.wdevId == wdevId
      ensures Value() == Move(Runtime(AwaitingAuthenticator, supplicant.Value(), None, None, None,
                                      DEFAULT_WPA2_TIMEOUTS, None), AwaitingAuthenticator)
    {
      this.supplicant := supplicant;
      this.wdevId := wdevId;
      state, pairwise, group, digest := AwaitingAuthenticator, None, None, None;
      timeouts := DEFAULT_WPA2_TIMEOUTS;
      remaining := TimeoutOf(DEFAULT_WPA2_TIMEOUTS, AwaitingAuthenticator);
    }

    method Transition(next: RuntimeState)
      modifies this
      ensures Value() == Move(old(Value()), next)
    {
      state := next;
      remaining := TimeoutOf(timeouts, next);
    }

    method SetTimeouts(t: Wpa2Timeouts)
      modifies this
      ensures Value() == Retime(old(Value()), t)
    {
      timeouts := t;
      remaining := TimeoutOf(t, state);
    }

    /** `fail`: reports outstanding installations, then forces recovery. */
    method FailNow(driver: NativeDriver, e: RuntimeError) returns (r: Result<Progress, RuntimeError>)
      requires Valid()
      modifies this, supplicant, driver, driver.station
      ensures Valid() && RStep(Value(), driver.Value(), r) == FailClosed(old(Value()), old(driver.Value()), e)
    {
      hide Supplicant.CompleteKeys, Supplicant.CompleteGroup, TimeoutOf;
      if pairwise.Some? {
        var _ := supplicant.CompleteKeyInstall(pairwise.value, false);
        pairwise := None;
      }
      if group.Some? {
        var _ := supplicant.CompleteGroupKeyInstall(group.value, false);
        group := None;
      }
      digest := None;
      driver.StartRecovery();
      Transition(RuntimeFailed);
      r := Err(e);
    }

    method Guard(driver: NativeDriver, inner: Result<Progress, RuntimeError>)
      returns (r: Result<Progress, RuntimeError>)
      requires Valid()
      modifies this, supplicant, driver, driver.station
      ensures Valid()
      ensures RStep(Value(), driver.Value(), r) == Guarded(RStep(old(Value()), old(driver.Value()), inner))
    {
      if inner.Err? {
        r := FailNow(driver, inner.error);
        return;
      }
      r := inner;
    }

    method AdvanceTime(driver: NativeDriver, elapsed: nat) returns (r: Result<Progress, RuntimeError>)
      requires Valid()
      modifies this, supplicant, driver, driver.station
      ensures Valid()
      ensures RStep(Value(), driver.Value(), r) == AdvanceRuntime(old(Value()), old(driver.Value()), elapsed)
    {
      if remaining.None? {
        return Ok(NoChange);
      }
      if elapsed < remaining.value {
        remaining := Some(remaining.value - elapsed);
        return Ok(NoChange);
      }
      r := FailNow(driver, RuntimeTimeout(state));
    }

    method RestartPairwise(nonce: seq<byte>) returns (r: Option<Supplicant.HandshakeError>)
      requires Valid() && |nonce| == 32
      modifies this, supplicant
      ensures Valid() && (Value(), r) == Restart(old(Value()), nonce)
    {
      hide Supplicant.Restart;
      r := supplicant.RestartPairwise(nonce);
      if r.Some? {
        return;
      }
      pairwise := None;
      group := None;
      digest := None;
      Transition(AwaitingAuthenticator);
    }

    method RefreshCarrier(driver: NativeDriver) returns (p: Progress)
      modifies this
      ensures (Value(), p) == Refresh(old(Value()), driver.Value())
    {
      p := NoChange;
      if driver.station.state == Connected {
        Transition(RuntimeComplete);
        p := HandshakeComplete;
      }
    }

    method SendKey(driver: NativeDriver, k: KeySubmission, io: Submission) returns (r: Result<Progress, RuntimeError>)
      requires Valid() && driver.Valid()
      modifies this, driver.station
      ensures Valid()
      ensures RStep(Value(), driver.Value(), r) ==
              SubmitKey(EnvWith(driver.ids), old(Value()), old(driver.Value()), k, io)
    {
      hide Submit, TimeoutOf;
      if !(if k == RekeyGroup || k == RekeyDefaultGroup then group.Some? else pairwise.Some?) {
        return Err(MissingInstallRequest);
      }
      var error := driver.station.Run(Security(KeyCommandOf(k)), io);
      if error.Some? {
        return Err(StationRejected(error.value));
      }
      Transition(AfterKey(k));
      r := Ok(KeyProgress(k));
    }

    method SendEapol(driver: NativeDriver, response: seq<byte>, purpose: Purpose, io: Result<nat, DataError>)
      returns (r: Result<Progress, RuntimeError>)
      requires Valid() && driver.Valid()
      modifies this
      ensures Valid()
      ensures RStep(Value(), driver.Value(), r) ==
              SubmitEapol(EnvWith(driver.ids), old(Value()), driver.Value(), response, purpose, io)
    {
      hide Driver.Transmit, TimeoutOf;
      if HEADER_LEN + |response| > MAX_ETHERNET_LEN {
        return Err(BadEthernet(EthernetTooLarge));
      }
      var token := driver.TransmitFrame(wdevId, EthernetFrame(EnvWith(driver.ids), response), io);
      if token.Err? {
        assert Driver.Transmit(driver.ids, driver.Value(), wdevId,
                               EthernetFrame(EnvWith(driver.ids), response), io).n == driver.Value();
        return Err(DriverRejected(token.error));
      }
      Transition(AwaitingEapolTransmit(token.value, purpose));
      r := Ok(EapolSubmitted(token.value, purpose));
    }

    /** `on_ethernet_frame`. */
    method ReceiveFrame(driver: NativeDriver, frame: seq<byte>, io: Io) returns (r: Result<Progress, RuntimeError>)
      requires Valid() && driver.Valid()
      modifies this, supplicant, driver, driver.station
      ensures Valid()
      ensures RStep(Value(), driver.Value(), r) ==
              OnFrame(EnvWith(driver.ids), old(Value()), old(driver.Value()), frame, io)
    {
      hide Supplicant.OnEapol, EapolKey.Sha256, Act, Abandoned, TimeoutOf, EthernetFault;
      var fault := EthernetFault(EnvWith(driver.ids), frame);
      if fault.Some? {
        r := FailNow(driver, BadEthernet(fault.value));
        return;
      }
      r := ReceivePayload(driver, frame[HEADER_LEN..], io);
    }

    method ReceivePayload(driver: NativeDriver, payload: seq<byte>, io: Io) returns (r: Result<Progress, RuntimeError>)
      requires Valid() && driver.Valid()
      modifies this, supplicant, driver, driver.station
      ensures Valid()
      ensures RStep(Value(), driver.Value(), r) ==
              OnPayload(EnvWith(driver.ids), old(Value()), old(driver.Value()), payload, io)
    {
      hide Supplicant.OnEapol, EapolKey.Sha256, Act, FailClosed, TimeoutOf;
      var input := EapolKey.Sha256(supplicant.cfg.crypto, payload);
      if RadioPending(state) {
        if digest == Some(input) {
          return Ok(NoChange);
        }
        r := FailNow(driver, UnexpectedState(state));
        return;
      }
      var wasComplete := supplicant.phase == Supplicant.Complete;
      var action := supplicant.Receive(supplicant.cfg.peer, payload);
      if action.Err? {
        r := FailNow(driver, Wpa2Failed(action.error));
        return;
      }
      digest := Some(input);
      r := DispatchAction(driver, action.value, wasComplete, io);
      r := Guard(driver, r);
    }

    method DispatchAction(driver: NativeDriver, action: Supplicant.Action, wasComplete: bool, io: Io)
      returns (r: Result<Progress, RuntimeError>)
      requires Valid() && driver.Valid()
      modifies this, driver.station
      ensures Valid()
      ensures RStep(Value(), driver.Value(), r) ==
              Act(EnvWith(driver.ids), old(Value()), old(driver.Value()), action, wasComplete, io)
    {
      hide SubmitKey, SubmitEapol;
      match action {
        case NoAction => r := Ok(NoChange);
        case Transmit(response) =>
          r := SendEapol(driver, response, if wasComplete then ForRetransmission else ForMessage2, io.token);
        case InstallKeys(request) =>
          if state != AwaitingAuthenticator {
            return Err(UnexpectedState(state));
          }
          pairwise := Some(request);
          r := SendKey(driver, PairwiseKey, io.key);
        case InstallGroupKey(request) =>
          if state != RuntimeComplete {
            return Err(UnexpectedState(state));
          }
          group := Some(request);
          r := SendKey(driver, RekeyGroup, io.key);
      }
    }

    /** `on_control_event`. */
    method ReceiveControl(driver: NativeDriver, e: ControlEvent, io: Io) returns (r: Result<Progress, RuntimeError>)
      requires Valid() && driver.Valid()
      modifies this, supplicant, driver, driver.station
      ensures Valid()
      ensures RStep(Value(), driver.Value(), r) ==
              OnStatus(EnvWith(driver.ids), old(Value()), old(driver.Value()), e, io)
    {
      hide OnSuccess, FailClosed;
      if !e.body.CommandStatus? {
        var p := RefreshCarrier(driver);
        return Ok(p);
      }
      if e.body.status != 0 {
        r := FailNow(driver, CommandRefused(e.body.command, e.body.status));
        return;
      }
      r := DispatchStatus(driver, e.body.command, io);
      r := Guard(driver, r);
    }

    method DispatchStatus(driver: NativeDriver, command: nat, io: Io) returns (r: Result<Progress, RuntimeError>)
      requires Valid() && driver.Valid()
      modifies this, supplicant, driver.station
      ensures Valid()
      ensures RStep(Value(), driver.Value(), r) ==
              OnSuccess(EnvWith(driver.ids), old(Value()), old(driver.Value()), command, io)
    {
      hide SubmitKey, CompleteInstall, TimeoutOf;
      match state {
        case AwaitingPairwiseKeyStatus => r := NextKey(driver, command, InitialGroup, io);
        case AwaitingGroupKeyStatus => r := NextKey(driver, command, InitialDefaultGroup, io);
        case AwaitingGroupRekeyStatus => r := NextKey(driver, command, RekeyDefaultGroup, io);
        case AwaitingDefaultGroupKeyStatus => r := FinishInstall(driver, command, false, io);
        case AwaitingDefaultGroupRekeyStatus => r := FinishInstall(driver, command, true, io);
        case AwaitingAuthorizationStatus =>
          if command != SET_STATION {
            return Err(UnexpectedCommandStatus(SET_STATION, command));
          }
          if driver.station.state == Connected {
            Transition(RuntimeComplete);
            return Ok(HandshakeComplete);
          }
          Transition(AwaitingLinkCarrier);
          r := Ok(CarrierAwaited);
        case _ => r := Err(UnexpectedState(state));
      }
    }

    method NextKey(driver: NativeDriver, command: nat, k: KeySubmission, io: Io)
      returns (r: Result<Progress, RuntimeError>)
      requires Valid() && driver.Valid()
      modifies this, driver.station
      ensures Valid()
      ensures RStep(Value(), driver.Value(), r) ==
              AdvanceKey(EnvWith(driver.ids), old(Value()), old(driver.Value()), command, k, io)
    {
      hide SubmitKey;
      if command != NEW_KEY {
        return Err(UnexpectedCommandStatus(NEW_KEY, command));
      }
      r := SendKey(driver, k, io.key);
    }

    method FinishInstall(driver: NativeDriver, command: nat, rekey: bool, io: Io)
      returns (r: Result<Progress, RuntimeError>)
      requires Valid() && driver.Valid()
      modifies this, supplicant
      ensures Valid()
      ensures RStep(Value(), driver.Value(), r) ==
              CompleteInstall(EnvWith(driver.ids), old(Value()), driver.Value(), command, rekey, io)
    {
      hide SubmitEapol, Supplicant.CompleteKeys, Supplicant.CompleteGroup;
      if command != SET_KEY {
        return Err(UnexpectedCommandStatus(SET_KEY, command));
      }
      if if rekey then group.None? else pairwise.None? {
        return Err(MissingInstallRequest);
      }
      var response;
      if rekey {
        var request := group.value;
        group := None;
        response := supplicant.CompleteGroupKeyInstall(request, true);
      } else {
        var request := pairwise.value;
        pairwise := None;
        response := supplicant.CompleteKeyInstall(request, true);
      }
      if response.Err? {
        return Err(Wpa2Failed(response.error));
      }
      r := SendEapol(driver, response.value, if rekey then ForGroupMessage2 else ForMessage4, io.token);
    }

    /** `on_transmit_done`. */
    method ReceiveTransmitDone(driver: NativeDriver, done: TxResult, io: Io) returns (r: Result<Progress, RuntimeError>)
      requires Valid() && driver.Valid()
      modifies this, supplicant, driver, driver.station
      ensures Valid()
      ensures RStep(Value(), driver.Value(), r) ==
              OnTransmitDone(EnvWith(driver.ids), old(Value()), old(driver.Value()), done, io)
    {
      hide AfterTransmit, FailClosed;
      if !state.AwaitingEapolTransmit? {
        return Ok(NoChange);
      }
      if state.token != done.token {
        r := FailNow(driver, TransmitCompletionMismatch(state.token, done.token));
        return;
      }
      if !Delivered(done) {
        r := FailNow(driver, TransmitNotDelivered);
        return;
      }
      r := DispatchPurpose(driver, state.purpose, io);
      r := Guard(driver, r);
    }

    method DispatchPurpose(driver: NativeDriver, purpose: Purpose, io: Io) returns (r: Result<Progress, RuntimeError>)
      requires Valid() && driver.Valid()
      modifies this, driver.station
      ensures Valid()
      ensures RStep(Value(), driver.Value(), r) ==
              AfterTransmit(EnvWith(driver.ids), old(Value()), old(driver.Value()), purpose, io)
    {
      hide Submit, TimeoutOf;
      match purpose {
        case ForMessage2 =>
          Transition(AwaitingAuthenticator);
          r := Ok(NoChange);
        case ForRetransmission =>
          Transition(RuntimeComplete);
          r := Ok(HandshakeComplete);
        case ForMessage4 =>
          var error := driver.station.AuthorizePeer(io.key);
          if error.Some? {
            return Err(StationRejected(error.value));
          }
          Transition(AwaitingAuthorizationStatus);
          r := Ok(AuthorizationSubmitted);
        case ForGroupMessage2 =>
          var next := driver.station.CompleteGroupRekey();
          if next == Fault {
            return Err(UnexpectedState(state));
          }
          Transition(RuntimeComplete);
          r := Ok(HandshakeComplete);
      }
    }
  }
}
