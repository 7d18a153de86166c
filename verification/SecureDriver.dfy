/** The integrated WPA2 station driver (src/production.rs) and the properties
    that span the supplicant, the station, the native driver and the
    production layer. */
module SecureDriver {
  import opened Bytes
  import opened DeviceTypes
  import opened Driver
  import EapolKey
  import opened Production
  import opened SecureRuntime
  import opened Station
  import Supplicant
  import opened Wrappers

  datatype SecureError =
    | ProductionFailed(production: ProductionError)
    | RuntimeFailedWith(runtime: RuntimeError)
    | SupplicantRefused(supplicant: Supplicant.HandshakeError)

  datatype SecureEvent = SecureEvent(event: DriverEvent, security: Progress)

  datatype SecureReceive = NormalData(frame: ReceivedFrame) | EapolConsumed(progress: Progress)

  datatype SStep<T> = SStep(rt: Runtime, n: Native, result: Result<T, SecureError>)

  // -------------------------------------------------------------- transitions

  /** `expected_security_command`. */
  function ExpectedCommand(state: RuntimeState): Option<nat> {
    match state
    case AwaitingPairwiseKeyStatus => Some(NEW_KEY)
    case AwaitingGroupKeyStatus => Some(NEW_KEY)
    case AwaitingGroupRekeyStatus => Some(NEW_KEY)
    case AwaitingDefaultGroupKeyStatus => Some(SET_KEY)
    case AwaitingDefaultGroupRekeyStatus => Some(SET_KEY)
    case AwaitingAuthorizationStatus => Some(SET_STATION)
    case _ => None
  }

  predicate StatusExpected(state: RuntimeState, e: ControlEvent) {
    e.body.CommandStatus? && ExpectedCommand(state) == Some(e.body.command)
  }

  predicate TransmitExpected(state: RuntimeState, done: TxResult) {
    state.AwaitingEapolTransmit? && state.token == done.token
  }

  /** `apply_security_event`. */
  function ApplyEvent(env: Env, rt: Runtime, n: Native, e: DriverEvent, io: Io): RStep
    requires Supplicant.Typed(rt.supplicant)
  {
    match e
    case ControlDone(control) =>
      if StatusExpected(rt.state, control) then OnStatus(env, rt, n, control, io) else RStep(rt, n, Ok(NoChange))
    case TransmitDone(done) =>
      if TransmitExpected(rt.state, done) then OnTransmitDone(env, rt, n, done, io) else RStep(rt, n, Ok(NoChange))
    case LinkDone(_) =>
      var (next, progress) := Refresh(rt, n);
      RStep(next, n, Ok(progress))
    case _ => RStep(rt, n, Ok(NoChange))
  }

  function SecurePoll(env: Env, rt: Runtime, n: Native, read: EventRead, io: Io): SStep<Option<SecureEvent>>
    requires Supplicant.Typed(rt.supplicant)
  {
    var p := Finish(Poll(env.ids, n, read), Event);
    if p.result.Err? then SStep(rt, p.n, Err(ProductionFailed(p.result.error)))
    else if p.result.value.None? then SStep(rt, p.n, Ok(None))
    else
      var event := p.result.value.value;
      var r := ApplyEvent(env, rt, p.n, event, io);
      SStep(r.rt, r.n,
            if r.result.Ok? then Ok(Some(SecureEvent(event, r.result.value)))
            else Err(RuntimeFailedWith(r.result.error)))
  }

  function SecureTick(rt: Runtime, n: Native, elapsed: nat): SStep<()>
    requires Supplicant.Typed(rt.supplicant)
  {
    var p := Finish(AdvanceTime(n, elapsed), Control);
    match p.result
    case Err(e) => SStep(rt, p.n, Err(ProductionFailed(e)))
    case Ok(_) =>
      var r := AdvanceRuntime(rt, p.n, elapsed);
      SStep(r.rt, r.n, if r.result.Ok? then Ok(()) else Err(RuntimeFailedWith(r.result.error)))
  }

  /** One packet: its interface, how packet RAM answered, and its bytes. */
  datatype Packet = Packet(wdevId: nat, received: Result<ReceivedFrame, DataError>, copied: seq<byte>)

  predicate PacketOk(p: Packet) {
    p.received.Ok? ==> p.received.value.len <= |p.copied|
  }

  /** `receive_packet`; the second component is the caller's buffer. */
  ghost function SecureTake(env: Env, rt: Runtime, n: Native, p: Packet, io: Io): (SStep<SecureReceive>, seq<byte>)
    requires EnvOk(env) && Supplicant.Typed(rt.supplicant) && PacketOk(p)
  {
    var (s, buffer) := Take(env.ids, n, p.wdevId, p.received, p.copied);
    match s.result
    case Err(e) => (SStep(rt, s.n, Err(ProductionFailed(e))), buffer)
    case Ok(frame) =>
      if frame.etherType != EAPOL then (SStep(rt, s.n, Ok(NormalData(frame))), buffer)
      else
        assert p.received == Ok(frame) && |buffer| == |p.copied|;
        var r := OnFrame(env, rt, s.n, buffer[..frame.len], io);
        (SStep(r.rt, r.n,
               if r.result.Ok? then Ok(EapolConsumed(r.result.value)) else Err(RuntimeFailedWith(r.result.error))),
         Wiped(buffer, frame.len))
  }

  // --------------------------------------------------------------------- runs

  /** What a caller sees of one event or EAPOL packet. */
  datatype Seen = Seen(event: Option<DriverEvent>, progress: Progress)

  /** The whole system; what its caller has seen, ever and since the last
      secure association was submitted; how many of those there were; and
      whether no earlier Message 4 was on its way at the last one. */
  datatype System = System(
    n: Native, rt: Runtime, history: seq<Seen>, log: seq<Seen>, associations: nat, clean: bool)

  datatype Moved = Moved(n: Native, rt: Runtime, seen: seq<Seen>)

  datatype SecureCall =
    | Direct(call: Call)
    | Tick(elapsed: nat)
    | PollEvent(read: EventRead, io: Io)
    | TakePacket(packet: Packet, io: Io)
    | NewHandshake(nonce: seq<byte>)
    | NewDeadlines(timeouts: Wpa2Timeouts)

  predicate SecureCallOk(c: SecureCall) {
    match c
    case Direct(call) => CallOk(call)
    case TakePacket(packet, _) => PacketOk(packet)
    case NewHandshake(nonce) => |nonce| == 32
    case _ => true
  }

  /** A driver handed to a fresh coordinator: anything reachable in which no
      secure station is authorized yet. */
  predicate Handed(n: Native) {
    && Closed(n) && ReturnOk(n.station)
    && n.station.state != Authorizing
    && !(n.station.link.secure && n.station.link.authorized)
  }

  function Start(n: Native, nonce: seq<byte>): System {
    System(n, Fresh(nonce), [], [], if n.station.link.secure then 1 else 0, true)
  }

  predicate SecureAssociation(env: Env, n: Native, c: Call) {
    c.CallRun? && c.command.Associate? && c.command.secure && Run(env.ids, n, c.command, c.io).result.Ok?
  }

  /** An event polled past the coordinator. */
  function DirectlySeen(env: Env, n: Native, c: Call): seq<Seen> {
    if !c.CallPoll? then [] else PolledSeen(Finish(Poll(env.ids, n, c.read), Event).result)
  }

  function PolledSeen(r: Result<Option<DriverEvent>, ProductionError>): seq<Seen> {
    if r.Ok? && r.value.Some? then [Seen(Some(r.value.value), NoChange)] else []
  }

  ghost function Make(env: Env, n: Native, rt: Runtime, c: SecureCall): Moved
    requires EnvOk(env) && Supplicant.Typed(rt.supplicant) && SecureCallOk(c)
  {
    match c
    case Direct(call) => Moved(Perform(env.ids, n, call).n, rt, DirectlySeen(env, n, call))
    case Tick(elapsed) =>
      var s := SecureTick(rt, n, elapsed);
      Moved(s.n, s.rt, [])
    case PollEvent(read, io) =>
      var s := SecurePoll(env, rt, n, read, io);
      Moved(s.n, s.rt,
            if s.result.Ok? && s.result.value.Some?
            then [Seen(Some(s.result.value.value.event), s.result.value.value.security)] else [])
    case TakePacket(packet, io) =>
      var s := SecureTake(env, rt, n, packet, io).0;
      Moved(s.n, s.rt,
            if s.result.Ok? && s.result.value.EapolConsumed? then [Seen(None, s.result.value.progress)] else [])
    case NewHandshake(nonce) => Moved(n, SecureRuntime.Restart(rt, nonce).0, [])
    case NewDeadlines(t) => Moved(n, Retime(rt, t), [])
  }

  ghost function Next(env: Env, y: System, c: SecureCall): (z: System)
    requires EnvOk(env) && Supplicant.Typed(y.rt.supplicant) && SecureCallOk(c)
  {
    var m := Make(env, y.n, y.rt, c);
    if c.Direct? && SecureAssociation(env, y.n, c.call)
    then System(m.n, m.rt, y.history + m.seen, [], y.associations + 1, !Carries(y.rt.state))
    else System(m.n, m.rt, y.history + m.seen, y.log + m.seen, y.associations, y.clean)
  }

  // --------------------------------------------------------------- milestones

  predicate Acknowledges(x: Seen, command: nat) {
    x.event.Some? && x.event.value.ControlDone? && x.event.value.control.body == CommandStatus(command, 0)
  }

  /** The steps of authorization; `token` is that of the Message 4 frame. */
  predicate Milestone(x: Seen, k: nat, token: nat) {
    match k
    case 1 => x.progress == PairwiseKeySubmitted
    case 2 => Acknowledges(x, NEW_KEY) && x.progress == GroupKeySubmitted
    case 3 => Acknowledges(x, NEW_KEY) && x.progress == DefaultGroupKeySubmitted
    case 4 => Acknowledges(x, SET_KEY) && x.progress == EapolSubmitted(token, ForMessage4)
    case 5 => x.event == Some(TransmitDone(TxResult(token, [0]))) && x.progress == AuthorizationSubmitted
    case 6 => Acknowledges(x, SET_STATION)
    case _ => false
  }

  /** Milestones 1 to `k` occur in the log in this order. */
  ghost predicate Reached(log: seq<Seen>, k: nat, token: nat) {
    k == 0 || exists i | 0 <= i < |log| :: Milestone(log[i], k, token) && Reached(log[..i], k - 1, token)
  }

  lemma ReachedStays(log: seq<Seen>, more: seq<Seen>, k: nat, token: nat)
    requires Reached(log, k, token)
    ensures Reached(log + more, k, token)
  {
    if k > 0 {
      var i :| 0 <= i < |log| && Milestone(log[i], k, token) && Reached(log[..i], k - 1, token);
      assert (log + more)[i] == log[i] && (log + more)[..i] == log[..i];
    }
  }

  lemma ReachedAdvances(log: seq<Seen>, x: Seen, k: nat, token: nat)
    requires Reached(log, k, token) && Milestone(x, k + 1, token)
    ensures Reached(log + [x], k + 1, token)
  {
    var all := log + [x];
    assert all[|log|] == x && all[..|log|] == log;
  }

  /** The positions of the milestones. */
  lemma {:induction false} ReachedPositions(log: seq<Seen>, k: nat, token: nat) returns (at: seq<nat>)
    requires Reached(log, k, token)
    ensures |at| == k
    ensures forall i | 0 <= i < k :: at[i] < |log| && Milestone(log[at[i]], i + 1, token)
    ensures forall i, j | 0 <= i < j < k :: at[i] < at[j]
    decreases k
  {
    if k == 0 {
      at := [];
    } else {
      var last :| 0 <= last < |log| && Milestone(log[last], k, token) && Reached(log[..last], k - 1, token);
      var before := ReachedPositions(log[..last], k - 1, token);
      at := before + [last];
    }
  }

  // ---------------------------------------------------------------- invariant

  /** Commands return only to the states they were accepted in. */
  predicate ReturnOk(s: Controller) {
    s.returnState.Some? ==> s.returnState.value in {Down, Idle, Connected}
  }

  /** Message 4 is submitted and its transmit-done awaited. */
  predicate Carries(state: RuntimeState) {
    state.AwaitingEapolTransmit? && state.purpose == ForMessage4
  }

  predicate Uninvolved(state: RuntimeState) {
    state == AwaitingAuthenticator || state == RuntimeComplete || state == RuntimeFailed
  }

  ghost predicate RuntimeEarned(state: RuntimeState, log: seq<Seen>) {
    match state
    case AwaitingPairwiseKeyStatus => Reached(log, 1, 0)
    case AwaitingGroupKeyStatus => Reached(log, 2, 0)
    case AwaitingDefaultGroupKeyStatus => Reached(log, 3, 0)
    case AwaitingEapolTransmit(token, ForMessage4) => Reached(log, 4, token)
    case _ => true
  }

  ghost predicate EverReached(log: seq<Seen>, k: nat) {
    exists token :: Reached(log, k, token)
  }

  ghost predicate StationEarned(s: Controller, log: seq<Seen>) {
    && (s.state == Authorizing ==> EverReached(log, 5))
    && (s.link.secure && s.link.authorized ==> EverReached(log, 6))
  }

  ghost predicate Earned(n: Native, rt: Runtime, log: seq<Seen>) {
    && Supplicant.Typed(rt.supplicant)
    && Closed(n) && ReturnOk(n.station)
    && RuntimeEarned(rt.state, log) && StationEarned(n.station, log)
  }

  predicate AwaitsInitialKey(state: RuntimeState) {
    state == AwaitingPairwiseKeyStatus || state == AwaitingGroupKeyStatus || state == AwaitingDefaultGroupKeyStatus
  }

  /** The coordinator awaits the acknowledgement of a key of an earlier handshake,
      which the station no longer accepts. */
  predicate Stale(n: Native, rt: Runtime) {
    AwaitsInitialKey(rt.state) && n.station.pending != Some(NEW_KEY) && n.station.pending != Some(SET_KEY)
  }

  ghost predicate EarnedOrStale(n: Native, rt: Runtime, log: seq<Seen>) {
    && Supplicant.Typed(rt.supplicant)
    && Closed(n) && ReturnOk(n.station)
    && (RuntimeEarned(rt.state, log) || Stale(n, rt)) && StationEarned(n.station, log)
  }

  predicate Unassociated(n: Native, rt: Runtime) {
    !n.station.link.secure && Uninvolved(rt.state)
  }

  ghost predicate Inv(y: System) {
    && Earned(y.n, y.rt, y.history)
    && (y.clean ==> EarnedOrStale(y.n, y.rt, y.log))
    && (y.associations <= 1 ==> y.clean)
    && (y.associations == 0 ==> Unassociated(y.n, y.rt))
  }

  // ------------------------------------------------------- the station's part

  /** A station step that neither authorizes nor starts an authorization. */
  predicate Tame(s: Controller, t: Controller) {
    && ReturnOk(t)
    && (t.state == Authorizing ==> s.state == Authorizing)
    && (t.link.secure ==> s.link.secure)
    && (t.link.secure && t.link.authorized ==> s.link.authorized)
  }

  /** The acknowledgement of an outstanding authorization. */
  predicate Authorizes(s: Controller, e: ControlEvent) {
    s.state == Authorizing && e.body == CommandStatus(SET_STATION, 0)
  }

  lemma StatusIsTame(s: Controller, command: nat, status: nat)
    requires ReturnOk(s)
    ensures var t := OnCommandStatus(s, command, status).s;
            || Tame(s, t)
            || (&& s.state == Authorizing && command == SET_STATION && status == 0
                && ReturnOk(t) && t.state != Authorizing && t.link.secure == s.link.secure)
  {
    hide Timeout;
  }

  lemma ManagementIsTame(s: Controller, result: int, m: Mlme)
    requires ReturnOk(s)
    ensures Tame(s, OnAuthentication(s, result, m).s)
    ensures Tame(s, OnAssociation(s, result, m).s)
    ensures Tame(s, OnDisconnected(s, m).s)
  {
    hide Timeout, MlmeStatus, Address;
  }

  lemma InterfaceAndScanAreTame(s: Controller, status: int, sequence: nat)
    requires ReturnOk(s)
    ensures Tame(s, OnInterfaceState(s, status).s) && Tame(s, OnInterfaceCreated(s, status).s)
    ensures Tame(s, OnRegulatoryChange(s).s)
    ensures Tame(s, OnScanDone(s, status).s) && Tame(s, OnScanResult(s, sequence).s)
  {
    hide Timeout;
  }

  lemma ControlIsTame(ids: Ids, s: Controller, e: ControlEvent)
    requires ReturnOk(s)
    ensures var t := OnControl(ids, s, e).s;
            || Tame(s, t)
            || (Authorizes(s, e) && ReturnOk(t) && t.state != Authorizing && t.link.secure == s.link.secure)
  {
    hide Timeout, OnCommandStatus, OnInterfaceState, OnRegulatoryChange, OnInterfaceCreated, OnScanDone, OnScanResult,
      OnAuthentication, OnAssociation, OnDisconnected;
    match e.body
    case CommandStatus(command, status) => StatusIsTame(s, command, status);
    case InterfaceState(status) => InterfaceAndScanAreTame(s, status, 0);
    case RegulatoryChange => InterfaceAndScanAreTame(s, 0, 0);
    case OtherControl => InterfaceAndScanAreTame(s, e.header.result, 0);
    case ScanDone(status) => InterfaceAndScanAreTame(s, status, 0);
    case ScanResult(sequence) => InterfaceAndScanAreTame(s, 0, sequence);
    case Authentication(m) => ManagementIsTame(s, e.header.result, m);
    case Association(m) => ManagementIsTame(s, e.header.result, m);
    case Deauthentication(m) => ManagementIsTame(s, 0, m);
    case Disassociation(m) => ManagementIsTame(s, 0, m);
  }

  lemma DataIsTame(ids: Ids, s: Controller, e: LinkEvent)
    requires ReturnOk(s)
    ensures Tame(s, OnData(ids, s, e).s)
  {
    hide Timeout;
  }

  lemma TimeAndRecoveryAreTame(s: Controller, elapsed: nat)
    requires ReturnOk(s)
    ensures Tame(s, Advance(s, elapsed).s) && Tame(s, BeginRecovery(s)) && Tame(s, RecoveryComplete(s))
    ensures Tame(s, GroupRekeyed(s))
  {
    hide Timeout;
  }

  lemma CommandIsTame(ids: Ids, s: Controller, c: Command, io: Submission)
    requires ReturnOk(s)
    requires Offered(c) || !c.security.Authorize?
    requires c.Associate? && c.secure ==> Submit(ids, s, c, io).error.Some?
    ensures Tame(s, Submit(ids, s, c, io).s)
  {
    hide Timeout;
  }

  lemma TameTwice(s: Controller, t: Controller, u: Controller)
    requires Tame(s, t) && Tame(t, u)
    ensures Tame(s, u)
  {
  }

  lemma RecoveryIsTame(s: Controller, n: Native)
    ensures Tame(s, EnterRecovery(n).station) && Closed(EnterRecovery(n))
  {
    hide Timeout;
  }

  lemma FinishIsTame<T>(s: Controller, r: Step<T>, op: Operation)
    requires Tame(s, r.n.station)
    ensures Tame(s, Finish(r, op).n.station)
    ensures Closed(r.n) ==> Closed(Finish(r, op).n)
  {
    hide NeedsRecovery, Tame;
    RecoveryIsTame(s, r.n);
  }

  lemma DispatchIsTame(ids: Ids, n: Native, m: Message)
    requires ReturnOk(n.station)
    ensures var r := Dispatch(ids, n, m);
            || Tame(n.station, r.n.station)
            || (&& r.result.Ok? && r.result.value.ControlDone? && Authorizes(n.station, r.result.value.control)
                && ReturnOk(r.n.station) && r.n.station.state != Authorizing
                && r.n.station.link.secure == n.station.link.secure)
  {
    hide OnControl, OnData, BeginRecovery, RecoveryComplete, Timeout;
    TimeAndRecoveryAreTame(n.station, 0);
    match m
    case ControlMessage(Some(e)) =>
      ControlIsTame(ids, n.station, e);
      RecoveryIsTame(n.station, n.(station := OnControl(ids, n.station, e).s));
    case DataMessageOf(LinkData(e)) =>
      DataIsTame(ids, n.station, e);
      RecoveryIsTame(n.station, n.(station := OnData(ids, n.station, e).s));
    case _ =>
      RecoveryIsTame(n.station, n);
  }

  lemma PollIsTame(ids: Ids, n: Native, read: EventRead)
    requires ReturnOk(n.station) && Closed(n)
    ensures var p := Finish(Poll(ids, n, read), Event);
            && Closed(p.n)
            && (|| Tame(n.station, p.n.station)
                || (&& p.result.Ok? && p.result.value.Some? && p.result.value.value.ControlDone?
                    && Authorizes(n.station, p.result.value.value.control) && ReturnOk(p.n.station)
                    && p.n.station.state != Authorizing && p.n.station.link.secure == n.station.link.secure))
  {
    hide Dispatch, BeginRecovery, Timeout, NeedsRecovery, Closed, Authorizes, Tame;
    PollKeepsClosed(ids, n, read);
    RecoveryIsTame(n.station, n);
    assert Tame(n.station, n.station) by { TameSame(n.station); }
    if read.Read? {
      DispatchIsTame(ids, n, read.message);
    }
    var r := Poll(ids, n, read);
    RecoveryIsTame(n.station, r.n);
  }

  lemma TameSame(s: Controller)
    requires ReturnOk(s)
    ensures Tame(s, s)
  {
  }

  lemma PerformIsTame(env: Env, n: Native, c: Call)
    requires CallOk(c) && ReturnOk(n.station) && !SecureAssociation(env, n, c)
    requires !c.CallPoll?
    ensures Tame(n.station, Perform(env.ids, n, c).n.station)
  {
    hide BeginRecovery, Timeout, NeedsRecovery, StationNeedsRecovery, PortAdmits, Allowed, Submit, Advance;
    TameSame(n.station);
    RecoveryIsTame(n.station, n);
    match c
    case CallRun(command, io) =>
      if n.state == Ready {
        CommandIsTame(env.ids, n.station, command, io);
        RecoveryIsTame(n.station, n.(station := Submit(env.ids, n.station, command, io).s));
      }
    case CallTick(elapsed) =>
      TimeAndRecoveryAreTame(n.station, elapsed);
      RecoveryIsTame(n.station, n.(station := Advance(n.station, elapsed).s));
      FinishIsTame(n.station, AdvanceTime(n, elapsed), Control);
    case CallReceive(wdevId, received, _) =>
      RecoveryIsTame(n.station, Receive(env.ids, n, wdevId, received).n);
    case CallWatchdog(io) => FinishIsTame(n.station, WatchdogPending(n, io), Watchdog);
    case CallAcknowledge(written) => FinishIsTame(n.station, AcknowledgeWatchdog(n, written), Watchdog);
    case _ =>
  }

  // ------------------------------------------------------- the runtime's part

  /** A runtime step keeps everything earned. */
  ghost predicate Earns(n: Native, r: RStep, after: seq<Seen>) {
    && Supplicant.Typed(r.rt.supplicant)
    && Closed(r.n) && RuntimeEarned(r.rt.state, after)
    && (Tame(n.station, r.n.station)
        || (ReturnOk(r.n.station) && EverReached(after, 5) && r.n.station.link == n.station.link))
  }

  function After(log: seq<Seen>, event: Option<DriverEvent>, r: RStep): seq<Seen> {
    if r.result.Ok? then log + [Seen(event, r.result.value)] else log
  }

  lemma FailureEarns(n: Native, rt: Runtime, m: Native, e: RuntimeError, after: seq<Seen>)
    requires Supplicant.Typed(rt.supplicant)
    ensures Earns(n, FailClosed(rt, m, e), after)
  {
    hide Abandoned, TimeoutOf, Tame;
    RecoveryIsTame(n.station, m);
  }

  lemma GuardEarns(n: Native, r: RStep, after: seq<Seen>)
    requires Supplicant.Typed(r.rt.supplicant) && (r.result.Ok? ==> Earns(n, r, after))
    ensures Earns(n, Guarded(r), after)
  {
    hide Earns;
    if r.result.Err? {
      FailureEarns(n, r.rt, r.n, r.result.error, after);
    }
  }

  lemma EarnedStays(state: RuntimeState, log: seq<Seen>, more: seq<Seen>)
    requires RuntimeEarned(state, log)
    ensures RuntimeEarned(state, log + more)
  {
    hide Reached;
    match state
    case AwaitingPairwiseKeyStatus => ReachedStays(log, more, 1, 0);
    case AwaitingGroupKeyStatus => ReachedStays(log, more, 2, 0);
    case AwaitingDefaultGroupKeyStatus => ReachedStays(log, more, 3, 0);
    case AwaitingEapolTransmit(token, ForMessage4) => ReachedStays(log, more, 4, token);
    case _ =>
  }

  lemma EverStays(log: seq<Seen>, more: seq<Seen>, k: nat)
    requires EverReached(log, k)
    ensures EverReached(log + more, k)
  {
    hide Reached;
    var token :| Reached(log, k, token);
    ReachedStays(log, more, k, token);
  }

  /** The first three milestones do not depend on the token. */
  lemma {:induction false} TokenFree(log: seq<Seen>, k: nat, token: nat)
    requires Reached(log, k, 0) && k <= 3
    ensures Reached(log, k, token)
    decreases k
  {
    if k > 0 {
      var i :| 0 <= i < |log| && Milestone(log[i], k, 0) && Reached(log[..i], k - 1, 0);
      TokenFree(log[..i], k - 1, token);
      assert Milestone(log[i], k, token);
    }
  }

  lemma KeyCommandIsClosed(env: Env, n: Native, c: SecurityCommand, io: Submission)
    requires Closed(n)
    ensures Closed(n.(station := Submit(env.ids, n.station, Security(c), io).s))
  {
    hide Committed;
  }

  /** Which milestone an accepted key submission completes. */
  predicate KeyTurn(k: KeySubmission, event: Option<DriverEvent>) {
    k == InitialGroup || k == InitialDefaultGroup ==> Acknowledges(Seen(event, NoChange), NEW_KEY)
  }

  ghost predicate KeyDue(k: KeySubmission, log: seq<Seen>) {
    match k
    case InitialGroup => Reached(log, 1, 0)
    case InitialDefaultGroup => Reached(log, 2, 0)
    case _ => true
  }

  lemma KeyEarns(env: Env, rt: Runtime, n: Native, k: KeySubmission, io: Submission, log: seq<Seen>,
                 event: Option<DriverEvent>)
    requires Supplicant.Typed(rt.supplicant) && Closed(n) && ReturnOk(n.station)
    requires KeyTurn(k, event) && KeyDue(k, log)
    requires SubmitKey(env, rt, n, k, io).result.Ok?
    ensures Earns(n, SubmitKey(env, rt, n, k, io), After(log, event, SubmitKey(env, rt, n, k, io)))
  {
    hide Submit, Reached, TimeoutOf, Tame, Closed, ReturnOk;
    CommandIsTame(env.ids, n.station, Security(KeyCommandOf(k)), io);
    KeyCommandIsClosed(env, n, KeyCommandOf(k), io);
    var x := Seen(event, KeyProgress(k));
    match k
    case PairwiseKey => ReachedAdvances(log, x, 0, 0) by { NothingIsReached(log); }
    case InitialGroup => ReachedAdvances(log, x, 1, 0);
    case InitialDefaultGroup => ReachedAdvances(log, x, 2, 0);
    case _ =>
  }

  lemma NothingIsReached(log: seq<Seen>)
    ensures Reached(log, 0, 0)
  {
  }

  lemma EapolEarns(env: Env, rt: Runtime, n: Native, response: seq<byte>, purpose: Purpose, io: Result<nat, DataError>,
                   log: seq<Seen>, event: Option<DriverEvent>)
    requires Supplicant.Typed(rt.supplicant) && Closed(n) && ReturnOk(n.station)
    requires purpose == ForMessage4 ==> Acknowledges(Seen(event, NoChange), SET_KEY) && Reached(log, 3, 0)
    requires SubmitEapol(env, rt, n, response, purpose, io).result.Ok?
    ensures var r := SubmitEapol(env, rt, n, response, purpose, io); Earns(n, r, After(log, event, r))
  {
    hide Reached, TimeoutOf, Closed, ReturnOk, PortAdmits;
    TameSame(n.station);
    if purpose == ForMessage4 {
      TokenFree(log, 3, io.value);
      ReachedAdvances(log, Seen(event, EapolSubmitted(io.value, ForMessage4)), 3, io.value);
    }
  }

  lemma InstallEarns(env: Env, rt: Runtime, n: Native, e: ControlEvent, rekey: bool, io: Io, log: seq<Seen>)
    requires Supplicant.Typed(rt.supplicant) && Closed(n) && ReturnOk(n.station)
    requires e.body.CommandStatus? && e.body.status == 0 && (!rekey ==> Reached(log, 3, 0))
    requires CompleteInstall(env, rt, n, e.body.command, rekey, io).result.Ok?
    ensures var r := CompleteInstall(env, rt, n, e.body.command, rekey, io);
            Earns(n, r, After(log, Some(ControlDone(e)), r))
  {
    hide SubmitEapol, Earns, Reached, Closed, ReturnOk, Supplicant.CompleteKeys, Supplicant.CompleteGroup;
    var c := if rekey then Supplicant.CompleteGroup(rt.supplicant, rt.group.value, true)
             else Supplicant.CompleteKeys(rt.supplicant, rt.pairwise.value, true);
    var next := if rekey then rt.(supplicant := c.after, group := None)
                else rt.(supplicant := c.after, pairwise := None);
    EapolEarns(env, next, n, c.response.value, if rekey then ForGroupMessage2 else ForMessage4, io.token, log,
               Some(ControlDone(e)));
  }

  lemma SuccessEarns(env: Env, rt: Runtime, n: Native, e: ControlEvent, io: Io, log: seq<Seen>)
    requires Supplicant.Typed(rt.supplicant) && Closed(n) && ReturnOk(n.station) && RuntimeEarned(rt.state, log)
    requires e.body.CommandStatus? && e.body.status == 0
    requires OnSuccess(env, rt, n, e.body.command, io).result.Ok?
    ensures var r := OnSuccess(env, rt, n, e.body.command, io); Earns(n, r, After(log, Some(ControlDone(e)), r))
  {
    var event := Some(ControlDone(e));
    hide SubmitKey, CompleteInstall, Reached, Closed, ReturnOk, TimeoutOf;
    TameSame(n.station);
    match rt.state
    case AwaitingPairwiseKeyStatus => KeyEarns(env, rt, n, InitialGroup, io.key, log, event);
    case AwaitingGroupKeyStatus => KeyEarns(env, rt, n, InitialDefaultGroup, io.key, log, event);
    case AwaitingGroupRekeyStatus => KeyEarns(env, rt, n, RekeyDefaultGroup, io.key, log, event);
    case AwaitingDefaultGroupKeyStatus => InstallEarns(env, rt, n, e, false, io, log);
    case AwaitingDefaultGroupRekeyStatus => InstallEarns(env, rt, n, e, true, io, log);
    case _ =>
  }

  lemma StatusEarns(env: Env, rt: Runtime, n: Native, e: ControlEvent, io: Io, log: seq<Seen>)
    requires Supplicant.Typed(rt.supplicant) && Closed(n) && ReturnOk(n.station) && RuntimeEarned(rt.state, log)
    requires e.body.CommandStatus?
    ensures var r := OnStatus(env, rt, n, e, io); Earns(n, r, After(log, Some(ControlDone(e)), r))
  {
    hide OnSuccess, Earns, FailClosed, Closed, ReturnOk, RuntimeEarned;
    var r := OnStatus(env, rt, n, e, io);
    var after := After(log, Some(ControlDone(e)), r);
    if e.body.status != 0 {
      FailureEarns(n, rt, n, CommandRefused(e.body.command, e.body.status), after);
    } else {
      var inner := OnSuccess(env, rt, n, e.body.command, io);
      if inner.result.Ok? {
        SuccessEarns(env, rt, n, e, io, log);
      }
      GuardEarns(n, inner, after);
    }
  }

  lemma PurposeEarns(env: Env, rt: Runtime, n: Native, done: TxResult, io: Io, log: seq<Seen>)
    requires Supplicant.Typed(rt.supplicant) && Closed(n) && ReturnOk(n.station) && RuntimeEarned(rt.state, log)
    requires rt.state.AwaitingEapolTransmit? && rt.state.token == done.token && Delivered(done)
    requires AfterTransmit(env, rt, n, rt.state.purpose, io).result.Ok?
    ensures var r := AfterTransmit(env, rt, n, rt.state.purpose, io);
            Earns(n, r, After(log, Some(TransmitDone(done)), r))
  {
    hide Reached, TimeoutOf, Timeout, Tame;
    TameSame(n.station);
    TimeAndRecoveryAreTame(n.station, 0);
    if rt.state.purpose == ForMessage4 {
      KeyCommandIsClosed(env, n, Authorize, io.key);
      ReachedAdvances(log, Seen(Some(TransmitDone(done)), AuthorizationSubmitted), 4, done.token);
    }
  }

  lemma TransmitDoneEarns(env: Env, rt: Runtime, n: Native, done: TxResult, io: Io, log: seq<Seen>)
    requires Supplicant.Typed(rt.supplicant) && Closed(n) && ReturnOk(n.station) && RuntimeEarned(rt.state, log)
    requires TransmitExpected(rt.state, done)
    ensures var r := OnTransmitDone(env, rt, n, done, io); Earns(n, r, After(log, Some(TransmitDone(done)), r))
  {
    hide AfterTransmit, Earns, FailClosed, Closed, ReturnOk, RuntimeEarned;
    var r := OnTransmitDone(env, rt, n, done, io);
    var after := After(log, Some(TransmitDone(done)), r);
    if !Delivered(done) {
      FailureEarns(n, rt, n, TransmitNotDelivered, after);
    } else {
      var inner := AfterTransmit(env, rt, n, rt.state.purpose, io);
      if inner.result.Ok? {
        PurposeEarns(env, rt, n, done, io, log);
      }
      GuardEarns(n, inner, after);
    }
  }

  lemma UnchangedEarns(rt: Runtime, n: Native, log: seq<Seen>, more: seq<Seen>, r: RStep)
    requires Supplicant.Typed(rt.supplicant) && Closed(n) && ReturnOk(n.station) && RuntimeEarned(rt.state, log)
    requires r.n == n && r.rt.supplicant == rt.supplicant
    requires r.rt.state == rt.state || r.rt.state == RuntimeComplete
    ensures Earns(n, r, log + more)
  {
    hide Reached, Closed;
    TameSame(n.station);
    EarnedStays(rt.state, log, more);
  }

  lemma EventEarns(env: Env, rt: Runtime, n: Native, e: DriverEvent, io: Io, log: seq<Seen>)
    requires Supplicant.Typed(rt.supplicant) && Closed(n) && ReturnOk(n.station) && RuntimeEarned(rt.state, log)
    ensures var r := ApplyEvent(env, rt, n, e, io);
            Earns(n, r, After(log, Some(e), r)) && (r.result.Err? ==> FailedClosed(r))
  {
    hide OnStatus, OnTransmitDone, Earns, Closed, ReturnOk, RuntimeEarned, FailedClosed, TimeoutOf;
    var r := ApplyEvent(env, rt, n, e, io);
    if e.ControlDone? && StatusExpected(rt.state, e.control) {
      StatusEarns(env, rt, n, e.control, io, log);
      ControlErrorFails(env, rt, n, e.control, io);
    } else if e.TransmitDone? && TransmitExpected(rt.state, e.done) {
      TransmitDoneEarns(env, rt, n, e.done, io, log);
      TransmitErrorFails(env, rt, n, e.done, io);
    } else {
      UnchangedEarns(rt, n, log, [Seen(Some(e), r.result.value)], r);
    }
  }

  lemma ControlErrorFails(env: Env, rt: Runtime, n: Native, e: ControlEvent, io: Io)
    requires Supplicant.Typed(rt.supplicant)
    ensures OnStatus(env, rt, n, e, io).result.Err? ==> FailedClosed(OnStatus(env, rt, n, e, io))
  {
    hide OnSuccess, Abandoned, TimeoutOf;
  }

  lemma TransmitErrorFails(env: Env, rt: Runtime, n: Native, done: TxResult, io: Io)
    requires Supplicant.Typed(rt.supplicant)
    ensures OnTransmitDone(env, rt, n, done, io).result.Err? ==> FailedClosed(OnTransmitDone(env, rt, n, done, io))
  {
    hide AfterTransmit, Abandoned, TimeoutOf;
  }

  lemma ActionEarns(env: Env, rt: Runtime, n: Native, action: Supplicant.Action, wasComplete: bool, io: Io,
                    log: seq<Seen>)
    requires Supplicant.Typed(rt.supplicant) && Closed(n) && ReturnOk(n.station) && RuntimeEarned(rt.state, log)
    requires Act(env, rt, n, action, wasComplete, io).result.Ok?
    ensures var r := Act(env, rt, n, action, wasComplete, io); Earns(n, r, After(log, None, r))
  {
    hide SubmitKey, SubmitEapol, Earns, Closed, ReturnOk, RuntimeEarned;
    match action
    case NoAction => UnchangedEarns(rt, n, log, [Seen(None, NoChange)], RStep(rt, n, Ok(NoChange)));
    case Transmit(response) =>
      EapolEarns(env, rt, n, response, if wasComplete then ForRetransmission else ForMessage2, io.token, log, None);
    case InstallKeys(request) => KeyEarns(env, rt.(pairwise := Some(request)), n, PairwiseKey, io.key, log, None);
    case InstallGroupKey(request) => KeyEarns(env, rt.(group := Some(request)), n, RekeyGroup, io.key, log, None);
  }

  lemma FrameEarns(env: Env, rt: Runtime, n: Native, frame: seq<byte>, io: Io, log: seq<Seen>)
    requires EnvOk(env)
    requires Supplicant.Typed(rt.supplicant) && Closed(n) && ReturnOk(n.station) && RuntimeEarned(rt.state, log)
    ensures var r := OnFrame(env, rt, n, frame, io); Earns(n, r, After(log, None, r))
  {
    hide Act, Earns, FailClosed, Closed, ReturnOk, RuntimeEarned, Supplicant.OnEapol, EthernetFault, EnvOk;
    var r := OnFrame(env, rt, n, frame, io);
    var after := After(log, None, r);
    assert EnvOk(env) ==> Supplicant.Configured(env.cfg) by { EnvConfigured(env); }
    if EthernetFault(env, frame).Some? {
      FailureEarns(n, rt, n, BadEthernet(EthernetFault(env, frame).value), after);
    } else if RadioPending(rt.state) {
      FailureEarns(n, rt, n, UnexpectedState(rt.state), after);
      UnchangedEarns(rt, n, log, [Seen(None, NoChange)], RStep(rt, n, Ok(NoChange)));
    } else {
      var payload := frame[HEADER_LEN..];
      var step := Supplicant.OnEapol(env.cfg, rt.supplicant, env.cfg.peer, payload);
      var next := rt.(supplicant := step.state);
      if step.result.Err? {
        FailureEarns(n, next, n, Wpa2Failed(step.result.error), after);
      } else {
        var ready := next.(digest := Some(EapolKey.Sha256(env.cfg.crypto, payload)));
        var wasComplete := rt.supplicant.phase == Supplicant.Complete;
        var inner := Act(env, ready, n, step.result.value, wasComplete, io);
        if inner.result.Ok? {
          ActionEarns(env, ready, n, step.result.value, wasComplete, io, log);
        }
        GuardEarns(n, inner, after);
      }
    }
  }

  lemma EnvConfigured(env: Env)
    requires EnvOk(env)
    ensures Supplicant.Configured(env.cfg)
  {
  }

  // ------------------------------------------------------------ preservation

  /** A tame station step keeps what the station has earned. */
  lemma TameKeepsEarned(s: Controller, t: Controller, log: seq<Seen>, more: seq<Seen>)
    requires Tame(s, t) && StationEarned(s, log)
    ensures StationEarned(t, log + more)
  {
    hide EverReached;
    if EverReached(log, 5) {
      EverStays(log, more, 5);
    }
    if EverReached(log, 6) {
      EverStays(log, more, 6);
    }
  }

  /** A runtime step after a driver step that was tame for the station. */
  lemma EarnsKeepsEarned(s: Controller, m: Native, r: RStep, log: seq<Seen>, more: seq<Seen>)
    requires StationEarned(s, log) && Tame(s, m.station) && Earns(m, r, log + more)
    ensures StationEarned(r.n.station, log + more)
  {
    hide EverReached, RuntimeEarned, Closed;
    TameKeepsEarned(s, m.station, log, more);
    if Tame(m.station, r.n.station) {
      TameTwice(s, m.station, r.n.station);
      TameKeepsEarned(s, r.n.station, log, more);
    }
  }

  lemma Same(log: seq<Seen>)
    ensures log + [] == log
  {
  }

  lemma AuthorizationEarns(s: Controller, t: Controller, log: seq<Seen>, x: Seen)
    requires StationEarned(s, log) && s.state == Authorizing && Acknowledges(x, SET_STATION)
    requires t.state != Authorizing
    ensures StationEarned(t, log + [x])
  {
    hide Reached;
    var token :| Reached(log, 5, token);
    ReachedAdvances(log, x, 5, token);
  }

  lemma AssociationIsUnearned(env: Env, n: Native, c: Call, log: seq<Seen>)
    requires SecureAssociation(env, n, c) && ReturnOk(n.station)
    ensures var t := Perform(env.ids, n, c).n.station;
            ReturnOk(t) && StationEarned(t, log)
  {
    hide Timeout, EverReached;
  }

  lemma UninvolvedEarned(state: RuntimeState, log: seq<Seen>)
    requires Uninvolved(state)
    ensures RuntimeEarned(state, log)
  {
  }

  lemma CommandKeeps(env: Env, n: Native, rt: Runtime, call: Call, log: seq<Seen>)
    requires EnvOk(env) && Earned(n, rt, log) && CallOk(call) && !call.CallPoll?
    ensures Earned(Perform(env.ids, n, call).n, rt, log)
  {
    PerformKeepsClosed(env.ids, n, call);
    if SecureAssociation(env, n, call) {
      AssociationIsUnearned(env, n, call, log);
    } else {
      PerformIsTame(env, n, call);
      Same(log);
      TameKeepsEarned(n.station, Perform(env.ids, n, call).n.station, log, []);
    }
  }

  lemma DirectPollKeeps(env: Env, n: Native, rt: Runtime, read: EventRead, log: seq<Seen>)
    requires Earned(n, rt, log)
    ensures var p := Finish(Poll(env.ids, n, read), Event);
            Earned(p.n, rt, log + PolledSeen(p.result))
  {
    hide Closed, RuntimeEarned, Poll, EverReached, NeedsRecovery;
    PollIsTame(env.ids, n, read);
    var p := Finish(Poll(env.ids, n, read), Event);
    var seen := PolledSeen(p.result);
    EarnedStays(rt.state, log, seen);
    if Tame(n.station, p.n.station) {
      TameKeepsEarned(n.station, p.n.station, log, seen);
    } else {
      AuthorizationEarns(n.station, p.n.station, log, seen[0]);
    }
  }

  lemma FailedIsEarned(rt: Runtime, n: Native, log: seq<Seen>)
    requires n.station.link == UNLINKED && n.station.state == Recovering
    ensures StationEarned(n.station, log)
  {
  }

  /** A driver step, then the coordinator's step for the same event. */
  lemma EventKeeps(env: Env, n: Native, rt: Runtime, m: Native, e: DriverEvent, io: Io, log: seq<Seen>)
    requires Earned(n, rt, log) && Closed(m) && ReturnOk(m.station)
    requires || Tame(n.station, m.station)
             || (&& e.ControlDone? && Authorizes(n.station, e.control)
                 && m.station.state != Authorizing && m.station.link.secure == n.station.link.secure)
    ensures var r := ApplyEvent(env, rt, m, e, io); Earned(r.n, r.rt, After(log, Some(e), r))
  {
    hide Closed, EverReached, ApplyEvent, RuntimeEarned, ReturnOk;
    var r := ApplyEvent(env, rt, m, e, io);
    EventEarns(env, rt, m, e, io, log);
    assert ReturnOk(r.n.station) by { EarnsReturns(m, r, After(log, Some(e), r)); }
    if r.result.Err? {
      FailedIsEarned(r.rt, r.n, log);
    } else {
      var x := Seen(Some(e), r.result.value);
      if Tame(n.station, m.station) {
        EarnsKeepsEarned(n.station, m, r, log, [x]);
      } else {
        AuthorizationEarns(n.station, m.station, log, x);
        EarnsAgain(m, r, log + [x]);
      }
    }
  }

  lemma EarnsReturns(m: Native, r: RStep, after: seq<Seen>)
    requires Earns(m, r, after)
    ensures ReturnOk(r.n.station)
  {
  }

  lemma EarnsAgain(m: Native, r: RStep, after: seq<Seen>)
    requires StationEarned(m.station, after) && Earns(m, r, after)
    ensures StationEarned(r.n.station, after)
  {
    hide EverReached, RuntimeEarned, Closed;
  }

  lemma PollKeeps(env: Env, n: Native, rt: Runtime, read: EventRead, io: Io, log: seq<Seen>)
    requires EnvOk(env) && Earned(n, rt, log)
    ensures var m := Make(env, n, rt, PollEvent(read, io)); Earned(m.n, m.rt, log + m.seen)
  {
    hide Closed, RuntimeEarned, Poll, EverReached, NeedsRecovery, ApplyEvent, EnvOk;
    PollIsTame(env.ids, n, read);
    var p := Finish(Poll(env.ids, n, read), Event);
    Same(log);
    if p.result.Ok? && p.result.value.Some? {
      EventKeeps(env, n, rt, p.n, p.result.value.value, io, log);
    } else {
      TameKeepsEarned(n.station, p.n.station, log, []);
    }
  }

  lemma TickKeeps(env: Env, n: Native, rt: Runtime, elapsed: nat, log: seq<Seen>)
    requires EnvOk(env) && Earned(n, rt, log)
    ensures var m := Make(env, n, rt, Tick(elapsed)); Earned(m.n, m.rt, log + m.seen)
  {
    hide RuntimeEarned, EverReached, Advance, BeginRecovery, TimeoutOf, Abandoned;
    Same(log);
    CommandKeeps(env, n, rt, CallTick(elapsed), log);
    var p := Finish(AdvanceTime(n, elapsed), Control);
    if p.result.Ok? {
      var r := AdvanceRuntime(rt, p.n, elapsed);
      if r.result.Err? {
        FailureEarns(p.n, rt, p.n, RuntimeTimeout(rt.state), log);
        EarnsAgain(p.n, r, log);
      }
    }
  }

  lemma TakenIsTame(env: Env, n: Native, p: Packet)
    requires Closed(n) && ReturnOk(n.station)
    ensures var (s, buffer) := Take(env.ids, n, p.wdevId, p.received, p.copied);
            && Closed(s.n) && Tame(n.station, s.n.station) && |buffer| == |p.copied|
            && (s.result.Ok? ==> s.n == n && p.received == Ok(s.result.value)
                                 && PortAdmits(n.station, s.result.value.etherType))
  {
    hide Tame, Closed, NeedsRecovery, PortAdmits, Allowed, BeginRecovery;
    TameSame(n.station);
    RecoveryIsTame(n.station, n);
    RecoveryIsTame(n.station, Receive(env.ids, n, p.wdevId, p.received).n);
  }

  lemma TakeKeeps(env: Env, n: Native, rt: Runtime, packet: Packet, io: Io, log: seq<Seen>)
    requires EnvOk(env) && Earned(n, rt, log) && PacketOk(packet)
    ensures var m := Make(env, n, rt, TakePacket(packet, io)); Earned(m.n, m.rt, log + m.seen)
  {
    hide RuntimeEarned, EverReached, Closed, Take, OnFrame, EnvOk, Supplicant.Typed;
    Same(log);
    TakenIsTame(env, n, packet);
    var (s, buffer) := Take(env.ids, n, packet.wdevId, packet.received, packet.copied);
    TameKeepsEarned(n.station, s.n.station, log, []);
    if s.result.Ok? && s.result.value.etherType == EAPOL {
      FrameKeeps(env, n, rt, buffer[..s.result.value.len], io, log);
    }
  }

  lemma FrameKeeps(env: Env, n: Native, rt: Runtime, frame: seq<byte>, io: Io, log: seq<Seen>)
    requires EnvOk(env) && Earned(n, rt, log)
    ensures var r := OnFrame(env, rt, n, frame, io); Earned(r.n, r.rt, After(log, None, r))
  {
    hide RuntimeEarned, EverReached, Closed, OnFrame, EnvOk, ReturnOk;
    var r := OnFrame(env, rt, n, frame, io);
    var after := After(log, None, r);
    FrameEarns(env, rt, n, frame, io, log);
    EarnsReturns(n, r, after);
    Same(log);
    TameSame(n.station);
    EarnsKeepsEarned(n.station, n, r, log, if r.result.Ok? then [Seen(None, r.result.value)] else []);
  }

  /** Every call keeps what has been earned in any log of what came before. */
  lemma MakeKeeps(env: Env, n: Native, rt: Runtime, c: SecureCall, log: seq<Seen>)
    requires EnvOk(env) && Earned(n, rt, log) && SecureCallOk(c)
    ensures var m := Make(env, n, rt, c); Earned(m.n, m.rt, log + m.seen)
  {
    match c
    case Direct(call) =>
      hide Earned, Perform, Poll;
      Same(log);
      if call.CallPoll? { DirectPollKeeps(env, n, rt, call.read, log); } else { CommandKeeps(env, n, rt, call, log); }
    case Tick(elapsed) => TickKeeps(env, n, rt, elapsed, log);
    case PollEvent(read, io) => PollKeeps(env, n, rt, read, io, log);
    case TakePacket(packet, io) => TakeKeeps(env, n, rt, packet, io, log);
    case NewHandshake(nonce) =>
      hide Closed, Reached, TimeoutOf, Supplicant.Restart;
      Same(log);
    case NewDeadlines(t) => Same(log);
  }

  // Without a secure association the coordinator stays out of every exchange.
  lemma EventUninvolved(env: Env, rt: Runtime, n: Native, e: DriverEvent, io: Io)
    requires Supplicant.Typed(rt.supplicant) && Uninvolved(rt.state)
    ensures var r := ApplyEvent(env, rt, n, e, io); Uninvolved(r.rt.state) && r.n == n
  {
    hide OnStatus, OnTransmitDone, TimeoutOf;
  }

  lemma PollUnassociated(env: Env, n: Native, rt: Runtime, read: EventRead, io: Io)
    requires EnvOk(env) && Closed(n) && ReturnOk(n.station) && Supplicant.Typed(rt.supplicant) && Unassociated(n, rt)
    ensures var m := Make(env, n, rt, PollEvent(read, io)); Unassociated(m.n, m.rt)
  {
    hide ApplyEvent, Poll, NeedsRecovery, EnvOk, Closed;
    PollIsTame(env.ids, n, read);
    var p := Finish(Poll(env.ids, n, read), Event);
    if p.result.Ok? && p.result.value.Some? {
      EventUninvolved(env, rt, p.n, p.result.value.value, io);
    }
  }

  lemma OtherUnassociated(env: Env, n: Native, rt: Runtime, c: SecureCall)
    requires EnvOk(env) && Closed(n) && ReturnOk(n.station) && Supplicant.Typed(rt.supplicant) && Unassociated(n, rt)
    requires SecureCallOk(c) && (c.Tick? || c.NewHandshake? || c.NewDeadlines?)
    ensures var m := Make(env, n, rt, c); Unassociated(m.n, m.rt)
  {
    hide Closed, ReturnOk, Supplicant.Restart, Abandoned, TimeoutOf, NeedsRecovery, Timeout, StationNeedsRecovery;
  }

  lemma TakeUnassociated(env: Env, n: Native, rt: Runtime, packet: Packet, io: Io)
    requires EnvOk(env) && Closed(n) && ReturnOk(n.station) && Supplicant.Typed(rt.supplicant) && Unassociated(n, rt)
    requires PacketOk(packet)
    ensures var m := Make(env, n, rt, TakePacket(packet, io)); Unassociated(m.n, m.rt)
  {
    hide Closed, ReturnOk, OnFrame, Take, Supplicant.Typed, EnvOk;
    TakenIsTame(env, n, packet);
  }

  lemma DirectUnassociated(env: Env, n: Native, call: Call)
    requires Closed(n) && ReturnOk(n.station) && CallOk(call) && !n.station.link.secure
    requires !SecureAssociation(env, n, call)
    ensures !Perform(env.ids, n, call).n.station.link.secure
  {
    hide Poll, NeedsRecovery, Closed, SecureAssociation;
    if call.CallPoll? {
      PollIsTame(env.ids, n, call.read);
    } else {
      hide Perform;
      PerformIsTame(env, n, call);
    }
  }

  lemma MakeUnassociated(env: Env, n: Native, rt: Runtime, c: SecureCall)
    requires EnvOk(env) && Closed(n) && ReturnOk(n.station) && Supplicant.Typed(rt.supplicant) && Unassociated(n, rt)
    requires SecureCallOk(c) && !(c.Direct? && SecureAssociation(env, n, c.call))
    ensures var m := Make(env, n, rt, c); Unassociated(m.n, m.rt)
  {
    match c
    case Direct(call) =>
      hide Perform, SecureAssociation, Closed, Poll;
      DirectUnassociated(env, n, call);
    case PollEvent(read, io) => PollUnassociated(env, n, rt, read, io);
    case TakePacket(packet, io) => TakeUnassociated(env, n, rt, packet, io);
    case _ => OtherUnassociated(env, n, rt, c);
  }

  // ------------------------------------------------------- stale coordinators

  /** A key command in the station's hands was there before. */
  predicate KeysPending(s: Controller, t: Controller) {
    t.pending == Some(NEW_KEY) || t.pending == Some(SET_KEY) ==> s.pending == t.pending
  }

  predicate KeyStatus(body: ControlBody) {
    body.CommandStatus? && (body.command == NEW_KEY || body.command == SET_KEY)
  }

  lemma ControlKeepsKeys(ids: Ids, s: Controller, e: ControlEvent)
    ensures KeysPending(s, OnControl(ids, s, e).s)
    ensures KeyStatus(e.body) && OnControl(ids, s, e).error.None? ==> s.pending == Some(e.body.command)
  {
    hide Timeout, MlmeStatus, Address;
  }

  lemma PollKeepsKeys(ids: Ids, n: Native, read: EventRead)
    ensures var p := Finish(Poll(ids, n, read), Event);
            && KeysPending(n.station, p.n.station)
            && (p.result.Ok? && p.result.value.Some? && p.result.value.value.ControlDone? ==>
                  var body := p.result.value.value.control.body;
                  KeyStatus(body) ==> n.station.pending == Some(body.command))
  {
    hide OnControl, OnData, Timeout, NeedsRecovery;
    if read.Read? && read.message.ControlMessage? && read.message.control.Some? {
      ControlKeepsKeys(ids, n.station, read.message.control.value);
    }
    if read.Read? && read.message.DataMessageOf? && read.message.data.LinkData? {
      DataKeepsKeys(ids, n.station, read.message.data.link);
    }
  }

  lemma DataKeepsKeys(ids: Ids, s: Controller, e: LinkEvent)
    ensures KeysPending(s, OnData(ids, s, e).s)
  {
    hide Timeout;
  }

  lemma PerformKeepsKeys(ids: Ids, n: Native, c: Call)
    requires CallOk(c)
    ensures KeysPending(n.station, Perform(ids, n, c).n.station)
  {
    hide Poll, Timeout, NeedsRecovery, StationNeedsRecovery, PortAdmits, Allowed;
    if c.CallPoll? {
      PollKeepsKeys(ids, n, c.read);
    }
  }

  /** The coordinator as if it awaited a rekey instead: no acknowledgement of
      either can come, and everything else they treat alike. */
  function StandIn(rt: Runtime): Runtime {
    rt.(state := AwaitingGroupRekeyStatus)
  }

  /** What a stale coordinator becomes, seen next to its stand-in. */
  ghost predicate Alike(n: Native, rt: Runtime, m: Moved, other: Moved) {
    && m.n == other.n && m.seen == other.seen && Supplicant.Typed(m.rt.supplicant)
    && KeysPending(n.station, m.n.station)
    && (m.rt.state == rt.state || Uninvolved(m.rt.state))
  }

  lemma StalePoll(env: Env, n: Native, rt: Runtime, read: EventRead, io: Io)
    requires EnvOk(env) && Supplicant.Typed(rt.supplicant) && Stale(n, rt)
    ensures Alike(n, rt, Make(env, n, rt, PollEvent(read, io)), Make(env, n, StandIn(rt), PollEvent(read, io)))
  {
    hide OnStatus, OnTransmitDone, Poll, NeedsRecovery, TimeoutOf, EnvOk;
    PollKeepsKeys(env.ids, n, read);
  }

  lemma StaleTake(env: Env, n: Native, rt: Runtime, packet: Packet, io: Io)
    requires EnvOk(env) && Supplicant.Typed(rt.supplicant) && Stale(n, rt) && PacketOk(packet)
    ensures Alike(n, rt, Make(env, n, rt, TakePacket(packet, io)), Make(env, n, StandIn(rt), TakePacket(packet, io)))
  {
    hide Take, TimeoutOf, EnvOk, Abandoned, Supplicant.OnEapol, Supplicant.Typed, EthernetFault;
    TakeKeepsKeys(env, n, packet);
  }

  lemma TakeKeepsKeys(env: Env, n: Native, p: Packet)
    ensures KeysPending(n.station, Take(env.ids, n, p.wdevId, p.received, p.copied).0.n.station)
  {
    hide Timeout, NeedsRecovery, PortAdmits, Allowed;
  }

  lemma StaleRest(env: Env, n: Native, rt: Runtime, c: SecureCall)
    requires EnvOk(env) && Supplicant.Typed(rt.supplicant) && Stale(n, rt) && SecureCallOk(c)
    requires c.Tick? || c.NewHandshake? || c.NewDeadlines?
    ensures Alike(n, rt, Make(env, n, rt, c), Make(env, n, StandIn(rt), c))
  {
    hide TimeoutOf, Abandoned, Timeout, NeedsRecovery, Supplicant.Restart;
  }

  lemma StaleAlike(env: Env, n: Native, rt: Runtime, c: SecureCall)
    requires EnvOk(env) && Supplicant.Typed(rt.supplicant) && Stale(n, rt) && SecureCallOk(c)
    ensures Alike(n, rt, Make(env, n, rt, c), Make(env, n, StandIn(rt), c))
  {
    match c
    case Direct(call) =>
      hide Perform, Poll, Supplicant.Typed;
      PerformKeepsKeys(env.ids, n, call);
    case PollEvent(read, io) => StalePoll(env, n, rt, read, io);
    case TakePacket(packet, io) => StaleTake(env, n, rt, packet, io);
    case _ => StaleRest(env, n, rt, c);
  }

  /** A stale coordinator authorizes nothing: it stays as it is, or fails, or
      starts afresh. */
  lemma StaleKeeps(env: Env, n: Native, rt: Runtime, c: SecureCall, log: seq<Seen>)
    requires EnvOk(env) && EarnedOrStale(n, rt, log) && Stale(n, rt) && SecureCallOk(c)
    ensures var m := Make(env, n, rt, c); EarnedOrStale(m.n, m.rt, log + m.seen)
  {
    hide Make, StationEarned, Closed, ReturnOk;
    StaleAlike(env, n, rt, c);
    MakeKeeps(env, n, StandIn(rt), c, log);
    var m := Make(env, n, rt, c);
    if Uninvolved(m.rt.state) {
      UninvolvedEarned(m.rt.state, log + m.seen);
    }
  }

  lemma EarnedOrStaleKeeps(env: Env, n: Native, rt: Runtime, c: SecureCall, log: seq<Seen>)
    requires EnvOk(env) && EarnedOrStale(n, rt, log) && SecureCallOk(c)
    ensures var m := Make(env, n, rt, c); EarnedOrStale(m.n, m.rt, log + m.seen)
  {
    hide Make, RuntimeEarned, StationEarned, Closed, ReturnOk;
    if RuntimeEarned(rt.state, log) {
      MakeKeeps(env, n, rt, c, log);
    } else {
      StaleKeeps(env, n, rt, c, log);
    }
  }

  lemma NextKeeps(env: Env, y: System, c: SecureCall)
    requires EnvOk(env) && Inv(y) && SecureCallOk(c)
    ensures Inv(Next(env, y, c))
  {
    hide Make, Earned, EarnedOrStale, Unassociated;
    assert Supplicant.Typed(y.rt.supplicant) && Closed(y.n) && ReturnOk(y.n.station) by { EarnedFacts(y); }
    MakeKeeps(env, y.n, y.rt, c, y.history);
    if c.Direct? && SecureAssociation(env, y.n, c.call) {
      if !Carries(y.rt.state) {
        AssociationEarned(env, y.n, y.rt, c.call);
      }
      if y.associations == 0 {
        UnassociatedIsUninvolved(y);
      }
    } else {
      if y.clean {
        EarnedOrStaleKeeps(env, y.n, y.rt, c, y.log);
      }
      if y.associations == 0 {
        MakeUnassociated(env, y.n, y.rt, c);
      }
    }
  }

  lemma EarnedFacts(y: System)
    requires Inv(y)
    ensures Supplicant.Typed(y.rt.supplicant) && Closed(y.n) && ReturnOk(y.n.station)
  {
  }

  lemma UnassociatedIsUninvolved(y: System)
    requires Inv(y) && y.associations == 0
    ensures Uninvolved(y.rt.state)
  {
  }

  /** A secure association while no Message 4 is on its way starts with nothing
      earned and nothing under way that could authorize the station. */
  lemma AssociationEarned(env: Env, n: Native, rt: Runtime, call: Call)
    requires EnvOk(env) && Supplicant.Typed(rt.supplicant) && Closed(n) && ReturnOk(n.station)
    requires !Carries(rt.state) && CallOk(call) && SecureAssociation(env, n, call)
    ensures var m := Make(env, n, rt, Direct(call)); EarnedOrStale(m.n, m.rt, [])
  {
    hide Reached, Timeout;
    PerformKeepsClosed(env.ids, n, call);
    AssociationIsUnearned(env, n, call, []);
  }

  ghost predicate SecureCallsOk(cs: seq<SecureCall>) {
    forall i | 0 <= i < |cs| :: SecureCallOk(cs[i])
  }

  ghost function Ran(env: Env, n: Native, nonce: seq<byte>, cs: seq<SecureCall>): (y: System)
    requires EnvOk(env) && |nonce| == 32 && Handed(n) && SecureCallsOk(cs)
    ensures Inv(y)
    decreases |cs|
  {
    if cs == [] then
      StartHolds(n, nonce);
      Start(n, nonce)
    else
      var y := Ran(env, n, nonce, cs[..|cs| - 1]);
      NextKeeps(env, y, cs[|cs| - 1]);
      Next(env, y, cs[|cs| - 1])
  }

  lemma StartHolds(n: Native, nonce: seq<byte>)
    requires |nonce| == 32 && Handed(n)
    ensures Inv(Start(n, nonce))
  {
    hide Reached, Closed;
  }

  // ----------------------------------------------------------------- theorems

  /** In every run of the integrated driver, whatever the firmware, the radio
      and the caller do, the controlled port is open only if the driver is
      ready; and that of a secure station that associated while no Message 4 was
      on its way, only if all six steps of the authorization have been seen
      since the association. */
  lemma PortOpenOnlyWhenSecured(env: Env, n: Native, nonce: seq<byte>, cs: seq<SecureCall>)
    requires EnvOk(env) && |nonce| == 32 && Handed(n) && SecureCallsOk(cs)
    ensures var y := Ran(env, n, nonce, cs);
            PortOpen(y.n.station) ==>
              && y.n.state == Ready
              && (y.n.station.link.secure && y.clean ==> exists token :: Reached(y.log, 6, token))
  {
    hide Ran, Reached;
    EarnedFacts(Ran(env, n, nonce, cs));
  }

  /** Every state that the production driver reaches on its own can be handed to
      a coordinator: without one no secure station is ever authorized. */
  lemma {:induction false} ReachableIsHanded(env: Env, calls: seq<Call>)
    requires CallsOk(calls)
    ensures Handed(Performed(env.ids, calls))
    decreases |calls|
  {
    if calls != [] {
      hide Handed, Perform;
      ReachableIsHanded(env, calls[..|calls| - 1]);
      PerformIsHanded(env, Performed(env.ids, calls[..|calls| - 1]), calls[|calls| - 1]);
    }
  }

  lemma PerformIsHanded(env: Env, n: Native, c: Call)
    requires Handed(n) && CallOk(c)
    ensures Handed(Perform(env.ids, n, c).n)
  {
    hide Closed, SecureAssociation;
    PerformKeepsClosed(env.ids, n, c);
    if SecureAssociation(env, n, c) {
      FreshlyAssociated(env, n, c);
    } else if c.CallPoll? {
      hide Poll, NeedsRecovery;
      PollIsTame(env.ids, n, c.read);
    } else {
      hide Perform;
      PerformIsTame(env, n, c);
    }
  }

  lemma FreshlyAssociated(env: Env, n: Native, c: Call)
    requires SecureAssociation(env, n, c) && ReturnOk(n.station)
    ensures var t := Perform(env.ids, n, c).n.station;
            ReturnOk(t) && t.state == Associating && !t.link.authorized
  {
    hide Timeout;
  }

  /** And so can a driver that another coordinator leaves, once no secure station
      is authorized or about to be. */
  lemma LeftIsHanded(env: Env, n: Native, nonce: seq<byte>, cs: seq<SecureCall>)
    requires EnvOk(env) && |nonce| == 32 && Handed(n) && SecureCallsOk(cs)
    ensures var m := Ran(env, n, nonce, cs).n;
            Handed(m) <==> m.station.state != Authorizing && !(m.station.link.secure && m.station.link.authorized)
  {
    hide Ran, Closed, ReturnOk;
    EarnedFacts(Ran(env, n, nonce, cs));
  }

  /** If no earlier Message 4 was on its way when it associated, a secure station is
      authorized only after the caller has seen, in this order and since that
      association: the pairwise key submitted, its acknowledgement with the
      group key submitted, its acknowledgement with the default key submitted,
      its acknowledgement with Message 4 submitted under some token, the
      successful transmit-done of that token with the authorization submitted,
      and the acknowledgement of the authorization. */
  lemma AuthorizedOnlyAfterTheMilestones(env: Env, n: Native, nonce: seq<byte>, cs: seq<SecureCall>)
    returns (at: seq<nat>, token: nat)
    requires EnvOk(env) && |nonce| == 32 && Handed(n) && SecureCallsOk(cs)
    requires var y := Ran(env, n, nonce, cs);
             y.clean && y.n.station.link.secure && y.n.station.link.authorized
    ensures |at| == 6
    ensures var log := Ran(env, n, nonce, cs).log;
            forall i | 0 <= i < 6 :: at[i] < |log| && Milestone(log[at[i]], i + 1, token)
    ensures forall i, j | 0 <= i < j < 6 :: at[i] < at[j]
  {
    hide Ran, Reached, Milestone, RuntimeEarned, Closed;
    var y := Ran(env, n, nonce, cs);
    token :| Reached(y.log, 6, token);
    at := ReachedPositions(y.log, 6, token);
  }

  /** Whatever was on its way when it associated, a secure station is authorized
      only after the six milestones have been seen in this order by the same
      coordinator, if not all of them since the association. */
  lemma MilestonesEver(env: Env, n: Native, nonce: seq<byte>, cs: seq<SecureCall>)
    returns (at: seq<nat>, token: nat)
    requires EnvOk(env) && |nonce| == 32 && Handed(n) && SecureCallsOk(cs)
    requires var y := Ran(env, n, nonce, cs); y.n.station.link.secure && y.n.station.link.authorized
    ensures |at| == 6
    ensures var history := Ran(env, n, nonce, cs).history;
            forall i | 0 <= i < 6 :: at[i] < |history| && Milestone(history[at[i]], i + 1, token)
    ensures forall i, j | 0 <= i < j < 6 :: at[i] < at[j]
  {
    hide Ran, Reached, Milestone, RuntimeEarned, Closed;
    var y := Ran(env, n, nonce, cs);
    token :| Reached(y.history, 6, token);
    at := ReachedPositions(y.history, 6, token);
  }

  /** No Message 4 is on its way at the first secure association that a
      coordinator sees. */
  lemma CleanAtFirst(env: Env, n: Native, nonce: seq<byte>, cs: seq<SecureCall>, c: Call)
    requires EnvOk(env) && |nonce| == 32 && Handed(n) && SecureCallsOk(cs) && CallOk(c)
    requires SecureAssociation(env, Ran(env, n, nonce, cs).n, c)
    ensures var y := Ran(env, n, nonce, cs);
            && Supplicant.Typed(y.rt.supplicant)
            && (y.associations == 0 ==> !Carries(y.rt.state) && Next(env, y, Direct(c)).clean)
  {
    hide Ran, Make, Earned, EarnedOrStale, Unassociated;
    var y := Ran(env, n, nonce, cs);
    EarnedFacts(y);
    if y.associations == 0 {
      UnassociatedIsUninvolved(y);
    }
  }

  /** Key material in a received EAPOL packet never stays in the caller's
      buffer, and neither does a packet the port rejects. */
  lemma EapolIsWiped(env: Env, rt: Runtime, n: Native, p: Packet, io: Io)
    requires EnvOk(env) && Supplicant.Typed(rt.supplicant) && PacketOk(p)
    ensures var (s, buffer) := SecureTake(env, rt, n, p, io);
            && |buffer| == |p.copied|
            && (p.received.Ok? && p.received.value.etherType == EAPOL && n.state == Ready && p.wdevId == env.ids.wdevId
                ==> forall k | 0 <= k < p.received.value.len :: buffer[k] == 0)
            && (s.result.Err? && s.result.error.ProductionFailed? && s.result.error.production.PortClosed?
                ==> forall k | 0 <= k < p.received.value.len :: buffer[k] == 0)
  {
    hide OnFrame, PortOpen, EapolRequired, NeedsRecovery;
  }

  // --------------------------------------------------------------- the object

  class Wpa2StationDriver {
    const driver: MissionCriticalDriver
    const security: Wpa2Runtime

    ghost predicate Valid()
      reads security.supplicant
    {
      driver.Valid() && security.Valid()
    }

    function Environment(): Env {
      security.EnvWith(driver.inner.ids)
    }

    constructor (driver: MissionCriticalDriver, supplicant: Supplicant.Wpa2Supplicant, wdevId: nat)
      requires driver.Valid() && supplicant.Valid()
      ensures Valid() && this.driver == driver && fresh(security) && security.supplicant == supplicant
      ensures security.state == AwaitingAuthenticator && security.pairwise.None? && security.group.None?
    {
      this.driver := driver;
      security := new Wpa2Runtime(supplicant, wdevId);
    }

    method RestartPairwise(nonce: seq<byte>) returns (r: Option<Supplicant.HandshakeError>)
      requires Valid() && |nonce| == 32
      modifies security, security.supplicant
      ensures Valid() && (security.Value(), r) == SecureRuntime.Restart(old(security.Value()), nonce)
    {
      hide SecureRuntime.Restart;
      r := security.RestartPairwise(nonce);
    }

    method AdvanceTime(elapsed: nat) returns (r: Result<(), SecureError>)
      requires Valid()
      modifies security, security.supplicant, driver.inner, driver.inner.station
      ensures Valid()
      ensures SStep(security.Value(), driver.Value(), r) ==
              SecureTick(old(security.Value()), old(driver.Value()), elapsed)
    {
      hide Driver.AdvanceTime, AdvanceRuntime, NeedsRecovery;
      var p := driver.Tick(elapsed);
      if p.Err? {
        return Err(ProductionFailed(p.error));
      }
      var t := security.AdvanceTime(driver.inner, elapsed);
      r := if t.Ok? then Ok(()) else Err(RuntimeFailedWith(t.error));
    }

    method Poll(read: EventRead, io: Io) returns (r: Result<Option<SecureEvent>, SecureError>)
      requires Valid()
      modifies security, security.supplicant, driver.inner, driver.inner.station
      ensures Valid()
      ensures SStep(security.Value(), driver.Value(), r) ==
              SecurePoll(Environment(), old(security.Value()), old(driver.Value()), read, io)
    {
      hide Driver.Poll, ApplyEvent, NeedsRecovery;
      var p := driver.PollEvent(read);
      if p.Err? {
        return Err(ProductionFailed(p.error));
      }
      if p.value.None? {
        return Ok(None);
      }
      var applied := ApplySecurityEvent(p.value.value, io);
      r := if applied.Ok? then Ok(Some(SecureEvent(p.value.value, applied.value)))
           else Err(RuntimeFailedWith(applied.error));
    }

    method ApplySecurityEvent(e: DriverEvent, io: Io) returns (r: Result<Progress, RuntimeError>)
      requires Valid()
      modifies security, security.supplicant, driver.inner, driver.inner.station
      ensures Valid()
      ensures RStep(security.Value(), driver.Value(), r) ==
              ApplyEvent(Environment(), old(security.Value()), old(driver.Value()), e, io)
    {
      hide OnStatus, OnTransmitDone;
      r := Ok(NoChange);
      match e {
        case ControlDone(control) =>
          if StatusExpected(security.state, control) {
            r := security.ReceiveControl(driver.inner, control, io);
          }
        case TransmitDone(done) =>
          if TransmitExpected(security.state, done) {
            r := security.ReceiveTransmitDone(driver.inner, done, io);
          }
        case LinkDone(_) =>
          var progress := security.RefreshCarrier(driver.inner);
          r := Ok(progress);
        case _ =>
      }
    }

    /** The buffer already holds the copied packet. */
    method ReceivePacket(wdevId: nat, received: Result<ReceivedFrame, DataError>, output: array<byte>, io: Io)
      returns (r: Result<SecureReceive, SecureError>)
      requires Valid() && PacketOk(Packet(wdevId, received, output[..]))
      modifies security, security.supplicant, driver.inner, driver.inner.station, output
      ensures Valid()
      ensures (SStep(security.Value(), driver.Value(), r), output[..]) ==
              SecureTake(Environment(), old(security.Value()), old(driver.Value()),
                         old(Packet(wdevId, received, output[..])), io)
    {
      hide OnFrame, Driver.Receive, Allowed, NeedsRecovery;
      var p := driver.ReceivePacket(wdevId, received, output);
      if p.Err? {
        return Err(ProductionFailed(p.error));
      }
      var frame := p.value;
      if frame.etherType != EAPOL {
        return Ok(NormalData(frame));
      }
      TakenLength(Environment(), old(driver.Value()), old(Packet(wdevId, received, output[..])));
      var s := security.ReceiveFrame(driver.inner, output[..frame.len], io);
      Wipe(output, frame.len);
      r := if s.Ok? then Ok(EapolConsumed(s.value)) else Err(RuntimeFailedWith(s.error));
    }

    method TransmitFrame(wdevId: nat, frame: seq<byte>, io: Result<nat, DataError>)
      returns (p: Result<nat, ProductionError>)
      requires Valid()
      modifies driver.inner, driver.inner.station
      ensures PStep(driver.Value(), p) == Send(driver.inner.ids, old(driver.Value()), wdevId, frame, io)
    {
      hide Send;
      p := driver.TransmitFrame(wdevId, frame, io);
    }
  }

  lemma TakenLength(env: Env, n: Native, p: Packet)
    requires PacketOk(p)
    ensures var (s, buffer) := Take(env.ids, n, p.wdevId, p.received, p.copied);
            s.result.Ok? ==> s.result.value.len <= |buffer|
  {
    hide NeedsRecovery, PortAdmits, Allowed, BeginRecovery;
  }
}
