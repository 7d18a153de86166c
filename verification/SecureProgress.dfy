/** The integrated driver does connect: with an access point that completes the
    handshake and firmware that acknowledges, every secure association ends
    with the controlled port open. */
module SecureProgress {
  import opened Bytes
  import Connection
  import opened DeviceTypes
  import opened Driver
  import EapolKey
  import Handshake
  import KeyMaterial
  import opened Production
  import opened SecureDriver
  import opened SecureRuntime
  import opened Station
  import Supplicant
  import SupplicantProof
  import opened Wrappers

  // ------------------------------------------------------------ environment

  const ANY_HEADER := Header(false, 0, false, 0, 0, 0)

  function Acknowledge(command: nat): ControlEvent {
    ControlEvent(ANY_HEADER, CommandStatus(command, 0))
  }

  function Acknowledged(command: nat, io: Io): SecureCall {
    PollEvent(Read(ControlMessage(Some(Acknowledge(command)))), io)
  }

  function Sent(token: nat, io: Io): SecureCall {
    PollEvent(Read(DataMessageOf(TxDoneData(TxResult(token, [0]), true))), io)
  }

  function Radio(env: Env, payload: seq<byte>): seq<byte> {
    env.cfg.local + env.cfg.peer + Be16(EAPOL) + payload
  }

  function Arrives(env: Env, frame: ReceivedFrame, payload: seq<byte>, io: Io): SecureCall {
    TakePacket(Packet(env.ids.wdevId, Ok(frame.(len := HEADER_LEN + |payload|, etherType := EAPOL)),
                      Radio(env, payload)), io)
  }

  /** Firmware accepts commands, and frames under the given token. */
  function Willing(token: nat): Io {
    Io(Accepted, Ok(token))
  }

  // ------------------------------------------------------------ single calls

  lemma AcknowledgedCall(env: Env, n: Native, rt: Runtime, command: nat, io: Io)
    requires EnvOk(env) && Supplicant.Typed(rt.supplicant) && n.state == Ready
    requires n.station.pending == Some(command) && command in {NEW_KEY, SET_KEY, SET_STATION}
    requires ExpectedCommand(rt.state) == Some(command)
    ensures var s := Succeeded(n.station.(pending := None), command);
            var r := OnSuccess(env, rt, n.(station := s), command, io);
            r.result.Ok? ==> Make(env, n, rt, Acknowledged(command, io)).n == r.n
                             && Make(env, n, rt, Acknowledged(command, io)).rt == r.rt
  {
    hide OnSuccess, Succeeded, NeedsRecovery, ExpectedCommand;
  }

  lemma SentCall(env: Env, n: Native, rt: Runtime, token: nat, io: Io)
    requires EnvOk(env) && Supplicant.Typed(rt.supplicant) && n.state == Ready
    requires rt.state.AwaitingEapolTransmit? && rt.state.token == token
    ensures var r := AfterTransmit(env, rt, n, rt.state.purpose, io);
            r.result.Ok? ==> Make(env, n, rt, Sent(token, io)).n == r.n && Make(env, n, rt, Sent(token, io)).rt == r.rt
  {
    hide AfterTransmit, NeedsRecovery;
  }

  lemma RadioFields(env: Env, payload: seq<byte>)
    requires EnvOk(env) && 0 < |payload| <= 512
    ensures EthernetFault(env, Radio(env, payload)).None? && Radio(env, payload)[HEADER_LEN..] == payload
    ensures |Radio(env, payload)| == HEADER_LEN + |payload|
  {
    var f := Radio(env, payload);
    assert f[..6] == env.cfg.local && f[6..12] == env.cfg.peer;
    assert f[12] == Be16(EAPOL)[0] && f[13] == Be16(EAPOL)[1];
  }

  /** A station in the key exchange, and in the states after it. */
  predicate Exchanging(env: Env, n: Native) {
    n.state == Ready && n.station.state == Securing && n.station.link.secure && n.station.link.peer.Some?
    && env.wdevId == env.ids.wdevId
  }

  lemma ArrivesCall(env: Env, n: Native, rt: Runtime, frame: ReceivedFrame, payload: seq<byte>, io: Io)
    requires EnvOk(env) && Supplicant.Typed(rt.supplicant) && Exchanging(env, n) && 0 < |payload| <= 512
    ensures SecureCallOk(Arrives(env, frame, payload, io))
    ensures var r := OnPayload(env, rt, n, payload, io);
            var m := Make(env, n, rt, Arrives(env, frame, payload, io));
            m.n == r.n && m.rt == r.rt
  {
    hide OnPayload, NeedsRecovery, Radio, EthernetFault;
    RadioFields(env, payload);
    assert Radio(env, payload)[..HEADER_LEN + |payload|] == Radio(env, payload);
  }

  // ------------------------------------------------------------------ traces

  datatype Trace = Trace(cs: seq<SecureCall>, y: System)

  /** The initial driver, the coordinator's nonce and their environment. */
  datatype Origin = Origin(env: Env, n: Native, nonce: seq<byte>)

  ghost predicate OriginOk(o: Origin) {
    EnvOk(o.env) && |o.nonce| == 32 && Handed(o.n)
  }

  ghost predicate Leads(o: Origin, t: Trace)
    requires OriginOk(o)
  {
    SecureCallsOk(t.cs) && t.y == Ran(o.env, o.n, o.nonce, t.cs) && Supplicant.Typed(t.y.rt.supplicant)
  }

  /** One more call, which is not one of the production driver's. */
  lemma Go(o: Origin, t: Trace, c: SecureCall) returns (u: Trace)
    requires OriginOk(o) && Leads(o, t) && SecureCallOk(c) && !c.Direct?
    ensures Leads(o, u) && u.y.associations == t.y.associations
    ensures var m := Make(o.env, t.y.n, t.y.rt, c); u.y.n == m.n && u.y.rt == m.rt && u.y.log == t.y.log + m.seen
    ensures u.cs == t.cs + [c]
  {
    hide Make, Inv;
    var cs := t.cs + [c];
    assert cs[..|cs| - 1] == t.cs;
    u := Trace(cs, Ran(o.env, o.n, o.nonce, cs));
    assert Supplicant.Typed(u.y.rt.supplicant) by { InvIsTyped(u.y); }
  }

  /** One more call of the production driver, past the coordinator. */
  lemma GoDirect(o: Origin, t: Trace, c: Call) returns (u: Trace)
    requires OriginOk(o) && Leads(o, t) && CallOk(c)
    ensures Leads(o, u) && u.y.rt == t.y.rt && u.y.n == Perform(o.env.ids, t.y.n, c).n
    ensures u.y.associations == t.y.associations + if SecureAssociation(o.env, t.y.n, c) then 1 else 0
    ensures u.y.log == if SecureAssociation(o.env, t.y.n, c) then [] else t.y.log + DirectlySeen(o.env, t.y.n, c)
    ensures u.cs == t.cs + [Direct(c)]
  {
    hide Perform, Inv, SecureAssociation;
    var cs := t.cs + [Direct(c)];
    assert cs[..|cs| - 1] == t.cs;
    u := Trace(cs, Ran(o.env, o.n, o.nonce, cs));
    assert Supplicant.Typed(u.y.rt.supplicant) by { InvIsTyped(u.y); }
  }

  /** Everything the production driver does before an association. */
  lemma {:induction false} GoAll(o: Origin, calls: seq<Call>) returns (u: Trace)
    requires OriginOk(o) && o.n == NewDriver() && CallsOk(calls) && Connection.NeverAssociates(calls)
    ensures Leads(o, u) && u.y.n == Performed(o.env.ids, calls) && u.y.rt == Fresh(o.nonce)
    ensures u.y.associations == 0
    decreases |calls|
  {
    if calls == [] {
      u := Trace([], Ran(o.env, o.n, o.nonce, []));
    } else {
      hide Perform, Leads, OriginOk;
      u := GoAll(o, calls[..|calls| - 1]);
      u := GoDirect(o, u, calls[|calls| - 1]);
    }
  }

  lemma InvIsTyped(y: System)
    requires Inv(y)
    ensures Supplicant.Typed(y.rt.supplicant)
  {
  }

  // ------------------------------------------------------------- the exchange

  /** What the access point and the radio contribute. */
  datatype Peer = Peer(version: byte, replay1: nat, replay3: nat, an: seq<byte>, k: Handshake.Carrier,
                       frame: ReceivedFrame, token2: nat, token4: nat)

  ghost predicate PeerOk(p: Peer) {
    && Handshake.Sendable(p.version, p.replay1) && Handshake.Sendable(p.version, p.replay3) && p.replay1 < p.replay3
    && |p.an| == 32 && p.an != Zeros(32) && Handshake.CarrierOk(p.k)
  }

  /** The authenticator's pairwise key. */
  ghost function Shared(o: Origin, p: Peer): (ptk: seq<byte>)
    requires OriginOk(o) && PeerOk(p)
    ensures |ptk| == 48
  {
    Handshake.AuthenticatorPtk(o.env.cfg, p.an, o.nonce)
  }

  lemma EapolIsSubmitted(env: Env, rt: Runtime, n: Native, response: seq<byte>, purpose: Purpose, token: nat)
    requires EnvOk(env) && Exchanging(env, n) && |response| <= 512
    ensures SubmitEapol(env, rt, n, response, purpose, Ok(token)) ==
            RStep(Move(rt, AwaitingEapolTransmit(token, purpose)), n, Ok(EapolSubmitted(token, purpose)))
  {
    var f := EthernetFrame(env, response);
    assert f[12] == Be16(EAPOL)[0] && f[13] == Be16(EAPOL)[1];
  }

  /** Message 1 in, Message 2 out and delivered. */
  lemma Answered(o: Origin, t: Trace, p: Peer) returns (u: Trace)
    requires OriginOk(o) && Leads(o, t) && PeerOk(p) && Exchanging(o.env, t.y.n)
    requires t.y.rt.state == AwaitingAuthenticator && t.y.rt.supplicant == Supplicant.Initial(o.nonce)
    ensures Leads(o, u) && u.y.associations == t.y.associations && u.y.n == t.y.n
    ensures u.y.rt.state == AwaitingAuthenticator
    ensures var s := u.y.rt.supplicant;
            && SupplicantProof.StateOk(o.env.cfg, s) && s.phase == Supplicant.AwaitingMessage3
            && s.ptk == Some(Shared(o, p)) && s.message1Replay == Some(p.replay1)
            && s.authenticatorNonce == p.an && s.supplicantNonce == o.nonce
  {
    hide Ran, Make, Supplicant.OnEapol, EapolKey.Unsigned, EapolKey.Signed, EapolKey.Parse, EapolKey.VerifyMic,
      EapolKey.Sha256, Handshake.AuthenticatorPtk, Handshake.CarrierOk, SubmitEapol;
    var env, rt := o.env, t.y.rt;
    Handshake.Message1IsAnswered(env.cfg, rt.supplicant, p.version, p.replay1, p.an);
    var message1 := EapolKey.Unsigned(Handshake.Request1(p.version, p.replay1, p.an));
    ArrivesCall(env, t.y.n, rt, p.frame, message1, Willing(p.token2));
    var step := Supplicant.OnEapol(env.cfg, rt.supplicant, env.cfg.peer, message1);
    var digest := EapolKey.Sha256(env.cfg.crypto, message1);
    EapolIsSubmitted(env, rt.(supplicant := step.state, digest := Some(digest)), t.y.n, step.result.value.frame,
                     ForMessage2, p.token2);
    u := Go(o, t, Arrives(env, p.frame, message1, Willing(p.token2)));
    SentCall(env, u.y.n, u.y.rt, p.token2, Willing(p.token2));
    u := Go(o, u, Sent(p.token2, Willing(p.token2)));
  }

  function CommandOf(k: KeySubmission): nat {
    if k == InitialDefaultGroup || k == RekeyDefaultGroup then SET_KEY else NEW_KEY
  }

  lemma KeyIsSubmitted(env: Env, rt: Runtime, n: Native, k: KeySubmission)
    requires Exchanging(env, n) && KeyPresent(rt, k)
    ensures var r := SubmitKey(env, rt, n, k, Accepted);
            && r.rt == Move(rt, AfterKey(k)) && r.result == Ok(KeyProgress(k))
            && Exchanging(env, r.n) && r.n.station.pending == Some(CommandOf(k))
            && r.n.station.link == n.station.link
  {
    hide Timeout, TimeoutOf;
  }

  lemma StillExchanging(env: Env, n: Native, command: nat)
    requires Exchanging(env, n) && command in {NEW_KEY, SET_KEY}
    ensures var s := Succeeded(n.station.(pending := None), command);
            Exchanging(env, n.(station := s)) && s.link == n.station.link
  {
    hide Timeout;
  }

  /** The acknowledgement of one key submits the next. */
  lemma KeyFollows(o: Origin, t: Trace, k: KeySubmission, io: Io) returns (u: Trace)
    requires OriginOk(o) && Leads(o, t) && Exchanging(o.env, t.y.n) && io.key == Accepted
    requires t.y.n.station.pending == Some(NEW_KEY) && t.y.rt.pairwise.Some?
    requires k in {InitialGroup, InitialDefaultGroup}
    requires t.y.rt.state == if k == InitialGroup then AwaitingPairwiseKeyStatus else AwaitingGroupKeyStatus
    ensures Leads(o, u) && u.y.associations == t.y.associations
    ensures Exchanging(o.env, u.y.n) && u.y.n.station.link == t.y.n.station.link
    ensures u.y.n.station.pending == Some(CommandOf(k)) && u.y.rt == Move(t.y.rt, AfterKey(k))
  {
    hide Ran, Make, SubmitKey, Exchanging, Succeeded, TimeoutOf;
    var env, n, rt := o.env, t.y.n, t.y.rt;
    assert n.state == Ready by { ExchangingIsReady(env, n); }
    StillExchanging(env, n, NEW_KEY);
    AcknowledgedCall(env, n, rt, NEW_KEY, io);
    KeyIsSubmitted(env, rt, n.(station := Succeeded(n.station.(pending := None), NEW_KEY)), k);
    u := Go(o, t, Acknowledged(NEW_KEY, io));
  }

  lemma ExchangingIsReady(env: Env, n: Native)
    requires Exchanging(env, n)
    ensures n.state == Ready
  {
  }

  /** Message 3 in: the pairwise key is submitted. */
  lemma Accepted3(o: Origin, t: Trace, p: Peer) returns (u: Trace)
    requires OriginOk(o) && Leads(o, t) && PeerOk(p) && Exchanging(o.env, t.y.n)
    requires t.y.rt.state == AwaitingAuthenticator
    requires var s := t.y.rt.supplicant;
             && SupplicantProof.StateOk(o.env.cfg, s) && s.phase == Supplicant.AwaitingMessage3
             && s.message1Replay == Some(p.replay1) && s.authenticatorNonce == p.an && s.supplicantNonce == o.nonce
    ensures Leads(o, u) && u.y.associations == t.y.associations
    ensures Exchanging(o.env, u.y.n) && u.y.n.station.link == t.y.n.station.link
    ensures u.y.n.station.pending == Some(NEW_KEY) && u.y.rt.state == AwaitingPairwiseKeyStatus
    ensures u.y.rt.pairwise.Some?
    ensures var s, request := u.y.rt.supplicant, u.y.rt.pairwise.value;
            && s.pending == Some(Supplicant.Pending(request.ticket, request.replay, false)) && s.pendingDigest.Some?
            && s.ptk == t.y.rt.supplicant.ptk && |request.response| <= 512
            && request.temporalKey == KeyMaterial.TemporalKey(Shared(o, p))
            && request.group.gtk == Handshake.GroupKeyIn(p.k)
  {
    hide Ran, Make, Supplicant.OnEapol, EapolKey.Signed, EapolKey.Parse, EapolKey.VerifyMic, EapolKey.Sha256,
      Handshake.AuthenticatorPtk, Handshake.CarrierOk, Handshake.Request3, SubmitKey, Exchanging,
      SupplicantProof.StateOk, KeyMaterial.TemporalKey, TimeoutOf;
    var env, rt, ptk := o.env, t.y.rt, Shared(o, p);
    Handshake.Message3IsAccepted(env.cfg, rt.supplicant, p.version, p.replay3, p.k);
    var request3 := Handshake.Request3(env.cfg.crypto, p.version, p.replay3, p.an, ptk, p.k);
    var message3 := EapolKey.Signed(env.cfg.crypto, request3, KeyMaterial.Kck(ptk));
    ArrivesCall(env, t.y.n, rt, p.frame, message3, Willing(p.token4));
    var step := Supplicant.OnEapol(env.cfg, rt.supplicant, env.cfg.peer, message3);
    Handshake.PendingHasDigest(env.cfg, step.state);
    var digest := EapolKey.Sha256(env.cfg.crypto, message3);
    KeyIsSubmitted(env, rt.(supplicant := step.state, digest := Some(digest), pairwise := Some(step.result.value.keys)),
                   t.y.n, PairwiseKey);
    u := Go(o, t, Arrives(env, p.frame, message3, Willing(p.token4)));
  }

  /** All keys in: the supplicant is complete and Message 4 is submitted. */
  lemma Installed(o: Origin, t: Trace, token: nat) returns (u: Trace)
    requires OriginOk(o) && Leads(o, t) && Exchanging(o.env, t.y.n)
    requires t.y.n.station.pending == Some(SET_KEY) && t.y.rt.state == AwaitingDefaultGroupKeyStatus
    requires t.y.rt.pairwise.Some?
    requires var s, request := t.y.rt.supplicant, t.y.rt.pairwise.value;
             && s.pending == Some(Supplicant.Pending(request.ticket, request.replay, false)) && s.pendingDigest.Some?
             && |request.response| <= 512
    ensures Leads(o, u) && u.y.associations == t.y.associations
    ensures Exchanging(o.env, u.y.n) && u.y.n.station.link == t.y.n.station.link
    ensures u.y.rt.state == AwaitingEapolTransmit(token, ForMessage4)
    ensures u.y.rt.supplicant.phase == Supplicant.Complete && u.y.rt.supplicant.ptk == t.y.rt.supplicant.ptk
  {
    hide Ran, Make, Exchanging, Succeeded, TimeoutOf, SubmitEapol;
    var env, n, rt := o.env, t.y.n, t.y.rt;
    assert n.state == Ready by { ExchangingIsReady(env, n); }
    StillExchanging(env, n, SET_KEY);
    AcknowledgedCall(env, n, rt, SET_KEY, Willing(token));
    var c := Supplicant.CompleteKeys(rt.supplicant, rt.pairwise.value, true);
    EapolIsSubmitted(env, rt.(supplicant := c.after, pairwise := None),
                     n.(station := Succeeded(n.station.(pending := None), SET_KEY)), c.response.value, ForMessage4,
                     token);
    u := Go(o, t, Acknowledged(SET_KEY, Willing(token)));
  }

  /** No pairwise key was submitted. */
  ghost predicate WithoutKeys(log: seq<Seen>) {
    forall i | 0 <= i < |log| :: log[i].progress != PairwiseKeySubmitted
  }

  /** Only a frame makes the coordinator submit a pairwise key. */
  lemma PollsWithoutKeys(env: Env, n: Native, rt: Runtime, read: EventRead, io: Io)
    requires EnvOk(env) && Supplicant.Typed(rt.supplicant)
    ensures WithoutKeys(Make(env, n, rt, PollEvent(read, io)).seen)
  {
    hide Poll, NeedsRecovery, TimeoutOf, EnvOk, Abandoned, Submit, Transmit, Supplicant.CompleteKeys,
      Supplicant.CompleteGroup, Supplicant.Typed;
  }

  /** Message 4 delivered and the authorization submitted. */
  lemma Delivered4(o: Origin, t: Trace, token: nat) returns (u: Trace)
    requires OriginOk(o) && Leads(o, t) && Exchanging(o.env, t.y.n)
    requires t.y.rt.state == AwaitingEapolTransmit(token, ForMessage4)
    ensures Leads(o, u) && u.y.associations == t.y.associations
    ensures u.y.n.state == Ready && u.y.n.station.state == Authorizing && u.y.n.station.link == t.y.n.station.link
    ensures u.y.n.station.pending == Some(SET_STATION)
    ensures u.y.rt.state == AwaitingAuthorizationStatus && u.y.rt.supplicant == t.y.rt.supplicant
    ensures t.cs <= u.cs && (WithoutKeys(t.y.log) ==> WithoutKeys(u.y.log))
  {
    hide Ran, Make, TimeoutOf, Timeout, WithoutKeys;
    SentCall(o.env, t.y.n, t.y.rt, token, Willing(token));
    u := GoPolled(o, t, Sent(token, Willing(token)));
  }

  /** The station authorized. */
  lemma Granted4(o: Origin, t: Trace, io: Io) returns (u: Trace)
    requires OriginOk(o) && Leads(o, t)
    requires t.y.n.state == Ready && t.y.n.station.state == Authorizing && t.y.n.station.pending == Some(SET_STATION)
    requires t.y.rt.state == AwaitingAuthorizationStatus
    ensures Leads(o, u) && u.y.associations == t.y.associations && u.y.n.state == Ready
    ensures u.y.n.station.link == t.y.n.station.link.(authorized := true)
    ensures u.y.rt.supplicant == t.y.rt.supplicant
    ensures t.cs <= u.cs && (WithoutKeys(t.y.log) ==> WithoutKeys(u.y.log))
  {
    hide Ran, Make, TimeoutOf, Timeout, WithoutKeys;
    AcknowledgedCall(o.env, t.y.n, t.y.rt, SET_STATION, io);
    u := GoPolled(o, t, Acknowledged(SET_STATION, io));
  }

  /** Message 4 delivered, the station authorized, carrier on. */
  lemma Opened(o: Origin, t: Trace, token: nat) returns (u: Trace)
    requires OriginOk(o) && Leads(o, t) && Exchanging(o.env, t.y.n)
    requires t.y.rt.state == AwaitingEapolTransmit(token, ForMessage4)
    ensures Leads(o, u) && u.y.associations == t.y.associations
    ensures PortOpen(u.y.n.station) && u.y.n.state == Ready && u.y.n.station.link.secure
    ensures u.y.n.station.link.peer == t.y.n.station.link.peer
    ensures u.y.rt.state == RuntimeComplete && u.y.rt.supplicant == t.y.rt.supplicant
    ensures t.cs <= u.cs && (WithoutKeys(t.y.log) ==> WithoutKeys(u.y.log))
  {
    hide Ran, Make, TimeoutOf, Timeout, WithoutKeys;
    u := Delivered4(o, t, token);
    u := Granted4(o, u, Willing(token));
    CarrierCall(o.env, u.y.n, u.y.rt, Willing(token));
    u := GoPolled(o, u, CarrierIsOn(o.env, Willing(token)));
  }

  lemma GoPolled(o: Origin, t: Trace, c: SecureCall) returns (u: Trace)
    requires OriginOk(o) && Leads(o, t) && c.PollEvent?
    ensures Leads(o, u) && u.y.associations == t.y.associations
    ensures var m := Make(o.env, t.y.n, t.y.rt, c); u.y.n == m.n && u.y.rt == m.rt
    ensures t.cs <= u.cs && (WithoutKeys(t.y.log) ==> WithoutKeys(u.y.log))
  {
    hide Make, Ran;
    PollsWithoutKeys(o.env, t.y.n, t.y.rt, c.read, c.io);
    u := Go(o, t, c);
  }

  function CarrierIsOn(env: Env, io: Io): SecureCall {
    PollEvent(Read(DataMessageOf(LinkData(CarrierOn(env.ids.wdevId)))), io)
  }

  lemma CarrierCall(env: Env, n: Native, rt: Runtime, io: Io)
    requires EnvOk(env) && Supplicant.Typed(rt.supplicant) && n.state == Ready && n.station.link.authorized
    ensures var m := Make(env, n, rt, CarrierIsOn(env, io));
            && PortOpen(m.n.station) && m.n.state == Ready && m.n.station.link.secure == n.station.link.secure
            && m.n.station.link.peer == n.station.link.peer
            && m.rt == Move(rt, RuntimeComplete)
  {
    hide NeedsRecovery, TimeoutOf, Timeout;
  }

  /** From the key exchange on: any access point that completes the handshake,
      any tokens and any group key, and firmware that acknowledges, bring the
      driver to an open port. */
  lemma Connects(o: Origin, t: Trace, p: Peer) returns (u: Trace)
    requires OriginOk(o) && Leads(o, t) && PeerOk(p) && Exchanging(o.env, t.y.n)
    requires t.y.rt.state == AwaitingAuthenticator && t.y.rt.supplicant == Supplicant.Initial(o.nonce)
    ensures Leads(o, u) && u.y.associations == t.y.associations
    ensures PortOpen(u.y.n.station) && u.y.n.state == Ready && u.y.n.station.link.secure
    ensures u.y.n.station.link.peer == t.y.n.station.link.peer
    ensures u.y.rt.state == RuntimeComplete && u.y.rt.supplicant.phase == Supplicant.Complete
    ensures u.y.rt.supplicant.ptk == Some(Shared(o, p))
  {
    hide Exchanging, Handshake.AuthenticatorPtk, SupplicantProof.StateOk, Handshake.CarrierOk, Leads, OriginOk;
    u := Answered(o, t, p);
    u := Accepted3(o, u, p);
    u := KeyFollows(o, u, InitialGroup, Willing(p.token4));
    u := KeyFollows(o, u, InitialDefaultGroup, Willing(p.token4));
    u := Installed(o, u, p.token4);
    u := Opened(o, u, p.token4);
  }

  /** The same from any driver in the key exchange, handed to a new coordinator. */
  lemma SecureConnectionOpensThePort(o: Origin, p: Peer) returns (cs: seq<SecureCall>)
    requires OriginOk(o) && PeerOk(p) && Exchanging(o.env, o.n)
    ensures SecureCallsOk(cs)
    ensures var y := Ran(o.env, o.n, o.nonce, cs);
            && PortOpen(y.n.station) && y.n.state == Ready && y.n.station.link.secure && y.associations == 1
            && y.rt.state == RuntimeComplete && y.rt.supplicant.phase == Supplicant.Complete
            && y.rt.supplicant.ptk == Some(Shared(o, p))
  {
    hide Exchanging, Handshake.AuthenticatorPtk, SupplicantProof.StateOk, Handshake.CarrierOk;
    var t := Trace([], Ran(o.env, o.n, o.nonce, []));
    assert t.y.n.station.link.secure by { ExchangingIsSecure(o.env, o.n); }
    t := Connects(o, t, p);
    cs := t.cs;
  }

  /** From a new driver: recovery, the interface, authentication, a secure
      association with the access point, and the handshake end with the port
      open and the pairwise key of the access point. So the conditions under
      which the port of a secure station may open are met in some run. */
  lemma SecureConnectionFromANewDriver(env: Env, nonce: seq<byte>, mac: seq<byte>, p: Peer)
    returns (cs: seq<SecureCall>)
    requires EnvOk(env) && |nonce| == 32 && env.wdevId == env.ids.wdevId && PeerOk(p)
    ensures Handed(NewDriver()) && SecureCallsOk(cs)
    ensures var y := Ran(env, NewDriver(), nonce, cs);
            && PortOpen(y.n.station) && y.n.state == Ready && y.n.station.link.secure && y.associations == 1
            && y.rt.state == RuntimeComplete && y.rt.supplicant.phase == Supplicant.Complete
            && y.rt.supplicant.ptk == Some(Handshake.AuthenticatorPtk(env.cfg, p.an, nonce))
  {
    hide Ran, Handshake.AuthenticatorPtk, Handshake.CarrierOk, Timeout, NeedsRecovery, StationNeedsRecovery, Address,
      MlmeStatus, Connection.Granted, Performed;
    NewIsHanded();
    var o := Origin(env, NewDriver(), nonce);
    var t := GetsExchanging(o, mac);
    t := Connects(o, t, p);
    cs := t.cs;
  }

  /** Recovery, the interface, authentication and a secure association. */
  lemma GetsExchanging(o: Origin, mac: seq<byte>) returns (t: Trace)
    requires OriginOk(o) && o.n == NewDriver() && o.env.wdevId == o.env.ids.wdevId
    ensures Leads(o, t) && t.y.associations == 1 && t.y.rt == Fresh(o.nonce)
    ensures Exchanging(o.env, t.y.n) && t.y.n.station.link.peer == Some(o.env.cfg.peer)
  {
    hide Ran, Timeout, NeedsRecovery, StationNeedsRecovery, Address, MlmeStatus, Connection.Granted, Performed;
    var bssid := o.env.cfg.peer;
    var calls := Connection.GetsAuthenticated(o.env.ids, mac, bssid);
    Connection.GrantedFields(bssid);
    t := GoAll(o, calls);
    t := GoDirect(o, t, CallRun(Associate(bssid, true), Accepted));
    t := GoDirect(o, t, Connection.Event(Association(Connection.Granted(bssid))));
  }

  lemma NewIsHanded()
    ensures Handed(NewDriver())
  {
  }

  lemma ExchangingIsSecure(env: Env, n: Native)
    requires Exchanging(env, n)
    ensures n.station.link.secure
  {
  }
}
