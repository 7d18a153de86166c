/** The WPA2 supplicant (src/wpa2.rs): the four-way and group handshakes as a
    transition function on values, and the class that performs it in place. */
module Supplicant {
  import opened Bytes
  import opened EapolKey
  import opened KeyMaterial
  import opened KeyWrap
  import R = RsnElement
  import opened Wrappers

  datatype Phase = AwaitingMessage1 | AwaitingMessage3 | InstallingKeys | Complete | Failed

  datatype HandshakeError =
    | WrongPeer
    | InvalidPhase
    | UnsupportedMessage
    | InvalidAuthenticatorNonce
    | InvalidSupplicantNonce
    | InvalidMic
    | MissingEncryptedKeyData
    | InstallFailed
    | Replayed(replay: ReplayError)

  datatype ReplayError =
    | StaleReplayCounter
    | ConflictingRetransmission
    | NewPairwiseHandshakeRequiresNonce
    | StaleCompletion
    | Busy

  datatype Wpa2Error =
    | FrameFault(frame: FrameError)
    | KeyDataFault(keyData: KeyDataError)
    | UnsupportedDescriptorVersion(version: nat)
    | InvalidPairwiseKeyLength(length: nat)
    | RsnFault(rsn: R.RsnError)
    | Handshake(error: HandshakeError)

  /** What `new` fixes for the lifetime of a supplicant. */
  datatype Config = Config(crypto: Crypto, local: seq<byte>, peer: seq<byte>, pmk: seq<byte>, rsnIe: seq<byte>)

  ghost predicate Configured(cfg: Config) {
    && Sound(cfg.crypto)
    && |cfg.local| == |cfg.peer| == 6
    && |cfg.rsnIe| <= R.MAX_RSN_IE_LEN
  }

  /** `(ticket, replay counter, group)` of the outstanding installation. */
  datatype Pending = Pending(ticket: nat, replay: nat, group: bool)

  datatype State = State(
    phase: Phase,
    ptk: Option<seq<byte>>,
    supplicantNonce: seq<byte>,
    authenticatorNonce: seq<byte>,
    message1Replay: Option<nat>,
    message1Digest: Option<seq<byte>>,
    completedReplay: Option<nat>,
    message3Digest: Option<seq<byte>>,
    groupReplay: Option<nat>,
    groupDigest: Option<seq<byte>>,
    pending: Option<Pending>,
    pendingDigest: Option<seq<byte>>,
    nextTicket: nat)

  /** Facts the field types of the source guarantee. */
  ghost predicate Typed(s: State) {
    && |s.supplicantNonce| == |s.authenticatorNonce| == 32
    && (s.ptk.Some? ==> |s.ptk.value| == 48)
  }

  datatype GroupInstall = GroupInstall(gtk: Gtk, sequence: seq<byte>)

  datatype KeyRequest = KeyRequest(
    ticket: nat, replay: nat, temporalKey: seq<byte>, group: GroupInstall, response: seq<byte>)

  datatype GroupRequest = GroupRequest(ticket: nat, replay: nat, group: GroupInstall, response: seq<byte>)

  datatype Action =
    | NoAction
    | Transmit(frame: seq<byte>)
    | InstallKeys(keys: KeyRequest)
    | InstallGroupKey(groupKey: GroupRequest)

  datatype Step = Step(state: State, result: Result<Action, Wpa2Error>)

  datatype Completion = Completion(after: State, response: Result<seq<byte>, Wpa2Error>)

  const TICKETS := 0xffff_ffff

  /** `next_ticket.wrapping_add(1).max(1)` on 32 bits. */
  function NextTicket(ticket: nat): nat {
    var wrapped := (ticket + 1) % 0x1_0000_0000;
    if wrapped == 0 then 1 else wrapped
  }

  // ------------------------------------------------------------- transitions

  function Initial(nonce: seq<byte>): State {
    State(AwaitingMessage1, None, nonce, Zeros(32), None, None, None, None, None, None, None, None, 1)
  }

  function Cleared(s: State): State {
    State(s.phase, None, Zeros(32), Zeros(32), None, None, None, None, None, None, None, None, s.nextTicket)
  }

  /** Every fatal error clears the handshake. */
  function FailedState(s: State): State {
    Cleared(s).(phase := Failed)
  }

  function Fail(s: State, e: HandshakeError): Step {
    Step(FailedState(s), Err(Handshake(e)))
  }

  function FailReplay(s: State, e: ReplayError): Step {
    Fail(s, Replayed(e))
  }

  /** An error returned without failing the handshake. */
  function Refuse(s: State, e: HandshakeError): Step {
    Step(s, Err(Handshake(e)))
  }

  function Reply(cfg: Config, s: State, r: Response): Step
    requires |r.nonce| == 32 && s.ptk.Some? && |s.ptk.value| == 48
  {
    match Build(cfg.crypto, r, Kck(s.ptk.value))
    case Err(e) => Step(s, Err(FrameFault(e)))
    case Ok(frame) => Step(s, Ok(Transmit(frame)))
  }

  function PtkOf(cfg: Config, authenticatorNonce: seq<byte>, supplicantNonce: seq<byte>): (ptk: seq<byte>)
    requires |cfg.peer| == |cfg.local| && |authenticatorNonce| == |supplicantNonce|
    ensures |ptk| == 48
  {
    Ptk(cfg.crypto, cfg.pmk, cfg.peer, cfg.local, authenticatorNonce, supplicantNonce)
  }

  /** `on_eapol`. */
  ghost function OnEapol(cfg: Config, s: State, peer: seq<byte>, bytes: seq<byte>): (r: Step)
    requires Configured(cfg) && Typed(s)
    ensures Typed(r.state)
  {
    if peer != cfg.peer then Fail(s, WrongPeer)
    else if Parse(bytes).Err? then Step(s, Err(FrameFault(Parse(bytes).error)))
    else OnFrame(cfg, s, Parse(bytes).value)
  }

  predicate IsPairwiseRequest(m: Message) {
    m == Pairwise1 || m == Pairwise3
  }

  ghost function OnFrame(cfg: Config, s: State, f: Frame): (r: Step)
    requires Configured(cfg) && Typed(s) && WellFormed(f)
    ensures Typed(r.state)
  {
    if f.info % 8 != DESCRIPTOR_VERSION then
      Step(FailedState(s), Err(UnsupportedDescriptorVersion(f.info % 8)))
    else if IsPairwiseRequest(Classify(f.info)) && KeyLength(f) != 16 then
      Step(FailedState(s), Err(InvalidPairwiseKeyLength(KeyLength(f))))
    else if s.pending.Some? then OnPending(cfg, s, f)
    else
      match Classify(f.info)
      case Pairwise1 => OnMessage1(cfg, s, f)
      case Pairwise3 => OnMessage3(cfg, s, f)
      case Group1 => OnGroupMessage1(cfg, s, f)
      case _ => Fail(s, UnsupportedMessage)
  }

  /** While an installation is outstanding only its own frame is tolerated. */
  function OnPending(cfg: Config, s: State, f: Frame): (r: Step)
    requires WellFormed(f) && s.pending.Some?
  {
    if Replay(f) != s.pending.value.replay then Refuse(s, Replayed(Busy))
    else if Classify(f.info) == (if s.pending.value.group then Group1 else Pairwise3)
            && s.pendingDigest == Some(Digest(cfg.crypto, f)) then Step(s, Ok(NoAction))
    else FailReplay(s, ConflictingRetransmission)
  }

  function OnMessage1(cfg: Config, s: State, f: Frame): (r: Step)
    requires |cfg.peer| == |cfg.local| && Typed(s) && WellFormed(f)
    ensures Typed(r.state)
  {
    if f.keyData != [] then Fail(s, UnsupportedMessage)
    else if Nonce(f) == Zeros(32) then Fail(s, InvalidAuthenticatorNonce)
    else if s.phase == Complete then
      if s.completedReplay == Some(Replay(f)) && s.authenticatorNonce == Nonce(f)
      then FailReplay(s, ConflictingRetransmission)
      else Refuse(s, Replayed(NewPairwiseHandshakeRequiresNonce))
    else if s.phase != AwaitingMessage1 && s.phase != AwaitingMessage3 then Fail(s, InvalidPhase)
    else if s.message1Replay.Some? then OnRepeatedMessage1(cfg, s, f)
    else
      var next := s.(authenticatorNonce := Nonce(f),
                     message1Replay := Some(Replay(f)),
                     message1Digest := Some(Digest(cfg.crypto, f)),
                     ptk := Some(PtkOf(cfg, Nonce(f), s.supplicantNonce)),
                     phase := AwaitingMessage3);
      Reply(cfg, next, Message2(Version(f), KeyLength(f), Replay(f), s.supplicantNonce, cfg.rsnIe))
  }

  function OnRepeatedMessage1(cfg: Config, s: State, f: Frame): (r: Step)
    requires Typed(s) && WellFormed(f) && s.message1Replay.Some?
    ensures Typed(r.state)
  {
    if Replay(f) < s.message1Replay.value then FailReplay(s, StaleReplayCounter)
    else if Replay(f) > s.message1Replay.value then Refuse(s, Replayed(NewPairwiseHandshakeRequiresNonce))
    else if s.authenticatorNonce != Nonce(f) || s.message1Digest != Some(Digest(cfg.crypto, f))
    then FailReplay(s, ConflictingRetransmission)
    else if s.ptk.None? then Refuse(s, InvalidPhase)
    else Reply(cfg, s, Message2(Version(f), KeyLength(f), Replay(f), s.supplicantNonce, cfg.rsnIe))
  }

  ghost function OnMessage3(cfg: Config, s: State, f: Frame): (r: Step)
    requires Configured(cfg) && Typed(s) && WellFormed(f)
    ensures Typed(r.state)
  {
    if s.ptk.None? then Refuse(s, InvalidPhase)
    else if Nonce(f) != s.authenticatorNonce then Fail(s, InvalidAuthenticatorNonce)
    else if !VerifyMic(cfg.crypto, f, Kck(s.ptk.value)) then Fail(s, InvalidMic)
    else if s.phase == Complete then OnCompletedMessage3(cfg, s, f)
    else if s.phase != AwaitingMessage3 || s.message1Replay.None? then Fail(s, InvalidPhase)
    else if Replay(f) <= s.message1Replay.value then FailReplay(s, StaleReplayCounter)
    else if !EncryptedKeyData(f) then Fail(s, MissingEncryptedKeyData)
    else BeginInstall(cfg, s, f, false)
  }

  predicate EncryptedKeyData(f: Frame) {
    Flag(f.info, ENCRYPTED) && f.keyData != []
  }

  function OnCompletedMessage3(cfg: Config, s: State, f: Frame): (r: Step)
    requires Typed(s) && WellFormed(f) && s.ptk.Some?
    ensures Typed(r.state)
  {
    if s.completedReplay != Some(Replay(f)) then FailReplay(s, StaleReplayCounter)
    else if s.message3Digest != Some(Digest(cfg.crypto, f)) then FailReplay(s, ConflictingRetransmission)
    else Reply(cfg, s, Message4(Version(f), KeyLength(f), Replay(f)))
  }

  /** Message 4 or group Message 2, which answers once the keys are in. */
  function FinalResponse(cfg: Config, f: Frame, group: bool, ptk: seq<byte>): Result<seq<byte>, FrameError>
    requires WellFormed(f) && |ptk| == 48
  {
    if group
    then Build(cfg.crypto, GroupMessage2(Version(f), KeyLength(f), Replay(f)), Kck(ptk))
    else Build(cfg.crypto, Message4(Version(f), KeyLength(f), Replay(f)), Kck(ptk))
  }

  /** Unwraps the key data of an authenticated frame and issues a request.
      Faults in the key data leave the handshake as it was. */
  ghost function BeginInstall(cfg: Config, s: State, f: Frame, group: bool): (r: Step)
    requires Configured(cfg) && Typed(s) && WellFormed(f) && s.ptk.Some?
    ensures Typed(r.state)
  {
    var gtk := FrameGtk(cfg.crypto, f, s.ptk.value);
    var response := FinalResponse(cfg, f, group, s.ptk.value);
    if gtk.Err? then Step(s, Err(KeyDataFault(gtk.error)))
    else if response.Err? then Step(s, Err(FrameFault(response.error)))
    else Step(Installing(cfg, s, f, group), Ok(Request(s, f, group, gtk.value, response.value)))
  }

  function Installing(cfg: Config, s: State, f: Frame, group: bool): State
    requires WellFormed(f)
  {
    s.(phase := if group then s.phase else InstallingKeys,
       pending := Some(Pending(s.nextTicket, Replay(f), group)),
       pendingDigest := Some(Digest(cfg.crypto, f)),
       nextTicket := NextTicket(s.nextTicket))
  }

  function Request(s: State, f: Frame, group: bool, gtk: Gtk, response: seq<byte>): Action
    requires WellFormed(f) && s.ptk.Some? && |s.ptk.value| == 48
  {
    var install := GroupInstall(gtk, ReceiveSequence(f));
    if group
    then InstallGroupKey(GroupRequest(s.nextTicket, Replay(f), install, response))
    else InstallKeys(KeyRequest(s.nextTicket, Replay(f), TemporalKey(s.ptk.value), install, response))
  }

  ghost function OnGroupMessage1(cfg: Config, s: State, f: Frame): (r: Step)
    requires Configured(cfg) && Typed(s) && WellFormed(f)
    ensures Typed(r.state)
  {
    if s.phase != Complete then Fail(s, InvalidPhase)
    else if s.groupReplay == Some(Replay(f)) then OnRepeatedGroupMessage1(cfg, s, f)
    else if Replay(f) <= (if s.completedReplay.Some? then s.completedReplay.value else 0)
    then FailReplay(s, StaleReplayCounter)
    else if s.ptk.None? then Fail(s, InvalidPhase)
    else if !VerifyMic(cfg.crypto, f, Kck(s.ptk.value)) then Fail(s, InvalidMic)
    else if !EncryptedKeyData(f) then Fail(s, MissingEncryptedKeyData)
    else BeginInstall(cfg, s, f, true)
  }

  function OnRepeatedGroupMessage1(cfg: Config, s: State, f: Frame): (r: Step)
    requires Typed(s) && WellFormed(f)
    ensures Typed(r.state)
  {
    if s.ptk.None? then Refuse(s, InvalidPhase)
    else if !VerifyMic(cfg.crypto, f, Kck(s.ptk.value)) then Fail(s, InvalidMic)
    else if s.groupDigest != Some(Digest(cfg.crypto, f)) then FailReplay(s, ConflictingRetransmission)
    else Reply(cfg, s, GroupMessage2(Version(f), KeyLength(f), Replay(f)))
  }

  /** `accept_key_completion` for a request that is not accepted. */
  function RejectedCompletion(s: State, request: Pending, installed: bool): Option<Completion> {
    if s.pending != Some(request) || s.pendingDigest.None? then
      Some(Completion(FailedState(s), Err(Handshake(Replayed(StaleCompletion)))))
    else if !installed then Some(Completion(FailedState(s), Err(Handshake(InstallFailed))))
    else None
  }

  /** `complete_key_install`. */
  function CompleteKeys(s: State, request: KeyRequest, installed: bool): (c: Completion)
    requires Typed(s)
    ensures Typed(c.after)
  {
    match RejectedCompletion(s, Pending(request.ticket, request.replay, false), installed)
    case Some(rejected) => rejected
    case None =>
      Completion(s.(phase := Complete,
                    completedReplay := Some(request.replay),
                    message3Digest := s.pendingDigest,
                    pending := None,
                    pendingDigest := None), Ok(request.response))
  }

  /** `complete_group_key_install`. */
  function CompleteGroup(s: State, request: GroupRequest, installed: bool): (c: Completion)
    requires Typed(s)
    ensures Typed(c.after)
  {
    match RejectedCompletion(s, Pending(request.ticket, request.replay, true), installed)
    case Some(rejected) => rejected
    case None =>
      Completion(s.(phase := Complete,
                    completedReplay := Some(request.replay),
                    groupReplay := Some(request.replay),
                    groupDigest := s.pendingDigest,
                    pending := None,
                    pendingDigest := None), Ok(request.response))
  }

  /** `restart_pairwise`. */
  function Restart(s: State, nonce: seq<byte>): (r: (State, Option<HandshakeError>))
    requires Typed(s) && |nonce| == 32
    ensures Typed(r.0)
  {
    if nonce == Zeros(32) then (s, Some(InvalidSupplicantNonce))
    else if s.pending.Some? then (s, Some(Replayed(Busy)))
    else (Cleared(s).(supplicantNonce := nonce, phase := AwaitingMessage1), None)
  }

  // --------------------------------------------------------------- the object

  class Wpa2Supplicant {
    const cfg: Config
    var phase: Phase
    var ptk: Option<seq<byte>>
    var supplicantNonce: seq<byte>
    var authenticatorNonce: seq<byte>
    var message1Replay: Option<nat>
    var message1Digest: Option<seq<byte>>
    var completedReplay: Option<nat>
    var message3Digest: Option<seq<byte>>
    var groupReplay: Option<nat>
    var groupDigest: Option<seq<byte>>
    var pending: Option<Pending>
    var pendingDigest: Option<seq<byte>>
    var nextTicket: nat

    ghost function Value(): State
      reads this
    {
      State(phase, ptk, supplicantNonce, authenticatorNonce, message1Replay, message1Digest,
            completedReplay, message3Digest, groupReplay, groupDigest, pending, pendingDigest, nextTicket)
    }

    ghost predicate Valid()
      reads this
    {
      Configured(cfg) && Typed(Value())
    }

    /** `new`: a supplicant for a nonzero nonce and a valid RSN element. */
    static method New(cfg: Config, nonce: seq<byte>) returns (r: Result<Wpa2Supplicant, Wpa2Error>)
      requires Sound(cfg.crypto) && |cfg.local| == |cfg.peer| == 6 && |nonce| == 32
      ensures r.Ok? <==> nonce != Zeros(32) && R.Validate(cfg.rsnIe).None?
      ensures r.Ok? ==> fresh(r.value) && r.value.Valid() && r.value.cfg == cfg && r.value.Value() == Initial(nonce)
      ensures r.Err? ==> r.error == if nonce == Zeros(32) then Handshake(InvalidSupplicantNonce)
                                    else RsnFault(R.Validate(cfg.rsnIe).value)
    {
      hide R.ValidateBody;
      if nonce == Zeros(32) {
        return Err(Handshake(InvalidSupplicantNonce));
      }
      var fault := R.Validate(cfg.rsnIe);
      if fault.Some? {
        return Err(RsnFault(fault.value));
      }
      var supplicant := new Wpa2Supplicant(cfg, nonce);
      r := Ok(supplicant);
    }

    constructor (cfg: Config, nonce: seq<byte>)
      requires Configured(cfg) && |nonce| == 32
      ensures Valid() && this.cfg == cfg && Value() == Initial(nonce)
    {
      this.cfg := cfg;
      phase, ptk := AwaitingMessage1, None;
      supplicantNonce, authenticatorNonce := nonce, Zeros(32);
      message1Replay, message1Digest := None, None;
      completedReplay, message3Digest := None, None;
      groupReplay, groupDigest := None, None;
      pending, pendingDigest := None, None;
      nextTicket := 1;
    }

    method ClearTransientState()
      modifies this
      ensures Value() == Cleared(old(Value()))
    {
      hide Zeros;
      ptk := None;
      supplicantNonce := Zeros(32);
      authenticatorNonce := Zeros(32);
      message1Replay := None;
      message1Digest := None;
      completedReplay := None;
      message3Digest := None;
      groupReplay := None;
      groupDigest := None;
      pending := None;
      pendingDigest := None;
    }

    method FailWith<T>(e: Wpa2Error) returns (r: Result<T, Wpa2Error>)
      modifies this
      ensures Value() == FailedState(old(Value())) && r == Err(e)
    {
      ClearTransientState();
      phase := Failed;
      r := Err(e);
    }

    method RestartPairwise(nonce: seq<byte>) returns (r: Option<HandshakeError>)
      requires Valid() && |nonce| == 32
      modifies this
      ensures Valid() && (Value(), r) == Restart(old(Value()), nonce)
    {
      if nonce == Zeros(32) {
        return Some(InvalidSupplicantNonce);
      }
      if pending.Some? {
        return Some(Replayed(Busy));
      }
      ClearTransientState();
      supplicantNonce := nonce;
      phase := AwaitingMessage1;
      r := None;
    }

    /** `on_eapol`. */
    method Receive(peer: seq<byte>, bytes: seq<byte>) returns (r: Result<Action, Wpa2Error>)
      requires Valid()
      modifies this
      ensures Valid() && Step(Value(), r) == OnEapol(cfg, old(Value()), peer, bytes)
    {
      hide OnMessage1, OnMessage3, OnGroupMessage1, Classify, Parse;
      if peer != cfg.peer {
        r := FailWith(Handshake(WrongPeer));
        return;
      }
      var parsed := Parse(bytes);
      if parsed.Err? {
        return Err(FrameFault(parsed.error));
      }
      var f := parsed.value;
      if f.info % 8 != DESCRIPTOR_VERSION {
        r := FailWith(UnsupportedDescriptorVersion(f.info % 8));
        return;
      }
      var message := Classify(f.info);
      if IsPairwiseRequest(message) && KeyLength(f) != 16 {
        r := FailWith(InvalidPairwiseKeyLength(KeyLength(f)));
        return;
      }
      if pending.Some? {
        r := ReceivePending(f);
        return;
      }
      match message {
        case Pairwise1 => r := ReceiveMessage1(f);
        case Pairwise3 => r := ReceiveMessage3(f);
        case Group1 => r := ReceiveGroupMessage1(f);
        case _ => r := FailWith(Handshake(UnsupportedMessage));
      }
    }

    method ReceivePending(f: Frame) returns (r: Result<Action, Wpa2Error>)
      requires WellFormed(f) && pending.Some?
      modifies this
      ensures Step(Value(), r) == OnPending(cfg, old(Value()), f)
    {
      var outstanding := pending.value;
      if Replay(f) != outstanding.replay {
        return Err(Handshake(Replayed(Busy)));
      }
      var expected := if outstanding.group then Group1 else Pairwise3;
      if Classify(f.info) == expected && pendingDigest == Some(Digest(cfg.crypto, f)) {
        return Ok(NoAction);
      }
      r := FailWith(Handshake(Replayed(ConflictingRetransmission)));
    }

    method ReceiveMessage1(f: Frame) returns (r: Result<Action, Wpa2Error>)
      requires Valid() && WellFormed(f)
      modifies this
      ensures Step(Value(), r) == OnMessage1(cfg, old(Value()), f)
    {
      hide Build, Ptk, FailedState, Replay, Nonce, Digest, KeyLength;
      if f.keyData != [] {
        r := FailWith(Handshake(UnsupportedMessage));
        return;
      }
      var replay, nonce, digest := Replay(f), Nonce(f), Digest(cfg.crypto, f);
      if nonce == Zeros(32) {
        r := FailWith(Handshake(InvalidAuthenticatorNonce));
        return;
      }
      if phase == Complete {
        if completedReplay == Some(replay) && authenticatorNonce == nonce {
          r := FailWith(Handshake(Replayed(ConflictingRetransmission)));
        } else {
          r := Err(Handshake(Replayed(NewPairwiseHandshakeRequiresNonce)));
        }
        return;
      }
      if phase != AwaitingMessage1 && phase != AwaitingMessage3 {
        r := FailWith(Handshake(InvalidPhase));
        return;
      }
      if message1Replay.Some? {
        r := ReceiveRepeatedMessage1(f);
        return;
      }
      authenticatorNonce := nonce;
      message1Replay := Some(replay);
      message1Digest := Some(digest);
      var derived := DerivePtk(cfg.crypto, cfg.pmk, cfg.peer, cfg.local, nonce, supplicantNonce);
      ptk := Some(derived);
      phase := AwaitingMessage3;
      r := Answer(Message2(Version(f), KeyLength(f), replay, supplicantNonce, cfg.rsnIe));
    }

    method ReceiveRepeatedMessage1(f: Frame) returns (r: Result<Action, Wpa2Error>)
      requires Valid() && WellFormed(f) && message1Replay.Some?
      modifies this
      ensures Step(Value(), r) == OnRepeatedMessage1(cfg, old(Value()), f)
    {
      hide Build;
      if Replay(f) < message1Replay.value {
        r := FailWith(Handshake(Replayed(StaleReplayCounter)));
        return;
      }
      if Replay(f) > message1Replay.value {
        return Err(Handshake(Replayed(NewPairwiseHandshakeRequiresNonce)));
      }
      if authenticatorNonce != Nonce(f) || message1Digest != Some(Digest(cfg.crypto, f)) {
        r := FailWith(Handshake(Replayed(ConflictingRetransmission)));
        return;
      }
      if ptk.None? {
        return Err(Handshake(InvalidPhase));
      }
      r := Answer(Message2(Version(f), KeyLength(f), Replay(f), supplicantNonce, cfg.rsnIe));
    }

    /** Builds and signs one response under the current key. */
    method Answer(response: Response) returns (r: Result<Action, Wpa2Error>)
      requires |response.nonce| == 32 && ptk.Some? && |ptk.value| == 48
      ensures Step(Value(), r) == Reply(cfg, Value(), response)
    {
      hide Build;
      var frame, built := BuildResponse(cfg.crypto, response, Kck(ptk.value));
      r := if built.Ok? then Ok(Transmit(frame[..built.value])) else Err(FrameFault(built.error));
    }

    method ReceiveMessage3(f: Frame) returns (r: Result<Action, Wpa2Error>)
      requires Valid() && WellFormed(f)
      modifies this
      ensures Step(Value(), r) == OnMessage3(cfg, old(Value()), f)
    {
      hide Build, VerifyMic, BeginInstall;
      if ptk.None? {
        return Err(Handshake(InvalidPhase));
      }
      if Nonce(f) != authenticatorNonce {
        r := FailWith(Handshake(InvalidAuthenticatorNonce));
        return;
      }
      if !VerifyMic(cfg.crypto, f, Kck(ptk.value)) {
        r := FailWith(Handshake(InvalidMic));
        return;
      }
      if phase == Complete {
        if completedReplay != Some(Replay(f)) {
          r := FailWith(Handshake(Replayed(StaleReplayCounter)));
        } else if message3Digest != Some(Digest(cfg.crypto, f)) {
          r := FailWith(Handshake(Replayed(ConflictingRetransmission)));
        } else {
          r := Answer(Message4(Version(f), KeyLength(f), Replay(f)));
        }
        return;
      }
      if phase != AwaitingMessage3 || message1Replay.None? {
        r := FailWith(Handshake(InvalidPhase));
        return;
      }
      if Replay(f) <= message1Replay.value {
        r := FailWith(Handshake(Replayed(StaleReplayCounter)));
        return;
      }
      if !EncryptedKeyData(f) {
        r := FailWith(Handshake(MissingEncryptedKeyData));
        return;
      }
      r := StartInstall(f, false);
    }

    method ReceiveGroupMessage1(f: Frame) returns (r: Result<Action, Wpa2Error>)
      requires Valid() && WellFormed(f)
      modifies this
      ensures Step(Value(), r) == OnGroupMessage1(cfg, old(Value()), f)
    {
      hide Build, VerifyMic, BeginInstall;
      if phase != Complete {
        r := FailWith(Handshake(InvalidPhase));
        return;
      }
      if groupReplay == Some(Replay(f)) {
        r := ReceiveRepeatedGroupMessage1(f);
        return;
      }
      var floor := if completedReplay.Some? then completedReplay.value else 0;
      if Replay(f) <= floor {
        r := FailWith(Handshake(Replayed(StaleReplayCounter)));
        return;
      }
      if ptk.None? {
        r := FailWith(Handshake(InvalidPhase));
        return;
      }
      if !VerifyMic(cfg.crypto, f, Kck(ptk.value)) {
        r := FailWith(Handshake(InvalidMic));
        return;
      }
      if !EncryptedKeyData(f) {
        r := FailWith(Handshake(MissingEncryptedKeyData));
        return;
      }
      r := StartInstall(f, true);
    }

    method ReceiveRepeatedGroupMessage1(f: Frame) returns (r: Result<Action, Wpa2Error>)
      requires Valid() && WellFormed(f)
      modifies this
      ensures Step(Value(), r) == OnRepeatedGroupMessage1(cfg, old(Value()), f)
    {
      hide Build, VerifyMic;
      if ptk.None? {
        return Err(Handshake(InvalidPhase));
      }
      if !VerifyMic(cfg.crypto, f, Kck(ptk.value)) {
        r := FailWith(Handshake(InvalidMic));
        return;
      }
      if groupDigest != Some(Digest(cfg.crypto, f)) {
        r := FailWith(Handshake(Replayed(ConflictingRetransmission)));
        return;
      }
      r := Answer(GroupMessage2(Version(f), KeyLength(f), Replay(f)));
    }

    /** The end of `on_message3` and `on_group_message1`. */
    method StartInstall(f: Frame, group: bool) returns (r: Result<Action, Wpa2Error>)
      requires Valid() && WellFormed(f) && ptk.Some?
      modifies this
      ensures Step(Value(), r) == BeginInstall(cfg, old(Value()), f, group)
    {
      hide Build, FrameGtk;
      var gtk := GroupKeyOf(cfg.crypto, f, ptk.value);
      if gtk.Err? {
        return Err(KeyDataFault(gtk.error));
      }
      var response := if group
      then GroupMessage2(Version(f), KeyLength(f), Replay(f))
      else Message4(Version(f), KeyLength(f), Replay(f));
      var frame, built := BuildResponse(cfg.crypto, response, Kck(ptk.value));
      if built.Err? {
        return Err(FrameFault(built.error));
      }
      var ticket := nextTicket;
      nextTicket := NextTicket(nextTicket);
      pending := Some(Pending(ticket, Replay(f), group));
      pendingDigest := Some(Digest(cfg.crypto, f));
      var install := GroupInstall(gtk.value, ReceiveSequence(f));
      var bytes := frame[..built.value];
      if group {
        return Ok(InstallGroupKey(GroupRequest(ticket, Replay(f), install, bytes)));
      }
      phase := InstallingKeys;
      r := Ok(InstallKeys(KeyRequest(ticket, Replay(f), TemporalKey(ptk.value), install, bytes)));
    }

    /** `accept_key_completion`: the digest of the frame that was answered. */
    method AcceptCompletion(request: Pending, installed: bool) returns (r: Result<seq<byte>, Wpa2Error>)
      modifies this
      ensures match RejectedCompletion(old(Value()), request, installed) {
        case Some(rejected) => Value() == rejected.after && r.Err? && rejected.response == Err(r.error)
        case None => r.Ok? && Some(r.value) == old(pendingDigest) &&
                     Value() == old(Value()).(pending := None, pendingDigest := None)
      }
    {
      if pending != Some(request) || pendingDigest.None? {
        r := FailWith(Handshake(Replayed(StaleCompletion)));
        return;
      }
      var digest := pendingDigest.value;
      pendingDigest := None;
      pending := None;
      if !installed {
        r := FailWith(Handshake(InstallFailed));
        return;
      }
      r := Ok(digest);
    }

    method CompleteKeyInstall(request: KeyRequest, installed: bool) returns (r: Result<seq<byte>, Wpa2Error>)
      requires Valid()
      modifies this
      ensures Valid() && Completion(Value(), r) == CompleteKeys(old(Value()), request, installed)
    {
      var digest := AcceptCompletion(Pending(request.ticket, request.replay, false), installed);
      if digest.Err? {
        return Err(digest.error);
      }
      completedReplay := Some(request.replay);
      message3Digest := Some(digest.value);
      phase := Complete;
      r := Ok(request.response);
    }

    method CompleteGroupKeyInstall(request: GroupRequest, installed: bool) returns (r: Result<seq<byte>, Wpa2Error>)
      requires Valid()
      modifies this
      ensures Valid() && Completion(Value(), r) == CompleteGroup(old(Value()), request, installed)
    {
      var digest := AcceptCompletion(Pending(request.ticket, request.replay, true), installed);
      if digest.Err? {
        return Err(digest.error);
      }
      completedReplay := Some(request.replay);
      groupReplay := Some(request.replay);
      groupDigest := Some(digest.value);
      phase := Complete;
      r := Ok(request.response);
    }
  }
}
