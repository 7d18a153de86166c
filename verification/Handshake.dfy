/** The supplicant completes every handshake with a conforming authenticator
    that shares its PMK, and both ends then hold the same keys (src/wpa2.rs). */
module Handshake {
  import opened Bytes
  import opened EapolKey
  import opened KeyMaterial
  import opened KeyWrap
  import opened Supplicant
  import opened SupplicantProof
  import opened Wrappers

  // ------------------------------------------------------- the authenticator

  /** Key data carrying a group key: other elements, the key, padding. */
  datatype Carrier = Carrier(before: seq<Kde>, index: byte, key: seq<byte>, pad: seq<byte>)

  ghost predicate CarrierOk(k: Carrier) {
    && Skipped(k.before) && k.index < 8 && |k.key| == 16
    && |Plain(k)| % 8 == 0 && |Plain(k)| + 8 <= MAX_LEN - 99
  }

  ghost function Plain(k: Carrier): seq<byte>
    requires Skipped(k.before) && |k.key| == 16
  {
    Carrying(k.before, k.index, k.key, k.pad)
  }

  function GroupKeyIn(k: Carrier): Gtk {
    Gtk(k.index % 4, k.key)
  }

  predicate Sendable(version: byte, replay: nat) {
    version in {1, 2} && replay < Pow256(8)
  }

  const INFO1 := DESCRIPTOR_VERSION + PAIRWISE + ACK
  const INFO3 := DESCRIPTOR_VERSION + PAIRWISE + INSTALL + ACK + MIC + SECURE + ENCRYPTED
  const GROUP_INFO := DESCRIPTOR_VERSION + ACK + MIC + SECURE + ENCRYPTED

  function Request1(version: byte, replay: nat, an: seq<byte>): (r: Response)
    ensures r.keyData == [] && r.nonce == an
  {
    Response(version, INFO1, 16, replay, an, [])
  }

  ghost function Request3(c: Crypto, version: byte, replay: nat, an: seq<byte>, ptk: seq<byte>, k: Carrier)
    : (r: Response)
    requires Sound(c) && |ptk| == 48 && CarrierOk(k)
    ensures 99 + |r.keyData| <= MAX_LEN && r.nonce == an
  {
    Response(version, INFO3, 16, replay, an,
             Wrap(Cipher(c, Kek(ptk)), Plain(k)))
  }

  ghost function GroupRequest1(c: Crypto, version: byte, keyLength: nat, replay: nat, ptk: seq<byte>, k: Carrier)
    : (r: Response)
    requires Sound(c) && |ptk| == 48 && CarrierOk(k)
    ensures 99 + |r.keyData| <= MAX_LEN && |r.nonce| == 32
  {
    Response(version, GROUP_INFO, keyLength, replay, Zeros(32),
             Wrap(Cipher(c, Kek(ptk)), Plain(k)))
  }

  /** The pairwise key as the authenticator derives it, its own side first. */
  function AuthenticatorPtk(cfg: Config, an: seq<byte>, sn: seq<byte>): (ptk: seq<byte>)
    requires |cfg.peer| == |cfg.local| && |an| == |sn|
    ensures |ptk| == 48
    ensures ptk == PtkOf(cfg, an, sn)
  {
    PtkIsSymmetric(cfg.crypto, cfg.pmk, cfg.local, cfg.peer, sn, an);
    Ptk(cfg.crypto, cfg.pmk, cfg.local, cfg.peer, sn, an)
  }

  // ------------------------------------------------------------- single steps

  lemma UnsignedParses(r: Response)
    requires r.keyData == [] && Buildable(r) && r.version in {1, 2}
    ensures Parse(Unsigned(r)).Ok?
    ensures var f := Parse(Unsigned(r)).value;
            && f.keyData == [] && f.info == r.info && Version(f) == r.version
            && KeyLength(f) == r.keyLength && Replay(f) == r.replay && Nonce(f) == r.nonce
  {
    hide Head, Unsigned, ToBe, FromBe, Pow256;
    HeadFields(r);
    UnsignedFields(r);
    var u := Unsigned(r);
    assert forall k | 0 <= k < 17 :: u[k] == u[..17][k] == Head(r)[k];
    assert u[9..17] == u[..17][9..17];
  }

  lemma RequestClasses()
    ensures Classify(INFO1) == Pairwise1 && Classify(INFO3) == Pairwise3 && Classify(GROUP_INFO) == Group1
    ensures Flag(INFO3, ENCRYPTED) && Flag(GROUP_INFO, ENCRYPTED)
    ensures INFO1 % 8 == INFO3 % 8 == GROUP_INFO % 8 == DESCRIPTOR_VERSION
  {
  }

  /** A frame with wrapped key data arrives with every field and its key. */
  lemma CarrierArrives(cfg: Config, m: Response, ptk: seq<byte>, k: Carrier)
    requires Configured(cfg) && |ptk| == 48 && CarrierOk(k) && Buildable(m) && m.version in {1, 2}
    requires m.keyData == Wrap(Cipher(cfg.crypto, Kek(ptk)), Plain(k))
    ensures var parsed := Parse(Signed(cfg.crypto, m, Kck(ptk)));
            && parsed.Ok?
            && var f := parsed.value;
            && f.info == m.info && Version(f) == m.version && KeyLength(f) == m.keyLength && Replay(f) == m.replay
            && Nonce(f) == m.nonce && ReceiveSequence(f) == Zeros(8) && VerifyMic(cfg.crypto, f, Kck(ptk))
            && f.keyData != [] && FrameGtk(cfg.crypto, f, ptk) == Ok(GroupKeyIn(k))
  {
    hide Signed, Parse, Replay, Nonce, ReceiveSequence, VerifyMic, FrameGtk, Carrying;
    BuildParses(cfg.crypto, m, Kck(ptk));
    var f := Parse(Signed(cfg.crypto, m, Kck(ptk))).value;
    WrappedGtkArrives(cfg.crypto, f, ptk, k.before, k.index, k.key, k.pad);
  }

  /** A supplicant that waits for Message 1 answers it with a Message 2 that
      verifies under the authenticator's own key. */
  lemma Message1IsAnswered(cfg: Config, s: State, version: byte, replay: nat, an: seq<byte>)
    requires Configured(cfg) && StateOk(cfg, s) && s.phase == AwaitingMessage1
    requires Sendable(version, replay) && |an| == 32 && an != Zeros(32)
    ensures var ptk := AuthenticatorPtk(cfg, an, s.supplicantNonce);
            var answer := Signed(cfg.crypto, Message2(version, 16, replay, s.supplicantNonce, cfg.rsnIe), Kck(ptk));
            var r := OnEapol(cfg, s, cfg.peer, Unsigned(Request1(version, replay, an)));
            && r.result == Ok(Transmit(answer))
            && Parse(answer).Ok? && VerifyMic(cfg.crypto, Parse(answer).value, Kck(ptk))
            && StateOk(cfg, r.state) && r.state.phase == AwaitingMessage3
            && r.state.ptk == Some(ptk) && r.state.message1Replay == Some(replay)
            && r.state.authenticatorNonce == an && r.state.supplicantNonce == s.supplicantNonce
            && r.state.nextTicket == s.nextTicket
  {
    hide Unsigned, Signed, Parse, Replay, Nonce, VerifyMic, PtkOf, Digest, Pow256, AuthenticatorPtk, Classify, Flag;
    var m := Request1(version, replay, an);
    UnsignedParses(m);
    RequestClasses();
    BuildParses(cfg.crypto, Message2(version, 16, replay, s.supplicantNonce, cfg.rsnIe),
                Kck(AuthenticatorPtk(cfg, an, s.supplicantNonce)));
  }

  /** A fresh Message 3 under the shared key requests the installation of the
      authenticator's temporal key and of the group key it wrapped. */
  lemma Message3IsAccepted(cfg: Config, s: State, version: byte, replay: nat, k: Carrier)
    requires Configured(cfg) && StateOk(cfg, s) && s.phase == AwaitingMessage3
    requires Sendable(version, replay) && s.message1Replay.value < replay && CarrierOk(k)
    ensures var ptk := AuthenticatorPtk(cfg, s.authenticatorNonce, s.supplicantNonce);
            var m := Request3(cfg.crypto, version, replay, s.authenticatorNonce, ptk, k);
            var r := OnEapol(cfg, s, cfg.peer, Signed(cfg.crypto, m, Kck(ptk)));
            && r.result == Ok(InstallKeys(KeyRequest(s.nextTicket, replay, TemporalKey(ptk),
                 GroupInstall(GroupKeyIn(k), Zeros(8)),
                 Signed(cfg.crypto, Message4(version, 16, replay), Kck(ptk)))))
            && StateOk(cfg, r.state) && r.state.pending == Some(Pending(s.nextTicket, replay, false))
            && r.state == s.(phase := InstallingKeys, pending := r.state.pending,
                             pendingDigest := r.state.pendingDigest, nextTicket := NextTicket(s.nextTicket))
  {
    hide Signed, Parse, Replay, Nonce, ReceiveSequence, VerifyMic, PtkOf, Digest, Pow256, AuthenticatorPtk, Wrap,
      FrameGtk, Carrying, Classify, Flag;
    var ptk := AuthenticatorPtk(cfg, s.authenticatorNonce, s.supplicantNonce);
    var m := Request3(cfg.crypto, version, replay, s.authenticatorNonce, ptk, k);
    RequestClasses();
    CarrierArrives(cfg, m, ptk, k);
  }

  /** A fresh group Message 1 in a completed handshake requests the new key. */
  lemma GroupMessage1IsAccepted(cfg: Config, s: State, version: byte, keyLength: nat, replay: nat, k: Carrier)
    requires Configured(cfg) && StateOk(cfg, s) && s.phase == Complete && s.pending.None?
    requires Sendable(version, replay) && keyLength < 65536 && s.completedReplay.value < replay && CarrierOk(k)
    ensures var ptk := AuthenticatorPtk(cfg, s.authenticatorNonce, s.supplicantNonce);
            var m := GroupRequest1(cfg.crypto, version, keyLength, replay, ptk, k);
            var r := OnEapol(cfg, s, cfg.peer, Signed(cfg.crypto, m, Kck(ptk)));
            && r.result == Ok(InstallGroupKey(GroupRequest(s.nextTicket, replay, GroupInstall(GroupKeyIn(k), Zeros(8)),
                 Signed(cfg.crypto, GroupMessage2(version, keyLength, replay), Kck(ptk)))))
            && StateOk(cfg, r.state)
            && r.state == s.(pending := Some(Pending(s.nextTicket, replay, true)),
                             pendingDigest := r.state.pendingDigest, nextTicket := NextTicket(s.nextTicket))
  {
    hide Signed, Parse, Replay, Nonce, ReceiveSequence, VerifyMic, PtkOf, Digest, Pow256, AuthenticatorPtk, Wrap,
      FrameGtk, Carrying, Classify, Flag;
    var ptk := AuthenticatorPtk(cfg, s.authenticatorNonce, s.supplicantNonce);
    var m := GroupRequest1(cfg.crypto, version, keyLength, replay, ptk, k);
    RequestClasses();
    CarrierArrives(cfg, m, ptk, k);
  }

  // --------------------------------------------------------- whole handshakes

  lemma ReachableNext(cfg: Config, h: History, e: Event)
    requires Configured(cfg) && Reachable(cfg, h) && Typed(h.s) && EventOk(e)
    ensures Reachable(cfg, Next(cfg, h, e))
  {
    hide Next;
    var nonce, es :| |nonce| == 32 && EventsOk(es) && h == Run(cfg, nonce, es);
    assert (es + [e])[..|es|] == es;
    assert Next(cfg, h, e) == Run(cfg, nonce, es + [e]);
  }

  lemma ReachableTyped(cfg: Config, h: History)
    requires Configured(cfg) && Reachable(cfg, h)
    ensures StateOk(cfg, h.s)
  {
    hide Reachable, StateOk;
    RunInvariant(cfg, h);
  }

  /** The four-way handshake completes from every reachable state that waits
      for Message 1: one installation is requested, of exactly the temporal key
      the authenticator derived and the group key it sent; once it is done the
      handshake is complete, and Message 4 verifies at the authenticator. */
  lemma HandshakeCompletes(cfg: Config, h: History, version: byte, replay1: nat, replay3: nat, an: seq<byte>,
                           k: Carrier)
    returns (h1: History, h2: History, request: KeyRequest, n: History)
    requires Configured(cfg) && Reachable(cfg, h) && h.s.phase == AwaitingMessage1 && |h.s.supplicantNonce| == 32
    requires Sendable(version, replay1) && Sendable(version, replay3) && replay1 < replay3 && CarrierOk(k)
    requires |an| == 32 && an != Zeros(32)
    ensures var c, ptk := cfg.crypto, AuthenticatorPtk(cfg, an, h.s.supplicantNonce);
            var message3 := Signed(c, Request3(c, version, replay3, an, ptk, k), Kck(ptk));
            && Typed(h.s) && Typed(h1.s) && Typed(h2.s)
            && h1 == Next(cfg, h, Input(cfg.peer, Unsigned(Request1(version, replay1, an))))
            && h2 == Next(cfg, h1, Input(cfg.peer, message3))
            && n == Next(cfg, h2, Keys(request, true))
            && request.temporalKey == TemporalKey(ptk) && request.group == GroupInstall(GroupKeyIn(k), Zeros(8))
            && n.installs == h.installs + [Install(true, replay3, message3, an, h.s.supplicantNonce, GroupKeyIn(k),
                                                   TemporalKey(ptk))]
            && CompleteKeys(h2.s, request, true).response == Ok(request.response)
            && Parse(request.response).Ok? && VerifyMic(c, Parse(request.response).value, Kck(ptk))
    ensures Reachable(cfg, n) && n.s.phase == Complete && n.s.pending.None?
    ensures n.s.completedReplay == Some(replay3) && n.s.groupReplay.None?
    ensures n.s.authenticatorNonce == an && n.s.supplicantNonce == h.s.supplicantNonce
  {
    hide Reachable, StateOk, OnEapol, Unsigned, Signed, Parse, VerifyMic, PtkOf, AuthenticatorPtk, Request1, Request3,
      CarrierOk, Pow256;
    ReachableTyped(cfg, h);
    var c, ptk := cfg.crypto, AuthenticatorPtk(cfg, an, h.s.supplicantNonce);
    assert Typed(h.s) by { OkIsTyped(cfg, h.s); }
    Message1IsAnswered(cfg, h.s, version, replay1, an);
    var e1 := Input(cfg.peer, Unsigned(Request1(version, replay1, an)));
    h1 := Next(cfg, h, e1);
    ReachableNext(cfg, h, e1);
    Message3IsAccepted(cfg, h1.s, version, replay3, k);
    var message3 := Signed(c, Request3(c, version, replay3, an, ptk, k), Kck(ptk));
    h2 := Next(cfg, h1, Input(cfg.peer, message3));
    ReachableNext(cfg, h1, Input(cfg.peer, message3));
    request := OnEapol(cfg, h1.s, cfg.peer, message3).result.value.keys;
    assert h2.s.pendingDigest.Some? by { PendingHasDigest(cfg, h2.s); }
    n := Next(cfg, h2, Keys(request, true));
    ReachableNext(cfg, h2, Keys(request, true));
    BuildParses(c, Message4(version, 16, replay3), Kck(ptk));
    assert n.s.groupReplay.None? by { NoGroupYet(cfg, h2.s); }
  }

  lemma OkIsTyped(cfg: Config, s: State)
    requires Configured(cfg) && StateOk(cfg, s)
    ensures Typed(s)
  {
  }

  lemma PendingHasDigest(cfg: Config, s: State)
    requires Configured(cfg) && StateOk(cfg, s) && s.pending.Some?
    ensures s.pendingDigest.Some?
  {
  }

  lemma NoGroupYet(cfg: Config, s: State)
    requires Configured(cfg) && StateOk(cfg, s) && s.phase == InstallingKeys
    ensures s.groupReplay.None?
  {
  }

  /** A group rekey completes from every reachable completed handshake, any
      number of times: exactly the group key that was sent is installed, the
      pairwise key is not, and group Message 2 verifies at the authenticator. */
  lemma RekeyCompletes(cfg: Config, h: History, version: byte, keyLength: nat, replay: nat, k: Carrier)
    returns (h1: History, request: GroupRequest, n: History)
    requires Configured(cfg) && Reachable(cfg, h) && h.s.phase == Complete && h.s.pending.None?
    requires |h.s.authenticatorNonce| == |h.s.supplicantNonce| == 32 && h.s.completedReplay.Some?
    requires Sendable(version, replay) && keyLength < 65536 && h.s.completedReplay.value < replay && CarrierOk(k)
    ensures var c, ptk := cfg.crypto, AuthenticatorPtk(cfg, h.s.authenticatorNonce, h.s.supplicantNonce);
            var message1 := Signed(c, GroupRequest1(c, version, keyLength, replay, ptk, k), Kck(ptk));
            && Typed(h.s) && Typed(h1.s)
            && h1 == Next(cfg, h, Input(cfg.peer, message1))
            && n == Next(cfg, h1, GroupKey(request, true))
            && request.group == GroupInstall(GroupKeyIn(k), Zeros(8))
            && n.installs == h.installs + [Install(false, replay, message1, h.s.authenticatorNonce,
                                                   h.s.supplicantNonce, GroupKeyIn(k), [])]
            && CompleteGroup(h1.s, request, true).response == Ok(request.response)
            && Parse(request.response).Ok? && VerifyMic(c, Parse(request.response).value, Kck(ptk))
    ensures Reachable(cfg, n) && n.s.phase == Complete && n.s.pending.None?
    ensures h1.s.phase == Complete && h1.s.pending.Some?
    ensures n.s.completedReplay == n.s.groupReplay == Some(replay) && n.s.ptk == h.s.ptk
    ensures n.s.authenticatorNonce == h.s.authenticatorNonce && n.s.supplicantNonce == h.s.supplicantNonce
  {
    hide Reachable, StateOk, OnEapol, Unsigned, Signed, Parse, VerifyMic, PtkOf, AuthenticatorPtk, GroupRequest1,
      CarrierOk, Pow256;
    ReachableTyped(cfg, h);
    var c, ptk := cfg.crypto, AuthenticatorPtk(cfg, h.s.authenticatorNonce, h.s.supplicantNonce);
    assert Typed(h.s) by { OkIsTyped(cfg, h.s); }
    GroupMessage1IsAccepted(cfg, h.s, version, keyLength, replay, k);
    var message1 := Signed(c, GroupRequest1(c, version, keyLength, replay, ptk, k), Kck(ptk));
    h1 := Next(cfg, h, Input(cfg.peer, message1));
    ReachableNext(cfg, h, Input(cfg.peer, message1));
    request := OnEapol(cfg, h.s, cfg.peer, message1).result.value.groupKey;
    assert h1.s.pendingDigest.Some? by { PendingHasDigest(cfg, h1.s); }
    n := Next(cfg, h1, GroupKey(request, true));
    ReachableNext(cfg, h1, GroupKey(request, true));
    BuildParses(c, GroupMessage2(version, keyLength, replay), Kck(ptk));
  }
}
