/** What an exact retransmission does in every state of the WPA2 supplicant
    (src/wpa2.rs): when it is answered, when it is refused without harm, and
    when it is fatal. */
module Retransmission {
  import opened Bytes
  import opened EapolKey
  import Handshake
  import opened KeyMaterial
  import opened Supplicant
  import opened SupplicantProof
  import opened Wrappers

  /** The frames of the installations since the restart all passed the header
      checks, and their replay counters grow up to the newest one. */
  lemma InstallFrame(cfg: Config, h: History, k: nat)
    requires Configured(cfg) && Inv(cfg, h) && h.s.phase != Failed && k < |h.installs|
    ensures h.s.phase == InstallingKeys || h.s.phase == Complete
    ensures Passed(h.installs[k].frame, if k == 0 then Pairwise3 else Group1)
    ensures var f := Parse(h.installs[k].frame).value;
            && h.s.ptk.Some? && VerifyMic(cfg.crypto, f, Kck(h.s.ptk.value))
            && (k == 0 ==> Nonce(f) == h.s.authenticatorNonce)
            && if k == |h.installs| - 1 then Replay(f) == Newest(h.s) else Replay(f) < Newest(h.s)
  {
    hide Parse, Replay, VerifyMic, Passed, KeptOk, TicketsOk, FramesKept, PtkOf, FrameGtk, Nonce, TemporalKey;
    assert Genuine(cfg, h.installs[k]);
    assert h.installs[|h.installs| - 1].replay == Newest(h.s);
  }

  /** While an installation is outstanding every frame of another installation
      is refused as busy. */
  lemma OlderWhilePending(cfg: Config, h: History, k: nat)
    requires Configured(cfg) && Inv(cfg, h) && h.s.pending.Some? && k < |h.installs| - 1
    ensures OnEapol(cfg, h.s, cfg.peer, h.installs[k].frame) == Step(h.s, Err(Handshake(Replayed(Busy))))
  {
    hide Parse, Replay, VerifyMic, Classify, Digest, StateOk, InstallsOk, KeptOk, TicketsOk, OnMessage1, OnMessage3,
      OnGroupMessage1, KeyLength, FramesKept;
    assert h.s.phase != Failed by { PendingIsLive(cfg, h.s); }
    InstallFrame(cfg, h, k);
  }

  lemma PendingIsLive(cfg: Config, s: State)
    requires Configured(cfg) && StateOk(cfg, s) && s.pending.Some?
    ensures s.phase != Failed
  {
  }

  /** With nothing outstanding, a frame of an installation before the newest one
      is a stale replay. */
  lemma OlderAfterwards(cfg: Config, h: History, k: nat)
    requires Configured(cfg) && Inv(cfg, h) && h.s.phase == Complete && h.s.pending.None? && k < |h.installs| - 1
    ensures OnEapol(cfg, h.s, cfg.peer, h.installs[k].frame) == FailReplay(h.s, StaleReplayCounter)
  {
    hide Parse, Replay, VerifyMic, Classify, Digest, InstallsOk, KeptOk, TicketsOk, OnMessage1, KeyLength, FramesKept,
      PtkOf, Nonce;
    InstallFrame(cfg, h, k);
  }

  /** The frame of the newest installation is the one the supplicant kept. */
  lemma NewestAnswered(cfg: Config, h: History)
    requires Configured(cfg) && Inv(cfg, h) && h.s.phase != Failed && h.installs != []
    ensures var r := OnEapol(cfg, h.s, cfg.peer, h.installs[|h.installs| - 1].frame);
            && r.state == h.s && r.result.Ok?
            && if h.s.pending.Some? then r.result.value == NoAction else r.result.value.Transmit?
  {
    hide OnEapol, Parse, StateOk, TicketsOk, KeptOk, Signed, PtkOf, InstallsOk, Replay, VerifyMic;
    InstallFrame(cfg, h, |h.installs| - 1);
    if h.s.pending.Some? {
      PendingFrameRepeated(cfg, h);
    } else {
      assert h.s.phase == Complete by { LiveIsComplete(cfg, h.s); }
      if h.s.groupReplay.None? {
        Message3Repeated(cfg, h);
      } else {
        GroupMessage1Repeated(cfg, h);
      }
    }
  }

  lemma LiveIsComplete(cfg: Config, s: State)
    requires Configured(cfg) && StateOk(cfg, s) && s.pending.None?
    ensures s.phase != InstallingKeys
  {
  }

  lemma LiveFacts(cfg: Config, h: History)
    requires Configured(cfg) && Inv(cfg, h) && h.s.phase != Failed && h.installs != []
    ensures Typed(h.s) && (h.s.pending.None? ==> h.s.phase == Complete)
  {
    hide InstallsOk, KeptOk, TicketsOk, FramesKept, KeyOk;
    InstallFrame(cfg, h, 0);
  }

  /** Every installation's frame again, in every reachable live state: it is
      answered exactly if no later installation was requested; an older one is
      refused as busy, without harm, exactly while an installation is
      outstanding, and otherwise fatal. */
  lemma InstallFrameAgain(cfg: Config, h: History, k: nat)
    requires Configured(cfg) && Reachable(cfg, h) && h.s.phase != Failed && k < |h.installs|
    ensures Typed(h.s)
    ensures var r := OnEapol(cfg, h.s, cfg.peer, h.installs[k].frame);
            && NoInstall(r.result)
            && (r.result.Ok? <==> k == |h.installs| - 1)
            && (r.state.phase == Failed <==> h.s.pending.None? && k < |h.installs| - 1)
            && (r.state.phase != Failed ==> r.state == h.s)
            && (r.result.Err? ==>
                  r.result.error == Handshake(Replayed(if h.s.pending.Some? then Busy else StaleReplayCounter)))
  {
    hide Reachable, Inv, OnEapol;
    ReachableInv(cfg, h);
    LiveFacts(cfg, h);
    if k == |h.installs| - 1 {
      NewestAnswered(cfg, h);
    } else if h.s.pending.Some? {
      OlderWhilePending(cfg, h, k);
    } else {
      OlderAfterwards(cfg, h, k);
    }
  }

  lemma FirstIsMessage3(cfg: Config, h: History)
    requires Configured(cfg) && Inv(cfg, h) && h.s.phase == Complete
    ensures h.installs != [] && h.installs[0].frame == h.kept.message3
    ensures |h.installs| == 1 <==> h.s.pending.None? && h.s.groupReplay.None?
  {
    hide InstallsOk, KeptOk, TicketsOk, KeyOk;
  }

  /** Message 3 again, once its keys are installed: it is answered if and only
      if nothing is outstanding and no group rekey has completed, and the
      handshake fails if and only if nothing is outstanding and one has. While
      a group installation is outstanding it is refused as busy. */
  lemma Message3Again(cfg: Config, h: History)
    requires Configured(cfg) && Reachable(cfg, h) && h.s.phase == Complete
    ensures Typed(h.s)
    ensures var r := OnEapol(cfg, h.s, cfg.peer, h.kept.message3);
            && (r.result.Ok? <==> h.s.pending.None? && h.s.groupReplay.None?)
            && (r.state.phase == Failed <==> h.s.pending.None? && h.s.groupReplay.Some?)
            && (r.state == h.s <==> h.s.pending.Some? || h.s.groupReplay.None?)
            && (h.s.pending.Some? ==> r.result == Err(Handshake(Replayed(Busy))))
  {
    hide Reachable, Inv, OnEapol;
    ReachableInv(cfg, h);
    FirstIsMessage3(cfg, h);
    InstallFrameAgain(cfg, h, 0);
  }

  /** Message 1 again never changes the handshake it began. It is answered if
      and only if Message 3 has not arrived; later it is refused as busy while
      an installation is outstanding, and as needing a new nonce otherwise. */
  lemma Message1Again(cfg: Config, h: History)
    requires Configured(cfg) && Reachable(cfg, h) && h.s.phase != AwaitingMessage1 && h.s.phase != Failed
    ensures Typed(h.s)
    ensures var r := OnEapol(cfg, h.s, cfg.peer, h.kept.message1);
            && r.state == h.s
            && (r.result.Ok? <==> h.s.phase == AwaitingMessage3)
            && (h.s.phase != AwaitingMessage3 ==>
                  r.result == Err(Handshake(Replayed(if h.s.pending.Some? then Busy
                                                     else NewPairwiseHandshakeRequiresNonce))))
  {
    hide Reachable, Parse, Replay, Nonce, VerifyMic, Classify, Digest, InstallsOk, TicketsOk, PtkOf, KeyLength,
      OnMessage3, OnGroupMessage1, Message3Kept, WaitingKept, GroupKept, FramesKept, Signed;
    ReachableInv(cfg, h);
    if h.s.phase == AwaitingMessage3 {
      Message1Repeated(cfg, h);
    }
  }

  /** The failing input, for every handshake and every conforming rekey: once
      the group key is requested the Message 3 that was answered before is
      refused, and once it is installed the same frame is fatal. */
  lemma RekeyMakesMessage3Fatal(cfg: Config, h: History, version: byte, keyLength: nat, replay: nat,
                                k: Handshake.Carrier)
    returns (h1: History, n: History)
    requires Configured(cfg) && Reachable(cfg, h) && h.s.phase == Complete && h.s.pending.None?
    requires h.s.groupReplay.None?
    requires |h.s.authenticatorNonce| == |h.s.supplicantNonce| == 32 && h.s.completedReplay.Some?
    requires Handshake.Sendable(version, replay) && keyLength < 65536 && h.s.completedReplay.value < replay
    requires Handshake.CarrierOk(k)
    ensures Reachable(cfg, h1) && Reachable(cfg, n) && Typed(h.s) && Typed(h1.s) && Typed(n.s)
    ensures h1.kept.message3 == n.kept.message3 == h.kept.message3
    ensures OnEapol(cfg, h.s, cfg.peer, h.kept.message3).result.Ok?
    ensures OnEapol(cfg, h1.s, cfg.peer, h.kept.message3) == Step(h1.s, Err(Handshake(Replayed(Busy))))
    ensures OnEapol(cfg, n.s, cfg.peer, h.kept.message3).state.phase == Failed
  {
    hide Reachable, Inv, OnEapol, Handshake.CarrierOk, Handshake.GroupRequest1, Signed, VerifyMic;
    var request;
    h1, request, n := Handshake.RekeyCompletes(cfg, h, version, keyLength, replay, k);
    var ptk := Handshake.AuthenticatorPtk(cfg, h.s.authenticatorNonce, h.s.supplicantNonce);
    var message1 := Signed(cfg.crypto, Handshake.GroupRequest1(cfg.crypto, version, keyLength, replay, ptk, k),
                           Kck(ptk));
    Handshake.ReachableNext(cfg, h, Input(cfg.peer, message1));
    Message3Again(cfg, h);
    Message3Again(cfg, h1);
    Message3Again(cfg, n);
  }
}
