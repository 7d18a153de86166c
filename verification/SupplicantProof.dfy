/** Safety of every run of the WPA2 supplicant (src/wpa2.rs). */
module SupplicantProof {
  import opened Bytes
  import opened EapolKey
  import opened KeyMaterial
  import opened KeyWrap
  import opened Supplicant
  import opened Wrappers

  // --------------------------------------------------------------------- runs

  datatype Event =
    | Input(peer: seq<byte>, bytes: seq<byte>)
    | Keys(keys: KeyRequest, installed: bool)
    | GroupKey(groupKey: GroupRequest, installed: bool)
    | NewNonce(nonce: seq<byte>)

  /** One key installation handed to the driver, with the frame and the nonces
      it came from. */
  datatype Install = Install(
    pairwise: bool, replay: nat, frame: seq<byte>, an: seq<byte>, sn: seq<byte>, gtk: Gtk, temporalKey: seq<byte>)

  /** A state and what led to it: the installations since the last restart, all
      requests ever issued, how many of them had been issued at the last
      failure or restart, and the frames behind the four stored digests. */
  datatype History = History(
    s: State, installs: seq<Install>, requests: seq<Pending>, fence: nat, kept: Kept)

  datatype Kept = Kept(message1: seq<byte>, waiting: seq<byte>, message3: seq<byte>, group: seq<byte>)

  ghost predicate EventOk(e: Event) {
    e.NewNonce? ==> |e.nonce| == 32
  }

  function Begin(nonce: seq<byte>): History {
    History(Initial(nonce), [], [], 0, Kept([], [], [], []))
  }

  ghost function Next(cfg: Config, h: History, e: Event): (n: History)
    requires Configured(cfg) && Typed(h.s) && EventOk(e)
    ensures Typed(n.s)
  {
    match e
    case Input(peer, bytes) => Received(h, bytes, OnEapol(cfg, h.s, peer, bytes))
    case Keys(request, installed) =>
      var c := CompleteKeys(h.s, request, installed);
      if c.response.Ok? then h.(s := c.after, kept := h.kept.(message3 := h.kept.waiting))
      else h.(s := c.after, fence := |h.requests|)
    case GroupKey(request, installed) =>
      var c := CompleteGroup(h.s, request, installed);
      if c.response.Ok? then h.(s := c.after, kept := h.kept.(group := h.kept.waiting))
      else h.(s := c.after, fence := |h.requests|)
    case NewNonce(nonce) =>
      var r := Restart(h.s, nonce);
      if r.1.None? then h.(s := r.0, installs := [], fence := |h.requests|) else h
  }

  ghost function Received(h: History, bytes: seq<byte>, r: Step): (n: History)
    ensures n.s == r.state
  {
    match r.result
    case Ok(InstallKeys(k)) => Issued(h, bytes, r.state, false, k.ticket, k.replay, k.group.gtk, k.temporalKey)
    case Ok(InstallGroupKey(k)) => Issued(h, bytes, r.state, true, k.ticket, k.replay, k.group.gtk, [])
    case Ok(_) =>
      if h.s.phase == AwaitingMessage1 && r.state.phase == AwaitingMessage3
      then h.(s := r.state, kept := h.kept.(message1 := bytes))
      else h.(s := r.state)
    case Err(_) =>
      if r.state.phase == Failed then h.(s := r.state, fence := |h.requests|) else h.(s := r.state)
  }

  function Issued(h: History, bytes: seq<byte>, s: State, group: bool, ticket: nat, replay: nat, gtk: Gtk,
                  temporalKey: seq<byte>): History {
    var install := Install(!group, replay, bytes, h.s.authenticatorNonce, h.s.supplicantNonce, gtk, temporalKey);
    h.(s := s,
       installs := h.installs + [install],
       requests := h.requests + [Pending(ticket, replay, group)],
       kept := h.kept.(waiting := bytes))
  }

  ghost function Run(cfg: Config, nonce: seq<byte>, es: seq<Event>): (h: History)
    requires Configured(cfg) && |nonce| == 32 && forall i | 0 <= i < |es| :: EventOk(es[i])
    ensures Typed(h.s)
  {
    if es == [] then Begin(nonce) else Next(cfg, Run(cfg, nonce, es[..|es| - 1]), es[|es| - 1])
  }

  // ---------------------------------------------------------------- invariant

  predicate NothingLearned(s: State) {
    s.ptk.None? && s.message1Replay.None? && s.completedReplay.None? && s.groupReplay.None? && s.pending.None?
  }

  ghost predicate KeyOk(cfg: Config, s: State)
    requires Configured(cfg) && Typed(s)
  {
    s.ptk == Some(PtkOf(cfg, s.authenticatorNonce, s.supplicantNonce))
  }

  /** Phase, key, replay counters, ticket and digest always agree. */
  ghost predicate StateOk(cfg: Config, s: State)
    requires Configured(cfg)
  {
    && Typed(s)
    && (s.pending.Some? <==> s.pendingDigest.Some?)
    && match s.phase {
      case AwaitingMessage1 => NothingLearned(s)
      case Failed => NothingLearned(s)
      case AwaitingMessage3 =>
        && KeyOk(cfg, s) && s.message1Replay.Some? && s.message1Digest.Some?
        && s.completedReplay.None? && s.groupReplay.None? && s.pending.None?
      case InstallingKeys =>
        && KeyOk(cfg, s) && s.message1Replay.Some?
        && s.completedReplay.None? && s.groupReplay.None?
        && s.pending.Some? && !s.pending.value.group
        && s.message1Replay.value < s.pending.value.replay
      case Complete =>
        && KeyOk(cfg, s) && s.message1Replay.Some?
        && s.completedReplay.Some? && s.message1Replay.value < s.completedReplay.value
        && s.message3Digest.Some?
        && (s.groupReplay.Some? ==> s.groupReplay == s.completedReplay && s.groupDigest.Some?)
        && (s.pending.Some? ==> s.pending.value.group && s.completedReplay.value < s.pending.value.replay)
    }
  }

  function TicketOf(k: nat): nat {
    k % TICKETS + 1
  }

  predicate TicketsOk(h: History) {
    && h.s.nextTicket == TicketOf(|h.requests|)
    && (forall k | 0 <= k < |h.requests| :: h.requests[k].ticket == TicketOf(k))
    && h.fence <= |h.requests|
    && (h.s.pending.Some? ==>
          h.fence < |h.requests| && h.s.pending.value == h.requests[|h.requests| - 1])
  }

  /** The bytes of a frame of one class that passed the header checks. */
  predicate Passed(bytes: seq<byte>, m: Message) {
    && Parse(bytes).Ok?
    && var f := Parse(bytes).value;
    && f.info % 8 == DESCRIPTOR_VERSION && Classify(f.info) == m
    && (IsPairwiseRequest(m) ==> KeyLength(f) == 16)
  }

  /** An installation is taken from an authentic frame. */
  ghost predicate Genuine(cfg: Config, i: Install)
    requires Configured(cfg)
  {
    && |i.an| == |i.sn| == 32
    && Passed(i.frame, if i.pairwise then Pairwise3 else Group1)
    && var f, ptk := Parse(i.frame).value, PtkOf(cfg, i.an, i.sn);
    && Replay(f) == i.replay
    && VerifyMic(cfg.crypto, f, Kck(ptk))
    && FrameGtk(cfg.crypto, f, ptk) == Ok(i.gtk)
    && (i.pairwise ==> Nonce(f) == i.an && i.temporalKey == TemporalKey(ptk))
  }

  /** The replay counter of the newest installation since the restart. */
  function Newest(s: State): nat {
    if s.pending.Some? then s.pending.value.replay
    else if s.completedReplay.Some? then s.completedReplay.value
    else 0
  }

  predicate Increasing(installs: seq<Install>) {
    forall i, j | 0 <= i < j < |installs| :: installs[i].replay < installs[j].replay
  }

  predicate PairwiseFirst(installs: seq<Install>) {
    forall i | 0 <= i < |installs| :: installs[i].pairwise <==> i == 0
  }

  ghost predicate AllGenuine(cfg: Config, installs: seq<Install>)
    requires Configured(cfg)
  {
    forall i | 0 <= i < |installs| :: Genuine(cfg, installs[i])
  }

  predicate SameNonces(s: State, installs: seq<Install>) {
    forall i | 0 <= i < |installs| ::
      installs[i].an == s.authenticatorNonce && installs[i].sn == s.supplicantNonce
  }

  predicate LastIsNewest(h: History) {
    match h.s.phase
    case AwaitingMessage1 => h.installs == []
    case AwaitingMessage3 => h.installs == []
    case Failed => true
    case _ => h.installs != [] && h.installs[|h.installs| - 1].replay == Newest(h.s)
  }

  ghost predicate InstallsOk(cfg: Config, h: History)
    requires Configured(cfg)
  {
    && Increasing(h.installs)
    && PairwiseFirst(h.installs)
    && AllGenuine(cfg, h.installs)
    && (h.s.phase != Failed ==> SameNonces(h.s, h.installs))
    && LastIsNewest(h)
  }

  ghost predicate SignedFrame(cfg: Config, s: State, bytes: seq<byte>, m: Message)
    requires Configured(cfg) && Typed(s)
  {
    && Passed(bytes, m) && s.ptk.Some?
    && VerifyMic(cfg.crypto, Parse(bytes).value, Kck(s.ptk.value))
    && (m == Pairwise3 ==> Nonce(Parse(bytes).value) == s.authenticatorNonce)
  }

  ghost predicate Message1Kept(cfg: Config, h: History)
    requires Configured(cfg)
  {
    h.s.phase != AwaitingMessage1 && h.s.phase != Failed ==>
      && Passed(h.kept.message1, Pairwise1)
      && var f := Parse(h.kept.message1).value;
      && f.keyData == [] && Nonce(f) == h.s.authenticatorNonce && Nonce(f) != Zeros(32)
      && h.s.message1Replay == Some(Replay(f))
      && h.s.message1Digest == Some(Digest(cfg.crypto, f))
  }

  ghost predicate WaitingKept(cfg: Config, h: History)
    requires Configured(cfg) && Typed(h.s)
  {
    h.s.pending.Some? ==>
      && SignedFrame(cfg, h.s, h.kept.waiting, if h.s.pending.value.group then Group1 else Pairwise3)
      && h.s.pending.value.replay == Replay(Parse(h.kept.waiting).value)
      && h.s.pendingDigest == Some(Digest(cfg.crypto, Parse(h.kept.waiting).value))
  }

  ghost predicate Message3Kept(cfg: Config, h: History)
    requires Configured(cfg) && Typed(h.s)
  {
    h.s.phase == Complete ==>
      && SignedFrame(cfg, h.s, h.kept.message3, Pairwise3)
      && h.s.message3Digest == Some(Digest(cfg.crypto, Parse(h.kept.message3).value))
      && h.s.completedReplay.Some?
      && var replay, completed := Replay(Parse(h.kept.message3).value), h.s.completedReplay.value;
      if h.s.groupReplay.None? then replay == completed else replay < completed
  }

  ghost predicate GroupKept(cfg: Config, h: History)
    requires Configured(cfg) && Typed(h.s)
  {
    h.s.groupReplay.Some? ==>
      && SignedFrame(cfg, h.s, h.kept.group, Group1)
      && h.s.groupReplay == Some(Replay(Parse(h.kept.group).value))
      && h.s.groupDigest == Some(Digest(cfg.crypto, Parse(h.kept.group).value))
  }

  /** Which frame of the history each stored digest is that of. */
  predicate FramesKept(h: History) {
    var count := |h.installs|;
    && (h.s.pending.Some? ==> count > 0 && h.installs[count - 1].frame == h.kept.waiting)
    && (h.s.pending.Some? && h.s.pending.value.group ==> count > 1)
    && (h.s.phase == InstallingKeys ==> count == 1)
    && (h.s.phase == Complete ==> count > 0 && h.installs[0].frame == h.kept.message3)
    && (h.s.phase == Complete && h.s.pending.None? ==>
          && (h.s.groupReplay.None? <==> count == 1)
          && (h.s.groupReplay.Some? ==> h.installs[count - 1].frame == h.kept.group))
  }

  ghost predicate KeptOk(cfg: Config, h: History)
    requires Configured(cfg) && Typed(h.s)
  {
    Message1Kept(cfg, h) && WaitingKept(cfg, h) && Message3Kept(cfg, h) && GroupKept(cfg, h)
  }

  ghost predicate Inv(cfg: Config, h: History)
    requires Configured(cfg)
  {
    StateOk(cfg, h.s) && TicketsOk(h) && InstallsOk(cfg, h) && KeptOk(cfg, h) && FramesKept(h)
  }

  // ---------------------------------------------- outcomes of one input frame

  predicate NoInstall(r: Result<Action, Wpa2Error>) {
    r.Ok? ==> r.value.NoAction? || r.value.Transmit?
  }

  predicate Stays(s: State, r: Step) {
    r.state == s && NoInstall(r.result)
  }

  predicate Fails(s: State, r: Step) {
    r.state == FailedState(s) && r.result.Err?
  }

  /** The first Message 1 of a handshake. */
  ghost predicate Begins(cfg: Config, s: State, bytes: seq<byte>, r: Step)
    requires Configured(cfg) && Typed(s)
  {
    && s.phase == AwaitingMessage1 && Passed(bytes, Pairwise1)
    && var f := Parse(bytes).value;
    && f.keyData == [] && Nonce(f) != Zeros(32)
    && r.state == s.(authenticatorNonce := Nonce(f),
                     message1Replay := Some(Replay(f)),
                     message1Digest := Some(Digest(cfg.crypto, f)),
                     ptk := Some(PtkOf(cfg, Nonce(f), s.supplicantNonce)),
                     phase := AwaitingMessage3)
    && r.result.Ok? && r.result.value.Transmit?
  }

  /** The replay counter an installation must exceed. */
  function Floor(s: State, group: bool): nat {
    match if group then s.completedReplay else s.message1Replay
    case Some(replay) => replay
    case None => 0
  }

  /** An authentic frame that starts an installation. */
  ghost predicate Installs(cfg: Config, s: State, bytes: seq<byte>, group: bool, r: Step)
    requires Configured(cfg) && Typed(s)
  {
    && s.pending.None?
    && s.phase == (if group then Complete else AwaitingMessage3)
    && SignedFrame(cfg, s, bytes, if group then Group1 else Pairwise3)
    && var f := Parse(bytes).value;
    && Replay(f) > Floor(s, group)
    && EncryptedKeyData(f)
    && r == BeginInstall(cfg, s, f, group)
    && r.result.Ok?
  }

  ghost predicate Outcome(cfg: Config, s: State, bytes: seq<byte>, r: Step)
    requires Configured(cfg) && Typed(s)
  {
    || Stays(s, r)
    || Fails(s, r)
    || Begins(cfg, s, bytes, r)
    || Installs(cfg, s, bytes, false, r)
    || Installs(cfg, s, bytes, true, r)
  }

  /** The responses always fit, so a reply never turns into an error. */
  lemma ReplyTransmits(cfg: Config, s: State, r: Response)
    requires Configured(cfg) && |r.nonce| == 32 && |r.keyData| <= 256 && s.ptk.Some? && |s.ptk.value| == 48
    ensures Reply(cfg, s, r).state == s
    ensures Reply(cfg, s, r).result.Ok? && Reply(cfg, s, r).result.value.Transmit?
  {
    hide Signed;
  }

  lemma InstallOutcome(cfg: Config, s: State, f: Frame, group: bool)
    requires Configured(cfg) && Typed(s) && WellFormed(f) && s.ptk.Some?
    ensures var r := BeginInstall(cfg, s, f, group);
            r.result.Ok? || Stays(s, r)
  {
    hide FrameGtk, FinalResponse;
  }

  lemma Message1Outcome(cfg: Config, s: State, bytes: seq<byte>)
    requires Configured(cfg) && StateOk(cfg, s) && s.pending.None? && Passed(bytes, Pairwise1)
    ensures Outcome(cfg, s, bytes, OnMessage1(cfg, s, Parse(bytes).value))
  {
    hide Reply, PtkOf, Parse, Replay, Nonce, Installs;
    var f := Parse(bytes).value;
    var r := Message2(Version(f), KeyLength(f), Replay(f), s.supplicantNonce, cfg.rsnIe);
    if s.ptk.Some? {
      ReplyTransmits(cfg, s, r);
    }
    var next := s.(authenticatorNonce := Nonce(f),
                   message1Replay := Some(Replay(f)),
                   message1Digest := Some(Digest(cfg.crypto, f)),
                   ptk := Some(PtkOf(cfg, Nonce(f), s.supplicantNonce)),
                   phase := AwaitingMessage3);
    ReplyTransmits(cfg, next, r);
  }

  lemma Message3Outcome(cfg: Config, s: State, bytes: seq<byte>)
    requires Configured(cfg) && StateOk(cfg, s) && s.pending.None? && Passed(bytes, Pairwise3)
    ensures Outcome(cfg, s, bytes, OnMessage3(cfg, s, Parse(bytes).value))
  {
    hide Reply, PtkOf, Parse, Replay, Nonce, VerifyMic, BeginInstall, Begins;
    var f := Parse(bytes).value;
    if s.ptk.Some? {
      ReplyTransmits(cfg, s, Message4(Version(f), KeyLength(f), Replay(f)));
      InstallOutcome(cfg, s, f, false);
    }
  }

  lemma GroupMessage1Outcome(cfg: Config, s: State, bytes: seq<byte>)
    requires Configured(cfg) && StateOk(cfg, s) && s.pending.None? && Passed(bytes, Group1)
    ensures Outcome(cfg, s, bytes, OnGroupMessage1(cfg, s, Parse(bytes).value))
  {
    hide Reply, PtkOf, Parse, Replay, Nonce, VerifyMic, BeginInstall, Begins;
    var f := Parse(bytes).value;
    if s.ptk.Some? {
      ReplyTransmits(cfg, s, GroupMessage2(Version(f), KeyLength(f), Replay(f)));
      InstallOutcome(cfg, s, f, true);
    }
  }

  /** Every input fails the handshake, leaves it as it is without installing
      anything, begins it, or starts an installation from an authentic frame. */
  lemma InputOutcome(cfg: Config, s: State, peer: seq<byte>, bytes: seq<byte>)
    requires Configured(cfg) && StateOk(cfg, s)
    ensures Outcome(cfg, s, bytes, OnEapol(cfg, s, peer, bytes))
  {
    hide OnMessage1, OnMessage3, OnGroupMessage1, Classify, Parse, Begins, Installs, KeyOk, Replay, KeyLength;
    if Passed(bytes, Pairwise1) && s.pending.None? {
      Message1Outcome(cfg, s, bytes);
    }
    if Passed(bytes, Pairwise3) && s.pending.None? {
      Message3Outcome(cfg, s, bytes);
    }
    if Passed(bytes, Group1) && s.pending.None? {
      GroupMessage1Outcome(cfg, s, bytes);
    }
  }

  // ------------------------------------------------------------- preservation

  /** Moving the fence is harmless while nothing is outstanding. */
  lemma FenceMoves(cfg: Config, h: History)
    requires Configured(cfg) && Inv(cfg, h) && h.s.pending.None?
    ensures Inv(cfg, h.(fence := |h.requests|))
  {
    hide StateOk, Increasing, PairwiseFirst, AllGenuine, SameNonces, SignedFrame, Passed;
  }

  lemma StaysKeeps(cfg: Config, h: History, bytes: seq<byte>, r: Step)
    requires Configured(cfg) && Inv(cfg, h) && Stays(h.s, r)
    ensures Inv(cfg, Received(h, bytes, r))
  {
    hide TicketsOk, InstallsOk, KeptOk, KeyOk;
    if r.result.Err? && h.s.phase == Failed {
      FenceMoves(cfg, h);
    }
  }

  /** A failed handshake remembers nothing but its ticket counter. */
  lemma FailedKeeps(cfg: Config, h: History, n: History)
    requires Configured(cfg) && Inv(cfg, h)
    requires n == h.(s := FailedState(h.s), fence := |h.requests|)
    ensures Inv(cfg, n)
  {
    hide KeyOk, Increasing, PairwiseFirst, AllGenuine, SameNonces, SignedFrame, Passed;
  }

  lemma FailsKeeps(cfg: Config, h: History, bytes: seq<byte>, r: Step)
    requires Configured(cfg) && Inv(cfg, h) && Fails(h.s, r)
    ensures Inv(cfg, Received(h, bytes, r))
  {
    hide Inv;
    FailedKeeps(cfg, h, Received(h, bytes, r));
  }

  lemma BeginsKeeps(cfg: Config, h: History, bytes: seq<byte>, r: Step)
    requires Configured(cfg) && Inv(cfg, h) && Begins(cfg, h.s, bytes, r)
    ensures Inv(cfg, Received(h, bytes, r))
  {
    hide PtkOf, SignedFrame, Increasing, PairwiseFirst, AllGenuine, Passed, Nonce, Replay, Parse;
  }

  /** The history after a successful `BeginInstall`. */
  ghost predicate Extended(cfg: Config, h: History, bytes: seq<byte>, group: bool, i: Install, n: History)
    requires Configured(cfg) && Typed(h.s)
  {
    && SignedFrame(cfg, h.s, bytes, if group then Group1 else Pairwise3)
    && var f := Parse(bytes).value;
    && h.s.pending.None? && h.s.phase == (if group then Complete else AwaitingMessage3)
    && Replay(f) > Floor(h.s, group)
    && i.replay == Replay(f) && i.pairwise == !group && i.frame == bytes && Genuine(cfg, i)
    && i.an == h.s.authenticatorNonce && i.sn == h.s.supplicantNonce
    && n.s == Installing(cfg, h.s, f, group)
    && n.installs == h.installs + [i]
    && n.requests == h.requests + [Pending(h.s.nextTicket, Replay(f), group)]
    && n.fence == h.fence && n.kept == h.kept.(waiting := bytes)
  }

  lemma InstallExtends(cfg: Config, h: History, bytes: seq<byte>, group: bool, r: Step) returns (i: Install)
    requires Configured(cfg) && Inv(cfg, h) && Installs(cfg, h.s, bytes, group, r)
    ensures Extended(cfg, h, bytes, group, i, Received(h, bytes, r))
  {
    hide FrameGtk, FinalResponse, VerifyMic, Parse, Replay, TicketsOk, InstallsOk, KeptOk, PtkOf, Classify;
    var n := Received(h, bytes, r);
    i := n.installs[|h.installs|];
  }

  lemma ExtendedState(cfg: Config, h: History, bytes: seq<byte>, group: bool, i: Install, n: History)
    requires Configured(cfg) && StateOk(cfg, h.s) && Extended(cfg, h, bytes, group, i, n)
    ensures StateOk(cfg, n.s)
  {
    hide VerifyMic, Parse, Replay, PtkOf, Classify, Digest, Genuine;
  }

  lemma TicketSteps(k: nat)
    ensures NextTicket(TicketOf(k)) == TicketOf(k + 1)
  {
  }

  lemma ExtendedTickets(cfg: Config, h: History, bytes: seq<byte>, group: bool, i: Install, n: History)
    requires Configured(cfg) && Typed(h.s) && TicketsOk(h) && Extended(cfg, h, bytes, group, i, n)
    ensures TicketsOk(n)
  {
    hide TicketOf, NextTicket, SignedFrame, Genuine, Replay, Parse, Digest;
    TicketSteps(|h.requests|);
  }

  lemma ExtendedInstalls(cfg: Config, h: History, bytes: seq<byte>, group: bool, i: Install, n: History)
    requires Configured(cfg) && StateOk(cfg, h.s) && InstallsOk(cfg, h) && Extended(cfg, h, bytes, group, i, n)
    ensures InstallsOk(cfg, n)
  {
    hide Genuine, KeyOk, Parse, Replay, SignedFrame, Digest, NextTicket;
  }

  lemma ExtendedKept(cfg: Config, h: History, bytes: seq<byte>, group: bool, i: Install, n: History)
    requires Configured(cfg) && StateOk(cfg, h.s) && KeptOk(cfg, h) && Extended(cfg, h, bytes, group, i, n)
    ensures KeptOk(cfg, n)
  {
    hide KeyOk, Parse, Replay, VerifyMic, Classify, Digest, Genuine, NextTicket;
  }

  lemma ExtendedFrames(cfg: Config, h: History, bytes: seq<byte>, group: bool, i: Install, n: History)
    requires Configured(cfg) && StateOk(cfg, h.s) && LastIsNewest(h) && FramesKept(h)
    requires Extended(cfg, h, bytes, group, i, n)
    ensures FramesKept(n)
  {
    hide KeyOk, Parse, Replay, SignedFrame, Digest, Genuine, NextTicket;
  }

  lemma InstallsKeep(cfg: Config, h: History, bytes: seq<byte>, group: bool, r: Step)
    requires Configured(cfg) && Inv(cfg, h) && Installs(cfg, h.s, bytes, group, r)
    ensures Inv(cfg, Received(h, bytes, r))
  {
    hide Received, Installs, Extended, TicketsOk, KeptOk, FramesKept, Increasing, AllGenuine, SameNonces, LastIsNewest;
    var i := InstallExtends(cfg, h, bytes, group, r);
    var n := Received(h, bytes, r);
    ExtendedState(cfg, h, bytes, group, i, n);
    ExtendedTickets(cfg, h, bytes, group, i, n);
    ExtendedInstalls(cfg, h, bytes, group, i, n);
    ExtendedKept(cfg, h, bytes, group, i, n);
    ExtendedFrames(cfg, h, bytes, group, i, n);
  }

  lemma InputKeeps(cfg: Config, h: History, peer: seq<byte>, bytes: seq<byte>)
    requires Configured(cfg) && Inv(cfg, h)
    ensures Inv(cfg, Received(h, bytes, OnEapol(cfg, h.s, peer, bytes)))
  {
    hide Received, Installs, Begins, Stays, Fails, OnEapol, TicketsOk, InstallsOk, KeptOk;
    var r := OnEapol(cfg, h.s, peer, bytes);
    InputOutcome(cfg, h.s, peer, bytes);
    if Stays(h.s, r) {
      StaysKeeps(cfg, h, bytes, r);
    } else if Fails(h.s, r) {
      FailsKeeps(cfg, h, bytes, r);
    } else if Begins(cfg, h.s, bytes, r) {
      BeginsKeeps(cfg, h, bytes, r);
    } else {
      var group := Installs(cfg, h.s, bytes, true, r);
      InstallsKeep(cfg, h, bytes, group, r);
    }
  }

  /** The history after an accepted completion. */
  predicate Completes(h: History, group: bool, n: History) {
    && h.s.pending.Some? && h.s.pending.value.group == group && h.s.pendingDigest.Some?
    && var replay := Some(h.s.pending.value.replay);
    && n.s == (if group
               then h.s.(phase := Complete, completedReplay := replay, groupReplay := replay,
                         groupDigest := h.s.pendingDigest, pending := None, pendingDigest := None)
               else h.s.(phase := Complete, completedReplay := replay,
                         message3Digest := h.s.pendingDigest, pending := None, pendingDigest := None))
    && n == h.(s := n.s, kept := if group then h.kept.(group := h.kept.waiting)
                                 else h.kept.(message3 := h.kept.waiting))
  }

  lemma CompletesState(cfg: Config, h: History, group: bool, n: History)
    requires Configured(cfg) && StateOk(cfg, h.s) && Completes(h, group, n)
    ensures StateOk(cfg, n.s)
  {
    hide PtkOf;
  }

  lemma CompletesInstalls(cfg: Config, h: History, group: bool, n: History)
    requires Configured(cfg) && StateOk(cfg, h.s) && InstallsOk(cfg, h) && Completes(h, group, n)
    ensures InstallsOk(cfg, n)
  {
    hide PtkOf, AllGenuine, Increasing, PairwiseFirst;
  }

  lemma CompletesKept(cfg: Config, h: History, group: bool, n: History)
    requires Configured(cfg) && StateOk(cfg, h.s) && KeptOk(cfg, h) && Completes(h, group, n)
    ensures KeptOk(cfg, n)
  {
    hide PtkOf, VerifyMic, Parse, Replay, Digest, Passed, Nonce, KeyLength;
  }

  lemma CompletesFrames(cfg: Config, h: History, group: bool, n: History)
    requires Configured(cfg) && StateOk(cfg, h.s) && FramesKept(h) && Completes(h, group, n)
    ensures FramesKept(n)
  {
    hide KeyOk;
  }

  lemma CompletesKeeps(cfg: Config, h: History, group: bool, n: History)
    requires Configured(cfg) && Inv(cfg, h) && Completes(h, group, n)
    ensures Inv(cfg, n)
  {
    hide StateOk, InstallsOk, KeptOk, FramesKept, TicketOf;
    CompletesState(cfg, h, group, n);
    CompletesInstalls(cfg, h, group, n);
    CompletesKept(cfg, h, group, n);
    CompletesFrames(cfg, h, group, n);
  }

  lemma KeysKeep(cfg: Config, h: History, request: KeyRequest, installed: bool)
    requires Configured(cfg) && Inv(cfg, h)
    ensures Inv(cfg, Next(cfg, h, Keys(request, installed)))
  {
    hide KeyOk, InstallsOk, KeptOk, TicketsOk;
    var n := Next(cfg, h, Keys(request, installed));
    if CompleteKeys(h.s, request, installed).response.Err? {
      FailedKeeps(cfg, h, n);
    } else {
      CompletesKeeps(cfg, h, false, n);
    }
  }

  lemma GroupKeyKeeps(cfg: Config, h: History, request: GroupRequest, installed: bool)
    requires Configured(cfg) && Inv(cfg, h)
    ensures Inv(cfg, Next(cfg, h, GroupKey(request, installed)))
  {
    hide KeyOk, InstallsOk, KeptOk, TicketsOk;
    var n := Next(cfg, h, GroupKey(request, installed));
    if CompleteGroup(h.s, request, installed).response.Err? {
      FailedKeeps(cfg, h, n);
    } else {
      CompletesKeeps(cfg, h, true, n);
    }
  }

  lemma RestartKeeps(cfg: Config, h: History, nonce: seq<byte>)
    requires Configured(cfg) && Inv(cfg, h) && |nonce| == 32
    ensures Inv(cfg, Next(cfg, h, NewNonce(nonce)))
  {
    hide PtkOf, SignedFrame, Passed, Genuine, TicketOf;
  }

  lemma StepKeeps(cfg: Config, h: History, e: Event)
    requires Configured(cfg) && Inv(cfg, h) && EventOk(e)
    ensures Inv(cfg, Next(cfg, h, e))
  {
    hide Inv;
    match e
    case Input(peer, bytes) => InputKeeps(cfg, h, peer, bytes);
    case Keys(request, installed) => KeysKeep(cfg, h, request, installed);
    case GroupKey(request, installed) => GroupKeyKeeps(cfg, h, request, installed);
    case NewNonce(nonce) => RestartKeeps(cfg, h, nonce);
  }

  ghost predicate EventsOk(es: seq<Event>) {
    forall i | 0 <= i < |es| :: EventOk(es[i])
  }

  lemma {:induction false} RunKeeps(cfg: Config, nonce: seq<byte>, es: seq<Event>)
    requires Configured(cfg) && |nonce| == 32 && EventsOk(es)
    ensures Inv(cfg, Run(cfg, nonce, es))
    decreases |es|
  {
    if es == [] {
      hide Sound;
    } else {
      hide Inv, Next;
      RunKeeps(cfg, nonce, es[..|es| - 1]);
      StepKeeps(cfg, Run(cfg, nonce, es[..|es| - 1]), es[|es| - 1]);
    }
  }

  // ----------------------------------------------------------------- theorems

  ghost predicate Reachable(cfg: Config, h: History)
    requires Configured(cfg)
  {
    exists nonce, es | |nonce| == 32 && EventsOk(es) :: h == Run(cfg, nonce, es)
  }

  lemma ReachableInv(cfg: Config, h: History)
    requires Configured(cfg) && Reachable(cfg, h)
    ensures Inv(cfg, h)
  {
    hide Inv, Run;
    var nonce, es :| |nonce| == 32 && EventsOk(es) && h == Run(cfg, nonce, es);
    RunKeeps(cfg, nonce, es);
  }

  /** In every reachable state the phase, the key, the replay counters, the
      outstanding ticket and its digest agree: see `StateOk`. */
  lemma RunInvariant(cfg: Config, h: History)
    requires Configured(cfg) && Reachable(cfg, h)
    ensures StateOk(cfg, h.s)
  {
    hide Reachable;
    ReachableInv(cfg, h);
  }

  /** No key reinstallation: between two restarts at most the first
      installation is a pairwise one, replay counters strictly increase over
      all of them, and each comes from a frame whose MIC verified under the key
      derived from the nonces of its handshake, which are the current ones
      until the handshake fails. */
  lemma NoKeyReinstallation(cfg: Config, h: History)
    requires Configured(cfg) && Reachable(cfg, h)
    ensures PairwiseFirst(h.installs) && Increasing(h.installs) && AllGenuine(cfg, h.installs)
    ensures h.s.phase != Failed ==> SameNonces(h.s, h.installs)
  {
    hide Reachable;
    ReachableInv(cfg, h);
  }

  /** A frame that led to an installation never leads to another one before
      the next restart, whatever happened in between. */
  lemma NeverInstalledTwice(cfg: Config, h: History, peer: seq<byte>, k: nat)
    requires Configured(cfg) && Reachable(cfg, h) && k < |h.installs|
    ensures Typed(h.s) && NoInstall(OnEapol(cfg, h.s, peer, h.installs[k].frame).result)
  {
    hide Reachable, OnEapol, KeyOk, InstallsOk, KeptOk, TicketsOk;
    ReachableInv(cfg, h);
    var bytes := h.installs[k].frame;
    var r := OnEapol(cfg, h.s, peer, bytes);
    InputKeeps(cfg, h, peer, bytes);
    if !NoInstall(r.result) {
      FramesDiffer(cfg, Received(h, bytes, r), k, |h.installs|);
    }
  }

  lemma FramesDiffer(cfg: Config, h: History, j: nat, k: nat)
    requires Configured(cfg) && InstallsOk(cfg, h) && j < k < |h.installs|
    ensures h.installs[j].frame != h.installs[k].frame
  {
    hide LastIsNewest, SameNonces, PairwiseFirst, VerifyMic, FrameGtk, Parse, Replay, PtkOf;
    assert Genuine(cfg, h.installs[j]) && Genuine(cfg, h.installs[k]);
  }

  // ---------------------------------------------------------- retransmissions

  /** While an installation is outstanding, its frame again does nothing. */
  lemma PendingFrameRepeated(cfg: Config, h: History)
    requires Configured(cfg) && Inv(cfg, h) && h.s.pending.Some?
    ensures OnEapol(cfg, h.s, cfg.peer, h.kept.waiting) == Step(h.s, Ok(NoAction))
  {
    hide Parse, Replay, VerifyMic, Classify, Digest, InstallsOk, TicketsOk, PtkOf, KeyLength, OnMessage1, OnMessage3,
      OnGroupMessage1, Message3Kept, Message1Kept, GroupKept, StateOk;
  }

  /** Message 1 again is answered by Message 2 again. */
  lemma Message1Repeated(cfg: Config, h: History)
    requires Configured(cfg) && Inv(cfg, h) && h.s.phase == AwaitingMessage3
    ensures var f := Parse(h.kept.message1).value;
            OnEapol(cfg, h.s, cfg.peer, h.kept.message1) ==
            Step(h.s, Ok(Transmit(Signed(cfg.crypto,
              Message2(Version(f), KeyLength(f), Replay(f), h.s.supplicantNonce, cfg.rsnIe),
              Kck(PtkOf(cfg, h.s.authenticatorNonce, h.s.supplicantNonce))))))
  {
    hide Parse, Replay, Nonce, VerifyMic, Classify, Digest, InstallsOk, TicketsOk, PtkOf, KeyLength, OnMessage3,
      OnGroupMessage1, Message3Kept, WaitingKept, GroupKept, Signed;
  }

  /** Message 3 again, with nothing outstanding and before any group rekey, is
      answered by Message 4 again. */
  lemma Message3Repeated(cfg: Config, h: History)
    requires Configured(cfg) && Inv(cfg, h) && h.s.phase == Complete && h.s.pending.None? && h.s.groupReplay.None?
    ensures var f := Parse(h.kept.message3).value;
            OnEapol(cfg, h.s, cfg.peer, h.kept.message3) ==
            Step(h.s, Ok(Transmit(Signed(cfg.crypto, Message4(Version(f), KeyLength(f), Replay(f)),
              Kck(PtkOf(cfg, h.s.authenticatorNonce, h.s.supplicantNonce))))))
  {
    hide Parse, Replay, Nonce, VerifyMic, Classify, Digest, InstallsOk, TicketsOk, PtkOf, KeyLength, OnMessage1,
      OnGroupMessage1, Message1Kept, WaitingKept, GroupKept, Signed;
  }

  /** With nothing outstanding and after a group rekey the same Message 3 is
      fatal: its replay counter is stale by then. */
  lemma Message3RepeatedAfterRekey(cfg: Config, h: History)
    requires Configured(cfg) && Inv(cfg, h) && h.s.phase == Complete && h.s.pending.None? && h.s.groupReplay.Some?
    ensures OnEapol(cfg, h.s, cfg.peer, h.kept.message3) == FailReplay(h.s, StaleReplayCounter)
  {
    hide Parse, Replay, Nonce, VerifyMic, Classify, Digest, InstallsOk, TicketsOk, PtkOf, KeyLength, OnMessage1,
      OnGroupMessage1, Message1Kept, WaitingKept, GroupKept, Signed;
  }

  /** The last group Message 1 again is answered by group Message 2 again. */
  lemma GroupMessage1Repeated(cfg: Config, h: History)
    requires Configured(cfg) && Inv(cfg, h) && h.s.groupReplay.Some? && h.s.pending.None?
    ensures var f := Parse(h.kept.group).value;
            OnEapol(cfg, h.s, cfg.peer, h.kept.group) ==
            Step(h.s, Ok(Transmit(Signed(cfg.crypto, GroupMessage2(Version(f), KeyLength(f), Replay(f)),
              Kck(PtkOf(cfg, h.s.authenticatorNonce, h.s.supplicantNonce))))))
  {
    hide Parse, Replay, Nonce, VerifyMic, Classify, Digest, InstallsOk, TicketsOk, PtkOf, KeyLength, OnMessage1,
      OnMessage3, Message1Kept, WaitingKept, Message3Kept, Signed;
  }

  // ------------------------------------------------------------------ tickets

  lemma TicketPeriod(j: nat, k: nat)
    requires j <= k < j + TICKETS && TicketOf(j) == TicketOf(k)
    ensures j == k
  {
    assert j == TICKETS * (j / TICKETS) + j % TICKETS;
    assert k == TICKETS * (k / TICKETS) + k % TICKETS;
  }

  /** Only the outstanding request completes. With fewer than 2^32 - 1 requests
      issued since, a request is accepted only if it is the newest one and was
      issued after the last failure or restart. */
  lemma OnlyOutstandingCompletes(cfg: Config, h: History, k: nat)
    requires Configured(cfg) && Reachable(cfg, h) && k < |h.requests| <= k + TICKETS
    requires h.s.pending == Some(h.requests[k])
    ensures k == |h.requests| - 1 && h.fence <= k
  {
    hide Reachable, StateOk, InstallsOk, KeptOk, TicketOf;
    ReachableInv(cfg, h);
    assert h.requests[k].ticket == h.requests[|h.requests| - 1].ticket;
    TicketPeriod(k, |h.requests| - 1);
  }

  /** A request issued before a failure or restart is refused as stale, and
      presenting it fails the handshake. */
  lemma StaleRequestRefused(cfg: Config, h: History, request: KeyRequest, installed: bool, k: nat)
    requires Configured(cfg) && Reachable(cfg, h)
    requires k < h.fence && k < |h.requests| <= k + TICKETS
    requires h.requests[k] == Pending(request.ticket, request.replay, false)
    ensures Typed(h.s)
    ensures CompleteKeys(h.s, request, installed) ==
            Completion(FailedState(h.s), Err(Handshake(Replayed(StaleCompletion))))
  {
    hide Reachable, InstallsOk, KeptOk, TicketsOk;
    ReachableInv(cfg, h);
    if h.s.pending == Some(h.requests[k]) {
      OnlyOutstandingCompletes(cfg, h, k);
    }
  }

  lemma StaleGroupRequestRefused(cfg: Config, h: History, request: GroupRequest, installed: bool, k: nat)
    requires Configured(cfg) && Reachable(cfg, h)
    requires k < h.fence && k < |h.requests| <= k + TICKETS
    requires h.requests[k] == Pending(request.ticket, request.replay, true)
    ensures Typed(h.s)
    ensures CompleteGroup(h.s, request, installed) ==
            Completion(FailedState(h.s), Err(Handshake(Replayed(StaleCompletion))))
  {
    hide Reachable, InstallsOk, KeptOk, TicketsOk;
    ReachableInv(cfg, h);
    if h.s.pending == Some(h.requests[k]) {
      OnlyOutstandingCompletes(cfg, h, k);
    }
  }
}
