/** The network queue does carry frames: for every frame there is a run that
    delivers it, in each direction. */
module NetworkQueueProgress {
  import opened Bytes
  import opened Wrappers
  import opened NetworkQueue
  import NetworkQueueProof
  import NetworkQueuePush

  lemma {:induction false} RunAppends(s: State, schedule: seq<(nat, Choice)>, a: nat, c: Choice)
    ensures Run(s, schedule + [(a, c)]) == Exec(Run(s, schedule), a, c)
    decreases |schedule|
  {
    if schedule == [] {
      assert Run(Exec(s, a, c), []) == Exec(s, a, c);
      assert (schedule + [(a, c)])[1..] == [];
    } else {
      assert (schedule + [(a, c)])[1..] == schedule[1..] + [(a, c)];
      RunAppends(Exec(s, schedule[0].0, schedule[0].1), schedule[1..], a, c);
    }
  }

  /** A reached state, the memory in it, and the agent that runs. */
  datatype Reached = Reached(schedule: seq<(nat, Choice)>, s: State)

  ghost predicate Reaches(s0: State, r: Reached) {
    Run(s0, r.schedule) == r.s
  }

  /** One more step of agent `a`, which is in condition `g`. */
  lemma Step(s0: State, r: Reached, a: nat, g: Agent, c: Choice) returns (t: Reached, m: Mem, h: Agent)
    requires Reaches(s0, r) && Get(r.s, a) == g && !g.at.BothTokens?
    ensures Reaches(s0, t) && Get(t.s, a) == h && t.s.mem == m
    ensures (m, h) == (Record(StepLocal(r.s.mem, a, g, c).0), StepLocal(r.s.mem, a, g, c).1)
    ensures t.s.pushes == r.s.pushes + Settled(r.s.mem, g, c)
    ensures forall b | b != a :: Get(t.s, b) == Get(r.s, b)
  {
    RunAppends(s0, r.schedule, a, c);
    t := Reached(r.schedule + [(a, c)], Exec(r.s, a, c));
    m, h := t.s.mem, Get(t.s, a);
  }

  /** The link and both slots, without the logs. */
  predicate Quiescent(m: Mem, size: nat) {
    && m.size == size && m.link == Link(true, 1) && |m.history| > 0
    && m.rx.state == Free && m.tx.state == Free && |m.rx.buf| == size && |m.tx.buf| == size
  }

  lemma LinkUp(size: nat) returns (r: Reached)
    ensures Reaches(Init(size), r) && Quiescent(r.s.mem, size)
    ensures r.s.mem.deliveries == [] && r.s.mem.readings == [] && r.s.mem.finals == [] && r.s.mem.published == []
    ensures r.s.mem.accepted == []
    ensures forall a | a != 0 :: Get(r.s, a) == IDLE
  {
    var s0 := Init(size);
    r := Reached([], s0);
    var m, g;
    r, m, g := Step(s0, r, 0, IDLE, SetLink(true));
    r, m, g := Step(s0, r, 0, g, Go);
    r, m, g := Step(s0, r, 0, g, Go);
    r, m, g := Step(s0, r, 0, g, Go);
    r, m, g := Step(s0, r, 0, g, Go);
  }

  /** `active_epoch` succeeds at once. */
  lemma Epoch(s0: State, r: Reached, a: nat, g: Agent) returns (t: Reached, m: Mem, h: Agent)
    requires Reaches(s0, r) && Get(r.s, a) == g && g.at.Reading? && g.at.reading.EpochFirst?
    requires r.s.mem.link == Link(true, 1)
    ensures Reaches(s0, t) && Get(t.s, a) == h && t.s.mem == m && m == r.s.mem.(history := m.history)
    ensures |m.history| > 0 && h == AfterEpoch(m.(history := m.history[..|m.history| - 1]), g.(e := 1), g.at.reading.op)
    ensures forall b | b != a :: Get(t.s, b) == Get(r.s, b)
  {
    t, m, h := Step(s0, r, a, g, Go);
    t, m, h := Step(s0, t, a, h, Go);
    t, m, h := Step(s0, t, a, h, Go);
    assert m.history[..|m.history| - 1] + [m.link] == m.history;
  }

  /** Two memories that differ in the link history only. */
  predicate SameButHistory(m: Mem, n: Mem) {
    n == m.(history := n.history) && |n.history| > 0
  }

  /** `epoch_is_active` says yes while nobody touches the link. */
  lemma Checked(s0: State, r: Reached, a: nat, g: Agent) returns (t: Reached, m: Mem, h: Agent, inner: Agent)
    requires Reaches(s0, r) && Get(r.s, a) == g && g.at.CheckUp? && g.e == 1
    requires r.s.mem.link == Link(true, 1) && |r.s.mem.history| > 0
    ensures Reaches(s0, t) && Get(t.s, a) == h && t.s.mem == m && SameButHistory(r.s.mem, m)
    ensures inner == g.(at := CheckEpoch(g.at.k), seen := inner.seen)
    ensures exists n :: SameButHistory(m, n) && h == Active(n, inner, g.at.k)
    ensures forall b | b != a :: Get(t.s, b) == Get(r.s, b)
  {
    t, m, inner := Step(s0, r, a, g, Go);
    var n := m;
    t, m, h := Step(s0, t, a, inner, Go);
    assert SameButHistory(m, n) && h == Active(n, inner, g.at.k);
  }

  /** The RX slot holds a frame of epoch 1, the TX slot is free. */
  predicate Loaded(m: Mem, size: nat, frame: seq<byte>) {
    && m.size == size && m.link == Link(true, 1) && |m.history| > 0
    && m.rx.state == Ready && m.rx.epoch == 1 && m.rx.len == |frame| <= |m.rx.buf| == size
    && m.rx.buf[..|frame|] == frame && m.tx.state == Free && |m.tx.buf| == size
  }

  predicate SameLogs(m: Mem, n: Mem) {
    m.deliveries == n.deliveries && m.accepted == n.accepted
  }

  /** Agent 1 has stored its frame and is about to look at the link again. */
  predicate Stored(r: Reached, t: Reached) {
    && Get(t.s, 1).at == CheckUp(PushRecheck)
    && t.s.mem.deliveries == r.s.mem.deliveries && |t.s.mem.accepted| == |r.s.mem.accepted| + 1
  }

  lemma PushClaims(s0: State, r: Reached, size: nat, frame: seq<byte>) returns (t: Reached, g: Agent)
    requires Reaches(s0, r) && Quiescent(r.s.mem, size) && Get(r.s, 1) == IDLE && |frame| <= size
    ensures Reaches(s0, t) && Get(t.s, 1) == g && g.at == PushCopy && g.n == 0 && g.e == 1 && g.bytes == frame
    ensures var m := t.s.mem;
            && m.size == size && m.link == Link(true, 1) && |m.history| > 0 && m.tx.state == Free
            && |m.rx.buf| == |m.tx.buf| == size && SameLogs(m, r.s.mem)
    ensures forall b | b != 1 :: Get(t.s, b) == Get(r.s, b)
  {
    var m, inner;
    t, m, g := Step(s0, r, 1, IDLE, Push(frame));
    t, m, g := Epoch(s0, t, 1, g);
    t, m, g := Step(s0, t, 1, g, Go);
    t, m, g, inner := Checked(s0, t, 1, g);
  }

  lemma PushFills(s0: State, r: Reached, size: nat, frame: seq<byte>, g0: Agent) returns (t: Reached)
    requires Reaches(s0, r) && Get(r.s, 1) == g0 && g0.at == PushCopy && g0.n == 0 && g0.e == 1 && g0.bytes == frame
    requires var m := r.s.mem;
             && m.size == size && m.link == Link(true, 1) && |m.history| > 0 && m.tx.state == Free
             && |m.rx.buf| == |m.tx.buf| == size && |frame| <= size
    ensures Reaches(s0, t) && Loaded(t.s.mem, size, frame) && Stored(r, t)
    ensures forall b | b != 1 :: Get(t.s, b) == Get(r.s, b)
  {
    t := r;
    var g, m := g0, r.s.mem;
    while g.n < |frame|
      invariant Reaches(s0, t) && Get(t.s, 1) == g && t.s.mem == m
      invariant m == r.s.mem.(history := m.history, rx := r.s.mem.rx.(buf := m.rx.buf))
      invariant |m.history| > 0 && |m.rx.buf| == size
      invariant g == g0.(n := g.n) && g.n <= |frame| && m.rx.buf[..g.n] == frame[..g.n]
      invariant forall b | b != 1 :: Get(t.s, b) == Get(r.s, b)
      decreases |frame| - g.n
    {
      var before := m.rx.buf;
      var n := g.n;
      t, m, g := Step(s0, t, 1, g, Go);
      assert m.rx.buf == before[n := frame[n]];
      assert m.rx.buf[..n + 1] == before[..n] + [frame[n]] && frame[..n + 1] == frame[..n] + [frame[n]];
    }
    assert frame[..|frame|] == frame;
    t := PushFinishes(s0, t, size, frame, g);
  }

  lemma PushFinishes(s0: State, r: Reached, size: nat, frame: seq<byte>, g0: Agent) returns (t: Reached)
    requires Reaches(s0, r) && Get(r.s, 1) == g0 && g0.at == PushCopy && g0.e == 1 && g0.bytes == frame
    requires g0.n == |frame| <= size
    requires var m := r.s.mem;
             && m.size == size && m.link == Link(true, 1) && |m.history| > 0 && m.tx.state == Free
             && |m.rx.buf| == |m.tx.buf| == size && m.rx.buf[..|frame|] == frame
    ensures Reaches(s0, t) && Loaded(t.s.mem, size, frame) && Stored(r, t)
    ensures forall b | b != 1 :: Get(t.s, b) == Get(r.s, b)
  {
    var m, g;
    t, m, g := Step(s0, r, 1, g0, Go);
    t, m, g := Step(s0, t, 1, g, Go);
    t := PushStamps(s0, t, size, frame, g);
  }

  lemma PushStamps(s0: State, r: Reached, size: nat, frame: seq<byte>, g0: Agent) returns (t: Reached)
    requires Reaches(s0, r) && Get(r.s, 1) == g0 && g0.at == Filling(PushLen) && g0.e == 1 && g0.bytes == frame
    requires var m := r.s.mem;
             && m.size == size && m.link == Link(true, 1) && |m.history| > 0 && m.tx.state == Free
             && m.rx.epoch == 1 && |frame| <= |m.rx.buf| == |m.tx.buf| == size && m.rx.buf[..|frame|] == frame
    ensures Reaches(s0, t) && Loaded(t.s.mem, size, frame) && Stored(r, t)
    ensures forall b | b != 1 :: Get(t.s, b) == Get(r.s, b)
  {
    var m, g;
    t, m, g := Step(s0, r, 1, g0, Go);
    t, m, g := Step(s0, t, 1, g, Go);
  }

  /** Only agent 2 has stepped. */
  predicate OthersSame(r: Reached, t: Reached) {
    Get(t.s, 1) == Get(r.s, 1) && Get(t.s, 3) == Get(r.s, 3) && Get(t.s, 4) == Get(r.s, 4)
  }

  /** The RX slot is held with its frame in it. */
  predicate Held(m: Mem, size: nat, frame: seq<byte>) {
    Loaded(m.(rx := m.rx.(state := Ready)), size, frame)
  }

  lemma ReceiveStarts(s0: State, r: Reached, size: nat, frame: seq<byte>) returns (t: Reached, g: Agent)
    requires Reaches(s0, r) && Loaded(r.s.mem, size, frame) && Get(r.s, 2) == IDLE
    ensures Reaches(s0, t) && Get(t.s, 2) == g && g.at == Claiming(ClaimState) && g.e == 1
    ensures Loaded(t.s.mem, size, frame) && SameLogs(t.s.mem, r.s.mem)
    ensures OthersSame(r, t)
  {
    var m, inner;
    t, m, g := Step(s0, r, 2, IDLE, Receive);
    t, m, g := Epoch(s0, t, 2, g);
    t, m, g, inner := Checked(s0, t, 2, g);
  }

  lemma ReceiveLooks(s0: State, r: Reached, size: nat, frame: seq<byte>, g0: Agent) returns (t: Reached, g: Agent)
    requires Reaches(s0, r) && Loaded(r.s.mem, size, frame)
    requires Get(r.s, 2) == g0 && g0.at == Claiming(ClaimState) && g0.e == 1
    ensures Reaches(s0, t) && Get(t.s, 2) == g && g.at == Claiming(ClaimCas) && g.e == 1
    ensures Loaded(t.s.mem, size, frame) && SameLogs(t.s.mem, r.s.mem)
    ensures OthersSame(r, t)
  {
    var m;
    t, m, g := Step(s0, r, 2, g0, Go);
    t, m, g := Step(s0, t, 2, g, Go);
  }

  lemma ReceiveClaims(s0: State, r: Reached, size: nat, frame: seq<byte>, g0: Agent) returns (t: Reached, g: Agent)
    requires Reaches(s0, r) && Loaded(r.s.mem, size, frame)
    requires Get(r.s, 2) == g0 && g0.at == Claiming(ClaimCas) && g0.e == 1
    ensures Reaches(s0, t) && Get(t.s, 2) == g && g.at == CheckUp(ConfirmRx) && g.e == 1 && g.rx == Keeps
    ensures Held(t.s.mem, size, frame) && SameLogs(t.s.mem, r.s.mem)
    ensures OthersSame(r, t)
  {
    var m;
    t, m, g := Step(s0, r, 2, g0, Go);
    t, m, g := Step(s0, t, 2, g, Go);
  }

  lemma ReceiveConfirms(s0: State, r: Reached, size: nat, frame: seq<byte>, g0: Agent) returns (t: Reached, g: Agent)
    requires Reaches(s0, r) && Held(r.s.mem, size, frame)
    requires Get(r.s, 2) == g0 && g0.at == CheckUp(ConfirmRx) && g0.e == 1 && g0.rx == Keeps
    ensures Reaches(s0, t) && Get(t.s, 2) == g && g.at == Reserving(TxCas) && g.e == 1 && g.rx == Keeps
    ensures Held(t.s.mem, size, frame) && SameLogs(t.s.mem, r.s.mem) && OthersSame(r, t)
  {
    var m, inner;
    t, m, g, inner := Checked(s0, r, 2, g0);
    t, m, g, inner := Checked(s0, t, 2, g);
  }

  lemma ReceiveReserves(s0: State, r: Reached, size: nat, frame: seq<byte>, g0: Agent) returns (t: Reached, g: Agent)
    requires Reaches(s0, r) && Held(r.s.mem, size, frame)
    requires Get(r.s, 2) == g0 && g0.at == Reserving(TxCas) && g0.e == 1 && g0.rx == Keeps
    ensures Reaches(s0, t) && Get(t.s, 2) == g && g.at == CheckUp(ConfirmTx) && g.e == 1 && g.rx == Keeps
    ensures var m := t.s.mem; Held(m.(tx := m.tx.(state := Free)), size, frame)
    ensures SameLogs(t.s.mem, r.s.mem) && OthersSame(r, t)
  {
    var m;
    t, m, g := Step(s0, r, 2, g0, Go);
    t, m, g := Step(s0, t, 2, g, Go);
  }

  lemma ReceiveGetsBoth(s0: State, r: Reached, size: nat, frame: seq<byte>, g0: Agent) returns (t: Reached, g: Agent)
    requires Reaches(s0, r) && Get(r.s, 2) == g0 && g0.at == CheckUp(ConfirmTx) && g0.e == 1 && g0.rx == Keeps
    requires var m := r.s.mem; Held(m.(tx := m.tx.(state := Free)), size, frame)
    ensures Reaches(s0, t) && Get(t.s, 2) == g && g.at == BothTokens && g.e == 1
    ensures var m := t.s.mem; Held(m.(tx := m.tx.(state := Free)), size, frame)
    ensures SameLogs(t.s.mem, r.s.mem) && OthersSame(r, t)
  {
    var m, inner;
    t, m, g, inner := Checked(s0, r, 2, g0);
  }

  lemma ReceiveSplits(s0: State, r: Reached, size: nat, frame: seq<byte>, g0: Agent) returns (t: Reached, g: Agent)
    requires Reaches(s0, r) && Get(r.s, 3) == IDLE
    requires Get(r.s, 2) == g0 && g0.at == BothTokens && g0.e == 1
    requires var m := r.s.mem; Held(m.(tx := m.tx.(state := Free)), size, frame)
    ensures Reaches(s0, t) && Get(t.s, 2) == g && g.at == RxToken(RxTok) && g.e == 1
    ensures var m := t.s.mem; Held(m.(tx := m.tx.(state := Free)), size, frame)
    ensures SameLogs(t.s.mem, r.s.mem)
    ensures Get(t.s, 1) == Get(r.s, 1) && Get(t.s, 4) == Get(r.s, 4)
  {
    RunAppends(s0, r.schedule, 2, MoveTx(3));
    t := Reached(r.schedule + [(2, MoveTx(3))], Exec(r.s, 2, MoveTx(3)));
    g := Get(t.s, 2);
  }

  lemma ReceiveConsumes(s0: State, r: Reached, size: nat, frame: seq<byte>, g0: Agent) returns (t: Reached, g: Agent)
    requires Reaches(s0, r) && Get(r.s, 2) == g0 && g0.at == RxToken(RxTok) && g0.e == 1
    requires var m := r.s.mem; Held(m.(tx := m.tx.(state := Free)), size, frame)
    ensures Reaches(s0, t) && Get(t.s, 2) == g && g.at == RxToken(RxTokEpoch) && g.e == 1
    ensures var m := t.s.mem; Held(m.(tx := m.tx.(state := Free)), size, frame)
    ensures SameLogs(t.s.mem, r.s.mem) && OthersSame(r, t)
  {
    var m, inner;
    t, m, g := Step(s0, r, 2, g0, Consume(0));
    t, m, g, inner := Checked(s0, t, 2, g);
  }

  lemma ReceiveDelivers(s0: State, r: Reached, size: nat, frame: seq<byte>, g0: Agent) returns (t: Reached)
    requires Reaches(s0, r) && Get(r.s, 2) == g0 && g0.at == RxToken(RxTokEpoch) && g0.e == 1
    requires var m := r.s.mem; Held(m.(tx := m.tx.(state := Free)), size, frame)
    ensures Reaches(s0, t) && |t.s.mem.deliveries| == |r.s.mem.deliveries| + 1
    ensures t.s.mem.deliveries[|r.s.mem.deliveries|].bytes == frame
    ensures t.s.mem.accepted == r.s.mem.accepted && OthersSame(r, t) && t.s.mem.link == Link(true, 1)
  {
    var m, g;
    t, m, g := Step(s0, r, 2, g0, Go);
    t, m, g := Step(s0, t, 2, g, Go);
  }

  /** A run in which the frame is stored and claimed, while the `push_rx` that
      stored it has yet to look at the link again. */
  lemma ClaimedEarly(size: nat, frame: seq<byte>) returns (r: Reached, g: Agent)
    requires |frame| <= size
    ensures Reaches(Init(size), r) && Held(r.s.mem, size, frame)
    ensures Get(r.s, 2) == g && g.at == CheckUp(ConfirmRx) && g.e == 1 && g.rx == Keeps
    ensures r.s.mem.deliveries == [] && |r.s.mem.accepted| == 1
    ensures Get(r.s, 1).at == CheckUp(PushRecheck) && Get(r.s, 3) == Get(r.s, 4) == IDLE
  {
    hide Exec, Run, Init, Quiescent, Loaded, Held, StepLocal;
    r := LinkUp(size);
    r, g := PushClaims(Init(size), r, size, frame);
    r := PushFills(Init(size), r, size, frame, g);
    r, g := ReceiveStarts(Init(size), r, size, frame);
    r, g := ReceiveLooks(Init(size), r, size, frame, g);
    r, g := ReceiveClaims(Init(size), r, size, frame, g);
  }

  /** The same, up to the delivery. */
  lemma DeliveredEarly(size: nat, frame: seq<byte>) returns (r: Reached)
    requires |frame| <= size
    ensures Reaches(Init(size), r)
    ensures |r.s.mem.deliveries| == |r.s.mem.accepted| == 1 && r.s.mem.deliveries[0].bytes == frame
    ensures Get(r.s, 1).at == CheckUp(PushRecheck) && Get(r.s, 4) == IDLE && r.s.mem.link == Link(true, 1)
  {
    hide Exec, Run, Init, Held, StepLocal;
    var g;
    r, g := ClaimedEarly(size, frame);
    r, g := ReceiveConfirms(Init(size), r, size, frame, g);
    r, g := ReceiveReserves(Init(size), r, size, frame, g);
    r, g := ReceiveGetsBoth(Init(size), r, size, frame, g);
    r, g := ReceiveSplits(Init(size), r, size, frame, g);
    r, g := ReceiveConsumes(Init(size), r, size, frame, g);
    r := ReceiveDelivers(Init(size), r, size, frame, g);
  }

  /** Every frame that fits is delivered byte for byte in some run. */
  lemma AnyFrameCanBeDelivered(size: nat, frame: seq<byte>) returns (schedule: seq<(nat, Choice)>)
    requires |frame| <= size
    ensures var m := Run(Init(size), schedule).mem;
            |m.deliveries| == 1 && m.deliveries[0].bytes == frame
  {
    hide Exec, Run, Init;
    var r := DeliveredEarly(size, frame);
    schedule := r.schedule;
  }

  /** For every frame that is not empty there is a run in which it is delivered
      byte for byte although the `push_rx` that stored it reports `LinkDown`:
      the link goes down between the delivery and the recheck. */
  lemma DeliveredAndRefused(size: nat, frame: seq<byte>) returns (schedule: seq<(nat, Choice)>, p: Pushed)
    requires 0 < |frame| <= size
    ensures var s := Run(Init(size), schedule);
            && |s.mem.deliveries| == 1 && s.mem.deliveries[0].bytes == frame
            && p in s.pushes && p.result == LinkDown && p.frame == Some(s.mem.deliveries[0].frame)
  {
    hide Exec, Run, Init;
    var r := DeliveredEarly(size, frame);
    var m, g;
    r, m, g := Step(Init(size), r, 4, IDLE, SetLink(false));
    r, m, g := Step(Init(size), r, 4, g, Go);
    var pusher := Get(r.s, 1);
    p := Late(r.s.mem, pusher, LinkDown);
    assert p in Settled(r.s.mem, pusher, Go);
    r, m, g := Step(Init(size), r, 1, pusher, Go);
    schedule := r.schedule;
    NetworkQueueProof.ReceivedFramesAreExact(size, schedule);
    NetworkQueuePush.PushResultsAreBacked(size, schedule);
  }

  // -------------------------------------------------------------- transmission

  predicate Linked(m: Mem, size: nat) {
    m.size == size && m.link == Link(true, 1) && |m.history| > 0 && |m.tx.buf| == size
  }

  lemma TransmitStarts(s0: State, r: Reached, size: nat) returns (t: Reached, g: Agent)
    requires Reaches(s0, r) && Quiescent(r.s.mem, size) && Get(r.s, 1) == IDLE
    ensures Reaches(s0, t) && Get(t.s, 1) == g && g.at == CheckUp(ReserveTx) && g.e == 1 && g.rx == NoHold
    ensures Quiescent(t.s.mem, size) && t.s.mem.finals == r.s.mem.finals
    ensures t.s.mem.readings == r.s.mem.readings && Get(t.s, 2) == Get(r.s, 2)
  {
    var m;
    t, m, g := Step(s0, r, 1, IDLE, Transmit);
    t, m, g := Epoch(s0, t, 1, g);
  }

  lemma TransmitChecks(s0: State, r: Reached, size: nat, g0: Agent) returns (t: Reached, g: Agent)
    requires Reaches(s0, r) && Quiescent(r.s.mem, size)
    requires Get(r.s, 1) == g0 && g0.at == CheckUp(ReserveTx) && g0.e == 1 && g0.rx == NoHold
    ensures Reaches(s0, t) && Get(t.s, 1) == g && g.at == Reserving(TxCas) && g.e == 1 && g.rx == NoHold
    ensures Quiescent(t.s.mem, size) && t.s.mem.finals == r.s.mem.finals
    ensures t.s.mem.readings == r.s.mem.readings && Get(t.s, 2) == Get(r.s, 2)
  {
    var m, inner;
    t, m, g, inner := Checked(s0, r, 1, g0);
  }

  lemma TransmitReserves(s0: State, r: Reached, size: nat, g0: Agent) returns (t: Reached, g: Agent)
    requires Reaches(s0, r) && Quiescent(r.s.mem, size)
    requires Get(r.s, 1) == g0 && g0.at == Reserving(TxCas) && g0.e == 1 && g0.rx == NoHold
    ensures Reaches(s0, t) && Get(t.s, 1) == g && g.at == CheckUp(ConfirmTx) && g.e == 1 && g.rx == NoHold
    ensures Linked(t.s.mem, size) && t.s.mem.tx.epoch == 1 && t.s.mem.finals == r.s.mem.finals
    ensures t.s.mem.readings == r.s.mem.readings && Get(t.s, 2) == Get(r.s, 2)
  {
    var m;
    t, m, g := Step(s0, r, 1, g0, Go);
    t, m, g := Step(s0, t, 1, g, Go);
  }

  lemma TransmitConsumes(s0: State, r: Reached, size: nat, len: nat, g0: Agent) returns (t: Reached, g: Agent)
    requires Reaches(s0, r) && Linked(r.s.mem, size) && r.s.mem.tx.epoch == 1 && len <= size
    requires Get(r.s, 1) == g0 && g0.at == CheckUp(ConfirmTx) && g0.e == 1 && g0.rx == NoHold
    ensures Reaches(s0, t) && Get(t.s, 1) == g && g.at == TxToken(TxBody) && g.e == 1 && g.n == len
    ensures Linked(t.s.mem, size) && t.s.mem.tx.epoch == 1
    ensures t.s.mem.finals == r.s.mem.finals && t.s.mem.readings == r.s.mem.readings && Get(t.s, 2) == Get(r.s, 2)
  {
    var m, inner;
    t, m, g, inner := Checked(s0, r, 1, g0);
    t, m, g := Step(s0, t, 1, g, Consume(len));
  }

  lemma TransmitFills(s0: State, r: Reached, size: nat, frame: seq<byte>, g0: Agent) returns (t: Reached, g: Agent)
    requires Reaches(s0, r) && Linked(r.s.mem, size) && r.s.mem.tx.epoch == 1 && |frame| <= size
    requires Get(r.s, 1) == g0 && g0.at == TxToken(TxBody) && g0.e == 1 && g0.n == |frame|
    ensures Reaches(s0, t) && Get(t.s, 1) == g && g.at == TxToken(TxBody) && g.e == 1 && g.n == |frame|
    ensures Linked(t.s.mem, size) && t.s.mem.tx.epoch == 1 && t.s.mem.tx.buf[..|frame|] == frame
    ensures t.s.mem.finals == r.s.mem.finals && t.s.mem.readings == r.s.mem.readings && Get(t.s, 2) == Get(r.s, 2)
  {
    var m, k := r.s.mem, 0;
    t, g := r, g0;
    while k < |frame|
      invariant k <= |frame| && Reaches(s0, t) && Get(t.s, 1) == g == g0 && t.s.mem == m
      invariant m == r.s.mem.(history := m.history, tx := r.s.mem.tx.(buf := m.tx.buf))
      invariant Linked(m, size) && m.tx.buf[..k] == frame[..k] && Get(t.s, 2) == Get(r.s, 2)
    {
      var before := m.tx.buf;
      t, m, g := Step(s0, t, 1, g, WriteByte(k, frame[k]));
      assert m.tx.buf == before[k := frame[k]];
      assert m.tx.buf[..k + 1] == before[..k] + [frame[k]] && frame[..k + 1] == frame[..k] + [frame[k]];
      k := k + 1;
    }
    assert frame[..|frame|] == frame;
  }

  /** The TX slot holds a published frame of epoch 1. */
  predicate Published(m: Mem, size: nat, frame: seq<byte>) {
    && Linked(m, size) && m.tx.epoch == 1 && m.tx.len == |frame| <= size && m.tx.buf[..|frame|] == frame
  }

  lemma TransmitFinishes(s0: State, r: Reached, size: nat, frame: seq<byte>, g0: Agent) returns (t: Reached, g: Agent)
    requires Reaches(s0, r) && Linked(r.s.mem, size) && r.s.mem.tx.epoch == 1
    requires Get(r.s, 1) == g0 && g0.at == TxToken(TxBody) && g0.e == 1 && g0.n == |frame| <= size
    requires r.s.mem.tx.buf[..|frame|] == frame
    ensures Reaches(s0, t) && Get(t.s, 1) == g && g.at == Publishing(TxTokEpoch) && g.e == 1 && g.bytes == frame
    ensures Linked(t.s.mem, size) && t.s.mem.tx.epoch == 1 && t.s.mem.tx.buf[..|frame|] == frame
    ensures t.s.mem.finals == r.s.mem.finals && t.s.mem.readings == r.s.mem.readings && Get(t.s, 2) == Get(r.s, 2)
  {
    var m, inner;
    t, m, g := Step(s0, r, 1, g0, Finish);
    t, m, g, inner := Checked(s0, t, 1, g);
  }

  lemma TransmitPublishes(s0: State, r: Reached, size: nat, frame: seq<byte>, g0: Agent) returns (t: Reached)
    requires Reaches(s0, r) && Linked(r.s.mem, size) && r.s.mem.tx.epoch == 1 && |frame| <= size
    requires Get(r.s, 1) == g0 && g0.at == Publishing(TxTokEpoch) && g0.e == 1 && g0.bytes == frame
    requires r.s.mem.tx.buf[..|frame|] == frame
    ensures Reaches(s0, t) && Published(t.s.mem, size, frame) && t.s.mem.tx.state == Ready && Get(t.s, 1) == IDLE
    ensures t.s.mem.finals == r.s.mem.finals && t.s.mem.readings == r.s.mem.readings && Get(t.s, 2) == Get(r.s, 2)
  {
    var m, g;
    t, m, g := Step(s0, r, 1, g0, Go);
    t, m, g := Step(s0, t, 1, g, Go);
    t, m, g := Step(s0, t, 1, g, Go);
  }

  lemma TakeStarts(s0: State, r: Reached, size: nat, frame: seq<byte>) returns (t: Reached, g: Agent)
    requires Reaches(s0, r) && Published(r.s.mem, size, frame) && r.s.mem.tx.state == Ready && Get(r.s, 2) == IDLE
    ensures Reaches(s0, t) && Get(t.s, 2) == g && g.at == Staling(StaleState) && g.e == 1
    ensures Published(t.s.mem, size, frame) && t.s.mem.tx.state == Ready
    ensures t.s.mem.finals == r.s.mem.finals && t.s.mem.readings == r.s.mem.readings && OthersSame(r, t)
  {
    var m;
    t, m, g := Step(s0, r, 2, IDLE, Take);
    t, m, g := Epoch(s0, t, 2, g);
  }

  lemma TakeLooks(s0: State, r: Reached, size: nat, frame: seq<byte>, g0: Agent) returns (t: Reached, g: Agent)
    requires Reaches(s0, r) && Published(r.s.mem, size, frame) && r.s.mem.tx.state == Ready
    requires Get(r.s, 2) == g0 && g0.at == Staling(StaleState) && g0.e == 1
    ensures Reaches(s0, t) && Get(t.s, 2) == g && g.at == Taking(TakeCas) && g.e == 1
    ensures Published(t.s.mem, size, frame) && t.s.mem.tx.state == Ready
    ensures t.s.mem.finals == r.s.mem.finals && t.s.mem.readings == r.s.mem.readings && OthersSame(r, t)
  {
    var m;
    t, m, g := Step(s0, r, 2, g0, Go);
    t, m, g := Step(s0, t, 2, g, Go);
  }

  lemma TakeClaims(s0: State, r: Reached, size: nat, frame: seq<byte>, g0: Agent) returns (t: Reached, g: Agent)
    requires Reaches(s0, r) && Published(r.s.mem, size, frame) && r.s.mem.tx.state == Ready
    requires Get(r.s, 2) == g0 && g0.at == Taking(TakeCas) && g0.e == 1
    ensures Reaches(s0, t) && Get(t.s, 2) == g && g.at == CheckUp(ConfirmLease) && g.e == 1
    ensures Published(t.s.mem, size, frame)
    ensures t.s.mem.finals == r.s.mem.finals && t.s.mem.readings == r.s.mem.readings && OthersSame(r, t)
  {
    var m;
    t, m, g := Step(s0, r, 2, g0, Go);
    t, m, g := Step(s0, t, 2, g, Go);
  }

  lemma TakeLeases(s0: State, r: Reached, size: nat, frame: seq<byte>, g0: Agent) returns (t: Reached, g: Agent)
    requires Reaches(s0, r) && Published(r.s.mem, size, frame)
    requires Get(r.s, 2) == g0 && g0.at == CheckUp(ConfirmLease) && g0.e == 1
    ensures Reaches(s0, t) && Get(t.s, 2) == g && g.at == CheckUp(SliceLease) && g.e == 1
    ensures Published(t.s.mem, size, frame)
    ensures t.s.mem.finals == r.s.mem.finals && t.s.mem.readings == r.s.mem.readings && OthersSame(r, t)
  {
    var m, inner;
    t, m, g, inner := Checked(s0, r, 2, g0);
    t, m, g := Step(s0, t, 2, g, AsSlice);
  }

  lemma LeaseChecks(s0: State, r: Reached, size: nat, frame: seq<byte>, g0: Agent) returns (t: Reached, g: Agent)
    requires Reaches(s0, r) && Published(r.s.mem, size, frame)
    requires Get(r.s, 2) == g0 && g0.at == CheckUp(SliceLease) && g0.e == 1
    ensures Reaches(s0, t) && Get(t.s, 2) == g && g.at == Slicing(SliceEpoch) && g.e == 1
    ensures Published(t.s.mem, size, frame)
    ensures t.s.mem.finals == r.s.mem.finals && t.s.mem.readings == r.s.mem.readings && OthersSame(r, t)
  {
    var m, inner;
    t, m, g, inner := Checked(s0, r, 2, g0);
  }

  lemma LeaseSlices(s0: State, r: Reached, size: nat, frame: seq<byte>, g0: Agent) returns (t: Reached, g: Agent)
    requires Reaches(s0, r) && Published(r.s.mem, size, frame)
    requires Get(r.s, 2) == g0 && g0.at == Slicing(SliceEpoch) && g0.e == 1
    ensures Reaches(s0, t) && Get(t.s, 2) == g && g.at == SliceBody && g.n == |frame| && g.e == 1
    ensures Published(t.s.mem, size, frame)
    ensures t.s.mem.finals == r.s.mem.finals && t.s.mem.readings == r.s.mem.readings && OthersSame(r, t)
  {
    var m;
    t, m, g := Step(s0, r, 2, g0, Go);
    t, m, g := Step(s0, t, 2, g, Go);
  }

  function FrameIn(slot: Slot): nat {
    if slot.frame.Some? then slot.frame.value else 0
  }

  /** The last recorded link is the present one. */
  predicate UpToDate(m: Mem) {
    |m.history| > 0 && m.history[|m.history| - 1] == m.link
  }

  lemma LeaseReads(s0: State, r: Reached, size: nat, frame: seq<byte>, g0: Agent) returns (t: Reached, g: Agent)
    requires Reaches(s0, r) && Published(r.s.mem, size, frame)
    requires Get(r.s, 2) == g0 && g0.at == SliceBody && g0.n == |frame|
    ensures Reaches(s0, t) && Get(t.s, 2) == g && g.at == Lease && g.e == g0.e && OthersSame(r, t)
    ensures t.s.mem.finals == r.s.mem.finals && t.s.mem.link == Link(true, 1) && UpToDate(t.s.mem)
    ensures |t.s.mem.readings| == |r.s.mem.readings| + 1
    ensures var h := t.s.mem.readings[|r.s.mem.readings|]; h.bytes == frame && h.frame == FrameIn(t.s.mem.tx)
  {
    var m;
    t, m, g := Step(s0, r, 2, g0, ReadSlice);
    t, m, g := Step(s0, t, 2, g, Finish);
  }

  lemma LeaseReports(s0: State, r: Reached, g0: Agent, outcome: Outcome) returns (t: Reached)
    requires Reaches(s0, r) && Get(r.s, 2) == g0 && g0.at == Lease && outcome != WouldBlock && UpToDate(r.s.mem)
    ensures Reaches(s0, t) && t.s.mem.readings == r.s.mem.readings
    ensures |t.s.mem.finals| == |r.s.mem.finals| + 1
    ensures var f := t.s.mem.finals[|r.s.mem.finals|];
            && f.outcome == outcome && f.epoch == g0.e && f.frame == FrameIn(r.s.mem.tx)
            && f.reported < |t.s.mem.history| && t.s.mem.history[f.reported] == r.s.mem.link
  {
    var m, g;
    t, m, g := Step(s0, r, 2, g0, Report(outcome));
  }

  /** A published frame. */
  lemma PublishedFrame(size: nat, frame: seq<byte>) returns (r: Reached)
    requires |frame| <= size
    ensures Reaches(Init(size), r) && Published(r.s.mem, size, frame) && r.s.mem.tx.state == Ready
    ensures Get(r.s, 1) == IDLE && Get(r.s, 2) == IDLE && r.s.mem.finals == [] && r.s.mem.readings == []
  {
    hide Exec, Run, Init, Quiescent, Published, Linked, StepLocal;
    r := LinkUp(size);
    var g;
    r, g := TransmitStarts(Init(size), r, size);
    r, g := TransmitChecks(Init(size), r, size, g);
    r, g := TransmitReserves(Init(size), r, size, g);
    r, g := TransmitConsumes(Init(size), r, size, |frame|, g);
    r, g := TransmitFills(Init(size), r, size, frame, g);
    r, g := TransmitFinishes(Init(size), r, size, frame, g);
    r := TransmitPublishes(Init(size), r, size, frame, g);
  }

  /** A lease of a published frame, which has been read whole. */
  lemma LeasedAndRead(size: nat, frame: seq<byte>) returns (r: Reached, g: Agent)
    requires |frame| <= size
    ensures Reaches(Init(size), r) && Get(r.s, 2) == g && g.at == Lease && g.e == 1 && Get(r.s, 1) == IDLE
    ensures r.s.mem.finals == [] && r.s.mem.link == Link(true, 1) && UpToDate(r.s.mem)
    ensures |r.s.mem.readings| == 1 && r.s.mem.readings[0].bytes == frame
    ensures r.s.mem.readings[0].frame == FrameIn(r.s.mem.tx)
  {
    hide Exec, Run, Init, Quiescent, Published, Linked, StepLocal, UpToDate, FrameIn;
    r := PublishedFrame(size, frame);
    r, g := TakeStarts(Init(size), r, size, frame);
    r, g := TakeLooks(Init(size), r, size, frame, g);
    r, g := TakeClaims(Init(size), r, size, frame, g);
    r, g := TakeLeases(Init(size), r, size, frame, g);
    r, g := LeaseChecks(Init(size), r, size, frame, g);
    r, g := LeaseSlices(Init(size), r, size, frame, g);
    r, g := LeaseReads(Init(size), r, size, frame, g);
  }

  /** Every frame that fits is read through a lease and reported `Submitted`,
      with the link up, in some run. */
  lemma AnyFrameCanBeSubmitted(size: nat, frame: seq<byte>) returns (schedule: seq<(nat, Choice)>)
    requires |frame| <= size
    ensures var m := Run(Init(size), schedule).mem;
            && |m.readings| == 1 && m.readings[0].bytes == frame && |m.finals| == 1
            && var f := m.finals[0];
            && f.outcome == Submitted && f.frame == m.readings[0].frame
            && f.reported < |m.history| && m.history[f.reported] == Link(true, f.epoch)
  {
    hide Exec, Run, Init, StepLocal;
    var r, g := LeasedAndRead(size, frame);
    r := LeaseReports(Init(size), r, g, Submitted);
    schedule := r.schedule;
  }

  /** And in some run it is reported so, or `Dropped`, when the link has left the
      frame's epoch: a final report does not look at the link. */
  lemma AnyFrameCanBeReportedLate(size: nat, frame: seq<byte>, outcome: Outcome) returns (schedule: seq<(nat, Choice)>)
    requires |frame| <= size && outcome != WouldBlock
    ensures var m := Run(Init(size), schedule).mem;
            && |m.readings| == 1 && m.readings[0].bytes == frame && |m.finals| == 1
            && var f := m.finals[0];
            && f.outcome == outcome && f.frame == m.readings[0].frame
            && f.reported < |m.history| && m.history[f.reported] != Link(true, f.epoch)
  {
    hide Exec, Run, Init, StepLocal;
    var r, g := LeasedAndRead(size, frame);
    r := LinkDrops(Init(size), r);
    r := LeaseReports(Init(size), r, g, outcome);
    schedule := r.schedule;
  }

  lemma LinkDrops(s0: State, r: Reached) returns (t: Reached)
    requires Reaches(s0, r) && Get(r.s, 1) == IDLE && r.s.mem.link.up
    ensures Reaches(s0, t) && Get(t.s, 2) == Get(r.s, 2) && !t.s.mem.link.up && UpToDate(t.s.mem)
    ensures t.s.mem.finals == r.s.mem.finals && t.s.mem.readings == r.s.mem.readings && t.s.mem.tx == r.s.mem.tx
  {
    var m, g;
    t, m, g := Step(s0, r, 1, IDLE, SetLink(false));
    t, m, g := Step(s0, t, 1, g, Go);
  }
}
