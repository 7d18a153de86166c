/** What the result of `push_rx` says about the frame, in every interleaving. */
module NetworkQueuePush {
  import opened Bytes
  import opened Wrappers
  import opened NetworkQueue
  import P = NetworkQueueProof

  /** A `push_rx` that has stored its frame and not yet settled its result. */
  predicate Rechecking(g: Agent) {
    g.at == CheckUp(PushRecheck) || g.at == CheckEpoch(PushRecheck)
  }

  /** A result is backed by the link's history. */
  predicate ResultOk(p: Pushed, accepted: seq<Frame>, history: seq<Link>) {
    p.frame.Some? ==>
      && p.frame.value < |accepted| && accepted[p.frame.value].epoch == p.epoch
      && p.stored <= p.settled < |history|
      && match p.result {
        case Accepted => p.stored <= p.seen <= p.settled && history[p.seen] == Link(true, p.epoch)
        case LinkDown => history[p.settled] != Link(true, p.epoch)
        case _ => false
      }
  }

  /** The frame of an agent that rechecks is the one it stored. */
  predicate AgentFrame(m: Mem, g: Agent) {
    Rechecking(g) ==>
      && g.n < |m.accepted| && m.accepted[g.n] == Frame(g.e, g.bytes)
      && g.since + 1 < |m.history|
      && (g.at == CheckEpoch(PushRecheck) ==> g.since < g.seen)
  }

  predicate Unsettled(pushes: seq<Pushed>, g: Agent) {
    Rechecking(g) ==> forall p | p in pushes :: p.frame != Some(g.n)
  }

  predicate Distinct(pushes: seq<Pushed>) {
    forall i, j | 0 <= i < j < |pushes| :: pushes[i].frame.Some? ==> pushes[i].frame != pushes[j].frame
  }

  ghost predicate PushInv(s: State) {
    && P.Inv(s)
    && (forall p | p in s.pushes :: ResultOk(p, s.mem.accepted, s.mem.history))
    && Distinct(s.pushes)
    && (forall a: nat :: AgentFrame(s.mem, Get(s, a)) && Unsettled(s.pushes, Get(s, a)))
    && (forall a: nat, b: nat | a != b && Rechecking(Get(s, a)) && Rechecking(Get(s, b)) :: Get(s, a).n != Get(s, b).n)
  }

  // ------------------------------------------------------------- one step

  /** What a local step does to the frames stored READY. */
  predicate FrameStep(m: Mem, g: Agent, m': Mem, g': Agent) {
    && m.accepted <= m'.accepted && m'.history == m.history
    && (Rechecking(g') ==>
          || (g.at == CheckUp(PushRecheck) && g' == g.(at := g'.at, seen := Now(m)) && m' == m)
          || (g.at == Pushing(PushReady) && g'.n == |m.accepted| && g'.since == Now(m)
              && m'.accepted == m.accepted + [Frame(g.e, g.bytes)]
              && g'.e == g.e && g'.bytes == g.bytes && g'.at == CheckUp(PushRecheck)))
  }

  lemma ClientFrames(m: Mem, a: nat, g: Agent, c: Choice)
    requires P.ClientSide(g.at)
    ensures FrameStep(m, g, StepLocal(m, a, g, c).0, StepLocal(m, a, g, c).1)
  {
  }

  lemma RunnerFrames(m: Mem, a: nat, g: Agent, c: Choice)
    requires P.RunnerSide(g.at)
    ensures FrameStep(m, g, StepLocal(m, a, g, c).0, StepLocal(m, a, g, c).1)
  {
  }

  lemma SharedFrames(m: Mem, a: nat, g: Agent, c: Choice)
    requires !P.ClientSide(g.at) && !P.RunnerSide(g.at)
    ensures FrameStep(m, g, StepLocal(m, a, g, c).0, StepLocal(m, a, g, c).1)
  {
  }

  lemma LocalFrames(m: Mem, a: nat, g: Agent, c: Choice)
    ensures FrameStep(m, g, StepLocal(m, a, g, c).0, StepLocal(m, a, g, c).1)
  {
    hide StepLocal, FrameStep;
    if P.ClientSide(g.at) {
      ClientFrames(m, a, g, c);
    } else if P.RunnerSide(g.at) {
      RunnerFrames(m, a, g, c);
    } else {
      SharedFrames(m, a, g, c);
    }
  }

  /** A settled result is backed, and its agent is done with the frame. */
  lemma SettledOk(m: Mem, a: nat, g: Agent, c: Choice)
    requires P.HistoryOk(m) && P.AgentOk(m, a, g) && AgentFrame(m, g)
    ensures |Settled(m, g, c)| <= 1
    ensures forall p | p in Settled(m, g, c) ::
              && ResultOk(p, m.accepted, m.history)
              && (p.frame.Some? ==> Rechecking(g) && p.frame.value == g.n && !Rechecking(StepLocal(m, a, g, c).1))
  {
    if g.at == CheckEpoch(PushRecheck) {
      assert m.history[g.seen].epoch <= m.link.epoch;
    }
  }

  lemma ResultStays(p: Pushed, m: Mem, m': Mem)
    requires ResultOk(p, m.accepted, m.history) && m.accepted <= m'.accepted && m.history <= m'.history
    ensures ResultOk(p, m'.accepted, m'.history)
  {
  }

  lemma AgentStays(g: Agent, m: Mem, m': Mem)
    requires AgentFrame(m, g) && m.accepted <= m'.accepted && m.history <= m'.history
    ensures AgentFrame(m', g)
  {
  }

  /** The agent that steps keeps track of its own frame. */
  lemma StepperFrame(m: Mem, a: nat, g: Agent, c: Choice)
    requires P.HistoryOk(m) && AgentFrame(m, g)
    ensures var (m', g') := StepLocal(m, a, g, c); AgentFrame(Record(m'), g')
  {
    hide StepLocal;
    LocalFrames(m, a, g, c);
    var (m', g') := StepLocal(m, a, g, c);
    assert m.history <= Record(m').history;
  }

  /** After a step the agent that took it has either the frame it had, or a new
      one, or none. */
  lemma StepperIndex(m: Mem, a: nat, g: Agent, c: Choice)
    ensures var g' := StepLocal(m, a, g, c).1; Rechecking(g') ==> (Rechecking(g) && g'.n == g.n) || g'.n == |m.accepted|
  {
    hide StepLocal;
    LocalFrames(m, a, g, c);
  }

  lemma Appended(pushes: seq<Pushed>, more: seq<Pushed>)
    requires Distinct(pushes) && |more| <= 1
    requires forall p, q | p in pushes && q in more :: q.frame.Some? ==> p.frame != q.frame
    ensures Distinct(pushes + more)
  {
    var all := pushes + more;
    forall i, j | 0 <= i < j < |all| && all[i].frame.Some? ensures all[i].frame != all[j].frame {
      assert i < |pushes| && all[i] in pushes;
      assert j >= |pushes| ==> all[j] in more;
    }
  }

  lemma ResultsKept(s: State, a: nat, c: Choice)
    requires PushInv(s) && !(Get(s, a).at.BothTokens? && c.MoveTx?)
    ensures var t := Exec(s, a, c);
            && s.mem.accepted <= t.mem.accepted && s.mem.history <= t.mem.history
            && (forall p | p in t.pushes :: ResultOk(p, t.mem.accepted, t.mem.history))
            && Distinct(t.pushes)
  {
    hide StepLocal, Settled, ResultOk, Distinct, P.Inv;
    var g, t := Get(s, a), Exec(s, a, c);
    assert P.HistoryOk(s.mem) && P.AgentOk(s.mem, a, g) by { InvFacts(s, a); }
    assert AgentFrame(s.mem, g) && Unsettled(s.pushes, g);
    LocalFrames(s.mem, a, g, c);
    SettledOk(s.mem, a, g, c);
    Appended(s.pushes, Settled(s.mem, g, c));
    forall p | p in t.pushes ensures ResultOk(p, t.mem.accepted, t.mem.history) {
      ResultStays(p, s.mem, t.mem);
    }
  }

  lemma InvFacts(s: State, a: nat)
    requires P.Inv(s)
    ensures P.HistoryOk(s.mem) && P.AgentOk(s.mem, a, Get(s, a))
  {
  }

  lemma AgentsKept(s: State, a: nat, c: Choice, b: nat)
    requires PushInv(s) && !(Get(s, a).at.BothTokens? && c.MoveTx?)
    ensures var t := Exec(s, a, c); AgentFrame(t.mem, Get(t, b)) && Unsettled(t.pushes, Get(t, b))
  {
    hide StepLocal, Settled, ResultOk, Distinct, P.Inv;
    var g, t := Get(s, a), Exec(s, a, c);
    assert P.HistoryOk(s.mem) && P.AgentOk(s.mem, a, g) by { InvFacts(s, a); }
    assert AgentFrame(s.mem, g) && Unsettled(s.pushes, g);
    assert AgentFrame(s.mem, Get(s, b)) && Unsettled(s.pushes, Get(s, b));
    LocalFrames(s.mem, a, g, c);
    SettledOk(s.mem, a, g, c);
    if b == a {
      StepperFrame(s.mem, a, g, c);
      StepperIndex(s.mem, a, g, c);
      FreshIndex(s);
    } else {
      AgentStays(Get(s, b), s.mem, t.mem);
    }
  }

  lemma FreshIndex(s: State)
    requires PushInv(s)
    ensures forall p | p in s.pushes :: p.frame != Some(|s.mem.accepted|)
  {
    hide P.Inv;
  }

  lemma IndicesKept(s: State, a: nat, c: Choice, b: nat, d: nat)
    requires PushInv(s) && !(Get(s, a).at.BothTokens? && c.MoveTx?) && b != d
    ensures var t := Exec(s, a, c); Rechecking(Get(t, b)) && Rechecking(Get(t, d)) ==> Get(t, b).n != Get(t, d).n
  {
    hide StepLocal, P.Inv;
    assert AgentFrame(s.mem, Get(s, b)) && AgentFrame(s.mem, Get(s, d));
    StepperIndex(s.mem, a, Get(s, a), c);
  }

  /** Handing a token over settles nothing. */
  lemma MoveSettlesNothing(s: State, a: nat, c: Choice)
    requires Get(s, a).at.BothTokens? && c.MoveTx?
    ensures var t := Exec(s, a, c);
            && t.pushes == s.pushes && t.mem.accepted == s.mem.accepted && s.mem.history <= t.mem.history
            && forall b: nat :: Rechecking(Get(t, b)) ==> Get(t, b) == Get(s, b)
  {
  }

  lemma MoveKeeps(s: State, a: nat, c: Choice)
    requires PushInv(s) && Get(s, a).at.BothTokens? && c.MoveTx?
    ensures PushInv(Exec(s, a, c))
  {
    P.ExecOk(s, a, c);
    MoveSettlesNothing(s, a, c);
    hide P.Inv, Exec;
    var t := Exec(s, a, c);
    forall p | p in t.pushes ensures ResultOk(p, t.mem.accepted, t.mem.history) {
      ResultStays(p, s.mem, t.mem);
    }
    forall b: nat ensures AgentFrame(t.mem, Get(t, b)) && Unsettled(t.pushes, Get(t, b)) {
      assert AgentFrame(s.mem, Get(s, b)) && Unsettled(s.pushes, Get(s, b));
    }
  }

  lemma ExecKeeps(s: State, a: nat, c: Choice)
    requires PushInv(s)
    ensures PushInv(Exec(s, a, c))
  {
    if Get(s, a).at.BothTokens? && c.MoveTx? {
      MoveKeeps(s, a, c);
    } else {
      P.ExecOk(s, a, c);
      hide Exec, P.Inv, Distinct, AgentFrame, Unsettled, ResultOk, Rechecking;
      var t := Exec(s, a, c);
      ResultsKept(s, a, c);
      forall b: nat ensures AgentFrame(t.mem, Get(t, b)) && Unsettled(t.pushes, Get(t, b)) {
        AgentsKept(s, a, c, b);
      }
      forall b: nat, d: nat | b != d && Rechecking(Get(t, b)) && Rechecking(Get(t, d))
        ensures Get(t, b).n != Get(t, d).n
      {
        IndicesKept(s, a, c, b, d);
      }
    }
  }

  lemma InitKeeps(size: nat)
    ensures PushInv(Init(size))
  {
    P.InitOk(size);
  }

  lemma {:induction false} RunKeeps(s: State, schedule: seq<(nat, Choice)>)
    requires PushInv(s)
    ensures PushInv(Run(s, schedule))
    decreases |schedule|
  {
    if schedule != [] {
      hide PushInv, Exec;
      ExecKeeps(s, schedule[0].0, schedule[0].1);
      RunKeeps(Exec(s, schedule[0].0, schedule[0].1), schedule[1..]);
    }
  }

  // ---------------------------------------------------------- completeness

  /** Frame `i` was stored by a call whose result is settled, or that rechecks. */
  ghost predicate HasPush(s: State, i: nat) {
    || (exists p :: p in s.pushes && p.frame == Some(i))
    || exists a: nat :: Rechecking(Get(s, a)) && Get(s, a).n == i
  }

  ghost predicate Covered(s: State) {
    forall i | 0 <= i < |s.mem.accepted| :: HasPush(s, i)
  }

  /** An agent leaves the recheck only by settling its result. */
  lemma LeavesBySettling(m: Mem, a: nat, g: Agent, c: Choice)
    requires Rechecking(g)
    ensures var (m', g') := StepLocal(m, a, g, c);
            && m'.accepted == m.accepted
            && ((Rechecking(g') && g'.n == g.n) || exists p :: p in Settled(m, g, c) && p.frame == Some(g.n))
  {
    if !Rechecking(StepLocal(m, a, g, c).1) {
      assert Settled(m, g, c)[0] in Settled(m, g, c);
    }
  }

  lemma PushStays(s: State, a: nat, c: Choice, i: nat)
    requires HasPush(s, i)
    ensures HasPush(Exec(s, a, c), i)
  {
    hide StepLocal, Settled;
    var t := Exec(s, a, c);
    if p :| p in s.pushes && p.frame == Some(i) {
      assert p in t.pushes;
    } else {
      var b: nat :| Rechecking(Get(s, b)) && Get(s, b).n == i;
      if b == a {
        LeavesBySettling(s.mem, a, Get(s, a), c);
        if !(Rechecking(Get(t, a)) && Get(t, a).n == i) {
          var p :| p in Settled(s.mem, Get(s, a), c) && p.frame == Some(i);
          assert p in t.pushes;
        }
      } else {
        assert Get(t, b) == Get(s, b);
      }
    }
  }

  /** A step that stores a frame leaves its agent rechecking it. */
  lemma NewFrameHasPush(m: Mem, a: nat, g: Agent, c: Choice)
    ensures var (m', g') := StepLocal(m, a, g, c);
            m'.accepted == m.accepted
            || (|m'.accepted| == |m.accepted| + 1 && Rechecking(g') && g'.n == |m.accepted|)
  {
  }

  lemma CoveredStays(s: State, a: nat, c: Choice)
    requires Covered(s)
    ensures Covered(Exec(s, a, c))
  {
    hide StepLocal, HasPush;
    var t := Exec(s, a, c);
    NewFrameHasPush(s.mem, a, Get(s, a), c);
    forall i | 0 <= i < |t.mem.accepted| ensures HasPush(t, i) {
      if i < |s.mem.accepted| {
        PushStays(s, a, c, i);
      } else {
        AgentHasPush(t, a, i);
      }
    }
  }

  lemma AgentHasPush(s: State, a: nat, i: nat)
    requires Rechecking(Get(s, a)) && Get(s, a).n == i
    ensures HasPush(s, i)
  {
  }

  lemma {:induction false} RunCovers(s: State, schedule: seq<(nat, Choice)>)
    requires Covered(s)
    ensures Covered(Run(s, schedule))
    decreases |schedule|
  {
    if schedule != [] {
      hide Covered, Exec;
      CoveredStays(s, schedule[0].0, schedule[0].1);
      RunCovers(Exec(s, schedule[0].0, schedule[0].1), schedule[1..]);
    }
  }

  // -------------------------------------------------------------- theorems

  /** `Ok` means that the link was up in the frame's epoch at an instant after the
      frame was stored, and `LinkDown` for a stored frame that it was not at
      such an instant. No stored frame is reported by two calls, and the other
      errors mean that nothing was stored. */
  lemma PushResultsAreBacked(size: nat, schedule: seq<(nat, Choice)>)
    ensures var s := Run(Init(size), schedule);
            && (forall p | p in s.pushes && p.frame.Some? ::
                  && p.frame.value < |s.mem.accepted| && s.mem.accepted[p.frame.value].epoch == p.epoch
                  && p.stored <= p.settled < |s.mem.history|
                  && (p.result == Accepted || p.result == LinkDown)
                  && (p.result == Accepted ==>
                        p.stored <= p.seen <= p.settled && s.mem.history[p.seen] == Link(true, p.epoch))
                  && (p.result == LinkDown ==> s.mem.history[p.settled] != Link(true, p.epoch)))
            && (forall i, j | 0 <= i < j < |s.pushes| ::
                  s.pushes[i].frame.Some? ==> s.pushes[i].frame != s.pushes[j].frame)
  {
    InitKeeps(size);
    RunKeeps(Init(size), schedule);
  }

  /** Every delivered frame was stored by a `push_rx` that returned `Ok`, or
      returned `LinkDown`, or has stored the frame and not returned yet. */
  lemma DeliveredWasPushed(size: nat, schedule: seq<(nat, Choice)>, h: Handout)
    requires h in Run(Init(size), schedule).mem.deliveries && h.bytes != []
    ensures var s := Run(Init(size), schedule);
            || (exists p :: p in s.pushes && p.frame == Some(h.frame) && (p.result == Accepted || p.result == LinkDown))
            || exists a: nat :: Rechecking(Get(s, a)) && Get(s, a).n == h.frame && Get(s, a).bytes == h.bytes
  {
    InitKeeps(size);
    RunKeeps(Init(size), schedule);
    RunCovers(Init(size), schedule);
    hide Run, Init, P.Inv;
    P.ReceivedFramesAreExact(size, schedule);
    var s := Run(Init(size), schedule);
    assert HasPush(s, h.frame);
    if a: nat :| Rechecking(Get(s, a)) && Get(s, a).n == h.frame {
      assert AgentFrame(s.mem, Get(s, a));
    }
  }

  /** A frame may be delivered although its `push_rx` reported an error; then the
      link had left the frame's epoch by the time the error was settled, after
      the frame was stored. */
  lemma DeliveredDespiteError(size: nat, schedule: seq<(nat, Choice)>, h: Handout, p: Pushed)
    requires var s := Run(Init(size), schedule);
             h in s.mem.deliveries && h.bytes != [] && p in s.pushes && p.frame == Some(h.frame) && p.result != Accepted
    ensures var m := Run(Init(size), schedule).mem;
            && p.result == LinkDown && p.epoch == h.epoch
            && p.stored <= p.settled < |m.history| && m.history[p.settled] != Link(true, h.epoch)
            && h.seen < |m.history| && m.history[h.seen] == Link(true, h.epoch)
  {
    hide Run, Init;
    PushResultsAreBacked(size, schedule);
    P.ReceivedFramesAreExact(size, schedule);
  }
}
