/** What a final report and a returned lease say about the frame and the link, in
    every interleaving. */
module NetworkQueueReport {
  import opened Bytes
  import opened Wrappers
  import opened NetworkQueue
  import P = NetworkQueueProof

  /** A live `TxLease`, whatever is being done with it. */
  predicate Leasing(at: At) {
    match at
    case Lease => true
    case SliceBody => true
    case Slicing(_) => true
    case Returning(_) => true
    case CheckUp(k) => k == SliceLease || k == ReturnLease
    case CheckEpoch(k) => k == SliceLease || k == ReturnLease
    case _ => false
  }

  /** `take_tx` after it has claimed the frame. */
  predicate Confirming(at: At) {
    at == Taking(TakeEpoch) || at == CheckUp(ConfirmLease) || at == CheckEpoch(ConfirmLease)
  }

  /** A lease holds a frame of its own epoch, and the link was seen up in that
      epoch after the frame was claimed; one that is being returned was seen
      current in the call that returns it. */
  ghost predicate LeaseOk(m: Mem, g: Agent) {
    && (Confirming(g.at) ==> g.claimed + 1 < |m.history|)
    && (g.at == CheckUp(ConfirmLease) || g.at == CheckEpoch(ConfirmLease) ==>
          g.claimed < g.since && m.tx.epoch == g.e)
    && (Leasing(g.at) ==>
          && g.claimed < g.leased < |m.history| && m.history[g.leased] == Link(true, g.e)
          && m.tx.epoch == g.e)
    && (g.at.Returning? ==> P.SeenUp(m.history, g.e, g.since, g.seen))
  }

  ghost predicate FinalOk(f: Final, published: seq<Frame>, history: seq<Link>) {
    && f.outcome != WouldBlock
    && f.frame < |published| && published[f.frame].epoch == f.epoch
    && f.claimed < f.leased <= f.reported < |history| && history[f.leased] == Link(true, f.epoch)
  }

  ghost predicate ReportInv(s: State) {
    && P.Inv(s)
    && (forall f | f in s.mem.finals :: FinalOk(f, s.mem.published, s.mem.history))
    && (forall a: nat :: LeaseOk(s.mem, Get(s, a)))
  }

  // ------------------------------------------------------------- one step

  /** What a local step does to leases and reports. */
  ghost predicate LeaseStep(m: Mem, g: Agent, m': Mem, g': Agent) {
    && LeaseOk(Record(m'), g')
    && (m'.finals == m.finals
        || (g.at == Lease && m'.published == m.published
            && exists o :: o != WouldBlock && m'.finals == m.finals + [FinalOf(m, g, o)]))
  }

  /** The program points of a lease from its claim to its end. */
  predicate Concerned(at: At) {
    Leasing(at) || Confirming(at) || at == Taking(TakeCas)
  }

  /** Everything else neither becomes a lease nor reports one. */
  predicate Aside(m: Mem, m': Mem, g': Agent) {
    !Leasing(g'.at) && !Confirming(g'.at) && m'.finals == m.finals
  }

  lemma ClientAside(m: Mem, a: nat, g: Agent, c: Choice)
    requires P.ClientSide(g.at)
    ensures Aside(m, StepLocal(m, a, g, c).0, StepLocal(m, a, g, c).1)
  {
  }

  lemma RunnerAside(m: Mem, a: nat, g: Agent, c: Choice)
    requires P.RunnerSide(g.at) && !Concerned(g.at)
    ensures Aside(m, StepLocal(m, a, g, c).0, StepLocal(m, a, g, c).1)
  {
  }

  lemma SharedAside(m: Mem, a: nat, g: Agent, c: Choice)
    requires !P.ClientSide(g.at) && !P.RunnerSide(g.at) && !Concerned(g.at)
    ensures Aside(m, StepLocal(m, a, g, c).0, StepLocal(m, a, g, c).1)
  {
  }

  lemma TakeLeases(m: Mem, a: nat, g: Agent)
    requires g.at.Taking? && P.HistoryOk(m) && LeaseOk(m, g)
    ensures LeaseStep(m, g, StepTake(m, a, g, g.at.taking).0, StepTake(m, a, g, g.at.taking).1)
  {
  }

  lemma CheckUpLeases(m: Mem, g: Agent)
    requires g.at.CheckUp? && Concerned(g.at) && P.HistoryOk(m) && LeaseOk(m, g)
    ensures LeaseStep(m, g, m, StepCheckUp(m, g, g.at.k))
  {
  }

  lemma CheckEpochLeases(m: Mem, g: Agent)
    requires g.at.CheckEpoch? && Concerned(g.at) && P.HistoryOk(m) && LeaseOk(m, g)
    requires g.since <= g.seen < |m.history| && m.history[g.seen].up && m.history[g.seen].epoch >= g.e
    ensures LeaseStep(m, g, m, StepCheckEpoch(m, g, g.at.k))
  {
    assert m.history[g.seen].epoch <= m.link.epoch;
  }

  lemma LeaseLeases(m: Mem, g: Agent, c: Choice)
    requires g.at == Lease && P.HistoryOk(m) && LeaseOk(m, g)
    ensures LeaseStep(m, g, StepLease(m, g, c).0, StepLease(m, g, c).1)
  {
    if c.Report? && c.outcome != WouldBlock {
      assert StepLease(m, g, c).0.finals == m.finals + [FinalOf(m, g, c.outcome)];
    }
  }

  lemma SliceLeases(m: Mem, g: Agent)
    requires g.at.Slicing? && P.HistoryOk(m) && LeaseOk(m, g)
    ensures LeaseStep(m, g, m, StepSlice(m, g, g.at.slicing))
  {
  }

  lemma ReadLeases(m: Mem, g: Agent, c: Choice)
    requires g.at == SliceBody && P.HistoryOk(m) && LeaseOk(m, g)
    ensures LeaseStep(m, g, StepRead(m, g, c).0, StepRead(m, g, c).1)
  {
  }

  lemma ReturnLeases(m: Mem, g: Agent)
    requires g.at.Returning? && P.HistoryOk(m) && LeaseOk(m, g)
    ensures LeaseStep(m, g, StepReturn(m, g, g.at.returning).0, StepReturn(m, g, g.at.returning).1)
  {
  }

  lemma ConcernedLeases(m: Mem, a: nat, g: Agent, c: Choice)
    requires Concerned(g.at) && P.HistoryOk(m) && P.AgentOk(m, a, g) && LeaseOk(m, g)
    ensures LeaseStep(m, g, StepLocal(m, a, g, c).0, StepLocal(m, a, g, c).1)
  {
    assert g.at.CheckEpoch? ==>
        g.since <= g.seen < |m.history| && m.history[g.seen].up && m.history[g.seen].epoch >= g.e;
    hide P.HistoryOk, P.AgentOk, LeaseOk, LeaseStep, StepTake, StepCheckUp, StepCheckEpoch, StepLease, StepSlice,
      StepRead, StepReturn;
    match g.at
    case Taking(_) => TakeLeases(m, a, g);
    case CheckUp(_) => CheckUpLeases(m, g);
    case CheckEpoch(_) => CheckEpochLeases(m, g);
    case Lease => LeaseLeases(m, g, c);
    case Slicing(_) => SliceLeases(m, g);
    case SliceBody => ReadLeases(m, g, c);
    case Returning(_) => ReturnLeases(m, g);
  }

  lemma LocalLeases(m: Mem, a: nat, g: Agent, c: Choice)
    requires P.HistoryOk(m) && P.AgentOk(m, a, g) && LeaseOk(m, g)
    ensures LeaseStep(m, g, StepLocal(m, a, g, c).0, StepLocal(m, a, g, c).1)
  {
    hide StepLocal, P.HistoryOk, P.AgentOk, P.ClientSide, P.RunnerSide;
    if Concerned(g.at) {
      ConcernedLeases(m, a, g, c);
    } else if P.ClientSide(g.at) {
      ClientAside(m, a, g, c);
    } else if P.RunnerSide(g.at) {
      RunnerAside(m, a, g, c);
    } else {
      SharedAside(m, a, g, c);
    }
  }

  // ------------------------------------------------------------------ runs

  lemma FinalStays(f: Final, m: Mem, m': Mem)
    requires FinalOk(f, m.published, m.history) && m.published <= m'.published && m.history <= m'.history
    ensures FinalOk(f, m'.published, m'.history)
  {
  }

  /** A new report speaks of the frame that the lease holds. */
  lemma NewFinal(m: Mem, a: nat, g: Agent, o: Outcome)
    requires g.at == Lease && o != WouldBlock
    requires P.HistoryOk(m) && P.SlotsOk(m) && P.AgentOk(m, a, g) && LeaseOk(m, g)
    ensures FinalOk(FinalOf(m, g, o), m.published, m.history)
  {
  }

  /** Nobody else touches the slot of a lease. */
  lemma OtherLease(m: Mem, m': Mem, a: nat, b: nat, g: Agent)
    requires a != b && P.AgentOk(m, b, g) && LeaseOk(m, g) && P.Stable(m, m', a) && m.history <= m'.history
    ensures LeaseOk(m', g)
  {
    assert Leasing(g.at) || Confirming(g.at) ==> g.tx == Keeps;
    assert g.tx == Keeps ==> m'.tx == m.tx;
  }

  lemma LocalStepOk(m: Mem, a: nat, g: Agent, c: Choice)
    requires P.HistoryOk(m) && P.SlotsOk(m) && P.AgentOk(m, a, g)
    ensures P.StepOk(m, a, StepLocal(m, a, g, c).0, StepLocal(m, a, g, c).1)
  {
    hide StepLocal, P.HistoryOk, P.SlotsOk, P.AgentOk, P.StepOk, P.ClientSide, P.RunnerSide;
    if P.ClientSide(g.at) {
      P.ClientOk(m, a, g, c);
    } else if P.RunnerSide(g.at) {
      P.RunnerOk(m, a, g, c);
    } else {
      P.SharedOk(m, a, g, c);
    }
  }

  lemma StepFacts(m: Mem, a: nat, m': Mem, g': Agent)
    requires P.StepOk(m, a, m', g')
    ensures P.Stable(m, Record(m'), a) && m.published <= m'.published && m.history <= Record(m').history
    ensures P.SlotsOk(m')
  {
    hide P.SlotsOk, P.AgentOk;
  }

  lemma LocalKeeps(s: State, a: nat, c: Choice)
    requires ReportInv(s) && !(Get(s, a).at.BothTokens? && c.MoveTx?)
    ensures ReportInv(Exec(s, a, c))
  {
    P.ExecOk(s, a, c);
    hide StepLocal, P.Inv, P.StepOk, P.Stable, LeaseOk, FinalOk, P.HistoryOk, P.SlotsOk, P.AgentOk, Settled, FinalOf,
      LeaseStep, Record;
    var g, t := Get(s, a), Exec(s, a, c);
    var (m, next) := StepLocal(s.mem, a, g, c);
    InvFacts(s, a);
    LocalStepOk(s.mem, a, g, c);
    StepFacts(s.mem, a, m, next);
    LocalLeases(s.mem, a, g, c);
    FinalsKept(s.mem, a, g, m, next);
    StepperLease(s.mem, g, m, next);
    forall b: nat ensures LeaseOk(t.mem, Get(t, b)) {
      if b != a {
        InvFacts(s, b);
        OtherLease(s.mem, t.mem, a, b, Get(s, b));
      }
    }
  }

  lemma StepperLease(m: Mem, g: Agent, m': Mem, g': Agent)
    requires LeaseStep(m, g, m', g')
    ensures LeaseOk(Record(m'), g')
  {
  }

  lemma InvFacts(s: State, a: nat)
    requires P.Inv(s)
    ensures P.HistoryOk(s.mem) && P.SlotsOk(s.mem) && P.AgentOk(s.mem, a, Get(s, a))
  {
  }

  lemma FinalsKept(m: Mem, a: nat, g: Agent, m': Mem, g': Agent)
    requires P.HistoryOk(m) && P.SlotsOk(m) && P.AgentOk(m, a, g) && LeaseOk(m, g)
    requires LeaseStep(m, g, m', g') && m.published <= m'.published && m.history <= Record(m').history
    requires forall f | f in m.finals :: FinalOk(f, m.published, m.history)
    ensures forall f | f in Record(m').finals :: FinalOk(f, Record(m').published, Record(m').history)
  {
    hide P.HistoryOk, P.SlotsOk, P.AgentOk, LeaseOk, FinalOk, FinalOf;
    if m'.finals != m.finals {
      var o :| o != WouldBlock && m'.finals == m.finals + [FinalOf(m, g, o)];
      NewFinal(m, a, g, o);
    }
    forall f | f in m'.finals ensures FinalOk(f, Record(m').published, Record(m').history) {
      FinalStays(f, m, Record(m'));
    }
  }

  /** Handing a token over reports nothing and touches no lease. */
  lemma MoveChangesNoLease(s: State, a: nat, c: Choice)
    requires P.Inv(s) && Get(s, a).at.BothTokens? && c.MoveTx?
    ensures var t := Exec(s, a, c);
            && t.mem.finals == s.mem.finals && t.mem.published == s.mem.published && s.mem.history <= t.mem.history
            && t.mem.tx.epoch == s.mem.tx.epoch
            && forall b: nat :: Leasing(Get(t, b).at) || Confirming(Get(t, b).at) ==> Get(t, b) == Get(s, b)
  {
  }

  lemma LaterLease(m: Mem, m': Mem, g: Agent)
    requires LeaseOk(m, g) && m.history <= m'.history && m'.tx.epoch == m.tx.epoch
    ensures LeaseOk(m', g)
  {
  }

  lemma MoveKeeps(s: State, a: nat, c: Choice)
    requires ReportInv(s) && Get(s, a).at.BothTokens? && c.MoveTx?
    ensures ReportInv(Exec(s, a, c))
  {
    P.ExecOk(s, a, c);
    MoveChangesNoLease(s, a, c);
    hide P.Inv, Exec;
    var t := Exec(s, a, c);
    forall f | f in t.mem.finals ensures FinalOk(f, t.mem.published, t.mem.history) {
      FinalStays(f, s.mem, t.mem);
    }
    forall b: nat ensures LeaseOk(t.mem, Get(t, b)) {
      if Leasing(Get(t, b).at) || Confirming(Get(t, b).at) {
        LaterLease(s.mem, t.mem, Get(s, b));
      }
    }
  }

  lemma InitKeeps(size: nat)
    ensures ReportInv(Init(size))
  {
    P.InitOk(size);
  }

  lemma {:induction false} RunKeeps(s: State, schedule: seq<(nat, Choice)>)
    requires ReportInv(s)
    ensures ReportInv(Run(s, schedule))
    decreases |schedule|
  {
    if schedule != [] {
      hide ReportInv, Exec;
      var a, c := schedule[0].0, schedule[0].1;
      if Get(s, a).at.BothTokens? && c.MoveTx? {
        MoveKeeps(s, a, c);
      } else {
        LocalKeeps(s, a, c);
      }
      RunKeeps(Exec(s, a, c), schedule[1..]);
    }
  }

  // -------------------------------------------------------------- theorems

  /** A frame is reported `Submitted` or `Dropped` only by a lease of the frame's
      own epoch, and the link was up in that epoch at an instant after the lease
      had claimed the frame and not after the report. Neither report says
      anything about the link at the report itself. */
  lemma FinalReportsAreBacked(size: nat, schedule: seq<(nat, Choice)>)
    ensures var m := Run(Init(size), schedule).mem;
            forall f | f in m.finals ::
              && (f.outcome == Submitted || f.outcome == Dropped)
              && f.frame < |m.published| && m.published[f.frame].epoch == f.epoch
              && f.claimed < f.leased <= f.reported < |m.history| && m.history[f.leased] == Link(true, f.epoch)
  {
    InitKeeps(size);
    RunKeeps(Init(size), schedule);
  }

  /** A lease gives its frame back to the queue, on `WouldBlock` or when it is
      dropped, only as a frame of the lease's epoch, and only if the link was up
      in that epoch at an instant inside the call. */
  lemma ReturnedFramesAreCurrent(size: nat, schedule: seq<(nat, Choice)>, a: nat)
    requires Get(Run(Init(size), schedule), a).at == Returning(ReturnReady)
    ensures var s := Run(Init(size), schedule);
            var m, g := s.mem, Get(s, a);
            && g.since <= g.seen < |m.history| && m.history[g.seen] == Link(true, g.e)
            && m.tx.frame.Some? && m.tx.frame.value < |m.published| && m.published[m.tx.frame.value].epoch == g.e
  {
    InitKeeps(size);
    RunKeeps(Init(size), schedule);
    hide Run, Init;
    InvFacts(Run(Init(size), schedule), a);
  }
}
