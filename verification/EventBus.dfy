/** Event reassembly over a bus that may fail (src/device.rs): what a failed
    read leaves behind, and exactly when reassembly survives it. */
module EventBus {
  import opened Bytes
  import opened DeviceTypes
  import opened EventQueue
  import opened Wrappers

  /** The bus during one call: how many operations succeed before one fails; how
      much of the failing one took effect (bytes of a read, or whether a register
      write landed); and whether it is a queue register read as garbage. */
  datatype Io = Sound | Failing(after: nat, arrived: nat, garbled: bool)

  predicate Fails(io: Io, operations: nat) {
    io.Failing? && io.after < operations
  }

  function Past(io: Io, operations: nat): Io
    requires !Fails(io, operations)
  {
    if io.Sound? then io else io.(after := io.after - operations)
  }

  /** Where a failed call was: on the pending event, or on a new one, whose first
      fragment it may have dequeued. */
  datatype Stage = Draining | Beginning(taken: bool)

  /** What a call does: a poll as over a sound bus, or what a failure leaves. */
  datatype Read<Id> =
    | Done(poll: Poll<Id>)
    | Broken(pending: Option<Pending<Id>>, scratch: seq<byte>, consumed: nat, released: seq<nat>, error: DeviceError,
             stage: Stage)

  function Consumed<Id>(r: Read<Id>): nat {
    if r.Done? then r.poll.consumed else r.consumed
  }

  function Gave<Id>(r: Read<Id>): seq<nat> {
    if r.Done? then r.poll.released else r.released
  }

  function Kept<Id>(r: Read<Id>): Option<Pending<Id>> {
    if r.Done? then r.poll.pending else r.pending
  }

  function Buffer<Id>(r: Read<Id>): seq<byte> {
    if r.Done? then r.poll.scratch else r.scratch
  }

  /** Only a bus error breaks a read, and a pending event is never complete. */
  predicate KeptOk<Id>(r: Read<Id>) {
    && (Kept(r).Some? ==> Kept(r).value.copied < Kept(r).value.declared)
    && (r.Broken? ==> r.error == Rpu || r.error == InvalidQueueMap)
  }

  /** One more fragment was taken before. */
  function AfterOne<Id>(released: seq<nat>, r: Read<Id>): Read<Id> {
    match r
    case Done(poll) => Done(After(released, poll))
    case Broken(_, _, consumed, later, _, _) => r.(consumed := consumed + 1, released := released + later)
  }

  function Count(b: bool): nat {
    if b then 1 else 0
  }

  /** The error of a failed queue register read. */
  function QueueError(io: Io): DeviceError {
    if io.Failing? && io.garbled then InvalidQueueMap else Rpu
  }

  /** The bus operations on one fragment: its queue register is read and written,
      `pieces` reads of memory follow, of which the last may fill `count` bytes
      of the caller's buffer from `into` on, and the fragment is given back if
      asked for. This is what is left when operation `io.after` fails. */
  function BrokenAt<Id>(io: Io, p: Option<Pending<Id>>, scratch: seq<byte>, x: Fragment, pieces: nat, resubmit: bool,
                        into: nat, count: nat, draining: bool): (r: Read<Id>)
    requires io.Failing? && into + count <= |scratch| && count <= |x.buffer|
    ensures r.Broken? && |r.scratch| == |scratch| && r.consumed <= 1 && r.pending == p
    ensures r.stage == if draining then Draining else Beginning(r.consumed == 1)
    ensures r.error == Rpu || r.error == InvalidQueueMap
  {
    var at, last := io.after, 1 + pieces;
    var taken := at > 1 || (at == 1 && io.arrived > 0);
    var filled := if at < last then 0 else if at == last then Min(io.arrived, count) else count;
    var back := at > last + 1 || (at == last + 1 && io.arrived > 0);
    Broken(p, Copy(scratch, into, x, filled), Count(taken), if back then Released(x, resubmit) else [],
           if at == 0 then QueueError(io) else Rpu, if draining then Draining else Beginning(taken))
  }

  /** `read_new_event`: besides the fragment itself its header is read first, and
      in the end the interrupt is acknowledged. */
  function BeginOver<Id>(f: nat, id: Id, scratch: seq<byte>, avail: seq<Fragment>, io: Io): (r: Read<Id>)
    requires LimitOk(f) && FragmentsOk(f, avail)
    ensures |Buffer(r)| == |scratch| && Consumed(r) <= |avail|
  {
    if avail == [] then
      if Fails(io, 1) then Broken(None, scratch, 0, [], QueueError(io), Beginning(false))
      else Done(Poll(None, scratch, 0, [], NothingYet))
    else
      var x := avail[0];
      var fits := HEADER_LEN <= Declared(x) <= |scratch|;
      var pieces := 1 + Count(fits);
      if Fails(io, 2 + pieces + Count(Resubmit(x)) + 1) then
        BrokenAt(io, None, scratch, x, pieces, Resubmit(x), 0, if fits then Min(f, Declared(x)) else 0, false)
      else Done(BeginEvent(f, id, scratch, x))
  }

  /** How many bus operations one fragment of a pending event takes. */
  function Operations<Id>(q: Pending<Id>): nat {
    2 + Count(!q.discard) + Count(q.resubmit)
  }

  /** A complete event is acknowledged and delivered, or, if it was discarded,
      followed by a new one. */
  function FinishOver<Id>(f: nat, stored: Pending<Id>, q: Pending<Id>, id: Id, scratch: seq<byte>, avail: seq<Fragment>,
                          io: Io): (r: Read<Id>)
    requires LimitOk(f) && FragmentsOk(f, avail) && (q.discard || q.declared <= |scratch|)
    ensures |Buffer(r)| == |scratch| && Consumed(r) <= |avail|
  {
    if Fails(io, 1) then Broken(Some(stored), scratch, 0, [], Rpu, Draining)
    else if q.discard then BeginOver(f, id, scratch, avail, Past(io, 1))
    else Done(Poll(None, scratch, 0, [], Whole(scratch[..q.declared])))
  }

  lemma FinishIgnoresCopied<Id>(f: nat, stored: Pending<Id>, q: Pending<Id>, next: Pending<Id>, id: Id,
                                scratch: seq<byte>, avail: seq<Fragment>, io: Io)
    requires LimitOk(f) && FragmentsOk(f, avail) && (q.discard || q.declared <= |scratch|)
    requires next == q.(copied := next.copied)
    ensures FinishOver(f, stored, q, id, scratch, avail, io) == FinishOver(f, stored, next, id, scratch, avail, io)
  {
  }

  /** `continue_pending_event`: fragments are taken until the event is complete
      or none is left, then the interrupt is acknowledged if any was. Until then
      the device keeps what it had `stored`. */
  function DrainOver<Id>(f: nat, stored: Pending<Id>, q: Pending<Id>, id: Id, scratch: seq<byte>, avail: seq<Fragment>,
                         io: Io, removed: bool): (r: Read<Id>)
    requires LimitOk(f) && FragmentsOk(f, avail) && PendingOk(Some(q), |scratch|) && stored.copied < stored.declared
    ensures |Buffer(r)| == |scratch| && Consumed(r) <= |avail|
    decreases |avail|
  {
    if avail == [] then
      if Fails(io, 1 + Count(removed)) then
        Broken(Some(stored), scratch, 0, [], if io.after == 0 then QueueError(io) else Rpu, Draining)
      else Done(Poll(Some(q), scratch, 0, [], NothingYet))
    else
      var x, count, operations := avail[0], Min(f, q.declared - q.copied), Operations(q);
      if Fails(io, operations) then
        BrokenAt(io, Some(stored), scratch, x, Count(!q.discard), q.resubmit, if q.discard then 0 else q.copied,
                 if q.discard then 0 else count, true)
      else
        var filled := if q.discard then scratch else Copy(scratch, q.copied, x, count);
        var released := Released(x, q.resubmit);
        if q.copied + count < q.declared then
          AfterOne(released, DrainOver(f, stored, q.(copied := q.copied + count), id, filled, avail[1..],
                                       Past(io, operations), true))
        else AfterOne(released, FinishOver(f, stored, q, id, filled, avail[1..], Past(io, operations)))
  }

  /** `try_read_event` on an operational device. */
  function ReadOver<Id(==)>(f: nat, p: Option<Pending<Id>>, id: Id, scratch: seq<byte>, avail: seq<Fragment>, io: Io)
    : (r: Read<Id>)
    requires LimitOk(f) && FragmentsOk(f, avail)
    requires p.Some? ==> p.value.copied < p.value.declared
    ensures |Buffer(r)| == |scratch| && Consumed(r) <= |avail|
  {
    if Changed(p, id, |scratch|) then Done(Poll(Discarding(p), scratch, 0, [], BufferChanged))
    else if p.None? then BeginOver(f, id, scratch, avail, io)
    else DrainOver(f, p.value, p.value, id, scratch, avail, io, false)
  }

  // ------------------------------------------------------------- without errors

  /** One unfolding of `DrainOver`. */
  lemma DrainOnce<Id>(f: nat, stored: Pending<Id>, q: Pending<Id>, id: Id, scratch: seq<byte>, x: Fragment,
                      rest: seq<Fragment>, io: Io, removed: bool, count: nat, filled: seq<byte>)
    requires LimitOk(f) && |x.buffer| >= f && FragmentsOk(f, rest) && PendingOk(Some(q), |scratch|)
    requires stored.copied < stored.declared
    requires count == Min(f, q.declared - q.copied)
    requires filled == if q.discard then scratch else Copy(scratch, q.copied, x, count)
    ensures FragmentsOk(f, [x] + rest)
    ensures var r, back, n := DrainOver(f, stored, q, id, scratch, [x] + rest, io, removed), Released(x, q.resubmit),
                              Operations(q);
            if Fails(io, n) then
              r == BrokenAt(io, Some(stored), scratch, x, Count(!q.discard), q.resubmit,
                            if q.discard then 0 else q.copied, if q.discard then 0 else count, true)
            else if q.copied + count < q.declared then
              var next := q.(copied := q.copied + count);
              r == AfterOne(back, DrainOver(f, stored, next, id, filled, rest, Past(io, n), true))
            else r == AfterOne(back, FinishOver(f, stored, q, id, filled, rest, Past(io, n)))
  {
    hide Copy, Released, BrokenAt, FinishOver;
    assert ([x] + rest)[1..] == rest;
  }

  lemma BeginIsAbsorb<Id>(f: nat, id: Id, scratch: seq<byte>, avail: seq<Fragment>, io: Io)
    requires LimitOk(f) && FragmentsOk(f, avail)
    ensures var r := BeginOver(f, id, scratch, avail, io);
            && (r.Done? ==> r.poll == Absorb(f, None, id, scratch, avail))
            && (io.Sound? ==> r.Done?)
  {
    hide BeginEvent, BrokenAt;
  }

  lemma {:induction false} DrainIsAbsorb<Id>(f: nat, stored: Pending<Id>, q: Pending<Id>, id: Id, scratch: seq<byte>,
                                             avail: seq<Fragment>, io: Io, removed: bool)
    requires LimitOk(f) && FragmentsOk(f, avail) && PendingOk(Some(q), |scratch|) && stored.copied < stored.declared
    ensures var r := DrainOver(f, stored, q, id, scratch, avail, io, removed);
            && (r.Done? ==> r.poll == Absorb(f, Some(q), id, scratch, avail))
            && (io.Sound? ==> r.Done?)
    decreases |avail|
  {
    if avail != [] {
      hide Copy, Released, BrokenAt, BeginOver, DrainOver, Absorb;
      var x, rest, count := avail[0], avail[1..], Min(f, q.declared - q.copied);
      var filled := if q.discard then scratch else Copy(scratch, q.copied, x, count);
      assert [x] + rest == avail;
      DrainOnce(f, stored, q, id, scratch, x, rest, io, removed, count, filled);
      AbsorbOnce(f, q, id, scratch, x, rest, count, filled);
      if !Fails(io, Operations(q)) {
        if q.copied + count < q.declared {
          var next := q.(copied := q.copied + count);
          DrainIsAbsorb(f, stored, next, id, filled, rest, Past(io, Operations(q)), true);
        } else if !Fails(io, Operations(q) + 1) && q.discard {
          BeginIsAbsorb(f, id, filled, rest, Past(Past(io, Operations(q)), 1));
        }
      }
    }
  }

  /** A call that reports no bus error did exactly what it does over a sound bus,
      and over a sound bus none is reported. */
  lemma DoneIsTryRead<Id>(f: nat, p: Option<Pending<Id>>, id: Id, scratch: seq<byte>, avail: seq<Fragment>, io: Io)
    requires LimitOk(f) && FragmentsOk(f, avail) && (p.Some? ==> p.value.copied < p.value.declared)
    ensures var r := ReadOver(f, p, id, scratch, avail, io);
            && (r.Done? ==> r.poll == TryRead(f, p, id, scratch, avail))
            && (io.Sound? ==> r.Done?)
  {
    hide BeginOver, DrainOver, Absorb;
    if p.None? {
      BeginIsAbsorb(f, id, scratch, avail, io);
    } else if !Changed(p, id, |scratch|) {
      DrainIsAbsorb(f, p.value, p.value, id, scratch, avail, io, false);
    }
  }

  // ------------------------------------------------------------ where it stops

  /** The buffers given back are those of the fragments taken, but perhaps not
      the last one. */
  ghost predicate GaveBack<Id>(f: nat, es: seq<Event>, at: Place, r: Read<Id>)
    requires EventsOk(f, es) && PlaceOk(es, at)
  {
    || Gave(r) == Returned(f, es, at, Consumed(r))
    || (Consumed(r) > 0 && Gave(r) == Returned(f, es, at, Consumed(r) - 1))
  }

  /** Where a failed call leaves a stream that it found at `at`, in the middle of
      an event, and what the device still holds. */
  ghost predicate Stopped<Id>(f: nat, es: seq<Event>, at: Place, stored: Pending<Id>, r: Read<Id>)
    requires EventsOk(f, es) && PlaceOk(es, at) && r.Broken?
  {
    && GaveBack(f, es, at, r)
    && var to := Forward(f, es, at, r.consumed);
    match r.stage
    case Draining =>
      r.pending == Some(stored)
      && (to == Place(at.n, at.j + r.consumed) || (r.consumed > 0 && to == Place(at.n + 1, 0)))
    case Beginning(taken) =>
      r.pending.None? && at.n < |es| && PlaceOk(es, Place(at.n + 1, 0))
      && BegunAt(es, at.n + 1, taken, to)
  }

  /** The stream at the start of event `n`, or past its first fragment. */
  ghost predicate BegunAt(es: seq<Event>, n: nat, taken: bool, to: Place) {
    if taken then n < |es| && to == Step(es, Place(n, 0)) else to == Place(n, 0)
  }

  lemma NothingTaken(f: nat, es: seq<Event>, at: Place)
    requires EventsOk(f, es) && PlaceOk(es, at)
    ensures Forward(f, es, at, 0) == at && Returned(f, es, at, 0) == []
  {
  }

  lemma BeginStops<Id>(f: nat, es: seq<Event>, at: Place, id: Id, scratch: seq<byte>, k: nat, io: Io)
    requires LimitOk(f) && EventsOk(f, es) && PlaceOk(es, at) && at.j == 0
    ensures FragmentsOk(f, Upcoming(f, es, at, k))
    ensures var r := BeginOver(f, id, scratch, Upcoming(f, es, at, k), io);
            r.Broken? ==>
              && r.pending.None? && r.stage.Beginning? && GaveBack(f, es, at, r)
              && BegunAt(es, at.n, r.stage.taken, Forward(f, es, at, r.consumed))
  {
    hide EventOk, Forward, Returned, Upcoming, Released, Copy, BeginEvent;
    UpcomingOk(f, es, at, k);
    NothingTaken(f, es, at);
    if Upcoming(f, es, at, k) != [] {
      UpcomingStep(f, es, at, k);
      ForwardOnce(f, es, at);
      ReturnedOnce(f, es, at);
    }
  }

  /** One fragment more in front of a stop. */
  lemma StoppedLater<Id>(f: nat, es: seq<Event>, at: Place, stored: Pending<Id>, inner: Read<Id>, back: seq<nat>)
    requires EventsOk(f, es) && PlaceOk(es, at) && at.n < |es| && inner.Broken? && PlaceOk(es, Step(es, at))
    requires back == Released(es[at.n].fragments[at.j], Resubmit(es[at.n].fragments[0]))
    requires if Step(es, at).n == at.n then Stopped(f, es, Step(es, at), stored, inner)
             else inner.pending.None? && inner.stage.Beginning? && GaveBack(f, es, Step(es, at), inner)
                  && BegunAt(es, at.n + 1, inner.stage.taken, Forward(f, es, Step(es, at), inner.consumed))
    ensures Stopped(f, es, at, stored, AfterOne(back, inner))
  {
    hide EventOk, Forward, Returned, Released;
    ForwardStep(f, es, at, inner.consumed);
    if inner.consumed > 0 {
      ForwardStep(f, es, at, inner.consumed - 1);
    }
  }

  lemma {:induction false} DrainStops<Id>(f: nat, es: seq<Event>, at: Place, stored: Pending<Id>, q: Pending<Id>,
                                          id: Id, scratch: seq<byte>, k: nat, io: Io, removed: bool)
    requires LimitOk(f) && EventsOk(f, es) && Aligned(f, es, at, Some(q)) && PendingOk(Some(q), |scratch|)
    requires Holding(f, es, at, Some(q), scratch) && stored.copied < stored.declared
    ensures PlaceOk(es, at) && FragmentsOk(f, Upcoming(f, es, at, k))
    ensures var r := DrainOver(f, stored, q, id, scratch, Upcoming(f, es, at, k), io, removed);
            r.Broken? ==> Stopped(f, es, at, stored, r)
    decreases k
  {
    hide EventOk, Forward, Returned, Upcoming, Released, Copy, Aligned, Holding, DrainOver, BeginOver, Stopped;
    AlignedPlace(f, es, at, Some(q));
    UpcomingOk(f, es, at, k);
    NothingTaken(f, es, at);
    var r := DrainOver(f, stored, q, id, scratch, Upcoming(f, es, at, k), io, removed);
    if Upcoming(f, es, at, k) == [] {
      DrainNone(f, es, at, stored, q, id, scratch, io, removed);
    } else {
      UpcomingStep(f, es, at, k);
      ForwardOnce(f, es, at);
      var count, filled := PendingStep(f, es, at, q, scratch);
      UpcomingOk(f, es, Step(es, at), k - 1);
      var x, rest := es[at.n].fragments[at.j], Upcoming(f, es, Step(es, at), k - 1);
      DrainOnce(f, stored, q, id, scratch, x, rest, io, removed, count, filled);
      AlignedResubmit(f, es, at, q);
      if Fails(io, Operations(q)) {
        StoppedHere(f, es, at, stored, r, x, q.resubmit);
      } else if q.copied + count < q.declared {
        var next := q.(copied := q.copied + count);
        DrainStops(f, es, Step(es, at), stored, next, id, filled, k - 1, Past(io, Operations(q)), true);
        var inner := DrainOver(f, stored, next, id, filled, rest, Past(io, Operations(q)), true);
        if inner.Broken? {
          StoppedLater(f, es, at, stored, inner, Released(x, q.resubmit));
        }
      } else if Fails(io, Operations(q) + 1) {
        StoppedHere(f, es, at, stored, r, x, q.resubmit);
      } else if q.discard {
        var later := Past(Past(io, Operations(q)), 1);
        BeginStops(f, es, Step(es, at), id, filled, k - 1, later);
        var inner := BeginOver(f, id, filled, rest, later);
        if inner.Broken? {
          StoppedLater(f, es, at, stored, inner, Released(x, q.resubmit));
        }
      }
    }
  }

  lemma AlignedResubmit<Id>(f: nat, es: seq<Event>, at: Place, q: Pending<Id>)
    requires EventsOk(f, es) && Aligned(f, es, at, Some(q))
    ensures at.n < |es| && |es[at.n].fragments[0].buffer| >= HEADER_LEN && q.resubmit == Resubmit(es[at.n].fragments[0])
  {
    OkFacts(f, es[at.n]);
  }

  lemma DrainNone<Id>(f: nat, es: seq<Event>, at: Place, stored: Pending<Id>, q: Pending<Id>, id: Id,
                      scratch: seq<byte>, io: Io, removed: bool)
    requires LimitOk(f) && EventsOk(f, es) && PlaceOk(es, at) && PendingOk(Some(q), |scratch|)
    requires stored.copied < stored.declared
    ensures var r := DrainOver(f, stored, q, id, scratch, [], io, removed); r.Broken? ==> Stopped(f, es, at, stored, r)
  {
    NothingTaken(f, es, at);
  }

  lemma StoppedHere<Id>(f: nat, es: seq<Event>, at: Place, stored: Pending<Id>, r: Read<Id>, x: Fragment,
                        resubmit: bool)
    requires EventsOk(f, es) && PlaceOk(es, at) && at.n < |es| && x == es[at.n].fragments[at.j]
    requires |es[at.n].fragments[0].buffer| >= HEADER_LEN && resubmit == Resubmit(es[at.n].fragments[0])
    requires r.Broken? && r.pending == Some(stored) && r.stage == Draining && r.consumed <= 1
    requires r.released == [] || (r.consumed == 1 && r.released == Released(x, resubmit))
    ensures Stopped(f, es, at, stored, r)
  {
    hide EventOk, Forward, Returned, Released;
    NothingTaken(f, es, at);
    ForwardOnce(f, es, at);
    ReturnedOnce(f, es, at);
  }

  // ------------------------------------------------------- what survives it

  /** The event that a call begins once the pending one has ended. */
  function Opened<Id>(p: Option<Pending<Id>>, at: Place): nat {
    if p.None? then at.n else at.n + 1
  }

  /** A failure is harmless if the call had dequeued nothing of the pending event,
      or was past it and had dequeued nothing more, or only an event of a single
      fragment, which is then lost whole. */
  ghost predicate Harmless<Id>(es: seq<Event>, at: Place, p: Option<Pending<Id>>, r: Read<Id>) {
    r.Broken? ==>
      match r.stage
      case Draining => r.consumed == 0
      case Beginning(taken) => taken ==> Opened(p, at) < |es| && |es[Opened(p, at)].fragments| == 1
  }

  lemma {:induction false} CarriedGrows(f: nat, e: Event, j: nat, k: nat)
    requires EventOk(f, e) && 0 < j < k < |e.fragments|
    ensures Carried(f, Length(f, e), j) < Carried(f, Length(f, e), k)
  {
    NextCarried(f, e, k - 1);
    if j < k - 1 {
      CarriedGrows(f, e, j, k - 1);
    }
  }

  /** A pending event that is as it was does not fit a stream that has moved. */
  lemma MovedIsMisaligned<Id>(f: nat, es: seq<Event>, at: Place, q: Pending<Id>, to: Place)
    requires EventsOk(f, es) && Aligned(f, es, at, Some(q)) && to != at && PlaceOk(es, to)
    requires (to.n == at.n && to.j > at.j) || to == Place(at.n + 1, 0)
    ensures !Aligned(f, es, to, Some(q))
  {
    hide Carried, EventOk;
    if to.n == at.n && Aligned(f, es, to, Some(q)) {
      assert EventOk(f, es[at.n]);
      CarriedGrows(f, es[at.n], at.j, to.j);
      assert false;
    }
  }

  lemma BegunIsAligned<Id>(f: nat, es: seq<Event>, n: nat, taken: bool, to: Place)
    requires EventsOk(f, es) && PlaceOk(es, Place(n, 0)) && BegunAt(es, n, taken, to)
    ensures PlaceOk(es, to)
    ensures Aligned<Id>(f, es, to, None) <==> (taken ==> |es[n].fragments| == 1)
  {
    hide Carried;
    assert taken && n + 1 < |es| ==> EventOk(f, es[n + 1]);
  }

  /** Nothing dequeued, nothing changed. */
  lemma UntouchedBuffer<Id>(f: nat, q: Pending<Id>, id: Id, scratch: seq<byte>, avail: seq<Fragment>, io: Io)
    requires LimitOk(f) && FragmentsOk(f, avail) && PendingOk(Some(q), |scratch|)
    ensures var r := DrainOver(f, q, q, id, scratch, avail, io, false);
            r.Broken? && r.stage == Draining && r.consumed == 0 ==> r.scratch == scratch
  {
    if avail != [] {
      hide Copy, Released, BrokenAt, BeginOver, DrainOver;
      var count := Min(f, q.declared - q.copied);
      var filled := if q.discard then scratch else Copy(scratch, q.copied, avail[0], count);
      assert [avail[0]] + avail[1..] == avail;
      DrainOnce(f, q, q, id, scratch, avail[0], avail[1..], io, false, count, filled);
      if Fails(io, Operations(q)) {
        BrokenEarly(io, Some(q), scratch, avail[0], Count(!q.discard), q.resubmit, if q.discard then 0 else q.copied,
                    if q.discard then 0 else count);
      }
    }
  }

  lemma BrokenEarly<Id>(io: Io, p: Option<Pending<Id>>, scratch: seq<byte>, x: Fragment, pieces: nat, resubmit: bool,
                        into: nat, count: nat)
    requires io.Failing? && into + count <= |scratch| && count <= |x.buffer| && (pieces == 0 ==> count == 0)
    ensures var r := BrokenAt(io, p, scratch, x, pieces, resubmit, into, count, true);
            r.consumed == 0 ==> r.scratch == scratch
  {
  }

  /** After a read the device and the stream agree again exactly if the failure,
      if there was one, is harmless. */
  lemma SurvivesExactly<Id>(f: nat, es: seq<Event>, at: Place, p: Option<Pending<Id>>, id: Id, scratch: seq<byte>,
                            k: nat, io: Io)
    requires LimitOk(f) && EventsOk(f, es) && Aligned(f, es, at, p)
    requires !Changed(p, id, |scratch|) ==> Holding(f, es, at, p, scratch)
    ensures PlaceOk(es, at) && FragmentsOk(f, Upcoming(f, es, at, k)) && (p.Some? ==> p.value.copied < p.value.declared)
    ensures var r := ReadOver(f, p, id, scratch, Upcoming(f, es, at, k), io);
            var to := Forward(f, es, at, Consumed(r));
            && (Aligned(f, es, to, Kept(r)) <==> Harmless(es, at, p, r))
            && (Harmless(es, at, p, r) ==> Holding(f, es, to, Kept(r), Buffer(r)))
            && GaveBack(f, es, at, r)
  {
    hide EventOk, Forward, Returned, Upcoming, Released, Copy, DrainOver, BeginOver, Aligned, Holding, Absorb;
    AlignedPlace(f, es, at, p);
    UpcomingOk(f, es, at, k);
    AlignedCopied(f, es, at, p);
    NothingTaken(f, es, at);
    var avail := Upcoming(f, es, at, k);
    var r := ReadOver(f, p, id, scratch, avail, io);
    if Changed(p, id, |scratch|) {
      ChangedIsAligned(f, es, at, p, scratch);
    } else if r.Done? {
      DoneIsTryRead(f, p, id, scratch, avail, io);
      AbsorbIsExact(f, es, at, p, id, scratch, k);
    } else if p.None? {
      BeginStops(f, es, at, id, scratch, k, io);
      BegunIsAligned<Id>(f, es, at.n, r.stage.taken, Forward(f, es, at, r.consumed));
      NoneHeld<Id>(f, es, Forward(f, es, at, r.consumed), r.scratch);
    } else {
      DrainStops(f, es, at, p.value, p.value, id, scratch, k, io, false);
      UntouchedBuffer(f, p.value, id, scratch, avail, io);
      StoppedIsAligned(f, es, at, p.value, r, scratch);
    }
  }

  /** Device and stream agree after a read over `io`. */
  ghost predicate Survives<Id>(f: nat, es: seq<Event>, at: Place, p: Option<Pending<Id>>, id: Id, scratch: seq<byte>,
                               k: nat, io: Io)
    requires LimitOk(f) && EventsOk(f, es) && PlaceOk(es, at) && FragmentsOk(f, Upcoming(f, es, at, k))
    requires p.Some? ==> p.value.copied < p.value.declared
  {
    var r := ReadOver(f, p, id, scratch, Upcoming(f, es, at, k), io);
    Aligned(f, es, Forward(f, es, at, Consumed(r)), Kept(r))
  }

  /** Before a read: no fragment would be taken, or with no event pending the next
      one is a single fragment. */
  ghost predicate Robust<Id>(f: nat, es: seq<Event>, at: Place, p: Option<Pending<Id>>, id: Id, capacity: nat, k: nat)
    requires EventsOk(f, es) && PlaceOk(es, at)
  {
    Changed(p, id, capacity) || Upcoming(f, es, at, k) == [] || (p.None? && |es[at.n].fragments| == 1)
  }

  /** The second operation of a read takes the first fragment, and fails. */
  lemma FirstTakenBreaks<Id>(f: nat, es: seq<Event>, at: Place, p: Option<Pending<Id>>, id: Id, scratch: seq<byte>,
                             k: nat)
    requires LimitOk(f) && EventsOk(f, es) && PlaceOk(es, at) && FragmentsOk(f, Upcoming(f, es, at, k))
    requires p.Some? ==> p.value.copied < p.value.declared
    requires !Robust(f, es, at, p, id, |scratch|, k)
    ensures var r := ReadOver(f, p, id, scratch, Upcoming(f, es, at, k), Failing(1, 1, false));
            !Harmless(es, at, p, r)
  {
    hide EventOk, Copy, Released;
    UpcomingOk(f, es, at, k);
    assert p.None? ==> at.n < |es| && |es[at.n].fragments| != 1;
  }

  lemma RobustIsHarmless<Id>(f: nat, es: seq<Event>, at: Place, p: Option<Pending<Id>>, id: Id, scratch: seq<byte>,
                             k: nat, io: Io)
    requires LimitOk(f) && EventsOk(f, es) && PlaceOk(es, at) && FragmentsOk(f, Upcoming(f, es, at, k))
    requires p.Some? ==> p.value.copied < p.value.declared
    requires Robust(f, es, at, p, id, |scratch|, k)
    ensures Harmless(es, at, p, ReadOver(f, p, id, scratch, Upcoming(f, es, at, k), io))
  {
    hide EventOk, Copy, Released;
    UpcomingOk(f, es, at, k);
  }

  /** Before a read it can be said whether a bus error may do harm: device and
      stream agree afterwards whatever the bus does, if and only if no fragment
      is ready, or no event is pending and the next one is a single fragment. */
  lemma SurvivesEveryError<Id>(f: nat, es: seq<Event>, at: Place, p: Option<Pending<Id>>, id: Id, scratch: seq<byte>,
                               k: nat)
    requires LimitOk(f) && EventsOk(f, es) && Aligned(f, es, at, p)
    requires !Changed(p, id, |scratch|) ==> Holding(f, es, at, p, scratch)
    ensures PlaceOk(es, at) && FragmentsOk(f, Upcoming(f, es, at, k)) && (p.Some? ==> p.value.copied < p.value.declared)
    ensures (forall io :: Survives(f, es, at, p, id, scratch, k, io)) <==> Robust(f, es, at, p, id, |scratch|, k)
  {
    hide EventOk, Forward, Upcoming, ReadOver, Aligned, Holding, Harmless, Robust;
    AlignedPlace(f, es, at, p);
    UpcomingOk(f, es, at, k);
    AlignedCopied(f, es, at, p);
    if Robust(f, es, at, p, id, |scratch|, k) {
      forall io ensures Survives(f, es, at, p, id, scratch, k, io) {
        RobustIsHarmless(f, es, at, p, id, scratch, k, io);
        SurvivesExactly(f, es, at, p, id, scratch, k, io);
      }
    } else {
      FirstTakenBreaks(f, es, at, p, id, scratch, k);
      SurvivesExactly(f, es, at, p, id, scratch, k, Failing(1, 1, false));
      assert !Survives(f, es, at, p, id, scratch, k, Failing(1, 1, false));
    }
  }

  lemma AlignedCopied<Id>(f: nat, es: seq<Event>, at: Place, p: Option<Pending<Id>>)
    requires EventsOk(f, es) && Aligned(f, es, at, p)
    ensures p.Some? ==> at.n < |es| && p.value.copied < p.value.declared
  {
    if p.Some? {
      NextCarried(f, es[at.n], at.j);
    }
  }

  lemma NoneHeld<Id>(f: nat, es: seq<Event>, at: Place, scratch: seq<byte>)
    requires EventsOk(f, es)
    ensures Aligned<Id>(f, es, at, None) ==> Holding<Id>(f, es, at, None, scratch)
  {
  }

  lemma ChangedIsAligned<Id>(f: nat, es: seq<Event>, at: Place, p: Option<Pending<Id>>, scratch: seq<byte>)
    requires EventsOk(f, es) && Aligned(f, es, at, p)
    ensures Aligned(f, es, at, Discarding(p)) && Holding(f, es, at, Discarding(p), scratch)
  {
  }

  lemma StoppedIsAligned<Id>(f: nat, es: seq<Event>, at: Place, q: Pending<Id>, r: Read<Id>, scratch: seq<byte>)
    requires EventsOk(f, es) && Aligned(f, es, at, Some(q)) && Holding(f, es, at, Some(q), scratch) && r.Broken?
    requires PlaceOk(es, at) && Stopped(f, es, at, q, r)
    requires r.stage == Draining && r.consumed == 0 ==> r.scratch == scratch
    ensures var to := Forward(f, es, at, r.consumed);
            && (Aligned(f, es, to, r.pending) <==> Harmless(es, at, Some(q), r))
            && (Harmless(es, at, Some(q), r) ==> Holding(f, es, to, r.pending, r.scratch))
  {
    hide EventOk, Forward, Returned, Aligned, Holding;
    var to := Forward(f, es, at, r.consumed);
    match r.stage
    case Draining =>
      if r.consumed > 0 {
        MovedIsMisaligned(f, es, at, q, to);
      }
    case Beginning(taken) =>
      BegunIsAligned<Id>(f, es, at.n + 1, taken, to);
      NoneHeld<Id>(f, es, to, r.scratch);
  }

  // --------------------------------------------------------------------- runs

  /** A read over a bus, or a request to discard the pending event. */
  datatype BusCall = BusCall(call: EventCall, io: Io)

  /** What the device holds, the buffer after the last read, and firmware's place
      in the stream. */
  datatype Track = Track(pending: Option<Pending<nat>>, held: seq<byte>, at: Place)

  const START := Track(None, [], Place(0, 0))

  ghost predicate TrackOk(f: nat, es: seq<Event>, t: Track) {
    && LimitOk(f) && EventsOk(f, es) && PlaceOk(es, t.at)
    && (t.pending.Some? ==> t.pending.value.copied < t.pending.value.declared)
  }

  /** What a read returns. */
  ghost function Returns(f: nat, es: seq<Event>, t: Track, c: BusCall): Read<nat>
    requires TrackOk(f, es, t) && c.call.ReadEvent?
  {
    UpcomingOk(f, es, t.at, c.call.ready);
    ReadOver(f, t.pending, c.call.id, c.call.scratch, Upcoming(f, es, t.at, c.call.ready), c.io)
  }

  ghost function NextTrack(f: nat, es: seq<Event>, t: Track, c: BusCall): Track
    requires TrackOk(f, es, t)
  {
    match c.call
    case DiscardEvent => t.(pending := Discarding(t.pending))
    case ReadEvent(_, _, _) =>
      var r := Returns(f, es, t, c);
      Track(Kept(r), Buffer(r), Forward(f, es, t.at, Consumed(r)))
  }

  /** The caller leaves the pending event's bytes alone. */
  predicate Untouched(t: Track, c: EventCall) {
    c.ReadEvent? && t.pending.Some? && !Changed(t.pending, c.id, |c.scratch|) && !t.pending.value.discard ==>
      var n := t.pending.value.copied;
      n <= |c.scratch| && n <= |t.held| && c.scratch[..n] == t.held[..n]
  }

  ghost predicate HarmlessCall(f: nat, es: seq<Event>, t: Track, c: BusCall)
    requires TrackOk(f, es, t)
  {
    c.call.ReadEvent? ==> Harmless(es, t.at, t.pending, Returns(f, es, t, c))
  }

  ghost predicate BusRun(f: nat, es: seq<Event>, calls: seq<BusCall>, ts: seq<Track>) {
    && |ts| == |calls| + 1 && ts[0] == START
    && forall i | 0 <= i < |calls| ::
         TrackOk(f, es, ts[i]) && Untouched(ts[i], calls[i].call) && ts[i + 1] == NextTrack(f, es, ts[i], calls[i])
  }

  /** The device agrees with the stream, and the buffer with both. */
  ghost predicate InStep(f: nat, es: seq<Event>, t: Track)
    requires EventsOk(f, es)
  {
    Aligned(f, es, t.at, t.pending) && Holding(f, es, t.at, t.pending, t.held)
  }

  lemma HeldByCaller(f: nat, es: seq<Event>, t: Track, c: EventCall)
    requires EventsOk(f, es) && InStep(f, es, t) && Untouched(t, c) && c.ReadEvent?
    ensures !Changed(t.pending, c.id, |c.scratch|) ==> Holding(f, es, t.at, t.pending, c.scratch)
  {
  }

  /** One call keeps device and stream in step exactly if it is harmless; and a
      read that reports no bus error accounts for every event it passes. */
  lemma StaysInStep(f: nat, es: seq<Event>, t: Track, c: BusCall)
    requires TrackOk(f, es, t) && InStep(f, es, t) && Untouched(t, c.call)
    ensures var u := NextTrack(f, es, t, c);
            && (Aligned(f, es, u.at, u.pending) <==> HarmlessCall(f, es, t, c))
            && (HarmlessCall(f, es, t, c) ==> InStep(f, es, u))
  {
    hide EventOk, Forward, Returned, Upcoming, ReadOver, Harmless;
    match c.call
    case DiscardEvent => DiscardInStep(f, es, t);
    case ReadEvent(id, scratch, ready) =>
      HeldByCaller(f, es, t, c.call);
      SurvivesExactly(f, es, t.at, t.pending, id, scratch, ready, c.io);
  }

  lemma DiscardInStep(f: nat, es: seq<Event>, t: Track)
    requires EventsOk(f, es) && InStep(f, es, t)
    ensures InStep(f, es, t.(pending := Discarding(t.pending)))
  {
  }

  lemma {:induction false} DrainKeptOk<Id>(f: nat, stored: Pending<Id>, q: Pending<Id>, id: Id, scratch: seq<byte>,
                                           avail: seq<Fragment>, io: Io, removed: bool)
    requires LimitOk(f) && FragmentsOk(f, avail) && PendingOk(Some(q), |scratch|) && stored.copied < stored.declared
    ensures KeptOk(DrainOver(f, stored, q, id, scratch, avail, io, removed))
    decreases |avail|
  {
    if avail != [] {
      hide Copy, Released, BrokenAt, BeginOver, DrainOver;
      var x, rest, count := avail[0], avail[1..], Min(f, q.declared - q.copied);
      var filled := if q.discard then scratch else Copy(scratch, q.copied, x, count);
      assert [x] + rest == avail;
      DrainOnce(f, stored, q, id, scratch, x, rest, io, removed, count, filled);
      if !Fails(io, Operations(q)) {
        if q.copied + count < q.declared {
          var next := q.(copied := q.copied + count);
          DrainKeptOk(f, stored, next, id, filled, rest, Past(io, Operations(q)), true);
        } else if !Fails(io, Operations(q) + 1) && q.discard {
          BeginKeptOk(f, id, filled, rest, Past(Past(io, Operations(q)), 1));
        }
      }
    }
  }

  lemma BeginKeptOk<Id>(f: nat, id: Id, scratch: seq<byte>, avail: seq<Fragment>, io: Io)
    requires LimitOk(f) && FragmentsOk(f, avail)
    ensures KeptOk(BeginOver(f, id, scratch, avail, io))
  {
    hide BrokenAt, Copy;
  }

  lemma ReadKeptOk<Id>(f: nat, p: Option<Pending<Id>>, id: Id, scratch: seq<byte>, avail: seq<Fragment>, io: Io)
    requires LimitOk(f) && FragmentsOk(f, avail) && (p.Some? ==> p.value.copied < p.value.declared)
    ensures KeptOk(ReadOver(f, p, id, scratch, avail, io))
  {
    hide DrainOver, BeginOver;
    if p.None? {
      BeginKeptOk(f, id, scratch, avail, io);
    } else if !Changed(p, id, |scratch|) {
      DrainKeptOk(f, p.value, p.value, id, scratch, avail, io, false);
    }
  }

  /** Every call is possible after every other, whatever went wrong. */
  lemma TrackStaysOk(f: nat, es: seq<Event>, t: Track, c: BusCall)
    requires TrackOk(f, es, t)
    ensures TrackOk(f, es, NextTrack(f, es, t, c))
  {
    hide ReadOver, Forward, Upcoming, EventOk;
    if c.call.ReadEvent? {
      UpcomingOk(f, es, t.at, c.call.ready);
      ReadKeptOk(f, t.pending, c.call.id, c.call.scratch, Upcoming(f, es, t.at, c.call.ready), c.io);
    }
  }

  /** Up to call `k` every bus error was harmless. */
  ghost predicate NoHarm(f: nat, es: seq<Event>, calls: seq<BusCall>, ts: seq<Track>, k: nat)
    requires BusRun(f, es, calls, ts) && k <= |calls|
  {
    forall i | 0 <= i < k :: HarmlessCall(f, es, ts[i], calls[i])
  }

  ghost predicate AlignedSoFar(f: nat, es: seq<Event>, ts: seq<Track>, k: nat)
    requires EventsOk(f, es) && k < |ts|
  {
    forall i | 0 <= i <= k :: Aligned(f, es, ts[i].at, ts[i].pending)
  }

  lemma RunStep(f: nat, es: seq<Event>, calls: seq<BusCall>, ts: seq<Track>, k: nat)
    requires BusRun(f, es, calls, ts) && 0 < k <= |calls|
    ensures TrackOk(f, es, ts[k - 1]) && Untouched(ts[k - 1], calls[k - 1].call)
    ensures ts[k] == NextTrack(f, es, ts[k - 1], calls[k - 1])
    ensures NoHarm(f, es, calls, ts, k) <==>
            NoHarm(f, es, calls, ts, k - 1) && HarmlessCall(f, es, ts[k - 1], calls[k - 1])
    ensures AlignedSoFar(f, es, ts, k) <==> AlignedSoFar(f, es, ts, k - 1) && Aligned(f, es, ts[k].at, ts[k].pending)
  {
    hide EventOk, Harmless, Returns, Untouched, Aligned, Forward;
    assert TrackOk(f, es, ts[k - 1]) && ts[(k - 1) + 1] == NextTrack(f, es, ts[k - 1], calls[k - 1]);
  }

  /** Over every run of reads and discards, with bus errors anywhere: device and
      firmware agree on where every event begins if and only if every bus error
      so far was harmless. */
  lemma {:induction false} AlignedExactlyWithoutHarm(f: nat, es: seq<Event>, calls: seq<BusCall>, ts: seq<Track>,
                                                       k: nat)
    requires LimitOk(f) && EventsOk(f, es) && BusRun(f, es, calls, ts) && k <= |calls|
    ensures AlignedSoFar(f, es, ts, k) <==> NoHarm(f, es, calls, ts, k)
    ensures NoHarm(f, es, calls, ts, k) ==> InStep(f, es, ts[k])
    decreases k
  {
    if k == 0 {
      StartOk(f, es);
    } else {
      AlignedExactlyWithoutHarm(f, es, calls, ts, k - 1);
      RunStep(f, es, calls, ts, k);
      hide EventOk, NextTrack, HarmlessCall, Untouched, InStep, TrackOk, Aligned, NoHarm, AlignedSoFar, BusRun;
      if NoHarm(f, es, calls, ts, k - 1) {
        StaysInStep(f, es, ts[k - 1], calls[k - 1]);
      }
    }
  }

  /** As long as no bus error was harmful, a read without one is exact: whole
      events byte for byte, and every event it passes accounted for. */
  lemma ReadsAreExact(f: nat, es: seq<Event>, calls: seq<BusCall>, ts: seq<Track>, k: nat)
    requires LimitOk(f) && EventsOk(f, es) && BusRun(f, es, calls, ts) && k < |calls|
    requires NoHarm(f, es, calls, ts, k)
    requires calls[k].call.ReadEvent? && !Changed(ts[k].pending, calls[k].call.id, |calls[k].call.scratch|)
    requires Returns(f, es, ts[k], calls[k]).Done?
    ensures Exact(f, es, ts[k].at, ts[k].pending, Returns(f, es, ts[k], calls[k]).poll, ts[k + 1].at,
                  |calls[k].call.scratch|)
  {
    hide EventOk, Forward, Returned, Upcoming, ReadOver, Aligned, Holding, Exact, Absorb;
    AlignedExactlyWithoutHarm(f, es, calls, ts, k);
    var t, c := ts[k], calls[k];
    HeldByCaller(f, es, t, c.call);
    UpcomingOk(f, es, t.at, c.call.ready);
    var avail := Upcoming(f, es, t.at, c.call.ready);
    DoneIsTryRead(f, t.pending, c.call.id, c.call.scratch, avail, c.io);
    AlignedPlace(f, es, t.at, t.pending);
    AlignedCopied(f, es, t.at, t.pending);
    AbsorbIsExact(f, es, t.at, t.pending, c.call.id, c.call.scratch, c.call.ready);
  }

  /** The state before a read in which no bus error does harm. */
  ghost predicate RobustCall(f: nat, es: seq<Event>, t: Track, c: EventCall)
    requires TrackOk(f, es, t) && c.ReadEvent?
  {
    Robust(f, es, t.at, t.pending, c.id, |c.scratch|, c.ready)
  }

  /** Every bus error before call `k` was met in such a state. */
  ghost predicate OnlyRobustErrors(f: nat, es: seq<Event>, calls: seq<BusCall>, ts: seq<Track>, k: nat)
    requires BusRun(f, es, calls, ts) && k <= |calls|
  {
    forall i | 0 <= i < k ::
      calls[i].call.ReadEvent? && Returns(f, es, ts[i], calls[i]).Broken? ==> RobustCall(f, es, ts[i], calls[i].call)
  }

  lemma RobustCallIsHarmless(f: nat, es: seq<Event>, t: Track, c: BusCall)
    requires TrackOk(f, es, t)
    requires c.call.ReadEvent? && Returns(f, es, t, c).Broken? ==> RobustCall(f, es, t, c.call)
    ensures HarmlessCall(f, es, t, c)
  {
    hide EventOk, Upcoming, ReadOver, Robust;
    if c.call.ReadEvent? && Returns(f, es, t, c).Broken? {
      UpcomingOk(f, es, t.at, c.call.ready);
      RobustIsHarmless(f, es, t.at, t.pending, c.call.id, c.call.scratch, c.call.ready, c.io);
    }
  }

  /** Over every run: if bus errors were met only where no fragment was ready, or
      with no event pending before one of a single fragment, then device and
      firmware agreed throughout and still do. */
  lemma RobustErrorsKeepAligned(f: nat, es: seq<Event>, calls: seq<BusCall>, ts: seq<Track>, k: nat)
    requires LimitOk(f) && EventsOk(f, es) && BusRun(f, es, calls, ts) && k <= |calls|
    requires OnlyRobustErrors(f, es, calls, ts, k)
    ensures NoHarm(f, es, calls, ts, k) && AlignedSoFar(f, es, ts, k) && InStep(f, es, ts[k])
  {
    hide EventOk, NextTrack, HarmlessCall, InStep, AlignedSoFar, RobustCall, Returns;
    forall i | 0 <= i < k ensures HarmlessCall(f, es, ts[i], calls[i]) {
      RobustCallIsHarmless(f, es, ts[i], calls[i]);
    }
    AlignedExactlyWithoutHarm(f, es, calls, ts, k);
  }

  /** In a run without harm so far, the next read is safe from every bus error if
      and only if it is in such a state. */
  lemma NextReadSurvives(f: nat, es: seq<Event>, calls: seq<BusCall>, ts: seq<Track>, k: nat)
    requires LimitOk(f) && EventsOk(f, es) && BusRun(f, es, calls, ts) && k < |calls|
    requires NoHarm(f, es, calls, ts, k) && calls[k].call.ReadEvent?
    ensures (forall io :: var u := NextTrack(f, es, ts[k], BusCall(calls[k].call, io)); Aligned(f, es, u.at, u.pending))
            <==> RobustCall(f, es, ts[k], calls[k].call)
  {
    hide EventOk, Forward, Upcoming, ReadOver, Aligned, Holding, Robust;
    AlignedExactlyWithoutHarm(f, es, calls, ts, k);
    var t, c := ts[k], calls[k].call;
    HeldByCaller(f, es, t, c);
    SurvivesEveryError(f, es, t.at, t.pending, c.id, c.scratch, c.ready);
    forall io
      ensures var u := NextTrack(f, es, t, BusCall(c, io));
              Aligned(f, es, u.at, u.pending) <==> Survives(f, es, t.at, t.pending, c.id, c.scratch, c.ready, io)
    {
    }
  }

  // ----------------------------------------------------------- a harmful error

  /** An event of three fragments of which one has been read. */
  ghost predicate Interrupted<Id>(f: nat, e: Event, q: Pending<Id>, id: Id, scratch: seq<byte>)
    requires EventOk(f, e)
  {
    && |e.fragments| == 3 && Length(f, e) <= |scratch| && f <= |scratch|
    && q == Pending(Length(f, e), f, Resubmit(e.fragments[0]), false, Some(id))
    && scratch[..f] == e.fragments[0].buffer[..f]
  }

  lemma ThreeFragments(f: nat, e: Event)
    requires EventOk(f, e) && LimitOk(f) && |e.fragments| == 3
    ensures 2 * f < Length(f, e) <= 3 * f
  {
    assert Carried(f, Length(f, e), 1) == Min(f, Length(f, e));
    assert Carried(f, Length(f, e), 2) < Length(f, e);
    assert Carried(f, Length(f, e), 3) == Length(f, e);
  }

  /** One fragment is read and the acknowledgement fails. */
  lemma AcknowledgementFails<Id>(f: nat, q: Pending<Id>, id: Id, scratch: seq<byte>, x: Fragment, arrived: nat)
    requires LimitOk(f) && |x.buffer| >= f && PendingOk(Some(q), |scratch|) && !Changed(Some(q), id, |scratch|)
    requires q.copied + f < q.declared && !q.discard
    ensures ReadOver(f, Some(q), id, scratch, [x], Failing(Operations(q) + 1, arrived, false)) ==
            Broken(Some(q), Copy(scratch, q.copied, x, f), 1, Released(x, q.resubmit), Rpu, Draining)
  {
    hide Copy, Released, BrokenAt;
    DrainOnce(f, q, q, id, scratch, x, [], Failing(Operations(q) + 1, arrived, false), false, f,
              Copy(scratch, q.copied, x, f));
    assert [x] + [] == [x];
  }

  /** Two more fragments complete an event over a sound bus. */
  lemma TwoMore<Id>(f: nat, q: Pending<Id>, id: Id, scratch: seq<byte>, x: Fragment, y: Fragment)
    requires LimitOk(f) && |x.buffer| >= f && |y.buffer| >= f && PendingOk(Some(q), |scratch|)
    requires !Changed(Some(q), id, |scratch|) && q.copied + f < q.declared <= q.copied + 2 * f && !q.discard
    ensures var left := q.declared - q.copied - f;
            var filled := Copy(Copy(scratch, q.copied, x, f), q.copied + f, y, left);
            ReadOver(f, Some(q), id, scratch, [x, y], Sound) ==
            Done(Poll(None, filled, 2, Released(x, q.resubmit) + Released(y, q.resubmit), Whole(filled[..q.declared])))
  {
    hide Copy, Released, BrokenAt, DrainOver;
    var filled, left := Copy(scratch, q.copied, x, f), q.declared - q.copied - f;
    var next := q.(copied := q.copied + f);
    DrainOnce(f, q, q, id, scratch, x, [y], Sound, false, f, filled);
    DrainOnce(f, q, next, id, filled, y, [], Sound, true, left, Copy(filled, q.copied + f, y, left));
    assert [x] + [y] == [x, y] && [y] + [] == [y];
  }

  lemma CopiesJoin(f: nat, scratch: seq<byte>, x: Fragment, y: Fragment, z: Fragment, d: nat)
    requires 2 * f <= d <= 3 * f && d <= |scratch| && |x.buffer| >= f && |y.buffer| >= f && |z.buffer| >= f
    ensures Copy(Copy(Copy(scratch, f, x, f), f, y, f), 2 * f, z, d - 2 * f)[..d] ==
            scratch[..f] + y.buffer[..f] + z.buffer[..d - 2 * f]
  {
    var filled := Copy(scratch, f, x, f);
    var again := Copy(filled, f, y, f);
    assert filled[..f] == scratch[..f];
    CopyHolds(filled, f, y, f);
    CopyHolds(again, 2 * f, z, d - 2 * f);
  }

  /** Of an event whose second fragment was read when the acknowledgement failed,
      the device still knows only the first. The next call then takes the third
      for the second and the first fragment of the next event for the third, and
      delivers them as one event. */
  lemma BrokenReadMixesEvents<Id>(f: nat, e: Event, next: Fragment, q: Pending<Id>, id: Id, scratch: seq<byte>,
                                  arrived: nat)
    requires LimitOk(f) && EventOk(f, e) && |next.buffer| >= f && Interrupted(f, e, q, id, scratch)
    ensures 2 * f < Length(f, e) <= 3 * f
    ensures FragmentsOk(f, [e.fragments[1]]) && FragmentsOk(f, [e.fragments[2], next])
    ensures var d, io := Length(f, e), Failing(Operations(q) + 1, arrived, false);
            var first := ReadOver(f, Some(q), id, scratch, [e.fragments[1]], io);
            && first.Broken? && first.pending == Some(q) && first.consumed == 1
            && var second := ReadOver(f, Some(q), id, first.scratch, [e.fragments[2], next], Sound);
            && second.Done? && second.poll.pending.None? && second.poll.consumed == 2
            && second.poll.outcome ==
               Whole(e.fragments[0].buffer[..f] + e.fragments[2].buffer[..f] + next.buffer[..d - 2 * f])
  {
    hide Copy, ReadOver, Released, EventOk, Carried, Resubmit;
    OkFacts(f, e);
    ThreeFragments(f, e);
    var d, x, y := Length(f, e), e.fragments[1], e.fragments[2];
    AcknowledgementFails(f, q, id, scratch, x, arrived);
    TwoMore(f, q, id, Copy(scratch, f, x, f), y, next);
    CopiesJoin(f, scratch, x, y, next, d);
  }

  lemma ThreeUpcoming(f: nat, es: seq<Event>)
    requires EventsOk(f, es) && |es| >= 2 && |es[0].fragments| == 3
    ensures PlaceOk(es, Place(0, 0)) && PlaceOk(es, Place(0, 1)) && PlaceOk(es, Place(0, 2)) && EventOk(f, es[1])
    ensures Upcoming(f, es, Place(0, 0), 1) == [es[0].fragments[0]] && Forward(f, es, Place(0, 0), 1) == Place(0, 1)
    ensures Upcoming(f, es, Place(0, 1), 1) == [es[0].fragments[1]] && Forward(f, es, Place(0, 1), 1) == Place(0, 2)
    ensures Upcoming(f, es, Place(0, 2), 2) == [es[0].fragments[2], es[1].fragments[0]]
  {
    assert EventOk(f, es[0]) && EventOk(f, es[1]);
    hide EventOk;
    OkFacts(f, es[0]);
    OkFacts(f, es[1]);
    UpcomingOk(f, es, Place(0, 1), 0);
    UpcomingOk(f, es, Place(0, 2), 0);
    UpcomingStep(f, es, Place(0, 0), 1);
    UpcomingStep(f, es, Place(0, 1), 1);
    UpcomingStep(f, es, Place(0, 2), 2);
    UpcomingOk(f, es, Step(es, Place(1, 0)), 0);
    UpcomingStep(f, es, Place(1, 0), 1);
    ForwardOnce(f, es, Place(0, 0));
    ForwardOnce(f, es, Place(0, 1));
  }

  /** The first fragment of such an event is read. */
  lemma FirstOfThree(f: nat, e: Event, id: nat, scratch: seq<byte>) returns (q: Pending<nat>)
    requires LimitOk(f) && EventOk(f, e) && |e.fragments| == 3 && Length(f, e) <= |scratch|
    ensures FragmentsOk(f, [e.fragments[0]]) && 2 * f < Length(f, e) <= 3 * f
    ensures ReadOver(f, None, id, scratch, [e.fragments[0]], Sound) ==
            Done(Poll(Some(q), Copy(scratch, 0, e.fragments[0], f), 1,
                      Released(e.fragments[0], Resubmit(e.fragments[0])), NothingYet))
    ensures Interrupted(f, e, q, id, Copy(scratch, 0, e.fragments[0], f))
  {
    OkFacts(f, e);
    ThreeFragments(f, e);
    hide EventOk, Carried;
    q := Pending(Length(f, e), f, Resubmit(e.fragments[0]), false, Some(id));
    assert Copy(scratch, 0, e.fragments[0], f)[..f] == e.fragments[0].buffer[..f];
  }

  /** In a run from the start: for any event of three fragments, and any event
      behind it, three reads into one buffer, of which the second fails to
      acknowledge, deliver a mixture of the two. */
  lemma EventsAreMixedInARun(f: nat, es: seq<Event>, id: nat, scratch: seq<byte>, arrived: nat)
    returns (calls: seq<BusCall>, ts: seq<Track>)
    requires LimitOk(f) && EventsOk(f, es) && |es| >= 2 && |es[0].fragments| == 3
    requires EventOk(f, es[0]) && EventOk(f, es[1]) && Length(f, es[0]) <= |scratch|
    ensures BusRun(f, es, calls, ts) && |calls| == 3 && forall i | 0 <= i < 3 :: calls[i].call.ReadEvent?
    ensures calls[0].io.Sound? && calls[2].io.Sound?
    ensures Returns(f, es, ts[0], calls[0]).Done? && Returns(f, es, ts[1], calls[1]).Broken?
    ensures 2 * f < Length(f, es[0]) <= 3 * f
    ensures |es[0].fragments[0].buffer| >= f && |es[0].fragments[2].buffer| >= f && |es[1].fragments[0].buffer| >= f
    ensures var r := Returns(f, es, ts[2], calls[2]);
            r.Done? && r.poll.outcome ==
                       Whole(es[0].fragments[0].buffer[..f] + es[0].fragments[2].buffer[..f]
                             + es[1].fragments[0].buffer[..Length(f, es[0]) - 2 * f])
  {
    hide EventOk, Forward, Upcoming, ReadOver, Copy, Released, Carried;
    OkFacts(f, es[0]);
    OkFacts(f, es[1]);
    ThreeUpcoming(f, es);
    var e, x := es[0], es[0].fragments;
    var q := FirstOfThree(f, e, id, scratch);
    var held := Copy(scratch, 0, x[0], f);
    AcknowledgementFails(f, q, id, held, x[1], arrived);
    BrokenReadMixesEvents(f, e, es[1].fragments[0], q, id, held, arrived);
    var filled := Copy(held, f, x[1], f);
    var c0 := BusCall(ReadEvent(id, scratch, 1), Sound);
    var c1 := BusCall(ReadEvent(id, held, 1), Failing(Operations(q) + 1, arrived, false));
    var c2 := BusCall(ReadEvent(id, filled, 2), Sound);
    var t1, t2 := Track(Some(q), held, Place(0, 1)), Track(Some(q), filled, Place(0, 2));
    calls := [c0, c1, c2];
    ts := [START, t1, t2, NextTrack(f, es, t2, c2)];
    assert NextTrack(f, es, START, c0) == t1 && NextTrack(f, es, t1, c1) == t2;
  }

  // ------------------------------------------------------------ host messages

  datatype HostKind = SystemHost | SupplicantHost | DataHost | UmacHost

  datatype HostMessage = HostMessage(resubmit: bool, kind: HostKind, payload: seq<byte>)

  function HostKindOf(code: nat): Option<HostKind> {
    if code == 0 then Some(SystemHost)
    else if code == 1 then Some(SupplicantHost)
    else if code == 2 then Some(DataHost)
    else if code == 3 then Some(UmacHost)
    else None
  }

  /** `parse_host_message`. */
  function ParseHost(m: seq<byte>): Result<HostMessage, DeviceError> {
    if |m| < HEADER_LEN then Err(DeviceProtocol)
    else
      var declared := Le32(m, 0);
      if declared < HEADER_LEN || declared > |m| then Err(DeviceProtocol)
      else
        match HostKindOf(Le32(m, 8))
        case None => Err(DeviceProtocol)
        case Some(kind) => Ok(HostMessage(Le32(m, 4) != 0, kind, m[HEADER_LEN..declared]))
  }

  /** What `try_read_event` returns. */
  function Answer<Id>(r: Read<Id>): Result<Option<HostMessage>, DeviceError> {
    match r
    case Broken(_, _, _, _, e, _) => Err(e)
    case Done(poll) =>
      match poll.outcome
      case NothingYet => Ok(None)
      case TooLarge(_) => Err(EventTooLarge)
      case Malformed => Err(DeviceProtocol)
      case BufferChanged => Err(EventBufferChanged)
      case Whole(m) =>
        match ParseHost(m)
        case Ok(message) => Ok(Some(message))
        case Err(e) => Err(e)
  }

  lemma {:induction false} JoinedStarts(f: nat, d: nat, fs: seq<Fragment>, j: nat)
    requires 0 < j <= |fs| && FragmentsOk(f, fs)
    ensures Min(f, d) <= |Joined(f, d, fs, j)| && Joined(f, d, fs, j)[..Min(f, d)] == fs[0].buffer[..Min(f, d)]
  {
    if j == 1 {
      assert Joined(f, d, fs, 0) == [];
    } else {
      JoinedStarts(f, d, fs, j - 1);
    }
  }

  /** A delivered event is never refused for its length: it parses exactly if its
      type is known, to the header of its first fragment and all that follows. */
  lemma DeliveredParses(f: nat, e: Event)
    requires LimitOk(f) && EventOk(f, e) && Length(f, e) >= HEADER_LEN
    ensures |e.fragments[0].buffer| >= HEADER_LEN
    ensures var x, m := e.fragments[0].buffer, Content(f, e);
            ParseHost(m) == match HostKindOf(Le32(x, 8))
                            case None => Err(DeviceProtocol)
                            case Some(kind) => Ok(HostMessage(Resubmit(e.fragments[0]), kind, m[HEADER_LEN..]))
  {
    OkFacts(f, e);
    hide EventOk, Carried, Joined;
    var x, m, n := e.fragments[0].buffer, Content(f, e), Min(f, Length(f, e));
    JoinedStarts(f, Length(f, e), e.fragments, |e.fragments|);
    assert forall k | 0 <= k < HEADER_LEN :: m[..n][k] == x[..n][k] && m[k] == m[..n][k] && x[k] == x[..n][k];
    assert m[HEADER_LEN..Length(f, e)] == m[HEADER_LEN..];
  }
}
