/** Reassembly of fragmented firmware events (src/device.rs) over any arrival
    schedule of an error-free bus. */
module EventQueue {
  import opened Bytes
  import opened DeviceTypes
  import opened Wrappers

  /** One queued fragment: the buffer address and the buffer's contents. */
  datatype Fragment = Fragment(address: nat, buffer: seq<byte>)

  datatype Pending<Id> = Pending(declared: nat, copied: nat, resubmit: bool, discard: bool, scratch: Option<Id>)

  datatype Outcome =
    | NothingYet
    | Whole(message: seq<byte>)
    | TooLarge(declared: nat)
    | Malformed
    | BufferChanged

  /** What one call does: the assembly state, the caller's buffer, how many
      fragments it dequeued, which buffers it gave back, and its result. */
  datatype Poll<Id> = Poll(
    pending: Option<Pending<Id>>, scratch: seq<byte>, consumed: nat, released: seq<nat>, outcome: Outcome)

  const HEADER_LEN := 12
  const MAX_EVENT_FRAGMENT_LEN := 1000

  predicate LimitOk(f: nat) {
    HEADER_LEN <= f <= MAX_EVENT_FRAGMENT_LEN
  }

  ghost predicate FragmentsOk(f: nat, fs: seq<Fragment>) {
    forall i | 0 <= i < |fs| :: |fs[i].buffer| >= f
  }

  predicate PendingOk<Id>(p: Option<Pending<Id>>, capacity: nat) {
    p.Some? ==> p.value.copied < p.value.declared && (p.value.discard || p.value.declared <= capacity)
  }

  function Min(x: nat, y: nat): nat {
    if x < y then x else y
  }

  function Declared(x: Fragment): nat
    requires |x.buffer| >= HEADER_LEN
  {
    Le32(x.buffer, 0)
  }

  function Resubmit(x: Fragment): bool
    requires |x.buffer| >= HEADER_LEN
  {
    Le32(x.buffer, 4) != 0
  }

  function Released(x: Fragment, resubmit: bool): seq<nat> {
    if resubmit then [x.address] else []
  }

  /** `copy_from_slice` of the first `count` bytes of a fragment. */
  function Copy(scratch: seq<byte>, at: nat, x: Fragment, count: nat): (s: seq<byte>)
    requires at + count <= |scratch| && count <= |x.buffer|
    ensures |s| == |scratch|
  {
    scratch[..at] + x.buffer[..count] + scratch[at + count..]
  }

  /** `read_new_event` when a fragment is available. */
  function BeginEvent<Id>(f: nat, id: Id, scratch: seq<byte>, x: Fragment): Poll<Id>
    requires LimitOk(f) && |x.buffer| >= f
  {
    var declared, resubmit := Declared(x), Resubmit(x);
    var first := Min(f, declared);
    var released := Released(x, resubmit);
    if declared < HEADER_LEN then Poll(None, scratch, 1, released, Malformed)
    else if declared > |scratch| then
      Poll(if first < declared then Some(Pending(declared, first, resubmit, true, None)) else None,
           scratch, 1, released, TooLarge(declared))
    else
      var filled := Copy(scratch, 0, x, first);
      if first == declared then Poll(None, filled, 1, released, Whole(filled[..declared]))
      else Poll(Some(Pending(declared, first, resubmit, false, Some(id))), filled, 1, released, NothingYet)
  }

  function After<Id>(x: seq<nat>, p: Poll<Id>): Poll<Id> {
    p.(consumed := p.consumed + 1, released := x + p.released)
  }

  /** Fragments are taken one by one until an event is whole or none is left.
      When a discarded event has ended, a new one is begun at once. */
  function Absorb<Id>(f: nat, p: Option<Pending<Id>>, id: Id, scratch: seq<byte>, avail: seq<Fragment>): (r: Poll<Id>)
    requires LimitOk(f) && FragmentsOk(f, avail) && PendingOk(p, |scratch|)
    ensures |r.scratch| == |scratch| && r.consumed <= |avail| && PendingOk(r.pending, |scratch|)
    decreases |avail|
  {
    if avail == [] then Poll(p, scratch, 0, [], NothingYet)
    else if p.None? then BeginEvent(f, id, scratch, avail[0])
    else
      var q := p.value;
      var count := Min(f, q.declared - q.copied);
      var filled := if q.discard then scratch else Copy(scratch, q.copied, avail[0], count);
      var released := Released(avail[0], q.resubmit);
      if q.copied + count < q.declared then
        After(released, Absorb(f, Some(q.(copied := q.copied + count)), id, filled, avail[1..]))
      else if q.discard then After(released, Absorb(f, None, id, filled, avail[1..]))
      else Poll(None, filled, 1, released, Whole(filled[..q.declared]))
  }

  /** `pending_buffer_changed`. */
  predicate Changed<Id(==)>(p: Option<Pending<Id>>, id: Id, capacity: nat) {
    p.Some? && !p.value.discard && (p.value.scratch != Some(id) || capacity < p.value.declared)
  }

  function Discarding<Id>(p: Option<Pending<Id>>): Option<Pending<Id>> {
    match p
    case None => None
    case Some(q) => Some(q.(discard := true, scratch := None))
  }

  /** `try_read_event` on an operational device; `avail` are the fragments it
      finds before the queue first reads empty. */
  function TryRead<Id(==)>(f: nat, p: Option<Pending<Id>>, id: Id, scratch: seq<byte>, avail: seq<Fragment>)
    : (r: Poll<Id>)
    requires LimitOk(f) && FragmentsOk(f, avail)
    requires p.Some? ==> p.value.copied < p.value.declared
    ensures |r.scratch| == |scratch| && r.consumed <= |avail|
    ensures r.pending.Some? ==> r.pending.value.copied < r.pending.value.declared
  {
    if Changed(p, id, |scratch|) then Poll(Discarding(p), scratch, 0, [], BufferChanged)
    else Absorb(f, p, id, scratch, avail)
  }

  // -------------------------------------------------------- firmware's events

  datatype Event = Event(fragments: seq<Fragment>)

  /** Bytes carried by the first `j` fragments of an event of length `d`. */
  function Carried(f: nat, d: nat, j: nat): (c: nat)
    ensures c <= d
  {
    if j == 0 then 0 else Carried(f, d, j - 1) + Min(f, d - Carried(f, d, j - 1))
  }

  /** Firmware fragments an event at the configured size: full fragments, then
      the rest. */
  ghost predicate EventOk(f: nat, e: Event) {
    && |e.fragments| > 0 && FragmentsOk(f, e.fragments) && f >= HEADER_LEN
    && var d := Declared(e.fragments[0]);
    && Carried(f, d, |e.fragments|) == d
    && forall j | 0 < j < |e.fragments| :: Carried(f, d, j) < d
  }

  ghost predicate EventsOk(f: nat, es: seq<Event>) {
    forall i | 0 <= i < |es| :: EventOk(f, es[i])
  }

  ghost function Length(f: nat, e: Event): nat
    requires EventOk(f, e)
  {
    Declared(e.fragments[0])
  }

  /** The first `j` fragments put together. */
  ghost function Joined(f: nat, d: nat, fs: seq<Fragment>, j: nat): (s: seq<byte>)
    requires j <= |fs| && FragmentsOk(f, fs)
    ensures |s| == Carried(f, d, j)
  {
    if j == 0 then []
    else Joined(f, d, fs, j - 1) + fs[j - 1].buffer[..Carried(f, d, j) - Carried(f, d, j - 1)]
  }

  ghost function Content(f: nat, e: Event): (s: seq<byte>)
    requires EventOk(f, e)
    ensures |s| == Length(f, e)
  {
    Joined(f, Length(f, e), e.fragments, |e.fragments|)
  }

  /** A place in the event stream: fragment `j` of event `n`. */
  datatype Place = Place(n: nat, j: nat)

  ghost predicate PlaceOk(es: seq<Event>, at: Place) {
    if at.n < |es| then at.j < |es[at.n].fragments| else at == Place(|es|, 0)
  }

  ghost function Step(es: seq<Event>, at: Place): Place
    requires at.n < |es|
  {
    if at.j + 1 < |es[at.n].fragments| then Place(at.n, at.j + 1) else Place(at.n + 1, 0)
  }

  /** The next fragments of the stream, at most `k`. */
  ghost function Upcoming(f: nat, es: seq<Event>, at: Place, k: nat): seq<Fragment>
    requires EventsOk(f, es) && PlaceOk(es, at)
    decreases k
  {
    if k == 0 || at.n == |es| then []
    else [es[at.n].fragments[at.j]] + Upcoming(f, es, Step(es, at), k - 1)
  }

  ghost function Forward(f: nat, es: seq<Event>, at: Place, k: nat): (to: Place)
    requires EventsOk(f, es) && PlaceOk(es, at)
    ensures PlaceOk(es, to)
    decreases k
  {
    if k == 0 || at.n == |es| then at else Forward(f, es, Step(es, at), k - 1)
  }

  /** The addresses given back when the stream has been read up to a place. */
  ghost function Returned(f: nat, es: seq<Event>, at: Place, k: nat): seq<nat>
    requires EventsOk(f, es) && PlaceOk(es, at)
    decreases k
  {
    if k == 0 || at.n == |es| then []
    else Released(es[at.n].fragments[at.j], Resubmit(es[at.n].fragments[0])) + Returned(f, es, Step(es, at), k - 1)
  }

  // ---------------------------------------------------------------- alignment

  /** The assembly state agrees with the place in the stream: no pending event
      at a message start, otherwise exactly the fragments read so far. */
  ghost predicate Aligned<Id>(f: nat, es: seq<Event>, at: Place, p: Option<Pending<Id>>)
    requires EventsOk(f, es)
  {
    && PlaceOk(es, at)
    && (at.j == 0 <==> p.None?)
    && (p.Some? ==>
          && at.n < |es|
          && var d, q := Length(f, es[at.n]), p.value;
          && q.declared == d && q.copied == Carried(f, d, at.j)
          && q.resubmit == Resubmit(es[at.n].fragments[0]))
  }

  /** The buffer holds the bytes copied so far. */
  ghost predicate Holding<Id>(f: nat, es: seq<Event>, at: Place, p: Option<Pending<Id>>, scratch: seq<byte>)
    requires EventsOk(f, es) && Aligned(f, es, at, p)
  {
    p.Some? && !p.value.discard ==>
      p.value.copied <= |scratch| &&
      scratch[..p.value.copied] == Joined(f, Length(f, es[at.n]), es[at.n].fragments, at.j)
  }

  /** What happened to an event. */
  datatype Fate = Delivered(message: seq<byte>) | Oversized | Undersized | Dropped

  predicate Discards<Id>(p: Option<Pending<Id>>) {
    p.Some? && p.value.discard
  }

  /** 1 if the event that was being discarded has ended. */
  function Ended<Id>(p: Option<Pending<Id>>, at: Place, to: Place): nat {
    if Discards(p) && to.n > at.n then 1 else 0
  }

  /** The result of a call accounts for every event it passed. */
  ghost predicate Accounts<Id>(f: nat, es: seq<Event>, at: Place, p: Option<Pending<Id>>, capacity: nat, r: Poll<Id>,
                               to: Place)
    requires EventsOk(f, es)
  {
    var x := at.n + Ended(p, at, to);
    match r.outcome
    case NothingYet =>
      && to.n == x && (r.pending.Some? ==> (r.pending.value.discard <==> Discards(p) && x == at.n))
      && (r.pending.Some? && (p.None? || x > at.n) ==>
            x < |es| && HEADER_LEN <= Length(f, es[x]) <= capacity)
    case Whole(m) =>
      x < |es| && to == Place(x + 1, 0) && m == Content(f, es[x]) && HEADER_LEN <= Length(f, es[x])
      && (p.None? || Discards(p) ==> Length(f, es[x]) <= capacity)
    case Malformed =>
      x < |es| && to == Place(x + 1, 0) && Length(f, es[x]) < HEADER_LEN && (p.None? || Discards(p))
    case TooLarge(d) =>
      && x < |es| && (p.None? || x > at.n) && d == Length(f, es[x]) && HEADER_LEN <= d && d > capacity
      && if r.pending.None? then to == Place(x + 1, 0) else to.n == x && r.pending.value.discard
    case BufferChanged => false
  }

  ghost predicate Exact<Id>(f: nat, es: seq<Event>, at: Place, p: Option<Pending<Id>>, r: Poll<Id>, to: Place,
                            capacity: nat)
    requires EventsOk(f, es) && PlaceOk(es, at)
  {
    && to == Forward(f, es, at, r.consumed)
    && Aligned(f, es, to, r.pending) && Holding(f, es, to, r.pending, r.scratch)
    && r.released == Returned(f, es, at, r.consumed)
    && Accounts(f, es, at, p, capacity, r, to)
  }

  lemma FirstCarried(f: nat, e: Event)
    requires EventOk(f, e)
    ensures Carried(f, Length(f, e), 1) == Min(f, Length(f, e))
    ensures |e.fragments| == 1 <==> Min(f, Length(f, e)) == Length(f, e)
    ensures Joined(f, Length(f, e), e.fragments, 1) == e.fragments[0].buffer[..Min(f, Length(f, e))]
  {
    assert Carried(f, Length(f, e), 0) == 0;
    assert Joined(f, Length(f, e), e.fragments, 0) == [];
  }

  lemma BeginIsExact<Id>(f: nat, es: seq<Event>, at: Place, id: Id, scratch: seq<byte>)
    requires LimitOk(f) && EventsOk(f, es) && at.n < |es| && at.j == 0
    ensures var r := BeginEvent(f, id, scratch, es[at.n].fragments[0]);
            Exact(f, es, at, None, r, Step(es, at), |scratch|) && r.consumed == 1
  {
    hide Carried, Joined, EventOk;
    var e := es[at.n];
    assert EventOk(f, e);
    OkFacts(f, e);
    FirstCarried(f, e);
    var x := e.fragments[0];
    assert Forward(f, es, at, 1) == Step(es, at) by { ForwardOnce(f, es, at); }
    assert Returned(f, es, at, 1) == Released(x, Resubmit(x)) by { ReturnedOnce(f, es, at); }
    if HEADER_LEN <= Declared(x) <= |scratch| {
      var filled := Copy(scratch, 0, x, Min(f, Declared(x)));
      assert filled[..Min(f, Declared(x))] == x.buffer[..Min(f, Declared(x))];
    }
  }

  lemma OkFacts(f: nat, e: Event)
    requires EventOk(f, e)
    ensures |e.fragments| > 0 && FragmentsOk(f, e.fragments) && f >= HEADER_LEN
  {
  }

  lemma ForwardOnce(f: nat, es: seq<Event>, at: Place)
    requires EventsOk(f, es) && PlaceOk(es, at) && at.n < |es|
    ensures Forward(f, es, at, 1) == Step(es, at)
  {
    assert Forward(f, es, Step(es, at), 0) == Step(es, at);
  }

  lemma ReturnedOnce(f: nat, es: seq<Event>, at: Place)
    requires EventsOk(f, es) && PlaceOk(es, at) && at.n < |es|
    ensures Returned(f, es, at, 1) == Released(es[at.n].fragments[at.j], Resubmit(es[at.n].fragments[0]))
  {
    assert Returned(f, es, Step(es, at), 0) == [];
  }

  /** One more fragment of a pending event. */
  lemma NextCarried(f: nat, e: Event, j: nat)
    requires EventOk(f, e) && 0 < j < |e.fragments|
    ensures var d := Length(f, e);
            && Carried(f, d, j) < d
            && Carried(f, d, j + 1) == Carried(f, d, j) + Min(f, d - Carried(f, d, j))
            && (j + 1 == |e.fragments| <==> Carried(f, d, j + 1) == d)
            && Joined(f, d, e.fragments, j + 1) ==
               Joined(f, d, e.fragments, j) + e.fragments[j].buffer[..Min(f, d - Carried(f, d, j))]
  {
  }

  lemma CopyHolds(scratch: seq<byte>, at: nat, x: Fragment, count: nat)
    requires at + count <= |scratch| && count <= |x.buffer|
    ensures Copy(scratch, at, x, count)[..at + count] == scratch[..at] + x.buffer[..count]
  {
  }

  lemma ForwardStep(f: nat, es: seq<Event>, at: Place, k: nat)
    requires EventsOk(f, es) && PlaceOk(es, at) && at.n < |es|
    ensures PlaceOk(es, Step(es, at))
    ensures Forward(f, es, at, k + 1) == Forward(f, es, Step(es, at), k)
    ensures Returned(f, es, at, k + 1) ==
            Released(es[at.n].fragments[at.j], Resubmit(es[at.n].fragments[0])) + Returned(f, es, Step(es, at), k)
  {
  }

  lemma {:induction false} UpcomingOk(f: nat, es: seq<Event>, at: Place, k: nat)
    requires EventsOk(f, es) && PlaceOk(es, at)
    ensures FragmentsOk(f, Upcoming(f, es, at, k))
    ensures Upcoming(f, es, at, k) == [] <==> k == 0 || at.n == |es|
    decreases k
  {
    if k > 0 && at.n < |es| {
      assert EventOk(f, es[at.n]);
      UpcomingOk(f, es, Step(es, at), k - 1);
    }
  }

  /** A pending event takes one more fragment. */
  lemma PendingStep<Id>(f: nat, es: seq<Event>, at: Place, q: Pending<Id>, scratch: seq<byte>)
    returns (count: nat, filled: seq<byte>)
    requires LimitOk(f) && EventsOk(f, es) && Aligned(f, es, at, Some(q)) && PendingOk(Some(q), |scratch|)
    requires Holding(f, es, at, Some(q), scratch)
    ensures at.n < |es| && |es[at.n].fragments[at.j].buffer| >= f && q.copied < q.declared
    ensures count == Min(f, q.declared - q.copied)
    ensures filled == if q.discard then scratch else Copy(scratch, q.copied, es[at.n].fragments[at.j], count)
    ensures q.copied + count < q.declared ==>
              Step(es, at) == Place(at.n, at.j + 1)
              && Aligned(f, es, Step(es, at), Some(q.(copied := q.copied + count)))
              && Holding(f, es, Step(es, at), Some(q.(copied := q.copied + count)), filled)
    ensures q.copied + count >= q.declared ==>
              Step(es, at) == Place(at.n + 1, 0)
              && (!q.discard ==> filled[..q.declared] == Content(f, es[at.n]))
  {
    hide Carried, Joined, EventOk;
    var e := es[at.n];
    assert EventOk(f, e);
    OkFacts(f, e);
    NextCarried(f, e, at.j);
    count := Min(f, q.declared - q.copied);
    var x := e.fragments[at.j];
    filled := if q.discard then scratch else Copy(scratch, q.copied, x, count);
    if !q.discard {
      CopyHolds(scratch, q.copied, x, count);
    }
  }

  /** From any aligned state a call takes exactly the fragments of the events
      it ends, puts whole events together byte for byte, gives every buffer
      back once, and stops aligned. */
  lemma {:induction false} AbsorbIsExact<Id>(f: nat, es: seq<Event>, at: Place, p: Option<Pending<Id>>, id: Id,
                                             scratch: seq<byte>, k: nat)
    requires LimitOk(f) && EventsOk(f, es) && Aligned(f, es, at, p) && PendingOk(p, |scratch|)
    requires Holding(f, es, at, p, scratch)
    ensures FragmentsOk(f, Upcoming(f, es, at, k))
    ensures var r := Absorb(f, p, id, scratch, Upcoming(f, es, at, k));
            Exact(f, es, at, p, r, Forward(f, es, at, r.consumed), |scratch|)
    decreases k, 2
  {
    hide EventOk, Carried, Joined, BeginEvent, Holding, Aligned, Exact, Forward, Upcoming;
    AlignedPlace(f, es, at, p);
    UpcomingOk(f, es, at, k);
    if Upcoming(f, es, at, k) == [] {
      NoneAvailable(f, es, at, p, scratch);
    } else if p.None? {
      UpcomingStep(f, es, at, k);
      ForwardStep(f, es, at, 0);
      ForwardOnce(f, es, at);
      BeginIsExact(f, es, at, id, scratch);
    } else {
      hide Absorb;
      AbsorbPending(f, es, at, p.value, id, scratch, k);
    }
  }

  lemma UpcomingStep(f: nat, es: seq<Event>, at: Place, k: nat)
    requires EventsOk(f, es) && PlaceOk(es, at) && k > 0 && at.n < |es|
    ensures PlaceOk(es, Step(es, at))
    ensures Upcoming(f, es, at, k) == [es[at.n].fragments[at.j]] + Upcoming(f, es, Step(es, at), k - 1)
    ensures Upcoming(f, es, at, k)[1..] == Upcoming(f, es, Step(es, at), k - 1)
  {
    ForwardStep(f, es, at, 0);
  }

  /** One unfolding of `Absorb` for a pending event. */
  lemma AbsorbOnce<Id>(f: nat, q: Pending<Id>, id: Id, scratch: seq<byte>, x: Fragment, rest: seq<Fragment>,
                       count: nat, filled: seq<byte>)
    requires LimitOk(f) && |x.buffer| >= f && FragmentsOk(f, rest) && PendingOk(Some(q), |scratch|)
    requires count == Min(f, q.declared - q.copied)
    requires filled == if q.discard then scratch else Copy(scratch, q.copied, x, count)
    ensures FragmentsOk(f, [x] + rest)
    ensures var r, back := Absorb(f, Some(q), id, scratch, [x] + rest), Released(x, q.resubmit);
            && (q.copied + count < q.declared ==>
                  r == After(back, Absorb(f, Some(q.(copied := q.copied + count)), id, filled, rest)))
            && (q.copied + count >= q.declared && q.discard ==> r == After(back, Absorb(f, None, id, filled, rest)))
            && (q.copied + count >= q.declared && !q.discard ==>
                  r == Poll(None, filled, 1, back, Whole(filled[..q.declared])))
  {
    hide Copy, Released;
    assert ([x] + rest)[1..] == rest;
  }

  lemma {:induction false} AbsorbPending<Id>(f: nat, es: seq<Event>, at: Place, q: Pending<Id>, id: Id,
                                             scratch: seq<byte>, k: nat)
    requires LimitOk(f) && EventsOk(f, es) && Aligned(f, es, at, Some(q)) && PendingOk(Some(q), |scratch|)
    requires Holding(f, es, at, Some(q), scratch) && k > 0 && at.n < |es|
    ensures FragmentsOk(f, Upcoming(f, es, at, k))
    ensures var r := Absorb(f, Some(q), id, scratch, Upcoming(f, es, at, k));
            Exact(f, es, at, Some(q), r, Forward(f, es, at, r.consumed), |scratch|)
    decreases k, 1
  {
    hide EventOk, Carried, Joined, BeginEvent, Holding, Aligned, Exact, Forward, Upcoming;
    AlignedPlace(f, es, at, Some(q));
    UpcomingOk(f, es, at, k);
    UpcomingStep(f, es, at, k);
    ForwardStep(f, es, at, 0);
    ForwardOnce(f, es, at);
    var count, filled := PendingStep(f, es, at, q, scratch);
    UpcomingOk(f, es, Step(es, at), k - 1);
    AbsorbOnce(f, q, id, scratch, es[at.n].fragments[at.j], Upcoming(f, es, Step(es, at), k - 1), count, filled);
    hide Absorb;
    if q.copied + count < q.declared {
      AbsorbMore(f, es, at, Some(q), Some(q.(copied := q.copied + count)), id, filled, k);
    } else if q.discard {
      AlignedStart<Id>(f, es, Step(es, at), filled);
      AbsorbMore(f, es, at, Some(q), None, id, filled, k);
    } else {
      WholeExact(f, es, at, q, Absorb(f, Some(q), id, scratch, Upcoming(f, es, at, k)), filled);
    }
  }

  lemma {:induction false} AbsorbMore<Id>(f: nat, es: seq<Event>, at: Place, p: Option<Pending<Id>>,
                                          next: Option<Pending<Id>>, id: Id, filled: seq<byte>, k: nat)
    requires LimitOk(f) && EventsOk(f, es) && Aligned(f, es, at, p) && p.Some? && k > 0 && at.n < |es|
    requires PlaceOk(es, Step(es, at)) && Aligned(f, es, Step(es, at), next) && PendingOk(next, |filled|)
    requires Holding(f, es, Step(es, at), next, filled)
    requires if next.None? then p.value.discard && Step(es, at) == Place(at.n + 1, 0)
             else Step(es, at) == Place(at.n, at.j + 1) && next.value.discard == p.value.discard
    ensures FragmentsOk(f, Upcoming(f, es, Step(es, at), k - 1))
    ensures var inner := Absorb(f, next, id, filled, Upcoming(f, es, Step(es, at), k - 1));
            var r := After(Released(es[at.n].fragments[at.j], p.value.resubmit), inner);
            Exact(f, es, at, p, r, Forward(f, es, at, r.consumed), |filled|)
    decreases k, 0
  {
    hide EventOk, Carried, Joined, BeginEvent, Holding, Aligned, Exact, Forward, Absorb;
    AlignedPlace(f, es, at, p);
    AbsorbIsExact(f, es, Step(es, at), next, id, filled, k - 1);
    var inner := Absorb(f, next, id, filled, Upcoming(f, es, Step(es, at), k - 1));
    var to := Forward(f, es, Step(es, at), inner.consumed);
    PrependExact(f, es, at, p, next, inner, to, |filled|);
    ForwardStep(f, es, at, inner.consumed);
  }

  lemma AlignedPlace<Id>(f: nat, es: seq<Event>, at: Place, p: Option<Pending<Id>>)
    requires EventsOk(f, es) && Aligned(f, es, at, p)
    ensures PlaceOk(es, at) && (at.j == 0 <==> p.None?)
  {
  }

  lemma AlignedStart<Id>(f: nat, es: seq<Event>, at: Place, scratch: seq<byte>)
    requires EventsOk(f, es) && PlaceOk(es, at) && at.j == 0
    ensures Aligned<Id>(f, es, at, None) && Holding<Id>(f, es, at, None, scratch)
  {
  }

  lemma NoneAvailable<Id>(f: nat, es: seq<Event>, at: Place, p: Option<Pending<Id>>, scratch: seq<byte>)
    requires EventsOk(f, es) && Aligned(f, es, at, p) && Holding(f, es, at, p, scratch)
    ensures Exact(f, es, at, p, Poll(p, scratch, 0, [], NothingYet), at, |scratch|)
  {
  }

  lemma WholeExact<Id>(f: nat, es: seq<Event>, at: Place, q: Pending<Id>, r: Poll<Id>, filled: seq<byte>)
    requires EventsOk(f, es) && Aligned(f, es, at, Some(q)) && !q.discard
    requires q.declared <= |filled| && filled[..q.declared] == Content(f, es[at.n])
    requires Step(es, at) == Place(at.n + 1, 0)
    requires r == Poll(None, filled, 1, Released(es[at.n].fragments[at.j], q.resubmit), Whole(filled[..q.declared]))
    requires at.j > 0
    ensures Exact(f, es, at, Some(q), r, Step(es, at), |filled|)
  {
    hide Carried, Joined;
    ForwardOnce(f, es, at);
    ReturnedOnce(f, es, at);
    LongEvent(f, es[at.n]);
  }

  /** An event of several fragments is longer than one fragment. */
  lemma LongEvent(f: nat, e: Event)
    requires EventOk(f, e)
    ensures |e.fragments| > 1 ==> Length(f, e) > f
  {
    FirstCarried(f, e);
  }

  lemma PrependExact<Id>(f: nat, es: seq<Event>, at: Place, p: Option<Pending<Id>>, next: Option<Pending<Id>>,
                         inner: Poll<Id>, to: Place, capacity: nat)
    requires EventsOk(f, es) && Aligned(f, es, at, p) && p.Some?
    requires PlaceOk(es, Step(es, at)) && Exact(f, es, Step(es, at), next, inner, to, capacity)
    requires if next.None? then p.value.discard && Step(es, at) == Place(at.n + 1, 0)
             else Step(es, at) == Place(at.n, at.j + 1) && next.value.discard == p.value.discard
    ensures Exact(f, es, at, p,
                  After(Released(es[at.n].fragments[at.j], p.value.resubmit), inner), to, capacity)
  {
    hide Carried, Joined, EventOk;
    ForwardStep(f, es, at, inner.consumed);
    ForwardAhead(f, es, Step(es, at), inner.consumed);
  }

  /** How many events have been begun. */
  function Begun(at: Place): nat {
    at.n + if at.j > 0 then 1 else 0
  }

  lemma {:induction false} ForwardAhead(f: nat, es: seq<Event>, at: Place, k: nat)
    requires EventsOk(f, es) && PlaceOk(es, at)
    ensures var to := Forward(f, es, at, k); to.n >= at.n && Begun(to) >= Begun(at)
    decreases k
  {
    if k > 0 && at.n < |es| {
      ForwardAhead(f, es, Step(es, at), k - 1);
    }
  }

  // --------------------------------------------------------------------- runs

  /** A read into a caller's buffer when `ready` fragments have arrived, or a
      request to discard the pending event. */
  datatype EventCall = ReadEvent(id: nat, scratch: seq<byte>, ready: nat) | DiscardEvent

  /** The device's assembly state, the buffer after the last read, how many
      fragments were taken and where that leaves the stream, the buffers given
      back, why a discarded event is discarded, and the fate reported for every
      event that has ended. For every event begun: the size of the buffer its
      first fragment was read with, and whether it was discarded on request or
      for a changed buffer while it was pending. */
  datatype Assembly = Assembly(
    pending: Option<Pending<nat>>, held: seq<byte>, taken: nat, at: Place, released: seq<nat>, cause: Fate,
    fates: seq<Fate>, offers: seq<nat>, disturbed: seq<bool>)

  const IDLE := Assembly(None, [], 0, Place(0, 0), [], Dropped, [], [], [])

  function Extended<T>(s: seq<T>, count: nat, x: T): (t: seq<T>)
    ensures s <= t && |t| == if |s| <= count then count else |s|
    ensures forall i | |s| <= i < |t| :: t[i] == x
  {
    if |s| <= count then s + seq(count - |s|, i => x) else s
  }

  /** The fate an event deserves. */
  ghost function FateOf(f: nat, e: Event, offer: nat, disturbed: bool): Fate
    requires EventOk(f, e)
  {
    if Length(f, e) < HEADER_LEN then Undersized
    else if Length(f, e) > offer then Oversized
    else if disturbed then Dropped
    else Delivered(Content(f, e))
  }

  /** The fate that a call's own result reports. */
  function Reported<Id>(r: Poll<Id>): seq<Fate> {
    match r.outcome
    case Whole(m) => [Delivered(m)]
    case Malformed => [Undersized]
    case TooLarge(_) => if r.pending.None? then [Oversized] else []
    case _ => []
  }

  ghost predicate AssemblyOk(f: nat, es: seq<Event>, a: Assembly) {
    && LimitOk(f) && EventsOk(f, es)
    && Aligned(f, es, a.at, a.pending) && Holding(f, es, a.at, a.pending, a.held)
    && a.at == Forward(f, es, Place(0, 0), a.taken)
    && a.released == Returned(f, es, Place(0, 0), a.taken)
    && FatesOk(f, es, a)
  }

  ghost predicate FatesOk(f: nat, es: seq<Event>, a: Assembly)
    requires EventsOk(f, es)
  {
    && a.at.n == |a.fates| <= |es|
    && |a.offers| == |a.disturbed| == Begun(a.at)
    && (a.pending.Some? ==> PendingFate(f, es, a))
    && forall n | 0 <= n < |a.fates| :: a.fates[n] == FateOf(f, es[n], a.offers[n], a.disturbed[n])
  }

  /** A pending event is discarded exactly if it did not fit or was disturbed. */
  ghost predicate PendingFate(f: nat, es: seq<Event>, a: Assembly)
    requires EventsOk(f, es) && a.pending.Some?
  {
    && a.at.n < |es| && a.at.n < |a.offers| && a.at.n < |a.disturbed|
    && HEADER_LEN <= Length(f, es[a.at.n])
    && (a.pending.value.discard <==> Length(f, es[a.at.n]) > a.offers[a.at.n] || a.disturbed[a.at.n])
    && (a.pending.value.discard ==> a.cause == FateOf(f, es[a.at.n], a.offers[a.at.n], a.disturbed[a.at.n]))
  }

  /** The caller leaves the pending event's bytes alone. */
  predicate BufferKept(a: Assembly, c: EventCall) {
    c.ReadEvent? && a.pending.Some? && !Changed(a.pending, c.id, |c.scratch|) && !a.pending.value.discard ==>
      var n := a.pending.value.copied;
      n <= |c.scratch| && n <= |a.held| && c.scratch[..n] == a.held[..n]
  }

  /** What a step needs to be defined. */
  ghost predicate Steps(f: nat, es: seq<Event>, a: Assembly) {
    && LimitOk(f) && EventsOk(f, es) && PlaceOk(es, a.at)
    && (a.pending.Some? ==> a.pending.value.copied < a.pending.value.declared && a.at.n < |a.disturbed|)
  }

  ghost function NextAssembly(f: nat, es: seq<Event>, a: Assembly, c: EventCall): Assembly
    requires Steps(f, es, a)
  {
    match c
    case DiscardEvent =>
      a.(pending := Discarding(a.pending), cause := if Discards(a.pending) then a.cause else Dropped,
         disturbed := if a.pending.Some? then a.disturbed[a.at.n := true] else a.disturbed)
    case ReadEvent(id, scratch, ready) =>
      UpcomingOk(f, es, a.at, ready);
      var r := TryRead(f, a.pending, id, scratch, Upcoming(f, es, a.at, ready));
      var to := Forward(f, es, a.at, r.consumed);
      Assembly(r.pending, r.scratch, a.taken + r.consumed, to, a.released + r.released,
               if r.outcome.TooLarge? then Oversized else if r.outcome == BufferChanged then Dropped else a.cause,
               a.fates + (if Ended(a.pending, a.at, to) == 1 then [a.cause] else []) + Reported(r),
               Extended(a.offers, Begun(to), |scratch|),
               if r.outcome == BufferChanged then a.disturbed[a.at.n := true]
               else Extended(a.disturbed, Begun(to), false))
  }

  lemma AssemblyFacts(f: nat, es: seq<Event>, a: Assembly)
    requires AssemblyOk(f, es, a)
    ensures Steps(f, es, a)
  {
    if a.pending.Some? {
      NextCarried(f, es[a.at.n], a.at.j);
    }
  }

  lemma ForwardZero(f: nat, es: seq<Event>, at: Place)
    requires EventsOk(f, es) && PlaceOk(es, at)
    ensures Forward(f, es, at, 0) == at && Returned(f, es, at, 0) == []
  {
  }

  lemma {:induction false} ForwardTwice(f: nat, es: seq<Event>, at: Place, j: nat, k: nat)
    requires EventsOk(f, es) && PlaceOk(es, at)
    ensures Forward(f, es, at, j + k) == Forward(f, es, Forward(f, es, at, j), k)
    ensures Returned(f, es, at, j + k) == Returned(f, es, at, j) + Returned(f, es, Forward(f, es, at, j), k)
    decreases j
  {
    hide Forward, Returned, Released, EventOk, Step;
    if at.n == |es| {
      ForwardEnd(f, es, at, j);
      ForwardEnd(f, es, at, k);
      ForwardEnd(f, es, at, j + k);
    } else if j == 0 {
      ForwardZero(f, es, at);
    } else {
      ForwardStep(f, es, at, j - 1);
      ForwardStep(f, es, at, j + k - 1);
      ForwardTwice(f, es, Step(es, at), j - 1, k);
    }
  }

  lemma ForwardEnd(f: nat, es: seq<Event>, at: Place, k: nat)
    requires EventsOk(f, es) && PlaceOk(es, at) && at.n == |es|
    ensures Forward(f, es, at, k) == at && Returned(f, es, at, k) == []
  {
  }

  lemma PendingIsLong(f: nat, es: seq<Event>, at: Place)
    requires LimitOk(f) && EventsOk(f, es) && PlaceOk(es, at) && at.j > 0
    ensures at.n < |es| && Length(f, es[at.n]) > HEADER_LEN
  {
    LongEvent(f, es[at.n]);
  }

  /** `b` follows `a` after a read with result `r` that leads to `to`. */
  ghost predicate Follows(f: nat, es: seq<Event>, a: Assembly, r: Poll<nat>, to: Place, capacity: nat, b: Assembly)
    requires EventsOk(f, es)
  {
    && PlaceOk(es, to) && to.n >= a.at.n && Begun(to) >= Begun(a.at)
    && Accounts(f, es, a.at, a.pending, capacity, r, to) && Aligned(f, es, to, r.pending)
    && b.at == to && b.pending == r.pending
    && b.fates == a.fates + (if Ended(a.pending, a.at, to) == 1 then [a.cause] else []) + Reported(r)
    && b.cause == (if r.outcome.TooLarge? then Oversized else a.cause)
    && b.offers == Extended(a.offers, Begun(to), capacity)
    && b.disturbed == Extended(a.disturbed, Begun(to), false)
  }

  /** A read keeps what was offered to the events begun before it. */
  lemma OffersStay(f: nat, es: seq<Event>, a: Assembly, r: Poll<nat>, to: Place, capacity: nat, b: Assembly)
    requires AssemblyOk(f, es, a) && Follows(f, es, a, r, to, capacity, b)
    ensures |b.offers| == |b.disturbed| == Begun(b.at) && |a.offers| == |a.disturbed| == Begun(a.at) <= Begun(b.at)
    ensures forall n | 0 <= n < |a.offers| :: b.offers[n] == a.offers[n] && b.disturbed[n] == a.disturbed[n]
    ensures forall n | |a.offers| <= n < |b.offers| :: b.offers[n] == capacity && !b.disturbed[n]
  {
    hide Content, Carried, EventOk, Holding, Forward, Returned, Extended, Accounts, Aligned;
  }

  /** The fate of an event that was pending, and of one that this read began. */
  lemma EndedFates(f: nat, es: seq<Event>, a: Assembly, r: Poll<nat>, to: Place, capacity: nat, b: Assembly)
    requires AssemblyOk(f, es, a) && Follows(f, es, a, r, to, capacity, b)
    ensures b.at.n == |b.fates| <= |es| && |b.offers| == |b.disturbed| == Begun(b.at)
    ensures forall n | |a.fates| <= n < |b.fates| :: b.fates[n] == FateOf(f, es[n], b.offers[n], b.disturbed[n])
  {
    hide Content, Carried, EventOk, Holding, Forward, Returned, Extended;
    OffersStay(f, es, a, r, to, capacity, b);
    var ended := if Ended(a.pending, a.at, to) == 1 then [a.cause] else [];
    assert b.fates == a.fates + (ended + Reported(r));
  }

  lemma PendingFates(f: nat, es: seq<Event>, a: Assembly, r: Poll<nat>, to: Place, capacity: nat, b: Assembly)
    requires AssemblyOk(f, es, a) && Follows(f, es, a, r, to, capacity, b)
    ensures b.pending.Some? ==> PendingFate(f, es, b)
  {
    hide Content, Carried, EventOk, Holding, Forward, Returned, Extended;
    OffersStay(f, es, a, r, to, capacity, b);
  }

  /** Every fate a call adds is right. */
  lemma FatesStayOk(f: nat, es: seq<Event>, a: Assembly, r: Poll<nat>, to: Place, capacity: nat, b: Assembly)
    requires AssemblyOk(f, es, a) && Follows(f, es, a, r, to, capacity, b)
    ensures FatesOk(f, es, b)
  {
    hide Content, Carried, EventOk, Holding, Forward, Returned, Extended, Accounts, Aligned, PendingFate, FateOf;
    OffersStay(f, es, a, r, to, capacity, b);
    EndedFates(f, es, a, r, to, capacity, b);
    PendingFates(f, es, a, r, to, capacity, b);
    assert a.fates <= b.fates;
  }

  lemma ReadKeeps(f: nat, es: seq<Event>, a: Assembly, c: EventCall)
    requires AssemblyOk(f, es, a) && BufferKept(a, c) && c.ReadEvent?
    ensures Steps(f, es, a) && AssemblyOk(f, es, NextAssembly(f, es, a, c))
  {
    hide Content, Carried, EventOk, Joined, Absorb, Forward, Returned, FatesOk, Upcoming;
    AssemblyFacts(f, es, a);
    UpcomingOk(f, es, a.at, c.ready);
    if Changed(a.pending, c.id, |c.scratch|) {
      ForwardNone(f, es, a.at);
      NothingOffered(f, es, a, |c.scratch|);
      assert FatesOk(f, es, NextAssembly(f, es, a, c)) by { DisturbedFates(f, es, a, NextAssembly(f, es, a, c)); }
      assert a.released + [] == a.released;
    } else {
      assert Holding(f, es, a.at, a.pending, c.scratch);
      AbsorbIsExact(f, es, a.at, a.pending, c.id, c.scratch, c.ready);
      var r := Absorb(f, a.pending, c.id, c.scratch, Upcoming(f, es, a.at, c.ready));
      StartOk(f, es);
      ForwardTwice(f, es, Place(0, 0), a.taken, r.consumed);
      ForwardAhead(f, es, a.at, r.consumed);
      FatesStayOk(f, es, a, r, Forward(f, es, a.at, r.consumed), |c.scratch|, NextAssembly(f, es, a, c));
    }
  }

  lemma StartOk(f: nat, es: seq<Event>)
    requires EventsOk(f, es)
    ensures PlaceOk(es, Place(0, 0))
  {
    assert |es| > 0 ==> EventOk(f, es[0]);
  }

  lemma ForwardNone(f: nat, es: seq<Event>, at: Place)
    requires EventsOk(f, es) && PlaceOk(es, at)
    ensures Forward(f, es, at, 0) == at
  {
  }

  lemma NothingOffered(f: nat, es: seq<Event>, a: Assembly, capacity: nat)
    requires EventsOk(f, es) && FatesOk(f, es, a)
    ensures Extended(a.offers, Begun(a.at), capacity) == a.offers
  {
  }

  lemma DisturbedFates(f: nat, es: seq<Event>, a: Assembly, b: Assembly)
    requires EventsOk(f, es) && FatesOk(f, es, a) && a.pending.Some? && a.at.n < |a.disturbed|
    requires b.at == a.at && b.fates == a.fates && b.offers == a.offers
    requires b.disturbed == a.disturbed[a.at.n := true] && b.pending == Discarding(a.pending)
    requires b.cause == if Discards(a.pending) then a.cause else Dropped
    ensures FatesOk(f, es, b)
  {
  }

  lemma DiscardKeeps(f: nat, es: seq<Event>, a: Assembly)
    requires AssemblyOk(f, es, a)
    ensures Steps(f, es, a) && AssemblyOk(f, es, NextAssembly(f, es, a, DiscardEvent))
  {
    AssemblyFacts(f, es, a);
    hide Carried, EventOk, Joined, Forward, Returned, FatesOk;
    if a.pending.Some? {
      DisturbedFates(f, es, a, NextAssembly(f, es, a, DiscardEvent));
    }
  }

  lemma AssemblyKeeps(f: nat, es: seq<Event>, a: Assembly, c: EventCall)
    requires AssemblyOk(f, es, a) && BufferKept(a, c)
    ensures Steps(f, es, a) && AssemblyOk(f, es, NextAssembly(f, es, a, c))
  {
    hide AssemblyOk, NextAssembly;
    match c
    case DiscardEvent => DiscardKeeps(f, es, a);
    case ReadEvent(_, _, _) => ReadKeeps(f, es, a, c);
  }

  /** The states of a run in which the caller leaves pending bytes alone. */
  ghost predicate RunOf(f: nat, es: seq<Event>, calls: seq<EventCall>, states: seq<Assembly>) {
    && |states| == |calls| + 1 && states[0] == IDLE
    && forall i | 0 <= i < |calls| ::
         Steps(f, es, states[i]) && BufferKept(states[i], calls[i])
         && states[i + 1] == NextAssembly(f, es, states[i], calls[i])
  }

  lemma {:induction false} RunKeeps(f: nat, es: seq<Event>, calls: seq<EventCall>, states: seq<Assembly>, k: nat)
    requires LimitOk(f) && EventsOk(f, es) && RunOf(f, es, calls, states) && k < |states|
    ensures AssemblyOk(f, es, states[k])
    decreases k
  {
    if k == 0 {
      StartOk(f, es);
      ForwardNone(f, es, Place(0, 0));
    } else {
      hide AssemblyOk, NextAssembly, EventsOk, BufferKept;
      RunKeeps(f, es, calls, states, k - 1);
      AssemblyKeeps(f, es, states[k - 1], calls[k - 1]);
    }
  }

  /** Event reassembly is exact for every arrival schedule: after any calls,
      every event that has ended met, in order, the one fate it deserves. It is
      reported undersized exactly if it is shorter than a header, and too large
      exactly if it is longer than the buffer its first fragment was read with;
      otherwise it is dropped exactly if it was discarded on request or for a
      changed buffer while pending, and else delivered byte for byte. With no
      event pending the queue head is a message start; and the buffers given back
      are those of the fragments taken, each once. */
  lemma EventsAreExact(f: nat, es: seq<Event>, calls: seq<EventCall>, states: seq<Assembly>)
    requires LimitOk(f) && EventsOk(f, es) && RunOf(f, es, calls, states)
    ensures var a := states[|calls|];
            && |a.fates| <= |es| && |a.fates| <= |a.offers| == |a.disturbed|
            && (forall n | 0 <= n < |a.fates| :: a.fates[n] == FateOf(f, es[n], a.offers[n], a.disturbed[n]))
            && a.at == Forward(f, es, Place(0, 0), a.taken)
            && a.released == Returned(f, es, Place(0, 0), a.taken)
            && (a.pending.None? ==> a.at == Place(|a.fates|, 0))
  {
    RunKeeps(f, es, calls, states, |calls|);
  }

  /** Reads into one buffer that every event fits. */
  predicate Steady(c: EventCall, id: nat, capacity: nat) {
    c.ReadEvent? && c.id == id && |c.scratch| == capacity
  }

  ghost predicate NothingLost(a: Assembly, id: nat, capacity: nat) {
    && (a.pending.Some? && !a.pending.value.discard ==> a.pending.value.scratch == Some(id))
    && (forall n | 0 <= n < |a.offers| :: a.offers[n] == capacity)
    && (forall n | 0 <= n < |a.disturbed| :: !a.disturbed[n])
  }

  lemma {:induction false} AbsorbKeepsBuffer<Id>(f: nat, p: Option<Pending<Id>>, id: Id, scratch: seq<byte>,
                                                 avail: seq<Fragment>)
    requires LimitOk(f) && FragmentsOk(f, avail) && PendingOk(p, |scratch|)
    requires p.Some? && !p.value.discard ==> p.value.scratch == Some(id)
    ensures var r := Absorb(f, p, id, scratch, avail);
            r.pending.Some? && !r.pending.value.discard ==> r.pending.value.scratch == Some(id)
    decreases |avail|
  {
    hide Copy;
    if avail != [] && p.Some? {
      var q := p.value;
      var count := Min(f, q.declared - q.copied);
      var filled := if q.discard then scratch else Copy(scratch, q.copied, avail[0], count);
      if q.copied + count < q.declared {
        AbsorbKeepsBuffer(f, Some(q.(copied := q.copied + count)), id, filled, avail[1..]);
      } else if q.discard {
        AbsorbKeepsBuffer(f, None, id, filled, avail[1..]);
      }
    }
  }

  lemma SteadyKeeps(f: nat, es: seq<Event>, a: Assembly, c: EventCall, id: nat, capacity: nat)
    requires AssemblyOk(f, es, a) && NothingLost(a, id, capacity) && Steady(c, id, capacity) && BufferKept(a, c)
    ensures Steps(f, es, a) && NothingLost(NextAssembly(f, es, a, c), id, capacity)
  {
    hide Content, Carried, EventOk, Joined, Absorb, Forward, Returned, Upcoming, Extended;
    AssemblyFacts(f, es, a);
    UpcomingOk(f, es, a.at, c.ready);
    AbsorbKeepsBuffer(f, a.pending, c.id, c.scratch, Upcoming(f, es, a.at, c.ready));
    AbsorbIsExact(f, es, a.at, a.pending, c.id, c.scratch, c.ready);
  }

  /** With one buffer, whatever its size, and no discards, every event of a legal
      length that fits it is delivered, whatever the schedule; the others are
      reported. */
  lemma {:induction false} NoEventIsLost(f: nat, es: seq<Event>, calls: seq<EventCall>, states: seq<Assembly>, id: nat,
                                         capacity: nat, k: nat)
    requires LimitOk(f) && EventsOk(f, es) && RunOf(f, es, calls, states) && k < |states|
    requires forall i | 0 <= i < |calls| :: Steady(calls[i], id, capacity)
    ensures NothingLost(states[k], id, capacity) && |states[k].fates| <= |es|
    ensures forall n | 0 <= n < |states[k].fates| ::
              states[k].fates[n] ==
              if Length(f, es[n]) < HEADER_LEN then Undersized
              else if Length(f, es[n]) > capacity then Oversized
              else Delivered(Content(f, es[n]))
    decreases k
  {
    hide NextAssembly, EventOk, Content;
    RunKeeps(f, es, calls, states, k);
    if k > 0 {
      RunKeeps(f, es, calls, states, k - 1);
      NoEventIsLost(f, es, calls, states, id, capacity, k - 1);
      SteadyKeeps(f, es, states[k - 1], calls[k - 1], id, capacity);
    }
  }
}
