/** Fragmented command delivery over a bus that may fail at any step
    (src/device.rs). */
module CommandQueue {
  import opened Bytes
  import opened DeviceTypes
  import opened Wrappers

  /** What the bus answers to one access; a missing answer is a failure. */
  datatype Answer = Value(value: nat) | Acked | Broken

  /** Writes that firmware may have seen. A failed write is recorded too: it
      may have taken effect. */
  datatype Op =
    | TookBuffer(address: nat)
    | WroteFragment(address: nat, bytes: seq<byte>)
    | Enqueued(address: nat)
    | Triggered(counter: nat)

  datatype Bus = Bus(answers: seq<Answer>, wire: seq<Op>)

  /** The part of the device that command delivery changes. */
  datatype Sender = Sender(bus: Bus, initialized: bool, counter: nat, limit: nat, recovery: bool)

  datatype Sent = Sent(s: Sender, error: Option<DeviceError>)

  datatype Dequeued = Got(address: nat) | Empty | Faulty

  const HEADER_LEN := 12
  const MAX_COMMAND_FRAGMENT_LEN := 400
  const MAX_MESSAGE_LEN := 2048
  const SENTINEL := 0xaaaa_aaaa
  const COUNTER_START := 0xdead
  const WORD := 0x1_0000_0000

  predicate SenderOk(s: Sender) {
    HEADER_LEN <= s.limit <= MAX_COMMAND_FRAGMENT_LEN
  }

  // --------------------------------------------------------------- bus access

  function ReadBus(b: Bus): (Bus, Option<nat>) {
    if b.answers == [] then (b, None)
    else (b.(answers := b.answers[1..]), if b.answers[0].Value? then Some(b.answers[0].value) else None)
  }

  function WriteBus(b: Bus, op: Op): (Bus, bool) {
    if b.answers == [] then (b.(wire := b.wire + [op]), false)
    else (Bus(b.answers[1..], b.wire + [op]), b.answers[0] == Acked)
  }

  /** `dequeue`: reads the head and acknowledges it. */
  function Dequeue(b: Bus): (Bus, Dequeued) {
    var (b1, head) := ReadBus(b);
    if head.None? || head.value == SENTINEL then (b1, Faulty)
    else if head.value == 0 then (b1, Empty)
    else
      var (b2, ok) := WriteBus(b1, TookBuffer(head.value));
      (b2, if ok then Got(head.value) else Faulty)
  }

  // ------------------------------------------------------------------ sending

  function Uncertain(s: Sender): Sent {
    Sent(s.(recovery := true), Some(CommandDeliveryUncertain))
  }

  /** `post_control_fragment`. */
  function Post(s: Sender, address: nat, fragment: seq<byte>): Sent {
    var (b1, written) := WriteBus(s.bus, WroteFragment(address, fragment));
    if !written then Uncertain(s.(bus := b1))
    else
      var (b2, enqueued) := WriteBus(b1, Enqueued(address));
      if !enqueued then Uncertain(s.(bus := b2))
      else
        var (b3, triggered) := WriteBus(b2, Triggered(s.counter));
        if !triggered then Uncertain(s.(bus := b3))
        else Sent(s.(bus := b3, counter := (s.counter + 1) % WORD), None)
  }

  datatype Waited = Waited(s: Sender, result: Result<nat, DeviceError>)

  /** `wait_for_command_buffer`. */
  function Wait(s: Sender, attempts: nat, posted: bool): Waited
    decreases attempts
  {
    if attempts == 0 then
      if posted then Waited(s.(recovery := true), Err(CommandDeliveryUncertain))
      else Waited(s, Err(CommandQueueTimeout))
    else
      var (b, head) := Dequeue(s.bus);
      match head
      case Got(address) => Waited(s.(bus := b), Ok(address))
      case Empty => Wait(s.(bus := b), attempts - 1, posted)
      case Faulty => Waited(s.(bus := b, recovery := true), Err(CommandDeliveryUncertain))
  }

  function ChunkLen(s: Sender, rest: seq<byte>): nat {
    if |rest| < s.limit then |rest| else s.limit
  }

  /** `send_fragments_with_wait`: one buffer, one post for each chunk. */
  function SendChunks(s: Sender, rest: seq<byte>, attempts: nat, posted: bool): Sent
    requires s.limit > 0
    decreases |rest|
  {
    if rest == [] then Sent(s, None)
    else
      var w := Wait(s, attempts, posted);
      match w.result
      case Err(e) => Sent(w.s, Some(e))
      case Ok(address) =>
        WaitKeepsLimit(s, attempts, posted);
        var n := ChunkLen(s, rest);
        var p := Post(w.s, address, rest[..n]);
        if p.error.Some? then p else SendChunks(p.s, rest[n..], attempts, true)
  }

  lemma {:induction false} WaitKeepsLimit(s: Sender, attempts: nat, posted: bool)
    ensures var t := Wait(s, attempts, posted).s;
            t.limit == s.limit && t.counter == s.counter && t.initialized == s.initialized
    decreases attempts
  {
    if attempts > 0 {
      WaitKeepsLimit(s.(bus := Dequeue(s.bus).0), attempts - 1, posted);
    }
  }

  predicate Complete(message: seq<byte>) {
    HEADER_LEN <= |message| <= MAX_MESSAGE_LEN && Le32(message, 0) == |message|
  }

  /** `send_control_with_wait`. */
  function SendWithWait(s: Sender, message: seq<byte>, attempts: nat): Sent
    requires SenderOk(s)
  {
    if !Complete(message) then Sent(s, Some(DeviceProtocol))
    else if s.recovery then Sent(s, Some(RecoveryRequired))
    else if attempts == 0 then Sent(s, Some(CommandQueueTimeout))
    else if !s.initialized then Sent(s, Some(NotInitialized))
    else SendChunks(s, message, attempts, false)
  }

  /** `send_control`: one fragment, no wait. */
  function SendOnce(s: Sender, message: seq<byte>): Sent
    requires SenderOk(s)
  {
    if !Complete(message) then Sent(s, Some(DeviceProtocol))
    else if s.recovery then Sent(s, Some(RecoveryRequired))
    else if |message| > s.limit then Sent(s, Some(CommandNeedsWait))
    else if !s.initialized then Sent(s, Some(NotInitialized))
    else
      var (b, head) := Dequeue(s.bus);
      match head
      case Empty => Sent(s.(bus := b), Some(CommandQueueEmpty))
      case Faulty => Uncertain(s.(bus := b))
      case Got(address) => Post(s.(bus := b), address, message)
  }

  // ---------------------------------------------------------- what firmware got

  /** The wire traffic of one delivered command, chunk by chunk: a buffer is
      taken, written, enqueued and triggered once. */
  ghost predicate Delivery(ops: seq<Op>, rest: seq<byte>, limit: nat, counter: nat)
    requires limit > 0
    decreases |rest|
  {
    if rest == [] then ops == []
    else
      var n := if |rest| < limit then |rest| else limit;
      && |ops| >= 4 && ops[0].TookBuffer?
      && var a := ops[0].address;
      && a != 0 && a != SENTINEL
      && ops[1] == WroteFragment(a, rest[..n]) && ops[2] == Enqueued(a) && ops[3] == Triggered(counter)
      && Delivery(ops[4..], rest[n..], limit, (counter + 1) % WORD)
  }

  function Fragments(ops: seq<Op>): seq<byte> {
    if ops == [] then [] else (if ops[0].WroteFragment? then ops[0].bytes else []) + Fragments(ops[1..])
  }

  function Triggers(ops: seq<Op>): nat {
    if ops == [] then 0 else (if ops[0].Triggered? then 1 else 0) + Triggers(ops[1..])
  }

  function Posts(ops: seq<Op>): nat {
    if ops == [] then 0 else (if ops[0].WroteFragment? then 1 else 0) + Posts(ops[1..])
  }

  lemma {:induction false} TrafficConcat(left: seq<Op>, right: seq<Op>)
    ensures Fragments(left + right) == Fragments(left) + Fragments(right)
    ensures Triggers(left + right) == Triggers(left) + Triggers(right)
    ensures Posts(left + right) == Posts(left) + Posts(right)
    decreases |left|
  {
    if left == [] {
      assert left + right == right;
    } else {
      assert left + right == [left[0]] + (left[1..] + right);
      TrafficConcat(left[1..], right);
    }
  }

  lemma PostTraffic(a: nat, bytes: seq<byte>, counter: nat)
    ensures var ops := [TookBuffer(a)] + [WroteFragment(a, bytes)] + [Enqueued(a)] + [Triggered(counter)];
            Fragments(ops) == bytes && Triggers(ops) == 1 && Posts(ops) == 1
  {
    TrafficConcat([TookBuffer(a)] + [WroteFragment(a, bytes)] + [Enqueued(a)], [Triggered(counter)]);
    TrafficConcat([TookBuffer(a)] + [WroteFragment(a, bytes)], [Enqueued(a)]);
    TrafficConcat([TookBuffer(a)], [WroteFragment(a, bytes)]);
  }

  /** In a delivery the posted fragments concatenate to the message, with one
      trigger each. */
  lemma {:induction false} DeliveryIsExact(ops: seq<Op>, rest: seq<byte>, limit: nat, counter: nat)
    requires limit > 0 && Delivery(ops, rest, limit, counter)
    ensures Fragments(ops) == rest && Triggers(ops) == Posts(ops)
    decreases |rest|
  {
    if rest != [] {
      var n := if |rest| < limit then |rest| else limit;
      DeliveryIsExact(ops[4..], rest[n..], limit, (counter + 1) % WORD);
      var a := ops[0].address;
      var first := [TookBuffer(a)] + [WroteFragment(a, rest[..n])] + [Enqueued(a)] + [Triggered(counter)];
      hide Fragments, Triggers, Posts;
      assert ops == first + ops[4..];
      PostTraffic(a, rest[..n], counter);
      TrafficConcat(first, ops[4..]);
      assert rest == rest[..n] + rest[n..];
    }
  }

  // --------------------------------------------------------- all or nothing

  /** Bus accesses only extend the wire. */
  predicate Extends(before: Sender, after: Sender) {
    && before.bus.wire <= after.bus.wire
    && after.limit == before.limit && after.initialized == before.initialized
    && (before.recovery ==> after.recovery)
  }

  function Added(before: Sender, after: Sender): seq<Op>
    requires Extends(before, after)
  {
    after.bus.wire[|before.bus.wire|..]
  }

  lemma {:induction false} WaitOutcome(s: Sender, attempts: nat, posted: bool)
    ensures var w := Wait(s, attempts, posted);
            && Extends(s, w.s) && w.s.counter == s.counter
            && match w.result {
              case Ok(a) => a != 0 && a != SENTINEL && w.s.recovery == s.recovery && Added(s, w.s) == [TookBuffer(a)]
              case Err(e) => w.s.recovery || (!posted && w.s.bus.wire == s.bus.wire && e == CommandQueueTimeout)
            }
    decreases attempts
  {
    if attempts > 0 {
      var (b, head) := Dequeue(s.bus);
      if head == Empty {
        WaitOutcome(s.(bus := b), attempts - 1, posted);
      }
    }
  }

  lemma PostOutcome(s: Sender, address: nat, fragment: seq<byte>)
    ensures var p := Post(s, address, fragment);
            && Extends(s, p.s)
            && if p.error.Some? then p.s.recovery
               else p.s.recovery == s.recovery && p.s.counter == (s.counter + 1) % WORD
                    && Added(s, p.s) == [WroteFragment(address, fragment), Enqueued(address), Triggered(s.counter)]
  {
  }

  lemma {:induction false} ChunksOutcome(s: Sender, rest: seq<byte>, attempts: nat, posted: bool)
    requires s.limit > 0
    ensures var r := SendChunks(s, rest, attempts, posted);
            && Extends(s, r.s)
            && if r.error.None?
               then r.s.recovery == s.recovery && Delivery(Added(s, r.s), rest, s.limit, s.counter)
               else r.s.recovery || (!posted && r.s.bus.wire == s.bus.wire)
    decreases |rest|
  {
    hide Wait, Post;
    if rest != [] {
      var w := Wait(s, attempts, posted);
      WaitOutcome(s, attempts, posted);
      if w.result.Ok? {
        var n := ChunkLen(s, rest);
        var p := Post(w.s, w.result.value, rest[..n]);
        PostOutcome(w.s, w.result.value, rest[..n]);
        if p.error.None? {
          ChunksOutcome(p.s, rest[n..], attempts, true);
          var r := SendChunks(p.s, rest[n..], attempts, true);
          if r.error.None? {
            assert Added(s, r.s) == Added(s, w.s) + Added(w.s, p.s) + Added(p.s, r.s);
            assert Added(s, r.s)[4..] == Added(p.s, r.s);
          }
        }
      }
    }
  }

  /** Command delivery is all or nothing: success means that firmware got
      exactly the fragments of the message, and an error means either that
      firmware saw nothing or that recovery is required. */
  lemma SendIsAllOrNothing(s: Sender, message: seq<byte>, attempts: nat, wait: bool)
    requires SenderOk(s)
    ensures var r := if wait then SendWithWait(s, message, attempts) else SendOnce(s, message);
            && Extends(s, r.s)
            && if r.error.None?
               then !s.recovery && !r.s.recovery && Delivery(Added(s, r.s), message, s.limit, s.counter)
                    && Fragments(Added(s, r.s)) == message && Triggers(Added(s, r.s)) == Posts(Added(s, r.s))
               else r.s.recovery || r.s.bus.wire == s.bus.wire
  {
    hide SendChunks, Post;
    if wait {
      ChunksOutcome(s, message, attempts, false);
    } else {
      var (b, head) := Dequeue(s.bus);
      if head.Got? {
        PostOutcome(s.(bus := b), head.address, message);
      }
    }
    var r := if wait then SendWithWait(s, message, attempts) else SendOnce(s, message);
    if r.error.None? {
      if !wait {
        OneDelivery(Added(s, r.s), message, s.limit, s.counter);
      }
      DeliveryIsExact(Added(s, r.s), message, s.limit, s.counter);
    }
  }

  lemma OneDelivery(ops: seq<Op>, message: seq<byte>, limit: nat, counter: nat)
    requires 0 < |message| <= limit && |ops| == 4 && ops[0].TookBuffer?
    requires ops[0].address != 0 && ops[0].address != SENTINEL
    requires ops[1..] == [WroteFragment(ops[0].address, message), Enqueued(ops[0].address), Triggered(counter)]
    ensures Delivery(ops, message, limit, counter)
  {
    assert ops[1] == ops[1..][0] && ops[2] == ops[1..][1] && ops[3] == ops[1..][2];
    assert message[..|message|] == message;
    assert Delivery(ops[4..], message[|message|..], limit, (counter + 1) % WORD);
  }

  /** While recovery is required a send touches neither bus nor counter. */
  lemma NoTrafficBeforeRecovery(s: Sender, message: seq<byte>, attempts: nat)
    requires SenderOk(s) && s.recovery
    ensures SendWithWait(s, message, attempts).s == s && SendWithWait(s, message, attempts).error.Some?
    ensures SendOnce(s, message).s == s && SendOnce(s, message).error.Some?
  {
  }

  // --------------------------------------------------------------------- runs

  datatype SendCall = SendCall(message: seq<byte>, attempts: nat, wait: bool)

  /** A sender and the messages it reported as sent, in order. */
  datatype Ledger = Ledger(s: Sender, reported: seq<byte>)

  function Performed(s: Sender, c: SendCall): Sent
    requires SenderOk(s)
  {
    if c.wait then SendWithWait(s, c.message, c.attempts) else SendOnce(s, c.message)
  }

  ghost function Sends(s: Sender, calls: seq<SendCall>): (l: Ledger)
    requires SenderOk(s)
    ensures SenderOk(l.s)
  {
    if calls == [] then Ledger(s, [])
    else
      var l := Sends(s, calls[..|calls| - 1]);
      var c := calls[|calls| - 1];
      SendIsAllOrNothing(l.s, c.message, c.attempts, c.wait);
      var r := Performed(l.s, c);
      Ledger(r.s, if r.error.None? then l.reported + c.message else l.reported)
  }

  lemma WireGrows(s: Sender, t: Sender, u: Sender)
    requires Extends(s, t) && Extends(t, u)
    ensures Extends(s, u) && Added(s, u) == Added(s, t) + Added(t, u)
  {
  }

  /** Conservation over any sequence of sends: firmware was given the messages
      reported as sent, whole and in order, followed by nothing unless recovery
      is required; then every post had its trigger too. */
  lemma {:induction false} FirmwareGotWhatWasReported(s: Sender, calls: seq<SendCall>)
    requires SenderOk(s) && !s.recovery
    ensures var l := Sends(s, calls);
            && Extends(s, l.s)
            && l.reported <= Fragments(Added(s, l.s))
            && (!l.s.recovery ==> Fragments(Added(s, l.s)) == l.reported
                                  && Triggers(Added(s, l.s)) == Posts(Added(s, l.s)))
    decreases |calls|
  {
    hide SendWithWait, SendOnce, Delivery;
    if calls != [] {
      var c := calls[|calls| - 1];
      var l := Sends(s, calls[..|calls| - 1]);
      var r := Performed(l.s, c);
      FirmwareGotWhatWasReported(s, calls[..|calls| - 1]);
      SendIsAllOrNothing(l.s, c.message, c.attempts, c.wait);
      WireGrows(s, l.s, r.s);
      TrafficConcat(Added(s, l.s), Added(l.s, r.s));
      if r.error.Some? && !r.s.recovery {
        assert Added(l.s, r.s) == [];
      }
    }
  }

  // ------------------------------------------------- runs with resets between

  /** What can happen to the command queues: a send, `reset_queue_state`,
      `initialize_queues` with the fault it met, or new fragment limits. */
  datatype QueueCall =
    | Send(send: SendCall)
    | ResetQueues
    | Initialize(fault: Option<DeviceError>)
    | SetLimit(limit: nat)

  predicate Repairs(c: QueueCall) {
    c.ResetQueues? || (c.Initialize? && c.fault.None?)
  }

  function Done(s: Sender, c: QueueCall): (t: Sender)
    requires SenderOk(s)
  {
    match c
    case Send(send) => Performed(s, send).s
    case ResetQueues => s.(initialized := false, counter := COUNTER_START, recovery := false)
    case Initialize(None) => s.(initialized := true, counter := COUNTER_START, recovery := false)
    case Initialize(_) => s
    case SetLimit(n) => if HEADER_LEN <= n <= MAX_COMMAND_FRAGMENT_LEN then s.(limit := n) else s
  }

  ghost predicate QueueRun(ss: seq<Sender>, calls: seq<QueueCall>) {
    && |ss| == |calls| + 1 && SenderOk(ss[0])
    && forall i | 0 <= i < |calls| :: SenderOk(ss[i]) && ss[i + 1] == Done(ss[i], calls[i])
  }

  /** The messages reported as sent by calls `j` to `k - 1`, in order. */
  function ReportedBetween(ss: seq<Sender>, calls: seq<QueueCall>, j: nat, k: nat): seq<byte>
    requires j <= k <= |calls| <= |ss| && forall i | 0 <= i < |calls| :: SenderOk(ss[i])
  {
    if j == k then []
    else
      var before := ReportedBetween(ss, calls, j, k - 1);
      if calls[k - 1].Send? && Performed(ss[k - 1], calls[k - 1].send).error.None?
      then before + calls[k - 1].send.message else before
  }

  /** What was put on the wire between two states of a run. */
  function Between(before: Sender, after: Sender): seq<Op> {
    if |before.bus.wire| <= |after.bus.wire| then after.bus.wire[|before.bus.wire|..] else []
  }

  lemma DoneExtends(s: Sender, c: QueueCall)
    requires SenderOk(s)
    ensures var t := Done(s, c);
            && SenderOk(t) && s.bus.wire <= t.bus.wire
            && (!c.Send? ==> t.bus.wire == s.bus.wire)
            && (!Repairs(c) && s.recovery ==> t.recovery && t.bus.wire == s.bus.wire)
            && (Repairs(c) ==> !t.recovery)
  {
    if c.Send? {
      SendIsAllOrNothing(s, c.send.message, c.send.attempts, c.send.wait);
      if s.recovery {
        NoTrafficBeforeRecovery(s, c.send.message, c.send.attempts);
      }
    }
  }

  lemma {:induction false} RunExtends(ss: seq<Sender>, calls: seq<QueueCall>, j: nat, k: nat)
    requires QueueRun(ss, calls) && j <= k < |ss|
    ensures SenderOk(ss[k]) && ss[j].bus.wire <= ss[k].bus.wire
    decreases k
  {
    if j < k {
      RunExtends(ss, calls, j, k - 1);
      DoneExtends(ss[k - 1], calls[k - 1]);
    } else if k > 0 {
      DoneExtends(ss[k - 1], calls[k - 1]);
    }
  }

  /** Once recovery is required, no call puts anything on the wire or reports a
      message as sent until the queues are reset or initialized again. */
  lemma {:induction false} NothingPostedUntilRepair(ss: seq<Sender>, calls: seq<QueueCall>, j: nat, k: nat)
    requires QueueRun(ss, calls) && j <= k < |ss| && ss[j].recovery
    requires forall i | j <= i < k :: !Repairs(calls[i])
    ensures ss[k].recovery && ss[k].bus.wire == ss[j].bus.wire && ReportedBetween(ss, calls, j, k) == []
    decreases k
  {
    if j < k {
      hide Repairs;
      NothingPostedUntilRepair(ss, calls, j, k - 1);
      var s, c := ss[k - 1], calls[k - 1];
      DoneExtends(s, c);
      if c.Send? {
        NoTrafficBeforeRecovery(s, c.send.message, c.send.attempts);
      }
    }
  }

  /** How many calls there have been when the last repair before call `k` was done. */
  function LastRepair(calls: seq<QueueCall>, k: nat): (r: nat)
    requires k <= |calls|
    ensures r <= k
    ensures forall i | r <= i < k :: !Repairs(calls[i])
    ensures r > 0 ==> Repairs(calls[r - 1])
  {
    if k == 0 then 0 else if Repairs(calls[k - 1]) then k else LastRepair(calls, k - 1)
  }

  lemma {:induction false} SegmentIsExact(ss: seq<Sender>, calls: seq<QueueCall>, j: nat, k: nat)
    requires QueueRun(ss, calls) && j <= k < |ss| && !ss[j].recovery
    requires forall i | j <= i < k :: !Repairs(calls[i])
    ensures var ops := Between(ss[j], ss[k]);
            && ReportedBetween(ss, calls, j, k) <= Fragments(ops)
            && (!ss[k].recovery ==> Fragments(ops) == ReportedBetween(ss, calls, j, k) && Triggers(ops) == Posts(ops))
    decreases k
  {
    hide Repairs, SendWithWait, SendOnce, Delivery;
    if j < k {
      var s, c := ss[k - 1], calls[k - 1];
      SegmentIsExact(ss, calls, j, k - 1);
      RunExtends(ss, calls, j, k - 1);
      DoneExtends(s, c);
      if c.Send? {
        SendIsAllOrNothing(s, c.send.message, c.send.attempts, c.send.wait);
        var r := Performed(s, c.send);
        assert Between(ss[j], ss[k]) == Between(ss[j], s) + Added(s, r.s);
        TrafficConcat(Between(ss[j], s), Added(s, r.s));
        if r.error.Some? && !r.s.recovery {
          assert Added(s, r.s) == [];
        }
      } else {
        assert Between(ss[j], ss[k]) == Between(ss[j], s);
      }
    }
  }

  /** Conservation over any run of sends, resets and initializations: since the
      last reset or initialization firmware was given the messages reported as
      sent since then, whole and in order, followed by nothing unless recovery
      is required. */
  lemma SinceRepairIsExact(ss: seq<Sender>, calls: seq<QueueCall>, k: nat)
    requires QueueRun(ss, calls) && k < |ss| && !ss[0].recovery
    ensures SenderOk(ss[k])
    ensures var j := LastRepair(calls, k);
            var ops := Between(ss[j], ss[k]);
            && ss[j].bus.wire <= ss[k].bus.wire
            && ReportedBetween(ss, calls, j, k) <= Fragments(ops)
            && (!ss[k].recovery ==> Fragments(ops) == ReportedBetween(ss, calls, j, k) && Triggers(ops) == Posts(ops))
  {
    var j := LastRepair(calls, k);
    RunExtends(ss, calls, j, k);
    if j > 0 {
      RunExtends(ss, calls, 0, j - 1);
      DoneExtends(ss[j - 1], calls[j - 1]);
    }
    hide Done;
    SegmentIsExact(ss, calls, j, k);
  }
}
