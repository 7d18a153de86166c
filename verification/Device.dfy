/** The queue controller object (src/device.rs): command delivery and event
    reassembly performed in place, each against its transition function. */
module Device {
  import opened Bytes
  import C = CommandQueue
  import opened DeviceTypes
  import B = EventBus
  import E = EventQueue
  import opened Wrappers

  /** The register bus as commands see it. */
  class CommandBus {
    var answers: seq<C.Answer>
    var wire: seq<C.Op>

    function Value(): C.Bus
      reads this
    {
      C.Bus(answers, wire)
    }

    constructor (answers: seq<C.Answer>)
      ensures Value() == C.Bus(answers, [])
    {
      this.answers := answers;
      wire := [];
    }

    method Read() returns (r: Option<nat>)
      modifies this
      ensures (Value(), r) == C.ReadBus(old(Value()))
    {
      if answers == [] {
        return None;
      }
      var answer := answers[0];
      answers := answers[1..];
      r := if answer.Value? then Some(answer.value) else None;
    }

    method Write(op: C.Op) returns (ok: bool)
      modifies this
      ensures (Value(), ok) == C.WriteBus(old(Value()), op)
    {
      wire := wire + [op];
      if answers == [] {
        return false;
      }
      ok := answers[0] == C.Acked;
      answers := answers[1..];
    }
  }

  /** The event queue and the free-buffer queue, over a bus that may fail. */
  class EventPort {
    var ready: seq<E.Fragment>
    var released: seq<nat>
    var io: B.Io

    constructor (ready: seq<E.Fragment>, io: B.Io)
      ensures this.ready == ready && released == [] && this.io == io
    {
      this.ready, released, this.io := ready, [], io;
    }

    /** The next bus operation. */
    method Operate() returns (ok: bool)
      modifies this`io
      ensures ok <==> !B.Fails(old(io), 1)
      ensures io == if ok then B.Past(old(io), 1) else old(io)
    {
      ok := io.Sound? || io.after > 0;
      if ok && io.Failing? {
        io := io.(after := io.after - 1);
      }
    }

    /** `dequeue`: the register is read and, if not empty, written back. */
    method Dequeue() returns (r: Result<Option<E.Fragment>, DeviceError>)
      modifies this
      ensures released == old(released)
      ensures old(ready) == [] ==>
                && ready == [] && (r.Err? <==> B.Fails(old(io), 1))
                && (r.Ok? ==> r.value.None? && io == B.Past(old(io), 1))
      ensures old(ready) != [] ==>
                && (r.Err? <==> B.Fails(old(io), 2))
                && (r.Ok? ==> r.value == Some(old(ready)[0]) && ready == old(ready)[1..] && io == B.Past(old(io), 2))
      ensures r.Err? ==>
                && r.error == (if old(io).after == 0 then B.QueueError(old(io)) else Rpu)
                && ready == if old(io).after == 1 && old(io).arrived > 0 then old(ready)[1..] else old(ready)
    {
      var read := Operate();
      if !read {
        return Err(B.QueueError(io));
      }
      if ready == [] {
        return Ok(None);
      }
      var x := ready[0];
      var written := Operate();
      if written || io.arrived > 0 {
        ready := ready[1..];
      }
      r := if written then Ok(Some(x)) else Err(Rpu);
    }

    /** A read of the first `count` bytes of a fragment into the caller's buffer. */
    method ReadPiece(x: E.Fragment, count: nat, scratch: array<byte>, into: nat) returns (ok: bool)
      requires count <= |x.buffer| && into + count <= scratch.Length
      modifies this`io, scratch
      ensures ok <==> !B.Fails(old(io), 1)
      ensures io == if ok then B.Past(old(io), 1) else old(io)
      ensures scratch[..] == E.Copy(old(scratch[..]), into, x, if ok then count else E.Min(old(io).arrived, count))
    {
      ok := Operate();
      CopyInto(x.buffer[..if ok then count else E.Min(io.arrived, count)], scratch, into);
    }

    /** `release_event_fragment`. */
    method Release(x: E.Fragment, resubmit: bool) returns (ok: bool)
      modifies this`released, this`io
      ensures ok <==> !(resubmit && B.Fails(old(io), 1))
      ensures io == if ok then B.Past(old(io), B.Count(resubmit)) else old(io)
      ensures released == old(released) + if ok || old(io).arrived > 0 then E.Released(x, resubmit) else []
    {
      ok := true;
      if resubmit {
        ok := Operate();
        if ok || io.arrived > 0 {
          released := released + [x.address];
        }
      }
    }
  }

  /** A call's result is what it has done so far, then the rest. */
  ghost predicate Resumes<Id>(goal: B.Read<Id>, taken: nat, released: seq<nat>, rest: B.Read<Id>) {
    match rest
    case Done(poll) => goal == B.Done(poll.(consumed := taken + poll.consumed, released := released + poll.released))
    case Broken(_, _, consumed, back, _, _) => goal == rest.(consumed := taken + consumed, released := released + back)
  }

  class Device {
    const bus: CommandBus
    var queues: bool
    var counter: nat
    var commandLimit: nat
    var eventLimit: nat
    var pending: Option<E.Pending<array<byte>>>
    var recovery: bool

    function Sender(): C.Sender
      reads this, bus
    {
      C.Sender(bus.Value(), queues, counter, commandLimit, recovery)
    }

    predicate Valid()
      reads this, bus
    {
      && C.SenderOk(Sender()) && E.LimitOk(eventLimit)
      && (pending.Some? ==> pending.value.copied < pending.value.declared
                            && (pending.value.discard || pending.value.scratch.Some?))
    }

    constructor (answers: seq<C.Answer>)
      ensures Valid() && fresh(bus) && Sender() == C.Sender(C.Bus(answers, []), false, C.COUNTER_START, 400, false)
      ensures pending.None? && eventLimit == 1000
    {
      bus := new CommandBus(answers);
      queues, counter, recovery := false, C.COUNTER_START, false;
      commandLimit, eventLimit := C.MAX_COMMAND_FRAGMENT_LEN, E.MAX_EVENT_FRAGMENT_LEN;
      pending := None;
    }

    /** `reset_queue_state`. */
    method ResetQueueState()
      requires Valid()
      modifies this
      ensures Valid() && Sender() == old(Sender()).(initialized := false, counter := C.COUNTER_START, recovery := false)
      ensures pending.None? && eventLimit == old(eventLimit)
    {
      queues := false;
      counter := C.COUNTER_START;
      pending := None;
      recovery := false;
    }

    /** `initialize_queues`, given whether a valid map and base were read. */
    method InitializeQueues(read: Option<DeviceError>) returns (r: Option<DeviceError>)
      requires Valid()
      modifies this
      ensures Valid() && r == read && eventLimit == old(eventLimit)
      ensures read.Some? ==> Sender() == old(Sender()) && pending == old(pending)
      ensures read.None? ==>
                pending.None?
                && Sender() == old(Sender()).(initialized := true, counter := C.COUNTER_START, recovery := false)
    {
      if read.Some? {
        return read;
      }
      queues := true;
      counter := C.COUNTER_START;
      pending := None;
      recovery := false;
      r := None;
    }

    method SetFragmentLimits(commandLen: nat, eventLen: nat) returns (ok: bool)
      requires Valid()
      modifies this
      ensures Valid() && (ok <==> 12 <= commandLen <= 400 && 12 <= eventLen <= 1000)
      ensures Sender() == if ok then old(Sender()).(limit := commandLen) else old(Sender())
      ensures eventLimit == if ok then eventLen else old(eventLimit)
      ensures pending == old(pending)
    {
      ok := 12 <= commandLen <= 400 && 12 <= eventLen <= 1000;
      if ok {
        commandLimit := commandLen;
        eventLimit := eventLen;
      }
    }

    // -------------------------------------------------------------- commands

    method MarkUncertain() returns (e: DeviceError)
      modifies this`recovery
      ensures recovery && e == CommandDeliveryUncertain
    {
      recovery := true;
      e := CommandDeliveryUncertain;
    }

    method Dequeue() returns (d: C.Dequeued)
      modifies bus
      ensures (bus.Value(), d) == C.Dequeue(old(bus.Value()))
    {
      var head := bus.Read();
      if head.None? || head.value == C.SENTINEL {
        return C.Faulty;
      }
      if head.value == 0 {
        return C.Empty;
      }
      var ok := bus.Write(C.TookBuffer(head.value));
      d := if ok then C.Got(head.value) else C.Faulty;
    }

    /** `post_control_fragment`. */
    method PostFragment(address: nat, fragment: seq<byte>) returns (r: Option<DeviceError>)
      modifies this`recovery, this`counter, bus
      ensures C.Sent(Sender(), r) == C.Post(old(Sender()), address, fragment)
    {
      hide C.WriteBus;
      var ok := bus.Write(C.WroteFragment(address, fragment));
      if ok {
        ok := bus.Write(C.Enqueued(address));
        if ok {
          ok := bus.Write(C.Triggered(counter));
          if ok {
            counter := (counter + 1) % C.WORD;
            return None;
          }
        }
      }
      var e := MarkUncertain();
      r := Some(e);
    }

    /** `wait_for_command_buffer`. */
    method WaitForBuffer(attempts: nat, posted: bool) returns (r: Result<nat, DeviceError>)
      modifies this`recovery, bus
      ensures C.Waited(Sender(), r) == C.Wait(old(Sender()), attempts, posted)
    {
      ghost var goal := C.Wait(Sender(), attempts, posted);
      for left := attempts downto 0
        invariant C.Wait(Sender(), left, posted) == goal
        invariant recovery == old(recovery)
      {
        ghost var before := Sender();
        var d := Dequeue();
        match d {
          case Got(address) => return Ok(address);
          case Empty =>
          case Faulty =>
            var e := MarkUncertain();
            return Err(e);
        }
      }
      if posted {
        var e := MarkUncertain();
        return Err(e);
      }
      r := Err(CommandQueueTimeout);
    }

    /** `send_control_with_wait`. */
    method SendWithWait(message: seq<byte>, attempts: nat) returns (r: Option<DeviceError>)
      requires Valid()
      modifies this`recovery, this`counter, bus
      ensures Valid() && C.Sent(Sender(), r) == C.SendWithWait(old(Sender()), message, attempts)
    {
      hide C.Wait, C.Post, C.Complete;
      if !C.Complete(message) {
        return Some(DeviceProtocol);
      }
      if recovery {
        return Some(RecoveryRequired);
      }
      if attempts == 0 {
        return Some(CommandQueueTimeout);
      }
      if !queues {
        return Some(NotInitialized);
      }
      ghost var goal := C.SendChunks(Sender(), message, attempts, false);
      var rest := message;
      var posted := false;
      while rest != []
        invariant Valid() && commandLimit == old(commandLimit)
        invariant C.SendChunks(Sender(), rest, attempts, posted) == goal
        decreases |rest|
      {
        C.WaitKeepsLimit(Sender(), attempts, posted);
        var n := if |rest| < commandLimit then |rest| else commandLimit;
        var address := WaitForBuffer(attempts, posted);
        if address.Err? {
          return Some(address.error);
        }
        var error := PostFragment(address.value, rest[..n]);
        if error.Some? {
          return error;
        }
        rest := rest[n..];
        posted := true;
      }
      r := None;
    }

    /** `send_control`. */
    method SendOnce(message: seq<byte>) returns (r: Option<DeviceError>)
      requires Valid()
      modifies this`recovery, this`counter, bus
      ensures Valid() && C.Sent(Sender(), r) == C.SendOnce(old(Sender()), message)
    {
      hide C.Post, C.Complete;
      if !C.Complete(message) {
        return Some(DeviceProtocol);
      }
      if recovery {
        return Some(RecoveryRequired);
      }
      if |message| > commandLimit {
        return Some(CommandNeedsWait);
      }
      if !queues {
        return Some(NotInitialized);
      }
      var d := Dequeue();
      match d {
        case Empty => r := Some(CommandQueueEmpty);
        case Faulty =>
          var e := MarkUncertain();
          r := Some(e);
        case Got(address) => r := PostFragment(address, message);
      }
    }

    // ---------------------------------------------------------------- events

    /** `discard_pending_event`. */
    method DiscardPendingEvent() returns (any: bool)
      requires Valid()
      modifies this`pending
      ensures Valid() && any == old(pending).Some? && pending == E.Discarding(old(pending))
    {
      any := pending.Some?;
      if any {
        pending := Some(pending.value.(discard := true, scratch := None));
      }
    }

    /** `try_read_event`. */
    method TryReadEvent(port: EventPort, scratch: array<byte>) returns (r: Result<Option<B.HostMessage>, DeviceError>)
      requires Valid() && E.FragmentsOk(eventLimit, port.ready)
      modifies this`pending, port, scratch
      ensures Valid()
      ensures old(recovery) ==> r == Err(RecoveryRequired)
      ensures !old(recovery) && !old(queues) ==> r == Err(NotInitialized)
      ensures old(recovery) || !old(queues) ==>
                pending == old(pending) && port.ready == old(port.ready) && port.released == old(port.released)
                && scratch[..] == old(scratch[..])
      ensures !old(recovery) && old(queues) ==>
                var p := B.ReadOver(eventLimit, old(pending), scratch, old(scratch[..]), old(port.ready), old(port.io));
                r == B.Answer(p)
                && Leaves(p, pending, scratch[..], old(port.ready), port.ready, old(port.released), port.released)
    {
      hide B.BeginOver, B.DrainOver, B.ParseHost;
      if recovery {
        return Err(RecoveryRequired);
      }
      if !queues {
        return Err(NotInitialized);
      }
      if pending.Some? {
        var q := pending.value;
        if !q.discard && (q.scratch != Some(scratch) || scratch.Length < q.declared) {
          pending := Some(q.(discard := true, scratch := None));
          return Err(EventBufferChanged);
        }
        r := ContinuePendingEvent(port, scratch);
      } else {
        r := ReadNewEvent(port, scratch);
      }
    }

    /** `acknowledge_interrupt`. */
    method Acknowledge(port: EventPort) returns (ok: bool)
      modifies port`io
      ensures ok <==> !B.Fails(old(port.io), 1)
      ensures port.io == if ok then B.Past(old(port.io), 1) else old(port.io)
    {
      ok := port.Operate();
    }

    /** `release_and_acknowledge_event`. */
    method ReleaseAndAcknowledge(port: EventPort, x: E.Fragment, resubmit: bool) returns (ok: bool)
      modifies port`released, port`io
      ensures ok <==> !B.Fails(old(port.io), B.Count(resubmit) + 1)
      ensures port.released ==
              old(port.released)
              + if ok || old(port.io).after > 0 || old(port.io).arrived > 0 then E.Released(x, resubmit) else []
    {
      ok := port.Release(x, resubmit);
      if ok {
        ok := Acknowledge(port);
      }
    }

    /** `read_new_event`. */
    method ReadNewEvent(port: EventPort, scratch: array<byte>) returns (r: Result<Option<B.HostMessage>, DeviceError>)
      requires Valid() && pending.None? && E.FragmentsOk(eventLimit, port.ready)
      modifies this`pending, port, scratch
      ensures Valid()
      ensures var p := B.BeginOver(eventLimit, scratch, old(scratch[..]), old(port.ready), old(port.io));
              r == B.Answer(p)
              && Leaves(p, pending, scratch[..], old(port.ready), port.ready, old(port.released), port.released)
    {
      hide B.ParseHost, E.Copy, E.Released;
      ghost var before := scratch[..];
      var next := port.Dequeue();
      if next.Err? {
        NothingCopied(before, 0);
        return Err(next.error);
      }
      if next.value.None? {
        return Ok(None);
      }
      var x := next.value.value;
      NothingCopied(before, 0);
      var header := port.Operate();
      if !header {
        return Err(Rpu);
      }
      r := ReadBegun(port, scratch, x);
    }

    /** `validate_new_event` and what follows. */
    method ReadBegun(port: EventPort, scratch: array<byte>, x: E.Fragment)
      returns (r: Result<Option<B.HostMessage>, DeviceError>)
      requires Valid() && pending.None? && |x.buffer| >= eventLimit
      modifies this`pending, port`released, port`io, scratch
      ensures Valid()
      ensures var p := Begun(eventLimit, scratch, old(scratch[..]), x, old(port.io));
              r == B.Answer(p) && pending == B.Kept(p) && scratch[..] == B.Buffer(p)
              && port.released == old(port.released) + B.Gave(p)
    {
      hide B.ParseHost, E.Copy, E.Released;
      NothingCopied(scratch[..], 0);
      var declared, resubmit := Le32(x.buffer, 0), Le32(x.buffer, 4) != 0;
      var first := if eventLimit < declared then eventLimit else declared;
      if declared < E.HEADER_LEN {
        var ok := ReleaseAndAcknowledge(port, x, resubmit);
        return Err(if ok then DeviceProtocol else Rpu);
      }
      if declared > scratch.Length {
        var ok := ReleaseAndAcknowledge(port, x, resubmit);
        if !ok {
          return Err(Rpu);
        }
        if first < declared {
          pending := Some(E.Pending(declared, first, resubmit, true, None));
        }
        return Err(EventTooLarge);
      }
      var ok := port.ReadPiece(x, first, scratch, 0);
      if ok {
        ok := ReleaseAndAcknowledge(port, x, resubmit);
      }
      if !ok {
        return Err(Rpu);
      }
      if first == declared {
        return Parsed(scratch[..declared]);
      }
      pending := Some(E.Pending(declared, first, resubmit, false, Some(scratch)));
      r := Ok(None);
    }

    /** The next fragment of a pending event, if there is one: `dequeue` and
        `consume_pending_fragment`. */
    method TakePending(port: EventPort, scratch: array<byte>, q: E.Pending<array<byte>>)
      returns (r: Result<Option<nat>, DeviceError>)
      requires Valid() && E.FragmentsOk(eventLimit, port.ready)
      requires q.copied < q.declared && E.PendingOk(Some(q), scratch.Length)
      modifies port, scratch
      ensures old(port.ready) == [] ==>
                && (r.Err? <==> B.Fails(old(port.io), 1))
                && (r.Err? ==> r.error == if old(port.io).after == 0 then B.QueueError(old(port.io)) else Rpu)
                && (r.Ok? ==> r.value.None? && port.io == B.Past(old(port.io), 1))
                && port.ready == [] && port.released == old(port.released) && scratch[..] == old(scratch[..])
      ensures old(port.ready) != [] ==> (r.Err? <==> B.Fails(old(port.io), B.Operations(q)))
      ensures old(port.ready) != [] && r.Err? ==>
                var b := PendingBroken(eventLimit, old(port.io), q, old(scratch[..]), old(port.ready)[0]);
                && r.error == b.error && scratch[..] == b.scratch && port.ready == old(port.ready)[b.consumed..]
                && port.released == old(port.released) + b.released
      ensures old(port.ready) != [] && r.Ok? ==>
                var x, count := old(port.ready)[0], E.Min(eventLimit, q.declared - q.copied);
                && r.value == Some(count) && port.ready == old(port.ready)[1..]
                && port.released == old(port.released) + E.Released(x, q.resubmit)
                && scratch[..] == (if q.discard then old(scratch[..]) else E.Copy(old(scratch[..]), q.copied, x, count))
                && port.io == B.Past(old(port.io), B.Operations(q))
    {
      hide E.Copy, E.Released;
      NothingCopied(scratch[..], if q.discard then 0 else q.copied);
      var next := port.Dequeue();
      if next.Err? {
        return Err(next.error);
      }
      if next.value.None? {
        return Ok(None);
      }
      var x := next.value.value;
      var count := if eventLimit < q.declared - q.copied then eventLimit else q.declared - q.copied;
      var ok := true;
      if !q.discard {
        ok := port.ReadPiece(x, count, scratch, q.copied);
      }
      if ok {
        ok := port.Release(x, q.resubmit);
      }
      r := if ok then Ok(Some(count)) else Err(Rpu);
    }

    /** `drain_pending_fragments`: takes fragments until the event is complete
        or the queue reads empty. */
    method DrainPending(port: EventPort, scratch: array<byte>, p: E.Pending<array<byte>>)
      returns (r: Result<bool, DeviceError>, q: E.Pending<array<byte>>, removed: bool, ghost taken: nat,
               ghost released: seq<nat>)
      requires Valid() && E.FragmentsOk(eventLimit, port.ready)
      requires p.copied < p.declared && E.PendingOk(Some(p), scratch.Length)
      modifies port, scratch
      ensures q == p.(copied := q.copied) && q.copied <= q.declared
      ensures taken <= |old(port.ready)| && port.ready == old(port.ready)[taken..]
      ensures port.released == old(port.released) + released
      ensures var before, ready, io := old(scratch[..]), old(port.ready), old(port.io);
              var goal := B.DrainOver(eventLimit, p, p, scratch, before, ready, io, false);
              match r
              case Err(e) => goal == B.Broken(Some(p), scratch[..], taken, released, e, B.Draining)
              case Ok(complete) =>
                && (complete <==> q.copied == q.declared)
                && if complete then
                     removed && Resumes(goal, taken, released,
                                        B.FinishOver(eventLimit, p, q, scratch, scratch[..], port.ready, port.io))
                   else Resumes(goal, taken, released, Waiting(p, q, scratch[..], port.io, removed))
    {
      hide B.DrainOver, B.FinishOver, E.Copy, E.Released, Drained, PendingBroken;
      ghost var goal := B.DrainOver(eventLimit, p, p, scratch, scratch[..], port.ready, port.io, false);
      q, removed, taken, released := p, false, 0, [];
      DrainStarts(eventLimit, p, scratch, scratch[..], port.ready, port.io);
      while q.copied < q.declared
        invariant q == p.(copied := q.copied) && q.copied <= q.declared && (q.copied == q.declared ==> removed)
        invariant taken <= |old(port.ready)| && port.ready == old(port.ready)[taken..]
        invariant port.released == old(port.released) + released
        invariant E.FragmentsOk(eventLimit, port.ready)
        invariant Drained(eventLimit, goal, p, q, scratch, scratch[..], port.ready, port.io, removed, taken, released)
      {
        ghost var before, ready, io := scratch[..], port.ready, port.io;
        var next := TakePending(port, scratch, q);
        if ready == [] {
          DrainWaits(eventLimit, goal, p, q, scratch, before, io, removed, taken, released);
        } else {
          assert ready == [ready[0]] + ready[1..];
          DrainSteps(eventLimit, goal, p, q, scratch, before, ready[0], ready[1..], io, removed, taken, released);
        }
        if next.Err? {
          ghost var b := if ready == [] then B.Broken(None, before, 0, [], Rpu, B.Draining)
                         else PendingBroken(eventLimit, io, q, before, ready[0]);
          taken, released := taken + b.consumed, released + b.released;
          return Err(next.error), q, removed, taken, released;
        }
        if next.value.None? {
          return Ok(false), q, removed, taken, released;
        }
        taken, released := taken + 1, released + E.Released(ready[0], q.resubmit);
        q := q.(copied := q.copied + next.value.value);
        removed := true;
      }
      DrainEnds(eventLimit, goal, p, q, scratch, scratch[..], port.ready, port.io, removed, taken, released);
      r := Ok(true);
    }

    /** `continue_pending_event`, and the new event after a discarded one. */
    method ContinuePendingEvent(port: EventPort, scratch: array<byte>)
      returns (r: Result<Option<B.HostMessage>, DeviceError>)
      requires Valid() && E.FragmentsOk(eventLimit, port.ready)
      requires pending.Some? && E.PendingOk(pending, scratch.Length)
      modifies this`pending, port, scratch
      ensures Valid()
      ensures var q := old(pending.value);
              var p := B.DrainOver(eventLimit, q, q, scratch, old(scratch[..]), old(port.ready), old(port.io), false);
              r == B.Answer(p)
              && Leaves(p, pending, scratch[..], old(port.ready), port.ready, old(port.released), port.released)
    {
      hide B.DrainOver, B.BeginOver, B.ParseHost;
      var d, q, removed, taken, released := DrainPending(port, scratch, pending.value);
      if d.Err? {
        return Err(d.error);
      }
      if removed {
        var ok := Acknowledge(port);
        if !ok {
          return Err(Rpu);
        }
      }
      if !d.value {
        pending := Some(q);
        return Ok(None);
      }
      pending := None;
      if q.discard {
        r := ReadNewEvent(port, scratch);
      } else {
        r := Parsed(scratch[..q.declared]);
      }
    }
  }

  function Parsed(m: seq<byte>): Result<Option<B.HostMessage>, DeviceError> {
    match B.ParseHost(m)
    case Ok(message) => Ok(Some(message))
    case Err(e) => Err(e)
  }

  /** The device, the buffer and the queues after a call. */
  ghost predicate Leaves<Id>(p: B.Read<Id>, pending: Option<E.Pending<Id>>, scratch: seq<byte>,
                             before: seq<E.Fragment>, ready: seq<E.Fragment>, had: seq<nat>, released: seq<nat>)
    requires B.Consumed(p) <= |before|
  {
    && pending == B.Kept(p) && scratch == B.Buffer(p)
    && ready == before[B.Consumed(p)..] && released == had + B.Gave(p)
  }

  /** A new event after its header has been read. */
  ghost function Begun<Id>(f: nat, id: Id, scratch: seq<byte>, x: E.Fragment, io: B.Io): B.Read<Id>
    requires E.LimitOk(f) && |x.buffer| >= f
  {
    var fits := E.HEADER_LEN <= E.Declared(x) <= |scratch|;
    if B.Fails(io, B.Count(fits) + B.Count(E.Resubmit(x)) + 1) then
      B.BrokenAt(io.(after := io.after + 3), None, scratch, x, 1 + B.Count(fits), E.Resubmit(x), 0,
                 if fits then E.Min(f, E.Declared(x)) else 0, false)
    else B.Done(E.BeginEvent(f, id, scratch, x))
  }

  /** A failure on a fragment of the pending event. */
  ghost function PendingBroken<Id>(f: nat, io: B.Io, q: E.Pending<Id>, scratch: seq<byte>, x: E.Fragment)
    : (b: B.Read<Id>)
    requires io.Failing? && q.copied < q.declared && E.PendingOk(Some(q), |scratch|) && |x.buffer| >= f
    ensures b.Broken? && b.consumed <= 1
  {
    B.BrokenAt(io, None, scratch, x, B.Count(!q.discard), q.resubmit, if q.discard then 0 else q.copied,
               if q.discard then 0 else E.Min(f, q.declared - q.copied), true)
  }

  /** No fragment is left, but the fragments taken are to be acknowledged. */
  ghost function Waiting<Id>(stored: E.Pending<Id>, q: E.Pending<Id>, scratch: seq<byte>, io: B.Io, removed: bool)
    : B.Read<Id>
  {
    if removed && B.Fails(io, 1) then B.Broken(Some(stored), scratch, 0, [], Rpu, B.Draining)
    else B.Done(E.Poll(Some(q), scratch, 0, [], E.NothingYet))
  }

  lemma NothingCopied(scratch: seq<byte>, at: nat)
    requires at <= |scratch|
    ensures forall x: E.Fragment {:trigger E.Copy(scratch, at, x, 0)} :: E.Copy(scratch, at, x, 0) == scratch
  {
  }

  /** How far a drain has come: the rest of the call is the rest of the drain,
      or, once the event is complete, its end. */
  ghost predicate Drained<Id>(f: nat, goal: B.Read<Id>, stored: E.Pending<Id>, q: E.Pending<Id>, id: Id,
                              scratch: seq<byte>, ready: seq<E.Fragment>, io: B.Io, removed: bool, taken: nat,
                              released: seq<nat>)
    requires E.LimitOk(f) && E.FragmentsOk(f, ready) && stored.copied < stored.declared
    requires q.copied <= q.declared && (q.discard || q.declared <= |scratch|)
  {
    Resumes(goal, taken, released,
            if q.copied < q.declared then B.DrainOver(f, stored, q, id, scratch, ready, io, removed)
            else B.FinishOver(f, stored, q, id, scratch, ready, io))
  }

  lemma DrainStarts<Id>(f: nat, q: E.Pending<Id>, id: Id, scratch: seq<byte>, ready: seq<E.Fragment>, io: B.Io)
    requires E.LimitOk(f) && E.FragmentsOk(f, ready) && q.copied < q.declared && E.PendingOk(Some(q), |scratch|)
    ensures Drained(f, B.DrainOver(f, q, q, id, scratch, ready, io, false), q, q, id, scratch, ready, io, false, 0, [])
  {
    hide B.DrainOver;
  }

  lemma DrainEnds<Id>(f: nat, goal: B.Read<Id>, stored: E.Pending<Id>, q: E.Pending<Id>, id: Id, scratch: seq<byte>,
                      ready: seq<E.Fragment>, io: B.Io, removed: bool, taken: nat, released: seq<nat>)
    requires E.LimitOk(f) && E.FragmentsOk(f, ready) && stored.copied < stored.declared
    requires q.copied == q.declared && (q.discard || q.declared <= |scratch|)
    requires Drained(f, goal, stored, q, id, scratch, ready, io, removed, taken, released)
    ensures Resumes(goal, taken, released, B.FinishOver(f, stored, q, id, scratch, ready, io))
  {
  }

  lemma DrainWaits<Id>(f: nat, goal: B.Read<Id>, stored: E.Pending<Id>, q: E.Pending<Id>, id: Id, scratch: seq<byte>,
                       io: B.Io, removed: bool, taken: nat, released: seq<nat>)
    requires E.LimitOk(f) && stored.copied < stored.declared && q.copied < q.declared && E.PendingOk(Some(q), |scratch|)
    requires Drained(f, goal, stored, q, id, scratch, [], io, removed, taken, released)
    ensures if B.Fails(io, 1) then
              goal == B.Broken(Some(stored), scratch, taken, released,
                               if io.after == 0 then B.QueueError(io) else Rpu, B.Draining)
            else Resumes(goal, taken, released, Waiting(stored, q, scratch, B.Past(io, 1), removed))
  {
    assert released + [] == released;
  }

  lemma ResumesOne<Id>(goal: B.Read<Id>, taken: nat, released: seq<nat>, back: seq<nat>, rest: B.Read<Id>)
    requires Resumes(goal, taken, released, B.AfterOne(back, rest))
    ensures Resumes(goal, taken + 1, released + back, rest)
  {
    assert released + (back + B.Gave(rest)) == released + back + B.Gave(rest);
  }

  lemma DrainSteps<Id>(f: nat, goal: B.Read<Id>, stored: E.Pending<Id>, q: E.Pending<Id>, id: Id, scratch: seq<byte>,
                       x: E.Fragment, rest: seq<E.Fragment>, io: B.Io, removed: bool, taken: nat, released: seq<nat>)
    requires E.LimitOk(f) && |x.buffer| >= f && E.FragmentsOk(f, rest) && E.FragmentsOk(f, [x] + rest)
    requires stored.copied < stored.declared && q.copied < q.declared && E.PendingOk(Some(q), |scratch|)
    requires Drained(f, goal, stored, q, id, scratch, [x] + rest, io, removed, taken, released)
    ensures var count := E.Min(f, q.declared - q.copied);
            var filled := if q.discard then scratch else E.Copy(scratch, q.copied, x, count);
            if B.Fails(io, B.Operations(q)) then
              var b := PendingBroken(f, io, q, scratch, x);
              goal == B.Broken(Some(stored), b.scratch, taken + b.consumed, released + b.released, b.error, B.Draining)
            else Drained(f, goal, stored, q.(copied := q.copied + count), id, filled, rest,
                         B.Past(io, B.Operations(q)), true, taken + 1, released + E.Released(x, q.resubmit))
  {
    hide B.DrainOver, B.FinishOver, E.Copy, E.Released;
    var count := E.Min(f, q.declared - q.copied);
    var filled := if q.discard then scratch else E.Copy(scratch, q.copied, x, count);
    B.DrainOnce(f, stored, q, id, scratch, x, rest, io, removed, count, filled);
    if !B.Fails(io, B.Operations(q)) {
      var later := B.Past(io, B.Operations(q));
      var next := q.(copied := q.copied + count);
      var left := if next.copied < q.declared then B.DrainOver(f, stored, next, id, filled, rest, later, true)
                  else B.FinishOver(f, stored, next, id, filled, rest, later);
      B.FinishIgnoresCopied(f, stored, q, next, id, filled, rest, later);
      ResumesOne(goal, taken, released, E.Released(x, q.resubmit), left);
    }
  }
}
