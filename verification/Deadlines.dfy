/** Station deadlines under the production driver: every state that waits for
    firmware or for the access point is left in bounded time (src/station.rs,
    src/runtime.rs, src/production.rs). */
module Deadlines {
  import opened Driver
  import opened Production
  import opened Station
  import opened Wrappers

  /** A state with a deadline has it armed, within the configured bound; a
      state without one has none. */
  predicate Armed(s: Controller) {
    var bound := Timeout(s.timeouts, s.state);
    && (s.remaining.Some? <==> bound.Some?)
    && (s.remaining.Some? ==> 0 < s.remaining.value <= bound.value)
  }

  /** The station waits for firmware or for the access point. */
  predicate Waits(s: Controller) {
    Deadline(s.timeouts, s.state).Some?
  }

  lemma StatusArms(s: Controller, command: nat, status: nat)
    requires Armed(s)
    ensures Armed(OnCommandStatus(s, command, status).s)
  {
    hide Deadline;
  }

  lemma ManagementArms(s: Controller, result: int, m: Mlme)
    requires Armed(s)
    ensures Armed(OnAuthentication(s, result, m).s) && Armed(OnAssociation(s, result, m).s)
    ensures Armed(OnDisconnected(s, m).s)
  {
    hide Deadline, MlmeStatus, Address;
  }

  lemma InterfaceAndScanArm(s: Controller, status: int, sequence: nat)
    requires Armed(s)
    ensures Armed(OnInterfaceState(s, status).s) && Armed(OnInterfaceCreated(s, status).s)
    ensures Armed(OnRegulatoryChange(s).s)
    ensures Armed(OnScanDone(s, status).s) && Armed(OnScanResult(s, sequence).s)
  {
    hide Deadline;
  }

  lemma ControlArms(ids: Ids, s: Controller, e: ControlEvent)
    requires Armed(s)
    ensures Armed(OnControl(ids, s, e).s)
  {
    hide Deadline, OnCommandStatus, OnInterfaceState, OnRegulatoryChange, OnInterfaceCreated, OnScanDone, OnScanResult,
      OnAuthentication, OnAssociation, OnDisconnected;
    match e.body
    case CommandStatus(command, status) => StatusArms(s, command, status);
    case Authentication(m) => ManagementArms(s, e.header.result, m);
    case Association(m) => ManagementArms(s, e.header.result, m);
    case Deauthentication(m) => ManagementArms(s, 0, m);
    case Disassociation(m) => ManagementArms(s, 0, m);
    case InterfaceState(status) => InterfaceAndScanArm(s, status, 0);
    case ScanDone(status) => InterfaceAndScanArm(s, status, 0);
    case ScanResult(sequence) => InterfaceAndScanArm(s, 0, sequence);
    case _ => InterfaceAndScanArm(s, e.header.result, 0);
  }

  lemma CommandArms(ids: Ids, s: Controller, c: Command, io: Submission)
    requires Armed(s)
    ensures Armed(Submit(ids, s, c, io).s)
  {
    hide Deadline;
  }

  lemma PollArms(ids: Ids, n: Native, read: EventRead)
    requires Armed(n.station)
    ensures Armed(Poll(ids, n, read).n.station)
  {
    hide Deadline, OnControl;
    if read.Read? && read.message.ControlMessage? && read.message.control.Some? {
      ControlArms(ids, n.station, read.message.control.value);
    }
  }

  lemma PerformArms(ids: Ids, n: Native, c: Call)
    requires Armed(n.station)
    ensures Armed(Perform(ids, n, c).n.station)
  {
    hide Deadline, Poll, Submit, NeedsRecovery, StationNeedsRecovery, PortAdmits;
    match c
    case CallPoll(read) => PollArms(ids, n, read);
    case CallRun(command, io) => CommandArms(ids, n.station, command, io);
    case _ =>
  }

  lemma {:induction false} AlwaysArmed(ids: Ids, calls: seq<Call>)
    ensures Armed(Performed(ids, calls).station)
    decreases |calls|
  {
    if calls != [] {
      hide Perform, Armed;
      AlwaysArmed(ids, calls[..|calls| - 1]);
      PerformArms(ids, Performed(ids, calls[..|calls| - 1]), calls[|calls| - 1]);
    }
  }

  function Total(elapsed: seq<nat>): nat {
    if elapsed == [] then 0 else elapsed[0] + Total(elapsed[1..])
  }

  /** Only time passes. */
  function Ticked(ids: Ids, n: Native, elapsed: seq<nat>): Native
    decreases |elapsed|
  {
    if elapsed == [] then n else Ticked(ids, Perform(ids, n, CallTick(elapsed[0])).n, elapsed[1..])
  }

  lemma {:induction false} TicksAddUp(ids: Ids, n: Native, elapsed: seq<nat>)
    requires Armed(n.station)
    ensures var left := n.station.remaining;
            Ticked(ids, n, elapsed) ==
            if left.None? then n
            else if Total(elapsed) < left.value
            then n.(station := n.station.(remaining := Some(left.value - Total(elapsed))))
            else EnterRecovery(n.(station := FailedWith(n.station, TimedOut(n.station.state))))
    decreases |elapsed|
  {
    if elapsed != [] {
      TicksAddUp(ids, Perform(ids, n, CallTick(elapsed[0])).n, elapsed[1..]);
    }
  }

  /** Nothing waits forever. In every reachable state that has a deadline the
      time left is within the configured bound. While only time passes, the
      driver enters recovery exactly when the elapsed times, however divided,
      add up to the time left; until then nothing else changes. */
  lemma NothingWaitsForever(ids: Ids, calls: seq<Call>, elapsed: seq<nat>)
    requires Waits(Performed(ids, calls).station)
    ensures var n := Performed(ids, calls);
            && n.station.remaining.Some?
            && 0 < n.station.remaining.value <= Timeout(n.station.timeouts, n.station.state).value
            && var m := Ticked(ids, n, elapsed);
            if Total(elapsed) >= n.station.remaining.value then Recovered(n, m)
            else m.state == n.state && m.mac == n.mac
                 && m.station == n.station.(remaining := Some(n.station.remaining.value - Total(elapsed)))
  {
    hide Performed, Perform;
    AlwaysArmed(ids, calls);
    TicksAddUp(ids, Performed(ids, calls), elapsed);
  }
}
