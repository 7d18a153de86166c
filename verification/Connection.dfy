/** Runs of the production driver from a new driver to a connected station
    (src/production.rs, src/station.rs), and what an unreadable watchdog does to
    one at the native layer (src/runtime.rs). */
module Connection {
  import opened Bytes
  import opened Driver
  import opened Production
  import opened Station
  import opened Wrappers

  // ------------------------------------------------------------- environment

  const ANY_HEADER := Header(false, 0, false, 0, 0, 0)

  function Event(body: ControlBody): Call {
    CallPoll(Read(ControlMessage(Some(ControlEvent(ANY_HEADER, body)))))
  }

  const INTERFACE_CREATED :=
    CallPoll(Read(ControlMessage(Some(ControlEvent(ANY_HEADER.(commandEvent := NEW_INTERFACE_EVENT), OtherControl)))))

  /** A successful management response of the peer, of either kind. */
  function Granted(bssid: seq<byte>): Mlme {
    Mlme(true, false, Zeros(10) + bssid + bssid + Zeros(8))
  }

  lemma GrantedFields(bssid: seq<byte>)
    requires |bssid| == 6
    ensures Address(Granted(bssid), 10) == Address(Granted(bssid), 16) == Some(bssid)
    ensures MlmeStatus(0, Granted(bssid), 28) == MlmeStatus(0, Granted(bssid), 26) == Ok(0)
  {
    var f := Granted(bssid).frame;
    assert f[10..16] == bssid && f[16..22] == bssid;
    assert f[26] == f[27] == f[28] == f[29] == 0;
  }

  // -------------------------------------------------------------------- runs

  predicate Associates(c: Call) {
    c.CallRun? && c.command.Associate?
  }

  ghost predicate NeverAssociates(calls: seq<Call>) {
    forall i | 0 <= i < |calls| :: !Associates(calls[i])
  }

  /** One more call of a run. */
  lemma Then(ids: Ids, calls: seq<Call>, c: Call) returns (more: seq<Call>, n: Native)
    requires CallsOk(calls) && CallOk(c)
    ensures more == calls + [c] && CallsOk(more) && n == Performed(ids, more)
    ensures n == Perform(ids, Performed(ids, calls), c).n
    ensures NeverAssociates(calls) && !Associates(c) ==> NeverAssociates(more)
  {
    hide Perform;
    more := calls + [c];
    assert more[..|more| - 1] == calls;
    n := Performed(ids, more);
  }

  /** Recovery. */
  lemma GetsReady(ids: Ids, mac: seq<byte>) returns (calls: seq<Call>)
    ensures CallsOk(calls) && NeverAssociates(calls)
    ensures var n := Performed(ids, calls);
            && n.state == Ready && n.station.state == Down && n.station.link == UNLINKED && !n.station.created
            && n.station.pending.None?
  {
    hide Performed, Timeout, NeedsRecovery, StationNeedsRecovery;
    var n;
    calls := [];
    assert Performed(ids, calls) == NewDriver() by { StartsNew(ids); }
    calls, n := Then(ids, calls, CallRecover(Some(mac)));
    calls, n := Then(ids, calls, CallPoll(Read(SystemMessage(InitDone))));
  }

  /** The interface, and its way up. */
  lemma GetsIdle(ids: Ids, mac: seq<byte>) returns (calls: seq<Call>)
    ensures CallsOk(calls) && NeverAssociates(calls)
    ensures var n := Performed(ids, calls);
            && n.state == Ready && n.station.state == Idle && n.station.link == UNLINKED && n.station.pending.None?
            && n.station.created
  {
    hide Performed, Timeout, NeedsRecovery, StationNeedsRecovery;
    var n;
    calls := GetsReady(ids, mac);
    calls, n := Then(ids, calls, CallRun(CreateInterface, Accepted));
    calls, n := Then(ids, calls, INTERFACE_CREATED);
    assert n.state == Ready && n.station.state == Down && n.station.link == UNLINKED && n.station.created;
    calls, n := Then(ids, calls, CallRun(BringUp, Accepted));
    calls, n := Then(ids, calls, Event(InterfaceState(0)));
  }

  lemma StartsNew(ids: Ids)
    ensures Performed(ids, []) == NewDriver()
  {
  }

  /** Authentication with an access point that grants it. */
  lemma GetsAuthenticated(ids: Ids, mac: seq<byte>, bssid: seq<byte>) returns (calls: seq<Call>)
    requires |bssid| == 6
    ensures CallsOk(calls) && NeverAssociates(calls)
    ensures var n := Performed(ids, calls);
            && n.state == Ready && n.station.state == Authenticated
            && n.station.link == Link(Some(bssid), false, false, false) && n.station.created
  {
    hide Performed, Timeout, NeedsRecovery, StationNeedsRecovery, Granted, Address, MlmeStatus;
    var n;
    calls := GetsIdle(ids, mac);
    GrantedFields(bssid);
    calls, n := Then(ids, calls, CallRun(Authenticate(bssid), Accepted));
    calls, n := Then(ids, calls, Event(Authentication(Granted(bssid))));
  }

  /** An open network: the port opens with the carrier. */
  lemma OpensThePort(ids: Ids, mac: seq<byte>, bssid: seq<byte>) returns (calls: seq<Call>)
    requires |bssid| == 6
    ensures CallsOk(calls)
    ensures var n := Performed(ids, calls);
            && n.state == Ready && PortOpen(n.station) && n.station.link == Link(Some(bssid), false, true, true)
            && n.station.created
  {
    hide Performed, Timeout, NeedsRecovery, StationNeedsRecovery, Granted, Address, MlmeStatus;
    var n;
    calls := GetsAuthenticated(ids, mac, bssid);
    GrantedFields(bssid);
    calls, n := Then(ids, calls, CallRun(Associate(bssid, false), Accepted));
    calls, n := Then(ids, calls, Event(Association(Granted(bssid))));
    assert n.state == Ready && n.station.state == AwaitingCarrier;
    calls, n := Then(ids, calls, CallPoll(Read(DataMessageOf(LinkData(CarrierOn(ids.wdevId))))));
  }

  // ---------------------------------------------------------------- watchdog

  /** The native layer's fault with the port open happens in a run: every open
      network leads to a ready driver in which such a check leaves the port open. */
  lemma WatchdogFaultInARun(ids: Ids, mac: seq<byte>, bssid: seq<byte>) returns (calls: seq<Call>)
    requires |bssid| == 6
    ensures CallsOk(calls)
    ensures var n := Performed(ids, calls);
            var after := WatchdogPending(n, OnlySentinels).n;
            n.state == Ready && after.state == DriverFault && PortOpen(after.station)
  {
    hide Performed;
    calls := OpensThePort(ids, mac, bssid);
  }
}
