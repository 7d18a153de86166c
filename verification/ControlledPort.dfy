/** What opens the controlled port (src/station.rs): exactly which events do, in
    which states and flags, and the runs in which carrier opens it early or
    opens it again. */
module ControlledPort {
  import opened Bytes
  import opened Connection
  import opened DeviceTypes
  import opened Driver
  import opened Production
  import Handshake
  import D = SecureDriver
  import R = SecureRuntime
  import S = SecureProgress
  import opened Station
  import opened Wrappers

  // ------------------------------------------------------------ one event

  /** A carrier event of the station's interface opens the port of an authorized
      station in every state: no state is looked at. */
  lemma CarrierOpensExactly(ids: Ids, s: Controller, wdevId: nat)
    ensures PortOpen(OnData(ids, s, CarrierOn(wdevId)).s) <==> wdevId == ids.wdevId && s.link.authorized
  {
    hide Timeout;
  }

  predicate Returns(s: Controller) {
    s.returnState == Some(Connected) && s.link.authorized && s.link.carrier
  }

  /** The control events that open the port of a station whose port is closed:
      the awaited association response with carrier already on, and the end of
      an operation that began with the port open, or the authorization itself. */
  predicate ControlOpens(ids: Ids, s: Controller, e: ControlEvent) {
    HeaderMatches(ids, e.header) &&
    match e.body
    case Association(m) =>
      && s.state == Associating && Answers(s, m, 16) && MlmeStatus(e.header.result, m, 26) == Ok(0)
      && s.link.authorized && s.link.carrier
    case CommandStatus(command, status) =>
      && s.pending == Some(command) && status == 0
      && ((command == SET_STATION && s.state == Authorizing && s.link.carrier)
          || ((command == SET_POWER_SAVE || command == SET_POWER_SAVE_TIMEOUT)
              && s.state == PowerSavePending && Returns(s)))
    case RegulatoryChange => s.state == RegulatoryPending && Returns(s)
    case _ => false
  }

  lemma StatusOpensExactly(ids: Ids, s: Controller, e: ControlEvent)
    requires e.body.CommandStatus? && !PortOpen(s)
    ensures PortOpen(OnControl(ids, s, e).s) <==> ControlOpens(ids, s, e)
    ensures ControlOpens(ids, s, e) ==> OnControl(ids, s, e).error.None?
  {
    hide Timeout;
  }

  lemma AssociationOpensExactly(ids: Ids, s: Controller, e: ControlEvent)
    requires e.body.Association? && !PortOpen(s)
    ensures PortOpen(OnControl(ids, s, e).s) <==> ControlOpens(ids, s, e)
    ensures ControlOpens(ids, s, e) ==> OnControl(ids, s, e).error.None?
  {
    hide Timeout;
  }

  lemma ControlOpensExactly(ids: Ids, s: Controller, e: ControlEvent)
    requires !PortOpen(s)
    ensures PortOpen(OnControl(ids, s, e).s) <==> ControlOpens(ids, s, e)
    ensures ControlOpens(ids, s, e) ==> OnControl(ids, s, e).error.None?
  {
    if e.body.CommandStatus? {
      StatusOpensExactly(ids, s, e);
    } else if e.body.Association? {
      AssociationOpensExactly(ids, s, e);
    } else {
      hide Timeout, MlmeStatus, Address, OnCommandStatus, OnAssociation, Answers;
    }
  }

  // ------------------------------------------------------------ every call

  /** The calls that open the port. */
  predicate Opens(ids: Ids, n: Native, c: Call) {
    && n.state == Ready && c.CallPoll? && c.read.Read?
    && match c.read.message
       case ControlMessage(Some(e)) => ControlOpens(ids, n.station, e)
       case DataMessageOf(LinkData(e)) => e.CarrierOn? && e.wdevId == ids.wdevId && n.station.link.authorized
       case _ => false
  }

  lemma PollOpensExactly(ids: Ids, n: Native, read: EventRead)
    requires Closed(n) && !PortOpen(n.station)
    ensures PortOpen(Perform(ids, n, CallPoll(read)).n.station) <==> Opens(ids, n, CallPoll(read))
  {
    hide OnControl, OnData, BeginRecovery, RecoveryComplete, Timeout, NeedsRecovery, ControlOpens, PortOpen;
    RecoveryIsClosed();
    if read.Read? {
      match read.message
      case ControlMessage(Some(e)) =>
        ControlOpensExactly(ids, n.station, e);
      case DataMessageOf(LinkData(e)) =>
        LinkOpensExactly(ids, n.station, e);
      case _ =>
    }
  }

  lemma LinkOpensExactly(ids: Ids, s: Controller, e: LinkEvent)
    requires !PortOpen(s)
    ensures PortOpen(OnData(ids, s, e).s) <==> e.CarrierOn? && e.wdevId == ids.wdevId && s.link.authorized
    ensures PortOpen(OnData(ids, s, e).s) ==> OnData(ids, s, e).error.None?
  {
    hide Timeout;
  }

  lemma RecoveryIsClosed()
    ensures forall s :: !PortOpen(BeginRecovery(s)) && !PortOpen(RecoveryComplete(s))
  {
    hide Timeout;
  }

  /** Of all calls of the production driver exactly those open a closed port. */
  lemma PortOpensExactly(ids: Ids, n: Native, c: Call)
    requires Closed(n) && !PortOpen(n.station) && CallOk(c)
    ensures PortOpen(Perform(ids, n, c).n.station) <==> Opens(ids, n, c)
  {
    if c.CallPoll? {
      PollOpensExactly(ids, n, c.read);
    } else {
      hide Poll, Timeout, NeedsRecovery, StationNeedsRecovery, PortAdmits, Allowed;
    }
  }

  // ------------------------------------------------------ reachable stations

  /** What a caller takes for a joined network. */
  predicate Joined(state: StationState) {
    state == AwaitingCarrier || state == Connected || state == PowerSavePending
  }

  /** Where authorization can be met without the coordinator. */
  predicate AuthorizedOk(s: Controller) {
    && s.pending != Some(NEW_KEY) && s.pending != Some(DELETE_KEY) && s.pending != Some(SET_KEY)
    && s.pending != Some(SET_STATION) && D.ReturnOk(s)
    && (s.link.authorized ==>
          && !s.link.secure
          && (Joined(s.state) || s.state == Associating || s.state == Disconnecting || s.state == InterfaceDownPending)
          && (s.state == PowerSavePending ==> s.returnState == Some(Connected)))
    && (s.state == Associating && !s.link.secure ==> s.link.authorized)
  }

  lemma StatusKeepsAuthorized(s: Controller, command: nat, status: nat)
    requires AuthorizedOk(s) && OnCommandStatus(s, command, status).error.None?
    ensures AuthorizedOk(OnCommandStatus(s, command, status).s)
  {
    hide Timeout;
  }

  lemma ManagementKeepsAuthorized(s: Controller, result: int, m: Mlme)
    requires AuthorizedOk(s)
    ensures OnAuthentication(s, result, m).error.None? ==> AuthorizedOk(OnAuthentication(s, result, m).s)
    ensures OnAssociation(s, result, m).error.None? ==> AuthorizedOk(OnAssociation(s, result, m).s)
    ensures OnDisconnected(s, m).error.None? ==> AuthorizedOk(OnDisconnected(s, m).s)
  {
    hide Timeout, MlmeStatus, Address;
  }

  lemma ControlKeepsAuthorized(ids: Ids, s: Controller, e: ControlEvent)
    requires AuthorizedOk(s) && OnControl(ids, s, e).error.None?
    ensures AuthorizedOk(OnControl(ids, s, e).s)
  {
    hide Timeout, OnCommandStatus, OnAuthentication, OnAssociation, OnDisconnected;
    match e.body
    case CommandStatus(command, status) => StatusKeepsAuthorized(s, command, status);
    case Authentication(m) => ManagementKeepsAuthorized(s, e.header.result, m);
    case Association(m) => ManagementKeepsAuthorized(s, e.header.result, m);
    case Deauthentication(m) => ManagementKeepsAuthorized(s, 0, m);
    case Disassociation(m) => ManagementKeepsAuthorized(s, 0, m);
    case _ =>
  }

  lemma LinkKeepsAuthorized(ids: Ids, s: Controller, e: LinkEvent)
    requires AuthorizedOk(s) && OnData(ids, s, e).error.None?
    ensures AuthorizedOk(OnData(ids, s, e).s)
  {
    hide Timeout;
  }

  lemma RecoveryIsAuthorizedOk()
    ensures forall s :: AuthorizedOk(BeginRecovery(s)) && AuthorizedOk(RecoveryComplete(s))
  {
    hide Timeout;
  }

  lemma PollKeepsAuthorized(ids: Ids, n: Native, read: EventRead)
    requires AuthorizedOk(n.station)
    ensures AuthorizedOk(Perform(ids, n, CallPoll(read)).n.station)
  {
    hide OnControl, OnData, BeginRecovery, RecoveryComplete, Timeout, NeedsRecovery, AuthorizedOk;
    RecoveryIsAuthorizedOk();
    if read.Read? {
      match read.message
      case ControlMessage(Some(e)) =>
        if OnControl(ids, n.station, e).error.None? { ControlKeepsAuthorized(ids, n.station, e); }
      case DataMessageOf(LinkData(e)) =>
        if OnData(ids, n.station, e).error.None? { LinkKeepsAuthorized(ids, n.station, e); }
      case _ =>
    }
  }

  lemma CommandKeepsAuthorized(ids: Ids, s: Controller, c: Command, io: Submission)
    requires AuthorizedOk(s) && Offered(c)
    ensures var o := Submit(ids, s, c, io); AuthorizedOk(o.s) || (o.error.Some? && o.error.value.Faulted?)
  {
    hide Timeout;
  }

  lemma PerformKeepsAuthorized(ids: Ids, n: Native, c: Call)
    requires AuthorizedOk(n.station) && CallOk(c)
    ensures AuthorizedOk(Perform(ids, n, c).n.station)
  {
    hide Poll, Timeout, NeedsRecovery, PortAdmits, Allowed, Submit, BeginRecovery, AuthorizedOk, Advance;
    RecoveryIsAuthorizedOk();
    match c
    case CallPoll(read) => PollKeepsAuthorized(ids, n, read);
    case CallRun(command, io) =>
      CommandKeepsAuthorized(ids, n.station, command, io);
    case CallTick(elapsed) => TickKeepsAuthorized(n, elapsed);
    case CallTimeouts(t) => RetimedIsAuthorizedOk(n.station, t);
    case _ =>
  }

  lemma TickKeepsAuthorized(n: Native, elapsed: nat)
    requires AuthorizedOk(n.station)
    ensures AuthorizedOk(Finish(AdvanceTime(n, elapsed), Control).n.station)
  {
    hide Timeout, NeedsRecovery;
  }

  lemma RetimedIsAuthorizedOk(s: Controller, t: StationTimeouts)
    requires AuthorizedOk(s)
    ensures AuthorizedOk(Retimed(s, t))
  {
    hide Timeout;
  }

  lemma {:induction false} ReachableIsAuthorizedOk(ids: Ids, calls: seq<Call>)
    requires CallsOk(calls)
    ensures AuthorizedOk(Performed(ids, calls).station)
    decreases |calls|
  {
    if calls != [] {
      hide Perform, AuthorizedOk;
      ReachableIsAuthorizedOk(ids, calls[..|calls| - 1]);
      PerformKeepsAuthorized(ids, Performed(ids, calls[..|calls| - 1]), calls[|calls| - 1]);
    }
  }

  function Carrier(wdevId: nat): Call {
    CallPoll(Read(DataMessageOf(LinkData(CarrierOn(wdevId)))))
  }

  /** In every run of the production driver: a carrier event opens the port of a
      station that has not joined, if and only if the driver is ready, the event
      is for its interface, and the station has asked to associate with an open
      network and not been answered, or is authorized and being disconnected or
      brought down. */
  lemma CarrierOpensEarlyExactly(ids: Ids, calls: seq<Call>, wdevId: nat)
    requires CallsOk(calls)
    ensures var n := Performed(ids, calls);
            var s := n.station;
            PortOpen(Perform(ids, n, Carrier(wdevId)).n.station) && !Joined(s.state) <==>
              && n.state == Ready && wdevId == ids.wdevId
              && ((s.state == Associating && !s.link.secure)
                  || ((s.state == Disconnecting || s.state == InterfaceDownPending) && s.link.authorized))
  {
    hide Performed, Perform, Timeout;
    ReachableIsAuthorizedOk(ids, calls);
    PortOpenOnlyWhenReady(ids, calls);
    var n := Performed(ids, calls);
    if !PortOpen(n.station) {
      PortOpensExactly(ids, n, Carrier(wdevId));
    }
  }

  // -------------------------------------------------------------------- runs

  /** An open network: the port opens with the carrier although the association
      has not been answered. */
  lemma OpensBeforeTheResponse(ids: Ids, mac: seq<byte>, bssid: seq<byte>) returns (calls: seq<Call>)
    requires |bssid| == 6
    ensures CallsOk(calls) && CallsOk(calls + [Carrier(ids.wdevId)])
    ensures Performed(ids, calls).station.state == Associating
    ensures var n := Performed(ids, calls + [Carrier(ids.wdevId)]); n.state == Ready && PortOpen(n.station)
  {
    hide Performed, Timeout, NeedsRecovery, StationNeedsRecovery;
    var n, more;
    calls := GetsAuthenticated(ids, mac, bssid);
    calls, n := Then(ids, calls, CallRun(Associate(bssid, false), Accepted));
    more, n := Then(ids, calls, Carrier(ids.wdevId));
  }

  /** The response to that association then forces recovery. */
  lemma EarlyCarrierThenResponse(ids: Ids, mac: seq<byte>, bssid: seq<byte>) returns (calls: seq<Call>, n: Native)
    requires |bssid| == 6
    ensures CallsOk(calls) && n == Performed(ids, calls) && PortOpen(n.station)
    ensures var m := Perform(ids, n, Connection.Event(Association(Granted(bssid)))).n;
            m.state == InRecovery && !PortOpen(m.station)
  {
    hide Performed, Timeout, NeedsRecovery, StationNeedsRecovery;
    calls := OpensBeforeTheResponse(ids, mac, bssid);
    calls, n := Then(ids, calls, Carrier(ids.wdevId));
  }

  /** A station that is being disconnected, or brought down, opens its port again
      with the carrier. */
  lemma ReopensWhileLeaving(ids: Ids, mac: seq<byte>, bssid: seq<byte>, down: bool) returns (calls: seq<Call>)
    requires |bssid| == 6
    ensures CallsOk(calls) && CallsOk(calls + [Carrier(ids.wdevId)])
    ensures var n := Performed(ids, calls);
            !PortOpen(n.station) && n.station.state == if down then InterfaceDownPending else Disconnecting
    ensures var n := Performed(ids, calls + [Carrier(ids.wdevId)]); n.state == Ready && PortOpen(n.station)
  {
    hide Performed, Timeout, NeedsRecovery, StationNeedsRecovery;
    var n, more;
    calls := OpensThePort(ids, mac, bssid);
    n := Performed(ids, calls);
    calls, n := Then(ids, calls, CallRun(if down then BringDown else Disconnect, Accepted));
    more, n := Then(ids, calls, Carrier(ids.wdevId));
  }

  /** And so does a secure station, with its coordinator: after a handshake with
      any access point, a disconnection is requested and the carrier comes on. */
  lemma SecureReopens(env: R.Env, nonce: seq<byte>, mac: seq<byte>, p: S.Peer) returns (cs: seq<D.SecureCall>)
    requires R.EnvOk(env) && |nonce| == 32 && env.wdevId == env.ids.wdevId && S.PeerOk(p)
    ensures D.Handed(NewDriver()) && cs != [] && D.SecureCallsOk(cs) && D.SecureCallsOk(cs[..|cs| - 1])
    ensures var y := D.Ran(env, NewDriver(), nonce, cs[..|cs| - 1]);
            y.n.station.state == Disconnecting && !PortOpen(y.n.station)
    ensures cs[|cs| - 1] == S.CarrierIsOn(env, S.Willing(0))
    ensures var y := D.Ran(env, NewDriver(), nonce, cs);
            y.n.state == Ready && PortOpen(y.n.station) && y.n.station.link.secure
  {
    hide D.Ran, Handshake.CarrierOk, S.Exchanging, S.OriginOk, S.Leads, S.PeerOk, PortOpen;
    S.NewIsHanded();
    var o := S.Origin(env, NewDriver(), nonce);
    assert S.OriginOk(o) by { Begins(o); }
    var t := S.GetsExchanging(o, mac);
    t := S.Connects(o, t, p);
    t := Leaving(o, t);
    cs := ComesBack(o, t);
  }

  lemma Leaving(o: S.Origin, t: S.Trace) returns (u: S.Trace)
    requires S.OriginOk(o) && S.Leads(o, t)
    requires t.y.n.state == Ready && PortOpen(t.y.n.station)
    requires t.y.n.station.link.secure && t.y.n.station.link.peer.Some?
    ensures S.Leads(o, u) && u.y.n.state == Ready && u.y.n.station.state == Disconnecting
    ensures u.y.n.station.link == t.y.n.station.link && u.y.n.station.link.authorized && !PortOpen(u.y.n.station)
  {
    hide D.Ran, S.OriginOk, S.Leads, Perform;
    Leaves(o.env.ids, t.y.n);
    u := S.GoDirect(o, t, CallRun(Disconnect, Accepted));
  }

  lemma ComesBack(o: S.Origin, t: S.Trace) returns (cs: seq<D.SecureCall>)
    requires S.OriginOk(o) && S.Leads(o, t) && t.y.n.state == Ready && t.y.n.station.link.authorized
    ensures cs == t.cs + [S.CarrierIsOn(o.env, S.Willing(0))] && D.SecureCallsOk(cs) && cs[..|cs| - 1] == t.cs
    ensures t.y == D.Ran(o.env, o.n, o.nonce, t.cs)
    ensures var y := D.Ran(o.env, o.n, o.nonce, cs);
            y.n.state == Ready && PortOpen(y.n.station) && y.n.station.link.secure == t.y.n.station.link.secure
  {
    hide D.Ran, D.Make, PortOpen;
    S.CarrierCall(o.env, t.y.n, t.y.rt, S.Willing(0));
    var u := S.Go(o, t, S.CarrierIsOn(o.env, S.Willing(0)));
    cs := u.cs;
  }

  lemma Begins(o: S.Origin)
    requires R.EnvOk(o.env) && |o.nonce| == 32 && D.Handed(o.n)
    ensures S.OriginOk(o)
  {
  }

  lemma Leaves(ids: Ids, n: Native)
    requires n.state == Ready && PortOpen(n.station) && n.station.link.secure && n.station.link.peer.Some?
    ensures var m := Perform(ids, n, CallRun(Disconnect, Accepted)).n;
            && m.state == Ready && m.station.state == Disconnecting && m.station.link == n.station.link
            && !PortOpen(m.station)
  {
    hide Timeout, StationNeedsRecovery;
  }
}
