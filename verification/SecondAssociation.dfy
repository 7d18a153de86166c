/** Associating again while Message 4 of an earlier handshake is on its way
    (src/production.rs, src/wpa2_runtime.rs): exactly then the station may be
    authorized without a handshake since its association. */
module SecondAssociation {
  import opened Bytes
  import Connection
  import opened Driver
  import Handshake
  import opened Production
  import opened SecureDriver
  import opened SecureProgress
  import opened SecureRuntime
  import opened Station
  import Supplicant
  import SupplicantProof
  import opened Wrappers

  lemma EarnedHasKeys(log: seq<Seen>) returns (i: nat)
    requires EverReached(log, 6)
    ensures i < |log| && log[i].progress == PairwiseKeySubmitted
  {
    hide Reached;
    var token :| Reached(log, 6, token);
    var at := ReachedPositions(log, 6, token);
    i := at[0];
  }

  lemma WithoutKeysIsUnearned(log: seq<Seen>)
    requires WithoutKeys(log)
    ensures !EverReached(log, 6)
  {
    hide EverReached;
    if EverReached(log, 6) {
      var i := EarnedHasKeys(log);
      assert false;
    }
  }

  /** A management event, polled through the coordinator, which is not concerned. */
  lemma GoEvent(o: Origin, t: Trace, body: ControlBody) returns (u: Trace)
    requires OriginOk(o) && Leads(o, t) && !body.CommandStatus?
    ensures Leads(o, u) && u.y.associations == t.y.associations && u.y.rt == t.y.rt
    ensures u.y.n == Perform(o.env.ids, t.y.n, Connection.Event(body)).n
    ensures t.cs <= u.cs && (WithoutKeys(t.y.log) ==> WithoutKeys(u.y.log))
  {
    hide Ran, OnControl, BeginRecovery, NeedsRecovery, OriginOk, WithoutKeys;
    var io := Io(Accepted, Ok(0));
    u := GoPolled(o, t, PollEvent(Connection.Event(body).read, io));
  }

  /** A secure association of a peer, and its response. */
  lemma Reassociates(o: Origin, t: Trace, c: Call) returns (u: Trace)
    requires OriginOk(o) && Leads(o, t) && CallOk(c) && o.env.wdevId == o.env.ids.wdevId
    requires SecureAssociation(o.env, t.y.n, c) && |c.command.bssid| == 6
    ensures Leads(o, u) && u.y.associations == t.y.associations + 1 && u.y.rt == t.y.rt
    ensures Exchanging(o.env, u.y.n) && WithoutKeys(u.y.log) && t.cs + [Direct(c)] <= u.cs
  {
    hide Ran, Timeout, NeedsRecovery, StationNeedsRecovery, Address, MlmeStatus, Connection.Granted, Leads, OriginOk;
    Connection.GrantedFields(c.command.bssid);
    u := GoDirect(o, t, c);
    u := GoEvent(o, u, Association(Connection.Granted(c.command.bssid)));
  }

  /** Whatever came before: if Message 4 is on its way at a secure association,
      its delivery alone leads to an authorized station and an open port. */
  lemma CarriedMessage4Authorizes(o: Origin, t: Trace, c: Call) returns (u: Trace)
    requires OriginOk(o) && Leads(o, t) && CallOk(c) && o.env.wdevId == o.env.ids.wdevId
    requires SecureAssociation(o.env, t.y.n, c) && |c.command.bssid| == 6 && Carries(t.y.rt.state)
    ensures Leads(o, u) && u.y.associations == t.y.associations + 1 && t.cs + [Direct(c)] <= u.cs
    ensures PortOpen(u.y.n.station) && u.y.n.station.link.secure && u.y.n.station.link.authorized
    ensures !EverReached(u.y.log, 6)
  {
    hide Ran, Exchanging, SecureAssociation, Leads, OriginOk, EverReached, WithoutKeys;
    u := Reassociates(o, t, c);
    u := Opened(o, u, t.y.rt.state.token);
    WithoutKeysIsUnearned(u.y.log);
  }

  // --------------------------------------------------------- exact condition

  /** An authorized secure station has all six milestones since its association. */
  ghost predicate Earnest(o: Origin, cs: seq<SecureCall>)
    requires OriginOk(o) && SecureCallsOk(cs)
  {
    var y := Ran(o.env, o.n, o.nonce, cs);
    y.n.station.link.secure && y.n.station.link.authorized ==> EverReached(y.log, 6)
  }

  /** A run that goes on from `start` with `n` secure associations in all. */
  ghost predicate Continues(o: Origin, start: seq<SecureCall>, cs: seq<SecureCall>, n: nat)
    requires OriginOk(o)
  {
    SecureCallsOk(cs) && start <= cs && Ran(o.env, o.n, o.nonce, cs).associations == n
  }

  lemma {:induction false} AssociationsGrow(o: Origin, start: seq<SecureCall>, cs: seq<SecureCall>)
    requires OriginOk(o) && SecureCallsOk(cs) && start <= cs && SecureCallsOk(start)
    ensures var y, z := Ran(o.env, o.n, o.nonce, start), Ran(o.env, o.n, o.nonce, cs);
            && y.associations <= z.associations
            && (y.associations == z.associations ==> y.clean == z.clean)
    decreases |cs|
  {
    if |start| < |cs| {
      hide Make, Inv, SecureAssociation;
      AssociationsGrow(o, start, cs[..|cs| - 1]);
    } else {
      assert start == cs;
    }
  }

  /** From a secure association on, until the next one, a secure station is
      authorized only after a whole handshake since the association, in every
      continuation, if and only if no earlier Message 4 was on its way then. */
  lemma EarnestExactly(o: Origin, t: Trace, c: Call)
    requires OriginOk(o) && Leads(o, t) && CallOk(c) && o.env.wdevId == o.env.ids.wdevId
    requires SecureAssociation(o.env, t.y.n, c) && |c.command.bssid| == 6
    ensures (forall cs | Continues(o, t.cs + [Direct(c)], cs, t.y.associations + 1) :: Earnest(o, cs)) <==>
            !Carries(t.y.rt.state)
  {
    hide Ran, Make, Inv, SecureAssociation, EverReached, OriginOk;
    var start := t.cs + [Direct(c)];
    if Carries(t.y.rt.state) {
      var u := CarriedMessage4Authorizes(o, t, c);
      assert Continues(o, start, u.cs, t.y.associations + 1) && !Earnest(o, u.cs);
    } else {
      var s := GoDirect(o, t, c);
      CleanAfter(o, t, c, s);
      forall cs | Continues(o, start, cs, t.y.associations + 1) ensures Earnest(o, cs) {
        AssociationsGrow(o, start, cs);
        CleanIsEarnest(o, cs);
      }
    }
  }

  lemma CleanAfter(o: Origin, t: Trace, c: Call, s: Trace)
    requires OriginOk(o) && Leads(o, t) && CallOk(c) && SecureAssociation(o.env, t.y.n, c)
    requires s.cs == t.cs + [Direct(c)] && Leads(o, s)
    ensures s.y.clean == !Carries(t.y.rt.state)
  {
    hide Make, Inv, SecureAssociation;
    assert s.cs[..|s.cs| - 1] == t.cs;
  }

  lemma CleanIsEarnest(o: Origin, cs: seq<SecureCall>)
    requires OriginOk(o) && SecureCallsOk(cs) && Ran(o.env, o.n, o.nonce, cs).clean
    ensures Earnest(o, cs)
  {
    hide Ran, RuntimeEarned, EverReached, Closed, Earned;
  }

  // ------------------------------------------------------------- and in a run

  /** Such an association can happen: from a new driver, with any access point
      that completes the handshake, disconnects before the delivery of Message 4
      is reported, and takes the station back. The port then opens, although
      since the second association no key was submitted at all. */
  lemma PortOpensUnearned(env: Env, nonce: seq<byte>, mac: seq<byte>, p: Peer) returns (cs: seq<SecureCall>)
    requires EnvOk(env) && |nonce| == 32 && env.wdevId == env.ids.wdevId && PeerOk(p)
    ensures Handed(NewDriver()) && SecureCallsOk(cs)
    ensures var y := Ran(env, NewDriver(), nonce, cs);
            && PortOpen(y.n.station) && y.n.station.link.secure && y.n.station.link.authorized
            && y.associations == 2 && !EverReached(y.log, 6)
  {
    hide Ran, Handshake.CarrierOk, EverReached, Carries, SecureAssociation;
    NewIsHanded();
    var o := Origin(env, NewDriver(), nonce);
    var t := MessageOnItsWay(o, mac, p);
    t := TakenBack(o, t);
    t := CarriedMessage4Authorizes(o, t, CallRun(Associate(env.cfg.peer, true), Accepted));
    cs := t.cs;
  }

  /** A handshake up to the submission of Message 4. */
  lemma MessageOnItsWay(o: Origin, mac: seq<byte>, p: Peer) returns (t: Trace)
    requires OriginOk(o) && o.n == NewDriver() && o.env.wdevId == o.env.ids.wdevId && PeerOk(p)
    ensures Leads(o, t) && t.y.associations == 1 && Exchanging(o.env, t.y.n) && Carries(t.y.rt.state)
    ensures t.y.n.station.link.peer == Some(o.env.cfg.peer)
  {
    hide Ran, Handshake.AuthenticatorPtk, Handshake.CarrierOk, SupplicantProof.StateOk, Exchanging, Leads, OriginOk;
    t := GetsExchanging(o, mac);
    t := Answered(o, t, p);
    t := Accepted3(o, t, p);
    t := KeyFollows(o, t, InitialGroup, Willing(p.token4));
    t := KeyFollows(o, t, InitialDefaultGroup, Willing(p.token4));
    t := Installed(o, t, p.token4);
  }

  /** The peer disconnects. */
  lemma Disconnected(o: Origin, t: Trace) returns (u: Trace)
    requires OriginOk(o) && Leads(o, t) && Exchanging(o.env, t.y.n)
    requires t.y.n.station.link.peer == Some(o.env.cfg.peer)
    ensures Leads(o, u) && u.y.rt == t.y.rt && u.y.associations == t.y.associations
    ensures u.y.n.state == Ready && u.y.n.station.state == Idle && u.y.n.station.link == UNLINKED
  {
    hide Ran, Timeout, NeedsRecovery, StationNeedsRecovery, Address, MlmeStatus, Connection.Granted, Leads, OriginOk;
    PeerIsSix(o);
    Connection.GrantedFields(o.env.cfg.peer);
    u := GoEvent(o, t, Deauthentication(Connection.Granted(o.env.cfg.peer)));
  }

  /** The peer disconnects; the station authenticates with it again. */
  lemma TakenBack(o: Origin, t: Trace) returns (u: Trace)
    requires OriginOk(o) && Leads(o, t) && Exchanging(o.env, t.y.n)
    requires t.y.n.station.link.peer == Some(o.env.cfg.peer)
    ensures Leads(o, u) && u.y.rt == t.y.rt && u.y.associations == t.y.associations
    ensures SecureAssociation(o.env, u.y.n, CallRun(Associate(o.env.cfg.peer, true), Accepted))
  {
    hide Ran, Timeout, NeedsRecovery, StationNeedsRecovery, Address, MlmeStatus, Connection.Granted, Leads, OriginOk;
    var bssid := o.env.cfg.peer;
    PeerIsSix(o);
    Connection.GrantedFields(bssid);
    u := Disconnected(o, t);
    u := GoDirect(o, u, CallRun(Authenticate(bssid), Accepted));
    u := GoEvent(o, u, Authentication(Connection.Granted(bssid)));
  }

  lemma PeerIsSix(o: Origin)
    requires OriginOk(o)
    ensures |o.env.cfg.peer| == 6
  {
  }
}
