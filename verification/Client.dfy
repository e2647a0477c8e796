/**
 One VPN client (src/client.go): Connect with its rollback stack, Disconnect with its slow
 part outside the mutex, and the lifecycle gate.  External operations succeed or fail as an
 oracle says; every acquisition and every release attempt is written to a ledger.
 */
module Client {
  import opened Wrappers

  datatype ConnState = StateIdle | StateConnected | StateDisconnecting

  datatype Resource = XRay | Tun | TunRoutes | Firewall | GatewayRoute | Dns

  /** Resources belong to the connection attempt that acquired them. */
  datatype Entry =
    | Acquire(r: Resource, attempt: nat)
    | Release(r: Resource, attempt: nat, ok: bool)
    | Purge(attempt: nat) // the deletion of any earlier route to the proxy server

  /** How the external operations of one Connect turn out. */
  datatype Outcomes = Outcomes(create: bool, start: bool, ready: bool, tunNew: bool, tunUp: bool,
                               tunRoutes: bool, firewall: bool, gateway: bool, dns: bool)

  /** Which release operations succeed. */
  type Releases = Resource -> bool

  datatype ConnectError =
    | AlreadyConnected | DisconnectInProgress
    | CreateFailed | StartFailed | NotReady | TunFailed | FirewallFailed | RouteFailed | DnsFailed

  function All(wantDns: bool): seq<Resource> {
    [XRay, Tun, TunRoutes, Firewall, GatewayRoute] + if wantDns then [Dns] else []
  }

  function TakeEntries(k: nat, rs: seq<Resource>): seq<Entry> {
    seq(|rs|, i requires 0 <= i < |rs| => Acquire(rs[i], k))
  }

  function GiveEntries(k: nat, rs: seq<Resource>, rel: Releases): seq<Entry> {
    seq(|rs|, i requires 0 <= i < |rs| => Release(rs[i], k, rel(rs[i])))
  }

  function Took(r: Resource, k: nat): seq<Entry> { [Acquire(r, k)] }

  function Gave(r: Resource, k: nat, rel: Releases): seq<Entry> { [Release(r, k, rel(r))] }

  function Reverse(rs: seq<Resource>): seq<Resource> {
    seq(|rs|, i requires 0 <= i < |rs| => rs[|rs| - 1 - i])
  }

  // ----- what one Connect does, as a whole

  function Failure(o: Outcomes, wantDns: bool): Option<ConnectError> {
    if !o.create then Some(CreateFailed)
    else if !o.start then Some(StartFailed)
    else if !o.ready then Some(NotReady)
    else if !o.tunNew || !o.tunUp || !o.tunRoutes then Some(TunFailed)
    else if !o.firewall then Some(FirewallFailed)
    else if !o.gateway then Some(RouteFailed)
    else if wantDns && !o.dns then Some(DnsFailed)
    else None
  }

  /** How many resources of All(wantDns), in order, are acquired before the first failure. */
  function Depth(o: Outcomes, wantDns: bool): (d: nat)
    ensures d <= |All(wantDns)|
    ensures Failure(o, wantDns).None? ==> d == |All(wantDns)|
    ensures Failure(o, wantDns).Some? ==> d <= 5
  {
    if !o.create then 0
    else if !o.start || !o.ready || !o.tunNew then 1
    else if !o.tunUp || !o.tunRoutes then 2
    else if !o.firewall then 3
    else if !o.gateway then 4
    else if wantDns && !o.dns then 5
    else |All(wantDns)|
  }

  /** The order in which a failed Connect gives back its first d resources. */
  function UndoOrder(d: nat): seq<Resource>
    requires d <= 5
  {
    match d
    case 0 => []
    case 1 => [XRay]
    case 2 => [Tun, XRay]
    case 3 => [TunRoutes, Tun, XRay]
    case 4 => [Tun, TunRoutes, Firewall, XRay]
    case _ => [GatewayRoute, Tun, TunRoutes, Firewall, XRay]
  }

  /** Acquisitions in order; the old route to the server is purged just before the gateway route. */
  function Forward(k: nat, wantDns: bool, d: nat): seq<Entry>
    requires d <= |All(wantDns)|
  {
    if d < 4 then TakeEntries(k, All(wantDns)[..d])
    else TakeEntries(k, All(wantDns)[..4]) + [Purge(k)] + TakeEntries(k, All(wantDns)[4..d])
  }

  function ConnectEntries(k: nat, wantDns: bool, o: Outcomes, rel: Releases): seq<Entry> {
    var d := Depth(o, wantDns);
    Forward(k, wantDns, d) + if Failure(o, wantDns).Some? then GiveEntries(k, UndoOrder(d), rel) else []
  }

  /** The part of ConnectEntries that follows a successful tunnel setup. */
  function RouteEntries(k: nat, wantDns: bool, o: Outcomes, rel: Releases): seq<Entry> {
    if !o.firewall then GiveEntries(k, UndoOrder(3), rel)
    else if !o.gateway then [Acquire(Firewall, k), Purge(k)] + GiveEntries(k, UndoOrder(4), rel)
    else [Acquire(Firewall, k), Purge(k), Acquire(GatewayRoute, k)] + DnsEntries(k, wantDns, o, rel)
  }

  /** The part of RouteEntries that follows the server route. */
  function DnsEntries(k: nat, wantDns: bool, o: Outcomes, rel: Releases): seq<Entry> {
    if !wantDns then [] else if !o.dns then GiveEntries(k, UndoOrder(5), rel) else [Acquire(Dns, k)]
  }

  /** Disconnect's order. */
  function TeardownOrder(wantDns: bool): seq<Resource> {
    [Firewall] + (if wantDns then [Dns] else []) + [Tun, GatewayRoute, TunRoutes, XRay]
  }

  /** The lifecycle as the mutex exposes it; `attempt` numbers the connection attempts made. */
  datatype Life = Life(state: ConnState, attempt: nat, ledger: seq<Entry>)

  function Connected(l: Life, wantDns: bool, o: Outcomes, rel: Releases): (Life, Option<ConnectError>) {
    match l.state
    case StateConnected => (l, Some(AlreadyConnected))
    case StateDisconnecting => (l, Some(DisconnectInProgress))
    case StateIdle =>
      var failure := Failure(o, wantDns);
      (Life(if failure.None? then StateConnected else StateIdle, l.attempt + 1,
            l.ledger + ConnectEntries(l.attempt + 1, wantDns, o, rel)),
       failure)
  }

  /** What Disconnect takes out of the client before it releases the mutex. */
  datatype Captured = Captured(xInst: nat, tunnel: nat, pump: nat, server: nat, xrayRouteAdded: bool,
                               iface: nat, tunRouteAdded: bool, dnsState: Option<nat>)

  class Client {
    const wantDns: bool

    var state: ConnState
    var xInst: Option<nat>
    var xSrvIP: Option<nat>
    var tunnel: Option<nat>
    var metrics: Option<nat>
    var tunIfaceName: Option<nat>
    var tunRouteAdded: bool
    var xrayRouteAdded: bool
    var dnsState: Option<nat>
    var tunnelStopped: Option<nat>
    var stopTunnel: Option<nat>

    ghost var attempts: nat
    ghost var ledger: seq<Entry>

    /**
     Connected means every handle is the current attempt's; otherwise no flag and no DNS state
     is left over, although a failed attempt leaves its closed instance and tunnel behind.
     */
    ghost predicate Valid()
      reads this
    {
      if state == StateConnected then
        && xInst == xSrvIP == tunnel == metrics == tunIfaceName == tunnelStopped == stopTunnel == Some(attempts)
        && tunRouteAdded && xrayRouteAdded
        && dnsState == if wantDns then Some(attempts) else None
      else
        && !tunRouteAdded && !xrayRouteAdded && dnsState.None?
        && tunnelStopped.None? && stopTunnel.None?
    }

    ghost function Life_(): Life
      reads this
    {
      Life(state, attempts, ledger)
    }

    constructor (wantDns: bool)
      ensures Valid() && this.wantDns == wantDns && Life_() == Life(StateIdle, 0, [])
    {
      this.wantDns := wantDns;
      state := StateIdle;
      xInst, xSrvIP, tunnel, metrics, tunIfaceName := None, None, None, None, None;
      tunRouteAdded, xrayRouteAdded := false, false;
      dnsState, tunnelStopped, stopTunnel := None, None, None;
      attempts, ledger := 0, [];
    }

    /** The rollback closures run from the last one pushed to the first; a failing one stops nothing. */
    method RunRollback(rollback: seq<Resource>, ghost rel: Releases) returns (ghost given: seq<Entry>)
      modifies this`tunRouteAdded
      ensures given == GiveEntries(attempts, Reverse(rollback), rel)
      ensures tunRouteAdded == (old(tunRouteAdded) && TunRoutes !in rollback)
    {
      given := [];
      var i := |rollback|;
      while i > 0
        invariant 0 <= i <= |rollback|
        invariant given == GiveEntries(attempts, Reverse(rollback[i..]), rel)
        invariant tunRouteAdded == (old(tunRouteAdded) && TunRoutes !in rollback[i..])
      {
        i := i - 1;
        assert rollback[i..] == [rollback[i]] + rollback[i + 1..];
        assert Reverse(rollback[i..]) == Reverse(rollback[i + 1..]) + [rollback[i]];
        given := given + Gave(rollback[i], attempts, rel);
        if rollback[i] == TunRoutes {
          tunRouteAdded := false;
        }
      }
      assert rollback[0..] == rollback;
    }

    /** Create, bring up and route the TUN device; on failure nothing of it stays. */
    method SetupTunnel(o: Outcomes, ghost rel: Releases) returns (ok: bool, ghost trace: seq<Entry>)
      ensures ok == (o.tunNew && o.tunUp && o.tunRoutes)
      ensures ok ==> trace == [Acquire(Tun, attempts), Acquire(TunRoutes, attempts)]
      ensures !ok ==> trace == if o.tunNew then [Acquire(Tun, attempts), Release(Tun, attempts, rel(Tun))] else []
    {
      trace := [];
      if !o.tunNew {
        return false, trace;
      }
      trace := trace + Took(Tun, attempts);
      if !o.tunUp {
        trace := trace + Gave(Tun, attempts, rel);
        return false, trace;
      }
      if !o.tunRoutes {
        trace := trace + Gave(Tun, attempts, rel);
        return false, trace;
      }
      trace := trace + Took(TunRoutes, attempts);
      return true, trace;
    }

    /** The rest of Connect, once the tunnel is up: firewall rule, server route, DNS, packet pump. */
    method ProtectAndRoute(attemptId: nat, o: Outcomes, ghost rel: Releases)
      returns (err: Option<ConnectError>, ghost trace: seq<Entry>)
      requires state == StateIdle && attemptId == attempts && xInst == xSrvIP == tunIfaceName == Some(attempts)
      requires !tunRouteAdded && !xrayRouteAdded && dnsState.None? && tunnelStopped.None? && stopTunnel.None?
      modifies this
      ensures Valid() && attempts == old(attempts) && ledger == old(ledger)
      ensures err == Failure(o.(create := true, start := true, ready := true, tunNew := true, tunUp := true,
                                tunRoutes := true), wantDns)
      ensures state == if err.None? then StateConnected else StateIdle
      ensures trace == RouteEntries(attempts, wantDns, o, rel)
    {
      trace := [];
      ghost var given;
      var rollback: seq<Resource> := [XRay];
      RouteEntriesByCase(attempts, wantDns, o, rel);
      if !o.firewall {
        trace := trace + Gave(TunRoutes, attempts, rel);
        trace := trace + Gave(Tun, attempts, rel);
        assert trace == [Release(TunRoutes, attempts, rel(TunRoutes)), Release(Tun, attempts, rel(Tun))];
        given := RunRollback(rollback, rel);
        return Some(FirewallFailed), trace + given;
      }
      trace := trace + Took(Firewall, attempts);
      rollback := rollback + [Firewall];
      tunRouteAdded := true;
      rollback := rollback + [TunRoutes];
      rollback := rollback + [Tun];
      tunnel := Some(attemptId);
      metrics := Some(attemptId);
      assert rollback == [XRay, Firewall, TunRoutes, Tun];

      trace := trace + [Purge(attempts)];
      assert trace == [Acquire(Firewall, attempts), Purge(attempts)];
      if !o.gateway {
        given := RunRollback(rollback, rel);
        return Some(RouteFailed), trace + given;
      }
      trace := trace + Took(GatewayRoute, attempts);
      assert trace == [Acquire(Firewall, attempts), Purge(attempts), Acquire(GatewayRoute, attempts)];
      xrayRouteAdded := true;

      err, given := ProtectDns(attemptId, o, rel, rollback);
      return err, trace + given;
    }

    /** The last steps of Connect: the DNS override, if one is wanted, and the packet pump. */
    method ProtectDns(attemptId: nat, o: Outcomes, ghost rel: Releases, before: seq<Resource>)
      returns (err: Option<ConnectError>, ghost trace: seq<Entry>)
      requires state == StateIdle && attemptId == attempts
      requires xInst == xSrvIP == tunnel == metrics == tunIfaceName == Some(attempts)
      requires tunRouteAdded && xrayRouteAdded && dnsState.None? && tunnelStopped.None? && stopTunnel.None?
      requires before == [XRay, Firewall, TunRoutes, Tun]
      modifies this
      ensures Valid() && attempts == old(attempts) && ledger == old(ledger)
      ensures err == if wantDns && !o.dns then Some(DnsFailed) else None
      ensures state == if err.None? then StateConnected else StateIdle
      ensures trace == DnsEntries(attempts, wantDns, o, rel)
    {
      trace := [];
      UndoDns(attempts, rel);
      var rollback := before;
      if wantDns {
        if !o.dns {
          dnsState := None;
          trace := trace + Gave(GatewayRoute, attempts, rel);
          xrayRouteAdded := false;
          ghost var given := RunRollback(rollback, rel);
          return Some(DnsFailed), trace + given;
        }
        trace := trace + Took(Dns, attempts);
        dnsState := Some(attemptId);
        rollback := rollback + [Dns];
      }

      tunnelStopped := Some(attemptId);
      stopTunnel := Some(attemptId);
      state := StateConnected;
      return None, trace;
    }

    /** Connect, which holds the mutex throughout.  `attemptId` identifies this attempt. */
    method Connect(attemptId: nat, o: Outcomes, ghost rel: Releases) returns (err: Option<ConnectError>)
      requires Valid() && attemptId == attempts + 1
      modifies this
      ensures Valid()
      ensures (Life_(), err) == Connected(old(Life_()), wantDns, o, rel)
      ensures err == Some(AlreadyConnected) <==> old(state) == StateConnected
      ensures err == Some(DisconnectInProgress) <==> old(state) == StateDisconnecting
      ensures old(state) != StateIdle ==> Life_() == old(Life_())
      ensures old(state) == StateIdle ==> state == if err.None? then StateConnected else StateIdle
    {
      if state == StateConnected {
        return Some(AlreadyConnected);
      }
      if state == StateDisconnecting {
        return Some(DisconnectInProgress);
      }
      ghost var trace;
      err, trace := Attempt(attemptId, o, rel);
      ledger := ledger + trace;
    }

    /** Connect on an idle client. */
    method Attempt(attemptId: nat, o: Outcomes, ghost rel: Releases)
      returns (err: Option<ConnectError>, ghost trace: seq<Entry>)
      requires Valid() && state == StateIdle && attemptId == attempts + 1
      modifies this
      ensures Valid() && attempts == attemptId && ledger == old(ledger)
      ensures err == Failure(o, wantDns)
      ensures state == if err.None? then StateConnected else StateIdle
      ensures trace == ConnectEntries(attemptId, wantDns, o, rel)
    {
      attempts := attemptId;
      trace := [];
      ghost var given;
      var rollback: seq<Resource> := [];
      ConnectEntriesByCase(attempts, wantDns, o, rel);

      if !o.create {
        return Some(CreateFailed), trace;
      }
      trace := trace + Took(XRay, attempts);
      xInst, xSrvIP := Some(attemptId), Some(attemptId);
      rollback := rollback + [XRay];

      if !o.start {
        given := RunRollback(rollback, rel);
        return Some(StartFailed), trace + given;
      }
      if !o.ready {
        given := RunRollback(rollback, rel);
        return Some(NotReady), trace + given;
      }

      var up;
      up, given := SetupTunnel(o, rel);
      trace := trace + given;
      if !up {
        given := RunRollback(rollback, rel);
        return Some(TunFailed), trace + given;
      }
      tunIfaceName := Some(attemptId);
      err, given := ProtectAndRoute(attemptId, o, rel);
      return err, trace + given;
    }

    /** Disconnect up to the point where it releases the mutex. */
    method BeginDisconnect() returns (c: Option<Captured>)
      requires Valid()
      modifies this
      ensures Valid()
      ensures c.Some? <==> old(state) == StateConnected
      ensures Life_() == if c.Some? then old(Life_()).(state := StateDisconnecting) else old(Life_())
      ensures c.Some? ==> c.value == Captured(attempts, attempts, attempts, attempts, true, attempts, true,
                                              if wantDns then Some(attempts) else None)
      ensures c.Some? ==> metrics.None?
    {
      if state != StateConnected {
        return None;
      }
      c := Some(Captured(xInst.value, tunnel.value, tunnelStopped.value, xSrvIP.value, xrayRouteAdded,
                         tunIfaceName.value, tunRouteAdded, dnsState));
      xInst, tunnel, stopTunnel, tunnelStopped := None, None, None, None;
      metrics := None;
      xrayRouteAdded := false;
      tunRouteAdded := false;
      dnsState := None;
      state := StateDisconnecting;
    }

    /** The slow part: every captured resource is released, whatever the earlier ones returned. */
    method Teardown(c: Captured, ghost rel: Releases)
      requires c.xInst == c.tunnel == c.server == c.iface && c.xrayRouteAdded && c.tunRouteAdded
      requires c.dnsState == if wantDns then Some(c.xInst) else None
      modifies this`ledger
      ensures ledger == old(ledger) + GiveEntries(c.xInst, TeardownOrder(wantDns), rel)
    {
      TeardownEntries(c.xInst, wantDns, rel);
      ghost var trace := [];
      trace := trace + Gave(Firewall, c.xInst, rel);
      if c.dnsState.Some? {
        trace := trace + Gave(Dns, c.dnsState.value, rel);
      }
      trace := trace + Gave(Tun, c.tunnel, rel);
      if c.xrayRouteAdded {
        trace := trace + Gave(GatewayRoute, c.server, rel);
      }
      if c.tunRouteAdded {
        trace := trace + Gave(TunRoutes, c.iface, rel);
      }
      trace := trace + Gave(XRay, c.xInst, rel);
      ledger := ledger + trace;
    }

    /** The locked end of a clean Disconnect, and the whole of resetAfterTunnelStop. */
    method Reset()
      requires Valid()
      modifies this`state
      ensures Valid()
      ensures state == if old(state) == StateDisconnecting then StateIdle else old(state)
    {
      if state == StateDisconnecting {
        state := StateIdle;
      }
    }

    /** Disconnect when nothing else touches the client meanwhile. */
    method Disconnect(ghost rel: Releases, stopsInTime: bool)
      requires Valid()
      modifies this
      ensures Valid()
      ensures old(state) != StateConnected ==> Life_() == old(Life_())
      ensures old(state) == StateConnected ==>
                Life_() == Life(if stopsInTime then StateIdle else StateDisconnecting, old(attempts),
                                old(ledger) + GiveEntries(old(attempts), TeardownOrder(wantDns), rel))
    {
      var c := BeginDisconnect();
      if c.None? {
        return;
      }
      Teardown(c.value, rel);
      if stopsInTime {
        Reset();
      }
    }
  }

  // ----- the operations of one attempt, in order

  /** An external operation: how it turns out, the error when it fails, and what it acquires when it succeeds. */
  datatype Operation = Operation(ok: bool, error: ConnectError, gain: seq<Resource>)

  function Operations(o: Outcomes, wantDns: bool): seq<Operation> {
    [Operation(o.create, CreateFailed, [XRay]), Operation(o.start, StartFailed, []), Operation(o.ready, NotReady, []),
     Operation(o.tunNew, TunFailed, [Tun]), Operation(o.tunUp, TunFailed, []), Operation(o.tunRoutes, TunFailed, [TunRoutes]),
     Operation(o.firewall, FirewallFailed, [Firewall]), Operation(o.gateway, RouteFailed, [GatewayRoute])]
    + if wantDns then [Operation(o.dns, DnsFailed, [Dns])] else []
  }

  /** The error of the first operation from the i-th on that fails. */
  function FirstError(ops: seq<Operation>, i: nat): Option<ConnectError>
    requires i <= |ops|
    decreases |ops| - i
  {
    if i == |ops| then None else if !ops[i].ok then Some(ops[i].error) else FirstError(ops, i + 1)
  }

  /** What the operations from the i-th on acquire before one fails. */
  function Gains(ops: seq<Operation>, i: nat): seq<Resource>
    requires i <= |ops|
    decreases |ops| - i
  {
    if i == |ops| || !ops[i].ok then [] else ops[i].gain + Gains(ops, i + 1)
  }

  /** An attempt runs the operations in order up to the first that fails: that gives the error and what was acquired. */
  lemma FailureIsFirst(o: Outcomes, wantDns: bool)
    ensures Failure(o, wantDns) == FirstError(Operations(o, wantDns), 0)
    ensures All(wantDns)[..Depth(o, wantDns)] == Gains(Operations(o, wantDns), 0)
  {
    BeforeTunnel(o, wantDns);
    FromTunnel(o, wantDns);
    FirstOfAll(wantDns);
  }

  lemma BeforeTunnel(o: Outcomes, wantDns: bool)
    ensures var ops := Operations(o, wantDns);
            && FirstError(ops, 0) == (if !o.create then Some(CreateFailed) else if !o.start then Some(StartFailed)
                                      else if !o.ready then Some(NotReady) else FirstError(ops, 3))
            && Gains(ops, 0) == (if !o.create then [] else if !o.start || !o.ready then [XRay] else [XRay] + Gains(ops, 3))
  {
    var ops := Operations(o, wantDns);
    assert FirstError(ops, 1) == if !o.start then Some(StartFailed) else if !o.ready then Some(NotReady) else FirstError(ops, 3);
    assert Gains(ops, 1) == if !o.start || !o.ready then [] else Gains(ops, 3);
  }

  lemma AtDns(o: Outcomes, wantDns: bool)
    ensures var ops := Operations(o, wantDns);
            && FirstError(ops, 8) == (if wantDns && !o.dns then Some(DnsFailed) else None)
            && Gains(ops, 8) == (if wantDns && o.dns then [Dns] else [])
  {
  }

  lemma FirstOfAll(wantDns: bool)
    ensures var all := All(wantDns);
            && all[..1] == [XRay] && all[..2] == [XRay, Tun] && all[..3] == [XRay, Tun, TunRoutes]
            && all[..4] == [XRay, Tun, TunRoutes, Firewall] && all[..5] == [XRay, Tun, TunRoutes, Firewall, GatewayRoute]
            && all[..|all|] == all
  {
  }

  lemma FromTunnel(o: Outcomes, wantDns: bool)
    ensures var ops := Operations(o, wantDns);
            && FirstError(ops, 3) == (if !o.tunNew || !o.tunUp || !o.tunRoutes then Some(TunFailed)
                                      else if !o.firewall then Some(FirewallFailed)
                                      else if !o.gateway then Some(RouteFailed)
                                      else if wantDns && !o.dns then Some(DnsFailed) else None)
            && Gains(ops, 3) == (if !o.tunNew then [] else if !o.tunUp || !o.tunRoutes then [Tun]
                                 else if !o.firewall then [Tun, TunRoutes]
                                 else if !o.gateway then [Tun, TunRoutes, Firewall]
                                 else [Tun, TunRoutes, Firewall, GatewayRoute] + if wantDns && o.dns then [Dns] else [])
  {
    var ops := Operations(o, wantDns);
    AtDns(o, wantDns);
    assert FirstError(ops, 6) == if !o.firewall then Some(FirewallFailed) else if !o.gateway then Some(RouteFailed) else FirstError(ops, 8);
    assert Gains(ops, 7) == if !o.gateway then [] else [GatewayRoute] + Gains(ops, 8);
    assert Gains(ops, 6) == if !o.firewall then [] else [Firewall] + Gains(ops, 7);
    assert Gains(ops, 5) == if !o.tunRoutes then [] else [TunRoutes] + Gains(ops, 6);
    assert FirstError(ops, 5) == if !o.tunRoutes then Some(TunFailed) else FirstError(ops, 6);
    assert FirstError(ops, 4) == if !o.tunUp then Some(TunFailed) else FirstError(ops, 5);
    assert Gains(ops, 4) == if !o.tunUp then [] else [] + Gains(ops, 5);
  }

  // ----- entry lists

  /** Forward, written out. */
  lemma ForwardEntries(k: nat, wantDns: bool)
    ensures Forward(k, wantDns, 0) == []
    ensures Forward(k, wantDns, 1) == [Acquire(XRay, k)]
    ensures Forward(k, wantDns, 2) == [Acquire(XRay, k), Acquire(Tun, k)]
    ensures Forward(k, wantDns, 3) == [Acquire(XRay, k), Acquire(Tun, k), Acquire(TunRoutes, k)]
    ensures Forward(k, wantDns, 4) == Forward(k, wantDns, 3) + [Acquire(Firewall, k), Purge(k)]
    ensures Forward(k, wantDns, 5) == Forward(k, wantDns, 3) + [Acquire(Firewall, k), Purge(k), Acquire(GatewayRoute, k)]
    ensures wantDns ==> Forward(k, wantDns, 6) == Forward(k, wantDns, 5) + [Acquire(Dns, k)]
  {
    var all := All(wantDns);
    assert TakeEntries(k, all[..4]) == Forward(k, wantDns, 3) + [Acquire(Firewall, k)];
    assert all[4..4] == [] && all[4..5] == [GatewayRoute];
    if wantDns {
      assert all[4..6] == [GatewayRoute, Dns];
      assert TakeEntries(k, all[4..6]) == TakeEntries(k, all[4..5]) + [Acquire(Dns, k)];
    }
  }

  /**
   What an attempt that fails after the tunnel is up writes: until the firewall rule stands it is
   undone backwards, later the tunnel is closed before its routes and the rule go, and the server
   route goes first.
   */
  lemma LateFailureEntries(k: nat, wantDns: bool, o: Outcomes, rel: Releases)
    ensures var up := [Acquire(XRay, k), Acquire(Tun, k), Acquire(TunRoutes, k)];
            var undone := [Release(Tun, k, rel(Tun)), Release(TunRoutes, k, rel(TunRoutes)),
                           Release(Firewall, k, rel(Firewall)), Release(XRay, k, rel(XRay))];
            match Failure(o, wantDns)
            case Some(FirewallFailed) =>
              ConnectEntries(k, wantDns, o, rel)
              == up + [Release(TunRoutes, k, rel(TunRoutes)), Release(Tun, k, rel(Tun)), Release(XRay, k, rel(XRay))]
            case Some(RouteFailed) => ConnectEntries(k, wantDns, o, rel) == up + [Acquire(Firewall, k), Purge(k)] + undone
            case Some(DnsFailed) =>
              ConnectEntries(k, wantDns, o, rel)
              == up + [Acquire(Firewall, k), Purge(k), Acquire(GatewayRoute, k)] + [Release(GatewayRoute, k, rel(GatewayRoute))] + undone
            case _ => true
  {
    ForwardEntries(k, wantDns);
  }

  /** Disconnect's releases: the firewall rule first, DNS before the tunnel it needs, the server route before the tunnel's. */
  lemma TeardownEntries(k: nat, wantDns: bool, rel: Releases)
    ensures GiveEntries(k, TeardownOrder(wantDns), rel)
         == [Release(Firewall, k, rel(Firewall))] + (if wantDns then [Release(Dns, k, rel(Dns))] else [])
            + [Release(Tun, k, rel(Tun)), Release(GatewayRoute, k, rel(GatewayRoute)),
               Release(TunRoutes, k, rel(TunRoutes)), Release(XRay, k, rel(XRay))]
  {
  }

  lemma ConnectEntriesByCase(k: nat, wantDns: bool, o: Outcomes, rel: Releases)
    ensures var all, undo := ConnectEntries(k, wantDns, o, rel), GiveEntries(k, Reverse([] + [XRay]), rel);
            if !o.create then all == []
            else if !o.start || !o.ready then all == [] + [Acquire(XRay, k)] + undo
            else if !o.tunNew then all == [] + [Acquire(XRay, k)] + [] + undo
            else if !o.tunUp || !o.tunRoutes then
              all == [] + [Acquire(XRay, k)] + [Acquire(Tun, k), Release(Tun, k, rel(Tun))] + undo
            else
              all == [] + [Acquire(XRay, k)] + [Acquire(Tun, k), Acquire(TunRoutes, k)] + RouteEntries(k, wantDns, o, rel)
  {
    ForwardEntries(k, wantDns);
    assert GiveEntries(k, UndoOrder(2), rel) == [Release(Tun, k, rel(Tun))] + GiveEntries(k, [XRay], rel);
  }

  lemma RouteEntriesByCase(k: nat, wantDns: bool, o: Outcomes, rel: Releases)
    ensures var all := RouteEntries(k, wantDns, o, rel);
            if !o.firewall then
              all == [Release(TunRoutes, k, rel(TunRoutes)), Release(Tun, k, rel(Tun))] + GiveEntries(k, Reverse([XRay]), rel)
            else if !o.gateway then
              all == [Acquire(Firewall, k), Purge(k)] + GiveEntries(k, Reverse([XRay, Firewall, TunRoutes, Tun]), rel)
            else all == [Acquire(Firewall, k), Purge(k), Acquire(GatewayRoute, k)] + DnsEntries(k, wantDns, o, rel)
  {
    assert Reverse([XRay]) == [XRay];
    assert Reverse([XRay, Firewall, TunRoutes, Tun]) == UndoOrder(4);
    assert UndoOrder(3) == [TunRoutes] + [Tun] + [XRay];
  }

  lemma UndoDns(k: nat, rel: Releases)
    ensures GiveEntries(k, UndoOrder(5), rel)
         == [Release(GatewayRoute, k, rel(GatewayRoute))]
            + GiveEntries(k, Reverse([XRay, Firewall, TunRoutes, Tun]), rel)
  {
    assert Reverse([XRay, Firewall, TunRoutes, Tun]) == UndoOrder(5)[1..];
  }
}
