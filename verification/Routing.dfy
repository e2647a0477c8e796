/**
 What a client's ledger does to the routing table (src/client.go), over the whole IPv4 address
 space.  A packet follows the longest matching prefix, section 5.2.4.3 of RFC 1812.
 */
module Routing {
  import opened Wrappers
  import opened Numbers
  import opened Client

  const SPACE32 := 0x1_0000_0000

  type Address = a: int | 0 <= a < SPACE32

  /** The number of addresses of a prefix. */
  function Size(len: nat): (s: nat)
    requires len <= 32
    ensures s >= 1
  {
    Pow2(32 - len)
  }

  datatype Prefix = Prefix(base: int, len: nat)

  function PrefixOf(a: Address, len: nat): Prefix
    requires len <= 32
  {
    Prefix(a / Size(len) * Size(len), len)
  }

  datatype Hop = ToTun | ToGateway | Other(id: nat)

  type Table = map<Prefix, Hop>

  function Host(server: Address): Prefix { Prefix(server, 32) }

  /** The split-default routes 0.0.0.0/1 and 128.0.0.0/1. */
  const LOW := Prefix(0, 1)
  const HIGH := Prefix(0x8000_0000, 1)

  // ----- longest-prefix lookup

  /** The length of the longest prefix of a in the table, not above len; -1 when there is none. */
  function BestLen(t: Table, a: Address, len: int): (r: int)
    requires -1 <= len <= 32
    ensures -1 <= r <= len
    ensures r >= 0 ==> PrefixOf(a, r) in t
  {
    if len < 0 then -1
    else if PrefixOf(a, len) in t then len
    else BestLen(t, a, len - 1)
  }

  function Lookup(t: Table, a: Address): Option<Hop> {
    var len := BestLen(t, a, 32);
    if len < 0 then None else Some(t[PrefixOf(a, len)])
  }

  /** A prefix as a block of addresses that starts at a multiple of its size. */
  predicate IsPrefix(p: Prefix) {
    p.len <= 32 && p.base % Size(p.len) == 0
  }

  predicate Covers(p: Prefix, a: Address) {
    p.len <= 32 && p.base <= a < p.base + Size(p.len)
  }

  lemma CoversIsPrefixOf(p: Prefix, a: Address)
    requires IsPrefix(p)
    ensures Covers(p, a) <==> p == PrefixOf(a, p.len)
  {
    var s := Size(p.len);
    Division(p.base, s);
    Division(a, s);
    SameBlock(p.base / s, a / s, s, a);
  }

  lemma Division(x: int, s: nat)
    requires s >= 1
    ensures x == x / s * s + x % s && x / s * s <= x < x / s * s + s
  {
  }

  lemma SameBlock(m: int, q: int, s: nat, a: int)
    requires s >= 1 && q * s <= a < q * s + s
    ensures m * s <= a < m * s + s <==> m == q
    ensures m * s == q * s <==> m == q
  {
    assert m < q ==> (m + 1) * s <= q * s;
    assert m > q ==> m * s >= (q + 1) * s;
    assert (m + 1) * s == m * s + s && (q + 1) * s == q * s + s;
  }

  /** Lookup follows a covering prefix of the table than which no covering prefix is longer. */
  lemma LookupIsLongestMatch(t: Table, a: Address, p: Prefix)
    requires forall q | q in t :: IsPrefix(q)
    requires p in t && Covers(p, a) && forall q | q in t && Covers(q, a) :: q.len <= p.len
    ensures Lookup(t, a) == Some(t[p])
  {
    CoversIsPrefixOf(p, a);
    BestAbove(t, a, 32, p.len);
    var best := PrefixOf(a, BestLen(t, a, 32));
    CoversIsPrefixOf(best, a);
  }

  lemma {:induction false} BestAbove(t: Table, a: Address, len: int, k: nat)
    requires k <= len <= 32 && PrefixOf(a, k) in t
    ensures BestLen(t, a, len) >= k
  {
    if PrefixOf(a, len) !in t {
      BestAbove(t, a, len - 1, k);
    }
  }

  // ----- the effect of the ledger

  /** A successful route deletion removes the destination; a failed one changes nothing. */
  function Apply(t: Table, e: Entry, server: nat -> Address): Table {
    match e
    case Acquire(TunRoutes, _) => t[LOW := ToTun][HIGH := ToTun]
    case Acquire(GatewayRoute, k) => t[Host(server(k)) := ToGateway]
    case Purge(k) => t - {Host(server(k))}
    case Release(TunRoutes, _, true) => t - {LOW, HIGH}
    case Release(GatewayRoute, k, true) => t - {Host(server(k))}
    case _ => t
  }

  function ApplyAll(t: Table, es: seq<Entry>, server: nat -> Address): Table
    decreases es
  {
    if es == [] then t else ApplyAll(Apply(t, es[0], server), es[1..], server)
  }

  lemma {:induction false} ApplyConcat(t: Table, a: seq<Entry>, b: seq<Entry>, server: nat -> Address)
    ensures ApplyAll(t, a + b, server) == ApplyAll(ApplyAll(t, a, server), b, server)
    decreases a
  {
    if a == [] {
      assert a + b == b;
    } else {
      assert (a + b)[1..] == a[1..] + b;
      ApplyConcat(Apply(t, a[0], server), a[1..], b, server);
    }
  }

  /** Taking or giving back resources other than the two kinds of route leaves the table alone. */
  lemma {:induction false} ApplyTake(t: Table, k: nat, rs: seq<Resource>, server: nat -> Address)
    ensures GatewayRoute !in rs ==>
              ApplyAll(t, TakeEntries(k, rs), server) == if TunRoutes in rs then t[LOW := ToTun][HIGH := ToTun] else t
    ensures TunRoutes !in rs ==>
              ApplyAll(t, TakeEntries(k, rs), server) == if GatewayRoute in rs then t[Host(server(k)) := ToGateway] else t
    decreases rs
  {
    if rs != [] {
      assert TakeEntries(k, rs)[1..] == TakeEntries(k, rs[1..]);
      ApplyTake(Apply(t, Acquire(rs[0], k), server), k, rs[1..], server);
    }
  }

  /** Successful releases remove exactly the destinations of the routes given back. */
  lemma {:induction false} ApplyGive(t: Table, k: nat, rs: seq<Resource>, rel: Releases, server: nat -> Address)
    requires forall r :: rel(r)
    ensures ApplyAll(t, GiveEntries(k, rs, rel), server)
         == t - (if TunRoutes in rs then {LOW, HIGH} else {}) - (if GatewayRoute in rs then {Host(server(k))} else {})
    decreases rs
  {
    if rs != [] {
      assert GiveEntries(k, rs, rel)[1..] == GiveEntries(k, rs[1..], rel);
      ApplyGive(Apply(t, Release(rs[0], k, rel(rs[0])), server), k, rs[1..], rel, server);
    }
  }

  /** The table after the first d acquisitions of an attempt. */
  lemma ApplyForward(t: Table, k: nat, wantDns: bool, d: nat, server: nat -> Address)
    requires d <= |All(wantDns)|
    ensures ApplyAll(t, Forward(k, wantDns, d), server)
         == if d < 3 then t
            else if d == 3 then t[LOW := ToTun][HIGH := ToTun]
            else if d == 4 then t[LOW := ToTun][HIGH := ToTun] - {Host(server(k))}
            else t[LOW := ToTun][HIGH := ToTun][Host(server(k)) := ToGateway]
  {
    var all := All(wantDns);
    if d < 4 {
      assert TunRoutes in all[..d] <==> d == 3 by { assert all[2] == TunRoutes; }
      ApplyTake(t, k, all[..d], server);
    } else {
      var first, rest := all[..4], all[4..d];
      assert all[2] == first[2] == TunRoutes;
      assert GatewayRoute in rest <==> d > 4 by { assert all[4] == GatewayRoute; assert d > 4 ==> rest[0] == all[4]; }
      var tun, purge := t[LOW := ToTun][HIGH := ToTun], [Purge(k)];
      ApplyTake(t, k, first, server);
      assert purge[1..] == [];
      ApplyConcat(t, TakeEntries(k, first), purge, server);
      ApplyTake(tun - {Host(server(k))}, k, rest, server);
      ApplyConcat(t, TakeEntries(k, first) + purge, TakeEntries(k, rest), server);
      assert (tun - {Host(server(k))})[Host(server(k)) := ToGateway] == tun[Host(server(k)) := ToGateway];
    }
  }

  // ----- routing while connected

  /** The split-default routes can only be added where they are not there yet. */
  predicate Addable(t: Table) {
    LOW !in t && HIGH !in t
  }

  function ConnectedTable(t: Table, server: Address): Table {
    t[LOW := ToTun][HIGH := ToTun][Host(server) := ToGateway]
  }

  lemma ConnectBuildsTable(t: Table, k: nat, wantDns: bool, o: Outcomes, rel: Releases, server: nat -> Address)
    requires Failure(o, wantDns).None?
    ensures ApplyAll(t, ConnectEntries(k, wantDns, o, rel), server) == ConnectedTable(t, server(k))
  {
    ApplyForward(t, k, wantDns, |All(wantDns)|, server);
    assert Forward(k, wantDns, |All(wantDns)|) + [] == Forward(k, wantDns, |All(wantDns)|);
  }

  lemma Halves(a: Address)
    ensures PrefixOf(a, 1) == if a < 0x8000_0000 then LOW else HIGH
    ensures PrefixOf(a, 32) == Host(a)
  {
    Pow2Constants();
  }

  lemma {:induction false} BestUnchanged(t: Table, u: Table, a: Address, len: int)
    requires 2 <= len <= 32
    requires forall k | 2 <= k <= len :: PrefixOf(a, k) in t <==> PrefixOf(a, k) in u
    requires PrefixOf(a, 1) in u && PrefixOf(a, 1) !in t
    ensures BestLen(u, a, len) == if BestLen(t, a, len) >= 2 then BestLen(t, a, len) else 1
  {
    if PrefixOf(a, len) !in t && len > 2 {
      BestUnchanged(t, u, a, len - 1);
    }
  }

  /**
   While connected, for every address: the proxy server is reached through the gateway, an
   address with a more specific route than a default keeps it, and all others enter the tunnel.
   */
  lemma RoutingWhileConnected(t: Table, server: Address, a: Address)
    requires Addable(t)
    ensures Lookup(ConnectedTable(t, server), a)
         == if a == server then Some(ToGateway)
            else if BestLen(t, a, 32) >= 2 then Lookup(t, a)
            else Some(ToTun)
  {
    Halves(a);
    var u := ConnectedTable(t, server);
    if a != server {
      forall k | 2 <= k <= 32 ensures PrefixOf(a, k) in t <==> PrefixOf(a, k) in u {
        assert k == 32 ==> PrefixOf(a, k).base == a;
      }
      BestUnchanged(t, u, a, 32);
    }
  }

  // ----- routing afterwards

  /** Successful teardown removes the routes that Connect added, and only those. */
  lemma DisconnectTable(t: Table, k: nat, wantDns: bool, rel: Releases, server: nat -> Address)
    requires Addable(t) && forall r :: rel(r)
    ensures ApplyAll(ConnectedTable(t, server(k)), GiveEntries(k, TeardownOrder(wantDns), rel), server)
         == t - {Host(server(k))}
  {
    var td := TeardownOrder(wantDns);
    var n := if wantDns then 1 else 0;
    assert td[n + 2] == GatewayRoute && td[n + 3] == TunRoutes;
    ApplyGive(ConnectedTable(t, server(k)), k, td, rel, server);
    assert Host(server(k)) != LOW && Host(server(k)) != HIGH;
  }

  /** So a Connect and a Disconnect leave the table as it was exactly when it had no route to the server itself. */
  lemma SessionRestoresTable(t: Table, k: nat, wantDns: bool, o: Outcomes, rel: Releases, server: nat -> Address)
    requires Addable(t) && Failure(o, wantDns).None? && forall r :: rel(r)
    ensures ApplyAll(t, ConnectEntries(k, wantDns, o, rel) + GiveEntries(k, TeardownOrder(wantDns), rel), server) == t
       <==> Host(server(k)) !in t
  {
    ConnectBuildsTable(t, k, wantDns, o, rel, server);
    DisconnectTable(t, k, wantDns, rel, server);
    ApplyConcat(t, ConnectEntries(k, wantDns, o, rel), GiveEntries(k, TeardownOrder(wantDns), rel), server);
    assert Host(server(k)) in t ==> Host(server(k)) !in t - {Host(server(k))};
  }

  /** Even then every other address is looked up as before. */
  lemma SessionRestoresLookup(t: Table, server: Address, a: Address)
    requires a != server
    ensures Lookup(t - {Host(server)}, a) == Lookup(t, a)
  {
    Halves(a);
    SameLookup(t, t - {Host(server)}, a, 32);
  }

  lemma {:induction false} SameLookup(t: Table, u: Table, a: Address, len: int)
    requires -1 <= len <= 32
    requires forall k | 0 <= k <= len :: PrefixOf(a, k) in t <==> PrefixOf(a, k) in u
    ensures BestLen(t, a, len) == BestLen(u, a, len)
  {
    if len >= 0 && PrefixOf(a, len) !in t {
      SameLookup(t, u, a, len - 1);
    }
  }

  /**
   A failed Connect whose releases succeed leaves the table as it was exactly when it failed
   before the server route was prepared or the table had no such route: the purge is not undone.
   */
  lemma FailedConnectTable(t: Table, k: nat, wantDns: bool, o: Outcomes, rel: Releases, server: nat -> Address)
    requires Addable(t) && Failure(o, wantDns).Some? && forall r :: rel(r)
    ensures ApplyAll(t, ConnectEntries(k, wantDns, o, rel), server) == t
       <==> Failure(o, wantDns).value !in {RouteFailed, DnsFailed} || Host(server(k)) !in t
  {
    var d, host := Depth(o, wantDns), Host(server(k));
    UndoneTable(t, k, wantDns, d, rel, server);
    ApplyConcat(t, Forward(k, wantDns, d), GiveEntries(k, UndoOrder(d), rel), server);
    if d >= 4 {
      assert host in t ==> host !in t - {host};
      assert host !in t ==> t - {host} == t;
    }
  }

  lemma RoutesUndone(d: nat)
    requires d <= 5
    ensures TunRoutes in UndoOrder(d) <==> d >= 3
    ensures GatewayRoute in UndoOrder(d) <==> d == 5
  {
    var undo := UndoOrder(d);
    assert d == 3 ==> undo[0] == TunRoutes;
    assert d == 4 ==> undo[1] == TunRoutes;
    assert d == 5 ==> undo[2] == TunRoutes && undo[0] == GatewayRoute;
  }

  /** d acquisitions and their rollback cost the table at most an earlier route to the server. */
  lemma UndoneTable(t: Table, k: nat, wantDns: bool, d: nat, rel: Releases, server: nat -> Address)
    requires Addable(t) && d <= 5 && forall r :: rel(r)
    ensures ApplyAll(ApplyAll(t, Forward(k, wantDns, d), server), GiveEntries(k, UndoOrder(d), rel), server)
         == if d >= 4 then t - {Host(server(k))} else t
  {
    var host := Host(server(k));
    assert host != LOW && host != HIGH;
    ApplyForward(t, k, wantDns, d, server);
    ApplyGive(ApplyAll(t, Forward(k, wantDns, d), server), k, UndoOrder(d), rel, server);
    RoutesUndone(d);
    if d < 3 {
      assert t - {} - {} == t;
    } else if d == 3 {
      assert t[LOW := ToTun][HIGH := ToTun] - {LOW, HIGH} - {} == t;
    } else if d == 4 {
      assert t[LOW := ToTun][HIGH := ToTun] - {host} - {LOW, HIGH} - {} == t - {host};
    } else {
      assert t[LOW := ToTun][HIGH := ToTun][host := ToGateway] - {LOW, HIGH} - {host} == t - {host};
    }
  }
}
