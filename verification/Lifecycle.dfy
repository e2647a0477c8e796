/**
 One client under every interleaving of Connect, Disconnect, its packet pump and the delayed
 reset (src/client.go).  A step is a section under the mutex, one release of the slow part of
 Disconnect, one move of a pump goroutine, or one receive from its channel.
 */
module Lifecycle {
  import opened Wrappers
  import opened Client

  // ----- rollback, one Connect at a time

  /** Whatever fails, exactly the resources acquired so far are given back. */
  lemma UndoIsExact(o: Outcomes, wantDns: bool)
    requires Failure(o, wantDns).Some?
    ensures multiset(UndoOrder(Depth(o, wantDns))) == multiset(All(wantDns)[..Depth(o, wantDns)])
  {
    FirstResources(wantDns, Depth(o, wantDns));
    FirstUndone(Depth(o, wantDns));
  }

  function First(d: nat): seq<Resource> {
    match d
    case 0 => []
    case 1 => [XRay]
    case 2 => [XRay, Tun]
    case 3 => [XRay, Tun, TunRoutes]
    case 4 => [XRay, Tun, TunRoutes, Firewall]
    case _ => [XRay, Tun, TunRoutes, Firewall, GatewayRoute]
  }

  lemma FirstResources(wantDns: bool, d: nat)
    requires d <= 5
    ensures All(wantDns)[..d] == First(d)
  {
  }

  lemma FirstUndone(d: nat)
    requires d <= 5
    ensures multiset(First(d)) == multiset(UndoOrder(d))
  {
    var a, b := First(d), UndoOrder(d);
    SameMembers(d);
    forall r ensures multiset(a)[r] == multiset(b)[r] {
      CountOnce(a, r);
      CountOnce(b, r);
    }
  }

  lemma SameMembers(d: nat)
    requires d <= 5
    ensures NoRepeat(First(d)) && NoRepeat(UndoOrder(d))
    ensures forall r :: r in First(d) <==> r in UndoOrder(d)
  {
  }

  predicate NoRepeat(rs: seq<Resource>) {
    forall i, j | 0 <= i < j < |rs| :: rs[i] != rs[j]
  }

  lemma {:induction false} CountOnce(rs: seq<Resource>, r: Resource)
    requires NoRepeat(rs)
    ensures multiset(rs)[r] == if r in rs then 1 else 0
  {
    if rs != [] {
      assert rs == [rs[0]] + rs[1..];
      CountOnce(rs[1..], r);
    }
  }

  /**
   The rollback is the reverse of the acquisitions exactly as long as the tunnel firewall rule
   has not been acquired; afterwards the tunnel is closed before its routes and the rule go.
   */
  lemma UndoIsReverseUntilFirewall(o: Outcomes, wantDns: bool)
    requires Failure(o, wantDns).Some?
    ensures UndoOrder(Depth(o, wantDns)) == Reverse(All(wantDns)[..Depth(o, wantDns)])
       <==> Failure(o, wantDns).value !in {RouteFailed, DnsFailed}
  {
    var d, all := Depth(o, wantDns), All(wantDns);
    var undo, back := UndoOrder(d), Reverse(All(wantDns)[..d]);
    assert d == 4 ==> undo[0] == Tun && back[0] == Firewall;
    assert d == 5 ==> undo[1] == Tun && back[1] == Firewall;
  }

  // ----- counting the ledger

  function Taken(l: seq<Entry>, r: Resource, k: nat): nat {
    if l == [] then 0 else (if l[0] == Acquire(r, k) then 1 else 0) + Taken(l[1..], r, k)
  }

  function Given(l: seq<Entry>, r: Resource, k: nat): nat {
    if l == [] then 0
    else (if l[0].Release? && l[0].r == r && l[0].attempt == k then 1 else 0) + Given(l[1..], r, k)
  }

  lemma {:induction false} CountConcat(a: seq<Entry>, b: seq<Entry>, r: Resource, k: nat)
    ensures Taken(a + b, r, k) == Taken(a, r, k) + Taken(b, r, k)
    ensures Given(a + b, r, k) == Given(a, r, k) + Given(b, r, k)
  {
    if a == [] {
      assert a + b == b;
    } else {
      assert (a + b)[1..] == a[1..] + b;
      CountConcat(a[1..], b, r, k);
    }
  }

  lemma {:induction false} CountTake(j: nat, rs: seq<Resource>, r: Resource, k: nat)
    ensures Taken(TakeEntries(j, rs), r, k) == if j == k then multiset(rs)[r] else 0
    ensures Given(TakeEntries(j, rs), r, k) == 0
  {
    if rs != [] {
      assert rs == [rs[0]] + rs[1..];
      assert TakeEntries(j, rs)[1..] == TakeEntries(j, rs[1..]);
      CountTake(j, rs[1..], r, k);
    }
  }

  lemma {:induction false} CountGive(j: nat, rs: seq<Resource>, rel: Releases, r: Resource, k: nat)
    ensures Taken(GiveEntries(j, rs, rel), r, k) == 0
    ensures Given(GiveEntries(j, rs, rel), r, k) == if j == k then multiset(rs)[r] else 0
  {
    if rs != [] {
      assert rs == [rs[0]] + rs[1..];
      assert GiveEntries(j, rs, rel)[1..] == GiveEntries(j, rs[1..], rel);
      CountGive(j, rs[1..], rel, r, k);
    }
  }

  lemma CountForward(j: nat, wantDns: bool, d: nat, r: Resource, k: nat)
    requires d <= |All(wantDns)|
    ensures Taken(Forward(j, wantDns, d), r, k) == if j == k then multiset(All(wantDns)[..d])[r] else 0
    ensures Given(Forward(j, wantDns, d), r, k) == 0
  {
    var all := All(wantDns);
    if d < 4 {
      CountTake(j, all[..d], r, k);
    } else {
      var first, purge, rest := TakeEntries(j, all[..4]), [Purge(j)], TakeEntries(j, all[4..d]);
      CountTake(j, all[..4], r, k);
      CountTake(j, all[4..d], r, k);
      CountConcat(first, purge, r, k);
      CountConcat(first + purge, rest, r, k);
      assert all[..d] == all[..4] + all[4..d];
      assert purge[1..] == [];
    }
  }

  lemma AllOnce(wantDns: bool, d: nat, r: Resource)
    requires d <= |All(wantDns)|
    ensures multiset(All(wantDns)[..d])[r] <= 1
    ensures multiset(All(wantDns)[..|All(wantDns)|])[r] == if r in All(wantDns) then 1 else 0
  {
    var all := All(wantDns);
    AllDistinct(wantDns);
    CountOnce(all[..d], r);
    CountOnce(all, r);
    assert all[..|all|] == all;
  }

  lemma AllDistinct(wantDns: bool)
    ensures NoRepeat(All(wantDns))
  {
  }

  /** A failed attempt takes each resource at most once and gives back exactly what it took. */
  lemma CountFailedConnect(j: nat, wantDns: bool, o: Outcomes, rel: Releases, r: Resource, k: nat)
    requires Failure(o, wantDns).Some?
    ensures var e := ConnectEntries(j, wantDns, o, rel);
            Given(e, r, k) == Taken(e, r, k) <= if j == k then 1 else 0
  {
    var d := Depth(o, wantDns);
    var undo := UndoOrder(d);
    CountForward(j, wantDns, d, r, k);
    AllOnce(wantDns, d, r);
    UndoIsExact(o, wantDns);
    CountGive(j, undo, rel, r, k);
    CountConcat(Forward(j, wantDns, d), GiveEntries(j, undo, rel), r, k);
  }

  /** A successful attempt takes every resource once and gives nothing back. */
  lemma CountConnected(j: nat, wantDns: bool, o: Outcomes, rel: Releases, r: Resource, k: nat)
    requires Failure(o, wantDns).None?
    ensures var e := ConnectEntries(j, wantDns, o, rel);
            Given(e, r, k) == 0 && Taken(e, r, k) == if j == k && r in All(wantDns) then 1 else 0
  {
    var d := Depth(o, wantDns);
    CountForward(j, wantDns, d, r, k);
    AllOnce(wantDns, d, r);
    assert Forward(j, wantDns, d) + [] == Forward(j, wantDns, d);
  }

  // ----- the client among its goroutines

  /** A goroutine inside Disconnect, after it has left the mutex. */
  datatype Task =
    | Releasing(k: nat, todo: seq<Resource>)
    | Waiting(k: nat)
    | Stopped(k: nat)

  /** The goroutine of one session: copying packets, value sent, channel closed. */
  datatype Pump = Running | Returned | Gone

  datatype World = World(
    life: Life, wantDns: bool,
    tasks: map<nat, Task>,   // by goroutine
    resets: seq<nat>,        // pending resetAfterTunnelStop goroutines, by session
    pumps: map<nat, Pump>,   // by session
    unread: set<nat>)        // sessions whose channel still holds the pump's result

  datatype Event =
    | Connect(o: Outcomes, rel: Releases)
    | Disconnect(t: nat)
    | ReleaseOne(t: nat, ok: bool)
    | StopSeen(t: nat)
    | StopTimeout(t: nat)
    | Finish(t: nat)
    | RunReset(i: nat)
    | PumpReturn(k: nat)
    | PumpExit(k: nat)
    | TunnelDoneRead(k: nat) // another reader of the channel takes the result

  function Start(wantDns: bool): World {
    World(Life(StateIdle, 0, []), wantDns, map[], [], map[], {})
  }

  predicate Receivable(w: World, k: nat) {
    k in w.unread || (k in w.pumps && w.pumps[k] == Gone)
  }

  function ResetState(s: ConnState): ConnState {
    if s == StateDisconnecting then StateIdle else s
  }

  predicate Enabled(w: World, e: Event) {
    match e
    case Connect(_, _) => true
    case Disconnect(t) => t !in w.tasks
    case ReleaseOne(t, _) => t in w.tasks && w.tasks[t].Releasing? && w.tasks[t].todo != []
    case StopSeen(t) => t in w.tasks && w.tasks[t].Waiting? && Receivable(w, w.tasks[t].k)
    case StopTimeout(t) => t in w.tasks && w.tasks[t].Waiting?
    case Finish(t) => t in w.tasks && w.tasks[t].Stopped?
    case RunReset(i) => i < |w.resets| && Receivable(w, w.resets[i])
    case PumpReturn(k) => k in w.pumps && w.pumps[k] == Running
    case PumpExit(k) => k in w.pumps && w.pumps[k] == Returned
    case TunnelDoneRead(k) => k in w.unread
  }

  function Step(w: World, e: Event): World
    requires Enabled(w, e)
  {
    match e
    case Connect(o, rel) =>
      var (life, err) := Connected(w.life, w.wantDns, o, rel);
      w.(life := life, pumps := if err.None? then w.pumps[life.attempt := Running] else w.pumps)
    case Disconnect(t) =>
      if w.life.state != StateConnected then w
      else w.(life := w.life.(state := StateDisconnecting),
              tasks := w.tasks[t := Releasing(w.life.attempt, TeardownOrder(w.wantDns))])
    case ReleaseOne(t, ok) =>
      var Releasing(k, todo) := w.tasks[t];
      w.(life := w.life.(ledger := w.life.ledger + [Release(todo[0], k, ok)]),
         tasks := w.tasks[t := if |todo| == 1 then Waiting(k) else Releasing(k, todo[1..])])
    case StopSeen(t) =>
      w.(tasks := w.tasks[t := Stopped(w.tasks[t].k)], unread := w.unread - {w.tasks[t].k})
    case StopTimeout(t) =>
      w.(tasks := w.tasks - {t}, resets := w.resets + [w.tasks[t].k])
    case Finish(t) =>
      w.(life := w.life.(state := ResetState(w.life.state)), tasks := w.tasks - {t})
    case RunReset(i) =>
      w.(life := w.life.(state := ResetState(w.life.state)),
         resets := w.resets[..i] + w.resets[i + 1..], unread := w.unread - {w.resets[i]})
    case PumpReturn(k) =>
      w.(pumps := w.pumps[k := Returned], unread := w.unread + {k})
    case PumpExit(k) =>
      w.(pumps := w.pumps[k := Gone])
    case TunnelDoneRead(k) =>
      w.(unread := w.unread - {k})
  }

  /** A run: events that are not enabled are skipped. */
  function Run(w: World, es: seq<Event>): World {
    if es == [] then w
    else
      var before := Run(w, es[..|es| - 1]);
      if Enabled(before, es[|es| - 1]) then Step(before, es[|es| - 1]) else before
  }

  // ----- the gate

  /** Exactly one goroutine, a Disconnect or a delayed reset, is responsible for leaving `disconnecting`. */
  predicate OneFinisher(w: World) {
    if w.life.state == StateDisconnecting then
      || (w.resets == [] && exists t | t in w.tasks :: w.tasks.Keys == {t})
      || (w.resets == [w.life.attempt] && w.tasks.Keys == {})
    else
      w.resets == [] && w.tasks.Keys == {}
  }

  predicate TaskOk(w: World, t: nat)
    requires t in w.tasks
  {
    && w.tasks[t].k == w.life.attempt
    && (w.tasks[t].Releasing? ==> w.tasks[t].todo != [] && NoRepeat(w.tasks[t].todo))
    && (w.tasks[t].Stopped? ==> w.life.attempt in w.pumps && w.pumps[w.life.attempt] != Running)
  }

  predicate PumpsOk(w: World) {
    && (forall k | k in w.pumps :: k <= w.life.attempt)
    && (forall k | k in w.pumps && w.pumps[k] == Running :: k == w.life.attempt && w.life.state != StateIdle)
    && (forall k | k in w.unread :: k in w.pumps && w.pumps[k] != Running)
    && (w.life.state != StateIdle ==> w.life.attempt in w.pumps)
  }

  predicate Gate(w: World) {
    OneFinisher(w) && PumpsOk(w) && forall t | t in w.tasks :: TaskOk(w, t)
  }

  lemma TeardownNoRepeat(wantDns: bool)
    ensures NoRepeat(TeardownOrder(wantDns)) && TeardownOrder(wantDns) != []
    ensures forall r :: r in TeardownOrder(wantDns) <==> r in All(wantDns)
  {
    var td := TeardownOrder(wantDns);
    assert td == if wantDns then [Firewall, Dns, Tun, GatewayRoute, TunRoutes, XRay]
                            else [Firewall, Tun, GatewayRoute, TunRoutes, XRay];
    forall r ensures r in td <==> r in All(wantDns) {
      assert XRay in td && Tun in td && TunRoutes in td && Firewall in td && GatewayRoute in td;
      assert td[0] == Firewall;
    }
  }

  /** The goroutine of a Disconnect in progress is the only one. */
  lemma OnlyTask(w: World, t: nat)
    requires Gate(w) && t in w.tasks
    ensures w.life.state == StateDisconnecting && w.resets == [] && w.tasks.Keys == {t} && (w.tasks - {t}).Keys == {}
    ensures TaskOk(w, t)
  {
    var u :| u in w.tasks && w.tasks.Keys == {u};
    assert t == u;
  }

  lemma TaskStepKeepsGate(w: World, e: Event)
    requires Gate(w) && Enabled(w, e) && (e.ReleaseOne? || e.StopSeen? || e.StopTimeout? || e.Finish?)
    ensures Gate(Step(w, e))
  {
    OnlyTask(w, e.t);
    var next := Step(w, e);
    if e.ReleaseOne? || e.StopSeen? {
      assert next.tasks.Keys == {e.t};
    }
  }

  /** A pending reset is the only thing left to do. */
  lemma ResetKeepsGate(w: World, i: nat)
    requires Gate(w) && Enabled(w, RunReset(i))
    ensures Gate(Step(w, RunReset(i)))
  {
    assert w.resets == [w.life.attempt] && i == 0 && w.tasks.Keys == {};
    assert w.life.attempt in w.pumps && w.pumps[w.life.attempt] != Running;
    var next := Step(w, RunReset(i));
    assert next.resets == [] && next.life.state == StateIdle;
    assert forall t | t in next.tasks :: false;
  }

  lemma PumpStepKeepsGate(w: World, e: Event)
    requires Gate(w) && Enabled(w, e) && (e.PumpReturn? || e.PumpExit? || e.TunnelDoneRead?)
    ensures Gate(Step(w, e))
  {
    var next := Step(w, e);
    assert next.life == w.life && next.tasks == w.tasks && next.resets == w.resets;
    assert OneFinisher(next);
    forall t | t in next.tasks ensures TaskOk(next, t) {
      assert TaskOk(w, t);
    }
  }

  lemma StepKeepsGate(w: World, e: Event)
    requires Gate(w) && Enabled(w, e)
    ensures Gate(Step(w, e))
  {
    match e
    case Connect(o, rel) =>
    case Disconnect(t) =>
      TeardownNoRepeat(w.wantDns);
      if w.life.state == StateConnected {
        assert Step(w, e).tasks.Keys == {t};
      }
    case ReleaseOne(_, _) => TaskStepKeepsGate(w, e);
    case StopSeen(_) => TaskStepKeepsGate(w, e);
    case StopTimeout(_) => TaskStepKeepsGate(w, e);
    case Finish(_) => TaskStepKeepsGate(w, e);
    case RunReset(i) => ResetKeepsGate(w, i);
    case _ => PumpStepKeepsGate(w, e);
  }

  lemma {:induction false} RunKeepsGate(wantDns: bool, es: seq<Event>)
    ensures Gate(Run(Start(wantDns), es)) && Run(Start(wantDns), es).wantDns == wantDns
  {
    if es != [] {
      RunKeepsGate(wantDns, es[..|es| - 1]);
      var before := Run(Start(wantDns), es[..|es| - 1]);
      if Enabled(before, es[|es| - 1]) {
        StepKeepsGate(before, es[|es| - 1]);
      }
    }
  }

  /** In every reachable state, idle means that no pump of this client runs and nothing is left to finish. */
  lemma IdleIsQuiet(wantDns: bool, es: seq<Event>)
    ensures var w := Run(Start(wantDns), es);
            w.life.state == StateIdle ==>
              w.tasks == map[] && w.resets == [] && forall k | k in w.pumps :: w.pumps[k] != Running
  {
    RunKeepsGate(wantDns, es);
    var w := Run(Start(wantDns), es);
    if w.life.state == StateIdle {
      assert w.tasks == map[];
    }
  }

  /** At most one pump runs, and at most one reset is pending. */
  lemma AtMostOnePump(wantDns: bool, es: seq<Event>)
    ensures var w := Run(Start(wantDns), es);
            && |w.resets| <= 1
            && forall i, j | i in w.pumps && j in w.pumps && w.pumps[i] == Running && w.pumps[j] == Running :: i == j
  {
    RunKeepsGate(wantDns, es);
  }

  /** A delayed reset finds the session it was started for still disconnecting: it never ends a newer one. */
  lemma ResetHitsItsOwnSession(wantDns: bool, es: seq<Event>, i: nat)
    requires Enabled(Run(Start(wantDns), es), RunReset(i))
    ensures var w := Run(Start(wantDns), es);
            && w.life.state == StateDisconnecting
            && w.resets[i] == w.life.attempt
            && w.resets[i] in w.pumps && w.pumps[w.resets[i]] != Running
            && Step(w, RunReset(i)).life.state == StateIdle
  {
    RunKeepsGate(wantDns, es);
  }

  /** Nothing but the finisher of a session leaves `disconnecting`. */
  lemma OnlyFinisherReopens(wantDns: bool, es: seq<Event>, e: Event)
    requires var w := Run(Start(wantDns), es);
             Enabled(w, e) && w.life.state == StateDisconnecting && Step(w, e).life.state != StateDisconnecting
    ensures e.Finish? || e.RunReset?
    ensures var w := Run(Start(wantDns), es); Step(w, e).tasks == map[] && Step(w, e).resets == []
  {
    RunKeepsGate(wantDns, es);
    StepKeepsGate(Run(Start(wantDns), es), e);
  }

  // ----- the ledger

  /** The resources of session k that are taken and not yet given back. */
  predicate Holds(w: World, r: Resource, k: nat) {
    && k == w.life.attempt
    && match w.life.state
       case StateIdle => false
       case StateConnected => r in All(w.wantDns)
       case StateDisconnecting => exists t | t in w.tasks :: w.tasks[t].Releasing? && r in w.tasks[t].todo
  }

  predicate BalancedFor(w: World, r: Resource, k: nat) {
    var taken, given := Taken(w.life.ledger, r, k), Given(w.life.ledger, r, k);
    && taken <= 1
    && (k > w.life.attempt ==> taken == 0)
    && taken - given == if Holds(w, r, k) then 1 else 0
  }

  lemma StepKeepsBalance(w: World, e: Event, r: Resource, k: nat)
    requires Gate(w) && Enabled(w, e) && BalancedFor(w, r, k)
    ensures BalancedFor(Step(w, e), r, k)
  {
    match e
    case Connect(o, rel) => ConnectKeepsBalance(w, o, rel, r, k);
    case Disconnect(t) => DisconnectHolds(w, t, r, k);
    case ReleaseOne(t, ok) => ReleaseKeepsBalance(w, t, ok, r, k);
    case _ => OtherHolds(w, e, r, k);
  }

  /** One more attempt, of which r is held afterwards or not at all. */
  lemma AttemptKeepsBalance(w: World, v: World, entries: seq<Entry>, r: Resource, k: nat)
    requires BalancedFor(w, r, k) && w.life.state == StateIdle && v.wantDns == w.wantDns
    requires v.life.state != StateDisconnecting && v.life.attempt == w.life.attempt + 1
    requires v.life.ledger == w.life.ledger + entries
    requires Taken(entries, r, k) <= if k == v.life.attempt then 1 else 0
    requires Taken(entries, r, k) - Given(entries, r, k) == if Holds(v, r, k) then 1 else 0
    ensures BalancedFor(v, r, k)
  {
    CountConcat(w.life.ledger, entries, r, k);
  }

  lemma FailedConnectKeepsBalance(w: World, o: Outcomes, rel: Releases, r: Resource, k: nat)
    requires BalancedFor(w, r, k) && w.life.state == StateIdle && Failure(o, w.wantDns).Some?
    ensures BalancedFor(Step(w, Connect(o, rel)), r, k)
  {
    var entries := ConnectEntries(w.life.attempt + 1, w.wantDns, o, rel);
    CountFailedConnect(w.life.attempt + 1, w.wantDns, o, rel, r, k);
    AttemptKeepsBalance(w, Step(w, Connect(o, rel)), entries, r, k);
  }

  lemma FirstConnectedKeepsBalance(w: World, o: Outcomes, rel: Releases, r: Resource, k: nat)
    requires BalancedFor(w, r, k) && w.life.state == StateIdle && Failure(o, w.wantDns).None?
    ensures BalancedFor(Step(w, Connect(o, rel)), r, k)
  {
    var entries := ConnectEntries(w.life.attempt + 1, w.wantDns, o, rel);
    CountConnected(w.life.attempt + 1, w.wantDns, o, rel, r, k);
    AttemptKeepsBalance(w, Step(w, Connect(o, rel)), entries, r, k);
  }

  lemma ConnectKeepsBalance(w: World, o: Outcomes, rel: Releases, r: Resource, k: nat)
    requires Gate(w) && BalancedFor(w, r, k)
    ensures BalancedFor(Step(w, Connect(o, rel)), r, k)
  {
    if w.life.state == StateIdle {
      if Failure(o, w.wantDns).Some? {
        FailedConnectKeepsBalance(w, o, rel, r, k);
      } else {
        FirstConnectedKeepsBalance(w, o, rel, r, k);
      }
    } else {
      assert Step(w, Connect(o, rel)) == w;
    }
  }

  lemma ReleaseKeepsBalance(w: World, t: nat, ok: bool, r: Resource, k: nat)
    requires Gate(w) && Enabled(w, ReleaseOne(t, ok)) && BalancedFor(w, r, k)
    ensures BalancedFor(Step(w, ReleaseOne(t, ok)), r, k)
  {
    assert TaskOk(w, t);
    var entry := [Release(w.tasks[t].todo[0], w.tasks[t].k, ok)];
    assert entry[1..] == [];
    CountConcat(w.life.ledger, entry, r, k);
    ReleaseHolds(w, t, ok, r, k);
  }

  lemma DisconnectHolds(w: World, t: nat, r: Resource, k: nat)
    requires Gate(w) && Enabled(w, Disconnect(t))
    ensures Holds(Step(w, Disconnect(t)), r, k) == Holds(w, r, k)
  {
    TeardownNoRepeat(w.wantDns);
    var next := Step(w, Disconnect(t));
    if w.life.state == StateConnected {
      assert next.tasks.Keys == {t};
      assert next.tasks[t].todo == TeardownOrder(w.wantDns);
    }
  }

  lemma ReleaseHolds(w: World, t: nat, ok: bool, r: Resource, k: nat)
    requires Gate(w) && Enabled(w, ReleaseOne(t, ok))
    ensures var todo := w.tasks[t].todo;
            Holds(Step(w, ReleaseOne(t, ok)), r, k) == (Holds(w, r, k) && r != todo[0])
    ensures k == w.life.attempt ==> Holds(w, w.tasks[t].todo[0], k)
  {
    assert TaskOk(w, t);
    var todo := w.tasks[t].todo;
    var next := Step(w, ReleaseOne(t, ok));
    assert w.tasks.Keys == {t} && next.tasks.Keys == {t};
    assert todo == [todo[0]] + todo[1..];
    assert r in todo <==> r == todo[0] || r in todo[1..];
  }

  lemma OtherHolds(w: World, e: Event, r: Resource, k: nat)
    requires Gate(w) && Enabled(w, e) && !e.Connect? && !e.Disconnect? && !e.ReleaseOne?
    ensures Holds(Step(w, e), r, k) == Holds(w, r, k)
    ensures Step(w, e).life.ledger == w.life.ledger && Step(w, e).life.attempt == w.life.attempt
  {
    if e.StopSeen? || e.StopTimeout? || e.Finish? {
      OnlyTask(w, e.t);
      assert forall t | t in Step(w, e).tasks :: t == e.t && !Step(w, e).tasks[t].Releasing?;
    } else {
      assert Step(w, e).tasks == w.tasks;
    }
  }

  lemma {:induction false} RunKeepsBalance(wantDns: bool, es: seq<Event>, r: Resource, k: nat)
    ensures BalancedFor(Run(Start(wantDns), es), r, k)
  {
    if es != [] {
      var init, last := es[..|es| - 1], es[|es| - 1];
      RunKeepsBalance(wantDns, init, r, k);
      RunKeepsGate(wantDns, init);
      var before := Run(Start(wantDns), init);
      if Enabled(before, last) {
        StepKeepsBalance(before, last, r, k);
      }
    }
  }

  /**
   Over every run: a resource of a session is acquired at most once and released at most once;
   acquisitions minus release attempts is 1 for each resource while connected and 0 when idle.
   */
  lemma LedgerBalance(wantDns: bool, es: seq<Event>, r: Resource, k: nat)
    ensures var w := Run(Start(wantDns), es);
            var taken, given := Taken(w.life.ledger, r, k), Given(w.life.ledger, r, k);
            && given <= taken <= 1
            && (w.life.state == StateIdle ==> given == taken)
            && (w.life.state == StateConnected ==>
                  taken - given == if k == w.life.attempt && r in All(wantDns) then 1 else 0)
  {
    RunKeepsBalance(wantDns, es, r, k);
    RunKeepsGate(wantDns, es);
  }

  // ----- the order of a teardown, under interference

  predicate IsRelease(e: Entry, r: Resource, k: nat) {
    e.Release? && e.r == r && e.attempt == k
  }

  /** The ledger ends with one release attempt of attempt k for each of rs, in order. */
  predicate EndsWith(ledger: seq<Entry>, rs: seq<Resource>, k: nat) {
    |rs| <= |ledger| && forall i | 0 <= i < |rs| :: IsRelease(ledger[|ledger| - |rs| + i], rs[i], k)
  }

  lemma EndsWithOneMore(ledger: seq<Entry>, rs: seq<Resource>, k: nat, e: Entry, r: Resource)
    requires EndsWith(ledger, rs, k) && IsRelease(e, r, k)
    ensures EndsWith(ledger + [e], rs + [r], k)
  {
    var more := ledger + [e];
    forall i | 0 <= i < |rs| + 1 ensures IsRelease(more[|more| - (|rs| + 1) + i], (rs + [r])[i], k) {
      if i < |rs| {
        assert IsRelease(ledger[|ledger| - |rs| + i], rs[i], k);
      }
    }
  }

  /** It ends with the releases of this session but for those still to do. */
  predicate EndsWithReleases(w: World, todo: seq<Resource>) {
    var td := TeardownOrder(w.wantDns);
    && |todo| <= |td| && td[|td| - |todo|..] == todo
    && EndsWith(w.life.ledger, td[..|td| - |todo|], w.life.attempt)
  }

  function TodoOf(t: Task): seq<Resource> {
    if t.Releasing? then t.todo else []
  }

  predicate TeardownOk(w: World) {
    w.life.state == StateDisconnecting ==>
      && (forall t | t in w.tasks :: EndsWithReleases(w, TodoOf(w.tasks[t])))
      && (w.tasks.Keys == {} ==> EndsWithReleases(w, []))
  }

  lemma OneLessToDo(td: seq<Resource>, todo: seq<Resource>, ledger: seq<Entry>, k: nat, e: Entry)
    requires todo != [] && |todo| <= |td| && td[|td| - |todo|..] == todo
    requires EndsWith(ledger, td[..|td| - |todo|], k) && IsRelease(e, todo[0], k)
    ensures td[|td| - |todo| + 1..] == todo[1..]
    ensures EndsWith(ledger + [e], td[..|td| - |todo| + 1], k)
  {
    assert td[|td| - |todo|] == todo[0];
    assert td[..|td| - |todo| + 1] == td[..|td| - |todo|] + [todo[0]];
    EndsWithOneMore(ledger, td[..|td| - |todo|], k, e, todo[0]);
  }

  lemma OneReleaseMore(w: World, v: World, todo: seq<Resource>, e: Entry)
    requires EndsWithReleases(w, todo) && todo != [] && IsRelease(e, todo[0], w.life.attempt)
    requires v.life.ledger == w.life.ledger + [e] && v.life.attempt == w.life.attempt && v.wantDns == w.wantDns
    ensures EndsWithReleases(v, todo[1..])
  {
    OneLessToDo(TeardownOrder(w.wantDns), todo, w.life.ledger, w.life.attempt, e);
  }

  lemma OnlyTodo(w: World, t: nat, todo: seq<Resource>)
    requires w.tasks.Keys == {t} && TodoOf(w.tasks[t]) == todo && EndsWithReleases(w, todo)
    ensures TeardownOk(w)
  {
    forall u | u in w.tasks ensures EndsWithReleases(w, TodoOf(w.tasks[u])) {
      assert u == t;
    }
  }

  lemma ReleaseKeepsOrder(w: World, t: nat, ok: bool)
    requires Gate(w) && TeardownOk(w) && Enabled(w, ReleaseOne(t, ok))
    ensures TeardownOk(Step(w, ReleaseOne(t, ok)))
  {
    OnlyTask(w, t);
    var v, todo := Step(w, ReleaseOne(t, ok)), w.tasks[t].todo;
    OneReleaseMore(w, v, todo, Release(todo[0], w.tasks[t].k, ok));
    OnlyTodo(v, t, todo[1..]);
  }

  lemma StepKeepsOrder(w: World, e: Event)
    requires Gate(w) && TeardownOk(w) && Enabled(w, e)
    ensures TeardownOk(Step(w, e))
  {
    match e
    case Connect(_, _) =>
    case Disconnect(t) =>
      if w.life.state == StateConnected {
        assert Step(w, e).tasks.Keys == {t};
        assert EndsWith(w.life.ledger, [], w.life.attempt);
        assert EndsWithReleases(Step(w, e), TeardownOrder(w.wantDns));
      }
    case ReleaseOne(t, ok) => ReleaseKeepsOrder(w, t, ok);
    case StopSeen(t) => StopKeepsOrder(w, e, t);
    case StopTimeout(t) => StopKeepsOrder(w, e, t);
    case Finish(t) => StopKeepsOrder(w, e, t);
    case _ => PumpKeepsOrder(w, e);
  }

  lemma StopKeepsOrder(w: World, e: Event, t: nat)
    requires Gate(w) && TeardownOk(w) && Enabled(w, e)
    requires e == StopSeen(t) || e == StopTimeout(t) || e == Finish(t)
    ensures TeardownOk(Step(w, e))
  {
    OnlyTask(w, t);
    assert EndsWithReleases(w, []);
    var v := Step(w, e);
    assert EndsWithReleases(v, []);
    assert v.tasks.Keys == if e.StopSeen? then {t} else {};
  }

  lemma PumpKeepsOrder(w: World, e: Event)
    requires TeardownOk(w) && Enabled(w, e)
    requires e.RunReset? || e.PumpReturn? || e.PumpExit? || e.TunnelDoneRead?
    ensures TeardownOk(Step(w, e))
  {
    if !e.RunReset? {
      SameLedgerKeepsOrder(w, Step(w, e));
    }
  }

  lemma SameReleases(w: World, v: World, todo: seq<Resource>)
    requires v.life == w.life && v.wantDns == w.wantDns
    ensures EndsWithReleases(v, todo) == EndsWithReleases(w, todo)
  {
  }

  lemma SameLedgerKeepsOrder(w: World, v: World)
    requires TeardownOk(w) && v.life == w.life && v.tasks == w.tasks && v.wantDns == w.wantDns
    ensures TeardownOk(v)
  {
    if w.life.state == StateDisconnecting {
      forall t | t in w.tasks ensures EndsWithReleases(v, TodoOf(w.tasks[t])) {
        SameReleases(w, v, TodoOf(w.tasks[t]));
      }
      SameReleases(w, v, []);
    }
  }

  /**
   Whatever other calls, pumps and resets do meanwhile, once a Disconnect has done its releases the
   ledger ends with exactly them: one attempt for each resource of its own session, in the order
   of the code.
   */
  lemma {:induction false} TeardownUnderInterference(wantDns: bool, es: seq<Event>)
    ensures var w := Run(Start(wantDns), es);
            && TeardownOk(w)
            && (w.life.state == StateDisconnecting && (forall t | t in w.tasks :: !w.tasks[t].Releasing?) ==>
                  EndsWithReleases(w, []))
  {
    if es != [] {
      TeardownUnderInterference(wantDns, es[..|es| - 1]);
      RunKeepsGate(wantDns, es[..|es| - 1]);
      var before := Run(Start(wantDns), es[..|es| - 1]);
      if Enabled(before, es[|es| - 1]) {
        StepKeepsOrder(before, es[|es| - 1]);
      }
    }
    RunKeepsGate(wantDns, es);
    DoneReleasing(Run(Start(wantDns), es));
  }

  lemma DoneReleasing(w: World)
    requires TeardownOk(w)
    ensures w.life.state == StateDisconnecting && (forall t | t in w.tasks :: !w.tasks[t].Releasing?) ==>
              EndsWithReleases(w, [])
  {
    if w.tasks.Keys != {} {
      var t :| t in w.tasks;
      assert w.life.state == StateDisconnecting ==> EndsWithReleases(w, TodoOf(w.tasks[t]));
    }
  }
}
