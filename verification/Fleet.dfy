/**
 A reconnect loop together with the clients it creates, each with its own mutex, goroutines and
 ledger.  It refines the loop of `Reconnect`, which knows a client only by its lifecycle state.
 */
module Fleet {
  import opened Wrappers
  import opened Profiles
  import opened Client
  import opened Reconnect
  import L = Lifecycle

  /** The loop, what it publishes, and every client that it ever created. */
  datatype Joint = Joint(loop: Loop, pub: Published, fleet: seq<L.World>)

  /** The loop's goroutine, as the clients number the callers of Disconnect. */
  const LOOP: nat := 0

  datatype Event =
    | LoopMoves(o: Obs, outcomes: Outcomes, rel: Releases) // a section that does not end a Disconnect
    | DisconnectReturns(o: Obs, inTime: bool)
    | ClientMoves(a: nat, e: L.Event)                      // a goroutine of client a, or a release by its Disconnect

  function Start(profile: Profile): Joint {
    Joint(NewLoop(profile), UNPUBLISHED, [])
  }

  predicate InDisconnect(l: Loop) {
    l.pc == InReject || l.pc == InTeardown
  }

  predicate HasClient(j: Joint) {
    j.loop.vpn.Some? && j.loop.vpn.value < |j.fleet|
  }

  /** What a goroutine of a client does on its own; only the loop calls Connect and Disconnect. */
  predicate OwnMove(e: L.Event) {
    e.ReleaseOne? || e.StopSeen? || e.RunReset? || e.PumpReturn? || e.PumpExit? || e.TunnelDoneRead?
  }

  /** How the loop's Disconnect ends. */
  function Ending(inTime: bool): L.Event {
    if inTime then L.Finish(LOOP) else L.StopTimeout(LOOP)
  }

  predicate Enabled(j: Joint, e: Event) {
    match e
    case LoopMoves(o, _, _) =>
      && !j.loop.pc.Exited? && !InDisconnect(j.loop)
      && (j.loop.pc in {InConnect, InCheck, InSession} ==> HasClient(j))
      && (j.loop.pc in {InCheck, InSession} ==> L.Enabled(j.fleet[j.loop.vpn.value], L.Disconnect(LOOP)))
    case DisconnectReturns(_, inTime) =>
      InDisconnect(j.loop) && HasClient(j) && L.Enabled(j.fleet[j.loop.vpn.value], Ending(inTime))
    case ClientMoves(a, move) => a < |j.fleet| && OwnMove(move) && L.Enabled(j.fleet[a], move)
  }

  /** What the section observes: a call's result is the client's, not an assumption. */
  function Seen(j: Joint, e: Event): Obs
    requires Enabled(j, e) && !e.ClientMoves?
  {
    match e
    case LoopMoves(o, outcomes, rel) =>
      if j.loop.pc == InConnect then
        var client := j.fleet[j.loop.vpn.value];
        o.(ok := Connected(client.life, client.wantDns, outcomes, rel).1.None?)
      else o
    case DisconnectReturns(o, inTime) => o.(ok := inTime)
  }

  /** The loop's client after the section. */
  function Clients(j: Joint, e: Event, next: Loop, wantDns: bool): seq<L.World>
    requires Enabled(j, e) && !e.ClientMoves?
  {
    match e
    case LoopMoves(_, outcomes, rel) =>
      if j.loop.pc == InConnect then
        j.fleet[j.loop.vpn.value := L.Step(j.fleet[j.loop.vpn.value], L.Connect(outcomes, rel))]
      else if j.loop.pc in {InCheck, InSession} && InDisconnect(next) then
        j.fleet[j.loop.vpn.value := L.Step(j.fleet[j.loop.vpn.value], L.Disconnect(LOOP))]
      else if |next.clients| > |j.loop.clients| then j.fleet + [L.Start(wantDns)]
      else j.fleet
    case DisconnectReturns(_, inTime) =>
      j.fleet[j.loop.vpn.value := L.Step(j.fleet[j.loop.vpn.value], Ending(inTime))]
  }

  /** What the loop of `Reconnect` sees of a client that moves on its own. */
  function Observed(l: Loop, a: nat, state: ConnState): Loop {
    if a < |l.clients| then l.(clients := l.clients[a := state]) else l
  }

  function Step(j: Joint, e: Event, max: int, wantDns: bool): Joint
    requires Enabled(j, e)
  {
    match e
    case ClientMoves(a, move) =>
      var client := L.Step(j.fleet[a], move);
      Joint(Observed(j.loop, a, client.life.state), j.pub, j.fleet[a := client])
    case _ =>
      var (loop, pub) := LoopStep(j.loop, j.pub, Seen(j, e), max);
      Joint(loop, pub, Clients(j, e, loop, wantDns))
  }

  function Run(j: Joint, es: seq<Event>, max: int, wantDns: bool): Joint {
    if es == [] then j
    else
      var before := Run(j, es[..|es| - 1], max, wantDns);
      if Enabled(before, es[|es| - 1]) then Step(before, es[|es| - 1], max, wantDns) else before
  }

  // ----- the refinement

  /** Client a is as the loop believes, and a Disconnect is under way exactly where the loop waits for it. */
  predicate ClientAgrees(l: Loop, a: nat, client: L.World)
    requires a < |l.clients|
  {
    && L.Gate(client)
    && client.life.state == l.clients[a]
    && client.tasks.Keys == if InDisconnect(l) && l.vpn == Some(a) then {LOOP} else {}
  }

  predicate Agrees(j: Joint) {
    && ClientsOk(j.loop)
    && |j.fleet| == |j.loop.clients|
    && forall a: nat | a < |j.fleet| :: ClientAgrees(j.loop, a, j.fleet[a])
  }

  /** What the abstract system allows: nothing, a section of the loop, or the late reset of a dropped client. */
  ghost predicate Allowed(j: Joint, v: Joint, e: Event, max: int)
    requires Enabled(j, e)
  {
    if e.ClientMoves? then
      && v.pub == j.pub
      && (v.loop == j.loop
          || (e.a < |j.loop.clients| && j.loop.clients[e.a] == StateDisconnecting && j.loop.vpn != Some(e.a)
              && v.loop == j.loop.(clients := j.loop.clients[e.a := StateIdle])))
    else (v.loop, v.pub) == LoopStep(j.loop, j.pub, Seen(j, e), max)
  }

  /** A client's own move changes its state only by the delayed reset, which needs the Disconnect to be over. */
  lemma OwnMoveChanges(w: L.World, e: L.Event)
    requires L.Gate(w) && OwnMove(e) && L.Enabled(w, e)
    ensures var v := L.Step(w, e);
            && L.Gate(v) && v.tasks.Keys == w.tasks.Keys
            && (v.life.state != w.life.state ==>
                  e.RunReset? && w.life.state == StateDisconnecting && v.life.state == StateIdle && w.tasks.Keys == {})
  {
    L.StepKeepsGate(w, e);
    if e.ReleaseOne? || e.StopSeen? {
      L.OnlyTask(w, e.t);
      assert L.Step(w, e).tasks.Keys == w.tasks.Keys;
    }
  }

  lemma ClientMoveRefines(j: Joint, e: Event, max: int, wantDns: bool)
    requires Agrees(j) && Enabled(j, e) && e.ClientMoves?
    ensures Agrees(Step(j, e, max, wantDns)) && Allowed(j, Step(j, e, max, wantDns), e, max)
  {
    assert ClientAgrees(j.loop, e.a, j.fleet[e.a]);
    OwnMoveChanges(j.fleet[e.a], e.e);
    var v := Step(j, e, max, wantDns);
    if v.fleet[e.a].life.state == j.fleet[e.a].life.state {
      assert v.loop.clients == j.loop.clients;
    }
    assert ClientAgrees(v.loop, e.a, v.fleet[e.a]);
    forall a: nat | a < |v.fleet| ensures ClientAgrees(v.loop, a, v.fleet[a]) {
      assert ClientAgrees(j.loop, a, j.fleet[a]);
    }
  }

  /** A section of the loop that leaves the held client to itself. */
  lemma QuietSectionRefines(j: Joint, e: Event, max: int, wantDns: bool)
    requires Agrees(j) && Enabled(j, e) && e.LoopMoves? && j.loop.pc != InConnect
    requires !InDisconnect(LoopStep(j.loop, j.pub, e.o, max).0)
    ensures Agrees(Step(j, e, max, wantDns))
  {
    StepKeepsClients(j.loop, j.pub, e.o, max);
    var v := Step(j, e, max, wantDns);
    forall a: nat | a < |v.fleet| ensures ClientAgrees(v.loop, a, v.fleet[a]) {
      if a < |j.fleet| {
        assert ClientAgrees(j.loop, a, j.fleet[a]);
        assert v.fleet[a] == j.fleet[a] && v.loop.clients[a] == j.loop.clients[a];
      } else {
        assert v.fleet[a] == L.Start(wantDns) && v.loop.clients[a] == StateIdle;
      }
    }
  }

  lemma ConnectRefines(j: Joint, e: Event, max: int, wantDns: bool)
    requires Agrees(j) && Enabled(j, e) && e.LoopMoves? && j.loop.pc == InConnect
    ensures Agrees(Step(j, e, max, wantDns))
  {
    var h := j.loop.vpn.value;
    assert ClientAgrees(j.loop, h, j.fleet[h]);
    StepKeepsClients(j.loop, j.pub, Seen(j, e), max);
    L.StepKeepsGate(j.fleet[h], L.Connect(e.outcomes, e.rel));
    var v := Step(j, e, max, wantDns);
    assert ClientAgrees(v.loop, h, v.fleet[h]);
    forall a: nat | a < |v.fleet| ensures ClientAgrees(v.loop, a, v.fleet[a]) {
      assert ClientAgrees(j.loop, a, j.fleet[a]);
    }
  }

  lemma DisconnectRefines(j: Joint, e: Event, max: int, wantDns: bool)
    requires Agrees(j) && Enabled(j, e) && e.LoopMoves? && j.loop.pc in {InCheck, InSession}
    requires InDisconnect(LoopStep(j.loop, j.pub, e.o, max).0)
    ensures Agrees(Step(j, e, max, wantDns))
  {
    var h := j.loop.vpn.value;
    assert ClientAgrees(j.loop, h, j.fleet[h]);
    StepKeepsClients(j.loop, j.pub, e.o, max);
    L.StepKeepsGate(j.fleet[h], L.Disconnect(LOOP));
    var v := Step(j, e, max, wantDns);
    assert v.fleet[h].tasks.Keys == {LOOP};
    assert ClientAgrees(v.loop, h, v.fleet[h]);
    forall a: nat | a < |v.fleet| ensures ClientAgrees(v.loop, a, v.fleet[a]) {
      assert ClientAgrees(j.loop, a, j.fleet[a]);
    }
  }

  lemma ReturnRefines(j: Joint, e: Event, max: int, wantDns: bool)
    requires Agrees(j) && Enabled(j, e) && e.DisconnectReturns?
    ensures Agrees(Step(j, e, max, wantDns))
  {
    var h := j.loop.vpn.value;
    assert ClientAgrees(j.loop, h, j.fleet[h]);
    StepKeepsClients(j.loop, j.pub, Seen(j, e), max);
    L.OnlyTask(j.fleet[h], LOOP);
    L.StepKeepsGate(j.fleet[h], Ending(e.inTime));
    var v := Step(j, e, max, wantDns);
    assert v.fleet[h].tasks.Keys == {};
    assert ClientAgrees(v.loop, h, v.fleet[h]);
    forall a: nat | a < |v.fleet| ensures ClientAgrees(v.loop, a, v.fleet[a]) {
      assert ClientAgrees(j.loop, a, j.fleet[a]);
    }
  }

  /**
   The refinement: whatever the clients' goroutines do, each step is one that the abstract loop
   allows, with the results of Connect and Disconnect that the clients themselves produce.
   */
  lemma StepRefines(j: Joint, e: Event, max: int, wantDns: bool)
    requires Agrees(j) && Enabled(j, e)
    ensures Agrees(Step(j, e, max, wantDns)) && Allowed(j, Step(j, e, max, wantDns), e, max)
  {
    if e.ClientMoves? {
      ClientMoveRefines(j, e, max, wantDns);
    } else if e.DisconnectReturns? {
      ReturnRefines(j, e, max, wantDns);
    } else if j.loop.pc == InConnect {
      ConnectRefines(j, e, max, wantDns);
    } else if InDisconnect(LoopStep(j.loop, j.pub, e.o, max).0) {
      DisconnectRefines(j, e, max, wantDns);
    } else {
      QuietSectionRefines(j, e, max, wantDns);
    }
  }

  lemma {:induction false} RunAgrees(profile: Profile, es: seq<Event>, max: int, wantDns: bool)
    ensures Agrees(Run(Start(profile), es, max, wantDns))
  {
    if es != [] {
      RunAgrees(profile, es[..|es| - 1], max, wantDns);
      var before := Run(Start(profile), es[..|es| - 1], max, wantDns);
      if Enabled(before, es[|es| - 1]) {
        StepRefines(before, es[|es| - 1], max, wantDns);
      }
    }
  }

  // ----- what the loop may rely on

  /**
   Reuse is safe: whenever the loop calls Connect, on a new client or one whose Connect failed,
   that client is idle with no pump, no disconnect and no reset left, so that the gate refuses
   nothing and the call fails only when one of its operations does.
   */
  lemma ConnectFindsIdleClient(profile: Profile, es: seq<Event>, max: int, wantDns: bool, o: Outcomes, rel: Releases)
    requires Run(Start(profile), es, max, wantDns).loop.pc == InConnect
    ensures var j := Run(Start(profile), es, max, wantDns);
            && HasClient(j)
            && var client := j.fleet[j.loop.vpn.value];
               && client.life.state == StateIdle && client.tasks.Keys == {} && client.resets == []
               && (forall k | k in client.pumps :: client.pumps[k] != L.Running)
               && Connected(client.life, client.wantDns, o, rel).1 == Failure(o, client.wantDns)
  {
    RunAgrees(profile, es, max, wantDns);
    var j := Run(Start(profile), es, max, wantDns);
    assert ClientAgrees(j.loop, j.loop.vpn.value, j.fleet[j.loop.vpn.value]);
  }

  /** The loop is never stuck: it can run its next section, or its Disconnect can go on. */
  lemma NeverStuck(profile: Profile, es: seq<Event>, max: int, wantDns: bool, o: Obs, outcomes: Outcomes, rel: Releases)
    returns (e: Event)
    requires !Run(Start(profile), es, max, wantDns).loop.pc.Exited?
    ensures Enabled(Run(Start(profile), es, max, wantDns), e)
    ensures e == LoopMoves(o, outcomes, rel) || e.DisconnectReturns? || (e.ClientMoves? && e.e.ReleaseOne?)
  {
    RunAgrees(profile, es, max, wantDns);
    var j := Run(Start(profile), es, max, wantDns);
    if j.loop.vpn.Some? {
      assert ClientAgrees(j.loop, j.loop.vpn.value, j.fleet[j.loop.vpn.value]);
    }
    if !InDisconnect(j.loop) {
      e := LoopMoves(o, outcomes, rel);
    } else {
      var h := j.loop.vpn.value;
      L.OnlyTask(j.fleet[h], LOOP);
      match j.fleet[h].tasks[LOOP]
      case Releasing(_, _) => e := ClientMoves(h, L.ReleaseOne(LOOP, true));
      case Waiting(_) => e := DisconnectReturns(o, false);
      case Stopped(_) => e := DisconnectReturns(o, true);
    }
  }

  predicate Balanced(j: Joint, r: Resource, k: nat) {
    forall a: nat | a < |j.fleet| :: L.BalancedFor(j.fleet[a], r, k)
  }

  lemma StepKeepsBalance(j: Joint, e: Event, max: int, wantDns: bool, r: Resource, k: nat)
    requires Agrees(j) && Enabled(j, e) && Balanced(j, r, k)
    ensures Balanced(Step(j, e, max, wantDns), r, k)
  {
    var v := Step(j, e, max, wantDns);
    forall a: nat | a < |v.fleet| ensures L.BalancedFor(v.fleet[a], r, k) {
      if a >= |j.fleet| {
        assert v.fleet[a] == L.Start(wantDns);
      } else {
        assert ClientAgrees(j.loop, a, j.fleet[a]);
        if v.fleet[a] != j.fleet[a] {
          L.StepKeepsBalance(j.fleet[a], MoveOf(j, e), r, k);
        }
      }
    }
  }

  /** The move of the one client that the event concerns. */
  function MoveOf(j: Joint, e: Event): L.Event
  {
    match e
    case ClientMoves(_, move) => move
    case DisconnectReturns(_, inTime) => Ending(inTime)
    case LoopMoves(_, outcomes, rel) => if j.loop.pc == InConnect then L.Connect(outcomes, rel) else L.Disconnect(LOOP)
  }

  lemma {:induction false} RunKeepsBalance(profile: Profile, es: seq<Event>, max: int, wantDns: bool, r: Resource, k: nat)
    ensures Balanced(Run(Start(profile), es, max, wantDns), r, k)
  {
    if es != [] {
      var init := es[..|es| - 1];
      RunKeepsBalance(profile, init, max, wantDns, r, k);
      RunAgrees(profile, init, max, wantDns);
      var before := Run(Start(profile), init, max, wantDns);
      if Enabled(before, es[|es| - 1]) {
        StepKeepsBalance(before, es[|es| - 1], max, wantDns, r, k);
      }
    }
  }

  /**
   Nothing is left behind: in every state of a run, each resource that a client ever acquired has
   been given back exactly once, unless the loop still holds that client, connected or in its
   Disconnect.  That covers every client of a loop that has left, even one whose Disconnect timed out.
   */
  lemma NothingLeftBehind(profile: Profile, es: seq<Event>, max: int, wantDns: bool, r: Resource, k: nat, a: nat)
    requires a < |Run(Start(profile), es, max, wantDns).fleet|
    ensures var j := Run(Start(profile), es, max, wantDns);
            var ledger := j.fleet[a].life.ledger;
            && L.Given(ledger, r, k) <= L.Taken(ledger, r, k) <= 1
            && (j.loop.pc.Exited? || j.loop.vpn != Some(a) || j.fleet[a].life.state == StateIdle ==>
                  L.Given(ledger, r, k) == L.Taken(ledger, r, k))
  {
    RunKeepsBalance(profile, es, max, wantDns, r, k);
    RunAgrees(profile, es, max, wantDns);
    var j := Run(Start(profile), es, max, wantDns);
    Counts(j.fleet[a], r, k);
    if j.loop.pc.Exited? || j.loop.vpn != Some(a) {
      NotInUse(j, a);
      QuietIsGivenBack(j.fleet[a], r, k);
    }
  }

  lemma Counts(w: L.World, r: Resource, k: nat)
    requires L.BalancedFor(w, r, k)
    ensures L.Given(w.life.ledger, r, k) <= L.Taken(w.life.ledger, r, k) <= 1
    ensures w.life.state == StateIdle ==> L.Given(w.life.ledger, r, k) == L.Taken(w.life.ledger, r, k)
  {
  }

  /** With no Disconnect under way only a connected client holds anything. */
  lemma QuietIsGivenBack(w: L.World, r: Resource, k: nat)
    requires L.BalancedFor(w, r, k) && w.life.state != StateConnected && w.tasks.Keys == {}
    ensures L.Given(w.life.ledger, r, k) == L.Taken(w.life.ledger, r, k)
  {
    assert forall t | t in w.tasks :: false;
  }

  lemma NotInUse(j: Joint, a: nat)
    requires Agrees(j) && a < |j.fleet| && (j.loop.pc.Exited? || j.loop.vpn != Some(a))
    ensures j.fleet[a].life.state != StateConnected && j.fleet[a].tasks.Keys == {}
  {
    assert ClientAgrees(j.loop, a, j.fleet[a]);
  }

  // ----- packet pumps

  /** Pump k of client a copies packets. */
  predicate Pumping(j: Joint, a: nat, k: nat) {
    a < |j.fleet| && k in j.fleet[a].pumps && j.fleet[a].pumps[k] == L.Running
  }

  /** Only the client that the loop holds has a running pump. */
  ghost predicate NoOldPump(j: Joint) {
    forall a: nat, k: nat | Pumping(j, a, k) :: j.loop.vpn == Some(a)
  }

  /** The loop's Disconnect returns by its timeout while the pump still runs. */
  predicate Abandons(j: Joint, e: Event) {
    e.DisconnectReturns? && !e.inTime && HasClient(j)
    && Pumping(j, j.loop.vpn.value, j.fleet[j.loop.vpn.value].life.attempt)
  }

  /** A running pump is the current session's, of a client that is not idle. */
  lemma PumpIsCurrent(j: Joint, a: nat, k: nat)
    requires Agrees(j) && Pumping(j, a, k)
    ensures k == j.fleet[a].life.attempt && j.loop.clients[a] != StateIdle
  {
    assert ClientAgrees(j.loop, a, j.fleet[a]);
  }

  /** A client's own move starts no pump. */
  lemma OwnMoveStartsNone(w: L.World, e: L.Event, k: nat)
    requires OwnMove(e) && L.Enabled(w, e)
    ensures var v := L.Step(w, e); k in v.pumps && v.pumps[k] == L.Running ==> k in w.pumps && w.pumps[k] == L.Running
  {
  }

  lemma ClientMoveKeepsPumps(j: Joint, e: Event, max: int, wantDns: bool)
    requires Agrees(j) && NoOldPump(j) && Enabled(j, e) && e.ClientMoves?
    ensures NoOldPump(Step(j, e, max, wantDns))
  {
    var v := Step(j, e, max, wantDns);
    forall a: nat, k: nat | Pumping(v, a, k) ensures v.loop.vpn == Some(a) {
      OwnMoveStartsNone(j.fleet[e.a], e.e, k);
      assert Pumping(j, a, k);
    }
  }

  /** A section drops its client only when that is idle, and changes no other. */
  lemma SectionKeepsPumps(j: Joint, e: Event, max: int, wantDns: bool)
    requires Agrees(j) && NoOldPump(j) && Enabled(j, e) && e.LoopMoves?
    ensures NoOldPump(Step(j, e, max, wantDns))
  {
    var v := Step(j, e, max, wantDns);
    StepRefines(j, e, max, wantDns);
    forall a: nat, k: nat | Pumping(v, a, k) ensures v.loop.vpn == Some(a) {
      PumpIsCurrent(v, a, k);
      SectionHoldsBusy(j.loop, j.pub, Seen(j, e), max, a);
      if a < |j.fleet| && j.loop.vpn != Some(a) {
        assert v.fleet[a] == j.fleet[a];
        assert Pumping(j, a, k);
      }
    }
  }

  /** A client that is not idle after a section that ends no Disconnect is held, or was not held before. */
  lemma SectionHoldsBusy(l: Loop, p: Published, o: Obs, max: int, a: nat)
    requires ClientsOk(l) && !l.pc.Exited? && !InDisconnect(l)
    ensures var r := LoopStep(l, p, o, max).0;
            a < |r.clients| && r.clients[a] != StateIdle && (a >= |l.clients| || l.vpn == Some(a)) ==> r.vpn == Some(a)
  {
  }

  lemma ReturnStopsPumps(j: Joint, e: Event, max: int, wantDns: bool, a: nat, k: nat)
    requires Agrees(j) && NoOldPump(j) && Enabled(j, e) && e.DisconnectReturns? && !Abandons(j, e)
    ensures !Pumping(Step(j, e, max, wantDns), a, k)
  {
    StepRefines(j, e, max, wantDns);
    if Pumping(Step(j, e, max, wantDns), a, k) {
      assert Pumping(j, a, k);
      PumpIsCurrent(j, a, k);
    }
  }

  lemma ReturnKeepsPumps(j: Joint, e: Event, max: int, wantDns: bool)
    requires Agrees(j) && NoOldPump(j) && Enabled(j, e) && e.DisconnectReturns?
    ensures NoOldPump(Step(j, e, max, wantDns)) <==> !Abandons(j, e)
  {
    var v, h := Step(j, e, max, wantDns), j.loop.vpn.value;
    StepRefines(j, e, max, wantDns);
    assert v.loop.vpn.None?;
    assert v.fleet[h].pumps == j.fleet[h].pumps;
    if Abandons(j, e) {
      assert Pumping(v, h, j.fleet[h].life.attempt);
    } else {
      forall a: nat, k: nat ensures !Pumping(v, a, k) {
        ReturnStopsPumps(j, e, max, wantDns, a, k);
      }
    }
  }

  /** Exactly a Disconnect that returns by its timeout while its pump runs leaves an old pump behind. */
  lemma OldPumpIff(j: Joint, e: Event, max: int, wantDns: bool)
    requires Agrees(j) && NoOldPump(j) && Enabled(j, e)
    ensures NoOldPump(Step(j, e, max, wantDns)) <==> !Abandons(j, e)
  {
    match e
    case ClientMoves(_, _) => ClientMoveKeepsPumps(j, e, max, wantDns);
    case LoopMoves(_, _, _) => SectionKeepsPumps(j, e, max, wantDns);
    case DisconnectReturns(_, _) => ReturnKeepsPumps(j, e, max, wantDns);
  }

  /** No Disconnect of the run leaves a running pump behind, as when each of them returns in time. */
  predicate NothingAbandoned(j: Joint, es: seq<Event>, max: int, wantDns: bool) {
    forall n | 0 <= n < |es| :: !Abandons(Run(j, es[..n], max, wantDns), es[n])
  }

  lemma InTimeAbandonsNothing(j: Joint, es: seq<Event>, max: int, wantDns: bool)
    requires forall n | 0 <= n < |es| && es[n].DisconnectReturns? :: es[n].inTime
    ensures NothingAbandoned(j, es, max, wantDns)
  {
    forall n | 0 <= n < |es| ensures !Abandons(Run(j, es[..n], max, wantDns), es[n]) {
      assert es[n].DisconnectReturns? ==> es[n].inTime;
    }
  }

  lemma {:induction false} RunKeepsPumps(profile: Profile, es: seq<Event>, max: int, wantDns: bool)
    requires NothingAbandoned(Start(profile), es, max, wantDns)
    ensures NoOldPump(Run(Start(profile), es, max, wantDns))
  {
    if es != [] {
      var init := es[..|es| - 1];
      assert forall n | 0 <= n < |init| :: init[..n] == es[..n] && init[n] == es[n];
      RunKeepsPumps(profile, init, max, wantDns);
      RunAgrees(profile, init, max, wantDns);
      var before := Run(Start(profile), init, max, wantDns);
      if Enabled(before, es[|es| - 1]) {
        assert !Abandons(Run(Start(profile), es[..|es| - 1], max, wantDns), es[|es| - 1]);
        OldPumpIff(before, es[|es| - 1], max, wantDns);
      }
    }
  }

  /**
   While no Disconnect is abandoned, at most one pump of all the clients a loop ever created is
   running, it belongs to the client that the loop holds, and a loop that has left has none.
   */
  lemma AtMostOnePumpInAll(profile: Profile, es: seq<Event>, max: int, wantDns: bool)
    requires NothingAbandoned(Start(profile), es, max, wantDns)
    ensures var j := Run(Start(profile), es, max, wantDns);
            && (forall a: nat, k: nat, b: nat, m: nat | Pumping(j, a, k) && Pumping(j, b, m) :: a == b && k == m)
            && (forall a: nat, k: nat | Pumping(j, a, k) :: j.loop.vpn == Some(a) && !j.loop.pc.Exited?)
  {
    RunKeepsPumps(profile, es, max, wantDns);
    RunAgrees(profile, es, max, wantDns);
    var j := Run(Start(profile), es, max, wantDns);
    forall a: nat, k: nat | Pumping(j, a, k) ensures j.loop.vpn == Some(a) && !j.loop.pc.Exited? {
      PumpIsHeld(j, a, k);
    }
    forall a: nat, k: nat, b: nat, m: nat | Pumping(j, a, k) && Pumping(j, b, m) ensures a == b && k == m {
      PumpIsHeld(j, a, k);
      PumpIsHeld(j, b, m);
    }
  }

  lemma PumpIsHeld(j: Joint, a: nat, k: nat)
    requires Agrees(j) && NoOldPump(j) && Pumping(j, a, k)
    ensures j.loop.vpn == Some(a) && k == j.fleet[a].life.attempt && !j.loop.pc.Exited?
  {
    PumpIsCurrent(j, a, k);
  }

  // ----- a run with two pumps

  const GO := Obs(true, 0, false, true, TimerFired, None, 1)

  /** A section of the loop in which everything succeeds and nothing interferes. */
  function GoOn(): Event {
    LoopMoves(GO, Outcomes(true, true, true, true, true, true, true, true, true), (r: Resource) => true)
  }

  lemma Then(profile: Profile, es: seq<Event>, e: Event, wantDns: bool) returns (more: seq<Event>)
    requires Enabled(Run(Start(profile), es, 0, wantDns), e)
    ensures Run(Start(profile), more, 0, wantDns) == Step(Run(Start(profile), es, 0, wantDns), e, 0, wantDns)
  {
    more := es + [e];
    assert more[..|more| - 1] == es;
  }

  /** The loop stands at pc, holding its newest client. */
  predicate HoldsNewest(j: Joint, pc: Pc) {
    j.loop.pc == pc && |j.fleet| > 0 && |j.loop.clients| == |j.fleet| && j.loop.vpn == Some(|j.fleet| - 1)
  }

  function Newest(j: Joint): L.World
    requires |j.fleet| > 0
  {
    j.fleet[|j.fleet| - 1]
  }

  /** Its first pump runs. */
  predicate FirstPumpRuns(w: L.World) {
    w.life.attempt == 1 && w.pumps == map[1 := L.Running]
  }

  lemma CreateMove(j: Joint, wantDns: bool)
    requires |j.loop.clients| == |j.fleet| && j.loop.pc == Top && j.loop.vpn.None?
    ensures Enabled(j, GoOn())
    ensures var v := Step(j, GoOn(), 0, wantDns);
            HoldsNewest(v, InConnect) && v.loop.clients[|v.fleet| - 1] == StateIdle && v.fleet == j.fleet + [L.Start(wantDns)]
  {
  }

  lemma ConnectMove(j: Joint, wantDns: bool)
    requires HoldsNewest(j, InConnect) && j.loop.clients[|j.fleet| - 1] == StateIdle && Newest(j) == L.Start(wantDns)
    ensures Enabled(j, GoOn())
    ensures var v := Step(j, GoOn(), 0, wantDns);
            && HoldsNewest(v, InCheck) && |v.fleet| == |j.fleet| && v.fleet[..|j.fleet| - 1] == j.fleet[..|j.fleet| - 1]
            && Newest(v).life.state == StateConnected && FirstPumpRuns(Newest(v)) && Newest(v).tasks == map[]
  {
  }

  lemma CheckMove(j: Joint, wantDns: bool)
    requires HoldsNewest(j, InCheck) && Newest(j).tasks == map[]
    ensures Enabled(j, GoOn())
    ensures var v := Step(j, GoOn(), 0, wantDns); HoldsNewest(v, InSession) && v.fleet == j.fleet
  {
  }

  /** From the top of the loop a new client is created and connected; the others do not move. */
  lemma NewSession(profile: Profile, es: seq<Event>, wantDns: bool) returns (more: seq<Event>)
    requires var j := Run(Start(profile), es, 0, wantDns);
             |j.loop.clients| == |j.fleet| && j.loop.pc == Top && j.loop.vpn.None?
    ensures var j, v := Run(Start(profile), es, 0, wantDns), Run(Start(profile), more, 0, wantDns);
            && HoldsNewest(v, InSession) && |v.fleet| == |j.fleet| + 1 && v.fleet[..|j.fleet|] == j.fleet
            && Newest(v).life.state == StateConnected && FirstPumpRuns(Newest(v)) && Newest(v).tasks == map[]
  {
    CreateMove(Run(Start(profile), es, 0, wantDns), wantDns);
    more := Then(profile, es, GoOn(), wantDns);
    ConnectMove(Run(Start(profile), more, 0, wantDns), wantDns);
    more := Then(profile, more, GoOn(), wantDns);
    CheckMove(Run(Start(profile), more, 0, wantDns), wantDns);
    more := Then(profile, more, GoOn(), wantDns);
  }

  /** The loop is inside the Disconnect of its newest client, whose pump still runs. */
  predicate Disconnecting(j: Joint) {
    && HoldsNewest(j, InTeardown) && Newest(j).life.state == StateDisconnecting && FirstPumpRuns(Newest(j))
    && LOOP in Newest(j).tasks
  }

  lemma SessionEnds(j: Joint, wantDns: bool)
    requires HoldsNewest(j, InSession) && Newest(j).life.state == StateConnected && Newest(j).tasks == map[]
    requires FirstPumpRuns(Newest(j))
    ensures Enabled(j, GoOn())
    ensures var v := Step(j, GoOn(), 0, wantDns);
            Disconnecting(v) && |v.fleet| == |j.fleet| && Newest(v).tasks[LOOP].Releasing?
            && Newest(v).tasks[LOOP].todo == TeardownOrder(Newest(j).wantDns)
  {
  }

  lemma ReleaseMove(j: Joint, wantDns: bool)
    requires Disconnecting(j) && j.loop.clients[|j.fleet| - 1] == StateDisconnecting
    requires Newest(j).tasks[LOOP].Releasing? && Newest(j).tasks[LOOP].todo != []
    ensures var e := ClientMoves(|j.fleet| - 1, L.ReleaseOne(LOOP, true));
            && Enabled(j, e)
            && var v := Step(j, e, 0, wantDns);
               && Disconnecting(v) && |v.fleet| == |j.fleet| && v.loop.clients == j.loop.clients
               && var todo := Newest(j).tasks[LOOP].todo;
                  if |todo| == 1 then Newest(v).tasks[LOOP].Waiting?
                  else Newest(v).tasks[LOOP].Releasing? && Newest(v).tasks[LOOP].todo == todo[1..]
  {
  }

  /** Its releases come to an end while the pump goes on. */
  lemma {:induction false} ReleaseAll(profile: Profile, es: seq<Event>, wantDns: bool, n: nat) returns (more: seq<Event>)
    requires var j := Run(Start(profile), es, 0, wantDns);
             && Disconnecting(j) && j.loop.clients[|j.fleet| - 1] == StateDisconnecting
             && Newest(j).tasks[LOOP].Releasing? && |Newest(j).tasks[LOOP].todo| == n + 1
    ensures var j, v := Run(Start(profile), es, 0, wantDns), Run(Start(profile), more, 0, wantDns);
            Disconnecting(v) && |v.fleet| == |j.fleet| && Newest(v).tasks[LOOP].Waiting?
    decreases n
  {
    ReleaseMove(Run(Start(profile), es, 0, wantDns), wantDns);
    more := Then(profile, es, ClientMoves(|Run(Start(profile), es, 0, wantDns).fleet| - 1, L.ReleaseOne(LOOP, true)), wantDns);
    if n > 0 {
      more := ReleaseAll(profile, more, wantDns, n - 1);
    }
  }

  /** The Disconnect times out: the loop goes on without its client. */
  lemma TimeoutMove(j: Joint, wantDns: bool)
    requires Disconnecting(j) && Newest(j).tasks[LOOP].Waiting?
    ensures Enabled(j, DisconnectReturns(GO, false))
    ensures var v := Step(j, DisconnectReturns(GO, false), 0, wantDns);
            v.loop.pc == AtBackoff && v.loop.vpn.None? && |v.fleet| == |j.fleet| && FirstPumpRuns(Newest(v))
  {
  }

  /** From its backoff the loop comes back to the top; no client moves. */
  lemma BackToTop(profile: Profile, es: seq<Event>, wantDns: bool) returns (more: seq<Event>)
    requires var j := Run(Start(profile), es, 0, wantDns); j.loop.pc == AtBackoff && j.loop.vpn.None?
    ensures var j, v := Run(Start(profile), es, 0, wantDns), Run(Start(profile), more, 0, wantDns);
            v.loop.pc == Top && v.loop.vpn.None? && v.fleet == j.fleet
  {
    more := Then(profile, es, GoOn(), wantDns);
    more := Then(profile, more, GoOn(), wantDns);
    assert Run(Start(profile), more, 0, wantDns).loop.pc == InWait;
    more := Then(profile, more, GoOn(), wantDns);
  }

  /** The first session ends, and its Disconnect times out. */
  lemma AbandonClient(profile: Profile, es: seq<Event>, wantDns: bool) returns (more: seq<Event>)
    requires var j := Run(Start(profile), es, 0, wantDns);
             && HoldsNewest(j, InSession) && |j.fleet| == 1 && Newest(j).life.state == StateConnected
             && FirstPumpRuns(Newest(j)) && Newest(j).tasks == map[]
    ensures var v := Run(Start(profile), more, 0, wantDns);
            v.loop.pc == Top && v.loop.vpn.None? && |v.fleet| == 1 && FirstPumpRuns(v.fleet[0])
  {
    SessionEnds(Run(Start(profile), es, 0, wantDns), wantDns);
    more := Then(profile, es, GoOn(), wantDns);
    RunAgrees(profile, more, 0, wantDns);
    NewestAgrees(Run(Start(profile), more, 0, wantDns));
    more := ReleaseAll(profile, more, wantDns, |TeardownOrder(Newest(Run(Start(profile), es, 0, wantDns)).wantDns)| - 1);
    TimeoutMove(Run(Start(profile), more, 0, wantDns), wantDns);
    more := Then(profile, more, DisconnectReturns(GO, false), wantDns);
    more := BackToTop(profile, more, wantDns);
  }

  lemma NewestAgrees(j: Joint)
    requires Agrees(j) && |j.fleet| > 0
    ensures |j.loop.clients| == |j.fleet| && j.loop.clients[|j.fleet| - 1] == Newest(j).life.state
  {
    assert ClientAgrees(j.loop, |j.fleet| - 1, j.fleet[|j.fleet| - 1]);
  }

  /** Such a state is reached: after an abandoned Disconnect the pumps of two clients run at once. */
  lemma OldPumpOutlivesDisconnect(profile: Profile, wantDns: bool) returns (es: seq<Event>)
    ensures var j := Run(Start(profile), es, 0, wantDns);
            Pumping(j, 0, 1) && Pumping(j, 1, 1) && j.loop.pc == InSession && j.loop.vpn == Some(1)
  {
    es := NewSession(profile, [], wantDns);
    es := AbandonClient(profile, es, wantDns);
    RunAgrees(profile, es, 0, wantDns);
    var j := Run(Start(profile), es, 0, wantDns);
    es := NewSession(profile, es, wantDns);
    var v := Run(Start(profile), es, 0, wantDns);
    assert v.fleet[0] == v.fleet[..1][0] == j.fleet[0];
  }
}
