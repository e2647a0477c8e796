/**
 The reconnect loop (src/main.go, runWithReconnect).  `LoopStep` is one section of the loop
 between two points where it blocks or reads something shared; what it reads is an observation.
 */
module Reconnect {
  import opened Wrappers
  import opened Numbers
  import opened Strings
  import opened Profiles
  import opened Client
  import opened Backoff

  // ----- the published state

  datatype Status = StatusDisconnected | StatusConnecting | StatusReconnecting | StatusConnected | StatusFailed

  function StatusCode(s: Status): (c: int)
    ensures 0 <= c <= 4
  {
    match s
    case StatusConnecting => 1
    case StatusReconnecting => 2
    case StatusConnected => 3
    case StatusFailed => 4
    case StatusDisconnected => 0
  }

  function StatusFromCode(code: int): Status {
    if code == 1 then StatusConnecting
    else if code == 2 then StatusReconnecting
    else if code == 3 then StatusConnected
    else if code == 4 then StatusFailed
    else StatusDisconnected
  }

  lemma StatusRoundTrip(s: Status)
    ensures StatusFromCode(StatusCode(s)) == s
  {
  }

  /** The fields of `state` that the loop writes; `active` is what a reader of the pointer sees. */
  datatype Published = Published(connected: bool, status: Status, connectedAt: int, active: Option<Profile>,
                                 reconnects: nat)

  const UNPUBLISHED := Published(false, StatusDisconnected, 0, None, 0)

  // ----- the loop

  datatype ExitReason = Cancelled | GaveUp

  /** Where the loop stands; InConnect, InCheck, InReject, InSession, InTeardown and InWait block. */
  datatype Pc =
    | Top | InConnect | InCheck | InReject | InSession | InTeardown
    | AtBackoff | AtSnapshot | InWait | AtRecheck
    | Exited(reason: ExitReason)

  datatype Wake = TimerFired | ContextDone | SettingsChanged

  /** Everything one section may read: shared settings, the context, the profile list, results of calls. */
  datatype Obs = Obs(autoReconnect: bool, generation: nat, cancelled: bool, ok: bool, wake: Wake,
                     available: Option<seq<Profile>>, now: int)

  datatype Loop = Loop(
    pc: Pc, attempt: nat, profile: Profile,
    clients: seq<ConnState>,  // every client the loop ever created
    vpn: Option<nat>,         // the one it holds
    signal: nat,              // the settings generation whose signal it captured
    tries: nat, sessions: nat, waited: int)

  function NewLoop(profile: Profile): Loop {
    Loop(Top, 0, profile, [], None, 0, 0, 0, 0)
  }

  /** A select case can only fire when it is ready; the timer always may. */
  function Woken(l: Loop, o: Obs): Wake {
    if o.wake == ContextDone && o.cancelled then ContextDone
    else if o.wake == SettingsChanged && l.signal < o.generation then SettingsChanged
    else TimerFired
  }

  /** The position after the first profile with this link, cyclically; None when the link is not listed. */
  function NextProfile(list: seq<Profile>, link: Str): Option<Profile> {
    var i := FirstWithLink(list, link);
    if i == |list| then None else Some(list[(i + 1) % |list|])
  }

  function FirstWithLink(list: seq<Profile>, link: Str): (i: nat)
    ensures i <= |list|
    ensures i < |list| ==> list[i].link == link
    ensures forall j | 0 <= j < i :: list[j].link != link
  {
    if list == [] || list[0].link == link then 0 else 1 + FirstWithLink(list[1..], link)
  }

  /** Every second failure moves on to the next profile of a list with more than one. */
  function Failover(attempt: nat, available: Option<seq<Profile>>, link: Str): Option<Profile> {
    if available.Some? && |available.value| > 1 && attempt % 2 == 0 then NextProfile(available.value, link) else None
  }

  function Rank(pc: Pc): nat {
    match pc
    case Top => 10
    case InConnect => 9
    case InCheck => 8
    case InReject => 7
    case InSession => 7
    case InTeardown => 6
    case AtBackoff => 5
    case AtSnapshot => 4
    case InWait => 3
    case AtRecheck => 2
    case Exited(_) => 0
  }

  /** The state of the held client. */
  function Held(l: Loop): Option<ConnState> {
    if l.vpn.Some? && l.vpn.value < |l.clients| then Some(l.clients[l.vpn.value]) else None
  }

  function SetHeld(l: Loop, s: ConnState): seq<ConnState> {
    if l.vpn.Some? && l.vpn.value < |l.clients| then l.clients[l.vpn.value := s] else l.clients
  }

  function DelayOf(attempt: nat): int
    requires attempt >= 1
  {
    BackoffDuration(attempt, RECONNECT_INITIAL, RECONNECT_MAX, 0)
  }

  function LoopStep(l: Loop, p: Published, o: Obs, max: int): (r: (Loop, Published))
    requires !l.pc.Exited?
    ensures r.0.pc == Top || Rank(r.0.pc) < Rank(l.pc)
  {
    match l.pc
    case Top =>
      if !o.autoReconnect && l.attempt > 0 then (l.(pc := Exited(GaveUp)), p.(status := StatusFailed))
      else
        var next := p.(status := if l.attempt == 0 then StatusConnecting else StatusReconnecting);
        if l.vpn.Some? then (l.(pc := InConnect, tries := l.tries + 1), next)
        else if !o.ok then (l.(pc := AtBackoff, tries := l.tries + 1), next)
        else (l.(pc := InConnect, tries := l.tries + 1, vpn := Some(|l.clients|), clients := l.clients + [StateIdle]), next)
    case InConnect => // Connect: an error leaves the client idle
      if o.ok && Held(l) == Some(StateIdle) then (l.(pc := InCheck, clients := SetHeld(l, StateConnected)), p)
      else (l.(pc := AtBackoff), p.(status := StatusFailed))
    case InCheck => // checkConnectivity
      if o.ok then
        (l.(pc := InSession, attempt := 0, sessions := l.sessions + 1),
         p.(connected := true, status := StatusConnected, connectedAt := o.now, active := Some(l.profile)))
      else (l.(pc := InReject, clients := SetHeld(l, StateDisconnecting)), p)
    case InReject => // Disconnect after a failed check; ok says whether the pump stopped in time
      (l.(pc := AtBackoff, vpn := None, clients := if o.ok then SetHeld(l, StateIdle) else l.clients),
       p.(status := StatusFailed))
    case InSession => // monitorSession returned
      (l.(pc := InTeardown, clients := SetHeld(l, StateDisconnecting)),
       p.(connected := false, status := StatusDisconnected, connectedAt := 0, active := None))
    case InTeardown =>
      (l.(pc := if o.cancelled then Exited(Cancelled) else AtBackoff,
          vpn := None, clients := if o.ok then SetHeld(l, StateIdle) else l.clients), p)
    case AtBackoff => // count the failure and capture the change signal
      if max > 0 && l.attempt + 1 >= max then
        (l.(pc := Exited(GaveUp), attempt := l.attempt + 1), p.(status := StatusFailed))
      else (l.(pc := AtSnapshot, attempt := l.attempt + 1, signal := o.generation), p)
    case AtSnapshot =>
      if !o.autoReconnect then (l.(pc := Exited(GaveUp)), p.(status := StatusFailed))
      else
        var other := Failover(l.attempt, o.available, l.profile.link);
        (l.(pc := InWait, waited := l.waited + if l.attempt >= 1 then DelayOf(l.attempt) else 0,
            profile := if other.Some? then other.value else l.profile,
            vpn := if other.Some? then None else l.vpn),
         p.(status := StatusReconnecting, reconnects := p.reconnects + 1))
    case InWait =>
      (match Woken(l, o)
       case ContextDone => (l.(pc := Exited(Cancelled)), p)
       case TimerFired => (l.(pc := Top), p)
       case SettingsChanged => (l.(pc := AtRecheck), p))
    case AtRecheck =>
      if !o.autoReconnect then (l.(pc := Exited(GaveUp)), p.(status := StatusFailed)) else (l.(pc := Top), p)
  }

  // ----- invariants of every step

  /** The held client is the newest; only it can be connected, and only while the loop is checking or in session. */
  predicate ClientsOk(l: Loop) {
    && (l.vpn.Some? ==> l.vpn.value == |l.clients| - 1)
    && (forall i | 0 <= i < |l.clients| && Some(i) != l.vpn :: l.clients[i] != StateConnected)
    && match l.pc
       case InConnect => Held(l) == Some(StateIdle)
       case InCheck => Held(l) == Some(StateConnected)
       case InSession => Held(l) == Some(StateConnected)
       case InReject => Held(l) == Some(StateDisconnecting)
       case InTeardown => Held(l) == Some(StateDisconnecting)
       case _ => l.vpn.None? || Held(l) == Some(StateIdle)
  }

  predicate HasConnected(l: Loop) {
    exists i | 0 <= i < |l.clients| :: l.clients[i] == StateConnected
  }

  /** The attempt counter is positive wherever the backoff is computed from it. */
  predicate AttemptOk(l: Loop, max: int) {
    && (l.pc == AtSnapshot || l.pc == InWait || l.pc == AtRecheck ==> l.attempt >= 1)
    && (l.pc == InSession || l.pc == InTeardown ==> l.attempt == 0)
    && (max > 0 && !l.pc.Exited? ==> l.attempt < max)
    && (l.pc == Top && l.tries > 0 ==> l.attempt >= 1)
    && (l.tries == 0 ==> l.attempt == 0 && (l.pc == Top || l.pc.Exited?))
  }

  /** The published facts agree with the loop, and the pointer shows the loop's own profile. */
  predicate PublishedOk(l: Loop, p: Published) {
    && (p.connected <==> l.pc == InSession)
    && (p.connected <==> p.connectedAt != 0)
    && p.active == (if p.connected then Some(l.profile) else None)
    && (p.status == StatusConnected ==> p.connected)
  }

  /** The status shows every session, as long as nobody else writes it. */
  predicate StatusShows(p: Published) {
    p.connected ==> p.status == StatusConnected
  }

  /** The status that a reader finds while the loop blocks, or waits to read the settings again. */
  predicate StatusAt(l: Loop, s: Status) {
    match l.pc
    case InConnect => s == if l.attempt == 0 then StatusConnecting else StatusReconnecting
    case InCheck => s == if l.attempt == 0 then StatusConnecting else StatusReconnecting
    case InReject => s == if l.attempt == 0 then StatusConnecting else StatusReconnecting
    case InSession => s == StatusConnected
    case InTeardown => s == StatusDisconnected
    case InWait => s == StatusReconnecting
    case AtRecheck => s == StatusReconnecting
    case _ => true
  }

  lemma StepKeepsStatus(l: Loop, p: Published, o: Obs, max: int)
    requires !l.pc.Exited? && StatusAt(l, p.status)
    ensures var (l', p') := LoopStep(l, p, o, max); StatusAt(l', p'.status)
  {
  }

  lemma StepKeepsClients(l: Loop, p: Published, o: Obs, max: int)
    requires !l.pc.Exited? && ClientsOk(l)
    ensures ClientsOk(LoopStep(l, p, o, max).0)
    ensures var r := LoopStep(l, p, o, max).0; HasConnected(r) <==> r.pc == InCheck || r.pc == InSession
  {
    var r := LoopStep(l, p, o, max).0;
    assert ClientsOk(r);
    if r.pc == InCheck || r.pc == InSession {
      assert r.clients[r.vpn.value] == StateConnected;
    }
  }

  lemma StepKeepsAttempt(l: Loop, p: Published, o: Obs, max: int)
    requires !l.pc.Exited? && AttemptOk(l, max)
    ensures AttemptOk(LoopStep(l, p, o, max).0, max)
  {
  }

  /** Only a session publishes, every way out of one unpublishes first, and a published profile never changes. */
  lemma StepKeepsPublished(l: Loop, p: Published, o: Obs, max: int)
    requires !l.pc.Exited? && PublishedOk(l, p) && o.now != 0
    ensures var (l', p') := LoopStep(l, p, o, max);
            && PublishedOk(l', p')
            && (StatusShows(p) ==> StatusShows(p'))
            && (p'.connected && !p.connected ==> p'.connectedAt == o.now)
            && (p.connected && p'.connected ==> l'.profile == l.profile)
  {
  }

  /** Every exit that is not a cancellation leaves the failed status, and every exit leaves no client connected. */
  lemma ExitLeaves(l: Loop, p: Published, o: Obs, max: int)
    requires !l.pc.Exited? && ClientsOk(l) && LoopStep(l, p, o, max).0.pc.Exited?
    ensures var (l', p') := LoopStep(l, p, o, max);
            && !HasConnected(l')
            && (!o.cancelled ==> p'.status == StatusFailed && l'.pc == Exited(GaveUp))
            && (l'.pc == Exited(GaveUp) ==> p'.status == StatusFailed)
  {
    StepKeepsClients(l, p, o, max);
  }

  // ----- whole rounds of the loop

  /** What each section of each round of the for loop will observe. */
  type Env = (nat, Pc) -> Obs

  /** From l to the next arrival at the top of the loop, or to its exit. */
  function Settle(l: Loop, p: Published, env: Env, round: nat, max: int): (Loop, Published)
    decreases Rank(l.pc)
  {
    if l.pc.Exited? then (l, p)
    else
      var next := LoopStep(l, p, env(round, l.pc), max);
      if next.0.pc == Top then next else Settle(next.0, next.1, env, round, max)
  }

  function Rounds(l: Loop, p: Published, env: Env, max: int, n: nat): (Loop, Published) {
    if n == 0 then (l, p)
    else
      var before := Rounds(l, p, env, max, n - 1);
      Settle(before.0, before.1, env, n - 1, max)
  }

  // ----- what a round amounts to

  /** A try is made: always the first time, and later while automatic reconnection is on. */
  ghost predicate Tries(l: Loop, env: Env, r: nat) {
    env(r, Top).autoReconnect || l.attempt == 0
  }

  /** A client is held, or a new one can be created, and it connects. */
  ghost predicate Connects(l: Loop, env: Env, r: nat) {
    Tries(l, env, r) && (l.vpn.Some? || env(r, Top).ok) && env(r, InConnect).ok
  }

  /** A session comes up. */
  ghost predicate Up(l: Loop, env: Env, r: nat) {
    Connects(l, env, r) && env(r, InCheck).ok
  }

  /** The session ends because the context is done, not because the connection was lost. */
  ghost predicate Interrupted(l: Loop, env: Env, r: nat) {
    Up(l, env, r) && env(r, InTeardown).cancelled
  }

  /** The consecutive failures that the backoff counts; a session starts the count afresh. */
  ghost function Failures(l: Loop, env: Env, r: nat): nat {
    if Up(l, env, r) then 1 else l.attempt + 1
  }

  /** The round comes to wait: the limit is not reached and automatic reconnection is on. */
  ghost predicate Waits(l: Loop, env: Env, r: nat, max: int) {
    Tries(l, env, r) && !Interrupted(l, env, r) && (max <= 0 || Failures(l, env, r) < max) && env(r, AtSnapshot).autoReconnect
  }

  ghost predicate StoppedWaiting(env: Env, r: nat) {
    env(r, InWait).wake == ContextDone && env(r, InWait).cancelled
  }

  /** A change of the settings, since the round began to back off, wakes it, and reconnection is found off. */
  ghost predicate TurnedOff(env: Env, r: nat) {
    && env(r, InWait).wake == SettingsChanged && env(r, AtBackoff).generation < env(r, InWait).generation
    && !env(r, AtRecheck).autoReconnect
  }

  /** At the second, fourth, ... failure: the profile listed after the first one with this link, cyclically. */
  ghost predicate MovesOn(failures: nat, link: Str, available: Option<seq<Profile>>, next: Profile) {
    && failures % 2 == 0 && available.Some? && |available.value| > 1
    && exists i | 0 <= i < |available.value| ::
         && available.value[i].link == link
         && (forall j | 0 <= j < i :: available.value[j].link != link)
         && next == available.value[if i + 1 < |available.value| then i + 1 else 0]
  }

  lemma FailoverIff(failures: nat, link: Str, available: Option<seq<Profile>>, next: Profile)
    ensures Failover(failures, available, link) == Some(next) <==> MovesOn(failures, link, available, next)
  {
    if available.Some? {
      var list := available.value;
      var first := FirstWithLink(list, link);
      if first < |list| {
        Successor(first, |list|);
      }
    }
  }

  lemma Successor(x: nat, n: nat)
    requires x < n
    ensures (x + 1) % n == if x + 1 < n then x + 1 else 0
  {
    if x + 1 == n {
      ModOf(n, 1, 0, n);
    }
  }

  /** How the round ends. */
  ghost function EndOf(l: Loop, env: Env, r: nat, max: int): Pc {
    if Interrupted(l, env, r) || (Waits(l, env, r, max) && StoppedWaiting(env, r)) then Exited(Cancelled)
    else if !Waits(l, env, r, max) || TurnedOff(env, r) then Exited(GaveUp)
    else Top
  }

  /** Counters, status and profile after a round, by what the round met. */
  ghost predicate RoundFacts(l: Loop, p: Published, t: Loop, q: Published, env: Env, r: nat, max: int) {
    && t.pc == EndOf(l, env, r, max)
    && t.tries == l.tries + (if Tries(l, env, r) then 1 else 0)
    && t.sessions == l.sessions + (if Up(l, env, r) then 1 else 0)
    && t.attempt == (if !Tries(l, env, r) then l.attempt else if Interrupted(l, env, r) then 0 else Failures(l, env, r))
    && q.reconnects == p.reconnects + (if Waits(l, env, r, max) then 1 else 0)
    && t.waited == l.waited + (if Waits(l, env, r, max) then DelayOf(Failures(l, env, r)) else 0)
    && q.status == (if Interrupted(l, env, r) then StatusDisconnected
                    else if t.pc == Exited(GaveUp) then StatusFailed else StatusReconnecting)
    && (if Up(l, env, r) then !q.connected && q.connectedAt == 0 && q.active.None?
        else q.connected == p.connected && q.connectedAt == p.connectedAt && q.active == p.active)
  }

  /** Clients after the attempt: one is created when none is held, and one that connected has been disconnected again. */
  ghost function TriedClients(l: Loop, env: Env, r: nat): seq<ConnState>
    requires ClientsOk(l) && l.pc == Top
  {
    var all := l.clients + if Tries(l, env, r) && l.vpn.None? && env(r, Top).ok then [StateIdle] else [];
    var inTime := if Up(l, env, r) then env(r, InTeardown).ok else env(r, InReject).ok;
    if Connects(l, env, r) && !inTime then all[|all| - 1 := StateDisconnecting] else all
  }

  /** The client is kept only over a failed Connect on the same profile. */
  ghost predicate RoundClients(l: Loop, t: Loop, env: Env, r: nat, max: int)
    requires ClientsOk(l) && l.pc == Top
  {
    var held := l.vpn.Some? || (Tries(l, env, r) && env(r, Top).ok);
    var kept := if held && !Connects(l, env, r) then Some(|t.clients| - 1) else None;
    && t.clients == TriedClients(l, env, r)
    && if Waits(l, env, r, max) then Moved(Failures(l, env, r), env(r, AtSnapshot).available, l.profile, kept, t)
       else t.profile == l.profile && t.vpn == kept
  }

  /** The next profile, and then a new client, when it is time to move on; otherwise profile and client stay. */
  ghost predicate Moved(failures: nat, available: Option<seq<Profile>>, profile: Profile, kept: Option<nat>, t: Loop) {
    || (MovesOn(failures, profile.link, available, t.profile) && t.vpn.None?)
    || ((forall next :: !MovesOn(failures, profile.link, available, next)) && t.profile == profile && t.vpn == kept)
  }

  /** The attempt, up to the backoff or an exit before it. */
  ghost predicate TryFacts(l: Loop, p: Published, t: Loop, q: Published, env: Env, r: nat) {
    && t.pc == (if !Tries(l, env, r) then Exited(GaveUp) else if Interrupted(l, env, r) then Exited(Cancelled) else AtBackoff)
    && t.tries == l.tries + (if Tries(l, env, r) then 1 else 0)
    && t.sessions == l.sessions + (if Up(l, env, r) then 1 else 0)
    && t.attempt == (if Up(l, env, r) then 0 else l.attempt)
    && t.waited == l.waited && t.profile == l.profile && q.reconnects == p.reconnects
    && (!Tries(l, env, r) ==> q.status == StatusFailed)
    && (Interrupted(l, env, r) ==> q.status == StatusDisconnected)
    && (if Up(l, env, r) then !q.connected && q.connectedAt == 0 && q.active.None?
        else q.connected == p.connected && q.connectedAt == p.connectedAt && q.active == p.active)
  }

  ghost predicate TryClients(l: Loop, t: Loop, env: Env, r: nat)
    requires ClientsOk(l) && l.pc == Top
  {
    var held := l.vpn.Some? || (Tries(l, env, r) && env(r, Top).ok);
    && t.clients == TriedClients(l, env, r)
    && t.vpn == if held && !Connects(l, env, r) then Some(|t.clients| - 1) else None
  }

  lemma TryMeaning(l: Loop, p: Published, env: Env, r: nat, max: int)
    requires l.pc == Top && ClientsOk(l)
    ensures var (t, q) := TryPart(l, p, env, r, max);
            TryFacts(l, p, t, q, env, r) && TryClients(l, t, env, r)
  {
    var (a, p1) := LoopStep(l, p, env(r, Top), max);
    if a.pc == InConnect {
      assert TryPart(l, p, env, r, max) == TryPart(a, p1, env, r, max);
      ConnectMeaning(a, p1, env, r, max);
      var (t, q) := TryPart(a, p1, env, r, max);
      ConnectedClients(l, a, t, q, p1, env, r);
    }
  }

  lemma ConnectedClients(l: Loop, a: Loop, t: Loop, q: Published, p: Published, env: Env, r: nat)
    requires l.pc == Top && ClientsOk(l) && Tries(l, env, r)
    requires a.pc == InConnect && ClientsOk(a) && ConnectFacts(a, p, t, q, env, r) && (l.vpn.Some? || env(r, Top).ok)
    requires a.clients == (if l.vpn.Some? then l.clients else l.clients + [StateIdle]) && a.vpn == Some(|a.clients| - 1)
    ensures TryClients(l, t, env, r)
  {
  }

  /** Connect with the held client, and what follows if it succeeds. */
  ghost predicate ConnectFacts(l: Loop, p: Published, t: Loop, q: Published, env: Env, r: nat) {
    var connects := env(r, InConnect).ok;
    var up := connects && env(r, InCheck).ok;
    && t.pc == (if up && env(r, InTeardown).cancelled then Exited(Cancelled) else AtBackoff)
    && t.tries == l.tries && t.sessions == l.sessions + (if up then 1 else 0)
    && t.attempt == (if up then 0 else l.attempt)
    && t.waited == l.waited && t.profile == l.profile && q.reconnects == p.reconnects
    && t.clients == (if connects && !(if up then env(r, InTeardown).ok else env(r, InReject).ok)
                     then SetHeld(l, StateDisconnecting) else l.clients)
    && t.vpn == (if connects then None else l.vpn)
    && (up ==> q.status == StatusDisconnected && !q.connected && q.connectedAt == 0 && q.active.None?)
    && (!up ==> q == p.(status := StatusFailed))
  }

  lemma ConnectMeaning(l: Loop, p: Published, env: Env, r: nat, max: int)
    requires l.pc == InConnect && ClientsOk(l)
    ensures var (t, q) := TryPart(l, p, env, r, max); ConnectFacts(l, p, t, q, env, r)
  {
    var (a, p1) := LoopStep(l, p, env(r, InConnect), max);
    assert TryPart(l, p, env, r, max) == TryPart(a, p1, env, r, max);
    if a.pc == InCheck {
      CheckFacts(a, p1, env, r, max);
      assert SetHeld(a, StateIdle) == l.clients;
    }
  }

  /** The check, and the session if it succeeds. */
  lemma CheckFacts(l: Loop, p: Published, env: Env, r: nat, max: int)
    requires l.pc == InCheck && ClientsOk(l)
    ensures var (t, q) := TryPart(l, p, env, r, max);
            var up := env(r, InCheck).ok;
            && t.pc == (if up && env(r, InTeardown).cancelled then Exited(Cancelled) else AtBackoff)
            && t.tries == l.tries && t.sessions == l.sessions + (if up then 1 else 0)
            && t.attempt == (if up then 0 else l.attempt)
            && t.waited == l.waited && t.profile == l.profile && q.reconnects == p.reconnects
            && t.clients == SetHeld(l, if (if up then env(r, InTeardown).ok else env(r, InReject).ok) then StateIdle else StateDisconnecting)
            && t.vpn.None?
            && (up ==> q.status == StatusDisconnected && !q.connected && q.connectedAt == 0 && q.active.None?)
            && (!up ==> q == p.(status := StatusFailed))
  {
    var (a, p1) := LoopStep(l, p, env(r, InCheck), max);
    assert TryPart(l, p, env, r, max) == TryPart(a, p1, env, r, max);
    var (b, p2) := LoopStep(a, p1, env(r, a.pc), max);
    assert TryPart(a, p1, env, r, max) == TryPart(b, p2, env, r, max);
    if b.pc == InTeardown {
      var (c, p3) := LoopStep(b, p2, env(r, InTeardown), max);
      assert TryPart(b, p2, env, r, max) == TryPart(c, p3, env, r, max);
    }
  }

  /** The backoff label. */
  ghost predicate BackoffFacts(l: Loop, p: Published, t: Loop, q: Published, env: Env, r: nat, max: int) {
    var n := l.attempt + 1;
    if (max <= 0 || n < max) && env(r, AtSnapshot).autoReconnect then SnapshotFacts(l, p, n, t, q, env, r)
    else t == l.(pc := Exited(GaveUp), attempt := n, signal := t.signal) && q == p.(status := StatusFailed)
  }

  lemma BackoffMeaning(l: Loop, p: Published, env: Env, r: nat, max: int)
    requires l.pc == AtBackoff
    ensures var (t, q) := Settle(l, p, env, r, max); BackoffFacts(l, p, t, q, env, r, max)
  {
    var (a, p1) := LoopStep(l, p, env(r, AtBackoff), max);
    assert Settle(l, p, env, r, max) == Settle(a, p1, env, r, max);
    if a.pc == AtSnapshot {
      SnapshotMeaning(a, p1, env, r, max);
    }
  }

  /** From the captured signal on, with reconnection on. */
  ghost predicate SnapshotFacts(l: Loop, p: Published, n: nat, t: Loop, q: Published, env: Env, r: nat) {
    && t.pc == (if StoppedWaiting(env, r) then Exited(Cancelled) else if TurnedOff(env, r) then Exited(GaveUp) else Top)
    && t.tries == l.tries && t.sessions == l.sessions && t.attempt == n && t.clients == l.clients
    && n >= 1 && t.waited == l.waited + DelayOf(n)
    && Moved(n, env(r, AtSnapshot).available, l.profile, l.vpn, t)
    && q == p.(reconnects := p.reconnects + 1, status := if t.pc == Exited(GaveUp) then StatusFailed else StatusReconnecting)
  }

  lemma SnapshotMeaning(l: Loop, p: Published, env: Env, r: nat, max: int)
    requires l.pc == AtSnapshot && l.attempt >= 1 && l.signal == env(r, AtBackoff).generation
    ensures var (t, q) := Settle(l, p, env, r, max);
            if env(r, AtSnapshot).autoReconnect then SnapshotFacts(l, p, l.attempt, t, q, env, r)
            else t == l.(pc := Exited(GaveUp)) && q == p.(status := StatusFailed)
  {
    var (a, p1) := LoopStep(l, p, env(r, AtSnapshot), max);
    assert Settle(l, p, env, r, max) == Settle(a, p1, env, r, max);
    if a.pc == InWait {
      MovedMeaning(l.attempt, env(r, AtSnapshot).available, l, a);
      WaitFacts(a, p1, env, r, max);
    }
  }

  lemma MovedMeaning(n: nat, available: Option<seq<Profile>>, l: Loop, t: Loop)
    requires var other := Failover(n, available, l.profile.link);
             if other.Some? then t.profile == other.value && t.vpn.None? else t.profile == l.profile && t.vpn == l.vpn
    ensures Moved(n, available, l.profile, l.vpn, t)
  {
    var other := Failover(n, available, l.profile.link);
    FailoverIff(n, l.profile.link, available, t.profile);
    forall next ensures other == Some(next) <==> MovesOn(n, l.profile.link, available, next) {
      FailoverIff(n, l.profile.link, available, next);
    }
  }

  lemma WaitFacts(l: Loop, p: Published, env: Env, r: nat, max: int)
    requires l.pc == InWait && l.signal == env(r, AtBackoff).generation
    ensures var (t, q) := Settle(l, p, env, r, max);
            && t == l.(pc := if StoppedWaiting(env, r) then Exited(Cancelled) else if TurnedOff(env, r) then Exited(GaveUp) else Top)
            && q == if t.pc == Exited(GaveUp) then p.(status := StatusFailed) else p
  {
    var (a, p1) := LoopStep(l, p, env(r, InWait), max);
    if a.pc != Top {
      assert Settle(l, p, env, r, max) == Settle(a, p1, env, r, max);
      if a.pc == AtRecheck {
        assert Settle(a, p1, env, r, max) == LoopStep(a, p1, env(r, AtRecheck), max);
      }
    }
  }

  /** A whole turn of the for loop, for every state of the context, the settings, the list and the calls. */
  lemma RoundMeaning(l: Loop, p: Published, env: Env, r: nat, max: int)
    requires l.pc == Top && ClientsOk(l)
    ensures var (t, q) := Settle(l, p, env, r, max);
            RoundFacts(l, p, t, q, env, r, max) && RoundClients(l, t, env, r, max)
  {
    SettleSplits(l, p, env, r, max);
    TryMeaning(l, p, env, r, max);
    var (t, q) := TryPart(l, p, env, r, max);
    if t.pc == AtBackoff {
      BackoffMeaning(t, q, env, r, max);
      var (u, v) := Settle(t, q, env, r, max);
      RoundComposes(l, p, t, q, u, v, env, r, max);
    }
  }

  lemma RoundComposes(l: Loop, p: Published, t: Loop, q: Published, u: Loop, v: Published, env: Env, r: nat, max: int)
    requires l.pc == Top && ClientsOk(l) && t.pc == AtBackoff
    requires TryFacts(l, p, t, q, env, r) && TryClients(l, t, env, r) && BackoffFacts(t, q, u, v, env, r, max)
    ensures RoundFacts(l, p, u, v, env, r, max) && RoundClients(l, u, env, r, max)
  {
  }

  /** The context is done throughout this round, and a wait would notice it. */
  ghost predicate CancelledRound(env: Env, r: nat) {
    (forall pc: Pc :: env(r, pc).cancelled) && env(r, InWait).wake == ContextDone
  }

  /** A cancelled loop leaves, wherever it stands but right before it returns to the top. */
  lemma {:induction false} CancelledRoundExits(l: Loop, p: Published, env: Env, r: nat, max: int)
    requires CancelledRound(env, r) && l.pc != AtRecheck
    ensures Settle(l, p, env, r, max).0.pc.Exited?
    decreases Rank(l.pc)
  {
    if !l.pc.Exited? {
      var next := LoopStep(l, p, env(r, l.pc), max);
      CancelledRoundExits(next.0, next.1, env, r, max);
    }
  }

  class State {
    var connected: bool
    var status: int
    var connectedAt: int
    var activeProfile: Option<Profile>
    var reconnects: nat

    function View(): Published
      reads this
    {
      Published(connected, StatusFromCode(status), connectedAt, activeProfile, reconnects)
    }

    constructor ()
      ensures View() == UNPUBLISHED
    {
      connected, status, connectedAt, activeProfile, reconnects := false, 0, 0, None, 0;
    }

    method SetStatus(s: Status)
      modifies this`status
      ensures StatusFromCode(status) == s
    {
      status := StatusCode(s);
      StatusRoundTrip(s);
    }
  }

  /** From l to the backoff label, or to an exit before it. */
  function TryPart(l: Loop, p: Published, env: Env, round: nat, max: int): (Loop, Published)
    decreases Rank(l.pc)
  {
    if Rank(l.pc) <= Rank(AtBackoff) then (l, p)
    else
      var next := LoopStep(l, p, env(round, l.pc), max);
      if next.0.pc == Top then next else TryPart(next.0, next.1, env, round, max)
  }

  /** One attempt: create a client if none is held, connect it, check it, and stay while it lasts. */
  method TryConnection(s: State, l0: Loop, env: Env, r: nat, max: int) returns (l: Loop)
    requires l0.pc == Top && ClientsOk(l0)
    modifies s
    ensures (l, s.View()) == TryPart(l0, old(s.View()), env, r, max)
  {
    l := l0;
    ghost var p0 := s.View();
    if !env(r, Top).autoReconnect && l.attempt > 0 {
      s.SetStatus(StatusFailed);
      l := l.(pc := Exited(GaveUp));
      return;
    }
    if l.attempt == 0 {
      s.SetStatus(StatusConnecting);
    } else {
      s.SetStatus(StatusReconnecting);
    }
    l := l.(tries := l.tries + 1);
    if l.vpn == None {
      if !env(r, Top).ok {
        l := l.(pc := AtBackoff);
        return;
      }
      l := l.(vpn := Some(|l.clients|), clients := l.clients + [StateIdle]);
    }
    l := l.(pc := InConnect);
    Hop(l0, p0, l, s.View(), env, r, max);

    if !env(r, InConnect).ok {
      s.SetStatus(StatusFailed);
      l := l.(pc := AtBackoff);
      return;
    }
    var vpn := l.vpn.value;
    ghost var l1, p1 := l, s.View();
    l := l.(pc := InCheck, clients := l.clients[vpn := StateConnected]);
    Hop(l1, p1, l, s.View(), env, r, max);

    l := CheckAndHold(s, l, env, r, max);
  }

  /** The connectivity check, and the session if it succeeds. */
  method CheckAndHold(s: State, l0: Loop, env: Env, r: nat, max: int) returns (l: Loop)
    requires l0.pc == InCheck && ClientsOk(l0)
    modifies s
    ensures (l, s.View()) == TryPart(l0, old(s.View()), env, r, max)
  {
    l := l0;
    var vpn := l.vpn.value;
    ghost var p0 := s.View();
    if !env(r, InCheck).ok {
      l := l.(pc := InReject, clients := l.clients[vpn := StateDisconnecting]);
      Hop(l0, p0, l, p0, env, r, max);
      if env(r, InReject).ok {
        l := l.(clients := l.clients[vpn := StateIdle]);
      }
      l := l.(pc := AtBackoff, vpn := None);
      s.SetStatus(StatusFailed);
      return;
    }
    s.connected := true;
    s.SetStatus(StatusConnected);
    s.connectedAt := env(r, InCheck).now;
    s.activeProfile := Some(l.profile);
    l := l.(pc := InSession, attempt := 0, sessions := l.sessions + 1);
    ghost var l1, p1 := l, s.View();
    Hop(l0, p0, l1, p1, env, r, max);

    // monitorSession returns when the session is cancelled or lost
    s.connected := false;
    s.SetStatus(StatusDisconnected);
    s.connectedAt := 0;
    s.activeProfile := None;
    l := l.(pc := InTeardown, clients := l.clients[vpn := StateDisconnecting]);
    Hop(l1, p1, l, s.View(), env, r, max);
    if env(r, InTeardown).ok {
      l := l.(clients := l.clients[vpn := StateIdle]);
    }
    l := l.(pc := if env(r, InTeardown).cancelled then Exited(Cancelled) else AtBackoff, vpn := None);
  }

  /** One section of the attempt. */
  lemma Hop(l: Loop, p: Published, l': Loop, p': Published, env: Env, r: nat, max: int)
    requires Rank(l.pc) > Rank(AtBackoff) && l'.pc != Top && (l', p') == LoopStep(l, p, env(r, l.pc), max)
    ensures TryPart(l, p, env, r, max) == TryPart(l', p', env, r, max)
  {
  }

  /** The backoff label: count, give up or wait, and decide whether to go round again. */
  method BackOff(s: State, l0: Loop, env: Env, r: nat, max: int) returns (l: Loop)
    requires l0.pc == AtBackoff
    modifies s
    ensures (l, s.View()) == Settle(l0, old(s.View()), env, r, max)
  {
    l := l0.(attempt := l0.attempt + 1);
    ghost var p0 := s.View();
    if max > 0 && l.attempt >= max {
      s.SetStatus(StatusFailed);
      l := l.(pc := Exited(GaveUp));
      return;
    }
    l := l.(pc := AtSnapshot, signal := env(r, AtBackoff).generation);
    ghost var l1 := l;
    assert Settle(l0, p0, env, r, max) == Settle(l1, p0, env, r, max);
    if !env(r, AtSnapshot).autoReconnect {
      s.SetStatus(StatusFailed);
      l := l.(pc := Exited(GaveUp));
      assert (l, s.View()) == LoopStep(l1, p0, env(r, AtSnapshot), max);
      assert Settle(l1, p0, env, r, max) == (l, s.View());
      return;
    }
    l := Alternate(l, env(r, AtSnapshot).available);
    l := l.(pc := InWait, waited := l.waited + DelayOf(l.attempt));
    s.SetStatus(StatusReconnecting);
    s.reconnects := s.reconnects + 1;
    ghost var l2, p2 := l, s.View();
    assert (l2, p2) == LoopStep(l1, p0, env(r, AtSnapshot), max);
    assert Settle(l1, p0, env, r, max) == Settle(l2, p2, env, r, max);

    match Woken(l, env(r, InWait)) {
      case ContextDone =>
        l := l.(pc := Exited(Cancelled));
        assert (l, p2) == LoopStep(l2, p2, env(r, InWait), max);
      case TimerFired =>
        l := l.(pc := Top);
        assert (l, p2) == LoopStep(l2, p2, env(r, InWait), max);
      case SettingsChanged =>
        l := Recheck(s, l, env, r, max);
    }
    assert (l, s.View()) == Settle(l2, p2, env, r, max);
  }

  /** A settings change ended the wait: go on only if automatic reconnection is still on. */
  method Recheck(s: State, l0: Loop, env: Env, r: nat, max: int) returns (l: Loop)
    requires l0.pc == InWait && Woken(l0, env(r, InWait)) == SettingsChanged
    modifies s
    ensures (l, s.View()) == Settle(l0, old(s.View()), env, r, max)
  {
    l := l0.(pc := AtRecheck);
    ghost var l1, p1 := l, s.View();
    assert Settle(l0, p1, env, r, max) == Settle(l1, p1, env, r, max);
    if !env(r, AtRecheck).autoReconnect {
      s.SetStatus(StatusFailed);
      l := l.(pc := Exited(GaveUp));
    } else {
      l := l.(pc := Top);
    }
    assert (l, s.View()) == LoopStep(l1, p1, env(r, AtRecheck), max);
    assert Settle(l1, p1, env, r, max) == (l, s.View());
  }

  /** Every second failure moves on to the profile listed after the current one, with a new client. */
  method Alternate(l0: Loop, available: Option<seq<Profile>>) returns (l: Loop)
    ensures var other := Failover(l0.attempt, available, l0.profile.link);
            l == if other.Some? then l0.(profile := other.value, vpn := None) else l0
  {
    l := l0;
    if available.Some? && |available.value| > 1 && l.attempt % 2 == 0 {
      var i := FindLink(available.value, l.profile.link);
      if i < |available.value| {
        l := l.(profile := available.value[(i + 1) % |available.value|], vpn := None);
      }
    }
  }

  /** The search for the current profile in the list. */
  method FindLink(list: seq<Profile>, link: Str) returns (i: nat)
    ensures i == FirstWithLink(list, link)
  {
    i := 0;
    while i < |list| && list[i].link != link
      invariant i <= |list|
      invariant forall j | 0 <= j < i :: list[j].link != link
    {
      i := i + 1;
    }
  }

  lemma {:induction false} SettleSplits(l: Loop, p: Published, env: Env, r: nat, max: int)
    requires l.pc.Exited? || Rank(l.pc) >= Rank(AtBackoff)
    ensures var (l', p') := TryPart(l, p, env, r, max);
            && (l'.pc.Exited? || l'.pc == AtBackoff)
            && Settle(l, p, env, r, max) == Settle(l', p', env, r, max)
    decreases Rank(l.pc)
  {
    if Rank(l.pc) > Rank(AtBackoff) {
      var next := LoopStep(l, p, env(r, l.pc), max);
      SettleSplits(next.0, next.1, env, r, max);
    }
  }

  lemma {:induction false} SettleKeepsClients(l: Loop, p: Published, env: Env, r: nat, max: int)
    requires ClientsOk(l)
    ensures ClientsOk(Settle(l, p, env, r, max).0)
    ensures Settle(l, p, env, r, max).0.pc == Top || Settle(l, p, env, r, max).0.pc.Exited?
    decreases Rank(l.pc)
  {
    if !l.pc.Exited? {
      StepKeepsClients(l, p, env(r, l.pc), max);
      var next := LoopStep(l, p, env(r, l.pc), max);
      if next.0.pc != Top {
        SettleKeepsClients(next.0, next.1, env, r, max);
      }
    }
  }

  lemma {:induction false} ExitedStays(l: Loop, p: Published, env: Env, max: int, n: nat, m: nat)
    requires n <= m && Rounds(l, p, env, max, n).0.pc.Exited?
    ensures Rounds(l, p, env, max, m) == Rounds(l, p, env, max, n)
  {
    if n < m {
      ExitedStays(l, p, env, max, n, m - 1);
    }
  }

  lemma {:induction false} SettleEnds(l: Loop, p: Published, env: Env, r: nat, max: int)
    ensures var t := Settle(l, p, env, r, max).0; t.pc == Top || t.pc.Exited?
    decreases Rank(l.pc)
  {
    if !l.pc.Exited? {
      var next := LoopStep(l, p, env(r, l.pc), max);
      if next.0.pc != Top {
        SettleEnds(next.0, next.1, env, r, max);
      }
    }
  }

  /** So no run outlives a cancelled round. */
  lemma {:induction false} CancelledRunEnds(l: Loop, p: Published, env: Env, max: int, n: nat, r: nat)
    requires l.pc == Top && r < n && CancelledRound(env, r)
    ensures Rounds(l, p, env, max, n).0.pc.Exited?
  {
    var (t, q) := Rounds(l, p, env, max, n - 1);
    if r < n - 1 {
      CancelledRunEnds(l, p, env, max, n - 1, r);
    } else {
      if n > 1 {
        var (u, v) := Rounds(l, p, env, max, n - 2);
        SettleEnds(u, v, env, n - 2, max);
      }
      CancelledRoundExits(t, q, env, r, max);
    }
  }

  /** One turn of the for loop. */
  method Round(s: State, l0: Loop, env: Env, r: nat, max: int) returns (l: Loop)
    requires l0.pc == Top && ClientsOk(l0)
    modifies s
    ensures (l, s.View()) == Settle(l0, old(s.View()), env, r, max)
    ensures ClientsOk(l) && (l.pc == Top || l.pc.Exited?)
  {
    SettleSplits(l0, s.View(), env, r, max);
    SettleKeepsClients(l0, s.View(), env, r, max);
    l := TryConnection(s, l0, env, r, max);
    if l.pc == AtBackoff {
      l := BackOff(s, l, env, r, max);
    }
  }

  /** runWithReconnect, cut after a number of rounds; the result is the loop's local state. */
  method RunWithReconnect(s: State, initial: Profile, max: int, env: Env, rounds: nat) returns (l: Loop)
    modifies s
    ensures (l, s.View()) == Rounds(NewLoop(initial), old(s.View()), env, max, rounds)
    ensures (exists r | 0 <= r < rounds :: CancelledRound(env, r)) ==> l.pc.Exited?
  {
    l := NewLoop(initial);
    for r := 0 to rounds
      invariant l.pc == Top && ClientsOk(l)
      invariant (l, s.View()) == Rounds(NewLoop(initial), old(s.View()), env, max, r)
    {
      l := Round(s, l, env, r, max);
      assert (l, s.View()) == Rounds(NewLoop(initial), old(s.View()), env, max, r + 1);
      if l.pc.Exited? {
        ExitedStays(NewLoop(initial), old(s.View()), env, max, r + 1, rounds);
        return;
      }
    }
    forall r | 0 <= r < rounds && CancelledRound(env, r) ensures l.pc.Exited? {
      CancelledRunEnds(NewLoop(initial), old(s.View()), env, max, rounds, r);
    }
  }
}
