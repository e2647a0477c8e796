/**
 Controller, reconnect loops and their clients together, under any sequence of commands,
 stop outcomes, session outcomes and interleavings.
 */
module System {
  import opened Wrappers
  import opened Profiles
  import opened Settings
  import opened Client
  import opened Reconnect
  import opened Controller

  /** A reconnect loop and whether its context is done. */
  datatype Session = Session(loop: Loop, cancelled: bool)

  /** What the controller has taken from its channel and what it has done, in order. */
  datatype Mark =
    | Accepted(cmd: Cmd, before: ConnectionSettings, after: ConnectionSettings) // with the settings around it
    | Did(e: Effect)

  datatype World = World(
    kind: Kind, max: int, core: Core, loops: seq<Session>, pub: Published,
    list: Option<seq<Profile>>, rootDone: bool, history: seq<Mark>)

  datatype Event =
    | Command(cmd: Cmd)
    | StopDone
    | StopTimeout
    | LoopRuns(id: nat, ok: bool, wake: Wake, now: int)
    | LateReset(id: nat, client: nat) // resetAfterTunnelStop of a client that the loop has dropped
    | RefreshList(profiles: seq<Profile>)
    | RootDone

  function ApplyEffect(w: World, e: Effect): World {
    var noted := w.(history := w.history + [Did(e)]);
    match e
    case CancelLoop(id) =>
      if id < |w.loops| then noted.(loops := w.loops[id := w.loops[id].(cancelled := true)]) else noted
    case StartLoop(_, p) => noted.(loops := w.loops + [Session(NewLoop(p), w.rootDone)])
    case SetStatus(status) => noted.(pub := w.pub.(status := status))
    case Reply(_) => noted
  }

  function ApplyEffects(w: World, es: seq<Effect>): World {
    if es == [] then w else ApplyEffect(ApplyEffects(w, es[..|es| - 1]), es[|es| - 1])
  }

  function Start(kind: Kind, max: int, initial: Profile, list: Option<seq<Profile>>): World {
    var (core, es) := Boot(initial);
    ApplyEffects(World(kind, max, core, [], UNPUBLISHED, list, false, []), es)
  }

  /** The loop that the controller holds has closed its done channel. */
  predicate Finished(w: World) {
    w.core.vpn.Some? && w.core.vpn.value < |w.loops| && w.loops[w.core.vpn.value].loop.pc.Exited?
  }

  predicate Enabled(w: World, e: Event) {
    match e
    case Command(cmd) =>
      && w.core.phase == Ready && (cmd == Shutdown ==> w.rootDone)
      && (w.kind == Tray && cmd.ChangeSettings? ==> cmd.patch != Patch(None, None)) // the menu sends one field
    case StopDone => w.core.phase.Stopping? && Finished(w)
    case StopTimeout => w.core.phase.Stopping?
    case LoopRuns(id, _, _, now) => id < |w.loops| && !w.loops[id].loop.pc.Exited? && now != 0
    case LateReset(id, client) =>
      && id < |w.loops|
      && client < |w.loops[id].loop.clients|
      && w.loops[id].loop.clients[client] == StateDisconnecting
      && w.loops[id].loop.vpn != Some(client)
    case RefreshList(_) => true
    case RootDone => true
  }

  function ObsOf(w: World, s: Session, ok: bool, wake: Wake, now: int): Obs {
    Obs(w.core.settings.autoReconnect, w.core.generation, s.cancelled, ok, wake, w.list, now)
  }

  function Step(w: World, e: Event): World
    requires Enabled(w, e)
  {
    match e
    case Command(cmd) =>
      var (core, es) := Accept(w.kind, w.core, cmd, Finished(w));
      ApplyEffects(w.(core := core, history := w.history + [Accepted(cmd, w.core.settings, core.settings)]), es)
    case StopDone =>
      var (core, es) := Complete(w.kind, w.core, w.core.phase.cmd, true);
      ApplyEffects(w.(core := core), es)
    case StopTimeout =>
      var (core, es) := Complete(w.kind, w.core, w.core.phase.cmd, false);
      ApplyEffects(w.(core := core), es)
    case LoopRuns(id, ok, wake, now) =>
      var s := w.loops[id];
      var (loop, pub) := LoopStep(s.loop, w.pub, ObsOf(w, s, ok, wake, now), w.max);
      w.(loops := w.loops[id := s.(loop := loop)], pub := pub)
    case LateReset(id, client) =>
      var s := w.loops[id];
      w.(loops := w.loops[id := s.(loop := s.loop.(clients := s.loop.clients[client := StateIdle]))])
    case RefreshList(profiles) => w.(list := Some(profiles))
    case RootDone =>
      w.(rootDone := true,
         loops := seq(|w.loops|, i requires 0 <= i < |w.loops| => w.loops[i].(cancelled := true)))
  }

  function Run(w: World, es: seq<Event>): World {
    if es == [] then w
    else
      var before := Run(w, es[..|es| - 1]);
      if Enabled(before, es[|es| - 1]) then Step(before, es[|es| - 1]) else before
  }

  // ----- effect lists are short

  lemma Unroll(w: World, es: seq<Effect>)
    ensures |es| == 0 ==> ApplyEffects(w, es) == w
    ensures |es| == 1 ==> ApplyEffects(w, es) == ApplyEffect(w, es[0])
    ensures |es| == 2 ==> ApplyEffects(w, es) == ApplyEffect(ApplyEffect(w, es[0]), es[1])
  {
    if |es| == 1 {
      assert es[..0] == [];
    } else if |es| == 2 {
      assert es[..1] == [es[0]] && es[..1][..0] == [];
    }
  }

  /** The outcomes that a command or a finished stop can have. */
  datatype Outcome =
    | Cancelling            // stop() is waiting for the loop
    | Launching(p: Profile)
    | Stopped
    | Failing
    | Replying
    | Ending(stopped: bool)

  function CompleteOutcome(c: Core, cmd: Cmd, ok: bool): Outcome {
    if cmd == Shutdown then Ending(ok)
    else if !ok then Failing
    else if cmd == Stop then Stopped
    else Launching(if cmd.Switch? then cmd.profile else c.selected)
  }

  function AcceptOutcome(c: Core, cmd: Cmd, finished: bool): Outcome {
    if cmd.ChangeSettings? then
      if cmd.patch == Patch(None, None) then Failing
      else if !TurnsOn(c, cmd) || (c.vpn.Some? && !finished) then Replying
      else if c.vpn.Some? then Cancelling
      else Launching(c.selected)
    else if c.vpn.Some? then Cancelling
    else CompleteOutcome(c, cmd, true)
  }

  /** How the controller and its effects look after each outcome. */
  ghost predicate Looks(kind: Kind, c: Core, after: Core, es: seq<Effect>, out: Outcome) {
    match out
    case Cancelling => c.vpn.Some? && after.phase.Stopping? && after.vpn == c.vpn && after.next == c.next && es == [CancelLoop(c.vpn.value)]
    case Launching(p) => after.phase == Ready && after.vpn == Some(c.next) && after.next == c.next + 1
                         && es == [StartLoop(c.next, p), Reply(true)]
    case Stopped => after.phase == Ready && after.vpn.None? && after.next == c.next && es == [SetStatus(StatusDisconnected), Reply(true)]
    case Failing => after.phase == Ready && after.vpn == c.vpn && after.next == c.next
                    && es == if kind == Tray then [SetStatus(StatusFailed), Reply(false)] else [Reply(false)]
    case Replying => after.phase == Ready && after.vpn == c.vpn && after.next == c.next && es == [Reply(true)]
    case Ending(stopped) => after.phase == Ended && after.vpn == (if stopped then None else c.vpn) && after.next == c.next && es == []
  }

  lemma CompleteLooks(kind: Kind, c: Core, cmd: Cmd, ok: bool)
    ensures var (after, es) := Complete(kind, c, cmd, ok); Looks(kind, c, after, es, CompleteOutcome(c, cmd, ok))
  {
    assert [SetStatus(StatusFailed)] + [Reply(false)] == [SetStatus(StatusFailed), Reply(false)];
    assert [] + [Reply(false)] == [Reply(false)];
  }

  lemma AcceptLooks(kind: Kind, c: Core, cmd: Cmd, finished: bool)
    requires c.phase == Ready
    ensures var (after, es) := Accept(kind, c, cmd, finished); Looks(kind, c, after, es, AcceptOutcome(c, cmd, finished))
  {
    match cmd
    case ChangeSettings(patch) =>
      assert [SetStatus(StatusFailed)] + [Reply(false)] == [SetStatus(StatusFailed), Reply(false)];
      assert [] + [Reply(false)] == [Reply(false)];
      if ApplyPatch(patch, c.settings).Ok? {
        CompleteLooks(kind, c.(settings := ApplyPatch(patch, c.settings).value, generation := c.generation + 1), cmd, true);
      }
    case Switch(p) => CompleteLooks(kind, c.(selected := p), cmd, true);
    case _ => CompleteLooks(kind, c, cmd, true);
  }

  /** Only a switch selects, and the settings only change together with the generation. */
  predicate Keeps(c: Core, after: Core, selected: Profile) {
    && after.selected == selected
    && after.generation >= c.generation
    && (after.settings != c.settings ==> after.generation > c.generation)
  }

  lemma AcceptKeeps(kind: Kind, c: Core, cmd: Cmd, finished: bool)
    ensures Keeps(c, Accept(kind, c, cmd, finished).0, if cmd.Switch? then cmd.profile else c.selected)
  {
  }

  lemma CompleteKeeps(kind: Kind, c: Core, cmd: Cmd, ok: bool)
    ensures Keeps(c, Complete(kind, c, cmd, ok).0, c.selected)
  {
  }

  /** A stop that the controller waits for belongs to the command accepted last. */
  lemma AcceptWaits(kind: Kind, c: Core, cmd: Cmd, finished: bool)
    requires c.phase == Ready
    ensures AcceptOutcome(c, cmd, finished).Cancelling? ==> Accept(kind, c, cmd, finished).0.phase == Stopping(cmd)
  {
  }

  /** A settings command stores its patch, and starts or cancels a session only when AutoConnect went from off to on. */
  ghost predicate SettingsFollow(cmd: Cmd, before: ConnectionSettings, after: ConnectionSettings, out: Outcome) {
    match cmd
    case ChangeSettings(patch) =>
      && Patched(before, patch, after)
      && (out.Launching? || out.Cancelling? ==> !before.autoConnect && after.autoConnect)
    case _ => after == before
  }

  lemma AcceptSettings(kind: Kind, c: Core, cmd: Cmd, finished: bool)
    requires c.phase == Ready
    ensures SettingsFollow(cmd, c.settings, Accept(kind, c, cmd, finished).0.settings, AcceptOutcome(c, cmd, finished))
  {
  }

  // ----- at most one loop, at most one connected client

  /** Only the loop whose cancel function the controller keeps can be alive. */
  predicate OneLoop(w: World) {
    && w.core.next == |w.loops|
    && (w.core.vpn.Some? ==> w.core.vpn.value < |w.loops|)
    && (w.core.phase.Stopping? ==> w.core.vpn.Some?)
    && forall i | 0 <= i < |w.loops| && !w.loops[i].loop.pc.Exited? :: w.core.vpn == Some(i)
  }

  predicate LoopsOk(w: World) {
    forall i | 0 <= i < |w.loops| :: ClientsOk(w.loops[i].loop) && AttemptOk(w.loops[i].loop, w.max)
  }

  /** Effects start a loop exactly when the controller launches one, and cancel only the one it waits for. */
  lemma EffectsOnLoops(v: World, c: Core, es: seq<Effect>, out: Outcome)
    requires Looks(v.kind, c, v.core, es, out)
    ensures var w := ApplyEffects(v, es);
            && w.kind == v.kind && w.max == v.max && w.core == v.core && w.list == v.list
            && |w.loops| == |v.loops| + (if out.Launching? then 1 else 0)
            && (forall i | 0 <= i < |v.loops| :: w.loops[i].loop == v.loops[i].loop)
            && (forall i | 0 <= i < |v.loops| && !(out.Cancelling? && c.vpn == Some(i)) :: w.loops[i] == v.loops[i])
            && (out.Launching? ==> w.loops[|v.loops|].loop == NewLoop(out.p))
  {
    Unroll(v, es);
  }

  lemma NewLoopOk(p: Profile, max: int)
    ensures ClientsOk(NewLoop(p)) && AttemptOk(NewLoop(p), max)
  {
  }

  lemma EffectsKeepOneLoop(w: World, c: Core, es: seq<Effect>, out: Outcome)
    requires c.next == |w.loops| && (c.vpn.Some? ==> c.vpn.value < |w.loops|)
    requires Looks(w.kind, c, w.core, es, out)
    requires forall i | 0 <= i < |w.loops| && !w.loops[i].loop.pc.Exited? :: c.vpn == Some(i) && w.core.vpn == c.vpn
    ensures OneLoop(ApplyEffects(w, es))
  {
    EffectsOnLoops(w, c, es, out);
    var v := ApplyEffects(w, es);
    forall i | 0 <= i < |v.loops| && !v.loops[i].loop.pc.Exited? ensures v.core.vpn == Some(i) {
      assert i < |w.loops| ==> v.loops[i].loop == w.loops[i].loop;
    }
  }

  lemma EffectsKeepLoops(w: World, c: Core, after: Core, es: seq<Effect>, out: Outcome)
    requires c.next == |w.loops| && (c.vpn.Some? ==> c.vpn.value < |w.loops|)
    requires LoopsOk(w) && w.core == after && Looks(w.kind, c, after, es, out)
    requires forall i | 0 <= i < |w.loops| && !w.loops[i].loop.pc.Exited? :: c.vpn == Some(i) && after.vpn == c.vpn
    ensures var v := ApplyEffects(w, es);
            OneLoop(v) && LoopsOk(v) && v.kind == w.kind && v.max == w.max && v.core == after
  {
    EffectsOnLoops(w, c, es, out);
    EffectsKeepOneLoop(w, c, es, out);
    var v := ApplyEffects(w, es);
    forall i | 0 <= i < |v.loops| ensures ClientsOk(v.loops[i].loop) && AttemptOk(v.loops[i].loop, v.max) {
      if i < |w.loops| {
        assert ClientsOk(w.loops[i].loop) && AttemptOk(w.loops[i].loop, w.max);
      } else {
        NewLoopOk(out.p, v.max);
      }
    }
  }

  lemma LoopRunKeepsLoops(w: World, e: Event)
    requires OneLoop(w) && LoopsOk(w) && Enabled(w, e) && e.LoopRuns?
    ensures OneLoop(Step(w, e)) && LoopsOk(Step(w, e))
  {
    var s := w.loops[e.id];
    var o := ObsOf(w, s, e.ok, e.wake, e.now);
    StepKeepsClients(s.loop, w.pub, o, w.max);
    StepKeepsAttempt(s.loop, w.pub, o, w.max);
    var next := LoopStep(s.loop, w.pub, o, w.max).0;
    assert ClientsOk(next) && AttemptOk(next, w.max);
    assert Step(w, e).loops == w.loops[e.id := s.(loop := next)];
  }

  lemma LateResetKeepsLoops(w: World, e: Event)
    requires OneLoop(w) && LoopsOk(w) && Enabled(w, e) && e.LateReset?
    ensures OneLoop(Step(w, e)) && LoopsOk(Step(w, e))
  {
    var l := w.loops[e.id].loop;
    assert ClientsOk(l) && AttemptOk(l, w.max);
    var next := l.(clients := l.clients[e.client := StateIdle]);
    assert Held(next) == Held(l);
    assert ClientsOk(next) && AttemptOk(next, w.max);
  }

  /** The command ends in an error: an empty settings patch, or a stop that timed out. */
  predicate Fails(w: World, e: Event) {
    || (e.Command? && e.cmd.ChangeSettings? && e.cmd.patch == Patch(None, None))
    || (e.StopTimeout? && w.core.phase.Stopping? && w.core.phase.cmd != Shutdown)
  }

  /** A step of the controller: a command, or the end of a stop. */
  predicate IsCore(e: Event) {
    e.Command? || e.StopDone? || e.StopTimeout?
  }

  function OutcomeOf(w: World, e: Event): Outcome
    requires Enabled(w, e) && IsCore(e)
  {
    match e
    case Command(cmd) => AcceptOutcome(w.core, cmd, Finished(w))
    case _ => CompleteOutcome(w.core, w.core.phase.cmd, e.StopDone?)
  }

  /** The step is the controller's own change, to v, followed by its effects. */
  ghost predicate Splits(w: World, e: Event, v: World, es: seq<Effect>)
    requires Enabled(w, e) && IsCore(e)
  {
    && Step(w, e) == ApplyEffects(v, es) && |es| <= 2
    && v == w.(core := v.core, history := if e.Command? then w.history + [Accepted(e.cmd, w.core.settings, v.core.settings)] else w.history)
    && Looks(w.kind, w.core, v.core, es, OutcomeOf(w, e))
    && Keeps(w.core, v.core, if e.Command? && e.cmd.Switch? then e.cmd.profile else w.core.selected)
    && (e.Command? && OutcomeOf(w, e).Cancelling? ==> v.core.phase == Stopping(e.cmd))
    && (if e.Command? then SettingsFollow(e.cmd, w.core.settings, v.core.settings, OutcomeOf(w, e)) else v.core.settings == w.core.settings)
  }

  lemma CommandSplits(w: World, e: Event)
    requires Enabled(w, e) && e.Command?
    ensures var (core, es) := Accept(w.kind, w.core, e.cmd, Finished(w));
            Splits(w, e, w.(core := core, history := w.history + [Accepted(e.cmd, w.core.settings, core.settings)]), es)
  {
    AcceptLooks(w.kind, w.core, e.cmd, Finished(w));
    AcceptKeeps(w.kind, w.core, e.cmd, Finished(w));
    AcceptWaits(w.kind, w.core, e.cmd, Finished(w));
    AcceptSettings(w.kind, w.core, e.cmd, Finished(w));
  }

  lemma StopSplits(w: World, e: Event)
    requires Enabled(w, e) && (e.StopDone? || e.StopTimeout?)
    ensures var (core, es) := Complete(w.kind, w.core, w.core.phase.cmd, e.StopDone?);
            Splits(w, e, w.(core := core), es)
  {
    CompleteLooks(w.kind, w.core, w.core.phase.cmd, e.StopDone?);
    CompleteKeeps(w.kind, w.core, w.core.phase.cmd, e.StopDone?);
  }

  lemma CoreSplits(w: World, e: Event) returns (v: World, es: seq<Effect>)
    requires Enabled(w, e) && IsCore(e)
    ensures Splits(w, e, v, es)
  {
    if e.Command? {
      CommandSplits(w, e);
      var (core, effects) := Accept(w.kind, w.core, e.cmd, Finished(w));
      v, es := w.(core := core, history := w.history + [Accepted(e.cmd, w.core.settings, core.settings)]), effects;
    } else {
      StopSplits(w, e);
      var (core, effects) := Complete(w.kind, w.core, w.core.phase.cmd, e.StopDone?);
      v, es := w.(core := core), effects;
    }
  }

  /** The controller gives up its loop, or starts the next, only when the loop has ended. */
  lemma EndsOnlyFinished(w: World, e: Event)
    requires Enabled(w, e) && IsCore(e)
    ensures var out := OutcomeOf(w, e);
            out.Launching? || out.Stopped? || (out.Ending? && out.stopped) ==> w.core.vpn.None? || Finished(w)
  {
  }

  lemma FailsIsFailing(w: World, e: Event)
    requires Enabled(w, e) && IsCore(e)
    ensures OutcomeOf(w, e).Failing? <==> Fails(w, e)
  {
  }

  lemma StepKeepsLoops(w: World, e: Event)
    requires OneLoop(w) && LoopsOk(w) && Enabled(w, e)
    ensures OneLoop(Step(w, e)) && LoopsOk(Step(w, e)) && Step(w, e).kind == w.kind && Step(w, e).max == w.max
  {
    if IsCore(e) {
      var v, es := CoreSplits(w, e);
      EndsOnlyFinished(w, e);
      EffectsKeepLoops(v, w.core, v.core, es, OutcomeOf(w, e));
    } else if e.LoopRuns? {
      LoopRunKeepsLoops(w, e);
    } else if e.LateReset? {
      LateResetKeepsLoops(w, e);
    }
  }

  lemma StartKeepsLoops(kind: Kind, max: int, initial: Profile, list: Option<seq<Profile>>)
    ensures var w := Start(kind, max, initial, list);
            OneLoop(w) && LoopsOk(w) && w.kind == kind && w.max == max
  {
    StartShape(kind, max, initial, list);
    NewLoopOk(initial, max);
  }

  lemma {:induction false} RunKeepsLoops(kind: Kind, max: int, initial: Profile, list: Option<seq<Profile>>, es: seq<Event>)
    ensures var w := Run(Start(kind, max, initial, list), es);
            OneLoop(w) && LoopsOk(w) && w.kind == kind && w.max == max
  {
    if es == [] {
      StartKeepsLoops(kind, max, initial, list);
    } else {
      var init, e := es[..|es| - 1], es[|es| - 1];
      RunKeepsLoops(kind, max, initial, list, init);
      var before := Run(Start(kind, max, initial, list), init);
      if Enabled(before, e) {
        StepKeepsLoops(before, e);
      }
    }
  }

  lemma StartShape(kind: Kind, max: int, initial: Profile, list: Option<seq<Profile>>)
    ensures Start(kind, max, initial, list)
         == World(kind, max, Core(Ready, Some(0), 1, initial, DEFAULT_SETTINGS, 0),
                  [Session(NewLoop(initial), false)], UNPUBLISHED, list, false, [Did(StartLoop(0, initial))])
  {
    Unroll(World(kind, max, Boot(initial).0, [], UNPUBLISHED, list, false, []), Boot(initial).1);
  }

  predicate Alive(w: World, i: nat) {
    i < |w.loops| && !w.loops[i].loop.pc.Exited?
  }

  /** Client a of loop i is connected. */
  predicate ConnectedAt(w: World, i: nat, a: nat) {
    i < |w.loops| && a < |w.loops[i].loop.clients| && w.loops[i].loop.clients[a] == StateConnected
  }

  lemma ConnectedIsCurrent(w: World, i: nat, a: nat)
    requires OneLoop(w) && LoopsOk(w) && ConnectedAt(w, i, a)
    ensures w.core.vpn == Some(i) && w.loops[i].loop.vpn == Some(a) && Alive(w, i)
  {
    assert ClientsOk(w.loops[i].loop);
  }

  /**
   In every reachable state at most one reconnect loop is alive, at most one client of all those
   ever created is connected, and it belongs to the live loop; a loop that has left has none.
   */
  lemma AtMostOne(kind: Kind, max: int, initial: Profile, list: Option<seq<Profile>>, es: seq<Event>)
    ensures var w := Run(Start(kind, max, initial, list), es);
            && (forall i, j | Alive(w, i) && Alive(w, j) :: i == j)
            && (forall i, a, j, b | ConnectedAt(w, i, a) && ConnectedAt(w, j, b) :: i == j && a == b)
            && (forall i, a | ConnectedAt(w, i, a) :: Alive(w, i))
            && (forall i | 0 <= i < |w.loops| && w.loops[i].loop.pc.Exited? :: !HasConnected(w.loops[i].loop))
  {
    RunKeepsLoops(kind, max, initial, list, es);
    var w := Run(Start(kind, max, initial, list), es);
    forall i, a, j, b | ConnectedAt(w, i, a) && ConnectedAt(w, j, b) ensures i == j && a == b {
      ConnectedIsCurrent(w, i, a);
      ConnectedIsCurrent(w, j, b);
    }
    forall i, a | ConnectedAt(w, i, a) ensures Alive(w, i) {
      ConnectedIsCurrent(w, i, a);
    }
    forall i | 0 <= i < |w.loops| && w.loops[i].loop.pc.Exited? ensures !HasConnected(w.loops[i].loop) {
      assert ClientsOk(w.loops[i].loop);
    }
  }

  // ----- clean disconnects

  /** Every client other than the one its loop holds is idle. */
  predicate OldClientsIdle(w: World) {
    forall i, a | 0 <= i < |w.loops| && 0 <= a < |w.loops[i].loop.clients| && w.loops[i].loop.vpn != Some(a) ::
      w.loops[i].loop.clients[a] == StateIdle
  }

  /** The step does not let a Disconnect time out. */
  predicate Clean(w: World, e: Event) {
    e.LoopRuns? && e.id < |w.loops| && w.loops[e.id].loop.pc in {InReject, InTeardown} ==> e.ok
  }

  predicate CleanRun(w: World, es: seq<Event>) {
    forall n | 0 <= n < |es| :: Clean(Run(w, es[..n]), es[n])
  }

  lemma LoopRunKeepsOldIdle(l: Loop, p: Published, o: Obs, max: int)
    requires !l.pc.Exited? && ClientsOk(l) && (l.pc in {InReject, InTeardown} ==> o.ok)
    requires forall a | 0 <= a < |l.clients| && l.vpn != Some(a) :: l.clients[a] == StateIdle
    ensures var r := LoopStep(l, p, o, max).0;
            forall a | 0 <= a < |r.clients| && r.vpn != Some(a) :: r.clients[a] == StateIdle
  {
  }

  /** A disconnect that times out leaves the client it gave up disconnecting. */
  lemma TimeoutLeavesClient(l: Loop, p: Published, o: Obs, max: int)
    requires l.pc in {InReject, InTeardown} && ClientsOk(l) && !o.ok
    ensures var r := LoopStep(l, p, o, max).0;
            l.vpn.Some? && l.vpn.value < |r.clients| && r.vpn.None? && r.clients[l.vpn.value] == StateDisconnecting
  {
  }

  lemma CommandKeepsOldIdle(w: World, e: Event)
    requires OneLoop(w) && OldClientsIdle(w) && Enabled(w, e) && IsCore(e)
    ensures OldClientsIdle(Step(w, e))
  {
    var v, es := CoreSplits(w, e);
    EffectsOnLoops(v, w.core, es, OutcomeOf(w, e));
  }

  lemma LoopRunLeavesClient(w: World, e: Event)
    requires LoopsOk(w) && OldClientsIdle(w) && Enabled(w, e) && e.LoopRuns?
    ensures OldClientsIdle(Step(w, e)) <==> Clean(w, e)
  {
    var s := w.loops[e.id];
    assert ClientsOk(s.loop);
    var o := ObsOf(w, s, e.ok, e.wake, e.now);
    var next := LoopStep(s.loop, w.pub, o, w.max).0;
    assert Step(w, e).loops == w.loops[e.id := s.(loop := next)];
    if Clean(w, e) {
      LoopRunKeepsOldIdle(s.loop, w.pub, o, w.max);
    } else {
      TimeoutLeavesClient(s.loop, w.pub, o, w.max);
      assert Step(w, e).loops[e.id].loop.clients[s.loop.vpn.value] == StateDisconnecting;
    }
  }

  /** Exactly the disconnects that time out leave a client behind that is not idle. */
  lemma OnlyTimeoutsLeaveClients(w: World, e: Event)
    requires OneLoop(w) && LoopsOk(w) && OldClientsIdle(w) && Enabled(w, e)
    ensures OldClientsIdle(Step(w, e)) <==> Clean(w, e)
  {
    if IsCore(e) {
      CommandKeepsOldIdle(w, e);
    } else if e.LoopRuns? {
      LoopRunLeavesClient(w, e);
    }
  }

  /** While every Disconnect ends in time no client but the one its loop holds is other than idle. */
  lemma {:induction false} CleanRunsLeaveNoClient(kind: Kind, max: int, initial: Profile, list: Option<seq<Profile>>, es: seq<Event>)
    requires CleanRun(Start(kind, max, initial, list), es)
    ensures OldClientsIdle(Run(Start(kind, max, initial, list), es))
  {
    var w0 := Start(kind, max, initial, list);
    if es == [] {
      StartShape(kind, max, initial, list);
    } else {
      var init := es[..|es| - 1];
      assert forall n | 0 <= n < |init| :: init[..n] == es[..n] && init[n] == es[n];
      CleanRunsLeaveNoClient(kind, max, initial, list, init);
      RunKeepsLoops(kind, max, initial, list, init);
      var before := Run(w0, init);
      if Enabled(before, es[|es| - 1]) {
        assert Clean(Run(w0, es[..|es| - 1]), es[|es| - 1]);
        OnlyTimeoutsLeaveClients(before, es[|es| - 1]);
      }
    }
  }

  /** One more section of loop 0, in a world with that loop only. */
  function ZeroRuns(w: World, ok: bool): World
    requires |w.loops| == 1 && !w.loops[0].loop.pc.Exited?
  {
    var s := w.loops[0];
    var (loop, pub) := LoopStep(s.loop, w.pub, ObsOf(w, s, ok, TimerFired, 1), w.max);
    w.(loops := [s.(loop := loop)], pub := pub)
  }

  lemma LoopZeroRuns(w0: World, es: seq<Event>, ok: bool) returns (more: seq<Event>)
    requires |Run(w0, es).loops| == 1 && !Run(w0, es).loops[0].loop.pc.Exited?
    ensures Run(w0, more) == ZeroRuns(Run(w0, es), ok)
  {
    more := es + [LoopRuns(0, ok, TimerFired, 1)];
    assert more[..|more| - 1] == es;
    var w := Run(w0, es);
    var s := w.loops[0];
    var loop := LoopStep(s.loop, w.pub, ObsOf(w, s, ok, TimerFired, 1), w.max).0;
    assert w.loops[0 := s.(loop := loop)] == [s.(loop := loop)];
  }

  /** Loop 0 alone, at pc, never cancelled, with unlimited attempts and automatic reconnection. */
  predicate ZeroAt(w: World, pc: Pc, clients: seq<ConnState>, vpn: Option<nat>) {
    && |w.loops| == 1 && w.loops[0].loop.pc == pc && w.loops[0].loop.clients == clients && w.loops[0].loop.vpn == vpn
    && !w.loops[0].cancelled && w.max == 0 && w.core.settings.autoReconnect && w.list.None?
  }

  /** A new client is created and connected. */
  lemma ZeroConnects(w: World, clients: seq<ConnState>)
    requires ZeroAt(w, Top, clients, None)
    ensures var v := ZeroRuns(w, true);
            && ZeroAt(v, InConnect, clients + [StateIdle], Some(|clients|))
            && ZeroAt(ZeroRuns(v, true), InCheck, clients + [StateConnected], Some(|clients|))
  {
  }

  /** The first session comes and goes, and its Disconnect times out. */
  lemma ZeroTimesOut(w: World)
    requires ZeroAt(w, InCheck, [StateConnected], Some(0))
    ensures var up := ZeroRuns(w, true);
            && ZeroAt(up, InSession, [StateConnected], Some(0))
            && var down := ZeroRuns(up, true);
               && ZeroAt(down, InTeardown, [StateDisconnecting], Some(0))
               && ZeroAt(ZeroRuns(down, false), AtBackoff, [StateDisconnecting], None)
  {
  }

  lemma ZeroBacksOff(w: World)
    requires ZeroAt(w, AtBackoff, [StateDisconnecting], None)
    ensures var v := ZeroRuns(w, true);
            && ZeroAt(v, AtSnapshot, [StateDisconnecting], None)
            && var wait := ZeroRuns(v, true);
               && ZeroAt(wait, InWait, [StateDisconnecting], None)
               && ZeroAt(ZeroRuns(wait, true), Top, [StateDisconnecting], None)
  {
  }

  /**
   After a disconnect that timed out the loop goes on: the old client can still be disconnecting
   while the next one is connected.
   */
  lemma OldClientOutlivesDisconnect(kind: Kind, initial: Profile) returns (es: seq<Event>)
    ensures var ls := Run(Start(kind, 0, initial, None), es).loops;
            |ls| == 1 && ls[0].loop.clients == [StateDisconnecting, StateConnected]
  {
    StartShape(kind, 0, initial, None);
    var w0 := Start(kind, 0, initial, None);
    ZeroConnects(w0, []);
    es := LoopZeroRuns(w0, [], true);
    es := LoopZeroRuns(w0, es, true);
    ZeroTimesOut(Run(w0, es));
    es := LoopZeroRuns(w0, es, true);
    es := LoopZeroRuns(w0, es, true);
    es := LoopZeroRuns(w0, es, false);
    ZeroBacksOff(Run(w0, es));
    es := LoopZeroRuns(w0, es, true);
    es := LoopZeroRuns(w0, es, true);
    es := LoopZeroRuns(w0, es, true);
    ZeroConnects(Run(w0, es), [StateDisconnecting]);
    es := LoopZeroRuns(w0, es, true);
    es := LoopZeroRuns(w0, es, true);
  }

  // ----- published state

  /** The loop that the controller holds. */
  function Current(w: World): Option<Loop> {
    if w.core.vpn.Some? && w.core.vpn.value < |w.loops| then Some(w.loops[w.core.vpn.value].loop) else None
  }

  /** The published facts agree with the live loop; without one, nothing is published. */
  predicate Agrees(w: World) {
    && (match Current(w)
        case Some(l) => PublishedOk(l, w.pub)
        case None => !w.pub.connected && w.pub.connectedAt == 0 && w.pub.active.None? && w.pub.status != StatusConnected)
    && (w.kind == Daemon ==> StatusShows(w.pub) && (Current(w).Some? ==> StatusAt(Current(w).value, w.pub.status)))
  }

  lemma CancelKeepsAgreement(w: World, v: World, es: seq<Effect>)
    requires OneLoop(w) && Agrees(w) && v.kind == w.kind && v.pub == w.pub && v.loops == w.loops
    requires w.core.vpn.Some? && v.core.vpn == w.core.vpn && es == [CancelLoop(w.core.vpn.value)]
    ensures Agrees(ApplyEffects(v, es))
  {
    Unroll(v, es);
    assert Current(ApplyEffects(v, es)) == Current(w);
  }

  lemma LaunchKeepsAgreement(w: World, v: World, es: seq<Effect>, p: Profile)
    requires OneLoop(w) && Agrees(w) && v.kind == w.kind && v.pub == w.pub && v.loops == w.loops
    requires (w.core.vpn.None? || Finished(w)) && v.core.vpn == Some(w.core.next)
    requires es == [StartLoop(w.core.next, p), Reply(true)]
    ensures Agrees(ApplyEffects(v, es))
  {
    Unroll(v, es);
    assert Current(ApplyEffects(v, es)) == Some(NewLoop(p));
  }

  lemma OtherEffectsKeepAgreement(w: World, v: World, es: seq<Effect>, out: Outcome)
    requires OneLoop(w) && Agrees(w) && v.kind == w.kind && v.pub == w.pub && v.loops == w.loops && |es| <= 2
    requires Looks(w.kind, w.core, v.core, es, out) && !out.Cancelling? && !out.Launching?
    requires out.Stopped? || (out.Ending? && out.stopped) ==> w.core.vpn.None? || Finished(w)
    ensures Agrees(ApplyEffects(v, es))
  {
    Unroll(v, es);
    assert Current(ApplyEffects(v, es)) == if v.core.vpn.None? then None else Current(w);
  }

  lemma EffectsKeepAgreement(w: World, v: World, es: seq<Effect>, out: Outcome)
    requires OneLoop(w) && Agrees(w) && v.kind == w.kind && v.pub == w.pub && v.loops == w.loops && |es| <= 2
    requires Looks(w.kind, w.core, v.core, es, out)
    requires out.Launching? || out.Stopped? || (out.Ending? && out.stopped) ==> w.core.vpn.None? || Finished(w)
    ensures Agrees(ApplyEffects(v, es))
  {
    if out.Cancelling? {
      CancelKeepsAgreement(w, v, es);
    } else if out.Launching? {
      LaunchKeepsAgreement(w, v, es, out.p);
    } else {
      OtherEffectsKeepAgreement(w, v, es, out);
    }
  }

  lemma StepKeepsAgreement(w: World, e: Event)
    requires OneLoop(w) && Agrees(w) && Enabled(w, e)
    ensures Agrees(Step(w, e))
  {
    if IsCore(e) {
      var v, es := CoreSplits(w, e);
      EndsOnlyFinished(w, e);
      EffectsKeepAgreement(w, v, es, OutcomeOf(w, e));
    } else if e.LoopRuns? {
      var s := w.loops[e.id];
      assert w.core.vpn == Some(e.id);
      StepKeepsPublished(s.loop, w.pub, ObsOf(w, s, e.ok, e.wake, e.now), w.max);
      if w.kind == Daemon {
        StepKeepsStatus(s.loop, w.pub, ObsOf(w, s, e.ok, e.wake, e.now), w.max);
      }
    }
  }

  lemma {:induction false} RunKeepsAgreement(kind: Kind, max: int, initial: Profile, list: Option<seq<Profile>>, es: seq<Event>)
    ensures Agrees(Run(Start(kind, max, initial, list), es))
  {
    if es == [] {
      StartShape(kind, max, initial, list);
    } else {
      var init := es[..|es| - 1];
      RunKeepsAgreement(kind, max, initial, list, init);
      RunKeepsLoops(kind, max, initial, list, init);
      var before := Run(Start(kind, max, initial, list), init);
      if Enabled(before, es[|es| - 1]) {
        StepKeepsAgreement(before, es[|es| - 1]);
      }
    }
  }

  /**
   In the daemon, at every point between two sections: connected, the connected status, an active
   profile and a connection time stand or fall together, and they hold exactly during a session,
   for the profile that the live loop is using; and the status tells where the loop blocks.
   */
  lemma DaemonPublishes(max: int, initial: Profile, list: Option<seq<Profile>>, es: seq<Event>)
    ensures var w := Run(Start(Daemon, max, initial, list), es);
            && (w.pub.connected <==> w.pub.status == StatusConnected)
            && (w.pub.connected <==> w.pub.active.Some?)
            && (w.pub.connected <==> w.pub.connectedAt != 0)
            && (w.pub.connected <==> Current(w).Some? && Current(w).value.pc == InSession)
            && (w.pub.connected ==> w.pub.active == Some(Current(w).value.profile))
            && (Current(w).Some? ==> StatusAt(Current(w).value, w.pub.status))
  {
    RunKeepsAgreement(Daemon, max, initial, list, es);
    RunKeepsLoops(Daemon, max, initial, list, es);
  }

  /** The controller writes nothing of the published state but the status. */
  lemma EffectsKeepPublished(v: World, es: seq<Effect>)
    requires |es| <= 2
    ensures ApplyEffects(v, es).pub == v.pub.(status := ApplyEffects(v, es).pub.status)
  {
    Unroll(v, es);
  }

  lemma StepKeepsPublishedProfile(w: World, e: Event)
    requires OneLoop(w) && Agrees(w) && Enabled(w, e) && w.pub.connected && Step(w, e).pub.connected
    ensures Step(w, e).pub.active == w.pub.active
  {
    if IsCore(e) {
      var v, es := CoreSplits(w, e);
      EffectsKeepPublished(v, es);
    } else if e.LoopRuns? {
      var s := w.loops[e.id];
      assert w.core.vpn == Some(e.id);
      StepKeepsPublished(s.loop, w.pub, ObsOf(w, s, e.ok, e.wake, e.now), w.max);
    }
  }

  /**
   The active profile is published as a pointer to the loop's own variable.  No step that leaves
   it published changes that variable, nor what a reader sees, which is its value.
   */
  lemma PublishedProfileFixed(kind: Kind, max: int, initial: Profile, list: Option<seq<Profile>>, es: seq<Event>, e: Event)
    requires Enabled(Run(Start(kind, max, initial, list), es), e)
    requires Run(Start(kind, max, initial, list), es).pub.connected
    requires Step(Run(Start(kind, max, initial, list), es), e).pub.connected
    ensures var w := Run(Start(kind, max, initial, list), es);
            var v := Step(w, e);
            && Current(w).Some? && Current(v).Some?
            && Current(v).value.profile == Current(w).value.profile
            && w.pub.active == v.pub.active == Some(Current(w).value.profile)
  {
    RunKeepsAgreement(kind, max, initial, list, es);
    RunKeepsLoops(kind, max, initial, list, es);
    var w := Run(Start(kind, max, initial, list), es);
    StepKeepsAgreement(w, e);
    StepKeepsPublishedProfile(w, e);
  }

  // ----- the tray's status

  /** In the tray the status of a live session changes exactly when a command fails. */
  lemma StatusLostByErrors(w: World, e: Event)
    requires w.kind == Tray && OneLoop(w) && Agrees(w) && Enabled(w, e)
    requires w.pub.connected && Step(w, e).pub.connected
    ensures Step(w, e).pub.status == if Fails(w, e) then StatusFailed else w.pub.status
  {
    if IsCore(e) {
      var v, es := CoreSplits(w, e);
      FailsIsFailing(w, e);
      EndsOnlyFinished(w, e);
      Unroll(v, es);
    } else if e.LoopRuns? {
      LoopBringsUp(w, e);
    }
  }

  /** A section of the loop that leaves a session published has just brought it up. */
  lemma LoopBringsUp(w: World, e: Event)
    requires OneLoop(w) && Agrees(w) && Enabled(w, e) && e.LoopRuns?
    requires Step(w, e).pub.connected
    ensures !w.pub.connected && Step(w, e).pub.status == StatusConnected
  {
    assert w.core.vpn == Some(e.id);
  }

  /** Only the loop brings a session up, and then the status shows it. */
  lemma SessionBegins(w: World, e: Event)
    requires OneLoop(w) && Agrees(w) && Enabled(w, e)
    requires !w.pub.connected && Step(w, e).pub.connected
    ensures Step(w, e).pub.status == StatusConnected
  {
    if IsCore(e) {
      var v, es := CoreSplits(w, e);
      EffectsKeepPublished(v, es);
    } else if e.LoopRuns? {
      LoopBringsUp(w, e);
    }
  }

  /** A stop has timed out since the present session began. */
  predicate StopTimedOutSinceUp(w: World, es: seq<Event>) {
    if es == [] then false
    else
      var before, e := Run(w, es[..|es| - 1]), es[|es| - 1];
      if !Enabled(before, e) then StopTimedOutSinceUp(w, es[..|es| - 1])
      else
        && before.pub.connected
        && (StopTimedOutSinceUp(w, es[..|es| - 1])
            || (e.StopTimeout? && before.core.phase.Stopping? && before.core.phase.cmd != Shutdown))
  }

  /** In every reachable state of the tray a session shows in the status exactly until a stop of it times out. */
  lemma {:induction false} TrayStatusLostByTimeouts(max: int, initial: Profile, list: Option<seq<Profile>>, es: seq<Event>)
    ensures var w := Run(Start(Tray, max, initial, list), es);
            w.pub.connected ==>
              w.pub.status == if StopTimedOutSinceUp(Start(Tray, max, initial, list), es) then StatusFailed else StatusConnected
  {
    var w0 := Start(Tray, max, initial, list);
    if es == [] {
      StartShape(Tray, max, initial, list);
    } else {
      var init, e := es[..|es| - 1], es[|es| - 1];
      TrayStatusLostByTimeouts(max, initial, list, init);
      var before := Run(w0, init);
      if Enabled(before, e) && Step(before, e).pub.connected {
        RunKeepsAgreement(Tray, max, initial, list, init);
        RunKeepsLoops(Tray, max, initial, list, init);
        if before.pub.connected {
          StatusLostByErrors(before, e);
        } else {
          SessionBegins(before, e);
        }
      }
    }
  }

  /** The context of the loop that the controller holds is done. */
  predicate HeldCancelled(w: World) {
    w.core.vpn.Some? && w.core.vpn.value < |w.loops| && w.loops[w.core.vpn.value].cancelled
  }

  /** A stop under way has cancelled the loop, and only such a stop hides a session. */
  predicate CancelsOk(w: World) {
    && (w.core.phase.Stopping? ==> HeldCancelled(w))
    && (w.pub.connected && w.pub.status != StatusConnected ==> HeldCancelled(w))
  }

  lemma EffectsKeepCancelled(v: World, es: seq<Effect>)
    requires |es| <= 2
    ensures var w := ApplyEffects(v, es);
            |v.loops| <= |w.loops| && forall i | 0 <= i < |v.loops| && v.loops[i].cancelled :: w.loops[i].cancelled
  {
    Unroll(v, es);
  }

  /** A stop that begins cancels the loop. */
  lemma CoreCancels(w: World, e: Event)
    requires OneLoop(w) && Enabled(w, e) && IsCore(e) && Step(w, e).core.phase.Stopping?
    ensures HeldCancelled(Step(w, e))
  {
    var v, es := CoreSplits(w, e);
    EffectsOnLoops(v, w.core, es, OutcomeOf(w, e));
    Unroll(v, es);
  }

  /** A cancelled loop stays cancelled as long as the controller holds it. */
  lemma CoreKeepsCancelled(w: World, e: Event)
    requires OneLoop(w) && Enabled(w, e) && IsCore(e) && HeldCancelled(w) && Step(w, e).core.vpn == w.core.vpn
    ensures HeldCancelled(Step(w, e))
  {
    var v, es := CoreSplits(w, e);
    EffectsKeepCancelled(v, es);
  }

  /** While a session is published the controller does not let go of its loop. */
  lemma HeldDuringSession(w: World, e: Event)
    requires OneLoop(w) && Agrees(w) && Enabled(w, e) && IsCore(e) && Step(w, e).pub.connected
    ensures w.pub.connected && Step(w, e).core.vpn == w.core.vpn
  {
    var v, es := CoreSplits(w, e);
    EffectsKeepPublished(v, es);
    EffectsOnLoops(v, w.core, es, OutcomeOf(w, e));
    EndsOnlyFinished(w, e);
  }

  /** A core step that hides a session is the end of a stop that timed out. */
  lemma CoreKeepsCancels(w: World, e: Event)
    requires OneLoop(w) && Agrees(w) && CancelsOk(w) && Enabled(w, e) && IsCore(e)
    ensures CancelsOk(Step(w, e))
  {
    if Step(w, e).core.phase.Stopping? {
      CoreCancels(w, e);
    }
    if HeldCancelled(w) && Step(w, e).core.vpn == w.core.vpn {
      CoreKeepsCancelled(w, e);
    }
    if Step(w, e).pub.connected {
      HeldDuringSession(w, e);
      if w.kind == Tray {
        StatusLostByErrors(w, e);
      } else {
        StepKeepsAgreement(w, e);
        CoreKeepsKind(w, e);
      }
    }
  }

  lemma CoreKeepsKind(w: World, e: Event)
    requires Enabled(w, e) && IsCore(e)
    ensures Step(w, e).kind == w.kind
  {
    var v, es := CoreSplits(w, e);
    EffectsOnLoops(v, w.core, es, OutcomeOf(w, e));
  }

  lemma StepKeepsCancels(w: World, e: Event)
    requires OneLoop(w) && Agrees(w) && CancelsOk(w) && Enabled(w, e)
    ensures CancelsOk(Step(w, e))
  {
    if IsCore(e) {
      CoreKeepsCancels(w, e);
    } else if e.LoopRuns? {
      if Step(w, e).pub.connected {
        LoopBringsUp(w, e);
      }
    }
  }

  lemma {:induction false} RunKeepsCancels(kind: Kind, max: int, initial: Profile, list: Option<seq<Profile>>, es: seq<Event>)
    ensures CancelsOk(Run(Start(kind, max, initial, list), es))
  {
    if es == [] {
      StartShape(kind, max, initial, list);
    } else {
      var init := es[..|es| - 1];
      RunKeepsCancels(kind, max, initial, list, init);
      RunKeepsAgreement(kind, max, initial, list, init);
      RunKeepsLoops(kind, max, initial, list, init);
      var before := Run(Start(kind, max, initial, list), init);
      if Enabled(before, es[|es| - 1]) {
        StepKeepsCancels(before, es[|es| - 1]);
      }
    }
  }

  // ----- a stop can always finish

  /** The sections that a loop can still run once its context is done. */
  function SectionsLeft(l: Loop): nat {
    if l.pc == AtRecheck then Rank(Top) + 1 else Rank(l.pc)
  }

  /** A section of loop id that, if it blocks in backoff, is woken by its cancelled context. */
  predicate Section(e: Event, id: nat) {
    e.LoopRuns? && e.id == id && e.wake == ContextDone && e.now != 0
  }

  function Sections(es: seq<Event>, id: nat): nat {
    if es == [] then 0 else Sections(es[..|es| - 1], id) + if Section(es[|es| - 1], id) then 1 else 0
  }

  predicate CancelledLoop(w: World, id: nat) {
    id < |w.loops| && w.loops[id].cancelled
  }

  lemma CancelledLoopRuns(w: World, e: Event, id: nat)
    requires CancelledLoop(w, id) && Enabled(w, e) && Section(e, id)
    ensures CancelledLoop(Step(w, e), id) && SectionsLeft(Step(w, e).loops[id].loop) < SectionsLeft(w.loops[id].loop)
  {
  }

  lemma CancelledLoopWaits(w: World, e: Event, id: nat)
    requires CancelledLoop(w, id) && Enabled(w, e) && (e.LoopRuns? ==> e.id != id)
    ensures CancelledLoop(Step(w, e), id) && Step(w, e).loops[id].loop.pc == w.loops[id].loop.pc
  {
    if IsCore(e) {
      var v, es := CoreSplits(w, e);
      EffectsKeepCancelled(v, es);
      EffectsOnLoops(v, w.core, es, OutcomeOf(w, e));
    }
  }

  /** Whatever else happens, every section of a cancelled loop brings it nearer to its exit. */
  lemma {:induction false} CancelledLoopEnds(w: World, es: seq<Event>, id: nat)
    requires CancelledLoop(w, id)
    requires forall e | e in es && e.LoopRuns? && e.id == id :: Section(e, id)
    ensures var v := Run(w, es);
            && CancelledLoop(v, id)
            && (v.loops[id].loop.pc.Exited? || SectionsLeft(v.loops[id].loop) + Sections(es, id) <= SectionsLeft(w.loops[id].loop))
  {
    if es != [] {
      var init, e := es[..|es| - 1], es[|es| - 1];
      CancelledLoopEnds(w, init, id);
      var before := Run(w, init);
      if Enabled(before, e) {
        if Section(e, id) {
          CancelledLoopRuns(before, e, id);
        } else {
          CancelledLoopWaits(before, e, id);
        }
      }
    }
  }

  /**
   A stop that has begun can finish: from any reachable state that waits for a loop, eleven
   sections of that loop end it, whatever their calls return and whatever else happens in between;
   and then the controller, if it still waits, goes on.
   */
  lemma StopCanFinish(kind: Kind, max: int, initial: Profile, list: Option<seq<Profile>>, es: seq<Event>, more: seq<Event>)
    requires Run(Start(kind, max, initial, list), es).core.phase.Stopping?
    requires var id := Run(Start(kind, max, initial, list), es).core.vpn;
             && (forall e | e in more && e.LoopRuns? && Some(e.id) == id :: Section(e, e.id))
             && id.Some? && Sections(more, id.value) >= 11
    ensures var w := Run(Start(kind, max, initial, list), es);
            var v := Run(w, more);
            && w.core.vpn.value < |v.loops| && v.loops[w.core.vpn.value].loop.pc.Exited?
            && (v.core.phase.Stopping? && v.core.vpn == w.core.vpn ==> Enabled(v, StopDone))
  {
    RunKeepsCancels(kind, max, initial, list, es);
    HeldLoopEnds(Run(Start(kind, max, initial, list), es), more);
  }

  lemma HeldLoopEnds(w: World, more: seq<Event>)
    requires HeldCancelled(w) && Sections(more, w.core.vpn.value) >= 11
    requires forall e | e in more && e.LoopRuns? && Some(e.id) == w.core.vpn :: Section(e, e.id)
    ensures var v := Run(w, more);
            && w.core.vpn.value < |v.loops| && v.loops[w.core.vpn.value].loop.pc.Exited?
            && (v.core.phase.Stopping? && v.core.vpn == w.core.vpn ==> Enabled(v, StopDone))
  {
    CancelledLoopEnds(w, more, w.core.vpn.value);
  }

  /** In every reachable state, a session that the status does not show is one whose loop is already cancelled. */
  lemma HiddenSessionIsCancelled(kind: Kind, max: int, initial: Profile, list: Option<seq<Profile>>, es: seq<Event>)
    ensures var w := Run(Start(kind, max, initial, list), es);
            w.pub.connected && w.pub.status != StatusConnected ==> w.kind == Tray && HeldCancelled(w)
  {
    RunKeepsCancels(kind, max, initial, list, es);
    RunKeepsAgreement(kind, max, initial, list, es);
    RunKeepsLoops(kind, max, initial, list, es);
  }

  lemma SessionComesUp(max: int, initial: Profile, list: Option<seq<Profile>>) returns (es: seq<Event>)
    ensures var w := Run(Start(Tray, max, initial, list), es);
            w.kind == Tray && w.pub.connected && w.pub.active == Some(initial) && w.core.phase == Ready && w.core.vpn.Some?
  {
    StartShape(Tray, max, initial, list);
    var w0 := Start(Tray, max, initial, list);
    es := LoopZeroRuns(w0, [], true);
    es := LoopZeroRuns(w0, es, true);
    es := LoopZeroRuns(w0, es, true);
  }

  /** Such a state is reached: a session comes up, and a stop of it times out. */
  lemma TrayHidesSession(max: int, initial: Profile, list: Option<seq<Profile>>) returns (es: seq<Event>)
    ensures var w := Run(Start(Tray, max, initial, list), es);
            w.pub.connected && w.pub.active == Some(initial) && w.pub.status == StatusFailed
  {
    var up := SessionComesUp(max, initial, list);
    var w0 := Start(Tray, max, initial, list);
    StopBegins(Run(w0, up));
    var stopping := up + [Command(Stop)];
    assert stopping[..|stopping| - 1] == up;
    StopHides(Run(w0, stopping));
    es := stopping + [StopTimeout];
    assert es[..|es| - 1] == stopping;
  }

  lemma StopBegins(w: World)
    requires w.core.phase == Ready && w.core.vpn.Some?
    ensures var v := Step(w, Command(Stop)); v.kind == w.kind && v.core.phase == Stopping(Stop) && v.pub == w.pub
  {
    var v, es := CoreSplits(w, Command(Stop));
    Unroll(v, es);
  }

  lemma StopHides(w: World)
    requires w.kind == Tray && w.core.phase == Stopping(Stop)
    ensures Step(w, StopTimeout).pub == w.pub.(status := StatusFailed)
  {
    var v, es := CoreSplits(w, StopTimeout);
    Unroll(v, es);
  }

  /** A loop that leaves without being cancelled leaves the failed status. */
  lemma UncancelledExitFails(kind: Kind, max: int, initial: Profile, list: Option<seq<Profile>>, es: seq<Event>, e: Event)
    requires Enabled(Run(Start(kind, max, initial, list), es), e) && e.LoopRuns?
    ensures var w := Run(Start(kind, max, initial, list), es);
            Step(w, e).loops[e.id].loop.pc.Exited? && !w.loops[e.id].cancelled ==>
              Step(w, e).pub.status == StatusFailed && !HasConnected(Step(w, e).loops[e.id].loop)
  {
    RunKeepsLoops(kind, max, initial, list, es);
    var w := Run(Start(kind, max, initial, list), es);
    var s := w.loops[e.id];
    assert ClientsOk(s.loop);
    if LoopStep(s.loop, w.pub, ObsOf(w, s, e.ok, e.wake, e.now), w.max).0.pc.Exited? {
      ExitLeaves(s.loop, w.pub, ObsOf(w, s, e.ok, e.wake, e.now), w.max);
    }
  }

  // ----- no lost wake-up

  /** A loop captures the newest generation before it reads the settings, so a change in between closes what it waits on. */
  predicate WakeOk(w: World, l: Loop) {
    && (l.pc in {AtSnapshot, InWait, AtRecheck} ==> l.signal <= w.core.generation)
    && (l.pc == InWait ==> w.core.settings.autoReconnect || l.signal < w.core.generation)
  }

  predicate WakesOk(w: World) {
    forall i | 0 <= i < |w.loops| :: WakeOk(w, w.loops[i].loop)
  }

  lemma LoopRunKeepsWake(w: World, s: Session, ok: bool, wake: Wake, now: int)
    requires !s.loop.pc.Exited? && WakeOk(w, s.loop)
    ensures WakeOk(w, LoopStep(s.loop, w.pub, ObsOf(w, s, ok, wake, now), w.max).0)
  {
  }

  lemma CommandKeepsWakes(w: World, e: Event)
    requires OneLoop(w) && WakesOk(w) && Enabled(w, e) && IsCore(e)
    ensures WakesOk(Step(w, e)) && Step(w, e).core.generation >= w.core.generation
  {
    var v, es := CoreSplits(w, e);
    EffectsOnLoops(v, w.core, es, OutcomeOf(w, e));
    var after := ApplyEffects(v, es);
    forall i | 0 <= i < |after.loops| ensures WakeOk(after, after.loops[i].loop) {
      assert i < |w.loops| ==> WakeOk(w, w.loops[i].loop);
    }
  }

  lemma LoopRunKeepsWakes(w: World, e: Event)
    requires WakesOk(w) && Enabled(w, e) && e.LoopRuns?
    ensures WakesOk(Step(w, e)) && Step(w, e).core == w.core
  {
    var s := w.loops[e.id];
    assert WakeOk(w, s.loop);
    LoopRunKeepsWake(w, s, e.ok, e.wake, e.now);
    var next := LoopStep(s.loop, w.pub, ObsOf(w, s, e.ok, e.wake, e.now), w.max).0;
    assert Step(w, e).loops == w.loops[e.id := s.(loop := next)];
    forall i | 0 <= i < |w.loops| ensures WakeOk(Step(w, e), Step(w, e).loops[i].loop) {
      assert WakeOk(w, w.loops[i].loop);
    }
  }

  lemma LateResetKeepsWakes(w: World, e: Event)
    requires WakesOk(w) && Enabled(w, e) && e.LateReset?
    ensures WakesOk(Step(w, e)) && Step(w, e).core == w.core
  {
    var l := w.loops[e.id].loop;
    assert WakeOk(w, l);
    var next := l.(clients := l.clients[e.client := StateIdle]);
    assert WakeOk(w, next);
    assert Step(w, e).loops == w.loops[e.id := w.loops[e.id].(loop := next)];
  }

  lemma StepKeepsWakes(w: World, e: Event)
    requires OneLoop(w) && WakesOk(w) && Enabled(w, e)
    ensures WakesOk(Step(w, e)) && Step(w, e).core.generation >= w.core.generation
  {
    match e
    case Command(_) => CommandKeepsWakes(w, e);
    case StopDone => CommandKeepsWakes(w, e);
    case StopTimeout => CommandKeepsWakes(w, e);
    case LoopRuns(_, _, _, _) => LoopRunKeepsWakes(w, e);
    case LateReset(_, _) => LateResetKeepsWakes(w, e);
    case RefreshList(_) =>
    case RootDone =>
      assert forall i | 0 <= i < |w.loops| :: WakeOk(w, w.loops[i].loop);
  }

  lemma {:induction false} RunKeepsWakes(kind: Kind, max: int, initial: Profile, list: Option<seq<Profile>>, es: seq<Event>)
    ensures WakesOk(Run(Start(kind, max, initial, list), es))
  {
    if es == [] {
      StartShape(kind, max, initial, list);
    } else {
      var init := es[..|es| - 1];
      RunKeepsWakes(kind, max, initial, list, init);
      RunKeepsLoops(kind, max, initial, list, init);
      var before := Run(Start(kind, max, initial, list), init);
      if Enabled(before, es[|es| - 1]) {
        StepKeepsWakes(before, es[|es| - 1]);
      }
    }
  }

  /**
   No lost wake-up: whenever a loop waits in backoff, automatic reconnection is on or the signal
   it waits on is already closed; and a retry only happens while automatic reconnection is on.
   */
  lemma NoLostWakeup(kind: Kind, max: int, initial: Profile, list: Option<seq<Profile>>, es: seq<Event>, e: Event)
    requires Enabled(Run(Start(kind, max, initial, list), es), e) && e.LoopRuns?
    ensures var w := Run(Start(kind, max, initial, list), es);
            var s := w.loops[e.id];
            && (s.loop.pc == InWait && !w.core.settings.autoReconnect ==>
                  Woken(s.loop, ObsOf(w, s, e.ok, SettingsChanged, e.now)) == SettingsChanged)
            && (Step(w, e).loops[e.id].loop.tries > s.loop.tries > 0 ==> w.core.settings.autoReconnect)
  {
    RunKeepsWakes(kind, max, initial, list, es);
    RunKeepsLoops(kind, max, initial, list, es);
    var w := Run(Start(kind, max, initial, list), es);
    var s := w.loops[e.id];
    assert WakeOk(w, s.loop);
    assert AttemptOk(s.loop, max);
  }

  // ----- what the commands mean, over whole runs

  predicate IsStart(m: Mark) { m.Did? && m.e.StartLoop? }
  predicate IsCancel(m: Mark) { m.Did? && m.e.CancelLoop? }

  /** A command that may start a session. */
  predicate Trigger(m: Mark) {
    m.Accepted? && (m.cmd.Switch? || m.cmd == Reconnect || (m.cmd.ChangeSettings? && !m.before.autoConnect && m.after.autoConnect))
  }

  /** The profile of the last accepted switch, or the initial one. */
  function LastSelected(h: seq<Mark>, initial: Profile): Profile {
    if h == [] then initial
    else
      var last := h[|h| - 1];
      if last.Accepted? && last.cmd.Switch? then last.cmd.profile else LastSelected(h[..|h| - 1], initial)
  }

  /** Since position k of the history only cancellations were done. */
  predicate OnlyCancelsSince(h: seq<Mark>, k: nat) {
    forall m | k < m < |h| :: IsCancel(h[m])
  }

  /** Every start but the first follows a command that asks for it, for the profile selected last. */
  predicate StartOk(h: seq<Mark>, j: nat, initial: Profile)
    requires j < |h|
  {
    && (j > 0 ==> exists k | 0 <= k < j :: Trigger(h[k]) && OnlyCancelsSince(h[..j], k))
    && h[j].Did? && h[j].e.StartLoop? && h[j].e.profile == LastSelected(h[..j], initial)
  }

  predicate HistoryOk(w: World, initial: Profile) {
    && (forall j | 0 <= j < |w.history| && IsStart(w.history[j]) :: StartOk(w.history, j, initial))
    && w.core.selected == LastSelected(w.history, initial)
    && (w.core.phase.Stopping? ==> StopPending(w, w.core.phase.cmd))
  }

  /** The stop under way belongs to the last accepted command. */
  predicate StopPending(w: World, cmd: Cmd) {
    && (cmd.Switch? ==> cmd.profile == w.core.selected)
    && exists k | 0 <= k < |w.history| ::
         && w.history[k].Accepted? && w.history[k].cmd == cmd && OnlyCancelsSince(w.history, k)
         && (cmd != Stop && cmd != Shutdown ==> Trigger(w.history[k]))
  }

  lemma NoteKeepsHistory(h: seq<Mark>, m: Mark, initial: Profile)
    requires forall j | 0 <= j < |h| && IsStart(h[j]) :: StartOk(h, j, initial)
    requires IsStart(m) ==> StartOk(h + [m], |h|, initial)
    ensures forall j | 0 <= j < |h| + 1 && IsStart((h + [m])[j]) :: StartOk(h + [m], j, initial)
    ensures LastSelected(h + [m], initial)
         == if m.Accepted? && m.cmd.Switch? then m.cmd.profile else LastSelected(h, initial)
  {
    var g := h + [m];
    assert g[..|h|] == h;
    forall j | 0 <= j < |g| && IsStart(g[j]) ensures StartOk(g, j, initial) {
      if j < |h| {
        assert g[..j] == h[..j];
        assert StartOk(h, j, initial);
      }
    }
  }

  /** A start right after its trigger, or after the trigger and the cancellation it caused. */
  lemma StartFollows(h: seq<Mark>, k: nat, id: nat, initial: Profile)
    requires k < |h| && Trigger(h[k]) && OnlyCancelsSince(h, k)
    ensures StartOk(h + [Did(StartLoop(id, LastSelected(h, initial)))], |h|, initial)
  {
    var g := h + [Did(StartLoop(id, LastSelected(h, initial)))];
    assert g[..|h|] == h;
    assert Trigger(g[k]) && OnlyCancelsSince(g[..|h|], k);
  }

  /** The effects of a command or a finished stop, noted on a history that allows the start. */
  lemma EffectsKeepHistory(v: World, c: Core, es: seq<Effect>, out: Outcome, k: nat, initial: Profile)
    requires Looks(v.kind, c, v.core, es, out)
    requires forall j | 0 <= j < |v.history| && IsStart(v.history[j]) :: StartOk(v.history, j, initial)
    requires v.core.selected == LastSelected(v.history, initial)
    requires out.Launching? ==>
               k < |v.history| && Trigger(v.history[k]) && OnlyCancelsSince(v.history, k) && out.p == v.core.selected
    requires out.Cancelling? ==> StopPending(v, v.core.phase.cmd)
    ensures HistoryOk(ApplyEffects(v, es), initial)
  {
    Unroll(v, es);
    if |es| > 0 {
      var h1 := v.history + [Did(es[0])];
      if out.Launching? {
        StartFollows(v.history, k, c.next, initial);
      }
      NoteKeepsHistory(v.history, Did(es[0]), initial);
      if |es| > 1 {
        NoteKeepsHistory(h1, Did(es[1]), initial);
      }
    }
    if out.Cancelling? {
      var cmd := v.core.phase.cmd;
      var i :| 0 <= i < |v.history| && v.history[i].Accepted? && v.history[i].cmd == cmd && OnlyCancelsSince(v.history, i)
               && (cmd != Stop && cmd != Shutdown ==> Trigger(v.history[i]));
      var h := ApplyEffects(v, es).history;
      assert h == v.history + [Did(es[0])];
      assert h[i] == v.history[i] && OnlyCancelsSince(h, i);
    }
  }

  lemma CommandKeepsHistory(w: World, e: Event, initial: Profile)
    requires OneLoop(w) && HistoryOk(w, initial) && Enabled(w, e) && e.Command?
    ensures HistoryOk(Step(w, e), initial)
  {
    var v, es := CoreSplits(w, e);
    var m, k := Accepted(e.cmd, w.core.settings, v.core.settings), |w.history|;
    NoteKeepsHistory(w.history, m, initial);
    assert v.history[k] == m && OnlyCancelsSince(v.history, k);
    EffectsKeepHistory(v, w.core, es, OutcomeOf(w, e), k, initial);
  }

  lemma StepKeepsHistory(w: World, e: Event, initial: Profile)
    requires OneLoop(w) && HistoryOk(w, initial) && Enabled(w, e)
    ensures HistoryOk(Step(w, e), initial)
  {
    if e.Command? {
      CommandKeepsHistory(w, e, initial);
    } else if IsCore(e) {
      var v, es := CoreSplits(w, e);
      var cmd := w.core.phase.cmd;
      var k :| 0 <= k < |w.history| && w.history[k].Accepted? && w.history[k].cmd == cmd && OnlyCancelsSince(w.history, k)
               && (cmd != Stop && cmd != Shutdown ==> Trigger(w.history[k]));
      EffectsKeepHistory(v, w.core, es, OutcomeOf(w, e), k, initial);
    }
  }

  lemma {:induction false} RunKeepsHistory(kind: Kind, max: int, initial: Profile, list: Option<seq<Profile>>, es: seq<Event>)
    ensures HistoryOk(Run(Start(kind, max, initial, list), es), initial)
  {
    if es == [] {
      StartShape(kind, max, initial, list);
      NoteKeepsHistory([], Did(StartLoop(0, initial)), initial);
    } else {
      var init := es[..|es| - 1];
      RunKeepsHistory(kind, max, initial, list, init);
      RunKeepsLoops(kind, max, initial, list, init);
      var before := Run(Start(kind, max, initial, list), init);
      if Enabled(before, es[|es| - 1]) {
        StepKeepsHistory(before, es[|es| - 1], initial);
      }
    }
  }

  /** The settings after the last command of a history. */
  function SettingsAt(h: seq<Mark>): ConnectionSettings {
    if h == [] then DEFAULT_SETTINGS
    else if h[|h| - 1].Accepted? then h[|h| - 1].after
    else SettingsAt(h[..|h| - 1])
  }

  /** Every command finds the settings that the one before left, and only a settings command changes them, by its patch. */
  ghost predicate Threaded(h: seq<Mark>) {
    forall j | 0 <= j < |h| && h[j].Accepted? ::
      && h[j].before == SettingsAt(h[..j])
      && Patched(h[j].before, if h[j].cmd.ChangeSettings? then h[j].cmd.patch else Patch(None, None), h[j].after)
  }

  lemma NoteKeepsThread(h: seq<Mark>, m: Mark)
    requires Threaded(h)
    requires m.Accepted? ==> m.before == SettingsAt(h)
                             && Patched(m.before, if m.cmd.ChangeSettings? then m.cmd.patch else Patch(None, None), m.after)
    ensures Threaded(h + [m]) && SettingsAt(h + [m]) == if m.Accepted? then m.after else SettingsAt(h)
  {
    var g := h + [m];
    assert g[..|h|] == h;
    assert forall j | 0 <= j < |h| :: g[..j] == h[..j] && g[j] == h[j];
  }

  lemma {:induction false} EffectsKeepThread(v: World, es: seq<Effect>)
    requires Threaded(v.history)
    ensures var w := ApplyEffects(v, es);
            Threaded(w.history) && SettingsAt(w.history) == SettingsAt(v.history) && w.core == v.core
  {
    if es != [] {
      EffectsKeepThread(v, es[..|es| - 1]);
      NoteKeepsThread(ApplyEffects(v, es[..|es| - 1]).history, Did(es[|es| - 1]));
    }
  }

  lemma StepKeepsThread(w: World, e: Event)
    requires Enabled(w, e) && Threaded(w.history) && SettingsAt(w.history) == w.core.settings
    ensures Threaded(Step(w, e).history) && SettingsAt(Step(w, e).history) == Step(w, e).core.settings
  {
    if IsCore(e) {
      var v, es := CoreSplits(w, e);
      if e.Command? {
        NoteKeepsThread(w.history, Accepted(e.cmd, w.core.settings, v.core.settings));
      }
      EffectsKeepThread(v, es);
    }
  }

  /** The settings recorded with the commands of any run are those of the machine. */
  lemma {:induction false} SettingsAreThreaded(kind: Kind, max: int, initial: Profile, list: Option<seq<Profile>>, es: seq<Event>)
    ensures var w := Run(Start(kind, max, initial, list), es); Threaded(w.history) && SettingsAt(w.history) == w.core.settings
  {
    if es == [] {
      StartShape(kind, max, initial, list);
      NoteKeepsThread([], Did(StartLoop(0, initial)));
    } else {
      SettingsAreThreaded(kind, max, initial, list, es[..|es| - 1]);
      var before := Run(Start(kind, max, initial, list), es[..|es| - 1]);
      if Enabled(before, es[|es| - 1]) {
        StepKeepsThread(before, es[|es| - 1]);
      }
    }
  }

  lemma CancelsBetween(h: seq<Mark>, k: nat, i: nat, j: nat)
    requires k < i < j <= |h| && OnlyCancelsSince(h[..j], k)
    ensures IsCancel(h[i])
  {
    assert h[..j][i] == h[i];
  }

  /**
   After a successful stop no session starts before a switch, a reconnect, or a settings command
   that finds AutoConnect off and leaves it on.
   */
  lemma NoStartAfterStop(kind: Kind, max: int, initial: Profile, list: Option<seq<Profile>>, es: seq<Event>, i: nat, j: nat)
    requires var h := Run(Start(kind, max, initial, list), es).history;
             i < j < |h| && h[i] == Did(SetStatus(StatusDisconnected)) && IsStart(h[j])
    ensures var h := Run(Start(kind, max, initial, list), es).history;
            exists k | i < k < j :: Trigger(h[k])
  {
    RunKeepsHistory(kind, max, initial, list, es);
    var h := Run(Start(kind, max, initial, list), es).history;
    assert StartOk(h, j, initial);
    StartAfterStop(h, i, j, initial);
  }

  lemma StartAfterStop(h: seq<Mark>, i: nat, j: nat, initial: Profile)
    requires i < j < |h| && h[i] == Did(SetStatus(StatusDisconnected)) && StartOk(h, j, initial)
    ensures exists k | i < k < j :: Trigger(h[k])
  {
    var k :| 0 <= k < j && Trigger(h[k]) && OnlyCancelsSince(h[..j], k);
    if k < i {
      CancelsBetween(h, k, i, j);
    }
  }

  /**
   Every session starts with the profile of the last accepted switch, or the initial one: also a
   reconnect after a switch whose stop timed out.
   */
  lemma StartsLastSelected(kind: Kind, max: int, initial: Profile, list: Option<seq<Profile>>, es: seq<Event>, j: nat)
    requires var h := Run(Start(kind, max, initial, list), es).history; j < |h| && IsStart(h[j])
    ensures var h := Run(Start(kind, max, initial, list), es).history;
            h[j].e.profile == LastSelected(h[..j], initial)
  {
    RunKeepsHistory(kind, max, initial, list, es);
    var h := Run(Start(kind, max, initial, list), es).history;
    assert StartOk(h, j, initial);
  }

  /** A settings command cancels no live loop. */
  lemma SettingsKeepSessions(kind: Kind, max: int, initial: Profile, list: Option<seq<Profile>>, es: seq<Event>, patch: Patch)
    requires Enabled(Run(Start(kind, max, initial, list), es), Command(ChangeSettings(patch)))
    ensures var w := Run(Start(kind, max, initial, list), es);
            var v := Step(w, Command(ChangeSettings(patch)));
            |v.loops| >= |w.loops| && forall i | 0 <= i < |w.loops| && !w.loops[i].loop.pc.Exited? :: v.loops[i] == w.loops[i]
  {
    RunKeepsLoops(kind, max, initial, list, es);
    var w := Run(Start(kind, max, initial, list), es);
    var e := Command(ChangeSettings(patch));
    var v, effects := CoreSplits(w, e);
    EffectsOnLoops(v, w.core, effects, OutcomeOf(w, e));
  }
}
