/**
 The serialized controller: one machine, implemented by the daemon (src/daemon.go) and again by
 the tray (src/tray_darwin.go).  Effects on the rest of the program are listed in order.
 */
module Controller {
  import opened Wrappers
  import opened Profiles
  import opened Settings
  import opened Reconnect

  datatype Kind = Daemon | Tray

  datatype Cmd =
    | Switch(profile: Profile)
    | Stop
    | Reconnect
    | ChangeSettings(patch: Patch)
    | Shutdown // the root context is done

  datatype Phase = Ready | Stopping(cmd: Cmd) | Ended

  /** vpn is the loop whose cancel function the controller keeps; next numbers the next loop. */
  datatype Core = Core(phase: Phase, vpn: Option<nat>, next: nat, selected: Profile,
                       settings: ConnectionSettings, generation: nat)

  datatype Effect =
    | CancelLoop(id: nat)
    | StartLoop(id: nat, profile: Profile)
    | SetStatus(status: Status)
    | Reply(ok: bool)

  // ----- the machine

  function Launch(c: Core, p: Profile): (Core, seq<Effect>) {
    (c.(vpn := Some(c.next), next := c.next + 1), [StartLoop(c.next, p)])
  }

  /** The rest of a command once stop() has returned. */
  function Complete(kind: Kind, c: Core, cmd: Cmd, ok: bool): (Core, seq<Effect>) {
    if cmd == Shutdown then (c.(phase := Ended, vpn := if ok then None else c.vpn), [])
    else if !ok then
      (c.(phase := Ready), (if kind == Tray then [SetStatus(StatusFailed)] else []) + [Reply(false)])
    else
      var idle := c.(phase := Ready, vpn := None);
      if cmd == Stop then (idle, [SetStatus(StatusDisconnected), Reply(true)])
      else
        var (next, launch) := Launch(idle, if cmd.Switch? then cmd.profile else c.selected);
        (next, launch + [Reply(true)])
  }

  /** stop() cancels the loop and waits; with no loop it succeeds at once. */
  function StopThen(kind: Kind, c: Core, cmd: Cmd): (Core, seq<Effect>) {
    if c.vpn.None? then Complete(kind, c, cmd, true)
    else (c.(phase := Stopping(cmd)), [CancelLoop(c.vpn.value)])
  }

  /** The command switches AutoConnect from off to on. */
  predicate TurnsOn(c: Core, cmd: Cmd) {
    cmd.ChangeSettings? && ApplyPatch(cmd.patch, c.settings).Ok?
    && !c.settings.autoConnect && ApplyPatch(cmd.patch, c.settings).value.autoConnect
  }

  /** finished: the done channel of the loop is already closed. */
  function Accept(kind: Kind, c: Core, cmd: Cmd, finished: bool): (Core, seq<Effect>) {
    match cmd
    case Switch(p) => StopThen(kind, c.(selected := p), cmd)
    case ChangeSettings(patch) =>
      (match ApplyPatch(patch, c.settings)
       case Err(_) => (c, (if kind == Tray then [SetStatus(StatusFailed)] else []) + [Reply(false)])
       case Ok(next) =>
         var changed := c.(settings := next, generation := c.generation + 1);
         if TurnsOn(c, cmd) && (c.vpn.None? || finished) then StopThen(kind, changed, cmd)
         else (changed, [Reply(true)]))
    case _ => StopThen(kind, c, cmd)
  }

  /** A whole command, given how its stop turned out. */
  function Handled(kind: Kind, c: Core, cmd: Cmd, finished: bool, stopOk: bool): (Core, seq<Effect>) {
    var (now, first) := Accept(kind, c, cmd, finished);
    if now.phase.Stopping? then
      var (after, rest) := Complete(kind, now, cmd, stopOk);
      (after, first + rest)
    else (now, first)
  }

  /** A switch, stop or reconnect, written out. */
  lemma HandledRestart(kind: Kind, c: Core, cmd: Cmd, finished: bool, stopOk: bool)
    requires c.phase == Ready && !cmd.ChangeSettings? && !cmd.Shutdown?
    ensures var (core, es) := Handled(kind, c, cmd, finished, stopOk);
            var chosen := if cmd.Switch? then c.(selected := cmd.profile) else c;
            var cancel := if c.vpn.Some? then [CancelLoop(c.vpn.value)] else [];
            if c.vpn.Some? && !stopOk then
              core == chosen && es == cancel + (if kind == Tray then [SetStatus(StatusFailed)] else []) + [Reply(false)]
            else if cmd == Stop then
              core == c.(vpn := None) && es == cancel + [SetStatus(StatusDisconnected)] + [Reply(true)]
            else
              && core == chosen.(vpn := Some(c.next), next := c.next + 1)
              && es == cancel + [StartLoop(c.next, chosen.selected)] + [Reply(true)]
  {
  }

  /** The end of the program: the loop is cancelled and awaited, and nothing is started or answered any more. */
  lemma HandledShutdown(kind: Kind, c: Core, finished: bool, stopOk: bool)
    requires c.phase == Ready
    ensures var (core, es) := Handled(kind, c, Shutdown, finished, stopOk);
            && core == c.(phase := Ended, vpn := if stopOk then None else c.vpn)
            && es == if c.vpn.Some? then [CancelLoop(c.vpn.value)] else []
  {
  }

  /** The patched settings, field by field. */
  ghost predicate Patched(before: ConnectionSettings, patch: Patch, after: ConnectionSettings) {
    && after.autoConnect == (match patch.autoConnect case Some(v) => v case None => before.autoConnect)
    && after.autoReconnect == (match patch.autoReconnect case Some(v) => v case None => before.autoReconnect)
  }

  /**
   A settings command, written out by the settings before and after it.  A session starts exactly
   when AutoConnect went from off to on and no session is left: none is held, or the held one has
   finished and stop() returned in time.
   */
  lemma HandledSettings(kind: Kind, c: Core, patch: Patch, finished: bool, stopOk: bool)
    requires c.phase == Ready
    ensures var (d, es) := Handled(kind, c, ChangeSettings(patch), finished, stopOk);
            var failed := (if kind == Tray then [SetStatus(StatusFailed)] else []) + [Reply(false)];
            var turnedOn := !c.settings.autoConnect && d.settings.autoConnect;
            && ((exists e | e in es :: e.StartLoop?) <==> turnedOn && (c.vpn.None? || (finished && stopOk)))
            && if patch.autoConnect.None? && patch.autoReconnect.None? then d == c && es == failed
               else
                 && Patched(c.settings, patch, d.settings) && d.generation == c.generation + 1
                 && d.phase == Ready && d.selected == c.selected
                 && if !turnedOn || (c.vpn.Some? && !finished) then
                      d.vpn == c.vpn && d.next == c.next && es == [Reply(true)]
                    else if c.vpn.Some? && !stopOk then
                      d.vpn == c.vpn && d.next == c.next && es == [CancelLoop(c.vpn.value)] + failed
                    else
                      && d.vpn == Some(c.next) && d.next == c.next + 1
                      && es == (if c.vpn.Some? then [CancelLoop(c.vpn.value)] else []) + [StartLoop(c.next, c.selected), Reply(true)]
  {
    var (d, es) := Handled(kind, c, ChangeSettings(patch), finished, stopOk);
    if !c.settings.autoConnect && d.settings.autoConnect && (c.vpn.None? || (finished && stopOk)) {
      assert StartLoop(c.next, c.selected) in es;
    }
  }

  function Boot(initial: Profile): (Core, seq<Effect>) {
    var c := Core(Ready, None, 0, initial, DEFAULT_SETTINGS, 0);
    if DEFAULT_SETTINGS.autoConnect then Launch(c, initial) else (c, [SetStatus(StatusDisconnected)])
  }

  // ----- the two implementations

  /** The goroutine of runDaemon. */
  class DaemonController {
    var vpnCancel: Option<nat>
    var done: Option<nat>
    var selected: Profile
    var settings: SettingsState
    var next: nat
    ghost var effects: seq<Effect>

    ghost predicate Valid()
      reads this, settings, settings.issued
    {
      settings.Valid() && done == vpnCancel
    }

    ghost function View(): Core
      reads this, settings
    {
      Core(Ready, vpnCancel, next, selected, settings.value, if |settings.issued| > 0 then |settings.issued| - 1 else 0)
    }

    constructor (initial: Profile)
      ensures Valid() && (View(), effects) == Boot(initial)
    {
      var s := new SettingsState(DEFAULT_SETTINGS);
      settings := s;
      selected := initial;
      vpnCancel, done, next, effects := Some(0), Some(0), 1, [StartLoop(0, initial)];
    }

    method Start(p: Profile)
      modifies this`vpnCancel, this`done, this`next, this`effects
      ensures vpnCancel == done == Some(old(next)) && next == old(next) + 1
      ensures effects == old(effects) + [StartLoop(old(next), p)]
    {
      effects := effects + [StartLoop(next, p)];
      vpnCancel := Some(next);
      done := Some(next);
      next := next + 1;
    }

    /** inTime: the loop's done channel closes before the timeout. */
    method StopLoop(inTime: bool) returns (ok: bool)
      modifies this`vpnCancel, this`done, this`effects
      ensures old(vpnCancel).None? ==> ok && vpnCancel.None? && done == old(done) && effects == old(effects)
      ensures old(vpnCancel).Some? ==>
                && ok == inTime
                && effects == old(effects) + [CancelLoop(old(vpnCancel.value))]
                && (ok ==> vpnCancel.None? && done.None?)
                && (!ok ==> vpnCancel == old(vpnCancel) && done == old(done))
    {
      if vpnCancel == None {
        return true;
      }
      effects := effects + [CancelLoop(vpnCancel.value)];
      if inTime {
        vpnCancel := None;
        done := None;
        return true;
      }
      return false;
    }

    /** The settings command: only switching AutoConnect on, with no session left, starts one. */
    method Apply(patch: Patch, finished: bool, inTime: bool) returns (ok: bool)
      requires Valid()
      modifies this, settings, settings.changed
      ensures Valid() && settings == old(settings)
      ensures var (core, es) := Handled(Daemon, old(View()), ChangeSettings(patch), finished, inTime);
              View() == core && es != [] && es[|es| - 1] == Reply(ok) && effects == old(effects) + es[..|es| - 1]
    {
      var previous := settings.Snapshot();
      var updated := settings.Update(patch);
      if updated.Err? {
        return false;
      }
      if !previous.autoConnect && updated.value.autoConnect {
        var over := vpnCancel == None;
        if !over && done != None {
          over := finished;
        }
        if over {
          ok := StopLoop(inTime);
          if ok {
            Start(selected);
          }
          return;
        }
      }
      return true;
    }

    /** One turn of the command loop. */
    method Handle(cmd: Cmd, finished: bool, inTime: bool)
      requires Valid() && !cmd.Shutdown?
      modifies this, settings, settings.changed
      ensures Valid() && settings == old(settings)
      ensures var (core, es) := Handled(Daemon, old(View()), cmd, finished, inTime);
              View() == core && effects == old(effects) + es
    {
      var ok := true;
      if !cmd.ChangeSettings? {
        HandledRestart(Daemon, View(), cmd, finished, inTime);
      }
      match cmd {
        case Switch(p) =>
          selected := p;
          ok := StopLoop(inTime);
          if ok {
            Start(p);
          }
        case Stop =>
          ok := StopLoop(inTime);
          if ok {
            effects := effects + [SetStatus(StatusDisconnected)];
          }
        case Reconnect =>
          ok := StopLoop(inTime);
          if ok {
            Start(selected);
          }
        case ChangeSettings(patch) =>
          ok := Apply(patch, finished, inTime);
      }
      effects := effects + [Reply(ok)];
    }
  }

  /** The goroutine inside trayOnReady; the current profile is a pointer shared with the menu. */
  class TrayController {
    var vpnCancel: Option<nat>
    var done: Option<nat>
    var currentProfile: Option<Profile>
    var settings: SettingsState
    var next: nat
    ghost var effects: seq<Effect>

    ghost predicate Valid()
      reads this, settings, settings.issued
    {
      settings.Valid() && done == vpnCancel && currentProfile.Some?
    }

    ghost function View(): Core
      requires currentProfile.Some?
      reads this, settings
    {
      Core(Ready, vpnCancel, next, currentProfile.value, settings.value,
           if |settings.issued| > 0 then |settings.issued| - 1 else 0)
    }

    constructor (initial: Profile)
      ensures Valid() && (View(), effects) == Boot(initial)
    {
      var s := new SettingsState(DEFAULT_SETTINGS);
      settings := s;
      currentProfile := Some(initial);
      vpnCancel, done, next, effects := Some(0), Some(0), 1, [StartLoop(0, initial)];
    }

    method Start(p: Profile)
      modifies this`vpnCancel, this`done, this`next, this`effects, this`currentProfile
      ensures vpnCancel == done == Some(old(next)) && next == old(next) + 1 && currentProfile == Some(p)
      ensures effects == old(effects) + [StartLoop(old(next), p)]
    {
      currentProfile := Some(p);
      effects := effects + [StartLoop(next, p)];
      vpnCancel := Some(next);
      done := Some(next);
      next := next + 1;
    }

    method StopLoop(inTime: bool) returns (ok: bool)
      modifies this`vpnCancel, this`done, this`effects
      ensures old(vpnCancel).None? ==> ok && vpnCancel.None? && done == old(done) && effects == old(effects)
      ensures old(vpnCancel).Some? ==>
                && ok == inTime
                && effects == old(effects) + [CancelLoop(old(vpnCancel.value))]
                && (ok ==> vpnCancel.None? && done.None?)
                && (!ok ==> vpnCancel == old(vpnCancel) && done == old(done))
    {
      if vpnCancel == None {
        return true;
      }
      effects := effects + [CancelLoop(vpnCancel.value)];
      if inTime {
        vpnCancel := None;
        done := None;
        return true;
      }
      return false;
    }

    /** The settings command: only switching AutoConnect on, with no session left, starts one. */
    method Apply(patch: Patch, finished: bool, inTime: bool) returns (ok: bool)
      requires Valid()
      modifies this, settings, settings.changed
      ensures Valid() && settings == old(settings)
      ensures var (core, es) := Handled(Daemon, old(View()), ChangeSettings(patch), finished, inTime);
              View() == core && es != [] && es[|es| - 1] == Reply(ok) && effects == old(effects) + es[..|es| - 1]
    {
      var previous := settings.Snapshot();
      var updated := settings.Update(patch);
      if updated.Err? {
        return false;
      }
      if !previous.autoConnect && updated.value.autoConnect {
        var over := vpnCancel == None;
        if !over && done != None {
          over := finished;
        }
        if over {
          ok := StopLoop(inTime);
          if ok {
            var profile := currentProfile;
            if profile != None {
              Start(profile.value);
            }
          }
          return;
        }
      }
      return true;
    }

    /** The command itself: as in the daemon, up to the reply. */
    method Execute(cmd: Cmd, finished: bool, inTime: bool) returns (ok: bool)
      requires Valid() && !cmd.Shutdown?
      modifies this, settings, settings.changed
      ensures Valid() && settings == old(settings)
      ensures var (core, es) := Handled(Daemon, old(View()), cmd, finished, inTime);
              View() == core && es != [] && es[|es| - 1] == Reply(ok) && effects == old(effects) + es[..|es| - 1]
    {
      ok := true;
      if !cmd.ChangeSettings? {
        HandledRestart(Daemon, View(), cmd, finished, inTime);
      }
      match cmd {
        case Switch(p) =>
          currentProfile := Some(p);
          ok := StopLoop(inTime);
          if ok {
            Start(p);
          }
        case Stop =>
          ok := StopLoop(inTime);
          if ok {
            effects := effects + [SetStatus(StatusDisconnected)];
          }
        case Reconnect =>
          var cp := currentProfile;
          if cp != None {
            ok := StopLoop(inTime);
            if ok {
              Start(cp.value);
            }
          }
        case ChangeSettings(patch) =>
          ok := Apply(patch, finished, inTime);
      }
    }

    /** One turn of the command loop. */
    method Handle(cmd: Cmd, finished: bool, inTime: bool)
      requires Valid() && !cmd.Shutdown?
      modifies this, settings, settings.changed
      ensures Valid() && settings == old(settings)
      ensures var (core, es) := Handled(Tray, old(View()), cmd, finished, inTime);
              View() == core && effects == old(effects) + es
    {
      ghost var before := View();
      var ok := Execute(cmd, finished, inTime);
      TrayReplies(before, cmd, finished, inTime, ok);
      if !ok {
        effects := effects + [SetStatus(StatusFailed)];
      }
      effects := effects + [Reply(ok)];
    }
  }

  /** On an error the tray first reports the failed status; nothing else distinguishes the two. */
  predicate SameButStatus(ds: seq<Effect>, ts: seq<Effect>) {
    && (forall i | 0 <= i < |ds| :: ds[i] != SetStatus(StatusFailed))
    && ts == if ds != [] && ds[|ds| - 1] == Reply(false)
             then ds[..|ds| - 1] + [SetStatus(StatusFailed), Reply(false)] else ds
  }

  lemma CompleteSame(c: Core, cmd: Cmd, ok: bool)
    ensures var (d, ds) := Complete(Daemon, c, cmd, ok);
            var (t, ts) := Complete(Tray, c, cmd, ok);
            d == t && SameButStatus(ds, ts) && (cmd != Shutdown ==> ds != [])
  {
    if cmd != Shutdown && !ok {
      var (d, ds) := Complete(Daemon, c, cmd, ok);
      var (t, ts) := Complete(Tray, c, cmd, ok);
      assert ds == [Reply(false)] && ds[..0] == [];
      assert ts == [SetStatus(StatusFailed), Reply(false)];
    }
  }

  lemma SameAfterPrefix(first: seq<Effect>, ds: seq<Effect>, ts: seq<Effect>)
    requires SameButStatus(ds, ts) && SameButStatus(first, first)
    ensures SameButStatus(first + ds, first + ts)
  {
    var all := first + ds;
    if ds != [] {
      assert all[|all| - 1] == ds[|ds| - 1];
      assert all[..|all| - 1] == first + ds[..|ds| - 1];
    } else {
      assert all == first;
    }
  }

  lemma StopThenSame(c: Core, cmd: Cmd)
    ensures var (d, ds) := StopThen(Daemon, c, cmd);
            var (t, ts) := StopThen(Tray, c, cmd);
            && d == t && SameButStatus(ds, ts)
            && (c.vpn.Some? ==> ds == ts)
            && (c.vpn.None? && !c.phase.Stopping? ==> !d.phase.Stopping?)
  {
    CompleteSame(c, cmd, true);
  }

  lemma AcceptSame(c: Core, cmd: Cmd, finished: bool)
    ensures var (d, ds) := Accept(Daemon, c, cmd, finished);
            var (t, ts) := Accept(Tray, c, cmd, finished);
            && d == t && SameButStatus(ds, ts)
            && (d.phase.Stopping? && !c.phase.Stopping? ==> ds == ts)
  {
    match cmd
    case Switch(p) => StopThenSame(c.(selected := p), cmd);
    case ChangeSettings(patch) =>
      if ApplyPatch(patch, c.settings).Ok? {
        StopThenSame(c.(settings := ApplyPatch(patch, c.settings).value, generation := c.generation + 1), cmd);
      } else {
        assert Accept(Daemon, c, cmd, finished).1 == [Reply(false)];
        assert [Reply(false)][..0] == [];
        assert Accept(Tray, c, cmd, finished).1 == [SetStatus(StatusFailed), Reply(false)];
      }
    case _ => StopThenSame(c, cmd);
  }

  lemma TrayReplies(c: Core, cmd: Cmd, finished: bool, inTime: bool, ok: bool)
    requires c.phase == Ready
    requires var ds := Handled(Daemon, c, cmd, finished, inTime).1; ds != [] && ds[|ds| - 1] == Reply(ok)
    ensures var (d, ds) := Handled(Daemon, c, cmd, finished, inTime);
            var (t, ts) := Handled(Tray, c, cmd, finished, inTime);
            d == t && ts == ds[..|ds| - 1] + (if ok then [] else [SetStatus(StatusFailed)]) + [Reply(ok)]
  {
    SameMachine(c, cmd, finished, inTime);
  }

  /** Daemon and tray run the same machine, apart from the status on an error. */
  lemma SameMachine(c: Core, cmd: Cmd, finished: bool, inTime: bool)
    requires c.phase == Ready
    ensures var (d, ds) := Handled(Daemon, c, cmd, finished, inTime);
            var (t, ts) := Handled(Tray, c, cmd, finished, inTime);
            d == t && SameButStatus(ds, ts)
  {
    AcceptSame(c, cmd, finished);
    var (now, first) := Accept(Daemon, c, cmd, finished);
    if now.phase.Stopping? {
      CompleteSame(now, cmd, inTime);
      SameAfterPrefix(first, Complete(Daemon, now, cmd, inTime).1, Complete(Tray, now, cmd, inTime).1);
    }
  }
}
