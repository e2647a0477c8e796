/** The connection settings shared by the controller and its reconnect loop (src/controller.go). */
module Settings {
  import opened Wrappers

  datatype ConnectionSettings = ConnectionSettings(autoConnect: bool, autoReconnect: bool)

  const DEFAULT_SETTINGS := ConnectionSettings(true, true)

  /** The partial form of POST /settings: None is an omitted setting. */
  datatype Patch = Patch(autoConnect: Option<bool>, autoReconnect: Option<bool>)

  datatype PatchError = EmptyPatch

  function Pick<T>(change: Option<T>, current: T): T {
    match change
    case None => current
    case Some(v) => v
  }

  function ApplyPatch(p: Patch, current: ConnectionSettings): Result<ConnectionSettings, PatchError> {
    if p.autoConnect.None? && p.autoReconnect.None? then Err(EmptyPatch)
    else Ok(ConnectionSettings(Pick(p.autoConnect, current.autoConnect), Pick(p.autoReconnect, current.autoReconnect)))
  }

  /** Each field is the patch's own when given, and the old one otherwise; an empty patch is refused. */
  lemma PatchIsFieldwise(p: Patch, current: ConnectionSettings, next: ConnectionSettings)
    ensures ApplyPatch(p, current) == Ok(next) <==>
              && !(p.autoConnect.None? && p.autoReconnect.None?)
              && (p.autoConnect.None? ==> next.autoConnect == current.autoConnect)
              && (p.autoConnect.Some? ==> next.autoConnect == p.autoConnect.value)
              && (p.autoReconnect.None? ==> next.autoReconnect == current.autoReconnect)
              && (p.autoReconnect.Some? ==> next.autoReconnect == p.autoReconnect.value)
  {
  }

  /** A Go channel that is only ever closed. */
  class Signal {
    var closed: bool

    constructor ()
      ensures !closed
    {
      closed := false;
    }

    /** close(ch), which panics on a closed channel. */
    method Close()
      requires !closed
      modifies this
      ensures closed
    {
      closed := true;
    }
  }

  /** connectionSettingsState.  Each method runs under the mutex. */
  class SettingsState {
    var value: ConnectionSettings
    var changed: Signal

    /** Every signal ever handed out, oldest first; the last one is `changed`. */
    ghost var issued: seq<Signal>

    /** Exactly the newest signal is open. */
    ghost predicate Valid()
      reads this, issued
    {
      && issued != []
      && issued[|issued| - 1] == changed
      && (forall i, j | 0 <= i < j < |issued| :: issued[i] != issued[j])
      && (forall i | 0 <= i < |issued| - 1 :: issued[i].closed)
      && !changed.closed
    }

    constructor (value: ConnectionSettings)
      ensures Valid() && fresh(issued) && this.value == value && |issued| == 1
    {
      this.value := value;
      var first := new Signal();
      this.changed := first;
      this.issued := [first];
    }

    method Snapshot() returns (v: ConnectionSettings)
      ensures v == value
    {
      return value;
    }

    method ChangeSignal() returns (s: Signal)
      requires Valid()
      ensures s == changed && s in issued && !s.closed
    {
      assert issued[|issued| - 1] == changed;
      return changed;
    }

    /**
     Stores the patched value, then closes the current signal and replaces it: every signal
     handed out before is closed, and none is closed twice.
     */
    method Update(patch: Patch) returns (r: Result<ConnectionSettings, PatchError>)
      requires Valid()
      modifies this, changed
      ensures Valid()
      ensures r == old(ApplyPatch(patch, value))
      ensures r.Err? <==> patch.autoConnect.None? && patch.autoReconnect.None?
      ensures r.Ok? ==> r.value.autoConnect == match patch.autoConnect case Some(v) => v case None => old(value).autoConnect
      ensures r.Ok? ==> r.value.autoReconnect == match patch.autoReconnect case Some(v) => v case None => old(value).autoReconnect
      ensures r.Err? ==> value == old(value) && changed == old(changed) && issued == old(issued)
      ensures r.Ok? ==> value == r.value && fresh(changed) && issued == old(issued) + [changed]
      ensures r.Ok? ==> forall s | s in old(issued) :: s.closed
    {
      var next := ApplyPatch(patch, value);
      if next.Err? {
        return next;
      }
      value := next.value;
      changed.Close();
      changed := new Signal();
      issued := issued + [changed];
      return next;
    }
  }
}
