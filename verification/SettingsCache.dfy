/**
 The tray's cache of the daemon's settings (src/tray_client_darwin.go, daemonSettingsUpdater):
 toggles hold the mutex across their request, polls only store when nothing else did meanwhile.
 */
module SettingsCache {
  import opened Wrappers
  import opened Settings

  /** Versions are unsigned 64-bit numbers. */
  const WORD := 0x1_0000_0000_0000_0000

  datatype Field = AutoConnect | AutoReconnect

  datatype Cache = Cache(current: ConnectionSettings, version: nat)

  function ValueOf(s: ConnectionSettings, f: Field): bool {
    match f
    case AutoConnect => s.autoConnect
    case AutoReconnect => s.autoReconnect
  }

  /** The patch that switches one field of what the cache shows. */
  function TogglePatch(s: ConnectionSettings, f: Field): Patch {
    match f
    case AutoConnect => Patch(Some(!s.autoConnect), None)
    case AutoReconnect => Patch(None, Some(!s.autoReconnect))
  }

  function Stored(c: Cache, s: ConnectionSettings): Cache {
    Cache(s, (c.version + 1) % WORD)
  }

  // ----- the class; every method runs under the mutex

  class DaemonSettingsUpdater {
    var current: ConnectionSettings
    var version: nat

    ghost predicate Valid()
      reads this
    {
      version < WORD
    }

    ghost function View(): Cache
      reads this
    {
      Cache(current, version)
    }

    constructor ()
      ensures Valid() && View() == Cache(DEFAULT_SETTINGS, 0)
    {
      current := DEFAULT_SETTINGS;
      version := 0;
    }

    /** answer is what the daemon replies to a patch; an error leaves cache and version alone. */
    method Toggle<E>(f: Field, answer: Patch -> Result<ConnectionSettings, E>) returns (failure: Option<E>)
      requires Valid()
      modifies this
      ensures Valid()
      ensures var patch := if f == AutoConnect then Patch(Some(!old(current).autoConnect), None)
                           else Patch(None, Some(!old(current).autoReconnect));
              match answer(patch)
              case Ok(updated) => failure.None? && current == updated && version == if old(version) == WORD - 1 then 0 else old(version) + 1
              case Err(e) => failure == Some(e) && current == old(current) && version == old(version)
      ensures match answer(TogglePatch(old(current), f))
              case Ok(updated) => View() == Stored(old(View()), updated)
              case Err(e) => View() == old(View())
    {
      var patch := Patch(None, None);
      match f {
        case AutoConnect => patch := patch.(autoConnect := Some(!current.autoConnect));
        case AutoReconnect => patch := patch.(autoReconnect := Some(!current.autoReconnect));
      }
      var updated := answer(patch);
      if updated.Err? {
        return Some(updated.error);
      }
      current := updated.value;
      version := (version + 1) % WORD;
      return None;
    }

    method Set(settings: ConnectionSettings)
      requires Valid()
      modifies this
      ensures Valid() && View() == Stored(old(View()), settings)
      ensures current == settings && version == if old(version) == WORD - 1 then 0 else old(version) + 1
    {
      current := settings;
      version := (version + 1) % WORD;
    }

    method VersionAtStart() returns (v: nat)
      ensures v == View().version
    {
      return version;
    }

    method SetIfVersion(v: nat, settings: ConnectionSettings) returns (ok: bool)
      requires Valid()
      modifies this
      ensures Valid() && ok == (old(version) == v)
      ensures ok ==> current == settings && version == if v == WORD - 1 then 0 else v + 1
      ensures !ok ==> current == old(current) && version == old(version)
    {
      if version != v {
        return false;
      }
      current := settings;
      version := (version + 1) % WORD;
      return true;
    }
  }

  // ----- toggles without other writers

  /** The toggles of fs one after the other, on a cache and the daemon's settings. */
  function Toggles(c: Cache, daemon: ConnectionSettings, fs: seq<Field>): (Cache, ConnectionSettings) {
    if fs == [] then (c, daemon)
    else
      var (before, d) := Toggles(c, daemon, fs[..|fs| - 1]);
      match ApplyPatch(TogglePatch(before.current, fs[|fs| - 1]), d)
      case Ok(updated) => (Stored(before, updated), updated)
      case Err(_) => (before, d)
  }

  function CountOf(fs: seq<Field>, f: Field): nat {
    if fs == [] then 0 else CountOf(fs[..|fs| - 1], f) + if fs[|fs| - 1] == f then 1 else 0
  }

  /** Rapid toggles are not lost: each field ends switched exactly when it was toggled an odd number of times. */
  lemma {:induction false} TogglesAlternate(c: Cache, fs: seq<Field>, f: Field)
    ensures var (cache, daemon) := Toggles(c, c.current, fs);
            && cache.current == daemon
            && ValueOf(daemon, f) == (ValueOf(c.current, f) != (CountOf(fs, f) % 2 == 1))
  {
    if fs != [] {
      TogglesAlternate(c, fs[..|fs| - 1], f);
    }
  }

  // ----- the protocol: one tray, any number of polls and other writers

  /** Where in the daemon's history a reply read its two fields; they are read one after the other. */
  datatype Reads = Reads(connect: Option<nat>, reconnect: Option<nat>)

  const UNREAD := Reads(None, None)

  /** A toggle holds the mutex from start to end. */
  datatype Toggling = Free | Holding(field: Field, patch: Patch, appliedAt: Option<nat>, seen: Reads)

  /** began counts the stores before the poll took its version. */
  datatype Poll = Poll(version: nat, began: nat, seen: Reads, done: bool)

  /**
   The daemon's settings so far, newest last, and the tray.  connectAt and reconnectAt say which
   of them each cached field came from, with -1 for the built-in default; stores counts stores.
   */
  datatype World = World(
    history: seq<ConnectionSettings>, cache: Cache, connectAt: int, reconnectAt: int, stores: nat,
    toggling: Toggling, polls: seq<Poll>)

  datatype Event =
    | OtherWriter(next: ConnectionSettings)
    | PollBegins
    | PollReads(id: nat)
    | PollEnds(id: nat)
    | ToggleBegins(field: Field)
    | ToggleApplied
    | ToggleReads
    | ToggleSucceeds
    | ToggleFails

  function Complete(r: Reads): bool {
    r.connect.Some? && r.reconnect.Some?
  }

  function ReadNext(r: Reads, now: nat): Reads {
    if r.connect.None? then r.(connect := Some(now)) else r.(reconnect := Some(now))
  }

  /** The two fields at two positions of the history. */
  function Pair(history: seq<ConnectionSettings>, connectAt: int, reconnectAt: int): ConnectionSettings
    requires -1 <= connectAt < |history| && -1 <= reconnectAt < |history|
  {
    ConnectionSettings(
      if connectAt == -1 then DEFAULT_SETTINGS.autoConnect else history[connectAt].autoConnect,
      if reconnectAt == -1 then DEFAULT_SETTINGS.autoReconnect else history[reconnectAt].autoReconnect)
  }

  function Reply(w: World, r: Reads): ConnectionSettings
    requires Complete(r) && r.connect.value < |w.history| && r.reconnect.value < |w.history|
  {
    Pair(w.history, r.connect.value, r.reconnect.value)
  }

  predicate ReadsInside(w: World, r: Reads) {
    && (r.connect.Some? ==> r.connect.value < |w.history|)
    && (r.reconnect.Some? ==> r.connect.Some? && r.connect.value <= r.reconnect.value < |w.history|)
  }

  /** The tray starts with the reply to its first request, or with the defaults when that failed. */
  function Start(history: seq<ConnectionSettings>, first: Option<(nat, nat)>): World
    requires history != [] && (first.Some? ==> first.value.0 <= first.value.1 < |history|)
  {
    var c := Cache(DEFAULT_SETTINGS, 0);
    match first
    case None => World(history, c, -1, -1, 0, Free, [])
    case Some(at) => World(history, Stored(c, Pair(history, at.0, at.1)), at.0, at.1, 1, Free, [])
  }

  predicate Enabled(w: World, e: Event) {
    match e
    case OtherWriter(_) => true
    case PollBegins => w.toggling.Free?
    case PollReads(id) => id < |w.polls| && !w.polls[id].done && !Complete(w.polls[id].seen) && w.history != []
    case PollEnds(id) =>
      w.toggling.Free? && id < |w.polls| && !w.polls[id].done && Complete(w.polls[id].seen) && ReadsInside(w, w.polls[id].seen)
    case ToggleBegins(_) => w.toggling.Free?
    case ToggleApplied => w.toggling.Holding? && w.toggling.appliedAt.None? && w.history != []
    case ToggleReads => w.toggling.Holding? && w.toggling.appliedAt.Some? && !Complete(w.toggling.seen) && w.history != []
    case ToggleSucceeds => w.toggling.Holding? && Complete(w.toggling.seen) && ReadsInside(w, w.toggling.seen)
    case ToggleFails => w.toggling.Holding? // before or after the daemon applied the patch
  }

  /** Stores a reply: the cache, the positions it came from and the count move together. */
  function StoreReply(w: World, r: Reads): World
    requires Complete(r) && ReadsInside(w, r)
  {
    w.(cache := Stored(w.cache, Reply(w, r)), connectAt := r.connect.value, reconnectAt := r.reconnect.value,
       stores := w.stores + 1)
  }

  function Step(w: World, e: Event): World
    requires Enabled(w, e)
  {
    match e
    case OtherWriter(next) => w.(history := w.history + [next])
    case PollBegins => w.(polls := w.polls + [Poll(w.cache.version, w.stores, UNREAD, false)])
    case PollReads(id) =>
      var p := w.polls[id];
      w.(polls := w.polls[id := p.(seen := ReadNext(p.seen, |w.history| - 1))])
    case PollEnds(id) =>
      var p := w.polls[id];
      var ended := w.(polls := w.polls[id := p.(done := true)]);
      if w.cache.version == p.version then StoreReply(ended, p.seen) else ended
    case ToggleBegins(f) => w.(toggling := Holding(f, TogglePatch(w.cache.current, f), None, UNREAD))
    case ToggleApplied =>
      (match ApplyPatch(w.toggling.patch, w.history[|w.history| - 1])
       case Ok(next) => w.(history := w.history + [next], toggling := w.toggling.(appliedAt := Some(|w.history|)))
       case Err(_) => w.(toggling := Free))
    case ToggleReads => w.(toggling := w.toggling.(seen := ReadNext(w.toggling.seen, |w.history| - 1)))
    case ToggleSucceeds => StoreReply(w, w.toggling.seen).(toggling := Free)
    case ToggleFails => w.(toggling := Free)
  }

  function Run(w: World, es: seq<Event>): World {
    if es == [] then w
    else
      var before := Run(w, es[..|es| - 1]);
      if Enabled(before, es[|es| - 1]) then Step(before, es[|es| - 1]) else before
  }

  // ----- the invariant

  /** The reads are not older than what the cache shows. */
  predicate NotOlder(w: World, r: Reads) {
    (r.connect.Some? ==> r.connect.value >= w.connectAt) && (r.reconnect.Some? ==> r.reconnect.value >= w.reconnectAt)
  }

  predicate PollOk(w: World, p: Poll) {
    && ReadsInside(w, p.seen)
    && p.began <= w.stores && p.version == p.began % WORD
    && (p.began == w.stores ==> NotOlder(w, p.seen))
  }

  /** The patch would change nothing. */
  predicate Carries(s: ConnectionSettings, p: Patch) {
    ApplyPatch(p, s) == Ok(s)
  }

  predicate ToggleOk(w: World) {
    w.toggling.Holding? ==>
      && ReadsInside(w, w.toggling.seen)
      && NotOlder(w, w.toggling.seen)
      && (w.toggling.appliedAt.Some? ==>
            w.toggling.appliedAt.value < |w.history| && Carries(w.history[w.toggling.appliedAt.value], w.toggling.patch))
      && (w.toggling.seen.connect.Some? ==>
            w.toggling.appliedAt.Some? && w.toggling.appliedAt.value <= w.toggling.seen.connect.value)
  }

  predicate CacheOk(w: World) {
    && w.history != []
    && -1 <= w.connectAt <= w.reconnectAt < |w.history|
    && w.cache.current == Pair(w.history, w.connectAt, w.reconnectAt)
    && w.cache.version == w.stores % WORD
  }

  predicate Inv(w: World) {
    CacheOk(w) && ToggleOk(w) && forall i | 0 <= i < |w.polls| :: PollOk(w, w.polls[i])
  }

  /** Each field moves forwards in the daemon's history, or stays. */
  predicate Forwards(w: World, v: World) {
    w.connectAt <= v.connectAt && w.reconnectAt <= v.reconnectAt && w.stores <= v.stores
  }

  lemma ModEqual(a: nat, b: nat)
    requires a <= b
    ensures a % WORD == b % WORD <==> (b - a) % WORD == 0
    ensures b - a < WORD ==> ((b - a) % WORD == 0 <==> a == b)
  {
  }

  lemma ModNext(a: nat)
    ensures (a % WORD + 1) % WORD == (a + 1) % WORD
  {
    assert (a + 1) % WORD == if a % WORD == WORD - 1 then 0 else a % WORD + 1;
  }

  lemma StoreKeepsInv(w: World, r: Reads)
    requires Inv(w) && Complete(r) && ReadsInside(w, r)
    ensures Inv(StoreReply(w, r).(toggling := Free))
  {
    var v := StoreReply(w, r).(toggling := Free);
    ModNext(w.stores);
    forall i | 0 <= i < |v.polls| ensures PollOk(v, v.polls[i]) {
      assert PollOk(w, w.polls[i]);
    }
  }

  lemma HistoryGrows(w: World, next: ConnectionSettings)
    requires Inv(w)
    ensures Inv(w.(history := w.history + [next]))
  {
    var v := w.(history := w.history + [next]);
    forall i | 0 <= i < |v.polls| ensures PollOk(v, v.polls[i]) {
      assert PollOk(w, w.polls[i]);
    }
  }

  /** Replacing or adding a poll that is in order. */
  lemma PollsKeepInv(w: World, polls: seq<Poll>)
    requires Inv(w)
    requires forall i | 0 <= i < |polls| :: PollOk(w, polls[i])
    ensures Inv(w.(polls := polls))
  {
    var v := w.(polls := polls);
    forall i | 0 <= i < |v.polls| ensures PollOk(v, v.polls[i]) {
      assert PollOk(w, polls[i]);
    }
  }

  lemma PollEndKeepsInv(w: World, id: nat)
    requires Inv(w) && Enabled(w, PollEnds(id))
    ensures Inv(Step(w, PollEnds(id)))
  {
    var p := w.polls[id];
    assert PollOk(w, p);
    var polls := w.polls[id := p.(done := true)];
    assert PollOk(w, p.(done := true));
    PollsKeepInv(w, polls);
    if w.cache.version == p.version {
      StoreKeepsInv(w.(polls := polls), p.seen);
    }
  }

  lemma ToggleStepKeepsInv(w: World, e: Event)
    requires Inv(w) && Enabled(w, e) && (e.ToggleBegins? || e.ToggleApplied? || e.ToggleReads? || e.ToggleFails?)
    ensures Inv(Step(w, e))
  {
    if e.ToggleApplied? {
      var next := ApplyPatch(w.toggling.patch, w.history[|w.history| - 1]);
      if next.Ok? {
        HistoryGrows(w, next.value);
      }
    }
    var v := Step(w, e);
    forall i | 0 <= i < |v.polls| ensures PollOk(v, v.polls[i]) {
      assert PollOk(w, w.polls[i]);
    }
  }

  lemma StepKeepsInv(w: World, e: Event)
    requires Inv(w) && Enabled(w, e)
    ensures Inv(Step(w, e))
  {
    match e
    case OtherWriter(next) => HistoryGrows(w, next);
    case PollBegins =>
      assert PollOk(w, Poll(w.cache.version, w.stores, UNREAD, false));
      PollsKeepInv(w, w.polls + [Poll(w.cache.version, w.stores, UNREAD, false)]);
    case PollReads(id) =>
      var p := w.polls[id];
      assert PollOk(w, p);
      var read := p.(seen := ReadNext(p.seen, |w.history| - 1));
      assert PollOk(w, read);
      PollsKeepInv(w, w.polls[id := read]);
    case PollEnds(id) => PollEndKeepsInv(w, id);
    case ToggleSucceeds => StoreKeepsInv(w, w.toggling.seen);
    case _ => ToggleStepKeepsInv(w, e);
  }

  lemma {:induction false} RunKeepsInv(w: World, es: seq<Event>)
    requires Inv(w)
    ensures Inv(Run(w, es))
  {
    if es != [] {
      RunKeepsInv(w, es[..|es| - 1]);
      var before := Run(w, es[..|es| - 1]);
      if Enabled(before, es[|es| - 1]) {
        StepKeepsInv(before, es[|es| - 1]);
      }
    }
  }

  lemma StartKeepsInv(history: seq<ConnectionSettings>, first: Option<(nat, nat)>)
    requires history != [] && (first.Some? ==> first.value.0 <= first.value.1 < |history|)
    ensures Inv(Start(history, first))
  {
  }

  // ----- what follows

  /** The poll that ends was not overtaken by 2^64 stores, after which its version comes round again. */
  predicate Young(w: World, e: Event) {
    e.PollEnds? && e.id < |w.polls| ==> w.stores - w.polls[e.id].began < WORD
  }

  predicate AllYoung(w: World, es: seq<Event>) {
    forall n | 0 <= n < |es| :: Young(Run(w, es[..n]), es[n])
  }

  /**
   Exactly one kind of step moves a field backwards: a poll that ends after a positive multiple
   of 2^64 stores with reads that are older than what the cache shows.
   */
  lemma GoesBackIff(w: World, e: Event)
    requires Inv(w) && Enabled(w, e)
    ensures !Forwards(w, Step(w, e)) <==>
              && e.PollEnds? && w.polls[e.id].began < w.stores
              && (w.stores - w.polls[e.id].began) % WORD == 0 && !NotOlder(w, w.polls[e.id].seen)
  {
    if e.PollEnds? {
      assert PollOk(w, w.polls[e.id]);
      ModEqual(w.polls[e.id].began, w.stores);
    }
  }

  lemma {:induction false} RunGoesForwards(w: World, es: seq<Event>)
    requires Inv(w) && AllYoung(w, es)
    ensures Forwards(w, Run(w, es))
  {
    if es != [] {
      var init := es[..|es| - 1];
      assert forall n | 0 <= n < |init| :: init[..n] == es[..n] && init[n] == es[n];
      RunGoesForwards(w, init);
      RunKeepsInv(w, init);
      var before := Run(w, init);
      if Enabled(before, es[|es| - 1]) {
        assert Young(Run(w, es[..|es| - 1]), es[|es| - 1]);
        StepGoesForwards(before, es[|es| - 1]);
      }
    }
  }

  lemma StepGoesForwards(w: World, e: Event)
    requires Inv(w) && Enabled(w, e) && Young(w, e)
    ensures Forwards(w, Step(w, e))
  {
    GoesBackIff(w, e);
    if e.PollEnds? {
      assert PollOk(w, w.polls[e.id]);
      ModEqual(w.polls[e.id].began, w.stores);
    }
  }

  /**
   In every reachable state each cached field is the one the daemon had at its position, the
   first field's position never past the second's; from there on no interleaving of polls,
   toggles and other writers moves a position backwards, as long as no poll lasts for 2^64 stores.
   */
  lemma CacheNeverGoesBack(history: seq<ConnectionSettings>, first: Option<(nat, nat)>, es: seq<Event>, more: seq<Event>)
    requires history != [] && (first.Some? ==> first.value.0 <= first.value.1 < |history|)
    ensures var w := Run(Start(history, first), es);
            && Inv(w) && Inv(Run(w, more))
            && (AllYoung(w, more) ==> Forwards(w, Run(w, more)))
  {
    var w := Run(Start(history, first), es);
    StartKeepsInv(history, first);
    RunKeepsInv(Start(history, first), es);
    RunKeepsInv(w, more);
    if AllYoung(w, more) {
      RunGoesForwards(w, more);
    }
  }

  /** The daemon's settings at a position; the built-in default stands before them all. */
  function SettingsAt(history: seq<ConnectionSettings>, i: int): ConnectionSettings
    requires -1 <= i < |history|
  {
    if i == -1 then DEFAULT_SETTINGS else history[i]
  }

  /**
   In every reachable state the cache shows the daemon's settings of its first or of its second
   read if and only if one of the two fields was the same at both.
   */
  lemma CachedPairIntactIff(history: seq<ConnectionSettings>, first: Option<(nat, nat)>, es: seq<Event>)
    requires history != [] && (first.Some? ==> first.value.0 <= first.value.1 < |history|)
    ensures var w := Run(Start(history, first), es);
            && CacheOk(w)
            && var a, b := SettingsAt(w.history, w.connectAt), SettingsAt(w.history, w.reconnectAt);
               w.cache.current in {a, b} <==> a.autoConnect == b.autoConnect || a.autoReconnect == b.autoReconnect
  {
    StartKeepsInv(history, first);
    RunKeepsInv(Start(history, first), es);
  }

  /** A poll's reply is stored exactly when nothing was stored since the poll began, or a multiple of 2^64 times. */
  lemma PollStoredIff(w: World, id: nat)
    requires Inv(w) && Enabled(w, PollEnds(id))
    ensures var (v, age) := (Step(w, PollEnds(id)), w.stores - w.polls[id].began);
            && age >= 0
            && (v.stores > w.stores <==> age % WORD == 0)
            && (age < WORD ==> (v.stores > w.stores <==> age == 0))
            && (v.stores == w.stores ==>
                  v.cache == w.cache && v.connectAt == w.connectAt && v.reconnectAt == w.reconnectAt)
  {
    assert PollOk(w, w.polls[id]);
    ModEqual(w.polls[id].began, w.stores);
  }

  lemma {:induction false} PollsKeepTheirStart(w: World, es: seq<Event>, id: nat)
    requires id < |w.polls|
    ensures var v := Run(w, es); id < |v.polls| && v.polls[id].began == w.polls[id].began
  {
    if es != [] {
      PollsKeepTheirStart(w, es[..|es| - 1], id);
    }
  }

  lemma {:induction false} RunCounts(w: World, es: seq<Event>)
    ensures w.stores <= Run(w, es).stores
  {
    if es != [] {
      RunCounts(w, es[..|es| - 1]);
    }
  }

  /** A poll that began before a toggle succeeded is never stored after it, whatever happens in between. */
  lemma StalePollRejected(w: World, es: seq<Event>, id: nat)
    requires Inv(w) && Enabled(w, ToggleSucceeds) && id < |w.polls|
    requires var v := Run(Step(w, ToggleSucceeds), es); Enabled(v, PollEnds(id)) && Young(v, PollEnds(id))
    ensures var v := Run(Step(w, ToggleSucceeds), es); Step(v, PollEnds(id)).cache == v.cache
  {
    var next := Step(w, ToggleSucceeds);
    var v := Run(next, es);
    RunCounts(next, es);
    StepKeepsInv(w, ToggleSucceeds);
    RunKeepsInv(next, es);
    PollsKeepTheirStart(next, es, id);
    assert PollOk(w, w.polls[id]);
    PollStoredIff(v, id);
  }

  /** What a successful toggle wrote, or something newer, is what the cache shows from then on. */
  lemma OwnToggleShows(w: World, es: seq<Event>)
    requires Inv(w) && Enabled(w, ToggleSucceeds) && AllYoung(Step(w, ToggleSucceeds), es)
    ensures var v := Run(Step(w, ToggleSucceeds), es);
            && w.toggling.appliedAt.Some? && w.toggling.appliedAt.value <= v.connectAt <= v.reconnectAt
            && w.toggling.appliedAt.value < |w.history|
            && Carries(w.history[w.toggling.appliedAt.value], w.toggling.patch)
  {
    StepKeepsInv(w, ToggleSucceeds);
    RunKeepsInv(Step(w, ToggleSucceeds), es);
    RunGoesForwards(Step(w, ToggleSucceeds), es);
  }

  /** A poll has read the daemon's settings, and nothing has changed yet. */
  lemma PollHasRead(on: ConnectionSettings) returns (es: seq<Event>)
    ensures es == [PollBegins, PollReads(0), PollReads(0)]
    ensures Run(Start([on], Some((0, 0))), es)
         == Start([on], Some((0, 0))).(polls := [Poll(1, 1, Reads(Some(0), Some(0)), false)])
  {
    var w0 := Start([on], Some((0, 0)));
    es := Then(w0, [], PollBegins);
    assert Run(w0, es).polls == [Poll(1, 1, UNREAD, false)];
    es := Then(w0, es, PollReads(0));
    es := Then(w0, es, PollReads(0));
  }

  /**
   A toggle whose request fails gives no such promise: the daemon may have applied it, and a
   poll that read before that can still be stored after the toggle ended.
   */
  lemma FailedToggleLetsOldPollIn() returns (es: seq<Event>)
    ensures var on := ConnectionSettings(true, true);
            var w := Run(Start([on], Some((0, 0))), es);
            && es == [PollBegins, PollReads(0), PollReads(0), ToggleBegins(AutoReconnect), ToggleApplied, ToggleFails, PollEnds(0)]
            && w.history == [on, ConnectionSettings(true, false)] && w.cache.current == on && w.stores == 2
  {
    var on := ConnectionSettings(true, true);
    var w0 := Start([on], Some((0, 0)));
    es := PollHasRead(on);
    es := Then(w0, es, ToggleBegins(AutoReconnect));
    es := Then(w0, es, ToggleApplied);
    assert Run(w0, es).history == [on, ConnectionSettings(true, false)];
    es := Then(w0, es, ToggleFails);
    es := Then(w0, es, PollEnds(0));
  }

  /**
   A reply reads its two fields one after the other, so the cache can show a pair that the daemon,
   from its start on, never had.
   */
  lemma CachedPairMayBeTorn() returns (es: seq<Event>)
    ensures var w := Run(Start([DEFAULT_SETTINGS], Some((0, 0))), es);
            && es == [PollBegins, PollReads(0), OtherWriter(ConnectionSettings(false, false)), PollReads(0), PollEnds(0)]
            && w.history == [DEFAULT_SETTINGS, ConnectionSettings(false, false)]
            && w.cache.current == ConnectionSettings(true, false) && w.cache.current !in w.history
  {
    var w0 := Start([DEFAULT_SETTINGS], Some((0, 0)));
    es := Then(w0, [], PollBegins);
    assert Run(w0, es).polls == [Poll(1, 1, UNREAD, false)];
    es := Then(w0, es, PollReads(0));
    es := Then(w0, es, OtherWriter(ConnectionSettings(false, false)));
    es := Then(w0, es, PollReads(0));
    assert Run(w0, es).polls == [Poll(1, 1, Reads(Some(0), Some(1)), false)];
    es := Then(w0, es, PollEnds(0));
    assert Run(w0, es).history == [DEFAULT_SETTINGS, ConnectionSettings(false, false)];
  }

  lemma Then(w: World, es: seq<Event>, e: Event) returns (more: seq<Event>)
    requires Enabled(Run(w, es), e)
    ensures more == es + [e] && Run(w, more) == Step(Run(w, es), e)
  {
    more := es + [e];
    assert more[..|more| - 1] == es;
  }
}
