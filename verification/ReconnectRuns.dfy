/** What whole runs of the reconnect loop do: counting, failover, waiting time, termination. */
module ReconnectRuns {
  import opened Wrappers
  import opened Numbers
  import opened Strings
  import opened Profiles
  import opened Client
  import opened Backoff
  import opened Reconnect
  import Subscription

  /** The attempts counted when the round reaches its backoff: a session resets them. */
  function Counted(before: Loop, after: Loop): nat {
    if after.sessions > before.sessions then 0 else before.attempt
  }

  /** Automatic reconnection stays on and nothing is cancelled in this round. */
  ghost predicate Calm(env: Env, r: nat) {
    forall pc: Pc :: env(r, pc).autoReconnect && !env(r, pc).cancelled
  }

  // ----- one round

  /** Everything a round does that the run lemmas need. */
  ghost predicate RoundOk(before: (Loop, Published), after: (Loop, Published), env: Env, r: nat, max: int) {
    var (l, p) := before;
    var (t, q) := after;
    if l.pc != Top then l.pc.Exited? && after == before
    else
      && (t.pc == Top || t.pc.Exited?)
      && l.tries <= t.tries <= l.tries + 1
      && l.sessions <= t.sessions <= l.sessions + 1
      && var n := Counted(l, t) + 1;
      && (t.pc == Top ==> t.tries == l.tries + 1 && t.attempt == n && (max <= 0 || n < max))
      && (Calm(env, r) ==>
            var other := Failover(n, env(r, AtSnapshot).available, l.profile.link);
            && t.tries == l.tries + 1 && t.attempt == n
            && t.pc == (if max > 0 && n >= max then Exited(GaveUp) else Top)
            && t.profile == (if t.pc == Top && other.Some? then other.value else l.profile)
            && t.waited == l.waited + (if t.pc == Top then DelayOf(n) else 0)
            && q.reconnects == p.reconnects + (if t.pc == Top then 1 else 0))
  }

  lemma RoundEffect(l: Loop, p: Published, env: Env, r: nat, max: int)
    requires ClientsOk(l) && (l.pc == Top || l.pc.Exited?)
    ensures RoundOk((l, p), Settle(l, p, env, r, max), env, r, max)
  {
    if l.pc == Top {
      RoundMeaning(l, p, env, r, max);
      var (t, q) := Settle(l, p, env, r, max);
      FactsSuffice(l, p, t, q, env, r, max);
    }
  }

  lemma FactsSuffice(l: Loop, p: Published, t: Loop, q: Published, env: Env, r: nat, max: int)
    requires l.pc == Top && ClientsOk(l) && RoundFacts(l, p, t, q, env, r, max) && RoundClients(l, t, env, r, max)
    ensures RoundOk((l, p), (t, q), env, r, max)
  {
    if Waits(l, env, r, max) {
      var available := env(r, AtSnapshot).available;
      var other := Failover(Failures(l, env, r), available, l.profile.link);
      FailoverIff(Failures(l, env, r), l.profile.link, available, t.profile);
      if other.Some? {
        FailoverIff(Failures(l, env, r), l.profile.link, available, other.value);
      }
    }
  }

  // ----- runs

  /** The states at the start of every round. */
  type History = seq<(Loop, Published)>

  ghost predicate IsRun(h: History, profile: Profile, env: Env, max: int) {
    && h != []
    && h[0].0 == NewLoop(profile)
    && forall r | 0 <= r < |h| - 1 :: RoundOk(h[r], h[r + 1], env, r, max)
  }

  function RunOf(profile: Profile, p: Published, env: Env, max: int, n: nat): (h: History)
    ensures |h| == n + 1
    ensures forall i | 0 <= i <= n :: h[i] == Rounds(NewLoop(profile), p, env, max, i)
    ensures h[0] == (NewLoop(profile), p)
  {
    seq(n + 1, i requires 0 <= i <= n => Rounds(NewLoop(profile), p, env, max, i))
  }

  /** The loop's rounds are such a history; by its contract RunWithReconnect returns the last state. */
  lemma {:induction false} RoundsAreRun(profile: Profile, p: Published, env: Env, max: int, n: nat)
    ensures IsRun(RunOf(profile, p, env, max, n), profile, env, max)
    ensures var l := Rounds(NewLoop(profile), p, env, max, n).0; ClientsOk(l) && (l.pc == Top || l.pc.Exited?)
  {
    if n > 0 {
      RoundsAreRun(profile, p, env, max, n - 1);
      var h, g := RunOf(profile, p, env, max, n), RunOf(profile, p, env, max, n - 1);
      var (l, q) := Rounds(NewLoop(profile), p, env, max, n - 1);
      RoundEffect(l, q, env, n - 1, max);
      SettleKeepsClients(l, q, env, n - 1, max);
      assert forall r | 0 <= r < n :: h[r] == g[r];
    }
  }

  lemma {:induction false} SessionsMonotone(h: History, profile: Profile, env: Env, max: int, n: nat, m: nat)
    requires IsRun(h, profile, env, max) && n <= m < |h|
    ensures h[n].0.sessions <= h[m].0.sessions
    ensures h[m].0.pc == Top || h[m].0.pc.Exited?
  {
    if m > 0 {
      SessionsMonotone(h, profile, env, max, if n < m then n else m - 1, m - 1);
      assert RoundOk(h[m - 1], h[m], env, m - 1, max);
    }
  }

  // ----- counting and waiting

  /**
   With a limit, no cancellation and reconnection left on, a run without a session makes exactly
   `max` tries, adds max - 1 to `reconnects`, waits the documented total and ends failed.
   */
  lemma {:induction false} AllFailingRun(h: History, profile: Profile, env: Env, max: int, n: nat)
    requires IsRun(h, profile, env, max) && n < |h|
    requires forall r | 0 <= r < n :: Calm(env, r)
    requires h[n].0.sessions == 0
    ensures var (l, q) := h[n];
            var done := max > 0 && n >= max;
            var tries := if done then max else n;
            var waits := if done then max - 1 else n;
            && l.pc == (if done then Exited(GaveUp) else Top)
            && l.tries == tries && l.attempt == tries
            && q.reconnects == h[0].1.reconnects + waits
            && l.waited == TotalDelay(waits, RECONNECT_INITIAL, RECONNECT_MAX)
  {
    if n > 0 {
      SessionsMonotone(h, profile, env, max, n - 1, n);
      AllFailingRun(h, profile, env, max, n - 1);
      assert RoundOk(h[n - 1], h[n], env, n - 1, max);
      DefaultExact(n, 0);
    }
  }

  lemma OneRoundMore(n: nat, sessions: nat, attempt: nat, after: nat, c: nat)
    requires n <= sessions * c + attempt && attempt <= c && sessions <= after <= sessions + 1
    ensures n + 1 <= after * c + (if after > sessions then 0 else attempt) + 1
  {
    assert (sessions + 1) * c == sessions * c + c;
  }

  /** With a limit the loop still runs after n rounds only if n <= sessions * (max - 1) + attempt, whatever happens. */
  lemma {:induction false} RunningBound(h: History, profile: Profile, env: Env, max: int, n: nat)
    requires IsRun(h, profile, env, max) && n < |h| && max > 0
    ensures var l := h[n].0; l.pc == Top ==> l.attempt < max && n <= l.sessions * (max - 1) + l.attempt
  {
    if n > 0 {
      RunningBound(h, profile, env, max, n - 1);
      assert RoundOk(h[n - 1], h[n], env, n - 1, max);
      var l, t := h[n - 1].0, h[n].0;
      if l.pc == Top {
        OneRoundMore(n - 1, l.sessions, l.attempt, t.sessions, max - 1);
      }
    }
  }

  /** So finitely many sessions mean that the loop ends: no run outlives (sessions + 1) * (max - 1) rounds. */
  lemma TerminatesWithLimit(h: History, profile: Profile, env: Env, max: int, n: nat, sessions: nat)
    requires IsRun(h, profile, env, max) && n < |h| && max > 0
    requires n > (sessions + 1) * (max - 1) && h[n].0.sessions <= sessions
    ensures h[n].0.pc.Exited?
  {
    SessionsMonotone(h, profile, env, max, n, n);
    RunningBound(h, profile, env, max, n);
    Numbers.Scale(h[n].0.sessions, sessions, max - 1);
    assert (sessions + 1) * (max - 1) == sessions * (max - 1) + (max - 1);
  }

  /** After a session has dropped in round n, at most max - 1 rounds follow before the next session or the exit. */
  lemma {:induction false} TriesAfterDrop(h: History, profile: Profile, env: Env, max: int, n: nat, k: nat)
    requires IsRun(h, profile, env, max) && n + 1 + k < |h| && max > 0
    requires h[n].0.sessions < h[n + 1].0.sessions == h[n + 1 + k].0.sessions
    ensures var at := h[n + 1 + k].0;
            at.pc == Top ==> at.attempt == k + 1 && k + 1 < max
  {
    assert RoundOk(h[n + k], h[n + 1 + k], env, n + k, max);
    if k > 0 {
      SessionsMonotone(h, profile, env, max, n + 1, n + k);
      SessionsMonotone(h, profile, env, max, n + k, n + 1 + k);
      TriesAfterDrop(h, profile, env, max, n, k - 1);
    }
  }

  /** Reconnection is off in this round. */
  ghost predicate Off(env: Env, r: nat) {
    forall pc: Pc :: !env(r, pc).autoReconnect
  }

  /** The rest of a round makes no try, and reads the settings before it goes back to the top. */
  lemma {:induction false} RestOfRound(l: Loop, p: Published, env: Env, r: nat, max: int)
    requires Off(env, r) && AttemptOk(l, max) && l.tries > 0 && l.pc != Top
    ensures var (t, q) := Settle(l, p, env, r, max);
            t.tries == l.tries && AttemptOk(t, max) && (t.pc.Exited? || t.pc == Top)
    decreases Rank(l.pc)
  {
    if !l.pc.Exited? {
      var next := LoopStep(l, p, env(r, l.pc), max);
      StepKeepsAttempt(l, p, env(r, l.pc), max);
      if next.0.pc != Top {
        RestOfRound(next.0, next.1, env, r, max);
      }
    }
  }

  /** Once reconnection is off, a loop that has made a try leaves without another, wherever it stands. */
  lemma OffMeansNoRetry(l: Loop, p: Published, env: Env, r: nat, max: int)
    requires Off(env, r) && Off(env, r + 1) && AttemptOk(l, max) && l.tries > 0
    ensures var (t, q) := Settle(l, p, env, r, max);
            && t.tries == l.tries
            && (t.pc.Exited? || (t.pc == Top && Settle(t, q, env, r + 1, max).0.pc == Exited(GaveUp)
                                 && Settle(t, q, env, r + 1, max).0.tries == l.tries))
  {
    if l.pc == Top {
      TopLeaves(l, p, env, r, max);
    } else {
      RestOfRound(l, p, env, r, max);
      var (t, q) := Settle(l, p, env, r, max);
      if t.pc == Top {
        TopLeaves(t, q, env, r + 1, max);
      }
    }
  }

  lemma TopLeaves(l: Loop, p: Published, env: Env, r: nat, max: int)
    requires Off(env, r) && l.pc == Top && l.attempt >= 1
    ensures Settle(l, p, env, r, max).0 == l.(pc := Exited(GaveUp))
  {
    var (a, p1) := LoopStep(l, p, env(r, Top), max);
    assert Settle(l, p, env, r, max) == Settle(a, p1, env, r, max) == (a, p1);
  }

  // ----- failover

  predicate DistinctLinks(list: seq<Profile>) {
    forall i, j | 0 <= i < j < |list| :: list[i].link != list[j].link
  }

  /** The position that follows position i: that of the first profile with its link, plus one. */
  function Next(list: seq<Profile>, i: nat): (j: nat)
    requires i < |list|
    ensures j < |list|
  {
    var first := FirstWithLink(list, list[i].link);
    if first + 1 < |list| then first + 1 else 0
  }

  lemma NextFollows(list: seq<Profile>, i: nat)
    requires i < |list|
    ensures NextProfile(list, list[i].link) == Some(list[Next(list, i)])
  {
    Successor(FirstWithLink(list, list[i].link), |list|);
  }

  /** The position after n failovers. */
  function Walk(list: seq<Profile>, start: nat, n: nat): (i: nat)
    requires start < |list|
    ensures i < |list|
  {
    if n == 0 then start else Next(list, Walk(list, start, n - 1))
  }

  lemma FailoverInRound(before: (Loop, Published), after: (Loop, Published), env: Env, r: nat, max: int,
                        list: seq<Profile>, i: nat)
    requires RoundOk(before, after, env, r, max) && Calm(env, r)
    requires before.0.pc == Top && after.0.pc == Top && before.0.sessions == after.0.sessions
    requires |list| > 1 && i < |list| && env(r, AtSnapshot).available == Some(list) && before.0.profile == list[i]
    ensures after.0.profile == if (before.0.attempt + 1) % 2 == 0 then list[Next(list, i)] else list[i]
  {
    NextFollows(list, i);
  }

  lemma StillFailing(h: History, profile: Profile, env: Env, max: int, k: nat)
    requires IsRun(h, profile, env, max) && k < |h| && (max <= 0 || k < max)
    requires forall r | 0 <= r < k :: Calm(env, r)
    requires h[k].0.sessions == 0
    ensures h[k].0.pc == Top && h[k].0.attempt == k
    ensures k > 0 ==> h[k - 1].0.sessions == 0 && RoundOk(h[k - 1], h[k], env, k - 1, max)
  {
    AllFailingRun(h, profile, env, max, k);
    if k > 0 {
      SessionsMonotone(h, profile, env, max, k - 1, k);
    }
  }

  /** Every second try fails over. */
  lemma WalkHalf(list: seq<Profile>, start: nat, k: nat)
    requires k > 0 && start < |list|
    ensures Walk(list, start, k / 2)
         == var at := Walk(list, start, (k - 1) / 2); if k % 2 == 0 then Next(list, at) else at
  {
    HalfStep(k);
    if k % 2 == 0 {
      WalkNext(list, start, k / 2);
    }
  }

  lemma HalfStep(k: nat)
    requires k > 0
    ensures k % 2 == 0 ==> k / 2 > 0 && (k - 1) / 2 == k / 2 - 1
    ensures k % 2 != 0 ==> (k - 1) / 2 == k / 2
  {
  }

  lemma WalkNext(list: seq<Profile>, start: nat, n: nat)
    requires n > 0 && start < |list|
    ensures Walk(list, start, n) == Next(list, Walk(list, start, n - 1))
  {
  }

  /**
   In an all-failing run over a list that stays the same, try k uses the profile after k / 2
   failovers, whatever the list.
   */
  lemma {:induction false} TriesWalk(h: History, list: seq<Profile>, start: nat, env: Env, max: int, k: nat)
    requires |list| > 1 && start < |list|
    requires IsRun(h, list[start], env, max) && k < |h| && (max <= 0 || k < max)
    requires forall r | 0 <= r < k :: Calm(env, r) && env(r, AtSnapshot).available == Some(list)
    requires h[k].0.sessions == 0
    ensures h[k].0.pc == Top && h[k].0.profile == list[Walk(list, start, k / 2)]
  {
    StillFailing(h, list[start], env, max, k);
    if k > 0 {
      TriesWalk(h, list, start, env, max, k - 1);
      StillFailing(h, list[start], env, max, k - 1);
      FailoverInRound(h[k - 1], h[k], env, k - 1, max, list, Walk(list, start, (k - 1) / 2));
      WalkHalf(list, start, k);
    }
  }

  /** With distinct links the walk is a rotation. */
  lemma {:induction false} WalkOfDistinct(list: seq<Profile>, start: nat, n: nat)
    requires DistinctLinks(list) && start < |list|
    ensures Walk(list, start, n) == (start + n) % |list|
  {
    if n > 0 {
      WalkOfDistinct(list, start, n - 1);
      FirstOfDistinct(list, Walk(list, start, n - 1));
      RotateOnce(start + n - 1, |list|);
    } else {
      ModOf(start, 0, start, |list|);
    }
  }

  lemma RotateOnce(x: nat, n: nat)
    requires n > 0
    ensures (x + 1) % n == if x % n + 1 < n then x % n + 1 else 0
  {
    ModNext(x, n);
    Successor(x % n, n);
  }

  lemma FirstOfDistinct(list: seq<Profile>, i: nat)
    requires DistinctLinks(list) && i < |list|
    ensures FirstWithLink(list, list[i].link) == i
  {
    var k := FirstWithLink(list, list[i].link);
    assert k <= i;
  }

  /**
   With pairwise distinct links and a list that stays the same, try k of an all-failing run uses
   the profile at (start + k / 2) mod n.
   */
  lemma FailoverPosition(h: History, list: seq<Profile>, start: nat, env: Env, max: int, k: nat)
    requires DistinctLinks(list) && |list| > 1 && start < |list|
    requires IsRun(h, list[start], env, max) && k < |h| && (max <= 0 || k < max)
    requires forall r | 0 <= r < k :: Calm(env, r) && env(r, AtSnapshot).available == Some(list)
    requires h[k].0.sessions == 0
    ensures h[k].0.pc == Top && h[k].0.profile == list[(start + k / 2) % |list|]
  {
    TriesWalk(h, list, start, env, max, k);
    WalkOfDistinct(list, start, k / 2);
  }

  lemma ModNext(x: nat, n: nat)
    requires n > 0
    ensures (x % n + 1) % n == (x + 1) % n
  {
    var q, r := x / n, x % n;
    if r + 1 == n {
      assert (q + 1) * n == q * n + n;
      ModOf(x + 1, q + 1, 0, n);
      ModOf(n, 1, 0, n);
    } else {
      ModOf(x + 1, q, r + 1, n);
      ModOf(r + 1, 0, r + 1, n);
    }
  }

  /** Every profile of the list is tried, twice in a row, within the first 2n tries. */
  lemma FailoverCoverage(h: History, list: seq<Profile>, start: nat, env: Env, max: int, j: nat) returns (k: nat)
    requires DistinctLinks(list) && |list| > 1 && start < |list| && j < |list|
    requires IsRun(h, list[start], env, max) && 2 * |list| < |h| && (max <= 0 || 2 * |list| <= max)
    requires forall r | 0 <= r < 2 * |list| :: Calm(env, r) && env(r, AtSnapshot).available == Some(list)
    requires h[2 * |list|].0.sessions == 0
    ensures k + 1 < 2 * |list|
    ensures h[k].0.pc == Top && h[k].0.profile == list[j]
    ensures h[k + 1].0.pc == Top && h[k + 1].0.profile == list[j]
  {
    var n := |list|;
    var d := if j >= start then j - start else j - start + n;
    k := 2 * d;
    SessionsMonotone(h, list[start], env, max, k, 2 * n);
    SessionsMonotone(h, list[start], env, max, k + 1, 2 * n);
    FailoverPosition(h, list, start, env, max, k);
    FailoverPosition(h, list, start, env, max, k + 1);
    ModOf(start + d, if j >= start then 0 else 1, j, n);
    assert (k + 1) / 2 == d && k / 2 == d;
  }

  // ----- exactly when every profile is tried

  /** Failovers from start reach position j. */
  ghost predicate Visits(list: seq<Profile>, start: nat, j: nat)
    requires start < |list|
  {
    exists n: nat :: Walk(list, start, n) == j
  }

  lemma DistinctVisitsAll(list: seq<Profile>, start: nat, j: nat)
    requires DistinctLinks(list) && start < |list| && j < |list|
    ensures Visits(list, start, j)
  {
    var d := if j >= start then j - start else j - start + |list|;
    WalkOfDistinct(list, start, d);
    ModOf(start + d, if j >= start then 0 else 1, j, |list|);
  }

  /** Every link before position `from` occurs once. */
  predicate OnceBefore(list: seq<Profile>, from: nat) {
    forall a, b | 0 <= a < b < |list| && a < from :: list[a].link != list[b].link
  }

  /** The first position whose link is repeated, and one of its repetitions. */
  lemma {:induction false} FirstRepeat(list: seq<Profile>, from: nat) returns (i: nat, j: nat)
    requires !DistinctLinks(list) && OnceBefore(list, from)
    ensures i < j < |list| && list[i].link == list[j].link && OnceBefore(list, i)
    decreases |list| - from
  {
    if b :| from < b < |list| && list[from].link == list[b].link {
      i, j := from, b;
    } else {
      assert from < |list|;
      i, j := FirstRepeat(list, from + 1);
    }
  }

  /** From a repetition j of position i the walk never leaves the positions after i up to j. */
  lemma {:induction false} WalkStays(list: seq<Profile>, i: nat, j: nat, n: nat)
    requires i < j < |list| && list[i].link == list[j].link && OnceBefore(list, i)
    ensures i < Walk(list, j, n) <= j
  {
    if n > 0 {
      WalkStays(list, i, j, n - 1);
      var at := Walk(list, j, n - 1);
      var first := FirstWithLink(list, list[at].link);
      assert first <= at && list[first].link == list[at].link;
      assert first < at ==> i <= first;
      assert at == j ==> first <= i;
    }
  }

  /** Every position is reached from every start if and only if no two profiles share a link. */
  lemma FailoverReachesAllIff(list: seq<Profile>)
    requires |list| > 1
    ensures DistinctLinks(list)
       <==> forall start: nat, j: nat | start < |list| && j < |list| :: Visits(list, start, j)
  {
    if DistinctLinks(list) {
      forall start: nat, j: nat | start < |list| && j < |list| ensures Visits(list, start, j) {
        DistinctVisitsAll(list, start, j);
      }
    } else {
      var i, j := FirstRepeat(list, 0);
      forall n: nat ensures Walk(list, j, n) != i {
        WalkStays(list, i, j, n);
      }
      assert !Visits(list, j, i);
    }
  }

  /** A position that the walk does not reach is not tried in any all-failing run, however long. */
  lemma UnvisitedIsNeverTried(h: History, list: seq<Profile>, start: nat, j: nat, env: Env, max: int, k: nat)
    requires |list| > 1 && start < |list| && j < |list| && !Visits(list, start, j)
    requires forall a, b | 0 <= a < b < |list| :: list[a] != list[b]
    requires IsRun(h, list[start], env, max) && k < |h| && (max <= 0 || k < max)
    requires forall r | 0 <= r < k :: Calm(env, r) && env(r, AtSnapshot).available == Some(list)
    requires h[k].0.sessions == 0
    ensures h[k].0.profile != list[j]
  {
    TriesWalk(h, list, start, env, max, k);
    assert Walk(list, start, k / 2) != j;
  }

  /** Nothing can be connected, and nothing else happens. */
  function NothingConnects(list: seq<Profile>): Env {
    (r: nat, pc: Pc) => Obs(true, 0, false, false, TimerFired, Some(list), 1)
  }

  /** The profile of try k of the loop that starts with list[start] then. */
  function FailingTry(list: seq<Profile>, start: nat, k: nat): Profile
    requires start < |list|
  {
    Rounds(NewLoop(list[start]), UNPUBLISHED, NothingConnects(list), 0, k).0.profile
  }

  lemma {:induction false} NoSession(list: seq<Profile>, start: nat, k: nat)
    requires start < |list|
    ensures Rounds(NewLoop(list[start]), UNPUBLISHED, NothingConnects(list), 0, k).0.sessions == 0
  {
    if k > 0 {
      NoSession(list, start, k - 1);
      RoundsAreRun(list[start], UNPUBLISHED, NothingConnects(list), 0, k - 1);
      var (l, p) := Rounds(NewLoop(list[start]), UNPUBLISHED, NothingConnects(list), 0, k - 1);
      if l.pc == Top {
        RoundMeaning(l, p, NothingConnects(list), k - 1, 0);
      }
    }
  }

  lemma FailingTryWalks(list: seq<Profile>, start: nat, k: nat)
    requires |list| > 1 && start < |list|
    ensures FailingTry(list, start, k) == list[Walk(list, start, k / 2)]
  {
    var env := NothingConnects(list);
    RoundsAreRun(list[start], UNPUBLISHED, env, 0, k);
    NoSession(list, start, k);
    TriesWalk(RunOf(list[start], UNPUBLISHED, env, 0, k), list, start, env, 0, k);
  }

  /** Some try of the loop that starts with list[start], while nothing connects, uses p. */
  ghost predicate IsTried(list: seq<Profile>, start: nat, p: Profile)
    requires start < |list|
  {
    exists k: nat :: FailingTry(list, start, k) == p
  }

  /**
   For a list of different profiles: the loop tries every one, whichever it starts with, if and
   only if no two share a link.
   */
  lemma EveryProfileTriedIff(list: seq<Profile>)
    requires |list| > 1 && forall a, b | 0 <= a < b < |list| :: list[a] != list[b]
    ensures DistinctLinks(list)
       <==> forall start: nat, j: nat | start < |list| && j < |list| :: IsTried(list, start, list[j])
  {
    FailoverReachesAllIff(list);
    forall start: nat, j: nat | start < |list| && j < |list|
      ensures IsTried(list, start, list[j]) <==> Visits(list, start, j)
    {
      TriedIffVisited(list, start, j);
    }
  }

  lemma TriedIffVisited(list: seq<Profile>, start: nat, j: nat)
    requires |list| > 1 && start < |list| && j < |list|
    requires forall a, b | 0 <= a < b < |list| :: list[a] != list[b]
    ensures IsTried(list, start, list[j]) <==> Visits(list, start, j)
  {
    if n: nat :| Walk(list, start, n) == j {
      FailingTryWalks(list, start, 2 * n);
      assert FailingTry(list, start, 2 * n) == list[j];
    }
    if k: nat :| FailingTry(list, start, k) == list[j] {
      FailingTryWalks(list, start, k);
      assert Walk(list, start, k / 2) == j;
    }
  }

  /**
   Two profiles with one link and different names pass the validation of names, and keep the
   last profile of this list from ever being tried.
   */
  lemma RepeatedLinkStarves(a: Profile, b: Profile, twin: Profile, c: Profile, k: nat)
    requires twin.link == a.link && twin.name != a.name
    requires b.link != a.link && c.link != a.link && c.link != b.link
    ensures FailingTry([a, b, twin, c], 0, k) in {a, b, twin}
    ensures c !in {a, b, twin}
  {
    var list := [a, b, twin, c];
    FailingTryWalks(list, 0, k);
    WalkOfTwins(a, b, twin, c, k / 2);
  }

  lemma {:induction false} WalkOfTwins(a: Profile, b: Profile, twin: Profile, c: Profile, n: nat)
    requires twin.link == a.link && b.link != a.link && c.link != a.link && c.link != b.link
    ensures Walk([a, b, twin, c], 0, n) < 3
  {
    if n > 0 {
      WalkOfTwins(a, b, twin, c, n - 1);
      var list := [a, b, twin, c];
      var at := Walk(list, 0, n - 1);
      var first := FirstWithLink(list, list[at].link);
      assert list[0].link == a.link && list[1].link == b.link && list[2].link == a.link;
      assert first <= 1;
    }
  }

  // ----- which lists qualify

  lemma {:induction false} MergeKeepsDistinctLinks(inline: seq<Profile>, sub: seq<Profile>)
    ensures DistinctLinks(Merge(inline, sub)) <==> DistinctLinks(inline)
    decreases sub
  {
    if sub != [] {
      var next := if Clashes(inline, sub[0]) then inline else inline + [sub[0]];
      MergeKeepsDistinctLinks(next, sub[1..]);
      assert forall i | 0 <= i < |inline| :: next[i] == inline[i];
    }
  }

  /**
   A merged list has distinct links exactly when the inline profiles have, and a subscription
   that the parser accepts always has.
   */
  lemma ListsHaveDistinctLinks(inline: seq<Profile>, sub: seq<Profile>, text: Str, nameOf: Str -> Str)
    ensures DistinctLinks(Merge(inline, sub)) <==> DistinctLinks(inline)
    ensures Subscription.Meaning(text, nameOf).Ok? ==> DistinctLinks(Subscription.Meaning(text, nameOf).value.profiles)
  {
    MergeKeepsDistinctLinks(inline, sub);
    if Subscription.Meaning(text, nameOf).Ok? {
      var _, _ := Subscription.AcceptedSubscriptions(text, nameOf);
      var ps := Subscription.Meaning(text, nameOf).value.profiles;
      forall i, j | 0 <= i < j < |ps| ensures ps[i].link != ps[j].link {
        assert Links(ps)[i] != Links(ps)[j];
      }
    }
  }
}
