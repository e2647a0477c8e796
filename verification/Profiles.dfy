/** Profile lists: merging a subscription into the inline profiles, and selecting one (src/config.go). */
module Profiles {
  import opened Wrappers
  import opened Strings

  datatype Profile = Profile(name: Str, link: Str, tlsInsecure: bool)

  function Links(ps: seq<Profile>): (r: seq<Str>)
    ensures |r| == |ps|
    ensures forall i | 0 <= i < |ps| :: r[i] == ps[i].link
  {
    seq(|ps|, i requires 0 <= i < |ps| => ps[i].link)
  }

  /** p repeats the link, or the non-empty name, of a profile in the list. */
  predicate Clashes(list: seq<Profile>, p: Profile) {
    exists q | q in list :: q.link == p.link || (p.name != "" && q.name == p.name)
  }

  /** Subscription profiles are taken in order; one that clashes with the list so far is dropped. */
  function Merge(inline: seq<Profile>, sub: seq<Profile>): seq<Profile>
    decreases sub
  {
    if sub == [] then inline
    else Merge(if Clashes(inline, sub[0]) then inline else inline + [sub[0]], sub[1..])
  }

  method MergeProfiles(inline: seq<Profile>, sub: seq<Profile>) returns (merged: seq<Profile>)
    ensures merged == Merge(inline, sub)
  {
    var seenName: set<Str>, seenLink: set<Str> := {}, {};
    for i := 0 to |inline|
      invariant seenName == set q | q in inline[..i] && q.name != "" :: q.name
      invariant seenLink == set q | q in inline[..i] :: q.link
    {
      var p := inline[i];
      assert inline[..i + 1] == inline[..i] + [p];
      if p.name != "" {
        seenName := seenName + {p.name};
      }
      seenLink := seenLink + {p.link};
    }
    assert inline[..|inline|] == inline;
    merged := inline;
    for i := 0 to |sub|
      invariant seenName == set q | q in merged && q.name != "" :: q.name
      invariant seenLink == set q | q in merged :: q.link
      invariant Merge(inline, sub) == Merge(merged, sub[i..])
    {
      var p := sub[i];
      assert sub[i..][1..] == sub[i + 1..];
      if p.link in seenLink {
        continue;
      }
      if p.name != "" && p.name in seenName {
        continue;
      }
      merged := merged + [p];
      if p.name != "" {
        seenName := seenName + {p.name};
      }
      seenLink := seenLink + {p.link};
    }
  }

  // ----- merge laws

  /** Merging in two steps is merging the concatenation. */
  lemma {:induction false} MergeConcat(a: seq<Profile>, b: seq<Profile>, c: seq<Profile>)
    ensures Merge(Merge(a, b), c) == Merge(a, b + c)
    decreases b
  {
    if b == [] {
      assert b + c == c;
    } else {
      assert (b + c)[1..] == b[1..] + c;
      MergeConcat(if Clashes(a, b[0]) then a else a + [b[0]], b[1..], c);
    }
  }

  /** sub[i] is dropped exactly when its link or non-empty name occurs earlier in the result. */
  lemma MergeDropsExactlyClashes(inline: seq<Profile>, sub: seq<Profile>, i: nat)
    requires i < |sub|
    ensures var list, p := Merge(inline, sub[..i]), sub[i];
            var clash := exists k | 0 <= k < |list| :: list[k].link == p.link || (p.name != "" && list[k].name == p.name);
            Merge(inline, sub[..i + 1]) == if clash then list else list + [p]
  {
    assert sub[..i + 1] == sub[..i] + [sub[i]];
    MergeConcat(inline, sub[..i], [sub[i]]);
    var list, p := Merge(inline, sub[..i]), sub[i];
    assert Merge(list, [p]) == if Clashes(list, p) then list else list + [p];
    if q :| q in list && (q.link == p.link || (p.name != "" && q.name == p.name)) {
      var k :| 0 <= k < |list| && list[k] == q;
    }
  }

  /** The positions of the subscription that survive, in order. */
  ghost predicate Increasing(picks: seq<nat>, bound: nat) {
    && (forall i | 0 <= i < |picks| :: picks[i] < bound)
    && (forall i, j | 0 <= i < j < |picks| :: picks[i] < picks[j])
  }

  /** The result is the inline list followed by a subsequence of the subscription. */
  lemma {:induction false} MergeIsSubsequence(inline: seq<Profile>, sub: seq<Profile>) returns (picks: seq<nat>)
    ensures Increasing(picks, |sub|)
    ensures Merge(inline, sub) == inline + seq(|picks|, i requires 0 <= i < |picks| && picks[i] < |sub| => sub[picks[i]])
  {
    if sub == [] {
      picks := [];
    } else {
      var init, n := sub[..|sub| - 1], |sub| - 1;
      picks := MergeIsSubsequence(inline, init);
      MergeDropsExactlyClashes(inline, sub, n);
      assert sub[..n + 1] == sub;
      if !Clashes(Merge(inline, init), sub[n]) {
        picks := picks + [n];
      }
    }
  }

  /** No two profiles share a link, and none share a non-empty name. */
  predicate Distinct(ps: seq<Profile>) {
    forall i, j | 0 <= i < j < |ps| ::
      ps[i].link != ps[j].link && (ps[i].name == ps[j].name ==> ps[i].name == "")
  }

  lemma {:induction false} MergeKeepsDistinct(inline: seq<Profile>, sub: seq<Profile>)
    ensures Distinct(Merge(inline, sub)) <==> Distinct(inline)
    decreases sub
  {
    if sub != [] {
      var p := sub[0];
      var next := if Clashes(inline, p) then inline else inline + [p];
      MergeKeepsDistinct(next, sub[1..]);
      if Distinct(next) {
        forall i, j | 0 <= i < j < |inline|
          ensures inline[i].link != inline[j].link && (inline[i].name == inline[j].name ==> inline[i].name == "")
        {
          assert next[i] == inline[i] && next[j] == inline[j];
        }
      }
    }
  }

  lemma {:induction false} MergeCovers(inline: seq<Profile>, sub: seq<Profile>)
    ensures forall p | p in inline :: p in Merge(inline, sub)
    ensures forall p | p in sub :: Clashes(Merge(inline, sub), p)
    decreases sub
  {
    if sub != [] {
      var next := if Clashes(inline, sub[0]) then inline else inline + [sub[0]];
      MergeCovers(next, sub[1..]);
      assert Clashes(next, sub[0]) by {
        if next != inline { assert sub[0] in next; }
      }
      var q :| q in next && (q.link == sub[0].link || (sub[0].name != "" && q.name == sub[0].name));
      assert q in Merge(inline, sub);
      assert sub == [sub[0]] + sub[1..];
    }
  }

  lemma {:induction false} MergeOnlyClashes(list: seq<Profile>, sub: seq<Profile>)
    requires forall p | p in sub :: Clashes(list, p)
    ensures Merge(list, sub) == list
  {
    if sub != [] {
      MergeOnlyClashes(list, sub[1..]);
    }
  }

  /** Fetching the same subscription again adds nothing. */
  lemma MergeIdempotent(a: seq<Profile>, b: seq<Profile>)
    ensures Merge(Merge(a, b), b) == Merge(a, b)
  {
    MergeCovers(a, b);
    MergeOnlyClashes(Merge(a, b), b);
  }

  // ----- selection

  datatype SelectError = NoProfiles | NotFound(want: Str)

  /** The name asked for, then the configured default; with neither, the first profile. */
  method SelectProfile(profiles: seq<Profile>, name: Str, defaultName: Str) returns (r: Result<Profile, SelectError>)
    ensures profiles == [] <==> r == Err(NoProfiles)
    ensures profiles != [] && name == "" && defaultName == "" ==> r == Ok(profiles[0])
    ensures profiles != [] && (name != "" || defaultName != "") ==>
              var want := if name != "" then name else defaultName;
              match r
              case Ok(p) => exists i | 0 <= i < |profiles| ::
                p == profiles[i] && p.name == want && forall j | 0 <= j < i :: profiles[j].name != want
              case Err(e) => e == NotFound(want) && forall p | p in profiles :: p.name != want
  {
    if |profiles| == 0 {
      return Err(NoProfiles);
    }
    var want := name;
    if want == "" {
      want := defaultName;
    }
    if want == "" {
      return Ok(profiles[0]);
    }
    for i := 0 to |profiles|
      invariant forall j | 0 <= j < i :: profiles[j].name != want
    {
      if profiles[i].name == want {
        return Ok(profiles[i]);
      }
    }
    return Err(NotFound(want));
  }
}
