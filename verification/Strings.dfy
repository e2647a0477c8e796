/**
 Go strings are byte sequences.  A `Byte` is a character below 256, so that string
 literals can be used for the ASCII constants of the program.
 */
module Strings {
  import opened Wrappers

  type Byte = c: char | c as int < 256 witness 'a'
  type Str = seq<Byte>

  const CR: Byte := '\r'
  const LF: Byte := '\n'
  const SPACE: Byte := ' '

  /** The ASCII white space of strings.TrimSpace. */
  const WHITE: set<Byte> := {' ', 9 as char, 10 as char, 11 as char, 12 as char, 13 as char}

  predicate IsSpace(c: Byte) {
    c == ' ' || 9 <= c as int <= 13
  }

  function LowerByte(c: Byte): Byte {
    if 'A' <= c <= 'Z' then (c as int + 32) as char else c
  }

  function ToLower(s: Str): (r: Str)
    ensures |r| == |s|
  {
    seq(|s|, i requires 0 <= i < |s| => LowerByte(s[i]))
  }

  /** Equal but for the case of ASCII letters, which stand 32 apart. */
  predicate SameButCase(s: Str, t: Str) {
    |s| == |t| && forall i | 0 <= i < |s| ::
      || s[i] == t[i]
      || (65 <= s[i] as int <= 90 && t[i] as int == s[i] as int + 32)
      || (65 <= t[i] as int <= 90 && s[i] as int == t[i] as int + 32)
  }

  /** Lower-casing forgets the case of letters and nothing else. */
  lemma ToLowerIff(s: Str, t: Str)
    ensures ToLower(s) == ToLower(t) <==> SameButCase(s, t)
  {
    if |s| == |t| {
      if SameButCase(s, t) {
        forall i | 0 <= i < |s| ensures ToLower(s)[i] == ToLower(t)[i] {
          LowerIff(s[i], t[i]);
        }
      } else {
        var i :| 0 <= i < |s| && !(s[i] == t[i] || (65 <= s[i] as int <= 90 && t[i] as int == s[i] as int + 32)
                                   || (65 <= t[i] as int <= 90 && s[i] as int == t[i] as int + 32));
        LowerIff(s[i], t[i]);
        assert ToLower(s)[i] != ToLower(t)[i];
      }
    }
  }

  lemma LowerIff(c: Byte, d: Byte)
    ensures LowerByte(c) == LowerByte(d) <==>
              c == d || (65 <= c as int <= 90 && d as int == c as int + 32) || (65 <= d as int <= 90 && c as int == d as int + 32)
  {
  }

  predicate HasPrefix(s: Str, p: Str) {
    p <= s
  }

  predicate OccursAt(s: Str, sub: Str, i: int) {
    0 <= i <= |s| - |sub| && s[i..i + |sub|] == sub
  }

  predicate Contains(s: Str, sub: Str) {
    exists i | 0 <= i <= |s| - |sub| :: OccursAt(s, sub, i)
  }

  /** strings.Index for a one-byte needle: the first position, or |s| when there is none. */
  function Index(s: Str, c: Byte): (i: nat)
    ensures i <= |s|
    ensures forall k | 0 <= k < i :: s[k] != c
    ensures i < |s| ==> s[i] == c
  {
    if s == [] || s[0] == c then 0 else 1 + Index(s[1..], c)
  }

  /** The last position of c, or |s| when there is none. */
  function LastIndex(s: Str, c: Byte): (i: nat)
    ensures i <= |s|
    ensures i < |s| ==> s[i] == c
    ensures forall k | 0 <= k < |s| && (i < k || i == |s|) :: s[k] != c
  {
    if s == [] then 0
    else if s[|s| - 1] == c then |s| - 1
    else
      var k := LastIndex(s[..|s| - 1], c);
      if k == |s| - 1 then |s| else k
  }

  /** The first occurrence is determined by what stands before it. */
  lemma {:induction false} IndexAt(before: Str, c: Byte, after: Str)
    requires c !in before
    ensures Index(before + [c] + after, c) == |before|
  {
    var s := before + [c] + after;
    if before == [] {
      assert s[0] == c;
    } else {
      assert s[0] == before[0] && s[1..] == before[1..] + [c] + after;
      IndexAt(before[1..], c, after);
    }
  }

  lemma {:induction false} LastIndexAt(before: Str, c: Byte, after: Str)
    requires c !in after
    ensures LastIndex(before + [c] + after, c) == |before|
  {
    var s, n := before + [c] + after, |after|;
    if n == 0 {
      assert s[|s| - 1] == c;
    } else {
      assert s[|s| - 1] == after[n - 1] && s[..|s| - 1] == before + [c] + after[..n - 1];
      LastIndexAt(before, c, after[..n - 1]);
    }
  }

  function Split(s: Str, sep: Byte): (r: seq<Str>)
    ensures r != []
  {
    if s == [] then [[]]
    else
      var rest := Split(s[1..], sep);
      if s[0] == sep then [[]] + rest
      else [[s[0]] + rest[0]] + rest[1..]
  }

  function Join(parts: seq<Str>, sep: Byte): Str
    requires parts != []
  {
    if |parts| == 1 then parts[0] else parts[0] + [sep] + Join(parts[1..], sep)
  }

  lemma {:induction false} SplitAtSeparator(p: Str, sep: Byte, rest: Str)
    requires sep !in p
    ensures Split(p + [sep] + rest, sep) == [p] + Split(rest, sep)
  {
    var s := p + [sep] + rest;
    if p == [] {
      assert s[1..] == rest;
    } else {
      assert s[1..] == p[1..] + [sep] + rest;
      SplitAtSeparator(p[1..], sep, rest);
      assert [p[0]] + p[1..] == p;
    }
  }

  lemma {:induction false} SplitWithoutSeparator(p: Str, sep: Byte)
    requires sep !in p
    ensures Split(p, sep) == [p]
  {
    if p != [] {
      SplitWithoutSeparator(p[1..], sep);
      assert [p[0]] + p[1..] == p;
    }
  }

  lemma {:induction false} SplitJoin(parts: seq<Str>, sep: Byte)
    requires parts != []
    requires forall p | p in parts :: sep !in p
    ensures Split(Join(parts, sep), sep) == parts
  {
    if |parts| == 1 {
      SplitWithoutSeparator(parts[0], sep);
    } else {
      SplitJoin(parts[1..], sep);
      SplitAtSeparator(parts[0], sep, Join(parts[1..], sep));
      assert parts == [parts[0]] + parts[1..];
    }
  }

  /** Splitting is undone by joining, and leaves no separator in a part. */
  lemma {:induction false} JoinSplit(s: Str, sep: Byte)
    ensures Join(Split(s, sep), sep) == s
    ensures forall p | p in Split(s, sep) :: sep !in p
  {
    if s != [] {
      JoinSplit(s[1..], sep);
      var rest := Split(s[1..], sep);
      if s[0] == sep {
        var parts := [[]] + rest;
        assert parts[1..] == rest;
        assert Join(parts, sep) == [] + [sep] + s[1..];
        assert s == [s[0]] + s[1..];
      } else {
        var parts := [[s[0]] + rest[0]] + rest[1..];
        assert parts[1..] == rest[1..];
        assert rest == [rest[0]] + rest[1..];
        assert Join(parts, sep) == [s[0]] + Join(rest, sep);
        assert s == [s[0]] + s[1..];
      }
    }
  }

  function TrimLeft(s: Str): Str {
    if s != [] && IsSpace(s[0]) then TrimLeft(s[1..]) else s
  }

  function TrimRight(s: Str): Str {
    if s != [] && IsSpace(s[|s| - 1]) then TrimRight(s[..|s| - 1]) else s
  }

  function TrimSpace(s: Str): Str {
    TrimRight(TrimLeft(s))
  }

  predicate Trimmed(s: Str) {
    s == [] || (s[0] !in WHITE && s[|s| - 1] !in WHITE)
  }

  predicate Blank(s: Str) {
    forall c | c in s :: c in WHITE
  }

  lemma SpaceIsWhite(c: Byte)
    ensures IsSpace(c) <==> c in WHITE
  {
    if IsSpace(c) && c != ' ' {
      assert c == (c as int) as char;
    }
  }

  /** Trimming takes exactly the white space off both ends. */
  lemma {:induction false} TrimPadded(left: Str, core: Str, right: Str)
    requires Blank(left) && Trimmed(core) && Blank(right)
    ensures TrimSpace(left + core + right) == core
  {
    var s := left + core + right;
    if left != [] {
      SpaceIsWhite(left[0]);
      assert s[0] == left[0] && s[1..] == left[1..] + core + right;
      TrimPadded(left[1..], core, right);
    } else if core == [] {
      assert s == right;
      TrimBlank(right);
    } else {
      SpaceIsWhite(core[0]);
      assert s == core + right && s[0] == core[0];
      TrimRightPadded(core, right);
    }
  }

  lemma {:induction false} TrimBlank(s: Str)
    requires Blank(s)
    ensures TrimLeft(s) == []
  {
    if s != [] {
      SpaceIsWhite(s[0]);
      TrimBlank(s[1..]);
    }
  }

  lemma {:induction false} TrimRightPadded(core: Str, right: Str)
    requires core != [] && Trimmed(core) && Blank(right)
    ensures TrimRight(core + right) == core
  {
    var s, n := core + right, |right|;
    if n == 0 {
      SpaceIsWhite(core[|core| - 1]);
      assert s == core;
    } else {
      SpaceIsWhite(right[n - 1]);
      assert s[|s| - 1] == right[n - 1] && s[..|s| - 1] == core + right[..n - 1];
      TrimRightPadded(core, right[..n - 1]);
    }
  }

  /** Every string is its trimmed middle between two stretches of white space. */
  lemma TrimSplits(s: Str) returns (left: Str, right: Str)
    ensures s == left + TrimSpace(s) + right && Blank(left) && Blank(right) && Trimmed(TrimSpace(s))
  {
    left := TrimLeftSplits(s);
    right := TrimRightSplits(TrimLeft(s));
    assert s == left + (TrimSpace(s) + right);
    var core := TrimSpace(s);
    assert core != [] ==> core[0] == TrimLeft(s)[0];
  }

  lemma {:induction false} TrimLeftSplits(s: Str) returns (left: Str)
    ensures s == left + TrimLeft(s) && Blank(left)
    ensures TrimLeft(s) != [] ==> TrimLeft(s)[0] !in WHITE
  {
    left := [];
    if s != [] {
      SpaceIsWhite(s[0]);
    }
    if s != [] && IsSpace(s[0]) {
      left := TrimLeftSplits(s[1..]);
      left := [s[0]] + left;
    }
  }

  lemma {:induction false} TrimRightSplits(s: Str) returns (right: Str)
    ensures s == TrimRight(s) + right && Blank(right)
    ensures TrimRight(s) != [] ==> TrimRight(s)[|TrimRight(s)| - 1] !in WHITE
  {
    right := [];
    if s != [] {
      SpaceIsWhite(s[|s| - 1]);
    }
    if s != [] && IsSpace(s[|s| - 1]) {
      right := TrimRightSplits(s[..|s| - 1]);
      right := right + [s[|s| - 1]];
    }
  }

  lemma TrimSpaceKeeps(s: Str)
    requires Trimmed(s)
    ensures TrimSpace(s) == s
  {
    TrimPadded([], s, []);
    assert [] + s + [] == s;
  }

  /** What a strings.Replacer that maps every byte of `drop` to "" leaves. */
  function Without(s: Str, drop: set<Byte>): (r: Str)
    ensures forall c | c in r :: c in s && c !in drop
    ensures forall c | c in s && c !in drop :: c in r
  {
    if s == [] then []
    else if s[0] in drop then Without(s[1..], drop)
    else [s[0]] + Without(s[1..], drop)
  }

  lemma {:induction false} WithoutConcat(a: Str, b: Str, drop: set<Byte>)
    ensures Without(a + b, drop) == Without(a, drop) + Without(b, drop)
  {
    if a == [] {
      assert a + b == b;
    } else {
      assert (a + b)[1..] == a[1..] + b;
      WithoutConcat(a[1..], b, drop);
    }
  }

  lemma {:induction false} WithoutNothing(s: Str, drop: set<Byte>)
    requires forall c | c in s :: c !in drop
    ensures Without(s, drop) == s
  {
    if s != [] {
      WithoutNothing(s[1..], drop);
      assert s == [s[0]] + s[1..];
    }
  }

  /** Dropping a subset first changes nothing. */
  lemma {:induction false} WithoutTwice(s: Str, fewer: set<Byte>, drop: set<Byte>)
    requires fewer <= drop
    ensures Without(Without(s, fewer), drop) == Without(s, drop)
  {
    if s != [] {
      WithoutTwice(s[1..], fewer, drop);
    }
  }

  /** Trimming is invisible once every white-space byte of s is dropped anyway. */
  lemma {:induction false} WithoutTrim(s: Str, drop: set<Byte>)
    requires forall c | c in s && IsSpace(c) :: c in drop
    ensures Without(TrimSpace(s), drop) == Without(s, drop)
  {
    WithoutTrimLeft(s, drop);
    WithoutTrimRight(TrimLeft(s), drop);
  }

  lemma {:induction false} WithoutTrimLeft(s: Str, drop: set<Byte>)
    requires forall c | c in s && IsSpace(c) :: c in drop
    ensures Without(TrimLeft(s), drop) == Without(s, drop)
    ensures forall c | c in TrimLeft(s) :: c in s
  {
    if s != [] && IsSpace(s[0]) {
      WithoutTrimLeft(s[1..], drop);
    }
  }

  lemma {:induction false} WithoutTrimRight(s: Str, drop: set<Byte>)
    requires forall c | c in s && IsSpace(c) :: c in drop
    ensures Without(TrimRight(s), drop) == Without(s, drop)
  {
    if s != [] && IsSpace(s[|s| - 1]) {
      var init, last := s[..|s| - 1], [s[|s| - 1]];
      assert s == init + last;
      WithoutConcat(init, last, drop);
      assert Without(last, drop) == [];
      WithoutTrimRight(init, drop);
    }
  }
}
