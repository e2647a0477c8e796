/** Subscription bodies: base64 sniffing, line parsing and de-duplication (src/subscription.go). */
module Subscription {
  import opened Wrappers
  import opened Strings
  import opened Base64
  import opened Profiles

  const KNOWN_SCHEMES: seq<Str> := ["vless://", "vmess://", "trojan://", "ss://", "ssr://"]

  predicate IsProxyLink(line: Str) {
    exists i | 0 <= i < |KNOWN_SCHEMES| :: HasPrefix(ToLower(line), KNOWN_SCHEMES[i])
  }

  predicate ContainsProxyLink(s: Str) {
    exists i | 0 <= i < |KNOWN_SCHEMES| :: Contains(ToLower(s), KNOWN_SCHEMES[i])
  }

  /** s starts with the scheme, in any mixture of cases. */
  predicate StartsAs(s: Str, scheme: Str) {
    |scheme| <= |s| && SameButCase(s[..|scheme|], scheme)
  }

  /** Exactly five schemes count, and the case of their letters does not. */
  lemma IsProxyLinkIff(line: Str)
    ensures IsProxyLink(line) <==>
              || StartsAs(line, "vless://") || StartsAs(line, "vmess://") || StartsAs(line, "trojan://")
              || StartsAs(line, "ss://") || StartsAs(line, "ssr://")
  {
    PrefixIff(line, 0);
    PrefixIff(line, 1);
    PrefixIff(line, 2);
    PrefixIff(line, 3);
    PrefixIff(line, 4);
  }

  lemma PrefixIff(line: Str, i: nat)
    requires i < |KNOWN_SCHEMES|
    ensures HasPrefix(ToLower(line), KNOWN_SCHEMES[i]) <==> StartsAs(line, KNOWN_SCHEMES[i])
  {
    var scheme := KNOWN_SCHEMES[i];
    assert ToLower(scheme) == scheme;
    if |scheme| <= |line| {
      assert ToLower(line)[..|scheme|] == ToLower(line[..|scheme|]);
      ToLowerIff(line[..|scheme|], scheme);
    }
  }

  lemma ContainsProxyLinkIff(s: Str)
    ensures ContainsProxyLink(s) <==> exists k | 0 <= k <= |s| :: IsProxyLink(s[k..])
  {
    forall k | 0 <= k <= |s| ensures ToLower(s)[k..] == ToLower(s[k..]) {
    }
    if i :| 0 <= i < |KNOWN_SCHEMES| && Contains(ToLower(s), KNOWN_SCHEMES[i]) {
      var scheme := KNOWN_SCHEMES[i];
      var at :| 0 <= at <= |s| - |scheme| && OccursAt(ToLower(s), scheme, at);
      assert ToLower(s)[at..][..|scheme|] == scheme;
      assert HasPrefix(ToLower(s[at..]), scheme);
    }
    if k :| 0 <= k <= |s| && IsProxyLink(s[k..]) {
      var i :| 0 <= i < |KNOWN_SCHEMES| && HasPrefix(ToLower(s[k..]), KNOWN_SCHEMES[i]);
      assert ToLower(s)[k..k + |KNOWN_SCHEMES[i]|] == ToLower(s)[k..][..|KNOWN_SCHEMES[i]|];
      assert OccursAt(ToLower(s), KNOWN_SCHEMES[i], k);
    }
  }

  // ----- base64 sniffing

  /** The bytes that tryBase64Decode settles on, as a search over any list of decoders. */
  function Sniff(vs: seq<Variant>, s: Str): Str {
    if vs == [] then s
    else if SniffedBy(vs[0], s) then Decode(vs[0], Without(s, BLANKS)).value
    else Sniff(vs[1..], s)
  }

  /** v decodes s, blanks removed, to something that holds a proxy link. */
  predicate SniffedBy(v: Variant, s: Str) {
    var decoded := Decode(v, Without(s, BLANKS));
    decoded.Some? && ContainsProxyLink(decoded.value)
  }

  method TryBase64Decode(s: Str) returns (text: Str)
    ensures text == Sniff(VARIANTS, s)
  {
    var clean := Without(s, BLANKS);
    for i := 0 to |VARIANTS|
      invariant Sniff(VARIANTS, s) == Sniff(VARIANTS[i..], s)
    {
      var decoded := Decode(VARIANTS[i], clean);
      if decoded.Some? {
        if ContainsProxyLink(decoded.value) {
          return decoded.value;
        }
      }
      assert VARIANTS[i..][1..] == VARIANTS[i + 1..];
    }
    assert VARIANTS[|VARIANTS|..] == [];
    return s;
  }

  lemma {:induction false} SniffWith(vs: seq<Variant>, v: Variant, s: Str)
    requires v in vs && SniffedBy(v, s)
    ensures Some(Sniff(vs, s)) == Decode(v, Without(s, BLANKS))
  {
    if SniffedBy(vs[0], s) {
      DecodersAgree(vs[0], v, Without(s, BLANKS));
    } else {
      SniffWith(vs[1..], v, s);
    }
  }

  lemma {:induction false} SniffPlain(vs: seq<Variant>, s: Str)
    requires forall v | v in vs :: !SniffedBy(v, s)
    ensures Sniff(vs, s) == s
  {
    if vs != [] {
      SniffPlain(vs[1..], s);
    }
  }

  /** What comes back: text that some variant decodes to and that shows a link; the input when there is none. */
  lemma SniffIff(s: Str, text: Str)
    ensures Sniff(VARIANTS, s) == text <==>
              || (ContainsProxyLink(text) && exists v :: Decode(v, Without(s, BLANKS)) == Some(text))
              || (text == s && forall v :: !SniffedBy(v, s))
  {
    if v :| SniffedBy(v, s) {
      EveryVariant(v);
      SniffWith(VARIANTS, v, s);
      assert Decode(v, Without(s, BLANKS)) == Some(Sniff(VARIANTS, s));
      forall w | Decode(w, Without(s, BLANKS)) == Some(text) && ContainsProxyLink(text) ensures text == Sniff(VARIANTS, s) {
        DecodersAgree(v, w, Without(s, BLANKS));
      }
    } else {
      SniffPlain(VARIANTS, s);
      assert forall v | Decode(v, Without(s, BLANKS)) == Some(text) :: ContainsProxyLink(text) ==> SniffedBy(v, s);
    }
  }

  lemma EveryVariant(v: Variant)
    ensures v in VARIANTS
  {
    assert v == VARIANTS[if v.url then (if v.padded then 2 else 3) else (if v.padded then 0 else 1)];
  }

  /** The decoders may be tried in any order. */
  lemma SniffOrderIrrelevant(vs: seq<Variant>, ws: seq<Variant>, s: Str)
    requires forall v :: v in vs <==> v in ws
    ensures Sniff(vs, s) == Sniff(ws, s)
  {
    if v :| v in vs && SniffedBy(v, s) {
      SniffWith(vs, v, s);
      SniffWith(ws, v, s);
    } else {
      SniffPlain(vs, s);
      SniffPlain(ws, s);
    }
  }

  /** A text that shows a proxy link holds a ':', so no decoder takes it for base64. */
  lemma SniffKeepsPlainText(s: Str)
    requires ContainsProxyLink(s)
    ensures Sniff(VARIANTS, s) == s
  {
    var i :| 0 <= i < |KNOWN_SCHEMES| && Contains(ToLower(s), KNOWN_SCHEMES[i]);
    var scheme := KNOWN_SCHEMES[i];
    var at :| 0 <= at <= |s| - |scheme| && OccursAt(ToLower(s), scheme, at);
    var colon := |scheme| - 3;
    assert scheme[colon] == ':';
    assert ToLower(s)[at..at + |scheme|][colon] == ':';
    assert LowerByte(s[at + colon]) == ':';
    ForeignByteRejected(Without(s, BLANKS), ':');
    FirstDecodeNone(VARIANTS, Without(s, BLANKS));
    SniffPlain(VARIANTS, s);
  }

  /** Base64 of such a text, in any variant and with blanks anywhere, is decoded to it. */
  lemma SniffDecodes(v: Variant, text: Str, raw: Str)
    requires ContainsProxyLink(text)
    requires Without(raw, BLANKS) == Encode(v, text)
    ensures Sniff(VARIANTS, raw) == text
  {
    var e := Encode(v, text);
    EncodeSymbols(v, text);
    WithoutNothing(e, {CR, LF});
    DecodeEncode(v, text);
    EveryVariant(v);
    SniffWith(VARIANTS, v, raw);
  }

  // ----- lines

  const DNS_DIRECTIVE: Str := "#dns:"
  const COMMENT: Str := "#"
  const COMMA: Byte := ','

  function ParseHeaderDNS(header: Str): seq<Str> {
    if header == [] then [] else NonBlank(Split(header, COMMA))
  }

  function NonBlank(parts: seq<Str>): seq<Str> {
    if parts == [] then []
    else (if TrimSpace(parts[0]) == [] then [] else [TrimSpace(parts[0])]) + NonBlank(parts[1..])
  }

  /** A line, trimmed, that is neither blank nor a comment and starts with a known scheme. */
  predicate IsLinkLine(line: Str) {
    var l := TrimSpace(line);
    l != [] && !HasPrefix(l, COMMENT) && IsProxyLink(l)
  }

  /** The links of a list of lines, in order and with repetitions. */
  function LinkLines(lines: seq<Str>): seq<Str> {
    if lines == [] then []
    else (if IsLinkLine(lines[0]) then [TrimSpace(lines[0])] else []) + LinkLines(lines[1..])
  }

  /** The resolvers of the last "#dns:" line; [] when there is none. */
  function LastDNS(lines: seq<Str>): seq<Str> {
    if lines == [] then []
    else
      var line := TrimSpace(lines[|lines| - 1]);
      if HasPrefix(line, DNS_DIRECTIVE) then ParseHeaderDNS(line[|DNS_DIRECTIVE|..])
      else LastDNS(lines[..|lines| - 1])
  }

  /** Each element at its first position only. */
  function Dedup(s: seq<Str>): seq<Str> {
    if s == [] then []
    else
      var init, last := s[..|s| - 1], s[|s| - 1];
      if last in init then Dedup(init) else Dedup(init) + [last]
  }

  lemma DedupAppend(s: seq<Str>, x: Str)
    ensures Dedup(s + [x]) == if x in s then Dedup(s) else Dedup(s) + [x]
  {
    assert (s + [x])[..|s|] == s;
  }

  lemma {:induction false} DedupSameElements(s: seq<Str>)
    ensures forall x :: x in Dedup(s) <==> x in s
    ensures forall i, j | 0 <= i < j < |Dedup(s)| :: Dedup(s)[i] != Dedup(s)[j]
  {
    if s != [] {
      DedupSameElements(s[..|s| - 1]);
      assert s == s[..|s| - 1] + [s[|s| - 1]];
    }
  }

  /** x occurs in s, and first occurs there before y does. */
  ghost predicate Before(s: seq<Str>, x: Str, y: Str) {
    exists i | 0 <= i < |s| :: s[i] == x && y !in s[..i + 1]
  }

  /** De-duplication keeps the order of first occurrences. */
  lemma {:induction false} DedupKeepsOrder(s: seq<Str>, x: Str, y: Str)
    ensures Before(Dedup(s), x, y) <==> Before(s, x, y)
  {
    if s != [] {
      var init, last := s[..|s| - 1], s[|s| - 1];
      assert s == init + [last];
      DedupKeepsOrder(init, x, y);
      DedupSameElements(init);
      BeforeAppend(init, last, x, y);
      BeforeAppend(Dedup(init), last, x, y);
    }
  }

  lemma BeforeAppend(s: seq<Str>, z: Str, x: Str, y: Str)
    ensures Before(s + [z], x, y) <==> Before(s, x, y) || (x == z && x != y && y !in s)
  {
    var t := s + [z];
    if i :| 0 <= i < |t| && t[i] == x && y !in t[..i + 1] {
      if i < |s| {
        assert s[..i + 1] == t[..i + 1];
      } else {
        assert t[..i + 1] == t;
        assert y !in s && y != z;
      }
    }
    if i :| 0 <= i < |s| && s[i] == x && y !in s[..i + 1] {
      assert s[..i + 1] == t[..i + 1];
      assert t[i] == x;
    }
    if x == z && x != y && y !in s {
      assert t[..|s| + 1] == t;
      assert t[|s|] == x;
    }
  }

  lemma {:induction false} DedupOfDistinct(s: seq<Str>)
    requires forall i, j | 0 <= i < j < |s| :: s[i] != s[j]
    ensures Dedup(s) == s
  {
    if s != [] {
      DedupOfDistinct(s[..|s| - 1]);
      assert s == s[..|s| - 1] + [s[|s| - 1]];
    }
  }

  // ----- parseSubscription

  datatype Parsed = Parsed(profiles: seq<Profile>, dns: seq<Str>)
  datatype ParseError = NoValidLinks

  /** The link of linkToProfile is the line; how the name is found does not matter here. */
  function LinkToProfile(link: Str, nameOf: Str -> Str): Profile {
    Profile(nameOf(link), link, false)
  }

  function ProfilesOf(links: seq<Str>, nameOf: Str -> Str): seq<Profile> {
    seq(|links|, i requires 0 <= i < |links| => LinkToProfile(links[i], nameOf))
  }

  /** What the decoded text means: its distinct links in order, and its last DNS directive. */
  function Meaning(text: Str, nameOf: Str -> Str): Result<Parsed, ParseError> {
    var lines := Split(text, LF);
    var links := Dedup(LinkLines(lines));
    if links == [] then Err(NoValidLinks) else Ok(Parsed(ProfilesOf(links, nameOf), LastDNS(lines)))
  }

  lemma {:induction false} LinkLinesAppend(lines: seq<Str>, line: Str)
    ensures LinkLines(lines + [line]) == LinkLines(lines) + if IsLinkLine(line) then [TrimSpace(line)] else []
  {
    if lines != [] {
      assert (lines + [line])[1..] == lines[1..] + [line];
      LinkLinesAppend(lines[1..], line);
    } else {
      assert lines + [line] == [line];
    }
  }

  /** What one more line adds. */
  lemma NextLine(lines: seq<Str>, i: nat, nameOf: Str -> Str)
    requires i < |lines|
    ensures var before, after := LinkLines(lines[..i]), LinkLines(lines[..i + 1]);
            var line := TrimSpace(lines[i]);
            && after == (if IsLinkLine(lines[i]) then before + [line] else before)
            && (line in before ==> Dedup(before + [line]) == Dedup(before))
            && (line !in before ==>
                  ProfilesOf(Dedup(before + [line]), nameOf)
                  == ProfilesOf(Dedup(before), nameOf) + [LinkToProfile(line, nameOf)])
            && LastDNS(lines[..i + 1]) == (if HasPrefix(line, DNS_DIRECTIVE) then ParseHeaderDNS(line[|DNS_DIRECTIVE|..])
                                           else LastDNS(lines[..i]))
            && (HasPrefix(line, DNS_DIRECTIVE) ==> HasPrefix(line, COMMENT))
  {
    var before, line := lines[..i], TrimSpace(lines[i]);
    assert lines[..i + 1] == before + [lines[i]];
    LinkLinesAppend(before, lines[i]);
    LastDNSAppend(before, lines[i]);
    NextLink(LinkLines(before), line, nameOf);
    assert COMMENT <= DNS_DIRECTIVE;
  }

  lemma NextLink(links: seq<Str>, link: Str, nameOf: Str -> Str)
    ensures link in links ==> Dedup(links + [link]) == Dedup(links)
    ensures link !in links ==>
              ProfilesOf(Dedup(links + [link]), nameOf) == ProfilesOf(Dedup(links), nameOf) + [LinkToProfile(link, nameOf)]
  {
    DedupAppend(links, link);
  }

  lemma LastDNSAppend(lines: seq<Str>, line: Str)
    ensures LastDNS(lines + [line])
         == if HasPrefix(TrimSpace(line), DNS_DIRECTIVE) then ParseHeaderDNS(TrimSpace(line)[|DNS_DIRECTIVE|..]) else LastDNS(lines)
  {
    assert (lines + [line])[..|lines|] == lines;
  }

  method ParseSubscription(raw: Str, nameOf: Str -> Str) returns (r: Result<Parsed, ParseError>)
    ensures r == Meaning(Sniff(VARIANTS, TrimSpace(raw)), nameOf)
  {
    var decoded := TryBase64Decode(TrimSpace(raw));
    var profiles: seq<Profile>, dns: seq<Str>, seen: set<Str>, skipped := [], [], {}, 0;
    var lines := Split(decoded, LF);
    for i := 0 to |lines|
      invariant profiles == ProfilesOf(Dedup(LinkLines(lines[..i])), nameOf)
      invariant forall x :: x in seen <==> x in LinkLines(lines[..i])
      invariant dns == LastDNS(lines[..i])
    {
      var line := TrimSpace(lines[i]);
      NextLine(lines, i, nameOf);
      if line == "" {
        continue;
      }
      if HasPrefix(line, DNS_DIRECTIVE) {
        dns := ParseHeaderDNS(line[|DNS_DIRECTIVE|..]);
        continue;
      }
      if HasPrefix(line, COMMENT) {
        continue;
      }
      if !IsProxyLink(line) {
        skipped := skipped + 1;
        continue;
      }
      var p := LinkToProfile(line, nameOf);
      if p.link in seen {
        continue;
      }
      seen := seen + {p.link};
      profiles := profiles + [p];
    }
    assert lines[..|lines|] == lines;
    if |profiles| == 0 {
      return Err(NoValidLinks);
    }
    return Ok(Parsed(profiles, dns));
  }

  // ----- what a line says

  /** s is core between two stretches of white space. */
  ghost predicate Pads(s: Str, core: Str) {
    Trimmed(core) && exists left, right :: Blank(left) && Blank(right) && s == left + core + right
  }

  lemma PadsIff(s: Str, core: Str)
    ensures Pads(s, core) <==> core == TrimSpace(s)
  {
    if Pads(s, core) {
      var left, right :| Blank(left) && Blank(right) && s == left + core + right;
      TrimPadded(left, core, right);
    }
    var left, right := TrimSplits(s);
    assert s == left + TrimSpace(s) + right;
  }

  /** The servers are, in order, what the parts hold between white space; parts of white space alone hold nothing. */
  ghost predicate Lists(parts: seq<Str>, servers: seq<Str>) {
    if parts == [] then servers == []
    else
      || (Blank(parts[0]) && Lists(parts[1..], servers))
      || (servers != [] && servers[0] != [] && Pads(parts[0], servers[0]) && Lists(parts[1..], servers[1..]))
  }

  lemma BlankIff(s: Str)
    ensures Blank(s) <==> TrimSpace(s) == []
  {
    if Blank(s) {
      TrimBlank(s);
    }
    var left, right := TrimSplits(s);
    assert forall c | c in s :: c in left || c in TrimSpace(s) || c in right;
  }

  lemma {:induction false} ListsIff(parts: seq<Str>, servers: seq<Str>)
    ensures Lists(parts, servers) <==> NonBlank(parts) == servers
  {
    if parts != [] {
      var s := TrimSpace(parts[0]);
      BlankIff(parts[0]);
      ListsIff(parts[1..], servers);
      if servers != [] {
        PadsIff(parts[0], servers[0]);
        ListsIff(parts[1..], servers[1..]);
        assert servers == [servers[0]] + servers[1..];
      }
    }
  }

  /** header is the comma-separated list of the servers, in order and padded at will. */
  ghost predicate Header(header: Str, servers: seq<Str>) {
    exists parts: seq<Str> ::
      parts != [] && (forall p | p in parts :: COMMA !in p) && header == Join(parts, COMMA) && Lists(parts, servers)
  }

  lemma HeaderIff(header: Str, servers: seq<Str>)
    ensures ParseHeaderDNS(header) == servers <==> Header(header, servers)
  {
    JoinSplit(header, COMMA);
    var split := Split(header, COMMA);
    ListsIff(split, servers);
    assert NonBlank([[]]) == [];
    if Header(header, servers) {
      var parts: seq<Str> :|
        parts != [] && (forall p | p in parts :: COMMA !in p) && header == Join(parts, COMMA) && Lists(parts, servers);
      SplitJoin(parts, COMMA);
    }
  }

  /** What a line can be: a link, a DNS directive, or anything that is skipped. */
  datatype Entry = Link(link: Str) | Resolvers(servers: seq<Str>) | Other

  ghost predicate Says(core: Str, e: Entry) {
    match e
    case Link(link) => core == link && IsProxyLink(link)
    case Resolvers(servers) => exists header :: core == DNS_DIRECTIVE + header && Header(header, servers)
    case Other => !IsProxyLink(core) && !HasPrefix(core, DNS_DIRECTIVE)
  }

  ghost predicate Shows(line: Str, e: Entry) {
    LF !in line && exists core :: Pads(line, core) && Says(core, e)
  }

  ghost predicate ShowsAll(lines: seq<Str>, entries: seq<Entry>) {
    |lines| == |entries| && forall i | 0 <= i < |lines| :: Shows(lines[i], entries[i])
  }

  function Listed(entries: seq<Entry>): seq<Str> {
    if entries == [] then []
    else (if entries[0].Link? then [entries[0].link] else []) + Listed(entries[1..])
  }

  ghost predicate LastDirective(entries: seq<Entry>, k: int) {
    0 <= k < |entries| && entries[k].Resolvers? && forall j | k < j < |entries| :: !entries[j].Resolvers?
  }

  /** The resolvers are those of the last directive, and none when there is no directive. */
  ghost predicate Resolved(entries: seq<Entry>, dns: seq<Str>) {
    && (forall k | LastDirective(entries, k) :: dns == entries[k].servers)
    && ((forall e | e in entries :: !e.Resolvers?) ==> dns == [])
  }

  lemma ProxyLinkIsLinkLine(line: Str)
    requires IsProxyLink(TrimSpace(line))
    ensures IsLinkLine(line) && !HasPrefix(TrimSpace(line), DNS_DIRECTIVE)
  {
    var l := TrimSpace(line);
    var i :| 0 <= i < |KNOWN_SCHEMES| && HasPrefix(ToLower(l), KNOWN_SCHEMES[i]);
    assert ToLower(l)[0] == KNOWN_SCHEMES[i][0] != COMMENT[0];
    assert LowerByte(l[0]) == KNOWN_SCHEMES[i][0];
  }

  /** A line is read as what it shows. */
  lemma LineIsRead(line: Str, e: Entry)
    requires Shows(line, e)
    ensures IsLinkLine(line) <==> e.Link?
    ensures e.Link? ==> TrimSpace(line) == e.link
    ensures HasPrefix(TrimSpace(line), DNS_DIRECTIVE) <==> e.Resolvers?
    ensures e.Resolvers? ==> ParseHeaderDNS(TrimSpace(line)[|DNS_DIRECTIVE|..]) == e.servers
  {
    var core :| Pads(line, core) && Says(core, e);
    PadsIff(line, core);
    match e
    case Link(link) => ProxyLinkIsLinkLine(line);
    case Resolvers(servers) =>
      var header :| core == DNS_DIRECTIVE + header && Header(header, servers);
      HeaderIff(header, servers);
      assert core[|DNS_DIRECTIVE|..] == header;
      assert core[0] == DNS_DIRECTIVE[0];
      if IsLinkLine(line) {
        ProxyLinkIsLinkLine(line);
      }
    case Other =>
  }

  /** Every line shows something. */
  lemma EveryLineShows(line: Str) returns (e: Entry)
    requires LF !in line
    ensures Shows(line, e)
  {
    var core := TrimSpace(line);
    PadsIff(line, core);
    if IsProxyLink(core) {
      e := Link(core);
    } else if HasPrefix(core, DNS_DIRECTIVE) {
      var header := core[|DNS_DIRECTIVE|..];
      e := Resolvers(ParseHeaderDNS(header));
      HeaderIff(header, e.servers);
      assert core == DNS_DIRECTIVE + header;
    } else {
      e := Other;
    }
    assert Says(core, e);
  }

  lemma {:induction false} LinkLinesShown(lines: seq<Str>, entries: seq<Entry>)
    requires ShowsAll(lines, entries)
    ensures LinkLines(lines) == Listed(entries)
  {
    if lines != [] {
      LineIsRead(lines[0], entries[0]);
      LinkLinesShown(lines[1..], entries[1..]);
    }
  }

  lemma {:induction false} LastDNSShown(lines: seq<Str>, entries: seq<Entry>)
    requires ShowsAll(lines, entries)
    ensures Resolved(entries, LastDNS(lines))
  {
    if lines != [] {
      var n := |lines| - 1;
      LineIsRead(lines[n], entries[n]);
      assert entries == entries[..n] + [entries[n]];
      if !entries[n].Resolvers? {
        LastDNSShown(lines[..n], entries[..n]);
      }
      ResolvedAppend(entries[..n], entries[n], LastDNS(lines));
    }
  }

  lemma ResolvedAppend(init: seq<Entry>, last: Entry, dns: seq<Str>)
    requires if last.Resolvers? then dns == last.servers else Resolved(init, dns)
    ensures Resolved(init + [last], dns)
  {
    var all, n := init + [last], |init|;
    assert all[n] == last && all[..n] == init;
    forall k | LastDirective(all, k) ensures dns == all[k].servers {
      if k != n {
        assert !last.Resolvers?;
        assert forall j | k < j < n :: all[j] == init[j];
        assert LastDirective(init, k);
      }
    }
    if (forall e | e in all :: !e.Resolvers?) {
      assert last in all;
      assert forall e | e in init :: e in all;
    }
  }

  lemma {:induction false} EveryTextShows(lines: seq<Str>) returns (entries: seq<Entry>)
    requires forall l | l in lines :: LF !in l
    ensures ShowsAll(lines, entries)
  {
    if lines == [] {
      entries := [];
    } else {
      var e := EveryLineShows(lines[0]);
      entries := EveryTextShows(lines[1..]);
      entries := [e] + entries;
    }
  }

  // ----- white space around the whole text says nothing

  predicate SameLines(ls: seq<Str>, ms: seq<Str>) {
    |ls| == |ms| && forall i | 0 <= i < |ls| :: TrimSpace(ls[i]) == TrimSpace(ms[i])
  }

  lemma {:induction false} SameLinesReadAlike(ls: seq<Str>, ms: seq<Str>)
    requires SameLines(ls, ms)
    ensures LinkLines(ls) == LinkLines(ms) && LastDNS(ls) == LastDNS(ms)
  {
    if ls != [] {
      SameLinesReadAlike(ls[1..], ms[1..]);
      SameLinesReadAlike(ls[..|ls| - 1], ms[..|ms| - 1]);
    }
  }

  lemma {:induction false} BlankLineFirst(lines: seq<Str>)
    ensures LinkLines([[]] + lines) == LinkLines(lines) && LastDNS([[]] + lines) == LastDNS(lines)
  {
    var all := [[]] + lines;
    assert all[1..] == lines;
    if lines != [] {
      assert all[..|lines|] == [[]] + lines[..|lines| - 1];
      BlankLineFirst(lines[..|lines| - 1]);
    } else {
      assert all[..0] == [];
    }
  }

  lemma BlankLineLast(lines: seq<Str>)
    ensures LinkLines(lines + [[]]) == LinkLines(lines) && LastDNS(lines + [[]]) == LastDNS(lines)
  {
    LinkLinesAppend(lines, []);
    assert (lines + [[]])[..|lines|] == lines;
  }

  lemma PadFirst(c: Byte, lines: seq<Str>)
    requires c in WHITE && lines != []
    ensures var padded := [[c] + lines[0]] + lines[1..];
            LinkLines(padded) == LinkLines(lines) && LastDNS(padded) == LastDNS(lines)
  {
    SpaceIsWhite(c);
    assert ([c] + lines[0])[1..] == lines[0];
    assert TrimSpace([c] + lines[0]) == TrimSpace(lines[0]);
    SameLinesReadAlike([[c] + lines[0]] + lines[1..], lines);
  }

  lemma {:induction false} BlankBefore(left: Str, s: Str)
    requires Blank(left)
    ensures LinkLines(Split(left + s, LF)) == LinkLines(Split(s, LF)) && LastDNS(Split(left + s, LF)) == LastDNS(Split(s, LF))
  {
    if left == [] {
      assert left + s == s;
    } else {
      var t := left[1..] + s;
      BlankBefore(left[1..], s);
      assert (left + s)[1..] == t;
      if left[0] == LF {
        BlankLineFirst(Split(t, LF));
      } else {
        PadFirst(left[0], Split(t, LF));
      }
    }
  }

  lemma TrimOneMore(line: Str, c: Byte)
    requires c in WHITE
    ensures TrimSpace(line + [c]) == TrimSpace(line)
  {
    var left, right := TrimSplits(line);
    TrimPadded(left, TrimSpace(line), right + [c]);
    assert left + TrimSpace(line) + (right + [c]) == line + [c];
  }

  /** The lines when one more byte is appended to the text. */
  function Grown(lines: seq<Str>, c: Byte): seq<Str>
    requires lines != []
  {
    if |lines| > 1 then [lines[0]] + Grown(lines[1..], c)
    else if c == LF then [lines[0], []]
    else [lines[0] + [c]]
  }

  lemma {:induction false} GrownAtEnd(lines: seq<Str>, c: Byte)
    requires lines != []
    ensures c == LF ==> Grown(lines, c) == lines + [[]]
    ensures c in WHITE && c != LF ==> SameLines(Grown(lines, c), lines)
  {
    if |lines| > 1 {
      GrownAtEnd(lines[1..], c);
      assert lines == [lines[0]] + lines[1..];
    } else if c in WHITE {
      TrimOneMore(lines[0], c);
    }
  }

  lemma {:induction false} SplitAppend(s: Str, c: Byte)
    ensures Split(s + [c], LF) == Grown(Split(s, LF), c)
  {
    if s == [] {
      assert [] + [c] == [c] && [c][1..] == [];
      assert [c] + [] == [c];
    } else {
      assert (s + [c])[1..] == s[1..] + [c];
      SplitAppend(s[1..], c);
      FirstGrows(s[0], Split(s[1..], LF), c);
    }
  }

  lemma FirstGrows(first: Byte, rest: seq<Str>, c: Byte)
    requires rest != []
    ensures [[]] + Grown(rest, c) == Grown([[]] + rest, c)
    ensures [[first] + Grown(rest, c)[0]] + Grown(rest, c)[1..] == Grown([[first] + rest[0]] + rest[1..], c)
  {
    assert ([[]] + rest)[1..] == rest;
    if |rest| == 1 {
      assert [first] + (rest[0] + [c]) == ([first] + rest[0]) + [c];
    } else {
      assert ([[first] + rest[0]] + rest[1..])[1..] == rest[1..];
    }
  }

  lemma {:induction false} BlankAfter(s: Str, right: Str)
    requires Blank(right)
    ensures LinkLines(Split(s + right, LF)) == LinkLines(Split(s, LF)) && LastDNS(Split(s + right, LF)) == LastDNS(Split(s, LF))
    decreases right
  {
    if right == [] {
      assert s + right == s;
    } else {
      var c := right[0];
      assert s + right == (s + [c]) + right[1..];
      BlankAfter(s + [c], right[1..]);
      SplitAppend(s, c);
      var lines := Split(s, LF);
      GrownAtEnd(lines, c);
      if c == LF {
        BlankLineLast(lines);
      } else {
        SameLinesReadAlike(Split(s + [c], LF), lines);
      }
    }
  }

  lemma TrimmedTextMeansTheSame(text: Str, nameOf: Str -> Str)
    ensures LinkLines(Split(TrimSpace(text), LF)) == LinkLines(Split(text, LF))
    ensures Meaning(TrimSpace(text), nameOf) == Meaning(text, nameOf)
  {
    var left, right := TrimSplits(text);
    BlankAfter(left + TrimSpace(text), right);
    BlankBefore(left, TrimSpace(text));
  }

  // ----- the subscription laws

  /** How a provider may ship a text: as it is, or base64 with blanks inserted anywhere. */
  ghost predicate Ships(raw: Str, text: Str) {
    || raw == text
    || exists v: Variant :: Without(raw, BLANKS) == Encode(v, text)
  }

  lemma {:induction false} LinkLinesAreLinks(lines: seq<Str>, l: Str) returns (line: Str)
    requires l in LinkLines(lines)
    ensures l != [] && IsProxyLink(l) && line in lines && TrimSpace(line) == l
  {
    if IsLinkLine(lines[0]) && TrimSpace(lines[0]) == l {
      line := lines[0];
    } else {
      line := LinkLinesAreLinks(lines[1..], l);
    }
  }

  lemma {:induction false} JoinHolds(parts: seq<Str>, sep: Byte, p: Str) returns (before: Str, after: Str)
    requires p in parts
    ensures Join(parts, sep) == before + p + after
  {
    if |parts| == 1 {
      before, after := [], [];
    } else if parts[0] == p {
      before, after := [], [sep] + Join(parts[1..], sep);
    } else {
      before, after := JoinHolds(parts[1..], sep, p);
      before := parts[0] + [sep] + before;
    }
  }

  /** A text with a link line shows a link. */
  lemma LinkLinesShow(text: Str)
    requires LinkLines(Split(text, LF)) != []
    ensures ContainsProxyLink(text)
  {
    var l := LinkLines(Split(text, LF))[0];
    var line := LinkLinesAreLinks(Split(text, LF), l);
    JoinSplit(text, LF);
    var before, after := JoinHolds(Split(text, LF), LF, line);
    LinkLineWithin(before, line, after);
  }

  lemma LinkLineWithin(before: Str, line: Str, after: Str)
    requires IsProxyLink(TrimSpace(line))
    ensures ContainsProxyLink(before + line + after)
  {
    var left, right := TrimSplits(line);
    assert before + line + after == (before + left) + TrimSpace(line) + (right + after);
    LinkWithin(before + left, TrimSpace(line), right + after);
  }

  lemma LinkWithin(before: Str, link: Str, after: Str)
    requires IsProxyLink(link)
    ensures ContainsProxyLink(before + link + after)
  {
    var text := before + link + after;
    assert text[|before|..] == link + after;
    LongerLink(link, after);
    ContainsProxyLinkIff(text);
  }

  lemma LongerLink(link: Str, after: Str)
    requires IsProxyLink(link)
    ensures IsProxyLink(link + after)
  {
    var i :| 0 <= i < |KNOWN_SCHEMES| && HasPrefix(ToLower(link), KNOWN_SCHEMES[i]);
    assert ToLower(link) <= ToLower(link + after);
  }

  /** Every way of shipping a text with a link line is read as that text. */
  lemma ShippedTextIsRead(raw: Str, text: Str, nameOf: Str -> Str)
    requires LinkLines(Split(text, LF)) != [] && Ships(raw, text)
    ensures Sniff(VARIANTS, TrimSpace(raw)) == if raw == text then TrimSpace(text) else text
    ensures Meaning(Sniff(VARIANTS, TrimSpace(raw)), nameOf) == Meaning(text, nameOf)
  {
    TrimmedTextMeansTheSame(text, nameOf);
    if raw == text {
      LinkLinesShow(TrimSpace(text));
      SniffKeepsPlainText(TrimSpace(text));
    } else {
      LinkLinesShow(text);
      var v: Variant :| Without(raw, BLANKS) == Encode(v, text);
      EncodeSymbols(v, text);
      forall c | c in raw && IsSpace(c) ensures c in BLANKS {
        assert c in BLANKS || c in Encode(v, text);
      }
      WithoutTrim(raw, BLANKS);
      SniffDecodes(v, text, TrimSpace(raw));
    }
  }

  /**
   The round trip: lines padded with white space, each a link, a DNS directive or anything else,
   at least one of them a link, shipped as they are or as base64 in any of the four variants with
   blanks anywhere, come back as the distinct links in order and the resolvers of the last directive.
   */
  lemma SubscriptionRoundTrip(lines: seq<Str>, entries: seq<Entry>, raw: Str, nameOf: Str -> Str)
    requires ShowsAll(lines, entries) && Listed(entries) != []
    requires Ships(raw, Join(lines, LF))
    ensures var r := Meaning(Sniff(VARIANTS, TrimSpace(raw)), nameOf);
            && r.Ok?
            && Links(r.value.profiles) == Dedup(Listed(entries))
            && (forall p | p in r.value.profiles :: p == Profile(nameOf(p.link), p.link, false))
            && Resolved(entries, r.value.dns)
  {
    var text := Join(lines, LF);
    SplitJoin(lines, LF);
    LinkLinesShown(lines, entries);
    LastDNSShown(lines, entries);
    ShippedTextIsRead(raw, text, nameOf);
    MeaningParts(text, nameOf);
  }

  lemma MeaningParts(text: Str, nameOf: Str -> Str)
    ensures var r, links := Meaning(text, nameOf), LinkLines(Split(text, LF));
            && (r.Ok? <==> links != [])
            && (r.Ok? ==>
                  && Links(r.value.profiles) == Dedup(links)
                  && (forall p | p in r.value.profiles :: p == Profile(nameOf(p.link), p.link, false))
                  && r.value.dns == LastDNS(Split(text, LF)))
  {
    var links := LinkLines(Split(text, LF));
    DedupSameElements(links);
    if links != [] {
      assert links[0] in Dedup(links);
    }
  }

  /**
   Conversely, whatever is accepted reads so: the text's lines show entries whose distinct links,
   each of a known scheme and trimmed, are the profiles, and whose last directive is the resolvers.
   */
  lemma AcceptedSubscriptions(text: Str, nameOf: Str -> Str) returns (lines: seq<Str>, entries: seq<Entry>)
    requires Meaning(text, nameOf).Ok?
    ensures lines != [] && text == Join(lines, LF) && ShowsAll(lines, entries)
    ensures var links := Links(Meaning(text, nameOf).value.profiles);
            && links == Dedup(Listed(entries)) && links != []
            && (forall i, j | 0 <= i < j < |links| :: links[i] != links[j])
            && (forall l | l in links :: l != [] && Trimmed(l) && LF !in l && IsProxyLink(l))
    ensures Resolved(entries, Meaning(text, nameOf).value.dns)
  {
    lines := Split(text, LF);
    JoinSplit(text, LF);
    entries := EveryTextShows(lines);
    LinkLinesShown(lines, entries);
    LastDNSShown(lines, entries);
    MeaningParts(text, nameOf);
    DedupSameElements(LinkLines(lines));
    forall l | l in LinkLines(lines) ensures l != [] && Trimmed(l) && LF !in l && IsProxyLink(l) {
      LinkIsTrimmed(lines, l);
    }
  }

  lemma LinkIsTrimmed(lines: seq<Str>, l: Str)
    requires l in LinkLines(lines) && forall line | line in lines :: LF !in line
    ensures l != [] && Trimmed(l) && LF !in l && IsProxyLink(l)
  {
    var line := LinkLinesAreLinks(lines, l);
    var left, right := TrimSplits(line);
    assert forall c | c in l :: c in line;
  }

  /** A text is refused exactly when no line of it is a link. */
  lemma RefusedIff(lines: seq<Str>, entries: seq<Entry>, nameOf: Str -> Str)
    requires lines != [] && ShowsAll(lines, entries)
    ensures Meaning(Join(lines, LF), nameOf) == Err(NoValidLinks) <==> forall e | e in entries :: !e.Link?
  {
    SplitJoin(lines, LF);
    LinkLinesShown(lines, entries);
    MeaningParts(Join(lines, LF), nameOf);
    ListedIsLinks(entries);
  }

  lemma {:induction false} ListedIsLinks(entries: seq<Entry>)
    ensures forall l :: l in Listed(entries) <==> Link(l) in entries
    ensures Listed(entries) == [] <==> forall e | e in entries :: !e.Link?
  {
    if entries != [] {
      ListedIsLinks(entries[1..]);
      assert entries == [entries[0]] + entries[1..];
    }
  }
}
