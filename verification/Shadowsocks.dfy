/** The Shadowsocks link parser (src/xrayconf.go, buildSSOutbound and outboundJSON). */
module Shadowsocks {
  import opened Wrappers
  import opened Strings
  import opened Base64

  const SCHEME: Str := "ss://"
  const COLON: Byte := ':'
  const AT: Byte := '@'
  const HASH: Byte := '#'
  const OPEN: Byte := '['
  const CLOSE: Byte := ']'

  // ----- net.SplitHostPort and strconv.Atoi

  datatype HostPortError = MissingPort | MissingBracket | TooManyColons | UnexpectedBracket

  function SplitHostPort(s: Str): Result<(Str, Str), HostPortError> {
    var i := LastIndex(s, COLON);
    if i == |s| then Err(MissingPort)
    else if s[0] == OPEN then
      var end := Index(s, CLOSE);
      if end == |s| then Err(MissingBracket)
      else if end + 1 == |s| then Err(MissingPort)
      else if end + 1 != i then
        if s[end + 1] == COLON then Err(TooManyColons) else Err(MissingPort)
      else if OPEN in s[1..] || CLOSE in s[end + 1..] then Err(UnexpectedBracket)
      else Ok((s[1..end], s[i + 1..]))
    else if COLON in s[..i] then Err(TooManyColons)
    else if OPEN in s || CLOSE in s then Err(UnexpectedBracket)
    else Ok((s[..i], s[i + 1..]))
  }

  predicate IsDigit(c: Byte) { '0' <= c <= '9' }

  function Digits(s: Str): nat
    requires forall c | c in s :: IsDigit(c)
  {
    if s == [] then 0
    else
      var last := s[|s| - 1];
      assert IsDigit(last);
      Digits(s[..|s| - 1]) * 10 + (last as int - 48)
  }

  /** The number of an optionally signed decimal; a value beyond 64 bits is out of every port range anyway. */
  function Atoi(s: Str): Option<int> {
    var signed := s != [] && (s[0] == '+' || s[0] == '-');
    var digits := if signed then s[1..] else s;
    if digits == [] || exists c | c in digits :: !IsDigit(c) then None
    else
      var n: int := Digits(digits);
      Some(if s[0] == '-' then -n else n)
  }

  // ----- what numbers are read

  /** The decimal numeral of n, most significant digit first. */
  function Decimal(n: nat): (r: Str)
    ensures r != [] && forall c | c in r :: IsDigit(c)
  {
    var last := "0123456789"[n % 10];
    if n < 10 then [last] else Decimal(n / 10) + [last]
  }

  function Zeros(k: nat): (r: Str)
    ensures |r| == k && forall i | 0 <= i < k :: r[i] == '0'
  {
    seq(k, i => '0')
  }

  lemma {:induction false} DigitsOfDecimal(zeros: nat, n: nat)
    ensures Digits(Zeros(zeros) + Decimal(n)) == n
  {
    var s := Zeros(zeros) + Decimal(n);
    DigitIs(n % 10);
    if n < 10 {
      assert s[..|s| - 1] == Zeros(zeros);
      DigitsOfZeros(zeros);
    } else {
      assert s[..|s| - 1] == Zeros(zeros) + Decimal(n / 10);
      DigitsOfDecimal(zeros, n / 10);
    }
  }

  lemma DigitIs(d: nat)
    requires d < 10
    ensures "0123456789"[d] as int == d + 48
  {
  }

  lemma {:induction false} DigitsOfZeros(k: nat)
    ensures Digits(Zeros(k)) == 0
  {
    if k > 0 {
      assert Zeros(k)[..k - 1] == Zeros(k - 1);
      DigitsOfZeros(k - 1);
    }
  }

  /** A numeral, with or without leading zeros and with or without a sign, is read as its number. */
  lemma AtoiDecimal(zeros: nat, n: nat)
    ensures var s := Zeros(zeros) + Decimal(n);
            Atoi(s) == Some(n) && Atoi(['+'] + s) == Some(n) && Atoi(['-'] + s).Some? && Atoi(['-'] + s).value + n == 0
  {
    var s := Zeros(zeros) + Decimal(n);
    assert IsPort(s);
    DigitsOfDecimal(zeros, n);
    AtoiUnsigned(s);
    AtoiSigned(s, '+');
    AtoiSigned(s, '-');
  }

  lemma AtoiUnsigned(s: Str)
    requires IsPort(s)
    ensures Atoi(s) == Some(Digits(s))
  {
    assert IsDigit(s[0]);
  }

  lemma AtoiSigned(s: Str, sign: Byte)
    requires IsPort(s) && sign in {'+', '-'}
    ensures Atoi([sign] + s).Some? && Atoi([sign] + s).value == if sign == '-' then 0 - Digits(s) as int else Digits(s)
  {
    assert ([sign] + s)[1..] == s;
  }

  /** Every string of digits is a numeral with leading zeros. */
  lemma {:induction false} EveryNumeral(s: Str) returns (zeros: nat, n: nat)
    requires IsPort(s)
    ensures s == Zeros(zeros) + Decimal(n)
  {
    var d := s[|s| - 1];
    assert IsDigit(d);
    var last := d as int - 48;
    DigitIs(last);
    var init := s[..|s| - 1];
    assert s == init + [d];
    if init == [] {
      zeros, n := 0, last;
      assert Decimal(n) == [d];
    } else {
      var m;
      zeros, m := EveryNumeral(init);
      if m == 0 {
        zeros, n := zeros + 1, last;
        assert Decimal(0) == ['0'] && Zeros(zeros) == Zeros(zeros - 1) + ['0'];
        assert Decimal(n) == [d];
      } else {
        n := m * 10 + last;
        assert n / 10 == m && n % 10 == last;
        assert Decimal(n) == Decimal(m) + [d];
      }
    }
  }

  /** Nothing else is read as a number. */
  lemma AtoiIff(s: Str)
    ensures Atoi(s).Some? <==> IsPort(s) || (s != [] && s[0] in {'+', '-'} && IsPort(s[1..]))
  {
    if s != [] {
      assert s[0] in s;
      assert !IsDigit('+') && !IsDigit('-');
    }
  }

  // ----- buildSSOutbound

  datatype Server = Server(method_: Str, password: Str, address: Str, port: int)

  /** address and port as returned; settings is the JSON server entry, None for JSON null. */
  datatype Outbound = Outbound(address: Str, port: Str, settings: Option<Server>)

  datatype SSError = BadUserinfo | BadHostPort | NoAddress

  /** outboundJSON: null unless the port is a number from 1 to 65535. */
  function OutboundJSON(method_: Str, password: Str, address: Str, port: Str): Option<Server> {
    match Atoi(port)
    case None => None
    case Some(p) => if p < 1 || p > 65535 then None else Some(Server(method_, password, address, p))
  }

  /** SplitN(userinfo, ":", 2) with exactly two parts. */
  function SplitUserinfo(s: Str): Result<(Str, Str), SSError> {
    var i := Index(s, COLON);
    if i == |s| then Err(BadUserinfo) else Ok((s[..i], s[i + 1..]))
  }

  function Finish(user: Result<(Str, Str), SSError>, hostPort: Str): Result<Outbound, SSError> {
    match user
    case Err(e) => Err(e)
    case Ok((m, p)) =>
      match SplitHostPort(hostPort)
      case Err(_) => Err(BadHostPort)
      case Ok((host, port)) =>
        if host == "" then Err(NoAddress) else Ok(Outbound(host, port, OutboundJSON(m, p, host, port)))
  }

  /** The link without its scheme and its fragment. */
  function Body(link: Str): Str {
    var tail := if HasPrefix(link, SCHEME) then link[|SCHEME|..] else link;
    tail[..Index(tail, HASH)]
  }

  function ParseBody(raw: Str): Result<Outbound, SSError> {
    var at := Index(raw, AT);
    if at < |raw| then
      match TryB64Decode(raw[..at])
      case None => Err(BadUserinfo)
      case Some(userinfo) => Finish(SplitUserinfo(userinfo), raw[at + 1..])
    else
      match TryB64Decode(raw)
      case None => Err(BadUserinfo)
      case Some(decoded) => ParseDecoded(decoded)
  }

  function ParseDecoded(decoded: Str): Result<Outbound, SSError> {
    var at := Index(decoded, AT);
    if at == |decoded| then Err(NoAddress)
    else Finish(SplitUserinfo(decoded[..at]), decoded[at + 1..])
  }

  function BuildSSOutbound(link: Str): Result<Outbound, SSError> {
    ParseBody(Body(link))
  }

  // ----- links as clients render them

  /** net.JoinHostPort: an address with a colon is bracketed. */
  function JoinHostPort(host: Str, port: Str): Str {
    (if COLON in host then [OPEN] + host + [CLOSE] else host) + [COLON] + port
  }

  /** SIP002: the userinfo alone is encoded. */
  function Sip002Link(v: Variant, method_: Str, password: Str, host: Str, port: Str, fragment: Option<Str>): Str {
    SCHEME + Encode(v, method_ + [COLON] + password) + [AT] + JoinHostPort(host, port) + Tail(fragment)
  }

  /** A link may end in a '#' and a fragment, which may be anything. */
  function Tail(fragment: Option<Str>): Str {
    match fragment
    case None => []
    case Some(f) => [HASH] + f
  }

  /** The older form: everything before the fragment is encoded. */
  function LegacyLink(v: Variant, method_: Str, password: Str, host: Str, port: Str, fragment: Option<Str>): Str {
    SCHEME + Encode(v, method_ + [COLON] + password + [AT] + JoinHostPort(host, port)) + Tail(fragment)
  }

  /** A host name, an IPv4 or an IPv6 address: no bracket, no fragment mark. */
  predicate IsHost(host: Str) {
    host != "" && OPEN !in host && CLOSE !in host && HASH !in host
  }

  predicate IsPort(port: Str) {
    port != [] && forall c | c in port :: IsDigit(c)
  }

  /** Neither a colon nor a bracket. */
  predicate IsBare(s: Str) {
    COLON !in s && OPEN !in s && CLOSE !in s
  }

  lemma SplitPlain(host: Str, port: Str)
    requires IsBare(host) && IsBare(port)
    ensures SplitHostPort(host + [COLON] + port) == Ok((host, port))
  {
    var s := host + [COLON] + port;
    LastIndexAt(host, COLON, port);
    assert s[0] == if host == [] then COLON else host[0];
    assert s[..|host|] == host && s[|host| + 1..] == port;
  }

  lemma SplitAtBracket(s: Str, end: nat)
    requires end + 1 < |s| && s[0] == OPEN && Index(s, CLOSE) == end && LastIndex(s, COLON) == end + 1
    requires end > 0 && OPEN !in s[1..] && CLOSE !in s[end + 1..]
    ensures SplitHostPort(s) == Ok((s[1..end], s[end + 2..]))
  {
  }

  lemma SplitBracketed(host: Str, port: Str)
    requires OPEN !in host && CLOSE !in host && IsBare(port)
    ensures SplitHostPort([OPEN] + host + [CLOSE] + [COLON] + port) == Ok((host, port))
  {
    var s := [OPEN] + host + [CLOSE] + [COLON] + port;
    var end := |host| + 1;
    assert LastIndex(s, COLON) == end + 1 by {
      LastIndexAt([OPEN] + host + [CLOSE], COLON, port);
    }
    assert Index(s, CLOSE) == end by {
      assert s == ([OPEN] + host) + [CLOSE] + ([COLON] + port);
      IndexAt([OPEN] + host, CLOSE, [COLON] + port);
    }
    assert s[1..end] == host && s[end + 2..] == port;
    assert s[1..] == host + [CLOSE] + [COLON] + port;
    assert s[end + 1..] == [COLON] + port;
    SplitAtBracket(s, end);
  }

  lemma SplitJoinHostPort(host: Str, port: Str)
    requires IsHost(host) && IsPort(port)
    ensures SplitHostPort(JoinHostPort(host, port)) == Ok((host, port))
  {
    assert IsBare(port) by {
      assert !IsDigit(COLON) && !IsDigit(OPEN) && !IsDigit(CLOSE);
    }
    if COLON in host {
      SplitBracketed(host, port);
    } else {
      SplitPlain(host, port);
    }
  }

  /** An accepted host:port is the host, bare or bracketed, a colon and the port. */
  lemma SplitHostPortInverse(s: Str, host: Str, port: Str)
    requires SplitHostPort(s) == Ok((host, port))
    ensures s == host + [COLON] + port || s == [OPEN] + host + [CLOSE] + [COLON] + port
  {
    var i := LastIndex(s, COLON);
    assert s == s[..i] + [COLON] + s[i + 1..];
    if s[0] == OPEN {
      var end := Index(s, CLOSE);
      assert s[..i] == [OPEN] + s[1..end] + [CLOSE];
    }
  }

  lemma BracketMisplaced(more: Str, host: Str, port: Str)
    requires more != [] && host != "" && CLOSE !in host
    ensures more + host + [COLON] + port != [OPEN] + host + [CLOSE] + [COLON] + port
  {
    var s, t := more + host + [COLON] + port, [OPEN] + host + [CLOSE] + [COLON] + port;
    var k := |t| - |port| - 2;
    assert t[k] == CLOSE;
    assert |s| == |t| ==> s[k] == host[|host| - 1];
  }

  lemma LongerHostPortDiffers(more: Str, host: Str, port: Str)
    requires more != [] && IsHost(host) && IsPort(port)
    ensures SplitHostPort(more + JoinHostPort(host, port)) != Ok((host, port))
  {
    var s := more + JoinHostPort(host, port);
    if SplitHostPort(s) == Ok((host, port)) {
      SplitHostPortInverse(s, host, port);
      BracketMisplaced(more, host, port);
    }
  }

  lemma SplitJoinUserinfo(method_: Str, password: Str)
    requires COLON !in method_
    ensures SplitUserinfo(method_ + [COLON] + password) == Ok((method_, password))
  {
    IndexAt(method_, COLON, password);
    var s := method_ + [COLON] + password;
    assert s[..|method_|] == method_ && s[|method_| + 1..] == password;
  }

  lemma BodyOf(body: Str, fragment: Option<Str>)
    requires HASH !in body
    ensures Body(SCHEME + body + Tail(fragment)) == body
  {
    var link := SCHEME + body + Tail(fragment);
    assert link[|SCHEME|..] == body + Tail(fragment);
    match fragment
    case None =>
      assert body + Tail(fragment) == body;
    case Some(f) =>
      assert body + Tail(fragment) == body + [HASH] + f;
      IndexAt(body, HASH, f);
  }

  lemma EncodedPart(v: Variant, text: Str)
    ensures TryB64Decode(Encode(v, text)) == Some(text)
    ensures HASH !in Encode(v, text) && AT !in Encode(v, text)
  {
    EncodeSymbols(v, text);
    WithoutNothing(Encode(v, text), BLANKS);
    EncodedTextFound(v, text, Encode(v, text));
  }

  lemma ParseEncodedUserinfo(v: Variant, userinfo: Str, hostPort: Str)
    ensures ParseBody(Encode(v, userinfo) + [AT] + hostPort) == Finish(SplitUserinfo(userinfo), hostPort)
  {
    var encoded := Encode(v, userinfo);
    var raw := encoded + [AT] + hostPort;
    EncodedPart(v, userinfo);
    IndexAt(encoded, AT, hostPort);
    assert raw[..|encoded|] == encoded && raw[|encoded| + 1..] == hostPort;
  }

  lemma ParseEncodedWhole(v: Variant, user: Str, hostPort: Str)
    requires AT !in user
    ensures ParseBody(Encode(v, user + [AT] + hostPort)) == Finish(SplitUserinfo(user), hostPort)
  {
    var text := user + [AT] + hostPort;
    EncodedPart(v, text);
    IndexAt(user, AT, hostPort);
    assert text[..|user|] == user && text[|user| + 1..] == hostPort;
  }

  /** What a rendered link must be parsed to: the same fields, settings exactly for a port from 1 to 65535. */
  function Expected(method_: Str, password: Str, host: Str, port: Str, n: nat): Outbound {
    Outbound(host, port, if 1 <= n <= 65535 then Some(Server(method_, password, host, n)) else None)
  }

  lemma FinishRendered(method_: Str, password: Str, host: Str, zeros: nat, n: nat)
    requires COLON !in method_ && IsHost(host)
    ensures var port := Zeros(zeros) + Decimal(n);
            Finish(SplitUserinfo(method_ + [COLON] + password), JoinHostPort(host, port))
            == Ok(Expected(method_, password, host, port, n))
  {
    var port := Zeros(zeros) + Decimal(n);
    SplitJoinUserinfo(method_, password);
    assert IsPort(port);
    SplitJoinHostPort(host, port);
    AtoiDecimal(zeros, n);
  }

  /**
   SIP002 links come back whole; the password may hold ':' and '@'.  The port is any string of
   digits, which is a numeral of n with leading zeros.
   */
  lemma Sip002RoundTrip(v: Variant, method_: Str, password: Str, host: Str, zeros: nat, n: nat, fragment: Option<Str>)
    requires COLON !in method_ && IsHost(host)
    ensures var port := Zeros(zeros) + Decimal(n);
            BuildSSOutbound(Sip002Link(v, method_, password, host, port, fragment))
            == Ok(Expected(method_, password, host, port, n))
  {
    Sip002Parses(v, method_, password, host, Zeros(zeros) + Decimal(n), fragment);
    FinishRendered(method_, password, host, zeros, n);
  }

  lemma Sip002Parses(v: Variant, method_: Str, password: Str, host: Str, port: Str, fragment: Option<Str>)
    requires IsHost(host) && IsPort(port)
    ensures BuildSSOutbound(Sip002Link(v, method_, password, host, port, fragment))
         == Finish(SplitUserinfo(method_ + [COLON] + password), JoinHostPort(host, port))
  {
    var user := method_ + [COLON] + password;
    var hostPort := JoinHostPort(host, port);
    var body := Encode(v, user) + [AT] + hostPort;
    assert Sip002Link(v, method_, password, host, port, fragment) == SCHEME + body + Tail(fragment);
    assert HASH !in body by {
      EncodedPart(v, user);
      PortHasNoHash(host, port);
    }
    BodyOf(body, fragment);
    ParseEncodedUserinfo(v, user, hostPort);
  }

  lemma PortHasNoHash(host: Str, port: Str)
    requires IsHost(host) && IsPort(port)
    ensures HASH !in JoinHostPort(host, port)
  {
    assert !IsDigit(HASH);
  }

  /**
   Legacy links come back whole exactly when the password holds no '@': the user part of the
   decoded text ends at its first '@'.
   */
  lemma LegacyRoundTrip(v: Variant, method_: Str, password: Str, host: Str, zeros: nat, n: nat, fragment: Option<Str>)
    requires COLON !in method_ && AT !in method_ && IsHost(host)
    ensures var port := Zeros(zeros) + Decimal(n);
            BuildSSOutbound(LegacyLink(v, method_, password, host, port, fragment))
            == Ok(Expected(method_, password, host, port, n))
            <==> AT !in password
  {
    var port := Zeros(zeros) + Decimal(n);
    var hostPort := JoinHostPort(host, port);
    var text := method_ + [COLON] + password + [AT] + hostPort;
    EncodedPart(v, text);
    BodyOf(Encode(v, text), fragment);
    if AT !in password {
      ParseEncodedWhole(v, method_ + [COLON] + password, hostPort);
      FinishRendered(method_, password, host, zeros, n);
    } else {
      assert IsPort(port);
      EarlierAt(v, method_, password, host, port, n);
    }
  }

  lemma EarlierAt(v: Variant, method_: Str, password: Str, host: Str, port: Str, n: nat)
    requires COLON !in method_ && AT !in method_ && AT in password && IsHost(host) && IsPort(port)
    ensures ParseBody(Encode(v, method_ + [COLON] + password + [AT] + JoinHostPort(host, port)))
         != Ok(Expected(method_, password, host, port, n))
  {
    var hostPort := JoinHostPort(host, port);
    var cut := Index(password, AT);
    var user, rest := method_ + [COLON] + password[..cut], password[cut + 1..] + [AT];
    assert password == password[..cut] + [AT] + password[cut + 1..];
    assert method_ + [COLON] + password + [AT] + hostPort == user + [AT] + (rest + hostPort);
    ParseEncodedWhole(v, user, rest + hostPort);
    LongerHostPortDiffers(rest, host, port);
  }

  // ----- exactly what is accepted

  /** A host without brackets and colons, or any host without brackets inside a pair of them, and a port without either. */
  predicate IsHostPort(s: Str, host: Str, port: Str) {
    && COLON !in port && OPEN !in port && CLOSE !in port && OPEN !in host && CLOSE !in host
    && ((COLON !in host && s == host + [COLON] + port) || s == [OPEN] + host + [CLOSE] + [COLON] + port)
  }

  lemma SplitHostPortIff(s: Str, host: Str, port: Str)
    ensures SplitHostPort(s) == Ok((host, port)) <==> IsHostPort(s, host, port)
  {
    if SplitHostPort(s) == Ok((host, port)) {
      SplitHostPortParts(s, host, port);
    }
    if IsHostPort(s, host, port) {
      if s == [OPEN] + host + [CLOSE] + [COLON] + port {
        SplitBracketed(host, port);
      } else {
        SplitPlain(host, port);
      }
    }
  }

  lemma SplitHostPortParts(s: Str, host: Str, port: Str)
    requires SplitHostPort(s) == Ok((host, port))
    ensures IsHostPort(s, host, port)
  {
    SplitHostPortInverse(s, host, port);
    var i := LastIndex(s, COLON);
    assert forall c | c in port :: c in s;
    if s[0] == OPEN {
      var end := Index(s, CLOSE);
      assert host == s[1..end];
      assert forall c | c in host :: c in s[1..];
      assert forall c | c in port :: c in s[1..] && c in s[end + 1..];
    } else {
      assert host == s[..i];
      assert forall c | c in host :: c in s && c in s[..i];
    }
  }

  lemma SplitUserinfoIff(s: Str, method_: Str, password: Str)
    ensures SplitUserinfo(s) == Ok((method_, password)) <==> COLON !in method_ && s == method_ + [COLON] + password
  {
    if COLON !in method_ && s == method_ + [COLON] + password {
      SplitJoinUserinfo(method_, password);
    }
  }

  /** The settings of an accepted link: null unless the port is a numeral, signed or not, of 1 to 65535. */
  predicate SettingsFit(out: Outbound, method_: Str, password: Str) {
    match out.settings
    case Some(server) =>
      server == Server(method_, password, out.address, server.port) && 1 <= server.port <= 65535 && Atoi(out.port) == Some(server.port)
    case None => forall n | 1 <= n <= 65535 :: Atoi(out.port) != Some(n)
  }

  /** The parts of an accepted link, in its SIP002 or in its older form. */
  predicate Reads(raw: Str, user: Str, hostPort: Str) {
    if AT in raw then
      var at := Index(raw, AT);
      TryB64Decode(raw[..at]) == Some(user) && hostPort == raw[at + 1..]
    else AT !in user && TryB64Decode(raw) == Some(user + [AT] + hostPort)
  }

  /** A link that reads so is accepted with these fields. */
  lemma ReadsAccepted(link: Str, user: Str, hostPort: Str, method_: Str, password: Str, out: Outbound)
    requires Reads(Body(link), user, hostPort) && user == method_ + [COLON] + password && COLON !in method_
    requires IsHostPort(hostPort, out.address, out.port) && out.address != "" && SettingsFit(out, method_, password)
    ensures BuildSSOutbound(link) == Ok(out)
  {
    ReadsParse(Body(link), user, hostPort);
    SplitUserinfoIff(user, method_, password);
    SplitHostPortIff(hostPort, out.address, out.port);
    SettingsDetermined(out, method_, password);
  }

  lemma SettingsDetermined(out: Outbound, method_: Str, password: Str)
    requires SettingsFit(out, method_, password)
    ensures out.settings == OutboundJSON(method_, password, out.address, out.port)
  {
    match out.settings
    case Some(server) =>
    case None =>
      if Atoi(out.port).Some? {
        var n := Atoi(out.port).value;
        assert !(1 <= n <= 65535);
      }
  }

  lemma ReadsParse(raw: Str, user: Str, hostPort: Str)
    requires Reads(raw, user, hostPort)
    ensures ParseBody(raw) == Finish(SplitUserinfo(user), hostPort)
  {
    if AT !in raw {
      var text := user + [AT] + hostPort;
      IndexAt(user, AT, hostPort);
      assert text[..|user|] == user && text[|user| + 1..] == hostPort;
    }
  }

  /** Conversely whatever is accepted reads so. */
  lemma AcceptedReads(link: Str, out: Outbound) returns (user: Str, hostPort: Str, method_: Str, password: Str)
    requires BuildSSOutbound(link) == Ok(out)
    ensures Reads(Body(link), user, hostPort) && user == method_ + [COLON] + password && COLON !in method_
    ensures IsHostPort(hostPort, out.address, out.port) && out.address != "" && SettingsFit(out, method_, password)
  {
    user, hostPort := ParsedParts(Body(link));
    ReadsParse(Body(link), user, hostPort);
    method_, password := FinishedParts(user, hostPort, out);
  }

  lemma ParsedParts(raw: Str) returns (user: Str, hostPort: Str)
    requires ParseBody(raw).Ok?
    ensures Reads(raw, user, hostPort)
  {
    var at := Index(raw, AT);
    if at < |raw| {
      user, hostPort := TryB64Decode(raw[..at]).value, raw[at + 1..];
    } else {
      var decoded := TryB64Decode(raw).value;
      var cut := Index(decoded, AT);
      user, hostPort := decoded[..cut], decoded[cut + 1..];
      assert decoded == user + [AT] + hostPort;
      assert AT !in user;
    }
  }

  lemma FinishedParts(user: Str, hostPort: Str, out: Outbound) returns (method_: Str, password: Str)
    requires Finish(SplitUserinfo(user), hostPort) == Ok(out)
    ensures user == method_ + [COLON] + password && COLON !in method_
    ensures IsHostPort(hostPort, out.address, out.port) && out.address != "" && SettingsFit(out, method_, password)
  {
    method_, password := SplitUserinfo(user).value.0, SplitUserinfo(user).value.1;
    SplitUserinfoIff(user, method_, password);
    SplitHostPortIff(hostPort, out.address, out.port);
  }

  /** The link says so: these parts, in one of the two forms. */
  ghost predicate Says(link: Str, out: Outbound) {
    exists user, hostPort, method_, password ::
      && Reads(Body(link), user, hostPort) && user == method_ + [COLON] + password && COLON !in method_
      && IsHostPort(hostPort, out.address, out.port) && out.address != "" && SettingsFit(out, method_, password)
  }

  /** A link is accepted with a result exactly when it says so. */
  lemma AcceptedIff(link: Str, out: Outbound)
    ensures BuildSSOutbound(link) == Ok(out) <==> Says(link, out)
  {
    if BuildSSOutbound(link) == Ok(out) {
      var user, hostPort, method_, password := AcceptedReads(link, out);
    }
    if Says(link, out) {
      var user, hostPort, method_, password :|
        && Reads(Body(link), user, hostPort) && user == method_ + [COLON] + password && COLON !in method_
        && IsHostPort(hostPort, out.address, out.port) && out.address != "" && SettingsFit(out, method_, password);
      ReadsAccepted(link, user, hostPort, method_, password, out);
    }
  }

  /** The error of a link whose parts can be told: no colon in the user part, then a bad host and port, then no host. */
  lemma RefusedReads(link: Str, user: Str, hostPort: Str)
    requires Reads(Body(link), user, hostPort)
    ensures BuildSSOutbound(link) == Err(BadUserinfo) <==> COLON !in user
    ensures BuildSSOutbound(link) == Err(BadHostPort) <==> COLON in user && forall host, port :: !IsHostPort(hostPort, host, port)
    ensures BuildSSOutbound(link) == Err(NoAddress) <==> COLON in user && exists port :: IsHostPort(hostPort, "", port)
  {
    ReadsParse(Body(link), user, hostPort);
    forall host, port ensures SplitHostPort(hostPort) == Ok((host, port)) <==> IsHostPort(hostPort, host, port) {
      SplitHostPortIff(hostPort, host, port);
    }
  }

  // ----- the scheme is matched without case, but removed only in lower case

  /** buildOutbound's test for this parser. */
  predicate IsSSLink(link: Str) {
    HasPrefix(ToLower(link), SCHEME)
  }

  /** "SS://", "Ss://" and "sS://" links reach the parser, which refuses every one of them. */
  lemma OtherCaseAlwaysFails(link: Str)
    requires IsSSLink(link) && !HasPrefix(link, SCHEME)
    ensures BuildSSOutbound(link) == Err(BadUserinfo)
  {
    var raw := link[..Index(link, HASH)];
    assert forall k | 0 <= k < 5 :: LowerByte(link[k]) == SCHEME[k];
    assert link[2] == COLON;
    assert Index(link, HASH) >= 5;
    assert raw[2] == COLON;
    var at := Index(raw, AT);
    assert at >= 5;
    var encoded := if at < |raw| then raw[..at] else raw;
    assert encoded[2] == COLON;
    ForeignByteRejected(Without(encoded, BLANKS), COLON);
  }
}
