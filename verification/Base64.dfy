/**
 The four decoders of Go's encoding/base64 that the program tries in turn: RFC 4648
 section 4 ("standard") and section 5 ("URL safe"), each with and without padding.
 Decoding is not strict: the unused low bits of a final group are ignored, and carriage
 returns and line feeds are skipped.
 */
module Base64 {
  import opened Wrappers
  import opened Strings

  datatype Variant = Variant(url: bool, padded: bool)

  const STD := Variant(false, true)
  const RAW_STD := Variant(false, false)
  const URL := Variant(true, true)
  const RAW_URL := Variant(true, false)

  /** The order in which every search of the program tries the decoders. */
  const VARIANTS := [STD, RAW_STD, URL, RAW_URL]

  const PAD: Byte := '='

  type Sextet = n: int | 0 <= n < 64

  function Symbol(url: bool, n: Sextet): Byte {
    if n < 26 then (n + 65) as char
    else if n < 52 then (n + 71) as char
    else if n < 62 then (n - 4) as char
    else if n == 62 then (if url then '-' else '+')
    else (if url then '_' else '/')
  }

  function Value(url: bool, c: Byte): Option<Sextet> {
    if 'A' <= c <= 'Z' then Some(c as int - 65)
    else if 'a' <= c <= 'z' then Some(c as int - 71)
    else if '0' <= c <= '9' then Some(c as int + 4)
    else if c == (if url then '-' else '+') then Some(62)
    else if c == (if url then '_' else '/') then Some(63)
    else None
  }

  lemma SymbolValue(url: bool, n: Sextet)
    ensures Value(url, Symbol(url, n)) == Some(n)
  {
  }

  /** The bytes that an encoder can emit. */
  predicate IsSymbol(c: Byte) {
    'A' <= c <= 'Z' || 'a' <= c <= 'z' || '0' <= c <= '9' || c in {'+', '/', '-', '_', PAD}
  }

  function Byte0(a: Sextet, b: Sextet): Byte { (a * 4 + b / 16) as char }
  function Byte1(b: Sextet, c: Sextet): Byte { (b % 16 * 16 + c / 4) as char }
  function Byte2(c: Sextet, d: Sextet): Byte { (c % 4 * 64 + d) as char }

  function Sextet0(x: Byte): Sextet { x as int / 4 }
  function Sextet1(x: Byte, y: Byte): Sextet { x as int % 4 * 16 + y as int / 16 }
  function Sextet2(y: Byte, z: Byte): Sextet { y as int % 16 * 4 + z as int / 64 }
  function Sextet3(z: Byte): Sextet { z as int % 64 }

  const NUL: Byte := 0 as char

  /** RFC 4648 sections 4 and 5. */
  function Encode(v: Variant, b: Str): Str {
    if |b| == 0 then []
    else if |b| == 1 then
      [Symbol(v.url, Sextet0(b[0])), Symbol(v.url, Sextet1(b[0], NUL))] + (if v.padded then [PAD, PAD] else [])
    else if |b| == 2 then
      [Symbol(v.url, Sextet0(b[0])), Symbol(v.url, Sextet1(b[0], b[1])), Symbol(v.url, Sextet2(b[1], NUL))]
      + (if v.padded then [PAD] else [])
    else
      [Symbol(v.url, Sextet0(b[0])), Symbol(v.url, Sextet1(b[0], b[1])),
       Symbol(v.url, Sextet2(b[1], b[2])), Symbol(v.url, Sextet3(b[2]))]
      + Encode(v, b[3..])
  }

  /** DecodeString on an input that holds no line break. */
  function DecodeClean(v: Variant, s: Str): Option<Str> {
    if |s| == 0 then Some([])
    else if |s| == 1 then None
    else
      var a, b := Value(v.url, s[0]), Value(v.url, s[1]);
      if a == None || b == None then None
      else if |s| == 2 then
        if v.padded then None else Some([Byte0(a.value, b.value)])
      else if v.padded && |s| == 4 && s[2] == PAD && s[3] == PAD then
        Some([Byte0(a.value, b.value)])
      else
        var c := Value(v.url, s[2]);
        if c == None then None
        else if (|s| == 3 && !v.padded) || (|s| == 4 && v.padded && s[3] == PAD) then
          Some([Byte0(a.value, b.value), Byte1(b.value, c.value)])
        else if |s| == 3 then None
        else
          var d := Value(v.url, s[3]);
          if d == None then None
          else
            match DecodeClean(v, s[4..])
            case None => None
            case Some(rest) =>
              Some([Byte0(a.value, b.value), Byte1(b.value, c.value), Byte2(c.value, d.value)] + rest)
  }

  function Decode(v: Variant, s: Str): Option<Str> {
    DecodeClean(v, Without(s, {CR, LF}))
  }

  /** The shape of tryBase64DecodeBytes: the first decoder that accepts. */
  function FirstDecode(vs: seq<Variant>, s: Str): Option<Str> {
    if vs == [] then None
    else if Decode(vs[0], s).Some? then Decode(vs[0], s)
    else FirstDecode(vs[1..], s)
  }

  // ----- the standard

  /** Table 1 of RFC 4648, section 4. */
  const STD_TABLE := "ABCDEFGHIJKLMNOPQRSTUVWXYZabcdefghijklmnopqrstuvwxyz0123456789+/"

  /** Table 2, section 5. */
  const URL_TABLE := "ABCDEFGHIJKLMNOPQRSTUVWXYZabcdefghijklmnopqrstuvwxyz0123456789-_"

  lemma SymbolIsTable(url: bool, n: Sextet)
    ensures |STD_TABLE| == |URL_TABLE| == 64
    ensures Symbol(url, n) == if url then URL_TABLE[n] else STD_TABLE[n]
  {
    if n < 26 {
      UpperCase(n);
    } else if n < 52 {
      LowerCase(n);
    } else if n < 62 {
      DigitsAndRest(n);
    }
  }

  lemma UpperCase(n: nat)
    requires n < 26
    ensures STD_TABLE[n] == URL_TABLE[n] == (n + 65) as char
  {
    var upper := "ABCDEFGHIJKLMNOPQRSTUVWXYZ";
    assert STD_TABLE[n] == upper[n];
    assert URL_TABLE[n] == upper[n];
    assert upper[n] as int == n + 65;
  }

  lemma LowerCase(n: nat)
    requires 26 <= n < 52
    ensures STD_TABLE[n] == URL_TABLE[n] == (n + 71) as char
  {
  }

  lemma DigitsAndRest(n: nat)
    requires 52 <= n < 62
    ensures STD_TABLE[n] == URL_TABLE[n] == (n - 4) as char
  {
  }

  /** Three bytes and four sextets are the same 24 bits, most significant first. */
  lemma GroupIsBigEndian(x: Byte, y: Byte, z: Byte)
    ensures ((Sextet0(x) * 64 + Sextet1(x, y)) * 64 + Sextet2(y, z)) * 64 + Sextet3(z)
         == (x as int * 256 + y as int) * 256 + z as int
  {
  }

  /** A byte has a value exactly when the alphabet has it, and then its position there. */
  lemma ValueIff(url: bool, c: Byte, n: Sextet)
    ensures Value(url, c) == Some(n) <==> Symbol(url, n) == c
  {
    SymbolValue(url, n);
    if Value(url, c).Some? {
      ValueSymbol(url, c);
    }
  }

  lemma ValueSymbol(url: bool, c: Byte)
    requires Value(url, c).Some?
    ensures Symbol(url, Value(url, c).value) == c
  {
    assert c == (c as int) as char;
  }

  /** Every byte is a symbol of the alphabet. */
  predicate Plain(url: bool, s: Str) {
    s == [] || (Value(url, s[0]).Some? && Plain(url, s[1..]))
  }

  /**
   Without padding any number of symbols but one more than a multiple of four; with it whole
   groups, of which the last may end in one or two pads.
   */
  predicate WellFormed(v: Variant, s: Str) {
    if !v.padded then |s| % 4 != 1 && Plain(v.url, s)
    else |s| % 4 == 0 && (Plain(v.url, s) || EndsPadded(v.url, s, 1) || EndsPadded(v.url, s, 2))
  }

  predicate EndsPadded(url: bool, s: Str, pads: nat) {
    pads <= |s| && Plain(url, s[..|s| - pads]) && forall i | |s| - pads <= i < |s| :: s[i] == PAD
  }

  /** Exactly the well-formed strings are decoded. */
  lemma {:induction false} DecodesIff(v: Variant, s: Str)
    ensures DecodeClean(v, s).Some? <==> WellFormed(v, s)
  {
    if |s| <= 4 {
      ShortDecodesIff(v, s);
    } else {
      DecodesIff(v, s[4..]);
      HeadAndRest(v, s);
      PlainFour(v.url, s[..4]);
    }
  }

  lemma PlainFour(url: bool, s: Str)
    requires |s| <= 4
    ensures Plain(url, s) <==> forall i | 0 <= i < |s| :: Value(url, s[i]).Some?
  {
    if s != [] {
      var t := s[1..];
      PlainFour(url, t);
      assert forall i | 1 <= i < |s| :: s[i] == t[i - 1];
      assert forall i | 0 <= i < |t| :: t[i] == s[i + 1];
    }
  }

  lemma ShortDecodesIff(v: Variant, s: Str)
    requires |s| <= 4
    ensures DecodeClean(v, s).Some? <==> WellFormed(v, s)
  {
    PlainFour(v.url, s);
    if |s| == 4 {
      PlainFour(v.url, s[..3]);
      PlainFour(v.url, s[..2]);
      FourDecodesIff(v, s[0], s[1], s[2], s[3]);
      assert s == [s[0], s[1], s[2], s[3]];
    }
  }

  lemma FourDecodesIff(v: Variant, a: Byte, b: Byte, c: Byte, d: Byte)
    ensures DecodeClean(v, [a, b, c, d]).Some? <==>
              && Value(v.url, a).Some? && Value(v.url, b).Some?
              && if v.padded && d == PAD then c == PAD || Value(v.url, c).Some?
                 else Value(v.url, c).Some? && Value(v.url, d).Some?
  {
    assert [a, b, c, d][4..] == [];
    assert Value(v.url, PAD).None?;
  }

  lemma HeadAndRest(v: Variant, s: Str)
    requires |s| > 4
    ensures WellFormed(v, s) <==> Plain(v.url, s[..4]) && WellFormed(v, s[4..])
  {
    PlainConcat(v.url, s[..4], s[4..]);
    assert s == s[..4] + s[4..];
    if v.padded && |s| % 4 == 0 {
      PaddedRest(v.url, s, 1);
      PaddedRest(v.url, s, 2);
    }
  }

  lemma PaddedRest(url: bool, s: Str, pads: nat)
    requires |s| > 4 && pads <= |s| - 4
    ensures EndsPadded(url, s, pads) <==> Plain(url, s[..4]) && EndsPadded(url, s[4..], pads)
  {
    var rest := s[4..];
    PlainConcat(url, s[..4], rest[..|rest| - pads]);
    assert s[..|s| - pads] == s[..4] + rest[..|rest| - pads];
    assert forall i | |rest| - pads <= i < |rest| :: rest[i] == s[i + 4];
    assert forall i | |s| - pads <= i < |s| :: s[i] == rest[i - 4];
  }

  lemma {:induction false} PlainConcat(url: bool, a: Str, b: Str)
    ensures Plain(url, a + b) <==> Plain(url, a) && Plain(url, b)
  {
    if a == [] {
      assert a + b == b;
    } else {
      assert (a + b)[1..] == a[1..] + b;
      PlainConcat(url, a[1..], b);
    }
  }

  /** The low bits of a last group that fill no byte are ignored. */
  lemma TwoSymbols(v: Variant, a: Sextet, b: Sextet)
    ensures DecodeClean(v, [Symbol(v.url, a), Symbol(v.url, b)] + if v.padded then [PAD, PAD] else [])
         == Some([((a * 64 + b) / 16) as char])
  {
    SymbolValue(v.url, a);
    SymbolValue(v.url, b);
    assert (a * 64 + b) / 16 == a * 4 + b / 16;
  }

  lemma ThreeSymbols(v: Variant, a: Sextet, b: Sextet, c: Sextet)
    ensures var n := ((a * 64 + b) * 64 + c) / 4;
            DecodeClean(v, [Symbol(v.url, a), Symbol(v.url, b), Symbol(v.url, c)] + if v.padded then [PAD] else [])
            == Some([(n / 256) as char, (n % 256) as char])
  {
    var n := ((a * 64 + b) * 64 + c) / 4;
    ThreeBits(a, b, c);
    SymbolValue(v.url, a);
    SymbolValue(v.url, b);
    SymbolValue(v.url, c);
    assert Value(v.url, PAD).None?;
  }

  lemma ThreeBits(a: Sextet, b: Sextet, c: Sextet)
    ensures var n := ((a * 64 + b) * 64 + c) / 4; n / 256 == a * 4 + b / 16 && n % 256 == b % 16 * 16 + c / 4
  {
  }

  /** The examples of RFC 4648, section 10. */
  lemma StandardExamples()
    ensures Encode(STD, "") == "" && Encode(STD, "f") == "Zg==" && Encode(STD, "fo") == "Zm8=" && Encode(STD, "foo") == "Zm9v"
    ensures Encode(STD, "foob") == "Zm9vYg==" && Encode(STD, "fooba") == "Zm9vYmE=" && Encode(STD, "foobar") == "Zm9vYmFy"
  {
    var foob: Str, fooba: Str, foobar: Str := "foob", "fooba", "foobar";
    assert foob[3..] == "b" && fooba[3..] == "ba" && foobar[3..] == "bar";
    assert Encode(STD, "b") == "Yg==" && Encode(STD, "ba") == "YmE=" && Encode(STD, "bar") == "YmFy";
  }

  // ----- round trip

  lemma GroupInverse(x: Byte, y: Byte, z: Byte)
    ensures Byte0(Sextet0(x), Sextet1(x, y)) == x
    ensures Byte1(Sextet1(x, y), Sextet2(y, z)) == y
    ensures Byte2(Sextet2(y, z), Sextet3(z)) == z
  {
  }

  lemma DecodeGroup(v: Variant, x: Byte, y: Byte, z: Byte, rest: Str)
    requires DecodeClean(v, rest).Some?
    ensures DecodeClean(v, [Symbol(v.url, Sextet0(x)), Symbol(v.url, Sextet1(x, y)),
                            Symbol(v.url, Sextet2(y, z)), Symbol(v.url, Sextet3(z))] + rest)
         == Some([x, y, z] + DecodeClean(v, rest).value)
  {
    var a, b, c, d := Sextet0(x), Sextet1(x, y), Sextet2(y, z), Sextet3(z);
    var s := [Symbol(v.url, a), Symbol(v.url, b), Symbol(v.url, c), Symbol(v.url, d)] + rest;
    SymbolValue(v.url, a);
    SymbolValue(v.url, b);
    SymbolValue(v.url, c);
    SymbolValue(v.url, d);
    GroupInverse(x, y, z);
    assert s[4..] == rest;
  }

  /** The last one or two bytes. */
  lemma DecodeEncodeTail(v: Variant, b: Str)
    requires 1 <= |b| <= 2
    ensures DecodeClean(v, Encode(v, b)) == Some(b)
  {
    var y := if |b| == 2 then b[1] else NUL;
    GroupInverse(b[0], y, NUL);
    SymbolValue(v.url, Sextet0(b[0]));
    SymbolValue(v.url, Sextet1(b[0], y));
    if |b| == 1 {
      assert b == [b[0]];
    } else {
      SymbolValue(v.url, Sextet2(y, NUL));
      assert b == [b[0], y];
    }
  }

  lemma {:induction false} DecodeEncode(v: Variant, b: Str)
    ensures DecodeClean(v, Encode(v, b)) == Some(b)
  {
    if |b| == 0 {
    } else if |b| <= 2 {
      DecodeEncodeTail(v, b);
    } else {
      DecodeEncode(v, b[3..]);
      DecodeGroup(v, b[0], b[1], b[2], Encode(v, b[3..]));
      assert b == [b[0], b[1], b[2]] + b[3..];
    }
  }

  lemma {:induction false} EncodeSymbols(v: Variant, b: Str)
    ensures forall c | c in Encode(v, b) :: IsSymbol(c)
  {
    if |b| > 2 {
      EncodeSymbols(v, b[3..]);
    }
  }

  // ----- the order of the decoders does not matter

  lemma {:induction false} DecodersAgreeClean(v: Variant, w: Variant, s: Str)
    requires DecodeClean(v, s).Some? && DecodeClean(w, s).Some?
    ensures DecodeClean(v, s) == DecodeClean(w, s)
  {
    if |s| >= 4 && s[3] != PAD {
      DecodersAgreeClean(v, w, s[4..]);
    }
  }

  /** Any two of the four decoders that both accept a string yield the same bytes. */
  lemma DecodersAgree(v: Variant, w: Variant, s: Str)
    requires Decode(v, s).Some? && Decode(w, s).Some?
    ensures Decode(v, s) == Decode(w, s)
  {
    DecodersAgreeClean(v, w, Without(s, {CR, LF}));
  }

  lemma {:induction false} FirstDecodeAny(vs: seq<Variant>, v: Variant, s: Str)
    requires v in vs && Decode(v, s).Some?
    ensures FirstDecode(vs, s) == Decode(v, s)
  {
    if Decode(vs[0], s).Some? {
      DecodersAgree(vs[0], v, s);
    } else {
      FirstDecodeAny(vs[1..], v, s);
    }
  }

  lemma {:induction false} FirstDecodeNone(vs: seq<Variant>, s: Str)
    ensures FirstDecode(vs, s).None? <==> forall v | v in vs :: Decode(v, s).None?
  {
    if vs != [] {
      FirstDecodeNone(vs[1..], s);
    }
  }

  /** Two searches over the same decoders, in whatever order, give the same answer. */
  lemma SearchOrderIrrelevant(vs: seq<Variant>, ws: seq<Variant>, s: Str)
    requires forall v :: v in vs <==> v in ws
    ensures FirstDecode(vs, s) == FirstDecode(ws, s)
  {
    FirstDecodeNone(vs, s);
    FirstDecodeNone(ws, s);
    if v :| v in vs && Decode(v, s).Some? {
      FirstDecodeAny(vs, v, s);
      FirstDecodeAny(ws, v, s);
    }
  }

  // ----- what no decoder accepts

  lemma {:induction false} ForeignByte(v: Variant, s: Str, c: Byte)
    requires c in s && !IsSymbol(c)
    ensures DecodeClean(v, s).None?
  {
    if |s| >= 4 {
      var head, rest := s[..4], s[4..];
      assert s == head + rest;
      if c in rest {
        ForeignByte(v, rest, c);
      }
    }
  }

  /** A byte that is neither white space nor a symbol is rejected by all four decoders. */
  lemma ForeignByteRejected(s: Str, c: Byte)
    requires c in s && !IsSymbol(c) && c != CR && c != LF
    ensures FirstDecode(VARIANTS, s).None?
  {
    FirstDecodeNone(VARIANTS, s);
    forall v | v in VARIANTS ensures Decode(v, s).None? {
      ForeignByte(v, Without(s, {CR, LF}), c);
    }
  }

  // ----- tryBase64DecodeBytes and tryB64Decode

  const BLANKS: set<Byte> := {LF, CR, SPACE}

  /** tryBase64DecodeBytes. */
  method TryDecodeBytes(s: Str) returns (r: Option<Str>)
    ensures r == FirstDecode(VARIANTS, s)
  {
    for i := 0 to |VARIANTS|
      invariant FirstDecode(VARIANTS, s) == FirstDecode(VARIANTS[i..], s)
    {
      var decoded := Decode(VARIANTS[i], s);
      if decoded.Some? {
        return decoded;
      }
      assert VARIANTS[i..][1..] == VARIANTS[i + 1..];
    }
    assert VARIANTS[|VARIANTS|..] == [];
    return None;
  }

  /** tryB64Decode: the same search after line breaks and spaces are removed. */
  function TryB64Decode(s: Str): Option<Str> {
    FirstDecode(VARIANTS, Without(s, BLANKS))
  }

  lemma {:induction false} FirstDecodeIgnoresLineBreaks(vs: seq<Variant>, s: Str)
    ensures FirstDecode(vs, Without(s, {CR, LF})) == FirstDecode(vs, s)
  {
    if vs != [] {
      WithoutTwice(s, {CR, LF}, {CR, LF});
      FirstDecodeIgnoresLineBreaks(vs[1..], s);
    }
  }

  lemma {:induction false} WithoutSpaceFree(s: Str)
    requires SPACE !in s
    ensures Without(s, BLANKS) == Without(s, {CR, LF})
  {
    if s != [] {
      WithoutSpaceFree(s[1..]);
    }
  }

  /** The two helpers agree on every string without a space. */
  lemma HelpersAgree(s: Str)
    requires SPACE !in s
    ensures TryB64Decode(s) == FirstDecode(VARIANTS, s)
  {
    WithoutSpaceFree(s);
    FirstDecodeIgnoresLineBreaks(VARIANTS, s);
  }

  /** ... and may differ on one with a space. */
  lemma HelpersDiffer()
    ensures TryB64Decode("Q Q") == Some("A") && FirstDecode(VARIANTS, "Q Q").None?
  {
    ForeignByteRejected("Q Q", ' ');
    var s: Str := "Q Q";
    assert s[1..] == " Q" && s[1..][1..] == "Q" && s[1..][1..][1..] == "";
    assert Without(s[1..][1..], BLANKS) == "Q";
    assert Without(s, BLANKS) == "QQ";
    var q: Str := "QQ";
    WithoutNothing(q, {CR, LF});
    assert DecodeClean(STD, q).None?;
    assert DecodeClean(RAW_STD, q) == Some("A");
    assert VARIANTS[1..][0] == RAW_STD;
    assert FirstDecode(VARIANTS[1..], q) == Some("A");
  }

  /** However the text was encoded and wherever blanks were inserted, the search finds it. */
  lemma EncodedTextFound(v: Variant, b: Str, raw: Str)
    requires Without(raw, BLANKS) == Encode(v, b)
    ensures TryB64Decode(raw) == Some(b)
  {
    var e := Encode(v, b);
    EncodeSymbols(v, b);
    WithoutNothing(e, {CR, LF});
    DecodeEncode(v, b);
    assert v == VARIANTS[if v.url then (if v.padded then 2 else 3) else (if v.padded then 0 else 1)];
    FirstDecodeAny(VARIANTS, v, e);
  }
}
