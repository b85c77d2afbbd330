/**
 JSON texts (RFC 8259) as encoding/json scans them, and its string literals: quoting with the
 HTML escapes that are on by default, and unquoting.
 */
module Json {
  import opened Protocol
  import opened Utf8

  const QUOTE: Byte := 0x22
  const BACKSLASH: Byte := 0x5C
  const NULL: Bytes := [0x6E, 0x75, 0x6C, 0x6C]
  const TRUE: Bytes := [0x74, 0x72, 0x75, 0x65]
  const FALSE: Bytes := [0x66, 0x61, 0x6C, 0x73, 0x65]

  /** The nesting the Go scanner accepts. */
  const MAX_NESTING: nat := 10000

  // ----- the recogniser: each function returns what is left after the construct -----

  predicate IsSpace(b: Byte) { b == 0x20 || b == 0x09 || b == 0x0A || b == 0x0D }

  predicate IsDigit(b: Byte) { 0x30 <= b <= 0x39 }

  predicate IsHex(b: Byte) { IsDigit(b) || 0x41 <= b <= 0x46 || 0x61 <= b <= 0x66 }

  function SkipSpace(s: Bytes): (r: Bytes)
    ensures |r| <= |s|
  {
    if s != [] && IsSpace(s[0]) then SkipSpace(s[1..]) else s
  }

  predicate SimpleEscape(b: Byte) {
    b == QUOTE || b == BACKSLASH || b == 0x2F || b == 0x62 || b == 0x66 || b == 0x6E || b == 0x72 || b == 0x74
  }

  predicate HexEscape(s: Bytes) {
    |s| >= 6 && s[0] == BACKSLASH && s[1] == 0x75 && IsHex(s[2]) && IsHex(s[3]) && IsHex(s[4]) && IsHex(s[5])
  }

  /** The rest of a string literal and what follows its closing quote. */
  function ScanString(s: Bytes): (r: Option<Bytes>)
    ensures r.Some? ==> |r.value| < |s|
  {
    if s == [] || s[0] < 0x20 then None
    else if s[0] == QUOTE then Some(s[1..])
    else if s[0] != BACKSLASH then ScanString(s[1..])
    else if |s| >= 2 && SimpleEscape(s[1]) then ScanString(s[2..])
    else if HexEscape(s) then ScanString(s[6..])
    else None
  }

  function SkipDigits(s: Bytes): (r: Bytes)
    ensures |r| <= |s|
  {
    if s != [] && IsDigit(s[0]) then SkipDigits(s[1..]) else s
  }

  function ScanDigits(s: Bytes): (r: Option<Bytes>)
    ensures r.Some? ==> |r.value| < |s|
  {
    if s != [] && IsDigit(s[0]) then Some(SkipDigits(s[1..])) else None
  }

  function ScanExponent(s: Bytes): (r: Option<Bytes>)
    ensures r.Some? ==> |r.value| <= |s|
  {
    if s == [] || (s[0] != 0x65 && s[0] != 0x45) then Some(s)
    else ScanDigits(if |s| >= 2 && (s[1] == 0x2B || s[1] == 0x2D) then s[2..] else s[1..])
  }

  function ScanFraction(s: Bytes): (r: Option<Bytes>)
    ensures r.Some? ==> |r.value| <= |s|
  {
    if s == [] || s[0] != 0x2E then ScanExponent(s)
    else var t := ScanDigits(s[1..]); if t.None? then None else ScanExponent(t.value)
  }

  function ScanNumber(s: Bytes): (r: Option<Bytes>)
    ensures r.Some? ==> |r.value| < |s|
  {
    var t := if s != [] && s[0] == 0x2D then s[1..] else s;
    if t == [] || !IsDigit(t[0]) then None
    else if t[0] == 0x30 then ScanFraction(t[1..])
    else ScanFraction(SkipDigits(t[1..]))
  }

  function ScanLiteral(s: Bytes, word: Bytes): (r: Option<Bytes>)
    requires word != []
    ensures r.Some? ==> |r.value| < |s|
  {
    if word <= s then Some(s[|word|..]) else None
  }

  /** One value; s starts at its first byte. */
  function ScanValue(s: Bytes, depth: nat): (r: Option<Bytes>)
    ensures r.Some? ==> |r.value| < |s|
    decreases |s|, 0
  {
    if s == [] then None
    else if s[0] == QUOTE then ScanString(s[1..])
    else if s[0] == 0x7B then ScanObject(s[1..], depth)
    else if s[0] == 0x5B then ScanArray(s[1..], depth)
    else ScanAtom(s)
  }

  /** A literal name or a number. */
  function ScanAtom(s: Bytes): (r: Option<Bytes>)
    requires s != []
    ensures r.Some? ==> |r.value| < |s|
  {
    if s[0] == 0x74 then ScanLiteral(s, TRUE)
    else if s[0] == 0x66 then ScanLiteral(s, FALSE)
    else if s[0] == 0x6E then ScanLiteral(s, NULL)
    else ScanNumber(s)
  }

  function ScanArray(s: Bytes, depth: nat): (r: Option<Bytes>)
    ensures r.Some? ==> |r.value| < |s|
    decreases |s|, 2
  {
    var t := SkipSpace(s);
    if depth == 0 || t == [] then None
    else if t[0] == 0x5D then Some(t[1..])
    else ScanElements(t, depth - 1)
  }

  function ScanObject(s: Bytes, depth: nat): (r: Option<Bytes>)
    ensures r.Some? ==> |r.value| < |s|
    decreases |s|, 2
  {
    var t := SkipSpace(s);
    if depth == 0 || t == [] then None
    else if t[0] == 0x7D then Some(t[1..])
    else ScanMembers(t, depth - 1)
  }

  datatype Separator = Stop(rest: Bytes) | More(rest: Bytes) | Bad

  /** After an item: its container's closing bracket, or a comma and the next item. */
  function AfterItem(s: Bytes, close: Byte): (r: Separator)
    ensures !r.Bad? ==> |r.rest| < |s|
  {
    var t := SkipSpace(s);
    if t == [] then Bad
    else if t[0] == close then Stop(t[1..])
    else if t[0] == 0x2C then More(SkipSpace(t[1..]))
    else Bad
  }

  /** value (, value)* ] */
  function ScanElements(s: Bytes, depth: nat): (r: Option<Bytes>)
    ensures r.Some? ==> |r.value| < |s|
    decreases |s|, 1
  {
    var v := ScanValue(s, depth);
    if v.None? then None
    else
      match AfterItem(v.value, 0x5D)
      case Stop(t) => Some(t)
      case More(t) => ScanElements(t, depth)
      case Bad => None
  }

  /** "name" : and the space before the value. */
  function ScanName(s: Bytes): (r: Option<Bytes>)
    ensures r.Some? ==> |r.value| < |s|
  {
    if s == [] || s[0] != QUOTE then None
    else
      var k := ScanString(s[1..]);
      if k.None? then None
      else
        var c := SkipSpace(k.value);
        if c == [] || c[0] != 0x3A then None else Some(SkipSpace(c[1..]))
  }

  /** name value (, name value)* } */
  function ScanMembers(s: Bytes, depth: nat): (r: Option<Bytes>)
    ensures r.Some? ==> |r.value| < |s|
    decreases |s|, 1
  {
    var n := ScanName(s);
    if n.None? then None
    else
      var v := ScanValue(n.value, depth);
      if v.None? then None
      else
        match AfterItem(v.value, 0x7D)
        case Stop(t) => Some(t)
        case More(t) => ScanMembers(t, depth)
        case Bad => None
  }

  /** One value with space around it and nothing else, for a parser with this nesting limit. */
  predicate ValidWithin(s: Bytes, depth: nat) {
    var v := ScanValue(SkipSpace(s), depth);
    v.Some? && SkipSpace(v.value) == []
  }

  /** json.Valid. */
  predicate Valid(s: Bytes) { ValidWithin(s, MAX_NESTING) }

  lemma ValueIsString(s: Bytes, depth: nat)
    requires s != [] && s[0] == QUOTE
    ensures ScanValue(s, depth) == ScanString(s[1..])
  {}

  /** Valid JSON that begins with a quote is one string literal and space. */
  lemma ValidString(s: Bytes, depth: nat)
    requires s != [] && s[0] == QUOTE
    ensures ValidWithin(s, depth) <==> ScanString(s[1..]).Some? && SkipSpace(ScanString(s[1..]).value) == []
  {
    assert SkipSpace(s) == s;
    ValueIsString(s, depth);
  }

  lemma WordIsValue(w: Bytes, depth: nat, t: Bytes)
    requires w == TRUE || w == FALSE || w == NULL
    ensures ScanValue(w + t, depth) == Some(t)
  {
    assert w <= w + t && (w + t)[|w|..] == t;
    assert ScanAtom(w + t) == Some(t);
  }

  lemma NullIsValid(depth: nat)
    ensures ValidWithin(NULL, depth)
  {
    WordIsValue(NULL, depth, []);
    assert NULL + [] == NULL;
    assert SkipSpace(NULL) == NULL && SkipSpace([]) == [];
  }

  // ----- string literals -----

  function HexDigit(n: nat): Byte
    requires n < 16
  {
    if n < 10 then 0x30 + n else 0x61 + (n - 10)
  }

  function HexEscapeOf(r: nat): Bytes
    requires r < 0x1_0000
  {
    [BACKSLASH, 0x75, HexDigit(r / 0x1000), HexDigit(r / 0x100 % 16), HexDigit(r / 16 % 16), HexDigit(r % 16)]
  }

  /** U+2028 and U+2029. */
  predicate LineSeparator(s: Bytes) { |s| >= 3 && s[0] == 0xE2 && s[1] == 0x80 && (s[2] == 0xA8 || s[2] == 0xA9) }

  /** The escape for the rune or bad byte at the front of s. */
  function EscapeFront(s: Bytes): Bytes
    requires s != []
  {
    var b := s[0];
    if RuneLen(s) == 0 then HexEscapeOf(0xFFFD)
    else if RuneLen(s) > 1 then
      (if LineSeparator(s) then HexEscapeOf(0x2000 + (s[2] as int - 0x80)) else s[..RuneLen(s)])
    else if b == QUOTE || b == BACKSLASH then [BACKSLASH, b]
    else if b == 0x08 then [BACKSLASH, 0x62]
    else if b == 0x0C then [BACKSLASH, 0x66]
    else if b == 0x0A then [BACKSLASH, 0x6E]
    else if b == 0x0D then [BACKSLASH, 0x72]
    else if b == 0x09 then [BACKSLASH, 0x74]
    else if b < 0x20 || b == 0x3C || b == 0x3E || b == 0x26 then HexEscapeOf(b)
    else [b]
  }

  /** The number of bytes EscapeFront stands for. */
  function FrontLen(s: Bytes): nat
    requires s != []
  {
    if RuneLen(s) == 0 then 1 else RuneLen(s)
  }

  function Escape(s: Bytes): Bytes {
    if s == [] then [] else EscapeFront(s) + Escape(s[FrontLen(s)..])
  }

  /** json.Marshal of a Go string. */
  function Quote(s: Bytes): Bytes { [QUOTE] + Escape(s) + [QUOTE] }

  function HexValue(b: Byte): nat
    requires IsHex(b)
  {
    if b <= 0x39 then b - 0x30 else if b <= 0x46 then b - 0x41 + 10 else b - 0x61 + 10
  }

  function HexRune(s: Bytes): (r: nat)
    requires HexEscape(s)
    ensures r < 0x1_0000
  {
    HexValue(s[2]) * 0x1000 + HexValue(s[3]) * 0x100 + HexValue(s[4]) * 16 + HexValue(s[5])
  }

  predicate HighSurrogate(r: nat) { 0xD800 <= r < 0xDC00 }
  predicate LowSurrogate(r: nat) { 0xDC00 <= r < 0xE000 }

  function UnescapeByte(b: Byte): Byte {
    if b == 0x62 then 0x08 else if b == 0x66 then 0x0C else if b == 0x6E then 0x0A
    else if b == 0x72 then 0x0D else if b == 0x74 then 0x09 else b
  }

  /** What the front of a literal's content stands for, and how many bytes it takes. */
  function UnquoteFront(s: Bytes): (r: (Bytes, nat))
    requires s != []
    ensures 1 <= r.1 <= |s|
  {
    if HexEscape(s) then
      var r := HexRune(s);
      if HighSurrogate(r) && HexEscape(s[6..]) && LowSurrogate(HexRune(s[6..])) then
        (EncodeRune(0x1_0000 + (r - 0xD800) * 0x400 + (HexRune(s[6..]) - 0xDC00)), 12)
      else if HighSurrogate(r) || LowSurrogate(r) then (REPLACEMENT, 6)
      else (EncodeRune(r), 6)
    else if s[0] == BACKSLASH && |s| >= 2 then ([UnescapeByte(s[1])], 2)
    else if RuneLen(s) == 0 then (REPLACEMENT, 1)
    else (s[..RuneLen(s)], RuneLen(s))
  }

  /** The Go string that the content of a scanned literal stands for. */
  function Unquote(s: Bytes): Bytes {
    if s == [] then [] else UnquoteFront(s).0 + Unquote(s[UnquoteFront(s).1..])
  }

  // ----- quoting and unquoting -----

  lemma HexDigitRoundTrip(n: nat)
    requires n < 16
    ensures IsHex(HexDigit(n)) && HexValue(HexDigit(n)) == n
  {}

  lemma HexDigitsOf(r: nat)
    requires r < 0x1_0000
    ensures r / 0x1000 < 16
    ensures r / 0x1000 * 0x1000 + r / 0x100 % 16 * 0x100 + r / 16 % 16 * 16 + r % 16 == r
  {
    assert r / 16 == r / 0x100 * 16 + r / 16 % 16;
    assert r / 0x100 == r / 0x1000 * 16 + r / 0x100 % 16;
  }

  lemma HexRoundTrip(r: nat, t: Bytes)
    requires r < 0x1_0000
    ensures HexEscape(HexEscapeOf(r) + t) && HexRune(HexEscapeOf(r) + t) == r
  {
    HexDigitsOf(r);
    HexDigitRoundTrip(r / 0x1000);
    HexDigitRoundTrip(r / 0x100 % 16);
    HexDigitRoundTrip(r / 16 % 16);
    HexDigitRoundTrip(r % 16);
    var h := HexEscapeOf(r);
    assert forall i :: 0 <= i < 6 ==> (h + t)[i] == h[i];
  }

  /** Unquoting undoes one escape, whatever follows it. */
  lemma FrontRoundTrip(s: Bytes, t: Bytes)
    requires s != []
    ensures var e := EscapeFront(s);
            UnquoteFront(e + t) == (if RuneLen(s) == 0 then REPLACEMENT else s[..RuneLen(s)], |e|)
  {
    if RuneLen(s) == 0 {
      ReplacementRoundTrip(s, t);
    } else if RuneLen(s) > 1 {
      if LineSeparator(s) { SeparatorRoundTrip(s, t); } else { LiteralRoundTrip(s, t); }
    } else {
      AsciiRoundTrip(s, t);
    }
  }

  lemma RuneRoundTrip(r: nat, t: Bytes)
    requires r < 0x1_0000 && !HighSurrogate(r) && !LowSurrogate(r)
    ensures UnquoteFront(HexEscapeOf(r) + t) == (EncodeRune(r), 6)
  {
    HexRoundTrip(r, t);
  }

  lemma ReplacementRoundTrip(s: Bytes, t: Bytes)
    requires s != [] && RuneLen(s) == 0
    ensures UnquoteFront(EscapeFront(s) + t) == (REPLACEMENT, |EscapeFront(s)|)
  {
    var r := 0xFFFD;
    RuneRoundTrip(r, t);
    ReplacementBytes();
  }

  lemma ReplacementBytes()
    ensures EncodeRune(0xFFFD) == REPLACEMENT
  {}

  lemma SeparatorRoundTrip(s: Bytes, t: Bytes)
    requires LineSeparator(s)
    ensures RuneLen(s) == 3 && UnquoteFront(EscapeFront(s) + t) == (s[..3], 6)
  {
    var r := 0x2000 + (s[2] as int - 0x80);
    RuneRoundTrip(r, t);
    SeparatorBytes(s[2]);
    assert s[..3] == [0xE2, 0x80, s[2]];
    assert EscapeFront(s) == HexEscapeOf(r);
  }

  lemma SeparatorBytes(b: Byte)
    requires b == 0xA8 || b == 0xA9
    ensures EncodeRune(0x2000 + (b as int - 0x80)) == [0xE2, 0x80, b]
  {}

  lemma LiteralRoundTrip(s: Bytes, t: Bytes)
    requires s != [] && RuneLen(s) > 1 && !LineSeparator(s)
    ensures UnquoteFront(EscapeFront(s) + t) == (s[..RuneLen(s)], RuneLen(s))
  {
    RuneLenLocal(s, t);
    var e := s[..RuneLen(s)];
    assert (e + t)[0] == s[0] >= 0x80 && (e + t)[..RuneLen(s)] == e;
  }

  lemma AsciiRoundTrip(s: Bytes, t: Bytes)
    requires s != [] && RuneLen(s) == 1
    ensures UnquoteFront(EscapeFront(s) + t) == (s[..1], |EscapeFront(s)|)
  {
    var b := s[0];
    var e := EscapeFront(s);
    assert s[..1] == [b];
    if |e| == 6 {
      HexRoundTrip(b, t);
    } else if |e| == 2 {
      assert (e + t)[1] == e[1] && (e + t)[0] == BACKSLASH;
    } else {
      assert (e + t)[0] == b && (e + t)[..1] == [b];
    }
  }

  lemma {:induction false} QuoteRoundTrip(s: Bytes)
    ensures Unquote(Escape(s)) == Sanitize(s)
  {
    if s != [] {
      var e, t := EscapeFront(s), Escape(s[FrontLen(s)..]);
      FrontRoundTrip(s, t);
      assert (e + t)[|e|..] == t;
      QuoteRoundTrip(s[FrontLen(s)..]);
    }
  }

  /** No control character, and none of <, > and &, is left in a quoted string. */
  lemma {:induction false} EscapedIsInert(s: Bytes)
    ensures forall b :: b in Escape(s) ==> b >= 0x20 && b != 0x3C && b != 0x3E && b != 0x26
  {
    if s != [] {
      if RuneLen(s) > 1 { RuneLenLocal(s, []); }
      EscapedIsInert(s[FrontLen(s)..]);
    }
  }

  // ----- escapes that a peer may write -----

  /** A hexadecimal digit in either case. */
  function HexDigitIn(upper: bool, n: nat): Byte
    requires n < 16
  {
    if upper && n >= 10 then 0x41 + (n - 10) else HexDigit(n)
  }

  datatype Cases = Cases(a: bool, b: bool, c: bool, d: bool)

  /** A backslash, u and four digits, each in upper or lower case. */
  function UnicodeEscape(u: Cases, r: nat): Bytes
    requires r < 0x1_0000
  {
    [BACKSLASH, 0x75, HexDigitIn(u.a, r / 0x1000), HexDigitIn(u.b, r / 0x100 % 16), HexDigitIn(u.c, r / 16 % 16),
     HexDigitIn(u.d, r % 16)]
  }

  lemma HexDigitInEitherCase(upper: bool, n: nat)
    requires n < 16
    ensures IsHex(HexDigitIn(upper, n)) && HexValue(HexDigitIn(upper, n)) == n
  {}

  lemma UnicodeEscapeIsRead(u: Cases, r: nat, t: Bytes)
    requires r < 0x1_0000
    ensures HexEscape(UnicodeEscape(u, r) + t) && HexRune(UnicodeEscape(u, r) + t) == r
  {
    HexDigitsOf(r);
    HexDigitInEitherCase(u.a, r / 0x1000);
    HexDigitInEitherCase(u.b, r / 0x100 % 16);
    HexDigitInEitherCase(u.c, r / 16 % 16);
    HexDigitInEitherCase(u.d, r % 16);
    var h := UnicodeEscape(u, r);
    assert forall i :: 0 <= i < 6 ==> (h + t)[i] == h[i];
  }

  /** The two escapes of a code point beyond U+FFFF (section 7 of RFC 8259). */
  function SurrogatePair(u: Cases, v: Cases, r: nat): Bytes
    requires 0x1_0000 <= r < 0x11_0000
  {
    UnicodeEscape(u, 0xD800 + (r - 0x1_0000) / 0x400) + UnicodeEscape(v, 0xDC00 + (r - 0x1_0000) % 0x400)
  }

  /** A code point in escapes, a pair if need be. */
  function EscapedRune(u: Cases, v: Cases, r: nat): Bytes
    requires Scalar(r)
  {
    if r < 0x1_0000 then UnicodeEscape(u, r) else SurrogatePair(u, v, r)
  }

  /** It stands for the bytes of the code point, in whatever case its digits are written. */
  lemma EscapedRuneIsRead(u: Cases, v: Cases, r: nat, t: Bytes)
    requires Scalar(r)
    ensures UnquoteFront(EscapedRune(u, v, r) + t) == (EncodeRune(r), |EscapedRune(u, v, r)|)
  {
    if r < 0x1_0000 { UnicodeEscapeIsRead(u, r, t); } else { SurrogatePairIsRead(u, v, r, t); }
  }

  lemma SurrogatePairIsRead(u: Cases, v: Cases, r: nat, t: Bytes)
    requires 0x1_0000 <= r < 0x11_0000
    ensures UnquoteFront(SurrogatePair(u, v, r) + t) == (EncodeRune(r), 12)
  {
    var hi, lo := 0xD800 + (r - 0x1_0000) / 0x400, 0xDC00 + (r - 0x1_0000) % 0x400;
    PairValue(r);
    var x, y := UnicodeEscape(u, hi), UnicodeEscape(v, lo);
    var s := SurrogatePair(u, v, r) + t;
    assert s == x + (y + t) && s[6..] == y + t;
    UnicodeEscapeIsRead(u, hi, y + t);
    UnicodeEscapeIsRead(v, lo, t);
    assert HexEscape(s) && HexRune(s) == hi && HexEscape(s[6..]) && HexRune(s[6..]) == lo;
  }

  lemma PairValue(r: nat)
    requires 0x1_0000 <= r < 0x11_0000
    ensures var hi, lo := 0xD800 + (r - 0x1_0000) / 0x400, 0xDC00 + (r - 0x1_0000) % 0x400;
            && HighSurrogate(hi) && LowSurrogate(lo)
            && 0x1_0000 + (hi - 0xD800) * 0x400 + (lo - 0xDC00) == r
  {}

  /** A surrogate that is not the first of a pair stands for U+FFFD. */
  lemma LoneSurrogateIsReplaced(u: Cases, r: nat, t: Bytes)
    requires 0xD800 <= r < 0xE000
    requires r < 0xDC00 ==> !(HexEscape(t) && 0xDC00 <= HexRune(t) < 0xE000)
    ensures UnquoteFront(UnicodeEscape(u, r) + t) == (REPLACEMENT, 6)
  {
    UnicodeEscapeIsRead(u, r, t);
    assert (UnicodeEscape(u, r) + t)[6..] == t;
  }

  /** The eight short escapes. */
  lemma ShortEscapeIsRead(b: Byte, t: Bytes)
    requires SimpleEscape(b)
    ensures UnquoteFront([BACKSLASH, b] + t).1 == 2
    ensures var out := UnquoteFront([BACKSLASH, b] + t).0;
            out == if b == 0x22 then [0x22] else if b == 0x5C then [0x5C] else if b == 0x2F then [0x2F]
                   else if b == 0x62 then [8] else if b == 0x66 then [12] else if b == 0x6E then [10]
                   else if b == 0x72 then [13] else [9]
  {
    assert ([BACKSLASH, b] + t)[0] == BACKSLASH && ([BACKSLASH, b] + t)[1] == b;
  }

  /** Text written in nothing but escapes stands for its code points. */
  lemma {:induction false} EscapesAreRead(u: Cases, v: Cases, rs: seq<nat>)
    requires Scalars(rs)
    ensures Unquote(EscapedRunes(u, v, rs)) == EncodeRunes(rs)
  {
    if rs != [] {
      var e, t := EscapedRune(u, v, rs[0]), EscapedRunes(u, v, rs[1..]);
      EscapedRuneIsRead(u, v, rs[0], t);
      EscapesAreRead(u, v, rs[1..]);
      assert (e + t)[|e|..] == t;
    }
  }

  function EscapedRunes(u: Cases, v: Cases, rs: seq<nat>): Bytes
    requires Scalars(rs)
  {
    if rs == [] then []
    else
      assert Scalar(rs[0]);
      EscapedRune(u, v, rs[0]) + EscapedRunes(u, v, rs[1..])
  }

  /** A run of bytes from 0x80 on belongs to the literal. */
  lemma {:induction false} ScanHigh(s: Bytes, t: Bytes)
    requires forall i :: 0 <= i < |s| ==> s[i] >= 0x80
    ensures ScanString(s + t) == ScanString(t)
  {
    if s == [] {
      assert s + t == t;
    } else {
      assert (s + t)[1..] == s[1..] + t;
      ScanHigh(s[1..], t);
    }
  }

  lemma ScanFront(s: Bytes, t: Bytes)
    requires s != []
    ensures ScanString(EscapeFront(s) + t) == ScanString(t)
  {
    var e := EscapeFront(s);
    assert (e + t)[|e|..] == t;
    if RuneLen(s) > 1 && !LineSeparator(s) {
      RuneLenLocal(s, t);
      ScanHigh(e, t);
    } else {
      assert e != [] && forall i :: 0 <= i < |e| ==> (e + t)[i] == e[i];
      ScanEscape(e, t);
    }
  }

  /** One escape, or one plain character. */
  lemma ScanEscape(e: Bytes, t: Bytes)
    requires || (|e| == 6 && HexEscape(e))
             || (|e| == 2 && e[0] == BACKSLASH && SimpleEscape(e[1]))
             || (|e| == 1 && e[0] >= 0x20 && e[0] != QUOTE && e[0] != BACKSLASH)
    ensures ScanString(e + t) == ScanString(t)
  {
    assert (e + t)[|e|..] == t;
    assert forall i :: 0 <= i < |e| ==> (e + t)[i] == e[i];
    if |e| == 6 { assert HexEscape(e + t); }
  }

  lemma {:induction false} ScanQuoted(s: Bytes, t: Bytes)
    ensures ScanString(Escape(s) + [QUOTE] + t) == Some(t)
  {
    if s == [] {
      assert Escape(s) + [QUOTE] + t == [QUOTE] + t;
    } else {
      var rest := s[FrontLen(s)..];
      var u := Escape(rest) + [QUOTE] + t;
      assert Escape(s) + [QUOTE] + t == EscapeFront(s) + u;
      ScanFront(s, u);
      ScanQuoted(rest, t);
    }
  }

  /** Quoting any bytes gives valid JSON. */
  lemma QuotedIsValid(s: Bytes)
    ensures Valid(Quote(s)) && ScanString(Quote(s)[1..]) == Some([])
  {
    ScanQuoted(s, []);
    ValidString(Quote(s), MAX_NESTING);
    assert Quote(s)[1..] == Escape(s) + [QUOTE] + [];
  }

  // ----- a literal never stands for its own text -----

  /** Quotes and backslashes in s. */
  function Weight(s: Bytes): nat {
    if s == [] then 0 else (if s[0] == QUOTE || s[0] == BACKSLASH then 1 else 0) + Weight(s[1..])
  }

  lemma {:induction false} WeightAppend(s: Bytes, t: Bytes)
    ensures Weight(s + t) == Weight(s) + Weight(t)
  {
    if s == [] {
      assert s + t == t;
    } else {
      assert (s + t)[1..] == s[1..] + t;
      WeightAppend(s[1..], t);
    }
  }

  lemma {:induction false} HighWeight(s: Bytes)
    requires forall i :: 0 <= i < |s| ==> s[i] >= 0x80
    ensures Weight(s) == 0
  {
    if s != [] { HighWeight(s[1..]); }
  }

  lemma FrontWeight(s: Bytes)
    requires s != []
    ensures Weight(UnquoteFront(s).0) <= Weight(s[..UnquoteFront(s).1])
  {
    var (out, n) := UnquoteFront(s);
    if s[0] == BACKSLASH {
      WeightAppend([s[0]], s[1..n]);
      assert s[..n] == [s[0]] + s[1..n];
      if |out| > 1 { HighWeight(out); }
    }
  }

  lemma WeightSplit(s: Bytes, n: nat)
    requires n <= |s|
    ensures Weight(s) == Weight(s[..n]) + Weight(s[n..])
  {
    WeightAppend(s[..n], s[n..]);
    assert s == s[..n] + s[n..];
  }

  lemma {:induction false} UnquoteLosesWeight(s: Bytes)
    ensures Weight(Unquote(s)) <= Weight(s)
  {
    if s != [] {
      var (out, n) := UnquoteFront(s);
      FrontWeight(s);
      UnquoteLosesWeight(s[n..]);
      WeightAppend(out, Unquote(s[n..]));
      WeightSplit(s, n);
    }
  }
}
