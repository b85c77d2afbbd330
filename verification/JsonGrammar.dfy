/**
 The grammar of RFC 8259 as derivation trees, and the proof that the recogniser of Json accepts
 exactly the texts that have one.
 */
module JsonGrammar {
  import opened Protocol
  import opened Json

  function Ascii(s: string): seq<int> { seq(|s|, i requires 0 <= i < |s| => s[i] as int) }

  /** The terminals, in the characters of RFC 8259. */
  lemma Terminals(b: Byte)
    ensures IsSpace(b) <==> b as int in Ascii(" \t\n\r")
    ensures IsDigit(b) <==> b as int in Ascii("0123456789")
    ensures IsHex(b) <==> b as int in Ascii("0123456789abcdefABCDEF")
    ensures SimpleEscape(b) <==> b as int in Ascii("\"\\/bfnrt")
    ensures TRUE == Ascii("true") && FALSE == Ascii("false") && NULL == Ascii("null")
    ensures [QUOTE, BACKSLASH] == Ascii("\"\\")
  {
    var s, d, h, e := Ascii(" \t\n\r"), Ascii("0123456789"), Ascii("0123456789abcdefABCDEF"), Ascii("\"\\/bfnrt");
    assert s == [0x20, 0x09, 0x0A, 0x0D];
    assert d == [0x30, 0x31, 0x32, 0x33, 0x34, 0x35, 0x36, 0x37, 0x38, 0x39];
    assert h == d + [0x61, 0x62, 0x63, 0x64, 0x65, 0x66] + [0x41, 0x42, 0x43, 0x44, 0x45, 0x46];
    assert e == [0x22, 0x5C, 0x2F, 0x62, 0x66, 0x6E, 0x72, 0x74];
  }

  datatype Exponent = Exponent(letter: Byte, sign: Option<Byte>, digits: Bytes)

  datatype Number = Number(neg: bool, whole: Bytes, frac: Option<Bytes>, exp: Option<Exponent>)

  datatype Tree =
    | Word(text: Bytes)
    | Num(n: Number)
    | Text(content: Bytes)
    | Array(gap: Bytes, elements: Option<Elements>)
    | Object(gap: Bytes, members: Option<Members>)

  /** Values separated by commas, up to and including the closing bracket. */
  datatype Elements = LastElement(v: Tree, after: Bytes) | Element(v: Tree, after: Bytes, gap: Bytes, rest: Elements)

  datatype Members =
    | LastMember(key: Bytes, g1: Bytes, g2: Bytes, v: Tree, after: Bytes)
    | Member(key: Bytes, g1: Bytes, g2: Bytes, v: Tree, after: Bytes, gap: Bytes, rest: Members)

  predicate Spaces(s: Bytes) { forall i :: 0 <= i < |s| ==> IsSpace(s[i]) }

  predicate Digits(s: Bytes) { s != [] && forall i :: 0 <= i < |s| ==> IsDigit(s[i]) }

  /** Characters and escapes of a string literal. */
  predicate Characters(s: Bytes) {
    || s == []
    || (s[0] >= 0x20 && s[0] != QUOTE && s[0] != BACKSLASH && Characters(s[1..]))
    || (|s| >= 2 && s[0] == BACKSLASH && SimpleEscape(s[1]) && Characters(s[2..]))
    || (HexEscape(s) && Characters(s[6..]))
  }

  predicate GoodExponent(e: Exponent) {
    (e.letter == 0x65 || e.letter == 0x45) && Digits(e.digits)
    && (e.sign.Some? ==> e.sign.value == 0x2B || e.sign.value == 0x2D)
  }

  predicate GoodNumber(n: Number) {
    && Digits(n.whole) && (n.whole[0] == 0x30 ==> |n.whole| == 1)
    && (n.frac.Some? ==> Digits(n.frac.value))
    && (n.exp.Some? ==> GoodExponent(n.exp.value))
  }

  predicate Good(t: Tree, depth: nat)
    decreases t
  {
    match t
    case Word(w) => w == TRUE || w == FALSE || w == NULL
    case Num(n) => GoodNumber(n)
    case Text(c) => Characters(c)
    case Array(g, es) => depth > 0 && Spaces(g) && (es.Some? ==> GoodElements(es.value, depth - 1))
    case Object(g, ms) => depth > 0 && Spaces(g) && (ms.Some? ==> GoodMembers(ms.value, depth - 1))
  }

  predicate GoodElements(es: Elements, depth: nat)
    decreases es
  {
    Good(es.v, depth) && Spaces(es.after) && (es.Element? ==> Spaces(es.gap) && GoodElements(es.rest, depth))
  }

  predicate GoodMembers(ms: Members, depth: nat)
    decreases ms
  {
    && Characters(ms.key) && Spaces(ms.g1) && Spaces(ms.g2) && Good(ms.v, depth) && Spaces(ms.after)
    && (ms.Member? ==> Spaces(ms.gap) && GoodMembers(ms.rest, depth))
  }

  // ----- the text of a derivation, followed by t -----

  function ExponentText(e: Option<Exponent>, t: Bytes): Bytes {
    if e.None? then t
    else [e.value.letter] + ((if e.value.sign.Some? then [e.value.sign.value] else []) + (e.value.digits + t))
  }

  function FractionText(f: Option<Bytes>, e: Option<Exponent>, t: Bytes): Bytes {
    if f.None? then ExponentText(e, t) else [0x2E] + (f.value + ExponentText(e, t))
  }

  function NumberText(n: Number, t: Bytes): Bytes {
    (if n.neg then [0x2D] else []) + (n.whole + FractionText(n.frac, n.exp, t))
  }

  function Flat(v: Tree, t: Bytes): Bytes
    decreases v
  {
    match v
    case Word(w) => w + t
    case Num(n) => NumberText(n, t)
    case Text(c) => [QUOTE] + (c + ([QUOTE] + t))
    case Array(g, es) => [0x5B] + (g + if es.None? then [0x5D] + t else FlatElements(es.value, t))
    case Object(g, ms) => [0x7B] + (g + if ms.None? then [0x7D] + t else FlatMembers(ms.value, t))
  }

  function FlatElements(es: Elements, t: Bytes): Bytes
    decreases es
  {
    match es
    case LastElement(v, after) => Flat(v, after + ([0x5D] + t))
    case Element(v, after, gap, rest) => Flat(v, after + ([0x2C] + (gap + FlatElements(rest, t))))
  }

  function NameText(key: Bytes, g1: Bytes, g2: Bytes, value: Bytes): Bytes {
    [QUOTE] + (key + ([QUOTE] + (g1 + ([0x3A] + (g2 + value)))))
  }

  function FlatMembers(ms: Members, t: Bytes): Bytes
    decreases ms
  {
    match ms
    case LastMember(key, g1, g2, v, after) => NameText(key, g1, g2, Flat(v, after + ([0x7D] + t)))
    case Member(key, g1, g2, v, after, gap, rest) =>
      NameText(key, g1, g2, Flat(v, after + ([0x2C] + (gap + FlatMembers(rest, t)))))
  }

  // ----- completeness: every derivation is accepted -----

  /** What may follow a value: nothing that could belong to a number. */
  predicate Follow(t: Bytes) { t == [] || IsSpace(t[0]) || t[0] == 0x2C || t[0] == 0x5D || t[0] == 0x7D }

  lemma Tail<T>(x: T, s: seq<T>)
    ensures ([x] + s)[0] == x && ([x] + s)[1..] == s
  {}

  lemma {:induction false} SkipSpaces(g: Bytes, t: Bytes)
    requires Spaces(g) && (t == [] || !IsSpace(t[0]))
    ensures SkipSpace(g + t) == t
  {
    if g == [] { assert g + t == t; }
    else {
      assert (g + t)[1..] == g[1..] + t;
      SkipSpaces(g[1..], t);
    }
  }

  lemma {:induction false} SkipAllDigits(d: Bytes, t: Bytes)
    requires (forall i :: 0 <= i < |d| ==> IsDigit(d[i])) && (t == [] || !IsDigit(t[0]))
    ensures SkipDigits(d + t) == t
  {
    if d == [] { assert d + t == t; }
    else {
      assert (d + t)[1..] == d[1..] + t;
      SkipAllDigits(d[1..], t);
    }
  }

  lemma DigitsAccepted(d: Bytes, t: Bytes)
    requires Digits(d) && (t == [] || !IsDigit(t[0]))
    ensures ScanDigits(d + t) == Some(t)
  {
    assert (d + t)[1..] == d[1..] + t;
    SkipAllDigits(d[1..], t);
  }

  lemma FollowEndsNumber(t: Bytes)
    requires Follow(t)
    ensures t == [] || (!IsDigit(t[0]) && t[0] != 0x2E && t[0] != 0x65 && t[0] != 0x45)
  {}

  lemma ExponentAccepted(e: Option<Exponent>, t: Bytes)
    requires (e.Some? ==> GoodExponent(e.value)) && Follow(t)
    ensures ScanExponent(ExponentText(e, t)) == Some(t)
    ensures ExponentText(e, t) == [] || (!IsDigit(ExponentText(e, t)[0]) && ExponentText(e, t)[0] != 0x2E)
  {
    FollowEndsNumber(t);
    if e.Some? {
      var x := e.value;
      DigitsAccepted(x.digits, t);
      var s := ExponentText(e, t);
      if x.sign.Some? {
        assert s[2..] == x.digits + t;
      } else {
        assert s[1..] == x.digits + t;
      }
    }
  }

  lemma FractionAccepted(f: Option<Bytes>, e: Option<Exponent>, t: Bytes)
    requires (f.Some? ==> Digits(f.value)) && (e.Some? ==> GoodExponent(e.value)) && Follow(t)
    ensures ScanFraction(FractionText(f, e, t)) == Some(t)
    ensures FractionText(f, e, t) == [] || !IsDigit(FractionText(f, e, t)[0])
  {
    ExponentAccepted(e, t);
    if f.Some? {
      DigitsAccepted(f.value, ExponentText(e, t));
      Tail(0x2E, f.value + ExponentText(e, t));
    }
  }

  /** The digits before the point: one zero, or any that do not begin with zero. */
  lemma WholeAccepted(d: Bytes, t: Bytes)
    requires Digits(d) && (d[0] == 0x30 ==> |d| == 1) && (t == [] || !IsDigit(t[0]))
    ensures (d + t)[0] == d[0] && (if d[0] == 0x30 then (d + t)[1..] else SkipDigits((d + t)[1..])) == t
  {
    assert (d + t)[1..] == d[1..] + t;
    if d[0] == 0x30 { assert d[1..] == []; } else { SkipAllDigits(d[1..], t); }
  }

  lemma NumberAccepted(n: Number, t: Bytes)
    requires GoodNumber(n) && Follow(t)
    ensures ScanNumber(NumberText(n, t)) == Some(t)
    ensures NumberText(n, t) != [] && (NumberText(n, t)[0] == 0x2D || IsDigit(NumberText(n, t)[0]))
  {
    var rest := FractionText(n.frac, n.exp, t);
    FractionAccepted(n.frac, n.exp, t);
    WholeAccepted(n.whole, rest);
    NumberRead(n.neg, n.whole + rest, rest);
  }

  lemma NumberRead(neg: bool, s: Bytes, rest: Bytes)
    requires s != [] && IsDigit(s[0]) && (if s[0] == 0x30 then s[1..] else SkipDigits(s[1..])) == rest
    ensures var u := (if neg then [0x2D] else []) + s;
            ScanNumber(u) == ScanFraction(rest) && (u[0] == 0x2D || IsDigit(u[0]))
  {
    if neg { Tail(0x2D, s); } else { assert [] + s == s; }
  }

  lemma {:induction false} CharactersAccepted(c: Bytes, t: Bytes)
    requires Characters(c)
    ensures ScanString(c + ([QUOTE] + t)) == Some(t)
  {
    var s := c + ([QUOTE] + t);
    if c == [] {
      assert s == [QUOTE] + t;
    } else {
      assert s[0] == c[0];
      var k := if c[0] != BACKSLASH then 1 else if HexEscape(c) then 6 else 2;
      assert s[k..] == c[k..] + ([QUOTE] + t);
      assert forall i :: 0 <= i < k ==> s[i] == c[i];
      CharactersAccepted(c[k..], t);
    }
  }

  /** A value never starts with space or a closing bracket. */
  lemma FirstByte(v: Tree, depth: nat, t: Bytes)
    requires Good(v, depth) && Follow(t)
    ensures Flat(v, t) != [] && !IsSpace(Flat(v, t)[0]) && Flat(v, t)[0] != 0x5D && Flat(v, t)[0] != 0x7D
  {
    if v.Num? { NumberAccepted(v.n, t); }
  }

  lemma {:induction false} TreeAccepted(v: Tree, depth: nat, t: Bytes)
    requires Good(v, depth) && Follow(t)
    ensures ScanValue(Flat(v, t), depth) == Some(t)
    decreases v, 1
  {
    match v
    case Word(w) => WordIsValue(w, depth, t);
    case Num(n) => NumAccepted(n, depth, t);
    case Text(c) => TextAccepted(c, depth, t);
    case Array(g, es) => ArrayAccepted(v, depth, t);
    case Object(g, ms) => ObjectAccepted(v, depth, t);
  }

  /** An opening bracket, space, and either the closing bracket or the items. */
  lemma ArrayRead(g: Bytes, body: Bytes, depth: nat, t: Bytes)
    requires depth > 0 && Spaces(g) && body != [] && !IsSpace(body[0])
    requires if body[0] == 0x5D then body[1..] == t else ScanElements(body, depth - 1) == Some(t)
    ensures ScanValue([0x5B] + (g + body), depth) == Some(t)
  {
    Tail(0x5B, g + body);
    SkipSpaces(g, body);
    assert ScanArray(g + body, depth) == Some(t);
  }

  lemma ObjectRead(g: Bytes, body: Bytes, depth: nat, t: Bytes)
    requires depth > 0 && Spaces(g) && body != [] && !IsSpace(body[0])
    requires if body[0] == 0x7D then body[1..] == t else ScanMembers(body, depth - 1) == Some(t)
    ensures ScanValue([0x7B] + (g + body), depth) == Some(t)
  {
    Tail(0x7B, g + body);
    SkipSpaces(g, body);
    assert ScanObject(g + body, depth) == Some(t);
  }

  lemma {:induction false} ArrayAccepted(v: Tree, depth: nat, t: Bytes)
    requires v.Array? && Good(v, depth)
    ensures ScanValue(Flat(v, t), depth) == Some(t)
    decreases v, 0
  {
    if v.elements.None? {
      Tail(0x5D, t);
      ArrayRead(v.gap, [0x5D] + t, depth, t);
    } else {
      ElementsAccepted(v.elements.value, depth - 1, t);
      ArrayRead(v.gap, FlatElements(v.elements.value, t), depth, t);
    }
  }

  lemma {:induction false} ObjectAccepted(v: Tree, depth: nat, t: Bytes)
    requires v.Object? && Good(v, depth)
    ensures ScanValue(Flat(v, t), depth) == Some(t)
    decreases v, 0
  {
    if v.members.None? {
      Tail(0x7D, t);
      ObjectRead(v.gap, [0x7D] + t, depth, t);
    } else {
      MembersAccepted(v.members.value, depth - 1, t);
      ObjectRead(v.gap, FlatMembers(v.members.value, t), depth, t);
    }
  }

  lemma TextAccepted(c: Bytes, depth: nat, t: Bytes)
    requires Characters(c)
    ensures ScanValue([QUOTE] + (c + ([QUOTE] + t)), depth) == Some(t)
  {
    Tail(QUOTE, c + ([QUOTE] + t));
    CharactersAccepted(c, t);
  }

  lemma NumAccepted(n: Number, depth: nat, t: Bytes)
    requires GoodNumber(n) && Follow(t)
    ensures ScanValue(NumberText(n, t), depth) == Some(t)
  {
    NumberAccepted(n, t);
  }

  /** What follows an item: space and then the closing bracket, or a comma, space and the next item. */
  function Tailing(last: bool, after: Bytes, close: Byte, gap: Bytes, next: Bytes): Bytes {
    if last then after + ([close] + next) else after + ([0x2C] + (gap + next))
  }

  lemma TailingRead(last: bool, after: Bytes, close: Byte, gap: Bytes, next: Bytes)
    requires Spaces(after) && (close == 0x5D || close == 0x7D)
    requires !last ==> Spaces(gap) && next != [] && !IsSpace(next[0])
    ensures Follow(Tailing(last, after, close, gap, next))
    ensures AfterItem(Tailing(last, after, close, gap, next), close) == if last then Stop(next) else More(next)
  {
    var b := if last then close else 0x2C;
    var t := if last then next else gap + next;
    SkipSpaces(after, [b] + t);
    Tail(b, t);
    if after != [] { assert (after + ([b] + t))[0] == after[0]; } else { assert after + ([b] + t) == [b] + t; }
    if !last { SkipSpaces(gap, next); }
  }

  lemma {:induction false} ElementsAccepted(es: Elements, depth: nat, t: Bytes)
    requires GoodElements(es, depth)
    ensures ScanElements(FlatElements(es, t), depth) == Some(t)
    ensures FlatElements(es, t) != [] && !IsSpace(FlatElements(es, t)[0]) && FlatElements(es, t)[0] != 0x5D
    decreases es, 1
  {
    if es.LastElement? {
      TailingRead(true, es.after, 0x5D, [], t);
      FirstByte(es.v, depth, es.after + ([0x5D] + t));
      TreeAccepted(es.v, depth, es.after + ([0x5D] + t));
    } else {
      var next := FlatElements(es.rest, t);
      ElementsAccepted(es.rest, depth, t);
      TailingRead(false, es.after, 0x5D, es.gap, next);
      FirstByte(es.v, depth, Tailing(false, es.after, 0x5D, es.gap, next));
      TreeAccepted(es.v, depth, Tailing(false, es.after, 0x5D, es.gap, next));
    }
  }

  lemma {:induction false} MembersAccepted(ms: Members, depth: nat, t: Bytes)
    requires GoodMembers(ms, depth)
    ensures ScanMembers(FlatMembers(ms, t), depth) == Some(t)
    ensures FlatMembers(ms, t) != [] && FlatMembers(ms, t)[0] == QUOTE
    decreases ms, 1
  {
    if ms.LastMember? {
      TailingRead(true, ms.after, 0x7D, [], t);
      OneMemberAccepted(ms, depth, ms.after + ([0x7D] + t));
    } else {
      var next := FlatMembers(ms.rest, t);
      MembersAccepted(ms.rest, depth, t);
      TailingRead(false, ms.after, 0x7D, ms.gap, next);
      OneMemberAccepted(ms, depth, Tailing(false, ms.after, 0x7D, ms.gap, next));
    }
  }

  lemma {:induction false} OneMemberAccepted(ms: Members, depth: nat, tail: Bytes)
    requires GoodMembers(ms, depth) && Follow(tail)
    ensures ScanName(NameText(ms.key, ms.g1, ms.g2, Flat(ms.v, tail))) == Some(Flat(ms.v, tail))
    ensures ScanValue(Flat(ms.v, tail), depth) == Some(tail)
    decreases ms, 0
  {
    TreeAccepted(ms.v, depth, tail);
    FirstByte(ms.v, depth, tail);
    NameRead(ms.key, ms.g1, ms.g2, Flat(ms.v, tail));
  }

  /** The name, the colon and the spaces around it. */
  lemma NameRead(key: Bytes, g1: Bytes, g2: Bytes, value: Bytes)
    requires Characters(key) && Spaces(g1) && Spaces(g2) && value != [] && !IsSpace(value[0])
    ensures ScanName(NameText(key, g1, g2, value)) == Some(value)
  {
    var colon := [0x3A] + (g2 + value);
    Tail(QUOTE, key + ([QUOTE] + (g1 + colon)));
    CharactersAccepted(key, g1 + colon);
    SkipSpaces(g1, colon);
    Tail(0x3A, g2 + value);
    SkipSpaces(g2, value);
  }
}
