/** The other direction: every text the recogniser accepts has a derivation. */
module JsonSoundness {
  import opened Protocol
  import opened Json
  import opened JsonGrammar

  lemma Cons(s: Bytes, t: Bytes, r: Bytes)
    requires s != [] && s[1..] == t + r
    ensures s == ([s[0]] + t) + r
  {}

  lemma {:induction false} SpaceSplit(s: Bytes) returns (g: Bytes)
    ensures s == g + SkipSpace(s) && Spaces(g)
  {
    if s != [] && IsSpace(s[0]) {
      var h := SpaceSplit(s[1..]);
      Cons(s, h, SkipSpace(s));
      g := [s[0]] + h;
    } else {
      g := [];
    }
  }

  lemma {:induction false} DigitsSplit(s: Bytes) returns (d: Bytes)
    ensures s == d + SkipDigits(s) && forall i :: 0 <= i < |d| ==> IsDigit(d[i])
  {
    if s != [] && IsDigit(s[0]) {
      var rest := DigitsSplit(s[1..]);
      Cons(s, rest, SkipDigits(s));
      d := [s[0]] + rest;
    } else {
      d := [];
    }
  }

  lemma DigitsSound(s: Bytes) returns (d: Bytes)
    requires ScanDigits(s).Some?
    ensures s == d + ScanDigits(s).value && Digits(d)
  {
    var rest := DigitsSplit(s[1..]);
    Cons(s, rest, SkipDigits(s[1..]));
    d := [s[0]] + rest;
  }

  lemma ExponentSound(s: Bytes) returns (e: Option<Exponent>)
    requires ScanExponent(s).Some?
    ensures s == ExponentText(e, ScanExponent(s).value) && (e.Some? ==> GoodExponent(e.value))
  {
    if s == [] || (s[0] != 0x65 && s[0] != 0x45) {
      e := None;
    } else if |s| >= 2 && (s[1] == 0x2B || s[1] == 0x2D) {
      var d := DigitsSound(s[2..]);
      e := Some(Exponent(s[0], Some(s[1]), d));
      assert s == [s[0]] + ([s[1]] + s[2..]);
    } else {
      var d := DigitsSound(s[1..]);
      e := Some(Exponent(s[0], None, d));
      assert s == [s[0]] + ([] + s[1..]);
    }
  }

  lemma FractionSound(s: Bytes) returns (f: Option<Bytes>, e: Option<Exponent>)
    requires ScanFraction(s).Some?
    ensures s == FractionText(f, e, ScanFraction(s).value)
    ensures (f.Some? ==> Digits(f.value)) && (e.Some? ==> GoodExponent(e.value))
  {
    if s == [] || s[0] != 0x2E {
      f := None;
      e := ExponentSound(s);
    } else {
      var d := DigitsSound(s[1..]);
      f := Some(d);
      e := ExponentSound(ScanDigits(s[1..]).value);
      assert s == [s[0]] + s[1..];
    }
  }

  /** The digits before the point: a lone zero, or no leading zero. */
  lemma IntegerSound(t: Bytes, rest: Bytes) returns (d: Bytes)
    requires t != [] && IsDigit(t[0])
    requires rest == if t[0] == 0x30 then t[1..] else SkipDigits(t[1..])
    ensures t == d + rest && Digits(d) && (d[0] == 0x30 ==> |d| == 1)
  {
    if t[0] == 0x30 {
      d := [t[0]];
    } else {
      var more := DigitsSplit(t[1..]);
      Cons(t, more, rest);
      d := [t[0]] + more;
    }
  }

  lemma NumberSound(s: Bytes) returns (n: Number)
    requires ScanNumber(s).Some?
    ensures s == NumberText(n, ScanNumber(s).value) && GoodNumber(n)
  {
    var neg := s[0] == 0x2D;
    var t := if neg then s[1..] else s;
    var rest := if t[0] == 0x30 then t[1..] else SkipDigits(t[1..]);
    var d := IntegerSound(t, rest);
    var f, e := FractionSound(rest);
    n := Number(neg, d, f, e);
    assert s == (if neg then [0x2D] else []) + t;
  }

  lemma {:induction false} CharactersSound(s: Bytes) returns (c: Bytes)
    requires ScanString(s).Some?
    ensures s == c + ([QUOTE] + ScanString(s).value) && Characters(c)
  {
    if s[0] == QUOTE {
      c := [];
    } else {
      var k := if s[0] != BACKSLASH then 1 else if |s| >= 2 && SimpleEscape(s[1]) then 2 else 6;
      var rest := CharactersSound(s[k..]);
      c := s[..k] + rest;
      CharactersCons(s[..k], rest);
      assert s == s[..k] + s[k..];
    }
  }

  lemma CharactersCons(x: Bytes, rest: Bytes)
    requires Characters(rest)
    requires || (|x| == 1 && x[0] >= 0x20 && x[0] != QUOTE && x[0] != BACKSLASH)
             || (|x| == 2 && x[0] == BACKSLASH && SimpleEscape(x[1]))
             || (|x| == 6 && HexEscape(x))
    ensures Characters(x + rest)
  {
    assert (x + rest)[|x|..] == rest;
    assert forall i :: 0 <= i < |x| ==> (x + rest)[i] == x[i];
    if |x| == 6 { assert HexEscape(x + rest); }
  }

  lemma AtomSound(s: Bytes) returns (v: Tree)
    requires s != [] && ScanAtom(s).Some?
    ensures s == Flat(v, ScanAtom(s).value) && forall d: nat :: Good(v, d)
  {
    if s[0] == 0x74 || s[0] == 0x66 || s[0] == 0x6E {
      var w := if s[0] == 0x74 then TRUE else if s[0] == 0x66 then FALSE else NULL;
      v := Word(w);
      assert s == w + s[|w|..];
    } else {
      var n := NumberSound(s);
      v := Num(n);
    }
  }

  lemma {:induction false} TreeSound(s: Bytes, depth: nat, r: Bytes) returns (v: Tree)
    requires ScanValue(s, depth) == Some(r)
    ensures s == Flat(v, r) && Good(v, depth)
    decreases |s|, 0
  {
    assert s == [s[0]] + s[1..];
    if s[0] == QUOTE {
      var c := CharactersSound(s[1..]);
      v := Text(c);
    } else if s[0] == 0x7B {
      v := ObjectSound(s[1..], depth, r);
    } else if s[0] == 0x5B {
      v := ArraySound(s[1..], depth, r);
    } else {
      v := AtomSound(s);
    }
  }

  /** An empty array or object. */
  lemma EmptySound(s: Bytes, close: Byte, r: Bytes) returns (g: Bytes)
    requires SkipSpace(s) != [] && SkipSpace(s)[0] == close && SkipSpace(s)[1..] == r
    ensures s == g + ([close] + r) && Spaces(g)
  {
    g := SpaceSplit(s);
    assert SkipSpace(s) == [close] + r;
  }

  lemma {:induction false} ArraySound(s: Bytes, depth: nat, r: Bytes) returns (v: Tree)
    requires ScanArray(s, depth) == Some(r)
    ensures [0x5B] + s == Flat(v, r) && Good(v, depth)
    decreases |s|, 2
  {
    var t := SkipSpace(s);
    if t[0] == 0x5D {
      var g := EmptySound(s, 0x5D, r);
      v := Array(g, None);
    } else {
      var es := ElementsSound(t, depth - 1, r);
      var g := SpaceSplit(s);
      v := Array(g, Some(es));
    }
  }

  lemma {:induction false} ObjectSound(s: Bytes, depth: nat, r: Bytes) returns (v: Tree)
    requires ScanObject(s, depth) == Some(r)
    ensures [0x7B] + s == Flat(v, r) && Good(v, depth)
    decreases |s|, 2
  {
    var t := SkipSpace(s);
    if t[0] == 0x7D {
      var g := EmptySound(s, 0x7D, r);
      v := Object(g, None);
    } else {
      var ms := MembersSound(t, depth - 1, r);
      var g := SpaceSplit(s);
      v := Object(g, Some(ms));
    }
  }

  /** The text between an item and the next, or the end. */
  lemma AfterItemSound(s: Bytes, close: Byte) returns (after: Bytes, gap: Bytes)
    requires !AfterItem(s, close).Bad?
    ensures Spaces(after) && Spaces(gap)
    ensures match AfterItem(s, close)
            case Stop(t) => s == after + ([close] + t)
            case More(t) => s == after + ([0x2C] + (gap + t))
  {
    after := SpaceSplit(s);
    var t := SkipSpace(s);
    Head(t);
    if t[0] == close { gap := []; } else { gap := SpaceSplit(t[1..]); }
  }

  lemma Head(t: Bytes)
    requires t != []
    ensures t == [t[0]] + t[1..]
  {}

  lemma {:induction false} ElementsSound(s: Bytes, depth: nat, r: Bytes) returns (es: Elements)
    requires ScanElements(s, depth) == Some(r)
    ensures s == FlatElements(es, r) && GoodElements(es, depth)
    decreases |s|, 1
  {
    var u := ScanValue(s, depth).value;
    var v := TreeSound(s, depth, u);
    var after, gap := AfterItemSound(u, 0x5D);
    match AfterItem(u, 0x5D)
    case Stop(t) => es := LastElement(v, after);
    case More(t) =>
      var rest := ElementsSound(t, depth, r);
      es := Element(v, after, gap, rest);
  }

  lemma NameSound(s: Bytes) returns (key: Bytes, g1: Bytes, g2: Bytes)
    requires ScanName(s).Some?
    ensures Characters(key) && Spaces(g1) && Spaces(g2)
    ensures s == NameText(key, g1, g2, ScanName(s).value)
  {
    key := CharactersSound(s[1..]);
    var k := ScanString(s[1..]).value;
    g1 := SpaceSplit(k);
    var c := SkipSpace(k);
    g2 := SpaceSplit(c[1..]);
    NameIsText(s, key, k, g1, c, g2, ScanName(s).value);
  }

  lemma NameIsText(s: Bytes, key: Bytes, k: Bytes, g1: Bytes, c: Bytes, g2: Bytes, v: Bytes)
    requires s != [] && s[0] == QUOTE && s[1..] == key + ([QUOTE] + k)
    requires k == g1 + c && c != [] && c[0] == 0x3A && c[1..] == g2 + v
    ensures s == NameText(key, g1, g2, v)
  {
    assert c == [0x3A] + c[1..];
    assert s == [QUOTE] + s[1..];
  }

  lemma {:induction false} MembersSound(s: Bytes, depth: nat, r: Bytes) returns (ms: Members)
    requires ScanMembers(s, depth) == Some(r)
    ensures s == FlatMembers(ms, r) && GoodMembers(ms, depth)
    decreases |s|, 1
  {
    var n := ScanName(s).value;
    var u := ScanValue(n, depth).value;
    var v := TreeSound(n, depth, u);
    var key, g1, g2 := NameSound(s);
    var after, gap := AfterItemSound(u, 0x7D);
    match AfterItem(u, 0x7D)
    case Stop(t) => ms := LastMember(key, g1, g2, v, after);
    case More(t) =>
      var rest := MembersSound(t, depth, r);
      ms := Member(key, g1, g2, v, after, gap, rest);
  }

  ghost predicate Derives(s: Bytes, depth: nat, g: Bytes, v: Tree, h: Bytes) {
    Spaces(g) && Good(v, depth) && Spaces(h) && s == g + Flat(v, h)
  }

  /** The recogniser decides the grammar: space, one value nested at most depth deep, space. */
  lemma RecogniserIsGrammar(s: Bytes, depth: nat)
    ensures ValidWithin(s, depth) <==> exists g, v, h :: Derives(s, depth, g, v, h)
  {
    if ValidWithin(s, depth) {
      var g := SpaceSplit(s);
      var v := TreeSound(SkipSpace(s), depth, ScanValue(SkipSpace(s), depth).value);
      var h := SpaceSplit(ScanValue(SkipSpace(s), depth).value);
      assert h + [] == h;
      assert Derives(s, depth, g, v, h);
    }
    if exists g, v, h :: Derives(s, depth, g, v, h) {
      var g, v, h :| Derives(s, depth, g, v, h);
      FirstByte(v, depth, h);
      SkipSpaces(g, Flat(v, h));
      TreeAccepted(v, depth, h);
      SkipSpaces(h, []);
      assert h + [] == h;
    }
  }

  /** json.Valid accepts the grammar's texts that nest at most 10000 deep. */
  lemma ValidIsGrammar(s: Bytes)
    ensures Valid(s) <==> exists g, v, h :: Derives(s, 10000, g, v, h)
  {
    RecogniserIsGrammar(s, 10000);
  }
}
