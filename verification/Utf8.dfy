/** UTF-8 (RFC 3629) as unicode/utf8 decodes it: the longest valid rune, else one bad byte. */
module Utf8 {
  import opened Protocol

  const REPLACEMENT: Bytes := [0xEF, 0xBF, 0xBD]  // U+FFFD

  predicate Cont(b: Byte) { 0x80 <= b <= 0xBF }

  /** The length of the rune s starts with, or 0 if its first byte starts none. */
  function RuneLen(s: Bytes): (n: nat)
    requires s != []
    ensures n <= 4 && n <= |s|
  {
    var b := s[0];
    if b < 0x80 then 1
    else if 0xC2 <= b <= 0xDF then (if |s| >= 2 && Cont(s[1]) then 2 else 0)
    else if 0xE0 <= b <= 0xEF then
      if |s| >= 3 && Cont(s[1]) && Cont(s[2])
         && (b == 0xE0 ==> 0xA0 <= s[1]) && (b == 0xED ==> s[1] <= 0x9F) then 3 else 0
    else if 0xF0 <= b <= 0xF4 then
      if |s| >= 4 && Cont(s[1]) && Cont(s[2]) && Cont(s[3])
         && (b == 0xF0 ==> 0x90 <= s[1]) && (b == 0xF4 ==> s[1] <= 0x8F) then 4 else 0
    else 0
  }

  predicate ValidUtf8(s: Bytes) { s == [] || (RuneLen(s) > 0 && ValidUtf8(s[RuneLen(s)..])) }

  /** Every byte that starts no rune is replaced by U+FFFD. */
  function Sanitize(s: Bytes): Bytes {
    if s == [] then []
    else if RuneLen(s) == 0 then REPLACEMENT + Sanitize(s[1..])
    else s[..RuneLen(s)] + Sanitize(s[RuneLen(s)..])
  }

  /** Whether a rune starts a string depends on its own bytes only. */
  lemma RuneLenLocal(s: Bytes, t: Bytes)
    requires s != [] && RuneLen(s) > 0
    ensures RuneLen(s[..RuneLen(s)] + t) == RuneLen(s)
    ensures RuneLen(s) > 1 ==> forall i :: 0 <= i < RuneLen(s) ==> s[i] >= 0x80
  {}

  lemma {:induction false} SanitizeLength(s: Bytes)
    ensures |Sanitize(s)| >= |s|
    ensures |Sanitize(s)| == |s| ==> ValidUtf8(s)
  {
    if s != [] {
      SanitizeLength(s[if RuneLen(s) == 0 then 1 else RuneLen(s)..]);
    }
  }

  lemma {:induction false} ValidIsClean(s: Bytes)
    requires ValidUtf8(s)
    ensures Sanitize(s) == s
  {
    if s != [] {
      ValidIsClean(s[RuneLen(s)..]);
      assert s == s[..RuneLen(s)] + s[RuneLen(s)..];
    }
  }

  lemma {:induction false} SanitizeFixed(s: Bytes)
    ensures Sanitize(s) == s <==> ValidUtf8(s)
  {
    SanitizeLength(s);
    if ValidUtf8(s) { ValidIsClean(s); }
  }

  /** Replacing leaves nothing to replace. */
  lemma {:induction false} SanitizedIsValid(s: Bytes)
    ensures ValidUtf8(Sanitize(s))
  {
    if s != [] {
      var e := if RuneLen(s) == 0 then REPLACEMENT else s[..RuneLen(s)];
      var t := Sanitize(s[if RuneLen(s) == 0 then 1 else RuneLen(s)..]);
      if RuneLen(s) > 0 { RuneLenLocal(s, t); }
      SanitizedIsValid(s[if RuneLen(s) == 0 then 1 else RuneLen(s)..]);
      assert RuneLen(e + t) == |e| && (e + t)[|e|..] == t;
    }
  }

  /** Code points to bytes. */
  function EncodeRune(r: nat): Bytes
    requires r < 0x11_0000
  {
    if r < 0x80 then [r]
    else if r < 0x800 then [0xC0 + r / 0x40, 0x80 + r % 0x40]
    else if r < 0x1_0000 then [0xE0 + r / 0x1000, 0x80 + r / 0x40 % 0x40, 0x80 + r % 0x40]
    else [0xF0 + r / 0x4_0000, 0x80 + r / 0x1000 % 0x40, 0x80 + r / 0x40 % 0x40, 0x80 + r % 0x40]
  }

  // ----- runes and code points -----

  /** What UTF-8 can carry: code points that are not surrogates. */
  predicate Scalar(r: nat) { r < 0x11_0000 && !(0xD800 <= r < 0xE000) }

  /** The code point of the rune s starts with: the payload bits of its bytes (section 3 of RFC 3629). */
  function DecodeRune(s: Bytes): nat
    requires s != [] && RuneLen(s) > 0
  {
    var p := (i: nat) requires i < |s| => s[i] as int;
    if RuneLen(s) == 1 then p(0)
    else if RuneLen(s) == 2 then (p(0) - 0xC0) * 0x40 + (p(1) - 0x80)
    else if RuneLen(s) == 3 then (p(0) - 0xE0) * 0x1000 + (p(1) - 0x80) * 0x40 + (p(2) - 0x80)
    else (p(0) - 0xF0) * 0x4_0000 + (p(1) - 0x80) * 0x1000 + (p(2) - 0x80) * 0x40 + (p(3) - 0x80)
  }

  /** A code point is written as one rune, from which it can be read, whatever follows. */
  lemma DecodeEncode(r: nat, t: Bytes)
    requires Scalar(r)
    ensures var e := EncodeRune(r);
            && |e| == (if r < 0x80 then 1 else if r < 0x800 then 2 else if r < 0x1_0000 then 3 else 4)
            && RuneLen(e + t) == |e| && DecodeRune(e + t) == r
  {
    var e := EncodeRune(r);
    assert forall i :: 0 <= i < |e| ==> (e + t)[i] == e[i];
    SixBits(r);
  }

  lemma SixBits(r: nat)
    ensures r / 0x40 * 0x40 + r % 0x40 == r
    ensures r / 0x1000 * 0x1000 + r / 0x40 % 0x40 * 0x40 + r % 0x40 == r
    ensures r / 0x4_0000 * 0x4_0000 + r / 0x1000 % 0x40 * 0x1000 + r / 0x40 % 0x40 * 0x40 + r % 0x40 == r
  {
    assert r / 0x1000 == r / 0x40 / 0x40;
    assert r / 0x4_0000 == r / 0x1000 / 0x40;
  }

  /** Every rune is the one way to write its code point, and that is no surrogate. */
  lemma EncodeDecode(s: Bytes)
    requires s != [] && RuneLen(s) > 0
    ensures Scalar(DecodeRune(s)) && EncodeRune(DecodeRune(s)) == s[..RuneLen(s)]
  {
    if RuneLen(s) == 1 {
      assert s[..1] == [s[0]];
    } else if RuneLen(s) == 2 {
      TwoBytes(s[0] as int - 0xC0, s[1] as int - 0x80);
      assert s[..2] == [s[0], s[1]];
    } else if RuneLen(s) == 3 {
      ThreeBytes(s[0] as int - 0xE0, s[1] as int - 0x80, s[2] as int - 0x80);
      assert s[..3] == [s[0], s[1], s[2]];
    } else {
      FourBytes(s[0] as int - 0xF0, s[1] as int - 0x80, s[2] as int - 0x80, s[3] as int - 0x80);
      assert s[..4] == [s[0], s[1], s[2], s[3]];
    }
  }

  lemma TwoBytes(a: nat, b: nat)
    requires 2 <= a < 0x20 && b < 0x40
    ensures var r := a * 0x40 + b; Scalar(r) && EncodeRune(r) == [0xC0 + a, 0x80 + b]
  {}

  lemma ThreeBytes(a: nat, b: nat, c: nat)
    requires a < 0x10 && b < 0x40 && c < 0x40 && (a == 0 ==> 0x20 <= b) && (a == 0xD ==> b < 0x20)
    ensures var r := a * 0x1000 + b * 0x40 + c; Scalar(r) && EncodeRune(r) == [0xE0 + a, 0x80 + b, 0x80 + c]
  {
    Digits(a, b, c);
  }

  lemma FourBytes(a: nat, b: nat, c: nat, d: nat)
    requires a <= 4 && b < 0x40 && c < 0x40 && d < 0x40 && (a == 0 ==> 0x10 <= b) && (a == 4 ==> b < 0x10)
    ensures var r := a * 0x4_0000 + b * 0x1000 + c * 0x40 + d;
            Scalar(r) && EncodeRune(r) == [0xF0 + a, 0x80 + b, 0x80 + c, 0x80 + d]
  {
    Digits(a * 0x40 + b, c, d);
    var r := a * 0x4_0000 + b * 0x1000 + c * 0x40 + d;
    assert r / 0x4_0000 == r / 0x1000 / 0x40;
  }

  lemma Digits(a: nat, b: nat, c: nat)
    requires b < 0x40 && c < 0x40
    ensures var r := a * 0x1000 + b * 0x40 + c; r / 0x1000 == a && r / 0x40 % 0x40 == b && r % 0x40 == c
  {
    var r := a * 0x1000 + b * 0x40 + c;
    assert r == (a * 0x40 + b) * 0x40 + c;
    assert r / 0x40 == a * 0x40 + b;
    assert r / 0x1000 == r / 0x40 / 0x40;
  }

  predicate Scalars(rs: seq<nat>) { forall i :: 0 <= i < |rs| ==> Scalar(rs[i]) }

  function EncodeRunes(rs: seq<nat>): Bytes
    requires Scalars(rs)
  {
    if rs == [] then []
    else
      assert Scalar(rs[0]);
      EncodeRune(rs[0]) + EncodeRunes(rs[1..])
  }

  /** ValidUtf8 accepts exactly the encodings of sequences of code points. */
  lemma {:induction false} EncodedIsValid(rs: seq<nat>)
    requires Scalars(rs)
    ensures ValidUtf8(EncodeRunes(rs))
  {
    if rs != [] {
      var e, t := EncodeRune(rs[0]), EncodeRunes(rs[1..]);
      DecodeEncode(rs[0], t);
      EncodedIsValid(rs[1..]);
      assert (e + t)[|e|..] == t;
    }
  }

  lemma {:induction false} ValidIsEncoded(s: Bytes) returns (rs: seq<nat>)
    requires ValidUtf8(s)
    ensures Scalars(rs) && EncodeRunes(rs) == s
  {
    if s == [] {
      rs := [];
    } else {
      var r, t := TakeRune(s);
      var rest := ValidIsEncoded(t);
      rs := [r] + rest;
      EncodeCons(r, rest);
    }
  }

  lemma TakeRune(s: Bytes) returns (r: nat, t: Bytes)
    requires s != [] && ValidUtf8(s)
    ensures Scalar(r) && s == EncodeRune(r) + t && |t| < |s| && ValidUtf8(t)
  {
    EncodeDecode(s);
    r, t := DecodeRune(s), s[RuneLen(s)..];
    assert s == s[..RuneLen(s)] + t;
  }

  lemma EncodeCons(r: nat, rs: seq<nat>)
    requires Scalar(r) && Scalars(rs)
    ensures Scalars([r] + rs) && EncodeRunes([r] + rs) == EncodeRune(r) + EncodeRunes(rs)
  {
    assert ([r] + rs)[1..] == rs;
  }

  lemma ValidUtf8Iff(s: Bytes)
    ensures ValidUtf8(s) <==> exists rs :: Scalars(rs) && EncodeRunes(rs) == s
  {
    if ValidUtf8(s) { var rs := ValidIsEncoded(s); }
    forall rs: seq<nat> | Scalars(rs) && EncodeRunes(rs) == s ensures ValidUtf8(s) {
      EncodedIsValid(rs);
    }
  }
}
