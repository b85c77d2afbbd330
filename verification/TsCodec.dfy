/**
 Text mode of the TypeScript side: encodeBinaryFields before JSON.stringify and the reviver that
 JSON.parse runs bottom-up. The JSON text in between carries trees without Bin unchanged.
 */
module TsCodec {
  import opened Protocol
  import opened Utf8
  import Json

  /** Payload trees; a JavaScript string is given by its UTF-8 bytes. */
  datatype Val =
    | Null
    | Scalar(text: Bytes)  // a number or a boolean
    | Str(text: Bytes)
    | Bin(bytes: Bytes)
    | Arr(items: seq<Val>)
    | Obj(fields: seq<Field>)

  datatype Field = Field(key: string, val: Val)

  /** JSON.parse on valid text, and JSON.stringify: library code, any functions at all. */
  datatype Engine = Engine(parse: Bytes -> Val, stringify: Val -> Bytes)

  predicate BinaryField(key: string) { key == "body" || key == "data" }

  const BOM: Bytes := [0xEF, 0xBB, 0xBF]

  /** TextDecoder: a leading byte order mark is dropped, bad bytes become U+FFFD. */
  function Decode(b: Bytes): Bytes { Sanitize(if BOM <= b then b[3..] else b) }

  /** JSON.parse accepts RFC 8259 at any depth. */
  predicate Parses(text: Bytes) { Json.ValidWithin(text, |text|) }

  function EncodeBytes(g: Engine, b: Bytes): Val {
    if Parses(Decode(b)) then g.parse(Decode(b)) else Str(Decode(b))
  }

  function Encode(g: Engine, v: Val): Val
    decreases v
  {
    match v
    case Bin(b) => EncodeBytes(g, b)
    case Arr(items) => Arr(EncodeItems(g, items))
    case Obj(fields) => Obj(EncodeFields(g, fields))
    case _ => v
  }

  function EncodeItems(g: Engine, vs: seq<Val>): seq<Val>
    decreases vs
  {
    if vs == [] then [] else [Encode(g, vs[0])] + EncodeItems(g, vs[1..])
  }

  function EncodeFields(g: Engine, fs: seq<Field>): seq<Field>
    decreases fs
  {
    if fs == [] then [] else [Field(fs[0].key, Encode(g, fs[0].val))] + EncodeFields(g, fs[1..])
  }

  /** The reviver's own step, after the children have been revived. */
  function ReviveHere(g: Engine, key: string, v: Val): Val {
    if !BinaryField(key) || v.Null? then v
    else if v.Str? then Bin(v.text)
    else Bin(g.stringify(v))
  }

  function Revive(g: Engine, key: string, v: Val): Val
    decreases v
  {
    ReviveHere(g, key,
               match v
               case Arr(items) => Arr(ReviveItems(g, items))
               case Obj(fields) => Obj(ReviveFields(g, fields))
               case _ => v)
  }

  /** Array elements are revived under their index, which is never a binary field. */
  function ReviveItems(g: Engine, vs: seq<Val>): seq<Val>
    decreases vs
  {
    if vs == [] then [] else [Revive(g, "0", vs[0])] + ReviveItems(g, vs[1..])
  }

  function ReviveFields(g: Engine, fs: seq<Field>): seq<Field>
    decreases fs
  {
    if fs == [] then [] else [Field(fs[0].key, Revive(g, fs[0].key, fs[0].val))] + ReviveFields(g, fs[1..])
  }

  // ----- which payloads survive -----

  /** A byte string under a binary field survives by itself. */
  predicate LeafSurvives(g: Engine, b: Bytes) { Revive(g, "body", EncodeBytes(g, b)) == Bin(b) }

  /** To check before encoding: text that is not JSON must be UTF-8 without a mark; JSON must print as it was. */
  predicate SafeLeaf(g: Engine, b: Bytes) {
    if !Parses(Decode(b)) then ValidUtf8(b) && !(BOM <= b)
    else
      var v := Revive(g, "", g.parse(Decode(b)));
      !v.Null? && b == if v.Str? then v.text else g.stringify(v)
  }

  /** Bytes, or null, under the binary fields and nowhere else. */
  predicate Faithful(g: Engine, key: string, v: Val)
    decreases v
  {
    if BinaryField(key) then v.Null? || (v.Bin? && SafeLeaf(g, v.bytes))
    else
      match v
      case Bin(_) => false
      case Arr(items) => FaithfulItems(g, items)
      case Obj(fields) => FaithfulFields(g, fields)
      case _ => true
  }

  predicate FaithfulItems(g: Engine, vs: seq<Val>)
    decreases vs
  {
    vs == [] || (Faithful(g, "0", vs[0]) && FaithfulItems(g, vs[1..]))
  }

  predicate FaithfulFields(g: Engine, fs: seq<Field>)
    decreases fs
  {
    fs == [] || (Faithful(g, fs[0].key, fs[0].val) && FaithfulFields(g, fs[1..]))
  }

  lemma ReviveAddsNoBin(g: Engine, key: string, v: Val)
    requires !BinaryField(key) && !v.Bin?
    ensures !Revive(g, key, v).Bin?
  {}

  /** No Bin outside the binary fields comes back from the reviver. */
  lemma NoBinComesBack(g: Engine, key: string, b: Bytes)
    requires !BinaryField(key) && forall t :: !g.parse(t).Bin?
    ensures Revive(g, key, EncodeBytes(g, b)) != Bin(b)
  {
    var e := EncodeBytes(g, b);
    assert !e.Bin?;
    ReviveAddsNoBin(g, key, e);
  }

  /** Reviving inverts encoding on a tree if and only if the tree is faithful. */
  lemma {:induction false} TreeRoundTripIff(g: Engine, key: string, v: Val)
    requires forall t :: !g.parse(t).Bin?
    ensures Revive(g, key, Encode(g, v)) == v <==> Faithful(g, key, v)
    decreases v
  {
    match v
    case Bin(b) =>
      if BinaryField(key) { SameUnderBinaryFields(g, key, EncodeBytes(g, b)); LeafIff(g, b); }
      else { NoBinComesBack(g, key, b); }
    case Arr(items) => ItemsRoundTripIff(g, items);
    case Obj(fields) => FieldsRoundTripIff(g, fields);
    case _ =>
  }

  lemma SameUnderBinaryFields(g: Engine, key: string, v: Val)
    requires BinaryField(key)
    ensures Revive(g, key, v) == Revive(g, "body", v)
  {}

  lemma ReviveItemsCons(g: Engine, x: Val, xs: seq<Val>)
    ensures ReviveItems(g, [x] + xs) == [Revive(g, "0", x)] + ReviveItems(g, xs)
  {
    assert ([x] + xs)[1..] == xs;
  }

  lemma ReviveFieldsCons(g: Engine, f: Field, fs: seq<Field>)
    ensures ReviveFields(g, [f] + fs) == [Field(f.key, Revive(g, f.key, f.val))] + ReviveFields(g, fs)
  {
    assert ([f] + fs)[1..] == fs;
  }

  lemma {:induction false} ItemsRoundTripIff(g: Engine, vs: seq<Val>)
    requires forall t :: !g.parse(t).Bin?
    ensures ReviveItems(g, EncodeItems(g, vs)) == vs <==> FaithfulItems(g, vs)
    decreases vs
  {
    if vs != [] {
      TreeRoundTripIff(g, "0", vs[0]);
      ItemsRoundTripIff(g, vs[1..]);
      var x, xs := Encode(g, vs[0]), EncodeItems(g, vs[1..]);
      ReviveItemsCons(g, x, xs);
      assert vs == [vs[0]] + vs[1..];
      ConsEqual(Revive(g, "0", x), ReviveItems(g, xs), vs[0], vs[1..]);
    }
  }

  lemma {:induction false} FieldsRoundTripIff(g: Engine, fs: seq<Field>)
    requires forall t :: !g.parse(t).Bin?
    ensures ReviveFields(g, EncodeFields(g, fs)) == fs <==> FaithfulFields(g, fs)
    decreases fs
  {
    if fs != [] {
      var f := fs[0];
      TreeRoundTripIff(g, f.key, f.val);
      FieldsRoundTripIff(g, fs[1..]);
      var x, xs := Field(f.key, Encode(g, f.val)), EncodeFields(g, fs[1..]);
      ReviveFieldsCons(g, x, xs);
      assert fs == [f] + fs[1..];
      ConsEqual(Field(f.key, Revive(g, f.key, x.val)), ReviveFields(g, xs), f, fs[1..]);
    }
  }

  lemma ConsEqual<T>(x: T, xs: seq<T>, y: T, ys: seq<T>)
    ensures [x] + xs == [y] + ys <==> x == y && xs == ys
  {
    if [x] + xs == [y] + ys {
      assert ([x] + xs)[0] == ([y] + ys)[0];
      assert ([x] + xs)[1..] == xs && ([y] + ys)[1..] == ys;
    }
  }

  // ----- which byte strings survive -----

  /** Text that is not JSON survives exactly if it is UTF-8 without a byte order mark. */
  lemma TextLeafIff(g: Engine, b: Bytes)
    requires !Parses(Decode(b))
    ensures LeafSurvives(g, b) <==> ValidUtf8(b) && !(BOM <= b)
  {
    SanitizeFixed(b);
    if BOM <= b { DroppedBom(b); }
  }

  /** Replacing bad bytes adds two bytes each, so it never makes up for a dropped mark. */
  lemma DroppedBom(b: Bytes)
    requires BOM <= b
    ensures Sanitize(b[3..]) != b
  {
    SanitizeParity(b[3..]);
  }

  lemma {:induction false} SanitizeParity(s: Bytes)
    ensures (|Sanitize(s)| - |s|) % 2 == 0
  {
    if s != [] { SanitizeParity(s[if RuneLen(s) == 0 then 1 else RuneLen(s)..]); }
  }

  /** Bytes that are JSON survive exactly if the engine prints their parsed, revived value as it was. */
  lemma LeafIff(g: Engine, b: Bytes)
    ensures LeafSurvives(g, b) <==> SafeLeaf(g, b)
  {
    if Parses(Decode(b)) { ReviveUnderBody(g, g.parse(Decode(b))); } else { TextLeafIff(g, b); }
  }

  /** Children do not depend on the key; the value itself is turned into bytes last. */
  lemma ReviveUnderBody(g: Engine, v: Val)
    ensures Revive(g, "body", v) == ReviveHere(g, "body", Revive(g, "", v))
  {}

  /** The bytes null become null. */
  lemma NullLeafIsLost(g: Engine)
    requires g.parse(Json.NULL) == Null
    ensures Parses(Decode(Json.NULL)) && !LeafSurvives(g, Json.NULL)
  {
    assert ValidUtf8(Json.NULL) by {
      var n := Json.NULL;
      assert n[1..][1..] == n[2..] && n[2..][1..] == n[3..] && n[3..][1..] == [];
      assert ValidUtf8(n[3..]) && ValidUtf8(n[2..]) && ValidUtf8(n[1..]);
    }
    SanitizeFixed(Json.NULL);
    Json.NullIsValid(4);
  }

  // ----- the messages of the protocol -----

  /** What is not null comes back as bytes under body and data, a string as its own, and nowhere else. */
  lemma BytesExactlyUnder(g: Engine, key: string, v: Val)
    requires !v.Bin? && !v.Null?
    ensures Revive(g, key, v).Bin? <==> key == "body" || key == "data"
    ensures v.Str? && (key == "body" || key == "data") ==> Revive(g, key, v) == Bin(v.text)
    ensures v.Str? && key != "body" && key != "data" ==> Revive(g, key, v) == v
  {}

  /** An envelope as marshalText prepares it. */
  function Envelope(typ: Bytes, id: Bytes, payload: Val): Val {
    Obj([Field("type", Scalar(typ)), Field("request_id", Str(id)), Field("payload", payload)])
  }

  type HeaderList = seq<(string, seq<Bytes>)>

  function Strings(vs: seq<Bytes>): seq<Val> { if vs == [] then [] else [Str(vs[0])] + Strings(vs[1..]) }

  function HeaderFields(hs: HeaderList): seq<Field> {
    if hs == [] then [] else [Field(hs[0].0, Arr(Strings(hs[0].1)))] + HeaderFields(hs[1..])
  }

  function Headers(hs: HeaderList): Field { Field("headers", Obj(HeaderFields(hs))) }

  /** A body that is undefined is not a field of the JSON text. */
  function BodyField(body: Option<Bytes>): seq<Field> {
    if body.None? then [] else [Field("body", Bin(body.value))]
  }

  function RequestPayload(verb: Bytes, url: Bytes, hs: HeaderList, body: Option<Bytes>): Val {
    Obj([Field("method", Str(verb)), Field("url", Str(url)), Headers(hs)] + BodyField(body))
  }

  function ResponsePayload(status: Bytes, hs: HeaderList, body: Option<Bytes>): Val {
    Obj([Field("status_code", Scalar(status)), Headers(hs)] + BodyField(body))
  }

  function StartPayload(status: Bytes, hs: HeaderList): Val {
    Obj([Field("status_code", Scalar(status)), Headers(hs)])
  }

  function ChunkPayload(data: Bytes): Val { Obj([Field("data", Bin(data))]) }

  function ErrorPayload(code: Bytes, message: Bytes): Val {
    Obj([Field("code", Scalar(code)), Field("message", Str(message))])
  }

  /** unmarshalText gives back what marshalText was given. */
  predicate Survives(g: Engine, typ: Bytes, id: Bytes, payload: Val) {
    Revive(g, "", Encode(g, Envelope(typ, id, payload))) == Envelope(typ, id, payload)
  }

  /** No header has the name of a binary field. */
  ghost predicate PlainNames(hs: HeaderList) {
    forall i :: 0 <= i < |hs| ==> hs[i].0 != "body" && hs[i].0 != "data"
  }

  lemma FaithfulCons(g: Engine, f: Field, fs: seq<Field>)
    ensures FaithfulFields(g, [f] + fs) <==> Faithful(g, f.key, f.val) && FaithfulFields(g, fs)
  {
    assert ([f] + fs)[1..] == fs;
  }

  lemma FaithfulOne(g: Engine, f: Field)
    ensures FaithfulFields(g, [f]) <==> Faithful(g, f.key, f.val)
  {
    FaithfulCons(g, f, []);
    assert [f] + [] == [f];
  }

  lemma SurvivesIffFaithful(g: Engine, typ: Bytes, id: Bytes, payload: Val)
    requires forall t :: !g.parse(t).Bin?
    ensures Survives(g, typ, id, payload) <==> Faithful(g, "payload", payload)
  {
    var a, b, p := Field("type", Scalar(typ)), Field("request_id", Str(id)), Field("payload", payload);
    TreeRoundTripIff(g, "", Envelope(typ, id, payload));
    assert [a, b, p] == [a] + ([b] + [p]);
    FaithfulCons(g, a, [b] + [p]);
    FaithfulCons(g, b, [p]);
    FaithfulOne(g, p);
  }

  lemma {:induction false} StringsFaithful(g: Engine, vs: seq<Bytes>)
    ensures FaithfulItems(g, Strings(vs))
  {
    if vs != [] {
      StringsFaithful(g, vs[1..]);
      assert ([Str(vs[0])] + Strings(vs[1..]))[1..] == Strings(vs[1..]);
    }
  }

  lemma {:induction false} HeadersFaithfulIff(g: Engine, hs: HeaderList)
    ensures FaithfulFields(g, HeaderFields(hs)) <==> PlainNames(hs)
  {
    if hs != [] {
      HeadersFaithfulIff(g, hs[1..]);
      StringsFaithful(g, hs[0].1);
      FaithfulCons(g, Field(hs[0].0, Arr(Strings(hs[0].1))), HeaderFields(hs[1..]));
      assert forall i :: 1 <= i < |hs| ==> hs[i] == hs[1..][i - 1];
      assert PlainNames(hs) <==> hs[0].0 != "body" && hs[0].0 != "data" && PlainNames(hs[1..]) by {
        if PlainNames(hs) { assert forall i :: 0 <= i < |hs| - 1 ==> hs[1..][i] == hs[i + 1]; }
      }
    }
  }

  lemma HeadersAndBodyIff(g: Engine, hs: HeaderList, body: Option<Bytes>)
    ensures FaithfulFields(g, [Headers(hs)] + BodyField(body)) <==>
            PlainNames(hs) && (body.Some? ==> SafeLeaf(g, body.value))
  {
    HeadersFaithfulIff(g, hs);
    FaithfulCons(g, Headers(hs), BodyField(body));
    if body.Some? { FaithfulOne(g, Field("body", Bin(body.value))); }
  }

  /** The bytes of every chunk survive exactly if they are a safe leaf. */
  lemma ChunkSurvivesIff(g: Engine, typ: Bytes, id: Bytes, data: Bytes)
    requires forall t :: !g.parse(t).Bin?
    ensures Survives(g, typ, id, ChunkPayload(data)) <==> SafeLeaf(g, data)
  {
    SurvivesIffFaithful(g, typ, id, ChunkPayload(data));
    FaithfulOne(g, Field("data", Bin(data)));
  }

  /** A request survives exactly if its body does and no header is called body or data. */
  lemma RequestSurvivesIff(g: Engine, typ: Bytes, id: Bytes,
                           verb: Bytes, url: Bytes, hs: HeaderList, body: Option<Bytes>)
    requires forall t :: !g.parse(t).Bin?
    ensures Survives(g, typ, id, RequestPayload(verb, url, hs, body)) <==>
            PlainNames(hs) && (body.Some? ==> SafeLeaf(g, body.value))
  {
    SurvivesIffFaithful(g, typ, id, RequestPayload(verb, url, hs, body));
    HeadersAndBodyIff(g, hs, body);
    var m, u, rest := Field("method", Str(verb)), Field("url", Str(url)), [Headers(hs)] + BodyField(body);
    assert [m, u, Headers(hs)] + BodyField(body) == [m] + ([u] + rest);
    FaithfulCons(g, m, [u] + rest);
    FaithfulCons(g, u, rest);
  }

  /** So does a buffered response, and with no body the start of a streamed one. */
  lemma ResponseSurvivesIff(g: Engine, typ: Bytes, id: Bytes, status: Bytes, hs: HeaderList, body: Option<Bytes>)
    requires forall t :: !g.parse(t).Bin?
    ensures Survives(g, typ, id, ResponsePayload(status, hs, body)) <==>
            PlainNames(hs) && (body.Some? ==> SafeLeaf(g, body.value))
    ensures Survives(g, typ, id, StartPayload(status, hs)) <==> PlainNames(hs)
  {
    ResponseFaithfulIff(g, status, hs, body);
    ResponseFaithfulIff(g, status, hs, None);
    SurvivesIffFaithful(g, typ, id, ResponsePayload(status, hs, body));
    SurvivesIffFaithful(g, typ, id, StartPayload(status, hs));
    var start := [Field("status_code", Scalar(status)), Headers(hs)];
    assert start + [] == start;
  }

  lemma ResponseFaithfulIff(g: Engine, status: Bytes, hs: HeaderList, body: Option<Bytes>)
    ensures Faithful(g, "payload", ResponsePayload(status, hs, body)) <==>
            PlainNames(hs) && (body.Some? ==> SafeLeaf(g, body.value))
  {
    HeadersAndBodyIff(g, hs, body);
    var c, rest := Field("status_code", Scalar(status)), [Headers(hs)] + BodyField(body);
    assert [c, Headers(hs)] + BodyField(body) == [c] + rest;
    FaithfulCons(g, c, rest);
  }

  /** An error always survives. */
  lemma ErrorSurvives(g: Engine, typ: Bytes, id: Bytes, code: Bytes, message: Bytes)
    requires forall t :: !g.parse(t).Bin?
    ensures Survives(g, typ, id, ErrorPayload(code, message))
  {
    SurvivesIffFaithful(g, typ, id, ErrorPayload(code, message));
    var c, m := Field("code", Scalar(code)), Field("message", Str(message));
    assert [c, m] == [c] + [m];
    FaithfulCons(g, c, [m]);
    FaithfulOne(g, m);
  }

  /** The values of a header called data arrive as bytes: the JSON text of the list. */
  lemma HeaderBecomesBytes(g: Engine, vs: seq<Bytes>)
    ensures Revive(g, "data", Encode(g, Arr(Strings(vs)))) == Bin(g.stringify(Arr(Strings(vs))))
  {
    StringsPass(g, vs);
  }

  lemma {:induction false} StringsPass(g: Engine, vs: seq<Bytes>)
    ensures EncodeItems(g, Strings(vs)) == Strings(vs) && ReviveItems(g, Strings(vs)) == Strings(vs)
  {
    if vs != [] {
      StringsPass(g, vs[1..]);
      assert ([Str(vs[0])] + Strings(vs[1..]))[1..] == Strings(vs[1..]);
    }
  }

  // ----- encodeBinaryFields as it is written -----

  /** The result object and the mapped array are filled one entry at a time. */
  method EncodeBinaryFields(g: Engine, v: Val) returns (r: Val)
    ensures r == Encode(g, v)
    decreases v
  {
    match v
    case Bin(b) => r := EncodeBytes(g, b);
    case Arr(items) =>
      var i, done := 0, [];
      assert items[0..] == items && [] + EncodeItems(g, items) == EncodeItems(g, items);
      while i < |items|
        invariant 0 <= i <= |items|
        invariant done + EncodeItems(g, items[i..]) == EncodeItems(g, items)
      {
        var x := EncodeBinaryFields(g, items[i]);
        assert items[i..][1..] == items[i + 1..];
        assert done + ([x] + EncodeItems(g, items[i + 1..])) == (done + [x]) + EncodeItems(g, items[i + 1..]);
        done, i := done + [x], i + 1;
      }
      r := Arr(done);
    case Obj(fields) =>
      var i, done := 0, [];
      assert fields[0..] == fields && [] + EncodeFields(g, fields) == EncodeFields(g, fields);
      while i < |fields|
        invariant 0 <= i <= |fields|
        invariant done + EncodeFields(g, fields[i..]) == EncodeFields(g, fields)
      {
        var x := EncodeBinaryFields(g, fields[i].val);
        var f := [Field(fields[i].key, x)];
        assert fields[i..][1..] == fields[i + 1..];
        assert done + (f + EncodeFields(g, fields[i + 1..])) == (done + f) + EncodeFields(g, fields[i + 1..]);
        done, i := done + f, i + 1;
      }
      r := Obj(done);
    case _ => r := v;
  }
}
