/** RawBody: bytes that travel as JSON where they are JSON, and as a JSON string where they are not. */
module RawBodies {
  import opened Protocol
  import opened Utf8
  import opened Json

  function MarshalJSON(r: Bytes): Bytes {
    if r == [] then NULL else if Valid(r) then r else Quote(r)
  }

  /** The bytes between the quotes of a scanned literal. */
  function Content(data: Bytes): Bytes
    requires data != [] && ScanString(data[1..]).Some?
  {
    data[1..|data| - |ScanString(data[1..]).value| - 1]
  }

  /** None: the error of json.Unmarshal. */
  function UnmarshalJSON(data: Bytes): Option<Bytes> {
    if data == [] || data == NULL then Some([])
    else if data[0] == QUOTE then
      if Valid(data) then StringStarts(data); Some(Unquote(Content(data))) else None
    else Some(data)
  }

  lemma StringStarts(data: Bytes)
    requires Valid(data) && data != [] && data[0] == QUOTE
    ensures ScanString(data[1..]).Some?
  {
    ValidString(data, MAX_NESTING);
  }

  /** What MarshalJSON produces is always valid JSON. */
  lemma MarshalIsValid(r: Bytes)
    ensures Valid(MarshalJSON(r))
  {
    if r == [] { NullIsValid(MAX_NESTING); }
    else { QuotedIsValid(r); }
  }

  lemma QuotedPath(r: Bytes)
    requires r != []
    ensures UnmarshalJSON(Quote(r)) == Some(Sanitize(r))
  {
    QuotedIsValid(r);
    var q := Quote(r);
    assert q[0] == QUOTE && q != NULL;
    assert Content(q) == Escape(r);
    QuoteRoundTrip(r);
  }

  /** A JSON string never decodes to its own text. */
  lemma StringChanges(data: Bytes)
    requires Valid(data) && data != [] && data[0] == QUOTE
    ensures Unquote(Content(data)) != data
  {
    StringStarts(data);
    LiteralOutweighs(Content(data), data[|Content(data)| + 1..]);
    assert data == [QUOTE] + Content(data) + data[|Content(data)| + 1..];
  }

  lemma LiteralOutweighs(c: Bytes, rest: Bytes)
    ensures Unquote(c) != [QUOTE] + c + rest
  {
    UnquoteLosesWeight(c);
    WeightAppend([QUOTE] + c, rest);
    WeightAppend([QUOTE], c);
    assert [QUOTE][1..] == [];
  }

  /**
   The round trip, exactly: non-empty bytes survive if and only if they are UTF-8 text that is not
   JSON, or JSON that is neither the bare null nor a string without leading space.
   */
  lemma {:induction false} RoundTripIff(b: Bytes)
    requires b != []
    ensures UnmarshalJSON(MarshalJSON(b)) == Some(b) <==>
            (ValidUtf8(b) && !Valid(b)) || (Valid(b) && b != NULL && b[0] != QUOTE)
  {
    if Valid(b) {
      if b[0] == QUOTE { StringChanges(b); }
    } else {
      QuotedPath(b);
      SanitizeFixed(b);
    }
  }

  /** What survives otherwise: bad bytes become U+FFFD, null becomes empty, a string becomes its contents. */
  lemma {:induction false} RoundTripResult(b: Bytes)
    ensures UnmarshalJSON(MarshalJSON(b)) ==
            if b == [] || b == NULL then Some([])
            else if !Valid(b) then Some(Sanitize(b))
            else if b[0] == QUOTE then (StringStarts(b); Some(Unquote(Content(b))))
            else Some(b)
  {
    if b != [] && !Valid(b) { QuotedPath(b); }
    if b == NULL { MarshalIsValid([]); }
  }

  /** Only a malformed string is refused; nothing and null are empty, and other text is kept as it is. */
  lemma UnmarshalFailsIff(data: Bytes)
    ensures UnmarshalJSON(data).None? <==> data != [] && data[0] == 0x22 && !Valid(data)
    ensures data == [] || data == [0x6E, 0x75, 0x6C, 0x6C] ==> UnmarshalJSON(data) == Some([])
    ensures data != [] && data[0] != 0x22 && data != [0x6E, 0x75, 0x6C, 0x6C] ==> UnmarshalJSON(data) == Some(data)
  {}

  /** The receiver of the pair of methods. */
  class RawBody {
    var bytes: Bytes

    constructor (bytes: Bytes)
      ensures this.bytes == bytes
    {
      this.bytes := bytes;
    }

    method Marshal() returns (data: Bytes)
      ensures data == MarshalJSON(bytes) && Valid(data)
    {
      MarshalIsValid(bytes);
      if |bytes| == 0 { return NULL; }
      if Valid(bytes) { return bytes; }
      data := Quote(bytes);
    }

    method Unmarshal(data: Bytes) returns (ok: bool)
      modifies this
      ensures ok == UnmarshalJSON(data).Some?
      ensures bytes == if ok then UnmarshalJSON(data).value else old(bytes)
    {
      if |data| == 0 || data == NULL {
        bytes := [];
        return true;
      }
      if data[0] == QUOTE {
        if !Valid(data) { return false; }
        StringStarts(data);
        bytes := Unquote(Content(data));
        return true;
      }
      bytes := data;
      ok := true;
    }
  }

  /** A body sent through a fresh receiver arrives unchanged exactly under the condition of RoundTripIff. */
  method SendAndReceive(b: Bytes) returns (got: Bytes)
    requires b != []
    ensures got == b <==> (ValidUtf8(b) && !Valid(b)) || (Valid(b) && b != NULL && b[0] != QUOTE)
  {
    var sender := new RawBody(b);
    var receiver := new RawBody([]);
    var data := sender.Marshal();
    MarshalIsValid(b);
    RoundTripIff(b);
    var _ := receiver.Unmarshal(data);
    got := receiver.bytes;
  }
}
