/**
 The envelopes of HTTP over WebSocket as a caller sees them once a message has been
 unmarshalled, and the one meaning both callers give to the list of envelopes that
 arrived for a request.
 */
module Protocol {

  type Byte = b: int | 0 <= b < 256
  type Bytes = seq<Byte>

  function Concat(cs: seq<Bytes>): Bytes { if cs == [] then [] else cs[0] + Concat(cs[1..]) }

  /** A request identifier (a version 4 UUID). */
  type Id = string

  datatype Option<+T> = None | Some(value: T)

  datatype Head = Head(status: nat, headers: map<string, seq<string>>)

  /** A message is a Go string, that is, bytes. */
  datatype ErrorInfo = ErrorInfo(code: nat, message: Bytes)

  /** One envelope. A payload that its decoder rejects is None. */
  datatype Frame =
    | Response(whole: Option<(Head, Bytes)>)
    | Start(head: Option<Head>)
    | Chunk(data: Option<Bytes>)
    | End
    | Error(info: Option<ErrorInfo>)
    | Other(code: nat)

  /** The argument of Close; nil stands for the default error. IoEof is Go's io.EOF, a clean end to readers. */
  datatype CloseErr = TransportClosed | IoEof | Custom(what: string)

  /** Why a request or its body failed. Closed carries the field closeErr as it was read. */
  datatype Failure =
    | Closed(err: Option<CloseErr>)
    | ContextDone
    | ReadTimeout
    | SendFailed
    | BadPayload
    | Unexpected
    | Remote(info: ErrorInfo)

  predicate FromFrames(f: Failure) {
    f.BadPayload? || f.Unexpected? || f.Remote?
  }

  datatype Ending = Open | CleanEof | Broke(why: Failure)

  /** What a list of envelopes says about one response. */
  datatype View =
    | Nothing
    | Whole(head: Head, body: Bytes)
    | Streaming(head: Head, body: Bytes, ending: Ending)
    | Refused(why: Failure)

  /** The bytes and the ending carried by the envelopes after a Start. */
  function StreamBody(fs: seq<Frame>): (Bytes, Ending) {
    if fs == [] then ([], Open)
    else
      match fs[0]
      case Chunk(Some(d)) => var (b, e) := StreamBody(fs[1..]); (d + b, e)
      case Chunk(None) => ([], Broke(BadPayload))
      case End => ([], CleanEof)
      case Error(Some(i)) => ([], Broke(Remote(i)))
      case Error(None) => ([], Broke(BadPayload))
      case _ => StreamBody(fs[1..])
  }

  /** The Go caller's reading of all envelopes of one request, as one pure function. */
  function Interpret(fs: seq<Frame>): View {
    if fs == [] then Nothing
    else
      match fs[0]
      case Response(Some(p)) => Whole(p.0, p.1)
      case Response(None) => Refused(BadPayload)
      case Start(Some(h)) => var (b, e) := StreamBody(fs[1..]); Streaming(h, b, e)
      case Start(None) => Refused(BadPayload)
      case Error(Some(i)) => Refused(Remote(i))
      case Error(None) => Refused(BadPayload)
      case _ => Refused(Unexpected)
  }

  /** Reading on after an open stream is reading the rest from where it stopped. */
  lemma {:induction false} StreamBodyAppend(fs: seq<Frame>, gs: seq<Frame>)
    ensures StreamBody(fs).1 == Open ==>
              StreamBody(fs + gs) == (StreamBody(fs).0 + StreamBody(gs).0, StreamBody(gs).1)
    ensures StreamBody(fs).1 != Open ==> StreamBody(fs + gs) == StreamBody(fs)
  {
    if fs == [] {
      assert fs + gs == gs && [] + StreamBody(gs).0 == StreamBody(gs).0;
    } else {
      assert (fs + gs)[1..] == fs[1..] + gs;
      StreamBodyAppend(fs[1..], gs);
      if fs[0].Chunk? && fs[0].data.Some? {
        var d, b, g := fs[0].data.value, StreamBody(fs[1..]).0, StreamBody(gs).0;
        assert d + (b + g) == (d + b) + g;
      }
    }
  }

  /** A longer list never takes back a byte, and never changes an ending once it is reached. */
  lemma StreamBodyMonotone(fs: seq<Frame>, gs: seq<Frame>)
    requires fs <= gs
    ensures StreamBody(fs).0 <= StreamBody(gs).0
    ensures StreamBody(fs).1 != Open ==> StreamBody(gs) == StreamBody(fs)
  {
    assert gs == fs + gs[|fs|..];
    StreamBodyAppend(fs, gs[|fs|..]);
  }

  function BodyOf(v: View): Bytes {
    match v
    case Whole(_, b) => b
    case Streaming(_, b, _) => b
    case _ => []
  }

  /** A reader that has seen exactly these bytes and this ending has seen the view. */
  ghost predicate EndsAs(v: View, seen: Bytes, e: Ending) {
    match v
    case Whole(_, b) => seen == b && e == CleanEof
    case Streaming(_, b, w) => seen == b && e == w
    case _ => false
  }

  /** What a longer list of envelopes can add to a view. */
  lemma InterpretMonotone(fs: seq<Frame>, gs: seq<Frame>)
    requires fs <= gs
    ensures BodyOf(Interpret(fs)) <= BodyOf(Interpret(gs))
    ensures forall b, e :: EndsAs(Interpret(fs), b, e) && e != Open ==> EndsAs(Interpret(gs), b, e)
    ensures Interpret(fs).Streaming? ==> Interpret(gs).Streaming? && Interpret(gs).head == Interpret(fs).head
    ensures Interpret(fs).Whole? || Interpret(fs).Refused? ==> Interpret(gs) == Interpret(fs)
  {
    if fs != [] {
      assert fs[1..] <= gs[1..];
      StreamBodyMonotone(fs[1..], gs[1..]);
    }
  }

  // ----- one ordered connection, many requests -----

  /** The envelopes of one request on the shared connection. */
  function Project(wire: seq<(Id, Frame)>, id: Id): seq<Frame> {
    if wire == [] then []
    else (if wire[0].0 == id then [wire[0].1] else []) + Project(wire[1..], id)
  }

  lemma {:induction false} ProjectSnoc(wire: seq<(Id, Frame)>, x: (Id, Frame), id: Id)
    ensures Project(wire + [x], id) == Project(wire, id) + if x.0 == id then [x.1] else []
  {
    if wire == [] {
      assert wire + [x] == [x] && [x][1..] == [];
    } else {
      assert (wire + [x])[1..] == wire[1..] + [x];
      ProjectSnoc(wire[1..], x, id);
    }
  }
}
