/**
 The handler side as functions: which envelopes a request's handler tries to send, for every
 wrapped http.Handler program, every upstream and every behaviour of the transport.
 */
module HandlerModel {
  import opened Protocol

  type Headers = map<string, seq<string>>

  const STATUS_OK := 200
  const STATUS_BAD_GATEWAY := 502
  const ERR_INVALID_MESSAGE: nat := 1003
  const ERR_INTERNAL: nat := 1006
  const TEXT_PLAIN: Headers := map["Content-Type" := ["text/plain"]]

  /** Whether the n-th send made for this request is accepted by the transport. */
  type Fate = nat -> bool

  /** A transport that has failed keeps failing. */
  ghost predicate Sticky(fate: Fate) { forall m, n :: m <= n && !fate(m) ==> !fate(n) }

  ghost predicate Healthy(fate: Fate) { forall n :: fate(n) }

  /** The envelopes that reach the wire, when tried are the envelopes sent. */
  function Accepted(tried: seq<Frame>, fate: Fate): seq<Frame> {
    if tried == [] then []
    else
      var n := |tried| - 1;
      Accepted(tried[..n], fate) + if fate(n) then [tried[n]] else []
  }

  // ----- the grammar of one response -----

  predicate Terminal(f: Frame) { f.End? || f.Error? }

  /** A prefix of one Response, or of Start Chunk* (End | Error). */
  ghost predicate Grammar(fs: seq<Frame>) {
    || fs == []
    || (|fs| == 1 && fs[0].Response?)
    || (fs[0].Start? && forall i :: 1 <= i < |fs| ==> fs[i].Chunk? || (Terminal(fs[i]) && i == |fs| - 1))
  }

  /** A whole response: nothing may follow it. */
  ghost predicate Complete(fs: seq<Frame>) {
    Grammar(fs) && fs != [] && (fs[0].Response? || Terminal(fs[|fs| - 1]))
  }

  // ----- http.Handler programs and the streaming adapter -----

  /** Calls on http.ResponseWriter. EditHeader leaves the header map as h. */
  datatype Op = EditHeader(h: Headers) | WriteHeader(status: int) | Write(data: Bytes) | Flush

  /** A finite program; after a Write it can see whether the write failed. */
  datatype Prog = Return | Do(op: Op, ok: Prog, failed: Prog)

  function Uint16(n: int): nat { n % 0x1_0000 }

  /** streamingResponseWriter, and all this request tried to send. */
  datatype Writer = Writer(started: bool, hdr: Headers, tried: seq<Frame>)

  const NEW_WRITER := Writer(false, map[], [])

  function Commit(w: Writer, status: int): Writer {
    if w.started then w
    else w.(started := true, tried := w.tried + [Start(Some(Head(Uint16(status), w.hdr)))])
  }

  function DoOp(fate: Fate, w: Writer, op: Op): (Writer, bool) {
    match op
    case EditHeader(h) => (w.(hdr := h), true)
    case WriteHeader(status) => (Commit(w, status), true)
    case Flush => (Commit(w, STATUS_OK), true)
    case Write(data) =>
      var w1 := Commit(w, STATUS_OK);
      if data == [] then (w1, true)
      else (w1.(tried := w1.tried + [Chunk(Some(data))]), fate(|w1.tried|))
  }

  function DoProg(fate: Fate, w: Writer, p: Prog): Writer
    decreases p
  {
    match p
    case Return => w
    case Do(op, ok, failed) =>
      var (w1, r) := DoOp(fate, w, op);
      DoProg(fate, w1, if r then ok else failed)
  }

  function AdapterTried(fate: Fate, p: Prog): seq<Frame> {
    Commit(DoProg(fate, NEW_WRITER, p), STATUS_OK).tried + [End]
  }

  // ----- the buffered adapter: httptest.ResponseRecorder -----

  datatype Recorder = Recorder(wrote: bool, code: int, body: Bytes)

  const NEW_RECORDER := Recorder(false, STATUS_OK, [])

  function RecCommit(r: Recorder, status: int): Recorder {
    if r.wrote then r else r.(wrote := true, code := status)
  }

  function RecOp(r: Recorder, op: Op): Recorder {
    match op
    case EditHeader(h) => r
    case WriteHeader(status) => RecCommit(r, status)
    case Flush => RecCommit(r, STATUS_OK)
    case Write(data) => var r1 := RecCommit(r, STATUS_OK); r1.(body := r1.body + data)
  }

  function RecProg(r: Recorder, p: Prog): Recorder
    decreases p
  {
    match p
    case Return => r
    case Do(op, ok, _) => RecProg(RecOp(r, op), ok)
  }

  /** Status and body of the buffered adapter's HTTPResponse. */
  function BufferedResponse(p: Prog): (nat, Bytes) {
    var r := RecProg(NEW_RECORDER, p);
    (Uint16(r.code), r.body)
  }

  // ----- the forwarding handler -----

  const BUFFER_SIZE: nat := 4096

  /** One result of Read on the upstream body: at most a buffer of bytes, and whether an error came with it. */
  datatype UpRead = UpRead(data: Bytes, err: bool)

  predicate FitsBuffer(r: UpRead) { |r.data| <= BUFFER_SIZE }

  /** What the forwarding handler finds upstream; a script that ends means EOF. */
  datatype Upstream = NoUpstream(why: Bytes) | Answer(head: Head, script: seq<UpRead>)

  /** All bytes obtained from upstream, those that came with the final error included. */
  function Obtained(script: seq<UpRead>): Bytes {
    if script == [] then []
    else if script[0].err then script[0].data
    else script[0].data + Obtained(script[1..])
  }

  /** The read loop: the envelopes tried from here on, and whether a write failed. */
  function PumpTried(fate: Fate, n: nat, script: seq<UpRead>): (seq<Frame>, bool)
    decreases script
  {
    if script == [] then ([End], false)
    else
      var r := script[0];
      if r.data != [] && !fate(n) then ([Chunk(Some(r.data))], true)
      else
        var here := if r.data != [] then [Chunk(Some(r.data))] else [];
        var rest := if r.err then ([End], false) else PumpTried(fate, n + |here|, script[1..]);
        (here + rest.0, rest.1)
  }

  const SEND_FAILED: Bytes := []

  function ForwardTried(fate: Fate, up: Upstream): (seq<Frame>, Option<Bytes>) {
    match up
    case NoUpstream(why) => ([], Some(why))
    case Answer(head, script) =>
      var (fs, failed) := PumpTried(fate, 1, script);
      ([Start(Some(head))] + fs, if failed then Some(SEND_FAILED) else None)
  }

  // ----- dispatchRequest -----

  /** The answer to a request whose payload cannot be decoded; no handler is called. */
  function Undecodable(why: Bytes): seq<Frame> { [Error(Some(ErrorInfo(ERR_INVALID_MESSAGE, why)))] }

  /** A handler together with all it will meet while serving this request. */
  datatype Handler =
    | Buffered(result: Option<(Head, Bytes)>, why: Bytes)
    | Adapter(p: Prog)
    | BadRequestURL(why: Bytes)
    | Forward(up: Upstream)
    | User(calls: seq<Call>, err: Option<Bytes>)

  /** Calls of a user-written StreamingHandler on ResponseWriter. */
  datatype Call = CallHeader(head: Head) | CallWrite(data: Bytes) | CallClose

  function CallsTried(calls: seq<Call>, started: bool): seq<Frame> {
    if calls == [] then []
    else
      match calls[0]
      case CallHeader(h) => (if started then [] else [Start(Some(h))]) + CallsTried(calls[1..], true)
      case CallWrite(d) => [Chunk(Some(d))] + CallsTried(calls[1..], started)
      case CallClose => [End] + CallsTried(calls[1..], started)
  }

  predicate Started(calls: seq<Call>) { calls != [] && (calls[0].CallHeader? || Started(calls[1..])) }

  /** The envelope dispatchRequest adds when a streaming handler returns an error. */
  function Report(started: bool, why: Bytes): Frame {
    if started then Error(Some(ErrorInfo(ERR_INTERNAL, why)))
    else Response(Some((Head(STATUS_BAD_GATEWAY, TEXT_PLAIN), why)))
  }

  function Finish(tried: seq<Frame>, started: bool, err: Option<Bytes>): seq<Frame> {
    if err.None? then tried else tried + [Report(started, err.value)]
  }

  /** An http.Handler behind the buffered adapter; the headers are those the recorder ended up with. */
  function BufferedAdapter(p: Prog, headers: Headers): Handler {
    var (status, body) := BufferedResponse(p);
    Buffered(Some((Head(status, headers), body)), [])
  }

  function DispatchTried(fate: Fate, h: Handler): seq<Frame> {
    match h
    case Buffered(Some(r), _) => [Response(Some(r))]
    case Buffered(None, why) => [Report(false, why)]
    case Adapter(p) => AdapterTried(fate, p)
    case BadRequestURL(why) => [Report(false, why)]
    case Forward(up) =>
      var (fs, err) := ForwardTried(fate, up);
      Finish(fs, up.Answer?, err)
    case User(calls, err) => Finish(CallsTried(calls, false), Started(calls), err)
  }
}
