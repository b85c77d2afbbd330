/**
 The handler side as it is written: objects that send envelopes as they go. Every method is
 tied to the trace of HandlerModel that the results about the wire are proved for.
 */
module Handlers {
  import opened Protocol
  import opened HandlerModel
  import opened HandlerTheorems
  import opened HandlerOutcomes

  /** The transport as seen by one request: what was tried, of which the peer gets the accepted part. */
  class Sender {
    const fate: Fate
    var tried: seq<Frame>

    ghost function Wire(): seq<Frame> reads this { Accepted(tried, fate) }

    constructor (fate: Fate)
      ensures this.fate == fate && tried == []
    {
      this.fate := fate;
      tried := [];
    }

    method Send(f: Frame) returns (ok: bool)
      modifies this
      ensures tried == old(tried) + [f] && ok == fate(|old(tried)|)
    {
      ok := fate(|tried|);
      tried := tried + [f];
    }
  }

  class ResponseWriter {
    const sender: Sender
    var started: bool

    constructor (sender: Sender)
      ensures this.sender == sender && !started
    {
      this.sender := sender;
      started := false;
    }

    method WriteHeader(head: Head)
      modifies this, sender
      ensures started
      ensures sender.tried == old(sender.tried) + if old(started) then [] else [Start(Some(head))]
    {
      if started { return; }
      started := true;
      var _ := sender.Send(Start(Some(head)));
    }

    method Write(data: Bytes) returns (ok: bool)
      modifies sender
      ensures sender.tried == old(sender.tried) + [Chunk(Some(data))]
      ensures ok == sender.fate(|old(sender.tried)|)
    {
      ok := sender.Send(Chunk(Some(data)));
    }

    method Close()
      modifies sender
      ensures sender.tried == old(sender.tried) + [End]
    {
      var _ := sender.Send(End);
    }
  }

  /** http.ResponseWriter over a ResponseWriter. */
  class StreamingResponseWriter {
    const rw: ResponseWriter
    var hdr: Headers
    var started: bool

    ghost predicate Valid() reads this, rw { started == rw.started }

    ghost function State(): Writer reads this, rw.sender { Writer(started, hdr, rw.sender.tried) }

    constructor (rw: ResponseWriter)
      requires !rw.started
      ensures Valid() && this.rw == rw && State() == Writer(false, map[], rw.sender.tried)
    {
      this.rw := rw;
      hdr, started := map[], false;
    }

    method EditHeader(h: Headers)
      requires Valid()
      modifies this
      ensures Valid() && State() == DoOp(rw.sender.fate, old(State()), Op.EditHeader(h)).0
    {
      hdr := h;
    }

    method WriteHeader(status: int)
      requires Valid()
      modifies this, rw, rw.sender
      ensures Valid() && started && State() == Commit(old(State()), status)
    {
      if started { return; }
      started := true;
      rw.WriteHeader(Head(Uint16(status), hdr));
    }

    method Write(data: Bytes) returns (ok: bool)
      requires Valid()
      modifies this, rw, rw.sender
      ensures Valid() && (State(), ok) == DoOp(rw.sender.fate, old(State()), Op.Write(data))
    {
      if !started { WriteHeader(STATUS_OK); }
      if |data| == 0 { return true; }
      ok := rw.Write(data);
    }

    method Flush()
      requires Valid()
      modifies this, rw, rw.sender
      ensures Valid() && State() == Commit(old(State()), STATUS_OK)
    {
      if !started { WriteHeader(STATUS_OK); }
    }
  }

  /** The wrapped http.Handler runs against the streaming writer. */
  method ServeHTTP(p: Prog, w: StreamingResponseWriter)
    requires w.Valid()
    modifies w, w.rw, w.rw.sender
    ensures w.Valid() && w.State() == DoProg(w.rw.sender.fate, old(w.State()), p)
  {
    var todo := p;
    while todo.Do?
      invariant w.Valid()
      invariant DoProg(w.rw.sender.fate, w.State(), todo) == DoProg(w.rw.sender.fate, old(w.State()), p)
      decreases todo
    {
      var ok := true;
      match todo.op {
        case EditHeader(h) => w.EditHeader(h);
        case WriteHeader(status) => w.WriteHeader(status);
        case Write(data) => ok := w.Write(data);
        case Flush => w.Flush();
      }
      todo := if ok then todo.ok else todo.failed;
    }
  }

  /** streamingHTTPHandlerAdapter.ServeHTTPOverWSStream once the request object exists. */
  method AdapterStream(p: Prog, w: ResponseWriter)
    requires w.sender.tried == [] && !w.started
    modifies w, w.sender
    ensures w.sender.tried == AdapterTried(w.sender.fate, p)
  {
    var srw := new StreamingResponseWriter(w);
    ServeHTTP(p, srw);
    if !srw.started { srw.WriteHeader(STATUS_OK); }
    w.Close();
  }

  /** One Read of the upstream body into a buffer that keeps its old contents beyond the data. */
  method ReadInto(buf: array<Byte>, r: UpRead) returns (n: nat)
    requires FitsBuffer(r) && buf.Length == BUFFER_SIZE
    modifies buf
    ensures n == |r.data| && buf[..n] == r.data && buf[n..] == old(buf[n..])
  {
    n := 0;
    while n < |r.data|
      invariant n <= |r.data|
      invariant forall i :: 0 <= i < n ==> buf[i] == r.data[i]
      invariant forall i :: n <= i < buf.Length ==> buf[i] == old(buf[i])
    {
      buf[n] := r.data[n];
      n := n + 1;
    }
  }

  /** make and copy: a slice of its own with the first n bytes of the buffer. */
  method CopyOf(buf: array<Byte>, n: nat) returns (chunk: array<Byte>)
    requires n <= buf.Length
    ensures fresh(chunk) && chunk[..] == buf[..n]
  {
    chunk := new Byte[n](i requires 0 <= i < n && n <= buf.Length reads buf => buf[i]);
    assert forall i :: 0 <= i < n ==> chunk[i] == buf[i];
  }

  /** The bytes of one read go out in a slice of their own. */
  method SendRead(buf: array<Byte>, r: UpRead, w: ResponseWriter) returns (ok: bool, ghost slice: seq<array<Byte>>)
    requires FitsBuffer(r) && buf.Length == BUFFER_SIZE
    modifies buf, w.sender
    ensures |slice| == (if r.data == [] then 0 else 1)
    ensures r.data != [] ==> fresh(slice[0]) && slice[0][..] == r.data
    ensures w.sender.tried == old(w.sender.tried) + SentFor(r)
    ensures ok == (r.data == [] || w.sender.fate(|old(w.sender.tried)|))
  {
    var n := ReadInto(buf, r);
    ok, slice := true, [];
    if n > 0 {
      var chunk := CopyOf(buf, n);
      assert chunk[..] == r.data;
      ok := w.Write(chunk[..]);
      slice := [chunk];
    }
  }

  /** Each chunk that was sent is still what the slice handed over for it holds. */
  ghost predicate Held(slices: seq<array<Byte>>, sent: seq<Frame>) reads slices {
    && |slices| == |sent|
    && forall i :: 0 <= i < |slices| ==> sent[i] == Chunk(Some(slices[i][..]))
  }

  function SentFor(r: UpRead): seq<Frame> { if r.data == [] then [] else [Chunk(Some(r.data))] }

  /** What is known between rounds: what was sent, that slices hold it, and what is still to come. */
  ghost predicate Pumping(w: ResponseWriter, start: seq<Frame>, script: seq<UpRead>,
                          body: seq<Frame>, slices: seq<array<Byte>>, todo: seq<UpRead>, eof: bool)
    reads w.sender, slices
  {
    && Held(slices, body) && w.sender.tried == start + body
    && Remaining(w.sender.fate, |start|, body, todo, eof) == PumpTried(w.sender.fate, |start|, script)
  }

  /** What the loop leaves behind; a failed send is the last one. */
  ghost predicate Pumped(w: ResponseWriter, start: seq<Frame>, script: seq<UpRead>,
                         body: seq<Frame>, slices: seq<array<Byte>>, failed: bool)
    reads w.sender, slices
  {
    var last := if failed then [] else [End];
    && Held(slices, body) && w.sender.tried == start + (body + last)
    && PumpTried(w.sender.fate, |start|, script) == (body + last, failed)
  }

  /** One round: the buffer is overwritten, and every slice sent before keeps its bytes. */
  method ForwardRound(buf: array<Byte>, w: ResponseWriter, todo: seq<UpRead>, ghost start: seq<Frame>,
                      ghost script: seq<UpRead>, ghost body: seq<Frame>, ghost held: seq<array<Byte>>)
    returns (ok: bool, rest: seq<UpRead>, eof: bool, ghost sent: seq<Frame>, ghost slices: seq<array<Byte>>)
    requires Pumping(w, start, script, body, held, todo, false)
    requires (todo != [] ==> FitsBuffer(todo[0])) && buf.Length == BUFFER_SIZE && buf !in held
    modifies buf, w.sender
    ensures rest == (if todo != [] then todo[1..] else todo) && (todo == [] ==> eof) && buf !in slices
    ensures if ok then Pumping(w, start, script, sent, slices, rest, eof)
            else Pumped(w, start, script, sent, slices, true)
  {
    var r := if todo != [] then todo[0] else UpRead([], true);
    ghost var slice;
    ok, slice := SendRead(buf, r, w);
    sent, slices := body + SentFor(r), held + slice;
    rest, eof := if todo != [] then todo[1..] else todo, r.err;
    NextRead(w.sender.fate, start, body, todo, r, ok);
  }

  /**
   The forwarding read loop over one reused buffer. The slices already handed to Write still
   hold the bytes that were sent, whatever later reads put into the buffer.
   */
  method ForwardPump(script: seq<UpRead>, w: ResponseWriter)
    returns (failed: bool, ghost body: seq<Frame>, ghost slices: seq<array<Byte>>)
    requires forall i :: 0 <= i < |script| ==> FitsBuffer(script[i])
    modifies w.sender
    ensures Pumped(w, old(w.sender.tried), script, body, slices, failed)
  {
    var buf := new Byte[BUFFER_SIZE](_ => 0);
    ghost var start := w.sender.tried;
    body, slices := [], [];
    var todo, eof := script, false;
    NothingRead(w.sender.fate, |start|, script);
    assert start + [] == start;
    while !eof
      invariant forall i :: 0 <= i < |todo| ==> FitsBuffer(todo[i])
      invariant fresh(buf) && buf !in slices
      invariant Pumping(w, start, script, body, slices, todo, eof)
      decreases |todo|, !eof
    {
      var ok;
      ok, todo, eof, body, slices := ForwardRound(buf, w, todo, start, script, body, slices);
      if !ok { return true, body, slices; }
    }
    w.Close();
    assert (start + body) + [End] == start + (body + [End]);
    failed := false;
  }

  /** What the loop will have tried in all, seen from one of its rounds. */
  ghost function Remaining(fate: Fate, m: nat, body: seq<Frame>, todo: seq<UpRead>, eof: bool): (seq<Frame>, bool) {
    var rest := if eof then ([End], false) else PumpTried(fate, m + |body|, todo);
    (body + rest.0, rest.1)
  }

  lemma NothingRead(fate: Fate, m: nat, script: seq<UpRead>)
    ensures Remaining(fate, m, [], script, false) == PumpTried(fate, m, script)
  {
    var all := PumpTried(fate, m, script);
    assert [] + all.0 == all.0;
  }

  /** One round of the loop leaves the whole as it was. */
  lemma NextRead(fate: Fate, start: seq<Frame>, body: seq<Frame>, todo: seq<UpRead>, r: UpRead, ok: bool)
    requires r == (if todo != [] then todo[0] else UpRead([], true))
    requires ok == (r.data == [] || fate(|start + body|))
    ensures Remaining(fate, |start|, body, todo, false)
         == if ok then Remaining(fate, |start|, body + SentFor(r), if todo != [] then todo[1..] else todo, r.err)
            else (body + SentFor(r) + [], true)
    ensures (start + body) + SentFor(r) == start + (body + SentFor(r)) == start + (body + SentFor(r) + [])
  {
    var here, n := SentFor(r), |start| + |body|;
    if !ok {
      assert todo != [] && PumpTried(fate, n, todo) == (here, true);
      assert body + here + [] == body + here;
    } else if todo != [] {
      var rest := if r.err then ([End], false) else PumpTried(fate, n + |here|, todo[1..]);
      assert PumpTried(fate, n, todo) == (here + rest.0, rest.1);
      assert body + (here + rest.0) == (body + here) + rest.0;
    } else {
      assert body + [] == body && PumpTried(fate, n, todo) == ([End], false);
    }
  }

  /** ForwardHandler.ServeHTTPOverWSStream. */
  method ForwardStream(up: Upstream, w: ResponseWriter) returns (err: Option<Bytes>)
    requires w.sender.tried == [] && !w.started
    requires up.Answer? ==> forall i :: 0 <= i < |up.script| ==> FitsBuffer(up.script[i])
    modifies w, w.sender
    ensures w.started == up.Answer?
    ensures (w.sender.tried, err) == ForwardTried(w.sender.fate, up)
  {
    match up
    case NoUpstream(why) => err := Some(why);
    case Answer(head, script) =>
      w.WriteHeader(head);
      ghost var start := w.sender.tried;
      assert start == [Start(Some(head))];
      var failed, _, _ := ForwardPump(script, w);
      err := if failed then Some(SEND_FAILED) else None;
  }

  function CallTried(call: Call, started: bool): seq<Frame> {
    match call
    case CallHeader(h) => if started then [] else [Start(Some(h))]
    case CallWrite(d) => [Chunk(Some(d))]
    case CallClose => [End]
  }

  method MakeCall(call: Call, w: ResponseWriter)
    modifies w, w.sender
    ensures w.started == (old(w.started) || call.CallHeader?)
    ensures w.sender.tried == old(w.sender.tried) + CallTried(call, old(w.started))
  {
    match call {
      case CallHeader(h) => w.WriteHeader(h);
      case CallWrite(d) => var _ := w.Write(d);
      case CallClose => w.Close();
    }
  }

  /** A user-written StreamingHandler making its calls. */
  method MakeCalls(calls: seq<Call>, w: ResponseWriter)
    requires w.sender.tried == [] && !w.started
    modifies w, w.sender
    ensures w.started == Started(calls)
    ensures w.sender.tried == CallsTried(calls, false)
  {
    var todo := calls;
    assert [] + CallsTried(calls, false) == CallsTried(calls, false);
    while todo != []
      invariant (w.started || Started(todo)) == Started(calls)
      invariant w.sender.tried + CallsTried(todo, w.started) == CallsTried(calls, false)
    {
      ghost var before, was := w.sender.tried, w.started;
      MakeCall(todo[0], w);
      CallsSplit(todo, was, before);
      todo := todo[1..];
    }
  }

  lemma CallsSplit(calls: seq<Call>, was: bool, before: seq<Frame>)
    requires calls != []
    ensures before + CallsTried(calls, was) ==
            (before + CallTried(calls[0], was)) + CallsTried(calls[1..], was || calls[0].CallHeader?)
  {
    var now := was || calls[0].CallHeader?;
    assert CallsTried(calls, was) == CallTried(calls[0], was) + CallsTried(calls[1..], now);
    assert before + (CallTried(calls[0], was) + CallsTried(calls[1..], now))
        == (before + CallTried(calls[0], was)) + CallsTried(calls[1..], now);
  }

  method DispatchForward(up: Upstream, s: Sender)
    requires s.tried == []
    requires up.Answer? ==> forall i :: 0 <= i < |up.script| ==> FitsBuffer(up.script[i])
    modifies s
    ensures s.tried == DispatchTried(s.fate, Forward(up))
  {
    var w := new ResponseWriter(s);
    var err := ForwardStream(up, w);
    if err.Some? { var _ := s.Send(Report(w.started, err.value)); }
  }

  method DispatchUser(calls: seq<Call>, err: Option<Bytes>, s: Sender)
    requires s.tried == []
    modifies s
    ensures s.tried == DispatchTried(s.fate, User(calls, err))
  {
    var w := new ResponseWriter(s);
    MakeCalls(calls, w);
    if err.Some? { var _ := s.Send(Report(w.started, err.value)); }
  }

  method DispatchAdapter(p: Prog, s: Sender)
    requires s.tried == []
    modifies s
    ensures s.tried == DispatchTried(s.fate, Adapter(p))
  {
    var w := new ResponseWriter(s);
    AdapterStream(p, w);
  }

  /** HTTPHandlerAdapter.ServeHTTPOverWS: the program runs against a recorder, whose result is the response. */
  method ServeBuffered(p: Prog, headers: Headers) returns (resp: (Head, Bytes))
    ensures Buffered(Some(resp), []) == BufferedAdapter(p, headers)
    ensures 100 <= FirstStatus(Path(p)) <= 999 ==>
              resp == (Head(FirstStatus(Path(p)), headers), Concat(NonEmptyWrites(Path(p))))
  {
    var todo, recorder := p, NEW_RECORDER;
    while todo.Do?
      invariant RecProg(recorder, todo) == RecProg(NEW_RECORDER, p)
      decreases todo
    {
      recorder := RecOp(recorder, todo.op);
      todo := todo.ok;
    }
    RecorderBody(NEW_RECORDER, p);
    assert [] + Concat(NonEmptyWrites(Path(p))) == Concat(NonEmptyWrites(Path(p)));
    resp := (Head(Uint16(recorder.code), headers), recorder.body);
  }

  /** The branches of dispatchRequest. */
  method Serve(h: Handler, s: Sender)
    requires s.tried == []
    requires h.Forward? && h.up.Answer? ==> forall i :: 0 <= i < |h.up.script| ==> FitsBuffer(h.up.script[i])
    modifies s
    ensures s.tried == DispatchTried(s.fate, h)
  {
    match h {
      case Buffered(result, why) =>
        var _ := s.Send(if result.Some? then Response(result) else Report(false, why));
      case BadRequestURL(why) =>
        var _ := s.Send(Report(false, why));
      case Adapter(p) => DispatchAdapter(p, s);
      case Forward(up) => DispatchForward(up, s);
      case User(calls, err) => DispatchUser(calls, err, s);
    }
  }

  lemma DispatchWire(h: Handler, fate: Fate)
    ensures Sticky(fate) ==> Accepted(DispatchTried(fate, h), fate) <= Intended(h)
    ensures Sticky(fate) && WellBehaved(h) ==> Grammar(Accepted(DispatchTried(fate, h), fate))
    ensures Healthy(fate) && WellBehaved(h) ==> Interpret(Accepted(DispatchTried(fate, h), fate)) == Promised(h)
  {
    if Healthy(fate) && WellBehaved(h) {
      HealthyWire(h, fate);
      PromiseKept(h);
    }
    if Sticky(fate) {
      WireIsIntendedPrefix(h, fate);
      if WellBehaved(h) { HandlerGrammar(h, fate); }
    }
  }

  /** dispatchRequest for a fresh request: any handler, any transport. */
  method Dispatch(h: Handler, s: Sender)
    requires s.tried == []
    requires h.Forward? && h.up.Answer? ==> forall i :: 0 <= i < |h.up.script| ==> FitsBuffer(h.up.script[i])
    modifies s
    ensures s.tried == DispatchTried(s.fate, h)
    ensures Sticky(s.fate) ==> s.Wire() <= Intended(h)
    ensures Sticky(s.fate) && WellBehaved(h) ==> Grammar(s.Wire())
    ensures Healthy(s.fate) && WellBehaved(h) ==> Interpret(s.Wire()) == Promised(h)
  {
    DispatchWire(h, s.fate);
    Serve(h, s);
  }
}
