/** What a peer that receives a handler's envelopes makes of them. */
module HandlerOutcomes {
  import opened Protocol
  import opened HandlerModel
  import opened HandlerTheorems

  const ALWAYS: Fate := n => true

  /** What a handler sends when the transport stays up. */
  function Intended(h: Handler): seq<Frame> { DispatchTried(ALWAYS, h) }

  function Chunks(ds: seq<Bytes>): seq<Frame> {
    if ds == [] then [] else [Chunk(Some(ds[0]))] + Chunks(ds[1..])
  }

  lemma {:induction false} ChunksBody(ds: seq<Bytes>, last: Frame)
    requires Terminal(last) && (last.Error? ==> last.info.Some?)
    ensures StreamBody(Chunks(ds) + [last]) ==
            (Concat(ds), if last.End? then CleanEof else Broke(Remote(last.info.value)))
  {
    if ds == [] {
      assert Chunks(ds) + [last] == [last];
    } else {
      ChunksBody(ds[1..], last);
      var t := Chunks(ds[1..]) + [last];
      assert Chunks(ds) + [last] == [Chunk(Some(ds[0]))] + t;
      assert ([Chunk(Some(ds[0]))] + t)[1..] == t;
    }
  }

  // ----- the two http.Handler adapters -----

  /** The calls a program makes when no write fails. */
  function Path(p: Prog): seq<Op> {
    match p case Return => [] case Do(op, ok, _) => [op] + Path(ok)
  }

  /** The first status that is committed: explicit, or 200 by a Write, a Flush or the end. */
  function FirstStatus(ops: seq<Op>): int {
    if ops == [] then 200
    else
      match ops[0]
      case EditHeader(_) => FirstStatus(ops[1..])
      case WriteHeader(status) => status
      case _ => 200
  }

  /** The headers in force at that moment. */
  function HeadersAtCommit(h: Headers, ops: seq<Op>): Headers
    decreases ops
  {
    if ops == [] || !ops[0].EditHeader? then h else HeadersAtCommit(ops[0].h, ops[1..])
  }

  function NonEmptyWrites(ops: seq<Op>): seq<Bytes> {
    if ops == [] then []
    else if ops[0].Write? && ops[0].data != [] then [ops[0].data] + NonEmptyWrites(ops[1..])
    else NonEmptyWrites(ops[1..])
  }

  lemma {:induction false} AfterCommit(w: Writer, p: Prog)
    requires w.started
    ensures var w' := DoProg(ALWAYS, w, p);
            w'.started && w'.tried == w.tried + Chunks(NonEmptyWrites(Path(p)))
    decreases p
  {
    if p.Do? {
      var (w1, r) := DoOp(ALWAYS, w, p.op);
      AfterCommit(w1, p.ok);
      assert Path(p)[1..] == Path(p.ok);
      if p.op.Write? && p.op.data != [] {
        var ds := NonEmptyWrites(Path(p));
        assert ds[1..] == NonEmptyWrites(Path(p.ok));
        assert w.tried + ([Chunk(Some(p.op.data))] + Chunks(ds[1..])) == w1.tried + Chunks(ds[1..]);
      }
    }
  }

  lemma {:induction false} BeforeCommit(h: Headers, p: Prog)
    ensures var w := Commit(DoProg(ALWAYS, Writer(false, h, []), p), STATUS_OK);
            var ops := Path(p);
            w.tried == [Start(Some(Head(Uint16(FirstStatus(ops)), HeadersAtCommit(h, ops))))]
                       + Chunks(NonEmptyWrites(ops))
    decreases p
  {
    if p.Do? {
      var w := Writer(false, h, []);
      assert Path(p)[1..] == Path(p.ok);
      if p.op.EditHeader? {
        BeforeCommit(p.op.h, p.ok);
      } else {
        var (w1, r) := DoOp(ALWAYS, w, p.op);
        AfterCommit(w1, p.ok);
        var s := [Start(Some(Head(Uint16(FirstStatus(Path(p))), h)))];
        if p.op.Write? && p.op.data != [] {
          var ds := NonEmptyWrites(Path(p));
          assert ds[1..] == NonEmptyWrites(Path(p.ok));
          assert w1.tried == s + [Chunk(Some(p.op.data))];
          assert s + ([Chunk(Some(p.op.data))] + Chunks(ds[1..])) == w1.tried + Chunks(ds[1..]);
        } else {
          assert w1.tried == s;
        }
      }
    }
  }

  /**
   On a healthy transport the streaming adapter sends one Start with the first status and the
   headers of that moment, one chunk per non-empty Write, in order, and one End.
   */
  lemma StreamingTrace(p: Prog)
    ensures var ops := Path(p);
            AdapterTried(ALWAYS, p) ==
            [Start(Some(Head(Uint16(FirstStatus(ops)), HeadersAtCommit(map[], ops))))]
            + Chunks(NonEmptyWrites(ops)) + [End]
  {
    BeforeCommit(map[], p);
  }

  lemma {:induction false} RecorderBody(r: Recorder, p: Prog)
    ensures RecProg(r, p).body == r.body + Concat(NonEmptyWrites(Path(p)))
    ensures r.wrote ==> RecProg(r, p).code == r.code
    ensures !r.wrote && r.code == STATUS_OK ==> RecProg(r, p).code == FirstStatus(Path(p))
    decreases p
  {
    if p.Do? {
      RecorderBody(RecOp(r, p.op), p.ok);
      assert Path(p)[1..] == Path(p.ok);
      if p.op.Write? {
        var d, rest := p.op.data, Concat(NonEmptyWrites(Path(p.ok)));
        assert r.body + (d + rest) == (r.body + d) + rest;
        if d != [] { assert NonEmptyWrites(Path(p))[1..] == NonEmptyWrites(Path(p.ok)); }
        else { assert d + rest == rest; }
      }
    } else {
      assert r.body + [] == r.body;
    }
  }

  /** Streaming and buffering a program give the caller the same status and the same body. */
  lemma AdaptersAgree(p: Prog)
    requires 100 <= FirstStatus(Path(p)) <= 999
    ensures var v := Interpret(Intended(Adapter(p)));
            v.Streaming? && v.ending == CleanEof && (v.head.status, v.body) == BufferedResponse(p)
    ensures BufferedResponse(p).0 == FirstStatus(Path(p))
  {
    StreamingTrace(p);
    RecorderBody(NEW_RECORDER, p);
    var ds := NonEmptyWrites(Path(p));
    TraceView(Head(Uint16(FirstStatus(Path(p))), HeadersAtCommit(map[], Path(p))), ds);
    assert [] + Concat(ds) == Concat(ds);
  }

  lemma TraceView(head: Head, ds: seq<Bytes>)
    ensures Interpret([Start(Some(head))] + Chunks(ds) + [End]) == Streaming(head, Concat(ds), CleanEof)
  {
    var t := [Start(Some(head))] + Chunks(ds) + [End];
    assert t[1..] == Chunks(ds) + [End];
    ChunksBody(ds, End);
  }

  // ----- the forwarding handler -----

  lemma {:induction false} PumpBody(n: nat, script: seq<UpRead>)
    ensures !PumpTried(ALWAYS, n, script).1
    ensures StreamBody(PumpTried(ALWAYS, n, script).0) == (Obtained(script), CleanEof)
    decreases script
  {
    if script != [] {
      var r := script[0];
      var k := if r.data != [] then 1 else 0;
      PumpBody(n + k, script[1..]);
      var rest := if r.err then [End] else PumpTried(ALWAYS, n + k, script[1..]).0;
      var t := PumpTried(ALWAYS, n, script).0;
      if r.data != [] {
        assert t == [Chunk(Some(r.data))] + rest && t[1..] == rest;
        assert r.data + [] == r.data;
      } else {
        assert t == rest && r.data + Obtained(script[1..]) == Obtained(script[1..]);
      }
    }
  }

  /** Forwarding delivers exactly the bytes obtained upstream, and then a clean end even after an upstream error. */
  lemma ForwardView(head: Head, script: seq<UpRead>)
    ensures Interpret(Intended(Forward(Answer(head, script)))) == Streaming(head, Obtained(script), CleanEof)
  {
    PumpBody(1, script);
    var t := Intended(Forward(Answer(head, script)));
    assert t[1..] == PumpTried(ALWAYS, 1, script).0;
  }

  /** Every chunk the forwarding handler sends holds 1 to 4096 bytes. */
  lemma {:induction false} ForwardChunkSizes(fate: Fate, n: nat, script: seq<UpRead>)
    requires forall i :: 0 <= i < |script| ==> FitsBuffer(script[i])
    ensures forall f :: f in PumpTried(fate, n, script).0 && f.Chunk? ==>
              f.data.Some? && 1 <= |f.data.value| <= 4096
    decreases script
  {
    if script != [] {
      ForwardChunkSizes(fate, n + if script[0].data != [] then 1 else 0, script[1..]);
    }
  }

  // ----- user-written handlers -----

  /** All bytes a list of calls writes. */
  function Written(calls: seq<Call>): Bytes {
    if calls == [] then []
    else (if calls[0].CallWrite? then calls[0].data else []) + Written(calls[1..])
  }

  /** How a disciplined handler's stream ends: its error (code Internal), its Close, or not at all. */
  function UserEnding(calls: seq<Call>, err: Option<Bytes>): Ending {
    if err.Some? then Broke(Remote(ErrorInfo(1006, err.value)))
    else if CallClose in calls then CleanEof
    else Open
  }

  lemma {:induction false} CallsBody(calls: seq<Call>, err: Option<Bytes>)
    requires ClosesLast(calls, err)
    ensures StreamBody(Finish(CallsTried(calls, true), true, err)) == (Written(calls), UserEnding(calls, err))
  {
    var t := Finish(CallsTried(calls, true), true, err);
    if calls == [] {
      if err.Some? { assert t == [Report(true, err.value)]; }
    } else {
      var rest := calls[1..];
      var u := Finish(CallsTried(rest, true), true, err);
      assert forall i :: 0 <= i < |rest| ==> rest[i] == calls[i + 1];
      CallsBody(rest, err);
      match calls[0]
      case CallHeader(h) =>
        assert t == u && [] + Written(rest) == Written(rest);
      case CallWrite(d) =>
        assert t == [Chunk(Some(d))] + u && t[1..] == u;
      case CallClose =>
        HeadersWriteNothing(rest);
        assert t[0] == End;
    }
  }

  lemma {:induction false} HeadersWriteNothing(calls: seq<Call>)
    requires forall i :: 0 <= i < |calls| ==> calls[i].CallHeader?
    ensures Written(calls) == []
  {
    if calls != [] { HeadersWriteNothing(calls[1..]); }
  }

  /** A disciplined user handler's stream carries its header, exactly the bytes it wrote, and its own ending. */
  lemma UserView(calls: seq<Call>, err: Option<Bytes>)
    requires calls != [] && Disciplined(calls, err)
    ensures Interpret(Intended(User(calls, err))) == Streaming(calls[0].head, Written(calls), UserEnding(calls, err))
  {
    var rest := calls[1..];
    HeaderIsHarmless(calls, err);
    CallsBody(rest, err);
    var t := Intended(User(calls, err));
    assert Started(calls);
    assert t == [Start(Some(calls[0].head))] + Finish(CallsTried(rest, true), true, err);
    assert t[1..] == Finish(CallsTried(rest, true), true, err);
    assert [] + Written(rest) == Written(rest);
  }

  /** One that writes its header and returns an error is never a clean stream. */
  lemma FailureIsNotEof(calls: seq<Call>, why: Bytes)
    requires calls != [] && Disciplined(calls, Some(why))
    ensures var v := Interpret(Intended(User(calls, Some(why))));
            v.Streaming? && v.ending == Broke(Remote(ErrorInfo(1006, why)))
  {
    UserView(calls, Some(why));
  }

  // ----- every kind of handler -----

  /** The answer to a request that failed before any header was sent. */
  function BadGateway(why: Bytes): View { Whole(Head(502, map["Content-Type" := ["text/plain"]]), why) }

  /** What a handler has to say, in terms of what it was given: its result, its program, its upstream, its calls. */
  ghost function Promised(h: Handler): View
    requires WellBehaved(h)
  {
    match h
    case Buffered(Some(r), _) => Whole(r.0, r.1)
    case Buffered(None, why) => BadGateway(why)
    case BadRequestURL(why) => BadGateway(why)
    case Adapter(p) =>
      var ops := Path(p);
      Streaming(Head(Uint16(FirstStatus(ops)), HeadersAtCommit(map[], ops)), Concat(NonEmptyWrites(ops)), CleanEof)
    case Forward(NoUpstream(why)) => BadGateway(why)
    case Forward(Answer(head, script)) => Streaming(head, Obtained(script), CleanEof)
    case User(calls, err) =>
      if calls != [] then Streaming(calls[0].head, Written(calls), UserEnding(calls, err))
      else if err.Some? then BadGateway(err.value)
      else Nothing
  }

  /** And that is what its envelopes say to a peer that receives them all. */
  lemma PromiseKept(h: Handler)
    requires WellBehaved(h)
    ensures Interpret(Intended(h)) == Promised(h)
  {
    match h
    case Adapter(p) =>
      StreamingTrace(p);
      var ops := Path(p);
      TraceView(Head(Uint16(FirstStatus(ops)), HeadersAtCommit(map[], ops)), NonEmptyWrites(ops));
    case Forward(Answer(head, script)) => ForwardView(head, script);
    case User(calls, err) => if calls != [] { UserView(calls, err); }
    case _ =>
  }

  /** The buffered adapter: the program's first status and all it wrote, in one response. */
  lemma BufferedView(p: Prog, headers: Headers)
    requires 100 <= FirstStatus(Path(p)) <= 999
    ensures Interpret(Intended(BufferedAdapter(p, headers))) ==
            Whole(Head(FirstStatus(Path(p)), headers), Concat(NonEmptyWrites(Path(p))))
  {
    RecorderBody(NEW_RECORDER, p);
    assert [] + Concat(NonEmptyWrites(Path(p))) == Concat(NonEmptyWrites(Path(p)));
  }

  // ----- a transport that dies -----

  /** tried agrees with healthy as far as the transport accepts it. */
  ghost predicate SameWhileUp(tried: seq<Frame>, healthy: seq<Frame>, fate: Fate) {
    && (forall i :: 0 <= i < |tried| && fate(i) ==> i < |healthy| && tried[i] == healthy[i])
    && (tried == [] || fate(|tried| - 1) ==> tried == healthy)
  }

  lemma {:induction false} ProgExtends(fate: Fate, w: Writer, p: Prog)
    ensures w.tried <= DoProg(fate, w, p).tried
    ensures w.started ==> DoProg(fate, w, p).started
    decreases p
  {
    if p.Do? {
      var (w1, r) := DoOp(fate, w, p.op);
      ProgExtends(fate, w1, if r then p.ok else p.failed);
    }
  }

  /** Both runs have sent cut; from there on nothing is accepted. */
  lemma CutOff(cut: seq<Frame>, tried: seq<Frame>, healthy: seq<Frame>, fate: Fate)
    requires Sticky(fate) && cut != [] && !fate(|cut| - 1) && cut <= tried && cut <= healthy
    ensures SameWhileUp(tried, healthy, fate)
  {
    assert forall i :: |cut| - 1 <= i ==> !fate(i);
    assert forall i :: 0 <= i < |cut| ==> tried[i] == cut[i] && healthy[i] == cut[i];
  }

  lemma {:induction false} ProgWhileUp(fate: Fate, w: Writer, p: Prog)
    requires Sticky(fate)
    ensures var a, b := DoProg(fate, w, p), DoProg(ALWAYS, w, p);
            a == b || (a.started && b.started && SameWhileUp(a.tried, b.tried, fate)
                       && a.tried != [] && !fate(|a.tried| - 1))
    decreases p
  {
    if p.Do? {
      var (w1, r) := DoOp(fate, w, p.op);
      assert w1 == DoOp(ALWAYS, w, p.op).0 && DoOp(ALWAYS, w, p.op).1;
      if r {
        ProgWhileUp(fate, w1, p.ok);
      } else {
        ProgExtends(fate, w1, p.failed);
        ProgExtends(ALWAYS, w1, p.ok);
        CutOff(w1.tried, DoProg(fate, w1, p.failed).tried, DoProg(ALWAYS, w1, p.ok).tried, fate);
        assert |w1.tried| - 1 <= |DoProg(fate, w1, p.failed).tried| - 1;
      }
    }
  }

  lemma {:induction false} PumpWhileUp(fate: Fate, n: nat, script: seq<UpRead>)
    requires Sticky(fate)
    ensures var a, b := PumpTried(fate, n, script), PumpTried(ALWAYS, n, script);
            a == b || (a.1 && a.0 != [] && a.0 <= b.0 && !fate(n + |a.0| - 1))
    decreases script
  {
    if script != [] {
      PumpWhileUp(fate, n + if script[0].data != [] then 1 else 0, script[1..]);
    }
  }

  /** A transport that accepts everything carries exactly the intended envelopes. */
  lemma HealthyWire(h: Handler, fate: Fate)
    requires Healthy(fate)
    ensures DispatchTried(fate, h) == Intended(h) && Accepted(DispatchTried(fate, h), fate) == Intended(h)
  {
    match h {
      case Adapter(p) => ProgWhileUp(fate, NEW_WRITER, p);
      case Forward(Answer(head, script)) => PumpWhileUp(fate, 1, script);
      case _ =>
    }
    StickyPrefix(DispatchTried(fate, h), fate);
  }

  /**
   A refused chunk is the last one the forwarding handler tries, and the failure is then reported; if
   none is refused it tries everything.
   */
  lemma ForwardStopsWhenRefused(fate: Fate, head: Head, script: seq<UpRead>)
    ensures var t := DispatchTried(fate, Forward(Answer(head, script)));
            && (forall i :: 1 <= i < |t| && t[i].Chunk? && !fate(i) ==>
                  i == |t| - 2 && t[|t| - 1] == Error(Some(ErrorInfo(1006, SEND_FAILED))))
            && ((forall i :: 1 <= i < |t| && t[i].Chunk? ==> fate(i)) ==>
                  t == Intended(Forward(Answer(head, script))))
  {
    PumpStopsWhenRefused(fate, 1, script);
    var (fs, failed) := PumpTried(fate, 1, script);
    RefusalIsReported(fate, Start(Some(head)), fs, failed);
    var t := DispatchTried(fate, Forward(Answer(head, script)));
    assert t == [Start(Some(head))] + fs + if failed then [Report(true, SEND_FAILED)] else [];
    PumpStopsWhenRefused(ALWAYS, 1, script);
  }

  lemma RefusalIsReported(fate: Fate, start: Frame, fs: seq<Frame>, failed: bool)
    requires forall i :: 0 <= i < |fs| && fs[i].Chunk? && !fate(1 + i) ==> failed && i == |fs| - 1
    requires failed ==> fs != [] && fs[|fs| - 1].Chunk? && !fate(|fs|)
    ensures var t := [start] + fs + if failed then [Report(true, SEND_FAILED)] else [];
            && (forall i :: 1 <= i < |t| && t[i].Chunk? && !fate(i) ==>
                  i == |t| - 2 && t[|t| - 1] == Error(Some(ErrorInfo(1006, SEND_FAILED))))
            && ((forall i :: 1 <= i < |t| && t[i].Chunk? ==> fate(i)) ==> !failed)
  {
    var t := [start] + fs + if failed then [Report(true, SEND_FAILED)] else [];
    assert forall i :: 0 <= i < |fs| ==> t[i + 1] == fs[i];
    if failed { assert t[|fs|].Chunk? && !fate(|fs|); }
  }

  lemma {:induction false} PumpStopsWhenRefused(fate: Fate, n: nat, script: seq<UpRead>)
    ensures var (fs, failed) := PumpTried(fate, n, script);
            && (forall i :: 0 <= i < |fs| && fs[i].Chunk? && !fate(n + i) ==> failed && i == |fs| - 1)
            && (if failed then fs != [] && fs[|fs| - 1].Chunk? && !fate(n + |fs| - 1)
                else fs == PumpTried(ALWAYS, n, script).0)
    decreases script
  {
    if script != [] {
      var r := script[0];
      var here := if r.data != [] then [Chunk(Some(r.data))] else [];
      PumpStopsWhenRefused(fate, n + |here|, script[1..]);
      var rest := if r.err then ([End], false) else PumpTried(fate, n + |here|, script[1..]);
      var fs := PumpTried(fate, n, script).0;
      if r.data == [] || fate(n) {
        assert fs == here + rest.0;
        RefusalInTail(fate, n, here, rest.0, rest.1);
      }
    }
  }

  /** What was accepted before does not matter. */
  lemma RefusalInTail(fate: Fate, n: nat, here: seq<Frame>, rest: seq<Frame>, failed: bool)
    requires |here| <= 1 && (here != [] ==> fate(n))
    requires forall i :: 0 <= i < |rest| && rest[i].Chunk? && !fate(n + |here| + i) ==> failed && i == |rest| - 1
    ensures var fs := here + rest;
            forall i :: 0 <= i < |fs| && fs[i].Chunk? && !fate(n + i) ==> failed && i == |fs| - 1
  {
    var fs := here + rest;
    forall i | 0 <= i < |fs| && fs[i].Chunk? && !fate(n + i) ensures failed && i == |fs| - 1 {
      if i >= |here| { assert fs[i] == rest[i - |here|] && n + |here| + (i - |here|) == n + i; }
    }
  }

  /** A Write reports an error exactly if its bytes were refused. */
  lemma WriteVerdict(fate: Fate, w: Writer, data: Bytes)
    ensures var (w', ok) := DoOp(fate, w, Op.Write(data));
            if data == [] then ok
            else
              && w'.tried != [] && w'.tried[|w'.tried| - 1] == Chunk(Some(data))
              && (ok <==> Accepted(w'.tried, fate) == Accepted(w'.tried[..|w'.tried| - 1], fate) + [Chunk(Some(data))])
  {
    var t := DoOp(fate, w, Op.Write(data)).0.tried;
    if data != [] {
      var a := Accepted(t[..|t| - 1], fate);
      assert |a + [Chunk(Some(data))]| == |a| + 1;
    }
  }

  /** Whatever happens to a sticky transport, the wire carries a prefix of what a healthy one would carry. */
  lemma WireIsIntendedPrefix(h: Handler, fate: Fate)
    requires Sticky(fate)
    ensures Accepted(DispatchTried(fate, h), fate) <= Intended(h)
  {
    var t, i := DispatchTried(fate, h), Intended(h);
    StickyPrefix(t, fate);
    var a := Accepted(t, fate);
    match h
    case Adapter(p) =>
      ProgWhileUp(fate, NEW_WRITER, p);
      if t != i {
        var x, y := DoProg(fate, NEW_WRITER, p).tried, DoProg(ALWAYS, NEW_WRITER, p).tried;
        assert t == x + [End] && i == y + [End];
        PrefixWhileUp(x, [End], y, [End], fate);
      }
    case Forward(Answer(head, script)) =>
      PumpWhileUp(fate, 1, script);
      if t != i {
        var start := [Start(Some(head))];
        var x, y := start + PumpTried(fate, 1, script).0, start + PumpTried(ALWAYS, 1, script).0;
        PumpBody(1, script);
        assert i == y + [] && t == x + [Report(true, SEND_FAILED)];
        CutOff(x, x, y, fate);
        PrefixWhileUp(x, [Report(true, SEND_FAILED)], y, [], fate);
      }
    case _ =>
  }

  lemma PrefixWhileUp(x: seq<Frame>, dx: seq<Frame>, y: seq<Frame>, dy: seq<Frame>, fate: Fate)
    requires Sticky(fate) && SameWhileUp(x, y, fate) && x != [] && !fate(|x| - 1)
    ensures Accepted(x + dx, fate) <= y + dy
  {
    var t := x + dx;
    StickyPrefix(t, fate);
    var a := Accepted(t, fate);
    AcceptedAreUp(t, fate);
    forall i | 0 <= i < |a| ensures i < |y| && a[i] == y[i] {
      assert i < |x| && t[i] == x[i];
    }
  }

  /** On a sticky transport the accepted sends are exactly the first ones. */
  lemma {:induction false} AcceptedAreUp(t: seq<Frame>, fate: Fate)
    requires Sticky(fate)
    ensures forall i :: 0 <= i < |t| ==> (fate(i) <==> i < |Accepted(t, fate)|)
    ensures |Accepted(t, fate)| <= |t|
  {
    if t != [] {
      var n := |t| - 1;
      AcceptedAreUp(t[..n], fate);
    }
  }
}
