/**
 The handler side of the TypeScript client for one request: the settle-once listeners of
 streamImpl, the read loop of ForwardHandler, and what handleRequest reports when they fail.
 A send that the transport rejects throws, and the throw decides what happens next.
 */
module TsHandlers {
  import opened Protocol
  import opened HandlerModel

  const TS_TEXT_PLAIN: Headers := map["content-type" := ["text/plain"]]

  /** The promise of serveHTTPOverWSStream: the first settlement counts. */
  datatype Promise = Pending | Resolved | Rejected(why: Bytes)

  /**
   One streamed response. destroyed: cleanup has run, and destroying the loopback request removes the
   response's data listeners. tried counts the sends; wire holds those that did not throw.
   */
  datatype Source =
    Source(settled: bool, destroyed: bool, promise: Promise, reported: bool, tried: nat, wire: seq<Frame>)

  const NEW_SOURCE := Source(false, false, Pending, false, 0, [])

  function TrySend(fate: Fate, s: Source, f: Frame): (Source, bool) {
    var s' := s.(tried := s.tried + 1);
    if fate(s.tried) then (s'.(wire := s.wire + [f]), true) else (s', false)
  }

  function Reject(s: Source, why: Bytes): Source {
    if s.promise.Pending? then s.(promise := Rejected(why)) else s
  }

  function SettleWith(s: Source, err: Option<Bytes>): Source {
    if s.settled then s
    else
      var p := if err.Some? then Rejected(err.value) else Promise.Resolved;
      s.(settled := true, destroyed := true, promise := if s.promise.Pending? then p else s.promise)
  }

  /** writeHeader, when the upstream has answered; a failure here registers no listeners. */
  function Opened(fate: Fate, head: Head): Source {
    var (s, ok) := TrySend(fate, NEW_SOURCE, Start(Some(head)));
    if ok then s else SettleWith(s, Some(SEND_FAILED))
  }

  /** What happens afterwards; React is the catch block of handleRequest. */
  datatype Move = Data(d: Bytes) | Finish | Fail(why: Bytes) | RequestFails(why: Bytes) | React

  /** After cleanup no data event is delivered any more; the end of a response parsed whole still is. */
  predicate CanMove(s: Source, m: Move) {
    match m
    case Data(_) => !s.destroyed
    case React => s.promise.Rejected? && !s.reported
    case _ => true
  }

  function DoMove(fate: Fate, s: Source, m: Move): Source
    requires CanMove(s, m)
  {
    match m
    case Data(d) =>
      if s.settled then s
      else var (s', ok) := TrySend(fate, s, Chunk(Some(d))); if ok then s' else SettleWith(s', Some(SEND_FAILED))
    case Finish =>
      if s.settled then s
      else var (s', ok) := TrySend(fate, s, End); SettleWith(s', if ok then None else Some(SEND_FAILED))
    case Fail(why) => SettleWith(s, Some(why))
    case RequestFails(why) => Reject(s.(destroyed := true), why)  // does not consult settled
    case React => TrySend(fate, s, Report(true, s.promise.why)).0.(reported := true)
  }

  predicate CanMoves(fate: Fate, s: Source, ms: seq<Move>)
    decreases ms
  {
    ms == [] || (CanMove(s, ms[0]) && CanMoves(fate, DoMove(fate, s, ms[0]), ms[1..]))
  }

  function DoMoves(fate: Fate, s: Source, ms: seq<Move>): Source
    requires CanMoves(fate, s, ms)
    decreases ms
  {
    if ms == [] then s else DoMoves(fate, DoMove(fate, s, ms[0]), ms[1..])
  }

  // ----- responses that do not stream -----

  /** handleRequest for a buffered handler, or a streaming one that fails before its header. */
  function PlainWire(fate: Fate, result: Option<(Head, Bytes)>, why: Bytes): seq<Frame> {
    var bad := (text: Bytes) => Response(Some((Head(STATUS_BAD_GATEWAY, TS_TEXT_PLAIN), text)));
    if result.None? then (if fate(0) then [bad(why)] else [])
    else if fate(0) then [Response(result)]
    else if fate(1) then [bad(SEND_FAILED)]
    else []
  }

  // ----- the grammar -----

  ghost predicate OnlyResponseEvents(ms: seq<Move>) { forall i :: 0 <= i < |ms| ==> !ms[i].RequestFails? }

  ghost predicate ChunksOnly(wire: seq<Frame>) { forall i :: 1 <= i < |wire| ==> wire[i].Chunk? }

  /** Start Chunk* and this frame. */
  ghost predicate EndsIn(wire: seq<Frame>, last: Frame) {
    2 <= |wire| && wire[|wire| - 1] == last && forall i :: 1 <= i < |wire| - 1 ==> wire[i].Chunk?
  }

  lemma SnocShape(wire: seq<Frame>, f: Frame)
    requires wire != [] && ChunksOnly(wire)
    ensures f.Chunk? ==> ChunksOnly(wire + [f])
    ensures EndsIn(wire + [f], f) && (wire + [f])[0] == wire[0]
  {}

  /** Nothing but one Response travels for a request that does not stream. */
  lemma PlainGrammar(fate: Fate, result: Option<(Head, Bytes)>, why: Bytes)
    ensures var wire := PlainWire(fate, result, why);
            Grammar(wire) && (wire == [] <==> !fate(0) && (result.None? || !fate(1)))
  {}

  /** The peer sees the handler's result, or 502 with the reason: its own, or that the result could not be sent. */
  lemma PlainView(fate: Fate, result: Option<(Head, Bytes)>, why: Bytes)
    ensures Interpret(PlainWire(fate, result, why)) ==
            if result.Some? && fate(0) then Whole(result.value.0, result.value.1)
            else if result.None? && fate(0) then Whole(Head(502, map["content-type" := ["text/plain"]]), why)
            else if result.Some? && fate(1) then Whole(Head(502, map["content-type" := ["text/plain"]]), SEND_FAILED)
            else Nothing
  {}

  /** handleRequest without streaming: a result whose send throws ends up in the same catch block as a failure. */
  method HandlePlain(fate: Fate, result: Option<(Head, Bytes)>, why: Bytes) returns (wire: seq<Frame>)
    ensures wire == PlainWire(fate, result, why)
  {
    var message, sends := why, 0;
    if result.Some? {
      if fate(sends) { return [Response(result)]; }
      message, sends := SEND_FAILED, sends + 1;
    }
    wire := [];
    if fate(sends) { wire := [Response(Some((Head(STATUS_BAD_GATEWAY, TS_TEXT_PLAIN), message)))]; }
  }

  // ----- what the peer makes of it -----

  /** The response the upstream events describe, and whether it was complete. */
  function Meaning(ms: seq<Move>): (Bytes, Ending) {
    if ms == [] then ([], Open)
    else
      match ms[0]
      case Data(d) => var (b, e) := Meaning(ms[1..]); (d + b, e)
      case Finish => ([], CleanEof)
      case Fail(why) => ([], Broke(Remote(ErrorInfo(1006, why))))
      case RequestFails(why) => ([], Broke(Remote(ErrorInfo(1006, why))))
      case React => Meaning(ms[1..])
  }

  /** The ending a settled promise stands for. */
  function EndingOf(p: Promise): Ending {
    match p
    case Pending => Open
    case Resolved => CleanEof
    case Rejected(why) => Broke(Remote(ErrorInfo(ERR_INTERNAL, why)))
  }

  /** The wire says b, and the ending unless it is a failure still to be reported. */
  ghost predicate Says(s: Source, b: Bytes, e: Ending) {
    && s.wire != [] && s.wire[0].Start? && e == EndingOf(s.promise)
    && (s.promise.Pending? <==> !s.settled) && (s.reported ==> s.promise.Rejected?)
    && StreamBody(s.wire[1..]) == (b, if e.Broke? && !s.reported then Open else e)
  }

  lemma WireSnoc(wire: seq<Frame>, f: Frame)
    requires wire != [] && StreamBody(wire[1..]).1 == Open
    ensures StreamBody((wire + [f])[1..]) == (StreamBody(wire[1..]).0 + StreamBody([f]).0, StreamBody([f]).1)
  {
    assert (wire + [f])[1..] == wire[1..] + [f];
    StreamBodyAppend(wire[1..], [f]);
  }

  /** On a transport that stays up, the rest of the events add their meaning. */
  lemma {:induction false} MovesSay(fate: Fate, s: Source, ms: seq<Move>, b: Bytes, e: Ending)
    requires Healthy(fate) && CanMoves(fate, s, ms) && OnlyResponseEvents(ms) && Says(s, b, e)
    ensures var (b', e') := Meaning(ms);
            if e == Open then Says(DoMoves(fate, s, ms), b + b', e') else Says(DoMoves(fate, s, ms), b, e)
    decreases ms
  {
    if ms == [] {
      assert b + [] == b;
    } else {
      var s', rest := DoMove(fate, s, ms[0]), ms[1..];
      assert forall i :: 0 <= i < |rest| ==> rest[i] == ms[i + 1];
      if e == Open || ms[0].React? { MoveSays(fate, s, ms[0], b, e); }
      match ms[0] {
        case Data(d) =>
          if e == Open {
            MovesSay(fate, s', rest, b + d, Open);
            assert (b + d) + Meaning(rest).0 == b + (d + Meaning(rest).0);
          } else {
            MovesSay(fate, s, rest, b, e);
          }
        case Finish =>
          MovesSay(fate, s', rest, b, if e == Open then CleanEof else e);
          assert b + [] == b;
        case Fail(why) =>
          MovesSay(fate, s', rest, b, if e == Open then Broke(Remote(ErrorInfo(ERR_INTERNAL, why))) else e);
          assert b + [] == b;
        case React =>
          MovesSay(fate, s', rest, b, e);
      }
    }
  }

  lemma MoveSays(fate: Fate, s: Source, m: Move, b: Bytes, e: Ending)
    requires Healthy(fate) && Says(s, b, e) && CanMove(s, m) && !m.RequestFails? && (e == Open || m.React?)
    ensures match m
            case Data(d) => Says(DoMove(fate, s, m), b + d, Open)
            case Finish => Says(DoMove(fate, s, m), b, CleanEof)
            case Fail(why) => Says(DoMove(fate, s, m), b, Broke(Remote(ErrorInfo(ERR_INTERNAL, why))))
            case React => Says(DoMove(fate, s, m), b, e)
  {
    assert b + [] == b;
    match m
    case Data(d) => WireSnoc(s.wire, Chunk(Some(d))); assert d + [] == d;
    case Finish => WireSnoc(s.wire, End);
    case React => WireSnoc(s.wire, Report(true, s.promise.why));
    case _ =>
  }

  /**
   On a transport that stays up the peer sees exactly the upstream's bytes, a clean end exactly
   when the upstream ended, and an upstream failure, once reported, as a failure after those bytes.
   */
  lemma SourceView(fate: Fate, head: Head, ms: seq<Move>)
    requires Healthy(fate) && CanMoves(fate, Opened(fate, head), ms) && OnlyResponseEvents(ms)
    ensures var s := DoMoves(fate, Opened(fate, head), ms);
            var (b, e) := Meaning(ms);
            Interpret(s.wire) == Streaming(head, b, if e.Broke? && !s.reported then Open else e)
  {
    var s0 := Opened(fate, head);
    assert s0.wire == [Start(Some(head))] && s0.wire[1..] == [];
    MovesSay(fate, s0, ms, [], Open);
    assert [] + Meaning(ms).0 == Meaning(ms).0;
    WireGrows(fate, s0, ms);
  }

  // ----- the grammar, for every list of events and every transport -----

  /** The first of the response's end and error events is its end. */
  predicate FinishFirst(ms: seq<Move>) {
    ms != [] && (ms[0].Finish? || (!ms[0].Fail? && FinishFirst(ms[1..])))
  }

  /**
   Read off the events and the transport, n sends having been tried: all chunks get out, then the
   request itself fails, and both its report and an End are still to come and get out.
   */
  predicate EndsTwice(fate: Fate, n: nat, ms: seq<Move>)
    decreases ms
  {
    ms != [] &&
    match ms[0]
    case Data(_) => fate(n) && EndsTwice(fate, n + 1, ms[1..])
    case RequestFails(_) => fate(n) && fate(n + 1) && React in ms[1..] && FinishFirst(ms[1..])
    case _ => false
  }

  lemma {:induction false} WireGrows(fate: Fate, s: Source, ms: seq<Move>)
    requires CanMoves(fate, s, ms)
    ensures s.wire <= DoMoves(fate, s, ms).wire
    decreases ms
  {
    if ms != [] { WireGrows(fate, DoMove(fate, s, ms[0]), ms[1..]); }
  }

  /** What follows a terminal envelope breaks the grammar for good. */
  lemma BrokenForGood(fate: Fate, s: Source, ms: seq<Move>, before: seq<Frame>, f: Frame)
    requires CanMoves(fate, s, ms) && s.wire == before + [f]
    requires 2 <= |before| && Terminal(before[|before| - 1])
    ensures !Grammar(DoMoves(fate, s, ms).wire)
  {
    WireGrows(fate, s, ms);
    var u := DoMoves(fate, s, ms).wire;
    assert u[|before| - 1] == s.wire[|before| - 1] == before[|before| - 1];
  }

  ghost predicate Headed(s: Source) { s.wire != [] && s.wire[0].Start? }

  ghost predicate Told(s: Source) {
    s.promise.Rejected? && EndsIn(s.wire, Report(true, s.promise.why))
  }

  ghost predicate SettledInv(s: Source) {
    && s.settled && Headed(s)
    && match s.promise
       case Pending => false
       case Resolved => EndsIn(s.wire, End)
       case Rejected(_) => ChunksOnly(s.wire) || (s.reported && Told(s))
  }

  /** Settled by the response's own events: one report at most is still to come. */
  lemma {:induction false} SettledGrammar(fate: Fate, s: Source, ms: seq<Move>)
    requires SettledInv(s) && CanMoves(fate, s, ms)
    ensures Grammar(DoMoves(fate, s, ms).wire)
    decreases ms
  {
    if ms != [] {
      if ms[0].React? && ChunksOnly(s.wire) { SnocShape(s.wire, Report(true, s.promise.why)); }
      SettledGrammar(fate, DoMove(fate, s, ms[0]), ms[1..]);
    }
  }

  lemma {:induction false} ReportedStays(fate: Fate, s: Source, ms: seq<Move>)
    requires s.settled && s.reported && CanMoves(fate, s, ms)
    ensures DoMoves(fate, s, ms).wire == s.wire
    decreases ms
  {
    if ms != [] { ReportedStays(fate, DoMove(fate, s, ms[0]), ms[1..]); }
  }

  lemma InTail(m: Move, ms: seq<Move>)
    requires ms != []
    ensures m in ms <==> ms[0] == m || m in ms[1..]
  {
    assert ms == [ms[0]] + ms[1..];
  }

  /** End is out and the failure is not reported yet. */
  lemma {:induction false} ReportAfterEnd(fate: Fate, s: Source, ms: seq<Move>)
    requires s.settled && s.promise.Rejected? && !s.reported && Headed(s) && EndsIn(s.wire, End)
    requires CanMoves(fate, s, ms)
    ensures Grammar(DoMoves(fate, s, ms).wire) <==> !(React in ms && fate(s.tried))
    decreases ms
  {
    if ms != [] {
      var s', rest := DoMove(fate, s, ms[0]), ms[1..];
      InTail(React, ms);
      if ms[0].React? {
        if fate(s.tried) { BrokenForGood(fate, s', rest, s.wire, Report(true, s.promise.why)); }
        else { ReportedStays(fate, s', rest); }
      } else {
        ReportAfterEnd(fate, s', rest);
      }
    }
  }

  /** The failure is reported, as far as the transport takes it, and the response goes on unsettled. */
  lemma {:induction false} EndAfterReport(fate: Fate, s: Source, ms: seq<Move>)
    requires !s.settled && s.destroyed && s.reported && s.promise.Rejected? && Headed(s)
    requires (ChunksOnly(s.wire) || Told(s)) && CanMoves(fate, s, ms)
    ensures Grammar(DoMoves(fate, s, ms).wire) <==> !(Told(s) && FinishFirst(ms) && fate(s.tried))
    decreases ms
  {
    if ms != [] {
      var s', rest := DoMove(fate, s, ms[0]), ms[1..];
      match ms[0]
      case RequestFails(_) => EndAfterReport(fate, s', rest);
      case Fail(_) => ReportedStays(fate, s', rest);
      case Finish =>
        if fate(s.tried) && Told(s) {
          BrokenForGood(fate, s', rest, s.wire, End);
        } else {
          if fate(s.tried) { SnocShape(s.wire, End); }
          ReportedStays(fate, s', rest);
        }
    }
  }

  /** The request has failed behind the back of the response. */
  lemma {:induction false} FailedSource(fate: Fate, s: Source, ms: seq<Move>)
    requires !s.settled && s.destroyed && !s.reported && s.promise.Rejected? && Headed(s) && ChunksOnly(s.wire)
    requires CanMoves(fate, s, ms)
    ensures Grammar(DoMoves(fate, s, ms).wire) <==>
            !(fate(s.tried) && fate(s.tried + 1) && React in ms && FinishFirst(ms))
    decreases ms
  {
    if ms != [] {
      var s', rest := DoMove(fate, s, ms[0]), ms[1..];
      InTail(React, ms);
      match ms[0]
      case RequestFails(_) => FailedSource(fate, s', rest);
      case Fail(_) => SettledGrammar(fate, s', rest);
      case React =>
        SnocShape(s.wire, Report(true, s.promise.why));
        EndAfterReport(fate, s', rest);
      case Finish =>
        SnocShape(s.wire, End);
        if fate(s.tried) { ReportAfterEnd(fate, s', rest); } else { SettledGrammar(fate, s', rest); }
    }
  }

  lemma {:induction false} OpenSource(fate: Fate, s: Source, ms: seq<Move>)
    requires !s.settled && !s.reported && s.promise.Pending? && Headed(s) && ChunksOnly(s.wire)
    requires CanMoves(fate, s, ms)
    ensures Grammar(DoMoves(fate, s, ms).wire) <==> !EndsTwice(fate, s.tried, ms)
    decreases ms
  {
    if ms != [] {
      var s', rest := DoMove(fate, s, ms[0]), ms[1..];
      match ms[0]
      case Data(d) =>
        SnocShape(s.wire, Chunk(Some(d)));
        if fate(s.tried) { OpenSource(fate, s', rest); } else { SettledGrammar(fate, s', rest); }
      case Finish =>
        SnocShape(s.wire, End);
        SettledGrammar(fate, s', rest);
      case Fail(_) => SettledGrammar(fate, s', rest);
      case RequestFails(_) => FailedSource(fate, s', rest);
    }
  }

  /** The header did not get out; the report may. */
  lemma {:induction false} Headless(fate: Fate, s: Source, ms: seq<Move>)
    requires s.settled && s.promise.Rejected? && !s.reported && s.tried == 1 && s.wire == []
    requires CanMoves(fate, s, ms)
    ensures Grammar(DoMoves(fate, s, ms).wire) <==> !(React in ms && fate(1))
    decreases ms
  {
    if ms != [] {
      var s', rest := DoMove(fate, s, ms[0]), ms[1..];
      InTail(React, ms);
      if ms[0].React? { ReportedStays(fate, s', rest); } else { Headless(fate, s', rest); }
    }
  }

  /**
   For every transport, even one that recovers, and every order of events, errors of the loopback
   request included: the wire obeys the grammar if and only if the Start got out and the events do
   not end the response twice, or the Start was lost and no report of that got out.
   */
  lemma AnyEventsGrammarIff(fate: Fate, head: Head, ms: seq<Move>)
    requires CanMoves(fate, Opened(fate, head), ms)
    ensures Grammar(DoMoves(fate, Opened(fate, head), ms).wire) <==>
            if fate(0) then !EndsTwice(fate, 1, ms) else !(React in ms && fate(1))
  {
    if fate(0) { OpenSource(fate, Opened(fate, head), ms); } else { Headless(fate, Opened(fate, head), ms); }
  }

  /** As long as only the response itself ends or fails, a lost Start whose report gets out is the one exception. */
  lemma SourceGrammarIff(fate: Fate, head: Head, ms: seq<Move>)
    requires CanMoves(fate, Opened(fate, head), ms) && OnlyResponseEvents(ms)
    ensures Grammar(DoMoves(fate, Opened(fate, head), ms).wire) <==> (fate(0) || !fate(1) || React !in ms)
  {
    AnyEventsGrammarIff(fate, head, ms);
    NeverTwice(fate, 1, ms);
  }

  lemma {:induction false} NeverTwice(fate: Fate, n: nat, ms: seq<Move>)
    requires OnlyResponseEvents(ms)
    ensures !EndsTwice(fate, n, ms)
    decreases ms
  {
    if ms != [] {
      assert forall i :: 0 <= i < |ms| - 1 ==> ms[1..][i] == ms[i + 1];
      NeverTwice(fate, n + 1, ms[1..]);
    }
  }

  // ----- clean ends, for every list of events and every transport -----

  /** All chunks get out, and then the response's own end does. */
  predicate EndsWhole(fate: Fate, n: nat, ms: seq<Move>)
    decreases ms
  {
    ms != [] &&
    match ms[0]
    case Data(_) => fate(n) && EndsWhole(fate, n + 1, ms[1..])
    case Finish => fate(n)
    case _ => false
  }

  /** Once the request has failed: an End gets out, and no report has got out before it. */
  predicate EndGetsOut(fate: Fate, n: nat, ms: seq<Move>)
    decreases ms
  {
    ms != [] &&
    match ms[0]
    case Finish => fate(n)
    case React => !fate(n) && FinishFirst(ms[1..]) && fate(n + 1)
    case RequestFails(_) => EndGetsOut(fate, n, ms[1..])
    case _ => false
  }

  /** All chunks get out, the request fails, and yet an End is the first terminal envelope to get out. */
  predicate EndsFailed(fate: Fate, n: nat, ms: seq<Move>)
    decreases ms
  {
    ms != [] &&
    match ms[0]
    case Data(_) => fate(n) && EndsFailed(fate, n + 1, ms[1..])
    case RequestFails(_) => EndGetsOut(fate, n, ms[1..])
    case _ => false
  }

  /** The data before anything else happens. */
  function Leading(ms: seq<Move>): Bytes {
    if ms == [] || !ms[0].Data? then [] else ms[0].d + Leading(ms[1..])
  }

  /** What the peer has read of the stream so far. */
  function Heard(s: Source): (Bytes, Ending) {
    if s.wire == [] then ([], Open) else StreamBody(s.wire[1..])
  }

  predicate Clean(fate: Fate, s: Source, ms: seq<Move>)
    requires CanMoves(fate, s, ms)
  {
    Heard(DoMoves(fate, s, ms)).1 == CleanEof
  }

  /** What the peer takes for an ending stays one. */
  lemma EndedStays(fate: Fate, s: Source, ms: seq<Move>)
    requires Headed(s) && Heard(s).1 != Open && CanMoves(fate, s, ms)
    ensures Heard(DoMoves(fate, s, ms)) == Heard(s)
  {
    WireGrows(fate, s, ms);
    var u := DoMoves(fate, s, ms).wire;
    assert s.wire[1..] <= u[1..];
    StreamBodyMonotone(s.wire[1..], u[1..]);
  }

  lemma HeardSnoc(wire: seq<Frame>, f: Frame)
    requires wire != [] && StreamBody(wire[1..]).1 == Open
    ensures StreamBody((wire + [f])[1..]).1 == StreamBody([f]).1
    ensures f.End? || f.Error? ==> StreamBody((wire + [f])[1..]).0 == StreamBody(wire[1..]).0
  {
    WireSnoc(wire, f);
    assert StreamBody(wire[1..]).0 + [] == StreamBody(wire[1..]).0;
  }

  /** Settled by a failure: at most the report is still to come. */
  lemma {:induction false} NeverClean(fate: Fate, s: Source, ms: seq<Move>)
    requires Headed(s) && s.settled && s.promise.Rejected? && Heard(s).1 == Open && CanMoves(fate, s, ms)
    ensures !Clean(fate, s, ms)
    decreases ms
  {
    if ms != [] {
      var s', rest := DoMove(fate, s, ms[0]), ms[1..];
      if ms[0].React? && fate(s.tried) {
        HeardSnoc(s.wire, Report(true, s.promise.why));
        EndedStays(fate, s', rest);
      } else {
        NeverClean(fate, s', rest);
      }
    }
  }

  /** The report was lost and the response is still open. */
  lemma {:induction false} CleanAfterLostReport(fate: Fate, s: Source, ms: seq<Move>)
    requires Headed(s) && !s.settled && s.destroyed && s.reported && s.promise.Rejected? && Heard(s).1 == Open
    requires CanMoves(fate, s, ms)
    ensures Clean(fate, s, ms) <==> FinishFirst(ms) && fate(s.tried)
    ensures Clean(fate, s, ms) ==> Heard(DoMoves(fate, s, ms)).0 == Heard(s).0
    decreases ms
  {
    if ms != [] {
      var s', rest := DoMove(fate, s, ms[0]), ms[1..];
      match ms[0]
      case RequestFails(_) => CleanAfterLostReport(fate, s', rest);
      case Fail(_) => NeverClean(fate, s', rest);
      case Finish =>
        if fate(s.tried) {
          HeardSnoc(s.wire, End);
          EndedStays(fate, s', rest);
        } else {
          NeverClean(fate, s', rest);
        }
    }
  }

  lemma {:induction false} CleanAfterFailure(fate: Fate, s: Source, ms: seq<Move>)
    requires Headed(s) && !s.settled && s.destroyed && !s.reported && s.promise.Rejected? && Heard(s).1 == Open
    requires CanMoves(fate, s, ms)
    ensures Clean(fate, s, ms) <==> EndGetsOut(fate, s.tried, ms)
    ensures Clean(fate, s, ms) ==> Heard(DoMoves(fate, s, ms)).0 == Heard(s).0
    decreases ms
  {
    if ms != [] {
      var s', rest := DoMove(fate, s, ms[0]), ms[1..];
      match ms[0]
      case RequestFails(_) => CleanAfterFailure(fate, s', rest);
      case Fail(_) => NeverClean(fate, s', rest);
      case React =>
        if fate(s.tried) {
          HeardSnoc(s.wire, Report(true, s.promise.why));
          EndedStays(fate, s', rest);
        } else {
          CleanAfterLostReport(fate, s', rest);
        }
      case Finish =>
        if fate(s.tried) {
          HeardSnoc(s.wire, End);
          EndedStays(fate, s', rest);
        } else {
          NeverClean(fate, s', rest);
        }
    }
  }

  lemma {:induction false} CleanWhileOpen(fate: Fate, s: Source, ms: seq<Move>)
    requires Headed(s) && !s.settled && !s.reported && s.promise.Pending? && Heard(s).1 == Open
    requires CanMoves(fate, s, ms)
    ensures Clean(fate, s, ms) <==> EndsWhole(fate, s.tried, ms) || EndsFailed(fate, s.tried, ms)
    ensures Clean(fate, s, ms) ==> Heard(DoMoves(fate, s, ms)).0 == Heard(s).0 + Leading(ms)
    decreases ms
  {
    assert Heard(s).0 + [] == Heard(s).0;
    if ms != [] {
      var s', rest := DoMove(fate, s, ms[0]), ms[1..];
      match ms[0]
      case Data(d) => CleanAfterData(fate, s, d, rest);
        if fate(s.tried) { CleanWhileOpen(fate, s', rest); } else { NeverClean(fate, s', rest); }
      case Finish =>
        if fate(s.tried) {
          HeardSnoc(s.wire, End);
          EndedStays(fate, s', rest);
        } else {
          NeverClean(fate, s', rest);
        }
      case Fail(_) => NeverClean(fate, s', rest);
      case RequestFails(_) => CleanAfterFailure(fate, s', rest);
    }
  }

  lemma CleanAfterData(fate: Fate, s: Source, d: Bytes, rest: seq<Move>)
    requires Headed(s) && !s.settled && !s.destroyed && Heard(s).1 == Open
    ensures var s' := DoMove(fate, s, Data(d));
            Headed(s') && (if fate(s.tried) then Heard(s') == (Heard(s).0 + d, Open) else Heard(s') == Heard(s))
    ensures Heard(s).0 + (d + Leading(rest)) == (Heard(s).0 + d) + Leading(rest)
  {
    WireSnoc(s.wire, Chunk(Some(d)));
    assert d + [] == d;
  }

  lemma {:induction false} WholeIsMeant(fate: Fate, n: nat, ms: seq<Move>)
    requires EndsWhole(fate, n, ms)
    ensures Meaning(ms) == (Leading(ms), CleanEof)
    decreases ms
  {
    if ms[0].Data? { WholeIsMeant(fate, n + 1, ms[1..]); }
  }

  lemma {:induction false} NoFailureNoFalseEnd(fate: Fate, n: nat, ms: seq<Move>)
    requires OnlyResponseEvents(ms)
    ensures !EndsFailed(fate, n, ms)
    decreases ms
  {
    if ms != [] {
      assert forall i :: 0 <= i < |ms| - 1 ==> ms[1..][i] == ms[i + 1];
      NoFailureNoFalseEnd(fate, n + 1, ms[1..]);
    }
  }

  ghost predicate SeenClean(wire: seq<Frame>) {
    Interpret(wire).Streaming? && Interpret(wire).ending == CleanEof
  }

  /**
   For every transport and every list of events: the peer sees a clean end exactly if the header and
   all chunks get out, and then the response's own end does, or, after the request has failed, an End
   does before any report. What it has then read is the data that came before all else.
   */
  lemma CleanEndIff(fate: Fate, head: Head, ms: seq<Move>)
    requires CanMoves(fate, Opened(fate, head), ms)
    ensures var wire := DoMoves(fate, Opened(fate, head), ms).wire;
            && (SeenClean(wire) <==> fate(0) && (EndsWhole(fate, 1, ms) || EndsFailed(fate, 1, ms)))
            && (SeenClean(wire) ==> Interpret(wire).body == Leading(ms))
  {
    var s := Opened(fate, head);
    if fate(0) {
      assert s.wire == [Start(Some(head))] && s.wire[1..] == [];
      CleanWhileOpen(fate, s, ms);
      WireGrows(fate, s, ms);
      assert [] + Leading(ms) == Leading(ms);
    } else {
      HeadlessIsNoStream(fate, s, ms);
    }
  }

  lemma {:induction false} HeadlessIsNoStream(fate: Fate, s: Source, ms: seq<Move>)
    requires s.settled && s.promise.Rejected? && !s.reported && s.wire == [] && CanMoves(fate, s, ms)
    ensures var v := Interpret(DoMoves(fate, s, ms).wire); !v.Streaming? && !v.Whole?
    decreases ms
  {
    if ms != [] {
      var s', rest := DoMove(fate, s, ms[0]), ms[1..];
      if ms[0].React? { ReportedStays(fate, s', rest); } else { HeadlessIsNoStream(fate, s', rest); }
    }
  }

  /** No whole Response is ever on the wire of a streaming handler that has its header. */
  lemma StreamingOnly(fate: Fate, head: Head, ms: seq<Move>)
    requires CanMoves(fate, Opened(fate, head), ms)
    ensures !Interpret(DoMoves(fate, Opened(fate, head), ms).wire).Whole?
  {
    if fate(0) { WireGrows(fate, Opened(fate, head), ms); } else { HeadlessIsNoStream(fate, Opened(fate, head), ms); }
  }

  /** A clean end means a complete response, but for a failed request whose End came before its report. */
  lemma EofMeansComplete(fate: Fate, head: Head, ms: seq<Move>)
    requires CanMoves(fate, Opened(fate, head), ms)
    ensures var v := Interpret(DoMoves(fate, Opened(fate, head), ms).wire);
            v.Streaming? && v.ending == CleanEof ==>
              (v.body, v.ending) == Meaning(ms) || (EndsFailed(fate, 1, ms) && !OnlyResponseEvents(ms))
  {
    CleanEndIff(fate, head, ms);
    if EndsWhole(fate, 1, ms) { WholeIsMeant(fate, 1, ms); }
    if OnlyResponseEvents(ms) { NoFailureNoFalseEnd(fate, 1, ms); }
  }

  /**
   The exception is real: the response has been parsed whole and its end event is queued when the
   request's socket fails. Cleanup drops the data, the End goes out, the Error follows it, and the peer
   has read an empty body as complete.
   */
  lemma ErrorAfterEnd(head: Head, fate: Fate)
    requires Healthy(fate)
    ensures var ms := [RequestFails([1]), Finish, React];
            && CanMoves(fate, Opened(fate, head), ms)
            && var wire := DoMoves(fate, Opened(fate, head), ms).wire;
               !Grammar(wire) && Interpret(wire) == Streaming(head, [], CleanEof)
  {
    var ms := [RequestFails([1]), Finish, React];
    var s1 := DoMove(fate, Opened(fate, head), ms[0]);
    var s2 := DoMove(fate, s1, Finish);
    assert ms[1..] == [Finish, React] && ms[1..][1..] == [React] && [React][1..] == [];
    assert CanMoves(fate, s2, [React]) && CanMoves(fate, s1, ms[1..]);
    assert React in ms[1..] && FinishFirst(ms[1..]) && EndsTwice(fate, 1, ms);
    AnyEventsGrammarIff(fate, head, ms);
    assert EndGetsOut(fate, 1, ms[1..]) && EndsFailed(fate, 1, ms);
    CleanEndIff(fate, head, ms);
    WireGrows(fate, Opened(fate, head), ms);
  }

  // ----- a whole upstream response -----

  /** Every chunk in turn, and then the end or the failure. */
  function ForwardMoves(chunks: seq<Bytes>, failure: Option<Bytes>): (ms: seq<Move>)
    ensures |ms| == |chunks| + 1 && ms[|chunks|] == if failure.Some? then Fail(failure.value) else Finish
    ensures forall i :: 0 <= i < |chunks| ==> ms[i] == Data(chunks[i])
  {
    seq(|chunks|, i requires 0 <= i < |chunks| => Data(chunks[i]))
    + [if failure.Some? then Fail(failure.value) else Finish]
  }

  /** The failure is then reported. */
  function UpstreamMoves(chunks: seq<Bytes>, failure: Option<Bytes>): seq<Move> {
    ForwardMoves(chunks, failure) + if failure.Some? then [React] else []
  }

  lemma {:induction false} UpstreamMeaning(chunks: seq<Bytes>, failure: Option<Bytes>)
    ensures Meaning(UpstreamMoves(chunks, failure)) ==
            (Concat(chunks), if failure.Some? then Broke(Remote(ErrorInfo(1006, failure.value))) else CleanEof)
  {
    var ms := UpstreamMoves(chunks, failure);
    if chunks != [] {
      UpstreamMeaning(chunks[1..], failure);
      assert ms[0] == Data(chunks[0]) && ms[1..] == UpstreamMoves(chunks[1..], failure);
    }
  }

  lemma {:induction false} UpstreamMovesRun(fate: Fate, s: Source, chunks: seq<Bytes>, failure: Option<Bytes>)
    requires Healthy(fate) && !s.settled && !s.destroyed && s.promise.Pending? && !s.reported
    ensures var ms := UpstreamMoves(chunks, failure);
            CanMoves(fate, s, ms) && OnlyResponseEvents(ms) && (DoMoves(fate, s, ms).reported <==> failure.Some?)
    decreases chunks
  {
    var ms := UpstreamMoves(chunks, failure);
    if chunks != [] {
      UpstreamMovesRun(fate, DoMove(fate, s, ms[0]), chunks[1..], failure);
      assert ms[0] == Data(chunks[0]) && ms[1..] == UpstreamMoves(chunks[1..], failure);
    } else if failure.Some? {
      var s1 := DoMove(fate, s, ms[0]);
      assert ms == [Fail(failure.value), React] && ms[1..] == [React] && [React][1..] == [];
      assert CanMoves(fate, s1, [React]);
    } else {
      assert ms == [Finish] && ms[1..] == [];
    }
  }

  /** On a transport that stays up any upstream response can be streamed, and arrives as it was. */
  lemma UpstreamView(fate: Fate, head: Head, chunks: seq<Bytes>, failure: Option<Bytes>)
    requires Healthy(fate)
    ensures var ms := UpstreamMoves(chunks, failure);
            && CanMoves(fate, Opened(fate, head), ms)
            && Interpret(DoMoves(fate, Opened(fate, head), ms).wire) ==
               Streaming(head, Concat(chunks),
                         if failure.Some? then Broke(Remote(ErrorInfo(1006, failure.value))) else CleanEof)
  {
    UpstreamMovesRun(fate, Opened(fate, head), chunks, failure);
    UpstreamMeaning(chunks, failure);
    SourceView(fate, head, UpstreamMoves(chunks, failure));
  }

  // ----- as it is written -----

  /** ResponseWriter and the closures of streamImpl around one response. */
  class StreamImpl {
    const fate: Fate
    var started: bool
    var settled: bool
    var destroyed: bool
    var promise: Promise
    var reported: bool
    var tried: nat
    var wire: seq<Frame>

    ghost function State(): Source reads this { Source(settled, destroyed, promise, reported, tried, wire) }

    /** sendEnv: a rejected send throws. */
    method SendEnv(f: Frame) returns (ok: bool)
      modifies `tried, `wire
      ensures (State(), ok) == TrySend(fate, old(State()), f)
    {
      ok := fate(tried);
      if ok { wire := wire + [f]; }
      tried := tried + 1;
    }

    method Settle(err: Option<Bytes>)
      modifies `settled, `destroyed, `promise
      ensures State() == SettleWith(old(State()), err)
    {
      if settled { return; }
      settled := true;
      destroyed := true;
      if promise.Pending? { promise := if err.Some? then Rejected(err.value) else Promise.Resolved; }
    }

    /** The response callback: the header goes out before any listener is registered. */
    constructor (fate: Fate, head: Head)
      ensures this.fate == fate && started && State() == Opened(fate, head)
    {
      this.fate := fate;
      started, settled, destroyed, promise, reported, tried, wire := false, false, false, Pending, false, 0, [];
      new;
      started := true;
      var ok := SendEnv(Start(Some(head)));
      if !ok { Settle(Some(SEND_FAILED)); }
    }

    method OnData(d: Bytes)
      requires !destroyed
      modifies this
      ensures State() == DoMove(fate, old(State()), Data(d)) && started == old(started)
    {
      if settled { return; }
      var ok := SendEnv(Chunk(Some(d)));
      if !ok { Settle(Some(SEND_FAILED)); }
    }

    method OnEnd()
      modifies this
      ensures State() == DoMove(fate, old(State()), Finish) && started == old(started)
    {
      if settled { return; }
      var ok := SendEnv(End);
      if !ok {
        Settle(Some(SEND_FAILED));
        return;
      }
      Settle(None);
    }

    method OnError(why: Bytes)
      modifies this
      ensures State() == DoMove(fate, old(State()), Fail(why)) && started == old(started)
    {
      Settle(Some(why));
    }

    method OnRequestError(why: Bytes)
      modifies this
      ensures State() == DoMove(fate, old(State()), RequestFails(why)) && started == old(started)
    {
      destroyed := true;  // cleanup
      if promise.Pending? { promise := Rejected(why); }
    }

    /** The catch block of handleRequest; a second throw is swallowed. */
    method HandleRejection()
      requires promise.Rejected? && !reported && started
      modifies this
      ensures State() == DoMove(fate, old(State()), React) && started
    {
      var _ := SendEnv(Report(started, promise.why));
      reported := true;
    }
  }

  /**
   ForwardHandler's loop: reads until done, an upstream failure, or a write that throws. It makes the
   moves of ForwardMoves up to the one that settles.
   */
  method ForwardLoop(chunks: seq<Bytes>, failure: Option<Bytes>, w: StreamImpl) returns (ghost n: nat)
    requires !w.settled && !w.destroyed && w.promise.Pending?
    modifies w
    ensures n <= |ForwardMoves(chunks, failure)| && w.settled
    ensures Made(w.fate, old(w.State()), ForwardMoves(chunks, failure), n, w.State())
    ensures n == |ForwardMoves(chunks, failure)| || w.promise == Rejected(SEND_FAILED)
    ensures Healthy(w.fate) ==> n == |ForwardMoves(chunks, failure)|
  {
    ghost var start, ms := w.State(), ForwardMoves(chunks, failure);
    var i := 0;
    n := 0;
    while i < |chunks|
      invariant n == i <= |chunks| && !w.settled && !w.destroyed && w.promise.Pending?
      invariant Made(w.fate, start, ms, n, w.State())
    {
      MadeNext(w.fate, start, ms, n, w.State());
      w.OnData(chunks[i]);
      i, n := i + 1, n + 1;
      if w.settled { return; }
    }
    MadeNext(w.fate, start, ms, n, w.State());
    n := n + 1;
    if failure.Some? { w.OnError(failure.value); } else { w.OnEnd(); }
  }

  /** The first n moves can be made and lead to t. */
  ghost predicate Made(fate: Fate, s: Source, ms: seq<Move>, n: nat, t: Source) {
    n <= |ms| && CanMoves(fate, s, ms[..n]) && DoMoves(fate, s, ms[..n]) == t
  }

  lemma MadeNext(fate: Fate, s: Source, ms: seq<Move>, n: nat, t: Source)
    requires n < |ms| && Made(fate, s, ms, n, t) && CanMove(t, ms[n])
    ensures Made(fate, s, ms, n + 1, DoMove(fate, t, ms[n]))
  {
    MovesSnoc(fate, s, ms[..n], ms[n]);
    assert ms[..n + 1] == ms[..n] + [ms[n]];
  }

  lemma {:induction false} MovesSnoc(fate: Fate, s: Source, ms: seq<Move>, m: Move)
    requires CanMoves(fate, s, ms) && CanMove(DoMoves(fate, s, ms), m)
    ensures CanMoves(fate, s, ms + [m])
    ensures DoMoves(fate, s, ms + [m]) == DoMove(fate, DoMoves(fate, s, ms), m)
    decreases ms
  {
    if ms == [] {
      assert [m][1..] == [];
    } else {
      assert (ms + [m])[1..] == ms[1..] + [m];
      MovesSnoc(fate, DoMove(fate, s, ms[0]), ms[1..], m);
    }
  }
}
