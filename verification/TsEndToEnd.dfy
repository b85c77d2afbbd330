/**
 Handlers, one ordered connection and the TypeScript caller together; the handlers may be Go's or
 TypeScript's. Requests, sends, deliveries, reads, promise reactions, timers, cancellation and
 close interleave freely.
 */
module TsEndToEnd {
  import opened Protocol
  import opened TsModel
  import opened TsTheorems
  import opened Agreement
  import HM = HandlerModel
  import HT = HandlerTheorems
  import HO = HandlerOutcomes
  import TH = TsHandlers

  /** For each request, all that its handler sends if the transport lets it. */
  type Plan = Id -> seq<Frame>

  /** asked: the requests that were sent. sent: how many envelopes their handlers have sent. */
  datatype World = World(t: Ts, wire: seq<(Id, Frame)>, sent: map<Id, nat>, asked: set<Id>)

  const START := World(NEW_CALLER, [], map[], {})

  datatype Move = Local(ev: Event) | HandlerSends(id: Id) | Deliver

  function SentOf(w: World, id: Id): nat { if id in w.sent then w.sent[id] else 0 }

  predicate CanMove(plan: Plan, w: World, m: Move) {
    match m
    case Local(ev) => !ev.Message? && CanHandle(w.t, ev)
    case HandlerSends(id) => id in w.asked && SentOf(w, id) < |plan(id)|
    case Deliver => w.wire != []
  }

  /** A request that is rejected at once is not sent. */
  function Do(timed: Timed, plan: Plan, w: World, m: Move): World
    requires CanMove(plan, w, m)
  {
    match m
    case Local(ev) =>
      w.(t := Handle(timed, w.t, ev),
         asked := if ev.Request? && w.t.closedErr.None? then w.asked + {ev.id} else w.asked)
    case HandlerSends(id) =>
      var n := SentOf(w, id);
      w.(wire := w.wire + [(id, plan(id)[n])], sent := w.sent[id := n + 1])
    case Deliver => w.(t := DoMessage(timed, w.t, w.wire[0].0, w.wire[0].1), wire := w.wire[1..])
  }

  predicate CanPlay(timed: Timed, plan: Plan, w: World, ms: seq<Move>)
    decreases ms
  {
    ms == [] || (CanMove(plan, w, ms[0]) && CanPlay(timed, plan, Do(timed, plan, w, ms[0]), ms[1..]))
  }

  function Play(timed: Timed, plan: Plan, w: World, ms: seq<Move>): World
    requires CanPlay(timed, plan, w, ms)
    decreases ms
  {
    if ms == [] then w else Play(timed, plan, Do(timed, plan, w, ms[0]), ms[1..])
  }

  // ----- every request hears its own handler, in order -----

  /** A request never sent has no frames; a pending one has heard all that was delivered; a released one a prefix. */
  ghost predicate Told(heard: seq<Frame>, pending: bool, waiting: seq<Frame>, sent: seq<Frame>) {
    if pending then heard + waiting == sent else heard <= sent
  }

  ghost predicate ToldIn(plan: Plan, w: World, id: Id)
    requires id in w.t.reqs && SentOf(w, id) <= |plan(id)|
  {
    Told(w.t.reqs[id].heard, id in w.t.pending, Project(w.wire, id), plan(id)[..SentOf(w, id)])
  }

  ghost predicate WorldInv(plan: Plan, w: World) {
    && w.t.pending <= w.asked <= w.t.reqs.Keys
    && (forall id :: SentOf(w, id) <= |plan(id)|)
    && (forall id :: id !in w.asked ==> SentOf(w, id) == 0 && Project(w.wire, id) == [])
    && (forall id :: id in w.t.reqs ==> ToldIn(plan, w, id))
  }

  /** Only a delivery adds to what a request has heard, and only a request becomes pending. */
  lemma LocalTells(timed: Timed, c: Ts, ev: Event, id: Id)
    requires CanHandle(c, ev) && !ev.Message? && id in c.reqs
    ensures var c' := Handle(timed, c, ev);
            id in c'.reqs && c'.reqs[id].heard == c.reqs[id].heard && (id in c'.pending ==> id in c.pending)
  {}

  lemma LocalKeepsWorld(timed: Timed, plan: Plan, w: World, ev: Event)
    requires WorldInv(plan, w) && CanMove(plan, w, Local(ev))
    ensures WorldInv(plan, Do(timed, plan, w, Local(ev)))
  {
    var w' := Do(timed, plan, w, Local(ev));
    assert forall id :: SentOf(w', id) == SentOf(w, id);
    forall id | id in w'.t.reqs ensures ToldIn(plan, w', id) {
      if id in w.t.reqs {
        LocalTells(timed, w.t, ev, id);
        assert ToldIn(plan, w, id);
        ToldPrefix(w.t.reqs[id].heard, Project(w.wire, id));
      }
    }
    LocalPending(timed, w.t, ev);
  }

  lemma ToldPrefix(heard: seq<Frame>, waiting: seq<Frame>)
    ensures heard <= heard + waiting
  {}

  lemma LocalPending(timed: Timed, c: Ts, ev: Event)
    requires CanHandle(c, ev) && !ev.Message?
    ensures var c' := Handle(timed, c, ev);
            && c.reqs.Keys <= c'.reqs.Keys
            && c'.pending <= (if ev.Request? && c.closedErr.None? then c.pending + {ev.id} else c.pending)
            && (ev.Request? ==> ev.id in c'.reqs)
  {}

  lemma SendKeepsWorld(timed: Timed, plan: Plan, w: World, id: Id)
    requires WorldInv(plan, w) && CanMove(plan, w, HandlerSends(id))
    ensures WorldInv(plan, Do(timed, plan, w, HandlerSends(id)))
  {
    var w' := Do(timed, plan, w, HandlerSends(id));
    var n, p := SentOf(w, id), plan(id);
    forall j ensures Project(w'.wire, j) == Project(w.wire, j) + if j == id then [p[n]] else [] {
      ProjectSnoc(w.wire, (id, p[n]), j);
    }
    forall j | j in w'.t.reqs ensures ToldIn(plan, w', j) {
      assert ToldIn(plan, w, j);
      if j == id {
        assert p[..n + 1] == p[..n] + [p[n]];
        assert w.t.reqs[j].heard + (Project(w.wire, j) + [p[n]]) == (w.t.reqs[j].heard + Project(w.wire, j)) + [p[n]];
      } else {
        assert Project(w.wire, j) + [] == Project(w.wire, j);
      }
    }
  }

  lemma MessageTells(timed: Timed, c: Ts, j: Id, f: Frame, id: Id)
    requires c.pending <= c.reqs.Keys && id in c.reqs
    ensures var c' := DoMessage(timed, c, j, f);
            && c'.reqs.Keys == c.reqs.Keys && c'.pending <= c.pending
            && (id != j ==> id in c.pending ==> id in c'.pending)
            && c'.reqs[id].heard == c.reqs[id].heard + if id == j && id in c.pending then [f] else []
  {
    assert c.reqs[id].heard + [] == c.reqs[id].heard;
    if id == j && id in c.pending { ProcessKeepsHeard(c.reqs[id].(heard := c.reqs[id].heard + [f]), f); }
  }

  lemma ProcessKeepsHeard(e: Entry, f: Frame)
    ensures Process(e, f).0.heard == e.heard
  {}

  lemma DeliverKeepsWorld(timed: Timed, plan: Plan, w: World)
    requires WorldInv(plan, w) && CanMove(plan, w, Deliver)
    ensures WorldInv(plan, Do(timed, plan, w, Deliver))
  {
    var w' := Do(timed, plan, w, Deliver);
    var (j, f) := w.wire[0];
    assert forall id :: SentOf(w', id) == SentOf(w, id);
    assert w'.t.pending <= w.t.pending && w'.t.reqs.Keys == w.t.reqs.Keys;
    forall id | id !in w'.asked ensures SentOf(w', id) == 0 && Project(w'.wire, id) == [] {
      assert Project(w.wire, id) == [];
    }
    forall id | id in w'.t.reqs ensures ToldIn(plan, w', id) {
      assert ToldIn(plan, w, id);
      MessageTells(timed, w.t, j, f, id);
      DeliverTells(w.t.reqs[id].heard, f, Project(w'.wire, id));
    }
  }

  lemma DeliverTells(heard: seq<Frame>, f: Frame, rest: seq<Frame>)
    ensures heard + ([f] + rest) == (heard + [f]) + rest && heard + ([] + rest) == (heard + []) + rest
    ensures heard + [f] <= heard + ([f] + rest) && heard + [] == heard
  {}

  lemma {:induction false} PlayKeepsWorld(timed: Timed, plan: Plan, w: World, ms: seq<Move>)
    requires Reachable(timed, w.t) && WorldInv(plan, w) && CanPlay(timed, plan, w, ms)
    ensures var w' := Play(timed, plan, w, ms); Reachable(timed, w'.t) && WorldInv(plan, w')
    decreases ms
  {
    if ms != [] {
      match ms[0] {
        case Local(ev) =>
          ReachableStep(timed, w.t, ev);
          LocalKeepsWorld(timed, plan, w, ev);
        case HandlerSends(id) => SendKeepsWorld(timed, plan, w, id);
        case Deliver =>
          ReachableStep(timed, w.t, Message(w.wire[0].0, w.wire[0].1));
          DeliverKeepsWorld(timed, plan, w);
      }
      PlayKeepsWorld(timed, plan, Do(timed, plan, w, ms[0]), ms[1..]);
    }
  }

  // ----- what the reader learns about the handler -----

  /** A state some play from the start ends in. */
  ghost predicate Possible(timed: Timed, plan: Plan, w: World) {
    exists ms :: CanPlay(timed, plan, START, ms) && Play(timed, plan, START, ms) == w
  }

  lemma PossibleInv(timed: Timed, plan: Plan, w: World)
    requires Possible(timed, plan, w)
    ensures Reachable(timed, w.t) && WorldInv(plan, w)
  {
    var ms :| CanPlay(timed, plan, START, ms) && Play(timed, plan, START, ms) == w;
    assert CanRun(timed, NEW_CALLER, []) && Run(timed, NEW_CALLER, []) == NEW_CALLER;
    PlayKeepsWorld(timed, plan, START, ms);
  }

  /** What a request has heard are the first envelopes its own handler sent. */
  lemma HeardIsPlannedPrefix(timed: Timed, plan: Plan, w: World, id: Id)
    requires Possible(timed, plan, w) && id in w.t.reqs
    ensures Reachable(timed, w.t) && w.t.reqs[id].heard <= plan(id)
  {
    PossibleInv(timed, plan, w);
    assert ToldIn(plan, w, id);
  }

  ghost predicate HasBody(w: World, id: Id) { HasStream(w.t, id) && !w.t.reqs[id].stream.value.cancelled }

  /**
   The end-to-end guarantee. For any number of requests and any interleaving, an uncancelled body
   yields a prefix of its own handler's bytes under its head; a clean end means the handler ended and
   all was read; an error is the handler's, after exactly its bytes, or the timeout's or close's.
   */
  lemma EndToEndGuarantee(timed: Timed, plan: Plan, w: World, id: Id)
    requires Possible(timed, plan, w) && HasBody(w, id)
    ensures var e, v := w.t.reqs[id], TsInterpret(plan(id));
            var s := e.stream.value;
            && (v.Whole? || v.Streaming?) && e.promise == Resolved(v.head)
            && Concat(s.delivered) <= BodyOf(v)
            && (s.st.Finished? ==> EndsAs(v, Concat(s.delivered), CleanEof))
            && (s.st.Errored? ==>
                  if FromFrames(s.st.why) then EndsAs(v, Concat(s.delivered), Broke(s.st.why))
                  else StopCause(timed, w.t.closedErr, s.st.why))
  {
    HeardIsPlannedPrefix(timed, plan, w, id);
    TsRefines(timed, w.t, id);
    TsMonotone(w.t.reqs[id].heard, plan(id));
  }

  // ----- behind the handlers of the Go side -----

  lemma {:induction false} CallsDecodable(calls: seq<HM.Call>, started: bool)
    ensures forall f :: f in HM.CallsTried(calls, started) ==> Decodable(f)
  {
    if calls != [] { CallsDecodable(calls[1..], started || calls[0].CallHeader?); }
  }

  lemma {:induction false} ProgDecodable(fate: HM.Fate, w: HM.Writer, p: HM.Prog)
    requires forall f :: f in w.tried ==> Decodable(f)
    ensures forall f :: f in HM.DoProg(fate, w, p).tried ==> Decodable(f)
    decreases p
  {
    if p.Do? {
      var (w1, r) := HM.DoOp(fate, w, p.op);
      ProgDecodable(fate, w1, if r then p.ok else p.failed);
    }
  }

  lemma {:induction false} PumpDecodable(fate: HM.Fate, n: nat, script: seq<HM.UpRead>)
    ensures forall f :: f in HM.PumpTried(fate, n, script).0 ==> Decodable(f)
    decreases script
  {
    if script != [] { PumpDecodable(fate, n + if script[0].data != [] then 1 else 0, script[1..]); }
  }

  lemma DispatchDecodable(fate: HM.Fate, h: HM.Handler)
    ensures forall f :: f in HM.DispatchTried(fate, h) ==> Decodable(f)
  {
    match h
    case Adapter(p) => ProgDecodable(fate, HM.NEW_WRITER, p);
    case Forward(Answer(_, script)) => PumpDecodable(fate, 1, script);
    case User(calls, err) => CallsDecodable(calls, false);
    case _ =>
  }

  /** Both callers read a well-behaved handler the same way. */
  lemma HandlerView(h: HM.Handler)
    requires HT.WellBehaved(h)
    ensures TsInterpret(HO.Intended(h)) == Forget(Interpret(HO.Intended(h)))
  {
    DispatchDecodable(HO.ALWAYS, h);
    if h.User? { HT.UserGrammarIff(h.calls, h.err, HO.ALWAYS); } else { HT.DispatchComplete(HO.ALWAYS, h); }
    GrammarAgreed(HO.Intended(h));
  }

  /** A disciplined Go handler: its header, a prefix of what it wrote; at a clean end all of it, and no error. */
  lemma UserEndToEnd(timed: Timed, plan: Plan, w: World, id: Id, calls: seq<HM.Call>, err: Option<Bytes>)
    requires Possible(timed, plan, w) && HasBody(w, id)
    requires plan(id) == HO.Intended(HM.User(calls, err)) && calls != [] && HT.Disciplined(calls, err)
    ensures var e := w.t.reqs[id];
            var s := e.stream.value;
            && e.promise == Resolved(calls[0].head) && Concat(s.delivered) <= HO.Written(calls)
            && (s.st.Finished? ==> Concat(s.delivered) == HO.Written(calls) && err.None? && HM.CallClose in calls)
            && (s.st.Errored? && FromFrames(s.st.why) ==>
                  Concat(s.delivered) == HO.Written(calls) && err.Some? && s.st.why == Remote(ErrorInfo(0, err.value)))
  {
    EndToEndGuarantee(timed, plan, w, id);
    HandlerView(HM.User(calls, err));
    HO.UserView(calls, err);
  }

  /** An http.Handler behind the streaming adapter: the buffered adapter's status, and at a clean end its body. */
  lemma AdapterEndToEnd(timed: Timed, plan: Plan, w: World, id: Id, p: HM.Prog)
    requires Possible(timed, plan, w) && HasBody(w, id) && plan(id) == HO.Intended(HM.Adapter(p))
    requires 100 <= HO.FirstStatus(HO.Path(p)) <= 999
    ensures var e, (status, body) := w.t.reqs[id], HM.BufferedResponse(p);
            var s := e.stream.value;
            && e.promise.Resolved? && e.promise.head.status == status && Concat(s.delivered) <= body
            && (s.st.Finished? ==> Concat(s.delivered) == body)
  {
    EndToEndGuarantee(timed, plan, w, id);
    HandlerView(HM.Adapter(p));
    HO.AdaptersAgree(p);
  }

  /** An http.Handler behind the buffered adapter: its status, and at a clean end its body. */
  lemma BufferedEndToEnd(timed: Timed, plan: Plan, w: World, id: Id, p: HM.Prog, headers: HM.Headers)
    requires Possible(timed, plan, w) && HasBody(w, id) && plan(id) == HO.Intended(HM.BufferedAdapter(p, headers))
    requires 100 <= HO.FirstStatus(HO.Path(p)) <= 999
    ensures var e, (status, body) := w.t.reqs[id], HM.BufferedResponse(p);
            var s := e.stream.value;
            && e.promise == Resolved(Head(status, headers)) && Concat(s.delivered) <= body
            && (s.st.Finished? ==> Concat(s.delivered) == body)
  {
    EndToEndGuarantee(timed, plan, w, id);
    HandlerView(HM.BufferedAdapter(p, headers));
    HO.BufferedView(p, headers);
    HO.AdaptersAgree(p);
  }

  /** A Go handler that fails before any header is sent: 502 and the reason as plain text. */
  lemma FailureEndToEnd(timed: Timed, plan: Plan, w: World, id: Id, h: HM.Handler, why: Bytes)
    requires Possible(timed, plan, w) && HasBody(w, id) && plan(id) == HO.Intended(h)
    requires h == HM.Buffered(None, why) || h == HM.BadRequestURL(why)
             || h == HM.Forward(HM.NoUpstream(why)) || h == HM.User([], Some(why))
    ensures var e := w.t.reqs[id];
            var s := e.stream.value;
            && e.promise == Resolved(Head(502, map["Content-Type" := ["text/plain"]]))
            && Concat(s.delivered) <= why && (s.st.Finished? ==> Concat(s.delivered) == why)
  {
    EndToEndGuarantee(timed, plan, w, id);
    HandlerView(h);
    HO.PromiseKept(h);
  }

  // ----- behind a TypeScript handler -----

  /** One that does not stream: its result or its 502, as its sends let it. */
  lemma PlainEndToEnd(timed: Timed, plan: Plan, w: World, id: Id,
                      fate: HM.Fate, result: Option<(Head, Bytes)>, why: Bytes)
    requires Possible(timed, plan, w) && HasBody(w, id) && plan(id) == TH.PlainWire(fate, result, why)
    ensures var e, sent := w.t.reqs[id], result.Some? && fate(0);
            var s, bad := e.stream.value, Head(502, map["content-type" := ["text/plain"]]);
            var body := if sent then result.value.1 else if result.None? then why else HM.SEND_FAILED;
            && e.promise == Resolved(if sent then result.value.0 else bad)
            && Concat(s.delivered) <= body && (s.st.Finished? ==> Concat(s.delivered) == body)
  {
    EndToEndGuarantee(timed, plan, w, id);
    PlainAgreed(fate, result, why);
  }

  lemma PlainAgreed(fate: HM.Fate, result: Option<(Head, Bytes)>, why: Bytes)
    ensures var wire := TH.PlainWire(fate, result, why); TsInterpret(wire) == Interpret(wire)
  {
    TH.PlainGrammar(fate, result, why);
    TH.PlainView(fate, result, why);
    GrammarAgreed(TH.PlainWire(fate, result, why));
  }

  /** What such a handler can put on the wire: a header and what follows it, or the report of a lost header. */
  ghost predicate Spoken(wire: seq<Frame>) {
    && (forall i :: 0 <= i < |wire| ==> Decodable(wire[i]))
    && (forall i :: 1 <= i < |wire| ==> wire[i].Chunk? || wire[i].End? || wire[i].Error?)
    && (wire != [] ==> wire[0].Start? || wire[0].Error?)
  }

  lemma {:induction false} MovesSpeak(fate: HM.Fate, s: TH.Source, ms: seq<TH.Move>)
    requires Spoken(s.wire) && (s.wire == [] ==> s.settled) && TH.CanMoves(fate, s, ms)
    ensures Spoken(TH.DoMoves(fate, s, ms).wire)
    decreases ms
  {
    if ms != [] { MovesSpeak(fate, TH.DoMove(fate, s, ms[0]), ms[1..]); }
  }

  lemma {:induction false} SpokenTailAgreed(fs: seq<Frame>)
    requires forall i :: 0 <= i < |fs| ==> Decodable(fs[i]) && (fs[i].Chunk? || fs[i].End? || fs[i].Error?)
    ensures StreamAgreed(fs)
  {
    if fs != [] {
      assert forall i :: 0 <= i < |fs| - 1 ==> fs[1..][i] == fs[i + 1];
      SpokenTailAgreed(fs[1..]);
    }
  }

  /** Both callers read it the same way, even where it breaks the grammar. */
  lemma SourceAgreed(fate: HM.Fate, head: Head, ms: seq<TH.Move>)
    requires TH.CanMoves(fate, TH.Opened(fate, head), ms)
    ensures Agreed(TH.DoMoves(fate, TH.Opened(fate, head), ms).wire)
  {
    MovesSpeak(fate, TH.Opened(fate, head), ms);
    var wire := TH.DoMoves(fate, TH.Opened(fate, head), ms).wire;
    if wire != [] {
      assert forall i :: 0 <= i < |wire| - 1 ==> wire[1..][i] == wire[i + 1];
      SpokenTailAgreed(wire[1..]);
    }
  }

  /** At a clean end the whole of a response that ended, but for the handler's own false end. */
  lemma SourceEndToEnd(timed: Timed, plan: Plan, w: World, id: Id, fate: HM.Fate, head: Head, ms: seq<TH.Move>)
    requires TH.CanMoves(fate, TH.Opened(fate, head), ms)
    requires Possible(timed, plan, w) && HasBody(w, id)
    requires plan(id) == TH.DoMoves(fate, TH.Opened(fate, head), ms).wire
    ensures var s := w.t.reqs[id].stream.value;
            s.st.Finished? ==>
              || (Concat(s.delivered), CleanEof) == TH.Meaning(ms)
              || (Concat(s.delivered) == TH.Leading(ms) && TH.EndsFailed(fate, 1, ms))
  {
    EndToEndGuarantee(timed, plan, w, id);
    SourceAgreed(fate, head, ms);
    CallersAgreeIff(plan(id));
    TH.CleanEndIff(fate, head, ms);
    TH.EofMeansComplete(fate, head, ms);
    TH.StreamingOnly(fate, head, ms);
  }
}
