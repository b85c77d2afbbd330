/**
 Everything arrives, for the TypeScript caller: when a handler of either side has sent all its
 envelopes, the connection has delivered them and no stop has reached the request, its promise is
 settled as they ask, and a reader that has kept asking holds every byte and has seen the ending.
 */
module TsArrivals {
  import opened Protocol
  import opened TsModel
  import opened TsTheorems
  import opened TsEndToEnd
  import A = Agreement
  import S = TsStream
  import HM = HandlerModel
  import HT = HandlerTheorems
  import HO = HandlerOutcomes
  import TH = TsHandlers

  /** Close, or an expired timer or a cancellation of this request. */
  predicate Disturbs(id: Id, m: Move) {
    m.Local? &&
    match m.ev
    case Close(_) => true
    case Timeout(j) => j == id
    case CancelBody(j) => j == id
    case _ => false
  }

  ghost predicate Calm(id: Id, ms: seq<Move>) { forall m :: m in ms ==> !Disturbs(id, m) }

  /** Everything the request has to show came from frames, and only a final frame has released it. */
  ghost predicate Undisturbed(c: Ts, id: Id) {
    && c.closedErr.None?
    && (id in c.reqs ==>
          var e := c.reqs[id];
          && (id !in c.pending ==> Fold(Fresh, e.heard).Over?)
          && (e.promise.Rejected? ==> FromFrames(e.promise.why))
          && (e.stream.Some? ==> FromFramesOnly(e.stream.value)))
  }

  ghost predicate FromFramesOnly(s: S.Stream) {
    !s.cancelled && (s.termErr.Some? ==> FromFrames(s.termErr.value))
  }

  /** Only a final frame takes an entry out of pending. */
  lemma FinalIsOver(e: Entry, f: Frame)
    requires !Process(e.(heard := e.heard + [f]), f).1
    ensures Fold(Fresh, e.heard + [f]).Over?
  {
    FoldSnoc(Fresh, e.heard, f);
  }

  lemma MessageKeepsUndisturbed(timed: Timed, c: Ts, j: Id, f: Frame, id: Id)
    requires TsInv(timed, c) && Undisturbed(c, id)
    ensures Undisturbed(DoMessage(timed, c, j, f), id)
  {
    if j == id && id in c.pending {
      var e := c.reqs[id];
      assert EntryInv(timed, true, e);
      ProcessStaysCalm(e.(heard := e.heard + [f]), f);
      ProcessKeepsHeard(e.(heard := e.heard + [f]), f);
      if !Process(e.(heard := e.heard + [f]), f).1 { FinalIsOver(e, f); }
    }
  }

  lemma ProcessStaysCalm(e: Entry, f: Frame)
    requires (e.promise.Rejected? ==> FromFrames(e.promise.why)) && (e.stream.Some? ==> FromFramesOnly(e.stream.value))
    ensures var e' := Process(e, f).0;
            && (e'.promise.Rejected? ==> FromFrames(e'.promise.why))
            && (e'.stream.Some? ==> FromFramesOnly(e'.stream.value))
  {}

  lemma LocalKeepsUndisturbed(timed: Timed, c: Ts, ev: Event, id: Id)
    requires TsInv(timed, c) && CanHandle(c, ev) && !ev.Message? && Undisturbed(c, id) && !Disturbs(id, Local(ev))
    ensures Undisturbed(Handle(timed, c, ev), id)
  {
    if ev.Turn? && ev.id == id { S.TurnFrame(c.reqs[id].stream.value, ev.t); }
  }

  lemma {:induction false} PlayKeepsUndisturbed(timed: Timed, plan: Plan, w: World, ms: seq<Move>, id: Id)
    requires Reachable(timed, w.t) && WorldInv(plan, w) && CanPlay(timed, plan, w, ms)
    requires Undisturbed(w.t, id) && Calm(id, ms)
    ensures Undisturbed(Play(timed, plan, w, ms).t, id)
    decreases ms
  {
    if ms != [] {
      ReachableInv(timed, w.t);
      assert !Disturbs(id, ms[0]);
      assert Calm(id, ms[1..]) by { forall m | m in ms[1..] ensures !Disturbs(id, m) { assert m in ms; } }
      match ms[0] {
        case Local(ev) => LocalKeepsUndisturbed(timed, w.t, ev, id);
        case HandlerSends(_) =>
        case Deliver => MessageKeepsUndisturbed(timed, w.t, w.wire[0].0, w.wire[0].1, id);
      }
      assert Play(timed, plan, w, [ms[0]]) == Do(timed, plan, w, ms[0]) by { assert [ms[0]][1..] == []; }
      assert CanPlay(timed, plan, w, [ms[0]]) by { assert [ms[0]][1..] == []; }
      PlayKeepsWorld(timed, plan, w, [ms[0]]);
      PlayKeepsUndisturbed(timed, plan, Do(timed, plan, w, ms[0]), ms[1..], id);
    }
  }

  /** The handler has sent everything, and the connection has delivered it. */
  ghost predicate AllTold(plan: Plan, w: World, id: Id) {
    SentOf(w, id) == |plan(id)| && Project(w.wire, id) == []
  }

  /** The request goes through a calm play in which all is delivered to it. */
  ghost predicate Delivered(timed: Timed, plan: Plan, ms: seq<Move>, id: Id) {
    && CanPlay(timed, plan, START, ms) && Calm(id, ms)
    && var w := Play(timed, plan, START, ms);
       id in w.t.reqs && AllTold(plan, w, id)
  }

  /** A reader that has kept asking, with no reaction due, holds the body and has seen its ending. */
  ghost predicate ReadOut(s: S.Stream, body: Bytes, e: Ending) {
    S.Rested(s) && S.Asked(s) ==>
      && Concat(s.delivered) == body
      && match e
         case Open => s.st == S.Readable && s.waiting > 0
         case CleanEof => s.st == S.Finished
         case Broke(f) => s.st == S.Errored(f)
  }

  /** The promise and the reader have been told all that the view says. */
  ghost predicate Shown(e: Entry, v: View) {
    match v
    case Nothing => e.promise.Unsettled?
    case Refused(f) => e.promise == Rejected(f)
    case Whole(h, b) => e.promise == Resolved(h) && e.stream.Some? && ReadOut(e.stream.value, b, CleanEof)
    case Streaming(h, b, w) => e.promise == Resolved(h) && e.stream.Some? && ReadOut(e.stream.value, b, w)
  }

  lemma EntryShows(timed: Timed, c: Ts, id: Id)
    requires Reachable(timed, c) && id in c.reqs && Undisturbed(c, id)
    ensures Shown(c.reqs[id], TsInterpret(c.reqs[id].heard))
  {
    ReachableInv(timed, c);
    PromiseRefines(timed, c, id);
    var e := c.reqs[id];
    assert EntryInv(timed, id in c.pending, e);
    if e.stream.Some? && S.Rested(e.stream.value) && S.Asked(e.stream.value) { S.RestedIsServed(e.stream.value); }
  }

  /** What has ended a response stays its meaning. */
  lemma OverIsFinal(fs: seq<Frame>, gs: seq<Frame>)
    requires fs <= gs && Fold(Fresh, fs).Over?
    ensures TsInterpret(gs) == TsInterpret(fs)
  {
    var rest := gs[|fs|..];
    assert gs == fs + rest;
    A.FoldAppend(Fresh, fs, rest);
    A.FoldStuck(Fold(Fresh, fs), rest);
  }

  /** Everything arrives, whatever the schedule was. */
  lemma EverythingArrives(timed: Timed, plan: Plan, ms: seq<Move>, id: Id)
    requires Delivered(timed, plan, ms, id)
    ensures Shown(Play(timed, plan, START, ms).t.reqs[id], TsInterpret(plan(id)))
  {
    var w := Play(timed, plan, START, ms);
    assert CanRun(timed, NEW_CALLER, []) && Run(timed, NEW_CALLER, []) == NEW_CALLER;
    PlayKeepsWorld(timed, plan, START, ms);
    PlayKeepsUndisturbed(timed, plan, START, ms, id);
    EntryShows(timed, w.t, id);
    assert ToldIn(plan, w, id);
    assert plan(id)[..SentOf(w, id)] == plan(id);
    var heard := w.t.reqs[id].heard;
    if id in w.t.pending { assert heard + [] == heard; } else { OverIsFinal(heard, plan(id)); }
  }

  // ----- the end can be reached -----

  lemma {:induction false} PlaySnoc(timed: Timed, plan: Plan, w: World, ms: seq<Move>, m: Move)
    requires CanPlay(timed, plan, w, ms) && CanMove(plan, Play(timed, plan, w, ms), m)
    ensures CanPlay(timed, plan, w, ms + [m])
    ensures Play(timed, plan, w, ms + [m]) == Do(timed, plan, Play(timed, plan, w, ms), m)
    decreases ms
  {
    if ms == [] {
      assert [m][1..] == [] && ms + [m] == [m];
    } else {
      assert (ms + [m])[1..] == ms[1..] + [m];
      PlaySnoc(timed, plan, Do(timed, plan, w, ms[0]), ms[1..], m);
    }
  }

  lemma CalmSnoc(timed: Timed, plan: Plan, ms: seq<Move>, id: Id, m: Move)
    requires CanPlay(timed, plan, START, ms) && Calm(id, ms)
    requires CanMove(plan, Play(timed, plan, START, ms), m) && !Disturbs(id, m)
    ensures CanPlay(timed, plan, START, ms + [m]) && Calm(id, ms + [m])
    ensures Play(timed, plan, START, ms + [m]) == Do(timed, plan, Play(timed, plan, START, ms), m)
  {
    PlaySnoc(timed, plan, START, ms, m);
    assert forall x :: x in ms + [m] ==> x in ms || x == m;
  }

  /** From every calm play of a request that was sent, all can be delivered. */
  lemma CanDeliver(timed: Timed, plan: Plan, ms: seq<Move>, id: Id) returns (all: seq<Move>)
    requires CanPlay(timed, plan, START, ms) && Calm(id, ms)
    requires var w := Play(timed, plan, START, ms);
             id in w.asked && w.asked <= w.t.reqs.Keys && SentOf(w, id) <= |plan(id)|
    ensures ms <= all && Delivered(timed, plan, all, id)
    decreases var w := Play(timed, plan, START, ms); 2 * (|plan(id)| - SentOf(w, id)) + |w.wire|
  {
    var w := Play(timed, plan, START, ms);
    if AllTold(plan, w, id) {
      all := ms;
    } else {
      var m := if SentOf(w, id) < |plan(id)| then HandlerSends(id) else Deliver;
      CalmSnoc(timed, plan, ms, id, m);
      all := CanDeliver(timed, plan, ms + [m], id);
    }
  }

  lemma {:induction false} TurnsPlay(timed: Timed, plan: Plan, ms: seq<Move>, id: Id, ts: seq<S.Turn>)
    returns (all: seq<Move>)
    requires Delivered(timed, plan, ms, id)
    requires var w := Play(timed, plan, START, ms);
             HasStream(w.t, id) && S.CanTurns(w.t.reqs[id].stream.value, ts)
    ensures ms <= all && Delivered(timed, plan, all, id)
    ensures Play(timed, plan, START, all).t.reqs[id].stream
         == Some(S.DoTurns(Play(timed, plan, START, ms).t.reqs[id].stream.value, ts))
    decreases ts
  {
    if ts == [] {
      all := ms;
    } else {
      var m := Local(Event.Turn(id, ts[0]));
      CalmSnoc(timed, plan, ms, id, m);
      all := TurnsPlay(timed, plan, ms + [m], id, ts[1..]);
    }
  }

  /** And then a reader that keeps asking can be served. */
  lemma CanFinish(timed: Timed, plan: Plan, ms: seq<Move>, id: Id) returns (all: seq<Move>)
    requires Delivered(timed, plan, ms, id) && HasStream(Play(timed, plan, START, ms).t, id)
    ensures ms <= all && Delivered(timed, plan, all, id) && HasStream(Play(timed, plan, START, all).t, id)
    ensures var s := Play(timed, plan, START, all).t.reqs[id].stream.value; S.Rested(s) && S.Asked(s)
  {
    var w := Play(timed, plan, START, ms);
    assert CanRun(timed, NEW_CALLER, []) && Run(timed, NEW_CALLER, []) == NEW_CALLER;
    PlayKeepsWorld(timed, plan, START, ms);
    PlayKeepsUndisturbed(timed, plan, START, ms, id);
    ReachableInv(timed, w.t);
    assert EntryInv(timed, id in w.t.pending, w.t.reqs[id]);
    var ts := S.CanServe(w.t.reqs[id].stream.value);
    all := TurnsPlay(timed, plan, ms, id, ts);
  }

  // ----- each kind of handler -----

  /** A well-behaved Go handler: all it had to say, error codes aside. */
  lemma PromiseArrives(timed: Timed, plan: Plan, ms: seq<Move>, id: Id, h: HM.Handler)
    requires Delivered(timed, plan, ms, id) && HT.WellBehaved(h) && plan(id) == HO.Intended(h)
    ensures Shown(Play(timed, plan, START, ms).t.reqs[id], A.Forget(HO.Promised(h)))
  {
    EverythingArrives(timed, plan, ms, id);
    HandlerView(h);
    HO.PromiseKept(h);
  }

  /** Behind either adapter an http.Handler's status and body arrive whole, and then the end. */
  lemma AdaptersArrive(timed: Timed, plan: Plan, ms: seq<Move>, id: Id, p: HM.Prog, headers: HM.Headers)
    requires Delivered(timed, plan, ms, id) && 100 <= HO.FirstStatus(HO.Path(p)) <= 999
    requires plan(id) == HO.Intended(HM.Adapter(p)) || plan(id) == HO.Intended(HM.BufferedAdapter(p, headers))
    ensures var e, (status, body) := Play(timed, plan, START, ms).t.reqs[id], HM.BufferedResponse(p);
            && e.promise.Resolved? && e.promise.head.status == status
            && e.stream.Some? && ReadOut(e.stream.value, body, CleanEof)
  {
    EverythingArrives(timed, plan, ms, id);
    HandlerView(HM.Adapter(p));
    HandlerView(HM.BufferedAdapter(p, headers));
    HO.AdaptersAgree(p);
    HO.BufferedView(p, headers);
  }

  /** A request whose payload the Go side cannot decode is refused with that message. */
  lemma UndecodableArrives(timed: Timed, plan: Plan, ms: seq<Move>, id: Id, why: Bytes)
    requires Delivered(timed, plan, ms, id) && plan(id) == HM.Undecodable(why)
    ensures Play(timed, plan, START, ms).t.reqs[id].promise == Rejected(Remote(ErrorInfo(0, why)))
  {
    EverythingArrives(timed, plan, ms, id);
    A.CallersAgreeIff(plan(id));
  }

  /** A TypeScript handler that does not stream, on a healthy transport: its result, or 502 with its reason. */
  lemma PlainArrives(timed: Timed, plan: Plan, ms: seq<Move>, id: Id,
                     fate: HM.Fate, result: Option<(Head, Bytes)>, why: Bytes)
    requires HM.Healthy(fate) && Delivered(timed, plan, ms, id) && plan(id) == TH.PlainWire(fate, result, why)
    ensures Shown(Play(timed, plan, START, ms).t.reqs[id],
                  if result.Some? then Whole(result.value.0, result.value.1)
                  else Whole(Head(502, map["content-type" := ["text/plain"]]), why))
  {
    EverythingArrives(timed, plan, ms, id);
    PlainAgreed(fate, result, why);
    TH.PlainView(fate, result, why);
  }

  /** A TypeScript streaming handler on a healthy transport, once its failure, if any, is reported. */
  lemma SourceArrives(timed: Timed, plan: Plan, ms: seq<Move>, id: Id, fate: HM.Fate, head: Head, moves: seq<TH.Move>)
    requires HM.Healthy(fate) && TH.CanMoves(fate, TH.Opened(fate, head), moves) && TH.OnlyResponseEvents(moves)
    requires Delivered(timed, plan, ms, id) && plan(id) == TH.DoMoves(fate, TH.Opened(fate, head), moves).wire
    ensures var (b, e) := TH.Meaning(moves);
            var reported := TH.DoMoves(fate, TH.Opened(fate, head), moves).reported;
            Shown(Play(timed, plan, START, ms).t.reqs[id],
                  A.Forget(Streaming(head, b, if e.Broke? && !reported then Open else e)))
  {
    EverythingArrives(timed, plan, ms, id);
    SourceAgreed(fate, head, moves);
    A.CallersAgreeIff(plan(id));
    TH.SourceView(fate, head, moves);
  }
}
