/**
 Everything arrives: when a handler of either side has sent all its envelopes, the connection has
 delivered them and no stop has reached the request, a Go caller with nothing left to do has told
 its reader all that the handler had to say.
 */
module GoArrivals {
  import opened Protocol
  import opened GoCaller
  import opened GoCallerInvariants
  import opened GoSystem
  import opened EndToEnd
  import P = GoProgress
  import HM = HandlerModel
  import HT = HandlerTheorems
  import HO = HandlerOutcomes
  import TH = TsHandlers

  /** Close, or a failed send, an expired timer, or a cancellation of this request. */
  predicate Disturbs(id: Id, m: Move) {
    m.Local? &&
    match m.e
    case All(sa) => sa.CloseEnter?
    case On(j, a) => j == id && P.Disturbs(a)
    case _ => false
  }

  ghost predicate Calm(id: Id, ms: seq<Move>) { forall m :: m in ms ==> !Disturbs(id, m) }

  ghost predicate Undisturbed(w: World, id: Id) {
    w.y.sh.once.NotRun? && (id in w.y.slots ==> P.Undisturbed(w.y.sh, w.y.slots[id]))
  }

  lemma MoveKeepsUndisturbed(c: nat, plan: Plan, w: World, m: Move, id: Id)
    requires WorldInv(c, plan, w) && CanMove(plan, w, m) && Undisturbed(w, id) && !Disturbs(id, m)
    ensures Undisturbed(Do(c, plan, w, m), id)
  {
    if id in w.y.slots { assert Inv(c, w.y.sh, Signalling(w.y, id), w.y.slots[id]); }
    match m
    case Local(e) => StepKeepsUndisturbed(c, plan, w, e, id);
    case _ =>
  }

  lemma StepKeepsUndisturbed(c: nat, plan: Plan, w: World, e: Event, id: Id)
    requires SharedInv(w.y.sh) && (id in w.y.slots ==> HandoffInv(w.y.slots[id]))
    requires CanMove(plan, w, Local(e)) && Undisturbed(w, id) && !Disturbs(id, Local(e))
    ensures Undisturbed(Do(c, plan, w, Local(e)), id)
  {
    if e.On? && e.id == id { P.ActKeepsUndisturbed(c, w.y.sh, w.y.slots[id], e.a); }
  }

  lemma {:induction false} PlayKeepsUndisturbed(c: nat, plan: Plan, w: World, ms: seq<Move>, id: Id)
    requires WorldInv(c, plan, w) && CanPlay(c, plan, w, ms) && Undisturbed(w, id) && Calm(id, ms)
    ensures Undisturbed(Play(c, plan, w, ms), id)
    decreases ms
  {
    if ms != [] {
      assert ms[0] in ms;
      assert Calm(id, ms[1..]) by { forall m | m in ms[1..] ensures !Disturbs(id, m) { assert m in ms; } }
      MoveKeepsWorld(c, plan, w, ms[0]);
      MoveKeepsUndisturbed(c, plan, w, ms[0], id);
      PlayKeepsUndisturbed(c, plan, Do(c, plan, w, ms[0]), ms[1..], id);
    }
  }

  /** The handler has sent everything, and the read loop has pushed it. */
  ghost predicate AllPushed(plan: Plan, w: World, id: Id) {
    && SentOf(w, id) == |plan(id)| && Project(w.wire, id) == []
    && (w.y.router.Idle? || w.y.router.id != id)
  }

  /** The request goes through a calm play, everything has been pushed to it, and nothing is left to do for it. */
  ghost predicate Over(c: nat, plan: Plan, ms: seq<Move>, id: Id) {
    && CanPlay(c, plan, START, ms) && Calm(id, ms)
    && var w := Play(c, plan, START, ms);
       id in w.y.slots && AllPushed(plan, w, id) && P.Rested(w.y.sh, w.y.slots[id])
  }

  /** Of a longer list of frames, a request at rest has been told all if it has been told an ending. */
  lemma ToldMore(c: nat, sh: Shared, s: Slot, fs: seq<Frame>, gs: seq<Frame>)
    requires P.Told(c, sh, s, Interpret(fs)) && fs <= gs
    requires var v := Interpret(fs); v.Whole? || v.Refused? || (v.Streaming? && v.ending != Open)
    ensures P.Told(c, sh, s, Interpret(gs))
  {
    InterpretMonotone(fs, gs);
    var v := Interpret(fs);
    if v.Streaming? { assert EndsAs(v, v.body, v.ending); }
  }

  /**
   Everything arrives. Whatever the schedule was: the caller has its outcome, the reader has read every
   byte, and its next Read gives the ending.
   */
  lemma EverythingArrives(c: nat, plan: Plan, ms: seq<Move>, id: Id)
    requires Over(c, plan, ms, id)
    ensures var w := Play(c, plan, START, ms);
            P.Told(c, w.y.sh, w.y.slots[id], Interpret(plan(id)))
  {
    var w := Play(c, plan, START, ms);
    var s := w.y.slots[id];
    PlayKeepsWorld(c, plan, START, ms);
    PlayKeepsUndisturbed(c, plan, START, ms, id);
    assert Inv(c, w.y.sh, Signalling(w.y, id), s) && FedIn(plan, w, id);
    P.RestedIsTold(c, w.y.sh, s);
    assert !CanAct(w.y.sh, s, Req(Register));
    assert plan(id)[..SentOf(w, id)] == plan(id);
    if s.registered {
      assert s.q.pushed + [] + [] == s.q.pushed;
    } else {
      assert s.q.pushed + [] == s.q.pushed;
      ToldMore(c, w.y.sh, s, s.q.popped, plan(id));
    }
  }

  /** What is still to be sent, delivered, pushed and signalled. */
  function ToPush(plan: Plan, w: World, id: Id): nat
    requires SentOf(w, id) <= |plan(id)|
  {
    4 * (|plan(id)| - SentOf(w, id)) + 3 * |w.wire|
    + (match w.y.router case Idle => 0 case Found(_, _) => 2 case Appended(_) => 1)
  }

  /** The handler's next send, the next delivery, or the next half of a push. */
  function NextPush(plan: Plan, w: World, id: Id): Move {
    match w.y.router
    case Found(j, _) => Local(Push(j))
    case Appended(j) => Local(Notify(j))
    case Idle => if SentOf(w, id) < |plan(id)| then HandlerSends(id) else Deliver
  }

  lemma PushLowersWork(c: nat, plan: Plan, w: World, id: Id)
    requires id in w.y.slots && w.y.slots[id].req != RChecked && SentOf(w, id) <= |plan(id)|
    requires !AllPushed(plan, w, id) && (!w.y.router.Idle? ==> w.y.router.id in w.y.slots)
    ensures CanMove(plan, w, NextPush(plan, w, id)) && !Disturbs(id, NextPush(plan, w, id))
    ensures var w' := Do(c, plan, w, NextPush(plan, w, id));
            && SentOf(w', id) <= |plan(id)| && ToPush(plan, w', id) < ToPush(plan, w, id)
            && id in w'.y.slots && w'.y.slots[id].req == w.y.slots[id].req
  {}

  lemma CalmSnoc(c: nat, plan: Plan, ms: seq<Move>, id: Id, m: Move)
    requires CanPlay(c, plan, START, ms) && Calm(id, ms)
    requires CanMove(plan, Play(c, plan, START, ms), m) && !Disturbs(id, m)
    ensures CanPlay(c, plan, START, ms + [m]) && Calm(id, ms + [m])
    ensures Play(c, plan, START, ms + [m]) == Do(c, plan, Play(c, plan, START, ms), m)
  {
    PlaySnoc(c, plan, START, ms, m);
    assert forall x :: x in ms + [m] ==> x in ms || x == m;
  }

  /** From every calm play of a request that was registered, all can be pushed. */
  lemma CanPush(c: nat, plan: Plan, ms: seq<Move>, id: Id) returns (all: seq<Move>)
    requires CanPlay(c, plan, START, ms) && Calm(id, ms)
    requires var w := Play(c, plan, START, ms);
             id in w.y.slots && w.y.slots[id].req != RChecked && SentOf(w, id) <= |plan(id)|
    ensures ms <= all && CanPlay(c, plan, START, all) && Calm(id, all)
    ensures var w := Play(c, plan, START, all); id in w.y.slots && AllPushed(plan, w, id)
    decreases ToPush(plan, Play(c, plan, START, ms), id)
  {
    var w := Play(c, plan, START, ms);
    if AllPushed(plan, w, id) {
      all := ms;
    } else {
      var m := NextPush(plan, w, id);
      PlayKeepsWorld(c, plan, START, ms);
      PushLowersWork(c, plan, w, id);
      CalmSnoc(c, plan, ms, id, m);
      all := CanPush(c, plan, ms + [m], id);
    }
  }

  /** And then the end can be reached, by steps that WorkIsBounded bounds. */
  lemma CanFinish(c: nat, plan: Plan, ms: seq<Move>, id: Id) returns (all: seq<Move>)
    requires CanPlay(c, plan, START, ms) && Calm(id, ms)
    requires var w := Play(c, plan, START, ms); id in w.y.slots && AllPushed(plan, w, id)
    ensures ms <= all && Over(c, plan, all, id)
    decreases P.Load(Play(c, plan, START, ms).y.slots[id])
  {
    var w := Play(c, plan, START, ms);
    var s := w.y.slots[id];
    if P.Rested(w.y.sh, s) {
      all := ms;
    } else {
      PlayKeepsWorld(c, plan, START, ms);
      assert Inv(c, w.y.sh, Signalling(w.y, id), s);
      var a := P.NextWork(c, w.y.sh, s);
      PlayOn(c, plan, ms, id, a);
      all := CanFinish(c, plan, ms + [Local(On(id, a))], id);
    }
  }

  lemma PlayOn(c: nat, plan: Plan, ms: seq<Move>, id: Id, a: Act)
    requires CanPlay(c, plan, START, ms) && Calm(id, ms) && !P.Disturbs(a)
    requires var w := Play(c, plan, START, ms);
             id in w.y.slots && AllPushed(plan, w, id) && CanAct(w.y.sh, w.y.slots[id], a)
    ensures var w, all := Play(c, plan, START, ms), ms + [Local(On(id, a))];
            && CanPlay(c, plan, START, all) && Calm(id, all)
            && var w' := Play(c, plan, START, all);
               && id in w'.y.slots && AllPushed(plan, w', id)
               && w'.y.slots[id] == DoAct(c, w.y.sh, w.y.slots[id], a)
  {
    CalmSnoc(c, plan, ms, id, Local(On(id, a)));
  }

  // ----- each kind of handler -----

  /** A well-behaved Go handler: the reader is told exactly what the handler had to say. */
  lemma PromiseArrives(c: nat, plan: Plan, ms: seq<Move>, id: Id, h: HM.Handler)
    requires Over(c, plan, ms, id) && HT.WellBehaved(h) && plan(id) == HO.Intended(h)
    ensures var w := Play(c, plan, START, ms);
            P.Told(c, w.y.sh, w.y.slots[id], HO.Promised(h))
  {
    EverythingArrives(c, plan, ms, id);
    HO.PromiseKept(h);
  }

  /** Behind either adapter an http.Handler's status and body arrive whole, and then EOF. */
  lemma AdaptersArrive(c: nat, plan: Plan, ms: seq<Move>, id: Id, p: HM.Prog, headers: HM.Headers)
    requires Over(c, plan, ms, id) && 100 <= HO.FirstStatus(HO.Path(p)) <= 999
    requires plan(id) == HO.Intended(HM.Adapter(p)) || plan(id) == HO.Intended(HM.BufferedAdapter(p, headers))
    ensures var w := Play(c, plan, START, ms);
            var s, (status, body) := w.y.slots[id], HM.BufferedResponse(p);
            && Holder(s) && s.req.o.head.status == status && s.pipe.delivered == body
            && CanAct(w.y.sh, s, Use(ReadEnd)) && DoAct(c, w.y.sh, s, Use(ReadEnd)).pipe.sawEof
  {
    EverythingArrives(c, plan, ms, id);
    HO.AdaptersAgree(p);
    HO.BufferedView(p, headers);
  }

  /** A request whose payload cannot be decoded is refused with that error, code and message. */
  lemma UndecodableArrives(c: nat, plan: Plan, ms: seq<Move>, id: Id, why: Bytes)
    requires Over(c, plan, ms, id) && plan(id) == HM.Undecodable(why)
    ensures Play(c, plan, START, ms).y.slots[id].req == RDone(Failed(Remote(ErrorInfo(1003, why))))
  {
    EverythingArrives(c, plan, ms, id);
  }

  /** A TypeScript handler that does not stream, on a healthy transport: its result, or 502 with its reason. */
  lemma PlainArrives(c: nat, plan: Plan, ms: seq<Move>, id: Id,
                     fate: HM.Fate, result: Option<(Head, Bytes)>, why: Bytes)
    requires HM.Healthy(fate) && Over(c, plan, ms, id) && plan(id) == TH.PlainWire(fate, result, why)
    ensures var w := Play(c, plan, START, ms);
            P.Told(c, w.y.sh, w.y.slots[id],
                   if result.Some? then Whole(result.value.0, result.value.1)
                   else Whole(Head(502, map["content-type" := ["text/plain"]]), why))
  {
    EverythingArrives(c, plan, ms, id);
    TH.PlainView(fate, result, why);
  }

  /** A TypeScript streaming handler on a healthy transport, once its failure, if any, is reported. */
  lemma SourceArrives(c: nat, plan: Plan, ms: seq<Move>, id: Id, fate: HM.Fate, head: Head, moves: seq<TH.Move>)
    requires HM.Healthy(fate) && TH.CanMoves(fate, TH.Opened(fate, head), moves) && TH.OnlyResponseEvents(moves)
    requires Over(c, plan, ms, id) && plan(id) == TH.DoMoves(fate, TH.Opened(fate, head), moves).wire
    ensures var w := Play(c, plan, START, ms);
            var (b, e) := TH.Meaning(moves);
            var reported := TH.DoMoves(fate, TH.Opened(fate, head), moves).reported;
            P.Told(c, w.y.sh, w.y.slots[id], Streaming(head, b, if e.Broke? && !reported then Open else e))
  {
    EverythingArrives(c, plan, ms, id);
    TH.SourceView(fate, head, moves);
  }
}
