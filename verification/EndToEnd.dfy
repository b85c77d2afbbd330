/**
 Handlers, one ordered connection and the Go caller together. Requests, handler sends,
 deliveries, goroutine steps, reads, timers, cancellation and Close interleave freely; the
 connection may stop delivering at any point.
 */
module EndToEnd {
  import opened Protocol
  import opened GoCaller
  import opened GoCallerInvariants
  import opened GoSystem
  import opened GoTheorems
  import HM = HandlerModel
  import HT = HandlerTheorems
  import HO = HandlerOutcomes
  import TH = TsHandlers

  /** For each request, all that its handler sends if the transport lets it. */
  type Plan = Id -> seq<Frame>

  /** wire: accepted by the handlers' transport and not yet delivered. sent: how many envelopes per request. */
  datatype World = World(y: Sys, wire: seq<(Id, Frame)>, sent: map<Id, nat>)

  const START := World(INIT, [], map[])

  datatype Move = Local(e: Event) | HandlerSends(id: Id) | Deliver

  function SentOf(w: World, id: Id): nat { if id in w.sent then w.sent[id] else 0 }

  /** A handler runs once the request has been registered and is being sent. */
  predicate CanMove(plan: Plan, w: World, m: Move) {
    match m
    case Local(e) => !e.Lookup? && CanStep(w.y, e)
    case HandlerSends(id) =>
      id in w.y.slots && w.y.slots[id].req != RChecked
      && SentOf(w, id) < |plan(id)|
    case Deliver => w.wire != [] && CanStep(w.y, Lookup(w.wire[0].0, w.wire[0].1))
  }

  function Do(c: nat, plan: Plan, w: World, m: Move): World
    requires CanMove(plan, w, m)
  {
    match m
    case Local(e) => w.(y := Step(c, w.y, e))
    case HandlerSends(id) =>
      var n := SentOf(w, id);
      w.(wire := w.wire + [(id, plan(id)[n])], sent := w.sent[id := n + 1])
    case Deliver => w.(y := Step(c, w.y, Lookup(w.wire[0].0, w.wire[0].1)), wire := w.wire[1..])
  }

  predicate CanPlay(c: nat, plan: Plan, w: World, ms: seq<Move>)
    decreases ms
  {
    ms == [] || (CanMove(plan, w, ms[0]) && CanPlay(c, plan, Do(c, plan, w, ms[0]), ms[1..]))
  }

  function Play(c: nat, plan: Plan, w: World, ms: seq<Move>): World
    requires CanPlay(c, plan, w, ms)
    decreases ms
  {
    if ms == [] then w else Play(c, plan, Do(c, plan, w, ms[0]), ms[1..])
  }

  // ----- every request's queue holds its own handler's envelopes -----

  function InFlight(r: Router, id: Id): seq<Frame> {
    if r.Found? && r.id == id then [r.f] else []
  }

  /** A request that was never registered has no frames; a live one has all; a released one a prefix. */
  ghost predicate Fed(s: Slot, flying: seq<Frame>, waiting: seq<Frame>, sent: seq<Frame>) {
    if s.registered then s.q.pushed + flying + waiting == sent
    else if s.req.RChecked? then s.q.pushed == [] && flying == [] && waiting == [] && sent == []
    else s.q.pushed + flying <= sent
  }

  ghost predicate WorldInv(c: nat, plan: Plan, w: World) {
    && SysInv(c, w.y)
    && (forall id :: SentOf(w, id) <= |plan(id)|)
    && (forall id :: id !in w.y.slots ==> SentOf(w, id) == 0 && Project(w.wire, id) == [])
    && (forall id :: id in w.y.slots ==> FedIn(plan, w, id))
  }

  ghost predicate FedIn(plan: Plan, w: World, id: Id)
    requires id in w.y.slots && SentOf(w, id) <= |plan(id)|
  {
    Fed(w.y.slots[id], InFlight(w.y.router, id), Project(w.wire, id), plan(id)[..SentOf(w, id)])
  }

  /** A step of the request's own goroutines or reader leaves what it was fed. */
  lemma ActKeepsFed(c: nat, sh: Shared, s: Slot, a: Act, flying: seq<Frame>, waiting: seq<Frame>, sent: seq<Frame>)
    requires HandoffInv(s) && SlotInv(s) && CanAct(sh, s, a) && Fed(s, flying, waiting, sent)
    ensures Fed(DoAct(c, sh, s, a), flying, waiting, sent)
  {
    ActPushesNothing(c, sh, s, a);
    ActRegistration(c, sh, s, a);
  }

  lemma ActPushesNothing(c: nat, sh: Shared, s: Slot, a: Act)
    requires CanAct(sh, s, a)
    ensures DoAct(c, sh, s, a).q.pushed == s.q.pushed
  {}

  /** A slot is registered once, from RChecked, and never again. */
  lemma ActRegistration(c: nat, sh: Shared, s: Slot, a: Act)
    requires HandoffInv(s) && SlotInv(s) && CanAct(sh, s, a)
    ensures DoAct(c, sh, s, a).req.RChecked? ==> s.req.RChecked?
    ensures DoAct(c, sh, s, a).registered ==> s.registered || s.req.RChecked?
    ensures s.req.RChecked? ==> DoAct(c, sh, s, a).registered || DoAct(c, sh, s, a).req.RChecked?
  {
    match a
    case Req(r) =>
    case Wait(who, x) => WaitRegistration(sh, s, who, x);
    case Pmp(p) =>
    case Use(u) =>
  }

  lemma WaitRegistration(sh: Shared, s: Slot, who: Who, a: WaitAct)
    requires HandoffInv(s) && CanWait(sh, s, who, a)
    ensures var s' := DoWait(sh, s, who, a);
            s'.registered == s.registered && !s.req.RChecked? && !s'.req.RChecked?
  {}

  /** What the frames on their way to one request add up to after a step of the caller. */
  ghost predicate FedAfter(c: nat, plan: Plan, w: World, e: Event, id: Id)
    requires CanStep(w.y, e) && SentOf(w, id) <= |plan(id)|
  {
    var y' := Step(c, w.y, e);
    id in y'.slots
    && Fed(y'.slots[id], InFlight(y'.router, id), Project(w.wire, id), plan(id)[..SentOf(w, id)])
  }

  lemma OnKeepsFed(c: nat, plan: Plan, w: World, j: Id, a: Act, id: Id)
    requires CanStep(w.y, On(j, a)) && id in w.y.slots && SentOf(w, id) <= |plan(id)|
    requires HandoffInv(w.y.slots[id]) && SlotInv(w.y.slots[id]) && FedIn(plan, w, id)
    ensures FedAfter(c, plan, w, On(j, a), id)
  {
    if j == id {
      ActKeepsFed(c, w.y.sh, w.y.slots[id], a, InFlight(w.y.router, id), Project(w.wire, id),
                  plan(id)[..SentOf(w, id)]);
    }
  }

  /** A push moves the frame in flight to the queue. */
  lemma PushKeepsFed(c: nat, plan: Plan, w: World, j: Id, id: Id)
    requires CanStep(w.y, Push(j)) && id in w.y.slots && SentOf(w, id) <= |plan(id)|
    requires FedIn(plan, w, id)
    ensures FedAfter(c, plan, w, Push(j), id)
  {
    if j == id {
      FedPush(w.y.sh, w.y.slots[id], w.y.router.f, Project(w.wire, id), plan(id)[..SentOf(w, id)]);
    }
  }

  lemma LocalKeepsFed(c: nat, plan: Plan, w: World, e: Event, id: Id)
    requires CanMove(plan, w, Local(e)) && id in w.y.slots && SentOf(w, id) <= |plan(id)|
    requires HandoffInv(w.y.slots[id]) && SlotInv(w.y.slots[id]) && FedIn(plan, w, id)
    ensures FedAfter(c, plan, w, e, id)
  {
    match e
    case On(j, a) => OnKeepsFed(c, plan, w, j, a, id);
    case Push(j) => PushKeepsFed(c, plan, w, j, id);
    case _ =>
  }

  lemma FedPush(sh: Shared, s: Slot, f: Frame, waiting: seq<Frame>, sent: seq<Frame>)
    requires Fed(s, [f], waiting, sent)
    ensures Fed(Append(sh, s, f), [], waiting, sent)
  {
    assert (s.q.pushed + [f]) + [] == s.q.pushed + [f];
  }

  lemma LocalKeepsWorld(c: nat, plan: Plan, w: World, e: Event)
    requires WorldInv(c, plan, w) && CanMove(plan, w, Local(e))
    ensures WorldInv(c, plan, Do(c, plan, w, Local(e)))
  {
    var w' := Do(c, plan, w, Local(e));
    StepKeepsInv(c, w.y, e);
    SlotsKept(c, w.y, e);
    assert forall id :: SentOf(w', id) == SentOf(w, id);
    forall id | id in w'.y.slots ensures FedIn(plan, w', id) {
      if id in w.y.slots {
        assert Inv(c, w.y.sh, Signalling(w.y, id), w.y.slots[id]) && FedIn(plan, w, id);
        LocalKeepsFed(c, plan, w, e, id);
      } else {
        NewIsUnfed(c, plan, w, e, id);
      }
    }
  }

  lemma SlotsKept(c: nat, y: Sys, e: Event)
    requires CanStep(y, e)
    ensures y.slots.Keys <= Step(c, y, e).slots.Keys
  {}

  lemma NewIsUnfed(c: nat, plan: Plan, w: World, e: Event, id: Id)
    requires WorldInv(c, plan, w) && CanMove(plan, w, Local(e))
    requires id !in w.y.slots && id in Step(c, w.y, e).slots
    ensures FedIn(plan, Do(c, plan, w, Local(e)), id)
  {
    assert InFlight(w.y.router, id) == [] && SentOf(w, id) == 0 && Project(w.wire, id) == [];
  }

  lemma FedSend(s: Slot, flying: seq<Frame>, waiting: seq<Frame>, sent: seq<Frame>, f: Frame)
    requires Fed(s, flying, waiting, sent) && s.req != RChecked
    ensures Fed(s, flying, waiting + [f], sent + [f])
  {
    assert (s.q.pushed + flying + waiting) + [f] == s.q.pushed + flying + (waiting + [f]);
  }

  lemma FedDeliver(s: Slot, f: Frame, waiting: seq<Frame>, sent: seq<Frame>)
    requires Fed(s, [], [f] + waiting, sent)
    ensures Fed(s, if s.registered then [f] else [], waiting, sent)
  {
    assert s.q.pushed + [] + ([f] + waiting) == s.q.pushed + [f] + waiting;
    assert s.q.pushed + [] == s.q.pushed;
  }

  /** What changes on the wire, request by request. */
  lemma SendChanges(c: nat, plan: Plan, w: World, id: Id, j: Id)
    requires CanMove(plan, w, HandlerSends(id))
    ensures var w' := Do(c, plan, w, HandlerSends(id));
            var f := plan(id)[SentOf(w, id)];
            && Project(w'.wire, j) == Project(w.wire, j) + (if j == id then [f] else [])
            && SentOf(w', j) == SentOf(w, j) + (if j == id then 1 else 0)
            && w'.y == w.y
  {
    ProjectSnoc(w.wire, (id, plan(id)[SentOf(w, id)]), j);
  }

  lemma SendKeepsFed(c: nat, plan: Plan, w: World, id: Id, j: Id)
    requires CanMove(plan, w, HandlerSends(id)) && j in w.y.slots
    requires SentOf(w, j) <= |plan(j)| && FedIn(plan, w, j)
    ensures SentOf(Do(c, plan, w, HandlerSends(id)), j) <= |plan(j)|
    ensures FedIn(plan, Do(c, plan, w, HandlerSends(id)), j)
  {
    SendChanges(c, plan, w, id, j);
    var n, p := SentOf(w, id), plan(id);
    if j == id {
      FedSend(w.y.slots[id], InFlight(w.y.router, id), Project(w.wire, id), p[..n], p[n]);
      assert p[..n + 1] == p[..n] + [p[n]];
    } else {
      assert Project(w.wire, j) + [] == Project(w.wire, j);
    }
  }

  lemma SendKeepsWorld(c: nat, plan: Plan, w: World, id: Id)
    requires WorldInv(c, plan, w) && CanMove(plan, w, HandlerSends(id))
    ensures WorldInv(c, plan, Do(c, plan, w, HandlerSends(id)))
  {
    var w' := Do(c, plan, w, HandlerSends(id));
    forall j ensures SentOf(w', j) <= |plan(j)| {
      SendChanges(c, plan, w, id, j);
    }
    forall j | j !in w'.y.slots ensures SentOf(w', j) == 0 && Project(w'.wire, j) == [] {
      SendChanges(c, plan, w, id, j);
    }
    forall j | j in w'.y.slots ensures FedIn(plan, w', j) {
      assert FedIn(plan, w, j);
      SendKeepsFed(c, plan, w, id, j);
    }
  }

  lemma DeliverKeepsFed(c: nat, plan: Plan, w: World, j: Id)
    requires CanMove(plan, w, Deliver) && j in w.y.slots
    requires SentOf(w, j) <= |plan(j)| && FedIn(plan, w, j)
    ensures SentOf(Do(c, plan, w, Deliver), j) == SentOf(w, j) && j in Do(c, plan, w, Deliver).y.slots
    ensures FedIn(plan, Do(c, plan, w, Deliver), j)
  {
    var (id, f) := w.wire[0];
    var rest := Project(w.wire[1..], j);
    if j == id {
      FedDeliver(w.y.slots[j], f, rest, plan(j)[..SentOf(w, j)]);
    } else {
      assert [] + rest == rest;
    }
  }

  lemma DeliverKeepsWorld(c: nat, plan: Plan, w: World)
    requires WorldInv(c, plan, w) && CanMove(plan, w, Deliver)
    ensures WorldInv(c, plan, Do(c, plan, w, Deliver))
  {
    var w' := Do(c, plan, w, Deliver);
    StepKeepsInv(c, w.y, Lookup(w.wire[0].0, w.wire[0].1));
    forall j | j !in w'.y.slots ensures SentOf(w', j) == 0 && Project(w'.wire, j) == [] {
      assert Project(w.wire, j) == [];
    }
    forall j | j in w'.y.slots ensures FedIn(plan, w', j) {
      assert FedIn(plan, w, j);
      DeliverKeepsFed(c, plan, w, j);
    }
  }

  lemma MoveKeepsWorld(c: nat, plan: Plan, w: World, m: Move)
    requires WorldInv(c, plan, w) && CanMove(plan, w, m)
    ensures WorldInv(c, plan, Do(c, plan, w, m))
  {
    match m
    case Local(e) => LocalKeepsWorld(c, plan, w, e);
    case HandlerSends(id) => SendKeepsWorld(c, plan, w, id);
    case Deliver => DeliverKeepsWorld(c, plan, w);
  }

  lemma {:induction false} PlayKeepsWorld(c: nat, plan: Plan, w: World, ms: seq<Move>)
    requires WorldInv(c, plan, w) && CanPlay(c, plan, w, ms)
    ensures WorldInv(c, plan, Play(c, plan, w, ms))
    decreases ms
  {
    if ms != [] {
      MoveKeepsWorld(c, plan, w, ms[0]);
      PlayKeepsWorld(c, plan, Do(c, plan, w, ms[0]), ms[1..]);
    }
  }

  // ----- what the holder of a body learns about the handler -----

  /** A state some play from the start ends in. */
  ghost predicate Possible(c: nat, plan: Plan, w: World) {
    exists ms :: CanPlay(c, plan, START, ms) && Play(c, plan, START, ms) == w
  }

  lemma PossibleInv(c: nat, plan: Plan, w: World)
    requires Possible(c, plan, w)
    ensures WorldInv(c, plan, w)
  {
    var ms :| CanPlay(c, plan, START, ms) && Play(c, plan, START, ms) == w;
    PlayKeepsWorld(c, plan, START, ms);
  }

  /** The envelopes a request has taken are the first ones its own handler sent. */
  lemma PoppedIsPlannedPrefix(c: nat, plan: Plan, w: World, id: Id)
    requires Possible(c, plan, w) && id in w.y.slots
    ensures w.y.slots[id].q.popped <= w.y.slots[id].q.pushed <= plan(id)
    ensures |w.y.slots[id].q.pushed| <= SentOf(w, id) <= |plan(id)|
  {
    PossibleInv(c, plan, w);
    assert FedIn(plan, w, id);
    var s, p := w.y.slots[id], plan(id);
    assert Inv(c, w.y.sh, Signalling(w.y, id), s);
    assert s.q.pushed <= p[..SentOf(w, id)];
  }

  /**
   The end-to-end guarantee. For any number of requests and any interleaving, each body yields a
   prefix of the bytes its own handler wrote, under the handler's own status and headers; unless
   the caller was closed with io.EOF, EOF means the handler finished and every byte was read; a
   remote failure means the handler reported it after exactly the bytes read.
   */
  lemma EndToEndGuarantee(c: nat, plan: Plan, w: World, id: Id)
    requires Possible(c, plan, w) && id in w.y.slots
    ensures var s := w.y.slots[id];
            var v := Interpret(plan(id));
            && s.pipe.delivered <= BodyOf(v)
            && (s.pipe.sawEof ==> EndsAs(v, s.pipe.delivered, CleanEof) || (v.Streaming? && ClosedByEof(w.y.sh)))
            && (s.pipe.sawErr.Some? && FromFrames(s.pipe.sawErr.value) ==>
                  EndsAs(v, s.pipe.delivered, Broke(s.pipe.sawErr.value)))
            && (Holder(s) ==> (v.Whole? || v.Streaming?) && s.req.o.head == v.head)
  {
    PoppedIsPlannedPrefix(c, plan, w, id);
    PossibleInv(c, plan, w);
    InterpretMonotone(w.y.slots[id].q.popped, plan(id));
    InvRefines(c, w.y, id);
  }

  // ----- each kind of handler -----

  /** A disciplined streaming handler: its own header, a prefix of what it wrote, and at EOF all of it and no error. */
  lemma UserEndToEnd(c: nat, plan: Plan, w: World, id: Id, calls: seq<HM.Call>, err: Option<Bytes>)
    requires Possible(c, plan, w) && id in w.y.slots
    requires plan(id) == HO.Intended(HM.User(calls, err)) && calls != [] && HT.Disciplined(calls, err)
    ensures var s := w.y.slots[id];
            && (Holder(s) ==> s.req.o.head == calls[0].head)
            && s.pipe.delivered <= HO.Written(calls)
            && (s.pipe.sawEof ==>
                  (s.pipe.delivered == HO.Written(calls) && err.None? && HM.CallClose in calls) || ClosedByEof(w.y.sh))
            && (s.pipe.sawErr.Some? && FromFrames(s.pipe.sawErr.value) ==>
                  s.pipe.delivered == HO.Written(calls) && err.Some?
                  && s.pipe.sawErr.value == Remote(ErrorInfo(1006, err.value)))
  {
    EndToEndGuarantee(c, plan, w, id);
    HO.UserView(calls, err);
  }

  /** A streaming handler that fails after its header is read as complete only if the caller was closed with io.EOF. */
  lemma FailedHandlerEof(c: nat, plan: Plan, w: World, id: Id, calls: seq<HM.Call>, why: Bytes)
    requires Possible(c, plan, w) && id in w.y.slots
    requires plan(id) == HO.Intended(HM.User(calls, Some(why))) && calls != [] && HT.Disciplined(calls, Some(why))
    ensures w.y.slots[id].pipe.sawEof ==> ClosedByEof(w.y.sh)
  {
    EndToEndGuarantee(c, plan, w, id);
    HO.FailureIsNotEof(calls, why);
  }

  /** An http.Handler behind the streaming adapter: its status, a prefix of its body, and at EOF the whole body. */
  lemma AdapterEndToEnd(c: nat, plan: Plan, w: World, id: Id, p: HM.Prog)
    requires Possible(c, plan, w) && id in w.y.slots && plan(id) == HO.Intended(HM.Adapter(p))
    requires 100 <= HO.FirstStatus(HO.Path(p)) <= 999
    ensures var s, (status, body) := w.y.slots[id], HM.BufferedResponse(p);
            && (Holder(s) ==> s.req.o.head.status == status)
            && s.pipe.delivered <= body
            && (s.pipe.sawEof ==> Holder(s) && (s.pipe.delivered == body || ClosedByEof(w.y.sh)))
  {
    EndToEndGuarantee(c, plan, w, id);
    HO.AdaptersAgree(p);
    PossibleInv(c, plan, w);
    assert Inv(c, w.y.sh, Signalling(w.y, id), w.y.slots[id]);
  }

  /** An http.Handler behind the buffered adapter: its status, a prefix of its body, and at EOF the whole body. */
  lemma BufferedEndToEnd(c: nat, plan: Plan, w: World, id: Id, p: HM.Prog, headers: HM.Headers)
    requires Possible(c, plan, w) && id in w.y.slots && plan(id) == HO.Intended(HM.BufferedAdapter(p, headers))
    requires 100 <= HO.FirstStatus(HO.Path(p)) <= 999
    ensures var s, (status, body) := w.y.slots[id], HM.BufferedResponse(p);
            && (Holder(s) ==> s.req.o == GotWhole(Head(status, headers), body))
            && s.pipe.delivered <= body && s.pipe.sawErr.None?
            && (s.pipe.sawEof ==> s.pipe.delivered == body)
  {
    EndToEndGuarantee(c, plan, w, id);
    HO.BufferedView(p, headers);
    HO.AdaptersAgree(p);
    WholeEndToEnd(c, plan, w, id);
  }

  /** A whole response is handed over as such. */
  lemma WholeEndToEnd(c: nat, plan: Plan, w: World, id: Id)
    requires Possible(c, plan, w) && id in w.y.slots && Interpret(plan(id)).Whole?
    ensures var s, v := w.y.slots[id], Interpret(plan(id));
            (Holder(s) ==> s.req.o == GotWhole(v.head, v.body)) && s.pipe.sawErr.None?
  {
    PoppedIsPlannedPrefix(c, plan, w, id);
    PossibleInv(c, plan, w);
    InterpretMonotone(w.y.slots[id].q.popped, plan(id));
    assert Inv(c, w.y.sh, Signalling(w.y, id), w.y.slots[id]);
  }

  /** A request that fails before any header is sent: 502 and the reason as plain text. */
  lemma FailureEndToEnd(c: nat, plan: Plan, w: World, id: Id, h: HM.Handler, why: Bytes)
    requires Possible(c, plan, w) && id in w.y.slots && plan(id) == HO.Intended(h)
    requires h == HM.Buffered(None, why) || h == HM.BadRequestURL(why)
             || h == HM.Forward(HM.NoUpstream(why)) || h == HM.User([], Some(why))
    ensures var s := w.y.slots[id];
            && (Holder(s) ==> s.req.o == GotWhole(Head(502, map["Content-Type" := ["text/plain"]]), why))
            && s.pipe.delivered <= why && (s.pipe.sawEof ==> s.pipe.delivered == why)
  {
    EndToEndGuarantee(c, plan, w, id);
    HO.PromiseKept(h);
    WholeEndToEnd(c, plan, w, id);
  }

  /** A forwarded response that ends cleanly is byte for byte what the upstream gave. */
  lemma ForwardEndToEnd(c: nat, plan: Plan, w: World, id: Id, head: Head, script: seq<HM.UpRead>)
    requires Possible(c, plan, w) && id in w.y.slots && plan(id) == HO.Intended(HM.Forward(HM.Answer(head, script)))
    ensures w.y.slots[id].pipe.delivered <= HM.Obtained(script)
    ensures w.y.slots[id].pipe.sawEof ==> w.y.slots[id].pipe.delivered == HM.Obtained(script) || ClosedByEof(w.y.sh)
  {
    EndToEndGuarantee(c, plan, w, id);
    HO.ForwardView(head, script);
  }

  /** A TypeScript streaming handler: at EOF the whole of a response that ended, but for its own false end. */
  lemma SourceEndToEnd(c: nat, plan: Plan, w: World, id: Id, fate: HM.Fate, head: Head, ms: seq<TH.Move>)
    requires TH.CanMoves(fate, TH.Opened(fate, head), ms)
    requires Possible(c, plan, w) && id in w.y.slots
    requires plan(id) == TH.DoMoves(fate, TH.Opened(fate, head), ms).wire
    ensures var s := w.y.slots[id];
            s.pipe.sawEof ==>
              || (s.pipe.delivered, CleanEof) == TH.Meaning(ms)
              || (s.pipe.delivered == TH.Leading(ms) && TH.EndsFailed(fate, 1, ms))
              || ClosedByEof(w.y.sh)
  {
    EndToEndGuarantee(c, plan, w, id);
    TH.CleanEndIff(fate, head, ms);
    TH.EofMeansComplete(fate, head, ms);
    TH.StreamingOnly(fate, head, ms);
  }

  /** A TypeScript handler that does not stream: its result or its 502, as its sends let it, and nothing else. */
  lemma PlainEndToEnd(c: nat, plan: Plan, w: World, id: Id, fate: HM.Fate, result: Option<(Head, Bytes)>, why: Bytes)
    requires Possible(c, plan, w) && id in w.y.slots && plan(id) == TH.PlainWire(fate, result, why)
    ensures var s, bad := w.y.slots[id], Head(502, map["content-type" := ["text/plain"]]);
            Holder(s) ==>
              && s.req.o == (if result.Some? && fate(0) then GotWhole(result.value.0, result.value.1)
                             else GotWhole(bad, if result.None? then why else HM.SEND_FAILED))
              && s.pipe.delivered <= s.req.o.body && (s.pipe.sawEof ==> s.pipe.delivered == s.req.o.body)
  {
    EndToEndGuarantee(c, plan, w, id);
    TH.PlainView(fate, result, why);
    if Interpret(plan(id)).Whole? { WholeEndToEnd(c, plan, w, id); }
  }

  // ----- exactly which argument of Close keeps EOF honest -----

  function Closing(m: Move): Option<CloseErr> {
    if m.Local? && m.e.All? && m.e.sa.CloseEnter? then
      Some(if m.e.sa.err.None? then TransportClosed else m.e.sa.err.value)
    else None
  }

  /** The error of the first call of Close in a play. */
  function FirstClosing(ms: seq<Move>): Option<CloseErr> {
    if ms == [] then None
    else if Closing(ms[0]).Some? then Closing(ms[0])
    else FirstClosing(ms[1..])
  }

  /** One move settles the error at most once. */
  lemma MoveChooses(c: nat, plan: Plan, w: World, m: Move)
    requires SharedInv(w.y.sh) && CanMove(plan, w, m)
    ensures var sh, sh' := w.y.sh, Do(c, plan, w, m).y.sh;
            && (forall e :: Chosen(sh, e) ==> Chosen(sh', e))
            && (sh.once.NotRun? ==> if Closing(m).None? then sh'.once.NotRun? else Chosen(sh', Closing(m).value))
            && (!sh.once.NotRun? ==> !sh'.once.NotRun?)
  {
    if m.Local? && m.e.All? { SharedKeeps(w.y.sh, m.e.sa); }
  }

  lemma {:induction false} PlayChoosesFirst(c: nat, plan: Plan, w: World, ms: seq<Move>)
    requires WorldInv(c, plan, w) && CanPlay(c, plan, w, ms)
    ensures forall e :: Chosen(w.y.sh, e) ==> Chosen(Play(c, plan, w, ms).y.sh, e)
    ensures w.y.sh.once.NotRun? ==>
              var sh := Play(c, plan, w, ms).y.sh;
              if FirstClosing(ms).None? then sh.once.NotRun? else Chosen(sh, FirstClosing(ms).value)
    decreases ms
  {
    if ms != [] {
      var w' := Do(c, plan, w, ms[0]);
      MoveKeepsWorld(c, plan, w, ms[0]);
      MoveChooses(c, plan, w, ms[0]);
      PlayChoosesFirst(c, plan, w', ms[1..]);
    }
  }

  /** A state of some play in which any first call of Close is given e. */
  ghost predicate PossibleWith(c: nat, plan: Plan, e: CloseErr, w: World) {
    exists ms ::
      CanPlay(c, plan, START, ms) && Play(c, plan, START, ms) == w
      && (FirstClosing(ms).None? || FirstClosing(ms) == Some(e))
  }

  /** However the requests are answered and scheduled, EOF means that the handler ended and all was read. */
  ghost predicate EofMeansEnd(e: CloseErr) {
    forall c, plan, w, id ::
      PossibleWith(c, plan, e, w) && id in w.y.slots && w.y.slots[id].pipe.sawEof ==>
        EndsAs(Interpret(plan(id)), w.y.slots[id].pipe.delivered, CleanEof)
  }

  /** Close may be given any error but io.EOF. */
  lemma EofMeansEndIff(e: CloseErr)
    ensures EofMeansEnd(e) <==> e != IoEof
  {
    if e != IoEof {
      forall c, plan, w, id | PossibleWith(c, plan, e, w) && id in w.y.slots && w.y.slots[id].pipe.sawEof
        ensures EndsAs(Interpret(plan(id)), w.y.slots[id].pipe.delivered, CleanEof)
      {
        HonestClose(c, plan, e, w, id);
      }
    } else {
      var plan, w, id := FailureReadAsEof();
      assert PossibleWith(0, plan, e, w);
    }
  }

  lemma HonestClose(c: nat, plan: Plan, e: CloseErr, w: World, id: Id)
    requires PossibleWith(c, plan, e, w) && e != IoEof && id in w.y.slots && w.y.slots[id].pipe.sawEof
    ensures EndsAs(Interpret(plan(id)), w.y.slots[id].pipe.delivered, CleanEof)
  {
    var ms :| CanPlay(c, plan, START, ms) && Play(c, plan, START, ms) == w
              && (FirstClosing(ms).None? || FirstClosing(ms) == Some(e));
    PlayChoosesFirst(c, plan, START, ms);
    PlayKeepsWorld(c, plan, START, ms);
    EndToEndGuarantee(c, plan, w, id);
  }

  lemma {:induction false} PlaySnoc(c: nat, plan: Plan, w: World, ms: seq<Move>, m: Move)
    requires CanPlay(c, plan, w, ms) && CanMove(plan, Play(c, plan, w, ms), m)
    ensures CanPlay(c, plan, w, ms + [m]) && Play(c, plan, w, ms + [m]) == Do(c, plan, Play(c, plan, w, ms), m)
    ensures FirstClosing(ms + [m]) == if FirstClosing(ms).Some? then FirstClosing(ms) else Closing(m)
    decreases ms
  {
    if ms == [] {
      assert [m][1..] == [] && ms + [m] == [m];
    } else {
      assert (ms + [m])[1..] == ms[1..] + [m];
      PlaySnoc(c, plan, Do(c, plan, w, ms[0]), ms[1..], m);
    }
  }

  lemma Then(plan: Plan, w: World, m: Move) returns (w': World)
    requires PossibleWith(0, plan, IoEof, w) && CanMove(plan, w, m)
    requires Closing(m).None? || Closing(m) == Some(IoEof)
    ensures PossibleWith(0, plan, IoEof, w') && w' == Do(0, plan, w, m)
  {
    var ms :| CanPlay(0, plan, START, ms) && Play(0, plan, START, ms) == w
              && (FirstClosing(ms).None? || FirstClosing(ms) == Some(IoEof));
    PlaySnoc(0, plan, START, ms, m);
    w' := Do(0, plan, w, m);
    assert CanPlay(0, plan, START, ms + [m]);
  }

  /** One request, whose handler sends its header and then fails. */
  const HEAD := Head(200, map[])
  const BROKEN := [Start(Some(HEAD)), Error(Some(ErrorInfo(HM.ERR_INTERNAL, [1])))]
  const ONE: Id := "1"

  function Solo(sh: Shared, r: Router, s: Slot, wire: seq<(Id, Frame)>, n: nat): World {
    World(Sys(sh, map[ONE := s], r), wire, if n == 0 then map[] else map[ONE := n])
  }

  ghost predicate Reached(plan: Plan, sh: Shared, r: Router, s: Slot, wire: seq<(Id, Frame)>, n: nat) {
    PossibleWith(0, plan, IoEof, Solo(sh, r, s, wire, n))
  }

  lemma Acts(plan: Plan, sh: Shared, s: Slot, wire: seq<(Id, Frame)>, n: nat, a: Act) returns (s': Slot)
    requires Reached(plan, sh, Idle, s, wire, n) && CanAct(sh, s, a)
    ensures s' == DoAct(0, sh, s, a) && Reached(plan, sh, Idle, s', wire, n)
  {
    s' := DoAct(0, sh, s, a);
    var w' := Then(plan, Solo(sh, Idle, s, wire, n), Local(On(ONE, a)));
    assert w' == Solo(sh, Idle, s', wire, n);
  }

  lemma Shares(plan: Plan, sh: Shared, s: Slot, a: SharedAct) returns (sh': Shared)
    requires Reached(plan, sh, Idle, s, [], 1) && CanShare(sh, a) && (a.CloseEnter? ==> a.err == Some(IoEof))
    ensures sh' == DoShare(sh, a) && Reached(plan, sh', Idle, s, [], 1)
  {
    sh' := DoShare(sh, a);
    var w' := Then(plan, Solo(sh, Idle, s, [], 1), Local(All(a)));
    assert w' == Solo(sh', Idle, s, [], 1);
  }

  const ASKING := Slot(NEW_QUEUE, true, RWait(Try), PNone, Clock(Off, 0, 0), false, false, NEW_PIPE)

  lemma Asked(plan: Plan)
    ensures Reached(plan, FRESH, Idle, ASKING, [], 0)
  {
    assert CanPlay(0, plan, START, []) && Play(0, plan, START, []) == START && FirstClosing([]) == None;
    var w := Then(plan, START, Local(New(ONE)));
    assert w == Solo(FRESH, Idle, NewSlot(FRESH), [], 0);
    var s := Acts(plan, FRESH, NewSlot(FRESH), [], 0, Req(Register));
    s := Acts(plan, FRESH, s, [], 0, Req(SendOk));
    s := Acts(plan, FRESH, s, [], 0, Req(StartReqTimer));
  }

  lemma HeaderSent(plan: Plan)
    requires plan(ONE) == BROKEN
    ensures Reached(plan, FRESH, Found(ONE, BROKEN[0]), ASKING, [], 1)
  {
    Asked(plan);
    var w := Then(plan, Solo(FRESH, Idle, ASKING, [], 0), HandlerSends(ONE));
    assert w == Solo(FRESH, Idle, ASKING, [(ONE, BROKEN[0])], 1);
    w := Then(plan, w, Deliver);
    assert w == Solo(FRESH, Found(ONE, BROKEN[0]), ASKING, [], 1);
  }

  const APPENDED := ASKING.(q := Queue([BROKEN[0]], false, [BROKEN[0]], []))
  const QUEUED := APPENDED.(q := Queue([BROKEN[0]], true, [BROKEN[0]], []))

  lemma HeaderAppended(plan: Plan)
    requires plan(ONE) == BROKEN
    ensures Reached(plan, FRESH, Appended(ONE), APPENDED, [], 1)
  {
    HeaderSent(plan);
    var w := Then(plan, Solo(FRESH, Found(ONE, BROKEN[0]), ASKING, [], 1), Local(Push(ONE)));
    assert Append(FRESH, ASKING, BROKEN[0]) == APPENDED;
    assert w == Solo(FRESH, Appended(ONE), APPENDED, [], 1);
  }

  lemma HeaderQueued(plan: Plan)
    requires plan(ONE) == BROKEN
    ensures Reached(plan, FRESH, Idle, QUEUED, [], 1)
  {
    HeaderAppended(plan);
    var w := Then(plan, Solo(FRESH, Appended(ONE), APPENDED, [], 1), Local(Notify(ONE)));
    assert w == Solo(FRESH, Idle, QUEUED, [], 1);
  }

  function Streaming(pc: PumpPC, p: Pipe): Slot {
    Slot(Queue([], true, [BROKEN[0]], [BROKEN[0]]), true, RDone(GotStream(HEAD)), pc, Clock(Off, 0, 0), false, false, p)
  }

  lemma PumpParked(plan: Plan)
    requires plan(ONE) == BROKEN
    ensures Reached(plan, FRESH, Idle, Streaming(PWait(Parked), NEW_PIPE), [], 1)
  {
    HeaderQueued(plan);
    var s := Acts(plan, FRESH, QUEUED, [], 1, Wait(Requester, TryPop));
    s := Acts(plan, FRESH, s, [], 1, Req(HandleFirst));
    assert s == Streaming(PInit, NEW_PIPE);
    s := Acts(plan, FRESH, s, [], 1, Pmp(StartPumpTimer));
    s := Acts(plan, FRESH, s, [], 1, Wait(Pump, TryPop));
  }

  const CLOSED := Shared(0, Ran, Some(IoEof), true)

  /** After Close(io.EOF) the body of a handler that is about to fail reads as complete. */
  lemma FailureReadAsEof() returns (plan: Plan, w: World, id: Id)
    ensures PossibleWith(0, plan, IoEof, w) && id in w.y.slots && w.y.slots[id].pipe.sawEof
    ensures Interpret(plan(id)).Streaming? && Interpret(plan(id)).ending.Broke?
  {
    plan, id := _ => BROKEN, ONE;
    PumpParked(plan);
    var s := Streaming(PWait(Parked), NEW_PIPE);
    var sh := Shares(plan, FRESH, s, CloseEnter(Some(IoEof)));
    sh := Shares(plan, sh, s, CloseSetErr);
    sh := Shares(plan, sh, s, CloseDone);
    assert sh == CLOSED;
    s := EofFollows(plan, s);
    w := Solo(CLOSED, Idle, s, [], 1);
    assert BROKEN[1..] == [BROKEN[1]];
  }

  lemma EofFollows(plan: Plan, s: Slot) returns (s': Slot)
    requires s == Streaming(PWait(Parked), NEW_PIPE) && Reached(plan, CLOSED, Idle, s, [], 1)
    ensures Reached(plan, CLOSED, Idle, s', [], 1) && s'.pipe.sawEof
  {
    s' := Acts(plan, CLOSED, s, [], 1, Wait(Pump, TakeStop(ByDone)));
    s' := Acts(plan, CLOSED, s', [], 1, Wait(Pump, LastPop));
    s' := Acts(plan, CLOSED, s', [], 1, Pmp(PumpReason(ByDone)));
    s' := Acts(plan, CLOSED, s', [], 1, Use(ReadEnd));
  }
}
