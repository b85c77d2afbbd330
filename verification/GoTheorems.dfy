/**
 Results about every run of the Go caller: what callers and readers observe, timeouts, Close,
 release of the slot, and independence of the requests that share a connection.
 */
module GoTheorems {
  import opened Protocol
  import opened GoCaller
  import opened GoCallerInvariants
  import opened GoSystem

  // ----- refinement of Interpret -----

  /**
   Every schedule gives the pure function's result on the frames popped so far: the outcome of
   Request, the bytes readable so far, and EOF or a failure only after all earlier bytes. Only
   Close(io.EOF) makes an open stream read as EOF.
   */
  lemma CallerRefinesInterpret(c: nat, y: Sys, id: Id)
    requires Reachable(c, y) && id in y.slots
    ensures Refines(c, y, id)
  {
    ReachableInv(c, y);
    InvRefines(c, y, id);
  }

  ghost predicate Refines(c: nat, y: Sys, id: Id)
    requires id in y.slots
  {
    var s := y.slots[id];
    var v := Interpret(s.q.popped);
    && (s.req.RDone? ==>
          if s.q.popped == [] then
            s.req.o.Failed? && (s.req.o.why == SendFailed || StopFailure(c, y.sh, s, Requester, s.req.o.why))
          else s.req.o == OutcomeOf(v))
    && s.pipe.delivered <= BodyOf(v)
    && (s.pipe.sawEof ==>
          EndsAs(v, s.pipe.delivered, CleanEof) || (EndsAs(v, s.pipe.delivered, Open) && ClosedByEof(y.sh)))
    && (s.pipe.sawErr.Some? ==>
          var f := s.pipe.sawErr.value;
          if FromFrames(f) then EndsAs(v, s.pipe.delivered, Broke(f))
          else EndsAs(v, s.pipe.delivered, Open) && StopFailure(c, y.sh, s, Pump, f))
  }

  lemma InvRefines(c: nat, y: Sys, id: Id)
    requires SysInv(c, y) && id in y.slots
    ensures Refines(c, y, id)
  {
    var s := y.slots[id];
    assert Inv(c, y.sh, Signalling(y, id), s);
    if Holder(s) && s.req.o.GotStream? { StreamDelivered(c, y.sh, Signalling(y, id), s); }
  }

  /** The pump has delivered a prefix of the popped stream, and all of it once the pipe is closed. */
  lemma StreamDelivered(c: nat, sh: Shared, signalling: bool, s: Slot)
    requires Inv(c, sh, signalling, s) && Holder(s) && s.req.o.GotStream?
    ensures Interpret(s.q.popped).Streaming?
    ensures s.pipe.delivered <= Interpret(s.q.popped).body
    ensures s.pipe.werr == Some(Eof) ==>
              EndsAs(Interpret(s.q.popped), s.pipe.delivered, CleanEof)
              || (EndsAs(Interpret(s.q.popped), s.pipe.delivered, Open) && ClosedByEof(sh))
    ensures s.pipe.werr.Some? && s.pipe.werr.value.Broken? ==>
              var f := s.pipe.werr.value.why;
              if FromFrames(f) then EndsAs(Interpret(s.q.popped), s.pipe.delivered, Broke(f))
              else EndsAs(Interpret(s.q.popped), s.pipe.delivered, Open) && StopFailure(c, sh, s, Pump, f)
  {
    if s.pump.PGot? || s.pump.PReady? {
      FrameJoinsStream(s, s.pump.f);
    }
  }

  // ----- timeouts -----

  /** Request returned this failure, the pipe was closed with it, or the holder of the body was given it. */
  ghost predicate Gave(s: Slot, f: Failure) {
    s.req == RDone(Failed(f)) || s.pipe.werr == Some(Broken(f)) || s.pipe.sawErr == Some(f)
  }

  /**
   ErrReadTimeout is reported only when a timeout was configured and has passed since the timer was last
   started; and then the last frame is at least that old too, unless a frame arrived after the final look
   at the queue, and then it is still queued. configured is the field ReadTimeout in seconds.
   */
  lemma TimeoutSound(configured: int, y: Sys, id: Id)
    requires Reachable(EffectiveTimeout(configured), y) && id in y.slots && Gave(y.slots[id], ReadTimeout)
    ensures var s, limit := y.slots[id], if configured == 0 then 30 else configured;
            && 0 <= configured && s.clock.resetAt + limit <= y.sh.now
            && (y.sh.now < s.clock.lastArrival + limit ==> s.q.items != [])
  {
    StopsHaveCauses(EffectiveTimeout(configured), y, id);
  }

  /** Every report of a stop is caused by the stop it names. */
  lemma StopsHaveCauses(c: nat, y: Sys, id: Id)
    requires Reachable(c, y) && id in y.slots
    ensures var s := y.slots[id];
            && (Gave(s, ContextDone) ==> s.ctxDone || (s.cancelled && Holder(s) && s.req.o.GotStream?))
            && (forall e :: Gave(s, Closed(e)) ==> y.sh.done && e.Some? && e == y.sh.closeErr)
            && (Gave(s, ReadTimeout) ==>
                  && 0 < c && s.clock.resetAt + c <= y.sh.now
                  && (s.q.items == [] ==> s.clock.lastArrival <= s.clock.resetAt))
  {
    ReachableInv(c, y);
    GaveHasCause(c, y.sh, Signalling(y, id), y.slots[id]);
  }

  lemma GaveHasCause(c: nat, sh: Shared, signalling: bool, s: Slot)
    requires SharedInv(sh) && Inv(c, sh, signalling, s)
    ensures Gave(s, ContextDone) ==> s.ctxDone || (s.cancelled && Holder(s) && s.req.o.GotStream?)
    ensures forall e :: Gave(s, Closed(e)) ==> sh.done && e.Some? && e == sh.closeErr
    ensures Gave(s, ReadTimeout) ==>
              && 0 < c && s.clock.resetAt + c <= sh.now
              && (s.q.items == [] ==> s.clock.lastArrival <= s.clock.resetAt)
  {
    if Gave(s, ContextDone) { StopCaused(c, sh, signalling, s, ContextDone); }
    if Gave(s, ReadTimeout) { StopCaused(c, sh, signalling, s, ReadTimeout); }
    forall e | Gave(s, Closed(e)) ensures sh.done && e.Some? && e == sh.closeErr {
      StopCaused(c, sh, signalling, s, Closed(e));
    }
  }

  lemma StopCaused(c: nat, sh: Shared, signalling: bool, s: Slot, f: Failure)
    requires Inv(c, sh, signalling, s) && Gave(s, f) && !FromFrames(f) && f != SendFailed
    ensures || StopFailure(c, sh, s, Requester, f)
            || (Holder(s) && s.req.o.GotStream? && StopFailure(c, sh, s, Pump, f))
    ensures f == ReadTimeout && s.q.items == [] ==> s.clock.lastArrival <= s.clock.resetAt
  {}

  /** At the moment of the verdict: it is a timeout exactly if done and every context are silent. */
  lemma TimeoutVerdict(c: nat, sh: Shared, s: Slot, why: Stop)
    ensures CanReq(sh, s, ReqReason(why)) ==>
              (DoReq(c, sh, s, ReqReason(why)).req == RDone(Failed(ReadTimeout)) <==> !sh.done && !s.ctxDone)
    ensures CanPump(sh, s, PumpReason(why)) && s.pipe.werr.None? ==>
              (DoPump(c, sh, s, PumpReason(why)).pipe.werr == Some(Broken(ReadTimeout))
               <==> !sh.done && !s.ctxDone && !s.cancelled)
  {}

  /**
   A goroutine that waits is watched by its timer, which is set for the timeout after it was last
   started; when that time has come and the goroutine is parked, it can be woken.
   */
  lemma TimerWatches(configured: int, y: Sys, id: Id)
    requires Reachable(EffectiveTimeout(configured), y) && id in y.slots && Watching(y.slots[id])
    ensures var s, limit := y.slots[id], if configured == 0 then 30 else configured;
            if configured < 0 then s.clock.timer == Off
            else
              && (s.clock.timer == Armed(s.clock.resetAt + limit) || s.clock.timer == Fired)
              && (s.clock.timer == Fired ==> s.clock.resetAt + limit <= y.sh.now)
              && (s.clock.resetAt + limit <= y.sh.now && IsParked(s) ==>
                    || CanAct(y.sh, s, Use(FireTimer))
                    || (exists who :: CanAct(y.sh, s, Act.Wait(who, TakeStop(ByTimer)))))
  {
    ReachableInv(EffectiveTimeout(configured), y);
    var s := y.slots[id];
    assert Inv(EffectiveTimeout(configured), y.sh, Signalling(y, id), s);
    if s.clock.timer == Fired && IsParked(s) {
      assert || CanAct(y.sh, s, Act.Wait(Requester, TakeStop(ByTimer)))
             || CanAct(y.sh, s, Act.Wait(Pump, TakeStop(ByTimer)));
    }
  }

  /** Request gave up, or is about to, because its message could not be sent. */
  ghost predicate SendLost(s: Slot) { s.req == RLeaving(Failed(SendFailed)) || s.req == RDone(Failed(SendFailed)) }

  /** It says so only if a send did fail. */
  lemma {:induction false} SendFailureIsReal(c: nat, y: Sys, es: seq<Event>, id: Id)
    requires CanRun(c, y, es) && (id in y.slots ==> !SendLost(y.slots[id]))
    ensures id in Run(c, y, es).slots && SendLost(Run(c, y, es).slots[id]) ==> On(id, Req(SendFail)) in es
    decreases es
  {
    if es != [] && es[0] != On(id, Req(SendFail)) {
      var y1 := Step(c, y, es[0]);
      if es[0].On? && es[0].id == id { NoSendLost(c, y.sh, y.slots[id], es[0].a); }
      SendFailureIsReal(c, y1, es[1..], id);
    }
  }

  lemma NoSendLost(c: nat, sh: Shared, s: Slot, a: Act)
    requires CanAct(sh, s, a) && !SendLost(s) && a != Req(SendFail)
    ensures !SendLost(DoAct(c, sh, s, a))
  {
    match a
    case Wait(who, w) => NotLostInWait(sh, s, who, w);
    case _ =>
  }

  lemma NotLostInWait(sh: Shared, s: Slot, who: Who, w: WaitAct)
    requires CanWait(sh, s, who, w) && !SendLost(s)
    ensures !SendLost(DoWait(sh, s, who, w))
  {}

  /** At the final look itself there is no exception: a timer that won on an empty queue means a timeout of silence. */
  lemma LastLookSound(configured: int, y: Sys, id: Id, who: Who)
    requires Reachable(EffectiveTimeout(configured), y) && id in y.slots
    requires WaitOf(y.slots[id], who) == Some(LastTry(ByTimer)) && y.slots[id].q.items == []
    ensures var limit := if configured == 0 then 30 else configured;
            0 <= configured && y.slots[id].clock.lastArrival + limit <= y.sh.now
  {
    ReachableInv(EffectiveTimeout(configured), y);
    assert Inv(EffectiveTimeout(configured), y.sh, Signalling(y, id), y.slots[id]);
  }

  lemma {:induction false} RunAppend(c: nat, y: Sys, es: seq<Event>, e: Event)
    requires CanRun(c, y, es) && CanStep(Run(c, y, es), e)
    ensures CanRun(c, y, es + [e]) && Run(c, y, es + [e]) == Step(c, Run(c, y, es), e)
    decreases es
  {
    if es == [] {
      assert [e][1..] == [];
    } else {
      assert (es + [e])[1..] == es[1..] + [e];
      RunAppend(c, Step(c, y, es[0]), es[1..], e);
    }
  }

  lemma ReachableStep(c: nat, y: Sys, e: Event)
    requires Reachable(c, y) && CanStep(y, e)
    ensures Reachable(c, Step(c, y, e))
  {
    var es :| CanRun(c, INIT, es) && Run(c, INIT, es) == y;
    RunAppend(c, INIT, es, e);
  }

  /** A request alone on a caller whose clock reads now. */
  function Alone(id: Id, now: nat, r: Router, s: Slot): Sys {
    Sys(Shared(now, NotRun, None, false), map[id := s], r)
  }

  function Asking(pc: ReqPC, registered: bool, q: Queue, k: Clock): Slot {
    Slot(q, registered, pc, PNone, k, false, false, NEW_PIPE)
  }

  /** The exception of TimeoutSound is real: a frame can slip in between the last pop and the verdict. */
  lemma LateFrameTimesOut(id: Id) returns (y: Sys)
    ensures Reachable(1, y) && id in y.slots && y.slots[id].req == RDone(Failed(ReadTimeout))
    ensures y.sh.now < y.slots[id].clock.lastArrival + 1
  {
    y := StoppedAlone(id);
    y := Advance(y, Lookup(id, End));
    assert y == Alone(id, 1, Found(id, End), Asking(RStopped(ByTimer), true, NEW_QUEUE, Clock(Off, 0, 0)));
    y := Advance(y, Push(id));
    y := Advance(y, On(id, Req(ReleaseStopped)));
    y := Advance(y, On(id, Req(ReqReason(ByTimer))));
  }

  lemma StoppedAlone(id: Id) returns (y: Sys)
    ensures Reachable(1, y) && y == Alone(id, 1, Idle, Asking(RStopped(ByTimer), true, NEW_QUEUE, Clock(Off, 0, 0)))
  {
    y := ParkedAlone(id);
    y := Advance(y, All(Tick));
    y := Advance(y, On(id, Use(FireTimer)));
    y := Advance(y, On(id, Wait(Requester, TakeStop(ByTimer))));
    assert y == Alone(id, 1, Idle, Asking(RWait(LastTry(ByTimer)), true, NEW_QUEUE, Clock(Off, 0, 0)));
    y := Advance(y, On(id, Wait(Requester, LastPop)));
  }

  lemma ParkedAlone(id: Id) returns (y: Sys)
    ensures Reachable(1, y) && y == Alone(id, 0, Idle, Asking(RWait(Parked), true, NEW_QUEUE, Clock(Armed(1), 0, 0)))
  {
    assert CanRun(1, INIT, []) && Run(1, INIT, []) == INIT;
    y := Advance(INIT, New(id));
    y := Advance(y, On(id, Req(Register)));
    y := Advance(y, On(id, Req(SendOk)));
    y := Advance(y, On(id, Req(StartReqTimer)));
    y := Advance(y, On(id, Wait(Requester, TryPop)));
  }

  lemma Advance(y: Sys, e: Event) returns (y': Sys)
    requires Reachable(1, y) && CanStep(y, e)
    ensures Reachable(1, y') && y' == Step(1, y, e)
  {
    ReachableStep(1, y, e);
    y' := Step(1, y, e);
  }

  // ----- Close -----

  /** The error of the first call of Close in a run. */
  function FirstClose(es: seq<Event>): Option<CloseErr> {
    if es == [] then None
    else if es[0].All? && es[0].sa.CloseEnter? then
      Some(if es[0].sa.err.None? then TransportClosed else es[0].sa.err.value)
    else FirstClose(es[1..])
  }

  /** The error already chosen, if closeOnce has started. */
  ghost predicate Chosen(sh: Shared, e: CloseErr) {
    (sh.once.Running? && sh.once.err == e) || (sh.once.Ran? && sh.closeErr == Some(e))
  }

  lemma {:induction false} CloseChoosesFirst(c: nat, y: Sys, es: seq<Event>)
    requires SysInv(c, y) && CanRun(c, y, es)
    ensures forall e :: Chosen(y.sh, e) ==> Chosen(Run(c, y, es).sh, e)
    ensures y.sh.once.NotRun? ==>
              if FirstClose(es).None? then Run(c, y, es).sh.once.NotRun?
              else Chosen(Run(c, y, es).sh, FirstClose(es).value)
    decreases es
  {
    if es != [] {
      StepKeepsInv(c, y, es[0]);
      CloseChoosesFirst(c, Step(c, y, es[0]), es[1..]);
    }
  }

  /**
   Close is idempotent and first-wins: whatever the interleaving of Close calls with
   everything else, a closed done channel means closeErr is the first caller's error, and every
   request and every body that reports closure reports that error.
   */
  lemma CloseAgreement(c: nat, es: seq<Event>, id: Id)
    requires CanRun(c, INIT, es)
    ensures var y := Run(c, INIT, es);
            && (y.sh.closeErr.Some? ==> y.sh.closeErr == FirstClose(es))
            && (y.sh.done ==> y.sh.closeErr.Some?)
            && (id in y.slots ==>
                  var s := y.slots[id];
                  && (s.req.RDone? && s.req.o.Failed? && s.req.o.why.Closed? ==>
                        y.sh.done && s.req.o.why.err == FirstClose(es))
                  && (s.pipe.sawErr.Some? && s.pipe.sawErr.value.Closed? ==>
                        y.sh.done && s.pipe.sawErr.value.err == FirstClose(es)))
  {
    CloseChoosesFirst(c, INIT, es);
    RunKeepsInv(c, INIT, es);
    var y := Run(c, INIT, es);
    assert Reachable(c, y);
    if id in y.slots { CallerRefinesInterpret(c, y, id); }
  }

  /** A request made after that is refused at once with the first error; nothing is registered or sent for it. */
  lemma ClosedRefusesAtOnce(c: nat, es: seq<Event>, id: Id)
    requires CanRun(c, INIT, es) && CanStep(Run(c, INIT, es), New(id))
    ensures var y := Run(c, INIT, es);
            var s := Step(c, y, New(id)).slots[id];
            if y.sh.done then
              && FirstClose(es).Some? && s.req == RDone(Failed(Closed(FirstClose(es)))) && !s.registered
              && forall a :: ByConsumer(a) ==> !CanAct(y.sh, s, a)
            else CanAct(y.sh, s, Req(Register)) && DoAct(c, y.sh, s, Req(Register)).registered
  {
    CloseAgreement(c, es, id);
  }

  // ----- release of the slot -----

  predicate ByConsumer(a: Act) { !a.Use? }

  function ReqRank(r: ReqPC): nat {
    match r
    case RChecked => 8
    case RRegistered => 7
    case RArm => 6
    case RWait(w) => WaitRank(w)
    case RGot(_) => 7
    case RStopped(_) => 2
    case RInspect(_) => 1
    case RLeaving(_) => 1
    case RDone(_) => 0
  }

  function WaitRank(w: GoCaller.Wait): nat {
    match w case Try => 5 case Parked => 4 case LastTry(_) => 3
  }

  function PumpRank(p: PumpPC): nat {
    match p
    case PNone => 0
    case PInit => 6
    case PWait(w) => WaitRank(w)
    case PGot(_) => 8
    case PReady(_) => 7
    case PWrite(_, _) => 6
    case PStopped(_) => 2
    case PExit => 1
    case PDone => 0
  }

  /** How many steps the request's goroutines can still take on the frames queued now. */
  function Rank(s: Slot): nat {
    10 * |s.q.items| + (if s.q.sig then 3 else 0) + ReqRank(s.req) + PumpRank(s.pump)
  }

  lemma ConsumerStepLowersRank(c: nat, sh: Shared, s: Slot, a: Act)
    requires HandoffInv(s) && CanAct(sh, s, a) && ByConsumer(a)
    ensures Rank(DoAct(c, sh, s, a)) < Rank(s)
  {
    match a
    case Req(r) => ReqLowersRank(c, sh, s, r);
    case Wait(who, w) => WaitLowersRank(sh, s, who, w);
    case Pmp(p) => PumpLowersRank(c, sh, s, p);
  }

  lemma ReqLowersRank(c: nat, sh: Shared, s: Slot, a: ReqAct)
    requires HandoffInv(s) && CanReq(sh, s, a)
    ensures Rank(DoReq(c, sh, s, a)) < Rank(s)
  {}

  lemma PumpLowersRank(c: nat, sh: Shared, s: Slot, a: PumpAct)
    requires CanPump(sh, s, a)
    ensures Rank(DoPump(c, sh, s, a)) < Rank(s)
  {}

  lemma WaitLowersRank(sh: Shared, s: Slot, who: Who, w: WaitAct)
    requires HandoffInv(s) && CanWait(sh, s, who, w)
    ensures Rank(DoWait(sh, s, who, w)) < Rank(s)
  {}

  /** A step some goroutine of the request can take, if it is not finished and not kept waiting. */
  function NextAct(sh: Shared, s: Slot): Act {
    match s.req
    case RChecked => Req(Register)
    case RRegistered => Req(SendOk)
    case RArm => Req(StartReqTimer)
    case RWait(w) => Wait(Requester, NextWait(sh, w))
    case RGot(_) => Req(HandleFirst)
    case RStopped(_) => Req(ReleaseStopped)
    case RInspect(_) => Req(ReqReason(if sh.done then ByDone else if s.ctxDone then ByCtx else ByTimer))
    case RLeaving(_) => Req(ReleaseAndReturn)
    case RDone(_) =>
      match s.pump
      case PInit => Pmp(StartPumpTimer)
      case PWait(w) => Wait(Pump, NextWait(sh, w))
      case PGot(_) => Pmp(ResetTimer)
      case PReady(_) => Pmp(HandleFrame)
      case PWrite(rest, handed) => if PipeDone(s) then Pmp(WriteFail) else Pmp(WriteDone)
      case PStopped(_) => Pmp(PumpReason(if sh.done then ByDone else if CtxFired(s, Pump) then ByCtx else ByTimer))
      case _ => Pmp(PumpRelease)
  }

  function NextWait(sh: Shared, w: GoCaller.Wait): WaitAct {
    match w
    case Try => TryPop
    case Parked => TakeStop(if sh.done then ByDone else ByCtx)
    case LastTry(_) => LastPop
  }

  /** The pump is inside a pipe write that only the holder of the body can end. */
  ghost predicate AwaitsReader(s: Slot) {
    s.pump.PWrite? && !PipeDone(s) && !(s.pump.rest == [] && s.pump.handed)
  }

  /** Once Close, the context or the body's cancel function has fired, nothing waits for the network. */
  lemma StoppedNeverStuck(c: nat, sh: Shared, signalling: bool, s: Slot)
    requires Inv(c, sh, signalling, s) && Live(s)
    requires sh.done || (if s.req.RDone? then CtxFired(s, Pump) else s.ctxDone)
    ensures if AwaitsReader(s) then CanAct(sh, s, Use(Read(1)))
            else CanAct(sh, s, NextAct(sh, s)) && ByConsumer(NextAct(sh, s))
  {}

  predicate CanActs(c: nat, sh: Shared, s: Slot, acts: seq<Act>)
    decreases acts
  {
    acts == [] || (CanAct(sh, s, acts[0]) && CanActs(c, sh, DoAct(c, sh, s, acts[0]), acts[1..]))
  }

  function DoActs(c: nat, sh: Shared, s: Slot, acts: seq<Act>): Slot
    requires CanActs(c, sh, s, acts)
    decreases acts
  {
    if acts == [] then s else DoActs(c, sh, DoAct(c, sh, s, acts[0]), acts[1..])
  }

  /** How many of the steps are the request's own. */
  function Consumers(acts: seq<Act>): nat {
    if acts == [] then 0 else (if ByConsumer(acts[0]) then 1 else 0) + Consumers(acts[1..])
  }

  lemma UseKeepsRank(c: nat, sh: Shared, s: Slot, u: UserAct)
    requires CanAct(sh, s, Use(u))
    ensures Rank(DoAct(c, sh, s, Use(u))) == Rank(s)
  {}

  /** Frames move from the queue to popped and nowhere else. */
  lemma ActKeepsCount(c: nat, sh: Shared, s: Slot, a: Act)
    requires CanAct(sh, s, a)
    ensures var s' := DoAct(c, sh, s, a);
            |s'.q.popped| + |s'.q.items| == |s.q.popped| + |s.q.items|
  {
    match a
    case Wait(who, w) => WaitKeepsCount(sh, s, who, w);
    case _ =>
  }

  lemma WaitKeepsCount(sh: Shared, s: Slot, who: Who, w: WaitAct)
    requires CanWait(sh, s, who, w)
    ensures var s' := DoWait(sh, s, who, w);
            |s'.q.popped| + |s'.q.items| == |s.q.popped| + |s.q.items|
  {}

  lemma ActLowersRank(c: nat, sh: Shared, s: Slot, a: Act)
    requires HandoffInv(s) && CanAct(sh, s, a)
    ensures Rank(DoAct(c, sh, s, a)) + (if ByConsumer(a) then 1 else 0) <= Rank(s)
  {
    match a
    case Use(u) => UseKeepsRank(c, sh, s, u);
    case _ => ConsumerStepLowersRank(c, sh, s, a);
  }

  /** Close, the context or the body's cancel function has fired for the goroutine that is still there. */
  ghost predicate Stopped(sh: Shared, s: Slot) {
    sh.done || (if s.req.RDone? then CtxFired(s, Pump) else s.ctxDone)
  }

  lemma ActKeepsStops(c: nat, sh: Shared, s: Slot, a: Act)
    requires CanAct(sh, s, a)
    ensures var s' := DoAct(c, sh, s, a);
            (s.ctxDone ==> s'.ctxDone) && (s.cancelled ==> s'.cancelled) && (s.pipe.rclosed ==> s'.pipe.rclosed)
  {
    match a
    case Wait(who, w) => WaitKeepsStops(sh, s, who, w);
    case _ =>
  }

  lemma WaitKeepsStops(sh: Shared, s: Slot, who: Who, w: WaitAct)
    requires CanWait(sh, s, who, w)
    ensures var s' := DoWait(sh, s, who, w);
            s'.ctxDone == s.ctxDone && s'.cancelled == s.cancelled && s'.pipe == s.pipe
  {}

  lemma ActKeepsDone(c: nat, sh: Shared, s: Slot, a: Act)
    requires CanAct(sh, s, a) && s.req.RDone?
    ensures DoAct(c, sh, s, a).req == s.req
  {
    match a
    case Wait(who, w) => WaitKeepsDone(sh, s, who, w);
    case _ =>
  }

  lemma WaitKeepsDone(sh: Shared, s: Slot, who: Who, w: WaitAct)
    requires CanWait(sh, s, who, w) && s.req.RDone?
    ensures DoWait(sh, s, who, w).req == s.req
  {}

  lemma ActKeepsStopped(c: nat, sh: Shared, s: Slot, a: Act)
    requires CanAct(sh, s, a) && Stopped(sh, s)
    ensures Stopped(sh, DoAct(c, sh, s, a))
  {
    ActKeepsStops(c, sh, s, a);
    if s.req.RDone? { ActKeepsDone(c, sh, s, a); }
  }

  /**
   Once stopped, on every schedule of the goroutines, the reader, the timer and the context, if no more
   frames arrive: the request takes at most Rank(s) steps and pops at most the frames then queued, and
   until the slot is released it has a step to take or waits for its reader alone.
   */
  lemma {:induction false} StoppedReleases(c: nat, sh: Shared, signalling: bool, s: Slot, acts: seq<Act>)
    requires SharedInv(sh) && Inv(c, sh, signalling, s) && s.req != RChecked
    requires Stopped(sh, s) && CanActs(c, sh, s, acts)
    ensures var s' := DoActs(c, sh, s, acts);
            && Inv(c, sh, signalling, s') && Stopped(sh, s') && (s.pipe.rclosed ==> s'.pipe.rclosed)
            && Consumers(acts) + Rank(s') <= Rank(s)
            && |s'.q.popped| + |s'.q.items| == |s.q.popped| + |s.q.items|
            && if !Live(s') then !s'.registered
               else if AwaitsReader(s') then CanAct(sh, s', Use(Read(1)))
               else CanAct(sh, s', NextAct(sh, s')) && ByConsumer(NextAct(sh, s'))
    decreases acts
  {
    if acts == [] {
      if Live(s) { StoppedNeverStuck(c, sh, signalling, s); }
    } else {
      ActKeepsInv(c, sh, signalling, s, acts[0]);
      ActKeepsStopped(c, sh, s, acts[0]);
      ActKeepsStops(c, sh, s, acts[0]);
      ActLeavesChecked(c, sh, s, acts[0]);
      ActLowersRank(c, sh, s, acts[0]);
      ActKeepsCount(c, sh, s, acts[0]);
      StoppedReleases(c, sh, signalling, DoAct(c, sh, s, acts[0]), acts[1..]);
    }
  }

  /** Cancelling the context stops a request that has not answered, or whose body is still being pumped. */
  lemma CancelReleases(c: nat, sh: Shared, signalling: bool, s: Slot, acts: seq<Act>)
    requires SharedInv(sh) && Inv(c, sh, signalling, s) && s.req != RChecked
    requires CanActs(c, sh, DoAct(c, sh, s, Use(CancelCtx)), acts)
    ensures var s' := DoActs(c, sh, DoAct(c, sh, s, Use(CancelCtx)), acts);
            && Consumers(acts) + Rank(s') <= Rank(s)
            && if !Live(s') then !s'.registered
               else if AwaitsReader(s') then CanAct(sh, s', Use(Read(1)))
               else CanAct(sh, s', NextAct(sh, s')) && ByConsumer(NextAct(sh, s'))
  {
    var s1 := DoAct(c, sh, s, Use(CancelCtx));
    ActKeepsInv(c, sh, signalling, s, Use(CancelCtx));
    UseKeepsRank(c, sh, s, CancelCtx);
    StoppedReleases(c, sh, signalling, s1, acts);
  }

  /** Nobody else calling, the steps of Close(err) follow one another and leave its error behind. */
  lemma CloseTakesEffect(sh: Shared, err: Option<CloseErr>)
    requires SharedInv(sh) && sh.once.NotRun?
    ensures var sh1 := DoShare(sh, CloseEnter(err));
            && CanShare(sh1, CloseSetErr) && CanShare(DoShare(sh1, CloseSetErr), CloseDone)
            && var sh3 := DoShare(DoShare(sh1, CloseSetErr), CloseDone);
               sh3.done && sh3.now == sh.now
               && sh3.closeErr == if err == None then Some(TransportClosed) else err
  {}

  /** And the last of them stops every request. */
  lemma CloseReleases(c: nat, sh: Shared, signalling: bool, s: Slot, acts: seq<Act>)
    requires SharedInv(sh) && CanShare(sh, CloseDone) && Inv(c, sh, signalling, s) && s.req != RChecked
    requires CanActs(c, DoShare(sh, CloseDone), s, acts)
    ensures var sh' := DoShare(sh, CloseDone);
            var s' := DoActs(c, sh', s, acts);
            && Consumers(acts) + Rank(s') <= Rank(s)
            && if !Live(s') then !s'.registered
               else if AwaitsReader(s') then CanAct(sh', s', Use(Read(1)))
               else CanAct(sh', s', NextAct(sh', s')) && ByConsumer(NextAct(sh', s'))
  {
    SharedKeeps(sh, CloseDone);
    SharedStepKeepsInv(c, sh, CloseDone, signalling, s);
    StoppedReleases(c, DoShare(sh, CloseDone), signalling, s, acts);
  }

  /** The two steps of Body.Close. */
  function CloseBody(c: nat, sh: Shared, s: Slot): Slot
    requires Holder(s) && s.req.o.GotStream?
  {
    DoAct(c, sh, DoAct(c, sh, s, Use(BodyCancel)), Use(BodyClose))
  }

  /**
   After Body.Close, on every schedule and if no more frames arrive, the pump does not even wait for the
   reader: it takes at most Rank(s) steps, and has one to take until it is done and the slot released.
   */
  lemma BodyCloseReleases(c: nat, sh: Shared, signalling: bool, s: Slot, acts: seq<Act>)
    requires SharedInv(sh) && Inv(c, sh, signalling, s) && Holder(s) && s.req.o.GotStream?
    requires CanActs(c, sh, CloseBody(c, sh, s), acts)
    ensures var s' := DoActs(c, sh, CloseBody(c, sh, s), acts);
            && Consumers(acts) + Rank(s') <= Rank(s)
            && |s'.q.popped| + |s'.q.items| == |s.q.popped| + |s.q.items|
            && if s'.pump.PDone? then !s'.registered
               else CanAct(sh, s', NextAct(sh, s')) && ByConsumer(NextAct(sh, s'))
  {
    var s1 := DoAct(c, sh, s, Use(BodyCancel));
    ActKeepsInv(c, sh, signalling, s, Use(BodyCancel));
    ActKeepsInv(c, sh, signalling, s1, Use(BodyClose));
    StoppedReleases(c, sh, signalling, CloseBody(c, sh, s), acts);
  }
}
