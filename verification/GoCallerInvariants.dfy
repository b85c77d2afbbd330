/**
 What every step of one request keeps: queue histories, the wakeup argument, the hand-off of
 the queue from Request to the pump, the timer, and the agreement of everything the holder of
 the response can observe with Interpret of the frames taken from the queue.
 */
module GoCallerInvariants {
  import opened Protocol
  import opened GoCaller

  // ----- the parts of the invariant -----

  /** Nothing is lost or reordered between append and pop. */
  ghost predicate QueueInv(s: Slot) { s.q.popped + s.q.items == s.q.pushed }

  ghost predicate IsParked(s: Slot) { WaitOf(s, Requester) == Some(Parked) || WaitOf(s, Pump) == Some(Parked) }

  /** A parked consumer with work has its signal pending or on the way. */
  ghost predicate WakeInv(signalling: bool, s: Slot) {
    IsParked(s) && s.q.items != [] ==> s.q.sig || signalling
  }

  /** The pump exists exactly when Request returned a stream: the queue has one consumer. */
  ghost predicate HandoffInv(s: Slot) {
    && (s.pump != PNone <==> s.req.RDone? && s.req.o.GotStream?)
    && (s.cancelled ==> s.req.RDone? && s.req.o.GotStream?)
    && (s.pipe.rclosed ==> s.cancelled)
    && (s.pipe.werr.Some? ==> s.pump == PExit || s.pump == PDone)
  }

  /** The goroutines that will still release the slot. */
  ghost predicate Live(s: Slot) {
    || s.req.RRegistered? || s.req.RArm? || s.req.RWait? || s.req.RGot? || s.req.RStopped? || s.req.RLeaving?
    || !(s.pump.PNone? || s.pump.PDone?)
  }

  ghost predicate SlotInv(s: Slot) { s.registered <==> Live(s) }

  /** What a stop branch taken in wait still guarantees. */
  ghost predicate StopInv(c: nat, sh: Shared, s: Slot, who: Who, why: Stop) {
    match why
    case ByDone => sh.done
    case ByCtx => CtxFired(s, who)
    case ByTimer => 0 < c && s.clock.resetAt + c <= sh.now
  }

  /** ErrReadTimeout was returned by Request or given to the pipe. */
  ghost predicate GaveTimeout(s: Slot) {
    s.req == RDone(Failed(ReadTimeout)) || s.pipe.werr == Some(Broken(ReadTimeout))
  }

  /** The goroutine has taken no frame since it last started its timer. */
  ghost predicate SinceReset(s: Slot) {
    s.req.RWait? || s.req.RStopped? || s.req.RInspect? || s.pump.PWait? || s.pump.PStopped? || s.pump.PWrite?
    || s.pump.PReady? || GaveTimeout(s)
  }

  /** The goroutine counts on its timer to end its wait. */
  ghost predicate Watching(s: Slot) {
    || (s.req.RWait? && !s.req.w.LastTry?) || (s.pump.PWait? && !s.pump.w.LastTry?)
    || s.pump.PReady? || s.pump.PWrite?
  }

  ghost predicate TimerInv(c: nat, sh: Shared, s: Slot) {
    && s.clock.lastArrival <= sh.now && s.clock.resetAt <= sh.now
    && (s.clock.timer.Armed? ==> 0 < c && s.clock.timer.at == s.clock.resetAt + c)
    && (s.clock.timer.Fired? ==> 0 < c && s.clock.resetAt + c <= sh.now)
    && (SinceReset(s) && s.q.items == [] ==> s.clock.lastArrival <= s.clock.resetAt)
    && (0 < c && Watching(s) ==> !s.clock.timer.Off?)
    && (s.req.RWait? && s.req.w.LastTry? ==> StopInv(c, sh, s, Requester, s.req.w.why))
    && (s.req.RStopped? ==> StopInv(c, sh, s, Requester, s.req.why))
    && (s.req.RInspect? ==> StopInv(c, sh, s, Requester, s.req.why))
    && (s.pump.PWait? && s.pump.w.LastTry? ==> StopInv(c, sh, s, Pump, s.pump.w.why))
    && (s.pump.PStopped? ==> StopInv(c, sh, s, Pump, s.pump.why))
  }

  ghost predicate SharedInv(sh: Shared) {
    && (sh.closeErr.Some? ==> sh.once != NotRun)
    && (sh.once.Running? && sh.closeErr.Some? ==> sh.closeErr.value == sh.once.err)
    && (sh.done ==> sh.closeErr.Some?)
    && (sh.done <==> sh.once.Ran?)
  }

  /** A failure that does not come from a frame has its cause: each value stands for the stop it names. */
  ghost predicate StopFailure(c: nat, sh: Shared, s: Slot, who: Who, f: Failure) {
    match f
    case Closed(err) => sh.done && err == sh.closeErr
    case ContextDone => CtxFired(s, who)
    case ReadTimeout => 0 < c && s.clock.resetAt + c <= sh.now
    case _ => false
  }

  /** What Request returns for a first frame that does not start a stream. */
  function OutcomeOf(v: View): Outcome {
    match v
    case Whole(h, b) => GotWhole(h, b)
    case Streaming(h, _, _) => GotStream(h)
    case Refused(f) => Failed(f)
    case Nothing => Failed(SendFailed)
  }

  ghost predicate RequestView(c: nat, sh: Shared, s: Slot) {
    match s.req
    case RChecked => s.q.popped == [] && s.q.pushed == []
    case RRegistered => s.q.popped == []
    case RArm => s.q.popped == []
    case RWait(_) => s.q.popped == []
    case RStopped(_) => s.q.popped == []
    case RInspect(_) => s.q.popped == []
    case RGot(f) => s.q.popped == [f]
    case RLeaving(o) => Answered(c, sh, s, o) && !o.GotStream? && (s.q.popped == [] ==> o == Failed(SendFailed))
    case RDone(o) => Answered(c, sh, s, o)
  }

  ghost predicate Answered(c: nat, sh: Shared, s: Slot, o: Outcome) {
    if s.q.popped == [] then o.Failed? && (o.why == SendFailed || StopFailure(c, sh, s, Requester, o.why))
    else OutcomeOf(Interpret(s.q.popped)) == o && (!o.GotStream? ==> |s.q.popped| == 1)
  }

  /** The stream read so far, over all frames popped after Start. */
  ghost predicate StreamIs(s: Slot, body: Bytes, e: Ending) {
    1 <= |s.q.popped| && StreamBody(s.q.popped[1..]) == (body, e)
  }

  /** As StreamIs, but the last frame is still in the pump's hand. */
  ghost predicate InHand(s: Slot, f: Frame) {
    && 2 <= |s.q.popped| && s.q.popped[|s.q.popped| - 1] == f
    && StreamBody(s.q.popped[1..|s.q.popped| - 1]) == (s.pipe.delivered, Open)
  }

  /** The caller was closed with io.EOF. */
  ghost predicate ClosedByEof(sh: Shared) { sh.done && sh.closeErr == Some(IoEof) }

  ghost predicate PipeClosed(c: nat, sh: Shared, s: Slot) {
    match s.pipe.werr
    case Some(Eof) =>
      StreamIs(s, s.pipe.delivered, CleanEof) || (StreamIs(s, s.pipe.delivered, Open) && ClosedByEof(sh))
    case Some(Broken(f)) =>
      if FromFrames(f) then StreamIs(s, s.pipe.delivered, Broke(f))
      else StreamIs(s, s.pipe.delivered, Open) && StopFailure(c, sh, s, Pump, f)
    case None =>
      s.pipe.rclosed && 1 <= |s.q.popped|
      && StreamBody(s.q.popped[1..]).1 == Open && s.pipe.delivered <= StreamBody(s.q.popped[1..]).0
  }

  ghost predicate PumpView(c: nat, sh: Shared, s: Slot) {
    match s.pump
    case PNone => true
    case PInit => |s.q.popped| == 1 && s.pipe.delivered == []
    case PWait(_) => StreamIs(s, s.pipe.delivered, Open)
    case PGot(f) => InHand(s, f)
    case PReady(f) => InHand(s, f)
    case PWrite(rest, _) => StreamIs(s, s.pipe.delivered + rest, Open)
    case PStopped(_) => StreamIs(s, s.pipe.delivered, Open)
    case PExit => PipeClosed(c, sh, s)
    case PDone => PipeClosed(c, sh, s)
  }

  ghost predicate ReaderView(s: Slot) {
    && (!Holder(s) ==> s.pipe.delivered == [] && !s.pipe.sawEof && s.pipe.sawErr.None?)
    && (Holder(s) && s.req.o.GotWhole? ==>
          s.pipe.delivered <= s.req.o.body && s.pipe.sawErr.None?
          && (s.pipe.sawEof ==> s.pipe.delivered == s.req.o.body))
    && (Holder(s) && s.req.o.GotStream? ==>
          (s.pipe.sawEof ==> s.pipe.werr == Some(Eof))
          && (s.pipe.sawErr.Some? ==> s.pipe.werr == Some(Broken(s.pipe.sawErr.value))))
  }

  ghost predicate Inv(c: nat, sh: Shared, signalling: bool, s: Slot) {
    && QueueInv(s) && WakeInv(signalling, s) && HandoffInv(s) && SlotInv(s) && TimerInv(c, sh, s)
    && RequestView(c, sh, s) && PumpView(c, sh, s) && ReaderView(s)
  }

  // ----- every step keeps them -----

  lemma NewSlotInv(c: nat, sh: Shared)
    requires SharedInv(sh)
    ensures Inv(c, sh, false, NewSlot(sh))
  {}

  lemma SharedKeeps(sh: Shared, a: SharedAct)
    requires SharedInv(sh) && CanShare(sh, a)
    ensures SharedInv(DoShare(sh, a))
    ensures sh.closeErr.Some? ==> DoShare(sh, a).closeErr == sh.closeErr
    ensures sh.done ==> DoShare(sh, a).done
  {}

  lemma SharedStepKeepsInv(c: nat, sh: Shared, a: SharedAct, signalling: bool, s: Slot)
    requires SharedInv(sh) && CanShare(sh, a) && Inv(c, sh, signalling, s)
    ensures Inv(c, DoShare(sh, a), signalling, s)
  {
    SharedKeeps(sh, a);
  }

  lemma AppendKeepsControl(c: nat, sh: Shared, s: Slot, f: Frame)
    requires HandoffInv(s) && SlotInv(s) && TimerInv(c, sh, s)
    ensures var s' := Append(sh, s, f);
            WakeInv(true, s') && HandoffInv(s') && SlotInv(s') && TimerInv(c, sh, s')
  {}

  lemma AppendKeepsView(c: nat, sh: Shared, s: Slot, f: Frame)
    requires RequestView(c, sh, s) && PumpView(c, sh, s) && ReaderView(s) && s.req != RChecked
    ensures var s' := Append(sh, s, f);
            RequestView(c, sh, s') && PumpView(c, sh, s') && ReaderView(s')
  {}

  lemma AppendKeepsInv(c: nat, sh: Shared, s: Slot, f: Frame)
    requires Inv(c, sh, false, s) && s.req != RChecked
    ensures Inv(c, sh, true, Append(sh, s, f))
  {
    AppendKeepsControl(c, sh, s, f);
    AppendKeepsView(c, sh, s, f);
    assert s.q.popped + (s.q.items + [f]) == (s.q.popped + s.q.items) + [f];
  }

  lemma SignalKeepsInv(c: nat, sh: Shared, s: Slot)
    requires Inv(c, sh, true, s)
    ensures Inv(c, sh, false, Signal(s))
  {}

  lemma PopKeepsQueue(s: Slot, who: Who)
    requires QueueInv(s) && s.q.items != []
    ensures QueueInv(Pop(s, who))
  {
    var q := s.q.items;
    assert (s.q.popped + [q[0]]) + q[1..] == s.q.popped + ([q[0]] + q[1..]);
    assert [q[0]] + q[1..] == q;
  }

  lemma ReqKeeps(c: nat, sh: Shared, signalling: bool, s: Slot, a: ReqAct)
    requires SharedInv(sh) && Inv(c, sh, signalling, s) && CanReq(sh, s, a)
    ensures Inv(c, sh, signalling, DoReq(c, sh, s, a))
  {}

  lemma SnocTail(popped: seq<Frame>, f: Frame)
    requires 1 <= |popped|
    ensures var p := popped + [f]; p[|p| - 1] == f && p[1..|p| - 1] == popped[1..] && p[0] == popped[0]
  {}

  lemma PopKeepsPumpView(c: nat, sh: Shared, s: Slot, who: Who)
    requires HandoffInv(s) && PumpView(c, sh, s) && WaitOf(s, who).Some?
    ensures s.q.items != [] ==> PumpView(c, sh, Pop(s, who))
  {
    if s.q.items != [] && who.Pump? {
      SnocTail(s.q.popped, s.q.items[0]);
      assert InHand(Pop(s, who), s.q.items[0]);
    }
  }

  lemma PopKeepsControl(c: nat, sh: Shared, signalling: bool, s: Slot, who: Who)
    requires HandoffInv(s) && WakeInv(signalling, s) && SlotInv(s) && TimerInv(c, sh, s)
    requires s.q.items != [] && WaitOf(s, who).Some?
    ensures var s' := Pop(s, who);
            HandoffInv(s') && WakeInv(signalling, s') && SlotInv(s') && TimerInv(c, sh, s')
  {}

  lemma PopKeepsRequest(c: nat, sh: Shared, s: Slot, who: Who)
    requires HandoffInv(s) && RequestView(c, sh, s) && PumpView(c, sh, s) && ReaderView(s)
    requires s.q.items != [] && WaitOf(s, who).Some?
    ensures RequestView(c, sh, Pop(s, who)) && ReaderView(Pop(s, who))
  {
    if who.Pump? { SnocTail(s.q.popped, s.q.items[0]); }
  }

  lemma PopKeeps(c: nat, sh: Shared, signalling: bool, s: Slot, who: Who)
    requires Inv(c, sh, signalling, s) && s.q.items != [] && WaitOf(s, who).Some?
    ensures Inv(c, sh, signalling, Pop(s, who))
  {
    PopKeepsQueue(s, who);
    PopKeepsPumpView(c, sh, s, who);
    PopKeepsControl(c, sh, signalling, s, who);
    PopKeepsRequest(c, sh, s, who);
  }

  lemma SetWaitKeeps(c: nat, sh: Shared, signalling: bool, s: Slot, who: Who, w: Wait)
    requires Inv(c, sh, signalling, s) && WaitOf(s, who).Some? && !WaitOf(s, who).value.LastTry?
    requires w == Parked ==> s.q.items == []
    requires w.LastTry? ==> StopInv(c, sh, s, who, w.why)
    ensures Inv(c, sh, signalling, SetWait(s, who, w))
  {}

  lemma GiveUpKeeps(c: nat, sh: Shared, signalling: bool, s: Slot, who: Who, why: Stop)
    requires Inv(c, sh, signalling, s) && WaitOf(s, who) == Some(LastTry(why))
    ensures Inv(c, sh, signalling, GiveUp(s, who, why))
  {}

  lemma SignalTaken(c: nat, sh: Shared, signalling: bool, s: Slot, who: Who)
    requires Inv(c, sh, signalling, s) && CanWait(sh, s, who, TakeSignal)
    ensures Inv(c, sh, signalling, DoWait(sh, s, who, TakeSignal))
  {
    SetWaitKeeps(c, sh, signalling, s, who, Try);
    assert !IsParked(SetWait(s, who, Try));
  }

  lemma StopTaken(c: nat, sh: Shared, signalling: bool, s: Slot, who: Who, why: Stop)
    requires Inv(c, sh, signalling, s) && CanWait(sh, s, who, TakeStop(why))
    ensures Inv(c, sh, signalling, DoWait(sh, s, who, TakeStop(why)))
  {
    assert StopInv(c, sh, s, who, why);
    SetWaitKeeps(c, sh, signalling, s, who, LastTry(why));
  }

  lemma WaitKeeps(c: nat, sh: Shared, signalling: bool, s: Slot, who: Who, a: WaitAct)
    requires SharedInv(sh) && Inv(c, sh, signalling, s) && CanWait(sh, s, who, a)
    ensures Inv(c, sh, signalling, DoWait(sh, s, who, a))
  {
    match a
    case TryPop =>
      if s.q.items != [] { PopKeeps(c, sh, signalling, s, who); }
      else { SetWaitKeeps(c, sh, signalling, s, who, Parked); }
    case TakeSignal => SignalTaken(c, sh, signalling, s, who);
    case TakeStop(why) => StopTaken(c, sh, signalling, s, who, why);
    case LastPop =>
      if s.q.items != [] { PopKeeps(c, sh, signalling, s, who); }
      else { GiveUpKeeps(c, sh, signalling, s, who, WaitOf(s, who).value.why); }
  }

  /** The frame in hand joins the stream: what the pump does with it is what StreamBody says. */
  lemma FrameJoinsStream(s: Slot, f: Frame)
    requires InHand(s, f)
    ensures StreamBody(s.q.popped[1..]) ==
            (s.pipe.delivered + StreamBody([f]).0, StreamBody([f]).1)
  {
    var n := |s.q.popped|;
    assert s.q.popped[1..] == s.q.popped[1..n - 1] + [f];
    StreamBodyAppend(s.q.popped[1..n - 1], [f]);
  }

  lemma SingleFrame(f: Frame)
    ensures StreamBody([f]) ==
            match f
            case Chunk(Some(d)) => (d, Open)
            case Chunk(None) => ([], Broke(BadPayload))
            case End => ([], CleanEof)
            case Error(Some(i)) => ([], Broke(Remote(i)))
            case Error(None) => ([], Broke(BadPayload))
            case _ => ([], Open)
  {
    assert [f][1..] == [];
    if f.Chunk? && f.data.Some? { assert f.data.value + [] == f.data.value; }
  }

  lemma PumpKeepsView(c: nat, sh: Shared, s: Slot, a: PumpAct)
    requires HandoffInv(s) && PumpView(c, sh, s) && TimerInv(c, sh, s) && SharedInv(sh) && CanPump(sh, s, a)
    ensures PumpView(c, sh, DoPump(c, sh, s, a))
  {
    match a
    case HandleFrame =>
      FrameJoinsStream(s, s.pump.f);
      SingleFrame(s.pump.f);
      assert s.pipe.delivered + [] == s.pipe.delivered;
    case WriteDone => assert s.pipe.delivered + [] == s.pipe.delivered;
    case StartPumpTimer => assert s.q.popped[1..] == [];
    case _ =>
  }

  lemma PumpKeepsControl(c: nat, sh: Shared, signalling: bool, s: Slot, a: PumpAct)
    requires HandoffInv(s) && WakeInv(signalling, s) && SlotInv(s) && TimerInv(c, sh, s) && CanPump(sh, s, a)
    ensures var s' := DoPump(c, sh, s, a);
            HandoffInv(s') && WakeInv(signalling, s') && SlotInv(s') && TimerInv(c, sh, s')
  {}

  lemma PumpKeepsReader(c: nat, sh: Shared, s: Slot, a: PumpAct)
    requires HandoffInv(s) && RequestView(c, sh, s) && ReaderView(s) && CanPump(sh, s, a)
    ensures var s' := DoPump(c, sh, s, a); RequestView(c, sh, s') && ReaderView(s')
  {}

  lemma PumpKeeps(c: nat, sh: Shared, signalling: bool, s: Slot, a: PumpAct)
    requires SharedInv(sh) && Inv(c, sh, signalling, s) && CanPump(sh, s, a)
    ensures Inv(c, sh, signalling, DoPump(c, sh, s, a))
  {
    PumpKeepsView(c, sh, s, a);
    PumpKeepsControl(c, sh, signalling, s, a);
    PumpKeepsReader(c, sh, s, a);
  }

  lemma ReadKeepsView(c: nat, sh: Shared, s: Slot, n: nat)
    requires HandoffInv(s) && RequestView(c, sh, s) && PumpView(c, sh, s) && ReaderView(s) && CanUse(sh, s, Read(n))
    ensures PumpView(c, sh, DoUse(sh, s, Read(n))) && ReaderView(DoUse(sh, s, Read(n)))
  {
    if s.req.o.GotStream? {
      var (got, rest) := Take(s.pump.rest, n);
      assert s.pipe.delivered + s.pump.rest == (s.pipe.delivered + got) + rest;
    }
  }

  lemma UseKeepsHandoff(sh: Shared, signalling: bool, s: Slot, a: UserAct)
    requires HandoffInv(s) && WakeInv(signalling, s) && SlotInv(s) && CanUse(sh, s, a)
    ensures var s' := DoUse(sh, s, a);
            HandoffInv(s') && WakeInv(signalling, s') && SlotInv(s')
  {}

  lemma UseKeepsTimer(c: nat, sh: Shared, s: Slot, a: UserAct)
    requires TimerInv(c, sh, s) && CanUse(sh, s, a)
    ensures TimerInv(c, sh, DoUse(sh, s, a))
  {}

  lemma UseKeepsView(c: nat, sh: Shared, s: Slot, a: UserAct)
    requires HandoffInv(s) && RequestView(c, sh, s) && PumpView(c, sh, s) && ReaderView(s) && CanUse(sh, s, a)
    ensures PumpView(c, sh, DoUse(sh, s, a)) && ReaderView(DoUse(sh, s, a))
  {
    match a
    case Read(n) => ReadKeepsView(c, sh, s, n);
    case _ =>
  }

  lemma UseKeeps(c: nat, sh: Shared, signalling: bool, s: Slot, a: UserAct)
    requires Inv(c, sh, signalling, s) && CanUse(sh, s, a)
    ensures Inv(c, sh, signalling, DoUse(sh, s, a))
  {
    UseKeepsHandoff(sh, signalling, s, a);
    UseKeepsTimer(c, sh, s, a);
    UseKeepsView(c, sh, s, a);
  }

  lemma ActKeepsInv(c: nat, sh: Shared, signalling: bool, s: Slot, a: Act)
    requires SharedInv(sh) && Inv(c, sh, signalling, s) && CanAct(sh, s, a)
    ensures Inv(c, sh, signalling, DoAct(c, sh, s, a))
  {
    match a
    case Req(r) => ReqKeeps(c, sh, signalling, s, r);
    case Wait(who, w) => WaitKeeps(c, sh, signalling, s, who, w);
    case Pmp(p) => PumpKeeps(c, sh, signalling, s, p);
    case Use(u) => UseKeeps(c, sh, signalling, s, u);
  }
}
