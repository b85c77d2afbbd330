/**
 One request of the Go caller as a labelled transition system: its frame queue, the
 Request goroutine, the pump goroutine, their timers, and the pipe the reader holds.
 Every label is one atomic step of golang/client/client.go.
 */
module GoCaller {
  import opened Protocol

  const DEFAULT_READ_TIMEOUT: nat := 30

  /** Caller.readTimeout: negative means none (0 below), zero means the default. */
  function EffectiveTimeout(configured: int): nat {
    if configured < 0 then 0 else if configured == 0 then DEFAULT_READ_TIMEOUT else configured
  }

  // ----- what all requests of one caller share -----

  /** closeOnce: inside Do the first error is already chosen. */
  datatype Once = NotRun | Running(err: CloseErr) | Ran

  datatype Shared = Shared(now: nat, once: Once, closeErr: Option<CloseErr>, done: bool)

  const FRESH := Shared(0, NotRun, None, false)

  datatype SharedAct = Tick | CloseEnter(err: Option<CloseErr>) | CloseSetErr | CloseDone

  predicate CanShare(sh: Shared, a: SharedAct) {
    match a
    case Tick => true
    case CloseEnter(_) => true
    case CloseSetErr => sh.once.Running? && sh.closeErr.None?
    case CloseDone => sh.once.Running? && sh.closeErr.Some?
  }

  function DoShare(sh: Shared, a: SharedAct): Shared
    requires CanShare(sh, a)
  {
    match a
    case Tick => sh.(now := sh.now + 1)
    case CloseEnter(e) =>
      if sh.once != NotRun then sh
      else sh.(once := Running(if e.None? then TransportClosed else e.value))
    case CloseSetErr => sh.(closeErr := Some(sh.once.err))
    case CloseDone => sh.(done := true, once := Ran)
  }

  // ----- one request -----

  datatype Who = Requester | Pump

  /** The stop channels of wait. */
  datatype Stop = ByDone | ByCtx | ByTimer

  /** Where a goroutine is inside frameQueue.wait. */
  datatype Wait = Try | Parked | LastTry(why: Stop)

  /** What Request returns. */
  datatype Outcome = Failed(why: Failure) | GotWhole(head: Head, body: Bytes) | GotStream(head: Head)

  datatype ReqPC =
    | RChecked              // done was not closed; about to register
    | RRegistered           // in pending; about to encode and send
    | RArm                  // sent; about to start the timer
    | RWait(w: Wait)
    | RGot(f: Frame)        // wait returned a frame
    | RStopped(why: Stop)   // wait returned false
    | RInspect(why: Stop)   // slot released; about to find out why
    | RLeaving(o: Outcome)  // about to release the slot and return o
    | RDone(o: Outcome)

  datatype PumpPC =
    | PNone
    | PInit
    | PWait(w: Wait)
    | PGot(f: Frame)        // wait returned a frame; timer not yet reset
    | PReady(f: Frame)      // timer reset; about to act on the frame
    | PWrite(rest: Bytes, handed: bool)  // inside pw.Write
    | PStopped(why: Stop)   // wait returned false
    | PExit                 // about to run the deferred removePending
    | PDone

  datatype Timer = Off | Armed(at: nat) | Fired

  datatype PipeEnd = Eof | Broken(why: Failure)

  /** frameQueue; pushed and popped are its history. */
  datatype Queue = Queue(items: seq<Frame>, sig: bool, pushed: seq<Frame>, popped: seq<Frame>)

  /** The timer in use, when it was last started, and when the last frame was appended (or the request sent). */
  datatype Clock = Clock(timer: Timer, resetAt: nat, lastArrival: nat)

  /** The pipe's two closed marks, and what the holder of the body has observed. */
  datatype Pipe = Pipe(werr: Option<PipeEnd>, rclosed: bool, delivered: Bytes, sawEof: bool, sawErr: Option<Failure>)

  /** registered: the key is in Caller.pending. ctxDone: the caller's context. cancelled: the body's cancel function. */
  datatype Slot = Slot(q: Queue, registered: bool, req: ReqPC, pump: PumpPC, clock: Clock,
                       ctxDone: bool, cancelled: bool, pipe: Pipe)

  const NEW_QUEUE := Queue([], false, [], [])
  const NEW_PIPE := Pipe(None, false, [], false, None)

  /** Request after its first look at done. */
  function NewSlot(sh: Shared): Slot {
    Slot(NEW_QUEUE, false, if sh.done then RDone(Failed(Closed(sh.closeErr))) else RChecked, PNone,
         Clock(Off, 0, 0), false, false, NEW_PIPE)
  }

  // ----- steps of the Request goroutine outside wait -----

  datatype ReqAct =
    | Register | SendFail | SendOk | StartReqTimer | HandleFirst
    | ReleaseAndReturn | ReleaseStopped | ReqReason(why: Stop)

  predicate CtxFired(s: Slot, who: Who) { s.ctxDone || (who.Pump? && s.cancelled) }

  /** The second select: done and ctx in any order when ready, the default only when neither is. */
  predicate ReasonMatches(sh: Shared, s: Slot, who: Who, why: Stop) {
    match why
    case ByDone => sh.done
    case ByCtx => CtxFired(s, who)
    case ByTimer => !sh.done && !CtxFired(s, who)
  }

  function ReasonFailure(sh: Shared, why: Stop): Failure {
    match why
    case ByDone => Closed(sh.closeErr)
    case ByCtx => ContextDone
    case ByTimer => ReadTimeout
  }

  predicate CanReq(sh: Shared, s: Slot, a: ReqAct) {
    match a
    case Register => s.req.RChecked?
    case SendFail => s.req.RRegistered?
    case SendOk => s.req.RRegistered?
    case StartReqTimer => s.req.RArm?
    case HandleFirst => s.req.RGot?
    case ReleaseAndReturn => s.req.RLeaving?
    case ReleaseStopped => s.req.RStopped?
    case ReqReason(why) => s.req.RInspect? && ReasonMatches(sh, s, Requester, why)
  }

  function Restart(c: nat, now: nat, k: Clock): Clock {
    k.(timer := if c > 0 then Armed(now + c) else Off, resetAt := now)
  }

  /** Where Request goes with its first frame. */
  function FirstPC(f: Frame): ReqPC {
    match f
    case Response(Some(p)) => RLeaving(GotWhole(p.0, p.1))
    case Response(None) => RLeaving(Failed(BadPayload))
    case Start(Some(h)) => RDone(GotStream(h))
    case Start(None) => RLeaving(Failed(BadPayload))
    case Error(Some(i)) => RLeaving(Failed(Remote(i)))
    case Error(None) => RLeaving(Failed(BadPayload))
    case _ => RLeaving(Failed(Unexpected))
  }

  function DoReq(c: nat, sh: Shared, s: Slot, a: ReqAct): Slot
    requires CanReq(sh, s, a)
  {
    match a
    case Register => s.(req := RRegistered, registered := true)
    case SendFail => s.(req := RLeaving(Failed(SendFailed)))
    case SendOk => s.(req := RArm, clock := s.clock.(lastArrival := sh.now))
    case StartReqTimer => s.(req := RWait(Try), clock := Restart(c, sh.now, s.clock))
    case HandleFirst =>
      var pc := FirstPC(s.req.f);
      s.(req := pc, pump := if pc.RDone? then PInit else PNone, clock := s.clock.(timer := Off))
    case ReleaseAndReturn => s.(req := RDone(s.req.o), registered := false)
    case ReleaseStopped =>
      s.(req := RInspect(s.req.why), registered := false, clock := s.clock.(timer := Off))
    case ReqReason(why) => s.(req := RDone(Failed(ReasonFailure(sh, why))))
  }

  // ----- steps inside wait, for whichever goroutine is in it -----

  datatype WaitAct = TryPop | TakeSignal | TakeStop(why: Stop) | LastPop

  function WaitOf(s: Slot, who: Who): Option<Wait> {
    match who
    case Requester => if s.req.RWait? then Some(s.req.w) else None
    case Pump => if s.pump.PWait? then Some(s.pump.w) else None
  }

  predicate StopReady(sh: Shared, s: Slot, who: Who, why: Stop) {
    match why
    case ByDone => sh.done
    case ByCtx => CtxFired(s, who)
    case ByTimer => s.clock.timer.Fired?
  }

  predicate CanWait(sh: Shared, s: Slot, who: Who, a: WaitAct) {
    match a
    case TryPop => WaitOf(s, who) == Some(Try)
    case TakeSignal => WaitOf(s, who) == Some(Parked) && s.q.sig
    case TakeStop(why) => WaitOf(s, who) == Some(Parked) && StopReady(sh, s, who, why)
    case LastPop => WaitOf(s, who).Some? && WaitOf(s, who).value.LastTry?
  }

  function SetWait(s: Slot, who: Who, w: Wait): Slot {
    match who case Requester => s.(req := RWait(w)) case Pump => s.(pump := PWait(w))
  }

  /** wait returns the frame at the head of the queue. */
  function Pop(s: Slot, who: Who): Slot
    requires s.q.items != []
  {
    var f := s.q.items[0];
    var s' := s.(q := s.q.(items := s.q.items[1..], popped := s.q.popped + [f]));
    match who case Requester => s'.(req := RGot(f)) case Pump => s'.(pump := PGot(f))
  }

  /** wait returns false. */
  function GiveUp(s: Slot, who: Who, why: Stop): Slot {
    match who case Requester => s.(req := RStopped(why)) case Pump => s.(pump := PStopped(why))
  }

  function DoWait(sh: Shared, s: Slot, who: Who, a: WaitAct): Slot
    requires CanWait(sh, s, who, a)
  {
    match a
    case TryPop => if s.q.items != [] then Pop(s, who) else SetWait(s, who, Parked)
    case TakeSignal => SetWait(s.(q := s.q.(sig := false)), who, Try)
    case TakeStop(why) =>
      SetWait(if why.ByTimer? then s.(clock := s.clock.(timer := Off)) else s, who, LastTry(why))
    case LastPop => if s.q.items != [] then Pop(s, who) else GiveUp(s, who, WaitOf(s, who).value.why)
  }

  // ----- steps of the pump goroutine outside wait -----

  datatype PumpAct =
    | StartPumpTimer | ResetTimer | HandleFrame | WriteDone | WriteFail | PumpReason(why: Stop) | PumpRelease

  predicate PipeDone(s: Slot) { s.pipe.werr.Some? || s.pipe.rclosed }

  predicate CanPump(sh: Shared, s: Slot, a: PumpAct) {
    match a
    case StartPumpTimer => s.pump.PInit?
    case ResetTimer => s.pump.PGot?
    case HandleFrame => s.pump.PReady?
    case WriteDone => s.pump.PWrite? && s.pump.rest == [] && s.pump.handed
    case WriteFail => s.pump.PWrite? && PipeDone(s)
    case PumpReason(why) => s.pump.PStopped? && ReasonMatches(sh, s, Pump, why)
    case PumpRelease => s.pump.PExit?
  }

  /** CloseWithError keeps the first error only; the pump then leaves. */
  function ClosePipe(s: Slot, e: PipeEnd): Slot {
    s.(pump := PExit, pipe := s.pipe.(werr := if s.pipe.werr.Some? then s.pipe.werr else Some(e)))
  }

  /** What CloseWithError makes of a failure: io.EOF reads as the end of the stream. */
  function EndOf(f: Failure): PipeEnd { if f == Closed(Some(IoEof)) then Eof else Broken(f) }

  function DoFrame(s: Slot, f: Frame): Slot {
    match f
    case Chunk(Some(d)) => s.(pump := PWrite(d, false))
    case Chunk(None) => ClosePipe(s, Broken(BadPayload))
    case End => ClosePipe(s, Eof)
    case Error(Some(i)) => ClosePipe(s, Broken(Remote(i)))
    case Error(None) => ClosePipe(s, Broken(BadPayload))
    case _ => s.(pump := PWait(Try))
  }

  function DoPump(c: nat, sh: Shared, s: Slot, a: PumpAct): Slot
    requires CanPump(sh, s, a)
  {
    match a
    case StartPumpTimer => s.(pump := PWait(Try), clock := Restart(c, sh.now, s.clock))
    case ResetTimer => s.(pump := PReady(s.pump.f), clock := Restart(c, sh.now, s.clock))
    case HandleFrame => DoFrame(s, s.pump.f)
    case WriteDone => s.(pump := PWait(Try))
    case WriteFail => s.(pump := PExit)
    case PumpReason(why) => ClosePipe(s, EndOf(ReasonFailure(sh, why)))
    case PumpRelease => s.(pump := PDone, registered := false, clock := s.clock.(timer := Off))
  }

  // ----- the timer, the context, and the holder of the body -----

  datatype UserAct = FireTimer | CancelCtx | BodyCancel | BodyClose | Read(n: nat) | ReadEnd

  predicate Holder(s: Slot) { s.req.RDone? && !s.req.o.Failed? }

  predicate CanUse(sh: Shared, s: Slot, a: UserAct) {
    match a
    case FireTimer => s.clock.timer.Armed? && s.clock.timer.at <= sh.now
    case CancelCtx => true
    case BodyCancel => Holder(s) && s.req.o.GotStream?
    case BodyClose => Holder(s) && s.cancelled
    case Read(n) =>
      Holder(s)
      && if s.req.o.GotWhole? then s.pipe.delivered < s.req.o.body
         else s.pump.PWrite? && !PipeDone(s) && !(s.pump.rest == [] && s.pump.handed)
    case ReadEnd =>
      Holder(s) && if s.req.o.GotWhole? then s.pipe.delivered == s.req.o.body else PipeDone(s)
  }

  function Min(a: nat, b: nat): nat { if a < b then a else b }

  function Take(d: Bytes, n: nat): (Bytes, Bytes) { (d[..Min(n, |d|)], d[Min(n, |d|)..]) }

  function Deliver(p: Pipe, d: Bytes): Pipe { p.(delivered := p.delivered + d) }

  function ObserveEnd(s: Slot): Pipe
    requires Holder(s) && (s.req.o.GotStream? ==> PipeDone(s))
  {
    if s.req.o.GotWhole? then s.pipe.(sawEof := true)
    else if s.pipe.rclosed then s.pipe  // io.ErrClosedPipe: the reader's own Close
    else if s.pipe.werr.value.Eof? then s.pipe.(sawEof := true)
    else s.pipe.(sawErr := Some(s.pipe.werr.value.why))
  }

  function DoUse(sh: Shared, s: Slot, a: UserAct): Slot
    requires CanUse(sh, s, a)
  {
    match a
    case FireTimer => s.(clock := s.clock.(timer := Fired))
    case CancelCtx => s.(ctxDone := true)
    case BodyCancel => s.(cancelled := true)
    case BodyClose => s.(pipe := s.pipe.(rclosed := true))
    case Read(n) =>
      if s.req.o.GotWhole? then
        s.(pipe := Deliver(s.pipe, Take(s.req.o.body[|s.pipe.delivered|..], n).0))
      else
        var (got, rest) := Take(s.pump.rest, n);
        s.(pipe := Deliver(s.pipe, got), pump := PWrite(rest, true))
    case ReadEnd => s.(pipe := ObserveEnd(s))
  }

  // ----- one label -----

  datatype Act = Req(r: ReqAct) | Wait(who: Who, w: WaitAct) | Pmp(p: PumpAct) | Use(u: UserAct)

  predicate CanAct(sh: Shared, s: Slot, a: Act) {
    match a
    case Req(r) => CanReq(sh, s, r)
    case Wait(who, w) => CanWait(sh, s, who, w)
    case Pmp(p) => CanPump(sh, s, p)
    case Use(u) => CanUse(sh, s, u)
  }

  function DoAct(c: nat, sh: Shared, s: Slot, a: Act): Slot
    requires CanAct(sh, s, a)
  {
    match a
    case Req(r) => DoReq(c, sh, s, r)
    case Wait(who, w) => DoWait(sh, s, who, w)
    case Pmp(p) => DoPump(c, sh, s, p)
    case Use(u) => DoUse(sh, s, u)
  }

  /** The two halves of push, run by the transport's read loop. */
  function Append(sh: Shared, s: Slot, f: Frame): Slot {
    s.(q := s.q.(items := s.q.items + [f], pushed := s.q.pushed + [f]),
       clock := s.clock.(lastArrival := sh.now))
  }

  function Signal(s: Slot): Slot { s.(q := s.q.(sig := true)) }
}
