/**
 Progress of the Go caller: what each Read delivers, how much work is left, and what the reader
 holds when none is. Together: undisturbed, everything a handler sent arrives.
 */
module GoProgress {
  import opened Protocol
  import opened GoCaller
  import opened GoCallerInvariants
  import opened GoSystem
  import opened GoTheorems

  // ----- one Read -----

  /** The bytes the holder can have without any further step: of a whole body, or of the chunk being written. */
  function AtHand(s: Slot): Bytes
    requires Holder(s)
  {
    if s.req.o.GotWhole? then
      if s.pipe.delivered <= s.req.o.body then s.req.o.body[|s.pipe.delivered|..] else []
    else if s.pump.PWrite? && !PipeDone(s) then s.pump.rest
    else []
  }

  /** With bytes at hand a Read is possible, and takes exactly the first n of them, or all there are. */
  lemma ReadDelivers(c: nat, sh: Shared, signalling: bool, s: Slot, n: nat)
    requires Inv(c, sh, signalling, s) && Holder(s) && AtHand(s) != []
    ensures CanAct(sh, s, Use(Read(n)))
    ensures var s' := DoAct(c, sh, s, Use(Read(n)));
            var k := if n < |AtHand(s)| then n else |AtHand(s)|;
            && Holder(s') && s'.pipe.delivered == s.pipe.delivered + AtHand(s)[..k] && AtHand(s') == AtHand(s)[k..]
            && s'.q == s.q && s'.req == s.req && s'.clock == s.clock && s'.registered == s.registered
  {
    var k := if n < |AtHand(s)| then n else |AtHand(s)|;
    if s.req.o.GotWhole? { Resume(s.req.o.body, s.pipe.delivered, k); }
  }

  /** Reading on from a prefix. */
  lemma Resume(b: Bytes, p: Bytes, k: nat)
    requires p <= b && k <= |b| - |p|
    ensures var q := p + b[|p|..][..k]; q <= b && |q| == |p| + k && b[|q|..] == b[|p|..][k..]
  {
    assert b[|p|..][..k] == b[|p|..|p| + k];
    assert b[..|p| + k] == b[..|p|] + b[|p|..|p| + k];
  }

  /** At a pipe that its writer has closed, the reader is given what it was closed with. */
  lemma EndIsGiven(c: nat, sh: Shared, s: Slot)
    requires Holder(s) && s.req.o.GotStream? && s.pipe.werr.Some? && !s.pipe.rclosed
    ensures CanAct(sh, s, Use(ReadEnd))
    ensures var p := DoAct(c, sh, s, Use(ReadEnd)).pipe;
            match s.pipe.werr.value
            case Eof => p == s.pipe.(sawEof := true)
            case Broken(f) => p == s.pipe.(sawErr := Some(f))
  {}

  // ----- how much work is left -----

  function Data(f: Frame): nat { if f.Chunk? && f.data.Some? then |f.data.value| else 0 }

  function Queued(fs: seq<Frame>): nat { if fs == [] then 0 else Data(fs[0]) + Queued(fs[1..]) }

  /** Bytes taken from the queue and not read; an empty chunk that no Read has taken counts for one. */
  function InPump(p: PumpPC): nat {
    match p
    case PGot(f) => Data(f)
    case PReady(f) => Data(f)
    case PWrite(rest, handed) => |rest| + if handed then 0 else 1
    case _ => 0
  }

  /** Bytes of a whole body that have not been read, also while it is on its way to the caller. */
  function Unread(s: Slot): nat {
    match s.req
    case RGot(f) => if f.Response? && f.whole.Some? then |f.whole.value.1| else Data(f)
    case RLeaving(GotWhole(_, b)) => |b|
    case RDone(GotWhole(_, b)) => if |s.pipe.delivered| <= |b| then |b| - |s.pipe.delivered| else 0
    case _ => 0
  }

  /** Whole bodies that are still queued. */
  function Bodies(fs: seq<Frame>): nat {
    if fs == [] then 0
    else (if fs[0].Response? && fs[0].whole.Some? then |fs[0].whole.value.1| else 0) + Bodies(fs[1..])
  }

  function Load(s: Slot): nat { 2 * Rank(s) + Queued(s.q.items) + Bodies(s.q.items) + InPump(s.pump) + Unread(s) }

  /** The steps that use up the load: those of the request's goroutines, and reads into a buffer. */
  predicate Works(a: Act) { ByConsumer(a) || (a.Use? && a.u.Read? && a.u.n > 0) }

  lemma ReadLowersLoad(c: nat, sh: Shared, s: Slot, n: nat)
    requires CanAct(sh, s, Use(Read(n))) && n > 0
    ensures Load(DoAct(c, sh, s, Use(Read(n)))) < Load(s)
  {
    UseKeepsRank(c, sh, s, Read(n));
    ReadLowersWork(sh, s, n);
  }

  lemma ReadLowersWork(sh: Shared, s: Slot, n: nat)
    requires CanUse(sh, s, Read(n)) && n > 0
    ensures var s' := DoUse(sh, s, Read(n));
            s'.q == s.q && InPump(s'.pump) + Unread(s') < InPump(s.pump) + Unread(s)
  {}

  lemma ReqLowersLoad(c: nat, sh: Shared, s: Slot, a: ReqAct)
    requires HandoffInv(s) && ReaderView(s) && CanReq(sh, s, a)
    ensures Load(DoReq(c, sh, s, a)) < Load(s)
  {
    ReqLowersRank(c, sh, s, a);
  }

  lemma PumpLowersWork(c: nat, sh: Shared, s: Slot, a: PumpAct)
    requires CanPump(sh, s, a)
    ensures var s' := DoPump(c, sh, s, a);
            && s'.q == s.q && s'.req == s.req && s'.pipe.delivered == s.pipe.delivered
            && 2 * PumpRank(s'.pump) + InPump(s'.pump) < 2 * PumpRank(s.pump) + InPump(s.pump)
  {
    match a
    case HandleFrame => FrameLowersWork(s, s.pump.f);
    case _ =>
  }

  lemma FrameLowersWork(s: Slot, f: Frame)
    requires s.pump == PReady(f)
    ensures var s' := DoFrame(s, f);
            && s'.q == s.q && s'.req == s.req && s'.pipe.delivered == s.pipe.delivered
            && 2 * PumpRank(s'.pump) + InPump(s'.pump) < 2 * PumpRank(s.pump) + InPump(s.pump)
  {}

  lemma PumpLowersLoad(c: nat, sh: Shared, s: Slot, a: PumpAct)
    requires CanPump(sh, s, a)
    ensures Load(DoPump(c, sh, s, a)) < Load(s)
  {
    PumpLowersWork(c, sh, s, a);
  }

  lemma PopLowersLoad(s: Slot, who: Who)
    requires HandoffInv(s) && s.q.items != [] && WaitOf(s, who).Some?
    ensures Load(Pop(s, who)) < Load(s)
  {
    var fs := s.q.items;
    assert Queued(fs) == Data(fs[0]) + Queued(fs[1..]);
  }

  lemma WaitLowersLoad(sh: Shared, s: Slot, who: Who, w: WaitAct)
    requires HandoffInv(s) && CanWait(sh, s, who, w)
    ensures Load(DoWait(sh, s, who, w)) < Load(s)
  {
    if (w.TryPop? || w.LastPop?) && s.q.items != [] { PopLowersLoad(s, who); } else { WaitLowersRank(sh, s, who, w); }
  }

  lemma WorkLowersLoad(c: nat, sh: Shared, s: Slot, a: Act)
    requires HandoffInv(s) && ReaderView(s) && CanAct(sh, s, a) && Works(a)
    ensures Load(DoAct(c, sh, s, a)) < Load(s)
  {
    match a
    case Req(r) => ReqLowersLoad(c, sh, s, r);
    case Wait(who, w) => WaitLowersLoad(sh, s, who, w);
    case Pmp(p) => PumpLowersLoad(c, sh, s, p);
    case Use(Read(n)) => ReadLowersLoad(c, sh, s, n);
  }

  /** Timers, cancellation and empty reads add no work. */
  lemma IdleKeepsLoad(c: nat, sh: Shared, s: Slot, a: Act)
    requires CanAct(sh, s, a) && !Works(a)
    ensures Load(DoAct(c, sh, s, a)) <= Load(s)
  {
    UseKeepsRank(c, sh, s, a.u);
    UseKeepsWork(sh, s, a.u);
  }

  lemma UseKeepsWork(sh: Shared, s: Slot, u: UserAct)
    requires CanUse(sh, s, u)
    ensures var s' := DoUse(sh, s, u);
            s'.q == s.q && InPump(s'.pump) <= InPump(s.pump) && Unread(s') <= Unread(s)
  {}

  function Worked(acts: seq<Act>): nat {
    if acts == [] then 0 else (if Works(acts[0]) then 1 else 0) + Worked(acts[1..])
  }

  /** On every schedule, if no more frames arrive, at most Load(s) steps and reads are left. */
  lemma {:induction false} WorkIsBounded(c: nat, sh: Shared, signalling: bool, s: Slot, acts: seq<Act>)
    requires SharedInv(sh) && Inv(c, sh, signalling, s) && CanActs(c, sh, s, acts)
    ensures Worked(acts) + Load(DoActs(c, sh, s, acts)) <= Load(s)
    decreases acts
  {
    if acts != [] {
      ActKeepsInv(c, sh, signalling, s, acts[0]);
      if Works(acts[0]) { WorkLowersLoad(c, sh, s, acts[0]); } else { IdleKeepsLoad(c, sh, s, acts[0]); }
      WorkIsBounded(c, sh, signalling, DoAct(c, sh, s, acts[0]), acts[1..]);
    }
  }

  // ----- what the reader holds when there is nothing left to do -----

  /** No goroutine of the request can take a step, and no Read into a buffer returns bytes. */
  ghost predicate Rested(sh: Shared, s: Slot) { forall a :: Works(a) ==> !CanAct(sh, s, a) }

  /** No stop has reached the request: everything it reported came from frames. */
  ghost predicate Undisturbed(sh: Shared, s: Slot) {
    && sh.once.NotRun? && !s.ctxDone && !s.cancelled && !s.clock.timer.Fired?
    && !(s.req.RWait? && s.req.w.LastTry?) && !s.req.RStopped? && !s.req.RInspect?
    && !(s.pump.PWait? && s.pump.w.LastTry?) && !s.pump.PStopped?
    && ((s.req.RLeaving? || s.req.RDone?) && s.req.o.Failed? ==> FromFrames(s.req.o.why))
    && (s.pipe.werr.Some? && s.pipe.werr.value.Broken? ==> FromFrames(s.pipe.werr.value.why))
  }

  predicate Disturbs(a: Act) {
    a == Req(SendFail) || a == Use(FireTimer) || a == Use(CancelCtx) || a == Use(BodyCancel)
  }

  lemma ActKeepsUndisturbed(c: nat, sh: Shared, s: Slot, a: Act)
    requires SharedInv(sh) && HandoffInv(s) && Undisturbed(sh, s) && CanAct(sh, s, a) && !Disturbs(a)
    ensures Undisturbed(sh, DoAct(c, sh, s, a))
  {}

  /** A request that is not at rest can take a step that does not disturb it. */
  lemma NextWork(c: nat, sh: Shared, s: Slot) returns (a: Act)
    requires HandoffInv(s) && ReaderView(s) && !Rested(sh, s)
    ensures CanAct(sh, s, a) && Works(a) && !Disturbs(a) && Load(DoAct(c, sh, s, a)) < Load(s)
  {
    a :| Works(a) && CanAct(sh, s, a);
    if a == Req(SendFail) { a := Req(SendOk); }
    WorkLowersLoad(c, sh, s, a);
  }

  /** The body was read to its end, and the next Read says so. */
  ghost predicate ReadOut(c: nat, sh: Shared, s: Slot, body: Bytes, e: Ending) {
    && s.pipe.delivered == body
    && match e
       case Open => s.pump == PWait(Parked)
       case CleanEof => CanAct(sh, s, Use(ReadEnd)) && DoAct(c, sh, s, Use(ReadEnd)).pipe.sawEof
       case Broke(f) => CanAct(sh, s, Use(ReadEnd)) && DoAct(c, sh, s, Use(ReadEnd)).pipe.sawErr == Some(f)
  }

  /** The request and the holder of its body have been told all that the view says. */
  ghost predicate Told(c: nat, sh: Shared, s: Slot, v: View) {
    match v
    case Nothing => s.req == RWait(Parked)
    case Refused(f) => s.req == RDone(Failed(f))
    case Whole(h, b) => s.req == RDone(GotWhole(h, b)) && ReadOut(c, sh, s, b, CleanEof)
    case Streaming(h, b, e) => s.req == RDone(GotStream(h)) && ReadOut(c, sh, s, b, e)
  }

  lemma RestedPlaces(sh: Shared, s: Slot)
    requires Rested(sh, s) && Undisturbed(sh, s)
    ensures s.req.RDone? || s.req == RWait(Parked)
    ensures s.pump.PNone? || s.pump.PDone? || s.pump.PWrite? || s.pump == PWait(Parked)
    ensures IsParked(s) ==> !s.q.sig
  {
    var a := NextAct(sh, s);
    assert Works(a) ==> !CanAct(sh, s, a);
    assert !CanAct(sh, s, Act.Wait(Requester, TakeSignal)) && !CanAct(sh, s, Act.Wait(Pump, TakeSignal));
    assert !CanAct(sh, s, Pmp(StartPumpTimer)) && !CanAct(sh, s, Pmp(ResetTimer)) && !CanAct(sh, s, Pmp(HandleFrame));
    assert !CanAct(sh, s, Pmp(PumpRelease)) && !CanAct(sh, s, Act.Wait(Pump, TryPop));
  }

  lemma RestedReader(sh: Shared, s: Slot)
    requires HandoffInv(s) && Rested(sh, s)
    ensures !s.pump.PWrite?
    ensures Holder(s) && s.req.o.GotWhole? ==> !(s.pipe.delivered < s.req.o.body)
  {
    assert !CanAct(sh, s, Use(Read(1))) && !CanAct(sh, s, Pmp(WriteDone)) && !CanAct(sh, s, Pmp(WriteFail));
  }

  /** A parked request has taken every frame pushed to it, and waits for more. */
  lemma ParkedIsTold(c: nat, sh: Shared, s: Slot)
    requires SharedInv(sh) && Inv(c, sh, false, s) && Undisturbed(sh, s) && IsParked(s) && !s.q.sig
    ensures s.q.items == [] && s.q.popped == s.q.pushed && Told(c, sh, s, Interpret(s.q.popped))
  {
    assert s.q.popped + [] == s.q.popped;
  }

  lemma DoneIsTold(c: nat, sh: Shared, s: Slot)
    requires SharedInv(sh) && Inv(c, sh, false, s) && Undisturbed(sh, s) && s.req.RDone?
    requires s.pump.PNone? || s.pump.PDone?
    requires Holder(s) && s.req.o.GotWhole? ==> !(s.pipe.delivered < s.req.o.body)
    ensures Told(c, sh, s, Interpret(s.q.popped)) && !s.registered && s.q.popped <= s.q.pushed
  {
    if s.req.o.GotStream? { EndIsGiven(c, sh, s); }
  }

  /**
   An undisturbed request at rest has told its caller and its reader all that the frames say; if it is
   still registered, those are all the frames pushed to it.
   */
  lemma RestedIsTold(c: nat, sh: Shared, s: Slot)
    requires SharedInv(sh) && Inv(c, sh, false, s) && Undisturbed(sh, s) && Rested(sh, s)
    ensures Told(c, sh, s, Interpret(s.q.popped)) && s.q.popped <= s.q.pushed
    ensures if s.registered then s.q.popped == s.q.pushed
            else var v := Interpret(s.q.popped); v.Whole? || v.Refused? || (v.Streaming? && v.ending != Open)
  {
    RestedPlaces(sh, s);
    RestedReader(sh, s);
    if IsParked(s) { ParkedIsTold(c, sh, s); } else { DoneIsTold(c, sh, s); }
  }
}
