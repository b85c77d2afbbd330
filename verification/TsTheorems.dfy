/** What holds after every run of the TypeScript caller, and what each list of frames means to it. */
module TsTheorems {
  import opened Protocol
  import opened TsStream
  import opened TsModel

  // ----- the meaning of a list of frames, with no other cause of ending -----

  datatype Mode =
    | Fresh                           // nothing yet
    | HiddenOnly                      // a stream exists that was never handed out
    | Live(head: Head, body: Bytes)
    | Detached(head: Head, body: Bytes)  // a second Start has taken over the callbacks
    | Over(v: View)

  function ModeStep(m: Mode, f: Frame): Mode {
    match m
    case Over(_) => m
    case Live(h, b) =>
      (match f
       case Response(_) => Over(Streaming(h, b, Open))
       case Start(_) => Detached(h, b)
       case Chunk(Some(d)) => Live(h, b + d)
       case End => Over(Streaming(h, b, CleanEof))
       case Error(Some(i)) => Over(Streaming(h, b, Broke(MessageOnly(Remote(i)))))
       case Error(None) => Over(Streaming(h, b, Open))
       case _ => m)
    case Detached(h, b) =>
      if f.Response? || f.End? || f.Error? then Over(Streaming(h, b, Open)) else m
    case _ =>
      (match f
       case Response(Some(p)) => Over(Whole(p.0, p.1))
       case Start(Some(h)) => Live(h, [])
       case Start(None) => HiddenOnly
       case Error(Some(i)) => Over(if m.Fresh? then Refused(MessageOnly(Remote(i))) else Nothing)
       case Chunk(_) => m
       case Other(_) => m
       case _ => Over(Nothing))
  }

  function Fold(m: Mode, fs: seq<Frame>): Mode
    decreases fs
  {
    if fs == [] then m else Fold(ModeStep(m, fs[0]), fs[1..])
  }

  function ModeView(m: Mode): View {
    match m
    case Fresh => Nothing
    case HiddenOnly => Nothing
    case Live(h, b) => Streaming(h, b, Open)
    case Detached(h, b) => Streaming(h, b, Open)
    case Over(v) => v
  }

  /** The TypeScript caller's reading of the frames of one request. */
  function TsInterpret(fs: seq<Frame>): View { ModeView(Fold(Fresh, fs)) }

  lemma {:induction false} FoldSnoc(m: Mode, fs: seq<Frame>, f: Frame)
    ensures Fold(m, fs + [f]) == ModeStep(Fold(m, fs), f)
    decreases fs
  {
    if fs == [] {
      assert [] + [f] == [f] && [f][1..] == [];
    } else {
      assert (fs + [f])[1..] == fs[1..] + [f];
      FoldSnoc(ModeStep(m, fs[0]), fs[1..], f);
    }
  }

  // ----- the invariant of one entry -----

  /** No terminal cause has reached the stream. */
  ghost predicate Running(s: Stream) { !s.cancelled && s.termErr.None? && !s.termClose }

  /** A pending entry mirrors the mode of the frames it has heard. */
  ghost predicate PendingEntry(e: Entry) {
    match Fold(Fresh, e.heard)
    case Fresh => e.promise.Unsettled? && e.hook.NoHook? && e.stream.None?
    case HiddenOnly => e.promise.Unsettled? && e.hook.Hidden? && e.stream.None?
    case Live(h, b) =>
      e.promise == Resolved(h) && e.hook.Visible? && e.stream.Some?
      && Running(e.stream.value) && Concat(e.stream.value.received) == b
    case Detached(h, b) =>
      e.promise == Resolved(h) && e.hook.Hidden? && e.stream.Some?
      && Running(e.stream.value) && Concat(e.stream.value.received) == b
    case Over(_) => false
  }

  /** A released entry shows the view of what it heard, or that view cut short by a stop. */
  ghost predicate ReleasedEntry(e: Entry) {
    match TsInterpret(e.heard)
    case Nothing =>
      e.stream.None? && (e.promise.Rejected? ==> !FromFrames(e.promise.why)) && !e.promise.Resolved?
      && (Fold(Fresh, e.heard).Fresh? ==> e.promise.Rejected?)
    case Refused(f) => e.stream.None? && e.promise == Rejected(f) && FromFrames(f)
    case Whole(h, b) =>
      e.promise == Resolved(h) && e.stream.Some? && Concat(e.stream.value.received) == b
      && e.stream.value.termClose && e.stream.value.termErr.None?
    case Streaming(h, b, ending) =>
      e.promise == Resolved(h) && e.stream.Some? && Concat(e.stream.value.received) == b
      && var s := e.stream.value;
      match ending
      case CleanEof => s.termClose && s.termErr.None?
      case Broke(f) => FromFrames(f) && s.termErr == Some(f) && !s.termClose
      case Open => !s.termClose && (s.termErr.Some? ==> !FromFrames(s.termErr.value))
  }

  ghost predicate EntryInv(timed: Timed, pending: bool, e: Entry) {
    && (e.armed <==> pending && timed)
    && (if pending then PendingEntry(e) else ReleasedEntry(e))
    && (e.stream.Some? ==> StreamInv(e.stream.value))
  }

  ghost predicate TsInv(timed: Timed, c: Ts) {
    && c.pending <= c.reqs.Keys
    && (c.closedErr.Some? ==> c.pending == {} && !FromFrames(c.closedErr.value))
    && forall id :: id in c.reqs ==> EntryInv(timed, id in c.pending, c.reqs[id])
  }

  // ----- one frame -----

  lemma ConcatSnoc(cs: seq<Bytes>, d: Bytes)
    ensures Concat(cs + [d]) == Concat(cs) + d
  {
    ConcatAppend(cs, [d]);
    assert [d][1..] == [] && d + [] == d;
  }

  ghost predicate Processed(e: Entry, f: Frame) {
    var (e', stays) := Process(e.(heard := e.heard + [f]), f);
    && (if stays then PendingEntry(e') else ReleasedEntry(e'))
    && (e'.stream.Some? ==> StreamInv(e'.stream.value))
  }

  ghost predicate Ready(e: Entry) { PendingEntry(e) && (e.stream.Some? ==> StreamInv(e.stream.value)) }

  lemma ProcessChunk(e: Entry, f: Frame)
    requires Ready(e) && f.Chunk?
    ensures Processed(e, f)
  {
    FoldSnoc(Fresh, e.heard, f);
    if e.hook.Visible? && f.data.Some? {
      PushKeeps(e.stream.value, f.data.value);
      ConcatSnoc(e.stream.value.received, f.data.value);
    }
  }

  lemma ProcessStart(e: Entry, f: Frame)
    requires Ready(e) && f.Start?
    ensures Processed(e, f)
  {
    FoldSnoc(Fresh, e.heard, f);
  }

  lemma ProcessResponse(e: Entry, f: Frame)
    requires Ready(e) && f.Response?
    ensures Processed(e, f)
  {
    FoldSnoc(Fresh, e.heard, f);
    if f.whole.Some? { BufferedInv(f.whole.value.1); }
  }

  /** The stream callbacks keep the stream's invariant, whatever they report. */
  lemma CallbackKeeps(s: Stream, why: Failure)
    requires StreamInv(s) && Running(s)
    ensures StreamInv(StreamClose(s)) && StreamInv(StreamError(s, why))
  {}

  lemma ProcessError(e: Entry, f: Frame)
    requires Ready(e) && f.Error?
    ensures Processed(e, f)
  {
    FoldSnoc(Fresh, e.heard, f);
    if f.info.Some? && e.hook.Visible? { CallbackKeeps(e.stream.value, MessageOnly(Remote(f.info.value))); }
  }

  lemma ProcessEnd(e: Entry)
    requires Ready(e)
    ensures Processed(e, End)
  {
    FoldSnoc(Fresh, e.heard, End);
    if e.hook.Visible? { CallbackKeeps(e.stream.value, ReadTimeout); }
  }

  lemma ProcessOther(e: Entry, f: Frame)
    requires Ready(e) && f.Other?
    ensures Processed(e, f)
  {
    FoldSnoc(Fresh, e.heard, f);
  }

  lemma ProcessKeeps(e: Entry, f: Frame)
    requires Ready(e)
    ensures Processed(e, f)
  {
    match f
    case Response(_) => ProcessResponse(e, f);
    case Start(_) => ProcessStart(e, f);
    case Chunk(_) => ProcessChunk(e, f);
    case Error(_) => ProcessError(e, f);
    case End => ProcessEnd(e);
    case Other(_) => ProcessOther(e, f);
  }

  lemma FailKeeps(e: Entry, why: Failure)
    requires PendingEntry(e) && (e.stream.Some? ==> StreamInv(e.stream.value)) && !FromFrames(why)
    ensures ReleasedEntry(FailEntry(e, why))
    ensures FailEntry(e, why).stream.Some? ==> StreamInv(FailEntry(e, why).stream.value)
  {}

  /** Replacing one entry concerns no other. */
  lemma PutKeeps(timed: Timed, c: Ts, id: Id, e: Entry, stays: bool)
    requires TsInv(timed, c) && EntryInv(timed, stays && id in c.pending, e)
    ensures TsInv(timed, Put(c, id, e, stays))
  {
    var c' := Put(c, id, e, stays);
    forall j | j in c'.reqs ensures EntryInv(timed, j in c'.pending, c'.reqs[j]) {
      if j != id { assert EntryInv(timed, j in c.pending, c.reqs[j]); }
    }
  }

  lemma MessageKeeps(timed: Timed, c: Ts, id: Id, f: Frame)
    requires TsInv(timed, c)
    ensures TsInv(timed, DoMessage(timed, c, id, f))
  {
    if id in c.pending && id in c.reqs {
      assert EntryInv(timed, true, c.reqs[id]);
      ProcessKeeps(c.reqs[id], f);
      var (e, stays) := Process(c.reqs[id].(heard := c.reqs[id].heard + [f]), f);
      PutKeeps(timed, c, id, e.(armed := stays && timed), stays);
    }
  }

  lemma TimeoutKeeps(timed: Timed, c: Ts, id: Id)
    requires TsInv(timed, c) && CanHandle(c, Timeout(id))
    ensures TsInv(timed, Handle(timed, c, Timeout(id)))
  {
    assert EntryInv(timed, id in c.pending, c.reqs[id]);
    var e := c.reqs[id].(armed := false);
    FailKeeps(e, ReadTimeout);
    PutKeeps(timed, c, id, FailEntry(e, ReadTimeout), false);
  }

  lemma StreamTurnKeeps(timed: Timed, c: Ts, id: Id, t: TsStream.Turn)
    requires TsInv(timed, c) && CanHandle(c, Event.Turn(id, t))
    ensures TsInv(timed, Handle(timed, c, Event.Turn(id, t)))
  {
    var e := c.reqs[id];
    assert EntryInv(timed, id in c.pending, e);
    TurnKeeps(e.stream.value, t);
    TurnFrame(e.stream.value, t);
    PutKeeps(timed, c, id, e.(stream := Some(DoTurn(e.stream.value, t))), true);
  }

  lemma CloseKeeps(timed: Timed, c: Ts, err: Option<CloseErr>)
    requires TsInv(timed, c)
    ensures TsInv(timed, DoClose(c, err))
  {
    if c.closedErr.None? {
      var why := CloseFailure(err);
      var c' := DoClose(c, err);
      forall id | id in c'.reqs ensures EntryInv(timed, false, c'.reqs[id]) {
        assert EntryInv(timed, id in c.pending, c.reqs[id]);
        if id in c.pending { FailKeeps(c.reqs[id].(armed := false), why); }
      }
    }
  }

  lemma CancelBodyKeeps(timed: Timed, c: Ts, id: Id)
    requires TsInv(timed, c) && HasStream(c, id)
    ensures TsInv(timed, DoCancel(c, id))
  {
    var e := c.reqs[id];
    var s := e.stream.value;
    CancelKeeps(s);
    assert EntryInv(timed, id in c.pending, e);
    if !s.st.Readable? || s.closeReq { PutKeeps(timed, c, id, e.(stream := Some(Cancel(s))), true); }
    else { PutKeeps(timed, c, id, e.(stream := Some(Cancel(s)), armed := false, hook := NoHook), false); }
  }

  lemma HandleKeeps(timed: Timed, c: Ts, ev: Event)
    requires TsInv(timed, c) && CanHandle(c, ev)
    ensures TsInv(timed, Handle(timed, c, ev))
  {
    match ev
    case Request(id) => RequestKeeps(timed, c, id);
    case Message(id, f) => MessageKeeps(timed, c, id, f);
    case Timeout(id) => TimeoutKeeps(timed, c, id);
    case Close(err) => CloseKeeps(timed, c, err);
    case CancelBody(id) => CancelBodyKeeps(timed, c, id);
    case Turn(id, t) => StreamTurnKeeps(timed, c, id, t);
  }

  lemma RequestKeeps(timed: Timed, c: Ts, id: Id)
    requires TsInv(timed, c) && id !in c.reqs
    ensures TsInv(timed, DoRequest(timed, c, id))
  {
    var c' := DoRequest(timed, c, id);
    forall j | j in c'.reqs ensures EntryInv(timed, j in c'.pending, c'.reqs[j]) {
      if j != id { assert EntryInv(timed, j in c.pending, c.reqs[j]); }
    }
  }

  lemma {:induction false} RunKeeps(timed: Timed, c: Ts, evs: seq<Event>)
    requires TsInv(timed, c) && CanRun(timed, c, evs)
    ensures TsInv(timed, Run(timed, c, evs))
    decreases evs
  {
    if evs != [] {
      HandleKeeps(timed, c, evs[0]);
      RunKeeps(timed, Handle(timed, c, evs[0]), evs[1..]);
    }
  }

  // ----- what every run of a fresh caller guarantees -----

  ghost predicate Reachable(timed: Timed, c: Ts) {
    exists evs :: CanRun(timed, NEW_CALLER, evs) && Run(timed, NEW_CALLER, evs) == c
  }

  lemma ReachableInv(timed: Timed, c: Ts)
    requires Reachable(timed, c)
    ensures TsInv(timed, c)
  {
    var evs :| CanRun(timed, NEW_CALLER, evs) && Run(timed, NEW_CALLER, evs) == c;
    RunKeeps(timed, NEW_CALLER, evs);
  }

  lemma {:induction false} RunSnoc(timed: Timed, c: Ts, evs: seq<Event>, ev: Event)
    requires CanRun(timed, c, evs) && CanHandle(Run(timed, c, evs), ev)
    ensures CanRun(timed, c, evs + [ev])
    ensures Run(timed, c, evs + [ev]) == Handle(timed, Run(timed, c, evs), ev)
    decreases evs
  {
    if evs == [] {
      assert [ev][1..] == [];
    } else {
      assert (evs + [ev])[1..] == evs[1..] + [ev];
      RunSnoc(timed, Handle(timed, c, evs[0]), evs[1..], ev);
    }
  }

  lemma ReachableStep(timed: Timed, c: Ts, ev: Event)
    requires Reachable(timed, c) && CanHandle(c, ev)
    ensures Reachable(timed, Handle(timed, c, ev))
  {
    var evs :| CanRun(timed, NEW_CALLER, evs) && Run(timed, NEW_CALLER, evs) == c;
    RunSnoc(timed, NEW_CALLER, evs, ev);
  }

  /** A timer runs for exactly the pending entries, and a closed caller has none. */
  lemma TimersAndClose(timed: Timed, c: Ts)
    requires Reachable(timed, c)
    ensures forall id :: id in c.reqs && c.reqs[id].armed <==> id in c.pending && timed
    ensures c.closedErr.Some? ==> c.pending == {}
  {
    ReachableInv(timed, c);
    assert forall id :: id in c.reqs ==> EntryInv(timed, id in c.pending, c.reqs[id]);
  }

  /**
   The two-level queue loses nothing: without cancel, what readers got, the controller's queue and
   the buffer are the chunks received; when the stream has ended, readers got all of them, so
   the controller's reset threw nothing away; and its cause is the one the entry recorded.
   */
  lemma StreamConservation(timed: Timed, c: Ts, id: Id)
    requires Reachable(timed, c) && HasStream(c, id) && !c.reqs[id].stream.value.cancelled
    ensures var s := c.reqs[id].stream.value;
            && s.delivered + s.cq + s.buffer == s.received
            && Concat(s.received) == BodyOf(TsInterpret(c.reqs[id].heard))
            && (!s.st.Readable? ==> s.delivered == s.received)
            && (s.st.Errored? ==> s.termErr == Some(s.st.why) && !s.termClose)
            && (s.st.Finished? ==> s.termClose && s.termErr.None?)
  {
    ReachableInv(timed, c);
    var e := c.reqs[id];
    assert EntryInv(timed, id in c.pending, e);
    var s := e.stream.value;
    assert s.delivered + [] + [] == s.delivered;
  }

  /**
   A reader that waits has a promise reaction due or there is nothing to deliver; and when no reaction is
   due, a reader that has kept asking has all the bytes of the frames heard, and their ending.
   ReactionLowersEffort says that reactions run out, CanServe that a reader can always get there.
   */
  lemma ReaderAlwaysServed(timed: Timed, c: Ts, id: Id)
    requires Reachable(timed, c) && HasStream(c, id) && !c.reqs[id].stream.value.cancelled
    ensures var s := c.reqs[id].stream.value;
            s.waiting > 0 ==>
              CanTurn(s, StartSettled) || CanTurn(s, PullWake) || (CanTurn(s, PullSettled) && s.pullAgain) || Idle(s)
    ensures var s, v := c.reqs[id].stream.value, TsInterpret(c.reqs[id].heard);
            Rested(s) && TsStream.Asked(s) ==>
              && Concat(s.delivered) == BodyOf(v)
              && match v
                 case Whole(_, _) => s.st == Finished
                 case Streaming(_, _, CleanEof) => s.st == Finished
                 case Streaming(_, _, Broke(f)) => s.st == Errored(f)
                 case Streaming(_, _, Open) => id in c.pending ==> s.st == Readable && s.waiting > 0
                 case _ => false
  {
    ReachableInv(timed, c);
    assert EntryInv(timed, id in c.pending, c.reqs[id]);
    var s := c.reqs[id].stream.value;
    if Rested(s) && TsStream.Asked(s) { RestedIsServed(s); }
  }

  // ----- stops reach every pending request -----

  /** The promise or the caller's stream has failed; unless a stream that nobody holds has taken the callbacks. */
  ghost predicate FailedWith(e: Entry, e': Entry, why: Failure) {
    match Fold(Fresh, e.heard)
    case Fresh => e'.promise == Rejected(why)
    case Live(_, _) => e'.promise == e.promise && e'.stream.Some? && e'.stream.value.termErr == Some(why)
    case _ => e'.promise == e.promise && e'.stream == e.stream
  }

  /** close(err) fails every pending request with err, or with its default, and touches no other. */
  lemma CloseReaches(timed: Timed, c: Ts, err: Option<CloseErr>, id: Id)
    requires Reachable(timed, c) && c.closedErr.None? && id in c.reqs
    ensures var c' := Handle(timed, c, Close(err));
            && id !in c'.pending && id in c'.reqs
            && if id in c.pending then
                 FailedWith(c.reqs[id], c'.reqs[id], Failure.Closed(if err == None then Some(TransportClosed) else err))
               else c'.reqs[id] == c.reqs[id]
  {
    ReachableInv(timed, c);
    assert EntryInv(timed, id in c.pending, c.reqs[id]);
  }

  /** So does the timer, which may expire for any pending request, with its own error. */
  lemma TimeoutReaches(timed: Timed, c: Ts, id: Id)
    requires Reachable(timed, c) && timed && id in c.pending
    ensures CanHandle(c, Timeout(id))
    ensures var c' := Handle(timed, c, Timeout(id));
            id !in c'.pending && id in c'.reqs && FailedWith(c.reqs[id], c'.reqs[id], ReadTimeout)
  {
    ReachableInv(timed, c);
    assert EntryInv(timed, id in c.pending, c.reqs[id]);
  }

  /** Cancelling the body of a pending request releases it, and leaves nothing to read or to wait for. */
  lemma CancelLetsGo(timed: Timed, c: Ts, id: Id)
    requires Reachable(timed, c) && HasStream(c, id) && id in c.pending
    ensures var c' := Handle(timed, c, CancelBody(id));
            && id !in c'.pending && id in c'.reqs && !c'.reqs[id].armed && c'.reqs[id].promise == c.reqs[id].promise
            && c'.reqs[id].stream.Some?
            && var s := c'.reqs[id].stream.value;
               s.cancelled && s.st == Finished && s.buffer == [] && s.cq == [] && s.waiting == 0
  {
    ReachableInv(timed, c);
    assert EntryInv(timed, id in c.pending, c.reqs[id]);
  }

  lemma {:induction false} ClosedStays(timed: Timed, c: Ts, evs: seq<Event>)
    requires c.closedErr.Some? && CanRun(timed, c, evs)
    ensures Run(timed, c, evs).closedErr == c.closedErr
    decreases evs
  {
    if evs != [] { ClosedStays(timed, Handle(timed, c, evs[0]), evs[1..]); }
  }

  /** However much later, a request to a closed caller is rejected at once with the error of the first close. */
  lemma RejectedAfterClose(timed: Timed, c: Ts, err: Option<CloseErr>, evs: seq<Event>, id: Id)
    requires Reachable(timed, c) && c.closedErr.None?
    requires CanRun(timed, Handle(timed, c, Close(err)), evs)
    requires id !in Run(timed, Handle(timed, c, Close(err)), evs).reqs
    ensures var c' := Handle(timed, Run(timed, Handle(timed, c, Close(err)), evs), Request(id));
            && id !in c'.pending && !c'.reqs[id].armed
            && c'.reqs[id].promise == Rejected(Failure.Closed(if err == None then Some(TransportClosed) else err))
  {
    var c1 := Handle(timed, c, Close(err));
    ReachableInv(timed, c);
    HandleKeeps(timed, c, Close(err));
    ClosedStays(timed, c1, evs);
    RunKeeps(timed, c1, evs);
  }

  /** A request that is no longer pending and has heard nothing of its response has been rejected: none hangs. */
  lemma NoRequestHangs(timed: Timed, c: Ts, id: Id)
    requires Reachable(timed, c) && id in c.reqs && id !in c.pending && Fold(Fresh, c.reqs[id].heard).Fresh?
    ensures c.reqs[id].promise.Rejected?
  {
    ReachableInv(timed, c);
    assert EntryInv(timed, id in c.pending, c.reqs[id]);
  }

  /** After cancel, close, a timeout or a final frame nothing that arrives matters any more. */
  lemma {:induction false} ReleasedStays(timed: Timed, c: Ts, evs: seq<Event>, id: Id)
    requires TsInv(timed, c) && CanRun(timed, c, evs) && id in c.reqs && id !in c.pending
    ensures var c' := Run(timed, c, evs);
            && id in c'.reqs && id !in c'.pending && SameAnswer(c.reqs[id], c'.reqs[id])
    decreases evs
  {
    if evs != [] {
      HandleKeeps(timed, c, evs[0]);
      ReleasedStep(timed, c, evs[0], id);
      ReleasedStays(timed, Handle(timed, c, evs[0]), evs[1..], id);
    }
  }

  /** Promise, frames, chunks and terminal cause are what they were. */
  ghost predicate SameAnswer(e: Entry, e': Entry) {
    && e'.promise == e.promise && e'.heard == e.heard && (e'.stream.Some? <==> e.stream.Some?)
    && (e.stream.Some? ==>
          var s, s' := e.stream.value, e'.stream.value;
          s'.received == s.received && s'.termErr == s.termErr && s'.termClose == s.termClose)
  }

  lemma ReleasedStep(timed: Timed, c: Ts, ev: Event, id: Id)
    requires TsInv(timed, c) && CanHandle(c, ev) && id in c.reqs && id !in c.pending
    ensures var c' := Handle(timed, c, ev);
            id in c'.reqs && id !in c'.pending && SameAnswer(c.reqs[id], c'.reqs[id])
  {
    assert !c.reqs[id].armed by { assert EntryInv(timed, false, c.reqs[id]); }
    match ev
    case Turn(j, t) => if j == id { TurnFrame(c.reqs[id].stream.value, t); }
    case CancelBody(j) => ReleasedCancel(c, j, id);
    case Message(j, f) => ReleasedMessage(timed, c, j, f, id);
    case _ =>
  }

  lemma ReleasedCancel(c: Ts, j: Id, id: Id)
    requires HasStream(c, j) && id in c.reqs && id !in c.pending
    ensures var c' := DoCancel(c, j);
            id in c'.reqs && id !in c'.pending && SameAnswer(c.reqs[id], c'.reqs[id])
  {}

  /** A frame for a released request changes nothing at all; one for another request leaves it alone. */
  lemma ReleasedMessage(timed: Timed, c: Ts, j: Id, f: Frame, id: Id)
    requires id in c.reqs && id !in c.pending
    ensures DoMessage(timed, c, id, f) == c
    ensures var c' := DoMessage(timed, c, j, f);
            id in c'.reqs && id !in c'.pending && c'.reqs[id] == c.reqs[id]
  {}

  // ----- causes that are not frames -----

  /** The timer, if there is one, or close. */
  ghost predicate StopCause(timed: Timed, closedErr: Option<Failure>, f: Failure) {
    (timed && f == ReadTimeout) || closedErr == Some(f)
  }

  ghost predicate EntryCauses(timed: Timed, closedErr: Option<Failure>, e: Entry) {
    && (e.armed ==> timed)
    && (e.promise.Rejected? && !FromFrames(e.promise.why) ==> StopCause(timed, closedErr, e.promise.why))
    && (e.stream.Some? && e.stream.value.termErr.Some? && !FromFrames(e.stream.value.termErr.value) ==>
          StopCause(timed, closedErr, e.stream.value.termErr.value))
  }

  ghost predicate Causes(timed: Timed, c: Ts) {
    forall id :: id in c.reqs ==> EntryCauses(timed, c.closedErr, c.reqs[id])
  }

  lemma ProcessCauses(timed: Timed, closedErr: Option<Failure>, e: Entry, f: Frame)
    requires EntryCauses(timed, closedErr, e)
    ensures EntryCauses(timed, closedErr, Process(e, f).0)
  {}

  lemma FailCauses(timed: Timed, closedErr: Option<Failure>, e: Entry, why: Failure)
    requires EntryCauses(timed, closedErr, e) && StopCause(timed, closedErr, why)
    ensures EntryCauses(timed, closedErr, FailEntry(e, why))
  {}

  lemma PutCauses(timed: Timed, c: Ts, id: Id, e: Entry, stays: bool)
    requires Causes(timed, c) && EntryCauses(timed, c.closedErr, e)
    ensures Causes(timed, Put(c, id, e, stays))
  {}

  lemma CloseCauses(timed: Timed, c: Ts, err: Option<CloseErr>)
    requires Causes(timed, c)
    ensures Causes(timed, DoClose(c, err))
  {
    if c.closedErr.None? {
      var why := CloseFailure(err);
      forall id | id in c.reqs ensures EntryCauses(timed, Some(why), DoClose(c, err).reqs[id]) {
        assert EntryCauses(timed, c.closedErr, c.reqs[id]);
        FailCauses(timed, Some(why), c.reqs[id].(armed := false), why);
      }
    }
  }

  lemma HandleCauses(timed: Timed, c: Ts, ev: Event)
    requires Causes(timed, c) && CanHandle(c, ev)
    ensures Causes(timed, Handle(timed, c, ev))
  {
    match ev
    case Request(id) =>
    case Message(id, f) =>
      if id in c.pending && id in c.reqs {
        var heard := c.reqs[id].(heard := c.reqs[id].heard + [f]);
        ProcessCauses(timed, c.closedErr, heard, f);
        var (e, stays) := Process(heard, f);
        PutCauses(timed, c, id, e.(armed := stays && timed), stays);
      }
    case Timeout(id) =>
      var e := c.reqs[id].(armed := false);
      FailCauses(timed, c.closedErr, e, ReadTimeout);
      PutCauses(timed, c, id, FailEntry(e, ReadTimeout), false);
    case Close(err) => CloseCauses(timed, c, err);
    case CancelBody(id) => assert EntryCauses(timed, c.closedErr, c.reqs[id]);
    case Turn(id, t) =>
      var e := c.reqs[id];
      TurnFrame(e.stream.value, t);
      PutCauses(timed, c, id, e.(stream := Some(DoTurn(e.stream.value, t))), true);
  }

  lemma {:induction false} RunCauses(timed: Timed, c: Ts, evs: seq<Event>)
    requires Causes(timed, c) && CanRun(timed, c, evs)
    ensures Causes(timed, Run(timed, c, evs))
    decreases evs
  {
    if evs != [] {
      HandleCauses(timed, c, evs[0]);
      RunCauses(timed, Handle(timed, c, evs[0]), evs[1..]);
    }
  }

  lemma ReachableCauses(timed: Timed, c: Ts)
    requires Reachable(timed, c)
    ensures Causes(timed, c)
  {
    var evs :| CanRun(timed, NEW_CALLER, evs) && Run(timed, NEW_CALLER, evs) == c;
    RunCauses(timed, NEW_CALLER, evs);
  }

  // ----- the reader's view -----

  /**
   The promise of every request is the one the view asks for: unsettled while nothing was said,
   resolved under the view's head, rejected for the view's reason, or else by the timeout or Close.
   */
  lemma PromiseRefines(timed: Timed, c: Ts, id: Id)
    requires Reachable(timed, c) && id in c.reqs
    ensures var v := TsInterpret(c.reqs[id].heard);
            match c.reqs[id].promise
            case Unsettled => v == Nothing
            case Resolved(h) => (v.Whole? || v.Streaming?) && v.head == h && HasStream(c, id)
            case Rejected(why) =>
              if FromFrames(why) then v == Refused(why) else v == Nothing && StopCause(timed, c.closedErr, why)
  {
    ReachableInv(timed, c);
    ReachableCauses(timed, c);
    assert EntryInv(timed, id in c.pending, c.reqs[id]) && EntryCauses(timed, c.closedErr, c.reqs[id]);
  }

  /**
   The TypeScript caller refines TsInterpret: a stream that ends without cancel has delivered
   exactly the view's bytes, and its ending is the view's unless a timeout or Close cut it short.
   */
  lemma TsRefines(timed: Timed, c: Ts, id: Id)
    requires Reachable(timed, c) && HasStream(c, id) && !c.reqs[id].stream.value.cancelled
    ensures var e := c.reqs[id];
            var s := e.stream.value;
            var v := TsInterpret(e.heard);
            && (v.Whole? || v.Streaming?) && e.promise == Resolved(v.head)
            && Concat(s.delivered) <= BodyOf(v)
            && (s.st.Finished? ==> EndsAs(v, Concat(s.delivered), CleanEof))
            && (s.st.Errored? ==>
                  EndsAs(v, Concat(s.delivered), if FromFrames(s.st.why) then Broke(s.st.why) else Open))
            && (s.st.Errored? && !FromFrames(s.st.why) ==> StopCause(timed, c.closedErr, s.st.why))
  {
    ReachableInv(timed, c);
    ReachableCauses(timed, c);
    assert EntryCauses(timed, c.closedErr, c.reqs[id]);
    var e := c.reqs[id];
    assert EntryInv(timed, id in c.pending, e);
    StreamConservation(timed, c, id);
    var s := e.stream.value;
    ConcatAppend(s.delivered, s.cq + s.buffer);
    assert s.delivered + s.cq + s.buffer == s.delivered + (s.cq + s.buffer);
  }
}
