/**
 The body stream of the TypeScript caller: a chunk buffer of its own above the queue of a
 ReadableStream default controller (sections 4.5 and 4.9.4 of the WHATWG Streams Standard,
 default high-water mark 1). Each function is one run-to-completion turn of the event loop.
 */
module TsStream {
  import opened Protocol

  /** The pull algorithm: not running, awaiting notify, or returned with its promise reaction still to come. */
  datatype Pull = NoPull | Suspended(notified: bool) | Settling

  datatype StreamState = Readable | Finished | Errored(why: Failure)

  datatype Stream = Stream(
    buffer: seq<Bytes>, termErr: Option<Failure>, termClose: bool,   // the caller's closure
    pull: Pull, pullAgain: bool, started: bool,                      // the controller
    cq: seq<Bytes>, waiting: nat, closeReq: bool, st: StreamState,   // its queue and pending reads
    received: seq<Bytes>, delivered: seq<Bytes>, cancelled: bool)    // history

  const OPENED := Stream([], None, false, NoPull, false, false, [], 0, false, Readable, [], [], false)

  /** new ReadableStream({start}) of a buffered response: one chunk at most, then close. */
  function Buffered(body: Bytes): Stream {
    var cs := if body == [] then [] else [body];
    var st := if cs == [] then Finished else Readable;
    OPENED.(cq := cs, closeReq := true, st := st, received := cs, termClose := true)
  }

  // ----- the callbacks held by the pending entry -----

  function Notify(s: Stream): Stream { if s.pull.Suspended? then s.(pull := Suspended(true)) else s }

  function StreamPush(s: Stream, chunk: Bytes): Stream {
    Notify(s.(buffer := s.buffer + [chunk], received := s.received + [chunk]))
  }

  function StreamClose(s: Stream): Stream { Notify(s.(termClose := true)) }

  function StreamError(s: Stream, why: Failure): Stream { Notify(s.(termErr := Some(why))) }

  // ----- the controller -----

  predicate CanCloseOrEnqueue(s: Stream) { s.st.Readable? && !s.closeReq }

  predicate ShouldCallPull(s: Stream) {
    CanCloseOrEnqueue(s) && s.started && (s.waiting > 0 || |s.cq| < 1)
  }

  function Enqueue(s: Stream, chunk: Bytes): Stream {
    if !CanCloseOrEnqueue(s) then s
    else
      var s' := if s.waiting > 0 then s.(waiting := s.waiting - 1, delivered := s.delivered + [chunk])
                else s.(cq := s.cq + [chunk]);
      if ShouldCallPull(s') then s'.(pullAgain := true) else s'
  }

  function ControllerError(s: Stream, why: Failure): Stream {
    if s.st.Readable? then s.(cq := [], st := Errored(why), waiting := 0) else s
  }

  function ControllerClose(s: Stream): Stream {
    if !CanCloseOrEnqueue(s) then s
    else if s.cq == [] then s.(closeReq := true, st := Finished, waiting := 0)
    else s.(closeReq := true)
  }

  predicate Idle(s: Stream) { s.buffer == [] && s.termErr.None? && !s.termClose }

  /** The body of pull from the head of its loop to its next suspension or return. */
  function RunPull(s: Stream): Stream {
    if Idle(s) then s.(pull := Suspended(false))
    else
      var s' := s.(pull := Settling);
      if s.buffer != [] then Enqueue(s'.(buffer := s.buffer[1..]), s.buffer[0])
      else if s.termErr.Some? then ControllerError(s', s.termErr.value)
      else ControllerClose(s')
  }

  function CallPullIfNeeded(s: Stream): Stream {
    if !ShouldCallPull(s) then s
    else if s.pull != NoPull then s.(pullAgain := true)
    else RunPull(s)
  }

  // ----- turns -----

  datatype Turn = StartSettled | PullWake | PullSettled | Read

  predicate CanTurn(s: Stream, t: Turn) {
    match t
    case StartSettled => !s.started
    case PullWake => s.pull == Suspended(true)
    case PullSettled => s.pull == Settling
    case Read => true
  }

  function DoTurn(s: Stream, t: Turn): Stream
    requires CanTurn(s, t)
  {
    match t
    case StartSettled => CallPullIfNeeded(s.(started := true))
    case PullWake => RunPull(s)
    case PullSettled =>
      var s' := s.(pull := NoPull, pullAgain := false);
      if s.pullAgain then CallPullIfNeeded(s') else s'
    case Read =>
      if !s.st.Readable? then s
      else if s.cq == [] then CallPullIfNeeded(s.(waiting := s.waiting + 1))
      else
        var s' := s.(cq := s.cq[1..], delivered := s.delivered + [s.cq[0]]);
        if s.closeReq && s'.cq == [] then s'.(st := Finished) else CallPullIfNeeded(s')
  }

  /** reader.cancel(): only a readable stream reaches the caller's cancel callback. */
  function Cancel(s: Stream): Stream {
    if !s.st.Readable? then s
    else s.(st := Finished, waiting := 0, cq := [], buffer := [], cancelled := true)
  }

  // ----- invariant -----

  lemma {:induction false} ConcatAppend(a: seq<Bytes>, b: seq<Bytes>)
    ensures Concat(a + b) == Concat(a) + Concat(b)
  {
    if a == [] {
      assert a + b == b && [] + Concat(b) == Concat(b);
    } else {
      assert (a + b)[1..] == a[1..] + b;
      ConcatAppend(a[1..], b);
      assert a[0] + (Concat(a[1..]) + Concat(b)) == (a[0] + Concat(a[1..])) + Concat(b);
    }
  }

  /** Nothing is lost between push and the reader, and nothing is left when the controller ends the stream. */
  ghost predicate Conserved(s: Stream) {
    && (!s.cancelled ==> s.delivered + s.cq + s.buffer == s.received)
    && (s.cancelled ==> s.st == Finished && s.buffer == [] && s.cq == [])
    && (s.st.Errored? ==> s.termErr == Some(s.st.why) && s.cq == [] && s.buffer == [])
    && (s.closeReq ==> s.termClose && s.buffer == [] && (s.st.Readable? ==> s.cq != []))
    && (s.st == Finished && !s.cancelled ==> s.closeReq && s.cq == [])
    && !(s.termErr.Some? && s.termClose)
  }

  /** The controller's bookkeeping: a suspended pull leaves its queue empty, and no work waits unnoticed. */
  ghost predicate Scheduled(s: Stream) {
    && |s.cq| <= 1
    && (s.waiting > 0 ==> s.cq == [] && s.st.Readable? && !s.closeReq)
    && (s.pull.Suspended? ==> s.cq == [] && !s.closeReq)
    && (s.pull == Suspended(false) && !s.cancelled ==> Idle(s))
    && (s.pull != NoPull ==> s.started)
    && (ShouldCallPull(s) ==> s.pull.Suspended? || (s.pull.Settling? && s.pullAgain))
  }

  ghost predicate StreamInv(s: Stream) { Conserved(s) && Scheduled(s) }

  lemma BufferedInv(body: Bytes)
    ensures StreamInv(Buffered(body)) && Concat(Buffered(body).received) == body
  {
    if body != [] { assert [body][1..] == [] && body + [] == body; }
  }

  lemma EnqueueKeeps(s: Stream, chunk: Bytes)
    requires CanCloseOrEnqueue(s) && s.pull.Settling? && s.started && s.cq == [] && !s.cancelled
    requires s.delivered + [chunk] + s.buffer == s.received && !(s.termErr.Some? && s.termClose)
    ensures StreamInv(Enqueue(s, chunk))
  {
    assert s.delivered + [chunk] + [] + s.buffer == s.delivered + [chunk] + s.buffer;
    assert s.delivered + ([] + [chunk]) + s.buffer == s.delivered + [chunk] + s.buffer;
  }

  /** What holds whenever pull starts or resumes. */
  ghost predicate PullReady(s: Stream) {
    Conserved(s) && s.started && s.cq == [] && !s.closeReq && (s.waiting > 0 ==> s.st.Readable?)
  }

  lemma RunPullKeeps(s: Stream)
    requires PullReady(s)
    ensures StreamInv(RunPull(s))
  {
    if s.buffer != [] {
      assert !s.cancelled && CanCloseOrEnqueue(s);
      var s' := s.(pull := Settling, buffer := s.buffer[1..]);
      assert s.delivered + [s.buffer[0]] + s.buffer[1..] == s.delivered + [] + s.buffer;
      EnqueueKeeps(s', s.buffer[0]);
    }
  }

  /** As Scheduled, except that pull may have to be called. */
  ghost predicate Due(s: Stream) {
    && |s.cq| <= 1
    && (s.waiting > 0 ==> s.cq == [] && s.st.Readable? && !s.closeReq)
    && (s.pull.Suspended? ==> s.cq == [] && !s.closeReq)
    && (s.pull == Suspended(false) && !s.cancelled ==> Idle(s))
    && (s.pull != NoPull ==> s.started)
  }

  lemma CallPullKeeps(s: Stream)
    requires Conserved(s) && Due(s)
    ensures StreamInv(CallPullIfNeeded(s))
  {
    if ShouldCallPull(s) && s.pull == NoPull { RunPullKeeps(s); }
  }

  lemma TurnKeeps(s: Stream, t: Turn)
    requires StreamInv(s) && CanTurn(s, t)
    ensures StreamInv(DoTurn(s, t))
  {
    match t
    case StartSettled => CallPullKeeps(s.(started := true));
    case PullWake => RunPullKeeps(s);
    case PullSettled => if s.pullAgain { CallPullKeeps(s.(pull := NoPull, pullAgain := false)); }
    case Read =>
      if s.st.Readable? {
        if s.cq == [] {
          CallPullKeeps(s.(waiting := s.waiting + 1));
        } else {
          var s' := s.(cq := s.cq[1..], delivered := s.delivered + [s.cq[0]]);
          assert s.cq == [s.cq[0]] + s.cq[1..];
          assert s'.delivered + s'.cq + s.buffer == s.delivered + s.cq + s.buffer;
          if !(s.closeReq && s'.cq == []) { CallPullKeeps(s'); }
        }
      }
  }

  lemma PushKeeps(s: Stream, chunk: Bytes)
    requires StreamInv(s) && !s.cancelled && !s.termClose && s.termErr.None?
    ensures StreamInv(StreamPush(s, chunk))
  {
    assert s.delivered + s.cq + (s.buffer + [chunk]) == (s.delivered + s.cq + s.buffer) + [chunk];
  }

  lemma CancelKeeps(s: Stream)
    requires StreamInv(s)
    ensures StreamInv(Cancel(s))
  {}

  /** Neither a turn nor the controller touches what the caller's callbacks wrote, buffer aside. */
  ghost predicate SameInput(s: Stream, s': Stream) {
    s'.received == s.received && s'.termErr == s.termErr && s'.termClose == s.termClose && s'.cancelled == s.cancelled
  }

  lemma RunPullFrame(s: Stream)
    ensures SameInput(s, RunPull(s))
  {}

  lemma CallPullFrame(s: Stream)
    ensures SameInput(s, CallPullIfNeeded(s))
  {
    RunPullFrame(s);
  }

  lemma TurnFrame(s: Stream, t: Turn)
    requires CanTurn(s, t)
    ensures SameInput(s, DoTurn(s, t))
  {
    match t
    case StartSettled => CallPullFrame(s.(started := true));
    case PullWake => RunPullFrame(s);
    case PullSettled => CallPullFrame(s.(pull := NoPull, pullAgain := false));
    case Read =>
      if s.cq == [] { CallPullFrame(s.(waiting := s.waiting + 1)); }
      else { CallPullFrame(s.(cq := s.cq[1..], delivered := s.delivered + [s.cq[0]])); }
  }

  // ----- progress -----

  predicate Reaction(t: Turn) { t != Read }

  /** What the promise reactions still have to do: buffered chunks, an ending, and the reaction due. */
  function Effort(s: Stream): nat {
    2 * |s.buffer| + (if CanCloseOrEnqueue(s) then 2 else 0) + (if s.started then 0 else 2)
    + match s.pull
      case NoPull => 0
      case Suspended(notified) => if notified then 2 else 0
      case Settling => 1
  }

  lemma RunPullKeepsEffort(s: Stream)
    ensures s.pull == Suspended(true) ==> Effort(RunPull(s)) < Effort(s)
    ensures s.pull.NoPull? && CanCloseOrEnqueue(s) ==> Effort(RunPull(s)) <= Effort(s)
  {
    if s.buffer != [] {
      EnqueueKeepsEffort(s.(pull := Settling, buffer := s.buffer[1..]), s.buffer[0]);
    } else if s.termErr.Some? {
      EndKeepsEffort(s.(pull := Settling), s.termErr.value);
    } else if s.termClose {
      EndKeepsEffort(s.(pull := Settling), ReadTimeout);
    }
  }

  lemma EnqueueKeepsEffort(s: Stream, chunk: Bytes)
    ensures Effort(Enqueue(s, chunk)) == Effort(s)
  {}

  lemma EndKeepsEffort(s: Stream, why: Failure)
    ensures CanCloseOrEnqueue(s) ==> Effort(ControllerError(s, why)) == Effort(s) - 2
    ensures CanCloseOrEnqueue(s) ==> Effort(ControllerClose(s)) == Effort(s) - 2
    ensures Effort(ControllerError(s, why)) <= Effort(s) && Effort(ControllerClose(s)) <= Effort(s)
  {}

  lemma CallPullKeepsEffort(s: Stream)
    ensures Effort(CallPullIfNeeded(s)) <= Effort(s)
  {
    RunPullKeepsEffort(s);
  }

  /** Every promise reaction does some of it, and a read adds nothing to it. */
  lemma ReactionLowersEffort(s: Stream, t: Turn)
    requires CanTurn(s, t)
    ensures if Reaction(t) then Effort(DoTurn(s, t)) < Effort(s) else Effort(DoTurn(s, t)) <= Effort(s)
  {
    match t
    case StartSettled => CallPullKeepsEffort(s.(started := true));
    case PullWake => RunPullKeepsEffort(s);
    case PullSettled => CallPullKeepsEffort(s.(pull := NoPull, pullAgain := false));
    case Read =>
      if s.cq == [] { CallPullKeepsEffort(s.(waiting := s.waiting + 1)); }
      else { CallPullKeepsEffort(s.(cq := s.cq[1..], delivered := s.delivered + [s.cq[0]])); }
  }

  /** A read takes the chunk at the head of the controller's queue, or is counted as waiting for one. */
  lemma ReadTakesOrWaits(s: Stream)
    requires StreamInv(s) && s.st.Readable?
    ensures var s' := DoTurn(s, Read);
            if s.cq != [] then s'.delivered == s.delivered + [s.cq[0]] && s'.waiting == s.waiting
            else s'.delivered == s.delivered && s'.waiting == s.waiting + 1 && s'.st.Readable?
  {}

  /** A reaction answers waiting reads with chunks, one for one and in order, unless it ends the stream. */
  lemma ReactionAnswersReads(s: Stream, t: Turn)
    requires StreamInv(s) && CanTurn(s, t) && Reaction(t)
    ensures var s' := DoTurn(s, t);
            && s.delivered <= s'.delivered
            && (s'.st.Readable? ==> s'.waiting + |s'.delivered| == s.waiting + |s.delivered|)
            && (s.st.Readable? && !s'.st.Readable? ==> s'.delivered == s.delivered && s'.waiting == 0)
  {
    match t
    case StartSettled => PullAnswersReads(s.(started := true));
    case PullWake => PullAnswersReads(s);
    case PullSettled => PullAnswersReads(s.(pull := NoPull, pullAgain := false));
  }

  /** Between these two states reads were answered with chunks, or ended. */
  ghost predicate Answered(s: Stream, s': Stream) {
    && s.delivered <= s'.delivered
    && (s'.st.Readable? ==> s'.waiting + |s'.delivered| == s.waiting + |s.delivered|)
    && (s.st.Readable? && !s'.st.Readable? ==> s'.delivered == s.delivered && s'.waiting == 0)
  }

  lemma EnqueueAnswersReads(s: Stream, chunk: Bytes)
    ensures Answered(s, Enqueue(s, chunk))
  {}

  lemma PullAnswersReads(s: Stream)
    ensures Answered(s, RunPull(s))
  {
    if s.buffer != [] { EnqueueAnswersReads(s.(pull := Settling, buffer := s.buffer[1..]), s.buffer[0]); }
  }

  /** No promise reaction is due. */
  ghost predicate Rested(s: Stream) { forall t :: Reaction(t) ==> !CanTurn(s, t) }

  /** The reader has asked for more, or has been told that there is no more. */
  predicate Asked(s: Stream) { s.waiting > 0 || !s.st.Readable? }

  /** All that was pushed has been read, and the stream has ended as it was told to, if it was. */
  ghost predicate Served(s: Stream) {
    && s.buffer == [] && s.cq == [] && s.delivered == s.received
    && if s.termErr.Some? then s.st == Errored(s.termErr.value)
       else if s.termClose then s.st == Finished
       else s.st == Readable && s.waiting > 0
  }

  /** When no reaction is due, a reader that has kept asking has been served. */
  lemma RestedIsServed(s: Stream)
    requires StreamInv(s) && Rested(s) && Asked(s) && !s.cancelled
    ensures Served(s)
  {
    assert !CanTurn(s, StartSettled) && !CanTurn(s, PullWake) && !CanTurn(s, PullSettled);
    assert s.delivered + [] + [] == s.delivered;
  }

  predicate CanTurns(s: Stream, ts: seq<Turn>)
    decreases ts
  {
    ts == [] || (CanTurn(s, ts[0]) && CanTurns(DoTurn(s, ts[0]), ts[1..]))
  }

  function DoTurns(s: Stream, ts: seq<Turn>): Stream
    requires CanTurns(s, ts)
    decreases ts
  {
    if ts == [] then s else DoTurns(DoTurn(s, ts[0]), ts[1..])
  }

  function Reactions(ts: seq<Turn>): nat {
    if ts == [] then 0 else (if Reaction(ts[0]) then 1 else 0) + Reactions(ts[1..])
  }

  /** On every schedule of reads and reactions, if nothing more is pushed, few reactions are left. */
  lemma {:induction false} ReactionsAreBounded(s: Stream, ts: seq<Turn>)
    requires CanTurns(s, ts)
    ensures Reactions(ts) + Effort(DoTurns(s, ts)) <= Effort(s)
    decreases ts
  {
    if ts != [] {
      ReactionLowersEffort(s, ts[0]);
      ReactionsAreBounded(DoTurn(s, ts[0]), ts[1..]);
    }
  }

  /** What is left to do until a reader that keeps asking is served. */
  function Until(s: Stream): nat { 4 * Effort(s) + 2 * |s.cq| + if Asked(s) then 0 else 1 }

  lemma TurnLowersUntil(s: Stream, t: Turn)
    requires StreamInv(s) && CanTurn(s, t) && (t == Read ==> !Asked(s))
    ensures Until(DoTurn(s, t)) < Until(s)
  {
    ReactionLowersEffort(s, t);
  }

  /** From every state a reader that keeps asking can be served. */
  lemma CanServe(s: Stream) returns (ts: seq<Turn>)
    requires StreamInv(s) && !s.cancelled
    ensures CanTurns(s, ts) && Rested(DoTurns(s, ts)) && Asked(DoTurns(s, ts)) && Served(DoTurns(s, ts))
    decreases Until(s)
  {
    if Rested(s) && Asked(s) {
      RestedIsServed(s);
      ts := [];
    } else {
      var t := Read;
      if !Rested(s) { t :| Reaction(t) && CanTurn(s, t); }
      TurnKeeps(s, t);
      TurnLowersUntil(s, t);
      TurnFrame(s, t);
      var rest := CanServe(DoTurn(s, t));
      ts := [t] + rest;
      assert ts[1..] == rest;
    }
  }
}
