/**
 The objects behind one response body: the variables shared by the closures of HTTPResponseStart
 and the default controller of the ReadableStream they feed. Every method is a step of TsStream.
 */
module TsBodies {
  import opened Protocol
  import S = TsStream

  class BodyStream {
    // captured by pull, cancel and the three callbacks
    var buffer: seq<Bytes>
    var terminalErr: Option<Failure>
    var terminalClose: bool
    // the controller
    var pull: S.Pull
    var pullAgain: bool
    var started: bool
    var cq: seq<Bytes>
    var waiting: nat
    var closeReq: bool
    var st: S.StreamState
    /** The pending request this stream was made for. */
    ghost const owner: object
    // history
    ghost var received: seq<Bytes>
    ghost var delivered: seq<Bytes>
    ghost var cancelled: bool

    ghost function State(): S.Stream reads this {
      S.Stream(buffer, terminalErr, terminalClose, pull, pullAgain, started, cq, waiting, closeReq, st,
               received, delivered, cancelled)
    }

    constructor (ghost owner: object)
      ensures State() == S.OPENED && this.owner == owner
    {
      this.owner := owner;
      buffer, terminalErr, terminalClose := [], None, false;
      pull, pullAgain, started, cq, waiting, closeReq, st := S.NoPull, false, false, [], 0, false, S.Readable;
      received, delivered, cancelled := [], [], false;
    }

    /** The stream of a buffered response: start enqueues the body, if any, and closes. */
    constructor Whole(body: Bytes, ghost owner: object)
      ensures State() == S.Buffered(body) && this.owner == owner
    {
      this.owner := owner;
      buffer, terminalErr, terminalClose := [], None, true;
      pull, pullAgain, started, waiting, closeReq := S.NoPull, false, false, 0, true;
      cq := if |body| > 0 then [body] else [];
      st := if |body| > 0 then S.Readable else S.Finished;
      received, delivered, cancelled := if |body| > 0 then [body] else [], [], false;
    }

    method Notify()
      modifies `pull
      ensures State() == S.Notify(old(State()))
    {
      if pull.Suspended? { pull := S.Suspended(true); }
    }

    /** streamPush */
    method Push(chunk: Bytes)
      modifies this
      ensures State() == S.StreamPush(old(State()), chunk)
    {
      buffer := buffer + [chunk];
      received := received + [chunk];
      Notify();
    }

    /** streamClose */
    method Close()
      modifies this
      ensures State() == S.StreamClose(old(State()))
    {
      terminalClose := true;
      Notify();
    }

    /** streamError */
    method Fail(why: Failure)
      modifies this
      ensures State() == S.StreamError(old(State()), why)
    {
      terminalErr := Some(why);
      Notify();
    }

    method Enqueue(chunk: Bytes)
      modifies this
      ensures State() == S.Enqueue(old(State()), chunk)
    {
      if !st.Readable? || closeReq { return; }
      if waiting > 0 {
        waiting := waiting - 1;
        delivered := delivered + [chunk];
      } else {
        cq := cq + [chunk];
      }
      if ShouldCallPull() { pullAgain := true; }
    }

    predicate ShouldCallPull()
      reads this
      ensures ShouldCallPull() == S.ShouldCallPull(State())
    {
      st.Readable? && !closeReq && started && (waiting > 0 || |cq| < 1)
    }

    /** controller.error: the queue is reset. */
    method ControllerError(why: Failure)
      modifies this
      ensures State() == S.ControllerError(old(State()), why)
    {
      if st.Readable? { cq, st, waiting := [], S.Errored(why), 0; }
    }

    method ControllerClose()
      modifies this
      ensures State() == S.ControllerClose(old(State()))
    {
      if !st.Readable? || closeReq { return; }
      closeReq := true;
      if cq == [] { st, waiting := S.Finished, 0; }
    }

    /** pull, from the head of its loop to the next await or return. */
    method RunPull()
      modifies this
      ensures State() == S.RunPull(old(State()))
    {
      if |buffer| == 0 && terminalErr.None? && !terminalClose {
        pull := S.Suspended(false);
        return;
      }
      pull := S.Settling;
      if |buffer| > 0 {
        var chunk := buffer[0];
        buffer := buffer[1..];
        Enqueue(chunk);
      } else if terminalErr.Some? {
        ControllerError(terminalErr.value);
      } else {
        ControllerClose();
      }
    }

    method CallPullIfNeeded()
      modifies this
      ensures State() == S.CallPullIfNeeded(old(State()))
    {
      if !ShouldCallPull() { return; }
      if pull != S.NoPull { pullAgain := true; } else { RunPull(); }
    }

    /** A chunk is there for the reader. */
    method ReadQueued()
      requires st.Readable? && cq != []
      modifies this
      ensures State() == S.DoTurn(old(State()), S.Read)
    {
      delivered := delivered + [cq[0]];
      cq := cq[1..];
      if closeReq && cq == [] { st := S.Finished; } else { CallPullIfNeeded(); }
    }

    method Read()
      modifies this
      ensures State() == S.DoTurn(old(State()), S.Read)
    {
      if !st.Readable? { return; }
      if cq == [] {
        waiting := waiting + 1;
        CallPullIfNeeded();
      } else {
        ReadQueued();
      }
    }

    /** A promise reaction or a read. */
    method Turn(t: S.Turn)
      requires S.CanTurn(State(), t)
      modifies this
      ensures State() == S.DoTurn(old(State()), t)
    {
      match t {
        case StartSettled =>
          started := true;
          CallPullIfNeeded();
        case PullWake => RunPull();
        case PullSettled =>
          var again := pullAgain;
          pull, pullAgain := S.NoPull, false;
          if again { CallPullIfNeeded(); }
        case Read => Read();
      }
    }

    /** reader.cancel(), and whether it reaches the underlying source's cancel. */
    method Cancel() returns (reached: bool)
      modifies this
      ensures State() == S.Cancel(old(State()))
      ensures reached == (old(st).Readable? && !old(closeReq))
    {
      reached := st.Readable? && !closeReq;
      if st.Readable? { st, waiting, cq, buffer, cancelled := S.Finished, 0, [], [], true; }
    }
  }
}
