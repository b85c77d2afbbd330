/**
 createHOWCaller as objects: pending requests shared with their timers, streams shared with the
 callbacks stored in those requests. What every method does to the objects is an event of TsModel.
 */
module TsCallers {
  import opened Protocol
  import S = TsStream
  import opened TsBodies
  import opened TsModel
  import opened TsTheorems

  /** PendingRequest. callbacks: the stream that streamPush, streamClose and streamError feed. */
  class PendingRequest {
    ghost const id: Id
    var armed: bool
    var promise: Promise
    var callbacks: BodyStream?
    var body: BodyStream?  // the stream the caller was given
    ghost var heard: seq<Frame>

    /** Aliasing decides which stream the callbacks reach: the caller's, or one nobody can read. */
    ghost function State(): Entry reads this, body {
      Entry(armed, promise,
            if callbacks == null then NoHook else if callbacks == body then Visible else Hidden,
            if body == null then None else Some(body.State()), heard)
    }

    /** All that may change when the request does. */
    ghost function Parts(): set<object> reads this { {this} + Streams() }

    ghost predicate Within(parts: set<object>) reads this {
      this in parts && (body != null ==> body in parts) && (callbacks != null ==> callbacks in parts)
    }

    /** Its streams are those it had, or among the new ones. */
    ghost predicate Grown(was: BodyStream?, fed: BodyStream?, made: set<object>) reads this {
      (body == was || body in made) && (callbacks == fed || callbacks in made)
    }

    /** Its streams were made for it, and it has a body only once it is settled. */
    ghost predicate Own() reads this {
      && (body != null ==> body.owner == this && !promise.Unsettled?)
      && (callbacks != null ==> callbacks.owner == this)
    }

    ghost function Streams(): set<object> reads this {
      (if body == null then {} else {body}) + (if callbacks == null then {} else {callbacks})
    }

    constructor (ghost id: Id)
      ensures this.id == id && Own() && State() == Entry(false, Unsettled, NoHook, None, [])
      ensures body == null && callbacks == null
    {
      this.id := id;
      armed, promise, callbacks, body, heard := false, Unsettled, null, null, [];
    }

    /** Cancelling the body; the cancel callback clears the timer and lets go of the callbacks. */
    method CancelBody() returns (stays: bool)
      requires Own() && body != null
      modifies `armed, `callbacks, body
      ensures Own() && (State(), stays) == CancelEntry(old(State()))
      ensures body == old(body) && (callbacks == old(callbacks) || callbacks == null)
    {
      var reached := body.Cancel();
      if reached { armed, callbacks := false, null; }
      stays := !reached;
    }

    /** A read of the body, or one of its promise reactions. */
    method BodyTurn(t: S.Turn)
      requires Own() && body != null && S.CanTurn(body.State(), t)
      modifies body
      ensures Own() && State() == old(State()).(stream := Some(S.DoTurn(old(body.State()), t)))
    {
      body.Turn(t);
    }

    method Resolve(head: Head, stream: BodyStream)
      modifies `promise, `body
      ensures if old(promise).Unsettled? then promise == Resolved(head) && body == stream
              else promise == old(promise) && body == old(body)
    {
      if promise.Unsettled? { promise, body := Resolved(head), stream; }
    }

    method Reject(why: Failure)
      modifies `promise
      ensures State() == TsModel.Reject(old(State()), why) && (old(Own()) ==> Own())
    {
      if promise.Unsettled? { promise := Rejected(why); }
    }

    /** entry.streamError if there is one, else entry.reject. */
    method Fail(why: Failure)
      requires Own()
      modifies `promise, callbacks
      ensures Own() && State() == FailEntry(old(State()), why)
    {
      if callbacks != null { callbacks.Fail(why); } else { Reject(why); }
    }

    /** The timer goes, and the stream or the promise fails. */
    method Stop(why: Failure)
      requires Own()
      modifies `promise, `armed, callbacks
      ensures Own() && State() == CloseEntry(old(State()), why)
    {
      armed := false;
      Fail(why);
    }

    method OnResponse(whole: Option<(Head, Bytes)>)
      requires Own()
      modifies `promise, `body
      ensures Own() && State() == Process(old(State()), Response(whole)).0
      ensures body == old(body) || fresh(body)
    {
      if whole.None? { return; }
      var stream := new BodyStream.Whole(whole.value.1, this);
      Resolve(whole.value.0, stream);
    }

    /** The callbacks are in place before a missing payload makes the handler throw. */
    method OnStart(head: Option<Head>)
      requires Own()
      modifies `promise, `body, `callbacks
      ensures Own() && State() == Process(old(State()), Start(head)).0
      ensures (body == old(body) || fresh(body)) && fresh(callbacks)
    {
      var stream := new BodyStream(this);
      callbacks := stream;
      if head.Some? { Resolve(head.value, stream); }
    }

    method OnChunk(data: Option<Bytes>)
      modifies callbacks
      ensures State() == Process(old(State()), Chunk(data)).0
    {
      if data.Some? && callbacks != null { callbacks.Push(data.value); }
    }

    method OnEnd()
      modifies callbacks
      ensures State() == Process(old(State()), End).0
    {
      if callbacks != null { callbacks.Close(); }
    }

    method OnError(info: Option<ErrorInfo>)
      requires Own()
      modifies `promise, callbacks
      ensures Own() && State() == Process(old(State()), Error(info)).0
    {
      if info.Some? { Fail(MessageOnly(Remote(info.value))); }
    }

    /** The switch of processEnvelope; stays is false where the entry leaves pending. */
    method Act(f: Frame) returns (stays: bool)
      requires Own()
      modifies this, callbacks
      ensures Own() && (State(), stays) == Process(old(State()), f)
      ensures (body == old(body) || fresh(body)) && (callbacks == old(callbacks) || fresh(callbacks))
    {
      stays := !f.Response? && !f.End? && !f.Error?;
      match f {
        case Response(whole) => OnResponse(whole);
        case Start(head) => OnStart(head);
        case Chunk(data) => OnChunk(data);
        case End => OnEnd();
        case Error(info) => OnError(info);
        case Other(_) =>
      }
    }

    /** The frame goes on record and through the switch. made are the new streams. */
    method Hear(f: Frame) returns (stays: bool, ghost made: set<object>)
      requires Own()
      modifies this, callbacks
      ensures Own() && (State(), stays) == Process(old(State()).(heard := old(heard) + [f]), f)
      ensures fresh(made) && Grown(old(body), old(callbacks), made)
    {
      heard := heard + [f];
      stays := Act(f);
      made := (if body == old(body) then {} else {body}) + (if callbacks == old(callbacks) then {} else {callbacks});
    }
  }

  /** The switch itself leaves the timer alone. */
  lemma ProcessKeepsTimer(e: Entry, f: Frame)
    ensures Process(e, f).0.armed == e.armed
  {}

  class HOWCaller {
    const readTimeout: int
    var closedErr: Option<Failure>
    var pending: map<Id, PendingRequest>

    predicate Timed() { readTimeout > 0 }

    /** A timer runs for every pending request, none is pending once closed, and they share nothing. */
    ghost predicate Valid() reads this, pending.Values {
      && (closedErr.Some? ==> pending == map[])
      && Apart()
      && forall id :: id in pending ==> pending[id].armed == Timed()
    }

    ghost predicate Apart() reads this, pending.Values {
      forall id :: id in pending ==> pending[id].id == id && pending[id].Own()
    }

    constructor (readTimeout: int)
      ensures Valid() && closedErr == None && pending == map[] && this.readTimeout == readTimeout
    {
      this.readTimeout := readTimeout;
      closedErr, pending := None, map[];
    }

    method StartTimer(entry: PendingRequest)
      modifies entry`armed
      ensures entry.armed == (Timed() || old(entry.armed))
    {
      if readTimeout <= 0 { return; }
      ClearTimer(entry);
      entry.armed := true;
    }

    method ClearTimer(entry: PendingRequest)
      modifies entry`armed
      ensures !entry.armed
    {
      entry.armed := false;
    }

    method Request(id: Id) returns (entry: PendingRequest)
      requires Valid() && id !in pending
      modifies `pending
      ensures Valid() && fresh(entry) && entry.id == id && entry.Own() && entry.body == null && entry.callbacks == null
      ensures entry.State() == Asked(Timed(), closedErr)
      ensures pending == if closedErr.None? then old(pending)[id := entry] else old(pending)
    {
      entry := new PendingRequest(id);
      if closedErr.Some? {
        entry.Reject(closedErr.value);
        return;
      }
      pending := pending[id := entry];
      StartTimer(entry);
    }

    /** processEnvelope on the entry it has found: the timer, the switch, the timer again. */
    method Receive(entry: PendingRequest, f: Frame) returns (stays: bool, ghost made: set<object>)
      requires entry.Own() && entry.armed == Timed()
      modifies entry, entry.callbacks
      ensures entry.Own() && (entry.State(), stays) == Answer(Timed(), old(entry.State()), f)
      ensures fresh(made) && entry.Grown(old(entry.body), old(entry.callbacks), made)
    {
      StartTimer(entry);
      ghost var timed := entry.State();
      stays, made := entry.Hear(f);
      ProcessKeepsTimer(timed.(heard := timed.heard + [f]), f);
      if !stays { ClearTimer(entry); }
    }

    /** The entry is found: it takes the frame, and leaves pending with a final one. */
    method Found(id: Id, entry: PendingRequest, f: Frame) returns (ghost made: set<object>)
      requires Valid() && id in pending && pending[id] == entry
      modifies `pending, entry, entry.callbacks
      ensures Valid() && fresh(made) && entry.Own() && entry.Grown(old(entry.body), old(entry.callbacks), made)
      ensures var (after, stays) := Answer(Timed(), old(entry.State()), f);
              entry.State() == after && pending == if stays then old(pending) else old(pending) - {id}
    {
      var stays;
      stays, made := Receive(entry, f);
      if !stays { pending := pending - {id}; }
    }

    /** A decoded message changes the request it names, if that is pending, and no other object. */
    method ProcessEnvelope(id: Id, f: Frame) returns (ghost made: set<object>)
      requires Valid()
      modifies `pending, if id in pending then pending[id].Parts() else {}
      ensures Valid() && fresh(made) && (id !in old(pending) ==> pending == old(pending))
      ensures id in old(pending) ==>
                var e := old(pending[id]);
                var (after, stays) := Answer(Timed(), old(e.State()), f);
                && e.State() == after && pending == (if stays then old(pending) else old(pending) - {id})
                && e.Own() && e.Grown(old(e.body), old(e.callbacks), made)
    {
      made := {};
      if id !in pending { return; }
      made := Found(id, pending[id], f);
    }

    method TimerFires(id: Id, entry: PendingRequest)
      requires Valid() && id in pending && pending[id] == entry
      modifies `pending, entry`promise, entry`armed, entry.callbacks
      ensures Valid() && pending == old(pending) - {id}
      ensures entry.Own() && entry.State() == CloseEntry(old(entry.State()), ReadTimeout)
    {
      pending := pending - {id};
      entry.Stop(ReadTimeout);
    }

    ghost function AllParts(): set<object> reads this, pending.Values {
      set id, o | id in pending && o in pending[id].Parts() :: o
    }

    ghost function States(): map<Id, Entry> reads this, pending.Values, AllParts() {
      map id | id in pending :: assert pending[id] in pending[id].Parts(); pending[id].State()
    }

    ghost function Streams(): map<Id, (BodyStream?, BodyStream?)> reads this, pending.Values {
      map id | id in pending :: (pending[id].body, pending[id].callbacks)
    }

    /** Within the loop: those still to do are as they were, the others have failed; all have their streams. */
    ghost predicate Failing(was: map<Id, Entry>, had: map<Id, (BodyStream?, BodyStream?)>, todo: set<Id>, why: Failure,
                            parts: set<object>)
      reads this, parts
    {
      && this !in parts && todo <= pending.Keys == was.Keys == had.Keys
      && (forall id :: id in pending ==> pending[id] in parts && pending[id].Within(parts))
      && (forall id :: id in pending ==>
            && pending[id].id == id && pending[id].Own() && (pending[id].body, pending[id].callbacks) == had[id]
            && pending[id].State() == if id in todo then was[id] else CloseEntry(was[id], why))
    }

    lemma NoneFailed(why: Failure)
      requires Apart()
      ensures Failing(States(), Streams(), pending.Keys, why, AllParts())
    {
      forall id | id in pending ensures pending[id].Within(AllParts()) && this !in pending[id].Parts() {
        assert pending[id] in pending[id].Parts();
      }
    }

    method FailNext(id: Id, ghost was: map<Id, Entry>, ghost had: map<Id, (BodyStream?, BodyStream?)>,
                    ghost todo: set<Id>, why: Failure, ghost parts: set<object>)
      requires id in todo && Failing(was, had, todo, why, parts)
      modifies pending[id], pending[id].callbacks
      ensures Failing(was, had, todo - {id}, why, parts) && pending == old(pending) && closedErr == old(closedErr)
    {
      pending[id].Stop(why);
      OthersKept(this, id, parts);
    }

    /** The loop over pending.values() fails every pending request, in any order. */
    method FailPending(why: Failure)
      requires Apart()
      modifies AllParts()
      ensures pending == old(pending) && closedErr == old(closedErr)
      ensures forall id :: id in pending ==> pending[id].State() == CloseEntry(old(States())[id], why)
      ensures forall id :: id in pending ==> (pending[id].body, pending[id].callbacks) == old(Streams())[id]
    {
      ghost var parts, had, was := AllParts(), Streams(), States();
      NoneFailed(why);
      var todo := pending.Keys;
      while todo != {}
        invariant pending == old(pending) && closedErr == old(closedErr) && Failing(was, had, todo, why, parts)
        decreases todo
      {
        var id :| id in todo;
        FailNext(id, was, had, todo, why, parts);
        todo := todo - {id};
      }
    }

    method CloseCaller(err: Option<CloseErr>)
      requires Valid()
      modifies this, AllParts()
      ensures Valid() && closedErr == if old(closedErr).Some? then old(closedErr) else Some(CloseFailure(err))
      ensures pending == map[] && (old(closedErr).Some? ==> old(pending) == map[])
      ensures forall id :: id in old(pending) ==>
                old(pending[id]).State() == CloseEntry(old(States())[id], closedErr.value)
      ensures forall id :: id in old(pending) ==>
                var e := old(pending[id]); (e.body, e.callbacks) == old(Streams())[id]
    {
      if closedErr.Some? { return; }
      FailPending(CloseFailure(err));
      closedErr := Some(CloseFailure(err));
      pending := map[];
    }

    /** reader.cancel() on the body of a request, pending or not. */
    method CancelStream(id: Id, entry: PendingRequest)
      requires Valid() && entry.Own() && entry.body != null && entry.id == id
      requires id in pending ==> pending[id] == entry
      modifies `pending, entry`armed, entry`callbacks, entry.body
      ensures Valid() && entry.Own() && (entry.callbacks == old(entry.callbacks) || entry.callbacks == null)
      ensures var (after, stays) := CancelEntry(old(entry.State()));
              entry.State() == after && pending == if stays then old(pending) else old(pending) - {id}
    {
      var stays := entry.CancelBody();
      if !stays { pending := pending - {id}; }
    }
  }

  /** Requests that differ in their id share no stream: working on one leaves the others as they were. */
  twostate lemma OthersKept(c: HOWCaller, new id: Id, new parts: set<object>)
    requires unchanged(c) && id in c.pending
    requires old(allocated(parts))
    requires forall j :: j in c.pending ==>
               old(c.pending[j].Own() && c.pending[j].Within(parts)) && c.pending[j].id == j
    requires OnlyTouched(c.pending[id], parts)
    ensures forall j :: j in c.pending && j != id ==>
              var e := c.pending[j];
              e.Within(parts) && e.Own() && e.State() == old(e.State())
              && e.body == old(e.body) && e.callbacks == old(e.callbacks)
  {
    forall j | j in c.pending && j != id
      ensures var e := c.pending[j]; e.Within(parts) && e.Own() && e.State() == old(e.State())
    {
      var e := c.pending[j];
      assert old(e.Own() && e.Within(parts)) && old(c.pending[id].Own());
      assert unchanged(e) && (e.body != null ==> unchanged(e.body));
    }
  }

  twostate predicate OnlyTouched(e: PendingRequest, new parts: set<object>)
    reads *
  {
    forall o :: o in parts && o != e && o != old(e.body) && o != old(e.callbacks) ==> old(allocated(o)) && unchanged(o)
  }
}
