/**
 A HOWCaller and the program around it. held are the requests ever made, which timers and readers
 keep hold of; Abs is the state of TsModel that all these objects are in. Every run of the objects
 is a run of the model, so what is proved about runs holds of them.
 */
module TsPrograms {
  import opened Protocol
  import S = TsStream
  import opened TsBodies
  import opened TsModel
  import opened TsTheorems
  import opened TsCallers

  type Held = map<Id, PendingRequest>

  /** Each request has its own objects, all of them in parts. */
  ghost predicate Tracks(c: HOWCaller, held: Held, parts: set<object>) reads c, parts {
    && c !in parts
    && (forall id :: id in c.pending ==> id in held && c.pending[id] == held[id])
    && (forall id :: id in held ==> held[id] in parts && held[id].Within(parts) && held[id].id == id && held[id].Own())
  }

  ghost function Abs(c: HOWCaller, held: Held, parts: set<object>): Ts
    requires Tracks(c, held, parts)
    reads c, parts
  {
    Ts(c.closedErr, c.pending.Keys, map id | id in held :: held[id].State())
  }

  /** The model's invariant gives the object's. */
  lemma ObjectValid(c: HOWCaller, held: Held, parts: set<object>)
    requires Tracks(c, held, parts) && TsInv(c.Timed(), Abs(c, held, parts))
    ensures c.Valid()
  {
    var t := Abs(c, held, parts);
    assert t.closedErr.Some? ==> c.pending.Keys == {};
    forall id | id in c.pending
      ensures c.pending[id].id == id && c.pending[id].Own() && c.pending[id].armed == c.Timed()
    {
      assert EntryInv(c.Timed(), true, t.reqs[id]);
    }
  }

  /** Of the objects in parts only those of one request have changed. */
  twostate predicate OneTouched(e: PendingRequest, new parts: set<object>)
    reads *
  {
    forall o :: o in parts && o != e && o != old(e.body) && o != old(e.callbacks) ==> old(allocated(o)) && unchanged(o)
  }

  /** Then only its entry has changed in the model. */
  twostate lemma OneChanged(c: HOWCaller, new held: Held, new parts: set<object>, new id: Id, new more: set<object>)
    requires old(allocated(held)) && old(allocated(parts)) && old(Tracks(c, held, parts)) && id in held
    requires OneTouched(held[id], parts)
    requires parts <= more && c !in more && held[id].Within(more) && held[id].Own()
    requires forall j :: j in c.pending ==> j in old(c.pending) && c.pending[j] == old(c.pending)[j]
    ensures Tracks(c, held, more)
    ensures Abs(c, held, more) == Ts(c.closedErr, c.pending.Keys, old(Abs(c, held, parts)).reqs[id := held[id].State()])
  {
    forall j | j in held && j != id
      ensures held[j].Within(more) && held[j].Own() && held[j].State() == old(held[j].State())
    {
      var e := held[j];
      assert old(e.Own() && e.Within(parts)) && old(held[id].Own());
      assert unchanged(e) && (e.body != null ==> unchanged(e.body));
    }
  }

  // ----- one event -----

  method MakeRequest(c: HOWCaller, held: Held, ghost parts: set<object>, id: Id)
    returns (more: Held, ghost all: set<object>)
    requires Tracks(c, held, parts) && c.Valid() && id !in held
    modifies c
    ensures Tracks(c, more, all) && fresh(all - parts)
    ensures Abs(c, more, all) == DoRequest(c.Timed(), old(Abs(c, held, parts)), id)
  {
    var entry := c.Request(id);
    more, all := held[id := entry], parts + {entry};
    Added(c, held, parts, id, entry);
  }

  lemma AddOne(c: HOWCaller, held: Held, parts: set<object>, id: Id, entry: PendingRequest, reqs: map<Id, Entry>)
    requires c !in parts && id !in held && reqs.Keys == held.Keys
    requires forall j :: j in held ==>
               && held[j] in parts && held[j].Within(parts) && held[j].id == j && held[j].Own()
               && held[j].State() == reqs[j]
    requires entry.id == id && entry.Own() && entry.body == null && entry.callbacks == null
    requires forall j :: j in c.pending ==>
               if j == id then c.pending[j] == entry else j in held && c.pending[j] == held[j]
    ensures Tracks(c, held[id := entry], parts + {entry})
    ensures Abs(c, held[id := entry], parts + {entry}) == Ts(c.closedErr, c.pending.Keys, reqs[id := entry.State()])
  {}

  twostate lemma Added(c: HOWCaller, new held: Held, new parts: set<object>, new id: Id, new entry: PendingRequest)
    requires old(allocated(held)) && old(allocated(parts)) && old(Tracks(c, held, parts)) && id !in held
    requires NoneTouched(parts) && c !in parts && entry.id == id && entry.Own()
    requires entry.body == null && entry.callbacks == null
    requires c.pending == old(c.pending) || c.pending == old(c.pending)[id := entry]
    ensures Tracks(c, held[id := entry], parts + {entry})
    ensures Abs(c, held[id := entry], parts + {entry})
         == Ts(c.closedErr, c.pending.Keys, old(Abs(c, held, parts)).reqs[id := entry.State()])
  {
    forall j | j in held
      ensures held[j].Within(parts) && held[j].Own() && held[j].State() == old(held[j].State())
    {
      var e := held[j];
      assert old(e.Own() && e.Within(parts));
      assert unchanged(e) && (e.body != null ==> unchanged(e.body));
    }
    AddOne(c, held, parts, id, entry, old(Abs(c, held, parts)).reqs);
  }

  twostate predicate NoneTouched(new parts: set<object>)
    reads *
  {
    forall o :: o in parts ==> old(allocated(o)) && unchanged(o)
  }

  twostate lemma NoneChanged(c: HOWCaller, new held: Held, new parts: set<object>)
    requires old(allocated(held)) && old(allocated(parts)) && old(Tracks(c, held, parts))
    requires NoneTouched(parts) && c.pending == old(c.pending) && c.closedErr == old(c.closedErr)
    ensures Tracks(c, held, parts) && Abs(c, held, parts) == old(Abs(c, held, parts))
  {
    forall j | j in held
      ensures held[j].Within(parts) && held[j].Own() && held[j].State() == old(held[j].State())
    {
      var e := held[j];
      assert old(e.Own() && e.Within(parts));
      assert unchanged(e) && (e.body != null ==> unchanged(e.body));
    }
  }

  method DeliverOne(c: HOWCaller, ghost held: Held, ghost parts: set<object>, id: Id, f: Frame)
    returns (ghost more: set<object>, ghost stays: bool)
    requires Tracks(c, held, parts) && c.Valid() && id in c.pending
    modifies c, parts
    ensures Tracks(c, held, more) && fresh(more - parts)
    ensures var t := old(Abs(c, held, parts));
            && (held[id].State(), stays) == Answer(c.Timed(), t.reqs[id], f)
            && Abs(c, held, more) == Ts(t.closedErr, c.pending.Keys, t.reqs[id := held[id].State()])
            && c.pending.Keys == if stays then t.pending else t.pending - {id}
  {
    ghost var made := c.ProcessEnvelope(id, f);
    stays := id in c.pending;
    more := parts + made;
    OneChanged(c, held, parts, id, more);
  }

  method DeliverNone(c: HOWCaller, ghost held: Held, ghost parts: set<object>, id: Id, f: Frame)
    requires Tracks(c, held, parts) && c.Valid() && id !in c.pending
    modifies c
    ensures Tracks(c, held, parts) && Abs(c, held, parts) == old(Abs(c, held, parts))
  {
    var _ := c.ProcessEnvelope(id, f);
    NoneChanged(c, held, parts);
  }

  method DeliverFrame(c: HOWCaller, ghost held: Held, ghost parts: set<object>, id: Id, f: Frame)
    returns (ghost more: set<object>)
    requires Tracks(c, held, parts) && c.Valid()
    modifies c, parts
    ensures Tracks(c, held, more) && fresh(more - parts)
    ensures Abs(c, held, more) == DoMessage(c.Timed(), old(Abs(c, held, parts)), id, f)
  {
    if id in c.pending {
      ghost var stays;
      more, stays := DeliverOne(c, held, parts, id, f);
    } else {
      more := parts;
      DeliverNone(c, held, parts, id, f);
    }
  }

  method FireTimer(c: HOWCaller, held: Held, ghost parts: set<object>, id: Id)
    requires Tracks(c, held, parts) && c.Valid() && id in c.pending
    modifies c, parts
    ensures Tracks(c, held, parts)
    ensures var t := old(Abs(c, held, parts));
            Abs(c, held, parts) == Put(t, id, FailEntry(t.reqs[id].(armed := false), ReadTimeout), false)
  {
    c.TimerFires(id, held[id]);
    OneChanged(c, held, parts, id, parts);
  }

  method CancelOne(c: HOWCaller, held: Held, ghost parts: set<object>, id: Id)
    requires Tracks(c, held, parts) && c.Valid() && id in held && held[id].body != null
    modifies c, parts
    ensures Tracks(c, held, parts) && Abs(c, held, parts) == DoCancel(old(Abs(c, held, parts)), id)
  {
    c.CancelStream(id, held[id]);
    OneChanged(c, held, parts, id, parts);
  }

  method TurnOne(c: HOWCaller, held: Held, ghost parts: set<object>, id: Id, t: S.Turn)
    requires Tracks(c, held, parts) && id in held && held[id].body != null && S.CanTurn(held[id].body.State(), t)
    modifies parts
    ensures Tracks(c, held, parts)
    ensures Abs(c, held, parts) == TsModel.Handle(c.Timed(), old(Abs(c, held, parts)), Event.Turn(id, t))
  {
    held[id].BodyTurn(t);
    OneChanged(c, held, parts, id, parts);
  }

  // ----- close -----

  lemma PendingWithin(c: HOWCaller, held: Held, parts: set<object>)
    requires Tracks(c, held, parts)
    ensures c.AllParts() <= parts
  {}

  /** The objects of a request that is not pending are none of those that close may touch. */
  ghost predicate Released(c: HOWCaller, held: Held, parts: set<object>)
    requires Tracks(c, held, parts)
    reads c, parts
  {
    PendingWithin(c, held, parts);
    forall j :: j in held && j !in c.pending ==>
      held[j] !in c.AllParts() && (held[j].body != null ==> held[j].body !in c.AllParts())
  }

  lemma ReleasedApart(c: HOWCaller, held: Held, parts: set<object>)
    requires Tracks(c, held, parts)
    ensures Released(c, held, parts)
  {
    forall j, id | j in held && j !in c.pending && id in c.pending
      ensures held[j] !in c.pending[id].Parts() && (held[j].body != null ==> held[j].body !in c.pending[id].Parts())
    {
      assert held[id].Own() && held[j].Own() && held[id] != held[j];
    }
  }

  /** Only objects of pending requests have changed, and those requests have failed. */
  twostate lemma AllFailed(c: HOWCaller, new held: Held, new parts: set<object>, new why: Failure)
    requires old(allocated(held)) && old(allocated(parts)) && old(Tracks(c, held, parts)) && c.pending == map[]
    requires old(Released(c, held, parts)) && PendingTouched(c, parts)
    requires forall id :: id in old(c.pending) ==>
               && old(c.pending[id]).State() == CloseEntry(old(c.States())[id], why)
               && (old(c.pending[id]).body, old(c.pending[id]).callbacks) == old(c.Streams())[id]
    ensures Tracks(c, held, parts)
    ensures Abs(c, held, parts).reqs == Failed(old(Abs(c, held, parts)), why)
  {
    forall j | j in held
      ensures held[j].Within(parts) && held[j].Own()
      ensures held[j].State() == Failed(old(Abs(c, held, parts)), why)[j]
    {
      FailedOne(c, held, parts, why, j);
    }
  }

  function Failed(t: Ts, why: Failure): map<Id, Entry> {
    map id | id in t.reqs :: if id in t.pending then CloseEntry(t.reqs[id], why) else t.reqs[id]
  }

  twostate predicate PendingTouched(c: HOWCaller, new parts: set<object>)
    reads *
  {
    forall o :: o in parts && o !in old(c.AllParts()) ==> old(allocated(o)) && unchanged(o)
  }

  twostate lemma FailedOne(c: HOWCaller, new held: Held, new parts: set<object>, new why: Failure, new j: Id)
    requires old(allocated(held)) && old(allocated(parts)) && old(Tracks(c, held, parts)) && j in held
    requires old(Released(c, held, parts)) && PendingTouched(c, parts)
    requires j in old(c.pending) ==>
               && held[j].State() == CloseEntry(old(held[j].State()), why)
               && held[j].body == old(held[j].body) && held[j].callbacks == old(held[j].callbacks)
    ensures held[j].Within(parts) && held[j].Own()
    ensures held[j].State()
         == if j in old(c.pending) then CloseEntry(old(held[j].State()), why) else old(held[j].State())
  {
    var e := held[j];
    assert old(e.Own() && e.Within(parts));
    if j in old(c.pending) {
      assert e.State().promise == CloseEntry(old(e.State()), why).promise;
    } else {
      assert unchanged(e) && (e.body != null ==> unchanged(e.body));
    }
  }

  method CloseAll(c: HOWCaller, ghost held: Held, ghost parts: set<object>, err: Option<CloseErr>)
    requires Tracks(c, held, parts) && c.Valid()
    modifies c, parts
    ensures Tracks(c, held, parts) && Abs(c, held, parts) == DoClose(old(Abs(c, held, parts)), err)
  {
    PendingWithin(c, held, parts);
    if c.closedErr.Some? {
      c.CloseCaller(err);
      NoneChanged(c, held, parts);
    } else {
      ReleasedApart(c, held, parts);
      c.CloseCaller(err);
      AllFailed(c, held, parts, CloseFailure(err));
    }
  }

  // ----- runs -----

  /** What the model allows, the objects can do. */
  lemma CanDo(c: HOWCaller, held: Held, parts: set<object>, ev: Event)
    requires Tracks(c, held, parts) && TsInv(c.Timed(), Abs(c, held, parts)) && CanHandle(Abs(c, held, parts), ev)
    ensures c.Valid()
    ensures match ev
            case Request(id) => id !in held
            case Message(_, _) => true
            case Timeout(id) => id in c.pending
            case Close(_) => true
            case CancelBody(id) => id in held && held[id].body != null
            case Turn(id, t) => id in held && held[id].body != null && S.CanTurn(held[id].body.State(), t)
  {
    ObjectValid(c, held, parts);
    var t := Abs(c, held, parts);
    if ev.Timeout? { assert EntryInv(c.Timed(), ev.id in t.pending, t.reqs[ev.id]); }
  }

  /** Any event: what the objects do is what the model does. */
  method Step(c: HOWCaller, held: Held, ghost parts: set<object>, ev: Event)
    returns (more: Held, ghost all: set<object>)
    requires Tracks(c, held, parts) && TsInv(c.Timed(), Abs(c, held, parts)) && CanHandle(Abs(c, held, parts), ev)
    modifies c, parts
    ensures Tracks(c, more, all) && fresh(all - parts)
    ensures Abs(c, more, all) == TsModel.Handle(c.Timed(), old(Abs(c, held, parts)), ev)
  {
    CanDo(c, held, parts, ev);
    more, all := held, parts;
    match ev {
      case Request(id) => more, all := MakeRequest(c, held, parts, id);
      case Message(id, f) => all := DeliverFrame(c, held, parts, id, f);
      case Timeout(id) => FireTimer(c, held, parts, id);
      case Close(err) => CloseAll(c, held, parts, err);
      case CancelBody(id) => CancelOne(c, held, parts, id);
      case Turn(id, t) => TurnOne(c, held, parts, id, t);
    }
  }

  /** Every run of the model is a run of the objects, and ends with them in the model's state. */
  method Drive(readTimeout: int, evs: seq<Event>) returns (c: HOWCaller, held: Held, ghost parts: set<object>)
    requires CanRun(readTimeout > 0, NEW_CALLER, evs)
    ensures Tracks(c, held, parts) && c.Timed() == (readTimeout > 0)
    ensures Abs(c, held, parts) == Run(c.Timed(), NEW_CALLER, evs) && Reachable(c.Timed(), Abs(c, held, parts))
  {
    c := new HOWCaller(readTimeout);
    held, parts := map[], {};
    var todo := evs;
    ghost var timed := c.Timed();
    assert Abs(c, held, parts) == NEW_CALLER;
    while todo != []
      invariant fresh(c) && fresh(parts) && Tracks(c, held, parts) && c.readTimeout == readTimeout
      invariant TsInv(timed, Abs(c, held, parts)) && CanRun(timed, Abs(c, held, parts), todo)
      invariant Run(timed, Abs(c, held, parts), todo) == Run(timed, NEW_CALLER, evs)
      decreases |todo|
    {
      HandleKeeps(timed, Abs(c, held, parts), todo[0]);
      held, parts := Step(c, held, parts, todo[0]);
      todo := todo[1..];
    }
  }
}
