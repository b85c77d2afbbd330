/**
 createHOWCaller as a state and one function per event. Events run to completion; the timer,
 the frames, the reads, the promise reactions, cancel and close arrive in any order.
 */
module TsModel {
  import opened Protocol
  import opened TsStream

  datatype Promise = Unsettled | Resolved(head: Head) | Rejected(why: Failure)

  /** The stream callbacks of an entry: none, those of the stream the caller holds, or of one nobody can reach. */
  datatype Hook = NoHook | Visible | Hidden

  /** A pending request and all that its closures keep alive. heard: the frames processed for it. */
  datatype Entry = Entry(armed: bool, promise: Promise, hook: Hook, stream: Option<Stream>, heard: seq<Frame>)

  datatype Ts = Ts(closedErr: Option<Failure>, pending: set<Id>, reqs: map<Id, Entry>)

  const NEW_CALLER := Ts(None, {}, map[])

  /** readTimeout > 0. */
  type Timed = bool

  /** The errors of the TypeScript caller carry a message but no code. */
  function MessageOnly(f: Failure): Failure {
    match f case Remote(i) => Remote(ErrorInfo(0, i.message)) case _ => f
  }

  function Resolve(e: Entry, h: Head, s: Stream): Entry {
    if e.promise.Unsettled? then e.(promise := Resolved(h), stream := Some(s)) else e
  }

  function Reject(e: Entry, why: Failure): Entry {
    if e.promise.Unsettled? then e.(promise := Rejected(why)) else e
  }

  /** entry.streamError if there is one, else entry.reject. */
  function FailEntry(e: Entry, why: Failure): Entry {
    match e.hook
    case NoHook => Reject(e, why)
    case Hidden => e
    case Visible => if e.stream.Some? then e.(stream := Some(StreamError(e.stream.value, why))) else e
  }

  function OnStream(e: Entry, f: Stream -> Stream): Entry {
    if e.hook.Visible? && e.stream.Some? then e.(stream := Some(f(e.stream.value))) else e
  }

  function Opened(e: Entry, h: Head): Entry {
    if e.promise.Unsettled? then Resolve(e, h, OPENED).(hook := Visible) else e.(hook := Hidden)
  }

  /** The switch of processEnvelope on a pending entry; and whether the entry stays pending. */
  function Process(e: Entry, f: Frame): (Entry, bool) {
    match f
    case Response(Some(p)) => (Resolve(e, p.0, Buffered(p.1)), false)
    case Response(None) => (e, false)
    case Start(Some(h)) => (Opened(e, h), true)
    case Start(None) => (e.(hook := Hidden), true)
    case Chunk(Some(d)) => (OnStream(e, s => StreamPush(s, d)), true)
    case Chunk(None) => (e, true)
    case End => (OnStream(e, s => StreamClose(s)), false)
    case Error(Some(i)) => (FailEntry(e, MessageOnly(Remote(i))), false)
    case Error(None) => (e, false)
    case Other(_) => (e, true)
  }

  datatype Event =
    | Request(id: Id)
    | Message(id: Id, f: Frame)
    | Timeout(id: Id)
    | Close(err: Option<CloseErr>)
    | CancelBody(id: Id)
    | Turn(id: Id, t: TsStream.Turn)

  predicate HasStream(c: Ts, id: Id) { id in c.reqs && c.reqs[id].stream.Some? }

  predicate CanHandle(c: Ts, ev: Event) {
    match ev
    case Request(id) => id !in c.reqs
    case Message(_, _) => true
    case Timeout(id) => id in c.reqs && c.reqs[id].armed
    case Close(_) => true
    case CancelBody(id) => HasStream(c, id)
    case Turn(id, t) => HasStream(c, id) && CanTurn(c.reqs[id].stream.value, t)
  }

  function Put(c: Ts, id: Id, e: Entry, stays: bool): Ts {
    c.(reqs := c.reqs[id := e], pending := if stays then c.pending else c.pending - {id})
  }

  /** The entry of a new request: rejected at once when closed, otherwise pending with its timer. */
  function Asked(timed: Timed, closedErr: Option<Failure>): Entry {
    if closedErr.Some? then Entry(false, Rejected(closedErr.value), NoHook, None, [])
    else Entry(timed, Unsettled, NoHook, None, [])
  }

  function DoRequest(timed: Timed, c: Ts, id: Id): Ts {
    c.(reqs := c.reqs[id := Asked(timed, c.closedErr)],
       pending := if c.closedErr.Some? then c.pending else c.pending + {id})
  }

  /** A frame restarts the timer of the entry; a final one stops it. */
  function Answer(timed: Timed, e: Entry, f: Frame): (Entry, bool) {
    var (e', stays) := Process(e.(heard := e.heard + [f]), f);
    (e'.(armed := stays && timed), stays)
  }

  function DoMessage(timed: Timed, c: Ts, id: Id, f: Frame): Ts {
    if id !in c.pending || id !in c.reqs then c
    else
      var (e, stays) := Answer(timed, c.reqs[id], f);
      Put(c, id, e, stays)
  }

  function CloseFailure(err: Option<CloseErr>): Failure {
    Failure.Closed(Some(if err.None? then TransportClosed else err.value))
  }

  function CloseEntry(e: Entry, why: Failure): Entry { FailEntry(e.(armed := false), why) }

  function DoClose(c: Ts, err: Option<CloseErr>): Ts {
    if c.closedErr.Some? then c
    else
      var why := CloseFailure(err);
      Ts(Some(why), {}, map id | id in c.reqs :: if id in c.pending then CloseEntry(c.reqs[id], why) else c.reqs[id])
  }

  /** Cancelling the caller's stream: if the cancel callback is reached, it lets go of the entry. */
  function CancelEntry(e: Entry): (Entry, bool)
    requires e.stream.Some?
  {
    var s := e.stream.value;
    if !s.st.Readable? || s.closeReq then (e.(stream := Some(Cancel(s))), true)
    else (e.(stream := Some(Cancel(s)), armed := false, hook := NoHook), false)
  }

  function DoCancel(c: Ts, id: Id): Ts
    requires HasStream(c, id)
  {
    var (e, stays) := CancelEntry(c.reqs[id]);
    Put(c, id, e, stays)
  }

  function Handle(timed: Timed, c: Ts, ev: Event): Ts
    requires CanHandle(c, ev)
  {
    match ev
    case Request(id) => DoRequest(timed, c, id)
    case Message(id, f) => DoMessage(timed, c, id, f)
    case Timeout(id) => Put(c, id, FailEntry(c.reqs[id].(armed := false), ReadTimeout), false)
    case Close(err) => DoClose(c, err)
    case CancelBody(id) => DoCancel(c, id)
    case Turn(id, t) =>
      var e := c.reqs[id];
      Put(c, id, e.(stream := Some(DoTurn(e.stream.value, t))), true)
  }

  predicate CanRun(timed: Timed, c: Ts, evs: seq<Event>)
    decreases evs
  {
    evs == [] || (CanHandle(c, evs[0]) && CanRun(timed, Handle(timed, c, evs[0]), evs[1..]))
  }

  function Run(timed: Timed, c: Ts, evs: seq<Event>): Ts
    requires CanRun(timed, c, evs)
    decreases evs
  {
    if evs == [] then c else Run(timed, Handle(timed, c, evs[0]), evs[1..])
  }
}
