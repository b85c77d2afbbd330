/**
 Requests multiplexed on one connection do not influence each other: erasing every other
 request from a run leaves a run, and it ends in the same state of the request that is kept.
 */
module GoErasure {
  import opened Protocol
  import opened GoCaller
  import opened GoSystem

  /** The caller as one request sees it. */
  function Restrict(y: Sys, id: Id): Sys {
    Sys(y.sh,
        if id in y.slots then map[id := y.slots[id]] else map[],
        if y.router.Idle? || y.router.id != id then Idle else y.router)
  }

  predicate Concerns(e: Event, id: Id) {
    match e
    case All(_) => true
    case New(j) => j == id
    case On(j, _) => j == id
    case Lookup(j, _) => j == id
    case Push(j) => j == id
    case Notify(j) => j == id
  }

  /** A run without the events of all other requests. */
  function Erase(es: seq<Event>, id: Id): seq<Event> {
    if es == [] then []
    else if Concerns(es[0], id) then [es[0]] + Erase(es[1..], id)
    else Erase(es[1..], id)
  }

  lemma KeptStep(c: nat, y: Sys, e: Event, id: Id)
    requires CanStep(y, e) && Concerns(e, id)
    ensures CanStep(Restrict(y, id), e)
    ensures Step(c, Restrict(y, id), e) == Restrict(Step(c, y, e), id)
  {}

  lemma ErasedStep(c: nat, y: Sys, e: Event, id: Id)
    requires CanStep(y, e) && !Concerns(e, id)
    ensures Restrict(Step(c, y, e), id) == Restrict(y, id)
  {}

  /** Non-interference: no schedule of the other requests, however slow, changes this one. */
  lemma {:induction false} NonInterference(c: nat, y: Sys, es: seq<Event>, id: Id)
    requires CanRun(c, y, es)
    ensures CanRun(c, Restrict(y, id), Erase(es, id))
    ensures Run(c, Restrict(y, id), Erase(es, id)) == Restrict(Run(c, y, es), id)
    decreases es
  {
    if es != [] {
      var y1 := Step(c, y, es[0]);
      NonInterference(c, y1, es[1..], id);
      if Concerns(es[0], id) {
        KeptStep(c, y, es[0], id);
        assert Erase(es, id)[1..] == Erase(es[1..], id);
      } else {
        ErasedStep(c, y, es[0], id);
      }
    }
  }

  /** The read loop is never blocked: some routing step is enabled however full any queue is. */
  lemma RoutingNeverBlocks(c: nat, y: Sys, id: Id, f: Frame)
    requires SysInv(c, y)
    ensures match y.router
            case Idle => CanStep(y, Lookup(id, f))
            case Found(j, _) => CanStep(y, Push(j)) && CanStep(Step(c, y, Push(j)), Notify(j))
            case Appended(j) => CanStep(y, Notify(j)) && Step(c, y, Notify(j)).router.Idle?
  {}
}
