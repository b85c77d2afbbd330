/**
 The whole Go caller: any number of requests, one transport read loop, Close, and a clock,
 interleaved in any order. Results here hold after every run.
 */
module GoSystem {
  import opened Protocol
  import opened GoCaller
  import opened GoCallerInvariants

  /** The read loop inside HandleBinaryMessage: looked up, or appended and about to signal. */
  datatype Router = Idle | Found(id: Id, f: Frame) | Appended(id: Id)

  datatype Sys = Sys(sh: Shared, slots: map<Id, Slot>, router: Router)

  const INIT := Sys(FRESH, map[], Idle)

  datatype Event =
    | All(sa: SharedAct)
    | New(id: Id)
    | On(id: Id, a: Act)
    | Lookup(id: Id, f: Frame)
    | Push(id: Id)
    | Notify(id: Id)

  /** Ids are UUIDs: a new request never reuses one. */
  predicate CanStep(y: Sys, e: Event) {
    match e
    case All(sa) => CanShare(y.sh, sa)
    case New(id) => id !in y.slots
    case On(id, a) => id in y.slots && CanAct(y.sh, y.slots[id], a)
    case Lookup(_, _) => y.router.Idle?
    case Push(id) => y.router.Found? && y.router.id == id && id in y.slots
    case Notify(id) => y.router.Appended? && y.router.id == id && id in y.slots
  }

  function Step(c: nat, y: Sys, e: Event): Sys
    requires CanStep(y, e)
  {
    match e
    case All(sa) => y.(sh := DoShare(y.sh, sa))
    case New(id) => y.(slots := y.slots[id := NewSlot(y.sh)])
    case On(id, a) => y.(slots := y.slots[id := DoAct(c, y.sh, y.slots[id], a)])
    case Lookup(id, f) =>
      if id in y.slots && y.slots[id].registered then y.(router := Found(id, f)) else y
    case Push(id) =>
      y.(slots := y.slots[id := Append(y.sh, y.slots[id], y.router.f)], router := Appended(id))
    case Notify(id) => y.(slots := y.slots[id := Signal(y.slots[id])], router := Idle)
  }

  predicate CanRun(c: nat, y: Sys, es: seq<Event>)
    decreases es
  {
    es == [] || (CanStep(y, es[0]) && CanRun(c, Step(c, y, es[0]), es[1..]))
  }

  function Run(c: nat, y: Sys, es: seq<Event>): Sys
    requires CanRun(c, y, es)
    decreases es
  {
    if es == [] then y else Run(c, Step(c, y, es[0]), es[1..])
  }

  /** The keys of Caller.pending. */
  function Pending(y: Sys): set<Id> { set id | id in y.slots && y.slots[id].registered }

  ghost predicate Signalling(y: Sys, id: Id) { y.router == Appended(id) }

  ghost predicate SysInv(c: nat, y: Sys) {
    && SharedInv(y.sh)
    && (forall id :: id in y.slots ==> Inv(c, y.sh, Signalling(y, id), y.slots[id]))
    && (!y.router.Idle? ==> y.router.id in y.slots && y.slots[y.router.id].req != RChecked)
  }

  /** Changing one slot and the router concerns no other slot. */
  lemma SlotUpdateKeeps(c: nat, y: Sys, id: Id, s: Slot, r: Router)
    requires SysInv(c, y) && Inv(c, y.sh, r == Appended(id), s)
    requires || r == y.router
             || (y.router.Found? && y.router.id == id && r == Appended(id))
             || (y.router == Appended(id) && r == Idle)
    requires id in y.slots && y.slots[id].req != RChecked ==> s.req != RChecked
    ensures SysInv(c, y.(slots := y.slots[id := s], router := r))
  {
    var y' := y.(slots := y.slots[id := s], router := r);
    forall j | j in y'.slots ensures Inv(c, y'.sh, Signalling(y', j), y'.slots[j]) {
      if j != id { assert j in y.slots && Signalling(y', j) == Signalling(y, j); }
    }
  }

  lemma NewKeepsSysInv(c: nat, y: Sys, id: Id)
    requires SysInv(c, y) && CanStep(y, New(id))
    ensures SysInv(c, Step(c, y, New(id)))
  {
    NewSlotInv(c, y.sh);
    SlotUpdateKeeps(c, y, id, NewSlot(y.sh), y.router);
  }

  lemma ActLeavesChecked(c: nat, sh: Shared, s: Slot, a: Act)
    requires CanAct(sh, s, a) && s.req != RChecked
    ensures DoAct(c, sh, s, a).req != RChecked
  {}

  lemma ActKeepsSysInv(c: nat, y: Sys, id: Id, a: Act)
    requires SysInv(c, y) && CanStep(y, On(id, a))
    ensures SysInv(c, Step(c, y, On(id, a)))
  {
    var s := DoAct(c, y.sh, y.slots[id], a);
    ActKeepsInv(c, y.sh, Signalling(y, id), y.slots[id], a);
    assert y.slots[id].req != RChecked ==> s.req != RChecked by {
      if y.slots[id].req != RChecked { ActLeavesChecked(c, y.sh, y.slots[id], a); }
    }
    SlotUpdateKeeps(c, y, id, s, y.router);
  }

  lemma PushKeepsSysInv(c: nat, y: Sys, id: Id)
    requires SysInv(c, y) && CanStep(y, Push(id))
    ensures SysInv(c, Step(c, y, Push(id)))
  {
    AppendKeepsInv(c, y.sh, y.slots[id], y.router.f);
    SlotUpdateKeeps(c, y, id, Append(y.sh, y.slots[id], y.router.f), Appended(id));
  }

  lemma NotifyKeepsSysInv(c: nat, y: Sys, id: Id)
    requires SysInv(c, y) && CanStep(y, Notify(id))
    ensures SysInv(c, Step(c, y, Notify(id)))
  {
    SignalKeepsInv(c, y.sh, y.slots[id]);
    SlotUpdateKeeps(c, y, id, Signal(y.slots[id]), Idle);
  }

  lemma SharedStepKeepsSysInv(c: nat, y: Sys, sa: SharedAct)
    requires SysInv(c, y) && CanShare(y.sh, sa)
    ensures SysInv(c, y.(sh := DoShare(y.sh, sa)))
  {
    var y' := y.(sh := DoShare(y.sh, sa));
    SharedKeeps(y.sh, sa);
    forall id | id in y.slots ensures Inv(c, y'.sh, Signalling(y', id), y'.slots[id]) {
      SharedStepKeepsInv(c, y.sh, sa, Signalling(y, id), y.slots[id]);
    }
  }

  lemma LookupKeepsInv(c: nat, y: Sys, id: Id, f: Frame)
    requires SysInv(c, y) && CanStep(y, Lookup(id, f))
    ensures SysInv(c, Step(c, y, Lookup(id, f)))
  {
    var y' := Step(c, y, Lookup(id, f));
    assert forall j :: Signalling(y', j) == Signalling(y, j);
  }

  lemma StepKeepsInv(c: nat, y: Sys, e: Event)
    requires SysInv(c, y) && CanStep(y, e)
    ensures SysInv(c, Step(c, y, e))
  {
    match e
    case All(sa) => SharedStepKeepsSysInv(c, y, sa);
    case New(id) => NewKeepsSysInv(c, y, id);
    case On(id, a) => ActKeepsSysInv(c, y, id, a);
    case Lookup(id, f) => LookupKeepsInv(c, y, id, f);
    case Push(id) => PushKeepsSysInv(c, y, id);
    case Notify(id) => NotifyKeepsSysInv(c, y, id);
  }

  lemma {:induction false} RunKeepsInv(c: nat, y: Sys, es: seq<Event>)
    requires SysInv(c, y) && CanRun(c, y, es)
    ensures SysInv(c, Run(c, y, es))
    decreases es
  {
    if es != [] {
      StepKeepsInv(c, y, es[0]);
      RunKeepsInv(c, Step(c, y, es[0]), es[1..]);
    }
  }

  // ----- safety of every reachable state -----

  /** A state some run of a fresh caller ends in. */
  ghost predicate Reachable(c: nat, y: Sys) {
    exists es :: CanRun(c, INIT, es) && Run(c, INIT, es) == y
  }

  lemma ReachableInv(c: nat, y: Sys)
    requires Reachable(c, y)
    ensures SysInv(c, y)
  {
    var es :| CanRun(c, INIT, es) && Run(c, INIT, es) == y;
    RunKeepsInv(c, INIT, es);
  }

  /**
   Frames are popped in the order they were pushed, each once. When wait is about to return
   false, the stop it took has fired and every frame pushed so far has been handed over.
   */
  lemma NoFrameLost(c: nat, y: Sys, id: Id, who: Who, why: Stop)
    requires Reachable(c, y) && id in y.slots
    ensures var s := y.slots[id];
            && s.q.popped + s.q.items == s.q.pushed
            && (WaitOf(s, who) == Some(LastTry(why)) ==>
                  StopInv(c, y.sh, s, who, why)
                  && (DoWait(y.sh, s, who, LastPop) == GiveUp(s, who, why) <==> s.q.popped == s.q.pushed))
  {
    ReachableInv(c, y);
    var s := y.slots[id];
    if s.q.items == [] { assert s.q.popped + [] == s.q.popped; }
  }

  /** No lost wakeup, and one consumer at a time. */
  lemma NoLostWakeup(c: nat, y: Sys, id: Id)
    requires Reachable(c, y) && id in y.slots
    ensures var s := y.slots[id];
            (WaitOf(s, Requester).None? || WaitOf(s, Pump).None?)
            && (IsParked(s) && s.q.items != [] ==>
                  (exists who :: CanWait(y.sh, s, who, TakeSignal)) || CanStep(y, Notify(id)))
  {
    ReachableInv(c, y);
    var s := y.slots[id];
    if IsParked(s) && s.q.items != [] {
      assert s.q.sig ==> CanWait(y.sh, s, Requester, TakeSignal) || CanWait(y.sh, s, Pump, TakeSignal);
    }
  }

  /** The pending map holds exactly the requests whose Request or pump will still release the slot. */
  lemma SlotAccounting(c: nat, y: Sys)
    requires Reachable(c, y)
    ensures Pending(y) == set id | id in y.slots && Live(y.slots[id])
  {
    ReachableInv(c, y);
  }
}
