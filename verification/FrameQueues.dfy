/**
 frameQueue as an object. The concurrent steps are in GoCaller; here its three methods run
 against any script of what other goroutines do while wait is parked in its select.
 */
module FrameQueues {
  import opened Protocol

  /** One stay in the select: frames pushed meanwhile, and whether a stop channel is then picked over the signal. */
  datatype Stay<T> = Stay(arrivals: seq<T>, stop: bool)

  /** The frames pushed up to and including the stay in which a stop is picked. */
  function UpToStop<T>(script: seq<Stay<T>>): seq<T> {
    if script == [] then []
    else if script[0].stop then script[0].arrivals
    else script[0].arrivals + UpToStop(script[1..])
  }

  class FrameQueue<T> {
    var queue: seq<T>
    var sig: bool
    ghost var pushed: seq<T>
    ghost var popped: seq<T>

    ghost predicate Valid() reads this { popped + queue == pushed }

    constructor ()
      ensures Valid() && pushed == [] && popped == []
    {
      queue, sig, pushed, popped := [], false, [], [];
    }

    method Push(x: T)
      requires Valid()
      modifies this
      ensures Valid() && pushed == old(pushed) + [x] && popped == old(popped)
      ensures queue == old(queue) + [x] && sig
    {
      assert popped + (queue + [x]) == (popped + queue) + [x];
      queue := queue + [x];
      pushed := pushed + [x];
      sig := true;
    }

    method TryPop() returns (x: Option<T>)
      requires Valid()
      modifies this
      ensures Valid() && pushed == old(pushed) && sig == old(sig)
      ensures x.Some? <==> old(queue) != []
      ensures if x.Some? then old(queue) == [x.value] + queue && popped == old(popped) + [x.value]
              else queue == old(queue) && popped == old(popped)
    {
      if |queue| == 0 { return None; }
      x := Some(queue[0]);
      assert popped + queue == (popped + [queue[0]]) + queue[1..];
      popped := popped + [queue[0]];
      queue := queue[1..];
    }

    method PushAll(xs: seq<T>)
      requires Valid()
      modifies this
      ensures Valid() && pushed == old(pushed) + xs && popped == old(popped) && queue == old(queue) + xs
      ensures sig == (old(sig) || xs != [])
    {
      var i := 0;
      assert old(queue) + xs[..0] == old(queue) && old(pushed) + xs[..0] == old(pushed);
      while i < |xs|
        invariant 0 <= i <= |xs| && Valid() && popped == old(popped)
        invariant pushed == old(pushed) + xs[..i] && queue == old(queue) + xs[..i]
        invariant sig == (old(sig) || i > 0)
      {
        Push(xs[i]);
        assert xs[..i + 1] == xs[..i] + [xs[i]];
        i := i + 1;
      }
      assert xs[..|xs|] == xs;
    }

    /**
     wait: the first frame there is or will be before a stop, and false only when there is none.
     A script that runs out means that a stop fires with nothing more pushed.
     */
    method Wait(script: seq<Stay<T>>) returns (x: Option<T>)
      requires Valid()
      modifies this
      ensures Valid()
      ensures x.Some? <==> old(queue) + UpToStop(script) != []
      ensures x.Some? ==> x.value == (old(queue) + UpToStop(script))[0] && popped == old(popped) + [x.value]
      ensures x.None? ==> popped == old(popped) && queue == [] && pushed == popped
    {
      var todo := script;
      while true
        invariant Valid() && popped == old(popped)
        invariant queue + UpToStop(todo) == old(queue) + UpToStop(script)
        decreases |todo|, sig
      {
        x := TryPop();
        if x.Some? { return; }
        // parked in select until the signal or a stop is picked
        var stopped := false;
        ghost var before, ready := todo, sig;
        while !stopped && !sig
          invariant Valid() && popped == old(popped)
          invariant !stopped ==> queue == [] || sig
          invariant if stopped then queue == old(queue) + UpToStop(script)
                    else queue + UpToStop(todo) == old(queue) + UpToStop(script)
          invariant |todo| < |before| || (todo == before && sig == ready)
          decreases |todo|, !stopped
        {
          if todo == [] {
            stopped := true;
          } else {
            PushAll(todo[0].arrivals);
            stopped := todo[0].stop;
            todo := todo[1..];
          }
        }
        if stopped {
          x := TryPop();
          return;
        }
        sig := false;
      }
    }
  }
}
