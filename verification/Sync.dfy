/** Semaphores and fences. */
module Sync {
  import opened Tasks
  import opened Signals

  /** A semaphore is open as soon as one of the tasks that carry it has signalled it, and stays open. */
  class Semaphore {
    var signaled: bool
    /** The tasks that have signalled it, in order. */
    ghost var signallers: seq<TaskId>

    ghost predicate Valid()
      reads this
    {
      signaled <==> signallers != []
    }

    constructor ()
      ensures Valid() && signallers == []
    {
      signaled, signallers := false, [];
    }

    method Signal(task: TaskId)
      requires Valid()
      modifies this
      ensures Valid() && signallers == old(signallers) + [task]
    {
      signaled := true;
      signallers := signallers + [task];
    }

    method Ready() returns (r: bool)
      requires Valid()
      ensures r <==> signallers != []
    {
      r := signaled;
    }
  }

  /** A fence shows the signal of the task that it was bound to last, and of no other. */
  class Fence {
    var signalled: Option<Signal>
    /** All the signals that the fence was ever bound to. */
    ghost var bound: seq<Signal>

    ghost predicate Valid()
      reads this
    {
      signalled == if bound == [] then None else Some(bound[|bound| - 1])
    }

    constructor ()
      ensures Valid() && bound == []
    {
      signalled, bound := None, [];
    }

    method Bind(signal: Signal)
      requires Valid()
      modifies this
      ensures Valid() && bound == old(bound) + [signal]
    {
      signalled := Some(signal);
      bound := bound + [signal];
    }

    /** None stands for the panic of an unbound fence. */
    method Ready() returns (r: Option<bool>)
      requires Valid()
      ensures r.None? <==> bound == []
      ensures r.Some? ==> (r.value <==> Open(bound, set signal | signal in bound && signal.ready))
    {
      match signalled
      case None => return None;
      case Some(signal) => return Some(signal.ready);
    }
  }

  /** A fence that was bound to these signals is open when the flags of those in `ended` are up. */
  ghost predicate Open<S>(bound: seq<S>, ended: set<S>) {
    bound != [] && bound[|bound| - 1] in ended
  }

  /** What the description of fences says: it opens as soon as the first of its tasks ends. */
  ghost predicate OpenWithFirst<S>(bound: seq<S>, ended: set<S>) {
    exists k :: 0 <= k < |bound| && bound[k] in ended
  }

  /** The description holds, in whatever order tasks end, exactly for fences that were bound to one task only. */
  lemma OpensWithFirstIfAlone<S(!new)>(bound: seq<S>)
    ensures
      (forall ended: set<S> :: Open(bound, ended) <==> OpenWithFirst(bound, ended)) <==>
      (forall j, k :: 0 <= j < k < |bound| ==> bound[j] == bound[k])
  {
    if forall ended: set<S> :: Open(bound, ended) <==> OpenWithFirst(bound, ended) {
      forall j, k | 0 <= j < k < |bound| ensures bound[j] == bound[k] {
        assert OpenWithFirst(bound, {bound[j]}) && OpenWithFirst(bound, {bound[k]});
        assert Open(bound, {bound[j]}) && Open(bound, {bound[k]});
      }
    }
    if forall j, k :: 0 <= j < k < |bound| ==> bound[j] == bound[k] {
      forall ended: set<S> ensures Open(bound, ended) <==> OpenWithFirst(bound, ended) {
        if k :| 0 <= k < |bound| && bound[k] in ended {
          assert k == |bound| - 1 || bound[k] == bound[|bound| - 1];
        }
      }
    }
  }

  // ----- a wait shuts the fence again -----

  /**
   * A task wakes its signal as it ends, which puts the flag up. A `wait` takes the flag down: on the handle of the task, as
   * the continuation of the task does, or on a fence.
   */
  datatype Event<S> = Ended(signal: S) | Waited(signal: S)

  /** The signals whose flags are up after the events. */
  ghost function FlagsUp<S>(events: seq<Event<S>>): set<S> {
    if events == [] then {}
    else
      var before, event := FlagsUp(events[..|events| - 1]), events[|events| - 1];
      if event.Ended? then before + {event.signal} else before - {event.signal}
  }

  /** Event `k` puts the flag of the signal up, and no later one takes it down. */
  ghost predicate UpSince<S>(events: seq<Event<S>>, signal: S, k: nat) {
    k < |events| && events[k] == Ended(signal) && forall j :: k < j < |events| ==> events[j] != Waited(signal)
  }

  /** A fence is open exactly if the task bound last has ended and nobody has since waited for it. */
  lemma {:induction false} ShutByWait<S>(bound: seq<S>, last: S, events: seq<Event<S>>)
    requires bound != [] && last == bound[|bound| - 1]
    ensures Open(bound, FlagsUp(events)) <==> exists k: nat :: UpSince(events, last, k)
  {
    if events != [] {
      var before, n := events[..|events| - 1], |events| - 1;
      ShutByWait(bound, last, before);
      assert UpSince(events, last, n) <==> events[n] == Ended(last);
      forall k: nat | k < n ensures UpSince(events, last, k) <==> UpSince(before, last, k) && events[n] != Waited(last) {
        assert forall j :: k < j < n ==> before[j] == events[j];
      }
    }
  }
}
