/** What a set of tasks can get done at all: the least set closed under "my dependencies are done, so I am". */
module Closure {
  import opened Tasks

  /** Each semaphore that `t` waits for is carried by a task of `done`, and so is done the task that `t` continues. */
  ghost predicate Served(tasks: seq<Task>, done: set<TaskId>, t: TaskId)
    requires t < |tasks|
  {
    && (forall i :: 0 <= i < |tasks[t].wait| ==> Signalled(tasks, done, tasks[t].wait[i]))
    && (HasPred(tasks[t]) ==> tasks[t].body.pred in done)
  }

  ghost predicate Signalled(tasks: seq<Task>, done: set<TaskId>, x: SemId) {
    exists u: TaskId :: u in done && u < |tasks| && x in tasks[u].semaphores
  }

  ghost predicate Closed(tasks: seq<Task>, given: set<TaskId>, done: set<TaskId>) {
    forall t: TaskId :: t in given && t < |tasks| && Served(tasks, done, t) ==> t in done
  }

  /** `done` is what the given tasks can get done: it is closed, and in every closed set. */
  ghost predicate Least(tasks: seq<Task>, given: set<TaskId>, done: set<TaskId>) {
    && Closed(tasks, given, done)
    && (forall q: set<TaskId> :: Closed(tasks, given, q) ==> done <= q)
  }

  lemma LeastIsUnique(tasks: seq<Task>, given: set<TaskId>, a: set<TaskId>, b: set<TaskId>)
    requires Least(tasks, given, a) && Least(tasks, given, b)
    ensures a == b
  {
    assert a <= b && b <= a;
  }

  /** Every dependency of a task is on a task before it. */
  ghost predicate Forward(tasks: seq<Task>) {
    && WellFormed(tasks)
    && (forall t, i :: 0 <= t < |tasks| && 0 <= i < |tasks[t].wait| ==> SignalledBefore(tasks, t, tasks[t].wait[i]))
  }

  ghost predicate SignalledBefore(tasks: seq<Task>, t: TaskId, x: SemId) {
    exists u: TaskId :: u < t && u < |tasks| && x in tasks[u].semaphores
  }

  /** Tasks with forward dependencies can all get done. */
  lemma {:induction false} ForwardGetsDone(tasks: seq<Task>, given: set<TaskId>, done: set<TaskId>, t: TaskId)
    requires Forward(tasks) && Closed(tasks, given, done)
    requires forall u: TaskId :: u < |tasks| ==> u in given
    requires t < |tasks|
    ensures t in done
    decreases t
  {
    forall u: TaskId | u < t ensures u in done {
      ForwardGetsDone(tasks, given, done, u);
    }
    forall i | 0 <= i < |tasks[t].wait| ensures Signalled(tasks, done, tasks[t].wait[i]) {
      assert SignalledBefore(tasks, t, tasks[t].wait[i]);
      var u: TaskId :| u < t && u < |tasks| && tasks[t].wait[i] in tasks[u].semaphores;
      assert u in done;
    }
    assert Served(tasks, done, t);
  }

  // ----- why a task cannot get done -----

  /** Every task that carries `x` is in `k`. */
  ghost predicate OnlyIn(tasks: seq<Task>, x: SemId, k: set<TaskId>) {
    forall u: TaskId :: u < |tasks| && x in tasks[u].semaphores ==> u in k
  }

  /** The task cannot start before some task of `k` ends. */
  ghost predicate Tied(tasks: seq<Task>, k: set<TaskId>, t: TaskId) {
    && t < |tasks|
    && ((HasPred(tasks[t]) && tasks[t].body.pred in k)
        || exists i :: 0 <= i < |tasks[t].wait| && OnlyIn(tasks, tasks[t].wait[i], k))
  }

  /** Each of these tasks waits for another one of them. */
  ghost predicate Knot(tasks: seq<Task>, k: set<TaskId>) {
    k != {} && forall t :: t in k ==> Tied(tasks, k, t)
  }

  lemma TiedIsNotServed(tasks: seq<Task>, k: set<TaskId>, done: set<TaskId>, t: TaskId)
    requires t < |tasks| && forall u: TaskId :: u < |tasks| ==> (u in k <==> u !in done)
    requires HasPred(tasks[t]) ==> tasks[t].body.pred < |tasks|
    ensures Tied(tasks, k, t) <==> !Served(tasks, done, t)
  {
    forall i | 0 <= i < |tasks[t].wait|
      ensures OnlyIn(tasks, tasks[t].wait[i], k) <==> !Signalled(tasks, done, tasks[t].wait[i])
    {
      if !OnlyIn(tasks, tasks[t].wait[i], k) {
        var u: TaskId :| u < |tasks| && tasks[t].wait[i] in tasks[u].semaphores && u !in k;
        assert u in done;
      }
    }
  }

  /** The ids below `n`. */
  ghost function UpTo(n: nat): (r: set<TaskId>)
    ensures forall t: TaskId :: t in r <==> t < n
  {
    if n == 0 then {} else UpTo(n - 1) + {n - 1}
  }

  /** All tasks can get done exactly if there is no knot among them. */
  lemma NoKnot(tasks: seq<Task>, given: set<TaskId>, done: set<TaskId>)
    requires WellFormed(tasks) && Least(tasks, given, done) && UpTo(|tasks|) <= given
    ensures (forall t: TaskId :: t < |tasks| ==> t in done) <==> (forall k: set<TaskId> :: !Knot(tasks, k))
  {
    var rest := UpTo(|tasks|) - done;
    if rest != {} {
      forall t | t in rest ensures Tied(tasks, rest, t) {
        TiedIsNotServed(tasks, rest, done, t);
      }
      assert Knot(tasks, rest);
    }
    assert forall t: TaskId :: t < |tasks| ==> t in done || t in rest;
    if k: set<TaskId> :| Knot(tasks, k) {
      var t := KnotIsNotDone(tasks, given, done, k);
    }
  }

  /** The tasks of a knot never get done. */
  lemma KnotIsNotDone(tasks: seq<Task>, given: set<TaskId>, done: set<TaskId>, k: set<TaskId>) returns (t: TaskId)
    requires WellFormed(tasks) && Least(tasks, given, done) && Knot(tasks, k)
    ensures forall u :: u in k ==> u !in done
    ensures t in k && t < |tasks| && t !in done
  {
    var others := UpTo(|tasks|) - k;
    forall u: TaskId | u in given && u < |tasks| && Served(tasks, others, u) ensures u in others {
      TiedIsNotServed(tasks, k, others, u);
    }
    assert Closed(tasks, given, others);
    assert done <= others;
    t :| t in k;
    assert Tied(tasks, k, t);
  }

  /** Tasks that depend on earlier tasks only have no knot. */
  lemma {:induction false} ForwardIsNotTied(tasks: seq<Task>, k: set<TaskId>, t: TaskId)
    requires Forward(tasks) && Knot(tasks, k)
    ensures t !in k
    decreases t
  {
    if t in k {
      assert Tied(tasks, k, t);
      if HasPred(tasks[t]) && tasks[t].body.pred in k {
        ForwardIsNotTied(tasks, k, tasks[t].body.pred);
      } else {
        var i :| 0 <= i < |tasks[t].wait| && OnlyIn(tasks, tasks[t].wait[i], k);
        assert SignalledBefore(tasks, t, tasks[t].wait[i]);
        var u: TaskId :| u < t && u < |tasks| && tasks[t].wait[i] in tasks[u].semaphores;
        ForwardIsNotTied(tasks, k, u);
      }
    }
  }
}
