/** Running tasks on the calling thread, without workers: one task, or a list of them pass after pass. */
module Run {
  import opened Tasks

  /**
   * What the calling thread reads and writes. `stopped` is set when the thread goes no further: a body panics, and
   * nothing catches it, or a continuation waits for a signal that is not set, and nobody else is there to set it.
   */
  datatype World = World(
    states: map<TaskId, TaskState>,
    buffers: map<TaskId, Value>,
    signals: set<TaskId>,
    sems: set<SemId>,
    retired: seq<TaskId>,
    stopped: bool)

  predicate Knows(w: World, task: Task) {
    task.id in w.states && (HasPred(task) ==> task.body.pred in w.states)
  }

  /** The body comes to an end with a value. */
  ghost predicate Total(task: Task) {
    match task.body
    case Root(out) => out.Yields?
    case Continuation(_, f) => forall v: Value :: f(v).Yields?
  }

  function PredState(w: World, task: Task): TaskState
    requires Knows(w, task)
  {
    match task.body
    case Root(_) => Ready
    case Continuation(p, _) => w.states[p]
  }

  predicate WaitsReady(w: World, task: Task) {
    forall x :: x in task.wait ==> x in w.sems
  }

  predicate CanExecute(w: World, task: Task)
    requires Knows(w, task)
  {
    WaitsReady(w, task) && PredState(w, task) != Pending
  }

  predicate IsCancelled(w: World, task: Task)
    requires Knows(w, task)
  {
    PredState(w, task) == Cancelled || w.states[task.id] == Cancelled
  }

  /** Signal all the semaphores of the task, and wake its own signal. */
  ghost function Fire(w: World, task: Task): World {
    w.(sems := w.sems + (set x | x in task.semaphores),
       signals := w.signals + {task.id},
       retired := w.retired + [task.id])
  }

  ghost function Settle(w: World, task: Task, st: TaskState): World {
    Fire(w.(states := w.states[task.id := st]), task)
  }

  /** The function of the task has come to its end: its value and its state are written down, or the panic goes on. */
  ghost function Ended(w: World, task: Task, out: Outcome): World {
    match out
    case Yields(v) => w.(buffers := w.buffers[task.id := v], states := w.states[task.id := Ready])
    case Panics => w.(stopped := true)
  }

  /** The body runs; a continuation first takes the value of its predecessor, whose state is Ready. */
  ghost function Await(w: World, task: Task): World
    requires Knows(w, task)
  {
    match task.body
    case Root(out) => Ended(w, task, out)
    case Continuation(p, f) =>
      if p !in w.signals || p !in w.buffers then w.(stopped := true)
      else Ended(w.(signals := w.signals - {p}, buffers := w.buffers - {p}), task, f(w.buffers[p]))
  }

  /** The world after a look at a task, and whether the task has run. */
  datatype Look = Look(w: World, ran: bool)

  ghost function Visit(w: World, task: Task): Look
    requires Knows(w, task)
  {
    if PredState(w, task) == Panicked then Look(Settle(w, task, Panicked), true)
    else if IsCancelled(w, task) then Look(Settle(w, task, Cancelled), true)
    else if CanExecute(w, task) then
      var w1 := Await(w, task);
      Look(if w1.stopped then w1 else Fire(w1, task), true)
    else Look(w, false)
  }

  ghost predicate AllKnown(w: World, tasks: seq<Task>) {
    forall i :: 0 <= i < |tasks| ==> Knows(w, tasks[i])
  }

  /** The world after a pass over a list, and the tasks that it leaves. A thread that is stopped looks at nothing more. */
  datatype Passed = Passed(w: World, rest: seq<Task>)

  ghost function Pass(w: World, tasks: seq<Task>): (r: Passed)
    requires AllKnown(w, tasks)
    ensures w.states.Keys <= r.w.states.Keys && AllKnown(r.w, r.rest) && |r.rest| <= |tasks|
  {
    if tasks == [] then Passed(w, [])
    else
      var n := |tasks| - 1;
      PassOn(Pass(w, tasks[..n]), tasks[n])
  }

  /** The next look of a pass. */
  ghost function PassOn(front: Passed, task: Task): Passed
    requires Knows(front.w, task)
  {
    if front.w.stopped then Passed(front.w, front.rest + [task])
    else
      var look := Visit(front.w, task);
      Passed(look.w, if look.ran then front.rest else front.rest + [task])
  }

  lemma PassUnfold(w: World, front: seq<Task>, last: Task)
    requires AllKnown(w, front + [last])
    ensures AllKnown(w, front) && Knows(Pass(w, front).w, last)
    ensures Pass(w, front + [last]) == PassOn(Pass(w, front), last)
  {
    var ts := front + [last];
    assert ts[|front|] == last && ts[..|front|] == front;
    assert forall i :: 0 <= i < |front| ==> ts[i] == front[i];
  }

  lemma PassNext(w: World, ts: seq<Task>, i: nat)
    requires AllKnown(w, ts) && i < |ts|
    ensures AllKnown(w, ts[..i]) && AllKnown(w, ts[..i + 1]) && ts[..i + 1] == ts[..i] + [ts[i]]
    ensures Knows(Pass(w, ts[..i]).w, ts[i])
    ensures Pass(w, ts[..i + 1]) == PassOn(Pass(w, ts[..i]), ts[i])
  {
    assert ts[..i + 1] == ts[..i] + [ts[i]];
    PassUnfold(w, ts[..i], ts[i]);
  }

  ghost function Passes(w: World, tasks: seq<Task>, k: nat): (r: Passed)
    requires AllKnown(w, tasks)
    ensures w.states.Keys <= r.w.states.Keys && AllKnown(r.w, r.rest)
  {
    if k == 0 then Passed(w, tasks)
    else
      var before := Passes(w, tasks, k - 1);
      Pass(before.w, before.rest)
  }

  /** The calling thread. */
  class Executor {
    var states: map<TaskId, TaskState>
    var buffers: map<TaskId, Value>
    var signals: set<TaskId>
    var sems: set<SemId>
    ghost var retired: seq<TaskId>
    var stopped: bool

    ghost function Now(): World
      reads this
    {
      World(states, buffers, signals, sems, retired, stopped)
    }

    method SignalAll(task: Task)
      modifies `sems, `signals, `retired
      ensures Now() == Fire(old(Now()), task)
    {
      for i := 0 to |task.semaphores|
        invariant sems == old(sems) + (set x | x in task.semaphores[..i])
        invariant signals == old(signals) && retired == old(retired)
      {
        assert task.semaphores[..i + 1] == task.semaphores[..i] + [task.semaphores[i]];
        sems := sems + {task.semaphores[i]};
      }
      assert task.semaphores[..|task.semaphores|] == task.semaphores;
      signals := signals + {task.id};
      retired := retired + [task.id];
    }

    /** `await_sync` on the future of a task that can execute. */
    method AwaitSync(task: Task)
      requires Knows(Now(), task)
      modifies this
      ensures Now() == Await(old(Now()), task)
    {
      var out;
      match task.body {
        case Root(o) => out := o;
        case Continuation(p, f) =>
          if p !in signals || p !in buffers {
            stopped := true;
            return;
          }
          signals := signals - {p};
          var t := buffers[p];
          buffers := buffers - {p};
          out := f(t);
      }
      if out.Panics? {
        stopped := true;
        return;
      }
      buffers := buffers[task.id := out.value];
      states := states[task.id := Ready];
    }

    /** One look at a task; `run` does no more than this, and drops a task that did not run. */
    method RunTask(task: Task) returns (ran: bool)
      requires Knows(Now(), task)
      modifies this
      ensures Look(Now(), ran) == Visit(old(Now()), task)
    {
      var w := World(states, buffers, signals, sems, [], stopped);
      if PredState(w, task) == Panicked {
        states := states[task.id := Panicked];
        SignalAll(task);
        return true;
      } else if IsCancelled(w, task) {
        states := states[task.id := Cancelled];
        SignalAll(task);
        return true;
      } else if CanExecute(w, task) {
        AwaitSync(task);
        if !stopped {
          SignalAll(task);
        }
        return true;
      } else {
        return false;
      }
    }

    /**
     * One turn of the outer loop of `run_all`. The idle counter starts at 0 in each turn, so it never gets beyond
     * 1, and the loop, which would end at 5, has no end.
     */
    method RunPass(tasks: seq<Task>) returns (rest: seq<Task>, ran: bool, count: nat)
      requires AllKnown(Now(), tasks) && !stopped
      modifies this
      ensures Passed(Now(), rest) == Pass(old(Now()), tasks)
      ensures !ran <==> rest == tasks
      ensures count == (if ran then 0 else 1) && count < 5
    {
      rest, ran, count := [], false, 0;
      for i := 0 to |tasks|
        invariant Passed(Now(), rest) == Pass(old(Now()), tasks[..i])
        invariant count == 0 && |rest| <= i
        invariant !ran ==> rest == tasks[..i] && !stopped
        invariant ran ==> |rest| < i
      {
        PassNext(old(Now()), tasks, i);
        ghost var front := Passed(Now(), rest);
        if stopped {
          rest := rest + [tasks[i]];
        } else {
          var ranNow := RunTask(tasks[i]);
          if ranNow {
            ran := true;
            count := 0;
          } else {
            rest := rest + [tasks[i]];
          }
        }
        assert Passed(Now(), rest) == PassOn(front, tasks[i]);
      }
      assert tasks[..|tasks|] == tasks;
      if !ran {
        count := count + 1;
      }
    }

    /** The first `k` turns of the loop of `run_all`. */
    method RunPasses(tasks: seq<Task>, k: nat) returns (rest: seq<Task>)
      requires AllKnown(Now(), tasks) && !stopped
      modifies this
      ensures Passed(Now(), rest) == Passes(old(Now()), tasks, k)
    {
      rest := tasks;
      for i := 0 to k
        invariant Passed(Now(), rest) == Passes(old(Now()), tasks, i)
      {
        if stopped {
          StoppedPass(Now(), rest);
        } else {
          var ran, count;
          rest, ran, count := RunPass(rest);
        }
      }
    }
  }

  lemma {:induction false} StoppedPass(w: World, tasks: seq<Task>)
    requires AllKnown(w, tasks) && w.stopped
    ensures Pass(w, tasks) == Passed(w, tasks)
    decreases |tasks|
  {
    if tasks != [] {
      StoppedPass(w, tasks[..|tasks| - 1]);
    }
  }
}
