/** What any number of passes over a list of tasks gets done, and with what results. */
module RunProof {
  import opened Tasks
  import opened Closure
  import opened Run

  /**
   * A list to run: tasks of a well-formed universe `all`, in any order, each once, in a world that `ts` has not
   * touched. A predecessor outside the list may have any state; if it is Ready, its value can be waited for.
   */
  ghost predicate Runnable(all: seq<Task>, w0: World, ts: seq<Task>) {
    && WellFormed(all)
    && (forall i :: 0 <= i < |ts| ==> ts[i].id < |all| && all[ts[i].id] == ts[i] && Total(ts[i]))
    && (forall i, j :: 0 <= i < j < |ts| ==> ts[i].id != ts[j].id)
    && (forall t: TaskId :: t in w0.states <==> t < |all|)
    && !w0.stopped
    && (forall t: TaskId :: t in Ids(ts) ==> (w0.states[t] == Pending || w0.states[t] == Cancelled) && t !in w0.buffers)
    && (forall t: TaskId :: t in Ids(ts) && HasPred(all[t]) && all[t].body.pred !in Ids(ts)
                            && w0.states[all[t].body.pred] == Ready
                            ==> all[t].body.pred in w0.signals && all[t].body.pred in w0.buffers)
    && (forall t: TaskId :: t in w0.buffers ==> t < |all|)
  }

  ghost function Ids(ts: seq<Task>): set<TaskId> {
    set i | 0 <= i < |ts| :: ts[i].id
  }

  /** The task was cancelled before the start, or continues one that fails. */
  ghost predicate Fails(all: seq<Task>, w0: World, list: set<TaskId>, t: TaskId)
    requires WellFormed(all) && t < |all| && (forall u: TaskId :: u < |all| ==> u in w0.states)
    decreases t
  {
    || w0.states[t] == Cancelled
    || (t !in list && w0.states[t] == Panicked)
    || (t in list && HasPred(all[t]) && Fails(all, w0, list, all[t].body.pred))
  }

  /** The value that the chain of `t` computes, from the values that were there before. */
  ghost function Meaning(all: seq<Task>, w0: World, list: set<TaskId>, t: TaskId): Outcome
    requires WellFormed(all) && t < |all|
    decreases t
  {
    if t !in list then (if t in w0.buffers then Yields(w0.buffers[t]) else Panics)
    else
      match all[t].body
      case Root(out) => out
      case Continuation(p, f) =>
        match Meaning(all, w0, list, p)
        case Yields(v) => f(v)
        case Panics => Panics
  }

  /** With `done` retired, `x` is signalled. */
  ghost predicate Lit(all: seq<Task>, w0: World, done: set<TaskId>, x: SemId) {
    x in w0.sems || Signalled(all, done, x)
  }

  /** With `done` retired, `t` can be retired: run, or settled because it fails. */
  ghost predicate Enabled(all: seq<Task>, w0: World, list: set<TaskId>, done: set<TaskId>, t: TaskId)
    requires WellFormed(all) && t < |all| && (forall u: TaskId :: u < |all| ==> u in w0.states)
  {
    var task := all[t];
    || w0.states[t] == Cancelled
    || (HasPred(task) && Settled(w0, done, task.body.pred)
        && (Fails(all, w0, list, task.body.pred) || Waits(all, w0, done, task)))
    || (!HasPred(task) && Waits(all, w0, done, task))
  }

  ghost predicate Settled(w0: World, done: set<TaskId>, p: TaskId)
    requires p in w0.states
  {
    p in done || w0.states[p] != Pending
  }

  ghost predicate Waits(all: seq<Task>, w0: World, done: set<TaskId>, task: Task) {
    forall i :: 0 <= i < |task.wait| ==> Lit(all, w0, done, task.wait[i])
  }

  lemma EnabledGrows(all: seq<Task>, w0: World, list: set<TaskId>, small: set<TaskId>, large: set<TaskId>, t: TaskId)
    requires WellFormed(all) && t < |all| && (forall u: TaskId :: u < |all| ==> u in w0.states)
    requires small <= large && Enabled(all, w0, list, small, t)
    ensures Enabled(all, w0, list, large, t)
  {
    var task := all[t];
    assert Waits(all, w0, small, task) ==> Waits(all, w0, large, task) by {
      if Waits(all, w0, small, task) {
        forall i | 0 <= i < |task.wait| ensures Lit(all, w0, large, task.wait[i]) {
          assert Lit(all, w0, small, task.wait[i]);
        }
      }
    }
  }

  // ----- the world after some tasks have retired -----

  ghost predicate StateOk(all: seq<Task>, w0: World, list: set<TaskId>, done: set<TaskId>, w: World, t: TaskId)
    requires WellFormed(all) && t < |all| && (forall u: TaskId :: u < |all| ==> u in w0.states)
  {
    && t in w.states
    && (t !in done ==> w.states[t] == w0.states[t])
    && (t in done ==> w.states[t] == Ready || w.states[t] == Panicked || w.states[t] == Cancelled)
    && (t in done ==> (w.states[t] == Ready <==> !Fails(all, w0, list, t)))
  }

  /** A task that has not run, whose predecessor is Ready, finds its signal set and its value there. */
  ghost predicate HandleOk(all: seq<Task>, list: set<TaskId>, done: set<TaskId>, w: World, t: TaskId)
    requires WellFormed(all) && t < |all|
  {
    t in list && t !in done && HasPred(all[t]) && all[t].body.pred in w.states && w.states[all[t].body.pred] == Ready ==>
      all[t].body.pred in w.signals && all[t].body.pred in w.buffers
  }

  /** A task that continues `t` has run, and so has used up its signal and its value. */
  ghost predicate Taken(all: seq<Task>, done: set<TaskId>, w: World, t: TaskId) {
    exists u: TaskId :: u < |all| && u in done && HasPred(all[u]) && all[u].body.pred == t && u in w.states && w.states[u] == Ready
  }

  /** A task that has run has its value there, and one that has retired has its signal set, until a continuation takes them. */
  ghost predicate AnswerOk(all: seq<Task>, list: set<TaskId>, done: set<TaskId>, w: World, t: TaskId)
    requires WellFormed(all) && t < |all|
  {
    t in list && t in w.states ==>
      && (t in w.buffers <==> t in done && w.states[t] == Ready && !Taken(all, done, w, t))
      && (t in done ==> (t in w.signals <==> !Taken(all, done, w, t)))
      && (Taken(all, done, w, t) ==> t in done)
  }

  /**
   * How a task has failed: with a panic only if its predecessor did; and if the predecessor had, before or in time, then
   * with a panic, even if the task was cancelled itself.
   */
  ghost predicate KindOk(all: seq<Task>, w0: World, list: set<TaskId>, done: set<TaskId>, w: World, t: TaskId)
    requires WellFormed(all) && t < |all| && (forall u: TaskId :: u < |all| ==> u in w0.states && u in w.states)
  {
    t in done ==>
      && (w.states[t] == Panicked ==> HasPred(all[t]) && w.states[all[t].body.pred] == Panicked)
      && (HasPred(all[t]) ==>
            var p := all[t].body.pred;
            && (p !in list && w0.states[p] == Panicked ==> w.states[t] == Panicked)
            && (p in list && w0.states[t] == Pending && w0.states[p] == Pending ==>
                  p in done && (w.states[p] == Panicked ==> w.states[t] == Panicked)))
  }

  ghost predicate After(all: seq<Task>, w0: World, list: set<TaskId>, done: set<TaskId>, w: World) {
    && WellFormed(all) && (forall u: TaskId :: u < |all| ==> u in w0.states)
    && done <= list
    && (forall t: TaskId :: t in list ==> t < |all| && (w0.states[t] == Pending || w0.states[t] == Cancelled))
    && !w.stopped
    && w.states.Keys == w0.states.Keys
    && (forall t: TaskId :: t < |all| ==>
          && StateOk(all, w0, list, done, w, t) && HandleOk(all, list, done, w, t) && AnswerOk(all, list, done, w, t)
          && KindOk(all, w0, list, done, w, t))
    && (forall x: SemId :: x in w.sems <==> Lit(all, w0, done, x))
    && (forall t: TaskId :: t in w.buffers ==>
          t < |all| && (t in list ==> t in done) && Meaning(all, w0, list, t) == Yields(w.buffers[t]))
  }

  lemma AfterNothing(all: seq<Task>, w0: World, ts: seq<Task>)
    requires Runnable(all, w0, ts)
    ensures After(all, w0, Ids(ts), {}, w0) && AllKnown(w0, ts)
  {
  }

  /** A task that has not retired yet, and is looked at now. */
  ghost predicate Looked(all: seq<Task>, w0: World, list: set<TaskId>, done: set<TaskId>, w: World, task: Task) {
    && After(all, w0, list, done, w)
    && task.id < |all| && all[task.id] == task && Total(task) && task.id in list && task.id !in done
  }

  /** A look goes at the task exactly if it is enabled. */
  lemma LookDecides(all: seq<Task>, w0: World, list: set<TaskId>, done: set<TaskId>, w: World, task: Task)
    requires Looked(all, w0, list, done, w, task)
    ensures Knows(w, task)
    ensures Enabled(all, w0, list, done, task.id) <==>
            PredState(w, task) == Panicked || IsCancelled(w, task) || CanExecute(w, task)
    ensures HasPred(task) && (PredState(w, task) == Panicked || PredState(w, task) == Cancelled) ==>
            Fails(all, w0, list, task.body.pred)
    ensures HasPred(task) && PredState(w, task) == Ready ==> !Fails(all, w0, list, task.body.pred)
  {
    assert StateOk(all, w0, list, done, w, task.id);
    if HasPred(task) {
      assert StateOk(all, w0, list, done, w, task.body.pred);
    }
    assert WaitsReady(w, task) <==> Waits(all, w0, done, task);
  }

  /** What comes of a task that is retired: it runs, and takes what its predecessor has left, or it is settled. */
  ghost predicate Retiring(w: World, task: Task, w1: World) {
    && !w1.stopped && w1.states.Keys == w.states.Keys && w1.sems == w.sems
    && Knows(w, task)
    && (forall u: TaskId :: u in w.states && u != task.id ==> w1.states[u] == w.states[u])
    && (forall u: TaskId :: u in w1.buffers && u != task.id ==> u in w.buffers && w1.buffers[u] == w.buffers[u])
    && match w1.states[task.id]
       case Ready =>
         && task.id in w1.buffers && PredState(w, task) == Ready
         && (forall u: TaskId :: u != task.id ==>
               && (u in w1.buffers <==> u in w.buffers && !(HasPred(task) && u == task.body.pred))
               && (u in w1.signals <==> u in w.signals && !(HasPred(task) && u == task.body.pred)))
       case Panicked => w1.buffers == w.buffers && w1.signals == w.signals && PredState(w, task) == Panicked
       case Cancelled =>
         && w1.buffers == w.buffers && w1.signals == w.signals && PredState(w, task) != Panicked
         && (w.states[task.id] != Cancelled ==> PredState(w, task) != Pending)
       case Pending => false
  }

  lemma RetireTaken(all: seq<Task>, w0: World, list: set<TaskId>, done: set<TaskId>, w: World, task: Task, w1: World, t: TaskId)
    requires Looked(all, w0, list, done, w, task) && Retiring(w, task, w1) && t < |all|
    ensures
      Taken(all, done + {task.id}, w1, t) <==>
      Taken(all, done, w, t) || (w1.states[task.id] == Ready && HasPred(task) && task.body.pred == t)
  {
    if u: TaskId :| u < |all| && u in done && HasPred(all[u]) && all[u].body.pred == t && u in w.states && w.states[u] == Ready {
      assert w1.states[u] == Ready;
    }
    if w1.states[task.id] == Ready && HasPred(task) && task.body.pred == t {
      assert all[task.id] == task && task.id in done + {task.id};
    }
  }

  lemma RetireAnswer(all: seq<Task>, w0: World, list: set<TaskId>, done: set<TaskId>, w: World, task: Task, w1: World, t: TaskId)
    requires Looked(all, w0, list, done, w, task) && Retiring(w, task, w1) && t < |all|
    requires task.id !in w.buffers
    ensures AnswerOk(all, list, done + {task.id}, Fire(w1, task), t)
  {
    RetireTaken(all, w0, list, done, w, task, w1, t);
    assert Taken(all, done + {task.id}, Fire(w1, task), t) <==> Taken(all, done + {task.id}, w1, t);
    assert StateOk(all, w0, list, done, w, t) && AnswerOk(all, list, done, w, t) && StateOk(all, w0, list, done, w, task.id);
    assert AnswerOk(all, list, done, w, task.id);
  }

  lemma RetireKind(all: seq<Task>, w0: World, list: set<TaskId>, done: set<TaskId>, w: World, task: Task, w1: World, t: TaskId)
    requires Looked(all, w0, list, done, w, task) && Retiring(w, task, w1) && t < |all|
    ensures forall u: TaskId :: u < |all| ==> u in w0.states && u in w1.states
    ensures KindOk(all, w0, list, done + {task.id}, Fire(w1, task), t)
  {
    assert StateOk(all, w0, list, done, w, t) && KindOk(all, w0, list, done, w, t) && StateOk(all, w0, list, done, w, task.id);
    if HasPred(all[t]) {
      assert StateOk(all, w0, list, done, w, all[t].body.pred);
    }
  }

  /** Retiring a task changes the world as the next `done` demands. */
  lemma RetireOk(all: seq<Task>, w0: World, list: set<TaskId>, done: set<TaskId>, w: World, task: Task, w1: World)
    requires Looked(all, w0, list, done, w, task) && Retiring(w, task, w1)
    requires w1.states[task.id] == Ready <==> !Fails(all, w0, list, task.id)
    requires task.id in w1.buffers ==> Meaning(all, w0, list, task.id) == Yields(w1.buffers[task.id])
    ensures After(all, w0, list, done + {task.id}, Fire(w1, task))
  {
    var done1 := done + {task.id};
    var w2 := Fire(w1, task);
    assert AnswerOk(all, list, done, w, task.id);
    forall t: TaskId | t < |all|
      ensures StateOk(all, w0, list, done1, w2, t) && HandleOk(all, list, done1, w2, t)
    {
      assert StateOk(all, w0, list, done, w, t) && HandleOk(all, list, done, w, t);
    }
    forall t: TaskId | t < |all| ensures AnswerOk(all, list, done1, w2, t) && KindOk(all, w0, list, done1, w2, t) {
      RetireAnswer(all, w0, list, done, w, task, w1, t);
      RetireKind(all, w0, list, done, w, task, w1, t);
    }
    forall x: SemId ensures x in w2.sems <==> Lit(all, w0, done1, x) {
      assert x in w.sems <==> Lit(all, w0, done, x);
      assert x in w2.sems <==> x in w.sems || x in task.semaphores;
    }
  }

  lemma AwaitOk(all: seq<Task>, w0: World, list: set<TaskId>, done: set<TaskId>, w: World, task: Task)
    requires Looked(all, w0, list, done, w, task) && Knows(w, task)
    requires PredState(w, task) == Ready && w.states[task.id] != Cancelled
    ensures !Await(w, task).stopped && After(all, w0, list, done + {task.id}, Fire(Await(w, task), task))
  {
    LookDecides(all, w0, list, done, w, task);
    assert StateOk(all, w0, list, done, w, task.id) && HandleOk(all, list, done, w, task.id);
    RetireOk(all, w0, list, done, w, task, Await(w, task));
  }

  lemma SettleOk(all: seq<Task>, w0: World, list: set<TaskId>, done: set<TaskId>, w: World, task: Task, st: TaskState)
    requires Looked(all, w0, list, done, w, task) && Knows(w, task)
    requires st == if PredState(w, task) == Panicked then Panicked else Cancelled
    requires w.states[task.id] == Cancelled || (HasPred(task) && (PredState(w, task) == Panicked || PredState(w, task) == Cancelled))
    ensures After(all, w0, list, done + {task.id}, Settle(w, task, st))
  {
    LookDecides(all, w0, list, done, w, task);
    assert StateOk(all, w0, list, done, w, task.id);
    RetireOk(all, w0, list, done, w, task, w.(states := w.states[task.id := st]));
  }

  /** A look retires the task exactly if it is enabled, and changes nothing if it is not. */
  lemma VisitOk(all: seq<Task>, w0: World, list: set<TaskId>, done: set<TaskId>, w: World, task: Task)
    requires Looked(all, w0, list, done, w, task)
    ensures Knows(w, task)
    ensures Visit(w, task).ran <==> Enabled(all, w0, list, done, task.id)
    ensures !Visit(w, task).ran ==> Visit(w, task).w == w
    ensures Visit(w, task).ran ==>
      After(all, w0, list, done + {task.id}, Visit(w, task).w) && Visit(w, task).w.retired == w.retired + [task.id]
  {
    LookDecides(all, w0, list, done, w, task);
    if PredState(w, task) == Panicked {
      SettleOk(all, w0, list, done, w, task, Panicked);
    } else if IsCancelled(w, task) {
      SettleOk(all, w0, list, done, w, task, Cancelled);
    } else if CanExecute(w, task) {
      AwaitOk(all, w0, list, done, w, task);
    }
  }

  // ----- a pass -----

  /** Tasks of the list that have not retired, each once. */
  ghost predicate Left(all: seq<Task>, list: set<TaskId>, done: set<TaskId>, ts: seq<Task>) {
    && (forall i :: 0 <= i < |ts| ==>
          ts[i].id < |all| && all[ts[i].id] == ts[i] && Total(ts[i]) && ts[i].id in list && ts[i].id !in done)
    && (forall i, j :: 0 <= i < j < |ts| ==> ts[i].id != ts[j].id)
  }

  /** What can be retired next, once `q` is retired, is in `q`. */
  ghost predicate ClosedIn(all: seq<Task>, w0: World, list: set<TaskId>, q: set<TaskId>)
    requires WellFormed(all) && (forall u: TaskId :: u < |all| ==> u in w0.states)
  {
    forall t: TaskId :: t in list && t < |all| && Enabled(all, w0, list, q, t) ==> t in q
  }

  ghost predicate NoneEnabled(all: seq<Task>, w0: World, list: set<TaskId>, done: set<TaskId>, ts: seq<Task>)
    requires WellFormed(all) && (forall u: TaskId :: u < |all| ==> u in w0.states)
    requires Left(all, list, done, ts)
  {
    forall i :: 0 <= i < |ts| ==> !Enabled(all, w0, list, done, ts[i].id)
  }

  lemma LeftKnown(all: seq<Task>, w0: World, list: set<TaskId>, done: set<TaskId>, w: World, ts: seq<Task>)
    requires After(all, w0, list, done, w) && Left(all, list, done, ts)
    ensures AllKnown(w, ts)
  {
  }

  /** Where a pass gets: the tasks it ran are retired, the others are left, in order, and were not enabled before. */
  ghost predicate PassOk(all: seq<Task>, w0: World, list: set<TaskId>, done: set<TaskId>, w: World, ts: seq<Task>,
                         r: Passed, done1: set<TaskId>)
    requires After(all, w0, list, done, w) && Left(all, list, done, ts)
  {
    && After(all, w0, list, done1, r.w) && Left(all, list, done1, r.rest)
    && done1 == done + (Ids(ts) - Ids(r.rest)) && Ids(r.rest) <= Ids(ts)
    && Left(all, list, done, r.rest) && NoneEnabled(all, w0, list, done, r.rest)
    && |r.rest| <= |ts|
    && (NoneEnabled(all, w0, list, done, ts) ==> r == Passed(w, ts))
    && (!NoneEnabled(all, w0, list, done, ts) ==> |r.rest| < |ts|)
    && (forall q: set<TaskId> :: ClosedIn(all, w0, list, q) && done <= q ==> done1 <= q)
  }

  lemma IdsMore(ts: seq<Task>, task: Task)
    ensures Ids(ts + [task]) == Ids(ts) + {task.id}
  {
    forall x ensures x in Ids(ts + [task]) <==> x in Ids(ts) + {task.id} {
      if x in Ids(ts) {
        var i :| 0 <= i < |ts| && ts[i].id == x;
        assert (ts + [task])[i].id == x;
      }
      assert (ts + [task])[|ts|] == task;
    }
  }

  lemma {:induction false} PassDoes(all: seq<Task>, w0: World, list: set<TaskId>, done: set<TaskId>, w: World, ts: seq<Task>)
    returns (done1: set<TaskId>)
    requires After(all, w0, list, done, w) && Left(all, list, done, ts)
    ensures AllKnown(w, ts)
    ensures PassOk(all, w0, list, done, w, ts, Pass(w, ts), done1)
    decreases |ts|
  {
    LeftKnown(all, w0, list, done, w, ts);
    if ts == [] {
      done1 := done;
    } else {
      var front, last := ts[..|ts| - 1], ts[|ts| - 1];
      assert ts == front + [last];
      var before := PassDoes(all, w0, list, done, w, front);
      done1 := LookOn(all, w0, list, done, w, front, last, Pass(w, front), before);
      PassUnfold(w, front, last);
    }
  }

  /** One more look at the end of a pass. */
  lemma LookOn(all: seq<Task>, w0: World, list: set<TaskId>, done: set<TaskId>, w: World, ts: seq<Task>, task: Task,
               r: Passed, before: set<TaskId>)
    returns (after: set<TaskId>)
    requires After(all, w0, list, done, w) && Left(all, list, done, ts + [task]) && Left(all, list, done, ts)
    requires PassOk(all, w0, list, done, w, ts, r, before)
    ensures Knows(r.w, task) && Total(task)
    ensures PassOk(all, w0, list, done, w, ts + [task], PassOn(r, task), after)
  {
    assert (ts + [task])[|ts|] == task;
    assert task.id !in Ids(ts) by {
      forall i | 0 <= i < |ts| ensures ts[i].id != task.id {
        assert (ts + [task])[i] == ts[i];
      }
    }
    VisitOk(all, w0, list, before, r.w, task);
    IdsMore(ts, task);
    IdsMore(r.rest, task);
    if Enabled(all, w0, list, done, task.id) {
      EnabledGrows(all, w0, list, done, before, task.id);
    }
    if Visit(r.w, task).ran {
      after := before + {task.id};
      RanOn(all, w0, list, done, w, ts, task, r, before);
    } else {
      after := before;
      LeftOn(all, w0, list, done, w, ts, task, r, before);
    }
  }

  lemma NoneEnabledSplit(all: seq<Task>, w0: World, list: set<TaskId>, done: set<TaskId>, ts: seq<Task>, task: Task)
    requires WellFormed(all) && (forall u: TaskId :: u < |all| ==> u in w0.states)
    requires Left(all, list, done, ts + [task]) && Left(all, list, done, ts) && task.id < |all|
    ensures NoneEnabled(all, w0, list, done, ts + [task]) <==>
            NoneEnabled(all, w0, list, done, ts) && !Enabled(all, w0, list, done, task.id)
  {
    var all1 := ts + [task];
    assert all1[|ts|] == task;
    assert forall i :: 0 <= i < |ts| ==> all1[i] == ts[i];
    assert forall i :: 0 <= i < |all1| ==> i < |ts| || all1[i] == task;
  }

  lemma NoneEnabledIds(all: seq<Task>, w0: World, list: set<TaskId>, done: set<TaskId>, ts: seq<Task>, t: TaskId)
    requires WellFormed(all) && (forall u: TaskId :: u < |all| ==> u in w0.states)
    requires Left(all, list, done, ts) && NoneEnabled(all, w0, list, done, ts) && t in Ids(ts)
    ensures t < |all| && !Enabled(all, w0, list, done, t)
  {
  }

  lemma RanOn(all: seq<Task>, w0: World, list: set<TaskId>, done: set<TaskId>, w: World, ts: seq<Task>, task: Task,
              r: Passed, before: set<TaskId>)
    requires After(all, w0, list, done, w) && Left(all, list, done, ts + [task]) && Left(all, list, done, ts)
    requires PassOk(all, w0, list, done, w, ts, r, before)
    requires task.id in list && task.id !in Ids(ts) && task.id < |all| && task.id !in done
    requires Ids(ts + [task]) == Ids(ts) + {task.id}
    requires Enabled(all, w0, list, before, task.id)
    requires Knows(r.w, task) && Total(task) && After(all, w0, list, before + {task.id}, Visit(r.w, task).w)
    ensures PassOk(all, w0, list, done, w, ts + [task], Passed(Visit(r.w, task).w, r.rest), before + {task.id})
  {
    var all1 := ts + [task];
    assert forall i :: 0 <= i < |ts| ==> all1[i] == ts[i];
    assert all1[|ts|] == task;
    forall q: set<TaskId> | ClosedIn(all, w0, list, q) && done <= q ensures before + {task.id} <= q {
      assert before <= q;
      EnabledGrows(all, w0, list, before, q, task.id);
    }
    forall i | 0 <= i < |r.rest| ensures r.rest[i].id != task.id {
      assert r.rest[i].id in Ids(r.rest);
    }
    NoneEnabledSplit(all, w0, list, done, ts, task);
  }

  lemma LeftOn(all: seq<Task>, w0: World, list: set<TaskId>, done: set<TaskId>, w: World, ts: seq<Task>, task: Task,
               r: Passed, before: set<TaskId>)
    requires After(all, w0, list, done, w) && Left(all, list, done, ts + [task]) && Left(all, list, done, ts)
    requires PassOk(all, w0, list, done, w, ts, r, before)
    requires task.id !in Ids(ts) && task.id < |all| && task.id in list && all[task.id] == task && Total(task)
    requires task.id !in done
    requires Ids(ts + [task]) == Ids(ts) + {task.id} && Ids(r.rest + [task]) == Ids(r.rest) + {task.id}
    requires !Enabled(all, w0, list, before, task.id) && !Enabled(all, w0, list, done, task.id)
    ensures PassOk(all, w0, list, done, w, ts + [task], Passed(r.w, r.rest + [task]), before)
  {
    var all1 := ts + [task];
    assert forall i :: 0 <= i < |ts| ==> all1[i] == ts[i];
    assert all1[|ts|] == task;
    forall i | 0 <= i < |r.rest| ensures r.rest[i].id != task.id {
      assert r.rest[i].id in Ids(r.rest);
    }
    NoneEnabledSplit(all, w0, list, done, ts, task);
    NoneEnabledSplit(all, w0, list, done, r.rest, task);
  }

  // ----- the order of a pass -----

  /** `part` has tasks of `whole`, in the order in which they stand there. */
  ghost predicate Within(part: seq<Task>, whole: seq<Task>) {
    if part == [] then true
    else if whole == [] then false
    else
      var m, n := |part| - 1, |whole| - 1;
      (part[m] == whole[n] && Within(part[..m], whole[..n])) || Within(part, whole[..n])
  }

  lemma WithinSkip(part: seq<Task>, whole: seq<Task>, task: Task)
    requires Within(part, whole)
    ensures Within(part, whole + [task])
  {
    assert (whole + [task])[..|whole|] == whole;
  }

  lemma WithinTake(part: seq<Task>, whole: seq<Task>, task: Task)
    requires Within(part, whole)
    ensures Within(part + [task], whole + [task])
  {
    assert (whole + [task])[..|whole|] == whole && (part + [task])[..|part|] == part;
  }

  lemma {:induction false} WithinSelf(whole: seq<Task>)
    ensures Within(whole, whole)
  {
    if whole != [] {
      WithinSelf(whole[..|whole| - 1]);
    }
  }

  lemma {:induction false} WithinWithin(a: seq<Task>, b: seq<Task>, c: seq<Task>)
    requires Within(a, b) && Within(b, c)
    ensures Within(a, c)
    decreases |b| + |c|
  {
    if a != [] {
      var l, m, n := |a| - 1, |b| - 1, |c| - 1;
      if b[m] == c[n] && Within(b[..m], c[..n]) {
        if a[l] == b[m] && Within(a[..l], b[..m]) {
          WithinWithin(a[..l], b[..m], c[..n]);
        } else {
          WithinWithin(a, b[..m], c[..n]);
        }
      } else {
        WithinWithin(a, b, c[..n]);
      }
    }
  }

  ghost function IdList(ts: seq<Task>): seq<TaskId> {
    seq(|ts|, i requires 0 <= i < |ts| => ts[i].id)
  }

  /** What a pass over `ts`, from `w` on, has retired in `ran`, and has left. */
  ghost predicate InListOrder(w: World, ts: seq<Task>, r: Passed, ran: seq<Task>) {
    && Within(ran, ts) && Within(r.rest, ts)
    && r.w.retired == w.retired + IdList(ran)
  }

  /** The next look of a pass retires the task, or leaves it, or stops the thread. */
  lemma LookRetires(r: Passed, task: Task)
    requires Knows(r.w, task)
    ensures
      var next := PassOn(r, task);
      || (next.w.retired == r.w.retired + [task.id] && next.rest == r.rest)
      || (next.w.retired == r.w.retired && (next.rest == r.rest || next.rest == r.rest + [task]))
  {
  }

  lemma NextInListOrder(w: World, ts: seq<Task>, r: Passed, ran: seq<Task>, task: Task) returns (more: seq<Task>)
    requires InListOrder(w, ts, r, ran) && Knows(r.w, task)
    ensures InListOrder(w, ts + [task], PassOn(r, task), more)
  {
    WithinSkip(ran, ts, task);
    WithinTake(ran, ts, task);
    WithinSkip(r.rest, ts, task);
    WithinTake(r.rest, ts, task);
    LookRetires(r, task);
    IdListMore(ran, task);
    more := if PassOn(r, task).w.retired == r.w.retired then ran else ran + [task];
  }

  lemma IdListMore(ts: seq<Task>, task: Task)
    ensures IdList(ts + [task]) == IdList(ts) + [task.id]
  {
  }

  /** A pass retires tasks in the order of the list, and leaves the others in that order, whatever the bodies do. */
  lemma {:induction false} PassInListOrder(w: World, ts: seq<Task>) returns (ran: seq<Task>)
    requires AllKnown(w, ts)
    ensures InListOrder(w, ts, Pass(w, ts), ran)
    decreases |ts|
  {
    if ts == [] {
      ran := [];
    } else {
      var front, last := ts[..|ts| - 1], ts[|ts| - 1];
      assert ts == front + [last];
      PassUnfold(w, front, last);
      var before := PassInListOrder(w, front);
      ran := NextInListOrder(w, front, Pass(w, front), before, last);
    }
  }

  /** So do all passes together leave what they leave in the order of the list. */
  lemma {:induction false} PassesInListOrder(w: World, ts: seq<Task>, k: nat)
    requires AllKnown(w, ts)
    ensures Within(Passes(w, ts, k).rest, ts)
    decreases k
  {
    if k == 0 {
      WithinSelf(ts);
    } else {
      var before := Passes(w, ts, k - 1);
      PassesInListOrder(w, ts, k - 1);
      var ran := PassInListOrder(before.w, before.rest);
      WithinWithin(Pass(before.w, before.rest).rest, before.rest, ts);
    }
  }

  // ----- a pass that comes to a panic -----

  /** The body of the task will be run, and panics, or it waits in vain for its predecessor's value. */
  ghost predicate Halts(w: World, task: Task)
    requires Knows(w, task)
  {
    && CanExecute(w, task) && PredState(w, task) == Ready && w.states[task.id] != Cancelled
    && match task.body
       case Root(out) => out.Panics?
       case Continuation(p, f) => p !in w.signals || p !in w.buffers || f(w.buffers[p]).Panics?
  }

  /** The thread has stopped: nothing has come of the task that it was at, and the later ones are left as they are. */
  ghost predicate StoppedAt(before: Passed, later: seq<Task>, after: Passed) {
    && after.w.stopped && after.rest == before.rest + later
    && after.w.states == before.w.states && after.w.sems == before.w.sems && after.w.retired == before.w.retired
  }

  lemma HaltsHere(r: Passed, task: Task)
    requires Knows(r.w, task) && !r.w.stopped && Halts(r.w, task)
    ensures StoppedAt(r, [], PassOn(r, task))
  {
  }

  lemma HaltedOn(before: Passed, later: seq<Task>, after: Passed, task: Task)
    requires StoppedAt(before, later, after) && Knows(after.w, task)
    ensures StoppedAt(before, later + [task], PassOn(after, task))
  {
  }

  /**
   * A body that panics stops the thread: its task is gone without a state, and signals nothing; no task after it in the list is
   * looked at.
   */
  lemma {:induction false} PanicStops(w: World, front: seq<Task>, task: Task, later: seq<Task>)
    requires AllKnown(w, front + [task] + later) && AllKnown(w, front) && Knows(Pass(w, front).w, task)
    requires !Pass(w, front).w.stopped && Halts(Pass(w, front).w, task)
    ensures StoppedAt(Pass(w, front), later, Pass(w, front + [task] + later))
    decreases |later|
  {
    if later == [] {
      assert front + [task] + [] == front + [task];
      PassUnfold(w, front, task);
      HaltsHere(Pass(w, front), task);
    } else {
      var n := |later| - 1;
      var most := front + [task] + later[..n];
      assert front + [task] + later == most + [later[n]] && later == later[..n] + [later[n]];
      assert forall i :: 0 <= i < |most| ==> most[i] == (front + [task] + later)[i];
      PassUnfold(w, most, later[n]);
      PanicStops(w, front, task, later[..n]);
      HaltedOn(Pass(w, front), later[..n], Pass(w, most), later[n]);
    }
  }

  // ----- any number of passes -----

  /** What `k` passes have made of the list: `done` is retired, and either nothing more is enabled or `k` tasks are gone. */
  ghost predicate PassesOk(all: seq<Task>, w0: World, ts: seq<Task>, k: nat, r: Passed, done: set<TaskId>)
    requires Runnable(all, w0, ts)
  {
    var list := Ids(ts);
    && After(all, w0, list, done, r.w) && Left(all, list, done, r.rest)
    && list == done + Ids(r.rest)
    && (NoneEnabled(all, w0, list, done, r.rest) || |r.rest| + k <= |ts|)
    && (forall q: set<TaskId> :: ClosedIn(all, w0, list, q) ==> done <= q)
  }

  lemma {:induction false} PassesDo(all: seq<Task>, w0: World, ts: seq<Task>, k: nat) returns (done: set<TaskId>)
    requires Runnable(all, w0, ts)
    ensures AllKnown(w0, ts) && PassesOk(all, w0, ts, k, Passes(w0, ts, k), done)
    decreases k
  {
    AfterNothing(all, w0, ts);
    if k == 0 {
      done := {};
    } else {
      var before := PassesDo(all, w0, ts, k - 1);
      done := PassesGoOn(all, w0, ts, k - 1, Passes(w0, ts, k - 1), before);
    }
  }

  lemma PassesGoOn(all: seq<Task>, w0: World, ts: seq<Task>, k: nat, r: Passed, before: set<TaskId>)
    returns (done: set<TaskId>)
    requires Runnable(all, w0, ts) && PassesOk(all, w0, ts, k, r, before)
    ensures AllKnown(r.w, r.rest) && PassesOk(all, w0, ts, k + 1, Pass(r.w, r.rest), done)
  {
    var list := Ids(ts);
    done := PassDoes(all, w0, list, before, r.w, r.rest);
    var next := Pass(r.w, r.rest);
    if NoneEnabled(all, w0, list, before, r.rest) {
      assert next == Passed(r.w, r.rest);
      assert done == before;
    } else {
      assert |next.rest| < |r.rest|;
    }
    forall q: set<TaskId> | ClosedIn(all, w0, list, q) ensures done <= q {
      assert before <= q;
    }
  }

  /** Nothing is enabled among the left tasks: then the retired ones are closed. */
  lemma NoneLeftIsClosed(all: seq<Task>, w0: World, ts: seq<Task>, k: nat, r: Passed, done: set<TaskId>)
    requires Runnable(all, w0, ts) && PassesOk(all, w0, ts, k, r, done)
    requires NoneEnabled(all, w0, Ids(ts), done, r.rest)
    ensures ClosedIn(all, w0, Ids(ts), done)
  {
    forall t: TaskId | t in Ids(ts) && t < |all| && Enabled(all, w0, Ids(ts), done, t) ensures t in done {
      if t in Ids(r.rest) {
        NoneEnabledIds(all, w0, Ids(ts), done, r.rest, t);
      }
    }
  }

  /**
   * The fixpoint of `run_all`: for a list of `n` tasks in any order, after `n` passes or more the retired tasks are
   * exactly what can get done, the least closed set, and the list stays as it is. No pass ever blocks. Retired tasks
   * are Ready unless they fail, because they were cancelled before or continue a task that fails.
   */
  lemma Fixpoint(all: seq<Task>, w0: World, ts: seq<Task>, k: nat) returns (done: set<TaskId>)
    requires Runnable(all, w0, ts) && k >= |ts|
    ensures AllKnown(w0, ts)
    ensures
      var r := Passes(w0, ts, k);
      && !r.w.stopped
      && Ids(r.rest) == Ids(ts) - done && done <= Ids(ts)
      && Pass(r.w, r.rest) == r
    ensures ClosedIn(all, w0, Ids(ts), done)
    ensures forall q: set<TaskId> :: ClosedIn(all, w0, Ids(ts), q) ==> done <= q
    ensures forall t: TaskId :: t in done ==>
              t < |all| && t in Passes(w0, ts, k).w.states
              && (Passes(w0, ts, k).w.states[t] == Ready <==> !Fails(all, w0, Ids(ts), t))
    ensures forall t: TaskId :: t in Passes(w0, ts, k).w.buffers ==>
              t < |all| && Meaning(all, w0, Ids(ts), t) == Yields(Passes(w0, ts, k).w.buffers[t])
    ensures forall t: TaskId :: t < |all| ==> t in Passes(w0, ts, k).w.states
    ensures forall t: TaskId :: t < |all| ==> AnswerOk(all, Ids(ts), done, Passes(w0, ts, k).w, t)
    ensures forall t: TaskId :: t < |all| ==> KindOk(all, w0, Ids(ts), done, Passes(w0, ts, k).w, t)
  {
    var list := Ids(ts);
    done := PassesDo(all, w0, ts, k);
    var r := Passes(w0, ts, k);
    assert NoneEnabled(all, w0, list, done, r.rest);
    NoneLeftIsClosed(all, w0, ts, k, r, done);
    var same := PassDoes(all, w0, list, done, r.w, r.rest);
    forall x ensures x in Ids(r.rest) <==> x in list - done {
      assert Left(all, list, done, r.rest);
    }
    forall t: TaskId | t in done
      ensures t < |all| && t in r.w.states && (r.w.states[t] == Ready <==> !Fails(all, w0, list, t))
    {
      assert StateOk(all, w0, list, done, r.w, t);
    }
  }

  /** Every pass that runs something strictly shrinks the list, and a pass that runs nothing changes nothing. */
  lemma PassesShrink(all: seq<Task>, w0: World, ts: seq<Task>, k: nat)
    requires Runnable(all, w0, ts)
    ensures AllKnown(w0, ts)
    ensures
      var r := Passes(w0, ts, k);
      var next := Passes(w0, ts, k + 1);
      next == r || |next.rest| < |r.rest|
  {
    var done := PassesDo(all, w0, ts, k);
    var r := Passes(w0, ts, k);
    var after := PassDoes(all, w0, Ids(ts), done, r.w, r.rest);
  }
}
