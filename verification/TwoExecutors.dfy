/** The queue and `run_all` get the same done: neither threads nor the order of the list make a difference. */
module TwoExecutors {
  import opened Tasks
  import opened Closure
  import opened Run
  import opened RunProof
  import opened Baking
  import opened RawBuffer
  import opened BakeThenRun
  import Losses
  import Memory
  import Protocol
  import Results
  import Quiescence

  /** For new tasks, what can be retired in a pass is what has its dependencies done. */
  lemma EnabledIsServed(all: seq<Task>, w0: World, done: set<TaskId>, t: TaskId)
    requires Fresh(all, w0) && t < |all|
    ensures Enabled(all, w0, UpTo(|all|), done, t) <==> Served(all, done, t)
  {
    if HasPred(all[t]) {
      NothingFails(all, w0, all[t].body.pred);
    }
    assert forall k :: 0 <= k < |all[t].wait| ==> (Lit(all, w0, done, all[t].wait[k]) <==> Signalled(all, done, all[t].wait[k]));
  }

  lemma ClosedAlike(all: seq<Task>, w0: World, done: set<TaskId>)
    requires Fresh(all, w0)
    ensures ClosedIn(all, w0, UpTo(|all|), done) <==> Closed(all, UpTo(|all|), done)
  {
    forall t: TaskId | t < |all| ensures Enabled(all, w0, UpTo(|all|), done, t) <==> Served(all, done, t) {
      EnabledIsServed(all, w0, done, t);
    }
  }

  /** `run_all` gets done what can get done at all, in whatever order the tasks are listed. */
  lemma RunAllIsComplete(all: seq<Task>, w0: World, ts: seq<Task>, k: nat) returns (done: set<TaskId>)
    requires Fresh(all, w0) && Runnable(all, w0, ts) && Ids(ts) == UpTo(|all|) && k >= |ts|
    ensures AllKnown(w0, ts)
    ensures Least(all, UpTo(|all|), done) && Ids(Passes(w0, ts, k).rest) == UpTo(|all|) - done
    ensures forall t: TaskId :: t in done ==>
              t < |all| && t in Passes(w0, ts, k).w.states && Passes(w0, ts, k).w.states[t] == Ready == StateOf(Eval(all, t))
  {
    done := Fixpoint(all, w0, ts, k);
    ClosedAlike(all, w0, done);
    forall q: set<TaskId> | Closed(all, UpTo(|all|), q) ensures done <= q {
      ClosedAlike(all, w0, q);
    }
    forall t: TaskId | t in done
      ensures t < |all| && t in Passes(w0, ts, k).w.states && Passes(w0, ts, k).w.states[t] == Ready == StateOf(Eval(all, t))
    {
      NothingFails(all, w0, t);
      MeaningIsEval(all, w0, t);
    }
  }

  lemma NoneBreaks(c: Memory.Config, w0: World)
    requires Fresh(c.tasks, w0)
    ensures Losses.Breakers(c) == {}
  {
    forall t: TaskId | t < |c.tasks| ensures !Losses.Breaks(c, t) {
      MeaningIsEval(c.tasks, w0, t);
    }
  }

  /** What is left after so many passes over new tasks: nothing, exactly if all can get done. */
  lemma PassesLeaveNothing(all: seq<Task>, w0: World, k: nat) returns (done: set<TaskId>)
    requires Fresh(all, w0) && k >= |all|
    ensures AllKnown(w0, all) && Least(all, UpTo(|all|), done)
    ensures Passes(w0, all, k).rest == [] <==> forall t: TaskId :: t < |all| ==> t in done
    ensures forall t: TaskId :: t in done ==> t in Passes(w0, all, k).w.states && Passes(w0, all, k).w.states[t] == Ready
  {
    FreshIsRunnable(all, w0);
    done := RunAllIsComplete(all, w0, all, k);
    NothingLeft(Passes(w0, all, k).rest);
    NoneBut(|all|, done);
  }

  lemma NoneBut(n: nat, done: set<TaskId>)
    ensures UpTo(n) - done == {} <==> forall t: TaskId :: t < n ==> t in done
  {
    if forall t: TaskId :: t < n ==> t in done {
      assert forall t :: t in UpTo(n) - done ==> t < n && t !in done;
    } else {
      var t: TaskId :| t < n && t !in done;
      assert t in UpTo(n) - done;
    }
  }

  /**
   * Bake, then run on the calling thread: after as many passes as there are tasks, or more, `run_all` has nothing left if and
   * only if nothing that was recorded is tangled up; then every task is Ready.
   */
  lemma BakedRunsInPasses(chains: seq<Chain>, links: seq<Link>, base: SemId, w0: World, k: nat)
    requires Bakeable(chains, links) && NewWorld(Flat(chains), base, w0) && k >= |Flat(chains)|
    ensures AllKnown(w0, Baked(chains, links, base))
    ensures
      var r := Passes(w0, Baked(chains, links, base), k);
      && (r.rest == [] <==> Untangled(chains, links))
      && (r.rest == [] ==> forall t: TaskId :: t < |Flat(chains)| ==> t in r.w.states && r.w.states[t] == Ready)
  {
    var b := Baked(chains, links, base);
    NewIsFresh(chains, links, base, w0);
    BakedWellFormed(chains, links, base);
    var done := PassesLeaveNothing(b, w0, k);
    AllGetDone(chains, links, base, UpTo(|b|), done);
  }

  lemma NothingLeft(ts: seq<Task>)
    ensures ts == [] <==> Ids(ts) == {}
  {
    if ts != [] {
      assert ts[0].id in Ids(ts);
    }
  }

  /**
   * The executors agree: take new tasks whose bodies do not panic, submit all of them to the queue, with any number of
   * threads and workers and any schedule, and give all of them to `run_all`, in any order. When the queue comes to
   * rest it has retired exactly the tasks that `run_all` does not leave, and all of these are Ready in both.
   */
  lemma {:induction false} ExecutorsAgree(all: seq<Task>, w0: World, ts: seq<Task>, k: nat,
                                          labels: seq<Option<Label>>, workers: nat, run: seq<Protocol.Step>, t: TaskId)
    requires Fresh(all, w0) && Runnable(all, w0, ts) && Ids(ts) == UpTo(|all|) && k >= |ts| && t < |all|
    requires |labels| > 0 && 0 < workers < Protocol.U32 && Results.CancelFree(run)
    requires Quiescence.AtRest(Memory.Config(all, labels, workers), Protocol.Exec(Memory.Config(all, labels, workers), run))
    requires forall u: TaskId :: u < |all| ==> Results.Submitted(run, u)
    ensures AllKnown(w0, ts)
    ensures
      var m := Protocol.Exec(Memory.Config(all, labels, workers), run).mem;
      var r := Passes(w0, ts, k);
      && (m.hist[t].place == Memory.Retired <==> t !in Ids(r.rest))
      && (t !in Ids(r.rest) ==> t in r.w.states && m.cells[t].state == r.w.states[t] == Ready)
  {
    var c := Memory.Config(all, labels, workers);
    NoneBreaks(c, w0);
    Quiescence.FewStarveNone(c, run);
    var onQueue := Quiescence.RestIsComplete(c, run);
    var here := RunAllIsComplete(all, w0, ts, k);
    assert Quiescence.SubmittedIn(c, run) == UpTo(|all|);
    LeastIsUnique(all, UpTo(|all|), onQueue, here);
  }
}
