/** A command buffer that is baked and then run: on the calling thread in one pass, or by the queue. */
module BakeThenRun {
  import opened Tasks
  import opened Binding
  import opened RawBuffer
  import opened Closure
  import opened Baking
  import opened Run
  import opened RunProof
  import Memory
  import Protocol
  import Results
  import Quiescence

  /** All the tasks are new: none has a state other than Pending or a value, and no semaphore they wait for is signalled. */
  ghost predicate Fresh(all: seq<Task>, w0: World) {
    && WellFormed(all)
    && (forall i :: 0 <= i < |all| ==> Total(all[i]))
    && (forall t: TaskId :: t in w0.states <==> t < |all|)
    && (forall t: TaskId :: t < |all| ==> w0.states[t] == Pending)
    && w0.buffers == map[] && !w0.stopped
    && (forall i, k :: 0 <= i < |all| && 0 <= k < |all[i].wait| ==> all[i].wait[k] !in w0.sems)
  }

  /** The ids below `n`, in order. */
  ghost function InOrder(n: nat): (r: seq<TaskId>)
    ensures |r| == n && forall t: TaskId :: t < n ==> r[t] == t
  {
    if n == 0 then [] else InOrder(n - 1) + [n - 1]
  }

  lemma FreshIsRunnable(all: seq<Task>, w0: World)
    requires Fresh(all, w0)
    ensures Runnable(all, w0, all) && Ids(all) == UpTo(|all|)
  {
    forall t: TaskId ensures t in Ids(all) <==> t in UpTo(|all|) {
      if t < |all| {
        assert all[t].id == t;
      }
    }
  }

  lemma {:induction false} NothingFails(all: seq<Task>, w0: World, t: TaskId)
    requires Fresh(all, w0) && t < |all|
    ensures !Fails(all, w0, UpTo(|all|), t)
    decreases t
  {
    if HasPred(all[t]) {
      NothingFails(all, w0, all[t].body.pred);
    }
  }

  lemma {:induction false} MeaningIsEval(all: seq<Task>, w0: World, t: TaskId)
    requires Fresh(all, w0) && t < |all|
    ensures Meaning(all, w0, UpTo(|all|), t) == Eval(all, t)
    ensures Eval(all, t).Yields?
    decreases t
  {
    assert Total(all[t]);
    if HasPred(all[t]) {
      MeaningIsEval(all, w0, all[t].body.pred);
    }
  }

  ghost predicate WaitsForward(all: seq<Task>, t: TaskId)
    requires t < |all|
  {
    forall k :: 0 <= k < |all[t].wait| ==> SignalledBefore(all, t, all[t].wait[k])
  }

  lemma ForwardOneByOne(all: seq<Task>)
    requires WellFormed(all)
    ensures Forward(all) <==> forall t: TaskId :: t < |all| ==> WaitsForward(all, t)
  {
    if forall t: TaskId :: t < |all| ==> WaitsForward(all, t) {
      forall t, k | 0 <= t < |all| && 0 <= k < |all[t].wait| ensures SignalledBefore(all, t, all[t].wait[k]) {
        assert WaitsForward(all, t);
      }
    }
  }

  /** When all tasks before `t` are retired and no others, `t` is enabled exactly if it waits for them only. */
  lemma EnabledNext(all: seq<Task>, w0: World, t: TaskId)
    requires Fresh(all, w0) && t < |all|
    ensures Enabled(all, w0, UpTo(|all|), UpTo(t), t) <==> WaitsForward(all, t)
  {
    if HasPred(all[t]) {
      NothingFails(all, w0, all[t].body.pred);
    }
    forall k | 0 <= k < |all[t].wait|
      ensures Lit(all, w0, UpTo(t), all[t].wait[k]) <==> SignalledBefore(all, t, all[t].wait[k])
    {
    }
  }

  /** The first `k` tasks are retired, in order. */
  ghost predicate Ran(all: seq<Task>, w0: World, k: nat, r: Passed) {
    && r.rest == []
    && After(all, w0, UpTo(|all|), UpTo(k), r.w)
    && r.w.retired == w0.retired + InOrder(k)
  }

  lemma FreshIsKnown(all: seq<Task>, w0: World, k: nat)
    requires Fresh(all, w0) && k <= |all|
    ensures AllKnown(w0, all[..k])
  {
  }

  /** The first `k` tasks wait for earlier ones only. */
  ghost predicate ForwardUpTo(all: seq<Task>, k: nat)
    requires k <= |all|
  {
    forall t: TaskId :: t < k ==> WaitsForward(all, t)
  }

  /** As long as tasks wait for earlier tasks only, the pass retires all of them, in order; else it leaves some. */
  ghost predicate OrderOk(all: seq<Task>, w0: World, k: nat, r: Passed)
    requires k <= |all|
  {
    if ForwardUpTo(all, k) then Ran(all, w0, k, r) else r.rest != []
  }

  lemma {:induction false} PassInOrder(all: seq<Task>, w0: World, k: nat) returns (r: Passed)
    requires Fresh(all, w0) && k <= |all|
    ensures AllKnown(w0, all[..k]) && r == Pass(w0, all[..k]) && OrderOk(all, w0, k, r)
    decreases k
  {
    FreshIsKnown(all, w0, k);
    if k == 0 {
      r := Passed(w0, []);
      NoneInOrder(all, w0);
    } else {
      var before := PassInOrder(all, w0, k - 1);
      r := NextInOrder(all, w0, k - 1, before);
    }
  }

  lemma NoneInOrder(all: seq<Task>, w0: World)
    requires Fresh(all, w0)
    ensures OrderOk(all, w0, 0, Passed(w0, []))
  {
    FreshIsRunnable(all, w0);
    AfterNothing(all, w0, all);
    assert w0.retired + [] == w0.retired;
  }

  lemma NextInOrder(all: seq<Task>, w0: World, k: nat, before: Passed) returns (r: Passed)
    requires Fresh(all, w0) && k < |all| && AllKnown(w0, all[..k])
    requires before == Pass(w0, all[..k]) && OrderOk(all, w0, k, before)
    ensures AllKnown(w0, all[..k + 1]) && r == Pass(w0, all[..k + 1]) && OrderOk(all, w0, k + 1, r)
  {
    FreshIsKnown(all, w0, |all|);
    assert all[..|all|] == all;
    PassNext(w0, all, k);
    r := PassOn(before, all[k]);
    NextOrderOk(all, w0, k, before);
  }

  lemma NextOrderOk(all: seq<Task>, w0: World, k: nat, before: Passed)
    requires Fresh(all, w0) && k < |all| && OrderOk(all, w0, k, before) && Knows(before.w, all[k])
    ensures OrderOk(all, w0, k + 1, PassOn(before, all[k]))
  {
    if ForwardUpTo(all, k) {
      NextLook(all, w0, k, before);
      assert ForwardUpTo(all, k + 1) <==> WaitsForward(all, k);
    } else {
      assert !ForwardUpTo(all, k + 1);
    }
  }

  lemma InOrderMore(s: seq<TaskId>, k: nat)
    ensures s + InOrder(k) + [k] == s + InOrder(k + 1)
  {
    assert InOrder(k + 1) == InOrder(k) + [k];
  }

  lemma NextLook(all: seq<Task>, w0: World, k: nat, r: Passed)
    requires Fresh(all, w0) && k < |all| && Ran(all, w0, k, r)
    ensures Knows(r.w, all[k])
    ensures
      var next := PassOn(r, all[k]);
      if WaitsForward(all, k) then Ran(all, w0, k + 1, next) else next.rest != []
  {
    VisitNext(all, w0, k, r.w);
    InOrderMore(w0.retired, k);
  }

  lemma VisitNext(all: seq<Task>, w0: World, k: nat, w: World)
    requires Fresh(all, w0) && k < |all| && After(all, w0, UpTo(|all|), UpTo(k), w)
    ensures Knows(w, all[k])
    ensures
      var look := Visit(w, all[k]);
      && (look.ran <==> WaitsForward(all, k))
      && (look.ran ==> After(all, w0, UpTo(|all|), UpTo(k + 1), look.w) && look.w.retired == w.retired + [k])
  {
    FreshIsRunnable(all, w0);
    VisitOk(all, w0, UpTo(|all|), UpTo(k), w, all[k]);
    EnabledNext(all, w0, k);
    assert UpTo(k + 1) == UpTo(k) + {k};
  }

  /** Nothing in the list continues the task, so its handle is still with a user. */
  ghost predicate Answerable(all: seq<Task>, t: TaskId) {
    forall u :: 0 <= u < |all| && HasPred(all[u]) ==> all[u].body.pred != t
  }

  /** The list has been run to its end, in order, with the results of its chains. */
  ghost predicate RanThrough(all: seq<Task>, before: World, after: World)
    requires WellFormed(all)
  {
    && !after.stopped && after.retired == before.retired + InOrder(|all|)
    && (forall t: TaskId :: t < |all| ==> t in after.states && after.states[t] == Ready)
    && (forall t: TaskId :: t < |all| && Answerable(all, t) ==>
          t in after.signals && t in after.buffers && Yields(after.buffers[t]) == Eval(all, t))
  }

  /**
   * One pass over fresh tasks retires them all exactly if each waits for earlier tasks only. Then it retires them in
   * order, no continuation blocks, every task ends Ready, and every task whose handle is still unused has the value
   * that its chain computes.
   */
  lemma OnePass(all: seq<Task>, w0: World)
    requires Fresh(all, w0)
    ensures AllKnown(w0, all)
    ensures Pass(w0, all).rest == [] <==> Forward(all)
    ensures Forward(all) ==> RanThrough(all, w0, Pass(w0, all).w)
  {
    assert all[..|all|] == all;
    var r := PassInOrder(all, w0, |all|);
    ForwardOneByOne(all);
    if Forward(all) {
      var w := Pass(w0, all).w;
      forall t: TaskId | t < |all|
        ensures t in w.states && w.states[t] == Ready
        ensures Answerable(all, t) ==> t in w.signals && t in w.buffers && Yields(w.buffers[t]) == Eval(all, t)
      {
        assert StateOk(all, w0, UpTo(|all|), UpTo(|all|), w, t) && AnswerOk(all, UpTo(|all|), UpTo(|all|), w, t);
        NothingFails(all, w0, t);
        MeaningIsEval(all, w0, t);
      }
    }
  }

  /** Nothing has happened yet to the recorded tasks, and semaphores from `base` on are unused; bodies never panic. */
  ghost predicate NewWorld(flat: seq<Task>, base: SemId, w: World) {
    && (forall i :: 0 <= i < |flat| ==> Total(flat[i]))
    && (forall t: TaskId :: t in w.states <==> t < |flat|)
    && (forall t: TaskId :: t < |flat| ==> w.states[t] == Pending)
    && w.buffers == map[] && !w.stopped
    && (forall x: SemId :: x in w.sems ==> x < base)
  }

  lemma NewIsFresh(chains: seq<Chain>, links: seq<Link>, base: SemId, w: World)
    requires Bakeable(chains, links) && NewWorld(Flat(chains), base, w)
    ensures Fresh(Baked(chains, links, base), w)
  {
    var b := Baked(chains, links, base);
    BakedWellFormed(chains, links, base);
    forall i | 0 <= i < |b| ensures Total(b[i]) && forall k :: 0 <= k < |b[i].wait| ==> b[i].wait[k] !in w.sems {
      BakeKeepsTasks(chains, links, base, i);
      forall k | 0 <= k < |b[i].wait| ensures b[i].wait[k] !in w.sems {
        var x := b[i].wait[k];
        OneSemaphorePerEdge(chains, links, base, i, x);
        assert x in multiset(b[i].wait);
      }
    }
  }

  /** The result of a task depends on the recorded bodies only; what baking adds does not change it. */
  lemma {:induction false} BakingKeepsResults(chains: seq<Chain>, links: seq<Link>, base: SemId, t: TaskId)
    requires Bakeable(chains, links) && t < |Flat(chains)| && WellFormed(Flat(chains))
    requires WellFormed(Baked(chains, links, base))
    ensures Eval(Baked(chains, links, base), t) == Eval(Flat(chains), t)
    decreases t
  {
    BakeKeepsTasks(chains, links, base, t);
    if HasPred(Flat(chains)[t]) {
      BakingKeepsResults(chains, links, base, Flat(chains)[t].body.pred);
    }
  }

  lemma RanBakedThrough(chains: seq<Chain>, links: seq<Link>, base: SemId, w0: World, w: World)
    requires Bakeable(chains, links) && WellFormed(Flat(chains)) && WellFormed(Baked(chains, links, base))
    requires RanThrough(Baked(chains, links, base), w0, w)
    ensures RanThrough(Flat(chains), w0, w)
  {
    var flat, b := Flat(chains), Baked(chains, links, base);
    forall u | 0 <= u < |flat| ensures b[u].body == flat[u].body {
      BakeKeepsTasks(chains, links, base, u);
    }
    forall t: TaskId | t < |flat| && Answerable(flat, t)
      ensures t in w.signals && t in w.buffers && Yields(w.buffers[t]) == Eval(flat, t)
    {
      assert Answerable(b, t);
      BakingKeepsResults(chains, links, base, t);
    }
  }

  /**
   * Bake, then run: whatever was recorded, with builders interleaved in any way, one pass over the baked list
   * retires every task exactly if all links go to later chains (or nothing was recorded). It does so in creation
   * order, without blocking, and with the composed results.
   */
  lemma BakedRunsInOnePass(chains: seq<Chain>, links: seq<Link>, base: SemId, w0: World)
    requires Bakeable(chains, links) && NewWorld(Flat(chains), base, w0)
    ensures WellFormed(Flat(chains)) && AllKnown(w0, Baked(chains, links, base))
    ensures
      var r := Pass(w0, Baked(chains, links, base));
      && (r.rest == [] <==> Flat(chains) == [] || LinksForward(links))
      && (r.rest == [] ==> RanThrough(Flat(chains), w0, r.w))
  {
    NewIsFresh(chains, links, base, w0);
    BakedIsForward(chains, links, base);
    BakedWellFormed(chains, links, base);
    OnePass(Baked(chains, links, base), w0);
    if Pass(w0, Baked(chains, links, base)).rest == [] {
      RanBakedThrough(chains, links, base, w0, Pass(w0, Baked(chains, links, base)).w);
    }
  }

  /**
   * Submitting a command buffer where there are no worker threads: its recording is baked, and the first turn of
   * the loop of `run_all` runs it. None stands for a panic of the bake.
   */
  method BakeAndRun(buffer: RawCommandBuffer, me: Executor) returns (rest: Option<seq<Task>>)
    requires buffer.Valid() && NewWorld(Flat(buffer.chains), buffer.nextSem, me.Now())
    modifies buffer, me
    ensures rest.Some? <==> old(FencesInBounds(buffer.fences, |buffer.chains|) && LinksInBounds(buffer.links, |buffer.chains|))
    ensures rest.Some? ==> (rest.value == [] <==> old(Flat(buffer.chains)) == [] || LinksForward(old(buffer.links)))
    ensures rest == Some([]) ==> RanThrough(old(Flat(buffer.chains)), old(me.Now()), me.Now())
  {
    if LinksInBounds(buffer.links, |buffer.chains|) {
      BakeableBuffer(buffer);
      BakedRunsInOnePass(buffer.chains, buffer.links, buffer.nextSem, me.Now());
    }
    var baked := buffer.Finish();
    if baked.None? {
      return None;
    }
    var left, ran, count := me.RunPass(baked.value);
    return Some(left);
  }

  /**
   * The same buffer on the queue, with panics allowed: when the threads have come to rest, with no task starved for slots,
   * whatever their schedule was, every task has been retired if and only if nothing that was recorded is tangled up. The
   * tasks that are retired are in the state that their chain of recorded functions computes.
   */
  lemma {:induction false} BakedRunsOnTheQueue(chains: seq<Chain>, links: seq<Link>, base: SemId,
                                               labels: seq<Option<Label>>, workers: nat, run: seq<Protocol.Step>)
    requires Bakeable(chains, links) && |labels| > 0 && workers < Protocol.U32
    requires
      var c := Memory.Config(Baked(chains, links, base), labels, workers);
      && Protocol.ValidConfig(c) && Results.CancelFree(run)
      && Quiescence.AtRest(c, Protocol.Exec(c, run)) && Quiescence.NoneStarved(c, Protocol.Exec(c, run))
    requires forall t: TaskId :: t < |Flat(chains)| ==> Results.Submitted(run, t)
    ensures
      var m := Protocol.Exec(Memory.Config(Baked(chains, links, base), labels, workers), run).mem;
      && WellFormed(Flat(chains)) && |m.hist| == |m.cells| == |Flat(chains)|
      && ((forall t: TaskId :: t < |Flat(chains)| ==> m.hist[t].place == Memory.Retired) <==> Untangled(chains, links))
      && (forall t: TaskId :: t < |Flat(chains)| && m.hist[t].place == Memory.Retired ==>
            m.cells[t].state == StateOf(Eval(Flat(chains), t)))
  {
    BakedWellFormed(chains, links, base);
    var c := Memory.Config(Baked(chains, links, base), labels, workers);
    var m := Protocol.Exec(c, run).mem;
    var retired := Quiescence.RestIsComplete(c, run);
    AllGetDone(chains, links, base, Quiescence.SubmittedIn(c, run), retired);
    forall t: TaskId | t < |Flat(chains)| && m.hist[t].place == Memory.Retired
      ensures m.cells[t].state == StateOf(Eval(Flat(chains), t))
    {
      BakingKeepsResults(chains, links, base, t);
    }
  }
}
