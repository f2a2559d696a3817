/** Whole-run theorems: conservation, dependency order, handles, and results that no schedule can change. */
module Results {
  import opened Tasks
  import opened Memory
  import opened Protocol
  import opened ProtocolInvariant
  import ProtocolProof

  // ----- conservation -----

  /** Some step of the run submits `t`. */
  ghost predicate Submitted(run: seq<Step>, t: TaskId) {
    exists i :: 0 <= i < |run| && run[i].SubmitSend? && run[i].t == t
  }

  lemma OutsideHist(c: Config, s: State, step: Step)
    requires Shape(c, s) && !step.Dispatch? && !step.Work?
    ensures
      var m' := OutsideStep(c, s, step).mem;
      m'.hist == if step.SubmitSend? && step.t < |c.tasks| && s.mem.hist[step.t].place == Outside
                 then Move(s.mem, step.t, Channel).hist
                 else s.mem.hist
  {
  }

  /** Only a submission brings a task in, and nothing takes it out. */
  lemma StepSubmits(c: Config, s: State, step: Step, t: TaskId)
    requires Inv(c, s) && t < |c.tasks|
    ensures
      (Apply(c, s, step).mem.hist[t].place != Outside
       <==> s.mem.hist[t].place != Outside || (step.SubmitSend? && step.t == t))
  {
    ProtocolProof.StepInv(c, s, step);
    if !step.Dispatch? && !step.Work? {
      OutsideHist(c, s, step);
    }
  }

  lemma {:induction false} SubmittedInside(c: Config, run: seq<Step>, t: TaskId)
    requires ValidConfig(c) && t < |c.tasks|
    ensures Submitted(run, t) <==> Exec(c, run).mem.hist[t].place != Outside
  {
    if run != [] {
      var before := run[..|run| - 1];
      ExecLast(c, run);
      SubmittedInside(c, before, t);
      ProtocolProof.RunInv(c, before);
      StepSubmits(c, Exec(c, before), run[|run| - 1], t);
      assert run == before + [run[|run| - 1]];
    }
  }

  /** `t` is once in the list of its home and in no other list, and what has been fired for it fits. */
  ghost predicate At(c: Config, s: State, t: TaskId, home: Place)
    requires Shape(c, s) && t < |c.tasks|
  {
    var h := s.mem.hist[t];
    && IsPlace(c, home)
    && (forall p: Place :: IsPlace(c, p) && p != Outside ==>
          multiset(Contents(s, p))[t] == if p == home then 1 else 0)
    && h.fired <= c.tasks[t].semaphores && h.ownWakes <= 1 && h.queueWakes <= 1
    && (home == Retired ==> h.fired == c.tasks[t].semaphores && h.ownWakes == h.queueWakes == 1)
    && (home != Retired && home != Held && !home.Futures? ==> h.fired == [] && h.ownWakes == h.queueWakes == 0)
  }

  /**
   * Conservation: a submitted task is in exactly one of the lists of the program, once; any other is in none. A
   * task that has retired has signalled each of its semaphores once, in order, and woken both its signals once.
   */
  lemma Conservation(c: Config, run: seq<Step>, t: TaskId)
    requires ValidConfig(c) && t < |c.tasks|
    ensures
      var s := Exec(c, run);
      exists home: Place :: At(c, s, t, home) && (home == Outside <==> !Submitted(run, t))
  {
    var s := Exec(c, run);
    ProtocolProof.RunInv(c, run);
    SubmittedInside(c, run, t);
    assert TaskOk(c, s.mem, t);
    var home := s.mem.hist[t].place;
    forall p: Place | IsPlace(c, p) && p != Outside
      ensures multiset(Contents(s, p))[t] == if p == home then 1 else 0
    {
      assert Exact(c, s, p);
      Once(Contents(s, p), t);
    }
    assert At(c, s, t, home);
  }

  lemma {:induction false} Once(s: seq<TaskId>, t: TaskId)
    requires NoDup(s)
    ensures multiset(s)[t] == if t in s then 1 else 0
  {
    if s != [] {
      var rest := s[..|s| - 1];
      assert s == rest + [s[|s| - 1]];
      Once(rest, t);
      assert multiset(s) == multiset(rest) + multiset{s[|s| - 1]};
    }
  }

  // ----- dependencies -----

  /**
   * Dependency safety: the function of a task has been called only if each semaphore it waits for has been
   * signalled by a task that carries it and whose state is settled, and the predecessor's state is settled.
   */
  lemma DependencySafety(c: Config, run: seq<Step>, t: TaskId)
    requires ValidConfig(c) && t < |c.tasks|
    requires Exec(c, run).mem.hist[t].calls != []
    ensures
      var m := Exec(c, run).mem;
      && (forall i :: 0 <= i < |c.tasks[t].wait| ==>
            var x := c.tasks[t].wait[i];
            && x in m.sems && m.sems[x] < |c.tasks|
            && x in c.tasks[m.sems[x]].semaphores
            && Done(m.hist[m.sems[x]].stage) && m.cells[m.sems[x]].state != Pending)
      && (HasPred(c.tasks[t]) ==>
            var p := c.tasks[t].body.pred;
            Done(m.hist[p].stage) && m.cells[p].state != Pending)
      && |m.hist[t].calls| == 1
  {
    var m := Exec(c, run).mem;
    ProtocolProof.RunInv(c, run);
    assert TaskOk(c, m, t);
    forall i | 0 <= i < |c.tasks[t].wait|
      ensures
        var x := c.tasks[t].wait[i];
        && x in m.sems && m.sems[x] < |c.tasks|
        && x in c.tasks[m.sems[x]].semaphores
        && Done(m.hist[m.sems[x]].stage) && m.cells[m.sems[x]].state != Pending
    {
      var x := c.tasks[t].wait[i];
      assert TaskOk(c, m, m.sems[x]);
    }
    if HasPred(c.tasks[t]) {
      assert TaskOk(c, m, c.tasks[t].body.pred);
    }
  }

  /**
   * Semaphores, in every run: one is open exactly if some task that carries it has signalled it, the first that does
   * being enough, and it stays open.
   */
  lemma OpenWithFirst(c: Config, run: seq<Step>, more: seq<Step>, x: SemId)
    requires ValidConfig(c)
    ensures
      var m := Exec(c, run).mem;
      x in m.sems <==> exists t: TaskId :: t < |c.tasks| && x in m.hist[t].fired && x in c.tasks[t].semaphores
    ensures x in Exec(c, run).mem.sems ==> x in Exec(c, run + more).mem.sems
  {
    var m := Exec(c, run).mem;
    ProtocolProof.RunInv(c, run);
    if x in m.sems {
      assert TaskOk(c, m, m.sems[x]);
      StaysOpen(c, run, more, x);
    }
    if t: TaskId :| t < |c.tasks| && x in m.hist[t].fired && x in c.tasks[t].semaphores {
      assert TaskOk(c, m, t);
    }
  }

  lemma {:induction false} StaysOpen(c: Config, run: seq<Step>, more: seq<Step>, x: SemId)
    requires ValidConfig(c) && x in Exec(c, run).mem.sems
    ensures x in Exec(c, run + more).mem.sems
    decreases |more|
  {
    if more == [] {
      assert run + [] == run;
    } else {
      var before, step := more[..|more| - 1], more[|more| - 1];
      StaysOpen(c, run, before, x);
      ProtocolProof.RunInv(c, run + before);
      ProtocolProof.StepInv(c, Exec(c, run + before), step);
      ExecNext(c, run + before, step);
      LastOf(run, more);
    }
  }

  lemma LastOf(run: seq<Step>, more: seq<Step>)
    requires more != []
    ensures run + more == run + more[..|more| - 1] + [more[|more| - 1]]
  {
  }

  // ----- handles -----

  /**
   * A handle never observes an unfinished task, whatever is cancelled: no `wait` has failed, and one that could
   * return now would find a final state, with a value if it is Ready.
   */
  lemma HandlesAreSafe(c: Config, run: seq<Step>, t: TaskId)
    requires ValidConfig(c) && t < |c.tasks|
    ensures
      var m := Exec(c, run).mem;
      && !m.broken
      && (m.cells[t].signal || m.cells[t].handle.Woken? ==> m.cells[t].state != Pending)
      && (m.cells[t].state == Ready && (m.cells[t].handle.Unwaited? || m.cells[t].handle.Woken?) ==> m.cells[t].buffer.Some?)
      && (m.cells[t].handle.SawReady? ==> m.cells[t].buffer.Some?)
  {
    ProtocolProof.RunInv(c, run);
    assert TaskOk(c, Exec(c, run).mem, t);
  }

  // ----- results -----

  ghost function ValueOf(out: Outcome): Option<Value> {
    match out
    case Yields(v) => Some(v)
    case Panics => None
  }

  ghost function ResultOf(out: Outcome): TaskResult {
    match out
    case Yields(v) => Returned(v)
    case Panics => PanickedResult
  }

  /**
   * Schedule independence: in every run a task that has retired, or whose handle has been answered, has the result
   * of the sequential fold over its chain, unless the task or one it continues was cancelled from outside. Its
   * function was called with the folded value of its predecessor, or, if that panics, never.
   */
  lemma ScheduleIndependence(c: Config, run: seq<Step>, t: TaskId)
    requires ValidConfig(c) && t < |c.tasks|
    ensures
      var m := Exec(c, run).mem;
      var tainted := Tainted(c.tasks, m.cancelled, t);
      && (Done(m.hist[t].stage) ==>
            m.cells[t].state == StateOf(Eval(c.tasks, t)) || (m.cells[t].state == Cancelled && tainted))
      && (m.cells[t].handle.Finished? ==>
            m.cells[t].handle.result == ResultOf(Eval(c.tasks, t))
            || (m.cells[t].handle.result == CancelledResult && tainted))
      && (m.hist[t].calls != [] ==>
            m.hist[t].calls ==
            [match c.tasks[t].body
             case Root(_) => None
             case Continuation(p, _) => ValueOf(Eval(c.tasks, p))])
      && (HasPred(c.tasks[t]) && Eval(c.tasks, c.tasks[t].body.pred).Panics? ==> m.hist[t].calls == [])
  {
    ProtocolProof.RunInv(c, run);
    assert TaskOk(c, Exec(c, run).mem, t);
  }

  ghost predicate CancelFree(run: seq<Step>) {
    forall i :: 0 <= i < |run| ==> !run[i].Cancel?
  }

  lemma CancelsStay(c: Config, s: State, step: Step)
    requires Shape(c, s) && !step.Dispatch? && !step.Work? && !step.Cancel?
    ensures OutsideStep(c, s, step).mem.cancelled == s.mem.cancelled
    ensures OutsideStep(c, s, step).d.unseen == s.d.unseen
  {
  }

  lemma DispatchSeesMore(c: Config, s: State)
    requires Shape(c, s)
    ensures DispatchStep(c, s).d.unseen <= s.d.unseen
  {
  }

  lemma StepCancels(c: Config, s: State, step: Step)
    requires Inv(c, s) && !step.Cancel?
    ensures Apply(c, s, step).mem.cancelled == s.mem.cancelled && Apply(c, s, step).d.unseen <= s.d.unseen
  {
    if step.Dispatch? {
      ProtocolProof.StepInv(c, s, step);
      DispatchSeesMore(c, s);
    } else if step.Work? {
      ProtocolProof.StepInv(c, s, step);
    } else {
      CancelsStay(c, s, step);
    }
  }

  lemma {:induction false} NoneCancelled(c: Config, run: seq<Step>)
    requires ValidConfig(c) && CancelFree(run)
    ensures Exec(c, run).mem.cancelled == {} && Exec(c, run).d.unseen == {}
  {
    if run != [] {
      var before := run[..|run| - 1];
      ExecLast(c, run);
      NoneCancelled(c, before);
      ProtocolProof.RunInv(c, before);
      StepCancels(c, Exec(c, before), run[|run| - 1]);
    }
  }

  /** Without cancels, any two runs that retire a task leave it in the same state, whatever their schedules. */
  lemma SchedulesAgree(c: Config, run1: seq<Step>, run2: seq<Step>, t: TaskId)
    requires ValidConfig(c) && t < |c.tasks|
    requires CancelFree(run1) && CancelFree(run2)
    requires Exec(c, run1).mem.hist[t].place == Retired && Exec(c, run2).mem.hist[t].place == Retired
    ensures Exec(c, run1).mem.cells[t].state == Exec(c, run2).mem.cells[t].state == StateOf(Eval(c.tasks, t))
  {
    UntaintedIfNoneCancelled(c.tasks, t);
    NoneCancelled(c, run1);
    NoneCancelled(c, run2);
    ProtocolProof.RunInv(c, run1);
    ProtocolProof.RunInv(c, run2);
    assert TaskOk(c, Exec(c, run1).mem, t) && TaskOk(c, Exec(c, run2).mem, t);
    ScheduleIndependence(c, run1, t);
    ScheduleIndependence(c, run2, t);
  }
}
