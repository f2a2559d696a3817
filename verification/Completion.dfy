/** What is submitted gets done, under every fair schedule, as long as panics leave slots to do it. */
module Completion {
  import opened Tasks
  import opened Memory
  import opened Protocol
  import opened ProtocolInvariant
  import opened Progress
  import opened Baking
  import opened RawBuffer
  import opened BakeThenRun
  import opened Closure
  import opened Placement
  import opened Losses
  import Results
  import Quiescence
  import ProtocolProof
  import DispatcherProof
  import WorkerProof
  import WorkerWake

  // ----- what is asked of runs and schedules -----

  /** The threads that a task may run on, as submitted, have more slots together than there are bodies that panic. */
  ghost predicate RoomyStep(c: Config, step: Step)
    requires WellFormed(c.tasks)
  {
    step.SubmitSend? && step.t < |c.tasks| ==>
      |Breakers(c)| < c.workersPerThread * |Threads(c, WishOf(c, step), c.tasks[step.t].notOn)|
  }

  /** Nobody cancels a task or consumes its signal besides its handle, and what is submitted has room. */
  ghost predicate CalmStep(c: Config, step: Step)
    requires WellFormed(c.tasks)
  {
    !step.Cancel? && !step.Steal? && RoomyStep(c, step)
  }

  ghost predicate CalmRun(c: Config, run: seq<Step>)
    requires WellFormed(c.tasks)
  {
    forall i :: 0 <= i < |run| ==> CalmStep(c, run[i])
  }

  lemma CalmFits(c: Config, run: seq<Step>)
    requires WellFormed(c.tasks) && CalmRun(c, run)
    ensures FittingRun(c, run) && Results.CancelFree(run)
  {
    forall i | 0 <= i < |run| ensures FittingStep(c, run[i]) && !run[i].Cancel? {
      assert CalmStep(c, run[i]);
      if run[i].SubmitSend? && run[i].t < |c.tasks| {
        FitsSome(c, WishOf(c, run[i]), c.tasks[run[i].t].notOn);
        assert c.workersPerThread * 0 == 0;
      }
    }
  }

  /** Every body that is polled runs to its end. */
  predicate PromptStep(step: Step) {
    step.Work? ==> step.finish
  }

  ghost predicate PromptRun(run: seq<Step>) {
    forall i :: 0 <= i < |run| ==> PromptStep(run[i])
  }

  lemma {:induction false} RunStealsNone(c: Config, run: seq<Step>)
    requires ValidConfig(c) && CalmRun(c, run)
    ensures Exec(c, run).mem.stolen == {}
  {
    if run != [] {
      var before := run[..|run| - 1];
      ExecLast(c, run);
      RunStealsNone(c, before);
      assert CalmStep(c, run[|run| - 1]);
      StealsNone(c, Exec(c, before), run[|run| - 1]);
    }
  }

  lemma StealsNone(c: Config, s: State, step: Step)
    requires Shape(c, s) && !step.Steal?
    ensures Apply(c, s, step).mem.stolen == s.mem.stolen
  {
    if step.Dispatch? {
      DispatchStealsNone(c, s);
    } else if step.Work? {
      if step.w < |s.ws| {
        WorkerStealsNone(c, s.mem, step.w, s.ws[step.w], step.finish);
      }
    } else {
      OutsideStealsNone(c, s, step);
    }
  }

  lemma DispatchStealsNone(c: Config, s: State)
    requires Shape(c, s)
    ensures DispatchStep(c, s).mem.stolen == s.mem.stolen
  {
  }

  lemma WorkerStealsNone(c: Config, m: Mem, w: nat, me: Worker, finish: bool)
    requires MemShape(c, m) && WShape(c, me)
    ensures WorkerStep(c, m, w, me, finish).mem.stolen == m.stolen
  {
  }

  lemma OutsideStealsNone(c: Config, s: State, step: Step)
    requires Shape(c, s) && !step.Dispatch? && !step.Work? && !step.Steal?
    ensures OutsideStep(c, s, step).mem.stolen == s.mem.stolen
  {
  }

  // ----- futures that were called -----

  /** The future of `t` gave Pending, and was not called since its last poll began. */
  ghost predicate Uncalled(m: Mem, me: Worker, t: TaskId) {
    && t !in me.called
    && (t in me.kept || (t in me.todo && t < |m.hist| && m.hist[t].stage.Called?) || me.pc == WPending(t))
  }

  ghost predicate CalledWorker(m: Mem, me: Worker) {
    && (forall i :: 0 <= i < |me.kept| ==> me.kept[i] in me.called)
    && (forall i :: 0 <= i < |me.todo| && me.todo[i] < |m.hist| && m.hist[me.todo[i]].stage.Called? ==> me.todo[i] in me.called)
    && (me.pc.WPending? ==> me.pc.t in me.called)
  }

  lemma CalledIfNoneUncalled(m: Mem, me: Worker)
    ensures CalledWorker(m, me) <==> forall t :: !Uncalled(m, me, t)
  {
    if forall t :: !Uncalled(m, me, t) {
      forall i | 0 <= i < |me.kept| ensures me.kept[i] in me.called {
        assert !Uncalled(m, me, me.kept[i]);
      }
      forall i | 0 <= i < |me.todo| && me.todo[i] < |m.hist| && m.hist[me.todo[i]].stage.Called? ensures me.todo[i] in me.called {
        assert !Uncalled(m, me, me.todo[i]);
      }
      if me.pc.WPending? {
        assert !Uncalled(m, me, me.pc.t);
      }
    }
  }

  ghost predicate AllCalled(s: State) {
    forall w: nat :: w < |s.ws| ==> CalledWorker(s.mem, s.ws[w])
  }

  lemma TopCalled(c: Config, m: Mem, w: nat, me: Worker)
    requires WorkerProof.WPre(c, m, w, me) && me.pc.WTop? && CalledWorker(m, me)
    ensures var r := WTopStep(c, m, w, me); CalledWorker(r.mem, r.me)
  {
    if me.inbox != [] {
      assert TaskOk(c, m, me.inbox[0]);
    }
  }

  lemma NextCalled(c: Config, m: Mem, w: nat, me: Worker)
    requires WorkerProof.WPre(c, m, w, me) && me.pc.WNext? && CalledWorker(m, me)
    ensures var r := WNextStep(c, m, me); CalledWorker(r.mem, r.me)
  {
    if me.todo != [] {
      PickIsElsewhere(me);
    }
  }

  /** The future that is polled next is no other of the futures. */
  lemma PickIsElsewhere(me: Worker)
    requires NoDup(WList(me)) && me.pc.WNext? && me.todo != []
    ensures forall i :: 0 <= i < |me.kept| ==> me.kept[i] != me.todo[0]
    ensures forall i :: 0 < i < |me.todo| ==> me.todo[i] != me.todo[0]
  {
    var l := WList(me);
    assert l[|me.kept|] == me.todo[0];
    assert forall i :: 0 <= i < |me.kept| ==> l[i] == me.kept[i];
    assert forall i :: 0 <= i < |me.todo| ==> l[|me.kept| + i] == me.todo[i];
  }

  lemma HandCalled(c: Config, m: Mem, w: nat, me: Worker)
    requires WorkerProof.WPre(c, m, w, me) && WHolds(me.pc) && CalledWorker(m, me)
    ensures var r := WorkerStep(c, m, w, me, true); CalledWorker(r.mem, r.me)
  {
    var r := WorkerStep(c, m, w, me, true);
    var l := WList(me);
    assert l[|me.kept|] == me.pc.t;
    assert forall i :: 0 <= i < |me.todo| ==> l[|l| - |me.todo| + i] == me.todo[i];
    HandKeepsLists(c, m, w, me);
    HandTouches(c, m, w, me);
  }

  lemma HandKeepsLists(c: Config, m: Mem, w: nat, me: Worker)
    requires MemShape(c, m) && WShape(c, me) && WHolds(me.pc)
    ensures
      var r := WorkerStep(c, m, w, me, true);
      && r.me.todo == me.todo && r.me.called == me.called && !r.me.pc.WPending?
      && r.me.kept == (if me.pc.WPending? && m.cells[me.pc.t].state != Cancelled then me.kept + [me.pc.t] else me.kept)
  {
  }

  lemma HandTouches(c: Config, m: Mem, w: nat, me: Worker)
    requires MemShape(c, m) && WShape(c, me) && WHolds(me.pc)
    ensures
      var m' := WorkerStep(c, m, w, me, true).mem;
      |m'.hist| == |m.hist| && forall x: nat :: x < |c.tasks| && x != me.pc.t ==> m'.hist[x] == m.hist[x]
  {
  }

  /** What a worker holds was left alone by the steps of others. */
  lemma OthersCalled(c: Config, s: State, m': Mem, me: Worker, w: nat)
    requires Inv(c, s) && w < |s.ws| && CalledWorker(s.mem, s.ws[w]) && MemShape(c, m')
    requires me.kept == s.ws[w].kept && me.todo == s.ws[w].todo && me.pc == s.ws[w].pc && s.ws[w].called <= me.called
    requires forall x: nat :: x < |c.tasks| && s.mem.hist[x].place == Futures(w) ==> m'.hist[x] == s.mem.hist[x]
    ensures CalledWorker(m', me)
  {
    ProtocolProof.FuturesAt(c, s, w);
    var l := WList(s.ws[w]);
    assert forall i :: 0 <= i < |me.todo| ==> l[|l| - |me.todo| + i] == me.todo[i];
  }

  lemma WorkCalled(c: Config, s: State, w: nat)
    requires Inv(c, s) && AllCalled(s) && w < |s.ws|
    ensures AllCalled(WorkStep(c, s, w, true))
  {
    var s' := WorkStep(c, s, w, true);
    var me := s.ws[w];
    ProtocolProof.FuturesAt(c, s, w);
    WorkerProof.WorkerSound(c, s.mem, w, me, true);
    if WHolds(me.pc) {
      HandCalled(c, s.mem, w, me);
    } else if me.pc.WTop? {
      TopCalled(c, s.mem, w, me);
    } else if me.pc.WNext? {
      NextCalled(c, s.mem, w, me);
    } else {
      assert s'.mem == s.mem && (s'.ws[w] == me || s'.ws[w].todo == me.kept);
    }
    forall v: nat | v < |s'.ws| ensures CalledWorker(s'.mem, s'.ws[v]) {
      if v != w {
        assert CalledWorker(s.mem, s.ws[v]);
        OthersCalled(c, s, s'.mem, s'.ws[v], v);
      }
    }
  }

  lemma DispatchCalled(c: Config, s: State)
    requires Inv(c, s) && AllCalled(s)
    ensures AllCalled(DispatchStep(c, s))
  {
    var s' := DispatchStep(c, s);
    ProtocolProof.HeldAt(c, s);
    DispatcherProof.DispatcherSound(c, s);
    DispatchCallsNone(c, s);
    forall v: nat | v < |s'.ws| ensures CalledWorker(s'.mem, s'.ws[v]) {
      assert CalledWorker(s.mem, s.ws[v]);
      OthersCalled(c, s, s'.mem, s'.ws[v], v);
    }
  }

  lemma DispatchCallsNone(c: Config, s: State)
    requires Shape(c, s)
    ensures |DispatchStep(c, s).ws| == |s.ws|
    ensures forall v: nat :: v < |s.ws| ==> DispatchStep(c, s).ws[v].called == s.ws[v].called
  {
  }

  lemma OutsideCalled(c: Config, s: State, step: Step)
    requires Inv(c, s) && AllCalled(s) && !step.Dispatch? && !step.Work?
    ensures AllCalled(OutsideStep(c, s, step))
  {
    var s' := OutsideStep(c, s, step);
    Results.OutsideHist(c, s, step);
    OutsideCallsMore(c, s, step);
    forall v: nat | v < |s'.ws| ensures CalledWorker(s'.mem, s'.ws[v]) {
      assert CalledWorker(s.mem, s.ws[v]);
      OthersCalled(c, s, s'.mem, s'.ws[v], v);
    }
  }

  lemma OutsideCallsMore(c: Config, s: State, step: Step)
    requires Shape(c, s) && !step.Dispatch? && !step.Work?
    ensures
      var ws := OutsideStep(c, s, step).ws;
      && |ws| == |s.ws|
      && (forall v: nat :: v < |s.ws| ==>
            && ws[v].kept == s.ws[v].kept && ws[v].todo == s.ws[v].todo && ws[v].pc == s.ws[v].pc
            && s.ws[v].called <= ws[v].called)
  {
  }

  lemma StepCalled(c: Config, s: State, step: Step)
    requires Inv(c, s) && AllCalled(s) && PromptStep(step)
    ensures AllCalled(Apply(c, s, step))
  {
    if step.Dispatch? {
      DispatchCalled(c, s);
    } else if step.Work? {
      if step.w < |s.ws| {
        WorkCalled(c, s, step.w);
      }
    } else {
      OutsideCalled(c, s, step);
    }
  }

  /** In a run in which every poll runs to its end, no future ever waits to be called. */
  lemma {:induction false} PromptIsCalled(c: Config, run: seq<Step>)
    requires ValidConfig(c) && PromptRun(run)
    ensures AllCalled(Exec(c, run))
  {
    if run != [] {
      var before := run[..|run| - 1];
      ExecLast(c, run);
      PromptIsCalled(c, before);
      ProtocolProof.RunInv(c, before);
      assert PromptStep(run[|run| - 1]);
      StepCalled(c, Exec(c, before), run[|run| - 1]);
    }
  }

  // ----- a worker waits only over futures -----

  ghost predicate WaitsFor(me: Worker) {
    me.pc.WWait? ==> me.kept != []
  }

  lemma WorkerWaitsFor(c: Config, m: Mem, w: nat, me: Worker, finish: bool)
    requires MemShape(c, m) && WShape(c, me) && WaitsFor(me)
    ensures WaitsFor(WorkerStep(c, m, w, me, finish).me)
  {
  }

  lemma OthersKeepWaiting(c: Config, s: State, step: Step, w: nat)
    requires Shape(c, s) && !step.Work? && w < |s.ws|
    ensures Apply(c, s, step).ws[w].pc == s.ws[w].pc && Apply(c, s, step).ws[w].kept == s.ws[w].kept
  {
    if step.Dispatch? {
      DispatchKeepsWaiting(c, s, w);
    } else {
      OutsideCallsMore(c, s, step);
    }
  }

  lemma DispatchKeepsWaiting(c: Config, s: State, w: nat)
    requires Shape(c, s) && w < |s.ws|
    ensures DispatchStep(c, s).ws[w].pc == s.ws[w].pc && DispatchStep(c, s).ws[w].kept == s.ws[w].kept
  {
  }

  lemma {:induction false} RunWaitsFor(c: Config, run: seq<Step>, w: nat)
    requires ValidConfig(c) && w < |c.labels|
    ensures WaitsFor(Exec(c, run).ws[w])
  {
    if run != [] {
      var before, step := run[..|run| - 1], run[|run| - 1];
      var s := Exec(c, before);
      ExecLast(c, run);
      RunWaitsFor(c, before, w);
      if step.Work? {
        if step.w == w {
          WorkerWaitsFor(c, s.mem, w, s.ws[w], step.finish);
        }
      } else {
        OthersKeepWaiting(c, s, step, w);
      }
    }
  }

  ghost predicate WaitsOver(d: Dispatcher) {
    d.pc.DWait? ==> d.kept != []
  }

  lemma DispatchWaitsOver(c: Config, s: State)
    requires Shape(c, s) && WaitsOver(s.d)
    ensures WaitsOver(DispatchStep(c, s).d)
  {
  }

  lemma OthersLeaveWait(c: Config, s: State, step: Step)
    requires Shape(c, s) && !step.Dispatch?
    ensures Apply(c, s, step).d.pc == s.d.pc && Apply(c, s, step).d.kept == s.d.kept
  {
  }

  /**
   * In every run a thread waits for its signal only over tasks: the dispatcher over such as it has kept, a worker over futures
   * that gave Pending. Without any it waits for its channel, and goes on as soon as something is sent, woken or not.
   */
  lemma ThreadsWaitOverTasks(c: Config, run: seq<Step>, w: nat)
    requires ValidConfig(c) && w < |c.labels|
    ensures Exec(c, run).d.pc.DWait? ==> Exec(c, run).d.kept != []
    ensures Exec(c, run).ws[w].pc.WWait? ==> Exec(c, run).ws[w].kept != []
  {
    var holds := (s: State) => WaitsOver(s.d);
    forall s: State, step: Step | Inv(c, s) && holds(s) ensures holds(Apply(c, s, step)) {
      if step.Dispatch? {
        DispatchWaitsOver(c, s);
      } else {
        OthersLeaveWait(c, s, step);
      }
    }
    assert Exec(c, []) == Init(c) && [] + run == run;
    ProtocolProof.KeptOnwards(c, [], run, holds);
    RunWaitsFor(c, run, w);
  }

  // ----- completion -----

  /** Once everybody has woken the queue who submitted something, a calm run that stands still has come to rest. */
  lemma {:induction false} CalmRests(c: Config, run: seq<Step>)
    requires ValidConfig(c) && CalmRun(c, run) && Exec(c, run).d.owing == {} && Stuck(c, Exec(c, run))
    requires forall w: nat :: w < |c.labels| ==> !Exec(c, run).ws[w].pc.WWait?
    ensures Results.CancelFree(run) && Quiescence.AtRest(c, Exec(c, run)) && Quiescence.NoneStarved(c, Exec(c, run))
  {
    CalmFits(c, run);
    RunStealsNone(c, run);
    NeverRelaxed(c, run);
    var s := Exec(c, run);
    forall t: TaskId | t < |c.tasks| ensures !Quiescence.Starved(c, s, t) {
      if t in s.d.kept {
        Quiescence.KeptIsSubmitted(c, run, t);
        Results.SubmittedInside(c, run, t);
        WishesStay(c, run, t);
        var i :| 0 <= i < |run| && run[i].SubmitSend? && run[i].t == t && s.mem.cells[t].preferred == WishOf(c, run[i]);
        assert CalmStep(c, run[i]);
        Quiescence.NotStarved(c, run, t);
      }
    }
  }

  /** Nobody submits or cancels anything in this step, or consumes the signal of a task besides its handle. */
  predicate AddsNothing(step: Step) {
    !step.SubmitSend? && !step.SubmitWake? && !step.Cancel? && !step.Steal?
  }

  /** What such a step leaves as it is. */
  lemma OneMoreAdds(c: Config, run: seq<Step>, step: Step)
    requires ValidConfig(c) && AddsNothing(step)
    ensures SameDemands(c, run, run + [step])
  {
    ExecNext(c, run, step);
    KeepsOwing(c, Exec(c, run), step);
    SameSubmitted(c, run, step);
  }

  lemma KeepsOwing(c: Config, s: State, step: Step)
    requires Shape(c, s) && AddsNothing(step)
    ensures Apply(c, s, step).d.owing == s.d.owing
  {
    if step.Dispatch? {
      DispatchKeepsOwing(c, s);
    }
  }

  lemma DispatchKeepsOwing(c: Config, s: State)
    requires Shape(c, s)
    ensures DispatchStep(c, s).d.owing == s.d.owing
  {
  }

  lemma SameSubmitted(c: Config, run: seq<Step>, step: Step)
    requires AddsNothing(step)
    ensures Quiescence.SubmittedIn(c, run + [step]) == Quiescence.SubmittedIn(c, run)
  {
    forall t: TaskId ensures Results.Submitted(run + [step], t) <==> Results.Submitted(run, t) {
      if Results.Submitted(run, t) {
        var i :| 0 <= i < |run| && run[i].SubmitSend? && run[i].t == t;
        assert (run + [step])[i] == run[i];
      }
    }
  }

  /** `last` asks of the queue what `run` does, and nobody owes it more. */
  ghost predicate SameDemands(c: Config, run: seq<Step>, last: seq<Step>)
    requires ValidConfig(c)
  {
    && Exec(c, last).d.owing == Exec(c, run).d.owing
    && (CalmRun(c, run) ==> CalmRun(c, last))
    && Quiescence.SubmittedIn(c, last) == Quiescence.SubmittedIn(c, run)
  }

  lemma SameDemandsOn(c: Config, run: seq<Step>, next: seq<Step>, last: seq<Step>)
    requires ValidConfig(c) && SameDemands(c, run, next) && SameDemands(c, next, last)
    ensures SameDemands(c, run, last)
  {
  }

  /** What holds of a run, and is kept by every step of a schedule, holds for as long as the schedule is followed. */
  lemma {:induction false} FollowKeeps(holds: seq<Step> -> bool, run: seq<Step>, schedule: nat -> Step, from: nat, k: nat)
    requires holds(run)
    requires forall i: nat, r: seq<Step> :: holds(r) ==> holds(r + [schedule(i)])
    ensures holds(Follow(run, schedule, from, k))
    decreases k
  {
    if k > 0 {
      FollowKeeps(holds, run + [schedule(from)], schedule, from + 1, k - 1);
    }
  }

  lemma FollowAdds(c: Config, run: seq<Step>, schedule: nat -> Step, from: nat, k: nat)
    requires ValidConfig(c) && forall i: nat :: AddsNothing(schedule(i))
    ensures SameDemands(c, run, Follow(run, schedule, from, k))
  {
    var holds := (r: seq<Step>) => SameDemands(c, run, r);
    forall i: nat, r: seq<Step> | holds(r) ensures holds(r + [schedule(i)]) {
      OneMoreAdds(c, r, schedule(i));
      SameDemandsOn(c, run, r, r + [schedule(i)]);
    }
    FollowKeeps(holds, run, schedule, from, k);
  }

  lemma OneMoreCalled(c: Config, run: seq<Step>, step: Step)
    requires ValidConfig(c) && PromptStep(step) && AllCalled(Exec(c, run))
    ensures AllCalled(Exec(c, run + [step]))
  {
    ExecNext(c, run, step);
    ProtocolProof.RunInv(c, run);
    StepCalled(c, Exec(c, run), step);
  }

  lemma FollowCalls(c: Config, run: seq<Step>, schedule: nat -> Step, from: nat, k: nat)
    requires ValidConfig(c) && AllCalled(Exec(c, run)) && forall i: nat :: PromptStep(schedule(i))
    ensures AllCalled(Exec(c, Follow(run, schedule, from, k)))
  {
    var holds := (r: seq<Step>) => AllCalled(Exec(c, r));
    forall i: nat, r: seq<Step> | holds(r) ensures holds(r + [schedule(i)]) {
      OneMoreCalled(c, r, schedule(i));
    }
    FollowKeeps(holds, run, schedule, from, k);
  }

  /** A schedule without its first `n` steps. */
  lemma {:induction false} FollowLate(run: seq<Step>, schedule: nat -> Step, late: nat -> Step, n: nat, from: nat, k: nat)
    requires forall i: nat :: late(i) == schedule(n + i)
    ensures Follow(run, late, from, k) == Follow(run, schedule, n + from, k)
    decreases k
  {
    if k > 0 {
      assert late(from) == schedule(n + from);
      FollowLate(run + [late(from)], schedule, late, n, from + 1, k - 1);
    }
  }

  /** The threads stand still at `r`, with exactly the tasks retired that can get done, each with its folded result. */
  ghost predicate Complete(c: Config, given: set<TaskId>, r: State, retired: set<TaskId>)
    requires Shape(c, r)
  {
    && Quiescence.AtRest(c, r) && Quiescence.NoneStarved(c, r)
    && Least(c.tasks, given, retired)
    && (forall t: TaskId :: t < |c.tasks| ==> (t in retired <==> r.mem.hist[t].place == Retired))
    && (forall t: TaskId :: t in retired ==> t < |c.tasks| && r.mem.cells[t].state == StateOf(Eval(c.tasks, t)))
  }

  /** The worker waits over futures, its flag is down, and none of them was called since its last poll. */
  ghost predicate Sleeps(me: Worker) {
    me.pc.WWait? && !me.flag && me.kept != [] && forall i :: 0 <= i < |WList(me)| ==> WList(me)[i] !in me.called
  }

  lemma WaitsForFlag(c: Config, s: State, w: nat)
    requires Shape(c, s) && w < |s.ws| && s.ws[w].pc.WWait? && Unmoved(c, s, Work(w, true))
    ensures !s.ws[w].flag
  {
    assert WorkStep(c, s, w, true).ws[w] == WorkerStep(c, s.mem, w, s.ws[w], true).me;
  }

  lemma WaitingSleeps(c: Config, run: seq<Step>, r: State, w: nat)
    requires ValidConfig(c) && r == Exec(c, run) && Stuck(c, r) && w < |r.ws| && r.ws[w].pc.WWait?
    ensures Sleeps(r.ws[w])
  {
    assert Unmoved(c, r, Work(w, true));
    WaitsForFlag(c, r, w);
    RunWaitsFor(c, run, w);
    WorkerWake.NoLostWorkerWakeUp(c, run, w);
  }

  lemma CalledNeverSleeps(m: Mem, me: Worker)
    requires CalledWorker(m, me)
    ensures !Sleeps(me)
  {
    if me.kept != [] {
      assert WList(me)[0] == me.kept[0];
    }
  }

  /**
   * Completion: after any calm run every fair schedule of the threads, whatever its polls give, comes to a standstill
   * for good. There exactly those submitted tasks are retired whose dependencies can be met, each with the result of
   * the sequential fold, unless some worker still sleeps over a future that gave Pending and was not called since.
   */
  lemma RunsToCompletion(c: Config, run: seq<Step>, schedule: nat -> Step, from: nat)
    returns (k: nat, r: State, retired: set<TaskId>)
    requires ValidConfig(c) && CalmRun(c, run) && Exec(c, run).d.owing == {} && Fair(c, schedule)
    ensures Still(c, run, schedule, from, k, r) && Shape(c, r) && Stuck(c, r)
    ensures
      || Complete(c, Quiescence.SubmittedIn(c, run), r, retired)
      || exists w: nat :: w < |r.ws| && Sleeps(r.ws[w])
  {
    k, r := ComesToRest(c, run, schedule, from);
    var last := Follow(run, schedule, from, k);
    FollowAdds(c, run, schedule, from, k);
    assert r == Exec(c, last);
    if w: nat :| w < |r.ws| && r.ws[w].pc.WWait? {
      retired := {};
      WaitingSleeps(c, last, r, w);
    } else {
      CalmRests(c, last);
      retired := Quiescence.RestIsComplete(c, last);
    }
  }

  /**
   * There is no exception once every future that gave Pending has been called, in whatever run that was, if from then on
   * bodies run to their end when they are polled.
   */
  lemma {:induction false} CalledRunsToCompletion(c: Config, run: seq<Step>, schedule: nat -> Step, from: nat)
    returns (k: nat, r: State, retired: set<TaskId>)
    requires ValidConfig(c) && CalmRun(c, run) && Exec(c, run).d.owing == {} && Fair(c, schedule)
    requires AllCalled(Exec(c, run)) && forall i: nat :: PromptStep(schedule(i))
    ensures Still(c, run, schedule, from, k, r) && Shape(c, r)
    ensures Complete(c, Quiescence.SubmittedIn(c, run), r, retired)
  {
    k, r, retired := RunsToCompletion(c, run, schedule, from);
    FollowCalls(c, run, schedule, from, k);
    assert r == Exec(c, Follow(run, schedule, from, k));
    forall w: nat | w < |r.ws| ensures !Sleeps(r.ws[w]) {
      CalledNeverSleeps(r.mem, r.ws[w]);
    }
  }

  // ----- schedules in which futures give Pending and are called -----

  ghost predicate CalledAfter(schedule: nat -> Step, w: nat, t: TaskId, i: nat) {
    exists j: nat :: j >= i && schedule(j) == CallWaker(w, t)
  }

  /** Whoever a future that gave Pending waits for calls it in the end. */
  ghost predicate Answered(c: Config, run: seq<Step>, schedule: nat -> Step)
    requires ValidConfig(c)
  {
    forall i: nat, w: nat, t: TaskId ::
      w < |c.labels| && Uncalled(Exec(c, Follow(run, schedule, 0, i)).mem, Exec(c, Follow(run, schedule, 0, i)).ws[w], t)
      ==> CalledAfter(schedule, w, t, i)
  }

  /** From step `n` on only threads move, and every poll runs to its end. */
  ghost predicate SettlesAt(schedule: nat -> Step, n: nat) {
    forall i: nat :: i >= n ==> Internal(schedule(i)) && PromptStep(schedule(i))
  }

  lemma NotCalledLater(schedule: nat -> Step, w: nat, t: TaskId, n: nat)
    requires SettlesAt(schedule, n)
    ensures !CalledAfter(schedule, w, t, n)
  {
  }

  lemma AnsweredAreCalled(c: Config, run: seq<Step>, schedule: nat -> Step, n: nat)
    requires ValidConfig(c) && Answered(c, run, schedule) && SettlesAt(schedule, n)
    ensures AllCalled(Exec(c, Follow(run, schedule, 0, n)))
  {
    var s := Exec(c, Follow(run, schedule, 0, n));
    forall w: nat | w < |s.ws| ensures CalledWorker(s.mem, s.ws[w]) {
      forall t ensures !Uncalled(s.mem, s.ws[w], t) {
        NotCalledLater(schedule, w, t, n);
      }
      CalledIfNoneUncalled(s.mem, s.ws[w]);
    }
  }

  lemma LateIsFair(c: Config, schedule: nat -> Step, n: nat) returns (late: nat -> Step)
    requires Turns(c, schedule) && SettlesAt(schedule, n)
    ensures Fair(c, late) && forall i: nat :: late(i) == schedule(n + i) && PromptStep(late(i))
  {
    late := (i: nat) => schedule(n + i);
    forall i: nat ensures DispatchesAfter(late, i) {
      assert DispatchesAfter(schedule, n + i);
      var j: nat :| j >= n + i && schedule(j).Dispatch?;
      assert late(j - n).Dispatch?;
    }
    forall i: nat, w: nat | w < |c.labels| ensures WorksAfter(late, w, i) {
      assert WorksAfter(schedule, w, n + i);
      var j: nat :| j >= n + i && schedule(j).Work? && schedule(j).w == w;
      assert late(j - n).Work? && late(j - n).w == w;
    }
  }

  lemma LateIsStill(c: Config, run: seq<Step>, schedule: nat -> Step, late: nat -> Step, n: nat, k: nat, r: State)
    requires ValidConfig(c) && Still(c, run, late, 0, k, r) && forall i: nat :: late(i) == schedule(n + i)
    ensures Still(c, run, schedule, n, k, r)
  {
    forall j: nat | j >= k ensures Exec(c, Follow(run, schedule, n, j)) == r {
      FollowLate(run, schedule, late, n, 0, j);
      assert Exec(c, Follow(run, late, 0, j)) == r;
    }
  }

  lemma FollowSettles(c: Config, run: seq<Step>, schedule: nat -> Step, n: nat) returns (settled: seq<Step>)
    requires ValidConfig(c) && SettlesAt(schedule, n) && Answered(c, run, schedule)
    requires forall i: nat :: AddsNothing(schedule(i))
    ensures settled == Follow(run, schedule, 0, n) && AllCalled(Exec(c, settled)) && SameDemands(c, run, settled)
  {
    settled := Follow(run, schedule, 0, n);
    FollowAdds(c, run, schedule, 0, n);
    AnsweredAreCalled(c, run, schedule, n);
  }

  lemma SettledRunsToCompletion(c: Config, run: seq<Step>, settled: seq<Step>, schedule: nat -> Step, n: nat)
    returns (k: nat, r: State, retired: set<TaskId>)
    requires ValidConfig(c) && CalmRun(c, settled) && Exec(c, settled).d.owing == {} && AllCalled(Exec(c, settled))
    requires Turns(c, schedule) && SettlesAt(schedule, n)
    requires settled == Follow(run, schedule, 0, n) && Quiescence.SubmittedIn(c, settled) == Quiescence.SubmittedIn(c, run)
    ensures Still(c, run, schedule, 0, k, r) && Shape(c, r)
    ensures Complete(c, Quiescence.SubmittedIn(c, run), r, retired)
  {
    var late := LateIsFair(c, schedule, n);
    k, r, retired := CalledRunsToCompletion(c, settled, late, 0);
    LateIsStill(c, settled, schedule, late, n, k, r);
    StillLater(c, run, schedule, 0, n, k, r);
    k := n + k;
  }

  /**
   * Futures may give Pending and be called while the threads work: as long as each is called in the end, and they give
   * Pending and are called finitely often, every schedule in which every thread gets its turn again and again comes to a
   * standstill for good, with exactly the submitted tasks retired whose dependencies can be met.
   */
  lemma {:induction false} AnsweredRunsToCompletion(c: Config, run: seq<Step>, schedule: nat -> Step, n: nat)
    returns (k: nat, r: State, retired: set<TaskId>)
    requires ValidConfig(c) && CalmRun(c, run) && Exec(c, run).d.owing == {}
    requires Turns(c, schedule) && SettlesAt(schedule, n) && forall i: nat :: AddsNothing(schedule(i))
    requires Answered(c, run, schedule)
    ensures Still(c, run, schedule, 0, k, r) && Shape(c, r)
    ensures Complete(c, Quiescence.SubmittedIn(c, run), r, retired)
  {
    var settled := FollowSettles(c, run, schedule, n);
    k, r, retired := SettledRunsToCompletion(c, run, settled, schedule, n);
  }

  /**
   * Bake, then run on the queue: a recording is submitted task by task, in any order and while the threads already work.
   * Every such schedule then completes every task if and only if nothing that was recorded is tangled up; and the
   * tasks that are retired are in the state that their chain of recorded functions computes.
   */
  lemma {:induction false} BakedRunsToCompletion(chains: seq<Chain>, links: seq<Link>, base: SemId,
                                                 labels: seq<Option<Label>>, workers: nat,
                                                 run: seq<Step>, schedule: nat -> Step, n: nat)
    returns (k: nat, r: State)
    requires Bakeable(chains, links)
    requires
      var c := Config(Baked(chains, links, base), labels, workers);
      && ValidConfig(c) && CalmRun(c, run) && Exec(c, run).d.owing == {}
      && Turns(c, schedule) && Answered(c, run, schedule)
    requires SettlesAt(schedule, n) && forall i: nat :: AddsNothing(schedule(i))
    requires forall t: TaskId :: t < |Flat(chains)| ==> Results.Submitted(run, t)
    ensures Still(Config(Baked(chains, links, base), labels, workers), run, schedule, 0, k, r)
    ensures WellFormed(Flat(chains)) && |r.mem.hist| == |r.mem.cells| == |Flat(chains)|
    ensures (forall t: TaskId :: t < |Flat(chains)| ==> r.mem.hist[t].place == Retired) <==> Untangled(chains, links)
    ensures forall t: TaskId :: t < |Flat(chains)| && r.mem.hist[t].place == Retired ==>
              r.mem.cells[t].state == StateOf(Eval(Flat(chains), t))
  {
    var c := Config(Baked(chains, links, base), labels, workers);
    BakedWellFormed(chains, links, base);
    var retired;
    k, r, retired := AnsweredRunsToCompletion(c, run, schedule, n);
    AllGetDone(chains, links, base, Quiescence.SubmittedIn(c, run), retired);
    forall t: TaskId | t < |Flat(chains)| && r.mem.hist[t].place == Retired
      ensures r.mem.cells[t].state == StateOf(Eval(Flat(chains), t))
    {
      BakingKeepsResults(chains, links, base, t);
    }
  }
}
