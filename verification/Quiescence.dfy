/** When the threads have nothing left to do, exactly the tasks that can get done have been retired. */
module Quiescence {
  import opened Tasks
  import opened Memory
  import opened MemoryProof
  import opened Protocol
  import opened ProtocolInvariant
  import opened Closure
  import opened Progress
  import opened Slots
  import opened QueueWake
  import Losses
  import Results
  import Placement
  import WorkerWake
  import ProtocolProof
  import WorkerProof

  // ----- nothing is retired that could not get done -----

  /** A thread has decided to run the task or to settle it. */
  ghost predicate Begun(h: History) {
    h.place.Inbox? || h.place.Futures? || h.place.Retired? || h.stage != Idle
  }

  ghost predicate BegunIn(c: Config, m: Mem, q: set<TaskId>)
    requires MemShape(c, m)
  {
    forall t: nat :: t < |c.tasks| && Begun(m.hist[t]) ==> t in q
  }

  ghost predicate InsideIn(c: Config, m: Mem, given: set<TaskId>)
    requires MemShape(c, m)
  {
    forall t: nat :: t < |c.tasks| && m.hist[t].place != Outside ==> t in given
  }

  /** Without cancels, a task that can execute depends on begun tasks only. */
  lemma ExecutableIsServed(c: Config, m: Mem, given: set<TaskId>, q: set<TaskId>, t: TaskId)
    requires MemOk(c, m) && m.cancelled == {} && t < |c.tasks|
    requires Closed(c.tasks, given, q) && BegunIn(c, m, q) && t in given
    requires CanExecute(c, m, t)
    ensures t in q
  {
    forall i | 0 <= i < |c.tasks[t].wait| ensures Signalled(c.tasks, q, c.tasks[t].wait[i]) {
      var x := c.tasks[t].wait[i];
      var u := m.sems[x];
      assert TaskOk(c, m, u);
      assert x in m.hist[u].fired;
      assert u in q && x in c.tasks[u].semaphores;
    }
    if HasPred(c.tasks[t]) {
      assert TaskOk(c, m, c.tasks[t].body.pred);
    }
    assert Served(c.tasks, q, t);
  }

  lemma ControlBegins(c: Config, s: State)
    requires Shape(c, s) && !(s.d.pc.DTop? || s.d.pc.DTarget? || s.d.pc.DSend? || s.d.pc.DWrite? || s.d.pc.DRetire?)
    ensures DispatchStep(c, s).mem == s.mem
  {
  }

  lemma TopBegins(c: Config, s: State, t: TaskId)
    requires Shape(c, s) && s.d.pc.DTop? && t < |c.tasks|
    requires s.d.channel != [] ==> s.mem.hist[s.d.channel[0]].stage == Idle
    ensures Begun(DTopStep(c, s).mem.hist[t]) ==> Begun(s.mem.hist[t])
  {
  }

  lemma TargetBegins(c: Config, s: State, t: TaskId)
    requires Shape(c, s) && s.d.pc.DTarget? && t < |c.tasks|
    ensures Begun(DTargetStep(c, s, s.d.pc.t, s.d.pc.target).mem.hist[t]) ==> Begun(s.mem.hist[t])
  {
  }

  lemma OthersBegin(c: Config, s: State, t: TaskId)
    requires Shape(c, s) && (s.d.pc.DSend? || s.d.pc.DWrite? || s.d.pc.DRetire?) && t < |c.tasks| && t != s.d.pc.t
    ensures DispatchStep(c, s).mem.hist[t] == s.mem.hist[t]
  {
  }

  /** The dispatcher begins only the task in its hands, which can execute. */
  lemma DispatchBegins(c: Config, s: State, t: TaskId)
    requires Inv(c, s) && t < |c.tasks|
    requires Begun(DispatchStep(c, s).mem.hist[t]) && !Begun(s.mem.hist[t])
    ensures s.mem.hist[t].place == Held && CanExecute(c, s.mem, t)
  {
    ProtocolProof.HeldAt(c, s);
    if DHolds(s.d.pc) {
      assert DList(s.d)[|s.d.kept|] == s.d.pc.t;
    }
    if s.d.pc.DTop? {
      if s.d.channel != [] {
        assert TaskOk(c, s.mem, s.d.channel[0]);
      }
      TopBegins(c, s, t);
    } else if s.d.pc.DTarget? {
      TargetBegins(c, s, t);
    } else if s.d.pc.DSend? || s.d.pc.DWrite? || s.d.pc.DRetire? {
      if t != s.d.pc.t {
        OthersBegin(c, s, t);
      }
    } else {
      ControlBegins(c, s);
    }
  }

  /** A worker begins no task: it works on tasks that were sent to it. */
  lemma WorkBegins(c: Config, s: State, w: nat, finish: bool, t: TaskId)
    requires Inv(c, s) && w < |s.ws| && t < |c.tasks|
    requires !Begun(s.mem.hist[t])
    ensures !Begun(WorkStep(c, s, w, finish).mem.hist[t])
  {
    ProtocolProof.FuturesAt(c, s, w);
    WorkerProof.WorkerSound(c, s.mem, w, s.ws[w], finish);
    assert Same(c, s.mem, WorkStep(c, s, w, finish).mem, t);
  }

  lemma StepBegins(c: Config, s: State, step: Step, given: set<TaskId>, q: set<TaskId>)
    requires Inv(c, s) && s.mem.cancelled == {}
    requires Closed(c.tasks, given, q) && BegunIn(c, s.mem, q) && InsideIn(c, s.mem, given)
    ensures BegunIn(c, Apply(c, s, step).mem, q)
  {
    var s' := Apply(c, s, step);
    forall t: nat | t < |c.tasks| && Begun(s'.mem.hist[t]) ensures t in q {
      if !Begun(s.mem.hist[t]) {
        match step {
          case Dispatch =>
            DispatchBegins(c, s, t);
            ExecutableIsServed(c, s.mem, given, q, t);
          case Work(w, finish) =>
            if w < |s.ws| {
              WorkBegins(c, s, w, finish, t);
            }
          case _ => Results.OutsideHist(c, s, step);
        }
      }
    }
  }

  ghost function SubmittedIn(c: Config, run: seq<Step>): set<TaskId> {
    set t: TaskId | t < |c.tasks| && Results.Submitted(run, t)
  }

  lemma {:induction false} RunBegins(c: Config, run: seq<Step>, given: set<TaskId>, q: set<TaskId>)
    requires ValidConfig(c) && Results.CancelFree(run)
    requires SubmittedIn(c, run) <= given && Closed(c.tasks, given, q)
    ensures BegunIn(c, Exec(c, run).mem, q)
  {
    if run != [] {
      var before := run[..|run| - 1];
      ExecLast(c, run);
      assert run == before + [run[|run| - 1]];
      forall t | t in SubmittedIn(c, before) ensures t in SubmittedIn(c, run) {
        var i :| 0 <= i < |before| && before[i].SubmitSend? && before[i].t == t;
        assert run[i] == before[i];
      }
      RunBegins(c, before, given, q);
      ProtocolProof.RunInv(c, before);
      Results.NoneCancelled(c, before);
      forall t: nat | t < |c.tasks| && Exec(c, before).mem.hist[t].place != Outside ensures t in given {
        Results.SubmittedInside(c, before, t);
        assert t in SubmittedIn(c, before);
      }
      StepBegins(c, Exec(c, before), run[|run| - 1], given, q);
    }
  }

  // ----- everything is retired that could get done -----

  lemma StuckDispatcher(c: Config, s: State)
    requires Shape(c, s) && DispatchStep(c, s) == s
    ensures
      || s.d.pc.DCrashed?
      || (s.d.pc.DWait? && !s.d.flag)
      || (s.d.pc.DTop? && s.d.channel == [] && s.d.todo == [] && s.d.kept == [])
  {
  }

  lemma StuckWorker(c: Config, m: Mem, w: nat, me: Worker)
    requires MemShape(c, m) && WShape(c, me) && WorkerStep(c, m, w, me, true).me == me
    ensures
      || (me.pc.WTop? && me.inbox == [] && WList(me) == [])
      || (me.pc.WWait? && !me.flag)
      || (me.pc.WPredWait? && !m.cells[c.tasks[me.pc.t].body.pred].signal)
  {
  }

  /**
   * The threads have come to rest: nobody owes them anything, no future waits for an outside event, no signal was
   * consumed by others, and the last pass relaxed nothing.
   */
  ghost predicate AtRest(c: Config, s: State)
    requires Shape(c, s)
  {
    && Stuck(c, s)
    && s.d.owing == {} && s.d.relaxed == {} && s.mem.stolen == {}
    && (forall w :: 0 <= w < |s.ws| ==> !s.ws[w].pc.WWait?)
  }

  lemma RetirerMoves(c: Config, s: State, agent: Option<nat>, p: TaskId)
    requires Shape(c, s) && p < |c.tasks| && WorkerWake.Retires(c, s, agent, p)
    requires !s.mem.cells[p].signal
    ensures !Stuck(c, s)
  {
    WorkerWake.RetirerStep(c, s, agent, p);
    assert Apply(c, s, WorkerWake.StepOf(agent)) != s;
  }

  lemma RestingWorker(c: Config, run: seq<Step>, w: nat)
    requires ValidConfig(c) && w < |c.labels| && AtRest(c, Exec(c, run))
    ensures
      var me := Exec(c, run).ws[w];
      me.pc.WTop? && me.inbox == [] && WList(me) == []
  {
    var s := Exec(c, run);
    assert Apply(c, s, Work(w, true)) == s;
    assert s.ws[w] == WorkerStep(c, s.mem, w, s.ws[w], true).me;
    StuckWorker(c, s.mem, w, s.ws[w]);
    if s.ws[w].pc.WPredWait? {
      WorkerWake.WorkersNotClogged(c, run, w);
      var p := c.tasks[s.ws[w].pc.t].body.pred;
      var agent: Option<nat> :| WorkerWake.Retires(c, s, agent, p);
      RetirerMoves(c, s, agent, p);
    }
  }

  /** At rest every task is outside, retired, or kept by the dispatcher, which waits. */
  lemma RestingPlace(c: Config, run: seq<Step>, t: TaskId)
    requires ValidConfig(c) && Results.CancelFree(run) && t < |c.tasks| && AtRest(c, Exec(c, run))
    ensures
      var s := Exec(c, run);
      var home := s.mem.hist[t].place;
      home == Outside || home == Retired || (home == Held && s.d.pc.DWait? && !s.d.flag && t in s.d.kept)
  {
    var s := Exec(c, run);
    var home := s.mem.hist[t].place;
    ProtocolProof.RunInv(c, run);
    Results.NoneCancelled(c, run);
    StuckDispatcher(c, s);
    if s.d.pc.DCrashed? {
      CrashNeedsCancel(c, run);
    }
    RunQueueOk(c, run);
    if home != Outside {
      assert Exact(c, s, home);
      assert t in Contents(s, home);
      if home.Inbox? || home.Futures? {
        RestingWorker(c, run, home.w);
      }
    }
  }

  /** At rest no slot of a worker is in use: those that are not free are lost. */
  lemma RestingSlots(c: Config, run: seq<Step>, w: nat)
    requires ValidConfig(c) && w < |c.labels| && AtRest(c, Exec(c, run))
    requires !Exec(c, run).d.pc.DSub?
    ensures Exec(c, run).ws[w].free + Exec(c, run).ws[w].lost == c.workersPerThread
  {
    RestingWorker(c, run, w);
    SlotsConserved(c, run, w);
  }

  /** The dispatcher keeps a task that can execute, and each thread that the task may run on has lost all its slots. */
  ghost predicate Starved(c: Config, s: State, t: TaskId)
    requires Shape(c, s) && t < |c.tasks|
  {
    && t in s.d.kept && CanExecute(c, s.mem, t)
    && (forall w: nat :: w < |s.ws| && Allowed(c, s.mem, t, w) ==> s.ws[w].lost == c.workersPerThread)
  }

  ghost predicate NoneStarved(c: Config, s: State)
    requires Shape(c, s)
  {
    forall t: TaskId :: t < |c.tasks| ==> !Starved(c, s, t)
  }

  lemma ServedExecutes(c: Config, m: Mem, retired: set<TaskId>, t: TaskId)
    requires MemOk(c, m) && t < |c.tasks| && Served(c.tasks, retired, t)
    requires forall u: TaskId :: u < |c.tasks| && u in retired ==> m.hist[u].place == Retired
    ensures CanExecute(c, m, t)
  {
    forall i | 0 <= i < |c.tasks[t].wait| ensures c.tasks[t].wait[i] in m.sems {
      var x := c.tasks[t].wait[i];
      assert Signalled(c.tasks, retired, x);
      var u: TaskId :| u in retired && u < |c.tasks| && x in c.tasks[u].semaphores;
      assert TaskOk(c, m, u);
      assert x in m.hist[u].fired;
    }
    if HasPred(c.tasks[t]) {
      assert TaskOk(c, m, c.tasks[t].body.pred);
    }
  }

  /** What has been done at rest has been retired. */
  lemma RestingDone(c: Config, run: seq<Step>, t: TaskId)
    requires ValidConfig(c) && Results.CancelFree(run) && t < |c.tasks| && AtRest(c, Exec(c, run))
    ensures
      var m := Exec(c, run).mem;
      Done(m.hist[t].stage) || m.hist[t].fired != [] || m.cells[t].state != Pending ==> m.hist[t].place == Retired
  {
    var s := Exec(c, run);
    ProtocolProof.RunInv(c, run);
    Results.NoneCancelled(c, run);
    RestingPlace(c, run, t);
    assert TaskOk(c, s.mem, t);
    if s.mem.hist[t].place == Held {
      var i :| 0 <= i < |s.d.kept| && s.d.kept[i] == t;
      assert s.mem.hist[s.d.kept[i]].stage == Idle;
    }
  }

  lemma ExecutesServed(c: Config, run: seq<Step>, retired: set<TaskId>, t: TaskId)
    requires ValidConfig(c) && Results.CancelFree(run) && t < |c.tasks| && AtRest(c, Exec(c, run))
    requires forall u: TaskId :: u < |c.tasks| ==> (u in retired <==> Exec(c, run).mem.hist[u].place == Retired)
    requires CanExecute(c, Exec(c, run).mem, t)
    ensures Served(c.tasks, retired, t)
  {
    var m := Exec(c, run).mem;
    ProtocolProof.RunInv(c, run);
    forall i | 0 <= i < |c.tasks[t].wait| ensures Signalled(c.tasks, retired, c.tasks[t].wait[i]) {
      var x := c.tasks[t].wait[i];
      var u := m.sems[x];
      assert TaskOk(c, m, u) && x in m.hist[u].fired;
      RestingDone(c, run, u);
      assert u in retired && x in c.tasks[u].semaphores;
    }
    if HasPred(c.tasks[t]) {
      RestingDone(c, run, c.tasks[t].body.pred);
    }
  }

  /** A task that the dispatcher keeps at rest and that can execute has no thread with slots left. */
  lemma KeptIsStarved(c: Config, run: seq<Step>, t: TaskId)
    requires ValidConfig(c) && Results.CancelFree(run) && AtRest(c, Exec(c, run))
    requires t < |c.tasks| && Exec(c, run).d.pc.DWait? && !Exec(c, run).d.flag && t in Exec(c, run).d.kept
    requires CanExecute(c, Exec(c, run).mem, t)
    ensures Starved(c, Exec(c, run), t)
  {
    var s := Exec(c, run);
    Placement.NoLostWakeUp(c, run);
    Results.NoneCancelled(c, run);
    forall w: nat | w < |s.ws| ensures s.ws[w].pc.WTop? && s.ws[w].free + s.ws[w].lost == c.workersPerThread {
      RestingWorker(c, run, w);
      RestingSlots(c, run, w);
    }
    assert !Owed(s);
    var i :| 0 <= i < |s.d.kept| && s.d.kept[i] == t;
    assert !Excused(s, s.d.kept[i]) && !Actionable(c, s, t);
    forall w: nat | w < |s.ws| && Allowed(c, s.mem, t, w) ensures s.ws[w].lost == c.workersPerThread {
      assert s.ws[w].free == 0;
    }
  }

  /**
   * At rest, without cancels, a submitted task is retired, or something it depends on is not, or it is starved; and it is
   * starved if its dependencies are retired and it is not.
   */
  lemma {:induction false} RestingTask(c: Config, run: seq<Step>, retired: set<TaskId>, t: TaskId)
    requires ValidConfig(c) && Results.CancelFree(run) && AtRest(c, Exec(c, run))
    requires forall u: TaskId :: u < |c.tasks| ==> (u in retired <==> Exec(c, run).mem.hist[u].place == Retired)
    requires t < |c.tasks| && Results.Submitted(run, t)
    ensures Starved(c, Exec(c, run), t) <==> t !in retired && Served(c.tasks, retired, t)
  {
    var s := Exec(c, run);
    ProtocolProof.RunInv(c, run);
    Results.SubmittedInside(c, run, t);
    RestingPlace(c, run, t);
    if t !in retired && Served(c.tasks, retired, t) {
      ServedExecutes(c, s.mem, retired, t);
      KeptIsStarved(c, run, t);
    }
    if Starved(c, s, t) {
      ExecutesServed(c, run, retired, t);
      ProtocolProof.HeldAt(c, s);
      var i :| 0 <= i < |s.d.kept| && s.d.kept[i] == t;
      assert DList(s.d)[i] == t;
    }
  }

  /** Without cancels, nothing is retired that could not get done, and what is has the result of the fold. */
  lemma RestIsSound(c: Config, run: seq<Step>) returns (retired: set<TaskId>)
    requires ValidConfig(c) && Results.CancelFree(run)
    ensures forall t: TaskId :: t < |c.tasks| ==> (t in retired <==> Exec(c, run).mem.hist[t].place == Retired)
    ensures forall t: TaskId :: t in retired ==> t < |c.tasks| && Exec(c, run).mem.cells[t].state == StateOf(Eval(c.tasks, t))
    ensures forall q: set<TaskId> :: Closed(c.tasks, SubmittedIn(c, run), q) ==> retired <= q
  {
    var s := Exec(c, run);
    retired := set t: TaskId | t < |c.tasks| && s.mem.hist[t].place == Retired;
    forall q: set<TaskId> | Closed(c.tasks, SubmittedIn(c, run), q) ensures retired <= q {
      RunBegins(c, run, SubmittedIn(c, run), q);
    }
    forall t: TaskId | t in retired ensures s.mem.cells[t].state == StateOf(Eval(c.tasks, t)) {
      Results.SchedulesAgree(c, run, run, t);
    }
  }

  /**
   * Completeness: in a cancel-free run that has come to rest, whatever the schedule was, the retired tasks are exactly
   * those of the submitted that can get done, if and only if no task is starved: no task that can execute has lost all
   * slots of all threads that it may run on. Each retired task has the result of the sequential fold over its chain.
   */
  lemma RestIsComplete(c: Config, run: seq<Step>) returns (retired: set<TaskId>)
    requires ValidConfig(c) && Results.CancelFree(run) && AtRest(c, Exec(c, run))
    ensures forall t: TaskId :: t < |c.tasks| ==> (t in retired <==> Exec(c, run).mem.hist[t].place == Retired)
    ensures forall t: TaskId :: t in retired ==> t < |c.tasks| && Exec(c, run).mem.cells[t].state == StateOf(Eval(c.tasks, t))
    ensures Least(c.tasks, SubmittedIn(c, run), retired) <==> NoneStarved(c, Exec(c, run))
  {
    var s := Exec(c, run);
    var given := SubmittedIn(c, run);
    retired := RestIsSound(c, run);
    forall t: TaskId | t in given ensures Starved(c, s, t) <==> t !in retired && Served(c.tasks, retired, t) {
      RestingTask(c, run, retired, t);
    }
    forall t: TaskId | t < |c.tasks| && Starved(c, s, t) ensures t in given {
      KeptIsSubmitted(c, run, t);
    }
    assert Closed(c.tasks, given, retired) <==> NoneStarved(c, s);
  }

  /** A task is not starved if more slots belong to the threads that it may run on than there are bodies that panic. */
  lemma NotStarved(c: Config, run: seq<Step>, t: TaskId)
    requires ValidConfig(c) && Results.CancelFree(run) && t < |c.tasks|
    requires
      var cell := Exec(c, run).mem.cells[t];
      |Losses.Breakers(c)| < c.workersPerThread * |Placement.Threads(c, cell.preferred, cell.notOn)|
    ensures !Starved(c, Exec(c, run), t)
  {
    var s := Exec(c, run);
    var threads := Placement.Threads(c, s.mem.cells[t].preferred, s.mem.cells[t].notOn);
    Losses.SomeHasSlots(c, run, threads);
    var w: nat :| w in threads && w < |c.labels| && s.ws[w].lost < c.workersPerThread;
    assert Placement.MayRun(c, s.mem.cells[t].preferred, s.mem.cells[t].notOn, w);
    assert Allowed(c, s.mem, t, w);
  }

  /** At rest no task is starved if fewer bodies panic than each worker has slots, whatever the wishes are. */
  lemma FewStarveNone(c: Config, run: seq<Step>)
    requires ValidConfig(c) && Results.CancelFree(run) && AtRest(c, Exec(c, run))
    requires |Losses.Breakers(c)| < c.workersPerThread
    ensures NoneStarved(c, Exec(c, run))
  {
    forall t: TaskId | t < |c.tasks| ensures !Starved(c, Exec(c, run), t) {
      RestingIsServed(c, run, t);
    }
  }

  lemma RestingIsServed(c: Config, run: seq<Step>, t: TaskId)
    requires ValidConfig(c) && Results.CancelFree(run) && AtRest(c, Exec(c, run)) && t < |c.tasks|
    requires |Losses.Breakers(c)| < c.workersPerThread
    ensures !Starved(c, Exec(c, run), t)
  {
    if Starved(c, Exec(c, run), t) {
      var w := RestingThread(c, run, t);
      Losses.OneHasSlots(c, run, w);
    }
  }

  /** At rest the dispatcher keeps no task that can execute and that no thread fits. */
  lemma RestingThread(c: Config, run: seq<Step>, t: TaskId) returns (w: nat)
    requires ValidConfig(c) && Results.CancelFree(run) && AtRest(c, Exec(c, run))
    requires t < |c.tasks| && t in Exec(c, run).d.kept && CanExecute(c, Exec(c, run).mem, t)
    ensures w < |c.labels| && Allowed(c, Exec(c, run).mem, t, w)
  {
    var s := Exec(c, run);
    Placement.NoLostWakeUp(c, run);
    Results.NoneCancelled(c, run);
    forall v: nat | v < |s.ws| ensures s.ws[v].pc.WTop? {
      RestingWorker(c, run, v);
    }
    StuckDispatcher(c, s);
    ProtocolProof.RunInv(c, run);
    RestNotCrashed(c, run);
    assert !Owed(s);
    var i :| 0 <= i < |s.d.kept| && s.d.kept[i] == t;
    assert !Excused(s, s.d.kept[i]) && !Actionable(c, s, t);
    w :| w < |c.labels| && Allowed(c, s.mem, t, w);
  }

  lemma RestNotCrashed(c: Config, run: seq<Step>)
    requires ValidConfig(c) && Results.CancelFree(run)
    ensures !Exec(c, run).d.pc.DCrashed?
  {
    Results.NoneCancelled(c, run);
    if Exec(c, run).d.pc.DCrashed? {
      CrashNeedsCancel(c, run);
    }
  }

  lemma KeptIsSubmitted(c: Config, run: seq<Step>, t: TaskId)
    requires ValidConfig(c) && t < |c.tasks| && t in Exec(c, run).d.kept
    ensures Results.Submitted(run, t)
  {
    var s := Exec(c, run);
    ProtocolProof.RunInv(c, run);
    ProtocolProof.HeldAt(c, s);
    var i :| 0 <= i < |s.d.kept| && s.d.kept[i] == t;
    assert DList(s.d)[i] == t;
    Results.SubmittedInside(c, run, t);
  }

  /** Two cancel-free runs with the same submissions come to rest with the same tasks retired, in the same states. */
  lemma RestsAgree(c: Config, run1: seq<Step>, run2: seq<Step>, t: TaskId)
    requires ValidConfig(c) && Results.CancelFree(run1) && Results.CancelFree(run2)
    requires AtRest(c, Exec(c, run1)) && NoneStarved(c, Exec(c, run1))
    requires AtRest(c, Exec(c, run2)) && NoneStarved(c, Exec(c, run2))
    requires SubmittedIn(c, run1) == SubmittedIn(c, run2) && t < |c.tasks|
    ensures Exec(c, run1).mem.hist[t].place == Retired <==> Exec(c, run2).mem.hist[t].place == Retired
    ensures Exec(c, run1).mem.hist[t].place == Retired ==> Exec(c, run1).mem.cells[t].state == Exec(c, run2).mem.cells[t].state
  {
    var a := RestIsComplete(c, run1);
    var b := RestIsComplete(c, run2);
    LeastIsUnique(c.tasks, SubmittedIn(c, run1), a, b);
  }

  /** Tasks with forward dependencies that are all submitted are all retired when the threads come to rest. */
  lemma {:induction false} ForwardRunsOut(c: Config, run: seq<Step>, t: TaskId)
    requires ValidConfig(c) && Results.CancelFree(run) && AtRest(c, Exec(c, run))
    requires NoneStarved(c, Exec(c, run))
    requires Forward(c.tasks) && (forall u: TaskId :: u < |c.tasks| ==> Results.Submitted(run, u))
    requires t < |c.tasks|
    ensures Exec(c, run).mem.hist[t].place == Retired
    ensures Exec(c, run).mem.cells[t].state == StateOf(Eval(c.tasks, t))
  {
    var retired := RestIsComplete(c, run);
    ForwardGetsDone(c.tasks, SubmittedIn(c, run), retired, t);
  }
}
