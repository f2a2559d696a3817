/** Runs that stall: over a cancel that wakes nobody, and over slots that are never given back. */
module Stalls {
  import opened Tasks
  import opened Memory
  import opened Protocol
  import opened ProtocolInvariant
  import opened QueueWake
  import opened Placement
  import opened Progress
  import opened Crash
  import DispatchAlone
  import Greedy
  import Quiescence

  /** The dispatcher sleeps over the task `t` alone, nobody owes it a wake, and no thread can take a step. */
  ghost predicate StallsOver(c: Config, s: State, t: TaskId) {
    Shape(c, s) && Asleep(s) && s.d.kept == [t] && t < |c.tasks| && Stuck(c, s)
  }

  /** A worker with nothing to do. */
  ghost predicate Idles(me: Worker) {
    me.pc.WTop? && me.inbox == [] && me.todo == []
  }

  lemma IdleIsStuck(c: Config, s: State)
    requires Shape(c, s) && |s.ws| == 1 && Idles(s.ws[0])
    requires s.d == Dispatcher([], false, [1], [], DWait, {}, {}, s.d.unseen) && |c.tasks| == 2
    ensures StallsOver(c, s, 1)
  {
    assert WorkStep(c, s, 0, true) == s;
  }

  // ----- a cancel that comes too late -----

  /** A task that is never submitted, and one that continues it; one thread with one worker. */
  ghost function OrphanConfig(out: Outcome, f: Value -> Outcome): Config {
    Config([Task(0, Root(out), [], [], None, []), Task(1, Continuation(0, f), [], [], None, [])], [None], 1)
  }

  /** The dispatcher begins or has ended a pass over the continuation, whose predecessor is still pending. */
  ghost predicate Orphaned(c: Config, s: State, d: Dispatcher) {
    && Shape(c, s) && s.d == d && s.ws == Init(c).ws
    && |c.tasks| == 2 && |c.labels| == 1 && HasPred(c.tasks[1]) && c.tasks[1].body.pred == 0 && c.tasks[1].wait == []
    && s.mem.cells[0].state == Pending
  }

  lemma OrphanIsReceived(c: Config, out: Outcome, f: Value -> Outcome) returns (run: seq<Step>)
    requires c == OrphanConfig(out, f) && ValidConfig(c)
    ensures Orphaned(c, Exec(c, run), Dispatcher([], true, [], [1], DNext, {}, {}, {}))
  {
    run := Step1(c, [], SubmitSend(0, 1, None));
    assert Exec(c, run).d == Dispatcher([1], false, [], [], DTop, {0}, {}, {});
    run := Step1(c, run, SubmitWake(0));
    assert Exec(c, run).d == Dispatcher([1], true, [], [], DTop, {}, {}, {});
    run := Step1(c, run, Dispatch);
  }

  /** A pass keeps the continuation. */
  lemma OrphanIsKept(c: Config, run: seq<Step>, flag: bool) returns (next: seq<Step>)
    requires ValidConfig(c) && Orphaned(c, Exec(c, run), Dispatcher([], flag, [], [1], DNext, {}, {}, {}))
    ensures Orphaned(c, Exec(c, next), Dispatcher([], flag, [1], [], DWait, {}, {}, {}))
  {
    next := Step1(c, run, Dispatch);
    assert Exec(c, next).d == Dispatcher([], flag, [1], [], DNext, {}, {}, {});
    next := Step1(c, next, Dispatch);
  }

  /** The flag leads to one more pass. */
  lemma FlagIsConsumed(c: Config, run: seq<Step>) returns (next: seq<Step>)
    requires ValidConfig(c)
    requires Exec(c, run).d == Dispatcher([], true, [1], [], DWait, {}, {}, Exec(c, run).d.unseen)
    ensures
      var s, r := Exec(c, run), Exec(c, next);
      r == State(s.mem, Dispatcher([], false, [], [1], DNext, {}, {}, s.d.unseen), s.ws)
  {
    next := Step1(c, run, Dispatch);
    assert Exec(c, next).d == Dispatcher([], false, [], [1], DTop, {}, {}, Exec(c, run).d.unseen);
    next := Step1(c, next, Dispatch);
  }

  /**
   * A cancel is slept through. In this run the dispatcher goes to sleep over a continuation, and then the predecessor,
   * which nobody has submitted, is cancelled: the dispatcher could settle the continuation, but nobody wakes it.
   */
  lemma CancelStalls(out: Outcome, f: Value -> Outcome) returns (run: seq<Step>)
    ensures
      var c := OrphanConfig(out, f);
      ValidConfig(c) && StallsOver(c, Exec(c, run), 1) && Actionable(c, Exec(c, run), 1)
  {
    var c := OrphanConfig(out, f);
    assert ValidConfig(c);
    run := OrphanIsReceived(c, out, f);
    run := OrphanIsKept(c, run, true);
    run := FlagIsConsumed(c, run);
    run := OrphanIsKept(c, run, false);
    run := Step1(c, run, Cancel(0));
    IdleIsStuck(c, Exec(c, run));
  }

  // ----- a slot that is never given back -----

  /** Two tasks that depend on nothing; one thread with one worker. */
  ghost function OneSlotConfig(first: Outcome, out: Outcome): Config {
    Config([Task(0, Root(first), [], [], None, []), Task(1, Root(out), [], [], None, [])], [None], 1)
  }

  /** The only slot is lost, and the dispatcher begins or has ended a pass over the second task. */
  ghost predicate Slotless(c: Config, s: State, d: Dispatcher) {
    && Shape(c, s) && s.d == d && |c.tasks| == 2 && |s.ws| == 1 && Idles(s.ws[0]) && s.ws[0].free == 0 && s.ws[0].lost == 1
    && s.mem.cells[1] == Cell(Pending, None, false, Unwaited, None, []) && s.mem.stolen == {}
  }

  /** The first task panics. */
  lemma SlotIsLost(c: Config, out: Outcome) returns (run: seq<Step>)
    requires c == OneSlotConfig(Panics, out) && ValidConfig(c)
    ensures Retiring(c, Exec(c, run)) && Exec(c, run).mem.cancelled == {}
  {
    run := FirstPanics(c);
  }

  /** The worker has lost its slot to the first task, and begins to retire it. */
  ghost predicate Retiring(c: Config, s: State) {
    && Shape(c, s) && |c.tasks| == 2 && |s.ws| == 1 && c.tasks[0].semaphores == []
    && s.d == Dispatcher([], false, [], [], DTop, {0}, {}, s.d.unseen)
    && s.ws[0] == Worker([], [], [], WRetire(0, 0), 0, s.ws[0].flag, s.ws[0].called, 1)
    && s.mem.hist[1].place == Outside && s.mem.cells[1] == Cell(Pending, None, false, Unwaited, None, [])
    && s.mem.stolen == {}
  }

  lemma FirstRetires(c: Config, run: seq<Step>) returns (next: seq<Step>)
    requires ValidConfig(c) && Retiring(c, Exec(c, run))
    ensures Slotless(c, Exec(c, next), Dispatcher([], true, [], [], DTop, {0}, {}, Exec(c, run).d.unseen))
    ensures Exec(c, next).mem.hist[1].place == Outside && Exec(c, next).mem.cancelled == Exec(c, run).mem.cancelled
  {
    var me := Exec(c, run).ws[0];
    next := Step1(c, run, Work(0, true));
    assert Exec(c, next).ws[0] == me.(pc := WRetire(0, 1));
    next := Step1(c, next, Work(0, true));
    assert Exec(c, next).ws[0] == me.(pc := WNext);
    next := Step1(c, next, Work(0, true));
  }

  lemma SecondIsSubmitted(c: Config, run: seq<Step>, unseen: set<TaskId>) returns (next: seq<Step>)
    requires ValidConfig(c) && Slotless(c, Exec(c, run), Dispatcher([], true, [], [], DTop, {0}, {}, unseen))
    requires Exec(c, run).mem.hist[1].place == Outside
    ensures Slotless(c, Exec(c, next), Dispatcher([], true, [], [1], DNext, {}, {}, unseen))
    ensures Exec(c, next).mem.cancelled == Exec(c, run).mem.cancelled
  {
    next := Step1(c, run, SubmitSend(0, 1, None));
    assert Slotless(c, Exec(c, next), Dispatcher([1], true, [], [], DTop, {0}, {}, unseen));
    next := Step1(c, next, SubmitWake(0));
    assert Slotless(c, Exec(c, next), Dispatcher([1], true, [], [], DTop, {}, {}, unseen));
    next := Step1(c, next, Dispatch);
  }

  /** A pass finds no free slot for the task and keeps it. */
  lemma SecondIsKept(c: Config, first: Outcome, out: Outcome, run: seq<Step>, flag: bool, unseen: set<TaskId>)
    returns (next: seq<Step>)
    requires c == OneSlotConfig(first, out) && ValidConfig(c)
    requires Slotless(c, Exec(c, run), Dispatcher([], flag, [], [1], DNext, {}, {}, unseen))
    ensures Slotless(c, Exec(c, next), Dispatcher([], flag, [1], [], DWait, {}, {}, unseen - {1}))
    ensures Exec(c, next).mem.cancelled == Exec(c, run).mem.cancelled
  {
    var s := Exec(c, run);
    assert DispatchAlone.Goes(c, s.mem, 1);
    var n := DispatchAlone.TaskDoes(c, s);
    assert DispatchAlone.Frees(s.ws) == [0];
    OnlyThread(c.labels, [0], DispatchAlone.Wish(c, s.mem, 1));
    next := AloneRuns(c, run, n);
    assert Exec(c, next) == DispatchAlone.Placed(c, s);
    assert Slotless(c, Exec(c, next), Dispatcher([], flag, [1], [], DNext, {}, {}, unseen - {1}));
    next := Step1(c, next, Dispatch);
  }

  /** The threads have come to rest with the second task starved. */
  ghost predicate Hopeless(c: Config, s: State) {
    StallsOver(c, s, 1) && Quiescence.AtRest(c, s) && Quiescence.Starved(c, s, 1)
  }

  lemma SlotlessIsHopeless(c: Config, first: Outcome, out: Outcome, s: State)
    requires c == OneSlotConfig(first, out)
    requires Slotless(c, s, Dispatcher([], false, [1], [], DWait, {}, {}, s.d.unseen))
    ensures Hopeless(c, s)
  {
    IdleIsStuck(c, s);
  }

  /** With the only slot lost, the second task is starved: it can execute, and nobody will ever send it. */
  lemma SecondStarves(c: Config, first: Outcome, out: Outcome, run: seq<Step>) returns (next: seq<Step>)
    requires c == OneSlotConfig(first, out) && ValidConfig(c) && Retiring(c, Exec(c, run))
    ensures Hopeless(c, Exec(c, next)) && Exec(c, next).mem.cancelled == Exec(c, run).mem.cancelled
  {
    var unseen := Exec(c, run).d.unseen;
    next := FirstRetires(c, run);
    next := SecondIsSubmitted(c, next, unseen);
    next := SecondIsKept(c, first, out, next, true, unseen);
    next := FlagIsConsumed(c, next);
    next := SecondIsKept(c, first, out, next, false, unseen - {1});
    SlotlessIsHopeless(c, first, out, Exec(c, next));
  }

  /**
   * Lost slots can starve a task. In this run nobody cancels anything or consumes a signal, a body panics on the
   * only slot, and the next task, which can execute, stays with the sleeping dispatcher, while no thread can move.
   */
  lemma LostSlotStalls(out: Outcome) returns (run: seq<Step>)
    ensures
      var c, s := OneSlotConfig(Panics, out), Exec(OneSlotConfig(Panics, out), run);
      ValidConfig(c) && s.mem.cancelled == {} && Hopeless(c, s)
  {
    var c := OneSlotConfig(Panics, out);
    assert ValidConfig(c);
    run := SlotIsLost(c, out);
    run := SecondStarves(c, Panics, out, run);
  }

  // ----- a slot that goes with a cancelled task -----

  /** The first task has given Pending once, and was cancelled since; nothing else has happened. */
  ghost predicate Dropping(c: Config, s: State, todo: seq<TaskId>, pc: WPc) {
    && Shape(c, s) && |c.tasks| == 2 && |s.ws| == 1 && c.tasks[0].semaphores == []
    && s.d == Dispatcher([], false, [], [], DTop, {0}, {}, {0})
    && s.ws[0] == Worker([], [], todo, pc, 0, false, {}, 0)
    && s.mem.hist[0].stage.Called? && s.mem.cells[0].state == Cancelled && s.mem.cancelled == {0}
    && s.mem.hist[1].place == Outside && s.mem.cells[1] == Cell(Pending, None, false, Unwaited, None, [])
    && s.mem.stolen == {}
  }

  /** The worker has come to this point with the future of the first task, which gave Pending. */
  ghost predicate Pends(c: Config, s: State, m: Mem, kept: seq<TaskId>, pc: WPc) {
    Unoccupied(c, s) && s.mem == m && s.ws[0] == Worker([], kept, [], pc, 0, true, {}, 0)
  }

  lemma FirstIsPending(c: Config, first: Outcome, out: Outcome) returns (run: seq<Step>, m: Mem)
    requires c == OneSlotConfig(first, out) && ValidConfig(c)
    ensures Pends(c, Exec(c, run), m, [0], WWait) && m.hist[0].stage.Called?
  {
    run, m := FirstIsPolled(c, first);
    run := PendingIsKept(c, run, m, first);
    run := Step1(c, run, Work(0, true));
  }

  lemma PendingIsKept(c: Config, run: seq<Step>, m: Mem, first: Outcome) returns (next: seq<Step>)
    requires ValidConfig(c) && Pends(c, Exec(c, run), m, [], WRun(0, first)) && m.cells[0].state == Pending
    ensures Pends(c, Exec(c, next), m, [0], WNext)
  {
    next := Step1(c, run, Work(0, false));
    assert Pends(c, Exec(c, next), m, [], WPending(0));
    next := Step1(c, next, Work(0, true));
  }

  lemma DroppedAtNextPoll(c: Config, run: seq<Step>) returns (next: seq<Step>)
    requires ValidConfig(c) && Dropping(c, Exec(c, run), [0], WTop)
    ensures Retiring(c, Exec(c, next)) && Exec(c, next).mem.cancelled == {0}
  {
    next := Step1(c, run, Work(0, true));
    assert Dropping(c, Exec(c, next), [0], WNext);
    next := Step1(c, next, Work(0, true));
    assert Dropping(c, Exec(c, next), [], WRun(0, Exec(c, run).mem.hist[0].stage.out));
    next := Step1(c, next, Work(0, false));
    assert Dropping(c, Exec(c, next), [], WPending(0));
    next := Step1(c, next, Work(0, true));
  }

  /** The first task is cancelled, polled again, and gives Pending again. */
  lemma FirstIsDropped(c: Config, first: Outcome, out: Outcome) returns (run: seq<Step>)
    requires c == OneSlotConfig(first, out) && ValidConfig(c)
    ensures Retiring(c, Exec(c, run)) && Exec(c, run).mem.cancelled == {0}
  {
    var m;
    run, m := FirstIsPending(c, first, out);
    run := Step1(c, run, Cancel(0));
    run := Step1(c, run, Work(0, true));
    run := DroppedAtNextPoll(c, run);
  }

  /**
   * So can the slot of a cancelled task. In this run the first task gives Pending, is cancelled, and gives Pending again;
   * the worker retires it and does not give its slot back. The next task, which can execute, stays with the sleeping
   * dispatcher, while no thread can move.
   */
  lemma DroppedSlotStalls(first: Outcome, out: Outcome) returns (run: seq<Step>)
    ensures
      var c, s := OneSlotConfig(first, out), Exec(OneSlotConfig(first, out), run);
      ValidConfig(c) && s.mem.cancelled == {0} && Hopeless(c, s)
  {
    var c := OneSlotConfig(first, out);
    assert ValidConfig(c);
    run := FirstIsDropped(c, first, out);
    run := SecondStarves(c, first, out, run);
  }
}
