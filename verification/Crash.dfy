/** The one way in which the dispatcher thread dies: a cancel between its look at a panic and its taking of it. */
module Crash {
  import opened Tasks
  import opened Memory
  import opened Protocol
  import opened ProtocolInvariant
  import opened QueueWake
  import DispatchAlone
  import Greedy
  import ProtocolProof
  import WorkerProof

  /** The run has a cancel of `p` after its last step of the dispatcher. */
  predicate CancelledSince(run: seq<Step>, p: TaskId) {
    && run != []
    && !run[|run| - 1].Dispatch?
    && (run[|run| - 1] == Cancel(p) || CancelledSince(run[..|run| - 1], p))
  }

  // ----- only a cancel changes a settled state -----

  lemma SettledInList(c: Config, m: Mem, w: nat, me: Worker, finish: bool, x: TaskId)
    requires WorkerProof.WPre(c, m, w, me) && x < |c.tasks| && !InRun(me.pc) && !InPred(me.pc)
    ensures WorkerStep(c, m, w, me, finish).mem.cells[x].state == m.cells[x].state
  {
  }

  lemma SettledInPred(c: Config, m: Mem, w: nat, me: Worker, finish: bool, x: TaskId)
    requires WorkerProof.WPre(c, m, w, me) && x < |c.tasks| && InPred(me.pc)
    ensures WorkerStep(c, m, w, me, finish).mem.cells[x].state == m.cells[x].state
  {
  }

  lemma SettledInRun(c: Config, m: Mem, w: nat, me: Worker, finish: bool, x: TaskId)
    requires WorkerProof.WPre(c, m, w, me) && x < |c.tasks| && InRun(me.pc)
    requires Done(m.hist[x].stage)
    ensures WorkerStep(c, m, w, me, finish).mem.cells[x].state == m.cells[x].state
  {
  }

  lemma OnlyCancels(c: Config, s: State, step: Step, x: TaskId)
    requires Inv(c, s) && !step.Dispatch? && x < |c.tasks| && Done(s.mem.hist[x].stage)
    ensures Apply(c, s, step).mem.cells[x].state == if step == Cancel(x) then Cancelled else s.mem.cells[x].state
    ensures Done(Apply(c, s, step).mem.hist[x].stage)
  {
    ProtocolProof.StepInv(c, s, step);
    assert LaterTask(s.mem, Apply(c, s, step).mem, x);
    if step.Work? {
      if step.w < |s.ws| {
        ProtocolProof.FuturesAt(c, s, step.w);
        if InRun(s.ws[step.w].pc) {
          SettledInRun(c, s.mem, step.w, s.ws[step.w], step.finish, x);
        } else if InPred(s.ws[step.w].pc) {
          SettledInPred(c, s.mem, step.w, s.ws[step.w], step.finish, x);
        } else {
          SettledInList(c, s.mem, step.w, s.ws[step.w], step.finish, x);
        }
      }
    } else {
      OutsideOnlyCancels(c, s, step, x);
    }
  }

  lemma OutsideOnlyCancels(c: Config, s: State, step: Step, x: TaskId)
    requires Shape(c, s) && !step.Dispatch? && !step.Work? && x < |c.tasks|
    ensures OutsideStep(c, s, step).mem.cells[x].state == if step == Cancel(x) then Cancelled else s.mem.cells[x].state
  {
  }

  // ----- when it dies -----

  /** What the dispatcher is about to find: the panic that it saw, or a cancel that came since. */
  ghost predicate Finds(c: Config, run: seq<Step>, s: State, t: TaskId)
    requires Shape(c, s) && t < |c.tasks|
  {
    && HasPred(c.tasks[t])
    && var p := c.tasks[t].body.pred;
       && Done(s.mem.hist[p].stage)
       && s.mem.cells[p].state == if CancelledSince(run, p) then Cancelled else Panicked
  }

  lemma LooksAtPanic(c: Config, s: State)
    requires Shape(c, s) && DispatchStep(c, s).d.pc.DGetPanic?
    ensures s.d.pc == DPanicCheck(DispatchStep(c, s).d.pc.t) && DispatchStep(c, s).mem == s.mem
    ensures PredState(c, s.mem, s.d.pc.t) == Panicked
  {
  }

  lemma OthersKeepPc(c: Config, s: State, step: Step)
    requires Shape(c, s) && !step.Dispatch?
    ensures Apply(c, s, step).d.pc == s.d.pc
  {
  }

  lemma {:induction false} FindsOut(c: Config, run: seq<Step>)
    requires ValidConfig(c) && Exec(c, run).d.pc.DGetPanic?
    ensures Finds(c, run, Exec(c, run), Exec(c, run).d.pc.t)
    decreases |run|
  {
    assert run != [];
    var before, step := run[..|run| - 1], run[|run| - 1];
    var s := Exec(c, before);
    ExecLast(c, run);
    ProtocolProof.RunInv(c, before);
    if step.Dispatch? {
      LooksAtPanic(c, s);
      assert TaskOk(c, s.mem, c.tasks[s.d.pc.t].body.pred);
    } else {
      OthersKeepPc(c, s, step);
      FindsOut(c, before);
      OnlyCancels(c, s, step, c.tasks[s.d.pc.t].body.pred);
    }
  }

  /**
   * From every reachable state in which the dispatcher has seen a panic and not yet taken it, its next step kills it
   * if and only if the predecessor was cancelled after it saw the panic.
   */
  lemma CrashesExactly(c: Config, run: seq<Step>)
    requires ValidConfig(c) && Exec(c, run).d.pc.DGetPanic?
    ensures
      var t := Exec(c, run).d.pc.t;
      && HasPred(c.tasks[t])
      && (Exec(c, run + [Dispatch]).d.pc == DCrashed(t) <==> CancelledSince(run, c.tasks[t].body.pred))
  {
    FindsOut(c, run);
    ExecNext(c, run, Dispatch);
  }

  lemma OnlyTakingCrashes(c: Config, s: State)
    requires Shape(c, s) && DispatchStep(c, s).d.pc.DCrashed?
    ensures s.d.pc == DispatchStep(c, s).d.pc || s.d.pc == DGetPanic(DispatchStep(c, s).d.pc.t)
  {
  }

  /** One step back from a dead dispatcher: it was dead before, or this step killed it. */
  lemma BeforeCrash(c: Config, before: seq<Step>, step: Step)
    requires ValidConfig(c) && Exec(c, before + [step]).d.pc.DCrashed?
    ensures
      var pc, t := Exec(c, before).d.pc, Exec(c, before + [step]).d.pc.t;
      || pc == DCrashed(t)
      || (pc == DGetPanic(t) && step == Dispatch && HasPred(c.tasks[t]) && CancelledSince(before, c.tasks[t].body.pred))
  {
    var s := Exec(c, before);
    ExecNext(c, before, step);
    if step.Dispatch? {
      OnlyTakingCrashes(c, s);
      if s.d.pc.DGetPanic? {
        CrashesExactly(c, before);
      }
    } else {
      OthersKeepPc(c, s, step);
    }
  }

  /** And it never dies in any other way: a dead dispatcher has taken such a step, over such a cancel. */
  lemma {:induction false} CrashesOnlySo(c: Config, run: seq<Step>) returns (before: seq<Step>, rest: seq<Step>)
    requires ValidConfig(c) && Exec(c, run).d.pc.DCrashed?
    ensures run == before + [Dispatch] + rest
    ensures
      var t := Exec(c, run).d.pc.t;
      Exec(c, before).d.pc == DGetPanic(t) && HasPred(c.tasks[t]) && CancelledSince(before, c.tasks[t].body.pred)
    decreases |run|
  {
    assert run != [];
    var front, step := run[..|run| - 1], run[|run| - 1];
    assert run == front + [step];
    BeforeCrash(c, front, step);
    if Exec(c, front).d.pc.DCrashed? {
      before, rest := CrashesOnlySo(c, front);
      Regroup(before, rest, step);
      rest := rest + [step];
    } else {
      before, rest := front, [];
    }
  }

  lemma Regroup(before: seq<Step>, rest: seq<Step>, step: Step)
    ensures before + [Dispatch] + rest + [step] == before + [Dispatch] + (rest + [step])
  {
  }

  // ----- a run in which it dies -----

  /** A task that panics, and one that continues it; one thread with one worker. */
  ghost function CrashConfig(f: Value -> Outcome): Config {
    Config([Task(0, Root(Panics), [], [], None, []), Task(1, Continuation(0, f), [], [], None, [])], [None], 1)
  }

  lemma Step1(c: Config, run: seq<Step>, step: Step) returns (next: seq<Step>)
    requires ValidConfig(c)
    ensures next == run + [step] && Exec(c, next) == Apply(c, Exec(c, run), step)
  {
    next := run + [step];
    ExecNext(c, run, step);
  }

  /** The dispatcher alone, as steps of a run. */
  lemma {:induction false} AloneRuns(c: Config, run: seq<Step>, n: nat) returns (next: seq<Step>)
    requires ValidConfig(c)
    ensures Exec(c, next) == DispatchAlone.Alone(c, Exec(c, run), n)
    decreases n
  {
    if n == 0 {
      next := run;
    } else {
      var before := AloneRuns(c, run, n - 1);
      next := Step1(c, before, Dispatch);
    }
  }

  /** Two tasks, of which the first depends on nothing, for one thread with one worker; there are no wishes. */
  ghost predicate OneSlot(c: Config, first: Outcome) {
    && ValidConfig(c) && |c.tasks| == 2 && c.labels == [None] && c.workersPerThread == 1
    && c.tasks[0] == Task(0, Root(first), [], [], None, [])
    && c.tasks[1].preferred.None? && c.tasks[1].notOn == []
  }

  /** The dispatcher has nothing to do, the first task has the only slot, and the second one is not submitted. */
  ghost predicate Unoccupied(c: Config, s: State) {
    && Shape(c, s) && |c.tasks| == 2 && |s.ws| == 1
    && s.d == Dispatcher([], false, [], [], DTop, {0}, {}, {})
    && s.mem.hist[1].place == Outside && s.mem.cells[1] == Cell(Pending, None, false, Unwaited, None, [])
    && s.mem.stolen == {} && s.mem.cancelled == {} && s.ws[0].free == 0
  }

  lemma FirstIsReceived(c: Config, first: Outcome) returns (run: seq<Step>)
    requires OneSlot(c, first)
    ensures
      var s := Exec(c, run);
      && s.mem == Move(Move(Init(c).mem, 0, Channel), 0, Held) && s.ws == Init(c).ws
      && s.d == Dispatcher([], false, [], [0], DNext, {0}, {}, {})
  {
    run := Step1(c, [], SubmitSend(0, 0, None));
    assert Exec(c, run).d == Dispatcher([0], false, [], [], DTop, {0}, {}, {});
    run := Step1(c, run, Dispatch);
  }

  lemma FirstIsSent(c: Config, first: Outcome) returns (run: seq<Step>)
    requires OneSlot(c, first)
    ensures
      var s := Exec(c, run);
      && Unoccupied(c, s)
      && s.mem == Move(Move(Move(Init(c).mem, 0, Channel), 0, Held), 0, Inbox(0))
      && s.ws[0] == Worker([0], [], [], WTop, 0, true, {}, 0)
  {
    run := FirstIsReceived(c, first);
    var s := Exec(c, run);
    assert DispatchAlone.Goes(c, s.mem, 0);
    var n := DispatchAlone.TaskDoes(c, s);
    assert DispatchAlone.Frees(s.ws) == [1];
    var task := DispatchAlone.Wish(c, s.mem, 0);
    OnlyThread(c.labels, [1], task);
    run := AloneRuns(c, run, n);
    assert Exec(c, run) == DispatchAlone.Placed(c, s);
    run := Step1(c, run, Dispatch);
  }

  lemma OnlyThread(labels: seq<Option<Label>>, free: seq<nat>, task: Task)
    requires labels == [None] && |free| == 1 && task.preferred.None? && task.notOn == []
    ensures Greedy.Target(labels, free, task) == Some(0)
  {
    assert NotExcluded(labels[0], task.notOn);
  }

  /** The worker has come to this point with the first task, and the memory is `m`. */
  ghost predicate At(c: Config, s: State, m: Mem, todo: seq<TaskId>, pc: WPc) {
    Unoccupied(c, s) && s.mem == m && s.ws[0] == Worker([], [], todo, pc, 0, true, {}, 0)
  }

  lemma FirstIsPolled(c: Config, first: Outcome) returns (run: seq<Step>, m: Mem)
    requires OneSlot(c, first)
    ensures At(c, Exec(c, run), m, [], WRun(0, first))
    ensures m.hist[0].stage == Called(first) && m.cells[0].state == Pending
  {
    run := FirstIsSent(c, first);
    m := Move(Exec(c, run).mem, 0, Futures(0));
    run := Step1(c, run, Work(0, true));
    assert At(c, Exec(c, run), m, [0], WNext);
    run := BodyIsCalled(c, first, run, m);
    m := Call(m, 0, None, first);
  }

  lemma BodyIsCalled(c: Config, first: Outcome, run: seq<Step>, m: Mem) returns (next: seq<Step>)
    requires ValidConfig(c) && At(c, Exec(c, run), m, [0], WNext)
    requires c.tasks[0].body == Root(first) && m.hist[0].stage == Idle
    ensures At(c, Exec(c, next), Call(m, 0, None, first), [], WRun(0, first))
  {
    next := Step1(c, run, Work(0, true));
  }

  /** The worker polls the first task, whose body panics, and writes that down; the slot is lost. */
  lemma FirstPanics(c: Config) returns (run: seq<Step>)
    requires OneSlot(c, Panics)
    ensures Unoccupied(c, Exec(c, run)) && Exec(c, run).mem.cells[0].state == Panicked
    ensures Exec(c, run).ws[0] == Worker([], [], [], WRetire(0, 0), 0, true, {}, 1)
  {
    var m;
    run, m := FirstIsPolled(c, Panics);
    run := Step1(c, run, Work(0, true));
    assert At(c, Exec(c, run), m, [], WPanic(0));
    run := Step1(c, run, Work(0, true));
  }

  /** The second task is submitted and received. */
  lemma SecondIsReceived(c: Config, f: Value -> Outcome) returns (run: seq<Step>)
    requires c == CrashConfig(f)
    ensures ValidConfig(c)
    ensures Exec(c, run).d.todo == [1] && Exec(c, run).d.pc.DNext? && Exec(c, run).mem.cells[0].state == Panicked
  {
    assert OneSlot(c, Panics);
    run := FirstPanics(c);
    run := Step1(c, run, SubmitSend(0, 1, None));
    assert Exec(c, run).d.channel == [1] && Exec(c, run).mem.cells[0].state == Panicked;
    run := Step1(c, run, Dispatch);
  }

  /** The dispatcher sees that the predecessor of the second task has panicked. */
  lemma PanicIsSeen(c: Config, f: Value -> Outcome) returns (run: seq<Step>)
    requires c == CrashConfig(f)
    ensures ValidConfig(c) && Exec(c, run).d.pc == DGetPanic(1)
  {
    run := SecondIsReceived(c, f);
    run := Step1(c, run, Dispatch);
    assert Exec(c, run).d.pc == DPanicCheck(1);
    run := Step1(c, run, Dispatch);
  }

  /** Such a run exists: a task panics, the dispatcher sees it when it looks at the continuation, the task is cancelled. */
  lemma DispatcherCrashes(f: Value -> Outcome) returns (run: seq<Step>)
    ensures ValidConfig(CrashConfig(f)) && Exec(CrashConfig(f), run).d.pc == DCrashed(1)
  {
    var c := CrashConfig(f);
    run := PanicIsSeen(c, f);
    run := Step1(c, run, Cancel(0));
    assert Exec(c, run).d.pc == DGetPanic(1);
    CrashesExactly(c, run);
    run := Step1(c, run, Dispatch);
  }
}
