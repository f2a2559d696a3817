/** What a `wait` on a handle answers, and what becomes of the value of a task. */
module Answers {
  import opened Tasks
  import opened Memory
  import opened Protocol
  import opened ProtocolInvariant
  import ProtocolProof

  // ----- what a step does to a handle and to a value -----

  /** Where the look at the state leads a `wait`. */
  function AfterLook(state: TaskState): Handle {
    match state
    case Ready => SawReady
    case Panicked => Finished(PanickedResult)
    case Cancelled => Finished(CancelledResult)
    case Pending => Woken
  }

  /**
   * A `wait` consumes the signal, looks at the state once, and takes the value that the look promises. A value comes when
   * the function has returned it, and goes to the handle.
   */
  ghost predicate CellGoes(was: Cell, now: Cell, stage: Stage) {
    || (now.handle == was.handle && now.buffer == was.buffer)
    || (was.handle.Unwaited? && now.handle.Woken? && now.buffer == was.buffer)
    || (was.handle.Woken? && now.handle == AfterLook(was.state) && now.buffer == was.buffer)
    || (was.handle.SawReady? && was.buffer.Some? && now.handle == Finished(Returned(was.buffer.value)) && now.buffer.None?)
    || (stage.Called? && now.buffer.Some? && stage.out == Yields(now.buffer.value) && now.handle == was.handle)
  }

  ghost predicate SameAnswer(was: Cell, now: Cell) {
    now.handle == was.handle && now.buffer == was.buffer
  }

  lemma SettleCell(c: Config, s: State, t: TaskId)
    requires Shape(c, s) && (s.d.pc.DWrite? || s.d.pc.DRetire? || s.d.pc.DTarget?) && t < |c.tasks|
    ensures SameAnswer(s.mem.cells[t], DispatchStep(c, s).mem.cells[t])
  {
  }

  lemma DispatchCell(c: Config, s: State, t: TaskId)
    requires Shape(c, s) && t < |c.tasks|
    ensures SameAnswer(s.mem.cells[t], DispatchStep(c, s).mem.cells[t])
  {
    if s.d.pc.DWrite? || s.d.pc.DRetire? || s.d.pc.DTarget? {
      SettleCell(c, s, t);
    } else {
      assert DispatchStep(c, s).mem.cells == s.mem.cells;
    }
  }

  lemma PredCell(c: Config, m: Mem, w: nat, me: Worker, finish: bool, t: TaskId)
    requires MemShape(c, m) && WShape(c, me) && InPred(me.pc) && t < |c.tasks|
    requires me.pc.WPredWait? ==> m.cells[c.tasks[me.pc.t].body.pred].handle.Unwaited?
    requires me.pc.WPredTake? ==> m.cells[c.tasks[me.pc.t].body.pred].handle.SawReady?
    requires me.pc.WPredRead? ==> m.cells[c.tasks[me.pc.t].body.pred].handle.Woken?
    ensures CellGoes(m.cells[t], WorkerStep(c, m, w, me, finish).mem.cells[t], m.hist[t].stage)
  {
  }

  lemma OwnCell(c: Config, m: Mem, w: nat, me: Worker, finish: bool, t: TaskId)
    requires MemShape(c, m) && WShape(c, me) && !InPred(me.pc) && t < |c.tasks|
    requires me.pc.WFill? ==> m.hist[me.pc.t].stage == Called(Yields(me.pc.v))
    ensures CellGoes(m.cells[t], WorkerStep(c, m, w, me, finish).mem.cells[t], m.hist[t].stage)
  {
  }

  lemma OutsideCell(c: Config, s: State, step: Step, t: TaskId)
    requires Shape(c, s) && !step.Dispatch? && !step.Work? && t < |c.tasks|
    ensures CellGoes(s.mem.cells[t], OutsideStep(c, s, step).mem.cells[t], s.mem.hist[t].stage)
  {
  }

  lemma StepCell(c: Config, s: State, step: Step, t: TaskId) returns (was: Cell, now: Cell)
    requires Inv(c, s) && t < |c.tasks|
    ensures was == s.mem.cells[t] && now == Apply(c, s, step).mem.cells[t] && CellGoes(was, now, s.mem.hist[t].stage)
  {
    was, now := s.mem.cells[t], Apply(c, s, step).mem.cells[t];
    if step.Dispatch? {
      DispatchCell(c, s, t);
    } else if step.Work? {
      if step.w < |s.ws| {
        if InPred(s.ws[step.w].pc) {
          PredCell(c, s.mem, step.w, s.ws[step.w], step.finish, t);
        } else {
          OwnCell(c, s.mem, step.w, s.ws[step.w], step.finish, t);
        }
      }
    } else {
      OutsideCell(c, s, step, t);
    }
  }

  // ----- what a wait answers -----

  /** The handle has this answer, or will have it as soon as the value is taken, after a look at a task in this state. */
  predicate Tells(handle: Handle, state: TaskState) {
    match handle
    case SawReady => state == Ready
    case Finished(Returned(_)) => state == Ready
    case Finished(PanickedResult) => state == Panicked
    case Finished(CancelledResult) => state == Cancelled
    case _ => false
  }

  /** `at` has the cell of a task after each step of a run. */
  ghost predicate CellTrace(at: nat -> Cell, stage: nat -> Stage, n: nat) {
    at(0).handle.Unwaited? && forall k: nat :: k < n ==> CellGoes(at(k), at(k + 1), stage(k))
  }

  lemma {:induction false} SeenAt(at: nat -> Cell, stage: nat -> Stage, n: nat) returns (k: nat)
    requires CellTrace(at, stage, n) && (at(n).handle.SawReady? || at(n).handle.Finished?)
    ensures k < n && at(k).handle.Woken? && !at(k + 1).handle.Woken? && Tells(at(n).handle, at(k).state)
    decreases n
  {
    assert n > 0;
    assert CellGoes(at(n - 1), at(n - 1 + 1), stage(n - 1));
    if at(n - 1).handle.Woken? {
      k := n - 1;
    } else {
      k := SeenAt(at, stage, n - 1);
    }
  }

  /** The cell, and the stage, of a task after each step of a run. */
  ghost function Cells(c: Config, run: seq<Step>, t: TaskId): nat -> Cell
    requires ValidConfig(c) && t < |c.tasks|
  {
    (k: nat) => if k <= |run| then Exec(c, run[..k]).mem.cells[t] else Exec(c, run).mem.cells[t]
  }

  ghost function Stages(c: Config, run: seq<Step>, t: TaskId): nat -> Stage
    requires ValidConfig(c) && t < |c.tasks|
  {
    (k: nat) => if k <= |run| then Exec(c, run[..k]).mem.hist[t].stage else Idle
  }

  lemma CellsTrace(c: Config, run: seq<Step>, t: TaskId) returns (at: nat -> Cell, stage: nat -> Stage)
    requires ValidConfig(c) && t < |c.tasks|
    ensures at == Cells(c, run, t) && CellTrace(at, stage, |run|) && at(|run|) == Exec(c, run).mem.cells[t]
  {
    at, stage := Cells(c, run, t), Stages(c, run, t);
    assert run[..0] == [] && run[..|run|] == run;
    assert Exec(c, []) == Init(c);
    forall k: nat | k < |run| ensures CellGoes(at(k), at(k + 1), stage(k)) {
      var s, r := ProtocolProof.Onwards(c, [], run, k);
      assert [] + run[..k] == run[..k] && [] + run[..k + 1] == run[..k + 1];
      var was, now := StepCell(c, s, run[k], t);
    }
  }

  /**
   * In every run, a `wait` that has got beyond its look at the state answers by what it saw there: with the value exactly if
   * the task was Ready at that moment, with a panic exactly if it was Panicked, and as cancelled exactly if it was Cancelled.
   */
  lemma AnswerIsSeen(c: Config, run: seq<Step>, t: TaskId, at: nat -> Cell) returns (k: nat)
    requires ValidConfig(c) && t < |c.tasks| && at == Cells(c, run, t)
    requires at(|run|).handle.SawReady? || at(|run|).handle.Finished?
    ensures k < |run| && at(k).handle.Woken? && !at(k + 1).handle.Woken? && Tells(at(|run|).handle, at(k).state)
  {
    var same, stage := CellsTrace(c, run, t);
    k := SeenAt(at, stage, |run|);
  }

  /** The task has ended, it is cancelled, and no `wait` has looked at it before it was. */
  ghost predicate CancelStands(m: Mem, t: TaskId) {
    && t < |m.cells| == |m.hist|
    && Done(m.hist[t].stage) && m.cells[t].state == Cancelled
    && (m.cells[t].handle.Unwaited? || m.cells[t].handle.Woken? || m.cells[t].handle == Finished(CancelledResult))
  }

  lemma CancelStandsOn(c: Config, s: State, step: Step, t: TaskId)
    requires Inv(c, s) && CancelStands(s.mem, t)
    ensures CancelStands(Apply(c, s, step).mem, t)
  {
    ProtocolProof.StepInv(c, s, step);
    var was, now := StepCell(c, s, step, t);
    assert TaskOk(c, s.mem, t);
    assert LaterTask(s.mem, Apply(c, s, step).mem, t);
  }

  /**
   * A `cancel` of a task that has ended is never overlooked by a `wait` that has not looked yet: whatever happens
   * afterwards, it answers Cancelled, even if the task is there with a value.
   */
  lemma CancelIsAnswered(c: Config, run: seq<Step>, more: seq<Step>, t: TaskId)
    requires ValidConfig(c) && CancelStands(Exec(c, run).mem, t)
    ensures CancelStands(Exec(c, run + more).mem, t)
  {
    var holds := (s: State) => CancelStands(s.mem, t);
    forall s: State, step: Step | Inv(c, s) && holds(s) ensures holds(Apply(c, s, step)) {
      CancelStandsOn(c, s, step, t);
    }
    ProtocolProof.KeptOnwards(c, run, more, holds);
  }

  /** And such a `cancel` always takes effect. */
  lemma CancelTakesEffect(c: Config, run: seq<Step>, more: seq<Step>, t: TaskId)
    requires ValidConfig(c) && t < |c.tasks| && Done(Exec(c, run).mem.hist[t].stage)
    requires Exec(c, run).mem.cells[t].handle.Unwaited? || Exec(c, run).mem.cells[t].handle.Woken?
    ensures CancelStands(Exec(c, run + [Cancel(t)] + more).mem, t)
  {
    ExecNext(c, run, Cancel(t));
    CancelIsAnswered(c, run + [Cancel(t)], more, t);
  }

  // ----- what becomes of a value -----

  /** The value is with the task, or else with the one who waited for it, and not with both. */
  ghost predicate ValueIs(cell: Cell, v: Value) {
    || (cell.buffer == Some(v) && cell.handle != Finished(Returned(v)))
    || (cell.buffer == None && cell.handle == Finished(Returned(v)))
  }

  /** A `wait` that was answered with a value has taken it away from the task. */
  ghost predicate AnswerTook(cell: Cell) {
    cell.handle.Finished? && cell.handle.result.Returned? ==> cell.buffer.None?
  }

  ghost predicate ValueStands(m: Mem, t: TaskId, v: Value) {
    t < |m.cells| && ValueIs(m.cells[t], v)
  }

  ghost predicate TookStands(m: Mem, t: TaskId) {
    t < |m.cells| && AnswerTook(m.cells[t])
  }

  /** The function is not called a second time, so no second value comes. */
  ghost predicate Written(cell: Cell, stage: Stage) {
    stage.Called? ==> cell.buffer.None? && !cell.handle.Finished?
  }

  lemma ValueIsOn(was: Cell, now: Cell, stage: Stage, v: Value)
    requires CellGoes(was, now, stage) && Written(was, stage) && ValueIs(was, v)
    ensures ValueIs(now, v)
  {
  }

  lemma TookOn(was: Cell, now: Cell, stage: Stage)
    requires CellGoes(was, now, stage) && Written(was, stage) && AnswerTook(was)
    ensures AnswerTook(now)
  {
  }

  lemma CalledIsUnwritten(c: Config, m: Mem, t: TaskId)
    requires MemOk(c, m) && t < |c.tasks|
    ensures Written(m.cells[t], m.hist[t].stage)
  {
    assert TaskOk(c, m, t);
  }

  lemma AnswersTook(c: Config, run: seq<Step>, t: TaskId)
    requires ValidConfig(c) && t < |c.tasks|
    ensures AnswerTook(Exec(c, run).mem.cells[t])
  {
    var holds := (s: State) => TookStands(s.mem, t);
    forall s: State, step: Step | Inv(c, s) && holds(s) ensures holds(Apply(c, s, step)) {
      var was, now := StepCell(c, s, step, t);
      CalledIsUnwritten(c, s.mem, t);
      TookOn(was, now, s.mem.hist[t].stage);
    }
    assert Exec(c, []) == Init(c) && [] + run == run;
    ProtocolProof.KeptOnwards(c, [], run, holds);
  }

  /**
   * From the moment that a task has written its value down, in every run, the value is in exactly one place: with the task,
   * or with the one `wait` that was answered with it.
   */
  lemma ValueConserved(c: Config, run: seq<Step>, more: seq<Step>, t: TaskId, v: Value)
    requires ValidConfig(c) && t < |c.tasks| && Exec(c, run).mem.cells[t].buffer == Some(v)
    ensures ValueIs(Exec(c, run + more).mem.cells[t], v)
  {
    AnswersTook(c, run, t);
    var holds := (s: State) => ValueStands(s.mem, t, v);
    forall s: State, step: Step | Inv(c, s) && holds(s) ensures holds(Apply(c, s, step)) {
      var was, now := StepCell(c, s, step, t);
      CalledIsUnwritten(c, s.mem, t);
      ValueIsOn(was, now, s.mem.hist[t].stage, v);
    }
    ProtocolProof.KeptOnwards(c, run, more, holds);
  }
}
