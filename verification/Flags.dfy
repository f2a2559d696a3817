/** When the flag of a task's signal is up, which is what fences and `is_done` of controllers show. */
module Flags {
  import opened Tasks
  import opened Memory
  import opened Protocol
  import opened ProtocolInvariant
  import ProtocolProof

  /** The step wakes the signal of `t`, as part of retiring it. */
  ghost predicate Wakes(c: Config, s: State, step: Step, t: TaskId)
    requires t < |c.tasks|
  {
    var k := |c.tasks[t].semaphores|;
    || (step.Dispatch? && s.d.pc == DRetire(t, k))
    || (step.Work? && step.w < |s.ws| && s.ws[step.w].pc == WRetire(t, k))
  }

  /** The step is a blocking `wait` on the signal: of a controller or a fence, of the handle, or of the continuation. */
  ghost predicate Consumes(c: Config, s: State, step: Step, t: TaskId)
    requires Shape(c, s) && t < |c.tasks|
  {
    || step == Steal(t)
    || (step == UserWait(t) && !HandleMoved(c, t) && s.mem.cells[t].handle == Unwaited)
    || (step.Work? && step.w < |s.ws| && s.ws[step.w].pc.WPredWait? && c.tasks[s.ws[step.w].pc.t].body.pred == t)
  }

  ghost predicate FlagGoes(was: bool, now: bool, wakes: bool, consumes: bool) {
    now <==> wakes || (was && !consumes)
  }

  lemma DispatchFlag(c: Config, s: State, t: TaskId)
    requires Shape(c, s) && t < |c.tasks|
    ensures FlagGoes(s.mem.cells[t].signal, DispatchStep(c, s).mem.cells[t].signal, Wakes(c, s, Dispatch, t), false)
  {
    if s.d.pc.DWrite? || s.d.pc.DRetire? || s.d.pc.DTarget? {
      SettleFlag(c, s, t);
    } else {
      assert DispatchStep(c, s).mem.cells == s.mem.cells;
    }
  }

  lemma SettleFlag(c: Config, s: State, t: TaskId)
    requires Shape(c, s) && t < |c.tasks| && (s.d.pc.DWrite? || s.d.pc.DRetire? || s.d.pc.DTarget?)
    ensures FlagGoes(s.mem.cells[t].signal, DispatchStep(c, s).mem.cells[t].signal, Wakes(c, s, Dispatch, t), false)
  {
  }

  lemma WorkFlag(c: Config, m: Mem, w: nat, me: Worker, finish: bool, t: TaskId)
    requires MemShape(c, m) && WShape(c, me) && t < |c.tasks|
    ensures
      FlagGoes(m.cells[t].signal, WorkerStep(c, m, w, me, finish).mem.cells[t].signal,
               me.pc == WRetire(t, |c.tasks[t].semaphores|), me.pc.WPredWait? && c.tasks[me.pc.t].body.pred == t)
  {
    if InPred(me.pc) {
      PredFlag(c, m, w, me, finish, t);
    } else if InRun(me.pc) || me.pc.WPending? {
      RunFlag(c, m, w, me, finish, t);
    }
  }

  lemma PredFlag(c: Config, m: Mem, w: nat, me: Worker, finish: bool, t: TaskId)
    requires MemShape(c, m) && WShape(c, me) && t < |c.tasks| && InPred(me.pc)
    ensures
      FlagGoes(m.cells[t].signal, WorkerStep(c, m, w, me, finish).mem.cells[t].signal,
               false, me.pc.WPredWait? && c.tasks[me.pc.t].body.pred == t)
  {
  }

  lemma RunFlag(c: Config, m: Mem, w: nat, me: Worker, finish: bool, t: TaskId)
    requires MemShape(c, m) && WShape(c, me) && t < |c.tasks| && (InRun(me.pc) || me.pc.WPending?)
    ensures WorkerStep(c, m, w, me, finish).mem.cells[t].signal == m.cells[t].signal
  {
  }

  lemma OutsideFlag(c: Config, s: State, step: Step, t: TaskId)
    requires Shape(c, s) && !step.Dispatch? && !step.Work? && t < |c.tasks|
    ensures FlagGoes(s.mem.cells[t].signal, OutsideStep(c, s, step).mem.cells[t].signal, false, Consumes(c, s, step, t))
  {
  }

  /** The flag goes up with the wake of its task, and down with a blocking `wait`; nothing else moves it. */
  lemma StepFlag(c: Config, s: State, step: Step, t: TaskId)
    requires Shape(c, s) && t < |c.tasks|
    ensures
      FlagGoes(s.mem.cells[t].signal, Apply(c, s, step).mem.cells[t].signal, Wakes(c, s, step, t), Consumes(c, s, step, t))
  {
    if step.Dispatch? {
      DispatchFlag(c, s, t);
    } else if step.Work? {
      if step.w < |s.ws| {
        WorkFlag(c, s.mem, step.w, s.ws[step.w], step.finish, t);
      }
    } else {
      OutsideFlag(c, s, step, t);
    }
  }

  // ----- whole runs -----

  ghost predicate WokenAt(c: Config, run: seq<Step>, k: nat, t: TaskId)
    requires ValidConfig(c) && t < |c.tasks|
  {
    k < |run| && Wakes(c, Exec(c, run[..k]), run[k], t)
  }

  ghost predicate ConsumedAt(c: Config, run: seq<Step>, k: nat, t: TaskId)
    requires ValidConfig(c) && t < |c.tasks|
  {
    k < |run| && Consumes(c, Exec(c, run[..k]), run[k], t)
  }

  /** A wake before step `n`, and no consumption since. */
  ghost predicate UpSince(wakes: nat -> bool, consumes: nat -> bool, n: nat, k: nat) {
    k < n && wakes(k) && forall j: nat :: k < j < n ==> !consumes(j)
  }

  lemma {:induction false} UpIfWoken(up: nat -> bool, wakes: nat -> bool, consumes: nat -> bool, n: nat)
    requires !up(0) && forall k: nat :: k < n ==> FlagGoes(up(k), up(k + 1), wakes(k), consumes(k))
    ensures up(n) <==> exists k: nat :: UpSince(wakes, consumes, n, k)
    decreases n
  {
    if n > 0 {
      UpIfWoken(up, wakes, consumes, n - 1);
      assert FlagGoes(up(n - 1), up(n - 1 + 1), wakes(n - 1), consumes(n - 1));
      LastWake(wakes, consumes, n - 1, n);
    }
  }

  lemma LastWake(wakes: nat -> bool, consumes: nat -> bool, n: nat, next: nat)
    requires next == n + 1
    ensures
      (exists k: nat :: UpSince(wakes, consumes, next, k)) <==>
      wakes(n) || ((exists k: nat :: UpSince(wakes, consumes, n, k)) && !consumes(n))
  {
    if wakes(n) {
      assert UpSince(wakes, consumes, next, n);
    } else if k: nat :| UpSince(wakes, consumes, next, k) {
      assert k < n < next && !consumes(n);
      assert UpSince(wakes, consumes, n, k);
    }
    if !consumes(n) {
      if k: nat :| UpSince(wakes, consumes, n, k) {
        assert UpSince(wakes, consumes, next, k);
      }
    }
  }

  /** The wakes and the consumptions of the run, by step. */
  ghost function WakesOf(c: Config, run: seq<Step>, t: TaskId): nat -> bool
    requires ValidConfig(c) && t < |c.tasks|
  {
    (k: nat) => WokenAt(c, run, k, t)
  }

  ghost function ConsumptionsOf(c: Config, run: seq<Step>, t: TaskId): nat -> bool
    requires ValidConfig(c) && t < |c.tasks|
  {
    (k: nat) => ConsumedAt(c, run, k, t)
  }

  lemma FlagAt(c: Config, run: seq<Step>, k: nat, t: TaskId) returns (s: State, r: State)
    requires ValidConfig(c) && t < |c.tasks| && k < |run|
    ensures s == Exec(c, run[..k]) && r == Exec(c, run[..k + 1])
    ensures FlagGoes(s.mem.cells[t].signal, r.mem.cells[t].signal, WokenAt(c, run, k, t), ConsumedAt(c, run, k, t))
  {
    s, r := ProtocolProof.Onwards(c, [], run, k);
    assert [] + run[..k] == run[..k] && [] + run[..k + 1] == run[..k + 1];
    StepFlag(c, s, run[k], t);
  }

  /**
   * In every run the flag of a task's signal is up exactly if the task has woken it and nobody has since waited for it: a fence
   * on the task is open, and its controllers show it as done, until the first such `wait`. `wait_async` leaves the flag up.
   */
  lemma FlagIsUp(c: Config, run: seq<Step>, t: TaskId, wakes: nat -> bool, consumes: nat -> bool)
    requires ValidConfig(c) && t < |c.tasks|
    requires wakes == WakesOf(c, run, t) && consumes == ConsumptionsOf(c, run, t)
    ensures Exec(c, run).mem.cells[t].signal <==> exists k: nat :: UpSince(wakes, consumes, |run|, k)
  {
    var up := (k: nat) => if k <= |run| then Exec(c, run[..k]).mem.cells[t].signal else false;
    assert run[..0] == [] && run[..|run|] == run;
    assert Exec(c, []) == Init(c);
    forall k: nat | k < |run| ensures FlagGoes(up(k), up(k + 1), wakes(k), consumes(k)) {
      var s, r := FlagAt(c, run, k, t);
    }
    UpIfWoken(up, wakes, consumes, |run|);
  }
}
