/**
 * Every atomic change keeps the invariant of the memory, when the thread that makes it is where the code makes it, and
 * leaves alone what other threads rely on.
 */
module MemoryProof {
  import opened Tasks
  import opened Memory

  /** The step keeps the invariant, takes nothing back, and works on `t` only. */
  ghost predicate Sound(c: Config, m: Mem, m': Mem, t: TaskId) {
    && MemOk(c, m') && Rely(c, m, m') && Touches(c, m, m', t)
    && m'.cancelled == m.cancelled
    && (m.hist[t].place != Outside ==> m'.hist[t].place != Outside)
  }

  /** No task came in from outside, or went back, and none was cancelled from outside. */
  ghost predicate NoNews(c: Config, m: Mem, m': Mem) {
    && MemShape(c, m) && MemShape(c, m')
    && m'.cancelled == m.cancelled
    && (forall x: nat :: x < |c.tasks| ==> (m'.hist[x].place == Outside <==> m.hist[x].place == Outside))
  }

  ghost predicate At(c: Config, m: Mem, t: TaskId) {
    MemOk(c, m) && t < |c.tasks|
  }

  lemma MoveSound(c: Config, m: Mem, t: TaskId, place: Place)
    requires At(c, m, t)
    requires place.Channel? || place.Held? || place.Inbox? || place.Futures?
    requires m.hist[t].stage == Idle
    requires place.Inbox? || place.Futures? ==> Cleared(c, m, t)
    ensures Sound(c, m, Move(m, t, place), t)
  {
    var m' := Move(m, t, place);
    assert TaskOk(c, m, t);
    forall x: nat | x < |c.tasks| ensures TaskOk(c, m', x) {
      assert TaskOk(c, m, x);
    }
  }

  lemma RelaxSound(c: Config, m: Mem, t: TaskId)
    requires At(c, m, t)
    ensures Sound(c, m, Relax(m, t), t)
  {
    var m' := Relax(m, t);
    assert TaskOk(c, m, t);
    forall x: nat | x < |c.tasks| ensures TaskOk(c, m', x) {
      assert TaskOk(c, m, x);
    }
  }

  /** The dispatcher settles a task without running it. */
  lemma VerdictSound(c: Config, m: Mem, t: TaskId, st: TaskState)
    requires At(c, m, t)
    requires m.hist[t].place == Held && m.hist[t].stage == Idle
    requires (st == Panicked && Eval(c.tasks, t).Panics?) || (st == Cancelled && Tainted(c.tasks, m.cancelled, t))
    ensures Sound(c, m, WriteState(m, t, st, Firing(0)), t)
  {
    var m' := WriteState(m, t, st, Firing(0));
    assert TaskOk(c, m, t);
    forall x: nat | x < |c.tasks| ensures TaskOk(c, m', x) {
      assert TaskOk(c, m, x);
    }
  }

  lemma FireSemaphoreSound(c: Config, m: Mem, t: TaskId, k: nat)
    requires At(c, m, t)
    requires m.hist[t].stage == Firing(k) && k < |c.tasks[t].semaphores|
    ensures Sound(c, m, Fire(c, m, t, k), t)
  {
    var m' := Fire(c, m, t, k);
    var sems := c.tasks[t].semaphores;
    assert TaskOk(c, m, t);
    assert sems[..k] + [sems[k]] == sems[..k + 1];
    assert m'.hist[t].fired[k] == sems[k];
    forall x: nat | x < |c.tasks| ensures TaskOk(c, m', x) {
      assert TaskOk(c, m, x);
    }
    forall y | y in m'.sems ensures m'.sems[y] < |c.tasks| && y in m'.hist[m'.sems[y]].fired {
      assert y in m.sems ==> y in m.hist[m.sems[y]].fired;
    }
  }

  lemma FireSignalSound(c: Config, m: Mem, t: TaskId, k: nat)
    requires At(c, m, t)
    requires m.hist[t].stage == Firing(k) && k >= |c.tasks[t].semaphores|
    ensures Sound(c, m, Fire(c, m, t, k), t)
  {
    var m' := Fire(c, m, t, k);
    assert TaskOk(c, m, t);
    forall x: nat | x < |c.tasks| ensures TaskOk(c, m', x) {
      assert TaskOk(c, m, x);
    }
  }

  lemma FireSound(c: Config, m: Mem, t: TaskId, k: nat)
    requires At(c, m, t)
    requires m.hist[t].stage == Firing(k)
    ensures Sound(c, m, Fire(c, m, t, k), t)
  {
    if k < |c.tasks[t].semaphores| {
      FireSemaphoreSound(c, m, t, k);
    } else {
      FireSignalSound(c, m, t, k);
    }
  }

  lemma BeginWaitSound(c: Config, m: Mem, t: TaskId)
    requires At(c, m, t)
    requires m.hist[t].place.Futures? && m.hist[t].stage == Idle
    ensures Sound(c, m, SetStage(m, t, Waiting), t)
  {
    var m' := SetStage(m, t, Waiting);
    assert TaskOk(c, m, t);
    forall x: nat | x < |c.tasks| ensures TaskOk(c, m', x) {
      assert TaskOk(c, m, x);
    }
  }

  lemma CallSound(c: Config, m: Mem, t: TaskId, arg: Option<Value>, out: Outcome)
    requires At(c, m, t)
    requires m.hist[t].place.Futures? && (m.hist[t].stage == Idle || m.hist[t].stage == Waiting)
    requires
      match c.tasks[t].body
      case Root(o) => arg == None && out == o
      case Continuation(p, f) => arg.Some? && out == f(arg.value) && Eval(c.tasks, p) == Yields(arg.value)
    ensures Sound(c, m, Call(m, t, arg, out), t)
  {
    var m' := Call(m, t, arg, out);
    assert TaskOk(c, m, t);
    forall x: nat | x < |c.tasks| ensures TaskOk(c, m', x) {
      assert TaskOk(c, m, x);
    }
  }

  lemma FillSound(c: Config, m: Mem, t: TaskId, v: Value)
    requires At(c, m, t)
    requires m.hist[t].place.Futures? && m.hist[t].stage == Called(Yields(v))
    ensures Sound(c, m, Fill(m, t, v), t)
  {
    var m' := Fill(m, t, v);
    assert TaskOk(c, m, t);
    forall x: nat | x < |c.tasks| ensures TaskOk(c, m', x) {
      assert TaskOk(c, m, x);
    }
  }

  lemma SettleSound(c: Config, m: Mem, t: TaskId, st: TaskState)
    requires At(c, m, t)
    requires m.hist[t].place.Futures?
    requires
      match st
      case Ready => m.hist[t].stage == Filled
      case Panicked => m.hist[t].stage == Waiting && Eval(c.tasks, t).Panics?
      case Cancelled => m.hist[t].stage == Waiting && Tainted(c.tasks, m.cancelled, t)
      case Pending => false
    ensures Sound(c, m, WriteState(m, t, st, Settled), t)
  {
    var m' := WriteState(m, t, st, Settled);
    assert TaskOk(c, m, t);
    forall x: nat | x < |c.tasks| ensures TaskOk(c, m', x) {
      assert TaskOk(c, m, x);
    }
  }

  lemma AddSlotSound(c: Config, m: Mem, t: TaskId)
    requires At(c, m, t)
    requires m.hist[t].stage == Settled
    ensures Sound(c, m, SetStage(m, t, Firing(0)), t)
  {
    var m' := SetStage(m, t, Firing(0));
    assert TaskOk(c, m, t);
    forall x: nat | x < |c.tasks| ensures TaskOk(c, m', x) {
      assert TaskOk(c, m, x);
    }
  }

  lemma PanicSound(c: Config, m: Mem, t: TaskId)
    requires At(c, m, t)
    requires m.hist[t].place.Futures? && m.hist[t].stage == Called(Panics)
    ensures Sound(c, m, WriteState(m, t, Panicked, Firing(0)), t)
  {
    var m' := WriteState(m, t, Panicked, Firing(0));
    assert TaskOk(c, m, t);
    forall x: nat | x < |c.tasks| ensures TaskOk(c, m', x) {
      assert TaskOk(c, m, x);
    }
  }

  lemma DropSound(c: Config, m: Mem, t: TaskId)
    requires At(c, m, t)
    requires m.hist[t].place.Futures? && m.hist[t].stage.Called? && m.cells[t].state == Cancelled
    ensures Sound(c, m, SetStage(m, t, Firing(0)), t)
  {
    var m' := SetStage(m, t, Firing(0));
    assert TaskOk(c, m, t);
    forall x: nat | x < |c.tasks| ensures TaskOk(c, m', x) {
      assert TaskOk(c, m, x);
    }
  }

  /** `t` continues `p`, so the handle of `p` was moved into it. */
  ghost predicate Owns(c: Config, t: TaskId, p: TaskId) {
    t < |c.tasks| && HasPred(c.tasks[t]) && c.tasks[t].body.pred == p
  }

  /** The continuation of `p`, if there is one, has begun to wait; only then does anybody use the handle. */
  ghost predicate Usable(c: Config, m: Mem, p: TaskId) {
    At(c, m, p) && forall x: nat :: Owns(c, x, p) ==> m.hist[x].stage != Idle
  }

  /** The step keeps the invariant, takes nothing back, and uses the handle of `p` only. */
  ghost predicate SoundUse(c: Config, m: Mem, m': Mem, p: TaskId) {
    && MemOk(c, m') && Rely(c, m, m')
    && m'.hist == m.hist && m'.sems == m.sems && m'.cancelled == m.cancelled
    && (forall x: nat :: x < |c.tasks| && x != p ==> m'.cells[x].handle == m.cells[x].handle)
  }

  lemma WaitSound(c: Config, m: Mem, p: TaskId, signal: bool)
    requires Usable(c, m, p)
    requires m.cells[p].handle == Unwaited && m.cells[p].signal
    ensures SoundUse(c, m, SetCell(m, p, m.cells[p].(signal := signal, handle := Woken)), p)
  {
    var m' := SetCell(m, p, m.cells[p].(signal := signal, handle := Woken));
    assert TaskOk(c, m, p);
    forall x: nat | x < |c.tasks| ensures TaskOk(c, m', x) {
      assert TaskOk(c, m, x);
      assert Owns(c, x, p) ==> m.hist[x].stage != Idle;
    }
  }

  lemma AnswerSound(c: Config, m: Mem, p: TaskId, buffer: Option<Value>, handle: Handle)
    requires Usable(c, m, p)
    requires m.cells[p].handle == Woken || m.cells[p].handle == SawReady
    requires
      match handle
      case SawReady => m.cells[p].state == Ready && m.cells[p].handle == Woken && buffer == m.cells[p].buffer
      case Finished(Returned(v)) => m.cells[p].buffer == Some(v) && buffer == None
      case Finished(PanickedResult) => m.cells[p].state == Panicked && buffer == m.cells[p].buffer
      case Finished(CancelledResult) => m.cells[p].state == Cancelled && buffer == m.cells[p].buffer
      case _ => false
    ensures SoundUse(c, m, SetCell(m, p, m.cells[p].(buffer := buffer, handle := handle)), p)
  {
    var m' := SetCell(m, p, m.cells[p].(buffer := buffer, handle := handle));
    assert TaskOk(c, m, p);
    forall x: nat | x < |c.tasks| ensures TaskOk(c, m', x) {
      assert TaskOk(c, m, x);
      assert Owns(c, x, p) ==> m.hist[x].stage != Idle;
    }
  }

  /** `wait` never finds its task unfinished. */
  lemma ReadSound(c: Config, m: Mem, p: TaskId)
    requires Usable(c, m, p) && m.cells[p].handle == Woken
    ensures m.cells[p].state != Pending
    ensures SoundUse(c, m, ReadHandle(m, p), p)
  {
    assert TaskOk(c, m, p);
    match m.cells[p].state
    case Ready => AnswerSound(c, m, p, m.cells[p].buffer, SawReady);
    case Panicked => AnswerSound(c, m, p, m.cells[p].buffer, Finished(PanickedResult));
    case Cancelled => AnswerSound(c, m, p, m.cells[p].buffer, Finished(CancelledResult));
    case Pending =>
  }

  /** `wait` never finds a finished task without its value. */
  lemma TakeSound(c: Config, m: Mem, p: TaskId)
    requires Usable(c, m, p) && m.cells[p].handle == SawReady
    ensures m.cells[p].buffer.Some?
    ensures SoundUse(c, m, TakeHandle(m, p), p)
  {
    assert TaskOk(c, m, p);
    AnswerSound(c, m, p, None, Finished(Returned(m.cells[p].buffer.value)));
  }

  /** What a continuation does with its predecessor's handle is its own business. */
  lemma UseTouches(c: Config, m: Mem, m': Mem, p: TaskId, t: TaskId)
    requires SoundUse(c, m, m', p) && Owns(c, t, p)
    ensures Sound(c, m, m', t)
  {
  }

  lemma UsableByOwner(c: Config, m: Mem, p: TaskId, t: TaskId)
    requires At(c, m, p) && Owns(c, t, p) && m.hist[t].stage != Idle
    ensures Usable(c, m, p)
  {
    forall x: nat | Owns(c, x, p) ensures m.hist[x].stage != Idle {
      assert x == t;
    }
  }

  lemma UsableByUser(c: Config, m: Mem, p: TaskId)
    requires At(c, m, p) && forall x: nat :: !Owns(c, x, p)
    ensures Usable(c, m, p)
  {
  }

  lemma CancelSound(c: Config, m: Mem, t: TaskId)
    requires At(c, m, t)
    ensures MemOk(c, CancelTask(m, t)) && Rely(c, m, CancelTask(m, t))
  {
    var m' := CancelTask(m, t);
    forall x: nat | x < |c.tasks| ensures TaskOk(c, m', x) {
      assert TaskOk(c, m, x);
      if Tainted(c.tasks, m.cancelled, x) {
        TaintedGrows(c.tasks, m.cancelled, m'.cancelled, x);
      }
    }
  }

  lemma StealSound(c: Config, m: Mem, t: TaskId)
    requires At(c, m, t)
    ensures MemOk(c, StealSignal(m, t)) && Rely(c, m, StealSignal(m, t))
  {
    var m' := StealSignal(m, t);
    forall x: nat | x < |c.tasks| ensures TaskOk(c, m', x) {
      assert TaskOk(c, m, x);
    }
  }
}
