/** What every thread can rely on at its program point, and where every task is; both hold in every run. */
module ProtocolInvariant {
  import opened Tasks
  import opened Memory
  import opened MemoryProof
  import opened Protocol

  // ----- where the tasks are -----

  function DList(d: Dispatcher): seq<TaskId> {
    d.kept + (if DHolds(d.pc) then [d.pc.t] else []) + d.todo
  }

  function WList(me: Worker): seq<TaskId> {
    me.kept + (if WHolds(me.pc) then [me.pc.t] else []) + me.todo
  }

  /** The real lists: the channels, the dispatcher's list, the futures of the workers, and what has retired. */
  ghost function Contents(s: State, p: Place): seq<TaskId> {
    match p
    case Channel => s.d.channel
    case Held => DList(s.d)
    case Inbox(w) => if w < |s.ws| then s.ws[w].inbox else []
    case Futures(w) => if w < |s.ws| then WList(s.ws[w]) else []
    case Retired => s.mem.retired
    case Outside => []
  }

  ghost predicate IsPlace(c: Config, p: Place) {
    match p
    case Inbox(w) => w < |c.labels|
    case Futures(w) => w < |c.labels|
    case _ => true
  }

  /** The list of a place has exactly the tasks that are there, each of them once. */
  ghost predicate Exact(c: Config, s: State, p: Place)
    requires MemShape(c, s.mem)
  {
    && NoDup(Contents(s, p))
    && (forall t: nat :: t in Contents(s, p) <==> t < |c.tasks| && s.mem.hist[t].place == p)
  }

  ghost predicate ListsOk(c: Config, s: State)
    requires MemShape(c, s.mem)
  {
    && (forall t: nat :: t < |c.tasks| ==> IsPlace(c, s.mem.hist[t].place))
    && (forall p: Place :: IsPlace(c, p) && p != Outside ==> Exact(c, s, p))
  }

  // ----- what a thread knows at its program point -----

  /** The task continues one that panics, and so is never called itself. */
  ghost predicate Inherits(c: Config, t: TaskId)
    requires WellFormed(c.tasks) && t < |c.tasks|
  {
    HasPred(c.tasks[t]) && Eval(c.tasks, c.tasks[t].body.pred).Panics?
  }

  ghost predicate DKnows(c: Config, m: Mem, d: Dispatcher)
    requires MemShape(c, m) && DShape(c, d)
  {
    match d.pc
    case DPanicCheck(t) => m.hist[t].stage == Idle && CanExecute(c, m, t)
    case DGetPanic(t) => m.hist[t].stage == Idle && CanExecute(c, m, t)
    case DCrashed(t) => m.hist[t].stage == Idle && CanExecute(c, m, t)
    case DPredCheck(t) => m.hist[t].stage == Idle && CanExecute(c, m, t)
    case DSelfCheck(t) => m.hist[t].stage == Idle && CanExecute(c, m, t) && Cleared(c, m, t)
    case DFind(t) => m.hist[t].stage == Idle && CanExecute(c, m, t) && Cleared(c, m, t)
    case DScan(t, _, _, _) => m.hist[t].stage == Idle && CanExecute(c, m, t) && Cleared(c, m, t)
    case DTarget(t, _) => m.hist[t].stage == Idle && CanExecute(c, m, t) && Cleared(c, m, t)
    case DSend(t, _) => m.hist[t].stage == Idle && CanExecute(c, m, t) && Cleared(c, m, t)
    case DWrite(t, st) =>
      && m.hist[t].stage == Idle && CanExecute(c, m, t)
      && ((st == Panicked && Inherits(c, t)) || (st == Cancelled && Tainted(c.tasks, m.cancelled, t)))
    case DRetire(t, k) => m.hist[t].stage == Firing(k)
    case _ => true
  }

  ghost predicate DOk(c: Config, m: Mem, d: Dispatcher)
    requires MemShape(c, m) && DShape(c, d)
  {
    && (forall i :: 0 <= i < |d.kept| ==> m.hist[d.kept[i]].stage == Idle)
    && (forall i :: 0 <= i < |d.todo| ==> m.hist[d.todo[i]].stage == Idle)
    && DKnows(c, m, d)
  }

  ghost predicate WKnows(c: Config, m: Mem, me: Worker)
    requires MemShape(c, m) && WShape(c, me)
  {
    match me.pc
    case WPredWait(t) => m.hist[t].stage == Waiting && m.cells[c.tasks[t].body.pred].handle == Unwaited
    case WPredRead(t) => m.hist[t].stage == Waiting && m.cells[c.tasks[t].body.pred].handle == Woken
    case WPredTake(t) => m.hist[t].stage == Waiting && m.cells[c.tasks[t].body.pred].handle == SawReady
    case WMatch(t, res) =>
      var p := c.tasks[t].body.pred;
      && m.hist[t].stage == Waiting
      && m.cells[p].handle == Finished(res)
      && Done(m.hist[p].stage)
      && (res == CancelledResult ==> m.cells[p].state == Cancelled)
      && (res == PanickedResult ==> m.cells[p].state == Panicked || m.cells[p].state == Cancelled)
    case WRun(t, out) => m.hist[t].stage == Called(out)
    case WPending(t) => m.hist[t].stage.Called?
    case WFill(t, v) => m.hist[t].stage == Called(Yields(v))
    case WWrite(t, st) =>
      (match st
       case Ready => m.hist[t].stage == Filled
       case Panicked => m.hist[t].stage == Waiting && Inherits(c, t)
       case Cancelled => m.hist[t].stage == Waiting && Tainted(c.tasks, m.cancelled, t)
       case Pending => false)
    case WAdd(t) => m.hist[t].stage == Settled
    case WPanic(t) => m.hist[t].stage == Called(Panics)
    case WRetire(t, k) => m.hist[t].stage == Firing(k)
    case _ => true
  }

  ghost predicate WOk(c: Config, m: Mem, me: Worker)
    requires MemShape(c, m) && WShape(c, me)
  {
    && (forall i :: 0 <= i < |me.kept| ==> m.hist[me.kept[i]].stage.Idle? || m.hist[me.kept[i]].stage.Called?)
    && (forall i :: 0 <= i < |me.todo| ==> m.hist[me.todo[i]].stage.Idle? || m.hist[me.todo[i]].stage.Called?)
    && WKnows(c, m, me)
  }

  ghost predicate Inv(c: Config, s: State) {
    && Shape(c, s)
    && MemOk(c, s.mem)
    && ListsOk(c, s)
    && DOk(c, s.mem, s.d)
    && (forall w :: 0 <= w < |s.ws| ==> WOk(c, s.mem, s.ws[w]))
  }

  // ----- others cannot disturb it -----

  lemma DFrame(c: Config, m: Mem, m': Mem, d: Dispatcher)
    requires MemShape(c, m) && DShape(c, d) && DOk(c, m, d)
    requires Rely(c, m, m')
    requires forall i :: 0 <= i < |DList(d)| ==> DList(d)[i] < |c.tasks| && Same(c, m, m', DList(d)[i])
    ensures DOk(c, m', d)
  {
    var l := DList(d);
    assert forall i :: 0 <= i < |d.kept| ==> l[i] == d.kept[i];
    assert forall i :: 0 <= i < |d.todo| ==> l[|l| - |d.todo| + i] == d.todo[i];
    if DHolds(d.pc) {
      assert l[|d.kept|] == d.pc.t;
      assert LaterTask(m, m', d.pc.t);
      if HasPred(c.tasks[d.pc.t]) {
        assert LaterTask(m, m', c.tasks[d.pc.t].body.pred);
      }
      if Tainted(c.tasks, m.cancelled, d.pc.t) {
        TaintedGrows(c.tasks, m.cancelled, m'.cancelled, d.pc.t);
      }
    }
  }

  lemma WFrame(c: Config, m: Mem, m': Mem, me: Worker)
    requires MemShape(c, m) && WShape(c, me) && WOk(c, m, me)
    requires Rely(c, m, m')
    requires forall i :: 0 <= i < |WList(me)| ==> WList(me)[i] < |c.tasks| && Same(c, m, m', WList(me)[i])
    ensures WOk(c, m', me)
  {
    var l := WList(me);
    assert forall i :: 0 <= i < |me.kept| ==> l[i] == me.kept[i];
    assert forall i :: 0 <= i < |me.todo| ==> l[|l| - |me.todo| + i] == me.todo[i];
    if WHolds(me.pc) {
      assert l[|me.kept|] == me.pc.t;
      if HasPred(c.tasks[me.pc.t]) {
        assert LaterTask(m, m', c.tasks[me.pc.t].body.pred);
      }
      if Tainted(c.tasks, m.cancelled, me.pc.t) {
        TaintedGrows(c.tasks, m.cancelled, m'.cancelled, me.pc.t);
      }
    }
  }
}
