/** The memory that the threads share about tasks, the atomic changes made to it, and the invariant it keeps. */
module Memory {
  import opened Tasks

  datatype Config = Config(tasks: seq<Task>, labels: seq<Option<Label>>, workersPerThread: nat)

  /** Where a task is. */
  datatype Place = Outside | Channel | Held | Inbox(w: nat) | Futures(w: nat) | Retired

  /**
   * How far a task has come: its future not polled, waiting for its predecessor, its function called, its
   * value stored, its state written, retiring (with `k` steps of retirement done), retired.
   */
  datatype Stage = Idle | Waiting | Called(out: Outcome) | Filled | Settled | Firing(k: nat) | Over

  /** The program point of `wait` on a handle: it consumes the signal, looks at the state, and takes the value. */
  datatype Handle = Unwaited | Woken | SawReady | Finished(result: TaskResult)

  /** What is shared about one task, and its placement wishes, which the dispatcher may relax. */
  datatype Cell = Cell(
    state: TaskState,
    buffer: Option<Value>,
    signal: bool,
    handle: Handle,
    preferred: Option<Label>,
    notOn: seq<Label>)

  /** What has happened to one task: the calls of its function, and the semaphores and signals fired for it. */
  datatype History = History(
    place: Place,
    stage: Stage,
    calls: seq<Option<Value>>,
    fired: seq<SemId>,
    ownWakes: nat,
    queueWakes: nat,
    relaxations: nat)

  /**
   * `sems` has the signalled semaphores, each with the task that signalled it last. `cancelled` and
   * `stolen` record the outside calls of `cancel` and of a competing `wait` on the signal of a task.
   * `broken` is set when a `wait` finds its task unfinished, or finished without a value.
   */
  datatype Mem = Mem(
    cells: seq<Cell>,
    hist: seq<History>,
    sems: map<SemId, TaskId>,
    retired: seq<TaskId>,
    cancelled: set<TaskId>,
    stolen: set<TaskId>,
    broken: bool)

  ghost predicate MemShape(c: Config, m: Mem) {
    WellFormed(c.tasks) && |m.cells| == |m.hist| == |c.tasks|
  }

  ghost function PredState(c: Config, m: Mem, t: TaskId): TaskState
    requires MemShape(c, m) && t < |c.tasks|
  {
    match c.tasks[t].body
    case Root(_) => Ready
    case Continuation(p, _) => m.cells[p].state
  }

  ghost predicate WaitsReady(c: Config, m: Mem, t: TaskId)
    requires t < |c.tasks|
  {
    forall i :: 0 <= i < |c.tasks[t].wait| ==> c.tasks[t].wait[i] in m.sems
  }

  ghost predicate CanExecute(c: Config, m: Mem, t: TaskId)
    requires MemShape(c, m) && t < |c.tasks|
  {
    WaitsReady(c, m, t) && PredState(c, m, t) != Pending
  }

  ghost function SetCell(m: Mem, t: TaskId, cell: Cell): Mem
    requires t < |m.cells|
  {
    m.(cells := m.cells[t := cell])
  }

  ghost function SetHist(m: Mem, t: TaskId, h: History): Mem
    requires t < |m.hist|
  {
    m.(hist := m.hist[t := h])
  }

  ghost function SetStage(m: Mem, t: TaskId, stage: Stage): Mem
    requires t < |m.hist|
  {
    SetHist(m, t, m.hist[t].(stage := stage))
  }

  ghost function Move(m: Mem, t: TaskId, place: Place): Mem
    requires t < |m.hist|
  {
    SetHist(m, t, m.hist[t].(place := place))
  }

  /** Give up the preferred thread if there is one, and the excluded threads otherwise. */
  ghost function Relax(m: Mem, t: TaskId): Mem
    requires t < |m.cells| == |m.hist|
  {
    var cell := m.cells[t];
    SetHist(SetCell(m, t, if cell.preferred.Some? then cell.(preferred := None) else cell.(notOn := [])), t,
            m.hist[t].(relaxations := m.hist[t].relaxations + 1))
  }

  /** Write the state of a task, and go on with it at the given stage. */
  ghost function WriteState(m: Mem, t: TaskId, st: TaskState, stage: Stage): Mem
    requires t < |m.cells| == |m.hist|
  {
    SetStage(SetCell(m, t, m.cells[t].(state := st)), t, stage)
  }

  ghost function Fill(m: Mem, t: TaskId, v: Value): Mem
    requires t < |m.cells| == |m.hist|
  {
    SetStage(SetCell(m, t, m.cells[t].(buffer := Some(v))), t, Filled)
  }

  ghost function Call(m: Mem, t: TaskId, arg: Option<Value>, out: Outcome): Mem
    requires t < |m.hist|
  {
    SetHist(m, t, m.hist[t].(calls := m.hist[t].calls + [arg], stage := Called(out)))
  }

  /** Step `k` of retiring `t`: signal its `k`th semaphore, then wake its own signal, then the queue's. */
  ghost function Fire(c: Config, m: Mem, t: TaskId, k: nat): Mem
    requires MemShape(c, m) && t < |c.tasks|
  {
    var sems := c.tasks[t].semaphores;
    var h := m.hist[t];
    if k < |sems| then
      SetHist(m.(sems := m.sems[sems[k] := t]), t, h.(fired := h.fired + [sems[k]], stage := Firing(k + 1)))
    else if k == |sems| then
      SetHist(SetCell(m, t, m.cells[t].(signal := true)), t, h.(ownWakes := h.ownWakes + 1, stage := Firing(k + 1)))
    else
      SetHist(m.(retired := m.retired + [t]), t, h.(queueWakes := h.queueWakes + 1, stage := Over, place := Retired))
  }

  ghost function Consume(m: Mem, p: TaskId): Mem
    requires p < |m.cells|
  {
    SetCell(m, p, m.cells[p].(signal := false, handle := Woken))
  }

  ghost function ReadHandle(m: Mem, p: TaskId): Mem
    requires p < |m.cells|
  {
    var cell := m.cells[p];
    match cell.state
    case Ready => SetCell(m, p, cell.(handle := SawReady))
    case Panicked => SetCell(m, p, cell.(handle := Finished(PanickedResult)))
    case Cancelled => SetCell(m, p, cell.(handle := Finished(CancelledResult)))
    case Pending => m.(broken := true)
  }

  ghost function TakeHandle(m: Mem, p: TaskId): Mem
    requires p < |m.cells|
  {
    match m.cells[p].buffer
    case Some(v) => SetCell(m, p, m.cells[p].(buffer := None, handle := Finished(Returned(v))))
    case None => m.(broken := true)
  }

  ghost function CancelTask(m: Mem, t: TaskId): Mem
    requires t < |m.cells|
  {
    SetCell(m, t, m.cells[t].(state := Cancelled)).(cancelled := m.cancelled + {t})
  }

  ghost function StealSignal(m: Mem, t: TaskId): Mem
    requires t < |m.cells|
  {
    SetCell(m, t, m.cells[t].(signal := false)).(stolen := m.stolen + {t})
  }

  // ----- the invariant of the memory -----

  /** The state of the task has been written for good; only an outside `cancel` can change it now. */
  predicate Done(stage: Stage) {
    stage.Settled? || stage.Firing? || stage.Over?
  }

  /** The calls made so far: none before the stage says so, one at most, and with the value of the predecessor. */
  ghost predicate CallsOk(c: Config, m: Mem, t: TaskId)
    requires MemShape(c, m) && t < |c.tasks|
  {
    var h := m.hist[t];
    && |h.calls| <= 1
    && (h.stage.Idle? || h.stage.Waiting? ==> h.calls == [])
    && (h.stage.Called? || h.stage.Filled? ==> |h.calls| == 1)
    && (h.stage.Called? ==> h.stage.out == Eval(c.tasks, t))
    && (h.calls != [] ==>
          match c.tasks[t].body
          case Root(_) => h.calls[0] == None
          case Continuation(p, _) => h.calls[0].Some? && Eval(c.tasks, p) == Yields(h.calls[0].value))
  }

  /** What has been fired for a task is what its stage says, in the order of its list. */
  ghost predicate FiredOk(c: Config, m: Mem, t: TaskId)
    requires MemShape(c, m) && t < |c.tasks|
  {
    var h := m.hist[t];
    var sems := c.tasks[t].semaphores;
    match h.stage
    case Firing(k) =>
      && k <= |sems| + 1
      && h.fired == sems[..if k <= |sems| then k else |sems|]
      && h.ownWakes == (if k <= |sems| then 0 else 1)
      && h.queueWakes == 0
    case Over => h.fired == sems && h.ownWakes == 1 && h.queueWakes == 1
    case _ => h.fired == [] && h.ownWakes == 0 && h.queueWakes == 0
  }

  /** The state and the value of a task agree with its stage and with its sequential meaning. */
  ghost predicate ResultOk(c: Config, m: Mem, t: TaskId)
    requires MemShape(c, m) && t < |c.tasks|
  {
    var cell := m.cells[t];
    var stage := m.hist[t].stage;
    && (Done(stage) ==> cell.state != Pending)
    && (!Done(stage) ==> cell.state == Pending || (cell.state == Cancelled && t in m.cancelled))
    && (cell.buffer.Some? ==> Eval(c.tasks, t) == Yields(cell.buffer.value))
    && (stage.Filled? ==> cell.buffer.Some?)
    && (cell.buffer.Some? ==> stage.Filled? || Done(stage))
    && (cell.state == Ready ==> Eval(c.tasks, t).Yields? && (cell.handle.Unwaited? || cell.handle.Woken? ==> cell.buffer.Some?))
    && (cell.state == Panicked ==> Eval(c.tasks, t).Panics?)
    && (cell.state == Cancelled ==> Tainted(c.tasks, m.cancelled, t))
  }

  /** The signal and the handle of a task. */
  ghost predicate HandleOk(c: Config, m: Mem, t: TaskId)
    requires MemShape(c, m) && t < |c.tasks|
  {
    var cell := m.cells[t];
    && (cell.signal || !cell.handle.Unwaited? ==> m.hist[t].ownWakes == 1)
    && (m.hist[t].ownWakes == 1 && cell.handle.Unwaited? && t !in m.stolen ==> cell.signal)
    && (cell.handle.SawReady? ==> cell.buffer.Some?)
    && (cell.handle.Finished? ==>
          match cell.handle.result
          case Returned(v) => Eval(c.tasks, t) == Yields(v)
          case PanickedResult => Eval(c.tasks, t).Panics?
          case CancelledResult => Tainted(c.tasks, m.cancelled, t))
  }

  /** Every semaphore the task waits for is signalled, and the task it continues is done. */
  ghost predicate Cleared(c: Config, m: Mem, t: TaskId)
    requires MemShape(c, m) && t < |c.tasks|
  {
    && WaitsReady(c, m, t)
    && (HasPred(c.tasks[t]) ==> Done(m.hist[c.tasks[t].body.pred].stage))
  }

  ghost predicate FlowOk(c: Config, m: Mem, t: TaskId)
    requires MemShape(c, m) && t < |c.tasks|
  {
    var h := m.hist[t];
    && (h.place.Outside? || h.place.Channel? || h.place.Inbox? ==> h.stage.Idle?)
    && (h.place.Held? ==> h.stage.Idle? || h.stage.Firing?)
    && (h.place.Retired? <==> h.stage.Over?)
    && (h.place.Inbox? || h.place.Futures? || h.calls != [] ==> Cleared(c, m, t))
    && (h.stage.Idle? && HasPred(c.tasks[t]) ==> m.cells[c.tasks[t].body.pred].handle.Unwaited?)
    && (forall i :: 0 <= i < |h.fired| ==> h.fired[i] in m.sems)
  }

  ghost predicate TaskOk(c: Config, m: Mem, t: TaskId)
    requires MemShape(c, m) && t < |c.tasks|
  {
    CallsOk(c, m, t) && FiredOk(c, m, t) && ResultOk(c, m, t) && HandleOk(c, m, t) && FlowOk(c, m, t)
  }

  ghost predicate MemOk(c: Config, m: Mem) {
    && MemShape(c, m)
    && !m.broken
    && (forall t: nat :: t < |c.tasks| ==> TaskOk(c, m, t))
    && (forall x :: x in m.sems ==> m.sems[x] < |c.tasks| && x in m.hist[m.sems[x]].fired)
  }

  // ----- what no step ever takes back -----

  ghost predicate Rely(c: Config, m: Mem, m': Mem) {
    && MemShape(c, m) && MemShape(c, m')
    && m.sems.Keys <= m'.sems.Keys
    && m.cancelled <= m'.cancelled
    && (forall t: nat :: t < |c.tasks| ==> LaterTask(m, m', t))
  }

  ghost predicate LaterTask(m: Mem, m': Mem, t: TaskId)
    requires t < |m.cells| == |m.hist| == |m'.cells| == |m'.hist|
  {
    && (Done(m.hist[t].stage) ==> Done(m'.hist[t].stage))
    && (m.cells[t].state != Pending ==> m'.cells[t].state != Pending)
    && (m.hist[t].ownWakes == 1 ==> m'.hist[t].ownWakes == 1)
    && (Done(m.hist[t].stage) && m'.cells[t].state != m.cells[t].state ==>
          m'.cells[t].state == Cancelled && t in m'.cancelled)
  }

  /** A step that works on `t` changes the history of no other task, and no handle but that of `t`'s predecessor. */
  ghost predicate Touches(c: Config, m: Mem, m': Mem, t: TaskId) {
    && MemShape(c, m) && MemShape(c, m') && t < |c.tasks|
    && (forall x: nat :: x < |c.tasks| && x != t ==> m'.hist[x] == m.hist[x])
    && (forall x: nat :: x < |c.tasks| && !(HasPred(c.tasks[t]) && x == c.tasks[t].body.pred) ==> m'.cells[x].handle == m.cells[x].handle)
  }

  /** What the thread that has `x` can count on while others move. */
  ghost predicate Same(c: Config, m: Mem, m': Mem, x: TaskId) {
    && MemShape(c, m) && MemShape(c, m') && x < |c.tasks|
    && m'.hist[x] == m.hist[x]
    && (HasPred(c.tasks[x]) ==> m'.cells[c.tasks[x].body.pred].handle == m.cells[c.tasks[x].body.pred].handle)
  }

  lemma TouchesSame(c: Config, m: Mem, m': Mem, t: TaskId)
    requires Touches(c, m, m', t)
    ensures forall x: nat :: x < |c.tasks| && x != t ==> Same(c, m, m', x)
  {
  }
}
