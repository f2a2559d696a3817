/** The queue, its threads and everybody who shares state with them; one step is one access to shared memory. */
module Protocol {
  import opened Tasks
  import opened Memory

  /** The number of values of the `u32` slot counters. */
  const U32: nat := 0x1_0000_0000

  /** `fetch_add(1)` and `fetch_sub(1)` on a `u32` wrap around. */
  function FetchAdd(x: nat): nat {
    if x + 1 == U32 then 0 else x + 1
  }

  function FetchSub(x: nat): nat {
    if x == 0 then U32 - 1 else x - 1
  }

  ghost predicate ValidConfig(c: Config) {
    WellFormed(c.tasks) && |c.labels| > 0 && c.workersPerThread < U32
  }

  /** The program counter of the dispatcher; `best` is the thread that a scan has chosen so far. */
  datatype DPc =
    | DTop
    | DNext
    | DPanicCheck(t: TaskId)
    | DGetPanic(t: TaskId)
    | DPredCheck(t: TaskId)
    | DSelfCheck(t: TaskId)
    | DWrite(t: TaskId, st: TaskState)
    | DRetire(t: TaskId, k: nat)
    | DFind(t: TaskId)
    | DScan(t: TaskId, i: nat, best: Option<nat>, key: nat)
    | DTarget(t: TaskId, target: Option<nat>)
    | DSend(t: TaskId, w: nat)
    | DSub(w: nat)
    | DWakeWorker(w: nat)
    | DWait
    | DCrashed(t: TaskId)

  /** The program counter of a worker thread, inside the body of the future that it polls included. */
  datatype WPc =
    | WTop
    | WNext
    | WPredWait(t: TaskId)
    | WPredRead(t: TaskId)
    | WPredTake(t: TaskId)
    | WMatch(t: TaskId, res: TaskResult)
    | WRun(t: TaskId, out: Outcome)
    | WFill(t: TaskId, v: Value)
    | WWrite(t: TaskId, st: TaskState)
    | WAdd(t: TaskId)
    | WPanic(t: TaskId)
    | WPending(t: TaskId)
    | WRetire(t: TaskId, k: nat)
    | WWait

  /**
   * The dispatcher's list is `kept`, then the task in its hands if there is one, then `todo`. `owing` holds
   * the submitters that have sent a task and not yet woken the queue, `relaxed` the tasks relaxed in this pass, and
   * `unseen` the tasks that were cancelled, or whose predecessor was, since the dispatcher last began to look at them.
   */
  datatype Dispatcher = Dispatcher(
    channel: seq<TaskId>,
    flag: bool,
    kept: seq<TaskId>,
    todo: seq<TaskId>,
    pc: DPc,
    owing: set<nat>,
    relaxed: set<TaskId>,
    unseen: set<TaskId>)

  /**
   * The futures are `kept`, then the polled one if there is one, then `todo`. `called` holds the tasks whose
   * waker was called since their last poll began, and `lost` counts the slots that are never given back.
   */
  datatype Worker = Worker(
    inbox: seq<TaskId>,
    kept: seq<TaskId>,
    todo: seq<TaskId>,
    pc: WPc,
    free: nat,
    flag: bool,
    called: set<TaskId>,
    lost: nat)

  datatype State = State(mem: Mem, d: Dispatcher, ws: seq<Worker>)

  /** `Work` moves a worker; with `finish` a poll of a called function is its last, without it gives Pending. */
  datatype Step =
    | SubmitSend(u: nat, t: TaskId, on: Option<Label>)
    | SubmitWake(u: nat)
    | Cancel(t: TaskId)
    | Steal(t: TaskId)
    | UserWait(t: TaskId)
    | UserWaitAsync(t: TaskId)
    | UserRead(t: TaskId)
    | UserTake(t: TaskId)
    | CallWaker(w: nat, t: TaskId)
    | Dispatch
    | Work(w: nat, finish: bool)

  // ----- shape -----

  predicate Ids(c: Config, s: seq<TaskId>) {
    forall i :: 0 <= i < |s| ==> s[i] < |c.tasks|
  }

  /** The dispatcher holds the task `pc.t` in its hands. */
  predicate DHolds(pc: DPc) {
    !(pc.DTop? || pc.DNext? || pc.DSub? || pc.DWakeWorker? || pc.DWait?)
  }

  /** The worker is polling or retiring the task `pc.t`. */
  predicate WHolds(pc: WPc) {
    !(pc.WTop? || pc.WNext? || pc.WWait?)
  }

  /** The worker executes the head of a continuation, up to the call of its function. */
  predicate InPred(pc: WPc) {
    pc.WPredWait? || pc.WPredRead? || pc.WPredTake? || pc.WMatch?
  }

  /** The worker executes a future that has called its function, or writes down its result. */
  predicate InRun(pc: WPc) {
    pc.WRun? || pc.WFill? || pc.WWrite? || pc.WAdd? || pc.WPanic?
  }

  ghost predicate DShape(c: Config, d: Dispatcher) {
    var pc := d.pc;
    && Ids(c, d.channel) && Ids(c, d.kept) && Ids(c, d.todo)
    && (DHolds(pc) ==> pc.t < |c.tasks|)
    && (pc.DScan? ==> pc.i <= |c.labels| && (pc.best.Some? ==> pc.best.value < |c.labels|))
    && (pc.DTarget? && pc.target.Some? ==> pc.target.value < |c.labels|)
    && (pc.DSend? || pc.DSub? || pc.DWakeWorker? ==> pc.w < |c.labels|)
    && (pc.DTop? ==> d.kept == [])
    && (pc.DWait? ==> d.todo == [])
  }

  ghost predicate WShape(c: Config, me: Worker) {
    && Ids(c, me.inbox) && Ids(c, me.kept) && Ids(c, me.todo)
    && (WHolds(me.pc) ==> me.pc.t < |c.tasks|)
    && (InPred(me.pc) ==> HasPred(c.tasks[me.pc.t]))
    && (me.pc.WTop? ==> me.kept == [])
    && (me.pc.WWait? ==> me.todo == [])
  }

  ghost predicate Shape(c: Config, s: State) {
    && ValidConfig(c)
    && MemShape(c, s.mem)
    && DShape(c, s.d)
    && |s.ws| == |c.labels|
    && (forall w :: 0 <= w < |s.ws| ==> WShape(c, s.ws[w]))
  }

  // ----- placement -----

  /** The first thread from `i` on that carries the label. */
  function FindLabel(labels: seq<Option<Label>>, name: Label, i: nat): (r: Option<nat>)
    requires i <= |labels|
    ensures r.Some? ==> i <= r.value < |labels| && labels[r.value] == Some(name)
    ensures r.None? <==> forall j :: i <= j < |labels| ==> labels[j] != Some(name)
    ensures r.Some? ==> forall j :: i <= j < r.value ==> labels[j] != Some(name)
    decreases |labels| - i
  {
    if i == |labels| then None
    else if labels[i] == Some(name) then Some(i)
    else FindLabel(labels, name, i + 1)
  }

  predicate NotExcluded(name: Option<Label>, notOn: seq<Label>) {
    name.Some? ==> name.value !in notOn
  }

  // ----- the dispatcher -----

  ghost function SetDPc(s: State, pc: DPc): State {
    s.(d := s.d.(pc := pc))
  }

  /** The task in hand goes to the kept ones. */
  ghost function Keep(d: Dispatcher, t: TaskId): Dispatcher {
    d.(pc := DNext, kept := d.kept + [t])
  }

  /** Receive one task when the list is empty, and all that the channel has when it is not. */
  ghost function DTopStep(c: Config, s: State): (r: State)
    requires Shape(c, s) && s.d.pc.DTop?
    ensures Shape(c, r)
  {
    var d := s.d;
    if d.channel == [] then
      if d.todo == [] then s else s.(d := d.(pc := DNext, relaxed := {}))
    else
      var t := d.channel[0];
      var d1 := d.(channel := d.channel[1..], todo := d.todo + [t]);
      State(Move(s.mem, t, Held), if d.todo == [] then d1.(pc := DNext, relaxed := {}) else d1, s.ws)
  }

  ghost function DNextStep(c: Config, s: State): (r: State)
    requires Shape(c, s) && s.d.pc.DNext?
    ensures Shape(c, r)
  {
    var d := s.d;
    if d.todo == [] then
      SetDPc(s, if d.kept == [] then DTop else DWait)
    else
      var t := d.todo[0];
      var d1 := d.(todo := d.todo[1..], unseen := d.unseen - {t});
      if CanExecute(c, s.mem, t) then s.(d := d1.(pc := DPanicCheck(t))) else s.(d := Keep(d1, t))
  }

  ghost function DRetireStep(c: Config, s: State, t: TaskId, k: nat): (r: State)
    requires Shape(c, s) && t < |c.tasks|
    ensures Shape(c, r)
  {
    var last := k > |c.tasks[t].semaphores|;
    var d := s.d;
    State(Fire(c, s.mem, t, k), if last then d.(flag := true, pc := DNext) else d.(pc := DRetire(t, k + 1)), s.ws)
  }

  /** One comparison of `max_by_key`, which prefers the later thread among equals. */
  ghost function DScanStep(c: Config, s: State, t: TaskId, i: nat, best: Option<nat>, key: nat): (r: State)
    requires Shape(c, s) && s.d.pc == DScan(t, i, best, key)
    ensures Shape(c, r)
  {
    if i == |c.labels| then SetDPc(s, DTarget(t, best))
    else if NotExcluded(c.labels[i], s.mem.cells[t].notOn) && (best.None? || s.ws[i].free >= key) then
      SetDPc(s, DScan(t, i + 1, Some(i), s.ws[i].free))
    else SetDPc(s, DScan(t, i + 1, best, key))
  }

  ghost function DTargetStep(c: Config, s: State, t: TaskId, target: Option<nat>): (r: State)
    requires Shape(c, s) && t < |c.tasks| && (target.Some? ==> target.value < |c.labels|)
    ensures Shape(c, r)
  {
    match target
    case Some(w) => if s.ws[w].free > 0 then SetDPc(s, DSend(t, w)) else s.(d := Keep(s.d, t))
    case None => State(Relax(s.mem, t), Keep(s.d, t).(relaxed := s.d.relaxed + {t}), s.ws)
  }

  ghost function DSendStep(c: Config, s: State, t: TaskId, w: nat): (r: State)
    requires Shape(c, s) && t < |c.tasks| && w < |c.labels|
    ensures Shape(c, r)
  {
    State(Move(s.mem, t, Inbox(w)), s.d.(pc := DSub(w)), s.ws[w := s.ws[w].(inbox := s.ws[w].inbox + [t])])
  }

  ghost function DispatchStep(c: Config, s: State): (r: State)
    requires Shape(c, s)
    ensures Shape(c, r)
  {
    match s.d.pc
    case DTop => DTopStep(c, s)
    case DNext => DNextStep(c, s)
    case DPanicCheck(t) => SetDPc(s, if PredState(c, s.mem, t) == Panicked then DGetPanic(t) else DPredCheck(t))
    case DGetPanic(t) => SetDPc(s, if PredState(c, s.mem, t) == Panicked then DWrite(t, Panicked) else DCrashed(t))
    case DPredCheck(t) => SetDPc(s, if PredState(c, s.mem, t) == Cancelled then DWrite(t, Cancelled) else DSelfCheck(t))
    case DSelfCheck(t) => SetDPc(s, if s.mem.cells[t].state == Cancelled then DWrite(t, Cancelled) else DFind(t))
    case DWrite(t, st) => State(WriteState(s.mem, t, st, Firing(0)), s.d.(pc := DRetire(t, 0)), s.ws)
    case DRetire(t, k) => DRetireStep(c, s, t, k)
    case DFind(t) =>
      var wish := s.mem.cells[t].preferred;
      SetDPc(s, if wish.Some? then DTarget(t, FindLabel(c.labels, wish.value, 0)) else DScan(t, 0, None, 0))
    case DScan(t, i, best, key) => DScanStep(c, s, t, i, best, key)
    case DTarget(t, target) => DTargetStep(c, s, t, target)
    case DSend(t, w) => DSendStep(c, s, t, w)
    case DSub(w) =>
      State(s.mem, s.d.(pc := DWakeWorker(w)), s.ws[w := s.ws[w].(free := FetchSub(s.ws[w].free))])
    case DWakeWorker(w) => State(s.mem, s.d.(pc := DNext), s.ws[w := s.ws[w].(flag := true)])
    case DWait => if s.d.flag then s.(d := s.d.(flag := false, pc := DTop, todo := s.d.kept, kept := [])) else s
    case DCrashed(_) => s
  }

  // ----- a worker -----

  /** What one step of a worker makes of the memory and of the worker; `queue` says that it woke the queue. */
  datatype Worked = Worked(mem: Mem, me: Worker, queue: bool)

  ghost function WTopStep(c: Config, m: Mem, w: nat, me: Worker): (r: Worked)
    requires MemShape(c, m) && WShape(c, me) && me.pc.WTop?
    ensures MemShape(c, r.mem) && WShape(c, r.me)
  {
    if me.inbox == [] then Worked(m, if me.todo == [] then me else me.(pc := WNext), false)
    else
      var t := me.inbox[0];
      Worked(Move(m, t, Futures(w)),
             me.(inbox := me.inbox[1..], todo := me.todo + [t], pc := if me.todo == [] then WNext else WTop), false)
  }

  /** Poll the next future, or end the pass. A poll goes on where the future stopped. */
  ghost function WNextStep(c: Config, m: Mem, me: Worker): (r: Worked)
    requires MemShape(c, m) && WShape(c, me) && me.pc.WNext?
    ensures MemShape(c, r.mem) && WShape(c, r.me)
  {
    if me.todo == [] then
      if me.kept != [] && me.inbox == [] then Worked(m, me.(pc := WWait), false)
      else Worked(m, me.(pc := WTop, todo := me.kept, kept := []), false)
    else
      var t := me.todo[0];
      var me1 := me.(todo := me.todo[1..], called := me.called - {t});
      if m.hist[t].stage.Called? then Worked(m, me1.(pc := WRun(t, m.hist[t].stage.out)), false)
      else
        match c.tasks[t].body
        case Root(out) => Worked(Call(m, t, None, out), me1.(pc := WRun(t, out)), false)
        case Continuation(_, _) => Worked(SetStage(m, t, Waiting), me1.(pc := WPredWait(t)), false)
  }

  ghost function WPredReadStep(c: Config, m: Mem, me: Worker, t: TaskId, p: TaskId): (r: Worked)
    requires MemShape(c, m) && WShape(c, me) && p < |c.tasks| && me.pc == WPredRead(t)
    ensures MemShape(c, r.mem) && WShape(c, r.me)
  {
    Worked(ReadHandle(m, p),
           me.(pc := match m.cells[p].state
               case Ready => WPredTake(t)
               case Panicked => WMatch(t, PanickedResult)
               case Cancelled => WMatch(t, CancelledResult)
               case Pending => WPanic(t)), false)
  }

  ghost function WPredTakeStep(c: Config, m: Mem, me: Worker, t: TaskId, p: TaskId): (r: Worked)
    requires MemShape(c, m) && WShape(c, me) && p < |c.tasks| && me.pc == WPredTake(t)
    ensures MemShape(c, r.mem) && WShape(c, r.me)
  {
    Worked(TakeHandle(m, p),
           me.(pc := match m.cells[p].buffer
               case Some(v) => WMatch(t, Returned(v))
               case None => WPanic(t)), false)
  }

  /** A continuation looks at its predecessor's state a second time, with the result that `wait` gave it. */
  ghost function WMatchStep(c: Config, m: Mem, me: Worker, t: TaskId, res: TaskResult): (r: Worked)
    requires MemShape(c, m) && WShape(c, me) && t < |c.tasks| && HasPred(c.tasks[t]) && me.pc == WMatch(t, res)
    ensures MemShape(c, r.mem) && WShape(c, r.me)
  {
    var Continuation(p, f) := c.tasks[t].body;
    match m.cells[p].state
    case Ready =>
      if res.Returned? then
        Worked(Call(m, t, Some(res.value), f(res.value)), me.(pc := WRun(t, f(res.value))), false)
      else Worked(SetStage(m, t, Settled), me.(pc := WAdd(t)), false)
    case Panicked => Worked(m, me.(pc := WWrite(t, Panicked)), false)
    case Cancelled => Worked(m, me.(pc := WWrite(t, Cancelled)), false)
    case Pending => Worked(m, me.(pc := WWrite(t, Cancelled)), false)
  }

  ghost function WRetireStep(c: Config, m: Mem, me: Worker, t: TaskId, k: nat): (r: Worked)
    requires MemShape(c, m) && WShape(c, me) && t < |c.tasks| && me.pc == WRetire(t, k)
    ensures MemShape(c, r.mem) && WShape(c, r.me)
  {
    var last := k > |c.tasks[t].semaphores|;
    Worked(Fire(c, m, t, k), me.(pc := if last then WNext else WRetire(t, k + 1)), last)
  }

  ghost function WorkerStep(c: Config, m: Mem, w: nat, me: Worker, finish: bool): (r: Worked)
    requires MemShape(c, m) && WShape(c, me)
    ensures MemShape(c, r.mem) && WShape(c, r.me)
  {
    match me.pc
    case WTop => WTopStep(c, m, w, me)
    case WNext => WNextStep(c, m, me)
    case WPredWait(t) =>
      var p := c.tasks[t].body.pred;
      if m.cells[p].signal then
        Worked(SetCell(m, p, m.cells[p].(signal := false, handle := Woken)), me.(pc := WPredRead(t)), false)
      else Worked(m, me, false)
    case WPredRead(t) => WPredReadStep(c, m, me, t, c.tasks[t].body.pred)
    case WPredTake(t) => WPredTakeStep(c, m, me, t, c.tasks[t].body.pred)
    case WMatch(t, res) => WMatchStep(c, m, me, t, res)
    case WRun(t, out) =>
      Worked(m, me.(pc := if !finish then WPending(t) else match out case Yields(v) => WFill(t, v) case Panics => WPanic(t)), false)
    case WFill(t, v) => Worked(Fill(m, t, v), me.(pc := WWrite(t, Ready)), false)
    case WWrite(t, st) => Worked(WriteState(m, t, st, Settled), me.(pc := WAdd(t)), false)
    case WAdd(t) => Worked(SetStage(m, t, Firing(0)), me.(free := FetchAdd(me.free), pc := WRetire(t, 0)), false)
    case WPanic(t) => Worked(WriteState(m, t, Panicked, Firing(0)), me.(lost := me.lost + 1, pc := WRetire(t, 0)), false)
    case WPending(t) =>
      if m.cells[t].state == Cancelled then
        Worked(SetStage(m, t, Firing(0)), me.(lost := me.lost + 1, pc := WRetire(t, 0)), false)
      else Worked(m, me.(kept := me.kept + [t], pc := WNext), false)
    case WRetire(t, k) => WRetireStep(c, m, me, t, k)
    case WWait =>
      Worked(m, if me.flag then me.(flag := false, pc := WTop, todo := me.kept, kept := []) else me, false)
  }

  ghost function WorkStep(c: Config, s: State, w: nat, finish: bool): (r: State)
    requires Shape(c, s) && w < |s.ws|
    ensures Shape(c, r)
  {
    var r := WorkerStep(c, s.mem, w, s.ws[w], finish);
    State(r.mem, if r.queue then s.d.(flag := true) else s.d, s.ws[w := r.me])
  }

  // ----- everybody else, and runs -----

  /** The handle of `t` was moved into a continuation, so no user can wait on it. */
  ghost predicate HandleMoved(c: Config, t: TaskId) {
    exists u :: 0 <= u < |c.tasks| && HasPred(c.tasks[u]) && c.tasks[u].body.pred == t
  }

  /** The state of `x` is one that the dispatcher looks at when it looks at `u`. */
  predicate Concerns(c: Config, x: TaskId, u: TaskId)
    requires u < |c.tasks|
  {
    u == x || (HasPred(c.tasks[u]) && c.tasks[u].body.pred == x)
  }

  /** A step that is not enabled leaves the state as it is. */
  ghost function OutsideStep(c: Config, s: State, step: Step): (r: State)
    requires Shape(c, s) && !step.Dispatch? && !step.Work?
    ensures Shape(c, r)
  {
    var m := s.mem;
    match step
    case SubmitSend(u, t, on) =>
      if t < |c.tasks| && m.hist[t].place == Outside then
        var m1 := if on.Some? then SetCell(m, t, m.cells[t].(preferred := on)) else m;
        State(Move(m1, t, Channel), s.d.(channel := s.d.channel + [t], owing := s.d.owing + {u}), s.ws)
      else s
    case SubmitWake(u) =>
      if u in s.d.owing then s.(d := s.d.(flag := true, owing := s.d.owing - {u})) else s
    case Cancel(t) =>
      if t < |c.tasks| then
        s.(mem := CancelTask(m, t),
           d := s.d.(unseen := s.d.unseen + (set u: TaskId | u < |c.tasks| && Concerns(c, t, u))))
      else s
    case Steal(t) => if t < |c.tasks| && m.cells[t].signal then s.(mem := StealSignal(m, t)) else s
    case UserWait(t) =>
      if t < |c.tasks| && !HandleMoved(c, t) && m.cells[t].handle == Unwaited && m.cells[t].signal then
        s.(mem := SetCell(m, t, m.cells[t].(signal := false, handle := Woken)))
      else s
    case UserWaitAsync(t) =>
      if t < |c.tasks| && !HandleMoved(c, t) && m.cells[t].handle == Unwaited && m.cells[t].signal then
        s.(mem := SetCell(m, t, m.cells[t].(signal := true, handle := Woken)))
      else s
    case UserRead(t) =>
      if t < |c.tasks| && !HandleMoved(c, t) && m.cells[t].handle == Woken then s.(mem := ReadHandle(m, t)) else s
    case UserTake(t) =>
      if t < |c.tasks| && !HandleMoved(c, t) && m.cells[t].handle == SawReady then s.(mem := TakeHandle(m, t)) else s
    case CallWaker(w, t) =>
      if w < |s.ws| then s.(ws := s.ws[w := s.ws[w].(flag := true, called := s.ws[w].called + {t})]) else s
  }

  ghost function Apply(c: Config, s: State, step: Step): (r: State)
    requires Shape(c, s)
    ensures Shape(c, r)
  {
    match step
    case Dispatch => DispatchStep(c, s)
    case Work(w, finish) => if w < |s.ws| then WorkStep(c, s, w, finish) else s
    case _ => OutsideStep(c, s, step)
  }

  ghost function Init(c: Config): State {
    State(
      Mem(seq(|c.tasks|, i requires 0 <= i < |c.tasks| =>
            Cell(Pending, None, false, Unwaited, c.tasks[i].preferred, c.tasks[i].notOn)),
          seq(|c.tasks|, i => History(Outside, Idle, [], [], 0, 0, 0)),
          map[], [], {}, {}, false),
      Dispatcher([], false, [], [], DTop, {}, {}, {}),
      seq(|c.labels|, i => Worker([], [], [], WTop, c.workersPerThread, false, {}, 0)))
  }

  lemma InitShape(c: Config)
    requires ValidConfig(c)
    ensures Shape(c, Init(c))
  {
  }

  /** The state after a run: any steps, in any order. */
  ghost function Exec(c: Config, run: seq<Step>): (s: State)
    requires ValidConfig(c)
    ensures Shape(c, s)
    decreases |run|, 1
  {
    if run == [] then
      InitShape(c);
      Init(c)
    else
      Onward(c, run)
  }

  ghost function Onward(c: Config, run: seq<Step>): (s: State)
    requires ValidConfig(c) && run != []
    ensures Shape(c, s)
    decreases |run|, 0
  {
    Apply(c, Exec(c, run[..|run| - 1]), run[|run| - 1])
  }

  lemma ExecLast(c: Config, run: seq<Step>)
    requires ValidConfig(c) && run != []
    ensures Exec(c, run) == Apply(c, Exec(c, run[..|run| - 1]), run[|run| - 1])
  {
    assert Exec(c, run) == Onward(c, run);
  }

  lemma ExecNext(c: Config, run: seq<Step>, step: Step)
    requires ValidConfig(c)
    ensures Exec(c, run + [step]) == Apply(c, Exec(c, run), step)
  {
    assert (run + [step])[..|run|] == run;
    ExecLast(c, run + [step]);
  }
}
