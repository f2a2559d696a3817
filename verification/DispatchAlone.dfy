/**
 * The dispatcher of the protocol, left alone for a pass, does what `Greedy.PlaceEach` says, whatever the tasks of the
 * pass are: step by step, task by task, and then as a whole.
 */
module DispatchAlone {
  import opened Tasks
  import opened Memory
  import opened Protocol
  import opened Greedy

  /** `n` times `f`. */
  ghost function Iterate<S>(f: S -> S, s: S, n: nat): S {
    if n == 0 then s else f(Iterate(f, s, n - 1))
  }

  lemma {:induction false} IterateMore<S>(f: S -> S, s: S, n: nat, m: nat)
    ensures Iterate(f, s, n + m) == Iterate(f, Iterate(f, s, n), m)
    decreases m
  {
    if m > 0 {
      IterateMore(f, s, n, m - 1);
    }
  }

  lemma IterateOnce<S>(f: S -> S, s: S)
    ensures Iterate(f, s, 1) == f(s)
  {
    assert Iterate(f, s, 0) == s;
  }

  ghost function Turn(c: Config): State -> State {
    s => if Shape(c, s) then DispatchStep(c, s) else s
  }

  /** The dispatcher takes `n` steps, and nobody else takes any. */
  ghost function Alone(c: Config, s: State, n: nat): State {
    Iterate(Turn(c), s, n)
  }

  lemma AloneMore(c: Config, s: State, n: nat, m: nat)
    ensures Alone(c, s, n + m) == Alone(c, Alone(c, s, n), m)
  {
    IterateMore(Turn(c), s, n, m);
  }

  lemma AloneThen(c: Config, s: State, n: nat, r: State, m: nat) returns (sum: nat)
    requires Alone(c, s, n) == r
    ensures Alone(c, s, sum) == Alone(c, r, m)
  {
    sum := n + m;
    AloneMore(c, s, n, m);
  }

  lemma AloneOnce(c: Config, s: State)
    requires Shape(c, s)
    ensures Alone(c, s, 1) == DispatchStep(c, s) && Shape(c, Alone(c, s, 1))
  {
    IterateOnce(Turn(c), s);
  }

  ghost function Frees(ws: seq<Worker>): seq<nat> {
    seq(|ws|, w requires 0 <= w < |ws| => ws[w].free)
  }

  /** The task with the wishes that are left of it. */
  ghost function Wish(c: Config, m: Mem, t: TaskId): Task
    requires MemShape(c, m) && t < |c.tasks|
  {
    c.tasks[t].(preferred := m.cells[t].preferred, notOn := m.cells[t].notOn)
  }

  /** The task can execute, and nothing speaks against sending it. */
  ghost predicate Goes(c: Config, m: Mem, t: TaskId) {
    && MemShape(c, m) && t < |c.tasks|
    && CanExecute(c, m, t)
    && PredState(c, m, t) != Panicked && PredState(c, m, t) != Cancelled && m.cells[t].state != Cancelled
  }

  // ----- one task -----

  /** The scan of `max_by_key` has come to thread `i`. */
  ghost predicate Scanned(c: Config, s: State, t: TaskId, i: nat) {
    && Shape(c, s) && t < |c.tasks| && i <= |c.labels| && s.mem.cells[t].preferred.None?
    && s.d.pc.DScan? && s.d.pc.t == t && s.d.pc.i == i
    && s.d.pc.best == MostFree(c.labels, Frees(s.ws), Wish(c, s.mem, t), i)
    && (s.d.pc.best.Some? ==> s.d.pc.key == s.ws[s.d.pc.best.value].free)
  }

  lemma ScanOne(c: Config, s: State, t: TaskId, i: nat)
    requires Scanned(c, s, t, i) && i < |c.labels|
    ensures Scanned(c, DispatchStep(c, s), t, i + 1)
    ensures DispatchStep(c, s) == SetDPc(s, DispatchStep(c, s).d.pc)
  {
    var next := DispatchStep(c, s);
    assert next == DScanStep(c, s, t, i, s.d.pc.best, s.d.pc.key);
    assert Frees(next.ws) == Frees(s.ws) && Wish(c, next.mem, t) == Wish(c, s.mem, t);
  }

  lemma ScanEnds(c: Config, s: State, t: TaskId)
    requires Scanned(c, s, t, |c.labels|)
    ensures Alone(c, s, 1) == SetDPc(s, DTarget(t, MostFree(c.labels, Frees(s.ws), Wish(c, s.mem, t), |c.labels|)))
  {
    AloneOnce(c, s);
  }

  lemma {:induction false} ScanDoes(c: Config, s: State, t: TaskId, i: nat) returns (n: nat)
    requires Scanned(c, s, t, i)
    ensures
      Alone(c, s, n) == SetDPc(s, DTarget(t, MostFree(c.labels, Frees(s.ws), Wish(c, s.mem, t), |c.labels|)))
    decreases |c.labels| - i
  {
    if i == |c.labels| {
      ScanEnds(c, s, t);
      n := 1;
    } else {
      AloneOnce(c, s);
      ScanOne(c, s, t, i);
      var next := SetDPc(s, DispatchStep(c, s).d.pc);
      var rest := ScanDoes(c, next, t, i + 1);
      n := AloneThen(c, s, 1, next, rest);
    }
  }

  lemma FindOne(c: Config, s: State, t: TaskId)
    requires Shape(c, s) && s.d.pc == DFind(t)
    ensures
      var wish := s.mem.cells[t].preferred;
      Alone(c, s, 1) ==
      SetDPc(s, if wish.Some? then DTarget(t, FindLabel(c.labels, wish.value, 0)) else DScan(t, 0, None, 0))
    ensures Shape(c, Alone(c, s, 1))
  {
    AloneOnce(c, s);
  }

  lemma FindDoes(c: Config, s: State, t: TaskId) returns (n: nat)
    requires Shape(c, s) && s.d.pc == DFind(t)
    ensures Alone(c, s, n) == SetDPc(s, DTarget(t, Target(c.labels, Frees(s.ws), Wish(c, s.mem, t))))
  {
    FindOne(c, s, t);
    n := 1;
    if s.mem.cells[t].preferred.None? {
      var scanning := SetDPc(s, DScan(t, 0, None, 0));
      var scan := ScanDoes(c, scanning, t, 0);
      n := AloneThen(c, s, 1, scanning, scan);
    }
  }

  /** Two, three and four steps, one by one. */
  lemma AloneTwice(c: Config, s: State, s1: State, s2: State)
    requires Shape(c, s) && s1 == DispatchStep(c, s) && s2 == DispatchStep(c, s1)
    ensures Alone(c, s, 2) == s2
  {
    AloneOnce(c, s);
    AloneOnce(c, s1);
    AloneMore(c, s, 1, 1);
  }

  lemma AloneFourTimes(c: Config, s: State, s1: State, s2: State, s3: State, s4: State)
    requires Shape(c, s) && s1 == DispatchStep(c, s) && s2 == DispatchStep(c, s1)
    requires s3 == DispatchStep(c, s2) && s4 == DispatchStep(c, s3)
    ensures Alone(c, s, 4) == s4
  {
    AloneTwice(c, s, s1, s2);
    AloneTwice(c, s2, s3, s4);
    AloneMore(c, s, 2, 2);
  }

  lemma ChecksDo(c: Config, s: State) returns (n: nat)
    requires Shape(c, s) && s.d.pc.DNext? && s.d.todo != [] && Goes(c, s.mem, s.d.todo[0])
    ensures Alone(c, s, n) == InHand(s, DFind(s.d.todo[0])) && Shape(c, InHand(s, DFind(s.d.todo[0])))
  {
    var s1 := DispatchStep(c, s);
    var s2 := DispatchStep(c, s1);
    var s3 := DispatchStep(c, s2);
    AloneFourTimes(c, s, s1, s2, s3, DispatchStep(c, s3));
    n := 4;
  }

  /** The task in hand is sent, kept or relaxed. */
  ghost function Targeted(c: Config, s: State, t: TaskId, target: Option<nat>): State
    requires Shape(c, s) && t < |c.tasks| && (target.Some? ==> target.value < |c.labels|)
  {
    match target
    case Some(w) =>
      if s.ws[w].free > 0 then
        State(Move(s.mem, t, Inbox(w)), s.d.(pc := DNext),
              s.ws[w := s.ws[w].(inbox := s.ws[w].inbox + [t], free := s.ws[w].free - 1, flag := true)])
      else s.(d := Keep(s.d, t))
    case None => State(Relax(s.mem, t), Keep(s.d, t).(relaxed := s.d.relaxed + {t}), s.ws)
  }

  ghost function InHand(s: State, pc: DPc): State
    requires s.d.todo != []
  {
    s.(d := s.d.(todo := s.d.todo[1..], pc := pc, unseen := s.d.unseen - {s.d.todo[0]}))
  }

  /** So is the task that a pass looks at next. */
  ghost function Placed(c: Config, s: State): State
    requires Shape(c, s) && s.d.todo != []
  {
    var t := s.d.todo[0];
    Targeted(c, InHand(s, DNext), t, Target(c.labels, Frees(s.ws), Wish(c, s.mem, t)))
  }

  lemma SendDoes(c: Config, s: State, t: TaskId, w: nat)
    requires Shape(c, s) && s.d.pc == DTarget(t, Some(w)) && s.ws[w].free > 0
    ensures Alone(c, s, 4) == Targeted(c, s, t, Some(w))
  {
    var s1 := DispatchStep(c, s);
    assert s1 == SetDPc(s, DSend(t, w));
    var s2 := DispatchStep(c, s1);
    assert s2 == DSendStep(c, s1, t, w);
    var s3 := DispatchStep(c, s2);
    assert s3.ws == s2.ws[w := s2.ws[w].(free := s.ws[w].free - 1)];
    AloneFourTimes(c, s, s1, s2, s3, DispatchStep(c, s3));
  }

  lemma TargetDoes(c: Config, s: State, t: TaskId, target: Option<nat>) returns (n: nat)
    requires Shape(c, s) && s.d.pc == DTarget(t, target)
    ensures Alone(c, s, n) == Targeted(c, s, t, target)
  {
    if target.Some? && s.ws[target.value].free > 0 {
      SendDoes(c, s, t, target.value);
      n := 4;
    } else {
      AloneOnce(c, s);
      n := 1;
    }
  }

  lemma {:induction false} AloneShape(c: Config, s: State, n: nat)
    requires Shape(c, s)
    ensures Shape(c, Alone(c, s, n))
    decreases n
  {
    if n > 0 {
      AloneShape(c, s, n - 1);
    }
  }

  lemma PlacedShape(c: Config, s: State, n: nat)
    requires Shape(c, s) && s.d.todo != [] && s.d.todo[0] < |c.tasks| && Alone(c, s, n) == Placed(c, s)
    ensures Shape(c, Placed(c, s))
  {
    AloneShape(c, s, n);
  }

  lemma TaskDoes(c: Config, s: State) returns (n: nat)
    requires Shape(c, s) && s.d.pc.DNext? && s.d.todo != [] && Goes(c, s.mem, s.d.todo[0])
    ensures Alone(c, s, n) == Placed(c, s) && Shape(c, Placed(c, s))
  {
    var t := s.d.todo[0];
    var s1 := InHand(s, DFind(t));
    var checks := ChecksDo(c, s);
    var rest := FindThenTarget(c, s1, t);
    n := AloneThen(c, s, checks, s1, rest);
    assert SetDPc(s1, DNext) == InHand(s, DNext);
    PlacedShape(c, s, n);
  }

  lemma FindThenTarget(c: Config, s: State, t: TaskId) returns (n: nat)
    requires Shape(c, s) && s.d.pc == DFind(t)
    ensures
      Alone(c, s, n) ==
      Targeted(c, SetDPc(s, DNext), t, Target(c.labels, Frees(s.ws), Wish(c, s.mem, t)))
  {
    var find := FindDoes(c, s, t);
    var found := Target(c.labels, Frees(s.ws), Wish(c, s.mem, t));
    var s2 := SetDPc(s, DTarget(t, found));
    var target := TargetDoes(c, s2, t, found);
    n := AloneThen(c, s, find, s2, target);
  }

  // ----- a task that the dispatcher settles itself -----

  /** The rest of the retirement of `t`, from step `k` on. */
  ghost function RetireFrom(c: Config, m: Mem, t: TaskId, k: nat): (r: Mem)
    requires MemShape(c, m) && t < |c.tasks|
    ensures MemShape(c, r)
    decreases |c.tasks[t].semaphores| + 1 - k
  {
    if k > |c.tasks[t].semaphores| then Fire(c, m, t, k) else RetireFrom(c, Fire(c, m, t, k), t, k + 1)
  }

  ghost function RetiredBy(c: Config, s: State, t: TaskId, k: nat): State
    requires Shape(c, s) && t < |c.tasks|
  {
    State(RetireFrom(c, s.mem, t, k), s.d.(flag := true, pc := DNext), s.ws)
  }

  lemma RetireOnce(c: Config, s: State, t: TaskId, k: nat) returns (next: State)
    requires Shape(c, s) && s.d.pc == DRetire(t, k)
    ensures Shape(c, next) && Alone(c, s, 1) == next && next.mem == Fire(c, s.mem, t, k) && next.ws == s.ws
    ensures
      next.d == if k > |c.tasks[t].semaphores| then s.d.(flag := true, pc := DNext) else s.d.(pc := DRetire(t, k + 1))
  {
    AloneOnce(c, s);
    next := DRetireStep(c, s, t, k);
  }

  lemma {:induction false} RetireDoes(c: Config, s: State, t: TaskId, k: nat) returns (n: nat)
    requires Shape(c, s) && s.d.pc == DRetire(t, k)
    ensures Alone(c, s, n) == RetiredBy(c, s, t, k)
    decreases |c.tasks[t].semaphores| + 1 - k
  {
    var next := RetireOnce(c, s, t, k);
    if k > |c.tasks[t].semaphores| {
      n := 1;
    } else {
      var rest := RetireDoes(c, next, t, k + 1);
      n := AloneThen(c, s, 1, next, rest);
    }
  }

  /** The state that the dispatcher gives to a task that it settles. */
  ghost function Settlement(c: Config, m: Mem, t: TaskId): TaskState
    requires MemShape(c, m) && t < |c.tasks|
  {
    if PredState(c, m, t) == Panicked then Panicked else Cancelled
  }

  /** The task can execute, but is settled instead. */
  ghost predicate IsSettled(c: Config, m: Mem, t: TaskId) {
    && MemShape(c, m) && t < |c.tasks|
    && CanExecute(c, m, t)
    && (PredState(c, m, t) == Panicked || PredState(c, m, t) == Cancelled || m.cells[t].state == Cancelled)
  }

  lemma PanicDoes(c: Config, s: State, t: TaskId) returns (n: nat)
    requires Shape(c, s) && s.d.pc == DPanicCheck(t) && PredState(c, s.mem, t) == Panicked
    ensures Alone(c, s, n) == SetDPc(s, DWrite(t, Panicked))
  {
    AloneTwice(c, s, SetDPc(s, DGetPanic(t)), SetDPc(s, DWrite(t, Panicked)));
    n := 2;
  }

  lemma CancelDoes(c: Config, s: State, t: TaskId) returns (n: nat)
    requires Shape(c, s) && s.d.pc == DPanicCheck(t) && PredState(c, s.mem, t) != Panicked
    requires PredState(c, s.mem, t) == Cancelled || s.mem.cells[t].state == Cancelled
    ensures Alone(c, s, n) == SetDPc(s, DWrite(t, Cancelled))
  {
    var s1 := SetDPc(s, DPredCheck(t));
    var s2 := DispatchStep(c, s1);
    AloneTwice(c, s, s1, s2);
    n := 2;
    if PredState(c, s.mem, t) != Cancelled {
      assert s2 == SetDPc(s, DSelfCheck(t));
      AloneOnce(c, s2);
      n := AloneThen(c, s, 2, s2, 1);
    }
  }

  lemma WriteDoes(c: Config, s: State, t: TaskId, st: TaskState) returns (n: nat)
    requires Shape(c, s) && s.d.pc == DWrite(t, st)
    ensures Alone(c, s, n) == State(RetireFrom(c, WriteState(s.mem, t, st, Firing(0)), t, 0), s.d.(flag := true, pc := DNext), s.ws)
  {
    AloneOnce(c, s);
    var next := State(WriteState(s.mem, t, st, Firing(0)), s.d.(pc := DRetire(t, 0)), s.ws);
    assert DispatchStep(c, s) == next;
    var rest := RetireDoes(c, next, t, 0);
    n := AloneThen(c, s, 1, next, rest);
  }

  /** The task that a pass looks at next is settled. */
  ghost function Ended(c: Config, s: State): State
    requires Shape(c, s) && s.d.todo != [] && s.d.todo[0] < |c.tasks|
  {
    var t := s.d.todo[0];
    var m := RetireFrom(c, WriteState(s.mem, t, Settlement(c, s.mem, t), Firing(0)), t, 0);
    State(m, InHand(s, DNext).d.(flag := true), s.ws)
  }

  lemma SettledDoes(c: Config, s: State) returns (n: nat)
    requires Shape(c, s) && s.d.pc.DNext? && s.d.todo != [] && IsSettled(c, s.mem, s.d.todo[0])
    ensures Alone(c, s, n) == Ended(c, s)
  {
    var t := s.d.todo[0];
    var s1 := InHand(s, DPanicCheck(t));
    AloneOnce(c, s);
    assert DispatchStep(c, s) == s1;
    var looks;
    if PredState(c, s.mem, t) == Panicked {
      looks := PanicDoes(c, s1, t);
    } else {
      looks := CancelDoes(c, s1, t);
    }
    var s2 := SetDPc(s1, DWrite(t, Settlement(c, s.mem, t)));
    var rest := WriteDoes(c, s2, t, Settlement(c, s.mem, t));
    var more := AloneThen(c, s1, looks, s2, rest);
    n := AloneThen(c, s, 1, s1, more);
  }

  /** The task that a pass looks at next has to wait. */
  ghost function Kept(s: State): State
    requires s.d.todo != []
  {
    var r := InHand(s, DNext);
    r.(d := r.d.(kept := r.d.kept + [s.d.todo[0]]))
  }

  lemma WaitDoes(c: Config, s: State)
    requires Shape(c, s) && s.d.pc.DNext? && s.d.todo != [] && !CanExecute(c, s.mem, s.d.todo[0])
    ensures Alone(c, s, 1) == Kept(s)
  {
    AloneOnce(c, s);
  }

  // ----- what looks find in the course of a pass -----

  /** What a look at a task depends on. */
  datatype View = View(sems: set<SemId>, states: seq<TaskState>)

  ghost function ViewOf(m: Mem): View {
    View(m.sems.Keys, seq(|m.cells|, x requires 0 <= x < |m.cells| => m.cells[x].state))
  }

  ghost predicate ViewShape(c: Config, v: View) {
    WellFormed(c.tasks) && |v.states| == |c.tasks|
  }

  ghost function PredIn(c: Config, v: View, t: TaskId): TaskState
    requires ViewShape(c, v) && t < |c.tasks|
  {
    match c.tasks[t].body
    case Root(_) => Ready
    case Continuation(p, _) => v.states[p]
  }

  ghost function Judge(c: Config, v: View, t: TaskId): Greedy.Verdict
    requires ViewShape(c, v) && t < |c.tasks|
  {
    var pred := PredIn(c, v, t);
    if pred == Pending || exists i :: 0 <= i < |c.tasks[t].wait| && c.tasks[t].wait[i] !in v.sems then Greedy.Waits
    else if pred == Panicked || pred == Cancelled || v.states[t] == Cancelled then Greedy.Ends
    else Greedy.Goes
  }

  /** A task that ends leaves its state and its semaphores to the looks after it. */
  ghost function AfterLook(c: Config, v: View, t: TaskId): (r: View)
    requires ViewShape(c, v) && t < |c.tasks|
    ensures ViewShape(c, r)
  {
    if Judge(c, v, t).Ends? then
      View(v.sems + (set x | x in c.tasks[t].semaphores),
           v.states[t := if PredIn(c, v, t) == Panicked then Panicked else Cancelled])
    else v
  }

  ghost function AfterLooks(c: Config, v: View, ts: seq<TaskId>): (r: View)
    requires ViewShape(c, v) && forall j :: 0 <= j < |ts| ==> ts[j] < |c.tasks|
    ensures ViewShape(c, r)
  {
    if ts == [] then v else AfterLook(c, AfterLooks(c, v, ts[..|ts| - 1]), ts[|ts| - 1])
  }

  lemma JudgeIsLook(c: Config, m: Mem, t: TaskId)
    requires MemShape(c, m) && t < |c.tasks|
    ensures PredIn(c, ViewOf(m), t) == PredState(c, m, t)
    ensures
      match Judge(c, ViewOf(m), t)
      case Goes => Goes(c, m, t)
      case Waits => !CanExecute(c, m, t)
      case Ends => IsSettled(c, m, t)
  {
    var wait := c.tasks[t].wait;
    assert WaitsReady(c, m, t) <==> !(exists i :: 0 <= i < |wait| && wait[i] !in ViewOf(m).sems);
  }

  ghost function SemsFrom(sems: seq<SemId>, k: nat): set<SemId> {
    var rest := if k <= |sems| then sems[k..] else [];
    set x | x in rest
  }

  lemma {:induction false} RetireView(c: Config, m: Mem, t: TaskId, k: nat)
    requires MemShape(c, m) && t < |c.tasks| && k <= |c.tasks[t].semaphores| + 1
    ensures
      var r := RetireFrom(c, m, t, k);
      && r.sems.Keys == m.sems.Keys + SemsFrom(c.tasks[t].semaphores, k)
      && (forall x: nat :: x < |c.tasks| ==> r.cells[x].state == m.cells[x].state)
      && (forall x: nat :: x < |c.tasks| ==> Wish(c, r, x) == Wish(c, m, x))
    decreases |c.tasks[t].semaphores| + 1 - k
  {
    var sems := c.tasks[t].semaphores;
    if k <= |sems| {
      RetireView(c, Fire(c, m, t, k), t, k + 1);
      if k < |sems| {
        assert sems[k..] == [sems[k]] + sems[k + 1..];
      }
    }
  }

  // ----- a pass -----

  /** The tasks of the pass that begins in `s`, each with its wishes, and with what the look at it will find. */
  ghost function Items(c: Config, s: State): seq<Item>
    requires Shape(c, s)
  {
    seq(|s.d.todo|, j requires 0 <= j < |s.d.todo| =>
      Item(Wish(c, s.mem, s.d.todo[j]), Judge(c, AfterLooks(c, ViewOf(s.mem), s.d.todo[..j]), s.d.todo[j])))
  }

  /** The tasks that were sent to a thread, in order. */
  ghost function Delivered(sent: seq<Sent>, w: nat): seq<TaskId> {
    if sent == [] then []
    else Delivered(sent[..|sent| - 1], w) + (if sent[|sent| - 1].thread == w then [sent[|sent| - 1].task] else [])
  }

  /** The protocol is in state `r`, and the specification says `p` of the threads and of the tasks kept so far. */
  ghost predicate SamePlaces(c: Config, s: State, k: nat, r: State, p: Pass)
    requires Shape(c, s) && Shape(c, r) && k <= |s.d.todo|
  {
    && |r.d.kept| == |p.kept|
    && (forall j :: 0 <= j < |p.kept| ==> KeptLike(c, r, s.d.todo[..k], r.d.kept[j], p.kept[j]))
    && Frees(r.ws) == p.free
    && (forall w: nat :: w < |s.ws| ==> r.ws[w].inbox == s.ws[w].inbox + Delivered(p.sent, w))
  }

  ghost predicate KeptLike(c: Config, r: State, seen: seq<TaskId>, t: TaskId, kept: Task)
    requires Shape(c, r)
  {
    t < |c.tasks| && t in seen && Wish(c, r.mem, t) == kept
  }

  /** After `k` tasks of the pass that began in `s`, the protocol is in state `r`, and the specification says `p`. */
  ghost predicate Matches(c: Config, s: State, k: nat, r: State, p: Pass) {
    && Shape(c, s) && Shape(c, r) && k <= |s.d.todo|
    && r.d.pc.DNext? && r.d.todo == s.d.todo[k..] && r.d.channel == s.d.channel && r.d.owing == s.d.owing
    && ViewOf(r.mem) == AfterLooks(c, ViewOf(s.mem), s.d.todo[..k])
    && (forall j :: k <= j < |s.d.todo| ==> Wish(c, r.mem, s.d.todo[j]) == Wish(c, s.mem, s.d.todo[j]))
    && SamePlaces(c, s, k, r, p)
  }

  ghost predicate PassBegins(c: Config, s: State) {
    Shape(c, s) && s.d.pc.DNext? && s.d.kept == [] && NoDup(s.d.todo)
  }

  lemma DeliveredMore(sent: seq<Sent>, x: Sent, w: nat)
    ensures Delivered(sent + [x], w) == Delivered(sent, w) + (if x.thread == w then [x.task] else [])
  {
    assert (sent + [x])[..|sent|] == sent;
  }

  lemma NotBefore(todo: seq<TaskId>, k: nat)
    requires NoDup(todo) && k < |todo|
    ensures todo[k] !in todo[..k] && todo[..k + 1] == todo[..k] + [todo[k]] && todo[k..][0] == todo[k]
    ensures todo[k..][1..] == todo[k + 1..]
    ensures forall j :: k < j < |todo| ==> todo[j] != todo[k]
  {
  }

  lemma LooksMore(c: Config, v: View, todo: seq<TaskId>, k: nat)
    requires ViewShape(c, v) && k < |todo| && forall j :: 0 <= j < |todo| ==> todo[j] < |c.tasks|
    ensures AfterLooks(c, v, todo[..k + 1]) == AfterLook(c, AfterLooks(c, v, todo[..k]), todo[k])
  {
    assert todo[..k + 1][..k] == todo[..k];
  }

  /** What a look has done to the rest of the state, whatever it found. */
  ghost predicate LookedAt(c: Config, s: State, k: nat, r: State, next: State)
    requires Shape(c, s) && Shape(c, r) && k < |s.d.todo|
  {
    && Shape(c, next) && r.d.todo != []
    && next.d.pc.DNext? && next.d.todo == r.d.todo[1..] && next.d.channel == r.d.channel && next.d.owing == r.d.owing
    && ViewOf(next.mem) == AfterLook(c, ViewOf(r.mem), s.d.todo[k])
    && (forall x: nat :: x < |c.tasks| && x != s.d.todo[k] ==> Wish(c, next.mem, x) == Wish(c, r.mem, x))
  }

  lemma LookMatches(c: Config, s: State, k: nat, r: State, p: Pass, next: State, q: Pass)
    requires PassBegins(c, s) && Matches(c, s, k, r, p) && k < |s.d.todo|
    requires LookedAt(c, s, k, r, next) && SamePlaces(c, s, k + 1, next, q)
    ensures Matches(c, s, k + 1, next, q)
  {
    NotBefore(s.d.todo, k);
    LooksMore(c, ViewOf(s.mem), s.d.todo, k);
    forall j | k + 1 <= j < |s.d.todo| ensures Wish(c, next.mem, s.d.todo[j]) == Wish(c, s.mem, s.d.todo[j]) {
      assert s.d.todo[j] != s.d.todo[k];
    }
  }

  /** The tasks kept so far are kept on, as long as their wishes stay. */
  lemma KeptOn(c: Config, s: State, k: nat, r: State, p: Pass, next: State)
    requires PassBegins(c, s) && Matches(c, s, k, r, p) && k < |s.d.todo| && Shape(c, next)
    requires forall x: nat :: x < |c.tasks| && x != s.d.todo[k] ==> Wish(c, next.mem, x) == Wish(c, r.mem, x)
    ensures forall j :: 0 <= j < |p.kept| ==> KeptLike(c, next, s.d.todo[..k + 1], r.d.kept[j], p.kept[j])
  {
    NotBefore(s.d.todo, k);
    forall j | 0 <= j < |p.kept| ensures KeptLike(c, next, s.d.todo[..k + 1], r.d.kept[j], p.kept[j]) {
      assert KeptLike(c, r, s.d.todo[..k], r.d.kept[j], p.kept[j]);
    }
  }

  /** The next task is sent. */
  lemma SentMatches(c: Config, s: State, k: nat, r: State, p: Pass, w: nat)
    requires PassBegins(c, s) && Matches(c, s, k, r, p) && k < |s.d.todo| && Judge(c, ViewOf(r.mem), s.d.todo[k]).Goes?
    requires Target(c.labels, p.free, Wish(c, s.mem, s.d.todo[k])) == Some(w) && r.ws[w].free > 0
    requires r.d.todo[0] == s.d.todo[k] && Shape(c, Placed(c, r))
    ensures Matches(c, s, k + 1, Placed(c, r), PlaceOne(c.labels, p, Wish(c, s.mem, s.d.todo[k])))
  {
    var next := Placed(c, r);
    var q := PlaceOne(c.labels, p, Wish(c, s.mem, s.d.todo[k]));
    SentLooked(c, s, k, r, p, w);
    SentOn(c, s, k, r, p, w, next, q);
  }

  lemma SentOn(c: Config, s: State, k: nat, r: State, p: Pass, w: nat, next: State, q: Pass)
    requires PassBegins(c, s) && Matches(c, s, k, r, p) && k < |s.d.todo| && LookedAt(c, s, k, r, next)
    requires w < |r.ws| && r.ws[w].free > 0 && next.d.kept == r.d.kept && next.ws == r.ws[w := Got(r.ws[w], s.d.todo[k])]
    requires q.free == p.free[w := p.free[w] - 1] && q.sent == p.sent + [Sent(s.d.todo[k], w)] && q.kept == p.kept
    ensures Matches(c, s, k + 1, next, q)
  {
    KeptOn(c, s, k, r, p, next);
    SendPlaces(s.ws, r.ws, p, s.d.todo[k], w);
    LookMatches(c, s, k, r, p, next, q);
  }

  lemma SentLooked(c: Config, s: State, k: nat, r: State, p: Pass, w: nat)
    requires PassBegins(c, s) && Matches(c, s, k, r, p) && k < |s.d.todo| && Judge(c, ViewOf(r.mem), s.d.todo[k]).Goes?
    requires Target(c.labels, p.free, Wish(c, s.mem, s.d.todo[k])) == Some(w) && r.ws[w].free > 0
    requires r.d.todo[0] == s.d.todo[k] && Shape(c, Placed(c, r))
    ensures
      var next := Placed(c, r);
      LookedAt(c, s, k, r, next) && next.d.kept == r.d.kept && next.ws == r.ws[w := Got(r.ws[w], s.d.todo[k])]
  {
    var next := Placed(c, r);
    assert next.mem == Move(r.mem, s.d.todo[k], Inbox(w));
    assert ViewOf(next.mem) == ViewOf(r.mem);
  }

  /** The worker after a send. */
  ghost function Got(me: Worker, t: TaskId): Worker
    requires me.free > 0
  {
    me.(inbox := me.inbox + [t], free := me.free - 1, flag := true)
  }

  lemma SendPlaces(was: seq<Worker>, ws: seq<Worker>, p: Pass, t: TaskId, w: nat)
    requires |was| == |ws| && Frees(ws) == p.free && w < |ws| && ws[w].free > 0
    requires forall v: nat :: v < |ws| ==> ws[v].inbox == was[v].inbox + Delivered(p.sent, v)
    ensures
      var next := ws[w := Got(ws[w], t)];
      && Frees(next) == p.free[w := p.free[w] - 1]
      && (forall v: nat :: v < |ws| ==> next[v].inbox == was[v].inbox + Delivered(p.sent + [Sent(t, w)], v))
  {
    forall v: nat | v < |ws|
      ensures ws[w := Got(ws[w], t)][v].inbox == was[v].inbox + Delivered(p.sent + [Sent(t, w)], v)
    {
      DeliveredMore(p.sent, Sent(t, w), v);
    }
  }

  /** The next task is kept: because there is no room, or relaxed. */
  lemma KeptMatches(c: Config, s: State, k: nat, r: State, p: Pass)
    requires PassBegins(c, s) && Matches(c, s, k, r, p) && k < |s.d.todo| && Judge(c, ViewOf(r.mem), s.d.todo[k]).Goes?
    requires
      var target := Target(c.labels, p.free, Wish(c, s.mem, s.d.todo[k]));
      target.Some? ==> r.ws[target.value].free == 0
    requires r.d.todo[0] == s.d.todo[k] && Shape(c, Placed(c, r))
    ensures Matches(c, s, k + 1, Placed(c, r), PlaceOne(c.labels, p, Wish(c, s.mem, s.d.todo[k])))
  {
    var t := s.d.todo[k];
    var next := Placed(c, r);
    var q := PlaceOne(c.labels, p, Wish(c, s.mem, t));
    assert ViewOf(next.mem) == ViewOf(r.mem);
    KeptOn(c, s, k, r, p, next);
    NotBefore(s.d.todo, k);
    KeptMore(c, s, k, r, p, next, q);
    LookMatches(c, s, k, r, p, next, q);
  }

  /** One more task is kept. */
  lemma KeptMore(c: Config, s: State, k: nat, r: State, p: Pass, next: State, q: Pass)
    requires PassBegins(c, s) && Matches(c, s, k, r, p) && k < |s.d.todo| && Shape(c, next)
    requires forall j :: 0 <= j < |p.kept| ==> KeptLike(c, next, s.d.todo[..k + 1], r.d.kept[j], p.kept[j])
    requires next.ws == r.ws && next.d.kept == r.d.kept + [s.d.todo[k]]
    requires q.free == p.free && q.sent == p.sent && q.kept == p.kept + [Wish(c, next.mem, s.d.todo[k])]
    ensures SamePlaces(c, s, k + 1, next, q)
  {
    assert s.d.todo[..k + 1][k] == s.d.todo[k];
    forall j | 0 <= j < |q.kept| ensures KeptLike(c, next, s.d.todo[..k + 1], next.d.kept[j], q.kept[j]) {
      assert j < |p.kept| ==> next.d.kept[j] == r.d.kept[j] && q.kept[j] == p.kept[j];
    }
  }

  /** The next task has to wait. */
  lemma WaitMatches(c: Config, s: State, k: nat, r: State, p: Pass)
    requires PassBegins(c, s) && Matches(c, s, k, r, p) && k < |s.d.todo| && Judge(c, ViewOf(r.mem), s.d.todo[k]).Waits?
    requires r.d.todo != [] && r.d.todo[0] == s.d.todo[k]
    ensures Matches(c, s, k + 1, Kept(r), p.(kept := p.kept + [Wish(c, s.mem, s.d.todo[k])]))
  {
    var next := Kept(r);
    var q := p.(kept := p.kept + [Wish(c, s.mem, s.d.todo[k])]);
    KeptOn(c, s, k, r, p, next);
    KeptMore(c, s, k, r, p, next, q);
    LookMatches(c, s, k, r, p, next, q);
  }

  lemma EndedView(c: Config, m: Mem, t: TaskId)
    requires MemShape(c, m) && t < |c.tasks| && Judge(c, ViewOf(m), t).Ends?
    ensures
      var m' := RetireFrom(c, WriteState(m, t, Settlement(c, m, t), Firing(0)), t, 0);
      && ViewOf(m') == AfterLook(c, ViewOf(m), t)
      && (forall x: nat :: x < |c.tasks| ==> Wish(c, m', x) == Wish(c, m, x))
  {
    var m1 := WriteState(m, t, Settlement(c, m, t), Firing(0));
    RetireView(c, m1, t, 0);
    JudgeIsLook(c, m, t);
    var sems := c.tasks[t].semaphores;
    assert sems[0..] == sems;
    var m' := RetireFrom(c, m1, t, 0);
    assert forall x: nat :: x < |c.tasks| ==> m'.cells[x].state == ViewOf(m).states[t := Settlement(c, m, t)][x];
    assert ViewOf(m').states == ViewOf(m).states[t := Settlement(c, m, t)];
  }

  /** The next task is settled. */
  lemma EndMatches(c: Config, s: State, k: nat, r: State, p: Pass)
    requires PassBegins(c, s) && Matches(c, s, k, r, p) && k < |s.d.todo| && Judge(c, ViewOf(r.mem), s.d.todo[k]).Ends?
    requires r.d.todo != [] && r.d.todo[0] == s.d.todo[k]
    ensures Matches(c, s, k + 1, Ended(c, r), p)
  {
    var next := Ended(c, r);
    EndedView(c, r.mem, s.d.todo[k]);
    KeptOn(c, s, k, r, p, next);
    LookMatches(c, s, k, r, p, next, p);
  }

  lemma PassStarts(c: Config, s: State)
    requires PassBegins(c, s)
    ensures Matches(c, s, 0, s, Pass(Frees(s.ws), [], []))
  {
    assert s.d.todo[0..] == s.d.todo;
  }

  lemma PlaceNext(labels: seq<Option<Label>>, free: seq<nat>, items: seq<Item>, k: nat)
    requires |labels| == |free| && k < |items|
    ensures PlaceEach(labels, free, items[..k + 1]) == PlaceItem(labels, PlaceEach(labels, free, items[..k]), items[k])
  {
    assert items[..k + 1][..k] == items[..k];
  }

  /** After `n` steps of the dispatcher alone, `k` tasks are dealt with. */
  ghost predicate MatchesAfter(c: Config, s: State, k: nat, n: nat)
    requires PassBegins(c, s) && k <= |s.d.todo|
  {
    Matches(c, s, k, Alone(c, s, n), PlaceEach(c.labels, Frees(s.ws), Items(c, s)[..k]))
  }

  lemma {:induction false} PassGoesOn(c: Config, s: State, k: nat) returns (n: nat)
    requires PassBegins(c, s) && k <= |s.d.todo|
    ensures MatchesAfter(c, s, k, n)
    decreases k
  {
    if k == 0 {
      PassStarts(c, s);
      n := 0;
    } else {
      var before := PassGoesOn(c, s, k - 1);
      n := PassOneMore(c, s, k - 1, before);
    }
  }

  lemma PassOneMore(c: Config, s: State, k: nat, before: nat) returns (n: nat)
    requires PassBegins(c, s) && k < |s.d.todo| && MatchesAfter(c, s, k, before)
    ensures MatchesAfter(c, s, k + 1, n)
  {
    var r, p := Alone(c, s, before), PlaceEach(c.labels, Frees(s.ws), Items(c, s)[..k]);
    var item := Item(Wish(c, s.mem, s.d.todo[k]), Judge(c, ViewOf(r.mem), s.d.todo[k]));
    var more := PassNextTask(c, s, k, r, p);
    n := AloneThen(c, s, before, r, more);
    assert PlaceEach(c.labels, Frees(s.ws), Items(c, s)[..k + 1]) == PlaceItem(c.labels, p, item) by {
      assert Items(c, s)[k] == item;
      PlaceNext(c.labels, Frees(s.ws), Items(c, s), k);
    }
    assert Matches(c, s, k + 1, Alone(c, s, n), PlaceItem(c.labels, p, item));
  }

  lemma PassNextTask(c: Config, s: State, k: nat, r: State, p: Pass) returns (more: nat)
    requires PassBegins(c, s) && Matches(c, s, k, r, p) && k < |s.d.todo|
    ensures
      var item := Item(Wish(c, s.mem, s.d.todo[k]), Judge(c, ViewOf(r.mem), s.d.todo[k]));
      Matches(c, s, k + 1, Alone(c, r, more), PlaceItem(c.labels, p, item))
  {
    var t := s.d.todo[k];
    NotBefore(s.d.todo, k);
    JudgeIsLook(c, r.mem, t);
    match Judge(c, ViewOf(r.mem), t)
    case Goes => more := GoingNext(c, s, k, r, p);
    case Waits =>
      WaitDoes(c, r);
      more := 1;
      WaitMatches(c, s, k, r, p);
    case Ends =>
      more := SettledDoes(c, r);
      EndMatches(c, s, k, r, p);
  }

  lemma GoingNext(c: Config, s: State, k: nat, r: State, p: Pass) returns (more: nat)
    requires PassBegins(c, s) && Matches(c, s, k, r, p) && k < |s.d.todo|
    requires Judge(c, ViewOf(r.mem), s.d.todo[k]).Goes?
    ensures Matches(c, s, k + 1, Alone(c, r, more), PlaceOne(c.labels, p, Wish(c, s.mem, s.d.todo[k])))
  {
    var t := s.d.todo[k];
    NotBefore(s.d.todo, k);
    JudgeIsLook(c, r.mem, t);
    more := TaskDoes(c, r);
    var target := Target(c.labels, p.free, Wish(c, s.mem, t));
    if target.Some? && r.ws[target.value].free > 0 {
      SentMatches(c, s, k, r, p, target.value);
    } else {
      KeptMatches(c, s, k, r, p);
    }
  }

  /**
   * A pass over any tasks, while nobody else moves, does what `Greedy.PlaceEach` says of them: it leaves the same slots
   * free, delivers the same tasks to the same threads in the same order, and keeps the same tasks, alike relaxed. What it
   * settles on the way counts for the looks that follow.
   */
  lemma PassIsPlace(c: Config, s: State) returns (n: nat)
    requires PassBegins(c, s)
    ensures
      var r := Alone(c, s, n);
      var p := PlaceEach(c.labels, Frees(s.ws), Items(c, s));
      && Shape(c, r) && r.d.pc.DNext? && r.d.todo == []
      && ViewOf(r.mem) == AfterLooks(c, ViewOf(s.mem), s.d.todo)
      && SamePlaces(c, s, |s.d.todo|, r, p)
  {
    n := PassGoesOn(c, s, |s.d.todo|);
    assert Items(c, s)[..|s.d.todo|] == Items(c, s);
    assert s.d.todo[..|s.d.todo|] == s.d.todo;
  }

  /** So the dispatcher is greedy: if the tasks that can go may run anywhere, the pass is as `Greedy.GreedyOk` says. */
  lemma DispatcherIsGreedy(c: Config, s: State) returns (n: nat, p: Pass)
    requires PassBegins(c, s) && Unconstrained(Items(c, s))
    ensures
      var r := Alone(c, s, n);
      && Shape(c, r) && r.d.pc.DNext? && r.d.todo == []
      && SamePlaces(c, s, |s.d.todo|, r, p)
      && GreedyOk(Frees(s.ws), Items(c, s), p)
  {
    n := PassIsPlace(c, s);
    p := PlaceEach(c.labels, Frees(s.ws), Items(c, s));
    GreedyDispatch(c.labels, Frees(s.ws), Items(c, s));
  }
}
