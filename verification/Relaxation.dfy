/** The dispatcher gives up the placement wishes of a task at most twice; and gives them up without a wake. */
module Relaxation {
  import opened Tasks
  import opened Memory
  import opened Protocol
  import opened ProtocolInvariant
  import opened QueueWake
  import Slots
  import ProtocolProof

  /** The wishes that are left: a preferred thread, and threads to stay away from. */
  function Wishes(cell: Cell): nat {
    (if cell.preferred.Some? then 1 else 0) + (if cell.notOn != [] then 1 else 0)
  }

  ghost predicate WishesOk(c: Config, m: Mem, t: TaskId)
    requires MemShape(c, m) && t < |c.tasks|
  {
    && m.hist[t].relaxations + Wishes(m.cells[t]) <= 2
    && (m.hist[t].place == Outside ==> m.hist[t].relaxations == 0)
  }

  ghost predicate AllWishesOk(c: Config, m: Mem)
    requires MemShape(c, m)
  {
    forall t: nat :: t < |c.tasks| ==> WishesOk(c, m, t)
  }

  /** The step changes the wishes of no task. */
  ghost predicate KeepsWishes(c: Config, m: Mem, m': Mem) {
    && MemShape(c, m) && MemShape(c, m')
    && (forall x: nat :: x < |c.tasks| ==>
          && m'.cells[x].preferred == m.cells[x].preferred && m'.cells[x].notOn == m.cells[x].notOn
          && m'.hist[x].relaxations == m.hist[x].relaxations)
  }

  lemma ControlKeepsWishes(c: Config, s: State)
    requires Shape(c, s) && !(s.d.pc.DTarget? && s.d.pc.target == None)
    requires !(s.d.pc.DTop? || s.d.pc.DSend? || s.d.pc.DWrite? || s.d.pc.DRetire?)
    ensures KeepsWishes(c, s.mem, DispatchStep(c, s).mem)
  {
    assert DispatchStep(c, s).mem == s.mem;
  }

  lemma MemoryKeepsWishes(c: Config, s: State)
    requires Shape(c, s) && (s.d.pc.DTop? || s.d.pc.DSend? || s.d.pc.DWrite? || s.d.pc.DRetire?)
    ensures KeepsWishes(c, s.mem, DispatchStep(c, s).mem)
  {
  }

  /** A task without a target has a wish to give up, for there is at least one thread. */
  lemma RelaxHasWish(c: Config, s: State, t: TaskId)
    requires Inv(c, s) && t < |c.tasks| && TargetOk(c, s, t, None) && AllWishesOk(c, s.mem)
    requires s.mem.hist[t].place == Held
    ensures Wishes(s.mem.cells[t]) > 0 && AllWishesOk(c, Relax(s.mem, t))
  {
    var m' := Relax(s.mem, t);
    assert !Allowed(c, s.mem, t, 0);
    assert WishesOk(c, s.mem, t);
    forall x: nat | x < |c.tasks| ensures WishesOk(c, m', x) {
      assert WishesOk(c, s.mem, x);
    }
  }

  lemma DispatchWishes(c: Config, s: State)
    requires Inv(c, s) && QueueOk(c, s) && AllWishesOk(c, s.mem)
    ensures AllWishesOk(c, DispatchStep(c, s).mem)
  {
    ProtocolProof.DispatchInv(c, s);
    var m' := DispatchStep(c, s).mem;
    if s.d.pc.DTarget? && s.d.pc.target == None {
      ProtocolProof.HeldAt(c, s);
      assert DList(s.d)[|s.d.kept|] == s.d.pc.t;
      RelaxHasWish(c, s, s.d.pc.t);
    } else {
      if s.d.pc.DTop? || s.d.pc.DSend? || s.d.pc.DWrite? || s.d.pc.DRetire? {
        MemoryKeepsWishes(c, s);
      } else {
        ControlKeepsWishes(c, s);
      }
      forall x: nat | x < |c.tasks| ensures WishesOk(c, m', x) {
        assert WishesOk(c, s.mem, x);
      }
    }
  }

  lemma WorkWishes(c: Config, s: State, w: nat, finish: bool)
    requires Inv(c, s) && w < |s.ws| && AllWishesOk(c, s.mem)
    ensures AllWishesOk(c, WorkStep(c, s, w, finish).mem)
  {
    ProtocolProof.WorkInv(c, s, w, finish);
    WorkChanges(c, s.mem, w, s.ws[w], finish);
    var m' := WorkStep(c, s, w, finish).mem;
    forall x: nat | x < |c.tasks| ensures WishesOk(c, m', x) {
      assert WishesOk(c, s.mem, x);
    }
  }

  lemma OutsideWishes(c: Config, s: State, step: Step)
    requires Shape(c, s) && AllWishesOk(c, s.mem) && !step.Dispatch? && !step.Work?
    ensures AllWishesOk(c, OutsideStep(c, s, step).mem)
  {
    var m' := OutsideStep(c, s, step).mem;
    forall x: nat | x < |c.tasks| ensures WishesOk(c, m', x) {
      assert WishesOk(c, s.mem, x);
    }
  }

  lemma {:induction false} RunWishes(c: Config, run: seq<Step>)
    requires ValidConfig(c)
    ensures AllWishesOk(c, Exec(c, run).mem)
  {
    if run != [] {
      var before := run[..|run| - 1];
      ExecLast(c, run);
      var s := Exec(c, before);
      RunWishes(c, before);
      RunQueueOk(c, before);
      ProtocolProof.RunInv(c, before);
      StepWishes(c, s, run[|run| - 1]);
    }
  }

  lemma StepWishes(c: Config, s: State, step: Step)
    requires Inv(c, s) && QueueOk(c, s) && AllWishesOk(c, s.mem)
    ensures AllWishesOk(c, Apply(c, s, step).mem)
  {
    match step
    case Dispatch => DispatchWishes(c, s);
    case Work(w, finish) => if w < |s.ws| { WorkWishes(c, s, w, finish); }
    case _ => OutsideWishes(c, s, step);
  }

  /**
   * Relaxation terminates, in every run: no task is relaxed more than twice, one that was relaxed twice may run on
   * every thread, and the dispatcher never looks for a target in vain again for it.
   */
  lemma RelaxedAtMostTwice(c: Config, run: seq<Step>, t: TaskId)
    requires ValidConfig(c) && t < |c.tasks|
    ensures
      var s := Exec(c, run);
      && s.mem.hist[t].relaxations <= 2
      && (s.mem.hist[t].relaxations == 2 ==>
            && (forall w: nat :: w < |c.labels| ==> Allowed(c, s.mem, t, w))
            && s.d.pc != DTarget(t, None))
  {
    var s := Exec(c, run);
    RunWishes(c, run);
    RunQueueOk(c, run);
    assert WishesOk(c, s.mem, t);
    if s.d.pc == DTarget(t, None) {
      assert !Allowed(c, s.mem, t, 0);
    }
  }

  // ----- a relaxation wakes nobody -----

  /** The run goes on with one step of the dispatcher. */
  lemma Next(c: Config, run: seq<Step>) returns (next: seq<Step>)
    requires ValidConfig(c)
    ensures next == run + [Dispatch] && Exec(c, next) == DispatchStep(c, Exec(c, run))
  {
    next := run + [Dispatch];
    ExecNext(c, run, Dispatch);
  }

  /** The dispatcher starts a pass over the task 0 only, which depends on nothing and which nobody cancelled. */
  ghost predicate PassStarts(c: Config, s: State) {
    && Shape(c, s) && |c.tasks| == 1 && c.tasks[0].body.Root? && c.tasks[0].wait == []
    && s.mem.cells[0].state == Pending
    && s.d.pc == DNext && s.d.todo == [0] && s.d.kept == [] && s.d.relaxed == {} && s.d.unseen == {}
  }

  /** The dispatcher sleeps after a pass that relaxed the task 0. */
  ghost function Slept(s: State): State
    requires |s.mem.cells| == |s.mem.hist| == 1
  {
    State(Relax(s.mem, 0), s.d.(pc := DWait, kept := [0], todo := [], relaxed := {0}), s.ws)
  }

  /** The first steps of the pass find that the task may run. */
  lemma PassChecks(c: Config, run: seq<Step>) returns (next: seq<Step>)
    requires ValidConfig(c) && PassStarts(c, Exec(c, run))
    ensures Exec(c, next) == State(Exec(c, run).mem, Exec(c, run).d.(pc := DFind(0), todo := []), Exec(c, run).ws)
  {
    next := Next(c, run);
    assert Exec(c, next).d == Exec(c, run).d.(pc := DPanicCheck(0), todo := []);
    next := Next(c, next);
    next := Next(c, next);
    next := Next(c, next);
  }

  /** Without a target the task is relaxed, and the dispatcher goes to sleep. */
  lemma PassRelaxes(c: Config, run: seq<Step>) returns (next: seq<Step>)
    requires ValidConfig(c) && |c.tasks| == 1
    requires var d := Exec(c, run).d; d.pc == DTarget(0, None) && d.todo == [] && d.kept == [] && d.relaxed == {}
    ensures Exec(c, next) == Slept(Exec(c, run))
  {
    next := Next(c, run);
    assert Exec(c, next).d == Exec(c, run).d.(pc := DNext, kept := [0], relaxed := {0});
    next := Next(c, next);
  }

  /** A pass over a task that prefers a missing thread relaxes it and ends in the wait. */
  lemma PreferredPass(c: Config, run: seq<Step>) returns (next: seq<Step>)
    requires ValidConfig(c) && PassStarts(c, Exec(c, run))
    requires
      var wish := Exec(c, run).mem.cells[0].preferred;
      wish.Some? && FindLabel(c.labels, wish.value, 0) == None
    ensures Exec(c, next) == Slept(Exec(c, run))
  {
    next := PassChecks(c, run);
    next := Next(c, next);
    next := PassRelaxes(c, next);
  }

  /** So does a pass over a task that stays away from the only thread. */
  lemma ExcludedPass(c: Config, run: seq<Step>) returns (next: seq<Step>)
    requires ValidConfig(c) && PassStarts(c, Exec(c, run)) && |c.labels| == 1
    requires Exec(c, run).mem.cells[0].preferred.None?
    requires !NotExcluded(c.labels[0], Exec(c, run).mem.cells[0].notOn)
    ensures Exec(c, next) == Slept(Exec(c, run))
  {
    next := PassChecks(c, run);
    next := FutileScan(c, next);
    next := PassRelaxes(c, next);
  }

  lemma FutileScan(c: Config, run: seq<Step>) returns (next: seq<Step>)
    requires ValidConfig(c) && |c.tasks| == |c.labels| == 1 && Exec(c, run).d.pc == DFind(0)
    requires Exec(c, run).mem.cells[0].preferred.None?
    requires !NotExcluded(c.labels[0], Exec(c, run).mem.cells[0].notOn)
    ensures Exec(c, next) == SetDPc(Exec(c, run), DTarget(0, None))
  {
    next := Next(c, run);
    next := Next(c, next);
    next := Next(c, next);
  }

  /** One thread named A with one worker; one task that prefers a thread B and stays away from A. */
  ghost function StallConfig(out: Outcome): Config {
    Config([Task(0, Root(out), [], [], Some("B"), ["A"])], [Some("A")], 1)
  }

  /** The dispatcher sleeps on a task it could send; no wake is owed, and no thread can move. */
  ghost predicate Stalled(c: Config, s: State) {
    && Shape(c, s) && |c.tasks| == |s.ws| == 1
    && s.d.pc.DWait? && !s.d.flag && !Owed(s) && s.d.kept == [0]
    && Placeable(c, s, 0) && Actionable(c, s, 0)
    && Apply(c, s, Dispatch) == s
    && Apply(c, s, Work(0, true)) == s
  }

  /**
   * The exception in `NoLostWakeUp` is real. This run submits one task and then lets the dispatcher work; it leaves
   * the dispatcher asleep on the task, which it could send to a free worker. Everybody has woken it who was to
   * wake it, and no thread can take a step.
   */
  lemma RelaxationStalls(out: Outcome) returns (run: seq<Step>)
    ensures ValidConfig(StallConfig(out)) && Stalled(StallConfig(out), Exec(StallConfig(out), run))
  {
    var c := StallConfig(out);
    assert ValidConfig(c);
    run := StallSubmits(c, out);
    run := StallFirstPass(c, out, run);
    run := StallSecondPass(c, out, run);
    StallIsStuck(c, Exec(c, run));
  }

  lemma StallIsStuck(c: Config, s: State)
    requires Shape(c, s) && |c.tasks| == 1 && c.tasks[0].body.Root? && c.tasks[0].wait == []
    requires s.d == Dispatcher([], false, [0], [], DWait, {}, {0}, {})
    requires s.mem.cells[0].preferred.None? && s.mem.cells[0].notOn == []
    requires |s.ws| == 1 && s.ws[0].free == 1 && s.ws[0].pc.WTop? && s.ws[0].inbox == [] && s.ws[0].todo == []
    ensures Stalled(c, s)
  {
    assert Allowed(c, s.mem, 0, 0);
  }

  /** The task is received and its preferred thread given up; the flag that the submission set is still there. */
  lemma StallFirstPass(c: Config, out: Outcome, run: seq<Step>) returns (next: seq<Step>)
    requires c == StallConfig(out) && ValidConfig(c)
    requires Exec(c, run).d == Dispatcher([0], true, [], [], DTop, {}, {}, {})
    requires Exec(c, run).mem == Move(Init(c).mem, 0, Channel)
    ensures Exec(c, next).d == Dispatcher([], true, [0], [], DWait, {}, {0}, {})
    ensures Exec(c, next).mem == Relax(Move(Exec(c, run).mem, 0, Held), 0)
    ensures Exec(c, next).ws == Exec(c, run).ws
  {
    next := Next(c, run);
    assert Exec(c, next).d == Dispatcher([], true, [], [0], DNext, {}, {}, {});
    next := PreferredPass(c, next);
  }

  /** The flag is consumed and the excluded thread forgiven; nothing is left to wake the dispatcher. */
  lemma StallSecondPass(c: Config, out: Outcome, run: seq<Step>) returns (next: seq<Step>)
    requires c == StallConfig(out) && ValidConfig(c)
    requires Exec(c, run).d == Dispatcher([], true, [0], [], DWait, {}, {0}, {})
    requires var cell := Exec(c, run).mem.cells[0]; cell.state == Pending && cell.preferred.None? && cell.notOn == ["A"]
    ensures Exec(c, next).d == Dispatcher([], false, [0], [], DWait, {}, {0}, {})
    ensures Exec(c, next).mem == Relax(Exec(c, run).mem, 0)
    ensures Exec(c, next).ws == Exec(c, run).ws
  {
    next := Next(c, run);
    next := Next(c, next);
    assert Exec(c, next).d == Dispatcher([], false, [], [0], DNext, {}, {}, {});
    next := ExcludedPass(c, next);
  }

  lemma StallSubmits(c: Config, out: Outcome) returns (run: seq<Step>)
    requires c == StallConfig(out) && ValidConfig(c)
    ensures
      var s := Exec(c, run);
      && s.d == Dispatcher([0], true, [], [], DTop, {}, {}, {})
      && s.mem == Move(Init(c).mem, 0, Channel) && s.ws == Init(c).ws
  {
    var sent := [SubmitSend(0, 0, None)];
    run := [SubmitSend(0, 0, None), SubmitWake(0)];
    assert run == sent + [SubmitWake(0)] && sent == [] + [SubmitSend(0, 0, None)];
    ExecNext(c, [], SubmitSend(0, 0, None));
    ExecNext(c, sent, SubmitWake(0));
    assert Exec(c, run).d.owing == {} && Exec(c, run).d.channel == [0];
  }
}
