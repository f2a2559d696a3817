/** Which placement wishes a task has left: those that it was submitted with, less what the dispatcher gave up, in order. */
module Wishes {
  import opened Tasks
  import opened Memory
  import opened Protocol
  import opened ProtocolInvariant
  import opened QueueWake
  import opened Relaxation
  import opened Order
  import Placement
  import ProtocolProof
  import Results

  datatype Wish = Wish(preferred: Option<Label>, notOn: seq<Label>)

  ghost function WishIn(m: Mem, t: TaskId): Wish
    requires t < |m.cells|
  {
    Wish(m.cells[t].preferred, m.cells[t].notOn)
  }

  /** What is left of a wish that was given up so many times: first the preferred thread goes, then the excluded ones. */
  function LeftOf(wish: Wish, relaxations: nat): Wish {
    if relaxations == 0 then wish
    else if relaxations == 1 && wish.preferred.Some? then Wish(None, wish.notOn)
    else Wish(None, [])
  }

  /** A step gives up the next wish of a task, or leaves its wishes alone. */
  ghost predicate WishGoes(m: Mem, m': Mem, t: TaskId)
    requires t < |m.cells| == |m.hist| == |m'.cells| == |m'.hist|
  {
    var n, n' := m.hist[t].relaxations, m'.hist[t].relaxations;
    || (n' == n && WishIn(m', t) == WishIn(m, t))
    || (n' == n + 1 && forall wish: Wish :: WishIn(m, t) == LeftOf(wish, n) ==> WishIn(m', t) == LeftOf(wish, n'))
  }

  lemma RelaxGoes(m: Mem, x: TaskId, t: TaskId)
    requires x < |m.cells| == |m.hist| && t < |m.cells|
    ensures WishGoes(m, Relax(m, x), t)
  {
  }

  lemma DispatchWish(c: Config, s: State, t: TaskId)
    requires Shape(c, s) && t < |c.tasks|
    ensures WishGoes(s.mem, DispatchStep(c, s).mem, t)
  {
    if s.d.pc.DTarget? && s.d.pc.target == None {
      RelaxGoes(s.mem, s.d.pc.t, t);
    } else {
      Placement.DispatchKeepsWishes(c, s);
    }
  }

  /** A submission may put the label that it is given in the place of the preferred thread. */
  ghost predicate WishesOnly(m: Mem, m': Mem, t: TaskId, on: Option<Label>)
    requires t < |m.cells| == |m.hist| == |m'.cells| == |m'.hist|
  {
    && m'.hist[t].relaxations == m.hist[t].relaxations
    && WishIn(m', t) == if on.Some? then Wish(on, m.cells[t].notOn) else WishIn(m, t)
  }

  ghost function GivenLabel(s: State, step: Step, t: TaskId): Option<Label>
    requires t < |s.mem.hist|
  {
    if step.SubmitSend? && step.t == t && s.mem.hist[t].place == Outside then step.on else None
  }

  lemma SubmitWish(c: Config, s: State, step: Step, t: TaskId)
    requires Shape(c, s) && step.SubmitSend? && t < |c.tasks|
    ensures WishesOnly(s.mem, OutsideStep(c, s, step).mem, t, GivenLabel(s, step, t))
  {
  }

  lemma OutsideWish(c: Config, s: State, step: Step, t: TaskId)
    requires Shape(c, s) && !step.Dispatch? && !step.Work? && t < |c.tasks|
    ensures WishesOnly(s.mem, OutsideStep(c, s, step).mem, t, GivenLabel(s, step, t))
  {
    if step.SubmitSend? {
      SubmitWish(c, s, step, t);
    }
  }

  lemma StepWish(c: Config, s: State, step: Step, t: TaskId)
    requires Inv(c, s) && t < |c.tasks| && !(step.SubmitSend? && step.t == t && s.mem.hist[t].place == Outside)
    ensures WishGoes(s.mem, Apply(c, s, step).mem, t)
  {
    if step.Dispatch? {
      DispatchWish(c, s, t);
    } else if step.Work? {
      if step.w < |s.ws| {
        WorkChanges(c, s.mem, step.w, s.ws[step.w], step.finish);
      }
    } else {
      OutsideWish(c, s, step, t);
    }
  }

  /** Before it is submitted, a task has its own wishes. */
  ghost predicate Unsubmitted(c: Config, m: Mem, t: TaskId) {
    && t < |c.tasks| == |m.cells| == |m.hist|
    && (m.hist[t].place == Outside ==>
          WishIn(m, t) == Wish(c.tasks[t].preferred, c.tasks[t].notOn) && m.hist[t].relaxations == 0)
  }

  lemma UnsubmittedOn(c: Config, s: State, step: Step, t: TaskId)
    requires Inv(c, s) && Unsubmitted(c, s.mem, t)
    ensures Unsubmitted(c, Apply(c, s, step).mem, t)
  {
    var was, now := StepBrings(c, s, step, t);
    if now == Outside {
      if step.Dispatch? {
        ProtocolProof.HeldAt(c, s);
        OnlyHeldIsRelaxed(c, s, t);
      } else if step.Work? {
        if step.w < |s.ws| {
          WorkChanges(c, s.mem, step.w, s.ws[step.w], step.finish);
        }
      } else {
        OutsideWish(c, s, step, t);
      }
    }
  }

  lemma OnlyHeldIsRelaxed(c: Config, s: State, t: TaskId)
    requires Inv(c, s) && t < |c.tasks| && s.mem.hist[t].place == Outside
    ensures WishIn(DispatchStep(c, s).mem, t) == WishIn(s.mem, t)
    ensures DispatchStep(c, s).mem.hist[t].relaxations == s.mem.hist[t].relaxations
  {
    if s.d.pc.DTarget? && s.d.pc.target == None {
      ProtocolProof.HeldAt(c, s);
      assert DList(s.d)[|s.d.kept|] == s.d.pc.t;
    } else {
      Placement.DispatchKeepsWishes(c, s);
    }
  }

  /** Since its submission, a task has what is left of the wishes that it was submitted with. */
  ghost predicate Left(m: Mem, t: TaskId, wish: Wish) {
    && t < |m.cells| == |m.hist|
    && m.hist[t].place != Outside && WishIn(m, t) == LeftOf(wish, m.hist[t].relaxations)
  }

  lemma LeftOn(c: Config, s: State, step: Step, t: TaskId, wish: Wish)
    requires Inv(c, s) && t < |c.tasks| && Left(s.mem, t, wish)
    ensures Left(Apply(c, s, step).mem, t, wish)
  {
    var was, now := StepBrings(c, s, step, t);
    StepWish(c, s, step, t);
  }

  lemma SubmittedWith(c: Config, run: seq<Step>, t: TaskId, step: Step)
    requires ValidConfig(c) && t < |c.tasks| && Exec(c, run).mem.hist[t].place == Outside
    requires step.SubmitSend? && step.t == t
    ensures Left(Exec(c, run + [step]).mem, t, Wish(Placement.WishOf(c, step), c.tasks[t].notOn))
  {
    var holds := (s: State) => Unsubmitted(c, s.mem, t);
    forall s: State, step: Step | Inv(c, s) && holds(s) ensures holds(Apply(c, s, step)) {
      UnsubmittedOn(c, s, step, t);
    }
    assert Exec(c, []) == Init(c) && [] + run == run;
    ProtocolProof.KeptOnwards(c, [], run, holds);
    ExecNext(c, run, step);
    OutsideWish(c, Exec(c, run), step, t);
  }

  lemma LeftAfter(c: Config, run: seq<Step>, more: seq<Step>, t: TaskId, wish: Wish)
    requires ValidConfig(c) && t < |c.tasks| && Left(Exec(c, run).mem, t, wish)
    ensures Left(Exec(c, run + more).mem, t, wish)
  {
    var holds := (s: State) => Left(s.mem, t, wish);
    forall s: State, step: Step | Inv(c, s) && holds(s) ensures holds(Apply(c, s, step)) {
      LeftOn(c, s, step, t, wish);
    }
    ProtocolProof.KeptOnwards(c, run, more, holds);
  }

  /**
   * In every run, the wishes of a task are those with which it was submitted, the label of `submit_on` in the place of its own,
   * until the first relaxation; that takes the preferred thread, if there is one, and the next one, or the first if there
   * is none, takes the excluded threads.
   */
  lemma GivenUpInOrder(c: Config, run: seq<Step>, i: nat, t: TaskId)
    requires ValidConfig(c) && Submits(c, run, i, t)
    ensures
      var m := Exec(c, run).mem;
      WishIn(m, t) == LeftOf(Wish(Placement.WishOf(c, run[i]), c.tasks[t].notOn), m.hist[t].relaxations)
  {
    SubmittedWith(c, run[..i], t, run[i]);
    LeftAfter(c, run[..i] + [run[i]], run[i + 1..], t, Wish(Placement.WishOf(c, run[i]), c.tasks[t].notOn));
    assert run == run[..i] + [run[i]] + run[i + 1..];
  }
}
