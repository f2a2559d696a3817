/** When a task is relaxed: exactly when no thread fits what was wished for it. And what the dispatcher sleeps through. */
module Placement {
  import opened Tasks
  import opened Memory
  import opened Protocol
  import opened ProtocolInvariant
  import opened QueueWake
  import opened Relaxation
  import Results
  import Slots
  import ProtocolProof

  // ----- wishes that fit -----

  /** Some thread carries the preferred label, or, without one, some thread is not excluded. */
  ghost predicate Fits(c: Config, preferred: Option<Label>, notOn: seq<Label>) {
    match preferred
    case Some(name) => exists w: nat :: w < |c.labels| && c.labels[w] == Some(name)
    case None => exists w: nat :: w < |c.labels| && NotExcluded(c.labels[w], notOn)
  }

  /** The placement wishes let a task run on thread `w`. */
  ghost predicate MayRun(c: Config, preferred: Option<Label>, notOn: seq<Label>, w: nat)
    requires w < |c.labels|
  {
    match preferred
    case Some(name) => FindLabel(c.labels, name, 0) == Some(w)
    case None => NotExcluded(c.labels[w], notOn)
  }

  /** The threads that the wishes leave: the first with the preferred label, or all that are not excluded. */
  ghost function Threads(c: Config, preferred: Option<Label>, notOn: seq<Label>): (r: set<nat>)
    ensures forall w: nat :: w in r <==> w < |c.labels| && MayRun(c, preferred, notOn, w)
  {
    set w: nat | w < |c.labels| && MayRun(c, preferred, notOn, w)
  }

  lemma FitsSome(c: Config, preferred: Option<Label>, notOn: seq<Label>)
    ensures Fits(c, preferred, notOn) <==> Threads(c, preferred, notOn) != {}
  {
    match preferred
    case Some(name) =>
      if w: nat :| w < |c.labels| && c.labels[w] == Some(name) {
        assert MayRun(c, preferred, notOn, FindLabel(c.labels, name, 0).value);
      }
    case None =>
      if w: nat :| w < |c.labels| && NotExcluded(c.labels[w], notOn) {
        assert MayRun(c, preferred, notOn, w);
      }
  }

  /** A submission can be checked against the labels of the threads; a label given to it takes the place of the task's own. */
  ghost predicate FittingStep(c: Config, step: Step) {
    step.SubmitSend? && step.t < |c.tasks| ==> Fits(c, WishOf(c, step), c.tasks[step.t].notOn)
  }

  /** The preferred thread of a task as submitted. */
  ghost function WishOf(c: Config, step: Step): Option<Label>
    requires step.SubmitSend? && step.t < |c.tasks|
  {
    if step.on.Some? then step.on else c.tasks[step.t].preferred
  }

  ghost predicate FittingRun(c: Config, run: seq<Step>) {
    forall i :: 0 <= i < |run| ==> FittingStep(c, run[i])
  }

  lemma FitsIsNotHomeless(c: Config, m: Mem, t: TaskId)
    requires MemShape(c, m) && t < |c.tasks|
    ensures Fits(c, m.cells[t].preferred, m.cells[t].notOn) <==> !Homeless(c, m, t)
  {
    match m.cells[t].preferred
    case Some(name) =>
      if w: nat :| w < |c.labels| && c.labels[w] == Some(name) {
        assert Allowed(c, m, t, FindLabel(c.labels, name, 0).value);
      }
    case None =>
      assert forall w: nat :: w < |c.labels| ==> (Allowed(c, m, t, w) <==> NotExcluded(c.labels[w], m.cells[t].notOn));
  }

  ghost predicate FitOk(c: Config, m: Mem, t: TaskId)
    requires MemShape(c, m) && t < |c.tasks|
  {
    && m.hist[t].relaxations == 0
    && if m.hist[t].place == Outside
       then m.cells[t].preferred == c.tasks[t].preferred && m.cells[t].notOn == c.tasks[t].notOn
       else Fits(c, m.cells[t].preferred, m.cells[t].notOn)
  }

  ghost predicate AllFit(c: Config, m: Mem)
    requires MemShape(c, m)
  {
    forall t: nat :: t < |c.tasks| ==> FitOk(c, m, t)
  }

  lemma FitKept(c: Config, m: Mem, m': Mem)
    requires AllFitShape(c, m) && KeepsWishes(c, m, m')
    requires forall x: nat :: x < |c.tasks| ==> (m'.hist[x].place == Outside <==> m.hist[x].place == Outside)
    ensures AllFit(c, m')
  {
    forall x: nat | x < |c.tasks| ensures FitOk(c, m', x) {
      assert FitOk(c, m, x);
    }
  }

  ghost predicate AllFitShape(c: Config, m: Mem) {
    MemShape(c, m) && AllFit(c, m)
  }

  /** The dispatcher never finds a task homeless. */
  lemma AlwaysTarget(c: Config, s: State)
    requires Inv(c, s) && QueueOk(c, s) && AllFit(c, s.mem)
    ensures !(s.d.pc.DTarget? && s.d.pc.target == None)
  {
    if s.d.pc.DTarget? {
      ProtocolProof.HeldAt(c, s);
      assert DList(s.d)[|s.d.kept|] == s.d.pc.t;
      assert FitOk(c, s.mem, s.d.pc.t);
      FitsIsNotHomeless(c, s.mem, s.d.pc.t);
    }
  }

  lemma DispatchFits(c: Config, s: State)
    requires Inv(c, s) && QueueOk(c, s) && AllFit(c, s.mem) && s.d.relaxed == {}
    ensures AllFitShape(c, DispatchStep(c, s).mem) && DispatchStep(c, s).d.relaxed == {}
  {
    AlwaysTarget(c, s);
    ProtocolProof.DispatchInv(c, s);
    DispatchKeepsWishes(c, s);
    FitKept(c, s.mem, DispatchStep(c, s).mem);
    RelaxedGrowsAtTarget(c, s);
  }

  lemma RelaxedGrowsAtTarget(c: Config, s: State)
    requires Shape(c, s) && !(s.d.pc.DTarget? && s.d.pc.target == None)
    ensures DispatchStep(c, s).d.relaxed <= s.d.relaxed
  {
  }

  lemma WorkFits(c: Config, s: State, w: nat, finish: bool)
    requires Inv(c, s) && w < |s.ws| && AllFit(c, s.mem)
    ensures AllFitShape(c, WorkStep(c, s, w, finish).mem)
  {
    ProtocolProof.WorkInv(c, s, w, finish);
    WorkChanges(c, s.mem, w, s.ws[w], finish);
    FitKept(c, s.mem, WorkStep(c, s, w, finish).mem);
  }

  lemma SubmitFits(c: Config, s: State, step: Step)
    requires Shape(c, s) && AllFit(c, s.mem) && step.SubmitSend? && FittingStep(c, step)
    ensures AllFitShape(c, OutsideStep(c, s, step).mem)
  {
    var m' := OutsideStep(c, s, step).mem;
    forall x: nat | x < |c.tasks| ensures FitOk(c, m', x) {
      assert FitOk(c, s.mem, x);
    }
  }

  lemma OutsideFits(c: Config, s: State, step: Step)
    requires Shape(c, s) && AllFit(c, s.mem) && !step.SubmitSend? && !step.Dispatch? && !step.Work?
    ensures AllFitShape(c, OutsideStep(c, s, step).mem)
  {
    var m' := OutsideStep(c, s, step).mem;
    forall x: nat | x < |c.tasks| ensures FitOk(c, m', x) {
      assert FitOk(c, s.mem, x);
    }
  }

  lemma OutsideRelaxesNone(c: Config, s: State, step: Step)
    requires Shape(c, s) && !step.Dispatch? && !step.Work?
    ensures OutsideStep(c, s, step).d.relaxed == s.d.relaxed
  {
  }

  lemma StepFits(c: Config, s: State, step: Step)
    requires Inv(c, s) && QueueOk(c, s) && AllFit(c, s.mem) && s.d.relaxed == {} && FittingStep(c, step)
    ensures AllFitShape(c, Apply(c, s, step).mem) && Apply(c, s, step).d.relaxed == {}
  {
    match step
    case Dispatch => DispatchFits(c, s);
    case Work(w, finish) => if w < |s.ws| { WorkFits(c, s, w, finish); }
    case SubmitSend(_, _, _) => SubmitFits(c, s, step); OutsideRelaxesNone(c, s, step);
    case _ => OutsideFits(c, s, step); OutsideRelaxesNone(c, s, step);
  }

  lemma {:induction false} RunFits(c: Config, run: seq<Step>)
    requires ValidConfig(c) && FittingRun(c, run)
    ensures AllFit(c, Exec(c, run).mem) && Exec(c, run).d.relaxed == {}
  {
    if run != [] {
      var before := run[..|run| - 1];
      ExecLast(c, run);
      RunFits(c, before);
      RunQueueOk(c, before);
      ProtocolProof.RunInv(c, before);
      StepFits(c, Exec(c, before), run[|run| - 1]);
    }
  }

  /**
   * If some thread fits the wishes of every submitted task, with the label given to the submission counted, then no
   * task is ever relaxed, in any run, and the dispatcher never lacks a thread to choose.
   */
  lemma NeverRelaxed(c: Config, run: seq<Step>)
    requires ValidConfig(c) && FittingRun(c, run)
    ensures
      var s := Exec(c, run);
      && s.d.relaxed == {}
      && (forall t: nat :: t < |c.tasks| ==> s.mem.hist[t].relaxations == 0)
      && !(s.d.pc.DTarget? && s.d.pc.target == None)
  {
    RunFits(c, run);
    RunQueueOk(c, run);
    ProtocolProof.RunInv(c, run);
    var s := Exec(c, run);
    AlwaysTarget(c, s);
    forall t: nat | t < |c.tasks| ensures s.mem.hist[t].relaxations == 0 {
      assert FitOk(c, s.mem, t);
    }
  }

  /** The wishes of `t` are those with which the run submitted it. */
  ghost predicate AsSubmitted(c: Config, run: seq<Step>, m: Mem, t: TaskId)
    requires MemShape(c, m) && t < |c.tasks|
  {
    && m.cells[t].notOn == c.tasks[t].notOn
    && exists i :: 0 <= i < |run| && run[i].SubmitSend? && run[i].t == t && m.cells[t].preferred == WishOf(c, run[i])
  }

  /** What fits stays as it was submitted, in every run. */
  lemma {:induction false} WishesStay(c: Config, run: seq<Step>, t: TaskId)
    requires ValidConfig(c) && FittingRun(c, run) && t < |c.tasks| && Exec(c, run).mem.hist[t].place != Outside
    ensures AsSubmitted(c, run, Exec(c, run).mem, t)
  {
    assert run != [];
    var before, step := run[..|run| - 1], run[|run| - 1];
    var s := Exec(c, before);
    ExecLast(c, run);
    ProtocolProof.RunInv(c, before);
    Results.StepSubmits(c, s, step, t);
    RunFits(c, before);
    assert FitOk(c, s.mem, t);
    if s.mem.hist[t].place == Outside {
      assert run[|run| - 1] == step;
    } else {
      WishesStay(c, before, t);
      RunQueueOk(c, before);
      StepKeepsWishes(c, s, step, t);
      var i :| 0 <= i < |before| && before[i].SubmitSend? && before[i].t == t && s.mem.cells[t].preferred == WishOf(c, before[i]);
      assert run[i] == before[i];
    }
  }

  lemma StepKeepsWishes(c: Config, s: State, step: Step, t: TaskId)
    requires Inv(c, s) && QueueOk(c, s) && AllFit(c, s.mem) && s.d.relaxed == {}
    requires t < |c.tasks| && s.mem.hist[t].place != Outside
    ensures
      var m' := Apply(c, s, step).mem;
      m'.cells[t].preferred == s.mem.cells[t].preferred && m'.cells[t].notOn == s.mem.cells[t].notOn
  {
    if step.Dispatch? {
      AlwaysTarget(c, s);
      DispatchKeepsWishes(c, s);
    } else if step.Work? {
      if step.w < |s.ws| {
        WorkChanges(c, s.mem, step.w, s.ws[step.w], step.finish);
      }
    } else {
      OutsideChanges(c, s, step);
    }
  }

  lemma DispatchKeepsWishes(c: Config, s: State)
    requires Shape(c, s) && !(s.d.pc.DTarget? && s.d.pc.target == None)
    ensures KeepsWishes(c, s.mem, DispatchStep(c, s).mem)
  {
    if s.d.pc.DTop? || s.d.pc.DSend? || s.d.pc.DWrite? || s.d.pc.DRetire? {
      MemoryKeepsWishes(c, s);
    } else {
      ControlKeepsWishes(c, s);
    }
  }

  /** The other half: of the tasks that come to placement, in any run, exactly those are relaxed that no thread fits. */
  lemma RelaxedIfUnfit(c: Config, run: seq<Step>)
    requires ValidConfig(c) && Exec(c, run).d.pc.DTarget?
    ensures
      var s := Exec(c, run);
      var t := s.d.pc.t;
      var s' := Exec(c, run + [Dispatch]);
      var fits := Fits(c, s.mem.cells[t].preferred, s.mem.cells[t].notOn);
      && s'.mem.hist[t].relaxations == s.mem.hist[t].relaxations + (if fits then 0 else 1)
      && (!fits ==> t in s'.d.relaxed && t in s'.d.kept)
  {
    RunQueueOk(c, run);
    ExecNext(c, run, Dispatch);
    TargetIfFits(c, Exec(c, run));
  }

  lemma TargetIfFits(c: Config, s: State)
    requires Shape(c, s) && QueueOk(c, s) && s.d.pc.DTarget?
    ensures
      var t, s' := s.d.pc.t, DispatchStep(c, s);
      var fits := Fits(c, s.mem.cells[t].preferred, s.mem.cells[t].notOn);
      && s'.mem.hist[t].relaxations == s.mem.hist[t].relaxations + (if fits then 0 else 1)
      && (!fits ==> t in s'.d.relaxed && t in s'.d.kept)
  {
    var t := s.d.pc.t;
    FitsIsNotHomeless(c, s.mem, t);
    assert s.d.pc.target.None? <==> Homeless(c, s.mem, t);
  }

  // ----- what the dispatcher sleeps through -----

  /**
   * No lost wake-up at the dispatcher, in every run: when it sleeps on a signal that is not set and nobody owes a
   * wake, the channel is empty, and no task it keeps could be retired, sent or relaxed now, but for tasks whose
   * wishes it relaxed in its last pass, or that were cancelled, or whose predecessor was, since it last looked at them.
   */
  lemma NoLostWakeUp(c: Config, run: seq<Step>)
    requires ValidConfig(c)
    ensures
      var s := Exec(c, run);
      Asleep(s) ==>
        && s.d.channel == []
        && s.d.todo == []
        && (forall i :: 0 <= i < |s.d.kept| ==> Actionable(c, s, s.d.kept[i]) ==> Excused(s, s.d.kept[i]))
  {
    RunQueueOk(c, run);
    var s := Exec(c, run);
    assert forall i :: 0 <= i < |s.d.kept| ==> Watched(c, s, s.d.kept[i]);
  }

  // ----- tasks that a cancel concerns -----

  /** The task is cancelled, or its predecessor is. */
  ghost predicate Hit(c: Config, s: State, t: TaskId)
    requires Shape(c, s) && t < |c.tasks|
  {
    PredState(c, s.mem, t) == Cancelled || s.mem.cells[t].state == Cancelled
  }

  /** A task that is to be looked at again was hit by a cancel, unless a wake is owed. */
  ghost predicate Marked(c: Config, s: State, t: TaskId)
    requires Shape(c, s) && t < |c.tasks|
  {
    t in s.d.unseen ==> Noticed(s) || Hit(c, s, t)
  }

  /** So it is for the tasks that the dispatcher keeps, and for the one in its hands. */
  ghost predicate MarksOk(c: Config, s: State)
    requires Shape(c, s)
  {
    && (forall i :: 0 <= i < |s.d.kept| ==> Marked(c, s, s.d.kept[i]))
    && (DHolds(s.d.pc) ==> Marked(c, s, s.d.pc.t))
  }

  /** What others may do: cancel states, and mark the tasks concerned; all else leaves a wake owed. */
  ghost predicate OnlyCancels(c: Config, s: State, s': State)
    requires Shape(c, s) && Shape(c, s')
  {
    && (Noticed(s) ==> Noticed(s'))
    && (!Noticed(s') ==>
          && (forall x: nat :: x < |c.tasks| ==>
                s'.mem.cells[x].state == s.mem.cells[x].state || s'.mem.cells[x].state == Cancelled)
          && (forall u: nat :: u < |c.tasks| && u in s'.d.unseen && u !in s.d.unseen ==> Hit(c, s', u)))
  }

  lemma MarkStays(c: Config, s: State, s': State, t: TaskId)
    requires Shape(c, s) && Shape(c, s') && OnlyCancels(c, s, s') && t < |c.tasks| && Marked(c, s, t)
    ensures Marked(c, s', t)
  {
  }

  lemma OthersMark(c: Config, s: State, s': State)
    requires Shape(c, s) && Shape(c, s') && OnlyCancels(c, s, s') && MarksOk(c, s)
    requires s'.d.kept == s.d.kept && s'.d.pc == s.d.pc
    ensures MarksOk(c, s')
  {
    forall i | 0 <= i < |s'.d.kept| ensures Marked(c, s', s'.d.kept[i]) {
      MarkStays(c, s, s', s.d.kept[i]);
    }
    if DHolds(s.d.pc) {
      MarkStays(c, s, s', s.d.pc.t);
    }
  }

  lemma WorkMarks(c: Config, s: State, w: nat, finish: bool)
    requires Inv(c, s) && Slots.SlotsOk(c, s) && w < |s.ws| && MarksOk(c, s)
    ensures MarksOk(c, WorkStep(c, s, w, finish))
  {
    var s' := WorkStep(c, s, w, finish);
    WorkQuiet(c, s, w, finish);
    WorkChanges(c, s.mem, w, s.ws[w], finish);
    assert s'.ws[w] == WorkerStep(c, s.mem, w, s.ws[w], finish).me;
    OthersMark(c, s, s');
  }

  lemma CancelHits(c: Config, s: State, step: Step)
    requires Shape(c, s) && step.Cancel? && step.t < |c.tasks|
    ensures
      var s' := OutsideStep(c, s, step);
      && (forall x: nat :: x < |c.tasks| ==>
            s'.mem.cells[x].state == s.mem.cells[x].state || s'.mem.cells[x].state == Cancelled)
      && (forall u: nat :: u < |c.tasks| && u in s'.d.unseen && u !in s.d.unseen ==> Hit(c, s', u))
  {
    var s' := OutsideStep(c, s, step);
    forall u: nat | u < |c.tasks| && u in s'.d.unseen && u !in s.d.unseen ensures Hit(c, s', u) {
      assert Concerns(c, step.t, u);
    }
  }

  lemma OutsideMarks(c: Config, s: State, step: Step)
    requires Inv(c, s) && MarksOk(c, s) && !step.Dispatch? && !step.Work?
    ensures MarksOk(c, OutsideStep(c, s, step))
  {
    var s' := OutsideStep(c, s, step);
    OutsideQuiet(c, s, step);
    if step.Cancel? {
      if step.t < |c.tasks| {
        CancelHits(c, s, step);
      }
    } else {
      OutsideKeepsStates(c, s, step);
    }
    OthersMark(c, s, s');
  }

  lemma OutsideKeepsStates(c: Config, s: State, step: Step)
    requires Shape(c, s) && !step.Dispatch? && !step.Work? && !step.Cancel?
    ensures
      var s' := OutsideStep(c, s, step);
      s'.d.unseen == s.d.unseen && forall x: nat :: x < |c.tasks| ==> s'.mem.cells[x].state == s.mem.cells[x].state
  {
  }

  /** A step that changes neither states nor marks. */
  lemma SameMarks(c: Config, s: State, s': State, t: TaskId)
    requires Shape(c, s) && Shape(c, s') && t < |c.tasks| && Marked(c, s, t)
    requires Noticed(s) ==> Noticed(s')
    requires s'.d.unseen <= s.d.unseen
    requires forall x: nat :: x < |c.tasks| ==> s'.mem.cells[x].state == s.mem.cells[x].state
    ensures Marked(c, s', t)
  {
  }

  lemma PassMarks(c: Config, s: State)
    requires Inv(c, s) && MarksOk(c, s) && !s.d.pc.DWrite? && !s.d.pc.DRetire? && !s.d.pc.DWait? && !s.d.pc.DTop?
    ensures MarksOk(c, DispatchStep(c, s))
  {
    var s' := DispatchStep(c, s);
    PassKeeps(c, s);
    if Noticed(s) {
      WorkersNotice(s, s');
    }
    forall i | 0 <= i < |s'.d.kept| ensures Marked(c, s', s'.d.kept[i]) {
      var t := s'.d.kept[i];
      if t in s'.d.unseen {
        MineMarked(c, s, t);
        SameMarks(c, s, s', t);
      }
    }
    if DHolds(s'.d.pc) && s'.d.pc.t in s'.d.unseen {
      MineMarked(c, s, s'.d.pc.t);
      SameMarks(c, s, s', s'.d.pc.t);
    }
  }

  /** Where the tasks of the dispatcher come from: from its kept ones and from its hands, or they were picked just now. */
  lemma PassKeeps(c: Config, s: State)
    requires Shape(c, s) && !s.d.pc.DWrite? && !s.d.pc.DRetire? && !s.d.pc.DWait? && !s.d.pc.DTop?
    ensures
      var s' := DispatchStep(c, s);
      && s'.d.unseen <= s.d.unseen && s'.d.flag == s.d.flag && s'.d.owing == s.d.owing
      && |s'.ws| == |s.ws| && (forall w :: 0 <= w < |s.ws| ==> s'.ws[w].pc == s.ws[w].pc)
      && (forall x: nat :: x < |c.tasks| ==> s'.mem.cells[x].state == s.mem.cells[x].state)
      && (forall t: TaskId :: t in s'.d.kept ==> Mine(s, t) || t !in s'.d.unseen)
      && (DHolds(s'.d.pc) ==> Mine(s, s'.d.pc.t) || s'.d.pc.t !in s'.d.unseen)
  {
    if s.d.pc.DTarget? || s.d.pc.DNext? {
      ListKeeps(c, s);
    } else if s.d.pc.DSend? || s.d.pc.DSub? || s.d.pc.DWakeWorker? {
      SendKeeps(c, s);
    } else {
      assert DispatchStep(c, s) == SetDPc(s, DispatchStep(c, s).d.pc);
    }
  }

  ghost predicate Mine(s: State, t: TaskId) {
    t in s.d.kept || (DHolds(s.d.pc) && s.d.pc.t == t)
  }

  lemma ListKeeps(c: Config, s: State)
    requires Shape(c, s) && (s.d.pc.DTarget? || s.d.pc.DNext?)
    ensures
      var s' := DispatchStep(c, s);
      && s'.d.unseen <= s.d.unseen && s'.d.flag == s.d.flag && s'.d.owing == s.d.owing && s'.ws == s.ws
      && (forall x: nat :: x < |c.tasks| ==> s'.mem.cells[x].state == s.mem.cells[x].state)
      && (forall t: TaskId :: t in s'.d.kept ==> Mine(s, t) || t !in s'.d.unseen)
      && (DHolds(s'.d.pc) ==> Mine(s, s'.d.pc.t) || s'.d.pc.t !in s'.d.unseen)
  {
  }

  lemma SendKeeps(c: Config, s: State)
    requires Shape(c, s) && (s.d.pc.DSend? || s.d.pc.DSub? || s.d.pc.DWakeWorker?)
    ensures
      var s' := DispatchStep(c, s);
      && s'.d.unseen == s.d.unseen && s'.d.flag == s.d.flag && s'.d.owing == s.d.owing && s'.d.kept == s.d.kept
      && |s'.ws| == |s.ws| && (forall w :: 0 <= w < |s.ws| ==> s'.ws[w].pc == s.ws[w].pc)
      && (forall x: nat :: x < |c.tasks| ==> s'.mem.cells[x].state == s.mem.cells[x].state)
      && !DHolds(s'.d.pc)
  {
  }

  lemma MineMarked(c: Config, s: State, t: TaskId)
    requires Shape(c, s) && MarksOk(c, s) && Mine(s, t)
    ensures t < |c.tasks| && Marked(c, s, t)
  {
  }

  lemma DispatchMarks(c: Config, s: State)
    requires Inv(c, s) && MarksOk(c, s)
    ensures MarksOk(c, DispatchStep(c, s))
  {
    if s.d.pc.DWrite? || s.d.pc.DRetire? {
      assert Noticed(DispatchStep(c, s));
    } else if s.d.pc.DWait? || s.d.pc.DTop? {
      var d := DispatchStep(c, s).d;
      assert DispatchStep(c, s) == s || (d.kept == [] && !DHolds(d.pc));
    } else {
      PassMarks(c, s);
    }
  }

  lemma StepMarks(c: Config, s: State, step: Step)
    requires Inv(c, s) && Slots.SlotsOk(c, s) && MarksOk(c, s)
    ensures MarksOk(c, Apply(c, s, step))
  {
    if step.Dispatch? {
      DispatchMarks(c, s);
    } else if step.Work? {
      if step.w < |s.ws| {
        WorkMarks(c, s, step.w, step.finish);
      }
    } else {
      OutsideMarks(c, s, step);
    }
  }

  lemma {:induction false} RunMarks(c: Config, run: seq<Step>)
    requires ValidConfig(c)
    ensures MarksOk(c, Exec(c, run))
  {
    if run != [] {
      var before := run[..|run| - 1];
      ExecLast(c, run);
      RunMarks(c, before);
      Slots.RunSlots(c, before);
      ProtocolProof.RunInv(c, before);
      StepMarks(c, Exec(c, before), run[|run| - 1]);
    }
  }

  /** The dispatcher sleeps, its flag is down, and nobody owes it a wake. */
  ghost predicate Asleep(s: State) {
    s.d.pc.DWait? && !s.d.flag && !Owed(s)
  }

  /**
   * Exactly what the dispatcher sleeps through, in every run, cancels included: of the tasks it keeps and that can
   * execute, those that were cancelled, or whose predecessor was, since it last looked at them, and those that it
   * relaxed in its last pass and that could now be sent, or relaxed again.
   */
  lemma SleepsExactly(c: Config, run: seq<Step>, i: nat)
    requires ValidConfig(c) && Asleep(Exec(c, run)) && i < |Exec(c, run).d.kept|
    ensures
      var s := Exec(c, run);
      var t := s.d.kept[i];
      Actionable(c, s, t) <==>
        && CanExecute(c, s.mem, t)
        && (t in s.d.unseen || (t in s.d.relaxed && (Placeable(c, s, t) || Homeless(c, s.mem, t))))
  {
    var s := Exec(c, run);
    RunQueueOk(c, run);
    RunMarks(c, run);
    assert Watched(c, s, s.d.kept[i]) && Marked(c, s, s.d.kept[i]);
  }

  /** With wishes that fit and no cancels there is no exception at all: the dispatcher sleeps through nothing. */
  lemma SleepsThroughNothing(c: Config, run: seq<Step>, i: nat)
    requires ValidConfig(c) && Results.CancelFree(run) && FittingRun(c, run)
    requires Asleep(Exec(c, run)) && i < |Exec(c, run).d.kept|
    ensures !Actionable(c, Exec(c, run), Exec(c, run).d.kept[i])
  {
    SleepsExactly(c, run, i);
    NeverRelaxed(c, run);
    Results.NoneCancelled(c, run);
  }
}
