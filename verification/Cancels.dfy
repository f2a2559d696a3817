/** What cancels and panics do to tasks: to their own, and to those that continue them. */
module Cancels {
  import opened Tasks
  import opened Memory
  import opened Protocol
  import opened ProtocolInvariant
  import ProtocolProof
  import WorkerProof
  import Results
  import Crash

  // ----- a task whose predecessor is cancelled -----

  /** Nobody is about to write down anything but a cancellation for `t`. */
  ghost predicate OnlyCancelComes(s: State, t: TaskId) {
    && (s.d.pc.DWrite? && s.d.pc.t == t ==> s.d.pc.st == Cancelled)
    && (forall w: nat :: w < |s.ws| && s.ws[w].pc.WWrite? && s.ws[w].pc.t == t ==> s.ws[w].pc.st == Cancelled)
  }

  /** The predecessor has ended and is cancelled; the function of `t` has not been called, and `t` ends cancelled if at all. */
  ghost predicate Orphan(c: Config, s: State, t: TaskId) {
    && Shape(c, s) && t < |c.tasks| && HasPred(c.tasks[t])
    && var p := c.tasks[t].body.pred;
       && Done(s.mem.hist[p].stage) && s.mem.cells[p].state == Cancelled
       && s.mem.hist[t].calls == [] && OnlyCancelComes(s, t)
       && (Done(s.mem.hist[t].stage) ==> s.mem.cells[t].state == Cancelled)
  }

  /** What the step did to `t` itself. */
  ghost predicate StillOrphan(m: Mem, m': Mem, t: TaskId)
    requires t < |m.cells| == |m.hist| == |m'.cells| == |m'.hist|
  {
    && m'.hist[t].calls == []
    && (Done(m'.hist[t].stage) ==> Done(m.hist[t].stage) || m'.cells[t].state == Cancelled)
  }

  /** What a step that is not on `t` leaves of it. */
  ghost predicate Leaves(m: Mem, m': Mem, t: TaskId) {
    && t < |m.cells| == |m.hist| == |m'.cells| == |m'.hist|
    && m'.cells[t].state == m.cells[t].state && m'.hist[t].stage == m.hist[t].stage && m'.hist[t].calls == m.hist[t].calls
    && (m'.hist[t].place == m.hist[t].place || m'.hist[t].place == Held)
  }

  /** A step of the dispatcher on another task, or on none. */
  lemma OtherLeaves(c: Config, s: State, t: TaskId)
    requires Shape(c, s) && t < |c.tasks| && !(DHolds(s.d.pc) && s.d.pc.t == t)
    ensures Leaves(s.mem, DispatchStep(c, s).mem, t)
  {
    if DHolds(s.d.pc) {
      OtherHandLeaves(c, s, t);
    }
  }

  lemma OtherHandLeaves(c: Config, s: State, t: TaskId)
    requires Shape(c, s) && t < |c.tasks| && DHolds(s.d.pc) && s.d.pc.t != t
    ensures Leaves(s.mem, DispatchStep(c, s).mem, t)
  {
  }

  lemma OtherPc(c: Config, s: State, t: TaskId)
    requires Shape(c, s) && t < |c.tasks| && !(DHolds(s.d.pc) && s.d.pc.t == t)
    ensures var pc := DispatchStep(c, s).d.pc; DHolds(pc) && pc.t == t ==> pc.DPanicCheck?
  {
  }

  lemma DispatchOrphan(c: Config, s: State, t: TaskId)
    requires Inv(c, s) && Orphan(c, s, t)
    ensures StillOrphan(s.mem, DispatchStep(c, s).mem, t)
    ensures var pc := DispatchStep(c, s).d.pc; pc.DWrite? && pc.t == t ==> pc.st == Cancelled
  {
    if DHolds(s.d.pc) && s.d.pc.t == t {
      OwnLook(c, s, t);
    } else {
      OtherLeaves(c, s, t);
      OtherPc(c, s, t);
    }
  }

  /** The dispatcher finds that the predecessor is cancelled, and settles or retires the task. */
  lemma OwnLook(c: Config, s: State, t: TaskId)
    requires Inv(c, s) && Orphan(c, s, t) && DHolds(s.d.pc) && s.d.pc.t == t
    ensures StillOrphan(s.mem, DispatchStep(c, s).mem, t)
    ensures var pc := DispatchStep(c, s).d.pc; pc.DWrite? && pc.t == t ==> pc.st == Cancelled
  {
    assert DOk(c, s.mem, s.d);
  }

  lemma DispatchKeepsPcs(c: Config, s: State)
    requires Shape(c, s)
    ensures forall w: nat :: w < |s.ws| ==> DispatchStep(c, s).ws[w].pc == s.ws[w].pc
  {
  }

  /** A step of a worker with no task in hand begins a poll, or polls a root. */
  lemma ListOrphan(c: Config, m: Mem, w: nat, me: Worker, finish: bool, t: TaskId)
    requires MemShape(c, m) && WShape(c, me) && !WHolds(me.pc) && t < |c.tasks| && HasPred(c.tasks[t])
    requires m.hist[t].calls == []
    ensures
      var r := WorkerStep(c, m, w, me, finish);
      StillOrphan(m, r.mem, t) && !r.me.pc.WWrite?
  {
  }

  /** A step of a worker on another task. */
  lemma OtherHand(c: Config, m: Mem, w: nat, me: Worker, finish: bool, t: TaskId)
    requires MemShape(c, m) && WShape(c, me) && WHolds(me.pc) && me.pc.t != t && t < |c.tasks|
    ensures
      var r := WorkerStep(c, m, w, me, finish);
      r.mem.hist[t] == m.hist[t] && r.mem.cells[t].state == m.cells[t].state && (WHolds(r.me.pc) ==> r.me.pc.t == me.pc.t)
  {
  }

  /** A step of a worker on the task itself: its future settles it, or retires it. */
  lemma OwnHand(c: Config, m: Mem, w: nat, me: Worker, finish: bool, t: TaskId)
    requires MemShape(c, m) && WShape(c, me) && WHolds(me.pc) && me.pc.t == t && HasPred(c.tasks[t])
    requires WKnows(c, m, me) && TaskOk(c, m, t) && m.hist[t].calls == []
    requires m.cells[c.tasks[t].body.pred].state == Cancelled && (me.pc.WWrite? ==> me.pc.st == Cancelled)
    ensures
      var r := WorkerStep(c, m, w, me, finish);
      StillOrphan(m, r.mem, t) && (r.me.pc.WWrite? ==> r.me.pc.st == Cancelled)
  {
  }

  lemma HandOrphan(c: Config, s: State, w: nat, finish: bool, t: TaskId)
    requires Inv(c, s) && Orphan(c, s, t) && w < |s.ws| && WHolds(s.ws[w].pc)
    ensures StillOrphan(s.mem, WorkStep(c, s, w, finish).mem, t)
    ensures var pc := WorkStep(c, s, w, finish).ws[w].pc; pc.WWrite? && pc.t == t ==> pc.st == Cancelled
  {
    if s.ws[w].pc.t == t {
      assert WOk(c, s.mem, s.ws[w]) && TaskOk(c, s.mem, t);
      OwnHand(c, s.mem, w, s.ws[w], finish, t);
    } else {
      OtherHand(c, s.mem, w, s.ws[w], finish, t);
    }
  }

  lemma OutsideOrphan(c: Config, s: State, step: Step, t: TaskId)
    requires Inv(c, s) && Orphan(c, s, t) && !step.Dispatch? && !step.Work?
    ensures StillOrphan(s.mem, OutsideStep(c, s, step).mem, t)
  {
    Results.OutsideHist(c, s, step);
  }

  lemma OutsideKeepsPcs(c: Config, s: State, step: Step)
    requires Shape(c, s) && !step.Dispatch? && !step.Work?
    ensures OutsideStep(c, s, step).d.pc == s.d.pc
    ensures forall w: nat :: w < |s.ws| ==> OutsideStep(c, s, step).ws[w].pc == s.ws[w].pc
  {
  }

  lemma OrphanOn(c: Config, s: State, step: Step, t: TaskId)
    requires Inv(c, s) && Orphan(c, s, t)
    ensures Orphan(c, Apply(c, s, step), t)
  {
    ProtocolProof.StepInv(c, s, step);
    assert LaterTask(s.mem, Apply(c, s, step).mem, t) && LaterTask(s.mem, Apply(c, s, step).mem, c.tasks[t].body.pred);
    if step.Dispatch? {
      DispatchOrphan(c, s, t);
      DispatchKeepsPcs(c, s);
    } else if step.Work? {
      if step.w < |s.ws| {
        if WHolds(s.ws[step.w].pc) {
          HandOrphan(c, s, step.w, step.finish, t);
        } else {
          ListOrphan(c, s.mem, step.w, s.ws[step.w], step.finish, t);
        }
      }
    } else {
      OutsideOrphan(c, s, step, t);
      OutsideKeepsPcs(c, s, step);
    }
  }

  /**
   * A cancel reaches the continuation: once the predecessor has ended and is cancelled, the function of a task that was not
   * called before is never called, whatever happens, and the task ends cancelled, if it ends.
   */
  lemma CancelIsPassedOn(c: Config, run: seq<Step>, more: seq<Step>, t: TaskId)
    requires ValidConfig(c) && Orphan(c, Exec(c, run), t)
    ensures
      var m := Exec(c, run + more).mem;
      m.hist[t].calls == [] && (Done(m.hist[t].stage) ==> m.cells[t].state == Cancelled)
  {
    var holds := (s: State) => Orphan(c, s, t);
    forall s: State, step: Step | Inv(c, s) && holds(s) ensures holds(Apply(c, s, step)) {
      OrphanOn(c, s, step, t);
    }
    ProtocolProof.KeptOnwards(c, run, more, holds);
  }

  // ----- a task whose predecessor has panicked -----

  /**
   * The predecessor has panicked and ended; the function of `t` has not been called, nobody is beyond the check for a panic
   * with it, and it ends panicked if at all. It may be cancelled.
   */
  ghost predicate Bereaved(c: Config, s: State, t: TaskId) {
    && Shape(c, s) && t < |c.tasks| && HasPred(c.tasks[t])
    && var p := c.tasks[t].body.pred;
       && Done(s.mem.hist[p].stage) && s.mem.cells[p].state == Panicked
       && s.mem.hist[t].calls == [] && OnlyPanicComes(s, t)
       && (Done(s.mem.hist[t].stage) ==> s.mem.cells[t].state == Panicked)
  }

  ghost predicate OnlyPanicComes(s: State, t: TaskId) {
    && (DHolds(s.d.pc) && s.d.pc.t == t ==>
          !s.d.pc.DPredCheck? && !s.d.pc.DSelfCheck? && (s.d.pc.DWrite? ==> s.d.pc.st == Panicked))
    && (forall w: nat :: w < |s.ws| && s.ws[w].pc.WWrite? && s.ws[w].pc.t == t ==> s.ws[w].pc.st == Panicked)
  }

  ghost predicate StillBereaved(m: Mem, m': Mem, t: TaskId)
    requires t < |m.cells| == |m.hist| == |m'.cells| == |m'.hist|
  {
    && m'.hist[t].calls == []
    && (Done(m'.hist[t].stage) ==> m'.cells[t].state == if Done(m.hist[t].stage) then m.cells[t].state else Panicked)
  }

  lemma OwnPanicLook(c: Config, s: State, t: TaskId)
    requires Inv(c, s) && Bereaved(c, s, t) && DHolds(s.d.pc) && s.d.pc.t == t
    ensures StillBereaved(s.mem, DispatchStep(c, s).mem, t)
    ensures var pc := DispatchStep(c, s).d.pc;
            DHolds(pc) && pc.t == t ==> !pc.DPredCheck? && !pc.DSelfCheck? && (pc.DWrite? ==> pc.st == Panicked)
  {
    assert DOk(c, s.mem, s.d);
  }

  lemma DispatchBereaved(c: Config, s: State, t: TaskId)
    requires Inv(c, s) && Bereaved(c, s, t)
    ensures StillBereaved(s.mem, DispatchStep(c, s).mem, t)
    ensures var pc := DispatchStep(c, s).d.pc;
            DHolds(pc) && pc.t == t ==> !pc.DPredCheck? && !pc.DSelfCheck? && (pc.DWrite? ==> pc.st == Panicked)
  {
    if DHolds(s.d.pc) && s.d.pc.t == t {
      OwnPanicLook(c, s, t);
    } else {
      OtherLeaves(c, s, t);
      OtherPc(c, s, t);
    }
  }

  lemma OwnPanicHand(c: Config, m: Mem, w: nat, me: Worker, finish: bool, t: TaskId)
    requires MemShape(c, m) && WShape(c, me) && WHolds(me.pc) && me.pc.t == t && HasPred(c.tasks[t])
    requires WKnows(c, m, me) && TaskOk(c, m, t) && m.hist[t].calls == []
    requires m.cells[c.tasks[t].body.pred].state == Panicked && (me.pc.WWrite? ==> me.pc.st == Panicked)
    ensures
      var r := WorkerStep(c, m, w, me, finish);
      StillBereaved(m, r.mem, t) && (r.me.pc.WWrite? ==> r.me.pc.st == Panicked)
  {
  }

  lemma ListBereaved(c: Config, m: Mem, w: nat, me: Worker, finish: bool, t: TaskId)
    requires MemShape(c, m) && WShape(c, me) && !WHolds(me.pc) && t < |c.tasks| && HasPred(c.tasks[t])
    requires m.hist[t].calls == []
    ensures
      var r := WorkerStep(c, m, w, me, finish);
      StillBereaved(m, r.mem, t) && !r.me.pc.WWrite?
  {
  }

  lemma WorkBereaved(c: Config, s: State, w: nat, finish: bool, t: TaskId)
    requires Inv(c, s) && Bereaved(c, s, t) && w < |s.ws|
    ensures StillBereaved(s.mem, WorkStep(c, s, w, finish).mem, t)
    ensures var pc := WorkStep(c, s, w, finish).ws[w].pc; pc.WWrite? && pc.t == t ==> pc.st == Panicked
  {
    var me := s.ws[w];
    if !WHolds(me.pc) {
      ListBereaved(c, s.mem, w, me, finish, t);
    } else if me.pc.t == t {
      assert WOk(c, s.mem, me) && TaskOk(c, s.mem, t);
      OwnPanicHand(c, s.mem, w, me, finish, t);
    } else {
      OtherHand(c, s.mem, w, me, finish, t);
    }
  }

  lemma OutsideBereaved(c: Config, s: State, step: Step, t: TaskId)
    requires Inv(c, s) && Bereaved(c, s, t) && !step.Dispatch? && !step.Work? && step != Cancel(t)
    ensures StillBereaved(s.mem, OutsideStep(c, s, step).mem, t)
  {
    Results.OutsideHist(c, s, step);
    OutsideState(c, s, step, t);
  }

  /** The state of a task that has ended changes only when it is cancelled. */
  lemma EndedStays(c: Config, s: State, step: Step, p: TaskId)
    requires Inv(c, s) && p < |c.tasks| && Done(s.mem.hist[p].stage) && step != Cancel(p)
    ensures Done(Apply(c, s, step).mem.hist[p].stage) && Apply(c, s, step).mem.cells[p].state == s.mem.cells[p].state
  {
    if step.Dispatch? {
      ProtocolProof.StepInv(c, s, step);
      assert LaterTask(s.mem, DispatchStep(c, s).mem, p);
      DispatchLeavesEnded(c, s, p);
    } else {
      Crash.OnlyCancels(c, s, step, p);
    }
  }

  lemma DispatchLeavesEnded(c: Config, s: State, p: TaskId)
    requires Inv(c, s) && p < |c.tasks| && Done(s.mem.hist[p].stage)
    ensures DispatchStep(c, s).mem.cells[p].state == s.mem.cells[p].state
  {
    assert DOk(c, s.mem, s.d);
  }

  lemma BereavedOn(c: Config, s: State, step: Step, t: TaskId)
    requires Inv(c, s) && Bereaved(c, s, t) && step != Cancel(t) && step != Cancel(c.tasks[t].body.pred)
    ensures Bereaved(c, Apply(c, s, step), t)
  {
    EndedStays(c, s, step, c.tasks[t].body.pred);
    if step.Dispatch? {
      DispatchBereaved(c, s, t);
      DispatchKeepsPcs(c, s);
    } else if step.Work? {
      if step.w < |s.ws| {
        WorkBereaved(c, s, step.w, step.finish, t);
      }
    } else {
      OutsideBereaved(c, s, step, t);
      OutsideKeepsPcs(c, s, step);
    }
  }

  /**
   * A panic reaches the continuation: once the predecessor has panicked and ended, the function of a task that was not called
   * before is never called, and the task ends panicked, if it ends, even if it was cancelled before; unless one of the two
   * is cancelled afterwards.
   */
  lemma {:induction false} PanicIsPassedOn(c: Config, run: seq<Step>, more: seq<Step>, t: TaskId)
    requires ValidConfig(c) && Bereaved(c, Exec(c, run), t)
    requires forall k :: 0 <= k < |more| ==> more[k] != Cancel(t) && more[k] != Cancel(c.tasks[t].body.pred)
    ensures
      var m := Exec(c, run + more).mem;
      m.hist[t].calls == [] && (Done(m.hist[t].stage) ==> m.cells[t].state == Panicked)
  {
    var holds := (s: State) => Bereaved(c, s, t);
    var allowed := (step: Step) => step != Cancel(t) && step != Cancel(c.tasks[t].body.pred);
    forall s: State, step: Step | Inv(c, s) && holds(s) && allowed(step) ensures holds(Apply(c, s, step)) {
      BereavedOn(c, s, step, t);
    }
    ProtocolProof.KeptBy(c, run, more, holds, allowed);
  }

  // ----- a task that is cancelled before it is placed -----

  /** The dispatcher has not looked at the state of the task that it has in its hands. */
  predicate BeforeLook(pc: DPc) {
    pc.DPanicCheck? || pc.DGetPanic? || pc.DPredCheck? || pc.DSelfCheck? || pc.DCrashed?
  }

  /** The task is cancelled, and has not got beyond the dispatcher's look at it, or was settled there. */
  ghost predicate Stopped(c: Config, s: State, t: TaskId) {
    && Shape(c, s) && t < |c.tasks|
    && var place := s.mem.hist[t].place;
       && (place == Outside || place == Channel || place == Held || place == Retired)
       && s.mem.hist[t].calls == []
       && (s.d.pc.DWrite? && s.d.pc.t == t ==> s.d.pc.st == Cancelled || Inherits(c, t))
       && (DHolds(s.d.pc) && s.d.pc.t == t ==> BeforeLook(s.d.pc) || s.d.pc.DWrite? || s.d.pc.DRetire?)
       && if Done(s.mem.hist[t].stage)
          then s.mem.cells[t].state == Cancelled || (s.mem.cells[t].state == Panicked && Inherits(c, t))
          else s.mem.cells[t].state == Cancelled
  }

  lemma OtherStopped(c: Config, s: State, t: TaskId)
    requires Inv(c, s) && Stopped(c, s, t) && !(DHolds(s.d.pc) && s.d.pc.t == t)
    ensures Stopped(c, DispatchStep(c, s), t)
  {
    OtherLeaves(c, s, t);
    OtherPc(c, s, t);
  }

  /** A step of the dispatcher on the task: it looks at it, settles it, or retires it. */
  lemma HandStopped(c: Config, s: State, t: TaskId)
    requires Inv(c, s) && Stopped(c, s, t) && DHolds(s.d.pc) && s.d.pc.t == t && s.mem.hist[t].place == Held
    ensures Stopped(c, DispatchStep(c, s), t)
  {
    assert DOk(c, s.mem, s.d);
    if s.d.pc.DRetire? {
      RetiringStopped(c, s, t);
    } else if s.d.pc.DWrite? {
      assert DispatchStep(c, s).mem == WriteState(s.mem, t, s.d.pc.st, Firing(0));
    } else {
      LookStopped(c, s, t);
    }
  }

  lemma LookStopped(c: Config, s: State, t: TaskId)
    requires Inv(c, s) && Stopped(c, s, t) && DHolds(s.d.pc) && s.d.pc.t == t && BeforeLook(s.d.pc)
    ensures Stopped(c, DispatchStep(c, s), t)
  {
    assert DispatchStep(c, s).mem == s.mem;
    if HasPred(c.tasks[t]) {
      assert TaskOk(c, s.mem, c.tasks[t].body.pred);
    }
  }

  lemma RetiringStopped(c: Config, s: State, t: TaskId)
    requires Inv(c, s) && Stopped(c, s, t) && s.d.pc.DRetire? && s.d.pc.t == t && s.mem.hist[t].place == Held
    ensures Stopped(c, DispatchStep(c, s), t)
  {
    assert DOk(c, s.mem, s.d);
    var r := DRetireStep(c, s, t, s.d.pc.k);
    assert r.mem.cells[t].state == s.mem.cells[t].state && r.mem.hist[t].calls == s.mem.hist[t].calls;
  }

  lemma DispatchStopped(c: Config, s: State, t: TaskId)
    requires Inv(c, s) && Stopped(c, s, t)
    ensures Stopped(c, DispatchStep(c, s), t)
  {
    if DHolds(s.d.pc) && s.d.pc.t == t {
      ProtocolProof.HeldAt(c, s);
      assert DList(s.d)[|s.d.kept|] == t;
      HandStopped(c, s, t);
    } else {
      OtherStopped(c, s, t);
    }
  }

  lemma WorkStopped(c: Config, s: State, w: nat, finish: bool, t: TaskId)
    requires Inv(c, s) && Stopped(c, s, t) && w < |s.ws|
    ensures Stopped(c, WorkStep(c, s, w, finish), t)
  {
    ProtocolProof.FuturesAt(c, s, w);
    WorkLeaves(c, s.mem, w, s.ws[w], finish, t);
  }

  lemma WorkLeaves(c: Config, m: Mem, w: nat, me: Worker, finish: bool, t: TaskId)
    requires WorkerProof.WPre(c, m, w, me) && t < |c.tasks| && m.hist[t].place != Inbox(w) && m.hist[t].place != Futures(w)
    ensures
      var m' := WorkerStep(c, m, w, me, finish).mem;
      |m'.cells| == |m.cells| && m'.hist[t] == m.hist[t] && m'.cells[t].state == m.cells[t].state
  {
    if WHolds(me.pc) {
      assert WList(me)[|me.kept|] == me.pc.t;
      OtherHand(c, m, w, me, finish, t);
    } else if me.pc.WTop? && me.inbox != [] {
      assert m.hist[me.inbox[0]].place == Inbox(w);
    } else if me.pc.WNext? && me.todo != [] {
      assert WList(me)[|me.kept|] == me.todo[0];
    }
  }

  lemma OutsideStopped(c: Config, s: State, step: Step, t: TaskId)
    requires Inv(c, s) && Stopped(c, s, t) && !step.Dispatch? && !step.Work?
    ensures Stopped(c, OutsideStep(c, s, step), t)
  {
    Results.OutsideHist(c, s, step);
    OutsideState(c, s, step, t);
  }

  lemma OutsideState(c: Config, s: State, step: Step, t: TaskId)
    requires Shape(c, s) && !step.Dispatch? && !step.Work? && t < |c.tasks|
    ensures OutsideStep(c, s, step).d.pc == s.d.pc
    ensures OutsideStep(c, s, step).mem.cells[t].state == if step == Cancel(t) then Cancelled else s.mem.cells[t].state
  {
  }

  /**
   * A cancel that comes before the dispatcher looks at the state of a task stops the task: it is never sent to a worker and
   * its function is never called, whatever happens. It ends cancelled, or panicked if what it continues panics.
   */
  lemma CancelStops(c: Config, run: seq<Step>, more: seq<Step>, t: TaskId)
    requires ValidConfig(c) && Stopped(c, Exec(c, run), t)
    ensures Stopped(c, Exec(c, run + more), t)
  {
    var holds := (s: State) => Stopped(c, s, t);
    forall s: State, step: Step | Inv(c, s) && holds(s) ensures holds(Apply(c, s, step)) {
      if step.Dispatch? {
        DispatchStopped(c, s, t);
      } else if step.Work? {
        if step.w < |s.ws| {
          WorkStopped(c, s, step.w, step.finish, t);
        }
      } else {
        OutsideStopped(c, s, step, t);
      }
    }
    ProtocolProof.KeptOnwards(c, run, more, holds);
  }

  // ----- a task that is cancelled while its future is pending -----

  lemma OneStep(c: Config, run: seq<Step>, step: Step, rest: seq<Step>) returns (more: seq<Step>)
    ensures more == [step] + rest && run + more == run + [step] + rest
  {
    more := [step] + rest;
  }

  /** A worker that retires a task goes on to its end without anybody else. */
  lemma {:induction false} RetiresAlone(c: Config, run: seq<Step>, w: nat, t: TaskId, k: nat) returns (more: seq<Step>)
    requires ValidConfig(c) && w < |c.labels| && t < |c.tasks|
    requires Exec(c, run).ws[w].pc == WRetire(t, k) && k <= |c.tasks[t].semaphores| + 1
    ensures |more| == |c.tasks[t].semaphores| + 2 - k && forall i :: 0 <= i < |more| ==> more[i] == Work(w, true)
    ensures Exec(c, run + more).mem.hist[t].place == Retired
    ensures Exec(c, run + more).ws[w].pc == WNext && Exec(c, run + more).ws[w].kept == Exec(c, run).ws[w].kept
    decreases |c.tasks[t].semaphores| + 1 - k
  {
    var next := run + [Work(w, true)];
    ExecNext(c, run, Work(w, true));
    RetireStep(c, Exec(c, run), w, t, k);
    if k > |c.tasks[t].semaphores| {
      more := [Work(w, true)];
    } else {
      var rest := RetiresAlone(c, next, w, t, k + 1);
      more := OneStep(c, run, Work(w, true), rest);
    }
  }

  lemma RetireStep(c: Config, s: State, w: nat, t: TaskId, k: nat)
    requires Shape(c, s) && w < |s.ws| && t < |c.tasks| && s.ws[w].pc == WRetire(t, k)
    ensures
      var r := WorkStep(c, s, w, true);
      && r.ws[w].kept == s.ws[w].kept
      && if k > |c.tasks[t].semaphores| then r.ws[w].pc == WNext && r.mem.hist[t].place == Retired
         else r.ws[w].pc == WRetire(t, k + 1)
  {
  }

  /**
   * A cancelled task whose future gives Pending is dropped: the worker retires it within a known number of its own steps, and
   * its future is not kept. One that is not cancelled is kept.
   */
  lemma CancelledIsDropped(c: Config, run: seq<Step>, w: nat) returns (more: seq<Step>)
    requires ValidConfig(c) && w < |c.labels| && Exec(c, run).ws[w].pc.WPending?
    ensures
      var s, r := Exec(c, run), Exec(c, run + more);
      var t := s.ws[w].pc.t;
      && (forall i :: 0 <= i < |more| ==> more[i] == Work(w, true))
      && r.ws[w].pc == WNext
      && if s.mem.cells[t].state == Cancelled
         then |more| == |c.tasks[t].semaphores| + 3 && r.mem.hist[t].place == Retired && r.ws[w].kept == s.ws[w].kept
         else |more| == 1 && r.ws[w].kept == s.ws[w].kept + [t]
  {
    var s := Exec(c, run);
    ExecNext(c, run, Work(w, true));
    if s.mem.cells[s.ws[w].pc.t].state == Cancelled {
      var rest := RetiresAlone(c, run + [Work(w, true)], w, s.ws[w].pc.t, 0);
      more := OneStep(c, run, Work(w, true), rest);
    } else {
      more := [Work(w, true)];
    }
  }

  // ----- a task that is cancelled while its function runs -----

  /** The worker is about to write down how a task has ended. */
  ghost predicate Writes(pc: WPc, t: TaskId, st: TaskState) {
    pc == WWrite(t, st) || (pc == WPanic(t) && st == Panicked)
  }

  /**
   * A cancel is lost on a function that runs to its end: whatever the state is by then, the result is written over it. The state is
   * Ready if the function has returned, and its value is there.
   */
  lemma CancelIsOverwritten(c: Config, run: seq<Step>, w: nat, finish: bool, t: TaskId, st: TaskState)
    requires ValidConfig(c) && w < |c.labels| && t < |c.tasks| && Writes(Exec(c, run).ws[w].pc, t, st)
    ensures
      var m := Exec(c, run + [Work(w, finish)]).mem;
      && m.cells[t].state == st && Done(m.hist[t].stage)
      && (m.hist[t].calls != [] ==> st == StateOf(Eval(c.tasks, t)))
      && (st == Ready ==> m.cells[t].buffer.Some?)
  {
    var s := Exec(c, run);
    ExecNext(c, run, Work(w, finish));
    ProtocolProof.RunInv(c, run);
    ProtocolProof.FuturesAt(c, s, w);
    assert WOk(c, s.mem, s.ws[w]) && TaskOk(c, s.mem, t);
  }
}
