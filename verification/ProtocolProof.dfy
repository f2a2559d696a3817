/** The invariant holds in every run. */
module ProtocolProof {
  import opened Tasks
  import opened Memory
  import opened MemoryProof
  import opened Protocol
  import opened ProtocolInvariant
  import WorkerProof
  import DispatcherProof
  import ListProof

  lemma HeldAt(c: Config, s: State)
    requires Inv(c, s)
    ensures NoDup(s.d.channel) && NoDup(DList(s.d))
    ensures forall i :: 0 <= i < |s.d.channel| ==> s.mem.hist[s.d.channel[i]].place == Channel
    ensures forall i :: 0 <= i < |DList(s.d)| ==> DList(s.d)[i] < |c.tasks| && s.mem.hist[DList(s.d)[i]].place == Held
  {
    assert Exact(c, s, Channel) && Exact(c, s, Held);
    assert forall i :: 0 <= i < |s.d.channel| ==> s.d.channel[i] in Contents(s, Channel);
    assert forall i :: 0 <= i < |DList(s.d)| ==> DList(s.d)[i] in Contents(s, Held);
  }

  lemma FuturesAt(c: Config, s: State, w: nat)
    requires Inv(c, s) && w < |s.ws|
    ensures WorkerProof.WPre(c, s.mem, w, s.ws[w])
  {
    assert Exact(c, s, Inbox(w)) && Exact(c, s, Futures(w));
    assert forall i :: 0 <= i < |s.ws[w].inbox| ==> s.ws[w].inbox[i] in Contents(s, Inbox(w));
    assert forall i :: 0 <= i < |WList(s.ws[w])| ==> WList(s.ws[w])[i] in Contents(s, Futures(w));
  }

  /** A worker that did not move still knows what it knew. */
  lemma WorkerUndisturbed(c: Config, s: State, m': Mem, v: nat)
    requires Inv(c, s) && v < |s.ws| && MemShape(c, m') && Rely(c, s.mem, m')
    requires forall x: nat :: x < |c.tasks| && s.mem.hist[x].place == Futures(v) ==> Same(c, s.mem, m', x)
    ensures WOk(c, m', s.ws[v])
  {
    FuturesAt(c, s, v);
    WFrame(c, s.mem, m', s.ws[v]);
  }

  lemma DispatcherUndisturbed(c: Config, s: State, m': Mem)
    requires Inv(c, s) && MemShape(c, m') && Rely(c, s.mem, m')
    requires forall x: nat :: x < |c.tasks| && s.mem.hist[x].place == Held ==> Same(c, s.mem, m', x)
    ensures DOk(c, m', s.d)
  {
    HeldAt(c, s);
    DFrame(c, s.mem, m', s.d);
  }

  lemma WorkInv(c: Config, s: State, w: nat, finish: bool)
    requires Inv(c, s) && w < |s.ws|
    ensures Inv(c, WorkStep(c, s, w, finish)) && Rely(c, s.mem, WorkStep(c, s, w, finish).mem)
    ensures NoNews(c, s.mem, WorkStep(c, s, w, finish).mem)
  {
    var r := WorkerStep(c, s.mem, w, s.ws[w], finish);
    FuturesAt(c, s, w);
    WorkerProof.WorkerSound(c, s.mem, w, s.ws[w], finish);
    ListProof.WorkLists(c, s, w, finish);
    DispatcherUndisturbed(c, s, r.mem);
    forall v | 0 <= v < |s.ws| && v != w ensures WOk(c, r.mem, s.ws[v]) {
      WorkerUndisturbed(c, s, r.mem, v);
    }
  }

  lemma DispatchInv(c: Config, s: State)
    requires Inv(c, s)
    ensures Inv(c, DispatchStep(c, s)) && Rely(c, s.mem, DispatchStep(c, s).mem)
    ensures NoNews(c, s.mem, DispatchStep(c, s).mem)
  {
    var s' := DispatchStep(c, s);
    HeldAt(c, s);
    DispatcherProof.DispatcherSound(c, s);
    ListProof.DispatchLists(c, s);
    forall v | 0 <= v < |s.ws| ensures WOk(c, s'.mem, s'.ws[v]) {
      WorkerUndisturbed(c, s, s'.mem, v);
    }
  }

  /** What others may count on while a step from outside is taken. */
  ghost predicate OutsidePost(c: Config, m: Mem, m': Mem) {
    && MemOk(c, m') && Rely(c, m, m')
    && (forall x: nat :: x < |c.tasks| && m.hist[x].place != Outside ==> Same(c, m, m', x))
  }

  lemma SubmitMem(c: Config, m: Mem, t: TaskId, on: Option<Label>)
    requires MemOk(c, m) && t < |c.tasks| && m.hist[t].place == Outside
    ensures OutsidePost(c, m, Move(if on.Some? then SetCell(m, t, m.cells[t].(preferred := on)) else m, t, Channel))
  {
    assert TaskOk(c, m, t);
    var m1 := if on.Some? then SetCell(m, t, m.cells[t].(preferred := on)) else m;
    forall x: nat | x < |c.tasks| ensures TaskOk(c, m1, x) {
      assert TaskOk(c, m, x);
    }
    MoveSound(c, m1, t, Channel);
    TouchesSame(c, m1, Move(m1, t, Channel), t);
  }

  lemma UserMem(c: Config, s: State, step: Step)
    requires Inv(c, s) && (step.UserWait? || step.UserWaitAsync? || step.UserRead? || step.UserTake?)
    ensures OutsidePost(c, s.mem, OutsideStep(c, s, step).mem)
  {
    var m := s.mem;
    var t := step.t;
    if t < |c.tasks| && !HandleMoved(c, t) {
      assert forall x: nat :: !Owns(c, x, t);
      UsableByUser(c, m, t);
      if step.UserWait? && m.cells[t].handle == Unwaited && m.cells[t].signal {
        WaitSound(c, m, t, false);
      } else if step.UserWaitAsync? && m.cells[t].handle == Unwaited && m.cells[t].signal {
        WaitSound(c, m, t, true);
      } else if step.UserRead? && m.cells[t].handle == Woken {
        ReadSound(c, m, t);
      } else if step.UserTake? && m.cells[t].handle == SawReady {
        TakeSound(c, m, t);
      }
    }
  }

  lemma CancelMem(c: Config, s: State, step: Step)
    requires Inv(c, s) && (step.Cancel? || step.Steal?)
    ensures OutsidePost(c, s.mem, OutsideStep(c, s, step).mem)
  {
    if step.t < |c.tasks| {
      if step.Cancel? {
        CancelSound(c, s.mem, step.t);
      } else {
        StealSound(c, s.mem, step.t);
      }
    }
  }

  lemma SendMem(c: Config, s: State, step: Step)
    requires Inv(c, s) && (step.SubmitSend? || step.SubmitWake? || step.CallWaker?)
    ensures OutsidePost(c, s.mem, OutsideStep(c, s, step).mem)
  {
    if step.SubmitSend? && step.t < |c.tasks| && s.mem.hist[step.t].place == Outside {
      SubmitMem(c, s.mem, step.t, step.on);
    }
  }

  lemma OutsideMem(c: Config, s: State, step: Step)
    requires Inv(c, s) && !step.Dispatch? && !step.Work?
    ensures OutsidePost(c, s.mem, OutsideStep(c, s, step).mem)
  {
    if step.SubmitSend? || step.SubmitWake? || step.CallWaker? {
      SendMem(c, s, step);
    } else if step.Cancel? || step.Steal? {
      CancelMem(c, s, step);
    } else {
      UserMem(c, s, step);
    }
  }

  /** Nobody's knowledge is disturbed. */
  lemma OutsideUndisturbed(c: Config, s: State, m': Mem)
    requires Inv(c, s) && OutsidePost(c, s.mem, m')
    ensures MemShape(c, m') && DOk(c, m', s.d)
    ensures forall v :: 0 <= v < |s.ws| ==> WOk(c, m', s.ws[v])
  {
    DispatcherUndisturbed(c, s, m');
    forall v | 0 <= v < |s.ws| ensures WOk(c, m', s.ws[v]) {
      WorkerUndisturbed(c, s, m', v);
    }
  }

  /** What a thread knows does not depend on its channel, its flag, or who called it. */
  lemma OutsideKnows(c: Config, s: State, step: Step, m': Mem)
    requires Shape(c, s) && !step.Dispatch? && !step.Work? && MemShape(c, m') && DOk(c, m', s.d)
    requires forall v :: 0 <= v < |s.ws| ==> WOk(c, m', s.ws[v])
    ensures DOk(c, m', OutsideStep(c, s, step).d)
    ensures forall v :: 0 <= v < |OutsideStep(c, s, step).ws| ==> WOk(c, m', OutsideStep(c, s, step).ws[v])
  {
  }

  lemma OutsideInv(c: Config, s: State, step: Step)
    requires Inv(c, s) && !step.Dispatch? && !step.Work?
    ensures Inv(c, OutsideStep(c, s, step)) && Rely(c, s.mem, OutsideStep(c, s, step).mem)
  {
    var m' := OutsideStep(c, s, step).mem;
    OutsideMem(c, s, step);
    ListProof.OutsideLists(c, s, step);
    OutsideUndisturbed(c, s, m');
    OutsideKnows(c, s, step, m');
  }

  lemma StepInv(c: Config, s: State, step: Step)
    requires Inv(c, s)
    ensures Inv(c, Apply(c, s, step)) && Rely(c, s.mem, Apply(c, s, step).mem)
    ensures step.Dispatch? || step.Work? ==> NoNews(c, s.mem, Apply(c, s, step).mem)
  {
    match step
    case Dispatch => DispatchInv(c, s);
    case Work(w, finish) => if w < |s.ws| { WorkInv(c, s, w, finish); }
    case _ => OutsideInv(c, s, step);
  }

  lemma InitInv(c: Config)
    requires ValidConfig(c)
    ensures Inv(c, Init(c))
  {
    var s := Init(c);
    forall t: nat | t < |c.tasks| ensures TaskOk(c, s.mem, t) {
      assert s.mem.hist[t] == History(Outside, Idle, [], [], 0, 0, 0);
    }
    assert ListsOk(c, s);
  }

  lemma {:induction false} RunInv(c: Config, run: seq<Step>)
    requires ValidConfig(c)
    ensures Inv(c, Exec(c, run))
  {
    if run == [] {
      InitInv(c);
    } else {
      ExecLast(c, run);
      RunInv(c, run[..|run| - 1]);
      StepInv(c, Exec(c, run[..|run| - 1]), run[|run| - 1]);
    }
  }

  lemma {:induction false} Kept(at: nat -> State, n: nat, holds: State -> bool)
    requires holds(at(0)) && forall k: nat :: k < n && holds(at(k)) ==> holds(at(k + 1))
    ensures holds(at(n))
    decreases n
  {
    if n > 0 {
      Kept(at, n - 1, holds);
      assert holds(at(n - 1)) ==> holds(at(n - 1 + 1));
    }
  }

  /** One more step of a run that goes on. */
  lemma Onwards(c: Config, run: seq<Step>, more: seq<Step>, k: nat) returns (s: State, r: State)
    requires ValidConfig(c) && k < |more|
    ensures s == Exec(c, run + more[..k]) && Inv(c, s) && r == Exec(c, run + more[..k + 1]) == Apply(c, s, more[k])
  {
    s, r := Exec(c, run + more[..k]), Exec(c, run + more[..k + 1]);
    RunInv(c, run + more[..k]);
    ExecNext(c, run + more[..k], more[k]);
    assert run + more[..k + 1] == run + more[..k] + [more[k]];
  }

  /** What holds after a run, and is kept by every allowed step, holds after every continuation of the run by such steps. */
  lemma KeptBy(c: Config, run: seq<Step>, more: seq<Step>, holds: State -> bool, allowed: Step -> bool)
    requires ValidConfig(c) && holds(Exec(c, run)) && forall k :: 0 <= k < |more| ==> allowed(more[k])
    requires forall s: State, step: Step :: Inv(c, s) && holds(s) && allowed(step) ==> holds(Apply(c, s, step))
    ensures holds(Exec(c, run + more))
  {
    var at := (k: nat) => if k <= |more| then Exec(c, run + more[..k]) else Exec(c, run);
    assert run + more[..0] == run && more[..|more|] == more;
    forall k: nat | k < |more| && holds(at(k)) ensures holds(at(k + 1)) {
      var s, r := Onwards(c, run, more, k);
      assert allowed(more[k]);
    }
    Kept(at, |more|, holds);
  }

  lemma KeptOnwards(c: Config, run: seq<Step>, more: seq<Step>, holds: State -> bool)
    requires ValidConfig(c) && holds(Exec(c, run))
    requires forall s: State, step: Step :: Inv(c, s) && holds(s) ==> holds(Apply(c, s, step))
    ensures holds(Exec(c, run + more))
  {
    KeptBy(c, run, more, holds, step => true);
  }
}
