/** A worker does not sleep through work, and never waits in vain for the task that it continues. */
module WorkerWake {
  import opened Tasks
  import opened Memory
  import opened Protocol
  import opened ProtocolInvariant
  import ProtocolProof

  // ----- the worker's own signal -----

  /** The dispatcher has put a task into the worker's channel and will wake the worker. */
  predicate WakeOwed(d: Dispatcher, w: nat) {
    d.pc == DSub(w) || d.pc == DWakeWorker(w)
  }

  /** A future that was polled in this pass, or is being polled, and whose waker was called since, has left the flag set. */
  ghost predicate AwakeOk(d: Dispatcher, w: nat, me: Worker) {
    && (me.pc.WWait? && me.inbox != [] ==> me.flag || WakeOwed(d, w))
    && (forall i :: 0 <= i < |me.kept| ==> me.kept[i] in me.called ==> me.flag)
    && (WHolds(me.pc) ==> me.pc.t in me.called ==> me.flag)
  }

  ghost predicate AllAwakeOk(s: State) {
    forall w: nat :: w < |s.ws| ==> AwakeOk(s.d, w, s.ws[w])
  }

  lemma ListAwake(c: Config, m: Mem, d: Dispatcher, w: nat, me: Worker, finish: bool)
    requires MemShape(c, m) && WShape(c, me) && AwakeOk(d, w, me) && (me.pc.WTop? || me.pc.WNext? || me.pc.WWait?)
    ensures AwakeOk(d, w, WorkerStep(c, m, w, me, finish).me)
  {
  }

  lemma PollAwake(c: Config, m: Mem, d: Dispatcher, w: nat, me: Worker, finish: bool)
    requires MemShape(c, m) && WShape(c, me) && AwakeOk(d, w, me) && WHolds(me.pc)
    ensures AwakeOk(d, w, WorkerStep(c, m, w, me, finish).me)
  {
  }

  lemma WorkAwake(c: Config, s: State, w: nat, finish: bool)
    requires Shape(c, s) && AllAwakeOk(s) && w < |s.ws|
    ensures AllAwakeOk(WorkStep(c, s, w, finish))
  {
    var s' := WorkStep(c, s, w, finish);
    assert AwakeOk(s.d, w, s.ws[w]);
    if WHolds(s.ws[w].pc) {
      PollAwake(c, s.mem, s.d, w, s.ws[w], finish);
    } else {
      ListAwake(c, s.mem, s.d, w, s.ws[w], finish);
    }
    forall v: nat | v < |s'.ws| ensures AwakeOk(s'.d, v, s'.ws[v]) {
      assert AwakeOk(s.d, v, s.ws[v]);
    }
  }

  lemma DispatchAwake(c: Config, s: State)
    requires Shape(c, s) && AllAwakeOk(s)
    ensures AllAwakeOk(DispatchStep(c, s))
  {
    var s' := DispatchStep(c, s);
    if s.d.pc.DSend? || s.d.pc.DSub? || s.d.pc.DWakeWorker? {
      assert AwakeOk(s.d, s.d.pc.w, s.ws[s.d.pc.w]);
    } else {
      assert s'.ws == s.ws;
    }
    forall v: nat | v < |s'.ws| ensures AwakeOk(s'.d, v, s'.ws[v]) {
      assert AwakeOk(s.d, v, s.ws[v]);
    }
  }

  lemma OutsideAwake(c: Config, s: State, step: Step)
    requires Shape(c, s) && AllAwakeOk(s) && !step.Dispatch? && !step.Work?
    ensures AllAwakeOk(OutsideStep(c, s, step))
  {
    var s' := OutsideStep(c, s, step);
    forall v: nat | v < |s'.ws| ensures AwakeOk(s'.d, v, s'.ws[v]) {
      assert AwakeOk(s.d, v, s.ws[v]);
    }
  }

  lemma {:induction false} RunAwake(c: Config, run: seq<Step>)
    requires ValidConfig(c)
    ensures AllAwakeOk(Exec(c, run))
  {
    if run != [] {
      var before := run[..|run| - 1];
      ExecLast(c, run);
      var s := Exec(c, before);
      RunAwake(c, before);
      match run[|run| - 1] {
        case Dispatch => DispatchAwake(c, s);
        case Work(w, finish) => if w < |s.ws| { WorkAwake(c, s, w, finish); }
        case _ => OutsideAwake(c, s, run[|run| - 1]);
      }
    }
  }

  /**
   * No lost wake-up at a worker, in every run: when it sleeps on a signal that is not set, its channel is empty, or
   * the dispatcher still owes it a wake, and no waker of a future it holds was called since that future was last
   * polled.
   */
  lemma NoLostWorkerWakeUp(c: Config, run: seq<Step>, w: nat)
    requires ValidConfig(c) && w < |c.labels|
    ensures
      var s := Exec(c, run);
      var me := s.ws[w];
      me.pc.WWait? && !me.flag ==>
        && (me.inbox == [] || WakeOwed(s.d, w))
        && (forall i :: 0 <= i < |WList(me)| ==> WList(me)[i] !in me.called)
  {
    RunAwake(c, run);
    assert AwakeOk(Exec(c, run).d, w, Exec(c, run).ws[w]);
  }

  // ----- waiting for the predecessor -----

  /** The thread is between writing the state of `p` and waking its signal; such a thread never waits. */
  ghost predicate Retires(c: Config, s: State, agent: Option<nat>, p: TaskId)
    requires Shape(c, s) && p < |c.tasks|
  {
    match agent
    case None => s.d.pc.DRetire? && s.d.pc.t == p && s.d.pc.k <= |c.tasks[p].semaphores|
    case Some(v) =>
      && v < |s.ws|
      && (s.ws[v].pc == WAdd(p)
          || (s.ws[v].pc.WRetire? && s.ws[v].pc.t == p && s.ws[v].pc.k <= |c.tasks[p].semaphores|))
  }

  lemma RetirerOf(c: Config, s: State, p: TaskId) returns (agent: Option<nat>)
    requires Inv(c, s) && p < |c.tasks|
    requires Done(s.mem.hist[p].stage) && s.mem.hist[p].ownWakes == 0
    ensures Retires(c, s, agent, p)
  {
    var m := s.mem;
    assert TaskOk(c, m, p);
    var home := m.hist[p].place;
    assert home.Held? || home.Futures?;
    assert Exact(c, s, home);
    assert p in Contents(s, home);
    if home.Held? {
      var hand := if DHolds(s.d.pc) then [s.d.pc.t] else [];
      assert p !in s.d.kept && p !in s.d.todo;
      Middle(s.d.kept, hand, s.d.todo, p);
      return None;
    } else {
      var me := s.ws[home.w];
      var hand := if WHolds(me.pc) then [me.pc.t] else [];
      assert WOk(c, m, me);
      assert p !in me.kept && p !in me.todo;
      Middle(me.kept, hand, me.todo, p);
      return Some(home.w);
    }
  }

  lemma Middle(a: seq<TaskId>, b: seq<TaskId>, d: seq<TaskId>, x: TaskId)
    requires x in a + b + d && x !in a && x !in d
    ensures x in b
  {
  }

  /**
   * Workers are not clogged, in every run, cancels included: when a continuation waits for its predecessor, the
   * predecessor's signal is set, or another thread is about to set it, unless somebody else consumed it. A thread
   * that is waited for is never itself waiting, so no cycle of waiting threads exists.
   */
  lemma WorkersNotClogged(c: Config, run: seq<Step>, w: nat)
    requires ValidConfig(c) && w < |c.labels|
    requires Exec(c, run).ws[w].pc.WPredWait?
    ensures
      var s := Exec(c, run);
      var p := c.tasks[s.ws[w].pc.t].body.pred;
      || s.mem.cells[p].signal
      || p in s.mem.stolen
      || (exists agent: Option<nat> :: agent != Some(w) && Retires(c, s, agent, p))
  {
    var s := Exec(c, run);
    var t := s.ws[w].pc.t;
    var p := c.tasks[t].body.pred;
    ProtocolProof.RunInv(c, run);
    ProtocolProof.FuturesAt(c, s, w);
    assert WList(s.ws[w])[|s.ws[w].kept|] == t;
    assert TaskOk(c, s.mem, t) && TaskOk(c, s.mem, p);
    if s.mem.hist[p].ownWakes == 0 {
      var agent := RetirerOf(c, s, p);
      assert agent != Some(w);
    }
  }

  ghost function StepOf(agent: Option<nat>): Step {
    match agent
    case None => Dispatch
    case Some(v) => Work(v, true)
  }

  /** The steps that a retiring thread still has to take before it wakes the signal of its task. */
  ghost function StepsLeft(c: Config, s: State, agent: Option<nat>, p: TaskId): nat
    requires Shape(c, s) && p < |c.tasks| && Retires(c, s, agent, p)
  {
    match agent
    case None => |c.tasks[p].semaphores| - s.d.pc.k
    case Some(v) =>
      if s.ws[v].pc.WAdd? then |c.tasks[p].semaphores| + 1 else |c.tasks[p].semaphores| - s.ws[v].pc.k
  }

  /** A retiring thread needs nobody else: left to itself it sets the signal, in so many steps. */
  lemma {:induction false} RetirerWakes(c: Config, run: seq<Step>, agent: Option<nat>, p: TaskId) returns (more: seq<Step>)
    requires ValidConfig(c) && p < |c.tasks| && Retires(c, Exec(c, run), agent, p)
    ensures Exec(c, run + more).mem.cells[p].signal
    ensures |more| == StepsLeft(c, Exec(c, run), agent, p) + 1
    ensures forall i :: 0 <= i < |more| ==> more[i] == StepOf(agent)
    decreases StepsLeft(c, Exec(c, run), agent, p)
  {
    var s := Exec(c, run);
    var run1 := run + [StepOf(agent)];
    ExecNext(c, run, StepOf(agent));
    RetirerStep(c, s, agent, p);
    if StepsLeft(c, s, agent, p) == 0 {
      more := [StepOf(agent)];
      assert run + more == run1;
    } else {
      var rest := RetirerWakes(c, run1, agent, p);
      more := [StepOf(agent)] + rest;
      assert run + more == run1 + rest;
    }
  }

  lemma RetirerStep(c: Config, s: State, agent: Option<nat>, p: TaskId)
    requires Shape(c, s) && p < |c.tasks| && Retires(c, s, agent, p)
    ensures
      var s' := Apply(c, s, StepOf(agent));
      if StepsLeft(c, s, agent, p) == 0 then s'.mem.cells[p].signal
      else Retires(c, s', agent, p) && StepsLeft(c, s', agent, p) == StepsLeft(c, s, agent, p) - 1
  {
  }
}
