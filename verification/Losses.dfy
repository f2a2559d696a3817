/** Slots that are never given back: each goes with one body that panics, and with nothing else. */
module Losses {
  import opened Tasks
  import opened Memory
  import opened Protocol
  import opened ProtocolInvariant
  import opened Sums
  import Results
  import ProtocolProof
  import WorkerProof

  /** The body of `t` is called and panics, which costs its worker a slot. */
  ghost predicate Breaks(c: Config, t: TaskId)
    requires WellFormed(c.tasks) && t < |c.tasks|
  {
    Eval(c.tasks, t).Panics? && (HasPred(c.tasks[t]) ==> Eval(c.tasks, c.tasks[t].body.pred).Yields?)
  }

  ghost function Breakers(c: Config): set<TaskId>
    requires WellFormed(c.tasks)
  {
    set t: TaskId | t < |c.tasks| && Breaks(c, t)
  }

  /** The tasks that have cost a slot. */
  ghost function Broken(c: Config, m: Mem): set<TaskId>
    requires MemShape(c, m)
  {
    set t: TaskId | t < |c.tasks| && Breaks(c, t) && Done(m.hist[t].stage)
  }

  ghost function Lost(ws: seq<Worker>): seq<nat> {
    seq(|ws|, w requires 0 <= w < |ws| => ws[w].lost)
  }

  ghost predicate LossesOk(c: Config, s: State)
    requires Shape(c, s)
  {
    Sum(Lost(s.ws)) == |Broken(c, s.mem)|
  }

  lemma SubsetSize(a: set<TaskId>, b: set<TaskId>)
    requires a <= b
    ensures |a| <= |b|
  {
    assert b == a + (b - a);
  }

  /** The histories are as they were, but for a task that does not break, or did already. */
  lemma SameBroken(c: Config, m: Mem, m': Mem, t: TaskId)
    requires MemShape(c, m) && MemShape(c, m') && t < |c.tasks|
    requires forall x: nat :: x < |c.tasks| && x != t ==> m'.hist[x] == m.hist[x]
    requires Breaks(c, t) ==> (Done(m'.hist[t].stage) <==> Done(m.hist[t].stage))
    ensures Broken(c, m') == Broken(c, m)
  {
  }

  // ----- steps of a worker -----

  /** What a step of a worker costs. */
  ghost predicate Costs(c: Config, m: Mem, me: Worker, r: Worked)
    requires MemShape(c, m)
  {
    && MemShape(c, r.mem)
    && if me.pc.WPanic?
       then me.pc.t !in Broken(c, m) && Broken(c, r.mem) == Broken(c, m) + {me.pc.t} && r.me.lost == me.lost + 1
       else Broken(c, r.mem) == Broken(c, m) && r.me.lost == me.lost
  }

  lemma ListCosts(c: Config, m: Mem, w: nat, me: Worker, finish: bool)
    requires WorkerProof.WPre(c, m, w, me) && (me.pc.WTop? || me.pc.WNext? || me.pc.WWait?)
    ensures Costs(c, m, me, WorkerStep(c, m, w, me, finish))
  {
    var r := WorkerStep(c, m, w, me, finish);
    if me.pc.WTop? && me.inbox != [] {
      assert TaskOk(c, m, me.inbox[0]);
      SameBroken(c, m, r.mem, me.inbox[0]);
    } else if me.pc.WNext? && me.todo != [] {
      SameBroken(c, m, r.mem, me.todo[0]);
    }
  }

  lemma PredCosts(c: Config, m: Mem, w: nat, me: Worker, finish: bool)
    requires WorkerProof.WPre(c, m, w, me) && (me.pc.WPredWait? || me.pc.WPredRead? || me.pc.WPredTake?)
    ensures Costs(c, m, me, WorkerStep(c, m, w, me, finish))
  {
    var r := WorkerStep(c, m, w, me, finish);
    assert r.mem.hist == m.hist;
  }

  lemma MatchCosts(c: Config, m: Mem, w: nat, me: Worker, finish: bool)
    requires WorkerProof.WPre(c, m, w, me) && me.pc.WMatch? && m.cancelled == {}
    ensures Costs(c, m, me, WorkerStep(c, m, w, me, finish))
  {
    SameBroken(c, m, WorkerStep(c, m, w, me, finish).mem, me.pc.t);
  }

  lemma RunCosts(c: Config, m: Mem, w: nat, me: Worker, finish: bool)
    requires WorkerProof.WPre(c, m, w, me) && InRun(me.pc) && !me.pc.WPanic? && m.cancelled == {}
    ensures Costs(c, m, me, WorkerStep(c, m, w, me, finish))
  {
    assert TaskOk(c, m, me.pc.t);
    UntaintedIfNoneCancelled(c.tasks, me.pc.t);
    SameBroken(c, m, WorkerStep(c, m, w, me, finish).mem, me.pc.t);
  }

  lemma PanicCosts(c: Config, m: Mem, w: nat, me: Worker, finish: bool)
    requires WorkerProof.WPre(c, m, w, me) && me.pc.WPanic?
    ensures Costs(c, m, me, WorkerStep(c, m, w, me, finish))
  {
    assert TaskOk(c, m, me.pc.t);
    var m' := WorkerStep(c, m, w, me, finish).mem;
    assert Breaks(c, me.pc.t);
    assert forall x: nat :: x < |c.tasks| && x != me.pc.t ==> m'.hist[x] == m.hist[x];
  }

  lemma EndCosts(c: Config, m: Mem, w: nat, me: Worker, finish: bool)
    requires WorkerProof.WPre(c, m, w, me) && (me.pc.WPending? || me.pc.WRetire?) && m.cancelled == {}
    ensures Costs(c, m, me, WorkerStep(c, m, w, me, finish))
  {
    assert TaskOk(c, m, me.pc.t);
    UntaintedIfNoneCancelled(c.tasks, me.pc.t);
    SameBroken(c, m, WorkerStep(c, m, w, me, finish).mem, me.pc.t);
  }

  lemma WorkerCosts(c: Config, m: Mem, w: nat, me: Worker, finish: bool)
    requires WorkerProof.WPre(c, m, w, me) && m.cancelled == {}
    ensures Costs(c, m, me, WorkerStep(c, m, w, me, finish))
  {
    if me.pc.WTop? || me.pc.WNext? || me.pc.WWait? {
      ListCosts(c, m, w, me, finish);
    } else if me.pc.WMatch? {
      MatchCosts(c, m, w, me, finish);
    } else if InPred(me.pc) {
      PredCosts(c, m, w, me, finish);
    } else if me.pc.WPanic? {
      PanicCosts(c, m, w, me, finish);
    } else if InRun(me.pc) {
      RunCosts(c, m, w, me, finish);
    } else {
      EndCosts(c, m, w, me, finish);
    }
  }

  lemma WorkLosses(c: Config, s: State, w: nat, finish: bool)
    requires Inv(c, s) && LossesOk(c, s) && w < |s.ws| && s.mem.cancelled == {}
    ensures LossesOk(c, WorkStep(c, s, w, finish))
  {
    var s' := WorkStep(c, s, w, finish);
    ProtocolProof.FuturesAt(c, s, w);
    WorkerCosts(c, s.mem, w, s.ws[w], finish);
    SumOfSame(Lost(s.ws), Lost(s'.ws), w, if s.ws[w].pc.WPanic? then 1 else 0);
  }

  // ----- steps of others -----

  lemma DispatchBroken(c: Config, s: State)
    requires Inv(c, s) && s.mem.cancelled == {}
    ensures Broken(c, DispatchStep(c, s).mem) == Broken(c, s.mem)
  {
    var m' := DispatchStep(c, s).mem;
    ProtocolProof.HeldAt(c, s);
    if s.d.pc.DTop? && s.d.channel != [] {
      SameBroken(c, s.mem, m', s.d.channel[0]);
    } else if s.d.pc.DWrite? {
      WriteBroken(c, s);
    } else if s.d.pc.DRetire? {
      SameBroken(c, s.mem, m', s.d.pc.t);
    } else if s.d.pc.DTarget? || s.d.pc.DSend? {
      SameBroken(c, s.mem, m', s.d.pc.t);
    } else {
      assert m' == s.mem;
    }
  }

  /** A task that the dispatcher settles continues one that panics. */
  lemma WriteBroken(c: Config, s: State)
    requires Inv(c, s) && s.mem.cancelled == {} && s.d.pc.DWrite?
    ensures Broken(c, DispatchStep(c, s).mem) == Broken(c, s.mem)
  {
    UntaintedIfNoneCancelled(c.tasks, s.d.pc.t);
    SameBroken(c, s.mem, DispatchStep(c, s).mem, s.d.pc.t);
  }

  lemma DispatchLosesNone(c: Config, s: State)
    requires Shape(c, s)
    ensures Lost(DispatchStep(c, s).ws) == Lost(s.ws)
  {
  }

  lemma OutsideLosesNone(c: Config, s: State, step: Step)
    requires Shape(c, s) && !step.Dispatch? && !step.Work?
    ensures Lost(OutsideStep(c, s, step).ws) == Lost(s.ws)
    ensures Broken(c, OutsideStep(c, s, step).mem) == Broken(c, s.mem)
  {
    Results.OutsideHist(c, s, step);
  }

  lemma StepLosses(c: Config, s: State, step: Step)
    requires Inv(c, s) && LossesOk(c, s) && s.mem.cancelled == {}
    ensures LossesOk(c, Apply(c, s, step))
  {
    if step.Dispatch? {
      DispatchBroken(c, s);
      DispatchLosesNone(c, s);
    } else if step.Work? {
      if step.w < |s.ws| {
        WorkLosses(c, s, step.w, step.finish);
      }
    } else {
      OutsideLosesNone(c, s, step);
    }
  }

  lemma NoneAtFirst(c: Config)
    requires ValidConfig(c)
    ensures LossesOk(c, Init(c))
  {
    SumZero(Lost(Init(c).ws));
    assert Broken(c, Init(c).mem) == {};
  }

  lemma {:induction false} RunLosses(c: Config, run: seq<Step>)
    requires ValidConfig(c) && Results.CancelFree(run)
    ensures LossesOk(c, Exec(c, run))
  {
    if run == [] {
      NoneAtFirst(c);
    } else {
      var before := run[..|run| - 1];
      ExecLast(c, run);
      RunLosses(c, before);
      Results.NoneCancelled(c, before);
      ProtocolProof.RunInv(c, before);
      StepLosses(c, Exec(c, before), run[|run| - 1]);
    }
  }

  /**
   * Slots are lost to panics only, in every run without cancels: all workers together have lost as many as there are
   * bodies that were called and panicked, and so never more than there are bodies that would.
   */
  lemma LostToPanics(c: Config, run: seq<Step>)
    requires ValidConfig(c) && Results.CancelFree(run)
    ensures Sum(Lost(Exec(c, run).ws)) == |Broken(c, Exec(c, run).mem)| <= |Breakers(c)|
  {
    RunLosses(c, run);
    SubsetSize(Broken(c, Exec(c, run).mem), Breakers(c));
  }

  /** Some of these threads have slots left, if together they have more slots than there are bodies that panic. */
  lemma SomeHasSlots(c: Config, run: seq<Step>, threads: set<nat>)
    requires ValidConfig(c) && Results.CancelFree(run) && forall w: nat :: w in threads ==> w < |c.labels|
    requires |Breakers(c)| < c.workersPerThread * |threads|
    ensures exists w: nat :: w in threads && w < |c.labels| && Exec(c, run).ws[w].lost < c.workersPerThread
  {
    LostToPanics(c, run);
    var ws := Exec(c, run).ws;
    if forall w: nat :: w in threads ==> ws[w].lost >= c.workersPerThread {
      SumAtLeast(Lost(ws), threads, c.workersPerThread);
    }
  }

  lemma OneHasSlots(c: Config, run: seq<Step>, w: nat)
    requires ValidConfig(c) && Results.CancelFree(run) && w < |c.labels|
    requires |Breakers(c)| < c.workersPerThread
    ensures Exec(c, run).ws[w].lost < c.workersPerThread
  {
    SomeHasSlots(c, run, {w});
  }

  // ----- every run, cancels included -----

  /** The worker takes a step that costs it a slot: a body has panicked, or a task was cancelled while its future is pending. */
  ghost predicate Loses(s: State, step: Step, w: nat) {
    && step.Work? && step.w == w && w < |s.ws|
    && var pc := s.ws[w].pc;
       pc.WPanic? || (pc.WPending? && pc.t < |s.mem.cells| && s.mem.cells[pc.t].state == Cancelled)
  }

  /** The worker gives the slot of a future back that has come to its end. */
  ghost predicate GivesBack(s: State, step: Step, w: nat) {
    step.Work? && step.w == w && w < |s.ws| && s.ws[w].pc.WAdd?
  }

  /** The dispatcher counts a task that it has sent to the worker. */
  ghost predicate Takes(s: State, step: Step, w: nat) {
    step.Dispatch? && s.d.pc == DSub(w)
  }

  /** How often something happens in the first `n` steps; `at` has the states before the steps. */
  ghost function Times(at: nat -> State, run: seq<Step>, n: nat, happens: (State, Step) -> bool): nat
    requires n <= |run|
  {
    if n == 0 then 0 else Times(at, run, n - 1, happens) + (if happens(at(n - 1), run[n - 1]) then 1 else 0)
  }

  /** A step changes the slots of a worker in these three cases, and in no other. */
  ghost predicate Accounts(s: State, step: Step, w: nat, r: State) {
    && w < |s.ws| == |r.ws|
    && r.ws[w].lost == s.ws[w].lost + (if Loses(s, step, w) then 1 else 0)
    && r.ws[w].free ==
       if GivesBack(s, step, w) then FetchAdd(s.ws[w].free)
       else if Takes(s, step, w) then FetchSub(s.ws[w].free)
       else s.ws[w].free
  }

  lemma WorkAccounts(c: Config, s: State, v: nat, finish: bool, w: nat)
    requires Shape(c, s) && v < |s.ws| && w < |s.ws|
    ensures Accounts(s, Work(v, finish), w, WorkStep(c, s, v, finish))
  {
    if v == w {
      WorkerAccounts(c, s.mem, w, s.ws[w], finish);
    }
  }

  lemma WorkerAccounts(c: Config, m: Mem, w: nat, me: Worker, finish: bool)
    requires MemShape(c, m) && WShape(c, me)
    ensures
      var r := WorkerStep(c, m, w, me, finish).me;
      && r.lost == me.lost + (if me.pc.WPanic? || (me.pc.WPending? && m.cells[me.pc.t].state == Cancelled) then 1 else 0)
      && r.free == (if me.pc.WAdd? then FetchAdd(me.free) else me.free)
  {
  }

  lemma DispatchAccounts(c: Config, s: State, w: nat)
    requires Shape(c, s) && w < |s.ws|
    ensures Accounts(s, Dispatch, w, DispatchStep(c, s))
  {
  }

  lemma OutsideAccounts(c: Config, s: State, step: Step, w: nat)
    requires Shape(c, s) && !step.Dispatch? && !step.Work? && w < |s.ws|
    ensures Accounts(s, step, w, OutsideStep(c, s, step))
  {
  }

  /** Every step of every thread accounts for the slots of a worker in this way. */
  lemma StepAccounts(c: Config, s: State, step: Step, w: nat)
    requires Shape(c, s) && w < |s.ws|
    ensures Accounts(s, step, w, Apply(c, s, step))
  {
    if step.Dispatch? {
      DispatchAccounts(c, s, w);
    } else if step.Work? {
      if step.w < |s.ws| {
        WorkAccounts(c, s, step.w, step.finish, w);
      }
    } else {
      OutsideAccounts(c, s, step, w);
    }
  }

  /** The three events at a worker, counted. */
  ghost function Lose(w: nat): (State, Step) -> bool {
    (s, step) => Loses(s, step, w)
  }

  ghost function Give(w: nat): (State, Step) -> bool {
    (s, step) => GivesBack(s, step, w)
  }

  ghost function Take(w: nat): (State, Step) -> bool {
    (s, step) => Takes(s, step, w)
  }

  /** The slots of a worker after it has lost, given and been taken that many. */
  ghost predicate Balanced(c: Config, me: Worker, lost: nat, given: nat, taken: nat) {
    && me.lost == lost && me.free < U32
    && (me.free + taken) % U32 == (c.workersPerThread + given) % U32
  }

  lemma BalancedOn(c: Config, s: State, step: Step, w: nat, r: State, lost: nat, given: nat, taken: nat)
    requires Accounts(s, step, w, r) && Balanced(c, s.ws[w], lost, given, taken)
    ensures Balanced(c, r.ws[w], lost + (if Loses(s, step, w) then 1 else 0), given + (if GivesBack(s, step, w) then 1 else 0),
                     taken + (if Takes(s, step, w) then 1 else 0))
  {
    Counts(s.ws[w].free, taken, c.workersPerThread + given);
  }

  ghost predicate Accounted(c: Config, at: nat -> State, run: seq<Step>, n: nat, w: nat)
    requires n <= |run|
  {
    && w < |at(n).ws|
    && Balanced(c, at(n).ws[w], Times(at, run, n, Lose(w)), Times(at, run, n, Give(w)), Times(at, run, n, Take(w)))
  }

  lemma {:induction false} TraceAccounted(c: Config, at: nat -> State, run: seq<Step>, n: nat, w: nat)
    requires n <= |run| && w < |at(0).ws| && at(0).ws[w].lost == 0 && at(0).ws[w].free == c.workersPerThread < U32
    requires forall k: nat :: k < |run| ==> Accounts(at(k), run[k], w, at(k + 1))
    ensures Accounted(c, at, run, n, w)
    decreases n
  {
    if n > 0 {
      TraceAccounted(c, at, run, n - 1, w);
      assert Accounts(at(n - 1), run[n - 1], w, at(n));
      BalancedOn(c, at(n - 1), run[n - 1], w, at(n),
                 Times(at, run, n - 1, Lose(w)), Times(at, run, n - 1, Give(w)), Times(at, run, n - 1, Take(w)));
    }
  }

  /** The states of a run, one before each of its steps, and the last one. */
  ghost function States(c: Config, run: seq<Step>): nat -> State
    requires ValidConfig(c)
  {
    (n: nat) => if n <= |run| then Exec(c, run[..n]) else Exec(c, run)
  }

  lemma StatesAccount(c: Config, run: seq<Step>, w: nat, k: nat)
    requires ValidConfig(c) && w < |c.labels| && k < |run|
    ensures Accounts(States(c, run)(k), run[k], w, States(c, run)(k + 1))
  {
    assert run[..k + 1][..k] == run[..k];
    ExecLast(c, run[..k + 1]);
    StepAccounts(c, Exec(c, run[..k]), run[k], w);
  }

  lemma StatesBegin(c: Config, run: seq<Step>, w: nat)
    requires ValidConfig(c) && w < |c.labels|
    ensures States(c, run)(0) == Init(c) && States(c, run)(|run|) == Exec(c, run)
  {
    assert run[..0] == [] && run[..|run|] == run;
    assert Exec(c, []) == Init(c);
  }

  /**
   * The account of a worker, in every run, cancels included. It has lost one slot for each body that panicked on it, and
   * for each of its tasks that was cancelled and then gave Pending. Its counter has gone up, modulo `u32`, exactly with
   * each future of it that came to its end, and down with each task that the dispatcher counted.
   */
  lemma SlotsAccounted(c: Config, run: seq<Step>, at: nat -> State, w: nat)
    requires ValidConfig(c) && w < |c.labels| && at == States(c, run)
    ensures at(|run|) == Exec(c, run) && Accounted(c, at, run, |run|, w)
  {
    StatesBegin(c, run, w);
    forall k: nat | k < |run| ensures Accounts(at(k), run[k], w, at(k + 1)) {
      StatesAccount(c, run, w, k);
    }
    TraceAccounted(c, at, run, |run|, w);
  }

  lemma Counts(free: nat, taken: nat, given: nat)
    requires (free + taken) % U32 == given % U32 && free < U32
    ensures (FetchAdd(free) + taken) % U32 == (given + 1) % U32
    ensures (FetchSub(free) + taken + 1) % U32 == given % U32
  {
  }
}
