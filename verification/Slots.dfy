/** The slot counters of the workers, with the wrap-around of `u32` and with the late `fetch_sub`. */
module Slots {
  import opened Tasks
  import opened Memory
  import opened Protocol
  import opened ProtocolInvariant

  /** The tasks that use a slot of the worker: in its channel or among its futures, not yet given back or given up. */
  function InFlight(me: Worker): nat {
    |me.inbox| + |me.kept| + |me.todo| + (if WHolds(me.pc) && !me.pc.WRetire? then 1 else 0)
  }

  /** The dispatcher has sent a task to the worker and not yet counted it. */
  function Uncounted(d: Dispatcher, w: nat): nat {
    if d.pc == DSub(w) then 1 else 0
  }

  /** What a `u32` counter shows of a count that is at most `U32`. */
  function Shown(exact: nat): nat {
    if exact == U32 then 0 else exact
  }

  ghost predicate SlotOk(c: Config, d: Dispatcher, w: nat, me: Worker) {
    && InFlight(me) + me.lost <= c.workersPerThread
    && me.free == Shown(c.workersPerThread + Uncounted(d, w) - InFlight(me) - me.lost)
    && (d.pc.DSend? && d.pc.w == w ==> InFlight(me) + me.lost < c.workersPerThread)
  }

  ghost predicate SlotsOk(c: Config, s: State) {
    forall w: nat :: w < |s.ws| ==> SlotOk(c, s.d, w, s.ws[w])
  }

  /** How a step of a worker changes its slots: it may give one back or lose one, and takes none. */
  ghost predicate Gives(me: Worker, r: Worker) {
    || (InFlight(r) == InFlight(me) && r.lost == me.lost && r.free == me.free)
    || (InFlight(r) + 1 == InFlight(me) && r.lost == me.lost && r.free == FetchAdd(me.free) && r.pc.WRetire?)
    || (InFlight(r) + 1 == InFlight(me) && r.lost == me.lost + 1 && r.free == me.free)
  }

  lemma ListGives(c: Config, m: Mem, w: nat, me: Worker, finish: bool)
    requires MemShape(c, m) && WShape(c, me) && (me.pc.WTop? || me.pc.WNext? || me.pc.WWait?)
    ensures Gives(me, WorkerStep(c, m, w, me, finish).me)
  {
  }

  lemma PollGives(c: Config, m: Mem, w: nat, me: Worker, finish: bool)
    requires MemShape(c, m) && WShape(c, me) && (InPred(me.pc) || InRun(me.pc))
    ensures Gives(me, WorkerStep(c, m, w, me, finish).me)
  {
  }

  lemma WorkerGives(c: Config, m: Mem, w: nat, me: Worker, finish: bool)
    requires MemShape(c, m) && WShape(c, me)
    ensures Gives(me, WorkerStep(c, m, w, me, finish).me)
  {
    if me.pc.WTop? || me.pc.WNext? || me.pc.WWait? {
      ListGives(c, m, w, me, finish);
    } else if InPred(me.pc) || InRun(me.pc) {
      PollGives(c, m, w, me, finish);
    }
  }

  lemma WorkSlots(c: Config, s: State, w: nat, finish: bool)
    requires Shape(c, s) && w < |s.ws| && SlotsOk(c, s)
    ensures SlotsOk(c, WorkStep(c, s, w, finish))
  {
    var me := s.ws[w];
    assert SlotOk(c, s.d, w, me);
    var s' := WorkStep(c, s, w, finish);
    WorkerGives(c, s.mem, w, me, finish);
    forall v: nat | v < |s'.ws| ensures SlotOk(c, s'.d, v, s'.ws[v]) {
      assert SlotOk(c, s.d, v, s.ws[v]);
    }
  }

  lemma ControlSlots(c: Config, s: State)
    requires Shape(c, s) && SlotsOk(c, s) && !(s.d.pc.DSend? || s.d.pc.DSub? || s.d.pc.DWakeWorker?)
    ensures SlotsOk(c, DispatchStep(c, s))
  {
    var s' := DispatchStep(c, s);
    assert s'.ws == s.ws && !s'.d.pc.DSub?;
    forall v: nat | v < |s'.ws| ensures SlotOk(c, s'.d, v, s'.ws[v]) {
      assert SlotOk(c, s.d, v, s.ws[v]);
    }
  }

  lemma SendSlots(c: Config, s: State)
    requires Shape(c, s) && SlotsOk(c, s) && (s.d.pc.DSend? || s.d.pc.DSub? || s.d.pc.DWakeWorker?)
    ensures SlotsOk(c, DispatchStep(c, s))
  {
    var s' := DispatchStep(c, s);
    forall v: nat | v < |s'.ws| ensures SlotOk(c, s'.d, v, s'.ws[v]) {
      assert SlotOk(c, s.d, v, s.ws[v]);
    }
  }

  lemma DispatchSlots(c: Config, s: State)
    requires Shape(c, s) && SlotsOk(c, s)
    ensures SlotsOk(c, DispatchStep(c, s))
  {
    if s.d.pc.DSend? || s.d.pc.DSub? || s.d.pc.DWakeWorker? {
      SendSlots(c, s);
    } else {
      ControlSlots(c, s);
    }
  }

  lemma OutsideSlots(c: Config, s: State, step: Step)
    requires Shape(c, s) && SlotsOk(c, s) && !step.Dispatch? && !step.Work?
    ensures SlotsOk(c, OutsideStep(c, s, step))
  {
    var s' := OutsideStep(c, s, step);
    forall v: nat | v < |s'.ws| ensures SlotOk(c, s'.d, v, s'.ws[v]) {
      assert SlotOk(c, s.d, v, s.ws[v]);
    }
  }

  lemma StepSlots(c: Config, s: State, step: Step)
    requires Shape(c, s) && SlotsOk(c, s)
    ensures SlotsOk(c, Apply(c, s, step))
  {
    match step
    case Dispatch => DispatchSlots(c, s);
    case Work(w, finish) => if w < |s.ws| { WorkSlots(c, s, w, finish); }
    case _ => OutsideSlots(c, s, step);
  }

  lemma {:induction false} RunSlots(c: Config, run: seq<Step>)
    requires ValidConfig(c)
    ensures SlotsOk(c, Exec(c, run))
  {
    if run != [] {
      ExecLast(c, run);
      RunSlots(c, run[..|run| - 1]);
      StepSlots(c, Exec(c, run[..|run| - 1]), run[|run| - 1]);
    }
  }

  /**
   * Slot conservation in every run: free, used and lost slots add up to the number of workers, plus one while a
   * sent task is not counted; the counter wraps to 0 only with `u32::MAX` workers, while a finished task is
   * still uncounted. No worker ever has more tasks than slots.
   */
  lemma SlotsConserved(c: Config, run: seq<Step>, w: nat)
    requires ValidConfig(c) && w < |c.labels|
    ensures
      var s := Exec(c, run);
      var me := s.ws[w];
      && InFlight(me) + me.lost <= c.workersPerThread
      && (me.free + InFlight(me) + me.lost == c.workersPerThread + Uncounted(s.d, w)
          || (me.free == 0 && c.workersPerThread == U32 - 1 && s.d.pc == DSub(w) && InFlight(me) == me.lost == 0))
  {
    RunSlots(c, run);
    var s := Exec(c, run);
    assert SlotOk(c, s.d, w, s.ws[w]);
  }
}
