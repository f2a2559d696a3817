/**
 * The dispatcher does not sleep through work: what it keeps has nothing to wait for but a wake that is still owed. Here
 * is the invariant, and its preservation by every step; `Placement` says what follows.
 */
module QueueWake {
  import opened Tasks
  import opened Memory
  import opened Protocol
  import opened ProtocolInvariant
  import opened Slots
  import ProtocolProof

  /** Somebody will wake the queue: a submitter, the dispatcher itself, or a worker that retires a task. */
  ghost predicate Owed(s: State) {
    || s.d.owing != {}
    || s.d.pc.DRetire?
    || (exists w :: 0 <= w < |s.ws| && (s.ws[w].pc.WAdd? || s.ws[w].pc.WRetire?))
  }

  ghost predicate Noticed(s: State) {
    s.d.flag || Owed(s)
  }

  /** The placement wishes of `t` let it run on thread `w`. */
  ghost predicate Allowed(c: Config, m: Mem, t: TaskId, w: nat)
    requires MemShape(c, m) && t < |c.tasks| && w < |c.labels|
  {
    match m.cells[t].preferred
    case Some(name) => FindLabel(c.labels, name, 0) == Some(w)
    case None => NotExcluded(c.labels[w], m.cells[t].notOn)
  }

  ghost predicate Placeable(c: Config, s: State, t: TaskId)
    requires Shape(c, s) && t < |c.tasks|
  {
    exists w: nat :: w < |s.ws| && Allowed(c, s.mem, t, w) && s.ws[w].free > 0
  }

  /** No thread fits the wishes of `t`, so a pass would relax them. */
  ghost predicate Homeless(c: Config, m: Mem, t: TaskId)
    requires MemShape(c, m) && t < |c.tasks|
  {
    forall w: nat :: w < |c.labels| ==> !Allowed(c, m, t, w)
  }

  /** A pass over `t` would retire it, send it to a worker, or relax its wishes. */
  ghost predicate Actionable(c: Config, s: State, t: TaskId)
    requires Shape(c, s) && t < |c.tasks|
  {
    && CanExecute(c, s.mem, t)
    && (PredState(c, s.mem, t) != Ready || s.mem.cells[t].state == Cancelled || Placeable(c, s, t)
        || Homeless(c, s.mem, t))
  }

  /**
   * Nobody wakes the queue when the wishes of a task are relaxed, or when the task or its predecessor is cancelled from
   * outside; the latter counts until the dispatcher looks at the task again.
   */
  predicate Excused(s: State, t: TaskId) {
    t in s.d.relaxed || t in s.d.unseen
  }

  ghost predicate PredCancelled(c: Config, s: State, t: TaskId)
    requires Shape(c, s) && t < |c.tasks|
  {
    HasPred(c.tasks[t]) && c.tasks[t].body.pred in s.mem.cancelled
  }

  /** Nothing that `t` depends on has failed, and `t` is not cancelled. */
  ghost predicate Well(c: Config, s: State, t: TaskId)
    requires Shape(c, s) && t < |c.tasks|
  {
    PredState(c, s.mem, t) == Ready && s.mem.cells[t].state != Cancelled
  }

  ghost predicate Watched(c: Config, s: State, t: TaskId)
    requires Shape(c, s) && t < |c.tasks|
  {
    Noticed(s) || t in s.d.unseen || (t in s.d.relaxed && Well(c, s, t)) || !Actionable(c, s, t)
  }

  // ----- what the dispatcher has seen of the task in its hands -----

  ghost predicate ScanOk(c: Config, s: State, t: TaskId, i: nat, best: Option<nat>, key: nat)
    requires Shape(c, s) && t < |c.tasks| && i <= |c.labels|
  {
    var notOn := s.mem.cells[t].notOn;
    && s.mem.cells[t].preferred == None
    && match best
       case None => forall j :: 0 <= j < i ==> !NotExcluded(c.labels[j], notOn)
       case Some(b) =>
         && b < i && NotExcluded(c.labels[b], notOn) && s.ws[b].free >= key
         && (Noticed(s) || forall j :: 0 <= j < i && NotExcluded(c.labels[j], notOn) ==> s.ws[j].free <= key)
  }

  ghost predicate TargetOk(c: Config, s: State, t: TaskId, target: Option<nat>)
    requires Shape(c, s) && t < |c.tasks|
  {
    match target
    case None => Homeless(c, s.mem, t)
    case Some(b) =>
      && b < |c.labels| && Allowed(c, s.mem, t, b)
      && (s.ws[b].free == 0 ==>
            Noticed(s) || forall w: nat :: w < |c.labels| && Allowed(c, s.mem, t, w) ==> s.ws[w].free == 0)
  }

  /** Nothing speaks against sending `t`, or a wake is owed, or the next look is excused. */
  ghost predicate Clear(c: Config, s: State, t: TaskId)
    requires Shape(c, s) && t < |c.tasks|
  {
    Noticed(s) || t in s.d.unseen || Well(c, s, t)
  }

  ghost predicate Sees(c: Config, s: State)
    requires Shape(c, s)
  {
    match s.d.pc
    case DGetPanic(t) => PredCancelled(c, s, t) || PredState(c, s.mem, t) == Panicked
    case DCrashed(t) => PredCancelled(c, s, t)
    case DPredCheck(t) => Noticed(s) || t in s.d.unseen || PredState(c, s.mem, t) != Panicked
    case DSelfCheck(t) => Noticed(s) || t in s.d.unseen || PredState(c, s.mem, t) == Ready
    case DFind(t) => Clear(c, s, t)
    case DScan(t, i, best, key) => Clear(c, s, t) && ScanOk(c, s, t, i, best, key)
    case DTarget(t, target) => Clear(c, s, t) && TargetOk(c, s, t, target)
    case DSub(w) => InFlight(s.ws[w]) + s.ws[w].lost > 0 || Noticed(s)
    case DWait => s.d.kept != []
    case _ => true
  }

  ghost predicate QueueOk(c: Config, s: State)
    requires Shape(c, s)
  {
    && (s.d.channel == [] || s.d.flag || s.d.owing != {} || (s.d.pc.DTop? && s.d.todo != []))
    && (forall i :: 0 <= i < |s.d.kept| ==> Watched(c, s, s.d.kept[i]))
    && Sees(c, s)
  }

  // ----- steps of others -----

  /** All tasks that the state of `x` concerns are to be looked at again. */
  ghost predicate Alerted(c: Config, d: Dispatcher, x: TaskId) {
    forall u: TaskId :: u < |c.tasks| && Concerns(c, x, u) ==> u in d.unseen
  }

  /** What the dispatcher can count on while others move: changes that matter to it leave a wake owed. */
  ghost predicate Quiet(c: Config, s: State, s': State) {
    && Shape(c, s) && Shape(c, s')
    && s'.d.pc == s.d.pc && s'.d.kept == s.d.kept && s'.d.todo == s.d.todo && s'.d.relaxed == s.d.relaxed
    && s.d.unseen <= s'.d.unseen
    && (Noticed(s) ==> Noticed(s'))
    && (!s.d.pc.DSub? ==> forall w :: 0 <= w < |s.ws| ==> s'.ws[w].free >= s.ws[w].free)
    && (forall x: nat :: x < |c.tasks| && s.mem.hist[x].place == Held ==>
          && s'.mem.cells[x].preferred == s.mem.cells[x].preferred
          && s'.mem.cells[x].notOn == s.mem.cells[x].notOn)
    && (!Noticed(s') ==>
          && s'.mem.sems == s.mem.sems
          && (forall x: nat :: x < |c.tasks| ==> s'.mem.cells[x].state == s.mem.cells[x].state || Alerted(c, s'.d, x))
          && (forall w :: 0 <= w < |s.ws| ==>
                && s'.ws[w].free == s.ws[w].free
                && InFlight(s'.ws[w]) + s'.ws[w].lost >= InFlight(s.ws[w]) + s.ws[w].lost))
  }

  /** Changes after which `t` needs no more attention than before, unless a wake is owed. */
  ghost predicate Calm(c: Config, s: State, s': State, t: TaskId) {
    && Shape(c, s) && Shape(c, s') && t < |c.tasks|
    && (t in s.d.unseen ==> t in s'.d.unseen) && (t in s.d.relaxed ==> t in s'.d.relaxed)
    && (Noticed(s) ==> Noticed(s'))
    && s'.mem.cells[t].preferred == s.mem.cells[t].preferred
    && s'.mem.cells[t].notOn == s.mem.cells[t].notOn
    && (!Noticed(s') ==>
          && s'.mem.sems == s.mem.sems
          && (forall x: nat :: x < |c.tasks| ==> s'.mem.cells[x].state == s.mem.cells[x].state || Alerted(c, s'.d, x))
          && (forall w :: 0 <= w < |s.ws| ==> s'.ws[w].free <= s.ws[w].free))
  }

  /** A task that needs no new look finds the states as they were. */
  lemma SameStates(c: Config, s: State, s': State, t: TaskId)
    requires Shape(c, s) && Shape(c, s') && t < |c.tasks| && t !in s'.d.unseen
    requires forall x: nat :: x < |c.tasks| ==> s'.mem.cells[x].state == s.mem.cells[x].state || Alerted(c, s'.d, x)
    ensures s'.mem.cells[t].state == s.mem.cells[t].state && PredState(c, s'.mem, t) == PredState(c, s.mem, t)
  {
    assert Concerns(c, t, t);
    if HasPred(c.tasks[t]) {
      assert Concerns(c, c.tasks[t].body.pred, t);
    }
  }

  lemma CalmActionable(c: Config, s: State, s': State, t: TaskId)
    requires Calm(c, s, s', t)
    requires !Noticed(s') && t !in s'.d.unseen && Actionable(c, s', t)
    ensures Actionable(c, s, t)
  {
    SameStates(c, s, s', t);
    if Placeable(c, s', t) {
      var w: nat :| w < |s'.ws| && Allowed(c, s'.mem, t, w) && s'.ws[w].free > 0;
      assert Allowed(c, s.mem, t, w) && s.ws[w].free > 0;
    }
    assert forall w: nat :: w < |c.labels| ==> (Allowed(c, s.mem, t, w) <==> Allowed(c, s'.mem, t, w));
  }

  lemma CalmWatched(c: Config, s: State, s': State, t: TaskId)
    requires Calm(c, s, s', t)
    ensures Watched(c, s, t) ==> Watched(c, s', t)
  {
    if !Watched(c, s', t) {
      CalmActionable(c, s, s', t);
      SameStates(c, s, s', t);
    }
  }

  /** The state of a predecessor that was seen final stays, unless it is cancelled from outside. */
  lemma PredStays(c: Config, s: State, s': State, t: TaskId)
    requires Inv(c, s) && Inv(c, s') && Rely(c, s.mem, s'.mem) && t < |c.tasks|
    requires PredState(c, s.mem, t) != Pending
    ensures PredCancelled(c, s', t) || PredState(c, s'.mem, t) == PredState(c, s.mem, t)
  {
    if HasPred(c.tasks[t]) {
      var p := c.tasks[t].body.pred;
      assert TaskOk(c, s.mem, p);
      assert LaterTask(s.mem, s'.mem, p);
    }
  }

  lemma QuietScan(c: Config, s: State, s': State, t: TaskId, i: nat, best: Option<nat>, key: nat)
    requires Quiet(c, s, s') && t < |c.tasks| && i <= |c.labels| && s.mem.hist[t].place == Held && !s.d.pc.DSub?
    requires ScanOk(c, s, t, i, best, key)
    ensures ScanOk(c, s', t, i, best, key)
  {
  }

  lemma QuietTarget(c: Config, s: State, s': State, t: TaskId, target: Option<nat>)
    requires Quiet(c, s, s') && t < |c.tasks| && s.mem.hist[t].place == Held && !s.d.pc.DSub?
    requires TargetOk(c, s, t, target)
    ensures TargetOk(c, s', t, target)
  {
    assert forall w: nat :: w < |c.labels| ==> (Allowed(c, s.mem, t, w) <==> Allowed(c, s'.mem, t, w));
  }

  lemma QuietSees(c: Config, s: State, s': State)
    requires Inv(c, s) && Inv(c, s') && Rely(c, s.mem, s'.mem) && Quiet(c, s, s') && Sees(c, s)
    ensures Sees(c, s')
  {
    var pc := s.d.pc;
    if pc.DGetPanic? || pc.DCrashed? || pc.DPredCheck? || pc.DSelfCheck? || pc.DFind? || pc.DScan? || pc.DTarget? {
      ProtocolProof.HeldAt(c, s);
      assert DList(s.d)[|s.d.kept|] == pc.t;
      PredStays(c, s, s', pc.t);
      if !Noticed(s') && pc.t !in s'.d.unseen {
        SameStates(c, s, s', pc.t);
      }
      if pc.DScan? {
        QuietScan(c, s, s', pc.t, pc.i, pc.best, pc.key);
      } else if pc.DTarget? {
        QuietTarget(c, s, s', pc.t, pc.target);
      }
    }
  }

  lemma OthersQueueOk(c: Config, s: State, s': State)
    requires Inv(c, s) && Inv(c, s') && Rely(c, s.mem, s'.mem) && Quiet(c, s, s') && QueueOk(c, s)
    requires s'.d.channel == [] || s'.d.flag || s'.d.owing != {} || (s'.d.pc.DTop? && s'.d.todo != [])
    ensures QueueOk(c, s')
  {
    QuietSees(c, s, s');
    ProtocolProof.HeldAt(c, s);
    forall i | 0 <= i < |s'.d.kept| ensures Watched(c, s', s'.d.kept[i]) {
      assert DList(s.d)[i] == s.d.kept[i];
      CalmWatched(c, s, s', s.d.kept[i]);
    }
  }

  lemma WorkQuiet(c: Config, s: State, w: nat, finish: bool)
    requires Inv(c, s) && SlotsOk(c, s) && w < |s.ws|
    ensures Quiet(c, s, WorkStep(c, s, w, finish))
  {
    var s' := WorkStep(c, s, w, finish);
    var me := s.ws[w];
    assert SlotOk(c, s.d, w, me);
    WorkerGives(c, s.mem, w, me, finish);
    assert s'.ws[w] == WorkerStep(c, s.mem, w, me, finish).me;
    if Noticed(s) {
      WorkNotices(c, s, w, finish);
    }
    WorkChanges(c, s.mem, w, me, finish);
    if s'.ws[w].pc.WRetire? {
      assert Owed(s');
    }
  }

  /** A worker that owes a wake keeps owing it until it has woken the queue. */
  lemma OwingStep(c: Config, m: Mem, w: nat, me: Worker, finish: bool)
    requires MemShape(c, m) && WShape(c, me) && (me.pc.WAdd? || me.pc.WRetire?)
    ensures WorkerStep(c, m, w, me, finish).queue || WorkerStep(c, m, w, me, finish).me.pc.WRetire?
  {
  }

  lemma WorkNotices(c: Config, s: State, w: nat, finish: bool)
    requires Shape(c, s) && w < |s.ws| && Noticed(s)
    ensures Noticed(WorkStep(c, s, w, finish))
  {
    var s' := WorkStep(c, s, w, finish);
    if !s.d.flag && s.d.owing == {} && !s.d.pc.DRetire? {
      var v :| 0 <= v < |s.ws| && (s.ws[v].pc.WAdd? || s.ws[v].pc.WRetire?);
      if v == w {
        OwingStep(c, s.mem, w, s.ws[w], finish);
        assert s'.ws[w] == WorkerStep(c, s.mem, w, s.ws[w], finish).me;
      } else {
        assert s'.ws[v] == s.ws[v];
      }
    }
  }

  /** Only in the program points that owe a wake does a worker change what others wait for. */
  ghost predicate Harmless(c: Config, m: Mem, r: Worked) {
    && MemShape(c, m) && MemShape(c, r.mem)
    && (forall x: nat :: x < |c.tasks| ==>
          && r.mem.cells[x].preferred == m.cells[x].preferred && r.mem.cells[x].notOn == m.cells[x].notOn
          && r.mem.hist[x].relaxations == m.hist[x].relaxations)
    && (r.queue || r.me.pc.WAdd? || r.me.pc.WRetire?
        || (r.mem.sems == m.sems && forall x: nat :: x < |c.tasks| ==> r.mem.cells[x].state == m.cells[x].state))
  }

  lemma NextChanges(c: Config, m: Mem, me: Worker)
    requires MemShape(c, m) && WShape(c, me) && me.pc.WNext?
    ensures Harmless(c, m, WNextStep(c, m, me))
  {
  }

  lemma ListChanges(c: Config, m: Mem, w: nat, me: Worker, finish: bool)
    requires MemShape(c, m) && WShape(c, me) && (me.pc.WTop? || me.pc.WWait? || me.pc.WPending? || me.pc.WRetire?)
    ensures Harmless(c, m, WorkerStep(c, m, w, me, finish))
  {
  }

  lemma PredChanges(c: Config, m: Mem, w: nat, me: Worker, finish: bool)
    requires MemShape(c, m) && WShape(c, me) && (me.pc.WPredWait? || me.pc.WPredRead? || me.pc.WPredTake?)
    ensures Harmless(c, m, WorkerStep(c, m, w, me, finish))
  {
  }

  lemma MatchChanges(c: Config, m: Mem, me: Worker)
    requires MemShape(c, m) && WShape(c, me) && me.pc.WMatch?
    ensures Harmless(c, m, WMatchStep(c, m, me, me.pc.t, me.pc.res))
  {
  }

  lemma RunChanges(c: Config, m: Mem, w: nat, me: Worker, finish: bool)
    requires MemShape(c, m) && WShape(c, me) && InRun(me.pc)
    ensures Harmless(c, m, WorkerStep(c, m, w, me, finish))
  {
  }

  lemma WorkChanges(c: Config, m: Mem, w: nat, me: Worker, finish: bool)
    requires MemShape(c, m) && WShape(c, me)
    ensures Harmless(c, m, WorkerStep(c, m, w, me, finish))
  {
    if me.pc.WNext? {
      NextChanges(c, m, me);
    } else if me.pc.WTop? || me.pc.WWait? || me.pc.WPending? || me.pc.WRetire? {
      ListChanges(c, m, w, me, finish);
    } else if me.pc.WMatch? {
      MatchChanges(c, m, me);
    } else if InPred(me.pc) {
      PredChanges(c, m, w, me, finish);
    } else {
      RunChanges(c, m, w, me, finish);
    }
  }

  lemma OutsideQuiet(c: Config, s: State, step: Step)
    requires Inv(c, s) && !step.Dispatch? && !step.Work?
    ensures Quiet(c, s, OutsideStep(c, s, step))
    ensures OutsideStep(c, s, step).d.channel == s.d.channel || OutsideStep(c, s, step).d.owing != {}
  {
    if Noticed(s) {
      OutsideNotices(c, s, step);
    }
    OutsideChanges(c, s, step);
  }

  lemma OutsideNotices(c: Config, s: State, step: Step)
    requires Shape(c, s) && !step.Dispatch? && !step.Work? && Noticed(s)
    ensures Noticed(OutsideStep(c, s, step))
  {
    var s' := OutsideStep(c, s, step);
    if !s.d.flag && s.d.owing == {} && !s.d.pc.DRetire? {
      var v :| 0 <= v < |s.ws| && (s.ws[v].pc.WAdd? || s.ws[v].pc.WRetire?);
      assert s'.ws[v].pc == s.ws[v].pc;
    }
  }

  lemma OutsideChanges(c: Config, s: State, step: Step)
    requires Shape(c, s) && !step.Dispatch? && !step.Work?
    ensures
      var s' := OutsideStep(c, s, step);
      && s'.mem.sems == s.mem.sems
      && (forall x: nat :: x < |c.tasks| ==> s'.mem.cells[x].state == s.mem.cells[x].state || Alerted(c, s'.d, x))
      && (forall x: nat :: x < |c.tasks| && s.mem.hist[x].place != Outside ==>
            && s'.mem.cells[x].preferred == s.mem.cells[x].preferred
            && s'.mem.cells[x].notOn == s.mem.cells[x].notOn)
  {
    if step.SubmitSend? && step.t < |c.tasks| && s.mem.hist[step.t].place == Outside {
      SubmitChanges(c, s, step);
    } else if step.Cancel? {
      CancelChanges(c, s, step);
    } else {
      UserChanges(c, s, step);
    }
  }

  /** A cancel changes one state, and alerts whom it concerns. */
  lemma CancelChanges(c: Config, s: State, step: Step)
    requires Shape(c, s) && step.Cancel?
    ensures
      var s' := OutsideStep(c, s, step);
      && s'.mem.sems == s.mem.sems
      && (forall x: nat :: x < |c.tasks| ==>
            && (s'.mem.cells[x].state == s.mem.cells[x].state || Alerted(c, s'.d, x))
            && s'.mem.cells[x].preferred == s.mem.cells[x].preferred
            && s'.mem.cells[x].notOn == s.mem.cells[x].notOn)
  {
  }

  lemma UserChanges(c: Config, s: State, step: Step)
    requires Shape(c, s) && !step.Dispatch? && !step.Work? && !step.Cancel?
    requires step.SubmitSend? ==> step.t >= |c.tasks| || s.mem.hist[step.t].place != Outside
    ensures
      var s' := OutsideStep(c, s, step);
      && s'.mem.sems == s.mem.sems
      && (forall x: nat :: x < |c.tasks| ==>
            && s'.mem.cells[x].state == s.mem.cells[x].state
            && s'.mem.cells[x].preferred == s.mem.cells[x].preferred
            && s'.mem.cells[x].notOn == s.mem.cells[x].notOn)
  {
  }

  lemma SubmitChanges(c: Config, s: State, step: Step)
    requires Shape(c, s) && step.SubmitSend? && step.t < |c.tasks| && s.mem.hist[step.t].place == Outside
    ensures
      var s' := OutsideStep(c, s, step);
      && s'.mem.sems == s.mem.sems
      && (forall x: nat :: x < |c.tasks| ==> s'.mem.cells[x].state == s.mem.cells[x].state)
      && (forall x: nat :: x < |c.tasks| && x != step.t ==>
            && s'.mem.cells[x].preferred == s.mem.cells[x].preferred
            && s'.mem.cells[x].notOn == s.mem.cells[x].notOn)
  {
  }

  // ----- steps of the dispatcher -----

  /** The kept tasks stay watched, and a task that is kept now is watched. */
  lemma KeptWatched(c: Config, s: State, s': State)
    requires Inv(c, s) && QueueOk(c, s) && Shape(c, s')
    requires forall i :: 0 <= i < |s.d.kept| ==> Calm(c, s, s', s.d.kept[i])
    requires s'.d.kept == s.d.kept || (exists t: TaskId :: t < |c.tasks| && s'.d.kept == s.d.kept + [t] && Watched(c, s', t))
    ensures forall i :: 0 <= i < |s'.d.kept| ==> Watched(c, s', s'.d.kept[i])
  {
    forall i | 0 <= i < |s.d.kept| ensures Watched(c, s', s.d.kept[i]) {
      assert Calm(c, s, s', s.d.kept[i]);
      CalmWatched(c, s, s', s.d.kept[i]);
    }
  }

  lemma WorkersNotice(s: State, s': State)
    requires Noticed(s) && !s.d.pc.DRetire?
    requires s'.d.flag == s.d.flag && s'.d.owing == s.d.owing && |s'.ws| == |s.ws|
    requires forall w :: 0 <= w < |s.ws| ==> s'.ws[w].pc == s.ws[w].pc
    ensures Noticed(s')
  {
    if !s.d.flag && s.d.owing == {} {
      var v :| 0 <= v < |s.ws| && (s.ws[v].pc.WAdd? || s.ws[v].pc.WRetire?);
      assert s'.ws[v].pc == s.ws[v].pc;
    }
  }

  lemma CheckQueueOk(c: Config, s: State)
    requires Inv(c, s) && QueueOk(c, s)
    requires s.d.pc.DPanicCheck? || s.d.pc.DGetPanic? || s.d.pc.DPredCheck? || s.d.pc.DSelfCheck?
             || s.d.pc.DFind? || s.d.pc.DScan? || s.d.pc.DCrashed?
    ensures QueueOk(c, DispatchStep(c, s))
  {
    var pc := DispatchStep(c, s).d.pc;
    assert DispatchStep(c, s) == SetDPc(s, pc);
    PcKeepsWatch(c, s, pc);
    ChecksSee(c, s);
  }

  lemma PcKeepsWatch(c: Config, s: State, pc: DPc)
    requires Inv(c, s) && QueueOk(c, s) && DHolds(s.d.pc) && !s.d.pc.DRetire?
    requires Shape(c, SetDPc(s, pc))
    ensures forall i :: 0 <= i < |s.d.kept| ==> Watched(c, SetDPc(s, pc), s.d.kept[i])
  {
    var s' := SetDPc(s, pc);
    if Noticed(s) {
      WorkersNotice(s, s');
    }
    KeptWatched(c, s, s');
  }

  lemma ChecksSee(c: Config, s: State)
    requires Inv(c, s) && Sees(c, s)
    requires s.d.pc.DPanicCheck? || s.d.pc.DGetPanic? || s.d.pc.DPredCheck? || s.d.pc.DSelfCheck?
             || s.d.pc.DFind? || s.d.pc.DScan? || s.d.pc.DCrashed?
    ensures Sees(c, DispatchStep(c, s))
  {
    var s' := DispatchStep(c, s);
    if Noticed(s) {
      WorkersNotice(s, s');
    }
    if s.d.pc.DFind? {
      FindSees(c, s);
    } else if s.d.pc.DScan? {
      ScanSees(c, s);
    }
  }

  lemma FindSees(c: Config, s: State)
    requires Inv(c, s) && Sees(c, s) && s.d.pc.DFind?
    ensures Sees(c, DispatchStep(c, s))
  {
    var s' := DispatchStep(c, s);
    if Noticed(s) {
      WorkersNotice(s, s');
    }
  }

  lemma ScanSees(c: Config, s: State)
    requires Shape(c, s) && Sees(c, s) && s.d.pc.DScan?
    ensures Sees(c, DScanStep(c, s, s.d.pc.t, s.d.pc.i, s.d.pc.best, s.d.pc.key))
  {
    var DScan(t, i, best, key) := s.d.pc;
    var s' := DScanStep(c, s, t, i, best, key);
    if Noticed(s) {
      WorkersNotice(s, s');
    }
    if i == |c.labels| {
      assert TargetOk(c, s', t, best);
    } else {
      assert ScanOk(c, s', t, i + 1, s'.d.pc.best, s'.d.pc.key);
    }
  }

  lemma NextIsNotKept(c: Config, s: State)
    requires Inv(c, s) && s.d.pc.DNext? && s.d.todo != []
    ensures forall i :: 0 <= i < |s.d.kept| ==> s.d.kept[i] != s.d.todo[0]
  {
    ProtocolProof.HeldAt(c, s);
    assert DList(s.d)[|s.d.kept|] == s.d.todo[0];
    assert forall i :: 0 <= i < |s.d.kept| ==> DList(s.d)[i] == s.d.kept[i];
  }

  lemma NextQueueOk(c: Config, s: State)
    requires Inv(c, s) && QueueOk(c, s) && (s.d.pc.DTop? || s.d.pc.DNext? || s.d.pc.DWait?)
    ensures QueueOk(c, DispatchStep(c, s))
  {
    var s' := DispatchStep(c, s);
    if s.d.pc.DNext? {
      if Noticed(s) {
        WorkersNotice(s, s');
      }
      if s.d.todo != [] {
        NextIsNotKept(c, s);
        assert CanExecute(c, s.mem, s.d.todo[0]) || Watched(c, s', s.d.todo[0]);
      }
      KeptWatched(c, s, s');
    }
  }

  /** No room on the chosen thread: then there is none anywhere the task may go. */
  lemma NoRoom(c: Config, s: State, t: TaskId, b: nat)
    requires Inv(c, s) && t < |c.tasks| && s.mem.hist[t].stage == Idle
    requires TargetOk(c, s, t, Some(b)) && s.ws[b].free == 0
    requires Clear(c, s, t)
    ensures Watched(c, s, t)
  {
    assert TaskOk(c, s.mem, t);
  }

  lemma FullQueueOk(c: Config, s: State, b: nat)
    requires Inv(c, s) && QueueOk(c, s) && s.d.pc.DTarget? && s.d.pc.target == Some(b)
    ensures QueueOk(c, DTargetStep(c, s, s.d.pc.t, Some(b)))
  {
    var t := s.d.pc.t;
    var s' := DTargetStep(c, s, t, Some(b));
    if Noticed(s) {
      WorkersNotice(s, s');
    }
    assert Calm(c, s, s', t);
    if s.ws[b].free == 0 {
      NoRoom(c, s, t, b);
      CalmWatched(c, s, s', t);
    }
    KeptWatched(c, s, s');
  }

  lemma RelaxQueueOk(c: Config, s: State)
    requires Inv(c, s) && QueueOk(c, s) && s.d.pc.DTarget? && s.d.pc.target == None
    ensures QueueOk(c, DTargetStep(c, s, s.d.pc.t, None))
  {
    var t := s.d.pc.t;
    var s' := DTargetStep(c, s, t, None);
    ProtocolProof.HeldAt(c, s);
    assert DList(s.d)[|s.d.kept|] == t;
    assert forall i :: 0 <= i < |s.d.kept| ==> DList(s.d)[i] == s.d.kept[i];
    if Noticed(s) {
      WorkersNotice(s, s');
    }
    RelaxedIsWatched(c, s);
    forall i | 0 <= i < |s.d.kept| ensures Calm(c, s, s', s.d.kept[i]) {
      assert s.d.kept[i] != t;
    }
    KeptWatched(c, s, s');
  }

  lemma RelaxedIsWatched(c: Config, s: State)
    requires Shape(c, s) && s.d.pc.DTarget? && s.d.pc.target == None && Clear(c, s, s.d.pc.t)
    ensures Watched(c, DTargetStep(c, s, s.d.pc.t, None), s.d.pc.t)
  {
    var t := s.d.pc.t;
    var s' := DTargetStep(c, s, t, None);
    if Noticed(s) {
      WorkersNotice(s, s');
    }
    assert PredState(c, s'.mem, t) == PredState(c, s.mem, t) && s'.mem.cells[t].state == s.mem.cells[t].state;
  }

  lemma VerdictQueueOk(c: Config, s: State)
    requires Inv(c, s) && QueueOk(c, s) && (s.d.pc.DWrite? || s.d.pc.DRetire?)
    ensures QueueOk(c, DispatchStep(c, s))
  {
    assert Noticed(DispatchStep(c, s));
  }

  lemma SendQueueOk(c: Config, s: State)
    requires Inv(c, s) && SlotsOk(c, s) && QueueOk(c, s) && (s.d.pc.DSend? || s.d.pc.DSub? || s.d.pc.DWakeWorker?)
    ensures QueueOk(c, DispatchStep(c, s))
  {
    var s' := DispatchStep(c, s);
    assert SlotOk(c, s.d, s.d.pc.w, s.ws[s.d.pc.w]);
    if Noticed(s) {
      WorkersNotice(s, s');
    }
    KeptWatched(c, s, s');
  }

  lemma DispatchQueueOk(c: Config, s: State)
    requires Inv(c, s) && SlotsOk(c, s) && QueueOk(c, s)
    ensures QueueOk(c, DispatchStep(c, s))
  {
    match s.d.pc
    case DTop => NextQueueOk(c, s);
    case DNext => NextQueueOk(c, s);
    case DWait => NextQueueOk(c, s);
    case DTarget(_, Some(b)) => FullQueueOk(c, s, b);
    case DTarget(_, None) => RelaxQueueOk(c, s);
    case DWrite(_, _) => VerdictQueueOk(c, s);
    case DRetire(_, _) => VerdictQueueOk(c, s);
    case DSend(_, _) => SendQueueOk(c, s);
    case DSub(_) => SendQueueOk(c, s);
    case DWakeWorker(_) => SendQueueOk(c, s);
    case _ => CheckQueueOk(c, s);
  }

  lemma OutsideQueueOk(c: Config, s: State, step: Step)
    requires Inv(c, s) && QueueOk(c, s) && !step.Dispatch? && !step.Work?
    ensures QueueOk(c, OutsideStep(c, s, step))
  {
    ProtocolProof.OutsideInv(c, s, step);
    OutsideQuiet(c, s, step);
    OutsideFlags(c, s, step);
    OthersQueueOk(c, s, OutsideStep(c, s, step));
  }

  lemma OutsideFlags(c: Config, s: State, step: Step)
    requires Shape(c, s) && !step.Dispatch? && !step.Work?
    ensures s.d.flag || s.d.owing != {} ==> OutsideStep(c, s, step).d.flag || OutsideStep(c, s, step).d.owing != {}
  {
  }

  lemma WorkFlags(c: Config, s: State, w: nat, finish: bool)
    requires Shape(c, s) && w < |s.ws|
    ensures
      var d := WorkStep(c, s, w, finish).d;
      d.channel == s.d.channel && d.owing == s.d.owing && d.pc == s.d.pc && d.todo == s.d.todo && (s.d.flag ==> d.flag)
  {
  }

  lemma WorkQueueOk(c: Config, s: State, w: nat, finish: bool)
    requires Inv(c, s) && SlotsOk(c, s) && QueueOk(c, s) && w < |s.ws|
    ensures QueueOk(c, WorkStep(c, s, w, finish))
  {
    ProtocolProof.WorkInv(c, s, w, finish);
    WorkQuiet(c, s, w, finish);
    WorkFlags(c, s, w, finish);
    OthersQueueOk(c, s, WorkStep(c, s, w, finish));
  }

  lemma StepQueueOk(c: Config, s: State, step: Step)
    requires Inv(c, s) && SlotsOk(c, s) && QueueOk(c, s)
    ensures QueueOk(c, Apply(c, s, step))
  {
    if step.Dispatch? {
      DispatchQueueOk(c, s);
    } else if step.Work? {
      if step.w < |s.ws| {
        WorkQueueOk(c, s, step.w, step.finish);
      }
    } else {
      OutsideQueueOk(c, s, step);
    }
  }

  lemma {:induction false} RunQueueOk(c: Config, run: seq<Step>)
    requires ValidConfig(c)
    ensures QueueOk(c, Exec(c, run))
  {
    if run != [] {
      var before := run[..|run| - 1];
      ExecLast(c, run);
      RunQueueOk(c, before);
      RunSlots(c, before);
      ProtocolProof.RunInv(c, before);
      StepQueueOk(c, Exec(c, before), run[|run| - 1]);
    }
  }

  /** The dispatcher dies of a panic of its own only if the task it looks at continues one cancelled from outside. */
  lemma CrashNeedsCancel(c: Config, run: seq<Step>)
    requires ValidConfig(c) && Exec(c, run).d.pc.DCrashed?
    ensures PredCancelled(c, Exec(c, run), Exec(c, run).d.pc.t)
  {
    RunQueueOk(c, run);
  }
}
