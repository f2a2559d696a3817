/** Left to themselves the threads come to a standstill: every step that changes anything uses something up. */
module Progress {
  import opened Tasks
  import opened Memory
  import opened Protocol
  import opened ProtocolInvariant
  import opened Sums
  import ProtocolProof
  import WorkerProof
  import DispatcherProof

  // ----- what is used up -----

  function PlaceRank(p: Place): nat {
    match p
    case Outside => 5
    case Channel => 4
    case Held => 3
    case Inbox(_) => 2
    case Futures(_) => 1
    case Retired => 0
  }

  /** The steps that a task with `n` semaphores is still to take from a stage on. */
  function StageRank(stage: Stage, n: nat): nat {
    match stage
    case Idle => n + 7
    case Waiting => n + 6
    case Called(_) => n + 5
    case Filled => n + 4
    case Settled => n + 3
    case Firing(k) => if k <= n + 1 then n + 2 - k else 0
    case Over => 0
  }

  function TaskRank(task: Task, h: History): nat {
    PlaceRank(h.place) + StageRank(h.stage, |task.semaphores|)
  }

  ghost function MemRank(c: Config, m: Mem): nat
    requires MemShape(c, m)
  {
    Sum(seq(|c.tasks|, t requires 0 <= t < |c.tasks| => TaskRank(c.tasks[t], m.hist[t])))
  }

  /** A step that changes the history of one task only moves the rank of the memory as that of the task. */
  lemma MemRankMoves(c: Config, m: Mem, m': Mem, t: TaskId)
    requires MemShape(c, m) && MemShape(c, m') && t < |c.tasks|
    requires forall x: nat :: x < |c.tasks| && x != t ==> m'.hist[x] == m.hist[x]
    ensures MemRank(c, m') + TaskRank(c.tasks[t], m.hist[t]) == MemRank(c, m) + TaskRank(c.tasks[t], m'.hist[t])
  {
    var ranks := seq(|c.tasks|, x requires 0 <= x < |c.tasks| => TaskRank(c.tasks[x], m.hist[x]));
    var ranks' := seq(|c.tasks|, x requires 0 <= x < |c.tasks| => TaskRank(c.tasks[x], m'.hist[x]));
    SumUpdate(ranks, t, ranks'[t]);
    assert ranks' == ranks[t := ranks'[t]];
  }

  lemma MemRankStays(c: Config, m: Mem, m': Mem)
    requires MemShape(c, m) && MemShape(c, m') && m'.hist == m.hist
    ensures MemRank(c, m') == MemRank(c, m)
  {
  }

  /** How far a worker is from the end of its pass, if the memory and its flag stay as they are. */
  function WPcRank(pc: WPc): nat {
    match pc
    case WTop => 0
    case WNext => 1
    case WPending(_) => 2
    case WRetire(_, _) => 3
    case WAdd(_) => 4
    case WWrite(_, _) => 5
    case WPanic(_) => 5
    case WFill(_, _) => 6
    case WRun(_, _) => 7
    case WMatch(_, _) => 8
    case WPredTake(_) => 9
    case WPredRead(_) => 10
    case WPredWait(_) => 11
    case WWait => 0
  }

  function WRank(me: Worker): nat {
    if me.pc.WWait? then 0
    else if me.pc.WTop? then (if me.inbox != [] || me.todo == [] then 0 else 12 * |me.todo| + 2)
    else 12 * |me.todo| + WPcRank(me.pc)
  }

  /** How far the dispatcher is from the end of its pass. */
  function DPcRank(pc: DPc, n: nat): nat {
    match pc
    case DTop => 0
    case DNext => 1
    case DWakeWorker(_) => 2
    case DSub(_) => 3
    case DRetire(_, _) => 3
    case DWrite(_, _) => 4
    case DSend(_, _) => 4
    case DTarget(_, _) => 5
    case DScan(_, i, _, _) => if i <= n then n - i + 6 else 0
    case DFind(_) => n + 7
    case DSelfCheck(_) => n + 8
    case DPredCheck(_) => n + 9
    case DGetPanic(_) => n + 9
    case DPanicCheck(_) => n + 10
    case DWait => 0
    case DCrashed(_) => 0
  }

  function DRank(d: Dispatcher, n: nat): nat {
    if d.pc.DWait? || d.pc.DCrashed? then 0
    else if d.pc.DTop? then (if d.channel != [] || d.todo == [] then 0 else Times(n + 11, |d.todo|) + 2)
    else Times(n + 11, |d.todo|) + DPcRank(d.pc, n)
  }

  function Times(a: nat, k: nat): nat {
    if k == 0 then 0 else Times(a, k - 1) + a
  }

  function Flag(b: bool): nat {
    if b then 1 else 0
  }

  /** The flags that are up, or about to be put up by the dispatcher. */
  ghost function Flags(s: State): nat {
    Flag(s.d.flag) + Flag(s.d.pc.DSub? || s.d.pc.DWakeWorker?)
    + Sum(seq(|s.ws|, w requires 0 <= w < |s.ws| => Flag(s.ws[w].flag)))
  }

  ghost function Rank(c: Config, s: State): nat {
    DRank(s.d, |c.labels|) + Sum(seq(|s.ws|, w requires 0 <= w < |s.ws| => WRank(s.ws[w])))
  }

  /** The memory got further; or no new flag was put up and one was consumed; or else a pass got further. */
  ghost predicate Descends(c: Config, s: State, s': State)
    requires Shape(c, s) && Shape(c, s')
  {
    || MemRank(c, s'.mem) < MemRank(c, s.mem)
    || (MemRank(c, s'.mem) == MemRank(c, s.mem)
        && (Flags(s') < Flags(s) || (Flags(s') == Flags(s) && Rank(c, s') < Rank(c, s))))
  }

  // ----- a worker -----

  /** What a step of a worker may do: get a task further, consume its flag, get on with its pass, or nothing. */
  ghost predicate WorkerGetsOn(c: Config, m: Mem, me: Worker, r: Worked)
    requires MemShape(c, m)
  {
    && MemShape(c, r.mem)
    && (|| MemRank(c, r.mem) < MemRank(c, m)
        || (MemRank(c, r.mem) == MemRank(c, m) && !r.queue && Flag(r.me.flag) < Flag(me.flag))
        || (MemRank(c, r.mem) == MemRank(c, m) && !r.queue && r.me.flag == me.flag && WRank(r.me) < WRank(me))
        || (r.mem == m && r.me == me && !r.queue))
  }

  lemma ListGetsOn(c: Config, m: Mem, w: nat, me: Worker, finish: bool)
    requires WorkerProof.WPre(c, m, w, me) && (me.pc.WTop? || me.pc.WWait?)
    ensures WorkerGetsOn(c, m, me, WorkerStep(c, m, w, me, finish))
  {
    var r := WorkerStep(c, m, w, me, finish);
    if me.pc.WTop? && me.inbox != [] {
      assert TaskOk(c, m, me.inbox[0]);
      MemRankMoves(c, m, r.mem, me.inbox[0]);
    }
  }

  lemma NextGetsOn(c: Config, m: Mem, w: nat, me: Worker)
    requires WorkerProof.WPre(c, m, w, me) && me.pc.WNext?
    ensures WorkerGetsOn(c, m, me, WNextStep(c, m, me))
  {
    var r := WNextStep(c, m, me);
    if me.todo != [] {
      MemRankMoves(c, m, r.mem, me.todo[0]);
    }
  }

  lemma PredGetsOn(c: Config, m: Mem, w: nat, me: Worker, finish: bool)
    requires WorkerProof.WPre(c, m, w, me) && (me.pc.WPredWait? || me.pc.WPredRead? || me.pc.WPredTake?)
    ensures WorkerGetsOn(c, m, me, WorkerStep(c, m, w, me, finish))
  {
    var r := WorkerStep(c, m, w, me, finish);
    assert r.mem.hist == m.hist;
    MemRankStays(c, m, r.mem);
  }

  lemma MatchGetsOn(c: Config, m: Mem, w: nat, me: Worker, finish: bool)
    requires WorkerProof.WPre(c, m, w, me) && me.pc.WMatch?
    ensures WorkerGetsOn(c, m, me, WorkerStep(c, m, w, me, finish))
  {
    var r := WorkerStep(c, m, w, me, finish);
    MemRankMoves(c, m, r.mem, me.pc.t);
  }

  lemma RunGetsOn(c: Config, m: Mem, w: nat, me: Worker, finish: bool)
    requires WorkerProof.WPre(c, m, w, me) && (me.pc.WRun? || me.pc.WFill? || me.pc.WWrite?)
    ensures WorkerGetsOn(c, m, me, WorkerStep(c, m, w, me, finish))
  {
    var r := WorkerStep(c, m, w, me, finish);
    MemRankMoves(c, m, r.mem, me.pc.t);
  }

  lemma SlotGetsOn(c: Config, m: Mem, w: nat, me: Worker, finish: bool)
    requires WorkerProof.WPre(c, m, w, me) && (me.pc.WAdd? || me.pc.WPanic?)
    ensures WorkerGetsOn(c, m, me, WorkerStep(c, m, w, me, finish))
  {
    var r := WorkerStep(c, m, w, me, finish);
    MemRankMoves(c, m, r.mem, me.pc.t);
  }

  lemma EndGetsOn(c: Config, m: Mem, w: nat, me: Worker, finish: bool)
    requires WorkerProof.WPre(c, m, w, me) && (me.pc.WPending? || me.pc.WRetire?)
    ensures WorkerGetsOn(c, m, me, WorkerStep(c, m, w, me, finish))
  {
    var r := WorkerStep(c, m, w, me, finish);
    assert TaskOk(c, m, me.pc.t);
    assert WList(me)[|me.kept|] == me.pc.t;
    MemRankMoves(c, m, r.mem, me.pc.t);
  }

  lemma WorkerGets(c: Config, m: Mem, w: nat, me: Worker, finish: bool)
    requires WorkerProof.WPre(c, m, w, me)
    ensures WorkerGetsOn(c, m, me, WorkerStep(c, m, w, me, finish))
  {
    if me.pc.WTop? || me.pc.WWait? {
      ListGetsOn(c, m, w, me, finish);
    } else if me.pc.WNext? {
      NextGetsOn(c, m, w, me);
    } else if me.pc.WMatch? {
      MatchGetsOn(c, m, w, me, finish);
    } else if InPred(me.pc) {
      PredGetsOn(c, m, w, me, finish);
    } else if me.pc.WAdd? || me.pc.WPanic? {
      SlotGetsOn(c, m, w, me, finish);
    } else if InRun(me.pc) {
      RunGetsOn(c, m, w, me, finish);
    } else {
      EndGetsOn(c, m, w, me, finish);
    }
  }

  /** One worker changes: the sums move as its own flag and rank. */
  lemma WorkerSums(c: Config, s: State, s': State, w: nat)
    requires w < |s.ws| == |s'.ws| && s'.ws == s.ws[w := s'.ws[w]]
    ensures
      Flags(s') + Flag(s.d.flag) + Flag(s.d.pc.DSub? || s.d.pc.DWakeWorker?) + Flag(s.ws[w].flag) ==
      Flags(s) + Flag(s'.d.flag) + Flag(s'.d.pc.DSub? || s'.d.pc.DWakeWorker?) + Flag(s'.ws[w].flag)
    ensures
      Rank(c, s') + DRank(s.d, |c.labels|) + WRank(s.ws[w]) == Rank(c, s) + DRank(s'.d, |c.labels|) + WRank(s'.ws[w])
  {
    var flags := seq(|s.ws|, v requires 0 <= v < |s.ws| => Flag(s.ws[v].flag));
    SumUpdate(flags, w, Flag(s'.ws[w].flag));
    assert seq(|s'.ws|, v requires 0 <= v < |s'.ws| => Flag(s'.ws[v].flag)) == flags[w := Flag(s'.ws[w].flag)];
    var ranks := seq(|s.ws|, v requires 0 <= v < |s.ws| => WRank(s.ws[v]));
    SumUpdate(ranks, w, WRank(s'.ws[w]));
    assert seq(|s'.ws|, v requires 0 <= v < |s'.ws| => WRank(s'.ws[v])) == ranks[w := WRank(s'.ws[w])];
  }

  lemma WorkDescends(c: Config, s: State, w: nat, finish: bool)
    requires Inv(c, s) && w < |s.ws|
    ensures var s' := Apply(c, s, Work(w, finish)); s' == s || Descends(c, s, s')
  {
    var s' := WorkStep(c, s, w, finish);
    ProtocolProof.FuturesAt(c, s, w);
    WorkerGets(c, s.mem, w, s.ws[w], finish);
    WorkerSums(c, s, s', w);
  }

  // ----- the dispatcher -----

  /** What a step of the dispatcher may do that leaves the workers alone. */
  ghost predicate DispatcherGetsOn(c: Config, s: State, s': State)
    requires Shape(c, s)
  {
    && Shape(c, s') && s'.ws == s.ws && !s.d.pc.DSub? && !s.d.pc.DWakeWorker?
    && (|| MemRank(c, s'.mem) < MemRank(c, s.mem)
        || (MemRank(c, s'.mem) == MemRank(c, s.mem) && !s'.d.pc.DSub? && Flag(s'.d.flag) < Flag(s.d.flag))
        || (MemRank(c, s'.mem) == MemRank(c, s.mem) && !s'.d.pc.DSub? && s'.d.flag == s.d.flag
            && !s'.d.pc.DWakeWorker? && DRank(s'.d, |c.labels|) < DRank(s.d, |c.labels|))
        || s' == s)
  }

  lemma GettingOnDescends(c: Config, s: State, s': State)
    requires Shape(c, s) && DispatcherGetsOn(c, s, s') && !s'.d.pc.DWakeWorker?
    ensures s' == s || Descends(c, s, s')
  {
    var flags := Sum(seq(|s.ws|, w requires 0 <= w < |s.ws| => Flag(s.ws[w].flag)));
    assert Flags(s) == Flag(s.d.flag) + flags;
    assert !s'.d.pc.DSub? ==> Flags(s') == Flag(s'.d.flag) + flags;
  }

  lemma ChecksGetOn(c: Config, s: State)
    requires Shape(c, s)
    requires s.d.pc.DPanicCheck? || s.d.pc.DGetPanic? || s.d.pc.DPredCheck? || s.d.pc.DSelfCheck?
    ensures DispatcherGetsOn(c, s, DispatchStep(c, s)) && !DispatchStep(c, s).d.pc.DWakeWorker?
  {
  }

  lemma ChoiceGetsOn(c: Config, s: State)
    requires Shape(c, s) && (s.d.pc.DFind? || s.d.pc.DScan? || s.d.pc.DWait? || s.d.pc.DCrashed?)
    ensures DispatcherGetsOn(c, s, DispatchStep(c, s)) && !DispatchStep(c, s).d.pc.DWakeWorker?
  {
  }

  lemma TopGetsOn(c: Config, s: State)
    requires Inv(c, s) && s.d.pc.DTop?
    ensures DispatcherGetsOn(c, s, DTopStep(c, s)) && !DTopStep(c, s).d.pc.DWakeWorker?
  {
    if s.d.channel != [] {
      ProtocolProof.HeldAt(c, s);
      MoveUsesUp(c, s.mem, s.d.channel[0], Held);
      assert DTopStep(c, s).mem == Move(s.mem, s.d.channel[0], Held);
    }
  }

  lemma MoveUsesUp(c: Config, m: Mem, t: TaskId, to: Place)
    requires MemShape(c, m) && t < |c.tasks| && PlaceRank(to) < PlaceRank(m.hist[t].place)
    ensures MemRank(c, Move(m, t, to)) < MemRank(c, m)
  {
    MemRankMoves(c, m, Move(m, t, to), t);
  }

  lemma NextTaskGetsOn(c: Config, s: State)
    requires Shape(c, s) && s.d.pc.DNext?
    ensures DispatcherGetsOn(c, s, DNextStep(c, s)) && !DNextStep(c, s).d.pc.DWakeWorker?
  {
  }

  lemma TargetGetsOn(c: Config, s: State)
    requires Shape(c, s) && s.d.pc.DTarget?
    ensures
      var s' := DTargetStep(c, s, s.d.pc.t, s.d.pc.target);
      DispatcherGetsOn(c, s, s') && !s'.d.pc.DWakeWorker?
  {
    MemRankMoves(c, s.mem, DTargetStep(c, s, s.d.pc.t, s.d.pc.target).mem, s.d.pc.t);
  }

  lemma ControlDescends(c: Config, s: State)
    requires Inv(c, s) && !(s.d.pc.DSend? || s.d.pc.DSub? || s.d.pc.DWakeWorker? || s.d.pc.DWrite? || s.d.pc.DRetire?)
    ensures var s' := DispatchStep(c, s); s' == s || Descends(c, s, s')
  {
    if s.d.pc.DTop? {
      TopGetsOn(c, s);
    } else if s.d.pc.DNext? {
      NextTaskGetsOn(c, s);
    } else if s.d.pc.DTarget? {
      TargetGetsOn(c, s);
    } else if s.d.pc.DFind? || s.d.pc.DScan? || s.d.pc.DWait? || s.d.pc.DCrashed? {
      ChoiceGetsOn(c, s);
    } else {
      ChecksGetOn(c, s);
    }
    GettingOnDescends(c, s, DispatchStep(c, s));
  }

  lemma HandIsHeld(c: Config, s: State)
    requires Inv(c, s) && DHolds(s.d.pc)
    ensures s.mem.hist[s.d.pc.t].place == Held
  {
    ProtocolProof.HeldAt(c, s);
    assert DList(s.d)[|s.d.kept|] == s.d.pc.t;
  }

  lemma WriteUsesUp(c: Config, m: Mem, t: TaskId, st: TaskState)
    requires MemShape(c, m) && t < |c.tasks| && m.hist[t].stage == Idle
    ensures MemRank(c, WriteState(m, t, st, Firing(0))) < MemRank(c, m)
  {
    MemRankMoves(c, m, WriteState(m, t, st, Firing(0)), t);
  }

  lemma FireUsesUp(c: Config, m: Mem, t: TaskId, k: nat)
    requires MemOk(c, m) && t < |c.tasks| && m.hist[t].stage == Firing(k)
    ensures MemRank(c, Fire(c, m, t, k)) < MemRank(c, m)
  {
    assert TaskOk(c, m, t);
    MemRankMoves(c, m, Fire(c, m, t, k), t);
  }

  lemma CountDescends(c: Config, s: State)
    requires Shape(c, s) && s.d.pc.DSub?
    ensures Descends(c, s, DispatchStep(c, s))
  {
    var w := s.d.pc.w;
    var s' := State(s.mem, s.d.(pc := DWakeWorker(w)), s.ws[w := s.ws[w].(free := FetchSub(s.ws[w].free))]);
    WorkerSums(c, s, s', w);
  }

  lemma WakeDescends(c: Config, s: State)
    requires Shape(c, s) && s.d.pc.DWakeWorker?
    ensures Descends(c, s, DispatchStep(c, s))
  {
    var w := s.d.pc.w;
    var s' := State(s.mem, s.d.(pc := DNext), s.ws[w := s.ws[w].(flag := true)]);
    WorkerSums(c, s, s', w);
  }

  lemma SendDescends(c: Config, s: State)
    requires Inv(c, s) && s.d.pc.DSend?
    ensures Descends(c, s, DispatchStep(c, s))
  {
    HandIsHeld(c, s);
    MoveUsesUp(c, s.mem, s.d.pc.t, Inbox(s.d.pc.w));
    assert DispatchStep(c, s).mem == Move(s.mem, s.d.pc.t, Inbox(s.d.pc.w));
  }

  lemma SettleDescends(c: Config, s: State)
    requires Inv(c, s) && (s.d.pc.DWrite? || s.d.pc.DRetire?)
    ensures Descends(c, s, DispatchStep(c, s))
  {
    if s.d.pc.DWrite? {
      WriteUsesUp(c, s.mem, s.d.pc.t, s.d.pc.st);
    } else {
      FireUsesUp(c, s.mem, s.d.pc.t, s.d.pc.k);
      assert DispatchStep(c, s).mem == Fire(c, s.mem, s.d.pc.t, s.d.pc.k);
    }
  }

  lemma DispatchDescends(c: Config, s: State)
    requires Inv(c, s)
    ensures var s' := Apply(c, s, Dispatch); s' == s || Descends(c, s, s')
  {
    if s.d.pc.DSend? {
      SendDescends(c, s);
    } else if s.d.pc.DWrite? || s.d.pc.DRetire? {
      SettleDescends(c, s);
    } else if s.d.pc.DSub? {
      CountDescends(c, s);
    } else if s.d.pc.DWakeWorker? {
      WakeDescends(c, s);
    } else {
      ControlDescends(c, s);
    }
  }

  // ----- schedules -----

  /** A step of a thread of the program. */
  predicate Internal(step: Step) {
    step.Dispatch? || step.Work?
  }

  ghost predicate AllInternal(run: seq<Step>) {
    forall i :: 0 <= i < |run| ==> Internal(run[i])
  }

  /** Every step of a thread that changes anything uses something up, polls that give Pending included. */
  lemma MoveDescends(c: Config, s: State, step: Step)
    requires Inv(c, s) && Internal(step) && Apply(c, s, step) != s
    ensures Descends(c, s, Apply(c, s, step))
  {
    match step
    case Dispatch => DispatchDescends(c, s);
    case Work(w, finish) => WorkDescends(c, s, w, finish);
  }

  /** The step changes nothing. */
  ghost predicate Unmoved(c: Config, s: State, step: Step)
    requires Shape(c, s)
  {
    Apply(c, s, step) == s
  }

  /** One more step of the run; `s` and `r` are the states before and after. */
  lemma Extends(c: Config, run: seq<Step>, s: State, step: Step) returns (next: seq<Step>, r: State, moved: bool)
    requires ValidConfig(c) && s == Exec(c, run) && Internal(step)
    ensures next == run + [step] && r == Exec(c, next)
    ensures if moved then Descends(c, s, r) else r == s && Unmoved(c, s, step)
  {
    next := run + [step];
    ExecNext(c, run, step);
    r := Exec(c, next);
    ProtocolProof.RunInv(c, run);
    moved := r != s;
    if moved {
      MoveDescends(c, s, step);
    }
  }

  /** No thread can take a step. */
  ghost predicate Stuck(c: Config, s: State)
    requires Shape(c, s)
  {
    && Unmoved(c, s, Dispatch)
    && (forall w: nat :: w < |s.ws| ==> Unmoved(c, s, Work(w, true)))
  }

  /** Whether a worker can take a step does not depend on how its polls end. */
  lemma PollsMove(c: Config, s: State, w: nat, finish: bool)
    requires Shape(c, s) && w < |s.ws| && Unmoved(c, s, Work(w, finish))
    ensures Unmoved(c, s, Work(w, true))
  {
    if s.ws[w].pc.WRun? {
      assert WorkStep(c, s, w, finish).ws[w] == s.ws[w];
    }
  }

  /** The run goes on with `k` steps of a schedule, which has come to step `from`. */
  ghost function Follow(run: seq<Step>, schedule: nat -> Step, from: nat, k: nat): seq<Step>
    decreases k
  {
    if k == 0 then run else Follow(run + [schedule(from)], schedule, from + 1, k - 1)
  }

  lemma {:induction false} FollowLast(run: seq<Step>, schedule: nat -> Step, from: nat, k: nat)
    ensures Follow(run, schedule, from, k + 1) == Follow(run, schedule, from, k) + [schedule(from + k)]
    decreases k
  {
    if k > 0 {
      FollowLast(run + [schedule(from)], schedule, from + 1, k - 1);
    } else {
      assert Follow(run, schedule, from, 1) == Follow(run + [schedule(from)], schedule, from + 1, 0);
    }
  }

  /** If the schedule changes anything within `j` steps, it descends within as many. */
  lemma {:induction false} FirstMove(c: Config, run: seq<Step>, s: State, schedule: nat -> Step, from: nat, j: nat)
    returns (k: nat, next: seq<Step>, r: State)
    requires ValidConfig(c) && s == Exec(c, run) && forall i: nat :: Internal(schedule(i))
    requires Exec(c, Follow(run, schedule, from, j)) != s
    ensures next == Follow(run, schedule, from, k) && r == Exec(c, next) && Descends(c, s, r)
    decreases j
  {
    var moved;
    next, r, moved := Extends(c, run, s, schedule(from));
    if moved {
      k := FollowMore(run, next, schedule, from, 0);
    } else {
      var rest;
      rest, next, r := FirstMove(c, next, s, schedule, from + 1, j - 1);
      k := FollowMore(run, run + [schedule(from)], schedule, from, rest);
    }
  }

  lemma FollowMore(run: seq<Step>, next: seq<Step>, schedule: nat -> Step, from: nat, rest: nat) returns (k: nat)
    requires next == run + [schedule(from)]
    ensures k == rest + 1 && Follow(run, schedule, from, k) == Follow(next, schedule, from + 1, rest)
  {
    k := rest + 1;
  }

  lemma {:induction false} FollowOn(run: seq<Step>, schedule: nat -> Step, from: nat, k: nat, j: nat)
    ensures Follow(run, schedule, from, k + j) == Follow(Follow(run, schedule, from, k), schedule, from + k, j)
    decreases k
  {
    if k > 0 {
      FollowOn(run + [schedule(from)], schedule, from + 1, k - 1, j);
    }
  }

  /** From step `k` of the schedule on the state is `r`. */
  ghost predicate Still(c: Config, run: seq<Step>, schedule: nat -> Step, from: nat, k: nat, r: State)
    requires ValidConfig(c)
  {
    forall j: nat :: j >= k ==> Exec(c, Follow(run, schedule, from, j)) == r
  }

  /** What comes of following a schedule late comes of following it at all. */
  lemma FurtherOn(f: seq<Step> -> State, run: seq<Step>, next: seq<Step>, schedule: nat -> Step, from: nat, k: nat, later: nat,
                  rest: nat, r: State)
    requires next == Follow(run, schedule, from, k) && later == from + k
    requires forall j: nat :: j >= rest ==> f(Follow(next, schedule, later, j)) == r
    ensures forall j: nat :: j >= k + rest ==> f(Follow(run, schedule, from, j)) == r
  {
    forall j: nat | j >= k + rest ensures f(Follow(run, schedule, from, j)) == r {
      FollowBoth(run, next, schedule, from, k, j - k, Follow(next, schedule, later, j - k));
    }
  }

  lemma StillLater(c: Config, run: seq<Step>, schedule: nat -> Step, from: nat, k: nat, rest: nat, r: State)
    requires ValidConfig(c) && Still(c, Follow(run, schedule, from, k), schedule, from + k, rest, r)
    ensures Still(c, run, schedule, from, k + rest, r)
  {
    FurtherOn(x => Exec(c, x), run, Follow(run, schedule, from, k), schedule, from, k, from + k, rest, r);
  }

  lemma FollowBoth(run: seq<Step>, next: seq<Step>, schedule: nat -> Step, from: nat, k: nat, j: nat, last: seq<Step>)
    requires next == Follow(run, schedule, from, k) && last == Follow(next, schedule, from + k, j)
    ensures last == Follow(run, schedule, from, k + j)
  {
    FollowOn(run, schedule, from, k, j);
  }

  /** No schedule of the threads, fair or not, changes anything for ever: from some step on it changes nothing. */
  lemma {:induction false} NoEndlessRun(c: Config, run: seq<Step>, s: State, schedule: nat -> Step, from: nat)
    returns (k: nat, r: State)
    requires ValidConfig(c) && s == Exec(c, run) && forall i: nat :: Internal(schedule(i))
    ensures Still(c, run, schedule, from, k, r)
    decreases MemRank(c, s.mem), Flags(s), Rank(c, s)
  {
    if Still(c, run, schedule, from, 0, s) {
      k, r := 0, s;
    } else {
      var j: nat :| Exec(c, Follow(run, schedule, from, j)) != s;
      var first, next, s1 := FirstMove(c, run, s, schedule, from, j);
      var rest;
      rest, r := NoEndlessRun(c, next, s1, schedule, from + first);
      StillLater(c, run, schedule, from, first, rest, r);
      k := first + rest;
    }
  }

  ghost predicate DispatchesAfter(schedule: nat -> Step, i: nat) {
    exists j: nat :: j >= i && schedule(j).Dispatch?
  }

  ghost predicate WorksAfter(schedule: nat -> Step, w: nat, i: nat) {
    exists j: nat :: j >= i && schedule(j).Work? && schedule(j).w == w
  }

  /** Every thread gets its turn again and again. */
  ghost predicate Turns(c: Config, schedule: nat -> Step) {
    && (forall i: nat :: DispatchesAfter(schedule, i))
    && (forall i: nat, w: nat :: w < |c.labels| ==> WorksAfter(schedule, w, i))
  }

  /** A fair schedule of the threads alone. */
  ghost predicate Fair(c: Config, schedule: nat -> Step) {
    (forall i: nat :: Internal(schedule(i))) && Turns(c, schedule)
  }

  lemma StillIsUnmoved(c: Config, run: seq<Step>, schedule: nat -> Step, from: nat, k: nat, r: State, j: nat)
    requires ValidConfig(c) && Shape(c, r) && Still(c, run, schedule, from, k, r) && j >= from + k
    ensures Unmoved(c, r, schedule(j))
  {
    var here, next := StillTwice(c, run, schedule, from, k, r, j - from, schedule(j));
    NextIsUnmoved(c, here, next, r, schedule(j));
  }

  lemma AlikeTwice(f: seq<Step> -> State, run: seq<Step>, schedule: nat -> Step, from: nat, k: nat, r: State, i: nat, step: Step)
    returns (here: seq<Step>, next: seq<Step>)
    requires i >= k && step == schedule(from + i) && forall j: nat :: j >= k ==> f(Follow(run, schedule, from, j)) == r
    ensures next == here + [step] && f(here) == r && f(next) == r
  {
    here, next := Follow(run, schedule, from, i), Follow(run, schedule, from, i + 1);
    NextFollows(run, schedule, from, i, here, next);
  }

  lemma StillTwice(c: Config, run: seq<Step>, schedule: nat -> Step, from: nat, k: nat, r: State, i: nat, step: Step)
    returns (here: seq<Step>, next: seq<Step>)
    requires ValidConfig(c) && Still(c, run, schedule, from, k, r) && i >= k && step == schedule(from + i)
    ensures next == here + [step] && Exec(c, here) == r && Exec(c, next) == r
  {
    here, next := AlikeTwice(x => Exec(c, x), run, schedule, from, k, r, i, step);
  }

  lemma NextFollows(run: seq<Step>, schedule: nat -> Step, from: nat, i: nat, here: seq<Step>, next: seq<Step>)
    requires here == Follow(run, schedule, from, i) && next == Follow(run, schedule, from, i + 1)
    ensures next == here + [schedule(from + i)]
  {
    FollowLast(run, schedule, from, i);
  }

  lemma NextIsUnmoved(c: Config, run: seq<Step>, next: seq<Step>, r: State, step: Step)
    requires ValidConfig(c) && next == run + [step] && Exec(c, run) == Exec(c, next) == r
    ensures Shape(c, r) && Unmoved(c, r, step)
  {
    ExecNext(c, run, step);
  }

  /** Every fair schedule brings the threads to a standstill, from every reachable state, and they stay there. */
  lemma ComesToRest(c: Config, run: seq<Step>, schedule: nat -> Step, from: nat) returns (k: nat, r: State)
    requires ValidConfig(c) && Fair(c, schedule)
    ensures Still(c, run, schedule, from, k, r) && Shape(c, r) && Stuck(c, r)
  {
    k, r := NoEndlessRun(c, run, Exec(c, run), schedule, from);
    assert r == Exec(c, Follow(run, schedule, from, k));
    assert DispatchesAfter(schedule, from + k);
    var d: nat :| d >= from + k && schedule(d).Dispatch?;
    StillIsUnmoved(c, run, schedule, from, k, r, d);
    forall w: nat | w < |r.ws| ensures Unmoved(c, r, Work(w, true)) {
      assert WorksAfter(schedule, w, from + k);
      var j: nat :| j >= from + k && schedule(j).Work? && schedule(j).w == w;
      StillIsUnmoved(c, run, schedule, from, k, r, j);
      PollsMove(c, r, w, schedule(j).finish);
    }
  }
}
