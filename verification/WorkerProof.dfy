/**
 * Every step of a worker keeps the invariant, and leaves to everybody else what they rely on. Each lemma is about one
 * group of program points.
 */
module WorkerProof {
  import opened Tasks
  import opened Memory
  import opened MemoryProof
  import opened Protocol
  import opened ProtocolInvariant

  ghost predicate WPre(c: Config, m: Mem, w: nat, me: Worker) {
    && MemOk(c, m) && WShape(c, me) && WOk(c, m, me)
    && NoDup(me.inbox) && NoDup(WList(me))
    && (forall i :: 0 <= i < |me.inbox| ==> m.hist[me.inbox[i]].place == Inbox(w))
    && (forall i :: 0 <= i < |WList(me)| ==> WList(me)[i] < |c.tasks| && m.hist[WList(me)[i]].place == Futures(w))
  }

  /** The tasks of others are as they were. */
  ghost predicate Spares(c: Config, m: Mem, m': Mem, w: nat) {
    && MemShape(c, m) && MemShape(c, m')
    && (forall x: nat :: x < |c.tasks| && m.hist[x].place != Inbox(w) && m.hist[x].place != Futures(w) ==> Same(c, m, m', x))
  }

  ghost predicate WPost(c: Config, m: Mem, w: nat, r: Worked) {
    && MemOk(c, r.mem) && Rely(c, m, r.mem) && Spares(c, m, r.mem, w) && NoNews(c, m, r.mem)
    && WShape(c, r.me) && WOk(c, r.mem, r.me)
  }

  /** A step that works on the polled task and moves nothing but the program counter. */
  lemma HandStep(c: Config, m: Mem, w: nat, me: Worker, r: Worked)
    requires WPre(c, m, w, me) && WHolds(me.pc)
    requires Sound(c, m, r.mem, me.pc.t)
    requires WShape(c, r.me) && r.me.kept == me.kept && r.me.todo == me.todo && WKnows(c, r.mem, r.me)
    ensures WPost(c, m, w, r)
  {
    var l := WList(me);
    TouchesSame(c, m, r.mem, me.pc.t);
    assert l[|me.kept|] == me.pc.t;
    forall i | 0 <= i < |me.kept| ensures r.mem.hist[me.kept[i]] == m.hist[me.kept[i]] {
      assert l[i] == me.kept[i];
    }
    forall i | 0 <= i < |me.todo| ensures r.mem.hist[me.todo[i]] == m.hist[me.todo[i]] {
      assert l[|me.kept| + 1 + i] == me.todo[i];
    }
  }

  lemma TopStep(c: Config, m: Mem, w: nat, me: Worker)
    requires WPre(c, m, w, me) && me.pc.WTop?
    ensures WPost(c, m, w, WTopStep(c, m, w, me))
  {
    if me.inbox != [] {
      var t := me.inbox[0];
      var r := WTopStep(c, m, w, me);
      assert TaskOk(c, m, t);
      MoveSound(c, m, t, Futures(w));
      TouchesSame(c, m, r.mem, t);
      assert WList(me) == me.todo;
    }
  }

  /** A poll begins with the first future to do; the others are not touched. */
  lemma BeginStep(c: Config, m: Mem, w: nat, me: Worker, r: Worked)
    requires WPre(c, m, w, me) && me.pc.WNext? && me.todo != []
    requires Sound(c, m, r.mem, me.todo[0])
    requires WShape(c, r.me) && r.me.kept == me.kept && r.me.todo == me.todo[1..] && WKnows(c, r.mem, r.me)
    ensures WPost(c, m, w, r)
  {
    var l := WList(me);
    TouchesSame(c, m, r.mem, me.todo[0]);
    assert l[|me.kept|] == me.todo[0];
    forall i | 0 <= i < |me.kept| ensures r.mem.hist[me.kept[i]] == m.hist[me.kept[i]] {
      assert l[i] == me.kept[i];
    }
    forall i | 0 <= i < |r.me.todo| ensures r.mem.hist[r.me.todo[i]] == m.hist[me.todo[i + 1]] {
      assert l[|me.kept| + 1 + i] == me.todo[i + 1];
    }
  }

  lemma NextStep(c: Config, m: Mem, w: nat, me: Worker)
    requires WPre(c, m, w, me) && me.pc.WNext?
    ensures WPost(c, m, w, WNextStep(c, m, me))
  {
    if me.todo != [] {
      var t := me.todo[0];
      assert WList(me)[|me.kept|] == t;
      assert TaskOk(c, m, t);
      if !m.hist[t].stage.Called? {
        if c.tasks[t].body.Root? {
          CallSound(c, m, t, None, c.tasks[t].body.out);
        } else {
          BeginWaitSound(c, m, t);
        }
        BeginStep(c, m, w, me, WNextStep(c, m, me));
      }
    }
  }

  lemma PredStep(c: Config, m: Mem, w: nat, me: Worker, finish: bool)
    requires WPre(c, m, w, me) && (me.pc.WPredWait? || me.pc.WPredRead? || me.pc.WPredTake?)
    ensures WPost(c, m, w, WorkerStep(c, m, w, me, finish))
  {
    var t := me.pc.t;
    var p := c.tasks[t].body.pred;
    var r := WorkerStep(c, m, w, me, finish);
    UsableByOwner(c, m, p, t);
    assert TaskOk(c, m, p);
    if me.pc.WPredWait? {
      if m.cells[p].signal {
        WaitSound(c, m, p, false);
        UseTouches(c, m, r.mem, p, t);
        HandStep(c, m, w, me, r);
      }
    } else if me.pc.WPredRead? {
      ReadSound(c, m, p);
      UseTouches(c, m, r.mem, p, t);
      HandStep(c, m, w, me, r);
    } else {
      TakeSound(c, m, p);
      UseTouches(c, m, r.mem, p, t);
      HandStep(c, m, w, me, r);
    }
  }

  lemma MatchStep(c: Config, m: Mem, w: nat, me: Worker, finish: bool)
    requires WPre(c, m, w, me) && me.pc.WMatch?
    ensures WPost(c, m, w, WorkerStep(c, m, w, me, finish))
  {
    var t := me.pc.t;
    var p := c.tasks[t].body.pred;
    var r := WorkerStep(c, m, w, me, finish);
    assert TaskOk(c, m, p) && TaskOk(c, m, t);
    assert WList(me)[|me.kept|] == t;
    if m.cells[p].state == Ready {
      CallSound(c, m, t, Some(me.pc.res.value), c.tasks[t].body.f(me.pc.res.value));
      HandStep(c, m, w, me, r);
    }
  }

  lemma RunStep(c: Config, m: Mem, w: nat, me: Worker, finish: bool)
    requires WPre(c, m, w, me) && InRun(me.pc)
    ensures WPost(c, m, w, WorkerStep(c, m, w, me, finish))
  {
    var t := me.pc.t;
    var r := WorkerStep(c, m, w, me, finish);
    assert WList(me)[|me.kept|] == t;
    match me.pc {
      case WRun(_, _) =>
      case WFill(_, v) => FillSound(c, m, t, v); HandStep(c, m, w, me, r);
      case WWrite(_, st) => SettleSound(c, m, t, st); HandStep(c, m, w, me, r);
      case WAdd(_) => AddSlotSound(c, m, t); HandStep(c, m, w, me, r);
      case WPanic(_) => PanicSound(c, m, t); HandStep(c, m, w, me, r);
    }
  }

  lemma EndStep(c: Config, m: Mem, w: nat, me: Worker, finish: bool)
    requires WPre(c, m, w, me) && (me.pc.WPending? || me.pc.WRetire? || me.pc.WWait?)
    ensures WPost(c, m, w, WorkerStep(c, m, w, me, finish))
  {
    var r := WorkerStep(c, m, w, me, finish);
    if me.pc.WPending? {
      var t := me.pc.t;
      assert WList(me)[|me.kept|] == t;
      if m.cells[t].state == Cancelled {
        DropSound(c, m, t);
        HandStep(c, m, w, me, r);
      }
    } else if me.pc.WRetire? {
      FireSound(c, m, me.pc.t, me.pc.k);
      HandStep(c, m, w, me, r);
    }
  }

  lemma WorkerSound(c: Config, m: Mem, w: nat, me: Worker, finish: bool)
    requires WPre(c, m, w, me)
    ensures WPost(c, m, w, WorkerStep(c, m, w, me, finish))
  {
    match me.pc
    case WTop => TopStep(c, m, w, me);
    case WNext => NextStep(c, m, w, me);
    case WPredWait(_) => PredStep(c, m, w, me, finish);
    case WPredRead(_) => PredStep(c, m, w, me, finish);
    case WPredTake(_) => PredStep(c, m, w, me, finish);
    case WMatch(_, _) => MatchStep(c, m, w, me, finish);
    case WRun(_, _) => RunStep(c, m, w, me, finish);
    case WFill(_, _) => RunStep(c, m, w, me, finish);
    case WWrite(_, _) => RunStep(c, m, w, me, finish);
    case WAdd(_) => RunStep(c, m, w, me, finish);
    case WPanic(_) => RunStep(c, m, w, me, finish);
    case WPending(_) => EndStep(c, m, w, me, finish);
    case WRetire(_, _) => EndStep(c, m, w, me, finish);
    case WWait => EndStep(c, m, w, me, finish);
  }
}
