/**
 * Every step of the dispatcher keeps the invariant, and leaves to everybody else what they rely on. Each lemma is about
 * one group of program points.
 */
module DispatcherProof {
  import opened Tasks
  import opened Memory
  import opened MemoryProof
  import opened Protocol
  import opened ProtocolInvariant

  ghost predicate DPre(c: Config, s: State) {
    && Shape(c, s) && MemOk(c, s.mem) && DOk(c, s.mem, s.d)
    && NoDup(s.d.channel) && NoDup(DList(s.d))
    && (forall i :: 0 <= i < |s.d.channel| ==> s.mem.hist[s.d.channel[i]].place == Channel)
    && (forall i :: 0 <= i < |DList(s.d)| ==> DList(s.d)[i] < |c.tasks| && s.mem.hist[DList(s.d)[i]].place == Held)
  }

  ghost predicate SameControl(s: State, s': State) {
    && |s'.ws| == |s.ws|
    && (forall w :: 0 <= w < |s.ws| ==>
          s'.ws[w].kept == s.ws[w].kept && s'.ws[w].todo == s.ws[w].todo && s'.ws[w].pc == s.ws[w].pc)
  }

  ghost predicate DPost(c: Config, s: State, s': State) {
    && Shape(c, s) && Shape(c, s') && MemOk(c, s'.mem) && Rely(c, s.mem, s'.mem) && NoNews(c, s.mem, s'.mem)
    && DOk(c, s'.mem, s'.d)
    && SameControl(s, s')
    && (forall x: nat :: x < |c.tasks| && s.mem.hist[x].place != Channel && s.mem.hist[x].place != Held
                         ==> Same(c, s.mem, s'.mem, x))
  }

  /** A step that works on the task in hand, and then holds it, keeps it or lets it go. */
  lemma HandStep(c: Config, s: State, s': State)
    requires DPre(c, s) && DHolds(s.d.pc) && Shape(c, s') && SameControl(s, s')
    requires Sound(c, s.mem, s'.mem, s.d.pc.t)
    requires s'.d.kept == s.d.kept || (s'.d.kept == s.d.kept + [s.d.pc.t] && s'.mem.hist[s.d.pc.t].stage == Idle)
    requires s'.d.todo == s.d.todo && DKnows(c, s'.mem, s'.d)
    ensures DPost(c, s, s')
  {
    var l := DList(s.d);
    TouchesSame(c, s.mem, s'.mem, s.d.pc.t);
    assert l[|s.d.kept|] == s.d.pc.t;
    forall i | 0 <= i < |s.d.kept| ensures s'.mem.hist[s.d.kept[i]] == s.mem.hist[s.d.kept[i]] {
      assert l[i] == s.d.kept[i];
    }
    forall i | 0 <= i < |s.d.todo| ensures s'.mem.hist[s.d.todo[i]] == s.mem.hist[s.d.todo[i]] {
      assert l[|s.d.kept| + 1 + i] == s.d.todo[i];
    }
  }

  lemma ReceiveStep(c: Config, s: State)
    requires DPre(c, s) && s.d.pc.DTop? && s.d.channel != []
    ensures DPost(c, s, DTopStep(c, s))
  {
    var t := s.d.channel[0];
    var m' := Move(s.mem, t, Held);
    var s' := DTopStep(c, s);
    assert TaskOk(c, s.mem, t);
    MoveSound(c, s.mem, t, Held);
    TouchesSame(c, s.mem, m', t);
    assert DList(s.d) == s.d.todo;
    assert DOk(c, m', s'.d);
    assert SameControl(s, s');
  }

  lemma StartStep(c: Config, s: State)
    requires DPre(c, s) && s.d.pc.DTop? && s.d.channel == []
    ensures DPost(c, s, DTopStep(c, s))
  {
  }

  lemma ExamineStep(c: Config, s: State)
    requires DPre(c, s) && s.d.pc.DNext?
    ensures DPost(c, s, DNextStep(c, s))
  {
    if s.d.todo != [] {
      assert DList(s.d)[|s.d.kept|] == s.d.todo[0];
    }
  }

  lemma CheckStep(c: Config, s: State)
    requires DPre(c, s)
    requires s.d.pc.DPanicCheck? || s.d.pc.DGetPanic? || s.d.pc.DPredCheck? || s.d.pc.DSelfCheck?
    ensures DPost(c, s, DispatchStep(c, s))
  {
    var t := s.d.pc.t;
    assert TaskOk(c, s.mem, t);
    if HasPred(c.tasks[t]) {
      assert TaskOk(c, s.mem, c.tasks[t].body.pred);
    }
  }

  lemma VerdictStep(c: Config, s: State)
    requires DPre(c, s) && (s.d.pc.DWrite? || s.d.pc.DRetire?)
    ensures DPost(c, s, DispatchStep(c, s))
  {
    var t := s.d.pc.t;
    assert DList(s.d)[|s.d.kept|] == t;
    if s.d.pc.DWrite? {
      VerdictSound(c, s.mem, t, s.d.pc.st);
    } else {
      FireSound(c, s.mem, t, s.d.pc.k);
    }
    HandStep(c, s, DispatchStep(c, s));
  }

  lemma ChooseStep(c: Config, s: State)
    requires DPre(c, s) && (s.d.pc.DFind? || s.d.pc.DScan?)
    ensures DPost(c, s, DispatchStep(c, s))
  {
    var s' := DispatchStep(c, s);
    assert s'.mem == s.mem && s'.ws == s.ws;
    assert DKnows(c, s'.mem, s'.d);
  }

  lemma PlaceStep(c: Config, s: State)
    requires DPre(c, s) && s.d.pc.DTarget?
    ensures DPost(c, s, DTargetStep(c, s, s.d.pc.t, s.d.pc.target))
  {
    var t := s.d.pc.t;
    assert DList(s.d)[|s.d.kept|] == t;
    if s.d.pc.target.None? {
      RelaxSound(c, s.mem, t);
      HandStep(c, s, DTargetStep(c, s, t, None));
    }
  }

  lemma SendStep(c: Config, s: State)
    requires DPre(c, s) && s.d.pc.DSend?
    ensures DPost(c, s, DispatchStep(c, s))
  {
    assert DList(s.d)[|s.d.kept|] == s.d.pc.t;
    MoveSound(c, s.mem, s.d.pc.t, Inbox(s.d.pc.w));
    HandStep(c, s, DispatchStep(c, s));
  }

  lemma DispatcherSound(c: Config, s: State)
    requires DPre(c, s)
    ensures DPost(c, s, DispatchStep(c, s))
  {
    match s.d.pc
    case DTop => if s.d.channel == [] { StartStep(c, s); } else { ReceiveStep(c, s); }
    case DNext => ExamineStep(c, s);
    case DPanicCheck(_) => CheckStep(c, s);
    case DGetPanic(_) => CheckStep(c, s);
    case DPredCheck(_) => CheckStep(c, s);
    case DSelfCheck(_) => CheckStep(c, s);
    case DWrite(_, _) => VerdictStep(c, s);
    case DRetire(_, _) => VerdictStep(c, s);
    case DFind(_) => ChooseStep(c, s);
    case DScan(_, _, _, _) => ChooseStep(c, s);
    case DTarget(_, _) => PlaceStep(c, s);
    case DSend(_, _) => SendStep(c, s);
    case DSub(_) =>
    case DWakeWorker(_) =>
    case DWait =>
    case DCrashed(_) =>
  }
}
