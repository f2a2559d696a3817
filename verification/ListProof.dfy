/**
 * No step loses a task, doubles it, or has it in two places: either it moves one task from one list of the program to
 * another, or all lists stay as they are.
 */
module ListProof {
  import opened Tasks
  import opened Memory
  import opened Protocol
  import opened ProtocolInvariant

  lemma Unmoved(c: Config, s: State, s': State)
    requires Shape(c, s) && Shape(c, s') && ListsOk(c, s)
    requires forall t: nat :: t < |c.tasks| ==> s'.mem.hist[t].place == s.mem.hist[t].place
    requires forall p: Place :: Contents(s', p) == Contents(s, p)
    ensures ListsOk(c, s')
  {
    forall p: Place | IsPlace(c, p) && p != Outside ensures Exact(c, s', p) {
      assert Exact(c, s, p);
      assert Contents(s', p) == Contents(s, p);
    }
  }

  /** `t` goes from the list of one place, where it stood between `a` and `b`, to the end of another. */
  lemma Moved(c: Config, s: State, s': State, t: TaskId, from: Place, to: Place, a: seq<TaskId>, b: seq<TaskId>)
    requires Shape(c, s) && Shape(c, s') && ListsOk(c, s)
    requires t < |c.tasks| && s.mem.hist[t].place == from && from != to && IsPlace(c, to) && to != Outside
    requires s'.mem.hist[t].place == to
    requires forall x: nat :: x < |c.tasks| && x != t ==> s'.mem.hist[x].place == s.mem.hist[x].place
    requires Contents(s', to) == Contents(s, to) + [t]
    requires from != Outside ==> Contents(s, from) == a + [t] + b && Contents(s', from) == a + b
    requires forall p: Place :: p != from && p != to ==> Contents(s', p) == Contents(s, p)
    ensures ListsOk(c, s')
  {
    forall p: Place | IsPlace(c, p) && p != Outside ensures Exact(c, s', p) {
      assert Exact(c, s, p);
      if p == to {
        NoDupPush(Contents(s, p), t);
      } else if p == from {
        NoDupDrop(a, t, b);
      } else {
        assert Contents(s', p) == Contents(s, p);
      }
    }
  }

  lemma WorkReceives(c: Config, s: State, w: nat, finish: bool)
    requires Shape(c, s) && ListsOk(c, s) && w < |s.ws| && s.ws[w].pc.WTop? && s.ws[w].inbox != []
    ensures ListsOk(c, WorkStep(c, s, w, finish))
  {
    var me := s.ws[w];
    var t := me.inbox[0];
    var s' := WorkStep(c, s, w, finish);
    assert Exact(c, s, Inbox(w)) && t in Contents(s, Inbox(w));
    assert me.inbox == [] + [t] + me.inbox[1..];
    assert WList(s'.ws[w]) == WList(me) + [t];
    Moved(c, s, s', t, Inbox(w), Futures(w), [], me.inbox[1..]);
  }

  lemma WorkRetires(c: Config, s: State, w: nat, finish: bool)
    requires Shape(c, s) && ListsOk(c, s) && w < |s.ws|
    requires s.ws[w].pc.WRetire? && s.ws[w].pc.k > |c.tasks[s.ws[w].pc.t].semaphores|
    ensures ListsOk(c, WorkStep(c, s, w, finish))
  {
    var me := s.ws[w];
    var t := me.pc.t;
    var s' := WorkStep(c, s, w, finish);
    assert WList(me)[|me.kept|] == t;
    assert Exact(c, s, Futures(w)) && t in Contents(s, Futures(w));
    assert WList(s'.ws[w]) == me.kept + me.todo;
    Moved(c, s, s', t, Futures(w), Retired, me.kept, me.todo);
  }

  /** The step moves a task at most from one part of the worker's own list to the next. */
  ghost predicate Stays(c: Config, m: Mem, me: Worker, r: Worked)
    requires MemShape(c, m)
  {
    && MemShape(c, r.mem)
    && WList(r.me) == WList(me) && r.me.inbox == me.inbox && r.mem.retired == m.retired
    && (forall t: nat :: t < |c.tasks| ==> r.mem.hist[t].place == m.hist[t].place)
  }

  lemma HandOver(kept: seq<TaskId>, todo: seq<TaskId>)
    requires todo != []
    ensures kept + [] + todo == kept + [todo[0]] + todo[1..]
  {
  }

  lemma NextStays(c: Config, m: Mem, me: Worker)
    requires MemShape(c, m) && WShape(c, me) && me.pc.WNext?
    ensures Stays(c, m, me, WNextStep(c, m, me))
  {
    var me' := WNextStep(c, m, me).me;
    if me.todo != [] {
      HandOver(me.kept, me.todo);
      assert WList(me') == me.kept + [me.todo[0]] + me.todo[1..];
    } else {
      assert WList(me') == WList(me) == me.kept;
    }
  }

  lemma PredStays(c: Config, m: Mem, w: nat, me: Worker, finish: bool)
    requires MemShape(c, m) && WShape(c, me)
    requires InPred(me.pc)
    ensures Stays(c, m, me, WorkerStep(c, m, w, me, finish))
  {
  }

  lemma RunStays(c: Config, m: Mem, w: nat, me: Worker, finish: bool)
    requires MemShape(c, m) && WShape(c, me)
    requires InRun(me.pc)
    ensures Stays(c, m, me, WorkerStep(c, m, w, me, finish))
  {
  }

  lemma EndStays(c: Config, m: Mem, w: nat, me: Worker, finish: bool)
    requires MemShape(c, m) && WShape(c, me)
    requires me.pc.WPending? || me.pc.WWait? || (me.pc.WRetire? && me.pc.k <= |c.tasks[me.pc.t].semaphores|)
    ensures Stays(c, m, me, WorkerStep(c, m, w, me, finish))
  {
    assert WList(WorkerStep(c, m, w, me, finish).me) == WList(me);
  }

  lemma WorkStays(c: Config, m: Mem, w: nat, me: Worker, finish: bool)
    requires MemShape(c, m) && WShape(c, me)
    requires me.pc.WTop? ==> me.inbox == []
    requires me.pc.WRetire? ==> me.pc.k <= |c.tasks[me.pc.t].semaphores|
    ensures Stays(c, m, me, WorkerStep(c, m, w, me, finish))
  {
    if me.pc.WTop? {
    } else if me.pc.WNext? {
      NextStays(c, m, me);
    } else if InPred(me.pc) {
      PredStays(c, m, w, me, finish);
    } else if me.pc.WPending? || me.pc.WWait? || me.pc.WRetire? {
      EndStays(c, m, w, me, finish);
    } else {
      RunStays(c, m, w, me, finish);
    }
  }

  lemma WorkLists(c: Config, s: State, w: nat, finish: bool)
    requires Shape(c, s) && ListsOk(c, s) && w < |s.ws|
    ensures ListsOk(c, WorkStep(c, s, w, finish))
  {
    var me := s.ws[w];
    if me.pc.WTop? && me.inbox != [] {
      WorkReceives(c, s, w, finish);
    } else if me.pc.WRetire? && me.pc.k > |c.tasks[me.pc.t].semaphores| {
      WorkRetires(c, s, w, finish);
    } else {
      WorkStays(c, s.mem, w, me, finish);
      Unmoved(c, s, WorkStep(c, s, w, finish));
    }
  }

  lemma DispatchReceives(c: Config, s: State)
    requires Shape(c, s) && ListsOk(c, s) && s.d.pc.DTop? && s.d.channel != []
    ensures ListsOk(c, DTopStep(c, s))
  {
    var d := s.d;
    var t := d.channel[0];
    var s' := DTopStep(c, s);
    assert Exact(c, s, Channel) && t in Contents(s, Channel);
    assert d.channel == [] + [t] + d.channel[1..];
    assert DList(s'.d) == DList(d) + [t];
    Moved(c, s, s', t, Channel, Held, [], d.channel[1..]);
  }

  lemma DispatchLetsGo(c: Config, s: State)
    requires Shape(c, s) && ListsOk(c, s)
    requires s.d.pc.DSend? || (s.d.pc.DRetire? && s.d.pc.k > |c.tasks[s.d.pc.t].semaphores|)
    ensures ListsOk(c, DispatchStep(c, s))
  {
    var d := s.d;
    var t := d.pc.t;
    var s' := DispatchStep(c, s);
    assert DList(d)[|d.kept|] == t;
    assert Exact(c, s, Held) && t in Contents(s, Held);
    assert DList(s'.d) == d.kept + d.todo;
    Moved(c, s, s', t, Held, if d.pc.DSend? then Inbox(d.pc.w) else Retired, d.kept, d.todo);
  }

  ghost predicate DispatchStays(c: Config, s: State, s': State)
    requires MemShape(c, s.mem)
  {
    && MemShape(c, s'.mem)
    && DList(s'.d) == DList(s.d) && s'.d.channel == s.d.channel && s'.mem.retired == s.mem.retired
    && (forall t: nat :: t < |c.tasks| ==> s'.mem.hist[t].place == s.mem.hist[t].place)
    && |s'.ws| == |s.ws|
    && (forall w :: 0 <= w < |s.ws| ==> s'.ws[w].inbox == s.ws[w].inbox && WList(s'.ws[w]) == WList(s.ws[w]))
  }

  lemma ListStays(c: Config, s: State)
    requires Shape(c, s)
    requires s.d.pc.DNext? || s.d.pc.DWait? || (s.d.pc.DTop? && s.d.channel == [])
    ensures DispatchStays(c, s, DispatchStep(c, s))
  {
    assert DList(DispatchStep(c, s).d) == DList(s.d);
    assert DispatchStep(c, s).mem == s.mem && DispatchStep(c, s).ws == s.ws;
  }

  lemma TargetStays(c: Config, s: State)
    requires Shape(c, s) && s.d.pc.DTarget?
    ensures DispatchStays(c, s, DTargetStep(c, s, s.d.pc.t, s.d.pc.target))
  {
    assert DList(DTargetStep(c, s, s.d.pc.t, s.d.pc.target).d) == DList(s.d);
  }

  lemma VerdictStays(c: Config, s: State)
    requires Shape(c, s)
    requires s.d.pc.DWrite? || (s.d.pc.DRetire? && s.d.pc.k <= |c.tasks[s.d.pc.t].semaphores|)
    ensures DispatchStays(c, s, DispatchStep(c, s))
  {
  }

  lemma HandStays(c: Config, s: State)
    requires Shape(c, s)
    requires !(s.d.pc.DNext? || s.d.pc.DTarget? || s.d.pc.DWait? || s.d.pc.DTop? || s.d.pc.DSend?)
    requires !(s.d.pc.DWrite? || s.d.pc.DRetire? || s.d.pc.DSub? || s.d.pc.DWakeWorker?)
    ensures DispatchStays(c, s, DispatchStep(c, s))
  {
    assert DispatchStep(c, s).mem == s.mem && DispatchStep(c, s).ws == s.ws;
  }

  lemma SentStays(c: Config, s: State)
    requires Shape(c, s) && (s.d.pc.DSub? || s.d.pc.DWakeWorker?)
    ensures DispatchStays(c, s, DispatchStep(c, s))
  {
  }

  lemma ElseStays(c: Config, s: State)
    requires Shape(c, s) && !(s.d.pc.DTop? && s.d.channel != []) && !s.d.pc.DSend?
    requires !(s.d.pc.DRetire? && s.d.pc.k > |c.tasks[s.d.pc.t].semaphores|)
    ensures DispatchStays(c, s, DispatchStep(c, s))
  {
    var d := s.d;
    if d.pc.DNext? || d.pc.DWait? || d.pc.DTop? {
      ListStays(c, s);
    } else if d.pc.DTarget? {
      TargetStays(c, s);
    } else if d.pc.DWrite? || d.pc.DRetire? {
      VerdictStays(c, s);
    } else if d.pc.DSub? || d.pc.DWakeWorker? {
      SentStays(c, s);
    } else {
      HandStays(c, s);
    }
  }

  lemma DispatchLists(c: Config, s: State)
    requires Shape(c, s) && ListsOk(c, s)
    ensures ListsOk(c, DispatchStep(c, s))
  {
    var d := s.d;
    if d.pc.DTop? && d.channel != [] {
      DispatchReceives(c, s);
    } else if d.pc.DSend? || (d.pc.DRetire? && d.pc.k > |c.tasks[d.pc.t].semaphores|) {
      DispatchLetsGo(c, s);
    } else {
      ElseStays(c, s);
      Unmoved(c, s, DispatchStep(c, s));
    }
  }

  lemma OutsideLists(c: Config, s: State, step: Step)
    requires Shape(c, s) && ListsOk(c, s) && !step.Dispatch? && !step.Work?
    ensures ListsOk(c, OutsideStep(c, s, step))
  {
    var s' := OutsideStep(c, s, step);
    if step.SubmitSend? && step.t < |c.tasks| && s.mem.hist[step.t].place == Outside {
      Moved(c, s, s', step.t, Outside, Channel, [], []);
    } else {
      Unmoved(c, s, s');
    }
  }
}
