/** First come, first served: the lists of the program keep the order in which tasks came to them. */
module Order {
  import opened Tasks
  import opened Memory
  import opened Protocol
  import opened ProtocolInvariant
  import ListProof
  import Results
  import ProtocolProof
  import WorkerProof

  /** Where tasks stand in line: with the dispatcher, or with one of the workers. */
  datatype Home = Queue | Thread(w: nat)

  ghost function Own(me: Worker): seq<TaskId> {
    WList(me) + me.inbox
  }

  /** Who stands in line, those in front first: the list of the thread, and what is in its channel. */
  ghost function Line(s: State, home: Home): seq<TaskId> {
    match home
    case Queue => DList(s.d) + s.d.channel
    case Thread(w) => if w < |s.ws| then Own(s.ws[w]) else []
  }

  ghost predicate At(place: Place, home: Home) {
    match home
    case Queue => place == Channel || place == Held
    case Thread(w) => place == Inbox(w) || place == Futures(w)
  }

  lemma LineHasAll(c: Config, s: State, home: Home, t: TaskId)
    requires Inv(c, s) && (home.Thread? ==> home.w < |s.ws|)
    ensures t in Line(s, home) <==> t < |c.tasks| && At(s.mem.hist[t].place, home)
  {
    match home
    case Queue => assert Exact(c, s, Channel) && Exact(c, s, Held);
    case Thread(w) => assert Exact(c, s, Inbox(w)) && Exact(c, s, Futures(w));
  }

  // ----- what a step does to a line -----

  /** One task leaves the line, wherever it stands, or one comes to its end, or nothing happens to it. */
  ghost predicate Moves(line: seq<TaskId>, next: seq<TaskId>) {
    || next == line
    || (exists k :: 0 <= k < |line| && next == line[..k] + line[k + 1..])
    || (exists t :: t !in line && next == line + [t])
  }

  lemma Leaves(a: seq<TaskId>, t: TaskId, b: seq<TaskId>, line: seq<TaskId>, next: seq<TaskId>)
    requires line == a + [t] + b && next == a + b
    ensures Moves(line, next)
  {
    assert line[..|a|] == a && line[|a| + 1..] == b;
  }

  lemma Comes(line: seq<TaskId>, t: TaskId, next: seq<TaskId>)
    requires t !in line && next == line + [t]
    ensures Moves(line, next)
  {
  }

  lemma QueueReceives(c: Config, s: State)
    requires Shape(c, s) && s.d.pc.DTop? && s.d.channel != []
    ensures Line(DTopStep(c, s), Queue) == Line(s, Queue)
  {
    assert s.d.channel == [s.d.channel[0]] + s.d.channel[1..];
  }

  lemma QueueLetsGo(c: Config, s: State)
    requires Shape(c, s)
    requires s.d.pc.DSend? || (s.d.pc.DRetire? && s.d.pc.k > |c.tasks[s.d.pc.t].semaphores|)
    ensures Moves(Line(s, Queue), Line(DispatchStep(c, s), Queue))
  {
    var d, next := s.d, DispatchStep(c, s).d;
    assert Line(s, Queue) == d.kept + [d.pc.t] + (d.todo + d.channel);
    assert next.kept == d.kept && next.todo == d.todo && next.channel == d.channel && !DHolds(next.pc);
    assert Line(DispatchStep(c, s), Queue) == d.kept + (d.todo + d.channel);
    Leaves(d.kept, d.pc.t, d.todo + d.channel, Line(s, Queue), Line(DispatchStep(c, s), Queue));
  }

  lemma DispatchQueue(c: Config, s: State)
    requires Inv(c, s)
    ensures Moves(Line(s, Queue), Line(DispatchStep(c, s), Queue))
  {
    if s.d.pc.DTop? && s.d.channel != [] {
      QueueReceives(c, s);
    } else if s.d.pc.DSend? || (s.d.pc.DRetire? && s.d.pc.k > |c.tasks[s.d.pc.t].semaphores|) {
      QueueLetsGo(c, s);
    } else {
      ListProof.ElseStays(c, s);
    }
  }

  lemma DispatchThread(c: Config, s: State, w: nat)
    requires Inv(c, s) && w < |s.ws|
    ensures Moves(Line(s, Thread(w)), Line(DispatchStep(c, s), Thread(w)))
  {
    if s.d.pc.DSend? {
      SendThread(c, s, w);
    } else if (s.d.pc.DTop? && s.d.channel != []) || (s.d.pc.DRetire? && s.d.pc.k > |c.tasks[s.d.pc.t].semaphores|) {
      assert DispatchStep(c, s).ws == s.ws;
    } else {
      ListProof.ElseStays(c, s);
    }
  }

  lemma SendThread(c: Config, s: State, w: nat)
    requires Inv(c, s) && w < |s.ws| && s.d.pc.DSend?
    ensures Moves(Line(s, Thread(w)), Line(DispatchStep(c, s), Thread(w)))
  {
    var t := s.d.pc.t;
    SentIsNew(c, s, w);
    if s.d.pc.w == w {
      assert Line(DSendStep(c, s, t, w), Thread(w)) == Line(s, Thread(w)) + [t];
      Comes(Line(s, Thread(w)), t, Line(DSendStep(c, s, t, w), Thread(w)));
    }
  }

  lemma SentIsNew(c: Config, s: State, w: nat)
    requires Inv(c, s) && w < |s.ws| && s.d.pc.DSend?
    ensures s.d.pc.t !in Line(s, Thread(w))
  {
    ProtocolProof.HeldAt(c, s);
    assert DList(s.d)[|s.d.kept|] == s.d.pc.t;
    LineHasAll(c, s, Thread(w), s.d.pc.t);
  }

  lemma WorkerMoves(c: Config, m: Mem, w: nat, me: Worker, finish: bool)
    requires MemShape(c, m) && WShape(c, me)
    ensures Moves(Own(me), Own(WorkerStep(c, m, w, me, finish).me))
  {
    if me.pc.WTop? && me.inbox != [] {
      Receives(c, m, w, me);
    } else if me.pc.WRetire? && me.pc.k > |c.tasks[me.pc.t].semaphores| {
      LetsGo(c, m, me);
    } else {
      ListProof.WorkStays(c, m, w, me, finish);
    }
  }

  lemma Receives(c: Config, m: Mem, w: nat, me: Worker)
    requires MemShape(c, m) && WShape(c, me) && me.pc.WTop? && me.inbox != []
    ensures Own(WTopStep(c, m, w, me).me) == Own(me)
  {
    assert me.inbox == [me.inbox[0]] + me.inbox[1..];
  }

  lemma LetsGo(c: Config, m: Mem, me: Worker)
    requires MemShape(c, m) && WShape(c, me) && me.pc.WRetire? && me.pc.k > |c.tasks[me.pc.t].semaphores|
    ensures Moves(Own(me), Own(WRetireStep(c, m, me, me.pc.t, me.pc.k).me))
  {
    var next := WRetireStep(c, m, me, me.pc.t, me.pc.k).me;
    assert Own(me) == me.kept + [me.pc.t] + (me.todo + me.inbox);
    assert Own(next) == me.kept + (me.todo + me.inbox);
    Leaves(me.kept, me.pc.t, me.todo + me.inbox, Own(me), Own(next));
  }

  lemma WorkThread(c: Config, s: State, w: nat, finish: bool)
    requires Inv(c, s) && w < |s.ws|
    ensures Moves(Line(s, Thread(w)), Line(WorkStep(c, s, w, finish), Thread(w)))
  {
    WorkerMoves(c, s.mem, w, s.ws[w], finish);
    assert WorkStep(c, s, w, finish).ws[w] == WorkerStep(c, s.mem, w, s.ws[w], finish).me;
  }

  lemma OutsideQueue(c: Config, s: State, step: Step)
    requires Inv(c, s) && !step.Dispatch? && !step.Work?
    ensures Moves(Line(s, Queue), Line(OutsideStep(c, s, step), Queue))
  {
    var line, next := Line(s, Queue), Line(OutsideStep(c, s, step), Queue);
    if step.SubmitSend? && step.t < |c.tasks| && s.mem.hist[step.t].place == Outside {
      LineHasAll(c, s, Queue, step.t);
      assert next == line + [step.t];
      Comes(line, step.t, next);
    } else {
      assert next == line;
    }
  }

  lemma OutsideThread(c: Config, s: State, step: Step, w: nat)
    requires Shape(c, s) && !step.Dispatch? && !step.Work? && w < |s.ws|
    ensures Line(OutsideStep(c, s, step), Thread(w)) == Line(s, Thread(w))
  {
  }

  lemma StepMoves(c: Config, s: State, step: Step, home: Home)
    requires Inv(c, s)
    ensures Moves(Line(s, home), Line(Apply(c, s, step), home))
  {
    if home.Queue? {
      if step.Dispatch? {
        DispatchQueue(c, s);
      } else if !step.Work? {
        OutsideQueue(c, s, step);
      }
    } else if home.w < |s.ws| {
      if step.Dispatch? {
        DispatchThread(c, s, home.w);
      } else if step.Work? {
        if step.w == home.w {
          WorkThread(c, s, step.w, step.finish);
        }
      } else {
        OutsideThread(c, s, step, home.w);
      }
    }
  }

  // ----- lines that only grow at their end -----

  /** The last step, before `n`, that brought `t` into the line. */
  ghost function CameAt(lines: nat -> seq<TaskId>, n: nat, t: TaskId): nat {
    if n == 0 then 0 else if t in lines(n - 1) then CameAt(lines, n - 1, t) else n - 1
  }

  ghost predicate InOrder(lines: nat -> seq<TaskId>, n: nat, line: seq<TaskId>) {
    && (forall i :: 0 <= i < |line| ==> CameAt(lines, n, line[i]) < n)
    && (forall i, j :: 0 <= i < j < |line| ==> CameAt(lines, n, line[i]) < CameAt(lines, n, line[j]))
  }

  lemma WhoStays(lines: nat -> seq<TaskId>, n: nat)
    requires InOrder(lines, n, lines(n))
    ensures InOrder(lines, n + 1, lines(n))
    ensures forall i :: 0 <= i < |lines(n)| ==> CameAt(lines, n + 1, lines(n)[i]) < n
  {
    var line := lines(n);
    forall i | 0 <= i < |line| ensures CameAt(lines, n + 1, line[i]) == CameAt(lines, n, line[i]) {
      assert line[i] in lines(n);
    }
  }

  lemma WhoLeaves(lines: nat -> seq<TaskId>, n: nat, line: seq<TaskId>, k: nat)
    requires InOrder(lines, n, line) && k < |line|
    ensures InOrder(lines, n, line[..k] + line[k + 1..])
  {
    var next := line[..k] + line[k + 1..];
    assert forall i :: 0 <= i < |next| ==> next[i] == if i < k then line[i] else line[i + 1];
  }

  lemma WhoComes(lines: nat -> seq<TaskId>, n: nat, line: seq<TaskId>, t: TaskId)
    requires InOrder(lines, n, line) && CameAt(lines, n, t) < n
    requires forall i :: 0 <= i < |line| ==> CameAt(lines, n, line[i]) < CameAt(lines, n, t)
    ensures InOrder(lines, n, line + [t])
  {
  }

  /** The line begins empty, and then goes on in moves. */
  ghost predicate Steady(lines: nat -> seq<TaskId>, n: nat) {
    lines(0) == [] && forall m: nat :: m < n ==> Moves(lines(m), lines(m + 1))
  }

  lemma SteadyBefore(lines: nat -> seq<TaskId>, n: nat)
    requires Steady(lines, n + 1)
    ensures Steady(lines, n) && Moves(lines(n), lines(n + 1))
  {
  }

  lemma {:induction false} KeepsOrder(lines: nat -> seq<TaskId>, n: nat, line: seq<TaskId>)
    requires Steady(lines, n) && line == lines(n)
    ensures InOrder(lines, n, line)
    decreases n
  {
    if n > 0 {
      var before := lines(n - 1);
      SteadyBefore(lines, n - 1);
      KeepsOrder(lines, n - 1, before);
      OneMove(lines, n, before, line);
    }
  }

  lemma OneMove(lines: nat -> seq<TaskId>, n: nat, line: seq<TaskId>, next: seq<TaskId>)
    requires n > 0 && line == lines(n - 1) && Moves(line, next) && InOrder(lines, n - 1, line)
    ensures InOrder(lines, n, next)
  {
    WhoStays(lines, n - 1);
    if next != line {
      if k :| 0 <= k < |line| && next == line[..k] + line[k + 1..] {
        WhoLeaves(lines, n, line, k);
      } else if t :| t !in line && next == line + [t] {
        assert CameAt(lines, n, t) == n - 1;
        WhoComes(lines, n, line, t);
      }
    }
  }

  lemma {:induction false} CameWithStep(lines: nat -> seq<TaskId>, n: nat, t: TaskId) returns (a: nat)
    requires t in lines(n) && lines(0) == []
    ensures a == CameAt(lines, n, t) && a < n && t !in lines(a) && t in lines(a + 1)
    decreases n
  {
    if t in lines(n - 1) {
      a := CameWithStep(lines, n - 1, t);
    } else {
      a := n - 1;
    }
  }

  lemma {:induction false} NeverBack(way: nat -> nat, m: nat, n: nat)
    requires m <= n && forall k: nat :: m <= k < n ==> way(k) <= way(k + 1)
    ensures way(m) <= way(n)
    decreases n
  {
    if m < n {
      NeverBack(way, m, n - 1);
    }
  }

  // ----- which step brings a task into a line -----

  /** Step `i` of the run submits `t`, which was not submitted before. */
  ghost predicate Submits(c: Config, run: seq<Step>, i: nat, t: TaskId)
    requires ValidConfig(c)
  {
    && i < |run| && t < |c.tasks| && run[i].SubmitSend? && run[i].t == t
    && Exec(c, run[..i]).mem.hist[t].place == Outside
  }

  /** Step `i` of the run sends `t` to the worker `w`. */
  ghost predicate Sends(c: Config, run: seq<Step>, i: nat, t: TaskId, w: nat)
    requires ValidConfig(c)
  {
    i < |run| && run[i].Dispatch? && Exec(c, run[..i]).d.pc == DSend(t, w)
  }

  ghost predicate Brings(c: Config, run: seq<Step>, i: nat, home: Home, t: TaskId)
    requires ValidConfig(c)
  {
    match home
    case Queue => Submits(c, run, i, t)
    case Thread(w) => Sends(c, run, i, t, w)
  }

  /** How far a task has come on its way; it never goes back. */
  ghost function Way(p: Place): nat {
    match p
    case Outside => 0
    case Channel => 1
    case Held => 2
    case Inbox(_) => 3
    case Futures(_) => 4
    case Retired => 5
  }

  /** A task goes one step on its way, or none. */
  ghost predicate GoesOn(was: Place, now: Place) {
    now == was || Way(now) == Way(was) + 1 || (was == Held && now == Retired)
  }

  /** The dispatcher receives a task, retires it, or sends it. */
  ghost predicate DispatchGoes(was: Place, now: Place, sentTo: Option<nat>) {
    match sentTo
    case Some(w) => was == Held && now == Inbox(w)
    case None => now == was || (was == Channel && now == Held) || (was == Held && now == Retired)
  }

  /** A worker moves a task from its channel to its futures, or from there to the retired ones. */
  ghost predicate WorkGoes(was: Place, now: Place, w: nat) {
    now == was || (was == Inbox(w) && now == Futures(w)) || (was == Futures(w) && now == Retired)
  }

  ghost predicate OutsideGoes(was: Place, now: Place, submitted: bool) {
    if submitted && was == Outside then now == Channel else now == was
  }

  lemma AllGoOn(was: Place, now: Place)
    ensures forall sentTo :: DispatchGoes(was, now, sentTo) ==> GoesOn(was, now)
    ensures forall w :: WorkGoes(was, now, w) ==> GoesOn(was, now)
    ensures forall submitted :: OutsideGoes(was, now, submitted) ==> GoesOn(was, now)
  {
  }

  ghost function SentTo(pc: DPc, t: TaskId): Option<nat> {
    if pc.DSend? && pc.t == t then Some(pc.w) else None
  }

  lemma DispatchBrings(c: Config, s: State, t: TaskId)
    requires Inv(c, s) && t < |c.tasks|
    ensures DispatchGoes(s.mem.hist[t].place, DispatchStep(c, s).mem.hist[t].place, SentTo(s.d.pc, t))
  {
    ProtocolProof.HeldAt(c, s);
    if s.d.pc.DTop? && s.d.channel != [] {
      assert s.mem.hist[s.d.channel[0]].place == Channel;
    } else if s.d.pc.DSend? || (s.d.pc.DRetire? && s.d.pc.k > |c.tasks[s.d.pc.t].semaphores|) {
      assert DList(s.d)[|s.d.kept|] == s.d.pc.t;
    } else {
      ListProof.ElseStays(c, s);
    }
  }

  lemma WorkBrings(c: Config, m: Mem, w: nat, me: Worker, finish: bool, t: TaskId)
    requires WorkerProof.WPre(c, m, w, me) && t < |c.tasks|
    ensures WorkGoes(m.hist[t].place, WorkerStep(c, m, w, me, finish).mem.hist[t].place, w)
  {
    if me.pc.WTop? && me.inbox != [] {
      assert m.hist[me.inbox[0]].place == Inbox(w);
    } else if me.pc.WRetire? && me.pc.k > |c.tasks[me.pc.t].semaphores| {
      assert WList(me)[|me.kept|] == me.pc.t;
    } else {
      ListProof.WorkStays(c, m, w, me, finish);
    }
  }

  lemma OutsideBrings(c: Config, s: State, step: Step, t: TaskId)
    requires Shape(c, s) && !step.Dispatch? && !step.Work? && t < |c.tasks|
    ensures
      OutsideGoes(s.mem.hist[t].place, OutsideStep(c, s, step).mem.hist[t].place, step.SubmitSend? && step.t == t)
  {
    Results.OutsideHist(c, s, step);
  }

  /** Where a step takes a task. */
  lemma StepBrings(c: Config, s: State, step: Step, t: TaskId) returns (was: Place, now: Place)
    requires Inv(c, s) && t < |c.tasks|
    ensures was == s.mem.hist[t].place && now == Apply(c, s, step).mem.hist[t].place && GoesOn(was, now)
    ensures step.Dispatch? ==> DispatchGoes(was, now, SentTo(s.d.pc, t))
    ensures step.Work? ==> WorkGoes(was, now, step.w)
    ensures !step.Dispatch? && !step.Work? ==> OutsideGoes(was, now, step.SubmitSend? && step.t == t)
  {
    was, now := s.mem.hist[t].place, Apply(c, s, step).mem.hist[t].place;
    if step.Dispatch? {
      DispatchBrings(c, s, t);
    } else if step.Work? {
      if step.w < |s.ws| {
        ProtocolProof.FuturesAt(c, s, step.w);
        WorkBrings(c, s.mem, step.w, s.ws[step.w], step.finish, t);
      }
    } else {
      OutsideBrings(c, s, step, t);
    }
    AllGoOn(was, now);
  }

  /** Only a submission brings a task to the dispatcher, and only a send to a worker. */
  ghost predicate Enters(s: State, step: Step, home: Home, t: TaskId, was: Place) {
    match home
    case Queue => step.SubmitSend? && step.t == t && was == Outside
    case Thread(w) => step.Dispatch? && s.d.pc == DSend(t, w)
  }

  lemma OnlyEnters(c: Config, s: State, step: Step, home: Home, t: TaskId) returns (was: Place, now: Place)
    requires Inv(c, s) && t < |c.tasks|
    ensures was == s.mem.hist[t].place && now == Apply(c, s, step).mem.hist[t].place
    ensures !At(was, home) && At(now, home) <==> Enters(s, step, home, t, was)
    ensures Enters(s, step, home, t, was) ==>
            Way(was) == (if home.Queue? then 0 else 2) && Way(now) == (if home.Queue? then 1 else 3)
  {
    was, now := StepBrings(c, s, step, t);
  }

  // ----- first come, first served -----

  /** The line after each step of the run, and how far a task has come by then. */
  ghost function Lines(c: Config, run: seq<Step>, home: Home): nat -> seq<TaskId>
    requires ValidConfig(c)
  {
    (n: nat) => if n <= |run| then Line(Exec(c, run[..n]), home) else []
  }

  ghost function Ways(c: Config, run: seq<Step>, t: TaskId): nat -> nat
    requires ValidConfig(c) && t < |c.tasks|
  {
    (n: nat) => if n <= |run| then Way(Exec(c, run[..n]).mem.hist[t].place) else 5
  }

  lemma ExecAt(c: Config, run: seq<Step>, n: nat) returns (s: State, r: State)
    requires ValidConfig(c) && n < |run|
    ensures s == Exec(c, run[..n]) && Inv(c, s) && r == Exec(c, run[..n + 1]) == Apply(c, s, run[n]) && Inv(c, r)
  {
    s, r := Exec(c, run[..n]), Exec(c, run[..n + 1]);
    ProtocolProof.RunInv(c, run[..n]);
    ProtocolProof.RunInv(c, run[..n + 1]);
    assert run[..n + 1][..n] == run[..n];
    ExecLast(c, run[..n + 1]);
  }

  lemma LinesMove(c: Config, run: seq<Step>, home: Home, n: nat)
    requires ValidConfig(c) && n < |run|
    ensures Moves(Lines(c, run, home)(n), Lines(c, run, home)(n + 1))
  {
    var s, r := ExecAt(c, run, n);
    StepMoves(c, s, run[n], home);
  }

  lemma LinesBegin(c: Config, run: seq<Step>, home: Home)
    requires ValidConfig(c)
    ensures Lines(c, run, home)(0) == []
  {
    assert run[..0] == [];
    assert Exec(c, []) == Init(c);
  }

  /** A step brings a task into the line exactly if it submits it, or sends it there. */
  lemma LinesBring(c: Config, run: seq<Step>, home: Home, lines: nat -> seq<TaskId>, n: nat, t: TaskId)
    requires ValidConfig(c) && n < |run| && t < |c.tasks| && (home.Thread? ==> home.w < |c.labels|)
    requires lines == Lines(c, run, home)
    ensures t !in lines(n) && t in lines(n + 1) <==> Brings(c, run, n, home, t)
    ensures Brings(c, run, n, home, t) ==>
            && Ways(c, run, t)(n) == (if home.Queue? then 0 else 2)
            && Ways(c, run, t)(n + 1) == (if home.Queue? then 1 else 3)
  {
    var s, r := ExecAt(c, run, n);
    LineHasAll(c, s, home, t);
    LineHasAll(c, r, home, t);
    var was, now := OnlyEnters(c, s, run[n], home, t);
  }

  lemma WaysGoOn(c: Config, run: seq<Step>, t: TaskId, n: nat)
    requires ValidConfig(c) && n < |run| && t < |c.tasks|
    ensures Ways(c, run, t)(n) <= Ways(c, run, t)(n + 1)
  {
    var s, r := ExecAt(c, run, n);
    var was, now := StepBrings(c, s, run[n], t);
  }

  lemma WayGoesOn(c: Config, run: seq<Step>, t: TaskId, m: nat, n: nat)
    requires ValidConfig(c) && m <= n <= |run| && t < |c.tasks|
    ensures Ways(c, run, t)(m) <= Ways(c, run, t)(n)
  {
    var way := Ways(c, run, t);
    forall k: nat | m <= k < n ensures way(k) <= way(k + 1) {
      WaysGoOn(c, run, t, k);
    }
    NeverBack(way, m, n);
  }

  /** A task is brought into a line once. */
  lemma BroughtOnce(c: Config, run: seq<Step>, home: Home, t: TaskId, a: nat, b: nat)
    requires ValidConfig(c) && t < |c.tasks| && (home.Thread? ==> home.w < |c.labels|)
    requires Brings(c, run, a, home, t) && Brings(c, run, b, home, t)
    ensures a == b
  {
    BroughtFrom(c, run, home, t, a);
    BroughtFrom(c, run, home, t, b);
    if a < b {
      WayGoesOn(c, run, t, a + 1, b);
    } else if b < a {
      WayGoesOn(c, run, t, b + 1, a);
    }
  }

  lemma BroughtFrom(c: Config, run: seq<Step>, home: Home, t: TaskId, a: nat)
    requires ValidConfig(c) && t < |c.tasks| && (home.Thread? ==> home.w < |c.labels|) && Brings(c, run, a, home, t)
    ensures a < |run| && Ways(c, run, t)(a) < Ways(c, run, t)(a + 1) == (if home.Queue? then 1 else 3)
  {
    LinesBring(c, run, home, Lines(c, run, home), a, t);
  }

  /** Who stands in the line came with the step of the run that brought it. */
  lemma CameBrought(c: Config, run: seq<Step>, home: Home, lines: nat -> seq<TaskId>, t: TaskId) returns (a: nat)
    requires ValidConfig(c) && (home.Thread? ==> home.w < |c.labels|) && lines == Lines(c, run, home)
    requires t in lines(|run|) && lines(0) == [] && t < |c.tasks|
    ensures a == CameAt(lines, |run|, t) && Brings(c, run, a, home, t)
  {
    a := CameWithStep(lines, |run|, t);
    LinesBring(c, run, home, lines, a, t);
  }

  /**
   * In every run, tasks stand in the line of the dispatcher, its channel included, in the order in which they were
   * submitted, and in the line of a worker in the order in which they were sent to it, whoever has left in between. There
   * is one such step for each of them (`BroughtOnce`).
   */
  lemma FirstComeFirst(c: Config, run: seq<Step>, home: Home, i: nat, j: nat) returns (a: nat, b: nat)
    requires ValidConfig(c) && (home.Thread? ==> home.w < |c.labels|)
    requires i < j < |Line(Exec(c, run), home)|
    ensures a < b
    ensures Brings(c, run, a, home, Line(Exec(c, run), home)[i]) && Brings(c, run, b, home, Line(Exec(c, run), home)[j])
  {
    var line, lines := LineAtEnd(c, run, home);
    KeepsOrder(lines, |run|, line);
    a := CameBrought(c, run, home, lines, line[i]);
    b := CameBrought(c, run, home, lines, line[j]);
  }

  lemma LineAtEnd(c: Config, run: seq<Step>, home: Home)
    returns (line: seq<TaskId>, lines: nat -> seq<TaskId>)
    requires ValidConfig(c) && (home.Thread? ==> home.w < |c.labels|)
    ensures lines == Lines(c, run, home) && line == Line(Exec(c, run), home) == lines(|run|) && Steady(lines, |run|)
    ensures forall i :: 0 <= i < |line| ==> line[i] < |c.tasks|
  {
    line, lines := Line(Exec(c, run), home), Lines(c, run, home);
    assert run[..|run|] == run;
    LinesBegin(c, run, home);
    ProtocolProof.RunInv(c, run);
    forall i | 0 <= i < |line| ensures line[i] < |c.tasks| {
      LineHasAll(c, Exec(c, run), home, line[i]);
    }
    forall n: nat | n < |run| ensures Moves(lines(n), lines(n + 1)) {
      LinesMove(c, run, home, n);
    }
  }

  // ----- nobody is left in a channel for a whole pass -----

  /** The thread has tasks, and has ended a pass over them and not begun the next one. */
  ghost predicate BetweenPasses(s: State, home: Home) {
    match home
    case Queue =>
      (s.d.pc.DTop? && s.d.todo != []) || (s.d.pc.DNext? && s.d.todo == [] && s.d.kept != []) || (s.d.pc.DWait? && s.d.kept != [])
    case Thread(w) =>
      w < |s.ws| &&
      var me := s.ws[w];
      (me.pc.WTop? && me.todo != []) || (me.pc.WNext? && me.todo == [] && me.kept != []) || (me.pc.WWait? && me.kept != [])
  }

  function ChannelOf(home: Home): Place {
    match home
    case Queue => Channel
    case Thread(w) => Inbox(w)
  }

  /** The task is in the channel of the thread, which has not begun a new pass, or it was received. */
  ghost predicate NotPassedOver(c: Config, s: State, home: Home, t: TaskId) {
    && t < |c.tasks| == |s.mem.hist|
    && var place := s.mem.hist[t].place;
       if place == ChannelOf(home) then BetweenPasses(s, home) else Way(place) > Way(ChannelOf(home))
  }

  /** As long as something is in the channel, the dispatcher does not go on from between two passes. */
  lemma DispatcherReceives(c: Config, s: State, t: TaskId)
    requires Inv(c, s) && t < |c.tasks| && s.mem.hist[t].place == Channel && BetweenPasses(s, Queue)
    ensures DispatchStep(c, s).mem.hist[t].place == Channel ==> BetweenPasses(DispatchStep(c, s), Queue)
  {
    assert Exact(c, s, Channel) && t in Contents(s, Channel);
    assert s.d.channel != [];
  }

  lemma WorkerReceives(c: Config, s: State, w: nat, finish: bool, t: TaskId)
    requires Inv(c, s) && w < |s.ws| && t < |c.tasks| && s.mem.hist[t].place == Inbox(w) && BetweenPasses(s, Thread(w))
    ensures
      WorkStep(c, s, w, finish).mem.hist[t].place == Inbox(w) ==> BetweenPasses(WorkStep(c, s, w, finish), Thread(w))
  {
    assert Exact(c, s, Inbox(w)) && t in Contents(s, Inbox(w));
    assert s.ws[w].inbox != [];
  }

  lemma OthersLeaveBetween(c: Config, s: State, step: Step, home: Home)
    requires Shape(c, s) && BetweenPasses(s, home)
    requires match home case Queue => !step.Dispatch? case Thread(w) => !step.Work? || step.w != w
    ensures BetweenPasses(Apply(c, s, step), home)
  {
    if step.Dispatch? {
      DispatchLeavesWorkers(c, s);
    }
  }

  lemma DispatchLeavesWorkers(c: Config, s: State)
    requires Shape(c, s)
    ensures forall w: nat :: w < |s.ws| ==>
              var me, r := s.ws[w], DispatchStep(c, s).ws[w];
              r.pc == me.pc && r.todo == me.todo && r.kept == me.kept
  {
  }

  lemma StaysBetween(c: Config, s: State, step: Step, home: Home, t: TaskId)
    requires Inv(c, s) && t < |c.tasks| && s.mem.hist[t].place == ChannelOf(home) && BetweenPasses(s, home)
    requires Apply(c, s, step).mem.hist[t].place == ChannelOf(home)
    ensures BetweenPasses(Apply(c, s, step), home)
  {
    if home.Queue? && step.Dispatch? {
      DispatcherReceives(c, s, t);
    } else if home.Thread? && step.Work? && step.w == home.w {
      WorkerReceives(c, s, step.w, step.finish, t);
    } else {
      OthersLeaveBetween(c, s, step, home);
    }
  }

  lemma LeavesChannel(was: Place, now: Place, home: Home)
    requires GoesOn(was, now)
    ensures was == ChannelOf(home) && now != was ==> Way(now) > Way(ChannelOf(home))
    ensures Way(was) > Way(ChannelOf(home)) ==> Way(now) > Way(ChannelOf(home))
  {
  }

  lemma NotPassedOverOn(c: Config, s: State, step: Step, home: Home, t: TaskId)
    requires Inv(c, s) && NotPassedOver(c, s, home, t)
    ensures NotPassedOver(c, Apply(c, s, step), home, t)
  {
    var was, now := StepBrings(c, s, step, t);
    LeavesChannel(was, now, home);
    if was == ChannelOf(home) && now == was {
      StaysBetween(c, s, step, home, t);
    }
  }

  /**
   * A task that is in the channel of a thread when that thread, having tasks, is between two passes over them, is received
   * before the next pass begins: in every run, as long as it is still in the channel, the thread has not looked at, or
   * polled, any of its tasks again.
   */
  lemma ReceivedBeforePass(c: Config, run: seq<Step>, more: seq<Step>, home: Home, t: TaskId)
    requires ValidConfig(c) && t < |c.tasks|
    requires Exec(c, run).mem.hist[t].place == ChannelOf(home) && BetweenPasses(Exec(c, run), home)
    ensures Exec(c, run + more).mem.hist[t].place == ChannelOf(home) ==> BetweenPasses(Exec(c, run + more), home)
  {
    var holds := (s: State) => NotPassedOver(c, s, home, t);
    forall s: State, step: Step | Inv(c, s) && holds(s) ensures holds(Apply(c, s, step)) {
      NotPassedOverOn(c, s, step, home, t);
    }
    ProtocolProof.KeptOnwards(c, run, more, holds);
  }

  /** A thread that has no task takes exactly one from its channel, the first, and begins a pass over it. */
  lemma TakesOneAlone(c: Config, run: seq<Step>, w: nat, finish: bool)
    requires ValidConfig(c) && w < |c.labels|
    ensures
      var s, r := Exec(c, run), Exec(c, run + [Dispatch]);
      s.d.pc.DTop? && s.d.todo == [] && s.d.channel != [] ==> r.d.pc.DNext? && DList(r.d) == [s.d.channel[0]]
    ensures
      var me, r := Exec(c, run).ws[w], Exec(c, run + [Work(w, finish)]).ws[w];
      me.pc.WTop? && me.todo == [] && me.inbox != [] ==> r.pc.WNext? && WList(r) == [me.inbox[0]]
  {
    ExecNext(c, run, Dispatch);
    ExecNext(c, run, Work(w, finish));
  }
}
