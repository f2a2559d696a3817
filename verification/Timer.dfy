/** The timer: sleeps that put entries on a shared heap, and the thread that takes due entries off it. */
module Timer {
  import opened Tasks

  type Instant = nat
  type SleepId = nat

  /** An entry; its waker is that of the sleep it belongs to. */
  datatype Entry = Entry(when: Instant, sleep: SleepId)

  /** The order of entries in the heap: the reverse of that of their deadlines. */
  function Compare(a: Entry, b: Entry): int {
    b.when - a.when
  }

  /** The binary heap gives out a greatest entry, one of several that are equal. */
  predicate IsMax(heap: seq<Entry>, k: nat)
    requires k < |heap|
  {
    forall j :: 0 <= j < |heap| ==> Compare(heap[k], heap[j]) >= 0
  }

  /** How far the first poll has come: not begun, deadline computed, entry pushed, timer notified. */
  datatype Stage = New | Stamped | Pushed | Notified

  datatype Sleep = Sleep(duration: nat, when: Instant, stage: Stage, fired: nat)

  /**
   * The program counter of the timer thread. It looks at the heap and pops from it under separate locks, and waits
   * under a third: `TLocked` is about to wait, after having seen a deadline or none.
   */
  datatype Pc =
    | TPeek
    | TClock(due: Instant)
    | TPop(due: Instant, now: Instant)
    | TWake(entry: Entry)
    | TLocked(timeout: Option<nat>)
    | TWaiting(end: Option<Instant>)
    | TCrashed

  datatype State = State(clock: Instant, heap: seq<Entry>, sleeps: seq<Sleep>, pc: Pc)

  /** The steps of the clock, of the first poll of a sleep, and of the timer; `pick` is the entry that a pop gives. */
  datatype Step = Tick | Stamp(i: SleepId) | Push(i: SleepId) | Notify(i: SleepId) | Run(pick: nat) | Spurious

  function SetSleep(s: State, i: SleepId, sleep: Sleep): State
    requires i < |s.sleeps|
  {
    s.(sleeps := s.sleeps[i := sleep])
  }

  /** Any entry with the earliest deadline has the deadline that `peek` sees. */
  function Earliest(heap: seq<Entry>): (r: Instant)
    requires heap != []
    ensures exists k :: 0 <= k < |heap| && heap[k].when == r
    ensures forall k :: 0 <= k < |heap| ==> r <= heap[k].when
  {
    if |heap| == 1 then heap[0].when
    else
      var rest := Earliest(heap[1..]);
      assert forall k :: 0 < k < |heap| ==> heap[k] == heap[1..][k - 1];
      if heap[0].when <= rest then heap[0].when else rest
  }

  function TimerStep(s: State, pick: nat): State {
    match s.pc
    case TPeek => s.(pc := if s.heap == [] then TLocked(None) else TClock(Earliest(s.heap)))
    case TClock(due) =>
      s.(pc := if s.clock >= due then TPop(due, s.clock) else TLocked(Some(due - s.clock)))
    case TPop(_, _) =>
      if s.heap == [] then s.(pc := TCrashed)
      else if pick < |s.heap| && IsMax(s.heap, pick) then
        s.(pc := TWake(s.heap[pick]), heap := s.heap[..pick] + s.heap[pick + 1..])
      else s
    case TWake(e) =>
      if e.sleep < |s.sleeps| then
        SetSleep(s, e.sleep, s.sleeps[e.sleep].(fired := s.sleeps[e.sleep].fired + 1)).(pc := TPeek)
      else s.(pc := TPeek)
    case TLocked(timeout) => s.(pc := TWaiting(if timeout.Some? then Some(s.clock + timeout.value) else None))
    case TWaiting(end) => if end.Some? && s.clock >= end.value then s.(pc := TPeek) else s
    case TCrashed => s
  }

  /** A step that is not enabled changes nothing. */
  function Apply(s: State, step: Step): (r: State)
    ensures |r.sleeps| == |s.sleeps| && s.clock <= r.clock
  {
    match step
    case Tick => s.(clock := s.clock + 1)
    case Stamp(i) =>
      if i < |s.sleeps| && s.sleeps[i].stage.New? then
        SetSleep(s, i, s.sleeps[i].(when := s.clock + s.sleeps[i].duration, stage := Stamped))
      else s
    case Push(i) =>
      if i < |s.sleeps| && s.sleeps[i].stage.Stamped? then
        SetSleep(s, i, s.sleeps[i].(stage := Pushed)).(heap := s.heap + [Entry(s.sleeps[i].when, i)])
      else s
    case Notify(i) =>
      if i < |s.sleeps| && s.sleeps[i].stage.Pushed? then
        SetSleep(s, i, s.sleeps[i].(stage := Notified)).(pc := if s.pc.TWaiting? then TPeek else s.pc)
      else s
    case Run(pick) => TimerStep(s, pick)
    case Spurious => if s.pc.TWaiting? then s.(pc := TPeek) else s
  }

  function Start(durations: seq<nat>): State {
    State(0, [], seq(|durations|, i requires 0 <= i < |durations| => Sleep(durations[i], 0, New, 0)), TPeek)
  }

  function Exec(s: State, run: seq<Step>): (r: State)
    ensures |r.sleeps| == |s.sleeps| && s.clock <= r.clock
  {
    if run == [] then s else Apply(Exec(s, run[..|run| - 1]), run[|run| - 1])
  }

  /** What a poll of a sleep gives, once the first poll is over. */
  predicate PollReady(s: State, i: SleepId)
    requires i < |s.sleeps|
  {
    !s.sleeps[i].stage.New? && s.clock >= s.sleeps[i].when
  }

  // ----- what every run keeps -----

  /** The entries that are on the heap or in the hands of the timer. */
  function Entries(s: State): seq<Entry> {
    s.heap + (if s.pc.TWake? then [s.pc.entry] else [])
  }

  /** A sleep has as many entries and calls of its waker, together, as it has pushed. */
  ghost predicate SleepOk(s: State, i: SleepId)
    requires i < |s.sleeps|
  {
    var me := s.sleeps[i];
    var pushed := me.stage.Pushed? || me.stage.Notified?;
    && multiset(Entries(s))[Entry(me.when, i)] + me.fired == (if pushed then 1 else 0)
    && (me.fired > 0 ==> me.when <= s.clock)
  }

  ghost predicate EntryOk(s: State, e: Entry) {
    e.sleep < |s.sleeps| && e.when == s.sleeps[e.sleep].when
  }

  ghost predicate PcOk(s: State) {
    match s.pc
    case TClock(due) => exists k :: 0 <= k < |s.heap| && s.heap[k].when <= due
    case TPop(due, now) => due <= now <= s.clock && exists k :: 0 <= k < |s.heap| && s.heap[k].when <= due
    case TWake(e) => e.when <= s.clock
    case TCrashed => false
    case _ => true
  }

  ghost predicate Good(s: State) {
    && (forall i: nat :: i < |s.sleeps| ==> SleepOk(s, i))
    && (forall e :: e in multiset(Entries(s)) ==> EntryOk(s, e))
    && PcOk(s)
  }

  /** A step that changes no sleep beyond its stage, and no entry. */
  lemma QuietGood(s: State, r: State)
    requires Good(s) && Entries(r) == Entries(s) && s.clock <= r.clock && |r.sleeps| == |s.sleeps| && PcOk(r)
    requires forall i: nat :: i < |s.sleeps| ==>
               && r.sleeps[i].when == s.sleeps[i].when && r.sleeps[i].fired == s.sleeps[i].fired
               && (r.sleeps[i].stage.New? || r.sleeps[i].stage.Stamped? <==> s.sleeps[i].stage.New? || s.sleeps[i].stage.Stamped?)
    ensures Good(r)
  {
    forall e | e in multiset(Entries(r)) ensures EntryOk(r, e) {
      assert EntryOk(s, e);
    }
    forall i: nat | i < |r.sleeps| ensures SleepOk(r, i) {
      assert SleepOk(s, i);
    }
  }

  lemma StampGood(s: State, i: SleepId)
    requires Good(s) && i < |s.sleeps| && s.sleeps[i].stage.New?
    ensures Good(Apply(s, Stamp(i)))
  {
    var r := Apply(s, Stamp(i));
    NoEntry(s, i, s.sleeps[i].when);
    NoEntry(s, i, r.sleeps[i].when);
    assert Entries(r) == Entries(s);
    forall e | e in multiset(Entries(r)) ensures EntryOk(r, e) {
      NoEntry(s, i, e.when);
      assert EntryOk(s, e) && e.sleep != i;
    }
    forall j: nat | j < |r.sleeps| ensures SleepOk(r, j) {
      assert SleepOk(s, j);
    }
  }

  lemma NoEntry(s: State, i: SleepId, when: Instant)
    requires Good(s) && i < |s.sleeps| && s.sleeps[i].stage.New?
    ensures multiset(Entries(s))[Entry(when, i)] == 0
  {
    assert SleepOk(s, i);
    assert Entry(when, i) in multiset(Entries(s)) ==> EntryOk(s, Entry(when, i));
  }

  lemma PushAdds(s: State, i: SleepId)
    requires i < |s.sleeps| && s.sleeps[i].stage.Stamped?
    ensures multiset(Entries(Apply(s, Push(i)))) == multiset(Entries(s)) + multiset{Entry(s.sleeps[i].when, i)}
  {
  }

  lemma PushGood(s: State, i: SleepId)
    requires Good(s) && i < |s.sleeps| && s.sleeps[i].stage.Stamped?
    ensures Good(Apply(s, Push(i)))
  {
    var r := Apply(s, Push(i));
    var e := Entry(s.sleeps[i].when, i);
    PushAdds(s, i);
    forall x | x in multiset(Entries(r)) ensures EntryOk(r, x) {
      assert x == e || EntryOk(s, x);
    }
    forall j: nat | j < |r.sleeps| ensures SleepOk(r, j) {
      assert SleepOk(s, j);
    }
    if s.pc.TClock? || s.pc.TPop? {
      var k :| 0 <= k < |s.heap| && s.heap[k].when <= s.pc.due;
      assert r.heap[k] == s.heap[k];
    }
  }

  lemma PopGood(s: State, pick: nat)
    requires Good(s) && s.pc.TPop? && s.heap != []
    ensures Good(Apply(s, Run(pick)))
  {
    var r := Apply(s, Run(pick));
    if pick < |s.heap| && IsMax(s.heap, pick) {
      var e := s.heap[pick];
      assert s.heap == s.heap[..pick] + [e] + s.heap[pick + 1..];
      assert multiset(Entries(r)) == multiset(Entries(s));
      var k :| 0 <= k < |s.heap| && s.heap[k].when <= s.pc.due;
      assert Compare(e, s.heap[k]) >= 0;
      assert forall x :: EntryOk(r, x) <==> EntryOk(s, x);
      forall j: nat | j < |r.sleeps| ensures SleepOk(r, j) {
        assert SleepOk(s, j);
      }
    }
  }

  lemma WakeGood(s: State, pick: nat)
    requires Good(s) && s.pc.TWake?
    ensures Good(Apply(s, Run(pick)))
  {
    var r := Apply(s, Run(pick));
    var e := s.pc.entry;
    assert multiset(Entries(s)) == multiset(Entries(r)) + multiset{e};
    assert EntryOk(s, e);
    forall x | x in multiset(Entries(r)) ensures EntryOk(r, x) {
      assert EntryOk(s, x);
    }
    forall j: nat | j < |r.sleeps| ensures SleepOk(r, j) {
      assert SleepOk(s, j);
    }
  }

  lemma LookGood(s: State, pick: nat)
    requires Good(s) && !s.pc.TPop? && !s.pc.TWake?
    ensures Good(Apply(s, Run(pick)))
  {
    var r := Apply(s, Run(pick));
    assert r.heap == s.heap && r.sleeps == s.sleeps;
    QuietGood(s, r);
  }

  lemma MarkGood(s: State, step: Step)
    requires Good(s) && (step.Tick? || step.Notify? || step.Spurious?)
    ensures Good(Apply(s, step))
  {
    QuietGood(s, Apply(s, step));
  }

  lemma StepGood(s: State, step: Step)
    requires Good(s)
    ensures Good(Apply(s, step))
  {
    match step
    case Push(i) =>
      if i < |s.sleeps| && s.sleeps[i].stage.Stamped? {
        PushGood(s, i);
      }
    case Run(pick) =>
      if s.pc.TPop? {
        PopGood(s, pick);
      } else if s.pc.TWake? {
        WakeGood(s, pick);
      } else {
        LookGood(s, pick);
      }
    case Stamp(i) =>
      if i < |s.sleeps| && s.sleeps[i].stage.New? {
        StampGood(s, i);
      }
    case _ => MarkGood(s, step);
  }

  lemma {:induction false} RunGood(s: State, run: seq<Step>)
    requires Good(s)
    ensures Good(Exec(s, run))
  {
    if run != [] {
      RunGood(s, run[..|run| - 1]);
      StepGood(Exec(s, run[..|run| - 1]), run[|run| - 1]);
    }
  }

  lemma StartGood(durations: seq<nat>)
    ensures Good(Start(durations))
  {
  }

  /**
   * Timer safety, in every run. The pop never finds the heap empty. The entry in the hands of the timer is due, even
   * if it is not the one that the timer looked at. No waker is called twice, none before its deadline, and
   * every poll of a sleep whose waker has been called gives Ready, as do all polls after it.
   */
  lemma TimerIsSafe(durations: seq<nat>, run: seq<Step>, i: SleepId)
    requires i < |durations|
    ensures
      var s := Exec(Start(durations), run);
      && !s.pc.TCrashed? && (s.pc.TPop? ==> s.heap != [])
      && (s.pc.TWake? ==> s.pc.entry.when <= s.clock)
      && s.sleeps[i].fired <= 1
      && (s.sleeps[i].fired == 1 ==> s.sleeps[i].when <= s.clock && PollReady(s, i))
  {
    StartGood(durations);
    RunGood(Start(durations), run);
    assert SleepOk(Exec(Start(durations), run), i);
  }

  /** No entry gets lost: a sleep that was pushed and not woken has its entry on the heap or in the timer's hands, once. */
  lemma EntriesConserved(durations: seq<nat>, run: seq<Step>, i: SleepId)
    requires i < |durations|
    ensures
      var s := Exec(Start(durations), run);
      var me := s.sleeps[i];
      multiset(Entries(s))[Entry(me.when, i)] ==
      (if (me.stage.Pushed? || me.stage.Notified?) && me.fired == 0 then 1 else 0)
  {
    StartGood(durations);
    RunGood(Start(durations), run);
    assert SleepOk(Exec(Start(durations), run), i);
  }

  // ----- a sleep takes as long as it was asked to -----

  /** Step `k` of the run is the first poll of sleep `i`. */
  predicate BeginsAt(durations: seq<nat>, run: seq<Step>, k: nat, i: SleepId)
    requires i < |durations|
  {
    k < |run| && run[k] == Stamp(i) && Exec(Start(durations), run[..k]).sleeps[i].stage.New?
  }

  lemma StepKeepsDuration(s: State, step: Step, i: SleepId)
    requires i < |s.sleeps|
    ensures
      var me, r := s.sleeps[i], Apply(s, step).sleeps[i];
      && r.duration == me.duration
      && (r.stage.New? <==> me.stage.New? && step != Stamp(i))
      && (!me.stage.New? ==> r.when == me.when)
      && (me.stage.New? && step == Stamp(i) ==> r.when == s.clock + me.duration)
  {
  }

  lemma {:induction false} KeepsDuration(durations: seq<nat>, run: seq<Step>, i: SleepId)
    requires i < |durations|
    ensures Exec(Start(durations), run).sleeps[i].duration == durations[i]
  {
    if run != [] {
      var front := run[..|run| - 1];
      KeepsDuration(durations, front, i);
      StepKeepsDuration(Exec(Start(durations), front), run[|run| - 1], i);
    }
  }

  /** The deadline is the duration after the first poll, and stays. */
  lemma {:induction false} KeepsDeadline(durations: seq<nat>, run: seq<Step>, k: nat, i: SleepId)
    requires i < |durations| && BeginsAt(durations, run, k, i)
    ensures
      var me := Exec(Start(durations), run).sleeps[i];
      !me.stage.New? && me.when == Exec(Start(durations), run[..k]).clock + durations[i]
    decreases |run|
  {
    var n := |run| - 1;
    StepKeepsDuration(Exec(Start(durations), run[..n]), run[n], i);
    if k < n {
      assert run[..n][..k] == run[..k];
      KeepsDeadline(durations, run[..n], k, i);
    } else {
      KeepsDuration(durations, run[..n], i);
    }
  }

  /**
   * A sleep lasts as long as it was asked to, counted from its first poll: in every run its later polls give Ready exactly
   * from that instant on, and its waker is not called before.
   */
  lemma SleepsFor(durations: seq<nat>, run: seq<Step>, k: nat, i: SleepId)
    requires i < |durations| && BeginsAt(durations, run, k, i)
    ensures
      var s := Exec(Start(durations), run);
      var due := Exec(Start(durations), run[..k]).clock + durations[i];
      && (PollReady(s, i) <==> s.clock >= due)
      && (s.sleeps[i].fired > 0 ==> s.clock >= due)
  {
    KeepsDeadline(durations, run, k, i);
    TimerIsSafe(durations, run, i);
  }

  /** A sleep that was never polled has not begun. */
  lemma {:induction false} UnpolledIsNew(durations: seq<nat>, run: seq<Step>, i: SleepId)
    requires i < |durations|
    ensures Exec(Start(durations), run).sleeps[i].stage.New? <==> forall k: nat :: !BeginsAt(durations, run, k, i)
  {
    if run != [] {
      var n := |run| - 1;
      UnpolledIsNew(durations, run[..n], i);
      StepKeepsDuration(Exec(Start(durations), run[..n]), run[n], i);
      assert forall k: nat :: k < n ==> run[..n][..k] == run[..k];
      assert forall k: nat :: k < n ==> (BeginsAt(durations, run, k, i) <==> BeginsAt(durations, run[..n], k, i));
      assert forall k: nat :: BeginsAt(durations, run, k, i) ==> k <= n;
      assert BeginsAt(durations, run, n, i) <==> run[n] == Stamp(i) && Exec(Start(durations), run[..n]).sleeps[i].stage.New?;
    }
  }

  // ----- the timer waits no longer than it has to -----

  predicate HasPushed(s: State, i: SleepId) {
    i < |s.sleeps| && (s.sleeps[i].stage.Pushed? || s.sleeps[i].stage.Notified?)
  }

  /** How the timer comes to a deadline, to a timeout, and to its wait: by its own steps, from one to the next. */
  ghost predicate Leads(s: State, step: Step, r: State) {
    && (r.pc.TClock? ==>
          || r.pc == s.pc
          || (step.Run? && s.pc == TPeek && s.heap != [] && r.pc.due == Earliest(s.heap)))
    && (r.pc.TLocked? ==>
          || r.pc == s.pc
          || (step.Run? && s.pc == TPeek && s.heap == [] && r.pc.timeout == None)
          || (step.Run? && s.pc.TClock? && s.clock < s.pc.due && r.pc.timeout == Some(s.pc.due - s.clock)))
    && (r.pc.TWaiting? ==>
          || r.pc == s.pc
          || (step.Run? && s.pc.TLocked?
              && r.pc.end == if s.pc.timeout.Some? then Some(s.clock + s.pc.timeout.value) else None))
  }

  /** How entries come to the heap, and how the timer is notified of them. */
  ghost predicate Brings(s: State, step: Step, r: State) {
    && (forall e :: e in r.heap && e !in s.heap ==> step == Push(e.sleep) && !HasPushed(s, e.sleep) && HasPushed(r, e.sleep))
    && (forall i: nat :: HasPushed(s, i) ==>
          && HasPushed(r, i)
          && (r.sleeps[i].stage.Notified? ==> s.sleeps[i].stage.Notified? || (step == Notify(i) && !r.pc.TWaiting?)))
    && (forall i: nat :: !HasPushed(s, i) && HasPushed(r, i) ==> r.sleeps[i].stage.Pushed?)
  }

  lemma StepLeads(s: State, step: Step)
    ensures Leads(s, step, Apply(s, step))
  {
  }

  lemma StepBrings(s: State, step: Step)
    ensures Brings(s, step, Apply(s, step))
  {
  }

  /** `at` has the states of a run that begins with a look at the heap. */
  ghost predicate Trace(at: nat -> State, run: seq<Step>) {
    && at(0).pc == TPeek
    && (forall n: nat :: n < |run| ==> Leads(at(n), run[n], at(n + 1)) && Brings(at(n), run[n], at(n + 1)))
  }

  /** At step `j` the timer looks at the heap; it has not looked again by step `n`. */
  ghost predicate LastLook(at: nat -> State, run: seq<Step>, n: nat, j: nat) {
    && j < n <= |run| && run[j].Run? && at(j).pc == TPeek
    && forall x: nat :: j < x < n ==> at(x).pc != TPeek
  }

  /** At step `k` the timer reads the clock, and finds the deadline of its last look still to come. */
  ghost predicate ReadsClock(at: nat -> State, run: seq<Step>, k: nat, due: Instant) {
    k < |run| && run[k].Run? && at(k).pc == TClock(due) && at(k).clock < due
  }

  /** At step `l` the timer begins to wait, and it has not stopped by step `n`. */
  ghost predicate WaitsSince(at: nat -> State, run: seq<Step>, n: nat, l: nat) {
    && l < n <= |run| && run[l].Run? && at(l).pc.TLocked?
    && forall x: nat :: l < x <= n ==> at(x).pc.TWaiting?
  }

  lemma {:induction false} HasLooked(at: nat -> State, run: seq<Step>, n: nat) returns (j: nat)
    requires Trace(at, run) && n <= |run| && at(n).pc.TClock?
    ensures LastLook(at, run, n, j) && at(j).heap != [] && at(n).pc.due == Earliest(at(j).heap)
    decreases n
  {
    assert n > 0;
    assert Leads(at(n - 1), run[n - 1], at(n));
    if at(n - 1).pc.TPeek? {
      j := n - 1;
    } else {
      j := HasLooked(at, run, n - 1);
    }
  }

  /** What the timeout of the timer is when it is about to wait. */
  ghost predicate TimeoutFrom(at: nat -> State, run: seq<Step>, n: nat, j: nat, k: nat, timeout: Option<nat>) {
    && LastLook(at, run, n, j)
    && if at(j).heap == [] then timeout == None
       else
         var due := Earliest(at(j).heap);
         j < k < n && ReadsClock(at, run, k, due) && timeout == Some(due - at(k).clock)
  }

  lemma {:induction false} HasTimeout(at: nat -> State, run: seq<Step>, n: nat) returns (j: nat, k: nat)
    requires Trace(at, run) && n <= |run| && at(n).pc.TLocked?
    ensures TimeoutFrom(at, run, n, j, k, at(n).pc.timeout)
    decreases n
  {
    assert n > 0;
    assert Leads(at(n - 1), run[n - 1], at(n));
    if at(n - 1).pc.TClock? {
      k := n - 1;
      j := HasLooked(at, run, n - 1);
    } else if at(n - 1).pc.TPeek? {
      j, k := n - 1, 0;
    } else {
      j, k := HasTimeout(at, run, n - 1);
    }
  }

  lemma {:induction false} HasWaited(at: nat -> State, run: seq<Step>, n: nat) returns (j: nat, k: nat, l: nat)
    requires Trace(at, run) && n <= |run| && at(n).pc.TWaiting?
    ensures LastLook(at, run, n, j) && WaitsSince(at, run, n, l) && TimeoutFrom(at, run, l, j, k, at(l).pc.timeout)
    ensures at(n).pc.end == if at(l).pc.timeout.Some? then Some(at(l).clock + at(l).pc.timeout.value) else None
    decreases n
  {
    assert n > 0;
    assert Leads(at(n - 1), run[n - 1], at(n));
    if at(n - 1).pc.TLocked? {
      j, k := HasTimeout(at, run, n - 1);
      l := n - 1;
    } else {
      j, k, l := HasWaited(at, run, n - 1);
    }
  }

  /** The states of a run, one after each of its steps. */
  ghost function States(s: State, run: seq<Step>): nat -> State {
    (n: nat) => if n <= |run| then Exec(s, run[..n]) else s
  }

  lemma StatesTrace(s: State, run: seq<Step>)
    requires s.pc == TPeek
    ensures Trace(States(s, run), run)
  {
    forall n: nat | n < |run|
      ensures Leads(States(s, run)(n), run[n], States(s, run)(n + 1)) && Brings(States(s, run)(n), run[n], States(s, run)(n + 1))
    {
      assert run[..n + 1][..n] == run[..n];
      StepLeads(Exec(s, run[..n]), run[n]);
      StepBrings(Exec(s, run[..n]), run[n]);
    }
  }

  /**
   * When the timer waits, it does so without end if it found the heap empty at its last look. Otherwise the end is the earliest
   * deadline that it found, later only by the time that went by between its reading of the clock, before that deadline,
   * and its going to wait.
   */
  ghost predicate WaitOk(at: nat -> State, run: seq<Step>, n: nat, j: nat, k: nat, l: nat) {
    && LastLook(at, run, n, j) && WaitsSince(at, run, n, l) && j < l
    && if at(j).heap == [] then at(n).pc == TWaiting(None)
       else
         var due := Earliest(at(j).heap);
         j < k < l && ReadsClock(at, run, k, due) && at(n).pc == TWaiting(Some(due + at(l).clock - at(k).clock))
  }

  lemma WaitsUntilDue(durations: seq<nat>, run: seq<Step>, at: nat -> State) returns (j: nat, k: nat, l: nat)
    requires at == States(Start(durations), run) && at(|run|).pc.TWaiting?
    ensures WaitOk(at, run, |run|, j, k, l)
  {
    StatesTrace(Start(durations), run);
    j, k, l := HasWaited(at, run, |run|);
    TimeoutIsWait(at, run, |run|, j, k, l);
  }

  lemma TimeoutIsWait(at: nat -> State, run: seq<Step>, n: nat, j: nat, k: nat, l: nat)
    requires LastLook(at, run, n, j) && WaitsSince(at, run, n, l) && TimeoutFrom(at, run, l, j, k, at(l).pc.timeout)
    requires at(n).pc.end == if at(l).pc.timeout.Some? then Some(at(l).clock + at(l).pc.timeout.value) else None
    ensures WaitOk(at, run, n, j, k, l)
  {
    assert at(n).pc.TWaiting?;
  }

  /** The entry was pushed after step `j`. */
  lemma {:induction false} WasPushed(at: nat -> State, run: seq<Step>, n: nat, j: nat, e: Entry) returns (x: nat)
    requires Trace(at, run) && j <= n <= |run| && e in at(n).heap && e !in at(j).heap
    ensures j <= x < n && run[x] == Push(e.sleep)
    ensures !HasPushed(at(x), e.sleep) && HasPushed(at(n), e.sleep)
    decreases n
  {
    assert Brings(at(n - 1), run[n - 1], at(n));
    if e in at(n - 1).heap {
      x := WasPushed(at, run, n - 1, j, e);
    } else {
      x := n - 1;
    }
  }

  /** The timer was notified of the entry after step `x`, and did not wait then any more. */
  lemma {:induction false} WasNotified(at: nat -> State, run: seq<Step>, n: nat, x: nat, i: SleepId) returns (y: nat)
    requires Trace(at, run) && x <= n <= |run| && !HasPushed(at(x), i)
    requires HasPushed(at(n), i) && at(n).sleeps[i].stage.Notified?
    ensures x < y < n && run[y] == Notify(i) && !at(y + 1).pc.TWaiting?
    decreases n
  {
    assert Brings(at(n - 1), run[n - 1], at(n));
    assert HasPushed(at(n - 1), i);
    if at(n - 1).sleeps[i].stage.Notified? {
      y := WasNotified(at, run, n - 1, x, i);
    } else {
      y := n - 1;
    }
  }

  /**
   * A waiting timer passes over an entry only if the entry was pushed after its last look, and the notification of it
   * is still owed, or came before the timer began to wait.
   */
  lemma PassesOverNew(durations: seq<nat>, run: seq<Step>, at: nat -> State, j: nat, l: nat, e: Entry) returns (x: nat)
    requires at == States(Start(durations), run) && LastLook(at, run, |run|, j) && WaitsSince(at, run, |run|, l)
    requires e in at(|run|).heap && e !in at(j).heap
    ensures j < x < |run| && run[x] == Push(e.sleep) && HasPushed(at(|run|), e.sleep)
    ensures at(|run|).sleeps[e.sleep].stage.Pushed? || exists y: nat :: x < y < l && run[y] == Notify(e.sleep)
  {
    StatesTrace(Start(durations), run);
    x := WasPushed(at, run, |run|, j, e);
    if at(|run|).sleeps[e.sleep].stage.Notified? {
      var y := WasNotified(at, run, |run|, x, e.sleep);
      assert y + 1 <= l;
    }
  }

  /** Four steps of the timer call the waker of an entry that is due and earliest. */
  lemma FiresOne(s: State, pick: nat) returns (run: seq<Step>)
    requires s.pc == TPeek && pick < |s.heap| && IsMax(s.heap, pick) && s.heap[pick].when <= s.clock
    requires s.heap[pick].sleep < |s.sleeps|
    ensures |run| == 4 && (forall k :: 0 <= k < |run| ==> run[k].Run?)
    ensures
      var me := s.sleeps[s.heap[pick].sleep];
      Exec(s, run) == s.(heap := s.heap[..pick] + s.heap[pick + 1..],
                         sleeps := s.sleeps[s.heap[pick].sleep := me.(fired := me.fired + 1)])
  {
    var k :| 0 <= k < |s.heap| && s.heap[k].when == Earliest(s.heap);
    assert Compare(s.heap[pick], s.heap[k]) >= 0;
    run := Append(s, [], Run(0));
    run := Append(s, run, Run(0));
    run := Append(s, run, Run(pick));
    run := Append(s, run, Run(0));
  }

  lemma {:induction false} ExecJoins(s: State, a: seq<Step>, b: seq<Step>)
    ensures Exec(s, a + b) == Exec(Exec(s, a), b)
    decreases |b|
  {
    if b == [] {
      assert a + b == a;
    } else {
      var front := b[..|b| - 1];
      ExecJoins(s, a, front);
      assert (a + b)[..|a + b| - 1] == a + front;
    }
  }

  lemma SomeIsMax(heap: seq<Entry>) returns (pick: nat)
    requires heap != []
    ensures pick < |heap| && IsMax(heap, pick)
  {
    var first := Earliest(heap);
    pick :| 0 <= pick < |heap| && heap[pick].when == first;
    assert forall j :: 0 <= j < |heap| ==> Compare(heap[pick], heap[j]) >= 0;
  }

  /** The sleep has pushed its entry, and the deadline has come. */
  predicate IsDue(s: State, i: SleepId) {
    HasPushed(s, i) && s.sleeps[i].when <= s.clock
  }

  /** Without a due entry on the heap, exactly the sleeps that are due have been called. */
  lemma NoneDueIsCalled(s: State)
    requires Good(s) && s.pc == TPeek && forall k :: 0 <= k < |s.heap| ==> s.heap[k].when > s.clock
    ensures forall i: nat :: i < |s.sleeps| ==> s.sleeps[i].fired == if IsDue(s, i) then 1 else 0
  {
    forall i: nat | i < |s.sleeps| ensures s.sleeps[i].fired == if IsDue(s, i) then 1 else 0 {
      assert SleepOk(s, i);
      var e := Entry(s.sleeps[i].when, i);
      if e in multiset(Entries(s)) {
        assert e in s.heap;
      }
    }
  }

  /** What the timer gets done alone: from its look at the heap on, it calls exactly the sleeps that are due. */
  lemma {:induction false} CallsAllDue(s: State) returns (run: seq<Step>)
    requires Good(s) && s.pc == TPeek
    ensures (forall k :: 0 <= k < |run| ==> run[k].Run?) && |run| <= 4 * |s.heap|
    ensures
      var r := Exec(s, run);
      && r.pc == TPeek && r.clock == s.clock && |r.sleeps| == |s.sleeps|
      && forall i: nat :: i < |s.sleeps| ==>
           r.sleeps[i] == s.sleeps[i].(fired := if IsDue(s, i) then 1 else 0)
    decreases |s.heap|
  {
    if s.heap == [] || Earliest(s.heap) > s.clock {
      run := [];
      NoneDueIsCalled(s);
    } else {
      var pick := SomeIsMax(s.heap);
      assert EntryOk(s, s.heap[pick]) by {
        assert s.heap[pick] in multiset(Entries(s));
      }
      var k :| 0 <= k < |s.heap| && s.heap[k].when == Earliest(s.heap);
      assert Compare(s.heap[pick], s.heap[k]) >= 0;
      var first := FiresOne(s, pick);
      RunGood(s, first);
      var next := Exec(s, first);
      var rest := CallsAllDue(next);
      forall i: nat | i < |s.sleeps|
        ensures Exec(next, rest).sleeps[i] == s.sleeps[i].(fired := if IsDue(s, i) then 1 else 0)
      {
        assert IsDue(next, i) <==> IsDue(s, i);
      }
      ExecJoins(s, first, rest);
      run := first + rest;
    }
  }

  /** And from the end of its wait on. */
  lemma CallsAllDueAfterWait(s: State) returns (run: seq<Step>)
    requires Good(s) && s.pc.TWaiting? && s.pc.end.Some? && s.pc.end.value <= s.clock
    ensures (forall k :: 0 <= k < |run| ==> run[k].Run?) && |run| <= 4 * |s.heap| + 1
    ensures
      var r := Exec(s, run);
      && r.pc == TPeek && r.clock == s.clock && |r.sleeps| == |s.sleeps|
      && forall i: nat :: i < |s.sleeps| ==> r.sleeps[i] == s.sleeps[i].(fired := if IsDue(s, i) then 1 else 0)
  {
    var first := Append(s, [], Run(0));
    RunGood(s, first);
    var next := Exec(s, first);
    assert next == s.(pc := TPeek);
    var rest := CallsAllDue(next);
    assert forall i: nat :: IsDue(next, i) <==> IsDue(s, i);
    ExecJoins(s, first, rest);
    run := first + rest;
  }

  // ----- and sometimes the timer oversleeps -----

  /** Somebody has pushed an entry and not notified the timer yet. */
  ghost predicate Owes(s: State) {
    exists i: nat :: i < |s.sleeps| && s.sleeps[i].stage.Pushed?
  }

  /** The timer goes to wait, or waits, with no timeout, only if there is nothing to wait for, or a call is owed. */
  ghost predicate Awake(s: State) {
    s.pc == TLocked(None) || s.pc == TWaiting(None) ==> s.heap == [] || Owes(s)
  }

  /** The last notification that is owed comes when the timer has found the heap empty, and does not wait yet. */
  ghost predicate NotifyIsLost(s: State, step: Step) {
    && step.Notify? && step.i < |s.sleeps| && s.sleeps[step.i].stage.Pushed?
    && s.pc == TLocked(None) && s.heap != [] && !Owes(Apply(s, step))
  }

  lemma StepAwake(s: State, step: Step)
    requires Awake(s)
    ensures Awake(Apply(s, step)) <==> !NotifyIsLost(s, step)
  {
    var r := Apply(s, step);
    if !step.Notify? && Owes(s) {
      var i: nat :| i < |s.sleeps| && s.sleeps[i].stage.Pushed?;
      assert r.sleeps[i].stage.Pushed?;
    }
    if step.Push? && step.i < |s.sleeps| && s.sleeps[step.i].stage.Stamped? {
      assert r.sleeps[step.i].stage.Pushed?;
    }
  }

  ghost predicate NoneLost(s: State, run: seq<Step>) {
    forall k :: 0 <= k < |run| ==> !NotifyIsLost(Exec(s, run[..k]), run[k])
  }

  /** In a run that loses no notification the timer never waits without end while there is an entry. */
  lemma {:induction false} TimerStaysAwake(s: State, run: seq<Step>)
    requires Awake(s) && NoneLost(s, run)
    ensures Awake(Exec(s, run))
  {
    if run != [] {
      var n := |run| - 1;
      assert forall k :: 0 <= k < n ==> run[..n][..k] == run[..k];
      TimerStaysAwake(s, run[..n]);
      assert !NotifyIsLost(Exec(s, run[..n]), run[n]);
      StepAwake(Exec(s, run[..n]), run[n]);
    }
  }

  /** The timer waits without end, although there is an entry. */
  predicate Oversleeps(s: State) {
    s.pc == TWaiting(None) && s.heap != []
  }

  /** It goes on to, and calls nobody, however late it gets, until a later sleep notifies it. */
  lemma {:induction false} OversleepsOn(s: State, run: seq<Step>)
    requires Oversleeps(s) && forall k :: 0 <= k < |run| ==> !run[k].Spurious? && !run[k].Notify?
    ensures Oversleeps(Exec(s, run))
    ensures forall i :: 0 <= i < |s.sleeps| ==> Exec(s, run).sleeps[i].fired == s.sleeps[i].fired
  {
    if run != [] {
      OversleepsOn(s, run[..|run| - 1]);
    }
  }

  /** Such a run exists: the timer finds the heap empty; an entry is pushed and notified; only then the timer waits. */
  lemma TimerOversleeps(duration: nat) returns (run: seq<Step>)
    ensures
      var s := Exec(Start([duration]), run);
      Oversleeps(s) && !Owes(s) && s.sleeps[0].stage.Notified? && s.sleeps[0].fired == 0
  {
    var s0 := Start([duration]);
    run := Append(s0, [], Run(0));
    run := Append(s0, run, Stamp(0));
    run := Append(s0, run, Push(0));
    run := Append(s0, run, Notify(0));
    run := Append(s0, run, Run(0));
  }

  lemma Append(s: State, run: seq<Step>, step: Step) returns (longer: seq<Step>)
    ensures longer == run + [step] && Exec(s, longer) == Apply(Exec(s, run), step)
  {
    longer := run + [step];
    assert longer[..|longer| - 1] == run;
  }
}
