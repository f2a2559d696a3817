/** The signal: a flag that `wait` consumes, and the wakers that `wake` calls; and threads that await it. */
module Signals {
  type WakerId = nat

  datatype SignalState = SignalState(ready: bool, wakers: seq<WakerId>)

  function Woken(s: SignalState): SignalState {
    SignalState(true, [])
  }

  /** A future registers its waker at its first poll only, and only if that poll finds the flag down. */
  function Polled(s: SignalState, started: bool, waker: WakerId): SignalState {
    if s.ready || started then s else s.(wakers := s.wakers + [waker])
  }

  class Signal {
    var ready: bool
    var wakers: seq<WakerId>

    ghost function Now(): SignalState
      reads this
    {
      SignalState(ready, wakers)
    }

    constructor ()
      ensures !ready && wakers == []
    {
      ready, wakers := false, [];
    }

    /** Sets the flag, and calls all wakers, in the order in which they registered. */
    method Wake() returns (called: seq<WakerId>)
      modifies this
      ensures ready && wakers == [] && called == old(wakers)
    {
      ready := true;
      called := [];
      while wakers != []
        invariant called + wakers == old(wakers) && ready
        decreases |wakers|
      {
        called := called + [wakers[0]];
        wakers := wakers[1..];
      }
    }

    /** One turn of the loop of `wait`: with the flag up it is taken down, and `wait` returns. */
    method WaitTurn() returns (done: bool)
      modifies `ready
      ensures done == old(ready) && !ready
    {
      done := ready;
      ready := false;
    }
  }

  /** What `wait_async` awaits. */
  class SignalFuture {
    const signal: Signal
    var started: bool

    constructor (signal: Signal)
      ensures this.signal == signal && !started
    {
      this.signal := signal;
      started := false;
    }

    method Poll(waker: WakerId) returns (done: bool)
      modifies `started, signal`wakers
      ensures done == signal.ready
      ensures signal.wakers == old(signal.wakers) + (if done || old(started) then [] else [waker])
      ensures started == (old(started) || !done)
      ensures signal.Now() == Polled(old(signal.Now()), old(started), waker)
    {
      if signal.ready {
        return true;
      }
      if !started {
        started := true;
        signal.wakers := signal.wakers + [waker];
      }
      return false;
    }
  }

  // ----- threads that await a signal -----

  /*
   * Each waiter polls `signal.wait_async()` on a shared signal, and parks on a signal of its own in between, which its
   * waker sets: `await_sync` does, and a worker does for all futures that it holds, so that any of them, and any task
   * sent to it, has it poll all of them again. `wake` holds the lock of the shared flag while it calls the wakers.
   */

  datatype Pc = Polling | Parked | Finished

  /** A waiting thread: has its future registered itself, and the flag of its own signal. */
  datatype Waiter = Waiter(pc: Pc, started: bool, flag: bool)

  /** `calling` has the wakers that the thread inside `wake` still has to call; it is None when nobody is inside. */
  datatype Calling = Nobody | Caller(rest: seq<WakerId>)

  datatype State = State(signal: SignalState, calling: Calling, waiters: seq<Waiter>)

  /**
   * `Nudge` sets the own signal of a waiter for any other reason than the shared signal. `Consume` is a `wait` on the
   * shared signal itself that finds the flag up, and takes it down.
   */
  datatype Step = Poll(i: nat) | Resume(i: nat) | Nudge(i: nat) | WakeStart | WakeCall | WakeEnd | Consume

  function PollStep(s: State, i: nat): State
    requires i < |s.waiters|
  {
    var me := s.waiters[i];
    if s.signal.ready then s.(waiters := s.waiters[i := me.(pc := Finished)])
    else s.(signal := Polled(s.signal, me.started, i), waiters := s.waiters[i := me.(pc := Parked, started := true)])
  }

  /** A step that is not enabled changes nothing. Spurious wake-ups of a parked thread change nothing either. */
  function Apply(s: State, step: Step): (r: State)
    ensures |r.waiters| == |s.waiters|
  {
    match step
    case Poll(i) =>
      if i < |s.waiters| && s.waiters[i].pc.Polling? && s.calling.Nobody? then PollStep(s, i) else s
    case Resume(i) =>
      if i < |s.waiters| && s.waiters[i].pc.Parked? && s.waiters[i].flag then
        s.(waiters := s.waiters[i := s.waiters[i].(pc := Polling, flag := false)])
      else s
    case Nudge(i) =>
      if i < |s.waiters| then s.(waiters := s.waiters[i := s.waiters[i].(flag := true)]) else s
    case WakeStart =>
      if s.calling.Nobody? then s.(signal := Woken(s.signal), calling := Caller(s.signal.wakers)) else s
    case WakeCall =>
      if s.calling.Caller? && s.calling.rest != [] then
        var i := s.calling.rest[0];
        var s1 := s.(calling := Caller(s.calling.rest[1..]));
        if i < |s.waiters| then s1.(waiters := s.waiters[i := s.waiters[i].(flag := true)]) else s1
      else s
    case WakeEnd => if s.calling == Caller([]) then s.(calling := Nobody) else s
    case Consume =>
      if s.calling.Nobody? && s.signal.ready then s.(signal := s.signal.(ready := false)) else s
  }

  function Start(n: nat): State {
    State(SignalState(false, []), Nobody, seq(n, i => Waiter(Polling, false, false)))
  }

  function Exec(s: State, run: seq<Step>): (r: State)
    ensures |r.waiters| == |s.waiters|
  {
    if run == [] then s else Apply(Exec(s, run[..|run| - 1]), run[|run| - 1])
  }

  // ----- nobody is stranded -----

  /** The wakers that a call of `wake`, the next or the one under way, will call. */
  function Registered(s: State): seq<WakerId> {
    s.signal.wakers + (if s.calling.Caller? then s.calling.rest else [])
  }

  /** The thread has registered its waker, the waker has been called, and the future has not been polled since. */
  predicate Between(s: State, i: nat)
    requires i < |s.waiters|
  {
    s.waiters[i].started && !s.waiters[i].pc.Finished? && i !in Registered(s)
  }

  /** No thread is stranded: one that is between call and poll can get to its poll, which finds the flag up. */
  ghost predicate WaiterOk(s: State, i: nat)
    requires i < |s.waiters|
  {
    var me := s.waiters[i];
    && (i in Registered(s) ==> me.started && !me.pc.Finished?)
    && (me.pc.Parked? ==> me.started)
    && (Between(s, i) ==> s.signal.ready && (me.pc.Parked? ==> me.flag))
  }

  ghost predicate Good(s: State) {
    && (s.signal.ready ==> s.signal.wakers == [])
    && (s.calling.Caller? ==> s.signal.ready)
    && (forall j, k :: 0 <= j < k < |Registered(s)| ==> Registered(s)[j] != Registered(s)[k])
    && (forall i :: i in Registered(s) ==> i < |s.waiters|)
    && (forall i: nat :: i < |s.waiters| ==> WaiterOk(s, i))
  }

  /** The flag is consumed while some thread is between call and poll. */
  ghost predicate Robs(s: State, step: Step) {
    step.Consume? && s.calling.Nobody? && s.signal.ready && exists i: nat :: i < |s.waiters| && Between(s, i)
  }

  lemma PollGood(s: State, i: nat)
    requires Good(s) && i < |s.waiters| && s.waiters[i].pc.Polling? && s.calling.Nobody?
    ensures Good(PollStep(s, i))
  {
    var r := PollStep(s, i);
    assert WaiterOk(s, i);
    assert s.signal.ready || s.waiters[i].started || Registered(r) == Registered(s) + [i];
    forall j: nat | j < |r.waiters| ensures WaiterOk(r, j) {
      assert WaiterOk(s, j);
    }
  }

  lemma CallGood(s: State)
    requires Good(s) && s.calling.Caller? && s.calling.rest != []
    ensures Good(Apply(s, WakeCall))
  {
    var r := Apply(s, WakeCall);
    var rest := s.calling.rest;
    assert Registered(s) == rest && Registered(r) == rest[1..];
    FirstOnly(rest);
    assert WaiterOk(s, rest[0]);
    forall j: nat | j < |r.waiters| ensures WaiterOk(r, j) {
      assert WaiterOk(s, j);
      assert j in rest <==> j == rest[0] || j in rest[1..];
    }
  }

  lemma FirstOnly(rest: seq<WakerId>)
    requires rest != [] && forall j, k :: 0 <= j < k < |rest| ==> rest[j] != rest[k]
    ensures rest[0] in rest && rest[0] !in rest[1..]
    ensures forall j, k :: 0 <= j < k < |rest[1..]| ==> rest[1..][j] != rest[1..][k]
    ensures forall j :: j in rest <==> j == rest[0] || j in rest[1..]
  {
    assert rest == [rest[0]] + rest[1..];
  }

  lemma OtherGood(s: State, step: Step)
    requires Good(s) && (step.Resume? || step.Nudge? || step.WakeStart? || step.WakeEnd?)
    ensures Good(Apply(s, step))
  {
    var r := Apply(s, step);
    assert step.Resume? || step.Nudge? || Registered(r) == Registered(s);
    forall j: nat | j < |r.waiters| ensures WaiterOk(r, j) {
      assert WaiterOk(s, j);
    }
  }

  lemma ConsumeGood(s: State)
    requires Good(s)
    ensures Good(Apply(s, Consume)) <==> !Robs(s, Consume)
  {
    var r := Apply(s, Consume);
    assert Registered(r) == Registered(s);
    if Robs(s, Consume) {
      var i: nat :| i < |s.waiters| && Between(s, i);
      assert !WaiterOk(r, i);
    } else {
      forall j: nat | j < |r.waiters| ensures WaiterOk(r, j) {
        assert WaiterOk(s, j) && (r.signal.ready || r == s || !Between(s, j));
      }
    }
  }

  /** Every step keeps all threads from being stranded, except a consumption of the flag at the wrong moment. */
  lemma StepGood(s: State, step: Step)
    requires Good(s)
    ensures Good(Apply(s, step)) <==> !Robs(s, step)
  {
    match step
    case Poll(i) =>
      if i < |s.waiters| && s.waiters[i].pc.Polling? && s.calling.Nobody? {
        PollGood(s, i);
      }
    case WakeCall =>
      if s.calling.Caller? && s.calling.rest != [] {
        CallGood(s);
      }
    case Consume =>
      ConsumeGood(s);
    case _ => OtherGood(s, step);
  }

  /** No consumption in the run robs a thread. */
  ghost predicate Harmless(s: State, run: seq<Step>) {
    forall k :: 0 <= k < |run| ==> !Robs(Exec(s, run[..k]), run[k])
  }

  lemma {:induction false} RunGood(s: State, run: seq<Step>)
    requires Good(s) && Harmless(s, run)
    ensures Good(Exec(s, run))
  {
    if run != [] {
      var n := |run| - 1;
      assert forall k :: 0 <= k < n ==> run[..n][..k] == run[..k];
      RunGood(s, run[..n]);
      assert !Robs(Exec(s, run[..n]), run[n]);
      StepGood(Exec(s, run[..n]), run[n]);
    }
  }

  /** Nobody registers while a `wake` is under way. */
  ghost predicate InLine(s: State) {
    && (s.calling.Caller? ==> s.signal.wakers == [])
    && (forall i :: i in Registered(s) ==> i < |s.waiters|)
  }

  /** What a step does to those who are registered: the line is joined at its end, and called from its front. */
  ghost predicate Serves(s: State, step: Step, r: State) {
    var line, next := Registered(s), Registered(r);
    || next == line
    || (step.Poll? && step.i < |s.waiters| && !s.waiters[step.i].started && next == line + [step.i])
    || (step.WakeCall? && line != [] && next == line[1..] && line[0] < |r.waiters| && r.waiters[line[0]].flag)
  }

  lemma CallServes(s: State)
    requires InLine(s) && s.calling.Caller? && s.calling.rest != []
    ensures InLine(Apply(s, WakeCall)) && Serves(s, WakeCall, Apply(s, WakeCall))
  {
    var line := s.calling.rest;
    assert Registered(s) == line && Registered(Apply(s, WakeCall)) == line[1..];
    assert line[0] in Registered(s);
    assert forall i :: i in line[1..] ==> i in line;
  }

  lemma StepServes(s: State, step: Step)
    requires InLine(s)
    ensures InLine(Apply(s, step)) && Serves(s, step, Apply(s, step))
  {
    var r := Apply(s, step);
    if step.WakeCall? && s.calling.Caller? && s.calling.rest != [] {
      CallServes(s);
    } else if step.Poll? && r.signal != s.signal {
      assert Registered(r) == Registered(s) + [step.i];
    } else {
      assert Registered(r) == Registered(s);
    }
  }

  /**
   * First come, first served, in every run, whatever is consumed: a step leaves those who are registered alone, or lets a polling
   * thread join them at the end, or calls the first of them.
   */
  lemma {:induction false} ServedInTurn(n: nat, run: seq<Step>, step: Step)
    ensures InLine(Exec(Start(n), run)) && Serves(Exec(Start(n), run), step, Apply(Exec(Start(n), run), step))
    decreases |run|
  {
    if run != [] {
      ServedInTurn(n, run[..|run| - 1], run[|run| - 1]);
      StepServes(Exec(Start(n), run[..|run| - 1]), run[|run| - 1]);
    }
    StepServes(Exec(Start(n), run), step);
  }

  /** The thread sleeps, its flag is down, and no `wake` knows of it. */
  predicate Stuck(s: State, i: nat)
    requires i < |s.waiters|
  {
    s.waiters[i].pc.Parked? && s.waiters[i].started && !s.waiters[i].flag && i !in Registered(s)
  }

  /**
   * No stranding, in every run in which no consumption robs anybody, for example because nobody blocks on the signal
   * with `wait`: a waiter asleep with its own flag down is registered. One that has started and is not registered
   * has been called, and finds the shared flag up when it polls again. It may be polled any number of times before.
   */
  lemma NobodyStranded(n: nat, run: seq<Step>, i: nat)
    requires i < n && Harmless(Start(n), run)
    ensures
      var s := Exec(Start(n), run);
      var me := s.waiters[i];
      && !Stuck(s, i)
      && (me.pc.Parked? && !me.flag ==> i in Registered(s))
      && (s.calling.Nobody? && i in Registered(s) ==> !s.signal.ready)
      && (me.started && !me.pc.Finished? && i !in Registered(s) ==> s.signal.ready && (me.pc.Parked? ==> me.flag))
  {
    assert Good(Start(n));
    RunGood(Start(n), run);
    assert WaiterOk(Exec(Start(n), run), i);
  }

  // ----- and somebody is, after a consumption at the wrong moment -----

  lemma StuckStays(s: State, step: Step, i: nat)
    requires i < |s.waiters| && Stuck(s, i) && step != Nudge(i)
    ensures Stuck(Apply(s, step), i)
  {
    var r := Apply(s, step);
    if step.WakeCall? && s.calling.Caller? && s.calling.rest != [] {
      assert Registered(s) == s.signal.wakers + ([s.calling.rest[0]] + s.calling.rest[1..]);
      assert s.calling.rest[0] in Registered(s);
    }
    assert forall x :: x in Registered(r) ==> x in Registered(s) || step == Poll(x);
  }

  /**
   * A stuck waiter stays stuck, whatever anybody does with the shared signal, however often it is woken, until it is
   * nudged for another reason; in a thread of its own, inside `await_sync`, there is no other reason.
   */
  lemma {:induction false} StuckForever(s: State, run: seq<Step>, i: nat)
    requires i < |s.waiters| && Stuck(s, i) && forall k :: 0 <= k < |run| ==> run[k] != Nudge(i)
    ensures Stuck(Exec(s, run), i)
  {
    if run != [] {
      StuckForever(s, run[..|run| - 1], i);
      StuckStays(Exec(s, run[..|run| - 1]), run[|run| - 1], i);
    }
  }

  /** The waiter takes its own next steps: it wakes up if it is to, and polls, and does so once more. */
  function OwnSteps(s: State, i: nat): State {
    Apply(Apply(Apply(Apply(s, Resume(i)), Poll(i)), Resume(i)), Poll(i))
  }

  /** After a consumption robs a waiter, it need only take its own next steps to be stuck. */
  lemma RobbedIsStuck(s: State, i: nat)
    requires Good(s) && s.calling.Nobody? && s.signal.ready && i < |s.waiters| && Between(s, i)
    ensures Robs(s, Consume) && Stuck(OwnSteps(Apply(s, Consume), i), i)
  {
    assert WaiterOk(s, i);
  }

  /** Such a run exists: the only waiter registers and is called, then a `wait` takes the flag before it polls. */
  lemma WaiterCanBeStranded() returns (run: seq<Step>)
    ensures Stuck(Exec(Start(1), run), 0)
  {
    var s0 := Start(1);
    var s1 := Apply(s0, Poll(0));
    var s2 := Apply(s1, WakeStart);
    var s3 := Apply(s2, WakeCall);
    var s4 := Apply(s3, WakeEnd);
    var s5 := Apply(s4, Consume);
    var s6 := Apply(s5, Resume(0));
    var s7 := Apply(s6, Poll(0));
    run := [];
    run := Append(s0, run, Poll(0), s0);
    run := Append(s0, run, WakeStart, s1);
    run := Append(s0, run, WakeCall, s2);
    run := Append(s0, run, WakeEnd, s3);
    run := Append(s0, run, Consume, s4);
    run := Append(s0, run, Resume(0), s5);
    run := Append(s0, run, Poll(0), s6);
  }

  lemma Append(s: State, run: seq<Step>, step: Step, at: State) returns (longer: seq<Step>)
    requires Exec(s, run) == at
    ensures longer == run + [step] && Exec(s, longer) == Apply(at, step)
  {
    longer := run + [step];
    assert longer[..|longer| - 1] == run;
  }
}
