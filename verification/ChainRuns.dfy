/** What links and chains mean when a baked buffer runs on the queue: who ends before whom begins. */
module ChainRuns {
  import opened Tasks
  import opened Memory
  import opened Protocol
  import opened ProtocolInvariant
  import opened RawBuffer
  import opened Baking
  import opened Binding
  import opened Closure
  import Cancels
  import ProtocolProof
  import Results

  // ----- a task begins only with all its semaphores open -----

  /** The task has begun: its future was polled, or it was settled without that. */
  ghost predicate Begun(m: Mem, t: TaskId)
    requires t < |m.hist|
  {
    !m.hist[t].stage.Idle?
  }

  ghost predicate BegunIsReady(c: Config, m: Mem, t: TaskId) {
    t < |c.tasks| == |m.hist| && (Begun(m, t) ==> WaitsReady(c, m, t))
  }

  lemma DispatchBegins(c: Config, s: State, t: TaskId)
    requires Inv(c, s) && t < |c.tasks| && !Begun(s.mem, t) && Begun(DispatchStep(c, s).mem, t)
    ensures WaitsReady(c, s.mem, t)
  {
    assert DOk(c, s.mem, s.d);
  }

  lemma WorkBegins(c: Config, s: State, w: nat, finish: bool, t: TaskId)
    requires Inv(c, s) && w < |s.ws| && t < |c.tasks| && !Begun(s.mem, t) && Begun(WorkStep(c, s, w, finish).mem, t)
    ensures WaitsReady(c, s.mem, t)
  {
    var me := s.ws[w];
    ProtocolProof.FuturesAt(c, s, w);
    assert WOk(c, s.mem, me) && TaskOk(c, s.mem, t);
    if WHolds(me.pc) {
      Cancels.OtherHand(c, s.mem, w, me, finish, t);
    } else {
      PollBegins(c, s.mem, w, me, finish, t);
      assert WList(me)[|me.kept|] == me.todo[0];
    }
  }

  lemma PollBegins(c: Config, m: Mem, w: nat, me: Worker, finish: bool, t: TaskId)
    requires MemShape(c, m) && WShape(c, me) && t < |c.tasks| && !WHolds(me.pc)
    requires !Begun(m, t) && Begun(WorkerStep(c, m, w, me, finish).mem, t)
    ensures me.pc.WNext? && me.todo != [] && me.todo[0] == t
  {
  }

  lemma StepBegins(c: Config, s: State, step: Step, t: TaskId)
    requires Inv(c, s) && BegunIsReady(c, s.mem, t)
    ensures BegunIsReady(c, Apply(c, s, step).mem, t)
  {
    var m' := Apply(c, s, step).mem;
    ProtocolProof.StepInv(c, s, step);
    if Begun(m', t) {
      if !Begun(s.mem, t) {
        if step.Dispatch? {
          DispatchBegins(c, s, t);
        } else if step.Work? {
          WorkBegins(c, s, step.w, step.finish, t);
        } else {
          Results.OutsideHist(c, s, step);
        }
      }
      assert forall i :: 0 <= i < |c.tasks[t].wait| ==> c.tasks[t].wait[i] in s.mem.sems.Keys;
    }
  }

  lemma RunBegins(c: Config, run: seq<Step>, t: TaskId)
    requires ValidConfig(c) && t < |c.tasks|
    ensures BegunIsReady(c, Exec(c, run).mem, t)
  {
    var holds := (s: State) => BegunIsReady(c, s.mem, t);
    forall s: State, step: Step | Inv(c, s) && holds(s) ensures holds(Apply(c, s, step)) {
      StepBegins(c, s, step, t);
    }
    assert Exec(c, []) == Init(c) && [] + run == run;
    ProtocolProof.KeptOnwards(c, [], run, holds);
  }

  /** A task that waits for a semaphore which only `u` carries begins after `u` has ended. */
  lemma WaiterFollows(c: Config, run: seq<Step>, u: TaskId, t: TaskId, i: nat)
    requires ValidConfig(c) && t < |c.tasks| && i < |c.tasks[t].wait| && OnlyIn(c.tasks, c.tasks[t].wait[i], {u})
    requires Begun(Exec(c, run).mem, t)
    ensures u < |c.tasks| && Done(Exec(c, run).mem.hist[u].stage)
  {
    var m := Exec(c, run).mem;
    RunBegins(c, run, t);
    ProtocolProof.RunInv(c, run);
    var x := c.tasks[t].wait[i];
    assert x in m.sems && m.sems[x] < |c.tasks| && x in m.hist[m.sems[x]].fired;
    assert TaskOk(c, m, m.sems[x]);
    assert x in c.tasks[m.sems[x]].semaphores;
  }

  // ----- chains and links -----

  /** The tasks of chain `j`, by their position in creation order. */
  ghost predicate InChain(chains: seq<Chain>, j: nat, t: TaskId)
    requires j < |chains|
  {
    Start(chains, j) <= t < Start(chains, j + 1)
  }

  /** A baked buffer on the queue. */
  ghost predicate OnQueue(c: Config, chains: seq<Chain>, links: seq<Link>, base: SemId) {
    Bakeable(chains, links) && c.tasks == Baked(chains, links, base) && ValidConfig(c)
  }

  lemma EdgeFollows(c: Config, chains: seq<Chain>, links: seq<Link>, base: SemId, run: seq<Step>, e: nat)
    requires OnQueue(c, chains, links, base) && e < |Edges(chains, links)|
    requires
      var Edge(u, t) := Edges(chains, links)[e];
      u < |c.tasks| && t < |c.tasks| && Begun(Exec(c, run).mem, t)
    ensures Done(Exec(c, run).mem.hist[Edges(chains, links)[e].source].stage)
  {
    var Edge(u, t) := Edges(chains, links)[e];
    BakedWellFormed(chains, links, base);
    SourceOnly(chains, links, base, {u}, e);
    var i := WaitsForEdge(chains, links, base, e, t);
    WaiterFollows(c, run, u, t, i);
  }

  lemma ChainWithin(c: Config, chains: seq<Chain>, links: seq<Link>, base: SemId, j: nat, t: TaskId)
    requires OnQueue(c, chains, links, base) && j < |chains| && InChain(chains, j, t)
    ensures t < |c.tasks| == |Flat(chains)|
  {
    BakedWellFormed(chains, links, base);
    StartsGrow(chains, j + 1, |chains|);
  }

  lemma NeighbourFollows(c: Config, chains: seq<Chain>, links: seq<Link>, base: SemId, run: seq<Step>, j: nat, t: TaskId)
    requires OnQueue(c, chains, links, base) && j < |chains| && t > 0 && InChain(chains, j, t) && InChain(chains, j, t - 1)
    requires t < |c.tasks| && Begun(Exec(c, run).mem, t)
    ensures Done(Exec(c, run).mem.hist[t - 1].stage)
  {
    var e := EdgeBetween(chains, links, j, t);
    EdgeFollows(c, chains, links, base, run, e);
  }

  lemma EdgeBetween(chains: seq<Chain>, links: seq<Link>, j: nat, t: TaskId) returns (e: nat)
    requires LinksInBounds(links, |chains|)
    requires j < |chains| && t > 0 && InChain(chains, j, t) && InChain(chains, j, t - 1)
    ensures e < |Edges(chains, links)| && Edges(chains, links)[e] == Edge(t - 1, t)
  {
    e := NeighbourEdge(chains, |chains|, j, t - 1 - Start(chains, j));
    e := |links| + e;
  }

  /** In every run, a task of a chain begins only after all tasks before it in its chain have ended. */
  lemma {:induction false} ChainsRunInOrder(c: Config, chains: seq<Chain>, links: seq<Link>, base: SemId, run: seq<Step>,
                                            j: nat, a: TaskId, b: TaskId)
    requires OnQueue(c, chains, links, base) && j < |chains| && InChain(chains, j, a) && InChain(chains, j, b) && a < b
    requires b < |c.tasks| && Begun(Exec(c, run).mem, b)
    ensures Done(Exec(c, run).mem.hist[a].stage)
    decreases b
  {
    NeighbourFollows(c, chains, links, base, run, j, b);
    if a < b - 1 {
      ChainsRunInOrder(c, chains, links, base, run, j, a, b - 1);
    }
  }

  lemma LinkFollows(c: Config, chains: seq<Chain>, links: seq<Link>, base: SemId, run: seq<Step>, l: nat)
    requires OnQueue(c, chains, links, base) && l < |links| && Flat(chains) != [] && |c.tasks| == |Flat(chains)|
    requires Start(chains, links[l].successor) < |c.tasks| && Begun(Exec(c, run).mem, Start(chains, links[l].successor))
    ensures Start(chains, links[l].dependency + 1) > 0 && Start(chains, links[l].dependency + 1) <= |c.tasks|
    ensures Done(Exec(c, run).mem.hist[Start(chains, links[l].dependency + 1) - 1].stage)
  {
    LastIsLast(chains, links[l].dependency);
    assert Edges(chains, links)[l] == LinkEdge(chains, links[l]);
    EdgeFollows(c, chains, links, base, run, l);
  }

  /**
   * A link says "the chain `dependency` must end before the chain `successor` starts", and in every run of the baked buffer on
   * the queue so it is: a task of the one chain has begun only if all tasks of the other have ended.
   */
  lemma LinksRunInOrder(c: Config, chains: seq<Chain>, links: seq<Link>, base: SemId, run: seq<Step>,
                        l: nat, a: TaskId, b: TaskId)
    requires OnQueue(c, chains, links, base) && l < |links|
    requires InChain(chains, links[l].dependency, a) && InChain(chains, links[l].successor, b)
    requires b < |c.tasks| && Begun(Exec(c, run).mem, b)
    ensures a < |c.tasks| && Done(Exec(c, run).mem.hist[a].stage)
  {
    var Link(d, s) := links[l];
    var m := Exec(c, run).mem;
    ChainWithin(c, chains, links, base, d, a);
    ChainWithin(c, chains, links, base, s, b);
    if Start(chains, s) < b {
      ChainsRunInOrder(c, chains, links, base, run, s, Start(chains, s), b);
    }
    LinkFollows(c, chains, links, base, run, l);
    if a < Start(chains, d + 1) - 1 {
      ChainsRunInOrder(c, chains, links, base, run, d, a, Start(chains, d + 1) - 1);
    }
  }
}
