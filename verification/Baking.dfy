/** What a baked command buffer is: the recorded tasks in creation order, with one semaphore per edge. */
module Baking {
  import opened Tasks
  import opened Binding
  import opened RawBuffer
  import opened Closure

  /** A recording that can be baked: what a `RawCommandBuffer` keeps valid, with links within bounds. */
  ghost predicate Bakeable(chains: seq<Chain>, links: seq<Link>) {
    && NoGaps(chains)
    && (exists open: set<TaskId> :: Recorded(Flat(chains), open))
    && LinksInBounds(links, |chains|)
  }

  /** What `Finish` returns. */
  ghost function Baked(chains: seq<Chain>, links: seq<Link>, base: SemId): seq<Task>
    requires Bakeable(chains, links)
  {
    Bind(Flat(chains), Edges(chains, links), base)
  }

  lemma BakeableBuffer(buffer: RawCommandBuffer)
    requires buffer.Valid() && LinksInBounds(buffer.links, |buffer.chains|)
    ensures Bakeable(buffer.chains, buffer.links)
  {
  }

  // ----- where chains start and end -----

  lemma LastIsLast(chains: seq<Chain>, j: nat)
    requires j < |chains| && NoGaps(chains) && Flat(chains) != []
    ensures Start(chains, j) <= Last(chains, j) == Start(chains, j + 1) - 1 < |Flat(chains)|
  {
    StartsGrow(chains, j + 1, j + 1);
  }

  /** A link goes forward in the list exactly if it goes to a later chain. */
  lemma LinkForward(chains: seq<Chain>, link: Link)
    requires LinkInBounds(link, |chains|) && NoGaps(chains) && Flat(chains) != []
    ensures Within(LinkEdge(chains, link), |Flat(chains)|)
    ensures LinkEdge(chains, link).source < LinkEdge(chains, link).target <==> link.dependency < link.successor
  {
    var Link(e, s) := link;
    LastIsLast(chains, e);
    LastIsLast(chains, s);
    if e < s {
      StartsGrow(chains, e + 1, s);
    } else {
      StartsGrow(chains, s, e);
    }
  }

  /** Every edge goes to the next position. */
  ghost predicate AllSteps(edges: seq<Edge>) {
    forall k :: 0 <= k < |edges| ==> edges[k].target == edges[k].source + 1
  }

  lemma NeighboursStep(n: nat, d: nat)
    ensures AllSteps(Shift(Neighbours(n), d))
  {
    var edges := Shift(Neighbours(n), d);
    forall k | 0 <= k < |edges| ensures edges[k].target == edges[k].source + 1 {
      assert Neighbours(n)[k] == Edge(k, k + 1);
    }
  }

  lemma {:induction false} ChainEdgesForward(chains: seq<Chain>, j: nat)
    requires j <= |chains|
    ensures AllSteps(ChainEdgesTo(chains, j))
    decreases j
  {
    if j > 0 {
      ChainEdgesForward(chains, j - 1);
      NeighboursStep(|chains[j - 1].tasks|, Start(chains, j - 1));
    }
  }

  lemma EdgesWithin(chains: seq<Chain>, links: seq<Link>)
    requires Bakeable(chains, links) && Flat(chains) != []
    ensures AllWithin(Edges(chains, links), |Flat(chains)|)
  {
    ChainEdgesWithin(chains, |chains|);
    forall k | 0 <= k < |links| ensures Within(LinkEdges(chains, links)[k], |Flat(chains)|) {
      LinkForward(chains, links[k]);
    }
  }

  // ----- what is baked -----

  /** Baking keeps the order of creation and the bodies; the baked list is a well-formed list of tasks. */
  lemma BakeKeepsTasks(chains: seq<Chain>, links: seq<Link>, base: SemId, i: nat)
    requires Bakeable(chains, links) && i < |Flat(chains)|
    ensures
      var edges := Edges(chains, links);
      Baked(chains, links, base)[i] ==
      Flat(chains)[i].(wait := Incoming(edges, base, i), semaphores := Outgoing(edges, base, i))
  {
    EdgesWithin(chains, links);
    BindIsLocal(Flat(chains), Edges(chains, links), base, i);
    var open: set<TaskId> :| Recorded(Flat(chains), open);
    assert [] + Incoming(Edges(chains, links), base, i) == Incoming(Edges(chains, links), base, i);
    assert [] + Outgoing(Edges(chains, links), base, i) == Outgoing(Edges(chains, links), base, i);
  }

  lemma BakedWellFormed(chains: seq<Chain>, links: seq<Link>, base: SemId)
    requires Bakeable(chains, links)
    ensures |Baked(chains, links, base)| == |Flat(chains)| && WellFormed(Baked(chains, links, base))
  {
    var b := Baked(chains, links, base);
    var open: set<TaskId> :| Recorded(Flat(chains), open);
    forall i | 0 <= i < |b| ensures b[i].id == i && b[i].body == Flat(chains)[i].body {
      BakeKeepsTasks(chains, links, base, i);
    }
  }

  /**
   * Bake structure: each edge, between neighbours of a chain or from the end of a linked chain to the start of
   * another, has a semaphore of its own, with one signaller and one waiter, bound once each; there are no others.
   */
  lemma OneSemaphorePerEdge(chains: seq<Chain>, links: seq<Link>, base: SemId, i: nat, x: SemId)
    requires Bakeable(chains, links) && i < |Flat(chains)|
    ensures
      var b := Baked(chains, links, base);
      var edges := Edges(chains, links);
      var isEdge := base <= x < base + |edges|;
      && multiset(b[i].wait)[x] == (if isEdge && edges[x - base].target == i then 1 else 0)
      && multiset(b[i].semaphores)[x] == (if isEdge && edges[x - base].source == i then 1 else 0)
  {
    BakeKeepsTasks(chains, links, base, i);
    IncomingOnce(Edges(chains, links), base, i, x);
    OutgoingOnce(Edges(chains, links), base, i, x);
  }

  // ----- when is every dependency on an earlier task -----

  ghost predicate EdgesForward(edges: seq<Edge>) {
    forall k :: 0 <= k < |edges| ==> edges[k].source < edges[k].target
  }

  lemma ForwardIfEdges(chains: seq<Chain>, links: seq<Link>, base: SemId)
    requires Bakeable(chains, links) && Flat(chains) != []
    requires EdgesForward(Edges(chains, links))
    ensures Forward(Baked(chains, links, base))
  {
    var b := Baked(chains, links, base);
    var edges := Edges(chains, links);
    BakedWellFormed(chains, links, base);
    EdgesWithin(chains, links);
    forall t, i | 0 <= t < |b| && 0 <= i < |b[t].wait| ensures SignalledBefore(b, t, b[t].wait[i]) {
      var x := b[t].wait[i];
      OneSemaphorePerEdge(chains, links, base, t, x);
      assert x in multiset(b[t].wait);
      var source := edges[x - base].source;
      assert Within(edges[x - base], |b|);
      OneSemaphorePerEdge(chains, links, base, source, x);
      assert x in multiset(b[source].semaphores);
    }
  }

  lemma EdgesIfForward(chains: seq<Chain>, links: seq<Link>, base: SemId, k: nat)
    requires Bakeable(chains, links) && Flat(chains) != []
    requires Forward(Baked(chains, links, base)) && k < |Edges(chains, links)|
    ensures Edges(chains, links)[k].source < Edges(chains, links)[k].target
  {
    var b := Baked(chains, links, base);
    var edge := Edges(chains, links)[k];
    var x := base + k;
    BakedWellFormed(chains, links, base);
    EdgesWithin(chains, links);
    assert Within(edge, |b|);
    OneSemaphorePerEdge(chains, links, base, edge.target, x);
    assert x in multiset(b[edge.target].wait);
    var i :| 0 <= i < |b[edge.target].wait| && b[edge.target].wait[i] == x;
    assert SignalledBefore(b, edge.target, x);
    var u: TaskId :| u < edge.target && u < |b| && x in b[u].semaphores;
    assert x in multiset(b[u].semaphores);
    OneSemaphorePerEdge(chains, links, base, u, x);
  }

  /** A baked buffer has forward dependencies only, exactly if every link goes from a chain to a later one. */
  lemma BakedIsForward(chains: seq<Chain>, links: seq<Link>, base: SemId)
    requires Bakeable(chains, links)
    ensures
      Forward(Baked(chains, links, base)) <==>
      Flat(chains) == [] || (forall k :: 0 <= k < |links| ==> links[k].dependency < links[k].successor)
  {
    var b := Baked(chains, links, base);
    var edges := Edges(chains, links);
    BakedWellFormed(chains, links, base);
    if Flat(chains) != [] {
      ChainEdgesForward(chains, |chains|);
      forall k | 0 <= k < |links|
        ensures edges[k].source < edges[k].target <==> links[k].dependency < links[k].successor
      {
        LinkForward(chains, links[k]);
      }
      assert edges == LinkEdges(chains, links) + ChainEdgesTo(chains, |chains|);
      assert EdgesForward(edges) <==> forall k :: 0 <= k < |links| ==> edges[k].source < edges[k].target;
      if EdgesForward(edges) {
        ForwardIfEdges(chains, links, base);
      } else if Forward(b) {
        forall k | 0 <= k < |edges| ensures edges[k].source < edges[k].target {
          EdgesIfForward(chains, links, base, k);
        }
      }
    }
  }

  // ----- when does every recorded task run -----

  /** The recorded task cannot start before some task of `k` ends: the one it continues, or one at the source of an edge to it. */
  ghost predicate Follows(chains: seq<Chain>, links: seq<Link>, k: set<TaskId>, t: TaskId)
    requires LinksInBounds(links, |chains|)
  {
    var flat, edges := Flat(chains), Edges(chains, links);
    && t < |flat|
    && ((HasPred(flat[t]) && flat[t].body.pred in k)
        || exists e :: 0 <= e < |edges| && edges[e].target == t && edges[e].source in k)
  }

  /** Links, chains and continuations form a cycle: each of these tasks follows another one of them. */
  ghost predicate Tangle(chains: seq<Chain>, links: seq<Link>, k: set<TaskId>)
    requires LinksInBounds(links, |chains|)
  {
    k != {} && forall t :: t in k ==> Follows(chains, links, k, t)
  }

  ghost predicate Untangled(chains: seq<Chain>, links: seq<Link>)
    requires LinksInBounds(links, |chains|)
  {
    forall k: set<TaskId> :: !Tangle(chains, links, k)
  }

  lemma TiedFollows(chains: seq<Chain>, links: seq<Link>, base: SemId, k: set<TaskId>, t: TaskId)
    requires Bakeable(chains, links) && Tied(Baked(chains, links, base), k, t)
    ensures Follows(chains, links, k, t)
  {
    var b := Baked(chains, links, base);
    var edges := Edges(chains, links);
    BakedWellFormed(chains, links, base);
    BakeKeepsTasks(chains, links, base, t);
    if !(HasPred(b[t]) && b[t].body.pred in k) {
      var i :| 0 <= i < |b[t].wait| && OnlyIn(b, b[t].wait[i], k);
      var x := b[t].wait[i];
      assert x in multiset(b[t].wait);
      OneSemaphorePerEdge(chains, links, base, t, x);
      EdgesWithin(chains, links);
      var source := edges[x - base].source;
      assert Within(edges[x - base], |b|);
      OneSemaphorePerEdge(chains, links, base, source, x);
      assert x in multiset(b[source].semaphores);
    }
  }

  lemma SourceOnly(chains: seq<Chain>, links: seq<Link>, base: SemId, k: set<TaskId>, e: nat)
    requires Bakeable(chains, links) && e < |Edges(chains, links)| && Edges(chains, links)[e].source in k
    ensures OnlyIn(Baked(chains, links, base), base + e, k)
  {
    var b := Baked(chains, links, base);
    BakedWellFormed(chains, links, base);
    forall u: TaskId | u < |b| && base + e in b[u].semaphores ensures u in k {
      assert base + e in multiset(b[u].semaphores);
      OneSemaphorePerEdge(chains, links, base, u, base + e);
    }
  }

  lemma WaitsForEdge(chains: seq<Chain>, links: seq<Link>, base: SemId, e: nat, t: TaskId) returns (i: nat)
    requires Bakeable(chains, links) && t < |Flat(chains)|
    requires e < |Edges(chains, links)| && Edges(chains, links)[e].target == t
    ensures var b := Baked(chains, links, base); |b| == |Flat(chains)| && i < |b[t].wait| && b[t].wait[i] == base + e
  {
    var b := Baked(chains, links, base);
    BakedWellFormed(chains, links, base);
    OneSemaphorePerEdge(chains, links, base, t, base + e);
    assert base + e in multiset(b[t].wait);
    i :| 0 <= i < |b[t].wait| && b[t].wait[i] == base + e;
  }

  lemma FollowsTied(chains: seq<Chain>, links: seq<Link>, base: SemId, k: set<TaskId>, t: TaskId)
    requires Bakeable(chains, links) && Follows(chains, links, k, t)
    ensures Tied(Baked(chains, links, base), k, t)
  {
    var b := Baked(chains, links, base);
    var edges := Edges(chains, links);
    BakedWellFormed(chains, links, base);
    BakeKeepsTasks(chains, links, base, t);
    if !(HasPred(b[t]) && b[t].body.pred in k) {
      var e :| 0 <= e < |edges| && edges[e].target == t && edges[e].source in k;
      SourceOnly(chains, links, base, k, e);
      var i := WaitsForEdge(chains, links, base, e, t);
      assert OnlyIn(b, b[t].wait[i], k);
    }
  }

  /** A tangle of the recording is a knot of the baked list. */
  lemma TangleIsKnot(chains: seq<Chain>, links: seq<Link>, base: SemId, k: set<TaskId>)
    requires Bakeable(chains, links)
    ensures Tangle(chains, links, k) <==> Knot(Baked(chains, links, base), k)
  {
    var b := Baked(chains, links, base);
    if Tangle(chains, links, k) {
      forall t | t in k ensures Tied(b, k, t) {
        FollowsTied(chains, links, base, k, t);
      }
    }
    if Knot(b, k) {
      forall t | t in k ensures Follows(chains, links, k, t) {
        TiedFollows(chains, links, base, k, t);
      }
    }
  }

  /**
   * What the tasks of a baked buffer can get done, whoever runs them: all of it exactly if nothing that was recorded is
   * tangled up.
   */
  lemma {:induction false} AllGetDone(chains: seq<Chain>, links: seq<Link>, base: SemId, given: set<TaskId>, done: set<TaskId>)
    requires Bakeable(chains, links) && Least(Baked(chains, links, base), given, done)
    requires forall t: TaskId :: t < |Flat(chains)| ==> t in given
    ensures (forall t: TaskId :: t < |Flat(chains)| ==> t in done) <==> Untangled(chains, links)
  {
    var b := Baked(chains, links, base);
    BakedWellFormed(chains, links, base);
    NoKnot(b, given, done);
    forall k: set<TaskId> ensures Tangle(chains, links, k) <==> Knot(b, k) {
      TangleIsKnot(chains, links, base, k);
    }
  }

  ghost predicate LinksForward(links: seq<Link>) {
    forall k :: 0 <= k < |links| ==> links[k].dependency < links[k].successor
  }

  /** Links to later chains do not tangle anything up. */
  lemma ForwardIsUntangled(chains: seq<Chain>, links: seq<Link>)
    requires Bakeable(chains, links) && LinksForward(links)
    ensures Untangled(chains, links)
  {
    BakedIsForward(chains, links, 0);
    forall k: set<TaskId> ensures !Tangle(chains, links, k) {
      if Tangle(chains, links, k) {
        TangleIsKnot(chains, links, 0, k);
        var t :| t in k;
        ForwardIsNotTied(Baked(chains, links, 0), k, t);
      }
    }
  }

  /** Neighbours in a chain are the ends of an edge. */
  lemma {:induction false} NeighbourEdge(chains: seq<Chain>, n: nat, j: nat, i: nat) returns (e: nat)
    requires j < n <= |chains| && i + 1 < |chains[j].tasks|
    ensures e < |ChainEdgesTo(chains, n)|
    ensures ChainEdgesTo(chains, n)[e] == Edge(Start(chains, j) + i, Start(chains, j) + i + 1)
    decreases n
  {
    var front := ChainEdgesTo(chains, n - 1);
    var more := Shift(Neighbours(|chains[n - 1].tasks|), Start(chains, n - 1));
    assert ChainEdgesTo(chains, n) == front + more;
    if j == n - 1 {
      e := |front| + i;
      assert Neighbours(|chains[j].tasks|)[i] == Edge(i, i + 1);
      assert more[i] == Edge(i + Start(chains, j), i + 1 + Start(chains, j));
    } else {
      e := NeighbourEdge(chains, n - 1, j, i);
    }
  }

  /** The positions of the tasks of a chain. */
  ghost function Positions(chains: seq<Chain>, j: nat): set<TaskId>
    requires j < |chains|
  {
    UpTo(Start(chains, j + 1)) - UpTo(Start(chains, j))
  }

  /** A link from a chain to itself tangles that chain up, whatever else was recorded. */
  lemma SelfLinkTangles(chains: seq<Chain>, links: seq<Link>, l: nat)
    requires Bakeable(chains, links) && Flat(chains) != []
    requires l < |links| && links[l].dependency == links[l].successor
    ensures Tangle(chains, links, Positions(chains, links[l].dependency))
  {
    var j := links[l].dependency;
    var k := Positions(chains, j);
    var edges := Edges(chains, links);
    LastIsLast(chains, j);
    assert Last(chains, j) in k;
    assert edges[l] == LinkEdge(chains, links[l]);
    forall t | t in k ensures Follows(chains, links, k, t) {
      StartsGrow(chains, j + 1, j + 1);
      if t == Start(chains, j) {
        assert edges[l].target == t && edges[l].source in k;
      } else {
        var i := t - Start(chains, j) - 1;
        var e := NeighbourEdge(chains, |chains|, j, i);
        assert edges[|links| + e] == ChainEdgesTo(chains, |chains|)[e];
        assert edges[|links| + e].target == t && edges[|links| + e].source in k;
      }
    }
  }

  /** A link to an earlier chain need not: two commands, the first of which is to wait for the second, are not tangled. */
  lemma BackwardLinkIsUntangled(a: Task, b: Task)
    requires !HasPred(a) && !HasPred(b)
    ensures Untangled([Chain([a], []), Chain([b], [])], [Link(1, 0)]) && !LinksForward([Link(1, 0)])
  {
    var chains, links := [Chain([a], []), Chain([b], [])], [Link(1, 0)];
    OneEdge(chains, a, b);
    assert links[0].dependency == 1 && links[0].successor == 0;
    forall k: set<TaskId> ensures !Tangle(chains, links, k) {
      assert !Follows(chains, links, k, 1);
      if t :| t in k {
        assert Follows(chains, links, k, t) ==> 1 in k;
      }
    }
  }

  lemma OneEdge(chains: seq<Chain>, a: Task, b: Task)
    requires chains == [Chain([a], []), Chain([b], [])]
    ensures Flat(chains) == [a, b] && Edges(chains, [Link(1, 0)]) == [Edge(1, 0)]
  {
    assert FlatTo(chains, 0) == [] && FlatTo(chains, 1) == [a] && FlatTo(chains, 2) == [a, b];
    assert Neighbours(1) == [];
    assert ChainEdgesTo(chains, 0) == [] && ChainEdgesTo(chains, 1) == [] && ChainEdgesTo(chains, 2) == [];
    assert LinkEdges(chains, [Link(1, 0)]) == [Edge(1, 0)];
  }
}
