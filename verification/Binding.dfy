/** What baking does to a list of tasks: it binds a fresh semaphore to the two ends of each edge, one edge after the other. */
module Binding {
  import opened Tasks

  /** From the task that signals to the task that waits. */
  datatype Edge = Edge(source: nat, target: nat)

  function AddSignal(task: Task, x: SemId): Task {
    task.(semaphores := task.semaphores + [x])
  }

  function AddWait(task: Task, x: SemId): Task {
    task.(wait := task.wait + [x])
  }

  predicate Within(edge: Edge, n: nat) {
    edge.source < n && edge.target < n
  }

  ghost predicate AllWithin(edges: seq<Edge>, n: nat) {
    forall k :: 0 <= k < |edges| ==> Within(edges[k], n)
  }

  /** Both ends of an edge get the semaphore; an edge of an empty chain binds nothing. */
  function BindEdge(tasks: seq<Task>, edge: Edge, x: SemId): (r: seq<Task>)
    ensures |r| == |tasks|
  {
    if Within(edge, |tasks|) then
      var signalling := tasks[edge.source := AddSignal(tasks[edge.source], x)];
      signalling[edge.target := AddWait(signalling[edge.target], x)]
    else tasks
  }

  /** What an edge does to the task at position `i`. */
  function Touch(task: Task, edge: Edge, x: SemId, i: nat): Task {
    var signalling := if edge.source == i then AddSignal(task, x) else task;
    if edge.target == i then AddWait(signalling, x) else signalling
  }

  lemma EdgeTouches(tasks: seq<Task>, edge: Edge, x: SemId, i: nat)
    requires i < |tasks| && Within(edge, |tasks|)
    ensures BindEdge(tasks, edge, x)[i] == Touch(tasks[i], edge, x, i)
  {
  }

  ghost function Bind(tasks: seq<Task>, edges: seq<Edge>, base: SemId): (r: seq<Task>)
    ensures |r| == |tasks|
  {
    if edges == [] then tasks
    else
      var n := |edges| - 1;
      BindEdge(Bind(tasks, edges[..n], base), edges[n], base + n)
  }

  // ----- what the bound tasks are, task by task -----

  /** The semaphores of the edges into `i`, in the order of the edges. */
  ghost function Incoming(edges: seq<Edge>, base: SemId, i: nat): seq<SemId> {
    if edges == [] then []
    else
      var n := |edges| - 1;
      Incoming(edges[..n], base, i) + (if edges[n].target == i then [base + n] else [])
  }

  ghost function Outgoing(edges: seq<Edge>, base: SemId, i: nat): seq<SemId> {
    if edges == [] then []
    else
      var n := |edges| - 1;
      Outgoing(edges[..n], base, i) + (if edges[n].source == i then [base + n] else [])
  }

  function Bound(task: Task, incoming: seq<SemId>, outgoing: seq<SemId>): Task {
    task.(wait := task.wait + incoming, semaphores := task.semaphores + outgoing)
  }

  lemma TouchBound(task: Task, incoming: seq<SemId>, outgoing: seq<SemId>, edge: Edge, x: SemId, i: nat)
    ensures
      Touch(Bound(task, incoming, outgoing), edge, x, i) ==
      Bound(task, incoming + (if edge.target == i then [x] else []), outgoing + (if edge.source == i then [x] else []))
  {
    assert task.wait + (incoming + [x]) == (task.wait + incoming) + [x];
    assert task.semaphores + (outgoing + [x]) == (task.semaphores + outgoing) + [x];
    assert incoming + [] == incoming && outgoing + [] == outgoing;
  }

  /** Binding adds to each task exactly its incoming and outgoing semaphores, and changes nothing else. */
  lemma {:induction false} BindIsLocal(tasks: seq<Task>, edges: seq<Edge>, base: SemId, i: nat)
    requires i < |tasks| && AllWithin(edges, |tasks|)
    ensures Bind(tasks, edges, base)[i] == Bound(tasks[i], Incoming(edges, base, i), Outgoing(edges, base, i))
    decreases |edges|
  {
    if edges == [] {
      assert tasks[i].wait + [] == tasks[i].wait && tasks[i].semaphores + [] == tasks[i].semaphores;
    } else {
      var n := |edges| - 1;
      BindIsLocal(tasks, edges[..n], base, i);
      EdgeTouches(Bind(tasks, edges[..n], base), edges[n], base + n, i);
      TouchBound(tasks[i], Incoming(edges[..n], base, i), Outgoing(edges[..n], base, i), edges[n], base + n, i);
    }
  }

  lemma CountPush(s: seq<SemId>, push: bool, y: SemId, x: SemId)
    ensures multiset(s + (if push then [y] else []))[x] == multiset(s)[x] + (if push && x == y then 1 else 0)
  {
    assert multiset(s + [y]) == multiset(s) + multiset{y};
    assert s + [] == s;
  }

  /** Is `x` the semaphore of an edge into `i`? */
  ghost predicate Enters(edges: seq<Edge>, base: SemId, i: nat, x: SemId) {
    base <= x < base + |edges| && edges[x - base].target == i
  }

  ghost predicate Leaves(edges: seq<Edge>, base: SemId, i: nat, x: SemId) {
    base <= x < base + |edges| && edges[x - base].source == i
  }

  lemma LastEdge(edges: seq<Edge>, base: SemId, i: nat, x: SemId)
    requires edges != []
    ensures
      var n := |edges| - 1;
      && (Enters(edges, base, i, x) <==> Enters(edges[..n], base, i, x) || (edges[n].target == i && x == base + n))
      && (Leaves(edges, base, i, x) <==> Leaves(edges[..n], base, i, x) || (edges[n].source == i && x == base + n))
  {
  }

  /** The semaphore of an edge comes in at its target, once, and nowhere else. */
  lemma {:induction false} IncomingOnce(edges: seq<Edge>, base: SemId, i: nat, x: SemId)
    ensures multiset(Incoming(edges, base, i))[x] == if Enters(edges, base, i, x) then 1 else 0
    decreases |edges|
  {
    if edges != [] {
      var n := |edges| - 1;
      IncomingOnce(edges[..n], base, i, x);
      CountPush(Incoming(edges[..n], base, i), edges[n].target == i, base + n, x);
      LastEdge(edges, base, i, x);
    }
  }

  lemma {:induction false} OutgoingOnce(edges: seq<Edge>, base: SemId, i: nat, x: SemId)
    ensures multiset(Outgoing(edges, base, i))[x] == if Leaves(edges, base, i, x) then 1 else 0
    decreases |edges|
  {
    if edges != [] {
      var n := |edges| - 1;
      OutgoingOnce(edges[..n], base, i, x);
      CountPush(Outgoing(edges[..n], base, i), edges[n].source == i, base + n, x);
      LastEdge(edges, base, i, x);
    }
  }

  // ----- binding piece by piece -----

  lemma {:induction false} BindMore(tasks: seq<Task>, a: seq<Edge>, b: seq<Edge>, base: SemId)
    ensures Bind(tasks, a + b, base) == Bind(Bind(tasks, a, base), b, base + |a|)
    decreases |b|
  {
    if b == [] {
      assert a + b == a;
    } else {
      var n := |b| - 1;
      BindMore(tasks, a, b[..n], base);
      assert (a + b)[..|a + b| - 1] == a + b[..n];
    }
  }

  ghost function Shift(edges: seq<Edge>, d: nat): seq<Edge> {
    seq(|edges|, k requires 0 <= k < |edges| => Edge(edges[k].source + d, edges[k].target + d))
  }

  lemma ShiftLast(edges: seq<Edge>, d: nat)
    requires edges != []
    ensures
      var n := |edges| - 1;
      && |Shift(edges, d)| == n + 1 && Shift(edges, d)[..n] == Shift(edges[..n], d)
      && Shift(edges, d)[n] == Edge(edges[n].source + d, edges[n].target + d)
  {
  }

  lemma EdgeLeft(a: seq<Task>, b: seq<Task>, edge: Edge, x: SemId)
    requires Within(edge, |a|)
    ensures BindEdge(a + b, edge, x) == BindEdge(a, edge, x) + b
  {
    forall i | 0 <= i < |a + b| ensures BindEdge(a + b, edge, x)[i] == (BindEdge(a, edge, x) + b)[i] {
      EdgeTouches(a + b, edge, x, i);
      if i < |a| {
        EdgeTouches(a, edge, x, i);
      }
    }
  }

  lemma EdgeRight(a: seq<Task>, b: seq<Task>, edge: Edge, x: SemId)
    requires Within(edge, |b|)
    ensures BindEdge(a + b, Edge(edge.source + |a|, edge.target + |a|), x) == a + BindEdge(b, edge, x)
  {
    var moved := Edge(edge.source + |a|, edge.target + |a|);
    forall i | 0 <= i < |a + b| ensures BindEdge(a + b, moved, x)[i] == (a + BindEdge(b, edge, x))[i] {
      EdgeTouches(a + b, moved, x, i);
      if i >= |a| {
        EdgeTouches(b, edge, x, i - |a|);
      }
    }
  }

  lemma {:induction false} BindLeft(a: seq<Task>, b: seq<Task>, edges: seq<Edge>, base: SemId)
    requires AllWithin(edges, |a|)
    ensures Bind(a + b, edges, base) == Bind(a, edges, base) + b
    decreases |edges|
  {
    if edges != [] {
      var n := |edges| - 1;
      BindLeft(a, b, edges[..n], base);
      EdgeLeft(Bind(a, edges[..n], base), b, edges[n], base + n);
    }
  }

  lemma {:induction false} BindRight(a: seq<Task>, b: seq<Task>, edges: seq<Edge>, base: SemId)
    requires AllWithin(edges, |b|)
    ensures Bind(a + b, Shift(edges, |a|), base) == a + Bind(b, edges, base)
    decreases |edges|
  {
    if edges != [] {
      var n := |edges| - 1;
      var moved := Shift(edges, |a|);
      BindRight(a, b, edges[..n], base);
      ShiftLast(edges, |a|);
      EdgeRight(a, Bind(b, edges[..n], base), edges[n], base + n);
    }
  }

  lemma BindSplit(a: seq<Task>, b: seq<Task>, left: seq<Edge>, right: seq<Edge>, base: SemId)
    requires AllWithin(left, |a|) && AllWithin(right, |b|)
    ensures Bind(a + b, left + Shift(right, |a|), base) == Bind(a, left, base) + Bind(b, right, base + |left|)
  {
    BindMore(a + b, left, Shift(right, |a|), base);
    BindLeft(a, b, left, base);
    BindRight(Bind(a, left, base), b, right, base + |left|);
  }

  lemma BindOne(tasks: seq<Task>, edges: seq<Edge>, edge: Edge, base: SemId)
    ensures Bind(tasks, edges + [edge], base) == BindEdge(Bind(tasks, edges, base), edge, base + |edges|)
  {
    assert (edges + [edge])[..|edges|] == edges;
  }
}
