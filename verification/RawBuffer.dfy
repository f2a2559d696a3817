/** The raw command buffer: recording of chains, links and fences, and baking. */
module RawBuffer {
  import opened Tasks
  import opened Binding

  type FenceId = nat

  /** A chain of tasks, with the controllers that the next `response` will take. */
  datatype Chain = Chain(tasks: seq<Task>, controllers: seq<TaskId>)

  /** "The chain `dependency` must end before the chain `successor` starts." */
  datatype Link = Link(dependency: nat, successor: nat)

  // ----- one chain -----

  function AddToChain(chain: Chain, task: Task): Chain {
    Chain(chain.tasks + [task], chain.controllers + [task.id])
  }

  function StartingSemaphore(chain: Chain, x: SemId): Chain {
    if chain.tasks == [] then chain
    else chain.(tasks := chain.tasks[0 := AddWait(chain.tasks[0], x)])
  }

  function EndingSemaphore(chain: Chain, x: SemId): Chain {
    if chain.tasks == [] then chain
    else
      var i := |chain.tasks| - 1;
      chain.(tasks := chain.tasks[i := AddSignal(chain.tasks[i], x)])
  }

  /** The edges between neighbours in a chain of `n` tasks. */
  ghost function Neighbours(n: nat): seq<Edge> {
    seq(if n == 0 then 0 else n - 1, i requires 0 <= i => Edge(i, i + 1))
  }

  /** Binds a fresh semaphore between each task of a chain and the next one, in place. */
  method ChainSemaphores(chain: seq<Task>, base: SemId) returns (tasks: seq<Task>, next: SemId)
    ensures tasks == Bind(chain, Neighbours(|chain|), base)
    ensures next == base + |Neighbours(|chain|)|
  {
    tasks := chain;
    next := base;
    assert Neighbours(1) == [] && Neighbours(0) == [];
    var i := 1;
    while i < |chain|
      invariant 1 <= i && (chain == [] || i <= |chain|)
      invariant |tasks| == |chain| && next == base + i - 1
      invariant chain == [] ==> i == 1
      invariant tasks == Bind(chain, Neighbours(i), base)
    {
      ghost var before := tasks;
      tasks := tasks[i - 1 := AddSignal(tasks[i - 1], next)];
      tasks := tasks[i := AddWait(tasks[i], next)];
      assert tasks == BindEdge(before, Edge(i - 1, i), next);
      assert Neighbours(i + 1)[..i - 1] == Neighbours(i) && Neighbours(i + 1)[i - 1] == Edge(i - 1, i);
      next := next + 1;
      i := i + 1;
    }
  }

  // ----- all chains -----

  /** The tasks of the first `j` chains, one chain after the other. */
  ghost function FlatTo(chains: seq<Chain>, j: nat): seq<Task>
    requires j <= |chains|
  {
    if j == 0 then [] else FlatTo(chains, j - 1) + chains[j - 1].tasks
  }

  /** The tasks of all chains. */
  ghost function Flat(chains: seq<Chain>): seq<Task> {
    FlatTo(chains, |chains|)
  }

  /** The position in the flat list at which a chain starts. */
  ghost function Start(chains: seq<Chain>, j: nat): nat
    requires j <= |chains|
  {
    |FlatTo(chains, j)|
  }

  /** The position of the last task of a chain. */
  ghost function Last(chains: seq<Chain>, j: nat): nat
    requires j < |chains|
  {
    Start(chains, j) + (if chains[j].tasks == [] then 0 else |chains[j].tasks| - 1)
  }

  predicate LinkInBounds(link: Link, n: nat) {
    link.dependency < n && link.successor < n
  }

  /** A link goes from the last task of one chain to the first task of another. */
  ghost function LinkEdge(chains: seq<Chain>, link: Link): Edge
    requires LinkInBounds(link, |chains|)
  {
    Edge(Last(chains, link.dependency), Start(chains, link.successor))
  }

  ghost predicate LinksInBounds(links: seq<Link>, n: nat) {
    forall k :: 0 <= k < |links| ==> LinkInBounds(links[k], n)
  }

  ghost function LinkEdges(chains: seq<Chain>, links: seq<Link>): seq<Edge>
    requires LinksInBounds(links, |chains|)
  {
    seq(|links|, k requires 0 <= k < |links| => LinkEdge(chains, links[k]))
  }

  /** The edges between neighbours in the first `j` chains, in terms of the flat list. */
  ghost function ChainEdgesTo(chains: seq<Chain>, j: nat): seq<Edge>
    requires j <= |chains|
  {
    if j == 0 then []
    else ChainEdgesTo(chains, j - 1) + Shift(Neighbours(|chains[j - 1].tasks|), Start(chains, j - 1))
  }

  ghost function ChainEdges(chains: seq<Chain>): seq<Edge> {
    ChainEdgesTo(chains, |chains|)
  }

  /** All edges of a buffer: its links in the order they were made, and then the neighbours. */
  ghost function Edges(chains: seq<Chain>, links: seq<Link>): seq<Edge>
    requires LinksInBounds(links, |chains|)
  {
    LinkEdges(chains, links) + ChainEdges(chains)
  }

  ghost predicate SameLengths(a: seq<Chain>, b: seq<Chain>) {
    |a| == |b| && forall j :: 0 <= j < |a| ==> |a[j].tasks| == |b[j].tasks|
  }

  lemma {:induction false} SameLengthsTo(a: seq<Chain>, b: seq<Chain>, j: nat)
    requires SameLengths(a, b) && j <= |a|
    ensures Start(a, j) == Start(b, j) && ChainEdgesTo(a, j) == ChainEdgesTo(b, j)
    decreases j
  {
    if j > 0 {
      SameLengthsTo(a, b, j - 1);
    }
  }

  /** The first chains do not depend on the later ones. */
  lemma {:induction false} SameFront(a: seq<Chain>, b: seq<Chain>, j: nat)
    requires j <= |a| && j <= |b| && forall i :: 0 <= i < j ==> a[i].tasks == b[i].tasks
    ensures FlatTo(a, j) == FlatTo(b, j)
    decreases j
  {
    if j > 0 {
      SameFront(a, b, j - 1);
    }
  }

  lemma {:induction false} StartsGrow(chains: seq<Chain>, i: nat, j: nat)
    requires i <= j <= |chains|
    ensures Start(chains, i) <= Start(chains, j) <= |Flat(chains)|
    decreases j - i, |chains| - j
  {
    if i < j {
      StartsGrow(chains, i + 1, j);
    } else if j < |chains| {
      StartsGrow(chains, j + 1, j + 1);
    }
  }

  lemma UpdateLeft(a: seq<Task>, b: seq<Task>, i: nat, task: Task)
    requires i < |a|
    ensures (a + b)[i := task] == a[i := task] + b && (a + b)[i] == a[i]
  {
  }

  lemma UpdateRight(a: seq<Task>, b: seq<Task>, i: nat, task: Task)
    requires i < |b|
    ensures (a + b)[|a| + i := task] == a + b[i := task] && (a + b)[|a| + i] == b[i]
  {
  }

  /** Changing a task in its chain changes it in the flat list. */
  lemma {:induction false} FlatUpdate(chains: seq<Chain>, j: nat, i: nat, task: Task, n: nat)
    requires j < n <= |chains| && i < |chains[j].tasks|
    ensures Start(chains, j) + i < Start(chains, n)
    ensures FlatTo(chains, n)[Start(chains, j) + i] == chains[j].tasks[i]
    ensures
      FlatTo(chains[j := chains[j].(tasks := chains[j].tasks[i := task])], n) ==
      FlatTo(chains, n)[Start(chains, j) + i := task]
    decreases n
  {
    var changed := chains[j := chains[j].(tasks := chains[j].tasks[i := task])];
    var front, last := FlatTo(chains, n - 1), chains[n - 1].tasks;
    assert FlatTo(changed, n) == FlatTo(changed, n - 1) + changed[n - 1].tasks;
    if j == n - 1 {
      SameFront(changed, chains, j);
      UpdateRight(front, last, i, task);
    } else {
      FlatUpdate(chains, j, i, task, n - 1);
      UpdateLeft(front, last, Start(chains, j) + i, task);
    }
  }

  lemma EndBinds(chains: seq<Chain>, e: nat, x: SemId)
    requires e < |chains| && chains[e].tasks != []
    ensures
      var ended := chains[e := EndingSemaphore(chains[e], x)];
      var l := Last(chains, e);
      && SameLengths(ended, chains) && l < |Flat(chains)|
      && Flat(ended) == Flat(chains)[l := AddSignal(Flat(chains)[l], x)]
  {
    var i := |chains[e].tasks| - 1;
    FlatUpdate(chains, e, i, AddSignal(chains[e].tasks[i], x), |chains|);
  }

  lemma StartBinds(chains: seq<Chain>, s: nat, x: SemId)
    requires s < |chains| && chains[s].tasks != []
    ensures
      var started := chains[s := StartingSemaphore(chains[s], x)];
      var f := Start(chains, s);
      && SameLengths(started, chains) && f < |Flat(chains)|
      && Flat(started) == Flat(chains)[f := AddWait(Flat(chains)[f], x)]
  {
    FlatUpdate(chains, s, 0, AddWait(chains[s].tasks[0], x), |chains|);
  }

  /** Only a lone chain may be empty. */
  ghost predicate NoGaps(chains: seq<Chain>) {
    |chains| == 1 || forall j :: 0 <= j < |chains| ==> chains[j].tasks != []
  }

  /** The chains with the semaphore of a link bound. */
  function Linked(chains: seq<Chain>, link: Link, x: SemId): seq<Chain>
    requires LinkInBounds(link, |chains|)
  {
    var ended := chains[link.dependency := EndingSemaphore(chains[link.dependency], x)];
    ended[link.successor := StartingSemaphore(ended[link.successor], x)]
  }

  /** Two tasks of the list, in whatever chains they are, get the two ends of the link. */
  lemma LinkBinds(chains: seq<Chain>, link: Link, x: SemId)
    requires LinkInBounds(link, |chains|) && NoGaps(chains)
    ensures
      var linked := Linked(chains, link, x);
      SameLengths(linked, chains) && Flat(linked) == BindEdge(Flat(chains), LinkEdge(chains, link), x)
  {
    var Link(e, s) := link;
    var ended := chains[e := EndingSemaphore(chains[e], x)];
    if chains[e].tasks == [] {
      LoneEmpty(chains, link, x);
    } else {
      EndBinds(chains, e, x);
      StartBinds(ended, s, x);
      SameLengthsTo(ended, chains, |chains|);
      SameLengthsTo(ended, chains, s);
    }
  }

  /** A link of a lone empty chain to itself binds nothing. */
  lemma LoneEmpty(chains: seq<Chain>, link: Link, x: SemId)
    requires LinkInBounds(link, |chains|) && NoGaps(chains) && chains[link.dependency].tasks == []
    ensures Linked(chains, link, x) == chains && Flat(chains) == []
  {
    assert |chains| == 1;
    assert FlatTo(chains, 1) == FlatTo(chains, 0) + chains[0].tasks;
  }

  /** The last chain is empty exactly if it is alone and nothing is recorded. */
  lemma LastEmpty(chains: seq<Chain>)
    requires chains != [] && NoGaps(chains)
    ensures chains[|chains| - 1].tasks == [] <==> Flat(chains) == []
    ensures Flat(chains) == [] ==> |chains| == 1
  {
    if chains[|chains| - 1].tasks == [] {
      LoneEmpty(chains, Link(|chains| - 1, |chains| - 1), 0);
    }
  }

  ghost predicate FencesInBounds(fences: seq<(nat, FenceId)>, n: nat) {
    forall k :: 0 <= k < |fences| ==> fences[k].0 < n
  }

  /** Each fence is bound to the last task of its chain, if the chain has one. */
  ghost function BindFences(bound: map<FenceId, TaskId>, chains: seq<Chain>, fences: seq<(nat, FenceId)>): map<FenceId, TaskId>
    requires FencesInBounds(fences, |chains|)
  {
    if fences == [] then bound
    else
      var n := |fences| - 1;
      var before := BindFences(bound, chains, fences[..n]);
      var chain := chains[fences[n].0].tasks;
      if chain == [] then before else before[fences[n].1 := chain[|chain| - 1].id]
  }

  /** Nobody asks for this fence again after entry `k`. */
  ghost predicate LastAsked(fences: seq<(nat, FenceId)>, k: nat)
    requires k < |fences|
  {
    forall i :: k < i < |fences| ==> fences[i].1 != fences[k].1
  }

  ghost predicate Asked(fences: seq<(nat, FenceId)>, fence: FenceId) {
    exists k :: 0 <= k < |fences| && fences[k].1 == fence
  }

  /**
   * Each fence that was asked for is bound to the task that ends its chain, whose id is its position in creation
   * order; the last request counts. Other fences are bound to what they were bound to before. There is nothing to bind
   * to in an empty buffer.
   */
  ghost predicate FencesFollow(was: map<FenceId, TaskId>, chains: seq<Chain>, fences: seq<(nat, FenceId)>, bound: map<FenceId, TaskId>)
    requires FencesInBounds(fences, |chains|)
  {
    && (forall k :: 0 <= k < |fences| && LastAsked(fences, k) && Flat(chains) != [] ==>
          && fences[k].1 in bound && Start(chains, fences[k].0 + 1) > 0
          && bound[fences[k].1] == Start(chains, fences[k].0 + 1) - 1)
    && (forall fence: FenceId :: !Asked(fences, fence) ==>
          (fence in bound <==> fence in was) && (fence in was ==> bound[fence] == was[fence]))
    && (Flat(chains) == [] ==> bound == was)
  }

  /** The last task of a chain has as its id the position at which the next chain starts, less one. */
  lemma LastId(chains: seq<Chain>, j: nat)
    requires WellFormed(Flat(chains)) && j < |chains| && chains[j].tasks != []
    ensures Start(chains, j + 1) > 0 && chains[j].tasks[|chains[j].tasks| - 1].id == Start(chains, j + 1) - 1
  {
    var i := |chains[j].tasks| - 1;
    FlatUpdate(chains, j, i, chains[j].tasks[i], |chains|);
    StartsGrow(chains, j + 1, j + 1);
    assert Start(chains, j + 1) == Start(chains, j) + |chains[j].tasks|;
  }

  lemma {:induction false} FenceIsBound(was: map<FenceId, TaskId>, chains: seq<Chain>, fences: seq<(nat, FenceId)>, k: nat)
    requires WellFormed(Flat(chains)) && FencesInBounds(fences, |chains|) && k < |fences| && LastAsked(fences, k)
    requires chains[fences[k].0].tasks != []
    ensures
      var (j, fence) := fences[k];
      var bound := BindFences(was, chains, fences);
      fence in bound && Start(chains, j + 1) > 0 && bound[fence] == Start(chains, j + 1) - 1
    decreases |fences|
  {
    var n := |fences| - 1;
    if k < n {
      var front := fences[..n];
      assert forall i :: k < i < n ==> front[i] == fences[i];
      assert fences[n].1 != fences[k].1;
      FenceIsBound(was, chains, front, k);
    } else {
      LastId(chains, fences[n].0);
    }
  }

  lemma {:induction false} FenceIsLeft(was: map<FenceId, TaskId>, chains: seq<Chain>, fences: seq<(nat, FenceId)>, fence: FenceId)
    requires FencesInBounds(fences, |chains|) && !Asked(fences, fence)
    ensures
      var bound := BindFences(was, chains, fences);
      (fence in bound <==> fence in was) && (fence in was ==> bound[fence] == was[fence])
    decreases |fences|
  {
    if fences != [] {
      var front := fences[..|fences| - 1];
      assert fences[|fences| - 1].1 != fence;
      assert forall i :: 0 <= i < |front| ==> front[i] == fences[i];
      FenceIsLeft(was, chains, front, fence);
    }
  }

  lemma {:induction false} NothingToBind(was: map<FenceId, TaskId>, chains: seq<Chain>, fences: seq<(nat, FenceId)>)
    requires FencesInBounds(fences, |chains|) && forall j :: 0 <= j < |chains| ==> chains[j].tasks == []
    ensures BindFences(was, chains, fences) == was
    decreases |fences|
  {
    if fences != [] {
      NothingToBind(was, chains, fences[..|fences| - 1]);
    }
  }

  /** `BindFences` does that. */
  lemma FencesAreBound(was: map<FenceId, TaskId>, chains: seq<Chain>, fences: seq<(nat, FenceId)>)
    requires chains != [] && NoGaps(chains) && WellFormed(Flat(chains)) && FencesInBounds(fences, |chains|)
    ensures FencesFollow(was, chains, fences, BindFences(was, chains, fences))
  {
    LastEmpty(chains);
    if Flat(chains) == [] {
      NothingToBind(was, chains, fences);
    }
    forall k | 0 <= k < |fences| && LastAsked(fences, k) && Flat(chains) != []
      ensures
        var bound := BindFences(was, chains, fences);
        && fences[k].1 in bound && Start(chains, fences[k].0 + 1) > 0
        && bound[fences[k].1] == Start(chains, fences[k].0 + 1) - 1
    {
      FenceIsBound(was, chains, fences, k);
    }
    forall fence: FenceId | !Asked(fences, fence)
      ensures
        var bound := BindFences(was, chains, fences);
        (fence in bound <==> fence in was) && (fence in was ==> bound[fence] == was[fence])
    {
      FenceIsLeft(was, chains, fences, fence);
    }
  }

  /** What recording keeps of the flat list: ids are positions, nothing is bound, and open handles are unused. */
  ghost predicate Recorded(flat: seq<Task>, open: set<TaskId>) {
    && WellFormed(flat)
    && (forall i :: 0 <= i < |flat| ==> flat[i].wait == [] && flat[i].semaphores == [])
    && (forall x: TaskId :: x in open ==> x < |flat|)
    && (forall i :: 0 <= i < |flat| && HasPred(flat[i]) ==> flat[i].body.pred !in open)
  }

  lemma RecordedMore(flat: seq<Task>, open: set<TaskId>, task: Task)
    requires Recorded(flat, open)
    requires task.id == |flat| && task.wait == [] && task.semaphores == []
    requires HasPred(task) ==> task.body.pred in open
    ensures Recorded(flat + [task], open - (if HasPred(task) then {task.body.pred} else {}) + {task.id})
  {
  }

  lemma SameEdge(a: seq<Chain>, b: seq<Chain>, link: Link)
    requires SameLengths(a, b) && LinkInBounds(link, |a|)
    ensures LinkEdge(a, link) == LinkEdge(b, link)
  {
    SameLengthsTo(a, b, link.dependency);
    SameLengthsTo(a, b, link.successor);
  }

  lemma {:induction false} ChainEdgesWithin(chains: seq<Chain>, j: nat)
    requires j <= |chains|
    ensures AllWithin(ChainEdgesTo(chains, j), Start(chains, j))
    decreases j
  {
    if j > 0 {
      ChainEdgesWithin(chains, j - 1);
    }
  }

  lemma LinkEdgesMore(chains: seq<Chain>, links: seq<Link>, k: nat)
    requires k < |links| && LinksInBounds(links[..k], |chains|) && LinkInBounds(links[k], |chains|)
    ensures LinksInBounds(links[..k + 1], |chains|)
    ensures LinkEdges(chains, links[..k + 1]) == LinkEdges(chains, links[..k]) + [LinkEdge(chains, links[k])]
  {
    assert forall i :: 0 <= i < k ==> links[..k + 1][i] == links[..k][i];
  }

  /** The links are bound, in the chains, to the same effect as in the flat list. */
  ghost predicate LinkedSoFar(was: seq<Chain>, chains: seq<Chain>, links: seq<Link>, base: SemId) {
    && LinksInBounds(links, |was|)
    && SameLengths(chains, was) && NoGaps(chains)
    && Flat(chains) == Bind(Flat(was), LinkEdges(was, links), base)
  }

  lemma NoneLinked(chains: seq<Chain>, links: seq<Link>, base: SemId)
    requires NoGaps(chains)
    ensures LinkedSoFar(chains, chains, links[..0], base)
  {
    assert LinkEdges(chains, links[..0]) == [];
  }

  /** Binding the next link in its chains is binding its edge in the flat list. */
  lemma LinkNext(was: seq<Chain>, chains: seq<Chain>, links: seq<Link>, k: nat, base: SemId)
    requires k < |links| && LinkedSoFar(was, chains, links[..k], base) && LinkInBounds(links[k], |was|)
    ensures LinkedSoFar(was, Linked(chains, links[k], base + k), links[..k + 1], base)
  {
    LinkBinds(chains, links[k], base + k);
    SameEdge(chains, was, links[k]);
    LinkEdgesMore(was, links, k);
    BindOne(Flat(was), LinkEdges(was, links[..k]), LinkEdge(was, links[k]), base);
  }

  /** Binding the links and then the neighbours is binding all edges. */
  lemma LinksThenChains(was: seq<Chain>, chains: seq<Chain>, links: seq<Link>, base: SemId)
    requires SameLengths(chains, was) && LinksInBounds(links, |was|)
    requires Flat(chains) == Bind(Flat(was), LinkEdges(was, links), base)
    ensures |ChainEdges(chains)| + |links| == |Edges(was, links)|
    ensures Bind(Flat(chains), ChainEdges(chains), base + |links|) == Bind(Flat(was), Edges(was, links), base)
  {
    SameLengthsTo(chains, was, |was|);
    assert ChainEdges(chains) == ChainEdges(was) && |LinkEdges(was, links)| == |links|;
    BindMore(Flat(was), LinkEdges(was, links), ChainEdges(was), base);
  }

  /** The flat list of the first `j` chains, with the edges between neighbours bound. */
  ghost function ChainedTo(chains: seq<Chain>, j: nat, base: SemId): seq<Task>
    requires j <= |chains|
  {
    Bind(FlatTo(chains, j), ChainEdgesTo(chains, j), base)
  }

  ghost predicate ChainedSoFar(chains: seq<Chain>, j: nat, base: SemId, tasks: seq<Task>, next: SemId)
    requires j <= |chains|
  {
    tasks == ChainedTo(chains, j, base) && next == base + |ChainEdgesTo(chains, j)|
  }

  /** Binding the edges of one more chain adds its tasks, with its edges bound, to the flat list. */
  lemma ChainNext(chains: seq<Chain>, j: nat, base: SemId)
    requires j < |chains|
    ensures
      var chain := chains[j].tasks;
      && ChainedTo(chains, j + 1, base) ==
         ChainedTo(chains, j, base) + Bind(chain, Neighbours(|chain|), base + |ChainEdgesTo(chains, j)|)
      && |ChainEdgesTo(chains, j + 1)| == |ChainEdgesTo(chains, j)| + |Neighbours(|chain|)|
  {
    var chain := chains[j].tasks;
    ChainEdgesWithin(chains, j);
    assert FlatTo(chains, j + 1) == FlatTo(chains, j) + chain;
    assert ChainEdgesTo(chains, j + 1) == ChainEdgesTo(chains, j) + Shift(Neighbours(|chain|), |FlatTo(chains, j)|);
    BindSplit(FlatTo(chains, j), chain, ChainEdgesTo(chains, j), Neighbours(|chain|), base);
  }

  lemma ChainedMore(chains: seq<Chain>, j: nat, base: SemId, tasks: seq<Task>, next: SemId, chained: seq<Task>, after: SemId)
    requires j < |chains| && ChainedSoFar(chains, j, base, tasks, next)
    requires var chain := chains[j].tasks; chained == Bind(chain, Neighbours(|chain|), next) && after == next + |Neighbours(|chain|)|
    ensures ChainedSoFar(chains, j + 1, base, tasks + chained, after)
  {
    ChainNext(chains, j, base);
    assert next == base + |ChainEdgesTo(chains, j)|;
    assert tasks + chained == ChainedTo(chains, j + 1, base);
  }

  /** Chains each of the chains, in order, into one list. */
  method ChainAll(chains: seq<Chain>, base: SemId) returns (tasks: seq<Task>, next: SemId)
    ensures tasks == Bind(Flat(chains), ChainEdges(chains), base)
    ensures next == base + |ChainEdges(chains)|
  {
    tasks, next := [], base;
    for j := 0 to |chains|
      invariant ChainedSoFar(chains, j, base, tasks, next)
    {
      var chained, after := ChainSemaphores(chains[j].tasks, next);
      ChainedMore(chains, j, base, tasks, next, chained, after);
      tasks, next := tasks + chained, after;
    }
  }

  // ----- the buffer -----

  class RawCommandBuffer {
    var chains: seq<Chain>
    var links: seq<Link>
    var fences: seq<(nat, FenceId)>
    var group: nat
    /** The tasks that fences are bound to; binding again replaces. */
    var bound: map<FenceId, TaskId>
    var nextTask: TaskId
    var nextSem: SemId
    var nextFence: FenceId
    /** The tasks whose handle is still in a builder; continuing or answering a builder consumes it. */
    ghost var open: set<TaskId>
    /** The tasks that were recorded in the last chain since a builder was last answered, in order. */
    ghost var unanswered: seq<TaskId>

    /**
     * While recording: `group` is the last chain, only a lone chain can be empty, and the flat list has the tasks
     * in the order in which they were created, with no semaphores yet.
     */
    ghost predicate Valid()
      reads this
    {
      && |chains| == group + 1
      && NoGaps(chains)
      && |Flat(chains)| == nextTask
      && Recorded(Flat(chains), open)
      && chains[group].controllers == unanswered && (Flat(chains) == [] ==> unanswered == [])
    }

    constructor ()
      ensures Valid() && Flat(chains) == [] && links == [] && fences == [] && open == {} && nextSem == 0
      ensures nextTask == 0 && bound == map[] && unanswered == []
    {
      chains := [Chain([], [])];
      links, fences, group := [], [], 0;
      bound := map[];
      nextTask, nextSem, nextFence := 0, 0, 0;
      open, unanswered := {}, [];
    }

    /** A command on the buffer itself starts a new chain, unless the last one is still empty. */
    method AddTask(out: Outcome) returns (handle: TaskId)
      requires Valid()
      modifies `chains, `group, `nextTask, `open, `unanswered
      ensures Valid() && unanswered == [handle]
      ensures handle == old(nextTask) && nextTask == old(nextTask) + 1 && open == old(open) + {handle}
      ensures Flat(chains) == old(Flat(chains)) + [Task(handle, Root(out), [], [], None, [])]
      ensures |chains| == (if old(Flat(chains)) == [] then 1 else old(|chains|) + 1)
      ensures chains[group].tasks == [Task(handle, Root(out), [], [], None, [])]
      ensures forall j :: 0 <= j < |chains| - 1 ==> chains[j] == old(chains)[j]
    {
      NewChain();
      handle := nextTask;
      RecordedMore(Flat(chains), open, Task(handle, Root(out), [], [], None, []));
      Append(Task(handle, Root(out), [], [], None, []));
      assert forall j :: 0 <= j < group ==> chains[j] == chains[..group][j];
    }

    /** Starts a new chain unless the last one is still empty. */
    method NewChain()
      requires Valid()
      modifies `chains, `group, `unanswered
      ensures |chains| == group + 1 && chains[group] == Chain([], []) && unanswered == [] && Flat(chains) == old(Flat(chains))
      ensures chains[..group] == (if old(Flat(chains)) == [] then [] else old(chains))
      ensures forall j :: 0 <= j < group ==> chains[j].tasks != []
      ensures |chains| == (if old(Flat(chains)) == [] then 1 else old(|chains|) + 1)
    {
      LastEmpty(chains);
      if chains[group].tasks != [] {
        group := group + 1;
        chains := chains + [Chain([], [])];
        unanswered := [];
        SameFront(chains, old(chains), group);
        assert chains[..group] == old(chains);
      }
    }

    /** The task goes to the end of the last chain. */
    method Append(task: Task)
      requires |chains| == group + 1 && task.id == nextTask && chains[group].controllers == unanswered
      modifies `chains, `nextTask, `open, `unanswered
      ensures |chains| == old(|chains|) && nextTask == old(nextTask) + 1
      ensures chains[group].tasks == old(chains)[group].tasks + [task]
      ensures chains[group].controllers == unanswered == old(unanswered) + [task.id]
      ensures chains[..group] == old(chains)[..group]
      ensures Flat(chains) == old(Flat(chains)) + [task]
      ensures open == old(open) - (if HasPred(task) then {task.body.pred} else {}) + {task.id}
    {
      chains := chains[group := AddToChain(chains[group], task)];
      nextTask := nextTask + 1;
      open := open - (if HasPred(task) then {task.body.pred} else {}) + {task.id};
      unanswered := unanswered + [task.id];
      SameFront(chains, old(chains), group);
    }

    /** A command on a builder goes to the last chain, whichever chain its predecessor is in. */
    method AddChainedTask(f: Value -> Outcome, predecessor: TaskId) returns (handle: TaskId)
      requires Valid() && predecessor in open
      modifies `chains, `nextTask, `open, `unanswered
      ensures Valid() && unanswered == old(unanswered) + [handle]
      ensures handle == old(nextTask) && nextTask == old(nextTask) + 1
      ensures open == old(open) - {predecessor} + {handle}
      ensures Flat(chains) == old(Flat(chains)) + [Task(handle, Continuation(predecessor, f), [], [], None, [])]
      ensures |chains| == old(|chains|) && forall j :: 0 <= j < |chains| - 1 ==> chains[j] == old(chains)[j]
    {
      handle := nextTask;
      RecordedMore(Flat(chains), open, Task(handle, Continuation(predecessor, f), [], [], None, []));
      Append(Task(handle, Continuation(predecessor, f), [], [], None, []));
      assert forall j :: 0 <= j < group ==> chains[j] == chains[..group][j];
    }

    /** Ends a builder. The controllers are those of the last chain, whichever chain the builder is in. */
    method Response(handle: TaskId) returns (controllers: seq<TaskId>)
      requires Valid() && handle in open
      modifies `chains, `open, `unanswered
      ensures Valid() && open == old(open) - {handle}
      ensures controllers == old(unanswered) && unanswered == []
      ensures Flat(chains) == old(Flat(chains)) && SameLengths(chains, old(chains))
    {
      controllers := chains[group].controllers;
      chains := chains[group := chains[group].(controllers := [])];
      open, unanswered := open - {handle}, [];
      SameFront(chains, old(chains), |chains|);
    }

    method LinkChains(dependency: nat, successor: nat)
      requires Valid()
      modifies `links
      ensures Valid() && links == old(links) + [Link(dependency, successor)]
    {
      links := links + [Link(dependency, successor)];
    }

    method CreateFence(chain: nat) returns (fence: FenceId)
      requires Valid()
      modifies `fences, `nextFence
      ensures Valid() && fence == old(nextFence) && nextFence == fence + 1
      ensures fences == old(fences) + [(chain, fence)]
    {
      fence := nextFence;
      nextFence := nextFence + 1;
      fences := fences + [(chain, fence)];
    }

    /**
     * Bakes the buffer: the tasks in creation order, with a fresh semaphore on each edge. Fails, as the original
     * panics, exactly when a fence or a link names a chain that does not exist.
     */
    method Finish() returns (baked: Option<seq<Task>>)
      requires Valid()
      modifies this
      ensures baked.Some? <==> FencesInBounds(old(fences), |old(chains)|) && LinksInBounds(old(links), |old(chains)|)
      ensures baked.Some? ==>
        && baked.value == Bind(old(Flat(chains)), Edges(old(chains), old(links)), old(nextSem))
        && nextSem == old(nextSem) + |Edges(old(chains), old(links))|
        && FencesFollow(old(bound), old(chains), old(fences), bound)
        && chains == [] && links == [] && fences == []
    {
      var fenced := FinishFences();
      if !fenced {
        return None;
      }
      baked := FinishTasks();
    }

    method FinishTasks() returns (baked: Option<seq<Task>>)
      requires Valid()
      modifies `chains, `links, `nextSem
      ensures baked.Some? <==> LinksInBounds(old(links), |old(chains)|)
      ensures baked.Some? ==>
        && baked.value == Bind(old(Flat(chains)), Edges(old(chains), old(links)), old(nextSem))
        && nextSem == old(nextSem) + |Edges(old(chains), old(links))|
        && chains == [] && links == []
    {
      ghost var was, made, base := chains, links, nextSem;
      var linked := FinishLinks();
      if !linked {
        return None;
      }
      LinksThenChains(was, chains, made, base);
      var tasks := FinishChains();
      return Some(tasks);
    }

    method FinishFences() returns (ok: bool)
      requires Valid()
      modifies `fences, `bound
      ensures ok <==> FencesInBounds(old(fences), |chains|)
      ensures ok ==> fences == [] && FencesFollow(old(bound), chains, old(fences), bound)
    {
      for k := 0 to |fences|
        invariant fences == old(fences) && FencesInBounds(fences[..k], |chains|)
        invariant bound == BindFences(old(bound), chains, fences[..k])
      {
        var (i, fence) := fences[k];
        if i >= |chains| {
          return false;
        }
        assert fences[..k + 1][..k] == fences[..k];
        var chain := chains[i].tasks;
        if chain != [] {
          bound := bound[fence := chain[|chain| - 1].id];
        }
      }
      assert fences[..|fences|] == fences;
      FencesAreBound(old(bound), chains, fences);
      fences := [];
      return true;
    }

    method FinishLinks() returns (ok: bool)
      requires NoGaps(chains)
      modifies `chains, `links, `nextSem
      ensures ok <==> LinksInBounds(old(links), old(|chains|))
      ensures ok ==>
        && links == [] && nextSem == old(nextSem) + |old(links)|
        && SameLengths(chains, old(chains))
        && Flat(chains) == Bind(old(Flat(chains)), LinkEdges(old(chains), old(links)), old(nextSem))
    {
      ghost var was := chains;
      NoneLinked(chains, links, nextSem);
      for k := 0 to |links|
        invariant links == old(links) && nextSem == old(nextSem) + k
        invariant LinkedSoFar(was, chains, links[..k], old(nextSem))
      {
        var link := links[k];
        if !LinkInBounds(link, |chains|) {
          return false;
        }
        LinkNext(was, chains, links, k, old(nextSem));
        BindLink(link);
      }
      assert links[..|links|] == links;
      links := [];
      return true;
    }

    /** Binds a fresh semaphore to the end of one chain and to the start of the other. */
    method BindLink(link: Link)
      requires LinkInBounds(link, |chains|)
      modifies `chains, `nextSem
      ensures chains == Linked(old(chains), link, old(nextSem)) && nextSem == old(nextSem) + 1
    {
      chains := chains[link.dependency := EndingSemaphore(chains[link.dependency], nextSem)];
      chains := chains[link.successor := StartingSemaphore(chains[link.successor], nextSem)];
      nextSem := nextSem + 1;
    }

    method FinishChains() returns (tasks: seq<Task>)
      modifies `chains, `nextSem
      ensures chains == [] && nextSem == old(nextSem) + |ChainEdges(old(chains))|
      ensures tasks == Bind(old(Flat(chains)), ChainEdges(old(chains)), old(nextSem))
    {
      var drained := chains;
      chains := [];
      tasks, nextSem := ChainAll(drained, nextSem);
    }
  }
}
