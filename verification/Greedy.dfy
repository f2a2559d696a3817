/** One pass of the dispatcher over the tasks it holds, while no worker takes or gives back a slot. */
module Greedy {
  import opened Tasks
  import opened Sums
  import Protocol

  datatype Sent = Sent(task: TaskId, thread: nat)

  /** What a look at a task finds: it can go to a worker, has to wait, or is settled by the dispatcher and ends here. */
  datatype Verdict = Goes | Waits | Ends

  datatype Item = Item(task: Task, verdict: Verdict)

  /** Where a pass stands: the slots that are free, what was sent, and the tasks that stay, some of them relaxed. */
  datatype Pass = Pass(free: seq<nat>, sent: seq<Sent>, kept: seq<Task>)

  // ----- the choice of a thread -----

  /** The first thread with the preferred label, if there is one; without a wish, each thread that is not excluded. */
  predicate Eligible(labels: seq<Option<Label>>, task: Task, w: nat)
    requires w < |labels|
  {
    match task.preferred
    case Some(name) => Protocol.FindLabel(labels, name, 0) == Some(w)
    case None => Protocol.NotExcluded(labels[w], task.notOn)
  }

  /** `max_by_key` on the first `n` threads: the last one of those with the most free slots. */
  ghost function MostFree(labels: seq<Option<Label>>, free: seq<nat>, task: Task, n: nat): (r: Option<nat>)
    requires n <= |labels| == |free| && task.preferred.None?
    ensures r.None? <==> forall w: nat :: w < n ==> !Eligible(labels, task, w)
    ensures r.Some? ==>
      && r.value < n && Eligible(labels, task, r.value)
      && (forall w: nat :: w < n && Eligible(labels, task, w) ==> free[w] <= free[r.value])
      && (forall w: nat :: r.value < w < n && Eligible(labels, task, w) ==> free[w] < free[r.value])
  {
    if n == 0 then None
    else
      var best := MostFree(labels, free, task, n - 1);
      if Eligible(labels, task, n - 1) && (best.None? || free[n - 1] >= free[best.value]) then Some(n - 1) else best
  }

  ghost function Target(labels: seq<Option<Label>>, free: seq<nat>, task: Task): (r: Option<nat>)
    requires |labels| == |free|
    ensures r.None? <==> forall w: nat :: w < |labels| ==> !Eligible(labels, task, w)
    ensures r.Some? ==> r.value < |labels| && Eligible(labels, task, r.value)
    ensures r.Some? ==> forall w: nat :: w < |labels| && Eligible(labels, task, w) ==> free[w] <= free[r.value]
  {
    match task.preferred
    case Some(name) =>
      assert forall w: nat :: w < |labels| ==> (Eligible(labels, task, w) <==> Protocol.FindLabel(labels, name, 0) == Some(w));
      Protocol.FindLabel(labels, name, 0)
    case None => MostFree(labels, free, task, |labels|)
  }

  function Relaxed(task: Task): Task {
    if task.preferred.Some? then task.(preferred := None) else task.(notOn := [])
  }

  ghost function PlaceOne(labels: seq<Option<Label>>, p: Pass, task: Task): (r: Pass)
    requires |labels| == |p.free|
    ensures |r.free| == |labels|
  {
    match Target(labels, p.free, task)
    case Some(w) =>
      if p.free[w] > 0 then p.(free := p.free[w := p.free[w] - 1], sent := p.sent + [Sent(task.id, w)])
      else p.(kept := p.kept + [task])
    case None => p.(kept := p.kept + [Relaxed(task)])
  }

  ghost function PlaceItem(labels: seq<Option<Label>>, p: Pass, item: Item): (r: Pass)
    requires |labels| == |p.free|
    ensures |r.free| == |labels|
  {
    match item.verdict
    case Goes => PlaceOne(labels, p, item.task)
    case Waits => p.(kept := p.kept + [item.task])
    case Ends => p
  }

  ghost function PlaceEach(labels: seq<Option<Label>>, free: seq<nat>, items: seq<Item>): (r: Pass)
    requires |labels| == |free|
    ensures |r.free| == |labels|
  {
    if items == [] then Pass(free, [], [])
    else PlaceItem(labels, PlaceEach(labels, free, items[..|items| - 1]), items[|items| - 1])
  }

  // ----- the loops -----

  method FindThread(labels: seq<Option<Label>>, name: Label) returns (r: Option<nat>)
    ensures r == Protocol.FindLabel(labels, name, 0)
  {
    for i := 0 to |labels|
      invariant Protocol.FindLabel(labels, name, 0) == Protocol.FindLabel(labels, name, i)
    {
      if labels[i] == Some(name) {
        return Some(i);
      }
    }
    return None;
  }

  method MaxByFree(labels: seq<Option<Label>>, free: array<nat>, task: Task) returns (r: Option<nat>)
    requires |labels| == free.Length && task.preferred.None?
    ensures r == MostFree(labels, free[..], task, |labels|)
  {
    r := None;
    for i := 0 to |labels|
      invariant r == MostFree(labels, free[..], task, i)
    {
      if Protocol.NotExcluded(labels[i], task.notOn) && (r.None? || free[i] >= free[r.value]) {
        r := Some(i);
      }
    }
  }

  /** The inner loop of `Queue::run`, given what its looks at the tasks find. */
  method PlaceAll(labels: seq<Option<Label>>, free: array<nat>, items: seq<Item>) returns (sent: seq<Sent>, kept: seq<Task>)
    requires |labels| == free.Length
    modifies free
    ensures Pass(free[..], sent, kept) == PlaceEach(labels, old(free[..]), items)
  {
    sent, kept := [], [];
    for i := 0 to |items|
      invariant Pass(free[..], sent, kept) == PlaceEach(labels, old(free[..]), items[..i])
    {
      assert items[..i + 1][..i] == items[..i];
      var Item(task, verdict) := items[i];
      if verdict.Goes? {
        var target;
        if task.preferred.Some? {
          target := FindThread(labels, task.preferred.value);
        } else {
          target := MaxByFree(labels, free, task);
        }
        if target.Some? {
          if free[target.value] > 0 {
            free[target.value] := free[target.value] - 1;
            sent := sent + [Sent(task.id, target.value)];
          } else {
            kept := kept + [task];
          }
        } else {
          kept := kept + [Relaxed(task)];
        }
      } else if verdict.Waits? {
        kept := kept + [task];
      }
    }
    assert items[..|items|] == items;
  }

  // ----- any tasks -----

  /** The tasks of which a look finds this, in order. */
  ghost function Those(items: seq<Item>, verdict: Verdict): seq<Task> {
    if items == [] then []
    else
      var n := |items| - 1;
      Those(items[..n], verdict) + (if items[n].verdict == verdict then [items[n].task] else [])
  }

  /** The slots that were sent to a thread. */
  ghost function SentTo(sent: seq<Sent>, w: nat): nat {
    if sent == [] then 0
    else SentTo(sent[..|sent| - 1], w) + (if sent[|sent| - 1].thread == w then 1 else 0)
  }

  lemma SentToMore(sent: seq<Sent>, x: Sent, w: nat)
    ensures SentTo(sent + [x], w) == SentTo(sent, w) + (if x.thread == w then 1 else 0)
  {
    assert (sent + [x])[..|sent|] == sent;
  }

  /** Each slot that a thread loses is a task that it was sent; and all tasks are sent or kept that do not end. */
  lemma {:induction false} SlotsPaySends(labels: seq<Option<Label>>, free: seq<nat>, items: seq<Item>, w: nat)
    requires |labels| == |free| && w < |labels|
    ensures
      var r := PlaceEach(labels, free, items);
      && r.free[w] + SentTo(r.sent, w) == free[w]
      && |r.sent| + |r.kept| == |Those(items, Goes)| + |Those(items, Waits)|
    decreases |items|
  {
    if items != [] {
      var front := items[..|items| - 1];
      SlotsPaySends(labels, free, front, w);
      var p := PlaceEach(labels, free, front);
      var task := items[|items| - 1].task;
      var target := Target(labels, p.free, task);
      if target.Some? {
        SentToMore(p.sent, Sent(task.id, target.value), w);
      }
    }
  }

  /** A task that could go stays for a reason: all threads it may run on are full, or there are none and it is relaxed. */
  ghost predicate KeptAs(labels: seq<Option<Label>>, free: seq<nat>, task: Task, kept: Task)
    requires |labels| == |free|
  {
    if forall w: nat :: w < |labels| ==> !Eligible(labels, task, w) then kept == Relaxed(task)
    else kept == task && forall w: nat :: w < |labels| && Eligible(labels, task, w) ==> free[w] == 0
  }

  ghost predicate ItemStays(labels: seq<Option<Label>>, free: seq<nat>, item: Item, kept: Task)
    requires |labels| == |free|
  {
    match item.verdict
    case Goes => KeptAs(labels, free, item.task, kept)
    case Waits => kept == item.task
    case Ends => false
  }

  ghost predicate StaysForReason(labels: seq<Option<Label>>, free: seq<nat>, items: seq<Item>, kept: Task)
    requires |labels| == |free|
  {
    exists i :: 0 <= i < |items| && ItemStays(labels, free, items[i], kept)
  }

  ghost predicate SentFor(labels: seq<Option<Label>>, item: Item, x: Sent) {
    item.verdict.Goes? && x.thread < |labels| && item.task.id == x.task && Eligible(labels, item.task, x.thread)
  }

  ghost predicate SentWell(labels: seq<Option<Label>>, items: seq<Item>, x: Sent) {
    exists i :: 0 <= i < |items| && SentFor(labels, items[i], x)
  }

  ghost predicate AllStay(labels: seq<Option<Label>>, free: seq<nat>, items: seq<Item>, kept: seq<Task>)
    requires |labels| == |free|
  {
    forall k :: 0 <= k < |kept| ==> StaysForReason(labels, free, items, kept[k])
  }

  ghost predicate AllSentWell(labels: seq<Option<Label>>, items: seq<Item>, sent: seq<Sent>) {
    forall k :: 0 <= k < |sent| ==> SentWell(labels, items, sent[k])
  }

  lemma StayMore(labels: seq<Option<Label>>, free: seq<nat>, less: seq<nat>, front: seq<Item>, item: Item, kept: seq<Task>)
    requires |labels| == |free| == |less| && AllStay(labels, free, front, kept)
    requires forall w: nat :: w < |labels| ==> less[w] <= free[w]
    ensures AllStay(labels, less, front + [item], kept)
  {
    forall k | 0 <= k < |kept| ensures StaysForReason(labels, less, front + [item], kept[k]) {
      var i :| 0 <= i < |front| && ItemStays(labels, free, front[i], kept[k]);
      assert ItemStays(labels, less, (front + [item])[i], kept[k]);
    }
  }

  lemma SentMore(labels: seq<Option<Label>>, front: seq<Item>, item: Item, sent: seq<Sent>)
    requires AllSentWell(labels, front, sent)
    ensures AllSentWell(labels, front + [item], sent)
  {
    forall k | 0 <= k < |sent| ensures SentWell(labels, front + [item], sent[k]) {
      var i :| 0 <= i < |front| && SentFor(labels, front[i], sent[k]);
      assert (front + [item])[i] == front[i];
    }
  }

  /** What one look does: it sends the task where it may go, keeps it for a reason, or lets it end. */
  lemma PlaceItemKeeps(labels: seq<Option<Label>>, p: Pass, item: Item)
    requires |labels| == |p.free|
    ensures
      var r := PlaceItem(labels, p, item);
      && (forall w: nat :: w < |labels| ==> r.free[w] <= p.free[w])
      && (|| (r.kept == p.kept && exists x: Sent :: SentFor(labels, item, x) && r.sent == p.sent + [x])
          || (r.sent == p.sent && exists kept: Task :: ItemStays(labels, r.free, item, kept) && r.kept == p.kept + [kept])
          || r == p)
  {
    if item.verdict.Goes? {
      var target := Target(labels, p.free, item.task);
      match target
      case Some(w) =>
        if p.free[w] > 0 {
          assert SentFor(labels, item, Sent(item.task.id, w));
        } else {
          assert ItemStays(labels, p.free, item, item.task);
        }
      case None => assert ItemStays(labels, p.free, item, Relaxed(item.task));
    } else if item.verdict.Waits? {
      assert ItemStays(labels, p.free, item, item.task);
    }
  }

  lemma WorkConservingStep(labels: seq<Option<Label>>, p: Pass, front: seq<Item>, item: Item)
    requires |labels| == |p.free| && AllStay(labels, p.free, front, p.kept) && AllSentWell(labels, front, p.sent)
    ensures
      var r := PlaceItem(labels, p, item);
      AllStay(labels, r.free, front + [item], r.kept) && AllSentWell(labels, front + [item], r.sent)
  {
    var r := PlaceItem(labels, p, item);
    PlaceItemKeeps(labels, p, item);
    StayMore(labels, p.free, r.free, front, item, p.kept);
    SentMore(labels, front, item, p.sent);
    assert (front + [item])[|front|] == item;
  }

  /**
   * The pass conserves work, whatever the tasks wish and whichever of them wait: nothing stays that could be sent, and
   * what is sent could go and fits.
   */
  lemma {:induction false} WorkConserving(labels: seq<Option<Label>>, free: seq<nat>, items: seq<Item>)
    requires |labels| == |free|
    ensures
      var r := PlaceEach(labels, free, items);
      AllStay(labels, r.free, items, r.kept) && AllSentWell(labels, items, r.sent)
    decreases |items|
  {
    if items != [] {
      var front, item := items[..|items| - 1], items[|items| - 1];
      WorkConserving(labels, free, front);
      WorkConservingStep(labels, PlaceEach(labels, free, front), front, item);
      assert front + [item] == items;
    }
  }

  // ----- tasks that may run anywhere -----

  /** Those that can go have no wishes; those that wait may have any. */
  ghost predicate Unconstrained(items: seq<Item>) {
    forall i :: 0 <= i < |items| && items[i].verdict.Goes? ==> items[i].task.preferred.None? && items[i].task.notOn == []
  }

  ghost function Min(a: nat, b: nat): nat {
    if a < b then a else b
  }

  /** What stays when the first `n` tasks go that can: the others that can, and those that wait, in order. */
  ghost function Rest(items: seq<Item>, n: nat): seq<Task> {
    if items == [] then []
    else
      var front, last := items[..|items| - 1], items[|items| - 1];
      if last.verdict.Waits? || (last.verdict.Goes? && |Those(front, Goes)| >= n) then Rest(front, n) + [last.task]
      else Rest(front, n)
  }

  lemma {:induction false} RestOfAll(items: seq<Item>, n: nat, m: nat)
    requires |Those(items, Goes)| <= n && |Those(items, Goes)| <= m
    ensures Rest(items, n) == Rest(items, m)
    decreases |items|
  {
    if items != [] {
      RestOfAll(items[..|items| - 1], n, m);
    }
  }

  /** A thread that was sent a task has at most one free slot less than any other. */
  ghost predicate Balanced(r: Pass) {
    forall w: nat, v: nat :: w < |r.free| && v < |r.free| && SentTo(r.sent, w) > 0 ==> r.free[v] <= r.free[w] + 1
  }

  lemma SendBalanced(labels: seq<Option<Label>>, p: Pass, task: Task)
    requires |labels| == |p.free| && task.preferred.None? && task.notOn == [] && Balanced(p)
    ensures Balanced(PlaceOne(labels, p, task))
  {
    var r := PlaceOne(labels, p, task);
    var target := Target(labels, p.free, task);
    if target.Some? && p.free[target.value] > 0 {
      forall w: nat, v: nat | w < |r.free| && v < |r.free| && SentTo(r.sent, w) > 0
        ensures r.free[v] <= r.free[w] + 1
      {
        SentToMore(p.sent, Sent(task.id, target.value), w);
        assert Eligible(labels, task, w) && Eligible(labels, task, v);
      }
    }
  }

  /** What a pass has come to in which those that can go may run anywhere. */
  ghost predicate GreedyOk(free: seq<nat>, items: seq<Item>, r: Pass) {
    var going := Those(items, Goes);
    && |r.sent| == Min(|going|, Sum(free))
    && Sum(r.free) + |r.sent| == Sum(free)
    && (forall i :: 0 <= i < |r.sent| ==> r.sent[i].task == going[i].id)
    && r.kept == Rest(items, |r.sent|)
    && Balanced(r)
  }

  lemma ThoseMore(front: seq<Item>, item: Item, n: nat)
    ensures Those(front + [item], Goes) == Those(front, Goes) + (if item.verdict.Goes? then [item.task] else [])
    ensures
      Rest(front + [item], n) ==
      Rest(front, n) + (if item.verdict.Waits? || (item.verdict.Goes? && |Those(front, Goes)| >= n) then [item.task] else [])
  {
    assert (front + [item])[..|front|] == front;
  }

  lemma GoesStep(labels: seq<Option<Label>>, free: seq<nat>, p: Pass, front: seq<Item>, item: Item)
    requires |labels| == |p.free| > 0 && GreedyOk(free, front, p)
    requires item.verdict.Goes? && item.task.preferred.None? && item.task.notOn == []
    ensures GreedyOk(free, front + [item], PlaceItem(labels, p, item))
  {
    var task := item.task;
    var going := Those(front, Goes);
    SendBalanced(labels, p, task);
    SumZero(p.free);
    assert Eligible(labels, task, 0);
    var w := Target(labels, p.free, task).value;
    if p.free[w] > 0 {
      SumUpdate(p.free, w, p.free[w] - 1);
      RestOfAll(front, |going|, |going| + 1);
      ThoseMore(front, item, |going| + 1);
    } else {
      assert forall v: nat :: v < |labels| ==> Eligible(labels, task, v);
      ThoseMore(front, item, |p.sent|);
    }
  }

  lemma GreedyStep(labels: seq<Option<Label>>, free: seq<nat>, p: Pass, front: seq<Item>, item: Item)
    requires |labels| == |p.free| > 0 && GreedyOk(free, front, p)
    requires item.verdict.Goes? ==> item.task.preferred.None? && item.task.notOn == []
    ensures GreedyOk(free, front + [item], PlaceItem(labels, p, item))
  {
    if item.verdict.Goes? {
      GoesStep(labels, free, p, front, item);
    } else {
      ThoseMore(front, item, |p.sent|);
    }
  }

  /**
   * Greedy dispatch: of a list in which any tasks wait or end, the `k` that can go, and may run anywhere, lead to as
   * many sends as there are such tasks or free slots, the earliest first. The others stay in the order of the list,
   * those that wait unchanged among them; and the load of the threads is balanced.
   */
  lemma {:induction false} GreedyDispatch(labels: seq<Option<Label>>, free: seq<nat>, items: seq<Item>)
    requires |labels| == |free| > 0 && Unconstrained(items)
    ensures GreedyOk(free, items, PlaceEach(labels, free, items))
    decreases |items|
  {
    if items != [] {
      var front, item := items[..|items| - 1], items[|items| - 1];
      GreedyDispatch(labels, free, front);
      GreedyStep(labels, free, PlaceEach(labels, free, front), front, item);
      assert front + [item] == items;
    }
  }
}
