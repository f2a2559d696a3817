/** Tasks, their results and what a set of tasks is meant to compute, with no executor in sight. */
module Tasks {
  /** The values that task functions take and return; the erased form of `T: MVSynced`. */
  type Value(==, !new)

  type TaskId = nat
  type SemId = nat
  type Label = string

  datatype Option<+T> = None | Some(value: T)

  /** The shared state cell of a task. The panic payload is not modelled. */
  datatype TaskState = Pending | Ready | Panicked | Cancelled

  /** What `TaskHandle::wait` gives to its caller. */
  datatype TaskResult = Returned(value: Value) | PanickedResult | CancelledResult

  /** What a task function does once it runs to its end. */
  datatype Outcome = Yields(value: Value) | Panics

  /** A task either starts from nothing, or continues from the value of the task whose handle it owns. */
  datatype Body =
    | Root(out: Outcome)
    | Continuation(pred: TaskId, f: Value -> Outcome)

  datatype Task = Task(
    id: TaskId,
    body: Body,
    wait: seq<SemId>,
    semaphores: seq<SemId>,
    preferred: Option<Label>,
    notOn: seq<Label>)

  predicate HasPred(task: Task) { task.body.Continuation? }

  /**
   * What the constructors guarantee: ids are positions, a continuation is created after the task whose
   * handle it is given, and a handle, which is moved, is given to one continuation only.
   */
  ghost predicate WellFormed(tasks: seq<Task>) {
    && (forall i :: 0 <= i < |tasks| ==> tasks[i].id == i)
    && (forall i :: 0 <= i < |tasks| && HasPred(tasks[i]) ==> tasks[i].body.pred < i)
    && (forall i, j :: 0 <= i < j < |tasks| && HasPred(tasks[i]) && HasPred(tasks[j])
                       ==> tasks[i].body.pred != tasks[j].body.pred)
  }

  /** The sequential meaning of a task: fold the functions of its chain, stopping at the first panic. */
  ghost function Eval(tasks: seq<Task>, t: TaskId): Outcome
    requires WellFormed(tasks) && t < |tasks|
    decreases t
  {
    match tasks[t].body
    case Root(out) => out
    case Continuation(p, f) =>
      match Eval(tasks, p)
      case Yields(v) => f(v)
      case Panics => Panics
  }

  /** The task, or one that its chain goes back to, is in `cancelled`. */
  ghost predicate Tainted(tasks: seq<Task>, cancelled: set<TaskId>, t: TaskId)
    requires WellFormed(tasks) && t < |tasks|
    decreases t
  {
    t in cancelled || (HasPred(tasks[t]) && Tainted(tasks, cancelled, tasks[t].body.pred))
  }

  lemma {:induction false} TaintedGrows(tasks: seq<Task>, small: set<TaskId>, large: set<TaskId>, t: TaskId)
    requires WellFormed(tasks) && t < |tasks|
    requires small <= large && Tainted(tasks, small, t)
    ensures Tainted(tasks, large, t)
    decreases t
  {
    if t !in small {
      TaintedGrows(tasks, small, large, tasks[t].body.pred);
    }
  }

  lemma {:induction false} UntaintedIfNoneCancelled(tasks: seq<Task>, t: TaskId)
    requires WellFormed(tasks) && t < |tasks|
    ensures !Tainted(tasks, {}, t)
    decreases t
  {
    if HasPred(tasks[t]) {
      UntaintedIfNoneCancelled(tasks, tasks[t].body.pred);
    }
  }

  ghost function StateOf(out: Outcome): TaskState {
    if out.Yields? then Ready else Panicked
  }

  /** No element occurs twice. */
  ghost predicate NoDup<T>(s: seq<T>) {
    forall i, j :: 0 <= i < j < |s| ==> s[i] != s[j]
  }

  lemma NoDupPush<T>(s: seq<T>, x: T)
    requires NoDup(s) && x !in s
    ensures NoDup(s + [x])
    ensures forall y :: y in s + [x] <==> y in s || y == x
  {
  }

  lemma NoDupDrop<T>(a: seq<T>, x: T, b: seq<T>)
    requires NoDup(a + [x] + b)
    ensures NoDup(a + b) && x !in a + b
    ensures forall y :: y in a + b <==> y in a + [x] + b && y != x
  {
    var s := a + [x] + b;
    assert forall i :: 0 <= i < |a + b| ==> (a + b)[i] == s[if i < |a| then i else i + 1];
    assert s[|a|] == x;
    forall y | y in s && y != x ensures y in a + b {
      var i :| 0 <= i < |s| && s[i] == y;
      assert (a + b)[if i < |a| then i else i - 1] == y;
    }
  }
}
