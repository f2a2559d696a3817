/** Who owns a raw command buffer: its handles, the count of them that they share, and the one that is baked. */
module Ownership {
  import opened Tasks
  import opened Binding
  import opened RawBuffer

  type HandleId = nat

  /**
   * The allocation that handles share. `baked` has the field `baked` of each handle that is alive, and `frees`
   * counts the times that the raw buffer was freed.
   */
  datatype Owners = Owners(refs: int, baked: map<HandleId, Option<seq<Task>>>, next: HandleId, frees: nat)

  /** What can be done with a handle. `baking` is what the raw buffer makes of a `Finish`: None if it panics. */
  datatype Op =
    | Clone(h: HandleId)
    | Drop(h: HandleId)
    | Finish(h: HandleId, baking: Option<seq<Task>>)
    | TakeTasks(h: HandleId)

  const CREATED := Owners(1, map[0 := None], 1, 0)

  function CloneOf(s: Owners): Owners {
    s.(refs := s.refs + 1, baked := s.baked[s.next := None], next := s.next + 1)
  }

  function DropOf(s: Owners, h: HandleId): Owners {
    s.(refs := s.refs - 1, baked := s.baked - {h}, frees := if s.refs - 1 == 0 then s.frees + 1 else s.frees)
  }

  /** Does the operation panic? */
  predicate Panics(s: Owners, op: Op)
    requires op.h in s.baked
  {
    match op
    case Clone(h) => s.baked[h].Some?
    case Drop(h) => false
    case Finish(h, baking) => s.baked[h].Some? || s.refs != 1 || baking.None?
    case TakeTasks(h) => s.baked[h].None?
  }

  /** `TakeTasks` drops its handle even if it panics; nothing can be done with a handle that is gone. */
  function Apply(s: Owners, op: Op): Owners {
    if op.h !in s.baked then s
    else
      match op
      case Clone(h) => if Panics(s, op) then s else CloneOf(s)
      case Drop(h) => DropOf(s, h)
      case Finish(h, baking) => if Panics(s, op) then s else s.(baked := s.baked[h := baking])
      case TakeTasks(h) => DropOf(s, h)
  }

  function Exec(s: Owners, ops: seq<Op>): Owners {
    if ops == [] then s else Apply(Exec(s, ops[..|ops| - 1]), ops[|ops| - 1])
  }

  // ----- what every run keeps -----

  /** The count is right, the buffer is freed once no handle is left, and a baked handle is alone. */
  ghost predicate Owned(s: Owners) {
    && s.refs == |s.baked.Keys|
    && (forall h: HandleId :: h in s.baked ==> h < s.next)
    && s.frees == (if s.baked.Keys == {} then 1 else 0)
    && (forall h: HandleId :: h in s.baked && s.baked[h].Some? ==> s.baked.Keys == {h})
  }

  lemma DropOwned(s: Owners, h: HandleId)
    requires Owned(s) && h in s.baked
    ensures Owned(DropOf(s, h))
    ensures DropOf(s, h).frees == (if s.baked.Keys == {h} then 1 else 0)
  {
    var d := DropOf(s, h);
    assert d.baked.Keys == s.baked.Keys - {h};
    assert |d.baked.Keys| == |s.baked.Keys| - 1;
    assert d.baked.Keys == {} <==> s.baked.Keys == {h};
  }

  lemma CloneOwned(s: Owners, h: HandleId)
    requires Owned(s) && h in s.baked && s.baked[h].None?
    ensures Owned(CloneOf(s))
  {
    assert CloneOf(s).baked.Keys == s.baked.Keys + {s.next};
    assert s.frees == 0;
  }

  lemma OnlyOne(s: Owners, h: HandleId)
    requires Owned(s) && h in s.baked
    ensures s.refs == 1 <==> s.baked.Keys == {h}
  {
    if s.refs == 1 {
      assert |s.baked.Keys - {h}| == 0;
      assert s.baked.Keys == {h} + (s.baked.Keys - {h});
    }
  }

  lemma ApplyOwned(s: Owners, op: Op)
    requires Owned(s)
    ensures Owned(Apply(s, op))
  {
    if op.h in s.baked {
      match op
      case Clone(h) => if s.baked[h].None? { CloneOwned(s, h); }
      case Drop(h) => DropOwned(s, h);
      case TakeTasks(h) => DropOwned(s, h);
      case Finish(h, baking) =>
        OnlyOne(s, h);
        if !Panics(s, op) {
          assert s.baked[h := baking].Keys == s.baked.Keys;
        }
    }
  }

  lemma {:induction false} ExecOwned(s: Owners, ops: seq<Op>)
    requires Owned(s)
    ensures Owned(Exec(s, ops))
  {
    if ops != [] {
      ExecOwned(s, ops[..|ops| - 1]);
      ApplyOwned(Exec(s, ops[..|ops| - 1]), ops[|ops| - 1]);
    }
  }

  /**
   * In every run the count is the number of handles. As long as there is one, the buffer is not freed; afterwards
   * it has been freed exactly once. A baked handle is the only one.
   */
  lemma FreedOnce(ops: seq<Op>)
    ensures
      var s := Exec(CREATED, ops);
      && s.refs == |s.baked.Keys|
      && s.frees == (if s.baked.Keys == {} then 1 else 0)
      && (forall h: HandleId :: h in s.baked && s.baked[h].Some? ==> s.baked.Keys == {h})
  {
    assert CREATED.baked.Keys == {0};
    ExecOwned(CREATED, ops);
  }

  /** In every run `finish` goes through exactly on an only handle, not baked, of a buffer that can be baked. */
  lemma FinishNeedsOnlyHandle(ops: seq<Op>, h: HandleId, baking: Option<seq<Task>>)
    requires h in Exec(CREATED, ops).baked
    ensures
      var s := Exec(CREATED, ops);
      !Panics(s, Finish(h, baking)) <==> s.baked.Keys == {h} && s.baked[h].None? && baking.Some?
  {
    assert CREATED.baked.Keys == {0};
    ExecOwned(CREATED, ops);
    OnlyOne(Exec(CREATED, ops), h);
  }

  /** Once baked, a handle stays the only one, and stays baked with the same tasks, until it goes; then it is freed. */
  ghost predicate BakedOrGone(s: Owners, h: HandleId, tasks: seq<Task>) {
    || (s.baked == map[h := Some(tasks)] && s.frees == 0)
    || (s.baked == map[] && s.frees == 1)
  }

  lemma {:induction false} BakedStays(s: Owners, ops: seq<Op>, h: HandleId, tasks: seq<Task>)
    requires Owned(s) && h in s.baked && s.baked[h] == Some(tasks)
    ensures BakedOrGone(Exec(s, ops), h, tasks)
  {
    if ops == [] {
      assert s.baked.Keys == {h};
    } else {
      var before := Exec(s, ops[..|ops| - 1]);
      BakedStays(s, ops[..|ops| - 1], h, tasks);
      ExecOwned(s, ops[..|ops| - 1]);
      if ops[|ops| - 1].h in before.baked {
        assert before.baked.Keys == {h} && before.refs == 1;
        assert before.baked - {h} == map[];
      }
    }
  }

  /** A handle is replaced by a clone of it. */
  lemma Moved(s: Owners, h: HandleId)
    requires Owned(s) && h in s.baked && s.baked[h].None?
    ensures
      var r := Apply(Apply(s, Clone(h)), Drop(h));
      && r.baked.Keys == s.baked.Keys - {h} + {s.next} && r.baked[s.next].None? && r.frees == s.frees
  {
    CloneOwned(s, h);
    var one := Apply(s, Clone(h));
    DropOwned(one, h);
    assert s.next in one.baked && s.next != h;
  }

  // ----- the handles themselves -----

  /** A builder: a handle of the buffer, and the task that the next command continues. */
  datatype BufferedCommand = BufferedCommand(parent: HandleId, response: TaskId)

  class SharedBuffer {
    const raw: RawCommandBuffer
    var refs: int
    var baked: map<HandleId, Option<seq<Task>>>
    var next: HandleId
    var frees: nat

    ghost function Now(): Owners
      reads this
    {
      Owners(refs, baked, next, frees)
    }

    /**
     * What every method keeps. Once a handle is baked the raw buffer is empty; as long as none is, the raw buffer
     * records, unless a bake has failed.
     */
    ghost predicate Valid()
      reads this, raw
    {
      && Owned(Now())
      && (forall h: HandleId :: h in baked && baked[h].Some? ==> raw.chains == [])
    }

    /** A command on this handle can be recorded. */
    ghost predicate Recording(h: HandleId)
      reads this, raw
    {
      h in baked && (baked[h].None? ==> raw.Valid())
    }

    constructor ()
      ensures Valid() && Now() == CREATED && fresh(raw) && raw.Valid() && Flat(raw.chains) == []
    {
      raw := new RawCommandBuffer();
      refs, baked, next, frees := 1, map[0 := None], 1, 0;
    }

    method CloneHandle(h: HandleId) returns (copy: Option<HandleId>)
      requires Valid() && h in baked
      modifies this
      ensures Valid() && Now() == Apply(old(Now()), Clone(h))
      ensures copy == if old(baked)[h].Some? then None else Some(old(next))
      ensures copy.Some? ==> copy.value in baked && copy.value !in old(baked) && baked[copy.value].None?
      ensures copy.Some? ==> h in baked && forall x: HandleId :: x in baked ==> baked[x].None?
    {
      ApplyOwned(Now(), Clone(h));
      if baked[h].Some? {
        return None;
      }
      refs := refs + 1;
      copy := Some(next);
      baked := baked[next := None];
      next := next + 1;
    }

    /** The last handle takes the buffer with it. */
    method DropHandle(h: HandleId)
      requires Valid() && h in baked
      modifies this
      ensures Valid() && Now() == Apply(old(Now()), Drop(h)) && baked == old(baked) - {h}
      ensures frees == old(frees) + (if old(baked).Keys == {h} then 1 else 0)
    {
      DropOwned(Now(), h);
      ApplyOwned(Now(), Drop(h));
      refs := refs - 1;
      baked := baked - {h};
      if refs == 0 {
        frees := frees + 1;
      }
    }

    /** Bakes the buffer, if this is its only handle and it is not baked yet. */
    method FinishHandle(h: HandleId) returns (ok: bool)
      requires Valid() && Recording(h)
      modifies this, raw
      ensures Valid()
      ensures ok <==>
        && old(baked).Keys == {h} && old(baked)[h].None?
        && old(FencesInBounds(raw.fences, |raw.chains|) && LinksInBounds(raw.links, |raw.chains|))
      ensures ok ==>
        && baked.Keys == {h} && baked[h].Some?
        && old(LinksInBounds(raw.links, |raw.chains|))
        && baked[h].value == Bind(old(Flat(raw.chains)), old(Edges(raw.chains, raw.links)), old(raw.nextSem))
        && old(FencesInBounds(raw.fences, |raw.chains|))
        && FencesFollow(old(raw.bound), old(raw.chains), old(raw.fences), raw.bound)
      ensures !ok ==> Now() == old(Now())
      ensures old(baked).Keys != {h} || old(baked)[h].Some? ==> Recording(h) && raw.chains == old(raw.chains)
    {
      OnlyOne(Now(), h);
      if baked[h].Some? || refs != 1 {
        return false;
      }
      var tasks := raw.Finish();
      ApplyOwned(Now(), Finish(h, tasks));
      if tasks.None? {
        return false;
      }
      baked := baked[h := tasks];
      return true;
    }

    /** Gives the tasks of a baked buffer away, and with them the handle. */
    method TakeTasksOf(h: HandleId) returns (tasks: Option<seq<Task>>)
      requires Valid() && h in baked
      modifies this
      ensures Valid() && Now() == Apply(old(Now()), TakeTasks(h))
      ensures tasks == old(baked)[h]
      ensures tasks.Some? ==> baked.Keys == {} && frees == old(frees) + 1
    {
      tasks := baked[h];
      DropHandle(h);
    }

    /** A command on a handle that is not baked records a task, and gives a builder with a handle of its own. */
    method AddSyncCommand(h: HandleId, out: Outcome) returns (command: Option<BufferedCommand>)
      requires Valid() && Recording(h)
      modifies this, raw
      ensures Valid() && Now() == Apply(old(Now()), Clone(h))
      ensures command.Some? <==> old(baked)[h].None?
      ensures command.None? ==> raw.chains == old(raw.chains)
      ensures command.Some? ==>
        && raw.Valid()
        && command.value.parent in baked && command.value.parent !in old(baked) && command.value.response in raw.open
        && Flat(raw.chains) == old(Flat(raw.chains)) + [Task(command.value.response, Root(out), [], [], None, [])]
        && raw.unanswered == [command.value.response]
    {
      if baked[h].Some? {
        return None;
      }
      var copy := CloneHandle(h);
      var response := raw.AddTask(out);
      return Some(BufferedCommand(copy.value, response));
    }

    /** Links and fences, like commands, are refused on a baked handle. */
    method LinkChainsOf(h: HandleId, dependency: nat, successor: nat) returns (ok: bool)
      requires Valid() && Recording(h)
      modifies raw
      ensures Valid() && Recording(h) && (ok <==> baked[h].None?)
      ensures raw.links == old(raw.links) + (if ok then [Link(dependency, successor)] else [])
      ensures raw.fences == old(raw.fences) && raw.chains == old(raw.chains)
    {
      if baked[h].Some? {
        return false;
      }
      raw.LinkChains(dependency, successor);
      return true;
    }

    method CreateFenceFor(h: HandleId, chain: nat) returns (fence: Option<FenceId>)
      requires Valid() && Recording(h)
      modifies raw
      ensures Valid() && Recording(h) && (fence.Some? <==> baked[h].None?)
      ensures raw.fences == old(raw.fences) + (if fence.Some? then [(chain, fence.value)] else [])
      ensures raw.links == old(raw.links) && raw.chains == old(raw.chains)
    {
      if baked[h].Some? {
        return None;
      }
      var made := raw.CreateFence(chain);
      return Some(made);
    }

    /**
     * A command on a builder records a continuation, and moves the builder on: its old handle is dropped. On a
     * builder that was itself baked, through `parent`, it fails, and the builder is gone.
     */
    method ChainCommand(command: BufferedCommand, f: Value -> Outcome) returns (next: Option<BufferedCommand>)
      requires Valid() && Recording(command.parent)
      requires baked[command.parent].None? ==> command.response in raw.open
      modifies this, raw
      ensures Valid()
      ensures next.Some? <==> old(baked)[command.parent].None?
      ensures next.None? ==> baked.Keys == {} && frees == old(frees) + 1
      ensures next.Some? ==>
        && raw.Valid() && next.value.parent in baked && baked[next.value.parent].None? && next.value.response in raw.open
        && baked.Keys == old(baked).Keys - {command.parent} + {next.value.parent} && frees == old(frees)
        && Flat(raw.chains) ==
           old(Flat(raw.chains)) + [Task(next.value.response, Continuation(command.response, f), [], [], None, [])]
        && raw.unanswered == old(raw.unanswered) + [next.value.response]
    {
      var parent := CloneHandle(command.parent);
      if parent.None? {
        DropHandle(command.parent);
        return None;
      }
      var response := raw.AddChainedTask(f, command.response);
      DropHandle(command.parent);
      Moved(old(Now()), command.parent);
      return Some(BufferedCommand(parent.value, response));
    }

    /** Ends a builder: its handle is dropped. There is no chain to take controllers from once it is baked. */
    method RespondTo(command: BufferedCommand) returns (controllers: Option<seq<TaskId>>)
      requires Valid() && Recording(command.parent)
      requires baked[command.parent].None? ==> command.response in raw.open
      modifies this, raw
      ensures Valid() && Now() == Apply(old(Now()), Drop(command.parent))
      ensures controllers.Some? <==> old(baked)[command.parent].None?
      ensures controllers.Some? ==>
        && raw.Valid() && raw.open == old(raw.open) - {command.response}
        && Flat(raw.chains) == old(Flat(raw.chains))
        && controllers.value == old(raw.unanswered) && raw.unanswered == []
    {
      if raw.group < |raw.chains| {
        assert baked[command.parent].None?;
        var taken := raw.Response(command.response);
        controllers := Some(taken);
        assert forall x: HandleId :: x in baked ==> baked[x].None?;
      } else {
        controllers := None;
      }
      DropHandle(command.parent);
    }
  }
}
