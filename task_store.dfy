/**
 * The client task store (`useTaskStore`, frontend/src/lib/tasks.ts).
 *
 * Each action replaces the store's `tasks` list by a new list computed from
 * the old one. The new lists are given here as pure functions (`Append`,
 * `Update`, `Remove`, `Toggle`, `Sync`), each defined element by element the
 * way `map`/`filter` build them; the class `TaskStore` holds the list and its
 * methods reassign it to those functions' values. The random identifier and
 * the current time are parameters of the actions.
 */
module TaskStore {
  import opened Wrappers
  import opened TaskTypes

  /**
   * The argument of `addTask`. Its type omits `id`, `createdAt` and `status`,
   * but a caller may still pass an object that carries them (the form passes
   * the backend's task record, which has a `status`); they are kept here so
   * that the model can show they are overridden.
   */
  datatype Draft = Draft(
    name: string,
    description: string,
    updatedAt: Option<Time>,
    id: Option<string>,
    createdAt: Option<Time>,
    status: Option<bool>)

  /** The new entry `addTask` builds: generated id, current time, and `status` false. */
  function NewEntry(draft: Draft, newId: string, now: Time): Task
  {
    Task(newId, draft.name, draft.description, false, Some(now), draft.updatedAt)
  }

  /** `addTask`: the old list in order, followed by the new entry. */
  function Append(tasks: seq<Task>, draft: Draft, newId: string, now: Time): (r: seq<Task>)
    ensures |r| == |tasks| + 1
    ensures r[..|tasks|] == tasks
    ensures r[|tasks|].id == newId && r[|tasks|].createdAt == Some(now) && !r[|tasks|].status
    ensures r[|tasks|].name == draft.name && r[|tasks|].description == draft.description
    ensures r[|tasks|].updatedAt == draft.updatedAt
    ensures UniqueIds(tasks) && IdAbsent(tasks, newId) ==> UniqueIds(r)
  {
    tasks + [NewEntry(draft, newId, now)]
  }

  /** Whatever `id`, `createdAt` or `status` a draft carries, `addTask` ignores them. */
  lemma AppendOverridesCarriedFields(tasks: seq<Task>, d1: Draft, d2: Draft, newId: string, now: Time)
    requires d1.name == d2.name && d1.description == d2.description && d1.updatedAt == d2.updatedAt
    ensures Append(tasks, d1, newId, now) == Append(tasks, d2, newId, now)
  {
  }

  /** `updateTask`: every entry whose id is `id` gets the patch spread over it; the others stay. */
  function Update(tasks: seq<Task>, id: string, patch: TaskPatch): (r: seq<Task>)
    ensures |r| == |tasks|
    ensures forall i :: 0 <= i < |tasks| && tasks[i].id != id ==> r[i] == tasks[i]
    ensures forall i :: 0 <= i < |tasks| && tasks[i].id == id ==> r[i] == Merge(tasks[i], patch)
  {
    if tasks == [] then []
    else [if tasks[0].id == id then Merge(tasks[0], patch) else tasks[0]] + Update(tasks[1..], id, patch)
  }

  /** `updateTask` with an id that no entry has leaves the list as it was. */
  lemma UpdateAbsentIsNoOp(tasks: seq<Task>, id: string, patch: TaskPatch)
    requires IdAbsent(tasks, id)
    ensures Update(tasks, id, patch) == tasks
  {
  }

  /** A patch without an `id` keeps every identifier where it was, so uniqueness survives. */
  lemma UpdateWithoutIdKeepsUniqueness(tasks: seq<Task>, id: string, patch: TaskPatch)
    requires UniqueIds(tasks) && patch.id.None?
    ensures UniqueIds(Update(tasks, id, patch))
  {
    var r := Update(tasks, id, patch);
    forall i | 0 <= i < |tasks| ensures r[i].id == tasks[i].id {
      if tasks[i].id == id { MergeLaws(tasks[i], patch); }
    }
  }

  /** A patch that carries an `id` can give two entries the same identifier. */
  lemma UpdateCanBreakUniqueness()
    ensures var tasks := [Task("a", "n", "d", false, None, None), Task("b", "n", "d", false, None, None)];
            var patch := EmptyPatch.(id := Some("b"));
            UniqueIds(tasks) && !UniqueIds(Update(tasks, "a", patch))
  {
    var tasks := [Task("a", "n", "d", false, None, None), Task("b", "n", "d", false, None, None)];
    var patch := EmptyPatch.(id := Some("b"));
    var r := Update(tasks, "a", patch);
    assert r[0].id == "b" && r[1].id == "b";
  }

  /** `deleteTask`: the entries whose id differs from `id`, in their old order. */
  function Remove(tasks: seq<Task>, id: string): (r: seq<Task>)
    ensures |r| == |tasks| - CountId(tasks, id)
    ensures IdAbsent(r, id)
    ensures forall t :: t in r <==> t in tasks && t.id != id
    ensures UniqueIds(tasks) ==> UniqueIds(r)
  {
    if tasks == [] then []
    else if tasks[0].id == id then Remove(tasks[1..], id)
    else [tasks[0]] + Remove(tasks[1..], id)
  }

  /** Removal works piecewise, so the kept entries keep their relative order. */
  lemma {:induction false} RemoveConcat(a: seq<Task>, b: seq<Task>, id: string)
    ensures Remove(a + b, id) == Remove(a, id) + Remove(b, id)
  {
    if a == [] {
      assert a + b == b;
    } else {
      var ab := a + b;
      assert ab[0] == a[0] && ab[1..] == a[1..] + b;
      RemoveConcat(a[1..], b, id);
      if a[0].id == id {
        assert Remove(ab, id) == Remove(a[1..] + b, id);
        assert Remove(a, id) == Remove(a[1..], id);
      } else {
        assert Remove(ab, id) == [a[0]] + (Remove(a[1..], id) + Remove(b, id));
        assert Remove(a, id) == [a[0]] + Remove(a[1..], id);
        ConcatAssoc([a[0]], Remove(a[1..], id), Remove(b, id));
      }
    }
  }

  lemma ConcatAssoc<T>(a: seq<T>, b: seq<T>, c: seq<T>)
    ensures a + (b + c) == (a + b) + c
  {
  }

  /** `deleteTask` with an id that no entry has leaves the list as it was. */
  lemma {:induction false} RemoveAbsentIsNoOp(tasks: seq<Task>, id: string)
    requires IdAbsent(tasks, id)
    ensures Remove(tasks, id) == tasks
  {
    if tasks != [] {
      assert IdAbsent(tasks[1..], id) by {
        forall i | 0 <= i < |tasks| - 1 ensures tasks[1..][i].id != id {
          assert tasks[1..][i] == tasks[i + 1];
        }
      }
      RemoveAbsentIsNoOp(tasks[1..], id);
    }
  }

  /** `toggleComplete`: matching entries get their `status` negated; nothing else changes. */
  function Toggle(tasks: seq<Task>, id: string): (r: seq<Task>)
    ensures |r| == |tasks|
    ensures forall i :: 0 <= i < |tasks| && tasks[i].id != id ==> r[i] == tasks[i]
    ensures forall i :: 0 <= i < |tasks| && tasks[i].id == id ==> r[i] == tasks[i].(status := !tasks[i].status)
    ensures forall i :: 0 <= i < |tasks| ==> r[i].id == tasks[i].id
    ensures UniqueIds(tasks) ==> UniqueIds(r)
  {
    if tasks == [] then []
    else [if tasks[0].id == id then tasks[0].(status := !tasks[0].status) else tasks[0]] + Toggle(tasks[1..], id)
  }

  /** Toggling the same id twice gives back the original list. */
  lemma {:induction false} ToggleTwiceIsIdentity(tasks: seq<Task>, id: string)
    ensures Toggle(Toggle(tasks, id), id) == tasks
  {
    var once := Toggle(tasks, id);
    var twice := Toggle(once, id);
    assert |twice| == |tasks|;
    forall i | 0 <= i < |tasks| ensures twice[i] == tasks[i] {
      assert once[i].id == tasks[i].id;
    }
  }

  /** `syncTasks`: the given list in order, each `createdAt` defaulted to `now` when missing. */
  function Sync(given: seq<Task>, now: Time): (r: seq<Task>)
    ensures |r| == |given|
    ensures forall i :: 0 <= i < |given| ==> r[i].createdAt.Some?
    ensures forall i :: 0 <= i < |given| && given[i].createdAt.Some? ==> r[i] == given[i]
    ensures forall i :: 0 <= i < |given| && given[i].createdAt.None? ==> r[i] == given[i].(createdAt := Some(now))
  {
    if given == [] then []
    else [given[0].(createdAt := Some(given[0].createdAt.GetOr(now)))] + Sync(given[1..], now)
  }

  /** Syncing an already synced list changes nothing, whatever the time of the second sync. */
  lemma SyncIdempotent(given: seq<Task>, now: Time, later: Time)
    ensures Sync(Sync(given, now), later) == Sync(given, now)
  {
    var once := Sync(given, now);
    var twice := Sync(once, later);
    forall i | 0 <= i < |given| ensures twice[i] == once[i] { }
  }

  /** The store: one list of tasks, replaced by every action. */
  class TaskStore {
    var tasks: seq<Task>

    /** The store starts empty. */
    constructor ()
      ensures tasks == []
    {
      tasks := [];
    }

    method AddTask(draft: Draft, newId: string, now: Time)
      modifies this
      ensures tasks == Append(old(tasks), draft, newId, now)
    {
      tasks := Append(tasks, draft, newId, now);
    }

    method UpdateTask(id: string, updates: TaskPatch)
      modifies this
      ensures tasks == Update(old(tasks), id, updates)
    {
      tasks := Update(tasks, id, updates);
    }

    method DeleteTask(id: string)
      modifies this
      ensures tasks == Remove(old(tasks), id)
    {
      tasks := Remove(tasks, id);
    }

    method ToggleComplete(id: string)
      modifies this
      ensures tasks == Toggle(old(tasks), id)
    {
      tasks := Toggle(tasks, id);
    }

    /** Discards the old list entirely. */
    method SyncTasks(given: seq<Task>, now: Time)
      modifies this
      ensures tasks == Sync(given, now)
    {
      tasks := Sync(given, now);
    }
  }

  /**
   * Add a task to an empty store, toggle it, delete it: one entry with status
   * false, then status true, then an empty store.
   */
  method AddToggleDeleteScenario(newId: string, now: Time)
    returns (afterAdd: seq<Task>, afterToggle: seq<Task>, afterDelete: seq<Task>)
    ensures |afterAdd| == 1 && afterAdd[0].id == newId && !afterAdd[0].status
    ensures afterAdd[0].name == "Buy milk" && afterAdd[0].createdAt == Some(now)
    ensures |afterToggle| == 1 && afterToggle[0].status
    ensures afterDelete == []
  {
    var store := new TaskStore();
    store.AddTask(Draft("Buy milk", "2%", None, None, None, None), newId, now);
    afterAdd := store.tasks;
    store.ToggleComplete(newId);
    afterToggle := store.tasks;
    store.DeleteTask(newId);
    afterDelete := store.tasks;
  }
}
