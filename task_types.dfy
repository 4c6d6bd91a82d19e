/**
 * The client-side task record (frontend/src/types/task.ts) and the
 * field-by-field object spread the stores use to combine two records.
 */
module TaskTypes {
  import opened Wrappers

  /** A JavaScript `Date`, as the number of milliseconds since the epoch it holds. */
  type Time = int

  /** A task as the client stores it; `createdAt` and `updatedAt` are optional. */
  datatype Task = Task(
    id: string,
    name: string,
    description: string,
    status: bool,
    createdAt: Option<Time>,
    updatedAt: Option<Time>)

  /**
   * A `Partial<Task>`: every field may be missing. A present field is `Some`;
   * spreading the patch over a task overwrites exactly the present fields.
   */
  datatype TaskPatch = TaskPatch(
    id: Option<string>,
    name: Option<string>,
    description: Option<string>,
    status: Option<bool>,
    createdAt: Option<Option<Time>>,
    updatedAt: Option<Option<Time>>)

  /** `{ ...t, ...p }`: the fields `p` carries win, every other field is `t`'s. */
  function Merge(t: Task, p: TaskPatch): (r: Task)
    ensures r.id == (if p.id.Some? then p.id.value else t.id)
    ensures r.name == (if p.name.Some? then p.name.value else t.name)
    ensures r.description == (if p.description.Some? then p.description.value else t.description)
    ensures r.status == (if p.status.Some? then p.status.value else t.status)
    ensures r.createdAt == (if p.createdAt.Some? then p.createdAt.value else t.createdAt)
    ensures r.updatedAt == (if p.updatedAt.Some? then p.updatedAt.value else t.updatedAt)
  {
    Task(
      p.id.GetOr(t.id),
      p.name.GetOr(t.name),
      p.description.GetOr(t.description),
      p.status.GetOr(t.status),
      p.createdAt.GetOr(t.createdAt),
      p.updatedAt.GetOr(t.updatedAt))
  }

  /** The patch that carries no field at all (`{}`). */
  const EmptyPatch := TaskPatch(None, None, None, None, None, None)

  /** Merging is a right-biased overwrite: the empty patch changes nothing, and merging twice is merging once. */
  lemma MergeLaws(t: Task, p: TaskPatch)
    ensures Merge(t, EmptyPatch) == t
    ensures Merge(Merge(t, p), p) == Merge(t, p)
    ensures p.id.None? ==> Merge(t, p).id == t.id
    ensures p.createdAt.None? ==> Merge(t, p).createdAt == t.createdAt
  {
  }

  /** Identifiers are pairwise distinct. */
  ghost predicate UniqueIds(tasks: seq<Task>)
  {
    forall i, j :: 0 <= i < j < |tasks| ==> tasks[i].id != tasks[j].id
  }

  /** No entry of `tasks` has identifier `id`. */
  ghost predicate IdAbsent(tasks: seq<Task>, id: string)
  {
    forall i :: 0 <= i < |tasks| ==> tasks[i].id != id
  }

  /** The number of entries whose identifier is `id`. */
  function CountId(tasks: seq<Task>, id: string): nat
  {
    if tasks == [] then 0
    else (if tasks[0].id == id then 1 else 0) + CountId(tasks[1..], id)
  }

  /** `CountId` is zero exactly when the identifier is absent. */
  lemma {:induction false} CountIdZero(tasks: seq<Task>, id: string)
    ensures CountId(tasks, id) == 0 <==> IdAbsent(tasks, id)
  {
    if tasks != [] {
      CountIdZero(tasks[1..], id);
      if tasks[0].id != id {
        assert forall i :: 1 <= i < |tasks| ==> tasks[i] == tasks[1..][i - 1];
      }
    }
  }
}
