/**
 * The task table's own state (`TaskList`, frontend/src/components/tasks/TaskList.tsx).
 *
 * The component keeps a list of its own (`useState<Task[]>([])`), separate
 * from the task store. It fills that list from the backend's task records,
 * renaming their fields into the client shape, and updates it locally after a
 * status toggle the backend accepted. Its delete button acts on the task
 * store, not on this list. Request outcomes are arguments.
 */
module TaskList {
  import opened Wrappers
  import opened TaskTypes
  import TaskStore

  /**
   * A task record as the backend's JSON carries it: `_id`, and the
   * timestamps `created_at`/`updated_at`, already read as times.
   */
  datatype BackendTask = BackendTask(
    _id: string,
    name: string,
    description: string,
    status: bool,
    created_at: Time,
    updated_at: Time)

  /** The client record built from one backend record. */
  function Format(t: BackendTask): (r: Task)
    ensures r.id == t._id && r.name == t.name && r.description == t.description && r.status == t.status
    ensures r.createdAt == Some(t.created_at) && r.updatedAt == Some(t.updated_at)
  {
    Task(t._id, t.name, t.description, t.status, Some(t.created_at), Some(t.updated_at))
  }

  /** `data.tasks.map(...)`: one client record per backend record, same order. */
  function FormatAll(ts: seq<BackendTask>): (r: seq<Task>)
    ensures |r| == |ts|
    ensures forall i :: 0 <= i < |ts| ==>
              r[i].id == ts[i]._id && r[i].name == ts[i].name &&
              r[i].description == ts[i].description && r[i].status == ts[i].status
    ensures forall i :: 0 <= i < |ts| ==>
              r[i].createdAt == Some(ts[i].created_at) && r[i].updatedAt == Some(ts[i].updated_at)
  {
    if ts == [] then [] else [Format(ts[0])] + FormatAll(ts[1..])
  }

  /** Distinct backend `_id`s give distinct client `id`s. */
  lemma FormatKeepsIdsDistinct(ts: seq<BackendTask>)
    requires forall i, j :: 0 <= i < j < |ts| ==> ts[i]._id != ts[j]._id
    ensures UniqueIds(FormatAll(ts))
  {
  }

  /** The local update after an accepted toggle: matching entries get `status := newStatus`. */
  function SetStatus(tasks: seq<Task>, id: string, newStatus: bool): (r: seq<Task>)
    ensures |r| == |tasks|
    ensures forall i :: 0 <= i < |tasks| && tasks[i].id != id ==> r[i] == tasks[i]
    ensures forall i :: 0 <= i < |tasks| && tasks[i].id == id ==> r[i] == tasks[i].(status := newStatus)
  {
    if tasks == [] then []
    else [if tasks[0].id == id then tasks[0].(status := newStatus) else tasks[0]] + SetStatus(tasks[1..], id, newStatus)
  }

  /** Every entry with identifier `id` has status `status`. */
  ghost predicate StatusIs(tasks: seq<Task>, id: string, status: bool)
  {
    forall i :: 0 <= i < |tasks| && tasks[i].id == id ==> tasks[i].status == status
  }

  /**
   * Two accepted toggles, each passing the status the entry shows at that
   * moment, give back the original list.
   */
  lemma ToggleTwiceRestores(tasks: seq<Task>, id: string, current: bool)
    requires StatusIs(tasks, id, current)
    ensures StatusIs(SetStatus(tasks, id, !current), id, !current)
    ensures SetStatus(SetStatus(tasks, id, !current), id, !!current) == tasks
  {
    var once := SetStatus(tasks, id, !current);
    var twice := SetStatus(once, id, !!current);
    forall i | 0 <= i < |tasks| ensures twice[i] == tasks[i] {
    }
  }

  /**
   * The local toggle is not a flip: it writes the negation of the status the
   * caller passed, so a stale `currentStatus` leaves the entry unchanged.
   */
  lemma StaleToggleChangesNothing(tasks: seq<Task>, id: string, current: bool)
    requires StatusIs(tasks, id, !current)
    ensures SetStatus(tasks, id, !current) == tasks
  {
    var r := SetStatus(tasks, id, !current);
    forall i | 0 <= i < |tasks| ensures r[i] == tasks[i] {
    }
  }

  /** What the awaited list request produced: the `tasks` array of an ok response, or a failure. */
  datatype ListOutcome = Listed(tasks: seq<BackendTask>) | ListFailed

  /** The component's local state. */
  class TaskListView {
    var tasks: seq<Task>

    /** The list is empty until a fetch succeeds. */
    constructor ()
      ensures tasks == []
    {
      tasks := [];
    }

    /** The mount-time fetch: replaces the list on success, keeps it on failure. */
    method FetchTasks(outcome: ListOutcome)
      modifies this
      ensures outcome.Listed? ==> tasks == FormatAll(outcome.tasks)
      ensures outcome.ListFailed? ==> tasks == old(tasks)
    {
      match outcome {
        case Listed(data) =>
          tasks := FormatAll(data);
        case ListFailed =>
          // 'Failed to fetch tasks' is thrown, caught and logged
      }
    }

    /** After the status request: a local update when it was accepted, nothing otherwise. */
    method HandleToggleComplete(taskId: string, currentStatus: bool, responseOk: bool)
      modifies this
      ensures responseOk ==> tasks == SetStatus(old(tasks), taskId, !currentStatus)
      ensures !responseOk ==> tasks == old(tasks)
    {
      if responseOk {
        tasks := SetStatus(tasks, taskId, !currentStatus);
      }
    }

    /**
     * The delete button: it removes the entry from the task store, and this
     * component's list still holds it.
     */
    method HandleDelete(store: TaskStore.TaskStore, id: string)
      modifies store
      ensures store.tasks == TaskStore.Remove(old(store.tasks), id)
      ensures tasks == old(tasks)
    {
      store.DeleteTask(id);
    }
  }
}
