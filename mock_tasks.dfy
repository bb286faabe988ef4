/**
 * The mock persistence adapter: CRUD over a list of tasks kept under one
 * storage key. The storage entry is the class field `db` (absent until first
 * written); latency and JSON encoding are not modelled, and every clock read
 * (`Date.now()` ids, ISO timestamps) is a parameter.
 */
module MockTasks {
  import opened Wrappers
  import opened Seqs
  import opened TaskSlice

  /** `Omit<Task, 'id' | 'createdAt' | 'updatedAt'>`: what the form submits for a new task. */
  datatype TaskDraft = TaskDraft(
    title: string,
    description: Option<string>,
    status: TaskStatus,
    priority: Priority,
    dueDate: Option<string>)

  /**
   * `Partial<Omit<Task, 'id' | 'createdAt'>>`: `None` is a key that is absent.
   * For the optional fields, `Some(None)` is a key present with value `undefined`.
   */
  datatype TaskUpdate = TaskUpdate(
    title: Option<string>,
    description: Option<Option<string>>,
    status: Option<TaskStatus>,
    priority: Option<Priority>,
    dueDate: Option<Option<string>>)

  /** The update the board sends for a drag: `{ status: newStatus }`. */
  function StatusOnly(s: TaskStatus): TaskUpdate {
    TaskUpdate(None, None, Some(s), None, None)
  }

  /** The update the board sends for an edit: every field of the submitted form. */
  function DraftAsUpdate(d: TaskDraft): TaskUpdate {
    TaskUpdate(Some(d.title), Some(d.description), Some(d.status), Some(d.priority), Some(d.dueDate))
  }

  /** The editable fields of a task, as the form is filled from it. */
  function DraftOf(t: Task): TaskDraft {
    TaskDraft(t.title, t.description, t.status, t.priority, t.dueDate)
  }

  /** `{ ...draft, id, createdAt, updatedAt }`, the two timestamps being two separate clock reads. */
  function FromDraft(d: TaskDraft, id: string, createdAt: string, updatedAt: string): Task {
    Task(id, d.title, d.description, d.status, d.priority, d.dueDate, createdAt, updatedAt)
  }

  /** `{ ...t, ...updates, updatedAt: now }`: present keys override, the timestamp is fresh. */
  function Merge(t: Task, u: TaskUpdate, now: string): (r: Task)
    ensures r.id == t.id && r.createdAt == t.createdAt && r.updatedAt == now
    ensures r.title == if u.title.Some? then u.title.value else t.title
    ensures r.description == if u.description.Some? then u.description.value else t.description
    ensures r.status == if u.status.Some? then u.status.value else t.status
    ensures r.priority == if u.priority.Some? then u.priority.value else t.priority
    ensures r.dueDate == if u.dueDate.Some? then u.dueDate.value else t.dueDate
  {
    Task(
      t.id,
      u.title.GetOr(t.title),
      u.description.GetOr(t.description),
      u.status.GetOr(t.status),
      u.priority.GetOr(t.priority),
      u.dueDate.GetOr(t.dueDate),
      t.createdAt,
      now)
  }

  /** A created task carries the draft's fields unchanged, the given id, and the two timestamps. */
  lemma CreatedTaskRoundTrip(d: TaskDraft, id: string, createdAt: string, updatedAt: string)
    ensures DraftOf(FromDraft(d, id, createdAt, updatedAt)) == d
    ensures FromDraft(d, id, createdAt, updatedAt).id == id
    ensures FromDraft(d, id, createdAt, updatedAt).createdAt == createdAt
    ensures FromDraft(d, id, createdAt, updatedAt).updatedAt == updatedAt
  {
  }

  /** Saving the edit form overwrites every editable field and keeps id and creation time. */
  lemma EditOverwritesEditableFields(t: Task, d: TaskDraft, now: string)
    ensures DraftOf(Merge(t, DraftAsUpdate(d), now)) == d
    ensures Merge(t, DraftAsUpdate(d), now) == FromDraft(d, t.id, t.createdAt, now)
  {
  }

  /** A status-only update is exactly the store's `moveTask` change, with the adapter's timestamp. */
  lemma StatusUpdateIsMove(t: Task, s: TaskStatus, now: string)
    ensures Merge(t, StatusOnly(s), now) == t.(status := s, updatedAt := now)
  {
  }

  /** `initialTasks`: the seed data written on the first read of an empty store. */
  const InitialTasks: seq<Task> := [
    Task("1", "Setup project structure", Some("Initialize the React project with necessary configurations"),
         Done, High, Some("2024-01-15"), "2024-01-10T08:00:00Z", "2024-01-12T14:30:00Z"),
    Task("2", "Design dashboard layout", Some("Create wireframes and design mockups for the dashboard"),
         Done, High, Some("2024-01-18"), "2024-01-10T08:15:00Z", "2024-01-13T10:20:00Z"),
    Task("3", "Implement task form", Some("Build form component with validation"),
         InProgress, High, Some("2024-01-20"), "2024-01-11T09:00:00Z", "2024-01-14T11:45:00Z"),
    Task("4", "Setup authentication", Some("Implement login and protected routes"),
         InProgress, High, Some("2024-01-22"), "2024-01-11T10:30:00Z", "2024-01-14T15:20:00Z"),
    Task("5", "Add drag and drop", Some("Implement task movement between columns"),
         Todo, Medium, Some("2024-01-25"), "2024-01-12T09:00:00Z", "2024-01-14T09:00:00Z"),
    Task("6", "Write unit tests", Some("Add tests for core components and utilities"),
         Todo, Medium, Some("2024-01-28"), "2024-01-12T14:00:00Z", "2024-01-14T09:00:00Z"),
    Task("7", "Deploy to production", Some("Deploy application to production servers"),
         Todo, Low, Some("2024-02-01"), "2024-01-13T08:00:00Z", "2024-01-14T09:00:00Z")
  ]

  /** The seeds carry the ids '1'..'7', in order, so no two share an id. */
  lemma SeedIdsDistinct()
    ensures |InitialTasks| == 7
    ensures forall i :: 0 <= i < 7 ==> InitialTasks[i].id == [('1' as int + i) as char]
    ensures UniqueIds(InitialTasks)
  {
  }

  /** The list the adapter works on: the stored one, or `'[]'` when nothing is stored yet. */
  function Stored(db: Option<seq<Task>>): seq<Task> {
    db.GetOr([])
  }

  /**
   * When no two tasks share an id, splicing out the first match (the adapter's
   * delete) and filtering out every match (the store's delete) agree.
   */
  lemma SpliceAgreesWithFilter(items: seq<Task>, id: string, k: int)
    requires UniqueIds(items) && IsFirstWithId(items, id, k)
    ensures items[..k] + items[k + 1..] == Filter(items, OtherId(id))
  {
    FilterDropsOne(items, OtherId(id), k);
  }

  /** With a repeated id the two deletes disagree: the adapter keeps the second copy, the store does not. */
  lemma SpliceDiffersOnDuplicates(t: Task)
    ensures var items := [t, t.(title := t.title + "!")];
      IsFirstWithId(items, t.id, 0) &&
      items[..0] + items[1..] != Filter(items, OtherId(t.id))
  {
    var items := [t, t.(title := t.title + "!")];
    assert Filter(items, OtherId(t.id)) == [];
  }

  /** The adapter; `db` is the storage entry, `None` until something is written. */
  class TaskApi {
    var db: Option<seq<Task>>

    constructor (stored: Option<seq<Task>>)
      ensures db == stored
    {
      db := stored;
    }

    /** `getTasks`: the stored list if there is one; otherwise the seeds are stored and returned. */
    method GetTasks() returns (tasks: seq<Task>)
      modifies this
      ensures old(db).Some? ==> tasks == old(db).value && db == old(db)
      ensures old(db).None? ==> tasks == InitialTasks && db == Some(InitialTasks)
    {
      if db.Some? {
        tasks := db.value;
      } else {
        db := Some(InitialTasks);
        tasks := InitialTasks;
      }
    }

    /**
     * `createTask`: the new task, built from the draft, goes first in the
     * stored list. `createdAt` and `updatedAt` are two separate clock reads.
     */
    method CreateTask(draft: TaskDraft, id: string, createdAt: string, updatedAt: string) returns (t: Task)
      modifies this
      ensures DraftOf(t) == draft && t.id == id && t.createdAt == createdAt && t.updatedAt == updatedAt
      ensures db == Some([t] + Stored(old(db)))
    {
      var tasks := Stored(db);
      t := FromDraft(draft, id, createdAt, updatedAt);
      tasks := [t] + tasks;
      db := Some(tasks);
    }

    /**
     * `updateTask`: rejects with NotFound, writing nothing, when no stored task
     * has the id; otherwise merges the updates into the first match, stamps it,
     * writes the list back and returns the stored task.
     */
    method UpdateTask(id: string, updates: TaskUpdate, now: string) returns (r: Result<Task>)
      modifies this
      ensures !HasId(Stored(old(db)), id) ==> r == Err(NotFound) && db == old(db)
      ensures forall k :: IsFirstWithId(Stored(old(db)), id, k) ==>
        r == Ok(Merge(Stored(old(db))[k], updates, now)) &&
        db == Some(Stored(old(db))[k := r.value])
    {
      var tasks := Stored(db);
      var idx := FindIndex(tasks, id);
      if idx == -1 {
        return Err(NotFound);
      }
      tasks := tasks[idx := Merge(tasks[idx], updates, now)];
      db := Some(tasks);
      r := Ok(tasks[idx]);
    }

    /**
     * `deleteTask`: rejects with NotFound, writing nothing, when no stored task
     * has the id; otherwise removes the first match only.
     */
    method DeleteTask(id: string) returns (r: Result<()>)
      modifies this
      ensures !HasId(Stored(old(db)), id) ==> r == Err(NotFound) && db == old(db)
      ensures forall k :: IsFirstWithId(Stored(old(db)), id, k) ==>
        r == Ok(()) && db == Some(Stored(old(db))[..k] + Stored(old(db))[k + 1..])
      ensures r.Ok? ==> |Stored(db)| == |Stored(old(db))| - 1
    {
      var tasks := Stored(db);
      var idx := FindIndex(tasks, id);
      if idx == -1 {
        return Err(NotFound);
      }
      tasks := tasks[..idx] + tasks[idx + 1..];
      db := Some(tasks);
      r := Ok(());
    }
  }
}
