/**
 * The board's mutation protocol. Each handler is a method over the task
 * store that takes the settled outcome of the adapter call it makes as a
 * parameter and returns the trace of what it did, in order: calls into the
 * adapter and actions dispatched to the store. Create, edit and delete call
 * the adapter first and touch the store only on success; a drag changes the
 * store first and reloads the whole list when the adapter then fails.
 */
module TaskBoard {
  import opened Wrappers
  import opened Seqs
  import opened TaskSlice
  import opened MockTasks

  // ---------------------------------------------------------------- columns

  /** `COLUMNS`: the three board columns, in display order. */
  const Columns: seq<TaskStatus> := [Todo, InProgress, Done]

  /** The filter callback `t => t.status === status`. */
  function HasStatus(s: TaskStatus): Task -> bool {
    (t: Task) => t.status == s
  }

  /** `tasksByStatus`: for each column in order, the filtered tasks with that status, in filtered order. */
  function TasksByStatus(filtered: seq<Task>): (groups: seq<(TaskStatus, seq<Task>)>)
    ensures |groups| == |Columns|
    ensures forall i :: 0 <= i < |groups| ==> groups[i].0 == Columns[i]
    ensures forall i, j :: 0 <= i < |groups| && 0 <= j < |groups[i].1| ==> groups[i].1[j].status == Columns[i]
  {
    seq(|Columns|, i requires 0 <= i < |Columns| => (Columns[i], Filter(filtered, HasStatus(Columns[i]))))
  }

  /** Every status is exactly one column. */
  lemma EveryStatusHasOneColumn(s: TaskStatus)
    ensures s in Columns
    ensures forall i, j :: 0 <= i < j < |Columns| ==> Columns[i] != Columns[j]
  {
  }

  /** Helper: splitting a list three ways by status loses and duplicates nothing. */
  lemma {:induction false} SplitByStatus(s: seq<Task>)
    ensures multiset(Filter(s, HasStatus(Todo))) + multiset(Filter(s, HasStatus(InProgress)))
          + multiset(Filter(s, HasStatus(Done))) == multiset(s)
  {
    if s != [] {
      SplitByStatus(s[1..]);
      assert s == [s[0]] + s[1..];
    }
  }

  /**
   * The three groups partition the filtered list: each keeps its tasks in
   * filtered order, a task is in a group exactly when its status is that
   * column, and together the groups hold the filtered list's tasks with
   * their multiplicities.
   */
  lemma TasksByStatusPartitions(filtered: seq<Task>)
    ensures var g := TasksByStatus(filtered);
      multiset(g[0].1) + multiset(g[1].1) + multiset(g[2].1) == multiset(filtered)
    ensures forall i :: 0 <= i < 3 ==> IsSubsequence(TasksByStatus(filtered)[i].1, filtered)
    ensures forall i, t :: 0 <= i < 3 ==>
      (t in TasksByStatus(filtered)[i].1 <==> t in filtered && t.status == Columns[i])
  {
    SplitByStatus(filtered);
    forall i | 0 <= i < 3 ensures IsSubsequence(TasksByStatus(filtered)[i].1, filtered) {
      FilterIsSubsequence(filtered, HasStatus(Columns[i]));
    }
    forall i, t | 0 <= i < 3
      ensures t in TasksByStatus(filtered)[i].1 <==> t in filtered && t.status == Columns[i]
    {
      FilterMembership(filtered, HasStatus(Columns[i]), t);
    }
  }

  // ---------------------------------------------------------------- drop targets

  /** The status a column id names, if it names one. */
  function ParseStatus(id: string): (r: Option<TaskStatus>)
    ensures r.Some? ==> StatusName(r.value) == id
    ensures r.None? ==> forall s :: StatusName(s) != id
  {
    if id == "todo" then Some(Todo)
    else if id == "in-progress" then Some(InProgress)
    else if id == "done" then Some(Done)
    else None
  }

  /** `items.find(t => t.id === id)` */
  function FindTask(items: seq<Task>, id: string): (r: Option<Task>)
    ensures r.None? <==> !HasId(items, id)
    ensures r.Some? ==> exists k :: IsFirstWithId(items, id, k) && items[k] == r.value
  {
    var k := FindIndex(items, id);
    if k == -1 then None else Some(items[k])
  }

  /**
   * The status a drop onto `overId` asks for. Columns register their status
   * as drop id and cards register their task id; a card stands for its own
   * column. Anything else is not a target.
   */
  function ResolveDropTarget(items: seq<Task>, overId: string): (r: Option<TaskStatus>)
    ensures ParseStatus(overId).Some? ==> r == ParseStatus(overId)
    ensures ParseStatus(overId).None? ==> (r.Some? <==> HasId(items, overId))
    ensures ParseStatus(overId).None? && r.Some? ==>
      exists k :: IsFirstWithId(items, overId, k) && r.value == items[k].status
  {
    match ParseStatus(overId)
    case Some(s) => Some(s)
    case None =>
      match FindTask(items, overId)
      case Some(t) => Some(t.status)
      case None => None
  }

  /**
   * The drag's decision: the status to move the dragged task to, or `None`
   * when the handler returns without doing anything (no drop target, unknown
   * dragged task, unresolvable target, or a drop into the task's own column).
   */
  function PlannedMove(items: seq<Task>, activeId: string, over: Option<string>): (r: Option<TaskStatus>)
    ensures over.None? || !HasId(items, activeId) ==> r.None?
    ensures r.Some? ==> over.Some? && ResolveDropTarget(items, over.value) == r
    ensures r.Some? ==> forall k :: IsFirstWithId(items, activeId, k) ==> items[k].status != r.value
    ensures over.Some? && HasId(items, activeId) && ResolveDropTarget(items, over.value).Some? &&
            (forall k :: IsFirstWithId(items, activeId, k) ==> items[k].status != ResolveDropTarget(items, over.value).value)
            ==> r == ResolveDropTarget(items, over.value)
  {
    if over.None? then None
    else
      match (FindTask(items, activeId), ResolveDropTarget(items, over.value))
      case (Some(task), Some(target)) =>
        if task.status == target then None else Some(target)
      case _ => None
  }

  /**
   * The code as written takes `over.id` itself as the new status. This is the
   * status string it would dispatch, or `None` where it returns early.
   */
  function AsWrittenNewStatus(items: seq<Task>, activeId: string, overId: string): (r: Option<string>)
    ensures r.Some? ==> r.value == overId && HasId(items, activeId)
    ensures r.Some? ==> forall k :: IsFirstWithId(items, activeId, k) ==> StatusName(items[k].status) != overId
    ensures HasId(items, activeId) && (forall k :: IsFirstWithId(items, activeId, k) ==> StatusName(items[k].status) != overId)
            ==> r == Some(overId)
  {
    match FindTask(items, activeId)
    case None => None
    case Some(task) => if StatusName(task.status) == overId then None else Some(overId)
  }

  /**
   * Dropping seed task "5" onto seed card "6", which sits in the same To Do
   * column: as written the handler writes the status "6", which is no
   * column's status, so the task would show in no column. The resolved
   * target is To Do, the task's own column, so the corrected drag does nothing.
   */
  lemma CardDropLeavesEveryColumn()
    ensures AsWrittenNewStatus(InitialTasks, "5", "6") == Some("6")
    ensures forall s :: StatusName(s) != "6"
    ensures ResolveDropTarget(InitialTasks, "6") == Some(Todo)
    ensures PlannedMove(InitialTasks, "5", Some("6")) == None
  {
    SeedLookups();
  }

  /** Helper: where seeds "5" and "6" sit, and that both are To Do. */
  lemma SeedLookups()
    ensures FindTask(InitialTasks, "5") == Some(InitialTasks[4]) && InitialTasks[4].status == Todo
    ensures FindTask(InitialTasks, "6") == Some(InitialTasks[5]) && InitialTasks[5].status == Todo
    ensures ParseStatus("6") == None
  {
    assert InitialTasks[0].id == "1";
    assert InitialTasks[1].id == "2";
    assert InitialTasks[2].id == "3";
    assert InitialTasks[3].id == "4";
    assert InitialTasks[4].id == "5";
    assert InitialTasks[5].id == "6";
    assert IsFirstWithId(InitialTasks, "5", 4);
    assert IsFirstWithId(InitialTasks, "6", 5);
    FindTaskAtFirst(InitialTasks, "5", 4);
    FindTaskAtFirst(InitialTasks, "6", 5);
  }

  /** Helper: `find` returns the task at the first index holding the id. */
  lemma FindTaskAtFirst(items: seq<Task>, id: string, k: int)
    requires IsFirstWithId(items, id, k)
    ensures FindTask(items, id) == Some(items[k])
  {
    var r := FindIndex(items, id);
    assert r == k;
  }

  /** With the fix, a drop onto a card moves the dragged task into that card's column. */
  lemma DropOnCardJoinsItsColumn(items: seq<Task>, activeId: string, card: Task)
    requires card in items && ParseStatus(card.id).None? && UniqueIds(items)
    requires HasId(items, activeId)
    requires forall k :: IsFirstWithId(items, activeId, k) ==> items[k].status != card.status
    ensures PlannedMove(items, activeId, Some(card.id)) == Some(card.status)
  {
    var c :| 0 <= c < |items| && items[c] == card;
    var k := FindIndex(items, card.id);
    assert k == c;
  }

  // ---------------------------------------------------------------- handlers

  datatype ApiCall =
    | GetTasksCall
    | CreateTaskCall(draft: TaskDraft)
    | UpdateTaskCall(id: string, updates: TaskUpdate)
    | DeleteTaskCall(id: string)
    | UpdateStatusCastCall(id: string, rawStatus: string)  // `{ status: over.id }`, unchecked

  datatype StoreAction =
    | SetTasksAction(tasks: seq<Task>)
    | AddTaskAction(task: Task)
    | UpdateTaskAction(task: Task)
    | DeleteTaskAction(id: string)
    | MoveTaskAction(taskId: string, newStatus: TaskStatus)
    | MoveTaskCastAction(taskId: string, rawStatus: string)  // `moveTask` with `over.id` as the status

  /** One step of a handler, in the order it happens. */
  datatype Effect = Call(call: ApiCall) | Dispatch(action: StoreAction)

  /** `loadTasks`: fetch every task; on success replace the list, on failure leave the store alone. */
  method LoadTasks(store: TaskStore, reply: Result<seq<Task>>) returns (effects: seq<Effect>)
    modifies store
    ensures effects == [Call(GetTasksCall)] + if reply.Ok? then [Dispatch(SetTasksAction(reply.value))] else []
    ensures reply.Ok? ==> store.items == reply.value && store.error == None
    ensures reply.Ok? ==> unchanged(store`search, store`statusFilter, store`priorityFilter, store`loading)
    ensures reply.Err? ==> unchanged(store)
  {
    effects := [Call(GetTasksCall)];
    if reply.Ok? {
      store.SetTasks(reply.value);
      effects := effects + [Dispatch(SetTasksAction(reply.value))];
    }
  }

  /** `handleDelete`: the adapter deletes first; only on success does the store drop the task. */
  method HandleDelete(store: TaskStore, taskId: string, reply: Result<()>) returns (effects: seq<Effect>)
    modifies store
    ensures effects == [Call(DeleteTaskCall(taskId))] + if reply.Ok? then [Dispatch(DeleteTaskAction(taskId))] else []
    ensures reply.Ok? ==> store.items == WithoutId(old(store.items), taskId)
    ensures reply.Ok? ==> unchanged(store`search, store`statusFilter, store`priorityFilter, store`loading, store`error)
    ensures reply.Err? ==> unchanged(store)
  {
    effects := [Call(DeleteTaskCall(taskId))];
    if reply.Ok? {
      store.DeleteTask(taskId);
      effects := effects + [Dispatch(DeleteTaskAction(taskId))];
    }
  }

  /**
   * `handleSubmit`: with a task being edited, the adapter updates it and the
   * store takes the returned task in place; otherwise the adapter creates one
   * and the store puts it first. The form closes only on success; on failure
   * the store is unchanged.
   */
  method HandleSubmit(store: TaskStore, editing: Option<Task>, data: TaskDraft, reply: Result<Task>)
    returns (effects: seq<Effect>, closeForm: bool)
    modifies store
    ensures |effects| >= 1
    ensures effects[0] == if editing.Some? then Call(UpdateTaskCall(editing.value.id, DraftAsUpdate(data)))
                          else Call(CreateTaskCall(data))
    ensures closeForm <==> reply.Ok?
    ensures reply.Err? ==> |effects| == 1 && unchanged(store)
    ensures reply.Ok? && editing.Some? ==>
      effects == [effects[0], Dispatch(UpdateTaskAction(reply.value))] &&
      store.items == Replaced(old(store.items), reply.value)
    ensures reply.Ok? && editing.None? ==>
      effects == [effects[0], Dispatch(AddTaskAction(reply.value))] &&
      store.items == [reply.value] + old(store.items)
    ensures reply.Ok? ==> unchanged(store`search, store`statusFilter, store`priorityFilter, store`loading, store`error)
  {
    if editing.Some? {
      effects := [Call(UpdateTaskCall(editing.value.id, DraftAsUpdate(data)))];
      if reply.Ok? {
        store.UpdateTask(reply.value);
        effects := effects + [Dispatch(UpdateTaskAction(reply.value))];
      }
    } else {
      effects := [Call(CreateTaskCall(data))];
      if reply.Ok? {
        store.AddTask(reply.value);
        effects := effects + [Dispatch(AddTaskAction(reply.value))];
      }
    }
    closeForm := reply.Ok?;
  }

  /**
   * `handleDragEnd`: when the drop asks for a real move, the store moves the
   * task first (stamped `now`), then the adapter is asked for the status
   * change. A successful reply changes nothing more; a failed one reloads the
   * whole list (`reload` is that reload's outcome) and, if the reload
   * succeeds, replaces the store's list with it. Every other drop does
   * nothing at all.
   */
  method HandleDragEnd(store: TaskStore, activeId: string, over: Option<string>, now: string,
                       reply: Result<Task>, reload: Result<seq<Task>>)
    returns (effects: seq<Effect>)
    modifies store
    ensures PlannedMove(old(store.items), activeId, over).None? ==> effects == [] && unchanged(store)
    ensures PlannedMove(old(store.items), activeId, over).Some? ==>
      var target := PlannedMove(old(store.items), activeId, over).value;
      && |effects| >= 2
      && effects[..2] == [Dispatch(MoveTaskAction(activeId, target)), Call(UpdateTaskCall(activeId, StatusOnly(target)))]
      && (reply.Ok? ==> effects == effects[..2] && store.items == Moved(old(store.items), activeId, target, now))
      && (reply.Err? ==> effects == effects[..2] + [Call(GetTasksCall)] + (if reload.Ok? then [Dispatch(SetTasksAction(reload.value))] else []))
      && (reply.Err? && reload.Ok? ==> store.items == reload.value && store.error == None)
      && (reply.Err? && reload.Err? ==> store.items == Moved(old(store.items), activeId, target, now))
    ensures unchanged(store`search, store`statusFilter, store`priorityFilter, store`loading)
    ensures reply.Ok? || reload.Err? ==> unchanged(store`error)
  {
    effects := [];
    var target := PlannedMove(store.items, activeId, over);
    if target.None? {
      return;
    }
    store.MoveTask(activeId, target.value, now);
    effects := [Dispatch(MoveTaskAction(activeId, target.value)), Call(UpdateTaskCall(activeId, StatusOnly(target.value)))];
    if reply.Err? {
      var reloadEffects := LoadTasks(store, reload);
      effects := effects + reloadEffects;
    }
  }

  // ---------------------------------------------------------------- drag end as written

  /**
   * The trace of `handleDragEnd` as written: `over.id` itself is the status
   * dispatched to the store and sent to the adapter. The store change is not
   * modelled here, since the store's `status` cannot hold an arbitrary string.
   */
  function AsWrittenDragEffects(items: seq<Task>, activeId: string, over: Option<string>,
                                reply: Result<Task>, reload: Result<seq<Task>>): (effects: seq<Effect>)
    ensures over.None? ==> effects == []
    ensures over.Some? && AsWrittenNewStatus(items, activeId, over.value).None? ==> effects == []
    ensures over.Some? && AsWrittenNewStatus(items, activeId, over.value).Some? ==>
      && |effects| >= 2
      && effects[..2] == [Dispatch(MoveTaskCastAction(activeId, over.value)), Call(UpdateStatusCastCall(activeId, over.value))]
      && (reply.Ok? ==> |effects| == 2)
      && (reply.Err? ==> effects[2..] == [Call(GetTasksCall)] + if reload.Ok? then [Dispatch(SetTasksAction(reload.value))] else [])
  {
    if over.None? then []
    else
      match AsWrittenNewStatus(items, activeId, over.value)
      case None => []
      case Some(raw) =>
        [Dispatch(MoveTaskCastAction(activeId, raw)), Call(UpdateStatusCastCall(activeId, raw))] +
        if reply.Ok? then []
        else [Call(GetTasksCall)] + if reload.Ok? then [Dispatch(SetTasksAction(reload.value))] else []
  }

  /**
   * On a drop onto a column the code as written and the corrected handler
   * agree: both move exactly when the dragged task is known and sits in
   * another column, and the status the code sends is that column's spelling.
   */
  lemma ColumnDropsAgree(items: seq<Task>, activeId: string, overId: string)
    requires ParseStatus(overId).Some?
    ensures PlannedMove(items, activeId, Some(overId)).Some? <==> AsWrittenNewStatus(items, activeId, overId).Some?
    ensures PlannedMove(items, activeId, Some(overId)).Some? ==>
      StatusName(PlannedMove(items, activeId, Some(overId)).value) == overId
  {
    var s := ParseStatus(overId).value;
    if HasId(items, activeId) {
      var k := FindIndex(items, activeId);
      assert items[k].status != s <==> StatusName(items[k].status) != overId by {
        StatusNameInjective(items[k].status, s);
      }
    }
  }

  lemma StatusNameInjective(a: TaskStatus, b: TaskStatus)
    ensures StatusName(a) == StatusName(b) ==> a == b
  {
  }
}
