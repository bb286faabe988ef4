# Task board state engine, in Dafny

This project models the state engine of a browser task board, which has four parts:

- **Task store** (`TaskSlice`). The `tasks` slice holds an ordered list of `Task` records and three filter fields, plus `loading` and `error`. Its reducers are the methods of the class `TaskStore`, which reassign its fields. The selector `selectFilteredTasks` is the pure function `SelectFilteredTasks`. Status and priority are closed datatypes.
- **Mock persistence adapter** (`MockTasks`). `TaskApi` keeps the storage entry as a field `db: Option<seq<Task>>`, which is `None` until something is written. `getTasks`, `createTask`, `updateTask` and `deleteTask` are its methods. The seed list `initialTasks` is the constant `InitialTasks`.
- **Board** (`TaskBoard`). This part covers the `COLUMNS` constant, the `tasksByStatus` grouping and the four async handlers: `loadTasks`, `handleDelete`, `handleSubmit` and `handleDragEnd`.
  - Each handler is a method over the store. It takes as parameters the settled outcome of each adapter call it makes (`Ok(value)` or `Err(error)`).
  - It returns the ordered trace of what it did: adapter calls (`Call`) and store actions (`Dispatch`).
  - The trace is where the protocol shows. Create, edit and delete call the adapter first and change the store only on success. A drag changes the store first, then calls the adapter. If that call fails, the drag reloads and replaces the whole list.
- **Auth state** (`AuthSlice`). The five reducers of the `auth` slice are methods of `AuthStore`. They keep the invariant "authenticated ⇒ user and token present".

Shared pieces:
- `Wrappers` defines `Option` and `Result`.
- `Seqs` defines the array `filter` and the "order-preserving subsequence" relation, with their lemmas.

Clock reads (`Date.now()` ids, ISO timestamps) are parameters named `id` and `now`.

Three behaviours of the code that a stricter store would not have:
- `addTask` does not reject a duplicate id.
- `updateTask`, `moveTask` and `deleteTask` in the store silently ignore an unknown id; they do not report "not found".
- `handleDragEnd` takes `over.id` itself as the new status, even when the drop lands on a card (see Findings).
  - `TaskBoard.AsWrittenDragEffects` models that trace as written.
  - `TaskBoard.HandleDragEnd` uses the corrected resolution: a card stands for its column.
  - `TaskBoard.ColumnDropsAgree` proves the two agree on every drop onto a column.

## Model

| member | source | states |
|---|---|---|
| `TaskSlice.FindIndex` | client/store/taskSlice.ts:47 | result is -1 exactly when no item has the id; otherwise it is the first index holding the id |
| `TaskSlice.Replaced` | client/store/taskSlice.ts:46-49 | same length; an unknown id leaves the list as it was; otherwise only the first entry with the id becomes the payload |
| `TaskSlice.Moved` | client/store/taskSlice.ts:53-59 | same length; an unknown id leaves the list as it was; otherwise the first match changes only `status` and `updatedAt`, and every other task and field is kept |
| `TaskSlice.WithoutId` | client/store/taskSlice.ts:50-52 | no remaining entry carries the deleted id |
| `TaskSlice.WithoutIdExact` | client/store/taskSlice.ts:50-52 | a task survives deletion exactly when it was present with another id, and it keeps all its copies; survivors keep their relative order; an unknown id changes nothing |
| `TaskSlice.FilterKeepsUniqueIds` | client/store/taskSlice.ts:51 | filtering a list whose ids are unique leaves them unique |
| `TaskSlice.AddKeepsUniqueIds` | client/store/taskSlice.ts:43-45 | prepending keeps ids unique only when the new id is absent; the reducer does not check this, so it is a precondition |
| `TaskSlice.ReplaceKeepsUniqueIds` | client/store/taskSlice.ts:46-49 | overwriting the first match with a task of the same id keeps ids unique |
| `TaskSlice.Includes` | client/store/taskSlice.ts:99-100 | `includes` holds exactly when the needle occurs at some index of the haystack |
| `TaskSlice.SelectFilteredTasks` | client/store/taskSlice.ts:95-105 | no longer than the list; every returned task passes search, status and priority |
| `TaskSlice.SelectFilteredTasksExact` | client/store/taskSlice.ts:95-105 | a task is in the view exactly when it is in the list and passes all three tests, and it keeps all its copies; the view is an order-preserving subsequence of the list |
| `TaskSlice.NoFiltersShowEverything` | client/store/taskSlice.ts:98-103 | with empty search and both filters at 'all', the view is the whole list in order |
| `TaskSlice.NoDescriptionSearchesTitle` | client/store/taskSlice.ts:98-100 | a task without a description matches the search exactly when its title does |
| `TaskSlice.SearchIgnoresCase` | client/store/taskSlice.ts:99-100 | lower-casing the query does not change whether a task matches |
| `TaskSlice.TaskStore.constructor` | client/store/taskSlice.ts:26-33 | initial state: no items, empty search, both filters 'all', not loading, no error |
| `TaskSlice.TaskStore.View` | client/store/taskSlice.ts:95-105 | the view is computed from the state alone and holds only stored tasks |
| `TaskSlice.TaskStore.SetTasks` | client/store/taskSlice.ts:39-42 | items become exactly the payload and the error is cleared; the filters and loading are unchanged |
| `TaskSlice.TaskStore.AddTask` | client/store/taskSlice.ts:43-45 | items become `[t] + old`; the length grows by one; every old item moves up one index; nothing else changes |
| `TaskSlice.TaskStore.UpdateTask` | client/store/taskSlice.ts:46-49 | items become `Replaced(old, t)`, found with an index search and an in-place write; nothing else changes |
| `TaskSlice.TaskStore.DeleteTask` | client/store/taskSlice.ts:50-52 | items become the entries with another id, in order; an unknown id changes nothing; unique ids stay unique; nothing else changes |
| `TaskSlice.TaskStore.MoveTask` | client/store/taskSlice.ts:53-59 | items become `Moved(old, id, status, now)`; nothing else changes |
| `TaskSlice.TaskStore.SetSearch` | client/store/taskSlice.ts:60-62 | only `search` changes |
| `TaskSlice.TaskStore.SetStatusFilter` | client/store/taskSlice.ts:63-65 | only `statusFilter` changes |
| `TaskSlice.TaskStore.SetPriorityFilter` | client/store/taskSlice.ts:66-68 | only `priorityFilter` changes |
| `TaskSlice.TaskStore.SetLoading` | client/store/taskSlice.ts:69-71 | only `loading` changes |
| `TaskSlice.TaskStore.SetError` | client/store/taskSlice.ts:72-74 | only `error` changes |
| `MockTasks.Merge` | client/api/mockTasks.ts:108 | each of title, description, status, priority and dueDate takes the update's value when its key is present and keeps the old value otherwise; `id` and `createdAt` are kept; `updatedAt` is the fresh timestamp |
| `MockTasks.CreatedTaskRoundTrip` | client/api/mockTasks.ts:92-97 | a created task gives back its draft unchanged and carries the given id and the two separately read timestamps |
| `MockTasks.EditOverwritesEditableFields` | client/api/mockTasks.ts:103-111 | updating with a full form overwrites every editable field and keeps the id and creation time |
| `MockTasks.StatusUpdateIsMove` | client/api/mockTasks.ts:108 | a status-only update changes exactly the fields that the store's `moveTask` changes |
| `MockTasks.SeedIdsDistinct` | client/api/mockTasks.ts:5-76 | seven seeds with ids '1'..'7' in order, pairwise distinct |
| `MockTasks.SpliceAgreesWithFilter` | client/api/mockTasks.ts:113-120 | with unique ids, the adapter's delete (splice the first match) and the store's delete (filter out every match) give the same list |
| `MockTasks.SpliceDiffersOnDuplicates` | client/api/mockTasks.ts:116-118 | with a repeated id, the two deletes give different lists |
| `MockTasks.TaskApi.GetTasks` | client/api/mockTasks.ts:80-87 | returns the stored list if there is one; otherwise stores the seeds and returns them |
| `MockTasks.TaskApi.CreateTask` | client/api/mockTasks.ts:89-101 | returns the draft's fields with the given id and the two timestamps, each from its own clock read; the stored list becomes `[new] + old` (`[]` when nothing was stored) |
| `MockTasks.TaskApi.UpdateTask` | client/api/mockTasks.ts:103-111 | an unknown id fails with NotFound and writes nothing; otherwise only the first match is rewritten with the merged task, and the returned task is the stored one |
| `MockTasks.TaskApi.DeleteTask` | client/api/mockTasks.ts:113-120 | an unknown id fails with NotFound and writes nothing; otherwise only the first match is spliced out, the rest stay in order, and the length drops by one |
| `TaskBoard.TasksByStatus` | client/components/tasks/TaskBoard.tsx:103-106 | three groups in column order todo, in-progress, done; every task in a group has that group's status |
| `TaskBoard.TasksByStatusPartitions` | client/components/tasks/TaskBoard.tsx:103-106 | each group is an order-preserving subsequence of the filtered list; a task is in a group exactly when it has that status; together the groups hold the filtered list's tasks with their multiplicities |
| `TaskBoard.EveryStatusHasOneColumn` | client/components/tasks/TaskBoard.tsx:11-15 | every status appears in exactly one column |
| `TaskBoard.ParseStatus` | client/components/tasks/TaskColumn.tsx:25 | an id names a status exactly when it is that status's spelling, which is the id its column registers |
| `TaskBoard.FindTask` | client/components/tasks/TaskBoard.tsx:88 | absent exactly when no task has the id; otherwise the first task with the id |
| `TaskBoard.ResolveDropTarget` | client/components/tasks/TaskCard.tsx:21 | the corrected reading of `over.id` (not what TaskBoard.tsx:86 does): a column id gives its status; otherwise a card id, which cards register, gives that card's status; anything else gives no target |
| `TaskBoard.PlannedMove` | client/components/tasks/TaskBoard.tsx:83-90 | the early returns of :83 and :90, with the corrected target in place of :86: a move is planned exactly when there is a drop target, the dragged task is known, the target resolves, and it differs from the task's current status; the move goes to that target |
| `TaskBoard.AsWrittenNewStatus` | client/components/tasks/TaskBoard.tsx:83-90 | as written, the dispatched status is `over.id` itself; it is sent exactly when the dragged task exists and `over.id` is not its current status's spelling |
| `TaskBoard.AsWrittenDragEffects` | client/components/tasks/TaskBoard.tsx:79-101 | the handler's trace as written: whenever `AsWrittenNewStatus` gives a status, `moveTask` is dispatched with the raw `over.id` and then the adapter is asked to set the same raw status; a failure appends a reload and, on its success, `setTasks`; otherwise the trace is empty |
| `TaskBoard.ColumnDropsAgree` | client/components/tasks/TaskBoard.tsx:86 | on a drop onto a column, the code as written and the corrected handler move in exactly the same cases, and the status sent is that column's spelling |
| `TaskBoard.CardDropLeavesEveryColumn` | client/components/tasks/TaskBoard.tsx:86 | dropping seed "5" onto seed card "6": as written, the status "6" is dispatched, which no column has; resolved, the target is the task's own column and nothing happens |
| `TaskBoard.DropOnCardJoinsItsColumn` | client/components/tasks/TaskCard.tsx:21 | with the fix, dropping onto a card in another column moves the task to that card's status |
| `TaskBoard.LoadTasks` | client/components/tasks/TaskBoard.tsx:29-36 | calls getTasks; on success replaces the list and clears the error; on failure the store is untouched |
| `TaskBoard.HandleDelete` | client/components/tasks/TaskBoard.tsx:48-56 | the adapter delete comes first; the store removes the task only after success; on failure the store is untouched |
| `TaskBoard.HandleSubmit` | client/components/tasks/TaskBoard.tsx:58-73 | edit mode updates through the adapter and then replaces the store entry with the returned task; otherwise it creates and then prepends; on failure the store is untouched and the form stays open |
| `TaskBoard.HandleDragEnd` | client/components/tasks/TaskBoard.tsx:79-101 | the corrected handler, with the drop target resolved by `ResolveDropTarget` instead of the cast at :86: a no-op drop makes no call and no store change; otherwise the store move comes before the adapter call; success changes nothing more; failure reloads and, if the reload succeeds, replaces the list |
| `AuthSlice.AuthStore.constructor` | client/store/authSlice.ts:17-23 | unauthenticated, no user, no token, not loading, no error; the invariant holds |
| `AuthSlice.AuthStore.LoginStart` | client/store/authSlice.ts:29-32 | loading on, error cleared, nothing else touched; the invariant is kept |
| `AuthSlice.AuthStore.LoginSuccess` | client/store/authSlice.ts:33-39 | authenticated with the payload's user and token, loading off, error untouched; the invariant is kept |
| `AuthSlice.AuthStore.LoginError` | client/store/authSlice.ts:40-44 | unauthenticated with the message, loading off, user and token untouched; the invariant is kept |
| `AuthSlice.AuthStore.Logout` | client/store/authSlice.ts:45-51 | unauthenticated, user, token and error cleared, loading untouched; the invariant is kept |
| `AuthSlice.AuthStore.RestoreSession` | client/store/authSlice.ts:52-56 | authenticated with the payload's user and token, loading and error untouched; the invariant is kept |
| `AuthSlice.FailedLoginKeepsOldUser` | client/store/authSlice.ts:33-44 | a failed login after a successful one leaves the old user and token in a signed-out state |

## Left out

- Browser storage, JSON encoding and the artificial delays of the adapter and the auth slice. The storage entry is the field `TaskApi.db`. The token write and removal in `loginSuccess` and `logout` are not modelled.
- Clock reads. Ids from `Date.now()` and ISO timestamps are parameters, one per read: `createTask` takes `createdAt` and `updatedAt` separately, so the model does not promise they are equal. The model therefore cannot show that two creates in one millisecond collide. Unique ids are a precondition (`AddKeepsUniqueIds`, `SpliceAgreesWithFilter`), never a theorem.
- `updatedAt` monotonicity. Timestamps are opaque strings, and no order on them is modelled.
- `TaskSlice.Lower`: lowers ASCII letters only. Full Unicode case mapping of `toLowerCase` is not modelled.
- `MockTasks.TaskUpdate`: has no `updatedAt` key. The merge always overwrites `updatedAt`, so a caller-supplied value could never survive.
- `TaskBoard.HandleDragEnd`: uses the corrected drop resolution and does not reproduce the cast at TaskBoard.tsx:86. A drop onto a card moves the task to that card's column, or does nothing when it is already there, whereas the code dispatches the card's id as a status. The as-written behaviour is given only as a trace (`TaskBoard.AsWrittenDragEffects`), because the model's closed `status` type cannot hold the card id that the code would store.
- `TaskBoard.HandleDragEnd`: reads the store's `items` where the source calls a React hook inside the event handler (TaskBoard.tsx:87). The consequences of calling a hook outside rendering are not modelled.
- `TaskBoard.HandleDragEnd`: does not await the reload after a failed move. The model applies the reload's outcome at the end of the handler, but in the source it settles later.
- Interleaving of concurrent in-flight adapter calls. Each handler runs to completion with its adapter outcomes given up front.
- Toast notifications, the `activeId` drag state and the `editingTask` and `isFormOpen` form state. The form state appears only as the `editing` parameter and the `closeForm` result of `HandleSubmit`.
- dnd-kit collision detection, which decides which `over.id` a drop reports. It is taken as the `over` parameter.
- The adapter's own failure modes beyond `Not found` (storage quota, parse errors). The board handlers accept any failure as their `Err` input.
- mockAuth.ts (token building, session restore from storage), the overdue check and date formatting of cards, and all rendering-only components.

## Findings

| source | as written | input that shows it | evidently intended | confidence | as-written member | corrected member |
|---|---|---|---|---|---|---|
| client/components/tasks/TaskBoard.tsx:86 | `over.id` is cast to a status without a check. Cards are drop targets too and register their task id (TaskCard.tsx:21), so a drop onto a card dispatches its task id as the new status, and the task then appears in no column | seed list; drag task "5" (To Do) onto card "6" (also To Do): the handler dispatches status "6" | a drop onto a card means that card's column, so "5" onto "6" is a no-op | medium (not executed; depends on dnd-kit reporting the card as `over`) | `TaskBoard.AsWrittenNewStatus`, `TaskBoard.AsWrittenDragEffects`, `TaskBoard.CardDropLeavesEveryColumn` | `TaskBoard.ResolveDropTarget`, `TaskBoard.DropOnCardJoinsItsColumn`, used by `TaskBoard.HandleDragEnd` |
