/**
 * The task store: the `Task` record, the closed status and priority
 * enumerations, the store's reducers (as a class whose fields they update)
 * and the filtered selector (as a pure function).
 */
module TaskSlice {
  import opened Wrappers
  import opened Seqs

  datatype TaskStatus = Todo | InProgress | Done
  datatype Priority = Low | Medium | High

  /** A task; `description` and `dueDate` are optional, timestamps are opaque ISO strings. */
  datatype Task = Task(
    id: string,
    title: string,
    description: Option<string>,
    status: TaskStatus,
    priority: Priority,
    dueDate: Option<string>,
    createdAt: string,
    updatedAt: string)

  /** `TaskStatus | 'all'` */
  datatype StatusFilter = AllStatuses | OnlyStatus(status: TaskStatus)
  /** `Priority | 'all'` */
  datatype PriorityFilter = AllPriorities | OnlyPriority(priority: Priority)

  /** The string a status is spelled as, which is also the id of its board column. */
  function StatusName(s: TaskStatus): string {
    match s
    case Todo => "todo"
    case InProgress => "in-progress"
    case Done => "done"
  }

  // ---------------------------------------------------------------- lookup by id

  predicate HasId(items: seq<Task>, id: string) {
    exists i :: 0 <= i < |items| && items[i].id == id
  }

  /** `k` is the first index whose task carries `id`. */
  predicate IsFirstWithId(items: seq<Task>, id: string, k: int) {
    0 <= k < |items| && items[k].id == id &&
    forall j :: 0 <= j < k ==> items[j].id != id
  }

  /** No two entries share an id. */
  ghost predicate UniqueIds(items: seq<Task>) {
    forall i, j :: 0 <= i < j < |items| ==> items[i].id != items[j].id
  }

  /** `items.findIndex(t => t.id === id)`: the first index holding `id`, or -1 when none does. */
  function FindIndex(items: seq<Task>, id: string): (r: int)
    ensures -1 <= r < |items|
    ensures r == -1 <==> !HasId(items, id)
    ensures r != -1 ==> IsFirstWithId(items, id, r)
  {
    if items == [] then -1
    else if items[0].id == id then 0
    else
      var r := FindIndex(items[1..], id);
      assert forall i :: 1 <= i < |items| ==> items[i] == items[1..][i - 1];
      if r == -1 then -1 else r + 1
  }

  /** The filter callback `t => t.id !== id`. */
  function OtherId(id: string): Task -> bool {
    (t: Task) => t.id != id
  }

  /** The list after `updateTask(t)`: the first entry with `t.id` becomes `t`. */
  function Replaced(items: seq<Task>, t: Task): (r: seq<Task>)
    ensures |r| == |items|
    ensures !HasId(items, t.id) ==> r == items
    ensures forall k :: IsFirstWithId(items, t.id, k) ==> r == items[k := t]
  {
    var k := FindIndex(items, t.id);
    if k == -1 then items else items[k := t]
  }

  /** The list after `moveTask`: the first entry with `id` gets `status` and `updatedAt` set. */
  function Moved(items: seq<Task>, id: string, status: TaskStatus, now: string): (r: seq<Task>)
    ensures |r| == |items|
    ensures !HasId(items, id) ==> r == items
    ensures forall k :: IsFirstWithId(items, id, k) ==>
      r == items[k := items[k].(status := status, updatedAt := now)]
  {
    var k := FindIndex(items, id);
    if k == -1 then items else items[k := items[k].(status := status, updatedAt := now)]
  }

  /** The list after `deleteTask(id)`: every entry with another id, in the original order. */
  function WithoutId(items: seq<Task>, id: string): (r: seq<Task>)
    ensures forall i :: 0 <= i < |r| ==> r[i].id != id
  {
    Filter(items, OtherId(id))
  }

  /**
   * Deleting keeps exactly the entries with another id, each with all its
   * copies, in order, and ignores an unknown id.
   */
  lemma WithoutIdExact(items: seq<Task>, id: string)
    ensures forall t :: t in WithoutId(items, id) <==> t in items && t.id != id
    ensures forall t :: multiset(WithoutId(items, id))[t] == if t.id != id then multiset(items)[t] else 0
    ensures IsSubsequence(WithoutId(items, id), items)
    ensures !HasId(items, id) ==> WithoutId(items, id) == items
  {
    forall t ensures t in WithoutId(items, id) <==> t in items && t.id != id {
      FilterMembership(items, OtherId(id), t);
    }
    forall t ensures multiset(WithoutId(items, id))[t] == if t.id != id then multiset(items)[t] else 0 {
      FilterMultiplicity(items, OtherId(id), t);
    }
    FilterIsSubsequence(items, OtherId(id));
    if !HasId(items, id) {
      FilterKeepsAll(items, OtherId(id));
    }
  }

  /** Deleting by id keeps the ids of the survivors unique. */
  lemma {:induction false} FilterKeepsUniqueIds(items: seq<Task>, keep: Task -> bool)
    requires UniqueIds(items)
    ensures UniqueIds(Filter(items, keep))
  {
    if items != [] {
      FilterKeepsUniqueIds(items[1..], keep);
      if keep(items[0]) {
        forall x | x in Filter(items[1..], keep) ensures x.id != items[0].id {
          FilterMembership(items[1..], keep, x);
        }
      }
    }
  }

  /** Prepending a task whose id is new keeps the ids unique; `addTask` itself does not check. */
  lemma AddKeepsUniqueIds(items: seq<Task>, t: Task)
    requires UniqueIds(items) && !HasId(items, t.id)
    ensures UniqueIds([t] + items)
  {
    assert forall i :: 0 <= i < |items| ==> ([t] + items)[i + 1] == items[i];
  }

  /** Overwriting the first entry for an id with a task of the same id keeps the ids unique. */
  lemma ReplaceKeepsUniqueIds(items: seq<Task>, k: int, t: Task)
    requires UniqueIds(items) && IsFirstWithId(items, t.id, k)
    ensures UniqueIds(items[k := t])
  {
  }

  // ---------------------------------------------------------------- search

  /** ASCII lower-casing of one character (no Unicode case folding). */
  function LowerChar(c: char): char {
    if 'A' <= c <= 'Z' then (c as int + 32) as char else c
  }

  /** `s.toLowerCase()`, restricted to ASCII letters. */
  function Lower(s: string): string {
    seq(|s|, i requires 0 <= i < |s| => LowerChar(s[i]))
  }

  /** `needle` occurs in `hay` starting at index `i`. */
  predicate OccursAt(hay: string, needle: string, i: int) {
    0 <= i && i + |needle| <= |hay| && hay[i..i + |needle|] == needle
  }

  /** `hay.includes(needle)`: `needle` occurs as a contiguous block of `hay`. */
  function Includes(hay: string, needle: string): (r: bool)
    ensures r <==> exists i :: OccursAt(hay, needle, i)
    decreases |hay|
  {
    if needle <= hay then
      assert OccursAt(hay, needle, 0);
      true
    else if hay == [] then
      assert forall i :: !OccursAt(hay, needle, i);
      false
    else
      var r := Includes(hay[1..], needle);
      assert forall i :: OccursAt(hay[1..], needle, i) ==> OccursAt(hay, needle, i + 1);
      assert forall i :: OccursAt(hay, needle, i) ==> i != 0 && OccursAt(hay[1..], needle, i - 1);
      r
  }

  /** The search test of the selector: title, or else a present description. */
  predicate MatchesSearch(t: Task, search: string) {
    Includes(Lower(t.title), Lower(search)) ||
    (t.description.Some? && Includes(Lower(t.description.value), Lower(search)))
  }

  predicate MatchesStatus(t: Task, f: StatusFilter) {
    f.AllStatuses? || t.status == f.status
  }

  predicate MatchesPriority(t: Task, f: PriorityFilter) {
    f.AllPriorities? || t.priority == f.priority
  }

  predicate Matches(t: Task, search: string, sf: StatusFilter, pf: PriorityFilter) {
    MatchesSearch(t, search) && MatchesStatus(t, sf) && MatchesPriority(t, pf)
  }

  /** The filter callback of `selectFilteredTasks`. */
  function Matcher(search: string, sf: StatusFilter, pf: PriorityFilter): Task -> bool {
    (t: Task) => Matches(t, search, sf, pf)
  }

  /** `selectFilteredTasks`: the items that pass search AND status AND priority, in store order. */
  function SelectFilteredTasks(items: seq<Task>, search: string, sf: StatusFilter, pf: PriorityFilter): (r: seq<Task>)
    ensures |r| <= |items|
    ensures forall i :: 0 <= i < |r| ==> Matches(r[i], search, sf, pf)
  {
    Filter(items, Matcher(search, sf, pf))
  }

  /** The selector keeps exactly the matching items, each with all its copies, in store order. */
  lemma SelectFilteredTasksExact(items: seq<Task>, search: string, sf: StatusFilter, pf: PriorityFilter)
    ensures forall t :: t in SelectFilteredTasks(items, search, sf, pf) <==> t in items && Matches(t, search, sf, pf)
    ensures forall t ::
      multiset(SelectFilteredTasks(items, search, sf, pf))[t] == if Matches(t, search, sf, pf) then multiset(items)[t] else 0
    ensures IsSubsequence(SelectFilteredTasks(items, search, sf, pf), items)
  {
    forall t ensures t in SelectFilteredTasks(items, search, sf, pf) <==> t in items && Matches(t, search, sf, pf) {
      FilterMembership(items, Matcher(search, sf, pf), t);
    }
    forall t
      ensures multiset(SelectFilteredTasks(items, search, sf, pf))[t] == if Matches(t, search, sf, pf) then multiset(items)[t] else 0
    {
      FilterMultiplicity(items, Matcher(search, sf, pf), t);
    }
    FilterIsSubsequence(items, Matcher(search, sf, pf));
  }

  /** The initial filter settings (empty search, both filters 'all') show every item, in order. */
  lemma NoFiltersShowEverything(items: seq<Task>)
    ensures SelectFilteredTasks(items, "", AllStatuses, AllPriorities) == items
  {
    forall i | 0 <= i < |items| ensures Matcher("", AllStatuses, AllPriorities)(items[i]) {
      assert [] <= Lower(items[i].title);
    }
    FilterKeepsAll(items, Matcher("", AllStatuses, AllPriorities));
  }

  /** A task with no description can match the search through its title only. */
  lemma NoDescriptionSearchesTitle(t: Task, search: string)
    requires t.description.None?
    ensures MatchesSearch(t, search) <==> Includes(Lower(t.title), Lower(search))
  {
  }

  /** The search is case-insensitive: lower-casing the query changes nothing. */
  lemma {:induction false} SearchIgnoresCase(t: Task, search: string)
    ensures MatchesSearch(t, search) == MatchesSearch(t, Lower(search))
  {
    LowerIdempotent(search);
  }

  lemma LowerIdempotent(s: string)
    ensures Lower(Lower(s)) == Lower(s)
  {
  }

  // ---------------------------------------------------------------- the store

  /** The `tasks` slice state; every method is one reducer of `taskSlice`. */
  class TaskStore {
    var items: seq<Task>
    var search: string
    var statusFilter: StatusFilter
    var priorityFilter: PriorityFilter
    var loading: bool
    var error: Option<string>

    /** `initialState`: no items, no search, both filters 'all', not loading, no error. */
    constructor ()
      ensures items == [] && search == ""
      ensures statusFilter == AllStatuses && priorityFilter == AllPriorities
      ensures !loading && error == None
    {
      items := [];
      search := "";
      statusFilter := AllStatuses;
      priorityFilter := AllPriorities;
      loading := false;
      error := None;
    }

    /** The filtered view the board renders; recomputed from the state on every read. */
    function View(): (r: seq<Task>)
      reads this
      ensures forall t :: t in r ==> t in items
    {
      SelectFilteredTasksExact(items, search, statusFilter, priorityFilter);
      SelectFilteredTasks(items, search, statusFilter, priorityFilter)
    }

    /** `setTasks`: the payload becomes the list, in its own order, and the error is cleared. */
    method SetTasks(tasks: seq<Task>)
      modifies this
      ensures items == tasks && error == None
      ensures unchanged(this`search, this`statusFilter, this`priorityFilter, this`loading)
    {
      items := tasks;
      error := None;
    }

    /** `addTask`: the task goes first and every old item moves up one index; no duplicate check. */
    method AddTask(t: Task)
      modifies this
      ensures items == [t] + old(items)
      ensures |items| == |old(items)| + 1 && items[0] == t
      ensures forall i :: 0 <= i < |old(items)| ==> items[i + 1] == old(items)[i]
      ensures unchanged(this`search, this`statusFilter, this`priorityFilter, this`loading, this`error)
    {
      items := [t] + items;
    }

    /** `updateTask`: the first entry with the payload's id is overwritten; an unknown id is ignored. */
    method UpdateTask(t: Task)
      modifies this
      ensures items == Replaced(old(items), t)
      ensures unchanged(this`search, this`statusFilter, this`priorityFilter, this`loading, this`error)
    {
      var idx := FindIndex(items, t.id);
      if idx != -1 {
        items := items[idx := t];
      }
    }

    /** `deleteTask`: every entry with the id goes, the rest keep their order; an unknown id is ignored. */
    method DeleteTask(id: string)
      modifies this
      ensures items == WithoutId(old(items), id)
      ensures forall t :: t in items <==> t in old(items) && t.id != id
      ensures IsSubsequence(items, old(items))
      ensures !HasId(old(items), id) ==> items == old(items)
      ensures UniqueIds(old(items)) ==> UniqueIds(items)
      ensures unchanged(this`search, this`statusFilter, this`priorityFilter, this`loading, this`error)
    {
      ghost var before := items;
      items := Filter(items, OtherId(id));
      WithoutIdExact(before, id);
      if UniqueIds(before) {
        FilterKeepsUniqueIds(before, OtherId(id));
      }
    }

    /**
     * `moveTask`: the first entry with the id gets the new status and the
     * timestamp `now` (the reducer's clock read); nothing else changes, and an
     * unknown id is ignored.
     */
    method MoveTask(taskId: string, newStatus: TaskStatus, now: string)
      modifies this
      ensures items == Moved(old(items), taskId, newStatus, now)
      ensures unchanged(this`search, this`statusFilter, this`priorityFilter, this`loading, this`error)
    {
      var idx := FindIndex(items, taskId);
      if idx != -1 {
        items := items[idx := items[idx].(status := newStatus, updatedAt := now)];
      }
    }

    method SetSearch(s: string)
      modifies this
      ensures search == s
      ensures unchanged(this`items, this`statusFilter, this`priorityFilter, this`loading, this`error)
    {
      search := s;
    }

    method SetStatusFilter(f: StatusFilter)
      modifies this
      ensures statusFilter == f
      ensures unchanged(this`items, this`search, this`priorityFilter, this`loading, this`error)
    {
      statusFilter := f;
    }

    method SetPriorityFilter(f: PriorityFilter)
      modifies this
      ensures priorityFilter == f
      ensures unchanged(this`items, this`search, this`statusFilter, this`loading, this`error)
    {
      priorityFilter := f;
    }

    method SetLoading(b: bool)
      modifies this
      ensures loading == b
      ensures unchanged(this`items, this`search, this`statusFilter, this`priorityFilter, this`error)
    {
      loading := b;
    }

    method SetError(e: Option<string>)
      modifies this
      ensures error == e
      ensures unchanged(this`items, this`search, this`statusFilter, this`priorityFilter, this`loading)
    {
      error := e;
    }
  }
}
