/** The CRUD operations of the business dashboard store
    (`frontend/src/lib/business/store.ts`). The five lists are one value;
    each operation returns the new value, and every list it does not touch
    is unchanged. Fresh ids and the clock are parameters. */
module BusinessStore {
  import opened Common
  import opened BusinessTypes
  import Seqs

  datatype Store = Store(
    todos: seq<Todo>,
    calendarEvents: seq<CalendarEvent>,
    diaryEntries: seq<DiaryEntry>,
    projects: seq<Project>,
    sprints: seq<Sprint>)

  const EmptyStore := Store([], [], [], [], [])

  /** An added entity, as returned to the caller, and the new store. */
  datatype Added<T> = Added(item: T, store: Store)

  predicate HasTodo(todos: seq<Todo>, id: string) {
    exists i :: 0 <= i < |todos| && todos[i].id == id
  }

  // ---- Todos ----

  /** `addTodo`: the draft with a fresh id and both timestamps set to now,
      appended at the end. The draft's own id and timestamps stand for the
      omitted keys and are replaced. */
  function AddTodo(st: Store, draft: Todo, freshId: string, now: int): (r: Added<Todo>)
    ensures r.item.id == freshId && r.item.createdAt == now && r.item.updatedAt == now
    ensures r.item.(id := draft.id, createdAt := draft.createdAt, updatedAt := draft.updatedAt) == draft
    ensures r.store.todos == st.todos + [r.item]
    ensures r.store.(todos := st.todos) == st
  {
    var t := draft.(id := freshId, createdAt := now, updatedAt := now);
    Added(t, st.(todos := st.todos + [t]))
  }

  /** A todo after an update: the patch merged in, stamped with the time. */
  function PatchedTodo(t: Todo, p: TodoPatch, now: int): Todo {
    MergeTodo(t, p).(updatedAt := now)
  }

  /** `updateTodo`: merge the patch into every todo with the id and refresh
      its `updatedAt`; positions and all other todos are kept. */
  function UpdateTodo(st: Store, id: string, p: TodoPatch, now: int): (r: Store)
    ensures |r.todos| == |st.todos|
    ensures forall i :: 0 <= i < |st.todos| && st.todos[i].id == id ==>
      r.todos[i] == PatchedTodo(st.todos[i], p, now)
    ensures forall i :: 0 <= i < |st.todos| && st.todos[i].id != id ==> r.todos[i] == st.todos[i]
    ensures !HasTodo(st.todos, id) ==> r == st
    ensures r.(todos := st.todos) == st
  {
    var matches := (t: Todo) => t.id == id;
    var patch := (t: Todo) => PatchedTodo(t, p, now);
    if HasTodo(st.todos, id) then st.(todos := Seqs.MapWhere(st.todos, matches, patch))
    else
      Seqs.MapWhereNoMatch(st.todos, matches, patch);
      st.(todos := Seqs.MapWhere(st.todos, matches, patch))
  }

  /** `deleteTodo`: drop every todo with the id, keep the others in order. */
  function DeleteTodo(st: Store, id: string): (r: Store)
    ensures forall i :: 0 <= i < |r.todos| ==> r.todos[i].id != id
    ensures forall i :: 0 <= i < |st.todos| && st.todos[i].id != id ==> st.todos[i] in r.todos
    ensures Seqs.Subsequence(r.todos, st.todos)
    ensures forall i :: 0 <= i < |st.todos| ==>
      multiset(r.todos)[st.todos[i]] == if st.todos[i].id == id then 0 else multiset(st.todos)[st.todos[i]]
    ensures !HasTodo(st.todos, id) <==> r.todos == st.todos
    ensures r.(todos := st.todos) == st
  {
    var p := (t: Todo) => t.id != id;
    Seqs.FilterIsSubsequence(st.todos, p);
    Seqs.FilterCounts(st.todos, p);
    Seqs.FilterLength(st.todos, p);
    var kept := Seqs.Filter(st.todos, p);
    if HasTodo(st.todos, id) then st.(todos := kept)
    else
      Seqs.FilterKeepsAll(st.todos, p);
      st.(todos := kept)
  }

  /** `completeTodo`: mark the todo done, stamped with the completion time. */
  function CompleteTodo(st: Store, id: string, now: int): (r: Store)
    ensures |r.todos| == |st.todos|
    ensures forall i :: 0 <= i < |st.todos| && st.todos[i].id == id ==>
      r.todos[i] == st.todos[i].(status := Done, completedAt := Some(now), updatedAt := now)
    ensures forall i :: 0 <= i < |st.todos| && st.todos[i].id != id ==> r.todos[i] == st.todos[i]
    ensures r.(todos := st.todos) == st
  {
    UpdateTodo(st, id, EmptyTodoPatch.(status := Some(Done), completedAt := Some(now)), now)
  }

  /** Adding a todo under an id not yet used and deleting that id gives back
      the store as it was. */
  lemma {:induction false} DeleteAddedTodo(st: Store, draft: Todo, freshId: string, now: int)
    requires !HasTodo(st.todos, freshId)
    ensures DeleteTodo(AddTodo(st, draft, freshId, now).store, freshId) == st
  {
    var a := AddTodo(st, draft, freshId, now);
    var p := (t: Todo) => t.id != freshId;
    Seqs.FilterAppend(st.todos, [a.item], p);
    Seqs.FilterKeepsAll(st.todos, p);
    assert Seqs.Filter([a.item], p) == [];
    assert Seqs.Filter(a.store.todos, p) == st.todos;
  }

  // ---- Calendar events ----

  /** `addCalendarEvent`: the draft with a fresh id, appended. */
  function AddCalendarEvent(st: Store, draft: CalendarEvent, freshId: string): (r: Added<CalendarEvent>)
    ensures r.item.id == freshId && r.item.(id := draft.id) == draft
    ensures r.store.calendarEvents == st.calendarEvents + [r.item]
    ensures r.store.(calendarEvents := st.calendarEvents) == st
  {
    var e := draft.(id := freshId);
    Added(e, st.(calendarEvents := st.calendarEvents + [e]))
  }

  /** `updateCalendarEvent`: merge the patch into every event with the id. */
  function UpdateCalendarEvent(st: Store, id: string, p: CalendarEventPatch): (r: Store)
    ensures |r.calendarEvents| == |st.calendarEvents|
    ensures forall i :: 0 <= i < |st.calendarEvents| && st.calendarEvents[i].id == id ==>
      r.calendarEvents[i] == MergeEvent(st.calendarEvents[i], p)
    ensures forall i :: 0 <= i < |st.calendarEvents| && st.calendarEvents[i].id != id ==>
      r.calendarEvents[i] == st.calendarEvents[i]
    ensures r.(calendarEvents := st.calendarEvents) == st
  {
    st.(calendarEvents := Seqs.MapWhere(st.calendarEvents, (e: CalendarEvent) => e.id == id, (e: CalendarEvent) => MergeEvent(e, p)))
  }

  /** `deleteCalendarEvent`: drop every event with the id. */
  function DeleteCalendarEvent(st: Store, id: string): (r: Store)
    ensures forall i :: 0 <= i < |r.calendarEvents| ==> r.calendarEvents[i].id != id
    ensures forall i :: 0 <= i < |st.calendarEvents| && st.calendarEvents[i].id != id ==>
      st.calendarEvents[i] in r.calendarEvents
    ensures Seqs.Subsequence(r.calendarEvents, st.calendarEvents)
    ensures forall i :: 0 <= i < |st.calendarEvents| ==>
      multiset(r.calendarEvents)[st.calendarEvents[i]] == if st.calendarEvents[i].id == id then 0 else multiset(st.calendarEvents)[st.calendarEvents[i]]
    ensures r.(calendarEvents := st.calendarEvents) == st
  {
    var p := (e: CalendarEvent) => e.id != id;
    Seqs.FilterIsSubsequence(st.calendarEvents, p);
    Seqs.FilterCounts(st.calendarEvents, p);
    st.(calendarEvents := Seqs.Filter(st.calendarEvents, p))
  }

  /** Adding an event under an id not yet used and deleting that id gives
      back the store as it was. */
  lemma {:induction false} DeleteAddedEvent(st: Store, draft: CalendarEvent, freshId: string)
    requires forall i :: 0 <= i < |st.calendarEvents| ==> st.calendarEvents[i].id != freshId
    ensures DeleteCalendarEvent(AddCalendarEvent(st, draft, freshId).store, freshId) == st
  {
    var a := AddCalendarEvent(st, draft, freshId);
    var p := (e: CalendarEvent) => e.id != freshId;
    Seqs.FilterAppend(st.calendarEvents, [a.item], p);
    Seqs.FilterKeepsAll(st.calendarEvents, p);
    assert Seqs.Filter([a.item], p) == [];
  }

  // ---- Diary entries ----

  /** `addDiaryEntry`: the draft with a fresh id and both timestamps now. */
  function AddDiaryEntry(st: Store, draft: DiaryEntry, freshId: string, now: int): (r: Added<DiaryEntry>)
    ensures r.item.id == freshId && r.item.createdAt == now && r.item.updatedAt == now
    ensures r.item.(id := draft.id, createdAt := draft.createdAt, updatedAt := draft.updatedAt) == draft
    ensures r.store.diaryEntries == st.diaryEntries + [r.item]
    ensures r.store.(diaryEntries := st.diaryEntries) == st
  {
    var d := draft.(id := freshId, createdAt := now, updatedAt := now);
    Added(d, st.(diaryEntries := st.diaryEntries + [d]))
  }

  /** A diary entry after an update: the patch merged in, stamped with the time. */
  function PatchedEntry(d: DiaryEntry, p: DiaryEntryPatch, now: int): DiaryEntry {
    MergeDiary(d, p).(updatedAt := now)
  }

  /** `updateDiaryEntry`: merge the patch and refresh `updatedAt`. */
  function UpdateDiaryEntry(st: Store, id: string, p: DiaryEntryPatch, now: int): (r: Store)
    ensures |r.diaryEntries| == |st.diaryEntries|
    ensures forall i :: 0 <= i < |st.diaryEntries| && st.diaryEntries[i].id == id ==>
      r.diaryEntries[i] == PatchedEntry(st.diaryEntries[i], p, now)
    ensures forall i :: 0 <= i < |st.diaryEntries| && st.diaryEntries[i].id != id ==>
      r.diaryEntries[i] == st.diaryEntries[i]
    ensures r.(diaryEntries := st.diaryEntries) == st
  {
    st.(diaryEntries := Seqs.MapWhere(st.diaryEntries, (d: DiaryEntry) => d.id == id,
                                      (d: DiaryEntry) => PatchedEntry(d, p, now)))
  }

  /** `deleteDiaryEntry`: drop every entry with the id. */
  function DeleteDiaryEntry(st: Store, id: string): (r: Store)
    ensures forall i :: 0 <= i < |r.diaryEntries| ==> r.diaryEntries[i].id != id
    ensures forall i :: 0 <= i < |st.diaryEntries| && st.diaryEntries[i].id != id ==>
      st.diaryEntries[i] in r.diaryEntries
    ensures Seqs.Subsequence(r.diaryEntries, st.diaryEntries)
    ensures forall i :: 0 <= i < |st.diaryEntries| ==>
      multiset(r.diaryEntries)[st.diaryEntries[i]] == if st.diaryEntries[i].id == id then 0 else multiset(st.diaryEntries)[st.diaryEntries[i]]
    ensures r.(diaryEntries := st.diaryEntries) == st
  {
    var p := (d: DiaryEntry) => d.id != id;
    Seqs.FilterIsSubsequence(st.diaryEntries, p);
    Seqs.FilterCounts(st.diaryEntries, p);
    st.(diaryEntries := Seqs.Filter(st.diaryEntries, p))
  }

  /** Adding a diary entry under an id not yet used and deleting that id
      gives back the store as it was. */
  lemma {:induction false} DeleteAddedEntry(st: Store, draft: DiaryEntry, freshId: string, now: int)
    requires forall i :: 0 <= i < |st.diaryEntries| ==> st.diaryEntries[i].id != freshId
    ensures DeleteDiaryEntry(AddDiaryEntry(st, draft, freshId, now).store, freshId) == st
  {
    var a := AddDiaryEntry(st, draft, freshId, now);
    var p := (d: DiaryEntry) => d.id != freshId;
    Seqs.FilterAppend(st.diaryEntries, [a.item], p);
    Seqs.FilterKeepsAll(st.diaryEntries, p);
    assert Seqs.Filter([a.item], p) == [];
  }

  // ---- Projects ----

  /** `addProject`: the draft with a fresh id and `createdAt` now. */
  function AddProject(st: Store, draft: Project, freshId: string, now: int): (r: Added<Project>)
    ensures r.item.id == freshId && r.item.createdAt == now
    ensures r.item.(id := draft.id, createdAt := draft.createdAt) == draft
    ensures r.store.projects == st.projects + [r.item]
    ensures r.store.(projects := st.projects) == st
  {
    var q := draft.(id := freshId, createdAt := now);
    Added(q, st.(projects := st.projects + [q]))
  }

  /** `updateProject`: merge the patch into every project with the id. */
  function UpdateProject(st: Store, id: string, p: ProjectPatch): (r: Store)
    ensures |r.projects| == |st.projects|
    ensures forall i :: 0 <= i < |st.projects| && st.projects[i].id == id ==>
      r.projects[i] == MergeProject(st.projects[i], p)
    ensures forall i :: 0 <= i < |st.projects| && st.projects[i].id != id ==> r.projects[i] == st.projects[i]
    ensures r.(projects := st.projects) == st
  {
    st.(projects := Seqs.MapWhere(st.projects, (q: Project) => q.id == id, (q: Project) => MergeProject(q, p)))
  }

  /** `deleteProject`: drop the project and, with it, every todo and every
      sprint that belongs to it. Todos without a project are kept. */
  function DeleteProject(st: Store, id: string): (r: Store)
    ensures forall i :: 0 <= i < |r.projects| ==> r.projects[i].id != id
    ensures forall i :: 0 <= i < |r.todos| ==> r.todos[i].projectId != Some(id)
    ensures forall i :: 0 <= i < |r.sprints| ==> r.sprints[i].projectId != id
    ensures forall i :: 0 <= i < |st.projects| && st.projects[i].id != id ==> st.projects[i] in r.projects
    ensures forall i :: 0 <= i < |st.todos| && st.todos[i].projectId != Some(id) ==> st.todos[i] in r.todos
    ensures forall i :: 0 <= i < |st.sprints| && st.sprints[i].projectId != id ==> st.sprints[i] in r.sprints
    ensures Seqs.Subsequence(r.projects, st.projects)
    ensures forall i :: 0 <= i < |st.projects| ==>
      multiset(r.projects)[st.projects[i]] == if st.projects[i].id == id then 0 else multiset(st.projects)[st.projects[i]]
    ensures Seqs.Subsequence(r.todos, st.todos)
    ensures forall i :: 0 <= i < |st.todos| ==>
      multiset(r.todos)[st.todos[i]] == if st.todos[i].projectId == Some(id) then 0 else multiset(st.todos)[st.todos[i]]
    ensures Seqs.Subsequence(r.sprints, st.sprints)
    ensures forall i :: 0 <= i < |st.sprints| ==>
      multiset(r.sprints)[st.sprints[i]] == if st.sprints[i].projectId == id then 0 else multiset(st.sprints)[st.sprints[i]]
    ensures r.calendarEvents == st.calendarEvents && r.diaryEntries == st.diaryEntries
  {
    var keepProject := (q: Project) => q.id != id;
    var keepTodo := (t: Todo) => t.projectId != Some(id);
    var keepSprint := (s: Sprint) => s.projectId != id;
    Seqs.FilterIsSubsequence(st.projects, keepProject);
    Seqs.FilterIsSubsequence(st.todos, keepTodo);
    Seqs.FilterIsSubsequence(st.sprints, keepSprint);
    Seqs.FilterCounts(st.projects, keepProject);
    Seqs.FilterCounts(st.todos, keepTodo);
    Seqs.FilterCounts(st.sprints, keepSprint);
    st.(projects := Seqs.Filter(st.projects, keepProject),
        todos := Seqs.Filter(st.todos, keepTodo),
        sprints := Seqs.Filter(st.sprints, keepSprint))
  }

  /** Adding a project under an id that nothing uses yet, neither a project
      nor a todo or sprint pointing at it, and deleting that project gives
      back the store as it was. */
  lemma {:induction false} DeleteAddedProject(st: Store, draft: Project, freshId: string, now: int)
    requires forall i :: 0 <= i < |st.projects| ==> st.projects[i].id != freshId
    requires forall i :: 0 <= i < |st.todos| ==> st.todos[i].projectId != Some(freshId)
    requires forall i :: 0 <= i < |st.sprints| ==> st.sprints[i].projectId != freshId
    ensures DeleteProject(AddProject(st, draft, freshId, now).store, freshId) == st
  {
    var a := AddProject(st, draft, freshId, now);
    var p := (q: Project) => q.id != freshId;
    Seqs.FilterAppend(st.projects, [a.item], p);
    Seqs.FilterKeepsAll(st.projects, p);
    Seqs.FilterKeepsAll(st.todos, (t: Todo) => t.projectId != Some(freshId));
    Seqs.FilterKeepsAll(st.sprints, (s: Sprint) => s.projectId != freshId);
    assert Seqs.Filter([a.item], p) == [];
  }

  // ---- Sprints ----

  /** `addSprint`: the draft with a fresh id, appended. */
  function AddSprint(st: Store, draft: Sprint, freshId: string): (r: Added<Sprint>)
    ensures r.item.id == freshId && r.item.(id := draft.id) == draft
    ensures r.store.sprints == st.sprints + [r.item]
    ensures r.store.(sprints := st.sprints) == st
  {
    var s := draft.(id := freshId);
    Added(s, st.(sprints := st.sprints + [s]))
  }

  /** `updateSprint`: merge the patch into every sprint with the id. */
  function UpdateSprint(st: Store, id: string, p: SprintPatch): (r: Store)
    ensures |r.sprints| == |st.sprints|
    ensures forall i :: 0 <= i < |st.sprints| && st.sprints[i].id == id ==> r.sprints[i] == MergeSprint(st.sprints[i], p)
    ensures forall i :: 0 <= i < |st.sprints| && st.sprints[i].id != id ==> r.sprints[i] == st.sprints[i]
    ensures r.(sprints := st.sprints) == st
  {
    st.(sprints := Seqs.MapWhere(st.sprints, (s: Sprint) => s.id == id, (s: Sprint) => MergeSprint(s, p)))
  }

  /** `deleteSprint`: drop every sprint with the id. */
  function DeleteSprint(st: Store, id: string): (r: Store)
    ensures forall i :: 0 <= i < |r.sprints| ==> r.sprints[i].id != id
    ensures forall i :: 0 <= i < |st.sprints| && st.sprints[i].id != id ==> st.sprints[i] in r.sprints
    ensures Seqs.Subsequence(r.sprints, st.sprints)
    ensures forall i :: 0 <= i < |st.sprints| ==>
      multiset(r.sprints)[st.sprints[i]] == if st.sprints[i].id == id then 0 else multiset(st.sprints)[st.sprints[i]]
    ensures r.(sprints := st.sprints) == st
  {
    var p := (s: Sprint) => s.id != id;
    Seqs.FilterIsSubsequence(st.sprints, p);
    Seqs.FilterCounts(st.sprints, p);
    st.(sprints := Seqs.Filter(st.sprints, p))
  }

  /** Adding a sprint under an id not yet used and deleting that id gives
      back the store as it was. */
  lemma {:induction false} DeleteAddedSprint(st: Store, draft: Sprint, freshId: string)
    requires forall i :: 0 <= i < |st.sprints| ==> st.sprints[i].id != freshId
    ensures DeleteSprint(AddSprint(st, draft, freshId).store, freshId) == st
  {
    var a := AddSprint(st, draft, freshId);
    var p := (s: Sprint) => s.id != freshId;
    Seqs.FilterAppend(st.sprints, [a.item], p);
    Seqs.FilterKeepsAll(st.sprints, p);
    assert Seqs.Filter([a.item], p) == [];
  }

  /** Deleting a project twice is deleting it once: nothing that belonged to
      it survives the first delete. */
  lemma {:induction false} DeleteProjectTwice(st: Store, id: string)
    ensures DeleteProject(DeleteProject(st, id), id) == DeleteProject(st, id)
  {
    var r := DeleteProject(st, id);
    Seqs.FilterKeepsAll(r.projects, (q: Project) => q.id != id);
    Seqs.FilterKeepsAll(r.todos, (t: Todo) => t.projectId != Some(id));
    Seqs.FilterKeepsAll(r.sprints, (s: Sprint) => s.projectId != id);
  }
}
