/** The agile-tools plugin's socket handlers
    (`plugins/agile-tools/backend/index.ts`): tasks and sprints kept as two
    lists in the plugin's key-value storage, and a burndown summary per
    sprint. Every handler reads a list (an absent key reads as the empty
    list), maybe writes it back, and emits events either to the requesting
    socket or to every connected socket. */
module AgileTools {
  import opened Common
  import Registry
  import Seqs

  /** `'todo' | 'in-progress' | 'done'`. */
  datatype TaskStatus = ToDo | InProgress | Done
  datatype TaskPriority = Low | Medium | High

  datatype Task = Task(
    id: string,
    title: string,
    description: string,
    status: TaskStatus,
    assignee: Option<string>,
    priority: TaskPriority,
    storyPoints: Option<int>,
    createdBy: string,
    createdAt: int,
    updatedAt: int,
    sprintId: Option<string>)

  /** `'planning' | 'active' | 'completed'`. */
  datatype SprintStatus = Planning | Active | Completed

  datatype Sprint = Sprint(
    id: string,
    name: string,
    startDate: Option<int>,
    endDate: Option<int>,
    status: SprintStatus,
    tasks: seq<string>,
    createdBy: string,
    createdAt: int)

  /** The fields of a `task:create` payload the handler reads. */
  datatype TaskDraft = TaskDraft(
    title: Option<string>,
    description: Option<string>,
    assignee: Option<string>,
    priority: Option<TaskPriority>,
    storyPoints: Option<int>,
    sprintId: Option<string>)

  /** `Partial<Task>`: the updates of a `task:update` payload. */
  datatype TaskPatch = TaskPatch(
    id: Option<string>,
    title: Option<string>,
    description: Option<string>,
    status: Option<TaskStatus>,
    assignee: Option<string>,
    priority: Option<TaskPriority>,
    storyPoints: Option<int>,
    createdBy: Option<string>,
    createdAt: Option<int>,
    updatedAt: Option<int>,
    sprintId: Option<string>)

  /** The plugin's storage keys `tasks` and `sprints`; `None` is a key never
      written. */
  datatype Storage = Storage(tasks: Option<seq<Task>>, sprints: Option<seq<Sprint>>)

  /** Connected users by socket id: their usernames. */
  type Users = map<string, string>

  /** `socket.emit` answers the requester; `ctx.emit` reaches every socket. */
  datatype Route = ToSender | ToEveryone

  datatype Payload =
    | TaskPayload(task: Task)
    | TaskListPayload(tasks: seq<Task>)
    | DeletedPayload(id: string)
    | SprintPayload(sprint: Sprint)
    | ErrorPayload(message: string)
    | BurndownPayload(sprintId: string, totalPoints: int, completedPoints: int, remainingPoints: int, sprintTasks: seq<Task>)

  datatype Emit = Emit(route: Route, event: string, payload: Payload)

  datatype Outcome = Outcome(next: Storage, out: seq<Emit>)

  const TaskNotFound := "Task not found"
  const SprintNotFound := "Sprint not found"

  /** `ctx.storage.get('tasks') || []`. */
  function Tasks(st: Storage): seq<Task> {
    st.tasks.GetOr([])
  }

  /** `ctx.storage.get('sprints') || []`. */
  function Sprints(st: Storage): seq<Sprint> {
    st.sprints.GetOr([])
  }

  function TaskId(t: Task): string {
    t.id
  }

  function SprintId(s: Sprint): string {
    s.id
  }

  /** `socketId.slice(0, 6)`. */
  function Prefix6(socketId: string): (p: string)
    ensures |p| == if |socketId| < 6 then |socketId| else 6
    ensures p <= socketId
  {
    if |socketId| < 6 then socketId else socketId[..6]
  }

  /** The id of a task created at `now` from a socket. */
  function NewTaskId(now: nat, socketId: string): (id: string)
    ensures |id| == 6 + |NatToString(now)| + |Prefix6(socketId)|
    ensures id[..5] == "task-"
    ensures id[5..5 + |NatToString(now)|] == NatToString(now)
    ensures id[5 + |NatToString(now)|] == '-'
    ensures id[6 + |NatToString(now)|..] == Prefix6(socketId)
  {
    "task-" + NatToString(now) + "-" + Prefix6(socketId)
  }

  /** Tasks created at different milliseconds get different ids, whatever
      sockets created them: the digits of the time end at the first dash. */
  lemma TaskIdsDistinct(now1: nat, s1: string, now2: nat, s2: string)
    requires now1 != now2
    ensures NewTaskId(now1, s1) != NewTaskId(now2, s2)
  {
    var n1, n2 := NatToString(now1), NatToString(now2);
    var id1, id2 := NewTaskId(now1, s1), NewTaskId(now2, s2);
    NatToStringInjective(now1, now2);
    if |n1| < |n2| {
      assert IsDigit(n2[|n1|]);
      assert id1[5 + |n1|] != id2[5 + |n1|];
    } else if |n2| < |n1| {
      assert IsDigit(n1[|n2|]);
      assert id1[5 + |n2|] != id2[5 + |n2|];
    } else {
      var k :| 0 <= k < |n1| && n1[k] != n2[k];
      assert id1[5 + k] != id2[5 + k];
    }
  }

  /** Within one millisecond, tasks from sockets whose ids differ in their
      first six characters get different ids. */
  lemma TaskIdsDistinctSockets(now: nat, s1: string, s2: string)
    requires Prefix6(s1) != Prefix6(s2)
    ensures NewTaskId(now, s1) != NewTaskId(now, s2)
  {
    var n := NatToString(now);
    assert NewTaskId(now, s1)[6 + |n|..] == Prefix6(s1);
  }

  /** The task a `task:create` payload describes: missing or empty title
      and description fall back to `'Untitled Task'` and `''`, a missing
      priority to `medium`; a new task is always `todo`. */
  function NewTask(draft: TaskDraft, username: string, socketId: string, now: nat): (t: Task)
    ensures t.status == ToDo
    ensures t.title == (if TruthyString(draft.title) then draft.title.value else "Untitled Task")
    ensures t.description == (if TruthyString(draft.description) then draft.description.value else "")
    ensures t.priority == (if draft.priority.Some? then draft.priority.value else Medium)
    ensures t.assignee == draft.assignee && t.storyPoints == draft.storyPoints && t.sprintId == draft.sprintId
    ensures t.createdBy == username && t.createdAt == now && t.updatedAt == now
    ensures t.id == NewTaskId(now, socketId)
  {
    Task(NewTaskId(now, socketId), StringOr(draft.title, "Untitled Task"), StringOr(draft.description, ""),
         ToDo, draft.assignee, draft.priority.GetOr(Medium), draft.storyPoints, username, now, now, draft.sprintId)
  }

  /** `task:create`: a socket with no user does nothing; otherwise the new
      task is appended to the stored list and broadcast. */
  function CreateTask(st: Storage, users: Users, socketId: string, draft: TaskDraft, now: nat): (r: Outcome)
    ensures socketId !in users ==> r == Outcome(st, [])
    ensures socketId in users ==>
      var t := NewTask(draft, users[socketId], socketId, now);
      && Tasks(r.next) == Tasks(st) + [t]
      && r.next.tasks.Some?
      && r.next.sprints == st.sprints
      && r.out == [Emit(ToEveryone, "task:created", TaskPayload(t))]
  {
    if socketId !in users then Outcome(st, [])
    else
      var t := NewTask(draft, users[socketId], socketId, now);
      Outcome(st.(tasks := Some(Tasks(st) + [t])), [Emit(ToEveryone, "task:created", TaskPayload(t))])
  }

  /** `{ ...task, ...updates }`: the present fields of the patch win. */
  function MergeTask(t: Task, p: TaskPatch): (r: Task)
    ensures (p.id.Some? ==> r.id == p.id.value) && (p.id.None? ==> r.id == t.id)
    ensures (p.title.Some? ==> r.title == p.title.value) && (p.title.None? ==> r.title == t.title)
    ensures (p.description.Some? ==> r.description == p.description.value) && (p.description.None? ==> r.description == t.description)
    ensures (p.status.Some? ==> r.status == p.status.value) && (p.status.None? ==> r.status == t.status)
    ensures (p.assignee.Some? ==> r.assignee == p.assignee) && (p.assignee.None? ==> r.assignee == t.assignee)
    ensures (p.priority.Some? ==> r.priority == p.priority.value) && (p.priority.None? ==> r.priority == t.priority)
    ensures (p.storyPoints.Some? ==> r.storyPoints == p.storyPoints) && (p.storyPoints.None? ==> r.storyPoints == t.storyPoints)
    ensures (p.createdBy.Some? ==> r.createdBy == p.createdBy.value) && (p.createdBy.None? ==> r.createdBy == t.createdBy)
    ensures (p.createdAt.Some? ==> r.createdAt == p.createdAt.value) && (p.createdAt.None? ==> r.createdAt == t.createdAt)
    ensures (p.updatedAt.Some? ==> r.updatedAt == p.updatedAt.value) && (p.updatedAt.None? ==> r.updatedAt == t.updatedAt)
    ensures (p.sprintId.Some? ==> r.sprintId == p.sprintId) && (p.sprintId.None? ==> r.sprintId == t.sprintId)
  {
    Task(
      p.id.GetOr(t.id), p.title.GetOr(t.title), p.description.GetOr(t.description),
      p.status.GetOr(t.status), Over(t.assignee, p.assignee),
      p.priority.GetOr(t.priority), Over(t.storyPoints, p.storyPoints),
      p.createdBy.GetOr(t.createdBy), p.createdAt.GetOr(t.createdAt), p.updatedAt.GetOr(t.updatedAt),
      Over(t.sprintId, p.sprintId))
  }

  const EmptyTaskPatch := TaskPatch(None, None, None, None, None, None, None, None, None, None, None)

  /** Merging an empty patch changes nothing, and merging the same patch
      twice is merging it once. */
  lemma MergeTaskLaws(t: Task, p: TaskPatch)
    ensures MergeTask(t, EmptyTaskPatch) == t
    ensures MergeTask(MergeTask(t, p), p) == MergeTask(t, p)
  {
  }

  /** `task:update`: an unknown id answers the sender with an error and
      writes nothing; otherwise the first task with the id takes the
      updates and a fresh `updatedAt`, the list is written back and the
      task broadcast. */
  function UpdateTask(st: Storage, id: string, updates: TaskPatch, now: int): (r: Outcome)
    ensures !Registry.HasKey(Tasks(st), TaskId, id) ==>
      r == Outcome(st, [Emit(ToSender, "task:error", ErrorPayload(TaskNotFound))])
    ensures Registry.HasKey(Tasks(st), TaskId, id) ==>
      var i := Registry.FindIndex(Tasks(st), TaskId, id);
      var t := MergeTask(Tasks(st)[i], updates).(updatedAt := now);
      && |Tasks(r.next)| == |Tasks(st)|
      && Tasks(r.next)[i] == t
      && (forall j :: 0 <= j < |Tasks(st)| && j != i ==> Tasks(r.next)[j] == Tasks(st)[j])
      && r.next.tasks.Some? && r.next.sprints == st.sprints
      && r.out == [Emit(ToEveryone, "task:updated", TaskPayload(t))]
  {
    var tasks := Tasks(st);
    var i := Registry.FindIndex(tasks, TaskId, id);
    if i == -1 then Outcome(st, [Emit(ToSender, "task:error", ErrorPayload(TaskNotFound))])
    else
      var t := MergeTask(tasks[i], updates).(updatedAt := now);
      Outcome(st.(tasks := Some(tasks[i := t])), [Emit(ToEveryone, "task:updated", TaskPayload(t))])
  }

  /** `task:delete`: when filtering out the id leaves the length unchanged
      the sender gets an error and nothing is written; otherwise every task
      with the id is dropped and the deletion broadcast. */
  function DeleteTask(st: Storage, id: string): (r: Outcome)
    ensures !Registry.HasKey(Tasks(st), TaskId, id) ==>
      r == Outcome(st, [Emit(ToSender, "task:error", ErrorPayload(TaskNotFound))])
    ensures Registry.HasKey(Tasks(st), TaskId, id) ==>
      && r.next.tasks.Some?
      && !Registry.HasKey(Tasks(r.next), TaskId, id)
      && (forall i :: 0 <= i < |Tasks(st)| && Tasks(st)[i].id != id ==> Tasks(st)[i] in Tasks(r.next))
      && Seqs.Subsequence(Tasks(r.next), Tasks(st))
      && (forall i :: 0 <= i < |Tasks(st)| ==>
            multiset(Tasks(r.next))[Tasks(st)[i]] == if Tasks(st)[i].id == id then 0 else multiset(Tasks(st))[Tasks(st)[i]])
      && |Tasks(r.next)| < |Tasks(st)|
      && r.next.sprints == st.sprints
      && r.out == [Emit(ToEveryone, "task:deleted", DeletedPayload(id))]
  {
    var tasks := Tasks(st);
    var filtered := Seqs.Filter(tasks, (t: Task) => t.id != id);
    DroppedTasks(tasks, id);
    if |tasks| == |filtered| then Outcome(st, [Emit(ToSender, "task:error", ErrorPayload(TaskNotFound))])
    else Outcome(st.(tasks := Some(filtered)), [Emit(ToEveryone, "task:deleted", DeletedPayload(id))])
  }

  /** What filtering a task list by id keeps: the list is shorter exactly
      when the id was present, and what is left is the list without that
      id, in order, each other task as often as before. */
  lemma DroppedTasks(tasks: seq<Task>, id: string)
    ensures var kept := Seqs.Filter(tasks, (t: Task) => t.id != id);
      && (|kept| < |tasks| <==> Registry.HasKey(tasks, TaskId, id))
      && |kept| <= |tasks|
      && !Registry.HasKey(kept, TaskId, id)
      && (forall i :: 0 <= i < |tasks| && tasks[i].id != id ==> tasks[i] in kept)
      && Seqs.Subsequence(kept, tasks)
      && (forall i :: 0 <= i < |tasks| ==>
            multiset(kept)[tasks[i]] == if tasks[i].id == id then 0 else multiset(tasks)[tasks[i]])
  {
    var p := (t: Task) => t.id != id;
    Seqs.FilterLength(tasks, p);
    Seqs.FilterIsSubsequence(tasks, p);
    Seqs.FilterCounts(tasks, p);
  }

  /** `task:list`, and the greeting of a new connection: the stored tasks,
      to the requester only. */
  function ListTasks(st: Storage): (r: Outcome)
    ensures r.next == st
    ensures r.out == [Emit(ToSender, "task:list", TaskListPayload(Tasks(st)))]
    ensures st.tasks.None? ==> r.out[0].payload.tasks == []
  {
    Outcome(st, [Emit(ToSender, "task:list", TaskListPayload(Tasks(st)))])
  }

  /** `sprint:create`: a socket with no user does nothing; otherwise a new
      sprint in planning, with no tasks and no dates, is appended and
      broadcast. */
  function CreateSprint(st: Storage, users: Users, socketId: string, name: string, now: nat): (r: Outcome)
    ensures socketId !in users ==> r == Outcome(st, [])
    ensures socketId in users ==>
      var s := Sprint("sprint-" + NatToString(now), name, None, None, Planning, [], users[socketId], now);
      && Sprints(r.next) == Sprints(st) + [s]
      && r.next.sprints.Some? && r.next.tasks == st.tasks
      && r.out == [Emit(ToEveryone, "sprint:created", SprintPayload(s))]
  {
    if socketId !in users then Outcome(st, [])
    else
      var s := Sprint("sprint-" + NatToString(now), name, None, None, Planning, [], users[socketId], now);
      Outcome(st.(sprints := Some(Sprints(st) + [s])), [Emit(ToEveryone, "sprint:created", SprintPayload(s))])
  }

  /** `sprint:start`: an unknown id answers the sender with an error and
      writes nothing; otherwise the first sprint with the id becomes active,
      starting now, and is broadcast. */
  function StartSprint(st: Storage, id: string, now: int): (r: Outcome)
    ensures !Registry.HasKey(Sprints(st), SprintId, id) ==>
      r == Outcome(st, [Emit(ToSender, "sprint:error", ErrorPayload(SprintNotFound))])
    ensures Registry.HasKey(Sprints(st), SprintId, id) ==>
      var i := Registry.FindIndex(Sprints(st), SprintId, id);
      var s := Sprints(st)[i].(status := Active, startDate := Some(now));
      && |Sprints(r.next)| == |Sprints(st)|
      && Sprints(r.next)[i] == s
      && (forall j :: 0 <= j < |Sprints(st)| && j != i ==> Sprints(r.next)[j] == Sprints(st)[j])
      && r.next.sprints.Some? && r.next.tasks == st.tasks
      && r.out == [Emit(ToEveryone, "sprint:started", SprintPayload(s))]
  {
    var sprints := Sprints(st);
    var i := Registry.FindIndex(sprints, SprintId, id);
    if i == -1 then Outcome(st, [Emit(ToSender, "sprint:error", ErrorPayload(SprintNotFound))])
    else
      var s := sprints[i].(status := Active, startDate := Some(now));
      Outcome(st.(sprints := Some(sprints[i := s])), [Emit(ToEveryone, "sprint:started", SprintPayload(s))])
  }

  /** `t.storyPoints || 0`. */
  function Points(t: Task): int {
    NumberOrZero(t.storyPoints)
  }

  function InSprint(sprintId: string): Task -> bool {
    (t: Task) => t.sprintId == Some(sprintId)
  }

  function IsDone(): Task -> bool {
    (t: Task) => t.status == Done
  }

  /** `burndown:get`: the sprint's tasks, the sum of their points, the sum
      over the done ones, and the difference, to the requester only. */
  function Burndown(st: Storage, sprintId: string): (r: Outcome)
    ensures r.next == st && |r.out| == 1
    ensures r.out[0].route == ToSender && r.out[0].event == "burndown:data"
    ensures var p := r.out[0].payload;
      && p.BurndownPayload?
      && p.sprintId == sprintId
      && p.sprintTasks == Seqs.Filter(Tasks(st), InSprint(sprintId))
      && p.totalPoints == Seqs.Sum(p.sprintTasks, Points)
      && p.completedPoints == Seqs.Sum(Seqs.Filter(p.sprintTasks, IsDone()), Points)
      && p.remainingPoints == p.totalPoints - p.completedPoints
  {
    var sprintTasks := Seqs.Filter(Tasks(st), InSprint(sprintId));
    var total := Seqs.Sum(sprintTasks, Points);
    var completed := Seqs.Sum(Seqs.Filter(sprintTasks, IsDone()), Points);
    Outcome(st, [Emit(ToSender, "burndown:data", BurndownPayload(sprintId, total, completed, total - completed, sprintTasks))])
  }

  /** With no negative story points, the burndown never reports more done
      than planned, nor negative work left. */
  lemma BurndownBounds(st: Storage, sprintId: string)
    requires forall i :: 0 <= i < |Tasks(st)| ==> Points(Tasks(st)[i]) >= 0
    ensures var p := Burndown(st, sprintId).out[0].payload;
      0 <= p.completedPoints <= p.totalPoints && 0 <= p.remainingPoints <= p.totalPoints
  {
    var sprintTasks := Seqs.Filter(Tasks(st), InSprint(sprintId));
    Seqs.SumFilterBound(sprintTasks, IsDone(), Points);
  }

  /** Creating a task in a sprint adds its points to the sprint's total and
      leaves the completed sum alone: new tasks are never done. */
  lemma CreateAddsToBurndown(st: Storage, users: Users, socketId: string, draft: TaskDraft, now: nat, sprintId: string)
    requires socketId in users && draft.sprintId == Some(sprintId)
    ensures var before := Burndown(st, sprintId).out[0].payload;
      var after := Burndown(CreateTask(st, users, socketId, draft, now).next, sprintId).out[0].payload;
      && after.totalPoints == before.totalPoints + NumberOrZero(draft.storyPoints)
      && after.completedPoints == before.completedPoints
  {
    var t := NewTask(draft, users[socketId], socketId, now);
    var before := Seqs.Filter(Tasks(st), InSprint(sprintId));
    Seqs.FilterSnoc(Tasks(st), t, InSprint(sprintId));
    Seqs.SumAppend(before, t, Points);
    Seqs.FilterSnoc(before, t, IsDone());
    assert Seqs.Filter(before + [t], IsDone()) == Seqs.Filter(before, IsDone());
  }

  /** An update of a known task leaves it findable under its id unless the
      patch renames it. */
  lemma UpdateKeepsTask(st: Storage, id: string, updates: TaskPatch, now: int)
    requires Registry.HasKey(Tasks(st), TaskId, id) && updates.id.None?
    ensures Registry.HasKey(Tasks(UpdateTask(st, id, updates, now).next), TaskId, id)
  {
    var i := Registry.FindIndex(Tasks(st), TaskId, id);
    assert Tasks(UpdateTask(st, id, updates, now).next)[i].id == id;
  }

  /** A created task can be deleted again; the deletion then removes just
      the tasks with its id. */
  lemma CreateThenDelete(st: Storage, users: Users, socketId: string, draft: TaskDraft, now: nat)
    requires socketId in users
    ensures var created := CreateTask(st, users, socketId, draft, now).next;
      var id := NewTaskId(now, socketId);
      && DeleteTask(created, id).out == [Emit(ToEveryone, "task:deleted", DeletedPayload(id))]
      && !Registry.HasKey(Tasks(DeleteTask(created, id).next), TaskId, id)
  {
    var created := CreateTask(st, users, socketId, draft, now).next;
    assert Tasks(created)[|Tasks(created)| - 1].id == NewTaskId(now, socketId);
  }

  /** After a create, the task list a client asks for ends with the new
      task; after deleting it again, when its id was not taken before, the
      list is the one from before the create. */
  lemma {:induction false} ListAfterCreateAndDelete(st: Storage, users: Users, socketId: string, draft: TaskDraft, now: nat)
    requires socketId in users
    ensures var created := CreateTask(st, users, socketId, draft, now).next;
      ListTasks(created).out[0].payload.tasks == Tasks(st) + [NewTask(draft, users[socketId], socketId, now)]
    ensures !Registry.HasKey(Tasks(st), TaskId, NewTaskId(now, socketId)) ==>
      var created := CreateTask(st, users, socketId, draft, now).next;
      ListTasks(DeleteTask(created, NewTaskId(now, socketId)).next).out[0].payload.tasks == Tasks(st)
  {
    var id := NewTaskId(now, socketId);
    var t := NewTask(draft, users[socketId], socketId, now);
    if !Registry.HasKey(Tasks(st), TaskId, id) {
      var p := (x: Task) => x.id != id;
      Seqs.FilterAppend(Tasks(st), [t], p);
      Seqs.FilterKeepsAll(Tasks(st), p);
      assert Seqs.Filter([t], p) == [];
    }
  }

  /** A sprint just created can be started under the id it was given, when
      no older sprint holds that id: it is the one broadcast as active,
      with the start time and everything else as created. */
  lemma CreateThenStartSprint(st: Storage, users: Users, socketId: string, name: string, now: nat, later: int)
    requires socketId in users
    requires !Registry.HasKey(Sprints(st), SprintId, "sprint-" + NatToString(now))
    ensures var created := CreateSprint(st, users, socketId, name, now).next;
      var id := "sprint-" + NatToString(now);
      var s := Sprint(id, name, Some(later), None, Active, [], users[socketId], now);
      var r := StartSprint(created, id, later);
      && r.out == [Emit(ToEveryone, "sprint:started", SprintPayload(s))]
      && Sprints(r.next) == Sprints(st) + [s]
  {
    var created := CreateSprint(st, users, socketId, name, now).next;
    var id := "sprint-" + NatToString(now);
    var n := |Sprints(st)|;
    assert Sprints(created)[n].id == id;
    Registry.FindIndexIs(Sprints(created), SprintId, id, n);
    var r := StartSprint(created, id, later);
    var s := Sprint(id, name, Some(later), None, Active, [], users[socketId], now);
    assert Sprints(r.next) == Sprints(st) + [s];
  }

  /** The socket events the plugin handles. */
  datatype Request =
    | TaskCreate(draft: TaskDraft)
    | TaskUpdate(id: string, updates: TaskPatch)
    | TaskDelete(id: string)
    | TaskList
    | SprintCreate(name: string)
    | SprintStart(id: string)
    | BurndownGet(sprintId: string)

  function Handle(st: Storage, users: Users, socketId: string, req: Request, now: nat): (r: Outcome)
    ensures |r.out| <= 1
  {
    match req
    case TaskCreate(d) => CreateTask(st, users, socketId, d, now)
    case TaskUpdate(id, u) => UpdateTask(st, id, u, now)
    case TaskDelete(id) => DeleteTask(st, id)
    case TaskList => ListTasks(st)
    case SprintCreate(name) => CreateSprint(st, users, socketId, name, now)
    case SprintStart(id) => StartSprint(st, id, now)
    case BurndownGet(s) => Burndown(st, s)
  }

  /** Whatever the request, an error reaches only the requester and comes
      with the storage untouched. */
  lemma ErrorsWriteNothing(st: Storage, users: Users, socketId: string, req: Request, now: nat)
    ensures var r := Handle(st, users, socketId, req, now);
      forall i :: 0 <= i < |r.out| && r.out[i].payload.ErrorPayload? ==>
        r.out[i].route == ToSender && r.next == st
  {
  }
}
