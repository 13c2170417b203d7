/** The entities of the business dashboard (`frontend/src/lib/business/types.ts`)
    and the `{ ...entity, ...updates }` merges of their partial updates.
    Timestamps are integer milliseconds; optional fields are `Option`s. A
    patch field that is `Some` overwrites; a key present with the value
    `undefined` is not modelled. */
module BusinessTypes {
  import opened Common

  /** `'todo' | 'in_progress' | 'done' | 'blocked'`. */
  datatype TodoStatus = TodoOpen | InProgress | Done | Blocked
  datatype Priority = Low | Medium | High | Urgent

  datatype Todo = Todo(
    id: string,
    title: string,
    description: Option<string>,
    status: TodoStatus,
    priority: Priority,
    dueDate: Option<int>,
    createdAt: int,
    updatedAt: int,
    createdBy: string,
    assignedTo: Option<string>,
    tags: Option<seq<string>>,
    projectId: Option<string>,
    completedAt: Option<int>)

  datatype Frequency = Daily | Weekly | Monthly | Yearly
  datatype Recurrence = Recurrence(frequency: Frequency, interval: int, endDate: Option<int>)

  datatype CalendarEvent = CalendarEvent(
    id: string,
    title: string,
    description: Option<string>,
    startDate: int,
    endDate: Option<int>,
    allDay: bool,
    color: Option<string>,
    createdBy: string,
    recurring: Option<Recurrence>,
    reminders: Option<seq<int>>,
    linkedTodoId: Option<string>)

  datatype Mood = Great | Good | Neutral | Bad | Terrible

  datatype DiaryEntry = DiaryEntry(
    id: string,
    date: int,
    content: string,
    mood: Option<Mood>,
    tags: Option<seq<string>>,
    createdBy: string,
    createdAt: int,
    updatedAt: int,
    isPrivate: bool)

  datatype ProjectStatus = Planning | Active | Paused | Completed | Cancelled

  datatype Project = Project(
    id: string,
    name: string,
    description: Option<string>,
    color: string,
    createdBy: string,
    createdAt: int,
    startDate: Option<int>,
    targetEndDate: Option<int>,
    status: ProjectStatus)

  datatype SprintStatus = SprintPlanned | SprintActive | SprintCompleted

  datatype Sprint = Sprint(
    id: string,
    projectId: string,
    name: string,
    startDate: int,
    endDate: int,
    goals: Option<seq<string>>,
    status: SprintStatus)

  datatype BurnChartDataPoint = BurnChartDataPoint(date: int, totalPoints: int, completedPoints: int, remainingPoints: int)

  /** The dashboard's todo filters; every field is optional. */
  datatype TodoFilters = TodoFilters(
    status: Option<seq<TodoStatus>>,
    priority: Option<seq<Priority>>,
    projectId: Option<string>,
    assignedTo: Option<string>,
    dueBefore: Option<int>,
    dueAfter: Option<int>,
    tags: Option<seq<string>>)

  const NoFilters := TodoFilters(None, None, None, None, None, None, None)

  datatype TodoPatch = TodoPatch(
    id: Option<string>,
    title: Option<string>,
    description: Option<string>,
    status: Option<TodoStatus>,
    priority: Option<Priority>,
    dueDate: Option<int>,
    createdAt: Option<int>,
    updatedAt: Option<int>,
    createdBy: Option<string>,
    assignedTo: Option<string>,
    tags: Option<seq<string>>,
    projectId: Option<string>,
    completedAt: Option<int>)

  const EmptyTodoPatch := TodoPatch(None, None, None, None, None, None, None, None, None, None, None, None, None)

  function MergeTodo(t: Todo, p: TodoPatch): (r: Todo)
    ensures (p.id.Some? ==> r.id == p.id.value) && (p.id.None? ==> r.id == t.id)
    ensures (p.title.Some? ==> r.title == p.title.value) && (p.title.None? ==> r.title == t.title)
    ensures (p.description.Some? ==> r.description == p.description) && (p.description.None? ==> r.description == t.description)
    ensures (p.status.Some? ==> r.status == p.status.value) && (p.status.None? ==> r.status == t.status)
    ensures (p.priority.Some? ==> r.priority == p.priority.value) && (p.priority.None? ==> r.priority == t.priority)
    ensures (p.dueDate.Some? ==> r.dueDate == p.dueDate) && (p.dueDate.None? ==> r.dueDate == t.dueDate)
    ensures (p.createdAt.Some? ==> r.createdAt == p.createdAt.value) && (p.createdAt.None? ==> r.createdAt == t.createdAt)
    ensures (p.updatedAt.Some? ==> r.updatedAt == p.updatedAt.value) && (p.updatedAt.None? ==> r.updatedAt == t.updatedAt)
    ensures (p.createdBy.Some? ==> r.createdBy == p.createdBy.value) && (p.createdBy.None? ==> r.createdBy == t.createdBy)
    ensures (p.assignedTo.Some? ==> r.assignedTo == p.assignedTo) && (p.assignedTo.None? ==> r.assignedTo == t.assignedTo)
    ensures (p.tags.Some? ==> r.tags == p.tags) && (p.tags.None? ==> r.tags == t.tags)
    ensures (p.projectId.Some? ==> r.projectId == p.projectId) && (p.projectId.None? ==> r.projectId == t.projectId)
    ensures (p.completedAt.Some? ==> r.completedAt == p.completedAt) && (p.completedAt.None? ==> r.completedAt == t.completedAt)
  {
    Todo(
      p.id.GetOr(t.id), p.title.GetOr(t.title), Over(t.description, p.description),
      p.status.GetOr(t.status), p.priority.GetOr(t.priority), Over(t.dueDate, p.dueDate),
      p.createdAt.GetOr(t.createdAt), p.updatedAt.GetOr(t.updatedAt), p.createdBy.GetOr(t.createdBy),
      Over(t.assignedTo, p.assignedTo), Over(t.tags, p.tags), Over(t.projectId, p.projectId),
      Over(t.completedAt, p.completedAt))
  }

  datatype CalendarEventPatch = CalendarEventPatch(
    id: Option<string>,
    title: Option<string>,
    description: Option<string>,
    startDate: Option<int>,
    endDate: Option<int>,
    allDay: Option<bool>,
    color: Option<string>,
    createdBy: Option<string>,
    recurring: Option<Recurrence>,
    reminders: Option<seq<int>>,
    linkedTodoId: Option<string>)

  const EmptyEventPatch := CalendarEventPatch(None, None, None, None, None, None, None, None, None, None, None)

  function MergeEvent(e: CalendarEvent, p: CalendarEventPatch): (r: CalendarEvent)
    ensures (p.id.Some? ==> r.id == p.id.value) && (p.id.None? ==> r.id == e.id)
    ensures (p.title.Some? ==> r.title == p.title.value) && (p.title.None? ==> r.title == e.title)
    ensures (p.description.Some? ==> r.description == p.description) && (p.description.None? ==> r.description == e.description)
    ensures (p.startDate.Some? ==> r.startDate == p.startDate.value) && (p.startDate.None? ==> r.startDate == e.startDate)
    ensures (p.endDate.Some? ==> r.endDate == p.endDate) && (p.endDate.None? ==> r.endDate == e.endDate)
    ensures (p.allDay.Some? ==> r.allDay == p.allDay.value) && (p.allDay.None? ==> r.allDay == e.allDay)
    ensures (p.color.Some? ==> r.color == p.color) && (p.color.None? ==> r.color == e.color)
    ensures (p.createdBy.Some? ==> r.createdBy == p.createdBy.value) && (p.createdBy.None? ==> r.createdBy == e.createdBy)
    ensures (p.recurring.Some? ==> r.recurring == p.recurring) && (p.recurring.None? ==> r.recurring == e.recurring)
    ensures (p.reminders.Some? ==> r.reminders == p.reminders) && (p.reminders.None? ==> r.reminders == e.reminders)
    ensures (p.linkedTodoId.Some? ==> r.linkedTodoId == p.linkedTodoId) && (p.linkedTodoId.None? ==> r.linkedTodoId == e.linkedTodoId)
  {
    CalendarEvent(
      p.id.GetOr(e.id), p.title.GetOr(e.title), Over(e.description, p.description),
      p.startDate.GetOr(e.startDate), Over(e.endDate, p.endDate), p.allDay.GetOr(e.allDay),
      Over(e.color, p.color), p.createdBy.GetOr(e.createdBy), Over(e.recurring, p.recurring),
      Over(e.reminders, p.reminders), Over(e.linkedTodoId, p.linkedTodoId))
  }

  datatype DiaryEntryPatch = DiaryEntryPatch(
    id: Option<string>,
    date: Option<int>,
    content: Option<string>,
    mood: Option<Mood>,
    tags: Option<seq<string>>,
    createdBy: Option<string>,
    createdAt: Option<int>,
    updatedAt: Option<int>,
    isPrivate: Option<bool>)

  const EmptyDiaryPatch := DiaryEntryPatch(None, None, None, None, None, None, None, None, None)

  function MergeDiary(d: DiaryEntry, p: DiaryEntryPatch): (r: DiaryEntry)
    ensures (p.id.Some? ==> r.id == p.id.value) && (p.id.None? ==> r.id == d.id)
    ensures (p.date.Some? ==> r.date == p.date.value) && (p.date.None? ==> r.date == d.date)
    ensures (p.content.Some? ==> r.content == p.content.value) && (p.content.None? ==> r.content == d.content)
    ensures (p.mood.Some? ==> r.mood == p.mood) && (p.mood.None? ==> r.mood == d.mood)
    ensures (p.tags.Some? ==> r.tags == p.tags) && (p.tags.None? ==> r.tags == d.tags)
    ensures (p.createdBy.Some? ==> r.createdBy == p.createdBy.value) && (p.createdBy.None? ==> r.createdBy == d.createdBy)
    ensures (p.createdAt.Some? ==> r.createdAt == p.createdAt.value) && (p.createdAt.None? ==> r.createdAt == d.createdAt)
    ensures (p.updatedAt.Some? ==> r.updatedAt == p.updatedAt.value) && (p.updatedAt.None? ==> r.updatedAt == d.updatedAt)
    ensures (p.isPrivate.Some? ==> r.isPrivate == p.isPrivate.value) && (p.isPrivate.None? ==> r.isPrivate == d.isPrivate)
  {
    DiaryEntry(
      p.id.GetOr(d.id), p.date.GetOr(d.date), p.content.GetOr(d.content), Over(d.mood, p.mood),
      Over(d.tags, p.tags), p.createdBy.GetOr(d.createdBy), p.createdAt.GetOr(d.createdAt),
      p.updatedAt.GetOr(d.updatedAt), p.isPrivate.GetOr(d.isPrivate))
  }

  datatype ProjectPatch = ProjectPatch(
    id: Option<string>,
    name: Option<string>,
    description: Option<string>,
    color: Option<string>,
    createdBy: Option<string>,
    createdAt: Option<int>,
    startDate: Option<int>,
    targetEndDate: Option<int>,
    status: Option<ProjectStatus>)

  const EmptyProjectPatch := ProjectPatch(None, None, None, None, None, None, None, None, None)

  function MergeProject(q: Project, p: ProjectPatch): (r: Project)
    ensures (p.id.Some? ==> r.id == p.id.value) && (p.id.None? ==> r.id == q.id)
    ensures (p.name.Some? ==> r.name == p.name.value) && (p.name.None? ==> r.name == q.name)
    ensures (p.description.Some? ==> r.description == p.description) && (p.description.None? ==> r.description == q.description)
    ensures (p.color.Some? ==> r.color == p.color.value) && (p.color.None? ==> r.color == q.color)
    ensures (p.createdBy.Some? ==> r.createdBy == p.createdBy.value) && (p.createdBy.None? ==> r.createdBy == q.createdBy)
    ensures (p.createdAt.Some? ==> r.createdAt == p.createdAt.value) && (p.createdAt.None? ==> r.createdAt == q.createdAt)
    ensures (p.startDate.Some? ==> r.startDate == p.startDate) && (p.startDate.None? ==> r.startDate == q.startDate)
    ensures (p.targetEndDate.Some? ==> r.targetEndDate == p.targetEndDate) && (p.targetEndDate.None? ==> r.targetEndDate == q.targetEndDate)
    ensures (p.status.Some? ==> r.status == p.status.value) && (p.status.None? ==> r.status == q.status)
  {
    Project(
      p.id.GetOr(q.id), p.name.GetOr(q.name), Over(q.description, p.description),
      p.color.GetOr(q.color), p.createdBy.GetOr(q.createdBy), p.createdAt.GetOr(q.createdAt),
      Over(q.startDate, p.startDate), Over(q.targetEndDate, p.targetEndDate), p.status.GetOr(q.status))
  }

  datatype SprintPatch = SprintPatch(
    id: Option<string>,
    projectId: Option<string>,
    name: Option<string>,
    startDate: Option<int>,
    endDate: Option<int>,
    goals: Option<seq<string>>,
    status: Option<SprintStatus>)

  const EmptySprintPatch := SprintPatch(None, None, None, None, None, None, None)

  function MergeSprint(s: Sprint, p: SprintPatch): (r: Sprint)
    ensures (p.id.Some? ==> r.id == p.id.value) && (p.id.None? ==> r.id == s.id)
    ensures (p.projectId.Some? ==> r.projectId == p.projectId.value) && (p.projectId.None? ==> r.projectId == s.projectId)
    ensures (p.name.Some? ==> r.name == p.name.value) && (p.name.None? ==> r.name == s.name)
    ensures (p.startDate.Some? ==> r.startDate == p.startDate.value) && (p.startDate.None? ==> r.startDate == s.startDate)
    ensures (p.endDate.Some? ==> r.endDate == p.endDate.value) && (p.endDate.None? ==> r.endDate == s.endDate)
    ensures (p.goals.Some? ==> r.goals == p.goals) && (p.goals.None? ==> r.goals == s.goals)
    ensures (p.status.Some? ==> r.status == p.status.value) && (p.status.None? ==> r.status == s.status)
  {
    Sprint(
      p.id.GetOr(s.id), p.projectId.GetOr(s.projectId), p.name.GetOr(s.name),
      p.startDate.GetOr(s.startDate), p.endDate.GetOr(s.endDate), Over(s.goals, p.goals),
      p.status.GetOr(s.status))
  }

  /** Merging an empty patch changes nothing, and merging the same patch
      twice is merging it once. */
  lemma MergeTodoLaws(t: Todo, p: TodoPatch)
    ensures MergeTodo(t, EmptyTodoPatch) == t
    ensures MergeTodo(MergeTodo(t, p), p) == MergeTodo(t, p)
  {
  }

  lemma MergeEventLaws(e: CalendarEvent, p: CalendarEventPatch)
    ensures MergeEvent(e, EmptyEventPatch) == e
    ensures MergeEvent(MergeEvent(e, p), p) == MergeEvent(e, p)
  {
  }

  lemma MergeDiaryLaws(d: DiaryEntry, p: DiaryEntryPatch)
    ensures MergeDiary(d, EmptyDiaryPatch) == d
    ensures MergeDiary(MergeDiary(d, p), p) == MergeDiary(d, p)
  {
  }

  lemma MergeProjectLaws(q: Project, p: ProjectPatch)
    ensures MergeProject(q, EmptyProjectPatch) == q
    ensures MergeProject(MergeProject(q, p), p) == MergeProject(q, p)
  {
  }

  lemma MergeSprintLaws(s: Sprint, p: SprintPatch)
    ensures MergeSprint(s, EmptySprintPatch) == s
    ensures MergeSprint(MergeSprint(s, p), p) == MergeSprint(s, p)
  {
  }
}
