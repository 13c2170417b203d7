/** The derived views of the business dashboard store
    (`frontend/src/lib/business/store.ts`): the filtered todo list, the
    status buckets, the upcoming and overdue lists, the date-range query and
    the burn chart. The clock is a parameter. */
module BusinessQueries {
  import opened Common
  import opened BusinessTypes
  import Seqs

  // ---- filteredTodos ----

  /** The seven filters, in the order they are applied. */
  const FilterCount := 7

  /** Whether filter `k` is set (a non-empty list, a non-empty string or a
      non-zero timestamp). */
  predicate FilterSet(f: TodoFilters, k: nat) {
    if k == 0 then NonEmptyList(f.status)
    else if k == 1 then NonEmptyList(f.priority)
    else if k == 2 then TruthyString(f.projectId)
    else if k == 3 then TruthyString(f.assignedTo)
    else if k == 4 then TruthyNumber(f.dueBefore)
    else if k == 5 then TruthyNumber(f.dueAfter)
    else if k == 6 then NonEmptyList(f.tags)
    else false
  }

  /** Whether a todo passes filter `k`, assuming it is set. A todo without a
      (truthy) due date fails both due-date filters; one without tags fails
      the tag filter. */
  predicate Passes(f: TodoFilters, k: nat, t: Todo) {
    if k == 0 then f.status.Some? && t.status in f.status.value
    else if k == 1 then f.priority.Some? && t.priority in f.priority.value
    else if k == 2 then t.projectId == f.projectId
    else if k == 3 then t.assignedTo == f.assignedTo
    else if k == 4 then TruthyNumber(t.dueDate) && f.dueBefore.Some? && t.dueDate.value <= f.dueBefore.value
    else if k == 5 then TruthyNumber(t.dueDate) && f.dueAfter.Some? && t.dueDate.value >= f.dueAfter.value
    else if k == 6 then
      f.tags.Some? && t.tags.Some? && exists j :: 0 <= j < |t.tags.value| && t.tags.value[j] in f.tags.value
    else true
  }

  function PassesP(f: TodoFilters, k: nat): Todo -> bool {
    (t: Todo) => Passes(f, k, t)
  }

  /** One `if (set) result = result.filter(...)` step. */
  function Stage(xs: seq<Todo>, f: TodoFilters, k: nat): seq<Todo> {
    if FilterSet(f, k) then Seqs.Filter(xs, PassesP(f, k)) else xs
  }

  /** The first `n` steps, applied in order. */
  function Stages(todos: seq<Todo>, f: TodoFilters, n: nat): seq<Todo>
    decreases n
  {
    if n == 0 then todos else Stage(Stages(todos, f, n - 1), f, n - 1)
  }

  /** A todo satisfies each of the first `n` filters that is set. */
  predicate MatchesFirst(f: TodoFilters, n: nat, t: Todo)
    decreases n
  {
    n == 0 || (MatchesFirst(f, n - 1, t) && (FilterSet(f, n - 1) ==> Passes(f, n - 1, t)))
  }

  function MatchesFirstP(f: TodoFilters, n: nat): Todo -> bool {
    (t: Todo) => MatchesFirst(f, n, t)
  }

  /** The conjunction the whole chain checks, written out filter by filter. */
  predicate MatchesFilters(f: TodoFilters, t: Todo) {
    && (NonEmptyList(f.status) ==> t.status in f.status.value)
    && (NonEmptyList(f.priority) ==> t.priority in f.priority.value)
    && (TruthyString(f.projectId) ==> t.projectId == f.projectId)
    && (TruthyString(f.assignedTo) ==> t.assignedTo == f.assignedTo)
    && (TruthyNumber(f.dueBefore) ==> TruthyNumber(t.dueDate) && t.dueDate.value <= f.dueBefore.value)
    && (TruthyNumber(f.dueAfter) ==> TruthyNumber(t.dueDate) && t.dueDate.value >= f.dueAfter.value)
    && (NonEmptyList(f.tags) ==>
          t.tags.Some? && exists j :: 0 <= j < |t.tags.value| && t.tags.value[j] in f.tags.value)
  }

  lemma MatchesAllIsMatchesFilters(f: TodoFilters, t: Todo)
    ensures MatchesFirst(f, FilterCount, t) == MatchesFilters(f, t)
  {
  }

  lemma MatchesFirstStep(f: TodoFilters, n: nat, t: Todo)
    requires n > 0
    ensures MatchesFirstP(f, n)(t) == (MatchesFirstP(f, n - 1)(t) && (FilterSet(f, n - 1) ==> PassesP(f, n - 1)(t)))
  {
  }

  /** The chain of the first `n` steps is one filter by the conjunction of
      the first `n` set filters. */
  lemma {:induction false} StagesAreOneFilter(todos: seq<Todo>, f: TodoFilters, n: nat)
    ensures Stages(todos, f, n) == Seqs.Filter(todos, MatchesFirstP(f, n))
    decreases n
  {
    if n == 0 {
      Seqs.FilterKeepsAll(todos, MatchesFirstP(f, 0));
    } else {
      StagesAreOneFilter(todos, f, n - 1);
      StageStep(todos, f, n);
    }
  }

  /** One more step of the chain adds one conjunct to the filter. */
  lemma StageStep(todos: seq<Todo>, f: TodoFilters, n: nat)
    requires n > 0
    requires Stages(todos, f, n - 1) == Seqs.Filter(todos, MatchesFirstP(f, n - 1))
    ensures Stages(todos, f, n) == Seqs.Filter(todos, MatchesFirstP(f, n))
  {
    forall i | 0 <= i < |todos|
      ensures MatchesFirstP(f, n)(todos[i]) == (MatchesFirstP(f, n - 1)(todos[i]) && (FilterSet(f, n - 1) ==> PassesP(f, n - 1)(todos[i])))
    {
      MatchesFirstStep(f, n, todos[i]);
    }
    Seqs.FilterWhen(todos, MatchesFirstP(f, n - 1), FilterSet(f, n - 1), PassesP(f, n - 1), MatchesFirstP(f, n));
  }

  /** `filteredTodos`: the todos satisfying every filter that is set, in
      their original order. */
  function FilteredTodos(todos: seq<Todo>, f: TodoFilters): (r: seq<Todo>)
    ensures Seqs.Subsequence(r, todos)
    ensures forall i :: 0 <= i < |r| ==> MatchesFilters(f, r[i])
    ensures forall i :: 0 <= i < |todos| && MatchesFilters(f, todos[i]) ==> todos[i] in r
    ensures forall i :: 0 <= i < |todos| ==>
      multiset(r)[todos[i]] == if MatchesFilters(f, todos[i]) then multiset(todos)[todos[i]] else 0
  {
    ChainIsConjunction(todos, f);
    Stages(todos, f, FilterCount)
  }

  /** The whole chain keeps exactly the todos matching the conjunction, in
      order and each as often as in the input. */
  lemma ChainIsConjunction(todos: seq<Todo>, f: TodoFilters)
    ensures Seqs.Subsequence(Stages(todos, f, FilterCount), todos)
    ensures forall i :: 0 <= i < |Stages(todos, f, FilterCount)| ==> MatchesFilters(f, Stages(todos, f, FilterCount)[i])
    ensures forall i :: 0 <= i < |todos| && MatchesFilters(f, todos[i]) ==> todos[i] in Stages(todos, f, FilterCount)
    ensures forall i :: 0 <= i < |todos| ==>
      multiset(Stages(todos, f, FilterCount))[todos[i]] == if MatchesFilters(f, todos[i]) then multiset(todos)[todos[i]] else 0
  {
    var p := MatchesFirstP(f, FilterCount);
    var r := Seqs.Filter(todos, p);
    StagesAreOneFilter(todos, f, FilterCount);
    Seqs.FilterIsSubsequence(todos, p);
    Seqs.FilterCounts(todos, p);
    forall i | 0 <= i < |r|
      ensures MatchesFilters(f, r[i])
    {
      MatchesAllIsMatchesFilters(f, r[i]);
    }
    forall i | 0 <= i < |todos|
      ensures MatchesFilters(f, todos[i]) ==> todos[i] in r
      ensures multiset(r)[todos[i]] == if MatchesFilters(f, todos[i]) then multiset(todos)[todos[i]] else 0
    {
      MatchesAllIsMatchesFilters(f, todos[i]);
    }
  }

  /** With no filter set, or only filters that are empty or zero, the
      list is the whole todo list. */
  lemma UnsetFiltersKeepAll(todos: seq<Todo>, f: TodoFilters)
    requires forall k :: 0 <= k < FilterCount ==> !FilterSet(f, k)
    ensures FilteredTodos(todos, f) == todos
  {
    StagesAreOneFilter(todos, f, FilterCount);
    forall i | 0 <= i < |todos|
      ensures MatchesFirstP(f, FilterCount)(todos[i])
    {
      MatchesAllIsMatchesFilters(f, todos[i]);
    }
    Seqs.FilterKeepsAll(todos, MatchesFirstP(f, FilterCount));
  }

  // ---- todosByStatus ----

  datatype Buckets = Buckets(todo: seq<Todo>, inProgress: seq<Todo>, done: seq<Todo>, blocked: seq<Todo>)

  function HasStatus(s: TodoStatus): Todo -> bool {
    (t: Todo) => t.status == s
  }

  /** One status bucket: the todos with that status, in list order. */
  function Bucket(todos: seq<Todo>, status: TodoStatus): (r: seq<Todo>)
    ensures forall i :: 0 <= i < |r| ==> r[i].status == status
    ensures Seqs.Subsequence(r, todos)
  {
    Seqs.FilterIsSubsequence(todos, HasStatus(status));
    Seqs.Filter(todos, HasStatus(status))
  }

  /** `todosByStatus`: one bucket per status, each in list order. */
  function TodosByStatus(todos: seq<Todo>): (r: Buckets)
    ensures forall i :: 0 <= i < |r.todo| ==> r.todo[i].status == TodoOpen
    ensures forall i :: 0 <= i < |r.inProgress| ==> r.inProgress[i].status == InProgress
    ensures forall i :: 0 <= i < |r.done| ==> r.done[i].status == Done
    ensures forall i :: 0 <= i < |r.blocked| ==> r.blocked[i].status == Blocked
    ensures multiset(r.todo) + multiset(r.inProgress) + multiset(r.done) + multiset(r.blocked) == multiset(todos)
    ensures Seqs.Subsequence(r.todo, todos) && Seqs.Subsequence(r.inProgress, todos)
    ensures Seqs.Subsequence(r.done, todos) && Seqs.Subsequence(r.blocked, todos)
  {
    Partition(todos);
    Buckets(Bucket(todos, TodoOpen), Bucket(todos, InProgress), Bucket(todos, Done), Bucket(todos, Blocked))
  }

  function HasEitherStatus(a: TodoStatus, b: TodoStatus): Todo -> bool {
    (t: Todo) => t.status == a || t.status == b
  }

  function AnyTodo(): Todo -> bool {
    (t: Todo) => true
  }

  /** The four status filters split the list: every todo lands in exactly
      one bucket, duplicates included. */
  lemma Partition(todos: seq<Todo>)
    ensures multiset(Seqs.Filter(todos, HasStatus(TodoOpen))) + multiset(Seqs.Filter(todos, HasStatus(InProgress)))
          + multiset(Seqs.Filter(todos, HasStatus(Done))) + multiset(Seqs.Filter(todos, HasStatus(Blocked)))
         == multiset(todos)
  {
    Seqs.Partition4(todos, HasStatus(TodoOpen), HasStatus(InProgress), HasStatus(Done), HasStatus(Blocked),
                    HasEitherStatus(TodoOpen, InProgress), HasEitherStatus(Done, Blocked), AnyTodo());
  }

  /** Bucket sizes add up to the number of todos. */
  lemma BucketSizes(todos: seq<Todo>)
    ensures var b := TodosByStatus(todos);
      |b.todo| + |b.inProgress| + |b.done| + |b.blocked| == |todos|
  {
    var b := TodosByStatus(todos);
    assert |multiset(b.todo) + multiset(b.inProgress) + multiset(b.done) + multiset(b.blocked)| == |multiset(todos)|;
  }

  // ---- upcomingEvents, overdueTodos, getEventsForDateRange ----

  const DayMs := 24 * 60 * 60 * 1000
  const WeekMs := 7 * DayMs

  function StartKey(e: CalendarEvent): int {
    e.startDate
  }

  /** `upcomingEvents`: the events starting within a week from now, in order
      of start. The selected date takes no part. */
  function UpcomingEvents(events: seq<CalendarEvent>, now: int): (r: seq<CalendarEvent>)
    ensures Seqs.SortedBy(r, StartKey)
    ensures forall i :: 0 <= i < |r| ==> r[i] in events && now <= r[i].startDate <= now + 604800000
    ensures forall i :: 0 <= i < |events| && now <= events[i].startDate <= now + 604800000 ==> events[i] in r
    ensures multiset(r) <= multiset(events)
  {
    Seqs.SortFiltered(events, WithinWeekOf(now), StartKey);
    Seqs.SortBy(Seqs.Filter(events, WithinWeekOf(now)), StartKey)
  }

  function WithinWeekOf(now: int): CalendarEvent -> bool {
    (e: CalendarEvent) => now <= e.startDate <= now + WeekMs
  }

  /** `overdueTodos`: the unfinished todos with a (truthy) due date already
      past. */
  function OverdueTodos(todos: seq<Todo>, now: int): (r: seq<Todo>)
    ensures Seqs.Subsequence(r, todos)
    ensures forall i :: 0 <= i < |r| ==> TruthyNumber(r[i].dueDate) && r[i].dueDate.value < now && r[i].status != Done
    ensures forall i :: 0 <= i < |todos| ==>
      (TruthyNumber(todos[i].dueDate) && todos[i].dueDate.value < now && todos[i].status != Done) ==> todos[i] in r
    ensures forall i :: 0 <= i < |todos| ==>
      multiset(r)[todos[i]] ==
        if TruthyNumber(todos[i].dueDate) && todos[i].dueDate.value < now && todos[i].status != Done
        then multiset(todos)[todos[i]] else 0
  {
    var p := (t: Todo) => TruthyNumber(t.dueDate) && t.dueDate.value < now && t.status != Done;
    Seqs.FilterIsSubsequence(todos, p);
    Seqs.FilterCounts(todos, p);
    Seqs.Filter(todos, p)
  }

  /** An event overlaps `[start, end]` when it starts inside it, or when it
      has a (truthy) end date not before `start` and starts no later than
      `end`. */
  predicate InRange(e: CalendarEvent, start: int, end: int) {
    (start <= e.startDate <= end) || (TruthyNumber(e.endDate) && e.endDate.value >= start && e.startDate <= end)
  }

  /** `getEventsForDateRange`: the events overlapping the range, in order. */
  function GetEventsForDateRange(events: seq<CalendarEvent>, start: int, end: int): (r: seq<CalendarEvent>)
    ensures Seqs.Subsequence(r, events)
    ensures forall i :: 0 <= i < |r| ==> InRange(r[i], start, end)
    ensures forall i :: 0 <= i < |events| && InRange(events[i], start, end) ==> events[i] in r
    ensures forall i :: 0 <= i < |events| ==>
      multiset(r)[events[i]] == if InRange(events[i], start, end) then multiset(events)[events[i]] else 0
  {
    var p := (e: CalendarEvent) => InRange(e, start, end);
    Seqs.FilterIsSubsequence(events, p);
    Seqs.FilterCounts(events, p);
    Seqs.Filter(events, p)
  }

  /** An event that began before the range and is still running in it is
      reported; one that starts after the range never is. */
  lemma RangeOverlap(e: CalendarEvent, start: int, end: int)
    ensures e.startDate < start && e.endDate.Some? && e.endDate.value >= start && start > 0 && start <= end
      ==> InRange(e, start, end)
    ensures e.startDate > end ==> !InRange(e, start, end)
  {
  }

  // ---- generateBurnChartData ----

  /** Completed by `date`: a (truthy) completion time no later than it. */
  function DoneBy(date: int): Todo -> bool {
    (t: Todo) => TruthyNumber(t.completedAt) && t.completedAt.value <= date
  }

  function InProject(projectId: string): Todo -> bool {
    (t: Todo) => t.projectId == Some(projectId)
  }

  /** In the project and completed by `date`. */
  function DoneInProjectBy(projectId: string, date: int): Todo -> bool {
    (t: Todo) => t.projectId == Some(projectId) && TruthyNumber(t.completedAt) && t.completedAt.value <= date
  }

  /** The point the chart holds for one day: the project's todos, and those
      of them completed by that day. */
  function BurnPoint(todos: seq<Todo>, projectId: string, date: int): (p: BurnChartDataPoint)
    ensures p.date == date && p.totalPoints == Seqs.Count(todos, InProject(projectId))
    ensures 0 <= p.completedPoints <= p.totalPoints
    ensures p.remainingPoints == p.totalPoints - p.completedPoints
  {
    var total := Seqs.Count(todos, InProject(projectId));
    var done := Seqs.Count(todos, DoneInProjectBy(projectId, date));
    Seqs.CountMonotone(todos, DoneInProjectBy(projectId, date), InProject(projectId));
    BurnChartDataPoint(date, total, done, total - done)
  }

  /** The point agrees with `generateBurnChartData`'s formulation: the length of the
      project's todos, and of those filtered again by completion date. */
  lemma BurnPointOverProjectTodos(todos: seq<Todo>, projectId: string, date: int)
    ensures var projectTodos := Seqs.Filter(todos, InProject(projectId));
      && BurnPoint(todos, projectId, date).totalPoints == |projectTodos|
      && BurnPoint(todos, projectId, date).completedPoints == |Seqs.Filter(projectTodos, DoneBy(date))|
  {
    var projectTodos := Seqs.Filter(todos, InProject(projectId));
    Seqs.CountIsFilterLength(todos, InProject(projectId));
    Seqs.CountIsFilterLength(projectTodos, DoneBy(date));
    Seqs.CountOfFilter(todos, InProject(projectId), DoneBy(date), DoneInProjectBy(projectId, date));
  }

  /** Later days never show fewer completed todos. */
  lemma BurnDownMonotone(todos: seq<Todo>, projectId: string, d1: int, d2: int)
    requires d1 <= d2
    ensures BurnPoint(todos, projectId, d1).completedPoints <= BurnPoint(todos, projectId, d2).completedPoints
  {
    Seqs.CountMonotone(todos, DoneInProjectBy(projectId, d1), DoneInProjectBy(projectId, d2));
  }

  /** How many days the loop visits. */
  function DayCount(startDate: int, endDate: int): (n: nat)
    ensures n > 0 <==> startDate <= endDate
    ensures n > 0 ==> startDate + (n - 1) * DayMs <= endDate < startDate + n * DayMs
  {
    if startDate <= endDate then (endDate - startDate) / DayMs + 1 else 0
  }

  /** Only one count of days steps past `endDate` exactly at its last step. */
  lemma DayCountUnique(startDate: int, endDate: int, m: nat)
    requires startDate + m * DayMs > endDate
    requires m == 0 || startDate + (m - 1) * DayMs <= endDate
    ensures m == DayCount(startDate, endDate)
  {
    var n := DayCount(startDate, endDate);
    if m > 0 && n > 0 {
      assert (m - 1) * DayMs < n * DayMs;
      assert (n - 1) * DayMs < m * DayMs;
    }
  }

  lemma LaterDay(startDate: int, j: nat, k: nat)
    requires j <= k
    ensures startDate + j * DayMs <= startDate + k * DayMs
  {
    assert (k - j) * DayMs >= 0;
  }

  /** A chart with one point per visited day stays within the range and its
      completed count never decreases. */
  lemma BurnChartShape(data: seq<BurnChartDataPoint>, todos: seq<Todo>, projectId: string, startDate: int, endDate: int)
    requires |data| == DayCount(startDate, endDate)
    requires forall k :: 0 <= k < |data| ==> data[k] == BurnPoint(todos, projectId, startDate + k * DayMs)
    ensures forall k :: 0 <= k < |data| ==> data[k].date <= endDate
    ensures forall j, k :: 0 <= j < k < |data| ==> data[j].completedPoints <= data[k].completedPoints
  {
    forall j, k | 0 <= j <= k < |data|
      ensures data[j].completedPoints <= data[k].completedPoints && data[k].date <= endDate
    {
      LaterDay(startDate, j, k);
      LaterDay(startDate, k, |data| - 1);
      BurnDownMonotone(todos, projectId, startDate + j * DayMs, startDate + k * DayMs);
    }
  }

  /** `generateBurnChartData`: one point per day from `startDate` while not
      past `endDate`, over the todos of the project (one point each). */
  method GenerateBurnChartData(todos: seq<Todo>, projectId: string, startDate: int, endDate: int)
    returns (data: seq<BurnChartDataPoint>)
    ensures |data| == DayCount(startDate, endDate)
    ensures forall k :: 0 <= k < |data| ==> data[k] == BurnPoint(todos, projectId, startDate + k * DayMs)
    ensures forall k :: 0 <= k < |data| ==> data[k].date <= endDate
    ensures forall k :: 0 <= k < |data| ==>
      0 <= data[k].completedPoints <= data[k].totalPoints == Seqs.Count(todos, InProject(projectId))
      && data[k].remainingPoints == data[k].totalPoints - data[k].completedPoints
    ensures forall j, k :: 0 <= j < k < |data| ==> data[j].completedPoints <= data[k].completedPoints
  {
    data := [];
    var date := startDate;
    while date <= endDate
      invariant date == startDate + |data| * DayMs
      invariant |data| == 0 || startDate + (|data| - 1) * DayMs <= endDate
      invariant forall k :: 0 <= k < |data| ==> data[k] == BurnPoint(todos, projectId, startDate + k * DayMs)
      decreases endDate - date
    {
      data := data + [BurnPoint(todos, projectId, date)];
      date := date + DayMs;
    }
    DayCountUnique(startDate, endDate, |data|);
    BurnChartShape(data, todos, projectId, startDate, endDate);
  }
}
