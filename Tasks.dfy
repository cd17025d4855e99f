/** The task store (src/store/useTaskStore.ts) and the task record
    (src/lib/types.ts). Each backend call is an `outcome` parameter; the
    store's local list changes only after the call succeeded, and it is
    always kept ordered by priority rank, then newest first. */
module Tasks {
  import opened Common
  import opened Sorting

  datatype Priority = Critical | High | Medium | Low

  datatype Status = Todo | InProgress | Completed

  /** A task. Dates are millisecond timestamps; `subtasks` is never filled by
      the store and is not modelled. */
  datatype Task = Task(
    id: string,
    title: string,
    description: Option<string>,
    priority: Priority,
    status: Status,
    projectId: Option<string>,
    dueDate: Option<int>,
    createdAt: Option<int>,
    updatedAt: Option<int>,
    isVisible: Option<bool>,
    tags: Option<seq<string>>)

  /** A row of the `tasks` table as the backend returns it. */
  datatype TaskRow = TaskRow(
    id: string,
    title: string,
    description: Option<string>,
    status: Status,
    priority: Priority,
    project_id: Option<string>,
    due_date: Option<int>,
    created_at: int,
    updated_at: int,
    is_visible: Option<bool>,
    tags: Option<seq<string>>)

  /** What `addTask` is given: a task without id, timestamps and visibility. */
  datatype TaskDraft = TaskDraft(
    title: string,
    description: Option<string>,
    priority: Priority,
    status: Status,
    projectId: Option<string>,
    dueDate: Option<int>,
    tags: Option<seq<string>>)

  /** A `Partial<Task>`: `None` is a key the patch does not have. */
  datatype TaskPatch = TaskPatch(
    id: Option<string>,
    title: Option<string>,
    description: Option<string>,
    priority: Option<Priority>,
    status: Option<Status>,
    projectId: Option<string>,
    dueDate: Option<int>,
    createdAt: Option<int>,
    updatedAt: Option<int>,
    isVisible: Option<bool>,
    tags: Option<seq<string>>)

  function StatusText(s: Status): string {
    match s
    case Todo => "todo"
    case InProgress => "in-progress"
    case Completed => "completed"
  }

  function PriorityText(p: Priority): string {
    match p
    case Critical => "critical"
    case High => "high"
    case Medium => "medium"
    case Low => "low"
  }

  /** The status a column id names, if any. */
  function StatusOf(text: string): (r: Option<Status>)
    ensures r.Some? <==> text in {"todo", "in-progress", "completed"}
    ensures r.Some? ==> StatusText(r.value) == text
  {
    if text == "todo" then Some(Todo)
    else if text == "in-progress" then Some(InProgress)
    else if text == "completed" then Some(Completed)
    else None
  }

  /** `PRIORITY_ORDER`. */
  function PriorityRank(p: Priority): (r: nat)
    ensures r < 4
    ensures (p == Critical <==> r == 0) && (p == High <==> r == 1)
    ensures (p == Medium <==> r == 2) && (p == Low <==> r == 3)
  {
    match p
    case Critical => 0
    case High => 1
    case Medium => 2
    case Low => 3
  }

  function TaskId(t: Task): string { t.id }

  function TaskRank(t: Task): int { PriorityRank(t.priority) }

  /** `new Date(t.createdAt || 0).getTime()`. */
  function TaskCreated(t: Task): int { t.createdAt.GetOr(0) }

  predicate TasksOrdered(ts: seq<Task>) {
    Ordered(ts, TaskRank, TaskCreated)
  }

  /** `sortTasks`: a new list, ordered, holding the same tasks. */
  function SortTasks(ts: seq<Task>): (r: seq<Task>)
    ensures TasksOrdered(r)
    ensures multiset(r) == multiset(ts) && |r| == |ts|
  {
    SortByOrdered(ts, TaskRank, TaskCreated);
    SortBy(ts, TaskRank, TaskCreated)
  }

  /** In an ordered list priorities never go back up the rank, and within
      one priority creation times never increase. */
  lemma OrderedByRankThenNewest(ts: seq<Task>, i: int, j: int)
    requires TasksOrdered(ts) && 0 <= i < j < |ts|
    ensures PriorityRank(ts[i].priority) <= PriorityRank(ts[j].priority)
    ensures ts[i].priority == ts[j].priority ==> TaskCreated(ts[i]) >= TaskCreated(ts[j])
  {
    assert !Precedes(TaskRank, TaskCreated, ts[j], ts[i]);
  }

  /** Tasks with the same priority and creation time keep their order. */
  lemma SortTasksStable(ts: seq<Task>, p: Priority, created: int)
    ensures SameKey(SortTasks(ts), TaskRank, TaskCreated, PriorityRank(p), created)
         == SameKey(ts, TaskRank, TaskCreated, PriorityRank(p), created)
  {
    SortByStable(ts, TaskRank, TaskCreated, PriorityRank(p), created);
  }

  /** Re-sorting the store's list changes nothing. */
  lemma SortTasksOrderedIdentity(ts: seq<Task>)
    requires TasksOrdered(ts)
    ensures SortTasks(ts) == ts
  {
    SortByOrderedIdentity(ts, TaskRank, TaskCreated);
  }

  /** A new critical task lands ahead of every task that is not critical,
      whatever the order the list was built in. */
  lemma AddedCriticalLeads(newTask: Task, ts: seq<Task>)
    requires newTask.priority == Critical
    ensures var r := SortTasks([newTask] + ts);
            newTask in r &&
            forall i, j :: 0 <= i < |r| && 0 <= j < |r| && r[i] == newTask && r[j].priority != Critical ==> i < j
  {
    var r := SortTasks([newTask] + ts);
    assert newTask in multiset([newTask] + ts);
    assert newTask in multiset(r);
    forall i, j | 0 <= i < |r| && 0 <= j < |r| && r[i] == newTask && r[j].priority != Critical
      ensures i < j
    {
      if j < i {
        OrderedByRankThenNewest(r, j, i);
      }
    }
  }

  /** A fetched row as the store holds it: timestamps become dates, a
      missing visibility means visible, missing tags mean none. */
  function FromRow(row: TaskRow): (t: Task)
    ensures t.id == row.id && t.title == row.title && t.status == row.status && t.priority == row.priority
    ensures t.createdAt == Some(row.created_at) && t.updatedAt == Some(row.updated_at)
    ensures t.isVisible == Some(if row.is_visible.Some? then row.is_visible.value else true)
    ensures t.tags == Some(if row.tags.Some? then row.tags.value else [])
  {
    Task(row.id, row.title, row.description, row.priority, row.status, row.project_id,
         row.due_date, Some(row.created_at), Some(row.updated_at),
         Some(row.is_visible.GetOr(true)), Some(row.tags.GetOr([])))
  }

  function FromRows(rows: seq<TaskRow>): (r: seq<Task>)
    ensures |r| == |rows| && forall i :: 0 <= i < |rows| ==> r[i] == FromRow(rows[i])
  {
    if rows == [] then [] else [FromRow(rows[0])] + FromRows(rows[1..])
  }

  /** `{ ...t, ...updates }`. */
  function Merge(t: Task, u: TaskPatch): Task {
    Task(
      u.id.GetOr(t.id),
      u.title.GetOr(t.title),
      if u.description.Some? then u.description else t.description,
      u.priority.GetOr(t.priority),
      u.status.GetOr(t.status),
      if u.projectId.Some? then u.projectId else t.projectId,
      if u.dueDate.Some? then u.dueDate else t.dueDate,
      if u.createdAt.Some? then u.createdAt else t.createdAt,
      if u.updatedAt.Some? then u.updatedAt else t.updatedAt,
      if u.isVisible.Some? then u.isVisible else t.isVisible,
      if u.tags.Some? then u.tags else t.tags)
  }

  /** `tasks.map(t => t.id === id ? { ...t, ...updates } : t)`. */
  function PatchMatching(ts: seq<Task>, id: string, u: TaskPatch): (r: seq<Task>)
    ensures |r| == |ts|
    ensures forall i :: 0 <= i < |ts| ==> r[i] == if ts[i].id == id then Merge(ts[i], u) else ts[i]
  {
    MapMatching(ts, TaskId, id, t => Merge(t, u))
  }

  /** The patch's keys under their own names (`{ ...updates }`). */
  function PatchFields(u: TaskPatch): map<string, Json> {
    var m0: map<string, Json> := map[];
    var m1 := if u.id.Some? then m0["id" := JStr(u.id.value)] else m0;
    var m2 := if u.title.Some? then m1["title" := JStr(u.title.value)] else m1;
    var m3 := if u.description.Some? then m2["description" := JStr(u.description.value)] else m2;
    var m4 := if u.priority.Some? then m3["priority" := JStr(PriorityText(u.priority.value))] else m3;
    var m5 := if u.status.Some? then m4["status" := JStr(StatusText(u.status.value))] else m4;
    var m6 := if u.projectId.Some? then m5["projectId" := JStr(u.projectId.value)] else m5;
    var m7 := if u.dueDate.Some? then m6["dueDate" := JIsoDate(u.dueDate.value)] else m6;
    var m8 := if u.createdAt.Some? then m7["createdAt" := JIsoDate(u.createdAt.value)] else m7;
    var m9 := if u.updatedAt.Some? then m8["updatedAt" := JIsoDate(u.updatedAt.value)] else m8;
    var m10 := if u.isVisible.Some? then m9["isVisible" := JBool(u.isVisible.value)] else m9;
    if u.tags.Some? then m10["tags" := JStrs(u.tags.value)] else m10
  }

  /** The body `updateTask` sends: three keys renamed to their column names. */
  function UpdatePayload(u: TaskPatch): map<string, Json> {
    var p0 := PatchFields(u);
    var p1 := if Truthy(u.projectId) then (p0 - {"projectId"})["project_id" := JStr(u.projectId.value)] else p0;
    var p2 := if u.dueDate.Some? then (p1 - {"dueDate"})["due_date" := JIsoDate(u.dueDate.value)] else p1;
    if u.isVisible.Some? then (p2 - {"isVisible"})["is_visible" := JBool(u.isVisible.value)] else p2
  }

  /** A non-empty `projectId` is sent as `project_id`; an empty one passes
      through under its own name. */
  lemma UpdatePayloadProject(u: TaskPatch)
    ensures "project_id" in UpdatePayload(u) <==> Truthy(u.projectId)
    ensures Truthy(u.projectId) ==> UpdatePayload(u)["project_id"] == JStr(u.projectId.value)
    ensures "projectId" in UpdatePayload(u) <==> u.projectId == Some("")
  {
  }

  /** A present `dueDate` is sent as `due_date`, a present `isVisible` as
      `is_visible`; neither is sent under its own name. */
  lemma UpdatePayloadDates(u: TaskPatch)
    ensures "due_date" in UpdatePayload(u) <==> u.dueDate.Some?
    ensures u.dueDate.Some? ==> UpdatePayload(u)["due_date"] == JIsoDate(u.dueDate.value)
    ensures "is_visible" in UpdatePayload(u) <==> u.isVisible.Some?
    ensures u.isVisible.Some? ==> UpdatePayload(u)["is_visible"] == JBool(u.isVisible.value)
    ensures "dueDate" !in UpdatePayload(u) && "isVisible" !in UpdatePayload(u)
  {
    DueDateSent(u);
    VisibleSent(u);
  }

  lemma DueDateSent(u: TaskPatch)
    ensures "due_date" in UpdatePayload(u) <==> u.dueDate.Some?
    ensures u.dueDate.Some? ==> UpdatePayload(u)["due_date"] == JIsoDate(u.dueDate.value)
    ensures "dueDate" !in UpdatePayload(u)
  {
  }

  lemma VisibleSent(u: TaskPatch)
    ensures "is_visible" in UpdatePayload(u) <==> u.isVisible.Some?
    ensures u.isVisible.Some? ==> UpdatePayload(u)["is_visible"] == JBool(u.isVisible.value)
    ensures "isVisible" !in UpdatePayload(u)
  {
  }

  /** Every other key of the patch is sent as it is. */
  lemma UpdatePayloadPassThrough(u: TaskPatch, k: string)
    requires k !in {"projectId", "dueDate", "isVisible", "project_id", "due_date", "is_visible"}
    ensures k in UpdatePayload(u) <==> k in PatchFields(u)
    ensures k in UpdatePayload(u) ==> UpdatePayload(u)[k] == PatchFields(u)[k]
  {
  }

  /** The patch's own keys are exactly its present fields. */
  lemma PatchFieldsKeys(u: TaskPatch)
    ensures "title" in PatchFields(u) <==> u.title.Some?
    ensures "status" in PatchFields(u) <==> u.status.Some?
    ensures u.status.Some? ==> PatchFields(u)["status"] == JStr(StatusText(u.status.value))
    ensures "project_id" !in PatchFields(u) && "due_date" !in PatchFields(u) && "is_visible" !in PatchFields(u)
  {
    PatchFieldsStatus(u);
    PatchFieldsNoColumns(u);
  }

  lemma PatchFieldsStatus(u: TaskPatch)
    ensures "status" in PatchFields(u) <==> u.status.Some?
    ensures u.status.Some? ==> PatchFields(u)["status"] == JStr(StatusText(u.status.value))
  {
  }

  lemma PatchFieldsNoColumns(u: TaskPatch)
    ensures "project_id" !in PatchFields(u) && "due_date" !in PatchFields(u) && "is_visible" !in PatchFields(u)
  {
  }

  /** The row `addTask` inserts; absent optional values are left out. */
  function InsertPayload(d: TaskDraft): (p: map<string, Json>)
    ensures "is_visible" in p && p["is_visible"] == JBool(true)
    ensures "project_id" in p <==> d.projectId.Some?
    ensures "due_date" in p <==> d.dueDate.Some?
  {
    map["title" := JStr(d.title), "status" := JStr(StatusText(d.status)),
        "priority" := JStr(PriorityText(d.priority)), "is_visible" := JBool(true)]
    + (if d.description.Some? then map["description" := JStr(d.description.value)] else map[])
    + (if d.projectId.Some? then map["project_id" := JStr(d.projectId.value)] else map[])
    + (if d.dueDate.Some? then map["due_date" := JIsoDate(d.dueDate.value)] else map[])
    + (if d.tags.Some? then map["tags" := JStrs(d.tags.value)] else map[])
  }

  /** The patch `completeTaskWithDelay` applies once its delay is over. */
  const CompletePatch: TaskPatch :=
    TaskPatch(None, None, None, None, Some(Completed), None, None, None, None, Some(false), None)

  class TaskStore {
    var tasks: seq<Task>
    var isLoading: bool
    var error: Option<string>
    var bloomTaskId: Option<string>

    /** The list is always in `sortTasks` order. */
    ghost predicate Valid()
      reads this
    {
      TasksOrdered(tasks)
    }

    constructor ()
      ensures Valid()
      ensures tasks == [] && !isLoading && error == None && bloomTaskId == None
    {
      tasks := [];
      isLoading := false;
      error := None;
      bloomTaskId := None;
    }

    /** Replaces the list with the fetched rows, sorted. The optional project
        filter is applied by the backend, so it is part of `outcome`. */
    method FetchTasks(projectId: Option<string>, outcome: Remote<seq<TaskRow>>)
      requires Valid()
      modifies this
      ensures Valid() && !isLoading && bloomTaskId == old(bloomTaskId)
      ensures outcome.Ok? ==> tasks == SortTasks(FromRows(outcome.value)) && error == None
      ensures outcome.Err? ==> tasks == old(tasks) && error == Some(outcome.message)
    {
      isLoading, error := true, None;
      match outcome
      case Ok(rows) =>
        tasks := SortTasks(FromRows(rows));
        isLoading := false;
      case Err(message) =>
        error, isLoading := Some(message), false;
    }

    /** Inserts the draft; the returned row is added and the list re-sorted.
        The error of an earlier call is not cleared. */
    method AddTask(draft: TaskDraft, outcome: Remote<TaskRow>) returns (sent: map<string, Json>)
      requires Valid()
      modifies this
      ensures Valid() && !isLoading && bloomTaskId == old(bloomTaskId)
      ensures sent == InsertPayload(draft)
      ensures outcome.Ok? ==> tasks == SortTasks([FromRow(outcome.value)] + old(tasks)) && error == old(error)
      ensures outcome.Err? ==> tasks == old(tasks) && error == Some(outcome.message)
    {
      isLoading := true;
      sent := InsertPayload(draft);
      match outcome
      case Ok(row) =>
        var newTask := FromRow(row);
        tasks := SortTasks([newTask] + tasks);
        isLoading := false;
      case Err(message) =>
        error, isLoading := Some(message), false;
    }

    /** Sends the patch; only after success are the matching tasks merged
        with it and the list re-sorted. */
    method UpdateTask(id: string, updates: TaskPatch, outcome: Outcome) returns (sent: map<string, Json>)
      requires Valid()
      modifies this
      ensures Valid() && isLoading == old(isLoading) && bloomTaskId == old(bloomTaskId)
      ensures sent == UpdatePayload(updates)
      ensures outcome.Pass? ==> tasks == SortTasks(PatchMatching(old(tasks), id, updates)) && error == old(error)
      ensures outcome.Fail? ==> tasks == old(tasks) && error == Some(outcome.message)
    {
      sent := UpdatePayload(updates);
      match outcome
      case Pass =>
        tasks := SortTasks(PatchMatching(tasks, id, updates));
      case Fail(message) =>
        error := Some(message);
    }

    /** Deletes remotely, then drops every task with that id. */
    method DeleteTask(id: string, outcome: Outcome)
      requires Valid()
      modifies this
      ensures Valid() && isLoading == old(isLoading) && bloomTaskId == old(bloomTaskId)
      ensures outcome.Pass? ==> tasks == FilterOut(old(tasks), TaskId, id) && error == old(error)
      ensures outcome.Pass? && (forall t :: t in old(tasks) ==> t.id != id) ==> tasks == old(tasks)
      ensures outcome.Fail? ==> tasks == old(tasks) && error == Some(outcome.message)
    {
      match outcome
      case Pass =>
        FilterOutOrdered(tasks, TaskId, id, TaskRank, TaskCreated);
        tasks := FilterOut(tasks, TaskId, id);
      case Fail(message) =>
        error := Some(message);
    }

    /** First step of `completeTaskWithDelay`: the task starts its animation. */
    method BeginCompleteWithDelay(id: string)
      requires Valid()
      modifies this
      ensures Valid() && bloomTaskId == Some(id)
      ensures tasks == old(tasks) && isLoading == old(isLoading) && error == old(error)
    {
      bloomTaskId := Some(id);
    }

    /** Second step, once the delay is over: the task is completed and hidden
        through `updateTask`, and the animation ends whatever the outcome. */
    method FinishCompleteWithDelay(id: string, outcome: Outcome)
      requires Valid()
      modifies this
      ensures Valid() && bloomTaskId == None && isLoading == old(isLoading)
      ensures outcome.Pass? ==> tasks == SortTasks(PatchMatching(old(tasks), id, CompletePatch)) && error == old(error)
      ensures outcome.Fail? ==> tasks == old(tasks) && error == Some(outcome.message)
    {
      var _ := UpdateTask(id, CompletePatch, outcome);
      bloomTaskId := None;
    }
  }

  /** A critical task added to a store already holding other tasks is listed
      before all of them that are not critical. */
  method AddCriticalScenario(others: seq<TaskRow>, row: TaskRow) returns (ok: bool)
    requires row.priority == Critical
    ensures ok
  {
    var store := new TaskStore();
    store.FetchTasks(None, Ok(others));
    var draft := TaskDraft(row.title, row.description, row.priority, row.status, row.project_id, row.due_date, row.tags);
    var _ := store.AddTask(draft, Ok(row));
    AddedCriticalLeads(FromRow(row), SortTasks(FromRows(others)));
    var r := store.tasks;
    ok := FromRow(row) in r &&
          forall i, j :: 0 <= i < |r| && 0 <= j < |r| && r[i] == FromRow(row) && r[j].priority != Critical ==> i < j;
  }
}
