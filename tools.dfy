// The five task tools of `MCPTool` (backend/src/mcp_server/server.py): each
// resolves its ids, asks the task store for one thing and shapes the store's
// answer into a result record. Every exception inside a tool becomes a failed
// record with that tool's fixed message.

module Tools {
  import opened Optional
  import opened PyText

  /** A keyword argument as it reaches a tool: a JSON scalar; `Null` is Python's `None`. */
  datatype Value = Null | Bool(b: bool) | Int(i: int) | Str(s: string)

  /** Python truthiness, as in `if not user_id`. */
  predicate Truthy(v: Value) {
    match v
    case Null => false
    case Bool(b) => b
    case Int(i) => i != 0
    case Str(s) => s != ""
  }

  /** Python's `str(v)`, as an f-string renders it. */
  function PyStr(v: Value): string {
    match v
    case Null => "None"
    case Bool(b) => if b then "True" else "False"
    case Int(i) => IntText(i)
    case Str(s) => s
  }

  /** A UUID, known by its canonical text (`str(uuid)`). */
  datatype Uuid = Uuid(text: string)

  /** The answer of one store operation: a value, or an exception it raised. */
  datatype Reply<T> = Returned(value: T) | Raised

  /** A task row as the store hands it back; timestamps are their `isoformat()` text. */
  datatype StoredTask = StoredTask(
    taskId: Uuid, title: string, description: string, status: string,
    priority: string, createdAt: string, updatedAt: string)

  /** The task store. Its internals are not part of this model: each operation
      is an oracle that returns a value, returns nothing (`None`, `False`) or raises. */
  datatype TaskService = TaskService(
    createTask: (Uuid, map<string, Value>) -> Reply<StoredTask>,
    getUserTasks: (Uuid, Value) -> Reply<seq<StoredTask>>,
    updateTaskStatus: (Uuid, Uuid, string) -> Reply<Option<StoredTask>>,
    updateTask: (Uuid, Uuid, map<string, Value>) -> Reply<Option<StoredTask>>,
    deleteTask: (Uuid, Uuid) -> Reply<bool>)

  /** What a tool call depends on besides its arguments: whether the database
      session opens and closes without raising, the id resolution
      (`uuid.UUID(s)`, falling back to `uuid.uuid5(NAMESPACE_DNS, s)`), and the store. */
  datatype Backend = Backend(
    sessionOpens: bool, sessionCloses: bool, resolve: string -> Uuid, service: TaskService)

  /** One request a tool made of the store. */
  datatype StoreCall =
    | StoreCreate(user: Uuid, data: map<string, Value>)
    | StoreGetTasks(user: Uuid, statusFilter: Value)
    | StoreSetStatus(user: Uuid, task: Uuid, status: string)
    | StoreUpdate(user: Uuid, task: Uuid, data: map<string, Value>)
    | StoreDelete(user: Uuid, task: Uuid)

  /** The timestamp a task record carries: `created_at` (add, list) or `updated_at` (complete, update). */
  datatype Stamp = CreatedAt(created: string) | UpdatedAt(updated: string)

  /** The `task` dictionary of a tool result. */
  datatype TaskRecord = TaskRecord(
    id: string, title: string, description: string, completed: bool, priority: string, stamp: Stamp)

  /** The dictionary a tool returns; `Failed` is every `"success": False` shape. */
  datatype ToolResult =
    | Added(taskId: string, message: string, task: TaskRecord)
    | Listed(count: nat, tasks: seq<TaskRecord>)
    | Changed(message: string, task: TaskRecord)
    | Removed(message: string)
    | Failed(message: string)
  {
    predicate Success() { !Failed? }

    /** `result['message']`; a listing has none and is never asked for one. */
    function Message(): string { if Listed? then "" else message }
  }

  /** A tool's result together with the store requests it made, in order. */
  datatype ToolRun = ToolRun(calls: seq<StoreCall>, result: ToolResult)

  /** `uuid.UUID(v)` with the `uuid5` fallback on `ValueError`; `None` when `v` is
      not a string, where `uuid.UUID` raises an exception the fallback does not catch. */
  function ResolveId(b: Backend, v: Value): Option<Uuid> {
    if v.Str? then Some(b.resolve(v.s)) else None
  }

  /** A record that shows the stored task faithfully, completed exactly when its status is "completed". */
  predicate Mirrors(r: TaskRecord, t: StoredTask) {
    && r.id == t.taskId.text && r.title == t.title && r.description == t.description
    && r.priority == t.priority && (r.completed <==> t.status == "completed")
  }

  function Record(t: StoredTask, stamp: Stamp): (r: TaskRecord)
    ensures Mirrors(r, t) && r.stamp == stamp
  {
    TaskRecord(t.taskId.text, t.title, t.description, t.status == "completed", t.priority, stamp)
  }

  // ---- add_task -------------------------------------------------------------

  function AddTask(b: Backend, userId: Value, title: Value, description: Value, priority: Value): ToolRun {
    match ResolveId(b, userId)
    case None => ToolRun([], Failed("Failed to add task"))
    case Some(user) =>
      var data := map["title" := title, "description" := description, "priority" := priority];
      var call := StoreCreate(user, data);
      match b.service.createTask(user, data)
      case Raised => ToolRun([call], Failed("Failed to add task"))
      case Returned(t) =>
        ToolRun([call], Added(t.taskId.text, "Task '" + PyStr(title) + "' added successfully",
                              Record(t, CreatedAt(t.createdAt))))
  }

  /** add_task hands the store exactly the title, description and priority it was
      given; on success it reports the title it was given (not the stored one)
      and a record of the created task, stamped with its creation time. */
  lemma AddTaskShape(b: Backend, userId: string, title: Value, description: Value, priority: Value)
    ensures var run := AddTask(b, Str(userId), title, description, priority);
            var data := map["title" := title, "description" := description, "priority" := priority];
            && run.calls == [StoreCreate(b.resolve(userId), data)]
            && (run.result.Success() <==> b.service.createTask(b.resolve(userId), data).Returned?)
            && (run.result.Success() ==> run.result.Added? && run.result.message == "Task '" + PyStr(title) + "' added successfully")
            && (run.result.Success() ==> var t := b.service.createTask(b.resolve(userId), data).value;
                  && run.result.taskId == t.taskId.text
                  && Mirrors(run.result.task, t) && run.result.task.stamp == CreatedAt(t.createdAt))
            && (!run.result.Success() ==> run.result == Failed("Failed to add task"))
  {
  }

  // ---- list_tasks -----------------------------------------------------------

  /** The records list_tasks builds, one per stored task, in the store's order. */
  function ListRecords(ts: seq<StoredTask>): (rs: seq<TaskRecord>)
    ensures |rs| == |ts|
    ensures forall i :: 0 <= i < |ts| ==> Mirrors(rs[i], ts[i]) && rs[i].stamp == CreatedAt(ts[i].createdAt)
  {
    seq(|ts|, i requires 0 <= i < |ts| => Record(ts[i], CreatedAt(ts[i].createdAt)))
  }

  function ListTasksRun(b: Backend, userId: Value, status: Value): ToolRun {
    match ResolveId(b, userId)
    case None => ToolRun([], Failed("Failed to list tasks"))
    case Some(user) =>
      var call := StoreGetTasks(user, status);
      match b.service.getUserTasks(user, status)
      case Raised => ToolRun([call], Failed("Failed to list tasks"))
      case Returned(ts) => ToolRun([call], Listed(|ts|, ListRecords(ts)))
  }

  /** list_tasks: the store's tasks become records by appending one at a time. */
  method ListTasks(b: Backend, userId: Value, status: Value) returns (run: ToolRun)
    ensures run == ListTasksRun(b, userId, status)
  {
    var resolved := ResolveId(b, userId);
    if resolved.None? {
      return ToolRun([], Failed("Failed to list tasks"));
    }
    var user := resolved.value;
    var call := StoreGetTasks(user, status);
    var reply := b.service.getUserTasks(user, status);
    if reply.Raised? {
      return ToolRun([call], Failed("Failed to list tasks"));
    }
    var tasks := reply.value;
    var taskList: seq<TaskRecord> := [];
    for i := 0 to |tasks|
      invariant |taskList| == i
      invariant forall j :: 0 <= j < i ==> taskList[j] == Record(tasks[j], CreatedAt(tasks[j].createdAt))
    {
      taskList := taskList + [Record(tasks[i], CreatedAt(tasks[i].createdAt))];
    }
    assert taskList == ListRecords(tasks);
    run := ToolRun([call], Listed(|taskList|, taskList));
  }

  /** A successful listing counts its tasks, keeps the store's order, and shows
      each stored task faithfully. */
  lemma ListingFollowsStore(b: Backend, userId: string, status: Value)
    ensures var run := ListTasksRun(b, Str(userId), status);
            var reply := b.service.getUserTasks(b.resolve(userId), status);
            && run.calls == [StoreGetTasks(b.resolve(userId), status)]
            && (run.result.Success() <==> reply.Returned?)
            && (run.result.Success() ==>
                  && run.result.Listed?
                  && run.result.count == |run.result.tasks| == |reply.value|
                  && run.result.tasks == ListRecords(reply.value)
                  && forall i :: 0 <= i < |reply.value| ==> Mirrors(run.result.tasks[i], reply.value[i]))
            && (!run.result.Success() ==> run.result == Failed("Failed to list tasks"))
  {
  }

  // ---- complete_task --------------------------------------------------------

  function CompleteTask(b: Backend, userId: Value, taskId: Value): ToolRun {
    match (ResolveId(b, userId), ResolveId(b, taskId))
    case (Some(user), Some(task)) =>
      var call := StoreSetStatus(user, task, "completed");
      (match b.service.updateTaskStatus(user, task, "completed")
       case Returned(Some(t)) =>
         ToolRun([call], Changed("Task '" + t.title + "' marked as completed", Record(t, UpdatedAt(t.updatedAt))))
       // A store that raises, or answers None (whose `.title` then raises), both end here.
       case _ => ToolRun([call], Failed("Failed to complete task")))
    case _ => ToolRun([], Failed("Failed to complete task"))
  }

  /** complete_task with two ids sends one status change to "completed"; it succeeds
      exactly when the store hands back the task, reporting that task's own title
      and showing it faithfully, and otherwise answers "Failed to complete task". */
  lemma CompleteOutcome(b: Backend, userId: string, taskId: string)
    ensures var run := CompleteTask(b, Str(userId), Str(taskId));
            var reply := b.service.updateTaskStatus(b.resolve(userId), b.resolve(taskId), "completed");
            && run.calls == [StoreSetStatus(b.resolve(userId), b.resolve(taskId), "completed")]
            && (run.result.Success() <==> reply.Returned? && reply.value.Some?)
            && (run.result.Success() ==>
                  var t := reply.value.value;
                  && run.result == Changed("Task '" + t.title + "' marked as completed", run.result.task)
                  && Mirrors(run.result.task, t) && run.result.task.stamp == UpdatedAt(t.updatedAt))
            && (!run.result.Success() ==> run.result == Failed("Failed to complete task"))
  {
  }

  // ---- update_task ----------------------------------------------------------

  /** The fields update_task may change. */
  const UpdatableFields: set<string> := {"title", "description", "priority"}

  /** `update_data`: exactly those of title, description and priority that are not None. */
  function UpdateData(title: Value, description: Value, priority: Value): (d: map<string, Value>)
    ensures d.Keys <= UpdatableFields
    ensures "title" in d <==> title != Null
    ensures "description" in d <==> description != Null
    ensures "priority" in d <==> priority != Null
    ensures "title" in d ==> d["title"] == title
    ensures "description" in d ==> d["description"] == description
    ensures "priority" in d ==> d["priority"] == priority
  {
    var d0: map<string, Value> := map[];
    var d1 := if title != Null then d0["title" := title] else d0;
    var d2 := if description != Null then d1["description" := description] else d1;
    if priority != Null then d2["priority" := priority] else d2
  }

  function UpdateTask(b: Backend, userId: Value, taskId: Value, title: Value, description: Value, priority: Value): ToolRun {
    match (ResolveId(b, userId), ResolveId(b, taskId))
    case (Some(user), Some(task)) =>
      var data := UpdateData(title, description, priority);
      var call := StoreUpdate(user, task, data);
      (match b.service.updateTask(user, task, data)
       case Returned(Some(t)) =>
         ToolRun([call], Changed("Task '" + t.title + "' updated successfully", Record(t, UpdatedAt(t.updatedAt))))
       case _ => ToolRun([call], Failed("Failed to update task")))
    case _ => ToolRun([], Failed("Failed to update task"))
  }

  /** update_task with two ids sends one update of `update_data`, whatever the store answers. */
  lemma UpdateTaskCalls(b: Backend, userId: string, taskId: string, title: Value, description: Value, priority: Value)
    ensures UpdateTask(b, Str(userId), Str(taskId), title, description, priority).calls
            == [StoreUpdate(b.resolve(userId), b.resolve(taskId), UpdateData(title, description, priority))]
  {
  }

  /** update_task with two ids succeeds exactly when the store hands back the
      updated task, reporting that task's own title and showing it faithfully,
      and otherwise answers "Failed to update task". */
  lemma UpdateOutcome(b: Backend, userId: string, taskId: string, title: Value, description: Value, priority: Value)
    ensures var run := UpdateTask(b, Str(userId), Str(taskId), title, description, priority);
            var reply := b.service.updateTask(b.resolve(userId), b.resolve(taskId), UpdateData(title, description, priority));
            && (run.result.Success() <==> reply.Returned? && reply.value.Some?)
            && (run.result.Success() ==>
                  var t := reply.value.value;
                  && run.result == Changed("Task '" + t.title + "' updated successfully", run.result.task)
                  && Mirrors(run.result.task, t) && run.result.task.stamp == UpdatedAt(t.updatedAt))
            && (!run.result.Success() ==> run.result == Failed("Failed to update task"))
  {
  }

  // ---- delete_task ----------------------------------------------------------

  function DeleteTask(b: Backend, userId: Value, taskId: Value): ToolRun {
    match (ResolveId(b, userId), ResolveId(b, taskId))
    case (Some(user), Some(task)) =>
      var call := StoreDelete(user, task);
      (match b.service.deleteTask(user, task)
       case Raised => ToolRun([call], Failed("Failed to delete task"))
       case Returned(deleted) =>
         if deleted then ToolRun([call], Removed("Task deleted successfully"))
         else ToolRun([call], Failed("Task not found or unauthorized")))
    case _ => ToolRun([], Failed("Failed to delete task"))
  }

  /** delete_task succeeds exactly when the store reports a deletion, and reports
      "not found" exactly when the store answers False. */
  lemma DeleteOutcome(b: Backend, userId: string, taskId: string)
    ensures var run := DeleteTask(b, Str(userId), Str(taskId));
            var reply := b.service.deleteTask(b.resolve(userId), b.resolve(taskId));
            && run.calls == [StoreDelete(b.resolve(userId), b.resolve(taskId))]
            && (run.result == Removed("Task deleted successfully") <==> reply == Returned(true))
            && (run.result == Failed("Task not found or unauthorized") <==> reply == Returned(false))
            && (run.result == Failed("Failed to delete task") <==> reply == Raised)
  {
  }
}
