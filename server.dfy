// `MCPServer` (backend/src/mcp_server/server.py): a fixed table of five tool
// names and a dispatcher that binds keyword arguments, opens a database
// session, runs the tool and turns anything that escapes into a failed record.

module Server {
  import opened Optional
  import opened PyText
  import opened Tools

  datatype ToolKind = AddTool | ListTool | CompleteTool | UpdateTool | DeleteTool

  /** The `tools` dictionary `MCPServer.__init__` builds, in insertion order. */
  const Registry: seq<(string, ToolKind)> := [
    ("add_task", AddTool), ("list_tasks", ListTool), ("complete_task", CompleteTool),
    ("update_task", UpdateTool), ("delete_task", DeleteTool)]

  /** The names of a tool table, in its order (`list(tools.keys())`). */
  function Names(tools: seq<(string, ToolKind)>): (names: seq<string>)
    ensures |names| == |tools|
    ensures forall i :: 0 <= i < |tools| ==> names[i] == tools[i].0
  {
    if tools == [] then [] else [tools[0].0] + Names(tools[1..])
  }

  /** `tools.get(name)`: the tool registered under `name`, if any. */
  function Lookup(tools: seq<(string, ToolKind)>, name: string): (r: Option<ToolKind>)
    ensures r.None? <==> name !in Names(tools)
    ensures r.Some? ==> (name, r.value) in tools
  {
    if tools == [] then None
    else if tools[0].0 == name then Some(tools[0].1)
    else Lookup(tools[1..], name)
  }

  /** Each tool's keyword parameters (after `self`) with their defaults;
      `None` marks a parameter without a default. */
  function Signature(k: ToolKind): map<string, Option<Value>> {
    match k
    case AddTool =>
      map["user_id" := None, "title" := None, "description" := Some(Str("")), "priority" := Some(Str("medium"))]
    case ListTool => map["user_id" := None, "status" := Some(Str("all"))]
    case CompleteTool => map["user_id" := None, "task_id" := None]
    case UpdateTool =>
      map["user_id" := None, "task_id" := None, "title" := Some(Null), "description" := Some(Null), "priority" := Some(Null)]
    case DeleteTool => map["user_id" := None, "task_id" := None]
  }

  /** Python accepts a call `f(**kwargs)` when every keyword names a parameter
      and every parameter without a default is given. */
  predicate Binds(sig: map<string, Option<Value>>, kwargs: map<string, Value>) {
    && kwargs.Keys <= sig.Keys
    && forall p :: p in sig && sig[p].None? ==> p in kwargs
  }

  /** The arguments a call receives: the given keywords, defaults for the rest;
      `None` where Python raises `TypeError`. */
  function Bind(sig: map<string, Option<Value>>, kwargs: map<string, Value>): (r: Option<map<string, Value>>)
    ensures r.Some? <==> Binds(sig, kwargs)
    ensures r.Some? ==> r.value.Keys == sig.Keys
    ensures r.Some? ==> forall p :: p in kwargs ==> r.value[p] == kwargs[p]
    ensures r.Some? ==> forall p :: p in sig && p !in kwargs ==> sig[p].Some? && r.value[p] == sig[p].value
  {
    if Binds(sig, kwargs) then Some(map p | p in sig :: if p in kwargs then kwargs[p] else sig[p].value)
    else None
  }

  /** A registered tool run on bound arguments inside an open session. */
  function RunTool(k: ToolKind, args: map<string, Value>, b: Backend): ToolRun
    requires args.Keys == Signature(k).Keys
  {
    match k
    case AddTool => AddTask(b, args["user_id"], args["title"], args["description"], args["priority"])
    case ListTool => ListTasksRun(b, args["user_id"], args["status"])
    case CompleteTool => CompleteTask(b, args["user_id"], args["task_id"])
    case UpdateTool =>
      UpdateTask(b, args["user_id"], args["task_id"], args["title"], args["description"], args["priority"])
    case DeleteTool => DeleteTask(b, args["user_id"], args["task_id"])
  }

  /** `execute_tool`: an unknown name invokes nothing; an exception escaping a
      registered tool (bad keywords, a session that fails to open or to close)
      becomes a failed record naming the tool. */
  function Dispatch(tools: seq<(string, ToolKind)>, name: string, kwargs: map<string, Value>, b: Backend): ToolRun {
    match Lookup(tools, name)
    case None => ToolRun([], Failed("Unknown tool"))
    case Some(k) =>
      var failed := Failed("Error executing tool " + name);
      match Bind(Signature(k), kwargs)
      case None => ToolRun([], failed)
      case Some(args) =>
        if !b.sessionOpens then ToolRun([], failed)
        else
          var run := RunTool(k, args, b);
          if b.sessionCloses then run else ToolRun(run.calls, failed)
  }

  class McpServer {
    var tools: seq<(string, ToolKind)>

    constructor ()
      ensures tools == Registry
    {
      tools := Registry;
    }

    method ExecuteTool(name: string, kwargs: map<string, Value>, b: Backend) returns (run: ToolRun)
      ensures run == Dispatch(tools, name, kwargs, b)
    {
      var kind := Lookup(tools, name);
      if kind.None? {
        return ToolRun([], Failed("Unknown tool"));
      }
      var failed := Failed("Error executing tool " + name);
      var args := Bind(Signature(kind.value), kwargs);
      if args.None? || !b.sessionOpens {
        return ToolRun([], failed);
      }
      if kind.value == ListTool {
        run := ListTasks(b, args.value["user_id"], args.value["status"]);
      } else {
        run := RunTool(kind.value, args.value, b);
      }
      if !b.sessionCloses {
        run := ToolRun(run.calls, failed);
      }
    }
  }

  /** A name outside the table yields "Unknown tool" and no store request. */
  lemma UnknownToolInvokesNothing(name: string, kwargs: map<string, Value>, b: Backend)
    requires name !in Names(Registry)
    ensures Dispatch(Registry, name, kwargs, b) == ToolRun([], Failed("Unknown tool"))
  {
  }

  /** An exception escaping a registered tool becomes "Error executing tool <name>";
      when it comes before the tool body, no store request is made. */
  lemma EscapingExceptionReported(name: string, kwargs: map<string, Value>, b: Backend)
    requires name in Names(Registry)
    requires !Binds(Signature(Lookup(Registry, name).value), kwargs) || !b.sessionOpens || !b.sessionCloses
    ensures Dispatch(Registry, name, kwargs, b).result == Failed("Error executing tool " + name)
    ensures (!Binds(Signature(Lookup(Registry, name).value), kwargs) || !b.sessionOpens)
            ==> Dispatch(Registry, name, kwargs, b).calls == []
  {
  }

  /** Adding with only a user and a title sends the store the defaults "" and "medium". */
  lemma AddDefaults(userId: string, title: Value, b: Backend)
    requires b.sessionOpens
    ensures var run := Dispatch(Registry, "add_task", map["user_id" := Str(userId), "title" := title], b);
            run.calls == [StoreCreate(b.resolve(userId),
                                      map["title" := title, "description" := Str(""), "priority" := Str("medium")])]
  {
    var kwargs := map["user_id" := Str(userId), "title" := title];
    assert Lookup(Registry, "add_task") == Some(AddTool);
    assert Binds(Signature(AddTool), kwargs);
    var args := Bind(Signature(AddTool), kwargs).value;
    assert args["user_id"] == Str(userId) && args["title"] == title;
    assert args["description"] == Str("") && args["priority"] == Str("medium");
    assert RunTool(AddTool, args, b) == AddTask(b, Str(userId), title, Str(""), Str("medium"));
    RegisteredToolRuns(Registry, "add_task", AddTool, kwargs, b);
    AddTaskShape(b, userId, title, Str(""), Str("medium"));
  }

  /** The value a keyword argument of update_task takes: the one given, else None. */
  function GivenOrNull(kwargs: map<string, Value>, f: string): Value {
    if f in kwargs then kwargs[f] else Null
  }

  /** update_task sends the store one update carrying `update_data` built from
      the title, description and priority keywords (None where not given). */
  lemma UpdateSendsGivenFields(userId: string, taskId: string, kwargs: map<string, Value>, b: Backend)
    requires Binds(Signature(UpdateTool), kwargs) && b.sessionOpens
    requires kwargs["user_id"] == Str(userId) && kwargs["task_id"] == Str(taskId)
    ensures Dispatch(Registry, "update_task", kwargs, b).calls
            == [StoreUpdate(b.resolve(userId), b.resolve(taskId),
                            UpdateData(GivenOrNull(kwargs, "title"), GivenOrNull(kwargs, "description"),
                                       GivenOrNull(kwargs, "priority")))]
  {
    var args := Bind(Signature(UpdateTool), kwargs).value;
    var t, d, p := GivenOrNull(kwargs, "title"), GivenOrNull(kwargs, "description"), GivenOrNull(kwargs, "priority");
    assert args["user_id"] == Str(userId);
    assert args["task_id"] == Str(taskId);
    assert args["title"] == t;
    assert args["description"] == d;
    assert args["priority"] == p;
    assert RunTool(UpdateTool, args, b) == UpdateTask(b, Str(userId), Str(taskId), t, d, p);
    UpdateTaskCalls(b, userId, taskId, t, d, p);
    assert Lookup(Registry, "update_task") == Some(UpdateTool);
    RegisteredToolRuns(Registry, "update_task", UpdateTool, kwargs, b);
  }

  /** A registered tool whose keywords bind, in a session that opens, makes
      exactly the store requests of its own body. */
  lemma RegisteredToolRuns(tools: seq<(string, ToolKind)>, name: string, k: ToolKind,
                           kwargs: map<string, Value>, b: Backend)
    requires Lookup(tools, name) == Some(k) && Binds(Signature(k), kwargs) && b.sessionOpens
    ensures Dispatch(tools, name, kwargs, b).calls == RunTool(k, Bind(Signature(k), kwargs).value, b).calls
  {
  }

  /** The data built from the keywords holds exactly the updatable fields that
      were given and are not None, each with the value given. */
  lemma UpdateDataFromKeywords(kwargs: map<string, Value>)
    ensures var d := UpdateData(GivenOrNull(kwargs, "title"), GivenOrNull(kwargs, "description"),
                                GivenOrNull(kwargs, "priority"));
            && (forall f :: f in d <==> f in UpdatableFields && f in kwargs && kwargs[f] != Null)
            && (forall f :: f in d ==> d[f] == kwargs[f])
  {
  }

  /** Keywords naming every parameter bind to themselves. */
  lemma BindsExactly(sig: map<string, Option<Value>>, kwargs: map<string, Value>)
    requires kwargs.Keys == sig.Keys
    ensures Bind(sig, kwargs) == Some(kwargs)
  {
    assert Binds(sig, kwargs);
    var args := Bind(sig, kwargs).value;
    assert args.Keys == kwargs.Keys;
    assert forall p :: p in args ==> args[p] == kwargs[p];
    assert args == kwargs;
    assert Bind(sig, kwargs) == Some(args);
  }

  /** A registered tool whose keywords bind, in a session that opens and
      closes, answers exactly as its own body does. */
  lemma RegisteredToolAnswers(tools: seq<(string, ToolKind)>, name: string, k: ToolKind,
                              kwargs: map<string, Value>, b: Backend)
    requires Lookup(tools, name) == Some(k) && Binds(Signature(k), kwargs) && b.sessionOpens && b.sessionCloses
    ensures Dispatch(tools, name, kwargs, b) == RunTool(k, Bind(Signature(k), kwargs).value, b)
  {
  }

  /** Without a database session no tool runs: nothing reaches the store and the run fails. */
  lemma NoSessionNoRun(tools: seq<(string, ToolKind)>, name: string, kwargs: map<string, Value>, b: Backend)
    requires !b.sessionOpens
    ensures Dispatch(tools, name, kwargs, b).calls == [] && Dispatch(tools, name, kwargs, b).result.Failed?
  {
  }

  /** The table lists the five task tools, in this order. */
  lemma RegistryNameList()
    ensures Names(Registry) == ["add_task", "list_tasks", "complete_task", "update_task", "delete_task"]
  {
    var names := Names(Registry);
    assert |names| == 5;
    forall i | 0 <= i < 5
      ensures names[i] == ["add_task", "list_tasks", "complete_task", "update_task", "delete_task"][i]
    {
    }
  }

  /** The name each tool is registered under. */
  function NameOf(k: ToolKind): string {
    match k
    case AddTool => "add_task"
    case ListTool => "list_tasks"
    case CompleteTool => "complete_task"
    case UpdateTool => "update_task"
    case DeleteTool => "delete_task"
  }

  /** Each tool is found under its own name. */
  lemma LookupByName(k: ToolKind)
    ensures Lookup(Registry, NameOf(k)) == Some(k)
  {
    match k
    case AddTool =>
    case ListTool =>
    case CompleteTool =>
    case UpdateTool =>
    case DeleteTool =>
      assert Registry[4] == ("delete_task", DeleteTool);
  }

  /** Called by its own name with exactly its parameters, in a healthy session,
      a tool answers as its body does. */
  lemma NamedToolAnswers(k: ToolKind, kwargs: map<string, Value>, b: Backend)
    requires kwargs.Keys == Signature(k).Keys && b.sessionOpens && b.sessionCloses
    ensures Dispatch(Registry, NameOf(k), kwargs, b) == RunTool(k, kwargs, b)
  {
    LookupByName(k);
    BindsExactly(Signature(k), kwargs);
    RegisteredToolAnswers(Registry, NameOf(k), k, kwargs, b);
  }

  /** The fixed failure message of each tool's own exception handler. */
  function ToolFailure(k: ToolKind): string {
    match k
    case AddTool => "Failed to add task"
    case ListTool => "Failed to list tasks"
    case CompleteTool => "Failed to complete task"
    case UpdateTool => "Failed to update task"
    case DeleteTool => "Failed to delete task"
  }

  /** The registered table maps each name to the tool of that name. */
  lemma RegistryNames(name: string)
    ensures Lookup(Registry, name).Some? ==> name == NameOf(Lookup(Registry, name).value)
  {
  }

  /** A registered tool fails only with its own fixed message, or, for delete_task,
      with the store's "no such task" answer. */
  lemma RunToolFailure(k: ToolKind, args: map<string, Value>, b: Backend)
    requires args.Keys == Signature(k).Keys
    ensures var r := RunTool(k, args, b).result;
            r.Failed? ==> r.message == ToolFailure(k) || (k == DeleteTool && r.message == "Task not found or unauthorized")
  {
  }

  /** How a failed dispatch through the registered table can read. */
  lemma FailureIsKnown(name: string, kwargs: map<string, Value>, b: Backend)
    ensures var r := Dispatch(Registry, name, kwargs, b).result;
            r.Failed? ==>
              || r.message == "Unknown tool"
              || (Lookup(Registry, name).Some? &&
                  var k := Lookup(Registry, name).value;
                  || r.message == "Error executing tool " + NameOf(k)
                  || r.message == ToolFailure(k)
                  || (k == DeleteTool && r.message == "Task not found or unauthorized"))
  {
    var k := Lookup(Registry, name);
    if k.Some? {
      RegistryNames(name);
      var args := Bind(Signature(k.value), kwargs);
      if args.Some? && b.sessionOpens && b.sessionCloses {
        RunToolFailure(k.value, args.value, b);
      }
    }
  }

  /** A message lacking both cases of a letter of `sub` cannot contain `sub`, even lowered. */
  lemma MissingLetter(s: string, sub: string, c: char)
    requires c in sub && 'a' <= c <= 'z'
    requires c !in s && (c as int - 32) as char !in s
    ensures !Contains(Lower(s), sub)
  {
  }

  /** "not found" between any two texts survives lowering. */
  lemma NotFoundInside(pre: string, post: string)
    ensures Contains(Lower(pre + "not found" + post), "not found")
  {
    var nf := "not found";
    var s := pre + nf + post;
    var i := |pre|;
    forall j | 0 <= j < |nf| ensures Lower(s)[i + j] == nf[j] {
      assert s[i + j] == nf[j];
    }
    assert Lower(s)[i..i + |nf|] == nf;
    ContainsAt(Lower(s), nf, i);
  }

  /** "not found" appears, lowered, in the store's "no such task" answer. */
  lemma NotFoundInDeleteAnswer(m: string)
    requires m == "Task not found or unauthorized"
    ensures Contains(Lower(m), "not found")
  {
    assert m == "Task " + "not found" + " or unauthorized";
    NotFoundInside("Task ", " or unauthorized");
  }

  /** The unknown-tool answer does not mention "not found". */
  lemma UnknownToolSaysNoNotFound()
    ensures !Contains(Lower("Unknown tool"), "not found")
  {
    MissingLetter("Unknown tool", "not found", 'f');
  }

  /** No "Error executing tool ..." answer mentions "not found". */
  lemma ExecutionErrorSaysNoNotFound(k: ToolKind)
    ensures !Contains(Lower("Error executing tool " + NameOf(k)), "not found")
  {
    var prefix := "Error executing tool ";
    assert 'f' !in prefix && 'F' !in prefix;
    assert 'f' !in NameOf(k) && 'F' !in NameOf(k);
    MissingLetter(prefix + NameOf(k), "not found", 'f');
  }

  /** No tool's own failure message mentions "not found". */
  lemma ToolFailureSaysNoNotFound(k: ToolKind)
    ensures !Contains(Lower(ToolFailure(k)), "not found")
  {
    MissingLetter(ToolFailure(k), "not found", 'n');
  }

  /** A failed dispatch mentions "not found" exactly when it is the store's "no such task" answer. */
  lemma NotFoundOnlyWhenStoreFindsNothing(name: string, kwargs: map<string, Value>, b: Backend)
    ensures var r := Dispatch(Registry, name, kwargs, b).result;
            r.Failed? ==> (Contains(Lower(r.message), "not found") <==> r.message == "Task not found or unauthorized")
  {
    FailureIsKnown(name, kwargs, b);
    var r := Dispatch(Registry, name, kwargs, b).result;
    if r.Failed? {
      if r.message == "Task not found or unauthorized" {
        NotFoundInDeleteAnswer(r.message);
      }
      UnknownToolSaysNoNotFound();
      if Lookup(Registry, name).Some? {
        var k := Lookup(Registry, name).value;
        ExecutionErrorSaysNoNotFound(k);
        ToolFailureSaysNoNotFound(k);
      }
    }
  }
}
