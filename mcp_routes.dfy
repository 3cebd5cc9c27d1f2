// The HTTP routes over the tool server (backend/src/api/mcp_routes.py):
// `GET /mcp/tools` lists the registered tool names, and
// `POST /mcp/tools/{tool_name}` checks `user_id`, runs the tool and maps a
// failed result onto an HTTP error status.

module McpRoutes {
  import opened Optional
  import opened PyText
  import opened Tools
  import opened Server

  // ---- GET /mcp/tools -------------------------------------------------------------

  /** The body `list_mcp_tools` returns. */
  datatype Catalog = Catalog(tools: seq<string>, count: int, description: string)

  /** `list_mcp_tools`: the names of the server's tools, in their order, and how many. */
  function ListMcpTools(server: McpServer): (c: Catalog)
    reads server
    ensures c.count == |c.tools| == |server.tools|
    ensures forall name :: name in c.tools <==> Lookup(server.tools, name).Some?
    ensures forall i :: 0 <= i < |c.tools| ==> Lookup(server.tools, c.tools[i]).Some?
  {
    var names := Names(server.tools);
    Catalog(names, |names|, "Available MCP tools for task management")
  }

  /** The server built at start-up offers exactly the five task tools. */
  lemma CatalogOfRegistry(server: McpServer)
    requires server.tools == Registry
    ensures ListMcpTools(server).tools == ["add_task", "list_tasks", "complete_task", "update_task", "delete_task"]
    ensures ListMcpTools(server).count == 5
  {
    RegistryNameList();
  }

  // ---- POST /mcp/tools/{tool_name} ----------------------------------------------

  /** What the client receives: the tool's result with status 200, or an error
      status with its `detail`. */
  datatype HttpResponse = Ok(result: ToolResult) | HttpError(status: int, detail: string)

  /** A response together with the store requests made on the way. */
  datatype Exchange = Exchange(response: HttpResponse, calls: seq<StoreCall>)

  /** The body FastAPI sends for an exception the route does not handle. */
  const InternalError := HttpError(500, "Internal Server Error")

  /** `params.get('user_id')`. */
  function UserIdOf(params: map<string, Value>): Value {
    if "user_id" in params then params["user_id"] else Null
  }

  /** `{k: v for k, v in params.items() if k != 'user_id'}`. */
  function ToolParams(params: map<string, Value>): (p: map<string, Value>)
    ensures p.Keys == params.Keys - {"user_id"}
    ensures forall k :: k in p ==> p[k] == params[k]
  {
    map k | k in params && k != "user_id" :: params[k]
  }

  /** A call `execute_tool(tool_name, user_id=..., **tool_params)` raises
      `TypeError` before its body when a keyword repeats one of its positional
      parameters. */
  predicate ClashesWithCall(toolParams: map<string, Value>) {
    "tool_name" in toolParams || "self" in toolParams
  }

  /** A tool's record as the route answers it: the record itself on success,
      else 404 when its message mentions "not found" in any case, else 400. */
  function Answer(run: ToolRun): Exchange {
    if run.result.Success() then Exchange(Ok(run.result), run.calls)
    else
      var message := run.result.Message();
      var status := if Contains(Lower(message), "not found") then 404 else 400;
      Exchange(HttpError(status, message), run.calls)
  }

  /** `execute_mcp_tool` on the tool table `tools`. A missing or falsy `user_id`
      is refused; `uuid.UUID` on a value that is not a string raises an error
      the route does not catch, while a string that is not a UUID passes. */
  function McpAnswer(tools: seq<(string, ToolKind)>, toolName: string, params: map<string, Value>, b: Backend): Exchange {
    var userId := UserIdOf(params);
    if !Truthy(userId) then Exchange(HttpError(400, "user_id is required"), [])
    else if !userId.Str? then Exchange(InternalError, [])
    else
      var toolParams := ToolParams(params);
      if ClashesWithCall(toolParams) then Exchange(InternalError, [])
      else Answer(Dispatch(tools, toolName, toolParams["user_id" := userId], b))
  }

  /** `execute_mcp_tool`, run against the server object. */
  method ExecuteMcpTool(server: McpServer, toolName: string, params: map<string, Value>, b: Backend)
    returns (x: Exchange)
    ensures x == McpAnswer(server.tools, toolName, params, b)
  {
    var userId := UserIdOf(params);
    if !Truthy(userId) {
      return Exchange(HttpError(400, "user_id is required"), []);
    }
    if !userId.Str? {
      return Exchange(InternalError, []);
    }
    var toolParams := ToolParams(params);
    if ClashesWithCall(toolParams) {
      return Exchange(InternalError, []);
    }
    var run := server.ExecuteTool(toolName, toolParams["user_id" := userId], b);
    x := Answer(run);
  }

  // ---- what the route promises ----------------------------------------------------

  /** The request the route accepts: a non-empty string `user_id` and no
      keyword that clashes with `execute_tool`'s own parameters. */
  predicate Accepted(params: map<string, Value>) {
    && "user_id" in params && params["user_id"].Str? && params["user_id"].s != ""
    && !ClashesWithCall(ToolParams(params))
  }

  /** Taking `user_id` out and passing it back as a keyword hands the tool the
      request's parameters unchanged. */
  lemma {:induction false} ParamsReassembled(params: map<string, Value>)
    requires "user_id" in params
    ensures ToolParams(params)["user_id" := params["user_id"]] == params
  {
    var kwargs := ToolParams(params)["user_id" := params["user_id"]];
    assert kwargs.Keys == params.Keys;
    assert forall k :: k in kwargs ==> kwargs[k] == params[k];
  }

  /** An accepted request runs the named tool on the request's parameters, any
      string `user_id` included, and makes exactly that tool's store requests. */
  lemma AcceptedRunsTool(tools: seq<(string, ToolKind)>, toolName: string, params: map<string, Value>, b: Backend)
    requires Accepted(params)
    ensures McpAnswer(tools, toolName, params, b) == Answer(Dispatch(tools, toolName, params, b))
  {
    ParamsReassembled(params);
  }

  /** Without a non-empty `user_id` the route answers 400 and runs nothing. */
  lemma MissingUserRejected(tools: seq<(string, ToolKind)>, toolName: string, params: map<string, Value>, b: Backend)
    requires "user_id" !in params || params["user_id"] in {Null, Str(""), Bool(false), Int(0)}
    ensures McpAnswer(tools, toolName, params, b) == Exchange(HttpError(400, "user_id is required"), [])
  {
  }

  /** Every answer is 200 with the tool's successful record, or one of the
      statuses 400, 404 and 500; 500 comes only from a `user_id` that is not a
      string or a keyword that clashes with the call, and never reaches the store. */
  lemma StatusesOfRoute(tools: seq<(string, ToolKind)>, toolName: string, params: map<string, Value>, b: Backend)
    ensures var x := McpAnswer(tools, toolName, params, b);
            && (x.response.Ok? ==> x.response.result.Success())
            && (x.response.HttpError? ==> x.response.status in {400, 404, 500})
            && (x.response.HttpError? && x.response.status == 500 ==>
                  x.calls == [] && (!UserIdOf(params).Str? || ClashesWithCall(ToolParams(params))))
  {
  }

  /** The route answers 200 exactly when the tool succeeds, with the tool's own record. */
  lemma OkExactlyOnSuccess(toolName: string, params: map<string, Value>, b: Backend)
    requires Accepted(params)
    ensures var run := Dispatch(Registry, toolName, params, b);
            var x := McpAnswer(Registry, toolName, params, b);
            && (x.response.Ok? <==> run.result.Success())
            && (x.response.Ok? ==> x.response.result == run.result)
            && x.calls == run.calls
  {
    AcceptedRunsTool(Registry, toolName, params, b);
  }

  /** On the start-up table, an accepted request answers 404 exactly when the
      store found no task of that user to delete. */
  lemma NotFoundExactlyWhenStoreFindsNothing(toolName: string, params: map<string, Value>, b: Backend)
    requires Accepted(params)
    ensures var x := McpAnswer(Registry, toolName, params, b);
            (x.response.HttpError? && x.response.status == 404)
            <==> Dispatch(Registry, toolName, params, b).result == Failed("Task not found or unauthorized")
  {
    AcceptedRunsTool(Registry, toolName, params, b);
    var run := Dispatch(Registry, toolName, params, b);
    NotFoundOnlyWhenStoreFindsNothing(toolName, params, b);
    AnswerNotFound(run);
  }

  /** A failed record whose message mentions "not found" exactly when it is the
      store's "no such task" answer is answered 404 exactly in that case. */
  lemma AnswerNotFound(run: ToolRun)
    requires run.result.Failed? ==>
               (Contains(Lower(run.result.message), "not found") <==> run.result.message == "Task not found or unauthorized")
    ensures (Answer(run).response.HttpError? && Answer(run).response.status == 404)
            <==> run.result == Failed("Task not found or unauthorized")
  {
  }

  /** A failed run of an accepted request is answered with the tool's own
      message as the detail: 404 when that message mentions "not found" in any
      case, else 400. */
  lemma FailureDetail(toolName: string, params: map<string, Value>, b: Backend)
    requires Accepted(params) && Dispatch(Registry, toolName, params, b).result.Failed?
    ensures var m := Dispatch(Registry, toolName, params, b).result.message;
            McpAnswer(Registry, toolName, params, b).response
            == HttpError(if Contains(Lower(m), "not found") then 404 else 400, m)
  {
    AcceptedRunsTool(Registry, toolName, params, b);
  }

  /** A tool name outside the table is a bad request, not a missing resource:
      400 "Unknown tool", and nothing reaches the store. */
  lemma UnknownToolIsBadRequest(toolName: string, params: map<string, Value>, b: Backend)
    requires Accepted(params) && toolName !in Names(Registry)
    ensures McpAnswer(Registry, toolName, params, b) == Exchange(HttpError(400, "Unknown tool"), [])
  {
    AcceptedRunsTool(Registry, toolName, params, b);
    UnknownToolInvokesNothing(toolName, params, b);
    UnknownAnswer();
  }

  lemma UnknownAnswer()
    ensures Answer(ToolRun([], Failed("Unknown tool"))) == Exchange(HttpError(400, "Unknown tool"), [])
  {
    UnknownToolSaysNoNotFound();
  }
}
