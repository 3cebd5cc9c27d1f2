# Todo chatbot backend: message handling and the task-tool server

This project models the Python backend of a todo chatbot. It covers three parts.

- **The message handler.** `process_user_message_with_ai` is a rule-based stand-in for an AI agent. It tries five regular expressions in a fixed order: add, list, complete, update and delete. The first one that matches decides which task tools are called. The handler then words the reply and reports the tool call.
- **The tool server.** `MCPServer` keeps a fixed table of five tools. `execute_tool` binds keyword arguments, opens a database session, runs the tool and turns any exception that escapes into a failed record. The tools themselves are the `MCPTool` methods: `add_task`, `list_tasks`, `complete_task`, `update_task` and `delete_task`.
- **The HTTP routes over the tool server.** `GET /mcp/tools` lists the tools. `POST /mcp/tools/{tool_name}` checks `user_id`, runs the tool, and maps a failed result to 404 or 400.

Files:

- `py_text.dfy` holds `Option` and the Python string operations the code relies on: `lower`, `strip`, `split`, `in` on strings, and integer formatting.
- `tools.dfy` holds the task store, seen as an oracle, and the five `MCPTool` operations.
- `server.dfy` holds the tool table, keyword binding, `execute_tool`, and the class `McpServer`.
- `chat_routes.dfy` holds the handler, both as specification functions (`Respond`, one `*Turn` per intent) and as methods proved equal to them (`ProcessUserMessage`, `Handle*`, `BuildListing`, `FindFirst`). It also holds the endpoint's fallback reply.
- `mcp_routes.dfy` holds the two HTTP routes.

Modelling choices:

- **Store requests.** Every operation returns the store requests it made, in order (`StoreCall`). A turn's contract can therefore say exactly what reached the database.
- **Regular expressions.** Each `re.search` result is an oracle (`Regexes`). The model fixes what the code does with a match: which group it reads, what happens when a group is empty, and the first-match order. It does not fix how the match is found.
- **Task service.** `TaskService` is a record of oracle functions. Each may return a value or raise.
- **Ids.** `uuid.UUID(s)`, with its `uuid5` fallback, is one oracle, `resolve: string -> Uuid`. A value that is not a string makes `uuid.UUID` raise an error other than `ValueError`; that case is modelled as such.
- **Sessions.** Whether a database session opens, and whether it closes cleanly, are two booleans of `Backend`.
- **Tool keywords.** Python's keyword binding (`f(**kwargs)`, raising `TypeError` on an unknown or missing keyword) is modelled with each tool's signature and defaults.

## Model

| member | source | states |
|---|---|---|
| Tools.Record | backend/src/mcp_server/server.py:93-100 | a task record shows the stored task's id, title, description and priority, and is completed exactly when the stored status is "completed" |
| Tools.AddTask | backend/src/mcp_server/server.py:21-68 | add_task as a function of the store's answer; its behaviour is stated by `AddTaskShape` |
| Tools.AddTaskShape | backend/src/mcp_server/server.py:21-68 | add_task sends the store one create with the given title, description and priority; it succeeds exactly when the store does, then reporting the given title, the created task's id and a record mirroring the created task stamped with its creation time; otherwise "Failed to add task" |
| Tools.ListRecords | backend/src/mcp_server/server.py:91-100 | one record per stored task, in the store's order, each mirroring its task |
| Tools.ListTasksRun | backend/src/mcp_server/server.py:70-112 | list_tasks as a function of the store's answer; its behaviour is stated by `ListingFollowsStore` and `ListTasks` follows it |
| Tools.ListTasks | backend/src/mcp_server/server.py:70-112 | the append loop builds exactly the listing `ListTasksRun` specifies |
| Tools.ListingFollowsStore | backend/src/mcp_server/server.py:70-112 | list_tasks makes one store request; it succeeds exactly when the store answers, with a count equal to the number of tasks and the records of the stored tasks in order (each mirroring its task, stamped with its creation time); otherwise "Failed to list tasks" |
| Tools.CompleteTask | backend/src/mcp_server/server.py:114-159 | complete_task as a function of the store's answer; its behaviour is stated by `CompleteOutcome` |
| Tools.CompleteOutcome | backend/src/mcp_server/server.py:114-159 | complete_task asks the store once to mark the task completed; it succeeds exactly when the store hands back a task, reporting that task's own title and mirroring it; otherwise "Failed to complete task" |
| Tools.UpdateData | backend/src/mcp_server/server.py:190-196 | `update_data` holds exactly those of title, description and priority that are not None, each with its given value |
| Tools.UpdateTaskCalls | backend/src/mcp_server/server.py:175-198 | with two string ids, update_task sends the store one update of `update_data`, whatever the store answers |
| Tools.UpdateTask | backend/src/mcp_server/server.py:161-217 | update_task as a function of the store's answer; its behaviour is stated by `UpdateTaskCalls` and `UpdateOutcome` |
| Tools.UpdateOutcome | backend/src/mcp_server/server.py:161-217 | update_task succeeds exactly when the store hands back a task, reporting that task's own title and mirroring it; otherwise "Failed to update task" |
| Tools.DeleteTask | backend/src/mcp_server/server.py:219-262 | delete_task as a function of the store's answer; its behaviour is stated by `DeleteOutcome` |
| Tools.DeleteOutcome | backend/src/mcp_server/server.py:219-262 | delete_task succeeds exactly when the store reports a deletion, answers "Task not found or unauthorized" exactly when the store answers False, and "Failed to delete task" exactly when the store raises |
| Server.Lookup | backend/src/mcp_server/server.py:338-343 | a name is found exactly when it is among the table's names, and then with the tool registered under it |
| Server.Bind | backend/src/mcp_server/server.py:345-346 | a keyword call binds exactly when every keyword names a parameter and every parameter without a default is given; the bound arguments are the given keywords plus defaults for the rest |
| Server.RunTool | backend/src/mcp_server/server.py:276-334 | one session-wrapped tool body: no session means no run; its behaviour is stated by `RegisteredToolRuns`, `RegisteredToolAnswers` and `NoSessionNoRun` |
| Server.Dispatch | backend/src/mcp_server/server.py:336-352 | execute_tool as a function; its behaviour is stated by `UnknownToolInvokesNothing`, `EscapingExceptionReported`, `RegisteredToolAnswers` and `FailureIsKnown` |
| Server.McpServer.constructor | backend/src/mcp_server/server.py:267-274 | the server starts with the five-tool table |
| Server.McpServer.ExecuteTool | backend/src/mcp_server/server.py:336-352 | the method (list_tasks through its loop) answers exactly as `Dispatch` specifies |
| Server.RegistryNameList | backend/src/mcp_server/server.py:268-274 | the table lists add_task, list_tasks, complete_task, update_task and delete_task, in this order |
| Server.RegistryNames | backend/src/mcp_server/server.py:268-274 | every name the table finds is the name of the tool it finds |
| Server.UnknownToolInvokesNothing | backend/src/mcp_server/server.py:338-343 | a name outside the table yields "Unknown tool" and reaches no store |
| Server.EscapingExceptionReported | backend/src/mcp_server/server.py:345-352 | bad keywords or a session that fails to open or close yield "Error executing tool <name>"; before the tool body runs, nothing reaches the store |
| Server.AddDefaults | backend/src/mcp_server/server.py:276-281 | adding with only a user and a title sends the store description "" and priority "medium" |
| Server.UpdateSendsGivenFields | backend/src/mcp_server/server.py:312-322 | update_task through the server sends one update built from the title, description and priority keywords, None where not given |
| Server.UpdateDataFromKeywords | backend/src/mcp_server/server.py:190-196 | the update data holds exactly the updatable keywords that were given and are not None, with their values |
| Server.RegisteredToolRuns | backend/src/mcp_server/server.py:345-346 | a registered tool whose keywords bind, in a session that opens, makes exactly its own body's store requests |
| Server.RegisteredToolAnswers | backend/src/mcp_server/server.py:345-346 | with a session that opens and closes, the server answers exactly what the tool body answers |
| Server.NoSessionNoRun | backend/src/mcp_server/server.py:276-286 | without a database session no tool body runs: nothing reaches the store and the run fails |
| Server.FailureIsKnown | backend/src/mcp_server/server.py:336-352 | every failure message is "Unknown tool", "Error executing tool <name>", a tool's own failure message, or "Task not found or unauthorized" |
| Server.NotFoundOnlyWhenStoreFindsNothing | backend/src/mcp_server/server.py:253-256 | a failure message contains "not found" in any case exactly when it is delete_task's "Task not found or unauthorized" |
| ChatRoutes.AddGroups | backend/src/api/chat_routes.py:266-270 | `groups()` has seven entries, and indices 5 and 6 are the second alternative's title and noun (None for the first alternative) |
| ChatRoutes.AddTitleByAlternative | backend/src/api/chat_routes.py:266-272 | the first alternative never yields a title; the second yields its title, or failing that its noun |
| ChatRoutes.CleanTitle | backend/src/api/chat_routes.py:273 | the cleaned title is the stripped text up to, not including, its first full stop: a prefix of it with no full stop, followed in it by a full stop when shorter |
| ChatRoutes.AddFirstAlternativeAsksClarification | backend/src/api/chat_routes.py:264-290 | a message matched by "add a task to ..." gets the request for clarification and reaches no tool |
| ChatRoutes.AddSecondAlternativeCreates | backend/src/api/chat_routes.py:271-284 | "add X task" creates X (up to its first full stop) with description "" and priority "medium"; when the store creates it, the reply is the tool's confirmation with one add_task call of that title whose record shows the created task; when the store raises, the reply is "Sorry, I couldn't add that task: Failed to add task" with no call |
| ChatRoutes.StatusFilter | backend/src/api/chat_routes.py:295-299 | "pending" exactly when the message says pending or incomplete; "completed" exactly when it says neither but says completed or done; "all" otherwise |
| ChatRoutes.Shown | backend/src/api/chat_routes.py:309 | exactly five tasks are shown when there are more than five, all of them otherwise |
| ChatRoutes.BuildListing | backend/src/api/chat_routes.py:303-315 | the loop builds exactly the listing text `ListingText` specifies |
| ChatRoutes.ListingText | backend/src/api/chat_routes.py:303-315 | the listing text as a function of the tasks; its content is stated by `ListingShowsFirstFive` and `EntriesShowEach` |
| ChatRoutes.EntriesShowEach | backend/src/api/chat_routes.py:309-312 | each listed task has its own numbered line |
| ChatRoutes.ListingShowsFirstFive | backend/src/api/chat_routes.py:303-315 | a non-empty listing is the header followed by the numbered lines of the first five tasks, in order, and ends with the count of tasks not shown |
| ChatRoutes.FirstIndex | backend/src/api/chat_routes.py:335-338 | the index found satisfies the test and no earlier task does; -1 only when no task does |
| ChatRoutes.FindFirst | backend/src/api/chat_routes.py:335-338 | the loop stops at the first task that passes the test, as `First` specifies |
| ChatRoutes.PickTaskFound | backend/src/api/chat_routes.py:333-342 | complete and delete pick a task exactly when the listing is non-empty, and the pick is one of the listed tasks |
| ChatRoutes.PickTaskChoice | backend/src/api/chat_routes.py:333-342 | the pick is the first task sharing a word with the message when there is one, else the first task |
| ChatRoutes.PickTask | backend/src/api/chat_routes.py:333-342 | the pick for complete and delete as a function of the listing; its behaviour is stated by `PickTaskFound` and `PickTaskChoice` |
| ChatRoutes.UpdateTargetChoice | backend/src/api/chat_routes.py:377-392 | update picks the first task containing the pattern's name when it gave one and some task contains it; otherwise the first task sharing a word with the message, and none when no task does |
| ChatRoutes.UpdateTarget | backend/src/api/chat_routes.py:377-392 | the update target as a function of the listing; its behaviour is stated by `UpdateTargetChoice` |
| ChatRoutes.NewTitleSource | backend/src/api/chat_routes.py:394-408 | when the stripped capture contains "to", the new title is the stripped text after its first "to"; with no capture, or none containing "to" as written, the title is kept |
| ChatRoutes.NewTitle | backend/src/api/chat_routes.py:394-408 | the new title as a function of the captures; its behaviour is stated by `NewTitleSource` |
| ChatRoutes.TitleAfterFirstTo | backend/src/api/chat_routes.py:402-408 | "to" found in the lowered text but split on the text as written: when the text as written contains "to", the title is the stripped text after its first "to"; otherwise the title is kept |
| ChatRoutes.HandleAdd | backend/src/api/chat_routes.py:264-290 | the add branch against the shared server answers as `AddTurn` |
| ChatRoutes.HandleList | backend/src/api/chat_routes.py:293-325 | the list branch against the shared server answers as `ListTurn` |
| ChatRoutes.HandleComplete | backend/src/api/chat_routes.py:328-365 | the complete branch against the shared server answers as `CompleteTurn` |
| ChatRoutes.HandleUpdate | backend/src/api/chat_routes.py:368-435 | the update branch against the shared server answers as `UpdateTurn` |
| ChatRoutes.HandleDelete | backend/src/api/chat_routes.py:438-474 | the delete branch against the shared server answers as `DeleteTurn` |
| ChatRoutes.AddTurn | backend/src/api/chat_routes.py:264-290 | the add branch as a function; its behaviour is stated by `AddFirstAlternativeAsksClarification` and `AddSecondAlternativeCreates` |
| ChatRoutes.ListTurn | backend/src/api/chat_routes.py:293-325 | the list branch as a function; its behaviour is stated by `ListReplyFollowsStore` |
| ChatRoutes.CompleteTurn | backend/src/api/chat_routes.py:328-365 | the complete branch as a function; its behaviour is stated by `CompleteActsOnPendingTask` |
| ChatRoutes.UpdateTurn | backend/src/api/chat_routes.py:368-435 | the update branch as a function; its behaviour is stated by `UpdateRenamesTarget` |
| ChatRoutes.DeleteTurn | backend/src/api/chat_routes.py:438-474 | the delete branch as a function; its behaviour is stated by `DeleteActsOnListedTask` |
| ChatRoutes.Respond | backend/src/api/chat_routes.py:245-481 | the handler as a function; its behaviour is stated by `AtMostOneToolCall`, `UnmatchedMessageEchoed` and the per-branch lemmas |
| ChatRoutes.ProcessUserMessage | backend/src/api/chat_routes.py:245-481 | the handler answers as `Respond`: the first matching pattern decides |
| ChatRoutes.AtMostOneToolCall | backend/src/api/chat_routes.py:245-481 | a reply reports at most one tool call, only a successful one, and only of the tool the first matching pattern calls for; outside listing, the reply is that tool's message |
| ChatRoutes.UnmatchedMessageEchoed | backend/src/api/chat_routes.py:476-481 | a message no pattern matches is quoted back, with no tool call and no store request |
| ChatRoutes.AddDispatch | backend/src/api/chat_routes.py:274 | the add call runs add_task with the defaults "" and "medium" |
| ChatRoutes.ListDispatch | backend/src/api/chat_routes.py:301 | the list call runs list_tasks on the user and the chosen status |
| ChatRoutes.CompleteDispatch | backend/src/api/chat_routes.py:345 | the complete call runs complete_task on the user and the picked id |
| ChatRoutes.UpdateDispatch | backend/src/api/chat_routes.py:410 | the update call runs update_task with only a new title |
| ChatRoutes.DeleteDispatch | backend/src/api/chat_routes.py:454 | the delete call runs delete_task on the user and the picked id |
| ChatRoutes.TitleOnlyUpdateCalls | backend/src/api/chat_routes.py:410 | that update sends the store only the title |
| ChatRoutes.ListAnswerFollowsStore | backend/src/api/chat_routes.py:301-325 | a listing shows what the store returns, reported as one list_tasks call; a store failure yields the apology "Failed to list tasks" |
| ChatRoutes.ListReplyFollowsStore | backend/src/api/chat_routes.py:293-325 | a list message asks the store for the status the message names and replies with the listing of what comes back |
| ChatRoutes.CompleteAnswerActs | backend/src/api/chat_routes.py:331-365 | with pending tasks, the store is asked for them and then to mark the picked one completed; the reply confirms with the stored task's own title and one complete_task call exactly when the store hands that task back, else apologises "Failed to complete task"; with none, it says so and makes no further request |
| ChatRoutes.CompleteActsOnPendingTask | backend/src/api/chat_routes.py:328-365 | a complete message asks the store for the pending tasks and marks the picked one completed, confirming exactly when the store hands the task back and apologising otherwise; with none pending it says so and changes nothing |
| ChatRoutes.DeleteAnswerActs | backend/src/api/chat_routes.py:440-474 | with tasks, the store is asked for them and then to delete the picked one; the reply is "Task deleted successfully" with one delete_task call of that task's id when the store deletes it, "Sorry, I couldn't delete that task: Task not found or unauthorized" when it answers False, and "…: Failed to delete task" when it raises; with none, the reply says so |
| ChatRoutes.DeleteActsOnListedTask | backend/src/api/chat_routes.py:438-474 | a delete message asks the store for all tasks and deletes the picked one, replying with the confirmation and one delete_task call, the "not found" apology or the "Failed to delete task" apology as the store answers; with none it says so |
| ChatRoutes.UpdateAnswerRenames | backend/src/api/chat_routes.py:370-435 | with tasks and a target, the store gets one update holding only the new title and the reply confirms with the stored title exactly when the store hands the task back, else apologises "Failed to update task"; without a target it asks which task, without tasks it says there are none, and neither changes anything |
| ChatRoutes.UpdateWithoutTasks | backend/src/api/chat_routes.py:431-435 | when the store lists no task or fails, update says there are none to update, after the one listing request |
| ChatRoutes.UpdateRenamesTarget | backend/src/api/chat_routes.py:368-435 | an update message renames the task it names to the new title, confirming exactly when the store hands the task back; it asks which task when none can be identified, and says there are none when the store lists none |
| ChatRoutes.CompleteOutage | backend/src/api/chat_routes.py:331-365 | without a database session, completing reads as "no pending tasks" |
| ChatRoutes.UpdateOutage | backend/src/api/chat_routes.py:370-435 | without a database session, updating reads as "no tasks to update" |
| ChatRoutes.DeleteOutage | backend/src/api/chat_routes.py:440-474 | without a database session, deleting reads as "no tasks to delete" |
| ChatRoutes.OutageMakesNoRequests | backend/src/api/chat_routes.py:245-481 | without a database session, no turn reaches the store or reports a tool call |
| ChatRoutes.OutageReadsAsNoTasks | backend/src/api/chat_routes.py:328-481 | without a database session, complete, update and delete answer that there are no tasks, and unmatched messages are still echoed |
| ChatRoutes.EndpointReportsOnlyIntended | backend/src/api/chat_routes.py:76-90 | whether processing returns or raises, the endpoint reports at most one successful tool call, of the intended tool |
| ChatRoutes.EndpointReply | backend/src/api/chat_routes.py:77-90 | the endpoint's reply when processing returns or raises; its behaviour is stated by `EndpointReportsOnlyIntended` |
| McpRoutes.ListMcpTools | backend/src/api/mcp_routes.py:11-21 | the count is the number of names, and a name is listed exactly when the server can run it |
| McpRoutes.CatalogOfRegistry | backend/src/api/mcp_routes.py:11-21 | the server built at start-up lists the five task tools, count 5 |
| McpRoutes.ToolParams | backend/src/api/mcp_routes.py:48 | the tool parameters are the request's parameters except `user_id` |
| McpRoutes.ExecuteMcpTool | backend/src/api/mcp_routes.py:24-57 | the route against the server object answers as `McpAnswer` |
| McpRoutes.McpAnswer | backend/src/api/mcp_routes.py:24-57 | the route as a function of the request and the server; its behaviour is stated by `MissingUserRejected`, `AcceptedRunsTool`, `StatusesOfRoute`, `OkExactlyOnSuccess` and `FailureDetail` |
| McpRoutes.Answer | backend/src/api/mcp_routes.py:53-57 | the answer to a tool result; its behaviour is stated by `OkExactlyOnSuccess`, `FailureDetail`, `NotFoundExactlyWhenStoreFindsNothing` and `UnknownToolIsBadRequest` |
| McpRoutes.ParamsReassembled | backend/src/api/mcp_routes.py:47-51 | removing `user_id` and passing it back as a keyword gives the tool the request's parameters unchanged |
| McpRoutes.AcceptedRunsTool | backend/src/api/mcp_routes.py:34-51 | a request with a non-empty string `user_id`, UUID or not, runs the named tool on exactly its parameters |
| McpRoutes.MissingUserRejected | backend/src/api/mcp_routes.py:35-37 | a missing or falsy `user_id` gets 400 "user_id is required" and runs nothing |
| McpRoutes.StatusesOfRoute | backend/src/api/mcp_routes.py:34-57 | an answer is 200 with a successful record or an error of status 400, 404 or 500; 500 only for a non-string `user_id` or a clashing keyword, and then nothing reaches the store |
| McpRoutes.OkExactlyOnSuccess | backend/src/api/mcp_routes.py:53-57 | an accepted request answers 200 exactly when the tool succeeds, with the tool's own record and store requests |
| McpRoutes.NotFoundExactlyWhenStoreFindsNothing | backend/src/api/mcp_routes.py:53-55 | an accepted request answers 404 exactly when delete_task's store found nothing to delete |
| McpRoutes.FailureDetail | backend/src/api/mcp_routes.py:53-55 | an accepted request whose tool fails is answered with the tool's own message as the detail, status 404 when that message mentions "not found" in any case and 400 otherwise |
| McpRoutes.UnknownToolIsBadRequest | backend/src/api/mcp_routes.py:53-55 | an unknown tool name answers 400 "Unknown tool", not 404, and reaches no store |

## Left out

- Regular-expression matching is an oracle. The model does not decide which messages each pattern matches. It does decide what the code does with the groups it reads and in which order it tries the patterns.
- UUID parsing and the `uuid5` fallback are one oracle from text to id. Timestamps are opaque stamps.
- The `error` key of failed tool results is dropped, because no caller reads it. Only `success` and `message` are modelled.
- `str.lower()` is modelled on ASCII letters only. Unicode case mapping is out of scope.
- The database (`TaskService`, sessions, commits) is out of scope. Each store operation is an oracle that may return or raise. Opening and closing a session are each one boolean that holds for the whole turn.
- `chat_endpoint` itself is out of scope: conversations, storing messages, the response's timestamp, and the handler's unused `task_service` parameter. Only its fallback reply when processing raises is modelled (`EndpointReply`).
- The session that `execute_mcp_tool` receives through `Depends(get_session)` is unused. Whether creating it can fail depends on `backend/src/services/database.py`, which is not part of this model.
- ChatRoutes.UpdateTarget: the `else` branch of `if update_match:` (chat_routes.py:426-430) is not modelled as a separate case. The same pattern has just matched on the same text, so that branch cannot be reached.
- Tools.Value: JSON floating-point numbers, arrays and objects are not modelled, only strings, integers, booleans and null. So the model does not cover a falsy `0.0` or `[]` user_id (400), a list or dict user_id raising in `uuid.UUID` (500), or a float title formatted into a message.
- Other HTTP errors from FastAPI, such as request validation and a body that is not a JSON object, are out of scope.
- `huggingface_app.py` and the web frontend are not part of this model.
