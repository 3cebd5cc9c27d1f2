// `process_user_message_with_ai` (backend/src/api/chat_routes.py): a rule-based
// stand-in for an AI agent. It tries five regular expressions in a fixed order,
// asks the tool server for what the first matching one calls for, and words a
// reply. The regular expressions themselves are an oracle (`Regexes`): the model
// fixes what the code does with each match, not how the match is found.

module ChatRoutes {
  import opened Optional
  import opened PyText
  import opened Tools
  import opened Server

  // ---- the regular-expression oracle ------------------------------------------

  /** A match of the add_task pattern, by the alternative that matched:
      `(add|create|make|new)\s+(a\s+)?(task|todo|to-do|item)\s+(to|for|about|that|which)\s+(.+?)`
      or `(?:add|create|make|new)\s+(.+?)\s+(?:as\s+a\s+)?(task|todo|to-do)`. */
  datatype AddMatch =
    | AddFirst(verb: string, article: Option<string>, noun: string, preposition: string, subject: string)
    | AddSecond(title: string, noun: string)

  /** The groups of an update_task match that the code reads: group 4 (the
      "task"/"todo" word of `change\s+(task|todo)\s*(\d+|\w+)`) and group 5 (the
      word after it); both are `None` unless that second alternative matched. */
  datatype UpdateMatch = UpdateMatch(group4: Option<string>, group5: Option<string>)

  /** The outcome of each `re.search(..., re.IGNORECASE)` the code performs on a message. */
  datatype Regexes = Regexes(
    addTask: string -> Option<AddMatch>,
    listTasks: string -> bool,
    completeTask: string -> bool,
    updateTask: string -> Option<UpdateMatch>,
    // group 2 of `(update|change|modify|edit)\s+<escaped title>\s+to\s+(.+)`
    renameTo: (string, string) -> Option<string>,
    // group 2 of `(update|change|modify|edit)\s+(.+)`
    renameAny: string -> Option<string>,
    deleteTask: string -> bool)

  /** Python truthiness of an optional group: present and not empty. */
  predicate Given(g: Option<string>) {
    g.Some? && g.value != ""
  }

  /** `add_match.groups()`: one entry per capturing group, seven in all, `None`
      for the groups of the alternative that did not match. */
  function AddGroups(m: AddMatch): (g: seq<Option<string>>)
    ensures |g| == 7
    ensures m.AddFirst? ==> g[5] == None && g[6] == None
    ensures m.AddSecond? ==> g[5] == Some(m.title) && g[6] == Some(m.noun)
  {
    match m
    case AddFirst(verb, article, noun, preposition, subject) =>
      [Some(verb), article, Some(noun), Some(preposition), Some(subject), None, None]
    case AddSecond(title, noun) => [None, None, None, None, None, Some(title), Some(noun)]
  }

  /** `title_groups[5] if title_groups[5] else title_groups[6]`, kept when truthy. */
  function AddTitle(m: AddMatch): Option<string> {
    var g := AddGroups(m);
    var t := if Given(g[5]) then g[5] else g[6];
    if Given(t) then Some(t.value) else None
  }

  /** Read by alternative: the first alternative never yields a title (indices 5
      and 6 of `groups()` are groups 6 and 7, both of the second alternative); the
      second yields its title, or failing that its "task"/"todo" word. */
  lemma AddTitleByAlternative(m: AddMatch)
    ensures m.AddFirst? ==> AddTitle(m) == None
    ensures m.AddSecond? && m.title != "" ==> AddTitle(m) == Some(m.title)
    ensures m.AddSecond? && m.title == "" ==> AddTitle(m) == (if m.noun != "" then Some(m.noun) else None)
  {
  }

  /** `title.strip().split('.')[0]`: the stripped title up to its first full stop. */
  function CleanTitle(raw: string): (title: string)
    ensures title <= Strip(raw) && '.' !in title
    ensures |title| < |Strip(raw)| ==> Strip(raw)[|title|] == '.'
  {
    BeforeFirst(Strip(raw), '.')
  }

  // ---- list_tasks: the status filter and the listing text --------------------

  /** The status asked for, from the lowered, stripped message. */
  function StatusFilter(lowered: string): (status: string)
    ensures status == "pending" <==> Contains(lowered, "pending") || Contains(lowered, "incomplete")
    ensures status == "completed" <==>
              !Contains(lowered, "pending") && !Contains(lowered, "incomplete")
              && (Contains(lowered, "completed") || Contains(lowered, "done"))
    ensures status == "all" || status == "pending" || status == "completed"
  {
    if Contains(lowered, "pending") || Contains(lowered, "incomplete") then "pending"
    else if Contains(lowered, "completed") || Contains(lowered, "done") then "completed"
    else "all"
  }

  /** `f"{status} " if status != "all" else ""`. */
  function StatusText(status: string): string {
    if status != "all" then status + " " else ""
  }

  /** The line for the `i`-th task shown (counting from 1). */
  function Entry(i: nat, t: TaskRecord): string {
    "\n" + NatText(i) + ". " + (if t.completed then "✓" else "○") + " " + t.title
    + (if t.priority != "medium" then " (" + t.priority + " priority)" else "")
  }

  /** The lines for the tasks `ts`, numbered from 1 in order. */
  function Entries(ts: seq<TaskRecord>): string {
    if ts == [] then "" else Entries(ts[..|ts| - 1]) + Entry(|ts|, ts[|ts| - 1])
  }

  /** How many tasks the listing shows: the first five at most. */
  function Shown(n: nat): (k: nat)
    ensures k <= n && k <= 5 && (n <= 5 ==> k == n) && (n > 5 ==> k == 5)
  {
    if n <= 5 then n else 5
  }

  /** The first line of a non-empty listing. */
  function Header(status: string): string {
    "Here are your " + StatusText(status) + "tasks:\n"
  }

  /** The closing line telling how many tasks were not shown. */
  function Tail(n: nat): string {
    if n > 5 then "\n\n... and " + NatText(n - 5) + " more tasks." else ""
  }

  /** The reply to a successful listing. */
  function ListingText(status: string, count: nat, tasks: seq<TaskRecord>): string {
    if count == 0 then "You don't have any " + StatusText(status) + "tasks right now."
    else Header(status) + Entries(tasks[..Shown(|tasks|)]) + Tail(|tasks|)
  }

  /** The listing text, built by appending one line per shown task. */
  method BuildListing(status: string, count: nat, tasks: seq<TaskRecord>) returns (response: string)
    ensures response == ListingText(status, count, tasks)
  {
    if count == 0 {
      return "You don't have any " + StatusText(status) + "tasks right now.";
    }
    var entries := "";
    var n := Shown(|tasks|);
    for i := 0 to n
      invariant entries == Entries(tasks[..i])
    {
      EntriesStep(tasks, i);
      entries := entries + Entry(i + 1, tasks[i]);
    }
    response := Header(status) + entries + Tail(|tasks|);
  }

  lemma EntriesStep(ts: seq<TaskRecord>, i: nat)
    requires i < |ts|
    ensures Entries(ts[..i + 1]) == Entries(ts[..i]) + Entry(i + 1, ts[i])
  {
    assert ts[..i + 1][..i] == ts[..i];
  }

  /** Every task of `ts` has its own line among the entries, under its number. */
  lemma {:induction false} EntriesShowEach(ts: seq<TaskRecord>)
    ensures forall i :: 0 <= i < |ts| ==> Contains(Entries(ts), Entry(i + 1, ts[i]))
    decreases |ts|
  {
    if ts != [] {
      var init := ts[..|ts| - 1];
      EntriesShowEach(init);
      forall i | 0 <= i < |ts| ensures Contains(Entries(ts), Entry(i + 1, ts[i])) {
        if i < |ts| - 1 {
          assert init[i] == ts[i];
          assert Entries(ts)[..|Entries(init)|] == Entries(init);
          ContainsInPrefix(Entries(ts), |Entries(init)|, Entry(i + 1, ts[i]));
        } else {
          ContainsMiddle(Entries(init), Entry(i + 1, ts[i]), "");
          assert Entries(init) + Entry(i + 1, ts[i]) + "" == Entries(ts);
        }
      }
    }
  }

  /** The lines for a prefix of the tasks begin the lines for a longer prefix. */
  lemma {:induction false} EntriesPrefix(ts: seq<TaskRecord>, i: nat, j: nat)
    requires i <= j <= |ts|
    ensures Entries(ts[..i]) <= Entries(ts[..j])
    decreases j - i
  {
    if i < j {
      var k := j - 1;
      EntriesPrefix(ts, i, k);
      EntriesStep(ts, k);
      PrefixExtends(Entries(ts[..i]), Entries(ts[..k]), Entry(k + 1, ts[k]));
    }
  }

  lemma PrefixExtends(a: string, c: string, e: string)
    requires a <= c
    ensures a <= c + e
  {
    assert (c + e)[..|a|] == c[..|a|];
  }

  /** A non-empty listing opens with the header followed by the lines of the
      first five tasks in order, has a line for each of them, and closes with
      the count of tasks not shown (nothing when all are shown). */
  lemma ListingShowsFirstFive(status: string, count: nat, tasks: seq<TaskRecord>)
    requires count > 0
    ensures forall i :: 0 <= i <= Shown(|tasks|) ==> Header(status) + Entries(tasks[..i]) <= ListingText(status, count, tasks)
    ensures forall i :: 0 <= i < Shown(|tasks|) ==> Contains(ListingText(status, count, tasks), Entry(i + 1, tasks[i]))
    ensures var text := ListingText(status, count, tasks);
            |Tail(|tasks|)| <= |text| && text[|text| - |Tail(|tasks|)|..] == Tail(|tasks|)
  {
    var n := Shown(|tasks|);
    var shown := tasks[..n];
    var text := ListingText(status, count, tasks);
    assert text == Header(status) + Entries(shown) + Tail(|tasks|);
    forall i | 0 <= i <= n ensures Header(status) + Entries(tasks[..i]) <= text {
      EntriesPrefix(tasks, i, n);
    }
    EntriesShowEach(shown);
    forall i | 0 <= i < n ensures Contains(text, Entry(i + 1, tasks[i])) {
      assert shown[i] == tasks[i];
      ContainsInside(Header(status), Entries(shown), Tail(|tasks|), Entry(i + 1, tasks[i]));
    }
  }

  // ---- picking a task --------------------------------------------------------

  /** The position of the first task satisfying `p`, or -1. */
  function FirstIndex(ts: seq<TaskRecord>, p: TaskRecord -> bool): (i: int)
    ensures -1 <= i < |ts|
    ensures i >= 0 ==> p(ts[i]) && forall j :: 0 <= j < i ==> !p(ts[j])
    ensures i < 0 ==> forall j :: 0 <= j < |ts| ==> !p(ts[j])
  {
    if ts == [] then -1
    else if p(ts[0]) then 0
    else
      var k := FirstIndex(ts[1..], p);
      assert forall j :: 1 <= j < |ts| ==> ts[j] == ts[1..][j - 1];
      if k < 0 then -1 else k + 1
  }

  /** The first task satisfying `p` (the `for task in ...: if ...: break` loops). */
  function First(ts: seq<TaskRecord>, p: TaskRecord -> bool): Option<TaskRecord> {
    var i := FirstIndex(ts, p);
    if i < 0 then None else Some(ts[i])
  }

  /** The search loop, stopping at the first task satisfying `p`. */
  method FindFirst(ts: seq<TaskRecord>, p: TaskRecord -> bool) returns (found: Option<TaskRecord>)
    ensures found == First(ts, p)
  {
    for i := 0 to |ts|
      invariant forall j :: 0 <= j < i ==> !p(ts[j])
    {
      if p(ts[i]) {
        return Some(ts[i]);
      }
    }
    return None;
  }

  /** `any(keyword in user_message.lower() for keyword in task['title'].lower().split())`. */
  predicate KeywordHit(message: string, t: TaskRecord) {
    exists w :: w in Words(Lower(t.title)) && Contains(Lower(message), w)
  }

  /** `task_name_from_pattern.lower() in task['title'].lower()`. */
  predicate NameHit(name: string, t: TaskRecord) {
    Contains(Lower(t.title), Lower(name))
  }

  /** The task complete and delete act on: the first whose title shares a word
      with the message, else the first task. */
  function PickTask(message: string, ts: seq<TaskRecord>): Option<TaskRecord> {
    match First(ts, t => KeywordHit(message, t))
    case Some(t) => Some(t)
    case None => if |ts| > 0 then Some(ts[0]) else None
  }

  /** The pick exists whenever there is a task, and it is a task of the list. */
  lemma PickTaskFound(message: string, ts: seq<TaskRecord>)
    ensures PickTask(message, ts).Some? <==> |ts| > 0
    ensures PickTask(message, ts).Some? ==> PickTask(message, ts).value in ts
  {
  }

  /** The pick is the first keyword match when there is one, and the first task otherwise. */
  lemma PickTaskChoice(message: string, ts: seq<TaskRecord>)
    ensures (exists i :: 0 <= i < |ts| && KeywordHit(message, ts[i])) ==>
              var i := FirstIndex(ts, t => KeywordHit(message, t));
              0 <= i && PickTask(message, ts) == Some(ts[i]) && KeywordHit(message, ts[i])
    ensures (forall i :: 0 <= i < |ts| ==> !KeywordHit(message, ts[i])) && |ts| > 0 ==>
              PickTask(message, ts) == Some(ts[0])
  {
  }

  /** The group update_task reads as a task name: group 4 when truthy, else group 5. */
  function PatternName(m: UpdateMatch): Option<string> {
    if Given(m.group4) then m.group4 else m.group5
  }

  /** The task update acts on: the first whose title contains the name taken
      from the pattern, else the first sharing a word with the message; no
      fall-back to the first task. */
  function UpdateTarget(message: string, name: Option<string>, ts: seq<TaskRecord>): Option<TaskRecord> {
    var byName := if Given(name) then First(ts, t => NameHit(name.value, t)) else None;
    if byName.Some? then byName else First(ts, t => KeywordHit(message, t))
  }

  /** The update target is the first task containing the given name when the
      pattern gave one and some task contains it; otherwise the first task
      sharing a word with the message, and none when no task does. */
  lemma UpdateTargetChoice(message: string, name: Option<string>, ts: seq<TaskRecord>)
    ensures Given(name) && (exists i :: 0 <= i < |ts| && NameHit(name.value, ts[i])) ==>
              var i := FirstIndex(ts, t => NameHit(name.value, t));
              0 <= i && UpdateTarget(message, name, ts) == Some(ts[i]) && NameHit(name.value, ts[i])
    ensures (!Given(name) || forall i :: 0 <= i < |ts| ==> !NameHit(name.value, ts[i])) ==>
              && ((exists i :: 0 <= i < |ts| && KeywordHit(message, ts[i])) ==>
                    var i := FirstIndex(ts, t => KeywordHit(message, t));
                    0 <= i && UpdateTarget(message, name, ts) == Some(ts[i]) && KeywordHit(message, ts[i]))
              && ((forall i :: 0 <= i < |ts| ==> !KeywordHit(message, ts[i])) ==> UpdateTarget(message, name, ts) == None)
  {
  }

  // ---- update_task: the new title --------------------------------------------

  /** The text after the verb that the rename searches capture, if any. */
  function RenameCapture(rx: Regexes, message: string, current: string): Option<string> {
    if rx.renameTo(message, current).Some? then rx.renameTo(message, current) else rx.renameAny(message)
  }

  /** The new title: when the captured text, stripped, contains "to" in any case,
      the stripped text after its first literal "to"; otherwise the current title. */
  function NewTitle(rx: Regexes, message: string, current: string): string {
    var capture := RenameCapture(rx, message, current);
    if Given(capture) then TitleAfterTo(Strip(capture.value), current) else current
  }

  /** The title taken from the stripped capture `extracted`: the test for "to"
      is on the lowered text, the split on the text as written. */
  function TitleAfterTo(extracted: string, current: string): string {
    if Contains(Lower(extracted), "to") then
      match AfterFirst(extracted, "to")
      case Some(after) => Strip(after)
      case None => current
    else current
  }

  /** When the stripped capture contains a lower-case "to", the new title is
      the stripped text after its first "to"; with no capture, or a capture
      without a lower-case "to" (even one with "TO"), the title is kept. */
  lemma NewTitleSource(rx: Regexes, message: string, current: string)
    ensures var capture := RenameCapture(rx, message, current);
            var title := NewTitle(rx, message, current);
            && (Given(capture) && Contains(Strip(capture.value), "to") ==>
                  AfterFirst(Strip(capture.value), "to").Some?
                  && title == Strip(AfterFirst(Strip(capture.value), "to").value))
            && (!Given(capture) || !Contains(Strip(capture.value), "to") ==> title == current)
  {
    var capture := RenameCapture(rx, message, current);
    if Given(capture) {
      TitleAfterFirstTo(Strip(capture.value), current);
    }
  }

  lemma TitleAfterFirstTo(extracted: string, current: string)
    ensures Contains(extracted, "to") ==>
              AfterFirst(extracted, "to").Some? && TitleAfterTo(extracted, current) == Strip(AfterFirst(extracted, "to").value)
    ensures !Contains(extracted, "to") ==> TitleAfterTo(extracted, current) == current
  {
    if Contains(extracted, "to") {
      ContainsLowered(extracted, "to");
    }
  }

  // ---- the reply -------------------------------------------------------------

  /** One entry of `tool_calls`: the tool's name, the arguments worth showing, its result. */
  datatype ToolCall = ToolCall(name: string, arguments: map<string, string>, result: ToolResult)

  /** The dictionary returned to the chat endpoint. */
  datatype ChatReply = ChatReply(response: string, toolCalls: seq<ToolCall>)

  /** A reply together with the store requests made while producing it, in order. */
  datatype Turn = Turn(reply: ChatReply, calls: seq<StoreCall>)

  /** A reply without tool calls. */
  function Say(response: string): ChatReply {
    ChatReply(response, [])
  }

  const AddClarification := "I'd be happy to help you add a task. Could you please tell me what task you'd like to add?"

  /** The reply to a message no pattern matches: it quotes the message. */
  function Echo(message: string): string {
    "I received your message: '" + message
    + "'. I'm an AI assistant for managing your tasks. You can ask me to add, view, update, complete, or delete tasks."
  }

  /** A tool run's outcome worded as the reply: its message and one tool call
      on success, an apology naming the failure otherwise. */
  function Report(name: string, arguments: map<string, string>, run: ToolRun, apology: string): ChatReply {
    if run.result.Success() then ChatReply(run.result.Message(), [ToolCall(name, arguments, run.result)])
    else Say(apology + run.result.Message())
  }

  /** The reply to a tool that changes a task, given what the store answered:
      when the store hands back the changed task, the tool's own message
      "Task '<title>" + `done`, and one call of `name` with `arguments` showing
      that task; otherwise `apology` and no call. */
  predicate ChangedReply(r: ChatReply, name: string, arguments: map<string, string>,
                         stored: Reply<Option<StoredTask>>, done: string, apology: string) {
    && (r.toolCalls != [] <==> stored.Returned? && stored.value.Some?)
    && (r.toolCalls != [] ==>
          && r.response == "Task '" + stored.value.value.title + done
          && r.toolCalls == [ToolCall(name, arguments, r.toolCalls[0].result)]
          && r.toolCalls[0].result.Changed? && Mirrors(r.toolCalls[0].result.task, stored.value.value))
    && (r.toolCalls == [] ==> r == Say(apology))
  }

  /** The reply to add_task for `title`, given what the store answered: when
      the store creates the task, the tool's confirmation and one add_task call
      whose record shows the created task; otherwise the apology. */
  predicate AddedReply(r: ChatReply, title: string, created: Reply<StoredTask>) {
    && (r.toolCalls != [] <==> created.Returned?)
    && (created.Returned? ==>
          && r.response == "Task '" + title + "' added successfully"
          && r.toolCalls == [ToolCall("add_task", map["title" := title], r.toolCalls[0].result)]
          && r.toolCalls[0].result.Added? && r.toolCalls[0].result.taskId == created.value.taskId.text
          && Mirrors(r.toolCalls[0].result.task, created.value))
    && (!created.Returned? ==> r == Say("Sorry, I couldn't add that task: " + "Failed to add task"))
  }

  /** The reply to delete_task on the task shown as `id`, given what the store
      answered: the confirmation and one delete_task call when it deleted the
      task, and an apology naming the failure when it answered False or raised. */
  predicate DeletedReply(r: ChatReply, id: string, deleted: Reply<bool>) {
    && (r.toolCalls != [] <==> deleted == Returned(true))
    && (deleted == Returned(true) ==>
          r == ChatReply("Task deleted successfully",
                         [ToolCall("delete_task", map["task_id" := id], Removed("Task deleted successfully"))]))
    && (deleted == Returned(false) ==> r == Say("Sorry, I couldn't delete that task: " + "Task not found or unauthorized"))
    && (deleted.Raised? ==> r == Say("Sorry, I couldn't delete that task: " + "Failed to delete task"))
  }

  lemma ReportChanged(name: string, arguments: map<string, string>, run: ToolRun,
                      stored: Reply<Option<StoredTask>>, done: string, apology: string, failure: string)
    requires run.result.Success() <==> stored.Returned? && stored.value.Some?
    requires run.result.Success() ==>
               && run.result.Changed?
               && run.result == Changed("Task '" + stored.value.value.title + done, run.result.task)
               && Mirrors(run.result.task, stored.value.value)
    requires !run.result.Success() ==> run.result == Failed(failure)
    ensures ChangedReply(Report(name, arguments, run, apology), name, arguments, stored, done, apology + failure)
  {
  }

  /** The reply to an add_task run for `title`. */
  function AddAnswer(title: string, run: ToolRun): Turn {
    Turn(Report("add_task", map["title" := title], run, "Sorry, I couldn't add that task: "), run.calls)
  }

  function AddTurn(userId: string, m: AddMatch, b: Backend): Turn {
    match AddTitle(m)
    case None => Turn(Say(AddClarification), [])
    case Some(raw) =>
      var title := CleanTitle(raw);
      AddAnswer(title, Dispatch(Registry, "add_task", map["user_id" := Str(userId), "title" := Str(title)], b))
  }

  /** The reply to a list_tasks run for `status`. */
  function ListAnswer(status: string, run: ToolRun): Turn {
    match run.result
    case Listed(count, tasks) =>
      Turn(ChatReply(ListingText(status, count, tasks), [ToolCall("list_tasks", map["status" := status], run.result)]), run.calls)
    case _ => Turn(Say("Sorry, I couldn't retrieve your tasks: " + run.result.Message()), run.calls)
  }

  function ListTurn(userId: string, message: string, b: Backend): Turn {
    var status := StatusFilter(Strip(Lower(message)));
    ListAnswer(status, Dispatch(Registry, "list_tasks", map["user_id" := Str(userId), "status" := Str(status)], b))
  }

  /** The reply once tool `name` has run on the task `id` picked from `listing`. */
  function Acted(name: string, id: string, listing: ToolRun, run: ToolRun, apology: string): Turn {
    Turn(Report(name, map["task_id" := id], run, apology), listing.calls + run.calls)
  }

  /** What complete does with the listing of pending tasks. */
  function CompleteAnswer(userId: string, message: string, listing: ToolRun, b: Backend): Turn {
    if listing.result.Listed? && listing.result.count > 0 then
      match PickTask(message, listing.result.tasks)
      case None =>
        Turn(Say("I couldn't identify which task you want to complete. Could you please specify the task?"), listing.calls)
      case Some(t) =>
        Acted("complete_task", t.id, listing,
              Dispatch(Registry, "complete_task", map["user_id" := Str(userId), "task_id" := Str(t.id)], b),
              "Sorry, I couldn't complete that task: ")
    else Turn(Say("You don't have any pending tasks to complete."), listing.calls)
  }

  function CompleteTurn(userId: string, message: string, b: Backend): Turn {
    CompleteAnswer(userId, message, Dispatch(Registry, "list_tasks", map["user_id" := Str(userId), "status" := Str("pending")], b), b)
  }

  /** The reply once update_task has run on `t` with `title`. */
  function Updated(t: TaskRecord, title: string, listing: ToolRun, run: ToolRun): Turn {
    Turn(Report("update_task", map["task_id" := t.id, "title" := title], run, "Sorry, I couldn't update that task: "),
         listing.calls + run.calls)
  }

  /** What update does with the listing of all tasks. */
  function UpdateAnswer(userId: string, message: string, m: UpdateMatch, rx: Regexes, listing: ToolRun, b: Backend): Turn {
    if listing.result.Listed? && listing.result.count > 0 then
      match UpdateTarget(message, PatternName(m), listing.result.tasks)
      case None =>
        Turn(Say("I couldn't identify which task you want to update. Could you please specify the task?"), listing.calls)
      case Some(t) =>
        var title := NewTitle(rx, message, t.title);
        Updated(t, title, listing,
                Dispatch(Registry, "update_task", map["user_id" := Str(userId), "task_id" := Str(t.id), "title" := Str(title)], b))
    else Turn(Say("You don't have any tasks to update."), listing.calls)
  }

  function UpdateTurn(userId: string, message: string, m: UpdateMatch, rx: Regexes, b: Backend): Turn {
    UpdateAnswer(userId, message, m, rx, Dispatch(Registry, "list_tasks", map["user_id" := Str(userId), "status" := Str("all")], b), b)
  }

  /** What delete does with the listing of all tasks. */
  function DeleteAnswer(userId: string, message: string, listing: ToolRun, b: Backend): Turn {
    if listing.result.Listed? && listing.result.count > 0 then
      match PickTask(message, listing.result.tasks)
      case None =>
        Turn(Say("I couldn't identify which task you want to delete. Could you please specify the task?"), listing.calls)
      case Some(t) =>
        Acted("delete_task", t.id, listing,
              Dispatch(Registry, "delete_task", map["user_id" := Str(userId), "task_id" := Str(t.id)], b),
              "Sorry, I couldn't delete that task: ")
    else Turn(Say("You don't have any tasks to delete."), listing.calls)
  }

  function DeleteTurn(userId: string, message: string, b: Backend): Turn {
    DeleteAnswer(userId, message, Dispatch(Registry, "list_tasks", map["user_id" := Str(userId), "status" := Str("all")], b), b)
  }

  /** `process_user_message_with_ai`: the first pattern that matches decides. */
  function Respond(userId: string, message: string, rx: Regexes, b: Backend): Turn {
    match rx.addTask(message)
    case Some(m) => AddTurn(userId, m, b)
    case None =>
      if rx.listTasks(message) then ListTurn(userId, message, b)
      else if rx.completeTask(message) then CompleteTurn(userId, message, b)
      else match rx.updateTask(message)
        case Some(m) => UpdateTurn(userId, message, m, rx, b)
        case None =>
          if rx.deleteTask(message) then DeleteTurn(userId, message, b)
          else Turn(Say(Echo(message)), [])
  }

  // ---- the handler, step by step against the shared tool server --------------

  method HandleAdd(server: McpServer, userId: string, m: AddMatch, b: Backend) returns (turn: Turn)
    requires server.tools == Registry
    ensures turn == AddTurn(userId, m, b)
  {
    var title := AddTitle(m);
    if title.None? {
      return Turn(Say(AddClarification), []);
    }
    var cleaned := CleanTitle(title.value);
    var run := server.ExecuteTool("add_task", map["user_id" := Str(userId), "title" := Str(cleaned)], b);
    turn := Turn(Report("add_task", map["title" := cleaned], run, "Sorry, I couldn't add that task: "), run.calls);
  }

  method HandleList(server: McpServer, userId: string, message: string, b: Backend) returns (turn: Turn)
    requires server.tools == Registry
    ensures turn == ListTurn(userId, message, b)
  {
    var status := StatusFilter(Strip(Lower(message)));
    var run := server.ExecuteTool("list_tasks", map["user_id" := Str(userId), "status" := Str(status)], b);
    if run.result.Listed? {
      var response := BuildListing(status, run.result.count, run.result.tasks);
      turn := Turn(ChatReply(response, [ToolCall("list_tasks", map["status" := status], run.result)]), run.calls);
    } else {
      turn := Turn(Say("Sorry, I couldn't retrieve your tasks: " + run.result.Message()), run.calls);
    }
  }

  method HandleComplete(server: McpServer, userId: string, message: string, b: Backend) returns (turn: Turn)
    requires server.tools == Registry
    ensures turn == CompleteTurn(userId, message, b)
  {
    var listing := server.ExecuteTool("list_tasks", map["user_id" := Str(userId), "status" := Str("pending")], b);
    assert CompleteTurn(userId, message, b) == CompleteAnswer(userId, message, listing, b);
    if !(listing.result.Listed? && listing.result.count > 0) {
      return Turn(Say("You don't have any pending tasks to complete."), listing.calls);
    }
    var tasks := listing.result.tasks;
    var target := FindFirst(tasks, t => KeywordHit(message, t));
    if target.None? && |tasks| > 0 {
      target := Some(tasks[0]);
    }
    if target.None? {
      return Turn(Say("I couldn't identify which task you want to complete. Could you please specify the task?"), listing.calls);
    }
    assert target == PickTask(message, tasks);
    CompletePicked(userId, message, listing, b);
    var id := target.value.id;
    var run := server.ExecuteTool("complete_task", map["user_id" := Str(userId), "task_id" := Str(id)], b);
    turn := Turn(Report("complete_task", map["task_id" := id], run, "Sorry, I couldn't complete that task: "),
                 listing.calls + run.calls);
  }

  method HandleUpdate(server: McpServer, userId: string, message: string, m: UpdateMatch, rx: Regexes, b: Backend)
    returns (turn: Turn)
    requires server.tools == Registry
    ensures turn == UpdateTurn(userId, message, m, rx, b)
  {
    var listing := server.ExecuteTool("list_tasks", map["user_id" := Str(userId), "status" := Str("all")], b);
    assert UpdateTurn(userId, message, m, rx, b) == UpdateAnswer(userId, message, m, rx, listing, b);
    if !(listing.result.Listed? && listing.result.count > 0) {
      return Turn(Say("You don't have any tasks to update."), listing.calls);
    }
    var tasks := listing.result.tasks;
    var name := PatternName(m);
    var target: Option<TaskRecord> := None;
    if Given(name) {
      target := FindFirst(tasks, t => NameHit(name.value, t));
    }
    if target.None? {
      target := FindFirst(tasks, t => KeywordHit(message, t));
    }
    assert target == UpdateTarget(message, name, tasks);
    UpdatePicked(userId, message, m, rx, listing, b);
    if target.None? {
      return Turn(Say("I couldn't identify which task you want to update. Could you please specify the task?"), listing.calls);
    }
    var title := NewTitle(rx, message, target.value.title);
    var args := map["task_id" := target.value.id, "title" := title];
    var run := server.ExecuteTool("update_task", map["user_id" := Str(userId), "task_id" := Str(target.value.id), "title" := Str(title)], b);
    turn := Turn(Report("update_task", args, run, "Sorry, I couldn't update that task: "), listing.calls + run.calls);
  }

  method HandleDelete(server: McpServer, userId: string, message: string, b: Backend) returns (turn: Turn)
    requires server.tools == Registry
    ensures turn == DeleteTurn(userId, message, b)
  {
    var listing := server.ExecuteTool("list_tasks", map["user_id" := Str(userId), "status" := Str("all")], b);
    assert DeleteTurn(userId, message, b) == DeleteAnswer(userId, message, listing, b);
    if !(listing.result.Listed? && listing.result.count > 0) {
      return Turn(Say("You don't have any tasks to delete."), listing.calls);
    }
    var tasks := listing.result.tasks;
    var target := FindFirst(tasks, t => KeywordHit(message, t));
    if target.None? && |tasks| > 0 {
      target := Some(tasks[0]);
    }
    if target.None? {
      return Turn(Say("I couldn't identify which task you want to delete. Could you please specify the task?"), listing.calls);
    }
    assert target == PickTask(message, tasks);
    DeletePicked(userId, message, listing, b);
    var id := target.value.id;
    var run := server.ExecuteTool("delete_task", map["user_id" := Str(userId), "task_id" := Str(id)], b);
    turn := Turn(Report("delete_task", map["task_id" := id], run, "Sorry, I couldn't delete that task: "),
                 listing.calls + run.calls);
  }

  /** `process_user_message_with_ai` on the module's shared tool server. */
  method ProcessUserMessage(server: McpServer, userId: string, message: string, rx: Regexes, b: Backend)
    returns (turn: Turn)
    requires server.tools == Registry
    ensures turn == Respond(userId, message, rx, b)
  {
    var addMatch := rx.addTask(message);
    if addMatch.Some? {
      RespondsAdd(userId, message, rx, b);
      turn := HandleAdd(server, userId, addMatch.value, b);
    } else if rx.listTasks(message) {
      RespondsList(userId, message, rx, b);
      turn := HandleList(server, userId, message, b);
    } else if rx.completeTask(message) {
      RespondsComplete(userId, message, rx, b);
      turn := HandleComplete(server, userId, message, b);
    } else if rx.updateTask(message).Some? {
      RespondsUpdate(userId, message, rx, b);
      turn := HandleUpdate(server, userId, message, rx.updateTask(message).value, rx, b);
    } else if rx.deleteTask(message) {
      RespondsDelete(userId, message, rx, b);
      turn := HandleDelete(server, userId, message, b);
    } else {
      RespondsNothing(userId, message, rx, b);
      turn := Turn(Say(Echo(message)), []);
    }
  }

  // ---- what a turn does -------------------------------------------------------

  /** The tool the first matching pattern calls for; `None` when none matches. */
  function Intent(rx: Regexes, message: string): Option<ToolKind> {
    if rx.addTask(message).Some? then Some(AddTool)
    else if rx.listTasks(message) then Some(ListTool)
    else if rx.completeTask(message) then Some(CompleteTool)
    else if rx.updateTask(message).Some? then Some(UpdateTool)
    else if rx.deleteTask(message) then Some(DeleteTool)
    else None
  }

  /** The patterns are tried in order and the first that matches decides. */
  lemma Matched(rx: Regexes, message: string, k: ToolKind)
    requires Intent(rx, message) == Some(k)
    ensures k == AddTool <==> rx.addTask(message).Some?
    ensures k == ListTool ==> rx.listTasks(message)
    ensures k in {CompleteTool, UpdateTool, DeleteTool} ==> !rx.listTasks(message)
    ensures k == CompleteTool ==> rx.completeTask(message)
    ensures k in {UpdateTool, DeleteTool} ==> !rx.completeTask(message)
    ensures k == UpdateTool <==> rx.updateTask(message).Some? && !rx.completeTask(message) && !rx.listTasks(message) && rx.addTask(message).None?
    ensures k == DeleteTool ==> rx.deleteTask(message)
  {
  }

  /** No pattern matches exactly when there is no intent. */
  lemma Unmatched(rx: Regexes, message: string)
    requires Intent(rx, message) == None
    ensures rx.addTask(message).None? && !rx.listTasks(message) && !rx.completeTask(message)
    ensures rx.updateTask(message).None? && !rx.deleteTask(message)
  {
  }

  /** `r` reports at most one tool call, a successful one of tool `name`, and
      unless it is a listing its reply is that tool's own message. */
  predicate ReportsOnly(r: ChatReply, name: string) {
    && |r.toolCalls| <= 1
    && (r.toolCalls != [] ==>
          && r.toolCalls[0].name == name
          && r.toolCalls[0].result.Success()
          && (name != "list_tasks" ==> r.response == r.toolCalls[0].result.Message()))
  }

  /** The name of the tool an intent calls for; "" for none. */
  function IntentName(intent: Option<ToolKind>): string {
    if intent.Some? then NameOf(intent.value) else ""
  }

  lemma ReportShape(name: string, arguments: map<string, string>, run: ToolRun, apology: string)
    ensures ReportsOnly(Report(name, arguments, run, apology), name)
  {
  }

  lemma AddReportsOnly(userId: string, m: AddMatch, b: Backend)
    ensures ReportsOnly(AddTurn(userId, m, b).reply, "add_task")
  {
    if AddTitle(m).Some? {
      var title := CleanTitle(AddTitle(m).value);
      var run := Dispatch(Registry, "add_task", map["user_id" := Str(userId), "title" := Str(title)], b);
      ReportShape("add_task", map["title" := title], run, "Sorry, I couldn't add that task: ");
    }
  }

  lemma ListAnswerReportsOnly(status: string, run: ToolRun)
    ensures ReportsOnly(ListAnswer(status, run).reply, "list_tasks")
  {
  }

  lemma ListReportsOnly(userId: string, message: string, b: Backend)
    ensures ReportsOnly(ListTurn(userId, message, b).reply, "list_tasks")
  {
    var status := StatusFilter(Strip(Lower(message)));
    ListAnswerReportsOnly(status, Dispatch(Registry, "list_tasks", map["user_id" := Str(userId), "status" := Str(status)], b));
  }

  lemma CompleteReportsOnly(userId: string, message: string, b: Backend)
    ensures ReportsOnly(CompleteTurn(userId, message, b).reply, "complete_task")
  {
    CompleteAnswerReportsOnly(userId, message, Dispatch(Registry, "list_tasks", map["user_id" := Str(userId), "status" := Str("pending")], b), b);
  }

  lemma CompleteAnswerReportsOnly(userId: string, message: string, listing: ToolRun, b: Backend)
    ensures ReportsOnly(CompleteAnswer(userId, message, listing, b).reply, "complete_task")
  {
    if listing.result.Listed? && listing.result.count > 0 && PickTask(message, listing.result.tasks).Some? {
      var t := PickTask(message, listing.result.tasks).value;
      var run := Dispatch(Registry, "complete_task", map["user_id" := Str(userId), "task_id" := Str(t.id)], b);
      ReportShape("complete_task", map["task_id" := t.id], run, "Sorry, I couldn't complete that task: ");
    }
  }

  lemma UpdateReportsOnly(userId: string, message: string, m: UpdateMatch, rx: Regexes, b: Backend)
    ensures ReportsOnly(UpdateTurn(userId, message, m, rx, b).reply, "update_task")
  {
    UpdateAnswerReportsOnly(userId, message, m, rx, Dispatch(Registry, "list_tasks", map["user_id" := Str(userId), "status" := Str("all")], b), b);
  }

  lemma UpdateAnswerReportsOnly(userId: string, message: string, m: UpdateMatch, rx: Regexes, listing: ToolRun, b: Backend)
    ensures ReportsOnly(UpdateAnswer(userId, message, m, rx, listing, b).reply, "update_task")
  {
    if listing.result.Listed? && listing.result.count > 0 {
      var target := UpdateTarget(message, PatternName(m), listing.result.tasks);
      if target.Some? {
        var title := NewTitle(rx, message, target.value.title);
        var args := map["task_id" := target.value.id, "title" := title];
        var run := Dispatch(Registry, "update_task", map["user_id" := Str(userId), "task_id" := Str(target.value.id), "title" := Str(title)], b);
        ReportShape("update_task", args, run, "Sorry, I couldn't update that task: ");
      }
    }
  }

  lemma DeleteReportsOnly(userId: string, message: string, b: Backend)
    ensures ReportsOnly(DeleteTurn(userId, message, b).reply, "delete_task")
  {
    DeleteAnswerReportsOnly(userId, message, Dispatch(Registry, "list_tasks", map["user_id" := Str(userId), "status" := Str("all")], b), b);
  }

  lemma DeleteAnswerReportsOnly(userId: string, message: string, listing: ToolRun, b: Backend)
    ensures ReportsOnly(DeleteAnswer(userId, message, listing, b).reply, "delete_task")
  {
    if listing.result.Listed? && listing.result.count > 0 && PickTask(message, listing.result.tasks).Some? {
      var t := PickTask(message, listing.result.tasks).value;
      var run := Dispatch(Registry, "delete_task", map["user_id" := Str(userId), "task_id" := Str(t.id)], b);
      ReportShape("delete_task", map["task_id" := t.id], run, "Sorry, I couldn't delete that task: ");
    }
  }

  /** A turn reports at most one tool call, only a successful one, and only of
      the tool the first matching pattern calls for; except for a listing, the
      reply is then that tool's own message. */
  lemma AtMostOneToolCall(userId: string, message: string, rx: Regexes, b: Backend)
    ensures ReportsOnly(Respond(userId, message, rx, b).reply, IntentName(Intent(rx, message)))
  {
    assert "update_task"[0] != "delete_task"[0];
    var intent := Intent(rx, message);
    if intent.Some? {
      ReportsOnlyIntended(userId, message, rx, b, intent.value);
    } else {
      UnmatchedMessageEchoed(userId, message, rx, b);
    }
  }

  lemma ReportsOnlyIntended(userId: string, message: string, rx: Regexes, b: Backend, k: ToolKind)
    requires Intent(rx, message) == Some(k)
    ensures ReportsOnly(Respond(userId, message, rx, b).reply, NameOf(k))
  {
    Matched(rx, message, k);
    match k
    case AddTool =>
      RespondsAdd(userId, message, rx, b);
      AddReportsOnly(userId, rx.addTask(message).value, b);
    case ListTool =>
      RespondsList(userId, message, rx, b);
      ListReportsOnly(userId, message, b);
    case CompleteTool =>
      RespondsComplete(userId, message, rx, b);
      CompleteReportsOnly(userId, message, b);
    case UpdateTool =>
      RespondsUpdate(userId, message, rx, b);
      UpdateReportsOnly(userId, message, rx.updateTask(message).value, rx, b);
    case DeleteTool =>
      RespondsDelete(userId, message, rx, b);
      DeleteReportsOnly(userId, message, b);
  }

  /** A message no pattern matches is quoted back, with no tool call and no store request. */
  lemma UnmatchedMessageEchoed(userId: string, message: string, rx: Regexes, b: Backend)
    requires Intent(rx, message) == None
    ensures Respond(userId, message, rx, b) == Turn(Say(Echo(message)), [])
    ensures Contains(Respond(userId, message, rx, b).reply.response, message)
  {
    Unmatched(rx, message);
    RespondsNothing(userId, message, rx, b);
    ContainsMiddle("I received your message: '", message,
                   "'. I'm an AI assistant for managing your tasks. You can ask me to add, view, update, complete, or delete tasks.");
  }

  /** A message matched by the first add_task alternative ("add a task to ...")
      gets the request for clarification and reaches no tool. */
  lemma AddFirstAlternativeAsksClarification(userId: string, message: string, rx: Regexes, b: Backend)
    requires rx.addTask(message).Some? && rx.addTask(message).value.AddFirst?
    ensures Respond(userId, message, rx, b) == Turn(Say(AddClarification), [])
  {
    AddTitleByAlternative(rx.addTask(message).value);
  }

  // ---- the tool calls a turn makes, with a healthy session ----------------------

  /** The list_tasks call the handler makes runs list_tasks on the user and status. */
  lemma ListDispatch(userId: string, status: string, b: Backend)
    requires b.sessionOpens && b.sessionCloses
    ensures Dispatch(Registry, "list_tasks", map["user_id" := Str(userId), "status" := Str(status)], b) == ListTasksRun(b, Str(userId), Str(status))
  {
    var kwargs := map["user_id" := Str(userId), "status" := Str(status)];
    assert kwargs.Keys == Signature(ListTool).Keys;
    NamedToolAnswers(ListTool, kwargs, b);
    assert NameOf(ListTool) == "list_tasks";
    assert RunTool(ListTool, kwargs, b) == ListTasksRun(b, Str(userId), Str(status));
  }

  /** The complete_task call the handler makes runs complete_task on the user and task id. */
  lemma CompleteDispatch(userId: string, id: string, b: Backend)
    requires b.sessionOpens && b.sessionCloses
    ensures Dispatch(Registry, "complete_task", map["user_id" := Str(userId), "task_id" := Str(id)], b) == CompleteTask(b, Str(userId), Str(id))
  {
    var kwargs := map["user_id" := Str(userId), "task_id" := Str(id)];
    assert kwargs.Keys == Signature(CompleteTool).Keys;
    NamedToolAnswers(CompleteTool, kwargs, b);
    assert NameOf(CompleteTool) == "complete_task";
    assert RunTool(CompleteTool, kwargs, b) == CompleteTask(b, Str(userId), Str(id));
  }

  /** The delete_task call the handler makes runs delete_task on the user and task id. */
  lemma DeleteDispatch(userId: string, id: string, b: Backend)
    requires b.sessionOpens && b.sessionCloses
    ensures Dispatch(Registry, "delete_task", map["user_id" := Str(userId), "task_id" := Str(id)], b) == DeleteTask(b, Str(userId), Str(id))
  {
    var kwargs := map["user_id" := Str(userId), "task_id" := Str(id)];
    assert "update_task"[0] != "delete_task"[0];
    assert kwargs.Keys == Signature(DeleteTool).Keys;
    NamedToolAnswers(DeleteTool, kwargs, b);
    assert NameOf(DeleteTool) == "delete_task";
    assert RunTool(DeleteTool, kwargs, b) == DeleteTask(b, Str(userId), Str(id));
  }

  /** The add_task call the handler makes runs add_task with the defaults "" and "medium". */
  lemma AddDispatch(userId: string, title: string, b: Backend)
    requires b.sessionOpens && b.sessionCloses
    ensures Dispatch(Registry, "add_task", map["user_id" := Str(userId), "title" := Str(title)], b)
            == AddTask(b, Str(userId), Str(title), Str(""), Str("medium"))
  {
    var kwargs := map["user_id" := Str(userId), "title" := Str(title)];
    assert Lookup(Registry, "add_task") == Some(AddTool);
    var args := Bind(Signature(AddTool), kwargs).value;
    assert args["user_id"] == Str(userId) && args["title"] == Str(title);
    assert args["description"] == Str("") && args["priority"] == Str("medium");
  }

  /** The update_task call the handler makes runs update_task with only a new title. */
  lemma UpdateDispatch(userId: string, id: string, title: string, b: Backend)
    requires b.sessionOpens && b.sessionCloses
    ensures Dispatch(Registry, "update_task", map["user_id" := Str(userId), "task_id" := Str(id), "title" := Str(title)], b)
            == UpdateTask(b, Str(userId), Str(id), Str(title), Null, Null)
  {
    var kwargs := map["user_id" := Str(userId), "task_id" := Str(id), "title" := Str(title)];
    assert Lookup(Registry, "update_task") == Some(UpdateTool);
    var args := UpdateArgs(userId, id, title);
    RegisteredToolAnswers(Registry, "update_task", UpdateTool, kwargs, b);
    UpdateToolRuns(args, b);
  }

  lemma UpdateToolRuns(args: map<string, Value>, b: Backend)
    requires args.Keys == Signature(UpdateTool).Keys
    ensures RunTool(UpdateTool, args, b)
            == UpdateTask(b, args["user_id"], args["task_id"], args["title"], args["description"], args["priority"])
  {
  }

  /** update_task called with a task id and a title gets None for description and priority. */
  lemma UpdateArgs(userId: string, id: string, title: string) returns (args: map<string, Value>)
    ensures var kwargs := map["user_id" := Str(userId), "task_id" := Str(id), "title" := Str(title)];
            && Binds(Signature(UpdateTool), kwargs)
            && Bind(Signature(UpdateTool), kwargs) == Some(args)
            && args["user_id"] == Str(userId) && args["task_id"] == Str(id) && args["title"] == Str(title)
            && args["description"] == Null && args["priority"] == Null
  {
    var kwargs := map["user_id" := Str(userId), "task_id" := Str(id), "title" := Str(title)];
    args := Bind(Signature(UpdateTool), kwargs).value;
  }

  // ---- what each intent asks of the store -------------------------------------

  /** "add milk as a task" (the second alternative) creates a task titled with the
      stripped text up to its first full stop, with the default description and
      priority; the reply is the tool's confirmation exactly when the store creates
      it, and the apology "Failed to add task" when the store raises. */
  lemma AddSecondAlternativeCreates(userId: string, message: string, rx: Regexes, b: Backend)
    requires rx.addTask(message).Some? && rx.addTask(message).value.AddSecond?
    requires rx.addTask(message).value.title != ""
    requires b.sessionOpens && b.sessionCloses
    ensures var title := CleanTitle(rx.addTask(message).value.title);
            var data := map["title" := Str(title), "description" := Str(""), "priority" := Str("medium")];
            var turn := Respond(userId, message, rx, b);
            && turn.calls == [StoreCreate(b.resolve(userId), data)]
            && AddedReply(turn.reply, title, b.service.createTask(b.resolve(userId), data))
  {
    RespondsAdd(userId, message, rx, b);
    AddTurnCreates(userId, rx.addTask(message).value, b);
  }

  lemma AddTurnCreates(userId: string, m: AddMatch, b: Backend)
    requires m.AddSecond? && m.title != ""
    requires b.sessionOpens && b.sessionCloses
    ensures var title := CleanTitle(m.title);
            var data := map["title" := Str(title), "description" := Str(""), "priority" := Str("medium")];
            var turn := AddTurn(userId, m, b);
            && turn.calls == [StoreCreate(b.resolve(userId), data)]
            && AddedReply(turn.reply, title, b.service.createTask(b.resolve(userId), data))
  {
    AddTitleByAlternative(m);
    var title := CleanTitle(m.title);
    AddDispatch(userId, title, b);
    assert AddTurn(userId, m, b) == AddAnswer(title, AddTask(b, Str(userId), Str(title), Str(""), Str("medium")));
    AddAnswerCreates(userId, title, b);
  }

  lemma AddAnswerCreates(userId: string, title: string, b: Backend)
    ensures var data := map["title" := Str(title), "description" := Str(""), "priority" := Str("medium")];
            var turn := AddAnswer(title, AddTask(b, Str(userId), Str(title), Str(""), Str("medium")));
            && turn.calls == [StoreCreate(b.resolve(userId), data)]
            && AddedReply(turn.reply, title, b.service.createTask(b.resolve(userId), data))
  {
    AddTaskShape(b, userId, Str(title), Str(""), Str("medium"));
  }

  /** A successful listing shows what the store returned; a failed one apologises. */
  lemma ListAnswerFollowsStore(status: string, userId: string, b: Backend)
    ensures var reply := b.service.getUserTasks(b.resolve(userId), Str(status));
            var turn := ListAnswer(status, ListTasksRun(b, Str(userId), Str(status)));
            && turn.calls == [StoreGetTasks(b.resolve(userId), Str(status))]
            && (reply.Returned? ==>
                  var records := ListRecords(reply.value);
                  turn.reply == ChatReply(ListingText(status, |reply.value|, records),
                                          [ToolCall("list_tasks", map["status" := status], Listed(|reply.value|, records))]))
            && (reply.Raised? ==> turn.reply == Say("Sorry, I couldn't retrieve your tasks: " + "Failed to list tasks"))
  {
  }

  /** A listing asks the store for the status named in the message and shows
      what the store returns, one line per task up to five. */
  lemma ListReplyFollowsStore(userId: string, message: string, rx: Regexes, b: Backend)
    requires Intent(rx, message) == Some(ListTool)
    requires b.sessionOpens && b.sessionCloses
    ensures var status := StatusFilter(Strip(Lower(message)));
            var reply := b.service.getUserTasks(b.resolve(userId), Str(status));
            var turn := Respond(userId, message, rx, b);
            && turn.calls == [StoreGetTasks(b.resolve(userId), Str(status))]
            && (reply.Returned? ==>
                  var records := ListRecords(reply.value);
                  turn.reply == ChatReply(ListingText(status, |reply.value|, records),
                                          [ToolCall("list_tasks", map["status" := status], Listed(|reply.value|, records))]))
            && (reply.Raised? ==> turn.reply == Say("Sorry, I couldn't retrieve your tasks: " + "Failed to list tasks"))
  {
    Matched(rx, message, ListTool);
    var status := StatusFilter(Strip(Lower(message)));
    RespondsList(userId, message, rx, b);
    ListDispatch(userId, status, b);
    ListAnswerFollowsStore(status, userId, b);
  }

  /** The complete_task turn, as `Respond` chooses it. */
  lemma RespondsComplete(userId: string, message: string, rx: Regexes, b: Backend)
    requires rx.addTask(message).None? && !rx.listTasks(message) && rx.completeTask(message)
    ensures Respond(userId, message, rx, b) == CompleteTurn(userId, message, b)
  {
  }

  /** A listing the store answered holds its tasks as records. */
  lemma StoreListing(b: Backend, userId: string, status: string)
    requires b.service.getUserTasks(b.resolve(userId), Str(status)).Returned?
    ensures var tasks := b.service.getUserTasks(b.resolve(userId), Str(status)).value;
            ListTasksRun(b, Str(userId), Str(status))
            == ToolRun([StoreGetTasks(b.resolve(userId), Str(status))], Listed(|tasks|, ListRecords(tasks)))
  {
  }

  lemma CompletePicked(userId: string, message: string, listing: ToolRun, b: Backend)
    requires listing.result.Listed? && listing.result.count > 0
    requires PickTask(message, listing.result.tasks).Some?
    ensures var id := PickTask(message, listing.result.tasks).value.id;
            CompleteAnswer(userId, message, listing, b)
            == Acted("complete_task", id, listing,
                     Dispatch(Registry, "complete_task", map["user_id" := Str(userId), "task_id" := Str(id)], b),
                     "Sorry, I couldn't complete that task: ")
  {
  }

  /** What complete does with a listing of pending tasks from the store. */
  lemma CompleteAnswerActs(userId: string, message: string, b: Backend)
    requires b.sessionOpens && b.sessionCloses
    ensures var user := b.resolve(userId);
            var pending := b.service.getUserTasks(user, Str("pending"));
            var turn := CompleteAnswer(userId, message, ListTasksRun(b, Str(userId), Str("pending")), b);
            && (pending.Returned? && |pending.value| > 0 ==>
                  var t := PickTask(message, ListRecords(pending.value));
                  && t.Some? && t.value in ListRecords(pending.value)
                  && turn.calls == [StoreGetTasks(user, Str("pending")), StoreSetStatus(user, b.resolve(t.value.id), "completed")]
                  && ChangedReply(turn.reply, "complete_task", map["task_id" := t.value.id],
                                  b.service.updateTaskStatus(user, b.resolve(t.value.id), "completed"), "' marked as completed",
                                  "Sorry, I couldn't complete that task: " + "Failed to complete task"))
            && (!(pending.Returned? && |pending.value| > 0) ==>
                  turn == Turn(Say("You don't have any pending tasks to complete."), [StoreGetTasks(user, Str("pending"))]))
  {
    var listing := ListTasksRun(b, Str(userId), Str("pending"));
    var pending := b.service.getUserTasks(b.resolve(userId), Str("pending"));
    if pending.Returned? && |pending.value| > 0 {
      StoreListing(b, userId, "pending");
      PickTaskFound(message, listing.result.tasks);
      CompleteFromListing(userId, message, listing, b);
    }
  }

  lemma CompleteFromListing(userId: string, message: string, listing: ToolRun, b: Backend)
    requires b.sessionOpens && b.sessionCloses
    requires listing.result.Listed? && listing.result.count > 0
    requires PickTask(message, listing.result.tasks).Some?
    ensures var user := b.resolve(userId);
            var t := PickTask(message, listing.result.tasks).value;
            var turn := CompleteAnswer(userId, message, listing, b);
            && turn.calls == listing.calls + [StoreSetStatus(user, b.resolve(t.id), "completed")]
            && ChangedReply(turn.reply, "complete_task", map["task_id" := t.id],
                            b.service.updateTaskStatus(user, b.resolve(t.id), "completed"), "' marked as completed",
                            "Sorry, I couldn't complete that task: " + "Failed to complete task")
  {
    var t := PickTask(message, listing.result.tasks).value;
    CompletePicked(userId, message, listing, b);
    CompleteDispatch(userId, t.id, b);
    CompleteOutcome(b, userId, t.id);
    ReportChanged("complete_task", map["task_id" := t.id], CompleteTask(b, Str(userId), Str(t.id)),
                  b.service.updateTaskStatus(b.resolve(userId), b.resolve(t.id), "completed"), "' marked as completed",
                  "Sorry, I couldn't complete that task: ", "Failed to complete task");
  }

  /** Completing asks the store for the pending tasks and completes the one the
      message names by a shared word, else the first; the reply confirms, with
      the task's own title, exactly when the store hands back the completed
      task. With none pending it says so and changes nothing. */
  lemma CompleteActsOnPendingTask(userId: string, message: string, rx: Regexes, b: Backend)
    requires Intent(rx, message) == Some(CompleteTool)
    requires b.sessionOpens && b.sessionCloses
    ensures var user := b.resolve(userId);
            var pending := b.service.getUserTasks(user, Str("pending"));
            var turn := Respond(userId, message, rx, b);
            && (pending.Returned? && |pending.value| > 0 ==>
                  var t := PickTask(message, ListRecords(pending.value));
                  && t.Some? && t.value in ListRecords(pending.value)
                  && turn.calls == [StoreGetTasks(user, Str("pending")), StoreSetStatus(user, b.resolve(t.value.id), "completed")]
                  && ChangedReply(turn.reply, "complete_task", map["task_id" := t.value.id],
                                  b.service.updateTaskStatus(user, b.resolve(t.value.id), "completed"), "' marked as completed",
                                  "Sorry, I couldn't complete that task: " + "Failed to complete task"))
            && (!(pending.Returned? && |pending.value| > 0) ==>
                  turn == Turn(Say("You don't have any pending tasks to complete."), [StoreGetTasks(user, Str("pending"))]))
  {
    Matched(rx, message, CompleteTool);
    RespondsComplete(userId, message, rx, b);
    ListDispatch(userId, "pending", b);
    CompleteAnswerActs(userId, message, b);
  }

  lemma DeletePicked(userId: string, message: string, listing: ToolRun, b: Backend)
    requires listing.result.Listed? && listing.result.count > 0
    requires PickTask(message, listing.result.tasks).Some?
    ensures var id := PickTask(message, listing.result.tasks).value.id;
            DeleteAnswer(userId, message, listing, b)
            == Acted("delete_task", id, listing,
                     Dispatch(Registry, "delete_task", map["user_id" := Str(userId), "task_id" := Str(id)], b),
                     "Sorry, I couldn't delete that task: ")
  {
  }

  /** What delete does with a listing of all tasks from the store. */
  lemma DeleteAnswerActs(userId: string, message: string, b: Backend)
    requires b.sessionOpens && b.sessionCloses
    ensures var user := b.resolve(userId);
            var all := b.service.getUserTasks(user, Str("all"));
            var turn := DeleteAnswer(userId, message, ListTasksRun(b, Str(userId), Str("all")), b);
            && (all.Returned? && |all.value| > 0 ==>
                  var t := PickTask(message, ListRecords(all.value));
                  && t.Some? && t.value in ListRecords(all.value)
                  && turn.calls == [StoreGetTasks(user, Str("all")), StoreDelete(user, b.resolve(t.value.id))]
                  && DeletedReply(turn.reply, t.value.id, b.service.deleteTask(user, b.resolve(t.value.id))))
            && (!(all.Returned? && |all.value| > 0) ==>
                  turn == Turn(Say("You don't have any tasks to delete."), [StoreGetTasks(user, Str("all"))]))
  {
    var listing := ListTasksRun(b, Str(userId), Str("all"));
    var all := b.service.getUserTasks(b.resolve(userId), Str("all"));
    if all.Returned? && |all.value| > 0 {
      var records := ListRecords(all.value);
      StoreListing(b, userId, "all");
      PickTaskFound(message, records);
      DeleteFromListing(userId, message, listing, b);
    }
  }

  lemma DeleteFromListing(userId: string, message: string, listing: ToolRun, b: Backend)
    requires b.sessionOpens && b.sessionCloses
    requires listing.result.Listed? && listing.result.count > 0
    requires PickTask(message, listing.result.tasks).Some?
    ensures var user := b.resolve(userId);
            var t := PickTask(message, listing.result.tasks).value;
            var turn := DeleteAnswer(userId, message, listing, b);
            && turn.calls == listing.calls + [StoreDelete(user, b.resolve(t.id))]
            && DeletedReply(turn.reply, t.id, b.service.deleteTask(user, b.resolve(t.id)))
  {
    var t := PickTask(message, listing.result.tasks).value;
    DeletePicked(userId, message, listing, b);
    DeleteDispatch(userId, t.id, b);
    DeleteOutcome(b, userId, t.id);
  }

  /** Deleting asks the store for all tasks and deletes the one the message names
      by a shared word, else the first; the reply confirms exactly when the store
      reports a deletion, and otherwise names the failure ("not found" when the
      store answers False). */
  lemma DeleteActsOnListedTask(userId: string, message: string, rx: Regexes, b: Backend)
    requires Intent(rx, message) == Some(DeleteTool)
    requires b.sessionOpens && b.sessionCloses
    ensures var user := b.resolve(userId);
            var all := b.service.getUserTasks(user, Str("all"));
            var turn := Respond(userId, message, rx, b);
            && (all.Returned? && |all.value| > 0 ==>
                  var t := PickTask(message, ListRecords(all.value));
                  && t.Some? && t.value in ListRecords(all.value)
                  && turn.calls == [StoreGetTasks(user, Str("all")), StoreDelete(user, b.resolve(t.value.id))]
                  && DeletedReply(turn.reply, t.value.id, b.service.deleteTask(user, b.resolve(t.value.id))))
            && (!(all.Returned? && |all.value| > 0) ==>
                  turn == Turn(Say("You don't have any tasks to delete."), [StoreGetTasks(user, Str("all"))]))
  {
    Matched(rx, message, DeleteTool);
    RespondsDelete(userId, message, rx, b);
    ListDispatch(userId, "all", b);
    DeleteAnswerActs(userId, message, b);
  }

  /** The update_task turn, as `Respond` chooses it. */
  lemma RespondsUpdate(userId: string, message: string, rx: Regexes, b: Backend)
    requires rx.addTask(message).None? && !rx.listTasks(message) && !rx.completeTask(message)
    requires rx.updateTask(message).Some?
    ensures Respond(userId, message, rx, b) == UpdateTurn(userId, message, rx.updateTask(message).value, rx, b)
  {
  }

  /** An update that keeps description and priority None sends only the title. */
  lemma TitleOnlyUpdateCalls(b: Backend, userId: string, id: string, title: string)
    ensures UpdateData(Str(title), Null, Null) == map["title" := Str(title)]
    ensures UpdateTask(b, Str(userId), Str(id), Str(title), Null, Null).calls
            == [StoreUpdate(b.resolve(userId), b.resolve(id), map["title" := Str(title)])]
  {
    UpdateTaskCalls(b, userId, id, Str(title), Null, Null);
    var d := UpdateData(Str(title), Null, Null);
    assert d.Keys == {"title"};
    assert d == map["title" := Str(title)];
  }

  lemma UpdatePicked(userId: string, message: string, m: UpdateMatch, rx: Regexes, listing: ToolRun, b: Backend)
    requires listing.result.Listed? && listing.result.count > 0
    ensures var t := UpdateTarget(message, PatternName(m), listing.result.tasks);
            && (t.Some? ==>
                  var title := NewTitle(rx, message, t.value.title);
                  UpdateAnswer(userId, message, m, rx, listing, b)
                  == Updated(t.value, title, listing,
                             Dispatch(Registry, "update_task",
                                      map["user_id" := Str(userId), "task_id" := Str(t.value.id), "title" := Str(title)], b)))
            && (t.None? ==>
                  UpdateAnswer(userId, message, m, rx, listing, b)
                  == Turn(Say("I couldn't identify which task you want to update. Could you please specify the task?"), listing.calls))
  {
  }

  /** What an update turn does, given the store's listing of all tasks: with
      tasks, it renames the target (`Renamed`), or asks which task when there
      is none; with no tasks, or a store that raised, it says there are no
      tasks to update. Either way, after the listing nothing reaches the store. */
  predicate UpdateAnswered(turn: Turn, userId: string, message: string, m: UpdateMatch, rx: Regexes, b: Backend) {
    var user := b.resolve(userId);
    var all := b.service.getUserTasks(user, Str("all"));
    && (all.Returned? && |all.value| > 0 ==>
          var t := UpdateTarget(message, PatternName(m), ListRecords(all.value));
          && (t.Some? ==> Renamed(turn, user, t.value, NewTitle(rx, message, t.value.title), b))
          && (t.None? ==>
                turn == Turn(Say("I couldn't identify which task you want to update. Could you please specify the task?"),
                             [StoreGetTasks(user, Str("all"))])))
    && (!(all.Returned? && |all.value| > 0) ==>
          turn == Turn(Say("You don't have any tasks to update."), [StoreGetTasks(user, Str("all"))]))
  }

  /** What update does with the listing of all tasks from the store. */
  lemma UpdateAnswerRenames(userId: string, message: string, m: UpdateMatch, rx: Regexes, b: Backend)
    requires b.sessionOpens && b.sessionCloses
    ensures UpdateAnswered(UpdateAnswer(userId, message, m, rx, ListTasksRun(b, Str(userId), Str("all")), b), userId, message, m, rx, b)
  {
    var all := b.service.getUserTasks(b.resolve(userId), Str("all"));
    if all.Returned? && |all.value| > 0 {
      UpdateWithTasks(userId, message, m, rx, b);
    } else {
      UpdateWithoutTasks(userId, message, m, rx, b);
    }
  }

  lemma UpdateWithTasks(userId: string, message: string, m: UpdateMatch, rx: Regexes, b: Backend)
    requires b.sessionOpens && b.sessionCloses
    requires b.service.getUserTasks(b.resolve(userId), Str("all")).Returned?
    requires |b.service.getUserTasks(b.resolve(userId), Str("all")).value| > 0
    ensures var records := ListRecords(b.service.getUserTasks(b.resolve(userId), Str("all")).value);
            var t := UpdateTarget(message, PatternName(m), records);
            var turn := UpdateAnswer(userId, message, m, rx, ListTasksRun(b, Str(userId), Str("all")), b);
            && (t.Some? ==> Renamed(turn, b.resolve(userId), t.value, NewTitle(rx, message, t.value.title), b))
            && (t.None? ==>
                  turn == Turn(Say("I couldn't identify which task you want to update. Could you please specify the task?"),
                               [StoreGetTasks(b.resolve(userId), Str("all"))]))
  {
    var listing := ListTasksRun(b, Str(userId), Str("all"));
    StoreListing(b, userId, "all");
    var t := UpdateTarget(message, PatternName(m), listing.result.tasks);
    if t.Some? {
      UpdateTargetRenamed(userId, message, m, rx, listing, b);
    } else {
      UpdatePicked(userId, message, m, rx, listing, b);
    }
  }

  lemma UpdateTargetRenamed(userId: string, message: string, m: UpdateMatch, rx: Regexes, listing: ToolRun, b: Backend)
    requires b.sessionOpens && b.sessionCloses
    requires listing.result.Listed? && listing.result.count > 0
    requires listing.calls == [StoreGetTasks(b.resolve(userId), Str("all"))]
    requires UpdateTarget(message, PatternName(m), listing.result.tasks).Some?
    ensures var t := UpdateTarget(message, PatternName(m), listing.result.tasks).value;
            Renamed(UpdateAnswer(userId, message, m, rx, listing, b), b.resolve(userId), t, NewTitle(rx, message, t.title), b)
  {
    var t := UpdateTarget(message, PatternName(m), listing.result.tasks).value;
    var title := NewTitle(rx, message, t.title);
    UpdatePicked(userId, message, m, rx, listing, b);
    UpdateDispatch(userId, t.id, title, b);
    assert UpdateAnswer(userId, message, m, rx, listing, b)
           == Updated(t, title, listing, UpdateTask(b, Str(userId), Str(t.id), Str(title), Null, Null));
    UpdatedRenames(userId, t, title, listing, b);
  }

  lemma UpdateWithoutTasks(userId: string, message: string, m: UpdateMatch, rx: Regexes, b: Backend)
    requires !(b.service.getUserTasks(b.resolve(userId), Str("all")).Returned?
               && |b.service.getUserTasks(b.resolve(userId), Str("all")).value| > 0)
    ensures UpdateAnswer(userId, message, m, rx, ListTasksRun(b, Str(userId), Str("all")), b)
            == Turn(Say("You don't have any tasks to update."), [StoreGetTasks(b.resolve(userId), Str("all"))])
  {
  }

  /** `turn` renames task `t` to `title`: after the listing it sends the store
      only the new title, and the reply confirms, with the stored task's own
      title, exactly when the store hands back the updated task. */
  predicate Renamed(turn: Turn, user: Uuid, t: TaskRecord, title: string, b: Backend) {
    && turn.calls == [StoreGetTasks(user, Str("all")), StoreUpdate(user, b.resolve(t.id), map["title" := Str(title)])]
    && ChangedReply(turn.reply, "update_task", map["task_id" := t.id, "title" := title],
                    b.service.updateTask(user, b.resolve(t.id), map["title" := Str(title)]), "' updated successfully",
                    "Sorry, I couldn't update that task: " + "Failed to update task")
  }

  lemma UpdatedRenames(userId: string, t: TaskRecord, title: string, listing: ToolRun, b: Backend)
    requires listing.calls == [StoreGetTasks(b.resolve(userId), Str("all"))]
    ensures var run := UpdateTask(b, Str(userId), Str(t.id), Str(title), Null, Null);
            Renamed(Updated(t, title, listing, run), b.resolve(userId), t, title, b)
  {
    var run := UpdateTask(b, Str(userId), Str(t.id), Str(title), Null, Null);
    TitleOnlyUpdateCalls(b, userId, t.id, title);
    UpdateOutcome(b, userId, t.id, Str(title), Null, Null);
    ReportChanged("update_task", map["task_id" := t.id, "title" := title], run,
                  b.service.updateTask(b.resolve(userId), b.resolve(t.id), map["title" := Str(title)]), "' updated successfully",
                  "Sorry, I couldn't update that task: ", "Failed to update task");
  }

  /** Updating renames the task the message names, sending the store only the
      new title, and confirms exactly when the store hands the task back; when
      no task can be identified it asks which one, and with no tasks it says
      so, changing nothing in either case. */
  lemma UpdateRenamesTarget(userId: string, message: string, rx: Regexes, b: Backend)
    requires Intent(rx, message) == Some(UpdateTool)
    requires b.sessionOpens && b.sessionCloses
    ensures UpdateAnswered(Respond(userId, message, rx, b), userId, message, rx.updateTask(message).value, rx, b)
  {
    Matched(rx, message, UpdateTool);
    var m := rx.updateTask(message).value;
    RespondsUpdate(userId, message, rx, b);
    UpdateAfterListing(userId, message, m, rx, b);
    UpdateAnswerRenames(userId, message, m, rx, b);
  }

  lemma UpdateAfterListing(userId: string, message: string, m: UpdateMatch, rx: Regexes, b: Backend)
    requires b.sessionOpens && b.sessionCloses
    ensures UpdateTurn(userId, message, m, rx, b) == UpdateAnswer(userId, message, m, rx, ListTasksRun(b, Str(userId), Str("all")), b)
  {
    ListDispatch(userId, "all", b);
  }

  // ---- a database session that cannot be opened ---------------------------------

  lemma RespondsAdd(userId: string, message: string, rx: Regexes, b: Backend)
    requires rx.addTask(message).Some?
    ensures Respond(userId, message, rx, b) == AddTurn(userId, rx.addTask(message).value, b)
  {
  }

  lemma RespondsList(userId: string, message: string, rx: Regexes, b: Backend)
    requires rx.addTask(message).None? && rx.listTasks(message)
    ensures Respond(userId, message, rx, b) == ListTurn(userId, message, b)
  {
  }

  lemma RespondsDelete(userId: string, message: string, rx: Regexes, b: Backend)
    requires rx.addTask(message).None? && !rx.listTasks(message) && !rx.completeTask(message)
    requires rx.updateTask(message).None? && rx.deleteTask(message)
    ensures Respond(userId, message, rx, b) == DeleteTurn(userId, message, b)
  {
  }

  lemma RespondsNothing(userId: string, message: string, rx: Regexes, b: Backend)
    requires rx.addTask(message).None? && !rx.listTasks(message) && !rx.completeTask(message)
    requires rx.updateTask(message).None? && !rx.deleteTask(message)
    ensures Respond(userId, message, rx, b) == Turn(Say(Echo(message)), [])
  {
  }

  lemma AddOutage(userId: string, m: AddMatch, b: Backend)
    requires !b.sessionOpens
    ensures AddTurn(userId, m, b).calls == [] && AddTurn(userId, m, b).reply.toolCalls == []
  {
    if AddTitle(m).Some? {
      var title := CleanTitle(AddTitle(m).value);
      NoSessionNoRun(Registry, "add_task", map["user_id" := Str(userId), "title" := Str(title)], b);
    }
  }

  lemma ListOutage(userId: string, message: string, b: Backend)
    requires !b.sessionOpens
    ensures ListTurn(userId, message, b).calls == [] && ListTurn(userId, message, b).reply.toolCalls == []
  {
    var status := StatusFilter(Strip(Lower(message)));
    NoSessionNoRun(Registry, "list_tasks", map["user_id" := Str(userId), "status" := Str(status)], b);
  }

  lemma CompleteOutage(userId: string, message: string, b: Backend)
    requires !b.sessionOpens
    ensures CompleteTurn(userId, message, b) == Turn(Say("You don't have any pending tasks to complete."), [])
  {
    NoSessionNoRun(Registry, "list_tasks", map["user_id" := Str(userId), "status" := Str("pending")], b);
  }

  lemma UpdateOutage(userId: string, message: string, m: UpdateMatch, rx: Regexes, b: Backend)
    requires !b.sessionOpens
    ensures UpdateTurn(userId, message, m, rx, b) == Turn(Say("You don't have any tasks to update."), [])
  {
    NoSessionNoRun(Registry, "list_tasks", map["user_id" := Str(userId), "status" := Str("all")], b);
  }

  lemma DeleteOutage(userId: string, message: string, b: Backend)
    requires !b.sessionOpens
    ensures DeleteTurn(userId, message, b) == Turn(Say("You don't have any tasks to delete."), [])
  {
    NoSessionNoRun(Registry, "list_tasks", map["user_id" := Str(userId), "status" := Str("all")], b);
  }

  /** When the database session cannot be opened, a turn reaches no store and
      reports no tool call. */
  lemma OutageMakesNoRequests(userId: string, message: string, rx: Regexes, b: Backend)
    requires !b.sessionOpens
    ensures Respond(userId, message, rx, b).calls == []
    ensures Respond(userId, message, rx, b).reply.toolCalls == []
  {
    if rx.addTask(message).Some? {
      AddTurnInOutage(userId, message, rx, b);
    } else if rx.listTasks(message) {
      ListTurnInOutage(userId, message, rx, b);
    } else {
      QuietInOutage(userId, message, rx, b);
    }
  }

  lemma QuietInOutage(userId: string, message: string, rx: Regexes, b: Backend)
    requires !b.sessionOpens && rx.addTask(message).None? && !rx.listTasks(message)
    ensures Respond(userId, message, rx, b).calls == [] && Respond(userId, message, rx, b).reply.toolCalls == []
  {
    if rx.completeTask(message) {
      RespondsComplete(userId, message, rx, b);
      CompleteOutage(userId, message, b);
    } else if rx.updateTask(message).Some? {
      RespondsUpdate(userId, message, rx, b);
      UpdateOutage(userId, message, rx.updateTask(message).value, rx, b);
    } else if rx.deleteTask(message) {
      RespondsDelete(userId, message, rx, b);
      DeleteOutage(userId, message, b);
    } else {
      RespondsNothing(userId, message, rx, b);
    }
  }

  lemma AddTurnInOutage(userId: string, message: string, rx: Regexes, b: Backend)
    requires !b.sessionOpens && rx.addTask(message).Some?
    ensures Respond(userId, message, rx, b).calls == [] && Respond(userId, message, rx, b).reply.toolCalls == []
  {
    RespondsAdd(userId, message, rx, b);
    AddOutage(userId, rx.addTask(message).value, b);
  }

  lemma ListTurnInOutage(userId: string, message: string, rx: Regexes, b: Backend)
    requires !b.sessionOpens && rx.addTask(message).None? && rx.listTasks(message)
    ensures Respond(userId, message, rx, b).calls == [] && Respond(userId, message, rx, b).reply.toolCalls == []
  {
    RespondsList(userId, message, rx, b);
    ListOutage(userId, message, b);
  }

  /** Without a database session, completing, updating and deleting read as if
      there were no tasks, and an unmatched message is still echoed. */
  lemma OutageReadsAsNoTasks(userId: string, message: string, rx: Regexes, b: Backend)
    requires !b.sessionOpens
    requires Intent(rx, message) != Some(AddTool) && Intent(rx, message) != Some(ListTool)
    ensures Intent(rx, message) == Some(CompleteTool) ==>
              Respond(userId, message, rx, b) == Turn(Say("You don't have any pending tasks to complete."), [])
    ensures Intent(rx, message) == Some(UpdateTool) ==>
              Respond(userId, message, rx, b) == Turn(Say("You don't have any tasks to update."), [])
    ensures Intent(rx, message) == Some(DeleteTool) ==>
              Respond(userId, message, rx, b) == Turn(Say("You don't have any tasks to delete."), [])
    ensures Intent(rx, message) == None ==> Respond(userId, message, rx, b) == Turn(Say(Echo(message)), [])
  {
    var intent := Intent(rx, message);
    if intent == Some(CompleteTool) {
      Matched(rx, message, CompleteTool);
      RespondsComplete(userId, message, rx, b);
      CompleteOutage(userId, message, b);
    } else if intent == Some(UpdateTool) {
      Matched(rx, message, UpdateTool);
      RespondsUpdate(userId, message, rx, b);
      UpdateOutage(userId, message, rx.updateTask(message).value, rx, b);
    } else if intent == Some(DeleteTool) {
      Matched(rx, message, DeleteTool);
      RespondsDelete(userId, message, rx, b);
      DeleteOutage(userId, message, b);
    } else {
      UnmatchedMessageEchoed(userId, message, rx, b);
    }
  }

  // ---- the chat endpoint's fallback ----------------------------------------------

  const ProcessingApology := "I'm sorry, I encountered an error processing your request. Please try again."

  /** The reply `chat_endpoint` stores and returns: the processed reply, or a
      fixed apology without tool calls when processing raised. */
  function EndpointReply(processed: Reply<ChatReply>): ChatReply {
    match processed
    case Returned(r) => r
    case Raised => Say(ProcessingApology)
  }

  /** Whether processing returns or raises, the endpoint reports at most one
      tool call, and only a successful one of the tool the message calls for. */
  lemma EndpointReportsOnlyIntended(userId: string, message: string, rx: Regexes, b: Backend, raised: bool)
    ensures var processed := if raised then Raised else Returned(Respond(userId, message, rx, b).reply);
            ReportsOnly(EndpointReply(processed), IntentName(Intent(rx, message)))
  {
    if !raised {
      AtMostOneToolCall(userId, message, rx, b);
    }
  }
}
