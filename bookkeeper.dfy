/**
 * The autonomous bookkeeper: an in-memory queue of bookkeeping tasks with a
 * busy flag, the operations that add, answer, clear, remove and execute
 * tasks, a sweep that runs every pending task in priority order, and the
 * bounded tool loop (`runWithClaude`) that carries out one task with the
 * model and the ledger.
 */
module Bookkeeper {
  import opened Wrappers
  import opened Json
  import opened Strings
  import opened Seqs
  import opened Llm
  import opened ToolExecutor
  import opened SettingsHelper

  datatype Status = Pending | Running | Completed | Failed | NeedsInput

  /**
   * A task priority. `Other` is a priority string outside the three the
   * type names, which the task route passes through unchecked.
   */
  datatype Priority = High | Medium | Low | Other(name: string)

  datatype Task = Task(
    id: string,
    kind: string,
    title: string,
    description: string,
    status: Status,
    priority: Priority,
    result: Option<string>,
    error: Option<string>,
    question: Option<string>,
    createdAt: string,
    completedAt: Option<string>)

  /** What `addTask` receives: the fields other than id, status and creation time. */
  datatype TaskDraft = TaskDraft(kind: string, title: string, description: string, priority: Priority)

  // ---------------------------------------------------------------------
  // The bounded tool loop of one task
  // ---------------------------------------------------------------------

  const MaxTaskLoops: nat := 10
  const TaskResultLimit: nat := 50000
  const TaskTruncationMarker: string := "... [truncated]"
  const NoSummary: string := "Task completed but no summary was generated."

  /** A serialised tool result over 50000 characters keeps its first 50000 and gains the marker. */
  function Truncate(s: string): (t: string)
    ensures |s| <= TaskResultLimit ==> t == s
    ensures |s| > TaskResultLimit ==>
      |t| == TaskResultLimit + 15 && t[..TaskResultLimit] == s[..TaskResultLimit] &&
      t[TaskResultLimit..] == TaskTruncationMarker
  {
    if |s| > TaskResultLimit then s[..TaskResultLimit] + TaskTruncationMarker else s
  }

  /** The body of an error result: `{ error: message }`. */
  function ErrorJson(e: Thrown): Json {
    JObj(map["error" := JStr(e.MessageOr("Tool execution failed"))])
  }

  /**
   * The tool_result block for one tool-use block of a task round. The tool
   * executor never throws, so only serialisation can fail; its error is
   * itself serialised into an error result, and a failure of that second
   * serialisation escapes.
   */
  function TaskResultBlock(ledger: Ledger, stringify: Stringify, u: Block): (r: Result<Block, Thrown>)
    requires u.ToolUse?
    ensures r.Ok? ==> r.value.ToolResult? && r.value.toolUseId == u.id
  {
    match stringify(OutcomeJson(ExecuteToolCall(ledger, u.name, u.input)))
    case Ok(s) => Ok(ToolResult(u.id, Truncate(s), false))
    case Err(e) =>
      match stringify(ErrorJson(e))
      case Ok(c) => Ok(ToolResult(u.id, c, true))
      case Err(e2) => Err(e2)
  }

  /**
   * A serialised envelope passes through `Truncate` as a normal result; a
   * serialisation error becomes an error result carrying `{ error }`, unless
   * that serialisation throws too.
   */
  lemma TaskResultContent(ledger: Ledger, stringify: Stringify, u: Block)
    requires u.ToolUse?
    ensures var first := stringify(OutcomeJson(ExecuteToolCall(ledger, u.name, u.input)));
      (first.Ok? ==> TaskResultBlock(ledger, stringify, u) == Ok(ToolResult(u.id, Truncate(first.value), false))) &&
      (first.Err? && stringify(ErrorJson(first.error)).Ok? ==>
        TaskResultBlock(ledger, stringify, u) == Ok(ToolResult(u.id, stringify(ErrorJson(first.error)).value, true))) &&
      (first.Err? && stringify(ErrorJson(first.error)).Err? ==>
        TaskResultBlock(ledger, stringify, u) == Err(stringify(ErrorJson(first.error)).error))
  {
  }

  /** The results of one task round, one per tool-use block, in block order. */
  function TaskToolResults(ledger: Ledger, stringify: Stringify, uses: seq<Block>): (r: Result<seq<Block>, Thrown>)
    requires forall j :: 0 <= j < |uses| ==> uses[j].ToolUse?
    ensures r.Ok? ==> |r.value| == |uses|
    ensures r.Ok? ==> forall j :: 0 <= j < |uses| ==> TaskResultBlock(ledger, stringify, uses[j]) == Ok(r.value[j])
    decreases |uses|
  {
    if |uses| == 0 then Ok([])
    else
      match TaskToolResults(ledger, stringify, uses[..|uses| - 1])
      case Err(e) => Err(e)
      case Ok(done) =>
        match TaskResultBlock(ledger, stringify, uses[|uses| - 1])
        case Err(e) => Err(e)
        case Ok(b) =>
          ResultsSnoc(ledger, stringify, uses, done, b);
          Ok(done + [b])
  }

  /** Appending the last block's result to the results of the blocks before it. */
  lemma ResultsSnoc(ledger: Ledger, stringify: Stringify, uses: seq<Block>, done: seq<Block>, b: Block)
    requires |uses| > 0 && forall j :: 0 <= j < |uses| ==> uses[j].ToolUse?
    requires |done| == |uses| - 1
    requires forall j :: 0 <= j < |uses| - 1 ==> TaskResultBlock(ledger, stringify, uses[..|uses| - 1][j]) == Ok(done[j])
    requires TaskResultBlock(ledger, stringify, uses[|uses| - 1]) == Ok(b)
    ensures forall j :: 0 <= j < |uses| ==> TaskResultBlock(ledger, stringify, uses[j]) == Ok((done + [b])[j])
  {
    forall j | 0 <= j < |uses| ensures TaskResultBlock(ledger, stringify, uses[j]) == Ok((done + [b])[j]) {
      if j < |uses| - 1 {
        assert uses[..|uses| - 1][j] == uses[j];
      }
    }
  }

  /** Every result of a task round answers the tool-use block at the same position, by id. */
  lemma TaskToolResultsMatchIds(ledger: Ledger, stringify: Stringify, uses: seq<Block>)
    requires forall j :: 0 <= j < |uses| ==> uses[j].ToolUse?
    requires TaskToolResults(ledger, stringify, uses).Ok?
    ensures var rs := TaskToolResults(ledger, stringify, uses).value;
      |rs| == |uses| && forall j :: 0 <= j < |uses| ==> rs[j].ToolResult? && rs[j].toolUseId == uses[j].id
  {
    var rs := TaskToolResults(ledger, stringify, uses).value;
    forall j | 0 <= j < |uses|
      ensures rs[j].ToolResult? && rs[j].toolUseId == uses[j].id
    {
      assert TaskResultBlock(ledger, stringify, uses[j]) == Ok(rs[j]);
    }
  }

  lemma TaskToolResultsStep(ledger: Ledger, stringify: Stringify, uses: seq<Block>, i: nat)
    requires forall j :: 0 <= j < |uses| ==> uses[j].ToolUse?
    requires i < |uses|
    ensures TaskToolResults(ledger, stringify, uses[..i + 1]) ==
      match TaskToolResults(ledger, stringify, uses[..i])
      case Err(e) => Err(e)
      case Ok(done) =>
        match TaskResultBlock(ledger, stringify, uses[i])
        case Err(e) => Err(e)
        case Ok(b) => Ok(done + [b])
  {
    assert uses[..i + 1][..i] == uses[..i];
    assert uses[..i + 1][i] == uses[i];
  }

  /** A failure in a prefix of the blocks is the failure of the whole round. */
  lemma {:induction false} TaskToolResultsErrExtends(ledger: Ledger, stringify: Stringify, uses: seq<Block>, i: nat)
    requires forall j :: 0 <= j < |uses| ==> uses[j].ToolUse?
    requires i <= |uses| && TaskToolResults(ledger, stringify, uses[..i]).Err?
    ensures TaskToolResults(ledger, stringify, uses) == TaskToolResults(ledger, stringify, uses[..i])
    decreases |uses| - i
  {
    if i < |uses| {
      TaskToolResultsStep(ledger, stringify, uses, i);
      TaskToolResultsErrExtends(ledger, stringify, uses, i + 1);
    } else {
      assert uses[..i] == uses;
    }
  }

  /** The inner `for` loop of `runWithClaude`: one result per tool-use block. */
  method RunTaskTools(ledger: Ledger, stringify: Stringify, uses: seq<Block>) returns (r: Result<seq<Block>, Thrown>)
    requires forall j :: 0 <= j < |uses| ==> uses[j].ToolUse?
    ensures r == TaskToolResults(ledger, stringify, uses)
  {
    var results: seq<Block> := [];
    var i := 0;
    while i < |uses|
      invariant 0 <= i <= |uses|
      invariant TaskToolResults(ledger, stringify, uses[..i]) == Ok(results)
    {
      var block := TaskResultBlock(ledger, stringify, uses[i]);
      TaskToolResultsStep(ledger, stringify, uses, i);
      if block.Err? {
        r := Err(block.error);
        TaskToolResultsErrExtends(ledger, stringify, uses, i + 1);
        return;
      }
      results := results + [block.value];
      i := i + 1;
    }
    assert uses[..|uses|] == uses;
    r := Ok(results);
  }

  /** Where the loop of `runWithClaude` stops: the messages sent, every response, and the text kept. */
  datatype TaskRun = TaskRun(messages: seq<Message>, responses: seq<Response>, finalText: string)

  /** The text a response contributes: its text blocks joined with "\n", when it has any. */
  function TextOf(response: Response, finalText: string): string {
    var texts := Texts(response.content);
    if |texts| > 0 then Join(texts, "\n") else finalText
  }

  /** A response ends the loop when it has no tool-use block or its stop reason is end_turn. */
  predicate EndsTask(response: Response) {
    |ToolUses(response.content)| == 0 || response.stopReason == EndTurn
  }

  /**
   * The loop of `runWithClaude` from a state with `messages` sent so far,
   * `responses` received and `finalText` kept: call the model while fewer
   * than 10 calls have been made, keep the latest text, stop on a response
   * that ends the task, and otherwise append the assistant turn and the
   * results turn.
   */
  function Converse(model: Model, ledger: Ledger, stringify: Stringify,
                    messages: seq<Message>, responses: seq<Response>, finalText: string): (r: Result<TaskRun, Thrown>)
    requires |responses| <= MaxTaskLoops
    ensures r.Ok? ==> |responses| <= |r.value.responses| <= MaxTaskLoops
    decreases MaxTaskLoops - |responses|
  {
    if |responses| == MaxTaskLoops then Ok(TaskRun(messages, responses, finalText))
    else
      match model(messages)
      case Err(e) => Err(e)
      case Ok(response) =>
        var text := TextOf(response, finalText);
        if EndsTask(response) then Ok(TaskRun(messages, responses + [response], text))
        else
          match TaskToolResults(ledger, stringify, ToolUses(response.content))
          case Err(e) => Err(e)
          case Ok(results) =>
            Converse(model, ledger, stringify,
              messages + [Message(Assistant, Parts(response.content)), Message(User, Parts(results))],
              responses + [response], text)
  }

  /** One round of the loop: a response that asks for tools continues the run from the extended state. */
  lemma ConverseStep(model: Model, ledger: Ledger, stringify: Stringify,
                     messages: seq<Message>, responses: seq<Response>, finalText: string,
                     response: Response, results: seq<Block>)
    requires |responses| < MaxTaskLoops
    requires model(messages) == Ok(response) && !EndsTask(response)
    requires TaskToolResults(ledger, stringify, ToolUses(response.content)) == Ok(results)
    ensures Converse(model, ledger, stringify, messages, responses, finalText)
         == Converse(model, ledger, stringify,
              messages + [Message(Assistant, Parts(response.content)), Message(User, Parts(results))],
              responses + [response], TextOf(response, finalText))
  {
  }

  /** A response that ends the task ends the run. */
  lemma ConverseEnd(model: Model, ledger: Ledger, stringify: Stringify,
                    messages: seq<Message>, responses: seq<Response>, finalText: string, response: Response)
    requires |responses| < MaxTaskLoops
    requires model(messages) == Ok(response) && EndsTask(response)
    ensures Converse(model, ledger, stringify, messages, responses, finalText)
         == Ok(TaskRun(messages, responses + [response], TextOf(response, finalText)))
  {
  }

  /** A thrown model call ends the run with that error. */
  lemma ConverseModelFails(model: Model, ledger: Ledger, stringify: Stringify,
                           messages: seq<Message>, responses: seq<Response>, finalText: string)
    requires |responses| < MaxTaskLoops && model(messages).Err?
    ensures Converse(model, ledger, stringify, messages, responses, finalText) == Err(model(messages).error)
  {
  }

  /** A round whose results cannot be serialised ends the run with that error. */
  lemma ConverseToolsFail(model: Model, ledger: Ledger, stringify: Stringify,
                          messages: seq<Message>, responses: seq<Response>, finalText: string, response: Response)
    requires |responses| < MaxTaskLoops
    requires model(messages) == Ok(response) && !EndsTask(response)
    requires TaskToolResults(ledger, stringify, ToolUses(response.content)).Err?
    ensures Converse(model, ledger, stringify, messages, responses, finalText)
         == Err(TaskToolResults(ledger, stringify, ToolUses(response.content)).error)
  {
  }

  /** What `runWithClaude` returns for an instruction. */
  function TaskOutcome(model: Model, ledger: Ledger, stringify: Stringify, instruction: string): Result<string, Thrown> {
    match Converse(model, ledger, stringify, [Message(User, Plain(instruction))], [], "")
    case Err(e) => Err(e)
    case Ok(run) => Ok(if run.finalText == "" then NoSummary else run.finalText)
  }

  /** The text of the latest response that had text blocks, or `fallback` when none had. */
  function LatestText(responses: seq<Response>, fallback: string): string
    decreases |responses|
  {
    if |responses| == 0 then fallback
    else if |Texts(responses[|responses| - 1].content)| > 0 then
      Join(Texts(responses[|responses| - 1].content), "\n")
    else LatestText(responses[..|responses| - 1], fallback)
  }

  lemma LatestTextSnoc(responses: seq<Response>, response: Response, fallback: string)
    ensures LatestText(responses + [response], fallback) == TextOf(response, LatestText(responses, fallback))
  {
    SnocPrefix(responses, response);
  }

  /** The text kept is always that of the latest response that had text blocks. */
  lemma {:induction false} ConverseKeepsLatestText(model: Model, ledger: Ledger, stringify: Stringify,
                                                   messages: seq<Message>, responses: seq<Response>, finalText: string)
    requires |responses| <= MaxTaskLoops
    requires finalText == LatestText(responses, "")
    requires Converse(model, ledger, stringify, messages, responses, finalText).Ok?
    ensures var run := Converse(model, ledger, stringify, messages, responses, finalText).value;
      run.finalText == LatestText(run.responses, "")
    decreases MaxTaskLoops - |responses|
  {
    if |responses| < MaxTaskLoops {
      var response := model(messages).value;
      LatestTextSnoc(responses, response, "");
      if !EndsTask(response) {
        var results := TaskToolResults(ledger, stringify, ToolUses(response.content)).value;
        ConverseKeepsLatestText(model, ledger, stringify,
          messages + [Message(Assistant, Parts(response.content)), Message(User, Parts(results))],
          responses + [response], TextOf(response, finalText));
      }
    }
  }

  /**
   * Every response before the last asked for tools; the loop stops at the
   * first response that ends the task, or after the tenth call.
   */
  lemma {:induction false} ConverseStopsAtFirstEnd(model: Model, ledger: Ledger, stringify: Stringify,
                                                   messages: seq<Message>, responses: seq<Response>, finalText: string)
    requires |responses| <= MaxTaskLoops
    requires forall k :: 0 <= k < |responses| ==> !EndsTask(responses[k])
    requires Converse(model, ledger, stringify, messages, responses, finalText).Ok?
    ensures var rs := Converse(model, ledger, stringify, messages, responses, finalText).value.responses;
      IsPrefixOf(responses, rs) &&
      (forall k :: 0 <= k < |rs| - 1 ==> !EndsTask(rs[k])) &&
      (|rs| == MaxTaskLoops || (|rs| > 0 && EndsTask(rs[|rs| - 1])))
    decreases MaxTaskLoops - |responses|
  {
    if |responses| < MaxTaskLoops {
      var response := model(messages).value;
      var next := responses + [response];
      SnocPrefix(responses, response);
      assert IsPrefixOf(responses, next);
      if !EndsTask(response) {
        var results := TaskToolResults(ledger, stringify, ToolUses(response.content)).value;
        var sent := messages + [Message(Assistant, Parts(response.content)), Message(User, Parts(results))];
        ConverseStep(model, ledger, stringify, messages, responses, finalText, response, results);
        ConverseStopsAtFirstEnd(model, ledger, stringify, sent, next, TextOf(response, finalText));
        var rs := Converse(model, ledger, stringify, sent, next, TextOf(response, finalText)).value.responses;
        PrefixTransitive(responses, next, rs);
      } else {
        ConverseEnd(model, ledger, stringify, messages, responses, finalText, response);
      }
    }
  }

  /** `runWithClaude` never returns an empty summary. */
  lemma TaskOutcomeNotEmpty(model: Model, ledger: Ledger, stringify: Stringify, instruction: string)
    requires TaskOutcome(model, ledger, stringify, instruction).Ok?
    ensures TaskOutcome(model, ledger, stringify, instruction).value != ""
    ensures TaskOutcome(model, ledger, stringify, instruction).value == NoSummary ||
      TaskOutcome(model, ledger, stringify, instruction).value ==
        LatestText(Converse(model, ledger, stringify, [Message(User, Plain(instruction))], [], "").value.responses, "")
  {
    ConverseKeepsLatestText(model, ledger, stringify, [Message(User, Plain(instruction))], [], "");
  }

  /** `runWithClaude`: the `while` loop, at most 10 model calls. */
  method RunWithClaude(model: Model, ledger: Ledger, stringify: Stringify, instruction: string)
    returns (r: Result<string, Thrown>)
    ensures r == TaskOutcome(model, ledger, stringify, instruction)
  {
    var messages := [Message(User, Plain(instruction))];
    ghost var target := Converse(model, ledger, stringify, messages, [], "");
    ghost var responses: seq<Response> := [];
    ghost var stopped := false;
    var finalText := "";
    var loops := 0;
    while loops < MaxTaskLoops
      invariant loops == |responses| <= MaxTaskLoops && !stopped
      invariant Converse(model, ledger, stringify, messages, responses, finalText) == target
    {
      loops := loops + 1;
      var response := model(messages);
      if response.Err? {
        ConverseModelFails(model, ledger, stringify, messages, responses, finalText);
        return Err(response.error);
      }
      var current := response.value;
      var uses := ToolUses(current.content);
      var texts := Texts(current.content);
      ghost var previous := finalText;
      if |texts| > 0 {
        finalText := Join(texts, "\n");
      }
      assert finalText == TextOf(current, previous);
      if |uses| == 0 || current.stopReason == EndTurn {
        ConverseEnd(model, ledger, stringify, messages, responses, previous, current);
        responses := responses + [current];
        stopped := true;
        break;
      }
      ghost var sent := messages;
      var turn := Message(Assistant, Parts(current.content));
      messages := messages + [turn];
      var results := RunTaskTools(ledger, stringify, uses);
      if results.Err? {
        ConverseToolsFail(model, ledger, stringify, sent, responses, previous, current);
        return Err(results.error);
      }
      ConverseStep(model, ledger, stringify, sent, responses, previous, current, results.value);
      AppendAssoc(sent, [turn], [Message(User, Parts(results.value))]);
      assert [turn] + [Message(User, Parts(results.value))] == [turn, Message(User, Parts(results.value))];
      messages := messages + [Message(User, Parts(results.value))];
      responses := responses + [current];
    }
    assert target == Ok(TaskRun(messages, responses, finalText));
    r := Ok(if finalText == "" then NoSummary else finalText);
  }

  // ---------------------------------------------------------------------
  // The queue
  // ---------------------------------------------------------------------

  /** The parts of a task run the model does not see as values. */
  datatype Agent = Agent(model: Model, ledger: Ledger, stringify: Stringify, prompt: string -> string)

  /** The five task kinds that run a fixed instruction; any other kind runs its description. */
  const BuiltInKinds: set<string> :=
    {"categorize_transactions", "overdue_followup", "reconcile_transactions", "upcoming_bills", "health_check"}

  /** The instruction a task runs: the fixed prompt of its kind, or its own description. */
  function Instruction(task: Task, prompt: string -> string): (s: string)
    ensures task.kind !in BuiltInKinds ==> s == task.description
  {
    if task.kind in BuiltInKinds then prompt(task.kind) else task.description
  }

  function NewTask(draft: TaskDraft, id: string, createdAt: string): Task {
    Task(id, draft.kind, draft.title, draft.description, Pending, draft.priority,
         None, None, None, createdAt, None)
  }

  /** `taskQueue.find(t => t.id === id)`, as the index of the first task with the id. */
  function FindTask(tasks: seq<Task>, id: string): (r: Option<nat>)
    ensures r.None? <==> forall j :: 0 <= j < |tasks| ==> tasks[j].id != id
    ensures r.Some? ==>
      r.value < |tasks| && tasks[r.value].id == id && forall j :: 0 <= j < r.value ==> tasks[j].id != id
    decreases |tasks|
  {
    if |tasks| == 0 then None
    else if tasks[0].id == id then Some(0)
    else match FindTask(tasks[1..], id)
      case None => None
      case Some(i) => Some(i + 1)
  }

  function Ids(tasks: seq<Task>): (r: seq<string>)
    ensures |r| == |tasks| && forall j :: 0 <= j < |tasks| ==> r[j] == tasks[j].id
  {
    seq(|tasks|, j requires 0 <= j < |tasks| => tasks[j].id)
  }

  predicate DistinctIds(tasks: seq<Task>) {
    forall i, j :: 0 <= i < j < |tasks| ==> tasks[i].id != tasks[j].id
  }

  predicate IsPending(t: Task) {
    t.status == Pending
  }

  /** Kept by `clearCompletedTasks`: neither completed nor failed. */
  predicate IsActive(t: Task) {
    t.status != Completed && t.status != Failed
  }

  predicate IsDone(s: Status) {
    s == Completed || s == Failed
  }

  /** A task after its run: completed with the run's text and the time, or failed with the error text. */
  function Finish(task: Task, outcome: Result<string, Thrown>, completedAt: string): (t: Task)
    ensures IsDone(t.status) && t.id == task.id
    ensures outcome.Ok? ==> t == task.(status := Completed, result := Some(outcome.value), completedAt := Some(completedAt))
    ensures outcome.Err? ==> t == task.(status := Failed, error := Some(outcome.error.MessageOr("Unknown error")))
  {
    match outcome
    case Ok(text) => task.(status := Completed, result := Some(text), completedAt := Some(completedAt))
    case Err(e) => task.(status := Failed, error := Some(e.MessageOr("Unknown error")))
  }

  const TaskNotFound: Thrown := ErrorObject("Task not found")
  const NoApiKey: Thrown := ErrorObject("API key not configured")

  /** The stored API key of the settings row; `executeTask` does not fall back to the environment. */
  predicate HasStoredKey(settings: Option<SettingsRow>) {
    TextColumn(settings, "anthropicApiKey") != ""
  }

  /**
   * `executeTask` as a function of the queue: the error or the finished
   * task, and the queue afterwards. Only the two guards throw; a failure of
   * the run is recorded on the task.
   */
  function Execute(tasks: seq<Task>, taskId: string, settings: Option<SettingsRow>, agent: Agent,
                   completedAt: string): (out: (Result<Task, Thrown>, seq<Task>))
    ensures out.0.Err? ==> out.1 == tasks && (out.0.error == TaskNotFound || out.0.error == NoApiKey)
    ensures out.0.Err? && out.0.error == TaskNotFound <==> FindTask(tasks, taskId).None?
    ensures out.0.Ok? <==> FindTask(tasks, taskId).Some? && HasStoredKey(settings)
    ensures out.0.Ok? ==>
      var i := FindTask(tasks, taskId).value;
      out.1 == tasks[i := out.0.value] && IsDone(out.0.value.status) && out.0.value.id == taskId
  {
    match FindTask(tasks, taskId)
    case None => (Err(TaskNotFound), tasks)
    case Some(i) =>
      if !HasStoredKey(settings) then (Err(NoApiKey), tasks)
      else
        var run := TaskOutcome(agent.model, agent.ledger, agent.stringify, Instruction(tasks[i], agent.prompt));
        var t := Finish(tasks[i], run, completedAt);
        (Ok(t), tasks[i := t])
  }

  /**
   * Rank of a priority in the sweep: high 0, medium 1, low 2. The source's
   * comparator gives NaN for any other priority, which leaves the order to
   * the JavaScript engine; the model ranks such a task last.
   */
  function Rank(p: Priority): nat {
    match p
    case High => 0
    case Medium => 1
    case Low => 2
    case Other(_) => 3
  }

  /** Sorting key of the sweep: a smaller rank comes first. */
  function SweepKey(t: Task): real {
    -(Rank(t.priority) as real)
  }

  /** The tasks a sweep runs: the pending ones, stably sorted by rank. */
  function SweepOrder(tasks: seq<Task>): seq<Task> {
    SortDesc(Filter(tasks, IsPending), SweepKey)
  }

  /** Every pending task has one of the three priorities the sweep's comparator knows. */
  predicate KnownPriorities(tasks: seq<Task>) {
    forall i :: 0 <= i < |tasks| && IsPending(tasks[i]) ==> !tasks[i].priority.Other?
  }

  /**
   * The sweep order holds exactly the pending tasks. When each of them has
   * a known priority, it is high before medium before low, keeping the
   * queue order within a priority.
   */
  lemma SweepOrderIsPrioritySorted(tasks: seq<Task>, rank: nat)
    ensures multiset(SweepOrder(tasks)) == multiset(Filter(tasks, IsPending))
    ensures KnownPriorities(tasks) ==> forall i, j :: 0 <= i < j < |SweepOrder(tasks)| ==>
      Rank(SweepOrder(tasks)[i].priority) <= Rank(SweepOrder(tasks)[j].priority)
    ensures KnownPriorities(tasks) ==>
      KeyClass(SweepOrder(tasks), SweepKey, -(rank as real)) == KeyClass(Filter(tasks, IsPending), SweepKey, -(rank as real))
  {
    SortDescSorted(Filter(tasks, IsPending), SweepKey);
    RankOrdered(SweepOrder(tasks));
    SortDescStable(Filter(tasks, IsPending), SweepKey, -(rank as real));
  }

  /**
   * The sweep ran the pending tasks in some order, as `Sweep` does: what
   * the sweep promises whatever order the engine's sort picks.
   */
  ghost predicate SweptInSomeOrder(before: seq<Task>, settings: Option<SettingsRow>, agent: Agent, clock: nat -> string,
                                   r: Result<(), Thrown>, after: seq<Task>) {
    exists order: seq<Task> :: multiset(order) == multiset(Filter(before, IsPending))
      && (r, after) == Sweep(before, Ids(order), settings, agent, clock, 0)
  }

  /** The model's sweep order is one of the orders the engine may pick. */
  lemma SweepOrderIsSomeOrder(before: seq<Task>, settings: Option<SettingsRow>, agent: Agent, clock: nat -> string,
                              r: Result<(), Thrown>, after: seq<Task>)
    requires (r, after) == Sweep(before, Ids(SweepOrder(before)), settings, agent, clock, 0)
    ensures SweptInSomeOrder(before, settings, agent, clock, r, after)
  {
    SweepOrderIsPrioritySorted(before, 0);
  }

  /** Descending sweep keys are ascending ranks. */
  lemma RankOrdered(order: seq<Task>)
    requires SortedDesc(order, SweepKey)
    ensures forall i, j :: 0 <= i < j < |order| ==> Rank(order[i].priority) <= Rank(order[j].priority)
  {
    forall i, j | 0 <= i < j < |order| ensures Rank(order[i].priority) <= Rank(order[j].priority) {
      assert SweepKey(order[i]) >= SweepKey(order[j]);
    }
  }

  /**
   * `processAllTasks` after the guard: execute the listed ids one at a time;
   * the k-th run finishes at `clock(step + k)`, and a thrown error aborts
   * the rest.
   */
  function Sweep(tasks: seq<Task>, ids: seq<string>, settings: Option<SettingsRow>, agent: Agent,
                 clock: nat -> string, step: nat): (out: (Result<(), Thrown>, seq<Task>))
    decreases |ids|
  {
    if |ids| == 0 then (Ok(()), tasks)
    else
      var (r, next) := Execute(tasks, ids[0], settings, agent, clock(step));
      if r.Err? then (Err(r.error), tasks)
      else Sweep(next, ids[1..], settings, agent, clock, step + 1)
  }

  /** Executing a task keeps the ids of the queue, in order. */
  lemma ExecuteKeepsIds(tasks: seq<Task>, taskId: string, settings: Option<SettingsRow>, agent: Agent, completedAt: string)
    ensures Ids(Execute(tasks, taskId, settings, agent, completedAt).1) == Ids(tasks)
  {
  }

  /** Every id listed is the id of a task of the queue. */
  predicate AllQueued(ids: seq<string>, tasks: seq<Task>) {
    forall k :: 0 <= k < |ids| ==> ids[k] in Ids(tasks)
  }

  /**
   * `after` is `before` with every task whose id is listed finished and
   * every other task as it was, in the same positions.
   */
  predicate FinishesListed(before: seq<Task>, after: seq<Task>, ids: seq<string>) {
    |after| == |before| &&
    forall j :: 0 <= j < |before| ==>
      after[j].id == before[j].id &&
      (before[j].id in ids ==> IsDone(after[j].status)) &&
      (before[j].id !in ids ==> after[j] == before[j])
  }

  /** Finishing one id and then the rest finishes them all. */
  lemma FinishesListedCompose(a: seq<Task>, b: seq<Task>, c: seq<Task>, ids: seq<string>)
    requires |ids| > 0 && FinishesListed(a, b, ids[..1]) && FinishesListed(b, c, ids[1..])
    ensures FinishesListed(a, c, ids)
  {
    forall j | 0 <= j < |a|
      ensures a[j].id in ids ==> IsDone(c[j].status)
      ensures a[j].id !in ids ==> c[j] == a[j]
    {
      assert a[j].id in ids <==> a[j].id in ids[..1] || a[j].id in ids[1..] by {
        assert ids == ids[..1] + ids[1..];
      }
    }
  }

  /**
   * With a stored key and distinct ids, a sweep over ids that are all in the
   * queue never aborts; it finishes every task whose id it lists and leaves
   * every other task as it was.
   */
  lemma {:induction false} SweepFinishesListed(tasks: seq<Task>, ids: seq<string>, settings: Option<SettingsRow>,
                                               agent: Agent, clock: nat -> string, step: nat)
    requires HasStoredKey(settings) && DistinctIds(tasks) && AllQueued(ids, tasks)
    ensures Sweep(tasks, ids, settings, agent, clock, step).0.Ok?
    ensures FinishesListed(tasks, Sweep(tasks, ids, settings, agent, clock, step).1, ids)
    decreases |ids|
  {
    if |ids| > 0 {
      ExecuteListed(tasks, ids, settings, agent, clock(step));
      var next := Execute(tasks, ids[0], settings, agent, clock(step)).1;
      SweepFinishesListed(next, ids[1..], settings, agent, clock, step + 1);
      FinishesListedCompose(tasks, next, Sweep(next, ids[1..], settings, agent, clock, step + 1).1, ids);
    }
  }

  /**
   * The first run of such a sweep: it succeeds, finishes the listed task,
   * keeps every other task and the ids, and leaves the rest of the ids in
   * the queue.
   */
  lemma ExecuteListed(tasks: seq<Task>, ids: seq<string>, settings: Option<SettingsRow>, agent: Agent, completedAt: string)
    requires HasStoredKey(settings) && DistinctIds(tasks) && |ids| > 0 && AllQueued(ids, tasks)
    ensures Execute(tasks, ids[0], settings, agent, completedAt).0.Ok?
    ensures DistinctIds(Execute(tasks, ids[0], settings, agent, completedAt).1)
    ensures AllQueued(ids[1..], Execute(tasks, ids[0], settings, agent, completedAt).1)
    ensures FinishesListed(tasks, Execute(tasks, ids[0], settings, agent, completedAt).1, ids[..1])
  {
    var found := FindTask(tasks, ids[0]);
    assert found.Some? by {
      var m :| 0 <= m < |tasks| && Ids(tasks)[m] == ids[0];
      assert tasks[m].id == ids[0];
    }
    var i := found.value;
    var next := Execute(tasks, ids[0], settings, agent, completedAt).1;
    ExecuteKeepsIds(tasks, ids[0], settings, agent, completedAt);
    assert DistinctIds(next) by {
      forall a, b | 0 <= a < b < |next| ensures next[a].id != next[b].id {
        assert Ids(next)[a] == Ids(tasks)[a] && Ids(next)[b] == Ids(tasks)[b];
      }
    }
    forall k | 0 <= k < |ids[1..]| ensures ids[1..][k] in Ids(next) {
      assert ids[1..][k] == ids[k + 1];
    }
    assert ids[..1] == [ids[0]];
    forall j | 0 <= j < |tasks|
      ensures next[j].id == tasks[j].id
      ensures tasks[j].id == ids[0] ==> j == i
    {
      assert Ids(next)[j] == Ids(tasks)[j];
    }
  }

  /**
   * `processAllTasks` with a stored key over a queue of distinct ids
   * finishes every pending task and changes no other task.
   */
  lemma SweepFinishesPending(tasks: seq<Task>, settings: Option<SettingsRow>, agent: Agent, clock: nat -> string)
    requires HasStoredKey(settings) && DistinctIds(tasks)
    ensures Sweep(tasks, Ids(SweepOrder(tasks)), settings, agent, clock, 0).0.Ok?
    ensures FinishesPending(tasks, Sweep(tasks, Ids(SweepOrder(tasks)), settings, agent, clock, 0).1)
  {
    SweepIds(tasks);
    SweepFinishesListed(tasks, Ids(SweepOrder(tasks)), settings, agent, clock, 0);
    ListedArePending(tasks, Sweep(tasks, Ids(SweepOrder(tasks)), settings, agent, clock, 0).1, Ids(SweepOrder(tasks)));
  }

  /** `after` is `before` with every pending task finished and every other task as it was. */
  predicate FinishesPending(before: seq<Task>, after: seq<Task>) {
    |after| == |before| &&
    forall j :: 0 <= j < |before| ==>
      (before[j].status == Pending ==> IsDone(after[j].status)) &&
      (before[j].status != Pending ==> after[j] == before[j])
  }

  /** Finishing the listed tasks finishes the pending ones when exactly the pending ids are listed. */
  lemma ListedArePending(before: seq<Task>, after: seq<Task>, ids: seq<string>)
    requires FinishesListed(before, after, ids)
    requires forall j :: 0 <= j < |before| ==> (before[j].status == Pending <==> before[j].id in ids)
    ensures FinishesPending(before, after)
  {
  }

  /** The sweep lists ids of the queue, and lists a task's id exactly when the task is pending. */
  lemma SweepIds(tasks: seq<Task>)
    requires DistinctIds(tasks)
    ensures AllQueued(Ids(SweepOrder(tasks)), tasks)
    ensures forall j :: 0 <= j < |tasks| ==> (tasks[j].status == Pending <==> tasks[j].id in Ids(SweepOrder(tasks)))
  {
    var order := SweepOrder(tasks);
    var pending := Filter(tasks, IsPending);
    var ids := Ids(order);
    assert multiset(order) == multiset(pending);
    forall k | 0 <= k < |ids| ensures ids[k] in Ids(tasks) {
      assert order[k] in multiset(pending);
      assert order[k] in multiset(tasks);
      var m :| 0 <= m < |tasks| && tasks[m] == order[k];
      assert Ids(tasks)[m] == ids[k];
    }
    forall j | 0 <= j < |tasks|
      ensures tasks[j].status == Pending ==> tasks[j].id in ids
      ensures tasks[j].status != Pending ==> tasks[j].id !in ids
    {
      if tasks[j].status == Pending {
        assert tasks[j] in pending;
        assert tasks[j] in multiset(order);
        var m :| 0 <= m < |order| && order[m] == tasks[j];
        assert ids[m] == tasks[j].id;
      } else if tasks[j].id in ids {
        var m :| 0 <= m < |ids| && ids[m] == tasks[j].id;
        ListedIsPending(tasks, order, j, m);
      }
    }
  }

  /** A task whose id the sweep order lists is pending, when ids are distinct. */
  lemma ListedIsPending(tasks: seq<Task>, order: seq<Task>, j: nat, m: nat)
    requires DistinctIds(tasks) && multiset(order) == multiset(Filter(tasks, IsPending))
    requires j < |tasks| && m < |order| && order[m].id == tasks[j].id
    ensures tasks[j].status == Pending
  {
    var pending := Filter(tasks, IsPending);
    assert order[m] in multiset(pending);
    assert order[m] in pending;
    assert order[m] in multiset(tasks);
    var n :| 0 <= n < |tasks| && tasks[n] == order[m];
    assert tasks[n].id == tasks[j].id;
  }

  /** The five tasks `generateDailyTasks` adds, in order. */
  const DailyDrafts: seq<TaskDraft> := [
    TaskDraft("categorize_transactions", "Categorize uncategorized bank transactions",
      "Review and categorize any uncategorized bank transactions using AI-powered categorization.", High),
    TaskDraft("overdue_followup", "Review overdue invoices",
      "Check for overdue invoices and prepare follow-up actions.", High),
    TaskDraft("reconcile_transactions", "Reconcile bank transactions",
      "Match unmatched bank transactions to invoices, bills, and expenses.", Medium),
    TaskDraft("upcoming_bills", "Review upcoming bills",
      "Check for bills due in the next 7 days and ensure they are ready for payment.", Medium),
    TaskDraft("health_check", "Daily financial health check",
      "Run a quick check on cash position, outstanding receivables, and any anomalies.", Low)
  ]

  /** The daily tasks all run fixed instructions, with priorities high, high, medium, medium, low. */
  lemma DailyDraftsArePlanned()
    ensures |DailyDrafts| == 5
    ensures forall k :: 0 <= k < 5 ==> DailyDrafts[k].kind in BuiltInKinds
    ensures [DailyDrafts[0].priority, DailyDrafts[1].priority, DailyDrafts[2].priority,
             DailyDrafts[3].priority, DailyDrafts[4].priority] == [High, High, Medium, Medium, Low]
  {
  }

  /** The module-level task list and its busy flag. */
  class TaskQueue {
    var tasks: seq<Task>
    var isRunning: bool

    constructor()
      ensures tasks == [] && !isRunning
    {
      tasks := [];
      isRunning := false;
    }

    /** `getTaskQueue`: a copy of the list. */
    method GetTaskQueue() returns (snapshot: seq<Task>)
      ensures snapshot == tasks
    {
      snapshot := tasks;
    }

    /** `addTask`: append one pending task with the given id and creation time. */
    method AddTask(draft: TaskDraft, id: string, createdAt: string) returns (task: Task)
      modifies this
      ensures task == NewTask(draft, id, createdAt) && task.status == Pending
      ensures tasks == old(tasks) + [task] && isRunning == old(isRunning)
      ensures id !in Ids(old(tasks)) && DistinctIds(old(tasks)) ==> DistinctIds(tasks)
    {
      task := NewTask(draft, id, createdAt);
      tasks := tasks + [task];
    }

    /** `answerQuestion`: answer the first task with the id if it awaits input, and re-queue it. */
    method AnswerQuestion(taskId: string, answer: Option<string>) returns (ok: bool)
      modifies this
      ensures ok <==> FindTask(old(tasks), taskId).Some? && old(tasks)[FindTask(old(tasks), taskId).value].status == NeedsInput
      ensures ok ==> var i := FindTask(old(tasks), taskId).value;
        tasks == old(tasks)[i := old(tasks)[i].(result := answer, status := Pending)]
      ensures !ok ==> tasks == old(tasks)
      ensures isRunning == old(isRunning)
    {
      var found := FindTask(tasks, taskId);
      if found.Some? && tasks[found.value].status == NeedsInput {
        var i := found.value;
        tasks := tasks[i := tasks[i].(result := answer, status := Pending)];
        return true;
      }
      return false;
    }

    /** `clearCompletedTasks`: drop the completed and failed tasks, keeping the order of the rest. */
    method ClearCompletedTasks()
      modifies this
      ensures tasks == Filter(old(tasks), IsActive) && isRunning == old(isRunning)
    {
      tasks := Filter(tasks, IsActive);
    }

    /** `removeTask`: splice out the first task with the id. */
    method RemoveTask(taskId: string) returns (ok: bool)
      modifies this
      ensures ok <==> FindTask(old(tasks), taskId).Some?
      ensures ok ==> var i := FindTask(old(tasks), taskId).value;
        tasks == old(tasks)[..i] + old(tasks)[i + 1..]
      ensures !ok ==> tasks == old(tasks)
      ensures isRunning == old(isRunning)
    {
      var found := FindTask(tasks, taskId);
      if found.Some? {
        var i := found.value;
        tasks := tasks[..i] + tasks[i + 1..];
        return true;
      }
      return false;
    }

    /** `generateDailyTasks`: add the five daily tasks, with the ids and times the clock gives. */
    method GenerateDailyTasks(ids: seq<string>, stamps: seq<string>) returns (created: seq<Task>)
      requires |ids| == 5 && |stamps| == 5
      modifies this
      ensures |created| == 5 && tasks == old(tasks) + created && isRunning == old(isRunning)
      ensures forall k :: 0 <= k < 5 ==> created[k] == NewTask(DailyDrafts[k], ids[k], stamps[k])
    {
      created := [];
      var t := AddTask(DailyDrafts[0], ids[0], stamps[0]);
      created := created + [t];
      t := AddTask(DailyDrafts[1], ids[1], stamps[1]);
      created := created + [t];
      t := AddTask(DailyDrafts[2], ids[2], stamps[2]);
      created := created + [t];
      t := AddTask(DailyDrafts[3], ids[3], stamps[3]);
      created := created + [t];
      t := AddTask(DailyDrafts[4], ids[4], stamps[4]);
      created := created + [t];
    }

    /**
     * `executeTask`: find the task, require a stored key, mark it running,
     * run its instruction and record the outcome on it.
     */
    method ExecuteTask(taskId: string, settings: Option<SettingsRow>, agent: Agent, completedAt: string)
      returns (r: Result<Task, Thrown>)
      modifies this
      ensures (r, tasks) == Execute(old(tasks), taskId, settings, agent, completedAt)
      ensures isRunning == old(isRunning)
    {
      var found := FindTask(tasks, taskId);
      if found.None? {
        return Err(TaskNotFound);
      }
      if TextColumn(settings, "anthropicApiKey") == "" {
        return Err(NoApiKey);
      }
      var i := found.value;
      var before := tasks;
      tasks := tasks[i := tasks[i].(status := Running)];
      var outcome := RunWithClaude(agent.model, agent.ledger, agent.stringify, Instruction(before[i], agent.prompt));
      var task := Finish(tasks[i], outcome, completedAt);
      assert task == Finish(before[i], outcome, completedAt);
      tasks := tasks[i := task];
      assert tasks == before[i := task];
      r := Ok(task);
    }

    /**
     * `processAllTasks`: nothing while a sweep is running; otherwise run the
     * pending tasks in sweep order, the k-th finishing at `clock(k)`, and
     * clear the flag however the sweep ends.
     */
    method ProcessAllTasks(settings: Option<SettingsRow>, agent: Agent, clock: nat -> string)
      returns (r: Result<(), Thrown>)
      modifies this
      ensures old(isRunning) ==> r == Ok(()) && tasks == old(tasks) && isRunning
      ensures !old(isRunning) ==> !isRunning && SweptInSomeOrder(old(tasks), settings, agent, clock, r, tasks)
      ensures !old(isRunning) && KnownPriorities(old(tasks)) ==>
        (r, tasks) == Sweep(old(tasks), Ids(SweepOrder(old(tasks))), settings, agent, clock, 0)
    {
      if isRunning {
        return Ok(());
      }
      isRunning := true;
      var pending := SortDesc(Filter(tasks, IsPending), SweepKey);
      ghost var start := tasks;
      ghost var ids := Ids(pending);
      var k := 0;
      while k < |pending|
        invariant 0 <= k <= |pending| && isRunning
        invariant Sweep(tasks, ids[k..], settings, agent, clock, k) == Sweep(start, ids, settings, agent, clock, 0)
      {
        assert ids[k..][0] == pending[k].id && ids[k..][1..] == ids[k + 1..];
        var out := ExecuteTask(pending[k].id, settings, agent, clock(k));
        if out.Err? {
          isRunning := false;
          r := Err(out.error);
          SweepOrderIsSomeOrder(start, settings, agent, clock, r, tasks);
          return;
        }
        k := k + 1;
      }
      isRunning := false;
      r := Ok(());
      SweepOrderIsSomeOrder(start, settings, agent, clock, r, tasks);
    }
  }

  /** A task whose settings have no stored key is reported, and the queue is left as it was. */
  lemma ExecuteWithoutKeyChangesNothing(tasks: seq<Task>, taskId: string, settings: Option<SettingsRow>,
                                        agent: Agent, completedAt: string)
    requires !HasStoredKey(settings)
    ensures Execute(tasks, taskId, settings, agent, completedAt).1 == tasks
    ensures Execute(tasks, taskId, settings, agent, completedAt).0.Err?
  {
  }
}
