/**
 * The task API (`/api/bookkeeper/tasks`): a status summary of the queue on
 * GET, an action dispatch on POST, and removal by id on DELETE.
 */
module TasksRoute {
  import opened Wrappers
  import opened Json
  import opened Strings
  import opened Seqs
  import opened Http
  import opened SettingsHelper
  import opened Bookkeeper

  function StatusName(s: Status): string {
    match s
    case Pending => "pending"
    case Running => "running"
    case Completed => "completed"
    case Failed => "failed"
    case NeedsInput => "needs_input"
  }

  function PriorityName(p: Priority): string {
    match p
    case High => "high"
    case Medium => "medium"
    case Low => "low"
    case Other(name) => name
  }

  /** A priority string as the queue stores it. */
  function ParsePriority(s: string): (p: Priority)
    ensures PriorityName(p) == s
  {
    if s == "high" then High
    else if s == "medium" then Medium
    else if s == "low" then Low
    else Other(s)
  }

  /** An optional field: present in the JSON only when set. */
  function OptionalField(fields: map<string, Json>, key: string, v: Option<string>): map<string, Json> {
    if v.Some? then fields[key := JStr(v.value)] else fields
  }

  /** A task as the JSON reply shows it. */
  function TaskJson(t: Task): (j: Json)
    ensures Get(j, "id") == JStr(t.id) && Get(j, "status") == JStr(StatusName(t.status))
  {
    var base := map[
      "id" := JStr(t.id), "type" := JStr(t.kind), "title" := JStr(t.title),
      "description" := JStr(t.description), "status" := JStr(StatusName(t.status)),
      "priority" := JStr(PriorityName(t.priority)), "createdAt" := JStr(t.createdAt)];
    var withResult := OptionalField(base, "result", t.result);
    var withError := OptionalField(withResult, "error", t.error);
    var withQuestion := OptionalField(withError, "question", t.question);
    JObj(OptionalField(withQuestion, "completedAt", t.completedAt))
  }

  function TasksJson(tasks: seq<Task>): (j: Json)
    ensures j.JArr? && |j.items| == |tasks|
  {
    JArr(seq(|tasks|, i requires 0 <= i < |tasks| => TaskJson(tasks[i])))
  }

  /** The number of tasks in a status. */
  function CountStatus(tasks: seq<Task>, s: Status): (n: nat)
    ensures n <= |tasks|
    ensures n == 0 <==> forall j :: 0 <= j < |tasks| ==> tasks[j].status != s
    decreases |tasks|
  {
    if |tasks| == 0 then 0
    else
      (if tasks[0].status == s then 1 else 0) + CountStatus(tasks[1..], s)
  }

  datatype TaskSummary = TaskSummary(total: nat, pending: nat, running: nat, completed: nat, failed: nat, needsInput: nat)

  /** Lines 18-25: the status counts of the queue. */
  function Summarize(tasks: seq<Task>): (s: TaskSummary)
    ensures s.total == |tasks|
    ensures s.pending == CountStatus(tasks, Pending) && s.running == CountStatus(tasks, Running)
    ensures s.completed == CountStatus(tasks, Completed) && s.failed == CountStatus(tasks, Failed)
    ensures s.needsInput == CountStatus(tasks, NeedsInput)
  {
    TaskSummary(|tasks|, CountStatus(tasks, Pending), CountStatus(tasks, Running),
                CountStatus(tasks, Completed), CountStatus(tasks, Failed), CountStatus(tasks, NeedsInput))
  }

  /** Every task is in exactly one status, so the five counts add up to the total. */
  lemma {:induction false} SummaryCountsAddUp(tasks: seq<Task>)
    ensures var s := Summarize(tasks);
      s.pending + s.running + s.completed + s.failed + s.needsInput == s.total
    decreases |tasks|
  {
    if |tasks| > 0 {
      SummaryCountsAddUp(tasks[1..]);
    }
  }

  function SummaryJson(s: TaskSummary): Json {
    JObj(map["total" := JNum(s.total), "pending" := JNum(s.pending), "running" := JNum(s.running),
             "completed" := JNum(s.completed), "failed" := JNum(s.failed), "needsInput" := JNum(s.needsInput)])
  }

  /** GET: the queue and its summary. */
  function TasksGet(tasks: seq<Task>): (reply: Reply)
    ensures reply.status == 200
    ensures Get(reply.body, "tasks") == TasksJson(tasks)
    ensures Get(reply.body, "summary") == SummaryJson(Summarize(tasks))
  {
    OkReply(map["tasks" := TasksJson(tasks), "summary" := SummaryJson(Summarize(tasks))])
  }

  /** Lines 69-75: the draft of the "add" action, each field defaulted when falsy. */
  function AddDraft(body: Json): (d: TaskDraft)
    ensures !Truthy(Get(body, "type")) ==> d.kind == "custom"
    ensures !Truthy(Get(body, "title")) ==> d.title == "Custom task"
    ensures !Truthy(Get(body, "description")) ==> d.description == ""
    ensures !Truthy(Get(body, "priority")) ==> d.priority == Medium
    ensures Get(body, "priority") == JStr("high") ==> d.priority == High
  {
    TaskDraft(StrOr(Get(body, "type"), "custom"), StrOr(Get(body, "title"), "Custom task"),
              StrOr(Get(body, "description"), ""), ParsePriority(StrOr(Get(body, "priority"), "medium")))
  }

  /** The answer stored by the "answer" action: a string, or nothing for any other value. */
  function AnswerValue(v: Json): Option<string> {
    if v.JStr? then Some(v.s) else None
  }

  /** The catch block of POST. */
  function TaskFailure(e: Thrown): Reply {
    ErrorReply(500, e.MessageOr("Task operation failed"))
  }

  /** The actions POST dispatches on. */
  datatype Action = GenerateDaily | ExecuteOne | ExecuteAll | AddOne | AnswerOne | ClearCompleted | Unknown

  /** Which `case` of the switch on `action` is taken; strict equality, so only these strings select one. */
  function ActionOf(action: Json): (a: Action)
    ensures a == GenerateDaily <==> action == JStr("generate_daily")
    ensures a == ExecuteOne <==> action == JStr("execute")
    ensures a == ExecuteAll <==> action == JStr("execute_all")
    ensures a == AddOne <==> action == JStr("add")
    ensures a == AnswerOne <==> action == JStr("answer")
    ensures a == ClearCompleted <==> action == JStr("clear_completed")
  {
    if action == JStr("generate_daily") then GenerateDaily
    else if action == JStr("execute") then ExecuteOne
    else if action == JStr("execute_all") then ExecuteAll
    else if action == JStr("add") then AddOne
    else if action == JStr("answer") then AnswerOne
    else if action == JStr("clear_completed") then ClearCompleted
    else Unknown
  }

  /** "add": the defaulted task is appended and returned. */
  ghost predicate AddAnswered(before: seq<Task>, after: seq<Task>, request: Json, id: string, stamp: string, reply: Reply) {
    var task := NewTask(AddDraft(request), id, stamp);
    after == before + [task] && reply == OkReply(map["success" := JBool(true), "task" := TaskJson(task)])
  }

  /**
   * "execute": a falsy task id answers 400 and changes nothing; a string id
   * runs `executeTask`, whose throw is the 500 reply; any other truthy id
   * matches no task, so it is the 500 "Task not found" reply.
   */
  ghost predicate ExecuteAnswered(before: seq<Task>, after: seq<Task>, request: Json, settings: Option<SettingsRow>,
                                  agent: Agent, completedAt: string, reply: Reply) {
    var taskId := Get(request, "taskId");
    && (!Truthy(taskId) ==> reply == ErrorReply(400, "taskId required") && after == before)
    && (Truthy(taskId) && !taskId.JStr? ==> reply == TaskFailure(TaskNotFound) && after == before)
    && (taskId.JStr? && taskId.s != "" ==>
          var (r, tasks) := Execute(before, taskId.s, settings, agent, completedAt);
          && after == tasks
          && (r.Ok? ==> reply == OkReply(map["success" := JBool(true), "task" := TaskJson(r.value)]))
          && (r.Err? ==> reply == TaskFailure(r.error)))
  }

  /** "generate_daily": the five planned tasks are appended, in order, and returned with their number. */
  ghost predicate DailyAnswered(before: seq<Task>, after: seq<Task>, ids: seq<string>, stamps: seq<string>, reply: Reply)
    requires |ids| == 5 && |stamps| == 5
  {
    var n := |before|;
    && |after| == n + 5 && after[..n] == before
    && (forall k :: 0 <= k < 5 ==> after[n + k] == NewTask(DailyDrafts[k], ids[k], stamps[k]))
    && reply == OkReply(map["success" := JBool(true), "tasks" := TasksJson(after[n..]),
                            "message" := JStr("Generated " + NatToString(5) + " daily tasks")])
  }

  /**
   * "execute_all": the sweep of `processAllTasks`, unless one is already
   * running, and the reply that it is under way.
   */
  ghost predicate SweepAnswered(before: seq<Task>, after: seq<Task>, running: bool, settings: Option<SettingsRow>,
                                agent: Agent, clock: nat -> string, reply: Reply) {
    && reply == OkReply(map["success" := JBool(true), "message" := JStr("Processing all pending tasks...")])
    && (running ==> after == before)
    && (!running ==> exists r :: SweptInSomeOrder(before, settings, agent, clock, r, after))
    && (!running && KnownPriorities(before) ==> after == Sweep(before, Ids(SweepOrder(before)), settings, agent, clock, 0).1)
  }

  /**
   * "answer": the reply says whether the first task with the id awaited
   * input, and only then does that task become pending with the answer.
   */
  ghost predicate AnswerAnswered(before: seq<Task>, after: seq<Task>, request: Json, reply: Reply) {
    var taskId := Get(request, "taskId");
    var found := if taskId.JStr? then FindTask(before, taskId.s) else None;
    var ok := found.Some? && before[found.value].status == NeedsInput;
    && reply == OkReply(map["success" := JBool(ok)])
    && (ok ==> after == before[found.value := before[found.value].(result := AnswerValue(Get(request, "answer")),
                                                                  status := Pending)])
    && (!ok ==> after == before)
  }

  /**
   * What POST answers and leaves in the queue: a disconnected ledger is
   * refused before the body is read, a body that is not JSON or is null
   * throws into the 500 handler, each known action is answered as its own
   * predicate says, and an unknown one gets 400 "Unknown action: <action>"
   * with the queue unchanged.
   */
  ghost predicate PostAnswered(before: seq<Task>, after: seq<Task>, running: bool, connected: bool,
                               body: Result<Json, Thrown>, settings: Option<SettingsRow>, agent: Agent,
                               ids: seq<string>, stamps: seq<string>, completedAt: string, clock: nat -> string,
                               reply: Reply)
    requires |ids| == 5 && |stamps| == 5
  {
    if !connected then reply == ErrorReply(400, NotConnectedMessage) && after == before
    else if body.Err? then reply == TaskFailure(body.error) && after == before
    else if body.value == JNull then
      reply == TaskFailure(ErrorObject(NullDestructureMessage("action", "body"))) && after == before
    else
      var request := body.value;
      match ActionOf(Get(request, "action"))
      case GenerateDaily => DailyAnswered(before, after, ids, stamps, reply)
      case ExecuteOne => ExecuteAnswered(before, after, request, settings, agent, completedAt, reply)
      case ExecuteAll => SweepAnswered(before, after, running, settings, agent, clock, reply)
      case AddOne => AddAnswered(before, after, request, ids[0], stamps[0], reply)
      case AnswerOne => AnswerAnswered(before, after, request, reply)
      case ClearCompleted => after == Filter(before, IsActive) && reply == OkReply(map["success" := JBool(true)])
      case Unknown =>
        reply == ErrorReply(400, "Unknown action: " + ToJsString(Get(request, "action"))) && after == before
  }

  /**
   * POST: refuse when the ledger is not connected, then dispatch on
   * `action`. `ids` and `stamps` are the ids and creation times the clock
   * gives the tasks this request adds, `completedAt` the time an executed
   * task finishes and `clock` the times of a sweep.
   */
  method TasksPost(q: TaskQueue, connected: bool, body: Result<Json, Thrown>,
                   settings: Option<SettingsRow>, agent: Agent,
                   ids: seq<string>, stamps: seq<string>, completedAt: string, clock: nat -> string)
    returns (reply: Reply)
    requires |ids| == 5 && |stamps| == 5
    modifies q
    ensures PostAnswered(old(q.tasks), q.tasks, old(q.isRunning), connected, body, settings, agent,
                         ids, stamps, completedAt, clock, reply)
    ensures q.isRunning == old(q.isRunning)
  {
    if !connected {
      return ErrorReply(400, NotConnectedMessage);
    }
    if body.Err? {
      return TaskFailure(body.error);
    }
    var request := body.value;
    if request == JNull {
      return TaskFailure(ErrorObject(NullDestructureMessage("action", "body")));
    }
    var action := Get(request, "action");
    match ActionOf(action)
    case GenerateDaily => reply := PostGenerateDaily(q, ids, stamps);
    case ExecuteOne => reply := PostExecute(q, request, settings, agent, completedAt);
    case ExecuteAll => reply := PostExecuteAll(q, settings, agent, clock);
    case AddOne => reply := PostAdd(q, request, ids[0], stamps[0]);
    case AnswerOne => reply := PostAnswer(q, request);
    case ClearCompleted =>
      q.ClearCompletedTasks();
      reply := OkReply(map["success" := JBool(true)]);
    case Unknown =>
      reply := ErrorReply(400, "Unknown action: " + ToJsString(action));
  }

  method PostGenerateDaily(q: TaskQueue, ids: seq<string>, stamps: seq<string>) returns (reply: Reply)
    requires |ids| == 5 && |stamps| == 5
    modifies q
    ensures DailyAnswered(old(q.tasks), q.tasks, ids, stamps, reply)
    ensures q.isRunning == old(q.isRunning)
  {
    var created := q.GenerateDailyTasks(ids, stamps);
    reply := OkReply(map["success" := JBool(true), "tasks" := TasksJson(created),
                         "message" := JStr("Generated " + NatToString(|created|) + " daily tasks")]);
  }

  method PostExecute(q: TaskQueue, request: Json, settings: Option<SettingsRow>, agent: Agent, completedAt: string)
    returns (reply: Reply)
    modifies q
    ensures ExecuteAnswered(old(q.tasks), q.tasks, request, settings, agent, completedAt, reply)
    ensures q.isRunning == old(q.isRunning)
  {
    var taskId := Get(request, "taskId");
    if !Truthy(taskId) {
      return ErrorReply(400, "taskId required");
    }
    if !taskId.JStr? {
      // `===` never matches a non-string against the string ids.
      return TaskFailure(TaskNotFound);
    }
    var r := q.ExecuteTask(taskId.s, settings, agent, completedAt);
    if r.Err? {
      return TaskFailure(r.error);
    }
    reply := OkReply(map["success" := JBool(true), "task" := TaskJson(r.value)]);
  }

  method PostExecuteAll(q: TaskQueue, settings: Option<SettingsRow>, agent: Agent, clock: nat -> string)
    returns (reply: Reply)
    modifies q
    ensures SweepAnswered(old(q.tasks), q.tasks, old(q.isRunning), settings, agent, clock, reply)
    ensures q.isRunning == old(q.isRunning)
  {
    var swept := q.ProcessAllTasks(settings, agent, clock);
    reply := OkReply(map["success" := JBool(true), "message" := JStr("Processing all pending tasks...")]);
  }

  method PostAdd(q: TaskQueue, request: Json, id: string, stamp: string) returns (reply: Reply)
    modifies q
    ensures AddAnswered(old(q.tasks), q.tasks, request, id, stamp, reply)
    ensures q.isRunning == old(q.isRunning)
  {
    var task := q.AddTask(AddDraft(request), id, stamp);
    reply := OkReply(map["success" := JBool(true), "task" := TaskJson(task)]);
  }

  method PostAnswer(q: TaskQueue, request: Json) returns (reply: Reply)
    modifies q
    ensures AnswerAnswered(old(q.tasks), q.tasks, request, reply)
    ensures q.isRunning == old(q.isRunning)
  {
    var taskId := Get(request, "taskId");
    var ok := false;
    if taskId.JStr? {
      ok := q.AnswerQuestion(taskId.s, AnswerValue(Get(request, "answer")));
    }
    reply := OkReply(map["success" := JBool(ok)]);
  }

  /** DELETE: remove the task named by the `taskId` query parameter. */
  method TasksDelete(q: TaskQueue, taskId: Option<string>) returns (reply: Reply)
    modifies q
    ensures taskId.None? || taskId.value == "" ==> reply == ErrorReply(400, "taskId required") && q.tasks == old(q.tasks)
    ensures taskId.Some? && taskId.value != "" ==>
      reply == OkReply(map["success" := JBool(FindTask(old(q.tasks), taskId.value).Some?)])
    ensures taskId.Some? && taskId.value != "" && FindTask(old(q.tasks), taskId.value).Some? ==>
      var i := FindTask(old(q.tasks), taskId.value).value;
      q.tasks == old(q.tasks)[..i] + old(q.tasks)[i + 1..]
    ensures taskId.Some? && taskId.value != "" && FindTask(old(q.tasks), taskId.value).None? ==> q.tasks == old(q.tasks)
    ensures q.isRunning == old(q.isRunning)
  {
    if taskId.None? || taskId.value == "" {
      return ErrorReply(400, "taskId required");
    }
    var ok := q.RemoveTask(taskId.value);
    reply := OkReply(map["success" := JBool(ok)]);
  }
}
