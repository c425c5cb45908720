/**
 * The task specialist of src/lib/agents/TaskAgent.ts: creating a task from the extracted
 * parameters, listing a user's tasks with their status counts, and changing a task's status
 * after checking, in order, the arguments, the task's existence and its owner.
 */
module TaskAgent {
  import opened Common
  import opened Strings
  import opened Store
  import opened Responses
  import Tracker

  // ---------------------------------------------------------------------------
  // addTask

  /** The priority column: MEDIUM when the field is absent, the named priority otherwise. */
  function PriorityField(data: Fields): (r: Result<Priority>)
    ensures "priority" !in data ==> r == Ok(MEDIUM)
    ensures "priority" in data ==>
              (r.Ok? <==> data["priority"].Str? && ParsePriority(data["priority"].s).Some?)
    ensures r.Ok? && "priority" in data ==> Some(r.value) == ParsePriority(data["priority"].s)
  {
    if "priority" !in data then Ok(MEDIUM)
    else if data["priority"].Str? && ParsePriority(data["priority"].s).Some? then Ok(ParsePriority(data["priority"].s).value)
    else Err(StoreFailure)
  }

  /**
   * The row `addTask` asks the store to create, once the title is known to be given: the title,
   * the description, the priority (MEDIUM by default) and the due date (null unless given;
   * `toDate` is the `Date` constructor, None for an invalid date). A mistyped or invalid field
   * makes the store reject the row.
   */
  function TaskRow(data: Fields, id: string, userId: string, toDate: Value -> Option<int>): (r: Result<Task>)
    requires Given(data, "title")
    ensures r.Ok? <==> data["title"].Str? && TextField(data, "description").Ok? && PriorityField(data).Ok?
                       && (Given(data, "dueDate") ==> toDate(data["dueDate"]).Some?)
    ensures r.Ok? ==> r.value == NewTask(id, userId, data["title"].s, TextField(data, "description").value,
                                         PriorityField(data).value,
                                         if Given(data, "dueDate") then toDate(data["dueDate"]) else None,
                                         None, None, None)
  {
    if !data["title"].Str? then Err(StoreFailure)
    else
      var description := TextField(data, "description");
      var priority := PriorityField(data);
      if description.Err? then Err(description.message)
      else if priority.Err? then Err(priority.message)
      else if Given(data, "dueDate") && toDate(data["dueDate"]).None? then Err(StoreFailure)
      else
        var dueDate := if Given(data, "dueDate") then toDate(data["dueDate"]) else None;
        Ok(NewTask(id, userId, data["title"].s, description.value, priority.value, dueDate, None, None, None))
  }

  const AddedRemark := " Another task conquered, or at least identified. Progress!"

  /**
   * The confirmation for a created task: formal from formality 7 upwards, with the optional
   * remark when the humour dial is at least 6 and the coin flip came up.
   */
  function AddedContent(title: string, formality: int, humour: int, roll: bool): (c: string)
    ensures var base := if Formal(formality)
                        then "I've taken the liberty of creating the task \"" + title + "\" for you, Sir/Madam."
                        else "Task \"" + title + "\" has been created successfully";
            && (c == base || c == base + AddedRemark)
            && (c != base <==> humour >= 6 && roll)
  {
    var base := if Formal(formality)
                then "I've taken the liberty of creating the task \"" + title + "\" for you, Sir/Madam."
                else "Task \"" + title + "\" has been created successfully";
    WithHumour(base, humour, roll, AddedRemark)
  }

  /** The success response of `addTask`: the task as raw content and the fixed personality block. */
  function AddedResponse(task: Task, formality: int, humour: int, hour: int, roll: bool): Response
  {
    SuccessResponse(AddedContent(task.title, formality, humour, roll), TaskList, Some(TaskRaw(task)),
                    Some(Personality(Some(SirGreeting(hour)), Some("Certainly, Sir/Madam."),
                                     Some("Task created successfully."), None)))
  }

  /**
   * `addTask`: a missing (falsy) title is refused before the store is touched; otherwise the
   * task is created under the fresh id `id`, and a store failure is reported as a failed create.
   */
  function AddTask(rows: map<string, Task>, data: Fields, id: string, userId: string,
                   toDate: Value -> Option<int>, preferences: Option<Fields>, hour: int, roll: bool): Outcome<Task>
  {
    if !Given(data, "title") then Outcome(ErrorResponse("Task title is required"), rows)
    else
      var row := TaskRow(data, id, userId, toDate);
      if row.Err? then Outcome(ErrorResponse("Failed to create task", Some(row.message)), rows)
      else if id in rows then Outcome(ErrorResponse("Failed to create task", Some(StoreFailure)), rows)
      else Outcome(AddedResponse(row.value, Formality(preferences), Humour(preferences), hour, roll),
                   rows[id := row.value])
  }

  /**
   * `addTask` writes exactly one new row, and only on success; without a title nothing is
   * written and the title error is returned. The new row is pending, MEDIUM unless a priority
   * is given, and has no due date unless one is given.
   */
  lemma AddTaskWritesOnlyOnSuccess(rows: map<string, Task>, data: Fields, id: string, userId: string,
                                   toDate: Value -> Option<int>, preferences: Option<Fields>, hour: int, roll: bool)
    ensures var o := AddTask(rows, data, id, userId, toDate, preferences, hour, roll);
            && (!Given(data, "title") ==> o == Outcome(ErrorResponse("Task title is required"), rows))
            && (o.response.status == Success <==> Given(data, "title") && TaskRow(data, id, userId, toDate).Ok? && id !in rows)
            && (o.response.status == Error ==> o.rows == rows)
            && (o.response.status == Success ==>
                  var t := TaskRow(data, id, userId, toDate).value;
                  && o.rows == rows[id := t]
                  && t.title == data["title"].s && t.userId == userId && t.status == PENDING
                  && ("priority" !in data ==> t.priority == MEDIUM)
                  && (!Given(data, "dueDate") ==> t.dueDate == None))
  {
  }

  /** The confirmation built step by step as `addTask` does. */
  method AddedMessage(title: string, formality: int, humour: int, roll: bool) returns (content: string)
    ensures content == AddedContent(title, formality, humour, roll)
  {
    content := "Task \"" + title + "\" has been created successfully";
    if formality >= 7 {
      content := "I've taken the liberty of creating the task \"" + title + "\" for you, Sir/Madam.";
    }
    ghost var base := content;
    if humour >= 6 && roll {
      content := content + AddedRemark;
    }
    assert content == WithHumour(base, humour, roll, AddedRemark);
  }

  /** The method form of `addTask`, against the task table. */
  method AddTaskTo(tasks: Table<Task>, data: Fields, id: string, userId: string, toDate: Value -> Option<int>,
                   preferences: Option<Fields>, hour: int, roll: bool) returns (response: Response)
    modifies tasks
    ensures Outcome(response, tasks.rows) == AddTask(old(tasks.rows), data, id, userId, toDate, preferences, hour, roll)
  {
    if !Given(data, "title") {
      return ErrorResponse("Task title is required");
    }
    var row := TaskRow(data, id, userId, toDate);
    if row.Err? {
      return ErrorResponse("Failed to create task", Some(row.message));
    }
    var created := tasks.Create(id, row.value);
    if !created {
      return ErrorResponse("Failed to create task", Some(StoreFailure));
    }
    var content := AddedMessage(row.value.title, Formality(preferences), Humour(preferences), roll);
    response := SuccessResponse(content, TaskList, Some(TaskRaw(row.value)),
                                Some(Personality(Some(SirGreeting(hour)), Some("Certainly, Sir/Madam."),
                                                 Some("Task created successfully."), None)));
  }

  // ---------------------------------------------------------------------------
  // getTasks

  /** The user's tasks, as `findMany` with the user filter returns them (their order is not kept). */
  function UserTasks(rows: map<string, Task>, userId: string): (r: set<Task>)
    ensures forall t | t in r :: t.userId == userId
    ensures forall id | id in rows && rows[id].userId == userId :: rows[id] in r
  {
    set id | id in rows && rows[id].userId == userId :: rows[id]
  }

  /** `tasks.filter(t => t.status === s)`, counted. */
  function CountStatus(tasks: set<Task>, s: TaskStatus): nat
  {
    |set t | t in tasks && t.status == s|
  }

  /** Taking one task out of a set lowers the count of its status by one and leaves the others. */
  lemma CountStatusRemove(tasks: set<Task>, t: Task, s: TaskStatus)
    requires t in tasks
    ensures CountStatus(tasks, s) == CountStatus(tasks - {t}, s) + (if t.status == s then 1 else 0)
  {
    var all := set u | u in tasks && u.status == s;
    var rest := set u | u in tasks - {t} && u.status == s;
    if t.status == s {
      assert all == rest + {t};
    } else {
      assert all == rest;
    }
  }

  /** The four status counts add up to the number of tasks. */
  lemma {:induction false} StatusCountsPartition(tasks: set<Task>)
    ensures CountStatus(tasks, PENDING) + CountStatus(tasks, IN_PROGRESS) + CountStatus(tasks, COMPLETED)
            + CountStatus(tasks, CANCELLED) == |tasks|
    decreases |tasks|
  {
    if tasks == {} {
      assert CountStatus(tasks, PENDING) == 0 && CountStatus(tasks, IN_PROGRESS) == 0;
      assert CountStatus(tasks, COMPLETED) == 0 && CountStatus(tasks, CANCELLED) == 0;
    } else {
      var t :| t in tasks;
      StatusCountsPartition(tasks - {t});
      CountStatusRemove(tasks, t, PENDING);
      CountStatusRemove(tasks, t, IN_PROGRESS);
      CountStatusRemove(tasks, t, COMPLETED);
      CountStatusRemove(tasks, t, CANCELLED);
    }
  }

  /**
   * The summary `getTasks` writes: a dedicated message for no tasks (formal or casual), the
   * per-status counts for a formal user, and the plain count otherwise.
   */
  function TaskListContent(tasks: set<Task>, formality: int): (c: string)
    ensures |tasks| == 0 && Formal(formality) ==>
              c == "You have no tasks at the moment, Sir/Madam. Would you like me to help you create some?"
    ensures |tasks| == 0 && !Formal(formality) ==> c == "You have no tasks. Want to add some?"
    ensures |tasks| != 0 && !Formal(formality) ==>
              c == "You have " + NatToString(|tasks|) + " task" + PluralS(|tasks|)
    ensures |tasks| != 0 && Formal(formality) ==>
              var p := CountStatus(tasks, PENDING);
              var c2 := CountStatus(tasks, COMPLETED);
              c == "You have " + NatToString(p) + " pending task" + PluralS(p) + ", "
                   + NatToString(CountStatus(tasks, IN_PROGRESS)) + " in progress, and "
                   + NatToString(c2) + " completed task" + PluralS(c2) + "."
  {
    var n := |tasks|;
    if n == 0 then
      if Formal(formality) then "You have no tasks at the moment, Sir/Madam. Would you like me to help you create some?"
      else "You have no tasks. Want to add some?"
    else if Formal(formality) then
      var p := CountStatus(tasks, PENDING);
      var c2 := CountStatus(tasks, COMPLETED);
      "You have " + NatToString(p) + " pending task" + PluralS(p) + ", "
      + NatToString(CountStatus(tasks, IN_PROGRESS)) + " in progress, and "
      + NatToString(c2) + " completed task" + PluralS(c2) + "."
    else "You have " + NatToString(n) + " task" + PluralS(n)
  }

  /** `getTasks`: the user's tasks as raw content, under the summary for the formality dial. */
  method GetTasks(tasks: Table<Task>, userId: string, preferences: Option<Fields>) returns (response: Response)
    ensures response == SuccessResponse(TaskListContent(UserTasks(tasks.rows, userId), Formality(preferences)),
                                        TaskList, Some(TasksRaw(UserTasks(tasks.rows, userId))))
  {
    var mine := UserTasks(tasks.rows, userId);
    var formality := Formality(preferences);
    var content := "You have " + NatToString(|mine|) + " task" + PluralS(|mine|);
    if |mine| == 0 {
      content := if formality >= 7
                 then "You have no tasks at the moment, Sir/Madam. Would you like me to help you create some?"
                 else "You have no tasks. Want to add some?";
    } else {
      var pending := CountStatus(mine, PENDING);
      var inProgress := CountStatus(mine, IN_PROGRESS);
      var completed := CountStatus(mine, COMPLETED);
      if formality >= 7 {
        content := "You have " + NatToString(pending) + " pending task" + PluralS(pending) + ", "
                   + NatToString(inProgress) + " in progress, and "
                   + NatToString(completed) + " completed task" + PluralS(completed) + ".";
      }
    }
    response := SuccessResponse(content, TaskList, Some(TasksRaw(mine)));
  }

  // ---------------------------------------------------------------------------
  // updateTaskStatus

  const CompletedRemark := " Excellent work! Another victory for productivity."
  const InProgressRemark :=
    " The journey of a thousand miles begins with a single step... or in this case, a status update."

  /**
   * The confirmation for a status change, naming the status lower-cased when formal; the remark
   * depends on the status: one for COMPLETED, another for IN_PROGRESS, none otherwise.
   */
  function StatusContent(title: string, status: string, formality: int, humour: int, roll: bool): (c: string)
    ensures var base := if Formal(formality)
                        then "I've updated the task \"" + title + "\" to " + ToLower(status) + ", Sir/Madam."
                        else "Task \"" + title + "\" status updated to " + status;
            && (c != base <==> humour >= 6 && roll && (status == "COMPLETED" || status == "IN_PROGRESS"))
            && (humour >= 6 && roll && status == "COMPLETED" ==> c == base + CompletedRemark)
            && (humour >= 6 && roll && status == "IN_PROGRESS" ==> c == base + InProgressRemark)
  {
    var base := if Formal(formality)
                then "I've updated the task \"" + title + "\" to " + ToLower(status) + ", Sir/Madam."
                else "Task \"" + title + "\" status updated to " + status;
    if humour >= 6 && roll && status == "COMPLETED" then base + CompletedRemark
    else if humour >= 6 && roll && status == "IN_PROGRESS" then base + InProgressRemark
    else base
  }

  /** The task after the status write: the completion time is set exactly for COMPLETED. */
  function WithStatus(task: Task, status: TaskStatus, now: int): (t: Task)
    ensures t.status == status
    ensures t.completedAt.Some? <==> status == COMPLETED
    ensures t.completedAt.Some? ==> t.completedAt.value == now
    ensures t.(status := task.status, completedAt := task.completedAt) == task
  {
    task.(status := status, completedAt := if status == COMPLETED then Some(now) else None)
  }

  /**
   * `updateTaskStatus`: checks, in order, that both arguments are given, that the task exists
   * and that it belongs to the user, each with its own error and no write; then stores the new
   * status (an unknown status name or a mistyped id is a store failure).
   */
  function UpdateTaskStatus(rows: map<string, Task>, taskId: Option<Value>, status: Option<Value>, userId: string,
                            now: int, preferences: Option<Fields>, hour: int, roll: bool): Outcome<Task>
  {
    if !GivenOpt(taskId) || !GivenOpt(status) then Outcome(ErrorResponse("Task ID and status are required"), rows)
    else if !taskId.value.Str? then Outcome(ErrorResponse("Failed to update task status", Some(StoreFailure)), rows)
    else if taskId.value.s !in rows then Outcome(ErrorResponse("Task not found"), rows)
    else if rows[taskId.value.s].userId != userId then Outcome(ErrorResponse("Unauthorized to update this task"), rows)
    else if !status.value.Str? || ParseTaskStatus(status.value.s).None? then
      Outcome(ErrorResponse("Failed to update task status", Some(StoreFailure)), rows)
    else
      var updated := WithStatus(rows[taskId.value.s], ParseTaskStatus(status.value.s).value, now);
      Outcome(SuccessResponse(StatusContent(updated.title, status.value.s, Formality(preferences),
                                            Humour(preferences), roll),
                              TaskList, Some(TaskRaw(updated)),
                              Some(Personality(Some(SirGreeting(hour)), Some("Certainly, Sir/Madam."),
                                               Some("Task status updated successfully."), None))),
              rows[taskId.value.s := updated])
  }

  /**
   * The checks of `updateTaskStatus` come in order, each error excluding the later ones, and only
   * a successful update writes: exactly the one task, its status and completion time.
   */
  lemma UpdateChecksInOrder(rows: map<string, Task>, taskId: Option<Value>, status: Option<Value>, userId: string,
                            now: int, preferences: Option<Fields>, hour: int, roll: bool)
    ensures var o := UpdateTaskStatus(rows, taskId, status, userId, now, preferences, hour, roll);
            && (o.response == ErrorResponse("Task ID and status are required") <==> !GivenOpt(taskId) || !GivenOpt(status))
            && (o.response == ErrorResponse("Task not found") <==>
                  GivenOpt(taskId) && GivenOpt(status) && taskId.value.Str? && taskId.value.s !in rows)
            && (o.response == ErrorResponse("Unauthorized to update this task") <==>
                  GivenOpt(taskId) && GivenOpt(status) && taskId.value.Str? && taskId.value.s in rows
                  && rows[taskId.value.s].userId != userId)
            && (o.response.status == Error ==> o.rows == rows)
            && (o.response.status == Success ==>
                  && taskId.value.Str? && taskId.value.s in rows && rows[taskId.value.s].userId == userId
                  && status.value.Str? && ParseTaskStatus(status.value.s).Some?
                  && o.rows == rows[taskId.value.s := WithStatus(rows[taskId.value.s],
                                                                 ParseTaskStatus(status.value.s).value, now)])
  {
  }

  /** The method form of `updateTaskStatus`, against the task table. */
  method UpdateTaskStatusIn(tasks: Table<Task>, taskId: Option<Value>, status: Option<Value>, userId: string,
                            now: int, preferences: Option<Fields>, hour: int, roll: bool) returns (response: Response)
    modifies tasks
    ensures Outcome(response, tasks.rows)
            == UpdateTaskStatus(old(tasks.rows), taskId, status, userId, now, preferences, hour, roll)
  {
    if !GivenOpt(taskId) || !GivenOpt(status) {
      return ErrorResponse("Task ID and status are required");
    }
    if !taskId.value.Str? {
      return ErrorResponse("Failed to update task status", Some(StoreFailure));
    }
    var id := taskId.value.s;
    if id !in tasks.rows {
      return ErrorResponse("Task not found");
    }
    var task := tasks.rows[id];
    if task.userId != userId {
      return ErrorResponse("Unauthorized to update this task");
    }
    if !status.value.Str? || ParseTaskStatus(status.value.s).None? {
      return ErrorResponse("Failed to update task status", Some(StoreFailure));
    }
    var name := status.value.s;
    var updated := WithStatus(task, ParseTaskStatus(name).value, now);
    var ok := tasks.Update(id, updated);
    var content := StatusContent(updated.title, name, Formality(preferences), Humour(preferences), roll);
    response := SuccessResponse(content, TaskList, Some(TaskRaw(updated)),
                                Some(Personality(Some(SirGreeting(hour)), Some("Certainly, Sir/Madam."),
                                                 Some("Task status updated successfully."), None)));
  }

  // ---------------------------------------------------------------------------
  // execute

  /** The switch of `execute`: each task intent to its operation, any other to an error response. */
  function Dispatch(rows: map<string, Task>, command: Command, userId: string, newId: string,
                    toDate: Value -> Option<int>, preferences: Option<Fields>, hour: int, roll: bool,
                    now: int): Outcome<Task>
  {
    match command.intent
    case Some("create_task") =>
      AddTask(rows, if command.parameters.Some? then command.parameters.value else map[], newId, userId, toDate,
              preferences, hour, roll)
    case Some("list_tasks") =>
      Outcome(SuccessResponse(TaskListContent(UserTasks(rows, userId), Formality(preferences)),
                              TaskList, Some(TasksRaw(UserTasks(rows, userId)))), rows)
    case Some("update_task") =>
      UpdateTaskStatus(rows, Param(command, "taskId"), Param(command, "status"), userId, now, preferences, hour, roll)
    case _ => Outcome(ErrorResponse("Unknown task command"), rows)
  }

  /** An intent the task agent does not know is answered with an error and changes no task. */
  lemma UnknownIntentWritesNothing(rows: map<string, Task>, command: Command, userId: string, newId: string,
                                   toDate: Value -> Option<int>, preferences: Option<Fields>, hour: int,
                                   roll: bool, now: int)
    requires command.intent != Some("create_task") && command.intent != Some("list_tasks")
    requires command.intent != Some("update_task")
    ensures Dispatch(rows, command, userId, newId, toDate, preferences, hour, roll, now)
            == Outcome(ErrorResponse("Unknown task command"), rows)
  {
  }

  /**
   * `execute`: logs and starts the record, runs the operation the intent names, and records the
   * response as COMPLETED, even when the response is an error.
   */
  method Execute(log: Tracker.ExecutionLog, tasks: Table<Task>, id: string, command: Command, userId: string,
                 newId: string, toDate: Value -> Option<int>, preferences: Option<Fields>, hour: int,
                 roll: bool, now: int)
    returns (r: Result<Response>)
    modifies log, tasks
    ensures r.Ok? <==> id !in old(log.records)
    ensures r.Ok? ==> Outcome(r.value, tasks.rows)
                      == Dispatch(old(tasks.rows), command, userId, newId, toDate, preferences, hour, roll, now)
    ensures r.Ok? ==> log.records == old(log.records)[id := Tracker.CompletedRecord(id, Tracker.TASK, userId, command,
                                                                            Tracker.ResponsePayload(r.value), now)]
    ensures r.Err? ==> log.records == old(log.records) && tasks.rows == old(tasks.rows)
    ensures old(log.Valid()) ==> log.Valid()
  {
    var logged := log.LogExecution(id, Tracker.TASK, userId, command.text, command.intent, command.parameters, now);
    if logged.Err? {
      return Err(logged.message);
    }
    log.StartExecution(id, now);
    var response: Response;
    match command.intent {
      case Some("create_task") =>
        response := AddTaskTo(tasks, if command.parameters.Some? then command.parameters.value else map[], newId,
                              userId, toDate, preferences, hour, roll);
      case Some("list_tasks") =>
        response := GetTasks(tasks, userId, preferences);
      case Some("update_task") =>
        response := UpdateTaskStatusIn(tasks, Param(command, "taskId"), Param(command, "status"), userId, now,
                                       preferences, hour, roll);
      case _ =>
        response := ErrorResponse("Unknown task command");
    }
    log.UpdateExecution(id, Tracker.COMPLETED, Some(Tracker.ResponsePayload(response)), None, now);
    Tracker.LifecycleTable(old(log.records), id,
                   Tracker.Pending(id, Tracker.TASK, userId, command.text, command.intent, command.parameters, now),
                   now, Tracker.COMPLETED, Some(Tracker.ResponsePayload(response)), None, now);
    r := Ok(response);
  }
}
