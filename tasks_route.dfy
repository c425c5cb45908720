/**
 * The task endpoints of src/app/api/tasks/route.ts: POST creates a task from the request body
 * and, for a top-level task, adds the three AI fields from three completions (all of them or
 * none); GET lists a user's top-level tasks with their subtasks.
 *
 * Date parsing (`new Date(v)`) and the completion service are parameters: `parseDate` gives the
 * time a value denotes or nothing for an invalid date, `complete` maps a prompt to the reply
 * text (absent when the reply has no content) or a failure.
 */
module TasksRoute {
  import opened Common
  import opened Strings
  import opened Store

  /** A listed task with its subtasks. */
  datatype Listed = Listed(task: Task, subtasks: set<Task>)

  /** The JSON body of a reply. */
  datatype Body = TaskBody(task: Task) | TasksBody(tasks: set<Listed>) | ErrorBody(error: string)

  datatype Reply = Reply(status: int, body: Body)

  // ---------------------------------------------------------------------------
  // parseInt

  /** The value of an alphanumeric character as a digit (36 for any other character). */
  function DigitOf(c: char): (d: nat)
    ensures d <= 36
    ensures IsDigit(c) ==> d == c as int - '0' as int
  {
    if '0' <= c <= '9' then c as int - '0' as int
    else if 'a' <= c <= 'z' then c as int - 'a' as int + 10
    else if 'A' <= c <= 'Z' then c as int - 'A' as int + 10
    else 36
  }

  /** The length of the longest prefix of `s` made of digits of the radix. */
  function LeadingDigits(s: string, radix: nat): (n: nat)
    ensures n <= |s|
    ensures forall i | 0 <= i < n :: DigitOf(s[i]) < radix
    ensures n < |s| ==> DigitOf(s[n]) >= radix
  {
    if s == [] || DigitOf(s[0]) >= radix then 0 else 1 + LeadingDigits(s[1..], radix)
  }

  /** The number the digits denote in the radix. */
  function RadixValue(s: string, radix: nat): nat
  {
    if s == [] then 0 else RadixValue(s[..|s| - 1], radix) * radix + DigitOf(s[|s| - 1])
  }

  /** The digits of an unsigned number: a "0x" or "0X" prefix selects hexadecimal, decimal otherwise. */
  function ParseUnsigned(u: string): (r: Option<nat>)
  {
    var hex := |u| >= 2 && u[0] == '0' && (u[1] == 'x' || u[1] == 'X');
    var radix := if hex then 16 else 10;
    var v := if hex then u[2..] else u;
    var n := LeadingDigits(v, radix);
    if n == 0 then None else Some(RadixValue(v[..n], radix))
  }

  /** An optional sign, then the digits. */
  function ParseSigned(t: string): (r: Option<int>)
  {
    if t != [] && t[0] == '-' then
      (match ParseUnsigned(t[1..]) case None => None case Some(n) => Some(-(n as int)))
    else if t != [] && t[0] == '+' then ParseUnsigned(t[1..])
    else ParseUnsigned(t)
  }

  /**
   * `parseInt(s)` without a radix: leading space skipped, an optional sign, then the longest run
   * of digits of the radix; nothing (NaN) when there is no digit.
   */
  function ParseInt(s: string): (r: Option<int>)
  {
    ParseSigned(TrimStart(s))
  }

  /** In radix 10 the digit value is the decimal one. */
  lemma {:induction false} DecimalValue(s: string)
    requires forall i | 0 <= i < |s| :: IsDigit(s[i])
    ensures RadixValue(s, 10) == DigitsValue(s)
  {
    if s != [] {
      DecimalValue(s[..|s| - 1]);
    }
  }

  /** A run of decimal digits is read whole, in decimal. */
  lemma UnsignedDigits(d: string)
    requires d != [] && forall i | 0 <= i < |d| :: IsDigit(d[i])
    ensures ParseUnsigned(d) == Some(DigitsValue(d))
  {
    assert |d| >= 2 ==> IsDigit(d[1]);
    assert LeadingDigits(d, 10) == |d|;
    DecimalRun(d);
    DecimalValue(d);
  }

  /** A text without a hexadecimal prefix that is all digits of radix 10 is read whole. */
  lemma DecimalRun(d: string)
    requires d != [] && !(|d| >= 2 && d[0] == '0' && (d[1] == 'x' || d[1] == 'X'))
    requires LeadingDigits(d, 10) == |d|
    ensures ParseUnsigned(d) == Some(RadixValue(d, 10))
  {
    assert d[..|d|] == d;
  }

  /** Leading space is all that is skipped: a text starting otherwise is kept whole. */
  lemma TrimStartKeeps(s: string)
    requires s != [] && (IsDigit(s[0]) || s[0] == '-')
    ensures TrimStart(s) == s
  {
    assert !IsSpace(s[0]);
  }

  /** A text starting with a digit or a minus sign is parsed as it stands. */
  lemma ParseIntAsSigned(s: string)
    requires s != [] && (IsDigit(s[0]) || s[0] == '-')
    ensures ParseInt(s) == ParseSigned(s)
  {
    TrimStartKeeps(s);
  }

  /** A run of decimal digits parses to its value. */
  lemma ParseDigits(d: string)
    requires d != [] && forall i | 0 <= i < |d| :: IsDigit(d[i])
    ensures ParseInt(d) == Some(DigitsValue(d))
  {
    assert IsDigit(d[0]);
    TrimStartKeeps(d);
    assert ParseSigned(d) == ParseUnsigned(d) by {
      assert d[0] != '-' && d[0] != '+';
    }
    UnsignedDigits(d);
  }

  /** A minus sign followed by a run of decimal digits parses to the negated value. */
  lemma ParseNegativeDigits(m: string)
    requires |m| >= 2 && m[0] == '-' && forall i | 1 <= i < |m| :: IsDigit(m[i])
    ensures ParseInt(m) == Some(-(DigitsValue(m[1..]) as int))
  {
    ParseIntAsSigned(m);
    var d := m[1..];
    assert forall i | 0 <= i < |d| :: IsDigit(d[i]) by {
      forall i | 0 <= i < |d| ensures IsDigit(d[i]) {
        assert d[i] == m[i + 1];
      }
    }
    UnsignedDigits(d);
    NegativeSign(m, DigitsValue(d));
  }

  /** A minus sign negates the number that follows it. */
  lemma NegativeSign(t: string, v: nat)
    requires t != [] && t[0] == '-' && ParseUnsigned(t[1..]) == Some(v)
    ensures ParseSigned(t) == Some(-(v as int))
  {
  }

  /** The decimal notation of a number parses back to it. */
  lemma ParseIntOfDecimal(n: nat)
    ensures ParseInt(NatToString(n)) == Some(n)
  {
    ParseDigits(NatToString(n));
    NatToStringRoundTrip(n);
  }

  /** A text with no digit where the digits should start is NaN; in particular the empty text and "NaN" are. */
  lemma ParseIntOfNoDigits()
    ensures ParseInt("") == None
    ensures ParseInt("NaN") == None
  {
    assert ParseInt("") == ParseUnsigned("");
    assert TrimStart("NaN") == "NaN";
    assert ParseSigned("NaN") == ParseUnsigned("NaN");
    assert LeadingDigits("NaN", 10) == 0 by { assert DigitOf('N') == 23; }
  }

  // ---------------------------------------------------------------------------
  // POST

  /** `priority = 'MEDIUM'`: the default applies only when the field is absent; a name the store does not know is rejected. */
  function PriorityField(body: Fields): (r: Result<Priority>)
    ensures "priority" !in body ==> r == Ok(MEDIUM)
    ensures "priority" in body && body["priority"].Str? ==>
              (r.Ok? <==> ParsePriority(body["priority"].s).Some?)
    ensures r.Ok? && "priority" in body ==> body["priority"].Str? && Some(r.value) == ParsePriority(body["priority"].s)
  {
    if "priority" !in body then Ok(MEDIUM)
    else if body["priority"].Str? && ParsePriority(body["priority"].s).Some? then Ok(ParsePriority(body["priority"].s).value)
    else Err(StoreFailure)
  }

  /** `v ? new Date(v) : null`: null for an absent or falsy value, and an invalid date is rejected by the store. */
  function TimeField(body: Fields, key: string, parseDate: Value -> Option<int>): (r: Result<Option<int>>)
    ensures !Given(body, key) ==> r == Ok(None)
    ensures Given(body, key) ==> (r.Ok? <==> parseDate(body[key]).Some?) && (r.Ok? ==> r.value == parseDate(body[key]))
  {
    if !Given(body, key) then Ok(None)
    else if parseDate(body[key]).None? then Err(StoreFailure)
    else Ok(parseDate(body[key]))
  }

  /** An optional integer column: absent is null, a number is stored, anything else is rejected. */
  function IntField(body: Fields, key: string): (r: Result<Option<int>>)
    ensures key !in body ==> r == Ok(None)
    ensures key in body ==> (r.Ok? <==> body[key].Num?) && (r.Ok? ==> r.value == Some(body[key].n))
  {
    if key !in body then Ok(None)
    else if body[key].Num? then Ok(Some(body[key].n))
    else Err(StoreFailure)
  }

  /**
   * The row `db.task.create` stores once userId and title are known to be given: the store
   * rejects a non-text userId or title and any field it cannot store in its column.
   */
  function TaskRow(body: Fields, id: string, parseDate: Value -> Option<int>): (r: Result<Task>)
    requires Given(body, "userId") && Given(body, "title")
    ensures r.Ok? ==>
              && body["userId"].Str? && body["title"].Str?
              && PriorityField(body).Ok? && TextField(body, "description").Ok? && TextField(body, "parentId").Ok?
              && TimeField(body, "dueDate", parseDate).Ok? && TimeField(body, "reminderTime", parseDate).Ok?
              && IntField(body, "estimatedTime").Ok?
              && r.value == NewTask(id, body["userId"].s, body["title"].s, TextField(body, "description").value,
                                    PriorityField(body).value, TimeField(body, "dueDate", parseDate).value,
                                    IntField(body, "estimatedTime").value, TimeField(body, "reminderTime", parseDate).value,
                                    TextField(body, "parentId").value)
  {
    var priority := PriorityField(body);
    var description := TextField(body, "description");
    var dueDate := TimeField(body, "dueDate", parseDate);
    var estimatedTime := IntField(body, "estimatedTime");
    var reminderTime := TimeField(body, "reminderTime", parseDate);
    var parentId := TextField(body, "parentId");
    if !body["userId"].Str? || !body["title"].Str? || priority.Err? || description.Err? || dueDate.Err?
       || estimatedTime.Err? || reminderTime.Err? || parentId.Err? then Err(StoreFailure)
    else Ok(NewTask(id, body["userId"].s, body["title"].s, description.value, priority.value, dueDate.value,
                    estimatedTime.value, reminderTime.value, parentId.value))
  }

  const BreakdownAsk := "Break down this task into smaller, manageable subtasks: \""
  const BreakdownTail := " Return a JSON array of subtask objects with \"title\" and \"description\" fields."
  const EstimateAsk := "Estimate the time needed to complete this task in minutes: \""
  const EstimateTail := " Consider complexity and return only a number."
  const FollowupAsk := "Suggest 2-3 follow-up tasks that would be logical after completing: \""
  const FollowupTail := " Return a JSON array of task objects with \"title\" and \"description\" fields."

  /** The description clause of the prompts: empty unless there is a (non-empty) description. */
  function DescriptionPart(description: Option<string>): string
  {
    if description.Some? && description.value != "" then "Description: " + description.value else ""
  }

  /** A prompt: the request, the quoted title, the description clause and the instruction. */
  function Prompt(ask: string, title: string, description: Option<string>, tail: string): string
  {
    ask + title + "\". " + DescriptionPart(description) + tail
  }

  /** `aiEstimate && aiEstimate > 0 ? aiEstimate : null`. */
  function PositiveOrNull(v: Option<int>): (r: Option<int>)
    ensures r.Some? <==> v.Some? && v.value > 0
    ensures r.Some? ==> r == v
  {
    if v.Some? && v.value > 0 then v else None
  }

  /** The three AI fields as the update writes them. */
  datatype Augmentation = Augmentation(breakdown: Option<string>, estimate: Option<int>, followups: Option<string>)

  /** The estimate stored for a reply: `parseInt(content || '0')`, kept only when positive. */
  function Estimate(reply: Option<string>): (e: Option<int>)
    ensures e.Some? ==> e.value > 0
    ensures reply.None? || reply.value == "" ==> e == None
  {
    ParseIntOfNoDigits();
    assert ParseInt("0") == Some(0) by { ParseIntOfDecimal(0); }
    PositiveOrNull(ParseInt(if reply.Some? && reply.value != "" then reply.value else "0"))
  }

  /**
   * The augmentation: the three completions in turn (breakdown, estimate, follow-ups); a failure
   * of any of them abandons the whole augmentation (nothing).
   */
  function Augment(title: string, description: Option<string>, complete: string -> Result<Option<string>>)
    : Option<Augmentation>
  {
    var breakdown := complete(Prompt(BreakdownAsk, title, description, BreakdownTail));
    var estimate := complete(Prompt(EstimateAsk, title, description, EstimateTail));
    var followups := complete(Prompt(FollowupAsk, title, description, FollowupTail));
    if breakdown.Err? || estimate.Err? || followups.Err? then None
    else Some(Augmentation(breakdown.value, Estimate(estimate.value), followups.value))
  }

  /** The parent reference is null or names a stored task, as the table's foreign key demands. */
  predicate ParentKnown(rows: map<string, Task>, t: Task)
  {
    t.parentId.None? || t.parentId.value in rows
  }

  /** A reply and the task table it leaves. */
  datatype Posted = Posted(reply: Reply, rows: map<string, Task>)

  /**
   * POST: 400 unless userId and title are given (truthy); the task created under the fresh id
   * (500 when the store rejects it, which includes a parentId naming no task); a top-level task (no truthy parentId) then gets the three AI
   * fields when all three completions succeed, and is returned as created otherwise.
   */
  function Post(rows: map<string, Task>, body: Fields, newId: string, parseDate: Value -> Option<int>,
                complete: string -> Result<Option<string>>): Posted
  {
    if !Given(body, "userId") || !Given(body, "title") then
      Posted(Reply(400, ErrorBody("User ID and title are required")), rows)
    else
      var row := TaskRow(body, newId, parseDate);
      if row.Err? || newId in rows || !ParentKnown(rows, row.value) then Posted(Reply(500, ErrorBody("Failed to create task")), rows)
      else if Given(body, "parentId") then Posted(Reply(201, TaskBody(row.value)), rows[newId := row.value])
      else
        var augmentation := Augment(row.value.title, row.value.description, complete);
        if augmentation.None? then Posted(Reply(201, TaskBody(row.value)), rows[newId := row.value])
        else
          var a := augmentation.value;
          var enhanced := row.value.(aiBreakdown := a.breakdown, aiEstimate := a.estimate, aiFollowups := a.followups);
          Posted(Reply(201, TaskBody(enhanced)), rows[newId := enhanced])
  }

  /**
   * Without userId or title nothing is created; a created task is stored with priority MEDIUM
   * when none was sent, no due date or reminder unless one was sent, the parent as given, and is
   * also what the reply carries.
   */
  lemma PostValidatesAndDefaults(rows: map<string, Task>, body: Fields, newId: string,
                                 parseDate: Value -> Option<int>, complete: string -> Result<Option<string>>)
    ensures var p := Post(rows, body, newId, parseDate, complete);
            && (p.reply.status == 400 <==> !Given(body, "userId") || !Given(body, "title"))
            && (p.reply.status == 500 <==>
                  Given(body, "userId") && Given(body, "title")
                  && var row := TaskRow(body, newId, parseDate);
                  row.Err? || newId in rows || !ParentKnown(rows, row.value))
            && (p.reply.status == 400 || p.reply.status == 500 || p.reply.status == 201)
            && (p.reply.status != 201 ==> p.rows == rows)
            && (p.reply.status == 201 ==>
                  && p.reply.body.TaskBody?
                  && p.rows == rows[newId := p.reply.body.task]
                  && newId !in rows
                  && var t := p.reply.body.task;
                  && t.status == PENDING && !t.isArchived
                  && ("priority" !in body ==> t.priority == MEDIUM)
                  && (!Given(body, "dueDate") ==> t.dueDate == None)
                  && (!Given(body, "reminderTime") ==> t.reminderTime == None)
                  && t.parentId == TextField(body, "parentId").value
                  && ParentKnown(rows, t))
  {
  }

  /** A subtask whose parentId names no stored task is refused by the store, and nothing is written. */
  lemma UnknownParentRefused(rows: map<string, Task>, body: Fields, newId: string,
                             parseDate: Value -> Option<int>, complete: string -> Result<Option<string>>)
    requires "parentId" in body && body["parentId"].Str? && body["parentId"].s !in rows
    ensures var p := Post(rows, body, newId, parseDate, complete);
            p.reply.status != 201 && p.rows == rows
  {
    if Given(body, "userId") && Given(body, "title") {
      var row := TaskRow(body, newId, parseDate);
      assert row.Ok? ==> row.value.parentId == Some(body["parentId"].s);
    }
  }

  /**
   * A subtask (truthy parentId) is returned exactly as created and the completion service plays
   * no part; a top-level task either has all three AI fields from the completions or none of
   * them, and a stored estimate is always positive.
   */
  lemma AugmentationAllOrNothing(rows: map<string, Task>, body: Fields, newId: string,
                                 parseDate: Value -> Option<int>, complete: string -> Result<Option<string>>,
                                 other: string -> Result<Option<string>>)
    ensures var p := Post(rows, body, newId, parseDate, complete);
            && (Given(body, "parentId") ==> p == Post(rows, body, newId, parseDate, other))
            && (p.reply.status == 201 && Given(body, "parentId") ==>
                  p.reply.body.task == TaskRow(body, newId, parseDate).value)
            && (p.reply.status == 201 && !Given(body, "parentId") ==>
                  var t := p.reply.body.task;
                  var a := Augment(t.title, t.description, complete);
                  && (a.None? ==> t == TaskRow(body, newId, parseDate).value
                                  && t.aiBreakdown == None && t.aiEstimate == None && t.aiFollowups == None)
                  && (a.Some? ==> t.aiBreakdown == a.value.breakdown && t.aiEstimate == a.value.estimate
                                  && t.aiFollowups == a.value.followups))
            && (p.reply.status == 201 && p.reply.body.task.aiEstimate.Some? ==> p.reply.body.task.aiEstimate.value > 0)
  {
  }

  /** The estimate reply "42" is stored as 42. */
  lemma EstimateOfNumber()
    ensures Estimate(Some("42")) == Some(42)
  {
    ParseDigits("42");
    assert DigitsValue("42") == 42 by { assert "42"[..1] == "4"; }
  }

  /** The estimate reply "0" stores nothing. */
  lemma EstimateOfZero()
    ensures Estimate(Some("0")) == None
  {
    ParseDigits("0");
  }

  /** A negative estimate reply, a minus sign and digits such as "-5", stores nothing. */
  lemma EstimateOfNegative(reply: string)
    requires |reply| >= 2 && reply[0] == '-' && forall i | 1 <= i < |reply| :: IsDigit(reply[i])
    ensures Estimate(Some(reply)) == None
  {
    ParseNegativeDigits(reply);
  }

  /** The three completions as the route makes them, abandoning the rest at the first failure. */
  method Completions(task: Task, complete: string -> Result<Option<string>>) returns (a: Option<Augmentation>)
    ensures a == Augment(task.title, task.description, complete)
  {
    var breakdownResponse := complete(Prompt(BreakdownAsk, task.title, task.description, BreakdownTail));
    if breakdownResponse.Err? {
      return None;
    }
    var estimateResponse := complete(Prompt(EstimateAsk, task.title, task.description, EstimateTail));
    if estimateResponse.Err? {
      return None;
    }
    var followupResponse := complete(Prompt(FollowupAsk, task.title, task.description, FollowupTail));
    if followupResponse.Err? {
      return None;
    }
    var aiBreakdown := breakdownResponse.value;
    var aiEstimate := Estimate(estimateResponse.value);
    var aiFollowups := followupResponse.value;
    a := Some(Augmentation(aiBreakdown, aiEstimate, aiFollowups));
  }

  /** POST as the route runs it: validation, create, then the three completions and the update. */
  method PostIn(tasks: Table<Task>, body: Fields, newId: string, parseDate: Value -> Option<int>,
                complete: string -> Result<Option<string>>) returns (reply: Reply)
    modifies tasks
    ensures Posted(reply, tasks.rows) == Post(old(tasks.rows), body, newId, parseDate, complete)
  {
    if !Given(body, "userId") || !Given(body, "title") {
      return Reply(400, ErrorBody("User ID and title are required"));
    }
    var row := TaskRow(body, newId, parseDate);
    if row.Err? {
      return Reply(500, ErrorBody("Failed to create task"));
    }
    var task := row.value;
    if !ParentKnown(tasks.rows, task) {
      return Reply(500, ErrorBody("Failed to create task"));
    }
    var created := tasks.Create(newId, task);
    if !created {
      return Reply(500, ErrorBody("Failed to create task"));
    }
    if Given(body, "parentId") {
      return Reply(201, TaskBody(task));
    }
    var augmentation := Completions(task, complete);
    if augmentation.None? {
      return Reply(201, TaskBody(task));
    }
    var a := augmentation.value;
    var enhanced := task.(aiBreakdown := a.breakdown, aiEstimate := a.estimate, aiFollowups := a.followups);
    var updated := tasks.Update(newId, enhanced);
    reply := Reply(201, TaskBody(enhanced));
  }

  // ---------------------------------------------------------------------------
  // GET

  /** The subtasks of a task: every task naming it as parent. */
  function Subtasks(rows: map<string, Task>, id: string): set<Task>
  {
    set t | t in rows.Values && t.parentId == Some(id)
  }

  /** A task GET lists: the user's, top-level, and not archived unless archived ones are asked for. */
  predicate Shown(t: Task, userId: string, includeArchived: bool)
  {
    t.userId == userId && t.parentId.None? && (includeArchived || !t.isArchived)
  }

  /**
   * GET: 400 without a (non-empty) userId; otherwise the user's top-level tasks, archived ones
   * only when `includeArchived` is exactly "true", each with all its subtasks.
   */
  function List(rows: map<string, Task>, userId: Option<string>, includeArchived: Option<string>): Reply
  {
    if userId.None? || userId.value == "" then Reply(400, ErrorBody("User ID is required"))
    else
      var all := includeArchived == Some("true");
      Reply(200, TasksBody(set t | t in rows.Values && Shown(t, userId.value, all) :: Listed(t, Subtasks(rows, t.id))))
  }

  /** A stored task is listed exactly when it is shown, and then with all its subtasks. */
  lemma ListedIffShown(rows: map<string, Task>, userId: string, includeArchived: Option<string>, t: Task)
    requires userId != "" && t in rows.Values
    ensures var reply := List(rows, Some(userId), includeArchived);
            && reply.status == 200
            && ((exists l | l in reply.body.tasks :: l.task == t) <==> Shown(t, userId, includeArchived == Some("true")))
            && (Shown(t, userId, includeArchived == Some("true")) ==> Listed(t, Subtasks(rows, t.id)) in reply.body.tasks)
  {
    var reply := List(rows, Some(userId), includeArchived);
    if Shown(t, userId, includeArchived == Some("true")) {
      assert Listed(t, Subtasks(rows, t.id)) in reply.body.tasks;
    }
  }

  /** Asking for archived tasks only adds tasks: the plain listing is part of the full one. */
  lemma ArchivedOnlyAdds(rows: map<string, Task>, userId: string, flag: Option<string>)
    requires userId != ""
    ensures List(rows, Some(userId), flag).body.tasks <= List(rows, Some(userId), Some("true")).body.tasks
  {
  }
}
