/**
 * The intent classifier of src/lib/agents/CommandAgent.ts: an ordered list of
 * intents, each with its patterns, tested against the lower-cased, trimmed
 * command; the first intent with a matching pattern wins, and the slots are
 * then extracted from the original text.
 */
module Classifier {
  import opened Common
  import opened Strings
  import opened Responses
  import opened Tracker
  import opened Extraction

  /**
   * An intent pattern: `/w/i` (the word occurs) or `/a.*b/i` (`a` occurs, and `b` occurs later
   * on the same line, since `.` does not match a line terminator).
   */
  datatype Pattern = Word(w: string) | InOrder(a: string, b: string)

  predicate Matches(p: Pattern, s: string)
  {
    match p
    case Word(w) => exists i: nat | i <= |s| :: OccursAtIgnoringCase(s, w, i)
    case InOrder(a, b) =>
      exists i: nat, j: nat | i <= j <= |s| && i + |a| <= j ::
        OccursAtIgnoringCase(s, a, i) && OccursAtIgnoringCase(s, b, j)
        && forall k | i + |a| <= k < j :: !IsLineTerminator(s[k])
  }

  datatype Group = Group(intent: string, patterns: seq<Pattern>)

  predicate AnyMatch(patterns: seq<Pattern>, s: string)
  {
    exists q | 0 <= q < |patterns| :: Matches(patterns[q], s)
  }

  /** The decision list, in declaration order. */
  const IntentTable: seq<Group> := [
    Group("create_task", [InOrder("create", "task"), InOrder("add", "task"), InOrder("new", "task"),
                          Word("todo"), InOrder("remind", "me")]),
    Group("list_tasks", [InOrder("show", "tasks"), InOrder("list", "tasks"), InOrder("my", "tasks"),
                         InOrder("what", "tasks"), InOrder("tasks", "list")]),
    Group("update_task", [InOrder("update", "task"), InOrder("complete", "task"), InOrder("mark", "task"),
                          InOrder("task", "done")]),
    Group("create_event", [InOrder("create", "event"), InOrder("schedule", "event"), InOrder("add", "event"),
                           InOrder("new", "event"), Word("meeting"), Word("appointment")]),
    Group("list_events", [InOrder("show", "events"), InOrder("list", "events"), InOrder("my", "events"),
                          Word("calendar"), Word("schedule")]),
    Group("find_slots", [InOrder("find", "time"), InOrder("available", "slots"), InOrder("when", "free"),
                         InOrder("schedule", "time")]),
    Group("draft_email", [InOrder("draft", "email"), InOrder("write", "email"), InOrder("compose", "email"),
                          InOrder("new", "email")]),
    Group("send_email", [InOrder("send", "email"), InOrder("email", "send"), InOrder("dispatch", "email")]),
    Group("summarize_inbox", [InOrder("summarize", "inbox"), InOrder("inbox", "summary"),
                              InOrder("emails", "summary"), InOrder("what", "emails")]),
    Group("create_document", [InOrder("create", "document"), InOrder("write", "document"),
                              InOrder("new", "document"), InOrder("generate", "report")]),
    Group("summarize_document", [InOrder("summarize", "document"), InOrder("document", "summary"),
                                 InOrder("analyze", "document")]),
    Group("web_search", [InOrder("search", "web"), InOrder("look", "up"), InOrder("find", "information"),
                         Word("research"), Word("google")]),
    Group("scrape_url", [InOrder("scrape", "url"), InOrder("extract", "from"), InOrder("analyze", "website"),
                         InOrder("read", "page")])
  ]

  /** The intent of the first group, in order, with a matching pattern. */
  function FirstIntent(s: string, groups: seq<Group>): (r: Option<string>)
    ensures r.None? <==> forall k | 0 <= k < |groups| :: !AnyMatch(groups[k].patterns, s)
    ensures r.Some? ==> exists k | 0 <= k < |groups| ::
              r.value == groups[k].intent && AnyMatch(groups[k].patterns, s)
              && forall m | 0 <= m < k :: !AnyMatch(groups[m].patterns, s)
  {
    if groups == [] then None
    else if AnyMatch(groups[0].patterns, s) then Some(groups[0].intent)
    else
      var r := FirstIntent(s, groups[1..]);
      assert forall k | 1 <= k < |groups| :: groups[k] == groups[1..][k - 1];
      assert r.Some? ==> exists k | 0 <= k < |groups| ::
               r.value == groups[k].intent && AnyMatch(groups[k].patterns, s)
               && forall m | 0 <= m < k :: !AnyMatch(groups[m].patterns, s) by {
        if r.Some? {
          var k :| 0 <= k < |groups| - 1 && r.value == groups[1..][k].intent && AnyMatch(groups[1..][k].patterns, s)
                   && forall m | 0 <= m < k :: !AnyMatch(groups[1..][m].patterns, s);
          assert forall m | 0 <= m < k + 1 :: !AnyMatch(groups[m].patterns, s) by {
            forall m | 0 <= m < k + 1 ensures !AnyMatch(groups[m].patterns, s) {
              if m > 0 { assert groups[m] == groups[1..][m - 1]; }
            }
          }
        }
      }
      r
  }

  /** The first group with a match decides: later groups are never consulted. */
  lemma {:induction false} FirstIntentAt(s: string, groups: seq<Group>, k: nat)
    requires k < |groups| && AnyMatch(groups[k].patterns, s)
    requires forall m | 0 <= m < k :: !AnyMatch(groups[m].patterns, s)
    ensures FirstIntent(s, groups) == Some(groups[k].intent)
  {
    if k > 0 {
      assert groups[1..][k - 1] == groups[k];
      forall m | 0 <= m < k - 1 ensures !AnyMatch(groups[1..][m].patterns, s) {
        assert groups[1..][m] == groups[m + 1];
      }
      FirstIntentAt(s, groups[1..], k - 1);
    }
  }

  /**
   * The loops of `processUserCommand` over the decision list: the outer loop stops after the
   * first group with a matching pattern, the inner loop after that pattern.
   */
  method DetectIntent(normalized: string, groups: seq<Group>) returns (detected: Option<string>)
    ensures detected == FirstIntent(normalized, groups)
  {
    detected := None;
    var g := 0;
    while g < |groups|
      invariant 0 <= g <= |groups|
      invariant detected.None?
      invariant forall m | 0 <= m < g :: !AnyMatch(groups[m].patterns, normalized)
    {
      var patterns := groups[g].patterns;
      var p := 0;
      while p < |patterns|
        invariant 0 <= p <= |patterns|
        invariant detected.None?
        invariant forall q | 0 <= q < p :: !Matches(patterns[q], normalized)
      {
        if Matches(patterns[p], normalized) {
          detected := Some(groups[g].intent);
          break;
        }
        p := p + 1;
      }
      if detected.Some? {
        FirstIntentAt(normalized, groups, g);
        break;
      }
      g := g + 1;
    }
  }

  /** The normalised text the patterns are tested against. */
  function Normalize(text: string): (r: string)
    ensures Trimmed(r) && |r| <= |text|
    ensures forall i | 0 <= i < |r| :: !('A' <= r[i] <= 'Z')
  {
    var lower := ToLower(text);
    TrimSubsetOf(lower, c => !('A' <= c <= 'Z'));
    Trim(lower)
  }

  /**
   * What `processUserCommand` returns for `text`: the original text, the first intent matching
   * the normalised text, and the slots extracted from the original text for that intent.
   */
  function Processed(text: string): (cmd: Command)
    ensures cmd.text == text
    ensures cmd.intent == FirstIntent(Normalize(text), IntentTable)
    ensures cmd.parameters == Some(Slots(text, cmd.intent))
  {
    var intent := FirstIntent(Normalize(text), IntentTable);
    Command(text, intent, Some(Slots(text, intent)))
  }

  /** `processUserCommand`: detects the intent with the decision-list loops, then extracts the slots. */
  method ProcessUserCommand(text: string) returns (cmd: Command)
    ensures cmd == Processed(text)
  {
    var normalized := Normalize(text);
    var intent := DetectIntent(normalized, IntentTable);
    var parameters := ExtractParameters(text, intent);
    cmd := Command(text, intent, Some(parameters));
  }

  /** With no matching pattern the command has no intent and an empty parameter record. */
  lemma NoMatchNoParameters(text: string)
    requires forall k | 0 <= k < |IntentTable| :: !AnyMatch(IntentTable[k].patterns, Normalize(text))
    ensures FirstIntent(Normalize(text), IntentTable) == None
    ensures Slots(text, FirstIntent(Normalize(text), IntentTable)) == map[]
  {
    var r := FirstIntent(Normalize(text), IntentTable);
    assert r == None;
    NoExtractionCase(text, r);
  }

  /** A group with a match bounds the choice: the intent chosen is that of this group or of an earlier one. */
  lemma FirstIntentNoLaterThan(s: string, groups: seq<Group>, k: nat)
    requires k < |groups| && AnyMatch(groups[k].patterns, s)
    ensures FirstIntent(s, groups).Some?
    ensures exists m | 0 <= m <= k :: FirstIntent(s, groups).value == groups[m].intent
  {
    var r := FirstIntent(s, groups);
    var m :| 0 <= m < |groups| && r.value == groups[m].intent && AnyMatch(groups[m].patterns, s)
             && forall n | 0 <= n < m :: !AnyMatch(groups[n].patterns, s);
    assert m <= k;
  }

  /** The bare `schedule` pattern of list_events matches wherever `schedule.*time` does. */
  lemma ScheduleMatchesListEvents(s: string)
    requires Matches(InOrder("schedule", "time"), s)
    ensures AnyMatch(IntentTable[4].patterns, s)
  {
    var i: nat, j: nat :| i <= j <= |s| && i + |"schedule"| <= j && OccursAtIgnoringCase(s, "schedule", i)
                          && OccursAtIgnoringCase(s, "time", j)
                          && forall k | i + |"schedule"| <= k < j :: !IsLineTerminator(s[k]);
    var patterns := IntentTable[4].patterns;
    assert patterns[4] == Word("schedule");
    assert Matches(patterns[4], s);
  }

  /**
   * `schedule.*time` can never select find_slots: any text it matches also matches the bare
   * `schedule` pattern of list_events, which comes earlier in the list.
   */
  lemma FindSlotsShadowed(s: string)
    requires Matches(InOrder("schedule", "time"), s)
    ensures FirstIntent(s, IntentTable) != Some("find_slots")
  {
    ScheduleMatchesListEvents(s);
    FirstIntentNoLaterThan(s, IntentTable, 4);
    EarlierIntents();
  }

  /** The five groups before find_slots carry other intents. */
  lemma EarlierIntents()
    ensures forall m | 0 <= m <= 4 :: IntentTable[m].intent != "find_slots"
  {
    assert IntentTable[0].intent == "create_task";
    assert IntentTable[1].intent == "list_tasks";
    assert IntentTable[2].intent == "update_task";
    assert IntentTable[3].intent == "create_event";
    assert IntentTable[4].intent == "list_events";
  }

  /** The intent label of the command agent's reply: the intent, or "general" without one. */
  function IntentLabel(intent: Option<string>): (l: string)
    ensures intent.Some? && intent.value != "" ==> l == intent.value
    ensures intent.None? || intent.value == "" ==> l == "general"
  {
    if intent.Some? && intent.value != "" then intent.value else "general"
  }

  /** The command agent's reply: a text success naming the intent, carrying the processed command. */
  function CommandReply(processed: Command): (r: Response)
    ensures r.status == Success && r.kind == Text && r.message == None && r.personality == None
    ensures r.raw == Some(ProcessedCommand(processed))
    ensures r.content == "Command processed. Intent: " + IntentLabel(processed.intent)
  {
    SuccessResponse("Command processed. Intent: " + IntentLabel(processed.intent), Text, Some(ProcessedCommand(processed)))
  }

  /**
   * `CommandAgent.execute`: logs the command (a failed log is rethrown), starts the record,
   * classifies the text, records COMPLETED with the processed command, and replies with the
   * intent and the processed command.
   */
  method Execute(log: ExecutionLog, id: string, command: Command, userId: string, now: int)
    returns (r: Result<Response>)
    modifies log
    ensures r.Ok? <==> id !in old(log.records)
    ensures r.Ok? ==> r.value == CommandReply(Processed(command.text))
    ensures r.Ok? ==> log.records == old(log.records)[id := CompletedRecord(id, COMMAND, userId, command, CommandPayload(Processed(command.text)), now)]
    ensures r.Err? ==> log.records == old(log.records)
    ensures old(log.Valid()) ==> log.Valid()
  {
    var logged := log.LogExecution(id, COMMAND, userId, command.text, command.intent, command.parameters, now);
    if logged.Err? {
      return Err(logged.message);
    }
    log.StartExecution(id, now);
    var processed := ProcessUserCommand(command.text);
    log.UpdateExecution(id, COMPLETED, Some(CommandPayload(processed)), None, now);
    LifecycleTable(old(log.records), id, Pending(id, COMMAND, userId, command.text, command.intent, command.parameters, now),
                   now, COMPLETED, Some(CommandPayload(processed)), None, now);
    r := Ok(CommandReply(processed));
  }
}
