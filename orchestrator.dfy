/**
 * The orchestrator of src/lib/agents/OrchestratorAgent.ts: reads the two personality dials,
 * routes the classified intent to one of five specialist groups, and answers with that group's
 * canned response (the specialists themselves are never called), or with the general greeting
 * when there is no intent or the intent is not routed. The execution is logged like every agent's.
 */
module Orchestrator {
  import opened Common
  import opened Strings
  import opened Responses
  import opened Tracker
  import Store

  /** The five specialist groups the routing distinguishes. */
  datatype Specialist = Tasks | Calendar | Emails | Documents | WebSearch

  /** `routeToSpecialist`'s switch: the group of each of the 13 routed intents, none for any other. */
  function Route(intent: Option<string>): (g: Option<Specialist>)
    ensures g == Some(Tasks) <==> intent in {Some("create_task"), Some("list_tasks"), Some("update_task")}
    ensures g == Some(Calendar) <==> intent in {Some("create_event"), Some("list_events"), Some("find_slots")}
    ensures g == Some(Emails) <==> intent in {Some("draft_email"), Some("send_email"), Some("summarize_inbox")}
    ensures g == Some(Documents) <==> intent in {Some("create_document"), Some("summarize_document")}
    ensures g == Some(WebSearch) <==> intent in {Some("web_search"), Some("scrape_url")}
  {
    match intent
    case None => None
    case Some(i) =>
      if i in {"create_task", "list_tasks", "update_task"} then Some(Tasks)
      else if i in {"create_event", "list_events", "find_slots"} then Some(Calendar)
      else if i in {"draft_email", "send_email", "summarize_inbox"} then Some(Emails)
      else if i in {"create_document", "summarize_document"} then Some(Documents)
      else if i in {"web_search", "scrape_url"} then Some(WebSearch)
      else None
  }

  /** The response type each group's template carries. */
  function GroupKind(g: Specialist): Kind
  {
    match g
    case Tasks => TaskList
    case Calendar => CalendarView
    case Emails => EmailView
    case Documents => DocumentView
    case WebSearch => Link
  }

  /** The acknowledgment of each group: the formal wording, and the casual one. */
  function FormalAcknowledgment(g: Specialist): string
  {
    match g
    case Tasks => TasksFormalAcknowledgment
    case Calendar => CalendarFormalAcknowledgment
    case Emails => EmailsFormalAcknowledgment
    case Documents => DocumentsFormalAcknowledgment
    case WebSearch => WebSearchFormalAcknowledgment
  }

  function CasualAcknowledgment(g: Specialist): string
  {
    match g
    case Tasks => TasksCasualAcknowledgment
    case Calendar => CalendarCasualAcknowledgment
    case Emails => EmailsCasualAcknowledgment
    case Documents => DocumentsCasualAcknowledgment
    case WebSearch => WebSearchCasualAcknowledgment
  }

  /** The acknowledgment for a formality level: formal from 7 upwards. */
  function Acknowledgment(g: Specialist, formality: int): (a: string)
    ensures a == FormalAcknowledgment(g) <==> Formal(formality)
    ensures a == CasualAcknowledgment(g) <==> !Formal(formality)
  {
    if Formal(formality) then FormalAcknowledgment(g) else CasualAcknowledgment(g)
  }

  /** The sentence each group's content adds after the acknowledgment. */
  function Pitch(g: Specialist): string
  {
    match g
    case Tasks => TasksPitch
    case Calendar => CalendarPitch
    case Emails => EmailsPitch
    case Documents => DocumentsPitch
    case WebSearch => WebSearchPitch
  }

  function Completion(g: Specialist): string
  {
    match g
    case Tasks => TasksCompletion
    case Calendar => CalendarCompletion
    case Emails => EmailsCompletion
    case Documents => DocumentsCompletion
    case WebSearch => WebSearchCompletion
  }

  function Remark(g: Specialist): string
  {
    match g
    case Tasks => TasksRemark
    case Calendar => CalendarRemark
    case Emails => EmailsRemark
    case Documents => DocumentsRemark
    case WebSearch => WebSearchRemark
  }

  const TasksFormalAcknowledgment := "Certainly, Sir/Madam."
  const CalendarFormalAcknowledgment := "With pleasure, Sir/Madam."
  const EmailsFormalAcknowledgment := "I shall handle your correspondence, Sir/Madam."
  const DocumentsFormalAcknowledgment := "I shall create your document, Sir/Madam."
  const WebSearchFormalAcknowledgment := "I shall conduct the research, Sir/Madam."
  const TasksCasualAcknowledgment := "Got it!"
  const CalendarCasualAcknowledgment := "On it!"
  const EmailsCasualAcknowledgment := "I'll help with your emails."
  const DocumentsCasualAcknowledgment := "I'll help with your document."
  const WebSearchCasualAcknowledgment := "I'll search for that information."
  const TasksPitch := " I'll help you manage your tasks. I've taken the liberty of preparing the task management interface for you."
  const CalendarPitch := " I'll assist you with your calendar management. Time organization is crucial for productivity."
  const EmailsPitch := " Email communication is an art form, and I'm here to help you master it."
  const DocumentsPitch := " Document creation and summarization are among my specialties."
  const WebSearchPitch := " Research and information gathering are fundamental to making informed decisions."
  const TasksCompletion := "Your tasks have been processed."
  const CalendarCompletion := "Your calendar has been updated."
  const EmailsCompletion := "Your email has been processed."
  const DocumentsCompletion := "Your document has been processed."
  const WebSearchCompletion := "Your research has been completed."
  const TasksRemark := "Task management is quite straightforward, unlike quantum physics."
  const CalendarRemark := "I find time management fascinating. It's the one resource we can't buy more of."
  const EmailsRemark := "I do enjoy a well-crafted email. It's like a digital letter, minus the paper cuts."
  const DocumentsRemark := "Documents are like stories, but with more bullet points and fewer plot twists."
  const WebSearchRemark := "The internet is a fascinating place. It's like a library, but with more cat videos."

  /** The humour level from which a group's personality block carries its remark. */
  function HumourThreshold(g: Specialist): (t: int)
    ensures t == 7 <==> g in {Tasks, Emails, WebSearch}
    ensures t == 6 <==> g in {Calendar, Documents}
  {
    match g
    case Tasks | Emails | WebSearch => 7
    case Calendar | Documents => 6
  }

  /**
   * `createTaskResponse` … `createWebSearchResponse`: the group's template, with the command's
   * parameters passed through as raw content and the greeting for the hour.
   */
  function GroupResponse(g: Specialist, parameters: Option<Fields>, formality: int, humour: int,
                         hour: int): (r: Response)
    ensures r.status == Success && r.kind == GroupKind(g) && r.message == None
    ensures r.raw == Some(CommandParams(parameters))
    ensures r.content == Acknowledgment(g, formality) + Pitch(g)
    ensures r.personality.Some? && r.personality.value.acknowledgment == Some(Acknowledgment(g, formality))
    ensures r.personality.value.greeting == Some(SirGreeting(hour))
    ensures r.personality.value.completion == Some(Completion(g))
    ensures r.personality.value.humor.Some? <==> humour >= HumourThreshold(g)
    ensures r.personality.value.humor.Some? ==> r.personality.value.humor.value == Remark(g)
  {
    var acknowledgment := Acknowledgment(g, formality);
    SuccessResponse(acknowledgment + Pitch(g), GroupKind(g), Some(CommandParams(parameters)),
                    Some(Personality(Some(SirGreeting(hour)), Some(acknowledgment), Some(Completion(g)),
                                     if humour >= HumourThreshold(g) then Some(Remark(g)) else None)))
  }

  /** The three remarks the general greeting may end with. */
  const HumourPhrases: seq<string> := [TeaPhrase, DataPhrase, AlgorithmPhrase]

  const TeaPhrase := "I do try to be helpful, though I must admit I'm still working on my tea-making abilities."
  const DataPhrase := "At your service, though I must confess I'm better with data than with small talk."
  const AlgorithmPhrase :=
    "I anticipated you might need assistance. It's what I do best, besides running complex algorithms."

  const JarvisIntro := ". I'm JARVIS, your personal AI assistant. How may I assist you today?"
  const GeneralAcknowledgment := "Certainly, Sir/Madam."
  const GeneralCompletion := "Consider it done, Sir/Madam."
  const GeneralRemark := "I do try to be helpful..."

  /** How the general greeting addresses the user: formally from formality 7 upwards. */
  function Salutation(formality: int): (s: string)
    ensures s == "Sir/Madam" <==> Formal(formality)
    ensures s == "there" <==> !Formal(formality)
  {
    if Formal(formality) then "Sir/Madam" else "there"
  }

  /**
   * `createGeneralResponse`: the greeting with the salutation and the introduction, plus, when
   * the humour dial is at least 6 and the coin flip came up, the remark the phrase index picks.
   * The personality block's humour line depends on the dial alone.
   */
  function GeneralResponse(formality: int, humour: int, hour: int, roll: bool, phrase: nat): (r: Response)
    requires phrase < |HumourPhrases|
    ensures r.status == Success && r.kind == Text && r.raw == None && r.message == None
    ensures var intro := Greeting(hour) + ", " + Salutation(formality) + JarvisIntro;
            && (r.content == intro || r.content == intro + " " + HumourPhrases[phrase])
            && (r.content != intro <==> humour >= 6 && roll)
    ensures r.personality.Some?
    ensures r.personality.value.greeting == Some(Greeting(hour) + ", " + Salutation(formality) + ".")
    ensures r.personality.value.acknowledgment == Some(GeneralAcknowledgment)
    ensures r.personality.value.completion == Some(GeneralCompletion)
    ensures r.personality.value.humor.Some? <==> humour >= 6
  {
    var greeting := Greeting(hour);
    var salutation := Salutation(formality);
    var intro := greeting + ", " + salutation + JarvisIntro;
    var content := WithHumour(intro, humour, roll, " " + HumourPhrases[phrase]);
    assert content != intro <==> humour >= 6 && roll by {
      if humour >= 6 && roll {
        assert |content| == |intro| + 1 + |HumourPhrases[phrase]|;
      }
    }
    SuccessResponse(content, Text, None,
                    Some(Personality(Some(greeting + ", " + salutation + "."), Some(GeneralAcknowledgment),
                                     Some(GeneralCompletion),
                                     if humour >= 6 then Some(GeneralRemark) else None)))
  }

  /**
   * The response `execute` computes for a command: the general greeting without an intent (an
   * absent or empty intent is falsy) or for an intent the switch does not route, the group's
   * template otherwise.
   */
  function Respond(command: Command, formality: int, humour: int, hour: int, roll: bool, phrase: nat): Response
    requires phrase < |HumourPhrases|
  {
    if command.intent.None? || command.intent.value == "" then GeneralResponse(formality, humour, hour, roll, phrase)
    else match Route(command.intent)
      case Some(g) => GroupResponse(g, command.parameters, formality, humour, hour)
      case None => GeneralResponse(formality, humour, hour, roll, phrase)
  }

  /**
   * The general response exactly when the intent is not routed: no raw content and type text;
   * a routed intent gives its group's type and passes the parameters through unchanged.
   */
  lemma RespondShape(command: Command, formality: int, humour: int, hour: int, roll: bool, phrase: nat)
    requires phrase < |HumourPhrases|
    ensures var r := Respond(command, formality, humour, hour, roll, phrase);
            && (Route(command.intent).None? <==> r.raw == None)
            && (Route(command.intent).None? ==> r == GeneralResponse(formality, humour, hour, roll, phrase))
            && (Route(command.intent).Some? ==>
                  r.kind == GroupKind(Route(command.intent).value) && r.raw == Some(CommandParams(command.parameters)))
  {
    var r := Respond(command, formality, humour, hour, roll, phrase);
    if command.intent.None? || command.intent.value == "" {
      assert Route(command.intent).None?;
      assert r == GeneralResponse(formality, humour, hour, roll, phrase);
    } else if Route(command.intent).Some? {
      assert r == GroupResponse(Route(command.intent).value, command.parameters, formality, humour, hour);
    }
  }

  /** Routing never reads the parameters: two commands with the same intent differ only in raw content. */
  lemma ParametersOnlyPassThrough(c1: Command, c2: Command, formality: int, humour: int, hour: int,
                                  roll: bool, phrase: nat)
    requires phrase < |HumourPhrases|
    requires c1.intent == c2.intent
    ensures Respond(c1, formality, humour, hour, roll, phrase).(raw := None)
            == Respond(c2, formality, humour, hour, roll, phrase).(raw := None)
  {
    if c1.intent.Some? && c1.intent.value != "" && Route(c1.intent).Some? {
      var g := Route(c1.intent).value;
      assert Respond(c1, formality, humour, hour, roll, phrase) == GroupResponse(g, c1.parameters, formality, humour, hour);
      assert Respond(c2, formality, humour, hour, roll, phrase) == GroupResponse(g, c2.parameters, formality, humour, hour);
      GroupIgnoresParameters(g, c1.parameters, c2.parameters, formality, humour, hour);
    }
  }

  /** A group's template differs between two parameter records only in its raw content. */
  lemma GroupIgnoresParameters(g: Specialist, p1: Option<Fields>, p2: Option<Fields>, formality: int, humour: int,
                               hour: int)
    ensures GroupResponse(g, p1, formality, humour, hour).(raw := None)
            == GroupResponse(g, p2, formality, humour, hour).(raw := None)
  {
  }

  /** Every group acknowledges formally exactly when the formality dial is at least 7. */
  lemma FormalIffSeven(g: Specialist, parameters: Option<Fields>, formality: int, humour: int, hour: int)
    ensures var r := GroupResponse(g, parameters, formality, humour, hour);
            r.personality.value.acknowledgment == Some(FormalAcknowledgment(g)) <==> formality >= 7
  {
    var r := GroupResponse(g, parameters, formality, humour, hour);
    SomeIff(r.personality.value.acknowledgment, Acknowledgment(g, formality), FormalAcknowledgment(g), Formal(formality));
  }

  /** An optional text that is some `a` is some `b` exactly when `a` is `b`. */
  lemma SomeIff(x: Option<string>, a: string, b: string, p: bool)
    requires x == Some(a) && (a == b <==> p)
    ensures x == Some(b) <==> p
  {
  }

  /** The command `executeTask` builds for an intent and its parameters. */
  function TaskCommand(intent: string, params: Fields): (c: Command)
    ensures c.intent == Some(intent) && c.parameters == Some(params)
    ensures c.text == "Execute task: " + intent
  {
    Command("Execute task: " + intent, Some(intent), Some(params))
  }

  /** The command `runResearchWorkflow` builds: intent `research`, the query as the only parameter. */
  function ResearchCommand(query: string): (c: Command)
    ensures c.intent == Some("research") && c.parameters == Some(map["query" := Str(query)])
    ensures c.text == "Research: " + query
  {
    Command("Research: " + query, Some("research"), Some(map["query" := Str(query)]))
  }

  /** The research workflow's intent is not routed, so it always ends in the general greeting. */
  lemma ResearchGetsGeneral(query: string, formality: int, humour: int, hour: int, roll: bool, phrase: nat)
    requires phrase < |HumourPhrases|
    ensures Respond(ResearchCommand(query), formality, humour, hour, roll, phrase)
            == GeneralResponse(formality, humour, hour, roll, phrase)
  {
    assert Route(Some("research")).None?;
  }

  /** The response `execute` computes: the general one without an intent, the routed one otherwise. */
  method ResponseFor(command: Command, formality: int, humour: int, hour: int, roll: bool, phrase: nat)
    returns (response: Response)
    requires phrase < |HumourPhrases|
    ensures response == Respond(command, formality, humour, hour, roll, phrase)
  {
    if command.intent.None? || command.intent.value == "" {
      response := GeneralResponse(formality, humour, hour, roll, phrase);
    } else {
      response := Respond(command, formality, humour, hour, roll, phrase);
    }
  }

  /**
   * `execute`: logs the command (a failed log is rethrown and writes nothing), starts the record,
   * reads the dials from the stored preferences (`preferences` is None when the record is
   * missing or its lookup failed), computes the response, and records it as COMPLETED.
   */
  method Execute(log: ExecutionLog, id: string, command: Command, userId: string,
                 preferences: Option<Fields>, hour: int, roll: bool, phrase: nat, now: int)
    returns (r: Result<Response>)
    requires phrase < |HumourPhrases|
    modifies log
    ensures r.Ok? <==> id !in old(log.records)
    ensures r.Ok? ==> r.value == Respond(command, Formality(preferences), Humour(preferences), hour, roll, phrase)
    ensures r.Ok? ==> log.records == old(log.records)[id := CompletedRecord(id, ORCHESTRATOR, userId, command, ResponsePayload(r.value), now)]
    ensures r.Err? ==> r.message == Store.StoreFailure && log.records == old(log.records)
    ensures old(log.Valid()) ==> log.Valid()
  {
    var logged := log.LogExecution(id, ORCHESTRATOR, userId, command.text, command.intent, command.parameters, now);
    if logged.Err? {
      return Err(logged.message);
    }
    log.StartExecution(id, now);
    var response := ResponseFor(command, Formality(preferences), Humour(preferences), hour, roll, phrase);
    log.UpdateExecution(id, COMPLETED, Some(ResponsePayload(response)), None, now);
    LifecycleTable(old(log.records), id,
                   Pending(id, ORCHESTRATOR, userId, command.text, command.intent, command.parameters, now),
                   now, COMPLETED, Some(ResponsePayload(response)), None, now);
    r := log.WithErrorHandling(Ok(response), logged.value, now);
  }

  /** `executeTask`: runs `execute` on the command built from the intent and its parameters. */
  method ExecuteTask(log: ExecutionLog, id: string, intent: string, params: Fields, userId: string,
                     preferences: Option<Fields>, hour: int, roll: bool, phrase: nat, now: int)
    returns (r: Result<Response>)
    requires phrase < |HumourPhrases|
    modifies log
    ensures r.Ok? <==> id !in old(log.records)
    ensures r.Ok? ==> r.value == Respond(TaskCommand(intent, params), Formality(preferences), Humour(preferences),
                                         hour, roll, phrase)
    ensures r.Ok? ==> log.records == old(log.records)[id := CompletedRecord(id, ORCHESTRATOR, userId, TaskCommand(intent, params),
                                                                            ResponsePayload(r.value), now)]
    ensures r.Err? ==> r.message == Store.StoreFailure && log.records == old(log.records)
    ensures old(log.Valid()) ==> log.Valid()
  {
    r := Execute(log, id, TaskCommand(intent, params), userId, preferences, hour, roll, phrase, now);
  }

  /** `runResearchWorkflow`: runs `execute` on the research command for the query. */
  method RunResearchWorkflow(log: ExecutionLog, id: string, query: string, userId: string,
                             preferences: Option<Fields>, hour: int, roll: bool, phrase: nat, now: int)
    returns (r: Result<Response>)
    requires phrase < |HumourPhrases|
    modifies log
    ensures r.Ok? <==> id !in old(log.records)
    ensures r.Ok? ==> r.value == GeneralResponse(Formality(preferences), Humour(preferences), hour, roll, phrase)
    ensures r.Ok? ==> log.records == old(log.records)[id := CompletedRecord(id, ORCHESTRATOR, userId, ResearchCommand(query),
                                                                            ResponsePayload(r.value), now)]
    ensures r.Err? ==> r.message == Store.StoreFailure && log.records == old(log.records)
    ensures old(log.Valid()) ==> log.Valid()
  {
    r := Execute(log, id, ResearchCommand(query), userId, preferences, hour, roll, phrase, now);
    ResearchGetsGeneral(query, Formality(preferences), Humour(preferences), hour, roll, phrase);
  }
}
