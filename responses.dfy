/**
 * The uniform Response every agent returns, the classified Command, and the
 * pure response builders shared by all agents (src/lib/agents/BaseAgent.ts):
 * success and error responses, the time-of-day greeting, and the two
 * personality dials read from the stored preferences.
 */
module Responses {
  import opened Common
  import opened Strings
  import opened Store

  /** A classified user command: the text, the recognised intent if any, and its slots. */
  datatype Command = Command(text: string, intent: Option<string>, parameters: Option<Fields>)

  /** `command.parameters?.key`, the way every agent reads a slot. */
  function Param(command: Command, key: string): (v: Option<Value>)
    ensures v.Some? <==> command.parameters.Some? && key in command.parameters.value
    ensures v.Some? ==> v.value == command.parameters.value[key]
  {
    if command.parameters.Some? then Get(command.parameters.value, key) else None
  }

  /** One free hour found in a calendar. */
  datatype Slot = Slot(start: int, end: int, duration: int)

  /** The structured `rawContent` of a response, one variant per shape the agents return. */
  datatype Raw =
    | CommandParams(command: Option<Fields>)
    | ProcessedCommand(processed: Command)
    | TaskRaw(task: Task)
    | TasksRaw(tasks: set<Task>)
    | EventRaw(event: CalendarEvent)
    | SlotsRaw(availableSlots: seq<Slot>, existingEvents: set<CalendarEvent>)
    | EventsSummaryRaw(todayEvents: set<CalendarEvent>, upcomingCount: nat)
    | EmailRaw(email: Email)
    | InboxRaw(emails: seq<Email>, drafts: nat, sent: nat, failed: nat)
    | DocumentRaw(document: Document)
    | DocumentSummaryRaw(summarized: Document, summary: string)
    | SearchRaw(query: string, hits: seq<SearchHit>, search: WebSearch)
    | ScrapeRaw(url: string, scraped: string, scrapeRecord: WebSearch)
    | PageSummaryRaw(pageUrl: string, pageSummary: string, summaryRecord: WebSearch)
    | LlmRaw(result: string)

  datatype Status = Success | Error

  datatype Kind = Text | Link | TaskList | CalendarView | EmailView | DocumentView | Other

  datatype Personality = Personality(
    greeting: Option<string>,
    acknowledgment: Option<string>,
    completion: Option<string>,
    humor: Option<string>)

  datatype Response = Response(
    status: Status,
    kind: Kind,
    content: string,
    raw: Option<Raw>,
    personality: Option<Personality>,
    message: Option<string>)

  /** What an operation on one store table gives: its response and the table it leaves. */
  datatype Outcome<T> = Outcome(response: Response, rows: map<string, T>)

  /** `createSuccessResponse`: a success carrying the given content, raw content and personality verbatim. */
  function SuccessResponse(content: string, kind: Kind := Text, raw: Option<Raw> := None,
                           personality: Option<Personality> := None): (r: Response)
    ensures r.status == Success && r.kind == kind && r.message == None
    ensures r.content == content && r.raw == raw && r.personality == personality
  {
    Response(Success, kind, content, raw, personality, None)
  }

  /**
   * `createErrorResponse`: an error of type text whose content is the message and whose
   * `message` field is the detail when one is given (non-empty), the message otherwise.
   */
  function ErrorResponse(message: string, detail: Option<string> := None): (r: Response)
    ensures r.status == Error && r.kind == Text && r.raw == None && r.personality == None
    ensures r.content == message
    ensures r.message == Some(if detail.Some? && detail.value != "" then detail.value else message)
  {
    Response(Error, Text, message, None, None,
             Some(if detail.Some? && detail.value != "" then detail.value else message))
  }

  /** `getGreeting` for the hour of the local clock. */
  function Greeting(hour: int): (g: string)
    ensures g == "Good morning" <==> hour < 12
    ensures g == "Good afternoon" <==> 12 <= hour < 17
    ensures g == "Good evening" <==> 17 <= hour
  {
    if hour < 12 then "Good morning" else if hour < 17 then "Good afternoon" else "Good evening"
  }

  /** The greeting every specialist puts in its personality block. */
  function SirGreeting(hour: int): string
  {
    Greeting(hour) + ", Sir/Madam."
  }

  /**
   * `preferences?.<key> || fallback`: the stored level, unless the preference record is
   * missing, lacks the field, or stores 0 (falsy), in which case the fallback.
   */
  function Level(stored: Option<Fields>, key: string, fallback: int): (n: int)
    ensures n != fallback ==> stored.Some? && key in stored.value && stored.value[key] == Num(n) && n != 0
    ensures (stored.Some? && key in stored.value && stored.value[key].Num? && stored.value[key].n != 0)
            ==> n == stored.value[key].n
  {
    if stored.Some? && key in stored.value && stored.value[key].Num? && stored.value[key].n != 0
    then stored.value[key].n
    else fallback
  }

  /** The formality dial (default 7). */
  function Formality(stored: Option<Fields>): int
  {
    Level(stored, "formalityLevel", 7)
  }

  /** The humour dial (default 6). */
  function Humour(stored: Option<Fields>): int
  {
    Level(stored, "humorLevel", 6)
  }

  /** A missing preference record, or stored levels of 0, give formality 7 and humour 6. */
  lemma DialDefaults(stored: Option<Fields>)
    requires stored.None? || (stored.value["formalityLevel" := Num(0)]["humorLevel" := Num(0)] == stored.value)
    ensures Formality(stored) == 7 && Humour(stored) == 6
  {
    if stored.Some? {
      assert stored.value["formalityLevel"] == Num(0);
      assert stored.value["humorLevel"] == Num(0);
    }
  }

  /** The formal phrasing is used from formality 7 upwards. */
  predicate Formal(formality: int)
  {
    formality >= 7
  }

  /** The text a template literal makes of a parameter value (`String(v)`; an array joins with ","). */
  function TemplateText(v: Value): (r: string)
    ensures v.Str? ==> r == v.s
  {
    match v
    case Str(s) => s
    case Strs(items) => Join(items, ",")
    case Num(n) => IntToString(n)
    case Flag(b) => if b then "true" else "false"
  }

  /**
   * The optional humour remark of the specialists: appended only when the humour dial is
   * at least 6 and the coin flip (`Math.random() < 0.3`) came up.
   */
  function WithHumour(content: string, humour: int, roll: bool, remark: string): (r: string)
    ensures r == content || r == content + remark
    ensures r != content ==> humour >= 6 && roll
    ensures humour >= 6 && roll ==> r == content + remark
  {
    if humour >= 6 && roll then content + remark else content
  }
}
