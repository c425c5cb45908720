/**
 * The Data Store collaborator: one table per entity, each a map from record
 * id to record, with the create/update behaviour the agents rely on (a
 * create with an id already in use, or an update of an id that is absent,
 * throws and changes nothing).
 */
module Store {
  import opened Common

  /** The message of the error a failed create or update throws; its wording is the store's own. */
  const StoreFailure: string := "store operation failed"

  datatype Priority = LOW | MEDIUM | HIGH
  datatype TaskStatus = PENDING | IN_PROGRESS | COMPLETED | CANCELLED
  datatype EmailStatus = DRAFT | SENT | FAILED

  /** The store's reading of a priority name; any other string is rejected by the store. */
  function ParsePriority(s: string): (r: Option<Priority>)
    ensures r == Some(LOW) <==> s == "LOW"
    ensures r == Some(MEDIUM) <==> s == "MEDIUM"
    ensures r == Some(HIGH) <==> s == "HIGH"
  {
    if s == "LOW" then Some(LOW)
    else if s == "MEDIUM" then Some(MEDIUM)
    else if s == "HIGH" then Some(HIGH)
    else None
  }

  /** The store's reading of a task status name; any other string is rejected by the store. */
  function ParseTaskStatus(s: string): (r: Option<TaskStatus>)
    ensures r == Some(PENDING) <==> s == "PENDING"
    ensures r == Some(IN_PROGRESS) <==> s == "IN_PROGRESS"
    ensures r == Some(COMPLETED) <==> s == "COMPLETED"
    ensures r == Some(CANCELLED) <==> s == "CANCELLED"
  {
    if s == "PENDING" then Some(PENDING)
    else if s == "IN_PROGRESS" then Some(IN_PROGRESS)
    else if s == "COMPLETED" then Some(COMPLETED)
    else if s == "CANCELLED" then Some(CANCELLED)
    else None
  }

  /**
   * The store's reading of an optional text column from a loosely typed record: absent is null,
   * a string is stored as given, and a value of any other type is rejected.
   */
  function TextField(f: Fields, key: string): (r: Result<Option<string>>)
    ensures r == Ok(None) <==> key !in f
    ensures r.Ok? && r.value.Some? <==> key in f && f[key].Str?
    ensures r.Ok? && r.value.Some? ==> r.value.value == f[key].s
    ensures r.Err? ==> r.message == StoreFailure
  {
    if key !in f then Ok(None)
    else if f[key].Str? then Ok(Some(f[key].s))
    else Err(StoreFailure)
  }

  /** Times are milliseconds since the epoch. */
  datatype Task = Task(
    id: string,
    userId: string,
    title: string,
    description: Option<string>,
    priority: Priority,
    status: TaskStatus,
    dueDate: Option<int>,
    completedAt: Option<int>,
    estimatedTime: Option<int>,
    reminderTime: Option<int>,
    parentId: Option<string>,
    isArchived: bool,
    aiBreakdown: Option<string>,
    aiEstimate: Option<int>,
    aiFollowups: Option<string>)

  /** A fresh task row as the store fills in its defaults: pending, not archived, no AI fields. */
  function NewTask(id: string, userId: string, title: string, description: Option<string>,
                   priority: Priority, dueDate: Option<int>, estimatedTime: Option<int>,
                   reminderTime: Option<int>, parentId: Option<string>): (t: Task)
    ensures t.id == id && t.userId == userId && t.title == title && t.description == description
    ensures t.priority == priority && t.dueDate == dueDate && t.parentId == parentId
    ensures t.estimatedTime == estimatedTime && t.reminderTime == reminderTime
    ensures t.status == PENDING && !t.isArchived && t.completedAt == None
    ensures t.aiBreakdown == None && t.aiEstimate == None && t.aiFollowups == None
  {
    Task(id, userId, title, description, priority, PENDING, dueDate, None, estimatedTime,
         reminderTime, parentId, false, None, None, None)
  }

  datatype CalendarEvent = CalendarEvent(
    id: string,
    userId: string,
    title: string,
    description: Option<string>,
    startTime: int,
    endTime: int,
    location: Option<string>,
    attendees: Option<Value>)

  datatype Email = Email(
    id: string,
    userId: string,
    subject: string,
    body: string,
    recipients: seq<string>,
    cc: Option<seq<string>>,
    bcc: Option<seq<string>>,
    status: EmailStatus)

  datatype Document = Document(
    id: string,
    userId: string,
    title: string,
    content: string,
    docType: string,
    summary: Option<string>)

  /** One hit of the web-search function: its url, name and snippet. */
  datatype SearchHit = SearchHit(url: string, name: string, snippet: string)

  /** One entry of a stored search's result list. */
  datatype ResultEntry =
    | Found(hit: SearchHit)
    | Scraped(url: string, title: string, snippet: string, content: string)
    | Summarized(url: string, title: string, snippet: string, summary: string)

  datatype WebSearch = WebSearch(
    id: string,
    userId: string,
    query: string,
    results: seq<ResultEntry>,
    urls: seq<string>,
    summary: Option<string>)

  datatype ApiKey = ApiKey(
    id: string,
    userId: string,
    serviceName: string,
    encryptedKey: string,
    isActive: bool)

  /** The record belongs to this user and service. */
  predicate Matches(k: ApiKey, userId: string, serviceName: string)
  {
    k.userId == userId && k.serviceName == serviceName
  }

  /** The api key table's constraints: every record is stored under its own id, and the pair (userId, serviceName) is unique. */
  predicate UniqueIndex(keys: map<string, ApiKey>)
  {
    && (forall id | id in keys :: keys[id].id == id)
    && (forall a, b | a in keys && b in keys && Matches(keys[a], keys[b].userId, keys[b].serviceName) :: a == b)
  }

  /** An api key as the settings screen holds and posts it: without an id until the server has stored it. */
  datatype KeyEntry = KeyEntry(
    id: Option<string>,
    userId: string,
    serviceName: string,
    encryptedKey: string,
    isActive: bool)

  /** One table of the store: rows by id. */
  class Table<T> {
    var rows: map<string, T>

    constructor ()
      ensures rows == map[]
    {
      rows := map[];
    }

    /** `create`: inserts a row under a new id; an id already in use throws and changes nothing. */
    method Create(id: string, row: T) returns (ok: bool)
      modifies this
      ensures ok <==> id !in old(rows)
      ensures rows == if ok then old(rows)[id := row] else old(rows)
    {
      ok := id !in rows;
      if ok {
        rows := rows[id := row];
      }
    }

    /** `update`: replaces the row under an existing id; an absent id throws and changes nothing. */
    method Update(id: string, row: T) returns (ok: bool)
      modifies this
      ensures ok <==> id in old(rows)
      ensures rows == if ok then old(rows)[id := row] else old(rows)
    {
      ok := id in rows;
      if ok {
        rows := rows[id := row];
      }
    }
  }
}
