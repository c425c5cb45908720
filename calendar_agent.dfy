/**
 * The calendar specialist of src/lib/agents/CalendarAgent.ts: creating events, summarising
 * today's and the upcoming events, and enumerating free one-hour slots between 9:00 and 17:00
 * on each day of a range. Times are integer milliseconds; a day is 24 hours and days start at
 * multiples of 24 hours (time zones and daylight saving are not modelled).
 */
module CalendarAgent {
  import opened Common
  import opened Strings
  import opened Store
  import opened Responses
  import Tracker
  import opened FreeSlots

  // ---------------------------------------------------------------------------
  // The events `findAvailableSlots` tests the candidates against

  /** The query as written: the user's events whose start or end lies within the closed range. */
  function FetchedAsWritten(rows: map<string, CalendarEvent>, userId: string, start: int, end: int): (r: set<CalendarEvent>)
    ensures forall event | event in r :: event.userId == userId
  {
    set id | id in rows && rows[id].userId == userId
                        && (start <= rows[id].startTime <= end || start <= rows[id].endTime <= end) :: rows[id]
  }

  /**
   * An event spanning the whole range is not fetched, so it blocks none of the slots it covers:
   * for a one-day range at midnight, an event from just before to just after the day leaves all
   * eight slots reported free although it overlaps each of them.
   */
  lemma SpanningEventMissed()
    ensures var event := CalendarEvent("e", "u", "meeting", None, -1, Day + 1, None, None);
            var slots := SlotsFrom(0, 0, FetchedAsWritten(map["e" := event], "u", 0, 0));
            |slots| == 8 && forall s | s in slots :: Overlaps(s, event)
  {
    var event := CalendarEvent("e", "u", "meeting", None, -1, Day + 1, None, None);
    var fetched := FetchedAsWritten(map["e" := event], "u", 0, 0);
    assert fetched == {};
    SlotsFromCount(0, 0, fetched);
    SlotsFromBounds(0, 0, fetched);
    DayStartOf(0, 0);
    assert Days(0, 0) == 1;
  }

  /** The earliest start and latest end of the candidate slots for the range. */
  function WindowStart(start: int): int
  {
    HourStart(DayStart(start), 9)
  }

  function WindowEnd(end: int): int
  {
    HourStart(DayStart(end), 17)
  }

  /** The query as intended: the user's events overlapping the hours the candidates cover. */
  function Fetched(rows: map<string, CalendarEvent>, userId: string, start: int, end: int): (r: set<CalendarEvent>)
    ensures forall event | event in r :: event.userId == userId
  {
    set id | id in rows && rows[id].userId == userId
                        && rows[id].startTime < WindowEnd(end) && rows[id].endTime > WindowStart(start) :: rows[id]
  }

  /** With the intended query, no returned slot overlaps any event of the user. */
  lemma ReturnedSlotsAreFree(rows: map<string, CalendarEvent>, userId: string, start: int, end: int)
    ensures forall s, id | s in SlotsFrom(start, end, Fetched(rows, userId, start, end))
                          && id in rows && rows[id].userId == userId :: !Overlaps(s, rows[id])
  {
    var fetched := Fetched(rows, userId, start, end);
    SlotsFromBounds(start, end, fetched);
    forall s, id | s in SlotsFrom(start, end, fetched) && id in rows && rows[id].userId == userId
      ensures !Overlaps(s, rows[id])
    {
      assert WindowStart(start) <= s.start && s.end <= WindowEnd(end);
      assert rows[id].startTime < WindowEnd(end) && rows[id].endTime > WindowStart(start) ==> rows[id] in fetched;
    }
  }

  /** Which query `findAvailableSlots` runs: the one the handler has, or the one it evidently intends. */
  datatype Query = AsWritten | Corrected

  function EventsFor(query: Query, rows: map<string, CalendarEvent>, userId: string, start: int, end: int)
    : (r: set<CalendarEvent>)
    ensures forall event | event in r :: event.userId == userId
  {
    match query
    case AsWritten => FetchedAsWritten(rows, userId, start, end)
    case Corrected => Fetched(rows, userId, start, end)
  }

  // ---------------------------------------------------------------------------
  // findAvailableSlots

  /** The message for the number of slots found: a full-schedule message for none. */
  function SlotsContent(n: nat, formality: int): (c: string)
    ensures n == 0 && Formal(formality) ==>
              c == "I'm afraid your schedule is quite full during the requested time period, Sir/Madam."
    ensures n == 0 && !Formal(formality) ==> c == "Your schedule appears to be full during this time."
    ensures n != 0 && Formal(formality) ==>
              c == "I've analyzed your schedule and found " + NatToString(n) + " available time slot" + PluralS(n) + ", Sir/Madam."
    ensures n != 0 && !Formal(formality) ==> c == "I found " + NatToString(n) + " available time slot" + PluralS(n)
  {
    if n == 0 then
      if Formal(formality) then "I'm afraid your schedule is quite full during the requested time period, Sir/Madam."
      else "Your schedule appears to be full during this time."
    else if Formal(formality) then
      "I've analyzed your schedule and found " + NatToString(n) + " available time slot" + PluralS(n) + ", Sir/Madam."
    else "I found " + NatToString(n) + " available time slot" + PluralS(n)
  }

  /**
   * `findAvailableSlots`: both dates must be given (truthy); an invalid date makes the store
   * query fail; otherwise the free slots against the fetched events, with both as raw content.
   * `Execute` runs the query as written; the corrected query is the same operation with `Corrected`.
   */
  function FindAvailableSlots(query: Query, rows: map<string, CalendarEvent>, startDate: Option<Value>, endDate: Option<Value>,
                              userId: string, toDate: Value -> Option<int>, preferences: Option<Fields>): (r: Response)
    ensures !GivenOpt(startDate) || !GivenOpt(endDate) ==> r == ErrorResponse("Start date and end date are required")
    ensures r.status == Success <==>
              GivenOpt(startDate) && GivenOpt(endDate) && toDate(startDate.value).Some? && toDate(endDate.value).Some?
    ensures r.status == Success ==>
              var start := toDate(startDate.value).value;
              var end := toDate(endDate.value).value;
              var fetched := EventsFor(query, rows, userId, start, end);
              r.raw == Some(SlotsRaw(SlotsFrom(start, end, fetched), fetched))
              && r.kind == CalendarView
              && r.content == SlotsContent(|SlotsFrom(start, end, fetched)|, Formality(preferences))
  {
    if !GivenOpt(startDate) || !GivenOpt(endDate) then ErrorResponse("Start date and end date are required")
    else if toDate(startDate.value).None? || toDate(endDate.value).None? then
      ErrorResponse("Failed to find available slots", Some(StoreFailure))
    else
      var start := toDate(startDate.value).value;
      var end := toDate(endDate.value).value;
      var fetched := EventsFor(query, rows, userId, start, end);
      var slots := SlotsFrom(start, end, fetched);
      SuccessResponse(SlotsContent(|slots|, Formality(preferences)), CalendarView, Some(SlotsRaw(slots, fetched)))
  }

  /** The method form of `findAvailableSlots`, which runs the slot loops. */
  method FindAvailableSlotsIn(query: Query, events: Table<CalendarEvent>, startDate: Option<Value>, endDate: Option<Value>,
                              userId: string, toDate: Value -> Option<int>, preferences: Option<Fields>)
    returns (response: Response)
    ensures response == FindAvailableSlots(query, events.rows, startDate, endDate, userId, toDate, preferences)
  {
    if !GivenOpt(startDate) || !GivenOpt(endDate) {
      return ErrorResponse("Start date and end date are required");
    }
    if toDate(startDate.value).None? || toDate(endDate.value).None? {
      return ErrorResponse("Failed to find available slots", Some(StoreFailure));
    }
    var start := toDate(startDate.value).value;
    var end := toDate(endDate.value).value;
    var existing := EventsFor(query, events.rows, userId, start, end);
    var available := GenerateAvailableSlots(existing, start, end);
    var content := SlotsMessage(|available|, Formality(preferences));
    response := SuccessResponse(content, CalendarView, Some(SlotsRaw(available, existing)));
  }

  /** The message of `findAvailableSlots`, set and then overwritten as the handler does. */
  method SlotsMessage(n: nat, formality: int) returns (content: string)
    ensures content == SlotsContent(n, formality)
  {
    content := "I found " + NatToString(n) + " available time slot" + PluralS(n);
    if formality >= 7 {
      content := "I've analyzed your schedule and found " + NatToString(n) + " available time slot" + PluralS(n)
                 + ", Sir/Madam.";
    }
    if n == 0 {
      content := if formality >= 7
                 then "I'm afraid your schedule is quite full during the requested time period, Sir/Madam."
                 else "Your schedule appears to be full during this time.";
    }
  }

  /**
   * The operation as written reports a spanning event's hours free: a one-day range at midnight
   * with an event from just before to just after the day succeeds with eight slots, each of which
   * overlaps the event.
   */
  lemma SpanningEventReportedFree()
    ensures var event := CalendarEvent("e", "u", "meeting", None, -1, Day + 1, None, None);
            var r := FindAvailableSlots(AsWritten, map["e" := event], Some(Str("today")), Some(Str("today")), "u",
                                        _ => Some(0), None);
            r.status == Success && r.raw.Some? && r.raw.value.SlotsRaw?
            && |r.raw.value.availableSlots| == 8 && forall s | s in r.raw.value.availableSlots :: Overlaps(s, event)
  {
    SpanningEventMissed();
  }

  /** With the corrected query, a successful search returns only slots that no event of the user overlaps. */
  lemma CorrectedSlotsAreFree(rows: map<string, CalendarEvent>, startDate: Option<Value>, endDate: Option<Value>,
                              userId: string, toDate: Value -> Option<int>, preferences: Option<Fields>)
    ensures var r := FindAvailableSlots(Corrected, rows, startDate, endDate, userId, toDate, preferences);
            r.status == Success ==>
              r.raw.Some? && r.raw.value.SlotsRaw?
              && forall s, id | s in r.raw.value.availableSlots && id in rows && rows[id].userId == userId
                   :: !Overlaps(s, rows[id])
  {
    var r := FindAvailableSlots(Corrected, rows, startDate, endDate, userId, toDate, preferences);
    if r.status == Success {
      ReturnedSlotsAreFree(rows, userId, toDate(startDate.value).value, toDate(endDate.value).value);
    }
  }

  // ---------------------------------------------------------------------------
  // createEvent

  /**
   * The row `createEvent` asks the store to create, once title, start and end are known to be
   * given: a mistyped text field or an invalid date makes the store reject it; attendees are
   * kept only when given (truthy).
   */
  function EventRow(data: Fields, id: string, userId: string, toDate: Value -> Option<int>): (r: Result<CalendarEvent>)
    requires Given(data, "title") && Given(data, "startTime") && Given(data, "endTime")
    ensures r.Ok? <==> data["title"].Str? && TextField(data, "description").Ok? && TextField(data, "location").Ok?
                       && toDate(data["startTime"]).Some? && toDate(data["endTime"]).Some?
    ensures r.Ok? ==> r.value == CalendarEvent(id, userId, data["title"].s, TextField(data, "description").value,
                                               toDate(data["startTime"]).value, toDate(data["endTime"]).value,
                                               TextField(data, "location").value,
                                               if Given(data, "attendees") then Some(data["attendees"]) else None)
  {
    var description := TextField(data, "description");
    var location := TextField(data, "location");
    if !data["title"].Str? || description.Err? || location.Err?
       || toDate(data["startTime"]).None? || toDate(data["endTime"]).None? then Err(StoreFailure)
    else
      Ok(CalendarEvent(id, userId, data["title"].s, description.value, toDate(data["startTime"]).value,
                       toDate(data["endTime"]).value, location.value,
                       if Given(data, "attendees") then Some(data["attendees"]) else None))
  }

  /** The light-hearted remark a scheduled event may get. */
  const SchedulingRemark := " Time management is an art, and I'm your personal artist!"

  /** The confirmation for a created event, with the location appended when one is given. */
  function ScheduledContent(title: string, location: Option<string>, formality: int, humour: int, roll: bool): (c: string)
    ensures var base := (if Formal(formality)
                         then "I've taken the liberty of scheduling the event \"" + title + "\" for you, Sir/Madam."
                         else "Event \"" + title + "\" has been scheduled successfully")
                        + (if location.Some? && location.value != "" then " at " + location.value else "");
            && (c == base || c == base + SchedulingRemark)
            && (c != base <==> humour >= 6 && roll)
  {
    var base := (if Formal(formality)
                 then "I've taken the liberty of scheduling the event \"" + title + "\" for you, Sir/Madam."
                 else "Event \"" + title + "\" has been scheduled successfully")
                + (if location.Some? && location.value != "" then " at " + location.value else "");
    WithHumour(base, humour, roll, SchedulingRemark)
  }

  /**
   * `createEvent`: title, start and end must all be given (truthy) before the store is touched;
   * then the event is created under the fresh id `id`; a store failure is reported as such.
   */
  function CreateEvent(rows: map<string, CalendarEvent>, data: Fields, id: string, userId: string,
                       toDate: Value -> Option<int>, preferences: Option<Fields>, hour: int, roll: bool)
    : Outcome<CalendarEvent>
  {
    if !Given(data, "title") || !Given(data, "startTime") || !Given(data, "endTime") then
      Outcome(ErrorResponse("Event title, start time, and end time are required"), rows)
    else
      var row := EventRow(data, id, userId, toDate);
      if row.Err? then Outcome(ErrorResponse("Failed to create event", Some(row.message)), rows)
      else if id in rows then Outcome(ErrorResponse("Failed to create event", Some(StoreFailure)), rows)
      else Outcome(SuccessResponse(ScheduledContent(row.value.title, row.value.location, Formality(preferences),
                                                    Humour(preferences), roll),
                                   CalendarView, Some(EventRaw(row.value)),
                                   Some(Personality(Some(SirGreeting(hour)), Some("With pleasure, Sir/Madam."),
                                                    Some("Event scheduled successfully."), None))),
                   rows[id := row.value])
  }

  /** `createEvent` writes one new event exactly when it succeeds, and nothing otherwise. */
  lemma CreateEventWritesOnlyOnSuccess(rows: map<string, CalendarEvent>, data: Fields, id: string, userId: string,
                                       toDate: Value -> Option<int>, preferences: Option<Fields>, hour: int, roll: bool)
    ensures var o := CreateEvent(rows, data, id, userId, toDate, preferences, hour, roll);
            && (o.response == ErrorResponse("Event title, start time, and end time are required")
                <==> !Given(data, "title") || !Given(data, "startTime") || !Given(data, "endTime"))
            && (o.response.status == Error ==> o.rows == rows)
            && (o.response.status == Success ==>
                  && id !in rows && o.rows == rows[id := EventRow(data, id, userId, toDate).value]
                  && o.rows[id].id == id && o.rows[id].userId == userId && o.rows[id].title == data["title"].s)
  {
  }

  /** The confirmation built step by step as `createEvent` does. */
  method ScheduledMessage(title: string, location: Option<string>, formality: int, humour: int, roll: bool)
    returns (content: string)
    ensures content == ScheduledContent(title, location, formality, humour, roll)
  {
    content := "Event \"" + title + "\" has been scheduled successfully";
    if formality >= 7 {
      content := "I've taken the liberty of scheduling the event \"" + title + "\" for you, Sir/Madam.";
    }
    ghost var opening := content;
    assert opening == if Formal(formality)
                      then "I've taken the liberty of scheduling the event \"" + title + "\" for you, Sir/Madam."
                      else "Event \"" + title + "\" has been scheduled successfully";
    if location.Some? && location.value != "" {
      content := content + (" at " + location.value);
    } else {
      assert content == opening + "";
    }
    ghost var base := content;
    if humour >= 6 && roll {
      content := content + SchedulingRemark;
    }
    assert content == WithHumour(base, humour, roll, SchedulingRemark);
  }

  /** The successful case of `createEvent`, spelled out for the method form. */
  lemma CreatedOutcome(rows: map<string, CalendarEvent>, data: Fields, id: string, userId: string,
                       toDate: Value -> Option<int>, preferences: Option<Fields>, hour: int, roll: bool,
                       event: CalendarEvent)
    requires Given(data, "title") && Given(data, "startTime") && Given(data, "endTime")
    requires EventRow(data, id, userId, toDate) == Ok(event) && id !in rows
    ensures CreateEvent(rows, data, id, userId, toDate, preferences, hour, roll)
            == Outcome(SuccessResponse(ScheduledContent(event.title, event.location, Formality(preferences),
                                                        Humour(preferences), roll),
                                       CalendarView, Some(EventRaw(event)),
                                       Some(Personality(Some(SirGreeting(hour)), Some("With pleasure, Sir/Madam."),
                                                        Some("Event scheduled successfully."), None))),
                       rows[id := event])
  {
  }

  /** The method form of `createEvent`, against the event table. */
  method CreateEventIn(events: Table<CalendarEvent>, data: Fields, id: string, userId: string,
                       toDate: Value -> Option<int>, preferences: Option<Fields>, hour: int, roll: bool)
    returns (response: Response)
    modifies events
    ensures Outcome(response, events.rows) == CreateEvent(old(events.rows), data, id, userId, toDate, preferences, hour, roll)
  {
    if !Given(data, "title") || !Given(data, "startTime") || !Given(data, "endTime") {
      return ErrorResponse("Event title, start time, and end time are required");
    }
    var row := EventRow(data, id, userId, toDate);
    if row.Err? {
      return ErrorResponse("Failed to create event", Some(row.message));
    }
    var created := events.Create(id, row.value);
    if !created {
      return ErrorResponse("Failed to create event", Some(StoreFailure));
    }
    CreatedOutcome(old(events.rows), data, id, userId, toDate, preferences, hour, roll, row.value);
    response := ScheduledResponse(row.value, preferences, hour, roll);
  }

  /** The success response of `createEvent` for the stored event. */
  method ScheduledResponse(event: CalendarEvent, preferences: Option<Fields>, hour: int, roll: bool)
    returns (response: Response)
    ensures response == SuccessResponse(ScheduledContent(event.title, event.location, Formality(preferences),
                                                         Humour(preferences), roll),
                                        CalendarView, Some(EventRaw(event)),
                                        Some(Personality(Some(SirGreeting(hour)), Some("With pleasure, Sir/Madam."),
                                                         Some("Event scheduled successfully."), None)))
  {
    var content := ScheduledMessage(event.title, event.location, Formality(preferences), Humour(preferences), roll);
    response := SuccessResponse(content, CalendarView, Some(EventRaw(event)),
                                Some(Personality(Some(SirGreeting(hour)), Some("With pleasure, Sir/Madam."),
                                                 Some("Event scheduled successfully."), None)));
  }

  // ---------------------------------------------------------------------------
  // getEventsSummary

  /** The ids of the user's events starting on the day of `now`: the rows of the first query. */
  function TodayIds(rows: map<string, CalendarEvent>, userId: string, now: int): set<string>
  {
    set id | id in rows && rows[id].userId == userId && DayStart(now) <= rows[id].startTime < DayStart(now) + Day
  }

  /** The ids of the user's events starting from `now` on: the rows the second query takes its ten from. */
  function UpcomingIds(rows: map<string, CalendarEvent>, userId: string, now: int): set<string>
  {
    set id | id in rows && rows[id].userId == userId && rows[id].startTime >= now
  }

  /** The user's events starting on the day of `now`: every such event, and nothing else. */
  function TodayEvents(rows: map<string, CalendarEvent>, userId: string, now: int): (r: set<CalendarEvent>)
    ensures forall e | e in r :: e in rows.Values && e.userId == userId && DayStart(now) <= e.startTime < DayStart(now) + Day
    ensures forall id | id in rows && rows[id].userId == userId && DayStart(now) <= rows[id].startTime < DayStart(now) + Day ::
              rows[id] in r
  {
    set id | id in TodayIds(rows, userId, now) :: rows[id]
  }

  /** How many upcoming events the query returns: those starting from now on, at most ten. */
  function UpcomingCount(rows: map<string, CalendarEvent>, userId: string, now: int): (n: nat)
    ensures var u := |set id | id in rows && rows[id].userId == userId && rows[id].startTime >= now|;
            n == if u < 10 then u else 10
    ensures n == 0 <==> forall id | id in rows && rows[id].userId == userId :: rows[id].startTime < now
  {
    var upcoming := UpcomingIds(rows, userId, now);
    assert forall id | id in rows && rows[id].userId == userId && rows[id].startTime >= now :: id in upcoming;
    if |upcoming| < 10 then |upcoming| else 10
  }

  /** Distinct ids hold distinct rows in a table whose rows carry their own id, so counting rows or events agrees. */
  lemma {:induction false} RowsOfIds(rows: map<string, CalendarEvent>, ids: set<string>)
    requires ids <= rows.Keys
    requires forall k | k in rows :: rows[k].id == k
    ensures |set id | id in ids :: rows[id]| == |ids|
    decreases ids
  {
    if ids != {} {
      var k :| k in ids;
      var rest := ids - {k};
      RowsOfIds(rows, rest);
      var events := set id | id in rest :: rows[id];
      assert rows[k] !in events;
      assert (set id | id in ids :: rows[id]) == events + {rows[k]};
    }
  }

  /** The summary message: a clear-calendar message exactly when both counts are zero. */
  function SummaryContent(today: nat, upcoming: nat, formality: int): (c: string)
    ensures today == 0 && upcoming == 0 && Formal(formality) ==>
              c == "Your calendar is clear, Sir/Madam. Would you like me to help you schedule something?"
    ensures today == 0 && upcoming == 0 && !Formal(formality) ==> c == "Your calendar is clear. Want to schedule something?"
    ensures (today != 0 || upcoming != 0) && Formal(formality) ==>
              c == "You have " + NatToString(today) + " event" + PluralS(today) + " scheduled for today, Sir/Madam, with "
                   + NatToString(upcoming) + " additional event" + PluralS(upcoming) + " upcoming."
    ensures (today != 0 || upcoming != 0) && !Formal(formality) ==>
              c == "You have " + NatToString(today) + " event" + PluralS(today) + " today and "
                   + NatToString(upcoming) + " upcoming event" + PluralS(upcoming)
  {
    if today == 0 && upcoming == 0 then
      if Formal(formality) then "Your calendar is clear, Sir/Madam. Would you like me to help you schedule something?"
      else "Your calendar is clear. Want to schedule something?"
    else if Formal(formality) then
      "You have " + NatToString(today) + " event" + PluralS(today) + " scheduled for today, Sir/Madam, with "
      + NatToString(upcoming) + " additional event" + PluralS(upcoming) + " upcoming."
    else
      "You have " + NatToString(today) + " event" + PluralS(today) + " today and "
      + NatToString(upcoming) + " upcoming event" + PluralS(upcoming)
  }

  /**
   * `getEventsSummary`: today's events and the count of upcoming ones, under the summary message.
   * The message counts the rows today's query returns, and the upcoming rows up to ten.
   */
  function EventsSummary(rows: map<string, CalendarEvent>, userId: string, now: int, preferences: Option<Fields>)
    : (r: Response)
    ensures r.status == Success && r.kind == CalendarView && r.message == None
    ensures r.raw.Some? && r.raw.value.EventsSummaryRaw?
    ensures var raw := r.raw.value;
            var today := |set id | id in rows && rows[id].userId == userId
                                   && DayStart(now) <= rows[id].startTime < DayStart(now) + Day|;
            var upcoming := |set id | id in rows && rows[id].userId == userId && rows[id].startTime >= now|;
            && raw.upcomingCount == (if upcoming < 10 then upcoming else 10)
            && r.content == SummaryContent(today, raw.upcomingCount, Formality(preferences))
            && (forall e | e in raw.todayEvents ::
                  e in rows.Values && e.userId == userId && DayStart(now) <= e.startTime < DayStart(now) + Day)
            && (forall id | id in rows && rows[id].userId == userId && DayStart(now) <= rows[id].startTime < DayStart(now) + Day ::
                  rows[id] in raw.todayEvents)
  {
    var today := TodayEvents(rows, userId, now);
    var upcoming := UpcomingCount(rows, userId, now);
    SuccessResponse(SummaryContent(|TodayIds(rows, userId, now)|, upcoming, Formality(preferences)), CalendarView,
                    Some(EventsSummaryRaw(today, upcoming)))
  }

  /** In a table whose rows carry their own id, the message's count of today's events is the number of events returned. */
  lemma SummaryCountsTodayEvents(rows: map<string, CalendarEvent>, userId: string, now: int, preferences: Option<Fields>)
    requires forall k | k in rows :: rows[k].id == k
    ensures var r := EventsSummary(rows, userId, now, preferences);
            r.content == SummaryContent(|r.raw.value.todayEvents|, r.raw.value.upcomingCount, Formality(preferences))
  {
    RowsOfIds(rows, TodayIds(rows, userId, now));
  }

  /**
   * The summary has nothing to report (no event today, none upcoming) exactly when every event
   * of the user starts before today's midnight: an event later today but before now counts as
   * today's, and any event from now on as upcoming.
   */
  lemma {:induction false} SummaryEmptyIffNothingFromToday(rows: map<string, CalendarEvent>, userId: string, now: int,
                                                           preferences: Option<Fields>)
    ensures var raw := EventsSummary(rows, userId, now, preferences).raw.value;
            (raw.todayEvents == {} && raw.upcomingCount == 0)
            <==> forall id | id in rows && rows[id].userId == userId :: rows[id].startTime < DayStart(now)
  {
    var today := TodayEvents(rows, userId, now);
    if !forall id | id in rows && rows[id].userId == userId :: rows[id].startTime < DayStart(now) {
      var id :| id in rows && rows[id].userId == userId && rows[id].startTime >= DayStart(now);
      if rows[id].startTime < now {
        assert rows[id] in today;
      }
    }
  }

  // ---------------------------------------------------------------------------
  // execute

  /** The switch of `execute`: each calendar intent to its operation, any other to an error. */
  function Dispatch(rows: map<string, CalendarEvent>, command: Command, userId: string, newId: string,
                    toDate: Value -> Option<int>, preferences: Option<Fields>, hour: int, roll: bool,
                    now: int): Outcome<CalendarEvent>
  {
    match command.intent
    case Some("create_event") =>
      CreateEvent(rows, if command.parameters.Some? then command.parameters.value else map[], newId, userId, toDate,
                  preferences, hour, roll)
    case Some("list_events") => Outcome(EventsSummary(rows, userId, now, preferences), rows)
    case Some("find_slots") =>
      Outcome(FindAvailableSlots(AsWritten, rows, Param(command, "startDate"), Param(command, "endDate"), userId, toDate,
                                 preferences), rows)
    case _ => Outcome(ErrorResponse("Unknown calendar command"), rows)
  }

  /** Only `create_event` can write the event table. */
  lemma OnlyCreateWrites(rows: map<string, CalendarEvent>, command: Command, userId: string, newId: string,
                         toDate: Value -> Option<int>, preferences: Option<Fields>, hour: int, roll: bool, now: int)
    requires command.intent != Some("create_event")
    ensures Dispatch(rows, command, userId, newId, toDate, preferences, hour, roll, now).rows == rows
  {
  }

  /** `execute`: logs and starts the record, runs the operation, and records the response as COMPLETED. */
  method Execute(log: Tracker.ExecutionLog, events: Table<CalendarEvent>, id: string, command: Command,
                 userId: string, newId: string, toDate: Value -> Option<int>, preferences: Option<Fields>,
                 hour: int, roll: bool, now: int)
    returns (r: Result<Response>)
    modifies log, events
    ensures r.Ok? <==> id !in old(log.records)
    ensures r.Ok? ==> Outcome(r.value, events.rows)
                      == Dispatch(old(events.rows), command, userId, newId, toDate, preferences, hour, roll, now)
    ensures r.Ok? ==> log.records == old(log.records)[id := Tracker.CompletedRecord(id, Tracker.CALENDAR, userId, command,
                                                                                    Tracker.ResponsePayload(r.value), now)]
    ensures r.Err? ==> log.records == old(log.records) && events.rows == old(events.rows)
    ensures old(log.Valid()) ==> log.Valid()
  {
    var logged := log.LogExecution(id, Tracker.CALENDAR, userId, command.text, command.intent, command.parameters, now);
    if logged.Err? {
      return Err(logged.message);
    }
    log.StartExecution(id, now);
    var response: Response;
    match command.intent {
      case Some("create_event") =>
        response := CreateEventIn(events, if command.parameters.Some? then command.parameters.value else map[], newId,
                                  userId, toDate, preferences, hour, roll);
      case Some("list_events") =>
        response := EventsSummary(events.rows, userId, now, preferences);
      case Some("find_slots") =>
        response := FindAvailableSlotsIn(AsWritten, events, Param(command, "startDate"), Param(command, "endDate"), userId,
                                         toDate, preferences);
      case _ =>
        response := ErrorResponse("Unknown calendar command");
    }
    log.UpdateExecution(id, Tracker.COMPLETED, Some(Tracker.ResponsePayload(response)), None, now);
    Tracker.LifecycleTable(old(log.records), id,
                           Tracker.Pending(id, Tracker.CALENDAR, userId, command.text, command.intent, command.parameters, now),
                           now, Tracker.COMPLETED, Some(Tracker.ResponsePayload(response)), None, now);
    r := Ok(response);
  }
}
