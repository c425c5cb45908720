# A verified model of the Jarvis agent core

Jarvis is a personal-assistant web application. A user's typed command is classified into an
intent with slots (title, due date, recipient, url, …). It is then handed to one of several
specialist agents: tasks, calendar, email, documents, web search, and a language-model relay.
Each agent reads the user's personality dials (formality and humour), writes to the data store,
and answers with a response. Every agent call leaves an execution record (PENDING, RUNNING,
then COMPLETED or FAILED). The application also has HTTP endpoints for tasks and settings,
client-side state hooks for tasks and settings, and three form dialogs (task, event, email).

This project models that core in Dafny:

- **The shared response builders and the execution audit trail.** `Responses`, `Tracker`.
- **The data store.** `Store`: one table per entity, a map from id to row. A create under a
  used id, or an update of an absent id, throws and changes nothing.
- **The command classifier.** `Classifier`: an ordered decision list of regular expressions.
- **The slot extractor.** `Extraction`: each regular expression is modelled by its matching
  semantics (leftmost match, greedy or lazy groups, backtracking order).
- **The specialists.** `TaskAgent`, `CalendarAgent` with `FreeSlots`, `EmailAgent`,
  `DocAgent`, `WebSearchAgent`, `LlmAgent`.
- **The entry points.** `Orchestrator`, `Manager`.
- **The endpoints.** `TasksRoute`, `SettingsRoute`.
- **The hooks.** `UseTasks`, `UseSettings`.
- **The dialogs.** `TaskDialog`, `EventDialog`, `EmailDialog`.

Stateful code is modelled imperatively:

- Store tables, the execution log, the agent registry and the hook and form state are classes.
- Their methods are proved against specification functions.
- The pure parts (classification, slot extraction, response wording, form validation) are
  functions with lemmas.

Times are integers (milliseconds since the epoch). The clock, randomness, the language-model and
web-search services, fresh ids and date parsing are parameters of the model.

## Model

| member | source | states |
|---|---|---|
| Responses.SuccessResponse | src/lib/agents/BaseAgent.ts:67-82 | a success response carries the content, type, raw content and personality exactly as given, and no message |
| Responses.ErrorResponse | src/lib/agents/BaseAgent.ts:84-96 | an error response has type text and the message as content; its `message` is the detail when a non-empty one is given, the message otherwise |
| Responses.Greeting | src/lib/agents/BaseAgent.ts:116-121 | the greeting is "Good morning" exactly before 12, "Good afternoon" exactly from 12 to before 17, "Good evening" exactly from 17 |
| Responses.Level | src/lib/agents/TaskAgent.ts:61-62 | a dial differs from its fallback only when the preference record stores that non-zero number, and a stored non-zero number is always used |
| Responses.DialDefaults | src/lib/agents/TaskAgent.ts:61-62 | a missing preference record, or stored levels of 0, give formality 7 and humour 6 |
| Responses.TemplateText | src/lib/agents/CalendarAgent.ts:68 | a string parameter appears in a template literal as itself |
| Responses.WithHumour | src/lib/agents/TaskAgent.ts:69-72 | the humour remark is appended exactly when the humour dial is at least 6 and the coin flip came up; otherwise the content is unchanged |
| Tracker.Pending | src/lib/agents/BaseAgent.ts:15-24 | a logged record is PENDING and well formed, holds the command, intent and parameters given, and has no result, error, start or completion yet |
| Tracker.Started | src/lib/agents/BaseAgent.ts:55-61 | starting sets RUNNING and the start time and keeps every other field; the record stays well formed exactly when it had not completed |
| Tracker.Finished | src/lib/agents/BaseAgent.ts:39-47 | an update writes status and result, keeps the stored error unless one is given, and sets a completion time exactly for COMPLETED and FAILED, so the record is always well formed |
| Tracker.ExecutionLog.constructor | src/lib/agents/BaseAgent.ts:5 | the log starts empty and valid |
| Tracker.ExecutionLog.LogExecution | src/lib/agents/BaseAgent.ts:8-30 | the create succeeds exactly for an unused id and returns it; a failed create is rethrown and stores nothing; validity is preserved |
| Tracker.ExecutionLog.StartExecution | src/lib/agents/BaseAgent.ts:53-65 | the record is started when it exists; a failed update is swallowed and changes nothing |
| Tracker.ExecutionLog.UpdateExecution | src/lib/agents/BaseAgent.ts:32-51 | the record gets the finishing write when it exists; a failed update is swallowed; the table stays valid |
| Tracker.ExecutionLog.WithErrorHandling | src/lib/agents/BaseAgent.ts:98-112 | the outcome is passed on unchanged; a thrown error also marks the record FAILED with its message when an execution id is given |
| Tracker.CompletedRecord | src/lib/agents/CommandAgent.ts:9-17 | an execute that runs to the end leaves a well-formed COMPLETED record with the command's text, intent and parameters and the agent's result |
| Tracker.LifecycleTable | src/lib/agents/CommandAgent.ts:9-17 | logging, starting and finishing a fresh id adds exactly that one record and leaves every other record unchanged |
| Tracker.LifecycleEndsWellFormed | src/lib/agents/BaseAgent.ts:32-65 | log, start, then finish with a terminal status ends well formed and keeps what was logged; starting a finished record again breaks well-formedness, because nothing guards the transitions |
| Store.ParsePriority | src/lib/agents/TaskAgent.ts:55 | exactly the names LOW, MEDIUM and HIGH are accepted as priorities |
| Store.ParseTaskStatus | src/lib/agents/TaskAgent.ts:152 | exactly the names PENDING, IN_PROGRESS, COMPLETED and CANCELLED are accepted as statuses |
| Store.TextField | src/lib/agents/TaskAgent.ts:54 | an optional text column is null when absent and stored as given when it is a string; a value of another type is rejected |
| Store.NewTask | src/lib/agents/TaskAgent.ts:49-58 | a created task is pending and not archived, with no completion time and no AI fields |
| Store.Table.constructor | src/lib/agents/TaskAgent.ts:49 | a table starts empty |
| Store.Table.Create | src/lib/agents/TaskAgent.ts:49-58 | a create succeeds exactly for an unused id and adds that one row; otherwise nothing changes |
| Store.Table.Update | src/lib/agents/TaskAgent.ts:149-155 | an update succeeds exactly for an existing id and replaces that one row; otherwise nothing changes |
| Classifier.FirstIntent | src/lib/agents/CommandAgent.ts:117-128 | no intent exactly when no pattern of any group matches; otherwise the intent of a matching group with no matching group before it |
| Classifier.FirstIntentAt | src/lib/agents/CommandAgent.ts:120-128 | the first group with a match decides, whatever the later groups would match |
| Classifier.DetectIntent | src/lib/agents/CommandAgent.ts:117-128 | the nested loops with their two breaks compute the first matching intent of the decision list they are given (the classifier gives its own table) |
| Classifier.Normalize | src/lib/agents/CommandAgent.ts:29 | the text the patterns see is trimmed, no longer than the command, and holds no ASCII capital |
| Classifier.Processed | src/lib/agents/CommandAgent.ts:27-138 | the processed command keeps the original text, takes the first intent matching the lower-cased trimmed text, and the slots extracted from the original text for that intent |
| Classifier.ProcessUserCommand | src/lib/agents/CommandAgent.ts:27-138 | the method returns the processed command |
| Classifier.NoMatchNoParameters | src/lib/agents/CommandAgent.ts:140-143 | a text no pattern matches has no intent and an empty parameter record |
| Classifier.FindSlotsShadowed | src/lib/agents/CommandAgent.ts:61-73 | `schedule.*time` never selects find_slots, because the earlier bare `schedule` pattern of list_events matches every such text |
| Classifier.FirstIntentNoLaterThan | src/lib/agents/CommandAgent.ts:117-128 | when a group's pattern matches, some intent is chosen, and it is that group's or an earlier group's |
| Classifier.ScheduleMatchesListEvents | src/lib/agents/CommandAgent.ts:61-73 | every text `schedule.*time` matches is also matched by list_events' bare `schedule` pattern |
| Classifier.EarlierIntents | src/lib/agents/CommandAgent.ts:30-73 | the five groups before find_slots carry create_task, list_tasks, update_task, create_event and list_events |
| Classifier.IntentLabel | src/lib/agents/CommandAgent.ts:20 | the reply names the intent, or "general" when there is none |
| Classifier.CommandReply | src/lib/agents/CommandAgent.ts:19-23 | the reply is a text success naming the intent and carrying the processed command |
| Classifier.Execute | src/lib/agents/CommandAgent.ts:8-25 | execute succeeds exactly when the log write succeeds; it then replies with the processed command and leaves exactly one completed record; a failed log writes nothing |
| Extraction.Leftmost | src/lib/agents/CommandAgent.ts:148 | a search returns the capture at the leftmost position where the pattern matches, and nothing when no position matches |
| Extraction.LeftmostIs | src/lib/agents/CommandAgent.ts:148 | the capture returned is the one at the first matching position |
| Extraction.LazyGroup | src/lib/agents/CommandAgent.ts:148 | the lazy group `(.+?)` takes at least one character and stops at the first position followed by a stop word or the end; it takes no line terminator |
| Extraction.LazySlot | src/lib/agents/CommandAgent.ts:148-151 | a lazy slot exists exactly when the pattern matches, and is the trimmed capture of the leftmost match |
| Extraction.LazySlotNeedsLead | src/lib/agents/CommandAgent.ts:148 | a lazy slot needs its lead phrase to occur in the text |
| Extraction.LazySlotOnOneLine | src/lib/agents/CommandAgent.ts:148-151 | on one line, the slot is the text after the first lead phrase and its `[:\s]` run, up to the first stop word or the end, trimmed |
| Extraction.TailAt | src/lib/agents/CommandAgent.ts:154 | a greedy `word\s+([class]+)` capture is a maximal non-empty run of class characters after the word |
| Extraction.TailMatch | src/lib/agents/CommandAgent.ts:154 | the leftmost greedy-tail match: the capture at the first position where one of the words, spaces and a run of the class occur, and none exactly when no position has one |
| Extraction.TailSlot | src/lib/agents/CommandAgent.ts:154-157 | a tail slot exists exactly when there is a leftmost match, is its trimmed capture, and holds only characters of the class |
| Extraction.DueDate | src/lib/agents/CommandAgent.ts:154-157 | the due-date slot exists exactly when `(?:due|for)\s+([^.!?]+)` matches, is the trimmed capture at the leftmost match, and holds none of `.`, `!`, `?` |
| Extraction.DateTime | src/lib/agents/CommandAgent.ts:173-176 | the date-time slot exists exactly when `(?:at|on)\s+([^.!?]+)` matches, is the trimmed capture at the leftmost match, and holds none of `.`, `!`, `?` |
| Extraction.Location | src/lib/agents/CommandAgent.ts:179-182 | the location slot exists exactly when `(?:at|in)\s+([^.!?]+)` matches, is the trimmed capture at the leftmost match, and holds none of `.`, `!`, `?` |
| Extraction.Query | src/lib/agents/CommandAgent.ts:201-204 | the query slot exists exactly when `(?:search|find|look up|research)\s+(.+)` matches, is the trimmed capture at the leftmost match, and holds no line terminator |
| Extraction.AddressAt | src/lib/agents/CommandAgent.ts:187 | a captured address is a local part, '@', a domain, '.', and two or more letters |
| Extraction.AddressMatch | src/lib/agents/CommandAgent.ts:187 | the leftmost recipient match: the address after the first "to" or "for" followed by one, and none exactly when no position has one |
| Extraction.Recipient | src/lib/agents/CommandAgent.ts:187-190 | the recipient slot exists exactly when the address pattern matches, is the untrimmed capture at the leftmost match, and has the address shape |
| Extraction.UrlAt | src/lib/agents/CommandAgent.ts:209 | a url capture starts with `https://` or `http://` in any case, has no space, and ends at a space or the end |
| Extraction.Url | src/lib/agents/CommandAgent.ts:209-212 | the url slot exists exactly when a url matches, and is the untrimmed capture of the leftmost match |
| Extraction.UrlShape | src/lib/agents/CommandAgent.ts:209-212 | the url slot starts with a scheme at the first position where a url begins, and contains no space |
| Extraction.PriorityWord | src/lib/agents/CommandAgent.ts:160-162 | HIGH exactly when the lower-cased text contains "high"; LOW exactly when it contains "low" but not "high"; MEDIUM otherwise |
| Extraction.With | src/lib/agents/CommandAgent.ts:149-151 | a slot is added under its key exactly when it was found |
| Extraction.Slots | src/lib/agents/CommandAgent.ts:140-217 | the switch of extractParameters, slot by slot per intent; ExtractParameters, NoExtractionCase, TaskSlots and ScrapeSlots state what it yields |
| Extraction.ExtractParameters | src/lib/agents/CommandAgent.ts:140-217 | the method fills the record slot by slot and returns the slots of the intent |
| Extraction.NoExtractionCase | src/lib/agents/CommandAgent.ts:143-214 | without an intent, or for an intent with no extraction case, the record is empty |
| Extraction.TaskSlots | src/lib/agents/CommandAgent.ts:146-163 | a new task always gets a priority, HIGH when the text mentions "high"; title and due date are present exactly when found |
| Extraction.ScrapeSlots | src/lib/agents/CommandAgent.ts:207-213 | a scrape command's record holds the url slot and nothing else, present exactly when a url occurs |
| TaskAgent.PriorityField | src/lib/agents/TaskAgent.ts:43 | the priority is MEDIUM when absent; a given priority must name one of the three priorities |
| TaskAgent.TaskRow | src/lib/agents/TaskAgent.ts:49-58 | the created row carries the title, description, priority (MEDIUM by default) and due date (null unless given); a mistyped field makes the store reject it |
| TaskAgent.AddedContent | src/lib/agents/TaskAgent.ts:64-72 | the confirmation is formal from formality 7 and plain otherwise, followed by the remark exactly when the humour dial is at least 6 and the coin flip came up |
| TaskAgent.AddedResponse | src/lib/agents/TaskAgent.ts:74-83 | the success of addTask: the confirmation, type task_list, the task as raw content and the fixed personality block; AddTaskWritesOnlyOnSuccess states when it is returned |
| TaskAgent.AddTask | src/lib/agents/TaskAgent.ts:41-88 | addTask as a function of the task table; AddTaskWritesOnlyOnSuccess states its replies and writes |
| TaskAgent.AddTaskWritesOnlyOnSuccess | src/lib/agents/TaskAgent.ts:41-88 | addTask writes exactly one new row, and only on success; without a title nothing is written and the title error is returned |
| TaskAgent.AddTaskTo | src/lib/agents/TaskAgent.ts:41-88 | the method's response and table are those of the addTask specification |
| TaskAgent.UserTasks | src/lib/agents/TaskAgent.ts:92-99 | the listed tasks are exactly the user's tasks |
| TaskAgent.StatusCountsPartition | src/lib/agents/TaskAgent.ts:111-116 | the four status counts add up to the number of tasks |
| TaskAgent.TaskListContent | src/lib/agents/TaskAgent.ts:104-118 | no tasks get the formal or casual empty message; otherwise a formal user gets the per-status counts and others the plain count |
| TaskAgent.GetTasks | src/lib/agents/TaskAgent.ts:90-129 | getTasks replies with the user's tasks as raw content under the summary for the formality dial |
| TaskAgent.StatusContent | src/lib/agents/TaskAgent.ts:161-174 | the formal confirmation prints the status lower-cased; a remark follows exactly when humour is at least 6, the coin came up and the status is COMPLETED or IN_PROGRESS, the completion remark for COMPLETED and the in-progress remark for IN_PROGRESS |
| TaskAgent.WithStatus | src/lib/agents/TaskAgent.ts:149-155 | the new status is written, and the completion time is set exactly for COMPLETED; nothing else changes |
| TaskAgent.UpdateTaskStatus | src/lib/agents/TaskAgent.ts:131-190 | updateTaskStatus as a function of the task table; UpdateChecksInOrder states its checks, replies and writes |
| TaskAgent.UpdateChecksInOrder | src/lib/agents/TaskAgent.ts:131-190 | the checks (both arguments given, task exists, task owned) come in order, each with its own error and no write; only a successful update writes, and only the one task |
| TaskAgent.UpdateTaskStatusIn | src/lib/agents/TaskAgent.ts:131-190 | the method's response and table are those of the updateTaskStatus specification |
| Responses.Param | src/lib/agents/TaskAgent.ts:27-28 | a parameter is present exactly when the command has parameters holding the key, and is then the value stored under that key (every agent reads its slots this way) |
| TaskAgent.UnknownIntentWritesNothing | src/lib/agents/TaskAgent.ts:32-33 | an unknown intent is answered with "Unknown task command" and changes no task |
| TaskAgent.Execute | src/lib/agents/TaskAgent.ts:9-39 | execute succeeds exactly when the log write succeeds, runs the operation the intent names and records its response as COMPLETED, even an error response; a failed log writes nothing |
| CalendarAgent.FetchedAsWritten | src/lib/agents/CalendarAgent.ts:104-121 | the query as written: every fetched event is the user's (only events starting or ending inside the range are fetched) |
| CalendarAgent.SpanningEventMissed | src/lib/agents/CalendarAgent.ts:104-121 | the query step of the counterexample: with the query as written, an event from just before to just after a one-day range is not fetched, so the slot generator sees no event and keeps all eight slots, each overlapping it |
| CalendarAgent.Fetched | src/lib/agents/CalendarAgent.ts:104-123 | the events the slots are tested against (corrected query) all belong to the user |
| CalendarAgent.ReturnedSlotsAreFree | src/lib/agents/CalendarAgent.ts:97-152 | with the corrected query, no returned slot overlaps any event of the user |
| CalendarAgent.EventsFor | src/lib/agents/CalendarAgent.ts:104-123 | the events of either query belong to the user |
| CalendarAgent.SlotsContent | src/lib/agents/CalendarAgent.ts:131-141 | no slots gets the formal or casual full-schedule message; otherwise the count with a plural "s" exactly when it is not one, formal from formality 7 |
| CalendarAgent.SlotsMessage | src/lib/agents/CalendarAgent.ts:131-141 | the message set and then overwritten step by step is the slots message |
| CalendarAgent.FindAvailableSlots | src/lib/agents/CalendarAgent.ts:97-152 | both dates must be given or the dates error is returned; success exactly when both are given and valid, with the free slots of the events the chosen query fetches (the query as written when `Execute` runs it) and those events as raw content |
| CalendarAgent.FindAvailableSlotsIn | src/lib/agents/CalendarAgent.ts:97-152 | the method, which runs the slot loops, returns the findAvailableSlots specification's response for the same query |
| CalendarAgent.SpanningEventReportedFree | src/lib/agents/CalendarAgent.ts:104-152 | the same counterexample lifted to the whole operation (its proof calls SpanningEventMissed): findAvailableSlots as written succeeds with eight slots for a one-day range, each overlapping an event that spans the day |
| CalendarAgent.CorrectedSlotsAreFree | src/lib/agents/CalendarAgent.ts:97-152 | with the corrected query, a successful search returns only slots that no event of the user overlaps |
| CalendarAgent.EventRow | src/lib/agents/CalendarAgent.ts:49-60 | the created event carries the title, description, times, location and attendees (only when given); a mistyped field or invalid date makes the store reject it |
| CalendarAgent.ScheduledContent | src/lib/agents/CalendarAgent.ts:66-79 | the confirmation is formal from formality 7, gets " at" and the location when one is given, and the remark exactly when the humour dial is at least 6 and the coin flip came up |
| CalendarAgent.CreateEvent | src/lib/agents/CalendarAgent.ts:41-95 | createEvent as a function of the event table; CreateEventWritesOnlyOnSuccess states its replies and writes |
| CalendarAgent.CreateEventWritesOnlyOnSuccess | src/lib/agents/CalendarAgent.ts:41-95 | the required-fields error is returned exactly when title, start or end is missing; an error writes nothing; a success writes exactly the one new event, under its own id and owned by the user |
| CalendarAgent.ScheduledMessage | src/lib/agents/CalendarAgent.ts:66-79 | the message built step by step is the scheduled-event confirmation |
| CalendarAgent.ScheduledResponse | src/lib/agents/CalendarAgent.ts:81-90 | the success of createEvent: the scheduled confirmation, type calendar_view, the event as raw content and the fixed personality block |
| CalendarAgent.CreatedOutcome | src/lib/agents/CalendarAgent.ts:49-90 | a valid row under a fresh id gives the calendar-view success with the event and the fixed personality block, and adds the event |
| CalendarAgent.CreateEventIn | src/lib/agents/CalendarAgent.ts:41-95 | the method's response and table are those of the createEvent specification |
| CalendarAgent.TodayIds | src/lib/agents/CalendarAgent.ts:156-169 | the rows of today's query; EventsSummary states their count |
| CalendarAgent.UpcomingIds | src/lib/agents/CalendarAgent.ts:171-180 | the rows of the upcoming query before `take: 10`; UpcomingCount states what is counted |
| CalendarAgent.TodayEvents | src/lib/agents/CalendarAgent.ts:156-169 | an event is returned exactly when it is a stored event of the user starting within the current day: every such event, and nothing else |
| CalendarAgent.UpcomingCount | src/lib/agents/CalendarAgent.ts:171-180 | the count is the number of the user's stored events starting from now on, capped at ten (`take: 10`); it is zero exactly when every event of the user started before now |
| CalendarAgent.RowsOfIds | src/lib/agents/CalendarAgent.ts:160-169 | in a table whose rows carry their own id, a set of ids and the set of its rows have the same size, so a count of rows is a count of returned events |
| CalendarAgent.SummaryContent | src/lib/agents/CalendarAgent.ts:185-195 | the clear-calendar message exactly when both counts are zero; otherwise both counts with their plurals, formal from formality 7 |
| CalendarAgent.EventsSummary | src/lib/agents/CalendarAgent.ts:154-201 | a calendar_view success. Its message counts the user's stored events starting today and those starting from now on, capped at ten, exactly as the two queries return them. The raw content holds exactly today's events and that upcoming count |
| CalendarAgent.SummaryCountsTodayEvents | src/lib/agents/CalendarAgent.ts:160-188 | in a table whose rows carry their own id (as every created event does), the message's count of today's events is the number of events in the raw content |
| CalendarAgent.SummaryEmptyIffNothingFromToday | src/lib/agents/CalendarAgent.ts:156-195 | the summary has no event today and none upcoming exactly when every event of the user starts before today's midnight |
| CalendarAgent.Dispatch | src/lib/agents/CalendarAgent.ts:18-34 | the switch of execute: create_event, list_events and find_slots (with the query as written) to their operations, any other intent to "Unknown calendar command"; OnlyCreateWrites states that only create_event writes |
| CalendarAgent.OnlyCreateWrites | src/lib/agents/CalendarAgent.ts:18-34 | only create_event can change the event table |
| CalendarAgent.Execute | src/lib/agents/CalendarAgent.ts:9-39 | execute succeeds exactly when the log write succeeds, runs the operation the intent names and records its response as COMPLETED; a failed log writes nothing |
| FreeSlots.DayStart | src/lib/agents/CalendarAgent.ts:220-221 | midnight of a time's day is a whole number of days and at most a day before it |
| FreeSlots.DayStartShift | src/lib/agents/CalendarAgent.ts:218 | advancing a date by one day advances its midnight by one day |
| FreeSlots.Candidate | src/lib/agents/CalendarAgent.ts:220-223 | a candidate slot starts on the hour and lasts one hour |
| FreeSlots.GenerateAvailableSlots | src/lib/agents/CalendarAgent.ts:208-244 | the nested loops return the free one-hour slots from 9:00 to 17:00 of every day from the start date while the date has not passed the end |
| FreeSlots.AppendDaySlots | src/lib/agents/CalendarAgent.ts:219-240 | the inner loop appends the free slots of one day, hours 9 to 16, in order |
| FreeSlots.DaySlots | src/lib/agents/CalendarAgent.ts:219-240 | the free hourly candidates of one day from 9:00 to 16:00; DaySlotsMembers, DaySlotsChronological and DaySlotsCount state its contents |
| FreeSlots.DaySlotsMembers | src/lib/agents/CalendarAgent.ts:219-240 | a day's slots are free of the events, one hour long, and lie between 9:00 and 17:00 |
| FreeSlots.DaySlotsChronological | src/lib/agents/CalendarAgent.ts:219-240 | a day's slots come in increasing start order |
| FreeSlots.DaySlotsCount | src/lib/agents/CalendarAgent.ts:219 | a day gives at most eight slots, and exactly eight without events |
| FreeSlots.SlotsFrom | src/lib/agents/CalendarAgent.ts:208-244 | the free candidates of every visited day; SlotsFromBounds, SlotsFromChronological, SlotsFromWithinDay and SlotsFromCount state its contents |
| FreeSlots.SlotsFromBounds | src/lib/agents/CalendarAgent.ts:208-244 | every returned slot is free of the events, lasts one hour, and lies between 9:00 on the start day and 17:00 on the end day |
| FreeSlots.SlotsFromChronological | src/lib/agents/CalendarAgent.ts:208-244 | the returned slots come in increasing start order |
| FreeSlots.SlotsFromWithinDay | src/lib/agents/CalendarAgent.ts:217-223 | every returned slot lies between 9:00 and 17:00 of its own day |
| FreeSlots.SlotsFromCount | src/lib/agents/CalendarAgent.ts:218-219 | at most eight slots per visited day, and exactly eight per day without events |
| FreeSlots.Overlaps | src/lib/agents/CalendarAgent.ts:226-231 | the half-open overlap test of a slot with an event; KeptIffFree states that it is the only filter |
| FreeSlots.KeptIffFree | src/lib/agents/CalendarAgent.ts:225-239 | a candidate of a visited day is returned exactly when no event overlaps it: the overlap test is the only filter |
| EmailAgent.AddressList | src/lib/agents/EmailAgent.ts:51 | an array of recipients is stored as it is; a single value becomes a one-element list |
| EmailAgent.OptionalList | src/lib/agents/EmailAgent.ts:52-53 | cc and bcc are stored exactly when given, as address lists |
| EmailAgent.EmailRow | src/lib/agents/EmailAgent.ts:45-56 | the created email is a DRAFT with the subject, body and recipient lists; a subject or body that is not text makes the store reject it |
| EmailAgent.DraftContent | src/lib/agents/EmailAgent.ts:62-70 | the confirmation is formal from formality 7, and gets the remark exactly when the humour dial is at least 6 and the coin flip came up |
| EmailAgent.DraftEmail | src/lib/agents/EmailAgent.ts:37-86 | draftEmail as a function of the email table; DraftWritesOnlyOnSuccess states its replies and writes |
| EmailAgent.DraftWritesOnlyOnSuccess | src/lib/agents/EmailAgent.ts:37-86 | a missing subject, body or recipients is refused first and writes nothing; a success writes exactly one new DRAFT with the given recipient list or the single recipient wrapped in a list |
| EmailAgent.DraftMessage | src/lib/agents/EmailAgent.ts:62-70 | the message built step by step is the draft confirmation |
| EmailAgent.DraftEmailTo | src/lib/agents/EmailAgent.ts:37-86 | the method's response and table are those of the draftEmail specification |
| EmailAgent.SentContent | src/lib/agents/EmailAgent.ts:119-127 | the confirmation is formal from formality 7, and gets the remark exactly when the humour dial is at least 6 and the coin flip came up |
| EmailAgent.SendEmail | src/lib/agents/EmailAgent.ts:88-143 | sendEmail as a function of the email table; SendChecksInOrder and ResendSucceeds state its checks, replies and writes |
| EmailAgent.SendChecksInOrder | src/lib/agents/EmailAgent.ts:88-143 | the checks (id given, email exists, email owned) come in order, each error exactly when the earlier checks pass and it fails; only a success writes, and it changes only that email's status, to SENT |
| EmailAgent.ResendSucceeds | src/lib/agents/EmailAgent.ts:106-113 | no status check guards the send: sending an already-sent email succeeds again and changes nothing |
| EmailAgent.SendEmailIn | src/lib/agents/EmailAgent.ts:88-143 | the method's response and table are those of the sendEmail specification |
| EmailAgent.CountStatus | src/lib/agents/EmailAgent.ts:154-156 | a status count is at most the number of emails |
| EmailAgent.InboxPartition | src/lib/agents/EmailAgent.ts:154-156 | the draft, sent and failed counts add up to the number of emails |
| EmailAgent.InboxContent | src/lib/agents/EmailAgent.ts:161-179 | an empty inbox gets the formal or casual empty message; otherwise the formal or casual summary of the three counts |
| EmailAgent.FailedClauseOnlyWhenFailed | src/lib/agents/EmailAgent.ts:163-172 | the failed clause of either summary appears exactly when some email failed |
| EmailAgent.SummarizeInbox | src/lib/agents/EmailAgent.ts:145-190 | the message, built step by step as the source builds it, is the inbox message; the reply carries the emails and the three status counts |
| EmailAgent.OnlyDraftAndSendWrite | src/lib/agents/EmailAgent.ts:18-30 | only drafting and sending change the email table; an unknown intent gets "Unknown email command" |
| EmailAgent.Execute | src/lib/agents/EmailAgent.ts:9-35 | execute succeeds exactly when the log write succeeds, runs the operation the intent names and records its response as COMPLETED; a failed log writes nothing |
| DocAgent.Segments | src/lib/agents/DocAgent.ts:144 | splitting on the terminators `.`, `!`, `?` gives at least one piece, none of which holds a terminator |
| DocAgent.SegmentsCount | src/lib/agents/DocAgent.ts:144 | there is one more piece than there are terminators |
| DocAgent.SegmentsConcat | src/lib/agents/DocAgent.ts:144 | the pieces laid end to end give back the text without its terminators: splitting loses nothing else |
| DocAgent.SegmentsOfPlain | src/lib/agents/DocAgent.ts:144 | a text without terminators is a single piece |
| DocAgent.SegmentsAt | src/lib/agents/DocAgent.ts:144 | splitting at the first terminator gives the text before it, then the pieces of the rest |
| DocAgent.NonBlank | src/lib/agents/DocAgent.ts:144 | the blank filter never lengthens the list |
| DocAgent.NonBlankKeeps | src/lib/agents/DocAgent.ts:144 | a piece survives the filter exactly when it is in the list and not blank |
| DocAgent.WordCount | src/lib/agents/DocAgent.ts:145 | the word count of any text is at least one |
| DocAgent.SpaceRunsOfWord | src/lib/agents/DocAgent.ts:145 | a leading word adds no run of spaces |
| DocAgent.WordCountOfJoin | src/lib/agents/DocAgent.ts:145 | words joined by single spaces count as exactly that many words |
| DocAgent.SimpleSummary | src/lib/agents/DocAgent.ts:142-157 | content of at most three sentences is returned unchanged; longer content becomes its first, middle and last sentences, trimmed, then the word-count note |
| DocAgent.TrimmedPlain | src/lib/agents/DocAgent.ts:152-154 | trimming keeps a piece free of terminators |
| DocAgent.SpacedPlain | src/lib/agents/DocAgent.ts:152-154 | a leading space keeps a piece free of terminators |
| DocAgent.NotePlain | src/lib/agents/DocAgent.ts:156 | the closing word-count note holds no terminator |
| DocAgent.FourPieces | src/lib/agents/DocAgent.ts:152-156 | three terminator-free pieces closed by full stops, then a fourth, split back into exactly those four |
| DocAgent.Sentences | src/lib/agents/DocAgent.ts:144 | every sentence is free of `.`, `!` and `?` and not blank |
| DocAgent.SentencesPlain | src/lib/agents/DocAgent.ts:144 | every sentence, once trimmed, is free of terminators |
| DocAgent.SummaryResplits | src/lib/agents/DocAgent.ts:142-157 | a condensed summary splits back into its three chosen sentences and the note: it is exactly four sentences |
| DocAgent.ReportContent | src/lib/agents/DocAgent.ts:59-67 | the confirmation is formal from formality 7, and gets the remark exactly when the humour dial is at least 6 and the coin flip came up |
| DocAgent.CreateReport | src/lib/agents/DocAgent.ts:39-83 | createReport as a function of the document table; CreateReportWritesOnlyOnSuccess states its replies and writes |
| DocAgent.CreateReportWritesOnlyOnSuccess | src/lib/agents/DocAgent.ts:39-83 | a missing title or content is refused first; the report succeeds exactly when both are text and the id is free, and then writes exactly one REPORT with that title and content; an error writes nothing |
| DocAgent.ReportMessage | src/lib/agents/DocAgent.ts:59-67 | the message built step by step is the report confirmation |
| DocAgent.CreateReportIn | src/lib/agents/DocAgent.ts:39-83 | the method's response and table are those of the createReport specification |
| DocAgent.SummarizedContent | src/lib/agents/DocAgent.ts:116-124 | the confirmation is formal from formality 7, and gets the remark exactly when the humour dial is at least 6 and the coin flip came up |
| DocAgent.SummarizeDoc | src/lib/agents/DocAgent.ts:85-140 | summarizeDocument as a function of the document table; SummarizeChecksInOrder states its checks, replies and writes |
| DocAgent.SummarizeChecksInOrder | src/lib/agents/DocAgent.ts:85-140 | a missing id, an unknown document and another user's document each give their own error, in that order, and write nothing; otherwise only that document's summary changes, to the simple summary of its content, which the response carries |
| DocAgent.SummarizedMessage | src/lib/agents/DocAgent.ts:116-124 | the message built step by step is the summary confirmation |
| DocAgent.SummarizeDocIn | src/lib/agents/DocAgent.ts:85-140 | the method's response and table are those of the summarizeDoc specification |
| DocAgent.CreationIntentsAgree | src/lib/agents/DocAgent.ts:18-32 | create_document and create_report do the same thing; any other unknown intent gets "Unknown document command" and writes nothing |
| DocAgent.Execute | src/lib/agents/DocAgent.ts:9-37 | execute succeeds exactly when the log write succeeds, runs the operation the intent names and records its response as COMPLETED; a failed log writes nothing |
| WebSearchAgent.Snippet | src/lib/agents/WebSearchAgent.ts:64 | the snippet is a prefix of the text of at most 200 characters, then "..."; a text of at most 200 characters is kept whole |
| SimulatedPage.ScrapedText | src/lib/agents/WebSearchAgent.ts:215-218 | the simulated page text names the url |
| WebSearchAgent.SummaryPrompt | src/lib/agents/WebSearchAgent.ts:225 | the prompt is the fixed request followed by at most 2000 characters of the content and "..."; short content is sent whole |
| WebSearchAgent.LlmSummary | src/lib/agents/WebSearchAgent.ts:242-246 | the summary is never empty: the reply text when there is one, "Summary generation failed" for an empty reply, "Failed to generate summary" when the service throws |
| WebSearchAgent.Urls | src/lib/agents/WebSearchAgent.ts:181 | one url per hit, in the order of the hits |
| WebSearchAgent.FoundEntries | src/lib/agents/WebSearchAgent.ts:180 | the stored results are every hit, in order |
| WebSearchAgent.UrlsAppend | src/lib/agents/WebSearchAgent.ts:181 | mapping hits to urls distributes over concatenation |
| WebSearchAgent.SearchContent | src/lib/agents/WebSearchAgent.ts:189-197 | the message names the query and the count, with "result" singular exactly for one result; formal from formality 7; the remark is added exactly when the humour dial is at least 6 and the coin flip came up |
| WebSearchAgent.EmptyQueryIsRefusedFirst | src/lib/agents/WebSearchAgent.ts:162-164 | a missing query is refused with "Search query is required" whatever the search service would answer, and nothing is written |
| WebSearchAgent.PerformSearch | src/lib/agents/WebSearchAgent.ts:160-213 | performSearch as a function of the search table; SearchWritesOnlyOnSuccess and SearchAddsAtMostOne state its replies and writes |
| WebSearchAgent.SearchWritesOnlyOnSuccess | src/lib/agents/WebSearchAgent.ts:160-213 | a search succeeds exactly when the query is given text, the search service answers and the id is free; then exactly one record is added, holding the query, the user, every hit and their urls in order; an error writes nothing |
| WebSearchAgent.SearchMessage | src/lib/agents/WebSearchAgent.ts:189-197 | the message built step by step is the search message |
| WebSearchAgent.PerformSearchIn | src/lib/agents/WebSearchAgent.ts:160-213 | the method's response and table are those of the performSearch specification |
| WebSearchAgent.ScrapeContent | src/lib/agents/WebSearchAgent.ts:75-83 | the confirmation is formal from formality 7, and gets the remark exactly when the humour dial is at least 6 and the coin flip came up |
| WebSearchAgent.ScrapeUrl | src/lib/agents/WebSearchAgent.ts:38-99 | scrapeUrl as a function of the search table; ScrapeChecksInOrder and ScrapeAddsAtMostOne state its replies and writes |
| WebSearchAgent.ScrapeRecord | src/lib/agents/WebSearchAgent.ts:56-69 | the saved record has the fresh id, the user, the url as its only url, and one result holding the page text and its snippet |
| WebSearchAgent.ScrapeChecksInOrder | src/lib/agents/WebSearchAgent.ts:38-99 | a missing url, then a url the parser rejects, each get their own error and write nothing; on success exactly one record is added, naming the url and storing the page text with its snippet |
| WebSearchAgent.ScrapeMessage | src/lib/agents/WebSearchAgent.ts:75-83 | the message built step by step is the scrape confirmation |
| WebSearchAgent.ScrapeUrlIn | src/lib/agents/WebSearchAgent.ts:38-99 | the method's response and table are those of the scrapeUrl specification |
| WebSearchAgent.PageSummaryContent | src/lib/agents/WebSearchAgent.ts:134-142 | the confirmation is formal from formality 7, and gets the remark exactly when the humour dial is at least 6 and the coin flip came up |
| WebSearchAgent.SummarizeWebPage | src/lib/agents/WebSearchAgent.ts:101-158 | summarizeWebPage as a function of the search table; PageSummaryToleratesLlmFailure and PageSummaryAddsAtMostOne state its replies and writes |
| WebSearchAgent.PageSummary | src/lib/agents/WebSearchAgent.ts:107-111 | the summary is the completion's reply to the prompt built from the simulated page text; LlmSummary states its fallback |
| WebSearchAgent.PageSummaryRecord | src/lib/agents/WebSearchAgent.ts:114-127 | the saved record has the fresh id, the user, the url as its only url, the summary, and one result holding the summary and its snippet |
| WebSearchAgent.PageSummaryToleratesLlmFailure | src/lib/agents/WebSearchAgent.ts:101-158 | summarising a page succeeds exactly when the url is given and the id is free, whatever the completion service does; success adds one record naming the url with a non-empty summary; an error writes nothing |
| WebSearchAgent.PageSummaryMessage | src/lib/agents/WebSearchAgent.ts:134-142 | the message built step by step is the page-summary confirmation |
| WebSearchAgent.SummaryWithLlm | src/lib/agents/WebSearchAgent.ts:220-247 | the method's summary is the fallback-protected reply to the truncated prompt |
| WebSearchAgent.SummarizeWebPageIn | src/lib/agents/WebSearchAgent.ts:101-158 | the method's response and table are those of the summarizeWebPage specification |
| WebSearchAgent.DispatchWritesAtMostOne | src/lib/agents/WebSearchAgent.ts:19-31 | an unknown intent gets "Unknown web search command" and writes nothing; a success adds exactly the one new record; an error writes nothing |
| WebSearchAgent.SearchAddsAtMostOne | src/lib/agents/WebSearchAgent.ts:160-213 | a successful search adds exactly one record, under the fresh id, which was unused; a failed one writes nothing |
| WebSearchAgent.ScrapeAddsAtMostOne | src/lib/agents/WebSearchAgent.ts:38-99 | a successful scrape adds exactly one record, under the fresh id, which was unused; a failed one writes nothing |
| WebSearchAgent.PageSummaryAddsAtMostOne | src/lib/agents/WebSearchAgent.ts:101-158 | a successful page summary adds exactly one record, under the fresh id, which was unused; a failed one writes nothing |
| WebSearchAgent.DispatchIn | src/lib/agents/WebSearchAgent.ts:19-31 | the switch over the intent on the table gives the response and table of the dispatch specification |
| WebSearchAgent.Execute | src/lib/agents/WebSearchAgent.ts:10-36 | execute succeeds exactly when the log write succeeds, runs the operation the intent names and records its response as COMPLETED; a failed log writes nothing |
| LlmAgent.FindUnique | src/lib/agents/LLMApiAgent.ts:121-128 | the lookup on (user, service) finds a record exactly when one is stored for that pair, and what it finds is that stored record |
| LlmAgent.SaveUserApiKey | src/lib/agents/LLMApiAgent.ts:76-117 | saveUserApiKey as a function of the key table; SaveIsUpsert and UpsertKeepsOthers state its result and writes |
| LlmAgent.SaveIsUpsert | src/lib/agents/LLMApiAgent.ts:76-117 | saving keeps the (user, service) index unique; it reports false, writing nothing, only when a new record is needed and its id is taken; after success the pair's record is active with the new ciphertext, at most one record was added, and every other pair's record is unchanged |
| LlmAgent.UpsertKeepsOthers | src/lib/agents/LLMApiAgent.ts:76-117 | writing one pair's record under its own id leaves the lookup of every other (user, service) pair unchanged |
| LlmAgent.GetUserApiKey | src/lib/agents/LLMApiAgent.ts:119-140 | a key is returned exactly when the service name is text, the pair has a record, it is active and its ciphertext decrypts; the key is that decryption |
| LlmAgent.SavedKeyIsFound | src/lib/agents/LLMApiAgent.ts:76-140 | a key just saved is found again and decrypts to the decryption of the saved ciphertext |
| LlmAgent.Vault.constructor | src/lib/agents/LLMApiAgent.ts:82-89 | a new vault is empty and its index unique |
| LlmAgent.Vault.SaveUserApiKeyIn | src/lib/agents/LLMApiAgent.ts:76-117 | the method's result and vault are those of the saveUserApiKey specification, and the index stays unique |
| LlmAgent.CallLlmApi | src/lib/agents/LLMApiAgent.ts:35-74 | every failure is rethrown behind the fixed prefix; a success is a non-empty reply and needs a usable key |
| LlmAgent.NoKeyNoCall | src/lib/agents/LLMApiAgent.ts:38-42 | without a usable key the call fails the same way whatever the completion service would answer |
| LlmAgent.ReplyPassesThrough | src/lib/agents/LLMApiAgent.ts:48-69 | with a usable key the call succeeds exactly when the service replies with non-empty text, and returns that text |
| LlmAgent.PromptOf | src/lib/agents/LLMApiAgent.ts:17 | the prompt is present exactly when the parameters hold it |
| LlmAgent.ServiceOf | src/lib/agents/LLMApiAgent.ts:17 | the service name is the parameter when present and 'default' otherwise |
| LlmAgent.Run | src/lib/agents/LLMApiAgent.ts:10-33 | what execute returns once logged: the prompt error, the rethrown failure of the call, or the reply as a text success; MissingPromptLeavesRecordRunning relates it to the record left behind |
| LlmAgent.MissingPromptLeavesRecordRunning | src/lib/agents/LLMApiAgent.ts:10-33 | the record stays RUNNING, with no completion time, exactly when no prompt was given (the error response is returned before any update); otherwise it ends well formed, FAILED exactly when the call threw and COMPLETED exactly when it succeeded |
| LlmAgent.Execute | src/lib/agents/LLMApiAgent.ts:10-33 | a used id fails with nothing written; otherwise the result is that of the run and the log holds the record the run leaves |
| LlmAgent.FinalRecord | src/lib/agents/LLMApiAgent.ts:13-33 | the record execute leaves after starting it; MissingPromptLeavesRecordRunning states its status in each case |
| LlmAgent.Finish | src/lib/agents/LLMApiAgent.ts:16-33 | after the start, the prompt check, the call and the update or failure mark give the run's result and leave exactly the final record |
| Manager.AllKindsComplete | src/lib/agents/AgentManager.ts:19-29 | every agent kind is among the eight the manager registers |
| Manager.Apology | src/lib/agents/AgentManager.ts:52-59 | a boundary's error response is of type text, carries the apology as content and the error text as message, and nothing else |
| Manager.Boundary | src/lib/agents/AgentManager.ts:31-61 | a boundary passes the delegate's response on unchanged and turns a thrown error into its apology |
| Manager.AgentManager.constructor | src/lib/agents/AgentManager.ts:15-17 | a new manager has an agent of every kind |
| Manager.AgentManager.InitializeAgents | src/lib/agents/AgentManager.ts:19-29 | registering adds all eight kinds to the registry |
| Manager.AgentManager.GetAgent | src/lib/agents/AgentManager.ts:105-107 | an agent is returned exactly when its kind is registered, and it is the agent of that kind |
| Manager.AgentManager.ProcessUserCommand | src/lib/agents/AgentManager.ts:31-61 | a missing classifier or orchestrator, or a failed log write, becomes the processing apology with nothing logged; otherwise the reply is the orchestrator's response to the classified command, and the only record logged is the orchestrator's, COMPLETED |
| Manager.AgentManager.Classify | src/lib/agents/AgentManager.ts:39-60 | a used log id gives the processing apology with nothing logged; otherwise the orchestrator's response to the classified text, with one COMPLETED record |
| Manager.AgentManager.Delegate | src/lib/agents/AgentManager.ts:47-60 | a used log id gives the processing apology with nothing logged; otherwise the orchestrator's response to the command, with one COMPLETED record |
| Manager.AgentManager.ExecuteTask | src/lib/agents/AgentManager.ts:63-82 | a missing orchestrator or a failed log write becomes the task apology with nothing logged; otherwise the reply is the orchestrator's response to the task command, and the only record logged is the orchestrator's, COMPLETED, for the task command |
| Manager.AgentManager.RunResearchWorkflow | src/lib/agents/AgentManager.ts:84-103 | a missing orchestrator or a failed log write becomes the research apology with nothing logged; otherwise the reply is the orchestrator's general response, and the only record logged is the orchestrator's, COMPLETED, for the research command |
| Manager.AgentManager.SaveApiKey | src/lib/agents/AgentManager.ts:109-121 | without the LLM agent the save reports false and writes nothing; otherwise it is the vault's upsert; the vault's index stays unique |
| Manager.BuiltManagerIsComplete | src/lib/agents/AgentManager.ts:12-29 | a freshly built manager returns the agent of every kind |
| Orchestrator.Route | src/lib/agents/OrchestratorAgent.ts:66-92 | each of the 13 routed intents goes to its group, in both directions: a group is chosen exactly for its listed intents |
| Orchestrator.Acknowledgment | src/lib/agents/OrchestratorAgent.ts:125 | the acknowledgment is the formal wording exactly when formality is at least 7, and the casual one otherwise |
| Orchestrator.HumourThreshold | src/lib/agents/OrchestratorAgent.ts:135 | the remark needs humour at least 7 for tasks, emails and web search, and at least 6 for calendar and documents |
| Orchestrator.GroupResponse | src/lib/agents/OrchestratorAgent.ts:124-202 | a group's template succeeds with the group's type, passes the command's parameters through as raw content, opens with the acknowledgment, and carries the remark exactly when humour reaches the group's threshold |
| Orchestrator.Salutation | src/lib/agents/OrchestratorAgent.ts:97 | the user is "Sir/Madam" exactly when formality is at least 7, and "there" otherwise |
| Orchestrator.GeneralResponse | src/lib/agents/OrchestratorAgent.ts:95-122 | the general greeting is a text success without raw content, opening with the greeting for the hour and the salutation; its personality block carries a humour line exactly when the humour dial is at least 6 |
| Orchestrator.Respond | src/lib/agents/OrchestratorAgent.ts:15-29 | the response execute computes from the intent and the dials; RespondShape states when it is the general greeting and what a routed intent gets |
| Orchestrator.ResponseFor | src/lib/agents/OrchestratorAgent.ts:21-29 | the branch on the intent gives the response the routing specification computes |
| Orchestrator.RespondShape | src/lib/agents/OrchestratorAgent.ts:23-29 | the response is the general greeting exactly when the intent is not routed (an absent or empty intent included); a routed intent gets its group's type and its parameters passed through |
| Orchestrator.ParametersOnlyPassThrough | src/lib/agents/OrchestratorAgent.ts:56-93 | two commands with the same intent get responses that differ only in raw content |
| Orchestrator.FormalIffSeven | src/lib/agents/OrchestratorAgent.ts:124-202 | every group acknowledges formally exactly when formality is at least 7 |
| Orchestrator.TaskCommand | src/lib/agents/OrchestratorAgent.ts:37-41 | the task command carries the intent and the parameters, with the text "Execute task: " and the intent |
| Orchestrator.ResearchCommand | src/lib/agents/OrchestratorAgent.ts:47-51 | the research command has intent research, the query as its only parameter, and the text "Research: " and the query |
| Orchestrator.ResearchGetsGeneral | src/lib/agents/OrchestratorAgent.ts:46-54 | the research intent is not routed, so the research workflow always gets the general greeting |
| Orchestrator.Execute | src/lib/agents/OrchestratorAgent.ts:9-34 | execute succeeds exactly when the log write succeeds; the response is the one computed from the preference dials and is recorded as COMPLETED; a failed log write is rethrown and writes nothing |
| Orchestrator.ExecuteTask | src/lib/agents/OrchestratorAgent.ts:36-44 | executeTask is execute on the task command |
| Orchestrator.RunResearchWorkflow | src/lib/agents/OrchestratorAgent.ts:46-54 | the research workflow is execute on the research command, whose response is the general greeting |
| SettingsRoute.PreferencesAfter | src/app/api/settings/route.ts:53-63 | without posted preferences nothing changes. Otherwise the upsert fails exactly when the store refuses the written fields, the posted userId is not a string, or it names another user's record. On success only the user's record changes: the posted fields are written over it and its other fields kept, or it is created with the user id; a posted userId re-files it |
| SettingsRoute.ClashingOwnerRefused | src/app/api/settings/route.ts:55-62 | a posted userId naming another user's record makes the upsert fail, on update and on create |
| SettingsRoute.SaveKey | src/app/api/settings/route.ts:67-88 | a successful key write never removes a stored key; it fails when the id names no record, the fresh id is taken, or another record holds the owner's (userId, serviceName) pair |
| SettingsRoute.SaveKeyKeepsIndex | src/app/api/settings/route.ts:67-88 | a successful key write keeps every record under its own id and the (userId, serviceName) pair unique |
| SettingsRoute.SecondKeyForServiceRefused | src/app/api/settings/route.ts:78-88 | a key posted without an id for a service the user already has a record for is refused, as the unique index makes the create throw |
| SettingsRoute.SaveKeys | src/app/api/settings/route.ts:66-89 | the posted keys written in order, stopping at the first failure; FailureStops, NothingIsDeleted and SaveKeysKeepIndex state what it keeps |
| SettingsRoute.SaveKeysKeepIndex | src/app/api/settings/route.ts:66-89 | however far the keys get, the table stays consistent with its unique (userId, serviceName) index |
| SettingsRoute.SaveKeyKeeps | src/app/api/settings/route.ts:67-88 | a successful key write keeps every stored key and its owner, leaves every key it does not name unchanged, and a key it creates belongs to the posting user |
| SettingsRoute.FailureStops | src/app/api/settings/route.ts:66-95 | once a key write has failed, the later keys change nothing |
| SettingsRoute.NothingIsDeleted | src/app/api/settings/route.ts:66-90 | every stored key is still stored after the POST; a key no posted entry names is unchanged; every key the POST created belongs to the posting user |
| SettingsRoute.PostedIdRewritesAnyOwner | src/app/api/settings/route.ts:68-77 | a posted id is all it takes to rewrite a key: the write succeeds exactly when the owner holds no other record for the posted service, and then the key keeps its owner, even another user, and takes the posted service, ciphertext and flag |
| SettingsRoute.RemovedKeyStays | src/app/api/settings/route.ts:66-90 | a key removed from the posted list on the settings screen stays stored exactly as it was |
| SettingsRoute.SettingsStore.Get | src/app/api/settings/route.ts:4-39 | without a user id the reply is 400 with its error; otherwise 200 with the user's preference record exactly when there is one, and exactly the user's keys |
| SettingsRoute.SettingsStore.Post | src/app/api/settings/route.ts:41-102 | without a user id the reply is 400 and nothing is written. A refused preference upsert gives 500 and writes nothing. Otherwise the preferences are upserted and the posted keys written in order; a failing key write gives 500 and keeps every earlier write; a unique key index stays unique |
| SettingsRoute.SettingsStore.UpsertPreferences | src/app/api/settings/route.ts:53-63 | succeeds exactly when the upsert specification does, and then the preferences table is its result; on failure nothing changes; the key table is untouched |
| SettingsRoute.SettingsStore.SaveOne | src/app/api/settings/route.ts:67-88 | one posted key succeeds exactly when the key-write specification does and leaves its table, otherwise nothing changes; the preferences are untouched and a unique key index stays unique |
| SettingsRoute.SettingsStore.SaveAll | src/app/api/settings/route.ts:66-90 | the loop over the posted keys ends with the success flag and key table of the sequential-write specification; the preferences are untouched, and a unique key index stays unique |
| TasksRoute.DigitOf | src/app/api/tasks/route.ts:150 | a decimal digit has its decimal value, and no character is worth more than 36 |
| TasksRoute.LeadingDigits | src/app/api/tasks/route.ts:150 | the run is the longest prefix of digits of the radix: every character in it is a digit and the next one is not |
| TasksRoute.DecimalValue | src/app/api/tasks/route.ts:150 | in radix 10 a run of digits has its decimal value |
| TasksRoute.UnsignedDigits | src/app/api/tasks/route.ts:150 | a run of decimal digits is read whole, in decimal |
| TasksRoute.TrimStartKeeps | src/app/api/tasks/route.ts:150 | only leading space is skipped: a text starting with a digit or a sign is kept whole |
| TasksRoute.ParseUnsigned | src/app/api/tasks/route.ts:150 | the digits parseInt reads: a "0x" or "0X" prefix selects hexadecimal, the longest run of digits of the radix, nothing without one; UnsignedDigits states that a decimal run is read whole |
| TasksRoute.ParseSigned | src/app/api/tasks/route.ts:150 | an optional sign before the digits, a minus negating them; ParseNegativeDigits states the negative case |
| TasksRoute.ParseInt | src/app/api/tasks/route.ts:150 | parseInt without a radix: leading space skipped, then the signed digits; ParseDigits, ParseIntOfDecimal and ParseIntOfNoDigits state its results |
| TasksRoute.ParseDigits | src/app/api/tasks/route.ts:150 | a run of decimal digits parses to its value |
| TasksRoute.ParseNegativeDigits | src/app/api/tasks/route.ts:150 | a minus sign followed by decimal digits parses to the negated value |
| TasksRoute.ParseIntOfDecimal | src/app/api/tasks/route.ts:150 | the decimal notation of a natural number parses back to it |
| TasksRoute.ParseIntOfNoDigits | src/app/api/tasks/route.ts:150 | the empty text and "NaN" parse to NaN |
| TasksRoute.PriorityField | src/app/api/tasks/route.ts:55-76 | an absent priority is MEDIUM; a given one must name a priority the store knows, and is that priority |
| TasksRoute.TimeField | src/app/api/tasks/route.ts:77-79 | an absent or falsy time is null; a given one is stored exactly when it is a valid date, as that date |
| TasksRoute.IntField | src/app/api/tasks/route.ts:78 | an absent estimate is null; a given one is stored exactly when it is a number |
| TasksRoute.TaskRow | src/app/api/tasks/route.ts:70-82 | the stored row, when the store accepts it, is the new task built from the body's fields, each as its column reads it |
| TasksRoute.PositiveOrNull | src/app/api/tasks/route.ts:161 | the estimate is kept exactly when it is a positive number |
| TasksRoute.Estimate | src/app/api/tasks/route.ts:150-161 | a stored estimate is always positive, and an empty or missing reply stores none |
| TasksRoute.Post | src/app/api/tasks/route.ts:49-190 | POST as a function of the task table; PostValidatesAndDefaults, AugmentationAllOrNothing and UnknownParentRefused state its replies and writes |
| TasksRoute.PostValidatesAndDefaults | src/app/api/tasks/route.ts:49-82 | 500 exactly when the store rejects the row, the id is taken or the parent names no stored task; 400 exactly when userId or title is missing; only a 201 writes, exactly the new PENDING, unarchived task under a fresh id, which the reply carries, with priority MEDIUM when none was sent, no due date or reminder unless sent, and the parent as given |
| TasksRoute.UnknownParentRefused | src/app/api/tasks/route.ts:70-82 | a parentId naming no stored task violates the self-relation's foreign key: no 201, and nothing is written |
| TasksRoute.Augment | src/app/api/tasks/route.ts:84-182 | the three completions of the enhancement, abandoned as a whole when any fails; AugmentationAllOrNothing states what the stored task then holds |
| TasksRoute.AugmentationAllOrNothing | src/app/api/tasks/route.ts:84-182 | a subtask is returned as created whatever the completion service does; a top-level task has all three AI fields from the completions, or, when any completion fails, none of them; a stored estimate is positive |
| TasksRoute.EstimateOfNumber | src/app/api/tasks/route.ts:150-161 | the reply "42" stores 42 |
| TasksRoute.EstimateOfZero | src/app/api/tasks/route.ts:150-161 | the reply "0" stores nothing |
| TasksRoute.EstimateOfNegative | src/app/api/tasks/route.ts:150-161 | a negative reply (a minus sign and digits, such as "-5") stores no estimate |
| TasksRoute.Completions | src/app/api/tasks/route.ts:86-164 | the three completions made in turn give the augmentation, or nothing at the first failure |
| TasksRoute.PostIn | src/app/api/tasks/route.ts:49-190 | the method's reply and table are those of the POST specification |
| TasksRoute.List | src/app/api/tasks/route.ts:7-47 | GET as a function of the task table; ListedIffShown states which tasks are listed and with which subtasks |
| TasksRoute.ListedIffShown | src/app/api/tasks/route.ts:7-47 | with a user id the reply is 200; a stored task is listed exactly when it is the user's, top-level, and unarchived unless includeArchived is exactly "true", and it is listed with all its subtasks |
| TasksRoute.ArchivedOnlyAdds | src/app/api/tasks/route.ts:11-20 | asking for archived tasks only adds tasks to the listing |
| Common.FailureMessage | src/hooks/use-tasks.ts:71-78 | the stored error is the thrown message when the request threw, and the operation's own failure text when the reply was not ok |
| UseTasks.Replaced | src/hooks/use-tasks.ts:156-162 | replacing keeps the length; every task with the id becomes the server's task and every other task stays in place |
| UseTasks.Without | src/hooks/use-tasks.ts:184-185 | a task is kept exactly when it is in the list and has another id; the list never grows |
| UseTasks.WithoutAppend | src/hooks/use-tasks.ts:184-185 | filtering keeps the order: filtering a concatenation filters each part |
| UseTasks.AbsentIdChangesNothing | src/hooks/use-tasks.ts:156-185 | when no task has the id, filtering and replacing both leave the list as it was |
| UseTasks.ReplacedTwice | src/hooks/use-tasks.ts:156-162 | a second update of the same id overrides the first |
| UseTasks.ArchiveRoundTrip | src/hooks/use-tasks.ts:216-251 | after archiving no active task has the id; unarchiving the server's copy again leaves the archived list as it was before |
| UseTasks.TaskState.constructor | src/hooks/use-tasks.ts:60-63 | both lists start empty, not loading, with no error |
| UseTasks.TaskState.FetchTasks | src/hooks/use-tasks.ts:65-82 | a reply replaces the active list with the listing, or the empty list when it has none, and clears the error; a failure is recorded, not thrown, and keeps the list; loading ends either way |
| UseTasks.TaskState.FetchArchivedTasks | src/hooks/use-tasks.ts:84-101 | the same for the archived list, leaving the active list alone |
| UseTasks.TaskState.Mount | src/hooks/use-tasks.ts:320-325 | with an empty user id nothing changes; otherwise both lists are fetched and each reply replaces its list |
| UseTasks.TaskState.AddTask | src/hooks/use-tasks.ts:103-131 | a reply puts the created task at the front of the active list; a failure is recorded and rethrown and keeps both lists |
| UseTasks.TaskState.UpdateTask | src/hooks/use-tasks.ts:133-169 | a reply replaces every task with the id, in both lists, by the server's task; a failure is recorded and rethrown and keeps both lists |
| UseTasks.TaskState.DeleteTask | src/hooks/use-tasks.ts:171-192 | a reply removes every task with the id from both lists; a failure is recorded and rethrown and keeps both lists |
| UseTasks.TaskState.ArchiveTask | src/hooks/use-tasks.ts:194-225 | a reply removes the task from the active list and puts the server's copy at the front of the archived list; a failure keeps both lists |
| UseTasks.TaskState.UnarchiveTask | src/hooks/use-tasks.ts:227-258 | a reply removes the task from the archived list and puts the server's copy at the front of the active list; a failure keeps both lists |
| UseTasks.TaskState.GenerateThenRefetch | src/hooks/use-tasks.ts:260-318 | no local edit: after a successful request the active list is refetched, whose own failure is only recorded; a failed request is recorded and rethrown and keeps the list |
| UseTasks.TaskState.CreateSubtasks | src/hooks/use-tasks.ts:260-288 | a successful request throws nothing and refetches the active list: a successful refetch replaces the list (an empty one when the reply has none) and clears the error, a failed one records the fetch failure and keeps the list; a failed request stores and rethrows its failure and keeps the active list; the archived list is untouched and loading ends false |
| UseTasks.TaskState.CreateFollowups | src/hooks/use-tasks.ts:290-318 | a successful request throws nothing and refetches the active list: a successful refetch replaces the list (an empty one when the reply has none) and clears the error, a failed one records the fetch failure and keeps the list; a failed request stores and rethrows its failure and keeps the active list; the archived list is untouched and loading ends false |
| UseSettings.FindKey | src/hooks/use-settings.ts:88 | the position is that of the first key for the service, or -1 when no key is for it |
| UseSettings.UpsertKey | src/hooks/use-settings.ts:86-110 | the list updateApiKey saves; UpsertKeyCases and UpsertKeyIsFoundAndIdempotent state how it changes |
| UseSettings.UpsertKeyCases | src/hooks/use-settings.ts:86-110 | with a key for the service, only the first such key changes, taking the new ciphertext and flag and keeping its id and owner; without one, exactly one new key with no id is appended |
| UseSettings.UpsertKeyIsFoundAndIdempotent | src/hooks/use-settings.ts:86-110 | after an upsert the service's first key holds the new ciphertext and flag, and a second identical upsert changes nothing |
| UseSettings.RemoveKey | src/hooks/use-settings.ts:117 | a key is kept exactly when it is in the list and is for another service |
| UseSettings.RemoveKeyAppend | src/hooks/use-settings.ts:117 | removal keeps the order of the remaining keys |
| UseSettings.RemoveUndoesUpsert | src/hooks/use-settings.ts:86-120 | removing a service after upserting it gives the same list as removing it from the original |
| UseSettings.MergePreferences | src/hooks/use-settings.ts:123-127 | the merged record has every key of either record, the update's value winning and the current value kept otherwise |
| UseSettings.MergeIdempotent | src/hooks/use-settings.ts:123-127 | merging the same updates a second time changes nothing |
| UseSettings.SettingsState.constructor | src/hooks/use-settings.ts:33-35 | the hook starts with nothing fetched, loading, and no error |
| UseSettings.SettingsState.FetchSettings | src/hooks/use-settings.ts:37-55 | a reply replaces the settings and clears the error; a failure is recorded, not thrown, and keeps the settings; loading ends either way |
| UseSettings.SettingsState.Mount | src/hooks/use-settings.ts:132-136 | with an empty user id nothing changes; otherwise the settings are fetched |
| UseSettings.SettingsState.SaveSettings | src/hooks/use-settings.ts:57-84 | the settings change only through the refetch that follows a successful post; a failure of either is recorded and not thrown |
| UseSettings.SettingsState.UpdateApiKey | src/hooks/use-settings.ts:86-113 | the posted list is the current keys with the service's key upserted; the settings change only through a successful refetch |
| UseSettings.SettingsState.RemoveApiKey | src/hooks/use-settings.ts:115-120 | the posted list is the current keys without the service's; the settings change only through a successful refetch |
| UseSettings.SettingsState.UpdatePreferences | src/hooks/use-settings.ts:122-130 | the posted preferences are the current ones merged with the updates; the settings change only through a successful refetch |
| TaskDialog.DigitRunOf | src/components/TaskDialog.tsx:106-113 | the leading digit run of a number's digits followed by a non-digit is exactly those digits |
| TaskDialog.ReadMinutes | src/components/TaskDialog.tsx:107-109 | a duration under an hour is labelled with its minutes and " min", and reads back to itself |
| TaskDialog.ReadHours | src/components/TaskDialog.tsx:110-112 | a whole number of hours is labelled "Hh" and reads back to itself |
| TaskDialog.ReadHoursAndMinutes | src/components/TaskDialog.tsx:110-112 | hours with remaining minutes are labelled "Hh Mm" and read back to themselves |
| TaskDialog.FormatTime | src/components/TaskDialog.tsx:106-113 | formatTime: "m min" under an hour, otherwise "Hh" with " Mm" only when minutes remain; FormatTimeReadsBack states that the label reads back to the minutes |
| TaskDialog.FormatTimeReadsBack | src/components/TaskDialog.tsx:106-113 | every non-negative duration reads back from its label, so different durations get different labels |
| TaskDialog.FormatTimeExamples | src/components/TaskDialog.tsx:106-113 | 45 minutes is "45 min", 120 is "2h" and 90 is "1h 30m" |
| TaskDialog.Prefill | src/components/TaskDialog.tsx:58-84 | a new form is empty with priority MEDIUM and status PENDING; an edited task's title, priority and status are shown |
| TaskDialog.Submit | src/components/TaskDialog.tsx:86-104 | nothing is saved exactly when the title is blank; otherwise the title is trimmed and non-empty, the description is trimmed or dropped exactly when blank, and the other fields are passed on unchanged |
| TaskDialog.NewFormSavesNothing | src/components/TaskDialog.tsx:58-91 | an untouched new form saves nothing |
| TaskDialog.PrefillRoundTrip | src/components/TaskDialog.tsx:72-101 | opening a task with trimmed, non-empty texts and submitting it unchanged saves the task's own fields |
| EventDialog.TrimAll | src/components/EventDialog.tsx:88 | every piece is trimmed, in place |
| EventDialog.NonEmpty | src/components/EventDialog.tsx:89 | a piece is kept exactly when it is in the list and not empty |
| EventDialog.ParseAttendees | src/components/EventDialog.tsx:86-89 | every parsed address is non-empty and trimmed |
| EventDialog.ParsedAttendees | src/components/EventDialog.tsx:86-89 | an address is listed exactly when it is the trimming of some non-blank piece between commas |
| EventDialog.Padded | src/components/EventDialog.tsx:69 | every entry is put behind one space |
| EventDialog.SplitJoined | src/components/EventDialog.tsx:69-87 | splitting a list joined with ", " on ',' gives the first entry and the others behind their space |
| EventDialog.NonEmptyKeepsAll | src/components/EventDialog.tsx:89 | a list of non-empty entries passes the filter unchanged |
| EventDialog.AttendeesRoundTrip | src/components/EventDialog.tsx:69-89 | joining trimmed, comma-free, non-empty addresses with ", " and parsing them back gives the list |
| EventDialog.Prefill | src/components/EventDialog.tsx:61-72 | a new form is empty; an edited event's attendees are shown joined with ", " |
| EventDialog.TrimmedOrNone | src/components/EventDialog.tsx:93-96 | a text is dropped exactly when it is blank, and otherwise kept trimmed and non-empty |
| EventDialog.Submit | src/components/EventDialog.tsx:74-101 | nothing happens exactly when the title is blank or a time is missing; the alert comes exactly when the end is not after the start; otherwise the save has the times in order, the trimmed title and texts, and the parsed attendees, dropped exactly when there are none |
| EventDialog.PrefillRoundTrip | src/components/EventDialog.tsx:61-98 | opening an event with trimmed texts and comma-free attendees that ends after it starts, and submitting it unchanged, saves the event's own fields |
| EmailDialog.IndexOf | src/components/EmailDialog.tsx:95 | the position is that of the first occurrence of the character, or -1 when it does not occur |
| EmailDialog.ValidAddressHasShape | src/components/EmailDialog.tsx:95 | an address passing the scan has the pattern's shape: a plain part, '@', a plain part, '.', a plain part |
| EmailDialog.ShapeIsValidAddress | src/components/EmailDialog.tsx:95 | every address of the pattern's shape passes the scan |
| EmailDialog.ValidAddressIffPattern | src/components/EmailDialog.tsx:95 | the scan accepts exactly the addresses the pattern matches |
| EmailDialog.RemoveAll | src/components/EmailDialog.tsx:106 | an address is kept exactly when it is in the list and is another address |
| EmailDialog.RemoveUndoesAdd | src/components/EmailDialog.tsx:94-108 | removing an address after adding it leaves the list as removing it from the original would |
| EmailDialog.NonEmptyOrNone | src/components/EmailDialog.tsx:79-80 | a list is dropped exactly when it is empty, and otherwise passed on whole |
| EmailDialog.EmailForm.constructor | src/components/EmailDialog.tsx:44-54 | the dialog starts with every text and list empty |
| EmailDialog.EmailForm.Open | src/components/EmailDialog.tsx:56-66 | opening shows the email's texts and lists (absent lists as empty), or an empty form; the input lines are kept |
| EmailDialog.EmailForm.AddRecipient | src/components/EmailDialog.tsx:94-101 | a non-empty valid address is appended to the chosen list, duplicates included; an invalid one changes nothing; the other lists, the inputs and the texts never change |
| EmailDialog.EmailForm.RemoveRecipient | src/components/EmailDialog.tsx:103-108 | every occurrence of the address leaves the chosen list, and only that list |
| EmailDialog.EmailForm.HandleKeyPress | src/components/EmailDialog.tsx:110-116 | Enter or ',' tries to add the field's input line and always clears it; any other key changes nothing |
| EmailDialog.EmailForm.ClearInput | src/components/EmailDialog.tsx:114 | the field's input line becomes empty; the other input lines, the lists, the subject and the body are unchanged |
| EmailDialog.EmailForm.Submission | src/components/EmailDialog.tsx:68-85 | nothing is saved exactly when the subject or body is blank or there is no recipient; otherwise the trimmed texts, the recipients, cc and bcc only when non-empty, and the email's status or DRAFT |
| EmailDialog.OpenedEmailRoundTrip | src/components/EmailDialog.tsx:56-82 | opening an email with trimmed, non-empty texts and a recipient and submitting it unchanged saves its own fields, an empty cc or bcc becoming absent |
| EmailDialog.AddThenRemove | src/components/EmailDialog.tsx:94-108 | adding an address and then removing it leaves the list as a removal alone would |
| Strings.Trim | src/lib/agents/CommandAgent.ts:29 | the trimmed text is a trimmed piece of the text, no longer than it, and empty exactly when the text is all space |
| Strings.TrimOfTrimmed | src/components/TaskDialog.tsx:94 | trimming a trimmed text changes nothing |
| Strings.TrimAround | src/components/EventDialog.tsx:88 | trimming removes exactly the space around a trimmed, non-empty text |
| Strings.ToLower | src/lib/agents/CommandAgent.ts:29 | the ASCII part of lower-casing: position by position, each capital A-Z becomes its small letter and every other character stays |
| Strings.Prefix | src/lib/agents/WebSearchAgent.ts:64 | the first n characters, or the whole text when it is shorter |
| Strings.PluralS | src/lib/agents/WebSearchAgent.ts:189 | the plural suffix is empty exactly for a count of one, and "s" otherwise |
| Strings.NatToStringRoundTrip | src/components/TaskDialog.tsx:108-112 | the decimal notation of a number reads back to the number |
| Strings.NatToStringInjective | src/components/TaskDialog.tsx:108-112 | different numbers have different decimal notations |
| Strings.Split | src/components/EventDialog.tsx:87 | splitting on a character gives at least one piece, none holding that character |
| Strings.SplitJoinRoundTrip | src/components/EventDialog.tsx:69-87 | joining pieces free of the separator and splitting on it gives the pieces back |

## Left out

- Clock, randomness and identifiers are inputs: the hour of the day, the `Math.random() < 0.3` humour coin (`roll`), the index of the general greeting's remark (`phrase`), the current instant (`now`) and every fresh uuid (`newId`).
- Times are integer milliseconds since the epoch in one fixed zone. `setHours`, time zones and daylight-saving shifts are not modelled, and `new Date(…)` parsing and `toISOString` are an input (`parseDate`, `toDate`).
- The completion service, the web search service, WHATWG URL parsing (`new URL`) and the API-key cipher are inputs (`complete`, `search`, `parses`, `decrypt`). Prisma's validation of the posted preference record (unknown columns, mistyped values, a user id with no user) is an input too (`accepted`). The completion requests' system prompts, temperatures and token limits are not modelled. The cipher as written draws a fresh random key on each call, so no stored key could ever be decrypted; the model leaves that to the `decrypt` input.
- `JSON.stringify` of parameters, results, attendees, recipients and urls is not modelled: the stored values are the structured values themselves.
- Store reads are modelled by their result: the user's preference record and the inbox (the user's newest 20 emails) arrive already fetched. The calendar queries are computed from the event table instead. The sort orders of `findMany` (`orderBy`) are not modelled, so listings are sets where the source returns ordered arrays.
- Failures of store reads, of `request.json()` on a malformed body, and of the console logging are not modelled; the 500 replies of the two GET endpoints are therefore not reachable in the model.
- The specialist agent files use `db` without importing it (only BaseAgent.ts does). The model assumes the store is reachable from every agent.
- Only string user ids are modelled in the settings POST; a non-string truthy id is not.
- Client requests are modelled as threw / not ok / replied. A thrown value that is not an `Error` (whose message would be 'Unknown error' or 'An error occurred') is not modelled.
- The two hooks' fetches on mount run concurrently in the source. The model applies the two replies one after the other, so interleavings of the `loading` flag are not captured.
- UseTasks.TaskState.Mount: states the lists the replies give but not the error flag, which depends on the order in which the two concurrent fetches finish.
- TasksRoute.ParseIntOfDecimal: covers non-negative decimal text only; negative text is covered by ParseNegativeDigits, and hexadecimal text by the parser itself without a separate lemma.
- TasksRoute.Estimate: integers are unbounded, so an estimate beyond the store's 32-bit integer column (which would throw and fall back to the unaugmented task) is stored as given; `parseInt` results too large for a double are not modelled either.
- CalendarAgent.EventsSummary: keeps only the number of upcoming events (at most ten), not the events themselves; the count itself is stated exactly. The source returns the ten earliest by start time, and which of several events with the same start time are taken is not determined by the query.
- Strings.Prefix: counts characters (Unicode scalar values), where JavaScript's `substring(0, n)` counts UTF-16 code units. For text outside the Basic Multilingual Plane the source cuts the snippet (200) and the prompt excerpt (2000) at a different point, and may split a surrogate pair; the model cannot represent a split pair. The same holds for every length the model takes of a string.
- Strings.ToLower: folds only the ASCII capitals A-Z. `toLowerCase` also folds the other Unicode capitals, and for some of them ('İ' becomes two code units) changes the length; commands holding such letters may therefore classify differently, and the model does not capture that.
- SettingsRoute.PostedIdRewritesAnyOwner: does not promise that a posted id always rewrites its record. The store's unique (userId, serviceName) index refuses the write when the owner already holds another record for the posted service, and the lemma states exactly that condition.
- `handleSend` of the email dialog, the dialogs' rendering, the research and settings dialogs, and the events, emails and search endpoints and hooks are not part of this model.

## Findings

| source | as written | input that shows it | evidently intended | confidence | as-written member | corrected member |
|---|---|---|---|---|---|---|
| src/lib/agents/CalendarAgent.ts:104-121 | only events whose start or end lies within [startDate, endDate] are fetched before the free slots are computed | a one-day range with start = end = midnight of day 0, and an event from one millisecond before that midnight to one millisecond after the next: it is not fetched, and all eight slots are reported free although the event overlaps each of them | every event overlapping the slot window (9:00 of the start day to 17:00 of the end day) is fetched, so no returned slot overlaps any of the user's events; `Execute` runs the query as written, and `FindAvailableSlots` with `Corrected` runs this one | not executed | CalendarAgent.SpanningEventReportedFree | CalendarAgent.CorrectedSlotsAreFree |
