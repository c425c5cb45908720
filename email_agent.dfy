/**
 * The email specialist of src/lib/agents/EmailAgent.ts: drafting an email from the extracted
 * parameters, marking a draft as sent after checking, in order, the id, the email's existence
 * and its owner, and summarising the newest emails of the inbox by status.
 */
module EmailAgent {
  import opened Common
  import opened Strings
  import opened Store
  import opened Responses
  import Tracker

  // ---------------------------------------------------------------------------
  // draftEmail

  /**
   * A recipient list column: an array is stored as it is, a single value is wrapped in a
   * one-element list (a number or a flag is stored as its text).
   */
  function AddressList(v: Value): (r: seq<string>)
    ensures v.Strs? ==> r == v.items
    ensures v.Str? ==> r == [v.s]
    ensures !v.Strs? ==> |r| == 1
  {
    match v
    case Strs(items) => items
    case Str(s) => [s]
    case Num(n) => [IntToString(n)]
    case Flag(b) => [if b then "true" else "false"]
  }

  /** The cc or bcc column: null unless the field is given (truthy), the list column otherwise. */
  function OptionalList(data: Fields, key: string): (r: Option<seq<string>>)
    ensures r.Some? <==> Given(data, key)
    ensures r.Some? ==> r.value == AddressList(data[key])
  {
    if Given(data, key) then Some(AddressList(data[key])) else None
  }

  /**
   * The row `draftEmail` asks the store to create, once subject, body and recipients are known
   * to be given: always a DRAFT; a subject or body that is not text makes the store reject it.
   */
  function EmailRow(data: Fields, id: string, userId: string): (r: Result<Email>)
    requires Given(data, "subject") && Given(data, "body") && Given(data, "recipients")
    ensures r.Ok? <==> data["subject"].Str? && data["body"].Str?
    ensures r.Ok? ==> r.value == Email(id, userId, data["subject"].s, data["body"].s, AddressList(data["recipients"]),
                                       OptionalList(data, "cc"), OptionalList(data, "bcc"), DRAFT)
  {
    if !data["subject"].Str? || !data["body"].Str? then Err(StoreFailure)
    else Ok(Email(id, userId, data["subject"].s, data["body"].s, AddressList(data["recipients"]),
                  OptionalList(data, "cc"), OptionalList(data, "bcc"), DRAFT))
  }

  const DraftRemark := " Email composition is an art form, and I'm your digital wordsmith!"

  const MissingFields := "Email subject, body, and recipients are required"
  const DraftFailure := "Failed to draft email"

  /** The confirmation for a new draft: formal from formality 7 upwards, with the optional remark. */
  function DraftContent(subject: string, formality: int, humour: int, roll: bool): (c: string)
    ensures var base := if Formal(formality)
                        then "I've taken the liberty of drafting the email \"" + subject + "\" for you, Sir/Madam."
                        else "Email draft \"" + subject + "\" has been created successfully";
            && (c == base || c == base + DraftRemark)
            && (c != base <==> humour >= 6 && roll)
  {
    var base := if Formal(formality)
                then "I've taken the liberty of drafting the email \"" + subject + "\" for you, Sir/Madam."
                else "Email draft \"" + subject + "\" has been created successfully";
    WithHumour(base, humour, roll, DraftRemark)
  }

  /**
   * `draftEmail`: subject, body and recipients must all be given (truthy) before the store is
   * touched; then the draft is created under the fresh id `id`; a store failure is reported.
   */
  function DraftEmail(rows: map<string, Email>, data: Fields, id: string, userId: string,
                      preferences: Option<Fields>, hour: int, roll: bool): Outcome<Email>
  {
    if !Given(data, "subject") || !Given(data, "body") || !Given(data, "recipients") then
      Outcome(ErrorResponse(MissingFields), rows)
    else
      var row := EmailRow(data, id, userId);
      if row.Err? then Outcome(ErrorResponse(DraftFailure, Some(row.message)), rows)
      else if id in rows then Outcome(ErrorResponse(DraftFailure, Some(StoreFailure)), rows)
      else Outcome(SuccessResponse(DraftContent(row.value.subject, Formality(preferences), Humour(preferences), roll),
                                   EmailView, Some(EmailRaw(row.value)),
                                   Some(Personality(Some(SirGreeting(hour)), Some("Certainly, Sir/Madam."),
                                                    Some("Email draft created successfully."), None))),
                   rows[id := row.value])
  }

  /**
   * `draftEmail` writes one new email exactly when it succeeds and nothing otherwise; a missing
   * field is refused first; the new email is a DRAFT whose recipients are the given list, or the
   * single given recipient wrapped in a list.
   */
  lemma DraftWritesOnlyOnSuccess(rows: map<string, Email>, data: Fields, id: string, userId: string,
                                 preferences: Option<Fields>, hour: int, roll: bool)
    ensures var o := DraftEmail(rows, data, id, userId, preferences, hour, roll);
            && (o.response == ErrorResponse(MissingFields)
                <==> !Given(data, "subject") || !Given(data, "body") || !Given(data, "recipients"))
            && (o.response.status == Success <==>
                  Given(data, "subject") && Given(data, "body") && Given(data, "recipients")
                  && data["subject"].Str? && data["body"].Str? && id !in rows)
            && (o.response.status == Error ==> o.rows == rows)
            && (o.response.status == Success ==>
                  && o.rows.Keys == rows.Keys + {id}
                  && (forall k | k in rows :: o.rows[k] == rows[k])
                  && o.rows[id].status == DRAFT && o.rows[id].userId == userId
                  && (data["recipients"].Strs? ==> o.rows[id].recipients == data["recipients"].items)
                  && (data["recipients"].Str? ==> o.rows[id].recipients == [data["recipients"].s])
                  && (o.rows[id].cc.Some? <==> Given(data, "cc")))
  {
    DraftStatus(rows, data, id, userId, preferences, hour, roll);
    if Given(data, "subject") && Given(data, "body") && Given(data, "recipients")
       && data["subject"].Str? && data["body"].Str? && id !in rows {
      DraftRow(rows, data, id, userId, preferences, hour, roll);
    }
  }

  /** The three ways `draftEmail` ends: refused for a missing field, failed, or written. */
  lemma DraftStatus(rows: map<string, Email>, data: Fields, id: string, userId: string,
                    preferences: Option<Fields>, hour: int, roll: bool)
    ensures var o := DraftEmail(rows, data, id, userId, preferences, hour, roll);
            && (o.response == ErrorResponse(MissingFields)
                <==> !Given(data, "subject") || !Given(data, "body") || !Given(data, "recipients"))
            && (o.response.status == Success <==>
                  Given(data, "subject") && Given(data, "body") && Given(data, "recipients")
                  && data["subject"].Str? && data["body"].Str? && id !in rows)
            && (o.response.status == Error ==> o.rows == rows)
  {
    if Given(data, "subject") && Given(data, "body") && Given(data, "recipients") {
      var o := DraftEmail(rows, data, id, userId, preferences, hour, roll);
      assert |MissingFields| != |DraftFailure|;
      assert o.response.status == Error ==> o.response.content == DraftFailure;
    }
  }

  /** A written draft is the row built from the fields, added under the fresh id. */
  lemma DraftRow(rows: map<string, Email>, data: Fields, id: string, userId: string,
                 preferences: Option<Fields>, hour: int, roll: bool)
    requires Given(data, "subject") && Given(data, "body") && Given(data, "recipients")
    requires data["subject"].Str? && data["body"].Str? && id !in rows
    ensures var o := DraftEmail(rows, data, id, userId, preferences, hour, roll);
            var row := EmailRow(data, id, userId);
            && row.Ok? && o.rows == rows[id := row.value]
            && row.value.status == DRAFT && row.value.userId == userId
            && (data["recipients"].Strs? ==> row.value.recipients == data["recipients"].items)
            && (data["recipients"].Str? ==> row.value.recipients == [data["recipients"].s])
            && (row.value.cc.Some? <==> Given(data, "cc"))
  {
  }

  /** The confirmation built step by step as `draftEmail` does. */
  method DraftMessage(subject: string, formality: int, humour: int, roll: bool) returns (content: string)
    ensures content == DraftContent(subject, formality, humour, roll)
  {
    content := "Email draft \"" + subject + "\" has been created successfully";
    if formality >= 7 {
      content := "I've taken the liberty of drafting the email \"" + subject + "\" for you, Sir/Madam.";
    }
    ghost var base := content;
    if humour >= 6 && roll {
      content := content + DraftRemark;
    }
    assert content == WithHumour(base, humour, roll, DraftRemark);
  }

  /** The method form of `draftEmail`, against the email table. */
  method DraftEmailTo(emails: Table<Email>, data: Fields, id: string, userId: string, preferences: Option<Fields>,
                      hour: int, roll: bool) returns (response: Response)
    modifies emails
    ensures Outcome(response, emails.rows) == DraftEmail(old(emails.rows), data, id, userId, preferences, hour, roll)
  {
    if !Given(data, "subject") || !Given(data, "body") || !Given(data, "recipients") {
      return ErrorResponse(MissingFields);
    }
    var row := EmailRow(data, id, userId);
    if row.Err? {
      return ErrorResponse(DraftFailure, Some(row.message));
    }
    var created := emails.Create(id, row.value);
    if !created {
      return ErrorResponse(DraftFailure, Some(StoreFailure));
    }
    var content := DraftMessage(row.value.subject, Formality(preferences), Humour(preferences), roll);
    response := SuccessResponse(content, EmailView, Some(EmailRaw(row.value)),
                                Some(Personality(Some(SirGreeting(hour)), Some("Certainly, Sir/Madam."),
                                                 Some("Email draft created successfully."), None)));
  }

  // ---------------------------------------------------------------------------
  // sendEmail

  const SentRemark := " Message delivered! The digital pigeons have found their destination."

  /** The confirmation for a sent email: formal from formality 7 upwards, with the optional remark. */
  function SentContent(subject: string, formality: int, humour: int, roll: bool): (c: string)
    ensures var base := if Formal(formality)
                        then "I've successfully sent the email \"" + subject + "\" for you, Sir/Madam."
                        else "Email \"" + subject + "\" has been sent successfully";
            && (c == base || c == base + SentRemark)
            && (c != base <==> humour >= 6 && roll)
  {
    var base := if Formal(formality)
                then "I've successfully sent the email \"" + subject + "\" for you, Sir/Madam."
                else "Email \"" + subject + "\" has been sent successfully";
    WithHumour(base, humour, roll, SentRemark)
  }

  /**
   * `sendEmail`: checks, in order, that the id is given, that the email exists and that it
   * belongs to the user, each with its own error and no write; then marks it SENT whatever its
   * current status (a mistyped id is a store failure).
   */
  function SendEmail(rows: map<string, Email>, emailId: Option<Value>, userId: string, preferences: Option<Fields>,
                     hour: int, roll: bool): Outcome<Email>
  {
    if !GivenOpt(emailId) then Outcome(ErrorResponse("Email ID is required"), rows)
    else if !emailId.value.Str? then Outcome(ErrorResponse("Failed to send email", Some(StoreFailure)), rows)
    else if emailId.value.s !in rows then Outcome(ErrorResponse("Email not found"), rows)
    else if rows[emailId.value.s].userId != userId then Outcome(ErrorResponse("Unauthorized to send this email"), rows)
    else
      var sent := rows[emailId.value.s].(status := SENT);
      Outcome(SuccessResponse(SentContent(sent.subject, Formality(preferences), Humour(preferences), roll),
                              EmailView, Some(EmailRaw(sent)),
                              Some(Personality(Some(SirGreeting(hour)), Some("With pleasure, Sir/Madam."),
                                               Some("Email sent successfully."), None))),
              rows[emailId.value.s := sent])
  }

  /**
   * The checks of `sendEmail` come in order, each error excluding the later ones; only a
   * successful send writes, and it changes only the status of that one email, to SENT.
   */
  lemma SendChecksInOrder(rows: map<string, Email>, emailId: Option<Value>, userId: string,
                          preferences: Option<Fields>, hour: int, roll: bool)
    ensures var o := SendEmail(rows, emailId, userId, preferences, hour, roll);
            && (o.response == ErrorResponse("Email ID is required") <==> !GivenOpt(emailId))
            && (o.response == ErrorResponse("Email not found") <==>
                  GivenOpt(emailId) && emailId.value.Str? && emailId.value.s !in rows)
            && (o.response == ErrorResponse("Unauthorized to send this email") <==>
                  GivenOpt(emailId) && emailId.value.Str? && emailId.value.s in rows
                  && rows[emailId.value.s].userId != userId)
            && (o.response.status == Success <==>
                  GivenOpt(emailId) && emailId.value.Str? && emailId.value.s in rows
                  && rows[emailId.value.s].userId == userId)
            && (o.response.status == Error ==> o.rows == rows)
            && (o.response.status == Success ==>
                  o.rows == rows[emailId.value.s := rows[emailId.value.s].(status := SENT)])
  {
  }

  /** No status check guards the send: sending an email that was already sent succeeds again and changes nothing. */
  lemma ResendSucceeds(rows: map<string, Email>, id: string, userId: string, preferences: Option<Fields>,
                       hour: int, roll: bool)
    requires id in rows && rows[id].userId == userId && rows[id].status == SENT && id != ""
    ensures var o := SendEmail(rows, Some(Str(id)), userId, preferences, hour, roll);
            o.response.status == Success && o.rows == rows
  {
    assert rows[id].(status := SENT) == rows[id];
  }

  /** The method form of `sendEmail`, against the email table. */
  method SendEmailIn(emails: Table<Email>, emailId: Option<Value>, userId: string, preferences: Option<Fields>,
                     hour: int, roll: bool) returns (response: Response)
    modifies emails
    ensures Outcome(response, emails.rows) == SendEmail(old(emails.rows), emailId, userId, preferences, hour, roll)
  {
    if !GivenOpt(emailId) {
      return ErrorResponse("Email ID is required");
    }
    if !emailId.value.Str? {
      return ErrorResponse("Failed to send email", Some(StoreFailure));
    }
    var id := emailId.value.s;
    if id !in emails.rows {
      return ErrorResponse("Email not found");
    }
    var email := emails.rows[id];
    if email.userId != userId {
      return ErrorResponse("Unauthorized to send this email");
    }
    var sent := email.(status := SENT);
    var ok := emails.Update(id, sent);
    var content := SentContent(sent.subject, Formality(preferences), Humour(preferences), roll);
    response := SuccessResponse(content, EmailView, Some(EmailRaw(sent)),
                                Some(Personality(Some(SirGreeting(hour)), Some("With pleasure, Sir/Madam."),
                                                 Some("Email sent successfully."), None)));
  }

  // ---------------------------------------------------------------------------
  // summarizeInbox

  /** `emails.filter(e => e.status === s).length`. */
  function CountStatus(emails: seq<Email>, s: EmailStatus): (n: nat)
    ensures n <= |emails|
  {
    if |emails| == 0 then 0
    else (if emails[0].status == s then 1 else 0) + CountStatus(emails[1..], s)
  }

  /** Every email is a draft, sent or failed: the three counts add up to the number of emails. */
  lemma {:induction false} InboxPartition(emails: seq<Email>)
    ensures CountStatus(emails, DRAFT) + CountStatus(emails, SENT) + CountStatus(emails, FAILED) == |emails|
  {
    if |emails| > 0 {
      InboxPartition(emails[1..]);
    }
  }

  const EmptyInboxFormal := "Your email inbox is empty, Sir/Madam. Would you like me to help you compose a message?"
  const EmptyInboxCasual := "No emails found. Want to draft something?"

  /** The casual summary: drafts and sent, then the failed clause when some failed. */
  function CasualSummary(drafts: nat, sent: nat, failed: nat): string
  {
    "You have " + NatToString(drafts) + " draft" + PluralS(drafts) + ", " + NatToString(sent) + " sent email"
    + PluralS(sent)
    + (if failed > 0 then ", and " + NatToString(failed) + " failed email" + PluralS(failed) else "")
  }

  /** The formal summary: drafts and sent, then the regret sentence when some failed. */
  function FormalSummary(drafts: nat, sent: nat, failed: nat): string
  {
    "Your email summary shows " + NatToString(drafts) + " draft" + PluralS(drafts)
    + " awaiting your attention, Sir/Madam, with " + NatToString(sent) + " email" + PluralS(sent)
    + " successfully sent."
    + (if failed > 0 then " I regret to inform you that " + NatToString(failed) + " email" + PluralS(failed)
                          + " failed to send."
       else "")
  }

  /**
   * The inbox message: the empty-inbox message overrides everything when there are no emails;
   * otherwise the formal or casual summary of the three counts, whose failed clause appears
   * exactly when some email failed.
   */
  function InboxContent(emails: seq<Email>, formality: int): (c: string)
    ensures |emails| == 0 ==> c == (if Formal(formality) then EmptyInboxFormal else EmptyInboxCasual)
    ensures |emails| != 0 ==>
              var d := CountStatus(emails, DRAFT);
              var s := CountStatus(emails, SENT);
              var f := CountStatus(emails, FAILED);
              c == (if Formal(formality) then FormalSummary(d, s, f) else CasualSummary(d, s, f))
  {
    if |emails| == 0 then (if Formal(formality) then EmptyInboxFormal else EmptyInboxCasual)
    else
      var d := CountStatus(emails, DRAFT);
      var s := CountStatus(emails, SENT);
      var f := CountStatus(emails, FAILED);
      if Formal(formality) then FormalSummary(d, s, f) else CasualSummary(d, s, f)
  }

  /** The failed clause of either summary appears exactly when some email failed. */
  lemma FailedClauseOnlyWhenFailed(drafts: nat, sent: nat, failed: nat)
    ensures failed == 0 ==>
              CasualSummary(drafts, sent, failed)
              == "You have " + NatToString(drafts) + " draft" + PluralS(drafts) + ", " + NatToString(sent)
                 + " sent email" + PluralS(sent)
    ensures failed > 0 ==> |CasualSummary(drafts, sent, failed)| > |CasualSummary(drafts, sent, 0)|
    ensures failed > 0 ==> |FormalSummary(drafts, sent, failed)| > |FormalSummary(drafts, sent, 0)|
  {
    var casual := "You have " + NatToString(drafts) + " draft" + PluralS(drafts) + ", " + NatToString(sent)
                  + " sent email" + PluralS(sent);
    assert CasualSummary(drafts, sent, 0) == casual + "";
  }

  /**
   * `summarizeInbox`, over the emails the store query returned (the user's newest, at most
   * twenty): the three status counts, echoed as the raw summary, under the inbox message.
   */
  method SummarizeInbox(emails: seq<Email>, preferences: Option<Fields>) returns (response: Response)
    ensures response == SuccessResponse(InboxContent(emails, Formality(preferences)), EmailView,
                                        Some(InboxRaw(emails, CountStatus(emails, DRAFT), CountStatus(emails, SENT),
                                                      CountStatus(emails, FAILED))))
  {
    var drafts := CountStatus(emails, DRAFT);
    var sent := CountStatus(emails, SENT);
    var failed := CountStatus(emails, FAILED);
    var formality := Formality(preferences);
    var content := "You have " + NatToString(drafts) + " draft" + PluralS(drafts) + ", " + NatToString(sent)
                   + " sent email" + PluralS(sent);
    if failed > 0 {
      content := content + (", and " + NatToString(failed) + " failed email" + PluralS(failed));
    } else {
      assert content == content + "";
    }
    assert content == CasualSummary(drafts, sent, failed);
    if formality >= 7 {
      content := "Your email summary shows " + NatToString(drafts) + " draft" + PluralS(drafts)
                 + " awaiting your attention, Sir/Madam, with " + NatToString(sent) + " email" + PluralS(sent)
                 + " successfully sent.";
      if failed > 0 {
        content := content + (" I regret to inform you that " + NatToString(failed) + " email" + PluralS(failed)
                              + " failed to send.");
      } else {
        assert content == content + "";
      }
      assert content == FormalSummary(drafts, sent, failed);
    }
    if |emails| == 0 {
      content := if formality >= 7 then EmptyInboxFormal else EmptyInboxCasual;
    }
    response := SuccessResponse(content, EmailView, Some(InboxRaw(emails, drafts, sent, failed)));
  }

  // ---------------------------------------------------------------------------
  // execute

  /** The switch of `execute`: each email intent to its operation, any other to an error response. */
  function Dispatch(rows: map<string, Email>, inbox: seq<Email>, command: Command, userId: string, newId: string,
                    preferences: Option<Fields>, hour: int, roll: bool): Outcome<Email>
  {
    match command.intent
    case Some("draft_email") =>
      DraftEmail(rows, if command.parameters.Some? then command.parameters.value else map[], newId, userId,
                 preferences, hour, roll)
    case Some("send_email") => SendEmail(rows, Param(command, "emailId"), userId, preferences, hour, roll)
    case Some("summarize_inbox") =>
      var d := CountStatus(inbox, DRAFT);
      var s := CountStatus(inbox, SENT);
      var f := CountStatus(inbox, FAILED);
      Outcome(SuccessResponse(InboxContent(inbox, Formality(preferences)), EmailView, Some(InboxRaw(inbox, d, s, f))),
              rows)
    case _ => Outcome(ErrorResponse("Unknown email command"), rows)
  }

  /** Only drafting and sending write the email table; any other intent leaves it as it was. */
  lemma OnlyDraftAndSendWrite(rows: map<string, Email>, inbox: seq<Email>, command: Command, userId: string,
                              newId: string, preferences: Option<Fields>, hour: int, roll: bool)
    requires command.intent != Some("draft_email") && command.intent != Some("send_email")
    ensures Dispatch(rows, inbox, command, userId, newId, preferences, hour, roll).rows == rows
    ensures command.intent != Some("summarize_inbox") ==>
              Dispatch(rows, inbox, command, userId, newId, preferences, hour, roll).response
              == ErrorResponse("Unknown email command")
  {
  }

  /**
   * `execute`: logs and starts the record, runs the operation the intent names, and records the
   * response as COMPLETED, even when the response is an error. `inbox` is what the store's
   * newest-twenty query returns for the user.
   */
  method Execute(log: Tracker.ExecutionLog, emails: Table<Email>, inbox: seq<Email>, id: string, command: Command,
                 userId: string, newId: string, preferences: Option<Fields>, hour: int, roll: bool, now: int)
    returns (r: Result<Response>)
    modifies log, emails
    ensures r.Ok? <==> id !in old(log.records)
    ensures r.Ok? ==> Outcome(r.value, emails.rows)
                      == Dispatch(old(emails.rows), inbox, command, userId, newId, preferences, hour, roll)
    ensures r.Ok? ==> log.records == old(log.records)[id := Tracker.CompletedRecord(id, Tracker.EMAIL, userId, command,
                                                                                    Tracker.ResponsePayload(r.value), now)]
    ensures r.Err? ==> log.records == old(log.records) && emails.rows == old(emails.rows)
    ensures old(log.Valid()) ==> log.Valid()
  {
    var logged := log.LogExecution(id, Tracker.EMAIL, userId, command.text, command.intent, command.parameters, now);
    if logged.Err? {
      return Err(logged.message);
    }
    log.StartExecution(id, now);
    var response: Response;
    match command.intent {
      case Some("draft_email") =>
        response := DraftEmailTo(emails, if command.parameters.Some? then command.parameters.value else map[], newId,
                                 userId, preferences, hour, roll);
      case Some("send_email") =>
        response := SendEmailIn(emails, Param(command, "emailId"), userId, preferences, hour, roll);
      case Some("summarize_inbox") =>
        response := SummarizeInbox(inbox, preferences);
      case _ =>
        response := ErrorResponse("Unknown email command");
    }
    log.UpdateExecution(id, Tracker.COMPLETED, Some(Tracker.ResponsePayload(response)), None, now);
    Tracker.LifecycleTable(old(log.records), id,
                           Tracker.Pending(id, Tracker.EMAIL, userId, command.text, command.intent, command.parameters, now),
                           now, Tracker.COMPLETED, Some(Tracker.ResponsePayload(response)), None, now);
    r := Ok(response);
  }
}
