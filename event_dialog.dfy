/**
 * The event form of src/components/EventDialog.tsx: the form a dialog opens with (attendees
 * joined with ", "), and what a submit does: nothing without a title, a start and an end, an
 * alert when the end is not after the start, and otherwise the trimmed fields with the
 * attendee text split on ',' into trimmed, non-blank addresses. Times are instants as integers.
 */
module EventDialog {
  import opened Common
  import opened Strings

  // ---------------------------------------------------------------------------
  // Attendees

  /** `parts.map(p => p.trim())`. */
  function TrimAll(parts: seq<string>): (r: seq<string>)
    ensures |r| == |parts| && forall i | 0 <= i < |parts| :: r[i] == Trim(parts[i])
  {
    seq(|parts|, i requires 0 <= i < |parts| => Trim(parts[i]))
  }

  /** `parts.filter(p => p.length > 0)`. */
  function NonEmpty(parts: seq<string>): (r: seq<string>)
    ensures forall p :: p in r <==> p in parts && p != ""
  {
    if parts == [] then []
    else if parts[0] == "" then NonEmpty(parts[1..])
    else [parts[0]] + NonEmpty(parts[1..])
  }

  /** The attendee text as a list: split on ',', each piece trimmed, blank pieces dropped. */
  function ParseAttendees(text: string): (r: seq<string>)
    ensures forall a | a in r :: a != "" && Trimmed(a)
  {
    NonEmpty(TrimAll(Split(text, ',')))
  }

  /** An address is listed exactly when it is the trimming of some non-blank piece between commas. */
  lemma ParsedAttendees(text: string, a: string)
    ensures a in ParseAttendees(text) <==> a != "" && exists p | p in Split(text, ',') :: Trim(p) == a
  {
    var pieces := Split(text, ',');
    var trimmed := TrimAll(pieces);
    if a in ParseAttendees(text) {
      var i := IndexOf(trimmed, a);
      assert pieces[i] in pieces && Trim(pieces[i]) == a;
    }
    if a != "" && exists p | p in pieces :: Trim(p) == a {
      var p :| p in pieces && Trim(p) == a;
      var i := IndexOf(pieces, p);
      assert trimmed[i] == a;
    }
  }

  /** A position of an element of a list. */
  lemma IndexOf(s: seq<string>, x: string) returns (i: nat)
    requires x in s
    ensures i < |s| && s[i] == x
  {
    i :| 0 <= i < |s| && s[i] == x;
  }

  /** Every piece of a list behind a space. */
  function Padded(parts: seq<string>): (r: seq<string>)
    ensures |r| == |parts| && forall i | 0 <= i < |parts| :: r[i] == " " + parts[i]
  {
    if parts == [] then [] else [" " + parts[0]] + Padded(parts[1..])
  }

  /** Splitting a list joined with ", " on ',' gives the first entry and the others behind their space. */
  lemma {:induction false} SplitJoined(list: seq<string>)
    requires |list| >= 1 && forall a | a in list :: ',' !in a
    ensures Split(Join(list, ", "), ',') == [list[0]] + Padded(list[1..])
  {
    if |list| == 1 {
      SplitNoSeparator(list[0], ',');
      assert list[1..] == [];
    } else {
      var rest := list[1..];
      var j := Join(rest, ", ");
      assert Join(list, ", ") == list[0] + [','] + (" " + j);
      SplitConcat(list[0], ',', " " + j);
      SplitJoined(rest);
      var tail := Split(j, ',');
      assert (" " + j)[0] == ' ' && (" " + j)[1..] == j;
      assert Split(" " + j, ',') == [[' '] + tail[0]] + tail[1..];
      assert rest[1..] == list[2..];
      assert Padded(rest) == [" " + rest[0]] + Padded(rest[1..]);
    }
  }

  /** A list of non-empty entries passes the filter unchanged. */
  lemma {:induction false} NonEmptyKeepsAll(parts: seq<string>)
    requires forall p | p in parts :: p != ""
    ensures NonEmpty(parts) == parts
  {
    if parts != [] {
      assert parts[0] in parts;
      assert forall p | p in parts[1..] :: p in parts;
      NonEmptyKeepsAll(parts[1..]);
      assert [parts[0]] + parts[1..] == parts;
    }
  }

  /** Trimming the pieces of a joined list gives the list back. */
  lemma TrimPieces(list: seq<string>)
    requires |list| >= 1 && forall a | a in list :: a != "" && Trimmed(a)
    ensures TrimAll([list[0]] + Padded(list[1..])) == list
  {
    var pieces := [list[0]] + Padded(list[1..]);
    var trimmed := TrimAll(pieces);
    assert |trimmed| == |pieces| == |list|;
    forall i | 0 <= i < |list| ensures trimmed[i] == list[i] {
      assert list[i] in list;
      TrimPiece(list, i);
    }
  }

  /** One piece of a joined list, trimmed, is its entry. */
  lemma TrimPiece(list: seq<string>, i: nat)
    requires i < |list| && list[i] != "" && Trimmed(list[i])
    ensures Trim(([list[0]] + Padded(list[1..]))[i]) == list[i]
  {
    if i == 0 {
      TrimOfTrimmed(list[0]);
    } else {
      assert ([list[0]] + Padded(list[1..]))[i] == " " + list[i] + "";
      TrimAround(" ", list[i], "");
    }
  }

  /**
   * The prefill round trip: joining an attendee list with ", " and parsing the text back gives
   * the list, when every address is non-empty, trimmed and free of commas.
   */
  lemma AttendeesRoundTrip(list: seq<string>)
    requires forall a | a in list :: a != "" && Trimmed(a) && ',' !in a
    ensures ParseAttendees(Join(list, ", ")) == list
  {
    if list == [] {
      assert Split("", ',') == [""];
      assert TrimAll([""]) == [""];
    } else {
      SplitJoined(list);
      TrimPieces(list);
      NonEmptyKeepsAll(list);
    }
  }

  // ---------------------------------------------------------------------------
  // The form

  /** An event as the dialog is given it. */
  datatype ShownEvent = ShownEvent(title: string, description: Option<string>, startTime: int, endTime: int,
                                   location: Option<string>, attendees: Option<seq<string>>)

  /** The form's fields; the attendees are one line of text. */
  datatype EventForm = EventForm(title: string, description: string, startTime: Option<int>, endTime: Option<int>,
                                 location: string, attendees: string)

  /** What a submit hands on. */
  datatype EventData = EventData(title: string, description: Option<string>, startTime: int, endTime: int,
                                 location: Option<string>, attendees: Option<seq<string>>)

  /** What a submit does: nothing, an alert, or a save. */
  datatype Submitted = Ignored | Alerted(message: string) | Saved(data: EventData)

  /** `s || ''` for an optional text. */
  function OrEmpty(s: Option<string>): string
  {
    if s.Some? then s.value else ""
  }

  /** The form a dialog opens with: the event's fields with its attendees joined by ", ", or an empty form. */
  function Prefill(event: Option<ShownEvent>): (f: EventForm)
    ensures event.None? ==> f == EventForm("", "", None, None, "", "")
    ensures event.Some? && event.value.attendees.Some? ==> f.attendees == Join(event.value.attendees.value, ", ")
  {
    match event
    case None => EventForm("", "", None, None, "", "")
    case Some(e) =>
      EventForm(e.title, OrEmpty(e.description), Some(e.startTime), Some(e.endTime), OrEmpty(e.location),
                if e.attendees.Some? then Join(e.attendees.value, ", ") else "")
  }

  /** A trimmed text, or nothing when it is blank. */
  function TrimmedOrNone(s: string): (r: Option<string>)
    ensures r.None? <==> AllSpace(s)
    ensures r.Some? ==> r.value == Trim(s) && r.value != ""
  {
    if Trim(s) == "" then None else Some(Trim(s))
  }

  const OrderAlert := "End time must be after start time"

  /** `handleSubmit`. */
  function Submit(form: EventForm): (r: Submitted)
    ensures r.Ignored? <==> AllSpace(form.title) || form.startTime.None? || form.endTime.None?
    ensures r.Alerted? <==> !r.Ignored? && form.startTime.value >= form.endTime.value
    ensures r.Alerted? ==> r.message == OrderAlert
    ensures r.Saved? ==>
              && r.data.startTime == form.startTime.value && r.data.endTime == form.endTime.value
              && r.data.startTime < r.data.endTime
              && r.data.title == Trim(form.title) && r.data.title != ""
              && r.data.description == TrimmedOrNone(form.description)
              && r.data.location == TrimmedOrNone(form.location)
              && (r.data.attendees.None? <==> ParseAttendees(form.attendees) == [])
              && (r.data.attendees.Some? ==> r.data.attendees.value == ParseAttendees(form.attendees))
  {
    if Trim(form.title) == "" || form.startTime.None? || form.endTime.None? then Ignored
    else if form.startTime.value >= form.endTime.value then Alerted(OrderAlert)
    else
      var attendeesArray := ParseAttendees(form.attendees);
      Saved(EventData(Trim(form.title), TrimmedOrNone(form.description), form.startTime.value, form.endTime.value,
                      TrimmedOrNone(form.location), if |attendeesArray| > 0 then Some(attendeesArray) else None))
  }

  /** An optional text that is trimmed and non-blank when present survives the prefill and the submit. */
  lemma OptionalRoundTrip(d: Option<string>)
    requires d.Some? ==> Trimmed(d.value) && d.value != ""
    ensures TrimmedOrNone(OrEmpty(d)) == d
  {
    if d.Some? {
      TrimOfTrimmed(d.value);
    } else {
      assert Trim("") == "";
    }
  }

  /** An optional attendee list, non-empty when present, survives the prefill and the submit. */
  lemma AttendeesPrefill(a: Option<seq<string>>)
    requires a.Some? ==> a.value != [] && forall x | x in a.value :: x != "" && Trimmed(x) && ',' !in x
    ensures var parsed := ParseAttendees(if a.Some? then Join(a.value, ", ") else "");
            (if |parsed| > 0 then Some(parsed) else None) == a
  {
    if a.Some? {
      AttendeesRoundTrip(a.value);
    } else {
      assert Split("", ',') == [""];
      assert TrimAll([""]) == [""];
    }
  }

  /** A form with a non-blank title and a start before its end is saved with its fields normalised. */
  lemma SubmitSaves(f: EventForm)
    requires Trim(f.title) != "" && f.startTime.Some? && f.endTime.Some? && f.startTime.value < f.endTime.value
    ensures var parsed := ParseAttendees(f.attendees);
            Submit(f) == Saved(EventData(Trim(f.title), TrimmedOrNone(f.description), f.startTime.value,
                                         f.endTime.value, TrimmedOrNone(f.location),
                                         if |parsed| > 0 then Some(parsed) else None))
  {
  }

  /**
   * Opening an event and submitting it unchanged saves the event's own fields, when its texts are
   * trimmed and not empty, its attendees are a non-empty list of such comma-free addresses, and it
   * ends after it starts.
   */
  lemma PrefillRoundTrip(e: ShownEvent)
    requires Trimmed(e.title) && e.title != "" && e.startTime < e.endTime
    requires e.description.Some? ==> Trimmed(e.description.value) && e.description.value != ""
    requires e.location.Some? ==> Trimmed(e.location.value) && e.location.value != ""
    requires e.attendees.Some? ==>
               e.attendees.value != [] && forall a | a in e.attendees.value :: a != "" && Trimmed(a) && ',' !in a
    ensures Submit(Prefill(Some(e)))
            == Saved(EventData(e.title, e.description, e.startTime, e.endTime, e.location, e.attendees))
  {
    var text := if e.attendees.Some? then Join(e.attendees.value, ", ") else "";
    AttendeesPrefill(e.attendees);
    var f := EventForm(e.title, OrEmpty(e.description), Some(e.startTime), Some(e.endTime), OrEmpty(e.location), text);
    assert Prefill(Some(e)) == f;
    assert Trim(f.title) == e.title by { TrimOfTrimmed(e.title); }
    assert TrimmedOrNone(f.description) == e.description by { OptionalRoundTrip(e.description); }
    assert TrimmedOrNone(f.location) == e.location by { OptionalRoundTrip(e.location); }
    SubmitSaves(f);
  }
}
