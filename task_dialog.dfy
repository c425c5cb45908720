/**
 * The task form of src/components/TaskDialog.tsx: the duration label `formatTime`, the form a
 * dialog opens with, and what a submit hands on (trimmed title and description, nothing at all
 * for a blank title). Dates are instants as integers.
 */
module TaskDialog {
  import opened Common
  import opened Strings
  import opened Store

  // ---------------------------------------------------------------------------
  // formatTime

  /** `formatTime`: "m min" under an hour, otherwise "Hh", or "Hh Mm" when minutes remain. */
  function FormatTime(minutes: int): string
  {
    if minutes < 60 then IntToString(minutes) + " min"
    else
      var hours := minutes / 60;
      var remainingMinutes := minutes % 60;
      if remainingMinutes > 0 then NatToString(hours) + "h " + NatToString(remainingMinutes) + "m"
      else NatToString(hours) + "h"
  }

  predicate AllDigits(s: string)
  {
    forall i | 0 <= i < |s| :: IsDigit(s[i])
  }

  /** The number of leading digits. */
  function DigitRun(s: string): (n: nat)
    ensures n <= |s| && AllDigits(s[..n])
  {
    if s == [] || !IsDigit(s[0]) then 0 else 1 + DigitRun(s[1..])
  }

  /** The digits of a number followed by a non-digit: the run is exactly the number's digits. */
  lemma {:induction false} DigitRunOf(d: string, rest: string)
    requires AllDigits(d) && rest != [] && !IsDigit(rest[0])
    ensures DigitRun(d + rest) == |d|
  {
    if d == [] {
      assert d + rest == rest;
    } else {
      assert (d + rest)[0] == d[0] && (d + rest)[1..] == d[1..] + rest;
      DigitRunOf(d[1..], rest);
    }
  }

  /** Reads a duration label back into minutes: the inverse of `FormatTime` on non-negative durations. */
  function ReadTime(s: string): Option<int>
  {
    if |s| > 4 && s[|s| - 4..] == " min" && AllDigits(s[..|s| - 4]) then Some(DigitsValue(s[..|s| - 4]))
    else if |s| > 1 && s[|s| - 1] == 'h' && AllDigits(s[..|s| - 1]) then Some(60 * DigitsValue(s[..|s| - 1]))
    else if |s| > 1 && s[|s| - 1] == 'm' then ReadHoursMinutes(s[..|s| - 1])
    else None
  }

  /** Reads "Hh M" (a label without its final 'm') into minutes. */
  function ReadHoursMinutes(inner: string): Option<int>
  {
    HoursMinutesAt(inner, DigitRun(inner))
  }

  /** Reads "Hh M" whose hours are the first `k` characters. */
  function HoursMinutesAt(inner: string, k: nat): Option<int>
    requires k <= |inner| && AllDigits(inner[..k])
  {
    if k + 2 < |inner| && inner[k..k + 2] == "h " && AllDigits(inner[k + 2..]) then
      Some(60 * DigitsValue(inner[..k]) + DigitsValue(inner[k + 2..]))
    else None
  }

  /** Under an hour the label is the minutes with " min". */
  lemma ReadMinutes(m: nat)
    requires m < 60
    ensures ReadTime(FormatTime(m)) == Some(m)
  {
    var d := NatToString(m);
    var s := d + " min";
    assert s[|s| - 4..] == " min" && s[..|s| - 4] == d;
    NatToStringRoundTrip(m);
  }

  /** Whole hours are the hours with "h". */
  lemma ReadHours(m: nat)
    requires m >= 60 && m % 60 == 0
    ensures ReadTime(FormatTime(m)) == Some(m)
  {
    var d := NatToString(m / 60);
    var s := d + "h";
    assert s[|s| - 1] == 'h' && s[..|s| - 1] == d;
    LabelEndingInH(s);
    NatToStringRoundTrip(m / 60);
  }

  /** A label of digits ending in 'h' is read as whole hours. */
  lemma LabelEndingInH(s: string)
    requires |s| > 1 && s[|s| - 1] == 'h' && AllDigits(s[..|s| - 1])
    ensures ReadTime(s) == Some(60 * DigitsValue(s[..|s| - 1]))
  {
    assert |s| > 4 ==> s[|s| - 4..][3] == 'h';
  }

  /** A label "Hh Mm" made of two digit strings is read as H hours and M minutes. */
  lemma ReadDigitsLabel(h: string, r: string)
    requires h != [] && r != [] && AllDigits(h) && AllDigits(r)
    ensures ReadTime(h + "h " + r + "m") == Some(60 * DigitsValue(h) + DigitsValue(r))
  {
    LabelEndingInM(h + "h " + r + "m");
    Parts(h + "h " + r, "m", "");
    DigitRunBefore(h, "h ", r);
    ReadHoursMinutesOf(h, r);
  }

  /** A label ending in 'm' after something other than " min" is read as hours and minutes. */
  lemma LabelEndingInM(s: string)
    requires |s| > 4 && s[|s| - 1] == 'm'
    ensures ReadTime(s) == ReadHoursMinutes(s[..|s| - 1])
  {
    assert s[|s| - 4..][3] == 'm';
  }

  /** "Hh M" is read as H hours and M minutes once the hours are known to be the leading digits. */
  lemma ReadHoursMinutesOf(h: string, r: string)
    requires h != [] && r != [] && AllDigits(h) && AllDigits(r) && DigitRun(h + "h " + r) == |h|
    ensures ReadHoursMinutes(h + "h " + r) == Some(60 * DigitsValue(h) + DigitsValue(r))
  {
    Parts(h, "h ", r);
    ReadHoursMinutesAt(h + "h " + r, |h|);
  }

  /** The digit run of digits followed by a non-digit is those digits, whatever comes after. */
  lemma DigitRunBefore(d: string, a: string, b: string)
    requires AllDigits(d) && a != [] && !IsDigit(a[0])
    ensures DigitRun(d + a + b) == |d|
  {
    assert d + a + b == d + (a + b);
    DigitRunOf(d, a + b);
  }

  /** The reader takes the leading digits as hours and the digits after "h " as minutes. */
  lemma ReadHoursMinutesAt(inner: string, k: nat)
    requires DigitRun(inner) == k && k + 2 < |inner| && inner[k..k + 2] == "h " && AllDigits(inner[k + 2..])
    ensures ReadHoursMinutes(inner) == Some(60 * DigitsValue(inner[..k]) + DigitsValue(inner[k + 2..]))
  {
    assert ReadHoursMinutes(inner) == HoursMinutesAt(inner, k);
    HoursMinutesAtSeparator(inner, k);
  }

  /** With "h " after the hours and digits after that, both numbers are read. */
  lemma HoursMinutesAtSeparator(inner: string, k: nat)
    requires k + 2 < |inner| && AllDigits(inner[..k]) && inner[k..k + 2] == "h " && AllDigits(inner[k + 2..])
    ensures HoursMinutesAt(inner, k) == Some(60 * DigitsValue(inner[..k]) + DigitsValue(inner[k + 2..]))
  {
  }

  /** The three parts of a concatenation. */
  lemma Parts(a: string, b: string, c: string)
    ensures (a + b + c)[..|a|] == a && (a + b + c)[|a|..|a| + |b|] == b && (a + b + c)[|a| + |b|..] == c
  {
  }

  /** Hours and remaining minutes are "Hh Mm", and both numbers are read back. */
  lemma ReadHoursAndMinutes(m: nat)
    requires m >= 60 && m % 60 > 0
    ensures ReadTime(FormatTime(m)) == Some(m)
  {
    var h := NatToString(m / 60);
    var r := NatToString(m % 60);
    calc {
      ReadTime(FormatTime(m));
      ReadTime(h + "h " + r + "m");
    == { ReadDigitsLabel(h, r); }
      Some(60 * DigitsValue(h) + DigitsValue(r));
    == { NatToStringRoundTrip(m / 60); NatToStringRoundTrip(m % 60); }
      Some(60 * (m / 60) + m % 60);
      Some(m);
    }
  }

  /** Every non-negative duration is read back from its label, so different durations get different labels. */
  lemma FormatTimeReadsBack(m: nat)
    ensures ReadTime(FormatTime(m)) == Some(m)
  {
    if m < 60 {
      ReadMinutes(m);
    } else if m % 60 == 0 {
      ReadHours(m);
    } else {
      ReadHoursAndMinutes(m);
    }
  }

  /** Three labels: 45 minutes, two hours, and an hour and a half. */
  lemma FormatTimeExamples()
    ensures FormatTime(45) == "45 min" && FormatTime(120) == "2h" && FormatTime(90) == "1h 30m"
  {
    assert NatToString(45) == "45" by { assert NatToString(4) == "4"; }
    assert NatToString(30) == "30" by { assert NatToString(3) == "3"; }
  }

  // ---------------------------------------------------------------------------
  // The form

  /** The form's fields. */
  datatype TaskForm = TaskForm(title: string, description: string, priority: Priority, status: TaskStatus,
                               dueDate: Option<int>, estimatedTime: Option<int>, reminderTime: Option<int>)

  /** What a submit hands on. */
  datatype TaskData = TaskData(title: string, description: Option<string>, priority: Priority, status: TaskStatus,
                               dueDate: Option<int>, estimatedTime: Option<int>, reminderTime: Option<int>)

  /** The form a dialog opens with: the task's fields, or an empty form with priority MEDIUM and status PENDING. */
  function Prefill(task: Option<Task>): (f: TaskForm)
    ensures task.None? ==> f == TaskForm("", "", MEDIUM, PENDING, None, None, None)
    ensures task.Some? ==> f.title == task.value.title && f.priority == task.value.priority
                           && f.status == task.value.status
  {
    match task
    case None => TaskForm("", "", MEDIUM, PENDING, None, None, None)
    case Some(t) =>
      TaskForm(t.title, if t.description.Some? then t.description.value else "", t.priority, t.status,
               t.dueDate, t.estimatedTime, t.reminderTime)
  }

  /** `handleSubmit`: nothing for a blank title; otherwise the trimmed title, and the trimmed description unless it is blank. */
  function Submit(form: TaskForm): (r: Option<TaskData>)
    ensures r.None? <==> AllSpace(form.title)
    ensures r.Some? ==> r.value.title == Trim(form.title) && r.value.title != "" && Trimmed(r.value.title)
    ensures r.Some? ==> (r.value.description.None? <==> AllSpace(form.description))
    ensures r.Some? && r.value.description.Some? ==>
              r.value.description.value == Trim(form.description) && Trimmed(r.value.description.value)
    ensures r.Some? ==> r.value.priority == form.priority && r.value.status == form.status
                        && r.value.dueDate == form.dueDate && r.value.estimatedTime == form.estimatedTime
                        && r.value.reminderTime == form.reminderTime
  {
    if Trim(form.title) == "" then None
    else
      var description := Trim(form.description);
      Some(TaskData(Trim(form.title), if description == "" then None else Some(description), form.priority,
                    form.status, form.dueDate, form.estimatedTime, form.reminderTime))
  }

  /** An untouched new form saves nothing. */
  lemma NewFormSavesNothing()
    ensures Submit(Prefill(None)) == None
  {
  }

  /**
   * Opening a task and submitting it unchanged hands on the task's own fields, when its title
   * and description are already trimmed and not empty.
   */
  lemma PrefillRoundTrip(task: Task)
    requires Trimmed(task.title) && task.title != ""
    requires task.description.Some? ==> Trimmed(task.description.value) && task.description.value != ""
    ensures Submit(Prefill(Some(task)))
            == Some(TaskData(task.title, task.description, task.priority, task.status, task.dueDate,
                             task.estimatedTime, task.reminderTime))
  {
    TrimOfTrimmed(task.title);
    if task.description.Some? {
      TrimOfTrimmed(task.description.value);
    }
  }
}
