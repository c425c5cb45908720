/**
 * The free-slot enumeration of `generateAvailableSlots` (src/lib/agents/CalendarAgent.ts):
 * for every day from the start date while the date has not passed the end date, the one-hour
 * slots starting at 9:00 … 16:00 that no event overlaps. Times are integer milliseconds; a day
 * is 24 hours and starts at a multiple of 24 hours (time zones and daylight saving are not
 * modelled).
 */
module FreeSlots {
  import opened Store
  import opened Responses

  const Hour: int := 3_600_000
  const Day: int := 86_400_000

  /** Midnight of the day `t` falls in (`setHours(0, 0, 0, 0)`). */
  function DayStart(t: int): (d: int)
    ensures d <= t < d + Day && d % Day == 0
  {
    t - t % Day
  }

  /** A time less than a day after a midnight lies in that midnight's day. */
  lemma DayStartOf(day: int, offset: int)
    requires day % Day == 0 && 0 <= offset < Day
    ensures DayStart(day + offset) == day
  {
    var q := day / Day;
    assert day == q * Day;
    assert (q * Day + offset) % Day == offset;
  }

  lemma DayStartShift(t: int)
    ensures DayStart(t + Day) == DayStart(t) + Day
  {
    DayStartOf(DayStart(t) + Day, t - DayStart(t));
  }

  lemma DayStartMonotone(a: int, b: int)
    requires a <= b
    ensures DayStart(a) <= DayStart(b)
  {
  }

  /** The start of hour `h` of the day starting at `day`. */
  function HourStart(day: int, h: int): int
  {
    day + h * Hour
  }

  lemma HourStartNext(day: int, h: int)
    ensures HourStart(day, h + 1) == HourStart(day, h) + Hour
  {
  }

  /** The half-open overlap test of a slot with an event. */
  predicate Overlaps(slot: Slot, event: CalendarEvent)
  {
    slot.start < event.endTime && slot.end > event.startTime
  }

  /** No event overlaps the slot. */
  predicate Free(slot: Slot, events: set<CalendarEvent>)
  {
    forall event | event in events :: !Overlaps(slot, event)
  }

  /** The candidate slot of the day starting at `day` beginning at hour `h`. */
  function Candidate(day: int, h: int): (s: Slot)
    ensures s.start == HourStart(day, h) && s.end == s.start + Hour && s.duration == Hour
  {
    Slot(HourStart(day, h), HourStart(day, h) + Hour, Hour)
  }

  /** The free candidates of one day, from hour `h` up to the last one starting at 16:00. */
  function DaySlots(day: int, events: set<CalendarEvent>, h: int): seq<Slot>
    requires 9 <= h <= 17
    decreases 17 - h
  {
    if h == 17 then []
    else (if Free(Candidate(day, h), events) then [Candidate(day, h)] else []) + DaySlots(day, events, h + 1)
  }

  /** The free candidates of every day from the one of `date` while `date` has not passed `end`. */
  function SlotsFrom(date: int, end: int, events: set<CalendarEvent>): seq<Slot>
    decreases end - date + Day
  {
    if date > end then [] else DaySlots(DayStart(date), events, 9) + SlotsFrom(date + Day, end, events)
  }

  /** How many days the outer loop visits. */
  function Days(date: int, end: int): nat
    decreases end - date + Day
  {
    if date > end then 0 else 1 + Days(date + Day, end)
  }

  /** Strictly increasing start times. */
  predicate Chronological(slots: seq<Slot>)
  {
    forall i, j | 0 <= i < j < |slots| :: slots[i].start < slots[j].start
  }

  /**
   * `generateAvailableSlots`: for each day from the start date while the date has not passed
   * the end date, and each hour from 9 to 16, the one-hour slot is kept when no event overlaps it.
   */
  method GenerateAvailableSlots(events: set<CalendarEvent>, start: int, end: int) returns (slots: seq<Slot>)
    ensures slots == SlotsFrom(start, end, events)
  {
    slots := [];
    var date := start;
    while date <= end
      invariant slots + SlotsFrom(date, end, events) == SlotsFrom(start, end, events)
      decreases end - date + Day
    {
      ghost var before := slots;
      slots := AppendDaySlots(events, DayStart(date), slots);
      Regroup(before, DaySlots(DayStart(date), events, 9), SlotsFrom(date + Day, end, events));
      date := date + Day;
    }
  }

  /** The inner loop of `generateAvailableSlots`: the free hours 9 to 16 of one day, appended in order. */
  method AppendDaySlots(events: set<CalendarEvent>, day: int, slots0: seq<Slot>) returns (slots: seq<Slot>)
    ensures slots == slots0 + DaySlots(day, events, 9)
  {
    slots := slots0;
    var hour := 9;
    while hour < 17
      invariant 9 <= hour <= 17
      invariant slots + DaySlots(day, events, hour) == slots0 + DaySlots(day, events, 9)
    {
      var slotStart := HourStart(day, hour);
      var slotEnd := slotStart + Hour;
      var isAvailable := !exists event | event in events :: slotStart < event.endTime && slotEnd > event.startTime;
      assert isAvailable == Free(Candidate(day, hour), events);
      ghost var previous := slots;
      ghost var kept: seq<Slot> := [];
      if isAvailable {
        assert Slot(slotStart, slotEnd, Hour) == Candidate(day, hour);
        slots := slots + [Slot(slotStart, slotEnd, Hour)];
        kept := [Candidate(day, hour)];
      } else {
        assert slots == previous + kept;
      }
      DaySlotsUnfold(day, events, hour);
      Regroup(previous, kept, DaySlots(day, events, hour + 1));
      hour := hour + 1;
    }
    assert DaySlots(day, events, 17) == [];
  }

  lemma DaySlotsUnfold(day: int, events: set<CalendarEvent>, h: int)
    requires 9 <= h < 17
    ensures DaySlots(day, events, h)
            == (if Free(Candidate(day, h), events) then [Candidate(day, h)] else []) + DaySlots(day, events, h + 1)
  {
  }

  lemma Regroup<T>(a: seq<T>, b: seq<T>, c: seq<T>)
    ensures (a + b) + c == a + (b + c)
  {
  }

  /** Appending slots that all start later keeps chronological order. */
  lemma ChronologicalAppend(a: seq<Slot>, b: seq<Slot>, bound: int)
    requires Chronological(a) && Chronological(b)
    requires forall x | x in a :: x.start < bound
    requires forall y | y in b :: bound <= y.start
    ensures Chronological(a + b)
  {
    forall i, j | 0 <= i < j < |a + b| ensures (a + b)[i].start < (a + b)[j].start {
      if j < |a| {
        assert (a + b)[i] == a[i] && (a + b)[j] == a[j];
      } else if i < |a| {
        assert (a + b)[i] == a[i] && a[i] in a;
        assert (a + b)[j] == b[j - |a|] && b[j - |a|] in b;
      } else {
        assert (a + b)[i] == b[i - |a|] && (a + b)[j] == b[j - |a|];
      }
    }
  }

  /** A day's slots from hour `h` are free, one hour long, and lie between hour `h` and 17:00. */
  lemma {:induction false} DaySlotsMembers(day: int, events: set<CalendarEvent>, h: int)
    requires 9 <= h <= 17
    ensures forall s | s in DaySlots(day, events, h) ::
              && Free(s, events) && s.end == s.start + Hour && s.duration == Hour
              && HourStart(day, h) <= s.start && s.end <= HourStart(day, 17)
    decreases 17 - h
  {
    if h < 17 {
      DaySlotsMembers(day, events, h + 1);
      HourStartNext(day, h);
      DaySlotsUnfold(day, events, h);
    }
  }

  /** A day's slots come in chronological order. */
  lemma {:induction false} DaySlotsChronological(day: int, events: set<CalendarEvent>, h: int)
    requires 9 <= h <= 17
    ensures Chronological(DaySlots(day, events, h))
    decreases 17 - h
  {
    if h < 17 {
      DaySlotsChronological(day, events, h + 1);
      DaySlotsMembers(day, events, h + 1);
      HourStartNext(day, h);
      DaySlotsUnfold(day, events, h);
      var head: seq<Slot> := if Free(Candidate(day, h), events) then [Candidate(day, h)] else [];
      ChronologicalAppend(head, DaySlots(day, events, h + 1), HourStart(day, h + 1));
    }
  }

  /** At most one slot an hour, and one every hour when there are no events. */
  lemma {:induction false} DaySlotsCount(day: int, events: set<CalendarEvent>, h: int)
    requires 9 <= h <= 17
    ensures |DaySlots(day, events, h)| <= 17 - h
    ensures events == {} ==> |DaySlots(day, events, h)| == 17 - h
    decreases 17 - h
  {
    if h < 17 {
      DaySlotsCount(day, events, h + 1);
      DaySlotsUnfold(day, events, h);
    }
  }

  /**
   * The slots of the days visited from `date` are free of the events, one hour long, and lie
   * between 9:00 on the day of `date` and 17:00 on the day of `end`.
   */
  lemma {:induction false} SlotsFromBounds(date: int, end: int, events: set<CalendarEvent>)
    ensures forall s | s in SlotsFrom(date, end, events) ::
              && Free(s, events) && s.end == s.start + Hour && s.duration == Hour
              && HourStart(DayStart(date), 9) <= s.start && s.end <= HourStart(DayStart(end), 17)
    decreases end - date + Day
  {
    if date <= end {
      var day := DayStart(date);
      DaySlotsMembers(day, events, 9);
      SlotsFromBounds(date + Day, end, events);
      DayStartShift(date);
      DayStartMonotone(date, end);
      assert SlotsFrom(date, end, events) == DaySlots(day, events, 9) + SlotsFrom(date + Day, end, events);
    }
  }

  /** The slots of the days visited from `date` come in chronological order. */
  lemma {:induction false} SlotsFromChronological(date: int, end: int, events: set<CalendarEvent>)
    ensures Chronological(SlotsFrom(date, end, events))
    decreases end - date + Day
  {
    if date <= end {
      var day := DayStart(date);
      DaySlotsMembers(day, events, 9);
      DaySlotsChronological(day, events, 9);
      SlotsFromChronological(date + Day, end, events);
      SlotsFromBounds(date + Day, end, events);
      DayStartShift(date);
      ChronologicalAppend(DaySlots(day, events, 9), SlotsFrom(date + Day, end, events), HourStart(day + Day, 9));
    }
  }

  /** Every slot lies between 9:00 and 17:00 of its own day. */
  lemma {:induction false} SlotsFromWithinDay(date: int, end: int, events: set<CalendarEvent>)
    ensures forall s | s in SlotsFrom(date, end, events) ::
              HourStart(DayStart(s.start), 9) <= s.start && s.end <= HourStart(DayStart(s.start), 17)
    decreases end - date + Day
  {
    if date <= end {
      var day := DayStart(date);
      DaySlotsMembers(day, events, 9);
      SlotsFromWithinDay(date + Day, end, events);
      forall s | s in DaySlots(day, events, 9)
        ensures HourStart(DayStart(s.start), 9) <= s.start && s.end <= HourStart(DayStart(s.start), 17)
      {
        InOwnDay(day, s);
      }
    }
  }

  lemma InOwnDay(day: int, s: Slot)
    requires day % Day == 0 && HourStart(day, 9) <= s.start && s.end == s.start + Hour && s.end <= HourStart(day, 17)
    ensures DayStart(s.start) == day
  {
    DayStartOf(day, s.start - day);
  }

  /** At most eight slots a day, and exactly eight a day when there are no events. */
  lemma {:induction false} SlotsFromCount(date: int, end: int, events: set<CalendarEvent>)
    ensures |SlotsFrom(date, end, events)| <= 8 * Days(date, end)
    ensures events == {} ==> |SlotsFrom(date, end, events)| == 8 * Days(date, end)
    decreases end - date + Day
  {
    if date <= end {
      DaySlotsCount(DayStart(date), events, 9);
      SlotsFromCount(date + Day, end, events);
    }
  }

  /** A candidate of the day starting at `day` is among the day's slots from hour `h0` when it is free. */
  lemma {:induction false} InDaySlots(day: int, events: set<CalendarEvent>, h0: int, h: int)
    requires 9 <= h0 <= h < 17
    ensures Free(Candidate(day, h), events) ==> Candidate(day, h) in DaySlots(day, events, h0)
    decreases h - h0
  {
    if h0 < h {
      InDaySlots(day, events, h0 + 1, h);
    }
  }

  /** Two different midnights are at least a day apart. */
  lemma DayGap(a: int, b: int)
    requires a % Day == 0 && b % Day == 0 && a < b
    ensures a + Day <= b
  {
  }

  /**
   * A candidate of a visited day (the day starting at midnight `day`, reached from `date` in
   * whole days without passing `end`) is returned exactly when no event overlaps it: the
   * overlap test is the only filter.
   */
  lemma {:induction false} KeptIffFree(date: int, end: int, events: set<CalendarEvent>, day: int, h: int)
    requires day % Day == 0 && DayStart(date) <= day && day + (date - DayStart(date)) <= end && 9 <= h < 17
    ensures Candidate(day, h) in SlotsFrom(date, end, events) <==> Free(Candidate(day, h), events)
    decreases day - DayStart(date)
  {
    var first := DayStart(date);
    DaySlotsMembers(first, events, 9);
    DayStartShift(date);
    assert SlotsFrom(date, end, events) == DaySlots(first, events, 9) + SlotsFrom(date + Day, end, events);
    if day == first {
      InDaySlots(first, events, 9, h);
      SlotsFromBounds(date + Day, end, events);
    } else {
      DayGap(first, day);
      KeptIffFree(date + Day, end, events, day, h);
    }
  }
}
