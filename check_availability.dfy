/**
 * The `calendar_check_availability` tool of
 * backend/src/tools/scheduling/check-availability.ts: it resolves a start date
 * given as "today", "tomorrow", "next <weekday>" or an ISO date, searches from the
 * start of that day to the end of the end date's day (the start day alone when no
 * end date is given), and returns at most ten slots with a count message.
 *
 * The clock is the parameter `now`; ISO parsing is the oracle `parseIso` (`None`
 * stands for an Invalid Date, on which the search throws); the display text of a
 * slot is the oracle `display`. The overlap test is the parameter `rule`, as in
 * the calendar service: `AsWritten` is the code's strict test, `HalfOpen` its
 * corrected form.
 */
module CheckAvailabilityTool {
  import opened Wrappers
  import opened Seqs
  import opened Text
  import opened Time
  import opened BackendTypes
  import opened Calendar

  const DaysOfWeek: seq<string> :=
    ["sunday", "monday", "tuesday", "wednesday", "thursday", "friday", "saturday"]

  datatype FormattedSlot = FormattedSlot(start: Instant, end: Instant, displayTime: string)

  datatype Output = Output(availableSlots: seq<FormattedSlot>, message: string)

  /** `(targetDayIndex - currentDay + 7) % 7 || 7`: the same weekday counts as a week ahead. */
  function DaysUntil(target: int, current: int): (n: int)
    requires 0 <= target < 7 && 0 <= current < 7
    ensures 1 <= n <= 7
    ensures (current + n) % 7 == target
  {
    var d := (target - current + 7) % 7;
    if d == 0 then 7 else d
  }

  /** The position in `DaysOfWeek` of what follows the first "next ", trimmed; -1 when it names no day. */
  function WeekdayIndex(lower: string): int {
    IndexOf(DaysOfWeek, Trim(ReplaceFirst(lower, "next ", "")))
  }

  /** The start date the tool searches from; `None` is an Invalid Date. */
  function ResolveStart(startDate: string, now: Instant, parseIso: string -> Option<Instant>): Option<Instant> {
    var lower := ToLower(startDate);
    if lower == "today" then Some(now)
    else if lower == "tomorrow" then Some(AddDays(now, 1))
    else if StartsWith(lower, "next ") then
      var index := WeekdayIndex(lower);
      if index == -1 then parseIso(startDate)
      else Some(AddDays(now, DaysUntil(index, Weekday(now))))
    else parseIso(startDate)
  }

  /** `endDate ? parseISO(endDate) : parsedStartDate`: an absent or empty end date means the start date. */
  function ResolveEnd(endDate: Option<string>, start: Option<Instant>, parseIso: string -> Option<Instant>): Option<Instant> {
    if endDate.Some? && endDate.value != "" then parseIso(endDate.value) else start
  }

  function Format(s: TimeSlot, display: Instant -> string): FormattedSlot {
    FormattedSlot(s.start, s.end, display(s.start))
  }

  function FormatAll(slots: seq<TimeSlot>, display: Instant -> string): (r: seq<FormattedSlot>)
    ensures |r| == |slots|
    ensures forall i :: 0 <= i < |slots| ==> r[i] == Format(slots[i], display)
  {
    if slots == [] then [] else [Format(slots[0], display)] + FormatAll(slots[1..], display)
  }

  const NoSlotsMessage: string := "No available slots found in the requested timeframe"

  function Message(n: nat): string {
    if n > 0 then "Found " + NatToString(n) + " available time slots" else NoSlotsMessage
  }

  /** The tool over the appointments `appointments`; an Invalid Date makes the search throw. */
  function Run(rule: OverlapRule, appointments: seq<Appointment>, startDate: string, endDate: Option<string>, t: AppointmentType,
               now: Instant, parseIso: string -> Option<Instant>, display: Instant -> string): Result<Output>
  {
    var start := ResolveStart(startDate, now, parseIso);
    var end := ResolveEnd(endDate, start, parseIso);
    if start.None? || end.None? then Err("Invalid time value")
    else Ok(Search(rule, appointments, start.value, end.value, t, display))
  }

  /** The search once both dates have parsed: the first ten free slots from the start's midnight to the end's last millisecond. */
  function Search(rule: OverlapRule, appointments: seq<Appointment>, start: Instant, end: Instant, t: AppointmentType,
                  display: Instant -> string): Output
  {
    var shown := SliceTo(AvailableSlots(rule, appointments, StartOfDay(start), EndOfDay(end), t), 10);
    Output(FormatAll(shown, display), Message(|shown|))
  }

  /** The tool as a handler over the calendar store; the store is only read. */
  method CheckAvailability(rule: OverlapRule, store: CalendarStore, startDate: string, endDate: Option<string>, t: AppointmentType,
                           now: Instant, parseIso: string -> Option<Instant>, display: Instant -> string)
    returns (r: Result<Output>)
    ensures r == Run(rule, store.appointments, startDate, endDate, t, now, parseIso, display)
  {
    var start := ResolveStart(startDate, now, parseIso);
    var end := ResolveEnd(endDate, start, parseIso);
    if start.None? || end.None? {
      return Err("Invalid time value");
    }
    var slots := store.CheckAvailability(rule, StartOfDay(start.value), EndOfDay(end.value), t);
    var shown := SliceTo(slots, 10);
    r := Ok(Output(FormatAll(shown, display), Message(|shown|)));
  }

  /**
   * The result is an error exactly when the start or the end date is invalid;
   * otherwise it lists the first (at most ten) free slots of the searched range in
   * order, and the message announces a count exactly when the list is not empty.
   */
  lemma ResultShape(rule: OverlapRule, appointments: seq<Appointment>, startDate: string, endDate: Option<string>, t: AppointmentType,
                    now: Instant, parseIso: string -> Option<Instant>, display: Instant -> string)
    ensures var start := ResolveStart(startDate, now, parseIso);
      var end := ResolveEnd(endDate, start, parseIso);
      var r := Run(rule, appointments, startDate, endDate, t, now, parseIso, display);
      && (r.Err? <==> start.None? || end.None?)
      && (r.Ok? ==>
        var all := AvailableSlots(rule, appointments, StartOfDay(start.value), EndOfDay(end.value), t);
        && |r.value.availableSlots| == Min(10, |all|)
        && (forall i :: 0 <= i < |r.value.availableSlots| ==>
              r.value.availableSlots[i].start == all[i].start && r.value.availableSlots[i].end == all[i].end)
        && (forall i, j :: 0 <= i < j < |r.value.availableSlots| ==>
              r.value.availableSlots[i].end <= r.value.availableSlots[j].start)
        && (r.value.message == NoSlotsMessage <==> |all| == 0))
  {
    var start := ResolveStart(startDate, now, parseIso);
    var end := ResolveEnd(endDate, start, parseIso);
    if start.Some? && end.Some? {
      SearchShape(rule, appointments, start.value, end.value, t, display);
    }
  }

  /** `ResultShape` once both dates have parsed. */
  lemma SearchShape(rule: OverlapRule, appointments: seq<Appointment>, start: Instant, end: Instant, t: AppointmentType,
                    display: Instant -> string)
    ensures var all := AvailableSlots(rule, appointments, StartOfDay(start), EndOfDay(end), t);
      var out := Search(rule, appointments, start, end, t, display);
      && |out.availableSlots| == Min(10, |all|)
      && (forall i :: 0 <= i < |out.availableSlots| ==>
            out.availableSlots[i].start == all[i].start && out.availableSlots[i].end == all[i].end)
      && (forall i, j :: 0 <= i < j < |out.availableSlots| ==>
            out.availableSlots[i].end <= out.availableSlots[j].start)
      && (out.message == NoSlotsMessage <==> |all| == 0)
  {
    var all := AvailableSlots(rule, appointments, StartOfDay(start), EndOfDay(end), t);
    AvailableSlotsShape(rule, appointments, StartOfDay(start), EndOfDay(end), t);
    var shown := SliceTo(all, 10);
    assert forall i :: 0 <= i < |shown| ==> shown[i] == all[i];
    var n := |shown|;
    if n > 0 {
      assert Message(n)[0] == 'F';
    }
  }

  /**
   * "next <weekday>", in any letter case, resolves to the first such weekday
   * strictly after today: between one and seven days ahead, a full week when
   * today is that weekday.
   */
  lemma NextWeekdayResolves(startDate: string, now: Instant, parseIso: string -> Option<Instant>, index: int)
    requires 0 <= index < 7
    requires ToLower(startDate) == "next " + DaysOfWeek[index]
    ensures var start := ResolveStart(startDate, now, parseIso);
      && start.Some?
      && Weekday(start.value) == index
      && StartOfDay(now) + MsPerDay <= StartOfDay(start.value) <= StartOfDay(now) + 7 * MsPerDay
      && (Weekday(now) == index ==> start.value == AddDays(now, 7))
  {
    NextWeekdayPhrase(startDate, now, parseIso, index);
    NextWeekdayDate(now, index);
  }

  lemma NextWeekdayDate(now: Instant, index: int)
    requires 0 <= index < 7
    ensures var start := AddDays(now, DaysUntil(index, Weekday(now)));
      && Weekday(start) == index
      && StartOfDay(now) + MsPerDay <= StartOfDay(start) <= StartOfDay(now) + 7 * MsPerDay
      && (Weekday(now) == index ==> start == AddDays(now, 7))
  {
    var n := DaysUntil(index, Weekday(now));
    WeekdayAfter(now, n);
    assert MsPerDay <= n * MsPerDay <= 7 * MsPerDay;
  }

  /** The phrase picks the weekday by its position in `DaysOfWeek`. */
  lemma NextWeekdayPhrase(startDate: string, now: Instant, parseIso: string -> Option<Instant>, index: int)
    requires 0 <= index < 7
    requires ToLower(startDate) == "next " + DaysOfWeek[index]
    ensures ResolveStart(startDate, now, parseIso) == Some(AddDays(now, DaysUntil(index, Weekday(now))))
  {
    var lower := ToLower(startDate);
    assert StartsWith(lower, "next ");
    assert lower != "today" && lower != "tomorrow";
    WeekdayIndexOfPhrase(index);
  }

  lemma WeekdayIndexOfPhrase(index: int)
    requires 0 <= index < 7
    ensures WeekdayIndex("next " + DaysOfWeek[index]) == index
  {
    var lower := "next " + DaysOfWeek[index];
    var day := DaysOfWeek[index];
    ReplaceFirstAt(lower, "next ", "", 0);
    assert lower[5..] == day;
    var rest := ReplaceFirst(lower, "next ", "");
    assert rest == day;
    WeekdayNameTrimmed(index);
    assert Trim(rest) == day;
    DaysOfWeekDistinct();
    assert IndexOf(DaysOfWeek, day) == index;
  }

  lemma DaysOfWeekDistinct()
    ensures forall i, j :: 0 <= i < j < 7 ==> DaysOfWeek[i] != DaysOfWeek[j]
  {
    forall i, j | 0 <= i < j < 7
      ensures DaysOfWeek[i] != DaysOfWeek[j]
    {
      var a, b := DaysOfWeek[i], DaysOfWeek[j];
      assert a[0] != b[0] || a[1] != b[1];
    }
  }

  lemma WeekdayNameTrimmed(index: int)
    requires 0 <= index < 7
    ensures Trim(DaysOfWeek[index]) == DaysOfWeek[index]
  {
    var day := DaysOfWeek[index];
    assert !IsJsSpace(day[0]) && !IsJsSpace(day[|day| - 1]);
  }

  /**
   * Without an end date only the start date's own day is searched: every listed
   * slot is an hour long and lies within that day, whatever the overlap test.
   * Under the half-open test none intersects a scheduled or confirmed appointment
   * starting that day.
   */
  lemma NoEndDateSearchesOneDay(rule: OverlapRule, appointments: seq<Appointment>, startDate: string, t: AppointmentType,
                                now: Instant, parseIso: string -> Option<Instant>, display: Instant -> string)
    ensures var r := Run(rule, appointments, startDate, None, t, now, parseIso, display);
      r.Ok? ==>
        var day := StartOfDay(ResolveStart(startDate, now, parseIso).value);
        forall i :: 0 <= i < |r.value.availableSlots| ==>
          var s := r.value.availableSlots[i];
          && day <= s.start && s.end <= day + MsPerDay && s.end == s.start + MsPerHour
          && (rule == HalfOpen ==>
                forall a :: a in appointments && IsBooking(a, day, EndOfDay(day)) ==>
                  s.end <= a.dateTime.value || AppointmentEnd(a) <= s.start)
  {
    var start := ResolveStart(startDate, now, parseIso);
    if start.Some? {
      var day := StartOfDay(start.value);
      var end := EndOfDay(start.value);
      MidnightOfMidnight(start.value);
      var all := AvailableSlots(rule, appointments, day, end, t);
      ResultShape(rule, appointments, startDate, None, t, now, parseIso, display);
      SingleDaySearch(rule, appointments, start.value, t);
      AvailableSlotsShape(rule, appointments, day, end, t);
      if rule == HalfOpen {
        forall i, a | 0 <= i < Min(10, |all|) && a in appointments && IsBooking(a, day, end)
          ensures !OverlapsHalfOpen(all[i], a)
        {
          HalfOpenNeverOffersBookedTime(appointments, day, end, t, i, a);
        }
      }
    }
  }

  /**
   * The tool as written offers a booked hour: with a one-hour appointment at the
   * start of one of today's first ten business-hour slots, "today" under the
   * strict test lists that very slot, whatever the appointment's status, so a
   * scheduled appointment's hour is offered again.
   */
  lemma AsWrittenToolOffersBookedSlot(startDate: string, now: Instant, parseIso: string -> Option<Instant>,
                                      display: Instant -> string, t: AppointmentType, a: Appointment,
                                      k: int, booked: Instant)
    requires ToLower(startDate) == "today"
    requires 0 <= k < 10 && k < |DaySlots(now)| && booked == DaySlots(now)[k].start
    requires a.dateTime == Some(booked) && a.duration == 60
    ensures var r := Run(AsWritten, [a], startDate, None, t, now, parseIso, display);
      r.Ok? && FormattedSlot(booked, booked + MsPerHour, display(booked)) in r.value.availableSlots
  {
    RunToday(AsWritten, [a], startDate, t, now, parseIso, display);
    StrictListsBookedHour(now, display, t, a, k, booked);
  }

  /**
   * The same search under the half-open test: a scheduled one-hour appointment at
   * the start of a slot of today keeps that slot off the tool's list.
   */
  lemma HalfOpenToolWithholdsBookedSlot(startDate: string, now: Instant, parseIso: string -> Option<Instant>,
                                        display: Instant -> string, t: AppointmentType, a: Appointment,
                                        k: int, booked: Instant)
    requires ToLower(startDate) == "today"
    requires 0 <= k < |DaySlots(now)| && booked == DaySlots(now)[k].start
    requires a.dateTime == Some(booked) && a.duration == 60 && a.status == Scheduled
    ensures var r := Run(HalfOpen, [a], startDate, None, t, now, parseIso, display);
      r.Ok? && forall i :: 0 <= i < |r.value.availableSlots| ==> r.value.availableSlots[i].start != booked
  {
    RunToday(HalfOpen, [a], startDate, t, now, parseIso, display);
    HalfOpenWithholdsBookedHour(now, display, t, a, k, booked);
  }

  /** "today" without an end date searches today. */
  lemma RunToday(rule: OverlapRule, appointments: seq<Appointment>, startDate: string, t: AppointmentType,
                 now: Instant, parseIso: string -> Option<Instant>, display: Instant -> string)
    requires ToLower(startDate) == "today"
    ensures ResolveStart(startDate, now, parseIso) == Some(now)
    ensures Run(rule, appointments, startDate, None, t, now, parseIso, display) == Ok(Search(rule, appointments, now, now, t, display))
  {
  }

  /** A free slot among the day's first ten is listed by the tool with its display time. */
  lemma ListedWithinTen(rule: OverlapRule, appointments: seq<Appointment>, day: Instant, t: AppointmentType,
                        display: Instant -> string, k: int, start: Instant)
    requires 0 <= k < 10 && k < |AvailableSlots(rule, appointments, StartOfDay(day), EndOfDay(day), t)|
    requires AvailableSlots(rule, appointments, StartOfDay(day), EndOfDay(day), t)[k].start == start
    requires AvailableSlots(rule, appointments, StartOfDay(day), EndOfDay(day), t)[k].end == start + MsPerHour
    ensures FormattedSlot(start, start + MsPerHour, display(start)) in Search(rule, appointments, day, day, t, display).availableSlots
  {
    var all := AvailableSlots(rule, appointments, StartOfDay(day), EndOfDay(day), t);
    var shown := SliceTo(all, 10);
    assert shown[k] == all[k];
    assert FormatAll(shown, display)[k] == FormattedSlot(start, start + MsPerHour, display(start));
  }

  lemma StrictListsBookedHour(now: Instant, display: Instant -> string, t: AppointmentType, a: Appointment,
                              k: int, booked: Instant)
    requires 0 <= k < 10 && k < |DaySlots(now)| && booked == DaySlots(now)[k].start
    requires a.dateTime == Some(booked) && a.duration == 60
    ensures FormattedSlot(booked, booked + MsPerHour, display(booked)) in Search(AsWritten, [a], now, now, t, display).availableSlots
  {
    BookedHourKept(now, a, t, k, booked);
    ListedWithinTen(AsWritten, [a], now, t, display, k, booked);
  }

  lemma BookedHourKept(now: Instant, a: Appointment, t: AppointmentType, k: int, booked: Instant)
    requires 0 <= k < |DaySlots(now)| && booked == DaySlots(now)[k].start
    requires a.dateTime == Some(booked) && a.duration == 60
    ensures var all := AvailableSlots(AsWritten, [a], StartOfDay(now), EndOfDay(now), t);
      k < |all| && all[k].start == booked && all[k].end == booked + MsPerHour
  {
    DaySlotsShape(now);
    var hour := BusinessHours(Weekday(now)).start + k;
    assert booked == StartOfDay(now) + hour * MsPerHour;
    AsWrittenListsWholeDay(now, hour, a, t);
  }

  lemma HalfOpenWithholdsBookedHour(now: Instant, display: Instant -> string, t: AppointmentType, a: Appointment,
                                    k: int, booked: Instant)
    requires 0 <= k < |DaySlots(now)| && booked == DaySlots(now)[k].start
    requires a.dateTime == Some(booked) && a.duration == 60 && a.status == Scheduled
    ensures var listed := Search(HalfOpen, [a], now, now, t, display).availableSlots;
      forall i :: 0 <= i < |listed| ==> listed[i].start != booked
  {
    var day := StartOfDay(now);
    var end := EndOfDay(now);
    DaySlotsShape(now);
    var all := AvailableSlots(HalfOpen, [a], day, end, t);
    AvailableSlotsShape(HalfOpen, [a], day, end, t);
    assert IsBooking(a, day, end);
    assert a in [a];
    forall i | 0 <= i < |all|
      ensures all[i].start != booked
    {
      HalfOpenNeverOffersBookedTime([a], day, end, t, i, a);
    }
    var shown := SliceTo(all, 10);
    assert forall i :: 0 <= i < |shown| ==> shown[i] == all[i];
  }
}
