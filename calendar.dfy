/**
 * The `appointments` collection and the scheduling service of
 * backend/src/services/calendar.service.ts: business hours per weekday cut into
 * hourly slots, the overlap test against booked appointments, booking with its
 * defaults, and the queries used by the reminder flow.
 *
 * The overlap test of the source misses appointments that share a boundary with a
 * slot (see `OverlapRule`); the sweep is parametrised by the rule so that both the
 * code as written and the corrected half-open test can be stated and compared.
 */
module Calendar {
  import opened Wrappers
  import opened Seqs
  import opened Time
  import opened BackendTypes

  /** Opening hours of one day, as whole hours [start, end). */
  datatype Hours = Hours(start: int, end: int)

  /** `businessHours`: Sunday 10–12, Saturday 8–14, every other day 6–21. */
  function BusinessHours(weekday: int): Hours {
    if weekday == 0 then Hours(10, 12)
    else if weekday == 6 then Hours(8, 14)
    else Hours(6, 21)
  }

  /** The one-hour slot starting at `hour` on the day whose midnight is `midnight`. */
  function HourSlot(midnight: Instant, hour: int): TimeSlot {
    TimeSlot(midnight + hour * MsPerHour, midnight + (hour + 1) * MsPerHour, true, None)
  }

  /** The slots for the hours [first, last), pushed in increasing hour order. */
  function HourSlots(midnight: Instant, first: int, last: int): (r: seq<TimeSlot>)
    ensures |r| == (if last > first then last - first else 0)
    decreases last - first
  {
    if last <= first then [] else HourSlots(midnight, first, last - 1) + [HourSlot(midnight, last - 1)]
  }

  lemma {:induction false} HourSlotsIndex(midnight: Instant, first: int, last: int, k: int)
    requires 0 <= k < last - first
    ensures HourSlots(midnight, first, last)[k] == HourSlot(midnight, first + k)
    decreases last - first
  {
    if k < last - 1 - first {
      HourSlotsIndex(midnight, first, last - 1, k);
    }
  }

  /** `generateDaySlots`: the business-hour slots of the day containing `date`. */
  function DaySlots(date: Instant): seq<TimeSlot> {
    var hours := BusinessHours(Weekday(date));
    HourSlots(StartOfDay(date), hours.start, hours.end)
  }

  method GenerateDaySlots(date: Instant) returns (slots: seq<TimeSlot>)
    ensures slots == DaySlots(date)
  {
    var weekday := Weekday(date);
    var hours: Hours;
    if weekday == 0 {
      hours := Hours(10, 12);
    } else if weekday == 6 {
      hours := Hours(8, 14);
    } else {
      hours := Hours(6, 21);
    }
    slots := [];
    var hour := hours.start;
    while hour < hours.end
      invariant hours.start <= hour <= hours.end
      invariant slots == HourSlots(StartOfDay(date), hours.start, hour)
      decreases hours.end - hour
    {
      slots := slots + [HourSlot(StartOfDay(date), hour)];
      hour := hour + 1;
    }
  }

  /**
   * Sundays have 2 slots, Saturdays 6 and the other days 15; every slot is
   * available, lasts one hour, lies within the day and starts on the hour.
   */
  lemma DaySlotsShape(date: Instant)
    ensures |DaySlots(date)| == (if Weekday(date) == 0 then 2 else if Weekday(date) == 6 then 6 else 15)
    ensures forall k :: 0 <= k < |DaySlots(date)| ==>
      var s := DaySlots(date)[k];
      && s.available && s.slotType.None?
      && s.end - s.start == MsPerHour
      && StartOfDay(date) <= s.start && s.end <= StartOfDay(date) + MsPerDay
      && s.start == StartOfDay(date) + (BusinessHours(Weekday(date)).start + k) * MsPerHour
  {
    var hours := BusinessHours(Weekday(date));
    forall k | 0 <= k < |DaySlots(date)|
      ensures DaySlots(date)[k] == HourSlot(StartOfDay(date), hours.start + k)
    {
      HourSlotsIndex(StartOfDay(date), hours.start, hours.end, k);
    }
  }

  // ---- the overlap test ----

  /** `addHours(start, duration / 60)`: the appointment ends `duration` minutes after it starts. */
  function AppointmentEnd(a: Appointment): Instant
    requires a.dateTime.Some?
  {
    a.dateTime.value + a.duration * MsPerMinute
  }

  /**
   * The three strict clauses of the source: the slot's start lies strictly inside
   * the appointment, or its end does, or the slot strictly contains the appointment.
   * An Invalid Date fails every comparison.
   */
  predicate OverlapsAsWritten(slot: TimeSlot, a: Appointment) {
    a.dateTime.Some? &&
    ((slot.start > a.dateTime.value && slot.start < AppointmentEnd(a))
     || (slot.end > a.dateTime.value && slot.end < AppointmentEnd(a))
     || (slot.start < a.dateTime.value && slot.end > AppointmentEnd(a)))
  }

  /** Two half-open intervals [slot.start, slot.end) and [start, end) intersect. */
  predicate OverlapsHalfOpen(slot: TimeSlot, a: Appointment) {
    a.dateTime.Some? && slot.start < AppointmentEnd(a) && a.dateTime.value < slot.end
  }

  datatype OverlapRule = AsWritten | HalfOpen

  predicate Blocks(rule: OverlapRule, slot: TimeSlot, a: Appointment) {
    match rule
    case AsWritten => OverlapsAsWritten(slot, a)
    case HalfOpen => OverlapsHalfOpen(slot, a)
  }

  /** `bookedSlots.some(...)`. */
  predicate IsBooked(rule: OverlapRule, slot: TimeSlot, booked: seq<Appointment>) {
    exists i :: 0 <= i < |booked| && Blocks(rule, slot, booked[i])
  }

  /** Every clause of the source's test implies the half-open overlap: it never blocks a free slot. */
  lemma AsWrittenImpliesHalfOpen(slot: TimeSlot, a: Appointment)
    requires slot.start < slot.end && a.duration >= 0
    ensures OverlapsAsWritten(slot, a) ==> OverlapsHalfOpen(slot, a)
  {
  }

  /**
   * An appointment occupying exactly the slot (same start, same end) is missed by
   * the source's strict test, although the two intervals overlap.
   */
  lemma AsWrittenMissesExactMatch(slot: TimeSlot, a: Appointment)
    requires slot.start < slot.end
    requires a.dateTime == Some(slot.start) && AppointmentEnd(a) == slot.end
    ensures !OverlapsAsWritten(slot, a)
    ensures OverlapsHalfOpen(slot, a)
  {
  }

  // ---- checkAvailability ----

  /** `getBookedAppointments`: scheduled or confirmed appointments starting within [start, end]. */
  predicate IsBooking(a: Appointment, start: Instant, end: Instant) {
    (a.status == Scheduled || a.status == Confirmed) && a.dateTime.Some? && start <= a.dateTime.value <= end
  }

  function BookedBetween(appointments: seq<Appointment>, start: Instant, end: Instant): seq<Appointment> {
    Filter(appointments, a => IsBooking(a, start, end))
  }

  /** A generated slot as pushed: available unless booked, tagged with the requested type. */
  function Marked(rule: OverlapRule, slot: TimeSlot, booked: seq<Appointment>, t: AppointmentType): TimeSlot {
    slot.(available := !IsBooked(rule, slot, booked), slotType := Some(t))
  }

  function MarkAll(rule: OverlapRule, slots: seq<TimeSlot>, booked: seq<Appointment>, t: AppointmentType): (r: seq<TimeSlot>)
    ensures |r| == |slots|
    ensures forall k :: 0 <= k < |slots| ==> r[k] == Marked(rule, slots[k], booked, t)
  {
    if slots == [] then [] else MarkAll(rule, slots[..|slots| - 1], booked, t) + [Marked(rule, slots[|slots| - 1], booked, t)]
  }

  /** The `while (isBefore(currentDate, endDate))` loop: one day of slots per step. */
  function Sweep(rule: OverlapRule, current: Instant, end: Instant, booked: seq<Appointment>, t: AppointmentType): seq<TimeSlot>
    decreases end - current
  {
    if current >= end then []
    else MarkAll(rule, DaySlots(current), booked, t) + Sweep(rule, AddDays(current, 1), end, booked, t)
  }

  predicate IsOpen(s: TimeSlot) { s.available }

  /** The specification of `checkAvailability`: the swept slots that are not booked. */
  function AvailableSlots(rule: OverlapRule, appointments: seq<Appointment>, start: Instant, end: Instant,
                          t: AppointmentType): seq<TimeSlot>
  {
    Filter(Sweep(rule, start, end, BookedBetween(appointments, start, end), t), IsOpen)
  }

  predicate Chronological(slots: seq<TimeSlot>) {
    forall i, j :: 0 <= i < j < |slots| ==> slots[i].end <= slots[j].start
  }

  predicate AllFrom(slots: seq<TimeSlot>, first: Instant) {
    forall i :: 0 <= i < |slots| ==> first <= slots[i].start
  }

  predicate AllBefore(slots: seq<TimeSlot>, bound: Instant) {
    forall i :: 0 <= i < |slots| ==> slots[i].end <= bound
  }

  /** The slot as `generateDaySlots` made it, before it was marked. */
  function Unmarked(s: TimeSlot): TimeSlot {
    s.(available := true, slotType := None)
  }

  /** A one-hour slot of the requested type, available exactly when no booking blocks it. */
  predicate MarkedFor(rule: OverlapRule, s: TimeSlot, booked: seq<Appointment>, t: AppointmentType) {
    && s.slotType == Some(t)
    && s.end - s.start == MsPerHour
    && s.available == !IsBooked(rule, Unmarked(s), booked)
  }

  lemma ChronologicalConcat(a: seq<TimeSlot>, b: seq<TimeSlot>, bound: Instant)
    requires Chronological(a) && Chronological(b)
    requires AllBefore(a, bound) && AllFrom(b, bound)
    ensures Chronological(a + b)
  {
    forall i, j | 0 <= i < j < |a + b|
      ensures (a + b)[i].end <= (a + b)[j].start
    {
      if j < |a| {
        assert (a + b)[i] == a[i] && (a + b)[j] == a[j];
      } else if i < |a| {
        assert (a + b)[i] == a[i] && (a + b)[j] == b[j - |a|];
      } else {
        assert (a + b)[i] == b[i - |a|] && (a + b)[j] == b[j - |a|];
      }
    }
  }

  /** The facts about one day's slots that the sweep needs. */
  lemma DayFacts(date: Instant)
    ensures Chronological(DaySlots(date))
    ensures AllFrom(DaySlots(date), StartOfDay(date))
    ensures AllBefore(DaySlots(date), StartOfDay(date) + MsPerDay)
    ensures forall i :: 0 <= i < |DaySlots(date)| ==>
      Unmarked(DaySlots(date)[i]) == DaySlots(date)[i] && DaySlots(date)[i].end - DaySlots(date)[i].start == MsPerHour
  {
    DaySlotsShape(date);
  }

  /** Marking keeps every slot's times, so it keeps the order, and makes each slot `MarkedFor`. */
  lemma MarkAllFacts(rule: OverlapRule, slots: seq<TimeSlot>, booked: seq<Appointment>, t: AppointmentType, lo: Instant, hi: Instant)
    requires Chronological(slots) && AllFrom(slots, lo) && AllBefore(slots, hi)
    requires forall i :: 0 <= i < |slots| ==> Unmarked(slots[i]) == slots[i] && slots[i].end - slots[i].start == MsPerHour
    ensures var m := MarkAll(rule, slots, booked, t);
      Chronological(m) && AllFrom(m, lo) && AllBefore(m, hi)
      && forall i :: 0 <= i < |m| ==> MarkedFor(rule, m[i], booked, t)
  {
    var m := MarkAll(rule, slots, booked, t);
    forall i | 0 <= i < |m|
      ensures m[i].start == slots[i].start && m[i].end == slots[i].end
      ensures MarkedFor(rule, m[i], booked, t)
    {
      assert m[i] == Marked(rule, slots[i], booked, t);
      assert Unmarked(m[i]) == slots[i];
    }
  }

  lemma {:induction false} SweepChronological(rule: OverlapRule, current: Instant, end: Instant,
                                              booked: seq<Appointment>, t: AppointmentType)
    ensures Chronological(Sweep(rule, current, end, booked, t))
    ensures AllFrom(Sweep(rule, current, end, booked, t), StartOfDay(current))
    ensures forall i :: 0 <= i < |Sweep(rule, current, end, booked, t)| ==>
      MarkedFor(rule, Sweep(rule, current, end, booked, t)[i], booked, t)
    decreases end - current
  {
    if current < end {
      var next := AddDays(current, 1);
      SweepChronological(rule, next, end, booked, t);
      NextDay(current);
      var midnight := StartOfDay(current);
      DayFacts(current);
      MarkAllFacts(rule, DaySlots(current), booked, t, midnight, midnight + MsPerDay);
      var day := MarkAll(rule, DaySlots(current), booked, t);
      var rest := Sweep(rule, next, end, booked, t);
      assert Sweep(rule, current, end, booked, t) == day + rest;
      JoinDay(rule, day, rest, booked, t, midnight);
    }
  }

  /** A marked day followed by the marked days after it keeps order, the day's start bound and the marking. */
  lemma JoinDay(rule: OverlapRule, day: seq<TimeSlot>, rest: seq<TimeSlot>, booked: seq<Appointment>,
                t: AppointmentType, midnight: Instant)
    requires Chronological(day) && AllFrom(day, midnight) && AllBefore(day, midnight + MsPerDay)
    requires Chronological(rest) && AllFrom(rest, midnight + MsPerDay)
    requires forall i :: 0 <= i < |day| ==> MarkedFor(rule, day[i], booked, t)
    requires forall i :: 0 <= i < |rest| ==> MarkedFor(rule, rest[i], booked, t)
    ensures Chronological(day + rest) && AllFrom(day + rest, midnight)
    ensures forall i :: 0 <= i < |day + rest| ==> MarkedFor(rule, (day + rest)[i], booked, t)
  {
    ChronologicalConcat(day, rest, midnight + MsPerDay);
    forall i | 0 <= i < |day + rest|
      ensures midnight <= (day + rest)[i].start && MarkedFor(rule, (day + rest)[i], booked, t)
    {
      if i < |day| {
        assert (day + rest)[i] == day[i];
      } else {
        assert (day + rest)[i] == rest[i - |day|];
      }
    }
  }

  /**
   * What `checkAvailability` returns: slots in chronological order, each marked
   * available, tagged with the requested type, one hour long, and not booked under
   * the rule.
   */
  lemma AvailableSlotsShape(rule: OverlapRule, appointments: seq<Appointment>, start: Instant, end: Instant,
                            t: AppointmentType)
    ensures var r := AvailableSlots(rule, appointments, start, end, t);
      forall i :: 0 <= i < |r| ==>
        && r[i].available && r[i].slotType == Some(t)
        && r[i].end - r[i].start == MsPerHour
        && !IsBooked(rule, Unmarked(r[i]), BookedBetween(appointments, start, end))
    ensures Chronological(AvailableSlots(rule, appointments, start, end, t))
  {
    var booked := BookedBetween(appointments, start, end);
    SweepChronological(rule, start, end, booked, t);
    var all := Sweep(rule, start, end, booked, t);
    var r := AvailableSlots(rule, appointments, start, end, t);
    FilterChronological(all);
    forall i | 0 <= i < |r|
      ensures r[i].available && MarkedFor(rule, r[i], booked, t)
    {
      assert r[i] in all;
    }
  }

  /** Filtering keeps the relative order of the slots it keeps. */
  lemma {:induction false} FilterChronological(all: seq<TimeSlot>)
    requires Chronological(all)
    ensures Chronological(Filter(all, IsOpen))
  {
    if all != [] {
      var tail := all[1..];
      assert Chronological(tail);
      FilterChronological(tail);
      var ft := Filter(tail, IsOpen);
      assert Filter(all, IsOpen) == (if all[0].available then [all[0]] else []) + ft;
      forall i | 0 <= i < |ft|
        ensures all[0].end <= ft[i].start
      {
        var j :| 0 <= j < |tail| && tail[j] == ft[i];
        assert all[j + 1] == tail[j];
      }
      if all[0].available {
        ChronologicalConcat([all[0]], ft, all[0].end);
      }
    }
  }

  /**
   * Under the half-open rule no returned slot intersects any scheduled or confirmed
   * appointment that starts within the searched range.
   */
  lemma HalfOpenNeverOffersBookedTime(appointments: seq<Appointment>, start: Instant, end: Instant,
                                      t: AppointmentType, i: int, a: Appointment)
    requires 0 <= i < |AvailableSlots(HalfOpen, appointments, start, end, t)|
    requires a in appointments && IsBooking(a, start, end)
    ensures !OverlapsHalfOpen(AvailableSlots(HalfOpen, appointments, start, end, t)[i], a)
  {
    AvailableSlotsShape(HalfOpen, appointments, start, end, t);
    var booked := BookedBetween(appointments, start, end);
    var k :| 0 <= k < |appointments| && appointments[k] == a;
    assert a in booked;
    var m :| 0 <= m < |booked| && booked[m] == a;
    var s := AvailableSlots(HalfOpen, appointments, start, end, t)[i];
    assert !Blocks(HalfOpen, Unmarked(s), booked[m]);
  }

  /** A search from a day's midnight to its last millisecond sweeps that day alone. */
  lemma SingleDaySearch(rule: OverlapRule, appointments: seq<Appointment>, date: Instant, t: AppointmentType)
    ensures var day := StartOfDay(date);
      var r := AvailableSlots(rule, appointments, day, EndOfDay(date), t);
      forall i :: 0 <= i < |r| ==> day <= r[i].start && r[i].end <= day + MsPerDay
  {
    var day := StartOfDay(date);
    var end := EndOfDay(date);
    var booked := BookedBetween(appointments, day, end);
    MidnightOfMidnight(date);
    SweepOneDay(rule, day, end, booked, t);
    var marked := MarkAll(rule, DaySlots(day), booked, t);
    DayFacts(day);
    MarkAllFacts(rule, DaySlots(day), booked, t, day, day + MsPerDay);
    var r := Filter(marked, IsOpen);
    forall i | 0 <= i < |r|
      ensures day <= r[i].start && r[i].end <= day + MsPerDay
    {
      assert r[i] in marked;
    }
  }

  /** A range shorter than a day from a starting instant sweeps that instant's day only. */
  lemma SweepOneDay(rule: OverlapRule, current: Instant, end: Instant, booked: seq<Appointment>, t: AppointmentType)
    requires current < end <= AddDays(current, 1)
    ensures Sweep(rule, current, end, booked, t) == MarkAll(rule, DaySlots(current), booked, t)
  {
    assert Sweep(rule, AddDays(current, 1), end, booked, t) == [];
    assert Sweep(rule, current, end, booked, t)
        == MarkAll(rule, DaySlots(current), booked, t) + Sweep(rule, AddDays(current, 1), end, booked, t);
    assert MarkAll(rule, DaySlots(current), booked, t) + [] == MarkAll(rule, DaySlots(current), booked, t);
  }

  /**
   * The double booking the strict test allows: on any day, a scheduled one-hour
   * appointment at the start of a business hour leaves that very slot on offer,
   * while the half-open test withholds it.
   */
  lemma AsWrittenOffersBookedSlot(day: Instant, hour: int, a: Appointment, t: AppointmentType)
    requires day == StartOfDay(day)
    requires BusinessHours(Weekday(day)).start <= hour < BusinessHours(Weekday(day)).end
    requires a.dateTime == Some(day + hour * MsPerHour) && a.duration == 60 && a.status == Scheduled
    ensures TimeSlot(day + hour * MsPerHour, day + (hour + 1) * MsPerHour, true, Some(t))
              in AvailableSlots(AsWritten, [a], day, EndOfDay(day), t)
    ensures TimeSlot(day + hour * MsPerHour, day + (hour + 1) * MsPerHour, true, Some(t))
              !in AvailableSlots(HalfOpen, [a], day, EndOfDay(day), t)
  {
    var end := EndOfDay(day);
    DayBounds(day);
    var booked := BookedBetween([a], day, end);
    assert IsBooking(a, day, end);
    assert a in booked;
    assert booked == [a];
    var hours := BusinessHours(Weekday(day));
    var k := hour - hours.start;
    HourSlotsIndex(StartOfDay(day), hours.start, hours.end, k);
    var slot := HourSlot(day, hour);
    assert DaySlots(day)[k] == slot;
    assert !IsBooked(AsWritten, slot, booked) by {
      AsWrittenMissesExactMatch(slot, a);
    }
    assert IsBooked(HalfOpen, slot, booked) by {
      assert Blocks(HalfOpen, slot, booked[0]);
    }
    var offered := TimeSlot(day + hour * MsPerHour, day + (hour + 1) * MsPerHour, true, Some(t));
    var sweepW := Sweep(AsWritten, day, end, booked, t);
    assert sweepW[k] == Marked(AsWritten, slot, booked, t) == offered;
    assert offered in Filter(sweepW, IsOpen);
    AvailableSlotsShape(HalfOpen, [a], day, end, t);
    var r := AvailableSlots(HalfOpen, [a], day, end, t);
    assert Unmarked(offered) == slot;
    forall i | 0 <= i < |r|
      ensures Unmarked(r[i]) != slot
    {
    }
  }

  /** Two one-hour intervals on the hour are never in strict overlap. */
  lemma OnTheHourNoStrictOverlap(s: TimeSlot, a: Appointment, midnight: Instant, h: int, hour: int)
    requires s.start == midnight + h * MsPerHour && s.end == s.start + MsPerHour
    requires a.dateTime == Some(midnight + hour * MsPerHour) && a.duration == 60
    ensures !OverlapsAsWritten(s, a)
  {
    assert AppointmentEnd(a) == midnight + (hour + 1) * MsPerHour;
    if h < hour {
      assert s.end <= a.dateTime.value;
    } else if h > hour {
      assert s.start >= AppointmentEnd(a);
    }
  }

  /** A rule that blocks no slot of a list marks them all available: the filter keeps the list. */
  lemma NothingBlockedKeepsAll(rule: OverlapRule, slots: seq<TimeSlot>, booked: seq<Appointment>, t: AppointmentType)
    requires forall k :: 0 <= k < |slots| ==> !IsBooked(rule, slots[k], booked)
    ensures Filter(MarkAll(rule, slots, booked, t), IsOpen) == MarkAll(rule, slots, booked, t)
  {
    FilterKeepsAll(MarkAll(rule, slots, booked, t), IsOpen);
  }

  /**
   * Under the strict test a one-hour appointment on the hour blocks nothing: a
   * search over its day lists every business-hour slot of that day, in order,
   * the booked one included.
   */
  lemma AsWrittenListsWholeDay(date: Instant, hour: int, a: Appointment, t: AppointmentType)
    requires a.dateTime == Some(StartOfDay(date) + hour * MsPerHour) && a.duration == 60
    ensures var r := AvailableSlots(AsWritten, [a], StartOfDay(date), EndOfDay(date), t);
      && |r| == |DaySlots(date)|
      && forall k :: 0 <= k < |r| ==> r[k].start == DaySlots(date)[k].start && r[k].end == DaySlots(date)[k].end
  {
    var slots := DaySlots(date);
    var open := BusinessHours(Weekday(date)).start;
    DaySlotsShape(date);
    forall k, i | 0 <= k < |slots| && 0 <= i < |[a]|
      ensures !Blocks(AsWritten, slots[k], [a][i])
    {
      OnTheHourNoStrictOverlap(slots[k], a, StartOfDay(date), open + k, hour);
    }
    UnblockedDayListed(AsWritten, [a], date, t);
  }

  /** When no appointment blocks any slot of a day, the search over that day lists the whole day. */
  lemma UnblockedDayListed(rule: OverlapRule, appointments: seq<Appointment>, date: Instant, t: AppointmentType)
    requires forall k, i :: 0 <= k < |DaySlots(date)| && 0 <= i < |appointments| ==>
      !Blocks(rule, DaySlots(date)[k], appointments[i])
    ensures var r := AvailableSlots(rule, appointments, StartOfDay(date), EndOfDay(date), t);
      && |r| == |DaySlots(date)|
      && forall k :: 0 <= k < |r| ==> r[k].start == DaySlots(date)[k].start && r[k].end == DaySlots(date)[k].end
  {
    var day := StartOfDay(date);
    var end := EndOfDay(date);
    MidnightOfMidnight(date);
    assert DaySlots(day) == DaySlots(date);
    var booked := BookedBetween(appointments, day, end);
    SweepOneDay(rule, day, end, booked, t);
    var slots := DaySlots(date);
    forall k | 0 <= k < |slots|
      ensures !IsBooked(rule, slots[k], booked)
    {
      forall m | 0 <= m < |booked|
        ensures !Blocks(rule, slots[k], booked[m])
      {
        assert booked[m] in appointments;
      }
    }
    NothingBlockedKeepsAll(rule, slots, booked, t);
  }

  /** The inner loop of `checkAvailability`: mark each of one day's slots in turn. */
  method MarkDay(rule: OverlapRule, daySlots: seq<TimeSlot>, booked: seq<Appointment>, t: AppointmentType)
    returns (marked: seq<TimeSlot>)
    ensures marked == MarkAll(rule, daySlots, booked, t)
  {
    marked := [];
    var k := 0;
    while k < |daySlots|
      invariant 0 <= k <= |daySlots|
      invariant marked == MarkAll(rule, daySlots[..k], booked, t)
    {
      assert daySlots[..k + 1][..k] == daySlots[..k];
      var slot := daySlots[k];
      var isBooked := IsBooked(rule, slot, booked);
      marked := marked + [slot.(available := !isBooked, slotType := Some(t))];
      k := k + 1;
    }
    assert daySlots[..|daySlots|] == daySlots;
  }

  /** The outer loop of `checkAvailability`: one day of marked slots per step. */
  method SweepDays(rule: OverlapRule, startDate: Instant, endDate: Instant, booked: seq<Appointment>, t: AppointmentType)
    returns (marked: seq<TimeSlot>)
    ensures marked == Sweep(rule, startDate, endDate, booked, t)
  {
    marked := [];
    var current := startDate;
    while current < endDate
      invariant marked + Sweep(rule, current, endDate, booked, t) == Sweep(rule, startDate, endDate, booked, t)
      decreases endDate - current
    {
      var daySlots := GenerateDaySlots(current);
      var dayMarked := MarkDay(rule, daySlots, booked, t);
      marked := marked + dayMarked;
      current := AddDays(current, 1);
    }
  }

  class CalendarStore {
    var appointments: seq<Appointment>

    constructor ()
      ensures appointments == []
    {
      appointments := [];
    }

    /**
     * `checkAvailability`: walks the days first `startDate` while before `endDate`,
     * marks every business-hour slot against the bookings of the range, and keeps
     * the available ones. The store is not changed.
     */
    method CheckAvailability(rule: OverlapRule, startDate: Instant, endDate: Instant, t: AppointmentType)
      returns (slots: seq<TimeSlot>)
      ensures slots == AvailableSlots(rule, appointments, startDate, endDate, t)
    {
      var booked := BookedBetween(appointments, startDate, endDate);
      var marked := SweepDays(rule, startDate, endDate, booked, t);
      slots := Filter(marked, IsOpen);
    }

    /**
     * `bookAppointment`: appends a scheduled appointment with `reminderSent = false`
     * and a duration of 60 minutes when none (or 0) is given, and returns its new
     * id. Neither the date nor availability is checked: a string that is no date is
     * stored as well. A failed write stores nothing.
     */
    method BookAppointment(userId: string, dateTime: Option<Instant>, t: AppointmentType, duration: Option<int>,
                           notes: Option<string>, newId: Option<string>, now: Instant)
      returns (r: Result<string>)
      modifies this
      ensures newId.None? ==> r.Err? && appointments == old(appointments)
      ensures newId.Some? ==> r == Ok(newId.value)
      ensures newId.Some? ==>
        appointments == old(appointments) + [NewAppointment(newId.value, userId, dateTime, t, duration, notes, now)]
    {
      if newId.None? {
        return Err("write failed");
      }
      appointments := appointments + [NewAppointment(newId.value, userId, dateTime, t, duration, notes, now)];
      r := Ok(newId.value);
    }

    /**
     * `markReminderSent`: sets the flag of the appointment with that id; an
     * unknown id fails, and so does a Firestore `update` that throws (`written`
     * is false), both changing nothing.
     */
    method MarkReminderSent(id: string, written: bool) returns (r: Result<()>)
      modifies this
      ensures IndexOfAppointment(old(appointments), id) == -1 || !written ==>
        r.Err? && appointments == old(appointments)
      ensures IndexOfAppointment(old(appointments), id) >= 0 && written ==>
        var k := IndexOfAppointment(old(appointments), id);
        && r.Ok?
        && appointments == old(appointments)[k := old(appointments)[k].(reminderSent := true)]
    {
      var k := IndexOfAppointment(appointments, id);
      if k == -1 {
        return Err("NOT_FOUND");
      }
      if !written {
        return Err("write failed");
      }
      appointments := appointments[k := appointments[k].(reminderSent := true)];
      r := Ok(());
    }
  }

  /** The appointment record `bookAppointment` writes. */
  function NewAppointment(id: string, userId: string, dateTime: Option<Instant>, t: AppointmentType, duration: Option<int>,
                          notes: Option<string>, now: Instant): (a: Appointment)
    ensures a.status == Scheduled && !a.reminderSent
    ensures a.duration == if duration.None? || duration.value == 0 then 60 else duration.value
    ensures a.userId == userId && a.dateTime == dateTime && a.appointmentType == t && a.createdAt == now
  {
    Appointment(id, userId, t, dateTime, if duration.None? || duration.value == 0 then 60 else duration.value,
                Scheduled, notes, false, now)
  }

  function IndexOfAppointment(appointments: seq<Appointment>, id: string): (r: int)
    ensures -1 <= r < |appointments|
    ensures r == -1 <==> forall i :: 0 <= i < |appointments| ==> appointments[i].id != id
    ensures r >= 0 ==> appointments[r].id == id && forall i :: 0 <= i < r ==> appointments[i].id != id
  {
    FirstWhere(appointments, (a: Appointment) => a.id == id)
  }

  /**
   * What a booking means to the readers of the calendar: an appointment booked at
   * a date that parses is fetched by every availability search whose range holds
   * its start, and, under the half-open test, withdraws every slot it intersects;
   * it is due for a reminder exactly when it starts inside the reminder window.
   * One booked at a string that is no date is never fetched by either.
   */
  lemma BookingIsSeen(appointments: seq<Appointment>, id: string, userId: string, dateTime: Option<Instant>,
                      t: AppointmentType, duration: Option<int>, notes: Option<string>, now: Instant,
                      start: Instant, end: Instant, slotType: AppointmentType, clock: Instant, hoursAhead: int)
    requires duration.Some? ==> duration.value >= 0
    ensures var a := NewAppointment(id, userId, dateTime, t, duration, notes, now);
      var after := appointments + [a];
      && (dateTime.Some? && start <= dateTime.value <= end ==>
            a in BookedBetween(after, start, end)
            && forall i :: 0 <= i < |AvailableSlots(HalfOpen, after, start, end, slotType)| ==>
                 var s := AvailableSlots(HalfOpen, after, start, end, slotType)[i];
                 s.end <= dateTime.value || AppointmentEnd(a) <= s.start)
      && (dateTime.None? ==> a !in BookedBetween(after, start, end)
                             && a !in AppointmentsForReminder(after, clock, hoursAhead))
      && (a in AppointmentsForReminder(after, clock, hoursAhead) <==>
            dateTime.Some? && clock < dateTime.value < clock + hoursAhead * MsPerHour)
  {
    var a := NewAppointment(id, userId, dateTime, t, duration, notes, now);
    var after := appointments + [a];
    assert a in after;
    if dateTime.Some? && start <= dateTime.value <= end {
      forall i | 0 <= i < |AvailableSlots(HalfOpen, after, start, end, slotType)|
        ensures var s := AvailableSlots(HalfOpen, after, start, end, slotType)[i];
          s.end <= dateTime.value || AppointmentEnd(a) <= s.start
      {
        HalfOpenNeverOffersBookedTime(after, start, end, slotType, i, a);
      }
    }
  }

  /**
   * `getAppointmentsForReminder`: scheduled appointments without a reminder that
   * start strictly between now and now + hoursAhead hours.
   */
  predicate DueForReminder(a: Appointment, now: Instant, hoursAhead: int) {
    a.dateTime.Some? && now < a.dateTime.value < now + hoursAhead * MsPerHour && !a.reminderSent && a.status == Scheduled
  }

  function AppointmentsForReminder(appointments: seq<Appointment>, now: Instant, hoursAhead: int): seq<Appointment> {
    Filter(appointments, a => DueForReminder(a, now, hoursAhead))
  }

  /** Once its reminder is marked, an appointment is no longer due: the sweep does not repeat it. */
  lemma MarkedNotDueAgain(appointments: seq<Appointment>, k: int, now: Instant, hoursAhead: int)
    requires 0 <= k < |appointments|
    ensures var after := appointments[k := appointments[k].(reminderSent := true)];
      forall i :: 0 <= i < |AppointmentsForReminder(after, now, hoursAhead)| ==>
        AppointmentsForReminder(after, now, hoursAhead)[i] != after[k]
  {
  }
}
