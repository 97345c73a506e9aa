/**
 * Instants as integer milliseconds since 1970-01-01T00:00Z, the unit of JavaScript's
 * `Date`. The server's local time zone is taken to be UTC, so local midnight, the
 * local weekday and the UTC calendar coincide.
 */
module Time {

  type Instant = int

  const MsPerMinute: int := 60_000
  const MsPerHour: int := 3_600_000
  const MsPerDay: int := 86_400_000

  /** Whole days since the epoch (floor division: Dafny's `/` with a positive divisor). */
  function Day(t: Instant): int { t / MsPerDay }

  /** date-fns `startOfDay`: local midnight of the instant's day. */
  function StartOfDay(t: Instant): Instant { Day(t) * MsPerDay }

  /** date-fns `endOfDay`: the last millisecond of the instant's day. */
  function EndOfDay(t: Instant): Instant { StartOfDay(t) + MsPerDay - 1 }

  /** `Date.getDay()`: 0 is Sunday and 6 is Saturday; 1970-01-01 was a Thursday (4). */
  function Weekday(t: Instant): (w: int)
    ensures 0 <= w < 7
  {
    (Day(t) + 4) % 7
  }

  /** date-fns `addDays`. */
  function AddDays(t: Instant, n: int): Instant { t + n * MsPerDay }

  lemma DayBounds(t: Instant)
    ensures StartOfDay(t) <= t <= EndOfDay(t)
  {
  }

  /** A midnight is the start of its own day. */
  lemma MidnightOfMidnight(t: Instant)
    ensures Day(StartOfDay(t)) == Day(t)
    ensures StartOfDay(StartOfDay(t)) == StartOfDay(t)
    ensures EndOfDay(StartOfDay(t)) == EndOfDay(t)
  {
    assert (Day(t) * MsPerDay) / MsPerDay == Day(t);
  }

  /** Moving one day forward moves midnight by one day and the weekday by one (mod 7). */
  lemma NextDay(t: Instant)
    ensures Day(AddDays(t, 1)) == Day(t) + 1
    ensures StartOfDay(AddDays(t, 1)) == StartOfDay(t) + MsPerDay
    ensures Weekday(AddDays(t, 1)) == (Weekday(t) + 1) % 7
  {
    assert AddDays(t, 1) == t + MsPerDay;
  }

  /** Adding n whole days advances the day number by n. */
  lemma DayShift(t: Instant, n: int)
    ensures Day(AddDays(t, n)) == Day(t) + n
  {
    var q, r := t / MsPerDay, t % MsPerDay;
    assert AddDays(t, n) == (q + n) * MsPerDay + r && 0 <= r < MsPerDay;
  }

  /** Adding n whole days advances the weekday by n (mod 7). */
  lemma WeekdayAfter(t: Instant, n: nat)
    ensures Weekday(AddDays(t, n)) == (Weekday(t) + n) % 7
    ensures StartOfDay(AddDays(t, n)) == StartOfDay(t) + n * MsPerDay
  {
    DayShift(t, n);
    var d := Day(t) + 4;
    assert d == (d / 7) * 7 + d % 7;
    assert d + n == (d / 7) * 7 + (d % 7 + n);
  }
}
