/**
 * Go's `time.Time` in UTC, reduced to what the backend uses: an instant is a
 * number of nanoseconds since Go's zero time (January 1 of year 1, 00:00 UTC,
 * the instant `Time.IsZero` tests for), and a clock reading is the proleptic
 * Gregorian calendar date and time of day of `time.Now().UTC()`.
 */
module Clock {

  const Second: int := 1_000_000_000
  const Minute: int := 60_000_000_000
  const Hour: int := 3_600_000_000_000
  const Day: int := 86_400_000_000_000

  /** `time.Weekday` numbering: Sunday is 0, Monday is 1. */
  const Sunday: int := 0
  const Monday: int := 1

  predicate IsLeap(y: int) {
    y % 4 == 0 && (y % 100 != 0 || y % 400 == 0)
  }

  function DaysIn(y: int, m: int): (n: int)
    requires 1 <= m <= 12
    ensures 28 <= n <= 31
  {
    if m == 2 then (if IsLeap(y) then 29 else 28)
    else if m == 4 || m == 6 || m == 9 || m == 11 then 30
    else 31
  }

  function YearLength(y: int): int {
    if IsLeap(y) then 366 else 365
  }

  /** The days of year `y` before the first of month `m` (13 means the whole year). */
  function DaysBeforeMonth(y: int, m: int): (n: int)
    requires 1 <= m <= 13
    ensures n >= 0
  {
    if m == 1 then 0 else DaysBeforeMonth(y, m - 1) + DaysIn(y, m - 1)
  }

  /** The days from January 1 of year 1 to January 1 of year `y`. */
  function DaysBeforeYear(y: int): (n: int)
    requires y >= 1
    ensures n >= 0
  {
    if y == 1 then 0 else DaysBeforeYear(y - 1) + YearLength(y - 1)
  }

  lemma WholeYear(y: int)
    ensures DaysBeforeMonth(y, 13) == YearLength(y)
  {
    var f := DaysIn(y, 2);
    assert DaysBeforeMonth(y, 2) == 31;
    assert DaysBeforeMonth(y, 3) == 31 + f;
    assert DaysBeforeMonth(y, 4) == 62 + f;
    assert DaysBeforeMonth(y, 5) == 92 + f;
    assert DaysBeforeMonth(y, 6) == 123 + f;
    assert DaysBeforeMonth(y, 7) == 153 + f;
    assert DaysBeforeMonth(y, 8) == 184 + f;
    assert DaysBeforeMonth(y, 9) == 215 + f;
    assert DaysBeforeMonth(y, 10) == 245 + f;
    assert DaysBeforeMonth(y, 11) == 276 + f;
    assert DaysBeforeMonth(y, 12) == 306 + f;
  }

  /**
   * The day number of `time.Date(y, m, d, ...)`. As in Go, a day outside the
   * month is normalised by counting on from the first of the month.
   */
  function DayNumber(y: int, m: int, d: int): int
    requires y >= 1 && 1 <= m <= 12
  {
    DaysBeforeYear(y) + DaysBeforeMonth(y, m) + d - 1
  }

  /** `time.Date(y, m, d, 0, 0, 0, 0, time.UTC)` as an instant. */
  function Midnight(y: int, m: int, d: int): int
    requires y >= 1 && 1 <= m <= 12
  {
    DayNumber(y, m, d) * Day
  }

  /** January 1 of year 1 was a Monday. */
  function Weekday(dayNumber: int): (w: int)
    ensures 0 <= w < 7
  {
    (dayNumber + 1) % 7
  }

  datatype Civil = Civil(year: int, month: int, day: int, hour: int, minute: int, second: int, nanos: int)

  predicate ValidCivil(c: Civil) {
    && c.year >= 1 && 1 <= c.month <= 12 && 1 <= c.day <= DaysIn(c.year, c.month)
    && 0 <= c.hour < 24 && 0 <= c.minute < 60 && 0 <= c.second < 60 && 0 <= c.nanos < Second
  }

  /** A reading of the UTC wall clock. */
  type Reading = c: Civil | ValidCivil(c) witness Civil(1, 1, 1, 0, 0, 0, 0)

  function Today(c: Reading): int {
    DayNumber(c.year, c.month, c.day)
  }

  function WeekdayOf(c: Reading): (w: int)
    ensures 0 <= w < 7
  {
    Weekday(Today(c))
  }

  function TimeOfDay(c: Reading): (t: int)
    ensures 0 <= t < Day
  {
    c.hour * Hour + c.minute * Minute + c.second * Second + c.nanos
  }

  /** The instant a clock reading denotes. */
  function Instant(c: Reading): (t: int)
    ensures Today(c) * Day <= t < Today(c) * Day + Day
  {
    Today(c) * Day + TimeOfDay(c)
  }

  lemma InstantNotNegative(c: Reading)
    ensures Instant(c) >= 0
  {
    assert Today(c) >= 0;
  }

  /** The first of the next month is later than every day of this month. */
  lemma NextMonthLater(c: Reading)
    ensures c.month < 12 ==> DayNumber(c.year, c.month + 1, 1) > Today(c)
    ensures c.month == 12 ==> DayNumber(c.year + 1, 1, 1) > Today(c)
    ensures c.month < 12 ==> DayNumber(c.year, c.month + 1, 1) <= Today(c) + 31
    ensures c.month == 12 ==> DayNumber(c.year + 1, 1, 1) <= Today(c) + 31
  {
    if c.month == 12 {
      WholeYear(c.year);
    }
  }
}
