/**
 * Calendar dates as Python's `datetime.date` has them: the proleptic Gregorian
 * calendar, years 1 to 9999. A date difference `(a - b).days` is the difference
 * of the two dates' ordinals (`date.toordinal()`, day 1 = 0001-01-01).
 */
module Calendar {
  import opened Wrappers

  type Year = y: int | 1 <= y <= 9999 witness 1
  type Month = m: int | 1 <= m <= 12 witness 1

  datatype Date = Date(year: Year, month: Month, day: int)

  /** A calendar month, the value of a `TruncMonth` annotation. */
  datatype YearMonth = YearMonth(year: Year, month: Month)

  predicate IsLeapYear(y: int)
  {
    y % 4 == 0 && (y % 100 != 0 || y % 400 == 0)
  }

  function DaysInMonth(y: Year, m: Month): int
  {
    if m == 2 then (if IsLeapYear(y) then 29 else 28)
    else if m == 4 || m == 6 || m == 9 || m == 11 then 30
    else 31
  }

  predicate ValidDate(d: Date)
  {
    1 <= d.day <= DaysInMonth(d.year, d.month)
  }

  /** Days in the months of year `y` before month `m`. */
  function DaysBeforeMonth(y: Year, m: Month): int
  {
    [0, 31, 59, 90, 120, 151, 181, 212, 243, 273, 304, 334][m - 1]
      + (if m > 2 && IsLeapYear(y) then 1 else 0)
  }

  /** Days in the years before year `y`. */
  function DaysBeforeYear(y: Year): int
  {
    var p := y - 1;
    p * 365 + p / 4 - p / 100 + p / 400
  }

  /** `date.toordinal()`. */
  function Ordinal(d: Date): int
  {
    DaysBeforeYear(d.year) + DaysBeforeMonth(d.year, d.month) + d.day
  }

  /** `(later - earlier).days`. */
  function DaysBetween(later: Date, earlier: Date): int
  {
    Ordinal(later) - Ordinal(earlier)
  }

  /** `TruncMonth(date)`: the month a date falls in. */
  function TruncMonth(d: Date): YearMonth
  {
    YearMonth(d.year, d.month)
  }

  /** The calendar day after `d` (`d + timedelta(days=1)`); None past 9999-12-31, where Python overflows. */
  function NextDay(d: Date): Option<Date>
  {
    if d.day < DaysInMonth(d.year, d.month) then Some(Date(d.year, d.month, d.day + 1))
    else if d.month < 12 then Some(Date(d.year, d.month + 1, 1))
    else if d.year < 9999 then Some(Date(d.year + 1, 1, 1))
    else None
  }

  /** Consecutive calendar days have consecutive ordinals, so DaysBetween counts days. */
  lemma NextDayOrdinal(d: Date)
    requires ValidDate(d) && NextDay(d).Some?
    ensures ValidDate(NextDay(d).value)
    ensures Ordinal(NextDay(d).value) == Ordinal(d) + 1
  {
    if d.day == DaysInMonth(d.year, d.month) && d.month == 12 {
      DaysInYear(d.year);
    }
  }

  lemma DaysInYear(y: Year)
    requires y < 9999
    ensures DaysBeforeYear(y + 1) == DaysBeforeYear(y) + DaysBeforeMonth(y, 12) + 31
  {
    var p := y - 1;
    assert (p + 1) / 4 == p / 4 + (if y % 4 == 0 then 1 else 0);
    assert (p + 1) / 100 == p / 100 + (if y % 100 == 0 then 1 else 0);
    assert (p + 1) / 400 == p / 400 + (if y % 400 == 0 then 1 else 0);
  }
}
