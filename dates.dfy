/**
 * Calendar dates as Python's `datetime.date` checks them (proleptic
 * Gregorian calendar, years 1 to 9999), and the ten-years-earlier date of
 * the comparison, `selected_date.replace(year=selected_date.year - 10)`
 * (streamlit_app.py:167). Construction and `replace` raise ValueError on an
 * invalid date; here that is None.
 */
module Dates {
  import opened Wrappers

  const MinYear: int := 1
  const MaxYear: int := 9999

  datatype Date = Date(year: int, month: int, day: int)

  predicate IsLeapYear(y: int)
  {
    y % 4 == 0 && (y % 100 != 0 || y % 400 == 0)
  }

  function DaysInMonth(y: int, m: int): int
    requires 1 <= m <= 12
  {
    if m == 2 then (if IsLeapYear(y) then 29 else 28)
    else if m == 4 || m == 6 || m == 9 || m == 11 then 30
    else 31
  }

  predicate IsValidDate(y: int, m: int, d: int)
  {
    MinYear <= y <= MaxYear && 1 <= m <= 12 && 1 <= d <= DaysInMonth(y, m)
  }

  predicate Valid(d: Date)
  {
    IsValidDate(d.year, d.month, d.day)
  }

  /** `datetime.date(y, m, d)`: the date, or None where Python raises. */
  function MakeDate(y: int, m: int, d: int): (r: Option<Date>)
    ensures r.Some? <==> IsValidDate(y, m, d)
    ensures r.Some? ==> r.value == Date(y, m, d) && Valid(r.value)
  {
    if IsValidDate(y, m, d) then Some(Date(y, m, d)) else None
  }

  /** `d.replace(year=y)`: the same month and day in year `y`, or None where Python raises. */
  function ReplaceYear(d: Date, y: int): (r: Option<Date>)
    ensures r.Some? <==> IsValidDate(y, d.month, d.day)
    ensures r.Some? ==> r.value.year == y && r.value.month == d.month && r.value.day == d.day
  {
    MakeDate(y, d.month, d.day)
  }

  /** Jan 1, as the five-year loop builds it, exists exactly in the years 1 to 9999. */
  lemma JanFirstExists(y: int)
    ensures MakeDate(y, 1, 1).Some? <==> MinYear <= y <= MaxYear
  {
  }

  /** February 29 exists exactly in the leap years among 1 to 9999. */
  lemma LeapDayExists(y: int)
    ensures MakeDate(y, 2, 29).Some? <==> MinYear <= y <= MaxYear && IsLeapYear(y)
  {
  }

  /** Putting the old year back after a successful `replace` gives the original date. */
  lemma ReplaceYearRoundTrip(d: Date, y: int)
    requires Valid(d) && ReplaceYear(d, y).Some?
    ensures ReplaceYear(ReplaceYear(d, y).value, d.year) == Some(d)
  {
  }

  /** The comparison date: ten years earlier, same month and day. */
  function PastDate(d: Date): (r: Option<Date>)
    ensures r.Some? <==> IsValidDate(d.year - 10, d.month, d.day)
    ensures r.Some? ==> Valid(r.value) && r.value.year == d.year - 10
                        && r.value.month == d.month && r.value.day == d.day
  {
    ReplaceYear(d, d.year - 10)
  }

  /** Ten years before a leap year is never a leap year (it is 2 modulo 4). */
  lemma LeapYearTenBefore(y: int)
    requires IsLeapYear(y)
    ensures !IsLeapYear(y - 10)
  {
  }

  /**
   * For a valid date whose year minus ten is still a valid year, the past
   * date fails exactly on February 29; every other date keeps its month and
   * day in the earlier year.
   */
  lemma PastDateFailsOnlyOnLeapDay(d: Date)
    requires Valid(d) && d.year - 10 >= MinYear
    ensures PastDate(d).None? <==> d.month == 2 && d.day == 29
  {
  }

  /** 2024-02-29 has no past date; 2023-06-15 has 2013-06-15. */
  lemma PastDateExamples()
    ensures PastDate(Date(2024, 2, 29)) == None
    ensures PastDate(Date(2023, 6, 15)) == Some(Date(2013, 6, 15))
  {
  }
}
