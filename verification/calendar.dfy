/** The calendar view of a JavaScript `Date`: the local year, the zero-based
    month (`getMonth()`) and the day of the month (`getDate()`). Time of day,
    time zones and daylight-saving shifts are not modelled, so subtracting
    24 hours from a date is its calendar predecessor. */
module Calendar {

  datatype CalendarDate = CalendarDate(year: int, month: int, day: int)

  predicate IsLeapYear(y: int) {
    (y % 4 == 0 && y % 100 != 0) || y % 400 == 0
  }

  /** Number of days of the zero-based month `m` of year `y`. */
  function DaysInMonth(y: int, m: int): (n: int)
    ensures 28 <= n <= 31
  {
    if m == 1 then (if IsLeapYear(y) then 29 else 28)
    else if m == 3 || m == 5 || m == 8 || m == 10 then 30
    else 31
  }

  /** A date that exists in the Gregorian calendar. */
  predicate Valid(d: CalendarDate) {
    0 <= d.month < 12 && 1 <= d.day <= DaysInMonth(d.year, d.month)
  }

  /** Chronological order of dates, as `Date` objects compare. */
  predicate Le(a: CalendarDate, b: CalendarDate) {
    a.year < b.year
    || (a.year == b.year && (a.month < b.month || (a.month == b.month && a.day <= b.day)))
  }

  predicate Lt(a: CalendarDate, b: CalendarDate) {
    Le(a, b) && a != b
  }

  lemma LeTotal(a: CalendarDate, b: CalendarDate)
    ensures Le(a, b) || Le(b, a)
    ensures Le(a, b) && Le(b, a) ==> a == b
  {
  }

  lemma LeTransitive(a: CalendarDate, b: CalendarDate, c: CalendarDate)
    requires Le(a, b) && Le(b, c)
    ensures Le(a, c)
  {
  }

  /** The day before `d`: what a date minus 24 hours denotes. */
  function Predecessor(d: CalendarDate): (p: CalendarDate)
    ensures Lt(p, d)
    ensures Valid(d) ==> Valid(p)
  {
    if d.day > 1 then CalendarDate(d.year, d.month, d.day - 1)
    else if d.month > 0 then CalendarDate(d.year, d.month - 1, DaysInMonth(d.year, d.month - 1))
    else CalendarDate(d.year - 1, 11, 31)
  }

  /** No existing date lies strictly between a date and its predecessor. */
  lemma PredecessorIsImmediate(d: CalendarDate, e: CalendarDate)
    requires Valid(d) && Valid(e)
    requires Lt(e, d)
    ensures Le(e, Predecessor(d))
  {
  }
}
