/**
 * Proleptic Gregorian calendar dates as the browser's `Date` sees them in local time,
 * without the time of day: months are numbered 0..11 as in JavaScript, and a day is
 * identified by its day number, the count of days since 1 January 1970.
 */
module CivilDate {
  datatype Date = Date(year: int, month: int, day: int)

  predicate IsLeapYear(y: int) {
    (y % 4 == 0 && y % 100 != 0) || y % 400 == 0
  }

  function DaysInYear(y: int): int {
    if IsLeapYear(y) then 366 else 365
  }

  /** `new Date(y, m + 1, 0).getDate()`: the last day of month `m`. */
  function DaysInMonth(y: int, m: int): (n: int)
    requires 0 <= m < 12
    ensures 28 <= n <= 31
  {
    if m == 1 then (if IsLeapYear(y) then 29 else 28)
    else if m == 3 || m == 5 || m == 8 || m == 10 then 30
    else 31
  }

  predicate IsValid(d: Date) {
    0 <= d.month < 12 && 1 <= d.day <= DaysInMonth(d.year, d.month)
  }

  /** Days of the year before the first of month `m`; `m == 12` gives the whole year. */
  function DaysBeforeMonth(y: int, m: int): (n: int)
    requires 0 <= m <= 12
    ensures 0 <= n <= 366
    ensures 0 < m ==> n == DaysBeforeMonth(y, m - 1) + DaysInMonth(y, m - 1)
  {
    var leap := if IsLeapYear(y) then 1 else 0;
    match m
    case 0 => 0
    case 1 => 31
    case 2 => 59 + leap
    case 3 => 90 + leap
    case 4 => 120 + leap
    case 5 => 151 + leap
    case 6 => 181 + leap
    case 7 => 212 + leap
    case 8 => 243 + leap
    case 9 => 273 + leap
    case 10 => 304 + leap
    case 11 => 334 + leap
    case _ => 365 + leap
  }

  /** The twelve months add up to the length of the year. */
  lemma MonthsFillYear(y: int)
    ensures DaysBeforeMonth(y, 12) == DaysInYear(y)
  {
  }

  /** Leap years in a span ending before `y`, up to a constant (floor division, so it also holds before year 1). */
  function LeapYearsBefore(y: int): int {
    (y - 1) / 4 - (y - 1) / 100 + (y - 1) / 400
  }

  function DaysBeforeYear(y: int): int {
    365 * (y - 1970) + LeapYearsBefore(y) - LeapYearsBefore(1970)
  }

  lemma FloorStep(y: int)
    ensures y / 4 - (y - 1) / 4 == if y % 4 == 0 then 1 else 0
    ensures y / 100 - (y - 1) / 100 == if y % 100 == 0 then 1 else 0
    ensures y / 400 - (y - 1) / 400 == if y % 400 == 0 then 1 else 0
  {
  }

  /** Consecutive years are `DaysInYear` apart. */
  lemma NextYear(y: int)
    ensures DaysBeforeYear(y + 1) == DaysBeforeYear(y) + DaysInYear(y)
  {
    FloorStep(y);
  }

  function DayNumber(d: Date): int
    requires 0 <= d.month < 12
  {
    DaysBeforeYear(d.year) + DaysBeforeMonth(d.year, d.month) + d.day - 1
  }

  /** `getDay()`: 0 is Sunday; 1 January 1970 was a Thursday. */
  function Weekday(n: int): (w: int)
    ensures 0 <= w < 7
  {
    (n + 4) % 7
  }

  lemma WeekdayAfterWeek(n: int)
    ensures Weekday(n + 7) == Weekday(n)
    ensures Weekday(n - Weekday(n)) == 0
  {
  }

  function FirstDayOfMonth(y: int, m: int): (w: int)
    requires 0 <= m < 12
    ensures 0 <= w < 7
  {
    Weekday(DayNumber(Date(y, m, 1)))
  }

  /** The month before and the month after, wrapping the year at the ends. */
  function PrevMonth(y: int, m: int): (r: (int, int))
    requires 0 <= m < 12
    ensures 0 <= r.1 < 12
    ensures r.0 * 12 + r.1 == y * 12 + m - 1
  {
    if m == 0 then (y - 1, 11) else (y, m - 1)
  }

  function NextMonth(y: int, m: int): (r: (int, int))
    requires 0 <= m < 12
    ensures 0 <= r.1 < 12
    ensures r.0 * 12 + r.1 == y * 12 + m + 1
  {
    if m == 11 then (y + 1, 0) else (y, m + 1)
  }

  lemma PrevNextInverse(y: int, m: int)
    requires 0 <= m < 12
    ensures PrevMonth(NextMonth(y, m).0, NextMonth(y, m).1) == (y, m)
    ensures NextMonth(PrevMonth(y, m).0, PrevMonth(y, m).1) == (y, m)
  {
  }

  /** The last day of a month is followed by the first day of the next month. */
  lemma MonthsAreContiguous(y: int, m: int)
    requires 0 <= m < 12
    ensures DayNumber(Date(y, m, DaysInMonth(y, m))) + 1
         == DayNumber(Date(NextMonth(y, m).0, NextMonth(y, m).1, 1))
  {
    if m == 11 {
      MonthsFillYear(y);
      NextYear(y);
    }
  }

  /** Days of one month are numbered consecutively. */
  lemma DayNumberInMonth(y: int, m: int, d: int)
    requires 0 <= m < 12
    ensures DayNumber(Date(y, m, d)) == DayNumber(Date(y, m, 1)) + d - 1
  {
  }

  /** date-fns `addMonths`: the same day in the month `n` months on, clamped to that month's last day. */
  function AddMonths(d: Date, n: int): (r: Date)
    requires IsValid(d)
    ensures IsValid(r)
    ensures r.year * 12 + r.month == d.year * 12 + d.month + n
    ensures r.day == d.day || (r.day < d.day && r.day == DaysInMonth(r.year, r.month))
  {
    var total := d.year * 12 + d.month + n;
    var y, m := total / 12, total % 12;
    Date(y, m, if d.day <= DaysInMonth(y, m) then d.day else DaysInMonth(y, m))
  }

  /** date-fns `subMonths`. */
  function SubMonths(d: Date, n: int): (r: Date)
    requires IsValid(d)
    ensures IsValid(r)
  {
    AddMonths(d, -n)
  }

  /** Going back a month and forward again lands in the starting month (the day may have been clamped). */
  lemma SubThenAddKeepsMonth(d: Date)
    requires IsValid(d)
    ensures AddMonths(SubMonths(d, 1), 1).year == d.year
    ensures AddMonths(SubMonths(d, 1), 1).month == d.month
    ensures AddMonths(AddMonths(d, 1), -1).year == d.year
    ensures AddMonths(AddMonths(d, 1), -1).month == d.month
  {
  }
}
