/**
 * The month calendar of the job-posting page. Its grid runs from the Sunday on or
 * before the first of the month to the Saturday on or after the last; each day
 * lists the postings whose period covers it, three at most, with a "+N" for the
 * rest, and the day is highlighted when the hovered posting is among them.
 *
 * Times are milliseconds on the local clock (no time zones or daylight saving);
 * grid days are day numbers, whose midnight is `day * MsPerDay`.
 */
module SimpleCalendar {
  import opened Wrappers
  import opened Lists
  import opened CivilDate

  const MsPerDay: int := 86400000

  /** A bookmarked posting: its application period runs from `start` to `end`. */
  datatype Company = Company(id: string, title: string, start: int, end: int, color: string)

  /** The day a time falls on. */
  function DayOf(t: int): int {
    t / MsPerDay
  }

  /** `setHours(0, 0, 0, 0)`: midnight of the same day. */
  function StartOfDay(t: int): (r: int)
    ensures r <= t < r + MsPerDay
    ensures DayOf(r) == DayOf(t) && r == DayOf(t) * MsPerDay
  {
    DayOf(t) * MsPerDay
  }

  /** `setHours(23, 59, 59, 999)`: the last millisecond of the same day. */
  function EndOfDay(t: int): (r: int)
    ensures t <= r < t + MsPerDay
    ensures DayOf(r) == DayOf(t)
  {
    StartOfDay(t) + MsPerDay - 1
  }

  /** What `getEventsForDay` leaves in a posting after its `setHours` calls. */
  function Normalise(c: Company): (r: Company)
    ensures r.id == c.id && r.title == c.title && r.color == c.color
    ensures DayOf(r.start) == DayOf(c.start) && DayOf(r.end) == DayOf(c.end)
  {
    c.(start := StartOfDay(c.start), end := EndOfDay(c.end))
  }

  /** Normalising twice is normalising once, so repeated renders see the same postings. */
  lemma NormaliseIdempotent(c: Company)
    ensures Normalise(Normalise(c)) == Normalise(c)
  {
  }

  /** `isWithinInterval(day, {start, end})` on a normalised posting: both ends included. */
  predicate Covers(c: Company, t: int) {
    c.start <= t <= c.end
  }

  function CoversDay(t: int): Company -> bool {
    (c: Company) => Covers(c, t)
  }

  /** A posting is an event of the day of `t` exactly when that day lies in its inclusive day range. */
  lemma CoversIffDayInRange(c: Company, t: int)
    ensures Covers(Normalise(c), t) <==> DayOf(c.start) <= DayOf(t) <= DayOf(c.end)
  {
    var s, e, d := DayOf(c.start), DayOf(c.end), DayOf(t);
    assert d * MsPerDay <= t < d * MsPerDay + MsPerDay;
    if s <= d {
      assert s * MsPerDay <= d * MsPerDay;
    } else {
      assert (d + 1) * MsPerDay <= s * MsPerDay;
    }
    if d <= e {
      assert d * MsPerDay <= e * MsPerDay;
    } else {
      assert (e + 1) * MsPerDay <= d * MsPerDay;
    }
  }

  function NormaliseAll(cs: seq<Company>): (r: seq<Company>)
    ensures |r| == |cs|
    ensures forall i :: 0 <= i < |cs| ==> r[i] == Normalise(cs[i])
  {
    seq(|cs|, i requires 0 <= i < |cs| => Normalise(cs[i]))
  }

  /**
   * `getEventsForDay(day)`: the postings that cover the day, in list order. The filter
   * normalises every posting it looks at, so the list itself comes back changed too.
   */
  function EventsForDay(cs: seq<Company>, t: int): (r: (seq<Company>, seq<Company>))
    ensures r.1 == NormaliseAll(cs)
    ensures IsSubsequence(r.0, r.1)
    ensures forall k :: 0 <= k < |r.0| ==> r.0[k] in r.1
    ensures forall i :: 0 <= i < |cs| ==>
      (r.1[i] in r.0 <==> DayOf(cs[i].start) <= DayOf(t) <= DayOf(cs[i].end))
    ensures forall k :: 0 <= k < |r.0| ==> Covers(r.0[k], t)
    ensures forall x :: multiset(r.0)[x] == if Covers(x, t) then multiset(r.1)[x] else 0
  {
    var all := NormaliseAll(cs);
    FilterIsSubsequence(all, CoversDay(t));
    FilterMultiplicity(all, CoversDay(t));
    forall i | 0 <= i < |cs| ensures Covers(all[i], t) <==> DayOf(cs[i].start) <= DayOf(t) <= DayOf(cs[i].end) {
      CoversIffDayInRange(cs[i], t);
    }
    (Filter(all, CoversDay(t)), all)
  }

  /** The events shown in a day cell, the first three. */
  function Shown(events: seq<Company>): (r: seq<Company>)
    ensures |r| == if |events| <= 3 then |events| else 3
    ensures r <= events
  {
    Take(events, 3)
  }

  /** The "+N more" label: present only past three events, counting the ones not shown. */
  function More(events: seq<Company>): (r: Option<nat>)
    ensures r.Some? <==> |events| > 3
    ensures r.Some? ==> |Shown(events)| + r.value == |events|
  {
    if |events| > 3 then Some(|events| - 3) else None
  }

  /** `isHighlighted`: a posting is hovered and one of the day's events has its id. */
  predicate Highlighted(hover: Option<Company>, events: seq<Company>) {
    hover.Some? && exists k :: 0 <= k < |events| && events[k].id == hover.value.id
  }

  /** A day is highlighted exactly when a posting with the hovered id covers that day. */
  lemma HighlightedIffHoveredCovers(cs: seq<Company>, hover: Option<Company>, t: int)
    ensures Highlighted(hover, EventsForDay(cs, t).0) <==>
      hover.Some? && exists i :: 0 <= i < |cs| && cs[i].id == hover.value.id && DayOf(cs[i].start) <= DayOf(t) <= DayOf(cs[i].end)
  {
    var r := EventsForDay(cs, t);
    if Highlighted(hover, r.0) {
      var k :| 0 <= k < |r.0| && r.0[k].id == hover.value.id;
      assert r.0[k] in r.1;
      var i :| 0 <= i < |r.1| && r.1[i] == r.0[k];
      assert cs[i].id == hover.value.id;
    }
    if hover.Some? && exists i :: 0 <= i < |cs| && cs[i].id == hover.value.id && DayOf(cs[i].start) <= DayOf(t) <= DayOf(cs[i].end) {
      var i :| 0 <= i < |cs| && cs[i].id == hover.value.id && DayOf(cs[i].start) <= DayOf(t) <= DayOf(cs[i].end);
      assert r.1[i] in r.0;
      var k :| 0 <= k < |r.0| && r.0[k] == r.1[i];
    }
  }

  // ---------------------------------------------------------------------------
  // The grid

  /** Which week since the epoch a day belongs to, weeks running Sunday to Saturday. */
  function Week(n: int): int {
    (n + 4) / 7
  }

  function FirstOfMonth(d: Date): int
    requires IsValid(d)
  {
    DayNumber(Date(d.year, d.month, 1))
  }

  function LastOfMonth(d: Date): int
    requires IsValid(d)
  {
    DayNumber(Date(d.year, d.month, DaysInMonth(d.year, d.month)))
  }

  /** The first grid day: the 1st moved back by its weekday. */
  function GridStart(d: Date): int
    requires IsValid(d)
  {
    FirstOfMonth(d) - Weekday(FirstOfMonth(d))
  }

  /** The last grid day: the month's last day moved on to Saturday. */
  function GridEnd(d: Date): int
    requires IsValid(d)
  {
    LastOfMonth(d) + (6 - Weekday(LastOfMonth(d)))
  }

  /** `eachDayOfInterval({ start: startDate, end: endDate })`. */
  function CalendarDays(d: Date): (r: seq<int>)
    requires IsValid(d)
    ensures |r| == GridEnd(d) - GridStart(d) + 1
    ensures forall i :: 0 <= i < |r| ==> r[i] == GridStart(d) + i
  {
    var start, end := GridStart(d), GridEnd(d);
    GridEndsAfterStart(d);
    seq(end - start + 1, i requires 0 <= i <= end - start => start + i)
  }

  lemma GridEndsAfterStart(d: Date)
    requires IsValid(d)
    ensures GridStart(d) <= FirstOfMonth(d) <= LastOfMonth(d) <= GridEnd(d)
  {
    DayNumberInMonth(d.year, d.month, DaysInMonth(d.year, d.month));
  }

  /** Moving back by the weekday lands on a Sunday of the same week; moving on to 6 lands on its Saturday. */
  lemma WeekBounds(n: int)
    ensures n - Weekday(n) == 7 * Week(n) - 4
    ensures n + (6 - Weekday(n)) == 7 * Week(n) + 2
  {
  }

  /** Two days at most `k` apart are at most `k / 7 + 1` weeks apart. */
  lemma WeeksApart(a: int, b: int)
    requires a <= b
    ensures (b - a) / 7 <= Week(b) - Week(a) <= (b - a) / 7 + 1
  {
    var x := a + 4;
    var k := b - a;
    assert x == 7 * (x / 7) + x % 7;
    assert k == 7 * (k / 7) + k % 7;
    assert x + k == 7 * (x / 7 + k / 7) + (x % 7 + k % 7);
    if x % 7 + k % 7 < 7 {
      assert (x + k) / 7 == x / 7 + k / 7;
    } else {
      assert (x + k) / 7 == x / 7 + k / 7 + 1;
    }
  }

  /** The grid holds whole weeks, four to six of them. */
  lemma CalendarDaysWeeks(d: Date)
    requires IsValid(d)
    ensures |CalendarDays(d)| == 7 * (Week(LastOfMonth(d)) - Week(FirstOfMonth(d)) + 1)
    ensures |CalendarDays(d)| % 7 == 0
    ensures 28 <= |CalendarDays(d)| <= 42
  {
    var a, b := FirstOfMonth(d), LastOfMonth(d);
    DayNumberInMonth(d.year, d.month, DaysInMonth(d.year, d.month));
    assert 27 <= b - a <= 30;
    WeekBounds(a);
    WeekBounds(b);
    WeeksApart(a, b);
    var w := Week(b) - Week(a);
    assert 3 <= (b - a) / 7 <= 4;
    assert 3 <= w <= 5;
    assert |CalendarDays(d)| == GridEnd(d) - GridStart(d) + 1 == 7 * (w + 1);
    assert (7 * (w + 1)) % 7 == 0;
  }

  /** The Sunday and the Saturday of a week. */
  lemma WeekEnds(w: int)
    ensures Weekday(7 * w - 4) == 0 && Weekday(7 * w + 2) == 6
  {
    assert 7 * w - 4 + 4 == 7 * w + 0;
    assert 7 * w + 2 + 4 == 7 * w + 6;
  }

  /** The grid starts on a Sunday and ends on a Saturday. */
  lemma CalendarDaysSundayToSaturday(d: Date)
    requires IsValid(d)
    ensures Weekday(CalendarDays(d)[0]) == 0
    ensures Weekday(CalendarDays(d)[|CalendarDays(d)| - 1]) == 6
  {
    var r := CalendarDays(d);
    var a, b := FirstOfMonth(d), LastOfMonth(d);
    GridEndsAfterStart(d);
    assert r[0] == GridStart(d) && r[|r| - 1] == GridEnd(d);
    WeekBounds(a);
    WeekBounds(b);
    WeekEnds(Week(a));
    WeekEnds(Week(b));
  }

  /** From position `Weekday(1st)` on, the grid's days are the days of the month in order. */
  lemma CalendarDaysHoldMonth(d: Date, day: int)
    requires IsValid(d) && 1 <= day <= DaysInMonth(d.year, d.month)
    ensures Weekday(FirstOfMonth(d)) + day - 1 < |CalendarDays(d)|
    ensures CalendarDays(d)[Weekday(FirstOfMonth(d)) + day - 1] == DayNumber(Date(d.year, d.month, day))
  {
    GridEndsAfterStart(d);
    DayNumberInMonth(d.year, d.month, day);
    DayNumberInMonth(d.year, d.month, DaysInMonth(d.year, d.month));
  }

  // ---------------------------------------------------------------------------
  // The component

  class Calendar {
    /** The parent's postings; `getEventsForDay` rewrites their times in place. */
    var bookmarkedCompanies: seq<Company>
    var currentHoverCompany: Option<Company>
    /** The `currentDate` prop, when the parent passes one. */
    var externalCurrentDate: Option<Date>
    /** Whether the parent passes `onDateChange`. */
    var notifiesParent: bool
    var internalCurrentDate: Date
    var calendarDays: seq<int>

    ghost predicate Valid()
      reads this
    {
      IsValid(internalCurrentDate) && (externalCurrentDate.Some? ==> IsValid(externalCurrentDate.value))
    }

    /** `externalCurrentDate || internalCurrentDate`. */
    function CurrentDate(): (d: Date)
      reads this
      requires Valid()
      ensures IsValid(d)
      ensures externalCurrentDate.Some? ==> d == externalCurrentDate.value
      ensures externalCurrentDate.None? ==> d == internalCurrentDate
    {
      if externalCurrentDate.Some? then externalCurrentDate.value else internalCurrentDate
    }

    /** Mounting: the internal date is today, and the grid effect runs once. */
    constructor (companies: seq<Company>, hover: Option<Company>, current: Option<Date>, notifiesParent: bool, today: Date)
      requires IsValid(today) && (current.Some? ==> IsValid(current.value))
      ensures Valid()
      ensures bookmarkedCompanies == companies && currentHoverCompany == hover
      ensures externalCurrentDate == current && this.notifiesParent == notifiesParent
      ensures internalCurrentDate == today
      ensures calendarDays == CalendarDays(CurrentDate())
    {
      bookmarkedCompanies := companies;
      currentHoverCompany := hover;
      externalCurrentDate := current;
      this.notifiesParent := notifiesParent;
      internalCurrentDate := today;
      calendarDays := [];
      new;
      ComputeDays();
    }

    /** The effect on `currentDate`: the grid of the current month. */
    method ComputeDays()
      requires Valid()
      modifies this`calendarDays
      ensures calendarDays == CalendarDays(CurrentDate())
    {
      var monthStart := FirstOfMonth(CurrentDate());
      var monthEnd := LastOfMonth(CurrentDate());
      var startDate := monthStart - Weekday(monthStart);
      var endDate := monthEnd + (6 - Weekday(monthEnd));
      GridEndsAfterStart(CurrentDate());
      calendarDays := seq(endDate - startDate + 1, i requires 0 <= i <= endDate - startDate => startDate + i);
    }

    /** Sends the new date to the parent when it listens, otherwise keeps it as the internal date. */
    method Navigate(newDate: Date) returns (notified: Option<Date>)
      requires Valid() && IsValid(newDate)
      modifies this`internalCurrentDate
      ensures Valid()
      ensures notifiesParent ==> notified == Some(newDate) && internalCurrentDate == old(internalCurrentDate)
      ensures !notifiesParent ==> notified == None && internalCurrentDate == newDate
    {
      if notifiesParent {
        notified := Some(newDate);
      } else {
        internalCurrentDate := newDate;
        notified := None;
      }
    }

    method PrevMonth() returns (notified: Option<Date>)
      requires Valid()
      modifies this`internalCurrentDate
      ensures Valid()
      ensures notifiesParent ==> notified == Some(SubMonths(old(CurrentDate()), 1)) && internalCurrentDate == old(internalCurrentDate)
      ensures !notifiesParent ==> notified == None && internalCurrentDate == SubMonths(old(CurrentDate()), 1)
    {
      notified := Navigate(SubMonths(CurrentDate(), 1));
    }

    method NextMonth() returns (notified: Option<Date>)
      requires Valid()
      modifies this`internalCurrentDate
      ensures Valid()
      ensures notifiesParent ==> notified == Some(AddMonths(old(CurrentDate()), 1)) && internalCurrentDate == old(internalCurrentDate)
      ensures !notifiesParent ==> notified == None && internalCurrentDate == AddMonths(old(CurrentDate()), 1)
    {
      notified := Navigate(AddMonths(CurrentDate(), 1));
    }

    /** The today button; `today` stands for `new Date()`. */
    method GoToToday(today: Date) returns (notified: Option<Date>)
      requires Valid() && IsValid(today)
      modifies this`internalCurrentDate
      ensures Valid()
      ensures notifiesParent ==> notified == Some(today) && internalCurrentDate == old(internalCurrentDate)
      ensures !notifiesParent ==> notified == None && internalCurrentDate == today
    {
      notified := Navigate(today);
    }

    /** `getEventsForDay` for the day containing `t`; it normalises the postings as a side effect. */
    method GetEventsForDay(t: int) returns (events: seq<Company>)
      modifies this`bookmarkedCompanies
      ensures (events, bookmarkedCompanies) == EventsForDay(old(bookmarkedCompanies), t)
    {
      var all := NormaliseAll(bookmarkedCompanies);
      var r := EventsForDay(bookmarkedCompanies, t);
      bookmarkedCompanies := all;
      events := r.0;
    }
  }
}
