/** The calendar page (src/pages/calendar/Calendar.tsx): month lengths and
    weekdays as the `Date` object computes them, the 42-cell month grid,
    month navigation, the items of one day and the three upcoming items.
    Months are numbered 0 (January) to 11 as `getMonth` returns them; days
    are proleptic Gregorian, in local time. */
module Calendar {
  import opened Types
  import Seqs

  /** A calendar day as `getFullYear`, `getMonth` and `getDate` give it. */
  datatype Day = Day(year: int, month: int, day: int)

  /** A scheduled item; `minute` is the time of day in minutes. */
  datatype Item = Item(id: string, title: string, date: Day, minute: int, platforms: seq<Platform>,
                       contentType: ContentType)

  /** One cell of the grid. */
  datatype Cell = Cell(day: int, month: int, year: int, isCurrentMonth: bool)

  const GridCells: int := 42

  predicate IsLeapYear(y: int) {
    (y % 4 == 0 && y % 100 != 0) || y % 400 == 0
  }

  /** The number of days of month `m` of year `y`. */
  function MonthLength(y: int, m: int): (n: int)
    requires 0 <= m < 12
    ensures 28 <= n <= 31
  {
    if m == 1 then (if IsLeapYear(y) then 29 else 28)
    else if m == 3 || m == 5 || m == 8 || m == 10 then 30
    else 31
  }

  /** The days of months `0..m-1`. */
  function DaysBefore(y: int, m: int): int
    requires 0 <= m <= 12
  {
    if m == 0 then 0 else DaysBefore(y, m - 1) + MonthLength(y, m - 1)
  }

  /** The twelve months make up the year: 366 days in a leap year, 365
      otherwise. */
  lemma YearLength(y: int)
    ensures DaysBefore(y, 12) == if IsLeapYear(y) then 366 else 365
  {
    assert DaysBefore(y, 12) == DaysBefore(y, 11) + 31;
    assert DaysBefore(y, 11) == DaysBefore(y, 10) + 30;
    assert DaysBefore(y, 10) == DaysBefore(y, 9) + 31;
    assert DaysBefore(y, 9) == DaysBefore(y, 8) + 30;
    assert DaysBefore(y, 8) == DaysBefore(y, 7) + 31;
    assert DaysBefore(y, 7) == DaysBefore(y, 6) + 31;
    assert DaysBefore(y, 6) == DaysBefore(y, 5) + 30;
    assert DaysBefore(y, 5) == DaysBefore(y, 4) + 31;
    assert DaysBefore(y, 4) == DaysBefore(y, 3) + 30;
    assert DaysBefore(y, 3) == DaysBefore(y, 2) + 31;
    assert DaysBefore(y, 2) == DaysBefore(y, 1) + MonthLength(y, 1);
    assert DaysBefore(y, 1) == 31;
  }

  /** The year `new Date(year, ...)` uses: 0 to 99 stand for 1900 to 1999. */
  function ConstructorYear(y: int): (r: int)
    ensures 0 <= y <= 99 ==> r == 1900 + y
    ensures !(0 <= y <= 99) ==> r == y
  {
    if 0 <= y <= 99 then 1900 + y else y
  }

  /** `daysInMonth`: day 0 of the next month is the last day of this one. */
  function DaysInMonth(year: int, month: int): (n: int)
    requires 0 <= month < 12
    ensures 28 <= n <= 31
    ensures !(0 <= year <= 99) ==> n == MonthLength(year, month)
    ensures n == 29 <==> month == 1 && IsLeapYear(ConstructorYear(year))
  {
    MonthLength(ConstructorYear(year), month)
  }

  /** The weekday (0 = Sunday) of a day, as `getDay` returns it. */
  function Weekday(y: int, m: int, d: int): (w: int)
    requires 0 <= m < 12
    ensures 0 <= w < 7
  {
    var yy := if m < 2 then y - 1 else y;
    (YearShift(yy) + MonthOffset(m) + d) % 7
  }

  /** The weekday shift of the years up to `y`: one per year, one more per
      leap year. */
  function YearShift(y: int): int {
    y + y / 4 - y / 100 + y / 400
  }

  function MonthOffset(m: int): int
    requires 0 <= m < 12
  {
    [0, 3, 2, 5, 0, 3, 5, 1, 4, 6, 2, 4][m]
  }

  lemma YearShiftStep(y: int)
    ensures YearShift(y) - YearShift(y - 1) == if IsLeapYear(y) then 2 else 1
  {
    Step4(y);
    Step100(y);
    Step400(y);
  }

  lemma Step4(y: int)
    ensures y / 4 - (y - 1) / 4 == if y % 4 == 0 then 1 else 0
  {
    var q, r := y / 4, y % 4;
    assert y == 4 * q + r;
    if r == 0 { assert y - 1 == 4 * (q - 1) + 3; } else { assert y - 1 == 4 * q + (r - 1); }
  }

  lemma Step100(y: int)
    ensures y / 100 - (y - 1) / 100 == if y % 100 == 0 then 1 else 0
  {
    var q, r := y / 100, y % 100;
    assert y == 100 * q + r;
    if r == 0 { assert y - 1 == 100 * (q - 1) + 99; } else { assert y - 1 == 100 * q + (r - 1); }
  }

  lemma Step400(y: int)
    ensures y / 400 - (y - 1) / 400 == if y % 400 == 0 then 1 else 0
  {
    var q, r := y / 400, y % 400;
    assert y == 400 * q + r;
    if r == 0 { assert y - 1 == 400 * (q - 1) + 399; } else { assert y - 1 == 400 * q + (r - 1); }
  }

  /** `getFirstDayOfMonth`. */
  function FirstDayOfMonth(year: int, month: int): (w: int)
    requires 0 <= month < 12
    ensures 0 <= w < 7
  {
    Weekday(ConstructorYear(year), month, 1)
  }

  /** 1 January 1970 was a Thursday and 1 March 2025 a Saturday. */
  lemma KnownWeekdays()
    ensures FirstDayOfMonth(1970, 0) == 4
    ensures FirstDayOfMonth(2025, 2) == 6
  {
  }

  /** The first day of the next month falls as many weekdays after this
      month's first day as the month has days: the grid's trailing cells
      continue the week. */
  lemma FollowingMonthWeekday(y: int, m: int)
    requires 0 <= m < 12
    ensures var n := FollowingMonth(y, m);
            Weekday(n.0, n.1, 1) == (Weekday(y, m, 1) + MonthLength(y, m)) % 7
  {
    var yy := if m < 2 then y - 1 else y;
    var n := FollowingMonth(y, m);
    var nn := if n.1 < 2 then n.0 - 1 else n.0;
    var x := YearShift(yy) + MonthOffset(m) + 1;
    var len := MonthLength(y, m);
    var q := -WeeksIn(m);
    OffsetStep(y, m);
    assert Weekday(n.0, n.1, 1) == (x + len + 7 * q) % 7;
    ModMultiple(x + len, q);
    assert Weekday(y, m, 1) == x % 7;
    ModShift(x, len);
  }

  /** Whole weeks in month `m` (of any year): 4, or 5 for 31-day months
      whose next offset wraps. */
  function WeeksIn(m: int): int {
    if m == 3 || m == 6 || m == 9 || m == 11 then 5 else 4
  }

  lemma OffsetStep(y: int, m: int)
    requires 0 <= m < 12
    ensures var n := FollowingMonth(y, m);
            var yy := if m < 2 then y - 1 else y;
            var nn := if n.1 < 2 then n.0 - 1 else n.0;
            YearShift(nn) + MonthOffset(n.1) == YearShift(yy) + MonthOffset(m) + MonthLength(y, m) - 7 * WeeksIn(m)
  {
    if m == 1 {
      YearShiftStep(y);
    }
  }

  lemma ModMultiple(a: int, q: int)
    ensures (a + 7 * q) % 7 == a % 7
  {
  }

  lemma ModShift(x: int, c: int)
    ensures (x % 7 + c) % 7 == (x + c) % 7
  {
  }

  /** The month before `month` of `year`. */
  function PreviousMonth(year: int, month: int): (r: (int, int))
    requires 0 <= month < 12
    ensures 0 <= r.1 < 12
    ensures month == 0 ==> r == (year - 1, 11)
    ensures month != 0 ==> r == (year, month - 1)
  {
    if month == 0 then (year - 1, 11) else (year, month - 1)
  }

  /** The month after `month` of `year`. */
  function FollowingMonth(year: int, month: int): (r: (int, int))
    requires 0 <= month < 12
    ensures 0 <= r.1 < 12
    ensures month == 11 ==> r == (year + 1, 0)
    ensures month != 11 ==> r == (year, month + 1)
  {
    if month == 11 then (year + 1, 0) else (year, month + 1)
  }

  lemma PreviousFollowingInverse(year: int, month: int)
    requires 0 <= month < 12
    ensures var p := PreviousMonth(year, month); FollowingMonth(p.0, p.1) == (year, month)
    ensures var n := FollowingMonth(year, month); PreviousMonth(n.0, n.1) == (year, month)
  {
  }

  /** `getMonthData`: the cells of the previous month that fill the first
      week, the days of the month, then days of the next month up to 42
      cells. */
  method GetMonthData(current: Day) returns (cells: seq<Cell>)
    requires 0 <= current.month < 12
    ensures |cells| == GridCells
    ensures var first := FirstDayOfMonth(current.year, current.month);
            var prev := PreviousMonth(current.year, current.month);
            var last := DaysInMonth(prev.0, prev.1);
            forall k :: 0 <= k < first ==> cells[k] == Cell(last - (first - 1 - k), prev.1, prev.0, false)
    ensures var first := FirstDayOfMonth(current.year, current.month);
            var total := DaysInMonth(current.year, current.month);
            forall k :: first <= k < first + total ==> cells[k] == Cell(k - first + 1, current.month, current.year, true)
    ensures var first := FirstDayOfMonth(current.year, current.month);
            var total := DaysInMonth(current.year, current.month);
            var next := FollowingMonth(current.year, current.month);
            forall k :: first + total <= k < GridCells ==> cells[k] == Cell(k - first - total + 1, next.1, next.0, false)
  {
    var year, month := current.year, current.month;
    var totalDays := DaysInMonth(year, month);
    var firstDay := FirstDayOfMonth(year, month);

    var prevMonth := if month == 0 then 11 else month - 1;
    var prevMonthYear := if month == 0 then year - 1 else year;
    var daysInPrevMonth := DaysInMonth(prevMonthYear, prevMonth);
    var prevMonthDays: seq<Cell> := [];
    var i := firstDay - 1;
    while i >= 0
      invariant -1 <= i < firstDay
      invariant |prevMonthDays| == firstDay - 1 - i
      invariant forall k :: 0 <= k < |prevMonthDays| ==>
                  prevMonthDays[k] == Cell(daysInPrevMonth - (firstDay - 1 - k), prevMonth, prevMonthYear, false)
    {
      prevMonthDays := prevMonthDays + [Cell(daysInPrevMonth - i, prevMonth, prevMonthYear, false)];
      i := i - 1;
    }

    var currentMonthDays: seq<Cell> := [];
    var d := 1;
    while d <= totalDays
      invariant 1 <= d <= totalDays + 1
      invariant |currentMonthDays| == d - 1
      invariant forall k :: 0 <= k < |currentMonthDays| ==> currentMonthDays[k] == Cell(k + 1, month, year, true)
    {
      currentMonthDays := currentMonthDays + [Cell(d, month, year, true)];
      d := d + 1;
    }

    var nextMonth := if month == 11 then 0 else month + 1;
    var nextMonthYear := if month == 11 then year + 1 else year;
    var remainingCells := GridCells - (|prevMonthDays| + |currentMonthDays|);
    var nextMonthDays: seq<Cell> := [];
    var n := 1;
    while n <= remainingCells
      invariant 1 <= n <= remainingCells + 1
      invariant |nextMonthDays| == n - 1
      invariant forall k :: 0 <= k < |nextMonthDays| ==> nextMonthDays[k] == Cell(k + 1, nextMonth, nextMonthYear, false)
    {
      nextMonthDays := nextMonthDays + [Cell(n, nextMonth, nextMonthYear, false)];
      n := n + 1;
    }

    cells := prevMonthDays + currentMonthDays + nextMonthDays;
  }

  /** The month navigation state: `currentDate`. */
  class CalendarView {
    var current: Day

    constructor (today: Day)
      ensures current == today
    {
      current := today;
    }

    /** `nextMonth`: day 1 of the following month, built with the
        constructor. */
    method NextMonth()
      requires 0 <= current.month < 12
      modifies this
      ensures var n := FollowingMonth(ConstructorYear(old(current.year)), old(current.month));
              current == Day(n.0, n.1, 1)
    {
      var n := FollowingMonth(ConstructorYear(current.year), current.month);
      current := Day(n.0, n.1, 1);
    }

    /** `prevMonth`: day 1 of the previous month. */
    method PrevMonth()
      requires 0 <= current.month < 12
      modifies this
      ensures var p := PreviousMonth(ConstructorYear(old(current.year)), old(current.month));
              current == Day(p.0, p.1, 1)
    {
      var p := PreviousMonth(ConstructorYear(current.year), current.month);
      current := Day(p.0, p.1, 1);
    }
  }

  /** Going forward and back (or back and forward) a month returns to the
      first day of the month, for years the constructor reads as given. */
  lemma NavigationRoundTrip(d: Day)
    requires 0 <= d.month < 12 && d.year > 100
    ensures var n := FollowingMonth(ConstructorYear(d.year), d.month);
            var back := PreviousMonth(ConstructorYear(n.0), n.1);
            back == (d.year, d.month)
    ensures var p := PreviousMonth(ConstructorYear(d.year), d.month);
            var forth := FollowingMonth(ConstructorYear(p.0), p.1);
            forth == (d.year, d.month)
  {
  }

  /** `getContentForDay`: the items on that day, in their order. */
  function ContentForDay(items: seq<Item>, day: int, month: int, year: int): (r: seq<Item>)
    ensures forall x :: x in r <==> x in items && x.date == Day(year, month, day)
    ensures Seqs.IsSubsequence(r, items)
  {
    Seqs.FilterIsSubsequence((x: Item) => x.date == Day(year, month, day), items);
    Seqs.Filter((x: Item) => x.date == Day(year, month, day), items)
  }

  /** `getTime` up to a constant factor: chronological for valid dates. */
  function TimeKey(x: Item): int {
    ((x.date.year * 12 + x.date.month) * 32 + x.date.day) * 1440 + x.minute
  }

  /** The upcoming list: sorted by time, first three. */
  function Upcoming(items: seq<Item>): (r: seq<Item>)
    ensures |r| == if |items| < 3 then |items| else 3
    ensures Seqs.SortedBy(r, TimeKey)
    ensures multiset(r) <= multiset(items)
    ensures forall x :: x in r ==> x in items
  {
    var sorted := Seqs.SortBy(items, TimeKey);
    var r := sorted[..if |sorted| < 3 then |sorted| else 3];
    Seqs.SortedPrefix(sorted, TimeKey, |r|);
    r
  }

  /** No item left out of the upcoming list is earlier than the last one
      shown. */
  lemma UpcomingAreEarliest(items: seq<Item>, x: Item)
    requires x in items && |items| > 3
    requires TimeKey(x) < TimeKey(Upcoming(items)[2])
    ensures x in Upcoming(items)
  {
    var sorted := Seqs.SortBy(items, TimeKey);
    assert x in multiset(sorted);
    var j :| 0 <= j < |sorted| && sorted[j] == x;
    assert j < 3;
    assert Upcoming(items)[j] == x;
  }
}
