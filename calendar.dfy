/** Proleptic Gregorian calendar arithmetic, as the dashboard's JavaScript `Date`
    objects perform it: month lengths and leap years, a day number for every
    civil date, and the day-by-day normalisation that `setDate(n)` and
    `new Date(year, monthIndex, day)` apply when `n` or `day` leave the month. */
module Calendar {

  /** A civil date; `month` is 1-based (January is 1), unlike JavaScript's `getMonth()`. */
  datatype Date = Date(year: int, month: int, day: int)

  predicate IsLeapYear(y: int) {
    y % 4 == 0 && (y % 100 != 0 || y % 400 == 0)
  }

  /** Every fourth year leaps, except century years not divisible by 400. */
  lemma LeapYearExamples()
    ensures IsLeapYear(2024) && IsLeapYear(2000)
    ensures !IsLeapYear(2023) && !IsLeapYear(1900)
  {
  }

  function DaysInMonth(y: int, m: int): (n: int)
    requires 1 <= m <= 12
    ensures 28 <= n <= 31
    ensures n == 29 <==> m == 2 && IsLeapYear(y)
    ensures n == 28 <==> m == 2 && !IsLeapYear(y)
  {
    if m == 2 then (if IsLeapYear(y) then 29 else 28)
    else if m == 4 || m == 6 || m == 9 || m == 11 then 30
    else 31
  }

  predicate Valid(d: Date) {
    1 <= d.month <= 12 && 1 <= d.day <= DaysInMonth(d.year, d.month)
  }

  function YearLength(y: int): int {
    if IsLeapYear(y) then 366 else 365
  }

  /** Days from 0001-01-01 to January 1st of year `y`. */
  function DaysBeforeYear(y: int): int {
    var p := y - 1;
    365 * p + p / 4 - p / 100 + p / 400
  }

  /** Days from January 1st of year `y` to the first day of month `m` (13 stands for the next January). */
  function DaysBeforeMonth(y: int, m: int): int
    requires 1 <= m <= 13
  {
    var base :=
      if m == 1 then 0 else if m == 2 then 31 else if m == 3 then 59
      else if m == 4 then 90 else if m == 5 then 120 else if m == 6 then 151
      else if m == 7 then 181 else if m == 8 then 212 else if m == 9 then 243
      else if m == 10 then 273 else if m == 11 then 304 else if m == 12 then 334
      else 365;
    base + (if m > 2 && IsLeapYear(y) then 1 else 0)
  }

  /** The number of days from 0001-01-01 (day 0) to `d`. */
  function DayNumber(d: Date): int
    requires Valid(d)
  {
    DaysBeforeYear(d.year) + DaysBeforeMonth(d.year, d.month) + d.day - 1
  }

  /** Stepping the year by one raises each leap-year count exactly when the new year is a multiple. */
  lemma DivStep(y: int)
    ensures y / 4 - (y - 1) / 4 == (if y % 4 == 0 then 1 else 0)
    ensures y / 100 - (y - 1) / 100 == (if y % 100 == 0 then 1 else 0)
    ensures y / 400 - (y - 1) / 400 == (if y % 400 == 0 then 1 else 0)
  {
  }

  lemma YearStep(y: int)
    ensures DaysBeforeYear(y + 1) == DaysBeforeYear(y) + YearLength(y)
  {
    DivStep(y);
    MultipleChain(y);
    var a, b, c := y / 4 - (y - 1) / 4, y / 100 - (y - 1) / 100, y / 400 - (y - 1) / 400;
    assert DaysBeforeYear(y + 1) - DaysBeforeYear(y) == 365 + a - b + c;
    assert YearLength(y) == 365 + a - b + c;
  }

  /** A multiple of 400 is one of 100, and a multiple of 100 is one of 4. */
  lemma MultipleChain(y: int)
    ensures y % 400 == 0 ==> y % 100 == 0
    ensures y % 100 == 0 ==> y % 4 == 0
  {
    if y % 400 == 0 {
      Multiple400(y);
    }
    if y % 100 == 0 {
      Multiple100(y);
    }
  }

  lemma Multiple400(y: int)
    requires y % 400 == 0
    ensures y % 100 == 0
  {
    var k := y / 400;
    assert y == 100 * (4 * k);
  }

  lemma Multiple100(y: int)
    requires y % 100 == 0
    ensures y % 4 == 0
  {
    var k := y / 100;
    assert y == 4 * (25 * k);
  }

  lemma MonthStep(y: int, m: int)
    requires 1 <= m <= 12
    ensures DaysBeforeMonth(y, m + 1) == DaysBeforeMonth(y, m) + DaysInMonth(y, m)
  {
  }

  /** The year's months tile it: month `m` occupies [DaysBeforeMonth(m), DaysBeforeMonth(m+1)). */
  lemma MonthsAreOrdered(y: int, m1: int, m2: int)
    requires 1 <= m1 < m2 <= 13
    ensures DaysBeforeMonth(y, m1 + 1) <= DaysBeforeMonth(y, m2)
  {
  }

  lemma {:induction false} YearsAreOrdered(y1: int, y2: int)
    requires y1 < y2
    ensures DaysBeforeYear(y1 + 1) <= DaysBeforeYear(y2)
    decreases y2 - y1
  {
    if y1 + 1 < y2 {
      YearsAreOrdered(y1 + 1, y2);
      YearStep(y1 + 1);
    }
  }

  /** `d` lies within its own year's block of day numbers. */
  lemma WithinYear(d: Date)
    requires Valid(d)
    ensures DaysBeforeYear(d.year) <= DayNumber(d) < DaysBeforeYear(d.year + 1)
  {
    YearStep(d.year);
    MonthStep(d.year, d.month);
    MonthsAreOrdered(d.year, d.month, 13);
  }

  /** Calendar (lexicographic) order of valid dates. */
  predicate Before(a: Date, b: Date) {
    a.year < b.year || (a.year == b.year && (a.month < b.month || (a.month == b.month && a.day < b.day)))
  }

  /** Day numbers follow calendar order, so two valid dates are equal exactly when their day numbers are. */
  lemma DayNumberOrder(a: Date, b: Date)
    requires Valid(a) && Valid(b)
    ensures Before(a, b) <==> DayNumber(a) < DayNumber(b)
    ensures a == b <==> DayNumber(a) == DayNumber(b)
  {
    WithinYear(a);
    WithinYear(b);
    if a.year < b.year {
      YearsAreOrdered(a.year, b.year);
    } else if b.year < a.year {
      YearsAreOrdered(b.year, a.year);
    } else if a.month < b.month {
      MonthStep(a.year, a.month);
      MonthsAreOrdered(a.year, a.month, b.month);
    } else if b.month < a.month {
      MonthStep(b.year, b.month);
      MonthsAreOrdered(b.year, b.month, a.month);
    }
  }

  /** The next calendar day. */
  function Succ(d: Date): (r: Date)
    requires Valid(d)
    ensures Valid(r) && DayNumber(r) == DayNumber(d) + 1
  {
    if d.day < DaysInMonth(d.year, d.month) then
      Date(d.year, d.month, d.day + 1)
    else if d.month < 12 then
      MonthBoundary(d.year, d.month);
      Date(d.year, d.month + 1, 1)
    else
      YearBoundary(d.year);
      Date(d.year + 1, 1, 1)
  }

  /** The previous calendar day. */
  function Pred(d: Date): (r: Date)
    requires Valid(d)
    ensures Valid(r) && DayNumber(r) == DayNumber(d) - 1
  {
    if d.day > 1 then
      Date(d.year, d.month, d.day - 1)
    else if d.month > 1 then
      MonthBoundary(d.year, d.month - 1);
      Date(d.year, d.month - 1, DaysInMonth(d.year, d.month - 1))
    else
      YearBoundary(d.year - 1);
      Date(d.year - 1, 12, 31)
  }

  /** The last day of a month other than December is followed by the 1st of the next. */
  lemma MonthBoundary(y: int, m: int)
    requires 1 <= m < 12
    ensures Valid(Date(y, m, DaysInMonth(y, m)))
    ensures DayNumber(Date(y, m + 1, 1)) == DayNumber(Date(y, m, DaysInMonth(y, m))) + 1
  {
    MonthStep(y, m);
  }

  /** December 31st is followed by January 1st of the next year. */
  lemma YearBoundary(y: int)
    ensures Valid(Date(y, 12, 31))
    ensures DayNumber(Date(y + 1, 1, 1)) == DayNumber(Date(y, 12, 31)) + 1
  {
    YearStep(y);
    assert DaysBeforeMonth(y, 12) + 31 == YearLength(y);
  }

  /** `d` moved by `k` days, the way `date.setDate(date.getDate() + k)` moves a JavaScript date:
      stepping across month and year boundaries one day at a time. */
  function AddDays(d: Date, k: int): (r: Date)
    requires Valid(d)
    ensures Valid(r) && DayNumber(r) == DayNumber(d) + k
    decreases if k < 0 then -k else k
  {
    if k == 0 then d
    else if k > 0 then AddDays(Succ(d), k - 1)
    else AddDays(Pred(d), k + 1)
  }

  /** `new Date(y, monthIndex, day)`: a 0-based month index outside 0..11 carries into the
      year, and a day outside the month (0 is "the day before the 1st") carries into the
      neighbouring months. */
  function JsDate(y: int, monthIndex: int, day: int): (r: Date)
    ensures Valid(r)
  {
    AddDays(Date(y + monthIndex / 12, monthIndex % 12 + 1, 1), day - 1)
  }

  /** JavaScript's `getDay()`: 0 is Sunday (0001-01-01, day number 0, was a Monday). */
  function Weekday(d: Date): (w: int)
    requires Valid(d)
    ensures 0 <= w < 7
  {
    (DayNumber(d) + 1) % 7
  }

  /** `d.setDate(d.getDate() - d.getDay())`: the start of `d`'s week. */
  function StartOfWeek(d: Date): (s: Date)
    requires Valid(d)
    ensures Valid(s)
  {
    AddDays(d, -Weekday(d))
  }

  /** Integer core of the week arithmetic: stepping back (n+1) % 7 days from day n lands on
      a day m with (m+1) % 7 == 0, the latest such day not after n. */
  lemma SevenFloor(n: int)
    ensures (n - (n + 1) % 7 + 1) % 7 == 0
  {
    var p := (n + 1) / 7;
    assert n + 1 == 7 * p + (n + 1) % 7;
    assert n - (n + 1) % 7 + 1 == 7 * p;
  }

  lemma LatestMultipleOfSeven(n: int, m: int)
    requires (m + 1) % 7 == 0 && m <= n
    ensures m <= n - (n + 1) % 7
  {
    var p := (n + 1) / 7;
    var q := (m + 1) / 7;
    assert n + 1 == 7 * p + (n + 1) % 7;
    assert m + 1 == 7 * q;
    assert q <= p;
  }

  /** The start of the week is a Sunday at most six days before `d`. */
  lemma StartOfWeekIsSunday(d: Date)
    requires Valid(d)
    ensures Weekday(StartOfWeek(d)) == 0
    ensures DayNumber(d) - 6 <= DayNumber(StartOfWeek(d)) <= DayNumber(d)
  {
    StartOfWeekNumber(d);
    SevenFloor(DayNumber(d));
  }

  /** No Sunday on or before `d` is later than the start of `d`'s week. */
  lemma StartOfWeekIsLatestSunday(d: Date, e: Date)
    requires Valid(d) && Valid(e)
    requires Weekday(e) == 0 && DayNumber(e) <= DayNumber(d)
    ensures DayNumber(e) <= DayNumber(StartOfWeek(d))
  {
    StartOfWeekNumber(d);
    LatestMultipleOfSeven(DayNumber(d), DayNumber(e));
  }

  lemma StartOfWeekNumber(d: Date)
    requires Valid(d)
    ensures DayNumber(StartOfWeek(d)) == DayNumber(d) - (DayNumber(d) + 1) % 7
  {
  }

  /** `new Date(y, k, 1)` with a month index in range is the 1st of month k+1. */
  lemma JsDateFirstOfMonth(y: int, k: int)
    requires 0 <= k <= 11
    ensures JsDate(y, k, 1) == Date(y, k + 1, 1)
  {
  }

  /** Day 0 of the month after month `m` is the last day of month `m`, with December
      carrying into January of the next year. */
  lemma JsDateDayZero(y: int, m: int)
    requires 1 <= m <= 12
    ensures JsDate(y, m, 0) == Date(y, m, DaysInMonth(y, m))
  {
    var next := if m < 12 then Date(y, m + 1, 1) else Date(y + 1, 1, 1);
    assert Date(y + m / 12, m % 12 + 1, 1) == next;
    assert AddDays(next, -1) == AddDays(Pred(next), 0) == Pred(next);
  }
}
