/** Gregorian calendar arithmetic behind the two month grids: the JavaScript `Date`
    operations they use (`new Date(y, m, d)`, `getDay`, `getDate`, `setMonth`), stated
    over a proleptic Gregorian day count. Months are 0-based as in JavaScript. */
module CalendarMath {

  predicate IsLeapYear(y: int)
  {
    (y % 4 == 0 && y % 100 != 0) || y % 400 == 0
  }

  /** The number of days of month `m` (0 = January) of year `y`. */
  function DaysInMonth(y: int, m: int): (n: nat)
    requires 0 <= m < 12
    ensures 28 <= n <= 31
    ensures m == 1 ==> (n == 29 <==> IsLeapYear(y)) && (n == 28 <==> !IsLeapYear(y))
    ensures m != 1 ==> (n == 30 <==> m in {3, 5, 8, 10}) && (n == 31 <==> m !in {3, 5, 8, 10})
  {
    if m == 1 then (if IsLeapYear(y) then 29 else 28)
    else if m == 3 || m == 5 || m == 8 || m == 10 then 30
    else 31
  }

  /** A calendar date as a JavaScript `Date` holds it (in local time). */
  datatype Date = Date(year: int, month: int, day: int)
  {
    predicate Valid()
    {
      0 <= month < 12 && 1 <= day <= DaysInMonth(year, month)
    }
  }

  /** Days from 1 January of year 1 to 1 January of year `y`. */
  function DaysBeforeYear(y: int): int
  {
    365 * (y - 1) + (y - 1) / 4 - (y - 1) / 100 + (y - 1) / 400
  }

  /** Days from 1 January to the first of month `m` (0 to 11). */
  function DaysBeforeMonth(y: int, m: int): nat
    requires 0 <= m < 12
  {
    [0, 31, 59, 90, 120, 151, 181, 212, 243, 273, 304, 334][m]
    + (if m >= 2 && IsLeapYear(y) then 1 else 0)
  }

  /** The day count of a date; 1 January of year 1 (a Monday) is day 0. */
  function DayNumber(y: int, m: int, d: int): int
    requires 0 <= m < 12
  {
    DaysBeforeYear(y) + DaysBeforeMonth(y, m) + d - 1
  }

  /** `getDay()`: 0 = Sunday … 6 = Saturday. */
  function Weekday(y: int, m: int, d: int): (w: int)
    requires 0 <= m < 12
    ensures 0 <= w < 7
  {
    (DayNumber(y, m, d) + 1) % 7
  }

  /** The grid's column: `getDay() - 1`, with Sunday moved to 6 (Monday-first). */
  function MondayFirst(getDay: int): (c: int)
    requires 0 <= getDay < 7
    ensures 0 <= c < 7
    ensures getDay == 0 ==> c == 6
    ensures getDay != 0 ==> c == getDay - 1
  {
    var s := getDay - 1;
    if s < 0 then 6 else s
  }

  /** The Monday-first column of a date is its day count modulo 7, i.e. the number of
      days since the last Monday. */
  lemma MondayFirstIsDaysSinceMonday(y: int, m: int, d: int)
    requires 0 <= m < 12
    ensures MondayFirst(Weekday(y, m, d)) == DayNumber(y, m, d) % 7
  {
  }

  /** `new Date(y, m, d)` reads a year from 0 to 99 as 1900 + y. */
  function CtorYear(y: int): int
  {
    if 0 <= y <= 99 then 1900 + y else y
  }

  /** Between two consecutive years, `y / k` grows by one exactly when `k` divides `y`,
      for the three divisors of the leap-year rule. */
  lemma FloorSteps(y: int)
    ensures y / 4 - (y - 1) / 4 == if y % 4 == 0 then 1 else 0
    ensures y / 100 - (y - 1) / 100 == if y % 100 == 0 then 1 else 0
    ensures y / 400 - (y - 1) / 400 == if y % 400 == 0 then 1 else 0
  {
  }

  lemma MultipleOf400(y: int)
    requires y % 400 == 0
    ensures y % 100 == 0 && y % 4 == 0
  {
    var q := y / 400;
    assert y == 100 * (4 * q);
    assert y == 4 * (100 * q);
  }

  lemma MultipleOf100(y: int)
    requires y % 100 == 0
    ensures y % 4 == 0
  {
    var q := y / 100;
    assert y == 4 * (25 * q);
  }

  /** A year has 366 days exactly when it is a leap year. */
  lemma YearLength(y: int)
    ensures DaysBeforeYear(y + 1) - DaysBeforeYear(y) == if IsLeapYear(y) then 366 else 365
  {
    FloorSteps(y);
    assert DaysBeforeYear(y + 1) - DaysBeforeYear(y)
           == 365 + (y / 4 - (y - 1) / 4) - (y / 100 - (y - 1) / 100) + (y / 400 - (y - 1) / 400);
    if y % 400 == 0 {
      MultipleOf400(y);
    } else if y % 100 == 0 {
      MultipleOf100(y);
    }
  }

  /** Each month starts where the previous one ends, and December ends the year. */
  lemma DaysBeforeMonthStep(y: int, m: int)
    requires 0 <= m < 12
    ensures m < 11 ==> DaysBeforeMonth(y, m + 1) == DaysBeforeMonth(y, m) + DaysInMonth(y, m)
    ensures m == 11 ==> DaysBeforeMonth(y, m) + DaysInMonth(y, m) == if IsLeapYear(y) then 366 else 365
  {
  }

  /** The first of the next month: month `m + 1`, or January of the next year. */
  function NextMonth(y: int, m: int): (ym: (int, int))
    requires 0 <= m < 12
    ensures 0 <= ym.1 < 12
  {
    if m == 11 then (y + 1, 0) else (y, m + 1)
  }

  /** The first of the next month comes `DaysInMonth` days after the first of this
      month; in particular day 0 of the next month is the last day of this one,
      which is how `new Date(year, month + 1, 0).getDate()` finds the length. */
  lemma NextMonthStart(y: int, m: int)
    requires 0 <= m < 12
    ensures DayNumber(NextMonth(y, m).0, NextMonth(y, m).1, 1) == DayNumber(y, m, 1) + DaysInMonth(y, m)
    ensures DayNumber(NextMonth(y, m).0, NextMonth(y, m).1, 0) == DayNumber(y, m, DaysInMonth(y, m))
  {
    DaysBeforeMonthStep(y, m);
    if m == 11 {
      YearLength(y);
    }
  }

  lemma ModAdd(a: int, n: int)
    ensures (a % 7 + n) % 7 == (a + n) % 7
  {
    var q := a / 7;
    assert a + n == 7 * q + (a % 7 + n);
  }

  /** Consecutive months: the next month starts `DaysInMonth` columns further on. */
  lemma NextMonthOffset(y: int, m: int)
    requires 0 <= m < 12
    ensures MondayFirst(Weekday(NextMonth(y, m).0, NextMonth(y, m).1, 1))
            == (MondayFirst(Weekday(y, m, 1)) + DaysInMonth(y, m)) % 7
  {
    NextMonthStart(y, m);
    MondayFirstIsDaysSinceMonday(y, m, 1);
    MondayFirstIsDaysSinceMonday(NextMonth(y, m).0, NextMonth(y, m).1, 1);
    ModAdd(DayNumber(y, m, 1), DaysInMonth(y, m));
  }

  /** `getDaysInMonth(date)`: the length of its month and the Monday-first column of
      its first day, both computed from `new Date(year, month, …)`. */
  function GetDaysInMonth(date: Date): (r: (nat, int))
    requires date.Valid()
    ensures 28 <= r.0 <= 31
    ensures 0 <= r.1 < 7
  {
    var y := CtorYear(date.year);
    (DaysInMonth(y, date.month), MondayFirst(Weekday(y, date.month, 1)))
  }

  /** `setMonth(month + delta)` on a copy: the month index moves by `delta` (the year
      carries), the day of the month is kept, and a day past the end of the target
      month overflows into the following month, as JavaScript normalises it. */
  function AddMonths(date: Date, delta: int): (r: Date)
    requires date.Valid()
    ensures r.Valid()
  {
    var idx := date.month + delta;
    var y, m := date.year + idx / 12, idx % 12;
    var n := DaysInMonth(y, m);
    if date.day <= n then Date(y, m, date.day)
    else
      var (y2, m2) := NextMonth(y, m);
      Date(y2, m2, date.day - n)
  }

  /** The month index `12 * year + month`. */
  function MonthIndex(date: Date): int
  {
    12 * date.year + date.month
  }

  /** Whenever the day exists in the target month (always for the first of a month),
      `setMonth` moves the month index by exactly `delta` and keeps the day. */
  lemma AddMonthsMovesIndex(date: Date, delta: int)
    requires date.Valid() && date.day <= 28
    ensures MonthIndex(AddMonths(date, delta)) == MonthIndex(date) + delta
    ensures AddMonths(date, delta).day == date.day
  {
    var idx := date.month + delta;
    assert idx == 12 * (idx / 12) + idx % 12;
  }

  /** One step forward or back, with the year rolling over at the ends. */
  lemma NavigateOneMonth(date: Date)
    requires date.Valid() && date.day == 1
    ensures AddMonths(date, 1) == (if date.month == 11 then Date(date.year + 1, 0, 1)
                                   else Date(date.year, date.month + 1, 1))
    ensures AddMonths(date, -1) == (if date.month == 0 then Date(date.year - 1, 11, 1)
                                    else Date(date.year, date.month - 1, 1))
    ensures AddMonths(AddMonths(date, 1), -1) == date
  {
  }

  /** Past the end: 31 March plus one month is 1 May, since April has 30 days. */
  lemma AddMonthsOverflows()
    ensures AddMonths(Date(2026, 2, 31), 1) == Date(2026, 4, 1)
  {
  }

  /** February 2026, the month both grids open on, starts on a Sunday. */
  lemma February2026()
    ensures GetDaysInMonth(Date(2026, 1, 1)) == (28, 6)
  {
  }
}
