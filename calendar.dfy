/** The calendar arithmetic that the repositories get from JavaScript's
    `Date`: the normalising constructor `new Date(y, monthIndex, day)`,
    `setDate`, `getDay`, and the comparison of instants.

    A `Moment` is an instant seen in the server's local time zone: a
    calendar date and the milliseconds elapsed since local midnight.  The
    offset from UTC is taken to be fixed (daylight-saving changes are not
    modelled), so comparing two Moments compares the instants. */
module Calendar {

  predicate IsLeapYear(y: int)
  {
    y % 4 == 0 && (y % 100 != 0 || y % 400 == 0)
  }

  function DaysInMonth(y: int, m: int): (n: int)
    requires 1 <= m <= 12
    ensures 28 <= n <= 31
    ensures n == 29 <==> m == 2 && IsLeapYear(y)
  {
    if m == 2 then (if IsLeapYear(y) then 29 else 28)
    else if m == 4 || m == 6 || m == 9 || m == 11 then 30
    else 31
  }

  /** A year, a 1-based month and a day, not necessarily a real date. */
  datatype Date = Date(year: int, month: int, day: int)
  {
    predicate Valid()
    {
      1 <= month <= 12 && 1 <= day <= DaysInMonth(year, month)
    }
  }

  /** A date that exists on the proleptic Gregorian calendar. */
  type CalendarDate = d: Date | d.Valid() witness Date(1970, 1, 1)

  /** Milliseconds since local midnight. */
  type TimeOfDay = ms: int | 0 <= ms < 86400000

  datatype Moment = Moment(date: CalendarDate, ms: TimeOfDay)

  /** Lexicographic order on (year, month, day). */
  predicate DateBefore(a: Date, b: Date)
  {
    a.year < b.year
    || (a.year == b.year && a.month < b.month)
    || (a.year == b.year && a.month == b.month && a.day < b.day)
  }

  predicate DateAtOrBefore(a: Date, b: Date)
  {
    a == b || DateBefore(a, b)
  }

  predicate Before(a: Moment, b: Moment)
  {
    DateBefore(a.date, b.date) || (a.date == b.date && a.ms < b.ms)
  }

  predicate AtOrBefore(a: Moment, b: Moment)
  {
    a == b || Before(a, b)
  }

  /** Instants are totally ordered. */
  lemma AtOrBeforeTotal(a: Moment, b: Moment)
    ensures AtOrBefore(a, b) || AtOrBefore(b, a)
  {
  }

  lemma AtOrBeforeTransitive(a: Moment, b: Moment, c: Moment)
    requires AtOrBefore(a, b) && AtOrBefore(b, c)
    ensures AtOrBefore(a, c)
  {
  }

  /** Prisma's `{ gte: lo, lt: hi }`. */
  predicate InRange(t: Moment, lo: Moment, hi: Moment)
  {
    AtOrBefore(lo, t) && Before(t, hi)
  }

  // ---------------------------------------------------------------------
  // Day numbers: days elapsed since 1970-01-01 (negative before it).

  function DaysBeforeYear(y: int): int
  {
    365 * (y - 1) + (y - 1) / 4 - (y - 1) / 100 + (y - 1) / 400
  }

  function DaysBeforeMonth(y: int, m: int): int
    requires 1 <= m <= 12
  {
    var cumulative :=
      if m == 1 then 0 else if m == 2 then 31 else if m == 3 then 59
      else if m == 4 then 90 else if m == 5 then 120 else if m == 6 then 151
      else if m == 7 then 181 else if m == 8 then 212 else if m == 9 then 243
      else if m == 10 then 273 else if m == 11 then 304 else 334;
    cumulative + (if m > 2 && IsLeapYear(y) then 1 else 0)
  }

  /** The day number of day `d` counted from the first of month `m` of year
      `y`; `d` may lie outside the month. */
  function DayNumber(y: int, m: int, d: int): int
    requires 1 <= m <= 12
  {
    DaysBeforeYear(y) + DaysBeforeMonth(y, m) + d - 719163
  }

  function DayNumberOf(d: CalendarDate): int
  {
    DayNumber(d.year, d.month, d.day)
  }

  function NextMonthYear(y: int, m: int): int { if m == 12 then y + 1 else y }
  function NextMonth(m: int): int { if m == 12 then 1 else m + 1 }
  function PrevMonthYear(y: int, m: int): int { if m == 1 then y - 1 else y }
  function PrevMonth(m: int): int { if m == 1 then 12 else m - 1 }

  lemma YearLength(y: int)
    ensures DaysBeforeYear(y + 1) == DaysBeforeYear(y) + DaysBeforeMonth(y, 12) + 31
  {
    DivStep(y);
    LeapDivisors(y);
  }

  /** Going from year y - 1 to y passes one more multiple of k exactly when
      y is one. */
  lemma DivStep(y: int)
    ensures y / 4 - (y - 1) / 4 == if y % 4 == 0 then 1 else 0
    ensures y / 100 - (y - 1) / 100 == if y % 100 == 0 then 1 else 0
    ensures y / 400 - (y - 1) / 400 == if y % 400 == 0 then 1 else 0
  {
  }

  lemma LeapDivisors(y: int)
    ensures y % 100 == 0 ==> y % 4 == 0
    ensures y % 400 == 0 ==> y % 100 == 0
  {
    if y % 100 == 0 {
      Multiple4(y, y / 100 * 25);
    }
    if y % 400 == 0 {
      Multiple100(y, y / 400 * 4);
    }
  }

  lemma Multiple4(y: int, q: int)
    requires y == 4 * q
    ensures y % 4 == 0
  {
  }

  lemma Multiple100(y: int, q: int)
    requires y == 100 * q
    ensures y % 100 == 0
  {
  }

  /** The first of the following month lies DaysInMonth days later. */
  lemma MonthLength(y: int, m: int)
    requires 1 <= m <= 12
    ensures DayNumber(NextMonthYear(y, m), NextMonth(m), 1) == DayNumber(y, m, 1) + DaysInMonth(y, m)
  {
    if m == 12 {
      YearLength(y);
    }
  }

  // ---------------------------------------------------------------------
  // new Date(y, monthIndex, day)

  /** Day `d` counted from the first of month `m` of year `y`, carried into
      earlier or later months until it names a real date. */
  function NormalizeDay(y: int, m: int, d: int): CalendarDate
    requires 1 <= m <= 12
    decreases if d < 1 then 1 else 0, if d < 1 then -d else d
  {
    if d < 1 then
      NormalizeDay(PrevMonthYear(y, m), PrevMonth(m), d + DaysInMonth(PrevMonthYear(y, m), PrevMonth(m)))
    else if d > DaysInMonth(y, m) then
      NormalizeDay(NextMonthYear(y, m), NextMonth(m), d - DaysInMonth(y, m))
    else
      Date(y, m, d)
  }

  /** ECMA-262 MakeDay on a year that is used as given: the month index is
      carried into the year first (so 12 is January of the next year and -1
      December of the previous one), then the day is counted from the first
      of that month. */
  function MakeDate(y: int, monthIndex: int, day: int): CalendarDate
  {
    NormalizeDay(y + monthIndex / 12, monthIndex % 12 + 1, day)
  }

  /** The Date constructor with several arguments reads a year from 0 to 99
      as 1900 to 1999 (section 21.4.2.1 of ECMA-262). */
  function ConstructorYear(y: int): int
  {
    if 0 <= y <= 99 then 1900 + y else y
  }

  /** The calendar date of `new Date(y, monthIndex, day)`. */
  function LocalDate(y: int, monthIndex: int, day: int): CalendarDate
  {
    MakeDate(ConstructorYear(y), monthIndex, day)
  }

  /** `new Date(y, monthIndex, day)`: local midnight of LocalDate. */
  function LocalMidnight(y: int, monthIndex: int, day: int): Moment
  {
    Moment(LocalDate(y, monthIndex, day), 0)
  }

  /** `d.setDate(d.getDate() + 1)`. */
  function NextDay(d: CalendarDate): CalendarDate
  {
    MakeDate(d.year, d.month - 1, d.day + 1)
  }

  /** `d.setDate(d.getDate() - 1)`. */
  function PrevDay(d: CalendarDate): CalendarDate
  {
    MakeDate(d.year, d.month - 1, d.day - 1)
  }

  /** `getDay()`: 0 is Sunday; 1970-01-01 was a Thursday. */
  function DayOfWeek(d: CalendarDate): (w: int)
    ensures 0 <= w <= 6
  {
    (DayNumberOf(d) + 4) % 7
  }

  // ---------------------------------------------------------------------
  // Properties of the normalising constructor

  lemma {:induction false} NormalizeDayNumber(y: int, m: int, d: int)
    requires 1 <= m <= 12
    ensures DayNumberOf(NormalizeDay(y, m, d)) == DayNumber(y, m, 1) + d - 1
    decreases if d < 1 then 1 else 0, if d < 1 then -d else d
  {
    if d < 1 {
      var py, pm := PrevMonthYear(y, m), PrevMonth(m);
      NormalizeDayNumber(py, pm, d + DaysInMonth(py, pm));
      MonthLength(py, pm);
      assert NextMonthYear(py, pm) == y && NextMonth(pm) == m;
    } else if d > DaysInMonth(y, m) {
      NormalizeDayNumber(NextMonthYear(y, m), NextMonth(m), d - DaysInMonth(y, m));
      MonthLength(y, m);
    }
  }

  /** MakeDate yields the date that ECMA-262's MakeDay describes: the day
      number of the first of the carried month, plus day - 1. */
  lemma MakeDateIsMakeDay(y: int, monthIndex: int, day: int)
    ensures DayNumberOf(MakeDate(y, monthIndex, day))
         == DayNumber(y + monthIndex / 12, monthIndex % 12 + 1, 1) + day - 1
  {
    NormalizeDayNumber(y + monthIndex / 12, monthIndex % 12 + 1, day);
  }

  /** A real date passes through the constructor unchanged. */
  lemma MakeDateOfValid(d: CalendarDate)
    ensures MakeDate(d.year, d.month - 1, d.day) == d
  {
  }

  /** Day numbers grow by DaysInMonth from one first-of-month to the next,
      hence by at least one year's length from one year to the next. */
  lemma {:induction false} DaysBeforeYearMonotone(a: int, b: int)
    requires a < b
    ensures DaysBeforeYear(b) >= DaysBeforeYear(a) + DaysBeforeMonth(a, 12) + 31
    decreases b - a
  {
    YearLength(a);
    if a + 1 < b {
      DaysBeforeYearMonotone(a + 1, b);
      YearLength(a + 1);
    }
  }

  lemma MonthsMonotone(y: int, m1: int, m2: int)
    requires 1 <= m1 < m2 <= 12
    ensures DaysBeforeMonth(y, m2) >= DaysBeforeMonth(y, m1) + DaysInMonth(y, m1)
  {
  }

  /** On real dates, day-number order is calendar order. */
  lemma DayNumberOrder(a: CalendarDate, b: CalendarDate)
    ensures DateBefore(a, b) <==> DayNumberOf(a) < DayNumberOf(b)
    ensures a == b <==> DayNumberOf(a) == DayNumberOf(b)
  {
    if a.year < b.year {
      DaysBeforeYearMonotone(a.year, b.year);
    } else if b.year < a.year {
      DaysBeforeYearMonotone(b.year, a.year);
    } else if a.month < b.month {
      MonthsMonotone(a.year, a.month, b.month);
    } else if b.month < a.month {
      MonthsMonotone(a.year, b.month, a.month);
    }
  }

  /** A date's day number counts its day from the first of its month. */
  lemma DayNumberFromMonthStart(d: CalendarDate)
    ensures DayNumberOf(d) == DayNumber(d.year, d.month, 1) + d.day - 1
  {
  }

  lemma ModSucc(n: int)
    ensures (n + 1) % 7 == (n % 7 + 1) % 7
  {
  }

  /** The next day is one day number later, so the weekday advances by one. */
  lemma NextDayAdvances(d: CalendarDate)
    ensures DayNumberOf(NextDay(d)) == DayNumberOf(d) + 1
    ensures DayOfWeek(NextDay(d)) == (DayOfWeek(d) + 1) % 7
    ensures DateBefore(d, NextDay(d))
  {
    NextDayNumber(d);
    ModSucc(DayNumberOf(d) + 4);
    DayNumberOrder(d, NextDay(d));
  }

  lemma NextDayNumber(d: CalendarDate)
    ensures DayNumberOf(NextDay(d)) == DayNumberOf(d) + 1
  {
    MonthIndexOfValid(d.month);
    assert NextDay(d) == NormalizeDay(d.year, d.month, d.day + 1);
    NormalizeDayNumber(d.year, d.month, d.day + 1);
    DayNumberFromMonthStart(d);
  }

  /** A month 1..12, as a month index, carries nothing into the year. */
  lemma MonthIndexOfValid(m: int)
    requires 1 <= m <= 12
    ensures (m - 1) / 12 == 0 && (m - 1) % 12 + 1 == m
  {
  }

  lemma PrevDayRecedes(d: CalendarDate)
    ensures DayNumberOf(PrevDay(d)) == DayNumberOf(d) - 1
    ensures DateBefore(PrevDay(d), d)
  {
    MonthIndexOfValid(d.month);
    assert PrevDay(d) == NormalizeDay(d.year, d.month, d.day - 1);
    NormalizeDayNumber(d.year, d.month, d.day - 1);
    DayNumberFromMonthStart(d);
    DayNumberOrder(PrevDay(d), d);
  }

  /** A day that exists in the carried month is kept; a larger one (but at
      most 31) lands in the following month. */
  lemma MakeDateInMonth(y: int, monthIndex: int, day: int)
    requires 1 <= day <= 31
    ensures var cy, cm := y + monthIndex / 12, monthIndex % 12 + 1;
      if day <= DaysInMonth(cy, cm) then MakeDate(y, monthIndex, day) == Date(cy, cm, day)
      else MakeDate(y, monthIndex, day) == Date(NextMonthYear(cy, cm), NextMonth(cm), day - DaysInMonth(cy, cm))
  {
    var cy, cm := y + monthIndex / 12, monthIndex % 12 + 1;
    if day > DaysInMonth(cy, cm) {
      assert day - DaysInMonth(cy, cm) <= 3;
      assert NormalizeDay(NextMonthYear(cy, cm), NextMonth(cm), day - DaysInMonth(cy, cm))
          == Date(NextMonthYear(cy, cm), NextMonth(cm), day - DaysInMonth(cy, cm));
    }
  }

  /** The month window [new Date(y, m - 1, 1), new Date(y, m, 1)) holds
      exactly the instants of calendar month m of the constructor's year,
      December included. */
  lemma MonthWindowExact(t: Moment, year: int, month: int)
    requires 1 <= month <= 12
    ensures InRange(t, LocalMidnight(year, month - 1, 1), LocalMidnight(year, month, 1))
        <==> t.date.year == ConstructorYear(year) && t.date.month == month
  {
    var y := ConstructorYear(year);
    MakeDateInMonth(y, month - 1, 1);
    MakeDateInMonth(y, month, 1);
    assert LocalMidnight(year, month - 1, 1).date == Date(y, month, 1);
    assert LocalMidnight(year, month, 1).date == Date(NextMonthYear(y, month), NextMonth(month), 1);
  }

  /** The year window [new Date(y, 0, 1), new Date(y + 1, 0, 1)) holds
      exactly the instants of the constructor's year, when the constructor
      reads year and year + 1 alike (any year except -1 and 99). */
  lemma YearWindowExact(t: Moment, year: int)
    requires year != -1 && year != 99
    ensures InRange(t, LocalMidnight(year, 0, 1), LocalMidnight(year + 1, 0, 1))
        <==> t.date.year == ConstructorYear(year)
  {
    MakeDateInMonth(ConstructorYear(year), 0, 1);
    MakeDateInMonth(ConstructorYear(year + 1), 0, 1);
    assert ConstructorYear(year + 1) == ConstructorYear(year) + 1;
  }

  lemma KnownWeekdays()
    ensures DayOfWeek(Date(1970, 1, 1)) == 4
    ensures DayOfWeek(Date(2024, 2, 15)) == 4
    ensures DayOfWeek(Date(2026, 10, 14)) == 3
  {
  }
}
