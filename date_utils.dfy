/** `parseDateLocal`: turns an optional string or Date into a local date.

    A Date argument contributes only its UTC calendar fields, so it is
    represented by them.  The generic JavaScript date parser used for any
    other string is a parameter: it yields `None` for an unparseable string
    (an Invalid Date) and otherwise some instant. */
module DateUtils {

  import opened Common
  import opened Calendar

  datatype DateInput =
    | Missing                                            // null or undefined
    | DateValue(utcDate: CalendarDate, utcMs: TimeOfDay)  // a Date, read in UTC
    | Text(s: string)

  predicate IsDigit(c: char) { '0' <= c <= '9' }

  function DigitValue(c: char): int { c as int - '0' as int }

  function DigitChar(n: int): char
    requires 0 <= n <= 9
  {
    ('0' as int + n) as char
  }

  /** The regular expression `^(\d{4})-(\d{2})-(\d{2})$`. */
  predicate IsIsoDateOnly(s: string)
  {
    && |s| == 10
    && IsDigit(s[0]) && IsDigit(s[1]) && IsDigit(s[2]) && IsDigit(s[3])
    && s[4] == '-'
    && IsDigit(s[5]) && IsDigit(s[6])
    && s[7] == '-'
    && IsDigit(s[8]) && IsDigit(s[9])
  }

  // `Number(...)` of the three captured groups.

  function IsoYear(s: string): int
    requires IsIsoDateOnly(s)
  {
    1000 * DigitValue(s[0]) + 100 * DigitValue(s[1]) + 10 * DigitValue(s[2]) + DigitValue(s[3])
  }

  function IsoMonth(s: string): int
    requires IsIsoDateOnly(s)
  {
    10 * DigitValue(s[5]) + DigitValue(s[6])
  }

  function IsoDay(s: string): int
    requires IsIsoDateOnly(s)
  {
    10 * DigitValue(s[8]) + DigitValue(s[9])
  }

  /** The function as the source writes it: both date-only branches call
      `new Date(y, m, d)`, whose year rule maps 0..99 to 1900..1999. */
  function ParseDateLocalAsWritten(value: DateInput, genericParse: string -> Option<Moment>): (r: Option<Moment>)
    ensures value.Missing? ==> r == None
    ensures value.Text? && !IsIsoDateOnly(value.s) ==> r == genericParse(value.s)
    ensures value.DateValue? ==>
      r == Some(LocalMidnight(value.utcDate.year, value.utcDate.month - 1, value.utcDate.day))
    ensures value.Text? && IsIsoDateOnly(value.s) ==>
      r == Some(LocalMidnight(IsoYear(value.s), IsoMonth(value.s) - 1, IsoDay(value.s)))
  {
    match value
    case Missing => None
    case DateValue(d, _) => Some(LocalMidnight(d.year, d.month - 1, d.day))
    case Text(s) =>
      if IsIsoDateOnly(s) then Some(LocalMidnight(IsoYear(s), IsoMonth(s) - 1, IsoDay(s)))
      else genericParse(s)
  }

  /** Local midnight of the proleptic (year, month index, day), with the
      constructor's overflow normalisation but without its two-digit year
      rule: what `new Date(0)` followed by `setFullYear(y, m, d)` and
      `setHours(0, 0, 0, 0)` builds. */
  function MidnightOf(y: int, monthIndex: int, day: int): Moment
  {
    Moment(MakeDate(y, monthIndex, day), 0)
  }

  /** The function with the year taken literally: a Date input keeps its
      UTC calendar date, a `YYYY-MM-DD` string is read as written. */
  function ParseDateLocal(value: DateInput, genericParse: string -> Option<Moment>): (r: Option<Moment>)
    ensures value.Missing? ==> r == None
    ensures value.DateValue? ==> r == Some(Moment(value.utcDate, 0))
    ensures value.Text? && !IsIsoDateOnly(value.s) ==> r == genericParse(value.s)
    ensures value.Text? && IsIsoDateOnly(value.s) ==> r.Some? && r.value.ms == 0
  {
    match value
    case Missing => None
    case DateValue(d, _) =>
      MakeDateOfValid(d);
      Some(MidnightOf(d.year, d.month - 1, d.day))
    case Text(s) =>
      if IsIsoDateOnly(s) then Some(MidnightOf(IsoYear(s), IsoMonth(s) - 1, IsoDay(s)))
      else genericParse(s)
  }

  // ---------------------------------------------------------------------
  // Formatting, the partner of the date-only branch.

  /** `YYYY-MM-DD` of a date whose year has at most four digits. */
  function FormatIso(d: CalendarDate): (s: string)
    requires 0 <= d.year <= 9999
    ensures IsIsoDateOnly(s)
  {
    [DigitChar(d.year / 1000), DigitChar(d.year / 100 % 10), DigitChar(d.year / 10 % 10), DigitChar(d.year % 10),
     '-', DigitChar(d.month / 10), DigitChar(d.month % 10),
     '-', DigitChar(d.day / 10), DigitChar(d.day % 10)]
  }

  lemma FormatIsoFields(d: CalendarDate)
    requires 0 <= d.year <= 9999
    ensures IsoYear(FormatIso(d)) == d.year
    ensures IsoMonth(FormatIso(d)) == d.month
    ensures IsoDay(FormatIso(d)) == d.day
  {
    var s, y := FormatIso(d), d.year;
    FourDigitSplit(y);
    TwoDigitSplit(d.month);
    TwoDigitSplit(d.day);
    assert DigitValue(s[0]) == y / 1000 && DigitValue(s[1]) == y / 100 % 10;
    assert DigitValue(s[2]) == y / 10 % 10 && DigitValue(s[3]) == y % 10;
    assert DigitValue(s[5]) == d.month / 10 && DigitValue(s[6]) == d.month % 10;
    assert DigitValue(s[8]) == d.day / 10 && DigitValue(s[9]) == d.day % 10;
  }

  lemma FourDigitSplit(y: int)
    requires 0 <= y <= 9999
    ensures y == 1000 * (y / 1000) + 100 * (y / 100 % 10) + 10 * (y / 10 % 10) + y % 10
  {
    DivTen(y);
    DivTen(y / 10);
    DivTen(y / 100);
  }

  /** Dividing by ten strips the last decimal digit. */
  lemma DivTen(n: int)
    requires n >= 0
    ensures n == 10 * (n / 10) + n % 10
    ensures n / 10 / 10 == n / 100 && n / 100 / 10 == n / 1000
  {
  }

  lemma TwoDigitSplit(n: int)
    requires 0 <= n <= 99
    ensures n == 10 * (n / 10) + n % 10
  {
  }

  /** Round trip: formatting any date with a four-digit year as
      `YYYY-MM-DD` and parsing it gives back the same calendar date at
      local midnight. */
  lemma IsoRoundTrip(d: CalendarDate, genericParse: string -> Option<Moment>)
    requires 0 <= d.year <= 9999
    ensures ParseDateLocal(Text(FormatIso(d)), genericParse) == Some(Moment(d, 0))
  {
    FormatIsoFields(d);
    MakeDateOfValid(d);
  }

  /** The code as written keeps the round trip only from year 100 on. */
  lemma IsoRoundTripAsWritten(d: CalendarDate, genericParse: string -> Option<Moment>)
    requires 100 <= d.year <= 9999
    ensures ParseDateLocalAsWritten(Text(FormatIso(d)), genericParse) == Some(Moment(d, 0))
  {
    FormatIsoFields(d);
    MakeDateOfValid(d);
  }

  /** A Date input keeps its UTC calendar date from year 100 on in the code
      as written. */
  lemma DateValueKeptAsWritten(d: CalendarDate, ms: TimeOfDay, genericParse: string -> Option<Moment>)
    requires d.year < 0 || d.year >= 100
    ensures ParseDateLocalAsWritten(DateValue(d, ms), genericParse) == Some(Moment(d, 0))
  {
    MakeDateOfValid(d);
  }

  /** Every date-only string is read as the normalised (year, month - 1,
      day) of its digits: no range check happens. */
  lemma IsoStringIsMakeDay(s: string, genericParse: string -> Option<Moment>)
    requires IsIsoDateOnly(s)
    ensures ParseDateLocal(Text(s), genericParse).Some?
    ensures var m := ParseDateLocal(Text(s), genericParse).value;
      DayNumberOf(m.date) == DayNumber(IsoYear(s) + (IsoMonth(s) - 1) / 12, (IsoMonth(s) - 1) % 12 + 1, 1) + IsoDay(s) - 1
  {
    ParseIsoText(s, genericParse);
    MakeDateIsMakeDay(IsoYear(s), IsoMonth(s) - 1, IsoDay(s));
  }

  lemma ParseIsoText(s: string, genericParse: string -> Option<Moment>)
    requires IsIsoDateOnly(s)
    ensures ParseDateLocal(Text(s), genericParse) == Some(MidnightOf(IsoYear(s), IsoMonth(s) - 1, IsoDay(s)))
  {
  }

  /** The code as written differs from the corrected reading only by the
      constructor's year rule: from year 100 on the two agree, below it the
      string is read 1900 years later. No range check happens either way. */
  lemma IsoTextAsWritten(s: string, genericParse: string -> Option<Moment>)
    requires IsIsoDateOnly(s)
    ensures IsoYear(s) >= 100 ==> ParseDateLocalAsWritten(Text(s), genericParse) == ParseDateLocal(Text(s), genericParse)
    ensures IsoYear(s) < 100 ==>
      ParseDateLocalAsWritten(Text(s), genericParse) == Some(MidnightOf(1900 + IsoYear(s), IsoMonth(s) - 1, IsoDay(s)))
    ensures var m := ParseDateLocalAsWritten(Text(s), genericParse).value;
      DayNumberOf(m.date)
        == DayNumber(ConstructorYear(IsoYear(s)) + (IsoMonth(s) - 1) / 12, (IsoMonth(s) - 1) % 12 + 1, 1) + IsoDay(s) - 1
  {
    ParseIsoText(s, genericParse);
    MakeDateIsMakeDay(ConstructorYear(IsoYear(s)), IsoMonth(s) - 1, IsoDay(s));
  }

  // ---------------------------------------------------------------------
  // Concrete cases.

  /** `"2025-12-11"` is 11 December 2025 at 00:00; the Date built from the
      same string (UTC midnight) gives the same local date. */
  lemma December11(genericParse: string -> Option<Moment>)
    ensures ParseDateLocal(Text("2025-12-11"), genericParse) == Some(Moment(Date(2025, 12, 11), 0))
    ensures ParseDateLocal(DateValue(Date(2025, 12, 11), 0), genericParse) == Some(Moment(Date(2025, 12, 11), 0))
    ensures ParseDateLocalAsWritten(Text("2025-12-11"), genericParse) == Some(Moment(Date(2025, 12, 11), 0))
  {
    IsoRoundTrip(Date(2025, 12, 11), genericParse);
    IsoRoundTripAsWritten(Date(2025, 12, 11), genericParse);
    assert FormatIso(Date(2025, 12, 11)) == "2025-12-11";
  }

  /** `"2025-02-30"` rolls over to 2 March 2025. */
  lemma February30RollsOver(genericParse: string -> Option<Moment>)
    ensures ParseDateLocalAsWritten(Text("2025-02-30"), genericParse) == Some(Moment(Date(2025, 3, 2), 0))
    ensures ParseDateLocal(Text("2025-02-30"), genericParse) == Some(Moment(Date(2025, 3, 2), 0))
  {
    var s := "2025-02-30";
    assert IsIsoDateOnly(s);
    assert IsoYear(s) == 2025 && IsoMonth(s) == 2 && IsoDay(s) == 30;
    MakeDateInMonth(2025, 1, 30);
  }

  /** A datetime string is not date-only and goes to the generic parser. */
  lemma DateTimeUsesGenericParse(genericParse: string -> Option<Moment>)
    ensures ParseDateLocal(Text("2025-12-11T15:30:00Z"), genericParse) == genericParse("2025-12-11T15:30:00Z")
  {
  }

  /** The two-digit-year rule of the code as written: `"0050-06-15"` becomes
      15 June 1950, while the corrected reading keeps year 50. */
  lemma TwoDigitYearShift(genericParse: string -> Option<Moment>)
    ensures ParseDateLocalAsWritten(Text("0050-06-15"), genericParse) == Some(Moment(Date(1950, 6, 15), 0))
    ensures ParseDateLocal(Text("0050-06-15"), genericParse) == Some(Moment(Date(50, 6, 15), 0))
  {
    var s := "0050-06-15";
    assert IsIsoDateOnly(s);
    assert IsoYear(s) == 50 && IsoMonth(s) == 6 && IsoDay(s) == 15;
    MakeDateOfValid(Date(1950, 6, 15));
    MakeDateOfValid(Date(50, 6, 15));
  }
}
