/**
 * Proleptic Gregorian calendar arithmetic on whole days, as JavaScript's Date
 * performs it (MakeDay / setDate), and the `YYYY-MM-DD` full-date form of
 * section 5.6 of RFC 3339 that `new Date(s)` parses and `toISOString()` emits.
 * Day numbers count from the Unix epoch, 1970-01-01 being day 0.
 */
module Calendar {
  import opened Wrappers
  import opened Strings

  datatype Date = Date(year: int, month: int, day: int)

  /** Milliseconds in a day of JavaScript's time value. */
  const MsPerDay: int := 86_400_000
  /** Days from 0001-01-01 to 1970-01-01. */
  const UnixEpochDay: int := 719_162
  /** JavaScript time values are limited to +-8.64e15 ms, that is +-100 000 000 days. */
  const MaxTimeDays: int := 100_000_000

  predicate IsLeapYear(y: int) {
    y % 4 == 0 && (y % 100 != 0 || y % 400 == 0)
  }

  function DaysInYear(y: int): int {
    if IsLeapYear(y) then 366 else 365
  }

  function DaysInMonth(y: int, m: int): int
    requires 1 <= m <= 12
  {
    if m == 2 then (if IsLeapYear(y) then 29 else 28)
    else if m == 4 || m == 6 || m == 9 || m == 11 then 30
    else 31
  }

  predicate IsValid(d: Date) {
    1 <= d.month <= 12 && 1 <= d.day <= DaysInMonth(d.year, d.month)
  }

  /** Days of year `y` that come before the first of month `m` (13 stands for the next New Year). */
  function DaysBeforeMonth(y: int, m: int): int
    requires 1 <= m <= 13
  {
    var common :=
      if m == 1 then 0 else if m == 2 then 31 else if m == 3 then 59 else if m == 4 then 90
      else if m == 5 then 120 else if m == 6 then 151 else if m == 7 then 181 else if m == 8 then 212
      else if m == 9 then 243 else if m == 10 then 273 else if m == 11 then 304 else if m == 12 then 334
      else 365;
    if m > 2 && IsLeapYear(y) then common + 1 else common
  }

  /** Days from 0001-01-01 to the first of January of year `y`, for every year, negative ones included. */
  function DaysBeforeYear(y: int): int {
    var p := y - 1;
    365 * p + p / 4 - p / 100 + p / 400
  }

  /** The day number of a date (days-from-civil). */
  function DaysFromCivil(d: Date): int
    requires IsValid(d)
  {
    DaysBeforeYear(d.year) + DaysBeforeMonth(d.year, d.month) + d.day - 1 - UnixEpochDay
  }

  lemma DaysBeforeNextMonth(y: int, m: int)
    requires 1 <= m <= 12
    ensures DaysBeforeMonth(y, m + 1) == DaysBeforeMonth(y, m) + DaysInMonth(y, m)
  {
  }

  lemma DaysBeforeNextYear(y: int)
    ensures DaysBeforeYear(y + 1) == DaysBeforeYear(y) + DaysInYear(y)
  {
    assert y / 4 - (y - 1) / 4 == if y % 4 == 0 then 1 else 0;
    assert y / 100 - (y - 1) / 100 == if y % 100 == 0 then 1 else 0;
    assert y / 400 - (y - 1) / 400 == if y % 400 == 0 then 1 else 0;
  }

  lemma DaysBeforeYearMonotone(a: int, b: int)
    requires a < b
    ensures DaysBeforeYear(a + 1) <= DaysBeforeYear(b)
  {
  }

  /** The year holding absolute day `a` (days since 0001-01-01). */
  function YearOfDay(a: int): (y: int)
    ensures DaysBeforeYear(y) <= a < DaysBeforeYear(y + 1)
  {
    var e := 400 * a / 146097 + 1;
    if a < DaysBeforeYear(e) then e - 1
    else if a < DaysBeforeYear(e + 1) then e
    else e + 1
  }

  /** The month of year `y` holding day-of-year `r` (counted from 0), searching upward from month `m`. */
  function MonthFrom(y: int, r: int, m: int): (k: int)
    requires 1 <= m <= 12
    requires DaysBeforeMonth(y, m) <= r < DaysInYear(y)
    ensures m <= k <= 12 && DaysBeforeMonth(y, k) <= r < DaysBeforeMonth(y, k + 1)
    decreases 12 - m
  {
    if r < DaysBeforeMonth(y, m + 1) then m else MonthFrom(y, r, m + 1)
  }

  /** The date of a day number (civil-from-days): the inverse of `DaysFromCivil`. */
  function CivilFromDays(n: int): (d: Date)
    ensures IsValid(d) && DaysFromCivil(d) == n
  {
    var a := n + UnixEpochDay;
    var y := YearOfDay(a);
    DaysBeforeNextYear(y);
    var r := a - DaysBeforeYear(y);
    var m := MonthFrom(y, r, 1);
    DaysBeforeNextMonth(y, m);
    Date(y, m, r - DaysBeforeMonth(y, m) + 1)
  }

  /** A valid date's day falls inside its own year. */
  lemma DayInYear(d: Date)
    requires IsValid(d)
    ensures DaysBeforeYear(d.year) <= DaysFromCivil(d) + UnixEpochDay < DaysBeforeYear(d.year + 1)
  {
    DaysBeforeNextYear(d.year);
    DaysBeforeNextMonth(d.year, d.month);
  }

  /** Calendar order: year, then month, then day. */
  predicate Before(d1: Date, d2: Date) {
    d1.year < d2.year
    || (d1.year == d2.year && (d1.month < d2.month || (d1.month == d2.month && d1.day < d2.day)))
  }

  lemma BeforeDays(d1: Date, d2: Date)
    requires IsValid(d1) && IsValid(d2) && Before(d1, d2)
    ensures DaysFromCivil(d1) < DaysFromCivil(d2)
  {
    DayInYear(d1);
    DayInYear(d2);
    if d1.year < d2.year {
      DaysBeforeYearMonotone(d1.year, d2.year);
    } else if d1.month < d2.month {
      DaysBeforeNextMonth(d1.year, d1.month);
    }
  }

  /** Calendar order and day-number order agree, in both directions. */
  lemma BeforeIsDayOrder(d1: Date, d2: Date)
    requires IsValid(d1) && IsValid(d2)
    ensures Before(d1, d2) <==> DaysFromCivil(d1) < DaysFromCivil(d2)
    ensures d1 == d2 <==> DaysFromCivil(d1) == DaysFromCivil(d2)
  {
    if Before(d1, d2) {
      BeforeDays(d1, d2);
    } else if Before(d2, d1) {
      BeforeDays(d2, d1);
    } else {
      assert d1 == d2;
    }
  }

  /** Distinct valid dates have distinct day numbers. */
  lemma DaysFromCivilInjective(d1: Date, d2: Date)
    requires IsValid(d1) && IsValid(d2) && DaysFromCivil(d1) == DaysFromCivil(d2)
    ensures d1 == d2
  {
    BeforeIsDayOrder(d1, d2);
  }

  /** Converting a valid date to its day number and back gives the date. */
  lemma CivilRoundTrip(d: Date)
    requires IsValid(d)
    ensures CivilFromDays(DaysFromCivil(d)) == d
  {
    DaysFromCivilInjective(CivilFromDays(DaysFromCivil(d)), d);
  }

  /** The following calendar day, the reference for adding one day. */
  function NextDay(d: Date): Date
    requires IsValid(d)
  {
    if d.day < DaysInMonth(d.year, d.month) then Date(d.year, d.month, d.day + 1)
    else if d.month < 12 then Date(d.year, d.month + 1, 1)
    else Date(d.year + 1, 1, 1)
  }

  lemma NextDayIsNext(d: Date)
    requires IsValid(d)
    ensures IsValid(NextDay(d)) && DaysFromCivil(NextDay(d)) == DaysFromCivil(d) + 1
  {
    if d.day == DaysInMonth(d.year, d.month) {
      DaysBeforeNextMonth(d.year, d.month);
      if d.month == 12 {
        DaysBeforeNextYear(d.year);
      }
    }
  }

  /** `k` applications of `NextDay`. */
  function IterateNextDay(d: Date, k: nat): (r: Date)
    requires IsValid(d)
    ensures IsValid(r)
  {
    if k == 0 then d
    else
      var p := IterateNextDay(d, k - 1);
      NextDayIsNext(p);
      NextDay(p)
  }

  /** `date.setDate(date.getDate() + k)`: the date `k` days later (earlier for negative `k`). */
  function AddDays(d: Date, k: int): (r: Date)
    requires IsValid(d)
    ensures IsValid(r) && DaysFromCivil(r) == DaysFromCivil(d) + k
  {
    CivilFromDays(DaysFromCivil(d) + k)
  }

  /** Stepping forward `k` times moves the day number on by `k`. */
  lemma {:induction false} IterateNextDayDays(d: Date, k: nat)
    requires IsValid(d)
    ensures DaysFromCivil(IterateNextDay(d, k)) == DaysFromCivil(d) + k
  {
    if k > 0 {
      IterateNextDayDays(d, k - 1);
      NextDayIsNext(IterateNextDay(d, k - 1));
    }
  }

  /** Adding `k >= 0` days is the same as stepping forward one day `k` times. */
  lemma AddDaysIsIteratedNextDay(d: Date, k: nat)
    requires IsValid(d)
    ensures AddDays(d, k) == IterateNextDay(d, k)
  {
    IterateNextDayDays(d, k);
    AddDaysIs(d, k, IterateNextDay(d, k));
  }

  /** Adding days twice adds their sum. */
  lemma AddDaysCompose(d: Date, j: int, k: int)
    requires IsValid(d)
    ensures AddDays(AddDays(d, j), k) == AddDays(d, j + k)
  {
    DaysFromCivilInjective(AddDays(AddDays(d, j), k), AddDays(d, j + k));
  }

  /** More days give a strictly later date; no days give the same date. */
  lemma AddDaysMonotone(d: Date, j: int, k: int)
    requires IsValid(d)
    ensures j < k <==> Before(AddDays(d, j), AddDays(d, k))
    ensures AddDays(d, 0) == d
  {
    BeforeIsDayOrder(AddDays(d, j), AddDays(d, k));
    DaysFromCivilInjective(AddDays(d, 0), d);
  }

  /** The date `k` days after `d` is the valid date whose day number is `k` more. */
  lemma AddDaysIs(d: Date, k: int, e: Date)
    requires IsValid(d) && IsValid(e) && DaysFromCivil(e) == DaysFromCivil(d) + k
    ensures AddDays(d, k) == e
  {
    DaysFromCivilInjective(AddDays(d, k), e);
  }

  lemma AddDaysWithinMonth()
    ensures AddDays(Date(2024, 1, 1), 7) == Date(2024, 1, 8)
  {
    AddDaysIs(Date(2024, 1, 1), 7, Date(2024, 1, 8));
  }

  /** Month rollover into a leap day and past it, and year rollover. */
  lemma AddDaysRollover()
    ensures AddDays(Date(2024, 2, 28), 1) == Date(2024, 2, 29)
    ensures AddDays(Date(2023, 2, 28), 1) == Date(2023, 3, 1)
    ensures AddDays(Date(2024, 12, 31), 1) == Date(2025, 1, 1)
    ensures AddDays(Date(2024, 1, 31), 30) == Date(2024, 3, 1)
  {
    AddDaysIs(Date(2024, 2, 28), 1, Date(2024, 2, 29));
    AddDaysIs(Date(2023, 2, 28), 1, Date(2023, 3, 1));
    AddDaysIs(Date(2024, 12, 31), 1, Date(2025, 1, 1));
    AddDaysIs(Date(2024, 1, 31), 30, Date(2024, 3, 1));
  }

  /** The year of a full-date form: four digits for 0000..9999, otherwise a sign and six digits. */
  function FormatYear(y: int): (s: string)
    ensures |s| >= 4 && 'T' !in s
  {
    if 0 <= y <= 9999 then PaddedDigits(y, 4)
    else if y < 0 then "-" + PaddedDigits(-y, 6)
    else "+" + PaddedDigits(y, 6)
  }

  /**
   * `toISOString().split('T')[0]` of a moment on date `d`: `YYYY-MM-DD`
   * (section 5.6 of RFC 3339), with the expanded years of ECMAScript outside 0000..9999.
   */
  function FormatFullDate(d: Date): (s: string)
    requires IsValid(d)
    ensures 0 <= d.year <= 9999 ==> |s| == 10 && s[4] == '-' && s[7] == '-'
    ensures 'T' !in s
  {
    FormatYear(d.year) + "-" + PaddedDigits(d.month, 2) + "-" + PaddedDigits(d.day, 2)
  }

  /** `new Date(s)` for a date-only string: exactly `YYYY-MM-DD` naming a real calendar day, else invalid. */
  function ParseFullDate(s: string): (r: Option<Date>)
    ensures r.Some? ==> IsValid(r.value) && 0 <= r.value.year <= 9999
  {
    if |s| == 10 && s[4] == '-' && s[7] == '-' && AllDigits(s[..4]) && AllDigits(s[5..7]) && AllDigits(s[8..]) then
      DigitsValueBound(s[..4]);
      var d := Date(DigitsValue(s[..4]), DigitsValue(s[5..7]), DigitsValue(s[8..]));
      if IsValid(d) then Some(d) else None
    else None
  }

  /** Every valid date with a four-digit year reads back from its full-date form. */
  lemma ParseFormatRoundTrip(d: Date)
    requires IsValid(d) && 0 <= d.year <= 9999
    ensures ParseFullDate(FormatFullDate(d)) == Some(d)
  {
    var s := FormatFullDate(d);
    assert s[..4] == PaddedDigits(d.year, 4);
    assert s[5..7] == PaddedDigits(d.month, 2);
    assert s[8..] == PaddedDigits(d.day, 2);
  }

  /** Every string that parses is the full-date form of what it parses to. */
  lemma FormatParseRoundTrip(s: string)
    requires ParseFullDate(s).Some?
    ensures FormatFullDate(ParseFullDate(s).value) == s
  {
    PaddedDigitsOfDigits(s[..4]);
    PaddedDigitsOfDigits(s[5..7]);
    PaddedDigitsOfDigits(s[8..]);
    assert s == s[..4] + "-" + s[5..7] + "-" + s[8..];
  }

  /** The UTC calendar day of a time value in milliseconds (floor division, also before 1970). */
  function DayOfTime(ms: int): (n: int)
    ensures n * MsPerDay <= ms < (n + 1) * MsPerDay
  {
    ms / MsPerDay
  }

  /** `new Date(ms).toISOString().split('T')[0]`. */
  function IsoDate(ms: int): (s: string)
    ensures var d := CivilFromDays(DayOfTime(ms));
      0 <= d.year <= 9999 ==> ParseFullDate(s) == Some(d) && DaysFromCivil(d) == DayOfTime(ms)
  {
    var d := CivilFromDays(DayOfTime(ms));
    if 0 <= d.year <= 9999 then ParseFormatRoundTrip(d); FormatFullDate(d)
    else FormatFullDate(d)
  }

  lemma TwoDigitsValue(s: string)
    requires |s| == 2 && AllDigits(s)
    ensures DigitsValue(s) == 10 * DigitValue(s[0]) + DigitValue(s[1])
  {
    var a := s[..1];
    assert a[..0] == [];
    assert DigitsValue(a) == DigitValue(s[0]);
  }

  lemma FourDigitsValue(s: string)
    requires |s| == 4 && AllDigits(s)
    ensures DigitsValue(s) == 1000 * DigitValue(s[0]) + 100 * DigitValue(s[1]) + 10 * DigitValue(s[2]) + DigitValue(s[3])
  {
    var c := s[..3];
    var b := c[..2];
    var a := b[..1];
    assert a[..0] == [];
    assert DigitsValue(a) == DigitValue(s[0]);
    assert DigitsValue(b) == 10 * DigitValue(s[0]) + DigitValue(s[1]);
    assert DigitsValue(c) == DigitsValue(b) * 10 + DigitValue(s[2]);
  }

  /** A `YYYY-MM-DD` string of digits parses to the date its digits name, when that date is valid. */
  lemma ParseDigits(s: string, d: Date)
    requires |s| == 10 && s[4] == '-' && s[7] == '-'
    requires AllDigits(s[..4]) && AllDigits(s[5..7]) && AllDigits(s[8..])
    requires d.year == 1000 * DigitValue(s[0]) + 100 * DigitValue(s[1]) + 10 * DigitValue(s[2]) + DigitValue(s[3])
    requires d.month == 10 * DigitValue(s[5]) + DigitValue(s[6])
    requires d.day == 10 * DigitValue(s[8]) + DigitValue(s[9])
    ensures ParseFullDate(s) == if IsValid(d) then Some(d) else None
  {
    FourDigitsValue(s[..4]);
    TwoDigitsValue(s[5..7]);
    TwoDigitsValue(s[8..]);
  }

  lemma FormatFullDateExample()
    ensures FormatFullDate(Date(2024, 1, 8)) == "2024-01-08"
    ensures ParseFullDate("2024-01-08") == Some(Date(2024, 1, 8))
  {
    ParseDigits("2024-01-08", Date(2024, 1, 8));
    FormatParseRoundTrip("2024-01-08");
  }

  lemma ParseLeapDayExample()
    ensures ParseFullDate("2024-02-29") == Some(Date(2024, 2, 29))
    ensures ParseFullDate("2023-02-29") == None
  {
    ParseDigits("2024-02-29", Date(2024, 2, 29));
    ParseDigits("2023-02-29", Date(2023, 2, 29));
  }
}
