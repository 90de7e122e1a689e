/**
 * Calendar dates as integer day numbers (days since 1970-01-01), and their
 * ISO 8601 text "YYYY-MM-DD" as both the API and Python's `str(date)` print it.
 */
module Dates {
  import opened Text

  /**
   * Whole days from `today` to `date`: what the client's `daysUntil` computes
   * from two local midnights.
   */
  function DaysUntil(date: int, today: int): (r: int)
    ensures r < 0 <==> date < today
    ensures r == 0 <==> date == today
    ensures date == today + r
  {
    date - today
  }

  /** Proleptic Gregorian (year, month, day) of a day number. */
  datatype Civil = Civil(year: int, month: int, day: int)

  predicate IsLeap(y: int)
  {
    y % 4 == 0 && (y % 100 != 0 || y % 400 == 0)
  }

  function YearLength(y: int): int
  {
    if IsLeap(y) then 366 else 365
  }

  function MonthLength(m: int, leap: bool): int
  {
    if m == 2 then (if leap then 29 else 28)
    else if m == 4 || m == 6 || m == 9 || m == 11 then 30
    else 31
  }

  /** Days in months `m`..12. */
  function DaysFromMonth(m: int, leap: bool): int
    requires 1 <= m <= 12
    decreases 12 - m
  {
    if m == 12 then 31 else MonthLength(m, leap) + DaysFromMonth(m + 1, leap)
  }

  lemma YearLengthIsMonthSum(y: int)
    ensures DaysFromMonth(1, IsLeap(y)) == YearLength(y)
  {
  }

  /** Day number of January 1 of year `y`: the days from 1970-01-01 to it. */
  function DaysBefore(y: int): int
    decreases if y < 1970 then 1970 - y else y - 1970
  {
    if y == 1970 then 0
    else if y > 1970 then DaysBefore(y - 1) + YearLength(y - 1)
    else DaysBefore(y + 1) - YearLength(y)
  }

  lemma DaysBeforeStep(y: int)
    ensures DaysBefore(y + 1) == DaysBefore(y) + YearLength(y)
  {
  }

  /** A later year starts at least a whole year after an earlier one. */
  lemma {:induction false} DaysBeforeGap(a: int, b: int)
    requires a < b
    ensures DaysBefore(b) >= DaysBefore(a) + YearLength(a)
    decreases b - a
  {
    DaysBeforeStep(b - 1);
    if a < b - 1 {
      DaysBeforeGap(a, b - 1);
    }
  }

  /** A day number names one year and one day inside it. */
  lemma YearUnique(y1: int, i1: int, y2: int, i2: int)
    requires 0 <= i1 < YearLength(y1) && 0 <= i2 < YearLength(y2)
    requires DaysBefore(y1) + i1 == DaysBefore(y2) + i2
    ensures y1 == y2 && i1 == i2
  {
    if y1 < y2 {
      DaysBeforeGap(y1, y2);
    } else if y2 < y1 {
      DaysBeforeGap(y2, y1);
    }
  }

  /** The year holding the day `z` days after January 1 of year `y`, and that day's index in it. */
  function YearAndDay(y: int, z: int): (r: (int, int))
    ensures 0 <= r.1 < YearLength(r.0)
    ensures DaysBefore(r.0) + r.1 == DaysBefore(y) + z
    decreases if z < 0 then 1 else 0, if z < 0 then -z else z
  {
    if z < 0 then
      DaysBeforeStep(y - 1);
      YearAndDay(y - 1, z + YearLength(y - 1))
    else if z >= YearLength(y) then
      DaysBeforeStep(y);
      YearAndDay(y + 1, z - YearLength(y))
    else (y, z)
  }

  /** Days in months 1..`m`-1: the day of the year on which month `m` starts. */
  function MonthStart(m: int, leap: bool): int
    requires 1 <= m <= 12
  {
    if m == 1 then 0 else MonthStart(m - 1, leap) + MonthLength(m - 1, leap)
  }

  /** The months before `m` and the months from `m` on make up the year. */
  lemma {:induction false} MonthSplit(m: int, leap: bool)
    requires 1 <= m <= 12
    ensures MonthStart(m, leap) + DaysFromMonth(m, leap) == DaysFromMonth(1, leap)
  {
    if m > 1 {
      MonthSplit(m - 1, leap);
    }
  }

  /** A later month starts at least a whole month after an earlier one. */
  lemma {:induction false} MonthStartGap(a: int, b: int, leap: bool)
    requires 1 <= a < b <= 12
    ensures MonthStart(b, leap) >= MonthStart(a, leap) + MonthLength(a, leap)
    decreases b - a
  {
    if a < b - 1 {
      MonthStartGap(a, b - 1, leap);
    }
  }

  /** A day of the year names one month and one day inside it. */
  lemma MonthUnique(m1: int, d1: int, m2: int, d2: int, leap: bool)
    requires 1 <= m1 <= 12 && 1 <= d1 <= MonthLength(m1, leap)
    requires 1 <= m2 <= 12 && 1 <= d2 <= MonthLength(m2, leap)
    requires MonthStart(m1, leap) + d1 == MonthStart(m2, leap) + d2
    ensures m1 == m2 && d1 == d2
  {
    if m1 < m2 {
      MonthStartGap(m1, m2, leap);
    } else if m2 < m1 {
      MonthStartGap(m2, m1, leap);
    }
  }

  /** Month and day of month of the `doy`-th remaining day, counting from month `m`. */
  function MonthAndDay(m: int, doy: int, leap: bool): (r: (int, int))
    requires 1 <= m <= 12 && 0 <= doy < DaysFromMonth(m, leap)
    ensures m <= r.0 <= 12 && 1 <= r.1 <= MonthLength(r.0, leap)
    ensures MonthStart(r.0, leap) + r.1 - 1 == MonthStart(m, leap) + doy
    decreases 12 - m
  {
    if m == 12 || doy < MonthLength(m, leap) then (m, doy + 1)
    else MonthAndDay(m + 1, doy - MonthLength(m, leap), leap)
  }

  /** A proleptic Gregorian date that exists: a month 1..12 and a day within it. */
  predicate ValidCivil(c: Civil)
  {
    1 <= c.month <= 12 && 1 <= c.day <= MonthLength(c.month, IsLeap(c.year))
  }

  /** The day number of a calendar date, counted from 1970-01-01. */
  function DaysFromCivil(c: Civil): int
    requires 1 <= c.month <= 12
  {
    DaysBefore(c.year) + MonthStart(c.month, IsLeap(c.year)) + c.day - 1
  }

  /** Year, month and day of day number `z`. */
  function CivilFromDays(z: int): (c: Civil)
    ensures ValidCivil(c) && 1 <= c.day <= 31
    ensures DaysFromCivil(c) == z
  {
    var (y, doy) := YearAndDay(1970, z);
    YearLengthIsMonthSum(y);
    var (m, d) := MonthAndDay(1, doy, IsLeap(y));
    Civil(y, m, d)
  }

  /** The day of the year of an existing date lies inside its year. */
  lemma DayOfYearBounds(c: Civil)
    requires ValidCivil(c)
    ensures 0 <= MonthStart(c.month, IsLeap(c.year)) + c.day - 1 < YearLength(c.year)
  {
    MonthSplit(c.month, IsLeap(c.year));
    YearLengthIsMonthSum(c.year);
  }

  /** Two existing dates with the same day number are the same date. */
  lemma CivilUnique(c1: Civil, c2: Civil)
    requires ValidCivil(c1) && ValidCivil(c2) && DaysFromCivil(c1) == DaysFromCivil(c2)
    ensures c1 == c2
  {
    DayOfYearBounds(c1);
    DayOfYearBounds(c2);
    YearUnique(c1.year, MonthStart(c1.month, IsLeap(c1.year)) + c1.day - 1,
               c2.year, MonthStart(c2.month, IsLeap(c2.year)) + c2.day - 1);
    MonthUnique(c1.month, c1.day, c2.month, c2.day, IsLeap(c1.year));
  }

  /** Every existing date is the calendar date of its own day number. */
  lemma CivilRoundTrip(c: Civil)
    requires ValidCivil(c)
    ensures CivilFromDays(DaysFromCivil(c)) == c
  {
    CivilUnique(CivilFromDays(DaysFromCivil(c)), c);
  }

  function Digit(n: int): (c: char)
    requires 0 <= n <= 9
    ensures '0' <= c <= '9' && DigitValue(c) == n
  {
    (('0' as int) + n) as char
  }

  /** The value of a decimal digit character. */
  function DigitValue(c: char): int
  {
    c as int - '0' as int
  }

  /** The number a string of decimal digits denotes, most significant first. */
  function Decimal(s: string): int
  {
    if s == [] then 0 else Decimal(s[..|s| - 1]) * 10 + DigitValue(s[|s| - 1])
  }

  /** Zero-padded two-digit text. */
  function Digits2(n: int): (r: string)
    requires 0 <= n <= 99
    ensures |r| == 2 && forall i :: 0 <= i < 2 ==> '0' <= r[i] <= '9'
    ensures Decimal(r) == n
  {
    var r := [Digit(n / 10), Digit(n % 10)];
    assert r[..1] == [r[0]] && [r[0]][..0] == [];
    assert Decimal([r[0]]) == DigitValue(r[0]);
    assert Decimal(r) == Decimal(r[..1]) * 10 + DigitValue(r[1]);
    r
  }

  /** Two more digits after a decimal text multiply its value by 100 and add theirs. */
  lemma DecimalAppend2(s: string, t: string)
    requires |t| == 2
    ensures Decimal(s + t) == Decimal(s) * 100 + Decimal(t)
  {
    var u := s + [t[0]];
    assert (s + t)[..|s + t| - 1] == u && (s + t)[|s + t| - 1] == t[1];
    assert u[..|u| - 1] == s && u[|u| - 1] == t[0];
    assert Decimal(u) == Decimal(s) * 10 + DigitValue(t[0]);
    assert t[..|t| - 1] == [t[0]] && [t[0]][..0] == [];
    assert Decimal([t[0]]) == DigitValue(t[0]);
    assert Decimal(t) == DigitValue(t[0]) * 10 + DigitValue(t[1]);
  }

  /** The digits `String(n)` prints for a natural number denote that number. */
  lemma {:induction false} NatToStringValue(n: nat)
    ensures Decimal(NatToString(n)) == n
    decreases n
  {
    var d := [(('0' as int) + n % 10) as char];
    assert DigitValue(d[0]) == n % 10;
    if n < 10 {
      assert NatToString(n) == d && d[..0] == [];
    } else {
      NatToStringValue(n / 10);
      var s := NatToString(n / 10) + d;
      assert NatToString(n) == s;
      assert s[..|s| - 1] == NatToString(n / 10);
    }
  }

  /** An integer prints as its digits, after a minus sign exactly when it is negative. */
  lemma IntToStringValue(n: int)
    ensures n >= 0 ==> Decimal(IntToString(n)) == n
    ensures n < 0 ==> IntToString(n)[0] == '-' && Decimal(IntToString(n)[1..]) == -n
  {
    if n >= 0 {
      NatToStringValue(n);
    } else {
      NatToStringValue(-n);
      assert IntToString(n)[1..] == NatToString(-n);
    }
  }

  /** Zero-padded four-digit text: the hundreds, then the last two digits. */
  function Digits4(n: int): (r: string)
    requires 0 <= n <= 9999
    ensures |r| == 4 && forall i :: 0 <= i < 4 ==> '0' <= r[i] <= '9'
    ensures Decimal(r) == n
  {
    var high := Digits2(n / 100);
    DecimalAppend2(high, Digits2(n % 100));
    high + Digits2(n % 100)
  }

  /** Day numbers of years 1..9999, the range of Python's `date`. */
  predicate InDateRange(z: int)
  {
    1 <= CivilFromDays(z).year <= 9999
  }

  /**
   * "YYYY-MM-DD"; a year outside 0..9999 (which Python cannot hold) prints
   * unpadded.  Read back as three decimal numbers, the text names the
   * date whose day number is `z`.
   */
  function IsoDate(z: int): (r: string)
    ensures InDateRange(z) ==> |r| == 10 && r[4] == '-' && r[7] == '-'
    ensures InDateRange(z) ==> forall i :: 0 <= i < 10 && i != 4 && i != 7 ==> '0' <= r[i] <= '9'
    ensures InDateRange(z) ==>
      var c := Civil(Decimal(r[..4]), Decimal(r[5..7]), Decimal(r[8..]));
      ValidCivil(c) && DaysFromCivil(c) == z
  {
    var c := CivilFromDays(z);
    var yearText := if 0 <= c.year <= 9999 then Digits4(c.year) else IntToString(c.year);
    var r := yearText + "-" + Digits2(c.month) + "-" + Digits2(c.day);
    assert InDateRange(z) ==> r[..4] == yearText && r[5..7] == Digits2(c.month) && r[8..] == Digits2(c.day);
    r
  }

  /** Different day numbers in range print as different dates. */
  lemma IsoDateInjective(z1: int, z2: int)
    requires InDateRange(z1) && InDateRange(z2) && IsoDate(z1) == IsoDate(z2)
    ensures z1 == z2
  {
  }
}
