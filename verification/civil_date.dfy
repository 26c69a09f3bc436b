/**
 * Proleptic Gregorian calendar dates in the range Python's `datetime`
 * supports (years 1 to 9999): day arithmetic, the day number Python calls
 * `toordinal`, and the `%Y-%m-%d` text form with its reading.
 */
module CivilDate {
  import opened Outcomes
  import opened Digits

  const MinYear := 1
  const MaxYear := 9999

  datatype Date = Date(year: int, month: int, day: int)

  /** The last date Python's `datetime` can represent; one day later overflows. */
  const LastDate := Date(MaxYear, 12, 31)

  predicate IsLeapYear(y: int) {
    y % 4 == 0 && (y % 100 != 0 || y % 400 == 0)
  }

  function DaysInYear(y: int): (n: int) {
    if IsLeapYear(y) then 366 else 365
  }

  function DaysInMonth(y: int, m: int): (n: int)
    requires 1 <= m <= 12
  {
    if m == 2 then (if IsLeapYear(y) then 29 else 28)
    else if m == 4 || m == 6 || m == 9 || m == 11 then 30
    else 31
  }

  predicate Valid(d: Date) {
    && MinYear <= d.year <= MaxYear
    && 1 <= d.month <= 12
    && 1 <= d.day <= DaysInMonth(d.year, d.month)
  }

  /** Days in the years before `y`, counting from 0001-01-01. */
  function DaysBeforeYear(y: int): (n: int)
    requires y >= 1
  {
    var p := y - 1;
    365 * p + p / 4 - p / 100 + p / 400
  }

  /** Days in the months of year `y` before month `m`. */
  function DaysBeforeMonth(y: int, m: int): (n: int)
    requires 1 <= m <= 12
  {
    var common :=
      if m == 1 then 0 else if m == 2 then 31 else if m == 3 then 59
      else if m == 4 then 90 else if m == 5 then 120 else if m == 6 then 151
      else if m == 7 then 181 else if m == 8 then 212 else if m == 9 then 243
      else if m == 10 then 273 else if m == 11 then 304 else 334;
    common + (if m > 2 && IsLeapYear(y) then 1 else 0)
  }

  /** The day number of `d`; 0001-01-01 is day 1, as in Python's `date.toordinal`. */
  function Ordinal(d: Date): (n: int)
    requires Valid(d)
  {
    DaysBeforeYear(d.year) + DaysBeforeMonth(d.year, d.month) + d.day
  }

  /** Counting multiples of 4, 100 and 400 up to `y` gains one exactly at a multiple. */
  lemma MultiplesStep(y: int)
    requires y >= 1
    ensures y / 4 == (y - 1) / 4 + (if y % 4 == 0 then 1 else 0)
    ensures y / 100 == (y - 1) / 100 + (if y % 100 == 0 then 1 else 0)
    ensures y / 400 == (y - 1) / 400 + (if y % 400 == 0 then 1 else 0)
  {
    var q4, q100, q400 := (y - 1) / 4, (y - 1) / 100, (y - 1) / 400;
    assert y - 1 == 4 * q4 + (y - 1) % 4;
    assert y - 1 == 100 * q100 + (y - 1) % 100;
    assert y - 1 == 400 * q400 + (y - 1) % 400;
  }

  /** A multiple of 400 is one of 100, and a multiple of 100 one of 4. */
  lemma MultiplesNest(y: int)
    ensures y % 400 == 0 ==> y % 100 == 0
    ensures y % 100 == 0 ==> y % 4 == 0
  {
    Hundreds(y);
    Fours(y);
  }

  lemma Hundreds(y: int)
    ensures y % 400 == 0 ==> y % 100 == 0
  {
    var k := y / 400;
    assert y == 400 * k + y % 400;
  }

  lemma Fours(y: int)
    ensures y % 100 == 0 ==> y % 4 == 0
  {
    var k := y / 100;
    assert y == 100 * k + y % 100;
  }

  lemma YearLength(y: int)
    requires y >= 1
    ensures DaysBeforeYear(y + 1) == DaysBeforeYear(y) + DaysInYear(y)
  {
    MultiplesStep(y);
    MultiplesNest(y);
  }

  lemma MonthLength(y: int, m: int)
    requires 1 <= m < 12
    ensures DaysBeforeMonth(y, m + 1) == DaysBeforeMonth(y, m) + DaysInMonth(y, m)
  {
  }

  /** Every representable date lies within its own year's days. */
  lemma WithinYear(d: Date)
    requires Valid(d)
    ensures DaysBeforeYear(d.year) < Ordinal(d) <= DaysBeforeYear(d.year) + DaysInYear(d.year)
  {
  }

  lemma {:induction false} YearsMonotone(a: int, b: int)
    requires 1 <= a <= b
    ensures DaysBeforeYear(a) + 365 * (b - a) <= DaysBeforeYear(b)
    decreases b - a
  {
    if a < b {
      YearsMonotone(a + 1, b);
      YearLength(a);
    }
  }

  /** No representable date comes after the last one. */
  lemma OrdinalBounded(d: Date)
    requires Valid(d)
    ensures Ordinal(d) <= Ordinal(LastDate)
  {
    WithinYear(d);
    if d.year < MaxYear {
      YearLength(d.year);
      YearsMonotone(d.year + 1, MaxYear);
    }
  }

  /** The calendar date after `d`, or None where Python's `datetime` overflows. */
  function NextDay(d: Date): (r: Option<Date>)
    requires Valid(d)
    ensures r.None? <==> d == LastDate
    ensures r.Some? ==> Valid(r.value) && Ordinal(r.value) == Ordinal(d) + 1
  {
    if d.day < DaysInMonth(d.year, d.month) then
      Some(Date(d.year, d.month, d.day + 1))
    else if d.month < 12 then
      MonthLength(d.year, d.month);
      Some(Date(d.year, d.month + 1, 1))
    else if d.year < MaxYear then
      YearLength(d.year);
      Some(Date(d.year + 1, 1, 1))
    else
      None
  }

  /**
   * `d` plus `n` days, as Python's `datetime + timedelta(days=n)` computes it:
   * the date `n` day numbers later, or None exactly when that passes the
   * last representable date (where Python raises OverflowError).
   */
  function AddDays(d: Date, n: nat): (r: Option<Date>)
    requires Valid(d)
    ensures r.Some? ==> Valid(r.value) && Ordinal(r.value) == Ordinal(d) + n
    ensures r.None? <==> Ordinal(d) + n > Ordinal(LastDate)
    decreases n
  {
    if n == 0 then
      OrdinalBounded(d);
      Some(d)
    else
      match NextDay(d)
      case None => None
      case Some(e) => AddDays(e, n - 1)
  }

  /** Two representable dates with the same day number are the same date. */
  lemma {:induction false} OrdinalInjective(d: Date, e: Date)
    requires Valid(d) && Valid(e)
    requires Ordinal(d) == Ordinal(e)
    ensures d == e
  {
    WithinYear(d);
    WithinYear(e);
    if d.year < e.year {
      YearLength(d.year);
      YearsMonotone(d.year + 1, e.year);
      assert false;
    } else if e.year < d.year {
      YearLength(e.year);
      YearsMonotone(e.year + 1, d.year);
      assert false;
    }
  }

  /** The dates a week-long step cannot reach: the last seven days of year 9999. */
  lemma WeekOverflow(d: Date)
    requires Valid(d)
    ensures AddDays(d, 7).None? <==> d.year == MaxYear && d.month == 12 && d.day >= 25
  {
    var last := Ordinal(LastDate);
    WithinYear(d);
    if d.year < MaxYear {
      YearLength(d.year);
      YearsMonotone(d.year + 1, MaxYear);
      assert Ordinal(d) + 7 <= last;
    } else if d.month < 12 {
      assert DaysBeforeMonth(d.year, d.month) + d.day <= 334;
      assert Ordinal(d) + 7 <= last;
    } else {
      assert Ordinal(d) + 7 > last <==> d.day >= 25;
    }
  }

  /** The `%Y-%m-%d` text of `d` (`strftime('%Y-%m-%d')`). */
  function Format(d: Date): (s: string)
    requires Valid(d)
    ensures |s| == 10 && s[4] == '-' && s[7] == '-'
    ensures Parse(s) == Some(d)
  {
    var s := Padded(d.year, 4) + "-" + Padded(d.month, 2) + "-" + Padded(d.day, 2);
    assert s[..4] == Padded(d.year, 4);
    assert s[5..7] == Padded(d.month, 2);
    assert s[8..] == Padded(d.day, 2);
    s
  }

  /** Reads a `YYYY-MM-DD` string back as a representable date, if it is one. */
  function Parse(s: string): (r: Option<Date>)
    ensures r.Some? ==> Valid(r.value)
  {
    if |s| == 10 && s[4] == '-' && s[7] == '-'
       && AllDigits(s[..4]) && AllDigits(s[5..7]) && AllDigits(s[8..])
    then
      var d := Date(ValueOf(s[..4]), ValueOf(s[5..7]), ValueOf(s[8..]));
      if Valid(d) then Some(d) else None
    else
      None
  }

  /** Parse is injective: a string it accepts is exactly the formatted date it yields. */
  lemma ParseFormat(s: string)
    requires Parse(s).Some?
    ensures Format(Parse(s).value) == s
  {
    PaddedValueOf(s[..4]);
    PaddedValueOf(s[5..7]);
    PaddedValueOf(s[8..]);
    assert s == s[..4] + "-" + s[5..7] + "-" + s[8..];
  }
}
