/** Calendar dates as (year, month, day) triples, with the proleptic
    Gregorian arithmetic that Python's `datetime` performs for the swap
    code: the ordinal day number behind `(a - b).days`, the weekday behind
    `pd.bdate_range`, and the day-by-day successor behind `BDay(1)`. */
module Calendar {

  datatype Date = Date(year: int, month: int, day: int)

  /** The calendar's own leap rule, the one `datetime` uses to decide how
      many days February has and how far apart two dates are. */
  predicate IsGregorianLeapYear(y: int) {
    y % 4 == 0 && (y % 100 != 0 || y % 400 == 0)
  }

  function DaysInMonth(y: int, m: int): (n: int)
    ensures 28 <= n <= 31
    ensures n == 29 <==> m == 2 && IsGregorianLeapYear(y)
  {
    if m == 2 then (if IsGregorianLeapYear(y) then 29 else 28)
    else if m == 4 || m == 6 || m == 9 || m == 11 then 30
    else 31
  }

  /** A triple `datetime` accepts: a month 1..12 and a day that exists in it. */
  predicate ValidDate(d: Date) {
    1 <= d.month <= 12 && 1 <= d.day <= DaysInMonth(d.year, d.month)
  }

  function YearLength(y: int): int {
    if IsGregorianLeapYear(y) then 366 else 365
  }

  /** Days in the months of year `y` that come before month `m`. */
  function DaysBeforeMonth(y: int, m: int): int {
    var leapDay := if m > 2 && IsGregorianLeapYear(y) then 1 else 0;
    leapDay +
      (if m <= 1 then 0 else if m == 2 then 31 else if m == 3 then 59
       else if m == 4 then 90 else if m == 5 then 120 else if m == 6 then 151
       else if m == 7 then 181 else if m == 8 then 212 else if m == 9 then 243
       else if m == 10 then 273 else if m == 11 then 304 else 334)
  }

  /** Days in the years before year `y`, counted from 1 January of year 1. */
  function DaysBeforeYear(y: int): int {
    var p := y - 1;
    365 * p + p / 4 - p / 100 + p / 400
  }

  /** The ordinal day number: 1 January of year 1 is day 1. Differences of
      ordinals are the `.days` of a difference of two dates. */
  function Ordinal(d: Date): int {
    DaysBeforeYear(d.year) + DaysBeforeMonth(d.year, d.month) + d.day
  }

  /** Day of the week, 0 = Monday ... 5 = Saturday, 6 = Sunday. */
  function Weekday(d: Date): (w: int)
    ensures 0 <= w < 7
  {
    (Ordinal(d) + 6) % 7
  }

  function NextDay(d: Date): Date {
    if d.day < DaysInMonth(d.year, d.month) then Date(d.year, d.month, d.day + 1)
    else if d.month < 12 then Date(d.year, d.month + 1, 1)
    else Date(d.year + 1, 1, 1)
  }

  /** Chronological order of two dates, as `datetime` compares them. */
  predicate Before(a: Date, b: Date) {
    a.year < b.year
    || (a.year == b.year && a.month < b.month)
    || (a.year == b.year && a.month == b.month && a.day < b.day)
  }

  /** Months counted from January of year 0; a pandas monthly period. */
  function MonthIndex(d: Date): int {
    12 * d.year + d.month - 1
  }

  lemma BeforeTransitive(a: Date, b: Date, c: Date)
    requires Before(a, b) && Before(b, c)
    ensures Before(a, c)
  {
  }

  lemma DaysBeforeYearStep(y: int)
    ensures DaysBeforeYear(y + 1) == DaysBeforeYear(y) + YearLength(y)
  {
    QuotientStep(y - 1);
    MultiplesNest(y);
    var by4, by100, by400 := y % 4 == 0, y % 100 == 0, y % 400 == 0;
    assert YearLength(y) == 365 + (if by4 then 1 else 0) - (if by100 then 1 else 0) + (if by400 then 1 else 0);
  }

  /** Multiples of 400 are multiples of 100, which are multiples of 4. */
  lemma MultiplesNest(y: int)
    ensures y % 400 == 0 ==> y % 100 == 0
    ensures y % 100 == 0 ==> y % 4 == 0
  {
    if y % 400 == 0 {
      FourCenturies(y);
    }
    if y % 100 == 0 {
      OneCentury(y);
    }
  }

  lemma FourCenturies(y: int)
    requires y % 400 == 0
    ensures y % 100 == 0
  {
    var k := y / 400;
    assert y == 100 * (4 * k);
  }

  lemma OneCentury(y: int)
    requires y % 100 == 0
    ensures y % 4 == 0
  {
    var k := y / 100;
    assert y == 4 * (25 * k);
  }

  /** One more year adds one to each count of multiples exactly when the
      new year is such a multiple. */
  lemma QuotientStep(p: int)
    ensures (p + 1) / 4 == p / 4 + (if (p + 1) % 4 == 0 then 1 else 0)
    ensures (p + 1) / 100 == p / 100 + (if (p + 1) % 100 == 0 then 1 else 0)
    ensures (p + 1) / 400 == p / 400 + (if (p + 1) % 400 == 0 then 1 else 0)
  {
  }

  lemma NextDayOrdinal(d: Date)
    requires ValidDate(d)
    ensures ValidDate(NextDay(d))
    ensures Ordinal(NextDay(d)) == Ordinal(d) + 1
  {
    if d.day == DaysInMonth(d.year, d.month) && d.month == 12 {
      DaysBeforeYearStep(d.year);
    }
  }

  lemma NextDayWeekday(d: Date)
    requires ValidDate(d)
    ensures Weekday(NextDay(d)) == if Weekday(d) == 6 then 0 else Weekday(d) + 1
  {
    NextDayOrdinal(d);
    ShiftByOne(Ordinal(d) + 6);
  }

  /** Counting one day further moves the remainder modulo 7 by one. */
  lemma ShiftByOne(o: int)
    ensures (o + 1) % 7 == (o % 7 + 1) % 7
  {
    var q, r := o / 7, o % 7;
    assert o == 7 * q + r && 0 <= r < 7;
    if r == 6 {
      assert o + 1 == 7 * (q + 1);
    } else {
      assert o + 1 == 7 * q + (r + 1);
    }
  }

  /** The months of a year follow each other without gaps, and December
      ends the year. */
  lemma MonthStep(y: int, m: int)
    requires 1 <= m <= 12
    ensures 0 <= DaysBeforeMonth(y, m)
    ensures m < 12 ==> DaysBeforeMonth(y, m + 1) == DaysBeforeMonth(y, m) + DaysInMonth(y, m)
    ensures m == 12 ==> DaysBeforeMonth(y, m) + DaysInMonth(y, m) == YearLength(y)
  {
  }

  /** A later month of the same year starts after the earlier month ends. */
  lemma {:induction false} MonthsBefore(y: int, m1: int, m2: int)
    requires 1 <= m1 < m2 <= 12
    ensures DaysBeforeMonth(y, m1) + DaysInMonth(y, m1) <= DaysBeforeMonth(y, m2)
    decreases m2 - m1
  {
    MonthStep(y, m1);
    if m1 + 1 < m2 {
      MonthsBefore(y, m1 + 1, m2);
    }
  }

  /** A month ends no later than its year. */
  lemma {:induction false} MonthWithinYear(y: int, m: int)
    requires 1 <= m <= 12
    ensures DaysBeforeMonth(y, m) + DaysInMonth(y, m) <= YearLength(y)
  {
    MonthStep(y, 12);
    if m < 12 {
      MonthsBefore(y, m, 12);
    }
  }

  /** Two valid dates on the same day-of-month in different months are at
      least as far apart as the earlier month is long. */
  lemma MonthsApart(a: Date, b: Date)
    requires ValidDate(a) && ValidDate(b) && a.day == b.day
    requires MonthIndex(a) < MonthIndex(b)
    ensures Ordinal(b) - Ordinal(a) >= DaysInMonth(a.year, a.month)
  {
    if a.year < b.year {
      LaterYearApart(a, b);
    } else {
      assert a.year == b.year && a.month < b.month;
      MonthsBefore(a.year, a.month, b.month);
    }
  }

  lemma LaterYearApart(a: Date, b: Date)
    requires ValidDate(a) && ValidDate(b) && a.day == b.day && a.year < b.year
    ensures Ordinal(b) - Ordinal(a) >= DaysInMonth(a.year, a.month)
  {
    MonthStep(b.year, b.month);
    YearsOrdered(a.year, b.year);
    MonthWithinYear(a.year, a.month);
  }

  /** Every date of year `y` lies between its 1 January and its 31 December. */
  lemma OrdinalWithinYear(d: Date)
    requires ValidDate(d)
    ensures Ordinal(Date(d.year, 1, 1)) <= Ordinal(d) <= Ordinal(Date(d.year, 12, 31))
    ensures Ordinal(Date(d.year, 12, 31)) - Ordinal(Date(d.year, 1, 1)) == YearLength(d.year) - 1
  {
  }

  /** Later years start after every day of earlier years. */
  lemma {:induction false} YearsOrdered(y1: int, y2: int)
    requires y1 < y2
    ensures DaysBeforeYear(y1) + YearLength(y1) <= DaysBeforeYear(y2)
    decreases y2 - y1
  {
    DaysBeforeYearStep(y1);
    if y1 + 1 < y2 {
      YearsOrdered(y1 + 1, y2);
      assert YearLength(y1 + 1) >= 0;
    }
  }

  /** Chronological order of valid dates is the order of their ordinals. */
  lemma BeforeIsOrdinalOrder(a: Date, b: Date)
    requires ValidDate(a) && ValidDate(b)
    ensures Before(a, b) <==> Ordinal(a) < Ordinal(b)
    ensures a == b <==> Ordinal(a) == Ordinal(b)
  {
    OrdinalWithinYear(a);
    OrdinalWithinYear(b);
    if a.year < b.year {
      YearsOrdered(a.year, b.year);
    } else if b.year < a.year {
      YearsOrdered(b.year, a.year);
    }
  }
}
