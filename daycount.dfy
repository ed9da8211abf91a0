/** Day-count conventions: the year fraction between two dates under the
    eight convention labels of `yeartime`, and the leap-year test that the
    Actual/Actual convention divides by. */
module DayCount {
  import opened Wrappers
  import opened Calendar

  /** `isleapyear` as written. Its second branch is subsumed by the first,
      so the test is divisibility by 4 alone: 1900 and 2100 count as leap
      years here, although the calendar gives them 365 days. */
  function IsLeapYear(year: int): (leap: bool)
    ensures leap <==> year % 4 == 0
    ensures leap != IsGregorianLeapYear(year) <==> year % 100 == 0 && year % 400 != 0
  {
    var by4, by100, by400 := year % 4 == 0, year % 100 == 0, year % 400 == 0;
    if by4 then true
    else if by100 && by400 then true
    else false
  }

  datatype Convention =
    | Thirty360          // "30/360"
    | Thirty360US        // "30U/360"
    | Thirty360Bond      // "30B/360"
    | Thirty360European  // "30E/360"
    | ActualActual       // "Actual/Actual"
    | Actual365          // "Actual/365"
    | Actual360          // "Actual/360"
    | Actual364          // "Actual/364"

  function Label(c: Convention): string {
    match c
    case Thirty360 => "30/360"
    case Thirty360US => "30U/360"
    case Thirty360Bond => "30B/360"
    case Thirty360European => "30E/360"
    case ActualActual => "Actual/Actual"
    case Actual365 => "Actual/365"
    case Actual360 => "Actual/360"
    case Actual364 => "Actual/364"
  }

  /** The branch of `yeartime` that a label selects, if any. */
  function ParseConvention(name: string): (c: Option<Convention>)
    ensures c.Some? ==> Label(c.value) == name
    ensures c.None? ==> forall k: Convention :: Label(k) != name
  {
    if name == "30/360" then Some(Thirty360)
    else if name == "30U/360" then Some(Thirty360US)
    else if name == "30B/360" then Some(Thirty360Bond)
    else if name == "30E/360" then Some(Thirty360European)
    else if name == "Actual/Actual" then Some(ActualActual)
    else if name == "Actual/365" then Some(Actual365)
    else if name == "Actual/360" then Some(Actual360)
    else if name == "Actual/364" then Some(Actual364)
    else None
  }

  /** Each convention's label selects that convention's branch. */
  lemma ParseLabel(c: Convention)
    ensures ParseConvention(Label(c)) == Some(c)
  {
  }

  /** The 30-day formula (360 Δy + 30 Δm + Δd) / 360 on adjusted days. */
  function ThirtyDayFraction(y1: int, m1: int, d1: int, y2: int, m2: int, d2: int): real {
    (360 * (y2 - y1) + 30 * (m2 - m1) + (d2 - d1)) as real / 360.0
  }

  function Min(a: int, b: int): int {
    if a <= b then a else b
  }

  /** 28 or 29 February, which the 30U/360 rules treat as February's end
      (28 February of a leap year included). */
  predicate FebruaryEnd(d: Date) {
    d.month == 2 && (d.day == 28 || d.day == 29)
  }

  /** 30U/360 day adjustment, rule by rule: the start day becomes 30 when it
      is February's end or the 31st; the end day becomes 30 when both dates
      are February's end, or when it is the 31st and the start day is
      February's end, the 30th or the 31st. */
  function USDays(start: Date, end: Date): (days: (int, int))
    requires ValidDate(start) && ValidDate(end)
    ensures 1 <= days.0 <= 30 && 1 <= days.1 <= 31
    ensures days.1 == 31 <==> end.day == 31 && days.0 < 30
  {
    var d1 := if FebruaryEnd(start) || start.day == 31 then 30 else start.day;
    var d2 :=
      if FebruaryEnd(start) && FebruaryEnd(end) then 30
      else if end.day == 31 && (FebruaryEnd(start) || start.day >= 30) then 30
      else end.day;
    (d1, d2)
  }

  /** 30B/360 day adjustment: the start day is capped at 30, and the end day
      too when the start day reached 30. */
  function BondDays(start: Date, end: Date): (days: (int, int))
    requires ValidDate(start) && ValidDate(end)
    ensures 1 <= days.0 <= 30 && 1 <= days.1 <= 31
    ensures days.1 == 31 <==> end.day == 31 && start.day < 30
  {
    var d1 := Min(start.day, 30);
    (d1, if d1 == 30 then Min(end.day, 30) else end.day)
  }

  /** 30E/360 day adjustment: every 31st counts as the 30th. */
  function EuropeanDays(start: Date, end: Date): (days: (int, int))
    requires ValidDate(start) && ValidDate(end)
    ensures 1 <= days.0 <= 30 && 1 <= days.1 <= 30
    ensures start.day <= 30 ==> days.0 == start.day
    ensures end.day <= 30 ==> days.1 == end.day
  {
    (Min(start.day, 30), Min(end.day, 30))
  }

  /** Calendar days from `start` to `end`: `(end - start).days`. */
  function DaysBetween(end: Date, start: Date): int {
    Ordinal(end) - Ordinal(start)
  }

  /** The Actual/Actual divisor of a year, by the as-written leap test. */
  function ActualYearBasis(y: int): real {
    if IsLeapYear(y) then 366.0 else 365.0
  }

  /** `range(lo, hi)`: the years from `lo` up to but excluding `hi`. */
  function YearRange(lo: int, hi: int): (years: seq<int>)
    ensures |years| == if hi > lo then hi - lo else 0
    ensures forall i :: 0 <= i < |years| ==> years[i] == lo + i
    decreases hi - lo
  {
    if lo >= hi then [] else [lo] + YearRange(lo + 1, hi)
  }

  /** The year fraction of a known convention, end date first. */
  function Fraction(c: Convention, end: Date, start: Date): real
    requires ValidDate(end) && ValidDate(start)
  {
    match c
    case Thirty360 =>
      ThirtyDayFraction(start.year, start.month, start.day, end.year, end.month, end.day)
    case Thirty360US =>
      var days := USDays(start, end);
      ThirtyDayFraction(start.year, start.month, days.0, end.year, end.month, days.1)
    case Thirty360Bond =>
      var days := BondDays(start, end);
      ThirtyDayFraction(start.year, start.month, days.0, end.year, end.month, days.1)
    case Thirty360European =>
      var days := EuropeanDays(start, end);
      ThirtyDayFraction(start.year, start.month, days.0, end.year, end.month, days.1)
    case ActualActual =>
      DaysBetween(start, Date(start.year, 12, 31)) as real / ActualYearBasis(start.year)
      + DaysBetween(end, Date(end.year, 1, 1)) as real / ActualYearBasis(end.year)
      + |YearRange(start.year + 1, end.year)| as real
    case Actual365 => DaysBetween(end, start) as real / 365.0
    case Actual360 => DaysBetween(end, start) as real / 360.0
    case Actual364 => DaysBetween(end, start) as real / 364.0
  }

  /** `yeartime(end, start, convention)`: `None` for a label no branch matches. */
  function YearFraction(end: Date, start: Date, convention: string): (r: Option<real>)
    requires ValidDate(end) && ValidDate(start)
    ensures r.None? <==> forall k: Convention :: Label(k) != convention
  {
    match ParseConvention(convention)
    case None => None
    case Some(c) => Some(Fraction(c, end, start))
  }

  /** `yeartime` as the Python function runs it: the day-of-month values are
      copied into locals and clamped by the convention's `if` clauses in
      order, then the branch's formula is returned. */
  method YearTime(end: Date, start: Date, convention: string) returns (r: Option<real>)
    requires ValidDate(end) && ValidDate(start)
    ensures r == YearFraction(end, start, convention)
  {
    var d1, m1, y1 := start.day, start.month, start.year;
    var d2, m2, y2 := end.day, end.month, end.year;

    if convention == "30/360" {
      r := Some(ThirtyDayFraction(y1, m1, d1, y2, m2, d2));
    } else if convention == "30U/360" {
      if (m1 == 2 && (d1 == 28 || d1 == 29)) && (m2 == 2 && (d2 == 28 || d2 == 29)) {
        d2 := 30;
      }
      if m1 == 2 && (d1 == 28 || d1 == 29) {
        d1 := 30;
      }
      if d2 == 31 && (d1 == 30 || d1 == 31) {
        d2 := 30;
      }
      if d1 == 31 {
        d1 := 30;
      }
      r := Some(ThirtyDayFraction(y1, m1, d1, y2, m2, d2));
    } else if convention == "30B/360" {
      d1 := Min(d1, 30);
      if d1 > 29 {
        d2 := Min(d2, 30);
      }
      if d2 == 31 && (d1 == 30 || d1 == 31) {
        d2 := 30;
      }
      if d1 == 31 {
        d1 := 30;
      }
      r := Some(ThirtyDayFraction(y1, m1, d1, y2, m2, d2));
    } else if convention == "30E/360" {
      if d1 == 31 {
        d1 := 30;
      }
      if d2 == 31 {
        d2 := 30;
      }
      r := Some(ThirtyDayFraction(y1, m1, d1, y2, m2, d2));
    } else if convention == "Actual/Actual" {
      var dec1, dec2;
      if IsLeapYear(y1) {
        dec1 := (Ordinal(start) - Ordinal(Date(y1, 12, 31))) as real / 366.0;
      } else {
        dec1 := (Ordinal(start) - Ordinal(Date(y1, 12, 31))) as real / 365.0;
      }
      if IsLeapYear(y2) {
        dec2 := (Ordinal(end) - Ordinal(Date(y2, 1, 1))) as real / 366.0;
      } else {
        dec2 := (Ordinal(end) - Ordinal(Date(y2, 1, 1))) as real / 365.0;
      }
      r := Some(dec1 + dec2 + |YearRange(y1 + 1, y2)| as real);
    } else if convention == "Actual/365" {
      r := Some((Ordinal(end) - Ordinal(start)) as real / 365.0);
    } else if convention == "Actual/360" {
      r := Some((Ordinal(end) - Ordinal(start)) as real / 360.0);
    } else if convention == "Actual/364" {
      r := Some((Ordinal(end) - Ordinal(start)) as real / 364.0);
    } else {
      r := None;
    }
  }

  // ---------------------------------------------------------------------
  // Properties of the conventions

  /** The worked 30/360 example: 15 January to 28 February 2021 is 43/360. */
  lemma ThirtyExample()
    ensures YearFraction(Date(2021, 2, 28), Date(2021, 1, 15), "30/360") == Some(43.0 / 360.0)
  {
  }

  /** Actual/360 over the 366 days of 2020 is 366/360. */
  lemma Actual360Example()
    ensures YearFraction(Date(2021, 1, 1), Date(2020, 1, 1), "Actual/360") == Some(366.0 / 360.0)
  {
  }

  /** When neither day-of-month exceeds 27, no 30-day adjustment fires, so
      the three adjusted conventions give the plain 30/360 fraction. */
  lemma ThirtyVariantsAgreeOnEarlyDays(end: Date, start: Date)
    requires ValidDate(end) && ValidDate(start)
    requires start.day <= 27 && end.day <= 27
    ensures Fraction(Thirty360US, end, start) == Fraction(Thirty360, end, start)
    ensures Fraction(Thirty360Bond, end, start) == Fraction(Thirty360, end, start)
    ensures Fraction(Thirty360European, end, start) == Fraction(Thirty360, end, start)
  {
  }

  /** Every convention except Actual/Actual gives 0 between a date and itself. */
  lemma SameDateIsZero(d: Date, c: Convention)
    requires ValidDate(d)
    requires c != ActualActual
    ensures YearFraction(d, d, Label(c)) == Some(0.0)
  {
  }

  /** The first Actual/Actual term, `start - 31 Dec`, is never positive, the
      second, `end - 1 Jan`, never negative. */
  lemma ActualActualTermSigns(end: Date, start: Date)
    requires ValidDate(end) && ValidDate(start)
    ensures DaysBetween(start, Date(start.year, 12, 31)) <= 0
    ensures DaysBetween(end, Date(end.year, 1, 1)) >= 0
  {
    OrdinalWithinYear(start);
    OrdinalWithinYear(end);
  }

  /** Between a date and itself Actual/Actual gives
      (2 k - (L - 1)) / B, with k the days since 1 January, L the calendar
      length of the year and B the as-written basis; so it is 0 only on
      2 July of a common year and nonzero on every other date. */
  lemma ActualActualSameDate(d: Date)
    requires ValidDate(d)
    ensures (YearFraction(d, d, "Actual/Actual") == Some(0.0))
        <==> (!IsGregorianLeapYear(d.year) && d.month == 7 && d.day == 2)
  {
    var jan1, dec31 := Date(d.year, 1, 1), Date(d.year, 12, 31);
    OrdinalWithinYear(d);
    var k := Ordinal(d) - Ordinal(jan1);
    var b := ActualYearBasis(d.year);
    assert k == DaysBeforeMonth(d.year, d.month) + d.day - 1;
    var f := Fraction(ActualActual, d, d);
    assert f == (Ordinal(d) - Ordinal(dec31)) as real / b + k as real / b;
    assert f == (2 * k - (YearLength(d.year) - 1)) as real / b;
    assert f == 0.0 <==> 2 * k == YearLength(d.year) - 1;
  }

  /** 1 January 2021 against itself gives -364/365 under Actual/Actual. */
  lemma ActualActualNewYearExample()
    ensures YearFraction(Date(2021, 1, 1), Date(2021, 1, 1), "Actual/Actual") == Some(-364.0 / 365.0)
  {
  }
}
