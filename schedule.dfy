/** The swap contract and its payment schedule: `dates`, `businessdates`
    and `decimaldates` of `InterestRateSwap`. */
module Schedule {
  import opened Wrappers
  import opened Calendar
  import DayCount

  /** The contract terms the valuation reads, fixed once `__init__` has
      parsed the two dates. The compounding label is not kept: it only
      feeds discount factors and forward rates, which are inputs here. */
  datatype InterestRateSwap = InterestRateSwap(
    notional: real,
    fixed: real,
    floating: real,
    maturity: Date,
    frequency: string,
    daycount: string,
    valuation: Date)

  /** Both dates were accepted by `strptime`. */
  predicate WellFormed(swap: InterestRateSwap) {
    ValidDate(swap.maturity) && ValidDate(swap.valuation)
  }

  /** The exceptions the valuation can raise, one per cause. */
  datatype SwapError =
    | UnknownFrequency       // KeyError in `frequencymapping`
    | PaymentDayOutOfRange   // `strptime` rejects a re-anchored period date
    | ColumnLengthMismatch   // `pd.DataFrame` given columns of unequal length
    | EmptySchedule          // `df.index[-1]` on a leg with no rows
    | MissingTime            // `forwardrates` adds 1 to a `None` time: TypeError

  /** `frequencymapping`: months per pandas period for each frequency label. */
  function FrequencyMonths(frequency: string): (step: Option<nat>)
    ensures step.Some? <==> frequency in ["Monthly", "Quarterly", "Semi-Annual", "Annual"]
    ensures step.Some? ==> step.value in [1, 3, 6, 12]
  {
    if frequency == "Monthly" then Some(1)
    else if frequency == "Quarterly" then Some(3)
    else if frequency == "Semi-Annual" then Some(6)
    else if frequency == "Annual" then Some(12)
    else None
  }

  /** `pd.period_range(end = maturity, periods = 1000, ...)` */
  const Periods: nat := 1000

  /** Period `k` of the range (period `Periods - 1` is maturity's month),
      re-anchored to maturity's day-of-month by `setdate`. */
  function PeriodDate(maturity: Date, step: nat, k: int): (d: Date)
    ensures MonthIndex(d) == MonthIndex(maturity) - (Periods - 1 - k) * step
    ensures 1 <= d.month <= 12 && d.day == maturity.day
  {
    var index := MonthIndex(maturity) - (Periods - 1 - k) * step;
    Date(index / 12, index % 12 + 1, maturity.day)
  }

  function PeriodDates(maturity: Date, step: nat): (periods: seq<Date>)
    ensures |periods| == Periods
    ensures forall k :: 0 <= k < Periods ==> periods[k] == PeriodDate(maturity, step, k)
  {
    seq(Periods, k requires 0 <= k < Periods => PeriodDate(maturity, step, k))
  }

  /** `setdate` succeeds on every period of the range. */
  predicate AllPeriodsExist(maturity: Date, step: nat) {
    forall k :: 0 <= k < Periods ==> ValidDate(PeriodDate(maturity, step, k))
  }

  /** The filter of the list comprehension: the dates after `valuation`, in order. */
  function KeepAfter(dates: seq<Date>, valuation: Date): (kept: seq<Date>)
    ensures |kept| <= |dates|
    ensures forall d :: d in kept ==> d in dates && Before(valuation, d)
    ensures forall d :: d in dates && Before(valuation, d) ==> d in kept
  {
    if dates == [] then []
    else (if Before(valuation, dates[0]) then [dates[0]] else []) + KeepAfter(dates[1..], valuation)
  }

  predicate Ascending(dates: seq<Date>) {
    forall i, j :: 0 <= i < j < |dates| ==> Before(dates[i], dates[j])
  }

  /** What `dates()` promises: the valuation-date-free tail of the period
      range. Every date is real, falls on maturity's day-of-month and after
      the valuation date; consecutive dates are one period apart; the last
      is maturity when maturity is after valuation (and there are none
      otherwise); and the period before the first is not after valuation. */
  predicate IsPaymentSchedule(dates: seq<Date>, maturity: Date, valuation: Date, step: nat) {
    && |dates| <= Periods
    && (forall i :: 0 <= i < |dates| ==>
          ValidDate(dates[i]) && dates[i].day == maturity.day && Before(valuation, dates[i]))
    && (forall i :: 0 <= i < |dates| - 1 ==>
          MonthIndex(dates[i + 1]) == MonthIndex(dates[i]) + step && Before(dates[i], dates[i + 1]))
    && (Before(valuation, maturity) ==> |dates| > 0 && dates[|dates| - 1] == maturity)
    && (!Before(valuation, maturity) ==> dates == [])
    && (0 < |dates| < Periods ==> !Before(valuation, PeriodDate(maturity, step, Periods - 1 - |dates|)))
  }

  /** `dates()`: the 1000 periods ending at maturity, stepped back by the
      frequency, each re-anchored to maturity's day-of-month, keeping those
      after the valuation date. `setdate` runs on every period before the
      filter, so a maturity day missing from any stepped month fails. */
  function Dates(swap: InterestRateSwap): (r: Result<seq<Date>, SwapError>)
    requires WellFormed(swap)
    ensures (r == Err(UnknownFrequency)) <==> FrequencyMonths(swap.frequency).None?
    ensures (r == Err(PaymentDayOutOfRange))
              <==> (FrequencyMonths(swap.frequency).Some?
                    && !AllPeriodsExist(swap.maturity, FrequencyMonths(swap.frequency).value))
    ensures r.Err? ==> r.error == UnknownFrequency || r.error == PaymentDayOutOfRange
    ensures r.Ok? ==>
              IsPaymentSchedule(r.value, swap.maturity, swap.valuation, FrequencyMonths(swap.frequency).value)
  {
    match FrequencyMonths(swap.frequency)
    case None => Err(UnknownFrequency)
    case Some(step) =>
      if !AllPeriodsExist(swap.maturity, step) then Err(PaymentDayOutOfRange)
      else
        ScheduleFromPeriods(swap.maturity, swap.valuation, step);
        Ok(KeepAfter(PeriodDates(swap.maturity, step), swap.valuation))
  }

  /** A maturity day that every month has, 1 to 28, always yields a
      schedule under a known frequency. */
  lemma EarlyDaySchedules(swap: InterestRateSwap)
    requires WellFormed(swap)
    requires FrequencyMonths(swap.frequency).Some?
    requires swap.maturity.day <= 28
    ensures Dates(swap).Ok?
  {
    var step := FrequencyMonths(swap.frequency).value;
    forall k | 0 <= k < Periods
      ensures ValidDate(PeriodDate(swap.maturity, step, k))
    {
      var d := PeriodDate(swap.maturity, step, k);
      assert DaysInMonth(d.year, d.month) >= 28;
    }
  }

  /** A maturity on the 31st fails under the monthly frequency: one of the
      three months before maturity's month has 30 days or fewer, and
      `setdate` cannot re-anchor that period. */
  lemma MonthEndFailsMonthly(swap: InterestRateSwap)
    requires WellFormed(swap)
    requires swap.frequency == "Monthly"
    requires swap.maturity.day == 31
    ensures Dates(swap) == Err(PaymentDayOutOfRange)
  {
    var m := swap.maturity.month;
    var back := if m == 2 || m == 9 then 3 else if m in {1, 4, 6, 8, 11} then 2 else 1;
    MonthsBack(swap.maturity, back);
    var d := PeriodDate(swap.maturity, 1, Periods - 1 - back);
    assert !ValidDate(d);
  }

  /** The monthly period `back` months before maturity's month. */
  lemma MonthsBack(maturity: Date, back: int)
    requires 1 <= maturity.month <= 12 && 1 <= back <= 11
    ensures PeriodDate(maturity, 1, Periods - 1 - back).month
              == if maturity.month > back then maturity.month - back else maturity.month - back + 12
  {
    var index := MonthIndex(maturity) - back;
    var y, r := maturity.year, maturity.month - 1 - back;
    if r >= 0 {
      assert index == 12 * y + r && 0 <= r < 12;
    } else {
      assert index == 12 * (y - 1) + (r + 12) && 0 <= r + 12 < 12;
    }
  }

  // ---------------------------------------------------------------------
  // Proof of the schedule's shape

  /** Same day-of-month and an earlier month means an earlier date. */
  lemma MonthOrderIsDateOrder(a: Date, b: Date)
    requires 1 <= a.month <= 12 && 1 <= b.month <= 12 && a.day == b.day
    requires MonthIndex(a) < MonthIndex(b)
    ensures Before(a, b)
  {
  }

  /** Periods `i <= j` of the range lie `(j - i) * step` months apart. */
  lemma PeriodGap(maturity: Date, step: nat, i: int, j: int)
    requires i <= j
    ensures MonthIndex(PeriodDate(maturity, step, j))
              == MonthIndex(PeriodDate(maturity, step, i)) + (j - i) * step
    ensures i < j ==> (j - i) * step >= step
  {
    var a, b := Periods - 1 - i, Periods - 1 - j;
    assert a == b + (j - i);
    Distribute(b, j - i, step);
    if i < j {
      AtLeastOnce(j - i, step);
    }
  }

  lemma Distribute(b: int, c: int, s: int)
    ensures (b + c) * s == b * s + c * s
  {
  }

  lemma AtLeastOnce(c: int, s: nat)
    requires c >= 1
    ensures c * s >= s
  {
  }

  lemma PeriodsAscending(maturity: Date, step: nat)
    requires step > 0
    ensures Ascending(PeriodDates(maturity, step))
  {
    var periods := PeriodDates(maturity, step);
    forall i, j | 0 <= i < j < |periods|
      ensures Before(periods[i], periods[j])
    {
      PeriodGap(maturity, step, i, j);
      MonthOrderIsDateOrder(PeriodDate(maturity, step, i), PeriodDate(maturity, step, j));
    }
  }

  /** Filtering an ascending sequence keeps a suffix of it. */
  lemma {:induction false} KeepAfterIsSuffix(dates: seq<Date>, valuation: Date)
    requires Ascending(dates)
    ensures var j := |dates| - |KeepAfter(dates, valuation)|;
      && KeepAfter(dates, valuation) == dates[j..]
      && (forall i :: 0 <= i < j ==> !Before(valuation, dates[i]))
      && (forall i :: j <= i < |dates| ==> Before(valuation, dates[i]))
  {
    if dates != [] {
      var rest := dates[1..];
      assert Ascending(rest);
      KeepAfterIsSuffix(rest, valuation);
      var kept := KeepAfter(rest, valuation);
      var j' := |rest| - |kept|;
      if Before(valuation, dates[0]) {
        if j' > 0 {
          assert Before(dates[0], rest[0]);
          BeforeTransitive(valuation, dates[0], rest[0]);
          assert false;
        }
        assert KeepAfter(dates, valuation) == [dates[0]] + kept;
        assert kept == rest;
        forall i | 0 <= i < |dates|
          ensures Before(valuation, dates[i])
        {
          if i > 0 {
            assert dates[i] == rest[i - 1];
          }
        }
      } else {
        assert KeepAfter(dates, valuation) == kept;
        forall i | 0 <= i < j' + 1
          ensures !Before(valuation, dates[i])
        {
          if i > 0 {
            assert dates[i] == rest[i - 1];
          }
        }
        forall i | j' + 1 <= i < |dates|
          ensures Before(valuation, dates[i])
        {
          assert dates[i] == rest[i - 1];
        }
        assert rest[j'..] == dates[j' + 1..];
      }
    }
  }

  /** The shape of the suffix of the period range that starts at period `j`
      when exactly the periods from `j` on are after the valuation date. */
  lemma SuffixShape(maturity: Date, valuation: Date, step: nat, j: int, kept: seq<Date>)
    requires ValidDate(maturity)
    requires step > 0
    requires AllPeriodsExist(maturity, step)
    requires 0 <= j <= Periods && |kept| == Periods - j
    requires forall i :: 0 <= i < |kept| ==> kept[i] == PeriodDate(maturity, step, j + i)
    requires forall k :: 0 <= k < j ==> !Before(valuation, PeriodDate(maturity, step, k))
    requires forall k :: j <= k < Periods ==> Before(valuation, PeriodDate(maturity, step, k))
    ensures IsPaymentSchedule(kept, maturity, valuation, step)
  {
    forall i | 0 <= i < |kept| - 1
      ensures MonthIndex(kept[i + 1]) == MonthIndex(kept[i]) + step && Before(kept[i], kept[i + 1])
    {
      PeriodGap(maturity, step, j + i, j + i + 1);
      MonthOrderIsDateOrder(kept[i], kept[i + 1]);
    }
    var last := PeriodDate(maturity, step, Periods - 1);
    assert last == maturity;
    if Before(valuation, maturity) {
      assert j < Periods;
      assert kept[|kept| - 1] == last;
    } else {
      assert j == Periods;
    }
  }

  lemma ScheduleFromPeriods(maturity: Date, valuation: Date, step: nat)
    requires ValidDate(maturity)
    requires step > 0
    requires AllPeriodsExist(maturity, step)
    ensures IsPaymentSchedule(KeepAfter(PeriodDates(maturity, step), valuation), maturity, valuation, step)
  {
    var periods := PeriodDates(maturity, step);
    var kept := KeepAfter(periods, valuation);
    PeriodsAscending(maturity, step);
    KeepAfterIsSuffix(periods, valuation);
    var j := |periods| - |kept|;
    SuffixShape(maturity, valuation, step, j, kept);
  }

  // ---------------------------------------------------------------------
  // Business-day adjustment

  /** A date kept when it is Monday to Friday, otherwise moved by `BDay(1)`
      to the following Monday. */
  function RollForward(d: Date): (r: Date)
    requires ValidDate(d)
    ensures ValidDate(r) && Weekday(r) < 5
    ensures Weekday(d) < 5 ==> r == d
    ensures Weekday(d) >= 5 ==> Weekday(r) == 0 && Ordinal(r) == Ordinal(d) + 7 - Weekday(d)
  {
    if Weekday(d) < 5 then d
    else
      NextDayOrdinal(d);
      NextDayWeekday(d);
      var next := NextDay(d);
      if Weekday(d) == 6 then next
      else
        NextDayOrdinal(next);
        NextDayWeekday(next);
        NextDay(next)
  }

  /** `businessdates()`: the payment dates rolled forward off weekends.
      They are weekdays, at most two days late, and still strictly ascending. */
  function BusinessDates(swap: InterestRateSwap): (r: Result<seq<Date>, SwapError>)
    requires WellFormed(swap)
    ensures Dates(swap).Err? ==> r == Err(Dates(swap).error)
    ensures Dates(swap).Ok? ==> r.Ok? && |r.value| == |Dates(swap).value|
    ensures r.Ok? ==> forall i :: 0 <= i < |r.value| ==>
              && r.value[i] == RollForward(Dates(swap).value[i])
              && ValidDate(r.value[i]) && Weekday(r.value[i]) < 5
              && Ordinal(Dates(swap).value[i]) <= Ordinal(r.value[i]) <= Ordinal(Dates(swap).value[i]) + 2
              && (Weekday(Dates(swap).value[i]) < 5 ==> r.value[i] == Dates(swap).value[i])
    ensures r.Ok? ==> forall i, j :: 0 <= i < j < |r.value| ==> Ordinal(r.value[i]) < Ordinal(r.value[j])
  {
    match Dates(swap)
    case Err(e) => Err(e)
    case Ok(dates) =>
      OnePeriodApart(swap);
      var rolled := RollAll(dates);
      RolledStayAscending(dates, rolled);
      Ok(rolled)
  }

  /** Consecutive payment dates share their day-of-month and lie in
      increasing months. */
  lemma OnePeriodApart(swap: InterestRateSwap)
    requires WellFormed(swap) && Dates(swap).Ok?
    ensures var dates := Dates(swap).value;
      && (forall i :: 0 <= i < |dates| ==> ValidDate(dates[i]))
      && (forall i :: 0 <= i < |dates| - 1 ==>
            dates[i + 1].day == dates[i].day && MonthIndex(dates[i]) < MonthIndex(dates[i + 1]))
  {
    var step := FrequencyMonths(swap.frequency).value;
    assert step > 0;
  }

  /** `RollForward` applied to every date. */
  function RollAll(dates: seq<Date>): (rolled: seq<Date>)
    requires forall i :: 0 <= i < |dates| ==> ValidDate(dates[i])
    ensures |rolled| == |dates|
    ensures forall i :: 0 <= i < |dates| ==>
              && rolled[i] == RollForward(dates[i])
              && ValidDate(rolled[i]) && Weekday(rolled[i]) < 5
              && Ordinal(dates[i]) <= Ordinal(rolled[i]) <= Ordinal(dates[i]) + 2
              && (Weekday(dates[i]) < 5 ==> rolled[i] == dates[i])
  {
    seq(|dates|, i requires 0 <= i < |dates| => RollForward(dates[i]))
  }

  lemma RolledStayAscending(dates: seq<Date>, rolled: seq<Date>)
    requires forall i :: 0 <= i < |dates| ==> ValidDate(dates[i])
    requires forall i :: 0 <= i < |dates| - 1 ==>
               dates[i + 1].day == dates[i].day && MonthIndex(dates[i]) < MonthIndex(dates[i + 1])
    requires |rolled| == |dates|
    requires forall i :: 0 <= i < |dates| ==>
               Ordinal(dates[i]) <= Ordinal(rolled[i]) <= Ordinal(dates[i]) + 2
    ensures forall i, j :: 0 <= i < j < |rolled| ==> Ordinal(rolled[i]) < Ordinal(rolled[j])
  {
    forall i | 0 <= i < |dates| - 1
      ensures Ordinal(rolled[i]) < Ordinal(rolled[i + 1])
    {
      MonthsApart(dates[i], dates[i + 1]);
    }
    forall i, j | 0 <= i < j < |rolled|
      ensures Ordinal(rolled[i]) < Ordinal(rolled[j])
    {
      ChainAscends(rolled, i, j);
    }
  }

  lemma {:induction false} ChainAscends(s: seq<Date>, i: int, j: int)
    requires 0 <= i < j < |s|
    requires forall k :: 0 <= k < |s| - 1 ==> Ordinal(s[k]) < Ordinal(s[k + 1])
    ensures Ordinal(s[i]) < Ordinal(s[j])
    decreases j - i
  {
    if i + 1 < j {
      ChainAscends(s, i + 1, j);
    }
  }

  // ---------------------------------------------------------------------
  // Accrual times

  /** `decimaldates()`: the year fraction from the valuation date to each
      business date, with the business date as `yeartime`'s end argument. */
  function DecimalDates(swap: InterestRateSwap): (r: Result<seq<Option<real>>, SwapError>)
    requires WellFormed(swap)
    ensures BusinessDates(swap).Err? ==> r == Err(BusinessDates(swap).error)
    ensures BusinessDates(swap).Ok? ==> r.Ok? && |r.value| == |BusinessDates(swap).value|
    ensures r.Ok? ==> forall i :: 0 <= i < |r.value| ==>
              r.value[i] == DayCount.YearFraction(BusinessDates(swap).value[i], swap.valuation, swap.daycount)
  {
    match BusinessDates(swap)
    case Err(e) => Err(e)
    case Ok(dates) =>
      Ok(seq(|dates|, i requires 0 <= i < |dates| =>
               DayCount.YearFraction(dates[i], swap.valuation, swap.daycount)))
  }

  /** Under Actual/365, Actual/360 and Actual/364 the accrual times are
      positive and strictly increasing. */
  lemma ActualTimesIncrease(swap: InterestRateSwap, c: DayCount.Convention)
    requires WellFormed(swap)
    requires c in [DayCount.Actual365, DayCount.Actual360, DayCount.Actual364]
    requires swap.daycount == DayCount.Label(c)
    requires DecimalDates(swap).Ok?
    ensures var times := DecimalDates(swap).value;
      && (forall i :: 0 <= i < |times| ==> times[i].Some? && times[i].value > 0.0)
      && (forall i, j :: 0 <= i < j < |times| ==> times[i].value < times[j].value)
  {
    var dates := Dates(swap).value;
    var business := BusinessDates(swap).value;
    forall i | 0 <= i < |business|
      ensures Ordinal(swap.valuation) < Ordinal(business[i])
    {
      BeforeIsOrdinalOrder(swap.valuation, dates[i]);
    }
    ActualTimesOrdered(swap.valuation, business, DecimalDates(swap).value, c);
  }

  lemma ActualTimesOrdered(valuation: Date, business: seq<Date>, times: seq<Option<real>>, c: DayCount.Convention)
    requires ValidDate(valuation)
    requires c in [DayCount.Actual365, DayCount.Actual360, DayCount.Actual364]
    requires forall i :: 0 <= i < |business| ==> ValidDate(business[i])
    requires forall i :: 0 <= i < |business| ==> Ordinal(valuation) < Ordinal(business[i])
    requires forall i, j :: 0 <= i < j < |business| ==> Ordinal(business[i]) < Ordinal(business[j])
    requires |times| == |business|
    requires forall i :: 0 <= i < |times| ==>
               times[i] == DayCount.YearFraction(business[i], valuation, DayCount.Label(c))
    ensures forall i :: 0 <= i < |times| ==> times[i].Some? && times[i].value > 0.0
    ensures forall i, j :: 0 <= i < j < |times| ==> times[i].value < times[j].value
  {
    DayCount.ParseLabel(c);
    var basis: real := if c == DayCount.Actual365 then 365.0 else if c == DayCount.Actual360 then 360.0 else 364.0;
    forall i | 0 <= i < |times|
      ensures times[i] == Some(DayCount.DaysBetween(business[i], valuation) as real / basis)
      ensures times[i].value > 0.0
    {
      DivideOrder(0, DayCount.DaysBetween(business[i], valuation), basis);
    }
    forall i, j | 0 <= i < j < |times|
      ensures times[i].value < times[j].value
    {
      DivideOrder(DayCount.DaysBetween(business[i], valuation),
                  DayCount.DaysBetween(business[j], valuation), basis);
    }
  }

  lemma DivideOrder(x: int, y: int, basis: real)
    requires basis > 0.0
    ensures x < y ==> x as real / basis < y as real / basis
    ensures x > 0 ==> x as real / basis > 0.0
  {
  }
}
