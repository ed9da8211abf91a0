/** The two legs of the swap and their net present value: `fixedleg`,
    `floatleg` and `npv` of `InterestRateSwap`. Discount factors and
    forward rates, one per payment date, are inputs: they come from the
    fitted yield curve, which is not part of this model. */
module Legs {
  import opened Wrappers
  import opened Calendar
  import opened Schedule
  import DayCount

  /** One row of a leg's DataFrame. */
  datatype CashFlow = CashFlow(
    date: Date,
    time: Option<real>,
    rate: real,
    payment: real,
    discount: real,
    presentValue: real)

  /** The exception a leg raises when its two computed columns have `a` and
      `b` entries (the date and time columns have one row per business date). */
  function LegFailure(swap: InterestRateSwap, a: nat, b: nat): (failure: Option<SwapError>)
    requires WellFormed(swap)
    ensures BusinessDates(swap).Err? ==> failure == Some(BusinessDates(swap).error)
    ensures BusinessDates(swap).Ok? && (a != |BusinessDates(swap).value| || b != |BusinessDates(swap).value|) ==>
              failure == Some(ColumnLengthMismatch)
    ensures BusinessDates(swap).Ok? && |BusinessDates(swap).value| == a == b == 0 ==>
              failure == Some(EmptySchedule)
    ensures failure.None? <==>
              BusinessDates(swap).Ok? && 0 < |BusinessDates(swap).value| == a == b
  {
    match BusinessDates(swap)
    case Err(e) => Some(e)
    case Ok(dates) =>
      if a != |dates| || b != |dates| then Some(ColumnLengthMismatch)
      else if |dates| == 0 then Some(EmptySchedule)
      else None
  }

  /** The exception the floating leg raises with `forwards` forward rates
      and `discounts` discount factors. Building the forward-rate column
      adds 1 to every time, so on a non-empty schedule an unknown day-count
      label (a `None` time) fails there, after the schedule and before the
      columns are assembled. */
  function FloatLegFailure(swap: InterestRateSwap, forwards: nat, discounts: nat): (failure: Option<SwapError>)
    requires WellFormed(swap)
    ensures BusinessDates(swap).Err? ==> failure == Some(BusinessDates(swap).error)
    ensures BusinessDates(swap).Ok? && |BusinessDates(swap).value| > 0 && DayCount.ParseConvention(swap.daycount).None? ==>
              failure == Some(MissingTime)
    ensures DayCount.ParseConvention(swap.daycount).Some? ==> failure == LegFailure(swap, forwards, discounts)
    ensures failure.None? <==>
              LegFailure(swap, forwards, discounts).None? && DayCount.ParseConvention(swap.daycount).Some?
  {
    match BusinessDates(swap)
    case Err(e) => Some(e)
    case Ok(dates) =>
      if |dates| > 0 && DayCount.ParseConvention(swap.daycount).None? then Some(MissingTime)
      else LegFailure(swap, forwards, discounts)
  }

  /** The columns both legs share: row `i` holds the `i`-th date, time and
      discount factor, and its present value is its payment times its
      discount factor. */
  predicate Tabulated(rows: seq<CashFlow>, dates: seq<Date>, times: seq<Option<real>>, discounts: seq<real>) {
    && |rows| == |dates| == |times| == |discounts|
    && forall i :: 0 <= i < |rows| ==>
         && rows[i].date == dates[i] && rows[i].time == times[i] && rows[i].discount == discounts[i]
         && rows[i].presentValue == rows[i].payment * rows[i].discount
  }

  /** The fixed leg: the fixed rate and coupon on every row but the last,
      which also redeems the notional. */
  predicate IsFixedLeg(rows: seq<CashFlow>, notional: real, fixed: real,
                       dates: seq<Date>, times: seq<Option<real>>, discounts: seq<real>) {
    && Tabulated(rows, dates, times, discounts)
    && |rows| > 0
    && (forall i :: 0 <= i < |rows| - 1 ==>
          rows[i].rate == fixed && rows[i].payment == fixed * notional)
    && rows[|rows| - 1].rate == 1.0 + fixed
    && rows[|rows| - 1].payment == (1.0 + fixed) * notional
  }

  /** The floating leg: forward rate plus spread and its coupon on every row
      but the last, which also redeems the notional. */
  predicate IsFloatLeg(rows: seq<CashFlow>, notional: real, spread: real,
                       dates: seq<Date>, times: seq<Option<real>>, discounts: seq<real>, forwards: seq<real>) {
    && Tabulated(rows, dates, times, discounts)
    && |rows| > 0
    && |forwards| == |rows|
    && (forall i :: 0 <= i < |rows| - 1 ==>
          rows[i].rate == forwards[i] + spread && rows[i].payment == (forwards[i] + spread) * notional)
    && rows[|rows| - 1].rate == 1.0 + (forwards[|rows| - 1] + spread)
    && rows[|rows| - 1].payment == (1.0 + (forwards[|rows| - 1] + spread)) * notional
  }

  /** Assembles the DataFrame from its columns and adds the
      `Present Value = Payment * Discount` column row by row. */
  method Tabulate(dates: seq<Date>, times: seq<Option<real>>, rate: array<real>, payment: array<real>,
                  discounts: seq<real>) returns (rows: seq<CashFlow>)
    requires |dates| == |times| == |discounts| == rate.Length == payment.Length
    ensures Tabulated(rows, dates, times, discounts)
    ensures forall i :: 0 <= i < |rows| ==> rows[i].rate == rate[i] && rows[i].payment == payment[i]
  {
    rows := [];
    var i := 0;
    while i < |dates|
      invariant 0 <= i <= |dates|
      invariant |rows| == i
      invariant forall k :: 0 <= k < i ==>
                  && rows[k].date == dates[k] && rows[k].time == times[k] && rows[k].discount == discounts[k]
                  && rows[k].rate == rate[k] && rows[k].payment == payment[k]
                  && rows[k].presentValue == payment[k] * discounts[k]
    {
      rows := rows + [CashFlow(dates[i], times[i], rate[i], payment[i], discounts[i], payment[i] * discounts[i])];
      i := i + 1;
    }
  }

  /** `fixedleg()`: every row starts with the fixed rate and coupon, then the
      last row is overwritten in place with the notional redemption. */
  method FixedLeg(swap: InterestRateSwap, discounts: seq<real>) returns (r: Result<seq<CashFlow>, SwapError>)
    requires WellFormed(swap)
    ensures LegFailure(swap, |discounts|, |discounts|).Some? ==> r == Err(LegFailure(swap, |discounts|, |discounts|).value)
    ensures LegFailure(swap, |discounts|, |discounts|).None? ==>
              r.Ok? && IsFixedLeg(r.value, swap.notional, swap.fixed,
                                  BusinessDates(swap).value, DecimalDates(swap).value, discounts)
  {
    var schedule := BusinessDates(swap);
    if schedule.Err? {
      return Err(schedule.error);
    }
    var dates := schedule.value;
    if |discounts| != |dates| {
      return Err(ColumnLengthMismatch);
    }
    if |dates| == 0 {
      return Err(EmptySchedule);
    }
    var times := DecimalDates(swap).value;
    var rows := FixedRows(swap.notional, swap.fixed, dates, times, discounts);
    r := Ok(rows);
  }

  method FixedRows(notional: real, fixed: real, dates: seq<Date>, times: seq<Option<real>>, discounts: seq<real>)
    returns (rows: seq<CashFlow>)
    requires |dates| == |times| == |discounts| > 0
    ensures IsFixedLeg(rows, notional, fixed, dates, times, discounts)
  {
    var n := |dates|;
    var rate := new real[n](_ => fixed);
    var payment := new real[n](_ => fixed * notional);
    rate[n - 1] := 1.0 + fixed;
    payment[n - 1] := (1.0 + fixed) * notional;
    rows := Tabulate(dates, times, rate, payment, discounts);
  }

  /** `floatleg()`: every row starts with forward rate plus spread and its
      coupon, then the last row's rate gains the notional redemption in
      place and its payment is recomputed from that rate. */
  method FloatLeg(swap: InterestRateSwap, discounts: seq<real>, forwards: seq<real>)
    returns (r: Result<seq<CashFlow>, SwapError>)
    requires WellFormed(swap)
    ensures FloatLegFailure(swap, |forwards|, |discounts|).Some? ==>
              r == Err(FloatLegFailure(swap, |forwards|, |discounts|).value)
    ensures FloatLegFailure(swap, |forwards|, |discounts|).None? ==>
              r.Ok? && IsFloatLeg(r.value, swap.notional, swap.floating,
                                  BusinessDates(swap).value, DecimalDates(swap).value, discounts, forwards)
  {
    var schedule := BusinessDates(swap);
    if schedule.Err? {
      return Err(schedule.error);
    }
    var dates := schedule.value;
    if |dates| > 0 && DayCount.ParseConvention(swap.daycount).None? {
      return Err(MissingTime);
    }
    if |forwards| != |dates| || |discounts| != |dates| {
      return Err(ColumnLengthMismatch);
    }
    if |dates| == 0 {
      return Err(EmptySchedule);
    }
    var times := DecimalDates(swap).value;
    var rows := FloatRows(swap.notional, swap.floating, dates, times, discounts, forwards);
    r := Ok(rows);
  }

  method FloatRows(notional: real, spread: real, dates: seq<Date>, times: seq<Option<real>>,
                   discounts: seq<real>, forwards: seq<real>) returns (rows: seq<CashFlow>)
    requires |dates| == |times| == |discounts| == |forwards| > 0
    ensures IsFloatLeg(rows, notional, spread, dates, times, discounts, forwards)
  {
    var n := |dates|;
    var rate := new real[n](i requires 0 <= i < n => forwards[i] + spread);
    var payment := new real[n](i requires 0 <= i < n => (forwards[i] + spread) * notional);
    rate[n - 1] := 1.0 + rate[n - 1];
    payment[n - 1] := rate[n - 1] * notional;
    rows := Tabulate(dates, times, rate, payment, discounts);
  }

  /** A leg's summed present values. */
  function LegValue(rows: seq<CashFlow>): real {
    if rows == [] then 0.0 else rows[0].presentValue + LegValue(rows[1..])
  }

  /** Σ discount × (fixed - forward - spread): the discounted coupon
      difference per unit of notional. */
  function NetCarry(fixed: real, spread: real, discounts: seq<real>, forwards: seq<real>): real
  {
    if discounts == [] || forwards == [] then 0.0
    else discounts[0] * (fixed - forwards[0] - spread)
         + NetCarry(fixed, spread, discounts[1..], forwards[1..])
  }

  lemma {:induction false} DifferenceOfSums(a: seq<CashFlow>, b: seq<CashFlow>, notional: real,
                                            fixed: real, spread: real, discounts: seq<real>, forwards: seq<real>)
    requires |a| == |b| == |discounts| == |forwards|
    requires forall i :: 0 <= i < |a| ==>
               a[i].presentValue - b[i].presentValue == notional * (discounts[i] * (fixed - forwards[i] - spread))
    ensures LegValue(a) - LegValue(b) == notional * NetCarry(fixed, spread, discounts, forwards)
  {
    if a != [] {
      var a', b', discounts', forwards' := a[1..], b[1..], discounts[1..], forwards[1..];
      forall i | 0 <= i < |a'|
        ensures a'[i].presentValue - b'[i].presentValue
                == notional * (discounts'[i] * (fixed - forwards'[i] - spread))
      {
        assert a'[i] == a[i + 1] && b'[i] == b[i + 1];
        assert discounts'[i] == discounts[i + 1] && forwards'[i] == forwards[i + 1];
      }
      DifferenceOfSums(a', b', notional, fixed, spread, discounts', forwards');
      var head := discounts[0] * (fixed - forwards[0] - spread);
      var tail := NetCarry(fixed, spread, discounts', forwards');
      assert LegValue(a) - LegValue(b) == (a[0].presentValue - b[0].presentValue) + (LegValue(a') - LegValue(b'));
      ScaleSum(notional, head, tail);
    }
  }

  lemma ScaleSum(k: real, x: real, y: real)
    ensures k * (x + y) == k * x + k * y
  {
  }

  /** Both legs redeem the notional on the last row and share the discount
      factors, so the redemptions cancel: the difference of the legs'
      present values is the notional times the discounted coupon spread. */
  lemma NotionalRedemptionCancels(fixedRows: seq<CashFlow>, floatRows: seq<CashFlow>, notional: real,
                                  fixed: real, spread: real, dates: seq<Date>, times: seq<Option<real>>,
                                  discounts: seq<real>, forwards: seq<real>)
    requires IsFixedLeg(fixedRows, notional, fixed, dates, times, discounts)
    requires IsFloatLeg(floatRows, notional, spread, dates, times, discounts, forwards)
    ensures LegValue(fixedRows) - LegValue(floatRows) == notional * NetCarry(fixed, spread, discounts, forwards)
  {
    var n := |fixedRows|;
    forall i | 0 <= i < n
      ensures fixedRows[i].presentValue - floatRows[i].presentValue
              == notional * (discounts[i] * (fixed - forwards[i] - spread))
    {
      var d := discounts[i];
      var fixedPayment, floatPayment := fixedRows[i].payment, floatRows[i].payment;
      if i < n - 1 {
        assert fixedPayment == fixed * notional && floatPayment == (forwards[i] + spread) * notional;
      } else {
        assert fixedPayment == (1.0 + fixed) * notional && floatPayment == (1.0 + (forwards[i] + spread)) * notional;
      }
      assert fixedPayment - floatPayment == notional * (fixed - forwards[i] - spread);
      assert fixedPayment * d - floatPayment * d == (fixedPayment - floatPayment) * d;
    }
    DifferenceOfSums(fixedRows, floatRows, notional, fixed, spread, discounts, forwards);
  }

  /** The same cancellation for the legs of one swap, stated over its
      notional, fixed rate and spread. It adds nothing to
      `NotionalRedemptionCancels`; it keeps the facts in scope of `Npv`'s
      proof few, so that proof stays small. */
  lemma NpvOfLegs(swap: InterestRateSwap, discounts: seq<real>, forwards: seq<real>,
                  fixedRows: seq<CashFlow>, floatRows: seq<CashFlow>, dates: seq<Date>, times: seq<Option<real>>)
    requires IsFixedLeg(fixedRows, swap.notional, swap.fixed, dates, times, discounts)
    requires IsFloatLeg(floatRows, swap.notional, swap.floating, dates, times, discounts, forwards)
    ensures LegValue(fixedRows) - LegValue(floatRows)
            == swap.notional * NetCarry(swap.fixed, swap.floating, discounts, forwards)
  {
    NotionalRedemptionCancels(fixedRows, floatRows, swap.notional, swap.fixed, swap.floating,
                              dates, times, discounts, forwards);
  }

  /** `npv()`: the fixed leg's summed present values minus the floating
      leg's. The fixed leg's exception comes first. */
  method Npv(swap: InterestRateSwap, discounts: seq<real>, forwards: seq<real>) returns (r: Result<real, SwapError>)
    requires WellFormed(swap)
    ensures LegFailure(swap, |discounts|, |discounts|).Some? ==> r == Err(LegFailure(swap, |discounts|, |discounts|).value)
    ensures LegFailure(swap, |discounts|, |discounts|).None? && FloatLegFailure(swap, |forwards|, |discounts|).Some? ==>
              r == Err(FloatLegFailure(swap, |forwards|, |discounts|).value)
    ensures FloatLegFailure(swap, |forwards|, |discounts|).None? ==> r.Ok?
    ensures r.Ok? ==> r.value == swap.notional * NetCarry(swap.fixed, swap.floating, discounts, forwards)
  {
    FailureOrder(swap, discounts, forwards);
    var fixedLeg := FixedLeg(swap, discounts);
    if fixedLeg.Err? {
      return Err(fixedLeg.error);
    }
    var floatLeg := FloatLeg(swap, discounts, forwards);
    if floatLeg.Err? {
      return Err(floatLeg.error);
    }
    r := Ok(LegValue(fixedLeg.value) - LegValue(floatLeg.value));
    assert FloatLegFailure(swap, |forwards|, |discounts|).None?;
    NpvOfLegs(swap, discounts, forwards, fixedLeg.value, floatLeg.value,
              BusinessDates(swap).value, DecimalDates(swap).value);
  }

  /** How the floating leg's failure relates to the fixed leg's: once the
      fixed leg is built, the floating leg can still fail on a `None` time
      or on the forward-rate column's length, in that order. */
  lemma FailureOrder(swap: InterestRateSwap, discounts: seq<real>, forwards: seq<real>)
    requires WellFormed(swap)
    ensures FloatLegFailure(swap, |forwards|, |discounts|).None? ==> LegFailure(swap, |discounts|, |discounts|).None?
    ensures LegFailure(swap, |discounts|, |discounts|).None? && FloatLegFailure(swap, |forwards|, |discounts|).Some? ==>
              FloatLegFailure(swap, |forwards|, |discounts|)
              == if DayCount.ParseConvention(swap.daycount).None? then Some(MissingTime) else Some(ColumnLengthMismatch)
  {
  }
}
