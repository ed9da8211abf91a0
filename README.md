# Interest rate swap valuation: day counts, payment schedule, legs and NPV

This project models the exact part of `swap.py`, a plain-vanilla interest
rate swap valuer, and proves properties of it in Dafny.

- **Day counts** (`daycount.dfy`). `isleapyear` and `yeartime` turn an
  `(end, start)` pair of dates into a year fraction under eight convention
  labels: 30/360, 30U/360, 30B/360, 30E/360, Actual/Actual, Actual/365,
  Actual/360 and Actual/364. `YearTime` is the imperative form, which
  clamps the day-of-month locals one `if` at a time as the Python function
  does. It is proved equal to the closed-form `YearFraction`, and the
  properties are proved about that function.
- **Calendar** (`calendar.dfy`). Dates are `(year, month, day)` triples.
  The proleptic Gregorian arithmetic that Python's `datetime` performs is
  written out: the ordinal day number behind `(a - b).days`, the weekday,
  the next day, and chronological order.
- **Payment schedule** (`schedule.dfy`). The swap's contract terms form an
  immutable value.
  - `Dates` models `dates()`: 1000 periods, one frequency step apart,
    ending at maturity's month. Each is re-anchored to maturity's
    day-of-month, and only those after the valuation date are kept.
  - `BusinessDates` models `businessdates()`: Saturdays and Sundays are
    rolled to the following Monday.
  - `DecimalDates` models `decimaldates()`: the year fraction of each
    business date from the valuation date.
- **Legs and NPV** (`legs.dfy`).
  - `FixedLeg` and `FloatLeg` fill rate and payment arrays, overwrite the
    last entry in place with the notional redemption, then tabulate rows
    with present value = payment × discount.
  - `Npv` subtracts the floating leg's summed present values from the fixed
    leg's. It is proved equal to the notional times the discounted coupon
    difference, because the notional redemption on the last row cancels.
  - Discount factors and forward rates are input sequences.
- **Errors** (`wrappers.dfy`). The exceptions the Python code raises are
  error values of a `Result`. `yeartime`'s fall-through `None` is an
  `Option`.

Two behaviours of the code differ from the textbook conventions:

- The 30U/360 rule treats 28 or 29 February as February's end, in either
  year. That includes 28 February of a leap year.
- Actual/Actual between a date and itself is 0 on 2 July of a common year
  and nonzero on every other date. The first term is `start − 31 Dec` over
  365 or 366, and the second is `end − 1 Jan` over the same divisor.
  `DayCount.ActualActualSameDate` proves this as an if-and-only-if.

## Model

| member | source | states |
|---|---|---|
| DayCount.IsLeapYear | swap.py:14-20 | True exactly for multiples of 4, because the second branch can never fire. It differs from the Gregorian rule exactly on centuries not divisible by 400 (1900 and 2100 count as leap). |
| DayCount.ParseConvention | swap.py:27-79 | A selected convention's label is the given string. No convention is selected exactly when no label matches. |
| DayCount.ParseLabel | swap.py:27-79 | Each convention's label selects that convention's branch. |
| DayCount.USDays | swap.py:30-38 | 30U/360 adjusted start day is in 1..30 and end day in 1..31. The end day stays 31 exactly when the end date is the 31st and the adjusted start day is below 30. |
| DayCount.BondDays | swap.py:41-48 | 30B/360 adjusted start day is in 1..30 and end day in 1..31. The end day stays 31 exactly when it is the 31st and the start day is below 30, so lines 45-48 change nothing. |
| DayCount.EuropeanDays | swap.py:51-55 | 30E/360 adjusted days both lie in 1..30. Days up to the 30th are unchanged. |
| DayCount.YearRange | swap.py:70 | `range(lo, hi)` holds `hi − lo` years when `hi > lo` and none otherwise, the `i`-th being `lo + i`; its length is the whole-year term of Actual/Actual. |
| DayCount.YearFraction | swap.py:22-79 | The year fraction is `None` exactly when the label matches none of the eight conventions. |
| DayCount.YearTime | swap.py:22-79 | The sequential clamps on the day locals yield exactly `YearFraction(end, start, convention)`, `None` included. |
| DayCount.ThirtyExample | swap.py:27-28 | 15 January to 28 February 2021 under 30/360 is 43/360, with the end date as first argument. |
| DayCount.Actual360Example | swap.py:75-76 | 1 January 2020 to 1 January 2021 under Actual/360 is 366/360. |
| DayCount.ThirtyVariantsAgreeOnEarlyDays | swap.py:27-56 | When both days are at most 27, 30U/360, 30B/360 and 30E/360 equal plain 30/360. |
| DayCount.SameDateIsZero | swap.py:27-79 | Every convention except Actual/Actual gives 0 between a date and itself. |
| DayCount.ActualActualTermSigns | swap.py:58-68 | The `start − 31 Dec` term is never positive. The `end − 1 Jan` term is never negative. |
| DayCount.ActualActualSameDate | swap.py:58-70 | Actual/Actual between a date and itself is 0 if and only if the date is 2 July of a Gregorian common year. |
| DayCount.ActualActualNewYearExample | swap.py:58-70 | 1 January 2021 against itself under Actual/Actual gives −364/365. |
| Schedule.FrequencyMonths | swap.py:137 | A step exists exactly for the four frequency labels, and it is 1, 3, 6 or 12 months. |
| Schedule.PeriodDate | swap.py:138-139 | Period `k` lies `(999 − k) × step` months before maturity's month, with maturity's day-of-month. |
| Schedule.PeriodDates | swap.py:139 | The period range has 1000 entries, the `k`-th being period `k`. |
| Schedule.KeepAfter | swap.py:140 | The filter never grows the list. A date is kept if and only if it is in the list and after the valuation date. |
| Schedule.KeepAfterIsSuffix | swap.py:140 | On an ascending list the filter keeps exactly a suffix. Every date before the suffix is not after valuation; every date in it is. |
| Schedule.Dates | swap.py:136-140 | An unknown frequency fails with the `frequencymapping` key error, and only then. The `strptime` failure happens exactly when some stepped period lacks maturity's day. Otherwise the result is a payment schedule: at most 1000 valid dates on maturity's day, all after valuation, consecutive ones exactly one step apart and ascending. It ends at maturity when maturity is after valuation and is empty otherwise, and the period before its first date is not after valuation. |
| Schedule.EarlyDaySchedules | swap.py:137-140 | A maturity day from 1 to 28 always yields a schedule under a known frequency. |
| Schedule.MonthEndFailsMonthly | swap.py:137-140 | A maturity on the 31st fails under the monthly frequency. |
| Schedule.RollForward | swap.py:144 | The rolled date is a valid weekday. A weekday is unchanged. Saturday or Sunday moves to the following Monday, `7 − weekday` days later. |
| Schedule.BusinessDates | swap.py:142-144 | Schedule errors propagate. Otherwise each date is rolled, is a weekday, lies 0 to 2 days after its payment date, and the rolled dates stay strictly ascending. |
| Schedule.DecimalDates | swap.py:146-147 | Errors propagate. Otherwise there is one time per business date, namely `yeartime(date, valuation, daycount)`. |
| Schedule.ActualTimesIncrease | swap.py:146-147 | Under Actual/365, Actual/360 and Actual/364 every time exists, is positive and is strictly increasing along the schedule. |
| Legs.LegFailure | swap.py:196-203 | A leg fails with the schedule's error if there is one, then on a column whose length differs from the date count, then on an empty schedule. It does not fail exactly when the schedule is non-empty and both supplied columns have one entry per date. |
| Legs.FloatLegFailure | swap.py:174-183 | The floating leg fails with the schedule's error first. On a non-empty schedule with an unknown day-count label it fails on the `None` time that `forwardrates` adds 1 to. With a known label it fails exactly as `LegFailure` says. It does not fail exactly when `LegFailure` does not and the label is known. |
| Legs.Tabulate | swap.py:196-205 | Row `i` carries the `i`-th date, time, rate, payment and discount, and present value = payment × discount. |
| Legs.FixedRows | swap.py:199-205 | Every row but the last has the fixed rate and coupon. The last row has rate 1 + fixed and payment (1 + fixed) × notional. |
| Legs.FixedLeg | swap.py:195-206 | The fixed leg fails exactly as `LegFailure` says. Otherwise its rows are the fixed-leg rows over the business dates and their times. |
| Legs.FloatRows | swap.py:212-218 | Every row but the last has forward + spread and its coupon. The last row's rate gains 1, and its payment is that rate × notional. |
| Legs.FloatLeg | swap.py:208-219 | The floating leg fails exactly as `FloatLegFailure` says, counting the forward-rate column. Otherwise its rows are the floating-leg rows. |
| Legs.FailureOrder | swap.py:221-222 | Whenever the floating leg succeeds the fixed leg does too. A floating leg that fails after a fixed leg succeeded fails on the `None` time when the day-count label is unknown, and on column length otherwise. |
| Legs.DifferenceOfSums | swap.py:222 | If the rows' present values differ by notional × discounted coupon difference, the summed present values differ by notional × `NetCarry`. |
| Legs.NotionalRedemptionCancels | swap.py:203-222 | For any fixed and floating leg over the same dates, the difference of summed present values is notional × Σ discount × (fixed − forward − spread). The redemption rows cancel. |
| Legs.NpvOfLegs | swap.py:221-222 | The same cancellation, stated for one swap's notional, fixed rate and spread. |
| Legs.Npv | swap.py:221-222 | The fixed leg's error comes first, then the floating leg's (including the `None`-time failure of an unknown day-count label). When both legs exist the value is notional × Σ discount × (fixed − forward − spread). |

## Left out

- The Nelson–Siegel–Svensson curve, `discountfactors` and `forwardrates`
  (swap.py:81-106, 162-193) are floating-point `exp` and power numerics.
  The legs take their outputs as input sequences, so the compounding label
  is not part of the modelled swap.
- `nssparameters` (swap.py:158-160) is a call into a nonlinear
  least-squares fitter. `termstructure` (swap.py:149-156) fetches rates
  over the network.
- Plotting (swap.py:224-311), `__repr__` and `__str__` are presentation
  only.
- `strptime` parsing of the two input dates (swap.py:117, 120) is not
  modelled: the swap holds date triples, and `WellFormed` requires them to
  be real dates.
- Floating point: every rate, fraction and amount is an exact real.
  Python's `/` on the integer day counts is exact division here, with no
  rounding.
- Python's `datetime` year range 1..9999 and the pandas period bounds are
  not enforced. Dates of any year follow the proleptic Gregorian calendar.
- Legs.FixedLeg: a `None` year fraction (an unknown day-count label) stays
  `None` in the time column and the leg is built, as in the source, where
  `discountfactors` turns it into NaN without raising. The NaN discount
  factor is part of the input sequence here.
- Legs.FloatLeg, Legs.Npv: an unknown compounding label makes
  `discountfactors` and `forwardrates` raise a key error. The compounding
  label is not part of the modelled swap, so that error is not modelled.
- Legs.FixedLeg, Legs.FloatLeg: the column lengths are compared with the
  business-date count only. In the source every column has that length
  whenever the discount factors and forward rates come from the same
  schedule.
- Schedule.BusinessDates: `pd.bdate_range` knows weekends only, and so
  does the model. No holiday calendar is involved.
