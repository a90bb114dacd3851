# Hakobite fare calculators in Dafny

A model of the two fare calculators of the Hakobite welfare-taxi estimate
forms. Each turns a trip distance and a few option toggles into an itemised
price in yen: the meter fare, the fixed welfare-vehicle fee (福祉車両基本料,
1000 yen), the body-care fee (身体介護料, 500 yen) and the wheelchair-rental
fee (500 or 700 yen per night), plus their total.

The two calculators differ in how they meter distance:

- `src/App.jsx` (`TaxiFareCalculator`, module `NightFare`): zero-based
  metering, 750 yen plus 80 yen for every started 0.25 km from the first
  metre, and an optional night surcharge that raises the meter by 20% and
  rounds it up to a multiple of 10 yen. The fare logic lives inside the
  component's `calculate` handler; the model lifts it into the pure function
  `NightFare.Calculate`, whose `None` result is the alert branch.
- `App.js` (`HakobiteApp`, module `ThresholdFare`): threshold metering, a
  flat 750 yen up to 1.5 km and 80 yen for every started 0.25 km beyond. The
  distance is the approach leg plus the trip leg, and the handler bills only
  when that sum is positive.

Module layout:

- `wrappers.dfy` — `Option`, the "no result" outcome and the unparsable number.
- `fare_common.dfy` — the shared tariff (both source files carry the
  same values in their own configuration objects), ceiling on exact reals, the `x || 0` coercions, the
  body-care and wheelchair lines.
- `night_fare.dfy` — the zero-based calculator of `src/App.jsx`.
- `threshold_fare.dfy` — the threshold calculator of `App.js`.
- `fare_variants.dfy` — how the two meter rules relate.

Distances are exact `real`s and amounts unbounded `int`s. `Math.ceil` is
`FareCommon.Ceil`, characterised by `c - 1 < x <= c`. The night surcharge
`ceil(m * 1.2 / 10) * 10` is computed on integers as `ceil(12 m / 100) * 10`,
and `NightFare.NightSurchargeMatchesRealFormula` proves this equal to the
real-number formula. A field that `parseFloat`/`parseInt` cannot read (NaN)
is `None`; `x || 0` turns it into 0.

## Model

| member | source | states |
|---|---|---|
| FareCommon.Ceil | src/App.jsx:20 | The result is the least integer not below its argument: `c - 1 < x <= c`. |
| FareCommon.NumberOrZero | src/App.jsx:18 | `parseFloat(s) \|\| 0`: an unparsable distance becomes 0, a parsed one is kept. |
| FareCommon.IntOrZero | src/App.jsx:24 | `parseInt(s) \|\| 0`: an unparsable night count becomes 0, a parsed one is kept. |
| FareCommon.CareFee | src/App.jsx:23 | The care fee is 500 exactly when care is requested and 0 exactly when it is not. |
| FareCommon.WheelchairTypeOf | src/App.jsx:27-28 | Only the strings "normal" and "reclining" select a wheelchair; every other string, "none" included, selects none. |
| FareCommon.NightlyRate | src/App.jsx:6 | The nightly rate is 500 for a normal wheelchair, 700 for a reclining one, and zero exactly for "no wheelchair". |
| FareCommon.WheelchairFee | src/App.jsx:24-29 | The fee is never negative, is 0 exactly when fewer than one night is booked or no wheelchair is chosen, and otherwise divides into exactly `nights` nightly rates. |
| FareCommon.WheelchairFeeByName | src/App.jsx:24-29 | From the form's strings: no rental below one night, then 500 per night for "normal", 700 per night for "reclining", and 0 for any other type. |
| FareCommon.WheelchairFeeByNight | src/App.jsx:24-29 | The rental fee equals a bill that charges nothing before the first night and one nightly rate for each night booked, for every night count including zero and negative ones. |
| FareCommon.WheelchairFeePerNight | src/App.jsx:27-28 | From one night on, each extra night adds exactly one nightly rate. |
| FareCommon.WheelchairFeeMonotone | src/App.jsx:26-29 | Booking more nights never lowers the wheelchair fee. |
| NightFare.Units | src/App.jsx:20 | The unit count is the least number of 0.25 km units covering the distance, so at least 1 for any positive distance. |
| NightFare.DayMeter | src/App.jsx:20-21 | The day meter is 750 plus a multiple of 80 whose unit count is the least covering the distance, so at least 830 for any positive distance. |
| NightFare.NightSurcharge | src/App.jsx:22 | The night meter is the least multiple of 10 that is at least 1.2 times the day meter: a multiple of 10, `>= 1.2 m` and `< 1.2 m + 10`. |
| NightFare.NightSurchargeMatchesRealFormula | src/App.jsx:22 | The integer surcharge equals `ceil(m * 1.2 / 10) * 10` evaluated exactly on reals. |
| NightFare.NightSurchargeMonotone | src/App.jsx:22 | A larger pre-surcharge meter never yields a smaller night meter. |
| NightFare.DayMeterTicks | src/App.jsx:20-21 | For every positive distance the day meter equals a meter that starts at 750 and adds 80 each time a new 0.25 km starts. |
| NightFare.Meter | src/App.jsx:20-22 | Without the night flag the meter is the day meter; with it, a multiple of 10 between 1.2 times the day meter and that plus 10. |
| NightFare.MeterMonotone | src/App.jsx:20-22 | With the night flag fixed, a longer distance never gives a smaller meter. |
| NightFare.Calculate | src/App.jsx:17-31 | No result exactly when the coerced distance is not positive; otherwise the breakdown echoes the coerced distance and nights, its meter is at least 830, the welfare fee is 1000, the care and wheelchair lines follow the flags, and the total is the sum of the four lines. |
| NightFare.NightNeverCheaper | src/App.jsx:22 | For a positive distance the night meter is at least the day meter, which is at least 830, and the night meter is at least 1000. |
| NightFare.TotalBounds | src/App.jsx:30 | Every accepted total is at least 750 + 80 + 1000 and at least the meter plus the welfare fee. |
| NightFare.UnparsableDistanceRejected | src/App.jsx:18-19 | An unparsable distance is rejected. |
| NightFare.NightSurchargeOfOneUnit | src/App.jsx:22 | A day meter of 830 becomes 1000 at night. |
| NightFare.WorkedNightWithCare | src/App.jsx:20-30 | 2.0 km, night, care, no wheelchair: meter 1670, total 3170. |
| NightFare.WorkedDayWithWheelchair | src/App.jsx:20-30 | 4.5 km, day, normal wheelchair for 2 nights: meter 2190, rental 1000, total 4190. |
| ThresholdFare.MeterFare | App.js:15-20 | Up to 1.5 km the fare is exactly 750; beyond, it is 750 + 80k with k at least 1 and the least unit count covering the excess over 1.5 km. |
| ThresholdFare.MeterFareTicks | App.js:15-20 | At every distance the meter fare equals a meter that shows 750 for the first 1.5 km and adds 80 each time a new 0.25 km starts after that. |
| ThresholdFare.MeterFareMonotone | App.js:15-20 | The meter fare is never below 750 and never decreases as the distance grows. |
| ThresholdFare.CalculateTotalBill | App.js:22-39 | The bill's meter is the meter fare, the welfare fee is 1000, the body-care line follows the flag, the returned nights are the coerced count, the wheelchair line follows type and nights, and the total is the sum of the four lines. |
| ThresholdFare.WheelchairLine | App.js:25-30 | No rental unless at least one night; then 500 per night for "normal", 700 for "reclining" and 0 for any other type. |
| ThresholdFare.CurrentTotalKm | App.js:44 | The billed distance is approach plus trip when both legs parse, the one parsed leg when the other does not, and 0 when neither does. |
| ThresholdFare.HandleCalculate | App.js:46-49 | No bill exactly when the summed distance is not positive; otherwise the bill of that distance and the form's options. |
| ThresholdFare.WorkedWithinBaseDistance | App.js:16 | 1.0 km costs exactly the base fare, 750. |
| ThresholdFare.WorkedTwoUnits | App.js:17-19 | 2.0 km is two started units over the base distance: 910. |
| FareVariants.ThresholdIsShiftedZeroBased | App.js:17-19 | Beyond 1.5 km the threshold meter is the zero-based day meter of the excess distance. |
| FareVariants.ZeroBasedCostsSixUnitsMore | src/App.jsx:20-21 | Beyond 1.5 km the zero-based day meter is exactly 480 yen (six units) above the threshold meter. |
| FareVariants.ThresholdNeverDearer | App.js:16-19 | For every positive distance the threshold meter is at most the zero-based day meter. |

## Left out

- React state, JSX rendering, styles and the toggle and button widgets: presentation with no logic. The `result` state is the returned value.
- The `alert` calls: modelled only as the `None` outcome.
- The string semantics of `parseFloat` and `parseInt`: inputs arrive as already parsed numbers, `None` standing for NaN.
- IEEE-754 doubles: the decimal-to-double parsing of the distance fields, the sum `approachKm + tripKm` in `App.js`, `km - 1.5` and `meter * 1.2` are evaluated exactly on reals and integers (dividing by 0.25 is exact in doubles too). Where a double rounding error would push a value just past an integer, `Math.ceil` in the source could give one unit (80 yen) or 10 yen more than the model.
- Integer width: amounts are unbounded integers. The source's amounts are doubles, which hold integers exactly only up to 2^53; the model agrees with the source only for distances up to about 10^13 km. Beyond that (a trip field of `1e14`, say) the source's meter is rounded to a nearby double and differs from the model's exact amount.
- The origin and destination fields of `App.js`: collected but never used in any calculation.
- `App.js` renders no control for body care, wheelchair type or nights, so in that form they stay at `false`, `"none"` and `"0"`; the model still takes them as inputs, as `calculateTotalBill` does.
- The other two calculator variants of the repository (among them the one that estimates distance with an external text-generation service and bills the wheelchair per trip) are not part of this model.
