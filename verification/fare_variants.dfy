/** How the two meter rules relate. The threshold rule is the zero-based rule
    applied to the distance beyond 1.5 km, so past that point it charges
    exactly six units (480 yen) less, and it never charges more. */
module FareVariants {
  import opened FareCommon
  import NightFare
  import ThresholdFare

  /** Beyond the base distance, the threshold meter is the zero-based day
      meter of the excess distance. */
  lemma ThresholdIsShiftedZeroBased(km: real)
    requires km > ThresholdFare.BaseDistanceKm
    ensures ThresholdFare.MeterFare(km) == NightFare.DayMeter(km - ThresholdFare.BaseDistanceKm)
  {
  }

  /** Beyond the base distance the zero-based day meter is 480 yen dearer. */
  lemma ZeroBasedCostsSixUnitsMore(km: real)
    requires km > ThresholdFare.BaseDistanceKm
    ensures NightFare.DayMeter(km) == ThresholdFare.MeterFare(km) + 6 * AddFare
  {
  }

  /** For every positive distance the threshold meter is at most the
      zero-based day meter. */
  lemma ThresholdNeverDearer(km: real)
    requires km > 0.0
    ensures ThresholdFare.MeterFare(km) <= NightFare.DayMeter(km)
  {
  }
}
