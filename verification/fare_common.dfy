/** The tariff shared by both fare calculators, and the arithmetic they use.

    Both calculators carry their own copy of the same constants: a base fare
    of 750 yen, 80 yen per started 0.25 km, a welfare-vehicle fee of 1000 yen,
    a body-care fee of 500 yen, and a wheelchair rental of 500 yen (normal)
    or 700 yen (reclining) per night. They are defined here once. */
module FareCommon {
  import opened Wrappers

  const BaseFare: int := 750
  const AddFare: int := 80
  const AddUnitKm: real := 0.25
  const WelfareFee: int := 1000
  const CareFeeAmount: int := 500
  const NormalRate: int := 500
  const RecliningRate: int := 700

  // ---------------------------------------------------------------------------
  // Ceiling on exact reals (the model's stand-in for Math.ceil on doubles)
  // ---------------------------------------------------------------------------

  /** The least integer not below `x`. */
  function Ceil(x: real): (c: int)
    ensures c as real - 1.0 < x <= c as real
  {
    if x.Floor as real == x then x.Floor else x.Floor + 1
  }

  /** The ceiling is determined by its defining inequalities. */
  lemma CeilUnique(x: real, k: int)
    requires k as real - 1.0 < x <= k as real
    ensures Ceil(x) == k
  {
  }

  /** Ceiling never decreases. */
  lemma CeilMonotone(x: real, y: real)
    requires x <= y
    ensures Ceil(x) <= Ceil(y)
  {
  }

  /** Shifting the argument by a whole number shifts the ceiling by it. */
  lemma CeilShift(x: real, k: int)
    ensures Ceil(x + k as real) == Ceil(x) + k
  {
  }

  // ---------------------------------------------------------------------------
  // The `parseFloat(s) || 0` and `parseInt(s) || 0` coercions
  // ---------------------------------------------------------------------------

  /** A parsed number field: `None` stands for NaN (an unparsable field).
      `x || 0` keeps every number except NaN, zero and -0, and maps those
      three to 0, so it is the identity on parsed values and 0 on NaN. */
  function NumberOrZero(parsed: Option<real>): (x: real)
    ensures parsed.None? ==> x == 0.0
    ensures parsed.Some? ==> x == parsed.value
  {
    parsed.GetOr(0.0)
  }

  /** The integer counterpart, for `parseInt(nights) || 0`. */
  function IntOrZero(parsed: Option<int>): (n: int)
    ensures parsed.None? ==> n == 0
    ensures parsed.Some? ==> n == parsed.value
  {
    parsed.GetOr(0)
  }

  // ---------------------------------------------------------------------------
  // Option lines
  // ---------------------------------------------------------------------------

  /** The body-care (attendant) fee. */
  function CareFee(needsCare: bool): (fee: int)
    ensures needsCare <==> fee == CareFeeAmount
    ensures !needsCare <==> fee == 0
  {
    if needsCare then CareFeeAmount else 0
  }

  /** The wheelchair selection. The form keeps it as a string and compares it
      with "normal" and "reclining"; every other string, "none" included,
      rents nothing. */
  datatype WheelchairType = NoChair | Normal | Reclining

  function WheelchairTypeOf(name: string): (t: WheelchairType)
    ensures t == Normal <==> name == "normal"
    ensures t == Reclining <==> name == "reclining"
    ensures t == NoChair <==> name != "normal" && name != "reclining"
  {
    if name == "normal" then Normal
    else if name == "reclining" then Reclining
    else NoChair
  }

  /** Rental price per night of a wheelchair type. */
  function NightlyRate(t: WheelchairType): (rate: int)
    ensures t == NoChair <==> rate == 0
    ensures t == Normal ==> rate == 500
    ensures t == Reclining ==> rate == 700
  {
    match t
    case NoChair => 0
    case Normal => NormalRate
    case Reclining => RecliningRate
  }

  /** The wheelchair rental fee: the nightly rate times the number of nights,
      charged only when at least one night is booked. */
  function WheelchairFee(t: WheelchairType, nights: int): (fee: int)
    ensures fee >= 0
    ensures fee == 0 <==> nights < 1 || t == NoChair
    ensures fee > 0 ==> fee % NightlyRate(t) == 0 && fee / NightlyRate(t) == nights
  {
    if nights >= 1 then NightlyRate(t) * nights else 0
  }

  /** The rental line both calculators compute from the form's strings:
      nothing below one night, then 500 yen per night for "normal", 700 yen
      per night for "reclining", and nothing for any other type. */
  lemma WheelchairFeeByName(name: string, nights: int)
    ensures nights < 1 ==> WheelchairFee(WheelchairTypeOf(name), nights) == 0
    ensures nights >= 1 && name == "normal" ==>
      WheelchairFee(WheelchairTypeOf(name), nights) == 500 * nights
    ensures nights >= 1 && name == "reclining" ==>
      WheelchairFee(WheelchairTypeOf(name), nights) == 700 * nights
    ensures name != "normal" && name != "reclining" ==>
      WheelchairFee(WheelchairTypeOf(name), nights) == 0
  {
  }

  /** A reference rental bill written night by night: no charge before the
      first night, then one nightly rate for each night booked. */
  function RentalNightByNight(t: WheelchairType, nights: int): (fee: int)
    decreases nights
  {
    if nights < 1 then 0 else RentalNightByNight(t, nights - 1) + NightlyRate(t)
  }

  /** The rental fee equals the night-by-night bill for every night count. */
  lemma {:induction false} WheelchairFeeByNight(t: WheelchairType, nights: int)
    ensures WheelchairFee(t, nights) == RentalNightByNight(t, nights)
    decreases nights
  {
    if nights >= 1 {
      WheelchairFeeByNight(t, nights - 1);
    }
  }

  /** Each extra night adds exactly one nightly rate. */
  lemma WheelchairFeePerNight(t: WheelchairType, nights: int)
    requires nights >= 1
    ensures WheelchairFee(t, nights + 1) == WheelchairFee(t, nights) + NightlyRate(t)
  {
  }

  /** Booking more nights never lowers the fee. */
  lemma WheelchairFeeMonotone(t: WheelchairType, n1: int, n2: int)
    requires n1 <= n2
    ensures WheelchairFee(t, n1) <= WheelchairFee(t, n2)
  {
  }
}
