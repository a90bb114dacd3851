/** The threshold calculator (`HakobiteApp`): the first 1.5 km are covered
    by the 750 yen base fare and every started 0.25 km beyond them adds 80
    yen. There is no night surcharge. The distance is the sum of the approach
    leg (garage to pick-up) and the trip leg (pick-up to drop-off). */
module ThresholdFare {
  import opened Wrappers
  import opened FareCommon

  /** Distance covered by the base fare. */
  const BaseDistanceKm: real := 1.5

  /** The arguments of calculateTotalBill. */
  datatype BillRequest = BillRequest(
    totalKm: real,
    includeBodyCare: bool,
    wheelchairType: string,
    nights: Option<int>)

  /** The itemised bill (all amounts in yen); `nights` echoes the coerced
      night count. */
  datatype Bill = Bill(
    meter: int,
    fukushi: int,
    body: int,
    wheelchair: int,
    total: int,
    nights: int)

  /** The form fields the calculation reads. */
  datatype Form = Form(
    approachKm: Option<real>,
    tripKm: Option<real>,
    includeBodyCare: bool,
    wheelchairType: string,
    nights: Option<int>)

  /** calcMeterFare: the base fare up to 1.5 km; beyond that, the base fare
      plus 80 yen for each started 0.25 km of the excess, the unit count
      being the least one whose units cover the excess. */
  function MeterFare(km: real): (r: int)
    ensures km <= BaseDistanceKm ==> r == BaseFare
    ensures km > BaseDistanceKm ==>
      && r > BaseFare
      && (r - BaseFare) % AddFare == 0
      && var k := (r - BaseFare) / AddFare;
         && k >= 1
         && (k - 1) as real * AddUnitKm < km - BaseDistanceKm <= k as real * AddUnitKm
  {
    if km <= BaseDistanceKm then BaseFare
    else
      var excessDistance := km - BaseDistanceKm;
      var additionalUnits := Ceil(excessDistance / AddUnitKm);
      BaseFare + additionalUnits * AddFare
  }

  /** The meter fare never decreases as the distance grows, and never falls
      below the base fare. */
  lemma MeterFareMonotone(km1: real, km2: real)
    requires km1 <= km2
    ensures BaseFare <= MeterFare(km1) <= MeterFare(km2)
  {
  }

  /** A reference meter that ticks the way a taxi meter does: the base fare
      covers the first 1.5 km, and each time a new 0.25 km starts after that
      it adds 80 yen. */
  function TickingMeter(km: real): (m: int)
    decreases Ceil((km - BaseDistanceKm) / AddUnitKm)
  {
    if km <= BaseDistanceKm then BaseFare
    else
      CeilShift((km - AddUnitKm - BaseDistanceKm) / AddUnitKm, 1);
      TickingMeter(km - AddUnitKm) + AddFare
  }

  /** calcMeterFare agrees with the ticking meter at every distance. */
  lemma {:induction false} MeterFareTicks(km: real)
    ensures MeterFare(km) == TickingMeter(km)
    decreases Ceil((km - BaseDistanceKm) / AddUnitKm)
  {
    if km > BaseDistanceKm {
      var prev := km - AddUnitKm;
      CeilShift((prev - BaseDistanceKm) / AddUnitKm, 1);
      if prev > BaseDistanceKm {
        MeterFareTicks(prev);
      } else {
        CeilUnique((km - BaseDistanceKm) / AddUnitKm, 1);
      }
    }
  }

  /** calculateTotalBill. It has no guard of its own: the caller checks the
      distance. */
  function CalculateTotalBill(req: BillRequest): (b: Bill)
    ensures b.meter == MeterFare(req.totalKm)
    ensures b.meter >= BaseFare
    ensures b.fukushi == WelfareFee
    ensures b.body == CareFeeAmount <==> req.includeBodyCare
    ensures b.body == 0 <==> !req.includeBodyCare
    ensures b.nights == IntOrZero(req.nights)
    ensures b.wheelchair == WheelchairFee(WheelchairTypeOf(req.wheelchairType), b.nights)
    ensures b.total == b.meter + b.fukushi + b.body + b.wheelchair
  {
    var meter := MeterFare(req.totalKm);
    var bodyCareFee := CareFee(req.includeBodyCare);
    var stayNights := IntOrZero(req.nights);
    var wheelchairFee := WheelchairFee(WheelchairTypeOf(req.wheelchairType), stayNights);
    Bill(meter, WelfareFee, bodyCareFee, wheelchairFee,
         meter + WelfareFee + bodyCareFee + wheelchairFee, stayNights)
  }

  /** The wheelchair line: nothing unless at least one night is booked, then
      500 or 700 yen per night for "normal" or "reclining", and nothing for
      any other type. */
  lemma WheelchairLine(req: BillRequest)
    ensures var b := CalculateTotalBill(req);
      && (b.nights < 1 ==> b.wheelchair == 0)
      && (b.nights >= 1 && req.wheelchairType == "normal" ==> b.wheelchair == NormalRate * b.nights)
      && (b.nights >= 1 && req.wheelchairType == "reclining" ==> b.wheelchair == RecliningRate * b.nights)
      && (req.wheelchairType != "normal" && req.wheelchairType != "reclining" ==> b.wheelchair == 0)
  {
  }

  /** The distance the form shows and bills: both legs, each unparsable leg
      counting as 0. */
  function CurrentTotalKm(form: Form): (km: real)
    ensures form.approachKm.None? && form.tripKm.None? ==> km == 0.0
    ensures form.approachKm.None? && form.tripKm.Some? ==> km == form.tripKm.value
    ensures form.approachKm.Some? && form.tripKm.None? ==> km == form.approachKm.value
    ensures form.approachKm.Some? && form.tripKm.Some? ==>
      km == form.approachKm.value + form.tripKm.value
  {
    NumberOrZero(form.approachKm) + NumberOrZero(form.tripKm)
  }

  /** handleCalculate: alerts and yields nothing unless the summed distance
      is positive, otherwise bills it. */
  function HandleCalculate(form: Form): (r: Option<Bill>)
    ensures r.None? <==> CurrentTotalKm(form) <= 0.0
    ensures r.Some? ==> r.value == CalculateTotalBill(BillRequest(
      CurrentTotalKm(form), form.includeBodyCare, form.wheelchairType, form.nights))
  {
    var totalKm := CurrentTotalKm(form);
    if totalKm <= 0.0 then None
    else Some(CalculateTotalBill(BillRequest(totalKm, form.includeBodyCare, form.wheelchairType, form.nights)))
  }

  /** 1.0 km is inside the base distance: the meter is exactly 750 yen. */
  lemma WorkedWithinBaseDistance()
    ensures MeterFare(1.0) == 750
  {
  }

  /** 2.0 km is 0.5 km over the base distance: two units, 910 yen. */
  lemma WorkedTwoUnits()
    ensures MeterFare(2.0) == 910
  {
  }
}
