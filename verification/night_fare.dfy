/** The zero-based calculator with a night surcharge (the `calculate` handler
    of `TaxiFareCalculator`), lifted out of the component into a pure
    function. Metering starts at the first metre: every started 0.25 km adds
    80 yen to the 750 yen base fare, and at night the meter is raised by 20%
    and rounded up to a multiple of 10 yen. */
module NightFare {
  import opened Wrappers
  import opened FareCommon

  /** The form state the handler reads. Number fields arrive already parsed;
      `None` is an unparsable entry. */
  datatype Request = Request(
    tripKm: Option<real>,
    isNight: bool,
    needsCare: bool,
    wheelchairType: string,
    nights: Option<int>)

  /** The itemised result shown under the button (all amounts in yen);
      `dist` and `n` echo the coerced inputs. */
  datatype Breakdown = Breakdown(
    meter: int,
    fukushi: int,
    body: int,
    wc: int,
    total: int,
    dist: real,
    n: int)

  /** Number of started 0.25 km units in `dist`. */
  function Units(dist: real): (u: int)
    ensures (u - 1) as real * AddUnitKm < dist <= u as real * AddUnitKm
    ensures dist > 0.0 ==> u >= 1
  {
    Ceil(dist / AddUnitKm)
  }

  /** The meter before any night surcharge. */
  function DayMeter(dist: real): (m: int)
    ensures (m - BaseFare) % AddFare == 0
    ensures var u := (m - BaseFare) / AddFare;
            (u - 1) as real * AddUnitKm < dist <= u as real * AddUnitKm
    ensures dist > 0.0 ==> m >= BaseFare + AddFare
  {
    BaseFare + Units(dist) * AddFare
  }

  /** The night surcharge: 20% more, rounded up to a multiple of 10 yen.
      The source writes `ceil(m * 1.2 / 10) * 10`; on integers that is
      `ceil(12 m / 100) * 10`. The three ensures pin the result down as the
      least multiple of 10 that is at least 1.2 m. */
  function NightSurcharge(m: int): (r: int)
    ensures r % 10 == 0
    ensures 10 * r >= 12 * m
    ensures 10 * r < 12 * m + 100
  {
    var q := (12 * m + 99) / 100;
    assert 100 * q <= 12 * m + 99 < 100 * q + 100;
    q * 10
  }

  /** The integer surcharge is the real-number formula of the source,
      evaluated exactly. */
  lemma NightSurchargeMatchesRealFormula(m: int)
    ensures NightSurcharge(m) == Ceil(m as real * 1.2 / 10.0) * 10
  {
  }

  /** A larger pre-surcharge meter never gives a smaller night meter. */
  lemma NightSurchargeMonotone(a: int, b: int)
    requires a <= b
    ensures NightSurcharge(a) <= NightSurcharge(b)
  {
  }

  /** The meter, with the night flag applied. */
  function Meter(dist: real, isNight: bool): (m: int)
    ensures !isNight ==> m == DayMeter(dist)
    ensures isNight ==> m % 10 == 0
    ensures isNight ==> 10 * m >= 12 * DayMeter(dist)
    ensures isNight ==> 10 * m < 12 * DayMeter(dist) + 100
  {
    var day := DayMeter(dist);
    if isNight then NightSurcharge(day) else day
  }

  /** Driving further never makes the meter cheaper, day or night. */
  lemma MeterMonotone(d1: real, d2: real, isNight: bool)
    requires d1 <= d2
    ensures Meter(d1, isNight) <= Meter(d2, isNight)
  {
  }

  /** A reference meter that ticks the way a taxi meter does: it shows the
      base fare at the start, and each time a new 0.25 km starts it adds 80
      yen. Counting backwards, the meter at `dist` is the meter one unit
      earlier plus one tick. */
  function TickingMeter(dist: real): (m: int)
    decreases Ceil(dist / AddUnitKm)
  {
    if dist <= 0.0 then BaseFare
    else
      CeilShift((dist - AddUnitKm) / AddUnitKm, 1);
      TickingMeter(dist - AddUnitKm) + AddFare
  }

  /** For every positive distance the closed-form day meter agrees with the
      ticking meter. */
  lemma {:induction false} DayMeterTicks(dist: real)
    requires dist > 0.0
    ensures DayMeter(dist) == TickingMeter(dist)
    decreases Ceil(dist / AddUnitKm)
  {
    var prev := dist - AddUnitKm;
    CeilShift(prev / AddUnitKm, 1);
    assert Units(dist) == Units(prev) + 1;
    if prev > 0.0 {
      DayMeterTicks(prev);
    } else {
      CeilUnique(dist / AddUnitKm, 1);
    }
  }

  /** The calculate handler. A trip distance that is unparsable, zero or
      negative raises the alert and yields no result. */
  function Calculate(req: Request): (r: Option<Breakdown>)
    ensures r.None? <==> NumberOrZero(req.tripKm) <= 0.0
    ensures r.Some? ==>
      var b := r.value;
      && b.dist == NumberOrZero(req.tripKm)
      && b.n == IntOrZero(req.nights)
      && b.meter == Meter(b.dist, req.isNight)
      && b.meter >= BaseFare + AddFare
      && b.fukushi == WelfareFee
      && (b.body == CareFeeAmount <==> req.needsCare)
      && (b.body == 0 <==> !req.needsCare)
      && b.wc == WheelchairFee(WheelchairTypeOf(req.wheelchairType), b.n)
      && b.total == b.meter + b.fukushi + b.body + b.wc
  {
    var dist := NumberOrZero(req.tripKm);
    if dist <= 0.0 then None
    else
      var meter := Meter(dist, req.isNight);
      var body := CareFee(req.needsCare);
      var n := IntOrZero(req.nights);
      var wc := WheelchairFee(WheelchairTypeOf(req.wheelchairType), n);
      Some(Breakdown(meter, WelfareFee, body, wc, meter + WelfareFee + body + wc, dist, n))
  }

  /** The night meter is at least the day meter, and at night at least 1000
      yen for any positive distance. */
  lemma NightNeverCheaper(dist: real)
    requires dist > 0.0
    ensures Meter(dist, true) >= Meter(dist, false) >= BaseFare + AddFare
    ensures Meter(dist, true) >= 1000
  {
  }

  /** The total is never below the base fare plus the welfare fee plus one
      unit, and each optional line only adds to it. */
  lemma TotalBounds(req: Request)
    requires Calculate(req).Some?
    ensures Calculate(req).value.total >= BaseFare + AddFare + WelfareFee
    ensures Calculate(req).value.total >= Calculate(req).value.meter + WelfareFee
  {
  }

  /** An unparsable trip distance is coerced to 0 and rejected. */
  lemma UnparsableDistanceRejected(req: Request)
    requires req.tripKm.None?
    ensures Calculate(req).None?
  {
  }

  /** 830 yen (one unit) rises to 1000 yen at night. */
  lemma NightSurchargeOfOneUnit()
    ensures NightSurcharge(830) == 1000
  {
  }

  /** 2.0 km at night with body care and no wheelchair: 8 units, a day meter
      of 1390 yen raised to 1670 yen, and a total of 3170 yen. */
  lemma WorkedNightWithCare()
    ensures Calculate(Request(Some(2.0), true, true, "none", Some(0)))
         == Some(Breakdown(1670, 1000, 500, 0, 3170, 2.0, 0))
  {
  }

  /** 4.5 km by day with a normal wheelchair for two nights: 18 units, a meter
      of 2190 yen, a 1000 yen rental and a total of 4190 yen. */
  lemma WorkedDayWithWheelchair()
    ensures Calculate(Request(Some(4.5), false, false, "normal", Some(2)))
         == Some(Breakdown(2190, 1000, 0, 1000, 4190, 4.5, 2))
  {
  }
}
