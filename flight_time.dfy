/**
 * Flight seconds per leg: the injected estimator when there is one, otherwise
 * great-circle distance over the category's average speed.
 */
module FlightTime {
  import opened Wrappers
  import opened QuoteRequest
  import opened QuoteResult
  import opened Utils

  /** `categoryAvgSpeedKnots`: the average speed of each aircraft category, 430 kt by default. */
  function CategoryAvgSpeedKnots(category: string): (knots: real)
    ensures category == "CAT1" ==> knots == 160.0
    ensures category == "CAT2" ==> knots == 260.0
    ensures category == "CAT3" ==> knots == 330.0
    ensures category == "CAT4" ==> knots == 380.0
    ensures category == "CAT5" ==> knots == 410.0
    ensures category == "CAT6" ==> knots == 430.0
    ensures category == "CAT7" ==> knots == 450.0
    ensures category == "CAT8" ==> knots == 470.0
    ensures category !in {"CAT1", "CAT2", "CAT3", "CAT4", "CAT5", "CAT6", "CAT7", "CAT8"} ==> knots == 430.0
    ensures knots > 0.0
  {
    match category
    case "CAT1" => 160.0
    case "CAT2" => 260.0
    case "CAT3" => 330.0
    case "CAT4" => 380.0
    case "CAT5" => 410.0
    case "CAT6" => 430.0
    case "CAT7" => 450.0
    case "CAT8" => 470.0
    case _ => 430.0
  }

  /** What the estimator is given: each leg's endpoints and kind. */
  function LegRequests(legs: seq<Leg>): (rs: seq<LegRequest>)
    ensures |rs| == |legs|
    ensures forall i :: 0 <= i < |legs| ==> rs[i] == LegRequest(legs[i].from, legs[i].to, legs[i].kind)
  {
    seq(|legs|, i requires 0 <= i < |legs| => LegRequest(legs[i].from, legs[i].to, legs[i].kind))
  }

  /** Great-circle length of a leg in nautical miles. */
  function LegDistance(hav: Haversine, l: Leg): real {
    hav(l.from.lat, l.from.lon, l.to.lat, l.to.lon)
  }

  /** The fallback estimate for one leg: `max(0, round(distance / speed * 3600))` seconds. */
  function FallbackSeconds(hav: Haversine, l: Leg, speed: real): real
    requires speed > 0.0
  {
    Max(0.0, Round(LegDistance(hav, l) / speed * 3600.0) as real)
  }

  /**
   * `calcFlightSeconds`: the estimator's answer unchanged when one is supplied
   * (`None` when it fails; the failure is not caught), otherwise one fallback
   * estimate per leg, in leg order.
   */
  function CalcFlightSeconds(hav: Haversine, legs: seq<Leg>, category: string, external: Option<Estimator>): (r: Option<seq<real>>)
    ensures external.Some? ==> r == external.value(LegRequests(legs), category)
    ensures r.Some? ==> |r.value| == |legs|
    ensures external.None? ==> r.Some?
    ensures external.None? ==> forall i :: 0 <= i < |legs| ==>
      r.value[i] >= 0.0 &&
      r.value[i] == Max(0.0, Round(LegDistance(hav, legs[i]) / CategoryAvgSpeedKnots(category) * 3600.0) as real)
  {
    if external.Some? then external.value(LegRequests(legs), category)
    else
      var speed := CategoryAvgSpeedKnots(category);
      Some(seq(|legs|, i requires 0 <= i < |legs| => FallbackSeconds(hav, legs[i], speed)))
  }
}
