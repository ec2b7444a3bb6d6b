/**
 * The flight-time service's offline part: the great-circle fallback result
 * per aircraft model, and the step that gives every requested model a
 * result, filling in the ones the external calculator did not return.
 * The HTTP request and the parsing of its response are not modelled; the
 * parsed response is an input.
 */
module FlightTimeService {
  import opened Wrappers
  import opened QuoteRequest
  import opened Utils

  /** Taxi time added to every leg when `addTaxiTime` is set. */
  const DefaultTaxiSeconds := 600

  datatype FlightLegInput = FlightLegInput(
    originIcao: string,
    destinationIcao: string,
    departDate: string,
    departTime: Option<string>,
    originLat: real,
    originLon: real,
    destinationLat: real,
    destinationLon: real)

  datatype DurationDetail = DurationDetail(
    originIcao: string,
    destinationIcao: string,
    departDate: string,
    departTime: Option<string>,
    durationSec: int)

  datatype CalculatedFlightTime = CalculatedFlightTime(duration: int, durationDetails: seq<DurationDetail>)

  datatype AircraftModel = AircraftModel(modelId: string, avgSpeedKnots: real)

  /* ------------------------------ Fallback result ------------------------------ */

  /** Flight hours of a leg at the model's average speed; zero when the speed is not positive. */
  function LegHours(hav: Haversine, avgSpeedKnots: real, leg: FlightLegInput): real {
    if avgSpeedKnots > 0.0
    then hav(leg.originLat, leg.originLon, leg.destinationLat, leg.destinationLon) / avgSpeedKnots
    else 0.0
  }

  /**
   * Seconds of a leg: rounded flight seconds plus the taxi allowance, clamped
   * at zero. The clamp never binds when the distance is not negative.
   */
  function LegSeconds(hav: Haversine, avgSpeedKnots: real, leg: FlightLegInput, addTaxiTime: bool): (s: int)
    ensures s >= 0
    ensures s >= Round(LegHours(hav, avgSpeedKnots, leg) * 3600.0) + (if addTaxiTime then DefaultTaxiSeconds else 0)
    ensures s == 0 || s == Round(LegHours(hav, avgSpeedKnots, leg) * 3600.0) + (if addTaxiTime then DefaultTaxiSeconds else 0)
    ensures hav(leg.originLat, leg.originLon, leg.destinationLat, leg.destinationLon) >= 0.0 ==>
      s == Round(LegHours(hav, avgSpeedKnots, leg) * 3600.0) + (if addTaxiTime then DefaultTaxiSeconds else 0)
  {
    var raw := Round(LegHours(hav, avgSpeedKnots, leg) * 3600.0) + (if addTaxiTime then DefaultTaxiSeconds else 0);
    if raw >= 0 then raw else 0
  }

  /** The per-leg details of the fallback: one per input leg, in order. */
  function FallbackDetails(hav: Haversine, avgSpeedKnots: real, legs: seq<FlightLegInput>, addTaxiTime: bool)
    : (details: seq<DurationDetail>)
    ensures |details| == |legs|
    ensures forall i :: 0 <= i < |legs| ==>
      details[i] == DurationDetail(legs[i].originIcao, legs[i].destinationIcao, legs[i].departDate,
        legs[i].departTime, LegSeconds(hav, avgSpeedKnots, legs[i], addTaxiTime))
  {
    seq(|legs|, i requires 0 <= i < |legs| =>
      DurationDetail(legs[i].originIcao, legs[i].destinationIcao, legs[i].departDate,
        legs[i].departTime, LegSeconds(hav, avgSpeedKnots, legs[i], addTaxiTime)))
  }

  /** `durationDetails.reduce((sum, leg) => sum + leg.durationSec, 0)`. */
  function SumDurations(details: seq<DurationDetail>): int {
    if |details| == 0 then 0 else SumDurations(details[..|details| - 1]) + details[|details| - 1].durationSec
  }

  /** `buildFallbackResult`: the details and their total. */
  function BuildFallbackResult(hav: Haversine, model: AircraftModel, legs: seq<FlightLegInput>, addTaxiTime: bool)
    : CalculatedFlightTime
  {
    var details := FallbackDetails(hav, model.avgSpeedKnots, legs, addTaxiTime);
    CalculatedFlightTime(SumDurations(details), details)
  }

  /** A sum of non-negative durations is at least the count times their common lower bound. */
  lemma {:induction false} SumDurationsAtLeast(details: seq<DurationDetail>, lo: int)
    requires forall i :: 0 <= i < |details| ==> details[i].durationSec >= lo
    ensures SumDurations(details) >= |details| * lo
    decreases |details|
  {
    if |details| > 0 {
      var front := details[..|details| - 1];
      assert forall i :: 0 <= i < |front| ==> front[i] == details[i];
      SumDurationsAtLeast(front, lo);
    }
  }

  /**
   * The fallback total is the sum of its legs' seconds, is never negative,
   * and with taxi time and a non-negative distance it is at least 600 s per leg.
   */
  lemma FallbackTotals(hav: Haversine, model: AircraftModel, legs: seq<FlightLegInput>, addTaxiTime: bool)
    ensures var r := BuildFallbackResult(hav, model, legs, addTaxiTime);
      r.duration == SumDurations(r.durationDetails) && r.duration >= 0 &&
      ((addTaxiTime && (forall i :: 0 <= i < |legs| ==>
          hav(legs[i].originLat, legs[i].originLon, legs[i].destinationLat, legs[i].destinationLon) >= 0.0))
       ==> r.duration >= DefaultTaxiSeconds * |legs|)
  {
    var details := FallbackDetails(hav, model.avgSpeedKnots, legs, addTaxiTime);
    SumDurationsAtLeast(details, 0);
    if addTaxiTime && (forall i :: 0 <= i < |legs| ==>
        hav(legs[i].originLat, legs[i].originLon, legs[i].destinationLat, legs[i].destinationLon) >= 0.0) {
      forall i | 0 <= i < |details| ensures details[i].durationSec >= DefaultTaxiSeconds {
        TaxiIsFloor(hav, model.avgSpeedKnots, legs[i]);
      }
      SumDurationsAtLeast(details, DefaultTaxiSeconds);
    }
  }

  /** With taxi time, a leg of non-negative distance takes at least the taxi allowance. */
  lemma TaxiIsFloor(hav: Haversine, avgSpeedKnots: real, leg: FlightLegInput)
    requires hav(leg.originLat, leg.originLon, leg.destinationLat, leg.destinationLon) >= 0.0
    ensures LegSeconds(hav, avgSpeedKnots, leg, true) >= DefaultTaxiSeconds
  {
    var h := LegHours(hav, avgSpeedKnots, leg);
    assert h >= 0.0;
    assert Round(h * 3600.0) >= 0;
  }

  /** With a non-positive speed a leg costs only the taxi allowance, whatever its length. */
  lemma NoSpeedMeansTaxiOnly(hav: Haversine, model: AircraftModel, leg: FlightLegInput, addTaxiTime: bool)
    requires model.avgSpeedKnots <= 0.0
    ensures LegSeconds(hav, model.avgSpeedKnots, leg, addTaxiTime) == if addTaxiTime then DefaultTaxiSeconds else 0
  {
    RoundOfInteger(0);
  }

  /* ------------------------------ Results per model ------------------------------ */

  function ModelIds(models: seq<AircraftModel>): (ids: set<string>)
    ensures forall i :: 0 <= i < |models| ==> models[i].modelId in ids
    ensures forall id :: id in ids ==> exists i :: 0 <= i < |models| && models[i].modelId == id
  {
    set i | 0 <= i < |models| :: models[i].modelId
  }

  /**
   * The fill-in step: every model absent from `mapped` gets its fallback
   * result; the first model with a given id decides, since later ones find
   * the entry already present.
   */
  function Filled(hav: Haversine, mapped: map<string, CalculatedFlightTime>, models: seq<AircraftModel>,
                  legs: seq<FlightLegInput>, addTaxiTime: bool): map<string, CalculatedFlightTime>
  {
    if |models| == 0 then mapped
    else
      var before := Filled(hav, mapped, models[..|models| - 1], legs, addTaxiTime);
      var m := models[|models| - 1];
      if m.modelId in before then before
      else before[m.modelId := BuildFallbackResult(hav, m, legs, addTaxiTime)]
  }

  /** The loop of `calculateFlightTimeForModels` that adds the missing models. */
  method FillMissingModels(hav: Haversine, mapped: map<string, CalculatedFlightTime>, models: seq<AircraftModel>,
                           legs: seq<FlightLegInput>, addTaxiTime: bool) returns (r: map<string, CalculatedFlightTime>)
    ensures r == Filled(hav, mapped, models, legs, addTaxiTime)
  {
    r := mapped;
    for k := 0 to |models|
      invariant r == Filled(hav, mapped, models[..k], legs, addTaxiTime)
    {
      assert models[..k + 1][..k] == models[..k];
      var model := models[k];
      if model.modelId !in r {
        r := r[model.modelId := BuildFallbackResult(hav, model, legs, addTaxiTime)];
      }
    }
    assert models[..|models|] == models;
  }

  /** The first model carrying the id at position `i`. */
  predicate FirstWithId(models: seq<AircraftModel>, i: nat)
    requires i < |models|
  {
    forall j :: 0 <= j < i ==> models[j].modelId != models[i].modelId
  }

  lemma ModelIdsSnoc(models: seq<AircraftModel>)
    requires |models| > 0
    ensures ModelIds(models) == ModelIds(models[..|models| - 1]) + {models[|models| - 1].modelId}
  {
    var front := models[..|models| - 1];
    forall id | id in ModelIds(models) ensures id in ModelIds(front) + {models[|models| - 1].modelId} {
      var i :| 0 <= i < |models| && models[i].modelId == id;
      if i < |front| {
        assert front[i] == models[i];
      }
    }
  }

  /** After the fill-in every requested model has a result, and nothing else is added. */
  lemma {:induction false} FilledKeys(hav: Haversine, mapped: map<string, CalculatedFlightTime>,
                                      models: seq<AircraftModel>, legs: seq<FlightLegInput>, addTaxiTime: bool)
    ensures Filled(hav, mapped, models, legs, addTaxiTime).Keys == mapped.Keys + ModelIds(models)
    decreases |models|
  {
    if |models| > 0 {
      FilledKeys(hav, mapped, models[..|models| - 1], legs, addTaxiTime);
      ModelIdsSnoc(models);
    }
  }

  /** Results already in the response are kept as they are. */
  lemma {:induction false} FilledKeepsResponse(hav: Haversine, mapped: map<string, CalculatedFlightTime>,
                                               models: seq<AircraftModel>, legs: seq<FlightLegInput>, addTaxiTime: bool)
    ensures forall id :: id in mapped ==>
      id in Filled(hav, mapped, models, legs, addTaxiTime) && Filled(hav, mapped, models, legs, addTaxiTime)[id] == mapped[id]
    decreases |models|
  {
    if |models| > 0 {
      FilledKeepsResponse(hav, mapped, models[..|models| - 1], legs, addTaxiTime);
    }
  }

  /** A model missing from the response gets the fallback computed for its first occurrence. */
  lemma {:induction false} FilledFirstWins(hav: Haversine, mapped: map<string, CalculatedFlightTime>,
                                           models: seq<AircraftModel>, legs: seq<FlightLegInput>, addTaxiTime: bool,
                                           i: nat)
    requires i < |models| && models[i].modelId !in mapped && FirstWithId(models, i)
    ensures var r := Filled(hav, mapped, models, legs, addTaxiTime);
      models[i].modelId in r && r[models[i].modelId] == BuildFallbackResult(hav, models[i], legs, addTaxiTime)
    decreases |models|
  {
    var front := models[..|models| - 1];
    var m := models[|models| - 1];
    FilledKeys(hav, mapped, front, legs, addTaxiTime);
    if i < |front| {
      assert front[i] == models[i];
      assert FirstWithId(front, i) by {
        forall j | 0 <= j < i ensures front[j].modelId != front[i].modelId {
          assert front[j] == models[j];
        }
      }
      FilledFirstWins(hav, mapped, front, legs, addTaxiTime, i);
    } else {
      assert forall j :: 0 <= j < |front| ==> front[j] == models[j] && front[j].modelId != m.modelId;
      assert m.modelId !in ModelIds(front);
    }
  }

  /**
   * When the calculator is not configured or its request fails, each model
   * gets its fallback; `Object.fromEntries` keeps the last model of an id.
   */
  function AllFallback(hav: Haversine, models: seq<AircraftModel>, legs: seq<FlightLegInput>, addTaxiTime: bool)
    : (r: map<string, CalculatedFlightTime>)
    ensures r.Keys == ModelIds(models)
  {
    if |models| == 0 then map[]
    else
      var front := models[..|models| - 1];
      var m := models[|models| - 1];
      var before := AllFallback(hav, front, legs, addTaxiTime);
      assert ModelIds(models) == ModelIds(front) + {m.modelId} by {
        forall id | id in ModelIds(models) ensures id in ModelIds(front) + {m.modelId} {
          var i :| 0 <= i < |models| && models[i].modelId == id;
          if i < |front| {
            assert front[i] == models[i];
          }
        }
      }
      before[m.modelId := BuildFallbackResult(hav, m, legs, addTaxiTime)]
  }

  predicate DistinctIds(models: seq<AircraftModel>) {
    forall i, j :: 0 <= i < j < |models| ==> models[i].modelId != models[j].modelId
  }

  /** With distinct model ids, filling in an empty response gives the all-fallback map. */
  lemma {:induction false} FillingEmptyIsAllFallback(hav: Haversine, models: seq<AircraftModel>,
                                                     legs: seq<FlightLegInput>, addTaxiTime: bool)
    requires DistinctIds(models)
    ensures Filled(hav, map[], models, legs, addTaxiTime) == AllFallback(hav, models, legs, addTaxiTime)
    decreases |models|
  {
    if |models| > 0 {
      var front := models[..|models| - 1];
      LastIdIsNew(models);
      FillingEmptyIsAllFallback(hav, front, legs, addTaxiTime);
    }
  }

  /** With distinct ids, the models before the last have distinct ids, none of them the last one's. */
  lemma LastIdIsNew(models: seq<AircraftModel>)
    requires DistinctIds(models) && |models| > 0
    ensures DistinctIds(models[..|models| - 1])
    ensures models[|models| - 1].modelId !in ModelIds(models[..|models| - 1])
  {
    var front := models[..|models| - 1];
    assert forall j :: 0 <= j < |front| ==> front[j] == models[j];
  }

  /**
   * `calculateFlightTimeForModels` once the request is over: `response` is
   * the parsed calculator response, `None` when the calculator is not
   * configured or the request failed.
   */
  function CalculateForModels(hav: Haversine, response: Option<map<string, CalculatedFlightTime>>,
                              models: seq<AircraftModel>, legs: seq<FlightLegInput>, addTaxiTime: bool)
    : (r: map<string, CalculatedFlightTime>)
    ensures ModelIds(models) <= r.Keys
    ensures response.None? ==> r.Keys == ModelIds(models)
    ensures response.Some? ==> forall id :: id in response.value ==> id in r && r[id] == response.value[id]
  {
    if response.None? then AllFallback(hav, models, legs, addTaxiTime)
    else
      FilledKeys(hav, response.value, models, legs, addTaxiTime);
      FilledKeepsResponse(hav, response.value, models, legs, addTaxiTime);
      Filled(hav, response.value, models, legs, addTaxiTime)
  }
}
