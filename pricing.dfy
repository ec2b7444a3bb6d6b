/**
 * Base pricing: the hourly rate models, the price floors and ceiling, and
 * zone-network pricing of the repositioning legs.
 */
module Pricing {
  import opened Wrappers
  import opened QuoteRequest
  import opened QuoteResult
  import opened Utils
  import opened Zones

  /** A rate that is present and positive (`typeof r === "number" && r > 0`). */
  predicate UsableRate(r: Option<real>) {
    r.Some? && r.value > 0.0
  }

  datatype BaseCost = BaseCost(baseOccupied: real, baseRepo: real)

  /* ------------------------------- Rate models ------------------------------- */

  /**
   * `calcBaseCost`: single-hourly prices all hours at `hourlyRate`;
   * dual-rate prices occupied hours at `occupiedRate` and repo hours at
   * `repoRate`, checking `repoRate` first; zone-based pricing is refused here.
   */
  function CalcBaseCost(knobs: PricingKnobs, occupiedHours: real, repoHours: real): (r: Result<BaseCost>)
    ensures r.Ok? ==> IsCents(r.value.baseOccupied) && IsCents(r.value.baseRepo)
    ensures knobs.pricing.rateModel == SingleHourly ==>
      if !UsableRate(knobs.pricing.hourlyRate) then r == Err(Reject(MissingRate, "pricing.hourlyRate"))
      else r == Ok(BaseCost(Charge(occupiedHours, knobs.pricing.hourlyRate.value), Charge(repoHours, knobs.pricing.hourlyRate.value)))
    ensures knobs.pricing.rateModel == DualRateRepoOccupied ==>
      if !UsableRate(knobs.pricing.repoRate) then r == Err(Reject(MissingRate, "pricing.repoRate"))
      else if !UsableRate(knobs.pricing.occupiedRate) then r == Err(Reject(MissingRate, "pricing.occupiedRate"))
      else r == Ok(BaseCost(Charge(occupiedHours, knobs.pricing.occupiedRate.value), Charge(repoHours, knobs.pricing.repoRate.value)))
    ensures knobs.pricing.rateModel == ZoneBased ==> r == Err(Reject(ZonePricingError, "pricing.rateModel"))
  {
    var p := knobs.pricing;
    match p.rateModel
    case SingleHourly =>
      if !UsableRate(p.hourlyRate) then Err(Reject(MissingRate, "pricing.hourlyRate"))
      else Ok(BaseCost(Charge(occupiedHours, p.hourlyRate.value), Charge(repoHours, p.hourlyRate.value)))
    case DualRateRepoOccupied =>
      if !UsableRate(p.repoRate) then Err(Reject(MissingRate, "pricing.repoRate"))
      else if !UsableRate(p.occupiedRate) then Err(Reject(MissingRate, "pricing.occupiedRate"))
      else Ok(BaseCost(Charge(occupiedHours, p.occupiedRate.value), Charge(repoHours, p.repoRate.value)))
    case ZoneBased =>
      Err(Reject(ZonePricingError, "pricing.rateModel"))
  }

  /** The single-hourly model charges occupied and repo hours alike: equal hours cost equal amounts. */
  lemma SingleHourlyIsDirectionBlind(knobs: PricingKnobs, h: real)
    requires knobs.pricing.rateModel == SingleHourly && UsableRate(knobs.pricing.hourlyRate)
    ensures CalcBaseCost(knobs, h, h).Ok?
    ensures CalcBaseCost(knobs, h, h).value.baseOccupied == CalcBaseCost(knobs, h, h).value.baseRepo
  {
  }

  /** Base pricing fails exactly when the model's rates are unusable, or the model is zone-based. */
  lemma BaseCostFailsIff(knobs: PricingKnobs, occupiedHours: real, repoHours: real)
    ensures CalcBaseCost(knobs, occupiedHours, repoHours).Err? <==>
      match knobs.pricing.rateModel
      case SingleHourly => !UsableRate(knobs.pricing.hourlyRate)
      case DualRateRepoOccupied => !UsableRate(knobs.pricing.repoRate) || !UsableRate(knobs.pricing.occupiedRate)
      case ZoneBased => true
  {
  }

  /* ---------------------------- Floors and ceiling ---------------------------- */

  /** Step 1: the shortfall below `minPricePerLeg × occupiedLegCount`, when there are legs. */
  function PerLegFloorItems(c: PriceConstraints, total: real, occupiedLegCount: int): (items: seq<LineItem>)
    ensures |items| <= 1
    ensures forall i :: 0 <= i < |items| ==>
      items[i] == Item(FeeMinPricePerLeg, items[i].amount) && IsCents(items[i].amount) && items[i].amount >= 0.0
  {
    RoundMoneyCents(c.minPricePerLeg.GetOr(0.0) * occupiedLegCount as real - total);
    if c.minPricePerLeg.Some? && occupiedLegCount > 0 && total < c.minPricePerLeg.value * occupiedLegCount as real
    then [Item(FeeMinPricePerLeg, RoundMoney(c.minPricePerLeg.value * occupiedLegCount as real - total))]
    else []
  }

  /** Step 2: the shortfall below `minTripPrice`. */
  function TripFloorItems(c: PriceConstraints, total: real): (items: seq<LineItem>)
    ensures |items| <= 1
    ensures forall i :: 0 <= i < |items| ==>
      items[i] == Item(FeeMinTripPrice, items[i].amount) && IsCents(items[i].amount) && items[i].amount >= 0.0
  {
    RoundMoneyCents(c.minTripPrice.GetOr(0.0) - total);
    if c.minTripPrice.Some? && total < c.minTripPrice.value
    then [Item(FeeMinTripPrice, RoundMoney(c.minTripPrice.value - total))]
    else []
  }

  /** Step 3: the excess over `maxTripPrice`, as a negative amount. */
  function CapItems(c: PriceConstraints, total: real): (items: seq<LineItem>)
    ensures |items| <= 1
    ensures forall i :: 0 <= i < |items| ==>
      items[i] == Item(DiscountMaxTripPriceCap, items[i].amount) && IsCents(items[i].amount) && items[i].amount <= 0.0
  {
    var x := RoundMoney(total - c.maxTripPrice.GetOr(0.0));
    RoundMoneyCents(total - c.maxTripPrice.GetOr(0.0));
    CentsAdd(x, x);
    if c.maxTripPrice.Some? && total > c.maxTripPrice.value
    then [Item(DiscountMaxTripPriceCap, -RoundMoney(total - c.maxTripPrice.value))]
    else []
  }

  /** The position of a constraint item in the order the steps run. */
  function StepRank(code: ItemCode): int {
    if code == FeeMinPricePerLeg then 0 else if code == FeeMinTripPrice then 1 else 2
  }

  /**
   * `applyPriceConstraints`: the per-leg floor, then the trip floor, then the
   * cap, each judged against the running total the previous steps left.
   */
  function ApplyPriceConstraints(knobs: PricingKnobs, tentativeTotal: real, occupiedLegCount: int): (items: seq<LineItem>)
    ensures knobs.fees.priceConstraints.None? ==> items == []
    ensures |items| <= 3
    ensures forall i, j :: 0 <= i < j < |items| ==> StepRank(items[i].code) < StepRank(items[j].code)
    ensures forall i :: 0 <= i < |items| ==>
      items[i].splitHalf.None? && IsCents(items[i].amount) &&
      (items[i].code == FeeMinPricePerLeg || items[i].code == FeeMinTripPrice || items[i].code == DiscountMaxTripPriceCap)
    ensures forall i :: 0 <= i < |items| && items[i].code != DiscountMaxTripPriceCap ==> items[i].amount >= 0.0
    ensures forall i :: 0 <= i < |items| && items[i].code == DiscountMaxTripPriceCap ==> items[i].amount <= 0.0
  {
    if knobs.fees.priceConstraints.None? then []
    else
      var c := knobs.fees.priceConstraints.value;
      var perLeg := PerLegFloorItems(c, tentativeTotal, occupiedLegCount);
      var t1 := tentativeTotal + SumAmounts(perLeg);
      var tripMin := TripFloorItems(c, t1);
      var t2 := t1 + SumAmounts(tripMin);
      var cap := CapItems(c, t2);
      perLeg + tripMin + cap
  }

  /** The running total after the two floors. */
  function AfterFloors(c: PriceConstraints, tentativeTotal: real, occupiedLegCount: int): real {
    var t1 := tentativeTotal + SumAmounts(PerLegFloorItems(c, tentativeTotal, occupiedLegCount));
    t1 + SumAmounts(TripFloorItems(c, t1))
  }

  /** The items are exactly the three steps' items, in order. */
  lemma ConstraintsAreSteps(knobs: PricingKnobs, tentativeTotal: real, occupiedLegCount: int)
    requires knobs.fees.priceConstraints.Some?
    ensures var c := knobs.fees.priceConstraints.value;
      var perLeg := PerLegFloorItems(c, tentativeTotal, occupiedLegCount);
      var tripMin := TripFloorItems(c, tentativeTotal + SumAmounts(perLeg));
      ApplyPriceConstraints(knobs, tentativeTotal, occupiedLegCount) ==
        perLeg + tripMin + CapItems(c, AfterFloors(c, tentativeTotal, occupiedLegCount))
  {
  }

  /** The final total: the tentative total plus every adjustment. */
  function ConstrainedTotal(knobs: PricingKnobs, tentativeTotal: real, occupiedLegCount: int): real {
    tentativeTotal + SumAmounts(ApplyPriceConstraints(knobs, tentativeTotal, occupiedLegCount))
  }

  /** After the floors the running total is at least each floor, to within half a cent of rounding. */
  lemma FloorsMet(c: PriceConstraints, tentativeTotal: real, occupiedLegCount: int)
    ensures var t1 := tentativeTotal + SumAmounts(PerLegFloorItems(c, tentativeTotal, occupiedLegCount));
      (c.minPricePerLeg.Some? && occupiedLegCount > 0 ==> t1 >= c.minPricePerLeg.value * occupiedLegCount as real - 0.005) &&
      t1 >= tentativeTotal
    ensures c.minTripPrice.Some? ==> AfterFloors(c, tentativeTotal, occupiedLegCount) >= c.minTripPrice.value - 0.005
  {
  }

  /** The final total is the total after the floors plus the cap step's adjustment. */
  lemma ConstrainedTotalOfSteps(knobs: PricingKnobs, tentativeTotal: real, occupiedLegCount: int)
    requires knobs.fees.priceConstraints.Some?
    ensures var c := knobs.fees.priceConstraints.value;
      var after := AfterFloors(c, tentativeTotal, occupiedLegCount);
      ConstrainedTotal(knobs, tentativeTotal, occupiedLegCount) == after + SumAmounts(CapItems(c, after))
  {
    var c := knobs.fees.priceConstraints.value;
    var perLeg := PerLegFloorItems(c, tentativeTotal, occupiedLegCount);
    var tripMin := TripFloorItems(c, tentativeTotal + SumAmounts(perLeg));
    var cap := CapItems(c, AfterFloors(c, tentativeTotal, occupiedLegCount));
    var items := ApplyPriceConstraints(knobs, tentativeTotal, occupiedLegCount);
    ConstraintsAreSteps(knobs, tentativeTotal, occupiedLegCount);
    SumOfThree(tentativeTotal, items, perLeg, tripMin, cap);
  }

  lemma SumOfThree(t: real, items: seq<LineItem>, a: seq<LineItem>, b: seq<LineItem>, c: seq<LineItem>)
    requires items == a + b + c
    ensures t + SumAmounts(items) == (t + SumAmounts(a) + SumAmounts(b)) + SumAmounts(c)
  {
    SumAmountsConcat(a + b, c);
    SumAmountsConcat(a, b);
  }

  /** With a cap the final total never exceeds it by more than half a cent. */
  lemma CeilingMet(knobs: PricingKnobs, tentativeTotal: real, occupiedLegCount: int)
    requires knobs.fees.priceConstraints.Some? && knobs.fees.priceConstraints.value.maxTripPrice.Some?
    ensures ConstrainedTotal(knobs, tentativeTotal, occupiedLegCount) <= knobs.fees.priceConstraints.value.maxTripPrice.value + 0.005
  {
    ConstrainedTotalOfSteps(knobs, tentativeTotal, occupiedLegCount);
    CapBound(knobs.fees.priceConstraints.value, AfterFloors(knobs.fees.priceConstraints.value, tentativeTotal, occupiedLegCount));
  }

  /** The cap step brings any total down to the cap, to within half a cent. */
  lemma CapBound(c: PriceConstraints, total: real)
    requires c.maxTripPrice.Some?
    ensures total + SumAmounts(CapItems(c, total)) <= c.maxTripPrice.value + 0.005
    ensures total <= c.maxTripPrice.value ==> CapItems(c, total) == []
  {
    var items := CapItems(c, total);
    if total > c.maxTripPrice.value {
      assert items == [Item(DiscountMaxTripPriceCap, -RoundMoney(total - c.maxTripPrice.value))];
      assert SumAmounts(items) == -RoundMoney(total - c.maxTripPrice.value) by {
        assert items[..0] == [];
      }
    }
  }

  /** Without a cap, or when the cap does not bind, the final total meets the trip floor to within half a cent. */
  lemma {:induction false} TripFloorMet(knobs: PricingKnobs, tentativeTotal: real, occupiedLegCount: int)
    requires knobs.fees.priceConstraints.Some? && knobs.fees.priceConstraints.value.minTripPrice.Some?
    requires var c := knobs.fees.priceConstraints.value;
      c.maxTripPrice.None? || AfterFloors(c, tentativeTotal, occupiedLegCount) <= c.maxTripPrice.value
    ensures ConstrainedTotal(knobs, tentativeTotal, occupiedLegCount) >= knobs.fees.priceConstraints.value.minTripPrice.value - 0.005
  {
    var c := knobs.fees.priceConstraints.value;
    var after := AfterFloors(c, tentativeTotal, occupiedLegCount);
    ConstrainedTotalOfSteps(knobs, tentativeTotal, occupiedLegCount);
    assert CapItems(c, after) == [] by {
      if c.maxTripPrice.Some? {
        CapBound(c, after);
      }
    }
    assert ConstrainedTotal(knobs, tentativeTotal, occupiedLegCount) == after;
    FloorsMet(c, tentativeTotal, occupiedLegCount);
  }

  /** A total already inside every bound is left alone. */
  lemma NothingBinds(knobs: PricingKnobs, tentativeTotal: real, occupiedLegCount: int)
    requires knobs.fees.priceConstraints.Some?
    requires var c := knobs.fees.priceConstraints.value;
      (c.minPricePerLeg.Some? && occupiedLegCount > 0 ==> tentativeTotal >= c.minPricePerLeg.value * occupiedLegCount as real) &&
      (c.minTripPrice.Some? ==> tentativeTotal >= c.minTripPrice.value) &&
      (c.maxTripPrice.Some? ==> tentativeTotal <= c.maxTripPrice.value)
    ensures ApplyPriceConstraints(knobs, tentativeTotal, occupiedLegCount) == []
  {
  }

  /** A shortfall under half a cent still produces a floor item, of amount zero. */
  lemma ZeroFloorAdjustment(knobs: PricingKnobs)
    requires knobs.fees.priceConstraints == Some(PriceConstraints(None, Some(100.0), None))
    ensures ApplyPriceConstraints(knobs, 99.996, 1) == [Item(FeeMinTripPrice, 0.0)]
  {
    var c := knobs.fees.priceConstraints.value;
    assert PerLegFloorItems(c, 99.996, 1) == [];
    assert SumAmounts([]) == 0.0;
    assert RoundMoney(100.0 - 99.996) == 0.0;
    var tripMin := TripFloorItems(c, 99.996);
    assert tripMin == [Item(FeeMinTripPrice, 0.0)];
    assert SumAmounts(tripMin) == 0.0 by {
      assert tripMin[..0] == [];
    }
    assert CapItems(c, 99.996) == [];
    assert [] + tripMin + [] == tripMin;
  }

  /* ------------------------------ Zone pricing ------------------------------ */

  datatype ZoneBasedCost = ZoneBasedCost(
    baseOccupied: real,
    baseRepo: real,
    repoLineItems: seq<LineItem>,
    enrichedRepoLegs: seq<Leg>)

  /** The zone price of the leg at index `i`; only index 0 counts as outbound. */
  function LegZoneCost(legs: seq<Leg>, i: int, config: ZoneNetworkConfig, departDateISO: string): ZoneRepoCost
    requires 0 <= i < |legs|
  {
    CalcZoneRepoCost(legs[i], AdjustedHours(legs[i]), config, departDateISO, i == 0)
  }

  /** A repo leg carrying its zone price in its metadata; other legs unchanged. */
  function EnrichedLeg(legs: seq<Leg>, i: int, config: ZoneNetworkConfig, departDateISO: string): Leg
    requires 0 <= i < |legs|
  {
    var leg := legs[i];
    if leg.kind != Repo then leg else WithZoneMeta(leg, LegZoneCost(legs, i, config, departDateISO))
  }

  /** The leg with the zone, the applied rate, the direction and the peak recorded in its metadata (a multiplier of 1 is omitted). */
  function WithZoneMeta(leg: Leg, res: ZoneRepoCost): (r: Leg)
    ensures r.kind == leg.kind && r.from == leg.from && r.to == leg.to
    ensures r.meta.rateDirection == Some(res.rateDirection) && r.meta.appliedRate == Some(res.appliedRate)
    ensures r.meta.zoneId == res.zoneId && r.meta.zoneName == res.zoneName
    ensures r.meta.peakMultiplier.Some? <==> res.peakMultiplier != 1.0
    ensures r.meta.adjustedHours == leg.meta.adjustedHours && r.meta.chosenBaseIcao == leg.meta.chosenBaseIcao
  {
    leg.(meta := leg.meta.(
      zoneId := res.zoneId,
      zoneName := res.zoneName,
      appliedRate := Some(res.appliedRate),
      rateDirection := Some(res.rateDirection),
      peakPeriodName := res.peakPeriodName,
      peakMultiplier := if res.peakMultiplier != 1.0 then Some(res.peakMultiplier) else None))
  }

  /** The first `n` legs, enriched. */
  function EnrichedLegs(legs: seq<Leg>, n: int, config: ZoneNetworkConfig, departDateISO: string): (r: seq<Leg>)
    requires 0 <= n <= |legs|
    ensures |r| == n
    ensures forall k :: 0 <= k < n ==> r[k] == EnrichedLeg(legs, k, config, departDateISO)
  {
    if n == 0 then [] else EnrichedLegs(legs, n - 1, config, departDateISO) + [EnrichedLeg(legs, n - 1, config, departDateISO)]
  }

  /** One `BASE_REPO_ZONE` item per repo leg among the first `n`, in leg order. */
  function ZoneItems(legs: seq<Leg>, n: int, config: ZoneNetworkConfig, departDateISO: string): (items: seq<LineItem>)
    requires 0 <= n <= |legs|
    ensures forall k :: 0 <= k < |items| ==> items[k].code == BaseRepoZone && IsCents(items[k].amount)
    ensures |items| == |OfKind(legs[..n], Repo)|
  {
    if n == 0 then []
    else
      var front := ZoneItems(legs, n - 1, config, departDateISO);
      assert legs[..n] == legs[..n - 1] + [legs[n - 1]];
      OfKindConcat(legs[..n - 1], [legs[n - 1]], Repo);
      if legs[n - 1].kind == Repo
      then front + [Item(BaseRepoZone, LegZoneCost(legs, n - 1, config, departDateISO).cost)]
      else front
  }

  lemma ZoneItemsStep(legs: seq<Leg>, i: int, config: ZoneNetworkConfig, departDateISO: string)
    requires 0 <= i < |legs|
    ensures ZoneItems(legs, i + 1, config, departDateISO) ==
      ZoneItems(legs, i, config, departDateISO) +
      (if legs[i].kind == Repo then [Item(BaseRepoZone, LegZoneCost(legs, i, config, departDateISO).cost)] else [])
  {
  }

  /** The reference meaning of `calcZoneBasedCost`. */
  function ZoneBasedCostOf(knobs: PricingKnobs, occupiedHours: real, repoLegs: seq<Leg>, departDateISO: string): Result<ZoneBasedCost> {
    if knobs.repo.zoneNetwork.None? then Err(Reject(MissingZoneConfig, "repo.zoneNetwork"))
    else if !UsableRate(knobs.pricing.occupiedRate) then Err(Reject(MissingRate, "pricing.occupiedRate"))
    else
      var config := knobs.repo.zoneNetwork.value;
      var peak := PeakPeriodFor(departDateISO, config.peakPeriods.GetOr([]));
      var items := ZoneItems(repoLegs, |repoLegs|, config, departDateISO);
      Ok(ZoneBasedCost(
        Charge(occupiedHours, PeakOccupiedRate(knobs.pricing.occupiedRate.value, peak)),
        RoundMoney(SumAmounts(items)),
        items,
        EnrichedLegs(repoLegs, |repoLegs|, config, departDateISO)))
  }

  /** The repo-leg loop of `calcZoneBasedCost`: one zone-priced item and one enriched leg per repo leg. */
  method PriceZoneRepoLegs(repoLegs: seq<Leg>, zoneConfig: ZoneNetworkConfig, departDateISO: string)
    returns (baseRepo: real, repoLineItems: seq<LineItem>, enrichedRepoLegs: seq<Leg>)
    ensures repoLineItems == ZoneItems(repoLegs, |repoLegs|, zoneConfig, departDateISO)
    ensures baseRepo == SumAmounts(repoLineItems)
    ensures enrichedRepoLegs == EnrichedLegs(repoLegs, |repoLegs|, zoneConfig, departDateISO)
  {
    baseRepo := 0.0;
    repoLineItems := [];
    enrichedRepoLegs := [];
    var i := 0;
    while i < |repoLegs|
      invariant 0 <= i <= |repoLegs|
      invariant repoLineItems == ZoneItems(repoLegs, i, zoneConfig, departDateISO)
      invariant baseRepo == SumAmounts(repoLineItems)
      invariant enrichedRepoLegs == EnrichedLegs(repoLegs, i, zoneConfig, departDateISO)
    {
      var leg := repoLegs[i];
      ZoneItemsStep(repoLegs, i, zoneConfig, departDateISO);
      if leg.kind != Repo {
        enrichedRepoLegs := enrichedRepoLegs + [leg];
      } else {
        var hours := leg.meta.adjustedHours.GetOr(0.0);
        var isOutbound := i == 0;
        var result := CalcZoneRepoCost(leg, hours, zoneConfig, departDateISO, isOutbound);
        baseRepo := baseRepo + result.cost;
        var enrichedLeg := WithZoneMeta(leg, result);
        enrichedRepoLegs := enrichedRepoLegs + [enrichedLeg];
        ghost var before := repoLineItems;
        repoLineItems := repoLineItems + [Item(BaseRepoZone, result.cost)];
        assert repoLineItems[..|repoLineItems| - 1] == before;
      }
      i := i + 1;
    }
  }

  /**
   * `calcZoneBasedCost`: checks the zone configuration, then the occupied rate;
   * prices occupied hours at the (peak-adjusted) occupied rate and each repo leg
   * by its zone, accumulating the repo total in leg order.
   */
  method CalcZoneBasedCost(knobs: PricingKnobs, occupiedHours: real, repoLegs: seq<Leg>, departDateISO: string)
    returns (r: Result<ZoneBasedCost>)
    ensures r == ZoneBasedCostOf(knobs, occupiedHours, repoLegs, departDateISO)
  {
    var p := knobs.pricing;
    if knobs.repo.zoneNetwork.None? {
      return Err(Reject(MissingZoneConfig, "repo.zoneNetwork"));
    }
    var zoneConfig := knobs.repo.zoneNetwork.value;
    if p.occupiedRate.None? || p.occupiedRate.value <= 0.0 {
      return Err(Reject(MissingRate, "pricing.occupiedRate"));
    }
    var peak := FindPeakPeriod(departDateISO, zoneConfig.peakPeriods.GetOr([]));
    var appliedOccupiedRate := PeakOccupiedRate(p.occupiedRate.value, peak);
    var baseOccupied := Charge(occupiedHours, appliedOccupiedRate);

    var baseRepo, repoLineItems, enrichedRepoLegs := PriceZoneRepoLegs(repoLegs, zoneConfig, departDateISO);
    r := Ok(ZoneBasedCost(baseOccupied, RoundMoney(baseRepo), repoLineItems, enrichedRepoLegs));
  }

  /** Zone pricing refuses a missing zone configuration before it looks at the occupied rate. */
  lemma ZoneBasedErrorsInOrder(knobs: PricingKnobs, occupiedHours: real, repoLegs: seq<Leg>, departDateISO: string)
    ensures var r := ZoneBasedCostOf(knobs, occupiedHours, repoLegs, departDateISO);
      (r.Err? <==> knobs.repo.zoneNetwork.None? || !UsableRate(knobs.pricing.occupiedRate)) &&
      (knobs.repo.zoneNetwork.None? ==> r == Err(Reject(MissingZoneConfig, "repo.zoneNetwork"))) &&
      (knobs.repo.zoneNetwork.Some? && !UsableRate(knobs.pricing.occupiedRate) ==>
        r == Err(Reject(MissingRate, "pricing.occupiedRate")))
  {
  }

  /**
   * The shape of a zone price: the enriched legs keep the input's length,
   * order, endpoints and kinds; non-repo legs pass through unchanged; each repo
   * leg is priced outbound only at index 0; there is one `BASE_REPO_ZONE` item
   * per repo leg; the repo total is the rounded sum of those items.
   */
  lemma ZoneBasedShape(knobs: PricingKnobs, occupiedHours: real, repoLegs: seq<Leg>, departDateISO: string)
    requires ZoneBasedCostOf(knobs, occupiedHours, repoLegs, departDateISO).Ok?
    ensures var z := ZoneBasedCostOf(knobs, occupiedHours, repoLegs, departDateISO).value;
      |z.enrichedRepoLegs| == |repoLegs| &&
      (forall i :: 0 <= i < |repoLegs| ==>
        z.enrichedRepoLegs[i].kind == repoLegs[i].kind &&
        z.enrichedRepoLegs[i].from == repoLegs[i].from &&
        z.enrichedRepoLegs[i].to == repoLegs[i].to) &&
      (forall i :: 0 <= i < |repoLegs| && repoLegs[i].kind != Repo ==> z.enrichedRepoLegs[i] == repoLegs[i]) &&
      (forall i :: 0 <= i < |repoLegs| && repoLegs[i].kind == Repo ==>
        z.enrichedRepoLegs[i].meta.rateDirection == Some(if i == 0 then OriginDirection else DestinationDirection))
    ensures var z := ZoneBasedCostOf(knobs, occupiedHours, repoLegs, departDateISO).value;
      |z.repoLineItems| == |OfKind(repoLegs, Repo)| &&
      (forall k :: 0 <= k < |z.repoLineItems| ==> z.repoLineItems[k].code == BaseRepoZone) &&
      z.baseRepo == RoundMoney(SumAmounts(z.repoLineItems)) &&
      IsCents(z.baseRepo) && IsCents(z.baseOccupied)
  {
    var z := ZoneBasedCostOf(knobs, occupiedHours, repoLegs, departDateISO).value;
    assert repoLegs[..|repoLegs|] == repoLegs;
    RoundMoneyCents(SumAmounts(z.repoLineItems));
  }
}
