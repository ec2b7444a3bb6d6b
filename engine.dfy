/**
 * The orchestrator: basic validation, the round-trip split into two one-way
 * quotes, and the per-itinerary pipeline (eligibility, repositioning, flight
 * time, time rules, repo limits, match score, base cost, fees, VHB discount,
 * totals).
 *
 * A quote is `Option<QuoteResult>`: `None` stands for the failure of an
 * injected flight-time estimator, which the engine does not catch.
 */
module Engine {
  import opened Wrappers
  import opened QuoteRequest
  import opened QuoteResult
  import opened Utils
  import Eligibility
  import Repo
  import FlightTime
  import TimeRules
  import Pricing
  import Fees
  import Discounts
  import Aggregation

  /* ------------------------------ Basic validation ------------------------------ */

  predicate ReturnMissing(trip: TripInput) {
    trip.tripType == RoundTrip && !Present(trip.returnLocalISO)
  }

  /** A rate the chosen model needs is absent: the hourly rate, or else the repo and occupied rates. */
  predicate RateMissing(p: PricingConfig) {
    if p.rateModel == SingleHourly then p.hourlyRate.None? else p.repoRate.None? || p.occupiedRate.None?
  }

  predicate BaseMissing(repo: RepoKnobs) {
    repo.mode == FixedBase && repo.fixedBaseIcao.None?
  }

  predicate VhbListMissing(repo: RepoKnobs) {
    repo.mode == VhbNetwork && |repo.vhbDefault.GetOr([])| == 0
  }

  /** The rate reported missing: the hourly rate, or else the repo rate before the occupied rate. */
  function MissingRateField(p: PricingConfig): string {
    if p.rateModel == SingleHourly then "pricing.hourlyRate"
    else if p.repoRate.None? then "pricing.repoRate"
    else "pricing.occupiedRate"
  }

  /**
   * `validateBasics`: the return time of a round trip, then the rates the
   * rate model needs (hourly, or repo then occupied), then the fixed base,
   * then the VHB list; `None` when all are present.
   */
  function ValidateBasics(payload: QuoteRequestPayload): (r: Option<QuoteResult>)
    ensures r.None? <==>
      !ReturnMissing(payload.trip) && !RateMissing(payload.knobs.pricing) &&
      !BaseMissing(payload.knobs.repo) && !VhbListMissing(payload.knobs.repo)
    ensures ReturnMissing(payload.trip) ==> r == Some(Reject(MissingReturn, "trip.returnLocalISO"))
    ensures !ReturnMissing(payload.trip) && RateMissing(payload.knobs.pricing) ==>
      r == Some(Reject(MissingRate, MissingRateField(payload.knobs.pricing)))
    ensures !ReturnMissing(payload.trip) && !RateMissing(payload.knobs.pricing) && BaseMissing(payload.knobs.repo) ==>
      r == Some(Reject(MissingBase, "repo.fixedBaseIcao"))
    ensures (!ReturnMissing(payload.trip) && !RateMissing(payload.knobs.pricing) && !BaseMissing(payload.knobs.repo) &&
      VhbListMissing(payload.knobs.repo)) ==> r == Some(Reject(MissingVhbList, "repo.vhbSets.default"))
  {
    var trip := payload.trip;
    var knobs := payload.knobs;
    if ReturnMissing(trip) then Some(Reject(MissingReturn, "trip.returnLocalISO"))
    else if knobs.pricing.rateModel == SingleHourly && knobs.pricing.hourlyRate.None? then
      Some(Reject(MissingRate, "pricing.hourlyRate"))
    else if knobs.pricing.rateModel != SingleHourly && knobs.pricing.repoRate.None? then
      Some(Reject(MissingRate, "pricing.repoRate"))
    else if knobs.pricing.rateModel != SingleHourly && knobs.pricing.occupiedRate.None? then
      Some(Reject(MissingRate, "pricing.occupiedRate"))
    else if BaseMissing(knobs.repo) then Some(Reject(MissingBase, "repo.fixedBaseIcao"))
    else if VhbListMissing(knobs.repo) then Some(Reject(MissingVhbList, "repo.vhbSets.default"))
    else None
  }

  /* -------------------------------- Round-trip split -------------------------------- */

  /** The split threshold, read from the overnight fee settings. */
  function SplitThreshold(knobs: PricingKnobs): Option<real> {
    if knobs.fees.overnight.Some? then knobs.fees.overnight.value.maxNightsBeforeSplit else None
  }

  /** A round trip with a return is split when its overnights exceed a configured threshold. */
  predicate ShouldSplit(cal: Calendar, payload: QuoteRequestPayload) {
    var trip := payload.trip;
    trip.tripType == RoundTrip && Present(trip.returnLocalISO) &&
    SplitThreshold(payload.knobs).Some? &&
    ComputeOvernights(cal, trip.departLocalISO, trip.returnLocalISO.value) as real > SplitThreshold(payload.knobs).value
  }

  /** The outbound half: the same trip as a one-way without a return. */
  function OutboundRequest(payload: QuoteRequestPayload): (r: QuoteRequestPayload)
    ensures r.knobs == payload.knobs
    ensures r.trip.tripType == OneWay && r.trip.returnLocalISO.None? && r.trip.returnTimezone.None?
    ensures r.trip.from == payload.trip.from && r.trip.to == payload.trip.to
    ensures r.trip.departLocalISO == payload.trip.departLocalISO && r.trip.departTimezone == payload.trip.departTimezone
    ensures r.trip.category == payload.trip.category && r.trip.passengers == payload.trip.passengers
  {
    QuoteRequestPayload(
      payload.trip.(tripType := OneWay, returnLocalISO := None, returnTimezone := None),
      payload.knobs)
  }

  /** The return half: a one-way from the destination back to the origin, departing at the return time. */
  function ReturnRequest(payload: QuoteRequestPayload): (r: QuoteRequestPayload)
    requires payload.trip.returnLocalISO.Some?
    ensures r.knobs == payload.knobs
    ensures r.trip.tripType == OneWay && r.trip.returnLocalISO.None? && r.trip.returnTimezone.None?
    ensures r.trip.from == payload.trip.to && r.trip.to == payload.trip.from
    ensures r.trip.departLocalISO == payload.trip.returnLocalISO.value
    ensures r.trip.departTimezone == payload.trip.returnTimezone
    ensures r.trip.category == payload.trip.category && r.trip.passengers == payload.trip.passengers
  {
    QuoteRequestPayload(
      payload.trip.(tripType := OneWay, from := payload.trip.to, to := payload.trip.from,
        departLocalISO := payload.trip.returnLocalISO.value, departTimezone := payload.trip.returnTimezone,
        returnLocalISO := None, returnTimezone := None),
      payload.knobs)
  }

  /** Neither half of a split is itself split again. */
  lemma HalvesAreNotSplit(cal: Calendar, payload: QuoteRequestPayload)
    requires payload.trip.returnLocalISO.Some?
    ensures !ShouldSplit(cal, OutboundRequest(payload)) && !ShouldSplit(cal, ReturnRequest(payload))
    ensures !ReturnMissing(OutboundRequest(payload).trip) && !ReturnMissing(ReturnRequest(payload).trip)
  {
  }

  /** The informational note attached to a merged split quote (the overnight figures are not modelled). */
  const SplitNote: string := "Split RT into 2 one-ways"

  /* ------------------------------- One itinerary ------------------------------- */

  /** Home-base candidates are resolved for a VHB network, or for a VHB discount that is not `none`. */
  predicate NeedsVhbList(knobs: PricingKnobs) {
    knobs.repo.mode == VhbNetwork ||
    (knobs.discounts.vhbDiscount.Some? && knobs.discounts.vhbDiscount.value.mode != NoVhbDiscount)
  }

  function VhbCandidatesFor(knobs: PricingKnobs): seq<Airport> {
    if NeedsVhbList(knobs) then Repo.ResolveVhbCandidates(knobs.repo) else []
  }

  /** What the first half of the pipeline produces, up to timed legs. */
  datatype Route = Route(
    occupiedLegs: seq<Leg>,
    vhbCandidates: seq<Airport>,
    plan: Repo.RepoPlan,
    allLegs: seq<Leg>,
    timed: TimeRules.TimedLegs)

  /**
   * Eligibility, the repo legs, the flight times and the time rules, in that
   * order. `None` when the estimator fails; `Some(Err(_))` for a rejection.
   */
  function RouteOf(hav: Haversine, cal: Calendar, deps: PricingEngineDeps, now: real, trip: TripInput, knobs: PricingKnobs)
    : (r: Option<Result<Route>>)
    ensures r.Some? && r.value.Ok? ==>
      var rt := r.value.value;
      rt.occupiedLegs == BuildOccupiedLegs(trip) &&
      rt.allLegs == rt.plan.legsOut + rt.occupiedLegs + rt.plan.legsBack &&
      Repo.RepoLegs(hav, trip.from, rt.occupiedLegs[|rt.occupiedLegs| - 1].to, knobs.repo, rt.vhbCandidates) == Ok(rt.plan) &&
      |rt.timed.legsWithTime| == |rt.allLegs| &&
      forall i :: 0 <= i < |rt.allLegs| ==>
        rt.timed.legsWithTime[i].kind == rt.allLegs[i].kind &&
        rt.timed.legsWithTime[i].from == rt.allLegs[i].from &&
        rt.timed.legsWithTime[i].to == rt.allLegs[i].to
    ensures r.Some? && r.value.Err? ==> IsRejection(r.value.error)
  {
    Eligibility.EligibilityRejects(cal, trip, knobs.eligibility, now);
    var occupiedLegs := BuildOccupiedLegs(trip);
    var itineraryEnd := occupiedLegs[|occupiedLegs| - 1].to;
    var eligibility := Eligibility.RunEligibilityChecks(cal, trip, knobs.eligibility, now);
    if eligibility.Some? then Some(Err(eligibility.value))
    else
      var vhbCandidates := VhbCandidatesFor(knobs);
      var repoR := Repo.RepoLegs(hav, trip.from, itineraryEnd, knobs.repo, vhbCandidates);
      if repoR.Err? then
        Repo.RepoRejects(hav, trip.from, itineraryEnd, knobs.repo, vhbCandidates);
        Some(Err(repoR.error))
      else
        var allLegs := repoR.value.legsOut + occupiedLegs + repoR.value.legsBack;
        var actualSeconds := FlightTime.CalcFlightSeconds(hav, allLegs, trip.category, deps.calculateFlightSeconds);
        if actualSeconds.None? then None
        else
          var timeR := TimeRules.ApplyTimeAdjustmentsAndValidate(hav, cal, trip, knobs.time, allLegs, actualSeconds.value);
          if timeR.Err? then
            TimeRules.TimeRejects(hav, cal, trip, knobs.time, allLegs, actualSeconds.value);
            Some(Err(timeR.error))
          else
            TimeRules.PassedKeepsLegs(hav, cal, trip, knobs.time, allLegs, actualSeconds.value);
            Some(Ok(Route(occupiedLegs, vhbCandidates, repoR.value, allLegs, timeR.value)))
  }

  /**
   * Outbound and inbound repo hours: the adjusted hours of the first
   * `nOut` repo legs and of the remaining ones (a slice past the end is cut short).
   */
  function RepoHoursSplit(legs: seq<Leg>, nOut: nat): (r: (real, real))
    ensures r.0 + r.1 == SumAdjustedHours(OfKind(legs, Repo))
  {
    var repoLegs := OfKind(legs, Repo);
    var k := if nOut <= |repoLegs| then nOut else |repoLegs|;
    SumAdjustedHoursConcat(repoLegs[..k], repoLegs[k..]);
    assert repoLegs[..k] + repoLegs[k..] == repoLegs;
    (SumAdjustedHours(repoLegs[..k]), SumAdjustedHours(repoLegs[k..]))
  }

  /**
   * When the timed legs are `nOut` repo legs, then `nOcc` legs of another
   * kind, then repo legs only, the split gives the hours of the first block
   * as outbound and of the last block as inbound.
   */
  lemma RepoHoursSplitOfBlocks(legs: seq<Leg>, nOut: nat, nOcc: nat)
    requires nOut + nOcc <= |legs|
    requires forall i :: 0 <= i < nOut ==> legs[i].kind == Repo
    requires forall i :: nOut <= i < nOut + nOcc ==> legs[i].kind != Repo
    requires forall i :: nOut + nOcc <= i < |legs| ==> legs[i].kind == Repo
    ensures RepoHoursSplit(legs, nOut) == (SumAdjustedHours(legs[..nOut]), SumAdjustedHours(legs[nOut + nOcc..]))
  {
    var a, b, c := legs[..nOut], legs[nOut..nOut + nOcc], legs[nOut + nOcc..];
    assert legs == a + b + c;
    OfKindConcat(a + b, c, Repo);
    OfKindConcat(a, b, Repo);
    OfKindAll(a, Repo);
    OfKindNone(b, Repo);
    OfKindAll(c, Repo);
    var repoLegs := OfKind(legs, Repo);
    assert repoLegs == a + c;
    assert repoLegs[..nOut] == a && repoLegs[nOut..] == c;
  }

  /**
   * The timed legs are the repo-out block, the occupied block and the
   * repo-back block, only the outer two are repo legs, and the split gives
   * the hours of the first block as outbound and of the last as inbound.
   */
  predicate RepoHoursByBlock(rt: Route) {
    var t := rt.timed.legsWithTime;
    var nOut := |rt.plan.legsOut|;
    |t| == nOut + |rt.occupiedLegs| + |rt.plan.legsBack| &&
    (forall i :: 0 <= i < |t| ==> (t[i].kind == Repo <==> i < nOut || nOut + |rt.occupiedLegs| <= i)) &&
    RepoHoursSplit(t, nOut) == (SumAdjustedHours(t[..nOut]), SumAdjustedHours(t[nOut + |rt.occupiedLegs|..]))
  }

  /**
   * In a timed route, the outbound repo hours are those of the repo-out legs
   * and the inbound repo hours those of the repo-back legs.
   */
  lemma RouteRepoHours(hav: Haversine, cal: Calendar, deps: PricingEngineDeps, now: real, trip: TripInput, knobs: PricingKnobs)
    requires RouteOf(hav, cal, deps, now, trip, knobs).Some? && RouteOf(hav, cal, deps, now, trip, knobs).value.Ok?
    ensures RepoHoursByBlock(RouteOf(hav, cal, deps, now, trip, knobs).value.value)
  {
    var rt := RouteOf(hav, cal, deps, now, trip, knobs).value.value;
    var itineraryEnd := rt.occupiedLegs[|rt.occupiedLegs| - 1].to;
    Repo.RepoLegsShape(hav, trip.from, itineraryEnd, knobs.repo, rt.vhbCandidates);
    RouteBlocks(rt);
  }

  /** The block structure of a route's timed legs, from the kinds of its repo and occupied legs. */
  lemma RouteBlocks(rt: Route)
    requires rt.allLegs == rt.plan.legsOut + rt.occupiedLegs + rt.plan.legsBack
    requires forall l :: l in rt.plan.legsOut ==> l.kind == Repo
    requires forall l :: l in rt.plan.legsBack ==> l.kind == Repo
    requires forall i :: 0 <= i < |rt.occupiedLegs| ==> rt.occupiedLegs[i].kind == Occupied
    requires |rt.timed.legsWithTime| == |rt.allLegs|
    requires forall i :: 0 <= i < |rt.allLegs| ==> rt.timed.legsWithTime[i].kind == rt.allLegs[i].kind
    ensures RepoHoursByBlock(rt)
  {
    var t := rt.timed.legsWithTime;
    var all := rt.allLegs;
    var nOut, nOcc := |rt.plan.legsOut|, |rt.occupiedLegs|;
    forall i | 0 <= i < |t| ensures t[i].kind == Repo <==> i < nOut || nOut + nOcc <= i {
      if i < nOut {
        assert all[i] == rt.plan.legsOut[i] && rt.plan.legsOut[i] in rt.plan.legsOut;
      } else if i < nOut + nOcc {
        assert all[i] == rt.occupiedLegs[i - nOut];
      } else {
        assert all[i] == rt.plan.legsBack[i - nOut - nOcc] && rt.plan.legsBack[i - nOut - nOcc] in rt.plan.legsBack;
      }
    }
    RepoHoursSplitOfBlocks(t, nOut, nOcc);
  }

  /** The match-score gate: rejects only when enabled, the score is defined, the action is `reject` and the score is low. */
  function MatchScoreReject(cfg: Option<MatchScoreConfig>, score: Option<real>): (r: Option<QuoteResult>)
    ensures r.Some? <==>
      cfg.Some? && cfg.value.enabled && score.Some? && cfg.value.action == RejectLowScore && score.value < cfg.value.threshold
    ensures r.Some? ==> r == Some(Reject(MatchScoreTooLow, "scoring.matchScore.threshold"))
  {
    if cfg.Some? && cfg.value.enabled && score.Some? then
      if score.value < cfg.value.threshold && cfg.value.action == RejectLowScore
      then Some(Reject(MatchScoreTooLow, "scoring.matchScore.threshold"))
      else None
    else None
  }

  predicate ScoringEnabled(knobs: PricingKnobs) {
    knobs.scoring.Some? && knobs.scoring.value.enabled
  }

  /** The two base items, then the informational match-score item when scoring is enabled. */
  function BaseItems(knobs: PricingKnobs, base: Pricing.BaseCost): seq<LineItem> {
    [Item(BaseOccupied, base.baseOccupied), Item(BaseRepo, base.baseRepo)] +
    (if ScoringEnabled(knobs) then [Item(InfoMatchScore, 0.0)] else [])
  }

  /**
   * The VHB discount pushed after `beforeDiscount`, as a list of at most one
   * item: computed over the base subtotal, the fee bucket and the running total.
   */
  function VhbItems(trip: TripInput, knobs: PricingKnobs, vhbCandidates: seq<Airport>,
                    base: Pricing.BaseCost, beforeDiscount: seq<LineItem>): seq<LineItem> {
    var vhbDiscount := Discounts.CalcVhbDiscount(trip, knobs, vhbCandidates,
      base.baseOccupied + base.baseRepo,
      Aggregation.BucketSum(beforeDiscount, Aggregation.FeeBucket),
      SumAmounts(beforeDiscount));
    if vhbDiscount.Some? then [vhbDiscount.value] else []
  }

  /**
   * The line items of an itinerary given its fee items: base items, fees,
   * then the VHB discount, computed over the items before it, when there is one.
   */
  function PricedItems(
    trip: TripInput, knobs: PricingKnobs, vhbCandidates: seq<Airport>,
    base: Pricing.BaseCost, fees: seq<LineItem>): (items: seq<LineItem>)
    ensures |items| >= 2
    ensures items[0] == Item(BaseOccupied, base.baseOccupied) && items[1] == Item(BaseRepo, base.baseRepo)
  {
    var beforeDiscount := BaseItems(knobs, base) + fees;
    beforeDiscount + VhbItems(trip, knobs, vhbCandidates, base, beforeDiscount)
  }

  function TripOvernights(cal: Calendar, trip: TripInput): int {
    if trip.tripType == RoundTrip && Present(trip.returnLocalISO)
    then ComputeOvernights(cal, trip.departLocalISO, trip.returnLocalISO.value) else 0
  }

  function TripDaysTouched(cal: Calendar, trip: TripInput): int {
    ComputeCalendarDaysTouched(cal, trip.departLocalISO, if trip.tripType == RoundTrip then trip.returnLocalISO else None)
  }

  /** A priced itinerary: status OK, the timed legs, the hours, the line items and their totals. */
  function PricedQuote(cal: Calendar, trip: TripInput, knobs: PricingKnobs, rt: Route, matchScore: Option<real>,
                       base: Pricing.BaseCost): (q: QuoteResult)
    ensures q.status == StatusOk && q.rejectReasons.None?
    ensures q.legs == Some(rt.timed.legsWithTime)
    ensures q.lineItems.Some? && q.totals == Some(Aggregation.SummarizeTotals(q.lineItems.value))
    ensures |q.lineItems.value| >= 2 &&
      q.lineItems.value[0].code == BaseOccupied && q.lineItems.value[1].code == BaseRepo
  {
    var t := rt.timed;
    var items := PricedItems(trip, knobs, rt.vhbCandidates, base, Fees.FeesOf(cal, trip, knobs, t.legsWithTime));
    QuoteResult(
      status := StatusOk,
      rejectReasons := None,
      legs := Some(t.legsWithTime),
      times := Some(Times(t.occupiedHours, t.repoHours, t.totalHours, matchScore,
        Some(TripOvernights(cal, trip)), Some(TripDaysTouched(cal, trip)))),
      lineItems := Some(items),
      totals := Some(Aggregation.SummarizeTotals(items)))
  }

  /** What `quoteOneItinerary` does once the route is timed: the repo limits, the match score, then pricing. */
  function QuoteRoute(cal: Calendar, trip: TripInput, knobs: PricingKnobs, rt: Route): (q: QuoteResult)
    ensures IsRejection(q) || (q.status == StatusOk && q.rejectReasons.None?)
    ensures q.status == StatusOk ==>
      q.legs == Some(rt.timed.legsWithTime) &&
      q.lineItems.Some? && |q.lineItems.value| >= 2 &&
      q.lineItems.value[0].code == BaseOccupied && q.lineItems.value[1].code == BaseRepo &&
      q.totals == Some(Aggregation.SummarizeTotals(q.lineItems.value))
  {
    var t := rt.timed;
    var hours := RepoHoursSplit(t.legsWithTime, |rt.plan.legsOut|);
    var repoLimitReject := Repo.EnforceRepoConstraints(knobs.repo.constraints, hours.0, hours.1);
    if repoLimitReject.Some? then repoLimitReject.value
    else
      var matchScore := CalcMatchScore(t.occupiedHours, t.repoHours);
      var scoreReject := MatchScoreReject(knobs.scoring, matchScore);
      if scoreReject.Some? then scoreReject.value
      else
        var baseR := Pricing.CalcBaseCost(knobs, t.occupiedHours, t.repoHours);
        if baseR.Err? then baseR.error
        else PricedQuote(cal, trip, knobs, rt, matchScore, baseR.value)
  }

  /** The reference meaning of `quoteOneItinerary`. */
  function QuoteOneItineraryOf(hav: Haversine, cal: Calendar, deps: PricingEngineDeps, now: real, payload: QuoteRequestPayload)
    : (r: Option<QuoteResult>)
    ensures r.Some? ==> IsRejection(r.value) || (r.value.status == StatusOk && r.value.rejectReasons.None?)
  {
    var route := RouteOf(hav, cal, deps, now, payload.trip, payload.knobs);
    if route.None? then None
    else if route.value.Err? then Some(route.value.error)
    else Some(QuoteRoute(cal, payload.trip, payload.knobs, route.value.value))
  }

  /** The first half of `quoteOneItinerary`, up to the timed legs, with its early returns. */
  method PlanRoute(hav: Haversine, cal: Calendar, deps: PricingEngineDeps, now: real, trip: TripInput, knobs: PricingKnobs)
    returns (route: Option<Result<Route>>)
    ensures route == RouteOf(hav, cal, deps, now, trip, knobs)
  {
    var occupiedLegs := BuildOccupiedLegs(trip);
    var itineraryStart := trip.from;
    var itineraryEnd := occupiedLegs[|occupiedLegs| - 1].to;

    var eligibility := Eligibility.RunEligibility(cal, trip, knobs.eligibility, now);
    if eligibility.Some? {
      return Some(Err(eligibility.value));
    }

    var needsVhbList := knobs.repo.mode == VhbNetwork ||
      (knobs.discounts.vhbDiscount.Some? && knobs.discounts.vhbDiscount.value.mode != NoVhbDiscount);
    var vhbCandidates := if needsVhbList then Repo.ResolveVhbCandidates(knobs.repo) else [];

    var repoR := Repo.BuildRepoLegs(hav, itineraryStart, itineraryEnd, knobs.repo, vhbCandidates);
    if repoR.Err? {
      return Some(Err(repoR.error));
    }
    var repoBuild := repoR.value;

    var allLegs := repoBuild.legsOut + occupiedLegs + repoBuild.legsBack;

    var actualSeconds := FlightTime.CalcFlightSeconds(hav, allLegs, trip.category, deps.calculateFlightSeconds);
    if actualSeconds.None? {
      return None;
    }

    var timeR := TimeRules.ApplyTimeAdjustments(hav, cal, trip, knobs.time, allLegs, actualSeconds.value);
    if timeR.Err? {
      return Some(Err(timeR.error));
    }
    route := Some(Ok(Route(occupiedLegs, vhbCandidates, repoBuild, allLegs, timeR.value)));
  }

  /** The ledger of `quoteOneItinerary`, built by successive pushes onto the base items. */
  method PriceItinerary(
    trip: TripInput, knobs: PricingKnobs, vhbCandidates: seq<Airport>,
    base: Pricing.BaseCost, fees: seq<LineItem>) returns (lineItems: seq<LineItem>)
    ensures lineItems == PricedItems(trip, knobs, vhbCandidates, base, fees)
  {
    lineItems := [Item(BaseOccupied, base.baseOccupied), Item(BaseRepo, base.baseRepo)];
    if knobs.scoring.Some? && knobs.scoring.value.enabled {
      lineItems := lineItems + [Item(InfoMatchScore, 0.0)];
    }
    assert lineItems == BaseItems(knobs, base);
    lineItems := lineItems + fees;
    lineItems := lineItems + VhbItems(trip, knobs, vhbCandidates, base, lineItems);
  }

  /** The second half of `quoteOneItinerary`, from the repo limits to the result record. */
  method QuoteTimedRoute(cal: Calendar, trip: TripInput, knobs: PricingKnobs, rt: Route) returns (q: QuoteResult)
    ensures q == QuoteRoute(cal, trip, knobs, rt)
  {
    var t := rt.timed;
    var repoLegs := OfKind(t.legsWithTime, Repo);
    var k := if |rt.plan.legsOut| <= |repoLegs| then |rt.plan.legsOut| else |repoLegs|;
    var repoOutHours := SumAdjustedHours(repoLegs[..k]);
    var repoBackHours := SumAdjustedHours(repoLegs[k..]);

    var repoLimitReject := Repo.EnforceRepoConstraints(knobs.repo.constraints, repoOutHours, repoBackHours);
    if repoLimitReject.Some? {
      return repoLimitReject.value;
    }

    var matchScore := CalcMatchScore(t.occupiedHours, t.repoHours);
    var matchCfg := knobs.scoring;
    if matchCfg.Some? && matchCfg.value.enabled && matchScore.Some? {
      if matchScore.value < matchCfg.value.threshold && matchCfg.value.action == RejectLowScore {
        return Reject(MatchScoreTooLow, "scoring.matchScore.threshold");
      }
    }

    var baseR := Pricing.CalcBaseCost(knobs, t.occupiedHours, t.repoHours);
    if baseR.Err? {
      return baseR.error;
    }

    var fees := Fees.CalcFees(cal, trip, knobs, t.legsWithTime);
    var lineItems := PriceItinerary(trip, knobs, rt.vhbCandidates, baseR.value, fees);
    var totals := Aggregation.SummarizeTotals(lineItems);
    var overnights := if trip.tripType == RoundTrip && Present(trip.returnLocalISO)
      then ComputeOvernights(cal, trip.departLocalISO, trip.returnLocalISO.value) else 0;
    var calendarDaysTouched := ComputeCalendarDaysTouched(cal, trip.departLocalISO,
      if trip.tripType == RoundTrip then trip.returnLocalISO else None);

    q := QuoteResult(
      status := StatusOk,
      rejectReasons := None,
      legs := Some(t.legsWithTime),
      times := Some(Times(t.occupiedHours, t.repoHours, t.totalHours, matchScore, Some(overnights), Some(calendarDaysTouched))),
      lineItems := Some(lineItems),
      totals := Some(totals));
  }

  /** `quoteOneItinerary`: the pipeline with early returns. */
  method QuoteOneItinerary(hav: Haversine, cal: Calendar, deps: PricingEngineDeps, now: real, payload: QuoteRequestPayload)
    returns (r: Option<QuoteResult>)
    ensures r == QuoteOneItineraryOf(hav, cal, deps, now, payload)
  {
    var route := PlanRoute(hav, cal, deps, now, payload.trip, payload.knobs);
    if route.None? {
      return None;
    }
    if route.value.Err? {
      return Some(route.value.error);
    }
    var q := QuoteTimedRoute(cal, payload.trip, payload.knobs, route.value.value);
    r := Some(q);
  }

  /* ---------------------------------- The engine ---------------------------------- */

  /** The reference meaning of `quoteEngine`; `clock` is the wall clock used when no `now` is injected. */
  function QuoteEngineOf(hav: Haversine, cal: Calendar, deps: PricingEngineDeps, clock: real, payload: QuoteRequestPayload)
    : Option<QuoteResult>
  {
    var now := deps.now.GetOr(clock);
    var basic := ValidateBasics(payload);
    if basic.Some? then basic
    else if ShouldSplit(cal, payload) then
      SplitOutcome(QuoteOneItineraryOf(hav, cal, deps, now, OutboundRequest(payload)),
                   QuoteOneItineraryOf(hav, cal, deps, now, ReturnRequest(payload)))
    else QuoteOneItineraryOf(hav, cal, deps, now, payload)
  }

  /**
   * Combining the two halves of a split: a failed or rejected outbound half
   * wins, then a failed or rejected return half, otherwise their merge.
   */
  function SplitOutcome(out: Option<QuoteResult>, back: Option<QuoteResult>): (r: Option<QuoteResult>)
    ensures out.None? || out.value.status == StatusRejected ==> r == out
    ensures out.Some? && out.value.status != StatusRejected && (back.None? || back.value.status == StatusRejected) ==> r == back
    ensures out.Some? && out.value.status != StatusRejected && back.Some? && back.value.status != StatusRejected ==>
      r.Some? && r.value.status == StatusOk &&
      r.value.rejectReasons == Some([Reason(InfoSplit, None)]) &&
      r.value.lineItems == Some(Aggregation.Merged(out.value.lineItems.GetOr([]), back.value.lineItems.GetOr([])))
  {
    if out.None? || out.value.status == StatusRejected then out
    else if back.None? || back.value.status == StatusRejected then back
    else
      assert Aggregation.HasNote(Some(SplitNote));
      Some(Aggregation.SumTwoQuotes(out.value, back.value, Some(SplitNote)))
  }

  /** The split branch of `quoteEngine`: the outbound half, then (unless it failed or was rejected) the return half, then their merge. */
  method QuoteSplit(hav: Haversine, cal: Calendar, deps: PricingEngineDeps, now: real, payload: QuoteRequestPayload)
    returns (r: Option<QuoteResult>)
    requires payload.trip.returnLocalISO.Some?
    ensures r == SplitOutcome(QuoteOneItineraryOf(hav, cal, deps, now, OutboundRequest(payload)),
                              QuoteOneItineraryOf(hav, cal, deps, now, ReturnRequest(payload)))
  {
    var outReq := OutboundRequest(payload);
    var backReq := ReturnRequest(payload);

    var out := QuoteOneItinerary(hav, cal, deps, now, outReq);
    if out.None? || out.value.status == StatusRejected {
      return out;
    }

    var back := QuoteOneItinerary(hav, cal, deps, now, backReq);
    if back.None? || back.value.status == StatusRejected {
      return back;
    }

    return Some(Aggregation.SumTwoQuotes(out.value, back.value, Some(SplitNote)));
  }

  /** `quoteEngine`: validates, splits a long round trip into two one-ways, or quotes one itinerary. */
  method QuoteEngine(hav: Haversine, cal: Calendar, deps: PricingEngineDeps, clock: real, payload: QuoteRequestPayload)
    returns (r: Option<QuoteResult>)
    ensures r == QuoteEngineOf(hav, cal, deps, clock, payload)
  {
    var now := deps.now.GetOr(clock);

    var basic := ValidateBasics(payload);
    if basic.Some? {
      return basic;
    }

    if payload.trip.tripType == RoundTrip && Present(payload.trip.returnLocalISO) {
      var overnights := ComputeOvernights(cal, payload.trip.departLocalISO, payload.trip.returnLocalISO.value);
      var splitThreshold := SplitThreshold(payload.knobs);
      if splitThreshold.Some? && overnights as real > splitThreshold.value {
        assert ShouldSplit(cal, payload);
        r := QuoteSplit(hav, cal, deps, now, payload);
        return;
      }
    }
    assert !ShouldSplit(cal, payload);
    r := QuoteOneItinerary(hav, cal, deps, now, payload);
  }

  /* ---------------------------------- Properties ---------------------------------- */

  /** An eligibility failure is returned as is, before any repositioning or timing. */
  lemma EligibilityDecidesFirst(hav: Haversine, cal: Calendar, deps: PricingEngineDeps, now: real, payload: QuoteRequestPayload)
    requires Eligibility.RunEligibilityChecks(cal, payload.trip, payload.knobs.eligibility, now).Some?
    ensures QuoteOneItineraryOf(hav, cal, deps, now, payload) ==
      Eligibility.RunEligibilityChecks(cal, payload.trip, payload.knobs.eligibility, now)
  {
  }

  /**
   * A successful quote's legs are the timed repo-out ++ occupied ++ repo-back
   * legs, each keeping its kind and endpoints; its totals summarize its items,
   * which open with the two base items.
   */
  lemma SuccessShape(hav: Haversine, cal: Calendar, deps: PricingEngineDeps, now: real, payload: QuoteRequestPayload)
    requires QuoteOneItineraryOf(hav, cal, deps, now, payload).Some?
    requires QuoteOneItineraryOf(hav, cal, deps, now, payload).value.status == StatusOk
    ensures var route := RouteOf(hav, cal, deps, now, payload.trip, payload.knobs);
      route.Some? && route.value.Ok? &&
      var rt := route.value.value;
      var q := QuoteOneItineraryOf(hav, cal, deps, now, payload).value;
      rt.allLegs == rt.plan.legsOut + BuildOccupiedLegs(payload.trip) + rt.plan.legsBack &&
      q.legs == Some(rt.timed.legsWithTime) &&
      |rt.timed.legsWithTime| == |rt.allLegs| &&
      (forall i :: 0 <= i < |rt.allLegs| ==>
        rt.timed.legsWithTime[i].kind == rt.allLegs[i].kind &&
        rt.timed.legsWithTime[i].from == rt.allLegs[i].from &&
        rt.timed.legsWithTime[i].to == rt.allLegs[i].to) &&
      q.lineItems.Some? && |q.lineItems.value| >= 2 &&
      q.lineItems.value[0].code == BaseOccupied && q.lineItems.value[1].code == BaseRepo &&
      q.totals == Some(Aggregation.SummarizeTotals(q.lineItems.value)) &&
      q.rejectReasons.None?
  {
    var route := RouteOf(hav, cal, deps, now, payload.trip, payload.knobs);
    assert route.Some? && route.value.Ok?;
    assert QuoteOneItineraryOf(hav, cal, deps, now, payload).value ==
      QuoteRoute(cal, payload.trip, payload.knobs, route.value.value);
  }

  /** Every outcome of one itinerary is either OK without reasons or a single-reason rejection. */
  lemma OneItineraryStatus(hav: Haversine, cal: Calendar, deps: PricingEngineDeps, now: real, payload: QuoteRequestPayload)
    requires QuoteOneItineraryOf(hav, cal, deps, now, payload).Some?
    ensures var q := QuoteOneItineraryOf(hav, cal, deps, now, payload).value;
      IsRejection(q) || (q.status == StatusOk && q.rejectReasons.None?)
  {
  }

  /** Base items, fees, and what follows them: only the middle part is in the fee bucket. */
  lemma FeeBucketOfLedger(baseItems: seq<LineItem>, fees: seq<LineItem>, rest: seq<LineItem>)
    requires forall it :: it in baseItems ==> !IsFeeCode(it.code)
    requires forall it :: it in fees ==> IsFeeCode(it.code)
    requires forall it :: it in rest ==> !IsFeeCode(it.code)
    ensures Aggregation.Select(baseItems + fees + rest, Aggregation.FeeBucket) == fees
  {
    Aggregation.SelectNone(baseItems, Aggregation.FeeBucket);
    Aggregation.SelectNone(rest, Aggregation.FeeBucket);
    forall i | 0 <= i < |fees| ensures Aggregation.Selects(Aggregation.FeeBucket, fees[i]) {
      assert fees[i] in fees;
    }
    Aggregation.SelectAllSelected(fees, Aggregation.FeeBucket);
    Aggregation.SelectConcat(baseItems, fees, Aggregation.FeeBucket);
    Aggregation.SelectConcat(baseItems + fees, rest, Aggregation.FeeBucket);
    assert [] + fees + [] == fees;
  }

  /** The fee bucket of a ledger is exactly its fee items. */
  lemma FeeBucketIsFees(trip: TripInput, knobs: PricingKnobs, vhbCandidates: seq<Airport>,
                        base: Pricing.BaseCost, fees: seq<LineItem>)
    requires forall it :: it in fees ==> IsFeeCode(it.code)
    ensures Aggregation.Select(PricedItems(trip, knobs, vhbCandidates, base, fees), Aggregation.FeeBucket) == fees
  {
    var baseItems := BaseItems(knobs, base);
    var beforeDiscount := baseItems + fees;
    var rest := VhbItems(trip, knobs, vhbCandidates, base, beforeDiscount);
    assert PricedItems(trip, knobs, vhbCandidates, base, fees) == baseItems + fees + rest;
    FeeCodes(BaseOccupied);
    FeeCodes(BaseRepo);
    FeeCodes(InfoMatchScore);
    FeeCodes(DiscountVhb);
    assert forall it :: it in baseItems ==> it.code in {BaseOccupied, BaseRepo, InfoMatchScore};
    assert forall it :: it in rest ==> it.code == DiscountVhb;
    FeeBucketOfLedger(baseItems, fees, rest);
  }

  /** The fee bucket of a priced itinerary is exactly the output of the fee engine. */
  lemma ItineraryFeeBucket(cal: Calendar, trip: TripInput, knobs: PricingKnobs, vhbCandidates: seq<Airport>,
                           legs: seq<Leg>, base: Pricing.BaseCost)
    ensures var fees := Fees.FeesOf(cal, trip, knobs, legs);
      Aggregation.Select(PricedItems(trip, knobs, vhbCandidates, base, fees), Aggregation.FeeBucket) == fees
  {
    Fees.FeeItemsAreFees(cal, trip, knobs, legs);
    FeeBucketIsFees(trip, knobs, vhbCandidates, base, Fees.FeesOf(cal, trip, knobs, legs));
  }

  /** A long round trip whose outbound half is rejected returns that rejection unchanged. */
  lemma SplitOutboundRejectionWins(hav: Haversine, cal: Calendar, deps: PricingEngineDeps, clock: real, payload: QuoteRequestPayload)
    requires ValidateBasics(payload).None? && ShouldSplit(cal, payload)
    requires var out := QuoteOneItineraryOf(hav, cal, deps, deps.now.GetOr(clock), OutboundRequest(payload));
      out.Some? && out.value.status == StatusRejected
    ensures QuoteEngineOf(hav, cal, deps, clock, payload) ==
      QuoteOneItineraryOf(hav, cal, deps, deps.now.GetOr(clock), OutboundRequest(payload))
  {
  }

  /**
   * When both halves succeed, the result is their merge: status OK, the
   * outbound items then the return items, and a single `INFO_SPLIT` reason.
   */
  lemma SplitMerges(hav: Haversine, cal: Calendar, deps: PricingEngineDeps, clock: real, payload: QuoteRequestPayload)
    requires ValidateBasics(payload).None? && ShouldSplit(cal, payload)
    requires var now := deps.now.GetOr(clock);
      var out := QuoteOneItineraryOf(hav, cal, deps, now, OutboundRequest(payload));
      var back := QuoteOneItineraryOf(hav, cal, deps, now, ReturnRequest(payload));
      out.Some? && out.value.status == StatusOk && back.Some? && back.value.status == StatusOk
    ensures var now := deps.now.GetOr(clock);
      var out := QuoteOneItineraryOf(hav, cal, deps, now, OutboundRequest(payload)).value;
      var back := QuoteOneItineraryOf(hav, cal, deps, now, ReturnRequest(payload)).value;
      var r := QuoteEngineOf(hav, cal, deps, clock, payload);
      r.Some? && r.value.status == StatusOk &&
      r.value.rejectReasons == Some([Reason(InfoSplit, None)]) &&
      r.value.lineItems == Some(Aggregation.Merged(out.lineItems.GetOr([]), back.lineItems.GetOr([])))
  {
    SplitIsOutcome(hav, cal, deps, clock, payload);
  }

  /** A valid request that is split is answered by combining its two halves. */
  lemma SplitIsOutcome(hav: Haversine, cal: Calendar, deps: PricingEngineDeps, clock: real, payload: QuoteRequestPayload)
    requires ValidateBasics(payload).None? && ShouldSplit(cal, payload)
    ensures var now := deps.now.GetOr(clock);
      QuoteEngineOf(hav, cal, deps, clock, payload) ==
        SplitOutcome(QuoteOneItineraryOf(hav, cal, deps, now, OutboundRequest(payload)),
                     QuoteOneItineraryOf(hav, cal, deps, now, ReturnRequest(payload)))
  {
  }

  /** A trip that is not split is quoted as one itinerary. */
  lemma NoSplitIsOneItinerary(hav: Haversine, cal: Calendar, deps: PricingEngineDeps, clock: real, payload: QuoteRequestPayload)
    requires ValidateBasics(payload).None? && !ShouldSplit(cal, payload)
    ensures QuoteEngineOf(hav, cal, deps, clock, payload) == QuoteOneItineraryOf(hav, cal, deps, deps.now.GetOr(clock), payload)
  {
  }

  /** A request that fails basic validation is answered with that rejection before anything else runs. */
  lemma BasicsComeFirst(hav: Haversine, cal: Calendar, deps: PricingEngineDeps, clock: real, payload: QuoteRequestPayload)
    requires ValidateBasics(payload).Some?
    ensures QuoteEngineOf(hav, cal, deps, clock, payload) == ValidateBasics(payload)
    ensures IsRejection(ValidateBasics(payload).value)
  {
  }
}
