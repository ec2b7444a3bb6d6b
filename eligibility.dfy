/**
 * The eligibility gate: fail-fast checks in a fixed order (domestic-only,
 * excluded states, advance-booking window, passenger cap, then each geography
 * rule in list order). The first failing check decides the rejection.
 */
module Eligibility {
  import opened Wrappers
  import opened Text
  import opened QuoteRequest
  import opened QuoteResult
  import opened Utils

  /** `1e-9`, the tolerance of the advance-booking comparison. */
  const Epsilon: real := 0.000000001

  /** Every string of `xs`, upper-cased (the contents of `new Set(xs.map(toUpperCase))`). */
  function UpperAll(xs: seq<string>): (r: seq<string>)
    ensures |r| == |xs| && forall i :: 0 <= i < |xs| ==> r[i] == Upper(xs[i])
  {
    seq(|xs|, i requires 0 <= i < |xs| => Upper(xs[i]))
  }

  /** `s` is one of `xs` once upper-cased. */
  predicate Listed(s: string, xs: seq<string>) {
    exists x :: x in xs && Upper(x) == s
  }

  lemma ListedIsUpperMember(s: string, xs: seq<string>)
    ensures s in UpperAll(xs) <==> Listed(s, xs)
  {
    var u := UpperAll(xs);
    if s in u {
      var i :| 0 <= i < |u| && u[i] == s;
      assert xs[i] in xs;
    }
    if Listed(s, xs) {
      var x :| x in xs && Upper(x) == s;
      var i :| 0 <= i < |xs| && xs[i] == x;
      assert u[i] == s;
    }
  }

  /* ------------------------------ Single checks ------------------------------ */

  /** An endpoint's country for the domestic check: missing counts as "US". */
  function DomesticCountry(a: Airport): string { Upper(a.country.GetOr("US")) }

  predicate DomesticFails(trip: TripInput) {
    DomesticCountry(trip.from) != "US" || DomesticCountry(trip.to) != "US"
  }

  /** An endpoint's state, upper-cased; missing counts as "" (never excluded). */
  function StateOf(a: Airport): string { Upper(a.state.GetOr("")) }

  predicate IsExcludedState(s: string, excludeStates: seq<string>) {
    s != "" && s in UpperAll(excludeStates)
  }

  predicate StatesFail(trip: TripInput, excludeStates: seq<string>) {
    |excludeStates| > 0 &&
    (IsExcludedState(StateOf(trip.from), excludeStates) || IsExcludedState(StateOf(trip.to), excludeStates))
  }

  /** Days from `now` to the departure instant (not rounded). */
  function DaysUntilDeparture(cal: Calendar, trip: TripInput, now: real): real {
    cal.instant(trip.departLocalISO) - now
  }

  predicate AdvanceFails(cal: Calendar, trip: TripInput, now: real, maxAdvanceDays: Option<real>) {
    maxAdvanceDays.Some? && DaysUntilDeparture(cal, trip, now) > maxAdvanceDays.value + Epsilon
  }

  predicate PaxFails(trip: TripInput, maxPassengers: Option<real>) {
    maxPassengers.Some? && trip.passengers.Some? && trip.passengers.value > maxPassengers.value
  }

  /** An endpoint's country for the allowed-countries rule: missing counts as "" (always allowed). */
  function CountryOf(a: Airport): string { Upper(a.country.GetOr("")) }

  predicate IsDisallowedCountry(c: string, countries: seq<string>) {
    c != "" && c !in UpperAll(countries)
  }

  /** Whether both endpoints lie on the side a Mississippi requirement names. */
  predicate BothOn(req: BothSides, fromSide: Side, toSide: Side) {
    (req == BothEast && fromSide == East && toSide == East) ||
    (req == BothWest && fromSide == West && toSide == West)
  }

  const GeoPath := "eligibility.geoRules"

  /** Overnights of a round trip with a return, as the Mississippi rule compares them. */
  function Nights(cal: Calendar, trip: TripInput): real
    requires trip.returnLocalISO.Some?
  {
    ComputeOvernights(cal, trip.departLocalISO, trip.returnLocalISO.value) as real
  }

  /** One geography rule; `None` when it passes. */
  function GeoRuleCheck(cal: Calendar, trip: TripInput, rule: GeoRule): Option<QuoteResult> {
    match rule
    case AllowedCountries(countries) =>
      if IsDisallowedCountry(CountryOf(trip.from), countries) || IsDisallowedCountry(CountryOf(trip.to), countries)
      then Some(Reject(CountryNotAllowed, GeoPath))
      else None
    case MississippiRule(oneWay, upToNights, upToSide, beyond) =>
      var fromSide := trip.from.direction;
      var toSide := trip.to.direction;
      if trip.tripType == OneWay then
        if !BothOn(oneWay, fromSide, toSide) then Some(Reject(GeoRuleFail, GeoPath)) else None
      else if !Present(trip.returnLocalISO) then
        Some(Reject(MissingReturn, "trip.returnLocalISO"))
      else
        if Nights(cal, trip) <= upToNights then
          if fromSide != upToSide then Some(Reject(GeoRuleFail, GeoPath)) else None
        else
          if !BothOn(beyond, fromSide, toSide) then Some(Reject(GeoRuleFail, GeoPath)) else None
  }

  /** The geography rules in list order; the first failure is returned. */
  function GeoRulesCheck(cal: Calendar, trip: TripInput, rules: seq<GeoRule>): Option<QuoteResult> {
    if |rules| == 0 then None
    else
      var r := GeoRuleCheck(cal, trip, rules[0]);
      if r.Some? then r else GeoRulesCheck(cal, trip, rules[1..])
  }

  /** `runEligibilityChecks`: `None` when the trip is eligible. */
  function RunEligibilityChecks(cal: Calendar, trip: TripInput, e: EligibilityKnobs, now: real): Option<QuoteResult> {
    if e.domesticOnly && DomesticFails(trip) then
      Some(Reject(DomesticOnlyCode, "eligibility.domesticOnly"))
    else if StatesFail(trip, e.excludeStates) then
      Some(Reject(StateExcluded, "eligibility.excludeStates"))
    else if AdvanceFails(cal, trip, now, e.maxAdvanceDays) then
      Some(Reject(AdvanceTooFar, "eligibility.maxAdvanceDays"))
    else if PaxFails(trip, e.maxPassengers) then
      Some(Reject(PaxLimit, "eligibility.maxPassengers"))
    else
      GeoRulesCheck(cal, trip, e.geoRules)
  }

  /** `runEligibilityChecks` as the source runs it, the geography rules by a loop with early return. */
  method RunEligibility(cal: Calendar, trip: TripInput, e: EligibilityKnobs, now: real) returns (r: Option<QuoteResult>)
    ensures r == RunEligibilityChecks(cal, trip, e, now)
  {
    if e.domesticOnly && DomesticFails(trip) {
      return Some(Reject(DomesticOnlyCode, "eligibility.domesticOnly"));
    }
    if StatesFail(trip, e.excludeStates) {
      return Some(Reject(StateExcluded, "eligibility.excludeStates"));
    }
    if AdvanceFails(cal, trip, now, e.maxAdvanceDays) {
      return Some(Reject(AdvanceTooFar, "eligibility.maxAdvanceDays"));
    }
    if PaxFails(trip, e.maxPassengers) {
      return Some(Reject(PaxLimit, "eligibility.maxPassengers"));
    }
    var rules := e.geoRules;
    var i := 0;
    while i < |rules|
      invariant 0 <= i <= |rules|
      invariant GeoRulesCheck(cal, trip, rules) == GeoRulesCheck(cal, trip, rules[i..])
    {
      assert rules[i..][1..] == rules[i + 1..];
      var failed := GeoRuleCheck(cal, trip, rules[i]);
      if failed.Some? {
        return failed;
      }
      i := i + 1;
    }
    return None;
  }

  lemma {:induction false} GeoRulesReject(cal: Calendar, trip: TripInput, rules: seq<GeoRule>)
    ensures GeoRulesCheck(cal, trip, rules).Some? ==> IsRejection(GeoRulesCheck(cal, trip, rules).value)
    decreases |rules|
  {
    if |rules| > 0 {
      GeoRulesReject(cal, trip, rules[1..]);
    }
  }

  /** Whatever check fails, the gate answers with a single-reason rejection. */
  lemma EligibilityRejects(cal: Calendar, trip: TripInput, e: EligibilityKnobs, now: real)
    ensures RunEligibilityChecks(cal, trip, e, now).Some? ==> IsRejection(RunEligibilityChecks(cal, trip, e, now).value)
  {
    GeoRulesReject(cal, trip, e.geoRules);
  }

  /* ------------------------ Reference: a list of stages ------------------------ */

  /** The gate as data: the stages in the order they run. */
  datatype Stage = DomesticStage | StatesStage | AdvanceStage | PaxStage | GeoStage(rule: GeoRule)

  function GeoStages(rules: seq<GeoRule>): (ss: seq<Stage>)
    ensures |ss| == |rules| && forall i :: 0 <= i < |rules| ==> ss[i] == GeoStage(rules[i])
  {
    seq(|rules|, i requires 0 <= i < |rules| => GeoStage(rules[i]))
  }

  function Stages(e: EligibilityKnobs): (ss: seq<Stage>)
    ensures |ss| == 4 + |e.geoRules|
  {
    [DomesticStage, StatesStage, AdvanceStage, PaxStage] + GeoStages(e.geoRules)
  }

  /** What a stage rejects with when it fails, on its own. */
  function StageOutcome(cal: Calendar, trip: TripInput, e: EligibilityKnobs, now: real, s: Stage): Option<QuoteResult> {
    match s
    case DomesticStage =>
      if e.domesticOnly && DomesticFails(trip) then Some(Reject(DomesticOnlyCode, "eligibility.domesticOnly")) else None
    case StatesStage =>
      if StatesFail(trip, e.excludeStates) then Some(Reject(StateExcluded, "eligibility.excludeStates")) else None
    case AdvanceStage =>
      if AdvanceFails(cal, trip, now, e.maxAdvanceDays) then Some(Reject(AdvanceTooFar, "eligibility.maxAdvanceDays")) else None
    case PaxStage =>
      if PaxFails(trip, e.maxPassengers) then Some(Reject(PaxLimit, "eligibility.maxPassengers")) else None
    case GeoStage(rule) => GeoRuleCheck(cal, trip, rule)
  }

  /** The outcome of the first failing stage, or `None`. */
  function FirstFailing(cal: Calendar, trip: TripInput, e: EligibilityKnobs, now: real, ss: seq<Stage>): Option<QuoteResult> {
    if |ss| == 0 then None
    else
      var r := StageOutcome(cal, trip, e, now, ss[0]);
      if r.Some? then r else FirstFailing(cal, trip, e, now, ss[1..])
  }

  lemma {:induction false} GeoRulesAreStages(cal: Calendar, trip: TripInput, e: EligibilityKnobs, now: real, rules: seq<GeoRule>)
    ensures GeoRulesCheck(cal, trip, rules) == FirstFailing(cal, trip, e, now, GeoStages(rules))
    decreases |rules|
  {
    if |rules| > 0 {
      GeoRulesAreStages(cal, trip, e, now, rules[1..]);
      assert GeoStages(rules)[1..] == GeoStages(rules[1..]);
    }
  }

  /** The gate returns the first failing stage's rejection, in source order. */
  lemma EligibilityIsFirstFailingStage(cal: Calendar, trip: TripInput, e: EligibilityKnobs, now: real)
    ensures RunEligibilityChecks(cal, trip, e, now) == FirstFailing(cal, trip, e, now, Stages(e))
  {
    var ss := Stages(e);
    var geo := GeoStages(e.geoRules);
    GeoRulesAreStages(cal, trip, e, now, e.geoRules);
    var s1 := ss[1..];
    var s2 := s1[1..];
    var s3 := s2[1..];
    var s4 := s3[1..];
    assert ss[0] == DomesticStage && s1[0] == StatesStage && s2[0] == AdvanceStage && s3[0] == PaxStage;
    assert s4 == geo;
    assert FirstFailing(cal, trip, e, now, s3) ==
      if PaxFails(trip, e.maxPassengers) then Some(Reject(PaxLimit, "eligibility.maxPassengers"))
      else FirstFailing(cal, trip, e, now, s4);
    assert FirstFailing(cal, trip, e, now, s2) ==
      if AdvanceFails(cal, trip, now, e.maxAdvanceDays) then Some(Reject(AdvanceTooFar, "eligibility.maxAdvanceDays"))
      else FirstFailing(cal, trip, e, now, s3);
    assert FirstFailing(cal, trip, e, now, s1) ==
      if StatesFail(trip, e.excludeStates) then Some(Reject(StateExcluded, "eligibility.excludeStates"))
      else FirstFailing(cal, trip, e, now, s2);
  }

  lemma {:induction false} FirstFailingNone(cal: Calendar, trip: TripInput, e: EligibilityKnobs, now: real, ss: seq<Stage>)
    ensures FirstFailing(cal, trip, e, now, ss).None? <==>
      forall k :: 0 <= k < |ss| ==> StageOutcome(cal, trip, e, now, ss[k]).None?
    decreases |ss|
  {
    if |ss| > 0 {
      FirstFailingNone(cal, trip, e, now, ss[1..]);
      assert forall k :: 1 <= k < |ss| ==> ss[k] == ss[1..][k - 1];
    }
  }

  /** A trip is eligible exactly when every stage passes. */
  lemma EligibleIffAllStagesPass(cal: Calendar, trip: TripInput, e: EligibilityKnobs, now: real)
    ensures RunEligibilityChecks(cal, trip, e, now).None? <==>
      forall k :: 0 <= k < |Stages(e)| ==> StageOutcome(cal, trip, e, now, Stages(e)[k]).None?
  {
    EligibilityIsFirstFailingStage(cal, trip, e, now);
    FirstFailingNone(cal, trip, e, now, Stages(e));
  }

  /* ------------------------- Properties of each check ------------------------- */

  /**
   * With domestic-only on, a non-US endpoint (missing = "US") rejects with
   * DOMESTIC_ONLY whatever the later checks say; otherwise no DOMESTIC_ONLY.
   */
  lemma DomesticOnlyDecides(cal: Calendar, trip: TripInput, e: EligibilityKnobs, now: real)
    ensures RunEligibilityChecks(cal, trip, e, now) == Some(Reject(DomesticOnlyCode, "eligibility.domesticOnly")) <==>
      e.domesticOnly && DomesticFails(trip)
  {
    GeoNeverEarlierCodes(cal, trip, e.geoRules);
  }

  /** The geography rules only ever reject with their own codes. */
  lemma {:induction false} GeoNeverEarlierCodes(cal: Calendar, trip: TripInput, rules: seq<GeoRule>)
    ensures GeoRulesCheck(cal, trip, rules).Some? ==>
      GeoRulesCheck(cal, trip, rules).value in
        {Reject(CountryNotAllowed, GeoPath), Reject(GeoRuleFail, GeoPath), Reject(MissingReturn, "trip.returnLocalISO")}
    decreases |rules|
  {
    if |rules| > 0 {
      GeoNeverEarlierCodes(cal, trip, rules[1..]);
    }
  }

  /**
   * Once the domestic check passes, STATE_EXCLUDED is returned exactly when a
   * non-empty endpoint state is in the (upper-cased) excluded list.
   */
  lemma StateExcludedDecides(cal: Calendar, trip: TripInput, e: EligibilityKnobs, now: real)
    requires !(e.domesticOnly && DomesticFails(trip))
    ensures RunEligibilityChecks(cal, trip, e, now) == Some(Reject(StateExcluded, "eligibility.excludeStates")) <==>
      |e.excludeStates| > 0 &&
      ((StateOf(trip.from) != "" && Listed(StateOf(trip.from), e.excludeStates)) ||
       (StateOf(trip.to) != "" && Listed(StateOf(trip.to), e.excludeStates)))
  {
    GeoNeverEarlierCodes(cal, trip, e.geoRules);
    ListedIsUpperMember(StateOf(trip.from), e.excludeStates);
    ListedIsUpperMember(StateOf(trip.to), e.excludeStates);
  }

  /** After the first two checks pass, ADVANCE_TOO_FAR fires only beyond `maxAdvanceDays + 1e-9`. */
  lemma AdvanceDecides(cal: Calendar, trip: TripInput, e: EligibilityKnobs, now: real)
    requires !(e.domesticOnly && DomesticFails(trip)) && !StatesFail(trip, e.excludeStates)
    ensures RunEligibilityChecks(cal, trip, e, now) == Some(Reject(AdvanceTooFar, "eligibility.maxAdvanceDays")) <==>
      e.maxAdvanceDays.Some? && cal.instant(trip.departLocalISO) - now > e.maxAdvanceDays.value + Epsilon
  {
    GeoNeverEarlierCodes(cal, trip, e.geoRules);
  }

  /** After the first three checks pass, PAX_LIMIT needs both numbers and passengers > maximum. */
  lemma PaxDecides(cal: Calendar, trip: TripInput, e: EligibilityKnobs, now: real)
    requires !(e.domesticOnly && DomesticFails(trip)) && !StatesFail(trip, e.excludeStates)
    requires !AdvanceFails(cal, trip, now, e.maxAdvanceDays)
    ensures RunEligibilityChecks(cal, trip, e, now) == Some(Reject(PaxLimit, "eligibility.maxPassengers")) <==>
      e.maxPassengers.Some? && trip.passengers.Some? && trip.passengers.value > e.maxPassengers.value
  {
    GeoNeverEarlierCodes(cal, trip, e.geoRules);
  }

  /** When the first four checks pass, the outcome is that of the geography rules. */
  lemma GeoRulesDecide(cal: Calendar, trip: TripInput, e: EligibilityKnobs, now: real)
    requires !(e.domesticOnly && DomesticFails(trip)) && !StatesFail(trip, e.excludeStates)
    requires !AdvanceFails(cal, trip, now, e.maxAdvanceDays) && !PaxFails(trip, e.maxPassengers)
    ensures RunEligibilityChecks(cal, trip, e, now) == GeoRulesCheck(cal, trip, e.geoRules)
    ensures |e.geoRules| == 0 ==> RunEligibilityChecks(cal, trip, e, now).None?
  {
  }

  /** One-way Mississippi rule: passes iff both endpoints lie on the required side. */
  lemma MississippiOneWay(cal: Calendar, trip: TripInput, rule: GeoRule)
    requires rule.MississippiRule? && trip.tripType == OneWay
    ensures GeoRuleCheck(cal, trip, rule).None? <==>
      (rule.oneWayRequires == BothEast && trip.from.direction == East && trip.to.direction == East) ||
      (rule.oneWayRequires == BothWest && trip.from.direction == West && trip.to.direction == West)
    ensures GeoRuleCheck(cal, trip, rule).Some? ==> GeoRuleCheck(cal, trip, rule).value == Reject(GeoRuleFail, GeoPath)
  {
  }

  /**
   * Round-trip Mississippi rule: a missing return rejects MISSING_RETURN; up to
   * N overnights only the origin side is checked; beyond N both sides are.
   */
  lemma MississippiRoundTrip(cal: Calendar, trip: TripInput, rule: GeoRule)
    requires rule.MississippiRule? && trip.tripType == RoundTrip
    ensures !Present(trip.returnLocalISO) ==>
      GeoRuleCheck(cal, trip, rule) == Some(Reject(MissingReturn, "trip.returnLocalISO"))
    ensures Present(trip.returnLocalISO) && Nights(cal, trip) <= rule.roundTripUpToNightsRequiresOrigin ==>
      (GeoRuleCheck(cal, trip, rule).None? <==> trip.from.direction == rule.roundTripUpToNightsSide)
    ensures Present(trip.returnLocalISO) && Nights(cal, trip) > rule.roundTripUpToNightsRequiresOrigin ==>
      (GeoRuleCheck(cal, trip, rule).None? <==>
        BothOn(rule.roundTripBeyondNightsRequires, trip.from.direction, trip.to.direction))
  {
  }

  /** Allowed countries: passes iff every non-empty endpoint country is listed (case-insensitively). */
  lemma AllowedCountriesRule(cal: Calendar, trip: TripInput, countries: seq<string>)
    ensures GeoRuleCheck(cal, trip, AllowedCountries(countries)).None? <==>
      (CountryOf(trip.from) != "" ==> Listed(CountryOf(trip.from), countries)) &&
      (CountryOf(trip.to) != "" ==> Listed(CountryOf(trip.to), countries))
  {
    ListedIsUpperMember(CountryOf(trip.from), countries);
    ListedIsUpperMember(CountryOf(trip.to), countries);
  }
}
