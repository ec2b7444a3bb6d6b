/**
 * The fee engine: ground handling, high-density airport fees, landing fees,
 * overnight fees and daily fees, each a single line item when it is charged.
 */
module Fees {
  import opened Wrappers
  import opened Text
  import opened QuoteRequest
  import opened QuoteResult
  import opened Utils

  /** The order in which the fees are appended; 5 for anything that is not one of them. */
  function FeeRank(c: ItemCode): nat {
    match c
    case FeeGroundHandling => 0
    case FeeHighDensity => 1
    case FeeLanding => 2
    case FeeOvernight => 3
    case FeeDaily => 4
    case _ => 5
  }

  /**
   * The amount a fee section may push: positive, except the overnight fee,
   * which the code pushes before looking at its rounded amount and so may be 0.
   */
  predicate FeeAmount(code: ItemCode, amount: real) {
    if code == FeeOvernight then amount >= 0.0 else amount > 0.0
  }

  /** A fee section's output: nothing, or one item of `code` with a whole-cent amount it may push. */
  predicate OneFee(items: seq<LineItem>, code: ItemCode) {
    |items| <= 1 &&
    forall i :: 0 <= i < |items| ==> items[i] == Item(code, items[i].amount) && FeeAmount(code, items[i].amount) && IsCents(items[i].amount)
  }

  /* ------------------------------ Ground handling ------------------------------ */

  /** Segments charged: every leg for `all_legs`, otherwise (the default) the occupied legs. */
  function GroundSegments(gh: GroundHandling, legs: seq<Leg>): nat {
    if gh.appliesTo == Some(AllLegs) then |legs| else |OfKind(legs, Occupied)|
  }

  /** Ground handling: `roundMoney(segments × perSegmentAmount)`, charged when positive. */
  function GroundItems(knobs: PricingKnobs, legs: seq<Leg>): (items: seq<LineItem>)
    ensures OneFee(items, FeeGroundHandling)
    ensures |items| == 1 <==>
      knobs.fees.groundHandling.Some? && knobs.fees.groundHandling.value.perSegmentAmount != 0.0 &&
      Charge(GroundSegments(knobs.fees.groundHandling.value, legs) as real, knobs.fees.groundHandling.value.perSegmentAmount) > 0.0
    ensures |items| == 1 ==>
      items[0].amount == Charge(GroundSegments(knobs.fees.groundHandling.value, legs) as real, knobs.fees.groundHandling.value.perSegmentAmount)
  {
    var gh := knobs.fees.groundHandling;
    if gh.None? || gh.value.perSegmentAmount == 0.0 then []
    else
      var amount := Charge(GroundSegments(gh.value, legs) as real, gh.value.perSegmentAmount);
      if amount > 0.0 then [Item(FeeGroundHandling, amount)] else []
  }

  /* ------------------------------- High density ------------------------------- */

  function Hit(b: bool): nat { if b then 1 else 0 }

  /**
   * Visits one leg makes to high-density airports: both ends of an occupied leg
   * for `segment_endpoints`, the arrival of an occupied leg for
   * `arrivals_only`, the arrival of any leg for `landings`.
   */
  function LegVisits(hd: HighDensity, l: Leg): nat {
    match hd.countingMode
    case SegmentEndpoints =>
      if l.kind == Occupied then Hit(HasIcao(hd.airports, l.from.icao)) + Hit(HasIcao(hd.airports, l.to.icao)) else 0
    case ArrivalsOnly =>
      if l.kind == Occupied then Hit(HasIcao(hd.airports, l.to.icao)) else 0
    case Landings =>
      Hit(HasIcao(hd.airports, l.to.icao))
  }

  function Visits(hd: HighDensity, legs: seq<Leg>): nat {
    if |legs| == 0 then 0 else LegVisits(hd, legs[0]) + Visits(hd, legs[1..])
  }

  /** The extra visit charged to a round trip that starts at a high-density airport. */
  function OriginDoubleCharge(hd: HighDensity, trip: TripInput): nat {
    Hit(trip.tripType == RoundTrip && hd.roundTripOriginDoubleCharge && HasIcao(hd.airports, trip.from.icao))
  }

  function HdVisits(hd: HighDensity, trip: TripInput, legs: seq<Leg>): nat {
    Visits(hd, legs) + OriginDoubleCharge(hd, trip)
  }

  /** `min(visits × feePerVisit, tripCap)`, the cap applying only when set. */
  function CappedAmount(hd: HighDensity, visits: nat): (a: real)
    ensures hd.tripCap.Some? ==> a <= hd.tripCap.value
    ensures hd.tripCap.None? ==> a == visits as real * hd.feePerVisit
  {
    var raw := visits as real * hd.feePerVisit;
    if hd.tripCap.Some? then Min(raw, hd.tripCap.value) else raw
  }

  /** The high-density amount: the capped amount rounded to cents. */
  function HdAmount(hd: HighDensity, visits: nat): (amount: real)
    ensures IsCents(amount)
    ensures hd.tripCap.Some? ==> amount <= hd.tripCap.value + 0.005
    ensures hd.tripCap.None? ==> amount == RoundMoney(visits as real * hd.feePerVisit)
  {
    RoundMoneyCents(CappedAmount(hd, visits));
    RoundMoney(CappedAmount(hd, visits))
  }

  /** High density: skipped when the fee per visit is 0 or the airport list is empty; charged when positive. */
  function HdItems(knobs: PricingKnobs, trip: TripInput, legs: seq<Leg>): (items: seq<LineItem>)
    ensures OneFee(items, FeeHighDensity)
    ensures |items| == 1 <==>
      knobs.fees.highDensity.Some? && knobs.fees.highDensity.value.feePerVisit != 0.0 &&
      |knobs.fees.highDensity.value.airports| > 0 &&
      HdAmount(knobs.fees.highDensity.value, HdVisits(knobs.fees.highDensity.value, trip, legs)) > 0.0
    ensures |items| == 1 ==>
      items[0].amount == HdAmount(knobs.fees.highDensity.value, HdVisits(knobs.fees.highDensity.value, trip, legs))
  {
    var hd := knobs.fees.highDensity;
    if hd.None? || hd.value.feePerVisit == 0.0 || |hd.value.airports| == 0 then []
    else
      var amount := HdAmount(hd.value, HdVisits(hd.value, trip, legs));
      if amount > 0.0 then [Item(FeeHighDensity, amount)] else []
  }

  /** Counting over the occupied legs only is the same as counting over all legs, outside `landings` mode. */
  lemma {:induction false} VisitsOfOccupied(hd: HighDensity, legs: seq<Leg>)
    requires hd.countingMode != Landings
    ensures Visits(hd, OfKind(legs, Occupied)) == Visits(hd, legs)
    decreases |legs|
  {
    if |legs| > 0 {
      VisitsOfOccupied(hd, legs[1..]);
      if legs[0].kind == Occupied {
        assert OfKind(legs, Occupied)[1..] == OfKind(legs[1..], Occupied);
      }
    }
  }

  /** A loop over `list` adding `LegVisits` per leg, starting from `start`. */
  method AddVisits(hd: HighDensity, list: seq<Leg>, start: nat) returns (visits: nat)
    ensures visits == start + Visits(hd, list)
  {
    visits := start;
    var k := 0;
    assert list[k..] == list;
    while k < |list|
      invariant 0 <= k <= |list|
      invariant visits + Visits(hd, list[k..]) == start + Visits(hd, list)
    {
      var leg := list[k];
      assert list[k..][1..] == list[k + 1..];
      match hd.countingMode {
        case SegmentEndpoints =>
          if leg.kind == Occupied {
            if HasIcao(hd.airports, leg.from.icao) { visits := visits + 1; }
            if HasIcao(hd.airports, leg.to.icao) { visits := visits + 1; }
          }
        case ArrivalsOnly =>
          if leg.kind == Occupied && HasIcao(hd.airports, leg.to.icao) { visits := visits + 1; }
        case Landings =>
          if HasIcao(hd.airports, leg.to.icao) { visits := visits + 1; }
      }
      k := k + 1;
    }
  }

  /**
   * The visit count of the high-density fee: the occupied legs' endpoints or
   * arrivals, or every leg's arrival, plus the round-trip origin surcharge.
   */
  method CountHdVisits(hd: HighDensity, trip: TripInput, legs: seq<Leg>) returns (visits: nat)
    ensures visits == HdVisits(hd, trip, legs)
  {
    if hd.countingMode == Landings {
      visits := AddVisits(hd, legs, 0);
    } else {
      visits := AddVisits(hd, OfKind(legs, Occupied), 0);
      VisitsOfOccupied(hd, legs);
    }
    if trip.tripType == RoundTrip && hd.roundTripOriginDoubleCharge {
      if HasIcao(hd.airports, trip.from.icao) {
        visits := visits + 1;
      }
    }
  }

  /* ---------------------------------- Landing ---------------------------------- */

  /** One landing: the override at a high-density arrival when the override is non-zero, else the default. */
  function LandingCharge(lf: LandingFees, l: Leg): real {
    if HasIcao(lf.hdAirports, l.to.icao) && lf.hdOverrideAmount.Some? && lf.hdOverrideAmount.value != 0.0
    then lf.hdOverrideAmount.value
    else lf.defaultAmount
  }

  function LandingTotal(lf: LandingFees, legs: seq<Leg>): real {
    if |legs| == 0 then 0.0 else LandingCharge(lf, legs[0]) + LandingTotal(lf, legs[1..])
  }

  predicate HomebaseMode(lf: LandingFees) {
    lf.conditionalLogic == Some(HomebaseConditional) && lf.homebase.Some?
  }

  /**
   * The legs charged a landing: in homebase-conditional mode the occupied legs
   * when the trip starts at the home base, else the first three legs;
   * otherwise the occupied legs for `arrivals_only` and every leg for the rest.
   */
  function ChargedLandings(lf: LandingFees, trip: TripInput, legs: seq<Leg>): (r: seq<Leg>)
    ensures HomebaseMode(lf) && SameCode(trip.from.icao, lf.homebase.value.icao) ==>
      forall l :: l in r ==> l in legs && l.kind == Occupied
    ensures HomebaseMode(lf) && !SameCode(trip.from.icao, lf.homebase.value.icao) ==>
      |r| == (if |legs| < 3 then |legs| else 3) && r == legs[..|r|]
    ensures !HomebaseMode(lf) && lf.countingMode == LandingArrivalsOnly ==>
      forall l :: l in r ==> l in legs && l.kind == Occupied
    ensures !HomebaseMode(lf) && lf.countingMode != LandingArrivalsOnly ==> r == legs
  {
    if HomebaseMode(lf) then
      if Upper(trip.from.icao) == Upper(lf.homebase.value.icao) then OfKind(legs, Occupied)
      else legs[..if |legs| < 3 then |legs| else 3]
    else if lf.countingMode == LandingArrivalsOnly then OfKind(legs, Occupied)
    else legs
  }

  /** Landing fees: the rounded total of the charged landings, present when positive. */
  function LandingItems(knobs: PricingKnobs, trip: TripInput, legs: seq<Leg>): (items: seq<LineItem>)
    ensures OneFee(items, FeeLanding)
    ensures |items| == 1 <==>
      knobs.fees.landingFees.Some? && knobs.fees.landingFees.value.defaultAmount != 0.0 &&
      RoundMoney(LandingTotal(knobs.fees.landingFees.value, ChargedLandings(knobs.fees.landingFees.value, trip, legs))) > 0.0
    ensures |items| == 1 ==>
      items[0].amount == RoundMoney(LandingTotal(knobs.fees.landingFees.value, ChargedLandings(knobs.fees.landingFees.value, trip, legs)))
  {
    var lf := knobs.fees.landingFees;
    if lf.None? || lf.value.defaultAmount == 0.0 then []
    else
      var amount := RoundMoney(LandingTotal(lf.value, ChargedLandings(lf.value, trip, legs)));
      RoundMoneyCents(LandingTotal(lf.value, ChargedLandings(lf.value, trip, legs)));
      if amount > 0.0 then [Item(FeeLanding, amount)] else []
  }

  /** Without high-density overrides in play, every charged landing costs the default amount. */
  lemma {:induction false} LandingFlatRate(lf: LandingFees, legs: seq<Leg>)
    requires forall i :: 0 <= i < |legs| ==> LandingCharge(lf, legs[i]) == lf.defaultAmount
    ensures LandingTotal(lf, legs) == |legs| as real * lf.defaultAmount
    decreases |legs|
  {
    if |legs| > 0 {
      assert forall i :: 0 <= i < |legs[1..]| ==> legs[1..][i] == legs[i + 1];
      LandingFlatRate(lf, legs[1..]);
    }
  }

  /** A loop over `list` adding each leg's landing charge. */
  method AddLandings(lf: LandingFees, list: seq<Leg>) returns (amount: real)
    ensures amount == LandingTotal(lf, list)
  {
    amount := 0.0;
    var k := 0;
    assert list[k..] == list;
    while k < |list|
      invariant 0 <= k <= |list|
      invariant amount + LandingTotal(lf, list[k..]) == LandingTotal(lf, list)
    {
      var leg := list[k];
      assert list[k..][1..] == list[k + 1..];
      var isHd := HasIcao(lf.hdAirports, leg.to.icao);
      amount := amount + (if isHd && lf.hdOverrideAmount.Some? && lf.hdOverrideAmount.value != 0.0 then lf.hdOverrideAmount.value else lf.defaultAmount);
      k := k + 1;
    }
  }

  /** The unrounded landing amount, looping over the charged legs and stopping after three away from the home base. */
  method SumLandingCharges(lf: LandingFees, trip: TripInput, legs: seq<Leg>) returns (amount: real)
    ensures amount == LandingTotal(lf, ChargedLandings(lf, trip, legs))
  {
    var conditionalLogic := lf.conditionalLogic.GetOr(StandardLanding);
    if conditionalLogic == HomebaseConditional && lf.homebase.Some? {
      var originIsHomebase := Upper(trip.from.icao) == Upper(lf.homebase.value.icao);
      if originIsHomebase {
        amount := AddLandings(lf, OfKind(legs, Occupied));
      } else {
        ghost var n := if |legs| < 3 then |legs| else 3;
        var landings := 0;
        amount := 0.0;
        var k := 0;
        assert legs[..n][0..] == legs[..n];
        while k < |legs|
          invariant 0 <= k <= n && landings == k
          invariant amount + LandingTotal(lf, legs[..n][k..]) == LandingTotal(lf, legs[..n])
        {
          var leg := legs[k];
          assert legs[..n][k..][1..] == legs[..n][k + 1..];
          landings := landings + 1;
          var isHd := HasIcao(lf.hdAirports, leg.to.icao);
          amount := amount + (if isHd && lf.hdOverrideAmount.Some? && lf.hdOverrideAmount.value != 0.0 then lf.hdOverrideAmount.value else lf.defaultAmount);
          k := k + 1;
          if landings >= 3 {
            break;
          }
        }
      }
    } else {
      var applyToLegs := if lf.countingMode == LandingArrivalsOnly then OfKind(legs, Occupied) else legs;
      amount := AddLandings(lf, applyToLegs);
    }
  }

  /* --------------------------------- Overnight --------------------------------- */

  /** Nights away: the local-day difference for a round trip with a return, else 0. */
  function Nights(cal: Calendar, trip: TripInput): (n: int)
    ensures n >= 0
  {
    if trip.tripType == RoundTrip && Present(trip.returnLocalISO)
    then ComputeOvernights(cal, trip.departLocalISO, trip.returnLocalISO.value)
    else 0
  }

  predicate OvernightApplies(ov: OvernightFee, trip: TripInput) {
    ov.appliesWhen == AlwaysOvernight || (ov.appliesWhen == RoundTripOnly && trip.tripType == RoundTrip)
  }

  /** The overnight fee as the code decides it: on nights and the nightly amount, before rounding. */
  function OvernightItemsAsWritten(knobs: PricingKnobs, cal: Calendar, trip: TripInput): (items: seq<LineItem>)
    ensures OneFee(items, FeeOvernight)
    ensures |items| == 1 <==>
      knobs.fees.overnight.Some? && OvernightApplies(knobs.fees.overnight.value, trip) &&
      Nights(cal, trip) > 0 && knobs.fees.overnight.value.amountPerNight > 0.0
    ensures |items| == 1 ==>
      items[0].amount == Charge(Nights(cal, trip) as real, knobs.fees.overnight.value.amountPerNight)
  {
    var ov := knobs.fees.overnight;
    if ov.None? || ov.value.appliesWhen == NeverOvernight then []
    else
      var overnights := Nights(cal, trip);
      if OvernightApplies(ov.value, trip) && overnights > 0 && ov.value.amountPerNight > 0.0
      then [Item(FeeOvernight, Charge(overnights as real, ov.value.amountPerNight))]
      else []
  }

  /** As written, a nightly amount under half a cent yields an overnight item of amount zero. */
  lemma OvernightZeroAmount(knobs: PricingKnobs, cal: Calendar, trip: TripInput)
    requires knobs.fees.overnight == Some(OvernightFee(0.004, AlwaysOvernight, None))
    requires trip.tripType == RoundTrip && Present(trip.returnLocalISO)
    requires cal.localDay(trip.returnLocalISO.value) == cal.localDay(trip.departLocalISO) + 1
    ensures OvernightItemsAsWritten(knobs, cal, trip) == [Item(FeeOvernight, 0.0)]
  {
    assert Nights(cal, trip) == 1;
    assert RoundMoney(1.0 * 0.004) == 0.0;
  }

  /**
   * The corrected overnight fee, emitted only when its rounded amount is
   * positive, like every other fee. The fee list above uses the rule as written.
   */
  function OvernightItems(knobs: PricingKnobs, cal: Calendar, trip: TripInput): (items: seq<LineItem>)
    ensures OneFee(items, FeeOvernight)
    ensures |items| == 1 <==>
      knobs.fees.overnight.Some? && OvernightApplies(knobs.fees.overnight.value, trip) &&
      Nights(cal, trip) > 0 && knobs.fees.overnight.value.amountPerNight > 0.0 &&
      Charge(Nights(cal, trip) as real, knobs.fees.overnight.value.amountPerNight) > 0.0
    ensures |items| == 1 ==>
      items[0].amount == Charge(Nights(cal, trip) as real, knobs.fees.overnight.value.amountPerNight)
  {
    var ov := knobs.fees.overnight;
    if ov.None? || ov.value.appliesWhen == NeverOvernight then []
    else
      var overnights := Nights(cal, trip);
      if OvernightApplies(ov.value, trip) && overnights > 0 && ov.value.amountPerNight > 0.0
      then
        var amount := Charge(overnights as real, ov.value.amountPerNight);
        if amount > 0.0 then [Item(FeeOvernight, amount)] else []
      else []
  }

  /** The corrected fee differs from the code only by dropping a zero-amount item. */
  lemma OvernightCorrectionOnlyDropsZero(knobs: PricingKnobs, cal: Calendar, trip: TripInput)
    ensures OvernightItems(knobs, cal, trip) == OvernightItemsAsWritten(knobs, cal, trip) ||
      (OvernightItems(knobs, cal, trip) == [] && OvernightItemsAsWritten(knobs, cal, trip) == [Item(FeeOvernight, 0.0)])
  {
    var ov := knobs.fees.overnight;
    if ov.Some? && ov.value.appliesWhen != NeverOvernight {
      var n := Nights(cal, trip);
      var amount := Charge(n as real, ov.value.amountPerNight);
      if OvernightApplies(ov.value, trip) && n > 0 && ov.value.amountPerNight > 0.0 && !(amount > 0.0) {
        assert n as real * ov.value.amountPerNight > 0.0;
      }
    }
  }

  /* ----------------------------------- Daily ----------------------------------- */

  /** The rate of one date: the first covering override's, else the per-day amount. */
  function DayRate(d: DailyFee, date: string): real {
    var o := DailyOverride(d.dateOverrides, date);
    if o.Some? then o.value.amountPerDay else d.amountPerCalendarDay
  }

  function DailyTotal(d: DailyFee, dates: seq<string>): real {
    if |dates| == 0 then 0.0 else DayRate(d, dates[0]) + DailyTotal(d, dates[1..])
  }

  /** The dates a trip touches: through the return for a round trip, the departure day alone otherwise. */
  function TripDates(cal: Calendar, trip: TripInput): seq<string> {
    DatesTouched(cal, trip.departLocalISO, if trip.tripType == RoundTrip then trip.returnLocalISO else None)
  }

  /** Daily fees: the rounded sum of the day rates over every date touched, present when positive. */
  function DailyItems(knobs: PricingKnobs, cal: Calendar, trip: TripInput): (items: seq<LineItem>)
    ensures OneFee(items, FeeDaily)
    ensures |items| == 1 <==>
      knobs.fees.daily.Some? && knobs.fees.daily.value.amountPerCalendarDay != 0.0 &&
      RoundMoney(DailyTotal(knobs.fees.daily.value, TripDates(cal, trip))) > 0.0
    ensures |items| == 1 ==> items[0].amount == RoundMoney(DailyTotal(knobs.fees.daily.value, TripDates(cal, trip)))
  {
    var d := knobs.fees.daily;
    if d.None? || d.value.amountPerCalendarDay == 0.0 then []
    else
      var total := RoundMoney(DailyTotal(d.value, TripDates(cal, trip)));
      RoundMoneyCents(DailyTotal(d.value, TripDates(cal, trip)));
      if total > 0.0 then [Item(FeeDaily, total)] else []
  }

  /** Without a covering override, every date costs the per-day amount. */
  lemma {:induction false} DailyFlatRate(d: DailyFee, dates: seq<string>)
    requires forall i :: 0 <= i < |dates| ==> DailyOverride(d.dateOverrides, dates[i]).None?
    ensures DailyTotal(d, dates) == |dates| as real * d.amountPerCalendarDay
    decreases |dates|
  {
    if |dates| > 0 {
      assert forall i :: 0 <= i < |dates[1..]| ==> dates[1..][i] == dates[i + 1];
      DailyFlatRate(d, dates[1..]);
    }
  }

  /** The unrounded daily total: lists the dates touched and adds each date's rate. */
  method SumDailyFees(d: DailyFee, cal: Calendar, trip: TripInput) returns (total: real)
    ensures total == DailyTotal(d, TripDates(cal, trip))
  {
    var touchedDates := ListDatesTouched(cal, trip.departLocalISO, if trip.tripType == RoundTrip then trip.returnLocalISO else None);
    total := 0.0;
    var k := 0;
    assert touchedDates[k..] == touchedDates;
    while k < |touchedDates|
      invariant 0 <= k <= |touchedDates|
      invariant total + DailyTotal(d, touchedDates[k..]) == DailyTotal(d, touchedDates)
    {
      assert touchedDates[k..][1..] == touchedDates[k + 1..];
      var o := FindDailyOverride(d.dateOverrides, touchedDates[k]);
      total := total + (if o.Some? then o.value.amountPerDay else d.amountPerCalendarDay);
      k := k + 1;
    }
  }

  /* ------------------------------------ All ------------------------------------ */

  /** A fee list: whole-cent `FEE_` items with pushable amounts whose ranks increase strictly and stay below `bound`. */
  predicate FeeList(items: seq<LineItem>, bound: nat) {
    (forall i :: 0 <= i < |items| ==>
      FeeRank(items[i].code) < bound && FeeAmount(items[i].code, items[i].amount) && IsCents(items[i].amount) &&
      items[i].splitHalf.None?) &&
    (forall i, j :: 0 <= i < j < |items| ==> FeeRank(items[i].code) < FeeRank(items[j].code))
  }

  /** `FeeList` built from the back, one item at a time: the form the section-by-section proof uses. */
  predicate FeeChain(items: seq<LineItem>, bound: nat)
    decreases |items|
  {
    |items| == 0 ||
    (var last := items[|items| - 1];
     FeeRank(last.code) < bound && FeeAmount(last.code, last.amount) && IsCents(last.amount) && last.splitHalf.None? &&
     FeeChain(items[..|items| - 1], FeeRank(last.code)))
  }

  /** A chain below `bound` is a chain below any larger bound. */
  lemma ChainWeaken(items: seq<LineItem>, bound: nat, larger: nat)
    requires FeeChain(items, bound) && bound <= larger
    ensures FeeChain(items, larger)
  {
  }

  /** A chain is a fee list, and has at most `bound` items. */
  lemma {:induction false} ChainIsFeeList(items: seq<LineItem>, bound: nat)
    requires FeeChain(items, bound)
    ensures FeeList(items, bound)
    ensures |items| <= bound
  {
    if |items| > 0 {
      var n := |items| - 1;
      var init := items[..n];
      var rank := FeeRank(items[n].code);
      ChainIsFeeList(init, rank);
      assert forall i :: 0 <= i < n ==> items[i] == init[i];
      forall i, j | 0 <= i < j < |items|
        ensures FeeRank(items[i].code) < FeeRank(items[j].code)
      {
        assert items[i] == init[i];
        if j < n {
          assert items[j] == init[j];
        }
      }
    }
  }

  /** Appending a section of a later code keeps a fee chain. */
  lemma AppendFee(items: seq<LineItem>, next: seq<LineItem>, code: ItemCode)
    requires FeeChain(items, FeeRank(code)) && OneFee(next, code)
    ensures FeeChain(items + next, FeeRank(code) + 1)
  {
    if next == [] {
      assert items + next == items;
      ChainWeaken(items, FeeRank(code), FeeRank(code) + 1);
    } else {
      var r := items + next;
      assert r[..|items|] == items;
      assert r[|r| - 1] == next[0];
    }
  }

  /** The reference meaning of `calcFees`: the five fee sections in order. */
  function FeesOf(cal: Calendar, trip: TripInput, knobs: PricingKnobs, legs: seq<Leg>): seq<LineItem> {
    GroundItems(knobs, legs) + HdItems(knobs, trip, legs) + LandingItems(knobs, trip, legs) +
    OvernightItemsAsWritten(knobs, cal, trip) + DailyItems(knobs, cal, trip)
  }

  /**
   * At most one item per fee, in the order ground handling, high density,
   * landing, overnight, daily, each a whole number of cents, positive except
   * for the overnight fee, which may be 0.
   */
  lemma FeesAreOrdered(cal: Calendar, trip: TripInput, knobs: PricingKnobs, legs: seq<Leg>)
    ensures |FeesOf(cal, trip, knobs, legs)| <= 5
    ensures FeeList(FeesOf(cal, trip, knobs, legs), 5)
  {
    var g, h, l := GroundItems(knobs, legs), HdItems(knobs, trip, legs), LandingItems(knobs, trip, legs);
    var o, d := OvernightItemsAsWritten(knobs, cal, trip), DailyItems(knobs, cal, trip);
    FeeSections(g, h, l, o, d);
    ChainIsFeeList(g + h + l + o + d, 5);
  }

  /** The ground-handling and high-density sections form a chain below the landing fee. */
  lemma FirstSections(g: seq<LineItem>, h: seq<LineItem>)
    requires OneFee(g, FeeGroundHandling) && OneFee(h, FeeHighDensity)
    ensures FeeChain(g + h, 2)
  {
    var none: seq<LineItem> := [];
    AppendFee(none, g, FeeGroundHandling);
    assert none + g == g;
    AppendFee(g, h, FeeHighDensity);
  }

  /** Adding the landing and overnight sections keeps the chain, below the daily fee. */
  lemma MiddleSections(g: seq<LineItem>, h: seq<LineItem>, l: seq<LineItem>, o: seq<LineItem>)
    requires OneFee(g, FeeGroundHandling) && OneFee(h, FeeHighDensity) && OneFee(l, FeeLanding)
    requires OneFee(o, FeeOvernight)
    ensures FeeChain(g + h + l + o, 4)
  {
    FirstSections(g, h);
    AppendFee(g + h, l, FeeLanding);
    AppendFee(g + h + l, o, FeeOvernight);
  }

  /** The five sections, each at most one fee of its own code, form a chain in `calcFees` order. */
  lemma FeeSections(g: seq<LineItem>, h: seq<LineItem>, l: seq<LineItem>, o: seq<LineItem>, d: seq<LineItem>)
    requires OneFee(g, FeeGroundHandling) && OneFee(h, FeeHighDensity) && OneFee(l, FeeLanding)
    requires OneFee(o, FeeOvernight) && OneFee(d, FeeDaily)
    ensures FeeChain(g + h + l + o + d, 5)
  {
    MiddleSections(g, h, l, o);
    AppendFee(g + h + l + o, d, FeeDaily);
  }

  /** Every fee item carries a `FEE_` code. */
  lemma FeeItemsAreFees(cal: Calendar, trip: TripInput, knobs: PricingKnobs, legs: seq<Leg>)
    ensures forall it :: it in FeesOf(cal, trip, knobs, legs) ==> IsFeeCode(it.code)
  {
    FeesAreOrdered(cal, trip, knobs, legs);
    forall it | it in FeesOf(cal, trip, knobs, legs)
      ensures IsFeeCode(it.code)
    {
      FeeCodes(it.code);
    }
  }

  method GroundHandlingFee(knobs: PricingKnobs, legs: seq<Leg>) returns (items: seq<LineItem>)
    ensures items == GroundItems(knobs, legs)
  {
    items := [];
    if knobs.fees.groundHandling.Some? && knobs.fees.groundHandling.value.perSegmentAmount != 0.0 {
      var gh := knobs.fees.groundHandling.value;
      var segments := if gh.appliesTo.GetOr(OccupiedOnly) == AllLegs then |legs| else |OfKind(legs, Occupied)|;
      var amount := Charge(segments as real, gh.perSegmentAmount);
      if amount > 0.0 {
        items := [Item(FeeGroundHandling, amount)];
      }
    }
  }

  method HighDensityFee(knobs: PricingKnobs, trip: TripInput, legs: seq<Leg>) returns (items: seq<LineItem>)
    ensures items == HdItems(knobs, trip, legs)
  {
    items := [];
    if knobs.fees.highDensity.Some? && knobs.fees.highDensity.value.feePerVisit != 0.0 && |knobs.fees.highDensity.value.airports| > 0 {
      var hd := knobs.fees.highDensity.value;
      var visits := CountHdVisits(hd, trip, legs);
      var amount := visits as real * hd.feePerVisit;
      if hd.tripCap.Some? {
        amount := Min(amount, hd.tripCap.value);
      }
      assert amount == CappedAmount(hd, visits);
      amount := RoundMoney(amount);
      if amount > 0.0 {
        items := [Item(FeeHighDensity, amount)];
      }
    }
  }

  method LandingFee(knobs: PricingKnobs, trip: TripInput, legs: seq<Leg>) returns (items: seq<LineItem>)
    ensures items == LandingItems(knobs, trip, legs)
  {
    items := [];
    if knobs.fees.landingFees.Some? && knobs.fees.landingFees.value.defaultAmount != 0.0 {
      var lf := knobs.fees.landingFees.value;
      var amount := SumLandingCharges(lf, trip, legs);
      amount := RoundMoney(amount);
      if amount > 0.0 {
        items := [Item(FeeLanding, amount)];
      }
    }
  }

  /** The overnight section: pushed on nights and the nightly amount, whatever the rounded charge. */
  method OvernightFeeItems(knobs: PricingKnobs, cal: Calendar, trip: TripInput) returns (items: seq<LineItem>)
    ensures items == OvernightItemsAsWritten(knobs, cal, trip)
  {
    items := [];
    if knobs.fees.overnight.Some? && knobs.fees.overnight.value.appliesWhen != NeverOvernight {
      var ov := knobs.fees.overnight.value;
      var overnights := if trip.tripType == RoundTrip && Present(trip.returnLocalISO)
        then ComputeOvernights(cal, trip.departLocalISO, trip.returnLocalISO.value) else 0;
      var applies := ov.appliesWhen == AlwaysOvernight || (ov.appliesWhen == RoundTripOnly && trip.tripType == RoundTrip);
      if applies && overnights > 0 && ov.amountPerNight > 0.0 {
        items := [Item(FeeOvernight, Charge(overnights as real, ov.amountPerNight))];
      }
    }
  }

  method DailyFeeItems(knobs: PricingKnobs, cal: Calendar, trip: TripInput) returns (items: seq<LineItem>)
    ensures items == DailyItems(knobs, cal, trip)
  {
    items := [];
    if knobs.fees.daily.Some? && knobs.fees.daily.value.amountPerCalendarDay != 0.0 {
      var d := knobs.fees.daily.value;
      var total := SumDailyFees(d, cal, trip);
      total := RoundMoney(total);
      if total > 0.0 {
        items := [Item(FeeDaily, total)];
      }
    }
  }

  /** `calcFees`: ground handling, high density, landing, overnight and daily fees, in that order. */
  method CalcFees(cal: Calendar, trip: TripInput, knobs: PricingKnobs, legs: seq<Leg>) returns (items: seq<LineItem>)
    ensures items == FeesOf(cal, trip, knobs, legs)
  {
    var ground := GroundHandlingFee(knobs, legs);
    var highDensity := HighDensityFee(knobs, trip, legs);
    var landing := LandingFee(knobs, trip, legs);
    var overnight := OvernightFeeItems(knobs, cal, trip);
    var daily := DailyFeeItems(knobs, cal, trip);
    items := ground + highDensity + landing + overnight + daily;
  }
}
