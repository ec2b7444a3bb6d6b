/**
 * The two discounts: the virtual-home-base (VHB) discount for trips touching a
 * home base, and the time-based discount for trips whose occupied legs are all
 * long enough. Each is a single negative line item, or nothing.
 */
module Discounts {
  import opened Wrappers
  import opened QuoteRequest
  import opened QuoteResult
  import opened Utils

  /** What the percentage is taken of: the base, base plus fees, or the running total. */
  function DiscountBaseFor(appliesTo: DiscountBase, baseSubtotal: real, feesSubtotal: real, totalBeforeDiscount: real): real {
    match appliesTo
    case BaseOnly => baseSubtotal
    case SubtotalBeforeFees => baseSubtotal + feesSubtotal
    case RunningTotal => totalBeforeDiscount
  }

  /** `roundMoney(-1 * base * fraction)`: never positive on a non-negative base and fraction. */
  function DiscountAmount(base: real, fraction: real): (r: real)
    ensures IsCents(r)
    ensures base >= 0.0 && fraction >= 0.0 ==> r <= 0.0
  {
    RoundMoneyCents(-1.0 * base * fraction);
    RoundMoneySign(-1.0 * base * fraction);
    RoundMoney(-1.0 * base * fraction)
  }

  /** Whether a trip qualifies: one endpoint among the home bases, or both, by upper-cased ICAO. */
  predicate VhbQualifies(mode: VhbMode, vhbCandidates: seq<Airport>, trip: TripInput) {
    var originIsVhb := HasIcao(vhbCandidates, trip.from.icao);
    var destIsVhb := HasIcao(vhbCandidates, trip.to.icao);
    match mode
    case OriginOrDestination => originIsVhb || destIsVhb
    case BothRequired => originIsVhb && destIsVhb
    case NoVhbDiscount => false
  }

  /**
   * `calcVhbDiscount`: nothing when unconfigured, in mode `none` or at a
   * percentage <= 0, when the trip does not qualify, or when the amount rounds
   * to 0; otherwise `DISCOUNT_VHB` at `roundMoney(-base × percent)`.
   */
  function CalcVhbDiscount(
    trip: TripInput, knobs: PricingKnobs, vhbCandidates: seq<Airport>,
    baseSubtotal: real, feesSubtotal: real, totalBeforeDiscount: real): (r: Option<LineItem>)
    ensures r.None? <==>
      knobs.discounts.vhbDiscount.None? || knobs.discounts.vhbDiscount.value.mode == NoVhbDiscount ||
      knobs.discounts.vhbDiscount.value.percent <= 0.0 ||
      !VhbQualifies(knobs.discounts.vhbDiscount.value.mode, vhbCandidates, trip) ||
      DiscountAmount(DiscountBaseFor(knobs.discounts.vhbDiscount.value.appliesTo, baseSubtotal, feesSubtotal, totalBeforeDiscount),
        knobs.discounts.vhbDiscount.value.percent) == 0.0
    ensures r.Some? ==>
      var disc := knobs.discounts.vhbDiscount.value;
      r.value == Item(DiscountVhb, DiscountAmount(DiscountBaseFor(disc.appliesTo, baseSubtotal, feesSubtotal, totalBeforeDiscount), disc.percent)) &&
      r.value.amount != 0.0 && IsCents(r.value.amount)
  {
    var disc := knobs.discounts.vhbDiscount;
    if disc.None? || disc.value.mode == NoVhbDiscount || disc.value.percent <= 0.0 then None
    else if !VhbQualifies(disc.value.mode, vhbCandidates, trip) then None
    else
      var baseForDiscount := DiscountBaseFor(disc.value.appliesTo, baseSubtotal, feesSubtotal, totalBeforeDiscount);
      var amount := DiscountAmount(baseForDiscount, disc.value.percent);
      if amount == 0.0 then None else Some(Item(DiscountVhb, amount))
  }

  /** A trip that qualifies under `both_required` also qualifies under `origin_or_destination`. */
  lemma BothRequiredIsStricter(vhbCandidates: seq<Airport>, trip: TripInput)
    ensures VhbQualifies(BothRequired, vhbCandidates, trip) ==> VhbQualifies(OriginOrDestination, vhbCandidates, trip)
    ensures VhbQualifies(OriginOrDestination, vhbCandidates, trip) <==>
      (exists a :: a in vhbCandidates && (Key(a) == Key(trip.from) || Key(a) == Key(trip.to)))
  {
  }

  /** On a non-negative base, the VHB discount is a discount: its amount is negative. */
  lemma VhbDiscountIsNegative(
    trip: TripInput, knobs: PricingKnobs, vhbCandidates: seq<Airport>,
    baseSubtotal: real, feesSubtotal: real, totalBeforeDiscount: real)
    requires baseSubtotal >= 0.0 && feesSubtotal >= 0.0 && totalBeforeDiscount >= 0.0
    ensures var r := CalcVhbDiscount(trip, knobs, vhbCandidates, baseSubtotal, feesSubtotal, totalBeforeDiscount);
      r.Some? ==> r.value.amount < 0.0
  {
  }

  /* ---------------------------- Time-based discount ---------------------------- */

  /** Every occupied leg flies at least `minHours` of actual time (missing hours count as 0). */
  predicate AllOccupiedQualify(legs: seq<Leg>, minHours: real) {
    var occupiedLegs := OfKind(legs, Occupied);
    forall i :: 0 <= i < |occupiedLegs| ==> occupiedLegs[i].meta.actualHours.GetOr(0.0) >= minHours
  }

  /**
   * `calcTimeBasedDiscount`: nothing unless enabled with a positive percentage
   * and every occupied leg qualifies, or when the amount rounds to 0; otherwise
   * `DISCOUNT_TIME_BASED` at `roundMoney(-base × discountPercent / 100)`.
   */
  function CalcTimeBasedDiscount(
    knobs: PricingKnobs, legs: seq<Leg>,
    baseSubtotal: real, feesSubtotal: real, totalBeforeDiscount: real): (r: Option<LineItem>)
    ensures r.None? <==>
      knobs.discounts.timeBasedDiscount.None? || !knobs.discounts.timeBasedDiscount.value.enabled ||
      knobs.discounts.timeBasedDiscount.value.discountPercent <= 0.0 ||
      !AllOccupiedQualify(legs, knobs.discounts.timeBasedDiscount.value.minOccupiedHoursPerLeg) ||
      DiscountAmount(DiscountBaseFor(knobs.discounts.timeBasedDiscount.value.appliesTo, baseSubtotal, feesSubtotal, totalBeforeDiscount),
        knobs.discounts.timeBasedDiscount.value.discountPercent / 100.0) == 0.0
    ensures r.Some? ==>
      var disc := knobs.discounts.timeBasedDiscount.value;
      r.value == Item(DiscountTimeBased,
        DiscountAmount(DiscountBaseFor(disc.appliesTo, baseSubtotal, feesSubtotal, totalBeforeDiscount), disc.discountPercent / 100.0)) &&
      r.value.amount != 0.0 && IsCents(r.value.amount)
  {
    var disc := knobs.discounts.timeBasedDiscount;
    if disc.None? || !disc.value.enabled || disc.value.discountPercent <= 0.0 then None
    else if !AllOccupiedQualify(legs, disc.value.minOccupiedHoursPerLeg) then None
    else
      var baseForDiscount := DiscountBaseFor(disc.value.appliesTo, baseSubtotal, feesSubtotal, totalBeforeDiscount);
      var amount := DiscountAmount(baseForDiscount, disc.value.discountPercent / 100.0);
      if amount == 0.0 then None else Some(Item(DiscountTimeBased, amount))
  }

  /** On a non-negative base, the time-based discount's amount is negative. */
  lemma TimeBasedDiscountIsNegative(
    knobs: PricingKnobs, legs: seq<Leg>,
    baseSubtotal: real, feesSubtotal: real, totalBeforeDiscount: real)
    requires baseSubtotal >= 0.0 && feesSubtotal >= 0.0 && totalBeforeDiscount >= 0.0
    ensures var r := CalcTimeBasedDiscount(knobs, legs, baseSubtotal, feesSubtotal, totalBeforeDiscount);
      r.Some? ==> r.value.amount < 0.0
  {
  }

  /** A single occupied leg below the threshold withholds the discount. */
  lemma ShortOccupiedLegWithholds(
    knobs: PricingKnobs, legs: seq<Leg>, k: int,
    baseSubtotal: real, feesSubtotal: real, totalBeforeDiscount: real)
    requires knobs.discounts.timeBasedDiscount.Some?
    requires 0 <= k < |legs| && legs[k].kind == Occupied
    requires legs[k].meta.actualHours.GetOr(0.0) < knobs.discounts.timeBasedDiscount.value.minOccupiedHoursPerLeg
    ensures CalcTimeBasedDiscount(knobs, legs, baseSubtotal, feesSubtotal, totalBeforeDiscount).None?
  {
    var occupiedLegs := OfKind(legs, Occupied);
    assert legs[k] in occupiedLegs;
    var j :| 0 <= j < |occupiedLegs| && occupiedLegs[j] == legs[k];
  }

  /** Repositioning legs never affect the time-based discount. */
  lemma TimeBasedIgnoresRepoLegs(
    knobs: PricingKnobs, legs: seq<Leg>,
    baseSubtotal: real, feesSubtotal: real, totalBeforeDiscount: real)
    ensures CalcTimeBasedDiscount(knobs, legs, baseSubtotal, feesSubtotal, totalBeforeDiscount) ==
      CalcTimeBasedDiscount(knobs, OfKind(legs, Occupied), baseSubtotal, feesSubtotal, totalBeforeDiscount)
  {
    OfKindIdempotent(legs, Occupied);
  }
}
