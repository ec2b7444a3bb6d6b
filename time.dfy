/**
 * Time adjustment and validation: per-leg minimums on actual hours, taxi and
 * buffer added to the selected legs, rounded occupied/repo/total hours, the
 * trip minimums and the per-day occupied ceiling.
 */
module TimeRules {
  import opened Wrappers
  import opened QuoteRequest
  import opened QuoteResult
  import opened Utils
  import FlightTime

  /** The successful result of `applyTimeAdjustmentsAndValidate`. */
  datatype TimedLegs = TimedLegs(
    legsWithTime: seq<Leg>,
    occupiedHours: real,
    repoHours: real,
    totalHours: real)

  const MaxPerLegHours: real := 10.0

  /** Whether `applyTo` selects legs of this kind for the taxi + buffer adjustment. */
  predicate Adjusts(applyTo: ApplyTo, kind: LegKind) {
    applyTo == ApplyBoth || (applyTo == ApplyOccupied && kind == Occupied) || (applyTo == ApplyRepo && kind == Repo)
  }

  /** `s / 3600`. */
  function Hours(seconds: real): real { seconds / 3600.0 }

  /** An occupied leg whose actual hours are below the per-leg minimum. */
  predicate SomeOccupiedLegShort(legs: seq<Leg>, secs: seq<real>, min: real)
    requires |secs| == |legs|
  {
    exists i :: 0 <= i < |legs| && legs[i].kind == Occupied && Hours(secs[i]) < min
  }

  /** `legs.findIndex(l => l.kind === "OCCUPIED")`. */
  function FirstOccupiedIndex(legs: seq<Leg>): (i: int)
    ensures -1 <= i < |legs|
    ensures i >= 0 ==> legs[i].kind == Occupied && forall j :: 0 <= j < i ==> legs[j].kind != Occupied
    ensures i == -1 <==> forall j :: 0 <= j < |legs| ==> legs[j].kind != Occupied
  {
    if |legs| == 0 then -1
    else if legs[0].kind == Occupied then 0
    else
      var k := FirstOccupiedIndex(legs[1..]);
      if k == -1 then -1 else k + 1
  }

  /** One leg with its time metadata: actual hours, adjusted hours and distance. */
  function WithTime(hav: Haversine, leg: Leg, seconds: real, taxi: real, buffer: real, applyTo: ApplyTo): Leg {
    var a := Hours(seconds);
    var adj := if Adjusts(applyTo, leg.kind) then a + taxi + buffer else a;
    leg.(meta := leg.meta.(actualHours := Some(a), adjustedHours := Some(adj),
                           distanceNm := Some(FlightTime.LegDistance(hav, leg))))
  }

  function LegsWithTime(hav: Haversine, legs: seq<Leg>, secs: seq<real>, taxi: real, buffer: real, applyTo: ApplyTo): (r: seq<Leg>)
    requires |secs| == |legs|
    ensures |r| == |legs|
    ensures forall i :: 0 <= i < |legs| ==> r[i] == WithTime(hav, legs[i], secs[i], taxi, buffer, applyTo)
  {
    seq(|legs|, i requires 0 <= i < |legs| => WithTime(hav, legs[i], secs[i], taxi, buffer, applyTo))
  }

  /** Occupied-hours-per-day ceiling: the average over the calendar days touched. */
  function AverageOccupiedPerDay(cal: Calendar, trip: TripInput, occupiedHours: real): real {
    var days := ComputeCalendarDaysTouched(cal, trip.departLocalISO,
      if trip.tripType == RoundTrip then trip.returnLocalISO else None);
    if days > 0 then occupiedHours / days as real else occupiedHours
  }

  /** The per-leg minimums, checked on unadjusted actual hours of occupied legs. */
  function LegMinimumsCheck(time: TimeKnobs, legs: seq<Leg>, secs: seq<real>): Option<QuoteResult>
    requires |secs| == |legs|
  {
    var mins := time.minimums.GetOr(NoMinimums);
    var first := FirstOccupiedIndex(legs);
    if mins.minActualFlightHoursPerLeg.Some? && SomeOccupiedLegShort(legs, secs, mins.minActualFlightHoursPerLeg.value) then
      Some(Reject(MinLegTime, "time.minimums.minActualFlightHoursPerLeg"))
    else if mins.minFirstOccupiedLegHours.Some? && first >= 0 && Hours(secs[first]) < mins.minFirstOccupiedLegHours.value then
      Some(Reject(MinFirstOccupied, "time.minimums.minFirstOccupiedLegHours"))
    else None
  }

  /** The timed legs and the rounded occupied, repo and total hours. */
  function Timed(hav: Haversine, time: TimeKnobs, legs: seq<Leg>, secs: seq<real>): TimedLegs
    requires |secs| == |legs|
  {
    var taxi := Clamp(time.taxiHoursPerLeg, 0.0, MaxPerLegHours);
    var buffer := Clamp(time.bufferHoursPerLeg, 0.0, MaxPerLegHours);
    WithHours(LegsWithTime(hav, legs, secs, taxi, buffer, time.applyTo))
  }

  /** Timed legs with their rounded occupied, repo and total hours. */
  function WithHours(timed: seq<Leg>): TimedLegs {
    var occupiedHours := RoundHours(SumAdjustedHours(OfKind(timed, Occupied)));
    var repoHours := RoundHours(SumAdjustedHours(OfKind(timed, Repo)));
    TimedLegs(timed, occupiedHours, repoHours, RoundHours(occupiedHours + repoHours))
  }

  /** The trip minimums and the daily ceiling, in that order. */
  function TotalsCheck(cal: Calendar, trip: TripInput, time: TimeKnobs, t: TimedLegs): Option<QuoteResult> {
    var mins := time.minimums.GetOr(NoMinimums);
    if mins.minTotalTripHours.Some? && t.totalHours < mins.minTotalTripHours.value then
      Some(Reject(MinTotalTime, "time.minimums.minTotalTripHours"))
    else if mins.minOccupiedHoursTotal.Some? && t.occupiedHours < mins.minOccupiedHoursTotal.value then
      Some(Reject(MinOccupiedTotal, "time.minimums.minOccupiedHoursTotal"))
    else if time.maxOccupiedHoursPerDay.Some? &&
            AverageOccupiedPerDay(cal, trip, t.occupiedHours) > time.maxOccupiedHoursPerDay.value + 0.000000001 then
      Some(Reject(DailyOccupiedLimit, "time.dailyLimits.maxOccupiedHoursPerDay"))
    else None
  }

  lemma TimedLegsAre(hav: Haversine, time: TimeKnobs, legs: seq<Leg>, secs: seq<real>)
    requires |secs| == |legs|
    ensures Timed(hav, time, legs, secs).legsWithTime ==
      LegsWithTime(hav, legs, secs, Clamp(time.taxiHoursPerLeg, 0.0, MaxPerLegHours),
                   Clamp(time.bufferHoursPerLeg, 0.0, MaxPerLegHours), time.applyTo)
  {
  }

  /** `applyTimeAdjustmentsAndValidate`. */
  function ApplyTimeAdjustmentsAndValidate(
    hav: Haversine, cal: Calendar, trip: TripInput, time: TimeKnobs, legs: seq<Leg>, secs: seq<real>
  ): Result<TimedLegs>
    requires |secs| == |legs|
  {
    var legCheck := LegMinimumsCheck(time, legs, secs);
    if legCheck.Some? then Err(legCheck.value)
    else
      var t := Timed(hav, time, legs, secs);
      var totalsCheck := TotalsCheck(cal, trip, time, t);
      if totalsCheck.Some? then Err(totalsCheck.value) else Ok(t)
  }

  /**
   * `applyTimeAdjustmentsAndValidate` as the source runs it: a scan of the
   * occupied legs for the per-leg minimum, the first occupied leg, then the
   * timed legs and the totals.
   */
  method ApplyTimeAdjustments(
    hav: Haversine, cal: Calendar, trip: TripInput, time: TimeKnobs, legs: seq<Leg>, secs: seq<real>
  ) returns (r: Result<TimedLegs>)
    requires |secs| == |legs|
    ensures r == ApplyTimeAdjustmentsAndValidate(hav, cal, trip, time, legs, secs)
  {
    var mins := time.minimums.GetOr(NoMinimums);
    if mins.minActualFlightHoursPerLeg.Some? {
      var min := mins.minActualFlightHoursPerLeg.value;
      var i := 0;
      while i < |legs|
        invariant 0 <= i <= |legs|
        invariant forall j :: 0 <= j < i ==> !(legs[j].kind == Occupied && Hours(secs[j]) < min)
      {
        if legs[i].kind == Occupied && Hours(secs[i]) < min {
          return Err(Reject(MinLegTime, "time.minimums.minActualFlightHoursPerLeg"));
        }
        i := i + 1;
      }
    }
    if mins.minFirstOccupiedLegHours.Some? {
      var idx := FirstOccupiedIndex(legs);
      if idx >= 0 && Hours(secs[idx]) < mins.minFirstOccupiedLegHours.value {
        return Err(Reject(MinFirstOccupied, "time.minimums.minFirstOccupiedLegHours"));
      }
    }
    var t := Timed(hav, time, legs, secs);
    var totalsCheck := TotalsCheck(cal, trip, time, t);
    if totalsCheck.Some? {
      return Err(totalsCheck.value);
    }
    return Ok(t);
  }

  /* -------------------------------- Properties -------------------------------- */

  /** On success the value is the timed legs with their hours; every failure is a check's rejection. */
  lemma OutcomeIsChecksThenTimed(hav: Haversine, cal: Calendar, trip: TripInput, time: TimeKnobs, legs: seq<Leg>, secs: seq<real>)
    requires |secs| == |legs|
    ensures var r := ApplyTimeAdjustmentsAndValidate(hav, cal, trip, time, legs, secs);
      (r.Ok? <==> LegMinimumsCheck(time, legs, secs).None? && TotalsCheck(cal, trip, time, Timed(hav, time, legs, secs)).None?) &&
      (r.Ok? ==> r.value == Timed(hav, time, legs, secs)) &&
      (LegMinimumsCheck(time, legs, secs).Some? ==> r == Err(LegMinimumsCheck(time, legs, secs).value))
  {
  }

  /**
   * Each timed leg keeps its kind and endpoints; its actual hours are
   * seconds / 3600 and its adjusted hours add the clamped taxi and buffer
   * (each in [0, 10]) exactly when `applyTo` selects its kind.
   */
  lemma TimedLegsShape(hav: Haversine, time: TimeKnobs, legs: seq<Leg>, secs: seq<real>)
    requires |secs| == |legs|
    ensures var r := Timed(hav, time, legs, secs);
      var taxi := Clamp(time.taxiHoursPerLeg, 0.0, 10.0);
      var buffer := Clamp(time.bufferHoursPerLeg, 0.0, 10.0);
      0.0 <= taxi <= 10.0 && 0.0 <= buffer <= 10.0 &&
      |r.legsWithTime| == |legs| &&
      forall i :: 0 <= i < |legs| ==> WithTimeShape(legs[i], r.legsWithTime[i], secs[i], taxi, buffer, time.applyTo)
  {
    var taxi := Clamp(time.taxiHoursPerLeg, 0.0, MaxPerLegHours);
    var buffer := Clamp(time.bufferHoursPerLeg, 0.0, MaxPerLegHours);
    var timed := Timed(hav, time, legs, secs).legsWithTime;
    TimedLegsAre(hav, time, legs, secs);
    assert |timed| == |legs|;
    forall i | 0 <= i < |legs|
      ensures timed[i] == WithTime(hav, legs[i], secs[i], taxi, buffer, time.applyTo)
    {
    }
    forall i | 0 <= i < |legs|
      ensures WithTimeShape(legs[i], timed[i], secs[i], taxi, buffer, time.applyTo)
    {
      WithTimeIsShaped(hav, legs[i], secs[i], taxi, buffer, time.applyTo);
    }
  }

  /** A leg with its time: same kind, endpoints and base, actual hours secs / 3600, adjusted hours as selected. */
  predicate WithTimeShape(leg: Leg, l: Leg, seconds: real, taxi: real, buffer: real, applyTo: ApplyTo) {
    l.kind == leg.kind && l.from == leg.from && l.to == leg.to &&
    l.meta.actualHours == Some(seconds / 3600.0) &&
    l.meta.adjustedHours == Some(if Adjusts(applyTo, leg.kind) then seconds / 3600.0 + taxi + buffer else seconds / 3600.0) &&
    l.meta.chosenBaseIcao == leg.meta.chosenBaseIcao
  }

  lemma WithTimeIsShaped(hav: Haversine, leg: Leg, seconds: real, taxi: real, buffer: real, applyTo: ApplyTo)
    ensures WithTimeShape(leg, WithTime(hav, leg, seconds, taxi, buffer, applyTo), seconds, taxi, buffer, applyTo)
  {
  }

  /** A failing `applyTimeAdjustmentsAndValidate` rejects with exactly one reason. */
  lemma TimeRejects(hav: Haversine, cal: Calendar, trip: TripInput, time: TimeKnobs, legs: seq<Leg>, secs: seq<real>)
    requires |secs| == |legs|
    ensures var r := ApplyTimeAdjustmentsAndValidate(hav, cal, trip, time, legs, secs);
      r.Err? ==> IsRejection(r.error)
  {
    ChecksReject(cal, trip, time, legs, secs, Timed(hav, time, legs, secs));
  }

  /** Each check that fails rejects with exactly one reason. */
  lemma ChecksReject(cal: Calendar, trip: TripInput, time: TimeKnobs, legs: seq<Leg>, secs: seq<real>, t: TimedLegs)
    requires |secs| == |legs|
    ensures LegMinimumsCheck(time, legs, secs).Some? ==> IsRejection(LegMinimumsCheck(time, legs, secs).value)
    ensures TotalsCheck(cal, trip, time, t).Some? ==> IsRejection(TotalsCheck(cal, trip, time, t).value)
  {
  }

  /** A passing `applyTimeAdjustmentsAndValidate` keeps every leg's kind and endpoints. */
  lemma PassedKeepsLegs(hav: Haversine, cal: Calendar, trip: TripInput, time: TimeKnobs, legs: seq<Leg>, secs: seq<real>)
    requires |secs| == |legs|
    requires ApplyTimeAdjustmentsAndValidate(hav, cal, trip, time, legs, secs).Ok?
    ensures var timed := ApplyTimeAdjustmentsAndValidate(hav, cal, trip, time, legs, secs).value.legsWithTime;
      |timed| == |legs| &&
      forall i :: 0 <= i < |legs| ==>
        timed[i].kind == legs[i].kind && timed[i].from == legs[i].from && timed[i].to == legs[i].to
  {
    OutcomeIsChecksThenTimed(hav, cal, trip, time, legs, secs);
    TimedLegsShape(hav, time, legs, secs);
  }

  /** Rounding the total changes nothing: total = occupied + repo exactly. */
  lemma HoursAddUp(hav: Haversine, time: TimeKnobs, legs: seq<Leg>, secs: seq<real>)
    requires |secs| == |legs|
    ensures var r := Timed(hav, time, legs, secs);
      r.totalHours == r.occupiedHours + r.repoHours
  {
    var taxi := Clamp(time.taxiHoursPerLeg, 0.0, MaxPerLegHours);
    var buffer := Clamp(time.bufferHoursPerLeg, 0.0, MaxPerLegHours);
    var timed := LegsWithTime(hav, legs, secs, taxi, buffer, time.applyTo);
    assert Timed(hav, time, legs, secs) == WithHours(timed);
    RoundedHoursSumExact(SumAdjustedHours(OfKind(timed, Occupied)), SumAdjustedHours(OfKind(timed, Repo)));
  }

  /**
   * The per-leg minimum is checked first, on the unadjusted hours of occupied
   * legs only; repo legs and the taxi/buffer settings cannot trigger it.
   */
  lemma MinLegTimeDecides(hav: Haversine, cal: Calendar, trip: TripInput, time: TimeKnobs, legs: seq<Leg>, secs: seq<real>)
    requires |secs| == |legs|
    ensures var mins := time.minimums.GetOr(NoMinimums);
      ApplyTimeAdjustmentsAndValidate(hav, cal, trip, time, legs, secs) ==
        Err(Reject(MinLegTime, "time.minimums.minActualFlightHoursPerLeg")) <==>
      mins.minActualFlightHoursPerLeg.Some? &&
      exists i :: 0 <= i < |legs| && legs[i].kind == Occupied && secs[i] / 3600.0 < mins.minActualFlightHoursPerLeg.value
  {
  }

  /** Next comes the first occupied leg's unadjusted hours against its own minimum. */
  lemma MinFirstOccupiedDecides(hav: Haversine, cal: Calendar, trip: TripInput, time: TimeKnobs, legs: seq<Leg>, secs: seq<real>)
    requires |secs| == |legs|
    requires var mins := time.minimums.GetOr(NoMinimums);
      !(mins.minActualFlightHoursPerLeg.Some? && SomeOccupiedLegShort(legs, secs, mins.minActualFlightHoursPerLeg.value))
    ensures var mins := time.minimums.GetOr(NoMinimums);
      ApplyTimeAdjustmentsAndValidate(hav, cal, trip, time, legs, secs) ==
        Err(Reject(MinFirstOccupied, "time.minimums.minFirstOccupiedLegHours")) <==>
      mins.minFirstOccupiedLegHours.Some? &&
      exists i :: 0 <= i < |legs| && legs[i].kind == Occupied &&
        (forall j :: 0 <= j < i ==> legs[j].kind != Occupied) &&
        secs[i] / 3600.0 < mins.minFirstOccupiedLegHours.value
  {
    var i := FirstOccupiedIndex(legs);
    forall k | 0 <= k < |legs| && legs[k].kind == Occupied && (forall j :: 0 <= j < k ==> legs[j].kind != Occupied)
      ensures k == i
    {
    }
  }

  /** Once the leg minimums pass, the totals are checked: minimum total, minimum occupied, then the daily ceiling. */
  lemma TotalsChecksInOrder(cal: Calendar, trip: TripInput, time: TimeKnobs, t: TimedLegs)
    ensures var mins := time.minimums.GetOr(NoMinimums);
      var r := TotalsCheck(cal, trip, time, t);
      (mins.minTotalTripHours.Some? && t.totalHours < mins.minTotalTripHours.value ==>
        r == Some(Reject(MinTotalTime, "time.minimums.minTotalTripHours"))) &&
      (!(mins.minTotalTripHours.Some? && t.totalHours < mins.minTotalTripHours.value) &&
       mins.minOccupiedHoursTotal.Some? && t.occupiedHours < mins.minOccupiedHoursTotal.value ==>
        r == Some(Reject(MinOccupiedTotal, "time.minimums.minOccupiedHoursTotal"))) &&
      (r == Some(Reject(DailyOccupiedLimit, "time.dailyLimits.maxOccupiedHoursPerDay")) <==>
        !(mins.minTotalTripHours.Some? && t.totalHours < mins.minTotalTripHours.value) &&
        !(mins.minOccupiedHoursTotal.Some? && t.occupiedHours < mins.minOccupiedHoursTotal.value) &&
        time.maxOccupiedHoursPerDay.Some? &&
        AverageOccupiedPerDay(cal, trip, t.occupiedHours) > time.maxOccupiedHoursPerDay.value + 0.000000001) &&
      (r.None? <==>
        !(mins.minTotalTripHours.Some? && t.totalHours < mins.minTotalTripHours.value) &&
        !(mins.minOccupiedHoursTotal.Some? && t.occupiedHours < mins.minOccupiedHoursTotal.value) &&
        !(time.maxOccupiedHoursPerDay.Some? &&
          AverageOccupiedPerDay(cal, trip, t.occupiedHours) > time.maxOccupiedHoursPerDay.value + 0.000000001))
  {
  }

  /** The daily average divides by the calendar days touched, which is at least one. */
  lemma AverageIsPerDay(cal: Calendar, trip: TripInput, occupiedHours: real)
    ensures var days := ComputeCalendarDaysTouched(cal, trip.departLocalISO,
      if trip.tripType == RoundTrip then trip.returnLocalISO else None);
      days >= 1 && AverageOccupiedPerDay(cal, trip, occupiedHours) * days as real == occupiedHours
  {
  }
}
