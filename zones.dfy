/**
 * Zone network pricing: which zone an airport belongs to, the nearest zone
 * airport to a trip endpoint, peak periods and their multipliers, the cost of
 * one zone-priced repositioning leg and the zone summary of a quote.
 */
module Zones {
  import opened Wrappers
  import opened Text
  import opened QuoteRequest
  import opened QuoteResult
  import opened Utils
  import opened Repo

  /* ------------------------------ Zone membership ------------------------------ */

  /** The zone lists the airport, comparing ICAO codes case-insensitively. */
  predicate InZone(a: Airport, z: Zone) {
    exists b :: b in z.airports && SameCode(b.icao, a.icao)
  }

  /** The reference meaning of `findZoneForAirport`: the first zone, in list order, that lists the airport. */
  function ZoneForAirport(a: Airport, zones: seq<Zone>): Option<Zone> {
    if |zones| == 0 then None
    else if InZone(a, zones[0]) then Some(zones[0])
    else ZoneForAirport(a, zones[1..])
  }

  /** No zone lists the airport, or the result is the first one that does. */
  lemma {:induction false} ZoneForAirportIsFirst(a: Airport, zones: seq<Zone>)
    ensures ZoneForAirport(a, zones).None? <==> forall j :: 0 <= j < |zones| ==> !InZone(a, zones[j])
    ensures ZoneForAirport(a, zones).Some? ==>
      exists i :: 0 <= i < |zones| && zones[i] == ZoneForAirport(a, zones).value && InZone(a, zones[i]) &&
        (forall j :: 0 <= j < i ==> !InZone(a, zones[j]))
  {
    if |zones| > 0 && !InZone(a, zones[0]) {
      ZoneForAirportIsFirst(a, zones[1..]);
      assert forall j :: 1 <= j < |zones| ==> zones[j] == zones[1..][j - 1];
      if ZoneForAirport(a, zones).Some? {
        var i :| 0 <= i < |zones[1..]| && zones[1..][i] == ZoneForAirport(a, zones).value && InZone(a, zones[1..][i]) &&
          (forall j :: 0 <= j < i ==> !InZone(a, zones[1..][j]));
        assert zones[i + 1] == zones[1..][i];
      }
    } else if |zones| > 0 {
      assert zones[0] == ZoneForAirport(a, zones).value;
    }
  }

  /** `findZoneForAirport`: scans the zones in order and stops at the first one listing the airport. */
  method FindZoneForAirport(a: Airport, zones: seq<Zone>) returns (r: Option<Zone>)
    ensures r == ZoneForAirport(a, zones)
  {
    var k := 0;
    while k < |zones|
      invariant 0 <= k <= |zones|
      invariant ZoneForAirport(a, zones) == ZoneForAirport(a, zones[k..])
    {
      assert zones[k..][1..] == zones[k + 1..];
      var z := zones[k];
      var m := 0;
      var found := false;
      while m < |z.airports| && !found
        invariant 0 <= m <= |z.airports|
        invariant found ==> InZone(a, z)
        invariant !found ==> forall j :: 0 <= j < m ==> !SameCode(z.airports[j].icao, a.icao)
      {
        if Upper(z.airports[m].icao) == Upper(a.icao) {
          found := true;
        }
        m := m + 1;
      }
      if found {
        return Some(z);
      }
      k := k + 1;
    }
    return None;
  }

  /* ------------------------------ Closest airport ------------------------------ */

  /**
   * `findClosestAirportInZone`: the nearest airport of the zone, the earliest
   * among equals; the running minimum starts at "infinity" (`None` here).
   */
  method FindClosestAirportInZone(hav: Haversine, reference: Airport, zone: Zone) returns (r: Option<Airport>)
    ensures r == ClosestAirportByDistance(hav, reference, zone.airports)
  {
    if |zone.airports| == 0 {
      return None;
    }
    var closest: Option<Airport> := None;
    var minDistance: Option<real> := None;
    ghost var bi := -1;
    var k := 0;
    while k < |zone.airports|
      invariant 0 <= k <= |zone.airports|
      invariant minDistance.None? <==> k == 0
      invariant closest.Some? <==> minDistance.Some?
      invariant minDistance.Some? ==>
        IsFirstClosest(hav, reference, zone.airports[..k], bi) &&
        closest == Some(zone.airports[bi]) &&
        minDistance.value == Dist(hav, reference, zone.airports[bi])
    {
      var candidate := zone.airports[k];
      var dist := hav(reference.lat, reference.lon, candidate.lat, candidate.lon);
      if minDistance.None? || dist < minDistance.value {
        minDistance := Some(dist);
        closest := Some(candidate);
        bi := k;
      }
      k := k + 1;
    }
    assert zone.airports[..k] == zone.airports;
    FirstClosestUnique(hav, reference, zone.airports, bi, ClosestIndex(hav, reference, zone.airports));
    r := closest;
  }

  /* ------------------------------ Endpoint zone ------------------------------ */

  /** A zone together with one of its airports. */
  datatype ZoneMatch = ZoneMatch(zone: Zone, airport: Airport)

  /** The pairs of a zone and each of its airports, zone by zone in list order. */
  function ZonePairs(zones: seq<Zone>): (ps: seq<ZoneMatch>)
    ensures |ps| == 0 <==> forall i :: 0 <= i < |zones| ==> |zones[i].airports| == 0
    ensures forall p :: p in ps ==> p.zone in zones && p.airport in p.zone.airports
    ensures forall i, j :: 0 <= i < |zones| && 0 <= j < |zones[i].airports| ==>
      ZoneMatch(zones[i], zones[i].airports[j]) in ps
    decreases |zones|
  {
    if |zones| == 0 then []
    else
      var z := zones[|zones| - 1];
      var front := ZonePairs(zones[..|zones| - 1]);
      var row := ZoneRow(z);
      assert forall i :: 0 <= i < |zones| - 1 ==> zones[i] == zones[..|zones| - 1][i];
      front + row
  }

  /** One zone's pairs, in the order of its airports. */
  function ZoneRow(z: Zone): (row: seq<ZoneMatch>)
    ensures |row| == |z.airports|
    ensures forall j :: 0 <= j < |row| ==> row[j] == ZoneMatch(z, z.airports[j])
  {
    seq(|z.airports|, j requires 0 <= j < |z.airports| => ZoneMatch(z, z.airports[j]))
  }

  function PairAirports(ps: seq<ZoneMatch>): (r: seq<Airport>)
    ensures |r| == |ps|
    ensures forall i :: 0 <= i < |ps| ==> r[i] == ps[i].airport
  {
    seq(|ps|, i requires 0 <= i < |ps| => ps[i].airport)
  }

  lemma PairAirportsSnoc(ps: seq<ZoneMatch>, p: ZoneMatch)
    ensures PairAirports(ps + [p]) == PairAirports(ps) + [p.airport]
  {
    assert forall i :: 0 <= i < |ps| ==> (ps + [p])[i] == ps[i];
  }

  /**
   * The reference meaning of `selectZoneForEndpoint`: the endpoint itself in the
   * first zone listing it; otherwise the first nearest zone airport over all zones.
   */
  function ZoneForEndpoint(hav: Haversine, endpoint: Airport, config: ZoneNetworkConfig): (r: Option<ZoneMatch>)
    ensures r.None? <==> forall i :: 0 <= i < |config.zones| ==> |config.zones[i].airports| == 0
    ensures ZoneForAirport(endpoint, config.zones).Some? ==>
      r == Some(ZoneMatch(ZoneForAirport(endpoint, config.zones).value, endpoint))
    ensures ZoneForAirport(endpoint, config.zones).None? && r.Some? ==>
      r.value.zone in config.zones && r.value.airport in r.value.zone.airports &&
      forall i, j :: 0 <= i < |config.zones| && 0 <= j < |config.zones[i].airports| ==>
        Dist(hav, endpoint, r.value.airport) <= Dist(hav, endpoint, config.zones[i].airports[j])
  {
    var direct := ZoneForAirport(endpoint, config.zones);
    if direct.Some? then
      ZoneForAirportIsFirst(endpoint, config.zones);
      Some(ZoneMatch(direct.value, endpoint))
    else
      var ps := ZonePairs(config.zones);
      if |ps| == 0 then None
      else
        var i := ClosestIndex(hav, endpoint, PairAirports(ps));
        assert ps[i] in ps;
        assert forall p :: p in ps ==> exists k :: 0 <= k < |ps| && ps[k] == p;
        assert NearestPair(hav, endpoint, config.zones) == Some(ps[i]);
        NearestPair(hav, endpoint, config.zones)
  }

  /** The first nearest of all zone airports, with its zone. */
  function NearestPair(hav: Haversine, endpoint: Airport, zones: seq<Zone>): Option<ZoneMatch> {
    var ps := ZonePairs(zones);
    if |ps| == 0 then None else Some(ps[ClosestIndex(hav, endpoint, PairAirports(ps))])
  }

  /** `selectZoneForEndpoint`: the direct zone when there is one, else a scan of every zone airport. */
  method SelectZoneForEndpoint(hav: Haversine, endpoint: Airport, config: ZoneNetworkConfig) returns (r: Option<ZoneMatch>)
    ensures r == ZoneForEndpoint(hav, endpoint, config)
  {
    var directZone := FindZoneForAirport(endpoint, config.zones);
    if directZone.Some? {
      return Some(ZoneMatch(directZone.value, endpoint));
    }
    var zones := config.zones;
    var bestMatch: Option<(ZoneMatch, real)> := None;
    ghost var bi := -1;
    for k := 0 to |zones|
      invariant BestSoFar(hav, endpoint, ZonePairs(zones[..k]), bestMatch, bi)
    {
      assert zones[..k + 1][..k] == zones[..k];
      bestMatch, bi := ScanZone(hav, endpoint, zones[k], ZonePairs(zones[..k]), bestMatch, bi);
    }
    assert zones[..|zones|] == zones;
    assert ZoneForEndpoint(hav, endpoint, config) == NearestPair(hav, endpoint, zones);
    ghost var cands := PairAirports(ZonePairs(zones));
    if bestMatch.Some? {
      FirstClosestUnique(hav, endpoint, cands, bi, ClosestIndex(hav, endpoint, cands));
      r := Some(bestMatch.value.0);
    } else {
      r := None;
    }
  }

  /** The running best of the endpoint scan: nothing before the first candidate, else the first nearest so far. */
  ghost predicate BestSoFar(hav: Haversine, endpoint: Airport, seen: seq<ZoneMatch>, best: Option<(ZoneMatch, real)>, bi: int) {
    (best.None? <==> |seen| == 0) &&
    (best.Some? ==>
      IsFirstClosest(hav, endpoint, PairAirports(seen), bi) &&
      best.value == (seen[bi], Dist(hav, endpoint, seen[bi].airport)))
  }

  /** One zone's airports, in order, against the running best (the inner loop of the scan). */
  method ScanZone(hav: Haversine, endpoint: Airport, zone: Zone, ghost seen: seq<ZoneMatch>,
                  best0: Option<(ZoneMatch, real)>, ghost bi0: int)
    returns (best: Option<(ZoneMatch, real)>, ghost bi: int)
    requires BestSoFar(hav, endpoint, seen, best0, bi0)
    ensures BestSoFar(hav, endpoint, seen + ZoneRow(zone), best, bi)
  {
    best, bi := best0, bi0;
    ghost var cur := seen;
    for m := 0 to |zone.airports|
      invariant cur == seen + ZoneRow(zone)[..m]
      invariant BestSoFar(hav, endpoint, cur, best, bi)
    {
      var zoneAirport := zone.airports[m];
      var dist := hav(endpoint.lat, endpoint.lon, zoneAirport.lat, zoneAirport.lon);
      ClosestStep(hav, endpoint, PairAirports(cur), bi, zoneAirport);
      PairAirportsSnoc(cur, ZoneMatch(zone, zoneAirport));
      assert ZoneRow(zone)[..m + 1] == ZoneRow(zone)[..m] + [ZoneMatch(zone, zoneAirport)];
      if best.None? || dist < best.value.1 {
        best := Some((ZoneMatch(zone, zoneAirport), dist));
        bi := |cur|;
      }
      cur := cur + [ZoneMatch(zone, zoneAirport)];
    }
    assert ZoneRow(zone)[..|zone.airports|] == ZoneRow(zone);
  }

  /* ------------------------------ Rates and peaks ------------------------------ */

  /** `getZoneRepoRates`: the first rate entry whose zone id is exactly `zoneId`. */
  function GetZoneRepoRates(zoneId: string, config: ZoneNetworkConfig): Option<ZoneRepoRates> {
    FirstRates(config.zoneRepoRates, zoneId)
  }

  function FirstRates(rates: seq<ZoneRepoRates>, zoneId: string): Option<ZoneRepoRates> {
    if |rates| == 0 then None
    else if rates[0].zoneId == zoneId then Some(rates[0])
    else FirstRates(rates[1..], zoneId)
  }

  /** No entry has the zone id, or the result is the first one that has it. */
  lemma {:induction false} RepoRatesAreFirst(rates: seq<ZoneRepoRates>, zoneId: string)
    ensures FirstRates(rates, zoneId).None? <==> forall i :: 0 <= i < |rates| ==> rates[i].zoneId != zoneId
    ensures FirstRates(rates, zoneId).Some? ==>
      exists i :: 0 <= i < |rates| && rates[i] == FirstRates(rates, zoneId).value && rates[i].zoneId == zoneId &&
        (forall j :: 0 <= j < i ==> rates[j].zoneId != zoneId)
  {
    if |rates| > 0 && rates[0].zoneId != zoneId {
      RepoRatesAreFirst(rates[1..], zoneId);
      assert forall j :: 1 <= j < |rates| ==> rates[j] == rates[1..][j - 1];
      if FirstRates(rates, zoneId).Some? {
        var i :| 0 <= i < |rates[1..]| && rates[1..][i] == FirstRates(rates, zoneId).value && rates[1..][i].zoneId == zoneId &&
          (forall j :: 0 <= j < i ==> rates[1..][j].zoneId != zoneId);
        assert rates[i + 1] == rates[1..][i];
      }
    } else if |rates| > 0 {
      assert rates[0] == FirstRates(rates, zoneId).value;
    }
  }

  /** The first multiplier entry whose zone id is exactly `zoneId`. */
  function FirstMultiplier(ms: seq<ZoneMultiplier>, zoneId: string): Option<ZoneMultiplier> {
    if |ms| == 0 then None
    else if ms[0].zoneId == zoneId then Some(ms[0])
    else FirstMultiplier(ms[1..], zoneId)
  }

  /** No entry has the zone id, or the result is the first one that has it. */
  lemma {:induction false} MultiplierIsFirst(ms: seq<ZoneMultiplier>, zoneId: string)
    ensures FirstMultiplier(ms, zoneId).None? <==> forall i :: 0 <= i < |ms| ==> ms[i].zoneId != zoneId
    ensures FirstMultiplier(ms, zoneId).Some? ==>
      exists i :: 0 <= i < |ms| && ms[i] == FirstMultiplier(ms, zoneId).value && ms[i].zoneId == zoneId &&
        (forall j :: 0 <= j < i ==> ms[j].zoneId != zoneId)
  {
    if |ms| > 0 && ms[0].zoneId != zoneId {
      MultiplierIsFirst(ms[1..], zoneId);
      assert forall j :: 1 <= j < |ms| ==> ms[j] == ms[1..][j - 1];
      if FirstMultiplier(ms, zoneId).Some? {
        var i :| 0 <= i < |ms[1..]| && ms[1..][i] == FirstMultiplier(ms, zoneId).value && ms[1..][i].zoneId == zoneId &&
          (forall j :: 0 <= j < i ==> ms[1..][j].zoneId != zoneId);
        assert ms[i + 1] == ms[1..][i];
      }
    } else if |ms| > 0 {
      assert ms[0] == FirstMultiplier(ms, zoneId).value;
    }
  }

  /** The date falls in the period: `startDate <= date <= endDate` as string comparisons. */
  predicate InPeak(p: PeakPeriod, date: string) {
    LexLe(p.startDate, date) && LexLe(date, p.endDate)
  }

  /** The reference meaning of `findPeakPeriod`: the first period containing the first ten characters of the date. */
  function PeakPeriodFor(dateISO: string, peaks: seq<PeakPeriod>): Option<PeakPeriod> {
    FirstPeak(peaks, Prefix(dateISO, 10))
  }

  function FirstPeak(peaks: seq<PeakPeriod>, date: string): Option<PeakPeriod> {
    if |peaks| == 0 then None
    else if InPeak(peaks[0], date) then Some(peaks[0])
    else FirstPeak(peaks[1..], date)
  }

  /** No period contains the date, or the result is the first one that does. */
  lemma {:induction false} PeakIsFirst(peaks: seq<PeakPeriod>, date: string)
    ensures FirstPeak(peaks, date).None? <==> forall j :: 0 <= j < |peaks| ==> !InPeak(peaks[j], date)
    ensures FirstPeak(peaks, date).Some? ==>
      exists i :: 0 <= i < |peaks| && peaks[i] == FirstPeak(peaks, date).value && InPeak(peaks[i], date) &&
        (forall j :: 0 <= j < i ==> !InPeak(peaks[j], date))
  {
    if |peaks| > 0 && !InPeak(peaks[0], date) {
      PeakIsFirst(peaks[1..], date);
      assert forall j :: 1 <= j < |peaks| ==> peaks[j] == peaks[1..][j - 1];
      if FirstPeak(peaks, date).Some? {
        var i :| 0 <= i < |peaks[1..]| && peaks[1..][i] == FirstPeak(peaks, date).value && InPeak(peaks[1..][i], date) &&
          (forall j :: 0 <= j < i ==> !InPeak(peaks[1..][j], date));
        assert peaks[i + 1] == peaks[1..][i];
      }
    } else if |peaks| > 0 {
      assert peaks[0] == FirstPeak(peaks, date).value;
    }
  }

  /** `findPeakPeriod`: scans the periods in order and returns the first containing the date. */
  method FindPeakPeriod(dateISO: string, peaks: seq<PeakPeriod>) returns (r: Option<PeakPeriod>)
    ensures r == PeakPeriodFor(dateISO, peaks)
  {
    var date := Prefix(dateISO, 10);
    var k := 0;
    while k < |peaks|
      invariant 0 <= k <= |peaks|
      invariant FirstPeak(peaks, date) == FirstPeak(peaks[k..], date)
    {
      assert peaks[k..][1..] == peaks[k + 1..];
      var peak := peaks[k];
      if InPeak(peak, date) {
        return Some(peak);
      }
      k := k + 1;
    }
    return None;
  }

  /** `getPeakMultiplier`: the zone's multiplier for the direction, 1 when the period has none for it. */
  function GetPeakMultiplier(peak: PeakPeriod, zoneId: string, direction: RateDirection): (m: real)
    ensures peak.zoneMultipliers.None? ==> m == 1.0
    ensures peak.zoneMultipliers.Some? && FirstMultiplier(peak.zoneMultipliers.value, zoneId).None? ==> m == 1.0
    ensures peak.zoneMultipliers.Some? && FirstMultiplier(peak.zoneMultipliers.value, zoneId).Some? ==>
      var zm := FirstMultiplier(peak.zoneMultipliers.value, zoneId).value;
      m == if direction == OriginDirection then zm.originRepoMultiplier else zm.destinationRepoMultiplier
  {
    if peak.zoneMultipliers.None? then 1.0
    else
      var zm := FirstMultiplier(peak.zoneMultipliers.value, zoneId);
      if zm.None? then 1.0
      else if direction == OriginDirection then zm.value.originRepoMultiplier
      else zm.value.destinationRepoMultiplier
  }

  /* ------------------------------ One repo leg ------------------------------ */

  /** What `calcZoneRepoCost` reports for one repositioning leg. */
  datatype ZoneRepoCost = ZoneRepoCost(
    cost: real,
    zoneId: Option<string>,
    zoneName: Option<string>,
    baseRate: real,
    appliedRate: real,
    rateDirection: RateDirection,
    peakPeriodId: Option<string>,
    peakPeriodName: Option<string>,
    peakMultiplier: real)

  function DirectionOf(isOutbound: bool): RateDirection {
    if isOutbound then OriginDirection else DestinationDirection
  }

  /** The zone rate of a direction: origin rate outbound, destination rate inbound, 0 without an entry. */
  function DirectionalRate(zoneId: string, config: ZoneNetworkConfig, isOutbound: bool): real {
    var rates := GetZoneRepoRates(zoneId, config);
    if rates.None? then 0.0
    else if isOutbound then rates.value.originRepoRate
    else rates.value.destinationRepoRate
  }

  /** The zone's peak multiplier on the departure date, 1 outside every peak period. */
  function ZonePeakMultiplier(zoneId: string, config: ZoneNetworkConfig, departDateISO: string, direction: RateDirection): real {
    var peak := PeakPeriodFor(departDateISO, config.peakPeriods.GetOr([]));
    if peak.Some? then GetPeakMultiplier(peak.value, zoneId, direction) else 1.0
  }

  /**
   * `calcZoneRepoCost`: an outbound leg is priced by the zone of its departure
   * airport at the origin rate, an inbound leg by the zone of its arrival
   * airport at the destination rate; the cost is the rounded product of hours,
   * base rate and peak multiplier, and a leg outside every zone costs nothing.
   */
  function CalcZoneRepoCost(leg: Leg, hours: real, config: ZoneNetworkConfig, departDateISO: string, isOutbound: bool): (r: ZoneRepoCost)
    ensures r.rateDirection == DirectionOf(isOutbound)
    ensures r.appliedRate == r.baseRate * r.peakMultiplier
    ensures r.cost == Charge(hours, r.appliedRate)
    ensures r.zoneId.Some? <==> ZoneForAirport(if isOutbound then leg.from else leg.to, config.zones).Some?
    ensures r.zoneId.None? ==>
      r == ZoneRepoCost(0.0, None, None, 0.0, 0.0, DirectionOf(isOutbound), None, None, 1.0)
    ensures r.zoneId.Some? ==>
      var z := ZoneForAirport(if isOutbound then leg.from else leg.to, config.zones).value;
      var peak := PeakPeriodFor(departDateISO, config.peakPeriods.GetOr([]));
      r.zoneId == Some(z.id) && r.zoneName == Some(z.name) &&
      r.baseRate == DirectionalRate(z.id, config, isOutbound) &&
      r.peakMultiplier == ZonePeakMultiplier(z.id, config, departDateISO, DirectionOf(isOutbound)) &&
      (r.peakPeriodId.Some? <==> peak.Some?) &&
      (peak.Some? ==> r.peakPeriodId == Some(peak.value.id) && r.peakPeriodName == Some(peak.value.name))
  {
    var relevantAirport := if isOutbound then leg.from else leg.to;
    var zone := ZoneForAirport(relevantAirport, config.zones);
    var rateDirection := DirectionOf(isOutbound);
    if zone.None? then
      assert hours * 0.0 == 0.0;
      assert Charge(hours, 0.0) == 0.0;
      ZoneRepoCost(0.0, None, None, 0.0, 0.0, rateDirection, None, None, 1.0)
    else
      var z := zone.value;
      var baseRate := DirectionalRate(z.id, config, isOutbound);
      var peak := PeakPeriodFor(departDateISO, config.peakPeriods.GetOr([]));
      var peakMultiplier := ZonePeakMultiplier(z.id, config, departDateISO, rateDirection);
      var appliedRate := baseRate * peakMultiplier;
      ZoneRepoCost(
        Charge(hours, appliedRate), Some(z.id), Some(z.name), baseRate, appliedRate, rateDirection,
        if peak.Some? then Some(peak.value.id) else None,
        if peak.Some? then Some(peak.value.name) else None,
        peakMultiplier)
  }

  /** Outside every peak period a zone leg costs its hours at the zone's plain rate. */
  lemma OffPeakRepoCost(leg: Leg, hours: real, config: ZoneNetworkConfig, departDateISO: string, isOutbound: bool)
    requires forall j :: 0 <= j < |config.peakPeriods.GetOr([])| ==>
      !InPeak(config.peakPeriods.GetOr([])[j], Prefix(departDateISO, 10))
    ensures var r := CalcZoneRepoCost(leg, hours, config, departDateISO, isOutbound);
      r.peakMultiplier == 1.0 && r.peakPeriodId.None? && r.cost == Charge(hours, r.baseRate)
  {
    PeakIsFirst(config.peakPeriods.GetOr([]), Prefix(departDateISO, 10));
    var r := CalcZoneRepoCost(leg, hours, config, departDateISO, isOutbound);
    assert r.appliedRate == r.baseRate;
  }

  /* ------------------------------ Zone summary ------------------------------ */

  /** The occupied rate times the peak period's occupied multiplier, 1 outside a peak or without one. */
  function PeakOccupiedRate(occupiedRate: real, peak: Option<PeakPeriod>): real {
    occupiedRate * (if peak.Some? then peak.value.occupiedMultiplier.GetOr(1.0) else 1.0)
  }

  function SideInfo(zone: Zone, airport: Airport, config: ZoneNetworkConfig, departDateISO: string, isOutbound: bool): ZoneSide {
    var baseRate := DirectionalRate(zone.id, config, isOutbound);
    var multiplier := ZonePeakMultiplier(zone.id, config, departDateISO, DirectionOf(isOutbound));
    ZoneSide(zone.id, zone.name, airport.icao, baseRate, baseRate * multiplier, DirectionOf(isOutbound))
  }

  /**
   * `buildZoneCalculationInfo`: a side is described when both its zone and its
   * airport are known; the occupied rate is always described; the peak period
   * is described exactly when the departure date falls in one.
   */
  function BuildZoneCalculationInfo(
    outboundZone: Option<Zone>, outboundAirport: Option<Airport>,
    inboundZone: Option<Zone>, inboundAirport: Option<Airport>,
    config: ZoneNetworkConfig, departDateISO: string, occupiedRate: real): (info: ZoneCalculationInfo)
    ensures info.outboundZone.Some? <==> outboundZone.Some? && outboundAirport.Some?
    ensures info.inboundZone.Some? <==> inboundZone.Some? && inboundAirport.Some?
    ensures info.outboundZone.Some? ==>
      info.outboundZone.value.zoneId == outboundZone.value.id &&
      info.outboundZone.value.selectedAirport == outboundAirport.value.icao &&
      info.outboundZone.value.rateDirection == OriginDirection
    ensures info.inboundZone.Some? ==>
      info.inboundZone.value.zoneId == inboundZone.value.id &&
      info.inboundZone.value.selectedAirport == inboundAirport.value.icao &&
      info.inboundZone.value.rateDirection == DestinationDirection
    ensures info.occupiedRate.Some? && info.occupiedRate.value.baseRate == occupiedRate
    ensures var peak := PeakPeriodFor(departDateISO, config.peakPeriods.GetOr([]));
      info.occupiedRate.value.appliedRate ==
        occupiedRate * (if peak.Some? then peak.value.occupiedMultiplier.GetOr(1.0) else 1.0)
    ensures info.peakPeriod.Some? <==> PeakPeriodFor(departDateISO, config.peakPeriods.GetOr([])).Some?
    ensures info.peakPeriod.Some? ==>
      (info.peakPeriod.value.outboundRepo.Some? <==> outboundZone.Some?) &&
      (info.peakPeriod.value.inboundRepo.Some? <==> inboundZone.Some?)
  {
    var peak := PeakPeriodFor(departDateISO, config.peakPeriods.GetOr([]));
    var outSide :=
      if outboundZone.Some? && outboundAirport.Some?
      then Some(SideInfo(outboundZone.value, outboundAirport.value, config, departDateISO, true))
      else None;
    var inSide :=
      if inboundZone.Some? && inboundAirport.Some?
      then Some(SideInfo(inboundZone.value, inboundAirport.value, config, departDateISO, false))
      else None;
    var peakInfo :=
      if peak.None? then None
      else Some(PeakInfo(
        peak.value.id, peak.value.name,
        if outboundZone.Some? then Some(GetPeakMultiplier(peak.value, outboundZone.value.id, OriginDirection)) else None,
        if inboundZone.Some? then Some(GetPeakMultiplier(peak.value, inboundZone.value.id, DestinationDirection)) else None,
        peak.value.occupiedMultiplier));
    ZoneCalculationInfo(outSide, inSide, Some(RatePair(occupiedRate, PeakOccupiedRate(occupiedRate, peak))), peakInfo)
  }

  /** The two sides `buildZoneCalculationInfo` describes. */
  lemma InfoSides(
    outboundZone: Option<Zone>, outboundAirport: Option<Airport>,
    inboundZone: Option<Zone>, inboundAirport: Option<Airport>,
    config: ZoneNetworkConfig, departDateISO: string, occupiedRate: real)
    ensures var info := BuildZoneCalculationInfo(outboundZone, outboundAirport, inboundZone, inboundAirport, config, departDateISO, occupiedRate);
      (outboundZone.Some? && outboundAirport.Some? ==>
        info.outboundZone == Some(SideInfo(outboundZone.value, outboundAirport.value, config, departDateISO, true))) &&
      (inboundZone.Some? && inboundAirport.Some? ==>
        info.inboundZone == Some(SideInfo(inboundZone.value, inboundAirport.value, config, departDateISO, false)))
  {
  }

  /** A described side quotes the rates `calcZoneRepoCost` charges a leg whose endpoint lies in that zone. */
  lemma SideMatchesRepoCost(zone: Zone, airport: Airport, config: ZoneNetworkConfig, departDateISO: string, isOutbound: bool,
    leg: Leg, hours: real)
    requires ZoneForAirport(if isOutbound then leg.from else leg.to, config.zones) == Some(zone)
    ensures var side := SideInfo(zone, airport, config, departDateISO, isOutbound);
      var cost := CalcZoneRepoCost(leg, hours, config, departDateISO, isOutbound);
      side.baseRate == cost.baseRate && side.appliedRate == cost.appliedRate
  {
  }

  /**
   * The summary agrees with the legs: when the outbound side names the zone of
   * a repositioning leg's departure airport, its rates are the ones that leg is
   * priced at going out.
   */
  lemma OutboundInfoAgreesWithLegCost(
    outboundZone: Option<Zone>, outboundAirport: Option<Airport>,
    inboundZone: Option<Zone>, inboundAirport: Option<Airport>,
    config: ZoneNetworkConfig, departDateISO: string, occupiedRate: real,
    leg: Leg, hours: real)
    requires outboundZone.Some? && outboundAirport.Some? && ZoneForAirport(leg.from, config.zones) == outboundZone
    ensures var info := BuildZoneCalculationInfo(outboundZone, outboundAirport, inboundZone, inboundAirport, config, departDateISO, occupiedRate);
      var out := CalcZoneRepoCost(leg, hours, config, departDateISO, true);
      info.outboundZone.value.baseRate == out.baseRate && info.outboundZone.value.appliedRate == out.appliedRate
  {
    InfoSides(outboundZone, outboundAirport, inboundZone, inboundAirport, config, departDateISO, occupiedRate);
    SideMatchesRepoCost(outboundZone.value, outboundAirport.value, config, departDateISO, true, leg, hours);
  }

  /** The mirror image for the inbound side and a leg's arrival airport. */
  lemma InboundInfoAgreesWithLegCost(
    outboundZone: Option<Zone>, outboundAirport: Option<Airport>,
    inboundZone: Option<Zone>, inboundAirport: Option<Airport>,
    config: ZoneNetworkConfig, departDateISO: string, occupiedRate: real,
    leg: Leg, hours: real)
    requires inboundZone.Some? && inboundAirport.Some? && ZoneForAirport(leg.to, config.zones) == inboundZone
    ensures var info := BuildZoneCalculationInfo(outboundZone, outboundAirport, inboundZone, inboundAirport, config, departDateISO, occupiedRate);
      var back := CalcZoneRepoCost(leg, hours, config, departDateISO, false);
      info.inboundZone.value.baseRate == back.baseRate && info.inboundZone.value.appliedRate == back.appliedRate
  {
    InfoSides(outboundZone, outboundAirport, inboundZone, inboundAirport, config, departDateISO, occupiedRate);
    SideMatchesRepoCost(inboundZone.value, inboundAirport.value, config, departDateISO, false, leg, hours);
  }
}
