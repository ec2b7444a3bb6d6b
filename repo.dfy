/**
 * Repositioning: the home-base candidates, the nearest-candidate search, the
 * repositioning legs around an itinerary and the repo-hour limits.
 */
module Repo {
  import opened Wrappers
  import opened Text
  import opened QuoteRequest
  import opened QuoteResult
  import opened Utils

  /** `resolveVhbCandidates`: the default list de-duplicated by ICAO (`byCategory` is ignored). */
  function ResolveVhbCandidates(repo: RepoKnobs): (r: seq<Airport>)
    ensures |r| == 0 <==> |repo.vhbDefault.GetOr([])| == 0
    ensures forall a :: a in r ==> a in repo.vhbDefault.GetOr([])
  {
    var list := repo.vhbDefault.GetOr([]);
    UniqueByIcaoProperties(list);
    assert |list| > 0 ==> Key(list[0]) in Keys(list);
    UniqueByIcao(list)
  }

  /* ---------------------------- Closest candidate ---------------------------- */

  /** Distance from `origin` to `a`, by the injected great-circle function. */
  function Dist(hav: Haversine, origin: Airport, a: Airport): real {
    hav(origin.lat, origin.lon, a.lat, a.lon)
  }

  /** `i` is the first candidate at minimal distance. */
  predicate IsFirstClosest(hav: Haversine, origin: Airport, cands: seq<Airport>, i: int) {
    0 <= i < |cands| &&
    (forall j :: 0 <= j < |cands| ==> Dist(hav, origin, cands[i]) <= Dist(hav, origin, cands[j])) &&
    (forall j :: 0 <= j < i ==> Dist(hav, origin, cands[j]) > Dist(hav, origin, cands[i]))
  }

  /** The index of the first candidate at minimal distance. */
  function ClosestIndex(hav: Haversine, origin: Airport, cands: seq<Airport>): (i: nat)
    requires |cands| > 0
    ensures IsFirstClosest(hav, origin, cands, i)
  {
    if |cands| == 1 then 0
    else
      var j := ClosestIndex(hav, origin, cands[1..]);
      if Dist(hav, origin, cands[0]) <= Dist(hav, origin, cands[1..][j]) then 0 else j + 1
  }

  /** There is only one first-closest index. */
  lemma FirstClosestUnique(hav: Haversine, origin: Airport, cands: seq<Airport>, i: int, k: int)
    requires IsFirstClosest(hav, origin, cands, i) && IsFirstClosest(hav, origin, cands, k)
    ensures i == k
  {
    assert Dist(hav, origin, cands[i]) <= Dist(hav, origin, cands[k]) &&
      Dist(hav, origin, cands[k]) <= Dist(hav, origin, cands[i]);
  }

  /** Appending one candidate: it becomes the first closest exactly when it is strictly nearer than the best so far. */
  lemma ClosestStep(hav: Haversine, origin: Airport, cands: seq<Airport>, bi: int, a: Airport)
    requires |cands| == 0 || IsFirstClosest(hav, origin, cands, bi)
    ensures |cands| == 0 || Dist(hav, origin, a) < Dist(hav, origin, cands[bi]) ==>
      IsFirstClosest(hav, origin, cands + [a], |cands|)
    ensures |cands| > 0 && Dist(hav, origin, a) >= Dist(hav, origin, cands[bi]) ==>
      IsFirstClosest(hav, origin, cands + [a], bi)
  {
    var c := cands + [a];
    assert forall j :: 0 <= j < |cands| ==> c[j] == cands[j];
  }

  /** The reference meaning of `findClosestAirportByDistance`: `None` exactly for no candidates. */
  function ClosestAirportByDistance(hav: Haversine, origin: Airport, cands: seq<Airport>): (r: Option<Airport>)
    ensures r.None? <==> |cands| == 0
    ensures r.Some? ==> r.value in cands
    ensures |cands| == 1 ==> r == Some(cands[0])
  {
    if |cands| == 0 then None else Some(cands[ClosestIndex(hav, origin, cands)])
  }

  /** `findClosestAirportByDistance`: keeps the best so far, replacing it only on a strictly smaller distance. */
  method FindClosestAirportByDistance(hav: Haversine, origin: Airport, cands: seq<Airport>) returns (r: Option<Airport>)
    ensures r == ClosestAirportByDistance(hav, origin, cands)
  {
    var best: Option<(Airport, real)> := None;
    ghost var bi := -1;
    var k := 0;
    while k < |cands|
      invariant 0 <= k <= |cands|
      invariant best.None? <==> k == 0
      invariant best.Some? ==>
        IsFirstClosest(hav, origin, cands[..k], bi) && best.value == (cands[bi], Dist(hav, origin, cands[bi]))
    {
      var a := cands[k];
      var d := hav(origin.lat, origin.lon, a.lat, a.lon);
      if best.None? || d < best.value.1 {
        best := Some((a, d));
        bi := k;
      }
      k := k + 1;
    }
    assert cands[..k] == cands;
    if best.Some? {
      FirstClosestUnique(hav, origin, cands, bi, ClosestIndex(hav, origin, cands));
      r := Some(best.value.0);
    } else {
      r := None;
    }
  }

  /* ------------------------------ Repo legs ------------------------------ */

  /** The successful result of `buildRepoLegs`. */
  datatype RepoPlan = RepoPlan(
    legsOut: seq<Leg>,
    legsBack: seq<Leg>,
    chosenOutBase: Option<Airport>,
    chosenBackBase: Option<Airport>)

  function BaseMeta(base: Airport): LegMeta {
    EmptyMeta.(chosenBaseIcao := Some(base.icao))
  }

  predicate PolicyOut(p: RepoPolicy) { p == BothWays || p == OutboundOnly }
  predicate PolicyBack(p: RepoPolicy) { p == BothWays || p == InboundOnly }

  /** The legs added for the chosen bases, given the policy and the zero-length test. */
  function PlanFor(start: Airport, end: Airport, policy: RepoPolicy, baseOut: Airport, baseBack: Airport): RepoPlan {
    var legsOut := if PolicyOut(policy) && !SameCode(baseOut.icao, start.icao)
      then [Leg(Repo, baseOut, start, BaseMeta(baseOut))] else [];
    var legsBack := if PolicyBack(policy) && !SameCode(end.icao, baseBack.icao)
      then [Leg(Repo, end, baseBack, BaseMeta(baseBack))] else [];
    RepoPlan(legsOut, legsBack, Some(baseOut), Some(baseBack))
  }

  /** The reference meaning of `buildRepoLegs`. */
  function RepoLegs(hav: Haversine, start: Airport, end: Airport, repo: RepoKnobs, cands: seq<Airport>): Result<RepoPlan> {
    if repo.mode == FixedBase then
      if repo.fixedBaseIcao.None? then Err(Reject(MissingBase, "repo.fixedBaseIcao"))
      else Ok(PlanFor(start, end, repo.policy, repo.fixedBaseIcao.value, repo.fixedBaseIcao.value))
    else if |cands| == 0 then Err(Reject(MissingVhbList, "repo.vhbSets.default"))
    else
      var o := ClosestAirportByDistance(hav, start, cands);
      var b := ClosestAirportByDistance(hav, end, cands);
      if o.None? || b.None? then Err(Reject(VhbNotFound, "repo.vhbSets.default"))
      else Ok(PlanFor(start, end, repo.policy, o.value, b.value))
  }

  /** A failing `generateRepoLegs` rejects with exactly one reason. */
  lemma RepoRejects(hav: Haversine, start: Airport, end: Airport, repo: RepoKnobs, cands: seq<Airport>)
    ensures RepoLegs(hav, start, end, repo, cands).Err? ==> IsRejection(RepoLegs(hav, start, end, repo, cands).error)
  {
  }

  /** `buildRepoLegs`: resolves the two bases, then pushes the outbound and inbound repo legs. */
  method BuildRepoLegs(hav: Haversine, start: Airport, end: Airport, repo: RepoKnobs, cands: seq<Airport>)
    returns (r: Result<RepoPlan>)
    ensures r == RepoLegs(hav, start, end, repo, cands)
  {
    var baseOut: Option<Airport> := None;
    var baseBack: Option<Airport> := None;
    if repo.mode == FixedBase {
      if repo.fixedBaseIcao.None? {
        return Err(Reject(MissingBase, "repo.fixedBaseIcao"));
      }
      baseOut := repo.fixedBaseIcao;
      baseBack := repo.fixedBaseIcao;
    } else {
      if |cands| == 0 {
        return Err(Reject(MissingVhbList, "repo.vhbSets.default"));
      }
      baseOut := FindClosestAirportByDistance(hav, start, cands);
      baseBack := FindClosestAirportByDistance(hav, end, cands);
      if baseOut.None? || baseBack.None? {
        return Err(Reject(VhbNotFound, "repo.vhbSets.default"));
      }
    }
    var legsOut: seq<Leg> := [];
    var legsBack: seq<Leg> := [];
    if repo.policy == BothWays || repo.policy == OutboundOnly {
      if baseOut.Some? && Upper(baseOut.value.icao) != Upper(start.icao) {
        legsOut := legsOut + [Leg(Repo, baseOut.value, start, EmptyMeta.(chosenBaseIcao := Some(baseOut.value.icao)))];
      }
    }
    if repo.policy == BothWays || repo.policy == InboundOnly {
      if baseBack.Some? && Upper(end.icao) != Upper(baseBack.value.icao) {
        legsBack := legsBack + [Leg(Repo, end, baseBack.value, EmptyMeta.(chosenBaseIcao := Some(baseBack.value.icao)))];
      }
    }
    r := Ok(RepoPlan(legsOut, legsBack, baseOut, baseBack));
    assert baseOut.Some? && baseBack.Some?;
    assert legsOut == (if PolicyOut(repo.policy) && !SameCode(baseOut.value.icao, start.icao)
      then [Leg(Repo, baseOut.value, start, BaseMeta(baseOut.value))] else []);
    assert legsBack == (if PolicyBack(repo.policy) && !SameCode(end.icao, baseBack.value.icao)
      then [Leg(Repo, end, baseBack.value, BaseMeta(baseBack.value))] else []);
    assert r == Ok(PlanFor(start, end, repo.policy, baseOut.value, baseBack.value));
  }

  /** Error cases: fixed base without a base, or any other mode without candidates; never VHB_NOT_FOUND. */
  lemma RepoLegsErrors(hav: Haversine, start: Airport, end: Airport, repo: RepoKnobs, cands: seq<Airport>)
    ensures RepoLegs(hav, start, end, repo, cands).Err? <==>
      (repo.mode == FixedBase && repo.fixedBaseIcao.None?) || (repo.mode != FixedBase && |cands| == 0)
    ensures repo.mode == FixedBase && repo.fixedBaseIcao.None? ==>
      RepoLegs(hav, start, end, repo, cands) == Err(Reject(MissingBase, "repo.fixedBaseIcao"))
    ensures repo.mode != FixedBase && |cands| == 0 ==>
      RepoLegs(hav, start, end, repo, cands) == Err(Reject(MissingVhbList, "repo.vhbSets.default"))
  {
  }

  /** The bases a successful plan uses: the fixed base, or the candidates closest to start and end. */
  function ChosenBases(hav: Haversine, start: Airport, end: Airport, repo: RepoKnobs, cands: seq<Airport>): (Airport, Airport)
    requires RepoLegs(hav, start, end, repo, cands).Ok?
  {
    if repo.mode == FixedBase then (repo.fixedBaseIcao.value, repo.fixedBaseIcao.value)
    else
      (ClosestAirportByDistance(hav, start, cands).value, ClosestAirportByDistance(hav, end, cands).value)
  }

  /**
   * The outbound repo leg exists iff the policy allows it and the base differs
   * (case-insensitively) from the start, running base to start; the inbound
   * leg mirrors it from end to base. Each list holds at most one REPO leg
   * tagged with its base.
   */
  lemma RepoLegsShape(hav: Haversine, start: Airport, end: Airport, repo: RepoKnobs, cands: seq<Airport>)
    requires RepoLegs(hav, start, end, repo, cands).Ok?
    ensures var plan := RepoLegs(hav, start, end, repo, cands).value;
      var (bo, bb) := ChosenBases(hav, start, end, repo, cands);
      (|plan.legsOut| == 1 <==> PolicyOut(repo.policy) && Upper(bo.icao) != Upper(start.icao)) &&
      (|plan.legsBack| == 1 <==> PolicyBack(repo.policy) && Upper(end.icao) != Upper(bb.icao)) &&
      |plan.legsOut| <= 1 && |plan.legsBack| <= 1 &&
      (forall l :: l in plan.legsOut ==> l == Leg(Repo, bo, start, BaseMeta(bo))) &&
      (forall l :: l in plan.legsBack ==> l == Leg(Repo, end, bb, BaseMeta(bb))) &&
      plan.chosenOutBase == Some(bo) && plan.chosenBackBase == Some(bb)
  {
  }

  /** With a network of candidates, the chosen bases are candidates at minimal distance. */
  lemma NetworkBasesAreClosest(hav: Haversine, start: Airport, end: Airport, repo: RepoKnobs, cands: seq<Airport>)
    requires repo.mode != FixedBase && |cands| > 0
    ensures RepoLegs(hav, start, end, repo, cands).Ok?
    ensures var (bo, bb) := ChosenBases(hav, start, end, repo, cands);
      bo in cands && bb in cands &&
      (forall c :: c in cands ==> Dist(hav, start, bo) <= Dist(hav, start, c) && Dist(hav, end, bb) <= Dist(hav, end, c))
  {
    var i := ClosestIndex(hav, start, cands);
    var k := ClosestIndex(hav, end, cands);
    assert IsFirstClosest(hav, start, cands, i) && IsFirstClosest(hav, end, cands, k);
  }

  /* --------------------------- Repo-hour limits --------------------------- */

  /** `enforceRepoConstraints`: off unless `rejectIfExceeded`; outbound limit first, strict `>`. */
  function EnforceRepoConstraints(c: Option<RepoConstraints>, repoOutHours: real, repoBackHours: real): (r: Option<QuoteResult>)
    ensures c.None? || !c.value.rejectIfExceeded ==> r.None?
    ensures r.None? <==>
      (c.None? || !c.value.rejectIfExceeded ||
       ((c.value.maxOriginRepoHours.None? || repoOutHours <= c.value.maxOriginRepoHours.value) &&
        (c.value.maxDestinationRepoHours.None? || repoBackHours <= c.value.maxDestinationRepoHours.value)))
    ensures r == Some(Reject(RepoOutTooLong, "repo.constraints.maxOriginRepoHours")) <==>
      c.Some? && c.value.rejectIfExceeded &&
      c.value.maxOriginRepoHours.Some? && repoOutHours > c.value.maxOriginRepoHours.value
    ensures r == Some(Reject(RepoBackTooLong, "repo.constraints.maxDestinationRepoHours")) <==>
      c.Some? && c.value.rejectIfExceeded &&
      !(c.value.maxOriginRepoHours.Some? && repoOutHours > c.value.maxOriginRepoHours.value) &&
      c.value.maxDestinationRepoHours.Some? && repoBackHours > c.value.maxDestinationRepoHours.value
  {
    if c.None? || !c.value.rejectIfExceeded then None
    else if c.value.maxOriginRepoHours.Some? && repoOutHours > c.value.maxOriginRepoHours.value then
      Some(Reject(RepoOutTooLong, "repo.constraints.maxOriginRepoHours"))
    else if c.value.maxDestinationRepoHours.Some? && repoBackHours > c.value.maxDestinationRepoHours.value then
      Some(Reject(RepoBackTooLong, "repo.constraints.maxDestinationRepoHours"))
    else None
  }
}
