# Goodwin quoting engine, modelled in Dafny

This project models the quoting engine of the Goodwin private-flight price
calculator and the helpers around it:

- the engine (`src/app/engine`): basic validation of a quote request, the
  round-trip split into two one-way quotes, and the per-itinerary pipeline of
  eligibility checks, repositioning ("repo") legs, flight seconds, time
  adjustments and limits, the repo limits, the match score, the base cost, the
  fees, the VHB discount and the totals; the price constraints, the
  time-based discount and zone-based pricing are modelled too;
- the knob-schema migration (`migrations.ts`), which moves
  `maxNightsBeforeSplit` from `fees.overnight` to `trip`, on a small model of
  JavaScript heap objects, because the source changes a shared object in place;
- the page helpers (`src/app/utils/pageUtils.ts`) that turn the flat form
  values into the nested knob object and back, compare and name trips,
  normalise imported knobs, deep-merge knob objects and build the engine's trip;
- the offline part of the flight-time calculator service: the geometric
  fallback estimate and the filling-in of models missing from a response.

One Dafny module stands for each source file. `quote_request.dfy` and
`quote_result.dfy` hold the input and output types, `wrappers.dfy` the
`Option`/`Result` types and `text.dfy` the string helpers.

Money and hours are `real` numbers. `Math.round` is `floor(x + 1/2)`, so
`roundMoney` rounds to whole cents and `roundHours` to thousandths of an hour.
The engine's collaborators are parameters:

- the great-circle distance;
- a calendar that reads ISO date strings;
- the wall clock;
- an optional flight-time estimator.

Loops in the source are methods with loop invariants. Each is proved to
compute exactly a specification function, and the source's promises are
lemmas about those functions.

## Model

| member | source | states |
|---|---|---|
| Utils.Clamp | src/app/engine/utils.ts:5-7 | the result lies in [lo, hi] when lo <= hi, is n itself when n is already inside, and is always one of lo, n, hi |
| Utils.Round | src/app/engine/utils.ts:9-15 | `Math.round`: the integer within one half of x, halves going up |
| Utils.RoundOfInteger | src/app/engine/utils.ts:9-15 | rounding an integer gives it back |
| Utils.RoundMoney | src/app/engine/utils.ts:9-11 | `roundMoney` stays within half a cent of its input |
| Utils.RoundMoneySign | src/app/engine/utils.ts:9-11 | `roundMoney` keeps the sign of its input (zero included) |
| Utils.RoundMoneyCents | src/app/engine/utils.ts:9-11 | the result is whole cents, whole cents are left alone, and rounding twice is rounding once |
| Utils.RoundHours | src/app/engine/utils.ts:13-15 | `roundHours` stays within half a thousandth of an hour of its input |
| Utils.RoundHoursMilli | src/app/engine/utils.ts:13-15 | the result is whole thousandths, such values are left alone, and rounding is idempotent |
| Utils.RoundedHoursSumExact | src/app/engine/utils.ts:13-15 | rounding the sum of two rounded hour values changes nothing |
| Utils.SumConcat | src/app/engine/utils.ts:17-19 | `sum` over a concatenation is the sum of the sums |
| Utils.Keys | src/app/engine/utils.ts:21-25 | the `Map` keys of `uniqByIcao`: no key twice, and exactly the upper-cased ICAO codes of the input |
| Utils.LastWith | src/app/engine/utils.ts:23 | the airport `Map.set` leaves under a key is an input airport with that key |
| Utils.UniqueByIcao | src/app/engine/utils.ts:21-25 | one airport per distinct key |
| Utils.UniqueByIcaoProperties | src/app/engine/utils.ts:21-25 | no two results share a key, every input key is represented, and every result is an input airport |
| Utils.LastWithSnoc | src/app/engine/utils.ts:23 | after `m.set(key(a), a)` the entry under a's key is a, and every other entry is unchanged |
| Utils.IndexStep | src/app/engine/utils.ts:23 | one `Map.set` keeps the map equal to "keys in first-insertion order, each holding the last airport under it" |
| Utils.IndexByKey | src/app/engine/utils.ts:22-23 | the filled `Map` holds exactly the keys in first-insertion order, each with the last airport listed under it |
| Utils.UniqByIcao | src/app/engine/utils.ts:21-25 | the loop returns the reference de-duplication (`Array.from(m.values())`) |
| Utils.SumAdjustedHoursConcat | src/app/engine/utils.ts:49-51 | `sumAdjustedHours` over a concatenation is the sum of the two totals |
| Utils.OfKind | src/app/engine/time.ts:97-102 | `legs.filter(l => l.kind === k)`: no longer than the input, and holding exactly the input legs of that kind |
| Utils.OfKindIdempotent | src/app/engine/time.ts:97-102 | filtering twice by the same kind is filtering once |
| Utils.OfKindConcat | src/app/engine/time.ts:97-102 | filtering distributes over concatenation |
| Utils.OfKindAll | src/app/engine/time.ts:97-102 | a list whose legs are all of the kind is its own filter |
| Utils.OfKindNone | src/app/engine/time.ts:97-102 | a list with no leg of the kind filters to nothing |
| Utils.SumAmountsConcat | src/app/engine/aggregation.ts:5-27 | the sum of item amounts over a concatenation is the sum of the two sums |
| Utils.ComputeOvernights | src/app/engine/utils.ts:53-66 | never negative; the local-day difference when the return is not earlier, 0 otherwise |
| Utils.ComputeCalendarDaysTouched | src/app/engine/utils.ts:68-80 | at least 1 |
| Utils.DaysTouchedIsOvernightsPlusOne | src/app/engine/utils.ts:53-80 | with a return on or after departure, the days touched are the overnights plus one |
| Utils.DatesTouched | src/app/engine/utils.ts:89-108 | one `YYYY-MM-DD` date per local day from departure to return inclusive, in order; none when the return is before departure |
| Utils.DatesTouchedCount | src/app/engine/utils.ts:68-108 | `listDatesTouched` lists as many dates as `computeCalendarDaysTouched` counts, or none when the end is before the start |
| Utils.ListDatesTouched | src/app/engine/utils.ts:89-108 | the day-by-day loop returns the reference date list |
| Utils.FirstCovering | src/app/engine/utils.ts:110-123 | the index of the first override whose range contains the date, or the length when none does |
| Utils.DailyOverride | src/app/engine/utils.ts:110-123 | null exactly when no override contains the date; otherwise the first that does |
| Utils.FindDailyOverride | src/app/engine/utils.ts:110-123 | the loop with its early return gives the reference result |
| Utils.CalcMatchScore | src/app/engine/utils.ts:125-132 | undefined exactly when the hours add up to 0 or less; otherwise score × (occupied + repo) = 10 × occupied, and the score lies in [0, 10] for non-negative hours |
| Utils.BuildOccupiedLegs | src/app/engine/utils.ts:142-150 | one occupied leg for ONE_WAY, and for a round trip the outbound leg then the leg back |
| TimeRules.FirstOccupiedIndex | src/app/engine/time.ts:55 | `findIndex` over the leg kinds: -1 exactly when no leg is occupied, otherwise an occupied leg with no occupied leg before it |
| TimeRules.LegsWithTime | src/app/engine/time.ts:72-95 | one timed leg per input leg, in order, each the input leg with its actual and adjusted hours and its distance |
| TimeRules.ApplyTimeAdjustments | src/app/engine/time.ts:14-152 | the source's scan (per-leg minimum over occupied legs with early return, first occupied leg, then the totals) computes exactly the validated outcome |
| TimeRules.OutcomeIsChecksThenTimed | src/app/engine/time.ts:14-151 | success exactly when neither the leg minimums nor the totals reject; the success value is the timed legs with their hours; a failing leg minimum is reported before anything else |
| TimeRules.TimedLegsShape | src/app/engine/time.ts:27-29 | taxi and buffer are clamped into [0, 10]; every timed leg keeps kind and endpoints, has actual = seconds / 3600, and adds taxi + buffer exactly when `applyTo` selects its kind |
| TimeRules.TimedLegsAre | src/app/engine/time.ts:27-95 | the timed legs are built with the clamped taxi and buffer and the knobs' `applyTo` |
| TimeRules.WithTimeIsShaped | src/app/engine/time.ts:72-95 | a single timed leg: kind and endpoints kept, actual hours = seconds / 3600, adjusted = actual + taxi + buffer when selected and = actual otherwise |
| TimeRules.TimeRejects | src/app/engine/time.ts:34-149 | every failure of the validation is a `reject(...)` result, never a thrown error |
| TimeRules.ChecksReject | src/app/engine/time.ts:34-149 | each check, leg or totals, that fails produces a rejection |
| TimeRules.PassedKeepsLegs | src/app/engine/time.ts:72-95 | after a successful validation the timed legs are as many as the input legs and keep their kinds and endpoints |
| TimeRules.HoursAddUp | src/app/engine/time.ts:97-103 | the total hours equal the (already rounded) occupied plus repo hours |
| TimeRules.MinLegTimeDecides | src/app/engine/time.ts:34-52 | the result is `MIN_LEG_TIME` if and only if the per-leg minimum is set and some occupied leg's actual hours are below it |
| TimeRules.MinFirstOccupiedDecides | src/app/engine/time.ts:54-70 | once the per-leg minimum passes, the result is `MIN_FIRST_OCCUPIED` if and only if that minimum is set and the first occupied leg's actual hours are below it |
| TimeRules.TotalsChecksInOrder | src/app/engine/time.ts:105-149 | the total-time minimum is checked first, then the occupied-total minimum, then the daily ceiling with its 1e-9 tolerance; the totals pass exactly when none of the three trips |
| TimeRules.AverageIsPerDay | src/app/engine/time.ts:133-139 | at least one calendar day is touched, and the average times the days touched gives back the occupied hours |
| Text.Upper | src/app/engine/fees.ts:37 | `toUpperCase` keeps the length and upper-cases each ASCII letter, leaving every other character alone |
| Text.Lower | src/app/utils/pageUtils.ts:184 | `toLowerCase` keeps the length and lower-cases each ASCII letter, leaving every other character alone |
| Text.Prefix | src/app/engine/zones.ts:113 | `slice(0, n)`: the first n characters, or the whole string when it is shorter, and always a prefix of it |
| Text.LexLeReflexive | src/app/engine/zones.ts:116 | the string comparison used for date ranges holds between a date and itself, so a one-day range contains its own day |
| Text.JoinSplit | src/app/utils/pageUtils.ts:55 | `split(sep)` loses nothing: joining the parts with the separator gives back the input |
| Text.SplitPartsAvoidSeparator | src/app/utils/pageUtils.ts:55 | no part produced by `split(sep)` contains the separator |
| Text.Trim | src/app/utils/pageUtils.ts:84 | `trim()` returns a slice of the input that cuts off only whitespace at the two ends (ECMAScript white space and line terminators, the byte order mark and every space separator included), and the result has no such character at either end |
| QuoteResult.FeeCodes | src/app/engine/quoteResult.ts:24-41 | a code starts with `FEE_` if and only if it is one of the seven fee codes, so the fee filter by prefix selects exactly the fee items |
| Eligibility.UpperAll | src/app/engine/eligibility.ts:24-26 | the excluded-state list upper-cased element by element, same length and order |
| Eligibility.ListedIsUpperMember | src/app/engine/eligibility.ts:24-29 | a value is in the upper-cased set exactly when it is listed, case-insensitively |
| Eligibility.RunEligibility | src/app/engine/eligibility.ts:6-137 | the source's sequence of checks, with the geography rules scanned by a loop that returns on the first failure, computes exactly the gate's outcome |
| Eligibility.GeoRulesReject | src/app/engine/eligibility.ts:65-134 | a failing geography rule always yields a rejection |
| Eligibility.EligibilityRejects | src/app/engine/eligibility.ts:6-137 | whatever check fails, the gate answers with a rejection result |
| Eligibility.GeoStages | src/app/engine/eligibility.ts:66 | one stage per geography rule, in list order |
| Eligibility.Stages | src/app/engine/eligibility.ts:11-134 | the gate as a list of stages: the four fixed checks followed by one stage per rule |
| Eligibility.GeoRulesAreStages | src/app/engine/eligibility.ts:65-134 | the rule loop returns what the first failing rule stage returns |
| Eligibility.EligibilityIsFirstFailingStage | src/app/engine/eligibility.ts:6-137 | the gate's outcome is the outcome of the first failing stage, in the order domestic, states, advance, passengers, rules |
| Eligibility.FirstFailingNone | src/app/engine/eligibility.ts:6-137 | no stage list yields a rejection if and only if every stage passes |
| Eligibility.EligibleIffAllStagesPass | src/app/engine/eligibility.ts:136 | the trip is eligible (`null`) if and only if every stage passes |
| Eligibility.DomesticOnlyDecides | src/app/engine/eligibility.ts:11-21 | `DOMESTIC_ONLY` is the outcome if and only if the knob is on and an endpoint's country, missing read as "US", is not US |
| Eligibility.GeoNeverEarlierCodes | src/app/engine/eligibility.ts:65-134 | the rule loop can only produce `COUNTRY_NOT_ALLOWED`, `GEO_RULE_FAIL` or `MISSING_RETURN` |
| Eligibility.StateExcludedDecides | src/app/engine/eligibility.ts:23-36 | once the domestic check passes, `STATE_EXCLUDED` is the outcome if and only if the list is non-empty and a non-empty endpoint state is listed |
| Eligibility.AdvanceDecides | src/app/engine/eligibility.ts:38-50 | after the first two checks, `ADVANCE_TOO_FAR` is the outcome if and only if the limit is set and the departure is more than the limit plus 1e-9 days away |
| Eligibility.PaxDecides | src/app/engine/eligibility.ts:52-63 | after the first three checks, `PAX_LIMIT` is the outcome if and only if both numbers are present and the passengers exceed the maximum |
| Eligibility.GeoRulesDecide | src/app/engine/eligibility.ts:65-136 | after the fixed checks, the outcome is that of the rule loop, and with no rules the trip is eligible |
| Eligibility.MississippiOneWay | src/app/engine/eligibility.ts:84-94 | a one-way trip passes the Mississippi rule if and only if both endpoints lie on the side the rule requires; otherwise it fails with `GEO_RULE_FAIL` |
| Eligibility.MississippiRoundTrip | src/app/engine/eligibility.ts:95-131 | a round trip without a return fails with `MISSING_RETURN`; up to the night threshold only the origin side counts, beyond it both sides must match |
| Eligibility.AllowedCountriesRule | src/app/engine/eligibility.ts:67-78 | the rule passes if and only if each endpoint's country is missing or in the allowed list, case-insensitively |
| Repo.ResolveVhbCandidates | src/app/engine/repo.ts:7-22 | the candidates are de-duplicated entries of `vhbSets.default` (missing read as empty), and there are none exactly when that list is empty |
| Repo.ClosestIndex | src/app/engine/repo.ts:120-130 | the index of a candidate no farther than any other and strictly closer than every earlier one |
| Repo.FirstClosestUnique | src/app/engine/repo.ts:127 | with the strict `<` there is exactly one first-closest candidate, so ties go to the earliest |
| Repo.ClosestStep | src/app/engine/repo.ts:125-128 | one loop step keeps the best-so-far: a strictly closer candidate becomes the best, a tie or a farther one leaves it |
| Repo.ClosestAirportByDistance | src/app/engine/repo.ts:120-130 | `null` exactly for an empty list, otherwise one of the candidates, and the only one when there is one |
| Repo.FindClosestAirportByDistance | src/app/engine/repo.ts:120-130 | the source's scan with its running best returns the first closest candidate |
| Repo.RepoRejects | src/app/engine/repo.ts:43-79 | every failure of `buildRepoLegs` is a rejection result |
| Repo.BuildRepoLegs | src/app/engine/repo.ts:24-118 | the imperative build (bases, then pushes onto the outbound and inbound lists) returns exactly the repo plan |
| Repo.RepoLegsErrors | src/app/engine/repo.ts:43-79 | fails exactly in two cases: `MISSING_BASE` for a fixed base with no base airport, `MISSING_VHB_LIST` for the network mode with no candidates; `VHB_NOT_FOUND` cannot occur |
| Repo.RepoLegsShape | src/app/engine/repo.ts:81-117 | at most one leg each way; a repo leg base→start exists exactly when the policy covers outbound and the base differs from the start by ICAO, case-insensitively; symmetrically end→base inbound; both bases are reported |
| Repo.NetworkBasesAreClosest | src/app/engine/repo.ts:56-79 | in the network mode with candidates the build succeeds, and each chosen base is a candidate no farther from its endpoint than any other |
| Repo.EnforceRepoConstraints | src/app/engine/repo.ts:132-167 | no effect unless `rejectIfExceeded`; then `REPO_OUT_TOO_LONG` exactly when outbound exceeds its maximum, else `REPO_BACK_TOO_LONG` exactly when inbound exceeds its maximum, and `null` exactly when both are within |
| FlightTime.CategoryAvgSpeedKnots | src/app/engine/flightTime.ts:27-48 | the average speed of each of the eight categories, 430 knots for any other, and always positive so the division is defined |
| FlightTime.LegRequests | src/app/engine/flightTime.ts:14 | the estimator receives one request per leg, in order, carrying the leg's endpoints and kind |
| FlightTime.CalcFlightSeconds | src/app/engine/flightTime.ts:7-25 | with an estimator its answer is passed through unchanged; without one there is one non-negative duration per leg, distance over category speed in whole seconds |
| Zones.ZoneForAirportIsFirst | src/app/engine/zones.ts:18-29 | `null` exactly when no zone lists the airport (ICAO compared case-insensitively); otherwise the earliest zone that lists it |
| Zones.FindZoneForAirport | src/app/engine/zones.ts:18-29 | the source's loop with early return finds that first zone |
| Zones.FindClosestAirportInZone | src/app/engine/zones.ts:34-57 | the scan with a running minimum starting at infinity returns `null` for an empty zone and otherwise its first closest airport |
| Zones.ZonePairs | src/app/engine/zones.ts:78-79 | the (zone, airport) pairs the nested loop visits: every listed airport of every zone and nothing else, empty exactly when all zones are empty |
| Zones.ZoneRow | src/app/engine/zones.ts:79 | the inner loop's pairs for one zone, one per airport in order |
| Zones.PairAirports | src/app/engine/zones.ts:79-88 | the airports of the visited pairs, in order |
| Zones.PairAirportsSnoc | src/app/engine/zones.ts:79-88 | visiting one more pair appends its airport |
| Zones.ZoneForEndpoint | src/app/engine/zones.ts:64-93 | a zone that lists the endpoint wins, with the endpoint itself as airport; otherwise the result is a zone airport no farther from the endpoint than any other, and `null` only when every zone is empty |
| Zones.SelectZoneForEndpoint | src/app/engine/zones.ts:64-93 | the source's direct lookup followed by the nested scan returns exactly that selection |
| Zones.ScanZone | src/app/engine/zones.ts:79-89 | one pass of the inner loop keeps the best match so far the first closest among all pairs seen |
| Zones.RepoRatesAreFirst | src/app/engine/zones.ts:98-103 | `getZoneRepoRates` is the first rate record with that zone id, `null` exactly when none has it |
| Zones.MultiplierIsFirst | src/app/engine/zones.ts:134 | the peak's multiplier record is the first one with that zone id, `null` exactly when none has it |
| Zones.PeakIsFirst | src/app/engine/zones.ts:109-121 | the first peak period whose inclusive date range holds the date, `null` exactly when none does |
| Zones.FindPeakPeriod | src/app/engine/zones.ts:109-121 | the source's loop over the periods, comparing the first ten characters of the date, finds that first period |
| Zones.GetPeakMultiplier | src/app/engine/zones.ts:127-140 | 1.0 when the peak has no multipliers or none for the zone, otherwise the first matching record's origin or destination multiplier as the direction says |
| Zones.CalcZoneRepoCost | src/app/engine/zones.ts:147-218 | a leg whose relevant end (`from` outbound, `to` inbound) is in no zone costs 0 at rate 0 and multiplier 1; otherwise the rate is the zone's directional rate times the peak multiplier, the cost is hours times that rate rounded to cents, and the peak is reported exactly when one applies |
| Zones.OffPeakRepoCost | src/app/engine/zones.ts:196-205 | outside every peak period the multiplier is 1, no peak is reported, and the cost is hours times the base rate |
| Zones.BuildZoneCalculationInfo | src/app/engine/zones.ts:223-305 | a side is described exactly when both its zone and airport are given, with the zone id, the selected airport and its direction; the occupied rate is scaled by the peak's occupied multiplier (1 by default); peak details appear exactly when a peak applies and carry a repo multiplier for each side whose zone is given |
| Zones.InfoSides | src/app/engine/zones.ts:246-278 | each described side is the zone's rate record for its direction, scaled by the peak multiplier |
| Zones.SideMatchesRepoCost | src/app/engine/zones.ts:189-204 | for the zone a leg's relevant airport belongs to, the described rates equal the rates the leg is charged at |
| Zones.OutboundInfoAgreesWithLegCost | src/app/engine/zones.ts:246-261 | the outbound side's base and applied rates are those `calcZoneRepoCost` charges an outbound leg from that zone |
| Zones.InboundInfoAgreesWithLegCost | src/app/engine/zones.ts:263-278 | the inbound side's base and applied rates are those `calcZoneRepoCost` charges an inbound leg into that zone |
| Pricing.CalcBaseCost | src/app/engine/pricing.ts:8-76 | single hourly: `MISSING_RATE` on `pricing.hourlyRate` unless it is a positive number, else both hour counts at that rate rounded to cents; dual rate: the repo rate is checked before the occupied rate, each hour count at its own rate; zone based: `ZONE_PRICING_ERROR`; every success is whole cents |
| Pricing.SingleHourlyIsDirectionBlind | src/app/engine/pricing.ts:25-28 | with one rate, equal occupied and repo hours cost the same |
| Pricing.BaseCostFailsIff | src/app/engine/pricing.ts:15-66 | the base cost fails exactly when the rate model's required rates are missing or not positive, and always for the zone-based model |
| Pricing.PerLegFloorItems | src/app/engine/pricing.ts:95-113 | at most one `FEE_MIN_PRICE_PER_LEG` item, a non-negative whole number of cents |
| Pricing.TripFloorItems | src/app/engine/pricing.ts:115-127 | at most one `FEE_MIN_TRIP_PRICE` item, a non-negative whole number of cents |
| Pricing.CapItems | src/app/engine/pricing.ts:129-140 | at most one `DISCOUNT_MAX_TRIP_PRICE_CAP` item, a non-positive whole number of cents |
| Pricing.ApplyPriceConstraints | src/app/engine/pricing.ts:82-143 | no constraints give no items; otherwise at most three, in the order per-leg floor, trip floor, cap, floors non-negative and the cap non-positive, all whole cents |
| Pricing.ConstraintsAreSteps | src/app/engine/pricing.ts:92-142 | the items are the three steps in sequence, each seeing the running total the earlier ones produced |
| Pricing.ConstrainedTotalOfSteps | src/app/engine/pricing.ts:93-140 | the final total is the total after both floors plus the cap's reduction |
| Pricing.FloorsMet | src/app/engine/pricing.ts:95-127 | after the per-leg step the total reaches the per-leg minimum times the occupied legs (within half a cent) and never drops; after both floors it reaches the trip minimum |
| Pricing.CeilingMet | src/app/engine/pricing.ts:129-140 | with a maximum set, the constrained total never exceeds it by more than half a cent |
| Pricing.CapBound | src/app/engine/pricing.ts:130-139 | the cap brings any total to the maximum (within half a cent) and adds nothing when the total is already within it |
| Pricing.TripFloorMet | src/app/engine/pricing.ts:115-140 | when the cap does not bind, the constrained total reaches the trip minimum (within half a cent) |
| Pricing.NothingBinds | src/app/engine/pricing.ts:90-142 | a total that already satisfies every constraint gets no items |
| Pricing.ZeroFloorAdjustment | src/app/engine/pricing.ts:116-126 | a total half a cent or less below the trip minimum still gets a `FEE_MIN_TRIP_PRICE` item, of amount 0 |
| Pricing.WithZoneMeta | src/app/engine/pricing.ts:217-228 | the enriched leg keeps kind, endpoints, hours and base, and gains the zone, the applied rate and the direction; the peak multiplier is recorded only when it is not 1 |
| Pricing.EnrichedLegs | src/app/engine/pricing.ts:195-229 | one enriched leg per input leg, in order |
| Pricing.ZoneItems | src/app/engine/pricing.ts:195-250 | one `BASE_REPO_ZONE` item per repo leg, each a whole number of cents |
| Pricing.ZoneItemsStep | src/app/engine/pricing.ts:196-249 | each loop step adds an item for its leg exactly when the leg is a repo leg, with that leg's zone cost |
| Pricing.PriceZoneRepoLegs | src/app/engine/pricing.ts:191-250 | the source's loop accumulates exactly the zone items, their sum and the enriched legs |
| Pricing.CalcZoneBasedCost | src/app/engine/pricing.ts:149-258 | the imperative computation returns exactly the zone-based cost described by the model |
| Pricing.ZoneBasedErrorsInOrder | src/app/engine/pricing.ts:164-182 | fails exactly when the zone network is missing (`MISSING_ZONE_CONFIG`, checked first) or the occupied rate is not a positive number (`MISSING_RATE`) |
| Pricing.ZoneBasedShape | src/app/engine/pricing.ts:184-257 | the legs keep their kind and endpoints, non-repo legs pass through, the first leg is priced at the origin rate and the rest at the destination rate; one item per repo leg, and both bases are whole cents, the repo base being the rounded item sum |
| Fees.GroundItems | src/app/engine/fees.ts:14-30 | at most one `FEE_GROUND_HANDLING` item; present exactly when a non-zero per-segment amount is set and the segment count (all legs or occupied legs only) times it, in cents, is positive; then it is that amount |
| Fees.CappedAmount | src/app/engine/fees.ts:59-60 | the visit charge never exceeds a set trip cap, and is visits times the fee when no cap is set |
| Fees.HdAmount | src/app/engine/fees.ts:59-61 | the high-density amount is whole cents, within half a cent of the cap when one is set, and the rounded visit charge otherwise |
| Fees.HdItems | src/app/engine/fees.ts:32-70 | at most one `FEE_HIGH_DENSITY` item; present exactly when a non-zero fee per visit is set, the airport list is non-empty and the capped, rounded amount is positive; then it is that amount |
| Fees.VisitsOfOccupied | src/app/engine/fees.ts:40-48 | the segment-endpoint and arrival modes count only occupied legs: filtering first changes nothing |
| Fees.AddVisits | src/app/engine/fees.ts:40-53 | the counting loop adds exactly the visits of the legs it walks |
| Fees.CountHdVisits | src/app/engine/fees.ts:36-57 | the source's counting, mode by mode plus the round-trip origin double charge, gives exactly the modelled visit count |
| Fees.ChargedLandings | src/app/engine/fees.ts:83-120 | homebase origin: only occupied legs; homebase mode otherwise: the first (at most) three legs, because of the `break`; standard arrivals-only: only occupied legs; standard otherwise: every leg |
| Fees.LandingItems | src/app/engine/fees.ts:72-130 | at most one `FEE_LANDING` item; present exactly when a non-zero default amount is set and the rounded sum of the per-landing charges is positive; then it is that amount |
| Fees.LandingFlatRate | src/app/engine/fees.ts:114-119 | when no landing gets the high-density override, the total is the number of landings times the default amount |
| Fees.AddLandings | src/app/engine/fees.ts:114-119 | the summing loop adds exactly the per-landing charges |
| Fees.SumLandingCharges | src/app/engine/fees.ts:78-120 | the source's branches and loops, including the early `break`, sum exactly the charges of the charged landings |
| Fees.Nights | src/app/engine/fees.ts:134-144 | the overnight count is never negative |
| Fees.OvernightItemsAsWritten | src/app/engine/fees.ts:132-158 | the overnight rule as written, which the fee list uses: at most one `FEE_OVERNIGHT` item, present exactly when the rule applies, there are nights and the nightly amount is positive, whatever its rounded charge; then it is that charge, a non-negative whole number of cents |
| Fees.OvernightZeroAmount | src/app/engine/fees.ts:150-157 | as written, a positive rate below half a cent per night pushes an overnight item of amount 0 |
| Fees.OvernightItems | src/app/engine/fees.ts:132-158 | the corrected rule: at most one `FEE_OVERNIGHT` item, present exactly when the rule applies, there are nights, the rate is positive and the rounded charge is positive; then it is that charge |
| Fees.OvernightCorrectionOnlyDropsZero | src/app/engine/fees.ts:150-157 | the corrected rule differs from the code as written only by dropping a zero-amount item |
| Fees.DailyItems | src/app/engine/fees.ts:160-181 | at most one `FEE_DAILY` item; present exactly when a non-zero daily amount is set and the rounded total over the touched dates is positive; then it is that total |
| Fees.DailyFlatRate | src/app/engine/fees.ts:167-171 | with no override for any touched date, the total is the number of days times the daily amount |
| Fees.SumDailyFees | src/app/engine/fees.ts:162-171 | the source's loop over the touched dates, each priced by its first override or the default, sums exactly the daily total |
| Fees.ChainWeaken | src/app/engine/fees.ts:12-183 | an ordered fee list stays ordered under a looser rank bound |
| Fees.ChainIsFeeList | src/app/engine/fees.ts:12-183 | a list built section by section has distinct fee codes in section order, whole-cent amounts (positive, except an overnight amount, which may be 0), and no more items than sections |
| Fees.AppendFee | src/app/engine/fees.ts:12-183 | appending a section's (at most one) item keeps the list ordered |
| Fees.FirstSections | src/app/engine/fees.ts:14-70 | ground handling then high density form an ordered list |
| Fees.MiddleSections | src/app/engine/fees.ts:14-158 | the first four sections, the overnight one as written (possibly a zero amount), form an ordered list of whole-cent items |
| Fees.FeeSections | src/app/engine/fees.ts:14-181 | all five sections, the overnight one as written (possibly a zero amount), form an ordered list of whole-cent items |
| Fees.FeesAreOrdered | src/app/engine/fees.ts:6-184 | `calcFees` returns at most five items, at most one per fee code, in the order ground, high density, landing, overnight, daily, each a whole number of cents, positive except for the overnight fee, which may be 0 because its push is not guarded by the rounded amount |
| Fees.FeeItemsAreFees | src/app/engine/fees.ts:6-184 | every item `calcFees` returns has a `FEE_` code, so the fee bucket picks all of them up |
| Fees.GroundHandlingFee | src/app/engine/fees.ts:14-30 | the imperative section computes exactly the ground-handling items |
| Fees.HighDensityFee | src/app/engine/fees.ts:32-70 | the imperative section computes exactly the high-density items |
| Fees.LandingFee | src/app/engine/fees.ts:72-130 | the imperative section computes exactly the landing items |
| Fees.OvernightFeeItems | src/app/engine/fees.ts:132-158 | the imperative section computes exactly the overnight items as written, a zero charge included |
| Fees.DailyFeeItems | src/app/engine/fees.ts:160-181 | the imperative section computes exactly the daily items |
| Fees.CalcFees | src/app/engine/fees.ts:6-184 | pushing the sections one after another builds exactly the fee list, with the overnight section as written |
| Discounts.DiscountAmount | src/app/engine/discounts.ts:42 | the discount is whole cents, and never positive for a non-negative base and fraction |
| Discounts.CalcVhbDiscount | src/app/engine/discounts.ts:6-51 | no item exactly when the discount is missing, off, has a non-positive percent, the trip does not qualify under its mode, or the amount rounds to zero; otherwise one `DISCOUNT_VHB` item of minus the chosen base times the percent (a fraction, not divided by 100), non-zero and whole cents |
| Discounts.BothRequiredIsStricter | src/app/engine/discounts.ts:26-33 | a trip that qualifies under `both_required` qualifies under `origin_or_destination`, and the latter holds exactly when origin or destination is a candidate by ICAO, case-insensitively |
| Discounts.VhbDiscountIsNegative | src/app/engine/discounts.ts:36-43 | on non-negative subtotals an issued VHB discount is strictly negative |
| Discounts.CalcTimeBasedDiscount | src/app/engine/discounts.ts:57-102 | no item exactly when the discount is missing or disabled, its percent is not positive, some occupied leg's actual hours (missing read as 0) fall below the threshold, or the amount rounds to zero; otherwise one `DISCOUNT_TIME_BASED` item of minus the chosen base times percent / 100, non-zero and whole cents |
| Discounts.TimeBasedDiscountIsNegative | src/app/engine/discounts.ts:80-90 | on non-negative subtotals an issued time-based discount is strictly negative |
| Discounts.ShortOccupiedLegWithholds | src/app/engine/discounts.ts:69-77 | one occupied leg under the threshold withholds the discount |
| Discounts.TimeBasedIgnoresRepoLegs | src/app/engine/discounts.ts:69-75 | repo legs play no part: the discount on all legs equals the discount on the occupied legs alone |
| Aggregation.Select | src/app/engine/aggregation.ts:6-18 | `filter` keeps exactly the items the bucket's predicate selects |
| Aggregation.SelectConcat | src/app/engine/aggregation.ts:6-18 | filtering distributes over concatenation, keeping order |
| Aggregation.BucketSumConcat | src/app/engine/aggregation.ts:6-18 | a bucket of a concatenation sums to the two buckets' sums added |
| Aggregation.SummarizeTotals | src/app/engine/aggregation.ts:5-27 | each of the five totals is whole cents and within half a cent of its unrounded bucket sum: base occupied, base repo, the `FEE_` items, the negative items, and everything |
| Aggregation.SelectAll | src/app/engine/aggregation.ts:18 | the everything bucket is the whole list |
| Aggregation.DiscountsNonPositive | src/app/engine/aggregation.ts:15-17 | the discounts bucket and its rounded total are never positive |
| Aggregation.SelectNone | src/app/engine/aggregation.ts:6-18 | a bucket that selects no item is empty |
| Aggregation.SelectAllSelected | src/app/engine/aggregation.ts:6-18 | a bucket that selects every item is the whole list |
| Aggregation.ZoneRepoItemsExcluded | src/app/engine/aggregation.ts:9-11 | `BASE_REPO_ZONE` items do not count towards the `BASE_REPO` total |
| Aggregation.Tag | src/app/engine/aggregation.ts:38-45 | each item keeps everything but gains its half's tag, one tagged item per item in order |
| Aggregation.Merged | src/app/engine/aggregation.ts:37-46 | the outbound items tagged outbound, followed by the return items tagged return |
| Aggregation.TagKeepsBuckets | src/app/engine/aggregation.ts:38-45 | tagging changes no bucket's sum |
| Aggregation.SumTwoQuotes | src/app/engine/aggregation.ts:29-71 | status OK; legs concatenated; items merged with their half tags; totals recomputed from the merged items; occupied and repo hours added (missing read as 0) and total = their sum; the `INFO_SPLIT` reason present exactly when a non-empty note is given |
| Aggregation.MergedBuckets | src/app/engine/aggregation.ts:37-48 | every bucket of the merged items sums to the two quotes' bucket sums added, so merged totals are the halves' totals up to rounding |
| Engine.ValidateBasics | src/app/engine/index.ts:242-300 | `null` exactly when nothing is missing; otherwise the first failure, in the order: the return time of a round trip, the rates the model needs (hourly, or repo then occupied), a fixed base, the VHB list |
| Engine.OutboundRequest | src/app/engine/index.ts:45-53 | the outbound half is the same trip and knobs as a one-way with no return time or zone |
| Engine.ReturnRequest | src/app/engine/index.ts:55-67 | the return half swaps the endpoints, departs at the return time in the return zone, and is a one-way with no return |
| Engine.HalvesAreNotSplit | src/app/engine/index.ts:37-78 | neither half is split again, and neither fails the missing-return check |
| Engine.RouteOf | src/app/engine/index.ts:89-133 | on success the route's legs are the outbound repo legs, the occupied legs and the inbound repo legs in that order, the repo plan is the one `buildRepoLegs` returns, and the timed legs match them one for one in kind and endpoints; every failure is a rejection |
| Engine.PlanRoute | src/app/engine/index.ts:89-133 | the source's sequence (eligibility, candidates, repo legs, flight seconds, time rules, with early returns) computes exactly that route |
| Engine.RepoHoursSplit | src/app/engine/index.ts:135-144 | the outbound and inbound repo hours together are all the repo legs' adjusted hours |
| Engine.RepoHoursSplitOfBlocks | src/app/engine/index.ts:135-144 | on legs made of a repo block, a non-repo block and a repo block, the first `nOut` repo legs are the first block and the rest are the last block |
| Engine.RouteBlocks | src/app/engine/index.ts:118-144 | the timed legs of `[...legsOut, ...occupiedLegs, ...legsBack]` are repo legs exactly in the outer two blocks, and the split gives the repo-out legs' hours as outbound and the repo-back legs' hours as inbound |
| Engine.RouteRepoHours | src/app/engine/index.ts:110-144 | for every timed route, `repoOutHours` is the adjusted hours of the repo-out legs and `repoBackHours` those of the repo-back legs |
| Engine.MatchScoreReject | src/app/engine/index.ts:153-166 | `MATCH_SCORE_TOO_LOW` exactly when scoring is enabled, a score is defined, the action is `reject` and the score is below the threshold |
| Engine.PricedItems | src/app/engine/index.ts:172-212 | the ledger starts with the `BASE_OCCUPIED` and `BASE_REPO` items carrying the base cost |
| Engine.PriceItinerary | src/app/engine/index.ts:172-212 | the source's successive pushes (base items, the match-score item, the fees, then the VHB discount computed over the items so far) build exactly that ledger |
| Engine.PricedQuote | src/app/engine/index.ts:214-239 | an OK quote with no reasons, the timed legs, the ledger starting with the two base items, and totals summarised from that ledger |
| Engine.QuoteRoute | src/app/engine/index.ts:135-239 | the second half is either a rejection or an OK quote whose legs are the timed legs and whose totals are summarised from its ledger |
| Engine.QuoteTimedRoute | src/app/engine/index.ts:135-239 | the source's repo limits, match score gate, base cost, ledger and totals compute exactly that quote |
| Engine.QuoteOneItineraryOf | src/app/engine/index.ts:84-240 | one itinerary ends in a rejection or an OK quote without reasons, unless the injected estimator fails |
| Engine.QuoteOneItinerary | src/app/engine/index.ts:84-240 | the imperative pipeline computes exactly that outcome |
| Engine.SplitOutcome | src/app/engine/index.ts:69-77 | a failed or rejected outbound half is the answer; else a failed or rejected return half; else the merge, OK, with the `INFO_SPLIT` reason and the halves' tagged items |
| Engine.QuoteSplit | src/app/engine/index.ts:45-77 | the split branch quotes the outbound half, then the return half only if needed, and returns exactly that outcome |
| Engine.QuoteEngine | src/app/engine/index.ts:28-82 | the imperative entry point computes the engine's outcome: validation, then the split, then one itinerary |
| Engine.EligibilityDecidesFirst | src/app/engine/index.ts:95-96 | an ineligible trip is answered with the eligibility rejection before any repo or time work |
| Engine.SuccessShape | src/app/engine/index.ts:91-239 | an OK itinerary quote carries the timed legs of repo-out, occupied and repo-back legs in order, one per leg with kind and endpoints kept, a ledger starting with the two base items, totals summarised from it, and no reasons |
| Engine.OneItineraryStatus | src/app/engine/index.ts:84-240 | every itinerary quote is a rejection or an OK quote without reasons |
| Engine.FeeBucketOfLedger | src/app/engine/index.ts:196-201 | in base items, then fees, then non-fee items, the `FEE_` filter picks out exactly the fees |
| Engine.FeeBucketIsFees | src/app/engine/index.ts:196-201 | the fee subtotal given to the VHB discount is the sum of exactly the fee items pushed by `calcFees` |
| Engine.ItineraryFeeBucket | src/app/engine/index.ts:196-201 | the same for the fee list `calcFees` actually returns |
| Engine.SplitOutboundRejectionWins | src/app/engine/index.ts:69-70 | in a split, a rejected outbound half is the engine's answer |
| Engine.SplitMerges | src/app/engine/index.ts:69-77 | in a split with two OK halves the answer is OK, carries the `INFO_SPLIT` reason, and its items are the outbound items tagged outbound followed by the return items tagged return |
| Engine.SplitIsOutcome | src/app/engine/index.ts:44-77 | a valid request whose overnights exceed the split threshold is answered by combining the quotes of its outbound and return halves |
| Engine.NoSplitIsOneItinerary | src/app/engine/index.ts:37-81 | a valid request that is not split is quoted as a single itinerary |
| Engine.BasicsComeFirst | src/app/engine/index.ts:34-35 | a request failing basic validation is answered with that rejection before anything else |
| PageUtils.SetPath | src/app/utils/pageUtils.ts:50-70 | writing along a dotted path adds exactly the path's first key to the top-level keys |
| PageUtils.GetAfterSet | src/app/utils/pageUtils.ts:50-70 | reading back the path just written gives the written value |
| PageUtils.SetMakesObjects | src/app/utils/pageUtils.ts:57-66 | every proper prefix of a written path leads to an object afterwards (missing or non-object steps are replaced by `{}`) |
| PageUtils.SetLeavesOtherKeys | src/app/utils/pageUtils.ts:50-70 | a write does not disturb any path that starts with a different top-level key |
| PageUtils.SetPathStep | src/app/utils/pageUtils.ts:57-69 | one step of the walk: writing below key k descends into that key's object (or `{}`) and replaces it |
| PageUtils.SetNestedValue | src/app/utils/pageUtils.ts:50-70 | the loop over `path.split(".")` produces exactly the nested write of the value at that path |
| PageUtils.GetNestedValue | src/app/utils/pageUtils.ts:103-111 | the loop returns the value at the dotted path, `undefined` as soon as a step is not an object |
| PageUtils.NonEmpty | src/app/utils/pageUtils.ts:85 | `filter(Boolean)` keeps exactly the non-empty codes; with NonEmptyConcat it is an order- and multiplicity-preserving filter |
| PageUtils.NonEmptyConcat | src/app/utils/pageUtils.ts:85 | `filter(Boolean)` distributes over concatenation, keeps a non-empty single code and drops an empty one |
| PageUtils.TrimAll | src/app/utils/pageUtils.ts:84 | every item is trimmed, positions kept |
| PageUtils.ResolveAirports | src/app/utils/pageUtils.ts:86-87 | only codes found in the airport table survive, each as that airport; when all are known, all survive in order; with ResolveAirportsConcat and ResolveOneAirport, every known code survives in order whatever else the list holds |
| PageUtils.ResolveAirportsConcat | src/app/utils/pageUtils.ts:86-87 | resolution distributes over concatenation, so an unknown code drops only itself |
| PageUtils.ResolveOneAirport | src/app/utils/pageUtils.ts:86-87 | one code gives its airport when the table has it, nothing otherwise |
| PageUtils.FinalPath | src/app/utils/pageUtils.ts:78-80 | a `fees.landing.` path is renamed to `fees.landingFees.` with the same tail; other paths are kept |
| PageUtils.AirportValueCases | src/app/utils/pageUtils.ts:81-91 | a string under a multi-airport path becomes the resolved list, under a single-airport path the airport or null, and any other value is kept |
| PageUtils.BuildPricingKnobs | src/app/utils/pageUtils.ts:72-101 | the loop over the knob entries builds the same object as writing each kept entry in order |
| PageUtils.SkippedKnobWritesNothing | src/app/utils/pageUtils.ts:75 | a null, undefined or empty-string value leaves the result unchanged |
| PageUtils.LastKnobReadsBack | src/app/utils/pageUtils.ts:76-98 | the last kept entry can be read back at its renamed path as its final value |
| PageUtils.LegacyLandingModeRenamed | src/app/utils/pageUtils.ts:78-97 | the legacy `fees.landing.countingMode = "landings"` is written as `fees.landingFees.countingMode = "landings_including_repo"` |
| PageUtils.IcaoCodes | src/app/utils/pageUtils.ts:124-130 | only truthy `icao` codes of the airport objects are kept; IcaoCodesConcat makes it the in-order list of every object's truthy `icao` |
| PageUtils.IcaoCodesConcat | src/app/utils/pageUtils.ts:124-130 | the extraction distributes over concatenation; one element gives its truthy `icao` when it is an object, nothing otherwise |
| PageUtils.DefaultValueFor | src/app/utils/pageUtils.ts:118-149 | a nullish knob gives no default; a string, number or boolean knob is its own default; a multi-airport list gives its `icao` codes joined with `, `; a single-airport object with a truthy `icao` gives that code; any other object or array gives none |
| PageUtils.BuildDefaultKnobValues | src/app/utils/pageUtils.ts:113-154 | the result holds exactly the field paths that have a default, each with that default |
| PageUtils.TripValuesEqual | src/app/utils/pageUtils.ts:160-164 | two planner trips (or two nulls) are equal exactly when every trip field agrees |
| PageUtils.KnobValuesEqualAsWritten | src/app/utils/pageUtils.ts:166-172 | the comparison as written: every record equals itself, and records with different key counts are unequal |
| PageUtils.KnobValuesEqualAsWrittenIsAsymmetric | src/app/utils/pageUtils.ts:166-172 | `{x: undefined}` equals `{y: 1}` as written, but not the other way round |
| PageUtils.KnobValuesEqual | src/app/utils/pageUtils.ts:166-172 | the corrected comparison holds exactly when the two value maps are equal |
| PageUtils.KnobValuesEqualProperties | src/app/utils/pageUtils.ts:166-172 | the corrected comparison is reflexive and symmetric, and agrees with the written one whenever no value of the first is `undefined` |
| PageUtils.ReplaceInvalid | src/app/utils/pageUtils.ts:185 | after replacing runs of other characters with `-`, only `a-z`, `0-9` and `-` remain, the text never grows, and a text of allowed characters comes through unchanged |
| PageUtils.CollapseDashes | src/app/utils/pageUtils.ts:186 | no two dashes are adjacent afterwards and no new character appears; a text without `--` is unchanged |
| PageUtils.StripEdgeDashes | src/app/utils/pageUtils.ts:187 | the result is the input with at most its first and its last character removed, something is removed only when an edge is a dash, and a text with no edge dash is unchanged |
| PageUtils.StripKeepsShape | src/app/utils/pageUtils.ts:185-187 | a name of allowed characters with no double dash has no edge dash once stripped |
| PageUtils.BuildExportName | src/app/utils/pageUtils.ts:174-188 | no trip gives `untitled`; otherwise the name uses only `a-z`, `0-9` and single inner dashes, and a trip whose joined, lower-cased parts are already such a name gets exactly that text |
| PageUtils.SlugIsFixed | src/app/utils/pageUtils.ts:185-187 | a text that is already a slug is unchanged by the three replacements |
| PageUtils.ExportNameExample | src/app/utils/pageUtils.ts:174-188 | the light-category trip from KTEB to KPBI without a trip type is named `trip-light-kteb-kpbi` |
| PageUtils.NormalizeGeoRulesValue | src/app/utils/pageUtils.ts:206-241 | anything but a legacy `mississippi` rule list is kept; a legacy list becomes one `mississippi_rule` with exactly five fields, each read from the config with its default: `both_west` only when both sides are west, else `both_east`; a non-numeric `maxOvernights` gives 0; an origin side other than west gives `east` |
| PageUtils.LegacyDefaults | src/app/utils/pageUtils.ts:211-226 | a legacy rule with an empty config yields `both_east`, 0 nights, `east`, `both_east` |
| PageUtils.NormalizeImportedKnobs | src/app/utils/pageUtils.ts:243-261 | the keys are kept; array values of the two airport-list keys are joined with `, `; the geo rules are normalised; every other value is unchanged |
| PageUtils.MergeDeep | src/app/utils/pageUtils.ts:263-277 | the keys are the union; base-only keys keep their value, and an override wins unless both sides are plain objects (which merge) |
| PageUtils.MergeWithEmpty | src/app/utils/pageUtils.ts:263-277 | merging an empty override gives the base back |
| PageUtils.MergeIntoSelf | src/app/utils/pageUtils.ts:263-277 | merging an object into itself changes nothing |
| PageUtils.MergeKeepsOverrideLeaves | src/app/utils/pageUtils.ts:263-277 | every non-object leaf of the override reached through objects is present unchanged in the merge |
| PageUtils.ReadyKnobsPassChecks | src/app/utils/pageUtils.ts:279-298 | knobs that pass `isKnobsReady` pass the engine's basic validation (unless the return date is missing) and price both rate models without error |
| PageUtils.BuildTripInput | src/app/utils/pageUtils.ts:315-333 | an engine trip exists exactly when both airports are known and trip type, category and departure are present; it carries those fields, the aircraft model and return time when they are non-empty (absent otherwise), and the passengers |
| PageUtils.BuiltTripReturnCheck | src/app/utils/pageUtils.ts:320-329 | a built trip lacks its return date exactly when the planner trip is a round trip with no return date |
| FlightTimeService.LegSeconds | src/app/services/FlightTimeCalculatorService.ts:44-54 | a leg's fallback duration is `max(0, round(hours × 3600) + taxi)`, with 600 taxi seconds when taxi time is added, and equals the unclamped value whenever the distance is not negative |
| FlightTimeService.FallbackDetails | src/app/services/FlightTimeCalculatorService.ts:43-62 | one detail per leg, in order, carrying the leg's airports, date and time and its fallback duration |
| FlightTimeService.SumDurationsAtLeast | src/app/services/FlightTimeCalculatorService.ts:65 | a sum of legs each at least `lo` seconds is at least `lo` times the number of legs |
| FlightTimeService.FallbackTotals | src/app/services/FlightTimeCalculatorService.ts:37-68 | the fallback total is the sum of its legs, never negative, and at least 600 seconds per leg when taxi time is added |
| FlightTimeService.TaxiIsFloor | src/app/services/FlightTimeCalculatorService.ts:50-54 | with taxi time, no leg is shorter than the 600-second taxi allowance |
| FlightTimeService.NoSpeedMeansTaxiOnly | src/app/services/FlightTimeCalculatorService.ts:50 | a model without a positive speed gets only the taxi allowance (or zero) per leg |
| FlightTimeService.ModelIds | src/app/services/FlightTimeCalculatorService.ts:146 | the set of ids is exactly the ids of the requested models |
| FlightTimeService.ModelIdsSnoc | src/app/services/FlightTimeCalculatorService.ts:146 | the ids of a list are the ids of its front plus the last model's id |
| FlightTimeService.FillMissingModels | src/app/services/FlightTimeCalculatorService.ts:146-155 | the loop over the models gives the same map as filling in, in order, every model missing from the response |
| FlightTimeService.FilledKeys | src/app/services/FlightTimeCalculatorService.ts:146-155 | after filling in, the map holds the response's ids plus every requested model id |
| FlightTimeService.FilledKeepsResponse | src/app/services/FlightTimeCalculatorService.ts:146-155 | a result the calculator returned is never replaced by a fallback |
| FlightTimeService.FilledFirstWins | src/app/services/FlightTimeCalculatorService.ts:147-154 | a model missing from the response gets the fallback of the first requested model with its id |
| FlightTimeService.AllFallback | src/app/services/FlightTimeCalculatorService.ts:79-94 | without the calculator, the result has exactly one entry per requested model id |
| FlightTimeService.LastIdIsNew | src/app/services/FlightTimeCalculatorService.ts:83-93 | with distinct ids, the front of the list has distinct ids, none of them the last model's |
| FlightTimeService.FillingEmptyIsAllFallback | src/app/services/FlightTimeCalculatorService.ts:83-93 | with distinct ids, filling in an empty response gives the same map as the no-calculator path |
| FlightTimeService.CalculateForModels | src/app/services/FlightTimeCalculatorService.ts:70-172 | every requested model gets an entry; without a response exactly those; with one, every returned result is kept as returned |
| Migrations.JsObject.constructor | src/app/engine/migrations.ts:10 | a new object holds exactly the given properties |
| Migrations.PendingSplit | src/app/engine/migrations.ts:11-13 | a pending value is a defined `maxNightsBeforeSplit` found on the `fees.overnight` object it names |
| Migrations.MigrateKnobs | src/app/engine/migrations.ts:9-23 | with nothing to move the result is a shallow copy and no object changes; otherwise the value moves to `trip` (a fresh one when `trip` is falsy, the existing object otherwise) and is deleted from the shared `overnight` object; a truthy primitive `trip` throws and changes nothing |

## Left out

- Network and I/O: the `fetch` to the flight-time calculator, its status check and the parsing of its JSON response are not modelled. `FlightTimeService.CalculateForModels` takes the parsed response as a parameter, with `None` meaning "not configured or the request failed". Console warnings and environment variables are left out as well.
- Floating point: amounts are exact reals. Binary rounding effects of JavaScript numbers are not modelled.
- QuoteResult.LineItem: the `meta` record of a line item (quoteResult.ts:44) is not modelled, apart from the split half it is tagged with. Texts meant for people are not modelled either: the labels of line items, the messages of rejection reasons, and `toFixed` formatting. The split note is one constant text; the overnight figures the source writes into it are dropped.
- Text.Upper, Text.Lower: `toUpperCase` and `toLowerCase` are modelled on ASCII letters only, because the model has no Unicode case tables.
- Dates are ISO strings read through the injected calendar, so `Date` parsing and time zones are not modelled.
- `haversineNm` is a parameter, because trigonometry is not available on reals. Its non-negativity is assumed only where a lemma's `requires` says so.
- FlightTime.CalcFlightSeconds: an injected estimator is assumed to answer with exactly one duration per leg (the `QuoteRequest.Estimator` type). The source passes any answer through (flightTime.ts:12-16): extra entries are ignored, and a short answer makes `actualSeconds[i]` undefined and the hours NaN (time.ts:72-73), which the model does not represent.
- Asynchrony: the estimator and calculator calls are plain function values. A throwing estimator is `None`, and the engine does not catch it, just as the source does not.
- Repo.ResolveVhbCandidates: `repo.vhbSets.byCategory` is ignored, like in the source.
- Engine: the rejections `VHB_NOT_FOUND` and `INVALID_RATE_MODEL` cannot arise from the orchestrator. Their code paths are modelled in `Repo` and `Pricing`, but no lemma reaches them from `Engine.QuoteEngineOf`.
- Engine: `calcTimeBasedDiscount`, `applyPriceConstraints` and `calcZoneBasedCost` are modelled with their own lemmas, but `index.ts` does not call them, so the engine model does not either. A `zone_based` rate model therefore falls through the dual-rate checks of `validateBasics` (index.ts:253-280).
- Engine: the split threshold is read from `fees.overnight.maxNightsBeforeSplit` (index.ts:42), as in the code, even though the migration moves that field to `trip`. The description of the system puts it under `trip`; the model follows the code.
- Engine: the merged split quote carries `INFO_SPLIT` as a reason (aggregation.ts:29-71), as in the code, rather than as an informational line item.
- Discounts.CalcVhbDiscount: `percent` is used as a fraction (discounts.ts:42), unlike the time-based discount, which divides by 100 (discounts.ts:89). Both are modelled as written.
- Pricing.ApplyPriceConstraints may push a `FEE_MIN_TRIP_PRICE` item of amount 0 when rounding closes the gap (`Pricing.ZeroFloorAdjustment`). This is modelled as written.
- The zone lookups (`Zones.FirstRates`, `Zones.FirstMultiplier`, `Zones.FirstPeak` and the zone of an airport) carry no `ensures` of their own. What they return is stated by `Zones.RepoRatesAreFirst`, `Zones.MultiplierIsFirst`, `Zones.PeakIsFirst` and `Zones.ZoneForAirportIsFirst`.
- Migrations.MigrateKnobs: the input must be an object. `migrateKnobs(null)` throws in JavaScript and is not modelled. A truthy primitive `trip` makes the assignment throw (strict mode); this is `ok == false`. When `trip` is the `overnight` object itself, the value is written and then deleted at once, so the state describes only the deletion.
- PageUtils: objects are values (maps), so the insertion order of JavaScript keys is not modelled. `Object.entries` order is the order of the entry sequence given to `PageUtils.BuildPricingKnobs`.
- PageUtils.SetNestedValue: objects are values, so the walk down the path is recorded first and the writes are then replayed from the innermost object outwards. The source instead mutates the nested objects while walking down. Where the walk reaches an object the caller supplied, the source changes that object; this happens in `buildPricingKnobs` when a knob value is itself an object and a later, deeper path writes below it (entries `fees = o`, then `fees.x = 1` write `x` into `o`). The model does not capture that mutation, nor its effect on other places that hold the same object.
- PageUtils.KnobValuesEqualAsWritten: `===` compares objects and arrays by reference in JavaScript, but structurally here.
- PageUtils: `KNOB_UI_TABS` is a parameter `fieldPaths`, and the airport table `airportsByIcao` is a parameter `airports`. The planner's `tripType` is restricted to the two trip types. `String(value)` of a non-integral number renders as the empty string in the join helpers.
- PageUtils.AirportValue and PageUtils.FinalValue carry no `ensures`; their cases are stated by `PageUtils.AirportValueCases` and `PageUtils.LegacyLandingModeRenamed`.
- PageUtils.MergeDeep: this is a function on values. The source builds a fresh object too, so nothing is lost.
- The React pages, the hooks, the API routes and the airport data files are not part of this model.

## Findings

| source | as written | input that shows it | evidently intended | confidence | as-written member | corrected member |
|---|---|---|---|---|---|---|
| src/app/engine/fees.ts:150-157 | the overnight item is pushed whenever nights and rate are positive, before its rounded amount is looked at | `amountPerNight` = 0.004 with one overnight: the rounded amount is 0, and a `FEE_OVERNIGHT` item of 0 is pushed (every other fee section skips a zero amount) | no overnight item unless its rounded amount is positive, as in the other four sections | not executed | Fees.OvernightItemsAsWritten, Fees.OvernightZeroAmount | Fees.OvernightItems, Fees.OvernightCorrectionOnlyDropsZero |
| src/app/utils/pageUtils.ts:166-172 | only `a`'s keys are compared, with `a[key] === b[key]`, after checking that the key counts agree | `a = {x: undefined}`, `b = {y: 1}`: `areKnobValuesEqual(a, b)` is true but `areKnobValuesEqual(b, a)` is false | a symmetric equality: same keys and same values | not executed | PageUtils.KnobValuesEqualAsWritten, PageUtils.KnobValuesEqualAsWrittenIsAsymmetric | PageUtils.KnobValuesEqual, PageUtils.KnobValuesEqualProperties |

The fee list and the engine use the overnight rule as written (`Fees.OvernightItemsAsWritten`), so a quote can carry a `FEE_OVERNIGHT` item of 0 exactly as the code produces it. The corrected rule `Fees.OvernightItems` is defined and related to it by `Fees.OvernightCorrectionOnlyDropsZero`. The engine does not use it.
