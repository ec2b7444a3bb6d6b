/**
 * Inputs of the quoting engine: airports, the trip, the pricing knobs and the
 * injected collaborators (calendar, clock, distance, flight-time estimator).
 *
 * Optional configuration fields are `Option`s; an optional boolean flag that
 * the engine only tests for truthiness is a plain `bool` (absent = false), and
 * an optional list that the engine reads with `?? []` is a plain `seq`.
 */
module QuoteRequest {
  import opened Wrappers

  /** Side of the Mississippi an airport lies on. */
  datatype Side = East | West

  datatype Airport = Airport(
    icao: string,
    lat: real,
    lon: real,
    country: Option<string>,
    state: Option<string>,
    direction: Side,
    timezoneId: string)

  datatype TripType = OneWay | RoundTrip

  /**
   * A quote request's trip. Timestamps are the local ISO strings of the
   * source; `Calendar` gives their meaning. `category` is the category id as
   * supplied ("CAT1" … "CAT8" in well-formed requests).
   */
  datatype TripInput = TripInput(
    tripType: TripType,
    category: string,
    aircraftModelId: Option<string>,
    from: Airport,
    to: Airport,
    departLocalISO: string,
    departTimezone: Option<string>,
    returnLocalISO: Option<string>,
    returnTimezone: Option<string>,
    passengers: Option<real>)

  /** JavaScript truthiness of an optional string: present and non-empty. */
  predicate Present(s: Option<string>) {
    s.Some? && s.value != ""
  }

  /* ------------------------------ Repositioning ------------------------------ */

  /** `repo.mode`; any value other than the two named ones is kept by name. */
  datatype RepoMode = FixedBase | VhbNetwork | OtherRepoMode(name: string)

  datatype RepoPolicy = BothWays | OutboundOnly | InboundOnly

  datatype RepoConstraints = RepoConstraints(
    maxOriginRepoHours: Option<real>,
    maxDestinationRepoHours: Option<real>,
    rejectIfExceeded: bool)

  datatype Zone = Zone(id: string, name: string, airports: seq<Airport>)

  datatype ZoneRepoRates = ZoneRepoRates(
    zoneId: string,
    originRepoRate: real,
    destinationRepoRate: real)

  datatype ZoneMultiplier = ZoneMultiplier(
    zoneId: string,
    originRepoMultiplier: real,
    destinationRepoMultiplier: real)

  /** A date range (inclusive, `YYYY-MM-DD` strings) with rate multipliers. */
  datatype PeakPeriod = PeakPeriod(
    id: string,
    name: string,
    startDate: string,
    endDate: string,
    zoneMultipliers: Option<seq<ZoneMultiplier>>,
    occupiedMultiplier: Option<real>)

  datatype ZoneNetworkConfig = ZoneNetworkConfig(
    zones: seq<Zone>,
    zoneRepoRates: seq<ZoneRepoRates>,
    peakPeriods: Option<seq<PeakPeriod>>)

  /** `repo`; `vhbDefault` is `repo.vhbSets.default`. */
  datatype RepoKnobs = RepoKnobs(
    mode: RepoMode,
    policy: RepoPolicy,
    fixedBaseIcao: Option<Airport>,
    vhbDefault: Option<seq<Airport>>,
    constraints: Option<RepoConstraints>,
    zoneNetwork: Option<ZoneNetworkConfig>)

  /* ---------------------------------- Time ---------------------------------- */

  datatype ApplyTo = ApplyOccupied | ApplyRepo | ApplyBoth

  datatype TimeMinimums = TimeMinimums(
    minActualFlightHoursPerLeg: Option<real>,
    minFirstOccupiedLegHours: Option<real>,
    minTotalTripHours: Option<real>,
    minOccupiedHoursTotal: Option<real>)

  const NoMinimums := TimeMinimums(None, None, None, None)

  /** `time`; `maxOccupiedHoursPerDay` is `time.dailyLimits.maxOccupiedHoursPerDay`. */
  datatype TimeKnobs = TimeKnobs(
    taxiHoursPerLeg: real,
    bufferHoursPerLeg: real,
    applyTo: ApplyTo,
    minimums: Option<TimeMinimums>,
    maxOccupiedHoursPerDay: Option<real>)

  /* --------------------------------- Pricing --------------------------------- */

  datatype RateModel = SingleHourly | DualRateRepoOccupied | ZoneBased

  datatype PricingConfig = PricingConfig(
    rateModel: RateModel,
    hourlyRate: Option<real>,
    repoRate: Option<real>,
    occupiedRate: Option<real>)

  /* -------------------------------- Discounts -------------------------------- */

  datatype VhbMode = NoVhbDiscount | OriginOrDestination | BothRequired

  /** What a discount is a percentage of: `base_only`, `subtotal_before_fees` or `total`. */
  datatype DiscountBase = BaseOnly | SubtotalBeforeFees | RunningTotal

  datatype VhbDiscount = VhbDiscount(mode: VhbMode, percent: real, appliesTo: DiscountBase)

  datatype TimeBasedDiscount = TimeBasedDiscount(
    enabled: bool,
    discountPercent: real,
    minOccupiedHoursPerLeg: real,
    appliesTo: DiscountBase)

  datatype DiscountKnobs = DiscountKnobs(
    vhbDiscount: Option<VhbDiscount>,
    timeBasedDiscount: Option<TimeBasedDiscount>)

  /* --------------------------------- Scoring --------------------------------- */

  datatype MatchAction = RejectLowScore | RankOnly

  datatype MatchScoreConfig = MatchScoreConfig(enabled: bool, threshold: real, action: MatchAction)

  /* ---------------------------------- Fees ---------------------------------- */

  datatype GroundAppliesTo = OccupiedOnly | AllLegs

  datatype GroundHandling = GroundHandling(perSegmentAmount: real, appliesTo: Option<GroundAppliesTo>)

  datatype HdCountingMode = SegmentEndpoints | ArrivalsOnly | Landings

  datatype HighDensity = HighDensity(
    airports: seq<Airport>,
    feePerVisit: real,
    countingMode: HdCountingMode,
    roundTripOriginDoubleCharge: bool,
    tripCap: Option<real>)

  datatype LandingCountingMode = LandingArrivalsOnly | LandingLandings | LandingsIncludingRepo

  datatype LandingLogic = StandardLanding | HomebaseConditional

  datatype LandingFees = LandingFees(
    countingMode: LandingCountingMode,
    defaultAmount: real,
    hdOverrideAmount: Option<real>,
    hdAirports: seq<Airport>,
    conditionalLogic: Option<LandingLogic>,
    homebase: Option<Airport>)

  datatype OvernightWhen = NeverOvernight | RoundTripOnly | AlwaysOvernight

  datatype OvernightFee = OvernightFee(
    amountPerNight: real,
    appliesWhen: OvernightWhen,
    maxNightsBeforeSplit: Option<real>)

  datatype DayCounting = UniqueDatesTouched | NightsPlusOne

  datatype DateOverride = DateOverride(
    startDate: string,
    endDate: string,
    amountPerDay: real)

  datatype DailyFee = DailyFee(
    amountPerCalendarDay: real,
    calendarDayCounting: DayCounting,
    dateOverrides: seq<DateOverride>)

  datatype PriceConstraints = PriceConstraints(
    minPricePerLeg: Option<real>,
    minTripPrice: Option<real>,
    maxTripPrice: Option<real>)

  datatype FeeKnobs = FeeKnobs(
    groundHandling: Option<GroundHandling>,
    highDensity: Option<HighDensity>,
    landingFees: Option<LandingFees>,
    overnight: Option<OvernightFee>,
    daily: Option<DailyFee>,
    priceConstraints: Option<PriceConstraints>)

  /* ------------------------------- Eligibility ------------------------------- */

  datatype BothSides = BothEast | BothWest

  datatype GeoRule =
    | MississippiRule(
        oneWayRequires: BothSides,
        roundTripUpToNightsRequiresOrigin: real,
        roundTripUpToNightsSide: Side,
        roundTripBeyondNightsRequires: BothSides)
    | AllowedCountries(countries: seq<string>)

  datatype EligibilityKnobs = EligibilityKnobs(
    domesticOnly: bool,
    maxAdvanceDays: Option<real>,
    maxPassengers: Option<real>,
    excludeStates: seq<string>,
    geoRules: seq<GeoRule>)

  /* ---------------------------------- Knobs ---------------------------------- */

  /** `scoring` is `scoring.matchScore`. */
  datatype PricingKnobs = PricingKnobs(
    repo: RepoKnobs,
    time: TimeKnobs,
    pricing: PricingConfig,
    discounts: DiscountKnobs,
    scoring: Option<MatchScoreConfig>,
    fees: FeeKnobs,
    eligibility: EligibilityKnobs)

  datatype QuoteRequestPayload = QuoteRequestPayload(trip: TripInput, knobs: PricingKnobs)

  /* ----------------------------- Collaborators ----------------------------- */

  /**
   * The meaning of a local ISO timestamp: `localDay` is its local calendar day
   * number (midnight-aligned), `instant` its point in time in days on the scale
   * of the clock, and `ymd` formats a day number as `YYYY-MM-DD`.
   */
  datatype Calendar = Calendar(
    localDay: string -> int,
    instant: string -> real,
    ymd: int -> string)

  /** Great-circle distance in nautical miles between (lat1, lon1) and (lat2, lon2). */
  type Haversine = (real, real, real, real) -> real

  /** Kind of a flight leg: passenger-carrying or repositioning. */
  datatype LegKind = Occupied | Repo

  /** What the engine hands an external flight-time estimator for each leg. */
  datatype LegRequest = LegRequest(from: Airport, to: Airport, kind: LegKind)

  /**
   * An injected estimator: one duration in seconds per leg, or `None` when it
   * fails (its promise rejects).
   */
  type Estimator = f: (seq<LegRequest>, string) -> Option<seq<real>>
    | forall ls, c :: f(ls, c).Some? ==> |f(ls, c).value| == |ls|
    witness (ls: seq<LegRequest>, c: string) => None

  /** `PricingEngineDeps`: an optional clock reading and an optional estimator. */
  datatype PricingEngineDeps = PricingEngineDeps(
    now: Option<real>,
    calculateFlightSeconds: Option<Estimator>)
}
