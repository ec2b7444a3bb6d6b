/**
 * Outputs of the quoting engine: legs with their metadata, line items,
 * rejection reasons, totals, the quote result itself and the engine's
 * `Result` wrapper.
 */
module QuoteResult {
  import opened Wrappers
  import opened Text
  import opened QuoteRequest

  datatype RateDirection = OriginDirection | DestinationDirection

  /** The metadata bag later pipeline stages attach to a leg. */
  datatype LegMeta = LegMeta(
    chosenBaseIcao: Option<string>,
    actualHours: Option<real>,
    adjustedHours: Option<real>,
    distanceNm: Option<real>,
    zoneId: Option<string>,
    zoneName: Option<string>,
    appliedRate: Option<real>,
    rateDirection: Option<RateDirection>,
    peakPeriodName: Option<string>,
    peakMultiplier: Option<real>)

  const EmptyMeta := LegMeta(None, None, None, None, None, None, None, None, None, None)

  /** `NormalizedLeg`; a leg without `meta` carries `EmptyMeta`. */
  datatype Leg = Leg(kind: LegKind, from: Airport, to: Airport, meta: LegMeta)

  datatype ItemCode =
    | BaseOccupied | BaseRepo | BaseRepoZone
    | DiscountVhb | DiscountTimeBased | DiscountMaxTripPriceCap
    | FeeGroundHandling | FeeHighDensity | FeeLanding | FeeOvernight | FeeDaily
    | FeeMinPricePerLeg | FeeMinTripPrice
    | InfoMatchScore | PeakAdjustmentRepo | PeakAdjustmentOccupied

  /** The code as the source spells it. */
  function CodeName(c: ItemCode): string {
    match c
    case BaseOccupied => "BASE_OCCUPIED"
    case BaseRepo => "BASE_REPO"
    case BaseRepoZone => "BASE_REPO_ZONE"
    case DiscountVhb => "DISCOUNT_VHB"
    case DiscountTimeBased => "DISCOUNT_TIME_BASED"
    case DiscountMaxTripPriceCap => "DISCOUNT_MAX_TRIP_PRICE_CAP"
    case FeeGroundHandling => "FEE_GROUND_HANDLING"
    case FeeHighDensity => "FEE_HIGH_DENSITY"
    case FeeLanding => "FEE_LANDING"
    case FeeOvernight => "FEE_OVERNIGHT"
    case FeeDaily => "FEE_DAILY"
    case FeeMinPricePerLeg => "FEE_MIN_PRICE_PER_LEG"
    case FeeMinTripPrice => "FEE_MIN_TRIP_PRICE"
    case InfoMatchScore => "INFO_MATCH_SCORE"
    case PeakAdjustmentRepo => "PEAK_ADJUSTMENT_REPO"
    case PeakAdjustmentOccupied => "PEAK_ADJUSTMENT_OCCUPIED"
  }

  /** `code.startsWith("FEE_")`. */
  predicate IsFeeCode(c: ItemCode) {
    StartsWith(CodeName(c), "FEE_")
  }

  /** Exactly the seven `FEE_*` codes are fee codes. */
  lemma FeeCodes(c: ItemCode)
    ensures IsFeeCode(c) <==>
      c in {FeeGroundHandling, FeeHighDensity, FeeLanding, FeeOvernight, FeeDaily,
            FeeMinPricePerLeg, FeeMinTripPrice}
  {
    match c
    case BaseOccupied => assert CodeName(c)[3] != '_';
    case BaseRepo => assert CodeName(c)[3] != '_';
    case BaseRepoZone => assert CodeName(c)[3] != '_';
    case DiscountVhb => assert CodeName(c)[3] != '_';
    case DiscountTimeBased => assert CodeName(c)[3] != '_';
    case DiscountMaxTripPriceCap => assert CodeName(c)[3] != '_';
    case InfoMatchScore => assert CodeName(c)[3] != '_';
    case PeakAdjustmentRepo => assert CodeName(c)[3] != '_';
    case PeakAdjustmentOccupied => assert CodeName(c)[3] != '_';
    case _ =>
  }

  /** Which half of a split round trip a merged line item came from (`meta.leg`). */
  datatype SplitHalf = OutboundHalf | ReturnHalf

  /** A priced line; negative amounts are discounts. Labels and UI metadata are not modelled. */
  datatype LineItem = LineItem(code: ItemCode, amount: real, splitHalf: Option<SplitHalf>)

  function Item(code: ItemCode, amount: real): LineItem {
    LineItem(code, amount, None)
  }

  datatype RejectCode =
    | DomesticOnlyCode | StateExcluded | AdvanceTooFar | PaxLimit | CountryNotAllowed
    | GeoRuleFail | MissingReturn | MissingBase | MissingVhbList | VhbNotFound
    | RepoOutTooLong | RepoBackTooLong
    | MinLegTime | MinFirstOccupied | MinTotalTime | MinOccupiedTotal | DailyOccupiedLimit
    | MissingRate | ZonePricingError | MissingZoneConfig | MatchScoreTooLow
    | InfoSplit

  /** A rejection reason: a code and the configuration path to highlight (messages are not modelled). */
  datatype Reason = Reason(code: RejectCode, fieldPath: Option<string>)

  datatype Status = StatusOk | StatusRejected

  datatype Times = Times(
    occupiedHours: real,
    repoHours: real,
    totalHours: real,
    matchScore: Option<real>,
    overnights: Option<int>,
    calendarDaysTouched: Option<int>)

  datatype Totals = Totals(
    baseOccupied: real,
    baseRepo: real,
    discounts: real,
    fees: real,
    total: real)

  datatype QuoteResult = QuoteResult(
    status: Status,
    rejectReasons: Option<seq<Reason>>,
    legs: Option<seq<Leg>>,
    times: Option<Times>,
    lineItems: Option<seq<LineItem>>,
    totals: Option<Totals>)

  /** `reject(code, message, fieldPath)`: a REJECTED result with one reason. */
  function Reject(code: RejectCode, fieldPath: string): QuoteResult {
    QuoteResult(StatusRejected, Some([Reason(code, Some(fieldPath))]), None, None, None, None)
  }

  /** A REJECTED result carrying exactly one reason. */
  predicate IsRejection(q: QuoteResult) {
    q.status == StatusRejected && q.rejectReasons.Some? && |q.rejectReasons.value| == 1
  }

  /** The engine's `Result<T>`: a value, or a (rejected) quote result. */
  datatype Result<T> = Ok(value: T) | Err(error: QuoteResult)

  /* ------------------------- Zone calculation detail ------------------------- */

  datatype ZoneSide = ZoneSide(
    zoneId: string,
    zoneName: string,
    selectedAirport: string,
    baseRate: real,
    appliedRate: real,
    rateDirection: RateDirection)

  datatype RatePair = RatePair(baseRate: real, appliedRate: real)

  datatype PeakInfo = PeakInfo(
    id: string,
    name: string,
    outboundRepo: Option<real>,
    inboundRepo: Option<real>,
    occupied: Option<real>)

  datatype ZoneCalculationInfo = ZoneCalculationInfo(
    outboundZone: Option<ZoneSide>,
    inboundZone: Option<ZoneSide>,
    occupiedRate: Option<RatePair>,
    peakPeriod: Option<PeakInfo>)
}
