/**
 * Engine utilities: clamping, the two rounding rules, sums, de-duplication of
 * airports by ICAO, day counting, the daily-override lookup, the match score
 * and the construction of occupied legs.
 */
module Utils {
  import opened Wrappers
  import opened Text
  import opened QuoteRequest
  import opened QuoteResult

  /* -------------------------------- Numbers -------------------------------- */

  function Max(a: real, b: real): real { if a >= b then a else b }
  function Min(a: real, b: real): real { if a <= b then a else b }

  /** `Math.max(lo, Math.min(hi, n))`. */
  function Clamp(n: real, lo: real, hi: real): (r: real)
    ensures lo <= hi ==> lo <= r <= hi
    ensures lo <= n <= hi ==> r == n
    ensures r == lo || r == n || r == hi
  {
    Max(lo, Min(hi, n))
  }

  /** `Math.round`: the nearest integer, halves rounded up. */
  function Round(x: real): (n: int)
    ensures n as real - 0.5 <= x < n as real + 0.5
  {
    (x + 0.5).Floor
  }

  lemma RoundOfInteger(n: int)
    ensures Round(n as real) == n
  {
  }

  /** Rounding to whole cents: `Math.round(n * 100) / 100`. */
  function RoundMoney(x: real): (r: real)
    ensures r - 0.005 <= x < r + 0.005
  {
    Round(x * 100.0) as real / 100.0
  }

  /** `roundMoney` keeps the sign of its argument. */
  lemma RoundMoneySign(x: real)
    ensures x <= 0.0 ==> RoundMoney(x) <= 0.0
    ensures x >= 0.0 ==> RoundMoney(x) >= 0.0
  {
  }

  /** Rounding to thousandths of an hour: `Math.round(n * 1000) / 1000`. */
  function RoundHours(x: real): (r: real)
    ensures r - 0.0005 <= x < r + 0.0005
  {
    Round(x * 1000.0) as real / 1000.0
  }

  /** `roundMoney(hours * rate)`: the price of some hours at an hourly rate. */
  function Charge(hours: real, rate: real): (r: real)
    ensures IsCents(r)
  {
    RoundMoneyCents(hours * rate);
    RoundMoney(hours * rate)
  }

  /** An amount that is a whole number of cents. */
  predicate IsCents(x: real) {
    (x * 100.0).Floor as real == x * 100.0
  }

  /** A duration that is a whole number of thousandths of an hour. */
  predicate IsMilliHours(x: real) {
    (x * 1000.0).Floor as real == x * 1000.0
  }

  /** `roundMoney` yields whole cents and leaves whole cents unchanged (idempotence). */
  lemma RoundMoneyCents(x: real)
    ensures IsCents(RoundMoney(x))
    ensures IsCents(x) ==> RoundMoney(x) == x
    ensures RoundMoney(RoundMoney(x)) == RoundMoney(x)
  {
    var m := Round(x * 100.0);
    assert RoundMoney(x) * 100.0 == m as real;
    RoundOfInteger(m);
    if IsCents(x) {
      RoundOfInteger((x * 100.0).Floor);
    }
  }

  /** `roundHours` yields whole thousandths and is idempotent. */
  lemma RoundHoursMilli(x: real)
    ensures IsMilliHours(RoundHours(x))
    ensures IsMilliHours(x) ==> RoundHours(x) == x
    ensures RoundHours(RoundHours(x)) == RoundHours(x)
  {
    var m := Round(x * 1000.0);
    assert RoundHours(x) * 1000.0 == m as real;
    RoundOfInteger(m);
    if IsMilliHours(x) {
      RoundOfInteger((x * 1000.0).Floor);
    }
  }

  /** Sums and differences of whole cents are whole cents. */
  lemma CentsAdd(x: real, y: real)
    requires IsCents(x) && IsCents(y)
    ensures IsCents(x + y) && IsCents(x - y) && IsCents(-x)
  {
    var a := (x * 100.0).Floor;
    var b := (y * 100.0).Floor;
    assert x * 100.0 == a as real && y * 100.0 == b as real;
    WholeCents(x + y, a + b);
    WholeCents(x - y, a - b);
    WholeCents(-x, -a);
  }

  lemma WholeCents(x: real, n: int)
    requires x * 100.0 == n as real
    ensures IsCents(x)
  {
    assert (n as real).Floor == n;
  }

  lemma MilliHoursAdd(x: real, y: real)
    requires IsMilliHours(x) && IsMilliHours(y)
    ensures IsMilliHours(x + y)
  {
    var a := (x * 1000.0).Floor;
    var b := (y * 1000.0).Floor;
    assert (x + y) * 1000.0 == (a + b) as real;
  }

  /** Rounding the sum of two rounded durations changes nothing. */
  lemma RoundedHoursSumExact(a: real, b: real)
    ensures RoundHours(RoundHours(a) + RoundHours(b)) == RoundHours(a) + RoundHours(b)
  {
    RoundHoursMilli(a);
    RoundHoursMilli(b);
    MilliHoursAdd(RoundHours(a), RoundHours(b));
    RoundHoursMilli(RoundHours(a) + RoundHours(b));
  }

  /** `nums.reduce((a, b) => a + b, 0)`. */
  function Sum(xs: seq<real>): real
  {
    if |xs| == 0 then 0.0 else Sum(xs[..|xs| - 1]) + xs[|xs| - 1]
  }

  lemma {:induction false} SumConcat(a: seq<real>, b: seq<real>)
    ensures Sum(a + b) == Sum(a) + Sum(b)
    decreases |b|
  {
    if |b| == 0 {
      assert a + b == a;
    } else {
      var b' := b[..|b| - 1];
      assert (a + b)[..|a + b| - 1] == a + b';
      assert (a + b)[|a + b| - 1] == b[|b| - 1];
      SumConcat(a, b');
    }
  }

  /* ------------------------------- Airports -------------------------------- */

  /** The key `uniqByIcao` groups airports under. */
  function Key(a: Airport): string { Upper(a.icao) }

  /** `new Set(list.map(a => a.icao.toUpperCase())).has(icao.toUpperCase())`. */
  predicate HasIcao(list: seq<Airport>, icao: string) {
    exists a :: a in list && Key(a) == Upper(icao)
  }

  /** The distinct keys of `list`, in the order they first occur (a `Map`'s key order). */
  function Keys(list: seq<Airport>): (ks: seq<string>)
    ensures forall i, j :: 0 <= i < j < |ks| ==> ks[i] != ks[j]
    ensures forall k :: k in ks <==> exists i :: 0 <= i < |list| && Key(list[i]) == k
  {
    if |list| == 0 then []
    else
      var prefix := list[..|list| - 1];
      var ks := Keys(prefix);
      var a := list[|list| - 1];
      assert forall i :: 0 <= i < |prefix| ==> list[i] == prefix[i];
      if Key(a) in ks then ks else ks + [Key(a)]
  }

  /** The last airport in `list` under key `k` (the one a `Map.set` keeps). */
  function LastWith(list: seq<Airport>, k: string): (a: Airport)
    requires exists i :: 0 <= i < |list| && Key(list[i]) == k
    ensures a in list && Key(a) == k
  {
    var last := list[|list| - 1];
    if Key(last) == k then last
    else
      var prefix := list[..|list| - 1];
      assert forall i :: 0 <= i < |prefix| ==> list[i] == prefix[i];
      LastWith(prefix, k)
  }

  /**
   * The reference meaning of `uniqByIcao`: one airport per distinct key, keys in
   * first-occurrence order, each the last airport listed under its key.
   */
  function UniqueByIcao(list: seq<Airport>): (r: seq<Airport>)
    ensures |r| == |Keys(list)|
  {
    var ks := Keys(list);
    assert forall i :: 0 <= i < |ks| ==> ks[i] in ks;
    seq(|ks|, i requires 0 <= i < |ks| => LastWith(list, ks[i]))
  }

  /** No two airports of the de-duplicated list share a key, and every input key is kept. */
  lemma UniqueByIcaoProperties(list: seq<Airport>)
    ensures forall i, j :: 0 <= i < j < |UniqueByIcao(list)| ==>
      Key(UniqueByIcao(list)[i]) != Key(UniqueByIcao(list)[j])
    ensures forall a :: a in list ==> exists b :: b in UniqueByIcao(list) && Key(b) == Key(a)
    ensures forall b :: b in UniqueByIcao(list) ==> b in list
  {
    var r := UniqueByIcao(list);
    var ks := Keys(list);
    forall a | a in list ensures exists b :: b in r && Key(b) == Key(a) {
      var i :| 0 <= i < |list| && list[i] == a;
      assert Key(a) in ks;
      var j :| 0 <= j < |ks| && ks[j] == Key(a);
      assert r[j] in r && Key(r[j]) == Key(a);
    }
  }

  /** Indexing one more airport: it becomes the last one under its own key. */
  lemma LastWithSnoc(prefix: seq<Airport>, a: Airport, k: string)
    requires k in Keys(prefix + [a])
    ensures Key(a) == k ==> LastWith(prefix + [a], k) == a
    ensures Key(a) != k ==> k in Keys(prefix) && LastWith(prefix + [a], k) == LastWith(prefix, k)
  {
    assert (prefix + [a])[..|prefix|] == prefix;
  }

  /** `keys` and `m` are the `Map` `uniqByIcao` has filled from `list`: its keys in insertion order, and its contents. */
  ghost predicate Indexed(list: seq<Airport>, keys: seq<string>, m: map<string, Airport>) {
    keys == Keys(list) &&
    (forall k :: k in m <==> k in keys) &&
    (forall k :: k in keys ==> m[k] == LastWith(list, k))
  }

  /** `Map.set` of one more airport. */
  lemma IndexStep(prefix: seq<Airport>, a: Airport, keys: seq<string>, m: map<string, Airport>)
    requires Indexed(prefix, keys, m)
    ensures Indexed(prefix + [a], if Key(a) in m then keys else keys + [Key(a)], m[Key(a) := a])
  {
    var next := prefix + [a];
    assert next[..|prefix|] == prefix;
    forall k | k in Keys(next)
      ensures k in m[Key(a) := a] && m[Key(a) := a][k] == LastWith(next, k)
    {
      LastWithSnoc(prefix, a, k);
    }
  }

  /** The `Map` `uniqByIcao` fills. */
  method IndexByKey(list: seq<Airport>) returns (keys: seq<string>, m: map<string, Airport>)
    ensures Indexed(list, keys, m)
  {
    keys := [];
    m := map[];
    var i := 0;
    while i < |list|
      invariant 0 <= i <= |list|
      invariant Indexed(list[..i], keys, m)
    {
      var a := list[i];
      assert list[..i + 1] == list[..i] + [a];
      IndexStep(list[..i], a, keys, m);
      if Key(a) !in m {
        keys := keys + [Key(a)];
      }
      m := m[Key(a) := a];
      i := i + 1;
    }
    assert list[..i] == list;
  }

  /** `uniqByIcao`: fills a `Map` keyed by upper-cased ICAO, then lists its values. */
  method UniqByIcao(list: seq<Airport>) returns (r: seq<Airport>)
    ensures r == UniqueByIcao(list)
  {
    var keys, m := IndexByKey(list);
    r := [];
    var j := 0;
    while j < |keys|
      invariant 0 <= j <= |keys|
      invariant |r| == j
      invariant forall t :: 0 <= t < j ==> r[t] == m[keys[t]]
    {
      r := r + [m[keys[j]]];
      j := j + 1;
    }
  }

  /** `sumAdjustedHours`: adjusted hours of the legs, a missing value counting 0. */
  function AdjustedHours(l: Leg): real { l.meta.adjustedHours.GetOr(0.0) }

  function SumAdjustedHours(legs: seq<Leg>): real
  {
    if |legs| == 0 then 0.0 else SumAdjustedHours(legs[..|legs| - 1]) + AdjustedHours(legs[|legs| - 1])
  }

  lemma {:induction false} SumAdjustedHoursConcat(a: seq<Leg>, b: seq<Leg>)
    ensures SumAdjustedHours(a + b) == SumAdjustedHours(a) + SumAdjustedHours(b)
    decreases |b|
  {
    if |b| == 0 {
      assert a + b == a;
    } else {
      var b' := b[..|b| - 1];
      assert (a + b)[..|a + b| - 1] == a + b';
      assert (a + b)[|a + b| - 1] == b[|b| - 1];
      SumAdjustedHoursConcat(a, b');
    }
  }

  /** The legs of one kind, in order (`legs.filter(l => l.kind === kind)`). */
  function OfKind(legs: seq<Leg>, kind: LegKind): (r: seq<Leg>)
    ensures |r| <= |legs|
    ensures forall l {:trigger l in r} :: l in r <==> l in legs && l.kind == kind
  {
    if |legs| == 0 then []
    else
      var rest := OfKind(legs[1..], kind);
      assert forall l :: l in legs <==> l == legs[0] || l in legs[1..];
      if legs[0].kind == kind then [legs[0]] + rest else rest
  }

  /** Filtering twice by the same kind is filtering once. */
  lemma {:induction false} OfKindIdempotent(legs: seq<Leg>, kind: LegKind)
    ensures OfKind(OfKind(legs, kind), kind) == OfKind(legs, kind)
    decreases |legs|
  {
    if |legs| > 0 {
      OfKindIdempotent(legs[1..], kind);
      if legs[0].kind == kind {
        assert ([legs[0]] + OfKind(legs[1..], kind))[1..] == OfKind(legs[1..], kind);
      }
    }
  }

  /** A list whose legs are all of one kind is its own filter. */
  lemma {:induction false} OfKindAll(legs: seq<Leg>, kind: LegKind)
    requires forall i :: 0 <= i < |legs| ==> legs[i].kind == kind
    ensures OfKind(legs, kind) == legs
    decreases |legs|
  {
    if |legs| > 0 {
      OfKindAll(legs[1..], kind);
      assert [legs[0]] + legs[1..] == legs;
    }
  }

  /** A list with no leg of a kind filters to nothing. */
  lemma OfKindNone(legs: seq<Leg>, kind: LegKind)
    requires forall i :: 0 <= i < |legs| ==> legs[i].kind != kind
    ensures OfKind(legs, kind) == []
  {
  }

  lemma {:induction false} OfKindConcat(a: seq<Leg>, b: seq<Leg>, kind: LegKind)
    ensures OfKind(a + b, kind) == OfKind(a, kind) + OfKind(b, kind)
    decreases |a|
  {
    if |a| == 0 {
      assert a + b == b;
    } else {
      var a' := a[1..];
      assert (a + b)[1..] == a' + b;
      assert (a + b)[0] == a[0];
      OfKindConcat(a', b, kind);
      var head := if a[0].kind == kind then [a[0]] else [];
      assert OfKind(a + b, kind) == head + OfKind(a' + b, kind);
      assert OfKind(a, kind) == head + OfKind(a', kind);
    }
  }

  /** Amounts of a list of line items, summed. */
  function SumAmounts(items: seq<LineItem>): real
  {
    if |items| == 0 then 0.0 else SumAmounts(items[..|items| - 1]) + items[|items| - 1].amount
  }

  lemma {:induction false} SumAmountsConcat(a: seq<LineItem>, b: seq<LineItem>)
    ensures SumAmounts(a + b) == SumAmounts(a) + SumAmounts(b)
    decreases |b|
  {
    if |b| == 0 {
      assert a + b == a;
    } else {
      var b' := b[..|b| - 1];
      assert (a + b)[..|a + b| - 1] == a + b';
      assert (a + b)[|a + b| - 1] == b[|b| - 1];
      SumAmountsConcat(a, b');
    }
  }

  /* ---------------------------------- Days ---------------------------------- */

  /**
   * `computeOvernights`: whole local days between departure and return,
   * never negative.
   */
  function ComputeOvernights(cal: Calendar, depart: string, ret: string): (n: int)
    ensures n >= 0
    ensures cal.localDay(ret) >= cal.localDay(depart) ==> n == cal.localDay(ret) - cal.localDay(depart)
    ensures cal.localDay(ret) < cal.localDay(depart) ==> n == 0
  {
    var diff := cal.localDay(ret) - cal.localDay(depart);
    if diff > 0 then diff else 0
  }

  /** The last local day of a trip: the return's when one is given (and non-empty). */
  function EndDay(cal: Calendar, depart: string, ret: Option<string>): int {
    if Present(ret) then cal.localDay(ret.value) else cal.localDay(depart)
  }

  /** `computeCalendarDaysTouched`: `max(1, diff + 1)`. */
  function ComputeCalendarDaysTouched(cal: Calendar, depart: string, ret: Option<string>): (n: int)
    ensures n >= 1
  {
    var diff := EndDay(cal, depart, ret) - cal.localDay(depart);
    if diff + 1 > 1 then diff + 1 else 1
  }

  /** When the return is on or after the departure day, days touched = overnights + 1. */
  lemma DaysTouchedIsOvernightsPlusOne(cal: Calendar, depart: string, ret: string)
    requires ret != ""
    requires cal.localDay(ret) >= cal.localDay(depart)
    ensures ComputeCalendarDaysTouched(cal, depart, Some(ret)) == ComputeOvernights(cal, depart, ret) + 1
  {
  }

  /** The reference meaning of `listDatesTouched`: every local day from start to end, formatted. */
  function DatesTouched(cal: Calendar, depart: string, ret: Option<string>): (ds: seq<string>)
    ensures var s := cal.localDay(depart); var e := EndDay(cal, depart, ret);
      |ds| == (if e >= s then e - s + 1 else 0) &&
      forall i :: 0 <= i < |ds| ==> ds[i] == cal.ymd(s + i)
  {
    var s := cal.localDay(depart);
    var e := EndDay(cal, depart, ret);
    seq(if e >= s then e - s + 1 else 0, i => cal.ymd(s + i))
  }

  /**
   * The number of dates listed is the calendar-day count when the trip ends on
   * or after it starts, and zero otherwise.
   */
  lemma DatesTouchedCount(cal: Calendar, depart: string, ret: Option<string>)
    ensures EndDay(cal, depart, ret) >= cal.localDay(depart) ==>
      |DatesTouched(cal, depart, ret)| == ComputeCalendarDaysTouched(cal, depart, ret)
    ensures EndDay(cal, depart, ret) < cal.localDay(depart) ==> DatesTouched(cal, depart, ret) == []
  {
  }

  /** `listDatesTouched`: steps a day counter from start to end, pushing each formatted date. */
  method ListDatesTouched(cal: Calendar, depart: string, ret: Option<string>) returns (dates: seq<string>)
    ensures dates == DatesTouched(cal, depart, ret)
  {
    var start := cal.localDay(depart);
    var end := EndDay(cal, depart, ret);
    dates := [];
    var dt := start;
    while dt <= end
      invariant start <= dt <= (if end >= start then end + 1 else start)
      invariant |dates| == dt - start
      invariant forall i :: 0 <= i < |dates| ==> dates[i] == cal.ymd(start + i)
    {
      dates := dates + [cal.ymd(dt)];
      dt := dt + 1;
    }
  }

  /* ---------------------------- Daily overrides ---------------------------- */

  /** `date >= o.startDate && date <= o.endDate`, as string comparisons. */
  predicate Covers(o: DateOverride, date: string) {
    LexLe(o.startDate, date) && LexLe(date, o.endDate)
  }

  /** Index of the first override covering `date`, or `|overrides|` if none does. */
  function FirstCovering(overrides: seq<DateOverride>, date: string): (i: nat)
    ensures i <= |overrides|
    ensures i < |overrides| ==> Covers(overrides[i], date)
    ensures forall j :: 0 <= j < i ==> !Covers(overrides[j], date)
  {
    if |overrides| == 0 then 0
    else if Covers(overrides[0], date) then 0
    else 1 + FirstCovering(overrides[1..], date)
  }

  /** The reference meaning of `findDailyOverride`. */
  function DailyOverride(overrides: seq<DateOverride>, date: string): (r: Option<DateOverride>)
    ensures r.None? <==> forall j :: 0 <= j < |overrides| ==> !Covers(overrides[j], date)
    ensures r.Some? ==>
      exists i :: 0 <= i < |overrides| && overrides[i] == r.value && Covers(r.value, date) &&
        (forall j :: 0 <= j < i ==> !Covers(overrides[j], date))
  {
    var i := FirstCovering(overrides, date);
    if i < |overrides| then Some(overrides[i]) else None
  }

  /** `findDailyOverride`: returns the first override in list order covering the date. */
  method FindDailyOverride(overrides: seq<DateOverride>, date: string) returns (r: Option<DateOverride>)
    ensures r == DailyOverride(overrides, date)
  {
    var k := 0;
    while k < |overrides|
      invariant 0 <= k <= |overrides|
      invariant forall j :: 0 <= j < k ==> !Covers(overrides[j], date)
    {
      var o := overrides[k];
      if LexLe(o.startDate, date) && LexLe(date, o.endDate) {
        return Some(o);
      }
      k := k + 1;
    }
    return None;
  }

  /* ------------------------------ Match score ------------------------------ */

  /** `calcMatchScore`: the occupied share of all hours, on a 0–10 scale. */
  function CalcMatchScore(occupiedHours: real, repoHours: real): (r: Option<real>)
    ensures r.None? <==> occupiedHours + repoHours <= 0.0
    ensures r.Some? && occupiedHours >= 0.0 && repoHours >= 0.0 ==> 0.0 <= r.value <= 10.0
    ensures r.Some? ==> r.value * (occupiedHours + repoHours) == occupiedHours * 10.0
  {
    var denom := occupiedHours + repoHours;
    if denom <= 0.0 then None
    else
      var s := occupiedHours / denom * 10.0;
      assert occupiedHours >= 0.0 && repoHours >= 0.0 ==> occupiedHours / denom <= 1.0;
      Some(s)
  }

  /* ---------------------------------- Legs ---------------------------------- */

  /** `buildOccupiedLegs`: one occupied leg for a one-way trip, out and back for a round trip. */
  function BuildOccupiedLegs(trip: TripInput): (legs: seq<Leg>)
    ensures trip.tripType == OneWay ==> legs == [Leg(Occupied, trip.from, trip.to, EmptyMeta)]
    ensures trip.tripType == RoundTrip ==>
      legs == [Leg(Occupied, trip.from, trip.to, EmptyMeta), Leg(Occupied, trip.to, trip.from, EmptyMeta)]
  {
    if trip.tripType == OneWay then [Leg(Occupied, trip.from, trip.to, EmptyMeta)]
    else [Leg(Occupied, trip.from, trip.to, EmptyMeta), Leg(Occupied, trip.to, trip.from, EmptyMeta)]
  }
}
