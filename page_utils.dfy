/**
 * The page helpers between the knob form and the engine: flat knob values
 * keyed by dotted paths, the nested configuration built from them and read
 * back into them, deep merging, the import normalisation, the export file
 * name, the readiness check and the conversion of the planner's trip.
 *
 * Untyped JavaScript data is a `Json` value. Objects are maps, so key order
 * is not modelled. The helpers create the objects they write to, with one
 * exception the value model does not capture: a knob value that is itself an
 * object is stored as it is by `buildPricingKnobs`, and a later, deeper path
 * writes into that object, changing the caller's object and every other
 * place it is stored.
 */
module PageUtils {
  import opened Wrappers
  import opened Text
  import opened QuoteRequest
  import Pricing
  import Engine

  datatype Json =
    | JUndefined
    | JNull
    | JBool(b: bool)
    | JNum(n: real)
    | JStr(s: string)
    | JArr(items: seq<Json>)
    | JObj(fields: map<string, Json>)

  /** A flat record of knob values keyed by dotted path. */
  type KnobValues = map<string, Json>

  /** JavaScript truthiness. */
  predicate Truthy(v: Json) {
    match v
    case JUndefined => false
    case JNull => false
    case JBool(b) => b
    case JNum(n) => n != 0.0
    case JStr(s) => s != ""
    case JArr(_) => true
    case JObj(_) => true
  }

  /** `v == null`: null or undefined. */
  predicate IsNullish(v: Json) {
    v == JNull || v == JUndefined
  }

  /** `typeof v === "object" && v !== null`: arrays count. */
  predicate IsObject(v: Json) {
    v.JArr? || v.JObj?
  }

  /** `isPlainObject`: an object that is not an array. */
  predicate IsPlainObject(v: Json) {
    v.JObj?
  }

  predicate IsDigit(c: char) { '0' <= c <= '9' }

  /** A canonical array index: decimal digits without a leading zero. */
  predicate IsIndexKey(key: string) {
    |key| > 0 && (forall i :: 0 <= i < |key| ==> IsDigit(key[i])) && (key[0] != '0' || |key| == 1)
  }

  function DigitsValue(key: string): nat
    requires forall i :: 0 <= i < |key| ==> IsDigit(key[i])
  {
    if |key| == 0 then 0
    else
      assert IsDigit(key[|key| - 1]);
      DigitsValue(key[..|key| - 1]) * 10 + (key[|key| - 1] as int - '0' as int)
  }

  /** `v[key]`: an object's property, an array's element, `undefined` otherwise. */
  function Prop(v: Json, key: string): Json {
    match v
    case JObj(fields) => if key in fields then fields[key] else JUndefined
    case JArr(items) =>
      if IsIndexKey(key) && DigitsValue(key) < |items| then items[DigitsValue(key)] else JUndefined
    case _ => JUndefined
  }

  /* ------------------------------ Nested paths ------------------------------ */

  /** `getNestedValue`: walk the keys while the current value is an object. */
  function GetPath(v: Json, keys: seq<string>): Json
    decreases |keys|
  {
    if |keys| == 0 then v
    else if !(Truthy(v) && IsObject(v)) then JUndefined
    else GetPath(Prop(v, keys[0]), keys[1..])
  }

  /**
   * `setNestedValue` on a fresh object: every intermediate that is not a
   * plain object is replaced by `{}`, then the last key receives `value`.
   */
  function SetPath(obj: map<string, Json>, keys: seq<string>, value: Json): (r: map<string, Json>)
    requires |keys| >= 1
    ensures r.Keys == obj.Keys + {keys[0]}
    decreases |keys|
  {
    if |keys| == 1 then obj[keys[0] := value]
    else obj[keys[0] := JObj(SetPath(Next(obj, keys[0]), keys[1..], value))]
  }

  /** The object the walk of `setNestedValue` moves to under `key`: `{}` unless it is a plain object. */
  function Next(obj: map<string, Json>, key: string): map<string, Json> {
    if key in obj && obj[key].JObj? then obj[key].fields else map[]
  }

  /** Reading back the path just written gives the value written. */
  lemma {:induction false} GetAfterSet(obj: map<string, Json>, keys: seq<string>, value: Json)
    requires |keys| >= 1
    ensures GetPath(JObj(SetPath(obj, keys, value)), keys) == value
    decreases |keys|
  {
    if |keys| > 1 {
      GetAfterSet(Next(obj, keys[0]), keys[1..], value);
    }
  }

  /** Every proper prefix of the written path leads to a plain object afterwards. */
  lemma {:induction false} SetMakesObjects(obj: map<string, Json>, keys: seq<string>, value: Json, i: nat)
    requires |keys| >= 1 && i < |keys|
    ensures GetPath(JObj(SetPath(obj, keys, value)), keys[..i]).JObj?
    decreases |keys|
  {
    if i > 0 {
      SetMakesObjects(Next(obj, keys[0]), keys[1..], value, i - 1);
      assert keys[..i][1..] == keys[1..][..i - 1];
    }
  }

  /** A path that starts with a different key reads what it read before. */
  lemma SetLeavesOtherKeys(obj: map<string, Json>, keys: seq<string>, value: Json, other: seq<string>)
    requires |keys| >= 1 && |other| >= 1 && other[0] != keys[0]
    ensures GetPath(JObj(SetPath(obj, keys, value)), other) == GetPath(JObj(obj), other)
  {
  }

  /** Writing the path from its `k`-th key on: one level written, the rest below it. */
  lemma SetPathStep(obj: map<string, Json>, keys: seq<string>, k: nat, value: Json)
    requires k + 1 < |keys|
    ensures SetPath(obj, keys[k..], value) == obj[keys[k] := JObj(SetPath(Next(obj, keys[k]), keys[k + 1..], value))]
  {
    assert keys[k..][1..] == keys[k + 1..];
  }

  /**
   * `setNestedValue(obj, path, value)`. The walk down is the source's loop:
   * `frames[i]` is the object `current` refers to at step `i`. Objects are
   * values here, so the writes the source makes through those references
   * are replayed from the innermost object outwards.
   */
  method SetNestedValue(obj: map<string, Json>, path: string, value: Json) returns (r: map<string, Json>)
    ensures r == SetPath(obj, Split(path, '.'), value)
  {
    var parts := Split(path, '.');
    var n := |parts|;
    var frames := [obj];
    var i := 0;
    while i < n - 1
      invariant 0 <= i <= n - 1
      invariant |frames| == i + 1 && frames[0] == obj
      invariant forall k :: 0 <= k < i ==> frames[k + 1] == Next(frames[k], parts[k])
    {
      frames := frames + [Next(frames[i], parts[i])];
      i := i + 1;
    }
    r := frames[n - 1][parts[n - 1] := value];
    assert parts[n - 1..] == [parts[n - 1]];
    var j := n - 1;
    while j > 0
      invariant 0 <= j <= n - 1
      invariant r == SetPath(frames[j], parts[j..], value)
    {
      SetPathStep(frames[j - 1], parts, j - 1, value);
      r := frames[j - 1][parts[j - 1] := JObj(r)];
      j := j - 1;
    }
    assert parts[0..] == parts;
  }

  /** `getNestedValue(obj, path)`: the loop with its early return. */
  method GetNestedValue(obj: map<string, Json>, path: string) returns (current: Json)
    ensures current == GetPath(JObj(obj), Split(path, '.'))
  {
    var parts := Split(path, '.');
    current := JObj(obj);
    for i := 0 to |parts|
      invariant GetPath(current, parts[i..]) == GetPath(JObj(obj), parts)
    {
      if !(Truthy(current) && IsObject(current)) {
        assert GetPath(current, parts[i..]) == JUndefined;
        return JUndefined;
      }
      assert parts[i..][1..] == parts[i + 1..];
      current := Prop(current, parts[i]);
    }
    assert parts[|parts|..] == [];
  }

  /* ------------------------------ Airports ------------------------------ */

  /** The knob paths the schema renders with the multi-airport picker. */
  const AirportMultiPaths: set<string> := {"repo.vhbSets.default", "fees.highDensity.airports"}

  /** The knob paths the schema renders with the single-airport picker. */
  const AirportSinglePaths: set<string> := {"repo.fixedBaseIcao"}

  function SideText(d: Side): string {
    match d
    case East => "EAST"
    case West => "WEST"
  }

  function OptionalText(s: Option<string>): Json {
    if s.Some? then JStr(s.value) else JUndefined
  }

  /** The engine's airport record, as an untyped object. */
  function AirportJson(a: Airport): Json {
    JObj(map[
      "icao" := JStr(a.icao),
      "lat" := JNum(a.lat),
      "lon" := JNum(a.lon),
      "country" := OptionalText(a.country),
      "state" := OptionalText(a.state),
      "timezoneId" := JStr(a.timezoneId),
      "mississippi_direction" := JStr(SideText(a.direction))])
  }

  /** `toApiAirport`: the airport table's record for a code, if any. */
  function ToApiAirport(airports: map<string, Airport>, icao: string): Option<Airport> {
    if icao in airports then Some(airports[icao]) else None
  }

  /** `.filter(Boolean)` on strings: the non-empty ones, in order. */
  function NonEmpty(items: seq<string>): (r: seq<string>)
    ensures |r| <= |items|
    ensures forall c :: c in r ==> c != "" && c in items
    ensures forall i :: 0 <= i < |items| && items[i] != "" ==> items[i] in r
    decreases |items|
  {
    if |items| == 0 then []
    else
      var rest := NonEmpty(items[1..]);
      assert forall i :: 1 <= i < |items| ==> items[i] == items[1..][i - 1];
      if items[0] == "" then rest else [items[0]] + rest
  }

  /** `filter(Boolean)` keeps order and multiplicity: it distributes over concatenation. */
  lemma {:induction false} NonEmptyConcat(a: seq<string>, b: seq<string>)
    ensures NonEmpty(a + b) == NonEmpty(a) + NonEmpty(b)
    ensures NonEmpty([]) == []
    ensures forall x :: (NonEmpty([x]) == if x == "" then [] else [x])
    decreases |a|
  {
    if |a| > 0 {
      assert (a + b)[1..] == a[1..] + b;
      NonEmptyConcat(a[1..], b);
    } else {
      assert a + b == b;
    }
    forall x ensures NonEmpty([x]) == if x == "" then [] else [x] {
      assert [x][1..] == [];
    }
  }

  /** `.map((item) => item.trim())`. */
  function TrimAll(items: seq<string>): (r: seq<string>)
    ensures |r| == |items| && forall i :: 0 <= i < |items| ==> r[i] == Trim(items[i])
  {
    seq(|items|, i requires 0 <= i < |items| => Trim(items[i]))
  }

  /** Codes that resolve, as airport objects, in order; unknown codes are dropped. */
  function ResolveAirports(airports: map<string, Airport>, codes: seq<string>): (r: seq<Json>)
    ensures |r| <= |codes|
    ensures (forall c :: c in codes ==> c in airports) ==>
      |r| == |codes| && forall i :: 0 <= i < |codes| ==> r[i] == AirportJson(airports[codes[i]])
    ensures forall x :: x in r ==> exists c :: c in codes && c in airports && x == AirportJson(airports[c])
    decreases |codes|
  {
    if |codes| == 0 then []
    else
      var rest := ResolveAirports(airports, codes[1..]);
      assert forall c :: c in codes[1..] ==> c in codes;
      if codes[0] in airports then [AirportJson(airports[codes[0]])] + rest else rest
  }

  /** Resolution is an order-preserving filter: it distributes over concatenation. */
  lemma {:induction false} ResolveAirportsConcat(airports: map<string, Airport>, a: seq<string>, b: seq<string>)
    ensures ResolveAirports(airports, a + b) == ResolveAirports(airports, a) + ResolveAirports(airports, b)
    decreases |a|
  {
    if |a| > 0 {
      var head := if a[0] in airports then [AirportJson(airports[a[0]])] else [];
      assert (a + b)[0] == a[0] && (a + b)[1..] == a[1..] + b;
      assert ResolveAirports(airports, a + b) == head + ResolveAirports(airports, a[1..] + b);
      assert ResolveAirports(airports, a) == head + ResolveAirports(airports, a[1..]);
      ResolveAirportsConcat(airports, a[1..], b);
    } else {
      assert a + b == b;
    }
  }

  /** One code resolves to its airport, or to nothing when the table lacks it. */
  lemma ResolveOneAirport(airports: map<string, Airport>, c: string)
    ensures ResolveAirports(airports, [c]) == if c in airports then [AirportJson(airports[c])] else []
  {
    assert [c][1..] == [];
  }

  /** The value a comma-separated multi-airport knob becomes. */
  function AirportListValue(airports: map<string, Airport>, s: string): Json {
    JArr(ResolveAirports(airports, NonEmpty(TrimAll(Split(s, ',')))))
  }

  /* ------------------------------ buildPricingKnobs ------------------------------ */

  const LandingPrefix := "fees.landing."
  const LandingFeesPrefix := "fees.landingFees."
  const LandingCountingPath := "fees.landingFees.countingMode"

  /** The path a knob is written to: the legacy `fees.landing.` prefix becomes `fees.landingFees.`. */
  function FinalPath(path: string): (r: string)
    ensures StartsWith(path, LandingPrefix) ==>
      StartsWith(r, LandingFeesPrefix) && r[|LandingFeesPrefix|..] == path[|LandingPrefix|..]
    ensures !StartsWith(path, LandingPrefix) ==> r == path
  {
    if StartsWith(path, LandingPrefix) then LandingFeesPrefix + path[|LandingPrefix|..] else path
  }

  /** The value an airport knob holds once its codes are resolved; other knobs are unchanged. */
  function AirportValue(airports: map<string, Airport>, path: string, value: Json): Json
  {
    if path in AirportMultiPaths && value.JStr? then AirportListValue(airports, value.s)
    else if path in AirportSinglePaths && value.JStr? then
      match ToApiAirport(airports, value.s)
      case Some(a) => AirportJson(a)
      case None => JNull
    else value
  }

  /** Multi-airport text becomes the resolved list, single-airport text the airport or null, anything else stays. */
  lemma AirportValueCases(airports: map<string, Airport>, path: string, value: Json)
    ensures path in AirportMultiPaths && value.JStr? ==>
      AirportValue(airports, path, value) == AirportListValue(airports, value.s)
    ensures path in AirportSinglePaths && value.JStr? ==>
      AirportValue(airports, path, value) == (if value.s in airports then AirportJson(airports[value.s]) else JNull)
    ensures !(path in AirportMultiPaths + AirportSinglePaths && value.JStr?) ==> AirportValue(airports, path, value) == value
  {
    if path in AirportSinglePaths {
      assert path == "repo.fixedBaseIcao";
      assert path !in AirportMultiPaths;
    }
  }

  /** The value a knob is written as: airport codes resolved, `landings` renamed for landing fees. */
  function FinalValue(airports: map<string, Airport>, path: string, value: Json): Json
  {
    var resolved := AirportValue(airports, path, value);
    if FinalPath(path) == LandingCountingPath && resolved == JStr("landings") then JStr("landings_including_repo")
    else resolved
  }

  /** Null, undefined and empty-string knobs are skipped. */
  predicate Skipped(value: Json) {
    IsNullish(value) || value == JStr("")
  }

  /** The nested configuration written by the entries, in order. */
  function PricingKnobsOf(airports: map<string, Airport>, entries: seq<(string, Json)>): map<string, Json>
    decreases |entries|
  {
    if |entries| == 0 then map[]
    else
      WriteKnob(airports, PricingKnobsOf(airports, entries[..|entries| - 1]), entries[|entries| - 1])
  }

  /** One knob's contribution: nothing when skipped, else its final value at its final path. */
  function WriteKnob(airports: map<string, Airport>, result: map<string, Json>, entry: (string, Json)): map<string, Json>
  {
    if Skipped(entry.1) then result
    else SetPath(result, Split(FinalPath(entry.0), '.'), FinalValue(airports, entry.0, entry.1))
  }

  /** `buildPricingKnobs`: each non-empty knob is written at its path. */
  method BuildPricingKnobs(airports: map<string, Airport>, entries: seq<(string, Json)>)
    returns (result: map<string, Json>)
    ensures result == PricingKnobsOf(airports, entries)
  {
    result := map[];
    for k := 0 to |entries|
      invariant result == PricingKnobsOf(airports, entries[..k])
    {
      assert entries[..k + 1][..k] == entries[..k];
      ghost var before := result;
      assert PricingKnobsOf(airports, entries[..k + 1]) == WriteKnob(airports, before, entries[k]);
      var path := entries[k].0;
      var value := entries[k].1;
      if Skipped(value) {
        continue;
      }
      var finalPath := FinalPath(path);
      var finalValue := FinalValue(airports, path, value);
      result := SetNestedValue(result, finalPath, finalValue);
      assert result == WriteKnob(airports, before, entries[k]);
    }
    assert entries[..|entries|] == entries;
  }

  /** A skipped knob leaves the configuration as it was. */
  lemma SkippedKnobWritesNothing(airports: map<string, Airport>, entries: seq<(string, Json)>, path: string, value: Json)
    requires Skipped(value)
    ensures PricingKnobsOf(airports, entries + [(path, value)]) == PricingKnobsOf(airports, entries)
  {
    assert (entries + [(path, value)])[..|entries|] == entries;
  }

  /** The last knob written can be read back at its final path as its final value. */
  lemma LastKnobReadsBack(airports: map<string, Airport>, entries: seq<(string, Json)>, path: string, value: Json)
    requires !Skipped(value)
    ensures GetPath(JObj(PricingKnobsOf(airports, entries + [(path, value)])), Split(FinalPath(path), '.')) ==
      FinalValue(airports, path, value)
  {
    assert (entries + [(path, value)])[..|entries|] == entries;
    GetAfterSet(PricingKnobsOf(airports, entries), Split(FinalPath(path), '.'), FinalValue(airports, path, value));
  }

  /** The legacy landing counting mode `landings` is written as `landings_including_repo` under `fees.landingFees`. */
  lemma LegacyLandingModeRenamed(airports: map<string, Airport>)
    ensures FinalPath("fees.landing.countingMode") == LandingCountingPath
    ensures FinalValue(airports, "fees.landing.countingMode", JStr("landings")) == JStr("landings_including_repo")
  {
    LegacyLandingPath();
    LegacyLandingNotAirport();
    assert AirportValue(airports, "fees.landing.countingMode", JStr("landings")) == JStr("landings");
  }

  /** The legacy landing-mode path is renamed to the `landingFees` one. */
  lemma LegacyLandingPath()
    ensures FinalPath("fees.landing.countingMode") == LandingCountingPath
  {
    var path := "fees.landing.countingMode";
    assert path == LandingPrefix + "countingMode";
    assert path[..|LandingPrefix|] == LandingPrefix;
    assert path[|LandingPrefix|..] == "countingMode";
  }

  /** The legacy landing-mode path is not an airport knob. */
  lemma LegacyLandingNotAirport()
    ensures "fees.landing.countingMode" !in AirportMultiPaths + AirportSinglePaths
  {
    var path := "fees.landing.countingMode";
    assert "repo.vhbSets.default"[0] == 'r' && "repo.fixedBaseIcao"[0] == 'r' && path[0] == 'f';
    assert "fees.highDensity.airports"[5] == 'h' && path[5] == 'l';
  }

  /* ------------------------------ buildDefaultKnobValues ------------------------------ */

  /** Decimal text of an integer. */
  function IntText(i: int): string
    decreases if i < 0 then 1 - i else i
  {
    if i < 0 then "-" + IntText(-i)
    else if i < 10 then [('0' as int + i) as char]
    else IntText(i / 10) + [('0' as int + i % 10) as char]
  }

  /**
   * The text `Array.prototype.join` uses for an element: null and undefined
   * are empty, numbers with a fractional part are not rendered.
   */
  function JsText(v: Json): string {
    match v
    case JUndefined => ""
    case JNull => ""
    case JBool(b) => if b then "true" else "false"
    case JNum(n) => if n.Floor as real == n then IntText(n.Floor) else ""
    case JStr(s) => s
    case JArr(items) => Join(seq(|items|, i requires 0 <= i < |items| => JsText(items[i])), ",")
    case JObj(_) => "[object Object]"
  }

  /** The `icao` of each object element that has a truthy one, in order. */
  function IcaoCodes(items: seq<Json>): (codes: seq<Json>)
    ensures forall c :: c in codes ==> Truthy(c)
    decreases |items|
  {
    if |items| == 0 then []
    else
      var item := items[0];
      var code := if Truthy(item) && IsObject(item) then Prop(item, "icao") else JUndefined;
      (if Truthy(code) then [code] else []) + IcaoCodes(items[1..])
  }

  /** The `icao` extraction is an order-preserving filter over the list. */
  lemma {:induction false} IcaoCodesConcat(a: seq<Json>, b: seq<Json>)
    ensures IcaoCodes(a + b) == IcaoCodes(a) + IcaoCodes(b)
    ensures forall x :: (IcaoCodes([x]) ==
      if Truthy(x) && IsObject(x) && Truthy(Prop(x, "icao")) then [Prop(x, "icao")] else [])
    decreases |a|
  {
    if |a| > 0 {
      assert (a + b)[1..] == a[1..] + b;
      IcaoCodesConcat(a[1..], b);
    } else {
      assert a + b == b;
    }
    forall x ensures IcaoCodes([x]) ==
      if Truthy(x) && IsObject(x) && Truthy(Prop(x, "icao")) then [Prop(x, "icao")] else []
    {
      assert [x][1..] == [];
    }
  }

  function JoinTexts(values: seq<Json>, sep: string): string {
    Join(seq(|values|, i requires 0 <= i < |values| => JsText(values[i])), sep)
  }

  /** The flat form value of one schema field, `None` when the field is left out. */
  function DefaultValueFor(knobs: map<string, Json>, path: string): (r: Option<Json>)
    ensures IsNullish(GetPath(JObj(knobs), Split(path, '.'))) ==> r.None?
    ensures r.Some? ==> r.value.JStr? || r.value.JNum? || r.value.JBool? || path in AirportSinglePaths
    ensures var value := GetPath(JObj(knobs), Split(path, '.'));
      value.JStr? || value.JNum? || value.JBool? ==> r == Some(value)
    ensures var value := GetPath(JObj(knobs), Split(path, '.'));
      path in AirportMultiPaths && value.JArr? ==> r == Some(JStr(JoinTexts(IcaoCodes(value.items), ", ")))
    ensures var value := GetPath(JObj(knobs), Split(path, '.'));
      (path in AirportSinglePaths && IsObject(value) && Truthy(Prop(value, "icao")) &&
       !(path in AirportMultiPaths && value.JArr?)) ==> r == Some(Prop(value, "icao"))
    ensures var value := GetPath(JObj(knobs), Split(path, '.'));
      (IsObject(value) && !(path in AirportMultiPaths && value.JArr?) &&
       !(path in AirportSinglePaths && Truthy(Prop(value, "icao")))) ==> r.None?
  {
    var value := GetPath(JObj(knobs), Split(path, '.'));
    if IsNullish(value) then None
    else if path in AirportMultiPaths && value.JArr? then Some(JStr(JoinTexts(IcaoCodes(value.items), ", ")))
    else if path in AirportSinglePaths && Truthy(value) && IsObject(value) && Truthy(Prop(value, "icao"))
    then Some(Prop(value, "icao"))
    else if value.JStr? || value.JNum? || value.JBool? then Some(value)
    else None
  }

  /** `buildDefaultKnobValues` over the schema's field paths. */
  method BuildDefaultKnobValues(knobs: map<string, Json>, fieldPaths: seq<string>) returns (result: KnobValues)
    ensures forall p :: p in result <==> p in fieldPaths && DefaultValueFor(knobs, p).Some?
    ensures forall p :: p in result ==> result[p] == DefaultValueFor(knobs, p).value
  {
    result := map[];
    for k := 0 to |fieldPaths|
      invariant forall p :: p in result <==> p in fieldPaths[..k] && DefaultValueFor(knobs, p).Some?
      invariant forall p :: p in result ==> result[p] == DefaultValueFor(knobs, p).value
    {
      assert forall p :: p in fieldPaths[..k + 1] <==> p in fieldPaths[..k] || p == fieldPaths[k];
      var path := fieldPaths[k];
      var value := GetNestedValue(knobs, path);
      if IsNullish(value) {
        continue;
      }
      if path in AirportMultiPaths && value.JArr? {
        var airports := IcaoCodes(value.items);
        result := result[path := JStr(JoinTexts(airports, ", "))];
        continue;
      }
      if path in AirportSinglePaths {
        if Truthy(value) && IsObject(value) {
          var icao := Prop(value, "icao");
          if Truthy(icao) {
            result := result[path := icao];
            continue;
          }
        }
      }
      if value.JStr? || value.JNum? || value.JBool? {
        result := result[path := value];
      }
    }
    assert fieldPaths[..|fieldPaths|] == fieldPaths;
  }

  /* ------------------------------ Equality of form state ------------------------------ */

  /** The planner's trip: every field optional. */
  datatype PlannerTrip = PlannerTrip(
    tripType: Option<TripType>,
    category: Option<string>,
    aircraftModel: Option<string>,
    fromIcao: Option<string>,
    toIcao: Option<string>,
    departLocalISO: Option<string>,
    returnLocalISO: Option<string>,
    passengers: Option<real>)

  /** `areTripValuesEqual`: both absent, or both present with the same eight fields. */
  function TripValuesEqual(a: Option<PlannerTrip>, b: Option<PlannerTrip>): (r: bool)
    ensures r <==> a == b
  {
    if a.None? && b.None? then true
    else if a.None? || b.None? then false
    else
      var x := a.value;
      var y := b.value;
      x.tripType == y.tripType && x.category == y.category && x.aircraftModel == y.aircraftModel &&
      x.fromIcao == y.fromIcao && x.toIcao == y.toIcao && x.departLocalISO == y.departLocalISO &&
      x.returnLocalISO == y.returnLocalISO && x.passengers == y.passengers
  }

  /** `b[key]` on a flat record: `undefined` when the key is absent. */
  function Lookup(values: KnobValues, key: string): Json {
    if key in values then values[key] else JUndefined
  }

  /**
   * `areKnobValuesEqual` as written: the same number of keys, and every key
   * of `a` reads the same in `b`, where a missing key reads `undefined`.
   */
  function KnobValuesEqualAsWritten(a: KnobValues, b: KnobValues): (r: bool)
    ensures |a.Keys| != |b.Keys| ==> !r
    ensures a == b ==> r
  {
    |a.Keys| == |b.Keys| && forall key :: key in a ==> Lookup(b, key) == a[key]
  }

  /** An `undefined` value under a key `b` lacks passes the check one way and not the other. */
  lemma KnobValuesEqualAsWrittenIsAsymmetric()
    ensures var a := map["x" := JUndefined];
      var b := map["y" := JNum(1.0)];
      KnobValuesEqualAsWritten(a, b) && !KnobValuesEqualAsWritten(b, a)
  {
    var a := map["x" := JUndefined];
    var b := map["y" := JNum(1.0)];
    assert a.Keys == {"x"} && b.Keys == {"y"};
    assert Lookup(a, "y") == JUndefined;
  }

  /** Knob records are equal when they have the same keys with the same values. */
  function KnobValuesEqual(a: KnobValues, b: KnobValues): (r: bool)
    ensures r <==> a == b
    ensures |a.Keys| != |b.Keys| ==> !r
  {
    a.Keys == b.Keys && forall key :: key in a ==> a[key] == b[key]
  }

  /** The corrected comparison is reflexive and symmetric, and agrees with the written one when no value is `undefined`. */
  lemma KnobValuesEqualProperties(a: KnobValues, b: KnobValues)
    ensures KnobValuesEqual(a, a)
    ensures KnobValuesEqual(a, b) == KnobValuesEqual(b, a)
    ensures (forall key :: key in a ==> a[key] != JUndefined) ==>
      (KnobValuesEqualAsWritten(a, b) <==> KnobValuesEqual(a, b))
  {
    if (forall key :: key in a ==> a[key] != JUndefined) && KnobValuesEqualAsWritten(a, b) {
      assert a.Keys <= b.Keys;
      SubsetOfSameSize(a.Keys, b.Keys);
    }
  }

  lemma SubsetOfSameSize(x: set<string>, y: set<string>)
    requires x <= y && |x| == |y|
    ensures x == y
  {
    if x != y {
      var e :| e in y && e !in x;
      assert x <= y - {e};
      SubsetSize(x, y - {e});
    }
  }

  lemma {:induction false} SubsetSize(x: set<string>, y: set<string>)
    requires x <= y
    ensures |x| <= |y|
    decreases |y|
  {
    if x != {} {
      var e :| e in x;
      SubsetSize(x - {e}, y - {e});
    }
  }

  /* ------------------------------ buildExportName ------------------------------ */

  predicate NameChar(c: char) {
    'a' <= c <= 'z' || '0' <= c <= '9' || c == '-'
  }

  /** `.replace(/[^a-z0-9-]+/g, "-")`: each run of other characters becomes one dash. */
  function ReplaceInvalid(s: string, inRun: bool): (r: string)
    ensures forall i :: 0 <= i < |r| ==> NameChar(r[i])
    ensures (forall i :: 0 <= i < |s| ==> NameChar(s[i])) ==> r == s
    ensures |r| <= |s|
    decreases |s|
  {
    if |s| == 0 then ""
    else if NameChar(s[0]) then [s[0]] + ReplaceInvalid(s[1..], false)
    else (if inRun then "" else "-") + ReplaceInvalid(s[1..], true)
  }

  /** `.replace(/-+/g, "-")`: each run of dashes becomes one. */
  function CollapseDashes(s: string, afterDash: bool): (r: string)
    ensures forall i :: 0 <= i < |r| ==> r[i] in s
    ensures forall i :: 0 <= i < |r| - 1 ==> !(r[i] == '-' && r[i + 1] == '-')
    ensures afterDash && |r| > 0 ==> r[0] != '-'
    ensures ((forall i :: 0 <= i < |s| - 1 ==> !(s[i] == '-' && s[i + 1] == '-')) &&
             !(afterDash && |s| > 0 && s[0] == '-')) ==> r == s
    decreases |s|
  {
    if |s| == 0 then ""
    else if s[0] == '-' then
      var rest := CollapseDashes(s[1..], true);
      assert forall i :: 0 <= i < |rest| ==> rest[i] in s;
      if afterDash then rest else "-" + rest
    else
      var rest := CollapseDashes(s[1..], false);
      assert forall i :: 0 <= i < |rest| ==> rest[i] in s;
      [s[0]] + rest
  }

  /** `.replace(/^-|-$/g, "")`: one leading and one trailing dash removed. */
  function StripEdgeDashes(s: string): (r: string)
    ensures |s| - 2 <= |r| <= |s|
    ensures forall i :: 0 <= i < |r| ==> r[i] in s
    ensures r == s[..|r|] || (|r| < |s| && r == s[1..|r| + 1])
    ensures |r| < |s| ==> s[0] == '-' || s[|s| - 1] == '-'
    ensures |s| == 0 || (s[0] != '-' && s[|s| - 1] != '-') ==> r == s
  {
    var front := if |s| > 0 && s[0] == '-' then s[1..] else s;
    if |front| > 0 && front[|front| - 1] == '-' then front[..|front| - 1] else front
  }

  predicate WellFormedName(name: string) {
    (forall i :: 0 <= i < |name| ==> NameChar(name[i])) &&
    (forall i :: 0 <= i < |name| - 1 ==> !(name[i] == '-' && name[i + 1] == '-')) &&
    (|name| > 0 ==> name[0] != '-' && name[|name| - 1] != '-')
  }

  function TripTypeText(t: TripType): string {
    match t
    case OneWay => "ONE_WAY"
    case RoundTrip => "ROUND_TRIP"
  }

  /** The four name parts, each falling back to its placeholder. */
  function ExportParts(t: PlannerTrip): seq<string> {
    [ if t.tripType.Some? then TripTypeText(t.tripType.value) else "trip",
      t.category.GetOr("cat"),
      t.fromIcao.GetOr("from"),
      t.toIcao.GetOr("to")]
  }

  /**
   * `buildExportName`: the slug of trip type, category and the two codes.
   * A trip whose joined, lower-cased parts already form a slug is named by
   * exactly that text.
   */
  function BuildExportName(trip: Option<PlannerTrip>): (name: string)
    ensures trip.None? ==> name == "untitled"
    ensures WellFormedName(name)
    ensures trip.Some? && WellFormedName(Lower(Join(ExportParts(trip.value), "-"))) ==>
      name == Lower(Join(ExportParts(trip.value), "-"))
  {
    if trip.None? then "untitled"
    else
      var lowered := Lower(Join(ExportParts(trip.value), "-"));
      var replaced := ReplaceInvalid(lowered, false);
      var collapsed := CollapseDashes(replaced, false);
      var name := StripEdgeDashes(collapsed);
      assert forall i :: 0 <= i < |collapsed| ==> NameChar(collapsed[i]);
      StripKeepsShape(collapsed);
      if WellFormedName(lowered) then SlugIsFixed(lowered); name else name
  }

  /** A trip in the light category from KTEB to KPBI, with no trip type, is exported as `trip-light-kteb-kpbi`. */
  lemma ExportNameExample()
    ensures BuildExportName(Some(PlannerTrip(None, Some("light"), None, Some("KTEB"), Some("KPBI"), None, None, None)))
      == "trip-light-kteb-kpbi"
  {
    var t := PlannerTrip(None, Some("light"), None, Some("KTEB"), Some("KPBI"), None, None, None);
    assert ExportParts(t) == ["trip", "light", "KTEB", "KPBI"];
    ExampleJoin();
    ExampleLower();
    ExampleIsSlug();
  }

  lemma ExampleJoin()
    ensures Join(["trip", "light", "KTEB", "KPBI"], "-") == "trip-light-KTEB-KPBI"
  {
    var parts := ["trip", "light", "KTEB", "KPBI"];
    assert parts[1..] == ["light", "KTEB", "KPBI"];
    assert parts[1..][1..] == ["KTEB", "KPBI"];
    assert parts[1..][1..][1..] == ["KPBI"];
    assert Join(["KTEB", "KPBI"], "-") == "KTEB-KPBI";
    assert Join(["light", "KTEB", "KPBI"], "-") == "light-KTEB-KPBI";
  }

  lemma ExampleLower()
    ensures Lower("trip-light-KTEB-KPBI") == "trip-light-kteb-kpbi"
  {
    var lowered := Lower("trip-light-KTEB-KPBI");
    forall i | 0 <= i < 20 ensures lowered[i] == "trip-light-kteb-kpbi"[i] {
    }
  }

  lemma ExampleIsSlug()
    ensures WellFormedName("trip-light-kteb-kpbi")
  {
  }

  /** A text that is already a slug comes through the three steps unchanged. */
  lemma SlugIsFixed(s: string)
    requires WellFormedName(s)
    ensures StripEdgeDashes(CollapseDashes(ReplaceInvalid(s, false), false)) == s
  {
    assert ReplaceInvalid(s, false) == s;
    assert CollapseDashes(s, false) == s;
  }

  lemma StripKeepsShape(s: string)
    requires forall i :: 0 <= i < |s| ==> NameChar(s[i])
    requires forall i :: 0 <= i < |s| - 1 ==> !(s[i] == '-' && s[i + 1] == '-')
    ensures WellFormedName(StripEdgeDashes(s))
  {
    var front := if |s| > 0 && s[0] == '-' then s[1..] else s;
    assert forall i :: 0 <= i < |front| - 1 ==> !(front[i] == '-' && front[i + 1] == '-');
    assert |front| > 0 && s[0] == '-' ==> front[0] != '-';
  }

  /* ------------------------------ Geo rules ------------------------------ */

  function BothSides(cfg: Json): string {
    if Prop(cfg, "originSide") == JStr("west") && Prop(cfg, "destinationSide") == JStr("west")
    then "both_west" else "both_east"
  }

  /** The current rule built from a legacy `mississippi` rule's configuration. */
  function MississippiRule(config: Json): Json {
    var short := Prop(config, "roundTripShort");
    var maxOvernights := Prop(short, "maxOvernights");
    JObj(map[
      "type" := JStr("mississippi_rule"),
      "oneWayRequires" := JStr(BothSides(Prop(config, "oneWay"))),
      "roundTripUpToNightsRequiresOrigin" := if maxOvernights.JNum? then maxOvernights else JNum(0.0),
      "roundTripUpToNightsSide" := JStr(if Prop(short, "originSide") == JStr("west") then "west" else "east"),
      "roundTripBeyondNightsRequires" := JStr(BothSides(Prop(config, "roundTripLong")))])
  }

  predicate IsLegacyRules(value: Json) {
    value.JArr? && |value.items| > 0 &&
    Truthy(Prop(value.items[0], "config")) && Prop(value.items[0], "type") == JStr("mississippi")
  }

  /**
   * `normalizeGeoRulesValue`: a list opening with a legacy rule becomes that
   * one rule in the current form. Each field is read from the legacy
   * configuration, and a field the configuration lacks takes its default:
   * both sides must be west for `both_west`, otherwise `both_east`; a
   * non-numeric night count is 0; an origin side other than west is `east`.
   */
  function NormalizeGeoRulesValue(value: Json): (r: Json)
    ensures !IsLegacyRules(value) ==> r == value
    ensures IsLegacyRules(value) ==>
      r.JArr? && |r.items| == 1 && r.items[0].JObj? && Prop(r.items[0], "type") == JStr("mississippi_rule") &&
      r.items[0].fields.Keys == {"type", "oneWayRequires", "roundTripUpToNightsRequiresOrigin",
        "roundTripUpToNightsSide", "roundTripBeyondNightsRequires"}
    ensures IsLegacyRules(value) ==>
      var oneWay := Prop(Prop(value.items[0], "config"), "oneWay");
      Prop(r.items[0], "oneWayRequires") ==
        if Prop(oneWay, "originSide") == JStr("west") && Prop(oneWay, "destinationSide") == JStr("west")
        then JStr("both_west") else JStr("both_east")
    ensures IsLegacyRules(value) ==>
      var short := Prop(Prop(value.items[0], "config"), "roundTripShort");
      (Prop(short, "maxOvernights").JNum? ==>
        Prop(r.items[0], "roundTripUpToNightsRequiresOrigin") == Prop(short, "maxOvernights")) &&
      (!Prop(short, "maxOvernights").JNum? ==> Prop(r.items[0], "roundTripUpToNightsRequiresOrigin") == JNum(0.0)) &&
      Prop(r.items[0], "roundTripUpToNightsSide") ==
        if Prop(short, "originSide") == JStr("west") then JStr("west") else JStr("east")
    ensures IsLegacyRules(value) ==>
      var long := Prop(Prop(value.items[0], "config"), "roundTripLong");
      Prop(r.items[0], "roundTripBeyondNightsRequires") ==
        if Prop(long, "originSide") == JStr("west") && Prop(long, "destinationSide") == JStr("west")
        then JStr("both_west") else JStr("both_east")
  {
    if IsLegacyRules(value) then JArr([MississippiRule(Prop(value.items[0], "config"))]) else value
  }

  /** A legacy rule with an empty configuration takes the defaults `both_east`, 0 and `east`. */
  lemma LegacyDefaults()
    ensures var r := NormalizeGeoRulesValue(JArr([JObj(map["type" := JStr("mississippi"), "config" := JObj(map[])])]));
      r == JArr([JObj(map[
        "type" := JStr("mississippi_rule"),
        "oneWayRequires" := JStr("both_east"),
        "roundTripUpToNightsRequiresOrigin" := JNum(0.0),
        "roundTripUpToNightsSide" := JStr("east"),
        "roundTripBeyondNightsRequires" := JStr("both_east")])])
  {
    var rule := JObj(map["type" := JStr("mississippi"), "config" := JObj(map[])]);
    assert Prop(rule, "config") == JObj(map[]);
    assert Prop(rule, "type") == JStr("mississippi");
  }

  /* ------------------------------ Imports and merges ------------------------------ */

  const VhbListKey := "repo.vhbSets.default"
  const HdAirportsKey := "fees.highDensity.airports"
  const GeoRulesKey := "eligibility.geoRules"

  /** `normalizeImportedKnobs`: list knobs become comma-joined text and legacy geo rules are converted. */
  method NormalizeImportedKnobs(knobs: KnobValues) returns (next: KnobValues)
    ensures next.Keys == knobs.Keys
    ensures VhbListKey in knobs && knobs[VhbListKey].JArr? ==>
      next[VhbListKey] == JStr(JoinTexts(knobs[VhbListKey].items, ", "))
    ensures HdAirportsKey in knobs && knobs[HdAirportsKey].JArr? ==>
      next[HdAirportsKey] == JStr(JoinTexts(knobs[HdAirportsKey].items, ", "))
    ensures GeoRulesKey in knobs ==> next[GeoRulesKey] == NormalizeGeoRulesValue(knobs[GeoRulesKey])
    ensures forall key :: key in knobs && key != GeoRulesKey && !(key in {VhbListKey, HdAirportsKey} && knobs[key].JArr?) ==>
      next[key] == knobs[key]
  {
    next := knobs;
    if VhbListKey in next && next[VhbListKey].JArr? {
      next := next[VhbListKey := JStr(JoinTexts(next[VhbListKey].items, ", "))];
    }
    if HdAirportsKey in next && next[HdAirportsKey].JArr? {
      next := next[HdAirportsKey := JStr(JoinTexts(next[HdAirportsKey].items, ", "))];
    }
    if GeoRulesKey in next {
      next := next[GeoRulesKey := NormalizeGeoRulesValue(next[GeoRulesKey])];
    }
  }

  /**
   * `mergeDeep`: every key of either side; the override's value wins unless
   * both values are plain objects, which are merged in turn.
   */
  function MergeDeep(base: map<string, Json>, override: map<string, Json>): (r: map<string, Json>)
    ensures r.Keys == base.Keys + override.Keys
    ensures forall key :: key in base && key !in override ==> r[key] == base[key]
    ensures forall key :: key in override && !(key in base && IsPlainObject(base[key]) && IsPlainObject(override[key])) ==>
      r[key] == override[key]
    decreases JObj(override)
  {
    map key | key in base.Keys + override.Keys ::
      if key in override && key in base && IsPlainObject(base[key]) && IsPlainObject(override[key])
      then JObj(MergeDeep(base[key].fields, override[key].fields))
      else if key in override then override[key]
      else base[key]
  }

  /** Merging with nothing gives the base back. */
  lemma MergeWithEmpty(base: map<string, Json>)
    ensures MergeDeep(base, map[]) == base
  {
  }

  /** Merging a value into itself changes nothing. */
  lemma {:induction false} MergeIntoSelf(base: map<string, Json>)
    ensures MergeDeep(base, base) == base
    decreases JObj(base)
  {
    forall key | key in base && IsPlainObject(base[key])
      ensures MergeDeep(base[key].fields, base[key].fields) == base[key].fields
    {
      MergeIntoSelf(base[key].fields);
    }
  }

  /** Leaves of the override are found at their paths in the merge. */
  lemma {:induction false} MergeKeepsOverrideLeaves(base: map<string, Json>, override: map<string, Json>, keys: seq<string>)
    requires |keys| >= 1
    requires !IsPlainObject(GetPath(JObj(override), keys)) && GetPath(JObj(override), keys) != JUndefined
    requires forall i :: 0 < i < |keys| ==> IsPlainObject(GetPath(JObj(override), keys[..i]))
    ensures GetPath(JObj(MergeDeep(base, override)), keys) == GetPath(JObj(override), keys)
    decreases |keys|
  {
    var key := keys[0];
    assert keys[..1] == [key];
    if |keys| == 1 {
      assert GetPath(JObj(override), keys) == Prop(JObj(override), key);
    } else {
      assert IsPlainObject(GetPath(JObj(override), keys[..1]));
      assert GetPath(JObj(override), keys[..1]) == Prop(JObj(override), key);
      var sub := override[key].fields;
      assert GetPath(JObj(override), keys) == GetPath(JObj(sub), keys[1..]);
      forall i | 0 < i < |keys| - 1 ensures IsPlainObject(GetPath(JObj(sub), keys[1..][..i])) {
        assert keys[..i + 1][1..] == keys[1..][..i];
        assert IsPlainObject(GetPath(JObj(override), keys[..i + 1]));
      }
      if key in base && IsPlainObject(base[key]) {
        MergeKeepsOverrideLeaves(base[key].fields, sub, keys[1..]);
      }
    }
  }

  /* ------------------------------ Readiness and the trip ------------------------------ */

  /** `isKnobsReady`: the chosen repo mode has its airports and the chosen rate model its positive rates. */
  predicate KnobsReady(knobs: PricingKnobs) {
    var repo := knobs.repo;
    var pricing := knobs.pricing;
    var repoReady :=
      (repo.mode == FixedBase && repo.fixedBaseIcao.Some? && repo.fixedBaseIcao.value.icao != "") ||
      (repo.mode == VhbNetwork && |repo.vhbDefault.GetOr([])| > 0) ||
      (repo.mode != FixedBase && repo.mode != VhbNetwork);
    var pricingReady :=
      (pricing.rateModel == SingleHourly && Pricing.UsableRate(pricing.hourlyRate)) ||
      (pricing.rateModel == DualRateRepoOccupied && Pricing.UsableRate(pricing.repoRate) &&
       Pricing.UsableRate(pricing.occupiedRate));
    repoReady && pricingReady
  }

  /** Ready knobs pass the engine's knob checks, and its base cost never reports a missing rate. */
  lemma ReadyKnobsPassChecks(payload: QuoteRequestPayload, occupiedHours: real, repoHours: real)
    requires KnobsReady(payload.knobs)
    ensures Engine.ValidateBasics(payload).None? <==> !Engine.ReturnMissing(payload.trip)
    ensures Pricing.CalcBaseCost(payload.knobs, occupiedHours, repoHours).Ok?
  {
  }

  /** `buildTripInput`: the engine's trip when both codes resolve and type, category and departure are set. */
  function BuildTripInput(airports: map<string, Airport>, trip: PlannerTrip): (r: Option<TripInput>)
    ensures r.Some? <==>
      Present(trip.fromIcao) && Present(trip.toIcao) &&
      trip.fromIcao.value in airports && trip.toIcao.value in airports &&
      trip.tripType.Some? && Present(trip.category) && Present(trip.departLocalISO)
    ensures r.Some? ==>
      r.value.tripType == trip.tripType.value && r.value.category == trip.category.value &&
      r.value.from == airports[trip.fromIcao.value] && r.value.to == airports[trip.toIcao.value] &&
      r.value.departLocalISO == trip.departLocalISO.value &&
      (Present(trip.aircraftModel) ==> r.value.aircraftModelId == trip.aircraftModel) &&
      (!Present(trip.aircraftModel) ==> r.value.aircraftModelId.None?) &&
      (Present(trip.returnLocalISO) ==> r.value.returnLocalISO == trip.returnLocalISO) &&
      (!Present(trip.returnLocalISO) ==> r.value.returnLocalISO.None?) &&
      r.value.passengers == trip.passengers &&
      r.value.departTimezone.None? && r.value.returnTimezone.None?
  {
    if !Present(trip.fromIcao) || !Present(trip.toIcao) then None
    else
      var from := ToApiAirport(airports, trip.fromIcao.value);
      var to := ToApiAirport(airports, trip.toIcao.value);
      if from.None? || to.None? then None
      else if trip.tripType.None? || !Present(trip.category) || !Present(trip.departLocalISO) then None
      else Some(TripInput(
        tripType := trip.tripType.value,
        category := trip.category.value,
        aircraftModelId := if Present(trip.aircraftModel) then trip.aircraftModel else None,
        from := from.value,
        to := to.value,
        departLocalISO := trip.departLocalISO.value,
        departTimezone := None,
        returnLocalISO := if Present(trip.returnLocalISO) then trip.returnLocalISO else None,
        returnTimezone := None,
        passengers := trip.passengers))
  }

  /** A built round trip passes the engine's return check exactly when the planner had a return time. */
  lemma BuiltTripReturnCheck(airports: map<string, Airport>, trip: PlannerTrip)
    requires BuildTripInput(airports, trip).Some?
    ensures Engine.ReturnMissing(BuildTripInput(airports, trip).value) <==>
      trip.tripType == Some(RoundTrip) && !Present(trip.returnLocalISO)
  {
  }
}
