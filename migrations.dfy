/**
 * The knob-schema migration: `maxNightsBeforeSplit` moves from
 * `fees.overnight` to `trip`. JavaScript objects are heap objects here,
 * because the migration copies only the top level: the `fees` object, and
 * so `fees.overnight`, stays shared with the input and is changed in place.
 */
module Migrations {
  import opened Wrappers

  /** A JavaScript value: a primitive, or a reference to an object. */
  datatype JsValue =
    | Undefined
    | Null
    | Bool(b: bool)
    | Num(n: real)
    | Str(s: string)
    | Ref(obj: JsObject)

  /** A JavaScript object: its own properties. */
  class JsObject {
    var fields: map<string, JsValue>

    constructor (fields: map<string, JsValue>)
      ensures this.fields == fields
    {
      this.fields := fields;
    }
  }

  /** JavaScript truthiness (`!v` is false). */
  predicate Truthy(v: JsValue) {
    match v
    case Undefined => false
    case Null => false
    case Bool(b) => b
    case Num(n) => n != 0.0
    case Str(s) => s != ""
    case Ref(_) => true
  }

  /** `o[key]`, `undefined` for a missing property. */
  function Get(o: JsObject, key: string): JsValue
    reads o
  {
    if key in o.fields then o.fields[key] else Undefined
  }

  /** Every object a member of `heap` refers to is in `heap` as well. */
  predicate Closed(heap: set<JsObject>)
    reads heap
  {
    forall o, k :: o in heap && k in o.fields && o.fields[k].Ref? ==> o.fields[k].obj in heap
  }

  const SplitKey := "maxNightsBeforeSplit"

  /**
   * `knobs.fees?.overnight?.maxNightsBeforeSplit` when it is defined,
   * together with the `overnight` object that holds it.
   */
  function PendingSplit(knobs: JsObject, heap: set<JsObject>): (r: Option<(JsObject, JsValue)>)
    requires knobs in heap && Closed(heap)
    reads heap
    ensures r.Some? ==> r.value.0 in heap && r.value.1 != Undefined && Get(r.value.0, SplitKey) == r.value.1
  {
    var fees := Get(knobs, "fees");
    if !fees.Ref? then None
    else
      var overnight := Get(fees.obj, "overnight");
      if !overnight.Ref? then None
      else
        var split := Get(overnight.obj, SplitKey);
        if split == Undefined then None else Some((overnight.obj, split))
  }

  /**
   * `migrateKnobs`. `ok` is false when the assignment to `trip` throws, which
   * in strict-mode JavaScript it does when `trip` is a truthy primitive.
   */
  method MigrateKnobs(oldKnobs: JsObject, ghost heap: set<JsObject>) returns (newKnobs: JsObject, ok: bool)
    requires oldKnobs in heap && Closed(heap)
    modifies heap
    ensures fresh(newKnobs)
    // Nothing to move: a shallow copy, and no object changes.
    ensures old(PendingSplit(oldKnobs, heap)).None? ==>
      ok && newKnobs.fields == old(oldKnobs.fields) && forall o :: o in heap ==> o.fields == old(o.fields)
    // `trip` is missing or falsy: it becomes a fresh object holding only the value.
    ensures old(PendingSplit(oldKnobs, heap)).Some? && !Truthy(old(Get(oldKnobs, "trip"))) ==>
      var overnight := old(PendingSplit(oldKnobs, heap)).value.0;
      var split := old(PendingSplit(oldKnobs, heap)).value.1;
      ok && "trip" in newKnobs.fields && newKnobs.fields["trip"].Ref? &&
      var trip := newKnobs.fields["trip"].obj;
      fresh(trip) && trip.fields == map[SplitKey := split] &&
      newKnobs.fields == old(oldKnobs.fields)["trip" := Ref(trip)] &&
      overnight.fields == old(overnight.fields) - {SplitKey} &&
      forall o :: o in heap && o != overnight ==> o.fields == old(o.fields)
    // `trip` is an object: that same object receives the value.
    ensures old(PendingSplit(oldKnobs, heap)).Some? && old(Get(oldKnobs, "trip")).Ref? ==>
      var overnight := old(PendingSplit(oldKnobs, heap)).value.0;
      var split := old(PendingSplit(oldKnobs, heap)).value.1;
      var trip := old(Get(oldKnobs, "trip")).obj;
      ok && newKnobs.fields == old(oldKnobs.fields) &&
      overnight.fields == old(overnight.fields) - {SplitKey} &&
      (trip != overnight ==> trip.fields == old(trip.fields)[SplitKey := split]) &&
      forall o :: o in heap && o != overnight && o != trip ==> o.fields == old(o.fields)
    // `trip` is a truthy primitive: the assignment throws.
    ensures (old(PendingSplit(oldKnobs, heap)).Some? && Truthy(old(Get(oldKnobs, "trip"))) &&
             !old(Get(oldKnobs, "trip")).Ref?) ==>
      !ok && forall o :: o in heap ==> o.fields == old(o.fields)
    // The input's objects still refer only to one another.
    ensures Closed(heap)
  {
    newKnobs := new JsObject(oldKnobs.fields);
    ok := true;
    var fees := Get(oldKnobs, "fees");
    if !fees.Ref? {
      return;
    }
    var overnight := Get(fees.obj, "overnight");
    if !overnight.Ref? {
      return;
    }
    var split := Get(overnight.obj, SplitKey);
    if split == Undefined {
      return;
    }
    var trip := Get(newKnobs, "trip");
    if !Truthy(trip) {
      var created := new JsObject(map[]);
      newKnobs.fields := newKnobs.fields["trip" := Ref(created)];
      trip := Ref(created);
    } else if !trip.Ref? {
      ok := false;
      return;
    }
    trip.obj.fields := trip.obj.fields[SplitKey := split];
    // `newKnobs.fees` is the input's `fees` object.
    overnight.obj.fields := overnight.obj.fields - {SplitKey};
  }
}
