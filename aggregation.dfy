/**
 * Totals over line items, and the merge of the two one-way quotes of a split
 * round trip into a single result.
 */
module Aggregation {
  import opened Wrappers
  import opened QuoteResult
  import opened Utils

  /** The five buckets of `summarizeTotals`. */
  datatype Bucket = OfCode(code: ItemCode) | FeeBucket | DiscountBucket | EveryItem

  predicate Selects(b: Bucket, it: LineItem) {
    match b
    case OfCode(c) => it.code == c
    case FeeBucket => IsFeeCode(it.code)
    case DiscountBucket => it.amount < 0.0
    case EveryItem => true
  }

  /** The items of one bucket, in order (`lineItems.filter(...)`). */
  function Select(items: seq<LineItem>, b: Bucket): (r: seq<LineItem>)
    ensures forall it {:trigger it in r} :: it in r <==> it in items && Selects(b, it)
  {
    if |items| == 0 then []
    else
      var last := items[|items| - 1];
      var rest := Select(items[..|items| - 1], b);
      assert forall it :: it in items <==> it in items[..|items| - 1] || it == last;
      if Selects(b, last) then rest + [last] else rest
  }

  /** The unrounded sum of a bucket. */
  function BucketSum(items: seq<LineItem>, b: Bucket): real {
    SumAmounts(Select(items, b))
  }

  lemma {:induction false} SelectConcat(x: seq<LineItem>, y: seq<LineItem>, b: Bucket)
    ensures Select(x + y, b) == Select(x, b) + Select(y, b)
    decreases |y|
  {
    if |y| == 0 {
      assert x + y == x;
    } else {
      var y' := y[..|y| - 1];
      assert (x + y)[..|x + y| - 1] == x + y';
      assert (x + y)[|x + y| - 1] == y[|y| - 1];
      SelectConcat(x, y', b);
    }
  }

  /** Bucket sums are additive over concatenation. */
  lemma BucketSumConcat(x: seq<LineItem>, y: seq<LineItem>, b: Bucket)
    ensures BucketSum(x + y, b) == BucketSum(x, b) + BucketSum(y, b)
  {
    SelectConcat(x, y, b);
    SumAmountsConcat(Select(x, b), Select(y, b));
  }

  /** `summarizeTotals`: each bucket summed over its items and rounded to cents on its own. */
  function SummarizeTotals(items: seq<LineItem>): (t: Totals)
    ensures IsCents(t.baseOccupied) && IsCents(t.baseRepo) && IsCents(t.fees) && IsCents(t.discounts) && IsCents(t.total)
    ensures t.baseOccupied - 0.005 <= BucketSum(items, OfCode(BaseOccupied)) < t.baseOccupied + 0.005
    ensures t.baseRepo - 0.005 <= BucketSum(items, OfCode(BaseRepo)) < t.baseRepo + 0.005
    ensures t.fees - 0.005 <= BucketSum(items, FeeBucket) < t.fees + 0.005
    ensures t.discounts - 0.005 <= BucketSum(items, DiscountBucket) < t.discounts + 0.005
    ensures t.total - 0.005 <= SumAmounts(items) < t.total + 0.005
  {
    RoundMoneyCents(BucketSum(items, OfCode(BaseOccupied)));
    RoundMoneyCents(BucketSum(items, OfCode(BaseRepo)));
    RoundMoneyCents(BucketSum(items, FeeBucket));
    RoundMoneyCents(BucketSum(items, DiscountBucket));
    RoundMoneyCents(BucketSum(items, EveryItem));
    SelectAll(items);
    Totals(
      baseOccupied := RoundMoney(BucketSum(items, OfCode(BaseOccupied))),
      baseRepo := RoundMoney(BucketSum(items, OfCode(BaseRepo))),
      discounts := RoundMoney(BucketSum(items, DiscountBucket)),
      fees := RoundMoney(BucketSum(items, FeeBucket)),
      total := RoundMoney(BucketSum(items, EveryItem)))
  }

  lemma {:induction false} SelectAll(items: seq<LineItem>)
    ensures Select(items, EveryItem) == items
    decreases |items|
  {
    if |items| > 0 {
      SelectAll(items[..|items| - 1]);
    }
  }

  /** The discount bucket is never positive, and the fee bucket has every fee item. */
  lemma {:induction false} DiscountsNonPositive(items: seq<LineItem>)
    ensures BucketSum(items, DiscountBucket) <= 0.0
    ensures SummarizeTotals(items).discounts <= 0.0
    decreases |items|
  {
    if |items| > 0 {
      DiscountsNonPositive(items[..|items| - 1]);
    }
    RoundMoneySign(BucketSum(items, DiscountBucket));
  }

  lemma {:induction false} SelectNone(items: seq<LineItem>, b: Bucket)
    requires forall i :: 0 <= i < |items| ==> !Selects(b, items[i])
    ensures Select(items, b) == []
    decreases |items|
  {
    if |items| > 0 {
      SelectNone(items[..|items| - 1], b);
    }
  }

  lemma {:induction false} SelectAllSelected(items: seq<LineItem>, b: Bucket)
    requires forall i :: 0 <= i < |items| ==> Selects(b, items[i])
    ensures Select(items, b) == items
    decreases |items|
  {
    if |items| > 0 {
      var init := items[..|items| - 1];
      forall i | 0 <= i < |init| ensures Selects(b, init[i]) {
        assert init[i] == items[i];
      }
      SelectAllSelected(init, b);
      assert Selects(b, items[|items| - 1]);
      assert init + [items[|items| - 1]] == items;
    }
  }

  /** Zone repositioning items (`BASE_REPO_ZONE`) never enter the `baseRepo` bucket. */
  lemma ZoneRepoItemsExcluded(items: seq<LineItem>, zoneItems: seq<LineItem>)
    requires forall i :: 0 <= i < |zoneItems| ==> zoneItems[i].code == BaseRepoZone
    ensures SummarizeTotals(items + zoneItems).baseRepo == SummarizeTotals(items).baseRepo
  {
    SelectConcat(items, zoneItems, OfCode(BaseRepo));
    SelectNone(zoneItems, OfCode(BaseRepo));
    assert Select(items, OfCode(BaseRepo)) + [] == Select(items, OfCode(BaseRepo));
  }

  /* ----------------------------- Round-trip merge ----------------------------- */

  /** The items of one half, each tagged with the half it came from (`meta.leg`). */
  function Tag(items: seq<LineItem>, half: SplitHalf): (r: seq<LineItem>)
    ensures |r| == |items|
    ensures forall i :: 0 <= i < |r| ==> r[i] == items[i].(splitHalf := Some(half))
  {
    seq(|items|, i requires 0 <= i < |items| => items[i].(splitHalf := Some(half)))
  }

  /** The merged items: a's items tagged outbound, then b's tagged return. */
  function Merged(x: seq<LineItem>, y: seq<LineItem>): (m: seq<LineItem>)
    ensures |m| == |x| + |y|
    ensures forall i :: 0 <= i < |x| ==> m[i] == x[i].(splitHalf := Some(OutboundHalf))
    ensures forall i :: 0 <= i < |y| ==> m[|x| + i] == y[i].(splitHalf := Some(ReturnHalf))
  {
    var tx := Tag(x, OutboundHalf);
    var ty := Tag(y, ReturnHalf);
    assert forall i :: 0 <= i < |y| ==> (tx + ty)[|x| + i] == ty[i];
    tx + ty
  }

  /** Tagging changes no bucket. */
  lemma {:induction false} TagKeepsBuckets(items: seq<LineItem>, half: SplitHalf, b: Bucket)
    ensures BucketSum(Tag(items, half), b) == BucketSum(items, b)
    decreases |items|
  {
    if |items| > 0 {
      var n := |items| - 1;
      assert Tag(items, half)[..n] == Tag(items[..n], half);
      TagKeepsBuckets(items[..n], half, b);
    }
  }

  /** Whether the optional note is a non-empty string. */
  predicate HasNote(note: Option<string>) {
    note.Some? && note.value != ""
  }

  function HoursOf(q: QuoteResult): (real, real) {
    if q.times.Some? then (q.times.value.occupiedHours, q.times.value.repoHours) else (0.0, 0.0)
  }

  /**
   * `sumTwoQuotes`: an OK result with a's items then b's, tagged outbound and
   * return, totals recomputed from the merged items, the legs of a then b,
   * hours added up, and an informational split reason exactly when a note is given.
   */
  function SumTwoQuotes(a: QuoteResult, b: QuoteResult, note: Option<string>): (r: QuoteResult)
    ensures r.status == StatusOk
    ensures r.legs == Some(a.legs.GetOr([]) + b.legs.GetOr([]))
    ensures r.lineItems.Some? && r.totals.Some? && r.times.Some?
    ensures r.lineItems == Some(Merged(a.lineItems.GetOr([]), b.lineItems.GetOr([])))
    ensures r.totals.value == SummarizeTotals(r.lineItems.value)
    ensures r.times.value.occupiedHours == HoursOf(a).0 + HoursOf(b).0
    ensures r.times.value.repoHours == HoursOf(a).1 + HoursOf(b).1
    ensures r.times.value.totalHours == r.times.value.occupiedHours + r.times.value.repoHours
    ensures r.rejectReasons.Some? <==> HasNote(note)
    ensures HasNote(note) ==> r.rejectReasons.value == [Reason(InfoSplit, None)]
  {
    var mergedItems := Merged(a.lineItems.GetOr([]), b.lineItems.GetOr([]));
    var occupiedHours := HoursOf(a).0 + HoursOf(b).0;
    var repoHours := HoursOf(a).1 + HoursOf(b).1;
    QuoteResult(
      status := StatusOk,
      rejectReasons := if HasNote(note) then Some([Reason(InfoSplit, None)]) else None,
      legs := Some(a.legs.GetOr([]) + b.legs.GetOr([])),
      times := Some(Times(occupiedHours, repoHours, occupiedHours + repoHours, None, None, None)),
      lineItems := Some(mergedItems),
      totals := Some(SummarizeTotals(mergedItems)))
  }

  /** Each merged bucket is the rounded sum of the two halves' unrounded buckets. */
  lemma MergedBuckets(aItems: seq<LineItem>, bItems: seq<LineItem>, k: Bucket)
    ensures BucketSum(Merged(aItems, bItems), k) == BucketSum(aItems, k) + BucketSum(bItems, k)
  {
    BucketSumConcat(Tag(aItems, OutboundHalf), Tag(bItems, ReturnHalf), k);
    TagKeepsBuckets(aItems, OutboundHalf, k);
    TagKeepsBuckets(bItems, ReturnHalf, k);
  }
}
