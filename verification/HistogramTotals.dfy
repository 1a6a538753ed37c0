/** What a histogram holds after any list of values: the totals of the values themselves. */
module HistogramTotals {
  import opened Nonlinear
  import opened Histogram

  /** A value recorded with a weight. */
  datatype Add = Add(value: int, weight: nat)

  function AddAll(size: nat, min: int, max: int, adds: seq<Add>): (h: Histogram)
    requires size > 0 && min <= max
    ensures Shaped(h) && h.size == size && h.min == min && h.max == max
  {
    if adds == [] then Empty(size, min, max)
    else
      var n := |adds| - 1;
      Added(AddAll(size, min, max, adds[..n]), adds[n].value, adds[n].weight)
  }

  // --------------------------------------------------------------------------
  // The totals, from the values
  // --------------------------------------------------------------------------

  /** Bucket idx is the one for a value: below the range, above it, or idx-th among the spans of one size. */
  predicate Meant(size: nat, min: int, max: int, idx: nat, value: int)
    requires size > 0 && min <= max
  {
    if value < min then idx == 0
    else if value >= max then idx == Interior(size, min, max) + 1
    else idx >= 1 && min + Times(idx - 1, size) <= value < min + Times(idx, size)
  }

  function WeightIn(size: nat, min: int, max: int, adds: seq<Add>, idx: nat): nat
    requires size > 0 && min <= max
  {
    if adds == [] then 0
    else
      var a := adds[|adds| - 1];
      WeightIn(size, min, max, adds[..|adds| - 1], idx) + (if Meant(size, min, max, idx, a.value) then a.weight else 0)
  }

  function SumIn(size: nat, min: int, max: int, adds: seq<Add>, idx: nat): int
    requires size > 0 && min <= max
  {
    if adds == [] then 0
    else
      var a := adds[|adds| - 1];
      SumIn(size, min, max, adds[..|adds| - 1], idx)
      + (if Meant(size, min, max, idx, a.value) then a.value * a.weight else 0)
  }

  function Weight(adds: seq<Add>): nat {
    if adds == [] then 0 else Weight(adds[..|adds| - 1]) + adds[|adds| - 1].weight
  }

  lemma {:induction false} MeantOnce(h: Histogram, idx: nat, value: int)
    requires Shaped(h)
    ensures Meant(h.size, h.min, h.max, idx, value) <==> idx == BucketIdx(h, value)
    ensures Meant(h.size, h.min, h.max, idx, value) ==> idx < |h.buckets| && Belongs(h, idx, value)
  {
    IdxBelongs(h, value);
    if h.min <= value < h.max {
      DivMod(value - h.min, h.size);
      var q := (value - h.min) / h.size;
      if idx >= 1 && h.min + Times(idx - 1, h.size) <= value < h.min + Times(idx, h.size) {
        MixedRadixInjective(idx - 1, value - h.min - Times(idx - 1, h.size), q, (value - h.min) % h.size, h.size);
      }
    }
  }

  // --------------------------------------------------------------------------
  // They agree
  // --------------------------------------------------------------------------

  /** Each bucket has the weight and the weighted sum of the values meant for it, and no other. */
  lemma {:induction false} BucketTotals(size: nat, min: int, max: int, adds: seq<Add>, idx: nat)
    requires size > 0 && min <= max && idx < Interior(size, min, max) + 2
    ensures AddAll(size, min, max, adds).buckets[idx]
            == Bucket(SumIn(size, min, max, adds, idx), WeightIn(size, min, max, adds, idx))
  {
    if adds != [] {
      var n := |adds| - 1;
      var h, a := AddAll(size, min, max, adds[..n]), adds[n];
      BucketTotals(size, min, max, adds[..n], idx);
      IdxBelongs(h, a.value);
      MeantOnce(h, idx, a.value);
    }
  }

  lemma {:induction false} CumUpdate(bs: seq<Bucket>, i: nat, b: Bucket, k: nat)
    requires i < |bs| && k <= |bs|
    ensures Cum(bs[i := b], k) == Cum(bs, k) + (if i < k then b.count - bs[i].count else 0)
  {
    if k > 0 {
      CumUpdate(bs, i, b, k - 1);
    }
  }

  lemma {:induction false} CumEmpty(bs: seq<Bucket>, k: nat)
    requires k <= |bs| && forall i | 0 <= i < |bs| :: bs[i].count == 0
    ensures Cum(bs, k) == 0
  {
    if k > 0 {
      CumEmpty(bs, k - 1);
    }
  }

  /** The overall count is the whole weight, and the buckets share it out. */
  lemma {:induction false} WholeWeight(size: nat, min: int, max: int, adds: seq<Add>)
    requires size > 0 && min <= max
    ensures var h := AddAll(size, min, max, adds); h.count == Weight(adds) == Total(h.buckets)
  {
    if adds == [] {
      CumEmpty(Empty(size, min, max).buckets, Interior(size, min, max) + 2);
    } else {
      var n := |adds| - 1;
      var h, a := AddAll(size, min, max, adds[..n]), adds[n];
      WholeWeight(size, min, max, adds[..n]);
      IdxBelongs(h, a.value);
      var i := BucketIdx(h, a.value);
      CumUpdate(h.buckets, i, AddAll(size, min, max, adds).buckets[i], |h.buckets|);
      assert AddAll(size, min, max, adds).buckets == h.buckets[i := AddAll(size, min, max, adds).buckets[i]];
    }
  }

  predicate InInt64(a: Add) {
    INT64_MIN <= a.value <= INT64_MAX
  }

  /** The extremes are those of the values added. */
  lemma {:induction false} Extremes(size: nat, min: int, max: int, adds: seq<Add>)
    requires size > 0 && min <= max && forall i | 0 <= i < |adds| :: InInt64(adds[i])
    ensures var h := AddAll(size, min, max, adds);
            && (adds == [] ==> h.minValue == INT64_MAX && h.maxValue == INT64_MIN)
            && (forall i | 0 <= i < |adds| :: h.minValue <= adds[i].value <= h.maxValue)
            && (adds != [] ==> exists i | 0 <= i < |adds| :: adds[i].value == h.minValue)
            && (adds != [] ==> exists i | 0 <= i < |adds| :: adds[i].value == h.maxValue)
  {
    if adds != [] {
      var n := |adds| - 1;
      Extremes(size, min, max, adds[..n]);
      var h, h' := AddAll(size, min, max, adds[..n]), AddAll(size, min, max, adds);
      IdxBelongs(h, adds[n].value);
      assert InInt64(adds[n]);
      if adds[..n] != [] {
        var i :| 0 <= i < n && adds[..n][i].value == h.minValue;
        var j :| 0 <= j < n && adds[..n][j].value == h.maxValue;
        assert adds[i].value == h.minValue && adds[j].value == h.maxValue;
      }
      assert h'.minValue == adds[n].value || h'.minValue == h.minValue;
      assert h'.maxValue == adds[n].value || h'.maxValue == h.maxValue;
    }
  }
}
