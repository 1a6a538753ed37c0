/** Bucketed statistics and the percentile estimates read off them; percentages are real numbers. */
module Histogram {
  import opened Nonlinear

  datatype Bucket = Bucket(sum: int, count: nat)

  datatype Histogram = Histogram(size: nat, min: int, max: int, minValue: int, maxValue: int, count: nat,
           buckets: seq<Bucket>)

  const INT64_MIN := -0x8000_0000_0000_0000
  const INT64_MAX := 0x7FFF_FFFF_FFFF_FFFF

  /** Buckets of `size` values from min to max, the last perhaps only partly used, and one for either side. */
  function Interior(size: nat, min: int, max: int): nat
    requires size > 0 && min <= max
  {
    var n := (max - min) / size;
    if Times(n, size) < max - min then n + 1 else n
  }

  function Empty(size: nat, min: int, max: int): Histogram
    requires size > 0 && min <= max
  {
    Histogram(size, min, max, INT64_MAX, INT64_MIN, 0, seq(Interior(size, min, max) + 2, _ => Bucket(0, 0)))
  }

  ghost predicate Shaped(h: Histogram) {
    h.size > 0 && h.min <= h.max && |h.buckets| == Interior(h.size, h.min, h.max) + 2
  }

  function BucketIdx(h: Histogram, value: int): nat
    requires h.size > 0 && h.buckets != []
  {
    if value < h.min then 0
    else if value >= h.max then |h.buckets| - 1
    else (value - h.min) / h.size + 1
  }

  function BucketMin(h: Histogram, idx: nat): int {
    if idx == 0 then INT64_MIN
    else if idx == |h.buckets| - 1 then h.max
    else h.min + Times(idx - 1, h.size)
  }

  function BucketMax(h: Histogram, idx: nat): int {
    if idx == |h.buckets| - 1 then INT64_MAX else h.min + Times(idx, h.size)
  }

  /** The bucket size divides the range. */
  predicate Even(h: Histogram)
    requires h.size > 0 && h.min <= h.max
  {
    Times((h.max - h.min) / h.size, h.size) == h.max - h.min
  }

  lemma {:induction false} InteriorCovers(size: nat, min: int, max: int)
    requires size > 0 && min <= max
    ensures max - min <= Times(Interior(size, min, max), size) < max - min + size
  {
    DivMod(max - min, size);
  }

  /** A value inside the range is in an interior bucket, between that bucket's bounds. */
  lemma {:induction false} IdxInside(h: Histogram, value: int)
    requires Shaped(h) && h.min <= value < h.max
    ensures 1 <= BucketIdx(h, value) < |h.buckets| - 1
    ensures BucketMin(h, BucketIdx(h, value)) <= value < BucketMax(h, BucketIdx(h, value))
  {
    var x, n := value - h.min, h.size;
    DivMod(x, n);
    InteriorCovers(n, h.min, h.max);
    var k := Interior(n, h.min, h.max);
    if x / n >= k {
      TimesMono(k, x / n, n);
    }
    assert Times(x / n + 1, n) == Times(x / n, n) + n;
  }

  // --------------------------------------------------------------------------
  // Adding values
  // --------------------------------------------------------------------------

  function Added(h: Histogram, value: int, weight: nat): Histogram
    requires Shaped(h)
  {
    var idx := BucketIdx(h, value);
    if idx >= |h.buckets| then h
    else
      var b := h.buckets[idx];
      h.(buckets := h.buckets[idx := Bucket(b.sum + value * weight, b.count + weight)],
         minValue := if value < h.minValue then value else h.minValue,
         maxValue := if value > h.maxValue then value else h.maxValue,
         count := h.count + weight)
  }

  /** The least and the greatest value a bucket can hold; unbounded outwards on either side. */
  predicate Belongs(h: Histogram, idx: nat, value: int) {
    if idx == 0 then value < h.min
    else if idx == |h.buckets| - 1 then value >= h.max
    else BucketMin(h, idx) <= value < BucketMax(h, idx)
  }

  /** A bucket's sum is that of `count` values each of which belongs there. */
  predicate BucketOk(h: Histogram, idx: nat)
    requires idx < |h.buckets|
  {
    var b := h.buckets[idx];
    if idx == 0 then b.sum <= (h.min - 1) * b.count
    else if idx == |h.buckets| - 1 then h.max * b.count <= b.sum
    else BucketMin(h, idx) * b.count <= b.sum <= (BucketMax(h, idx) - 1) * b.count
  }

  ghost predicate Ok(h: Histogram) {
    Shaped(h) && forall idx | 0 <= idx < |h.buckets| :: BucketOk(h, idx)
  }

  lemma {:induction false} IdxBelongs(h: Histogram, value: int)
    requires Shaped(h)
    ensures BucketIdx(h, value) < |h.buckets| && Belongs(h, BucketIdx(h, value), value)
  {
    if h.min <= value < h.max {
      IdxInside(h, value);
    }
  }

  lemma {:induction false} WeighBelow(low: int, sum: int, count: nat, value: int, weight: nat)
    requires low * count <= sum && low <= value
    ensures low * (count + weight) <= sum + value * weight
  {
    assert low * (count + weight) == low * count + low * weight;
    assert low * weight <= value * weight;
  }

  lemma {:induction false} WeighAbove(high: int, sum: int, count: nat, value: int, weight: nat)
    requires sum <= high * count && value <= high
    ensures sum + value * weight <= high * (count + weight)
  {
    assert high * (count + weight) == high * count + high * weight;
    assert value * weight <= high * weight;
  }

  lemma {:induction false} AddedOk(h: Histogram, value: int, weight: nat)
    requires Ok(h)
    ensures Ok(Added(h, value, weight))
  {
    IdxBelongs(h, value);
    var idx, h' := BucketIdx(h, value), Added(h, value, weight);
    var b := h.buckets[idx];
    assert BucketOk(h, idx);
    if idx == 0 {
      WeighAbove(h.min - 1, b.sum, b.count, value, weight);
    } else if idx == |h.buckets| - 1 {
      WeighBelow(h.max, b.sum, b.count, value, weight);
    } else {
      WeighBelow(BucketMin(h, idx), b.sum, b.count, value, weight);
      WeighAbove(BucketMax(h, idx) - 1, b.sum, b.count, value, weight);
    }
    forall j | 0 <= j < |h'.buckets|
      ensures BucketOk(h', j)
    {
      assert BucketOk(h, j);
      assert BucketMin(h', j) == BucketMin(h, j) && BucketMax(h', j) == BucketMax(h, j);
    }
  }

  // --------------------------------------------------------------------------
  // Averages
  // --------------------------------------------------------------------------

  /** Conversion to an integer: toward zero. */
  function Trunc(x: real): int {
    if x >= 0.0 then x.Floor else -((-x).Floor)
  }

  lemma {:induction false} TruncMono(x: real, y: real)
    requires x <= y
    ensures Trunc(x) <= Trunc(y)
  {
  }

  lemma {:induction false} TruncInt(n: int)
    ensures Trunc(n as real) == n
  {
  }

  function Avg(b: Bucket): int {
    if b.count == 0 then 0 else Trunc(b.sum as real / b.count as real)
  }

  lemma {:induction false} AvgAtLeast(b: Bucket, low: int)
    requires b.count > 0 && low * b.count <= b.sum
    ensures low <= Avg(b)
  {
    assert low as real * b.count as real <= b.sum as real;
    Quotient(low as real, b.sum as real, b.count as real);
    TruncInt(low);
    TruncMono(low as real, b.sum as real / b.count as real);
  }

  lemma {:induction false} Quotient(x: real, y: real, n: real)
    requires n > 0.0
    ensures x * n <= y ==> x <= y / n
    ensures y <= x * n ==> y / n <= x
  {
    assert y / n * n == y;
  }

  lemma {:induction false} AvgAtMost(b: Bucket, high: int)
    requires b.count > 0 && b.sum <= high * b.count
    ensures Avg(b) <= high
  {
    assert b.sum as real <= high as real * b.count as real;
    Quotient(high as real, b.sum as real, b.count as real);
    TruncInt(high);
    TruncMono(b.sum as real / b.count as real, high as real);
  }

  // --------------------------------------------------------------------------
  // Which bucket a percentile falls into
  // --------------------------------------------------------------------------

  /** How many values the first k buckets hold. */
  function Cum(bs: seq<Bucket>, k: nat): nat
    requires k <= |bs|
  {
    if k == 0 then 0 else Cum(bs, k - 1) + bs[k - 1].count
  }

  lemma {:induction false} CumMono(bs: seq<Bucket>, i: nat, j: nat)
    requires i <= j <= |bs|
    ensures Cum(bs, i) <= Cum(bs, j)
    decreases j
  {
    if i < j {
      CumMono(bs, i, j - 1);
    }
  }

  function Total(bs: seq<Bucket>): nat {
    Cum(bs, |bs|)
  }

  function Pct(count: nat, total: nat): real
    requires total > 0
  {
    count as real / total as real
  }

  lemma {:induction false} PctMono(c: nat, d: nat, total: nat)
    requires total > 0 && c <= d
    ensures Pct(c, total) <= Pct(d, total)
    ensures c < d ==> Pct(c, total) < Pct(d, total)
  {
    var n := total as real;
    assert c as real / n * n == c as real && d as real / n * n == d as real;
  }

  lemma {:induction false} PctAll(total: nat)
    requires total > 0
    ensures Pct(total, total) == 1.0 && Pct(0, total) == 0.0
  {
  }

  /** The bucket in which the running share of the values first exceeds pct. */
  ghost predicate Selected(bs: seq<Bucket>, pct: real, idx: nat) {
    && idx < |bs| && Total(bs) > 0
    && Pct(Cum(bs, idx), Total(bs)) <= pct < Pct(Cum(bs, idx + 1), Total(bs))
  }

  /** The first bucket with values whose running share exceeds pct; a negative percentile reaches the first of all. */
  ghost predicate Reached(bs: seq<Bucket>, pct: real, idx: nat) {
    && idx < |bs| && Total(bs) > 0 && bs[idx].count > 0
    && pct < Pct(Cum(bs, idx + 1), Total(bs)) && (Cum(bs, idx) == 0 || Pct(Cum(bs, idx), Total(bs)) <= pct)
  }

  /** From zero on, to be reached is to be selected. */
  lemma {:induction false} ReachedIsSelected(bs: seq<Bucket>, pct: real, idx: nat)
    requires 0.0 <= pct && Total(bs) > 0
    ensures Reached(bs, pct, idx) <==> Selected(bs, pct, idx)
  {
  }

  /** A larger percentile selects the same bucket or a later one; so the selected bucket is unique. */
  lemma {:induction false} SelectedMono(bs: seq<Bucket>, p: real, i: nat, q: real, j: nat)
    requires Selected(bs, p, i) && Selected(bs, q, j) && p <= q
    ensures i <= j
  {
    if j < i {
      CumMono(bs, j + 1, i);
      PctMono(Cum(bs, j + 1), Cum(bs, i), Total(bs));
    }
  }

  lemma {:induction false} SelectedNonEmpty(bs: seq<Bucket>, p: real, i: nat)
    requires Selected(bs, p, i)
    ensures bs[i].count > 0
  {
  }

  // --------------------------------------------------------------------------
  // The estimate
  // --------------------------------------------------------------------------

  /** Half-way through a section stands the average; either half is a straight line. */
  function Interpolate(low: int, avg: int, high: int, from: real, to: real, pct: real): real
    requires from != to
  {
    var median := (from + to) / 2.0;
    if pct < median then Way(low, avg, pct - from, median - from) else Way(avg, high, pct - median, to - median)
  }

  /** The point a share x / n of the way from a to b. */
  function Way(a: int, b: int, x: real, n: real): real
    requires n != 0.0
  {
    a as real + (b - a) as real * (x / n)
  }

  /** The original's estimate within a bucket, with its fall-backs. */
  function EstimateAt(h: Histogram, idx: nat, from: real, to: real, pct: real): int
    requires idx < |h.buckets|
  {
    var avg := Avg(h.buckets[idx]);
    if from == to then avg
    else if idx == 0 then
      if avg > h.min then BucketMin(h, idx)
      else
        var low := h.min - 2 * (h.min - avg);
        Trunc(Interpolate(if low > avg then INT64_MIN else low, avg, h.min, from, to, pct))
    else if idx == |h.buckets| - 1 then
      if avg < h.max then BucketMax(h, idx)
      else
        var high := h.max + 2 * (avg - h.max);
        Trunc(Interpolate(h.max, avg, if high < avg then INT64_MAX else high, from, to, pct))
    else if avg < BucketMin(h, idx) || avg > BucketMax(h, idx) then
      Trunc((BucketMin(h, idx) + BucketMax(h, idx)) as real / 2.0)
    else Trunc(Interpolate(BucketMin(h, idx), avg, BucketMax(h, idx), from, to, pct))
  }

  /** The ends of a bucket's interpolation range. */
  function Low(h: Histogram, idx: nat): int
    requires idx < |h.buckets|
  {
    if idx == 0 then h.min - 2 * (h.min - Avg(h.buckets[idx])) else BucketMin(h, idx)
  }

  function High(h: Histogram, idx: nat): int
    requires idx < |h.buckets|
  {
    if idx == 0 then h.min
    else if idx == |h.buckets| - 1 then h.max + 2 * (Avg(h.buckets[idx]) - h.max)
    else BucketMax(h, idx)
  }

  /** Neither a fall-back nor a saturation is ever taken: a bucket's average lies within its range. */
  lemma {:induction false} NoFallBack(h: Histogram, idx: nat, from: real, to: real, pct: real)
    requires Ok(h) && idx < |h.buckets| && h.buckets[idx].count > 0 && from < to
    ensures Low(h, idx) <= Avg(h.buckets[idx]) <= High(h, idx)
    ensures EstimateAt(h, idx, from, to, pct)
            == Trunc(Interpolate(Low(h, idx), Avg(h.buckets[idx]), High(h, idx), from, to, pct))
  {
    var b := h.buckets[idx];
    assert BucketOk(h, idx);
    if idx == 0 {
      AvgAtMost(b, h.min - 1);
    } else if idx == |h.buckets| - 1 {
      AvgAtLeast(b, h.max);
    } else {
      AvgAtLeast(b, BucketMin(h, idx));
      AvgAtMost(b, BucketMax(h, idx) - 1);
    }
  }

  lemma {:induction false} Fraction(x: real, y: real, n: real)
    requires n > 0.0 && 0.0 <= x <= y <= n
    ensures 0.0 <= x / n <= y / n <= 1.0
    ensures y < n ==> y / n < 1.0
  {
    assert x / n * n == x && y / n * n == y;
    assert (1.0 - y / n) * n == n - y;
    PositiveFactor(1.0 - y / n, n);
  }

  lemma {:induction false} PositiveFactor(a: real, n: real)
    requires n > 0.0
    ensures a * n > 0.0 ==> a > 0.0
  {
  }

  lemma {:induction false} Scaled(d: real, s: real, t: real)
    requires 0.0 <= d && 0.0 <= s <= t <= 1.0
    ensures 0.0 <= d * s <= d * t <= d
    ensures d > 0.0 && t < 1.0 ==> d * t < d
  {
  }

  /** A larger share is further along, and a share below one stops short of the end. */
  lemma {:induction false} WayMono(a: int, b: int, x: real, y: real, n: real)
    requires a <= b && n > 0.0 && 0.0 <= x <= y <= n
    ensures a as real <= Way(a, b, x, n) <= Way(a, b, y, n) <= b as real
    ensures a < b && y < n ==> Way(a, b, y, n) < b as real
  {
    Fraction(x, y, n);
    Scaled((b - a) as real, x / n, y / n);
  }

  lemma {:induction false} InterpolateRange(low: int, avg: int, high: int, from: real, to: real, pct: real)
    requires from <= pct < to && low <= avg <= high
    ensures var median := (from + to) / 2.0;
            var r := Interpolate(low, avg, high, from, to, pct);
            && low as real <= r <= high as real
            && (pct < median ==> r <= avg as real)
            && (median <= pct ==> avg as real <= r)
  {
    var median := (from + to) / 2.0;
    if pct < median {
      WayMono(low, avg, pct - from, pct - from, median - from);
    } else {
      WayMono(avg, high, pct - median, pct - median, to - median);
    }
  }

  lemma {:induction false} InterpolateMono(low: int, avg: int, high: int, from: real, to: real, p: real, q: real)
    requires from <= p <= q < to && low <= avg <= high
    ensures Interpolate(low, avg, high, from, to, p) <= Interpolate(low, avg, high, from, to, q)
  {
    var median := (from + to) / 2.0;
    if q < median {
      WayMono(low, avg, p - from, q - from, median - from);
    } else if median <= p {
      WayMono(avg, high, p - median, q - median, to - median);
    } else {
      InterpolateRange(low, avg, high, from, to, p);
      InterpolateRange(low, avg, high, from, to, q);
    }
  }

  function EstimateIn(h: Histogram, idx: nat, pct: real): int
    requires idx < |h.buckets| && Total(h.buckets) > 0 && h.buckets[idx].count > 0
  {
    PctMono(Cum(h.buckets, idx), Cum(h.buckets, idx + 1), Total(h.buckets));
    EstimateAt(h, idx, Pct(Cum(h.buckets, idx), Total(h.buckets)), Pct(Cum(h.buckets, idx + 1), Total(h.buckets)), pct)
  }

  /** An estimate lies in the selected bucket's interpolation range. */
  lemma {:induction false} EstimateInRange(h: Histogram, idx: nat, pct: real)
    requires Ok(h) && Selected(h.buckets, pct, idx) && h.buckets[idx].count > 0
    ensures Low(h, idx) <= EstimateIn(h, idx, pct) <= High(h, idx)
  {
    var from, to := Pct(Cum(h.buckets, idx), Total(h.buckets)), Pct(Cum(h.buckets, idx + 1), Total(h.buckets));
    var low, avg, high := Low(h, idx), Avg(h.buckets[idx]), High(h, idx);
    NoFallBack(h, idx, from, to, pct);
    InterpolateRange(low, avg, high, from, to, pct);
    TruncInt(low);
    TruncInt(high);
    TruncMono(low as real, Interpolate(low, avg, high, from, to, pct));
    TruncMono(Interpolate(low, avg, high, from, to, pct), high as real);
  }

  lemma {:induction false} SameBucketMono(h: Histogram, idx: nat, p: real, q: real)
    requires Ok(h) && Selected(h.buckets, p, idx) && Selected(h.buckets, q, idx) && h.buckets[idx].count > 0 && p <= q
    ensures EstimateIn(h, idx, p) <= EstimateIn(h, idx, q)
  {
    var from, to := Pct(Cum(h.buckets, idx), Total(h.buckets)), Pct(Cum(h.buckets, idx + 1), Total(h.buckets));
    var low, avg, high := Low(h, idx), Avg(h.buckets[idx]), High(h, idx);
    NoFallBack(h, idx, from, to, p);
    NoFallBack(h, idx, from, to, q);
    InterpolateMono(low, avg, high, from, to, p, q);
    TruncMono(Interpolate(low, avg, high, from, to, p), Interpolate(low, avg, high, from, to, q));
  }

  /**
   The bucket size divides the range, or the last interior bucket reaches one value past it
   and ends above zero, where conversion to an integer rounds down.
   */
  predicate Tight(h: Histogram)
    requires h.size > 0 && h.min <= h.max
  {
    var end := h.min + Times(Interior(h.size, h.min, h.max), h.size);
    end == h.max || (end == h.max + 1 && end >= 1)
  }

  lemma {:induction false} InterpolateBelow(low: int, avg: int, high: int, from: real, to: real, pct: real)
    requires from <= pct < to && low <= avg < high
    ensures Interpolate(low, avg, high, from, to, pct) < high as real
  {
    InterpolateRange(low, avg, high, from, to, pct);
    var median := (from + to) / 2.0;
    if median <= pct {
      WayMono(avg, high, pct - median, pct - median, to - median);
    }
  }

  /** An estimate in the last interior bucket of a tight histogram does not exceed the range's end. */
  lemma {:induction false} LastInterior(h: Histogram, idx: nat, pct: real)
    requires Ok(h) && Tight(h) && Selected(h.buckets, pct, idx) && h.buckets[idx].count > 0
    requires 1 <= idx == |h.buckets| - 2
    ensures EstimateIn(h, idx, pct) <= h.max
  {
    var b := h.buckets[idx];
    var from, to := Pct(Cum(h.buckets, idx), Total(h.buckets)), Pct(Cum(h.buckets, idx + 1), Total(h.buckets));
    NoFallBack(h, idx, from, to, pct);
    assert BucketOk(h, idx);
    AvgAtMost(b, BucketMax(h, idx) - 1);
    InterpolateBelow(Low(h, idx), Avg(b), High(h, idx), from, to, pct);
    EstimateInRange(h, idx, pct);
  }

  lemma {:induction false} InteriorRangesInOrder(h: Histogram, i: nat, j: nat)
    requires Shaped(h) && i < j < |h.buckets| - 1
    ensures High(h, i) <= Low(h, j)
  {
    TimesMono(i, j - 1, h.size);
  }

  lemma {:induction false} InteriorBeforeEnd(h: Histogram, i: nat)
    requires Shaped(h) && i < |h.buckets| - 2
    ensures High(h, i) <= h.max
  {
    InteriorCovers(h.size, h.min, h.max);
    TimesMono(i, |h.buckets| - 3, h.size);
  }

  /** Over [0, 1) the estimates of a tight histogram grow with the percentile. */
  lemma {:induction false} EstimateMono(h: Histogram, p: real, i: nat, q: real, j: nat)
    requires Ok(h) && Tight(h) && p <= q
    requires Selected(h.buckets, p, i) && Selected(h.buckets, q, j)
    ensures h.buckets[i].count > 0 && h.buckets[j].count > 0
    ensures EstimateIn(h, i, p) <= EstimateIn(h, j, q)
  {
    SelectedMono(h.buckets, p, i, q, j);
    SelectedNonEmpty(h.buckets, p, i);
    SelectedNonEmpty(h.buckets, q, j);
    if i == j {
      SameBucketMono(h, i, p, q);
    } else {
      EstimateInRange(h, i, p);
      EstimateInRange(h, j, q);
      if j < |h.buckets| - 1 {
        InteriorRangesInOrder(h, i, j);
      } else if i < |h.buckets| - 2 {
        InteriorBeforeEnd(h, i);
      } else if i > 0 {
        LastInterior(h, i, p);
      }
    }
  }

  // --------------------------------------------------------------------------
  // Histograms that are not tight
  // --------------------------------------------------------------------------

  /** The last value inside the range and the first one past it, each added once. */
  function TwoValues(size: nat, min: int, max: int): Histogram
    requires size > 0 && min < max
  {
    var h := Empty(size, min, max);
    Added(Added(h, max - 1, 1), max, 1)
  }

  lemma {:induction false} EmptyOk(size: nat, min: int, max: int)
    requires size > 0 && min <= max
    ensures Ok(Empty(size, min, max))
  {
  }

  lemma {:induction false} LastIdx(h: Histogram)
    requires Shaped(h) && h.min < h.max && !Even(h)
    ensures BucketIdx(h, h.max - 1) == |h.buckets| - 2 >= 1
  {
    var x, n := h.max - h.min, h.size;
    DivMod(x, n);
    DivModUnique(x / n, x % n - 1, n);
  }

  lemma {:induction false} CumZero(bs: seq<Bucket>, k: nat)
    requires k <= |bs| && forall i | 0 <= i < k :: bs[i].count == 0
    ensures Cum(bs, k) == 0
  {
    if k > 0 {
      CumZero(bs, k - 1);
    }
  }

  lemma {:induction false} TwoValuesBuckets(size: nat, min: int, max: int)
    requires size > 0 && min < max && !Even(Empty(size, min, max))
    ensures var h := TwoValues(size, min, max);
            var n := |h.buckets| - 2;
            && Ok(h) && h.size == size && h.min == min && h.max == max && n == Interior(size, min, max) >= 1
            && h.buckets[n] == Bucket(max - 1, 1) && h.buckets[n + 1] == Bucket(max, 1)
            && Cum(h.buckets, n) == 0 && Cum(h.buckets, n + 1) == 1 && Total(h.buckets) == 2
  {
    var h0 := Empty(size, min, max);
    EmptyOk(size, min, max);
    AddedOk(h0, max - 1, 1);
    AddedOk(Added(h0, max - 1, 1), max, 1);
    LastIdx(h0);
    var h := TwoValues(size, min, max);
    CumZero(h.buckets, |h.buckets| - 2);
  }

  /** Percentiles at which the two values' estimates are out of order. */
  const EARLIER := 0.4375
  const LATER := 0.5

  lemma {:induction false} TwoValuesSelected(h: Histogram)
    requires var n := |h.buckets| - 2;
             n >= 1 && Cum(h.buckets, n) == 0 && Cum(h.buckets, n + 1) == 1 && Total(h.buckets) == 2
    ensures Selected(h.buckets, EARLIER, |h.buckets| - 2) && Selected(h.buckets, LATER, |h.buckets| - 1)
  {
  }

  /** The average is the only value; three quarters of the upper half have passed. */
  lemma {:induction false} EarlierEstimate(low: int, max: int, end: int)
    requires low <= max - 1 && end > max && !(end == max + 1 && end >= 1)
    ensures Trunc(Interpolate(low, max - 1, end, 0.0, 0.5, EARLIER)) > max
  {
    var r := Interpolate(low, max - 1, end, 0.0, 0.5, EARLIER);
    assert (EARLIER - 0.25) / (0.5 - 0.25) == 0.75;
    assert r == (max - 1) as real + (end - (max - 1)) as real * 0.75;
    if end >= max + 2 {
      assert r >= (max + 1) as real;
      TruncInt(max + 1);
      TruncMono((max + 1) as real, r);
    } else {
      assert r == max as real + 0.5;
      assert r < 0.0;
    }
  }

  lemma {:induction false} LaterEstimate(max: int)
    ensures Trunc(Interpolate(max, max, max, 0.5, 1.0, LATER)) == max
  {
    TruncInt(max);
  }

  lemma {:induction false} SingleAverage(v: int)
    ensures Avg(Bucket(v, 1)) == v
  {
    TruncInt(v);
    assert v as real / 1.0 == v as real;
  }

  /** Without tightness two values are enough for a larger percentile to get a smaller estimate. */
  lemma {:induction false} NotTightIsNotMono(size: nat, min: int, max: int)
    requires size > 0 && min <= max && !Tight(Empty(size, min, max))
    ensures min < max
    ensures var h := TwoValues(size, min, max);
            var n := |h.buckets| - 2;
            && Ok(h) && n >= 1 && Selected(h.buckets, EARLIER, n) && Selected(h.buckets, LATER, n + 1)
            && h.buckets[n].count > 0 && h.buckets[n + 1].count > 0
            && EstimateIn(h, n, EARLIER) > EstimateIn(h, n + 1, LATER)
  {
    InteriorCovers(size, min, max);
    TwoValuesBuckets(size, min, max);
    var h := TwoValues(size, min, max);
    var n := |h.buckets| - 2;
    TwoValuesSelected(h);
    SingleAverage(max - 1);
    SingleAverage(max);
    PctAll(2);
    assert Pct(1, 2) == 0.5;
    NoFallBack(h, n, 0.0, 0.5, EARLIER);
    NoFallBack(h, n + 1, 0.5, 1.0, LATER);
    EarlierEstimate(Low(h, n), max, High(h, n));
    LaterEstimate(max);
  }

  ghost predicate InOrder(h: Histogram, p: real, i: nat, q: real, j: nat)
    requires Selected(h.buckets, p, i) && Selected(h.buckets, q, j)
  {
    h.buckets[i].count > 0 && h.buckets[j].count > 0 && EstimateIn(h, i, p) <= EstimateIn(h, j, q)
  }

  /** Whatever is added to such a histogram, its estimates grow with the percentile. */
  ghost predicate AlwaysMonotone(size: nat, min: int, max: int) {
    forall h: Histogram, p: real, i: nat, q: real, j: nat
      | Ok(h) && h.size == size && h.min == min && h.max == max && p <= q
        && Selected(h.buckets, p, i) && Selected(h.buckets, q, j) :: InOrder(h, p, i, q, j)
  }

  lemma {:induction false} MonotoneExactlyWhenTight(size: nat, min: int, max: int)
    requires size > 0 && min <= max
    ensures AlwaysMonotone(size, min, max) <==> Tight(Empty(size, min, max))
  {
    if Tight(Empty(size, min, max)) {
      forall h: Histogram, p: real, i: nat, q: real, j: nat
        | Ok(h) && h.size == size && h.min == min && h.max == max && p <= q
          && Selected(h.buckets, p, i) && Selected(h.buckets, q, j)
        ensures InOrder(h, p, i, q, j)
      {
        EstimateMono(h, p, i, q, j);
      }
    } else {
      NotTightIsNotMono(size, min, max);
      var h := TwoValues(size, min, max);
      assert !InOrder(h, EARLIER, |h.buckets| - 2, LATER, |h.buckets| - 1);
    }
  }
}
