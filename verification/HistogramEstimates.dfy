/** Where exactly an estimate lies: the point on the line through the bucket, without its fraction. */
module HistogramEstimates {
  import opened Histogram

  /** n is x with its fraction cut off. */
  predicate CutOff(x: real, n: int) {
    if x >= 0.0 then n as real <= x < n as real + 1.0 else n as real - 1.0 < x <= n as real
  }

  lemma {:induction false} TruncCutsOff(x: real)
    ensures CutOff(x, Trunc(x))
  {
  }

  lemma {:induction false} Share(n: real, s: real)
    requires n > 0.0
    ensures s / n * n == s && (s / n >= 0.0 <==> s >= 0.0)
  {
  }

  /** Comparing with a share is comparing with what is shared. */
  lemma {:induction false} Compare(a: real, q: real, n: real, s: real)
    requires n > 0.0 && q * n == s
    ensures a <= q <==> a * n <= s
    ensures a < q <==> a * n < s
  {
    assert (q - a) * n == s - a * n;
  }

  /** The average is the sum over the count, cut off: what is left of the sum is less than the count. */
  lemma {:induction false} AvgExactly(b: Bucket)
    requires b.count > 0
    ensures var a, n, s := Avg(b) as real, b.count as real, b.sum as real;
            if b.sum >= 0 then a * n <= s < (a + 1.0) * n else (a - 1.0) * n < s <= a * n
  {
    var n, s := b.count as real, b.sum as real;
    var q, a := s / n, Avg(b) as real;
    Share(n, s);
    TruncCutsOff(q);
    Compare(a, q, n, s);
    Compare(a + 1.0, q, n, s);
    Compare(a - 1.0, q, n, s);
  }

  /**
   x lies on the line from low to avg over the first half of the section from `from` to `to`,
   and on the line from avg to high over the second half.
   */
  predicate OnLine(x: real, low: int, avg: int, high: int, from: real, to: real, pct: real) {
    var median := (from + to) / 2.0;
    if pct < median then (x - low as real) * (median - from) == (avg - low) as real * (pct - from)
    else (x - avg as real) * (to - median) == (high - avg) as real * (pct - median)
  }

  lemma {:induction false} WayIs(a: int, b: int, s: real, n: real)
    requires n > 0.0
    ensures (Way(a, b, s, n) - a as real) * n == (b - a) as real * s
  {
    var d, q := (b - a) as real, s / n;
    assert q * n == s;
    assert d * q * n == d * (q * n);
  }

  lemma {:induction false} InterpolateOnLine(low: int, avg: int, high: int, from: real, to: real, pct: real)
    requires from < to
    ensures OnLine(Interpolate(low, avg, high, from, to, pct), low, avg, high, from, to, pct)
  {
    var median := (from + to) / 2.0;
    WayIs(low, avg, pct - from, median - from);
    WayIs(avg, high, pct - median, to - median);
  }

  /** In every histogram the estimate is the point of the selected bucket's line at that percentile, cut off. */
  lemma {:induction false} EstimateExactly(h: Histogram, idx: nat, pct: real) returns (x: real)
    requires Ok(h) && Selected(h.buckets, pct, idx) && h.buckets[idx].count > 0
    ensures CutOff(x, EstimateIn(h, idx, pct))
    ensures OnLine(x, Low(h, idx), Avg(h.buckets[idx]), High(h, idx), Pct(Cum(h.buckets, idx), Total(h.buckets)),
                   Pct(Cum(h.buckets, idx + 1), Total(h.buckets)), pct)
  {
    var from, to := Pct(Cum(h.buckets, idx), Total(h.buckets)), Pct(Cum(h.buckets, idx + 1), Total(h.buckets));
    var low, avg, high := Low(h, idx), Avg(h.buckets[idx]), High(h, idx);
    x := Interpolate(low, avg, high, from, to, pct);
    NoFallBack(h, idx, from, to, pct);
    InterpolateOnLine(low, avg, high, from, to, pct);
    TruncCutsOff(x);
  }
}
