/** The histogram as it runs: buckets updated in place, and loops over them. */
module HistogramBucketing {
  import opened Histogram

  datatype Estimate = Estimated(value: int) | PastTheEnd

  class HistogramBuckets {
    const size: nat
    const min: int
    const max: int
    var minValue: int
    var maxValue: int
    var count: nat
    var buckets: seq<Bucket>

    function State(): Histogram
      reads this
    {
      Histogram(size, min, max, minValue, maxValue, count, buckets)
    }

    ghost predicate Valid()
      reads this
    {
      Ok(State())
    }

    constructor (size: nat, min: int, max: int)
      requires size > 0 && min <= max
      ensures Valid() && State() == Empty(size, min, max)
    {
      this.size, this.min, this.max := size, min, max;
      minValue, maxValue, count := INT64_MAX, INT64_MIN, 0;
      buckets := seq(Interior(size, min, max) + 2, _ => Bucket(0, 0));
      new;
      EmptyOk(size, min, max);
    }

    method AddValue(value: int, weight: nat)
      requires Valid()
      modifies this
      ensures Valid() && State() == Added(old(State()), value, weight)
    {
      IdxBelongs(State(), value);
      AddedOk(State(), value, weight);
      var idx := BucketIdx(State(), value);
      buckets := buckets[idx := Bucket(buckets[idx].sum + value * weight, buckets[idx].count + weight)];
      if value < minValue {
        minValue := value;
      }
      if value > maxValue {
        maxValue := value;
      }
      count := count + weight;
    }

    method Clear()
      requires Valid()
      modifies this
      ensures Valid() && State() == Empty(size, min, max)
    {
      var n := |buckets|;
      for i := 0 to n
        invariant |buckets| == n && forall j | 0 <= j < i :: buckets[j] == Bucket(0, 0)
      {
        buckets := buckets[i := Bucket(0, 0)];
      }
      minValue, maxValue, count := INT64_MAX, INT64_MIN, 0;
      assert buckets == Empty(size, min, max).buckets;
      EmptyOk(size, min, max);
    }

    method SumCounts() returns (total: nat)
      ensures total == Total(buckets)
    {
      total := 0;
      for n := 0 to |buckets|
        invariant total == Cum(buckets, n)
      {
        total := total + buckets[n].count;
      }
    }

    /**
     The bucket a percentile falls into, and the shares of the values up to its start and its
     end.  From one on there is none, and the index is past the last bucket.
     */
    method GetPercentileBucketIdx(pct: real) returns (idx: nat, lowPct: real, highPct: real)
      requires |buckets| >= 2
      ensures Total(buckets) == 0 ==> idx == 1 && lowPct == 0.0 == highPct
      ensures Total(buckets) > 0 ==> highPct > 0.0
      ensures Total(buckets) > 0 && pct < 1.0 ==>
                && Reached(buckets, pct, idx)
                && lowPct == Pct(Cum(buckets, idx), Total(buckets))
                   && highPct == Pct(Cum(buckets, idx + 1), Total(buckets))
      ensures Total(buckets) > 0 && pct >= 1.0 ==> idx == |buckets|
    {
      var total := SumCounts();
      if total == 0 {
        return 1, 0.0, 0.0;
      }
      PctAll(total);
      idx, lowPct, highPct := 0, 0.0, 0.0;
      var current := 0;
      while idx < |buckets|
        invariant idx <= |buckets| && current == Cum(buckets, idx)
        invariant highPct == Pct(current, total) && (current == 0 || highPct <= pct)
      {
        if buckets[idx].count != 0 {
          lowPct := highPct;
          current := current + buckets[idx].count;
          CumMono(buckets, idx + 1, |buckets|);
          PctMono(current, total, total);
          highPct := current as real / total as real;
          if pct < highPct {
            return;
          }
        }
        idx := idx + 1;
      }
    }

    /** The straight line through one half of a section. */
    method Section(low: int, avg: int, high: int, lowPct: real, highPct: real, pct: real) returns (estimate: int)
      requires lowPct != highPct
      ensures estimate == Trunc(Interpolate(low, avg, high, lowPct, highPct, pct))
    {
      var median := (lowPct + highPct) / 2.0;
      if pct < median {
        return Trunc(Way(low, avg, pct - lowPct, median - lowPct));
      } else {
        return Trunc(Way(avg, high, pct - median, highPct - median));
      }
    }

    method EstimateWithin(idx: nat, lowPct: real, highPct: real, pct: real) returns (estimate: int)
      requires idx < |buckets|
      ensures estimate == EstimateAt(State(), idx, lowPct, highPct, pct)
    {
      if lowPct == highPct {
        return Avg(buckets[idx]);
      }
      var avg := Avg(buckets[idx]);
      var low, high;
      if idx == 0 {
        if avg > min {
          return BucketMin(State(), idx);
        }
        high := min;
        low := high - 2 * (high - avg);
        if low > avg {
          low := INT64_MIN;
        }
      } else if idx == |buckets| - 1 {
        if avg < max {
          return BucketMax(State(), idx);
        }
        low := max;
        high := low + 2 * (avg - low);
        if high < avg {
          high := INT64_MAX;
        }
      } else {
        low, high := BucketMin(State(), idx), BucketMax(State(), idx);
        if avg < low || avg > high {
          return Trunc((low + high) as real / 2.0);
        }
      }
      estimate := Section(low, avg, high, lowPct, highPct, pct);
    }

    /** With values in the histogram, a percentile of one or more reads past the last bucket. */
    method GetPercentileEstimate(pct: real) returns (estimate: Estimate, ghost at: nat)
      requires Valid()
      ensures estimate.PastTheEnd? <==> Total(buckets) > 0 && pct >= 1.0
      ensures Total(buckets) == 0 ==> estimate == Estimated(0)
      ensures Total(buckets) > 0 && pct < 1.0 ==>
                Reached(buckets, pct, at)
                && estimate == Estimated(EstimateIn(State(), at, pct))
      ensures Total(buckets) > 0 && 0.0 <= pct < 1.0 ==> Selected(buckets, pct, at)
    {
      var idx, lowPct, highPct := GetPercentileBucketIdx(pct);
      at := idx;
      if lowPct == 0.0 && highPct == 0.0 {
        return Estimated(0), at;
      }
      if idx == |buckets| {
        return PastTheEnd, at;
      }
      var value := EstimateWithin(idx, lowPct, highPct, pct);
      estimate := Estimated(value);
      if 0.0 <= pct {
        ReachedIsSelected(buckets, pct, idx);
      }
    }
  }
}
