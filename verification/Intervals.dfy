/** The measure of a union of intervals, by sorting and merging. */
module Intervals {
  import opened Sorting

  /** The nanoseconds start, ..., end - 1. */
  datatype Interval = Interval(start: int, end: int)

  function Range(x: Interval): (ts: set<int>)
    ensures forall t :: t in ts <==> x.start <= t < x.end
    decreases x.end - x.start
  {
    if x.start >= x.end then {} else Range(Interval(x.start, x.end - 1)) + {x.end - 1}
  }

  lemma {:induction false} RangeSize(x: Interval)
    requires x.start <= x.end
    ensures |Range(x)| == x.end - x.start
    decreases x.end - x.start
  {
    if x.start < x.end {
      var rest := Range(Interval(x.start, x.end - 1));
      RangeSize(Interval(x.start, x.end - 1));
      assert Range(x) == rest + {x.end - 1} && x.end - 1 !in rest;
    } else {
      assert Range(x) == {};
    }
  }

  /** The nanoseconds in at least one of the intervals. */
  function Cover(xs: seq<Interval>): set<int> {
    if xs == [] then {} else Cover(xs[..|xs| - 1]) + Range(xs[|xs| - 1])
  }

  lemma {:induction false} CoverMeans(xs: seq<Interval>, t: int)
    ensures t in Cover(xs) <==> exists k :: 0 <= k < |xs| && xs[k].start <= t < xs[k].end
  {
    if xs != [] {
      var n := |xs| - 1;
      CoverMeans(xs[..n], t);
      if t in Cover(xs[..n]) {
        var k :| 0 <= k < n && xs[..n][k].start <= t < xs[..n][k].end;
        assert xs[k].start <= t < xs[k].end;
      }
      if k :| 0 <= k < |xs| && xs[k].start <= t < xs[k].end {
        assert k < n ==> xs[..n][k].start <= t < xs[..n][k].end;
      }
    }
  }

  /** Rearranging intervals covers the same. */
  lemma {:induction false} SameCover(xs: seq<Interval>, ys: seq<Interval>)
    requires multiset(xs) == multiset(ys)
    ensures Cover(xs) == Cover(ys)
  {
    forall t
      ensures t in Cover(xs) <==> t in Cover(ys)
    {
      CoverMeans(xs, t);
      CoverMeans(ys, t);
      SameMembers(xs, ys, t);
      SameMembers(ys, xs, t);
    }
  }

  lemma {:induction false} SameMembers(xs: seq<Interval>, ys: seq<Interval>, t: int)
    requires multiset(xs) == multiset(ys)
    ensures (exists k :: 0 <= k < |xs| && xs[k].start <= t < xs[k].end) ==>
              exists k :: 0 <= k < |ys| && ys[k].start <= t < ys[k].end
  {
    if k :| 0 <= k < |xs| && xs[k].start <= t < xs[k].end {
      assert xs[k] in multiset(ys);
      var m :| 0 <= m < |ys| && ys[m] == xs[k];
    }
  }

  /** Lexicographic, as tuples are sorted. */
  const BY_START := (x: Interval, y: Interval) => x.start < y.start || (x.start == y.start && x.end <= y.end)

  lemma {:induction false} ByStartTotal()
    ensures TotalOrder(BY_START)
  {
  }

  ghost predicate Proper(xs: seq<Interval>) {
    forall k | 0 <= k < |xs| :: xs[k].start < xs[k].end
  }

  /** Non-empty intervals in order, with gaps between them. */
  ghost predicate Tidy(xs: seq<Interval>) {
    Proper(xs) && forall i, j | 0 <= i < j < |xs| :: xs[i].end < xs[j].start
  }

  function Length(xs: seq<Interval>): int {
    if xs == [] then 0 else Length(xs[..|xs| - 1]) + (xs[|xs| - 1].end - xs[|xs| - 1].start)
  }

  lemma {:induction false} TidyMeasure(xs: seq<Interval>)
    requires Tidy(xs)
    ensures |Cover(xs)| == Length(xs)
    ensures xs != [] ==> forall t | t in Cover(xs) :: t < xs[|xs| - 1].end
  {
    if xs != [] {
      var n := |xs| - 1;
      TidyMeasure(xs[..n]);
      RangeSize(xs[n]);
      assert Cover(xs[..n]) !! Range(xs[n]) by {
        assert n > 0 ==> xs[..n][n - 1] == xs[n - 1];
      }
    }
  }

  /** Extends the last merged interval or starts a new one. */
  function MergeOne(merged: seq<Interval>, x: Interval): (res: seq<Interval>)
    requires merged != []
    ensures res != []
  {
    var n := |merged| - 1;
    var last := merged[n];
    if x.start <= last.end then merged[n := Interval(last.start, if x.end > last.end then x.end else last.end)]
    else merged + [x]
  }

  lemma {:induction false} MergeOneTidy(merged: seq<Interval>, x: Interval)
    requires Tidy(merged) && merged != [] && x.start < x.end && merged[|merged| - 1].start <= x.start
    ensures Tidy(MergeOne(merged, x)) && MergeOne(merged, x)[|MergeOne(merged, x)| - 1].start <= x.start
  {
  }

  lemma {:induction false} MergeOneCover(merged: seq<Interval>, x: Interval)
    requires merged != [] && merged[|merged| - 1].start <= x.start && Proper(merged)
    ensures Cover(MergeOne(merged, x)) == Cover(merged) + Range(x)
  {
    var n := |merged| - 1;
    var res := MergeOne(merged, x);
    if x.start <= merged[n].end {
      assert res[..n] == merged[..n];
      assert Range(res[n]) == Range(merged[n]) + Range(x);
    } else {
      assert res[..n + 1] == merged;
    }
  }

  lemma {:induction false} CoverNext(xs: seq<Interval>, i: nat)
    requires i < |xs|
    ensures Cover(xs[..i + 1]) == Cover(xs[..i]) + Range(xs[i])
  {
    assert xs[..i + 1][..i] == xs[..i];
  }

  /** Sorts, merges and adds up: the number of nanoseconds in at least one interval. */
  method MeasureUnion(intervals: seq<Interval>) returns (total: int)
    requires Proper(intervals)
    ensures total == |Cover(intervals)|
  {
    if intervals == [] {
      return 0;
    }
    ByStartTotal();
    SortSorts(BY_START, intervals);
    var sorted := Sort(BY_START, intervals);
    SortedProper(intervals, sorted);
    var merged := MergeSorted(sorted);
    TidyMeasure(merged);
    SameCover(intervals, sorted);
    total := AddUp(merged);
  }

  lemma {:induction false} SortedProper(xs: seq<Interval>, sorted: seq<Interval>)
    requires Proper(xs) && xs != [] && multiset(xs) == multiset(sorted)
    ensures Proper(sorted) && sorted != []
  {
    assert xs[0] in multiset(sorted);
    forall k | 0 <= k < |sorted|
      ensures sorted[k].start < sorted[k].end
    {
      assert sorted[k] in multiset(xs);
    }
  }

  method MergeSorted(sorted: seq<Interval>) returns (merged: seq<Interval>)
    requires sorted != [] && Proper(sorted) && Ordered(BY_START, sorted)
    ensures Tidy(merged) && Cover(merged) == Cover(sorted)
  {
    merged := [sorted[0]];
    assert sorted[..1] == [sorted[0]];
    for i := 1 to |sorted|
      invariant merged != [] && Tidy(merged) && Cover(merged) == Cover(sorted[..i])
      invariant merged[|merged| - 1].start <= sorted[i - 1].start
    {
      var x := sorted[i];
      assert BY_START(sorted[i - 1], x);
      MergeOneTidy(merged, x);
      MergeOneCover(merged, x);
      CoverNext(sorted, i);
      var n := |merged| - 1;
      if x.start <= merged[n].end {
        merged := merged[n := Interval(merged[n].start, if x.end > merged[n].end then x.end else merged[n].end)];
      } else {
        merged := merged + [x];
      }
    }
    assert sorted[..|sorted|] == sorted;
  }

  method AddUp(merged: seq<Interval>) returns (total: int)
    ensures total == Length(merged)
  {
    total := 0;
    for i := 0 to |merged|
      invariant total == Length(merged[..i])
    {
      assert merged[..i + 1][..i] == merged[..i];
      total := total + (merged[i].end - merged[i].start);
    }
    assert merged[..|merged|] == merged;
  }
}
