/** GEMM calls that run into the next step's time slot while the two slots do not fit side by side. */
module Violations {
  import opened Intervals

  datatype Slot = Slot(step: int, start: int, end: int, sm: int)

  datatype Gemm = Gemm(start: int, end: int)

  // --------------------------------------------------------------------------
  // Assignment
  // --------------------------------------------------------------------------

  /** Binary search, as bisect_right runs it between lo and hi. */
  function BisectRight(slots: seq<Slot>, x: int, lo: nat, hi: nat): (r: nat)
    requires lo <= hi <= |slots|
    ensures lo <= r <= hi
    decreases hi - lo
  {
    if lo == hi then lo
    else
      var mid := (lo + hi) / 2;
      if x < slots[mid].start then BisectRight(slots, x, lo, mid) else BisectRight(slots, x, mid + 1, hi)
  }

  ghost predicate SortedSlots(slots: seq<Slot>) {
    forall i, j | 0 <= i < j < |slots| :: slots[i].start <= slots[j].start
  }

  /** On sorted slots the search splits those that start by x from those that start later. */
  lemma {:induction false} BisectSplits(slots: seq<Slot>, x: int, lo: nat, hi: nat)
    requires lo <= hi <= |slots| && SortedSlots(slots)
    ensures forall i | lo <= i < BisectRight(slots, x, lo, hi) :: slots[i].start <= x
    ensures forall i | BisectRight(slots, x, lo, hi) <= i < hi :: x < slots[i].start
    decreases hi - lo
  {
    if lo < hi {
      var mid := (lo + hi) / 2;
      if x < slots[mid].start {
        BisectSplits(slots, x, lo, mid);
      } else {
        BisectSplits(slots, x, mid + 1, hi);
      }
    }
  }

  /** The slot a call is assigned to, or -1. */
  function SlotOf(slots: seq<Slot>, g: Gemm): (i: int)
    ensures -1 <= i < |slots|
  {
    BisectRight(slots, g.start, 0, |slots|) - 1
  }

  /** On sorted slots: the last slot that has started when the call starts. */
  lemma {:induction false} SlotOfMeans(slots: seq<Slot>, g: Gemm, i: nat)
    requires SortedSlots(slots) && i < |slots|
    ensures SlotOf(slots, g) == i <==> slots[i].start <= g.start && (i + 1 < |slots| ==> g.start < slots[i + 1].start)
  {
    BisectSplits(slots, g.start, 0, |slots|);
  }

  function Assigned(slots: seq<Slot>, gemms: seq<Gemm>, i: nat): seq<Gemm> {
    if gemms == [] then []
    else
      var n := |gemms| - 1;
      Assigned(slots, gemms[..n], i) + (if SlotOf(slots, gemms[n]) == i then [gemms[n]] else [])
  }

  lemma {:induction false} AssignedMeans(slots: seq<Slot>, gemms: seq<Gemm>, i: nat, g: Gemm)
    ensures g in Assigned(slots, gemms, i) <==> g in gemms && SlotOf(slots, g) == i
  {
    if gemms != [] {
      var n := |gemms| - 1;
      AssignedMeans(slots, gemms[..n], i, g);
      assert gemms == gemms[..n] + [gemms[n]];
    }
  }

  // --------------------------------------------------------------------------
  // Detection
  // --------------------------------------------------------------------------

  datatype Summary = Summary(step: int, nextStep: int, smTotal: int, count: nat, maxOvershoot: int, totalOvershoot: int,
                             violations: seq<Gemm>)

  /** The calls of a slot that end after the next one starts. */
  function Late(gs: seq<Gemm>, boundary: int): seq<Gemm> {
    if gs == [] then []
    else
      var n := |gs| - 1;
      Late(gs[..n], boundary) + (if gs[n].end > boundary then [gs[n]] else [])
  }

  lemma {:induction false} LateMeans(gs: seq<Gemm>, boundary: int, g: Gemm)
    ensures g in Late(gs, boundary) <==> g in gs && g.end > boundary
  {
    if gs != [] {
      var n := |gs| - 1;
      LateMeans(gs[..n], boundary, g);
      assert gs == gs[..n] + [gs[n]];
    }
  }

  function TotalOvershoot(gs: seq<Gemm>, boundary: int): int {
    if gs == [] then 0 else TotalOvershoot(gs[..|gs| - 1], boundary) + (gs[|gs| - 1].end - boundary)
  }

  function MaxOvershoot(gs: seq<Gemm>, boundary: int): int {
    if gs == [] then 0
    else
      var before, last := MaxOvershoot(gs[..|gs| - 1], boundary), gs[|gs| - 1].end - boundary;
      if last > before then last else before
  }

  function SummaryAt(slots: seq<Slot>, gemms: seq<Gemm>, i: nat): Summary
    requires i + 1 < |slots|
  {
    var cur, nxt := slots[i], slots[i + 1];
    var late := Late(Assigned(slots, gemms, i), nxt.start);
    Summary(cur.step, nxt.step, cur.sm + nxt.sm, |late|, MaxOvershoot(late, nxt.start),
      TotalOvershoot(late, nxt.start), late)
  }

  predicate Reported(slots: seq<Slot>, gemms: seq<Gemm>, maxSm: int, i: nat)
    requires i + 1 < |slots|
  {
    slots[i].sm + slots[i + 1].sm > maxSm && SummaryAt(slots, gemms, i).violations != []
  }

  function Flat<T>(rows: seq<seq<T>>): seq<T> {
    if rows == [] then [] else Flat(rows[..|rows| - 1]) + rows[|rows| - 1]
  }

  lemma {:induction false} FlatNext<T>(rows: seq<seq<T>>, i: nat)
    requires i < |rows|
    ensures Flat(rows[..i + 1]) == Flat(rows[..i]) + rows[i]
  {
    assert rows[..i + 1][..i] == rows[..i];
  }

  lemma {:induction false} InFlat<T>(rows: seq<seq<T>>, i: nat, x: T)
    requires i < |rows| && x in rows[i]
    ensures x in Flat(rows)
  {
    var n := |rows| - 1;
    if i < n {
      InFlat(rows[..n], i, x);
    }
  }

  lemma {:induction false} FromFlat<T>(rows: seq<seq<T>>, x: T) returns (i: nat)
    requires x in Flat(rows)
    ensures i < |rows| && x in rows[i]
  {
    var n := |rows| - 1;
    if x in rows[n] {
      i := n;
    } else {
      i := FromFlat(rows[..n], x);
    }
  }

  /** The summary of one boundary, if there is something to report. */
  function Found(slots: seq<Slot>, gemms: seq<Gemm>, maxSm: int, i: nat): seq<Summary>
    requires i + 1 < |slots|
  {
    if Reported(slots, gemms, maxSm, i) then [SummaryAt(slots, gemms, i)] else []
  }

  function Boundaries(slots: seq<Slot>): (n: nat)
    ensures n == 0 || n < |slots|
  {
    if slots == [] then 0 else |slots| - 1
  }

  function AllFound(slots: seq<Slot>, gemms: seq<Gemm>, maxSm: int): (rows: seq<seq<Summary>>)
    ensures |rows| == Boundaries(slots)
  {
    seq(Boundaries(slots), i requires 0 <= i < Boundaries(slots) => Found(slots, gemms, maxSm, i))
  }

  function Summaries(slots: seq<Slot>, gemms: seq<Gemm>, maxSm: int): seq<Summary> {
    Flat(AllFound(slots, gemms, maxSm))
  }

  // --------------------------------------------------------------------------
  // Intervals
  // --------------------------------------------------------------------------

  /** Slots by step id; of two slots with one id the later wins. */
  function SlotMap(slots: seq<Slot>): map<int, Slot> {
    if slots == [] then map[] else SlotMap(slots[..|slots| - 1])[slots[|slots| - 1].step := slots[|slots| - 1]]
  }

  ghost predicate UniqueSteps(slots: seq<Slot>) {
    forall i, j | 0 <= i < j < |slots| :: slots[i].step != slots[j].step
  }

  lemma {:induction false} SlotMapFinds(slots: seq<Slot>, i: nat)
    requires UniqueSteps(slots) && i < |slots|
    ensures slots[i].step in SlotMap(slots) && SlotMap(slots)[slots[i].step] == slots[i]
  {
    var n := |slots| - 1;
    if i < n {
      SlotMapFinds(slots[..n], i);
    }
  }

  function Min(x: int, y: int): int {
    if y < x then y else x
  }

  /** The part of a violation inside the next slot. */
  function Clip(g: Gemm, nxt: Slot): Interval {
    Interval(nxt.start, Min(g.end, nxt.end))
  }

  function Clipped(gs: seq<Gemm>, nxt: Slot): seq<Interval> {
    if gs == [] then []
    else
      var n := |gs| - 1;
      var x := Clip(gs[n], nxt);
      Clipped(gs[..n], nxt) + (if x.end > x.start then [x] else [])
  }

  lemma {:induction false} ClippedMeans(gs: seq<Gemm>, nxt: Slot, x: Interval)
    ensures x in Clipped(gs, nxt) <==> x.end > x.start && exists g :: g in gs && x == Clip(g, nxt)
  {
    if gs != [] {
      var n := |gs| - 1;
      ClippedMeans(gs[..n], nxt, x);
      assert gs == gs[..n] + [gs[n]];
      if x == Clip(gs[n], nxt) {
        assert gs[n] in gs;
      }
    }
  }

  /** All reported intervals; a summary whose next step is unknown has none. */
  function ReportedIntervals(summaries: seq<Summary>, slots: map<int, Slot>): seq<Interval> {
    if summaries == [] then []
    else
      var n := |summaries| - 1;
      var s := summaries[n];
      ReportedIntervals(summaries[..n], slots)
      + (if s.nextStep in slots then Clipped(s.violations, slots[s.nextStep]) else [])
  }

  lemma {:induction false} ReportedProper(summaries: seq<Summary>, slots: map<int, Slot>)
    ensures Proper(ReportedIntervals(summaries, slots))
  {
    if summaries != [] {
      var n := |summaries| - 1;
      ReportedProper(summaries[..n], slots);
      var s := summaries[n];
      if s.nextStep in slots {
        forall k | 0 <= k < |Clipped(s.violations, slots[s.nextStep])|
          ensures var x := Clipped(s.violations, slots[s.nextStep])[k]; x.start < x.end
        {
          ClippedMeans(s.violations, slots[s.nextStep], Clipped(s.violations, slots[s.nextStep])[k]);
        }
      }
    }
  }

  /** An interval comes from one violation of one summary. */
  ghost predicate ComesFrom(x: Interval, s: Summary, slots: map<int, Slot>) {
    s.nextStep in slots && x in Clipped(s.violations, slots[s.nextStep])
  }

  lemma {:induction false} ReportedMeans(summaries: seq<Summary>, slots: map<int, Slot>, x: Interval)
    ensures x in ReportedIntervals(summaries, slots) <==> exists s :: s in summaries && ComesFrom(x, s, slots)
  {
    if summaries != [] {
      var n := |summaries| - 1;
      ReportedMeans(summaries[..n], slots, x);
      assert summaries == summaries[..n] + [summaries[n]];
      if ComesFrom(x, summaries[n], slots) {
        assert summaries[n] in summaries;
      }
    }
  }

  /** A nanosecond at which a call runs on into the next slot although the two do not fit side by side. */
  ghost predicate Violated(slots: seq<Slot>, gemms: seq<Gemm>, maxSm: int, t: int, i: nat, g: Gemm) {
    && i + 1 < |slots| && g in gemms
    && slots[i].start <= g.start < slots[i + 1].start
    && slots[i].sm + slots[i + 1].sm > maxSm
    && slots[i + 1].start <= t < Min(g.end, slots[i + 1].end)
  }

  function AllIntervals(slots: seq<Slot>, gemms: seq<Gemm>, maxSm: int): seq<Interval> {
    ReportedIntervals(Summaries(slots, gemms, maxSm), SlotMap(slots))
  }

  lemma {:induction false} CallIsLate(slots: seq<Slot>, gemms: seq<Gemm>, i: nat, g: Gemm)
    requires SortedSlots(slots) && i + 1 < |slots| && g in gemms
    requires slots[i].start <= g.start < slots[i + 1].start < g.end
    ensures g in Late(Assigned(slots, gemms, i), slots[i + 1].start)
  {
    SlotOfMeans(slots, g, i);
    AssignedMeans(slots, gemms, i, g);
    LateMeans(Assigned(slots, gemms, i), slots[i + 1].start, g);
  }

  lemma {:induction false} ViolatedIsCovered(slots: seq<Slot>, gemms: seq<Gemm>, maxSm: int, t: int, i: nat, g: Gemm)
    requires SortedSlots(slots) && UniqueSteps(slots) && Violated(slots, gemms, maxSm, t, i, g)
    ensures t in Cover(AllIntervals(slots, gemms, maxSm))
  {
    var nxt, x := slots[i + 1], Clip(g, slots[i + 1]);
    var late := Late(Assigned(slots, gemms, i), nxt.start);
    CallIsLate(slots, gemms, i, g);
    ClippedMeans(late, nxt, x);
    SlotMapFinds(slots, i + 1);
    var s := SummaryAt(slots, gemms, i);
    assert Reported(slots, gemms, maxSm, i);
    InFlat(AllFound(slots, gemms, maxSm), i, s);
    assert ComesFrom(x, s, SlotMap(slots));
    ReportedMeans(Summaries(slots, gemms, maxSm), SlotMap(slots), x);
    CoverMeans(AllIntervals(slots, gemms, maxSm), t);
    var k :| 0 <= k < |AllIntervals(slots, gemms, maxSm)| && AllIntervals(slots, gemms, maxSm)[k] == x;
  }

  /** An interval reported at boundary i is the clipped end of a late call of slot i. */
  lemma {:induction false} LateCall(slots: seq<Slot>, gemms: seq<Gemm>, x: Interval, i: nat) returns (g: Gemm)
    requires SortedSlots(slots) && i + 1 < |slots|
    requires x in Clipped(Late(Assigned(slots, gemms, i), slots[i + 1].start), slots[i + 1])
    ensures g in gemms && slots[i].start <= g.start < slots[i + 1].start && x == Clip(g, slots[i + 1])
  {
    var late := Late(Assigned(slots, gemms, i), slots[i + 1].start);
    ClippedMeans(late, slots[i + 1], x);
    g :| g in late && x == Clip(g, slots[i + 1]);
    LateMeans(Assigned(slots, gemms, i), slots[i + 1].start, g);
    AssignedMeans(slots, gemms, i, g);
    SlotOfMeans(slots, g, i);
  }

  lemma {:induction false} CoveredIsViolated(slots: seq<Slot>, gemms: seq<Gemm>, maxSm: int, t: int)
    returns (i: nat, g: Gemm)
    requires SortedSlots(slots) && UniqueSteps(slots) && t in Cover(AllIntervals(slots, gemms, maxSm))
    ensures Violated(slots, gemms, maxSm, t, i, g)
  {
    var xs := AllIntervals(slots, gemms, maxSm);
    CoverMeans(xs, t);
    var k :| 0 <= k < |xs| && xs[k].start <= t < xs[k].end;
    var x := xs[k];
    i := Source(slots, gemms, maxSm, x);
    g := LateCall(slots, gemms, x, i);
  }

  lemma {:induction false} Source(slots: seq<Slot>, gemms: seq<Gemm>, maxSm: int, x: Interval) returns (i: nat)
    requires UniqueSteps(slots) && x in AllIntervals(slots, gemms, maxSm)
    ensures i + 1 < |slots| && slots[i].sm + slots[i + 1].sm > maxSm
    ensures x in Clipped(Late(Assigned(slots, gemms, i), slots[i + 1].start), slots[i + 1])
  {
    var s := SourceSummary(Summaries(slots, gemms, maxSm), SlotMap(slots), x);
    i := FromFlat(AllFound(slots, gemms, maxSm), s);
    FoundMeans(slots, gemms, maxSm, i, s);
    SlotMapFinds(slots, i + 1);
  }

  lemma {:induction false} SourceSummary(summaries: seq<Summary>, slots: map<int, Slot>, x: Interval)
    returns (s: Summary)
    requires x in ReportedIntervals(summaries, slots)
    ensures s in summaries && ComesFrom(x, s, slots)
  {
    ReportedMeans(summaries, slots, x);
    s :| s in summaries && ComesFrom(x, s, slots);
  }

  lemma {:induction false} FoundMeans(slots: seq<Slot>, gemms: seq<Gemm>, maxSm: int, i: nat, s: Summary)
    requires i < Boundaries(slots) && s in AllFound(slots, gemms, maxSm)[i]
    ensures slots[i].sm + slots[i + 1].sm > maxSm && s.nextStep == slots[i + 1].step
    ensures s.violations == Late(Assigned(slots, gemms, i), slots[i + 1].start)
  {
  }

  /** For sorted slots with unique step ids the covered nanoseconds are exactly the violated ones. */
  lemma {:induction false} CoveredExactly(slots: seq<Slot>, gemms: seq<Gemm>, maxSm: int, t: int)
    requires SortedSlots(slots) && UniqueSteps(slots)
    ensures t in Cover(AllIntervals(slots, gemms, maxSm))
            <==> exists i: nat, g :: Violated(slots, gemms, maxSm, t, i, g)
  {
    if t in Cover(AllIntervals(slots, gemms, maxSm)) {
      var i, g := CoveredIsViolated(slots, gemms, maxSm, t);
    }
    if i: nat, g :| Violated(slots, gemms, maxSm, t, i, g) {
      ViolatedIsCovered(slots, gemms, maxSm, t, i, g);
    }
  }

  // --------------------------------------------------------------------------
  // What a summary says
  // --------------------------------------------------------------------------

  lemma {:induction false} CountNext(gs: seq<Gemm>, g: Gemm)
    requires gs != []
    ensures multiset(gs)[g] == multiset(gs[..|gs| - 1])[g] + (if gs[|gs| - 1] == g then 1 else 0)
  {
    assert gs == gs[..|gs| - 1] + [gs[|gs| - 1]];
  }

  lemma {:induction false} CountAppend(gs: seq<Gemm>, x: Gemm, g: Gemm)
    ensures multiset(gs + [x])[g] == multiset(gs)[g] + (if x == g then 1 else 0)
  {
  }

  lemma {:induction false} LateCount(gs: seq<Gemm>, boundary: int, g: Gemm)
    ensures multiset(Late(gs, boundary))[g] == (if g.end > boundary then multiset(gs)[g] else 0)
  {
    if gs != [] {
      var n := |gs| - 1;
      LateCount(gs[..n], boundary, g);
      CountNext(gs, g);
      CountAppend(Late(gs[..n], boundary), gs[n], g);
      assert Late(gs[..n], boundary) + [] == Late(gs[..n], boundary);
    }
  }

  lemma {:induction false} AssignedCount(slots: seq<Slot>, gemms: seq<Gemm>, i: nat, g: Gemm)
    ensures multiset(Assigned(slots, gemms, i))[g] == (if SlotOf(slots, g) == i then multiset(gemms)[g] else 0)
  {
    if gemms != [] {
      var n := |gemms| - 1;
      AssignedCount(slots, gemms[..n], i, g);
      CountNext(gemms, g);
      CountAppend(Assigned(slots, gemms[..n], i), gemms[n], g);
      assert Assigned(slots, gemms[..n], i) + [] == Assigned(slots, gemms[..n], i);
    }
  }

  function EndsSum(gs: seq<Gemm>): int {
    if gs == [] then 0 else EndsSum(gs[..|gs| - 1]) + gs[|gs| - 1].end
  }

  lemma {:induction false} TotalMeans(gs: seq<Gemm>, boundary: int)
    ensures TotalOvershoot(gs, boundary) == EndsSum(gs) - |gs| * boundary
  {
    if gs != [] {
      TotalMeans(gs[..|gs| - 1], boundary);
    }
  }

  /** The largest overshoot is that of some call, and of no call is it exceeded. */
  lemma {:induction false} MaxMeans(gs: seq<Gemm>, boundary: int)
    requires forall i | 0 <= i < |gs| :: gs[i].end > boundary
    ensures forall i | 0 <= i < |gs| :: gs[i].end - boundary <= MaxOvershoot(gs, boundary)
    ensures gs != [] ==> exists i | 0 <= i < |gs| :: gs[i].end - boundary == MaxOvershoot(gs, boundary)
  {
    if gs != [] {
      var n := |gs| - 1;
      MaxMeans(gs[..n], boundary);
      if n > 0 {
        var i :| 0 <= i < |gs[..n]| && gs[..n][i].end - boundary == MaxOvershoot(gs[..n], boundary);
        assert gs[i].end - boundary == MaxOvershoot(gs[..n], boundary);
      }
      assert MaxOvershoot(gs, boundary) == gs[n].end - boundary || n > 0;
    }
  }

  /** A call of one slot that ends after the next one starts. */
  predicate RunsInto(slots: seq<Slot>, i: nat, g: Gemm)
    requires i + 1 < |slots|
  {
    slots[i].start <= g.start < slots[i + 1].start < g.end
  }

  /** A summary of boundary i: every call that runs into the next slot, as often as it was made, and their figures. */
  ghost predicate Summarizes(s: Summary, slots: seq<Slot>, gemms: seq<Gemm>, i: nat) {
    && i + 1 < |slots|
    && s.step == slots[i].step && s.nextStep == slots[i + 1].step && s.smTotal == slots[i].sm + slots[i + 1].sm
    && (forall g :: multiset(s.violations)[g] == if RunsInto(slots, i, g) then multiset(gemms)[g] else 0)
    && s.count == |s.violations|
    && s.totalOvershoot == EndsSum(s.violations) - s.count * slots[i + 1].start
    && (forall k | 0 <= k < s.count :: s.violations[k].end - slots[i + 1].start <= s.maxOvershoot)
    && (exists k | 0 <= k < s.count :: s.violations[k].end - slots[i + 1].start == s.maxOvershoot)
  }

  lemma {:induction false} LateRunsInto(slots: seq<Slot>, gemms: seq<Gemm>, i: nat, g: Gemm)
    requires SortedSlots(slots) && i + 1 < |slots|
    ensures multiset(Late(Assigned(slots, gemms, i), slots[i + 1].start))[g]
            == if RunsInto(slots, i, g) then multiset(gemms)[g] else 0
  {
    LateCount(Assigned(slots, gemms, i), slots[i + 1].start, g);
    AssignedCount(slots, gemms, i, g);
    SlotOfMeans(slots, g, i);
  }

  lemma {:induction false} SummaryFigures(slots: seq<Slot>, gemms: seq<Gemm>, i: nat)
    requires SortedSlots(slots) && i + 1 < |slots| && SummaryAt(slots, gemms, i).violations != []
    ensures Summarizes(SummaryAt(slots, gemms, i), slots, gemms, i)
  {
    var boundary := slots[i + 1].start;
    var late := Late(Assigned(slots, gemms, i), boundary);
    forall g
      ensures multiset(late)[g] == if RunsInto(slots, i, g) then multiset(gemms)[g] else 0
    {
      LateRunsInto(slots, gemms, i, g);
    }
    forall k | 0 <= k < |late|
      ensures late[k].end > boundary
    {
      LateMeans(Assigned(slots, gemms, i), boundary, late[k]);
    }
    TotalMeans(late, boundary);
    MaxMeans(late, boundary);
  }

  /** Every summary reported is that of a boundary whose two slots do not fit side by side. */
  lemma {:induction false} SummaryMeans(slots: seq<Slot>, gemms: seq<Gemm>, maxSm: int, s: Summary) returns (i: nat)
    requires SortedSlots(slots) && s in Summaries(slots, gemms, maxSm)
    ensures Summarizes(s, slots, gemms, i) && s.smTotal > maxSm
  {
    i := FromFlat(AllFound(slots, gemms, maxSm), s);
    SummaryFigures(slots, gemms, i);
  }

  /** And every such boundary that a call runs into is reported. */
  lemma {:induction false} SummaryGiven(slots: seq<Slot>, gemms: seq<Gemm>, maxSm: int, i: nat, g: Gemm)
    returns (s: Summary)
    requires SortedSlots(slots) && i + 1 < |slots| && slots[i].sm + slots[i + 1].sm > maxSm
    requires g in gemms && RunsInto(slots, i, g)
    ensures s in Summaries(slots, gemms, maxSm) && Summarizes(s, slots, gemms, i)
  {
    s := SummaryAt(slots, gemms, i);
    CallIsLate(slots, gemms, i, g);
    SummaryFigures(slots, gemms, i);
    InFlat(AllFound(slots, gemms, maxSm), i, s);
  }

  // --------------------------------------------------------------------------
  // The script
  // --------------------------------------------------------------------------

  method Bisect(slots: seq<Slot>, x: int) returns (r: nat)
    ensures r == BisectRight(slots, x, 0, |slots|)
  {
    var lo, hi := 0, |slots|;
    while lo < hi
      invariant 0 <= lo <= hi <= |slots|
      invariant BisectRight(slots, x, 0, |slots|) == BisectRight(slots, x, lo, hi)
    {
      var mid := (lo + hi) / 2;
      if x < slots[mid].start {
        hi := mid;
      } else {
        lo := mid + 1;
      }
    }
    return lo;
  }

  /** The calls of each slot, in the order given; calls before the first slot are dropped. */
  method AssignGemmsToSteps(gemms: seq<Gemm>, slots: seq<Slot>) returns (result: seq<seq<Gemm>>)
    ensures |result| == |slots| && forall i | 0 <= i < |slots| :: result[i] == Assigned(slots, gemms, i)
  {
    result := seq(|slots|, _ => []);
    for k := 0 to |gemms|
      invariant |result| == |slots| && forall i | 0 <= i < |slots| :: result[i] == Assigned(slots, gemms[..k], i)
    {
      var r: int := Bisect(slots, gemms[k].start);
      var idx := r - 1;
      assert idx == SlotOf(slots, gemms[k]);
      assert gemms[..k + 1][..k] == gemms[..k];
      if 0 <= idx < |slots| {
        result := result[idx := result[idx] + [gemms[k]]];
      }
    }
    assert gemms[..|gemms|] == gemms;
  }

  /** Collects the late calls of one boundary with their count, maximum and total. */
  method Summarize(cur: Slot, nxt: Slot, gs: seq<Gemm>) returns (s: Summary)
    ensures var late := Late(gs, nxt.start);
            s == Summary(cur.step, nxt.step, cur.sm + nxt.sm, |late|, MaxOvershoot(late, nxt.start),
                         TotalOvershoot(late, nxt.start), late)
  {
    var count, most, total, late: seq<Gemm> := 0, 0, 0, [];
    for k := 0 to |gs|
      invariant late == Late(gs[..k], nxt.start) && count == |late|
      invariant most == MaxOvershoot(late, nxt.start) && total == TotalOvershoot(late, nxt.start)
    {
      assert gs[..k + 1][..k] == gs[..k];
      var g := gs[k];
      if g.end > nxt.start {
        var overshoot := g.end - nxt.start;
        assert (late + [g])[..|late|] == late;
        count := count + 1;
        total := total + overshoot;
        most := if overshoot > most then overshoot else most;
        late := late + [g];
      }
    }
    assert gs[..|gs|] == gs;
    s := Summary(cur.step, nxt.step, cur.sm + nxt.sm, count, most, total, late);
  }

  method DetectViolations(slots: seq<Slot>, ghost gemms: seq<Gemm>, stepGemms: seq<seq<Gemm>>, maxSm: int)
    returns (summaries: seq<Summary>)
    requires |stepGemms| == |slots| && forall i | 0 <= i < |slots| :: stepGemms[i] == Assigned(slots, gemms, i)
    ensures summaries == Summaries(slots, gemms, maxSm)
  {
    summaries := [];
    ghost var rows := AllFound(slots, gemms, maxSm);
    for i := 0 to Boundaries(slots)
      invariant summaries == Flat(rows[..i])
    {
      FlatNext(rows, i);
      var found := Examine(slots, gemms, maxSm, i, stepGemms[i]);
      summaries := summaries + found;
    }
    assert rows[..|rows|] == rows;
  }

  /** One boundary: nothing if the two slots fit side by side or no call is late. */
  method Examine(slots: seq<Slot>, ghost gemms: seq<Gemm>, maxSm: int, i: nat, gs: seq<Gemm>)
    returns (found: seq<Summary>)
    requires i + 1 < |slots| && gs == Assigned(slots, gemms, i)
    ensures found == Found(slots, gemms, maxSm, i)
  {
    var cur, nxt := slots[i], slots[i + 1];
    if cur.sm + nxt.sm <= maxSm {
      return [];
    }
    var summary := Summarize(cur, nxt, gs);
    return if summary.count > 0 then [summary] else [];
  }

  method IndexSlots(slots: seq<Slot>) returns (m: map<int, Slot>)
    ensures m == SlotMap(slots)
  {
    m := map[];
    for i := 0 to |slots|
      invariant m == SlotMap(slots[..i])
    {
      assert slots[..i + 1][..i] == slots[..i];
      m := m[slots[i].step := slots[i]];
    }
    assert slots[..|slots|] == slots;
  }

  method ClipAll(gs: seq<Gemm>, nxt: Slot) returns (xs: seq<Interval>)
    ensures xs == Clipped(gs, nxt)
  {
    xs := [];
    for k := 0 to |gs|
      invariant xs == Clipped(gs[..k], nxt)
    {
      assert gs[..k + 1][..k] == gs[..k];
      var start, end := nxt.start, Min(gs[k].end, nxt.end);
      if end > start {
        xs := xs + [Interval(start, end)];
      }
    }
    assert gs[..|gs|] == gs;
  }

  /** The number of nanoseconds in at least one reported interval. */
  method ComputeViolationTime(summaries: seq<Summary>, slots: seq<Slot>) returns (total: int)
    ensures total == |Cover(ReportedIntervals(summaries, SlotMap(slots)))|
  {
    var slotMap := IndexSlots(slots);
    var intervals: seq<Interval> := [];
    for n := 0 to |summaries|
      invariant intervals == ReportedIntervals(summaries[..n], slotMap)
    {
      assert summaries[..n + 1][..n] == summaries[..n];
      var s := summaries[n];
      if s.nextStep in slotMap {
        var clipped := ClipAll(s.violations, slotMap[s.nextStep]);
        intervals := intervals + clipped;
      }
    }
    assert summaries[..|summaries|] == summaries;
    ReportedProper(summaries, slotMap);
    total := MeasureUnion(intervals);
  }

  /** From slots and calls to the total: assignment, detection and merging. */
  method TotalViolationTime(slots: seq<Slot>, gemms: seq<Gemm>, maxSm: int) returns (total: int)
    ensures total == |Cover(AllIntervals(slots, gemms, maxSm))|
  {
    var stepGemms := AssignGemmsToSteps(gemms, slots);
    var summaries := DetectViolations(slots, gemms, stepGemms, maxSm);
    total := ComputeViolationTime(summaries, slots);
  }
}
