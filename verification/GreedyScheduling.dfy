/** Greedy assignment by estimated time, with blocks a device already holds costing no download. */
module GreedyScheduling {
  import opened Keys

  const MEGA := 1048576.0
  const TERA := 1099511627776.0

  /** A tile to place: its keys and the sizes of its blocks in bytes. */
  datatype Tile = Tile(key: Key, rowSize: nat, colSize: nat, hDim: nat)

  function Lines(size: nat, hDim: nat): nat
    requires hDim > 0
  {
    size / hDim / FLOAT_BYTES
  }

  function Max(x: real, y: real): real {
    if x < y then y else x
  }

  /** Bytes a device must still download for a tile. */
  function Missing(t: Tile, held: set<TensorKey>): nat {
    (if RowKey(t.key) in held then 0 else t.rowSize) + (if ColKey(t.key) in held then 0 else t.colSize)
  }

  /** The time to upload the answer or to compute it, whichever is longer. */
  function Work(t: Tile): real
    requires t.hDim > 0
  {
    var cells := Lines(t.rowSize, t.hDim) * Lines(t.colSize, t.hDim);
    Max((cells * FLOAT_BYTES) as real / MEGA, (2 * cells * t.hDim) as real / TERA)
  }

  /** What a tile costs a device that holds some blocks. */
  function Cost(t: Tile, held: set<TensorKey>): real
    requires t.hDim > 0
  {
    Max(Work(t), Missing(t, held) as real / MEGA)
  }

  lemma {:induction false} CostBounds(t: Tile, held: set<TensorKey>)
    requires t.hDim > 0
    ensures 0.0 <= Cost(t, held) <= Cost(t, {})
  {
    assert Missing(t, held) <= Missing(t, {});
    Scale(Missing(t, held) as real, Missing(t, {}) as real);
  }

  lemma {:induction false} Scale(x: real, y: real)
    requires 0.0 <= x <= y
    ensures 0.0 <= x / MEGA <= y / MEGA
  {
  }

  /** One tile placed on a device and what it was charged. */
  datatype Charge = Charge(device: nat, amount: real)

  /** Each device's accumulated time and the blocks sent to it so far. */
  datatype Plan = Plan(times: seq<real>, held: seq<set<TensorKey>>, charges: seq<Charge>)

  function Start(m: nat): Plan {
    Plan(seq(m, _ => 0.0), seq(m, _ => {}), [])
  }

  function Place(p: Plan, t: Tile, i: nat): Plan
    requires t.hDim > 0 && i < |p.times| == |p.held|
  {
    var cost := Cost(t, p.held[i]);
    Plan(p.times[i := p.times[i] + cost],
         p.held[i := p.held[i] + {RowKey(t.key), ColKey(t.key)}],
         p.charges + [Charge(i, cost)])
  }

  /** Device i would be done first, and is the first such device. */
  ghost predicate Earliest(p: Plan, t: Tile, i: nat)
    requires t.hDim > 0 && |p.times| == |p.held|
  {
    && i < |p.times|
    && (forall j | 0 <= j < |p.times| :: p.times[i] + Cost(t, p.held[i]) <= p.times[j] + Cost(t, p.held[j]))
    && (forall j | 0 <= j < i :: p.times[i] + Cost(t, p.held[i]) < p.times[j] + Cost(t, p.held[j]))
  }

  // --------------------------------------------------------------------------
  // What is charged
  // --------------------------------------------------------------------------

  /** The sum of a device's charges. */
  function Charged(charges: seq<Charge>, i: nat): real {
    if charges == [] then 0.0
    else
      var c := charges[|charges| - 1];
      Charged(charges[..|charges| - 1], i) + (if c.device == i then c.amount else 0.0)
  }

  ghost predicate TimesAreCharges(p: Plan) {
    forall i | 0 <= i < |p.times| :: p.times[i] == Charged(p.charges, i)
  }

  lemma {:induction false} PlaceCharges(p: Plan, t: Tile, i: nat)
    requires t.hDim > 0 && i < |p.times| == |p.held| && TimesAreCharges(p)
    ensures TimesAreCharges(Place(p, t, i))
  {
    var p' := Place(p, t, i);
    assert p'.charges[..|p.charges|] == p.charges;
    forall j | 0 <= j < |p'.times|
      ensures p'.times[j] == Charged(p'.charges, j)
    {
      assert p.times[j] == Charged(p.charges, j);
    }
  }

  // --------------------------------------------------------------------------
  // How even the times are
  // --------------------------------------------------------------------------

  /** No two devices are further apart than `gap`. */
  ghost predicate Even(times: seq<real>, gap: real) {
    forall i, j | 0 <= i < |times| && 0 <= j < |times| :: times[i] <= times[j] + gap
  }

  lemma {:induction false} PlaceEven(p: Plan, t: Tile, i: nat, gap: real)
    requires t.hDim > 0 && |p.times| == |p.held| && Earliest(p, t, i)
    requires Even(p.times, gap) && Cost(t, {}) <= gap
    ensures Even(Place(p, t, i).times, gap)
  {
    var times, cost := p.times, Cost(t, p.held[i]);
    CostBounds(t, p.held[i]);
    forall j | 0 <= j < |times|
      ensures times[i] + cost <= times[j] + gap
    {
      CostBounds(t, p.held[j]);
    }
  }

  function Total(times: seq<real>): real {
    if times == [] then 0.0 else Total(times[..|times| - 1]) + times[|times| - 1]
  }

  lemma {:induction false} TotalAtLeast(times: seq<real>, low: real)
    requires forall i | 0 <= i < |times| :: low <= times[i]
    ensures low * |times| as real <= Total(times)
  {
    if times != [] {
      TotalAtLeast(times[..|times| - 1], low);
      assert low * |times| as real == low * (|times| - 1) as real + low;
    }
  }

  function Average(times: seq<real>): real
    requires times != []
  {
    Total(times) / |times| as real
  }

  lemma {:induction false} AverageAtLeast(times: seq<real>, low: real)
    requires times != [] && forall i | 0 <= i < |times| :: low <= times[i]
    ensures low <= Average(times)
  {
    TotalAtLeast(times, low);
    DivideBy(low, |times| as real, Total(times));
  }

  lemma {:induction false} DivideBy(low: real, n: real, total: real)
    requires n > 0.0 && low * n <= total
    ensures low <= total / n
  {
    assert total / n * n == total;
  }

  /** The slowest device is behind the average by no more than the gap. */
  lemma {:induction false} EvenIsNearAverage(times: seq<real>, gap: real, i: nat)
    requires i < |times| && Even(times, gap)
    ensures times[i] <= Average(times) + gap
  {
    AverageAtLeast(times, times[i] - gap);
  }

  // --------------------------------------------------------------------------
  // The assignment
  // --------------------------------------------------------------------------

  function LargestCost(ts: seq<Tile>): (c: real)
    requires forall n | 0 <= n < |ts| :: ts[n].hDim > 0
    ensures c >= 0.0 && forall n | 0 <= n < |ts| :: Cost(ts[n], {}) <= c
  {
    if ts == [] then 0.0 else Max(LargestCost(ts[..|ts| - 1]), Cost(ts[|ts| - 1], {}))
  }

  /** The plan after placing tiles by a list of choices. */
  function PlaceAll(m: nat, ts: seq<Tile>, choices: seq<nat>): (p: Plan)
    requires |choices| == |ts| && (forall n | 0 <= n < |ts| :: ts[n].hDim > 0 && choices[n] < m)
    ensures |p.times| == m && |p.held| == m
  {
    if ts == [] then Start(m)
    else
      var n := |ts| - 1;
      Place(PlaceAll(m, ts[..n], choices[..n]), ts[n], choices[n])
  }

  ghost predicate Placeable(m: nat, ts: seq<Tile>, choices: seq<nat>) {
    |choices| == |ts| && forall n | 0 <= n < |ts| :: ts[n].hDim > 0 && choices[n] < m
  }

  /** Every choice is the device that would be done first. */
  ghost predicate EarliestFirst(m: nat, ts: seq<Tile>, choices: seq<nat>)
    requires Placeable(m, ts, choices)
  {
    ts == []
    || (var n := |ts| - 1;
        EarliestFirst(m, ts[..n], choices[..n]) && Earliest(PlaceAll(m, ts[..n], choices[..n]), ts[n], choices[n]))
  }

  lemma {:induction false} GreedyKeeps(m: nat, ts: seq<Tile>, choices: seq<nat>, gap: real)
    requires Placeable(m, ts, choices) && EarliestFirst(m, ts, choices)
    requires gap >= 0.0 && forall n | 0 <= n < |ts| :: Cost(ts[n], {}) <= gap
    ensures Even(PlaceAll(m, ts, choices).times, gap) && TimesAreCharges(PlaceAll(m, ts, choices))
  {
    if ts != [] {
      var n := |ts| - 1;
      GreedyKeeps(m, ts[..n], choices[..n], gap);
      PlaceEven(PlaceAll(m, ts[..n], choices[..n]), ts[n], choices[n], gap);
      PlaceCharges(PlaceAll(m, ts[..n], choices[..n]), ts[n], choices[n]);
    }
  }

  /**
   Greedy assignment ends with every device's time the sum of what it was charged, and no
   more than the average plus the largest cost of a tile none of whose blocks is held.
   */
  lemma {:induction false} GreedyBound(m: nat, ts: seq<Tile>, choices: seq<nat>, i: nat)
    requires Placeable(m, ts, choices) && EarliestFirst(m, ts, choices) && i < m
    ensures var p := PlaceAll(m, ts, choices);
            && p.times[i] == Charged(p.charges, i)
            && p.times[i] <= Average(p.times) + LargestCost(ts)
  {
    GreedyKeeps(m, ts, choices, LargestCost(ts));
    EvenIsNearAverage(PlaceAll(m, ts, choices).times, LargestCost(ts), i);
  }

  /** Scans the devices for the one that would be done first. */
  method FindEarliest(p: Plan, t: Tile) returns (best: nat, minTime: real)
    requires t.hDim > 0 && 0 < |p.times| == |p.held|
    ensures Earliest(p, t, best) && minTime == p.times[best] + Cost(t, p.held[best])
  {
    best, minTime := 0, p.times[0] + Cost(t, p.held[0]);
    for i := 1 to |p.times|
      invariant best < i && minTime == p.times[best] + Cost(t, p.held[best])
      invariant forall j | 0 <= j < i :: minTime <= p.times[j] + Cost(t, p.held[j])
      invariant forall j | 0 <= j < best :: minTime < p.times[j] + Cost(t, p.held[j])
    {
      var time := Cost(t, p.held[i]) + p.times[i];
      if time < minTime {
        minTime := time;
        best := i;
      }
    }
  }

  /** Charges the tile to the device that would be done first, which from then on holds its blocks. */
  method PlaceEarliest(p: Plan, t: Tile) returns (best: nat, p': Plan)
    requires t.hDim > 0 && 0 < |p.times| == |p.held|
    ensures Earliest(p, t, best) && p' == Place(p, t, best)
  {
    var minTime;
    best, minTime := FindEarliest(p, t);
    p' := Plan(p.times[best := minTime],
               p.held[best := p.held[best] + {RowKey(t.key), ColKey(t.key)}],
               p.charges + [Charge(best, Cost(t, p.held[best]))]);
  }

  /** Assigns each tile in turn; without devices nothing is assigned. */
  method AssignPartitionsToDevices(m: nat, ts: seq<Tile>) returns (choices: seq<nat>, times: seq<real>)
    requires forall n | 0 <= n < |ts| :: ts[n].hDim > 0
    ensures m == 0 ==> choices == []
    ensures m > 0 ==>
              Placeable(m, ts, choices) && EarliestFirst(m, ts, choices)
              && times == PlaceAll(m, ts, choices).times
  {
    choices, times := [], [];
    if m == 0 {
      return;
    }
    var p := Start(m);
    for n := 0 to |ts|
      invariant Placeable(m, ts[..n], choices) && p == PlaceAll(m, ts[..n], choices)
      invariant EarliestFirst(m, ts[..n], choices)
    {
      var best;
      best, p := PlaceEarliest(p, ts[n]);
      Extend(m, ts, n, choices, best);
      choices := choices + [best];
    }
    assert ts[..|ts|] == ts;
    times := p.times;
  }

  lemma {:induction false} Extend(m: nat, ts: seq<Tile>, n: nat, choices: seq<nat>, best: nat)
    requires n < |ts| && ts[n].hDim > 0 && best < m
    requires Placeable(m, ts[..n], choices) && EarliestFirst(m, ts[..n], choices)
    requires Earliest(PlaceAll(m, ts[..n], choices), ts[n], best)
    ensures Placeable(m, ts[..n + 1], choices + [best])
    ensures PlaceAll(m, ts[..n + 1], choices + [best]) == Place(PlaceAll(m, ts[..n], choices), ts[n], best)
    ensures EarliestFirst(m, ts[..n + 1], choices + [best])
  {
    var us, cs := ts[..n + 1], choices + [best];
    assert us[..n] == ts[..n] && cs[..n] == choices;
  }
}
