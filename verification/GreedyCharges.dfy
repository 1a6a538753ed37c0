/** What the greedy assignment charges and chooses, told from the tiles and their places alone. */
module GreedyCharges {
  import opened Keys
  import opened GreedyScheduling

  /** A tile before the n-th went to device j and used the block. */
  ghost predicate Sent(ts: seq<Tile>, choices: seq<nat>, n: nat, j: nat, block: TensorKey)
    requires n <= |ts| == |choices|
  {
    exists k | 0 <= k < n :: choices[k] == j && (RowKey(ts[k].key) == block || ColKey(ts[k].key) == block)
  }

  /** The bytes of those of the n-th tile's blocks that device j has not been sent. */
  ghost function BytesToSend(ts: seq<Tile>, choices: seq<nat>, n: nat, j: nat): nat
    requires n < |ts| == |choices|
  {
    (if Sent(ts, choices, n, j, RowKey(ts[n].key)) then 0 else ts[n].rowSize)
    + (if Sent(ts, choices, n, j, ColKey(ts[n].key)) then 0 else ts[n].colSize)
  }

  /** The entries of a tile's product: as many rows and columns as its blocks have floats for. */
  function Cells(t: Tile): int
    requires t.hDim > 0
  {
    (t.rowSize / t.hDim / 4) * (t.colSize / t.hDim / 4)
  }

  predicate LargestOf(x: real, a: real, b: real, c: real) {
    x >= a && x >= b && x >= c && (x == a || x == b || x == c)
  }

  /** x is the time of the n-th tile on device j: to send its new blocks, to send back its product, or to compute. */
  ghost predicate Priced(ts: seq<Tile>, choices: seq<nat>, n: nat, j: nat, x: real)
    requires n < |ts| == |choices| && ts[n].hDim > 0
  {
    LargestOf(x,
              BytesToSend(ts, choices, n, j) as real / MEGA,
              (Cells(ts[n]) * 4) as real / MEGA,
              (2 * Cells(ts[n]) * ts[n].hDim) as real / TERA)
  }

  // --------------------------------------------------------------------------
  // The plan, from the places
  // --------------------------------------------------------------------------

  ghost function At(m: nat, ts: seq<Tile>, choices: seq<nat>, n: nat): (p: Plan)
    requires Placeable(m, ts, choices) && n <= |ts|
    ensures |p.times| == |p.held| == m
  {
    PlaceAll(m, ts[..n], choices[..n])
  }

  lemma {:induction false} AtNext(m: nat, ts: seq<Tile>, choices: seq<nat>, n: nat)
    requires Placeable(m, ts, choices) && n < |ts|
    ensures At(m, ts, choices, n + 1) == Place(At(m, ts, choices, n), ts[n], choices[n])
  {
    assert ts[..n + 1][..n] == ts[..n] && choices[..n + 1][..n] == choices[..n];
  }

  /** A device holds exactly the blocks that tiles placed on it used. */
  lemma {:induction false} HeldExactly(m: nat, ts: seq<Tile>, choices: seq<nat>, n: nat, j: nat, block: TensorKey)
    requires Placeable(m, ts, choices) && n <= |ts| && j < m
    ensures block in At(m, ts, choices, n).held[j] <==> Sent(ts, choices, n, j, block)
  {
    if n > 0 {
      AtNext(m, ts, choices, n - 1);
      HeldExactly(m, ts, choices, n - 1, j, block);
      if Sent(ts, choices, n, j, block) && !Sent(ts, choices, n - 1, j, block) {
        var k :| 0 <= k < n && choices[k] == j && (RowKey(ts[k].key) == block || ColKey(ts[k].key) == block);
        assert k == n - 1;
      }
    }
  }

  lemma {:induction false} CostIsPrice(m: nat, ts: seq<Tile>, choices: seq<nat>, n: nat, j: nat)
    requires Placeable(m, ts, choices) && n < |ts| && j < m
    ensures Priced(ts, choices, n, j, Cost(ts[n], At(m, ts, choices, n).held[j]))
  {
    HeldExactly(m, ts, choices, n, j, RowKey(ts[n].key));
    HeldExactly(m, ts, choices, n, j, ColKey(ts[n].key));
  }

  /** The n-th charge is to the n-th choice, for the blocks no earlier tile placed there used. */
  lemma {:induction false} ChargedForNewBlocks(m: nat, ts: seq<Tile>, choices: seq<nat>, n: nat)
    requires Placeable(m, ts, choices) && n < |ts|
    ensures var charges := PlaceAll(m, ts, choices).charges;
            && |charges| == |ts| && charges[n].device == choices[n]
            && Priced(ts, choices, n, choices[n], charges[n].amount)
  {
    ChargesUpTo(m, ts, choices, |ts|);
    assert ts[..|ts|] == ts && choices[..|ts|] == choices;
    assert ChargeAt(m, ts, choices, PlaceAll(m, ts, choices).charges, n);
    CostIsPrice(m, ts, choices, n, choices[n]);
  }

  ghost predicate ChargeAt(m: nat, ts: seq<Tile>, choices: seq<nat>, charges: seq<Charge>, k: nat)
    requires Placeable(m, ts, choices) && k < |charges| <= |ts|
  {
    charges[k] == Charge(choices[k], Cost(ts[k], At(m, ts, choices, k).held[choices[k]]))
  }

  lemma {:induction false} ChargesUpTo(m: nat, ts: seq<Tile>, choices: seq<nat>, n: nat)
    requires Placeable(m, ts, choices) && n <= |ts|
    ensures |At(m, ts, choices, n).charges| == n
    ensures forall k | 0 <= k < n :: ChargeAt(m, ts, choices, At(m, ts, choices, n).charges, k)
  {
    if n > 0 {
      ChargesUpTo(m, ts, choices, n - 1);
      AtNext(m, ts, choices, n - 1);
      forall k | 0 <= k < n
        ensures ChargeAt(m, ts, choices, At(m, ts, choices, n).charges, k)
      {
        assert k < n - 1 ==> ChargeAt(m, ts, choices, At(m, ts, choices, n - 1).charges, k);
      }
    }
  }

  // --------------------------------------------------------------------------
  // The choices, from the places
  // --------------------------------------------------------------------------

  /** What the tiles before the n-th cost device j. */
  ghost function Spent(prices: seq<real>, choices: seq<nat>, n: nat, j: nat): real
    requires n <= |choices| == |prices|
  {
    if n == 0 then 0.0
    else Spent(prices, choices, n - 1, j) + (if choices[n - 1] == j then prices[n - 1] else 0.0)
  }

  /** The prices paid are those of the tiles where they were placed. */
  ghost predicate Paid(ts: seq<Tile>, prices: seq<real>, choices: seq<nat>)
    requires |prices| == |ts| == |choices| && forall n | 0 <= n < |ts| :: ts[n].hDim > 0
  {
    forall n | 0 <= n < |ts| :: Priced(ts, choices, n, choices[n], prices[n])
  }

  /** With the n-th tile priced x on its device and y on device j, its device is done first, and is the first such. */
  ghost predicate DoneFirst(prices: seq<real>, choices: seq<nat>, n: nat, j: nat, y: real)
    requires n < |choices| == |prices|
  {
    var done, other := Spent(prices, choices, n, choices[n]) + prices[n], Spent(prices, choices, n, j) + y;
    done <= other && (j < choices[n] ==> done < other)
  }

  lemma {:induction false} PriceUnique(ts: seq<Tile>, choices: seq<nat>, n: nat, j: nat, x: real, y: real)
    requires n < |ts| == |choices| && ts[n].hDim > 0
    requires Priced(ts, choices, n, j, x) && Priced(ts, choices, n, j, y)
    ensures x == y
  {
  }

  lemma {:induction false} PaidIsCost(m: nat, ts: seq<Tile>, prices: seq<real>, choices: seq<nat>, n: nat)
    requires Placeable(m, ts, choices) && |prices| == |ts| && Paid(ts, prices, choices) && n < |ts|
    ensures prices[n] == Cost(ts[n], At(m, ts, choices, n).held[choices[n]])
  {
    CostIsPrice(m, ts, choices, n, choices[n]);
    PriceUnique(ts, choices, n, choices[n], prices[n], Cost(ts[n], At(m, ts, choices, n).held[choices[n]]));
  }

  lemma {:induction false} TimesAreSpent(m: nat, ts: seq<Tile>, prices: seq<real>, choices: seq<nat>, n: nat, j: nat)
    requires Placeable(m, ts, choices) && |prices| == |ts| && Paid(ts, prices, choices) && n <= |ts| && j < m
    ensures At(m, ts, choices, n).times[j] == Spent(prices, choices, n, j)
  {
    if n > 0 {
      TimesAreSpent(m, ts, prices, choices, n - 1, j);
      AtNext(m, ts, choices, n - 1);
      PaidIsCost(m, ts, prices, choices, n - 1);
      PlacedTime(At(m, ts, choices, n - 1), ts[n - 1], choices[n - 1], j);
    }
  }

  lemma {:induction false} PlacedTime(p: Plan, t: Tile, i: nat, j: nat)
    requires t.hDim > 0 && i < |p.times| == |p.held| && j < |p.times|
    ensures Place(p, t, i).times[j] == p.times[j] + (if i == j then Cost(t, p.held[i]) else 0.0)
  {
  }

  lemma {:induction false} EarliestAt(m: nat, ts: seq<Tile>, choices: seq<nat>, n: nat, upTo: nat)
    requires Placeable(m, ts, choices) && n < upTo <= |ts| && EarliestFirst(m, ts[..upTo], choices[..upTo])
    ensures Earliest(At(m, ts, choices, n), ts[n], choices[n])
  {
    var u := upTo - 1;
    assert ts[..upTo][..u] == ts[..u] && choices[..upTo][..u] == choices[..u];
    if n < u {
      EarliestAt(m, ts, choices, n, u);
    }
  }

  /**
   In every greedy assignment, each tile goes to the device that is done with it first, counting
   what it was charged so far and the blocks it has not been sent.
   */
  lemma {:induction false} ChosenIsDoneFirst(m: nat, ts: seq<Tile>, prices: seq<real>, choices: seq<nat>,
                                             n: nat, j: nat, y: real)
    requires Placeable(m, ts, choices) && EarliestFirst(m, ts, choices)
    requires |prices| == |ts| && Paid(ts, prices, choices) && n < |ts| && j < m && Priced(ts, choices, n, j, y)
    ensures DoneFirst(prices, choices, n, j, y)
  {
    var i := choices[n];
    assert ts[..|ts|] == ts && choices[..|ts|] == choices;
    EarliestAt(m, ts, choices, n, |ts|);
    TimesAreSpent(m, ts, prices, choices, n, i);
    TimesAreSpent(m, ts, prices, choices, n, j);
    PaidIsCost(m, ts, prices, choices, n);
    CostIsPrice(m, ts, choices, n, j);
    PriceUnique(ts, choices, n, j, y, Cost(ts[n], At(m, ts, choices, n).held[j]));
  }
}
