/** The device's cache is a least-recently-used cache of the blocks that requests bring and use. */
module DeviceRecency {
  import opened Keys
  import Lru
  import LruEviction
  import opened DeviceCache

  type Op<T> = Lru.Op<TensorKey, seq<T>>

  /** A block that comes along, can be used and is not known is stored, at four bytes an entry. */
  function Brought<T>(c: Lru.Cache<TensorKey, seq<T>>, k: TensorKey, block: seq<T>, hDim: int): seq<Op<T>> {
    if block != [] && hDim > 0 && !Lru.Has(c.entries, k) then [Lru.Store(Lru.Entry(k, block, 4 * |block|))] else []
  }

  /** A request uses its two blocks, the row block first. */
  function Uses<T>(r: Req<T>): seq<Op<T>> {
    [Lru.Use(RowKey(r.key)), Lru.Use(ColKey(r.key))]
  }

  function UsesAll<T>(rs: seq<Req<T>>): seq<Op<T>> {
    if rs == [] then [] else UsesAll(rs[..|rs| - 1]) + Uses(rs[|rs| - 1])
  }

  /** What the requests do to the cache: each stores what it brings, uses its blocks, and all that wait use theirs. */
  function Ops<T(==)>(overhead: nat, max: nat, rs: seq<Req<T>>): seq<Op<T>> {
    if rs == [] then []
    else
      var n := |rs| - 1;
      var r, d := rs[n], Run(overhead, max, rs[..n]);
      var ops := Ops(overhead, max, rs[..n]);
      var ops1 := ops + Brought(Lru.Run(overhead, max, ops), RowKey(r.key), r.row, r.hDim);
      var ops2 := ops1 + Brought(Lru.Run(overhead, max, ops1), ColKey(r.key), r.col, r.hDim);
      ops2 + Uses(r) + UsesAll(d.saved)
  }

  // --------------------------------------------------------------------------
  // Operations one after another
  // --------------------------------------------------------------------------

  function ApplyAll<T>(c: Lru.Cache<TensorKey, seq<T>>, ops: seq<Op<T>>): Lru.Cache<TensorKey, seq<T>>
    decreases |ops|
  {
    if ops == [] then c else ApplyAll(Lru.Apply(c, ops[0]), ops[1..])
  }

  lemma {:induction false} ApplySplit<T>(c: Lru.Cache<TensorKey, seq<T>>, xs: seq<Op<T>>, ys: seq<Op<T>>)
    ensures ApplyAll(c, xs + ys) == ApplyAll(ApplyAll(c, xs), ys)
    decreases |xs|
  {
    if xs == [] {
      assert xs + ys == ys;
    } else {
      assert (xs + ys)[1..] == xs[1..] + ys;
      ApplySplit(Lru.Apply(c, xs[0]), xs[1..], ys);
    }
  }

  lemma {:induction false} ApplyOne<T>(c: Lru.Cache<TensorKey, seq<T>>, op: Op<T>)
    ensures ApplyAll(c, [op]) == Lru.Apply(c, op)
  {
    assert [op][1..] == [];
  }

  lemma {:induction false} ApplyNext<T>(c: Lru.Cache<TensorKey, seq<T>>, xs: seq<Op<T>>, y: Op<T>)
    ensures ApplyAll(c, xs + [y]) == Lru.Apply(ApplyAll(c, xs), y)
  {
    ApplySplit(c, xs, [y]);
    ApplyOne(ApplyAll(c, xs), y);
  }

  lemma {:induction false} RunNext<T>(overhead: nat, max: nat, xs: seq<Op<T>>, n: nat)
    requires n < |xs|
    ensures Lru.Run(overhead, max, xs[..n + 1]) == Lru.Apply(Lru.Run(overhead, max, xs[..n]), xs[n])
  {
    assert xs[..n + 1][..n] == xs[..n];
  }

  lemma {:induction false} RunUpTo<T>(overhead: nat, max: nat, xs: seq<Op<T>>, n: nat)
    requires n <= |xs|
    ensures Lru.Run(overhead, max, xs[..n]) == ApplyAll(Lru.Cache(overhead, max, [], []), xs[..n])
  {
    if n > 0 {
      RunUpTo(overhead, max, xs, n - 1);
      RunNext(overhead, max, xs, n - 1);
      ApplyNext(Lru.Cache(overhead, max, [], []), xs[..n - 1], xs[n - 1]);
      assert xs[..n - 1] + [xs[n - 1]] == xs[..n];
    }
  }

  lemma {:induction false} RunIsApplyAll<T>(overhead: nat, max: nat, xs: seq<Op<T>>)
    ensures Lru.Run(overhead, max, xs) == ApplyAll(Lru.Cache(overhead, max, [], []), xs)
  {
    RunUpTo(overhead, max, xs, |xs|);
    assert xs[..|xs|] == xs;
  }

  lemma {:induction false} RunSplit<T>(overhead: nat, max: nat, xs: seq<Op<T>>, ys: seq<Op<T>>)
    ensures Lru.Run(overhead, max, xs + ys) == ApplyAll(Lru.Run(overhead, max, xs), ys)
  {
    RunIsApplyAll(overhead, max, xs);
    RunIsApplyAll(overhead, max, xs + ys);
    ApplySplit(Lru.Cache(overhead, max, [], []), xs, ys);
  }

  lemma {:induction false} StoredIsBrought<T>(c: Lru.Cache<TensorKey, seq<T>>, k: TensorKey, block: seq<T>, hDim: int)
    ensures CacheTensor(c, k, block, hDim) == ApplyAll(c, Brought(c, k, block, hDim))
  {
    ApplyOne(c, Lru.Store(Lru.Entry(k, block, 4 * |block|)));
  }

  lemma {:induction false} FillIsUses<T>(c: Lru.Cache<TensorKey, seq<T>>, r: Req<T>)
    ensures AfterFill(c, r) == ApplyAll(c, Uses(r))
  {
    var row, col: Op<T> := Lru.Use(RowKey(r.key)), Lru.Use(ColKey(r.key));
    assert Uses(r) == [row] + [col];
    ApplySplit(c, [row], [col]);
    ApplyOne(c, row);
    ApplyOne(Lru.Apply(c, row), col);
  }

  lemma {:induction false} FillAllIsUses<T>(c: Lru.Cache<TensorKey, seq<T>>, rs: seq<Req<T>>)
    ensures FillAll(c, rs).0 == ApplyAll(c, UsesAll(rs))
  {
    if rs != [] {
      var n := |rs| - 1;
      FillAllIsUses(c, rs[..n]);
      ApplySplit(c, UsesAll(rs[..n]), Uses(rs[n]));
      FillIsUses(FillAll(c, rs[..n]).0, rs[n]);
    }
  }

  // --------------------------------------------------------------------------
  // The device's cache
  // --------------------------------------------------------------------------

  lemma {:induction false} HandleIsOps<T>(d: Device<T>, r: Req<T>, row: seq<Op<T>>, col: seq<Op<T>>)
    requires row == Brought(d.cache, RowKey(r.key), r.row, r.hDim)
    requires col == Brought(ApplyAll(d.cache, row), ColKey(r.key), r.col, r.hDim)
    ensures HandleMatMul(d, r).cache
            == ApplyAll(ApplyAll(ApplyAll(ApplyAll(d.cache, row), col), Uses(r)), UsesAll(d.saved))
  {
    var c1 := ApplyAll(d.cache, row);
    StoredIsBrought(d.cache, RowKey(r.key), r.row, r.hDim);
    StoredIsBrought(c1, ColKey(r.key), r.col, r.hDim);
    var c2 := ApplyAll(c1, col);
    FillIsUses(c2, r);
    FillAllIsUses(ApplyAll(c2, Uses(r)), d.saved);
  }

  /** After every list of requests the device's cache is the LRU cache of those operations. */
  lemma {:induction false} DeviceIsLru<T>(overhead: nat, max: nat, rs: seq<Req<T>>)
    ensures Run(overhead, max, rs).cache == Lru.Run(overhead, max, Ops(overhead, max, rs))
  {
    if rs != [] {
      var n := |rs| - 1;
      DeviceIsLru(overhead, max, rs[..n]);
      var r, d := rs[n], Run(overhead, max, rs[..n]);
      var ops := Ops(overhead, max, rs[..n]);
      var row := Brought(d.cache, RowKey(r.key), r.row, r.hDim);
      RunSplit(overhead, max, ops, row);
      var col := Brought(ApplyAll(d.cache, row), ColKey(r.key), r.col, r.hDim);
      RunSplit(overhead, max, ops + row, col);
      RunSplit(overhead, max, ops + row + col, Uses(r));
      RunSplit(overhead, max, ops + row + col + Uses(r), UsesAll(d.saved));
      HandleIsOps(d, r.(id := n), row, col);
    }
  }

  /** So it keeps its limit, holds the most recently used blocks, and for each key the last one stored. */
  lemma {:induction false} DeviceHoldsMostRecent<T>(overhead: nat, max: nat, rs: seq<Req<T>>)
    ensures var c, ops := Run(overhead, max, rs).cache, Ops(overhead, max, rs);
            && Lru.Ok(c)
            && Lru.IsSuffix(Lru.KeysOf(c.entries), Lru.Recency(overhead, max, ops))
            && LruEviction.Latest(c.entries, ops)
  {
    var ops := Ops(overhead, max, rs);
    DeviceIsLru(overhead, max, rs);
    Lru.RunOk(overhead, max, ops);
    Lru.HoldsMostRecent(overhead, max, ops);
    LruEviction.HoldsLastStored(overhead, max, ops);
  }
}
