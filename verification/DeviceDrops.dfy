/**
 A run of the device that drops a request: two requests wait for one tile, the first has got
 its row block before that was evicted, and completing the first erases both by their key.
 */
module DeviceDrops {
  import opened Keys
  import Lru
  import opened DeviceCache

  type BlockCache = Lru.Cache<TensorKey, seq<int>>

  // --------------------------------------------------------------------------
  // A cache of at most one entry
  // --------------------------------------------------------------------------

  predicate AtMostOne(c: BlockCache) {
    |c.entries| <= 1
  }

  /** Use does not change its order. */
  lemma {:induction false} UseStill(c: BlockCache, k: TensorKey)
    requires AtMostOne(c)
    ensures UseKey(c, k) == c
  {
  }

  lemma {:induction false} FillStill(c: BlockCache, rs: seq<Req<int>>)
    requires AtMostOne(c)
    ensures FillAll(c, rs).0 == c && forall i | 0 <= i < |rs| :: FillAll(c, rs).1[i] == Filled(c, rs[i])
  {
    if rs != [] {
      var n := |rs| - 1;
      FillStill(c, rs[..n]);
      UseStill(c, RowKey(rs[n].key));
      UseStill(c, ColKey(rs[n].key));
    }
  }

  lemma {:induction false} NoneReady(rs: seq<Req<int>>)
    requires forall i | 0 <= i < |rs| :: !Ready(rs[i])
    ensures ReadyOnes(rs) == []
  {
    if rs != [] {
      NoneReady(rs[..|rs| - 1]);
      assert !Ready(rs[|rs| - 1]);
    }
  }

  lemma {:induction false} AllRemain(rs: seq<Req<int>>)
    ensures Remaining(rs, []) == rs
  {
    if rs != [] {
      var n := |rs| - 1;
      AllRemain(rs[..n]);
      assert rs == rs[..n] + [rs[n]];
    }
  }

  lemma {:induction false} HasOne(c: BlockCache, k: TensorKey)
    requires AtMostOne(c)
    ensures Lru.Has(c.entries, k) <==> c.entries != [] && c.entries[0].key == k
  {
    if c.entries != [] {
      assert c.entries[0].key == k ==> exists i | 0 <= i < |c.entries| :: c.entries[i].key == k;
    }
  }

  /** The request with the one cached block filled in where it belongs. */
  lemma {:induction false} FilledOne(c: BlockCache, r: Req<int>)
    requires AtMostOne(c)
    ensures Filled(c, r) == if c.entries == [] then r
                            else if c.entries[0].key == RowKey(r.key) then r.(row := c.entries[0].value)
                            else if c.entries[0].key == ColKey(r.key) then r.(col := c.entries[0].value)
                            else r
  {
    UseStill(c, RowKey(r.key));
    if c.entries != [] {
      assert c.entries[1..] == [];
      LookupOne(c, RowKey(r.key), r.row);
      LookupOne(c, ColKey(r.key), r.col);
    }
  }

  lemma {:induction false} LookupOne(c: BlockCache, k: TensorKey, block: seq<int>)
    requires |c.entries| == 1
    ensures Lookup(c, k, block) == if c.entries[0].key == k then c.entries[0].value else block
  {
    assert c.entries[1..] == [];
    assert Lru.Having(c.entries[1..], k) == [];
  }

  /** Request r waits, and so do the saved ones, each with what the cache could fill in. */
  ghost predicate Waiting(d: Device<int>, d': Device<int>, r: Req<int>, c: BlockCache) {
    && d'.cache == c && |d'.saved| == |d.saved| + 1
    && (forall i | 0 <= i < |d.saved| :: d'.saved[i] == Filled(c, d.saved[i]))
    && d'.saved[|d.saved|] == r.(row := [], col := [])
  }

  lemma {:induction false} Waits(d: Device<int>, r: Req<int>, c: BlockCache)
    requires c == CacheBlocks(d.cache, r) && AtMostOne(c) && Misses(c, r)
    requires forall i | 0 <= i < |d.saved| :: !Ready(Filled(c, d.saved[i]))
    ensures Waiting(d, HandleMatMul(d, r), r, c)
  {
    UseStill(c, RowKey(r.key));
    UseStill(c, ColKey(r.key));
    FillStill(c, d.saved);
    NoneReady(FillAll(c, d.saved).1);
    AllRemain(FillAll(c, d.saved).1);
  }

  // --------------------------------------------------------------------------
  // The run, with room for one block of one element
  // --------------------------------------------------------------------------

  /** A request; its blocks have one element or are left out. */
  function Small(id: nat, row: nat, col: nat, r: seq<int>, c: seq<int>): Req<int> {
    Req(id, Key(0, 0, row, col), 1, r, c)
  }

  function Row(line: nat): TensorKey {
    TensorKey(0, 0, line, true)
  }

  function Column(line: nat): TensorKey {
    TensorKey(0, 0, line, false)
  }

  function Block(k: TensorKey, x: int): Lru.Entry<TensorKey, seq<int>> {
    Lru.Entry(k, [x], FLOAT_BYTES)
  }

  function Requests(): seq<Req<int>> {
    [Small(0, 0, 0, [], []),
     Small(1, 0, 1, [1], []),
     Small(2, 5, 5, [3], []),
     Small(3, 0, 0, [], []),
     Small(4, 6, 0, [], [7])]
  }

  function Empty(): BlockCache {
    Lru.Cache(0, FLOAT_BYTES, [], [])
  }

  function RowThere(): BlockCache {
    Lru.Cache(0, FLOAT_BYTES, [Block(Row(0), 1)], [])
  }

  function RowGone(): BlockCache {
    Lru.Cache(0, FLOAT_BYTES, [Block(Row(5), 3)], [Block(Row(0), 1)])
  }

  lemma {:induction false} Replaces(k: TensorKey, x: int, l: TensorKey, y: int,
                                    departed: seq<Lru.Entry<TensorKey, seq<int>>>)
    requires k != l
    ensures Lru.Put(Lru.Cache(0, FLOAT_BYTES, [Block(k, x)], departed), Block(l, y))
         == Lru.Cache(0, FLOAT_BYTES, [Block(l, y)], departed + [Block(k, x)])
  {
    var es := [Block(k, x)];
    assert es[1..] == [] && Lru.Without(es, l) == es && Lru.Having(es, l) == [];
    assert Lru.Bytes(es, 0) == FLOAT_BYTES;
    assert Lru.Overflow(es, 0, FLOAT_BYTES, FLOAT_BYTES) == 1;
  }

  lemma {:induction false} CacheOne(c: BlockCache, r: Req<int>)
    requires AtMostOne(c) && (r.row == [] || r.col == []) && r.hDim > 0
    ensures r.row == [] && r.col == [] ==> CacheBlocks(c, r) == c
    ensures r.row != [] && (c.entries == [] || c.entries[0].key != RowKey(r.key)) ==>
              CacheBlocks(c, r) == Lru.Put(c, Lru.Entry(RowKey(r.key), r.row, FLOAT_BYTES * |r.row|))
    ensures r.col != [] && (c.entries == [] || c.entries[0].key != ColKey(r.key)) ==>
              CacheBlocks(c, r) == Lru.Put(c, Lru.Entry(ColKey(r.key), r.col, FLOAT_BYTES * |r.col|))
  {
    HasOne(c, RowKey(r.key));
    HasOne(c, ColKey(r.key));
  }

  ghost predicate First(d: Device<int>) {
    d.cache == Empty() && |d.saved| == 1 && d.saved[0] == Small(0, 0, 0, [], [])
  }

  ghost predicate Second(d: Device<int>) {
    && d.cache == RowThere() && |d.saved| == 2
    && d.saved[0] == Small(0, 0, 0, [1], []) && d.saved[1] == Small(1, 0, 1, [], [])
  }

  ghost predicate Third(d: Device<int>) {
    && d.cache == RowGone() && |d.saved| == 3 && d.saved[0] == Small(0, 0, 0, [1], [])
    && d.saved[1] == Small(1, 0, 1, [], []) && d.saved[2] == Small(2, 5, 5, [], [])
  }

  ghost predicate Fourth(d: Device<int>) {
    && d.cache == RowGone() && |d.saved| == 4
    && d.saved[0] == Small(0, 0, 0, [1], []) && d.saved[3] == Small(3, 0, 0, [], [])
  }

  lemma {:induction false} ToFirst(d: Device<int>, r: Req<int>)
    requires d.cache == Empty() && d.saved == [] && r == Small(0, 0, 0, [], [])
    ensures First(HandleMatMul(d, r))
  {
    CacheOne(d.cache, r);
    Waits(d, r, Empty());
  }

  lemma {:induction false} ToSecond(d: Device<int>, r: Req<int>)
    requires First(d) && r == Small(1, 0, 1, [1], [])
    ensures Second(HandleMatMul(d, r))
  {
    CacheOne(d.cache, r);
    HasOne(RowThere(), Column(1));
    FilledOne(RowThere(), d.saved[0]);
    Waits(d, r, RowThere());
  }

  lemma {:induction false} ToThird(d: Device<int>, r: Req<int>)
    requires Second(d) && r == Small(2, 5, 5, [3], [])
    ensures Third(HandleMatMul(d, r))
  {
    CacheOne(d.cache, r);
    Replaces(Row(0), 1, Row(5), 3, []);
    HasOne(RowGone(), Column(5));
    FilledOne(RowGone(), d.saved[0]);
    FilledOne(RowGone(), d.saved[1]);
    Waits(d, r, RowGone());
  }

  lemma {:induction false} ToFourth(d: Device<int>, r: Req<int>)
    requires Third(d) && r == Small(3, 0, 0, [], [])
    ensures Fourth(HandleMatMul(d, r))
  {
    CacheOne(d.cache, r);
    HasOne(RowGone(), Row(0));
    FilledOne(RowGone(), d.saved[0]);
    FilledOne(RowGone(), d.saved[1]);
    FilledOne(RowGone(), d.saved[2]);
    Waits(d, r, RowGone());
  }

  lemma {:induction false} LastDrops(d: Device<int>, r: Req<int>)
    requires Fourth(d) && r == Small(4, 6, 0, [], [7])
    ensures DropsAt(d, r)
  {
    Replaces(Row(5), 3, Column(0), 7, [Block(Row(0), 1)]);
    CacheOne(d.cache, r);
    var c := CacheBlocks(d.cache, r);
    UseStill(c, RowKey(r.key));
    UseStill(c, ColKey(r.key));
    HasOne(c, Column(0));
    HasOne(c, Row(0));
    var i, j := 0, 3;
    assert d.saved[i].key == d.saved[j].key && Completable(c, d.saved[i]) && !Completable(c, d.saved[j]);
  }

  lemma {:induction false} RunNext(max: nat, rs: seq<Req<int>>, n: nat)
    requires n < |rs| && rs[n].id == n
    ensures Run(0, max, rs[..n + 1]) == HandleMatMul(Run(0, max, rs[..n]), rs[n])
  {
    assert rs[..n + 1][..n] == rs[..n] && rs[n].(id := n) == rs[n];
  }

  lemma {:induction false} RunToSecond(max: nat, rs: seq<Req<int>>)
    requires max == FLOAT_BYTES && |rs| == 5 && rs[0] == Small(0, 0, 0, [], []) && rs[1] == Small(1, 0, 1, [1], [])
    ensures Second(Run(0, max, rs[..2]))
  {
    assert rs[..0] == [];
    RunNext(max, rs, 0);
    ToFirst(Run(0, max, rs[..0]), rs[0]);
    RunNext(max, rs, 1);
    ToSecond(Run(0, max, rs[..1]), rs[1]);
  }

  lemma {:induction false} RunToFourth(max: nat, rs: seq<Req<int>>)
    requires |rs| == 5 && Second(Run(0, max, rs[..2]))
    requires rs[2] == Small(2, 5, 5, [3], []) && rs[3] == Small(3, 0, 0, [], [])
    ensures Fourth(Run(0, max, rs[..4]))
  {
    RunNext(max, rs, 2);
    ToThird(Run(0, max, rs[..2]), rs[2]);
    RunNext(max, rs, 3);
    ToFourth(Run(0, max, rs[..3]), rs[3]);
  }

  /** The fifth request of this run makes the device drop the fourth, which was never computed. */
  lemma {:induction false} RepeatedKeyDrops()
    ensures !NeverDrops(0, FLOAT_BYTES, Requests())
    ensures AllIds(Run(0, FLOAT_BYTES, Requests())) < UpTo(|Requests()|)
  {
    FifthDrops(FLOAT_BYTES, Requests());
  }

  lemma {:induction false} FifthDrops(max: nat, rs: seq<Req<int>>)
    requires max == FLOAT_BYTES && rs == Requests()
    ensures !NeverDrops(0, max, rs) && AllIds(Run(0, max, rs)) < UpTo(|rs|)
  {
    RunToSecond(max, rs);
    RunToFourth(max, rs);
    LastDrops(Run(0, max, rs[..4]), rs[4]);
    assert rs[4].(id := 4) == rs[4];
    NoneDroppedExactly(0, max, rs);
    RunIds(0, max, rs);
  }
}
