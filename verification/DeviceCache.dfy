/**
 The device's block cache: requests may leave out blocks the device is thought to hold,
 and wait until both their blocks are there.
 */
module DeviceCache {
  import opened Keys
  import opened Lru

  /** A request; an omitted block is empty.  `id` is its position in the order of arrival. */
  datatype Req<T> = Req(id: nat, key: Key, hDim: int, row: seq<T>, col: seq<T>)

  /** `gemms` lists the requests handed to the worker pool, with the blocks they were given. */
  datatype Device<T> = Device(cache: Cache<TensorKey, seq<T>>, saved: seq<Req<T>>, gemms: seq<Req<T>>)

  /** Stores a block unless it is known already or unusable. */
  function CacheTensor<T>(c: Cache<TensorKey, seq<T>>, k: TensorKey, block: seq<T>, hDim: int): Cache<TensorKey,
                          seq<T>> {
    if Has(c.entries, k) || block == [] || hDim <= 0 then c
    else Put(c, Entry(k, block, FLOAT_BYTES * |block|))
  }

  /** The cached block for a key, or the block at hand. */
  function Lookup<T>(c: Cache<TensorKey, seq<T>>, k: TensorKey, block: seq<T>): seq<T> {
    if Having(c.entries, k) != [] then Having(c.entries, k)[0].value else block
  }

  function UseKey<T>(c: Cache<TensorKey, seq<T>>, k: TensorKey): Cache<TensorKey, seq<T>> {
    if Has(c.entries, k) then Touch(c, k) else c
  }

  /** A request with its blocks replaced by cached ones where there are any. */
  function Filled<T>(c: Cache<TensorKey, seq<T>>, r: Req<T>): Req<T> {
    r.(row := Lookup(c, RowKey(r.key), r.row), col := Lookup(UseKey(c, RowKey(r.key)), ColKey(r.key), r.col))
  }

  function AfterFill<T>(c: Cache<TensorKey, seq<T>>, r: Req<T>): Cache<TensorKey, seq<T>> {
    UseKey(UseKey(c, RowKey(r.key)), ColKey(r.key))
  }

  predicate Ready<T(==)>(r: Req<T>) {
    r.row != [] && r.col != []
  }

  /** The saved requests, filled one after the other, and the cache after that. */
  function FillAll<T>(c: Cache<TensorKey, seq<T>>, rs: seq<Req<T>>): (res: (Cache<TensorKey, seq<T>>, seq<Req<T>>))
    ensures |res.1| == |rs|
  {
    if rs == [] then (c, [])
    else
      var n := |rs| - 1;
      var (c1, done) := FillAll(c, rs[..n]);
      (AfterFill(c1, rs[n]), done + [Filled(c1, rs[n])])
  }

  function ReadyOnes<T(==)>(rs: seq<Req<T>>): (res: seq<Req<T>>)
    ensures forall i | 0 <= i < |res| :: res[i] in rs && Ready(res[i])
    ensures forall i | 0 <= i < |rs| && Ready(rs[i]) :: rs[i] in res
  {
    if rs == [] then []
    else
      var n := |rs| - 1;
      assert rs == rs[..n] + [rs[n]];
      ReadyOnes(rs[..n]) + (if Ready(rs[n]) then [rs[n]] else [])
  }

  predicate KeyIn<T(==)>(k: Key, rs: seq<Req<T>>) {
    exists i | 0 <= i < |rs| :: rs[i].key == k
  }

  /** What stays saved once the keys of `gone` are erased. */
  function Remaining<T(==)>(rs: seq<Req<T>>, gone: seq<Req<T>>): (res: seq<Req<T>>)
    ensures forall i | 0 <= i < |res| :: res[i] in rs && !KeyIn(res[i].key, gone)
  {
    if rs == [] then []
    else
      var n := |rs| - 1;
      assert rs == rs[..n] + [rs[n]];
      Remaining(rs[..n], gone) + (if KeyIn(rs[n].key, gone) then [] else [rs[n]])
  }

  /** Hands over every saved request that has both blocks by now. */
  function CheckCached<T(==)>(d: Device<T>): Device<T> {
    var (c, filled) := FillAll(d.cache, d.saved);
    var ready := ReadyOnes(filled);
    Device(c, Remaining(filled, ready), d.gemms + ready)
  }

  function CacheBlocks<T>(c: Cache<TensorKey, seq<T>>, r: Req<T>): Cache<TensorKey, seq<T>> {
    CacheTensor(CacheTensor(c, RowKey(r.key), r.row, r.hDim), ColKey(r.key), r.col, r.hDim)
  }

  /** A block is neither sent along nor cached. */
  predicate Misses<T(==)>(c: Cache<TensorKey, seq<T>>, r: Req<T>) {
    (r.row == [] && !Has(c.entries, RowKey(r.key))) || (r.col == [] && !Has(c.entries, ColKey(r.key)))
  }

  function HandleMatMul<T(==)>(d: Device<T>, r: Req<T>): Device<T> {
    var c := CacheBlocks(d.cache, r);
    var d1 := CheckCached(d.(cache := AfterFill(c, r)));
    if Misses(c, r) then d1.(saved := d1.saved + [r.(row := [], col := [])])
    else d1.(gemms := d1.gemms + [Filled(c, r)])
  }

  /** A device that has handled a list of requests; the n-th request has id n. */
  function Run<T(==)>(overhead: nat, max: nat, rs: seq<Req<T>>): Device<T> {
    if rs == [] then Device(Cache(overhead, max, [], []), [], [])
    else
      var n := |rs| - 1;
      HandleMatMul(Run(overhead, max, rs[..n]), rs[n].(id := n))
  }

  // --------------------------------------------------------------------------
  // What holds of every cached block
  // --------------------------------------------------------------------------

  /** A property of blocks under their keys. */
  type Law<!T> = (TensorKey, seq<T>) -> bool

  ghost predicate CacheAll<T>(p: Law<T>, c: Cache<TensorKey, seq<T>>) {
    forall i | 0 <= i < |c.entries| :: p(c.entries[i].key, c.entries[i].value)
  }

  ghost predicate SameKeys<T>(c: Cache<TensorKey, seq<T>>, c': Cache<TensorKey, seq<T>>) {
    forall k :: Has(c.entries, k) <==> Has(c'.entries, k)
  }

  lemma {:induction false} MultisetHas<K, V>(es: seq<Entry<K, V>>, fs: seq<Entry<K, V>>)
    requires multiset(es) == multiset(fs)
    ensures forall k :: Has(es, k) ==> Has(fs, k)
    ensures forall e :: e in es ==> e in fs
  {
    forall e | e in es
      ensures e in fs
    {
      assert e in multiset(es);
      assert e in multiset(fs);
    }
    forall k | Has(es, k)
      ensures Has(fs, k)
    {
      var i :| 0 <= i < |es| && es[i].key == k;
      assert es[i] in fs;
    }
  }

  /** Using a key changes the order of the cache and nothing else. */
  lemma {:induction false} UseKeeps<T>(p: Law<T>, c: Cache<TensorKey, seq<T>>, k: TensorKey)
    requires CacheAll(p, c)
    ensures CacheAll(p, UseKey(c, k)) && SameKeys(c, UseKey(c, k))
  {
    if Has(c.entries, k) {
      var es, fs := c.entries, UseKey(c, k).entries;
      WithoutSplits(es, k);
      assert multiset(fs) == multiset(es);
      MultisetHas(es, fs);
      MultisetHas(fs, es);
      forall i | 0 <= i < |fs|
        ensures p(fs[i].key, fs[i].value)
      {
        assert fs[i] in es;
      }
    }
  }

  lemma {:induction false} LookupAll<T>(p: Law<T>, c: Cache<TensorKey, seq<T>>, k: TensorKey, block: seq<T>)
    requires CacheAll(p, c)
    ensures if Has(c.entries, k) then p(k, Lookup(c, k, block)) else Lookup(c, k, block) == block
  {
    HasIsHaving(c.entries, k);
    HavingFinds(c.entries, k);
  }

  /** What filling does to a request: a cached block has the property, another one stays. */
  ghost predicate FilledFrom<T>(p: Law<T>, c: Cache<TensorKey, seq<T>>, r: Req<T>, f: Req<T>) {
    && f.id == r.id && f.key == r.key && f.hDim == r.hDim
    && (if Has(c.entries, RowKey(r.key)) then p(RowKey(r.key), f.row) else f.row == r.row)
    && (if Has(c.entries, ColKey(r.key)) then p(ColKey(r.key), f.col) else f.col == r.col)
  }

  lemma {:induction false} FillOne<T>(p: Law<T>, c: Cache<TensorKey, seq<T>>, r: Req<T>)
    requires CacheAll(p, c)
    ensures CacheAll(p, AfterFill(c, r)) && SameKeys(c, AfterFill(c, r)) && FilledFrom(p, c, r, Filled(c, r))
  {
    var c1 := UseKey(c, RowKey(r.key));
    UseKeeps(p, c, RowKey(r.key));
    UseKeeps(p, c1, ColKey(r.key));
    LookupAll(p, c, RowKey(r.key), r.row);
    LookupAll(p, c1, ColKey(r.key), r.col);
  }

  lemma {:induction false} FillEach<T>(p: Law<T>, c: Cache<TensorKey, seq<T>>, rs: seq<Req<T>>)
    requires CacheAll(p, c)
    ensures CacheAll(p, FillAll(c, rs).0) && SameKeys(c, FillAll(c, rs).0)
    ensures forall i | 0 <= i < |rs| :: FilledFrom(p, c, rs[i], FillAll(c, rs).1[i])
  {
    if rs != [] {
      var n := |rs| - 1;
      FillEach(p, c, rs[..n]);
      FillOne(p, FillAll(c, rs[..n]).0, rs[n]);
    }
  }

  lemma {:induction false} CacheTensorAll<T>(p: Law<T>, c: Cache<TensorKey, seq<T>>, k: TensorKey, block: seq<T>,
                                             hDim: int)
    requires CacheAll(p, c) && (block == [] || p(k, block))
    ensures CacheAll(p, CacheTensor(c, k, block, hDim))
  {
    if !(Has(c.entries, k) || block == [] || hDim <= 0) {
      HasIsHaving(c.entries, k);
      HavingFinds(c.entries, k);
      PutAll(p, c, Entry(k, block, FLOAT_BYTES * |block|));
    }
  }

  lemma {:induction false} PutAll<T>(p: Law<T>, c: Cache<TensorKey, seq<T>>, e: Entry<TensorKey, seq<T>>)
    requires CacheAll(p, c) && p(e.key, e.value) && Without(c.entries, e.key) == c.entries
    ensures CacheAll(p, Put(c, e))
  {
  }

  lemma {:induction false} CacheBlocksAll<T>(p: Law<T>, c: Cache<TensorKey, seq<T>>, r: Req<T>)
    requires CacheAll(p, c) && (r.row == [] || p(RowKey(r.key), r.row)) && (r.col == [] || p(ColKey(r.key), r.col))
    ensures CacheAll(p, CacheBlocks(c, r))
  {
    CacheTensorAll(p, c, RowKey(r.key), r.row, r.hDim);
    CacheTensorAll(p, CacheTensor(c, RowKey(r.key), r.row, r.hDim), ColKey(r.key), r.col, r.hDim);
  }

  // --------------------------------------------------------------------------
  // Right blocks, and no waiting beside a full cache
  // --------------------------------------------------------------------------

  /** The server gives each row and column key one block, never an empty one. */
  ghost predicate Blocks<T>(truth: TensorKey -> seq<T>) {
    forall k: TensorKey :: truth(k) != []
  }

  ghost function Assigned<T>(truth: TensorKey -> seq<T>): Law<T> {
    (k: TensorKey, block: seq<T>) => block == truth(k)
  }

  /** Each block is left out or is the one assigned to its key. */
  ghost predicate Honest<T>(truth: TensorKey -> seq<T>, r: Req<T>) {
    (r.row == [] || r.row == truth(RowKey(r.key))) && (r.col == [] || r.col == truth(ColKey(r.key)))
  }

  ghost predicate Right<T>(truth: TensorKey -> seq<T>, r: Req<T>) {
    r.row == truth(RowKey(r.key)) && r.col == truth(ColKey(r.key))
  }

  /** A saved request's blocks are right or missing, and one of them is not cached. */
  ghost predicate SavedOk<T>(truth: TensorKey -> seq<T>, c: Cache<TensorKey, seq<T>>, r: Req<T>) {
    Honest(truth, r) && !(Has(c.entries, RowKey(r.key)) && Has(c.entries, ColKey(r.key)))
  }

  ghost predicate DeviceOk<T>(truth: TensorKey -> seq<T>, d: Device<T>) {
    && CacheAll(Assigned(truth), d.cache)
    && (forall i | 0 <= i < |d.saved| :: SavedOk(truth, d.cache, d.saved[i]))
    && (forall i | 0 <= i < |d.gemms| :: Right(truth, d.gemms[i]))
  }

  lemma {:induction false} NotReadyOk<T>(truth: TensorKey -> seq<T>, c: Cache<TensorKey, seq<T>>,
                                         c': Cache<TensorKey, seq<T>>, r: Req<T>, f: Req<T>)
    requires Blocks(truth) && Honest(truth, r) && FilledFrom(Assigned(truth), c, r, f) && SameKeys(c, c')
    ensures if Ready(f) then Right(truth, f) else SavedOk(truth, c', f)
  {
  }

  lemma {:induction false} ReadyKeyIn<T>(rs: seq<Req<T>>, i: nat)
    requires i < |rs| && Ready(rs[i])
    ensures KeyIn(rs[i].key, ReadyOnes(rs))
  {
    var ready := ReadyOnes(rs);
    assert rs[i] in ready;
    var m :| 0 <= m < |ready| && ready[m] == rs[i];
  }

  /** Whatever the cache was before the check, afterwards no request waits with both its blocks cached. */
  lemma {:induction false} CheckCachedOk<T>(truth: TensorKey -> seq<T>, d: Device<T>)
    requires Blocks(truth) && CacheAll(Assigned(truth), d.cache)
    requires forall i | 0 <= i < |d.saved| :: Honest(truth, d.saved[i])
    requires forall i | 0 <= i < |d.gemms| :: Right(truth, d.gemms[i])
    ensures DeviceOk(truth, CheckCached(d)) && SameKeys(d.cache, CheckCached(d).cache)
  {
    FillEach(Assigned(truth), d.cache, d.saved);
    var (c, filled) := FillAll(d.cache, d.saved);
    forall i | 0 <= i < |filled|
      ensures if Ready(filled[i]) then Right(truth, filled[i]) else SavedOk(truth, c, filled[i])
    {
      NotReadyOk(truth, d.cache, c, d.saved[i], filled[i]);
    }
    var ready := ReadyOnes(filled);
    var kept := Remaining(filled, ready);
    forall i | 0 <= i < |filled| && Ready(filled[i])
      ensures KeyIn(filled[i].key, ready)
    {
      ReadyKeyIn(filled, i);
    }
    forall i | 0 <= i < |kept|
      ensures SavedOk(truth, c, kept[i])
    {
      assert kept[i] in filled;
      var j :| 0 <= j < |filled| && filled[j] == kept[i];
      assert !KeyIn(filled[j].key, ready);
    }
  }

  lemma {:induction false} HandleOk<T>(truth: TensorKey -> seq<T>, d: Device<T>, r: Req<T>)
    requires Blocks(truth) && DeviceOk(truth, d) && Honest(truth, r)
    ensures DeviceOk(truth, HandleMatMul(d, r))
  {
    var c := CacheBlocks(d.cache, r);
    CacheBlocksAll(Assigned(truth), d.cache, r);
    FillOne(Assigned(truth), c, r);
    var d1 := d.(cache := AfterFill(c, r));
    forall i | 0 <= i < |d1.saved|
      ensures Honest(truth, d1.saved[i])
    {
      assert SavedOk(truth, d.cache, d.saved[i]);
    }
    CheckCachedOk(truth, d1);
    assert SameKeys(c, CheckCached(d1).cache);
  }

  /**
   For every order of requests, omitted blocks and evictions, what reaches GEMM has the
   blocks assigned to its keys, and no request waits with both blocks cached.
   */
  lemma {:induction false} RunOk<T>(truth: TensorKey -> seq<T>, overhead: nat, max: nat, rs: seq<Req<T>>)
    requires Blocks(truth) && forall i | 0 <= i < |rs| :: Honest(truth, rs[i])
    ensures DeviceOk(truth, Run(overhead, max, rs))
  {
    if rs != [] {
      var n := |rs| - 1;
      RunOk(truth, overhead, max, rs[..n]);
      HandleOk(truth, Run(overhead, max, rs[..n]), rs[n].(id := n));
    }
  }

  // --------------------------------------------------------------------------
  // At most once
  // --------------------------------------------------------------------------

  function Ids<T>(rs: seq<Req<T>>): multiset<nat> {
    if rs == [] then multiset{} else Ids(rs[..|rs| - 1]) + multiset{rs[|rs| - 1].id}
  }

  function UpTo(n: nat): multiset<nat> {
    if n == 0 then multiset{} else UpTo(n - 1) + multiset{n - 1}
  }

  lemma {:induction false} UpToOnce(n: nat, x: nat)
    ensures UpTo(n)[x] == if x < n then 1 else 0
  {
    if n > 0 {
      UpToOnce(n - 1, x);
    }
  }

  lemma {:induction false} IdsAppend<T>(rs: seq<Req<T>>, qs: seq<Req<T>>)
    ensures Ids(rs + qs) == Ids(rs) + Ids(qs)
  {
    if qs == [] {
      assert rs + qs == rs;
    } else {
      assert (rs + qs)[..|rs + qs| - 1] == rs + qs[..|qs| - 1];
      IdsAppend(rs, qs[..|qs| - 1]);
    }
  }

  lemma {:induction false} SameIds<T>(rs: seq<Req<T>>, qs: seq<Req<T>>)
    requires |rs| == |qs| && forall i | 0 <= i < |rs| :: rs[i].id == qs[i].id
    ensures Ids(rs) == Ids(qs)
  {
    if rs != [] {
      SameIds(rs[..|rs| - 1], qs[..|qs| - 1]);
    }
  }

  function OneId<T>(r: Req<T>, keep: bool): multiset<nat> {
    if keep then multiset{r.id} else multiset{}
  }

  lemma {:induction false} LastId<T>(rs: seq<Req<T>>, r: Req<T>, keep: bool)
    ensures Ids(rs + (if keep then [r] else [])) == Ids(rs) + OneId(r, keep)
  {
    assert (rs + [r])[..|rs|] == rs;
    assert rs + [] == rs;
  }

  lemma {:induction false} SplitStep<T>(rs: seq<Req<T>>, gone: seq<Req<T>>)
    requires rs != []
    ensures var n := |rs| - 1;
            && Ids(ReadyOnes(rs)) == Ids(ReadyOnes(rs[..n])) + OneId(rs[n], Ready(rs[n]))
            && Ids(Remaining(rs, gone)) == Ids(Remaining(rs[..n], gone)) + OneId(rs[n], !KeyIn(rs[n].key, gone))
  {
    var n := |rs| - 1;
    LastId(ReadyOnes(rs[..n]), rs[n], Ready(rs[n]));
    LastId(Remaining(rs[..n], gone), rs[n], !KeyIn(rs[n].key, gone));
  }

  /** The requests handed over and those that stay when the keys of `gone` are erased. */
  function KeptIds<T(==)>(rs: seq<Req<T>>, gone: seq<Req<T>>): multiset<nat> {
    Ids(ReadyOnes(rs)) + Ids(Remaining(rs, gone))
  }

  /** A request whose key is erased without its being handed over is lost. */
  predicate Lost<T(==)>(r: Req<T>, gone: seq<Req<T>>) {
    KeyIn(r.key, gone) && !Ready(r)
  }

  ghost predicate NoneLost<T>(rs: seq<Req<T>>, gone: seq<Req<T>>) {
    forall i | 0 <= i < |rs| :: !Lost(rs[i], gone)
  }

  lemma {:induction false} KeptStep<T>(rs: seq<Req<T>>, gone: seq<Req<T>>)
    requires rs != [] && (Ready(rs[|rs| - 1]) ==> KeyIn(rs[|rs| - 1].key, gone))
    ensures var n := |rs| - 1; KeptIds(rs, gone) == KeptIds(rs[..n], gone) + OneId(rs[n], !Lost(rs[n], gone))
  {
    SplitStep(rs, gone);
  }

  lemma {:induction false} NoneLostStep<T>(rs: seq<Req<T>>, gone: seq<Req<T>>)
    requires rs != []
    ensures NoneLost(rs, gone) <==> NoneLost(rs[..|rs| - 1], gone) && !Lost(rs[|rs| - 1], gone)
  {
    var n := |rs| - 1;
    assert rs == rs[..n] + [rs[n]];
  }

  /** Erasing keys drops requests if and only if one is lost. */
  lemma {:induction false} SplitIds<T>(rs: seq<Req<T>>, gone: seq<Req<T>>)
    requires forall i | 0 <= i < |rs| && Ready(rs[i]) :: KeyIn(rs[i].key, gone)
    ensures KeptIds(rs, gone) <= Ids(rs)
    ensures KeptIds(rs, gone) == Ids(rs) <==> NoneLost(rs, gone)
  {
    if rs != [] {
      var n := |rs| - 1;
      SplitIds(rs[..n], gone);
      KeptStep(rs, gone);
      NoneLostStep(rs, gone);
      OneMore(KeptIds(rs[..n], gone), Ids(rs[..n]), rs[n], !Lost(rs[n], gone));
    }
  }

  /** A part of a multiset that falls behind never catches up. */
  lemma {:induction false} OneMore<T>(part: multiset<nat>, whole: multiset<nat>, r: Req<T>, keep: bool)
    requires part <= whole
    ensures part + OneId(r, keep) <= whole + multiset{r.id}
    ensures part + OneId(r, keep) == whole + multiset{r.id} <==> part == whole && keep
  {
    if keep {
      MoreIds(part, whole, multiset{r.id});
    } else {
      assert part[r.id] <= whole[r.id] < (whole + multiset{r.id})[r.id];
    }
  }

  lemma {:induction false} MoreIds(part: multiset<nat>, whole: multiset<nat>, more: multiset<nat>)
    requires part <= whole
    ensures part + more <= whole + more
    ensures part + more == whole + more <==> part == whole
  {
    if part + more == whole + more {
      assert part == (part + more) - more;
      assert whole == (whole + more) - more;
    }
  }

  /** The same request, perhaps with other blocks. */
  predicate Same<T>(r: Req<T>, f: Req<T>) {
    f.id == r.id && f.key == r.key && f.hDim == r.hDim
  }

  lemma {:induction false} FillAllKeeps<T>(c: Cache<TensorKey, seq<T>>, rs: seq<Req<T>>)
    ensures forall i | 0 <= i < |rs| :: Same(rs[i], FillAll(c, rs).1[i])
  {
    if rs != [] {
      FillAllKeeps(c, rs[..|rs| - 1]);
    }
  }

  ghost predicate KeysDiffer<T>(rs: seq<Req<T>>) {
    forall i, j | 0 <= i < j < |rs| :: rs[i].key != rs[j].key
  }

  /** Both blocks are at hand or cached. */
  predicate Completable<T(==)>(c: Cache<TensorKey, seq<T>>, r: Req<T>) {
    (r.row != [] || Has(c.entries, RowKey(r.key))) && (r.col != [] || Has(c.entries, ColKey(r.key)))
  }

  /** Two saved requests have one key, and only one of them can be completed. */
  ghost predicate Drops<T>(c: Cache<TensorKey, seq<T>>, saved: seq<Req<T>>) {
    exists i, j | 0 <= i < |saved| && 0 <= j < |saved| ::
      saved[i].key == saved[j].key && Completable(c, saved[i]) && !Completable(c, saved[j])
  }

  ghost function NotEmpty<T>(): Law<T> {
    (k: TensorKey, block: seq<T>) => block != []
  }

  /** A saved request is ready after the filling if and only if it can be completed. */
  lemma {:induction false} ReadyIsCompletable<T>(c: Cache<TensorKey, seq<T>>, saved: seq<Req<T>>)
    requires CacheAll(NotEmpty(), c)
    ensures var filled := FillAll(c, saved).1;
            forall i | 0 <= i < |saved| :: Same(saved[i], filled[i]) && (Ready(filled[i]) <==> Completable(c, saved[i]))
  {
    FillEach(NotEmpty(), c, saved);
    var filled := FillAll(c, saved).1;
    forall i | 0 <= i < |saved|
      ensures Same(saved[i], filled[i]) && (Ready(filled[i]) <==> Completable(c, saved[i]))
    {
      assert FilledFrom(NotEmpty(), c, saved[i], filled[i]);
    }
  }

  /** The keys of the requests handed over. */
  lemma {:induction false} KeyInReady<T>(rs: seq<Req<T>>, k: Key)
    ensures KeyIn(k, ReadyOnes(rs)) <==> exists i | 0 <= i < |rs| :: Ready(rs[i]) && rs[i].key == k
  {
    var ready := ReadyOnes(rs);
    if KeyIn(k, ready) {
      var j :| 0 <= j < |ready| && ready[j].key == k;
      assert ready[j] in rs;
    }
    if i :| 0 <= i < |rs| && Ready(rs[i]) && rs[i].key == k {
      ReadyKeyIn(rs, i);
    }
  }

  lemma {:induction false} ErasedExactly<T>(c: Cache<TensorKey, seq<T>>, saved: seq<Req<T>>)
    requires CacheAll(NotEmpty(), c)
    ensures var filled := FillAll(c, saved).1; NoneLost(filled, ReadyOnes(filled)) <==> !Drops(c, saved)
  {
    var filled := FillAll(c, saved).1;
    ReadyIsCompletable(c, saved);
    forall i | 0 <= i < |filled|
      ensures KeyIn(filled[i].key, ReadyOnes(filled))
         <==> exists j | 0 <= j < |filled| :: Ready(filled[j]) && filled[j].key == filled[i].key
    {
      KeyInReady(filled, filled[i].key);
    }
  }

  function AllIds<T>(d: Device<T>): multiset<nat> {
    Ids(d.saved) + Ids(d.gemms)
  }

  lemma {:induction false} SplitReady<T>(rs: seq<Req<T>>)
    ensures KeptIds(rs, ReadyOnes(rs)) <= Ids(rs)
    ensures KeptIds(rs, ReadyOnes(rs)) == Ids(rs) <==> NoneLost(rs, ReadyOnes(rs))
  {
    forall i | 0 <= i < |rs| && Ready(rs[i])
      ensures KeyIn(rs[i].key, ReadyOnes(rs))
    {
      ReadyKeyIn(rs, i);
    }
    SplitIds(rs, ReadyOnes(rs));
  }

  lemma {:induction false} CheckCachedAll<T>(d: Device<T>)
    ensures var filled := FillAll(d.cache, d.saved).1;
            && Ids(filled) == Ids(d.saved)
            && AllIds(CheckCached(d)) == KeptIds(filled, ReadyOnes(filled)) + Ids(d.gemms)
  {
    var filled := FillAll(d.cache, d.saved).1;
    FillAllKeeps(d.cache, d.saved);
    SameIds(d.saved, filled);
    IdsAppend(d.gemms, ReadyOnes(filled));
  }

  lemma {:induction false} CheckCachedIds<T>(d: Device<T>)
    requires CacheAll(NotEmpty(), d.cache)
    ensures AllIds(CheckCached(d)) <= AllIds(d)
    ensures AllIds(CheckCached(d)) == AllIds(d) <==> !Drops(d.cache, d.saved)
  {
    var filled := FillAll(d.cache, d.saved).1;
    CheckCachedAll(d);
    SplitReady(filled);
    ErasedExactly(d.cache, d.saved);
    MoreIds(KeptIds(filled, ReadyOnes(filled)), Ids(filled), Ids(d.gemms));
  }

  /** The cache at the moment the saved requests are checked. */
  function CacheAtCheck<T>(d: Device<T>, r: Req<T>): Cache<TensorKey, seq<T>> {
    AfterFill(CacheBlocks(d.cache, r), r)
  }

  lemma {:induction false} CheckedNotEmpty<T>(d: Device<T>, r: Req<T>)
    requires CacheAll(NotEmpty(), d.cache)
    ensures CacheAll(NotEmpty(), CacheAtCheck(d, r)) && CacheAll(NotEmpty(), HandleMatMul(d, r).cache)
  {
    CacheBlocksAll(NotEmpty(), d.cache, r);
    FillOne(NotEmpty(), CacheBlocks(d.cache, r), r);
    FillEach(NotEmpty(), CacheAtCheck(d, r), d.saved);
  }

  lemma {:induction false} HandleIds<T>(d: Device<T>, r: Req<T>)
    requires CacheAll(NotEmpty(), d.cache)
    ensures AllIds(HandleMatMul(d, r)) <= AllIds(d) + multiset{r.id}
    ensures AllIds(HandleMatMul(d, r)) == AllIds(d) + multiset{r.id} <==> !Drops(CacheAtCheck(d, r), d.saved)
  {
    var c := CacheBlocks(d.cache, r);
    var d0 := d.(cache := AfterFill(c, r));
    var d1 := CheckCached(d0);
    CheckedNotEmpty(d, r);
    CheckCachedIds(d0);
    MoreIds(AllIds(d1), AllIds(d0), multiset{r.id});
    LastId(d1.saved, r.(row := [], col := []), true);
    LastId(d1.gemms, Filled(c, r), true);
  }

  lemma {:induction false} RunNotEmpty<T>(overhead: nat, max: nat, rs: seq<Req<T>>)
    ensures CacheAll(NotEmpty(), Run(overhead, max, rs).cache)
  {
    if rs != [] {
      var n := |rs| - 1;
      RunNotEmpty(overhead, max, rs[..n]);
      CheckedNotEmpty(Run(overhead, max, rs[..n]), rs[n].(id := n));
    }
  }

  lemma {:induction false} RunIds<T>(overhead: nat, max: nat, rs: seq<Req<T>>)
    ensures AllIds(Run(overhead, max, rs)) <= UpTo(|rs|)
  {
    if rs != [] {
      var n := |rs| - 1;
      RunIds(overhead, max, rs[..n]);
      RunNotEmpty(overhead, max, rs[..n]);
      HandleIds(Run(overhead, max, rs[..n]), rs[n].(id := n));
      MoreIds(AllIds(Run(overhead, max, rs[..n])), UpTo(n), multiset{n});
    }
  }

  /** Every request reaches GEMM at most once, and is never both waiting and handed over. */
  lemma {:induction false} AtMostOnce<T>(overhead: nat, max: nat, rs: seq<Req<T>>, x: nat)
    ensures var d := Run(overhead, max, rs);
            Ids(d.gemms)[x] + Ids(d.saved)[x] <= (if x < |rs| then 1 else 0)
  {
    var d := Run(overhead, max, rs);
    RunIds(overhead, max, rs);
    UpToOnce(|rs|, x);
    assert AllIds(d)[x] <= UpTo(|rs|)[x];
  }

  // --------------------------------------------------------------------------
  // Which runs drop a request
  // --------------------------------------------------------------------------

  /** Request r finds two saved requests of one key of which only one can be completed. */
  ghost predicate DropsAt<T>(d: Device<T>, r: Req<T>) {
    Drops(CacheAtCheck(d, r), d.saved)
  }

  ghost predicate NeverDrops<T>(overhead: nat, max: nat, rs: seq<Req<T>>)
    decreases |rs|
  {
    rs == []
    || var n := |rs| - 1;
       NeverDrops(overhead, max, rs[..n]) && !DropsAt(Run(overhead, max, rs[..n]), rs[n].(id := n))
  }

  lemma {:induction false} DropsStep<T>(d: Device<T>, r: Req<T>, n: nat)
    requires CacheAll(NotEmpty(), d.cache) && AllIds(d) <= UpTo(n) && r.id == n
    ensures AllIds(HandleMatMul(d, r)) == UpTo(n + 1) <==> AllIds(d) == UpTo(n) && !DropsAt(d, r)
  {
    HandleIds(d, r);
    Between(AllIds(HandleMatMul(d, r)), AllIds(d), UpTo(n), multiset{n});
  }

  /** In a run every request is handed over once or still waits if and only if the run never drops one. */
  lemma {:induction false} NoneDroppedExactly<T>(overhead: nat, max: nat, rs: seq<Req<T>>)
    ensures AllIds(Run(overhead, max, rs)) == UpTo(|rs|) <==> NeverDrops(overhead, max, rs)
    decreases |rs|
  {
    if rs != [] {
      var n := |rs| - 1;
      var d, r := Run(overhead, max, rs[..n]), rs[n].(id := n);
      assert Run(overhead, max, rs) == HandleMatMul(d, r);
      NoneDroppedExactly(overhead, max, rs[..n]);
      RunNotEmpty(overhead, max, rs[..n]);
      RunIds(overhead, max, rs[..n]);
      DropsStep(d, r, n);
    }
  }

  lemma {:induction false} Between(low: multiset<nat>, mid: multiset<nat>, high: multiset<nat>, more: multiset<nat>)
    requires low <= mid + more && mid <= high
    ensures low == high + more <==> low == mid + more && mid == high
  {
    MoreIds(mid, high, more);
  }

  // --------------------------------------------------------------------------
  // Requests of different keys
  // --------------------------------------------------------------------------

  /** A request on the device is one that arrived, under its own key. */
  ghost predicate Arrived<T>(rs: seq<Req<T>>, r: Req<T>) {
    r.id < |rs| && r.key == rs[r.id].key && r.hDim == rs[r.id].hDim
  }

  ghost predicate AllArrived<T>(rs: seq<Req<T>>, qs: seq<Req<T>>) {
    forall i | 0 <= i < |qs| :: Arrived(rs, qs[i])
  }

  lemma {:induction false} RemainingDiffer<T>(rs: seq<Req<T>>, gone: seq<Req<T>>)
    requires KeysDiffer(rs)
    ensures KeysDiffer(Remaining(rs, gone))
  {
    if rs != [] {
      var n := |rs| - 1;
      RemainingDiffer(rs[..n], gone);
      var rest := Remaining(rs[..n], gone);
      forall i | 0 <= i < |rest|
        ensures rest[i].key != rs[n].key
      {
        assert rest[i] in rs[..n];
      }
    }
  }

  lemma {:induction false} PickArrived<T>(rs: seq<Req<T>>, qs: seq<Req<T>>, part: seq<Req<T>>)
    requires AllArrived(rs, qs) && forall i | 0 <= i < |part| :: part[i] in qs
    ensures AllArrived(rs, part)
  {
    forall i | 0 <= i < |part|
      ensures Arrived(rs, part[i])
    {
      var j :| 0 <= j < |qs| && qs[j] == part[i];
    }
  }

  lemma {:induction false} CheckCachedArrived<T>(rs: seq<Req<T>>, d: Device<T>)
    requires AllArrived(rs, d.saved) && AllArrived(rs, d.gemms)
    ensures AllArrived(rs, CheckCached(d).saved) && AllArrived(rs, CheckCached(d).gemms)
    ensures KeysDiffer(d.saved) ==> KeysDiffer(CheckCached(d).saved)
  {
    var filled := FillAll(d.cache, d.saved).1;
    FillAllKeeps(d.cache, d.saved);
    forall i | 0 <= i < |filled|
      ensures Arrived(rs, filled[i])
    {
      assert Arrived(rs, d.saved[i]);
    }
    PickArrived(rs, filled, ReadyOnes(filled));
    PickArrived(rs, filled, Remaining(filled, ReadyOnes(filled)));
    if KeysDiffer(d.saved) {
      RemainingDiffer(filled, ReadyOnes(filled));
    }
  }

  lemma {:induction false} MoreArrived<T>(rs: seq<Req<T>>, n: nat, qs: seq<Req<T>>)
    requires n <= |rs| && AllArrived(rs[..n], qs)
    ensures AllArrived(rs, qs)
  {
    forall i | 0 <= i < |qs|
      ensures Arrived(rs, qs[i])
    {
      assert Arrived(rs[..n], qs[i]);
    }
  }

  /** What reaches GEMM is a request that arrived. */
  lemma {:induction false} OnlyArrivals<T>(overhead: nat, max: nat, rs: seq<Req<T>>)
    ensures AllArrived(rs, Run(overhead, max, rs).saved) && AllArrived(rs, Run(overhead, max, rs).gemms)
    ensures KeysDiffer(rs) ==> KeysDiffer(Run(overhead, max, rs).saved)
  {
    if rs != [] {
      var n := |rs| - 1;
      var d, r := Run(overhead, max, rs[..n]), rs[n].(id := n);
      OnlyArrivals(overhead, max, rs[..n]);
      MoreArrived(rs, n, d.saved);
      MoreArrived(rs, n, d.gemms);
      HandleArrived(rs[..n], rs, d, r);
    }
  }

  lemma {:induction false} HandleArrived<T>(before: seq<Req<T>>, rs: seq<Req<T>>, d: Device<T>, r: Req<T>)
    requires AllArrived(before, d.saved) && AllArrived(rs, d.saved) && AllArrived(rs, d.gemms) && Arrived(rs, r)
    ensures AllArrived(rs, HandleMatMul(d, r).saved) && AllArrived(rs, HandleMatMul(d, r).gemms)
    ensures KeysDiffer(d.saved) && (forall i | 0 <= i < |before| :: before[i].key != r.key) ==>
              KeysDiffer(HandleMatMul(d, r).saved)
  {
    var c := CacheBlocks(d.cache, r);
    var d1 := d.(cache := AfterFill(c, r));
    CheckCachedArrived(rs, d1);
    SavedSubset(before, d1);
  }

  lemma {:induction false} SavedSubset<T>(before: seq<Req<T>>, d: Device<T>)
    requires AllArrived(before, d.saved)
    ensures AllArrived(before, CheckCached(d).saved)
  {
    CheckCachedArrived(before, d.(gemms := []));
  }

  lemma {:induction false} KeysDifferNeverDrops<T>(overhead: nat, max: nat, rs: seq<Req<T>>)
    requires KeysDiffer(rs)
    ensures NeverDrops(overhead, max, rs)
    decreases |rs|
  {
    if rs != [] {
      var n := |rs| - 1;
      KeysDifferNeverDrops(overhead, max, rs[..n]);
      OnlyArrivals(overhead, max, rs[..n]);
      DifferDropsNone(Run(overhead, max, rs[..n]), rs[n].(id := n));
    }
  }

  lemma {:induction false} DifferDropsNone<T>(d: Device<T>, r: Req<T>)
    requires KeysDiffer(d.saved)
    ensures !DropsAt(d, r)
  {
  }

  /** If no two requests have the same key, none is dropped. */
  lemma {:induction false} NoneDropped<T>(overhead: nat, max: nat, rs: seq<Req<T>>)
    requires KeysDiffer(rs)
    ensures AllIds(Run(overhead, max, rs)) == UpTo(|rs|)
  {
    KeysDifferNeverDrops(overhead, max, rs);
    NoneDroppedExactly(overhead, max, rs);
  }
}
