/** The device as it runs: a cache object, a list of saved requests, and loops over them. */
module ProxyClient {
  import opened Keys
  import opened Lru
  import opened LruCaches
  import opened DeviceCache

  lemma {:induction false} FillAllNext<T>(c: Cache<TensorKey, seq<T>>, rs: seq<Req<T>>, i: nat)
    requires i < |rs|
    ensures var (c1, done) := FillAll(c, rs[..i]);
            FillAll(c, rs[..i + 1]) == (AfterFill(c1, rs[i]), done + [Filled(c1, rs[i])])
  {
    assert rs[..i + 1][..i] == rs[..i];
  }

  lemma {:induction false} InPlace<R>(filled: seq<R>, saved: seq<R>, i: nat, r: R)
    requires i < |saved| && |filled| == i
    ensures (filled + saved[i..])[i] == saved[i]
    ensures (filled + saved[i..])[i := r] == filled + [r] + saved[i + 1..]
  {
  }

  lemma {:induction false} ReadyNext<T>(rs: seq<Req<T>>, r: Req<T>)
    ensures ReadyOnes(rs + [r]) == ReadyOnes(rs) + (if Ready(r) then [r] else [])
  {
    assert (rs + [r])[..|rs|] == rs;
  }

  /** The first i saved requests are filled: where the cache, the list and the handed-over requests then are. */
  ghost predicate Progress<T>(c: Cache<TensorKey, seq<T>>, saved: seq<Req<T>>, i: nat,
                              now: Cache<TensorKey, seq<T>>, parts: seq<Req<T>>, done: seq<Req<T>>)
  {
    && i <= |saved| == |parts|
    && now == FillAll(c, saved[..i]).0
    && parts == FillAll(c, saved[..i]).1 + saved[i..]
    && done == ReadyOnes(FillAll(c, saved[..i]).1)
  }

  lemma {:induction false} ProgressStep<T>(c: Cache<TensorKey, seq<T>>, saved: seq<Req<T>>, i: nat,
                        now: Cache<TensorKey, seq<T>>, parts: seq<Req<T>>, done: seq<Req<T>>)
    requires Progress(c, saved, i, now, parts, done) && i < |saved|
    ensures var r := Filled(now, parts[i]);
            Progress(c, saved, i + 1, AfterFill(now, parts[i]), parts[i := r], done + (if Ready(r) then [r] else []))
  {
    FillAllNext(c, saved, i);
    var filled, r := FillAll(c, saved[..i]).1, Filled(now, saved[i]);
    InPlace(filled, saved, i, r);
    ReadyNext(filled, r);
  }

  lemma {:induction false} ProgressEnd<T>(c: Cache<TensorKey, seq<T>>, saved: seq<Req<T>>,
                       now: Cache<TensorKey, seq<T>>, parts: seq<Req<T>>, done: seq<Req<T>>)
    requires Progress(c, saved, |saved|, now, parts, done)
    ensures (now, parts) == FillAll(c, saved) && done == ReadyOnes(parts)
  {
    assert saved[..|saved|] == saved;
    assert parts == FillAll(c, saved).1;
  }

  lemma {:induction false} RemainingNext<T>(rs: seq<Req<T>>, r: Req<T>, gone: seq<Req<T>>)
    ensures Remaining(rs + [r], gone) == Remaining(rs, gone) + (if KeyIn(r.key, gone) then [] else [r])
  {
    assert (rs + [r])[..|rs|] == rs;
  }

  class ProxyCli<T(==)> {
    const cachedTensors: FixSizeLruCache<TensorKey, seq<T>>
    var cachedPartitions: seq<Req<T>>
    var handled: seq<Req<T>>

    ghost predicate Valid()
      reads this, cachedTensors
    {
      cachedTensors.Valid()
    }

    ghost function State(): Device<T>
      requires Valid()
      reads this, cachedTensors
    {
      Device(cachedTensors.State(), cachedPartitions, handled)
    }

    constructor (overhead: nat, maxBytes: nat)
      ensures Valid() && fresh(cachedTensors)
      ensures State() == Device(Cache(overhead, maxBytes, [], []), [], [])
    {
      cachedTensors := new FixSizeLruCache(overhead, maxBytes);
      cachedPartitions, handled := [], [];
    }

    method Store(key: TensorKey, block: seq<T>, hDim: int)
      requires Valid()
      modifies cachedTensors
      ensures Valid() && cachedTensors.State() == CacheTensor(old(cachedTensors.State()), key, block, hDim)
    {
      LinkedHas(cachedTensors.lru, cachedTensors.cache, key);
      if cachedTensors.Exist(key) || block == [] || hDim <= 0 {
        return;
      }
      cachedTensors.Put(key, block, FLOAT_BYTES * |block|);
    }

    method Fetch(key: TensorKey, cached: bool, block: seq<T>) returns (found: seq<T>)
      requires Valid() && cached == Has(cachedTensors.State().entries, key)
      modifies cachedTensors
      ensures Valid() && cachedTensors.State() == UseKey(old(cachedTensors.State()), key)
      ensures found == Lookup(old(cachedTensors.State()), key, block)
      ensures cachedTensors.cache == old(cachedTensors.cache)
    {
      HasIsHaving(cachedTensors.State().entries, key);
      if cached {
        var ok, value := cachedTensors.Get(key, block);
        return value;
      }
      return block;
    }

    method FillPartition(r: Req<T>) returns (filled: Req<T>)
      requires Valid()
      modifies cachedTensors
      ensures Valid() && cachedTensors.State() == AfterFill(old(cachedTensors.State()), r)
      ensures filled == Filled(old(cachedTensors.State()), r)
      ensures cachedTensors.cache == old(cachedTensors.cache)
    {
      LinkedHas(cachedTensors.lru, cachedTensors.cache, RowKey(r.key));
      var rowCached, colCached := cachedTensors.Exist(RowKey(r.key)), cachedTensors.Exist(ColKey(r.key));
      var row := Fetch(RowKey(r.key), rowCached, r.row);
      LinkedHas(cachedTensors.lru, cachedTensors.cache, ColKey(r.key));
      var col := Fetch(ColKey(r.key), colCached, r.col);
      filled := r.(row := row, col := col);
    }

    /** Fills saved request i in place and hands it over if it is complete. */
    method FillOne(i: nat) returns (done: seq<Req<T>>)
      requires Valid() && i < |cachedPartitions|
      modifies this, cachedTensors
      ensures Valid() && cachedTensors.State() == AfterFill(old(cachedTensors.State()), old(cachedPartitions)[i])
      ensures cachedPartitions == old(cachedPartitions)[i :=
              Filled(old(cachedTensors.State()), old(cachedPartitions)[i])]
      ensures done == (if Ready(cachedPartitions[i]) then [cachedPartitions[i]] else [])
              && handled == old(handled) + done
    {
      var r := FillPartition(cachedPartitions[i]);
      cachedPartitions := cachedPartitions[i := r];
      done := [];
      if r.row != [] && r.col != [] {
        handled := handled + [r];
        done := [r];
      }
    }

    /** Fills the saved requests in place and hands over those that are complete; `done` are the ones handed over. */
    method FillSaved() returns (done: seq<Req<T>>)
      requires Valid()
      modifies this, cachedTensors
      ensures Valid() && cachedTensors.State() == FillAll(old(cachedTensors.State()), old(cachedPartitions)).0
      ensures cachedPartitions == FillAll(old(cachedTensors.State()), old(cachedPartitions)).1
      ensures done == ReadyOnes(cachedPartitions) && handled == old(handled) + done
    {
      done := [];
      ghost var c, saved := cachedTensors.State(), cachedPartitions;
      for i := 0 to |cachedPartitions|
        invariant Valid() && Progress(c, saved, i, cachedTensors.State(), cachedPartitions, done)
        invariant handled == old(handled) + done
      {
        ProgressStep(c, saved, i, cachedTensors.State(), cachedPartitions, done);
        var more := FillOne(i);
        done := done + more;
      }
      ProgressEnd(c, saved, cachedTensors.State(), cachedPartitions, done);
    }

    /** Erases the saved requests whose key is among those of `done`. */
    method EraseKeys(done: seq<Req<T>>)
      modifies this`cachedPartitions
      ensures cachedPartitions == Remaining(old(cachedPartitions), done)
    {
      var saved, kept: seq<Req<T>> := cachedPartitions, [];
      for i := 0 to |saved|
        invariant kept == Remaining(saved[..i], done)
      {
        assert saved[..i + 1] == saved[..i] + [saved[i]];
        RemainingNext(saved[..i], saved[i], done);
        if !KeyIn(saved[i].key, done) {
          kept := kept + [saved[i]];
        }
      }
      assert saved[..|saved|] == saved;
      cachedPartitions := kept;
    }

    method CheckCachedPartition()
      requires Valid()
      modifies this, cachedTensors
      ensures Valid() && State() == CheckCached(old(State()))
    {
      var done := FillSaved();
      EraseKeys(done);
    }

    method Handle(r: Req<T>)
      requires Valid()
      modifies this, cachedTensors
      ensures Valid() && State() == HandleMatMul(old(State()), r)
    {
      Store(RowKey(r.key), r.row, r.hDim);
      Store(ColKey(r.key), r.col, r.hDim);
      LinkedHas(cachedTensors.lru, cachedTensors.cache, RowKey(r.key));
      LinkedHas(cachedTensors.lru, cachedTensors.cache, ColKey(r.key));
      var rowCached, colCached := cachedTensors.Exist(RowKey(r.key)), cachedTensors.Exist(ColKey(r.key));
      var filled := FillPartition(r);
      CheckCachedPartition();
      if (r.row == [] && !rowCached) || (r.col == [] && !colCached) {
        cachedPartitions := cachedPartitions + [r.(row := [], col := [])];
        return;
      }
      handled := handled + [filled];
    }
  }
}
