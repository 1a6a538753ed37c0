/** The caches as they run: a list of keys and a map, updated in place. */
module LruCaches {
  import opened Sequences
  import opened Lru

  /** The entries a list of keys and a map of values stand for. */
  function Zip<K(==), V>(lru: seq<K>, cache: map<K, (V, nat)>): (es: seq<Entry<K, V>>)
    requires forall i | 0 <= i < |lru| :: lru[i] in cache
    ensures |es| == |lru|
  {
    seq(|lru|, i requires 0 <= i < |lru| => Entry(lru[i], cache[lru[i]].0, cache[lru[i]].1))
  }

  /** List and map hold the same keys, each once. */
  ghost predicate Linked<K, V>(lru: seq<K>, cache: map<K, (V, nat)>) {
    && NoRepeat(lru)
    && (forall i | 0 <= i < |lru| :: lru[i] in cache)
    && (forall k | k in cache :: k in lru)
  }

  /** Erasing a key from the list and the map erases its entry. */
  lemma {:induction false} ZipErase<K, V>(lru: seq<K>, cache: map<K, (V, nat)>, k: K)
    requires NoRepeat(lru) && forall i | 0 <= i < |lru| :: lru[i] in cache
    ensures forall i | 0 <= i < |Drop(lru, k)| :: Drop(lru, k)[i] in cache - {k}
    ensures Zip(Drop(lru, k), cache - {k}) == Without(Zip(lru, cache), k)
    ensures Having(Zip(lru, cache), k) == if k in lru then [Entry(k, cache[k].0, cache[k].1)] else []
  {
    if lru != [] {
      var es, rest := Zip(lru, cache), lru[1..];
      assert es[1..] == Zip(rest, cache);
      ZipErase(rest, cache, k);
      assert lru == [lru[0]] + rest && lru[0] !in rest;
      if lru[0] == k {
        DropMissing(rest, k);
        assert Zip(rest, cache - {k}) == Zip(rest, cache);
      }
    }
  }

  lemma {:induction false} LinkedErase<K, V>(lru: seq<K>, cache: map<K, (V, nat)>, k: K)
    requires Linked(lru, cache)
    ensures Linked(Drop(lru, k), cache - {k})
  {
    DropNoRepeat(lru, k);
    DropKeeps(lru, k);
    ZipErase(lru, cache, k);
  }

  lemma {:induction false} DropKeeps<K>(ks: seq<K>, k: K)
    ensures forall x | x in ks && x != k :: x in Drop(ks, k)
  {
    if ks != [] {
      DropKeeps(ks[1..], k);
      assert ks == [ks[0]] + ks[1..];
    }
  }

  /** A new key at the recent end. */
  lemma {:induction false} ZipAppend<K, V>(lru: seq<K>, cache: map<K, (V, nat)>, k: K, v: V, size: nat)
    requires Linked(lru, cache) && k !in cache
    ensures Linked(lru + [k], cache[k := (v, size)])
    ensures Zip(lru + [k], cache[k := (v, size)]) == Zip(lru, cache) + [Entry(k, v, size)]
  {
    assert k !in lru;
  }

  lemma {:induction false} LinkedHas<K, V>(lru: seq<K>, cache: map<K, (V, nat)>, k: K)
    requires Linked(lru, cache)
    ensures Has(Zip(lru, cache), k) <==> k in cache
  {
    if k in cache {
      var i :| 0 <= i < |lru| && lru[i] == k;
      assert Zip(lru, cache)[i].key == k;
    }
  }

  lemma {:induction false} FirstOut<K, V>(es: seq<Entry<K, V>>)
    requires es != []
    ensures Without(es, es[0].key) == es[1..] && Having(es, es[0].key) == [es[0]]
  {
  }

  /** While the item does not fit, one more of the oldest entries has to go. */
  lemma {:induction false} OneMore<K, V>(es: seq<Entry<K, V>>, n: nat, overhead: nat, item: nat, max: nat)
    requires n < |es| && Bytes(es[n..], overhead) + item > max
    ensures Overflow(es[n..], overhead, item, max) == 1 + Overflow(es[n + 1..], overhead, item, max)
    ensures es[n..][1..] == es[n + 1..] && es[..n + 1] == es[..n] + [es[n]] && es[n..][0] == es[n]
  {
    assert es[n..][1..] == es[n + 1..];
  }

  /** `departed` lists the deleter's calls; `maxBytes` and sizes are counts of bytes. */
  class FixSizeLruCache<K(==), V> {
    const overhead: nat
    const maxBytes: nat
    var lru: seq<K>
    var cache: map<K, (V, nat)>
    var currentBytes: nat
    var departed: seq<Entry<K, V>>

    ghost predicate Valid()
      reads this
    {
      Linked(lru, cache) && currentBytes == Bytes(Zip(lru, cache), overhead)
    }

    ghost function State(): Cache<K, V>
      requires Valid()
      reads this
    {
      Cache(overhead, maxBytes, Zip(lru, cache), departed)
    }

    constructor (overhead: nat, maxBytes: nat)
      ensures Valid() && State() == Cache(overhead, maxBytes, [], [])
      ensures this.overhead == overhead && this.maxBytes == maxBytes
    {
      this.overhead, this.maxBytes := overhead, maxBytes;
      lru, cache, currentBytes, departed := [], map[], 0, [];
    }

    /** Takes a key out of the list and the map, and calls the deleter. */
    method Erase(k: K)
      requires Valid() && k in cache
      modifies this
      ensures Valid()
      ensures Zip(lru, cache) == Without(old(State()).entries, k) && cache == old(cache) - {k}
      ensures departed == old(departed) + Having(old(State()).entries, k)
    {
      ghost var es := Zip(lru, cache);
      assert k in lru;
      ZipErase(lru, cache, k);
      LinkedErase(lru, cache, k);
      BytesWithout(es, k, overhead);
      var (v, size) := cache[k];
      assert [Entry(k, v, size)][1..] == [];
      currentBytes := currentBytes - (overhead + size);
      lru := Drop(lru, k);
      departed := departed + [Entry(k, v, size)];
      cache := cache - {k};
    }

    /** Drops the oldest entries until `item` more bytes fit or none is left. */
    method Evict(item: nat)
      requires Valid()
      modifies this
      ensures Valid() && forall k | k in cache :: k in old(cache)
      ensures var es := old(State()).entries;
              var n := Overflow(es, overhead, item, maxBytes);
              Zip(lru, cache) == es[n..] && departed == old(departed) + es[..n]
    {
      ghost var es, n := Zip(lru, cache), 0;
      while currentBytes + item > maxBytes && lru != []
        invariant Valid() && n <= |es| && Zip(lru, cache) == es[n..]
        invariant departed == old(departed) + es[..n]
        invariant Overflow(es, overhead, item, maxBytes) == n + Overflow(es[n..], overhead, item, maxBytes)
        invariant forall k | k in cache :: k in old(cache)
        decreases |lru|
      {
        var oldest := lru[0];
        FirstOut(es[n..]);
        OneMore(es, n, overhead, item, maxBytes);
        Erase(oldest);
        n := n + 1;
      }
    }

    method Append(key: K, value: V, valueSize: nat)
      requires Valid() && key !in cache
      modifies this`lru, this`cache, this`currentBytes
      ensures Valid() && Zip(lru, cache) == old(State()).entries + [Entry(key, value, valueSize)]
    {
      ZipAppend(lru, cache, key, value, valueSize);
      BytesSplit(Zip(lru, cache), [Entry(key, value, valueSize)], overhead);
      assert [Entry(key, value, valueSize)][1..] == [];
      lru := lru + [key];
      cache := cache[key := (value, valueSize)];
      currentBytes := currentBytes + (overhead + valueSize);
    }

    method Put(key: K, value: V, valueSize: nat)
      requires Valid()
      modifies this
      ensures Valid() && State() == Lru.Put(old(State()), Entry(key, value, valueSize))
    {
      Replace(key);
      Evict(overhead + valueSize);
      Append(key, value, valueSize);
    }

    /** Takes out the value a Put replaces, if there is one. */
    method Replace(key: K)
      requires Valid()
      modifies this
      ensures Valid() && key !in cache
      ensures Zip(lru, cache) == Without(old(State()).entries, key)
      ensures departed == old(departed) + Having(old(State()).entries, key)
    {
      if key in cache {
        Erase(key);
      } else {
        ZipErase(lru, cache, key);
        HavingFinds(Zip(lru, cache), key);
      }
    }

    predicate Exist(key: K)
      reads this
    {
      key in cache
    }

    /** Moves the entry to the recent end; `found` is false where the original throws. */
    method Get(key: K, otherwise: V) returns (found: bool, value: V)
      requires Valid()
      modifies this
      ensures Valid() && found == Has(old(State()).entries, key)
      ensures State() == if found then Touch(old(State()), key) else old(State())
      ensures found ==> Having(old(State()).entries, key) == [Entry(key, value, old(cache)[key].1)]
      ensures !found ==> value == otherwise
      ensures cache == old(cache) && departed == old(departed)
    {
      LinkedHas(lru, cache, key);
      if key !in cache {
        return false, otherwise;
      }
      assert key in lru;
      ZipErase(lru, cache, key);
      LinkedErase(lru, cache, key);
      var (v, size) := cache[key];
      ZipAppend(Drop(lru, key), cache - {key}, key, v, size);
      assert (cache - {key})[key := (v, size)] == cache;
      BytesWithout(Zip(lru, cache), key, overhead);
      BytesSplit(Without(Zip(lru, cache), key), Having(Zip(lru, cache), key), overhead);
      lru := Drop(lru, key) + [key];
      return true, v;
    }
  }

  /** Bounded by a number of entries; the original is only meaningful for a positive capacity. */
  class FixCapLruCache<K(==), V> {
    const capacity: nat
    var lru: seq<K>
    var cache: map<K, (V, nat)>

    ghost predicate Valid()
      reads this
    {
      capacity > 0 && Linked(lru, cache)
    }

    ghost function Contents(): seq<Entry<K, V>>
      requires Valid()
      reads this
    {
      Zip(lru, cache)
    }

    constructor (capacity: nat)
      requires capacity > 0
      ensures Valid() && Contents() == [] && this.capacity == capacity
    {
      this.capacity := capacity;
      lru, cache := [], map[];
    }

    method Put(key: K, value: V)
      requires Valid()
      modifies this
      ensures Valid() && Contents() == CapPut(old(Contents()), capacity, Entry(key, value, 0))
    {
      LinkedHas(lru, cache, key);
      LinkedSize(lru, cache);
      if key in cache {
        EraseKey(key);
      } else if |cache| == capacity {
        FirstOut(Zip(lru, cache));
        EraseKey(lru[0]);
      }
      ZipAppend(lru, cache, key, value, 0);
      lru := lru + [key];
      cache := cache[key := (value, 0)];
    }

    /** Moves the entry to the recent end; `found` is false where the original throws. */
    method Get(key: K, otherwise: V) returns (found: bool, value: V)
      requires Valid()
      modifies this`lru
      ensures Valid() && found == Has(old(Contents()), key)
      ensures Contents() == (if found then Without(old(Contents()), key) + Having(old(Contents()), key)
              else old(Contents()))
      ensures found ==> Having(old(Contents()), key) == [Entry(key, value, cache[key].1)]
      ensures !found ==> value == otherwise
    {
      LinkedHas(lru, cache, key);
      if key !in cache {
        return false, otherwise;
      }
      ZipErase(lru, cache, key);
      LinkedErase(lru, cache, key);
      var (v, size) := cache[key];
      ZipAppend(Drop(lru, key), cache - {key}, key, v, size);
      assert (cache - {key})[key := (v, size)] == cache;
      lru := Drop(lru, key) + [key];
      return true, v;
    }

    method EraseKey(k: K)
      requires Valid() && k in cache
      modifies this
      ensures Valid() && cache == old(cache) - {k} && Contents() == Without(old(Contents()), k)
    {
      ZipErase(lru, cache, k);
      LinkedErase(lru, cache, k);
      lru := Drop(lru, k);
      cache := cache - {k};
    }
  }

  lemma {:induction false} LinkedSize<K, V>(lru: seq<K>, cache: map<K, (V, nat)>)
    requires Linked(lru, cache)
    ensures |lru| == |cache|
  {
    if lru == [] {
      assert forall k :: k !in cache;
      assert cache == map[];
    } else {
      FirstOut(Zip(lru, cache));
      LinkedErase(lru, cache, lru[0]);
      LinkedSize(Drop(lru, lru[0]), cache - {lru[0]});
      assert |cache - {lru[0]}| == |cache| - 1 by {
        assert cache.Keys == (cache - {lru[0]}).Keys + {lru[0]};
      }
    }
  }
}
