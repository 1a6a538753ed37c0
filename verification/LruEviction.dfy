/** What leaves the caches and what stays, by the entries themselves. */
module LruEviction {
  import opened Lru

  // --------------------------------------------------------------------------
  // Nothing leaves without need
  // --------------------------------------------------------------------------

  /** Where the entry for k is, or past the end. */
  function Place<K(==), V>(es: seq<Entry<K, V>>, k: K): (at: nat)
    ensures at <= |es| && (at < |es| ==> es[at].key == k) && forall i | 0 <= i < at :: es[i].key != k
  {
    if es == [] || es[0].key == k then 0 else 1 + Place(es[1..], k)
  }

  /** The entries for other keys, in their order. */
  function Others<K(==), V>(es: seq<Entry<K, V>>, k: K): seq<Entry<K, V>> {
    var at := Place(es, k);
    if at < |es| then es[..at] + es[at + 1..] else es
  }

  function Same<K(==), V>(es: seq<Entry<K, V>>, k: K): seq<Entry<K, V>> {
    var at := Place(es, k);
    if at < |es| then [es[at]] else []
  }

  lemma {:induction false} WithoutIsOthers<K, V>(es: seq<Entry<K, V>>, k: K)
    ensures Without(es, k) == Others(es, k) && Having(es, k) == Same(es, k)
  {
    if es != [] && es[0].key != k {
      WithoutIsOthers(es[1..], k);
      var at := Place(es[1..], k);
      assert es == [es[0]] + es[1..];
      if at < |es| - 1 {
        assert es[..at + 1] == [es[0]] + es[1..][..at];
        assert es[at + 2..] == es[1..][at + 1..];
      }
    }
  }

  /**
   Storing e replaced the entry for its key and evicted `gone`, the oldest of the others, where keeping
   any one of them with everything newer would exceed the limit.
   */
  ghost predicate EvictedLeast<K, V>(c: Cache<K, V>, e: Entry<K, V>, c': Cache<K, V>, gone: seq<Entry<K, V>>) {
    && c'.entries != [] && c'.entries[|c'.entries| - 1] == e
    && c'.departed == c.departed + Same(c.entries, e.key) + gone
    && Others(c.entries, e.key) == gone + c'.entries[..|c'.entries| - 1]
    && (forall i | 0 <= i < |gone| :: Bytes(gone[i..] + c'.entries, c.overhead) > c.max)
  }

  /** Keeping an evicted entry, and everything newer, with the new one. */
  lemma {:induction false} KeptExceeds<K, V>(kept: seq<Entry<K, V>>, overhead: nat, max: nat, e: Entry<K, V>, n: nat,
                                             i: nat)
    requires n == Overflow(kept, overhead, overhead + e.size, max) && i < n
    ensures Bytes(kept[..n][i..] + (kept[n..] + [e]), overhead) > max
  {
    assert kept[..n][i..] + (kept[n..] + [e]) == kept[i..] + [e];
    BytesSplit(kept[i..], [e], overhead);
    assert [e][1..] == [];
  }

  /** Nor does anything leave when all fit. */
  lemma {:induction false} AllFit<K, V>(kept: seq<Entry<K, V>>, overhead: nat, max: nat, e: Entry<K, V>)
    requires Bytes(kept + [e], overhead) <= max
    ensures Overflow(kept, overhead, overhead + e.size, max) == 0
  {
    BytesSplit(kept, [e], overhead);
    assert [e][1..] == [];
  }

  /** A put evicts the oldest others, and no more of them than it has to. */
  lemma {:induction false} PutEvictsLeast<K, V>(c: Cache<K, V>, e: Entry<K, V>) returns (gone: seq<Entry<K, V>>)
    ensures EvictedLeast(c, e, Put(c, e), gone)
    ensures Bytes(Others(c.entries, e.key) + [e], c.overhead) <= c.max ==> gone == []
  {
    var kept := Without(c.entries, e.key);
    var n := Overflow(kept, c.overhead, c.overhead + e.size, c.max);
    gone := kept[..n];
    WithoutIsOthers(c.entries, e.key);
    var stay := kept[n..] + [e];
    assert kept == gone + stay[..|stay| - 1];
    forall i | 0 <= i < |gone|
      ensures Bytes(gone[i..] + stay, c.overhead) > c.max
    {
      KeptExceeds(kept, c.overhead, c.max, e, n, i);
    }
    if Bytes(kept + [e], c.overhead) <= c.max {
      AllFit(kept, c.overhead, c.max, e);
    }
  }

  /** The same at every store of every run. */
  lemma {:induction false} RunEvictsLeast<K, V>(overhead: nat, max: nat, ops: seq<Op<K, V>>, n: nat)
      returns (gone: seq<Entry<K, V>>)
    requires n < |ops| && ops[n].Store?
    ensures EvictedLeast(Run(overhead, max, ops[..n]), ops[n].e, Run(overhead, max, ops[..n + 1]), gone)
    ensures Bytes(Others(Run(overhead, max, ops[..n]).entries, ops[n].e.key) + [ops[n].e], overhead) <= max
            ==> gone == []
  {
    assert ops[..n + 1][..n] == ops[..n];
    RunOk(overhead, max, ops[..n]);
    gone := PutEvictsLeast(Run(overhead, max, ops[..n]), ops[n].e);
  }

  // --------------------------------------------------------------------------
  // The last value stored is the one held
  // --------------------------------------------------------------------------

  /** The last entry stored for a key, if any. */
  function LastStored<K(==), V>(ops: seq<Op<K, V>>, k: K): seq<Entry<K, V>> {
    if ops == [] then []
    else
      var op := ops[|ops| - 1];
      if op.Store? && op.e.key == k then [op.e] else LastStored(ops[..|ops| - 1], k)
  }

  ghost predicate Latest<K, V>(es: seq<Entry<K, V>>, ops: seq<Op<K, V>>) {
    forall i | 0 <= i < |es| :: LastStored(ops, es[i].key) == [es[i]]
  }

  lemma {:induction false} LatestKept<K, V>(es: seq<Entry<K, V>>, ops: seq<Op<K, V>>, es': seq<Entry<K, V>>,
                                            op: Op<K, V>)
    requires Latest(es, ops)
    requires forall x :: x in es' ==> (op.Store? && x == op.e) || (x in es && (op.Store? ==> x.key != op.e.key))
    ensures Latest(es', ops + [op])
  {
    assert (ops + [op])[..|ops|] == ops;
    forall i | 0 <= i < |es'|
      ensures LastStored(ops + [op], es'[i].key) == [es'[i]]
    {
      assert es'[i] in es';
    }
  }

  lemma {:induction false} TouchSame<K, V>(es: seq<Entry<K, V>>, k: K)
    ensures forall x :: x in Without(es, k) + Having(es, k) ==> x in es
  {
    WithoutSplits(es, k);
    forall x | x in Without(es, k) + Having(es, k)
      ensures x in es
    {
      assert x in multiset(es);
    }
  }

  lemma {:induction false} OthersKeys<K, V>(es: seq<Entry<K, V>>, k: K)
    requires Distinct(es)
    ensures forall x :: x in Without(es, k) ==> x in es && x.key != k
  {
    WithoutKeeps(es, k);
    forall x | x in Without(es, k)
      ensures x.key != k
    {
      var i :| 0 <= i < |Without(es, k)| && Without(es, k)[i] == x;
    }
  }

  /** In every run each entry of the byte-bounded cache is the last one stored for its key. */
  lemma {:induction false} HoldsLastStored<K, V>(overhead: nat, max: nat, ops: seq<Op<K, V>>)
    ensures Latest(Run(overhead, max, ops).entries, ops)
  {
    if ops != [] {
      var before, op := ops[..|ops| - 1], ops[|ops| - 1];
      HoldsLastStored(overhead, max, before);
      RunOk(overhead, max, before);
      var c := Run(overhead, max, before);
      if op.Store? {
        OthersKeys(c.entries, op.e.key);
      } else {
        TouchSame(c.entries, op.k);
      }
      LatestKept(c.entries, before, Run(overhead, max, ops).entries, op);
      assert before + [op] == ops;
    }
  }

  lemma {:induction false} CapPutDistinct<K, V>(es: seq<Entry<K, V>>, capacity: nat, e: Entry<K, V>)
    requires Distinct(es)
    ensures Distinct(CapPut(es, capacity, e))
    ensures forall x :: x in CapPut(es, capacity, e) ==> x == e || (x in es && x.key != e.key)
  {
    if Has(es, e.key) {
      WithoutKeeps(es, e.key);
      OthersKeys(es, e.key);
    }
  }

  /** And so is each entry of the cache bounded by a number of entries. */
  lemma {:induction false} CapHoldsLastStored<K, V>(capacity: nat, ops: seq<Op<K, V>>)
    ensures Distinct(CapRun(capacity, ops)) && Latest(CapRun(capacity, ops), ops)
  {
    if ops != [] {
      var before, op := ops[..|ops| - 1], ops[|ops| - 1];
      CapHoldsLastStored(capacity, before);
      var es := CapRun(capacity, before);
      if op.Store? {
        CapPutDistinct(es, capacity, op.e);
      } else {
        TouchSame(es, op.k);
        TouchDistinct(es, op.k);
      }
      LatestKept(es, before, CapRun(capacity, ops), op);
      assert before + [op] == ops;
    }
  }
}
