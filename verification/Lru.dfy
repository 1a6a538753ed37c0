/** Least-recently-used caches, as recency-ordered sequences: the oldest entry first. */
module Lru {
  import opened Sequences

  datatype Entry<K, V> = Entry(key: K, value: V, size: nat)

  ghost predicate Distinct<K, V>(es: seq<Entry<K, V>>) {
    forall i, j | 0 <= i < j < |es| :: es[i].key != es[j].key
  }

  predicate Has<K(==), V>(es: seq<Entry<K, V>>, k: K) {
    exists i | 0 <= i < |es| :: es[i].key == k
  }

  /** Each entry costs its own size and the size of a key. */
  function Bytes<K, V>(es: seq<Entry<K, V>>, overhead: nat): nat {
    if es == [] then 0 else overhead + es[0].size + Bytes(es[1..], overhead)
  }

  /** The entries without the one for k. */
  function Without<K(==), V>(es: seq<Entry<K, V>>, k: K): (res: seq<Entry<K, V>>)
    ensures |res| <= |es|
  {
    if es == [] then []
    else if es[0].key == k then es[1..]
    else [es[0]] + Without(es[1..], k)
  }

  /** The entry for k, if there is one. */
  function Having<K(==), V>(es: seq<Entry<K, V>>, k: K): seq<Entry<K, V>> {
    if es == [] then []
    else if es[0].key == k then [es[0]]
    else Having(es[1..], k)
  }

  /** How many of the oldest entries go to make room for `item` bytes: the fewest that do, or all. */
  function Overflow<K, V>(es: seq<Entry<K, V>>, overhead: nat, item: nat, max: nat): (n: nat)
    ensures n <= |es|
    ensures n < |es| ==> Bytes(es[n..], overhead) + item <= max
    ensures forall m | 0 <= m < n :: Bytes(es[m..], overhead) + item > max
  {
    if es == [] || Bytes(es, overhead) + item <= max then 0
    else
      var n := Overflow(es[1..], overhead, item, max);
      assert forall m | 0 < m <= |es| :: es[m..] == es[1..][m - 1..];
      assert es[0..] == es;
      1 + n
  }

  datatype Cache<K, V> = Cache(overhead: nat, max: nat, entries: seq<Entry<K, V>>, departed: seq<Entry<K, V>>)

  /** Replaces, makes room by dropping the oldest, and appends; what leaves is handed to the deleter. */
  function Put<K(==), V>(c: Cache<K, V>, e: Entry<K, V>): Cache<K, V> {
    var kept := Without(c.entries, e.key);
    var n := Overflow(kept, c.overhead, c.overhead + e.size, c.max);
    c.(entries := kept[n..] + [e], departed := c.departed + Having(c.entries, e.key) + kept[..n])
  }

  /** A use moves the entry to the recent end. */
  function Touch<K(==), V>(c: Cache<K, V>, k: K): Cache<K, V> {
    c.(entries := Without(c.entries, k) + Having(c.entries, k))
  }

  // --------------------------------------------------------------------------
  // Removing an entry
  // --------------------------------------------------------------------------

  lemma {:induction false} WithoutSplits<K, V>(es: seq<Entry<K, V>>, k: K)
    ensures multiset(es) == multiset(Without(es, k)) + multiset(Having(es, k))
  {
    if es != [] {
      assert es == [es[0]] + es[1..];
      WithoutSplits(es[1..], k);
    }
  }

  lemma {:induction false} HavingFinds<K, V>(es: seq<Entry<K, V>>, k: K)
    ensures Having(es, k) == [] ==> Without(es, k) == es && forall i | 0 <= i < |es| :: es[i].key != k
    ensures Having(es, k) != [] ==> |Having(es, k)| == 1 && Having(es, k)[0].key == k && Having(es, k)[0] in es
  {
    if es != [] {
      assert es == [es[0]] + es[1..];
      HavingFinds(es[1..], k);
    }
  }

  lemma {:induction false} HasIsHaving<K, V>(es: seq<Entry<K, V>>, k: K)
    ensures Has(es, k) <==> Having(es, k) != []
  {
    HavingFinds(es, k);
  }

  lemma {:induction false} BytesSplit<K, V>(es: seq<Entry<K, V>>, fs: seq<Entry<K, V>>, overhead: nat)
    ensures Bytes(es + fs, overhead) == Bytes(es, overhead) + Bytes(fs, overhead)
  {
    if es == [] {
      assert es + fs == fs;
    } else {
      assert (es + fs)[1..] == es[1..] + fs;
      BytesSplit(es[1..], fs, overhead);
    }
  }

  lemma {:induction false} BytesWithout<K, V>(es: seq<Entry<K, V>>, k: K, overhead: nat)
    ensures Bytes(es, overhead) == Bytes(Without(es, k), overhead) + Bytes(Having(es, k), overhead)
  {
    if es != [] {
      BytesWithout(es[1..], k, overhead);
      if es[0].key != k {
        assert ([es[0]] + Without(es[1..], k))[1..] == Without(es[1..], k);
      } else {
        assert [es[0]][1..] == [];
      }
    }
  }

  lemma {:induction false} WithoutKeeps<K, V>(es: seq<Entry<K, V>>, k: K)
    requires Distinct(es)
    ensures Distinct(Without(es, k)) && !Has(Without(es, k), k)
    ensures forall e :: e in Without(es, k) ==> e in es
  {
    if es != [] {
      WithoutKeeps(es[1..], k);
      var rest := Without(es[1..], k);
      if es[0].key != k {
        forall i | 0 <= i < |rest|
          ensures es[0].key != rest[i].key
        {
          assert rest[i] in es[1..];
          var j :| 0 <= j < |es[1..]| && es[1..][j] == rest[i];
          assert es[j + 1] == rest[i];
        }
      }
    }
  }

  // --------------------------------------------------------------------------
  // What every operation keeps
  // --------------------------------------------------------------------------

  /** Keys are distinct and the bytes within the limit, unless one entry alone exceeds it. */
  ghost predicate Ok<K, V>(c: Cache<K, V>) {
    Distinct(c.entries) && (Bytes(c.entries, c.overhead) <= c.max || |c.entries| == 1)
  }

  lemma {:induction false} DistinctSuffix<K, V>(es: seq<Entry<K, V>>, n: nat, e: Entry<K, V>)
    requires n <= |es| && Distinct(es) && !Has(es, e.key)
    ensures Distinct(es[n..] + [e])
  {
  }

  lemma {:induction false} PutBytes<K, V>(c: Cache<K, V>, e: Entry<K, V>)
    ensures Bytes(Put(c, e).entries, c.overhead) <= c.max || |Put(c, e).entries| == 1
  {
    var kept := Without(c.entries, e.key);
    var n := Overflow(kept, c.overhead, c.overhead + e.size, c.max);
    BytesSplit(kept[n..], [e], c.overhead);
    assert [e][1..] == [];
  }

  lemma {:induction false} PutOk<K, V>(c: Cache<K, V>, e: Entry<K, V>)
    requires Ok(c)
    ensures Ok(Put(c, e)) && e in Put(c, e).entries
  {
    var kept := Without(c.entries, e.key);
    WithoutKeeps(c.entries, e.key);
    DistinctSuffix(kept, Overflow(kept, c.overhead, c.overhead + e.size, c.max), e);
    PutBytes(c, e);
  }

  lemma {:induction false} TouchDistinct<K, V>(es: seq<Entry<K, V>>, k: K)
    requires Distinct(es)
    ensures Distinct(Without(es, k) + Having(es, k))
  {
    WithoutKeeps(es, k);
    HavingFinds(es, k);
  }

  lemma {:induction false} TouchOk<K, V>(c: Cache<K, V>, k: K)
    requires Ok(c)
    ensures Ok(Touch(c, k)) && multiset(Touch(c, k).entries) == multiset(c.entries)
  {
    TouchDistinct(c.entries, k);
    WithoutSplits(c.entries, k);
    BytesWithout(c.entries, k, c.overhead);
    BytesSplit(Without(c.entries, k), Having(c.entries, k), c.overhead);
    assert |multiset(Touch(c, k).entries)| == |multiset(c.entries)|;
  }

  /** What was put is in the cache or with the deleter, and nowhere twice. */
  lemma {:induction false} PutConserves<K, V>(c: Cache<K, V>, e: Entry<K, V>)
    ensures multiset(Put(c, e).entries) + multiset(Put(c, e).departed)
            == multiset(c.entries) + multiset(c.departed) + multiset{e}
  {
    var kept := Without(c.entries, e.key);
    var n := Overflow(kept, c.overhead, c.overhead + e.size, c.max);
    WithoutSplits(c.entries, e.key);
    assert kept == kept[..n] + kept[n..];
  }

  // --------------------------------------------------------------------------
  // Whole runs
  // --------------------------------------------------------------------------

  datatype Op<K, V> = Store(e: Entry<K, V>) | Use(k: K)

  /** Using a key that is not there throws and changes nothing. */
  function Apply<K(==), V>(c: Cache<K, V>, op: Op<K, V>): Cache<K, V> {
    match op
    case Store(e) => Put(c, e)
    case Use(k) => if Has(c.entries, k) then Touch(c, k) else c
  }

  function Run<K(==), V>(overhead: nat, max: nat, ops: seq<Op<K, V>>): Cache<K, V> {
    if ops == [] then Cache(overhead, max, [], [])
    else Apply(Run(overhead, max, ops[..|ops| - 1]), ops[|ops| - 1])
  }

  /** The values a run stored. */
  function Stored<K(==), V(==)>(ops: seq<Op<K, V>>): multiset<Entry<K, V>> {
    if ops == [] then multiset{}
    else
      var op := ops[|ops| - 1];
      Stored(ops[..|ops| - 1]) + (if op.Store? then multiset{op.e} else multiset{})
  }

  /** In every run the limit holds up to a single entry, and each stored value is cached or was deleted once. */
  lemma {:induction false} RunOk<K, V>(overhead: nat, max: nat, ops: seq<Op<K, V>>)
    ensures var c := Run(overhead, max, ops);
            && c.overhead == overhead && c.max == max && Ok(c)
            && multiset(c.entries) + multiset(c.departed) == Stored(ops)
  {
    if ops != [] {
      var before, op := ops[..|ops| - 1], ops[|ops| - 1];
      RunOk(overhead, max, before);
      var c := Run(overhead, max, before);
      match op
      case Store(e) =>
        PutOk(c, e);
        PutConserves(c, e);
      case Use(k) =>
        TouchOk(c, k);
    }
  }

  // --------------------------------------------------------------------------
  // Recency
  // --------------------------------------------------------------------------

  function Drop<K(==)>(ks: seq<K>, k: K): (res: seq<K>) {
    if ks == [] then [] else if ks[0] == k then ks[1..] else [ks[0]] + Drop(ks[1..], k)
  }

  function KeysOf<K, V>(es: seq<Entry<K, V>>): (ks: seq<K>)
    ensures |ks| == |es|
  {
    seq(|es|, i requires 0 <= i < |es| => es[i].key)
  }

  /** Every key ever used, by its last use, oldest first; a failed lookup is no use. */
  function Recency<K(==), V>(overhead: nat, max: nat, ops: seq<Op<K, V>>): seq<K> {
    if ops == [] then []
    else
      var before, op := ops[..|ops| - 1], ops[|ops| - 1];
      var ks := Recency(overhead, max, before);
      match op
      case Store(e) => Drop(ks, e.key) + [e.key]
      case Use(k) => if Has(Run(overhead, max, before).entries, k) then Drop(ks, k) + [k] else ks
  }

  ghost predicate IsSuffix<K>(part: seq<K>, whole: seq<K>) {
    |part| <= |whole| && whole[|whole| - |part|..] == part
  }

  lemma {:induction false} DropNoRepeat<K>(ks: seq<K>, k: K)
    requires NoRepeat(ks)
    ensures NoRepeat(Drop(ks, k)) && k !in Drop(ks, k)
    ensures forall x :: x in Drop(ks, k) ==> x in ks
  {
    if ks != [] {
      DropNoRepeat(ks[1..], k);
      assert ks == [ks[0]] + ks[1..];
      assert ks[0] !in ks[1..];
      assert ks[0] !in Drop(ks[1..], k);
    }
  }

  lemma {:induction false} KeysWithout<K, V>(es: seq<Entry<K, V>>, k: K)
    ensures KeysOf(Without(es, k)) == Drop(KeysOf(es), k)
  {
    if es != [] {
      KeysWithout(es[1..], k);
      assert KeysOf(es)[1..] == KeysOf(es[1..]);
    }
  }

  /** Dropping a key from a list and from a suffix of it leaves a list and a suffix of it. */
  lemma {:induction false} DropSuffix<K>(part: seq<K>, whole: seq<K>, k: K)
    requires IsSuffix(part, whole) && NoRepeat(whole)
    ensures IsSuffix(Drop(part, k), Drop(whole, k))
    decreases |whole|
  {
    if |part| == |whole| {
      assert part == whole;
    } else {
      assert IsSuffix(part, whole[1..]);
      DropSuffix(part, whole[1..], k);
      if whole[0] == k {
        assert k !in part by {
          assert forall i | 0 <= i < |part| :: part[i] == whole[|whole| - |part| + i];
        }
        DropMissing(part, k);
      }
    }
  }

  lemma {:induction false} DropMissing<K>(ks: seq<K>, k: K)
    requires k !in ks
    ensures Drop(ks, k) == ks
  {
    if ks != [] {
      DropMissing(ks[1..], k);
    }
  }

  lemma {:induction false} SuffixAppend<K>(part: seq<K>, n: nat, whole: seq<K>, k: K)
    requires IsSuffix(part, whole) && n <= |part|
    ensures IsSuffix(part[n..] + [k], whole + [k])
  {
    assert part[n..] == whole[|whole| - |part| + n..];
  }

  lemma {:induction false} KeysAppend<K, V>(es: seq<Entry<K, V>>, n: nat, e: Entry<K, V>)
    requires n <= |es|
    ensures KeysOf(es[n..] + [e]) == KeysOf(es)[n..] + [e.key]
  {
  }

  lemma {:induction false} PutRecency<K, V>(c: Cache<K, V>, e: Entry<K, V>, ks: seq<K>)
    requires IsSuffix(KeysOf(c.entries), ks) && NoRepeat(ks)
    ensures IsSuffix(KeysOf(Put(c, e).entries), Drop(ks, e.key) + [e.key])
  {
    var kept := Without(c.entries, e.key);
    var n := Overflow(kept, c.overhead, c.overhead + e.size, c.max);
    KeysWithout(c.entries, e.key);
    DropSuffix(KeysOf(c.entries), ks, e.key);
    SuffixAppend(KeysOf(kept), n, Drop(ks, e.key), e.key);
    KeysAppend(kept, n, e);
  }

  lemma {:induction false} TouchRecency<K, V>(c: Cache<K, V>, k: K, ks: seq<K>)
    requires IsSuffix(KeysOf(c.entries), ks) && NoRepeat(ks) && Has(c.entries, k)
    ensures IsSuffix(KeysOf(Touch(c, k).entries), Drop(ks, k) + [k])
  {
    var kept := Without(c.entries, k);
    HasIsHaving(c.entries, k);
    HavingFinds(c.entries, k);
    KeysWithout(c.entries, k);
    DropSuffix(KeysOf(c.entries), ks, k);
    SuffixAppend(KeysOf(kept), 0, Drop(ks, k), k);
    assert KeysOf(Touch(c, k).entries) == KeysOf(kept)[0..] + [k];
  }

  /**
   In every run the cache holds exactly the most recently used keys, in order of use: what left
   is older than what stayed.
   */
  lemma {:induction false} HoldsMostRecent<K, V>(overhead: nat, max: nat, ops: seq<Op<K, V>>)
    ensures NoRepeat(Recency(overhead, max, ops))
    ensures IsSuffix(KeysOf(Run(overhead, max, ops).entries), Recency(overhead, max, ops))
  {
    if ops != [] {
      var before, op := ops[..|ops| - 1], ops[|ops| - 1];
      HoldsMostRecent(overhead, max, before);
      var c, ks := Run(overhead, max, before), Recency(overhead, max, before);
      match op
      case Store(e) =>
        PutRecency(c, e, ks);
        DropNoRepeat(ks, e.key);
      case Use(k) =>
        DropNoRepeat(ks, k);
        if Has(c.entries, k) {
          TouchRecency(c, k, ks);
        }
    }
  }

  // --------------------------------------------------------------------------
  // The cache bounded by a number of entries
  // --------------------------------------------------------------------------

  /** Replaces the key's entry, or makes room by dropping the oldest entry of a full cache. */
  function CapPut<K(==), V>(es: seq<Entry<K, V>>, capacity: nat, e: Entry<K, V>): seq<Entry<K, V>> {
    if Has(es, e.key) then Without(es, e.key) + [e]
    else if |es| == capacity && es != [] then es[1..] + [e]
    else es + [e]
  }

  function CapRun<K(==), V>(capacity: nat, ops: seq<Op<K, V>>): seq<Entry<K, V>> {
    if ops == [] then []
    else
      var es, op := CapRun(capacity, ops[..|ops| - 1]), ops[|ops| - 1];
      match op
      case Store(e) => CapPut(es, capacity, e)
      case Use(k) => if Has(es, k) then Without(es, k) + Having(es, k) else es
  }

  function CapRecency<K(==), V>(capacity: nat, ops: seq<Op<K, V>>): seq<K> {
    if ops == [] then []
    else
      var before, op := ops[..|ops| - 1], ops[|ops| - 1];
      var ks := CapRecency(capacity, before);
      match op
      case Store(e) => Drop(ks, e.key) + [e.key]
      case Use(k) => if Has(CapRun(capacity, before), k) then Drop(ks, k) + [k] else ks
  }

  lemma {:induction false} DropSize<K>(ks: seq<K>, k: K)
    ensures |Drop(ks, k)| == |ks| - (if k in ks then 1 else 0)
  {
    if ks != [] {
      DropSize(ks[1..], k);
      assert ks == [ks[0]] + ks[1..];
    }
  }

  lemma {:induction false} HasIsKey<K, V>(es: seq<Entry<K, V>>, k: K)
    ensures Has(es, k) <==> k in KeysOf(es)
  {
    forall i | 0 <= i < |es|
      ensures KeysOf(es)[i] == es[i].key
    {
    }
  }

  /** The last `n` keys by recency, or all of them. */
  ghost predicate LastOnes<K>(part: seq<K>, whole: seq<K>, n: nat) {
    IsSuffix(part, whole) && |part| == if |whole| < n then |whole| else n
  }

  lemma {:induction false} SuffixKeys<K>(part: seq<K>, whole: seq<K>, k: K)
    requires IsSuffix(part, whole) && k in part
    ensures k in whole
  {
  }

  lemma {:induction false} CapPutLast<K, V>(es: seq<Entry<K, V>>, capacity: nat, e: Entry<K, V>, ks: seq<K>)
    requires capacity > 0 && LastOnes(KeysOf(es), ks, capacity) && NoRepeat(ks)
    ensures LastOnes(KeysOf(CapPut(es, capacity, e)), Drop(ks, e.key) + [e.key], capacity)
  {
    HasIsKey(es, e.key);
    DropSize(ks, e.key);
    DropSize(KeysOf(es), e.key);
    KeysWithout(es, e.key);
    DropSuffix(KeysOf(es), ks, e.key);
    if Has(es, e.key) {
      SuffixKeys(KeysOf(es), ks, e.key);
      KeysAppend(Without(es, e.key), 0, e);
      SuffixAppend(KeysOf(Without(es, e.key)), 0, Drop(ks, e.key), e.key);
    } else {
      DropMissing(KeysOf(es), e.key);
      var n := if |es| == capacity then 1 else 0;
      KeysAppend(es, n, e);
      SuffixAppend(KeysOf(es), n, Drop(ks, e.key), e.key);
    }
  }

  lemma {:induction false} TouchedKeys<K, V>(es: seq<Entry<K, V>>, k: K)
    requires Has(es, k)
    ensures KeysOf(Without(es, k) + Having(es, k)) == Drop(KeysOf(es), k) + [k]
  {
    HasIsHaving(es, k);
    HavingFinds(es, k);
    KeysWithout(es, k);
    var e := Having(es, k)[0];
    assert Having(es, k) == [e];
    KeysAppend(Without(es, k), 0, e);
  }

  lemma {:induction false} TouchLast<K>(part: seq<K>, whole: seq<K>, capacity: nat, k: K)
    requires LastOnes(part, whole, capacity) && NoRepeat(whole) && k in part
    ensures LastOnes(Drop(part, k) + [k], Drop(whole, k) + [k], capacity)
  {
    SuffixKeys(part, whole, k);
    DropSize(whole, k);
    DropSize(part, k);
    DropSuffix(part, whole, k);
    SuffixAppend(Drop(part, k), 0, Drop(whole, k), k);
  }

  lemma {:induction false} CapTouchLast<K, V>(es: seq<Entry<K, V>>, capacity: nat, k: K, ks: seq<K>)
    requires LastOnes(KeysOf(es), ks, capacity) && NoRepeat(ks) && Has(es, k)
    ensures LastOnes(KeysOf(Without(es, k) + Having(es, k)), Drop(ks, k) + [k], capacity)
  {
    HasIsKey(es, k);
    TouchedKeys(es, k);
    TouchLast(KeysOf(es), ks, capacity, k);
  }

  /** In every run the cache holds the `capacity` most recently used keys, or all keys while there are fewer. */
  lemma {:induction false} CapHoldsMostRecent<K, V>(capacity: nat, ops: seq<Op<K, V>>)
    requires capacity > 0
    ensures NoRepeat(CapRecency(capacity, ops))
    ensures LastOnes(KeysOf(CapRun(capacity, ops)), CapRecency(capacity, ops), capacity)
  {
    if ops != [] {
      var before, op := ops[..|ops| - 1], ops[|ops| - 1];
      CapHoldsMostRecent(capacity, before);
      var es, ks := CapRun(capacity, before), CapRecency(capacity, before);
      match op
      case Store(e) =>
        CapPutLast(es, capacity, e, ks);
        DropNoRepeat(ks, e.key);
      case Use(k) =>
        DropNoRepeat(ks, k);
        if Has(es, k) {
          CapTouchLast(es, capacity, k, ks);
        }
    }
  }
}
