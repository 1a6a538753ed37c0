/** The offline check that a log of counter decrements is balanced. */
module CounterBalance {
  import opened Sorting

  datatype Record = Record(oid: int, count: int, previous: int, current: int)

  const LEQ := (x: int, y: int) => x <= y

  lemma {:induction false} LeqTotal()
    ensures TotalOrder(LEQ)
  {
  }

  /** The values an operation's counter had before each decrement, in log order. */
  function Previous(records: seq<Record>, oid: int): seq<int> {
    if records == [] then []
    else
      var n := |records| - 1;
      Previous(records[..n], oid) + (if records[n].oid == oid then [records[n].previous] else [])
  }

  /** 1, 2, ..., n. */
  function UpTo(n: nat): (s: seq<int>)
    ensures |s| == n
  {
    seq(n, i => i + 1)
  }

  predicate SingleStep(r: Record) {
    r.count == 1 && r.previous == r.current + 1 && r.current >= 0
  }

  /** Every decrement is by one, and each operation's counter took every value from its count down to 1, once. */
  ghost predicate Balanced(records: seq<Record>) {
    && records != []
    && (forall i | 0 <= i < |records| :: SingleStep(records[i]))
    && (forall i | 0 <= i < |records| ::
          multiset(Previous(records, records[i].oid)) == multiset(UpTo(|Previous(records, records[i].oid)|)))
  }

  lemma {:induction false} UpToOrdered(n: nat)
    ensures Ordered(LEQ, UpTo(n))
  {
  }

  /** Sorted, a list equals 1..n exactly when it is a rearrangement of 1..n. */
  lemma {:induction false} SortedIsUpTo(s: seq<int>)
    ensures Sort(LEQ, s) == UpTo(|s|) <==> multiset(s) == multiset(UpTo(|s|))
  {
    LeqTotal();
    SortSorts(LEQ, s);
    UpToOrdered(|s|);
    if multiset(s) == multiset(UpTo(|s|)) {
      OrderedUnique(LEQ, Sort(LEQ, s), UpTo(|s|));
    }
  }

  ghost predicate Groups(records: seq<Record>, grouped: map<int, seq<int>>) {
    && (forall oid | oid in grouped :: grouped[oid] == Previous(records, oid) && grouped[oid] != [])
    && (forall i | 0 <= i < |records| :: records[i].oid in grouped)
    && (forall oid | oid in grouped :: exists i :: 0 <= i < |records| && records[i].oid == oid)
  }

  lemma {:induction false} GroupsExtend(records: seq<Record>, n: nat, grouped: map<int, seq<int>>)
    requires n < |records| && Groups(records[..n], grouped)
    ensures Groups(records[..n + 1],
                   grouped[records[n].oid := (if records[n].oid in grouped then grouped[records[n].oid] else [])
                     + [records[n].previous]])
  {
    var before, after := records[..n], records[..n + 1];
    assert after[..n] == before && after[n] == records[n];
    var oid := records[n].oid;
    var grouped' := grouped[oid := (if oid in grouped then grouped[oid] else []) + [records[n].previous]];
    if oid !in grouped {
      NoneGrouped(before, oid);
    }
    forall o | o in grouped'
      ensures exists i :: 0 <= i < |after| && after[i].oid == o
    {
      if o == oid {
        assert after[n].oid == o;
      } else {
        var i :| 0 <= i < |before| && before[i].oid == o;
        assert after[i].oid == o;
      }
    }
    forall i | 0 <= i < |after|
      ensures after[i].oid in grouped'
    {
      assert i < n ==> before[i] == after[i];
    }
  }

  lemma {:induction false} NoneGrouped(records: seq<Record>, oid: int)
    requires forall i | 0 <= i < |records| :: records[i].oid != oid
    ensures Previous(records, oid) == []
  {
    if records != [] {
      NoneGrouped(records[..|records| - 1], oid);
    }
  }

  ghost predicate GroupsCover(grouped: map<int, seq<int>>) {
    forall oid | oid in grouped :: multiset(grouped[oid]) == multiset(UpTo(|grouped[oid]|))
  }

  ghost predicate Lists(keys: seq<int>, grouped: map<int, seq<int>>) {
    && (forall i | 0 <= i < |keys| :: keys[i] in grouped)
    && (forall oid | oid in grouped :: oid in keys)
  }

  /** Sorts each group and compares it with 1..n; `keys` are the dictionary's keys in insertion order. */
  method AllGroupsCover(keys: seq<int>, grouped: map<int, seq<int>>) returns (ok: bool)
    requires Lists(keys, grouped)
    ensures ok <==> GroupsCover(grouped)
  {
    for i := 0 to |keys|
      invariant forall j | 0 <= j < i :: multiset(grouped[keys[j]]) == multiset(UpTo(|grouped[keys[j]]|))
    {
      var oid := keys[i];
      var group := grouped[oid];
      SortedIsUpTo(group);
      if Sort(LEQ, group) != UpTo(|group|) {
        return false;
      }
    }
    return true;
  }

  lemma {:induction false} GroupsAreBalanced(records: seq<Record>, grouped: map<int, seq<int>>)
    requires Groups(records, grouped) && forall i | 0 <= i < |records| :: SingleStep(records[i])
    ensures Balanced(records) <==> grouped != map[] && GroupsCover(grouped)
  {
    if records != [] {
      assert records[0].oid in grouped;
    }
    if Balanced(records) {
      forall oid | oid in grouped
        ensures multiset(grouped[oid]) == multiset(UpTo(|grouped[oid]|))
      {
        var i :| 0 <= i < |records| && records[i].oid == oid;
      }
    }
    if records == [] {
      assert forall oid :: oid !in grouped;
    }
  }

  /** Appends to the record's group, which is made when it is the first of its operation. */
  method AddToGroup(keys: seq<int>, grouped: map<int, seq<int>>, r: Record)
    returns (keys': seq<int>, grouped': map<int, seq<int>>)
    requires Lists(keys, grouped)
    ensures grouped' == grouped[r.oid := (if r.oid in grouped then grouped[r.oid] else []) + [r.previous]]
    ensures Lists(keys', grouped')
  {
    if r.oid in grouped {
      keys' := keys;
      grouped' := grouped[r.oid := grouped[r.oid] + [r.previous]];
    } else {
      keys' := keys + [r.oid];
      grouped' := grouped[r.oid := [] + [r.previous]];
    }
  }

  /** Groups the previous values by operation, unless some record is not a single step. */
  method GroupRecords(records: seq<Record>) returns (ok: bool, keys: seq<int>, grouped: map<int, seq<int>>)
    ensures ok <==> forall i | 0 <= i < |records| :: SingleStep(records[i])
    ensures ok ==> Groups(records, grouped) && Lists(keys, grouped)
  {
    keys, grouped := [], map[];
    assert records[..0] == [];
    for n := 0 to |records|
      invariant Groups(records[..n], grouped)
      invariant Lists(keys, grouped)
      invariant forall i | 0 <= i < n :: SingleStep(records[i])
    {
      var r := records[n];
      if r.count != 1 || r.previous != r.current + 1 || r.current < 0 {
        assert !SingleStep(records[n]);
        return false, keys, grouped;
      }
      GroupsExtend(records, n, grouped);
      keys, grouped := AddToGroup(keys, grouped, r);
    }
    assert records[..|records|] == records;
    ok := true;
  }

  method ResponseCountersAreBalanced(records: seq<Record>) returns (ok: bool)
    ensures ok <==> Balanced(records)
  {
    var single, keys, grouped := GroupRecords(records);
    if !single {
      return false;
    }
    GroupsAreBalanced(records, grouped);
    if grouped == map[] {
      return false;
    }
    ok := AllGroupsCover(keys, grouped);
  }
}
