/** What every tracker operation keeps, and exactly when it does not. */
module TrackerLaws {
  import opened Sequences
  import opened Keys
  import opened Tracker

  /** Adding keeps the indexes in agreement exactly when the key is new. */
  lemma {:induction false} AddAgrees(t: Tracker, d: int, k: Key, oid: int, devId: int)
    requires Agree(t)
    ensures Agree(Add(t, d, k, oid, devId)) <==> k !in t.byKey
  {
    var u := Add(t, d, k, oid, devId);
    if k in t.byKey {
      assert KeyAgrees(t, k);
      var p := t.byKey[k];
      assert p in u.tracked && u.heap[p].key == k && u.byKey[k] != p;
    } else {
      AddFreshAgrees(t, d, k, oid, devId);
    }
  }

  lemma {:induction false} AddKeyAgrees(t: Tracker, d: int, k: Key, oid: int, devId: int, k': Key)
    requires Agree(t) && k !in t.byKey && k' in Add(t, d, k, oid, devId).byKey
    ensures KeyAgrees(Add(t, d, k, oid, devId), k')
  {
    var u := Add(t, d, k, oid, devId);
    if k' == k {
      assert u.lists[d][|u.lists[d]| - 1] == u.byKey[k];
    } else {
      assert KeyAgrees(t, k');
    }
  }

  lemma {:induction false} AddKeepsListed(t: Tracker, d: int, k: Key, oid: int, devId: int, d': int, p: nat)
    requires Agree(t) && k !in t.byKey && Listed(t, d', p)
    ensures Listed(Add(t, d, k, oid, devId), d', p)
  {
    assert RecordAgrees(t, p);
  }

  lemma {:induction false} AddListAgrees(t: Tracker, d: int, k: Key, oid: int, devId: int, d': int)
    requires Agree(t) && k !in t.byKey && d' in Add(t, d, k, oid, devId).lists
    ensures ListAgrees(Add(t, d, k, oid, devId), d', Add(t, d, k, oid, devId).lists[d'])
  {
    var u := Add(t, d, k, oid, devId);
    var l := ListAt(t.lists, d');
    assert l != [] ==> ListAgrees(t, d', l);
    forall i | 0 <= i < |l|
      ensures Listed(u, d', l[i]) && l[i] < |t.heap|
    {
      AddKeepsListed(t, d, k, oid, devId, d', l[i]);
    }
    if d' == d {
      assert u.lists[d'] == l + [|t.heap|] && Listed(u, d', |t.heap|);
    } else {
      assert u.lists[d'] == l && ListAgrees(t, d', l);
    }
  }

  lemma {:induction false} AddFreshAgrees(t: Tracker, d: int, k: Key, oid: int, devId: int)
    requires Agree(t) && k !in t.byKey
    ensures Agree(Add(t, d, k, oid, devId))
  {
    var u := Add(t, d, k, oid, devId);
    forall k' | k' in u.byKey
      ensures KeyAgrees(u, k')
    {
      AddKeyAgrees(t, d, k, oid, devId, k');
    }
    forall d' | d' in u.lists
      ensures ListAgrees(u, d', u.lists[d'])
    {
      AddListAgrees(t, d, k, oid, devId, d');
    }
  }

  /** Restating records changes no index. */
  lemma {:induction false} RestateAgrees(t: Tracker, ps: set<nat>, from: PartitionState, to: PartitionState,
                                         orphan: bool)
    requires Agree(t)
    ensures Agree(t.(heap := Restate(t.heap, ps, from, to, orphan)))
  {
    var u := t.(heap := Restate(t.heap, ps, from, to, orphan));
    assert forall p | 0 <= p < |t.heap| :: u.heap[p].key == t.heap[p].key;
    SameKeysAgrees(t, u);
  }

  lemma {:induction false} SameKeysAgrees(t: Tracker, u: Tracker)
    requires Agree(t)
    requires u == t.(heap := u.heap) && |u.heap| == |t.heap|
    requires forall p | 0 <= p < |t.heap| :: u.heap[p].key == t.heap[p].key
    ensures Agree(u)
  {
    forall k | k in u.byKey
      ensures KeyAgrees(u, k)
    {
      assert KeyAgrees(t, k);
    }
    forall d | d in u.lists
      ensures ListAgrees(u, d, u.lists[d])
    {
      assert ListAgrees(t, d, t.lists[d]);
    }
  }

  lemma {:induction false} MarkAgrees(t: Tracker, k: Key, s: PartitionState)
    requires Agree(t)
    ensures Wf(t) && Agree(Mark(t, k, s))
  {
    AgreeIsWf(t);
    SameKeysAgrees(t, Mark(t, k, s));
  }

  /** `rest` is list d without record p. */
  ghost predicate Leaves(t: Tracker, d: int, p: nat, rest: seq<nat>) {
    && d in t.lists && p in t.lists[d]
    && NoRepeat(rest) && forall q :: q in rest <==> q in t.lists[d] && q != p
  }

  /** Key k's record is out of every index; `rest` remains of its list. */
  ghost predicate Unlinked(t: Tracker, u: Tracker, k: Key, rest: seq<nat>) {
    && KeyAgrees(t, k)
    && Leaves(t, t.home[k], t.byKey[k], rest)
    && u.heap == t.heap
    && u.tracked == t.tracked - {t.byKey[k]}
    && u.byKey == t.byKey - {k}
    && u.home == t.home - {k}
    && u.lists == SetList(t.lists, t.home[k], rest)
  }

  lemma {:induction false} UnlinkedAgrees(t: Tracker, u: Tracker, k: Key, rest: seq<nat>)
    requires Agree(t) && Unlinked(t, u, k, rest)
    ensures Agree(u)
  {
    var d, p := t.home[k], t.byKey[k];
    forall k' | k' in u.byKey
      ensures KeyAgrees(u, k')
    {
      UnlinkedKeyAgrees(t, u, k, rest, k');
    }
    forall d' | d' in u.lists
      ensures ListAgrees(u, d', u.lists[d'])
    {
      RemainingList(t, d, p, rest, d');
      var l := u.lists[d'];
      forall i | 0 <= i < |l|
        ensures Listed(u, d', l[i])
      {
        assert RecordAgrees(t, l[i]);
      }
    }
    forall q | q in u.tracked
      ensures RecordAgrees(u, q)
    {
      assert RecordAgrees(t, q);
    }
  }

  lemma {:induction false} UnlinkedKeyAgrees(t: Tracker, u: Tracker, k: Key, rest: seq<nat>, k': Key)
    requires Agree(t) && Unlinked(t, u, k, rest) && k' in u.byKey
    ensures KeyAgrees(u, k')
  {
    assert KeyAgrees(t, k');
    var d' := t.home[k'];
    if d' == t.home[k] {
      assert t.byKey[k'] in rest;
    }
    assert t.byKey[k'] in ListAt(u.lists, d');
  }

  lemma {:induction false} DropAtUnlinks(t: Tracker, k: Key, i: nat)
    requires Agree(t) && KeyAgrees(t, k)
    requires i < |t.lists[t.home[k]]| && t.lists[t.home[k]][i] == t.byKey[k]
    ensures Leaves(t, t.home[k], t.byKey[k], DropAt(t.lists[t.home[k]], i))
  {
    var d := t.home[k];
    var list := t.lists[d];
    assert ListAgrees(t, d, list);
    assert list == list[..i] + [list[i]] + list[i + 1..];
  }

  /** A key is found in a list exactly when the reverse index names that list. */
  lemma {:induction false} FindKeyIsHome(t: Tracker, d: int, k: Key)
    requires Agree(t) && d in t.lists
    ensures Wf(t)
    ensures FindKey(t.heap, t.lists[d], k) < |t.lists[d]| <==> k in t.byKey && k in t.home && t.home[k] == d
    ensures FindKey(t.heap, t.lists[d], k) < |t.lists[d]| ==>
              t.lists[d][FindKey(t.heap, t.lists[d], k)] == t.byKey[k]
  {
    AgreeIsWf(t);
    var list := t.lists[d];
    assert ListAgrees(t, d, list);
    var i := FindKey(t.heap, list, k);
    if i < |list| {
      assert list[i] in t.tracked;
    } else if k in t.byKey {
      assert KeyAgrees(t, k);
    }
  }

  lemma {:induction false} RemoveAgrees(t: Tracker, d: int, k: Key)
    requires Agree(t)
    ensures Wf(t) && Agree(Remove(t, d, k))
    ensures Remove(t, d, k).byKey == if k in t.home && t.home[k] == d then t.byKey - {k} else t.byKey
  {
    AgreeIsWf(t);
    if d in t.lists {
      FindKeyIsHome(t, d, k);
      var i := FindKey(t.heap, t.lists[d], k);
      if i < |t.lists[d]| {
        assert KeyAgrees(t, k);
        DropAtUnlinks(t, k, i);
        UnlinkedAgrees(t, Remove(t, d, k), k, DropAt(t.lists[d], i));
      }
    }
    if k in t.home {
      assert KeyAgrees(t, k);
    }
  }

  lemma {:induction false} RemoveByKeyAgrees(t: Tracker, k: Key)
    requires Agree(t)
    ensures Wf(t) && Agree(RemoveByKey(t, k))
    ensures RemoveByKey(t, k).byKey == t.byKey - {k}
    ensures RemoveByKey(t, k).home == t.home - {k}
    ensures RemoveByKey(t, k).heap == t.heap
  {
    AgreeIsWf(t);
    if k in t.home {
      assert KeyAgrees(t, k);
      var d := t.home[k];
      FindKeyIsHome(t, d, k);
      var i := FindKey(t.heap, t.lists[d], k);
      DropAtUnlinks(t, k, i);
      UnlinkedAgrees(t, RemoveByKey(t, k), k, DropAt(t.lists[d], i));
    }
  }

  // --------------------------------------------------------------------------
  // Moving a record to another list
  // --------------------------------------------------------------------------

  /** Record p leaves its list, of which `rest` remains, and joins `target`'s. */
  ghost predicate Moved(t: Tracker, u: Tracker, p: nat, target: int, rest: seq<nat>) {
    && p in t.tracked && RecordAgrees(t, p) && KeyAgrees(t, t.heap[p].key)
    && var k := t.heap[p].key;
       var d := t.home[k];
       && Leaves(t, d, p, rest)
       && |u.heap| == |t.heap| && u.heap[p].key == k
       && (forall q | 0 <= q < |t.heap| && q != p :: u.heap[q] == t.heap[q])
       && u.tracked == t.tracked && u.byKey == t.byKey
       && u.home == t.home[k := target]
       && u.lists == Joined(SetList(t.lists, d, rest), target, p)
  }

  function Joined(lists: map<int, seq<nat>>, target: int, p: nat): map<int, seq<nat>> {
    lists[target := ListAt(lists, target) + [p]]
  }

  lemma {:induction false} MovedKeyAgrees(t: Tracker, u: Tracker, p: nat, target: int, rest: seq<nat>, k': Key)
    requires Agree(t) && Moved(t, u, p, target, rest) && k' in u.byKey
    ensures KeyAgrees(u, k')
  {
    var k := t.heap[p].key;
    var d := t.home[k];
    assert KeyAgrees(t, k');
    var q := t.byKey[k'];
    if k' == k {
      assert u.lists[target][|u.lists[target]| - 1] == p;
    } else {
      var d' := t.home[k'];
      assert q != p && u.home[k'] == d';
      if d' == d {
        assert q in rest;
      }
      assert q in ListAt(SetList(t.lists, d, rest), d');
    }
  }

  lemma {:induction false} MovedKeepsListed(t: Tracker, u: Tracker, p: nat, target: int, rest: seq<nat>, d': int,
                                            q: nat)
    requires Agree(t) && Moved(t, u, p, target, rest)
    requires q != p && Listed(t, d', q)
    ensures Listed(u, d', q)
  {
    assert RecordAgrees(t, q);
  }

  /** What list d' holds once p has left list d: no p, and only records it held before. */
  lemma {:induction false} RemainingList(t: Tracker, d: int, p: nat, rest: seq<nat>, d': int)
    requires Agree(t) && Leaves(t, d, p, rest)
    ensures NoRepeat(ListAt(SetList(t.lists, d, rest), d'))
    ensures forall i | 0 <= i < |ListAt(SetList(t.lists, d, rest), d')| ::
              ListAt(SetList(t.lists, d, rest), d')[i] != p && Listed(t, d', ListAt(SetList(t.lists, d, rest), d')[i])
    ensures d' in SetList(t.lists, d, rest) ==> ListAt(SetList(t.lists, d, rest), d') != []
  {
    var l := ListAt(SetList(t.lists, d, rest), d');
    var i0 :| 0 <= i0 < |t.lists[d]| && t.lists[d][i0] == p;
    assert ListAgrees(t, d, t.lists[d]);
    if d' == d {
      forall i | 0 <= i < |l|
        ensures l[i] != p && Listed(t, d', l[i])
      {
        assert l[i] in rest;
      }
    } else if d' in t.lists {
      assert ListAgrees(t, d', t.lists[d']);
    }
  }

  lemma {:induction false} MovedListAgrees(t: Tracker, u: Tracker, p: nat, target: int, rest: seq<nat>, d': int)
    requires Agree(t) && Moved(t, u, p, target, rest) && d' in u.lists
    ensures ListAgrees(u, d', u.lists[d'])
  {
    var d := t.home[t.heap[p].key];
    var lists := SetList(t.lists, d, rest);
    var l := ListAt(lists, d');
    RemainingList(t, d, p, rest, d');
    forall i | 0 <= i < |l|
      ensures Listed(u, d', l[i])
    {
      MovedKeepsListed(t, u, p, target, rest, d', l[i]);
    }
    if d' == target {
      assert u.lists[d'] == l + [p] && Listed(u, d', p);
    } else {
      assert u.lists[d'] == l;
    }
  }

  lemma {:induction false} MovedAgrees(t: Tracker, u: Tracker, p: nat, target: int, rest: seq<nat>)
    requires Agree(t) && Moved(t, u, p, target, rest)
    ensures Agree(u)
  {
    forall k' | k' in u.byKey
      ensures KeyAgrees(u, k')
    {
      MovedKeyAgrees(t, u, p, target, rest, k');
    }
    forall d' | d' in u.lists
      ensures ListAgrees(u, d', u.lists[d'])
    {
      MovedListAgrees(t, u, p, target, rest, d');
    }
    forall q | q in u.tracked
      ensures RecordAgrees(u, q)
    {
      assert RecordAgrees(t, q);
    }
    assert u.home.Keys == t.home.Keys;
  }

  /** In an agreeing tracker, removing by key removes exactly that key's record. */
  lemma {:induction false} WithoutIsReference(t: Tracker, k: Key, d: int)
    requires Agree(t) && k in t.byKey && d in t.lists
    ensures Within(t.lists[d], |t.heap|)
    ensures NoRepeat(Without(t.heap, t.lists[d], k))
    ensures forall q :: q in Without(t.heap, t.lists[d], k) <==> q in t.lists[d] && q != t.byKey[k]
  {
    var list := t.lists[d];
    assert ListAgrees(t, d, list);
    WithoutNoRepeat(t.heap, list, k);
    forall q | q in list
      ensures q < |t.heap| && (t.heap[q].key == k <==> q == t.byKey[k])
    {
      assert q in t.tracked;
      assert KeyAgrees(t, k);
    }
  }

  lemma {:induction false} WithoutAbsent(heap: seq<Info>, list: seq<nat>, k: Key)
    requires Within(list, |heap|)
    requires forall i | 0 <= i < |list| :: heap[list[i]].key != k
    ensures Without(heap, list, k) == list
  {
    if list != [] {
      WithoutAbsent(heap, list[1..], k);
    }
  }

  lemma {:induction false} DetachedLacksKey(t: Tracker, k: Key, target: int)
    requires Agree(t) && k in t.byKey
    ensures Wf(t)
    ensures Within(ListAt(Detach(t, k), target), |t.heap|)
    ensures Without(t.heap, ListAt(Detach(t, k), target), k) == ListAt(Detach(t, k), target)
  {
    AgreeIsWf(t);
    var list := ListAt(Detach(t, k), target);
    forall i | 0 <= i < |list|
      ensures t.heap[list[i]].key != k
    {
      DetachedElement(t, k, target, i);
    }
    WithoutAbsent(t.heap, list, k);
  }

  lemma {:induction false} DetachedElement(t: Tracker, k: Key, target: int, i: nat)
    requires Agree(t) && Wf(t) && k in t.byKey && i < |ListAt(Detach(t, k), target)|
    ensures ListAt(Detach(t, k), target)[i] < |t.heap|
    ensures t.heap[ListAt(Detach(t, k), target)[i]].key != k
  {
    assert KeyAgrees(t, k);
    var d := t.home[k];
    var q := ListAt(Detach(t, k), target)[i];
    if target == d {
      assert q in Without(t.heap, t.lists[d], k);
    } else {
      assert ListAgrees(t, target, t.lists[target]);
      assert Listed(t, target, q);
    }
  }

  /** Reassigning a tracked key moves it; an unknown key changes nothing. */
  lemma {:induction false} ReassignAgrees(t: Tracker, k: Key, target: int)
    requires Agree(t)
    ensures Wf(t) && Agree(Reassign(t, k, target).0)
    ensures Reassign(t, k, target).1 <==> k in t.byKey
    ensures Reassign(t, k, target).0.byKey == t.byKey
    ensures k in t.byKey ==>
              && Reassign(t, k, target).0.home == t.home[k := target]
              && Reassign(t, k, target).0.heap == t.heap[t.byKey[k] := InfoOf(t, k).(owner := target, devId := target)]
  {
    AgreeIsWf(t);
    if k in t.byKey {
      assert KeyAgrees(t, k);
      var p, d := t.byKey[k], t.home[k];
      var u := Reassign(t, k, target).0;
      DetachedLacksKey(t, k, target);
      WithoutIsReference(t, k, d);
      var rest := Without(t.heap, t.lists[d], k);
      assert u.lists == Joined(SetList(t.lists, d, rest), target, p);
      MovedAgrees(t, u, p, target, rest);
    }
  }

  lemma {:induction false} ClearDeviceAgrees(t: Tracker, d: int)
    requires Agree(t)
    ensures Wf(t) && Agree(ClearDevice(t, d))
    ensures forall k :: k in ClearDevice(t, d).byKey <==> k in t.byKey && k in t.home && t.home[k] != d
  {
    AgreeIsWf(t);
    var u := ClearDevice(t, d);
    if d in t.lists {
      var list := t.lists[d];
      assert ListAgrees(t, d, list);
      forall k | k in t.byKey
        ensures k in u.byKey <==> t.home[k] != d
      {
        assert KeyAgrees(t, k);
        if t.home[k] == d {
          var i :| 0 <= i < |list| && list[i] == t.byKey[k];
          assert t.heap[list[i]].key == k;
        }
      }
      forall p | p in t.tracked
        ensures p in u.tracked <==> t.home[t.heap[p].key] != d
      {
        assert KeyAgrees(t, t.heap[p].key);
      }
      ClearedAgrees(t, d, u);
    } else {
      forall k | k in t.byKey
        ensures t.home[k] != d
      {
        assert KeyAgrees(t, k);
      }
    }
  }

  lemma {:induction false} ClearedAgrees(t: Tracker, d: int, u: Tracker)
    requires Agree(t) && u.heap == t.heap && u.lists == t.lists - {d}
    requires u.tracked <= t.tracked && u.home.Keys == u.byKey.Keys
    requires forall k | k in u.byKey :: k in t.byKey && u.byKey[k] == t.byKey[k]
    requires forall k | k in u.home :: k in t.home && u.home[k] == t.home[k]
    requires forall k | k in t.byKey :: k in t.home && (k in u.byKey <==> t.home[k] != d)
    requires forall p | p in t.tracked ::
              p < |t.heap| && t.heap[p].key in t.home
              && (p in u.tracked <==> t.home[t.heap[p].key] != d)
    ensures Agree(u)
  {
    forall k | k in u.byKey
      ensures KeyAgrees(u, k)
    {
      assert KeyAgrees(t, k);
    }
    forall d' | d' in u.lists
      ensures ListAgrees(u, d', u.lists[d'])
    {
      var l := u.lists[d'];
      assert ListAgrees(t, d', t.lists[d']);
      forall i | 0 <= i < |l|
        ensures Listed(u, d', l[i])
      {
        assert l[i] in t.tracked;
        assert t.heap[l[i]].key in t.byKey;
      }
    }
  }

  // --------------------------------------------------------------------------
  // Redistribution of a failed device
  // --------------------------------------------------------------------------

  /** Nothing to move, or everything listed is idle, mapped, and mapped elsewhere. */
  ghost predicate SafeToRedistribute(t: Tracker, failed: int, mapping: map<Key, int>)
    requires Wf(t)
  {
    failed in t.lists ==>
      var list := t.lists[failed];
      || (forall i | 0 <= i < |list| :: t.heap[list[i]].state != Idle)
      || (forall i | 0 <= i < |list| ::
            var info := t.heap[list[i]];
            info.state == Idle && info.key in mapping && mapping[info.key] != failed)
  }

  lemma {:induction false} HandAllHome(t: Tracker, ps: seq<nat>, mapping: map<Key, int>, k: Key, failed: int)
    requires Within(ps, |t.heap|)
    requires k in t.home && t.home[k] == failed
    requires (forall i | 0 <= i < |ps| :: t.heap[ps[i]].key != k) || k !in mapping || mapping[k] == failed
    ensures k in HandAll(t, ps, mapping).home && HandAll(t, ps, mapping).home[k] == failed
    ensures HandAll(t, ps, mapping).byKey == t.byKey
    decreases |ps|
  {
    if ps != [] {
      HandAllHome(Hand(t, ps[0], mapping), ps[1..], mapping, k, failed);
    }
  }

  lemma {:induction false} HandAllByKey(t: Tracker, ps: seq<nat>, mapping: map<Key, int>)
    requires Within(ps, |t.heap|)
    ensures HandAll(t, ps, mapping).byKey == t.byKey
    decreases |ps|
  {
    if ps != [] {
      HandAllByKey(Hand(t, ps[0], mapping), ps[1..], mapping);
    }
  }

  /** An unsafe redistribution strands some key: its home list is gone. */
  lemma {:induction false} UnsafeStrands(t: Tracker, failed: int, mapping: map<Key, int>)
    requires Agree(t) && Wf(t) && !SafeToRedistribute(t, failed, mapping)
    ensures !Agree(Redistribute(t, failed, mapping))
  {
    var list := t.lists[failed];
    assert ListAgrees(t, failed, list);
    var moving := IdleOf(t.heap, list);
    var i0 :| 0 <= i0 < |list| && t.heap[list[i0]].state == Idle;
    assert list[i0] in moving;
    var i :| 0 <= i < |list| &&
             var info := t.heap[list[i]];
             !(info.state == Idle && info.key in mapping && mapping[info.key] != failed);
    var p := list[i];
    var k := t.heap[p].key;
    assert p in t.tracked && t.byKey[k] == p;
    if t.heap[p].state != Idle {
      forall j | 0 <= j < |moving|
        ensures t.heap[moving[j]].key != k
      {
        assert moving[j] in list && moving[j] in moving;
        assert moving[j] in t.tracked;
      }
    }
    HandAllHome(t, moving, mapping, k, failed);
    var u := Redistribute(t, failed, mapping);
    assert !KeyAgrees(u, k);
    assert k in u.byKey;
  }

  /** The tracker as if `failed` listed exactly `rest`. */
  ghost function Listing(t: Tracker, failed: int, rest: seq<nat>): Tracker {
    t.(lists := SetList(t.lists, failed, rest))
  }

  lemma {:induction false} HeadLeaves(t: Tracker, failed: int, rest: seq<nat>)
    requires rest != [] && NoRepeat(rest) && failed in t.lists && t.lists[failed] == rest
    ensures Leaves(t, failed, rest[0], rest[1..])
  {
    assert rest == [rest[0]] + rest[1..];
  }

  lemma {:induction false} JoinCommutes(lists: map<int, seq<nat>>, failed: int, rest: seq<nat>, rest': seq<nat>,
                                        target: int, p: nat)
    requires target != failed
    ensures SetList(Joined(lists, target, p), failed, rest')
            == Joined(SetList(SetList(lists, failed, rest), failed, rest'), target, p)
  {
  }

  lemma {:induction false} HandAgrees(t: Tracker, failed: int, rest: seq<nat>, mapping: map<Key, int>)
    requires rest != [] && Within(rest, |t.heap|) && NoRepeat(rest)
    requires Agree(Listing(t, failed, rest))
    requires t.heap[rest[0]].key in mapping && mapping[t.heap[rest[0]].key] != failed
    ensures Agree(Listing(Hand(t, rest[0], mapping), failed, rest[1..]))
  {
    var p := rest[0];
    var k := t.heap[p].key;
    var v, w := Listing(t, failed, rest), Listing(Hand(t, p, mapping), failed, rest[1..]);
    assert ListAgrees(v, failed, v.lists[failed]);
    assert Listed(v, failed, p) && RecordAgrees(v, p) && KeyAgrees(v, k);
    HeadLeaves(v, failed, rest);
    JoinCommutes(t.lists, failed, rest, rest[1..], mapping[k], p);
    MovedAgrees(v, w, p, mapping[k], rest[1..]);
  }

  lemma {:induction false} HandAllAgrees(t: Tracker, failed: int, rest: seq<nat>, mapping: map<Key, int>)
    requires Within(rest, |t.heap|) && NoRepeat(rest)
    requires Agree(Listing(t, failed, rest))
    requires forall i | 0 <= i < |rest| :: t.heap[rest[i]].key in mapping && mapping[t.heap[rest[i]].key] != failed
    ensures Agree(Listing(HandAll(t, rest, mapping), failed, []))
    decreases |rest|
  {
    if rest != [] {
      HandAgrees(t, failed, rest, mapping);
      HandAllAgrees(Hand(t, rest[0], mapping), failed, rest[1..], mapping);
    }
  }

  lemma {:induction false} IdleOfAll(heap: seq<Info>, list: seq<nat>)
    requires Within(list, |heap|)
    requires forall i | 0 <= i < |list| :: heap[list[i]].state == Idle
    ensures IdleOf(heap, list) == list
  {
    if list != [] {
      IdleOfAll(heap, list[1..]);
    }
  }

  /** Redistribution keeps the indexes in agreement exactly when it is safe. */
  lemma {:induction false} RedistributeAgrees(t: Tracker, failed: int, mapping: map<Key, int>)
    requires Agree(t)
    ensures Wf(t)
    ensures Agree(Redistribute(t, failed, mapping)) <==> SafeToRedistribute(t, failed, mapping)
  {
    AgreeIsWf(t);
    if !SafeToRedistribute(t, failed, mapping) {
      UnsafeStrands(t, failed, mapping);
    } else if failed in t.lists {
      var list := t.lists[failed];
      assert ListAgrees(t, failed, list);
      var moving := IdleOf(t.heap, list);
      if moving != [] {
        assert moving[0] in moving;
        IdleOfAll(t.heap, list);
        assert Listing(t, failed, list) == t by {
          assert t.lists[failed := list] == t.lists;
        }
        HandAllAgrees(t, failed, list, mapping);
      }
    }
  }
}
