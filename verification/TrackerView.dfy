/** The tracker seen key by key, and what each operation does to that view. */
module TrackerView {
  import opened Keys
  import opened Tracker
  import opened TrackerLaws

  datatype Entry = Entry(oid: int, state: PartitionState, home: int)

  function EntryOf(t: Tracker, k: Key): Entry
    requires k in t.byKey
  {
    if t.byKey[k] < |t.heap| && k in t.home
    then Entry(InfoOf(t, k).oid, InfoOf(t, k).state, t.home[k])
    else Entry(-1, Finished, -1)
  }

  function View(t: Tracker): map<Key, Entry> {
    map k | k in t.byKey :: EntryOf(t, k)
  }

  lemma {:induction false} AddView(t: Tracker, d: int, k: Key, oid: int, devId: int)
    requires Agree(t) && k !in t.byKey
    ensures Agree(Add(t, d, k, oid, devId))
    ensures View(Add(t, d, k, oid, devId)) == View(t)[k := Entry(oid, Idle, d)]
  {
    AddFreshAgrees(t, d, k, oid, devId);
    forall k' | k' in t.byKey
      ensures k' != k && EntryOf(Add(t, d, k, oid, devId), k') == EntryOf(t, k')
    {
      AddEntry(t, d, k, oid, devId, k');
    }
  }

  lemma {:induction false} AddEntry(t: Tracker, d: int, k: Key, oid: int, devId: int, k': Key)
    requires Agree(t) && k !in t.byKey && k' in t.byKey
    ensures EntryOf(Add(t, d, k, oid, devId), k') == EntryOf(t, k')
  {
    assert KeyAgrees(t, k');
  }

  lemma {:induction false} RemoveByKeyView(t: Tracker, k: Key)
    requires Agree(t)
    ensures Wf(t) && Agree(RemoveByKey(t, k))
    ensures View(RemoveByKey(t, k)) == View(t) - {k}
  {
    RemoveByKeyAgrees(t, k);
  }

  lemma {:induction false} MarkView(t: Tracker, k: Key, s: PartitionState)
    requires Agree(t) && k in t.byKey
    ensures Wf(t) && Agree(Mark(t, k, s))
    ensures View(Mark(t, k, s)) == View(t)[k := View(t)[k].(state := s)]
  {
    MarkAgrees(t, k, s);
    assert KeyAgrees(t, k);
    forall k' | k' in t.byKey && k' != k
      ensures EntryOf(Mark(t, k, s), k') == EntryOf(t, k')
    {
      assert KeyAgrees(t, k');
    }
  }

  lemma {:induction false} ReassignView(t: Tracker, k: Key, target: int)
    requires Agree(t) && k in t.byKey
    ensures Wf(t) && Agree(Reassign(t, k, target).0)
    ensures View(Reassign(t, k, target).0) == View(t)[k := View(t)[k].(home := target)]
  {
    ReassignAgrees(t, k, target);
    RehomedView(t, Reassign(t, k, target).0, k, target);
  }

  lemma {:induction false} RehomedView(t: Tracker, u: Tracker, k: Key, target: int)
    requires Agree(t) && k in t.byKey && t.byKey[k] < |t.heap|
    requires u.byKey == t.byKey && u.home == t.home[k := target]
    requires u.heap == t.heap[t.byKey[k] := InfoOf(t, k).(owner := target, devId := target)]
    ensures View(u) == View(t)[k := View(t)[k].(home := target)]
  {
    assert KeyAgrees(t, k);
    forall k' | k' in t.byKey && k' != k
      ensures EntryOf(u, k') == EntryOf(t, k')
    {
      assert KeyAgrees(t, k');
    }
  }

  function ClaimedView(v: map<Key, Entry>): map<Key, Entry> {
    map k | k in v :: if v[k].state == Idle then v[k].(state := Running) else v[k]
  }

  lemma {:induction false} ClaimEntry(t: Tracker, k: Key)
    requires Agree(t) && k in t.byKey
    ensures EntryOf(Claim(t), k) == ClaimedView(View(t))[k]
  {
    assert KeyAgrees(t, k);
  }

  lemma {:induction false} ClaimView(t: Tracker)
    requires Agree(t)
    ensures Agree(Claim(t)) && View(Claim(t)) == ClaimedView(View(t))
  {
    RestateAgrees(t, t.tracked, Idle, Running, false);
    forall k | k in t.byKey
      ensures EntryOf(Claim(t), k) == ClaimedView(View(t))[k]
    {
      ClaimEntry(t, k);
    }
  }

  /** Records homed at d stop running. */
  function FailedView(v: map<Key, Entry>, d: int): map<Key, Entry> {
    map k | k in v :: if v[k].home == d && v[k].state == Running then v[k].(state := Idle) else v[k]
  }

  lemma {:induction false} FailedEntry(t: Tracker, d: int, k: Key)
    requires Agree(t) && k in t.byKey
    ensures MarkDeviceFailed(t, d).byKey == t.byKey
    ensures EntryOf(MarkDeviceFailed(t, d), k) == FailedView(View(t), d)[k]
  {
    assert KeyAgrees(t, k);
    var p, h := t.byKey[k], t.home[k];
    if d in t.lists {
      assert ListAgrees(t, d, t.lists[d]);
      assert p in t.lists[d] <==> h == d by {
        if p in t.lists[d] {
          var i :| 0 <= i < |t.lists[d]| && t.lists[d][i] == p;
          assert Listed(t, d, p);
        }
      }
    }
  }

  lemma {:induction false} FailedDeviceAgrees(t: Tracker, d: int)
    requires Agree(t)
    ensures Agree(MarkDeviceFailed(t, d)) && MarkDeviceFailed(t, d).byKey == t.byKey
  {
    if d in t.lists {
      RestateAgrees(t, Elements(t.lists[d]), Running, Idle, true);
    }
  }

  lemma {:induction false} FailedDeviceView(t: Tracker, d: int)
    requires Agree(t)
    ensures Agree(MarkDeviceFailed(t, d))
    ensures View(MarkDeviceFailed(t, d)) == FailedView(View(t), d)
  {
    FailedDeviceAgrees(t, d);
    var u := MarkDeviceFailed(t, d);
    forall k | k in t.byKey
      ensures EntryOf(u, k) == FailedView(View(t), d)[k]
    {
      FailedEntry(t, d, k);
    }
  }
}
