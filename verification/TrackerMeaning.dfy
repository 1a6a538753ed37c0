/** The tracker means one table from keys to records: each operation on the four indexes is a plain change of it. */
module TrackerMeaning {
  import opened Keys
  import opened Tracker
  import opened TrackerLaws
  import opened TrackerRuns

  datatype Rec = Rec(oid: int, owner: int, state: PartitionState, devId: int, home: int)

  type Table = map<Key, Rec>

  function RecOf(t: Tracker, k: Key): Rec
    requires k in t.byKey
  {
    if t.byKey[k] < |t.heap| && k in t.home then
      var info := t.heap[t.byKey[k]];
      Rec(info.oid, info.owner, info.state, info.devId, t.home[k])
    else Rec(-1, -1, Finished, -1, -1)
  }

  function Meaning(t: Tracker): Table {
    map k | k in t.byKey :: RecOf(t, k)
  }

  // --------------------------------------------------------------------------
  // The operations on the table
  // --------------------------------------------------------------------------

  /** The record of a key that redistribution names a new device for moves there; its own device id stays. */
  function Handed(r: Rec, k: Key, failed: int, mapping: map<Key, int>): Rec {
    if r.home == failed && r.state == Idle && k in mapping then r.(owner := mapping[k], home := mapping[k]) else r
  }

  function Stopped(r: Rec, d: int): Rec {
    if r.home == d && r.state == Running then r.(state := Idle, owner := -1) else r
  }

  function Started(r: Rec): Rec {
    if r.state == Idle then r.(state := Running) else r
  }

  function Change(m: Table, op: Op): Table {
    match op
    case AddOp(d, k, oid, devId) => m[k := Rec(oid, d, Idle, devId, d)]
    case RemoveOp(d, k) => if k in m && m[k].home == d then m - {k} else m
    case RemoveByKeyOp(k) => m - {k}
    case ReassignOp(k, target) => if k in m then m[k := m[k].(owner := target, devId := target, home := target)] else m
    case DeviceFailedOp(d) => map k | k in m :: Stopped(m[k], d)
    case DeviceRunningOp(d) => map k | k in m :: if m[k].home == d then Started(m[k]) else m[k]
    case MarkOp(k, s) => if k in m then m[k := m[k].(state := s)] else m
    case ClaimOp => map k | k in m :: Started(m[k])
    case RedistributeOp(failed, mapping) => map k | k in m :: Handed(m[k], k, failed, mapping)
    case ClearOp(d) => map k | k in m && m[k].home != d :: m[k]
  }

  function ChangeAll(ops: seq<Op>): Table {
    if ops == [] then map[] else Change(ChangeAll(ops[..|ops| - 1]), ops[|ops| - 1])
  }

  // --------------------------------------------------------------------------
  // The operations on the indexes do the same
  // --------------------------------------------------------------------------

  lemma {:induction false} Known(t: Tracker, k: Key)
    requires Agree(t)
    ensures k in t.byKey <==> k in t.home
    ensures k in t.byKey ==> t.byKey[k] < |t.heap| && t.heap[t.byKey[k]].key == k
  {
    if k in t.byKey {
      assert KeyAgrees(t, k);
    }
  }

  /** A record sits in the list of its home, and in no other. */
  lemma {:induction false} ListedAtHome(t: Tracker, k: Key, d: int)
    requires Agree(t) && k in t.byKey && k in t.home && d in t.lists
    ensures t.byKey[k] in t.lists[d] <==> t.home[k] == d
  {
    assert KeyAgrees(t, k);
    if i :| 0 <= i < |t.lists[d]| && t.lists[d][i] == t.byKey[k] {
      assert ListAgrees(t, d, t.lists[d]);
      assert Listed(t, d, t.byKey[k]);
    }
  }

  lemma {:induction false} HomeListed(t: Tracker, k: Key)
    requires Agree(t) && k in t.byKey
    ensures k in t.home && t.home[k] in t.lists
  {
    assert KeyAgrees(t, k);
  }

  lemma {:induction false} AddChanges(t: Tracker, d: int, k: Key, oid: int, devId: int)
    requires Agree(t)
    ensures Meaning(Add(t, d, k, oid, devId)) == Change(Meaning(t), AddOp(d, k, oid, devId))
  {
    forall k' | k' in t.byKey && k' != k
      ensures RecOf(Add(t, d, k, oid, devId), k') == RecOf(t, k')
    {
      Known(t, k');
    }
  }

  lemma {:induction false} RemoveIsUnlink(t: Tracker, d: int, k: Key)
    requires Agree(t)
    ensures Wf(t)
    ensures var u := Remove(t, d, k);
            if k in t.byKey && t.home[k] == d
            then u.heap == t.heap && u.byKey == t.byKey - {k} && u.home == t.home - {k}
            else u == t
  {
    AgreeIsWf(t);
    if d in t.lists {
      FindKeyIsHome(t, d, k);
    }
    if k in t.byKey {
      HomeListed(t, k);
    }
  }

  lemma {:induction false} UnlinkMeans(t: Tracker, u: Tracker, k: Key)
    requires u.heap == t.heap && u.byKey == t.byKey - {k} && u.home == t.home - {k}
    ensures Meaning(u) == Meaning(t) - {k}
  {
    forall k' | k' in u.byKey
      ensures RecOf(u, k') == RecOf(t, k')
    {
    }
  }

  lemma {:induction false} RemoveChanges(t: Tracker, d: int, k: Key)
    requires Agree(t)
    ensures Wf(t) && Meaning(Remove(t, d, k)) == Change(Meaning(t), RemoveOp(d, k))
  {
    RemoveIsUnlink(t, d, k);
    Known(t, k);
    if k in t.byKey && t.home[k] == d {
      UnlinkMeans(t, Remove(t, d, k), k);
    }
  }

  lemma {:induction false} RemoveByKeyChanges(t: Tracker, k: Key)
    requires Agree(t)
    ensures Wf(t) && Meaning(RemoveByKey(t, k)) == Change(Meaning(t), RemoveByKeyOp(k))
  {
    RemoveByKeyAgrees(t, k);
    UnlinkMeans(t, RemoveByKey(t, k), k);
  }

  lemma {:induction false} OneRecord(t: Tracker, u: Tracker, k: Key, info: Info, d: int)
    requires Agree(t) && k in t.byKey && t.byKey[k] < |t.heap|
    requires u.byKey == t.byKey && u.heap == t.heap[t.byKey[k] := info] && u.home == t.home[k := d]
    ensures Meaning(u) == Meaning(t)[k := Rec(info.oid, info.owner, info.state, info.devId, d)]
  {
    Known(t, k);
    forall k' | k' in t.byKey && k' != k
      ensures RecOf(u, k') == RecOf(t, k')
    {
      Known(t, k');
    }
  }

  lemma {:induction false} ReassignOne(t: Tracker, k: Key, target: int)
    requires Agree(t) && Wf(t) && k in t.byKey && k in t.home && t.byKey[k] < |t.heap|
    ensures Meaning(Reassign(t, k, target).0)
            == Meaning(t)[k := RecOf(t, k).(owner := target, devId := target, home := target)]
  {
    ReassignAgrees(t, k, target);
    OneRecord(t, Reassign(t, k, target).0, k, InfoOf(t, k).(owner := target, devId := target), target);
  }

  lemma {:induction false} ReassignChanges(t: Tracker, k: Key, target: int)
    requires Agree(t)
    ensures Wf(t) && Meaning(Reassign(t, k, target).0) == Change(Meaning(t), ReassignOp(k, target))
    ensures Reassign(t, k, target).1 <==> k in Meaning(t)
  {
    AgreeIsWf(t);
    Known(t, k);
    if k in t.byKey {
      ReassignOne(t, k, target);
    } else {
      assert Reassign(t, k, target) == (t, false);
    }
  }

  lemma {:induction false} MarkChanges(t: Tracker, k: Key, s: PartitionState)
    requires Agree(t)
    ensures Wf(t) && Meaning(Mark(t, k, s)) == Change(Meaning(t), MarkOp(k, s))
  {
    AgreeIsWf(t);
    Known(t, k);
    if k in t.byKey {
      assert t.home == t.home[k := t.home[k]];
      OneRecord(t, Mark(t, k, s), k, InfoOf(t, k).(state := s), t.home[k]);
    }
  }

  lemma {:induction false} Pointwise(u: Tracker, m: Table)
    requires u.byKey.Keys == m.Keys && forall k | k in u.byKey :: RecOf(u, k) == m[k]
    ensures Meaning(u) == m
  {
  }

  /** What restating the records of one list does to a key: only a key that is homed there changes. */
  lemma {:induction false} RestatedOne(t: Tracker, u: Tracker, d: int, from: PartitionState, to: PartitionState,
                                       orphan: bool, k: Key)
    requires Agree(t) && k in t.byKey && d in t.lists
    requires u == t.(heap := Restate(t.heap, Elements(t.lists[d]), from, to, orphan))
    ensures var r := RecOf(t, k);
            RecOf(u, k) == if r.home == d && r.state == from
                           then r.(state := to, owner := if orphan then -1 else r.owner) else r
  {
    Known(t, k);
    ListedAtHome(t, k, d);
  }

  lemma {:induction false} SameKeys(t: Tracker, d: int)
    ensures MarkDeviceFailed(t, d).byKey == t.byKey && MarkDeviceRunning(t, d).byKey == t.byKey
  {
  }

  lemma {:induction false} FailedOne(t: Tracker, d: int, k: Key)
    requires Agree(t) && k in t.byKey
    ensures k in MarkDeviceFailed(t, d).byKey
    ensures RecOf(MarkDeviceFailed(t, d), k) == Stopped(RecOf(t, k), d)
  {
    Known(t, k);
    HomeListed(t, k);
    if d in t.lists {
      RestatedOne(t, MarkDeviceFailed(t, d), d, Running, Idle, true, k);
    }
  }

  lemma {:induction false} FailedChanges(t: Tracker, d: int)
    requires Agree(t)
    ensures Meaning(MarkDeviceFailed(t, d)) == Change(Meaning(t), DeviceFailedOp(d))
  {
    var u := MarkDeviceFailed(t, d);
    var m := Change(Meaning(t), DeviceFailedOp(d));
    SameKeys(t, d);
    forall k | k in u.byKey
      ensures RecOf(u, k) == m[k]
    {
      FailedOne(t, d, k);
    }
    Pointwise(u, m);
  }

  lemma {:induction false} RunningOne(t: Tracker, d: int, k: Key)
    requires Agree(t) && k in t.byKey
    ensures k in MarkDeviceRunning(t, d).byKey
    ensures var r := RecOf(t, k); RecOf(MarkDeviceRunning(t, d), k) == if r.home == d then Started(r) else r
  {
    Known(t, k);
    HomeListed(t, k);
    if d in t.lists {
      RestatedOne(t, MarkDeviceRunning(t, d), d, Idle, Running, false, k);
    }
  }

  lemma {:induction false} RunningChanges(t: Tracker, d: int)
    requires Agree(t)
    ensures Meaning(MarkDeviceRunning(t, d)) == Change(Meaning(t), DeviceRunningOp(d))
  {
    var u := MarkDeviceRunning(t, d);
    var m := Change(Meaning(t), DeviceRunningOp(d));
    SameKeys(t, d);
    forall k | k in u.byKey
      ensures RecOf(u, k) == m[k]
    {
      RunningOne(t, d, k);
    }
    Pointwise(u, m);
  }

  lemma {:induction false} ClaimOne(t: Tracker, k: Key)
    requires Agree(t) && k in t.byKey
    ensures RecOf(Claim(t), k) == Started(RecOf(t, k))
  {
    assert KeyAgrees(t, k);
  }

  lemma {:induction false} ClaimChanges(t: Tracker)
    requires Agree(t)
    ensures Meaning(Claim(t)) == Change(Meaning(t), ClaimOp)
  {
    var u := Claim(t);
    var m := Change(Meaning(t), ClaimOp);
    forall k | k in u.byKey
      ensures RecOf(u, k) == m[k]
    {
      ClaimOne(t, k);
    }
    Pointwise(u, m);
  }

  lemma {:induction false} ClearOne(t: Tracker, d: int, k: Key)
    requires Agree(t) && Wf(t) && k in ClearDevice(t, d).byKey
    ensures k in t.byKey && RecOf(ClearDevice(t, d), k) == RecOf(t, k)
  {
    Known(t, k);
    ClearDeviceAgrees(t, d);
    Known(ClearDevice(t, d), k);
  }

  lemma {:induction false} ClearChanges(t: Tracker, d: int)
    requires Agree(t)
    ensures Wf(t) && Meaning(ClearDevice(t, d)) == Change(Meaning(t), ClearOp(d))
  {
    AgreeIsWf(t);
    ClearDeviceAgrees(t, d);
    var u := ClearDevice(t, d);
    var m := Change(Meaning(t), ClearOp(d));
    forall k
      ensures k in u.byKey <==> k in m
    {
      Known(t, k);
    }
    forall k | k in u.byKey
      ensures RecOf(u, k) == m[k]
    {
      ClearOne(t, d, k);
    }
    Pointwise(u, m);
  }

  lemma {:induction false} HandOne(t: Tracker, q: nat, mapping: map<Key, int>, k: Key, p: nat)
    requires q < |t.heap| && p < |t.heap| && t.heap[p].key == k && k in t.home
    requires t.heap[q].key == k <==> q == p
    ensures var u := Hand(t, q, mapping);
            var moves := q == p && k in mapping;
            && u.heap[p] == (if moves then t.heap[p].(owner := mapping[k], state := Idle) else t.heap[p])
            && k in u.home && u.home[k] == (if moves then mapping[k] else t.home[k])
            && (forall i | 0 <= i < |t.heap| :: u.heap[i].key == t.heap[i].key)
  {
  }

  /** Of a list of records, k's is handed over exactly if it is in the list and has a new device. */
  lemma {:induction false} HandAllOne(t: Tracker, ps: seq<nat>, mapping: map<Key, int>, k: Key, p: nat)
    requires Within(ps, |t.heap|) && p < |t.heap| && t.heap[p].key == k && k in t.home
    requires forall i | 0 <= i < |ps| :: t.heap[ps[i]].key == k <==> ps[i] == p
    ensures var u := HandAll(t, ps, mapping);
            var moves := p in ps && k in mapping;
            && u.heap[p] == (if moves then t.heap[p].(owner := mapping[k], state := Idle) else t.heap[p])
            && k in u.home && u.home[k] == (if moves then mapping[k] else t.home[k])
    decreases |ps|
  {
    if ps != [] {
      HandOne(t, ps[0], mapping, k, p);
      HandAllOne(Hand(t, ps[0], mapping), ps[1..], mapping, k, p);
      assert ps == [ps[0]] + ps[1..];
    }
  }

  lemma {:induction false} MovingKeys(t: Tracker, failed: int, k: Key)
    requires Agree(t) && Wf(t) && failed in t.lists && k in t.byKey
    ensures var moving, p := IdleOf(t.heap, t.lists[failed]), t.byKey[k];
            && (forall i | 0 <= i < |moving| :: t.heap[moving[i]].key == k <==> moving[i] == p)
            && (p in moving <==> t.home[k] == failed && t.heap[p].state == Idle)
  {
    var moving := IdleOf(t.heap, t.lists[failed]);
    Known(t, k);
    ListedAtHome(t, k, failed);
    assert ListAgrees(t, failed, t.lists[failed]);
    forall i | 0 <= i < |moving|
      ensures t.heap[moving[i]].key == k <==> moving[i] == t.byKey[k]
    {
      assert moving[i] in moving && moving[i] in t.lists[failed];
      assert RecordAgrees(t, moving[i]);
    }
  }

  lemma {:induction false} RedistributeMoves(t: Tracker, failed: int, mapping: map<Key, int>, k: Key)
    requires Agree(t) && Wf(t) && failed in t.lists && k in t.byKey
    ensures k in Redistribute(t, failed, mapping).byKey
    ensures RecOf(Redistribute(t, failed, mapping), k) == Handed(RecOf(t, k), k, failed, mapping)
  {
    var moving := IdleOf(t.heap, t.lists[failed]);
    Known(t, k);
    MovingKeys(t, failed, k);
    HandAllByKey(t, moving, mapping);
    HandAllOne(t, moving, mapping, k, t.byKey[k]);
  }

  lemma {:induction false} RedistributeOne(t: Tracker, failed: int, mapping: map<Key, int>, k: Key)
    requires Agree(t) && Wf(t) && k in t.byKey
    ensures k in Redistribute(t, failed, mapping).byKey
    ensures RecOf(Redistribute(t, failed, mapping), k) == Handed(RecOf(t, k), k, failed, mapping)
  {
    HomeListed(t, k);
    Known(t, k);
    if failed in t.lists {
      RedistributeMoves(t, failed, mapping, k);
    }
  }

  lemma {:induction false} RedistributeKeys(t: Tracker, failed: int, mapping: map<Key, int>)
    requires Wf(t)
    ensures Redistribute(t, failed, mapping).byKey == t.byKey
  {
    if failed in t.lists {
      HandAllByKey(t, IdleOf(t.heap, t.lists[failed]), mapping);
    }
  }

  /** Redistribution changes the table so even where it leaves the lists in disagreement. */
  lemma {:induction false} RedistributeChanges(t: Tracker, failed: int, mapping: map<Key, int>)
    requires Agree(t)
    ensures Wf(t) && Meaning(Redistribute(t, failed, mapping)) == Change(Meaning(t), RedistributeOp(failed, mapping))
  {
    AgreeIsWf(t);
    var u := Redistribute(t, failed, mapping);
    var m := Change(Meaning(t), RedistributeOp(failed, mapping));
    RedistributeKeys(t, failed, mapping);
    forall k | k in u.byKey
      ensures RecOf(u, k) == m[k]
    {
      RedistributeOne(t, failed, mapping, k);
    }
    Pointwise(u, m);
  }

  /** Every operation on an agreeing tracker is the change of the table that it stands for. */
  lemma {:induction false} ApplyChanges(t: Tracker, op: Op)
    requires Agree(t)
    ensures Wf(t) && Meaning(Apply(t, op)) == Change(Meaning(t), op)
  {
    AgreeIsWf(t);
    match op
    case AddOp(d, k, oid, devId) => AddChanges(t, d, k, oid, devId);
    case RemoveOp(d, k) => RemoveChanges(t, d, k);
    case RemoveByKeyOp(k) => RemoveByKeyChanges(t, k);
    case ReassignOp(k, target) => ReassignChanges(t, k, target);
    case DeviceFailedOp(d) => FailedChanges(t, d);
    case DeviceRunningOp(d) => RunningChanges(t, d);
    case MarkOp(k, s) => MarkChanges(t, k, s);
    case ClaimOp => ClaimChanges(t);
    case RedistributeOp(failed, mapping) => RedistributeChanges(t, failed, mapping);
    case ClearOp(d) => ClearChanges(t, d);
  }

  /** In every state of every permitted run the four indexes mean the table the operations make. */
  lemma {:induction false} RunMeans(ss: seq<Tracker>, ops: seq<Op>, n: nat)
    requires IsRun(ss, ops) && n < |ss|
    ensures Meaning(ss[n]) == ChangeAll(ops[..n])
  {
    if n > 0 {
      RunMeans(ss, ops, n - 1);
      RunAgrees(ss, ops, n - 1);
      assert Step(ss[n - 1], ops[n - 1], ss[n]);
      ApplyChanges(ss[n - 1], ops[n - 1]);
      assert ops[..n][..n - 1] == ops[..n - 1];
    }
  }
}
