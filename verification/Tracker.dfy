/**
 The partition tracker: four indexes over shared partition records.

 A record is reached through pointers held by the set, the key map and the device
 lists at once, so the model keeps the records in `heap` and the indexes hold pointers
 (positions) into it.
 */
module Tracker {
  import opened Sequences
  import opened Keys

  datatype PartitionState = Idle | Running | Finished

  datatype Info = Info(key: Key, oid: int, owner: int, state: PartitionState, devId: int)

  datatype Tracker = Tracker(
    heap: seq<Info>,
    tracked: set<nat>,
    byKey: map<Key, nat>,
    lists: map<int, seq<nat>>,
    home: map<Key, int>)

  const EMPTY := Tracker([], {}, map[], map[], map[])

  /** No index holds a dangling pointer. */
  ghost predicate Wf(t: Tracker) {
    && (forall p | p in t.tracked :: p < |t.heap|)
    && (forall k | k in t.byKey :: t.byKey[k] < |t.heap|)
    && (forall d | d in t.lists :: Within(t.lists[d], |t.heap|))
  }

  ghost predicate Within(list: seq<nat>, n: nat) {
    forall i | 0 <= i < |list| :: list[i] < n
  }

  /** Record p is tracked and homed at d. */
  ghost predicate Listed(t: Tracker, d: int, p: nat) {
    p < |t.heap| && p in t.tracked && t.heap[p].key in t.home && t.home[t.heap[p].key] == d
  }

  ghost predicate RecordAgrees(t: Tracker, p: nat) {
    p < |t.heap| && t.heap[p].key in t.byKey && t.byKey[t.heap[p].key] == p
  }

  /** A device list: non-empty, each record once, every record tracked and homed there. */
  ghost predicate ListAgrees(t: Tracker, d: int, list: seq<nat>) {
    && list != [] && NoRepeat(list)
    && forall i | 0 <= i < |list| :: Listed(t, d, list[i])
  }

  /** A key: one tracked record, listed where the reverse index says. */
  ghost predicate KeyAgrees(t: Tracker, k: Key) {
    && k in t.byKey && k in t.home
    && t.byKey[k] < |t.heap| && t.byKey[k] in t.tracked && t.heap[t.byKey[k]].key == k
    && t.home[k] in t.lists && t.byKey[k] in t.lists[t.home[k]]
  }

  /** The four indexes tell the same story. */
  ghost predicate Agree(t: Tracker) {
    && t.home.Keys == t.byKey.Keys
    && (forall p | p in t.tracked :: RecordAgrees(t, p))
    && (forall k | k in t.byKey :: KeyAgrees(t, k))
    && (forall d | d in t.lists :: ListAgrees(t, d, t.lists[d]))
  }

  lemma {:induction false} AgreeIsWf(t: Tracker)
    requires Agree(t)
    ensures Wf(t)
  {
    forall k | k in t.byKey
      ensures t.byKey[k] < |t.heap|
    {
      assert KeyAgrees(t, k);
    }
    forall d | d in t.lists
      ensures Within(t.lists[d], |t.heap|)
    {
      assert ListAgrees(t, d, t.lists[d]);
    }
  }

  /** In an agreeing tracker a record is listed in exactly one place. */
  lemma {:induction false} ListedOnce(t: Tracker, k: Key, d: int, i: nat)
    requires Agree(t) && k in t.byKey
    requires d in t.lists && i < |t.lists[d]| && t.lists[d][i] == t.byKey[k]
    ensures k in t.home && t.home[k] == d
    ensures forall j | 0 <= j < |t.lists[d]| && t.lists[d][j] == t.byKey[k] :: j == i
  {
    assert KeyAgrees(t, k);
    assert ListAgrees(t, d, t.lists[d]);
    assert t.lists[d][i] in t.lists[d];
  }

  function InfoOf(t: Tracker, k: Key): Info
    requires k in t.byKey && t.byKey[k] < |t.heap|
  {
    t.heap[t.byKey[k]]
  }

  // --------------------------------------------------------------------------
  // Sequence helpers
  // --------------------------------------------------------------------------

  /** Pointers of a list whose record has another key (remove_if). */
  function Without(heap: seq<Info>, list: seq<nat>, k: Key): (res: seq<nat>)
    requires Within(list, |heap|)
    ensures Within(res, |heap|)
    ensures forall p :: p in res <==> p in list && p < |heap| && heap[p].key != k
  {
    if list == [] then []
    else
      var rest := Without(heap, list[1..], k);
      assert list == [list[0]] + list[1..];
      if heap[list[0]].key == k then rest else [list[0]] + rest
  }

  lemma {:induction false} WithoutNoRepeat(heap: seq<Info>, list: seq<nat>, k: Key)
    requires Within(list, |heap|)
    requires NoRepeat(list)
    ensures NoRepeat(Without(heap, list, k))
  {
    if list != [] {
      var rest := list[1..];
      WithoutNoRepeat(heap, rest, k);
      assert list[0] !in rest;
    }
  }

  /** Position of the first record with a key, or the length if there is none (find_if). */
  function FindKey(heap: seq<Info>, list: seq<nat>, k: Key): (i: nat)
    requires Within(list, |heap|)
    ensures i <= |list|
    ensures i < |list| ==> heap[list[i]].key == k
    ensures forall j | 0 <= j < i :: heap[list[j]].key != k
  {
    if list == [] then 0
    else if heap[list[0]].key == k then 0
    else
      1 + FindKey(heap, list[1..], k)
  }

  function DropAt(list: seq<nat>, i: nat): seq<nat>
    requires i < |list|
  {
    list[..i] + list[i + 1..]
  }

  /** A device's list replaced; an empty list is erased. */
  function SetList(lists: map<int, seq<nat>>, d: int, list: seq<nat>): map<int, seq<nat>> {
    if list == [] then lists - {d} else lists[d := list]
  }

  function ListAt(lists: map<int, seq<nat>>, d: int): seq<nat> {
    if d in lists then lists[d] else []
  }

  // --------------------------------------------------------------------------
  // Operations
  // --------------------------------------------------------------------------

  function Add(t: Tracker, d: int, k: Key, oid: int, devId: int): Tracker {
    var p := |t.heap|;
    Tracker(t.heap + [Info(k, oid, d, Idle, devId)],
            t.tracked + {p},
            t.byKey[k := p],
            t.lists[d := ListAt(t.lists, d) + [p]],
            t.home[k := d])
  }

  function Remove(t: Tracker, d: int, k: Key): Tracker
    requires Wf(t)
  {
    if d !in t.lists then t
    else
      assert Within(t.lists[d], |t.heap|);
      var i := FindKey(t.heap, t.lists[d], k);
      if i == |t.lists[d]| then t
      else
        t.(tracked := t.tracked - {t.lists[d][i]},
           byKey := t.byKey - {k},
           lists := SetList(t.lists, d, DropAt(t.lists[d], i)),
           home := t.home - {k})
  }

  function RemoveByKey(t: Tracker, k: Key): Tracker
    requires Wf(t)
  {
    if k !in t.home then t
    else
      var d := t.home[k];
      var t1 := t.(home := t.home - {k});
      var t2 := if k in t.byKey
                then t1.(tracked := t.tracked - {t.byKey[k]}, byKey := t.byKey - {k})
                else t1;
      if d !in t.lists then t2
      else
        assert Within(t.lists[d], |t.heap|);
        var i := FindKey(t.heap, t.lists[d], k);
        if i == |t.lists[d]| then t2
        else t2.(lists := SetList(t.lists, d, DropAt(t.lists[d], i)))
  }

  /** The lists after a key's record has left the list its reverse index names. */
  function Detach(t: Tracker, k: Key): (lists: map<int, seq<nat>>)
    requires Wf(t)
    ensures forall d | d in lists :: Within(lists[d], |t.heap|)
  {
    if k !in t.home then t.lists
    else
      var d := t.home[k];
      if d in t.lists then SetList(t.lists, d, Without(t.heap, t.lists[d], k)) else t.lists
  }

  function Reassign(t: Tracker, k: Key, target: int): (r: (Tracker, bool))
    requires Wf(t)
  {
    if k !in t.byKey then (t, false)
    else
      var p := t.byKey[k];
      var lists := Detach(t, k);
      var list := Without(t.heap, ListAt(lists, target), k) + [p];
      (t.(heap := t.heap[p := t.heap[p].(owner := target, devId := target)],
          lists := lists[target := list],
          home := t.home[k := target]),
       true)
  }

  /** Records of `ps` in state `from` move to state `to`; their owner is cleared if asked. */
  function Restate(heap: seq<Info>, ps: set<nat>, from: PartitionState, to: PartitionState,
                   orphan: bool): (res: seq<Info>)
    ensures |res| == |heap|
  {
    seq(|heap|, p requires 0 <= p < |heap| =>
      if p in ps && heap[p].state == from
      then heap[p].(state := to, owner := if orphan then -1 else heap[p].owner)
      else heap[p])
  }

  /** One record more. */
  lemma {:induction false} RestateNext(heap: seq<Info>, ps: set<nat>, p: nat, from: PartitionState,
                                       to: PartitionState, orphan: bool)
    requires p < |heap| && from != to
    ensures var before := Restate(heap, ps, from, to, orphan);
            Restate(heap, ps + {p}, from, to, orphan)
            == if before[p].state != from then before
               else before[p := before[p].(state := to, owner := if orphan then -1 else before[p].owner)]
  {
  }

  lemma {:induction false} RestateNone(heap: seq<Info>, from: PartitionState, to: PartitionState, orphan: bool)
    ensures Restate(heap, {}, from, to, orphan) == heap
  {
  }

  function Elements(list: seq<nat>): set<nat> {
    set p | p in list
  }

  function MarkDeviceFailed(t: Tracker, d: int): Tracker {
    if d !in t.lists then t
    else t.(heap := Restate(t.heap, Elements(t.lists[d]), Running, Idle, true))
  }

  function MarkDeviceRunning(t: Tracker, d: int): Tracker {
    if d !in t.lists then t
    else t.(heap := Restate(t.heap, Elements(t.lists[d]), Idle, Running, false))
  }

  /** Marking one partition RUNNING, FINISHED, FAILED (stored as IDLE) or IDLE. */
  function Mark(t: Tracker, k: Key, s: PartitionState): (u: Tracker)
    requires Wf(t)
    ensures Wf(u)
  {
    if k !in t.byKey then t
    else t.(heap := t.heap[t.byKey[k] := InfoOf(t, k).(state := s)])
  }

  function IdleOnes(t: Tracker): set<nat>
    requires Wf(t)
  {
    set p | p in t.tracked && t.heap[p].state == Idle
  }

  function Claim(t: Tracker): Tracker {
    t.(heap := Restate(t.heap, t.tracked, Idle, Running, false))
  }

  function ClearDevice(t: Tracker, d: int): Tracker
    requires Wf(t)
  {
    if d !in t.lists then t
    else
      assert Within(t.lists[d], |t.heap|);
      var keys := set i | 0 <= i < |t.lists[d]| :: t.heap[t.lists[d][i]].key;
      t.(tracked := t.tracked - Elements(t.lists[d]),
         byKey := t.byKey - keys,
         lists := t.lists - {d},
         home := t.home - keys)
  }

  /** The idle records of a list, in order. */
  function IdleOf(heap: seq<Info>, list: seq<nat>): (res: seq<nat>)
    requires Within(list, |heap|)
    ensures Within(res, |heap|)
    ensures forall p :: p in res <==> p in list && p < |heap| && heap[p].state == Idle
  {
    if list == [] then []
    else
      var rest := IdleOf(heap, list[1..]);
      assert list == [list[0]] + list[1..];
      if heap[list[0]].state == Idle then [list[0]] + rest else rest
  }

  /** One record handed to the device the policy chose; nothing happens without a choice. */
  function Hand(t: Tracker, p: nat, mapping: map<Key, int>): (res: Tracker)
    requires p < |t.heap|
    ensures |res.heap| == |t.heap| && (Wf(t) ==> Wf(res))
  {
    var k := t.heap[p].key;
    if k !in mapping then t
    else
      t.(heap := t.heap[p := t.heap[p].(owner := mapping[k], state := Idle)],
         lists := t.lists[mapping[k] := ListAt(t.lists, mapping[k]) + [p]],
         home := t.home[k := mapping[k]])
  }

  function HandAll(t: Tracker, ps: seq<nat>, mapping: map<Key, int>): (res: Tracker)
    requires Within(ps, |t.heap|)
    ensures |res.heap| == |t.heap|
    decreases |ps|
  {
    if ps == [] then t
    else
      HandAll(Hand(t, ps[0], mapping), ps[1..], mapping)
  }

  function Redistribute(t: Tracker, failed: int, mapping: map<Key, int>): Tracker
    requires Wf(t)
  {
    if failed !in t.lists then t
    else
      assert Within(t.lists[failed], |t.heap|);
      var moving := IdleOf(t.heap, t.lists[failed]);
      if moving == [] then t
      else
        var t1 := HandAll(t, moving, mapping);
        t1.(lists := t1.lists - {failed})
  }
}
