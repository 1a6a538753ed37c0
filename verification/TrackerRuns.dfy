/** Whole runs of tracker operations. */
module TrackerRuns {
  import opened Keys
  import opened Tracker
  import opened TrackerLaws

  datatype Op =
    | AddOp(d: int, k: Key, oid: int, devId: int)
    | RemoveOp(d: int, k: Key)
    | RemoveByKeyOp(k: Key)
    | ReassignOp(k: Key, target: int)
    | DeviceFailedOp(d: int)
    | DeviceRunningOp(d: int)
    | MarkOp(k: Key, s: PartitionState)
    | ClaimOp
    | RedistributeOp(failed: int, mapping: map<Key, int>)
    | ClearOp(d: int)

  function Apply(t: Tracker, op: Op): Tracker
    requires Wf(t)
  {
    match op
    case AddOp(d, k, oid, devId) => Add(t, d, k, oid, devId)
    case RemoveOp(d, k) => Remove(t, d, k)
    case RemoveByKeyOp(k) => RemoveByKey(t, k)
    case ReassignOp(k, target) => Reassign(t, k, target).0
    case DeviceFailedOp(d) => MarkDeviceFailed(t, d)
    case DeviceRunningOp(d) => MarkDeviceRunning(t, d)
    case MarkOp(k, s) => Mark(t, k, s)
    case ClaimOp => Claim(t)
    case RedistributeOp(failed, mapping) => Redistribute(t, failed, mapping)
    case ClearOp(d) => ClearDevice(t, d)
  }

  /** What a caller must see to: fresh keys, and safe redistributions. */
  ghost predicate Permitted(t: Tracker, op: Op)
    requires Wf(t)
  {
    match op
    case AddOp(_, k, _, _) => k !in t.byKey
    case RedistributeOp(failed, mapping) => SafeToRedistribute(t, failed, mapping)
    case _ => true
  }

  /** An operation keeps the four indexes in agreement exactly when it is permitted. */
  lemma {:induction false} ApplyAgrees(t: Tracker, op: Op)
    requires Agree(t)
    ensures Wf(t)
    ensures Agree(Apply(t, op)) <==> Permitted(t, op)
  {
    AgreeIsWf(t);
    match op
    case AddOp(d, k, oid, devId) => AddAgrees(t, d, k, oid, devId);
    case RemoveOp(d, k) => RemoveAgrees(t, d, k);
    case RemoveByKeyOp(k) => RemoveByKeyAgrees(t, k);
    case ReassignOp(k, target) => ReassignAgrees(t, k, target);
    case DeviceFailedOp(d) =>
      if d in t.lists {
        RestateAgrees(t, Elements(t.lists[d]), Running, Idle, true);
      }
    case DeviceRunningOp(d) =>
      if d in t.lists {
        RestateAgrees(t, Elements(t.lists[d]), Idle, Running, false);
      }
    case MarkOp(k, s) => MarkAgrees(t, k, s);
    case ClaimOp => RestateAgrees(t, t.tracked, Idle, Running, false);
    case RedistributeOp(failed, mapping) => RedistributeAgrees(t, failed, mapping);
    case ClearOp(d) => ClearDeviceAgrees(t, d);
  }

  ghost predicate Step(t: Tracker, op: Op, t': Tracker) {
    Wf(t) && Permitted(t, op) && t' == Apply(t, op)
  }

  ghost predicate IsRun(ss: seq<Tracker>, ops: seq<Op>) {
    && |ss| == |ops| + 1
    && ss[0] == EMPTY
    && forall i | 0 <= i < |ops| :: Step(ss[i], ops[i], ss[i + 1])
  }

  /** After any run of permitted operations the indexes agree. */
  lemma {:induction false} RunAgrees(ss: seq<Tracker>, ops: seq<Op>, n: nat)
    requires IsRun(ss, ops) && n < |ss|
    ensures Agree(ss[n])
  {
    if n > 0 {
      RunAgrees(ss, ops, n - 1);
      assert Step(ss[n - 1], ops[n - 1], ss[n]);
      ApplyAgrees(ss[n - 1], ops[n - 1]);
    }
  }

  /** After any run, a tracked key sits at exactly one place, in the list its reverse index names. */
  lemma {:induction false} RunListsOnce(ss: seq<Tracker>, ops: seq<Op>, n: nat, k: Key)
    requires IsRun(ss, ops) && n < |ss| && k in ss[n].byKey
    ensures k in ss[n].home && ss[n].home[k] in ss[n].lists
    ensures exists i :: 0 <= i < |ss[n].lists[ss[n].home[k]]| && ss[n].lists[ss[n].home[k]][i] == ss[n].byKey[k]
    ensures forall d, i, j | d in ss[n].lists && 0 <= i < |ss[n].lists[d]| && 0 <= j < |ss[n].lists[d]|
                             && ss[n].lists[d][i] == ss[n].byKey[k] && ss[n].lists[d][j] == ss[n].byKey[k] ::
              d == ss[n].home[k] && i == j
  {
    RunAgrees(ss, ops, n);
    var t := ss[n];
    assert KeyAgrees(t, k);
    forall d, i, j | d in t.lists && 0 <= i < |t.lists[d]| && 0 <= j < |t.lists[d]|
                     && t.lists[d][i] == t.byKey[k] && t.lists[d][j] == t.byKey[k]
      ensures d == t.home[k] && i == j
    {
      ListedOnce(t, k, d, i);
    }
  }

  // --------------------------------------------------------------------------
  // Claims
  // --------------------------------------------------------------------------

  ghost predicate IsIdle(t: Tracker, k: Key) {
    k in t.byKey && t.byKey[k] < |t.heap| && InfoOf(t, k).state == Idle
  }

  /** A claim takes exactly the idle keys, and leaves none idle. */
  lemma {:induction false} ClaimTakesIdle(t: Tracker, k: Key)
    requires Agree(t)
    ensures Wf(t)
    ensures IsIdle(t, k) <==> k in t.byKey && t.byKey[k] in IdleOnes(t)
    ensures !IsIdle(Claim(t), k)
    ensures k in t.byKey ==> k in Claim(t).byKey && t.byKey[k] < |t.heap|
                             && InfoOf(Claim(t), k) == if IsIdle(t, k) then InfoOf(t, k).(state := Running)
                                else InfoOf(t, k)
  {
    AgreeIsWf(t);
    if k in t.byKey {
      assert KeyAgrees(t, k);
    }
  }

  /** `op` puts k back to idle: it marks it so, or its device fails, or it is added anew. */
  ghost predicate PutsBack(t: Tracker, op: Op, k: Key) {
    || op == MarkOp(k, Idle)
    || (op.DeviceFailedOp? && k in t.home && t.home[k] == op.d)
    || (op.AddOp? && op.k == k)
  }

  lemma {:induction false} HandAllStates(t: Tracker, ps: seq<nat>, mapping: map<Key, int>, p: nat)
    requires Within(ps, |t.heap|) && p < |t.heap|
    requires forall i | 0 <= i < |ps| :: t.heap[ps[i]].state == Idle
    ensures HandAll(t, ps, mapping).heap[p].state == t.heap[p].state
    decreases |ps|
  {
    if ps != [] {
      HandAllStates(Hand(t, ps[0], mapping), ps[1..], mapping, p);
    }
  }

  lemma {:induction false} RedistributeKeepsStates(t: Tracker, failed: int, mapping: map<Key, int>, k: Key)
    requires Agree(t)
    ensures Wf(t)
    ensures IsIdle(Redistribute(t, failed, mapping), k) ==> IsIdle(t, k)
  {
    AgreeIsWf(t);
    if failed in t.lists && k in t.byKey {
      var moving := IdleOf(t.heap, t.lists[failed]);
      forall i | 0 <= i < |moving|
        ensures t.heap[moving[i]].state == Idle
      {
        assert moving[i] in moving;
      }
      HandAllByKey(t, moving, mapping);
      HandAllStates(t, moving, mapping, t.byKey[k]);
    } else if failed in t.lists {
      HandAllByKey(t, IdleOf(t.heap, t.lists[failed]), mapping);
    }
  }

  /** Only three kinds of operation make a key idle. */
  lemma {:induction false} OnlyPutsBack(t: Tracker, op: Op, k: Key)
    requires Agree(t) && Wf(t) && Permitted(t, op)
    requires !IsIdle(t, k) && IsIdle(Apply(t, op), k)
    ensures PutsBack(t, op, k)
  {
    if k in t.byKey {
      assert KeyAgrees(t, k);
    }
    match op
    case AddOp(d, k', oid, devId) =>
    case RemoveOp(d, k') => RemoveAgrees(t, d, k');
    case RemoveByKeyOp(k') => RemoveByKeyAgrees(t, k');
    case ReassignOp(k', target) => ReassignAgrees(t, k', target);
    case DeviceFailedOp(d) =>
      if t.home[k] != d {
        FailedTouchesOwn(t, d, k);
      }
    case DeviceRunningOp(d) =>
    case MarkOp(k', s) =>
      if k' != k {
        MarkTouchesOne(t, k', s, k);
      }
    case ClaimOp =>
    case RedistributeOp(failed, mapping) => RedistributeKeepsStates(t, failed, mapping, k);
    case ClearOp(d) => ClearDeviceAgrees(t, d);
  }

  lemma {:induction false} FailedTouchesOwn(t: Tracker, d: int, k: Key)
    requires Agree(t) && k in t.byKey && k in t.home && t.home[k] != d
    ensures MarkDeviceFailed(t, d).byKey == t.byKey && t.byKey[k] < |t.heap|
    ensures InfoOf(MarkDeviceFailed(t, d), k) == InfoOf(t, k)
  {
    assert KeyAgrees(t, k);
    if d in t.lists {
      assert ListAgrees(t, d, t.lists[d]);
    }
  }

  lemma {:induction false} MarkTouchesOne(t: Tracker, k': Key, s: PartitionState, k: Key)
    requires Agree(t) && k in t.byKey && k' != k
    ensures Wf(t) && Mark(t, k', s).byKey == t.byKey && t.byKey[k] < |t.heap|
    ensures InfoOf(Mark(t, k', s), k) == InfoOf(t, k)
  {
    AgreeIsWf(t);
    assert KeyAgrees(t, k);
    if k' in t.byKey {
      assert KeyAgrees(t, k');
    }
  }

  lemma {:induction false} BecomesIdle(ss: seq<Tracker>, ops: seq<Op>, i: nat, j: nat, k: Key) returns (m: nat)
    requires IsRun(ss, ops) && i < j < |ss|
    requires !IsIdle(ss[i], k) && IsIdle(ss[j], k)
    ensures i <= m < j && !IsIdle(ss[m], k) && IsIdle(ss[m + 1], k)
    decreases j - i
  {
    if IsIdle(ss[j - 1], k) {
      m := BecomesIdle(ss, ops, i, j - 1, k);
    } else {
      m := j - 1;
    }
  }

  /** In any run, two claims take the same key only if something put it back to idle in between. */
  lemma {:induction false} ClaimsAreExclusive(ss: seq<Tracker>, ops: seq<Op>, i: nat, j: nat, k: Key)
    requires IsRun(ss, ops) && i < j < |ops|
    requires ops[i] == ClaimOp && IsIdle(ss[i], k)
    requires ops[j] == ClaimOp && IsIdle(ss[j], k)
    ensures exists m :: i < m < j && !IsIdle(ss[m], k) && IsIdle(ss[m + 1], k) && PutsBack(ss[m], ops[m], k)
  {
    RunAgrees(ss, ops, i);
    assert Step(ss[i], ops[i], ss[i + 1]);
    ClaimTakesIdle(ss[i], k);
    var m := BecomesIdle(ss, ops, i + 1, j, k);
    RunAgrees(ss, ops, m);
    assert Step(ss[m], ops[m], ss[m + 1]);
    OnlyPutsBack(ss[m], ops[m], k);
  }
}
