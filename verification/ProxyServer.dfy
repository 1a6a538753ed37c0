/**
 The server's own code: callbacks that change its counters, outputs and tracker, and send
 on its links.  Each method is a run of the protocol's steps.
 */
module ProxyServing {
  import opened Sequences
  import opened Tiling
  import opened Keys
  import opened Tracker
  import opened TrackerView
  import opened PartitionTracking
  import opened Protocol
  import opened ProtocolInvariant
  import opened ProtocolSteps
  import opened ProtocolDispatch
  import opened ProtocolRuns
  import opened ProxySweep
  import opened Nonlinear
  import OperationId
  import CounterBalance

  /** The claimed records' keys are the idle keys, each once. */
  lemma {:induction false} ClaimedKeys(t: Tracker, claimed: seq<nat>, keys: seq<Key>)
    requires Agree(t) && Wf(t) && NoRepeat(claimed) && Elements(claimed) == IdleOnes(t)
    requires |keys| == |claimed| && forall i | 0 <= i < |claimed| ::
              claimed[i] < |t.heap|
              && keys[i] == t.heap[claimed[i]].key
    ensures Lists(keys, IdleKeys(View(t)))
  {
    forall i | 0 <= i < |keys|
      ensures keys[i] in IdleKeys(View(t)) && t.byKey[keys[i]] == claimed[i]
    {
      assert claimed[i] in Elements(claimed);
      assert RecordAgrees(t, claimed[i]) && KeyAgrees(t, keys[i]);
    }
    forall k | k in IdleKeys(View(t))
      ensures k in keys
    {
      assert KeyAgrees(t, k);
      assert t.byKey[k] in Elements(claimed);
      var i :| 0 <= i < |claimed| && claimed[i] == t.byKey[k];
      assert keys[i] == k;
    }
  }

  ghost predicate Lists(keys: seq<Key>, s: set<Key>) {
    NoRepeat(keys) && forall k :: k in s <==> k in keys
  }

  function Firsts(keys: seq<Key>, n: nat): set<Key>
    requires n <= |keys|
  {
    set i | 0 <= i < n :: keys[i]
  }

  lemma {:induction false} FirstsNext(keys: seq<Key>, s: set<Key>, n: nat)
    requires Lists(keys, s) && n < |keys|
    ensures Firsts(keys, n + 1) == Firsts(keys, n) + {keys[n]}
    ensures keys[n] !in Firsts(keys, n) && keys[n] in s
  {
    assert keys[n] in keys;
  }

  lemma {:induction false} FirstsAll(keys: seq<Key>, s: set<Key>)
    requires Lists(keys, s)
    ensures Firsts(keys, |keys|) == s
  {
  }

  /** The claimed tiles with a target, in order. */
  function Targeted(keys: seq<Key>, targets: map<Key, int>): seq<Key> {
    if keys == [] then []
    else
      var n := |keys| - 1;
      Targeted(keys[..n], targets) + (if keys[n] in targets then [keys[n]] else [])
  }

  lemma {:induction false} TargetedNext(keys: seq<Key>, i: nat, targets: map<Key, int>)
    requires i < |keys|
    ensures Targeted(keys[..i + 1], targets)
            == Targeted(keys[..i], targets) + (if keys[i] in targets then [keys[i]] else [])
  {
    assert keys[..i + 1][..i] == keys[..i];
  }

  lemma {:induction false} TargetedMeans(keys: seq<Key>, targets: map<Key, int>)
    requires NoRepeat(keys)
    ensures forall k :: k in Targeted(keys, targets) <==> k in keys && k in targets
    ensures NoRepeat(Targeted(keys, targets))
  {
    if keys != [] {
      var n := |keys| - 1;
      TargetedMeans(keys[..n], targets);
      assert keys == keys[..n] + [keys[n]] && keys[n] !in keys[..n];
      OnceMore(Targeted(keys[..n], targets), keys[n]);
    }
  }

  lemma {:induction false} TargetedLists(keys: seq<Key>, v: map<Key, Entry>, targets: map<Key, int>)
    requires Lists(keys, IdleKeys(v))
    ensures Lists(Targeted(keys, targets), ReadyKeys(v, targets))
  {
    TargetedMeans(keys, targets);
  }

  lemma {:induction false} OnceMore(keys: seq<Key>, k: Key)
    requires NoRepeat(keys) && k !in keys
    ensures NoRepeat(keys + [k])
  {
  }

  datatype Answer<T> = OutOfRange | Pending | Empty | Result(output: seq<T>)

  class ProxyServer<T(==, !new)> {
    const parts: PartitionTracker
    var mmCount: nat
    ghost var versions: set<nat>
    var operations: map<nat, Operation<T>>
    ghost var adding: map<nat, seq<Tile>>
    ghost var returned: set<nat>
    ghost var limbo: set<Key>
    var links: map<int, multiset<Msg<T>>>
    ghost var handling: map<Key, Handling>
    var rspCbCounts: map<nat, nat>
    var outputs: map<nat, seq<T>>
    var log: seq<CounterBalance.Record>

    ghost function State(): Server<T>
      reads this, parts
    {
      Server(mmCount, versions, operations, adding, returned, parts.State(), limbo, links, handling, rspCbCounts,
        outputs, log)
    }

    constructor ()
      ensures fresh(parts) && State() == Init()
    {
      parts := new PartitionTracker();
      mmCount, versions, operations, adding, returned, limbo := 0, {}, map[], map[], {}, {};
      links, handling, rspCbCounts, outputs, log := map[], map[], map[], map[], [];
    }

    // ------------------------------------------------------------------------
    // SendIdlePartitions
    // ------------------------------------------------------------------------

    method KeysOf(claimed: seq<nat>) returns (keys: seq<Key>)
      requires forall i | 0 <= i < |claimed| :: claimed[i] < |parts.heap|
      ensures |keys| == |claimed| && forall i | 0 <= i < |claimed| :: keys[i] == parts.heap[claimed[i]].key
    {
      keys := [];
      for i := 0 to |claimed|
        invariant |keys| == i && forall j | 0 <= j < i :: keys[j] == parts.heap[claimed[j]].key
      {
        keys := keys + [parts.heap[claimed[i]].key];
      }
    }

    method ClaimAll() returns (keys: seq<Key>)
      requires Agree(parts.State())
      modifies this, parts
      ensures State() == DoClaim(old(State())) && Lists(keys, IdleKeys(View(old(parts.State()))))
    {
      ghost var before := parts.State();
      AgreeIsWf(before);
      var claimed := parts.ClaimIdlePartitions();
      limbo := limbo + IdleKeys(View(before));
      ClaimedWithin(before, claimed);
      keys := KeysOf(claimed);
      ClaimedKeys(before, claimed, keys);
    }

    method AssignTile(k: Key, target: int) returns (ok: bool)
      requires Wf(parts.State())
      modifies parts
      ensures State() == DoAssign(old(State()), k, target) && ok == (k in old(parts.State()).byKey)
    {
      ok := parts.ReassignPartitionToDevice(k, target);
    }

    method ReleaseTile(k: Key)
      requires Wf(parts.State())
      modifies this, parts
      ensures State() == DoRelease(old(State()), k)
    {
      parts.MarkPartition(k, Idle);
      limbo := limbo - {k};
    }

    /** Serializes the tile's blocks and puts them on the device's link. */
    method SendInLoop(k: Key, device: int)
      requires k in View(parts.State()) && View(parts.State())[k].home == device && device in links
      requires Belongs(State(), View(parts.State())[k].oid, k) && operations[View(parts.State())[k].oid].Ok()
      requires k in parts.partitionMap && parts.partitionMap[k] < |parts.heap|
      requires parts.heap[parts.partitionMap[k]].oid == View(parts.State())[k].oid
      modifies this
      ensures State() == DoSend(old(State()), k)
    {
      SendEffect(State(), k);
      var oid := parts.heap[parts.partitionMap[k]].oid;
      var op := operations[oid];
      var request := Request(k, oid, CalculateMatrixPartition(op.g, op.a, op.b, TileOf(k)));
      links := links[device := links[device] + multiset{request}];
      limbo := limbo - {k};
    }

    method AssignOne(ghost ar: Arith<T>, ghost s0: Server<T>, ghost v: map<Key, Entry>, k: Key, targets: map<Key, int>,
                     ghost ys: seq<Action<T>>, ghost done: set<Key>)
      returns (ghost xs: seq<Action<T>>)
      requires k in IdleKeys(v) && k !in done && Assigning(ar, s0, State(), ys, v, targets, done)
      modifies this, parts
      ensures Assigning(ar, s0, State(), xs, v, targets, done + {k})
    {
      if k in targets {
        PassAssigns(ar, s0, State(), ys, v, targets, done, k);
        var ok := AssignTile(k, targets[k]);
        xs := ys + [Assign(k, targets[k])];
      } else {
        PassReleases(ar, s0, State(), ys, v, targets, done, k);
        ReleaseTile(k);
        xs := ys + [Release(k)];
      }
    }

    method AssignNext(ghost ar: Arith<T>, ghost s0: Server<T>, ghost v: map<Key, Entry>, keys: seq<Key>, i: nat,
                      targets: map<Key, int>, ghost ys: seq<Action<T>>, ghost done: set<Key>)
      returns (ghost xs: seq<Action<T>>, ghost done': set<Key>)
      requires Lists(keys, IdleKeys(v)) && i < |keys| && done == Firsts(keys, i)
      requires Assigning(ar, s0, State(), ys, v, targets, done)
      modifies this, parts
      ensures done' == Firsts(keys, i + 1) && Assigning(ar, s0, State(), xs, v, targets, done')
    {
      FirstsNext(keys, IdleKeys(v), i);
      xs := AssignOne(ar, s0, v, keys[i], targets, ys, done);
      done' := done + {keys[i]};
    }

    /** Assigns each claimed tile to the device the policy chose, and gives back those it chose none for. */
    method AssignAll(ghost ar: Arith<T>, ghost s0: Server<T>, ghost v: map<Key, Entry>, keys: seq<Key>,
                     targets: map<Key, int>)
      returns (ready: seq<Key>, ghost xs: seq<Action<T>>)
      requires Lists(keys, IdleKeys(v)) && Assigning(ar, s0, State(), [ClaimIdle], v, targets, {})
      modifies this, parts
      ensures ready == Targeted(keys, targets) && Assigning(ar, s0, State(), xs, v, targets, IdleKeys(v))
    {
      ready, xs := [], [ClaimIdle];
      ghost var done: set<Key> := {};
      for i := 0 to |keys|
        invariant ready == Targeted(keys[..i], targets) && done == Firsts(keys, i)
        invariant Assigning(ar, s0, State(), xs, v, targets, done)
      {
        xs, done := AssignNext(ar, s0, v, keys, i, targets, xs, done);
        TargetedNext(keys, i, targets);
        if keys[i] in targets {
          ready := ready + [keys[i]];
        }
      }
      FirstsAll(keys, IdleKeys(v));
      assert keys[..|keys|] == keys;
    }

    /** Sends each assigned tile, or gives it back if its device has no connection. */
    method SendAll(ghost ar: Arith<T>, ghost s0: Server<T>, ghost v: map<Key, Entry>, ready: seq<Key>,
                   targets: map<Key, int>,
                   ghost ys: seq<Action<T>>)
      returns (ghost xs: seq<Action<T>>)
      requires Lists(ready, ReadyKeys(v, targets)) && Sending(ar, s0, State(), ys, v, targets, {})
      modifies this, parts
      ensures Sending(ar, s0, State(), xs, v, targets, ReadyKeys(v, targets))
    {
      xs := ys;
      ghost var done: set<Key> := {};
      for i := 0 to |ready|
        invariant done == Firsts(ready, i)
        invariant Sending(ar, s0, State(), xs, v, targets, done)
      {
        FirstsNext(ready, ReadyKeys(v, targets), i);
        xs := SendOne(ar, s0, v, ready[i], targets, xs, done);
        done := done + {ready[i]};
      }
      FirstsAll(ready, ReadyKeys(v, targets));
    }

    /** The second loop, from the end of the first to the end of the pass. */
    method SendReady(ghost ar: Arith<T>, ghost s0: Server<T>, ghost v: map<Key, Entry>, ready: seq<Key>,
                     targets: map<Key, int>, ghost ys: seq<Action<T>>)
      returns (ghost xs: seq<Action<T>>)
      requires Lists(ready, ReadyKeys(v, targets)) && Assigning(ar, s0, State(), ys, v, targets, IdleKeys(v))
      modifies this, parts
      ensures During(ar, s0, State(), xs, SweptView(v, targets, s0.links.Keys), {})
    {
      PassTurns(ar, s0, State(), ys, v, targets);
      xs := SendAll(ar, s0, v, ready, targets, ys);
      PassEnds(ar, s0, State(), xs, v, targets);
    }

    method SendOne(ghost ar: Arith<T>, ghost s0: Server<T>, ghost v: map<Key, Entry>, k: Key, targets: map<Key, int>,
                   ghost ys: seq<Action<T>>, ghost done: set<Key>)
      returns (ghost xs: seq<Action<T>>)
      requires k in ReadyKeys(v, targets) && k !in done && Sending(ar, s0, State(), ys, v, targets, done)
      modifies this, parts
      ensures Sending(ar, s0, State(), xs, v, targets, done + {k})
    {
      AssignedTile(ar, s0, State(), ys, v, targets, done, k);
      if targets[k] in links {
        PassSends(ar, s0, State(), ys, v, targets, done, k);
        SendInLoop(k, targets[k]);
        xs := ys + [Send(k)];
      } else {
        PassGivesBack(ar, s0, State(), ys, v, targets, done, k);
        ReleaseTile(k);
        xs := ys + [Release(k)];
      }
    }

    method AssignAndSend(ghost ar: Arith<T>, ghost s0: Server<T>, ghost v: map<Key, Entry>, keys: seq<Key>,
                         targets: map<Key, int>)
      returns (ghost xs: seq<Action<T>>)
      requires Lists(keys, IdleKeys(v)) && Assigning(ar, s0, State(), [ClaimIdle], v, targets, {})
      modifies this, parts
      ensures During(ar, s0, State(), xs, SweptView(v, targets, s0.links.Keys), {})
    {
      var ready;
      ready, xs := AssignAll(ar, s0, v, keys, targets);
      TargetedLists(keys, v, targets);
      xs := SendReady(ar, s0, v, ready, targets, xs);
    }

    /**
     One pass, given the devices a policy chose.  It is a run of claim, assign, release and
     send steps; it keeps none of the tiles it claimed, puts every idle tile with a connected
     target on that target's link, and leaves the others idle.  Tiles that another pass holds
     stay as they are.
     */
    method SendIdlePartitions(ghost ar: Arith<T>, targets: map<Key, int>) returns (ghost xs: seq<Action<T>>)
      requires Inv(ar, State())
      modifies this, parts
      ensures State() == ExecFrom(ar, old(State()), xs) && Inv(ar, State())
      ensures limbo == old(limbo) && links.Keys == old(links).Keys
      ensures View(parts.State()) == SweptView(View(old(parts.State())), targets, old(links).Keys)
    {
      ghost var s0, v := State(), View(parts.State());
      PassBegins(ar, s0, targets);
      var keys := ClaimAll();
      xs := AssignAndSend(ar, s0, v, keys, targets);
      assert limbo == s0.limbo;
    }

    // ------------------------------------------------------------------------
    // Dispatch
    // ------------------------------------------------------------------------

    /** The operation's output, and one more to its count for each tile. */
    method Enter(oid: nat, op: Operation<T>, order: seq<Tile>, nan: T)
      modifies this`operations, this`outputs, this`rspCbCounts, this`adding
      ensures operations == old(operations)[oid := op] && outputs == old(outputs)[oid := Filled(op.g.CSize(), nan)]
      ensures rspCbCounts == old(rspCbCounts)[oid := CountOf(old(State()), oid) + |order|]
      ensures adding == old(adding)[oid := order]
    {
      outputs := outputs[oid := Filled(op.g.CSize(), nan)];
      rspCbCounts := rspCbCounts[oid := (if oid in rspCbCounts then rspCbCounts[oid] else 0) + |order|];
      operations, adding := operations[oid := op], adding[oid := order];
    }

    /** Registers the operation: its id, its output and its count. */
    method Register(op: Operation<T>, order: seq<Tile>, nan: T) returns (oid: nat)
      modifies this
      ensures oid == old(mmCount) && State() == DoDispatch(old(State()), op, order, nan)
    {
      oid := mmCount;
      mmCount, versions := oid + 1, versions + {op.version};
      if order != [] {
        Enter(oid, op, order, nan);
      }
    }

    method AddTracked(oid: nat, t: Tile)
      requires Wf(parts.State()) && oid in operations && oid in adding && adding[oid] != [] && adding[oid][0] == t
      modifies this, parts
      ensures State() == DoAddTile(old(State()), oid)
    {
      parts.AddPartition(-1, KeyOf(operations[oid].version, t), oid, -1);
      adding := adding[oid := adding[oid][1..]];
    }

    method AddOne(ghost ar: Arith<T>, ghost s0: Server<T>, oid: nat, t: Tile, ghost ys: seq<Action<T>>)
      requires Reached(ar, s0, State(), ys) && oid in operations && oid in adding && adding[oid] != []
               && adding[oid][0] == t
      modifies this, parts
      ensures Reached(ar, s0, State(), ys + [AddTile(oid)])
      ensures operations == old(operations) && oid in adding && adding[oid] == old(adding)[oid][1..]
    {
      ReachAddTile(ar, s0, State(), ys, oid);
      AddTracked(oid, t);
    }

    method AddNext(ghost ar: Arith<T>, ghost s0: Server<T>, oid: nat, order: seq<Tile>, i: nat,
                   ghost ys: seq<Action<T>>)
      returns (ghost xs: seq<Action<T>>)
      requires i < |order| && Reached(ar, s0, State(), ys) && oid in operations && oid in adding
               && adding[oid] == order[i..]
      modifies this, parts
      ensures Reached(ar, s0, State(), xs) && oid in operations && oid in adding && adding[oid] == order[i + 1..]
    {
      AddOne(ar, s0, oid, order[i], ys);
      xs := ys + [AddTile(oid)];
    }

    /** Hands every tile to the tracker, idle and without a device. */
    method AddAll(ghost ar: Arith<T>, ghost s0: Server<T>, oid: nat, order: seq<Tile>, ghost ys: seq<Action<T>>)
      returns (ghost xs: seq<Action<T>>)
      requires Reached(ar, s0, State(), ys) && oid in operations && oid in adding && adding[oid] == order
      modifies this, parts
      ensures Reached(ar, s0, State(), xs) && oid in adding && adding[oid] == []
    {
      xs := ys;
      for i := 0 to |order|
        invariant oid in operations && oid in adding && adding[oid] == order[i..]
        invariant Reached(ar, s0, State(), xs)
      {
        xs := AddNext(ar, s0, oid, order, i, xs);
      }
    }

    method Begin(ghost ar: Arith<T>, op: Operation<T>, order: seq<Tile>, nan: T) returns (oid: nat)
      requires Inv(ar, State()) && mmCount < OperationId.MAX_OPERATIONS
      requires op.Ok() && op.version !in versions && Shuffled(op.tiles, order)
      modifies this
      ensures oid == old(mmCount) && Reached(ar, old(State()), State(), [Dispatch(op, order, nan)])
      ensures order != [] ==> oid in operations && oid in adding && adding[oid] == order
    {
      ReachDispatch(ar, State(), op, order, nan);
      oid := Register(op, order, nan);
    }

    method End(ghost ar: Arith<T>, ghost s0: Server<T>, oid: nat, ghost ys: seq<Action<T>>)
      requires Reached(ar, s0, State(), ys) && oid in adding && adding[oid] == []
      modifies this
      ensures Reached(ar, s0, State(), ys + [Return(oid)]) && oid in returned
    {
      ReachReturn(ar, s0, State(), ys, oid);
      MarkReturned(oid);
    }

    ghost method MarkReturned(oid: nat)
      modifies this`adding, this`returned
      ensures State() == DoReturn(old(State()), oid) && oid in returned
    {
      adding := adding - {oid};
      returned := returned + {oid};
    }

    /**
     Dispatches a product; -1 if the ids are used up or there are no tiles.  The id it
     returns is one whose wait returns only the product.
     */
    method DispatchMatMulAsync(ghost ar: Arith<T>, op: Operation<T>, order: seq<Tile>, nan: T)
      returns (id: int, ghost xs: seq<Action<T>>)
      requires Inv(ar, State()) && op.Ok() && op.version !in versions && Shuffled(op.tiles, order)
      modifies this, parts
      ensures Reached(ar, old(State()), State(), xs)
      ensures id == (if old(mmCount) < OperationId.MAX_OPERATIONS && order != [] then old(mmCount) else -1)
      ensures id >= 0 ==> id in returned
    {
      ghost var s0 := State();
      if mmCount >= OperationId.MAX_OPERATIONS {
        return -1, [];
      }
      var oid := Begin(ar, op, order, nan);
      xs := [Dispatch(op, order, nan)];
      if order == [] {
        return -1, xs;
      }
      xs := AddAll(ar, s0, oid, order, xs);
      End(ar, s0, oid, xs);
      return oid, xs + [Return(oid)];
    }

    // ------------------------------------------------------------------------
    // Answers and connections
    // ------------------------------------------------------------------------

    /** Writes an answered tile, as wide as its device says and as high as its length gives, into the output. */
    method WriteResultBlock(d: int, m: Msg<T>)
      requires d in links && m.Reply? && Fitting(State(), m)
      modifies this
      ensures State() == DoDeliver(old(State()), d, m)
    {
      DeliverEffect(State(), d, m);
      var op, t := operations[m.oid], TileOf(m.key);
      var width := ColLines(op.g, t);
      AnswerHeight(op.g, t, m.block);
      var height := |m.block| / width;
      PutRowsFit(op.g, t, height, width);
      outputs := outputs[m.oid := PutRows(outputs[m.oid], PutBase(op.g, t), op.g.cols, m.block, width, height)];
      links := links[d := links[d] - multiset{m}];
      handling := handling[m.key := Written(d, m.oid)];
    }

    method Receive(ghost ar: Arith<T>, d: int, m: Msg<T>)
      requires Inv(ar, State()) && d in links && m in links[d] && m.Reply?
      modifies this
      ensures Reached(ar, old(State()), State(), [Deliver(d, m)])
      ensures m.key in handling && handling[m.key] == Written(d, m.oid)
    {
      ReplyFits(ar, State(), d, m);
      ReachDeliver(ar, State(), d, m);
      DeliverEffect(State(), d, m);
      WriteResultBlock(d, m);
    }

    method RetireTile(k: Key)
      requires Wf(parts.State()) && k in handling
      modifies this, parts
      ensures State() == DoRetire(old(State()), k)
    {
      parts.MarkPartition(k, PartitionState.Finished);
      parts.RemovePartitionByKey(k);
      handling := handling[k := Retired(handling[k].dev, handling[k].oid)];
    }

    /** Decrements with the underflow clamp, and logs the count before and after. */
    method IncRspCbCount(oid: nat, count: nat)
      modifies this`rspCbCounts, this`log
      ensures State() == Protocol.IncRspCbCount(old(State()), oid, count)
    {
      var previous := if oid in rspCbCounts then rspCbCounts[oid] else 0;
      if previous < count {
        rspCbCounts := rspCbCounts[oid := 0];
      } else {
        rspCbCounts := rspCbCounts[oid := previous - count];
      }
      log := log + [CounterBalance.Record(oid, count, previous, rspCbCounts[oid])];
    }

    method Drop(ghost ar: Arith<T>, ghost s0: Server<T>, k: Key, ghost ys: seq<Action<T>>)
      requires Reached(ar, s0, State(), ys) && k in handling && handling[k].Written?
      modifies this, parts
      ensures Reached(ar, s0, State(), ys + [Retire(k)])
      ensures k in handling && handling[k] == Retired(old(handling)[k].dev, old(handling)[k].oid)
    {
      ReachRetire(ar, s0, State(), ys, k);
      RetireTile(k);
    }

    method CountDown(ghost ar: Arith<T>, ghost s0: Server<T>, k: Key, oid: nat, ghost ys: seq<Action<T>>)
      requires Reached(ar, s0, State(), ys) && k in handling && handling[k].Retired? && handling[k].oid == oid
      modifies this
      ensures Reached(ar, s0, State(), ys + [Count(k)])
    {
      ReachCount(ar, s0, State(), ys, k);
      CountTile(k, oid);
    }

    method CountTile(k: Key, oid: nat)
      requires k in handling && handling[k].oid == oid
      modifies this
      ensures State() == DoCount(old(State()), k)
    {
      IncRspCbCount(oid, 1);
      handling := handling - {k};
    }

    /** A reply, from the link it arrived on to the counter. */
    method HandleMatMul(ghost ar: Arith<T>, d: int, m: Msg<T>)
      requires Inv(ar, State()) && d in links && m in links[d] && m.Reply?
      modifies this, parts
      ensures Reached(ar, old(State()), State(), [Deliver(d, m)] + [Retire(m.key)] + [Count(m.key)])
    {
      ghost var s0 := State();
      Receive(ar, d, m);
      Drop(ar, s0, m.key, [Deliver(d, m)]);
      CountDown(ar, s0, m.key, m.oid, [Deliver(d, m)] + [Retire(m.key)]);
    }

    /**
     A device's connection is gone; device -1 stands for a connection that never registered.
     It is a step of the protocol, and keeps the invariant, exactly when the guard holds.
     */
    method ConnectionClosed(ghost ar: Arith<T>, d: int)
      requires Inv(ar, State()) && (d == -1 || d in links)
      modifies this, parts
      ensures State() == ClosedState(old(State()), d)
      ensures Inv(ar, State()) <==> MayClose(old(State()), d)
      ensures MayClose(old(State()), d) ==>
                Reached(ar, old(State()), State(), [if d == -1 then CloseUnregistered else Close(d)])
    {
      ghost var s := State();
      AgreeIsWf(s.tracker);
      if MayClose(s, d) {
        ReachClose(ar, s, d);
      }
      CloseStateExactly(ar, s, d);
      Lose(d);
    }

    method Lose(d: int)
      requires Wf(parts.State())
      modifies this`links, parts
      ensures State() == ClosedState(old(State()), d)
    {
      parts.MarkDevicePartitionsFailed(d);
      if d != -1 {
        links := links - {d};
      }
    }

    /**
     What a wait on an id returns once its count is zero: the whole product if a dispatch has
     taken the id, and otherwise the empty tensor that every id starts with.  Ids outside the
     range are refused.
     */
    method WaitMatMul(ghost ar: Arith<T>, id: int) returns (answer: Answer<T>)
      requires Lawful(ar) && Inv(ar, State())
      ensures answer.OutOfRange? <==> !(0 <= id < OperationId.MAX_OPERATIONS)
      ensures answer.Pending? ==> id in operations && !WaitOver(State(), id)
      ensures answer.Empty? ==> id !in operations && id !in returned
      ensures answer.Result? ==> && id in operations && operations[id].Ok() && WaitOver(State(), id)
                                 && IsProduct(operations[id].g, ar, operations[id].a, operations[id].b, answer.output)
    {
      if id < 0 || id >= OperationId.MAX_OPERATIONS {
        return OutOfRange;
      }
      WaitCases(ar, State(), id);
      if id in rspCbCounts && rspCbCounts[id] != 0 {
        return Answer.Pending;
      }
      if id !in operations {
        return Empty;
      }
      return Result(outputs[id]);
    }
  }

  // --------------------------------------------------------------------------
  // Each method's steps, as steps of the protocol
  // --------------------------------------------------------------------------

  ghost predicate Reached<T(!new)>(ar: Arith<T>, s0: Server<T>, s: Server<T>, xs: seq<Action<T>>) {
    Inv(ar, s) && s == ExecFrom(ar, s0, xs)
  }

  lemma {:induction false} ReachDispatch<T(!new)>(ar: Arith<T>, s: Server<T>, op: Operation<T>, order: seq<Tile>,
                                                  nan: T)
    requires Inv(ar, s) && s.nextOid < OperationId.MAX_OPERATIONS
    requires op.Ok() && op.version !in s.versions && Shuffled(op.tiles, order)
    ensures Reached(ar, s, DoDispatch(s, op, order, nan), [Dispatch(op, order, nan)])
  {
    StepTaken(ar, s, s, [], Dispatch(op, order, nan));
    DispatchInv(ar, s, op, order, nan);
    assert [] + [Dispatch(op, order, nan)] == [Dispatch(op, order, nan)];
  }

  lemma {:induction false} ReachAddTile<T(!new)>(ar: Arith<T>, s0: Server<T>, s: Server<T>, xs: seq<Action<T>>,
                                                 oid: nat)
    requires Reached(ar, s0, s, xs) && oid in s.adding && oid in s.ops && s.adding[oid] != []
    ensures Wf(s.tracker) && Reached(ar, s0, DoAddTile(s, oid), xs + [AddTile(oid)])
  {
    StepTaken(ar, s0, s, xs, AddTile(oid));
    AddTileInv(ar, s, oid);
  }

  lemma {:induction false} ReachReturn<T(!new)>(ar: Arith<T>, s0: Server<T>, s: Server<T>, xs: seq<Action<T>>, oid: nat)
    requires Reached(ar, s0, s, xs) && oid in s.adding && s.adding[oid] == []
    ensures Reached(ar, s0, DoReturn(s, oid), xs + [Return(oid)])
  {
    StepTaken(ar, s0, s, xs, Return(oid));
    ReturnInv(ar, s, oid);
  }

  /** A reply for a tile of a dispatched operation, of the tile's size. */
  ghost predicate Fitting<T>(s: Server<T>, m: Msg<T>)
    requires m.Reply?
  {
    && Belongs(s, m.oid, m.key) && s.ops[m.oid].Ok() && m.oid in s.outputs
    && var g, t := s.ops[m.oid].g, TileOf(m.key);
       Legal(g, t) && |s.outputs[m.oid]| == g.CSize() && |m.block| == Times(RowLines(g, t), ColLines(g, t))
  }

  lemma {:induction false} ReplyFits<T(!new)>(ar: Arith<T>, s: Server<T>, d: int, m: Msg<T>)
    requires Inv(ar, s) && d in s.links && m in s.links[d] && m.Reply?
    ensures Fitting(s, m)
  {
    assert MsgOk(MeaningOf(ar), s, View(s.tracker), d, m);
    assert OpOk(s, m.oid);
    assert Right(ar, s.ops[m.oid], m);
  }

  lemma {:induction false} DeliverEffect<T>(s: Server<T>, d: int, m: Msg<T>)
    requires d in s.links && m.Reply? && Fitting(s, m)
    ensures DoDeliver(s, d, m)
            == s.(links := s.links[d := s.links[d] - multiset{m}],
                  handling := s.handling[m.key := Written(d, m.oid)],
                  outputs := s.outputs[m.oid := PutTile(s.ops[m.oid].g, s.outputs[m.oid], TileOf(m.key), m.block)])
  {
  }

  lemma {:induction false} ReachDeliver<T(!new)>(ar: Arith<T>, s: Server<T>, d: int, m: Msg<T>)
    requires Inv(ar, s) && d in s.links && m in s.links[d] && m.Reply?
    ensures Reached(ar, s, DoDeliver(s, d, m), [Deliver(d, m)])
  {
    DeliverInv(ar, s, d, m);
    StepTaken(ar, s, s, [], Deliver(d, m));
    assert [] + [Deliver(d, m)] == [Deliver(d, m)];
  }

  lemma {:induction false} ReachRetire<T(!new)>(ar: Arith<T>, s0: Server<T>, s: Server<T>, xs: seq<Action<T>>, k: Key)
    requires Reached(ar, s0, s, xs) && k in s.handling && s.handling[k].Written?
    ensures Wf(s.tracker) && Reached(ar, s0, DoRetire(s, k), xs + [Retire(k)])
  {
    StepTaken(ar, s0, s, xs, Retire(k));
    RetireInv(ar, s, k);
  }

  lemma {:induction false} ReachCount<T(!new)>(ar: Arith<T>, s0: Server<T>, s: Server<T>, xs: seq<Action<T>>, k: Key)
    requires Reached(ar, s0, s, xs) && k in s.handling && s.handling[k].Retired?
    ensures Reached(ar, s0, DoCount(s, k), xs + [Count(k)])
  {
    StepTaken(ar, s0, s, xs, Count(k));
    CountInv(ar, s, k);
  }

  ghost function ClosedState<T>(s: Server<T>, d: int): Server<T> {
    if d == -1 then s.(tracker := MarkDeviceFailed(s.tracker, -1)) else DoClose(s, d)
  }

  /** No sender holds a tile homed there, and no reply from there is half-way through its handler. */
  ghost predicate MayClose<T>(s: Server<T>, d: int) {
    NoneClaimedAt(s.limbo, View(s.tracker), d) && (d == -1 || NoneWrittenFrom(s.handling, d))
  }

  lemma {:induction false} CloseStateExactly<T(!new)>(ar: Arith<T>, s: Server<T>, d: int)
    requires Inv(ar, s) && (d == -1 || d in s.links)
    ensures Inv(ar, ClosedState(s, d)) <==> MayClose(s, d)
  {
    if d == -1 {
      CloseUnregisteredExactly(ar, s);
    } else {
      CloseExactly(ar, s, d);
    }
  }

  lemma {:induction false} ReachClose<T(!new)>(ar: Arith<T>, s: Server<T>, d: int)
    requires Inv(ar, s) && (d == -1 || d in s.links) && MayClose(s, d)
    ensures Wf(s.tracker)
    ensures Reached(ar, s, ClosedState(s, d), [if d == -1 then CloseUnregistered else Close(d)])
  {
    AgreeIsWf(s.tracker);
    if d == -1 {
      StepTaken(ar, s, s, [], CloseUnregistered);
      CloseUnregisteredInv(ar, s);
      assert [] + [CloseUnregistered] == [Action<T>.CloseUnregistered];
    } else {
      StepTaken(ar, s, s, [], Close(d));
      CloseInv(ar, s, d);
      assert [] + [Close(d)] == [Action<T>.Close(d)];
    }
  }

  /** Counts, outputs and operations belong together. */
  lemma {:induction false} WaitCases<T(!new)>(ar: Arith<T>, s: Server<T>, oid: nat)
    requires Lawful(ar) && Inv(ar, s)
    ensures CountOf(s, oid) != 0 ==> oid in s.ops
    ensures oid in s.ops ==> oid in s.outputs
    ensures oid in s.returned ==> oid in s.ops
    ensures CountOf(s, oid) == 0 && oid in s.ops ==>
              s.ops[oid].Ok() && IsProduct(s.ops[oid].g, ar, s.ops[oid].a, s.ops[oid].b, s.outputs[oid])
  {
    if oid in s.ops {
      assert OpOk(s, oid);
      if WaitOver(s, oid) {
        ProductReady(ar, s, oid);
      }
    }
  }

  lemma {:induction false} ClaimedWithin(t: Tracker, claimed: seq<nat>)
    requires Wf(t) && Elements(claimed) == IdleOnes(t)
    ensures forall i | 0 <= i < |claimed| :: claimed[i] < |t.heap| && claimed[i] < |Claim(t).heap|
                                             && Claim(t).heap[claimed[i]].key == t.heap[claimed[i]].key
  {
    forall i | 0 <= i < |claimed|
      ensures claimed[i] < |t.heap|
    {
      assert claimed[i] in Elements(claimed);
    }
  }
}
