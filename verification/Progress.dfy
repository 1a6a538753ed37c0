/** No reachable state is a dead end: with one device connected, every operation can still be completed. */
module Progress {
  import opened Nonlinear
  import opened Tiling
  import opened Keys
  import opened Tracker
  import opened TrackerView
  import opened Protocol
  import opened ProtocolInvariant
  import opened ProtocolSteps
  import opened ProtocolDispatch
  import opened ProtocolRuns
  import opened ProxySweep

  // --------------------------------------------------------------------------
  // A device can always answer
  // --------------------------------------------------------------------------

  /** The call's result, entry by entry. */
  ghost function GemmResult<T>(ar: Arith<T>, args: GemmArgs<T>): (c: seq<T>)
    requires GemmReady(args) && args.m > 0 && args.ldc == args.m && |args.c| == Times(args.n, args.m)
    ensures |c| == |args.c|
  {
    seq(|args.c|, at requires 0 <= at < |args.c| => ResultAt(ar, args, at))
  }

  ghost function ResultAt<T>(ar: Arith<T>, args: GemmArgs<T>, at: nat): T
    requires GemmReady(args) && args.m > 0 && at < |args.c| == Times(args.n, args.m)
  {
    ColumnInside(at, args.n, args.m);
    GemmEntry(ar, args, at % args.m, at / args.m, args.c[at])
  }

  lemma {:induction false} ColumnInside(at: nat, n: nat, m: nat)
    requires m > 0 && at < Times(n, m)
    ensures at / m < n
  {
    DivMod(at, m);
    if n <= at / m {
      TimesMono(n, at / m, m);
    }
  }

  lemma {:induction false} GemmExists<T>(ar: Arith<T>, args: GemmArgs<T>)
    requires GemmReady(args) && args.m > 0 && args.ldc == args.m && |args.c| == Times(args.n, args.m)
    ensures IsGemm(ar, args, GemmResult(ar, args))
  {
    var c := GemmResult(ar, args);
    forall i: nat, j: nat | i < args.m && j < args.n
      ensures EntryComputed(ar, args, c, i, j)
    {
      LineFits(args.n, args.m, j);
      DivModUnique(j, i, args.m);
    }
  }

  /** Whatever the device's buffer held, there is an answer to a tile's request. */
  lemma {:induction false} CanAnswer<T(!new)>(ar: Arith<T>, op: Operation<T>, m: Msg<T>, fill: T)
    returns (scratch: seq<T>, block: seq<T>)
    requires m.Request? && Right(ar, op, m)
    ensures Answers(ar, m.part, scratch, block)
  {
    var g, t := op.g, TileOf(m.key);
    var rows, cols := RowLines(g, t), ColLines(g, t);
    PartitionSizes(g, op.a, op.b, t);
    scratch := Filled(Times(rows, cols), fill);
    DeviceCallReady(ar, m.part.rowBlock, rows, m.part.colBlock, cols, g.depth, scratch);
    var args := BuildGemmArgs(ar, m.part.colBlock, cols, m.part.rowBlock, rows, g.depth, scratch);
    GemmExists(ar, args);
    block := GemmResult(ar, args);
  }

  // --------------------------------------------------------------------------
  // One tile to its end
  // --------------------------------------------------------------------------

  /** Between the two states one tile of an operation was completed, and no other count changed. */
  ghost predicate OneDone<T(!new)>(ar: Arith<T>, s: Server<T>, s': Server<T>, oid: nat) {
    && Inv(ar, s') && s'.ops == s.ops && s'.nextOid == s.nextOid && s'.links.Keys == s.links.Keys
    && CountOf(s, oid) > 0 && CountOf(s', oid) == CountOf(s, oid) - 1
    && forall o: nat | o != oid :: CountOf(s', o) == CountOf(s, o)
  }

  /** The steps xs complete one tile of an operation. */
  ghost predicate Completes<T(!new)>(ar: Arith<T>, s: Server<T>, xs: seq<Action<T>>, oid: nat) {
    OneDone(ar, s, ExecFrom(ar, s, xs), oid)
  }

  /** A step that leaves operations, connections and counts alone. */
  ghost predicate SameWork<T>(s: Server<T>, s1: Server<T>) {
    s1.ops == s.ops && s1.nextOid == s.nextOid && s1.links.Keys == s.links.Keys && s1.counts == s.counts
  }

  lemma {:induction false} ExecOne<T>(ar: Arith<T>, s: Server<T>, x: Action<T>)
    ensures ExecFrom(ar, s, [x]) == Perform(ar, s, x)
  {
    assert [] + [x] == [x];
    ExecNext(ar, s, [], x);
  }

  lemma {:induction false} ExecAppend<T>(ar: Arith<T>, s: Server<T>, xs: seq<Action<T>>, ys: seq<Action<T>>)
    ensures ExecFrom(ar, s, xs + ys) == ExecFrom(ar, ExecFrom(ar, s, xs), ys)
    decreases |ys|
  {
    if ys == [] {
      assert xs + ys == xs;
    } else {
      var zs, y := ys[..|ys| - 1], ys[|ys| - 1];
      assert ys == zs + [y];
      assert xs + ys == (xs + zs) + [y];
      ExecAppend(ar, s, xs, zs);
      ExecNext(ar, s, xs + zs, y);
      ExecNext(ar, ExecFrom(ar, s, xs), zs, y);
    }
  }

  lemma {:induction false} ExecCons<T>(ar: Arith<T>, s: Server<T>, x: Action<T>, xs: seq<Action<T>>)
    ensures ExecFrom(ar, s, [x] + xs) == ExecFrom(ar, Perform(ar, s, x), xs)
  {
    ExecOne(ar, s, x);
    ExecAppend(ar, s, [x], xs);
  }

  lemma {:induction false} OneDoneLater<T(!new)>(ar: Arith<T>, s: Server<T>, s1: Server<T>, s2: Server<T>, oid: nat)
    requires SameWork(s, s1) && OneDone(ar, s1, s2, oid)
    ensures OneDone(ar, s, s2, oid)
  {
  }

  lemma {:induction false} Performed<T>(ar: Arith<T>, s: Server<T>, x: Action<T>)
    requires Wf(s.tracker) && Enabled(ar, s, x)
    ensures Perform(ar, s, x) == Next(s, x)
  {
  }

  lemma {:induction false} ThenSteps<T(!new)>(ar: Arith<T>, s: Server<T>, x: Action<T>, s1: Server<T>,
                                              xs: seq<Action<T>>, oid: nat)
    requires s1 == Perform(ar, s, x) && SameWork(s, s1) && Completes(ar, s1, xs, oid)
    ensures Completes(ar, s, [x] + xs, oid)
  {
    ExecCons(ar, s, x, xs);
    OneDoneLater(ar, s, s1, ExecFrom(ar, s1, xs), oid);
  }

  lemma {:induction false} First<T(!new)>(ar: Arith<T>, s: Server<T>, x: Action<T>, s1: Server<T>, xs: seq<Action<T>>,
                                          oid: nat)
    requires Wf(s.tracker) && Enabled(ar, s, x) && s1 == Next(s, x) && SameWork(s, s1) && Completes(ar, s1, xs, oid)
    ensures Completes(ar, s, [x] + xs, oid)
  {
    Performed(ar, s, x);
    ThenSteps(ar, s, x, s1, xs, oid);
  }

  lemma {:induction false} CountStep<T(!new)>(ar: Arith<T>, s: Server<T>, k: Key)
    requires Inv(ar, s) && k in s.handling && s.handling[k].Retired?
    ensures OneDone(ar, s, DoCount(s, k), s.handling[k].oid)
  {
    CountInv(ar, s, k);
    CountIsCounted(s, k);
  }

  lemma {:induction false} FromRetired<T(!new)>(ar: Arith<T>, s: Server<T>, k: Key) returns (xs: seq<Action<T>>)
    requires Inv(ar, s) && k in s.handling && s.handling[k].Retired?
    ensures Completes(ar, s, xs, s.handling[k].oid)
  {
    AgreeIsWf(s.tracker);
    xs := [Count(k)];
    CountStep(ar, s, k);
    Performed(ar, s, Count(k));
    ExecOne(ar, s, Count(k));
  }

  lemma {:induction false} FromWritten<T(!new)>(ar: Arith<T>, s: Server<T>, k: Key) returns (xs: seq<Action<T>>)
    requires Inv(ar, s) && k in s.handling && s.handling[k].Written?
    ensures Completes(ar, s, xs, s.handling[k].oid)
  {
    AgreeIsWf(s.tracker);
    RetireInv(ar, s, k);
    var s1 := DoRetire(s, k);
    var ys := FromRetired(ar, s1, k);
    First(ar, s, Retire(k), s1, ys, s.handling[k].oid);
    xs := [Retire(k)] + ys;
  }

  lemma {:induction false} DeliverWork<T>(s: Server<T>, d: int, m: Msg<T>)
    requires d in s.links && m.Reply?
    ensures var s1 := DoDeliver(s, d, m);
            && s1.ops == s.ops && s1.nextOid == s.nextOid && s1.counts == s.counts
            && s1.handling == s.handling[m.key := Written(d, m.oid)]
  {
  }

  lemma {:induction false} DeliverLinks<T>(s: Server<T>, d: int, m: Msg<T>)
    requires d in s.links && m.Reply?
    ensures DoDeliver(s, d, m).links == s.links[d := s.links[d] - multiset{m}]
  {
  }

  lemma {:induction false} DeliverStep<T>(s: Server<T>, d: int, m: Msg<T>)
    requires d in s.links && m.Reply?
    ensures SameWork(s, DoDeliver(s, d, m))
    ensures DoDeliver(s, d, m).handling == s.handling[m.key := Written(d, m.oid)]
  {
    DeliverWork(s, d, m);
    DeliverLinks(s, d, m);
  }

  lemma {:induction false} FromReply<T(!new)>(ar: Arith<T>, s: Server<T>, d: int, m: Msg<T>)
    returns (xs: seq<Action<T>>)
    requires Inv(ar, s) && d in s.links && m in s.links[d] && m.Reply?
    ensures Completes(ar, s, xs, m.oid)
  {
    AgreeIsWf(s.tracker);
    DeliverInv(ar, s, d, m);
    DeliverStep(s, d, m);
    var s1 := DoDeliver(s, d, m);
    var ys := FromWritten(ar, s1, m.key);
    First(ar, s, Deliver(d, m), s1, ys, m.oid);
    xs := [Deliver(d, m)] + ys;
  }

  lemma {:induction false} Requested<T(!new)>(ar: Arith<T>, s: Server<T>, d: int, m: Msg<T>)
    requires Inv(ar, s) && d in s.links && m in s.links[d]
    ensures m.oid in s.ops && Right(ar, s.ops[m.oid], m)
  {
    assert MsgOk(MeaningOf(ar), s, View(s.tracker), d, m);
  }

  lemma {:induction false} ComputeStep<T>(s: Server<T>, d: int, m: Msg<T>, block: seq<T>)
    requires d in s.links
    ensures var s1 := DoCompute(s, d, m, block);
            SameWork(s, s1) && Reply(m.key, m.oid, block) in s1.links[d]
  {
  }

  lemma {:induction false} FromRequest<T(!new)>(ar: Arith<T>, s: Server<T>, d: int, m: Msg<T>, fill: T)
    returns (xs: seq<Action<T>>)
    requires Lawful(ar) && Inv(ar, s) && d in s.links && m in s.links[d] && m.Request?
    ensures Completes(ar, s, xs, m.oid)
  {
    AgreeIsWf(s.tracker);
    Requested(ar, s, d, m);
    var scratch, block := CanAnswer(ar, s.ops[m.oid], m, fill);
    ComputeInv(ar, s, d, m, scratch, block);
    ComputeStep(s, d, m, block);
    var s1 := DoCompute(s, d, m, block);
    var ys := FromReply(ar, s1, d, Reply(m.key, m.oid, block));
    First(ar, s, Compute(d, m, scratch, block), s1, ys, m.oid);
    xs := [Compute(d, m, scratch, block)] + ys;
  }

  /** A claimed tile homed at a connected device. */
  lemma {:induction false} FromAssigned<T(!new)>(ar: Arith<T>, s: Server<T>, k: Key, oid: nat, d: int, fill: T)
    returns (xs: seq<Action<T>>)
    requires Lawful(ar) && Inv(ar, s) && k in s.limbo && d in s.links
    requires k in View(s.tracker) && View(s.tracker)[k].home == d && View(s.tracker)[k].oid == oid
    ensures Completes(ar, s, xs, oid)
  {
    AgreeIsWf(s.tracker);
    Sendable(ar, s, k);
    SendEffect(s, k);
    SendInv(ar, s, k);
    var s1 := DoSend(s, k);
    var m := RequestFor(s, k, oid);
    assert m in s1.links[d];
    var ys := FromRequest(ar, s1, d, m, fill);
    First(ar, s, Send(k), s1, ys, oid);
    xs := [Send(k)] + ys;
  }

  lemma {:induction false} FromClaimed<T(!new)>(ar: Arith<T>, s: Server<T>, k: Key, oid: nat, d: int, fill: T)
    returns (xs: seq<Action<T>>)
    requires Lawful(ar) && Inv(ar, s) && k in s.limbo && d in s.links
    requires k in View(s.tracker) && View(s.tracker)[k].oid == oid
    ensures Completes(ar, s, xs, oid)
  {
    AgreeIsWf(s.tracker);
    AssignInv(ar, s, k, d);
    ReassignView(s.tracker, k, d);
    var s1 := DoAssign(s, k, d);
    var ys := FromAssigned(ar, s1, k, oid, d, fill);
    First(ar, s, Assign(k, d), s1, ys, oid);
    xs := [Assign(k, d)] + ys;
  }

  lemma {:induction false} FromIdle<T(!new)>(ar: Arith<T>, s: Server<T>, k: Key, oid: nat, d: int, fill: T)
    returns (xs: seq<Action<T>>)
    requires Lawful(ar) && Inv(ar, s) && d in s.links
    requires k in View(s.tracker) && View(s.tracker)[k].state == Idle && View(s.tracker)[k].oid == oid
    ensures Completes(ar, s, xs, oid)
  {
    AgreeIsWf(s.tracker);
    ClaimInv(ar, s);
    ClaimView(s.tracker);
    var s1 := DoClaim(s);
    var ys := FromClaimed(ar, s1, k, oid, d, fill);
    First(ar, s, ClaimIdle, s1, ys, oid);
    xs := [ClaimIdle] + ys;
  }

  lemma {:induction false} FromAdding<T(!new)>(ar: Arith<T>, s: Server<T>, oid: nat, d: int, fill: T)
    returns (xs: seq<Action<T>>)
    requires Lawful(ar) && Inv(ar, s) && d in s.links && oid in s.ops && oid in s.adding && s.adding[oid] != []
    ensures Completes(ar, s, xs, oid)
  {
    AgreeIsWf(s.tracker);
    AddTileInv(ar, s, oid);
    var k := KeyOf(s.ops[oid].version, s.adding[oid][0]);
    AddedEntry(ar, s, oid, k);
    var s1 := DoAddTile(s, oid);
    var ys := FromIdle(ar, s1, k, oid, d, fill);
    First(ar, s, AddTile(oid), s1, ys, oid);
    xs := [AddTile(oid)] + ys;
  }

  lemma {:induction false} AddedEntry<T(!new)>(ar: Arith<T>, s: Server<T>, oid: nat, k: Key)
    requires Inv(ar, s) && oid in s.ops && oid in s.adding && s.adding[oid] != []
    requires k == KeyOf(s.ops[oid].version, s.adding[oid][0])
    ensures k in View(DoAddTile(s, oid).tracker) && View(DoAddTile(s, oid).tracker)[k] == Entry(oid, Idle, -1)
  {
    var v := View(s.tracker);
    assert AddingOk(s, v, oid);
    assert s.adding[oid][0] in s.adding[oid];
    AddView(s.tracker, -1, k, oid, -1);
  }

  /** Where a tracked tile of an operation stands, and its way on from there. */
  lemma {:induction false} FromTracked<T(!new)>(ar: Arith<T>, s: Server<T>, k: Key, oid: nat, d: int, fill: T)
    returns (xs: seq<Action<T>>)
    requires Lawful(ar) && Inv(ar, s) && d in s.links
    requires k in View(s.tracker) && View(s.tracker)[k].oid == oid && k !in s.handling
    ensures Completes(ar, s, xs, oid)
  {
    var v := View(s.tracker);
    assert EntryOk(s, v, k);
    if v[k].state == Idle {
      xs := FromIdle(ar, s, k, oid, d, fill);
    } else if k in s.limbo {
      xs := FromClaimed(ar, s, k, oid, d, fill);
    } else {
      var m := HeardMessage(ar, s, k);
      if m.Request? {
        xs := FromRequest(ar, s, v[k].home, m, fill);
      } else {
        xs := FromReply(ar, s, v[k].home, m);
      }
    }
  }

  lemma {:induction false} HeardMessage<T(!new)>(ar: Arith<T>, s: Server<T>, k: Key) returns (m: Msg<T>)
    requires Inv(ar, s) && k in View(s.tracker) && View(s.tracker)[k].state == Running && k !in s.limbo
             && k !in s.handling
    ensures var e := View(s.tracker)[k]; e.home in s.links && m in s.links[e.home] && m.oid == e.oid
  {
    var v := View(s.tracker);
    assert EntryOk(s, v, k);
    var d := v[k].home;
    assert Heard(s, d, k);
    m :| d in s.links && m in s.links[d] && m.key == k;
    assert MsgOk(MeaningOf(ar), s, v, d, m);
  }

  /** As long as an operation's count is positive one of its tiles can be completed. */
  lemma {:induction false} CanComplete<T(!new)>(ar: Arith<T>, s: Server<T>, oid: nat, d: int, fill: T)
    returns (xs: seq<Action<T>>)
    requires Lawful(ar) && Inv(ar, s) && d in s.links && CountOf(s, oid) > 0
    ensures Completes(ar, s, xs, oid)
  {
    var v := View(s.tracker);
    var k := SomePending(ar, s, oid);
    if k in AddingKeys(s, oid) {
      xs := FromAdding(ar, s, oid, d, fill);
    } else if k in s.handling {
      if s.handling[k].Written? {
        xs := FromWritten(ar, s, k);
      } else {
        xs := FromRetired(ar, s, k);
      }
    } else {
      xs := FromTracked(ar, s, k, oid, d, fill);
    }
  }

  lemma {:induction false} SomePending<T(!new)>(ar: Arith<T>, s: Server<T>, oid: nat) returns (k: Key)
    requires Inv(ar, s) && CountOf(s, oid) > 0
    ensures oid in s.ops
    ensures || (k in AddingKeys(s, oid) && oid in s.adding && s.adding[oid] != [])
            || (k in s.handling && s.handling[k].oid == oid)
            || (k in View(s.tracker) && View(s.tracker)[k].oid == oid && k !in s.handling)
  {
    var v := View(s.tracker);
    assert oid in s.ops;
    var pending := Pending(s, v, oid);
    assert |pending| > 0;
    k :| k in pending;
    if k in Owned(v, oid) && k in s.handling {
      assert HandlingOk(s, v, k);
    }
  }

  // --------------------------------------------------------------------------
  // All operations to their end
  // --------------------------------------------------------------------------

  /** The sum of the counts of the ids below n. */
  ghost function Outstanding<T>(s: Server<T>, n: nat): nat {
    if n == 0 then 0 else Outstanding(s, n - 1) + CountOf(s, n - 1)
  }

  lemma {:induction false} OutstandingDrops<T>(s: Server<T>, s': Server<T>, oid: nat, n: nat)
    requires CountOf(s, oid) > 0 && CountOf(s', oid) == CountOf(s, oid) - 1
    requires forall o: nat | o != oid :: CountOf(s', o) == CountOf(s, o)
    ensures Outstanding(s', n) == Outstanding(s, n) - (if oid < n then 1 else 0)
  {
    if n > 0 {
      OutstandingDrops(s, s', oid, n - 1);
    }
  }

  lemma {:induction false} NothingOutstanding<T>(s: Server<T>, n: nat, oid: nat)
    requires Outstanding(s, n) == 0 && oid < n
    ensures CountOf(s, oid) == 0
  {
    if oid < n - 1 {
      NothingOutstanding(s, n - 1, oid);
    }
  }

  lemma {:induction false} SomeOutstanding<T>(s: Server<T>, n: nat) returns (oid: nat)
    requires Outstanding(s, n) > 0
    ensures oid < n && CountOf(s, oid) > 0
  {
    if CountOf(s, n - 1) > 0 {
      oid := n - 1;
    } else {
      oid := SomeOutstanding(s, n - 1);
    }
  }

  lemma {:induction false} CompleteAll<T(!new)>(ar: Arith<T>, s: Server<T>, d: int, fill: T)
    returns (xs: seq<Action<T>>)
    requires Lawful(ar) && Inv(ar, s) && d in s.links
    ensures var s' := ExecFrom(ar, s, xs); s'.ops == s.ops && forall oid | oid in s'.ops :: WaitOver(s', oid)
    decreases Outstanding(s, s.nextOid)
  {
    if Outstanding(s, s.nextOid) == 0 {
      xs := [];
      forall oid | oid in s.ops
        ensures WaitOver(s, oid)
      {
        assert OpOk(s, oid);
        NothingOutstanding(s, s.nextOid, oid);
      }
    } else {
      var oid := SomeOutstanding(s, s.nextOid);
      var ys := CanComplete(ar, s, oid, d, fill);
      OutstandingDrops(s, ExecFrom(ar, s, ys), oid, s.nextOid);
      var zs := CompleteAll(ar, ExecFrom(ar, s, ys), d, fill);
      ExecAppend(ar, s, ys, zs);
      xs := ys + zs;
    }
  }

  /**
   After any run, if a device is connected there are further steps after which every
   operation dispatched so far is complete, with its whole product A B^T in its output.
   */
  lemma {:induction false} AlwaysCompletable<T(!new)>(ar: Arith<T>, before: seq<Action<T>>, d: int, fill: T)
    returns (xs: seq<Action<T>>)
    requires Lawful(ar) && d in Exec(ar, before).links
    ensures var s, s' := Exec(ar, before), Exec(ar, before + xs);
            && s'.ops == s.ops
            && forall oid | oid in s'.ops ::
                 && WaitOver(s', oid) && oid in s'.outputs && s'.ops[oid].Ok()
                 && IsProduct(s'.ops[oid].g, ar, s'.ops[oid].a, s'.ops[oid].b, s'.outputs[oid])
  {
    RunInv(ar, before);
    xs := CompleteAll(ar, Exec(ar, before), d, fill);
    ExecAppend(ar, Init(), before, xs);
    RunInv(ar, before + xs);
    var s' := Exec(ar, before + xs);
    forall oid | oid in s'.ops
      ensures oid in s'.outputs && s'.ops[oid].Ok()
      ensures IsProduct(s'.ops[oid].g, ar, s'.ops[oid].a, s'.ops[oid].b, s'.outputs[oid])
    {
      ProductReady(ar, s', oid);
    }
  }
}
