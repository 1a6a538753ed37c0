/** The records a run's counters emit, and the offline check over them. */
module CounterLog {
  import opened Tiling
  import opened Keys
  import opened Tracker
  import opened TrackerView
  import opened Protocol
  import opened ProtocolInvariant
  import opened ProtocolSteps
  import opened ProtocolRuns
  import opened CounterBalance

  /** high, high - 1, ..., low + 1. */
  function Down(high: nat, low: nat): (s: seq<int>)
    requires low <= high
    ensures |s| == high - low
  {
    seq(high - low, i => high - i)
  }

  lemma {:induction false} DownIsUp(n: nat)
    ensures multiset(Down(n, 0)) == multiset(UpTo(n))
  {
    if n > 0 {
      DownIsUp(n - 1);
      assert Down(n, 0) == [n] + Down(n - 1, 0);
      assert UpTo(n) == UpTo(n - 1) + [n];
    }
  }

  /** An operation's counter has come down from its number of tiles, one at a time. */
  ghost predicate CameDown<T>(s: Server<T>, oid: nat)
    requires oid in s.ops
  {
    var n, c := |s.ops[oid].tiles|, CountOf(s, oid);
    n > 0 && c <= n && Previous(s.log, oid) == Down(n, c)
  }

  ghost predicate LogOk<T>(s: Server<T>) {
    && (forall i | 0 <= i < |s.log| :: SingleStep(s.log[i]) && 0 <= s.log[i].oid && s.log[i].oid in s.ops)
    && (forall oid | oid in s.ops :: CameDown(s, oid))
  }

  ghost predicate SameCounters<T>(s: Server<T>, s': Server<T>) {
    s'.ops == s.ops && s'.counts == s.counts && s'.log == s.log
  }

  lemma {:induction false} OrderSize(tiles: set<Tile>, order: seq<Tile>)
    requires Shuffled(tiles, order)
    ensures |tiles| == |order|
  {
    if order == [] {
      assert tiles == {};
    } else {
      var n := |order| - 1;
      var t := order[n];
      assert order == order[..n] + [t];
      OrderSize(tiles - {t}, order[..n]);
    }
  }

  lemma {:induction false} DispatchLog<T>(s: Server<T>, op: Operation<T>, order: seq<Tile>, nan: T)
    requires LogOk(s) && Shuffled(op.tiles, order) && s.nextOid !in s.ops && CountOf(s, s.nextOid) == 0
    ensures LogOk(DoDispatch(s, op, order, nan))
  {
    OrderSize(op.tiles, order);
    NoneGrouped(s.log, s.nextOid);
    var s' := DoDispatch(s, op, order, nan);
    if order == [] {
      SameLog(s, s');
    } else {
      assert Down(|order|, |order|) == [];
      forall oid | oid in s'.ops
        ensures CameDown(s', oid)
      {
        assert oid in s.ops ==> CameDown(s, oid);
      }
    }
  }

  lemma {:induction false} CountLog<T>(s: Server<T>, k: Key)
    requires LogOk(s) && k in s.handling && s.handling[k].oid in s.ops && CountOf(s, s.handling[k].oid) > 0
    ensures LogOk(DoCount(s, k))
  {
    var s', o := DoCount(s, k), s.handling[k].oid;
    assert s'.log[..|s.log|] == s.log;
    forall oid | oid in s'.ops
      ensures CameDown(s', oid)
    {
      assert CameDown(s, oid);
      var n, c := |s.ops[oid].tiles|, CountOf(s, oid);
      if oid == o {
        assert Down(n, c - 1) == Down(n, c) + [c];
      }
    }
  }

  lemma {:induction false} OtherStepsKeepCounters<T>(s: Server<T>, x: Action<T>)
    requires Wf(s.tracker) && !x.Dispatch? && !x.Count?
    ensures SameCounters(s, Next(s, x))
  {
  }

  lemma {:induction false} SameLog<T>(s: Server<T>, s': Server<T>)
    requires LogOk(s) && SameCounters(s, s')
    ensures LogOk(s')
  {
    forall oid | oid in s'.ops
      ensures CameDown(s', oid)
    {
      assert CameDown(s, oid);
    }
  }

  lemma {:induction false} HandledOid<T(!new)>(ar: Arith<T>, s: Server<T>, k: Key)
    requires Inv(ar, s) && k in s.handling && s.handling[k].Retired?
    ensures s.handling[k].oid in s.ops && CountOf(s, s.handling[k].oid) > 0
  {
    assert HandlingOk(s, View(s.tracker), k);
    CountInv(ar, s, k);
  }

  lemma {:induction false} UnusedOid<T(!new)>(ar: Arith<T>, s: Server<T>)
    requires Inv(ar, s)
    ensures s.nextOid !in s.ops && CountOf(s, s.nextOid) == 0
  {
    assert s.nextOid in s.ops ==> OpOk(s, s.nextOid);
  }

  lemma {:induction false} StepLog<T(!new)>(ar: Arith<T>, s: Server<T>, x: Action<T>)
    requires Lawful(ar) && Inv(ar, s) && LogOk(s)
    ensures LogOk(Perform(ar, s, x))
  {
    if Wf(s.tracker) && Enabled(ar, s, x) {
      if x.Dispatch? {
        UnusedOid(ar, s);
        DispatchLog(s, x.op, x.order, x.nan);
      } else if x.Count? {
        HandledOid(ar, s, x.k);
        CountLog(s, x.k);
      } else {
        OtherStepsKeepCounters(s, x);
        SameLog(s, Next(s, x));
      }
    }
  }

  lemma {:induction false} RunLog<T(!new)>(ar: Arith<T>, xs: seq<Action<T>>)
    requires Lawful(ar)
    ensures LogOk(Exec(ar, xs))
    decreases |xs|
  {
    if xs != [] {
      var before := xs[..|xs| - 1];
      RunLog(ar, before);
      RunInv(ar, before);
      StepLog(ar, Exec(ar, before), xs[|xs| - 1]);
    }
  }

  /** The log of any run whose operations, at least one, have all completed passes the balance check. */
  lemma {:induction false} CompletedRunIsBalanced<T(!new)>(ar: Arith<T>, xs: seq<Action<T>>)
    requires Lawful(ar)
    requires Exec(ar, xs).ops != map[]
    requires forall oid | oid in Exec(ar, xs).ops :: WaitOver(Exec(ar, xs), oid)
    ensures Balanced(Exec(ar, xs).log)
  {
    RunLog(ar, xs);
    var s := Exec(ar, xs);
    var oid :| oid in s.ops;
    assert CameDown(s, oid);
    forall i | 0 <= i < |s.log|
      ensures multiset(Previous(s.log, s.log[i].oid)) == multiset(UpTo(|Previous(s.log, s.log[i].oid)|))
    {
      var o: nat := s.log[i].oid;
      assert CameDown(s, o);
      DownIsUp(|s.ops[o].tiles|);
    }
  }

  /** A decrement takes `count` off, or all there is; it touches no other counter and logs what it did. */
  lemma {:induction false} DecrementExactly<T>(s: Server<T>, oid: nat, count: nat, other: nat)
    requires other != oid
    ensures var s' := IncRspCbCount(s, oid, count);
            var before, after := CountOf(s, oid), CountOf(s', oid);
            && (count <= before ==> after + count == before)
            && (count > before ==> after == 0)
            && CountOf(s', other) == CountOf(s, other)
            && s'.log == s.log + [Record(oid, count, before, after)]
            && s' == s.(counts := s'.counts, log := s'.log)
  {
  }
}
