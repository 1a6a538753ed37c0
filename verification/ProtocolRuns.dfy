/** Every run of the protocol: what it keeps, and what a caller may rely on. */
module ProtocolRuns {
  import opened Tiling
  import opened Keys
  import opened Tracker
  import opened TrackerView
  import opened Protocol
  import opened ProtocolInvariant
  import opened ProtocolSteps
  import opened ProtocolDispatch

  /** One step; an action that is not enabled does nothing. */
  ghost function Perform<T>(ar: Arith<T>, s: Server<T>, x: Action<T>): Server<T> {
    if Wf(s.tracker) && Enabled(ar, s, x) then Next(s, x) else s
  }

  ghost function ExecFrom<T>(ar: Arith<T>, s: Server<T>, xs: seq<Action<T>>): Server<T>
    decreases |xs|
  {
    if xs == [] then s else Perform(ar, ExecFrom(ar, s, xs[..|xs| - 1]), xs[|xs| - 1])
  }

  ghost function Exec<T>(ar: Arith<T>, xs: seq<Action<T>>): Server<T> {
    ExecFrom(ar, Init(), xs)
  }

  lemma {:induction false} ExecNext<T>(ar: Arith<T>, s: Server<T>, xs: seq<Action<T>>, x: Action<T>)
    ensures ExecFrom(ar, s, xs + [x]) == Perform(ar, ExecFrom(ar, s, xs), x)
  {
    assert (xs + [x])[..|xs|] == xs;
  }

  lemma {:induction false} SenderStepInv<T(!new)>(ar: Arith<T>, s: Server<T>, x: Action<T>)
    requires Inv(ar, s) && Wf(s.tracker) && Enabled(ar, s, x)
    requires x.ClaimIdle? || x.Assign? || x.Send? || x.Release?
    ensures Inv(ar, Next(s, x))
  {
    match x
    case ClaimIdle => ClaimInv(ar, s);
    case Assign(k, target) => AssignInv(ar, s, k, target);
    case Send(k) => SendInv(ar, s, k);
    case Release(k) => ReleaseInv(ar, s, k);
  }

  lemma {:induction false} DispatchStepInv<T(!new)>(ar: Arith<T>, s: Server<T>, x: Action<T>)
    requires Inv(ar, s) && Wf(s.tracker) && Enabled(ar, s, x)
    requires x.Dispatch? || x.AddTile? || x.Return?
    ensures Inv(ar, Next(s, x))
  {
    match x
    case Dispatch(op, order, nan) => DispatchInv(ar, s, op, order, nan);
    case AddTile(oid) => AddTileInv(ar, s, oid);
    case Return(oid) => ReturnInv(ar, s, oid);
  }

  lemma {:induction false} LinkStepInv<T(!new)>(ar: Arith<T>, s: Server<T>, x: Action<T>)
    requires Inv(ar, s) && Wf(s.tracker) && Enabled(ar, s, x)
    requires x.Connect? || x.Close? || x.CloseUnregistered?
    ensures Inv(ar, Next(s, x))
  {
    match x
    case Connect(d) => ConnectInv(ar, s, d);
    case Close(d) => CloseInv(ar, s, d);
    case CloseUnregistered => CloseUnregisteredInv(ar, s);
  }

  lemma {:induction false} AnswerStepInv<T(!new)>(ar: Arith<T>, s: Server<T>, x: Action<T>)
    requires Lawful(ar) && Inv(ar, s) && Wf(s.tracker) && Enabled(ar, s, x)
    requires x.Compute? || x.Deliver? || x.Retire? || x.Count?
    ensures Inv(ar, Next(s, x))
  {
    match x
    case Compute(d, m, scratch, block) => ComputeInv(ar, s, d, m, scratch, block);
    case Deliver(d, m) => DeliverInv(ar, s, d, m);
    case Retire(k) => RetireInv(ar, s, k);
    case Count(k) => CountInv(ar, s, k);
  }

  lemma {:induction false} StepInv<T(!new)>(ar: Arith<T>, s: Server<T>, x: Action<T>)
    requires Lawful(ar) && Inv(ar, s)
    ensures Inv(ar, Perform(ar, s, x))
  {
    if Wf(s.tracker) && Enabled(ar, s, x) {
      if x.ClaimIdle? || x.Assign? || x.Send? || x.Release? {
        SenderStepInv(ar, s, x);
      } else if x.Dispatch? || x.AddTile? || x.Return? {
        DispatchStepInv(ar, s, x);
      } else if x.Connect? || x.Close? || x.CloseUnregistered? {
        LinkStepInv(ar, s, x);
      } else {
        AnswerStepInv(ar, s, x);
      }
    }
  }

  lemma {:induction false} ExecFromInv<T(!new)>(ar: Arith<T>, s: Server<T>, xs: seq<Action<T>>)
    requires Lawful(ar) && Inv(ar, s)
    ensures Inv(ar, ExecFrom(ar, s, xs))
    decreases |xs|
  {
    if xs != [] {
      ExecFromInv(ar, s, xs[..|xs| - 1]);
      StepInv(ar, ExecFrom(ar, s, xs[..|xs| - 1]), xs[|xs| - 1]);
    }
  }

  lemma {:induction false} RunInv<T(!new)>(ar: Arith<T>, xs: seq<Action<T>>)
    requires Lawful(ar)
    ensures Inv(ar, Exec(ar, xs))
  {
    InitInv(ar);
    ExecFromInv(ar, Init(), xs);
  }

  // --------------------------------------------------------------------------
  // What a caller of WaitMatMul gets
  // --------------------------------------------------------------------------

  /** WaitMatMul's condition on an id. */
  predicate WaitOver<T(==)>(s: Server<T>, oid: nat) {
    CountOf(s, oid) == 0
  }

  lemma {:induction false} NothingPending<T(!new)>(ar: Arith<T>, s: Server<T>, oid: nat, k: Key)
    requires Inv(ar, s) && oid in s.ops && WaitOver(s, oid) && Belongs(s, oid, k)
    ensures oid in s.outputs && Done(ar, s.ops[oid], s.outputs[oid], k)
  {
    var v := View(s.tracker);
    assert OpOk(s, oid);
    assert Pending(s, v, oid) == {};
    assert AddingKeys(s, oid) == {};
    assert k in v ==> k !in Owned(v, oid);
    if k in v {
      VersionsDiffer(s, v, oid, k);
    }
    assert MeaningOf(ar).done(s.ops[oid], s.outputs[oid], k);
  }

  lemma {:induction false} VersionsDiffer<T>(s: Server<T>, v: map<Key, Entry>, oid: nat, k: Key)
    requires OpsOk(s) && k in v && EntryOk(s, v, k) && Belongs(s, oid, k)
    ensures v[k].oid == oid && k in Owned(v, oid)
  {
  }

  lemma {:induction false} ProductReady<T(!new)>(ar: Arith<T>, s: Server<T>, oid: nat)
    requires Lawful(ar) && Inv(ar, s) && oid in s.ops && WaitOver(s, oid)
    ensures oid in s.outputs && s.ops[oid].Ok()
    ensures IsProduct(s.ops[oid].g, ar, s.ops[oid].a, s.ops[oid].b, s.outputs[oid])
  {
    assert OpOk(s, oid);
    var op := s.ops[oid];
    forall t | Legal(op.g, t)
      ensures TileDone(op.g, ar, op.a, op.b, s.outputs[oid], t)
    {
      assert t in op.tiles;
      var k := KeyOf(op.version, t);
      assert TileOf(k) == t;
      NothingPending(ar, s, oid, k);
    }
    AllTilesDone(op.g, ar, op.a, op.b, s.outputs[oid]);
  }

  /**
   In every run, waiting on an id that a dispatch returned ends only with the whole
   product A B^T in that id's output.
   */
  lemma {:induction false} WaitReturnsProduct<T(!new)>(ar: Arith<T>, xs: seq<Action<T>>, oid: nat)
    requires Lawful(ar)
    requires oid in Exec(ar, xs).returned && WaitOver(Exec(ar, xs), oid)
    ensures var s := Exec(ar, xs);
            && oid in s.ops && oid in s.outputs && s.ops[oid].Ok()
            && IsProduct(s.ops[oid].g, ar, s.ops[oid].a, s.ops[oid].b, s.outputs[oid])
  {
    RunInv(ar, xs);
    assert oid in Exec(ar, xs).ops;
    ProductReady(ar, Exec(ar, xs), oid);
  }

  /** An id that was never dispatched counts zero: waiting on it returns at once, whatever is there. */
  lemma {:induction false} WaitOnUnusedId<T(!new)>(ar: Arith<T>, xs: seq<Action<T>>, oid: nat)
    requires Lawful(ar) && oid !in Exec(ar, xs).ops
    ensures WaitOver(Exec(ar, xs), oid) && oid !in Exec(ar, xs).returned
  {
    RunInv(ar, xs);
  }

  /** In every run a decrement finds a positive counter, so the underflow clamp never fires. */
  lemma {:induction false} ClampNeverFires<T(!new)>(ar: Arith<T>, xs: seq<Action<T>>, k: Key)
    requires Lawful(ar) && Enabled(ar, Exec(ar, xs), Count(k))
    ensures CountOf(Exec(ar, xs), Exec(ar, xs).handling[k].oid) >= 1
  {
    RunInv(ar, xs);
    CountInv(ar, Exec(ar, xs), k);
  }

  /** In every run a counter equals the number of its tiles not yet written and counted. */
  lemma {:induction false} CounterIsPending<T(!new)>(ar: Arith<T>, xs: seq<Action<T>>, oid: nat)
    requires Lawful(ar) && oid in Exec(ar, xs).ops
    ensures CountOf(Exec(ar, xs), oid) == |Pending(Exec(ar, xs), View(Exec(ar, xs).tracker), oid)|
  {
    RunInv(ar, xs);
  }

  // --------------------------------------------------------------------------
  // No tile is orphaned or duplicated
  // --------------------------------------------------------------------------

  /** Message m, on the link of d, is the only message anywhere about k. */
  ghost predicate OnlyMessage<T(!new)>(s: Server<T>, d: int, m: Msg<T>, k: Key) {
    && d in s.links && m in s.links[d] && m.key == k && s.links[d][m] == 1
    && forall d', m' | d' in s.links && m' in s.links[d'] && m'.key == k :: d' == d && m' == m
  }

  ghost predicate NoMessage<T(!new)>(s: Server<T>, k: Key) {
    forall d, m | d in s.links && m in s.links[d] :: m.key != k
  }

  lemma {:induction false} MessageIsOnly<T(!new)>(w: Meaning<T>, s: Server<T>, v: map<Key, Entry>, d: int, m: Msg<T>)
    requires LinksOk(w, s, v) && d in s.links && m in s.links[d]
    ensures OnlyMessage(s, d, m, m.key)
  {
    assert MsgOk(w, s, v, d, m);
    forall d', m' | d' in s.links && m' in s.links[d'] && m'.key == m.key
      ensures d' == d && m' == m
    {
      assert MsgOk(w, s, v, d', m');
    }
  }

  lemma {:induction false} QuietKey<T(!new)>(w: Meaning<T>, s: Server<T>, v: map<Key, Entry>, k: Key)
    requires LinksOk(w, s, v)
    requires k !in v || v[k].state != Running || k in s.limbo || k in s.handling
    ensures NoMessage(s, k)
  {
    forall d, m | d in s.links && m in s.links[d]
      ensures m.key != k
    {
      assert MsgOk(w, s, v, d, m);
    }
  }

  /** Where a tile of a dispatched operation can be. */
  datatype Whereabouts = NotYetAdded | Waiting | Claimed | InFlight(d: int) | BeingHandled | Finished

  ghost function WhereIs<T>(s: Server<T>, v: map<Key, Entry>, oid: nat, k: Key): Whereabouts
    requires oid in s.ops
  {
    if k in AddingKeys(s, oid) then NotYetAdded
    else if k in s.handling then BeingHandled
    else if k !in v then Whereabouts.Finished
    else if v[k].state == Idle then Waiting
    else if k in s.limbo then Claimed
    else InFlight(v[k].home)
  }

  /** What is true of a tile at each of those places. */
  ghost predicate Accounted<T(!new)>(ar: Arith<T>, s: Server<T>, v: map<Key, Entry>, oid: nat, k: Key)
    requires oid in s.ops
  {
    match WhereIs(s, v, oid, k)
    case NotYetAdded => NoMessage(s, k)
    case Waiting => k in v && v[k].state == Idle && NoMessage(s, k)
    case Claimed => k in v && v[k].state == Running && NoMessage(s, k)
    case InFlight(d) => k in v && v[k] == Entry(oid, Running, d) && exists m :: OnlyMessage(s, d, m, k)
    case BeingHandled => NoMessage(s, k)
    case Finished => NoMessage(s, k) && oid in s.outputs && Done(ar, s.ops[oid], s.outputs[oid], k)
  }

  lemma {:induction false} InFlightAccounted<T(!new)>(ar: Arith<T>, s: Server<T>, oid: nat, k: Key)
    requires Inv(ar, s) && Belongs(s, oid, k) && WhereIs(s, View(s.tracker), oid, k).InFlight?
    ensures var v := View(s.tracker);
            k in v && v[k] == Entry(oid, Running, v[k].home) && exists m :: OnlyMessage(s, v[k].home, m, k)
  {
    var v := View(s.tracker);
    assert EntryOk(s, v, k);
    VersionsDiffer(s, v, oid, k);
    InFlightMessage(MeaningOf(ar), s, v, k);
  }

  lemma {:induction false} InFlightMessage<T(!new)>(w: Meaning<T>, s: Server<T>, v: map<Key, Entry>, k: Key)
    requires LinksOk(w, s, v) && k in v && EntryOk(s, v, k)
    requires v[k].state == Running && k !in s.limbo && k !in s.handling
    ensures exists m :: OnlyMessage(s, v[k].home, m, k)
  {
    var d := v[k].home;
    assert Heard(s, d, k);
    var m :| d in s.links && m in s.links[d] && m.key == k;
    MessageIsOnly(w, s, v, d, m);
  }

  lemma {:induction false} FinishedAccounted<T(!new)>(ar: Arith<T>, s: Server<T>, oid: nat, k: Key)
    requires Inv(ar, s) && Belongs(s, oid, k) && WhereIs(s, View(s.tracker), oid, k).Finished?
    ensures Accounted(ar, s, View(s.tracker), oid, k)
  {
    assert OpOk(s, oid);
    QuietKey(MeaningOf(ar), s, View(s.tracker), k);
    assert MeaningOf(ar).done(s.ops[oid], s.outputs[oid], k);
  }

  lemma {:induction false} RestAccounted<T(!new)>(ar: Arith<T>, s: Server<T>, oid: nat, k: Key)
    requires Inv(ar, s) && Belongs(s, oid, k)
    requires !WhereIs(s, View(s.tracker), oid, k).InFlight? && !WhereIs(s, View(s.tracker), oid, k).Finished?
    ensures Accounted(ar, s, View(s.tracker), oid, k)
  {
    var v := View(s.tracker);
    assert oid in s.adding ==> AddingOk(s, v, oid);
    assert k in v ==> EntryOk(s, v, k);
    QuietKey(MeaningOf(ar), s, v, k);
  }

  /**
   In every run, a tile of a dispatched operation that is not finished is waiting with no
   message anywhere, or in flight with exactly one request or reply, which is on the open
   link of the device its reverse index names (or it is in the hands of one thread:
   about to be added, claimed by a sender, or its reply is being handled); a finished tile
   is in the output.
   */
  lemma {:induction false} NoTileLost<T(!new)>(ar: Arith<T>, xs: seq<Action<T>>, oid: nat, k: Key)
    requires Lawful(ar) && Belongs(Exec(ar, xs), oid, k)
    ensures Accounted(ar, Exec(ar, xs), View(Exec(ar, xs).tracker), oid, k)
  {
    RunInv(ar, xs);
    var s := Exec(ar, xs);
    if WhereIs(s, View(s.tracker), oid, k).InFlight? {
      InFlightAccounted(ar, s, oid, k);
    } else if WhereIs(s, View(s.tracker), oid, k).Finished? {
      FinishedAccounted(ar, s, oid, k);
    } else {
      RestAccounted(ar, s, oid, k);
    }
  }
}
