/**
 Why no connection may close while a sweep holds a tile homed there: the close puts the tile
 back to idle, another sweep claims and sends it, and the first sweep sends it once more.  It
 is counted twice, and a wait can end before the product is complete.
 */
module CloseRace {
  import opened Nonlinear
  import opened Sequences
  import opened Tiling
  import opened Keys
  import opened Tracker
  import opened TrackerLaws
  import opened TrackerView
  import opened Protocol
  import opened ProtocolInvariant
  import opened ProtocolSteps
  import opened ProtocolRuns
  import opened ProxySweep
  import opened Progress
  import opened Sweeps

  /** A tile, its operation, the device it is sent to, and that device's answer. */
  datatype Race<T> = Race(op: Operation<T>, oid: nat, k: Key, d: int, block: seq<T>) {
    ghost predicate Ok(ar: Arith<T>) {
      && op.Ok() && k.version == op.version && TileOf(k) in op.tiles
      && IsTileResult(op.g, ar, op.a, op.b, TileOf(k), block)
    }

    ghost function Asked(): Msg<T>
      requires op.Ok() && TileOf(k) in op.tiles
    {
      Request(k, oid, CalculateMatrixPartition(op.g, op.a, op.b, TileOf(k)))
    }

    function Answer(): Msg<T> {
      Reply(k, oid, block)
    }
  }

  /** The operation counts n and holds `out`; at least i requests and j replies for the tile are under way. */
  ghost predicate At<T(!new)>(ar: Arith<T>, r: Race<T>, s: Server<T>, n: nat, out: seq<T>, i: nat, j: nat) {
    && Agree(s.tracker) && r.Ok(ar)
    && r.oid in s.ops && s.ops[r.oid] == r.op
    && r.oid in s.outputs && s.outputs[r.oid] == out && |out| == r.op.g.CSize()
    && CountOf(s, r.oid) == n
    && r.d in s.links && s.links[r.d][r.Asked()] >= i && s.links[r.d][r.Answer()] >= j
  }

  /** The tracker knows the tile, in the given state. */
  predicate Known<T>(r: Race<T>, t: Tracker, st: PartitionState) {
    r.k in View(t) && View(t)[r.k].oid == r.oid && View(t)[r.k].state == st
  }

  lemma {:induction false} Takes<T>(ar: Arith<T>, s: Server<T>, x: Action<T>)
    requires Agree(s.tracker) && Enabled(ar, s, x)
    ensures Wf(s.tracker) && ExecFrom(ar, s, [x]) == Next(s, x)
  {
    AgreeIsWf(s.tracker);
    Performed(ar, s, x);
    ExecOne(ar, s, x);
  }

  // --------------------------------------------------------------------------
  // Answers and their handling
  // --------------------------------------------------------------------------

  /** Steps that neither a sweep takes nor a closing connection. */
  predicate Plain<T>(x: Action<T>) {
    !IsSweep(x) && !x.Close? && !x.CloseUnregistered?
  }

  predicate AllPlain<T>(xs: seq<Action<T>>) {
    forall i | 0 <= i < |xs| :: Plain(xs[i])
  }

  lemma {:induction false} PlainAppend<T>(xs: seq<Action<T>>, ys: seq<Action<T>>)
    requires AllPlain(xs) && AllPlain(ys)
    ensures AllPlain(xs + ys)
  {
  }

  lemma {:induction false} Computes<T(!new)>(ar: Arith<T>, r: Race<T>, s: Server<T>, n: nat, out: seq<T>, i: nat,
                                             j: nat, scratch: seq<T>)
    requires At(ar, r, s, n, out, i + 1, j) && Answers(ar, r.Asked().part, scratch, r.block)
    ensures At(ar, r, ExecFrom(ar, s, [Compute(r.d, r.Asked(), scratch, r.block)]), n, out, i, j + 1)
  {
    Takes(ar, s, Compute(r.d, r.Asked(), scratch, r.block));
  }

  lemma {:induction false} Delivers<T(!new)>(ar: Arith<T>, r: Race<T>, s: Server<T>, n: nat, out: seq<T>, j: nat)
    requires At(ar, r, s, n, out, 0, j + 1)
    ensures var s' := ExecFrom(ar, s, [Deliver(r.d, r.Answer())]);
            && At(ar, r, s', n, PutTile(r.op.g, out, TileOf(r.k), r.block), 0, j)
            && r.k in s'.handling && s'.handling[r.k] == Written(r.d, r.oid)
  {
    Takes(ar, s, Deliver(r.d, r.Answer()));
    DeliverWork(s, r.d, r.Answer());
    Progress.DeliverLinks(s, r.d, r.Answer());
  }

  lemma {:induction false} Retires<T(!new)>(ar: Arith<T>, r: Race<T>, s: Server<T>, n: nat, out: seq<T>, j: nat)
    requires At(ar, r, s, n, out, 0, j) && r.k in s.handling && s.handling[r.k] == Written(r.d, r.oid)
    ensures var s' := ExecFrom(ar, s, [Retire(r.k)]);
            At(ar, r, s', n, out, 0, j) && r.k in s'.handling && s'.handling[r.k] == Retired(r.d, r.oid)
  {
    Takes(ar, s, Retire(r.k));
    MarkAgrees(s.tracker, r.k, PartitionState.Finished);
    RemoveByKeyAgrees(Mark(s.tracker, r.k, PartitionState.Finished), r.k);
  }

  lemma {:induction false} Counts<T(!new)>(ar: Arith<T>, r: Race<T>, s: Server<T>, n: nat, out: seq<T>, j: nat)
    requires At(ar, r, s, n + 1, out, 0, j) && r.k in s.handling && s.handling[r.k] == Retired(r.d, r.oid)
    ensures At(ar, r, ExecFrom(ar, s, [Count(r.k)]), n, out, 0, j)
  {
    Takes(ar, s, Count(r.k));
  }

  /** The handler of one reply. */
  function HandleSteps<T>(r: Race<T>): seq<Action<T>> {
    [Deliver(r.d, r.Answer())] + ([Retire(r.k)] + [Count(r.k)])
  }

  lemma {:induction false} Handles<T(!new)>(ar: Arith<T>, r: Race<T>, s: Server<T>, n: nat, out: seq<T>, j: nat)
    requires At(ar, r, s, n + 1, out, 0, j + 1)
    ensures At(ar, r, ExecFrom(ar, s, HandleSteps(r)), n, PutTile(r.op.g, out, TileOf(r.k), r.block), 0, j)
  {
    var put := PutTile(r.op.g, out, TileOf(r.k), r.block);
    Delivers(ar, r, s, n + 1, out, j);
    var s1 := ExecFrom(ar, s, [Deliver(r.d, r.Answer())]);
    Retires(ar, r, s1, n + 1, put, j);
    var s2 := ExecFrom(ar, s1, [Retire(r.k)]);
    Counts(ar, r, s2, n, put, j);
    ExecAppend(ar, s1, [Retire(r.k)], [Count(r.k)]);
    ExecAppend(ar, s, [Deliver(r.d, r.Answer())], [Action<T>.Retire(r.k)] + [Action<T>.Count(r.k)]);
  }

  /** Two answers, and the handling of both. */
  ghost function AnswerSteps<T>(r: Race<T>, scratch: seq<T>): seq<Action<T>>
    requires r.op.Ok() && TileOf(r.k) in r.op.tiles
  {
    var x := Compute(r.d, r.Asked(), scratch, r.block);
    [x] + [x] + (HandleSteps(r) + HandleSteps(r))
  }

  lemma {:induction false} AnswersPlain<T>(r: Race<T>, scratch: seq<T>)
    requires r.op.Ok() && TileOf(r.k) in r.op.tiles
    ensures AllPlain(AnswerSteps(r, scratch))
  {
    var x := Compute(r.d, r.Asked(), scratch, r.block);
    assert AllPlain([x] + [x]) && AllPlain(HandleSteps(r));
    PlainAppend(HandleSteps(r), HandleSteps(r));
    PlainAppend([x] + [x], HandleSteps(r) + HandleSteps(r));
  }

  lemma {:induction false} CountedTwice<T(!new)>(ar: Arith<T>, r: Race<T>, s: Server<T>, n: nat, out: seq<T>,
                                                 scratch: seq<T>) returns (put: seq<T>)
    requires At(ar, r, s, n + 2, out, 2, 0) && Answers(ar, r.Asked().part, scratch, r.block)
    ensures put == PutTile(r.op.g, out, TileOf(r.k), r.block) && |put| == r.op.g.CSize()
    ensures At(ar, r, ExecFrom(ar, s, AnswerSteps(r, scratch)), n, PutTile(r.op.g, put, TileOf(r.k), r.block), 0, 0)
  {
    var x := Compute(r.d, r.Asked(), scratch, r.block);
    Computes(ar, r, s, n + 2, out, 1, 0, scratch);
    var s1 := ExecFrom(ar, s, [x]);
    Computes(ar, r, s1, n + 2, out, 0, 1, scratch);
    var s2 := ExecFrom(ar, s1, [x]);
    Handles(ar, r, s2, n + 1, out, 1);
    put := PutTile(r.op.g, out, TileOf(r.k), r.block);
    var s3 := ExecFrom(ar, s2, HandleSteps(r));
    Handles(ar, r, s3, n, put, 0);
    ExecAppend(ar, s, [x], [x]);
    ExecAppend(ar, s2, HandleSteps(r), HandleSteps(r));
    ExecAppend(ar, s, [x] + [x], HandleSteps(r) + HandleSteps(r));
  }

  // --------------------------------------------------------------------------
  // Sweeps and a tile's record
  // --------------------------------------------------------------------------

  lemma {:induction false} GoNext<T>(ar: Arith<T>, c: Crew<T>, ms: seq<Move<T>>, m: Move<T>)
    ensures Go(ar, c, ms + [m]) == Do(ar, Go(ar, c, ms), m)
  {
    assert (ms + [m])[..|ms|] == ms;
  }

  lemma {:induction false} GoAppend<T>(ar: Arith<T>, c: Crew<T>, ms: seq<Move<T>>, ns: seq<Move<T>>)
    ensures Go(ar, c, ms + ns) == Go(ar, Go(ar, c, ms), ns)
    decreases |ns|
  {
    if ns == [] {
      assert ms + ns == ms;
    } else {
      var ks, n := ns[..|ns| - 1], ns[|ns| - 1];
      assert ms + ns == (ms + ks) + [n];
      GoAppend(ar, c, ms, ks);
      GoNext(ar, c, ms + ks, n);
    }
  }

  lemma {:induction false} GoOne<T>(ar: Arith<T>, c: Crew<T>, m: Move<T>)
    ensures Go(ar, c, [m]) == Do(ar, c, m)
  {
    assert [] + [m] == [m];
    GoNext(ar, c, [], m);
  }

  lemma {:induction false} DoChoose<T>(ar: Arith<T>, c: Crew<T>, i: nat, k: Key, target: int)
    requires Wf(c.server.tracker)
    ensures Do(ar, c, Choose(i, k, target)) == if HoldsAt(c.held, i, k, ToAssign) then Chosen(c, i, k, target) else c
  {
  }

  lemma {:induction false} DoForward<T>(ar: Arith<T>, c: Crew<T>, i: nat, k: Key)
    requires Wf(c.server.tracker) && HoldsAt(c.held, i, k, ToForward) && AllAssigned(TilesOf(c.held, i))
    ensures Do(ar, c, Forward(i, k)) == Forwarded(c, i, k)
  {
  }

  function Others<T>(xs: seq<Action<T>>): (ms: seq<Move<T>>)
    ensures |ms| == |xs|
  {
    seq(|xs|, i requires 0 <= i < |xs| => Other(xs[i]))
  }

  lemma {:induction false} OthersNext<T>(xs: seq<Action<T>>)
    requires xs != []
    ensures Others(xs) == Others(xs[..|xs| - 1]) + [Other(xs[|xs| - 1])]
  {
  }

  /** Plain steps change the server as they do without sweeps, and no sweep. */
  lemma {:induction false} GoOthers<T>(ar: Arith<T>, c: Crew<T>, xs: seq<Action<T>>)
    requires AllPlain(xs)
    ensures Go(ar, c, Others(xs)) == Crew(ExecFrom(ar, c.server, xs), c.held)
  {
    if xs != [] {
      var ys, x := xs[..|xs| - 1], xs[|xs| - 1];
      GoOthers(ar, c, ys);
      OthersNext(xs);
      GoNext(ar, c, Others(ys), Other(x));
      OtherIsPerform(ar, Crew(ExecFrom(ar, c.server, ys), c.held), x);
      assert ys + [x] == xs;
      ExecNext(ar, c.server, ys, x);
    }
  }

  lemma {:induction false} OtherIsPerform<T>(ar: Arith<T>, c: Crew<T>, x: Action<T>)
    requires Plain(x)
    ensures Do(ar, c, Other(x)) == Crew(Perform(ar, c.server, x), c.held)
  {
    assert CanMove(ar, c, Other(x)) <==> Enabled(ar, c.server, x);
  }

  /** The tracker knows the tile under record p, which names its operation. */
  ghost predicate Pinned<T>(r: Race<T>, t: Tracker, p: nat) {
    && r.k in t.byKey && t.byKey[r.k] == p < |t.heap|
    && t.heap[p].oid == r.oid && r.k in t.home
  }

  /** A sweep holds the tile under record p. */
  predicate Carries<T>(r: Race<T>, held: Held, i: nat, p: nat) {
    r.k in TilesOf(held, i) && TilesOf(held, i)[r.k].record == p
  }

  /** Where the race stands: a requests and b replies are under way, and record p is the tile's. */
  ghost predicate Racing<T(!new)>(ar: Arith<T>, r: Race<T>, c: Crew<T>, p: nat, n: nat, out: seq<T>, a: nat, b: nat) {
    At(ar, r, c.server, n, out, a, b) && Pinned(r, c.server.tracker, p)
  }

  /** Sweep i alone may have changed what it holds, and has no more to assign than before. */
  ghost predicate OnlySweep(held: Held, held': Held, i: nat) {
    && (forall j: nat | j != i :: TilesOf(held', j) == TilesOf(held, j))
    && (forall k | k in TilesOf(held', i) :: k in TilesOf(held, i))
    && (forall k | HoldsAt(held', i, k, ToAssign) :: HoldsAt(held, i, k, ToAssign))
  }

  lemma {:induction false} OnlySweepAgain(held: Held, mid: Held, held': Held, i: nat)
    requires OnlySweep(held, mid, i) && OnlySweep(mid, held', i)
    ensures OnlySweep(held, held', i)
  {
  }

  lemma {:induction false} ClaimPinned<T>(r: Race<T>, t: Tracker, p: nat)
    requires Agree(t) && Pinned(r, t, p)
    ensures Agree(Claim(t)) && Pinned(r, Claim(t), p)
  {
    ClaimView(t);
  }

  lemma {:induction false} BeginHeld<T>(r: Race<T>, c: Crew<T>, p: nat, i: nat)
    requires Pinned(r, c.server.tracker, p) && Known(r, c.server.tracker, Idle)
    ensures Carries(r, Begun(c, i).held, i, p) && HoldsAt(Begun(c, i).held, i, r.k, ToAssign)
    ensures forall j: nat | j != i :: TilesOf(Begun(c, i).held, j) == TilesOf(c.held, j)
  {
    assert r.k in IdleKeys(View(c.server.tracker));
  }

  lemma {:induction false} BeginClaims<T(!new)>(ar: Arith<T>, r: Race<T>, c: Crew<T>, p: nat, n: nat, out: seq<T>,
                                                i: nat)
    requires Racing(ar, r, c, p, n, out, 0, 0) && Known(r, c.server.tracker, Idle) && TilesOf(c.held, i) == map[]
    ensures Go(ar, c, [Begin(i)]) == Begun(c, i) && Racing(ar, r, Begun(c, i), p, n, out, 0, 0)
  {
    GoOne(ar, c, Begin(i));
    AgreeIsWf(c.server.tracker);
    ClaimPinned(r, c.server.tracker, p);
  }

  // The first loop

  lemma {:induction false} ReassignPinned<T>(r: Race<T>, t: Tracker, p: nat, k: Key, e: int)
    requires Agree(t) && Pinned(r, t, p)
    ensures Wf(t) && Agree(Reassign(t, k, e).0) && Pinned(r, Reassign(t, k, e).0, p)
    ensures OwnerOf(Reassign(t, k, e).0, p) == if k == r.k then e else OwnerOf(t, p)
  {
    ReassignAgrees(t, k, e);
    assert KeyAgrees(t, r.k);
    if k in t.byKey {
      assert KeyAgrees(t, k);
    }
  }

  lemma {:induction false} ChooseHeld(held: Held, i: nat, k: Key)
    requires HoldsAt(held, i, k, ToAssign)
    ensures OnlySweep(held, SetStage(held, i, k, ToForward), i) && OnlySweep(held, LetGo(held, i, k), i)
    ensures !HoldsAt(SetStage(held, i, k, ToForward), i, k, ToAssign) && !HoldsAt(LetGo(held, i, k), i, k, ToAssign)
  {
  }

  /** One turn of the first loop, with device e for every tile. */
  lemma {:induction false} ChooseTurn<T(!new)>(ar: Arith<T>, r: Race<T>, c: Crew<T>, p: nat, n: nat, out: seq<T>,
                                               a: nat, i: nat, k: Key)
    requires Racing(ar, r, c, p, n, out, a, 0) && Carries(r, c.held, i, p)
    ensures var c' := Do(ar, c, Choose(i, k, r.d));
            && Racing(ar, r, c', p, n, out, a, 0) && Carries(r, c'.held, i, p)
            && OnlySweep(c.held, c'.held, i) && !HoldsAt(c'.held, i, k, ToAssign)
            && (OwnerOf(c.server.tracker, p) == r.d || (HoldsAt(c.held, i, k, ToAssign) && k == r.k) ==>
                  OwnerOf(c'.server.tracker, p) == r.d)
  {
    AgreeIsWf(c.server.tracker);
    DoChoose(ar, c, i, k, r.d);
    if HoldsAt(c.held, i, k, ToAssign) {
      ChosenRacing(ar, r, c, p, n, out, a, i, k);
      ChosenCarries(r, c, p, i, k);
      ChooseHeld(c.held, i, k);
    }
  }

  lemma {:induction false} ChosenRacing<T(!new)>(ar: Arith<T>, r: Race<T>, c: Crew<T>, p: nat, n: nat, out: seq<T>,
                                                 a: nat, i: nat, k: Key)
    requires Racing(ar, r, c, p, n, out, a, 0) && Wf(c.server.tracker) && k in TilesOf(c.held, i)
    ensures var c' := Chosen(c, i, k, r.d);
            && Racing(ar, r, c', p, n, out, a, 0)
            && OwnerOf(c'.server.tracker, p) == if k == r.k then r.d else OwnerOf(c.server.tracker, p)
  {
    ReassignPinned(r, c.server.tracker, p, k, r.d);
  }

  lemma {:induction false} ChosenCarries<T>(r: Race<T>, c: Crew<T>, p: nat, i: nat, k: Key)
    requires Wf(c.server.tracker) && r.k in c.server.tracker.byKey && k in TilesOf(c.held, i)
             && Carries(r, c.held, i, p)
    ensures Carries(r, Chosen(c, i, k, r.d).held, i, p)
  {
  }

  function Choices<T>(i: nat, ks: seq<Key>, e: int): (ms: seq<Move<T>>)
    ensures |ms| == |ks|
  {
    seq(|ks|, n requires 0 <= n < |ks| => Choose(i, ks[n], e))
  }

  /**
   After those turns no tile of ks is left to assign, and the record names e if its tile was
   among them or it did before.
   */
  ghost predicate Chose<T(!new)>(ar: Arith<T>, r: Race<T>, c: Crew<T>, c': Crew<T>, p: nat, n: nat, out: seq<T>,
                                 a: nat, i: nat, ks: seq<Key>)
  {
    && Racing(ar, r, c', p, n, out, a, 0) && Carries(r, c'.held, i, p) && OnlySweep(c.held, c'.held, i)
    && (forall k | k in ks :: !HoldsAt(c'.held, i, k, ToAssign))
    && (OwnerOf(c.server.tracker, p) == r.d ==> OwnerOf(c'.server.tracker, p) == r.d)
    && (HoldsAt(c.held, i, r.k, ToAssign) ==>
          HoldsAt(c'.held, i, r.k, ToAssign) || OwnerOf(c'.server.tracker, p) == r.d)
  }

  lemma {:induction false} ChooseTurns<T(!new)>(ar: Arith<T>, r: Race<T>, c: Crew<T>, p: nat, n: nat, out: seq<T>,
                                                a: nat, i: nat, ks: seq<Key>)
    requires Racing(ar, r, c, p, n, out, a, 0) && Carries(r, c.held, i, p)
    ensures Chose(ar, r, c, Go(ar, c, Choices(i, ks, r.d)), p, n, out, a, i, ks)
  {
    if ks != [] {
      var js, k := ks[..|ks| - 1], ks[|ks| - 1];
      assert ks == js + [k] && Choices<T>(i, ks, r.d) == Choices(i, js, r.d) + [Choose(i, k, r.d)];
      ChooseTurns(ar, r, c, p, n, out, a, i, js);
      GoNext(ar, c, Choices(i, js, r.d), Choose(i, k, r.d));
      ChooseOneMore(ar, r, c, Go(ar, c, Choices(i, js, r.d)), p, n, out, a, i, js, k);
    }
  }

  lemma {:induction false} ChooseOneMore<T(!new)>(ar: Arith<T>, r: Race<T>, c: Crew<T>, c1: Crew<T>, p: nat, n: nat,
                                                  out: seq<T>, a: nat, i: nat, js: seq<Key>, k: Key)
    requires Chose(ar, r, c, c1, p, n, out, a, i, js)
    ensures Chose(ar, r, c, Do(ar, c1, Choose(i, k, r.d)), p, n, out, a, i, js + [k])
  {
    var c2 := Do(ar, c1, Choose(i, k, r.d));
    ChooseTurn(ar, r, c1, p, n, out, a, i, k);
    OnlySweepAgain(c.held, c1.held, c2.held, i);
    NoneLeft(c1.held, c2.held, i, js, k);
  }

  lemma {:induction false} NoneLeft(held: Held, held': Held, i: nat, js: seq<Key>, k: Key)
    requires OnlySweep(held, held', i) && !HoldsAt(held', i, k, ToAssign)
    requires forall k' | k' in js :: !HoldsAt(held, i, k', ToAssign)
    ensures forall k' | k' in js + [k] :: !HoldsAt(held', i, k', ToAssign)
  {
  }

  lemma {:induction false} KeysListed(tiles: map<Key, Hold>) returns (ks: seq<Key>)
    ensures forall k | k in tiles :: k in ks
    decreases |tiles|
  {
    if tiles == map[] {
      ks := [];
    } else {
      var k :| k in tiles;
      var rest := tiles - {k};
      assert rest.Keys == tiles.Keys - {k};
      var js := KeysListed(rest);
      ks := js + [k];
      forall k' | k' in tiles
        ensures k' in ks
      {
        assert k' != k ==> k' in rest;
      }
    }
  }

  /** The whole first loop: every tile of the sweep is assigned to the device. */
  lemma {:induction false} FirstLoop<T(!new)>(ar: Arith<T>, r: Race<T>, c: Crew<T>, p: nat, n: nat, out: seq<T>,
                                              a: nat, i: nat)
    returns (ms: seq<Move<T>>)
    requires Racing(ar, r, c, p, n, out, a, 0) && Carries(r, c.held, i, p)
    requires HoldsAt(c.held, i, r.k, ToAssign) || OwnerOf(c.server.tracker, p) == r.d
    ensures var c' := Go(ar, c, ms);
            && Racing(ar, r, c', p, n, out, a, 0) && Carries(r, c'.held, i, p) && AllAssigned(TilesOf(c'.held, i))
            && OwnerOf(c'.server.tracker, p) == r.d
            && (forall j: nat | j != i :: TilesOf(c'.held, j) == TilesOf(c.held, j))
  {
    var ks := KeysListed(TilesOf(c.held, i));
    ms := Choices(i, ks, r.d);
    ChooseTurns(ar, r, c, p, n, out, a, i, ks);
    var c' := Go(ar, c, ms);
    forall k | k in TilesOf(c'.held, i)
      ensures TilesOf(c'.held, i)[k].stage == ToForward
    {
      assert k in TilesOf(c.held, i);
    }
  }

  // The second loop

  lemma {:induction false} ForwardTurn<T(!new)>(ar: Arith<T>, r: Race<T>, c: Crew<T>, p: nat, n: nat, out: seq<T>,
                                                a: nat, i: nat)
    requires Racing(ar, r, c, p, n, out, a, 0) && Carries(r, c.held, i, p) && AllAssigned(TilesOf(c.held, i))
    requires OwnerOf(c.server.tracker, p) == r.d
    ensures var c' := Go(ar, c, [Forward(i, r.k)]);
            && Racing(ar, r, c', p, n, out, a + 1, 0) && OwnerOf(c'.server.tracker, p) == r.d
            && (forall j: nat | j != i :: TilesOf(c'.held, j) == TilesOf(c.held, j))
  {
    GoOne(ar, c, Forward(i, r.k));
    AgreeIsWf(c.server.tracker);
    DoForward(ar, c, i, r.k);
    PostedOnce(ar, r, c.server, p, n, out, a);
  }

  lemma {:induction false} PostedOnce<T(!new)>(ar: Arith<T>, r: Race<T>, s: Server<T>, p: nat, n: nat, out: seq<T>,
                                               a: nat)
    requires At(ar, r, s, n, out, a, 0) && Pinned(r, s.tracker, p)
    ensures var s' := Posted(s, r.k, s.tracker.heap[p].oid, r.d);
            s'.tracker == s.tracker && At(ar, r, s', n, out, a + 1, 0)
  {
  }

  /** A sweep that carries the tile and goes through both loops with it. */
  lemma {:induction false} BothLoops<T(!new)>(ar: Arith<T>, r: Race<T>, c: Crew<T>, p: nat, n: nat, out: seq<T>,
                                              a: nat, i: nat)
    returns (ms: seq<Move<T>>)
    requires Racing(ar, r, c, p, n, out, a, 0) && Carries(r, c.held, i, p)
    requires HoldsAt(c.held, i, r.k, ToAssign) || OwnerOf(c.server.tracker, p) == r.d
    ensures var c' := Go(ar, c, ms);
            && Racing(ar, r, c', p, n, out, a + 1, 0) && OwnerOf(c'.server.tracker, p) == r.d
            && (forall j: nat | j != i :: TilesOf(c'.held, j) == TilesOf(c.held, j))
  {
    var first := FirstLoop(ar, r, c, p, n, out, a, i);
    ForwardTurn(ar, r, Go(ar, c, first), p, n, out, a, i);
    GoAppend(ar, c, first, [Forward(i, r.k)]);
    ms := first + [Forward(i, r.k)];
  }

  /** An idle tile that sweep i still carries: a fresh sweep j sends it, and sweep i sends it again. */
  lemma {:induction false} SentTwice<T(!new)>(ar: Arith<T>, r: Race<T>, c: Crew<T>, p: nat, n: nat, out: seq<T>, i: nat,
                                              j: nat) returns (ms: seq<Move<T>>)
    requires Racing(ar, r, c, p, n, out, 0, 0) && Known(r, c.server.tracker, Idle) && Carries(r, c.held, i, p)
    requires TilesOf(c.held, j) == map[]
    ensures At(ar, r, Go(ar, c, ms).server, n, out, 2, 0)
  {
    BeginClaims(ar, r, c, p, n, out, j);
    BeginHeld(r, c, p, j);
    var ns := BothLoops(ar, r, Begun(c, j), p, n, out, 0, j);
    var ls := BothLoops(ar, r, Go(ar, Begun(c, j), ns), p, n, out, 1, i);
    GoAppend(ar, c, [Begin(j)], ns);
    GoAppend(ar, c, [Begin(j)] + ns, ls);
    ms := [Begin(j)] + ns + ls;
  }

  // --------------------------------------------------------------------------
  // The close that overlaps a sweep
  // --------------------------------------------------------------------------

  /** The device whose tiles a close puts back; -1 for a connection that never registered. */
  function Gone<T>(x: Action<T>): int {
    if x.Close? then x.d else -1
  }

  lemma {:induction false} ClosedCrew<T>(ar: Arith<T>, c: Crew<T>, x: Action<T>)
    requires Wf(c.server.tracker) && (x.Close? || x.CloseUnregistered?) && CanMove(ar, c, Other(x))
    ensures var c' := Do(ar, c, Other(x));
            && c'.held == c.held
            && c'.server == c.server.(tracker := MarkDeviceFailed(c.server.tracker, Gone(x)), links := c'.server.links)
            && c'.server.links == if x.Close? then c.server.links - {x.d} else c.server.links
  {
  }

  lemma {:induction false} HeldTile<T(!new)>(ar: Arith<T>, s: Server<T>, k: Key)
    requires Inv(ar, s) && k in s.limbo && k in View(s.tracker)
    ensures var e := View(s.tracker)[k];
            && e.state == Running && Belongs(s, e.oid, k) && OpOk(s, e.oid) && Agree(s.tracker)
  {
    assert EntryOk(s, View(s.tracker), k);
    assert OpOk(s, View(s.tracker)[k].oid);
  }

  lemma {:induction false} TileAnswer<T(!new)>(ar: Arith<T>, op: Operation<T>, oid: nat, k: Key, d: int, fill: T)
    returns (r: Race<T>, scratch: seq<T>)
    requires Lawful(ar) && op.Ok() && k.version == op.version && TileOf(k) in op.tiles
    ensures r.op == op && r.oid == oid && r.k == k && r.d == d && r.Ok(ar)
            && Answers(ar, r.Asked().part, scratch, r.block)
  {
    var m := Request(k, oid, CalculateMatrixPartition(op.g, op.a, op.b, TileOf(k)));
    var block: seq<T>;
    scratch, block := CanAnswer(ar, op, m, fill);
    ReplyRight(ar, op, m, scratch, block);
    r := Race(op, oid, k, d, block);
  }

  lemma {:induction false} FailedPinned<T>(r: Race<T>, t: Tracker, p: nat, d: int)
    requires Agree(t) && Pinned(r, t, p) && Known(r, t, Running) && View(t)[r.k].home == d
    ensures Agree(MarkDeviceFailed(t, d)) && Pinned(r, MarkDeviceFailed(t, d), p)
    ensures Known(r, MarkDeviceFailed(t, d), Idle)
  {
    FailedDeviceView(t, d);
  }

  lemma {:induction false} HeldRecord<T(!new)>(ar: Arith<T>, c: Crew<T>, i: nat, k: Key, r: Race<T>)
    requires CrewInv(ar, c) && k in TilesOf(c.held, i) && r.k == k && r.oid == View(c.server.tracker)[k].oid
    ensures Pinned(r, c.server.tracker, TilesOf(c.held, i)[k].record)
  {
    HeldTracked(ar, c, i, k);
  }

  /** A tile that sweep i holds at whatever stage, homed at the connection that closes. */
  ghost predicate Caught<T(!new)>(ar: Arith<T>, c: Crew<T>, x: Action<T>, i: nat, k: Key, e: int) {
    && CrewInv(ar, c) && (x.Close? || x.CloseUnregistered?) && CanMove(ar, c, Other(x))
    && k in TilesOf(c.held, i) && k in View(c.server.tracker) && View(c.server.tracker)[k].home == Gone(x)
    && e in c.server.links && e != Gone(x)
  }

  /** The closed server, as the race sees it. */
  lemma {:induction false} ClosedAt<T(!new)>(ar: Arith<T>, r: Race<T>, s: Server<T>, s0: Server<T>, p: nat, d: int)
    requires Agree(s.tracker) && r.Ok(ar) && OpOk(s, r.oid) && s.ops[r.oid] == r.op && Pinned(r, s.tracker, p)
    requires Known(r, s.tracker, Running) && View(s.tracker)[r.k].home == d
    requires s0 == s.(tracker := MarkDeviceFailed(s.tracker, d), links := s0.links) && r.d in s0.links
    ensures At(ar, r, s0, CountOf(s, r.oid), s.outputs[r.oid], 0, 0) && Pinned(r, s0.tracker, p)
    ensures Known(r, s0.tracker, Idle)
  {
    FailedPinned(r, s.tracker, p, d);
  }

  /** Sweep i holds the race's tile, which runs. */
  ghost predicate InRace<T(!new)>(ar: Arith<T>, r: Race<T>, c: Crew<T>, i: nat) {
    && Agree(c.server.tracker) && r.Ok(ar) && OpOk(c.server, r.oid) && c.server.ops[r.oid] == r.op
    && Known(r, c.server.tracker, Running) && r.k in TilesOf(c.held, i)
    && Pinned(r, c.server.tracker, TilesOf(c.held, i)[r.k].record)
  }

  lemma {:induction false} RaceFor<T(!new)>(ar: Arith<T>, c: Crew<T>, i: nat, k: Key, e: int, fill: T)
    returns (r: Race<T>, scratch: seq<T>)
    requires Lawful(ar) && CrewInv(ar, c) && k in TilesOf(c.held, i)
    ensures InRace(ar, r, c, i) && r.k == k && r.d == e && r.oid == View(c.server.tracker)[k].oid
    ensures Answers(ar, r.Asked().part, scratch, r.block)
  {
    HeldTracked(ar, c, i, k);
    HeldTile(ar, c.server, k);
    var oid := View(c.server.tracker)[k].oid;
    r, scratch := TileAnswer(ar, c.server.ops[oid], oid, k, e, fill);
    HeldRecord(ar, c, i, k, r);
  }

  /** The state in which the tile is idle and sweep i still carries it. */
  ghost predicate Reclaimable<T(!new)>(ar: Arith<T>, r: Race<T>, c: Crew<T>, c0: Crew<T>, i: nat) {
    && r.oid in c.server.outputs && r.k in TilesOf(c.held, i)
    && var p := TilesOf(c.held, i)[r.k].record;
       && Racing(ar, r, c0, p, CountOf(c.server, r.oid), c.server.outputs[r.oid], 0, 0)
       && Known(r, c0.server.tracker, Idle) && Carries(r, c0.held, i, p)
  }

  lemma {:induction false} ClosedRace<T(!new)>(ar: Arith<T>, r: Race<T>, c: Crew<T>, c0: Crew<T>, i: nat, d: int)
    requires InRace(ar, r, c, i) && View(c.server.tracker)[r.k].home == d
    requires c0.held == c.held && r.d in c0.server.links
    requires c0.server == c.server.(tracker := MarkDeviceFailed(c.server.tracker, d), links := c0.server.links)
    ensures Reclaimable(ar, r, c, c0, i)
  {
    ClosedAt(ar, r, c.server, c0.server, TilesOf(c.held, i)[r.k].record, d);
  }

  lemma {:induction false} RaceBegins<T(!new)>(ar: Arith<T>, r: Race<T>, c: Crew<T>, x: Action<T>, i: nat)
    requires InRace(ar, r, c, i) && (x.Close? || x.CloseUnregistered?) && CanMove(ar, c, Other(x))
    requires View(c.server.tracker)[r.k].home == Gone(x) && r.d in c.server.links && r.d != Gone(x)
    ensures Reclaimable(ar, r, c, Do(ar, c, Other(x)), i)
  {
    AgreeIsWf(c.server.tracker);
    ClosedCrew(ar, c, x);
    ClosedRace(ar, r, c, Do(ar, c, Other(x)), i, Gone(x));
  }

  /** Writing a tile twice changes no cell outside it. */
  lemma {:induction false} OutsideKept<T(!new)>(ar: Arith<T>, r: Race<T>, out: seq<T>, p: nat, i: nat, j: nat)
    requires r.Ok(ar) && |out| == r.op.g.CSize() && r.op.g.Cell(p, i, j) && !Covers(r.op.g, TileOf(r.k), p, i, j)
    ensures var g := r.op.g;
            && Flat(g, p, i, j) < |out|
            && PutTile(g, PutTile(g, out, TileOf(r.k), r.block), TileOf(r.k), r.block)[Flat(g, p, i, j)]
               == out[Flat(g, p, i, j)]
  {
    var g, t := r.op.g, TileOf(r.k);
    PutTileCell(g, ar, r.op.a, r.op.b, out, t, r.block, p, i, j);
    PutTileCell(g, ar, r.op.a, r.op.b, PutTile(g, out, t, r.block), t, r.block, p, i, j);
  }

  lemma {:induction false} FreshSweep(sweeps: set<nat>) returns (j: nat)
    ensures forall i | i in sweeps :: i < j
  {
    if sweeps == {} {
      j := 0;
    } else {
      var i :| i in sweeps;
      var n := FreshSweep(sweeps - {i});
      j := if i < n then n else i + 1;
      assert forall a | a in sweeps && a != i :: a in sweeps - {i};
    }
  }

  /** Cells outside tile k are as they were, and two tiles fewer are to count. */
  ghost predicate CountsTwo<T(!new)>(s: Server<T>, s': Server<T>, oid: nat, k: Key) {
    && oid in s.ops && oid in s.outputs && oid in s'.ops && oid in s'.outputs && s'.ops[oid] == s.ops[oid]
    && CountOf(s, oid) >= 2 && CountOf(s', oid) == CountOf(s, oid) - 2
    && |s'.outputs[oid]| == |s.outputs[oid]| == s.ops[oid].g.CSize()
    && forall p: nat, i: nat, j: nat {:trigger Flat(s.ops[oid].g, p, i, j)} |
         s.ops[oid].g.Cell(p, i, j) && !Covers(s.ops[oid].g, TileOf(k), p, i, j) ::
         && Flat(s.ops[oid].g, p, i, j) < |s.outputs[oid]|
         && s'.outputs[oid][Flat(s.ops[oid].g, p, i, j)] == s.outputs[oid][Flat(s.ops[oid].g, p, i, j)]
  }

  lemma {:induction false} TwiceOutside<T(!new)>(ar: Arith<T>, r: Race<T>, s: Server<T>, s': Server<T>, out: seq<T>)
    requires r.oid in s.ops && s.ops[r.oid] == r.op && r.oid in s.outputs && s.outputs[r.oid] == out
    requires CountOf(s, r.oid) >= 2 && |out| == r.op.g.CSize() && r.Ok(ar)
    requires At(ar, r, s', CountOf(s, r.oid) - 2,
                PutTile(r.op.g, PutTile(r.op.g, out, TileOf(r.k), r.block), TileOf(r.k), r.block), 0, 0)
    ensures CountsTwo(s, s', r.oid, r.k)
  {
    var g, t := r.op.g, TileOf(r.k);
    forall p: nat, i: nat, j: nat {:trigger Flat(g, p, i, j)} | g.Cell(p, i, j) && !Covers(g, t, p, i, j)
      ensures Flat(g, p, i, j) < |out|
      ensures PutTile(g, PutTile(g, out, t, r.block), t, r.block)[Flat(g, p, i, j)] == out[Flat(g, p, i, j)]
    {
      OutsideKept(ar, r, out, p, i, j);
    }
  }

  /** From the closed state on. */
  lemma {:induction false} RaceRuns<T(!new)>(ar: Arith<T>, r: Race<T>, c: Crew<T>, p: nat, n: nat, out: seq<T>, i: nat,
                                             scratch: seq<T>) returns (ms: seq<Move<T>>)
    requires Racing(ar, r, c, p, n + 2, out, 0, 0) && Known(r, c.server.tracker, Idle) && Carries(r, c.held, i, p)
    requires Answers(ar, r.Asked().part, scratch, r.block)
    ensures |out| == r.op.g.CSize()
    ensures At(ar, r, Go(ar, c, ms).server, n,
               PutTile(r.op.g, PutTile(r.op.g, out, TileOf(r.k), r.block), TileOf(r.k), r.block), 0, 0)
  {
    var j := FreshSweep(c.held.Keys);
    assert TilesOf(c.held, j) == map[];
    var ns := SentTwice(ar, r, c, p, n + 2, out, i, j);
    var xs := AnswerSteps(r, scratch);
    var put := CountedTwice(ar, r, Go(ar, c, ns).server, n, out, scratch);
    AnswersPlain(r, scratch);
    GoOthers(ar, Go(ar, c, ns), xs);
    GoAppend(ar, c, ns, Others(xs));
    ms := ns + Others(xs);
  }

  /**
   If a connection closes while a sweep holds a tile homed there, assigned or not, the moves
   that follow can take two off the operation's count and write only that tile.
   */
  lemma {:induction false} HeldTileCountsTwice<T(!new)>(ar: Arith<T>, c: Crew<T>, x: Action<T>, i: nat, k: Key, e: int,
                                                        oid: nat, fill: T) returns (ms: seq<Move<T>>)
    requires Lawful(ar) && Caught(ar, c, x, i, k, e) && View(c.server.tracker)[k].oid == oid
             && CountOf(c.server, oid) >= 2
    ensures CountsTwo(c.server, Go(ar, c, [Other(x)] + ms).server, oid, k)
  {
    var r, scratch := RaceFor(ar, c, i, k, e, fill);
    RaceBegins(ar, r, c, x, i);
    var c0, n, out := Do(ar, c, Other(x)), CountOf(c.server, oid) - 2, c.server.outputs[oid];
    ms := RaceRuns(ar, r, c0, TilesOf(c.held, i)[k].record, n, out, i, scratch);
    GoOne(ar, c, Other(x));
    GoAppend(ar, c, [Other(x)], ms);
    TwiceOutside(ar, r, c.server, Go(ar, c0, ms).server, out);
  }

  /** With two tiles to go, the wait ends while a cell outside the held tile is still wrong. */
  lemma {:induction false} WaitEndsEarly<T(!new)>(ar: Arith<T>, c: Crew<T>, x: Action<T>, i: nat, k: Key, e: int,
                                                  oid: nat, fill: T, p: nat, a: nat, b: nat) returns (ms: seq<Move<T>>)
    requires Lawful(ar) && Caught(ar, c, x, i, k, e) && View(c.server.tracker)[k].oid == oid
             && CountOf(c.server, oid) == 2
    requires oid in c.server.ops && c.server.ops[oid].Ok() && oid in c.server.outputs
    requires var g := c.server.ops[oid].g;
             && g.Cell(p, a, b) && !Covers(g, TileOf(k), p, a, b) && Flat(g, p, a, b) < |c.server.outputs[oid]|
             && c.server.outputs[oid][Flat(g, p, a, b)]
                != Tiling.Entry(g, ar, c.server.ops[oid].a, c.server.ops[oid].b, p, a, b)
    ensures var s' := Go(ar, c, [Other(x)] + ms).server;
            && WaitOver(s', oid) && oid in s'.ops && oid in s'.outputs && s'.ops[oid] == c.server.ops[oid]
            && !IsProduct(s'.ops[oid].g, ar, s'.ops[oid].a, s'.ops[oid].b, s'.outputs[oid])
  {
    ms := HeldTileCountsTwice(ar, c, x, i, k, e, oid, fill);
    var s, s' := c.server, Go(ar, c, [Other(x)] + ms).server;
    assert s'.outputs[oid][Flat(s.ops[oid].g, p, a, b)] == s.outputs[oid][Flat(s.ops[oid].g, p, a, b)];
  }

  // --------------------------------------------------------------------------
  // Such states are reached
  // --------------------------------------------------------------------------

  function Connects<T>(): seq<Action<T>> {
    [Connect(0)] + [Connect(1)]
  }

  /** Two connections, a dispatch of two tiles, and its return. */
  function Opening<T>(op: Operation<T>, t0: Tile, t1: Tile, nan: T): seq<Action<T>> {
    Connects() + [Dispatch(op, [t0, t1], nan)] + ([AddTile(0)] + [AddTile(0)]) + [Return(0)]
  }

  lemma {:induction false} OpeningPlain<T>(op: Operation<T>, t0: Tile, t1: Tile, nan: T)
    ensures AllPlain(Opening(op, t0, t1, nan))
  {
  }

  lemma {:induction false} Connected<T(!new)>(ar: Arith<T>)
    ensures Exec(ar, Connects()) == Init<T>().(links := map[0 := multiset{}, 1 := multiset{}])
  {
    assert Agree(EMPTY);
    Takes(ar, Init(), Connect(0));
    var s1 := ExecFrom(ar, Init(), [Connect(0)]);
    assert s1 == Init<T>().(links := map[0 := multiset{}]);
    Takes(ar, s1, Connect(1));
    ExecAppend(ar, Init(), [Connect(0)], [Connect(1)]);
  }

  /** Two tiles dispatched and none tracked yet. */
  ghost predicate Dispatched<T(!new)>(s: Server<T>, op: Operation<T>, t0: Tile, t1: Tile, nan: T) {
    && s.ops == map[0 := op] && s.outputs == map[0 := Filled(op.g.CSize(), nan)] && s.links.Keys == {0, 1}
    && s.adding == map[0 := [t0, t1]] && s.counts == map[0 := 2] && s.tracker == EMPTY && s.handling == map[]
  }

  lemma {:induction false} Dispatches<T(!new)>(ar: Arith<T>, op: Operation<T>, t0: Tile, t1: Tile, nan: T)
    requires op.Ok() && op.tiles == {t0, t1} && t0 != t1
    ensures Dispatched(Exec(ar, Connects() + [Dispatch(op, [t0, t1], nan)]), op, t0, t1, nan)
  {
    Connected(ar);
    var s1, x := Exec(ar, Connects()), Dispatch(op, [t0, t1], nan);
    assert Shuffled(op.tiles, [t0, t1]);
    assert Agree(EMPTY);
    Takes(ar, s1, x);
    ExecAppend(ar, Init(), Connects(), [x]);
  }

  /** Track the first of the tiles that remain to be added. */
  lemma {:induction false} AddsFirst<T(!new)>(ar: Arith<T>, s: Server<T>)
    requires Agree(s.tracker) && 0 in s.ops && 0 in s.adding && s.adding[0] != []
    requires KeyOf(s.ops[0].version, s.adding[0][0]) !in s.tracker.byKey
    ensures var s' := ExecFrom(ar, s, [AddTile(0)]);
            && s' == s.(tracker := s'.tracker, adding := s.adding[0 := s.adding[0][1..]]) && Agree(s'.tracker)
            && View(s'.tracker) == View(s.tracker)[KeyOf(s.ops[0].version, s.adding[0][0]) := Entry(0, Idle, -1)]
  {
    Takes(ar, s, AddTile(0));
    AddView(s.tracker, -1, KeyOf(s.ops[0].version, s.adding[0][0]), 0, -1);
  }

  lemma {:induction false} AddsOnly<T(!new)>(ar: Arith<T>, s: Server<T>, t0: Tile, t1: Tile)
    requires s.tracker == EMPTY && 0 in s.ops && 0 in s.adding && s.adding[0] == [t0, t1]
    ensures var s' := ExecFrom(ar, s, [AddTile(0)]);
            && s' == s.(tracker := s'.tracker, adding := s.adding[0 := [t1]]) && Agree(s'.tracker)
            && View(s'.tracker) == map[KeyOf(s.ops[0].version, t0) := Entry(0, Idle, -1)]
  {
    assert Agree(EMPTY);
    AddsFirst(ar, s);
    assert [t0, t1][1..] == [t1];
  }

  lemma {:induction false} Adds<T(!new)>(ar: Arith<T>, s: Server<T>, t0: Tile, t1: Tile)
    requires s.tracker == EMPTY && 0 in s.ops && 0 in s.adding && s.adding[0] == [t0, t1] && t0 != t1
    ensures var s' := ExecFrom(ar, s, [AddTile(0)] + [AddTile(0)]);
            && s' == s.(tracker := s'.tracker, adding := s'.adding) && Agree(s'.tracker) && 0 in s'.adding
            && s'.adding[0] == []
            && KeyOf(s.ops[0].version, t0) in View(s'.tracker)
            && View(s'.tracker)[KeyOf(s.ops[0].version, t0)] == Entry(0, Idle, -1)
  {
    AddsOnly(ar, s, t0, t1);
    var s1 := ExecFrom(ar, s, [AddTile(0)]);
    assert KeyOf(s.ops[0].version, t1) !in View(s1.tracker);
    AddsFirst(ar, s1);
    ExecAppend(ar, s, [AddTile(0)], [AddTile(0)]);
  }

  /** The operation's id is returned, and tile t is idle and homed at no device. */
  ghost predicate Waiting<T(!new)>(s: Server<T>, op: Operation<T>, t: Tile, nan: T) {
    && s.ops == map[0 := op] && s.outputs == map[0 := Filled(op.g.CSize(), nan)] && s.links.Keys == {0, 1}
    && 0 in s.returned && s.counts == map[0 := 2] && s.handling == map[] && Agree(s.tracker)
    && KeyOf(op.version, t) in View(s.tracker) && View(s.tracker)[KeyOf(op.version, t)] == Entry(0, Idle, -1)
  }

  lemma {:induction false} Waits<T(!new)>(ar: Arith<T>, op: Operation<T>, t0: Tile, t1: Tile, nan: T)
    requires op.Ok() && op.tiles == {t0, t1} && t0 != t1
    ensures Waiting(Exec(ar, Opening(op, t0, t1, nan)), op, t0, nan)
  {
    var ys, zs := Connects() + [Dispatch(op, [t0, t1], nan)], [Action<T>.AddTile(0)] + [Action<T>.AddTile(0)];
    Dispatches(ar, op, t0, t1, nan);
    Adds(ar, Exec(ar, ys), t0, t1);
    ExecAppend(ar, Init(), ys, zs);
    Takes(ar, Exec(ar, ys + zs), Return(0));
    ExecAppend(ar, Init(), ys + zs, [Return(0)]);
  }

  /** Sweep 0 holds tile t of the returned operation, which has two tiles to go and nothing written. */
  ghost predicate Midway<T(!new)>(c: Crew<T>, op: Operation<T>, t: Tile, nan: T, home: int) {
    var s, k := c.server, KeyOf(op.version, t);
    && s.ops == map[0 := op] && s.outputs == map[0 := Filled(op.g.CSize(), nan)] && s.links.Keys == {0, 1}
    && 0 in s.returned && s.counts == map[0 := 2] && s.handling == map[]
    && k in TilesOf(c.held, 0) && k in View(s.tracker) && View(s.tracker)[k].oid == 0 && View(s.tracker)[k].home == home
  }

  lemma {:induction false} BeginsMidway<T(!new)>(ar: Arith<T>, s: Server<T>, op: Operation<T>, t: Tile, nan: T)
    requires Waiting(s, op, t, nan)
    ensures var c := Go(ar, Crew(s, map[]), [Begin(0)]);
            && Midway(c, op, t, nan, -1) && HoldsAt(c.held, 0, KeyOf(op.version, t), ToAssign)
               && Agree(c.server.tracker)
  {
    GoOne(ar, Crew(s, map[]), Begin(0));
    AgreeIsWf(s.tracker);
    ClaimView(s.tracker);
    assert Do(ar, Crew(s, map[]), Begin(0)) == Begun(Crew(s, map[]), 0);
    assert KeyOf(op.version, t) in IdleKeys(View(s.tracker));
  }

  lemma {:induction false} ChoosesMidway<T(!new)>(ar: Arith<T>, c: Crew<T>, op: Operation<T>, t: Tile, nan: T)
    requires Midway(c, op, t, nan, -1) && HoldsAt(c.held, 0, KeyOf(op.version, t), ToAssign) && Agree(c.server.tracker)
    ensures var c' := Go(ar, c, [Choose(0, KeyOf(op.version, t), 1)]);
            Midway(c', op, t, nan, 1) && HoldsAt(c'.held, 0, KeyOf(op.version, t), ToForward)
  {
    var k := KeyOf(op.version, t);
    GoOne(ar, c, Choose(0, k, 1));
    AgreeIsWf(c.server.tracker);
    DoChoose(ar, c, 0, k, 1);
    ChosenMidway(c, op, t, nan);
  }

  lemma {:induction false} ChosenMidway<T(!new)>(c: Crew<T>, op: Operation<T>, t: Tile, nan: T)
    requires Midway(c, op, t, nan, -1) && Agree(c.server.tracker) && Wf(c.server.tracker)
    ensures var c' := Chosen(c, 0, KeyOf(op.version, t), 1);
            Midway(c', op, t, nan, 1) && HoldsAt(c'.held, 0, KeyOf(op.version, t), ToForward)
  {
    ReassignView(c.server.tracker, KeyOf(op.version, t), 1);
  }

  ghost predicate Calm<T>(m: Move<T>) {
    m.Other? ==> !m.x.Close? && !m.x.CloseUnregistered?
  }

  /** A run in which nothing closes is guarded. */
  lemma {:induction false} CalmIsGuarded<T>(ar: Arith<T>, ms: seq<Move<T>>)
    requires forall i | 0 <= i < |ms| :: Calm(ms[i])
    ensures GuardedRun(ar, ms)
    decreases |ms|
  {
    if ms != [] {
      CalmIsGuarded(ar, ms[..|ms| - 1]);
      assert Calm(ms[|ms| - 1]);
    }
  }

  /** The tile is assigned to device 1, or not assigned yet. */
  function Prelude<T>(k: Key, placed: bool): seq<Move<T>> {
    [Begin(0)] + (if placed then [Choose(0, k, 1)] else [])
  }

  lemma {:induction false} ReachMidway<T(!new)>(ar: Arith<T>, op: Operation<T>, t0: Tile, t1: Tile, nan: T,
                                                placed: bool)
    returns (ms: seq<Move<T>>)
    requires Lawful(ar) && op.Ok() && op.tiles == {t0, t1} && t0 != t1
    ensures GuardedRun(ar, ms) && CrewInv(ar, Go(ar, Start(), ms))
    ensures Midway(Go(ar, Start(), ms), op, t0, nan, if placed then 1 else -1)
    ensures HoldsAt(Go(ar, Start(), ms).held, 0, KeyOf(op.version, t0), if placed then ToForward else ToAssign)
  {
    var xs := Opening(op, t0, t1, nan);
    Waits(ar, op, t0, t1, nan);
    OpeningPlain(op, t0, t1, nan);
    var k := KeyOf(op.version, t0);
    ms := Others(xs) + Prelude(k, placed);
    CalmIsGuarded(ar, ms);
    var ys := RunSimulates(ar, ms);
    GoOthers(ar, Start(), xs);
    GoAppend(ar, Start(), Others(xs), Prelude(k, placed));
    PreludeMidway(ar, Exec(ar, xs), op, t0, nan, placed);
  }

  lemma {:induction false} PreludeMidway<T(!new)>(ar: Arith<T>, s: Server<T>, op: Operation<T>, t: Tile, nan: T,
                                                  placed: bool)
    requires Waiting(s, op, t, nan)
    ensures var c := Go(ar, Crew(s, map[]), Prelude(KeyOf(op.version, t), placed));
            && Midway(c, op, t, nan, if placed then 1 else -1)
            && HoldsAt(c.held, 0, KeyOf(op.version, t), if placed then ToForward else ToAssign)
  {
    var c, k := Crew(s, map[]), KeyOf(op.version, t);
    BeginsMidway(ar, s, op, t, nan);
    if placed {
      ChoosesMidway(ar, Go(ar, c, [Begin(0)]), op, t, nan);
      GoAppend(ar, c, [Begin(0)], [Choose(0, k, 1)]);
    } else {
      assert Prelude<T>(k, placed) == [Begin(0)];
    }
  }

  lemma {:induction false} StillBlank<T(!new)>(c: Crew<T>, op: Operation<T>, t: Tile, nan: T, home: int, p: nat,
                                               a: nat, b: nat)
    requires Midway(c, op, t, nan, home) && op.g.Cell(p, a, b)
    ensures Flat(op.g, p, a, b) < |c.server.outputs[0]| && c.server.outputs[0][Flat(op.g, p, a, b)] == nan
  {
    FlatBound(op.g, p, a, b);
  }

  /** The connection that closes. */
  function Closing<T>(placed: bool): Action<T> {
    if placed then Close(1) else CloseUnregistered
  }

  lemma {:induction false} MidwayCaught<T(!new)>(ar: Arith<T>, c: Crew<T>, op: Operation<T>, t: Tile, nan: T,
                                                 placed: bool)
    requires CrewInv(ar, c) && Midway(c, op, t, nan, if placed then 1 else -1)
    ensures Caught(ar, c, Closing(placed), 0, KeyOf(op.version, t), 0) && CountOf(c.server, 0) == 2
  {
    CanClose(ar, c, placed);
    CaughtAt(ar, c, Closing(placed), 0, KeyOf(op.version, t), 0);
  }

  lemma {:induction false} CanClose<T>(ar: Arith<T>, c: Crew<T>, placed: bool)
    requires c.server.links.Keys == {0, 1} && c.server.handling == map[]
    ensures CanMove(ar, c, Other(Closing(placed)))
  {
  }

  lemma {:induction false} CaughtAt<T(!new)>(ar: Arith<T>, c: Crew<T>, x: Action<T>, i: nat, k: Key, e: int)
    requires CrewInv(ar, c) && (x.Close? || x.CloseUnregistered?) && CanMove(ar, c, Other(x))
    requires k in TilesOf(c.held, i) && k in View(c.server.tracker) && View(c.server.tracker)[k].home == Gone(x)
    requires e in c.server.links && e != Gone(x)
    ensures Caught(ar, c, x, i, k, e)
  {
  }

  lemma {:induction false} FailsFrom<T(!new)>(ar: Arith<T>, c: Crew<T>, op: Operation<T>, t: Tile, nan: T, placed: bool,
                                              p: nat, a: nat, b: nat) returns (ms: seq<Move<T>>)
    requires Lawful(ar) && CrewInv(ar, c) && Midway(c, op, t, nan, if placed then 1 else -1)
    requires op.Ok() && op.g.Cell(p, a, b) && !Covers(op.g, t, p, a, b)
             && Tiling.Entry(op.g, ar, op.a, op.b, p, a, b) != nan
    ensures var s' := Go(ar, c, [Other(Closing(placed))] + ms).server;
            && WaitOver(s', 0) && 0 in s'.ops && 0 in s'.outputs && s'.ops[0] == op
            && !IsProduct(op.g, ar, op.a, op.b, s'.outputs[0])
  {
    StillBlank(c, op, t, nan, if placed then 1 else -1, p, a, b);
    var k := KeyOf(op.version, t);
    assert TileOf(k) == t && c.server.ops[0] == op;
    MidwayCaught(ar, c, op, t, nan, placed);
    ms := WaitEndsEarly(ar, c, Closing(placed), 0, k, 0, 0, nan, p, a, b);
  }

  /**
   Without the guard on closes the promise fails, for an assigned tile as for one that is not:
   for every operation of two tiles there is a guarded run to a state in which a sweep holds
   the tile at that stage, then the close, then further moves, after which the wait on the
   returned operation is over and its output is not the product.
   */
  lemma {:induction false} OverlappingCloseFails<T(!new)>(ar: Arith<T>, op: Operation<T>, t0: Tile, t1: Tile, nan: T,
                                                          placed: bool, p: nat, a: nat, b: nat)
    returns (before: seq<Move<T>>, after: seq<Move<T>>)
    requires Lawful(ar) && op.Ok() && op.tiles == {t0, t1} && t0 != t1
    requires op.g.Cell(p, a, b) && !Covers(op.g, t0, p, a, b) && Tiling.Entry(op.g, ar, op.a, op.b, p, a, b) != nan
    ensures GuardedRun(ar, before)
    ensures var c := Go(ar, Start(), before);
            HoldsAt(c.held, 0, KeyOf(op.version, t0), if placed then ToForward else ToAssign) && 0 in c.server.returned
    ensures var s' := Go(ar, Go(ar, Start(), before), [Other(Closing(placed))] + after).server;
            && WaitOver(s', 0) && 0 in s'.ops && 0 in s'.outputs && s'.ops[0] == op
            && !IsProduct(op.g, ar, op.a, op.b, s'.outputs[0])
  {
    before := ReachMidway(ar, op, t0, t1, nan, placed);
    after := FailsFrom(ar, Go(ar, Start(), before), op, t0, nan, placed, p, a, b);
  }

  /** There are such operations: a row times the transpose of two rows, one tile for each entry. */
  lemma {:induction false} TwoTileOperation<T>(a: seq<T>, b: seq<T>, t0: Tile, t1: Tile) returns (op: Operation<T>)
    requires |a| == 1 && |b| == 2 && t0 == Tile(0, 0, 0) && t1 == Tile(0, 0, 1)
    ensures op.Ok() && op.a == a && op.b == b && op.tiles == {t0, t1}
    ensures op.g.Cell(0, 0, 1) && !Covers(op.g, t0, 0, 0, 1)
  {
    op := Operation(0, Geometry(1, 1, 2, 1, 1, true), a, b, {t0, t1});
    assert Times(1, 1) == 1 && Times(1, 2) == 2 && Times(2, 1) == 2;
    assert BlockCount(1, 1) == 1 && BlockCount(2, 1) == 2;
    forall t
      ensures t in op.tiles <==> Legal(op.g, t)
    {
      assert Legal(op.g, t) <==> t == t0 || t == t1;
    }
  }

  // --------------------------------------------------------------------------
  // Tiles given back before any other sweep claims them
  // --------------------------------------------------------------------------

  /** Gives the tiles back one after the other. */
  ghost function ReleaseAll<T>(s: Server<T>, ks: seq<Key>): Server<T> {
    if ks == [] then s
    else
      var s1 := ReleaseAll(s, ks[..|ks| - 1]);
      if Wf(s1.tracker) then DoRelease(s1, ks[|ks| - 1]) else s1
  }

  function AllIdle(v: map<Key, Entry>, ks: seq<Key>): map<Key, Entry> {
    map k | k in v :: if k in ks then v[k].(state := Idle) else v[k]
  }

  lemma {:induction false} AllIdleNext(v: map<Key, Entry>, ks: seq<Key>)
    requires ks != [] && ks[|ks| - 1] in v
    ensures var n := |ks| - 1;
            var u := AllIdle(v, ks[..n]);
            AllIdle(v, ks) == u[ks[n] := u[ks[n]].(state := Idle)]
  {
    assert ks == ks[..|ks| - 1] + [ks[|ks| - 1]];
  }

  lemma {:induction false} ReleasedView<T>(s: Server<T>, ks: seq<Key>)
    requires Agree(s.tracker) && forall i | 0 <= i < |ks| :: ks[i] in s.tracker.byKey
    ensures Agree(ReleaseAll(s, ks).tracker) && View(ReleaseAll(s, ks).tracker) == AllIdle(View(s.tracker), ks)
  {
    if ks != [] {
      var n := |ks| - 1;
      var s1 := ReleaseAll(s, ks[..n]);
      ReleasedView(s, ks[..n]);
      assert ks[n] in View(s1.tracker);
      AllIdleNext(View(s.tracker), ks);
      MarkView(s1.tracker, ks[n], Idle);
    }
  }

  /** Without the tiles of ks. */
  function Left(limbo: set<Key>, ks: seq<Key>): set<Key> {
    set k | k in limbo && k !in ks
  }

  lemma {:induction false} LeftNext(limbo: set<Key>, ks: seq<Key>)
    requires ks != []
    ensures Left(limbo, ks) == Left(limbo, ks[..|ks| - 1]) - {ks[|ks| - 1]}
    ensures NoRepeat(ks) && ks[|ks| - 1] in limbo ==> ks[|ks| - 1] in Left(limbo, ks[..|ks| - 1])
  {
    assert ks == ks[..|ks| - 1] + [ks[|ks| - 1]];
  }

  lemma {:induction false} ReleasedRest<T>(s: Server<T>, ks: seq<Key>)
    requires Agree(s.tracker) && forall i | 0 <= i < |ks| :: ks[i] in s.tracker.byKey
    ensures var s' := ReleaseAll(s, ks); s' == s.(tracker := s'.tracker, limbo := Left(s.limbo, ks))
  {
    if ks == [] {
      assert Left(s.limbo, ks) == s.limbo;
    } else {
      var n := |ks| - 1;
      ReleasedRest(s, ks[..n]);
      ReleasedView(s, ks[..n]);
      AgreeIsWf(ReleaseAll(s, ks[..n]).tracker);
      LeftNext(s.limbo, ks);
    }
  }

  /** Claimed tiles, each listed once. */
  ghost predicate HeldAll<T>(s: Server<T>, ks: seq<Key>) {
    NoRepeat(ks) && forall i | 0 <= i < |ks| :: ks[i] in s.limbo && ks[i] in s.tracker.byKey
  }

  lemma {:induction false} HeldFront<T>(s: Server<T>, ks: seq<Key>)
    requires HeldAll(s, ks) && ks != []
    ensures HeldAll(s, ks[..|ks| - 1])
  {
  }

  lemma {:induction false} ReleasedNext<T>(s: Server<T>, ks: seq<Key>)
    requires Agree(s.tracker) && HeldAll(s, ks) && ks != []
    ensures var s1 := ReleaseAll(s, ks[..|ks| - 1]);
            Wf(s1.tracker) && ks[|ks| - 1] in s1.limbo && ReleaseAll(s, ks) == DoRelease(s1, ks[|ks| - 1])
  {
    ReleasedView(s, ks[..|ks| - 1]);
    ReleasedRest(s, ks[..|ks| - 1]);
    AgreeIsWf(ReleaseAll(s, ks[..|ks| - 1]).tracker);
    LeftNext(s.limbo, ks);
  }

  lemma {:induction false} ReleasedInv<T(!new)>(ar: Arith<T>, s: Server<T>, ks: seq<Key>)
    requires Inv(ar, s) && HeldAll(s, ks)
    ensures Inv(ar, ReleaseAll(s, ks))
  {
    if ks != [] {
      HeldFront(s, ks);
      ReleasedInv(ar, s, ks[..|ks| - 1]);
      ReleasedNext(s, ks);
      ReleaseInv(ar, ReleaseAll(s, ks[..|ks| - 1]), ks[|ks| - 1]);
    }
  }

  lemma {:induction false} IdleThenFailed(v: map<Key, Entry>, ks: seq<Key>, d: int)
    requires forall i | 0 <= i < |ks| :: ks[i] in v
    ensures AllIdle(FailedView(v, d), ks) == FailedView(AllIdle(v, ks), d)
  {
  }

  /** The tiles held when the connection of d closes are given back: where that leads, seen in either order. */
  lemma {:induction false} EitherWay<T>(s: Server<T>, d: int, ks: seq<Key>)
    requires Agree(s.tracker) && forall i | 0 <= i < |ks| :: ks[i] in s.tracker.byKey
    ensures var after, before := ReleaseAll(DoClose(s, d), ks), DoClose(ReleaseAll(s, ks), d);
            && Agree(after.tracker) && View(after.tracker) == View(before.tracker)
            && after == before.(tracker := after.tracker)
  {
    FailedDeviceAgrees(s.tracker, d);
    FailedDeviceView(s.tracker, d);
    ReleasedView(DoClose(s, d), ks);
    ReleasedRest(DoClose(s, d), ks);
    ReleasedView(s, ks);
    ReleasedRest(s, ks);
    FailedDeviceView(ReleaseAll(s, ks).tracker, d);
    IdleThenFailed(View(s.tracker), ks, d);
  }

  /**
   If the tiles homed at a closing device are given back before anything else happens, the
   invariant is restored.  Nothing in the code makes the sweeps do so: once another sweep has
   claimed such a tile, it is counted twice as above.
   */
  lemma {:induction false} GivenBackAfterClose<T(!new)>(ar: Arith<T>, s: Server<T>, d: int, ks: seq<Key>)
    requires Inv(ar, s) && d in s.links && NoneWrittenFrom(s.handling, d)
    requires NoRepeat(ks) && forall i | 0 <= i < |ks| :: ks[i] in s.limbo
    requires forall k | k in s.limbo && k in View(s.tracker) && View(s.tracker)[k].home == d :: k in ks
    ensures Inv(ar, ReleaseAll(DoClose(s, d), ks))
  {
    forall i | 0 <= i < |ks|
      ensures ks[i] in s.tracker.byKey
    {
      HeldIsViewed(ar, s, ks[i]);
    }
    ReleasedInv(ar, s, ks);
    ReleasedRest(s, ks);
    ReleasedView(s, ks);
    var s1 := ReleaseAll(s, ks);
    CloseInv(ar, s1, d);
    EitherWay(s, d, ks);
    SameViewCore(MeaningOf(ar), DoClose(s1, d), ReleaseAll(DoClose(s, d), ks), View(DoClose(s1, d).tracker));
  }
}
