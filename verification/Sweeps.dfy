/**
 Sweeps as the event loops run them, several at a time.  Each sweep holds the tiles it has
 claimed, first to be assigned and then to be forwarded, as pointers to the tracker's records.
 */
module Sweeps {
  import opened Tiling
  import opened Keys
  import opened Tracker
  import opened TrackerLaws
  import opened TrackerView
  import TrackerRuns
  import opened Protocol
  import opened ProtocolInvariant
  import opened ProtocolRuns
  import opened ProxySweep
  import opened Progress

  datatype Stage = ToAssign | ToForward

  /** A tile in a sweep's hands. */
  datatype Hold = Hold(record: nat, stage: Stage)

  type Held = map<nat, map<Key, Hold>>

  datatype Crew<T(==)> = Crew(server: Server<T>, held: Held)

  function TilesOf(held: Held, i: nat): map<Key, Hold> {
    if i in held then held[i] else map[]
  }

  function InHand(held: Held): set<Key> {
    set i, k | i in held && k in held[i] :: k
  }

  /** A sweep's steps: claim, the first loop's two branches, one turn of the second loop; and everything else. */
  datatype Move<T> =
    | Begin(i: nat)
    | Choose(i: nat, k: Key, target: int)
    | PassOver(i: nat, k: Key)
    | Forward(i: nat, k: Key)
    | Other(x: Action<T>)

  predicate IsSweep<T>(x: Action<T>) {
    x.ClaimIdle? || x.Assign? || x.Send? || x.Release?
  }

  /**
   A connection may close whatever the sweeps hold.  It does not close inside the handler of
   its own reply, because both run on the connection's loop.
   */
  ghost predicate Happens<T>(ar: Arith<T>, s: Server<T>, x: Action<T>) {
    match x
    case Close(d) => d in s.links && NoneWrittenFrom(s.handling, d)
    case CloseUnregistered => true
    case _ => Enabled(ar, s, x)
  }

  predicate HoldsAt(held: Held, i: nat, k: Key, stage: Stage) {
    k in TilesOf(held, i) && TilesOf(held, i)[k].stage == stage
  }

  ghost predicate AllAssigned(tiles: map<Key, Hold>) {
    forall k | k in tiles :: tiles[k].stage == ToForward
  }

  ghost predicate CanMove<T>(ar: Arith<T>, c: Crew<T>, m: Move<T>) {
    match m
    case Begin(i) => TilesOf(c.held, i) == map[]
    case Choose(i, k, _) => HoldsAt(c.held, i, k, ToAssign)
    case PassOver(i, k) => HoldsAt(c.held, i, k, ToAssign)
    case Forward(i, k) => HoldsAt(c.held, i, k, ToForward) && AllAssigned(TilesOf(c.held, i))
    case Other(x) => !IsSweep(x) && Happens(ar, c.server, x)
  }

  function SetStage(held: Held, i: nat, k: Key, stage: Stage): Held
    requires k in TilesOf(held, i)
  {
    held[i := TilesOf(held, i)[k := TilesOf(held, i)[k].(stage := stage)]]
  }

  function LetGo(held: Held, i: nat, k: Key): Held {
    held[i := TilesOf(held, i) - {k}]
  }

  function ClaimedTiles(t: Tracker): map<Key, Hold> {
    map k | k in t.byKey && k in IdleKeys(View(t)) :: Hold(t.byKey[k], ToAssign)
  }

  function With<T(==)>(s: Server<T>, held: Held): Crew<T> {
    Crew(s.(limbo := InHand(held)), held)
  }

  /** Whom a record names as its owner at this moment. */
  function OwnerOf(t: Tracker, record: nat): int {
    if record < |t.heap| then t.heap[record].owner else -1
  }

  /** A request for tile k on the link of d. */
  ghost function Posted<T>(s: Server<T>, k: Key, oid: int, d: int): Server<T>
    requires d in s.links
  {
    if Belongs(s, oid, k) && s.ops[oid].Ok()
    then s.(links := s.links[d := s.links[d] + multiset{RequestFor(s, k, oid)}])
    else s
  }

  /** The second loop reads the owner off the shared record, then sends or gives back. */
  ghost function Forwarded<T>(c: Crew<T>, i: nat, k: Key): Crew<T>
    requires Wf(c.server.tracker) && k in TilesOf(c.held, i)
  {
    var t, p := c.server.tracker, TilesOf(c.held, i)[k].record;
    var owner := OwnerOf(t, p);
    if owner in c.server.links && p < |t.heap|
    then With(Posted(c.server, k, t.heap[p].oid, owner), LetGo(c.held, i, k))
    else GivenBack(c, i, k)
  }

  function Begun<T(==)>(c: Crew<T>, i: nat): Crew<T> {
    With(c.server.(tracker := Claim(c.server.tracker)), c.held[i := ClaimedTiles(c.server.tracker)])
  }

  function Chosen<T(==)>(c: Crew<T>, i: nat, k: Key, target: int): Crew<T>
    requires Wf(c.server.tracker) && k in TilesOf(c.held, i)
  {
    var t := c.server.tracker;
    With(c.server.(tracker := Reassign(t, k, target).0),
         if k in t.byKey then SetStage(c.held, i, k, ToForward) else LetGo(c.held, i, k))
  }

  function GivenBack<T(==)>(c: Crew<T>, i: nat, k: Key): Crew<T>
    requires Wf(c.server.tracker)
  {
    With(c.server.(tracker := Mark(c.server.tracker, k, Idle)), LetGo(c.held, i, k))
  }

  ghost function Moved<T>(ar: Arith<T>, c: Crew<T>, m: Move<T>): Crew<T>
    requires Wf(c.server.tracker) && CanMove(ar, c, m)
  {
    match m
    case Begin(i) => Begun(c, i)
    case Choose(i, k, target) => Chosen(c, i, k, target)
    case PassOver(i, k) => GivenBack(c, i, k)
    case Forward(i, k) => Forwarded(c, i, k)
    case Other(x) => Crew(Next(c.server, x), c.held)
  }

  ghost function Do<T>(ar: Arith<T>, c: Crew<T>, m: Move<T>): Crew<T> {
    if Wf(c.server.tracker) && CanMove(ar, c, m) then Moved(ar, c, m) else c
  }

  ghost function Go<T>(ar: Arith<T>, c: Crew<T>, ms: seq<Move<T>>): Crew<T>
    decreases |ms|
  {
    if ms == [] then c else Do(ar, Go(ar, c, ms[..|ms| - 1]), ms[|ms| - 1])
  }

  function Start<T(==)>(): Crew<T> {
    Crew(Init(), map[])
  }

  // --------------------------------------------------------------------------
  // Guarded runs
  // --------------------------------------------------------------------------

  /** No connection closes while some sweep holds a tile homed there. */
  ghost predicate Guarded<T>(c: Crew<T>, m: Move<T>) {
    var v := View(c.server.tracker);
    && (m.Other? && m.x.Close? ==> NoneClaimedAt(c.server.limbo, v, m.x.d))
    && (m.Other? && m.x.CloseUnregistered? ==> NoneClaimedAt(c.server.limbo, v, -1))
  }

  ghost predicate GuardedRun<T>(ar: Arith<T>, ms: seq<Move<T>>)
    decreases |ms|
  {
    ms == [] || (GuardedRun(ar, ms[..|ms| - 1]) && Guarded(Go(ar, Start(), ms[..|ms| - 1]), ms[|ms| - 1]))
  }

  /** A held tile is tracked under its record, which names its home once it is assigned. */
  ghost predicate HoldOk(t: Tracker, k: Key, h: Hold) {
    && k in t.byKey && k in t.home && t.byKey[k] == h.record < |t.heap|
    && (h.stage == ToForward ==> t.heap[h.record].owner == t.home[k])
  }

  ghost predicate HoldsOk(t: Tracker, held: Held) {
    forall i, k | i in held && k in held[i] :: HoldOk(t, k, held[i][k])
  }

  /** No two sweeps hold the same tile. */
  ghost predicate HandsApart(held: Held) {
    forall i, j, k | i in held && j in held && k in held[i] && k in held[j] :: i == j
  }

  ghost predicate CrewInv<T(!new)>(ar: Arith<T>, c: Crew<T>) {
    && Inv(ar, c.server) && c.server.limbo == InHand(c.held)
    && HoldsOk(c.server.tracker, c.held) && HandsApart(c.held)
  }

  /** The forwarded tile finds its owner connected. */
  predicate Reaches<T(==)>(c: Crew<T>, i: nat, k: Key) {
    k in TilesOf(c.held, i) && OwnerOf(c.server.tracker, TilesOf(c.held, i)[k].record) in c.server.links
  }

  /** The protocol step that a move takes. */
  ghost function Erased<T>(c: Crew<T>, m: Move<T>): Action<T> {
    match m
    case Begin(i) => ClaimIdle
    case Choose(i, k, target) => Assign(k, target)
    case PassOver(i, k) => Release(k)
    case Forward(i, k) => if Reaches(c, i, k) then Send(k) else Release(k)
    case Other(x) => x
  }

  // Hands

  lemma {:induction false} HandsBegin(held: Held, i: nat, tiles: map<Key, Hold>)
    requires TilesOf(held, i) == map[] && HandsApart(held) && tiles.Keys !! InHand(held)
    ensures InHand(held[i := tiles]) == InHand(held) + tiles.Keys && HandsApart(held[i := tiles])
  {
    var held' := held[i := tiles];
    forall k
      ensures k in InHand(held') <==> k in InHand(held) + tiles.Keys
    {
      if k in tiles {
        assert i in held' && k in held'[i];
      } else if k in InHand(held) {
        var j :| j in held && k in held[j];
        assert j in held' && k in held'[j];
      }
    }
    forall a, b, k | a in held' && b in held' && k in held'[a] && k in held'[b]
      ensures a == b
    {
      assert a != i ==> k in InHand(held);
      assert b != i ==> k in InHand(held);
    }
  }

  lemma {:induction false} HandsStage(held: Held, i: nat, k: Key, stage: Stage)
    requires k in TilesOf(held, i) && HandsApart(held)
    ensures InHand(SetStage(held, i, k, stage)) == InHand(held) && HandsApart(SetStage(held, i, k, stage))
  {
    var held' := SetStage(held, i, k, stage);
    assert held'.Keys == held.Keys && forall j | j in held :: held'[j].Keys == held[j].Keys;
  }

  lemma {:induction false} HandsLess(held: Held, i: nat, k: Key)
    requires k in TilesOf(held, i) && HandsApart(held)
    ensures InHand(LetGo(held, i, k)) == InHand(held) - {k} && HandsApart(LetGo(held, i, k))
  {
    var held' := LetGo(held, i, k);
    assert held'.Keys == held.Keys;
    forall k'
      ensures k' in InHand(held') <==> k' in InHand(held) - {k}
    {
      if k' in InHand(held) && k' != k {
        var j :| j in held && k' in held[j];
        assert j in held' && k' in held'[j];
      }
    }
  }

  // Records

  /** The tracker has the same record for k, with the same owner and the same home. */
  ghost predicate SameRecord(t: Tracker, u: Tracker, k: Key) {
    && k in t.byKey && k in t.home && t.byKey[k] < |t.heap|
    && k in u.byKey && k in u.home && u.byKey[k] == t.byKey[k] < |u.heap|
    && u.heap[u.byKey[k]].owner == t.heap[t.byKey[k]].owner && u.home[k] == t.home[k]
  }

  lemma {:induction false} SameHolds(t: Tracker, u: Tracker, held: Held)
    requires HoldsOk(t, held) && forall k | k in InHand(held) :: SameRecord(t, u, k)
    ensures HoldsOk(u, held)
  {
    forall i, k | i in held && k in held[i]
      ensures HoldOk(u, k, held[i][k])
    {
      assert HoldOk(t, k, held[i][k]) && k in InHand(held);
    }
  }

  lemma {:induction false} FewerHolds(t: Tracker, held: Held, i: nat, k: Key)
    requires HoldsOk(t, held)
    ensures HoldsOk(t, LetGo(held, i, k))
  {
    var held' := LetGo(held, i, k);
    forall j, k' | j in held' && k' in held'[j]
      ensures HoldOk(t, k', held'[j][k'])
    {
      assert j in held && k' in held[j];
    }
  }

  lemma {:induction false} ClaimSame(t: Tracker, k: Key)
    requires Agree(t) && k in t.byKey
    ensures SameRecord(t, Claim(t), k)
  {
    assert KeyAgrees(t, k);
  }

  lemma {:induction false} MarkSame(t: Tracker, k': Key, st: PartitionState, k: Key)
    requires Agree(t) && k in t.byKey
    ensures Wf(t) && SameRecord(t, Mark(t, k', st), k)
  {
    AgreeIsWf(t);
    assert KeyAgrees(t, k);
  }

  lemma {:induction false} ReassignSame(t: Tracker, k': Key, target: int, k: Key)
    requires Agree(t) && k in t.byKey && k != k'
    ensures Wf(t) && SameRecord(t, Reassign(t, k', target).0, k)
  {
    AgreeIsWf(t);
    assert KeyAgrees(t, k);
    if k' in t.byKey {
      assert KeyAgrees(t, k');
    }
  }

  lemma {:induction false} AddSame(t: Tracker, d: int, k': Key, oid: int, k: Key)
    requires Agree(t) && k in t.byKey && k' !in t.byKey
    ensures SameRecord(t, Add(t, d, k', oid, d), k)
  {
    assert KeyAgrees(t, k);
  }

  lemma {:induction false} RetireSame(t: Tracker, k': Key, k: Key)
    requires Agree(t) && k in t.byKey && k != k'
    ensures Wf(t) && SameRecord(t, RemoveByKey(Mark(t, k', PartitionState.Finished), k'), k)
  {
    MarkAgrees(t, k', PartitionState.Finished);
    var u := Mark(t, k', PartitionState.Finished);
    MarkSame(t, k', PartitionState.Finished, k);
    RemoveByKeyAgrees(u, k');
  }

  lemma {:induction false} FailedSame(t: Tracker, d: int, k: Key)
    requires Agree(t) && k in t.byKey && k in t.home && t.home[k] != d
    ensures SameRecord(t, MarkDeviceFailed(t, d), k)
  {
    TrackerRuns.FailedTouchesOwn(t, d, k);
  }

  // --------------------------------------------------------------------------
  // A guarded move is a step of the protocol
  // --------------------------------------------------------------------------

  /** What a move keeps, and the step it takes. */
  ghost predicate Simulates<T(!new)>(ar: Arith<T>, c: Crew<T>, m: Move<T>, c': Crew<T>) {
    StepOf(ar, c.server, Erased(c, m), c'.server) && CrewInv(ar, c')
  }

  ghost predicate StepOf<T>(ar: Arith<T>, s: Server<T>, x: Action<T>, s': Server<T>) {
    Wf(s.tracker) && Enabled(ar, s, x) && s' == Next(s, x)
  }

  lemma {:induction false} StepOfClaim<T>(ar: Arith<T>, s: Server<T>)
    requires Wf(s.tracker)
    ensures StepOf(ar, s, ClaimIdle, DoClaim(s))
  {
  }

  lemma {:induction false} StepOfAssign<T>(ar: Arith<T>, s: Server<T>, k: Key, target: int)
    requires Wf(s.tracker) && k in s.limbo
    ensures StepOf(ar, s, Assign(k, target), DoAssign(s, k, target))
  {
  }

  lemma {:induction false} StepOfRelease<T>(ar: Arith<T>, s: Server<T>, k: Key)
    requires Wf(s.tracker) && k in s.limbo
    ensures StepOf(ar, s, Release(k), DoRelease(s, k))
  {
  }

  lemma {:induction false} StepOfSend<T>(ar: Arith<T>, s: Server<T>, k: Key)
    requires Wf(s.tracker) && Enabled(ar, s, Send(k))
    ensures StepOf(ar, s, Send(k), DoSend(s, k))
  {
  }

  lemma {:induction false} HeldTracked<T(!new)>(ar: Arith<T>, c: Crew<T>, i: nat, k: Key)
    requires CrewInv(ar, c) && k in TilesOf(c.held, i)
    ensures Agree(c.server.tracker) && Wf(c.server.tracker) && k in c.server.limbo
    ensures HoldOk(c.server.tracker, k, TilesOf(c.held, i)[k]) && k in View(c.server.tracker)
  {
    AgreeIsWf(c.server.tracker);
    assert i in c.held && k in c.held[i];
    assert HoldOk(c.server.tracker, k, c.held[i][k]);
  }

  lemma {:induction false} HandsTracked<T(!new)>(ar: Arith<T>, c: Crew<T>, k: Key)
    requires CrewInv(ar, c) && k in InHand(c.held)
    ensures Agree(c.server.tracker) && k in c.server.tracker.byKey && k in c.server.tracker.home
  {
    var i :| i in c.held && k in c.held[i];
    assert HoldOk(c.server.tracker, k, c.held[i][k]);
  }

  lemma {:induction false} NewHolds(t: Tracker, held: Held, i: nat)
    requires Agree(t) && HoldsOk(t, held)
    ensures HoldsOk(Claim(t), held[i := ClaimedTiles(t)])
  {
    var held' := held[i := ClaimedTiles(t)];
    forall j, k | j in held' && k in held'[j]
      ensures HoldOk(Claim(t), k, held'[j][k])
    {
      assert j != i ==> HoldOk(t, k, held[j][k]);
      ClaimSame(t, k);
    }
  }

  lemma {:induction false} ClaimedTileKeys(t: Tracker)
    ensures ClaimedTiles(t).Keys == IdleKeys(View(t))
  {
  }

  lemma {:induction false} BeginSimulates<T(!new)>(ar: Arith<T>, c: Crew<T>, i: nat)
    requires CrewInv(ar, c) && TilesOf(c.held, i) == map[]
    ensures StepOf(ar, c.server, ClaimIdle, Begun(c, i).server) && CrewInv(ar, Begun(c, i))
  {
    var t := c.server.tracker;
    AgreeIsWf(t);
    ClaimInv(ar, c.server);
    NoneIdleHeld(ar, c.server);
    ClaimedTileKeys(t);
    HandsBegin(c.held, i, ClaimedTiles(t));
    NewHolds(t, c.held, i);
    StepOfClaim(ar, c.server);
    assert Begun(c, i).server == DoClaim(c.server);
  }

  lemma {:induction false} ChosenHolds(t: Tracker, held: Held, i: nat, k: Key, target: int)
    requires Agree(t) && HoldsOk(t, held) && HandsApart(held) && k in TilesOf(held, i)
    ensures Wf(t) && HoldsOk(Reassign(t, k, target).0, SetStage(held, i, k, ToForward))
  {
    AgreeIsWf(t);
    ReassignAgrees(t, k, target);
    var held' := SetStage(held, i, k, ToForward);
    assert held'.Keys == held.Keys;
    forall j, k' | j in held' && k' in held'[j]
      ensures HoldOk(Reassign(t, k, target).0, k', held'[j][k'])
    {
      assert HoldOk(t, k', held[j][k']);
      if k' != k {
        ReassignSame(t, k, target, k');
      }
    }
  }

  lemma {:induction false} ChooseSimulates<T(!new)>(ar: Arith<T>, c: Crew<T>, i: nat, k: Key, target: int)
    requires CrewInv(ar, c) && Wf(c.server.tracker) && HoldsAt(c.held, i, k, ToAssign)
    ensures StepOf(ar, c.server, Assign(k, target), Chosen(c, i, k, target).server)
            && CrewInv(ar, Chosen(c, i, k, target))
  {
    var t := c.server.tracker;
    HeldTracked(ar, c, i, k);
    AssignInv(ar, c.server, k, target);
    HandsStage(c.held, i, k, ToForward);
    ChosenHolds(t, c.held, i, k, target);
    StepOfAssign(ar, c.server, k, target);
    assert Chosen(c, i, k, target).server == DoAssign(c.server, k, target);
  }

  lemma {:induction false} LetGoHolds(t: Tracker, u: Tracker, held: Held, i: nat, k: Key)
    requires HoldsOk(t, held) && HandsApart(held) && k in TilesOf(held, i)
    requires forall k' | k' in InHand(held) && k' != k :: SameRecord(t, u, k')
    ensures HoldsOk(u, LetGo(held, i, k))
  {
    FewerHolds(t, held, i, k);
    HandsLess(held, i, k);
    SameHolds(t, u, LetGo(held, i, k));
  }

  /** Giving a tile back. */
  lemma {:induction false} GiveBackSimulates<T(!new)>(ar: Arith<T>, c: Crew<T>, i: nat, k: Key)
    requires CrewInv(ar, c) && Wf(c.server.tracker) && k in TilesOf(c.held, i)
    ensures StepOf(ar, c.server, Release(k), GivenBack(c, i, k).server) && CrewInv(ar, GivenBack(c, i, k))
  {
    var t := c.server.tracker;
    HeldTracked(ar, c, i, k);
    ReleaseInv(ar, c.server, k);
    HandsLess(c.held, i, k);
    forall k' | k' in InHand(c.held) && k' != k
      ensures SameRecord(t, Mark(t, k, Idle), k')
    {
      HandsTracked(ar, c, k');
      MarkSame(t, k, Idle, k');
    }
    LetGoHolds(t, Mark(t, k, Idle), c.held, i, k);
    StepOfRelease(ar, c.server, k);
    assert GivenBack(c, i, k).server == DoRelease(c.server, k);
  }

  lemma {:induction false} PostIsSend<T>(s: Server<T>, k: Key, p: nat)
    requires Agree(s.tracker) && HoldOk(s.tracker, k, Hold(p, ToForward)) && s.tracker.heap[p].owner in s.links
    requires k in View(s.tracker) && Belongs(s, View(s.tracker)[k].oid, k) && s.ops[View(s.tracker)[k].oid].Ok()
    ensures View(s.tracker)[k].home in s.links
    ensures var info := s.tracker.heap[p];
            DoSend(s, k) == Posted(s, k, info.oid, info.owner).(limbo := s.limbo - {k})
  {
    SendEffect(s, k);
  }

  lemma {:induction false} PostedServer<T(!new)>(ar: Arith<T>, c: Crew<T>, i: nat, k: Key)
    requires CrewInv(ar, c) && Wf(c.server.tracker) && HoldsAt(c.held, i, k, ToForward) && Reaches(c, i, k)
    ensures StepOf(ar, c.server, Send(k), Forwarded(c, i, k).server) && Forwarded(c, i, k).server == DoSend(c.server, k)
    ensures View(c.server.tracker)[k].home in c.server.links && DoSend(c.server, k).tracker == c.server.tracker
  {
    HeldTracked(ar, c, i, k);
    Sendable(ar, c.server, k);
    PostIsSend(c.server, k, TilesOf(c.held, i)[k].record);
    HandsLess(c.held, i, k);
    StepOfSend(ar, c.server, k);
  }

  /** Sending a tile. */
  lemma {:induction false} PostSimulates<T(!new)>(ar: Arith<T>, c: Crew<T>, i: nat, k: Key)
    requires CrewInv(ar, c) && Wf(c.server.tracker) && HoldsAt(c.held, i, k, ToForward) && Reaches(c, i, k)
    ensures StepOf(ar, c.server, Send(k), Forwarded(c, i, k).server) && CrewInv(ar, Forwarded(c, i, k))
  {
    PostedServer(ar, c, i, k);
    SendInv(ar, c.server, k);
    HandsLess(c.held, i, k);
    FewerHolds(c.server.tracker, c.held, i, k);
  }

  // Everything else

  /** What a step that is not a sweep's can do to the tracker. */
  ghost predicate TrackerStep<T>(s: Server<T>, x: Action<T>, u: Tracker)
    requires Wf(s.tracker)
  {
    match x
    case AddTile(oid) =>
      && oid in s.adding && oid in s.ops && s.adding[oid] != []
      && u == Add(s.tracker, -1, KeyOf(s.ops[oid].version, s.adding[oid][0]), oid, -1)
    case Retire(k') =>
      k' in s.handling && u == RemoveByKey(Mark(s.tracker, k', PartitionState.Finished), k')
    case Close(d) => NoneClaimedAt(s.limbo, View(s.tracker), d) && u == MarkDeviceFailed(s.tracker, d)
    case CloseUnregistered => NoneClaimedAt(s.limbo, View(s.tracker), -1) && u == MarkDeviceFailed(s.tracker, -1)
    case _ => u == s.tracker
  }

  lemma {:induction false} OtherTracker<T>(ar: Arith<T>, s: Server<T>, x: Action<T>)
    requires Wf(s.tracker) && !IsSweep(x) && Enabled(ar, s, x)
    ensures TrackerStep(s, x, Next(s, x).tracker)
  {
    match x
    case Deliver(d, m) => DeliverTracker(s, d, m);
    case _ =>
  }

  lemma {:induction false} DeliverTracker<T>(s: Server<T>, d: int, m: Msg<T>)
    requires d in s.links && m.Reply?
    ensures DoDeliver(s, d, m).tracker == s.tracker && DoDeliver(s, d, m).limbo == s.limbo
  {
  }

  /** Such a step leaves the records of claimed tiles alone. */
  lemma {:induction false} OtherSame<T>(s: Server<T>, x: Action<T>, u: Tracker, k: Key)
    requires Agree(s.tracker) && Wf(s.tracker) && k in s.limbo && k in View(s.tracker) && k !in s.handling
    requires TrackerStep(s, x, u)
    requires x.AddTile? ==> KeyOf(s.ops[x.oid].version, s.adding[x.oid][0]) !in s.tracker.byKey
    ensures SameRecord(s.tracker, u, k)
  {
    var t := s.tracker;
    assert KeyAgrees(t, k);
    match x
    case AddTile(oid) => AddSame(t, -1, KeyOf(s.ops[oid].version, s.adding[oid][0]), oid, k);
    case Retire(k') => RetireSame(t, k', k);
    case Close(d) => FailedSame(t, d, k);
    case CloseUnregistered => FailedSame(t, -1, k);
    case _ =>
  }

  lemma {:induction false} AddedKeyNew<T(!new)>(ar: Arith<T>, s: Server<T>, oid: nat)
    requires Inv(ar, s) && oid in s.adding && oid in s.ops && s.adding[oid] != []
    ensures KeyOf(s.ops[oid].version, s.adding[oid][0]) !in s.tracker.byKey
  {
    assert AddingOk(s, View(s.tracker), oid);
    assert s.adding[oid][0] in s.adding[oid];
  }

  lemma {:induction false} OtherSimulates<T(!new)>(ar: Arith<T>, c: Crew<T>, x: Action<T>)
    requires Lawful(ar) && CrewInv(ar, c) && !IsSweep(x) && Enabled(ar, c.server, x)
    ensures Wf(c.server.tracker) && CrewInv(ar, Crew(Next(c.server, x), c.held))
  {
    var s := c.server;
    AgreeIsWf(s.tracker);
    StepInv(ar, s, x);
    NextLimbo(ar, s, x);
    OtherTracker(ar, s, x);
    OtherHolds(ar, c, x, Next(s, x).tracker);
  }

  lemma {:induction false} OtherHolds<T(!new)>(ar: Arith<T>, c: Crew<T>, x: Action<T>, u: Tracker)
    requires CrewInv(ar, c) && Wf(c.server.tracker) && TrackerStep(c.server, x, u)
    ensures HoldsOk(u, c.held)
  {
    if x.AddTile? {
      AddedKeyNew(ar, c.server, x.oid);
    }
    forall k | k in InHand(c.held)
      ensures SameRecord(c.server.tracker, u, k)
    {
      HeldIsViewed(ar, c.server, k);
      OtherSame(c.server, x, u, k);
    }
    SameHolds(c.server.tracker, u, c.held);
  }

  lemma {:induction false} NextLimbo<T(!new)>(ar: Arith<T>, s: Server<T>, x: Action<T>)
    requires Wf(s.tracker) && !IsSweep(x) && Enabled(ar, s, x)
    ensures Next(s, x).limbo == s.limbo
  {
    match x
    case Deliver(d, m) => DeliverTracker(s, d, m);
    case _ =>
  }

  // The same, move by move

  lemma {:induction false} Link<T(!new)>(ar: Arith<T>, c: Crew<T>, m: Move<T>, c': Crew<T>, x: Action<T>)
    requires Erased(c, m) == x && StepOf(ar, c.server, x, c'.server) && CrewInv(ar, c')
    ensures Simulates(ar, c, m, c')
  {
  }

  lemma {:induction false} BeginStep<T(!new)>(ar: Arith<T>, c: Crew<T>, i: nat)
    requires CrewInv(ar, c) && TilesOf(c.held, i) == map[]
    ensures Simulates(ar, c, Begin(i), Begun(c, i))
  {
    BeginSimulates(ar, c, i);
    Link(ar, c, Begin(i), Begun(c, i), ClaimIdle);
  }

  lemma {:induction false} ChooseStep<T(!new)>(ar: Arith<T>, c: Crew<T>, i: nat, k: Key, target: int)
    requires CrewInv(ar, c) && Wf(c.server.tracker) && HoldsAt(c.held, i, k, ToAssign)
    ensures Simulates(ar, c, Choose(i, k, target), Chosen(c, i, k, target))
  {
    ChooseSimulates(ar, c, i, k, target);
    Link(ar, c, Choose(i, k, target), Chosen(c, i, k, target), Assign(k, target));
  }

  lemma {:induction false} PassOverStep<T(!new)>(ar: Arith<T>, c: Crew<T>, i: nat, k: Key)
    requires CrewInv(ar, c) && Wf(c.server.tracker) && HoldsAt(c.held, i, k, ToAssign)
    ensures Simulates(ar, c, PassOver(i, k), GivenBack(c, i, k))
  {
    GiveBackSimulates(ar, c, i, k);
    LinkRelease(ar, c, PassOver(i, k), GivenBack(c, i, k), k);
  }

  lemma {:induction false} LinkRelease<T(!new)>(ar: Arith<T>, c: Crew<T>, m: Move<T>, c': Crew<T>, k: Key)
    requires StepOf(ar, c.server, Release(k), c'.server) && CrewInv(ar, c')
    requires (m.PassOver? && m.k == k) || (m.Forward? && m.k == k && !Reaches(c, m.i, k))
    ensures Simulates(ar, c, m, c')
  {
    ErasedRelease(c, m, k);
    Link(ar, c, m, c', Release(k));
  }

  lemma {:induction false} ErasedRelease<T>(c: Crew<T>, m: Move<T>, k: Key)
    requires (m.PassOver? && m.k == k) || (m.Forward? && m.k == k && !Reaches(c, m.i, k))
    ensures Erased(c, m) == Release(k)
  {
  }

  lemma {:induction false} ErasedSend<T>(c: Crew<T>, i: nat, k: Key)
    requires Reaches(c, i, k)
    ensures Erased(c, Move<T>.Forward(i, k)) == Send(k)
  {
  }

  lemma {:induction false} LinkSend<T(!new)>(ar: Arith<T>, c: Crew<T>, i: nat, k: Key, c': Crew<T>)
    requires Reaches(c, i, k) && StepOf(ar, c.server, Send(k), c'.server) && CrewInv(ar, c')
    ensures Simulates(ar, c, Forward(i, k), c')
  {
    ErasedSend(c, i, k);
    Link(ar, c, Forward(i, k), c', Send(k));
  }

  lemma {:induction false} ForwardSends<T(!new)>(ar: Arith<T>, c: Crew<T>, i: nat, k: Key, c': Crew<T>)
    requires CrewInv(ar, c) && Wf(c.server.tracker) && HoldsAt(c.held, i, k, ToForward) && Reaches(c, i, k)
    requires c' == Forwarded(c, i, k)
    ensures Simulates(ar, c, Forward(i, k), c')
  {
    PostSimulates(ar, c, i, k);
    LinkSend(ar, c, i, k, c');
  }

  lemma {:induction false} ForwardGivesBack<T(!new)>(ar: Arith<T>, c: Crew<T>, i: nat, k: Key, c': Crew<T>)
    requires CrewInv(ar, c) && Wf(c.server.tracker) && HoldsAt(c.held, i, k, ToForward) && !Reaches(c, i, k)
    requires c' == GivenBack(c, i, k)
    ensures Simulates(ar, c, Forward(i, k), c')
  {
    GiveBackSimulates(ar, c, i, k);
    LinkRelease(ar, c, Forward(i, k), c', k);
  }

  lemma {:induction false} ForwardStep<T(!new)>(ar: Arith<T>, c: Crew<T>, i: nat, k: Key)
    requires CrewInv(ar, c) && Wf(c.server.tracker) && HoldsAt(c.held, i, k, ToForward)
    ensures Simulates(ar, c, Forward(i, k), Forwarded(c, i, k))
  {
    if Reaches(c, i, k) {
      ForwardSends(ar, c, i, k, Forwarded(c, i, k));
    } else {
      ForwardGivesBack(ar, c, i, k, Forwarded(c, i, k));
    }
  }

  lemma {:induction false} OtherStep<T(!new)>(ar: Arith<T>, c: Crew<T>, x: Action<T>)
    requires Lawful(ar) && CrewInv(ar, c) && CanMove(ar, c, Other(x)) && Guarded(c, Other(x))
    ensures Wf(c.server.tracker) && Simulates(ar, c, Other(x), Crew(Next(c.server, x), c.held))
  {
    GuardedEnabled(ar, c, x);
    OtherSimulates(ar, c, x);
    assert StepOf(ar, c.server, x, Next(c.server, x));
  }

  lemma {:induction false} GuardedEnabled<T>(ar: Arith<T>, c: Crew<T>, x: Action<T>)
    requires CanMove(ar, c, Other(x)) && Guarded(c, Other(x))
    ensures !IsSweep(x) && Enabled(ar, c.server, x)
  {
  }

  /** Every guarded move of the sweeps and of everything else is a step of the protocol. */
  lemma {:induction false} MoveSimulates<T(!new)>(ar: Arith<T>, c: Crew<T>, m: Move<T>)
    requires Lawful(ar) && CrewInv(ar, c) && CanMove(ar, c, m) && Guarded(c, m)
    ensures Wf(c.server.tracker) && Simulates(ar, c, m, Moved(ar, c, m))
  {
    AgreeIsWf(c.server.tracker);
    match m
    case Begin(i) => BeginStep(ar, c, i);
    case Choose(i, k, target) => ChooseStep(ar, c, i, k, target);
    case PassOver(i, k) => PassOverStep(ar, c, i, k);
    case Forward(i, k) => ForwardStep(ar, c, i, k);
    case Other(x) => OtherStep(ar, c, x);
  }

  // --------------------------------------------------------------------------
  // Guarded runs of any number of sweeps
  // --------------------------------------------------------------------------

  lemma {:induction false} StartInv<T(!new)>(ar: Arith<T>)
    ensures CrewInv(ar, Start())
  {
    InitInv(ar);
  }

  lemma {:induction false} DoSimulates<T(!new)>(ar: Arith<T>, c: Crew<T>, m: Move<T>) returns (xs: seq<Action<T>>)
    requires Lawful(ar) && CrewInv(ar, c) && Guarded(c, m)
    ensures CrewInv(ar, Do(ar, c, m)) && Do(ar, c, m).server == ExecFrom(ar, c.server, xs)
  {
    if Wf(c.server.tracker) && CanMove(ar, c, m) {
      MoveSimulates(ar, c, m);
      var x := Erased(c, m);
      ExecNext(ar, c.server, [], x);
      assert [] + [x] == [x];
      xs := [x];
    } else {
      xs := [];
    }
  }

  /** Every guarded run of the sweeps is a run of the protocol. */
  lemma {:induction false} RunSimulates<T(!new)>(ar: Arith<T>, ms: seq<Move<T>>) returns (xs: seq<Action<T>>)
    requires Lawful(ar) && GuardedRun(ar, ms)
    ensures CrewInv(ar, Go(ar, Start(), ms)) && Go(ar, Start(), ms).server == Exec(ar, xs)
    decreases |ms|
  {
    if ms == [] {
      StartInv(ar);
      xs := [];
    } else {
      var n := |ms| - 1;
      var ys := RunSimulates(ar, ms[..n]);
      var zs := DoSimulates(ar, Go(ar, Start(), ms[..n]), ms[n]);
      ExecAppend(ar, Init(), ys, zs);
      xs := ys + zs;
    }
  }

  /** With any number of sweeps at a time, a guarded run's wait ends only with the product. */
  lemma {:induction false} WaitReturnsProduct<T(!new)>(ar: Arith<T>, ms: seq<Move<T>>, oid: nat)
    requires Lawful(ar) && GuardedRun(ar, ms)
    requires oid in Go(ar, Start(), ms).server.returned && WaitOver(Go(ar, Start(), ms).server, oid)
    ensures var s := Go(ar, Start(), ms).server;
            && oid in s.ops && oid in s.outputs && s.ops[oid].Ok()
            && IsProduct(s.ops[oid].g, ar, s.ops[oid].a, s.ops[oid].b, s.outputs[oid])
  {
    var xs := RunSimulates(ar, ms);
    ProtocolRuns.WaitReturnsProduct(ar, xs, oid);
  }
}
