/**
 The server, its tracker, its counters and outputs, and the links to its devices, as one
 step system.

 A step is an access under one lock or one callback of one event loop: handing one tile
 to the tracker, claiming the idle tiles, assigning, sending or releasing one claimed
 tile, a device's computation, writing an answer, retiring it, counting it, a connection
 opening or closing.  Dispatches and senders may interleave with everything else, except
 that no connection closes while some sender holds a claimed tile homed at its device (at
 -1, for a connection that never registered), or while the handler of one of its replies
 is between writing and retiring.
 */
module Protocol {
  import opened Sequences
  import opened Nonlinear
  import opened Tiling
  import opened Keys
  import opened Tracker
  import opened TrackerView
  import OperationId
  import CounterBalance

  function KeyOf(version: nat, t: Tile): Key {
    Key(version, t.pivot, t.row, t.col)
  }

  function TileOf(k: Key): Tile {
    Tile(k.pivot, k.row, k.col)
  }

  /** One dispatched product A B^T and the tiles it was cut into. */
  datatype Operation<T> = Operation(version: nat, g: Geometry, a: seq<T>, b: seq<T>, tiles: set<Tile>) {
    ghost predicate Ok() {
      g.Valid() && Operands(g, a, b) && forall t :: t in tiles <==> Legal(g, t)
    }
  }

  datatype Msg<T> =
    | Request(key: Key, oid: nat, part: Partition<T>)
    | Reply(key: Key, oid: nat, block: seq<T>)

  /** A reply being handled: written into the output, then also off the tracker. */
  datatype Handling = Written(dev: int, oid: nat) | Retired(dev: int, oid: nat)

  datatype Server<T(==)> = Server(
    nextOid: nat,
    versions: set<nat>,
    ops: map<nat, Operation<T>>,
    adding: map<nat, seq<Tile>>,
    returned: set<nat>,
    tracker: Tracker,
    limbo: set<Key>,
    links: map<int, multiset<Msg<T>>>,
    handling: map<Key, Handling>,
    counts: map<nat, nat>,
    outputs: map<nat, seq<T>>,
    log: seq<CounterBalance.Record>)

  function Init<T(==)>(): Server<T> {
    Server(0, {}, map[], map[], {}, EMPTY, {}, map[], map[], map[], map[], [])
  }

  function CountOf<T(==)>(s: Server<T>, oid: nat): nat {
    if oid in s.counts then s.counts[oid] else 0
  }

  datatype Action<T> =
    | Dispatch(op: Operation<T>, order: seq<Tile>, nan: T)
    | AddTile(oid: nat)
    | Return(oid: nat)
    | ClaimIdle
    | Assign(k: Key, target: int)
    | Send(k: Key)
    | Release(k: Key)
    | Compute(d: int, m: Msg<T>, scratch: seq<T>, block: seq<T>)
    | Deliver(d: int, m: Msg<T>)
    | Retire(k: Key)
    | Count(k: Key)
    | Connect(d: int)
    | Close(d: int)
    | CloseUnregistered

  /** `order` lists the tiles, each once, in any order (random_shuffle). */
  ghost predicate Shuffled(tiles: set<Tile>, order: seq<Tile>) {
    NoRepeat(order) && forall t :: t in order <==> t in tiles
  }

  /** `block` is what a device computes for a request. */
  ghost predicate Answers<T>(ar: Arith<T>, part: Partition<T>, scratch: seq<T>, block: seq<T>) {
    && part.hDim > 0
    && var rowSize, colSize := |part.rowBlock| / part.hDim, |part.colBlock| / part.hDim;
       && colSize > 0
       && WholeRows(part.rowBlock, part.hDim, rowSize) && WholeRows(part.colBlock, part.hDim, colSize)
       && |scratch| == Times(rowSize, colSize)
       && IsDeviceBlock(ar, part.rowBlock, rowSize, part.colBlock, colSize, part.hDim, scratch, block)
  }

  /** No sender holds a tile that is homed at d. */
  ghost predicate NoneClaimedAt(limbo: set<Key>, v: map<Key, Entry>, d: int) {
    forall k | k in limbo && k in v :: v[k].home != d
  }

  /** No reply from d is half-way through its handler. */
  ghost predicate NoneWrittenFrom(handling: map<Key, Handling>, d: int) {
    forall k | k in handling && handling[k].Written? :: handling[k].dev != d
  }

  ghost predicate Enabled<T>(ar: Arith<T>, s: Server<T>, x: Action<T>) {
    var v := View(s.tracker);
    match x
    case Dispatch(op, order, _) =>
      s.nextOid < OperationId.MAX_OPERATIONS && op.Ok() && op.version !in s.versions && Shuffled(op.tiles, order)
    case AddTile(oid) => oid in s.adding && oid in s.ops && s.adding[oid] != []
    case Return(oid) => oid in s.adding && s.adding[oid] == []
    case ClaimIdle => true
    case Assign(k, target) => k in s.limbo
    case Send(k) => k in s.limbo && k in v && v[k].home in s.links
    case Release(k) => k in s.limbo
    case Compute(d, m, scratch, block) =>
      d in s.links && m in s.links[d] && m.Request? && Answers(ar, m.part, scratch, block)
    case Deliver(d, m) => d in s.links && m in s.links[d] && m.Reply?
    case Retire(k) => k in s.handling && s.handling[k].Written?
    case Count(k) => k in s.handling && s.handling[k].Retired?
    case Connect(d) => 0 <= d && d !in s.links
    case Close(d) => d in s.links && NoneClaimedAt(s.limbo, v, d) && NoneWrittenFrom(s.handling, d)
    case CloseUnregistered => NoneClaimedAt(s.limbo, v, -1)
  }

  // --------------------------------------------------------------------------
  // Effects
  // --------------------------------------------------------------------------

  /** A fresh output, every entry of it the same. */
  function Filled<T>(n: nat, x: T): (out: seq<T>)
    ensures |out| == n
  {
    seq(n, _ => x)
  }

  function DoDispatch<T(==)>(s: Server<T>, op: Operation<T>, order: seq<Tile>, nan: T): Server<T> {
    var oid := s.nextOid;
    var s1 := s.(nextOid := oid + 1, versions := s.versions + {op.version});
    if order == [] then s1
    else
      s1.(ops := s.ops[oid := op],
          outputs := s.outputs[oid := Filled(op.g.CSize(), nan)],
          counts := s.counts[oid := CountOf(s, oid) + |order|],
          adding := s.adding[oid := order])
  }

  function DoAddTile<T(==)>(s: Server<T>, oid: nat): Server<T>
    requires oid in s.adding && oid in s.ops && s.adding[oid] != []
  {
    var t := s.adding[oid][0];
    s.(tracker := Add(s.tracker, -1, KeyOf(s.ops[oid].version, t), oid, -1),
       adding := s.adding[oid := s.adding[oid][1..]])
  }

  function DoReturn<T(==)>(s: Server<T>, oid: nat): Server<T> {
    s.(adding := s.adding - {oid}, returned := s.returned + {oid})
  }

  function IdleKeys(v: map<Key, Entry>): set<Key> {
    set k | k in v && v[k].state == Idle
  }

  function DoClaim<T(==)>(s: Server<T>): Server<T> {
    s.(tracker := Claim(s.tracker), limbo := s.limbo + IdleKeys(View(s.tracker)))
  }

  function DoAssign<T(==)>(s: Server<T>, k: Key, target: int): Server<T>
    requires Wf(s.tracker)
  {
    s.(tracker := Reassign(s.tracker, k, target).0)
  }

  /** The request carries the tile's blocks, read from the operands at this moment. */
  ghost function RequestFor<T>(s: Server<T>, k: Key, oid: int): Msg<T>
    requires Belongs(s, oid, k) && s.ops[oid].Ok()
  {
    Request(k, oid, CalculateMatrixPartition(s.ops[oid].g, s.ops[oid].a, s.ops[oid].b, TileOf(k)))
  }

  ghost predicate Belongs<T>(s: Server<T>, oid: int, k: Key) {
    0 <= oid && oid in s.ops && k.version == s.ops[oid].version && TileOf(k) in s.ops[oid].tiles
  }

  ghost function DoSend<T>(s: Server<T>, k: Key): Server<T> {
    var v := View(s.tracker);
    if k in v && v[k].home in s.links && Belongs(s, v[k].oid, k) && s.ops[v[k].oid].Ok() then
      var d := v[k].home;
      s.(links := s.links[d := s.links[d] + multiset{RequestFor(s, k, v[k].oid)}], limbo := s.limbo - {k})
    else s
  }

  function DoRelease<T(==)>(s: Server<T>, k: Key): Server<T>
    requires Wf(s.tracker)
  {
    s.(tracker := Mark(s.tracker, k, Idle), limbo := s.limbo - {k})
  }

  function DoCompute<T(==)>(s: Server<T>, d: int, m: Msg<T>, block: seq<T>): Server<T>
    requires d in s.links
  {
    s.(links := s.links[d := s.links[d] - multiset{m} + multiset{Reply(m.key, m.oid, block)}])
  }

  ghost function DoDeliver<T>(s: Server<T>, d: int, m: Msg<T>): Server<T>
    requires d in s.links && m.Reply?
  {
    var s1 := s.(links := s.links[d := s.links[d] - multiset{m}],
                 handling := s.handling[m.key := Written(d, m.oid)]);
    if Belongs(s, m.oid, m.key) && s.ops[m.oid].Ok() && m.oid in s.outputs then
      var g, t := s.ops[m.oid].g, TileOf(m.key);
      if |s.outputs[m.oid]| == g.CSize() && |m.block| == Times(RowLines(g, t), ColLines(g, t))
      then s1.(outputs := s.outputs[m.oid := PutTile(g, s.outputs[m.oid], t, m.block)])
      else s1
    else s1
  }

  function DoRetire<T(==)>(s: Server<T>, k: Key): Server<T>
    requires k in s.handling && Wf(s.tracker)
  {
    s.(tracker := RemoveByKey(Mark(s.tracker, k, Finished), k),
       handling := s.handling[k := Retired(s.handling[k].dev, s.handling[k].oid)])
  }

  /** Decrement with the underflow clamp; the log line gives the count before and after. */
  function IncRspCbCount<T(==)>(s: Server<T>, oid: nat, count: nat): Server<T> {
    var previous := CountOf(s, oid);
    var current := if previous < count then 0 else previous - count;
    s.(counts := s.counts[oid := current], log := s.log + [CounterBalance.Record(oid, count, previous, current)])
  }

  function DoCount<T(==)>(s: Server<T>, k: Key): Server<T>
    requires k in s.handling
  {
    var s1 := IncRspCbCount(s, s.handling[k].oid, 1);
    s1.(handling := s.handling - {k})
  }

  function DoClose<T(==)>(s: Server<T>, d: int): Server<T> {
    s.(links := s.links - {d}, tracker := MarkDeviceFailed(s.tracker, d))
  }

  ghost function Next<T>(s: Server<T>, x: Action<T>): Server<T>
    requires Wf(s.tracker)
  {
    match x
    case Dispatch(op, order, nan) => DoDispatch(s, op, order, nan)
    case AddTile(oid) => if oid in s.adding && oid in s.ops && s.adding[oid] != [] then DoAddTile(s, oid) else s
    case Return(oid) => DoReturn(s, oid)
    case ClaimIdle => DoClaim(s)
    case Assign(k, target) => DoAssign(s, k, target)
    case Send(k) => DoSend(s, k)
    case Release(k) => DoRelease(s, k)
    case Compute(d, m, _, block) => if d in s.links then DoCompute(s, d, m, block) else s
    case Deliver(d, m) => if d in s.links && m.Reply? then DoDeliver(s, d, m) else s
    case Retire(k) => if k in s.handling then DoRetire(s, k) else s
    case Count(k) => if k in s.handling then DoCount(s, k) else s
    case Connect(d) => s.(links := s.links[d := multiset{}])
    case Close(d) => DoClose(s, d)
    case CloseUnregistered => s.(tracker := MarkDeviceFailed(s.tracker, -1))
  }
}
