/** The device's blocks are the ones the server's tiling cut, for every operation it works on. */
module DeviceBlocks {
  import opened Keys
  import opened Tiling
  import opened Protocol
  import opened DeviceCache

  // --------------------------------------------------------------------------
  // One block for each key
  // --------------------------------------------------------------------------

  /** The tile belongs to one of the operations, which are listed by their versions. */
  ghost predicate HasTile<T>(ops: map<nat, Operation<T>>, k: Key) {
    k.version in ops && ops[k.version].version == k.version && ops[k.version].Ok() && TileOf(k) in ops[k.version].tiles
  }

  /** What the tiling cuts for a tile. */
  ghost function PartOf<T>(ops: map<nat, Operation<T>>, k: Key): Partition<T>
    requires HasTile(ops, k)
  {
    var op := ops[k.version];
    CalculateMatrixPartition(op.g, op.a, op.b, TileOf(k))
  }

  /** The tiling cuts one block for each row key and one for each column key, whichever tile asks. */
  lemma {:induction false} BlocksByKey<T>(g: Geometry, a: seq<T>, b: seq<T>, t: Tile, u: Tile)
    requires g.Valid() && Operands(g, a, b) && Legal(g, t) && Legal(g, u) && t.pivot == u.pivot
    ensures var tp, up := CalculateMatrixPartition(g, a, b, t), CalculateMatrixPartition(g, a, b, u);
            && (t.row == u.row ==> tp.rowBlock == up.rowBlock)
            && (t.col == u.col ==> tp.colBlock == up.colBlock)
            && tp.rowBlock != [] && tp.colBlock != []
  {
    PartitionSizes(g, a, b, t);
  }

  /** Some tile of an operation that uses a block: the first one in its row or column. */
  function UserOf(k: TensorKey): Key {
    if k.isRow then Key(k.version, k.pivot, k.line, 0) else Key(k.version, k.pivot, 0, k.line)
  }

  /** The block of a key as the tiling cuts it; `fill` stands for keys that no operation uses. */
  ghost function BlockOf<T>(ops: map<nat, Operation<T>>, fill: T, k: TensorKey): (block: seq<T>)
    ensures block != []
  {
    if HasTile(ops, UserOf(k)) then
      var op := ops[k.version];
      BlocksByKey(op.g, op.a, op.b, TileOf(UserOf(k)), TileOf(UserOf(k)));
      if k.isRow then PartOf(ops, UserOf(k)).rowBlock else PartOf(ops, UserOf(k)).colBlock
    else [fill]
  }

  lemma {:induction false} FirstTiles(g: Geometry, t: Tile)
    requires g.Valid() && Legal(g, t)
    ensures Legal(g, Tile(t.pivot, t.row, 0)) && Legal(g, Tile(t.pivot, 0, t.col))
  {
  }

  /** Every tile's blocks are those of its row key and its column key. */
  lemma {:induction false} BlocksOfTile<T>(ops: map<nat, Operation<T>>, fill: T, k: Key)
    requires HasTile(ops, k)
    ensures PartOf(ops, k).rowBlock == BlockOf(ops, fill, RowKey(k))
    ensures PartOf(ops, k).colBlock == BlockOf(ops, fill, ColKey(k))
  {
    var op, t := ops[k.version], TileOf(k);
    FirstTiles(op.g, t);
    BlocksByKey(op.g, op.a, op.b, t, Tile(t.pivot, t.row, 0));
    BlocksByKey(op.g, op.a, op.b, t, Tile(t.pivot, 0, t.col));
  }

  // --------------------------------------------------------------------------
  // Runs of a device
  // --------------------------------------------------------------------------

  /** A request for a tile of one of the operations, each of its blocks as cut or left out. */
  ghost predicate Sent<T>(ops: map<nat, Operation<T>>, r: Req<T>) {
    && HasTile(ops, r.key) && r.hDim == PartOf(ops, r.key).hDim
    && (r.row == [] || r.row == PartOf(ops, r.key).rowBlock)
    && (r.col == [] || r.col == PartOf(ops, r.key).colBlock)
  }

  /** A request as GEMM gets it is the partition that the server cut for its tile. */
  ghost predicate AsCut<T>(ops: map<nat, Operation<T>>, r: Req<T>) {
    && HasTile(ops, r.key) && r.hDim == PartOf(ops, r.key).hDim
    && Partition(TileOf(r.key), PartOf(ops, r.key).hDim, r.row, r.col) == PartOf(ops, r.key)
  }

  ghost function Truth<T>(ops: map<nat, Operation<T>>, fill: T): TensorKey -> seq<T> {
    (k: TensorKey) => BlockOf(ops, fill, k)
  }

  lemma {:induction false} SentIsHonest<T>(ops: map<nat, Operation<T>>, fill: T, r: Req<T>)
    requires Sent(ops, r)
    ensures Honest(Truth(ops, fill), r)
  {
    BlocksOfTile(ops, fill, r.key);
  }

  lemma {:induction false} RightIsAsCut<T>(ops: map<nat, Operation<T>>, fill: T, rs: seq<Req<T>>, r: Req<T>)
    requires Right(Truth(ops, fill), r) && Arrived(rs, r) && Sent(ops, rs[r.id])
    ensures AsCut(ops, r)
  {
    BlocksOfTile(ops, fill, r.key);
  }

  /**
   For every order of requests for tiles of any operations, every choice of omitted blocks,
   every cache size and so every eviction, what reaches GEMM is the partition the server's
   tiling cut for that tile.
   */
  lemma {:induction false} RunAsCut<T>(ops: map<nat, Operation<T>>, overhead: nat, max: nat, rs: seq<Req<T>>, i: nat)
    requires forall n | 0 <= n < |rs| :: Sent(ops, rs[n])
    requires i < |Run(overhead, max, rs).gemms|
    ensures AsCut(ops, Run(overhead, max, rs).gemms[i])
  {
    var d := Run(overhead, max, rs);
    OnlyArrivals(overhead, max, rs);
    var r := d.gemms[i];
    assert Arrived(rs, r);
    BlocksOfTileNotEmpty(ops, r.key);
    var fill := PartOf(ops, r.key).rowBlock[0];
    forall n | 0 <= n < |rs|
      ensures Honest(Truth(ops, fill), rs[n])
    {
      SentIsHonest(ops, fill, rs[n]);
    }
    RunOk(Truth(ops, fill), overhead, max, rs);
    RightIsAsCut(ops, fill, rs, r);
  }

  lemma {:induction false} BlocksOfTileNotEmpty<T>(ops: map<nat, Operation<T>>, k: Key)
    requires HasTile(ops, k)
    ensures PartOf(ops, k).rowBlock != []
  {
    var op := ops[k.version];
    BlocksByKey(op.g, op.a, op.b, TileOf(k), TileOf(k));
  }
}
