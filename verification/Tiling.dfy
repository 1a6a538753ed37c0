/**
 The functional layer under a distributed matmul: A times B transposed is cut into
 row blocks of A and row blocks of B, every pair of blocks is multiplied by a
 column-major GEMM call on some device, and the resulting tile is copied back.

 Memory is modelled as flat row-major sequences of elements.  Element arithmetic is a
 parameter: nothing here depends on how a dot product is associated, because no tile
 ever splits the inner dimension.
 */
module Tiling {
  import opened Nonlinear
  import opened Sequences

  /** The arithmetic a GEMM kernel performs on elements. */
  datatype Arith<!T> = Arith(
    zero: T,
    one: T,
    add: (T, T) -> T,
    mul: (T, T) -> T,
    dot: (seq<T>, seq<T>) -> T)

  /** Scaling by one changes nothing, and a dot product does not depend on operand order. */
  ghost predicate Lawful<T(!new)>(ar: Arith<T>) {
    && (forall x :: ar.mul(ar.one, x) == x)
    && (forall x, y :: ar.dot(x, y) == ar.dot(y, x))
  }

  // --------------------------------------------------------------------------
  // Geometry of an operation
  // --------------------------------------------------------------------------

  /** `batch` matrices of `rows` x `depth` against `cols` x `depth`; `shared` means one 2-D B. */
  datatype Geometry = Geometry(batch: nat, rows: nat, cols: nat, depth: nat, block: nat, shared: bool) {
    predicate Valid() {
      block > 0 && depth > 0
    }

    function ASize(): nat {
      Times(Times(batch, rows), depth)
    }

    function BSize(): nat {
      Times(Times(if shared then 1 else batch, cols), depth)
    }

    function CSize(): nat {
      Times(Times(batch, rows), cols)
    }

    /** Which of B's matrices a pivot multiplies against. */
    function BPivot(pivot: nat): nat {
      if shared then 0 else pivot
    }

    predicate Cell(p: nat, i: nat, j: nat) {
      p < batch && i < rows && j < cols
    }
  }

  /** Position of cell (i, j) of output matrix p. */
  function Flat(g: Geometry, p: nat, i: nat, j: nat): nat {
    Times(Times(p, g.rows) + i, g.cols) + j
  }

  lemma {:induction false} FlatBound(g: Geometry, p: nat, i: nat, j: nat)
    requires g.Cell(p, i, j)
    ensures Flat(g, p, i, j) < g.CSize()
  {
    LineFits(g.batch, g.rows, p);
    LineFits(Times(g.batch, g.rows), g.cols, Times(p, g.rows) + i);
  }

  lemma {:induction false} FlatInjective(g: Geometry, p: nat, i: nat, j: nat, p': nat, i': nat, j': nat)
    requires g.Cell(p, i, j) && g.Cell(p', i', j')
    requires Flat(g, p, i, j) == Flat(g, p', i', j')
    ensures p == p' && i == i' && j == j'
  {
    MixedRadixInjective(Times(p, g.rows) + i, j, Times(p', g.rows) + i', j', g.cols);
    MixedRadixInjective(p, i, p', i', g.rows);
  }

  lemma {:induction false} FlatRow(n: nat, limit: nat, idx: nat)
    requires idx < Times(limit, n)
    ensures n > 0 && idx / n < limit && idx == Times(idx / n, n) + idx % n
  {
    TimesPositive(limit, n);
    DivMod(idx, n);
    if limit <= idx / n {
      TimesMono(limit, idx / n, n);
    }
  }

  /** Every output position is some cell. */
  lemma {:induction false} FlatSurjective(g: Geometry, idx: nat) returns (p: nat, i: nat, j: nat)
    requires idx < g.CSize()
    ensures g.Cell(p, i, j) && Flat(g, p, i, j) == idx
  {
    FlatRow(g.cols, Times(g.batch, g.rows), idx);
    FlatRow(g.rows, g.batch, idx / g.cols);
    p, i, j := idx / g.cols / g.rows, idx / g.cols % g.rows, idx % g.cols;
  }

  // --------------------------------------------------------------------------
  // The reference product
  // --------------------------------------------------------------------------

  /** Row k of a flat matrix whose rows have h elements. */
  function Row<T>(m: seq<T>, h: nat, k: nat): (r: seq<T>)
    requires Times(k, h) + h <= |m|
    ensures |r| == h
  {
    m[Times(k, h)..Times(k, h) + h]
  }

  ghost predicate Operands<T>(g: Geometry, a: seq<T>, b: seq<T>) {
    |a| == g.ASize() && |b| == g.BSize()
  }

  lemma {:induction false} ARowInBounds(g: Geometry, p: nat, i: nat)
    requires p < g.batch && i < g.rows
    ensures Times(Times(p, g.rows) + i, g.depth) + g.depth <= g.ASize()
  {
    LineFits(g.batch, g.rows, p);
    LineFits(Times(g.batch, g.rows), g.depth, Times(p, g.rows) + i);
  }

  lemma {:induction false} BRowInBounds(g: Geometry, p: nat, j: nat)
    requires p < g.batch && j < g.cols
    ensures Times(Times(g.BPivot(p), g.cols) + j, g.depth) + g.depth <= g.BSize()
  {
    var limit := if g.shared then 1 else g.batch;
    LineFits(limit, g.cols, g.BPivot(p));
    LineFits(Times(limit, g.cols), g.depth, Times(g.BPivot(p), g.cols) + j);
  }

  /** Entry (i, j) of matrix p of A times B transposed, from the definition. */
  function Entry<T>(g: Geometry, ar: Arith<T>, a: seq<T>, b: seq<T>, p: nat, i: nat, j: nat): T
    requires g.Cell(p, i, j) && |a| == g.ASize() && |b| == g.BSize()
  {
    ARowInBounds(g, p, i);
    BRowInBounds(g, p, j);
    ar.dot(Row(a, g.depth, Times(p, g.rows) + i), Row(b, g.depth, Times(g.BPivot(p), g.cols) + j))
  }

  ghost predicate IsProduct<T>(g: Geometry, ar: Arith<T>, a: seq<T>, b: seq<T>, c: seq<T>)
    requires Operands(g, a, b)
  {
    && |c| == g.CSize()
    && forall p: nat, i: nat, j: nat {:trigger Flat(g, p, i, j)} | g.Cell(p, i, j) ::
         Flat(g, p, i, j) < |c| && c[Flat(g, p, i, j)] == Entry(g, ar, a, b, p, i, j)
  }

  /** The definition of the product leaves no cell free. */
  lemma {:induction false} ProductUnique<T>(g: Geometry, ar: Arith<T>, a: seq<T>, b: seq<T>, c: seq<T>, d: seq<T>)
    requires Operands(g, a, b)
    requires IsProduct(g, ar, a, b, c) && IsProduct(g, ar, a, b, d)
    ensures c == d
  {
    forall idx | 0 <= idx < |c|
      ensures c[idx] == d[idx]
    {
      var p, i, j := FlatSurjective(g, idx);
    }
  }

  // --------------------------------------------------------------------------
  // Tiles
  // --------------------------------------------------------------------------

  datatype Tile = Tile(pivot: nat, row: nat, col: nat)

  /** Lines in block r of n lines; the last block may be ragged. */
  function BlockLen(n: nat, block: nat, r: nat): int {
    if block <= n - Times(r, block) then block else n - Times(r, block)
  }

  predicate Legal(g: Geometry, t: Tile)
    requires g.Valid()
  {
    t.pivot < g.batch && t.row < BlockCount(g.rows, g.block) && t.col < BlockCount(g.cols, g.block)
  }

  /** First line and first column of a tile. */
  function Top(g: Geometry, t: Tile): nat {
    Times(t.row, g.block)
  }

  function Left(g: Geometry, t: Tile): nat {
    Times(t.col, g.block)
  }

  /** Tile t holds cell (p, i, j). */
  predicate Covers(g: Geometry, t: Tile, p: nat, i: nat, j: nat) {
    && t.pivot == p
    && Top(g, t) <= i < Top(g, t) + g.block
    && Left(g, t) <= j < Left(g, t) + g.block
  }

  lemma {:induction false} BlockStart(n: nat, block: nat, r: nat)
    requires block > 0
    ensures r < BlockCount(n, block) <==> Times(r, block) < n
  {
    var q := n / block;
    DivMod(n, block);
    if r < q {
      LineFits(q, block, r);
    } else if q < r {
      LineFits(r, block, q);
    }
  }

  function Owner(g: Geometry, p: nat, i: nat, j: nat): Tile
    requires g.Valid()
  {
    Tile(p, i / g.block, j / g.block)
  }

  lemma {:induction false} LineInBlock(block: nat, i: nat, r: nat)
    requires block > 0
    ensures Times(r, block) <= i < Times(r, block) + block <==> r == i / block
  {
    DivMod(i, block);
    var q := i / block;
    if r < q {
      LineFits(q, block, r);
    } else if q < r {
      LineFits(r, block, q);
    }
  }

  /** Every output cell belongs to exactly one legal tile. */
  lemma {:induction false} ExactlyOneTile(g: Geometry, p: nat, i: nat, j: nat)
    requires g.Valid() && g.Cell(p, i, j)
    ensures Legal(g, Owner(g, p, i, j)) && Covers(g, Owner(g, p, i, j), p, i, j)
    ensures forall t | Covers(g, t, p, i, j) :: t == Owner(g, p, i, j)
  {
    var own := Owner(g, p, i, j);
    LineInBlock(g.block, i, own.row);
    LineInBlock(g.block, j, own.col);
    BlockStart(g.rows, g.block, own.row);
    BlockStart(g.cols, g.block, own.col);
    forall t | Covers(g, t, p, i, j)
      ensures t == own
    {
      LineInBlock(g.block, i, t.row);
      LineInBlock(g.block, j, t.col);
    }
  }

  // --------------------------------------------------------------------------
  // Cutting: PartitionMatrices and CalculateMatrixPartition
  // --------------------------------------------------------------------------

  /** What is sent to a device: the tile and the two row blocks it multiplies. */
  datatype Partition<T> = Partition(tile: Tile, hDim: nat, rowBlock: seq<T>, colBlock: seq<T>)

  /** Lines off..off+len of matrix p fit in a flat batch of matrices of n lines. */
  lemma {:induction false} SliceInBounds(batch: nat, n: nat, depth: nat, p: nat, off: nat, len: nat)
    requires p < batch && off + len <= n
    ensures Times(off + Times(p, n), depth) + Times(len, depth) <= Times(Times(batch, n), depth)
  {
    LineFits(batch, n, p);
    TimesAdd(off + Times(p, n), len, depth);
    TimesMono(off + Times(p, n) + len, Times(batch, n), depth);
  }

  /** First row of A, and of B, that a tile multiplies. */
  function FirstRow(g: Geometry, t: Tile): nat {
    Top(g, t) + Times(t.pivot, g.rows)
  }

  function FirstCol(g: Geometry, t: Tile): nat {
    Left(g, t) + Times(g.BPivot(t.pivot), g.cols)
  }

  function RowLines(g: Geometry, t: Tile): (n: nat)
    requires g.Valid() && Legal(g, t)
    ensures 0 < n && Top(g, t) + n <= g.rows && n <= g.block
    ensures n < g.block ==> Top(g, t) + n == g.rows
  {
    BlockStart(g.rows, g.block, t.row);
    BlockLen(g.rows, g.block, t.row)
  }

  function ColLines(g: Geometry, t: Tile): (n: nat)
    requires g.Valid() && Legal(g, t)
    ensures 0 < n && Left(g, t) + n <= g.cols && n <= g.block
    ensures n < g.block ==> Left(g, t) + n == g.cols
  {
    BlockStart(g.cols, g.block, t.col);
    BlockLen(g.cols, g.block, t.col)
  }

  lemma {:induction false} RowBlockInBounds(g: Geometry, t: Tile)
    requires g.Valid() && Legal(g, t)
    ensures Times(FirstRow(g, t), g.depth) + Times(RowLines(g, t), g.depth) <= g.ASize()
  {
    SliceInBounds(g.batch, g.rows, g.depth, t.pivot, Top(g, t), RowLines(g, t));
  }

  lemma {:induction false} ColBlockInBounds(g: Geometry, t: Tile)
    requires g.Valid() && Legal(g, t)
    ensures Times(FirstCol(g, t), g.depth) + Times(ColLines(g, t), g.depth) <= g.BSize()
  {
    SliceInBounds(if g.shared then 1 else g.batch, g.cols, g.depth,
                  g.BPivot(t.pivot), Left(g, t), ColLines(g, t));
  }

  function CalculateMatrixPartition<T>(g: Geometry, a: seq<T>, b: seq<T>, t: Tile): (part: Partition<T>)
    requires g.Valid() && Operands(g, a, b) && Legal(g, t)
    ensures |part.rowBlock| == Times(RowLines(g, t), g.depth)
    ensures |part.colBlock| == Times(ColLines(g, t), g.depth)
  {
    RowBlockInBounds(g, t);
    ColBlockInBounds(g, t);
    var offsetR, sizeR := Times(FirstRow(g, t), g.depth), Times(RowLines(g, t), g.depth);
    var offsetC, sizeC := Times(FirstCol(g, t), g.depth), Times(ColLines(g, t), g.depth);
    Partition(t, g.depth, a[offsetR..offsetR + sizeR], b[offsetC..offsetC + sizeC])
  }

  // --------------------------------------------------------------------------
  // The order in which tiles are produced
  // --------------------------------------------------------------------------

  /** Tiles (0..p, r, c), one per leading index. */
  function PivotRun(r: nat, c: nat, p: nat): (ts: seq<Tile>)
    ensures |ts| == p
  {
    seq(p, k requires 0 <= k => Tile(k, r, c))
  }

  function ColRun(g: Geometry, r: nat, c: nat): seq<Tile> {
    if c == 0 then [] else ColRun(g, r, c - 1) + PivotRun(r, c - 1, g.batch)
  }

  function RowRun(g: Geometry, r: nat): seq<Tile>
    requires g.Valid()
  {
    if r == 0 then [] else RowRun(g, r - 1) + ColRun(g, r - 1, BlockCount(g.cols, g.block))
  }

  function Tiles(g: Geometry): seq<Tile>
    requires g.Valid()
  {
    RowRun(g, BlockCount(g.rows, g.block))
  }

  lemma {:induction false} ColRunTiles(g: Geometry, r: nat, c: nat)
    ensures forall t :: t in ColRun(g, r, c) <==> t.row == r && t.col < c && t.pivot < g.batch
    ensures NoRepeat(ColRun(g, r, c))
  {
    if c > 0 {
      ColRunTiles(g, r, c - 1);
      var last := PivotRun(r, c - 1, g.batch);
      forall t
        ensures t in last <==> t.row == r && t.col == c - 1 && t.pivot < g.batch
      {
        if t.row == r && t.col == c - 1 && t.pivot < g.batch {
          assert last[t.pivot] == t;
        }
      }
    }
  }

  lemma {:induction false} RowRunTiles(g: Geometry, r: nat)
    requires g.Valid()
    ensures forall t :: t in RowRun(g, r) <==>
              t.row < r && t.col < BlockCount(g.cols, g.block) && t.pivot < g.batch
    ensures NoRepeat(RowRun(g, r))
  {
    if r > 0 {
      RowRunTiles(g, r - 1);
      ColRunTiles(g, r - 1, BlockCount(g.cols, g.block));
    }
  }

  /** The tiles produced are the legal ones, each exactly once. */
  lemma {:induction false} TilesAreTheLegalOnes(g: Geometry)
    requires g.Valid()
    ensures forall t :: t in Tiles(g) <==> Legal(g, t)
    ensures NoRepeat(Tiles(g))
  {
    RowRunTiles(g, BlockCount(g.rows, g.block));
  }

  // --------------------------------------------------------------------------
  // The device: a column-major Level 3 BLAS GEMM call
  // --------------------------------------------------------------------------

  datatype GemmArgs<T> = GemmArgs(
    transa: char, transb: char,
    m: nat, n: nat, k: nat,
    alpha: T, a: seq<T>, lda: nat,
    b: seq<T>, ldb: nat,
    beta: T, c: seq<T>, ldc: nat)

  /** Where op(A)(i, l) is stored, column by column. */
  function AIndex<T>(args: GemmArgs<T>, i: nat, l: nat): nat {
    if args.transa == 'N' then i + Times(l, args.lda) else l + Times(i, args.lda)
  }

  /** Where op(B)(l, j) is stored. */
  function BIndex<T>(args: GemmArgs<T>, l: nat, j: nat): nat {
    if args.transb == 'N' then l + Times(j, args.ldb) else j + Times(l, args.ldb)
  }

  ghost predicate GemmReady<T>(args: GemmArgs<T>) {
    && (forall i: nat, l: nat {:trigger AIndex(args, i, l)} | i < args.m && l < args.k :: AIndex(args, i, l) < |args.a|)
    && (forall l: nat, j: nat {:trigger BIndex(args, l, j)} | l < args.k && j < args.n :: BIndex(args, l, j) < |args.b|)
    && args.m <= args.ldc && args.ldc > 0
    && |args.c| == Times(args.n, args.ldc)
  }

  ghost function OpALine<T>(args: GemmArgs<T>, i: nat): (s: seq<T>)
    requires GemmReady(args) && i < args.m
    ensures |s| == args.k
  {
    seq(args.k, l requires 0 <= l < args.k => args.a[AIndex(args, i, l)])
  }

  ghost function OpBLine<T>(args: GemmArgs<T>, j: nat): (s: seq<T>)
    requires GemmReady(args) && j < args.n
    ensures |s| == args.k
  {
    seq(args.k, l requires 0 <= l < args.k => args.b[BIndex(args, l, j)])
  }

  /** C(i, j) := alpha * op(A) op(B) + beta * C; C is not read when beta is zero. */
  ghost function GemmEntry<T>(ar: Arith<T>, args: GemmArgs<T>, i: nat, j: nat, old_c: T): T
    requires GemmReady(args) && i < args.m && j < args.n
  {
    var product := ar.mul(args.alpha, ar.dot(OpALine(args, i), OpBLine(args, j)));
    if args.beta == ar.zero then product else ar.add(product, ar.mul(args.beta, old_c))
  }

  /** `c` is what the call leaves in C: every entry computed, the gaps between columns untouched. */
  ghost predicate IsGemm<T>(ar: Arith<T>, args: GemmArgs<T>, c: seq<T>)
    requires GemmReady(args)
  {
    && |c| == |args.c|
    && (forall i: nat, j: nat | i < args.m && j < args.n :: EntryComputed(ar, args, c, i, j))
    && (forall i: nat, j: nat | args.m <= i < args.ldc && j < args.n :: GapUntouched(args, c, i, j))
  }

  ghost predicate EntryComputed<T>(ar: Arith<T>, args: GemmArgs<T>, c: seq<T>, i: nat, j: nat)
    requires GemmReady(args) && i < args.m && j < args.n
  {
    var at := Times(j, args.ldc) + i;
    at < |c| && at < |args.c| && c[at] == GemmEntry(ar, args, i, j, args.c[at])
  }

  ghost predicate GapUntouched<T>(args: GemmArgs<T>, c: seq<T>, i: nat, j: nat) {
    var at := Times(j, args.ldc) + i;
    at < |c| && at < |args.c| && c[at] == args.c[at]
  }

  function BuildGemmArgs<T>(ar: Arith<T>, colBlock: seq<T>, colSize: nat, rowBlock: seq<T>, rowSize: nat,
                            hDim: nat, out: seq<T>): GemmArgs<T>
  {
    GemmArgs('T', 'N', colSize, rowSize, hDim, ar.one, colBlock, hDim, rowBlock, hDim, ar.zero, out, colSize)
  }

  ghost predicate WholeRows<T>(m: seq<T>, h: nat, lines: nat) {
    h > 0 && |m| == Times(lines, h)
  }

  /** The device's call is within bounds, whatever the output buffer held before. */
  lemma {:induction false} DeviceCallReady<T>(ar: Arith<T>, rowBlock: seq<T>, rowSize: nat, colBlock: seq<T>,
                                              colSize: nat, h: nat, out: seq<T>)
    requires WholeRows(rowBlock, h, rowSize) && WholeRows(colBlock, h, colSize)
    requires colSize > 0 && |out| == Times(rowSize, colSize)
    ensures GemmReady(BuildGemmArgs(ar, colBlock, colSize, rowBlock, rowSize, h, out))
  {
    var args := BuildGemmArgs(ar, colBlock, colSize, rowBlock, rowSize, h, out);
    forall i: nat, l: nat | i < args.m && l < args.k
      ensures AIndex(args, i, l) < |args.a|
    {
      LineFits(colSize, h, i);
    }
    forall l: nat, j: nat | l < args.k && j < args.n
      ensures BIndex(args, l, j) < |args.b|
    {
      LineFits(rowSize, h, j);
    }
  }

  lemma {:induction false} TransposedLine<T>(args: GemmArgs<T>, i: nat)
    requires GemmReady(args) && i < args.m && args.transa == 'T' && args.lda == args.k
    requires Times(i, args.k) + args.k <= |args.a|
    ensures OpALine(args, i) == Row(args.a, args.k, i)
  {
  }

  lemma {:induction false} PlainLine<T>(args: GemmArgs<T>, j: nat)
    requires GemmReady(args) && j < args.n && args.transb == 'N' && args.ldb == args.k
    requires Times(j, args.k) + args.k <= |args.b|
    ensures OpBLine(args, j) == Row(args.b, args.k, j)
  {
  }

  /** `c` is what a device returns for two blocks; `out` is the uninitialised buffer it writes into. */
  ghost predicate IsDeviceBlock<T>(ar: Arith<T>, rowBlock: seq<T>, rowSize: nat, colBlock: seq<T>, colSize: nat, h: nat,
                                   out: seq<T>, c: seq<T>)
    requires WholeRows(rowBlock, h, rowSize) && WholeRows(colBlock, h, colSize)
    requires colSize > 0 && |out| == Times(rowSize, colSize)
  {
    DeviceCallReady(ar, rowBlock, rowSize, colBlock, colSize, h, out);
    IsGemm(ar, BuildGemmArgs(ar, colBlock, colSize, rowBlock, rowSize, h, out), c)
  }

  /** With alpha one and beta zero, an entry is the dot product of its two lines. */
  lemma {:induction false} UnscaledEntry<T(!new)>(ar: Arith<T>, args: GemmArgs<T>, c: seq<T>, i: nat, j: nat)
    requires Lawful(ar) && GemmReady(args) && args.alpha == ar.one && args.beta == ar.zero
    requires i < args.m && j < args.n && EntryComputed(ar, args, c, i, j)
    ensures Times(j, args.ldc) + i < |c|
    ensures c[Times(j, args.ldc) + i] == ar.dot(OpALine(args, i), OpBLine(args, j))
  {
  }

  /** Read row-major, the column-major result is rowBlock times colBlock transposed. */
  lemma {:induction false} DeviceBlockEntry<T(!new)>(ar: Arith<T>, rowBlock: seq<T>, rowSize: nat, colBlock: seq<T>,
                                                     colSize: nat, h: nat, out: seq<T>, c: seq<T>,
                                                     i: nat, j: nat)
    requires Lawful(ar)
    requires WholeRows(rowBlock, h, rowSize) && WholeRows(colBlock, h, colSize)
    requires i < rowSize && j < colSize && |out| == Times(rowSize, colSize)
    requires IsDeviceBlock(ar, rowBlock, rowSize, colBlock, colSize, h, out, c)
    ensures Times(i, h) + h <= |rowBlock| && Times(j, h) + h <= |colBlock|
    ensures Times(i, colSize) + j < |c|
    ensures c[Times(i, colSize) + j] == ar.dot(Row(rowBlock, h, i), Row(colBlock, h, j))
  {
    var args := BuildGemmArgs(ar, colBlock, colSize, rowBlock, rowSize, h, out);
    LineFits(rowSize, h, i);
    LineFits(colSize, h, j);
    DeviceCallReady(ar, rowBlock, rowSize, colBlock, colSize, h, out);
    assert EntryComputed(ar, args, c, j, i);
    UnscaledEntry(ar, args, c, j, i);
    TransposedLine(args, j);
    PlainLine(args, i);
    var x, y := Row(colBlock, h, j), Row(rowBlock, h, i);
    assert ar.dot(x, y) == ar.dot(y, x);
  }

  /** `c` is a device's answer for a tile of A and B. */
  ghost predicate IsTileAnswer<T>(g: Geometry, ar: Arith<T>, a: seq<T>, b: seq<T>, t: Tile, out: seq<T>, c: seq<T>)
    requires g.Valid() && Operands(g, a, b) && Legal(g, t)
  {
    && |out| == Times(RowLines(g, t), ColLines(g, t))
    && var part := CalculateMatrixPartition(g, a, b, t);
       IsDeviceBlock(ar, part.rowBlock, RowLines(g, t), part.colBlock, ColLines(g, t), part.hDim, out, c)
  }

  /** A device recovers a tile's height and width from its blocks' lengths and hDim alone. */
  lemma {:induction false} PartitionSizes<T>(g: Geometry, a: seq<T>, b: seq<T>, t: Tile)
    requires g.Valid() && Operands(g, a, b) && Legal(g, t)
    ensures |CalculateMatrixPartition(g, a, b, t).rowBlock| / g.depth == RowLines(g, t)
    ensures |CalculateMatrixPartition(g, a, b, t).colBlock| / g.depth == ColLines(g, t)
  {
    DivModUnique(RowLines(g, t), 0, g.depth);
    DivModUnique(ColLines(g, t), 0, g.depth);
  }

  /** The server recovers an answer's height from its length and its width, sent as hDim. */
  lemma {:induction false} AnswerHeight<T>(g: Geometry, t: Tile, block: seq<T>)
    requires g.Valid() && Legal(g, t) && |block| == Times(RowLines(g, t), ColLines(g, t))
    ensures |block| / ColLines(g, t) == RowLines(g, t)
  {
    DivModUnique(RowLines(g, t), 0, ColLines(g, t));
  }

  lemma {:induction false} SliceOfSlice<T>(m: seq<T>, f: nat, n: nat, k: nat, h: nat)
    requires f + n <= |m| && k + h <= n
    ensures m[f..f + n][k..k + h] == m[f + k..f + k + h]
  {
    var inner, left, right := m[f..f + n], m[f..f + n][k..k + h], m[f + k..f + k + h];
    assert forall x | 0 <= x < h :: left[x] == inner[k + x] && right[x] == m[f + (k + x)];
    assert left == right;
  }

  lemma {:induction false} BlockRowIsMatrixRow<T>(m: seq<T>, block: seq<T>, h: nat, first: nat, lines: nat, i: nat)
    requires Times(first, h) + Times(lines, h) <= |m|
    requires block == m[Times(first, h)..Times(first, h) + Times(lines, h)]
    requires i < lines
    ensures Times(i, h) + h <= |block|
    ensures Times(first + i, h) + h <= |m|
    ensures Row(block, h, i) == Row(m, h, first + i)
  {
    LineFits(lines, h, i);
    TimesAdd(first, i, h);
    SliceOfSlice(m, Times(first, h), Times(lines, h), Times(i, h), h);
  }

  lemma {:induction false} PartitionRow<T>(g: Geometry, a: seq<T>, b: seq<T>, t: Tile, i: nat)
    requires g.Valid() && Operands(g, a, b) && Legal(g, t) && i < RowLines(g, t)
    ensures Times(i, g.depth) + g.depth <= |CalculateMatrixPartition(g, a, b, t).rowBlock|
    ensures Times(Times(t.pivot, g.rows) + (Top(g, t) + i), g.depth) + g.depth <= |a|
    ensures Row(CalculateMatrixPartition(g, a, b, t).rowBlock, g.depth, i)
            == Row(a, g.depth, Times(t.pivot, g.rows) + (Top(g, t) + i))
  {
    RowBlockInBounds(g, t);
    BlockRowIsMatrixRow(a, CalculateMatrixPartition(g, a, b, t).rowBlock, g.depth, FirstRow(g, t), RowLines(g, t), i);
  }

  lemma {:induction false} PartitionCol<T>(g: Geometry, a: seq<T>, b: seq<T>, t: Tile, j: nat)
    requires g.Valid() && Operands(g, a, b) && Legal(g, t) && j < ColLines(g, t)
    ensures Times(j, g.depth) + g.depth <= |CalculateMatrixPartition(g, a, b, t).colBlock|
    ensures Times(Times(g.BPivot(t.pivot), g.cols) + (Left(g, t) + j), g.depth) + g.depth <= |b|
    ensures Row(CalculateMatrixPartition(g, a, b, t).colBlock, g.depth, j)
            == Row(b, g.depth, Times(g.BPivot(t.pivot), g.cols) + (Left(g, t) + j))
  {
    ColBlockInBounds(g, t);
    BlockRowIsMatrixRow(b, CalculateMatrixPartition(g, a, b, t).colBlock, g.depth, FirstCol(g, t), ColLines(g, t), j);
  }

  /** Cell by cell, a device's answer is the reference product. */
  lemma {:induction false} TileAnswerEntry<T(!new)>(g: Geometry, ar: Arith<T>, a: seq<T>, b: seq<T>, t: Tile,
                                                    out: seq<T>, c: seq<T>, i: nat, j: nat)
    requires Lawful(ar) && g.Valid() && Operands(g, a, b) && Legal(g, t)
    requires IsTileAnswer(g, ar, a, b, t, out, c)
    requires i < RowLines(g, t) && j < ColLines(g, t)
    ensures CellRight(g, ar, a, b, t, c, i, j)
  {
    var part := CalculateMatrixPartition(g, a, b, t);
    DeviceBlockEntry(ar, part.rowBlock, RowLines(g, t), part.colBlock, ColLines(g, t), g.depth, out, c, i, j);
    PartitionRow(g, a, b, t, i);
    PartitionCol(g, a, b, t, j);
  }

  /** Entry (i, j) of a tile's block is the product's entry at the tile's cell (i, j). */
  ghost predicate CellRight<T>(g: Geometry, ar: Arith<T>, a: seq<T>, b: seq<T>, t: Tile, block: seq<T>, i: nat, j: nat)
    requires g.Valid() && Operands(g, a, b) && Legal(g, t)
    requires i < RowLines(g, t) && j < ColLines(g, t)
  {
    && Times(i, ColLines(g, t)) + j < |block|
    && block[Times(i, ColLines(g, t)) + j] == Entry(g, ar, a, b, t.pivot, Top(g, t) + i, Left(g, t) + j)
  }

  /** A block that holds tile t of the reference product. */
  ghost predicate IsTileResult<T>(g: Geometry, ar: Arith<T>, a: seq<T>, b: seq<T>, t: Tile, block: seq<T>)
    requires g.Valid() && Operands(g, a, b) && Legal(g, t)
  {
    && |block| == Times(RowLines(g, t), ColLines(g, t))
    && forall i: nat, j: nat | i < RowLines(g, t) && j < ColLines(g, t) :: CellRight(g, ar, a, b, t, block, i, j)
  }

  lemma {:induction false} TileAnswerIsResult<T(!new)>(g: Geometry, ar: Arith<T>, a: seq<T>, b: seq<T>, t: Tile,
                                                       out: seq<T>, c: seq<T>)
    requires Lawful(ar) && g.Valid() && Operands(g, a, b) && Legal(g, t)
    requires IsTileAnswer(g, ar, a, b, t, out, c)
    ensures IsTileResult(g, ar, a, b, t, c)
  {
    forall i: nat, j: nat | i < RowLines(g, t) && j < ColLines(g, t)
      ensures CellRight(g, ar, a, b, t, c, i, j)
    {
      TileAnswerEntry(g, ar, a, b, t, out, c, i, j);
    }
  }

  // --------------------------------------------------------------------------
  // Writing a tile back: IndexPutMatrixBlock
  // --------------------------------------------------------------------------

  /** The last of k rows, one `stride` apart from `base`, ends inside. */
  predicate RowsFit(size: nat, base: nat, stride: nat, width: nat, k: nat) {
    k == 0 || base + Times(k - 1, stride) + width <= size
  }

  /** `row` laid over `out` from `at`. */
  function PutRow<T>(out: seq<T>, at: nat, row: seq<T>): (res: seq<T>)
    requires at + |row| <= |out|
    ensures |res| == |out|
  {
    seq(|out|, idx requires 0 <= idx < |out| => if at <= idx < at + |row| then row[idx - at] else out[idx])
  }

  /** Entry idx after rows 0..k of a block of `width` columns are laid, one `stride` apart from `base`, over `out`. */
  function CellAfter<T>(out: seq<T>, base: nat, stride: nat, block: seq<T>, width: nat, k: nat, idx: nat): T
    requires idx < |out| && 0 < width <= stride && Times(k, width) <= |block|
  {
    if base <= idx && (idx - base) / stride < k && (idx - base) % stride < width then
      LineFits(k, width, (idx - base) / stride);
      block[Times((idx - base) / stride, width) + (idx - base) % stride]
    else out[idx]
  }

  function PutRows<T>(out: seq<T>, base: nat, stride: nat, block: seq<T>, width: nat, k: nat): (res: seq<T>)
    requires 0 < width <= stride && Times(k, width) <= |block|
    ensures |res| == |out|
  {
    seq(|out|, idx requires 0 <= idx < |out| => CellAfter(out, base, stride, block, width, k, idx))
  }

  ghost predicate BlockFits(g: Geometry, t: Tile, height: nat, width: nat) {
    && t.pivot < g.batch
    && Top(g, t) + height <= g.rows
    && Left(g, t) + width <= g.cols
  }

  function PutBase(g: Geometry, t: Tile): nat {
    Times(Times(t.pivot, g.rows), g.cols) + Times(Top(g, t), g.cols) + Left(g, t)
  }

  lemma {:induction false} PutBaseIsFlat(g: Geometry, t: Tile, r: nat)
    ensures PutBase(g, t) + Times(r, g.cols) == Flat(g, t.pivot, Top(g, t) + r, Left(g, t))
  {
    TimesAdd(Times(t.pivot, g.rows), Top(g, t), g.cols);
    TimesAdd(Times(t.pivot, g.rows) + Top(g, t), r, g.cols);
  }

  lemma {:induction false} PutRowsFit(g: Geometry, t: Tile, height: nat, width: nat)
    requires BlockFits(g, t, height, width) && 0 < width
    ensures RowsFit(g.CSize(), PutBase(g, t), g.cols, width, height)
  {
    if height > 0 {
      PutBaseIsFlat(g, t, height - 1);
      FlatBound(g, t.pivot, Top(g, t) + height - 1, Left(g, t) + width - 1);
    }
  }

  predicate InBlock(g: Geometry, t: Tile, height: nat, width: nat, p: nat, i: nat, j: nat) {
    && p == t.pivot
    && Top(g, t) <= i < Top(g, t) + height
    && Left(g, t) <= j < Left(g, t) + width
  }

  /** One copied row touches only cells of that row of the block. */
  lemma {:induction false} RowWindow(g: Geometry, t: Tile, height: nat, width: nat, r: nat, p: nat, i: nat, j: nat)
    requires BlockFits(g, t, height, width) && 0 < width && r < height && g.Cell(p, i, j)
    ensures PutBase(g, t) + Times(r, g.cols) <= Flat(g, p, i, j) < PutBase(g, t) + Times(r, g.cols) + width
            ==> p == t.pivot && i == Top(g, t) + r && Left(g, t) <= j < Left(g, t) + width
  {
    PutBaseIsFlat(g, t, r);
    var at := PutBase(g, t) + Times(r, g.cols);
    var idx := Flat(g, p, i, j);
    if at <= idx < at + width {
      var j' := Left(g, t) + (idx - at);
      assert idx == Flat(g, t.pivot, Top(g, t) + r, j');
      FlatInjective(g, p, i, j, t.pivot, Top(g, t) + r, j');
    }
  }

  lemma {:induction false} CellInside<T>(out: seq<T>, base: nat, stride: nat, block: seq<T>, width: nat, k: nat,
                                         r: nat, x: nat, idx: nat)
    requires Times(k, width) <= |block| && x < width <= stride && r < k && idx < |out|
    requires base <= idx && (idx - base) / stride == r && (idx - base) % stride == x
    ensures Times(r, width) + x < |block|
    ensures CellAfter(out, base, stride, block, width, k, idx) == block[Times(r, width) + x]
  {
    LineFits(k, width, r);
  }

  lemma {:induction false} PutRowsInside<T>(out: seq<T>, base: nat, stride: nat, block: seq<T>, width: nat, k: nat,
                                            r: nat, x: nat)
    requires Times(k, width) <= |block| && x < width <= stride && r < k
    requires base + Times(r, stride) + x < |out|
    ensures Times(r, width) + x < |block|
    ensures PutRows(out, base, stride, block, width, k)[base + Times(r, stride) + x] == block[Times(r, width) + x]
  {
    DivModUnique(r, x, stride);
    CellInside(out, base, stride, block, width, k, r, x, base + Times(r, stride) + x);
  }

  lemma {:induction false} PutRowsOutside<T>(out: seq<T>, base: nat, stride: nat, block: seq<T>, width: nat, k: nat,
                                             idx: nat)
    requires 0 < width <= stride && Times(k, width) <= |block| && idx < |out|
    requires forall r: nat | r < k :: !(base + Times(r, stride) <= idx < base + Times(r, stride) + width)
    ensures PutRows(out, base, stride, block, width, k)[idx] == out[idx]
  {
    if base <= idx {
      DivMod(idx - base, stride);
    }
  }

  /** The copy loop's effect on a cell inside the block. */
  lemma {:induction false} PutRowsCellIn<T>(g: Geometry, out: seq<T>, t: Tile, height: nat, width: nat, block: seq<T>,
                                            p: nat, i: nat, j: nat)
    requires |out| == g.CSize() && BlockFits(g, t, height, width) && |block| == Times(height, width)
    requires g.Cell(p, i, j) && InBlock(g, t, height, width, p, i, j)
    ensures Flat(g, p, i, j) < |out| && Times(i - Top(g, t), width) + (j - Left(g, t)) < |block|
    ensures PutRows(out, PutBase(g, t), g.cols, block, width, height)[Flat(g, p, i, j)]
            == block[Times(i - Top(g, t), width) + (j - Left(g, t))]
  {
    FlatBound(g, p, i, j);
    PutBaseIsFlat(g, t, i - Top(g, t));
    PutRowsInside(out, PutBase(g, t), g.cols, block, width, height, i - Top(g, t), j - Left(g, t));
  }

  /** The copy loop leaves a cell outside the block alone. */
  lemma {:induction false} PutRowsCellOut<T>(g: Geometry, out: seq<T>, t: Tile, height: nat, width: nat,
                                             block: seq<T>, p: nat, i: nat, j: nat)
    requires |out| == g.CSize() && BlockFits(g, t, height, width) && |block| == Times(height, width) && 0 < width
    requires g.Cell(p, i, j) && !InBlock(g, t, height, width, p, i, j)
    ensures Flat(g, p, i, j) < |out|
    ensures PutRows(out, PutBase(g, t), g.cols, block, width, height)[Flat(g, p, i, j)] == out[Flat(g, p, i, j)]
  {
    PutRowsFit(g, t, height, width);
    FlatBound(g, p, i, j);
    forall r: nat | r < height
      ensures !(PutBase(g, t) + Times(r, g.cols) <= Flat(g, p, i, j) < PutBase(g, t) + Times(r, g.cols) + width)
    {
      RowWindow(g, t, height, width, r, p, i, j);
    }
    PutRowsOutside(out, PutBase(g, t), g.cols, block, width, height, Flat(g, p, i, j));
  }

  /** memcpy of one row. */
  method CopyRow<T>(target: array<T>, at: nat, block: seq<T>, from: nat, width: nat)
    requires at + width <= target.Length && from + width <= |block|
    modifies target
    ensures target[..] == PutRow(old(target[..]), at, block[from..from + width])
  {
    forall x | 0 <= x < width {
      target[at + x] := block[from + x];
    }
  }

  lemma {:induction false} NextCell<T>(out: seq<T>, base: nat, stride: nat, block: seq<T>, width: nat, i: nat, idx: nat)
    requires 0 < width <= stride && Times(i, width) + width <= |block|
    requires base + Times(i, stride) + width <= |out| && idx < |out|
    ensures Times(i + 1, width) <= |block|
    ensures CellAfter(out, base, stride, block, width, i + 1, idx)
            == (if base + Times(i, stride) <= idx < base + Times(i, stride) + width
                then block[Times(i, width) + (idx - (base + Times(i, stride)))]
                else CellAfter(out, base, stride, block, width, i, idx))
  {
    var at := base + Times(i, stride);
    if at <= idx < at + width {
      DivModUnique(i, idx - at, stride);
    } else if base <= idx {
      DivMod(idx - base, stride);
    }
  }

  /** One more row copied is one more row in place. */
  lemma {:induction false} PutRowsNext<T>(out: seq<T>, base: nat, stride: nat, block: seq<T>, width: nat, i: nat)
    requires 0 < width <= stride && Times(i, width) + width <= |block|
    requires base + Times(i, stride) + width <= |out|
    ensures Times(i + 1, width) <= |block|
    ensures PutRows(out, base, stride, block, width, i + 1)
            == PutRow(PutRows(out, base, stride, block, width, i), base + Times(i, stride),
              block[Times(i, width)..Times(i, width) + width])
  {
    var row := block[Times(i, width)..Times(i, width) + width];
    var left := PutRows(out, base, stride, block, width, i + 1);
    var right := PutRow(PutRows(out, base, stride, block, width, i), base + Times(i, stride), row);
    forall idx | 0 <= idx < |left|
      ensures left[idx] == right[idx]
    {
      NextCell(out, base, stride, block, width, i, idx);
    }
  }

  /** Copies the rows of a block, one by one. */
  method CopyRows<T>(target: array<T>, base: nat, stride: nat, block: seq<T>, width: nat, height: nat)
    requires 0 < width <= stride && RowsFit(target.Length, base, stride, width, height)
             && Times(height, width) <= |block|
    modifies target
    ensures target[..] == PutRows(old(target[..]), base, stride, block, width, height)
  {
    ghost var start := target[..];
    for i := 0 to height
      invariant Times(i, width) <= |block|
      invariant target[..] == PutRows(start, base, stride, block, width, i)
    {
      LineFits(height, width, i);
      TimesMono(i, height - 1, stride);
      PutRowsNext(start, base, stride, block, width, i);
      CopyRow(target, base + Times(i, stride), block, Times(i, width), width);
    }
  }

  /** Copies a block, row by row, into the output tensor's storage. */
  method IndexPutMatrixBlock<T>(g: Geometry, target: array<T>, block: seq<T>, height: nat, width: nat, t: Tile)
    requires target.Length == g.CSize() && BlockFits(g, t, height, width) && 0 < width
    requires |block| == Times(height, width)
    modifies target
    ensures target[..] == PutRows(old(target[..]), PutBase(g, t), g.cols, block, width, height)
  {
    PutRowsFit(g, t, height, width);
    CopyRows(target, PutBase(g, t), g.cols, block, width, height);
  }

  /** The value-level effect of delivering a tile's block. */
  function PutTile<T>(g: Geometry, out: seq<T>, t: Tile, block: seq<T>): (res: seq<T>)
    requires g.Valid() && Legal(g, t) && |out| == g.CSize()
    requires |block| == Times(RowLines(g, t), ColLines(g, t))
    ensures |res| == |out|
  {
    PutRowsFit(g, t, RowLines(g, t), ColLines(g, t));
    PutRows(out, PutBase(g, t), g.cols, block, ColLines(g, t), RowLines(g, t))
  }

  // --------------------------------------------------------------------------
  // Cutting, computing and writing back give A times B transposed
  // --------------------------------------------------------------------------

  /** Tile t of the output holds what the reference product holds there. */
  ghost predicate TileDone<T>(g: Geometry, ar: Arith<T>, a: seq<T>, b: seq<T>, out: seq<T>, t: Tile)
    requires Operands(g, a, b)
  {
    && |out| == g.CSize()
    && forall p: nat, i: nat, j: nat {:trigger Flat(g, p, i, j)} | g.Cell(p, i, j) && Covers(g, t, p, i, j) ::
         Flat(g, p, i, j) < |out| && out[Flat(g, p, i, j)] == Entry(g, ar, a, b, p, i, j)
  }

  /** Within the matrix, a tile's cells are exactly the block's rows and columns. */
  lemma {:induction false} CoversIsInBlock(g: Geometry, t: Tile, p: nat, i: nat, j: nat)
    requires g.Valid() && Legal(g, t) && g.Cell(p, i, j)
    ensures Covers(g, t, p, i, j) <==> InBlock(g, t, RowLines(g, t), ColLines(g, t), p, i, j)
  {
  }

  lemma {:induction false} PutTileCell<T>(g: Geometry, ar: Arith<T>, a: seq<T>, b: seq<T>, out: seq<T>, t: Tile,
                                          block: seq<T>, p: nat, i: nat, j: nat)
    requires g.Valid() && Operands(g, a, b) && Legal(g, t)
    requires |out| == g.CSize() && IsTileResult(g, ar, a, b, t, block)
    requires g.Cell(p, i, j)
    ensures Flat(g, p, i, j) < |out|
    ensures PutTile(g, out, t, block)[Flat(g, p, i, j)]
            == if Covers(g, t, p, i, j) then Entry(g, ar, a, b, p, i, j) else out[Flat(g, p, i, j)]
  {
    CoversIsInBlock(g, t, p, i, j);
    if Covers(g, t, p, i, j) {
      PutRowsCellIn(g, out, t, RowLines(g, t), ColLines(g, t), block, p, i, j);
      assert CellRight(g, ar, a, b, t, block, i - Top(g, t), j - Left(g, t));
    } else {
      PutRowsCellOut(g, out, t, RowLines(g, t), ColLines(g, t), block, p, i, j);
    }
  }

  /** Delivering a tile completes it and leaves every other tile's cells alone. */
  lemma {:induction false} PutTileDone<T>(g: Geometry, ar: Arith<T>, a: seq<T>, b: seq<T>, out: seq<T>, t: Tile,
                                          block: seq<T>)
    requires g.Valid() && Operands(g, a, b) && Legal(g, t)
    requires |out| == g.CSize() && IsTileResult(g, ar, a, b, t, block)
    ensures TileDone(g, ar, a, b, PutTile(g, out, t, block), t)
    ensures forall t' | t' != t && TileDone(g, ar, a, b, out, t') ::
              TileDone(g, ar, a, b, PutTile(g, out, t, block), t')
  {
    var res := PutTile(g, out, t, block);
    forall p: nat, i: nat, j: nat | g.Cell(p, i, j) && Covers(g, t, p, i, j)
      ensures Flat(g, p, i, j) < |res| && res[Flat(g, p, i, j)] == Entry(g, ar, a, b, p, i, j)
    {
      PutTileCell(g, ar, a, b, out, t, block, p, i, j);
    }
    forall t' | t' != t && TileDone(g, ar, a, b, out, t')
      ensures TileDone(g, ar, a, b, res, t')
    {
      forall p: nat, i: nat, j: nat | g.Cell(p, i, j) && Covers(g, t', p, i, j)
        ensures Flat(g, p, i, j) < |res| && res[Flat(g, p, i, j)] == Entry(g, ar, a, b, p, i, j)
      {
        ExactlyOneTile(g, p, i, j);
        PutTileCell(g, ar, a, b, out, t, block, p, i, j);
      }
    }
  }

  /** Once every tile is done the output is the product. */
  lemma {:induction false} AllTilesDone<T>(g: Geometry, ar: Arith<T>, a: seq<T>, b: seq<T>, out: seq<T>)
    requires g.Valid() && Operands(g, a, b) && |out| == g.CSize()
    requires forall t | Legal(g, t) :: TileDone(g, ar, a, b, out, t)
    ensures IsProduct(g, ar, a, b, out)
  {
    forall p: nat, i: nat, j: nat | g.Cell(p, i, j)
      ensures Flat(g, p, i, j) < |out| && out[Flat(g, p, i, j)] == Entry(g, ar, a, b, p, i, j)
    {
      ExactlyOneTile(g, p, i, j);
      assert TileDone(g, ar, a, b, out, Owner(g, p, i, j));
    }
  }

  /** A tile's answer, computed into a buffer with arbitrary contents. */
  datatype Arrival<T> = Arrival(tile: Tile, scratch: seq<T>, block: seq<T>)

  ghost predicate ArrivalOk<T>(g: Geometry, ar: Arith<T>, a: seq<T>, b: seq<T>, x: Arrival<T>)
    requires g.Valid() && Operands(g, a, b)
  {
    && Legal(g, x.tile)
    && |x.block| == Times(RowLines(g, x.tile), ColLines(g, x.tile))
    && IsTileAnswer(g, ar, a, b, x.tile, x.scratch, x.block)
  }

  ghost predicate ArrivalsOk<T>(g: Geometry, ar: Arith<T>, a: seq<T>, b: seq<T>, order: seq<Arrival<T>>)
    requires g.Valid() && Operands(g, a, b)
  {
    forall k | 0 <= k < |order| :: ArrivalOk(g, ar, a, b, order[k])
  }

  ghost function WriteBack<T>(g: Geometry, ar: Arith<T>, a: seq<T>, b: seq<T>, out: seq<T>,
                              order: seq<Arrival<T>>): (res: seq<T>)
    requires g.Valid() && Operands(g, a, b) && |out| == g.CSize() && ArrivalsOk(g, ar, a, b, order)
    ensures |res| == |out|
    decreases |order|
  {
    if order == [] then out
    else
      var last := order[|order| - 1];
      assert ArrivalOk(g, ar, a, b, last);
      PutTile(g, WriteBack(g, ar, a, b, out, order[..|order| - 1]), last.tile, last.block)
  }

  lemma {:induction false} WriteBackDone<T(!new)>(g: Geometry, ar: Arith<T>, a: seq<T>, b: seq<T>, out: seq<T>,
                                                  order: seq<Arrival<T>>, k: nat)
    requires Lawful(ar) && g.Valid() && Operands(g, a, b) && |out| == g.CSize() && ArrivalsOk(g, ar, a, b, order)
    requires k < |order|
    ensures TileDone(g, ar, a, b, WriteBack(g, ar, a, b, out, order), order[k].tile)
    decreases |order|
  {
    var n := |order| - 1;
    var last := order[n];
    var before := WriteBack(g, ar, a, b, out, order[..n]);
    TileAnswerIsResult(g, ar, a, b, last.tile, last.scratch, last.block);
    PutTileDone(g, ar, a, b, before, last.tile, last.block);
    if order[k].tile != last.tile {
      WriteBackDone(g, ar, a, b, out, order[..n], k);
    }
  }

  /**
   For every geometry, ragged or not, and every order in which all tiles arrive, the
   output is exactly A times B transposed, whatever it was filled with.
   */
  lemma {:induction false} TiledProduct<T(!new)>(g: Geometry, ar: Arith<T>, a: seq<T>, b: seq<T>, out: seq<T>,
                                                 order: seq<Arrival<T>>)
    requires Lawful(ar) && g.Valid() && Operands(g, a, b) && |out| == g.CSize() && ArrivalsOk(g, ar, a, b, order)
    requires forall t | t in Tiles(g) :: exists k :: 0 <= k < |order| && order[k].tile == t
    ensures IsProduct(g, ar, a, b, WriteBack(g, ar, a, b, out, order))
  {
    TilesAreTheLegalOnes(g);
    var res := WriteBack(g, ar, a, b, out, order);
    forall t | Legal(g, t)
      ensures TileDone(g, ar, a, b, res, t)
    {
      assert t in Tiles(g);
      var k :| 0 <= k < |order| && order[k].tile == t;
      WriteBackDone(g, ar, a, b, out, order, k);
    }
    AllTilesDone(g, ar, a, b, res);
  }
}
