/**
 Tensors over the tiling: shapes with leading dimensions, the enumeration of leading
 indices, the list of partitions handed to devices, and the output tensor.
 */
module Shapes {
  import opened Nonlinear
  import opened Tiling

  /** A contiguous row-major tensor. */
  datatype Tensor<T> = Tensor(shape: seq<nat>, data: seq<T>) {
    ghost predicate Contiguous() {
      |data| == Volume(shape)
    }
  }

  function Volume(shape: seq<nat>): nat {
    if shape == [] then 1 else Times(Volume(shape[..|shape| - 1]), shape[|shape| - 1])
  }

  ghost predicate IsIndex(shape: seq<nat>, v: seq<nat>) {
    |v| == |shape| && forall k | 0 <= k < |v| :: v[k] < shape[k]
  }

  /** Row-major position of an index vector. */
  function Rank(shape: seq<nat>, v: seq<nat>): nat
    requires |v| == |shape|
  {
    if shape == [] then 0
    else
      var n := |shape| - 1;
      Times(Rank(shape[..n], v[..n]), shape[n]) + v[n]
  }

  lemma {:induction false} RankBound(shape: seq<nat>, v: seq<nat>)
    requires IsIndex(shape, v)
    ensures Rank(shape, v) < Volume(shape)
  {
    if shape != [] {
      var n := |shape| - 1;
      RankBound(shape[..n], v[..n]);
      LineFits(Volume(shape[..n]), shape[n], Rank(shape[..n], v[..n]));
    }
  }

  lemma {:induction false} RankInjective(shape: seq<nat>, v: seq<nat>, w: seq<nat>)
    requires IsIndex(shape, v) && IsIndex(shape, w) && Rank(shape, v) == Rank(shape, w)
    ensures v == w
  {
    if shape != [] {
      var n := |shape| - 1;
      MixedRadixInjective(Rank(shape[..n], v[..n]), v[n], Rank(shape[..n], w[..n]), w[n], shape[n]);
      RankInjective(shape[..n], v[..n], w[..n]);
      assert v == v[..n] + [v[n]] && w == w[..n] + [w[n]];
    }
  }

  lemma {:induction false} RankExtend(shape: seq<nat>, v: seq<nat>, d: nat, e: nat)
    requires |v| == |shape|
    ensures Rank(shape + [d], v + [e]) == Times(Rank(shape, v), d) + e
    ensures Volume(shape + [d]) == Times(Volume(shape), d)
  {
    assert (shape + [d])[..|shape|] == shape;
    assert (v + [e])[..|v|] == v;
  }

  /** Position k of an enumeration holds the index vector of rank k. */
  ghost predicate Enumerates(shape: seq<nat>, combos: seq<seq<nat>>, upTo: nat) {
    && |combos| == upTo
    && forall k | 0 <= k < upTo :: IsIndex(shape, combos[k]) && Rank(shape, combos[k]) == k
  }

  /** An enumeration up to the volume lists every index vector, and each only once. */
  lemma {:induction false} EnumeratesAll(shape: seq<nat>, combos: seq<seq<nat>>, v: seq<nat>)
    requires Enumerates(shape, combos, Volume(shape)) && IsIndex(shape, v)
    ensures Rank(shape, v) < |combos| && forall k | 0 <= k < |combos| :: combos[k] == v <==> k == Rank(shape, v)
  {
    RankBound(shape, v);
    RankInjective(shape, combos[Rank(shape, v)], v);
  }

  /** All leading indices, in memory order; nothing at all for an empty list. */
  method CartesianProduct(list: seq<nat>) returns (result: seq<seq<nat>>)
    ensures list == [] ==> result == []
    ensures list != [] ==> Enumerates(list, result, Volume(list))
  {
    result := [];
    if list == [] {
      return;
    }
    result := [[]];
    for n := 0 to |list|
      invariant Enumerates(list[..n], result, Volume(list[..n]))
    {
      result := Extend(list[..n], result, list[n]);
      assert list[..n] + [list[n]] == list[..n + 1];
      RankExtend(list[..n], list[..n], list[n], 0);
    }
    assert list[..|list|] == list;
  }

  method Extend(shape: seq<nat>, combos: seq<seq<nat>>, d: nat) returns (temp: seq<seq<nat>>)
    requires Enumerates(shape, combos, |combos|)
    ensures Enumerates(shape + [d], temp, Times(|combos|, d))
  {
    temp := [];
    for q := 0 to |combos|
      invariant Enumerates(shape + [d], temp, Times(q, d))
    {
      for e := 0 to d
        invariant Enumerates(shape + [d], temp, Times(q, d) + e)
      {
        RankExtend(shape, combos[q], d, e);
        temp := temp + [combos[q] + [e]];
      }
    }
  }

  // --------------------------------------------------------------------------
  // Operand shapes
  // --------------------------------------------------------------------------

  function Lead(shape: seq<nat>): seq<nat>
    requires |shape| >= 2
  {
    shape[..|shape| - 2]
  }

  /** B is two-dimensional or has A's leading dimensions, and both share the inner dimension. */
  ghost predicate Compatible(a: seq<nat>, b: seq<nat>) {
    && |a| >= 2 && |b| >= 2
    && a[|a| - 1] == b[|b| - 1] && a[|a| - 1] > 0
    && (|b| == 2 || Lead(a) == Lead(b))
  }

  function GeometryOf(a: seq<nat>, b: seq<nat>, block: nat): Geometry
    requires |a| >= 2 && |b| >= 2
  {
    Geometry(Volume(Lead(a)), a[|a| - 2], b[|b| - 2], a[|a| - 1], block, |b| == 2)
  }

  lemma {:induction false} VolumeSplit(shape: seq<nat>)
    requires |shape| >= 2
    ensures Volume(shape) == Times(Times(Volume(Lead(shape)), shape[|shape| - 2]), shape[|shape| - 1])
  {
    var n := |shape| - 1;
    assert shape[..n][..n - 1] == Lead(shape);
  }

  lemma {:induction false} RankSplit(shape: seq<nat>, v: seq<nat>, i: nat, l: nat)
    requires |shape| >= 2 && |v| == |shape| - 2
    ensures Rank(shape, v + [i, l])
            == Times(Times(Rank(Lead(shape), v), shape[|shape| - 2]) + i, shape[|shape| - 1]) + l
  {
    var rows, cols := shape[|shape| - 2], shape[|shape| - 1];
    assert shape == Lead(shape) + [rows] + [cols] && v + [i, l] == v + [i] + [l];
    RankExtend(Lead(shape), v, rows, i);
    RankExtend(Lead(shape) + [rows], v + [i], cols, l);
  }

  /** Contiguous tensors of compatible shapes are operands of their geometry. */
  lemma {:induction false} TensorsAreOperands<T>(a: Tensor<T>, b: Tensor<T>, block: nat)
    requires Compatible(a.shape, b.shape) && a.Contiguous() && b.Contiguous()
    ensures Operands(GeometryOf(a.shape, b.shape, block), a.data, b.data)
  {
    VolumeSplit(a.shape);
    VolumeSplit(b.shape);
  }

  datatype Shaped = Shaped(shape: seq<nat>) | DimensionMismatch

  function CreateOutputMatrix(a: seq<nat>, b: seq<nat>): Shaped
    requires |a| >= 2 && |b| >= 2
  {
    var inDim, outDim := a[|a| - 2], b[|b| - 2];
    if |a| == 2 && |b| == 2 then Shaped([inDim, outDim])
    else if |a| > 2 && |b| == 2 then Shaped(Lead(a) + [inDim, outDim])
    else if Lead(a) != Lead(b) then DimensionMismatch
    else Shaped(Lead(a) + [inDim, outDim])
  }

  /** The output has room for exactly the geometry's cells, and is refused only for clashing leading dimensions. */
  lemma {:induction false} OutputFitsGeometry(a: seq<nat>, b: seq<nat>, block: nat)
    requires |a| >= 2 && |b| >= 2
    ensures CreateOutputMatrix(a, b) == DimensionMismatch <==> |b| > 2 && Lead(a) != Lead(b)
    ensures CreateOutputMatrix(a, b).Shaped? ==>
              && |CreateOutputMatrix(a, b).shape| == |a| && Lead(CreateOutputMatrix(a, b).shape) == Lead(a)
              && CreateOutputMatrix(a, b).shape[|a| - 2] == a[|a| - 2]
              && CreateOutputMatrix(a, b).shape[|a| - 1] == b[|b| - 2]
              && Volume(CreateOutputMatrix(a, b).shape) == GeometryOf(a, b, block).CSize()
  {
    var c := CreateOutputMatrix(a, b);
    if c.Shaped? {
      assert c.shape == Lead(a) + [a[|a| - 2], b[|b| - 2]];
      VolumeSplit(c.shape);
      assert Lead(c.shape) == Lead(a);
    }
  }

  // --------------------------------------------------------------------------
  // The partition list
  // --------------------------------------------------------------------------

  ghost predicate PartitionsOf<T>(g: Geometry, a: seq<T>, b: seq<T>, parts: seq<Partition<T>>, tiles: seq<Tile>)
    requires g.Valid() && Operands(g, a, b)
  {
    && |parts| == |tiles|
    && forall k | 0 <= k < |tiles| ::
         Legal(g, tiles[k]) && parts[k] == CalculateMatrixPartition(g, a, b, tiles[k])
  }

  /** One partition per tile, row block by row block, column block by column block, pivot by pivot. */
  method PartitionMatrices<T>(a: Tensor<T>, b: Tensor<T>, block: nat) returns (parts: seq<Partition<T>>)
    requires Compatible(a.shape, b.shape) && a.Contiguous() && b.Contiguous()
    requires |a.shape| >= |b.shape| && block > 0
    ensures Operands(GeometryOf(a.shape, b.shape, block), a.data, b.data)
    ensures PartitionsOf(GeometryOf(a.shape, b.shape, block), a.data, b.data, parts,
                         Tiles(GeometryOf(a.shape, b.shape, block)))
  {
    var g := GeometryOf(a.shape, b.shape, block);
    TensorsAreOperands(a, b, block);
    parts := [];
    for r := 0 to BlockCount(g.rows, block)
      invariant PartitionsOf(g, a.data, b.data, parts, RowRun(g, r))
    {
      ghost var rows := RowRun(g, r);
      assert rows + ColRun(g, r, 0) == rows;
      for c := 0 to BlockCount(g.cols, block)
        invariant PartitionsOf(g, a.data, b.data, parts, rows + ColRun(g, r, c))
      {
        var pivots;
        if |a.shape| == 2 && |b.shape| == 2 {
          pivots := 1;
        } else {
          var combos := CartesianProduct(Lead(a.shape));
          pivots := |combos|;
        }
        ghost var before := rows + ColRun(g, r, c);
        assert before + PivotRun(r, c, 0) == before;
        for pivot := 0 to pivots
          invariant PartitionsOf(g, a.data, b.data, parts, before + PivotRun(r, c, pivot))
        {
          var t := Tile(pivot, r, c);
          assert before + PivotRun(r, c, pivot + 1) == before + PivotRun(r, c, pivot) + [t];
          parts := parts + [CalculateMatrixPartition(g, a.data, b.data, t)];
        }
        assert before + PivotRun(r, c, g.batch) == rows + ColRun(g, r, c + 1);
      }
    }
  }

  // --------------------------------------------------------------------------
  // The product of tensors
  // --------------------------------------------------------------------------

  /** The last-dimension line at a prefix index. */
  ghost function LineAt<T>(t: Tensor<T>, prefix: seq<nat>): seq<T>
    requires t.Contiguous() && |t.shape| > 0 && IsIndex(t.shape[..|t.shape| - 1], prefix)
  {
    var n := |t.shape| - 1;
    RankBound(t.shape[..n], prefix);
    LineFits(Volume(t.shape[..n]), t.shape[n], Rank(t.shape[..n], prefix));
    var at := Times(Rank(t.shape[..n], prefix), t.shape[n]);
    t.data[at..at + t.shape[n]]
  }

  lemma {:induction false} LineAtIsRow<T>(t: Tensor<T>, v: seq<nat>, i: nat)
    requires t.Contiguous() && |t.shape| >= 2
    requires IsIndex(Lead(t.shape), v) && i < t.shape[|t.shape| - 2]
    ensures IsIndex(t.shape[..|t.shape| - 1], v + [i])
    ensures var h, k := t.shape[|t.shape| - 1], Times(Rank(Lead(t.shape), v), t.shape[|t.shape| - 2]) + i;
            Times(k, h) + h <= |t.data| && LineAt(t, v + [i]) == Row(t.data, h, k)
  {
    var n := |t.shape| - 1;
    assert t.shape[..n] == Lead(t.shape) + [t.shape[n - 1]];
    RankExtend(Lead(t.shape), v, t.shape[n - 1], i);
    RankBound(t.shape[..n], v + [i]);
    LineFits(Volume(t.shape[..n]), t.shape[n], Rank(t.shape[..n], v + [i]));
  }

  /** Which matrix of B a leading index selects. */
  ghost function BIndexOf(b: seq<nat>, v: seq<nat>): seq<nat> {
    if |b| == 2 then [] else v
  }

  lemma {:induction false} OutputRank(a: seq<nat>, b: seq<nat>, c: seq<nat>, block: nat, v: seq<nat>, i: nat, j: nat)
    requires |a| >= 2 && |b| >= 2 && CreateOutputMatrix(a, b) == Shaped(c) && |v| == |a| - 2
    ensures |c| == |v| + 2
    ensures Rank(c, v + [i, j]) == Flat(GeometryOf(a, b, block), Rank(Lead(a), v), i, j)
  {
    assert c == Lead(a) + [a[|a| - 2], b[|b| - 2]];
    assert Lead(c) == Lead(a);
    RankSplit(c, v, i, j);
  }

  /** The reference entry, read through index vectors: A[v, i, :] . B[v, j, :]. */
  lemma {:induction false} EntryOfTensors<T>(ar: Arith<T>, a: Tensor<T>, b: Tensor<T>, block: nat, v: seq<nat>,
                                             i: nat, j: nat)
    requires Compatible(a.shape, b.shape) && a.Contiguous() && b.Contiguous()
    requires Operands(GeometryOf(a.shape, b.shape, block), a.data, b.data)
    requires IsIndex(Lead(a.shape), v) && i < a.shape[|a.shape| - 2] && j < b.shape[|b.shape| - 2]
    ensures IsIndex(a.shape[..|a.shape| - 1], v + [i])
    ensures IsIndex(b.shape[..|b.shape| - 1], BIndexOf(b.shape, v) + [j])
    ensures GeometryOf(a.shape, b.shape, block).Cell(Rank(Lead(a.shape), v), i, j)
    ensures Entry(GeometryOf(a.shape, b.shape, block), ar, a.data, b.data, Rank(Lead(a.shape), v), i, j)
            == ar.dot(LineAt(a, v + [i]), LineAt(b, BIndexOf(b.shape, v) + [j]))
  {
    RankBound(Lead(a.shape), v);
    LineAtIsRow(a, v, i);
    LineAtIsRow(b, BIndexOf(b.shape, v), j);
  }

  /**
   Read through index vectors, the product says C[v, i, j] = A[v, i, :] . B[v, j, :],
   with B[j, :] when B is a single matrix.
   */
  lemma {:induction false} ProductOfTensors<T>(ar: Arith<T>, a: Tensor<T>, b: Tensor<T>, c: Tensor<T>, block: nat,
                                               v: seq<nat>, i: nat, j: nat)
    requires Compatible(a.shape, b.shape) && a.Contiguous() && b.Contiguous()
    requires CreateOutputMatrix(a.shape, b.shape) == Shaped(c.shape)
    requires Operands(GeometryOf(a.shape, b.shape, block), a.data, b.data)
    requires IsProduct(GeometryOf(a.shape, b.shape, block), ar, a.data, b.data, c.data)
    requires IsIndex(Lead(a.shape), v) && i < a.shape[|a.shape| - 2] && j < b.shape[|b.shape| - 2]
    ensures IsIndex(a.shape[..|a.shape| - 1], v + [i])
    ensures IsIndex(b.shape[..|b.shape| - 1], BIndexOf(b.shape, v) + [j])
    ensures |c.shape| == |v| + 2 && Rank(c.shape, v + [i, j]) < |c.data|
    ensures c.data[Rank(c.shape, v + [i, j])]
            == ar.dot(LineAt(a, v + [i]), LineAt(b, BIndexOf(b.shape, v) + [j]))
  {
    OutputRank(a.shape, b.shape, c.shape, block, v, i, j);
    EntryOfTensors(ar, a, b, block, v, i, j);
  }
}
