/** Keys of tiles and of tensor blocks, and their printed form. */
module Keys {

  /** The size of a tensor element. */
  const FLOAT_BYTES: nat := 4

  /** A tile of one dispatch: `version` is drawn afresh per dispatch. */
  datatype Key = Key(version: nat, pivot: nat, row: nat, col: nat)

  /** A row block or column block of one dispatch. */
  datatype TensorKey = TensorKey(version: nat, pivot: nat, line: nat, isRow: bool)

  function RowKey(k: Key): TensorKey {
    TensorKey(k.version, k.pivot, k.row, true)
  }

  function ColKey(k: Key): TensorKey {
    TensorKey(k.version, k.pivot, k.col, false)
  }

  function Digit(d: nat): (c: char)
    requires d < 10
    ensures c != ':'
  {
    ('0' as int + d) as char
  }

  function Decimal(n: nat): (s: string)
    ensures |s| > 0 && ':' !in s
  {
    if n < 10 then [Digit(n)] else Decimal(n / 10) + [Digit(n % 10)]
  }

  lemma {:induction false} DecimalInjective(n: nat, m: nat)
    requires Decimal(n) == Decimal(m)
    ensures n == m
    decreases n + m
  {
    var s, t := Decimal(n), Decimal(m);
    assert s[|s| - 1] == t[|t| - 1];
    if n >= 10 && m >= 10 {
      assert s[..|s| - 1] == Decimal(n / 10) && t[..|t| - 1] == Decimal(m / 10);
      DecimalInjective(n / 10, m / 10);
    }
  }

  /** [version:pivot:row:col] */
  function Render(k: Key): string {
    "[" + (Decimal(k.version) + ":" + (Decimal(k.pivot) + ":" + (Decimal(k.row) + ":" + (Decimal(k.col) + "]"))))
  }

  /** A field ends at the first colon. */
  lemma {:induction false} SplitAtColon(x: string, y: string, x': string, y': string)
    requires ':' !in x && ':' !in x'
    requires x + ":" + y == x' + ":" + y'
    ensures x == x' && y == y'
  {
    var s := x + ":" + y;
    var s' := x' + ":" + y';
    assert s[|x|] == ':' && s'[|x'|] == ':';
    assert forall i | 0 <= i < |x| :: s[i] == x[i] && x[i] in x;
    assert forall i | 0 <= i < |x'| :: s'[i] == x'[i] && x'[i] in x';
    assert |x| == |x'|;
    assert x == s[..|x|] && x' == s[..|x'|];
    assert y == s[|x| + 1..] && y' == s[|x'| + 1..];
  }

  /** Two tiles print alike only if they are the same tile, so string keys are as good as tiles. */
  lemma {:induction false} RenderInjective(k: Key, m: Key)
    requires Render(k) == Render(m)
    ensures k == m
  {
    var rest1 := Decimal(k.pivot) + ":" + (Decimal(k.row) + ":" + (Decimal(k.col) + "]"));
    var rest2 := Decimal(m.pivot) + ":" + (Decimal(m.row) + ":" + (Decimal(m.col) + "]"));
    assert Render(k)[1..] == Decimal(k.version) + ":" + rest1;
    assert Render(m)[1..] == Decimal(m.version) + ":" + rest2;
    SplitAtColon(Decimal(k.version), rest1, Decimal(m.version), rest2);
    RenderTailInjective(k, m);
    DecimalInjective(k.version, m.version);
  }

  lemma {:induction false} RenderTailInjective(k: Key, m: Key)
    requires Decimal(k.pivot) + ":" + (Decimal(k.row) + ":" + (Decimal(k.col) + "]"))
             == Decimal(m.pivot) + ":" + (Decimal(m.row) + ":" + (Decimal(m.col) + "]"))
    ensures k.pivot == m.pivot && k.row == m.row && k.col == m.col
  {
    SplitAtColon(Decimal(k.pivot), Decimal(k.row) + ":" + (Decimal(k.col) + "]"),
                 Decimal(m.pivot), Decimal(m.row) + ":" + (Decimal(m.col) + "]"));
    SplitAtColon(Decimal(k.row), Decimal(k.col) + "]", Decimal(m.row), Decimal(m.col) + "]");
    var x, y := Decimal(k.col), Decimal(m.col);
    assert x == (x + "]")[..|x|] && y == (y + "]")[..|y|];
    assert |x + "]"| == |y + "]"|;
    DecimalInjective(k.pivot, m.pivot);
    DecimalInjective(k.row, m.row);
    DecimalInjective(k.col, m.col);
  }
}
