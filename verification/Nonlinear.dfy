/**
 Products, quotients and remainders: the few nonlinear facts the memory layouts need.

 `Times` is multiplication of naturals.  The layouts are written with it instead of `*`
 so that the verifier reasons about strides and offsets with linear arithmetic and the
 lemmas below.
 */
module Nonlinear {

  function Times(a: nat, b: nat): nat {
    if a == 0 then 0 else Times(a - 1, b) + b
  }

  lemma {:induction false} TimesIsProduct(a: nat, b: nat)
    ensures Times(a, b) == a * b
  {
    if a > 0 {
      TimesIsProduct(a - 1, b);
      assert (a - 1) * b + b == a * b;
    }
  }

  lemma {:induction false} TimesAdd(a: nat, b: nat, c: nat)
    ensures Times(a + b, c) == Times(a, c) + Times(b, c)
  {
    if b > 0 {
      TimesAdd(a, b - 1, c);
    }
  }

  lemma {:induction false} TimesMono(a: nat, b: nat, c: nat)
    requires a <= b
    ensures Times(a, c) <= Times(b, c)
  {
    TimesAdd(a, b - a, c);
  }

  lemma {:induction false} TimesPositive(a: nat, b: nat)
    ensures Times(a, b) > 0 <==> a > 0 && b > 0
  {
    TimesIsProduct(a, b);
  }

  /** Row k of `lines` rows of width h ends inside them. */
  lemma {:induction false} LineFits(lines: nat, h: nat, k: nat)
    requires k < lines
    ensures Times(k, h) + h <= Times(lines, h)
  {
    TimesMono(k + 1, lines, h);
  }

  lemma {:induction false} MixedRadixInjective(q1: nat, j1: nat, q2: nat, j2: nat, n: nat)
    requires j1 < n && j2 < n
    requires Times(q1, n) + j1 == Times(q2, n) + j2
    ensures q1 == q2 && j1 == j2
  {
    if q1 < q2 {
      LineFits(q2, n, q1);
    } else if q2 < q1 {
      LineFits(q1, n, q2);
    }
  }

  /** Euclidean division, with the quotient's product named. */
  lemma {:induction false} DivMod(x: nat, n: nat)
    requires n > 0
    ensures x == Times(x / n, n) + x % n
  {
    TimesIsProduct(x / n, n);
  }

  /** A quotient and a remainder below the divisor are determined by the number they form. */
  lemma {:induction false} DivModUnique(q: nat, j: nat, n: nat)
    requires j < n
    ensures (Times(q, n) + j) / n == q
    ensures (Times(q, n) + j) % n == j
  {
    var x := Times(q, n) + j;
    DivMod(x, n);
    MixedRadixInjective(x / n, x % n, q, j, n);
  }

  /** Blocks of one size that cover n, the last perhaps only partly used. */
  function BlockCount(n: nat, block: nat): nat
    requires block > 0
  {
    n / block + if n % block != 0 then 1 else 0
  }
}
