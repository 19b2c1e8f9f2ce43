/** Sums of products of reals: the little linear algebra the thrust share rests on. */
module Sums {
  type Vec = seq<real>
  type Mat = seq<Vec>

  ghost predicate Square(m: Mat, n: nat) {
    |m| == n && forall i :: 0 <= i < n ==> |m[i]| == n
  }

  /** The first `n` products summed. */
  function Dot(a: Vec, b: Vec, n: nat): real
    requires n <= |a| && n <= |b|
  {
    if n == 0 then 0.0 else Dot(a, b, n - 1) + a[n - 1] * b[n - 1]
  }

  lemma {:induction false} DotAlike(a: Vec, b: Vec, c: Vec, d: Vec, n: nat)
    requires n <= |a| && n <= |b| && n <= |c| && n <= |d|
    requires forall i :: 0 <= i < n ==> a[i] * b[i] == c[i] * d[i]
    ensures Dot(a, b, n) == Dot(c, d, n)
  {
    if n > 0 {
      DotAlike(a, b, c, d, n - 1);
    }
  }

  /** `x` moved `t` of `y`. */
  function Moved(x: Vec, t: real, y: Vec): (r: Vec)
    requires |x| == |y|
    ensures |r| == |x| && forall i :: 0 <= i < |x| ==> r[i] == x[i] + t * y[i]
  {
    seq(|x|, i requires 0 <= i < |x| => x[i] + t * y[i])
  }

  lemma {:induction false} DotMoved(a: Vec, x: Vec, t: real, y: Vec, n: nat)
    requires |x| == |y| && n <= |a| && n <= |x|
    ensures Dot(a, Moved(x, t, y), n) == Dot(a, x, n) + t * Dot(a, y, n)
  {
    if n > 0 {
      DotMoved(a, x, t, y, n - 1);
      var k := n - 1;
      Spread(a[k], x[k], t, y[k]);
      Gather(t, Dot(a, y, k), a[k] * y[k]);
    }
  }

  lemma Spread(a: real, x: real, t: real, y: real)
    ensures a * (x + t * y) == a * x + t * (a * y)
  {
  }

  lemma Gather(t: real, p: real, q: real)
    ensures t * (p + q) == t * p + t * q
  {
  }

  lemma {:induction false} DotTurned(a: Vec, b: Vec, n: nat)
    requires n <= |a| && n <= |b|
    ensures Dot(a, b, n) == Dot(b, a, n)
  {
    if n > 0 {
      DotTurned(a, b, n - 1);
    }
  }

  /** A matrix on a vector. */
  function Times(m: Mat, x: Vec, n: nat): (r: Vec)
    requires Square(m, n) && |x| == n
    ensures |r| == n && forall i :: 0 <= i < n ==> r[i] == Dot(m[i], x, n)
  {
    seq(n, i requires 0 <= i < n => Dot(m[i], x, n))
  }

  /** Column `j` weighed by `c`, the first `n` rows. */
  function Column(c: Vec, m: Mat, n: nat, j: nat): real
    requires n <= |c| && n <= |m| && forall i :: 0 <= i < n ==> j < |m[i]|
  {
    if n == 0 then 0.0 else Column(c, m, n - 1, j) + c[n - 1] * m[n - 1][j]
  }

  /** The columns of the first `k` rows weighed by `c`, each. */
  function Across(c: Vec, m: Mat, k: nat, n: nat): (r: Vec)
    requires k <= n && |c| == n && Square(m, n)
    ensures |r| == n && forall j :: 0 <= j < n ==> r[j] == Column(c, m, k, j)
  {
    seq(n, j requires 0 <= j < n => Column(c, m, k, j))
  }

  lemma {:induction false} ZeroDot(a: Vec, x: Vec, n: nat)
    requires n <= |a| && n <= |x|
    requires forall i :: 0 <= i < n ==> a[i] == 0.0 || x[i] == 0.0
    ensures Dot(a, x, n) == 0.0
  {
    if n > 0 {
      ZeroDot(a, x, n - 1);
    }
  }

  lemma AcrossMore(c: Vec, m: Mat, k: nat, n: nat)
    requires 0 < k <= n && |c| == n && Square(m, n)
    ensures Across(c, m, k, n) == Moved(Across(c, m, k - 1, n), c[k - 1], m[k - 1])
  {
  }

  /** Summing by rows or by columns is one: (c M) x == c (M x), over the first `k` rows. */
  lemma {:induction false} Swap(c: Vec, m: Mat, x: Vec, k: nat, n: nat)
    requires k <= n && |c| == n && |x| == n && Square(m, n)
    ensures Dot(Across(c, m, k, n), x, n) == Dot(c, Times(m, x, n), k)
  {
    if k == 0 {
      ZeroDot(Across(c, m, 0, n), x, n);
    } else {
      Swap(c, m, x, k - 1, n);
      SwapRow(c, m, x, k, n);
    }
  }

  lemma SwapRow(c: Vec, m: Mat, x: Vec, k: nat, n: nat)
    requires 0 < k <= n && |c| == n && |x| == n && Square(m, n)
    ensures Dot(Across(c, m, k, n), x, n)
         == Dot(Across(c, m, k - 1, n), x, n) + c[k - 1] * Times(m, x, n)[k - 1]
  {
    hide Column, Moved, Dot, Across;
    var row, before := m[k - 1], Across(c, m, k - 1, n);
    AcrossMore(c, m, k, n);
    DotTurned(Across(c, m, k, n), x, n);
    DotTurned(before, x, n);
    DotTurned(x, row, n);
    DotMoved(x, before, c[k - 1], row, n);
  }

  lemma {:induction false} SquaresSum(v: Vec, n: nat)
    requires n <= |v|
    ensures Dot(v, v, n) >= 0.0
  {
    if n > 0 {
      SquaresSum(v, n - 1);
    }
  }
}
