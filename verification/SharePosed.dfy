/** When no pivot is ever clamped: a frame whose four rotors can each be told apart in the wrench,
    weighed as it is, keeps every pivot of every pass over the clamp. */
module SharePosed {
  import opened Sums
  import opened ShareSolve
  import opened SharePass

  /** What a matrix makes of a vector against it: its quadratic form. */
  function Form(m: Mat, x: Vec): real
    requires Square(m, N) && |x| == N
  {
    Dot(Times(m, x, N), x, N)
  }

  /** The form is never less than the vector's square, scaled. */
  ghost predicate Over(m: Mat, least: real)
    requires Square(m, N)
  {
    forall x: Vec :: |x| == N ==> Form(m, x) >= least * Dot(x, x, N)
  }

  // -- a pivot is the form of a vector that ends in one ---------------------------------------

  /** The vector the factor turns into the j-th unit: one at j, nothing past it. */
  function Z(m: Mat, j: nat, i: nat): real
    requires Square(m, N) && j < N && i < N
    decreases N - i, 1
  {
    if i > j then 0.0 else if i == j then 1.0 else -Past(m, j, i, N)
  }

  function Past(m: Mat, j: nat, i: nat, k: nat): real
    requires Square(m, N) && j < N && i < k <= N
    decreases N - i, 0, k
  {
    if k == i + 1 then 0.0 else Past(m, j, i, k - 1) + L(m, k - 1, i) * Z(m, j, k - 1)
  }

  function Lifted(m: Mat, j: nat): (z: Vec)
    requires Square(m, N) && j < N
    ensures |z| == N && forall i :: 0 <= i < N ==> z[i] == Z(m, j, i)
  {
    seq(N, i requires 0 <= i < N => Z(m, j, i))
  }

  lemma {:induction false} PastRow(m: Mat, j: nat, k: nat, n: nat)
    requires Square(m, N) && j < N && k < N && n <= N
    ensures Dot(Turned(m)[k], Lifted(m, j), n) == if n <= k then 0.0 else Z(m, j, k) + Past(m, j, k, n)
  {
    hide Z, L, Turned, Lifted, U;
    if n > 0 {
      PastRow(m, j, k, n - 1);
      TurnedAt(m, k, n - 1);
      NothingOrOne(Z(m, j, n - 1));
    }
  }

  lemma {:induction false} PastNone(m: Mat, j: nat, i: nat, k: nat)
    requires Square(m, N) && j < N && j <= i < k <= N
    ensures Past(m, j, i, k) == 0.0
  {
    hide L;
    if k > i + 1 {
      PastNone(m, j, i, k - 1);
    }
  }

  lemma UnitRow(m: Mat, j: nat, k: nat)
    requires Square(m, N) && j < N && k < N
    ensures Times(Turned(m), Lifted(m, j), N)[k] == if k == j then 1.0 else 0.0
  {
    PastRow(m, j, k, N);
    if k >= j {
      PastNone(m, j, k, N);
    }
    hide Turned, Lifted, Past, Dot;
  }

  lemma {:induction false} OneAt(w: Vec, e: Vec, j: nat, n: nat)
    requires |w| == N && |e| == N && j < N && n <= N
    requires forall k :: 0 <= k < N ==> e[k] == if k == j then 1.0 else 0.0
    ensures Dot(w, e, n) == if j < n then w[j] else 0.0
  {
    if n > 0 {
      OneAt(w, e, j, n - 1);
      NothingOrOne(w[n - 1]);
    }
  }

  /** Row i, no further than j, against that vector: nothing, and at j the pivot. */
  lemma RowPivot(m: Mat, j: nat, i: nat)
    requires Square(m, N) && Symmetric(m) && i <= j < N
    requires forall k :: 0 <= k < j ==> Pivot(m, k) >= Least()
    ensures Dot(m[i], Lifted(m, j), N) == if i == j then Pivot(m, j) else 0.0
  {
    hide Turned, Weighed, Lifted, Column, Dot, Inner, Across;
    var w, u, z := Weighed(m, i), Turned(m), Lifted(m, j);
    Swap(w, u, z, N, N);
    forall k | 0 <= k < N
      ensures Times(u, z, N)[k] == if k == j then 1.0 else 0.0
    {
      UnitRow(m, j, k);
    }
    OneAt(w, Times(u, z, N), j, N);
    assert w[j] == if i == j then D(m, j) else 0.0;
    RowDiffers(m, j, i);
  }

  /** The row as the factor makes it, which the clamp alone moves. */
  lemma RowDiffers(m: Mat, j: nat, i: nat)
    requires Square(m, N) && Symmetric(m) && i <= j < N
    requires forall k :: 0 <= k < j ==> Pivot(m, k) >= Least()
    ensures Dot(m[i], Lifted(m, j), N)
         == Dot(Across(Weighed(m, i), Turned(m), N, N), Lifted(m, j), N)
            + if i == j then Pivot(m, j) - D(m, j) else 0.0
  {
    hide Turned, Weighed, Column, Dot, Inner, Z;
    var a, z := Across(Weighed(m, i), Turned(m), N, N), Lifted(m, j);
    forall c | 0 <= c < N
      ensures m[i][c] == a[c] + if c == i then Pivot(m, i) - D(m, i) else 0.0
    {
      FactoredAt(m, i, c);
    }
    ZAt(m, j);
    if i < j {
      assert D(m, i) == Pivot(m, i);
      assert m[i] == a;
    } else {
      DotOff(m[j], a, z, j, Pivot(m, j) - D(m, j), N);
    }
  }

  lemma ZAt(m: Mat, j: nat)
    requires Square(m, N) && j < N
    ensures Lifted(m, j)[j] == 1.0 && forall i :: j < i < N ==> Lifted(m, j)[i] == 0.0
  {
  }

  lemma {:induction false} DotOff(a: Vec, b: Vec, z: Vec, j: nat, d: real, n: nat)
    requires |a| == N && |b| == N && |z| == N && j < N && n <= N && z[j] == 1.0
    requires forall c :: 0 <= c < N ==> a[c] == b[c] + if c == j then d else 0.0
    ensures Dot(a, z, n) == Dot(b, z, n) + if j < n then d else 0.0
  {
    if n > 0 {
      DotOff(a, b, z, j, d, n - 1);
    }
  }

  lemma FormPivot(m: Mat, j: nat)
    requires Square(m, N) && Symmetric(m) && j < N
    requires forall k :: 0 <= k < j ==> Pivot(m, k) >= Least()
    ensures Form(m, Lifted(m, j)) == Pivot(m, j)
  {
    hide Lifted, Dot, Inner;
    var z := Lifted(m, j);
    ZAt(m, j);
    forall i | 0 <= i < N
      ensures Times(m, z, N)[i] * z[i] == if i == j then Pivot(m, j) else 0.0
    {
      if i <= j {
        RowPivot(m, j, i);
      }
    }
    OnlyAt(Times(m, z, N), z, j, Pivot(m, j), N);
  }

  lemma {:induction false} OnlyAt(a: Vec, z: Vec, j: nat, p: real, n: nat)
    requires |a| == N && |z| == N && j < N && n <= N
    requires forall i :: 0 <= i < N ==> a[i] * z[i] == if i == j then p else 0.0
    ensures Dot(a, z, n) == if j < n then p else 0.0
  {
    if n > 0 {
      OnlyAt(a, z, j, p, n - 1);
    }
  }

  lemma {:induction false} AtLeastSquare(z: Vec, j: nat, n: nat)
    requires |z| == N && j < n <= N
    ensures Dot(z, z, n) >= z[j] * z[j]
  {
    if n == j + 1 {
      SquaresSum(z, j);
    } else {
      AtLeastSquare(z, j, n - 1);
    }
  }

  lemma OverAt(m: Mat, least: real, x: Vec)
    requires Square(m, N) && |x| == N && Over(m, least)
    ensures Form(m, x) >= least * Dot(x, x, N)
  {
  }

  /** A form over the clamp has every pivot there. */
  lemma {:induction false} PivotsOver(m: Mat, n: nat)
    requires Square(m, N) && Symmetric(m) && Over(m, Least()) && n <= N
    ensures forall j :: 0 <= j < n ==> Pivot(m, j) >= Least()
  {
    hide Form, Lifted, Pivot, Least, Over, Dot;
    if n > 0 {
      PivotsOver(m, n - 1);
      var j := n - 1;
      var z := Lifted(m, j);
      FormPivot(m, j);
      ZAt(m, j);
      AtLeastSquare(z, j, N);
      OverAt(m, Least(), z);
      Scaled(Least(), Dot(z, z, N));
    }
  }

  lemma Scaled(l: real, d: real)
    requires l > 0.0 && d >= 1.0
    ensures l * d >= l
  {
  }

  // -- the masks -----------------------------------------------------------------------------

  function Kept(x: Vec, open: seq<bool>): (y: Vec)
    requires |x| == N && |open| == N
    ensures |y| == N && forall i :: 0 <= i < N ==> y[i] == if open[i] then x[i] else 0.0
  {
    seq(N, i requires 0 <= i < N => if open[i] then x[i] else 0.0)
  }

  function Rest(x: Vec, open: seq<bool>): (y: Vec)
    requires |x| == N && |open| == N
    ensures |y| == N && forall i :: 0 <= i < N ==> y[i] == if open[i] then 0.0 else x[i]
  {
    seq(N, i requires 0 <= i < N => if open[i] then 0.0 else x[i])
  }

  lemma {:induction false} MaskedRow(h: Mat, open: seq<bool>, x: Vec, i: nat, n: nat)
    requires Square(h, N) && |open| == N && |x| == N && i < N && n <= N
    ensures Dot(Masked(h, open)[i], x, n)
         == if open[i] then Dot(h[i], Kept(x, open), n) else if i < n then x[i] else 0.0
  {
    if n > 0 {
      MaskedRow(h, open, x, i, n - 1);
      var k := n - 1;
      assert Masked(h, open)[i][k] == MaskedAt(h, open, i, k);
      if open[i] {
        if open[k] {
          assert MaskedAt(h, open, i, k) == h[i][k];
        } else {
          assert MaskedAt(h, open, i, k) == 0.0;
        }
      } else if k == i {
        assert MaskedAt(h, open, i, k) == 1.0;
      } else {
        assert MaskedAt(h, open, i, k) == 0.0;
      }
    }
  }

  /** The masked form: the open rotors' own, and the squares of the rest. */
  lemma {:induction false} MaskedForm(h: Mat, open: seq<bool>, x: Vec, n: nat)
    requires Square(h, N) && |open| == N && |x| == N && n <= N
    ensures Dot(Times(Masked(h, open), x, N), x, n)
         == Dot(Times(h, Kept(x, open), N), Kept(x, open), n) + Dot(Rest(x, open), Rest(x, open), n)
  {
    hide Masked;
    if n > 0 {
      MaskedForm(h, open, x, n - 1);
      MaskedRow(h, open, x, n - 1, N);
      if open[n - 1] {}
    }
  }

  lemma {:induction false} SplitSquare(x: Vec, open: seq<bool>, n: nat)
    requires |x| == N && |open| == N && n <= N
    ensures Dot(x, x, n)
         == Dot(Kept(x, open), Kept(x, open), n) + Dot(Rest(x, open), Rest(x, open), n)
  {
    if n > 0 {
      SplitSquare(x, open, n - 1);
      if open[n - 1] {}
    }
  }

  lemma {:induction false} TwoToGrows(n: nat)
    ensures TwoTo(n) >= 1.0
  {
    if n > 0 {
      TwoToGrows(n - 1);
    }
  }

  lemma LeastSmall()
    ensures 0.0 < Least() <= 1.0
  {
    TwoToGrows(1022);
    hide TwoTo;
    Inverse(TwoTo(1022));
  }

  lemma Inverse(t: real)
    requires t >= 1.0
    ensures 1.0 / t <= 1.0
  {
  }

  lemma Joined(l: real, f: real, k: real, r: real)
    requires 0.0 < l <= 1.0 && f >= l * k && r >= 0.0
    ensures f + r >= l * (k + r)
  {
    Gather(l, k, r);
  }

  lemma MaskedOver(h: Mat, open: seq<bool>)
    requires Square(h, N) && |open| == N && Over(h, Least())
    ensures Over(Masked(h, open), Least())
  {
    hide Masked, Dot, Least;
    forall x: Vec | |x| == N
      ensures Form(Masked(h, open), x) >= Least() * Dot(x, x, N)
    {
      var y, r := Kept(x, open), Rest(x, open);
      MaskedForm(h, open, x, N);
      SplitSquare(x, open, N);
      LeastSmall();
      SquaresSum(r, N);
      assert Form(h, y) >= Least() * Dot(y, y, N);
      Joined(Least(), Form(h, y), Dot(y, y, N), Dot(r, r, N));
    }
  }

  // -- the rows ------------------------------------------------------------------------------

  /** The curvature's form is the square of what the rows make. */
  lemma GramForm(a: Mat, x: Vec)
    requires Square(a, N) && |x| == N
    ensures Form(Gram(a), x) == Dot(Times(a, x, N), Times(a, x, N), N)
  {
    hide Gram, Dot, Times, Column, Col;
    var v := Times(a, x, N);
    Swap(v, a, x, N, N);
    var c, g := Across(v, a, N, N), Times(Gram(a), x, N);
    forall i | 0 <= i < N
      ensures g[i] * x[i] == c[i] * x[i]
    {
      TimesAt(Gram(a), x, i);
      GramTimes(a, x, i);
      ColumnDot(v, a, i, N);
      DotTurned(v, Col(a, i), N);
    }
    DotAlike(g, x, c, x, N);
  }

  lemma TimesAt(m: Mat, x: Vec, i: nat)
    requires Square(m, N) && |x| == N && i < N
    ensures Times(m, x, N)[i] == Dot(m[i], x, N)
  {
  }

  /** Rows that take no vector to almost nothing. */
  ghost predicate Tells(a: Mat)
    requires Square(a, N)
  {
    forall x: Vec :: |x| == N ==> Dot(Times(a, x, N), Times(a, x, N), N) >= Least() * Dot(x, x, N)
  }

  /** So with such rows no pass ever has a pivot clamped, whichever rotors it holds. */
  lemma NeverClamped(q: Ask, s: Set, a: Mat, t: Vec)
    requires Laid(q, a, t) && SetOk(s) && Tells(a)
    ensures Clear(q, s)
  {
    hide Masked, Form, Dot, Times, Gram, Pull, Pivot;
    forall x: Vec | |x| == N
      ensures Form(q.h, x) >= Least() * Dot(x, x, N)
    {
      GramForm(a, x);
    }
    GramSymmetric(a);
    MaskedSymmetric(q.h, s.open);
    MaskedOver(q.h, s.open);
    PivotsOver(Masked(q.h, s.open), N);
  }
}
