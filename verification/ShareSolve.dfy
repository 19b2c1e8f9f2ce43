/** Solving for the open rotors: the curvature, the held rows and columns swapped for the
    identity's, factored and substituted, over reals. */
module ShareSolve {
  import opened Sums

  const N: nat := 4

  function TwoTo(n: nat): (r: real)
    ensures r > 0.0
  {
    if n == 0 then 1.0 else 2.0 * TwoTo(n - 1)
  }

  /** The least normal double, which a pivot is clamped to. */
  function Least(): (r: real)
    ensures r > 0.0
  {
    1.0 / TwoTo(1022)
  }

  function Most(a: real, b: real): real {
    if a < b then b else a
  }

  function One(k: bool): real {
    if k then 1.0 else 0.0
  }

  /** The curvature with the held rotors masked out of it. */
  function Masked(h: Mat, open: seq<bool>): (m: Mat)
    requires Square(h, N) && |open| == N
    ensures Square(m, N)
  {
    seq(N, i requires 0 <= i < N => seq(N, j requires 0 <= j < N => MaskedAt(h, open, i, j)))
  }

  function MaskedAt(h: Mat, open: seq<bool>, i: nat, j: nat): real
    requires Square(h, N) && |open| == N && i < N && j < N
  {
    One(open[i]) * One(open[j]) * h[i][j] + if i == j then 1.0 - One(open[i]) else 0.0
  }

  function MaskedSlope(r: Vec, open: seq<bool>): (b: Vec)
    requires |r| == N && |open| == N
    ensures |b| == N && forall i :: 0 <= i < N ==> b[i] == One(open[i]) * r[i]
  {
    seq(N, i requires 0 <= i < N => One(open[i]) * r[i])
  }

  // -- the factor, entry by entry ------------------------------------------------------------

  /** What the columns before `k` take off entry i, j. */
  function Inner(m: Mat, i: nat, j: nat, k: nat): real
    requires Square(m, N) && i < N && j < N && k <= N
    decreases k, 0
  {
    if k == 0 then 0.0 else Inner(m, i, j, k - 1) + L(m, i, k - 1) * L(m, j, k - 1) * D(m, k - 1)
  }

  function Pivot(m: Mat, j: nat): real
    requires Square(m, N) && j < N
    decreases j, 1
  {
    m[j][j] - Inner(m, j, j, j)
  }

  function D(m: Mat, j: nat): (d: real)
    requires Square(m, N) && j < N
    ensures d > 0.0
    decreases j, 2
  {
    Most(Pivot(m, j), Least())
  }

  function L(m: Mat, i: nat, j: nat): real
    requires Square(m, N) && i < N && j < N
    decreases j, 3
  {
    if i <= j then 0.0 else (m[i][j] - Inner(m, i, j, j)) / D(m, j)
  }

  ghost predicate Unclamped(m: Mat)
    requires Square(m, N)
  {
    forall j :: 0 <= j < N ==> Pivot(m, j) >= Least()
  }

  ghost predicate Symmetric(m: Mat)
    requires Square(m, N)
  {
    forall i, j :: 0 <= i < N && 0 <= j < N ==> m[i][j] == m[j][i]
  }

  /** What the entries before `k` take off the forward pass's `i`. */
  function Fore(m: Mat, b: Vec, i: nat, k: nat): real
    requires Square(m, N) && |b| == N && i < N && k <= N
    decreases k, 0
  {
    if k == 0 then 0.0 else Fore(m, b, i, k - 1) + L(m, i, k - 1) * Y(m, b, k - 1)
  }

  function Y(m: Mat, b: Vec, i: nat): real
    requires Square(m, N) && |b| == N && i < N
    decreases i, 1
  {
    b[i] - Fore(m, b, i, i)
  }

  /** What the entries past `i` and before `k` take off the backward pass's `i`. */
  function Aft(m: Mat, b: Vec, i: nat, k: nat): real
    requires Square(m, N) && |b| == N && i < k <= N
    decreases N - i, 0, k
  {
    if k == i + 1 then 0.0 else Aft(m, b, i, k - 1) + L(m, k - 1, i) * P(m, b, k - 1)
  }

  function P(m: Mat, b: Vec, i: nat): real
    requires Square(m, N) && |b| == N && i < N
    decreases N - i, 1
  {
    Y(m, b, i) / D(m, i) - Aft(m, b, i, N)
  }

  function Solution(m: Mat, b: Vec): (p: Vec)
    requires Square(m, N) && |b| == N
    ensures |p| == N && forall i :: 0 <= i < N ==> p[i] == P(m, b, i)
  {
    seq(N, i requires 0 <= i < N => P(m, b, i))
  }

  // -- what the factor is for ----------------------------------------------------------------

  /** The unit lower factor. */
  function U(m: Mat, i: nat, k: nat): real
    requires Square(m, N) && i < N && k < N
  {
    if i == k then 1.0 else L(m, i, k)
  }

  function Turned(m: Mat): (u: Mat)
    requires Square(m, N)
    ensures Square(u, N)
    ensures forall k, j :: 0 <= k < N && 0 <= j < N ==> u[k][j] == U(m, j, k)
  {
    seq(N, k requires 0 <= k < N => seq(N, j requires 0 <= j < N => U(m, j, k)))
  }

  function Weighed(m: Mat, i: nat): (w: Vec)
    requires Square(m, N) && i < N
    ensures |w| == N && forall k :: 0 <= k < N ==> w[k] == U(m, i, k) * D(m, k)
  {
    seq(N, k requires 0 <= k < N => U(m, i, k) * D(m, k))
  }

  lemma Reorder(a: real, b: real, c: real)
    ensures a * c * b == a * b * c
  {
  }

  lemma {:induction false} ColumnInner(m: Mat, i: nat, j: nat, k: nat)
    requires Square(m, N) && i < N && j < N && k <= i && k <= j
    ensures Column(Weighed(m, i), Turned(m), k, j) == Inner(m, i, j, k)
  {
    hide D, L, Turned, Weighed;
    if k > 0 {
      ColumnInner(m, i, j, k - 1);
      Reorder(L(m, i, k - 1), L(m, j, k - 1), D(m, k - 1));
    }
  }

  lemma {:induction false} ColumnPast(m: Mat, i: nat, j: nat, k: nat)
    requires Square(m, N) && j <= i < N && j < k <= N
    ensures Column(Weighed(m, i), Turned(m), k, j) == Inner(m, i, j, j) + U(m, i, j) * D(m, j)
  {
    hide D, Turned, Weighed;
    if k == j + 1 {
      ColumnInner(m, i, j, j);
    } else {
      ColumnPast(m, i, j, k - 1);
      assert L(m, j, k - 1) == 0.0;
    }
  }

  lemma Divided(x: real, d: real)
    requires d > 0.0
    ensures (x / d) * d == x
  {
  }

  lemma {:induction false} ColumnTurned(m: Mat, i: nat, j: nat, k: nat)
    requires Square(m, N) && i < N && j < N && k <= N
    ensures Column(Weighed(m, i), Turned(m), k, j) == Column(Weighed(m, j), Turned(m), k, i)
  {
    hide D, L, Turned, Weighed, U;
    if k > 0 {
      ColumnTurned(m, i, j, k - 1);
      Cross(U(m, i, k - 1), D(m, k - 1), U(m, j, k - 1));
    }
  }

  lemma Cross(a: real, d: real, b: real)
    ensures (a * d) * b == (b * d) * a
  {
  }

  lemma DiagonalAt(m: Mat, i: nat)
    requires Square(m, N) && i < N
    ensures Column(Weighed(m, i), Turned(m), N, i) == m[i][i] - Pivot(m, i) + D(m, i)
  {
    hide Inner, Column, Turned, Weighed, D, L;
    ColumnPast(m, i, i, N);
  }

  lemma UnderAt(m: Mat, i: nat, j: nat)
    requires Square(m, N) && j < i < N
    ensures Column(Weighed(m, i), Turned(m), N, j) == m[i][j]
  {
    hide Inner, Column, Turned, Weighed, D;
    ColumnPast(m, i, j, N);
    Divided(m[i][j] - Inner(m, i, j, j), D(m, j));
  }

  /** L D L^T is the matrix it was made of, but on the diagonal where a pivot was clamped. */
  lemma FactoredAt(m: Mat, i: nat, j: nat)
    requires Square(m, N) && i < N && j < N && Symmetric(m)
    ensures Column(Weighed(m, i), Turned(m), N, j)
         == if i == j then m[i][i] - Pivot(m, i) + D(m, i) else m[i][j]
  {
    hide Column, Turned, Weighed, D, Pivot;
    if i == j {
      DiagonalAt(m, i);
    } else if j < i {
      UnderAt(m, i, j);
    } else {
      ColumnTurned(m, i, j, N);
      UnderAt(m, j, i);
    }
  }

  lemma Factored(m: Mat, i: nat, j: nat)
    requires Square(m, N) && i < N && j < N && Symmetric(m) && Unclamped(m)
    ensures Column(Weighed(m, i), Turned(m), N, j) == m[i][j]
  {
    hide Column, Turned, Weighed, Inner;
    FactoredAt(m, i, j);
  }

  function Forward(m: Mat, b: Vec): (y: Vec)
    requires Square(m, N) && |b| == N
    ensures |y| == N && forall i :: 0 <= i < N ==> y[i] == Y(m, b, i)
  {
    seq(N, i requires 0 <= i < N => Y(m, b, i))
  }

  function Row(m: Mat, i: nat): (u: Vec)
    requires Square(m, N) && i < N
    ensures |u| == N && forall k :: 0 <= k < N ==> u[k] == U(m, i, k)
  {
    seq(N, k requires 0 <= k < N => U(m, i, k))
  }

  lemma {:induction false} ForeRow(m: Mat, b: Vec, i: nat, k: nat)
    requires Square(m, N) && |b| == N && i < N && k <= N
    ensures Dot(Row(m, i), Forward(m, b), k)
         == if k <= i then Fore(m, b, i, k) else Fore(m, b, i, i) + Y(m, b, i)
  {
    hide Y, Row, Forward;
    if k > 0 {
      ForeRow(m, b, i, k - 1);
    }
  }

  /** One entry of the transposed factor: nothing before the diagonal, one on it. */
  lemma TurnedAt(m: Mat, k: nat, n: nat)
    requires Square(m, N) && k < N && n < N
    ensures Turned(m)[k][n] == if n < k then 0.0 else if n == k then 1.0 else L(m, n, k)
  {
    hide Turned;
  }

  lemma NothingOrOne(x: real)
    ensures 0.0 * x == 0.0 && 1.0 * x == x
  {
  }

  lemma {:induction false} AftRow(m: Mat, b: Vec, k: nat, n: nat)
    requires Square(m, N) && |b| == N && k < N && n <= N
    ensures Dot(Turned(m)[k], Solution(m, b), n)
         == if n <= k then 0.0 else P(m, b, k) + Aft(m, b, k, n)
  {
    hide P, L, Turned, Solution, U;
    if n > 0 {
      AftRow(m, b, k, n - 1);
      TurnedAt(m, k, n - 1);
      NothingOrOne(P(m, b, n - 1));
    }
  }

  lemma Undivided(u: real, d: real, y: real)
    requires d > 0.0
    ensures (u * d) * (y / d) == u * y
  {
  }

  /** What the passes give solves the system exactly, no pivot clamped. */
  lemma SolutionSolves(m: Mat, b: Vec, i: nat)
    requires Square(m, N) && |b| == N && i < N && Symmetric(m) && Unclamped(m)
    ensures Dot(m[i], Solution(m, b), N) == b[i]
  {
    hide Solution, Turned, Weighed, Row, Forward, Column, D, Fore, Aft, Dot, L;
    var p, u, w := Solution(m, b), Turned(m), Weighed(m, i);
    forall j | 0 <= j < N
      ensures Across(w, u, N, N)[j] == m[i][j]
    {
      Factored(m, i, j);
    }
    assert Across(w, u, N, N) == m[i];
    Swap(w, u, p, N, N);
    forall k | 0 <= k < N
      ensures w[k] * Times(u, p, N)[k] == Row(m, i)[k] * Forward(m, b)[k]
    {
      AftRow(m, b, k, N);
      Undivided(U(m, i, k), D(m, k), Y(m, b, k));
    }
    DotAlike(w, Times(u, p, N), Row(m, i), Forward(m, b), N);
    ForeRow(m, b, i, N);
  }

  // -- the masks -----------------------------------------------------------------------------

  /** A held rotor's row of the factor is nothing: of no other column, */
  lemma {:induction false} HeldLine(h: Mat, open: seq<bool>, i: nat, c: nat)
    requires Square(h, N) && |open| == N && c < i < N && !open[i]
    ensures L(Masked(h, open), i, c) == 0.0
    decreases c, 1
  {
    HeldInner(h, open, i, c, c);
    hide Inner;
    assert Masked(h, open)[i][c] == 0.0;
  }

  lemma {:induction false} HeldInner(h: Mat, open: seq<bool>, i: nat, j: nat, k: nat)
    requires Square(h, N) && |open| == N && k <= i < N && j < N && !open[i]
    ensures Inner(Masked(h, open), i, j, k) == 0.0 && Inner(Masked(h, open), j, i, k) == 0.0
    decreases k, 0
  {
    if k > 0 {
      HeldInner(h, open, i, j, k - 1);
      HeldLine(h, open, i, k - 1);
      hide Masked, L, D;
    }
  }

  /** and in no other row. */
  lemma HeldColumn(h: Mat, open: seq<bool>, i: nat, j: nat)
    requires Square(h, N) && |open| == N && i < j < N && !open[i]
    ensures L(Masked(h, open), j, i) == 0.0
  {
    HeldInner(h, open, i, j, i);
    hide Inner;
    assert Masked(h, open)[j][i] == 0.0;
  }

  lemma {:induction false} HeldFore(h: Mat, open: seq<bool>, b: Vec, i: nat, k: nat)
    requires Square(h, N) && |open| == N && |b| == N && k <= i < N && !open[i]
    ensures Fore(Masked(h, open), b, i, k) == 0.0
  {
    hide Masked, L, Y;
    if k > 0 {
      HeldFore(h, open, b, i, k - 1);
      HeldLine(h, open, i, k - 1);
    }
  }

  lemma {:induction false} HeldAft(h: Mat, open: seq<bool>, b: Vec, i: nat, k: nat)
    requires Square(h, N) && |open| == N && |b| == N && i < k <= N && !open[i]
    ensures Aft(Masked(h, open), b, i, k) == 0.0
  {
    hide Masked, L, P;
    if k > i + 1 {
      HeldAft(h, open, b, i, k - 1);
      HeldColumn(h, open, i, k - 1);
    }
  }

  /** A held rotor takes no step, whatever was clamped. */
  lemma HeldStill(h: Mat, open: seq<bool>, r: Vec, i: nat)
    requires Square(h, N) && |open| == N && |r| == N && i < N && !open[i]
    ensures P(Masked(h, open), MaskedSlope(r, open), i) == 0.0
  {
    hide Masked, D, Fore, Aft;
    HeldFore(h, open, MaskedSlope(r, open), i, i);
    HeldAft(h, open, MaskedSlope(r, open), i, N);
  }

  lemma MaskedSymmetric(h: Mat, open: seq<bool>)
    requires Square(h, N) && |open| == N && Symmetric(h)
    ensures Symmetric(Masked(h, open))
  {
  }

  /** An open rotor's own equation, over all the rotors: the held ones step nowhere. */
  lemma OpenSolves(h: Mat, open: seq<bool>, r: Vec, i: nat)
    requires Square(h, N) && |open| == N && |r| == N && i < N && open[i]
    requires Symmetric(h) && Unclamped(Masked(h, open))
    ensures Dot(h[i], Solution(Masked(h, open), MaskedSlope(r, open)), N) == r[i]
  {
    var m, b := Masked(h, open), MaskedSlope(r, open);
    var p := Solution(m, b);
    MaskedSymmetric(h, open);
    SolutionSolves(m, b, i);
    forall j | 0 <= j < N
      ensures m[i][j] * p[j] == h[i][j] * p[j]
    {
      if open[j] {
        assert m[i][j] == h[i][j];
      } else {
        HeldStill(h, open, r, j);
      }
    }
    hide Masked, Solution, MaskedSlope;
    DotAlike(m[i], p, h[i], p, N);
  }

  // -- nothing asked -------------------------------------------------------------------------

  lemma {:induction false} NoFore(m: Mat, b: Vec, i: nat, k: nat)
    requires Square(m, N) && |b| == N && k <= i < N && forall j :: 0 <= j < N ==> b[j] == 0.0
    ensures Fore(m, b, i, k) == 0.0 && (k == i ==> Y(m, b, i) == 0.0)
    decreases i, k
  {
    hide L;
    if k > 0 {
      NoFore(m, b, i, k - 1);
      NoFore(m, b, k - 1, k - 1);
    }
  }

  lemma {:induction false} NoAft(m: Mat, b: Vec, i: nat, k: nat)
    requires Square(m, N) && |b| == N && i < k <= N && forall j :: 0 <= j < N ==> b[j] == 0.0
    ensures Aft(m, b, i, k) == 0.0 && (k == N ==> P(m, b, i) == 0.0)
    decreases N - i, k
  {
    hide L, D, Y;
    NoFore(m, b, i, i);
    if k > i + 1 {
      NoAft(m, b, i, k - 1);
      NoAft(m, b, k - 1, N);
    }
  }

  /** No slope on the open rotors, no step anywhere. */
  lemma NoStep(m: Mat, b: Vec)
    requires Square(m, N) && |b| == N && forall j :: 0 <= j < N ==> b[j] == 0.0
    ensures forall i :: 0 <= i < N ==> Solution(m, b)[i] == 0.0
  {
    forall i | 0 <= i < N
      ensures Solution(m, b)[i] == 0.0
    {
      NoAft(m, b, i, N);
    }
  }
}
