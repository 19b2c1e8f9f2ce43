/** The thrust share as it runs: arrays changed in place by a fixed count of passes. */
module ShareCore {
  import opened Sums
  import opened ShareSolve
  import opened SharePass

  /** The set's changes a call. */
  const PASSES: nat := 8
  const NEAR: real := 0.000000000001

  /** A table as the values in it. */
  function MatOf(t: array2<real>): (m: Mat)
    requires t.Length0 == N && t.Length1 == N
    reads t
    ensures Square(m, N)
    ensures forall i, j :: 0 <= i < N && 0 <= j < N ==> m[i][j] == t[i, j]
  {
    seq(N, i requires 0 <= i < N reads t =>
      seq(N, j requires 0 <= j < N reads t => t[i, j]))
  }

  // -- slope ---------------------------------------------------------------------------------

  method SlopeAt(h: array2<real>, g: array<real>, f: array<real>, i: nat) returns (x: real)
    requires h.Length0 == N && h.Length1 == N && g.Length == N && f.Length == N && i < N
    ensures x == g[i] - Dot(MatOf(h)[i], f[..], N)
  {
    x := g[i];
    for j := 0 to N
      invariant x == g[i] - Dot(MatOf(h)[i], f[..], j)
    {
      x := x - h[i, j] * f[j];
    }
  }

  /** The cost's slope at `f`, downhill positive. */
  method SlopeInto(h: array2<real>, g: array<real>, f: array<real>, r: array<real>)
    requires h.Length0 == N && h.Length1 == N && g.Length == N && f.Length == N && r.Length == N
    requires r != g && r != f
    modifies r
    ensures r[..] == Slope(MatOf(h), g[..], f[..])
  {
    hide Dot;
    for i := 0 to N
      invariant forall k :: 0 <= k < i ==> r[k] == g[k] - Dot(MatOf(h)[k], f[..], N)
    {
      r[i] := SlopeAt(h, g, f, i);
    }
  }

  // -- solve ---------------------------------------------------------------------------------

  /** One row of the curvature with the held rotors masked out of it. */
  method MaskRow(h: array2<real>, open: array<bool>, m: array2<real>, i: nat)
    requires h.Length0 == N && h.Length1 == N && m.Length0 == N && m.Length1 == N
    requires open.Length == N && m != h && i < N
    modifies m
    ensures forall b :: 0 <= b < N ==> m[i, b] == MaskedAt(MatOf(h), open[..], i, b)
    ensures forall a, b :: 0 <= a < N && 0 <= b < N && a != i ==> m[a, b] == old(m[a, b])
  {
    for j := 0 to N
      invariant forall a, b :: 0 <= a < N && 0 <= b < N && a != i ==> m[a, b] == old(m[a, b])
      invariant forall b :: 0 <= b < j ==> m[i, b] == One(open[i]) * One(open[b]) * h[i, b]
    {
      m[i, j] := One(open[i]) * One(open[j]) * h[i, j];
    }
    m[i, i] := m[i, i] + (1.0 - One(open[i]));
  }

  method MaskInto(h: array2<real>, open: array<bool>, m: array2<real>)
    requires h.Length0 == N && h.Length1 == N && m.Length0 == N && m.Length1 == N
    requires open.Length == N && m != h
    modifies m
    ensures MatOf(m) == Masked(MatOf(h), open[..])
  {
    hide MaskedAt;
    for i := 0 to N
      invariant forall a, b :: 0 <= a < i && 0 <= b < N ==>
                  m[a, b] == MaskedAt(MatOf(h), open[..], a, b)
    {
      MaskRow(h, open, m, i);
    }
    var x, y := MatOf(m), Masked(MatOf(h), open[..]);
    assert forall i :: 0 <= i < N ==> x[i] == y[i];
  }

  /** The factor's columns before `j`: made, and zero from there on. */
  ghost predicate Made(m: Mat, l: array2<real>, d: array<real>, j: nat)
    requires Square(m, N) && l.Length0 == N && l.Length1 == N && d.Length == N && j <= N
    reads l, d
  {
    && (forall a, b :: 0 <= a < N && 0 <= b < N ==> l[a, b] == if b < j then L(m, a, b) else 0.0)
    && (forall b :: 0 <= b < j ==> d[b] == D(m, b))
  }

  /** Column `j` made down to row `i`. */
  ghost predicate Making(m: Mat, l: array2<real>, d: array<real>, j: nat, i: nat)
    requires Square(m, N) && l.Length0 == N && l.Length1 == N && d.Length == N && j < N && i <= N
    reads l, d
  {
    && (forall a, b :: 0 <= a < N && 0 <= b < N ==>
          l[a, b] == if b < j || (b == j && a < i) then L(m, a, b) else 0.0)
    && (forall b :: 0 <= b <= j ==> d[b] == D(m, b))
  }

  method PivotAt(m: array2<real>, l: array2<real>, d: array<real>, j: nat) returns (pivot: real)
    requires m.Length0 == N && m.Length1 == N && l.Length0 == N && l.Length1 == N
    requires d.Length == N && j < N && Made(MatOf(m), l, d, j)
    ensures pivot == Pivot(MatOf(m), j)
  {
    hide L, D;
    pivot := m[j, j];
    for k := 0 to N
      invariant pivot == m[j, j] - Inner(MatOf(m), j, j, if k < j then k else j)
    {
      pivot := pivot - l[j, k] * l[j, k] * d[k];
    }
  }

  method BelowAt(m: array2<real>, l: array2<real>, d: array<real>, i: nat, j: nat)
    returns (below: real)
    requires m.Length0 == N && m.Length1 == N && l.Length0 == N && l.Length1 == N
    requires d.Length == N && j < N && i < N && Making(MatOf(m), l, d, j, i)
    ensures below == MatOf(m)[i][j] - Inner(MatOf(m), i, j, j)
  {
    hide L, D;
    below := m[i, j];
    for k := 0 to N
      invariant below == m[i, j] - Inner(MatOf(m), i, j, if k < j then k else j)
    {
      UnderZero(MatOf(m), j, k);
      below := below - l[i, k] * l[j, k] * d[k];
    }
  }

  lemma UnderZero(m: Mat, j: nat, k: nat)
    requires Square(m, N) && j < N && k < N
    ensures j <= k ==> L(m, j, k) == 0.0
  {
  }

  function Under(i: nat, j: nat): real {
    if i > j then 1.0 else 0.0
  }

  /** The factors column by column. Sums run over all N entries, those not computed yet standing at
      nought. */
  method FactorInto(m: array2<real>, l: array2<real>, d: array<real>)
    requires m.Length0 == N && m.Length1 == N && l.Length0 == N && l.Length1 == N
    requires d.Length == N && m != l && Made(MatOf(m), l, d, 0)
    modifies l, d
    ensures Made(MatOf(m), l, d, N)
  {
    hide L, Inner;
    ghost var mm := MatOf(m);
    for j := 0 to N
      invariant MatOf(m) == mm && Made(mm, l, d, j)
    {
      var pivot := PivotAt(m, l, d, j);
      d[j] := Most(pivot, Least());
      for i := 0 to N
        invariant MatOf(m) == mm && Making(mm, l, d, j, i)
      {
        var below := BelowAt(m, l, d, i, j);
        LBelow(mm, i, j);
        l[i, j] := Under(i, j) * below / d[j];
      }
    }
  }

  lemma LBelow(m: Mat, i: nat, j: nat)
    requires Square(m, N) && i < N && j < N
    ensures L(m, i, j) == Under(i, j) * (m[i][j] - Inner(m, i, j, j)) / D(m, j)
  {
    hide Inner, D;
  }

  method ForeAt(ghost m: Mat, l: array2<real>, ghost b: Vec, start: real, y: array<real>,
                i: nat) returns (x: real)
    requires Square(m, N) && l.Length0 == N && l.Length1 == N && |b| == N && y.Length == N && i < N
    requires forall a, c :: 0 <= a < N && 0 <= c < N ==> l[a, c] == L(m, a, c)
    requires forall k :: 0 <= k < i ==> y[k] == Y(m, b, k)
    requires start == b[i]
    ensures x == Y(m, b, i)
  {
    x := start;
    for k := 0 to N
      invariant x == b[i] - Fore(m, b, i, if k < i then k else i)
    {
      UnderZero(m, i, k);
      hide L;
      x := x - l[i, k] * y[k];
    }
  }

  method AftAt(ghost m: Mat, l: array2<real>, ghost b: Vec, d: array<real>, y: array<real>,
               p: array<real>, i: nat) returns (x: real)
    requires Square(m, N) && l.Length0 == N && l.Length1 == N && |b| == N && i < N
    requires d.Length == N && y.Length == N && p.Length == N
    requires forall a, c :: 0 <= a < N && 0 <= c < N ==> l[a, c] == L(m, a, c)
    requires forall k :: 0 <= k < N ==> d[k] == D(m, k) && y[k] == Y(m, b, k)
    requires forall k :: i < k < N ==> p[k] == P(m, b, k)
    ensures x == P(m, b, i)
  {
    hide L, D, Y;
    x := y[i] / d[i];
    ghost var whole := x;
    for k := 0 to N
      invariant x == whole - if k <= i then 0.0 else Aft(m, b, i, k)
    {
      UnderZero(m, k, i);
      AftMore(m, b, i, k);
      hide P, Aft;
      x := x - l[k, i] * p[k];
    }
  }

  lemma AftMore(m: Mat, b: Vec, i: nat, k: nat)
    requires Square(m, N) && |b| == N && i < N && k < N
    ensures k == i ==> Aft(m, b, i, k + 1) == 0.0
    ensures i < k ==> Aft(m, b, i, k + 1) == Aft(m, b, i, k) + L(m, k, i) * P(m, b, k)
  {
    hide L, P;
  }

  method ForeInto(ghost m: Mat, l: array2<real>, ghost b: Vec, d: array<real>,
                  open: array<bool>, r: array<real>, y: array<real>)
    requires Square(m, N) && l.Length0 == N && l.Length1 == N && |b| == N && d.Length == N
    requires open.Length == N && r.Length == N && y.Length == N && y != r && y != d
    requires Made(m, l, d, N) && b == MaskedSlope(r[..], open[..])
    modifies y
    ensures forall k :: 0 <= k < N ==> y[k] == Y(m, b, k)
  {
    hide L, D, Y;
    for i := 0 to N
      invariant Made(m, l, d, N) && b == MaskedSlope(r[..], open[..])
      invariant forall k :: 0 <= k < i ==> y[k] == Y(m, b, k)
    {
      y[i] := ForeAt(m, l, b, One(open[i]) * r[i], y, i);
    }
  }

  method AftInto(ghost m: Mat, l: array2<real>, ghost b: Vec, d: array<real>, y: array<real>,
                 p: array<real>)
    requires Square(m, N) && l.Length0 == N && l.Length1 == N && |b| == N
    requires d.Length == N && y.Length == N && p.Length == N && p != d && p != y
    requires Made(m, l, d, N) && forall k :: 0 <= k < N ==> y[k] == Y(m, b, k)
    modifies p
    ensures p[..] == Solution(m, b)
  {
    hide L, D, Y, P;
    for i := N downto 0
      invariant Made(m, l, d, N) && forall k :: 0 <= k < N ==> y[k] == Y(m, b, k)
      invariant forall k :: i <= k < N ==> p[k] == P(m, b, k)
    {
      p[i] := AftAt(m, l, b, d, y, p, i);
    }
  }

  /** The way of the open rotors to their own best, 0 for the held. */
  method SolveInto(h: array2<real>, open: array<bool>, r: array<real>, p: array<real>)
    requires h.Length0 == N && h.Length1 == N && open.Length == N && r.Length == N && p.Length == N
    requires p != r
    modifies p
    ensures p[..] == Solution(Masked(MatOf(h), open[..]), MaskedSlope(r[..], open[..]))
  {
    hide L, D, Y, P, Masked, Solution, MaskedSlope;
    var m, l := new real[N, N], new real[N, N]((i, j) => 0.0);
    var d, y := new real[N], new real[N](i => 0.0);
    ghost var mm, b := Masked(MatOf(h), open[..]), MaskedSlope(r[..], open[..]);
    MaskInto(h, open, m);
    FactorInto(m, l, d);
    ForeInto(mm, l, b, d, open, r, y);
    AftInto(mm, l, b, d, y, p);
  }

  // -- a pass --------------------------------------------------------------------------------

  function SetOf(f: array<real>, open: array<bool>, side: array<real>): Set
    reads f, open, side
  {
    Set(f[..], open[..], side[..])
  }

  /** How far along the way the first end is met, and every rotor's own reach. */
  method AlphaInto(ghost q: Ask, ghost s: Set, low: array<real>, high: array<real>,
                   f: array<real>, p: array<real>, reach: array<real>) returns (alpha: real)
    requires AskOk(q) && SetOk(s) && low.Length == N && high.Length == N && f.Length == N
    requires p.Length == N && reach.Length == N
    requires reach != low && reach != high && reach != f && reach != p
    requires low[..] == q.low && high[..] == q.high && f[..] == s.f
    modifies reach
    ensures alpha == Alpha(q, s, p[..], N)
    ensures forall i :: 0 <= i < N ==> reach[i] == ReachOf(q, s, p[..], i)
  {
    hide Reach;
    ghost var way := p[..];
    alpha := 1.0;
    for i := 0 to N
      invariant p[..] == way && low[..] == q.low && high[..] == q.high && f[..] == s.f
      invariant alpha == Alpha(q, s, way, i)
      invariant forall k :: 0 <= k < i ==> reach[k] == ReachOf(q, s, way, k)
    {
      var up, down := 0.0 < p[i], p[i] < 0.0;
      var room := if up then high[i] - f[i] else if down then f[i] - low[i] else 0.0;
      RoomReach(p[i], f[i], low[i], high[i]);
      SizePositive(p[i]);
      reach[i] := if up || down then room / (Size(p[i]) + One(!(up || down))) else FAR;
      alpha := Lesser(alpha, reach[i]);
    }
  }

  lemma SizePositive(p: real)
    ensures Size(p) + One(!(0.0 < p || p < 0.0)) > 0.0
  {
  }

  lemma RoomReach(p: real, f: real, low: real, high: real)
    ensures p > 0.0 ==> Reach(p, f, low, high) == (high - f) / (Size(p) + 0.0)
    ensures p < 0.0 ==> Reach(p, f, low, high) == (f - low) / (Size(p) + 0.0)
    ensures p == 0.0 ==> Reach(p, f, low, high) == FAR
  {
  }

  lemma SteppedFIs(q: Ask, s: Set, p: Vec, i: nat)
    requires AskOk(q) && SetOk(s) && |p| == N && i < N
    ensures Hit(q, s, p, i)
        <==> Alpha(q, s, p, N) < 1.0 && s.open[i] && !(Alpha(q, s, p, N) < ReachOf(q, s, p, i))
    ensures SteppedF(q, s, p, i)
         == if Hit(q, s, p, i) && 0.0 < p[i] then q.high[i]
            else if Hit(q, s, p, i) && p[i] < 0.0 then q.low[i]
            else s.f[i] + Alpha(q, s, p, N) * p[i]
    ensures Sign(p[i]) == One(0.0 < p[i]) - One(p[i] < 0.0)
  {
    hide Alpha, ReachOf;
  }

  /** Moves every open rotor by the step length, and holds those it brings to an end. */
  method StepInto(ghost q: Ask, ghost s: Set, low: array<real>, high: array<real>, alpha: real,
                  reach: array<real>, p: array<real>,
                  f: array<real>, open: array<bool>, side: array<real>)
    requires AskOk(q) && SetOk(s) && low.Length == N && high.Length == N && f.Length == N
    requires p.Length == N && reach.Length == N && open.Length == N && side.Length == N
    requires low[..] == q.low && high[..] == q.high && SetOf(f, open, side) == s
    requires f !in {low, high, p, reach, side} && side !in {low, high, p, reach}
    requires alpha == Alpha(q, s, p[..], N)
    requires forall i :: 0 <= i < N ==> reach[i] == ReachOf(q, s, p[..], i)
    modifies f, open, side
    ensures SetOf(f, open, side) == Stepped(q, s, p[..])
  {
    hide Alpha, Reach, Hit, SteppedF, ReachOf, AskOk;
    ghost var t, way := Stepped(q, s, p[..]), p[..];
    for i := 0 to N
      invariant low[..] == q.low && high[..] == q.high && p[..] == way
      invariant forall k :: 0 <= k < i ==>
                  f[k] == t.f[k] && open[k] == t.open[k] && side[k] == t.side[k]
      invariant forall k :: i <= k < N ==>
                  f[k] == s.f[k] && open[k] == s.open[k] && side[k] == s.side[k]
    {
      SteppedFIs(q, s, way, i);
      StepOne(alpha < 1.0, alpha, low[i], high[i], reach[i], p[i], f, open, side, i);
    }
  }

  method StepOne(stopped: bool, alpha: real, low: real, high: real, reach: real, p: real,
                 f: array<real>, open: array<bool>, side: array<real>, i: nat)
    requires f.Length == N && open.Length == N && side.Length == N && i < N && f != side
    modifies f, open, side
    ensures forall k :: 0 <= k < N && k != i ==>
              f[k] == old(f[k]) && open[k] == old(open[k]) && side[k] == old(side[k])
    ensures var hit := stopped && old(open[i]) && !(alpha < reach);
            && f[i] == (if hit && 0.0 < p then high else if hit && p < 0.0 then low
                        else old(f[i]) + alpha * p)
            && open[i] == (old(open[i]) && !hit)
            && side[i] == if hit then One(0.0 < p) - One(p < 0.0) else old(side[i])
  {
    var up, down := 0.0 < p, p < 0.0;
    var hit := stopped && open[i] && !(alpha < reach);
    f[i] := f[i] + alpha * p;
    f[i] := if hit && up then high else f[i];
    f[i] := if hit && down then low else f[i];
    side[i] := if hit then One(up) - One(down) else side[i];
    open[i] := open[i] && !hit;
  }

  /** Frees, of the rotors held, those with the steepest slope back into the box. */
  method ReleaseInto(near: real, stopped: bool, r: array<real>,
                     open: array<bool>, side: array<real>, ghost f: Vec)
    requires r.Length == N && open.Length == N && side.Length == N && |f| == N
    requires side != r
    modifies open, side
    ensures Set(f, open[..], side[..])
         == Released(near, Set(f, old(open[..]), old(side[..])), r[..], stopped)
  {
    hide Worst, Inward, Freed;
    ghost var t, rr := Set(f, open[..], side[..]), r[..];
    ghost var u := Released(near, t, rr, stopped);
    var worst := WorstOf(near, r, open, side, f);
    for i := 0 to N
      invariant forall k :: 0 <= k < i ==> open[k] == u.open[k] && side[k] == u.side[k]
      invariant forall k :: i <= k < N ==> open[k] == t.open[k] && side[k] == t.side[k]
      invariant r[..] == rr
    {
      FreedIs(near, t, rr, stopped, i);
      var inward := -side[i] * r[i] * One(!open[i]);
      var go := !stopped && !(inward < worst);
      open[i] := open[i] || go;
      side[i] := if go then 0.0 else side[i];
    }
    assert open[..] == u.open && side[..] == u.side;
  }

  lemma FreedIs(near: real, t: Set, r: Vec, stopped: bool, i: nat)
    requires SetOk(t) && |r| == N && i < N
    ensures Inward(t, r, i) == -t.side[i] * r[i] * One(!t.open[i])
    ensures Freed(near, t, r, stopped, i)
        <==> !stopped && !(Inward(t, r, i) < Worst(near, t, r, N))
  {
    hide Worst;
  }

  method WorstOf(near: real, r: array<real>, open: array<bool>, side: array<real>, ghost f: Vec)
    returns (worst: real)
    requires r.Length == N && open.Length == N && side.Length == N && |f| == N
    ensures worst == Worst(near, Set(f, open[..], side[..]), r[..], N)
  {
    worst := near;
    for i := 0 to N
      invariant worst == Worst(near, Set(f, open[..], side[..]), r[..], i)
    {
      worst := Most(worst, -side[i] * r[i] * One(!open[i]));
    }
  }

  method PassInto(ghost q: Ask, h: array2<real>, g: array<real>, low: array<real>,
                  high: array<real>, near: real, r: array<real>, p: array<real>,
                  reach: array<real>, f: array<real>, open: array<bool>, side: array<real>)
    requires AskOk(q) && h.Length0 == N && h.Length1 == N && g.Length == N
    requires low.Length == N && high.Length == N && r.Length == N && p.Length == N
    requires reach.Length == N && f.Length == N && open.Length == N && side.Length == N
    requires q == Ask(MatOf(h), g[..], low[..], high[..], near)
    requires r !in {g, low, high, p, reach, f, side} && p !in {g, low, high, reach, f, side}
    requires reach !in {g, low, high, f, side} && f !in {g, low, high, side}
    requires side !in {g, low, high}
    modifies r, p, reach, f, open, side
    ensures SetOf(f, open, side) == Pass(q, old(SetOf(f, open, side)))
  {
    hide Slope, Solution, Masked, MaskedSlope, Alpha, Reach, Stepped, Released, MatOf, Square;
    ghost var s := SetOf(f, open, side);
    SlopeInto(h, g, f, r);
    SolveInto(h, open, r, p);
    assert p[..] == Way(q, s);
    var alpha := AlphaInto(q, s, low, high, f, p, reach);
    StepInto(q, s, low, high, alpha, reach, p, f, open, side);
    SlopeInto(h, g, f, r);
    ReleaseInto(near, alpha < 1.0, r, open, side, f[..]);
  }

  // -- the share -----------------------------------------------------------------------------

  /** Where the rotors stand on the frame and what turns they give a newton of thrust. */
  datatype Frame = Frame(atX: Vec, atZ: Vec, spin: Vec, kappa: real)

  ghost predicate FrameOk(s: Frame) {
    |s.atX| == N && |s.atZ| == N && |s.spin| == N
  }

  /** The wrench's rows weighed, a column a rotor. */
  function RowAt(s: Frame, weigh: Vec, k: nat, i: nat): real
    requires FrameOk(s) && |weigh| == N && k < N && i < N
  {
    match k
    case 0 => weigh[0]
    case 1 => -weigh[1] * s.atZ[i]
    case 2 => weigh[2] * s.spin[i] * s.kappa
    case _ => weigh[3] * s.atX[i]
  }

  function Rows(s: Frame, weigh: Vec): (a: Mat)
    requires FrameOk(s) && |weigh| == N
    ensures Square(a, N)
    ensures forall k, i :: 0 <= k < N && 0 <= i < N ==> a[k][i] == RowAt(s, weigh, k, i)
  {
    seq(N, k requires 0 <= k < N => seq(N, i requires 0 <= i < N => RowAt(s, weigh, k, i)))
  }

  function Wanted(weigh: Vec, want: Vec): (t: Vec)
    requires |weigh| == N && |want| == N
    ensures |t| == N
  {
    seq(N, k requires 0 <= k < N => weigh[k] * want[k])
  }

  function Sizes(g: Vec, n: nat): real
    requires n <= |g|
  {
    if n == 0 then 0.0 else Sizes(g, n - 1) + Size(g[n - 1])
  }

  /** The problem the share solves. */
  function AskOf(s: Frame, weigh: Vec, want: Vec, lo: Vec, hi: Vec): (q: Ask)
    requires FrameOk(s) && |weigh| == N && |want| == N && |lo| == N && |hi| == N
    ensures Laid(q, Rows(s, weigh), Wanted(weigh, want))
  {
    var a, t := Rows(s, weigh), Wanted(weigh, want);
    SizesNonneg(Pull(a, t), N);
    Ask(Gram(a), Pull(a, t), lo, seq(N, i requires 0 <= i < N => Most(lo[i], hi[i])),
        NEAR + NEAR * Sizes(Pull(a, t), N))
  }

  lemma {:induction false} SizesNonneg(g: Vec, n: nat)
    requires n <= |g|
    ensures Sizes(g, n) >= 0.0
  {
    if n > 0 {
      SizesNonneg(g, n - 1);
    }
  }

  /** From the middle of each rotor's reach, those with none held. */
  function Start(q: Ask): (s: Set)
    requires AskOk(q)
    ensures Good(q, s)
  {
    Set(seq(N, i requires 0 <= i < N => 0.5 * (q.low[i] + q.high[i])),
        seq(N, i requires 0 <= i < N => q.low[i] < q.high[i]),
        seq(N, i requires 0 <= i < N => 0.0))
  }

  lemma {:induction false} PassesKeep(q: Ask, s: Set, n: nat)
    requires AskOk(q) && Good(q, s)
    ensures Good(q, Passes(q, s, n))
  {
    assert SetOk(s);
    hide Pass, Good;
    if n > 0 {
      PassesKeep(q, s, n - 1);
      PassKeeps(q, Passes(q, s, n - 1));
    }
  }

  /** The rows and the wrench's pull on them. */
  method LayRows(s: Frame, weigh: Vec, a: array2<real>)
    requires FrameOk(s) && |weigh| == N && a.Length0 == N && a.Length1 == N
    modifies a
    ensures MatOf(a) == Rows(s, weigh)
  {
    for i := 0 to N
      invariant forall r, k :: 0 <= r < N && 0 <= k < i ==> a[r, k] == RowAt(s, weigh, r, k)
    {
      RowsAre(s, weigh, i);
      hide RowAt;
      a[0, i] := weigh[0];
      a[1, i] := -weigh[1] * s.atZ[i];
      a[2, i] := weigh[2] * s.spin[i] * s.kappa;
      a[3, i] := weigh[3] * s.atX[i];
    }
    RowsAlike(MatOf(a), Rows(s, weigh));
  }

  lemma RowsAre(s: Frame, weigh: Vec, i: nat)
    requires FrameOk(s) && |weigh| == N && i < N
    ensures RowAt(s, weigh, 0, i) == weigh[0]
    ensures RowAt(s, weigh, 1, i) == -weigh[1] * s.atZ[i]
    ensures RowAt(s, weigh, 2, i) == weigh[2] * s.spin[i] * s.kappa
    ensures RowAt(s, weigh, 3, i) == weigh[3] * s.atX[i]
  {
  }

  lemma RowsAlike(a: Mat, b: Mat)
    requires Square(a, N) && Square(b, N)
    requires forall k, i :: 0 <= k < N && 0 <= i < N ==> a[k][i] == b[k][i]
    ensures a == b
  {
    forall k | 0 <= k < N
      ensures a[k] == b[k]
    {
    }
  }

  method PullAtRotor(a: array2<real>, weigh: Vec, want: Vec, i: nat) returns (g: real)
    requires a.Length0 == N && a.Length1 == N && |weigh| == N && |want| == N && i < N
    ensures g == Pull(MatOf(a), Wanted(weigh, want))[i]
  {
    g := 0.0;
    for k := 0 to N
      invariant g == Dot(Col(MatOf(a), i), Wanted(weigh, want), k)
    {
      assert a[k, i] * weigh[k] * want[k] == a[k, i] * (weigh[k] * want[k]);
      g := g + a[k, i] * weigh[k] * want[k];
    }
  }

  method GramAt(a: array2<real>, i: nat, j: nat) returns (h: real)
    requires a.Length0 == N && a.Length1 == N && i < N && j < N
    ensures h == Gram(MatOf(a))[i][j]
  {
    h := 0.0;
    for k := 0 to N
      invariant h == Column(Col(MatOf(a), i), MatOf(a), k, j)
    {
      h := h + a[k, i] * a[k, j];
    }
  }

  method Lay(s: Frame, weigh: Vec, want: Vec, h: array2<real>, g: array<real>)
    requires FrameOk(s) && |weigh| == N && |want| == N
    requires h.Length0 == N && h.Length1 == N && g.Length == N
    modifies h, g
    ensures MatOf(h) == Gram(Rows(s, weigh)) && g[..] == Pull(Rows(s, weigh), Wanted(weigh, want))
  {
    hide Rows, Wanted, Gram, Pull, RowAt;
    var a := new real[N, N];
    LayRows(s, weigh, a);
    ghost var hh, gg := Gram(Rows(s, weigh)), Pull(Rows(s, weigh), Wanted(weigh, want));
    for i := 0 to N
      invariant MatOf(a) == Rows(s, weigh)
      invariant forall x, y :: 0 <= x < i && 0 <= y < N ==> h[x, y] == hh[x][y]
      invariant forall x :: 0 <= x < i ==> g[x] == gg[x]
    {
      g[i] := PullAtRotor(a, weigh, want, i);
      for j := 0 to N
        invariant MatOf(a) == Rows(s, weigh)
        invariant forall x :: 0 <= x <= i ==> g[x] == gg[x]
        invariant forall x, y :: 0 <= x < i && 0 <= y < N ==> h[x, y] == hh[x][y]
        invariant forall y :: 0 <= y < j ==> h[i, y] == hh[i][y]
      {
        h[i, j] := GramAt(a, i, j);
      }
    }
    RowsAlike(MatOf(h), hh);
  }

  /** Each rotor's reach, the middle of it, and how hard an end must be pulled to be let go. */
  method Begin(ghost q: Ask, lo: Vec, hi: Vec, g: array<real>, low: array<real>,
               high: array<real>, f: array<real>, open: array<bool>, side: array<real>)
    returns (near: real)
    requires AskOk(q) && |lo| == N && |hi| == N && g.Length == N && low.Length == N
    requires high.Length == N && f.Length == N && open.Length == N && side.Length == N
    requires g[..] == q.g && q.low == lo && q.near == NEAR + NEAR * Sizes(q.g, N)
    requires forall i :: 0 <= i < N ==> q.high[i] == Most(lo[i], hi[i])
    requires low != high && low != f && low != side && high != f && high != side && f != side
    requires g !in {low, high, f, side}
    modifies low, high, f, open, side
    ensures low[..] == q.low && high[..] == q.high && near == q.near
    ensures SetOf(f, open, side) == Start(q)
  {
    near := NEAR;
    ghost var z := Start(q);
    for i := 0 to N
      invariant g[..] == q.g
      invariant forall k :: 0 <= k < i ==>
                  low[k] == q.low[k] && high[k] == q.high[k] && f[k] == z.f[k]
                  && open[k] == z.open[k] && side[k] == z.side[k]
      invariant near == NEAR + NEAR * Sizes(q.g, i)
    {
      low[i] := lo[i];
      high[i] := Most(low[i], hi[i]);
      f[i] := 0.5 * (low[i] + high[i]);
      open[i] := low[i] < high[i];
      side[i] := 0.0;
      near := near + NEAR * Size(g[i]);
    }
    assert low[..] == q.low && high[..] == q.high;
    assert f[..] == z.f && open[..] == z.open && side[..] == z.side;
  }

  /** The thrusts put inside their reach, where they are, and which are at its ends. */
  method End(ghost q: Ask, low: array<real>, high: array<real>, f: array<real>)
    returns (atLow: seq<bool>, atHigh: seq<bool>)
    requires AskOk(q) && low.Length == N && high.Length == N && f.Length == N
    requires low[..] == q.low && high[..] == q.high && f != low && f != high && InBox(q, f[..])
    modifies f
    ensures f[..] == old(f[..]) && |atLow| == N && |atHigh| == N
    ensures forall i :: 0 <= i < N ==>
              (atLow[i] <==> f[i] == q.low[i]) && (atHigh[i] <==> f[i] == q.high[i])
  {
    ghost var last := f[..];
    atLow, atHigh := [], [];
    for i := 0 to N
      invariant low[..] == q.low && high[..] == q.high && f[..] == last
      invariant |atLow| == i && |atHigh| == i
      invariant forall k :: 0 <= k < i ==>
                  (atLow[k] <==> f[k] == q.low[k]) && (atHigh[k] <==> f[k] == q.high[k])
    {
      assert q.low[i] <= last[i] <= q.high[i];
      assert f[i] == last[i] && low[i] == q.low[i] && high[i] == q.high[i];
      f[i] := Lesser(high[i], Most(low[i], f[i]));
      assert f[i] == last[i];
      assert f[..] == last;
      atLow := atLow + [!(low[i] < f[i])];
      atHigh := atHigh + [!(f[i] < high[i])];
    }
  }

  /** The eight passes, from the middle. */
  method RunPasses(ghost q: Ask, h: array2<real>, g: array<real>, low: array<real>,
                   high: array<real>, near: real, f: array<real>, open: array<bool>,
                   side: array<real>)
    requires AskOk(q) && h.Length0 == N && h.Length1 == N && g.Length == N
    requires low.Length == N && high.Length == N && f.Length == N && open.Length == N
    requires side.Length == N && q == Ask(MatOf(h), g[..], low[..], high[..], near)
    requires f !in {g, low, high, side} && side !in {g, low, high}
    requires SetOf(f, open, side) == Start(q)
    modifies f, open, side
    ensures SetOf(f, open, side) == Passes(q, Start(q), 8)
  {
    hide Pass, Start, MatOf;
    var r, p, reach := new real[N], new real[N], new real[N];
    for pass := 0 to PASSES
      invariant q == Ask(MatOf(h), g[..], low[..], high[..], near)
      invariant SetOf(f, open, side) == Passes(q, Start(q), pass)
    {
      PassInto(q, h, g, low, high, near, r, p, reach, f, open, side);
    }
  }

  /** Thrusts within their ranges that come closest to a wrench: within them whatever is asked, and
      the active set's own after its passes. */
  method Share(s: Frame, weigh: Vec, want: Vec, lo: Vec, hi: Vec, f: array<real>)
    returns (atLow: seq<bool>, atHigh: seq<bool>)
    requires FrameOk(s) && |weigh| == N && |want| == N && |lo| == N && |hi| == N && f.Length == N
    modifies f
    ensures var q := AskOf(s, weigh, want, lo, hi);
            && f[..] == Passes(q, Start(q), 8).f
            && |atLow| == N && |atHigh| == N
            && forall i :: 0 <= i < N ==>
                 var high := if lo[i] < hi[i] then hi[i] else lo[i];
                 && lo[i] <= f[i] <= high
                 && (atLow[i] <==> f[i] == lo[i]) && (atHigh[i] <==> f[i] == high)
  {
    hide Gram, Pull, Pass, Rows, Wanted, Start, MatOf, Sizes;
    ghost var q := AskOf(s, weigh, want, lo, hi);
    var h, g := new real[N, N], new real[N];
    Lay(s, weigh, want, h, g);
    var low, high, open, side := new real[N], new real[N], new bool[N], new real[N];
    var near := Begin(q, lo, hi, g, low, high, f, open, side);
    RunPasses(q, h, g, low, high, near, f, open, side);
    PassesKeep(q, Start(q), 8);
    atLow, atHigh := End(q, low, high, f);
  }

  /** What the share gives. No pivot clamped on the way, its cost is never above the middle's; and
      if any of its passes settled, nothing in the reaches is better by more than `near` a newton
      away. */
  lemma ShareGives(s: Frame, weigh: Vec, want: Vec, lo: Vec, hi: Vec, k: nat, x: Vec)
    requires FrameOk(s) && |weigh| == N && |want| == N && |lo| == N && |hi| == N && k < 8
    requires var q := AskOf(s, weigh, want, lo, hi);
             InBox(q, x) && AllClear(q, Start(q), 8)
    ensures var q := AskOf(s, weigh, want, lo, hi);
            var a, t := Rows(s, weigh), Wanted(weigh, want);
            var f := Passes(q, Start(q), 8).f;
            && Cost(a, t, f) <= Cost(a, t, Start(q).f)
            && (Settled(q, Passes(q, Start(q), k)) ==>
                  Cost(a, t, f) <= Cost(a, t, x) + Slack(q.near, x, f))
  {
    hide Rows, Wanted, AskOf, Cost, Clear, Settled, Pass, Slack;
    var q, a, t := AskOf(s, weigh, want, lo, hi), Rows(s, weigh), Wanted(weigh, want);
    assert SetOk(Start(q)) && Clear(q, Passes(q, Start(q), k));
    hide Start, Good;
    PassesDescend(q, Start(q), a, t, 8);
    PassesKeep(q, Start(q), k);
    var u := Passes(q, Start(q), k);
    if Settled(q, u) {
      GramSymmetric(a);
      SettledFor(q, u, 7 - k);
      PassesAdd(q, Start(q), k, 8 - k);
      SettledBest(q, u, a, t, x);
    }
  }

  lemma PassDown(q: Ask, s: Set, a: Mat, t: Vec, n: nat)
    requires Laid(q, a, t) && Good(q, s) && Clear(q, Passes(q, s, n))
    ensures Cost(a, t, Passes(q, s, n + 1).f) <= Cost(a, t, Passes(q, s, n).f)
  {
    assert SetOk(s);
    hide Cost, Clear, Pass, Good, SetOk;
    PassesKeep(q, s, n);
    PassDescends(q, Passes(q, s, n), a, t);
  }

  ghost predicate AllClear(q: Ask, s: Set, n: nat)
    requires AskOk(q) && SetOk(s)
  {
    forall k :: 0 <= k < n ==> Clear(q, Passes(q, s, k))
  }

  lemma {:induction false} PassesDescend(q: Ask, s: Set, a: Mat, t: Vec, n: nat)
    requires Laid(q, a, t) && Good(q, s) && AllClear(q, s, n)
    ensures Cost(a, t, Passes(q, s, n).f) <= Cost(a, t, s.f)
  {
    assert AskOk(q) && SetOk(s) && Square(a, N) && |t| == N;
    assert n > 0 ==> Clear(q, Passes(q, s, n - 1)) && AllClear(q, s, n - 1);
    assert Passes(q, s, 0) == s;
    hide Cost, Clear, Pass, Passes, Good, Laid, AllClear, AskOk, SetOk;
    if n > 0 {
      PassesDescend(q, s, a, t, n - 1);
      PassDown(q, s, a, t, n - 1);
    }
  }

  lemma {:induction false} PassesAdd(q: Ask, s: Set, m: nat, n: nat)
    requires AskOk(q) && SetOk(s)
    ensures Passes(q, Passes(q, s, m), n) == Passes(q, s, m + n)
  {
    hide Pass;
    if n > 0 {
      PassesAdd(q, s, m, n - 1);
    }
  }
}
