/** One pass of the share's active set, as the values it makes. */
module SharePass {
  import opened Sums
  import opened ShareSolve

  /** The reach given to a rotor that does not move, longer than any real one. */
  const FAR: real := 1000000000000000000000000000000.0

  /** What is asked: the curvature, the pull of the wrench wanted, each rotor's reach, and how
      hard a held rotor must be pulled inward to be let go. */
  datatype Ask = Ask(h: Mat, g: Vec, low: Vec, high: Vec, near: real)

  /** The thrusts, the rotors not held at an end, and which end holds the rest. */
  datatype Set = Set(f: Vec, open: seq<bool>, side: Vec)

  ghost predicate AskOk(q: Ask) {
    && Square(q.h, N) && |q.g| == N && |q.low| == N && |q.high| == N && q.near > 0.0
    && forall i :: 0 <= i < N ==> q.low[i] <= q.high[i]
  }

  ghost predicate SetOk(s: Set) {
    |s.f| == N && |s.open| == N && |s.side| == N
  }

  function Slope(h: Mat, g: Vec, f: Vec): (r: Vec)
    requires Square(h, N) && |g| == N && |f| == N
    ensures |r| == N && forall i :: 0 <= i < N ==> r[i] == g[i] - Dot(h[i], f, N)
  {
    seq(N, i requires 0 <= i < N => g[i] - Dot(h[i], f, N))
  }

  /** The step from here to where the open rotors alone would be best. */
  function Way(q: Ask, s: Set): (p: Vec)
    requires AskOk(q) && SetOk(s)
    ensures |p| == N
  {
    Solution(Masked(q.h, s.open), MaskedSlope(Slope(q.h, q.g, s.f), s.open))
  }

  function Lesser(a: real, b: real): real {
    if b < a then b else a
  }

  function Size(x: real): real {
    if x < 0.0 then -x else x
  }

  /** How much of its step a rotor may take. */
  function Reach(p: real, f: real, low: real, high: real): real {
    if p > 0.0 then (high - f) / Size(p)
    else if p < 0.0 then (f - low) / Size(p)
    else FAR
  }

  function ReachOf(q: Ask, s: Set, p: Vec, i: nat): real
    requires AskOk(q) && SetOk(s) && |p| == N && i < N
  {
    Reach(p[i], s.f[i], q.low[i], q.high[i])
  }

  /** The least of the first `n` reaches, and of the whole step. */
  function Alpha(q: Ask, s: Set, p: Vec, n: nat): real
    requires AskOk(q) && SetOk(s) && |p| == N && n <= N
  {
    if n == 0 then 1.0 else Lesser(Alpha(q, s, p, n - 1), ReachOf(q, s, p, n - 1))
  }

  predicate Hit(q: Ask, s: Set, p: Vec, i: nat)
    requires AskOk(q) && SetOk(s) && |p| == N && i < N
  {
    Alpha(q, s, p, N) < 1.0 && s.open[i] && ReachOf(q, s, p, i) <= Alpha(q, s, p, N)
  }

  function Sign(x: real): real {
    if x > 0.0 then 1.0 else if x < 0.0 then -1.0 else 0.0
  }

  function SteppedF(q: Ask, s: Set, p: Vec, i: nat): real
    requires AskOk(q) && SetOk(s) && |p| == N && i < N
  {
    if Hit(q, s, p, i) && p[i] > 0.0 then q.high[i]
    else if Hit(q, s, p, i) && p[i] < 0.0 then q.low[i]
    else s.f[i] + Alpha(q, s, p, N) * p[i]
  }

  /** The step cut short at the nearest end, and whoever it brings to one held. */
  function Stepped(q: Ask, s: Set, p: Vec): (t: Set)
    requires AskOk(q) && SetOk(s) && |p| == N
    ensures SetOk(t)
    ensures forall i :: 0 <= i < N ==>
              t.f[i] == SteppedF(q, s, p, i) && t.open[i] == (s.open[i] && !Hit(q, s, p, i))
              && t.side[i] == if Hit(q, s, p, i) then Sign(p[i]) else s.side[i]
  {
    Set(seq(N, i requires 0 <= i < N => SteppedF(q, s, p, i)),
        seq(N, i requires 0 <= i < N => s.open[i] && !Hit(q, s, p, i)),
        seq(N, i requires 0 <= i < N => if Hit(q, s, p, i) then Sign(p[i]) else s.side[i]))
  }

  /** What the cost pulls a held rotor's end inward. */
  function Inward(t: Set, r: Vec, i: nat): real
    requires SetOk(t) && |r| == N && i < N
  {
    -t.side[i] * r[i] * One(!t.open[i])
  }

  function Worst(near: real, t: Set, r: Vec, n: nat): real
    requires SetOk(t) && |r| == N && n <= N
  {
    if n == 0 then near else Most(Worst(near, t, r, n - 1), Inward(t, r, n - 1))
  }

  predicate Freed(near: real, t: Set, r: Vec, stopped: bool, i: nat)
    requires SetOk(t) && |r| == N && i < N
  {
    !stopped && Inward(t, r, i) >= Worst(near, t, r, N)
  }

  /** Once the step is done, the held rotors with the steepest slope back into the box are free. */
  function Released(near: real, t: Set, r: Vec, stopped: bool): (u: Set)
    requires SetOk(t) && |r| == N
    ensures SetOk(u) && u.f == t.f
    ensures forall i :: 0 <= i < N ==>
              u.open[i] == (t.open[i] || Freed(near, t, r, stopped, i))
              && u.side[i] == if Freed(near, t, r, stopped, i) then 0.0 else t.side[i]
  {
    Set(t.f, seq(N, i requires 0 <= i < N => t.open[i] || Freed(near, t, r, stopped, i)),
        seq(N, i requires 0 <= i < N =>
              if Freed(near, t, r, stopped, i) then 0.0 else t.side[i]))
  }

  predicate Stopped(q: Ask, s: Set)
    requires AskOk(q) && SetOk(s)
  {
    Alpha(q, s, Way(q, s), N) < 1.0
  }

  function Pass(q: Ask, s: Set): (u: Set)
    requires AskOk(q) && SetOk(s)
    ensures SetOk(u)
  {
    var t := Stepped(q, s, Way(q, s));
    Released(q.near, t, Slope(q.h, q.g, t.f), Stopped(q, s))
  }

  function Passes(q: Ask, s: Set, n: nat): (u: Set)
    requires AskOk(q) && SetOk(s)
    ensures SetOk(u)
  {
    if n == 0 then s else Pass(q, Passes(q, s, n - 1))
  }

  /** Every rotor in its reach, and each held one at the end its side names. */
  ghost predicate Good(q: Ask, s: Set)
    requires AskOk(q)
  {
    && SetOk(s)
    && forall i :: 0 <= i < N ==>
         q.low[i] <= s.f[i] <= q.high[i]
         && if s.open[i] then s.side[i] == 0.0
            else (s.side[i] == 1.0 && s.f[i] == q.high[i])
                 || (s.side[i] == -1.0 && s.f[i] == q.low[i])
                 || (s.side[i] == 0.0 && q.low[i] == q.high[i])
  }

  // -- a pass keeps every rotor in its reach -------------------------------------------------

  lemma {:induction false} AlphaBounds(q: Ask, s: Set, p: Vec, n: nat)
    requires AskOk(q) && Good(q, s) && |p| == N && n <= N
    ensures 0.0 <= Alpha(q, s, p, n) <= 1.0
    ensures forall i :: 0 <= i < n ==> Alpha(q, s, p, n) <= ReachOf(q, s, p, i)
    ensures Alpha(q, s, p, n) < 1.0 ==>
              exists i :: 0 <= i < n && p[i] != 0.0 && Alpha(q, s, p, n) == ReachOf(q, s, p, i)
  {
    if n > 0 {
      AlphaBounds(q, s, p, n - 1);
      ReachNonneg(p[n - 1], s.f[n - 1], q.low[n - 1], q.high[n - 1]);
    }
  }

  lemma ReachNonneg(p: real, f: real, low: real, high: real)
    requires low <= f <= high
    ensures Reach(p, f, low, high) >= 0.0
  {
    if p != 0.0 {
      Quotient(if p > 0.0 then high - f else f - low, Size(p));
    }
  }

  lemma Quotient(x: real, d: real)
    requires x >= 0.0 && d > 0.0
    ensures x / d >= 0.0
  {
  }

  lemma Within(x: real, d: real, t: real)
    requires d > 0.0 && 0.0 <= t <= x / d
    ensures 0.0 <= t * d <= x
    ensures t == x / d ==> t * d == x
  {
  }

  /** A step no longer than the reach stays in it, and one as long as the reach ends there. */
  lemma StepStays(p: real, f: real, low: real, high: real, t: real)
    requires low <= f <= high && 0.0 <= t <= Reach(p, f, low, high)
    ensures low <= f + t * p <= high
    ensures p != 0.0 && t == Reach(p, f, low, high) ==>
              f + t * p == if p > 0.0 then high else low
  {
    if p > 0.0 {
      Within(high - f, p, t);
    } else if p < 0.0 {
      Within(f - low, -p, t);
      assert t * (-p) == -(t * p);
    }
  }

  /** One rotor of the step, hit or not. */
  lemma StepAt(p: real, f: real, low: real, high: real, a: real, hit: bool)
    requires low <= f <= high && 0.0 <= a <= Reach(p, f, low, high)
    requires hit ==> (a < 1.0 && Reach(p, f, low, high) <= a)
    ensures hit ==> (p != 0.0 && f + a * p == if p > 0.0 then high else low)
    ensures low <= f + a * p <= high
  {
    StepStays(p, f, low, high, a);
    assert p == 0.0 ==> Reach(p, f, low, high) == FAR;
  }

  lemma SteppedAt(q: Ask, s: Set, p: Vec, i: nat)
    requires AskOk(q) && Good(q, s) && |p| == N && i < N
    ensures SteppedF(q, s, p, i) == s.f[i] + Alpha(q, s, p, N) * p[i]
    ensures q.low[i] <= SteppedF(q, s, p, i) <= q.high[i]
    ensures Hit(q, s, p, i) ==>
              (p[i] != 0.0 && SteppedF(q, s, p, i) == if p[i] > 0.0 then q.high[i] else q.low[i])
  {
    hide Reach, Alpha;
    AlphaBounds(q, s, p, N);
    assert Alpha(q, s, p, N) <= ReachOf(q, s, p, i);
    StepAt(p[i], s.f[i], q.low[i], q.high[i], Alpha(q, s, p, N), Hit(q, s, p, i));
  }

  /** In reals the ends the hits are put to are where the step had brought them. */
  lemma SteppedMoves(q: Ask, s: Set, p: Vec)
    requires AskOk(q) && Good(q, s) && |p| == N
    ensures Stepped(q, s, p).f == Moved(s.f, Alpha(q, s, p, N), p)
    ensures forall i :: 0 <= i < N ==> q.low[i] <= Stepped(q, s, p).f[i] <= q.high[i]
    ensures forall i :: 0 <= i < N && Hit(q, s, p, i) ==>
              (p[i] != 0.0
               && Stepped(q, s, p).f[i] == if p[i] > 0.0 then q.high[i] else q.low[i])
  {
    assert SetOk(s);
    hide Good, Alpha, Hit, SteppedF;
    forall i | 0 <= i < N
      ensures SteppedF(q, s, p, i) == s.f[i] + Alpha(q, s, p, N) * p[i]
      ensures q.low[i] <= SteppedF(q, s, p, i) <= q.high[i]
      ensures Hit(q, s, p, i) ==>
                (p[i] != 0.0
                 && SteppedF(q, s, p, i) == if p[i] > 0.0 then q.high[i] else q.low[i])
    {
      SteppedAt(q, s, p, i);
    }
    assert Stepped(q, s, p).f == Moved(s.f, Alpha(q, s, p, N), p);
  }

  lemma WayHolds(q: Ask, s: Set)
    requires AskOk(q) && SetOk(s)
    ensures forall i :: 0 <= i < N && !s.open[i] ==> Way(q, s)[i] == 0.0
  {
    forall i | 0 <= i < N && !s.open[i]
      ensures Way(q, s)[i] == 0.0
    {
      HeldStill(q.h, s.open, Slope(q.h, q.g, s.f), i);
    }
  }

  lemma SteppedGood(q: Ask, s: Set)
    requires AskOk(q) && Good(q, s)
    ensures Good(q, Stepped(q, s, Way(q, s)))
  {
    hide Way, Alpha, Reach;
    SteppedMoves(q, s, Way(q, s));
    WayHolds(q, s);
  }

  /** A pass keeps every thrust in its reach and every held rotor at its end, clamped or not. */
  lemma PassKeeps(q: Ask, s: Set)
    requires AskOk(q) && Good(q, s)
    ensures Good(q, Pass(q, s))
  {
    hide Way, Alpha, Stepped, Worst, Inward;
    SteppedGood(q, s);
  }

  // -- a pass never raises the cost ----------------------------------------------------------

  /** The weighted rows, each rotor's column, and the wrench wanted by its weights. */
  function Col(a: Mat, i: nat): (c: Vec)
    requires Square(a, N) && i < N
    ensures |c| == N && forall k :: 0 <= k < N ==> c[k] == a[k][i]
  {
    seq(N, k requires 0 <= k < N => a[k][i])
  }

  function Gram(a: Mat): (h: Mat)
    requires Square(a, N)
    ensures Square(h, N)
    ensures forall i :: 0 <= i < N ==> h[i] == Across(Col(a, i), a, N, N)
  {
    seq(N, i requires 0 <= i < N => Across(Col(a, i), a, N, N))
  }

  function Pull(a: Mat, t: Vec): (g: Vec)
    requires Square(a, N) && |t| == N
    ensures |g| == N && forall i :: 0 <= i < N ==> g[i] == Dot(Col(a, i), t, N)
  {
    seq(N, i requires 0 <= i < N => Dot(Col(a, i), t, N))
  }

  function Miss(a: Mat, t: Vec, f: Vec): (e: Vec)
    requires Square(a, N) && |t| == N && |f| == N
    ensures |e| == N
  {
    Moved(Times(a, f, N), -1.0, t)
  }

  /** Half the weighted squares of the wrench's misses. */
  function Cost(a: Mat, t: Vec, f: Vec): real
    requires Square(a, N) && |t| == N && |f| == N
  {
    Dot(Miss(a, t, f), Miss(a, t, f), N) / 2.0
  }

  /** The share's own problem, as its first loops lay it. */
  ghost predicate Laid(q: Ask, a: Mat, t: Vec) {
    AskOk(q) && Square(a, N) && |t| == N && q.h == Gram(a) && q.g == Pull(a, t)
  }

  lemma {:induction false} ColumnDot(c: Vec, a: Mat, i: nat, k: nat)
    requires |c| == N && Square(a, N) && i < N && k <= N
    ensures Column(c, a, k, i) == Dot(c, Col(a, i), k)
  {
    hide Col;
    if k > 0 {
      ColumnDot(c, a, i, k - 1);
    }
  }

  lemma GramSymmetric(a: Mat)
    requires Square(a, N)
    ensures Symmetric(Gram(a))
  {
    hide Gram, Col, Across;
    forall i, j | 0 <= i < N && 0 <= j < N
      ensures Gram(a)[i][j] == Gram(a)[j][i]
    {
      ColumnDot(Col(a, i), a, j, N);
      ColumnDot(Col(a, j), a, i, N);
      DotTurned(Col(a, i), Col(a, j), N);
    }
  }

  lemma GramTimes(a: Mat, f: Vec, i: nat)
    requires Square(a, N) && |f| == N && i < N
    ensures Dot(Gram(a)[i], f, N) == Dot(Col(a, i), Times(a, f, N), N)
  {
    hide Gram, Col, Times, Across;
    Swap(Col(a, i), a, f, N, N);
  }

  /** Each slope is minus a column of the rows against what they miss by. */
  lemma SlopeIsMiss(a: Mat, t: Vec, f: Vec, i: nat)
    requires Square(a, N) && |t| == N && |f| == N && i < N
    ensures Slope(Gram(a), Pull(a, t), f)[i] == -Dot(Col(a, i), Miss(a, t, f), N)
  {
    hide Gram, Col, Times, Dot, Moved;
    GramTimes(a, f, i);
    DotMoved(Col(a, i), Times(a, f, N), -1.0, t, N);
  }

  lemma {:induction false} SquareMoved(e: Vec, s: real, v: Vec, n: nat)
    requires |e| == |v| && n <= |e|
    ensures Dot(Moved(e, s, v), Moved(e, s, v), n)
         == Dot(e, e, n) + 2.0 * s * Dot(e, v, n) + s * s * Dot(v, v, n)
  {
    var m := Moved(e, s, v);
    DotMoved(m, e, s, v, n);
    DotTurned(m, e, n);
    DotTurned(m, v, n);
    DotMoved(e, e, s, v, n);
    DotMoved(v, e, s, v, n);
    DotTurned(v, e, n);
    var ee, ev, vv := Dot(e, e, n), Dot(e, v, n), Dot(v, v, n);
    hide Dot, Moved;
    Expand(ee, ev, vv, s);
  }

  lemma Expand(ee: real, ev: real, vv: real, s: real)
    ensures (ee + s * ev) + s * (ev + s * vv) == ee + 2.0 * s * ev + s * s * vv
  {
  }

  lemma MissMoved(a: Mat, t: Vec, f: Vec, s: real, p: Vec)
    requires Square(a, N) && |t| == N && |f| == N && |p| == N
    ensures Miss(a, t, Moved(f, s, p)) == Moved(Miss(a, t, f), s, Times(a, p, N))
  {
    hide Dot;
    var l, r := Miss(a, t, Moved(f, s, p)), Moved(Miss(a, t, f), s, Times(a, p, N));
    forall k | 0 <= k < N
      ensures l[k] == r[k]
    {
      DotMoved(a[k], f, s, p, N);
    }
  }

  /** The misses along a way are what the slope gives on it, turned. */
  lemma MissAlong(a: Mat, t: Vec, f: Vec, p: Vec)
    requires Square(a, N) && |t| == N && |f| == N && |p| == N
    ensures Dot(Miss(a, t, f), Times(a, p, N), N)
         == -Dot(Slope(Gram(a), Pull(a, t), f), p, N)
  {
    hide Miss, Dot, Column, Gram, Times, Slope;
    var e, r := Miss(a, t, f), Slope(Gram(a), Pull(a, t), f);
    Swap(e, a, p, N, N);
    var c := Across(e, a, N, N);
    forall i | 0 <= i < N
      ensures c[i] == -r[i]
    {
      ColumnDot(e, a, i, N);
      DotTurned(e, Col(a, i), N);
      SlopeIsMiss(a, t, f, i);
    }
    DotNegated(c, r, p, N);
  }

  lemma {:induction false} DotNegated(c: Vec, r: Vec, p: Vec, n: nat)
    requires n <= |c| && n <= |r| && n <= |p| && forall i :: 0 <= i < n ==> c[i] == -r[i]
    ensures Dot(c, p, n) == -Dot(r, p, n)
  {
    if n > 0 {
      DotNegated(c, r, p, n - 1);
    }
  }

  /** The cost anywhere from `f`, exactly. */
  lemma CostMoved(a: Mat, t: Vec, f: Vec, s: real, p: Vec)
    requires Square(a, N) && |t| == N && |f| == N && |p| == N
    ensures var v := Times(a, p, N);
            Cost(a, t, Moved(f, s, p))
            == Cost(a, t, f) - s * Dot(Slope(Gram(a), Pull(a, t), f), p, N)
               + s * s * Dot(v, v, N) / 2.0
  {
    hide Miss, Dot, Times, Slope, Moved;
    MissMoved(a, t, f, s, p);
    SquareMoved(Miss(a, t, f), s, Times(a, p, N), N);
    MissAlong(a, t, f, p);
    var k := Dot(Slope(Gram(a), Pull(a, t), f), p, N);
    assert 2.0 * s * (-k) == -2.0 * (s * k);
  }

  /** The pivots of this pass, none clamped. */
  ghost predicate Clear(q: Ask, s: Set)
    requires AskOk(q) && SetOk(s)
  {
    Unclamped(Masked(q.h, s.open))
  }

  /** On the way to the open rotors' best, the slope along it is the square of what it moves. */
  lemma WaySquare(q: Ask, s: Set, a: Mat, t: Vec)
    requires Laid(q, a, t) && SetOk(s) && Clear(q, s)
    ensures var p := Way(q, s);
            var v := Times(a, p, N);
            Dot(Slope(q.h, q.g, s.f), p, N) == Dot(v, v, N)
  {
    hide Masked, MaskedSlope, Solution, Gram, Pull, Dot, Times, Slope, Column, Col;
    var p, r := Way(q, s), Slope(q.h, q.g, s.f);
    var v := Times(a, p, N);
    GramSymmetric(a);
    Swap(v, a, p, N, N);
    var c := Across(v, a, N, N);
    forall i | 0 <= i < N
      ensures c[i] * p[i] == r[i] * p[i]
    {
      if s.open[i] {
        OpenSolves(q.h, s.open, r, i);
        GramTimes(a, p, i);
        ColumnDot(v, a, i, N);
        DotTurned(v, Col(a, i), N);
      } else {
        HeldStill(q.h, s.open, r, i);
        SolutionAt(Masked(q.h, s.open), MaskedSlope(r, s.open), i);
      }
    }
    DotAlike(c, p, r, p, N);
  }

  lemma SolutionAt(m: Mat, b: Vec, i: nat)
    requires Square(m, N) && |b| == N && i < N
    ensures Solution(m, b)[i] == P(m, b, i)
  {
  }

  lemma Falls(c: real, d: real, s: real, k: real, w: real)
    requires 0.0 <= s <= 1.0 && w >= 0.0 && k == w
    requires d == c - s * k + s * s * w / 2.0
    ensures d <= c
  {
    assert s * s <= s * 1.0;
    assert s * s * w <= s * w;
    assert s * w >= 0.0;
  }

  /** A pass with no pivot clamped never raises the cost. */
  lemma PassDescends(q: Ask, s: Set, a: Mat, t: Vec)
    requires Laid(q, a, t) && Good(q, s) && Clear(q, s)
    ensures Cost(a, t, Pass(q, s).f) <= Cost(a, t, s.f)
  {
    hide Way, Alpha, Cost, Slope, Stepped, Dot, Gram, Pull, Times;
    var p, al := Way(q, s), Alpha(q, s, Way(q, s), N);
    SteppedMoves(q, s, p);
    AlphaBounds(q, s, p, N);
    CostMoved(a, t, s.f, al, p);
    WaySquare(q, s, a, t);
    SquaresSum(Times(a, p, N), N);
    assert q.h == Gram(a) && q.g == Pull(a, t);
    assert Pass(q, s).f == Stepped(q, s, p).f == Moved(s.f, al, p);
    Falls(Cost(a, t, s.f), Cost(a, t, Pass(q, s).f), al, Dot(Slope(q.h, q.g, s.f), p, N),
          Dot(Times(a, p, N), Times(a, p, N), N));
  }

  // -- a settled set -------------------------------------------------------------------------

  /** A pass that stopped at no end and let no rotor go. */
  ghost predicate Settled(q: Ask, s: Set)
    requires AskOk(q) && SetOk(s)
  {
    var t := Stepped(q, s, Way(q, s));
    && !Stopped(q, s)
    && forall i :: 0 <= i < N ==> !Freed(q.near, t, Slope(q.h, q.g, t.f), false, i)
  }

  lemma SettledSame(q: Ask, s: Set)
    requires AskOk(q) && SetOk(s) && Settled(q, s)
    ensures Pass(q, s).f == Stepped(q, s, Way(q, s)).f
    ensures Pass(q, s).open == s.open && Pass(q, s).side == s.side
  {
    hide Way, Alpha, Slope, Worst, Inward;
    var t, u := Stepped(q, s, Way(q, s)), Pass(q, s);
    assert forall i :: 0 <= i < N ==> !Hit(q, s, Way(q, s), i);
  }

  /** Once settled the open rotors' slopes are gone. */
  lemma SettledLevel(q: Ask, s: Set, i: nat)
    requires AskOk(q) && Symmetric(q.h) && Good(q, s) && Clear(q, s) && Settled(q, s)
    requires i < N && s.open[i]
    ensures Slope(q.h, q.g, Pass(q, s).f)[i] == 0.0
  {
    hide Dot, Masked, MaskedSlope, Solution, Reach, Stepped, Freed, Released;
    var p := Way(q, s);
    AlphaBounds(q, s, p, N);
    SteppedMoves(q, s, p);
    SettledSame(q, s);
    hide Alpha;
    OpenSolves(q.h, s.open, Slope(q.h, q.g, s.f), i);
    DotMoved(q.h[i], s.f, 1.0, p, N);
  }

  lemma {:induction false} WholeStep(q: Ask, s: Set, p: Vec, n: nat)
    requires AskOk(q) && SetOk(s) && |p| == N && n <= N
    requires forall i :: 0 <= i < N ==> p[i] == 0.0
    ensures Alpha(q, s, p, n) == 1.0
  {
    if n > 0 {
      WholeStep(q, s, p, n - 1);
    }
  }

  lemma LevelStill(q: Ask, s: Set)
    requires AskOk(q) && SetOk(s)
    requires forall i :: 0 <= i < N && s.open[i] ==> Slope(q.h, q.g, s.f)[i] == 0.0
    ensures forall i :: 0 <= i < N ==> Way(q, s)[i] == 0.0
    ensures Stepped(q, s, Way(q, s)) == s && !Stopped(q, s)
  {
    hide Solution, Masked;
    var b := MaskedSlope(Slope(q.h, q.g, s.f), s.open);
    assert forall i :: 0 <= i < N ==> b[i] == 0.0;
    NoStep(Masked(q.h, s.open), b);
    WholeStep(q, s, Way(q, s), N);
    hide Alpha, Slope, Way;
    var t := Stepped(q, s, Way(q, s));
    assert t.f == s.f && t.open == s.open && t.side == s.side;
  }

  /** A pass that stops at no end and lets no rotor go is the last that changes anything. */
  lemma SettledStays(q: Ask, s: Set)
    requires AskOk(q) && Symmetric(q.h) && Good(q, s) && Clear(q, s) && Settled(q, s)
    ensures Pass(q, Pass(q, s)) == Pass(q, s)
    ensures Settled(q, Pass(q, s)) && Clear(q, Pass(q, s))
  {
    hide Slope, Way, Masked, Alpha, Worst, Inward;
    var u, t := Pass(q, s), Stepped(q, s, Way(q, s));
    SettledSame(q, s);
    forall i | 0 <= i < N && u.open[i]
      ensures Slope(q.h, q.g, u.f)[i] == 0.0
    {
      SettledLevel(q, s, i);
    }
    LevelStill(q, u);
    SettledIs(q, s);
    hide Stepped, Stopped, Freed;
    var v := Pass(q, u);
    assert v.f == u.f && v.open == u.open && v.side == u.side;
  }

  lemma SettledIs(q: Ask, s: Set)
    requires AskOk(q) && SetOk(s) && Settled(q, s)
    ensures Stepped(q, s, Way(q, s)) == Pass(q, s)
  {
    hide Way, Slope, Alpha, Worst, Inward, Stepped;
    var t, u := Stepped(q, s, Way(q, s)), Pass(q, s);
    assert u.open == t.open && u.side == t.side && u.f == t.f;
  }

  /** From a settled pass on, however many more are made. */
  lemma {:induction false} SettledFor(q: Ask, s: Set, n: nat)
    requires AskOk(q) && Symmetric(q.h) && Good(q, s) && Clear(q, s) && Settled(q, s)
    ensures Passes(q, s, n + 1) == Pass(q, s)
  {
    assert Passes(q, s, 0) == s;
    hide Pass, Settled, Clear, Good;
    if n > 0 {
      SettledFor(q, s, n - 1);
      SettledStays(q, s);
    }
  }

  // -- the best there is ---------------------------------------------------------------------

  lemma {:induction false} NoneFreed(near: real, t: Set, r: Vec, n: nat)
    requires SetOk(t) && |r| == N && n <= N
    requires forall i :: 0 <= i < N ==> !Freed(near, t, r, false, i)
    ensures Worst(near, t, r, n) == near
         || exists i :: 0 <= i < n && Worst(near, t, r, n) == Inward(t, r, i)
    ensures n == N ==> Worst(near, t, r, N) == near
  {
    hide Inward;
    if n > 0 {
      NoneFreed(near, t, r, n - 1);
    }
    if n == N && Worst(near, t, r, N) != near {
      var i :| 0 <= i < n && Worst(near, t, r, n) == Inward(t, r, i);
      WorstFreed(near, t, r, i);
    }
  }

  lemma WorstFreed(near: real, t: Set, r: Vec, i: nat)
    requires SetOk(t) && |r| == N && i < N && Inward(t, r, i) >= Worst(near, t, r, N)
    ensures Freed(near, t, r, false, i)
  {
  }

  /** How far `x` is from `f`, the rotors' distances summed. */
  function Gap(x: Vec, f: Vec, n: nat): real
    requires n <= |x| && n <= |f|
  {
    if n == 0 then 0.0 else Gap(x, f, n - 1) + Size(x[n - 1] - f[n - 1])
  }

  ghost predicate InBox(q: Ask, x: Vec)
    requires AskOk(q)
  {
    |x| == N && forall i :: 0 <= i < N ==> q.low[i] <= x[i] <= q.high[i]
  }

  /** One rotor's share of what moving to `x` could still gain. */
  lemma PullBounded(r: real, side: real, open: bool, near: real, f: real, low: real, high: real,
                    x: real)
    requires low <= f <= high && low <= x <= high && near > 0.0
    requires if open then r == 0.0 else -side * r < near
    requires !open ==> (side == 1.0 && f == high) || (side == -1.0 && f == low)
                       || (side == 0.0 && low == high)
    ensures r * (x - f) <= near * Size(x - f)
  {
    var d := x - f;
    if open || d == 0.0 {
      assert r * d == 0.0;
    } else if side == 1.0 {
      assert (near + r) * d <= 0.0;
    } else {
      assert (near - r) * d >= 0.0;
    }
  }

  /** Every rotor's pull as a settled pass leaves it. */
  ghost predicate Quiet(q: Ask, u: Set, r: Vec)
    requires AskOk(q) && SetOk(u) && |r| == N
  {
    forall i :: 0 <= i < N ==> if u.open[i] then r[i] == 0.0 else Inward(u, r, i) < q.near
  }

  ghost predicate PullOk(r: Vec, m: Vec, near: real, x: Vec, f: Vec, i: nat)
    requires i < |r| && i < |m| && i < |x| && i < |f|
  {
    r[i] * m[i] <= near * Size(x[i] - f[i])
  }

  lemma PullAt(q: Ask, u: Set, x: Vec, r: Vec, i: nat)
    requires AskOk(q) && Good(q, u) && InBox(q, x) && |r| == N && i < N && Quiet(q, u, r)
    ensures PullOk(r, Moved(x, -1.0, u.f), q.near, x, u.f, i)
  {
    hide Size;
    assert Moved(x, -1.0, u.f)[i] == x[i] - u.f[i];
    PullBounded(r[i], u.side[i], u.open[i], q.near, u.f[i], q.low[i], q.high[i], x[i]);
  }

  lemma {:induction false} PullsSum(r: Vec, m: Vec, near: real, x: Vec, f: Vec, n: nat)
    requires n <= |r| && n <= |m| && n <= |x| && n <= |f|
    requires forall i :: 0 <= i < n ==> PullOk(r, m, near, x, f, i)
    ensures Dot(r, m, n) <= near * Gap(x, f, n)
  {
    hide Size;
    if n > 0 {
      var k := n - 1;
      PullsSum(r, m, near, x, f, k);
      assert PullOk(r, m, near, x, f, k);
      AddBounds(Dot(r, m, k), r[k] * m[k], near, Gap(x, f, k), Size(x[k] - f[k]));
    }
  }

  ghost predicate PullsOk(r: Vec, m: Vec, near: real, x: Vec, f: Vec) {
    && |r| == N && |m| == N && |x| == N && |f| == N
    && forall i :: 0 <= i < N ==> PullOk(r, m, near, x, f, i)
  }

  lemma AllPulls(q: Ask, u: Set, x: Vec, r: Vec)
    requires AskOk(q) && Good(q, u) && InBox(q, x) && |r| == N && Quiet(q, u, r)
    ensures PullsOk(r, Moved(x, -1.0, u.f), q.near, x, u.f)
  {
    assert SetOk(u);
    hide Quiet, Good, Moved, Size, PullOk;
    forall i | 0 <= i < N
      ensures PullOk(r, Moved(x, -1.0, u.f), q.near, x, u.f, i)
    {
      PullAt(q, u, x, r, i);
    }
  }

  /** What may still be gained on the way to `x`: `near` a newton moved. */
  function Slack(near: real, x: Vec, f: Vec): real
    requires |x| == N && |f| == N
  {
    near * Gap(x, f, N)
  }

  lemma PullsBounded(r: Vec, m: Vec, near: real, x: Vec, f: Vec)
    requires PullsOk(r, m, near, x, f)
    ensures Dot(r, m, N) <= Slack(near, x, f)
  {
    hide Dot, Gap, PullOk;
    PullsSum(r, m, near, x, f, N);
  }

  lemma AddBounds(d: real, e: real, near: real, g: real, s: real)
    requires d <= near * g && e <= near * s
    ensures d + e <= near * (g + s)
  {
    Gather(near, g, s);
  }

  lemma MovedTo(x: Vec, f: Vec)
    requires |x| == |f|
    ensures Moved(f, 1.0, Moved(x, -1.0, f)) == x
  {
  }

  /** A settled pass has the best cost of the whole box, within `near` a newton moved. */
  lemma SettledBest(q: Ask, s: Set, a: Mat, t: Vec, x: Vec)
    requires Laid(q, a, t) && Good(q, s) && Clear(q, s) && Settled(q, s) && InBox(q, x)
    ensures Cost(a, t, Pass(q, s).f) <= Cost(a, t, x) + Slack(q.near, x, Pass(q, s).f)
  {
    assert SetOk(s);
    hide Pass, Good, Slope, Cost, Slack, Inward, Clear, Settled, Gram, Pull, Quiet;
    GramSymmetric(a);
    PassKeeps(q, s);
    SettledPulls(q, s);
    QuietBest(q, Pass(q, s), a, t, x);
  }

  lemma QuietPulls(q: Ask, u: Set, x: Vec, r: Vec)
    requires AskOk(q) && Good(q, u) && InBox(q, x) && |r| == N && Quiet(q, u, r)
    ensures Dot(r, Moved(x, -1.0, u.f), N) <= Slack(q.near, x, u.f)
  {
    assert SetOk(u);
    hide Quiet, Good, Moved, Dot, Slack, PullsOk;
    AllPulls(q, u, x, r);
    PullsBounded(r, Moved(x, -1.0, u.f), q.near, x, u.f);
  }

  lemma Bested(cf: real, cx: real, k: real, v: real, slack: real)
    requires cx == cf - 1.0 * k + 1.0 * 1.0 * v / 2.0 && v >= 0.0 && k <= slack
    ensures cf <= cx + slack
  {
  }

  lemma QuietBest(q: Ask, u: Set, a: Mat, t: Vec, x: Vec)
    requires Laid(q, a, t) && Good(q, u) && InBox(q, x)
    requires Quiet(q, u, Slope(q.h, q.g, u.f))
    ensures Cost(a, t, u.f) <= Cost(a, t, x) + Slack(q.near, x, u.f)
  {
    assert SetOk(u);
    hide Good, Slope, Cost, Dot, Slack, Times, Gram, Pull, Quiet, Moved;
    var d := Moved(x, -1.0, u.f);
    QuietPulls(q, u, x, Slope(q.h, q.g, u.f));
    MovedTo(x, u.f);
    CostMoved(a, t, u.f, 1.0, d);
    SquaresSum(Times(a, d, N), N);
    Bested(Cost(a, t, u.f), Cost(a, t, x), Dot(Slope(q.h, q.g, u.f), d, N),
           Dot(Times(a, d, N), Times(a, d, N), N), Slack(q.near, x, u.f));
  }

  lemma SettledPulls(q: Ask, s: Set)
    requires AskOk(q) && Symmetric(q.h) && Good(q, s) && Clear(q, s) && Settled(q, s)
    ensures Quiet(q, Pass(q, s), Slope(q.h, q.g, Pass(q, s).f))
  {
    var u := Pass(q, s);
    var r := Slope(q.h, q.g, u.f);
    SettledIs(q, s);
    SettledSame(q, s);
    hide Pass, Slope, Way, Alpha, Good, Clear, Stepped;
    NoneFreed(q.near, u, r, N);
    forall i | 0 <= i < N
      ensures if u.open[i] then r[i] == 0.0 else Inward(u, r, i) < q.near
    {
      if u.open[i] {
        SettledLevel(q, s, i);
      } else {
        assert !Freed(q.near, u, r, false, i);
      }
    }
  }
}
