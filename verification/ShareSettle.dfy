/** How many passes the share needs: each one holds a rotor more, lets one go, or is the last that
    changes anything. */
module ShareSettle {
  import opened Sums
  import opened ShareSolve
  import opened SharePass
  import opened SharePosed
  import opened ShareCore

  /** The rotors not held, of the first n. */
  function OpenCount(open: seq<bool>, n: nat): (c: nat)
    requires n <= |open|
    ensures c <= n
  {
    if n == 0 then 0 else OpenCount(open, n - 1) + if open[n - 1] then 1 else 0
  }

  lemma {:induction false} FewerOpen(a: seq<bool>, b: seq<bool>, n: nat)
    requires n <= |a| && n <= |b| && forall i :: 0 <= i < n && b[i] ==> a[i]
    ensures OpenCount(b, n) <= OpenCount(a, n)
    ensures (exists i :: 0 <= i < n && a[i] && !b[i]) ==> OpenCount(b, n) < OpenCount(a, n)
  {
    if n > 0 {
      FewerOpen(a, b, n - 1);
    }
  }

  /** A pass that stops does so at an end some open rotor meets. */
  lemma StopHits(q: Ask, s: Set)
    requires AskOk(q) && Good(q, s) && Stopped(q, s)
    ensures exists i :: 0 <= i < N && s.open[i] && Hit(q, s, Way(q, s), i)
  {
    hide Way, Alpha, Reach;
    var p := Way(q, s);
    AlphaBounds(q, s, p, N);
    WayHolds(q, s);
    var i :| 0 <= i < N && p[i] != 0.0 && Alpha(q, s, p, N) == ReachOf(q, s, p, i);
    assert s.open[i] && Hit(q, s, p, i);
  }

  /** So it holds at least one rotor more, and lets none go. */
  lemma StopHolds(q: Ask, s: Set)
    requires AskOk(q) && Good(q, s) && Stopped(q, s)
    ensures OpenCount(Pass(q, s).open, N) < OpenCount(s.open, N)
  {
    StopHits(q, s);
    hide Way, Alpha, Hit, Good, Slope, Worst, Inward, OpenCount, Stepped;
    var u := Pass(q, s);
    assert forall i :: 0 <= i < N ==> u.open[i] == (s.open[i] && !Hit(q, s, Way(q, s), i));
    FewerOpen(s.open, u.open, N);
  }

  /** A pass that lets rotors go: it stops nowhere, and is not the last. */
  ghost predicate LetsGo(q: Ask, s: Set)
    requires AskOk(q) && SetOk(s)
  {
    !Stopped(q, s) && !Settled(q, s)
  }

  /** The rotors a pass lets go. */
  function Loosed(q: Ask, s: Set): nat
    requires AskOk(q) && SetOk(s)
  {
    var before, after := OpenCount(s.open, N), OpenCount(Pass(q, s).open, N);
    if after > before then after - before else 0
  }

  /** What the passes that let rotors go cost: themselves, and a rotor to be held again for each. */
  ghost function Debt(q: Ask, s: Set, n: nat): nat
    requires AskOk(q) && SetOk(s)
  {
    if n == 0 then 0
    else
      var t := Passes(q, s, n - 1);
      Debt(q, s, n - 1) + if LetsGo(q, t) then 1 + Loosed(q, t) else 0
  }

  ghost predicate NoneSettled(q: Ask, s: Set, n: nat)
    requires AskOk(q) && SetOk(s)
  {
    forall k :: 0 <= k < n ==> !Settled(q, Passes(q, s, k))
  }

  /** One pass: a rotor held, or the debt of letting some go. */
  lemma OnePass(q: Ask, t: Set)
    requires AskOk(q) && Good(q, t) && !Settled(q, t)
    ensures 1 + OpenCount(Pass(q, t).open, N)
            <= OpenCount(t.open, N) + if LetsGo(q, t) then 1 + Loosed(q, t) else 0
  {
    assert SetOk(t);
    hide Settled, Stopped, Pass, Good, OpenCount;
    if Stopped(q, t) {
      StopHolds(q, t);
    }
  }

  lemma {:induction false} Progress(q: Ask, s: Set, n: nat)
    requires AskOk(q) && SetOk(s) && Good(q, s) && NoneSettled(q, s, n)
    ensures n + OpenCount(Passes(q, s, n).open, N) <= OpenCount(s.open, N) + Debt(q, s, n)
  {
    hide Settled, Pass, Good, OpenCount, LetsGo, Loosed;
    if n > 0 {
      assert NoneSettled(q, s, n - 1) && !Settled(q, Passes(q, s, n - 1));
      Progress(q, s, n - 1);
      PassesKeep(q, s, n - 1);
      OnePass(q, Passes(q, s, n - 1));
    }
  }

  /** With the rotors open at the start, and the debt run up on the way, fewer than the passes made,
      one of them settled. */
  lemma Settles(q: Ask, s: Set, n: nat) returns (k: nat)
    requires AskOk(q) && Good(q, s) && OpenCount(s.open, N) + Debt(q, s, n) < n
    ensures k < n && SetOk(Passes(q, s, k)) && Settled(q, Passes(q, s, k))
  {
    assert SetOk(s);
    if NoneSettled(q, s, n) {
      Progress(q, s, n);
    }
    hide Settled, Good, Debt, Passes;
    k :| 0 <= k < n && Settled(q, Passes(q, s, k));
  }

  /** Four rotors and none let go: one of the first five passes settles. */
  lemma FirstFive(q: Ask, s: Set) returns (k: nat)
    requires AskOk(q) && Good(q, s) && forall j :: 0 <= j < 5 ==> !LetsGo(q, Passes(q, s, j))
    ensures k < 5 && SetOk(Passes(q, s, k)) && Settled(q, Passes(q, s, k))
  {
    assert SetOk(s);
    hide Settled, Good, Passes, LetsGo, OpenCount;
    NoDebt(q, s, 5);
    k := Settles(q, s, 5);
  }

  lemma {:induction false} NoDebt(q: Ask, s: Set, n: nat)
    requires AskOk(q) && SetOk(s) && forall j :: 0 <= j < n ==> !LetsGo(q, Passes(q, s, j))
    ensures Debt(q, s, n) == 0
  {
    hide LetsGo, Passes;
    if n > 0 {
      NoDebt(q, s, n - 1);
    }
  }

  /** Whom a pass that stopped nowhere lets go: of the rotors still held, those the slope pulls back
      in the hardest, if that is as hard as asked; and a pass that stopped lets none. */
  lemma WhoGoes(q: Ask, s: Set, i: nat)
    requires AskOk(q) && Good(q, s) && i < N
    ensures SetOk(s)
    ensures var t, u := Stepped(q, s, Way(q, s)), Pass(q, s);
            var r := Slope(q.h, q.g, t.f);
            && (u.open[i] && !t.open[i] <==>
                  !Stopped(q, s) && !t.open[i] && Pulled(t, r, i) >= q.near
                  && forall k :: 0 <= k < N && !t.open[k] ==> Pulled(t, r, k) <= Pulled(t, r, i))
            && (u.open[i] && !t.open[i] ==> u.side[i] == 0.0)
  {
    assert SetOk(s);
    hide Way, Slope, Alpha, Good, Stepped, Worst, Inward, Pulled;
    var t := Stepped(q, s, Way(q, s));
    InwardIs(t, Slope(q.h, q.g, t.f));
    WorstIs(q.near, t, Slope(q.h, q.g, t.f), N);
  }

  /** How hard the slope pulls a rotor away from the end it is held at. */
  function Pulled(t: Set, r: Vec, i: nat): real
    requires SetOk(t) && |r| == N && i < N
  {
    -t.side[i] * r[i]
  }

  lemma InwardIs(t: Set, r: Vec)
    requires SetOk(t) && |r| == N
    ensures forall i :: 0 <= i < N ==> Inward(t, r, i) == if t.open[i] then 0.0 else Pulled(t, r, i)
  {
    forall i | 0 <= i < N
      ensures Inward(t, r, i) == if t.open[i] then 0.0 else Pulled(t, r, i)
    {
      if t.open[i] {}
    }
  }

  lemma {:induction false} WorstIs(near: real, t: Set, r: Vec, n: nat)
    requires SetOk(t) && |r| == N && n <= N && near > 0.0
    ensures Worst(near, t, r, n) >= near
    ensures forall k :: 0 <= k < n && !t.open[k] ==> Pulled(t, r, k) <= Worst(near, t, r, n)
    ensures Worst(near, t, r, n) == near
         || exists k :: 0 <= k < n && !t.open[k] && Pulled(t, r, k) == Worst(near, t, r, n)
  {
    InwardIs(t, r);
    hide Inward, Pulled;
    if n > 0 {
      WorstIs(near, t, r, n - 1);
    }
  }

  // -- in the share's own terms --------------------------------------------------------------

  /** The wrench the thrusts make: the lift and the three turns. */
  function Gives(s: Frame, f: Vec): (w: Vec)
    requires FrameOk(s) && |f| == 4
    ensures |w| == 4
  {
    [f[0] + f[1] + f[2] + f[3],
     -(s.atZ[0] * f[0] + s.atZ[1] * f[1] + s.atZ[2] * f[2] + s.atZ[3] * f[3]),
     s.kappa * (s.spin[0] * f[0] + s.spin[1] * f[1] + s.spin[2] * f[2] + s.spin[3] * f[3]),
     s.atX[0] * f[0] + s.atX[1] * f[1] + s.atX[2] * f[2] + s.atX[3] * f[3]]
  }

  function Squared(x: real): real {
    x * x
  }

  /** Half the squares of what they miss the wanted wrench by, each row by its weight. */
  function Missed(s: Frame, weigh: Vec, want: Vec, f: Vec): real
    requires FrameOk(s) && |weigh| == 4 && |want| == 4 && |f| == 4
  {
    var w := Gives(s, f);
    (Squared(weigh[0] * (w[0] - want[0])) + Squared(weigh[1] * (w[1] - want[1]))
     + Squared(weigh[2] * (w[2] - want[2])) + Squared(weigh[3] * (w[3] - want[3]))) / 2.0
  }

  lemma RowMissed(a: Mat, t: Vec, f: Vec, k: nat)
    requires Square(a, N) && |t| == N && |f| == N && k < N
    ensures Miss(a, t, f)[k]
         == a[k][0] * f[0] + a[k][1] * f[1] + a[k][2] * f[2] + a[k][3] * f[3] - t[k]
  {
    FourDot(a[k], f);
  }

  lemma FourDot(a: Vec, b: Vec)
    requires |a| == 4 && |b| == 4
    ensures Dot(a, b, 4) == a[0] * b[0] + a[1] * b[1] + a[2] * b[2] + a[3] * b[3]
  {
    assert Dot(a, b, 1) == a[0] * b[0];
    assert Dot(a, b, 2) == Dot(a, b, 1) + a[1] * b[1];
    assert Dot(a, b, 3) == Dot(a, b, 2) + a[2] * b[2];
  }

  /** A row's weight comes out of what it misses. */
  lemma Weighed(w: real, c: Vec, f: Vec, t: real)
    requires |c| == 4 && |f| == 4
    ensures (w * c[0]) * f[0] + (w * c[1]) * f[1] + (w * c[2]) * f[2] + (w * c[3]) * f[3] - w * t
         == w * ((c[0] * f[0] + c[1] * f[1] + c[2] * f[2] + c[3] * f[3]) - t)
  {
    var p := seq(4, i requires 0 <= i < 4 => c[i] * f[i]);
    forall i | 0 <= i < 4
      ensures (w * c[i]) * f[i] == w * p[i]
    {
      Turned(w, c[i], f[i]);
    }
    Out(w, p[0], p[1], p[2], p[3], t);
  }

  lemma Turned(w: real, c: real, f: real)
    ensures (w * c) * f == w * (c * f)
  {
  }

  lemma Out(w: real, a: real, b: real, c: real, d: real, t: real)
    ensures w * a + w * b + w * c + w * d - w * t == w * ((a + b + c + d) - t)
  {
  }
  /** What a newton of each rotor's gives a row. */
  function Arms(s: Frame, k: nat): (c: Vec)
    requires FrameOk(s) && k < N
    ensures |c| == N
  {
    match k
    case 0 => [1.0, 1.0, 1.0, 1.0]
    case 1 => [-1.0 * s.atZ[0], -1.0 * s.atZ[1], -1.0 * s.atZ[2], -1.0 * s.atZ[3]]
    case 2 => [s.kappa * s.spin[0], s.kappa * s.spin[1], s.kappa * s.spin[2], s.kappa * s.spin[3]]
    case _ => s.atX
  }

  lemma RowWeighed(s: Frame, weigh: Vec, k: nat, i: nat)
    requires FrameOk(s) && |weigh| == N && k < N && i < N
    ensures RowAt(s, weigh, k, i) == weigh[k] * Arms(s, k)[i]
  {
    if k == 2 {
      assert weigh[2] * s.spin[i] * s.kappa == weigh[2] * (s.kappa * s.spin[i]);
      assert Arms(s, 2)[i] == s.kappa * s.spin[i];
    } else if k == 1 {
      assert Arms(s, 1)[i] == -1.0 * s.atZ[i];
      assert -weigh[1] * s.atZ[i] == weigh[1] * (-1.0 * s.atZ[i]);
    }
  }

  lemma GivesArms(s: Frame, f: Vec, k: nat)
    requires FrameOk(s) && |f| == N && k < N
    ensures var c := Arms(s, k);
            Gives(s, f)[k] == c[0] * f[0] + c[1] * f[1] + c[2] * f[2] + c[3] * f[3]
  {
    if k == 2 {
      Weighed(s.kappa, s.spin, f, 0.0);
    } else if k == 1 {
      Weighed(-1.0, s.atZ, f, 0.0);
    }
  }

  lemma RowGives(s: Frame, weigh: Vec, want: Vec, f: Vec, k: nat)
    requires FrameOk(s) && |weigh| == N && |want| == N && |f| == N && k < N
    ensures Miss(Rows(s, weigh), Wanted(weigh, want), f)[k]
         == weigh[k] * (Gives(s, f)[k] - want[k])
  {
    hide Miss, Rows, Gives, Arms, RowAt;
    var a := Rows(s, weigh);
    RowMissed(a, Wanted(weigh, want), f, k);
    forall i | 0 <= i < N
      ensures a[k][i] == weigh[k] * Arms(s, k)[i]
    {
      RowWeighed(s, weigh, k, i);
    }
    Weighed(weigh[k], Arms(s, k), f, want[k]);
    GivesArms(s, f, k);
  }

  lemma CostIsMissed(s: Frame, weigh: Vec, want: Vec, f: Vec)
    requires FrameOk(s) && |weigh| == N && |want| == N && |f| == N
    ensures Cost(Rows(s, weigh), Wanted(weigh, want), f) == Missed(s, weigh, want, f)
  {
    hide Miss, Rows, Gives, Wanted, Dot;
    var e := Miss(Rows(s, weigh), Wanted(weigh, want), f);
    FourDot(e, e);
    RowGives(s, weigh, want, f, 0);
    RowGives(s, weigh, want, f, 1);
    RowGives(s, weigh, want, f, 2);
    RowGives(s, weigh, want, f, 3);
  }

  /** How hard the wanted wrench draws a rotor at rest. */
  function Drawn(s: Frame, weigh: Vec, want: Vec, i: nat): real
    requires FrameOk(s) && |weigh| == 4 && |want| == 4 && i < 4
  {
    weigh[0] * (weigh[0] * want[0]) - weigh[1] * s.atZ[i] * (weigh[1] * want[1])
    + weigh[2] * s.spin[i] * s.kappa * (weigh[2] * want[2])
    + weigh[3] * s.atX[i] * (weigh[3] * want[3])
  }

  /** What a newton moved may still gain, in the end: a part in 10^12 of the draws and of one. */
  function Tolerance(s: Frame, weigh: Vec, want: Vec): real
    requires FrameOk(s) && |weigh| == 4 && |want| == 4
  {
    (1.0 + Size(Drawn(s, weigh, want, 0)) + Size(Drawn(s, weigh, want, 1))
     + Size(Drawn(s, weigh, want, 2)) + Size(Drawn(s, weigh, want, 3))) / 1000000000000.0
  }

  lemma DrawnIs(s: Frame, weigh: Vec, want: Vec, i: nat)
    requires FrameOk(s) && |weigh| == N && |want| == N && i < N
    ensures Pull(Rows(s, weigh), Wanted(weigh, want))[i] == Drawn(s, weigh, want, i)
  {
    var a := Rows(s, weigh);
    RowsAre(s, weigh, i);
    hide Rows, RowAt;
    FourDot(Col(a, i), Wanted(weigh, want));
  }

  lemma ToleranceIs(s: Frame, weigh: Vec, want: Vec, lo: Vec, hi: Vec)
    requires FrameOk(s) && |weigh| == N && |want| == N && |lo| == N && |hi| == N
    ensures AskOf(s, weigh, want, lo, hi).near == Tolerance(s, weigh, want)
  {
    hide Rows, Wanted, Drawn, Pull, Size, Gram;
    var g := Pull(Rows(s, weigh), Wanted(weigh, want));
    forall i | 0 <= i < N
      ensures g[i] == Drawn(s, weigh, want, i)
    {
      DrawnIs(s, weigh, want, i);
    }
    assert Sizes(g, 1) == Size(g[0]);
    assert Sizes(g, 2) == Sizes(g, 1) + Size(g[1]);
    assert Sizes(g, 3) == Sizes(g, 2) + Size(g[2]);
  }

  /** A rotor's upper end: the least of it is the lower one. */
  function Upper(lo: Vec, hi: Vec, i: nat): real
    requires |lo| == 4 && |hi| == 4 && i < 4
  {
    if lo[i] < hi[i] then hi[i] else lo[i]
  }

  ghost predicate Between(lo: Vec, hi: Vec, x: Vec)
    requires |lo| == 4 && |hi| == 4
  {
    |x| == 4 && forall i :: 0 <= i < 4 ==> lo[i] <= x[i] <= Upper(lo, hi, i)
  }

  function Middle(lo: Vec, hi: Vec): (x: Vec)
    requires |lo| == 4 && |hi| == 4
    ensures |x| == 4
  {
    seq(4, i requires 0 <= i < 4 => (lo[i] + Upper(lo, hi, i)) / 2.0)
  }

  /** The rotors whose two ends differ. */
  function Roomy(lo: Vec, hi: Vec): nat
    requires |lo| == 4 && |hi| == 4
  {
    (if lo[0] < hi[0] then 1 else 0) + (if lo[1] < hi[1] then 1 else 0)
    + (if lo[2] < hi[2] then 1 else 0) + if lo[3] < hi[3] then 1 else 0
  }

  /** No thrusts of the box miss the wrench by less, but for the tolerance a newton moved. */
  ghost predicate Nearest(s: Frame, weigh: Vec, want: Vec, lo: Vec, hi: Vec, f: Vec)
    requires FrameOk(s) && |weigh| == 4 && |want| == 4 && |lo| == 4 && |hi| == 4 && |f| == 4
  {
    && Between(lo, hi, f)
    && Missed(s, weigh, want, f) <= Missed(s, weigh, want, Middle(lo, hi))
    && forall x: Vec :: Between(lo, hi, x) ==> NoBetter(s, weigh, want, f, x)
  }

  ghost predicate NoBetter(s: Frame, weigh: Vec, want: Vec, f: Vec, x: Vec)
    requires FrameOk(s) && |weigh| == 4 && |want| == 4 && |f| == 4 && |x| == 4
  {
    Missed(s, weigh, want, f)
    <= Missed(s, weigh, want, x)
       + Tolerance(s, weigh, want)
         * (Size(x[0] - f[0]) + Size(x[1] - f[1]) + Size(x[2] - f[2]) + Size(x[3] - f[3]))
  }

  lemma SlackIs(near: real, x: Vec, f: Vec)
    requires |x| == N && |f| == N
    ensures Slack(near, x, f)
         == near * (Size(x[0] - f[0]) + Size(x[1] - f[1]) + Size(x[2] - f[2]) + Size(x[3] - f[3]))
  {
    hide Size;
    assert Gap(x, f, 1) == Size(x[0] - f[0]);
    assert Gap(x, f, 2) == Gap(x, f, 1) + Size(x[1] - f[1]);
    assert Gap(x, f, 3) == Gap(x, f, 2) + Size(x[2] - f[2]);
  }

  /** The start as the ranges put it. */
  lemma StartIs(s: Frame, weigh: Vec, want: Vec, lo: Vec, hi: Vec)
    requires FrameOk(s) && |weigh| == N && |want| == N && |lo| == N && |hi| == N
    ensures var q := AskOf(s, weigh, want, lo, hi);
            && Start(q).f == Middle(lo, hi) && OpenCount(Start(q).open, N) == Roomy(lo, hi)
            && forall x: Vec :: InBox(q, x) <==> Between(lo, hi, x)
  {
    hide Rows, Wanted, Pull, Gram, Sizes;
    var q := AskOf(s, weigh, want, lo, hi);
    assert forall i :: 0 <= i < N ==> q.low[i] == lo[i] && q.high[i] == Upper(lo, hi, i);
    assert Start(q).f == Middle(lo, hi);
    var o := Start(q).open;
    assert OpenCount(o, 1) == if o[0] then 1 else 0;
    assert OpenCount(o, 2) == OpenCount(o, 1) + if o[1] then 1 else 0;
    assert OpenCount(o, 3) == OpenCount(o, 2) + if o[2] then 1 else 0;
  }

  /** A frame that can tell its rotors apart: no thrusts but none make next to nothing of the weighed
      wrench, their squares held against the least normal double. */
  ghost predicate Apart(s: Frame, weigh: Vec)
    requires FrameOk(s) && |weigh| == 4
  {
    forall x: Vec :: |x| == 4 ==>
      2.0 * Missed(s, weigh, [0.0, 0.0, 0.0, 0.0], x) * TwoTo(1022)
      >= Squared(x[0]) + Squared(x[1]) + Squared(x[2]) + Squared(x[3])
  }

  lemma FromNothing(a: Mat, t: Vec, x: Vec)
    requires Square(a, N) && |t| == N && |x| == N && forall k :: 0 <= k < N ==> t[k] == 0.0
    ensures 2.0 * Cost(a, t, x) == Dot(Times(a, x, N), Times(a, x, N), N)
  {
    hide Dot;
    assert Miss(a, t, x) == Times(a, x, N);
  }

  lemma ApartTells(s: Frame, weigh: Vec)
    requires FrameOk(s) && |weigh| == N && Apart(s, weigh)
    ensures Tells(Rows(s, weigh))
  {
    hide Rows, Missed, Dot, Times, TwoTo, Squared, Cost;
    var a, none := Rows(s, weigh), [0.0, 0.0, 0.0, 0.0];
    forall x: Vec | |x| == N
      ensures Dot(Times(a, x, N), Times(a, x, N), N) >= Least() * Dot(x, x, N)
    {
      var t := Wanted(weigh, none);
      assert forall k :: 0 <= k < N ==> t[k] == 0.0;
      CostIsMissed(s, weigh, none, x);
      FromNothing(a, t, x);
      FourSquares(x);
      Shrunk(Dot(Times(a, x, N), Times(a, x, N), N), Dot(x, x, N), TwoTo(1022));
    }
  }

  lemma FourSquares(x: Vec)
    requires |x| == N
    ensures Dot(x, x, N) == Squared(x[0]) + Squared(x[1]) + Squared(x[2]) + Squared(x[3])
  {
    FourDot(x, x);
  }

  lemma Shrunk(v: real, d: real, t: real)
    requires v * t >= d && t > 0.0
    ensures v >= 1.0 / t * d
  {
    assert 1.0 / t * t == 1.0;
    assert (1.0 / t) * (v * t - d) >= 0.0;
    assert (1.0 / t) * (v * t) == v * (1.0 / t * t);
    assert (1.0 / t) * (v * t - d) == (1.0 / t) * (v * t) - 1.0 / t * d;
  }

  /** No pivot clamped in the passes made: so with any frame that tells its rotors apart. */
  lemma ApartClear(s: Frame, weigh: Vec, want: Vec, lo: Vec, hi: Vec)
    requires FrameOk(s) && |weigh| == N && |want| == N && |lo| == N && |hi| == N && Apart(s, weigh)
    ensures var q := AskOf(s, weigh, want, lo, hi);
            AllClear(q, Start(q), 8)
  {
    hide Rows, Wanted, AskOf, Clear, Passes, Start, Tells, Apart;
    var q := AskOf(s, weigh, want, lo, hi);
    ApartTells(s, weigh);
    forall k | 0 <= k < 8
      ensures Clear(q, Passes(q, Start(q), k))
    {
      NeverClamped(q, Passes(q, Start(q), k), Rows(s, weigh), Wanted(weigh, want));
    }
  }

  lemma ClearBest(s: Frame, weigh: Vec, want: Vec, lo: Vec, hi: Vec)
    requires FrameOk(s) && |weigh| == N && |want| == N && |lo| == N && |hi| == N
    requires var q := AskOf(s, weigh, want, lo, hi);
             AllClear(q, Start(q), 8) && Roomy(lo, hi) + Debt(q, Start(q), 8) < 8
    ensures var q := AskOf(s, weigh, want, lo, hi);
            Nearest(s, weigh, want, lo, hi, Passes(q, Start(q), 8).f)
  {
    hide Rows, Wanted, AskOf, Cost, Clear, Settled, Pass, Slack, Debt, OpenCount, Passes, Roomy,
         Missed, Tolerance, Middle, Between;
    var q := AskOf(s, weigh, want, lo, hi);
    StartIs(s, weigh, want, lo, hi);
    StartGood(q);
    hide Start, Good;
    var k := Settles(q, Start(q), 8);
    PassesKeep(q, Start(q), 8);
    var f := Passes(q, Start(q), 8).f;
    BoxOf(q, Passes(q, Start(q), 8));
    CostIsMissed(s, weigh, want, f);
    CostIsMissed(s, weigh, want, Middle(lo, hi));
    ToleranceIs(s, weigh, want, lo, hi);
    forall x: Vec | Between(lo, hi, x)
      ensures NoBetter(s, weigh, want, f, x)
    {
      ShareGives(s, weigh, want, lo, hi, k, x);
      CostIsMissed(s, weigh, want, x);
      SlackIs(q.near, x, f);
    }
    ShareGives(s, weigh, want, lo, hi, k, f);
  }

  lemma BoxOf(q: Ask, s: Set)
    requires AskOk(q) && Good(q, s)
    ensures InBox(q, s.f)
  {
  }

  /** What the share gives, over a frame that tells its rotors apart, or whenever no pivot is clamped
      on the way: what was let go costing no more passes than the rotors with room leave of the eight,
      a pass settles and nothing in the ranges comes closer to the wrench. With nothing let go five are
      enough, and three are there for the rest. */
  lemma ShareBest(s: Frame, weigh: Vec, want: Vec, lo: Vec, hi: Vec)
    requires FrameOk(s) && |weigh| == N && |want| == N && |lo| == N && |hi| == N
    requires var q := AskOf(s, weigh, want, lo, hi);
             (Apart(s, weigh) || AllClear(q, Start(q), 8))
             && Roomy(lo, hi) + Debt(q, Start(q), 8) < 8
    ensures var q := AskOf(s, weigh, want, lo, hi);
            Nearest(s, weigh, want, lo, hi, Passes(q, Start(q), 8).f)
  {
    hide AskOf, Start, Roomy, Debt, Apart, AllClear, Nearest, Passes;
    if Apart(s, weigh) {
      ApartClear(s, weigh, want, lo, hi);
    }
    ClearBest(s, weigh, want, lo, hi);
  }

  lemma StartGood(q: Ask)
    requires AskOk(q)
    ensures Good(q, Start(q))
  {
  }
}
