/** The emulator's timer, counted lazily: position, direction, over- and underflows and update
    events worked out of the ticks since the start, against a counter stepped one tick at a time. */
module TimerClosed {
  const HALFWORD := 0x10000

  /** What ARR counts up to: sixteen bits, at least one. */
  function TopOf(arr: nat): (top: nat)
    ensures 1 <= top < HALFWORD
  {
    if arr % HALFWORD == 0 then 1 else arr % HALFWORD
  }

  function RepsOf(rcr: nat): (reps: nat)
    ensures 1 <= reps <= HALFWORD
  {
    rcr % HALFWORD + 1
  }

  /** Ticks from one over- or underflow to the next. */
  function StepOf(centred: bool, top: nat): nat { if centred then top else top + 1 }

  function PeriodOf(centred: bool, top: nat): nat { if centred then 2 * top else top + 1 }

  /** The count at a position. */
  function CounterAt(centred: bool, top: nat, p: nat): int
    requires top >= 1
  {
    var q := p % PeriodOf(centred, top);
    if centred && q > top then 2 * top - q else q
  }

  predicate DownAt(centred: bool, top: nat, p: nat)
    requires top >= 1
  {
    centred && p % PeriodOf(centred, top) >= top
  }

  function FlowsAt(centred: bool, top: nat, p: nat): nat
    requires top >= 1
  {
    p / StepOf(centred, top)
  }

  /** The first flow is an update event, then every reps-th. */
  function UpdatesOf(flows: nat, reps: nat): nat
    requires reps >= 1
  {
    if flows == 0 then 0 else (flows - 1) / reps + 1
  }

  function UpdatesAt(centred: bool, top: nat, reps: nat, p: nat): nat
    requires top >= 1 && reps >= 1
  {
    UpdatesOf(FlowsAt(centred, top, p), reps)
  }

  /** The ticks from a position to its next update event, as the alarm is set. */
  function NextAt(centred: bool, top: nat, reps: nat, p: nat): int
    requires top >= 1 && reps >= 1
  {
    var first := StepOf(centred, top);
    if p < first then first - p
    else
      assert first * reps >= 1 by { ProductPositive(first, reps); }
      first * reps - (p - first) % (first * reps)
  }

  // ---- a counter stepped one tick at a time ----

  datatype Tick = Tick(cnt: int, down: bool, rep: nat, flows: nat, updates: nat)

  /** A flow: an update event when the repetition counter is out, which loads it again. */
  function Flow(s: Tick, reps: nat): Tick
    requires reps >= 1
  {
    if s.rep == 0 then s.(flows := s.flows + 1, updates := s.updates + 1, rep := reps - 1)
    else s.(flows := s.flows + 1, rep := s.rep - 1)
  }

  /** One tick: centred, up to the top and down to zero, a flow at each; edge-aligned, up to the
      top and a flow over to zero. */
  function TickOnce(centred: bool, top: nat, reps: nat, s: Tick): Tick
    requires reps >= 1
  {
    if !centred then
      if s.cnt == top then Flow(s.(cnt := 0), reps) else s.(cnt := s.cnt + 1)
    else if !s.down then
      if s.cnt + 1 == top then Flow(s.(cnt := top, down := true), reps) else s.(cnt := s.cnt + 1)
    else
      if s.cnt == 1 then Flow(s.(cnt := 0, down := false), reps) else s.(cnt := s.cnt - 1)
  }

  function Ticked(centred: bool, top: nat, reps: nat, t: nat): Tick
    requires reps >= 1
  {
    if t == 0 then Tick(0, false, 0, 0, 0) else TickOnce(centred, top, reps, Ticked(centred, top, reps, t - 1))
  }

  // ---- division, one step at a time ----

  lemma ProductPositive(a: nat, b: nat)
    requires a >= 1 && b >= 1
    ensures a * b >= 1
  {
  }

  lemma TimesAtLeast(d: int, m: int)
    requires d >= 1 && m >= 1
    ensures d * m >= m
  {
  }

  lemma DivUnique(a: nat, m: nat, q: nat, r: nat)
    requires m >= 1 && a == q * m + r && r < m
    ensures a / m == q && a % m == r
  {
    var d := a / m - q;
    assert a == a / m * m + a % m;
    assert d * m == r - a % m;
    if d >= 1 {
      TimesAtLeast(d, m);
    } else if d <= -1 {
      TimesAtLeast(-d, m);
    }
  }

  lemma OneMore(q: nat, m: nat)
    ensures (q + 1) * m == q * m + m
  {
  }

  lemma Euclid(a: nat, m: nat)
    requires m >= 1
    ensures a == a / m * m + a % m && a % m < m
  {
  }

  /** Counting on by one: the remainder steps, or wraps and the quotient steps. */
  lemma DivStep(a: nat, m: nat)
    requires m >= 1
    ensures a % m + 1 == m ==> (a + 1) / m == a / m + 1 && (a + 1) % m == 0
    ensures a % m + 1 != m ==> (a + 1) / m == a / m && (a + 1) % m == a % m + 1
  {
    Euclid(a, m);
    var q, r := a / m, a % m;
    if r + 1 == m {
      OneMore(q, m);
      DivUnique(a + 1, m, q + 1, 0);
    } else {
      DivUnique(a + 1, m, q, r + 1);
    }
  }

  /** The remainder by twice a number, from the quotient's parity and the remainder by it. */
  lemma ModTwice(a: nat, m: nat)
    requires m >= 1
    ensures a % (2 * m) == (if a / m % 2 == 0 then 0 else m) + a % m
  {
    Euclid(a, m);
    var q, r := a / m, a % m;
    if q % 2 == 0 {
      EvenTwice(a, m, q / 2, r);
    } else {
      OddTwice(a, m, q / 2, r);
    }
  }

  lemma EvenTwice(a: nat, m: nat, h: nat, r: nat)
    requires r < m && a == 2 * h * m + r
    ensures a % (2 * m) == r
  {
    assert 2 * h * m == h * (2 * m);
    DivUnique(a, 2 * m, h, r);
  }

  lemma OddTwice(a: nat, m: nat, h: nat, r: nat)
    requires r < m && a == (2 * h + 1) * m + r
    ensures a % (2 * m) == m + r
  {
    assert (2 * h + 1) * m == h * (2 * m) + m;
    DivUnique(a, 2 * m, h, m + r);
  }

  /** Two divisions are one by the product. */
  lemma DivDiv(a: nat, b: nat, c: nat)
    requires b >= 1 && c >= 1
    ensures b * c >= 1 && a / b / c == a / (b * c)
    ensures a % (b * c) == a / b % c * b + a % b
  {
    Euclid(a, b);
    Euclid(a / b, c);
    ProductPositive(b, c);
    var q, r := a / b, a % b;
    var h, k := q / c, q % c;
    Regroup(h, c, k, b);
    Below(k, c, b, r);
    DivUnique(a, b * c, h, k * b + r);
  }

  lemma Regroup(h: nat, c: nat, k: nat, b: nat)
    ensures (h * c + k) * b == h * (b * c) + k * b
  {
    assert (h * c + k) * b == (h * c) * b + k * b;
    assert (h * c) * b == h * (c * b);
    assert c * b == b * c;
  }

  lemma Below(k: nat, c: nat, b: nat, r: nat)
    requires k < c && r < b
    ensures k * b + r < b * c
  {
    OneMore(k, b);
    Monotone(k + 1, c, b);
    assert c * b == b * c;
  }

  lemma Monotone(x: nat, y: nat, b: nat)
    requires x <= y
    ensures x * b <= y * b
  {
  }

  // ---- the closed form is the counter ----

  /** The repetition counter after so many flows. */
  function RepAt(flows: nat, reps: nat): nat
    requires reps >= 1
  {
    if flows == 0 then 0 else reps - 1 - (flows - 1) % reps
  }

  /** The closed form's picture of the counter at a position. */
  function ClosedAt(centred: bool, top: nat, reps: nat, p: nat): Tick
    requires top >= 1 && reps >= 1
  {
    var flows := FlowsAt(centred, top, p);
    Tick(CounterAt(centred, top, p), DownAt(centred, top, p), RepAt(flows, reps), flows,
         UpdatesOf(flows, reps))
  }

  /** One flow more: an update event exactly when the repetition counter is out. */
  lemma FlowCounts(flows: nat, reps: nat)
    requires reps >= 1
    ensures RepAt(flows, reps) == 0 ==>
              UpdatesOf(flows + 1, reps) == UpdatesOf(flows, reps) + 1 && RepAt(flows + 1, reps) == reps - 1
    ensures RepAt(flows, reps) != 0 ==>
              UpdatesOf(flows + 1, reps) == UpdatesOf(flows, reps)
              && RepAt(flows + 1, reps) == RepAt(flows, reps) - 1
  {
    if flows == 0 {
      DivUnique(0, reps, 0, 0);
    } else {
      DivStep(flows - 1, reps);
    }
  }

  lemma EdgeIs(top: nat, p: nat)
    requires top >= 1
    ensures CounterAt(false, top, p) == p % (top + 1) && !DownAt(false, top, p)
    ensures FlowsAt(false, top, p) == p / (top + 1)
  {
  }

  lemma EdgeStep(top: nat, reps: nat, p: nat)
    requires top >= 1 && reps >= 1
    ensures ClosedAt(false, top, reps, p + 1) == TickOnce(false, top, reps, ClosedAt(false, top, reps, p))
  {
    hide UpdatesOf, RepAt, CounterAt, DownAt, FlowsAt;
    EdgeIs(top, p);
    EdgeIs(top, p + 1);
    DivStep(p, top + 1);
    FlowCounts(p / (top + 1), reps);
  }

  /** Where the centred counter stands, by the flows so far and the ticks since the last. */
  lemma CentredIs(top: nat, p: nat)
    requires top >= 1
    ensures CounterAt(true, top, p) == if p / top % 2 == 0 then p % top else top - p % top
    ensures DownAt(true, top, p) <==> p / top % 2 == 1
  {
    ModTwice(p, top);
    assert 0 <= p % top < top;
  }

  lemma CentredStep(top: nat, reps: nat, p: nat)
    requires top >= 1 && reps >= 1
    ensures ClosedAt(true, top, reps, p + 1) == TickOnce(true, top, reps, ClosedAt(true, top, reps, p))
  {
    hide UpdatesOf, RepAt, CounterAt, DownAt;
    CentredIs(top, p);
    CentredIs(top, p + 1);
    DivStep(p, top);
    FlowCounts(p / top, reps);
  }

  /** Counter, direction, flows and update events, worked out at any position, are those of a
      counter stepped there one tick at a time with its repetition counter out at the start. */
  lemma {:induction false} ClosedIsTicked(centred: bool, top: nat, reps: nat, p: nat)
    requires top >= 1 && reps >= 1
    ensures ClosedAt(centred, top, reps, p) == Ticked(centred, top, reps, p)
    decreases p
  {
    hide ClosedAt, TickOnce;
    if p == 0 {
      ClosedStart(centred, top, reps);
    } else {
      ClosedIsTicked(centred, top, reps, p - 1);
      if centred {
        CentredStep(top, reps, p - 1);
      } else {
        EdgeStep(top, reps, p - 1);
      }
    }
  }

  lemma ClosedStart(centred: bool, top: nat, reps: nat)
    requires top >= 1 && reps >= 1
    ensures ClosedAt(centred, top, reps, 0) == Tick(0, false, 0, 0, 0)
  {
    DivUnique(0, PeriodOf(centred, top), 0, 0);
    DivUnique(0, StepOf(centred, top), 0, 0);
  }

  // ---- counts without a division ----

  /** So many whole steps of the position, and no more. */
  predicate Whole(flows: nat, step: nat, p: nat) {
    flows * step <= p < (flows + 1) * step
  }

  lemma TimesEuclid(a: nat, m: nat)
    requires m >= 1
    ensures Whole(a / m, m, a)
    ensures a % m == a - a / m * m
  {
    Euclid(a, m);
    OneMore(a / m, m);
  }

  /** So many update events for the flows: more flows than one fewer event would need. */
  predicate Paced(updates: nat, reps: nat, flows: nat) {
    updates * reps - reps < flows <= updates * reps
  }

  lemma UpdatesHold(flows: nat, reps: nat)
    requires reps >= 1
    ensures Paced(UpdatesOf(flows, reps), reps, flows)
  {
    if flows > 0 {
      TimesEuclid(flows - 1, reps);
      OneMore((flows - 1) / reps, reps);
    }
  }

  lemma EdgeHolds(top: nat, p: nat)
    requires top >= 1
    ensures var flows := FlowsAt(false, top, p);
            && Whole(flows, top + 1, p) && !DownAt(false, top, p)
            && CounterAt(false, top, p) == p - flows * (top + 1)
  {
    hide Whole;
    TimesEuclid(p, top + 1);
    EdgeIs(top, p);
  }

  lemma CentredHolds(top: nat, p: nat)
    requires top >= 1
    ensures var flows := FlowsAt(true, top, p);
            && Whole(flows, top, p) && (DownAt(true, top, p) <==> flows % 2 == 1)
            && CounterAt(true, top, p)
               == if flows % 2 == 1 then flows * top + top - p else p - flows * top
  {
    hide Whole, CounterAt, DownAt;
    TimesEuclid(p, top);
    CentredIs(top, p);
  }

  // ---- the alarm ----

  /** Update events by the ticks past the first flow: one, and one more every reps flows. */
  lemma UpdatesPast(centred: bool, top: nat, reps: nat, p: nat)
    requires top >= 1 && reps >= 1
    ensures var first := StepOf(centred, top);
      && first * reps >= 1
      && UpdatesAt(centred, top, reps, p) == if p < first then 0 else (p - first) / (first * reps) + 1
  {
    var first := StepOf(centred, top);
    ProductPositive(first, reps);
    if p < first {
      DivUnique(p, first, 0, p);
    } else {
      var b := p - first;
      Euclid(b, first);
      OneMore(b / first, first);
      DivUnique(p, first, b / first + 1, b % first);
      DivDiv(b, first, reps);
    }
  }

  lemma DivAhead(b: nat, m: nat, n: nat)
    requires m >= 1
    requires n <= m - b % m
    ensures (b + n) / m == if n == m - b % m then b / m + 1 else b / m
  {
    Euclid(b, m);
    var q, r := b / m, b % m;
    if n == m - r {
      OneMore(q, m);
      DivUnique(b + n, m, q + 1, 0);
    } else {
      DivUnique(b + n, m, q, r + n);
    }
  }

  lemma NextPositive(centred: bool, top: nat, reps: nat, p: nat)
    requires top >= 1 && reps >= 1
    ensures NextAt(centred, top, reps, p) >= 1
  {
    ProductPositive(StepOf(centred, top), reps);
  }

  /** The alarm is set for the next update event: none before it, one more at it. */
  lemma NextIsNext(centred: bool, top: nat, reps: nat, p: nat, n: nat)
    requires top >= 1 && reps >= 1 && n <= NextAt(centred, top, reps, p)
    ensures UpdatesAt(centred, top, reps, p + n)
            == UpdatesAt(centred, top, reps, p) + if n == NextAt(centred, top, reps, p) then 1 else 0
  {
    var first := StepOf(centred, top);
    UpdatesPast(centred, top, reps, p);
    UpdatesPast(centred, top, reps, p + n);
    hide UpdatesAt;
    if p < first {
      DivUnique(0, first * reps, 0, 0);
    } else {
      DivAhead(p - first, first * reps, n);
    }
  }

  lemma RoundUp(b: nat, m: nat)
    requires m >= 1
    ensures b % m < m && (b + (m - b % m)) % m == 0
  {
    Euclid(b, m);
    OneMore(b / m, m);
    DivUnique(b + (m - b % m), m, b / m + 1, 0);
  }

  /** From one update event the next is a whole step of the alarm's on. */
  lemma NextRepeats(centred: bool, top: nat, reps: nat, p: nat)
    requires top >= 1 && reps >= 1
    ensures var n := NextAt(centred, top, reps, p);
      n >= 1 && NextAt(centred, top, reps, p + n) == StepOf(centred, top) * reps
  {
    var first := StepOf(centred, top);
    var m := first * reps;
    ProductPositive(first, reps);
    if p < first {
      DivUnique(0, m, 0, 0);
    } else {
      RoundUp(p - first, m);
    }
  }
}
