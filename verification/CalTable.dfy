/** The calibration's fixed-point table: each channel's offset and gain laid in Q28 from the
    record, and a reading put through it. */
module CalTable {
  const CHANNELS := 10
  const ONE := 0x1000_0000           // 1.0 in Q28
  const HALF := 0x800_0000
  const MILLION := 1000000
  const INT32_MAX := 0x7FFF_FFFF
  const INT32_MIN := -0x8000_0000
  const TURN := 0x1_0000_0000

  /** A channel's trim as recorded: an offset in counts and a gain in parts per million. */
  datatype Trim = Trim(offset: int, ppm: int)

  /** The same as laid out. */
  datatype Laid = Laid(offset: int, gain: int)

  predicate Fits(x: int) { INT32_MIN <= x <= INT32_MAX }

  /** A cast to 32 bits, two's complement. */
  function Wrap(x: int): (y: int)
    ensures Fits(y)
    ensures Fits(x) ==> y == x
  {
    (x - INT32_MIN) % TURN + INT32_MIN
  }

  /** Millionths, divided as C divides: toward zero. */
  function Millionths(a: int): int { if a < 0 then -((0 - a) / MILLION) else a / MILLION }

  const MOST: int := INT32_MAX - ONE

  function GainOf(ppm: int): int { Millionths(ppm * ONE) }

  function LaidOf(t: Trim): Laid { Laid(t.offset, Wrap(if GainOf(t.ppm) < MOST then GainOf(t.ppm) else MOST)) }

  /** The reading scaled and rounded to the nearest, halves up, in unbounded integers. */
  function Exact(l: Laid, raw: int): int { ((raw - l.offset) * (l.gain + ONE) + HALF) / ONE }

  /** The reading as the board computes it: the difference and the result in 32 bits. */
  function Applied(l: Laid, raw: int): int {
    Wrap((Wrap(raw - l.offset) * (l.gain + ONE) + HALF) / ONE)
  }

  predicate Accepts(ppm: int) { -MILLION < ppm <= INT32_MAX }

  // ---- rounding ----

  lemma MillionthsNear(a: int)
    ensures -MILLION < a - Millionths(a) * MILLION < MILLION
    ensures a >= 0 ==> 0 <= a - Millionths(a) * MILLION
    ensures a <= 0 ==> a - Millionths(a) * MILLION <= 0
  {
  }


  /** A gain accepted and under the ceiling is laid within one part in 2^28, toward no trim, and
      stays positive as a factor. */
  lemma GainNear(ppm: int)
    requires Accepts(ppm)
    ensures var l := LaidOf(Trim(0, ppm));
      && Fits(l.gain) && 0 < l.gain + ONE <= INT32_MAX
      && (GainOf(ppm) < MOST ==>
            && -MILLION < ppm * ONE - l.gain * MILLION < MILLION
            && (if ppm >= 0 then l.gain * MILLION <= ppm * ONE else l.gain * MILLION >= ppm * ONE))
      && (GainOf(ppm) >= MOST ==> l.gain + 0x1000_0000 == 0x7FFF_FFFF)
  {
    MillionthsNear(ppm * ONE);
  }

  /** The rounding is to the nearest, a half going up. */
  lemma ExactNear(l: Laid, raw: int)
    ensures var d := raw - l.offset;
      -HALF < Exact(l, raw) * ONE - d * (l.gain + ONE) <= HALF
  {
    var a := (raw - l.offset) * (l.gain + ONE) + HALF;
    assert a == a / ONE * ONE + a % ONE;
  }

  function Abs(x: int): nat { if x < 0 then -x else x }

  lemma TimesWithin(d: int, e: int, bound: int)
    requires Abs(e) <= bound
    ensures Abs(d * e) <= Abs(d) * bound
  {
    if d >= 0 {
      Monotone(e, bound, d);
      Monotone(0 - bound, e, d);
      assert d * (0 - bound) == -(d * bound);
    } else {
      Monotone(e, bound, 0 - d);
      Monotone(0 - bound, e, 0 - d);
      assert (0 - d) * e == -(d * e);
      assert (0 - d) * (0 - bound) == -((0 - d) * bound);
    }
  }

  lemma Monotone(x: int, y: int, d: int)
    requires x <= y && d >= 0
    ensures d * x <= d * y
  {
  }

  /** For a gain under the ceiling the scaled reading is within half a count, and a part in 2^28 of
      the reading, of the reading trimmed in exact arithmetic: stated times 2^28 million. */
  lemma ExactWithin(t: Trim, raw: int)
    requires Accepts(t.ppm) && GainOf(t.ppm) < MOST
    ensures var d := raw - t.offset;
      Abs(Exact(LaidOf(t), raw) * ONE * MILLION - d * (MILLION + t.ppm) * ONE)
      <= HALF * MILLION + Abs(d) * MILLION
  {
    var l := LaidOf(t);
    var d := raw - t.offset;
    GainNear(t.ppm);
    assert l.gain == LaidOf(Trim(0, t.ppm)).gain;
    ExactNear(l, raw);
    var e := l.gain * MILLION - t.ppm * ONE;
    TimesWithin(d, e, MILLION);
    Expand(d, l.gain, t.ppm, e);
    var r := Exact(l, raw) * ONE - d * (l.gain + ONE);
    assert Exact(l, raw) * ONE * MILLION == d * (l.gain + ONE) * MILLION + r * MILLION;
  }

  lemma Expand(d: int, gain: int, ppm: int, e: int)
    requires e == gain * MILLION - ppm * ONE
    ensures d * (gain + ONE) * MILLION - d * (MILLION + ppm) * ONE == d * e
  {
    assert d * (gain + ONE) * MILLION == d * ((gain + ONE) * MILLION);
    assert d * (MILLION + ppm) * ONE == d * ((MILLION + ppm) * ONE);
    assert (gain + ONE) * MILLION - (MILLION + ppm) * ONE == e;
    assert d * ((gain + ONE) * MILLION) - d * ((MILLION + ppm) * ONE)
        == d * ((gain + ONE) * MILLION - (MILLION + ppm) * ONE);
  }

  // ---- what the board computes ----

  /** With the difference in 32 bits the board's reading is the exact one exactly when that one
      fits 32 bits too; else it is off by whole turns. */
  lemma AppliedWhen(l: Laid, raw: int)
    requires Fits(raw - l.offset)
    ensures Applied(l, raw) == Exact(l, raw) <==> Fits(Exact(l, raw))
  {
  }

  /** No trim, and an index no channel has, leave every reading as it is. */
  lemma Identity(raw: int)
    requires Fits(raw)
    ensures Applied(LaidOf(Trim(0, 0)), raw) == raw && Applied(Laid(0, 0), raw) == raw
  {
    assert Millionths(0) == 0;
    assert (raw * ONE + HALF) / ONE == raw;
  }

  lemma ExactMonotone(l: Laid, raw: int, more: int)
    requires raw <= more && l.gain + ONE > 0
    ensures Exact(l, raw) <= Exact(l, more)
  {
    Monotone(raw - l.offset, more - l.offset, l.gain + ONE);
    DivMonotone((raw - l.offset) * (l.gain + ONE) + HALF, (more - l.offset) * (l.gain + ONE) + HALF);
  }

  lemma DivMonotone(a: int, b: int)
    requires a <= b
    ensures a / ONE <= b / ONE
  {
  }

  predicate InRange(l: Laid, raw: int) { Fits(raw - l.offset) && Fits(Exact(l, raw)) }

  /** For every gain SetChannel accepts, the reading rises with raw wherever neither the difference
      nor the result leaves 32 bits. */
  lemma AppliedMonotone(t: Trim, raw: int, more: int)
    requires Accepts(t.ppm) && raw <= more && InRange(LaidOf(t), raw) && InRange(LaidOf(t), more)
    ensures Applied(LaidOf(t), raw) <= Applied(LaidOf(t), more)
  {
    GainNear(t.ppm);
    assert LaidOf(t).gain == LaidOf(Trim(0, t.ppm)).gain;
    hide LaidOf, Exact, Applied, GainOf;
    ExactMonotone(LaidOf(t), raw, more);
    AppliedWhen(LaidOf(t), raw);
    AppliedWhen(LaidOf(t), more);
  }

  /** A gain that does not amplify never takes a difference of 32 bits out of them. */
  lemma AttenuatingFits(t: Trim, raw: int)
    requires -MILLION < t.ppm <= 0 && Fits(raw - t.offset)
    ensures InRange(LaidOf(t), raw)
  {
    var l := LaidOf(t);
    GainNear(t.ppm);
    assert l.gain == LaidOf(Trim(0, t.ppm)).gain;
    MillionthsNear(t.ppm * ONE);
    assert l.gain <= 0;
    var d, k := raw - t.offset, l.gain + ONE;
    hide LaidOf, GainOf;
    Shrinks(d, k);
    var a := d * k + HALF;
    assert a == a / ONE * ONE + a % ONE;
  }

  lemma Shrinks(d: int, k: int)
    requires 0 < k <= ONE
    ensures d >= 0 ==> 0 <= d * k <= d * ONE
    ensures d <= 0 ==> d * ONE <= d * k <= 0
  {
  }

  /** At a gain of seven a reading of 2^28 and a half comes out negative, though a smaller one is
      positive: past 32 bits the reading does not rise with raw. */
  lemma AmplifyingWraps()
    ensures var l := LaidOf(Trim(0, 7 * MILLION));
      Applied(l, 0x1000_0001) < 0 && Applied(l, 1) > 0 && Accepts(7 * MILLION)
  {
    assert GainOf(7 * MILLION) == 7 * ONE;
    var l := LaidOf(Trim(0, 7 * MILLION));
    assert l == Laid(0, MOST);
    assert (0x1000_0001 * INT32_MAX + HALF) / ONE == 0x8000_0007;
  }

  // ---- when a reading rises with raw ----

  /** The raws a channel's difference can be taken of in 32 bits. */
  predicate Readable(t: Trim, raw: int) { Fits(raw) && Fits(raw - t.offset) }

  /** Over all of them the reading never falls as raw rises. */
  ghost predicate Rises(t: Trim) {
    forall raw, more :: raw <= more && Readable(t, raw) && Readable(t, more) ==>
      Applied(LaidOf(t), raw) <= Applied(LaidOf(t), more)
  }

  /** A gain that amplifies takes each end of 32 bits out of them. */
  lemma EndsLeave(t: Trim)
    requires Accepts(t.ppm) && t.ppm > 0
    ensures ONE < LaidOf(t).gain + ONE < 8 * ONE && LaidOf(t).offset == t.offset
    ensures Exact(LaidOf(t), t.offset + INT32_MAX) > INT32_MAX
    ensures Exact(LaidOf(t), t.offset + INT32_MIN) < INT32_MIN
  {
    GainNear(t.ppm);
    assert LaidOf(t).gain == LaidOf(Trim(0, t.ppm)).gain;
    assert LaidOf(t).gain >= 268;
  }

  /** A count further on the reading is at most eight further. */
  lemma StepSmall(l: Laid, raw: int)
    requires 0 < l.gain + ONE < 8 * ONE
    ensures Exact(l, raw) <= Exact(l, raw + 1) <= Exact(l, raw) + 8
  {
    var a := (raw - l.offset) * (l.gain + ONE) + HALF;
    assert (raw + 1 - l.offset) * (l.gain + ONE) + HALF == a + (l.gain + ONE);
  }

  lemma AtOffset(l: Laid)
    ensures Exact(l, l.offset) == 0
  {
  }

  /** Going up from no difference, the first reading past 32 bits comes out negative. */
  lemma {:induction false} FirstAbove(l: Laid, d: nat) returns (c: nat)
    requires 0 < l.gain + ONE < 8 * ONE && Exact(l, l.offset + d) > INT32_MAX && d <= INT32_MAX
    ensures c <= d && Applied(l, l.offset + c) < 0
    decreases d
  {
    AtOffset(l);
    StepSmall(l, l.offset + d - 1);
    if Exact(l, l.offset + d - 1) > INT32_MAX {
      c := FirstAbove(l, d - 1);
    } else {
      c := d;
    }
  }

  /** And going down, the first one past the other end comes out positive. */
  lemma {:induction false} FirstBelow(l: Laid, d: nat) returns (c: nat)
    requires 0 < l.gain + ONE < 8 * ONE && Exact(l, l.offset - d) < INT32_MIN && d <= INT32_MAX + 1
    ensures c <= d && Applied(l, l.offset - c) > 0
    decreases d
  {
    AtOffset(l);
    StepSmall(l, l.offset - d);
    if Exact(l, l.offset - (d - 1)) < INT32_MIN {
      c := FirstBelow(l, d - 1);
    } else {
      c := d;
    }
  }

  /** An amplifying gain makes the reading fall somewhere, whichever way the offset lies. */
  lemma AmplifyingFalls(t: Trim)
    requires Accepts(t.ppm) && Fits(t.offset) && t.ppm > 0
    ensures !Rises(t)
  {
    var l := LaidOf(t);
    EndsLeave(t);
    AtOffset(l);
    assert Applied(l, t.offset) == 0;
    hide LaidOf, GainOf, Exact, Applied;
    if t.offset <= 0 {
      var c := FirstAbove(l, INT32_MAX);
      assert Readable(t, t.offset) && Readable(t, t.offset + c);
    } else {
      var c := FirstBelow(l, INT32_MAX + 1);
      assert Readable(t, t.offset - c) && Readable(t, t.offset);
    }
  }

  /** For every trim SetChannel accepts, the reading rises with raw over all raws if and only if
      the gain does not amplify. */
  lemma RisesExactly(t: Trim)
    requires Accepts(t.ppm) && Fits(t.offset)
    ensures Rises(t) <==> t.ppm <= 0
  {
    hide LaidOf, Exact, Applied;
    if t.ppm > 0 {
      AmplifyingFalls(t);
    } else {
      forall raw, more | raw <= more && Readable(t, raw) && Readable(t, more)
        ensures Applied(LaidOf(t), raw) <= Applied(LaidOf(t), more)
      {
        AttenuatingFits(t, raw);
        AttenuatingFits(t, more);
        AppliedMonotone(t, raw, more);
      }
    }
  }
}
