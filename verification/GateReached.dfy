/** Reached from the board's start: the host's trains with one accepted skew of zero and without, an
    arm and a let-go in an alternation, and a dead time under a standing skew. */
module GateReached {
  import opened GateStage
  import opened GateOwner
  import opened GateTrace
  import opened GateHold
  import opened GateTrains
  import opened GateSwing
  import opened GateDead
  import opened GateWedge
  import opened GateCalls

  /** The same, put to sleep. */
  const SLEEPING := FRESH.(awake := false)

  /** n periods with nothing in them. */
  function Periods(n: nat): seq<Event> {
    if n == 0 then [] else [Overflow, Underflow] + Periods(n - 1)
  }

  lemma RunPeriod(s: Stage, n: nat)
    requires n > 0
    ensures Run(s, Periods(n)) == Run(Update(Update(s, true), false), Periods(n - 1))
  {
    hide Update, Step;
    var es := Periods(n);
    StepIs(s, Overflow);
    StepIs(Update(s, true), Underflow);
    assert es[1..][0] == Underflow && es[1..][1..] == Periods(n - 1);
    assert Run(s, es) == Run(Update(s, true), es[1..]);
  }

  /** Left alone, the train turns about every period. */
  lemma {:induction false} SwingPeriods(s: Stage, n: nat)
    requires InStep(s, FRESH) && s.last == Under && s.countdown == 0
    ensures Run(s, Periods(n)).active == if n % 2 == 0 then Written(s) else Coming(s)
    decreases n
  {
    hide Hosts, Update, Run, Periods;
    if n == 0 {
      RunNothing(s);
    } else {
      RunPeriod(s, n);
      SwingFires(s, true);
      SwingFires(Update(s, true), false);
      SwingPeriods(Update(Update(s, true), false), n - 1);
    }
  }

  /** Asleep, it does not. */
  lemma {:induction false} FrozenPeriods(s: Stage, n: nat)
    requires InStep(s, SLEEPING) && s.last == Under
    ensures Run(s, Periods(n)).active == Written(s)
    decreases n
  {
    hide Hosts, Update, Run, Periods;
    if n == 0 {
      RunNothing(s);
    } else {
      RunPeriod(s, n);
      SwingSleeps(s, true);
      SwingSleeps(Update(s, true), false);
      FrozenPeriods(Update(Update(s, true), false), n - 1);
    }
  }

  lemma RunNothing(s: Stage)
    ensures Run(s, Periods(0)) == s
  {
  }

  /** The train in step, four steps from the start: armed, the two triples asked for, an overflow
      and the underflow behind it. */
  lemma SwingReached(s: Stage, a: Triple, b: Triple)
    requires Initial(s) && Within(a, s.arr) && Within(b, s.arr)
    ensures var v := Run(s, [Arm, Alternate(a, b, 0), Overflow, Underflow]);
      && InStep(v, FRESH) && v.last == Under && v.countdown == 0
      && v.altA == a && v.altB == b && v.altNext && v.deadtime == CUBE_DTG && !v.bif
  {
    hide Inv, ArmF, AlternateF, Update, Run, Enabled, Initial;
    SwingSteps(s, a, b);
    ArmFirst(s);
    NotDrives(ArmF(s));
    Accepted(ArmF(s), a, b);
    AlternateStarts(ArmF(s), a, b, 0);
    var t := AlternateF(ArmF(s), a, b, 0);
    SwingSleeps(t, true);
    SwingFires(Update(t, true), false);
    UpdateDead(t, true);
    UpdateDead(Update(t, true), false);
    EdgeGives(t, true);
    EdgeGives(Update(t, true), false);
  }

  lemma NotDrives(s: Stage)
    requires Inv(s) && !s.owned
    ensures !s.driveOwns
  {
  }

  lemma Accepted(s: Stage, a: Triple, b: Triple)
    requires Enabled(s) && !s.driveOwns && Within(a, s.arr) && Within(b, s.arr)
    ensures AlternateWhy(s, a, b) == Took
  {
  }

  lemma SwingSteps(s: Stage, a: Triple, b: Triple)
    ensures Run(s, [Arm, Alternate(a, b, 0), Overflow, Underflow])
            == Update(Update(AlternateF(ArmF(s), a, b, 0), true), false)
  {
    hide ArmF, AlternateF, Update, Run;
    RunFour(s, Arm, Alternate(a, b, 0), Overflow, Underflow);
  }

  lemma ZeroTaken(s: Stage)
    requires InStep(s, FRESH) && s.last == Under && s.deadtime == CUBE_DTG
    ensures var t := SkewF(s, 0);
      InStep(t, SLEEPING) && t.last == Under && Written(t) == Written(s)
  {
    assert Calm(s, Skew(0)) && Legal(s, Skew(0)) && Stalls(s, Skew(0)) && !Zeroes(s, Skew(0));
    hide Inv, SkewF, Stalls, Wakes, Zeroes;
    CalmStep(s, Skew(0));
    StepIs(s, Skew(0));
  }

  /** From the start: every period of the train runs the other triple; and with one skew of zero
      asked for on the way every period, however many, runs the same one. */
  lemma FrozenReached(s: Stage, a: Triple, b: Triple, n: nat)
    requires Initial(s) && Within(a, s.arr) && Within(b, s.arr)
    ensures var v := Run(s, [Arm, Alternate(a, b, 0), Overflow, Underflow]);
      && Run(v, Periods(n)).active == (if n % 2 == 0 then a else b)
      && Run(Step(v, Skew(0)), Periods(n)).active == a
  {
    hide Run, SkewF, Periods, InStep;
    SwingReached(s, a, b);
    var v := Run(s, [Arm, Alternate(a, b, 0), Overflow, Underflow]);
    SwingPeriods(v, n);
    ZeroTaken(v);
    StepIs(v, Skew(0));
    FrozenPeriods(SkewF(v, 0), n);
  }

  // ---- an arm in an alternation ----

  /** In step and free-running, a step stays so. */
  lemma FreeStep(s: Stage, e: Event, w: Phase)
    requires InStep(s, w) && s.countdown == 0 && Calm(s, e) && Legal(s, e)
    ensures var t := Step(s, e);
      && InStep(t, After(s, e, w)) && t.countdown == 0 && (IsEdge(e) ==> t.bif == s.bif)
      && (IsEdge(e) ==> (t.last == Under <==> e.Underflow?))
      && (!IsEdge(e) ==> (t.last == Under <==> s.last == Under))
  {
    LegalEdge(s, e);
    FreeCount(s, e);
    hide Hosts, Step, Calm, Legal, After, Expiring, Update;
    SwingStep(s, e, w);
    LastIs(s, e, w);
    StepIs(s, e);
    if IsEdge(e) {
      EdgeGives(s, e.Overflow?);
    }
  }

  lemma FreeCount(s: Stage, e: Event)
    requires Hosts(s) && s.alternate && s.countdown == 0 && Calm(s, e) && Legal(s, e)
    ensures Step(s, e).countdown == 0 && !Expiring(s)
  {
    hide Inv, Step, Update, Stalls, Wakes, Zeroes;
    StepIs(s, e);
    if Fires(s, e) {
      SwingFires(s, e.Overflow?);
    } else if IsEdge(e) {
      SwingSleeps(s, e.Overflow?);
    } else {
      CalmStep(s, e);
    }
  }

  lemma ArmIn(s: Stage)
    requires !s.bif
    ensures Zeroes(s, Arm) && Calm(s, Arm) && Legal(s, Arm) && !Stalls(s, Arm) && !Wakes(s, Arm)
  {
  }

  /** From the start, the train in step: an arm before an overflow, and zero is in force behind it,
      cutting the period's triple short; an arm between an overflow and its underflow, and the whole
      period behind that runs neither. */
  lemma ArmedReached(s: Stage, a: Triple, b: Triple)
    requires Initial(s) && Within(a, s.arr) && Within(b, s.arr)
    ensures var v := Run(s, [Arm, Alternate(a, b, 0), Overflow, Underflow]);
      && v.active == a && Run(v, [Arm, Overflow]).active == ZERO
      && Run(v, [Overflow, Arm, Underflow]).active == ZERO
      && Run(v, [Overflow, Arm, Underflow, Overflow]).active == ZERO
  {
    hide Initial, Run, Step, Calm, Legal, Alternating, Zeroes, Stalls, Wakes;
    SwingReached(s, a, b);
    var v := Run(s, [Arm, Alternate(a, b, 0), Overflow, Underflow]);
    EdgesCalm(v);
    ArmBefore(v);
    ArmBehind(v);
  }

  lemma EdgesCalm(s: Stage)
    ensures Calm(s, Overflow) && Calm(s, Underflow)
    ensures Legal(s, Overflow) <==> s.last == Under
    ensures Legal(s, Underflow) <==> s.last != Under
  {
  }

  lemma ArmBefore(v: Stage)
    requires InStep(v, FRESH) && v.last == Under && v.countdown == 0 && !v.bif
    ensures Run(v, [Arm, Overflow]).active == ZERO
  {
    hide Run, Step, Calm, Legal, Alternating, Zeroes, Stalls, Wakes;
    RunTwo(v, Arm, Overflow);
    ArmIn(v);
    FreeStep(v, Arm, FRESH);
    var g := Step(v, Arm);
    EdgesCalm(g);
    FreeStep(g, Overflow, After(v, Arm, FRESH));
  }

  lemma ArmBehind(v: Stage)
    requires InStep(v, FRESH) && v.last == Under && v.countdown == 0 && !v.bif
    ensures Run(v, [Overflow, Arm, Underflow]).active == ZERO
    ensures Run(v, [Overflow, Arm, Underflow, Overflow]).active == ZERO
  {
    hide Run, Step, Calm, Legal, Alternating, Zeroes, Stalls, Wakes;
    RunThree(v, Overflow, Arm, Underflow);
    RunFour(v, Overflow, Arm, Underflow, Overflow);
    EdgesCalm(v);
    FreeStep(v, Overflow, FRESH);
    var o, x := Step(v, Overflow), After(v, Overflow, FRESH);
    ArmIn(o);
    FreeStep(o, Arm, x);
    var g, y := Step(o, Arm), After(o, Arm, x);
    EdgesCalm(g);
    FreeStep(g, Underflow, y);
    var u, z := Step(g, Underflow), After(g, Underflow, y);
    EdgesCalm(u);
    FreeStep(u, Overflow, z);
  }

  // ---- a let-go in an alternation ----

  lemma LetGoSteps(s: Stage, a: Triple, b: Triple)
    ensures Run(s, [Alternate(a, b, 0), Underflow, Overflow, Trigger(Rest(0)), Underflow])
            == Update(TriggerF(Update(Update(AlternateF(s, a, b, 0), false), true), Rest(0)), false)
  {
    hide AlternateF, Update, TriggerF, Run;
    RunFive(s, Alternate(a, b, 0), Underflow, Overflow, Trigger(Rest(0)), Underflow);
  }

  /** The drive letting go under a host's alternation, no skew set: the compares zero and the
      interrupt off. */
  lemma LetGoZeroes(s: Stage)
    requires Hosts(s) && s.owned && s.alternate && s.last == Over && s.skew == 0 && s.rep == 0
    ensures var t := TriggerF(s, Rest(0));
      Hosts(t) && t.alternate && !t.uie && t.ccr == ZERO && t.rep == 0 && t.last != Under
  {
    assert !s.dither;
    assert Drops(s, Trigger(Rest(0))) && Calm(s, Trigger(Rest(0))) && Legal(s, Trigger(Rest(0)));
    hide Inv, TriggerF, Drops;
    CalmStep(s, Trigger(Rest(0)));
    StepIs(s, Trigger(Rest(0)));
  }

  /** From the start: the drive's flag left up by a disarm and an arm, a host's alternation begun
      under it and turning, and then the drive lets go - zero is in force from the next underflow,
      for however many periods. */
  lemma LetGoReached(s: Stage, ticks: Triple, a: Triple, b: Triple, n: nat)
    requires Initial(s) && Within(a, s.arr) && Within(b, s.arr)
    ensures var t := Run(s, [Arm, Overflow, Trigger(Drive(0, ticks)), Disarm, Arm]);
            var u := Run(t, [Alternate(a, b, 0), Underflow, Overflow, Trigger(Rest(0)), Underflow]);
      && Run(t, [Alternate(a, b, 0), Underflow]).active == a
      && u.alternate && Run(u, Periods(n)).active == ZERO
  {
    hide Initial, Inv, Run, AlternateF, Update, TriggerF, Enabled, Periods, CalmRun, NeverWakes,
         Darkened, Within, NeverStalls, Zeroed, Edges;
    WedgeReached(s, ticks);
    var t := Run(s, [Arm, Overflow, Trigger(Drive(0, ticks)), Disarm, Arm]);
    LetGoSteps(t, a, b);
    Accepted(t, a, b);
    AlternateStarts(t, a, b, 0);
    var r := AlternateF(t, a, b, 0);
    AlternateSteps(t, a, b);
    SwingFires(r, false);
    EdgeOwned(r, false);
    UpdateDead(r, false);
    var d := Update(r, false);
    SwingFires(d, true);
    EdgeOwned(d, true);
    UpdateDead(d, true);
    LetGoZeroes(Update(d, true));
    var g := TriggerF(Update(d, true), Rest(0));
    SwingSleeps(g, false);
    var u := Update(g, false);
    PeriodsCalm(u, n);
    FrozenRun(u, Periods(n));
  }

  lemma AlternateSteps(s: Stage, a: Triple, b: Triple)
    ensures Run(s, [Alternate(a, b, 0), Underflow]) == Update(AlternateF(s, a, b, 0), false)
  {
    hide AlternateF, Update, Run;
    RunTwo(s, Alternate(a, b, 0), Underflow);
  }

  // ---- the counted hold, the same way ----

  lemma HostEdge(s: Stage, overflow: bool)
    requires Hosts(s) && overflow == (s.last == Under)
    ensures var t := Update(s, overflow);
      Hosts(t) && t.last == if overflow then Over else Under
  {
    UpdateKeeps(s, overflow);
    assert s.dither ==> !s.alternate;
    hide Inv, Update;
    if !(s.rep == 0 && s.uie) {
      QuietEdge(s, overflow);
    } else if Expiring(s) {
      FireExpires(s, overflow);
    } else if s.alternate && overflow {
      FireAlternates(s);
    } else if s.dither && s.half {
      FireDithers(s, overflow);
    } else {
      FireHolds(s, overflow);
    }
  }

  lemma {:induction false} PeriodsCalm(s: Stage, n: nat)
    requires Hosts(s) && s.last == Under
    ensures CalmRun(s, Periods(n)) && NeverStalls(s, Periods(n)) && NeverWakes(s, Periods(n))
    ensures !Zeroed(s, Periods(n)) && Edges(Periods(n)) == 2 * n
    decreases n
  {
    hide Inv, Update;
    if n > 0 {
      HostEdge(s, true);
      HostEdge(Update(s, true), false);
      PeriodsCalm(Update(Update(s, true), false), n - 1);
      TwoCalm(s, Periods(n - 1));
    }
  }

  lemma TwoCalm(s: Stage, es: seq<Event>)
    requires s.last == Under && Update(s, true).last == Over
    requires var t := Update(Update(s, true), false);
      CalmRun(t, es) && NeverStalls(t, es) && NeverWakes(t, es) && !Zeroed(t, es)
    ensures var fs := [Overflow, Underflow] + es;
      && CalmRun(s, fs) && NeverStalls(s, fs) && NeverWakes(s, fs) && !Zeroed(s, fs)
      && Edges(fs) == 2 + Edges(es)
  {
    hide Update, Stalls, Wakes, Zeroes, Drops;
    var fs := [Overflow, Underflow] + es;
    assert fs[1..][0] == Underflow && fs[1..][1..] == es;
    StepIs(s, Overflow);
    StepIs(Update(s, true), Underflow);
    EdgeWhole(s, Overflow);
    EdgeWhole(Update(s, true), Underflow);
    hide Step;
  }

  lemma HoldSteps(s: Stage, ticks: Triple, periods: nat)
    ensures Run(s, [Arm, Counted(ticks, periods)]) == CountedF(ArmF(s), ticks, periods)
  {
    hide ArmF, CountedF, Run;
    RunTwo(s, Arm, Counted(ticks, periods));
  }

  lemma HoldTaken(s: Stage, ticks: Triple)
    requires Inv(s) && Enabled(s) && !s.owned && Within(ticks, s.arr)
    ensures SetAllWhy(s, ticks) == Took
  {
  }

  lemma HoldWritten(s: Stage, ticks: Triple)
    requires SetAllWhy(s, ticks) == Took
    ensures var t := SetAllF(s, ticks);
      t.last == s.last && t.rep == s.rep && t.deadtime == s.deadtime && t.half == s.half
  {
    hide SetAllWhy, UpdateIrq, FollowCompares;
    var u := s.(dither := false, alternate := false, countdown := 0, want := Scaled(ticks),
                residue := ZERO, ccr := ticks, duty := ticks);
    IrqBridge(u, s.skew != 0);
    IrqDead(u, s.skew != 0);
    FollowRest(UpdateIrq(u, s.skew != 0));
    FollowCloses(UpdateIrq(u, s.skew != 0));
  }

  lemma HoldStarted(s: Stage, ticks: Triple, periods: nat)
    requires SetAllWhy(s, ticks) == Took && periods > 0
    ensures var t := CountedF(s, ticks, periods);
      t.last == s.last && t.rep == s.rep && t.deadtime == s.deadtime && t.half == s.half
  {
    hide SetAllWhy, SetAllF;
    HoldWritten(s, ticks);
  }

  lemma HoldReached(s: Stage, ticks: Triple, periods: nat)
    requires Initial(s) && Within(ticks, s.arr) && periods > 0
    ensures var v := Run(s, [Arm, Counted(ticks, periods)]);
      && Hosts(v) && v.uie && v.last == Under && v.rep == 1 && v.countdown == periods
      && v.ccr == ticks && Left(v) == 2 * periods && v.deadtime == CUBE_DTG
  {
    ArmFirst(s);
    ArmHalf(s);
    hide Inv, ArmF, CountedF, Run, Enabled, Initial, SetAllWhy;
    HoldSteps(s, ticks, periods);
    HoldTaken(ArmF(s), ticks);
    CountedStarts(ArmF(s), ticks, periods);
    HoldStarted(ArmF(s), ticks, periods);
  }

  lemma ArmHalf(s: Stage)
    requires Initial(s)
    ensures !ArmF(s).half
  {
  }

  lemma ZeroStalls(s: Stage)
    requires Hosts(s) && s.countdown > 0 && s.last == Under && s.deadtime == CUBE_DTG
    ensures var t := Step(s, Skew(0));
      Hosts(t) && !t.uie && t.last == Under && t.countdown == s.countdown && t.ccr == s.ccr
  {
    assert Calm(s, Skew(0)) && Legal(s, Skew(0)) && Stalls(s, Skew(0)) && !Zeroes(s, Skew(0));
    hide Inv, Step, Stalls, Wakes, Zeroes;
    CalmStep(s, Skew(0));
  }

  /** From the start: a hold of some periods is over in one more; and with one skew of zero asked
      for behind it, it stands however many pass. */
  lemma HoldFrozen(s: Stage, ticks: Triple, periods: nat, n: nat)
    requires Initial(s) && Within(ticks, s.arr) && periods > 0
    ensures var v := Run(s, [Arm, Counted(ticks, periods)]);
            var w := Run(Step(v, Skew(0)), Periods(n));
      Spent(Run(v, Periods(periods + 1))) && w.countdown == periods && w.ccr == ticks
  {
    hide Run, Step, Periods, Hosts, Spent, CalmRun, NeverStalls, NeverWakes, Zeroed, Initial;
    HoldReached(s, ticks, periods);
    var v := Run(s, [Arm, Counted(ticks, periods)]);
    PeriodsCalm(v, periods + 1);
    HoldEnds(v, Periods(periods + 1));
    ZeroStalls(v);
    PeriodsCalm(Step(v, Skew(0)), n);
    StalledHold(Step(v, Skew(0)), Periods(n));
  }

  // ---- a dead time under a standing skew ----

  lemma UnderSkew(s: Stage)
    requires Initial(s)
    ensures var t := DeadTimeF(SkewF(s, 3), 20);
      && Hosts(t) && t.skew == 3 && t.skewUp && t.deadtime == FLOOR && t.uie && t.rep == 1
      && t.last == Under && !t.half && t.countdown == 0 && !t.alternate && !t.dither
  {
    SkewTakes(s);
    hide Inv, SkewF, DeadTimeF;
    DeadTimeKeeps(SkewF(s, 3), 20);
    LeastTaken(SkewF(s, 3));
  }

  lemma SkewTakes(s: Stage)
    requires Initial(s)
    ensures var t := SkewF(s, 3);
      && Hosts(t) && t.skew == 3 && t.skewUp && t.uie && t.rep == 1 && t.last == Under
      && !t.half && t.countdown == 0 && !t.alternate && !t.dither
  {
    InitialInv(s);
    SkewKeeps(s, 3);
    assert SkewWhy(s, 3) == Took && !s.driveOwns;
    hide SkewWhy, Inv, SkewIrq, SkewMode;
    var u := s.(skew := 3, skewUp := true);
    UnownedSkew(u);
    IrqPipe(u, u);
    IrqSkewDead(u);
    IrqUp(u);
  }

  lemma IrqUp(s: Stage)
    ensures SkewIrq(s).skewUp == s.skewUp
  {
    if SkewWantsIrq(s) {}
    if s.skew == 0 {}
  }

  lemma LeastTaken(s: Stage)
    requires s.skew == 3
    ensures var t := DeadTimeF(s, 20);
      && t.deadtime == FLOOR && SamePipe(s, t) && t.uie == s.uie && t.skew == 3 && t.skewUp == s.skewUp
  {
  }

  /** The dead time an update's interrupt writes under a skew. */
  lemma SkewedWrite(s: Stage, overflow: bool)
    requires s.rep == 0 && s.uie && s.skew != 0 && !s.driveOwns && !Expiring(s)
    requires !s.alternate && !s.dither
    ensures Update(s, overflow).dtg
            == if !s.half == s.skewUp then s.deadtime + s.skew else s.deadtime - s.skew
    ensures Update(s, overflow).skewUp == s.skewUp
  {
    hide Update, SkewWrite, Compares, HoldOut;
    FireCounts(s, overflow);
    EnteredIs(s, overflow);
    EnteredDead(s, overflow);
    hide Entered;
    var c := Entered(s, overflow).(countdown := CountAfter(s));
    HoldsIs(c);
    WriteIs(c);
  }

  lemma EnteredDead(s: Stage, overflow: bool)
    ensures SameDead(s, Entered(s, overflow)) && Entered(s, overflow).skewUp == s.skewUp
  {
  }

  lemma WriteIs(s: Stage)
    requires s.skew != 0
    ensures SkewWrite(s) == s.(dtg := HalfDtg(s))
  {
  }

  /** From the start: a skew of three counts, then a dead time of twenty nanoseconds, both taken;
      three edges on, DTG holds two counts, under the floor. */
  lemma UnderSkewReached(s: Stage)
    requires Initial(s)
    ensures var t := Run(s, [Skew(3), DeadTime(20), Overflow, Underflow, Overflow]);
      t.dtg == FLOOR - 3 && !Window(t)
  {
    hide Inv, SkewF, DeadTimeF, Update, Run, Initial;
    UnderSkewSteps(s);
    UnderSkew(s);
    var t := DeadTimeF(SkewF(s, 3), 20);
    assert Legal(t, Overflow);
    StepIs(t, Overflow);
    QuietHost(t, Overflow);
    QuietEdge(t, true);
    UpdateDead(t, true);
    SpentUp(t);
    var u := Update(t, true);
    SkewedWrite(u, false);
    UpdateDead(u, false);
    FireHolds(u, false);
    ZeroCounter(u);
    var v := Update(u, false);
    SkewedWrite(v, true);
  }

  lemma SpentUp(s: Stage)
    requires s.rep == 1
    ensures Update(s, true).skewUp == s.skewUp
  {
    hide Update;
    UpdateSpent(s, true);
  }

  lemma ZeroCounter(s: Stage)
    requires Hosts(s)
    ensures s.rcr == 0
  {
  }

  lemma UnderSkewSteps(s: Stage)
    ensures Run(s, [Skew(3), DeadTime(20), Overflow, Underflow, Overflow])
            == Update(Update(Update(DeadTimeF(SkewF(s, 3), 20), true), false), true)
  {
    hide SkewF, DeadTimeF, Update, Run;
    RunFive(s, Skew(3), DeadTime(20), Overflow, Underflow, Overflow);
  }
}
