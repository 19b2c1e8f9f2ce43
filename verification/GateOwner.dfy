/** Who holds the compares: an invariant of every run of host calls, drive triggers, breaks and
    timer edges, from the stage the board starts with. */
module GateOwner {
  import opened GateStage

  /** The drive holds the compares only while the glue says so, and alone: no dither, no
      alternation, no countdown. */
  predicate Sole(s: Stage) {
    s.driveOwns ==> s.owned && !s.dither && !s.alternate && s.countdown == 0
  }

  /** Direct means the drive's, unskewed, at the overflow alone and without the interrupt;
      anything else means both updates. */
  predicate Mode(s: Stage) {
    && (s.direct ==> s.driveOwns && s.skew == 0 && s.rcr == 1 && !s.uie)
    && (!s.direct ==> s.rcr == 0)
    && (s.toDirect ==> s.driveOwns && s.skew == 0 && !s.direct)
  }

  /** A drive that is not direct has the landing interrupt, and is on its way to direct unless
      the skew holds it back. */
  predicate Landing(s: Stage) {
    && (s.driveOwns && !s.direct ==> s.uie)
    && (s.driveOwns && !s.direct && s.skew == 0 ==> s.toDirect)
  }

  /** The repetition counter: out at every underflow once the drive has owned, one from a direct
      overflow to the underflow behind it. */
  predicate Counter(s: Stage) {
    && s.rep <= 1
    && s.down == (s.last != Under)
    && (s.last == Under && s.rep == 1 ==> !s.owned)
    && (s.last != Under && s.direct ==> s.rep == 1)
    && (s.last == Over && s.rep == 1 ==> s.owned)
  }

  /** The host's own writers: at most one of dither and alternation, and either keeps a count of
      its own only together with the alternation. */
  predicate Writers(s: Stage) {
    && (s.dither ==> !s.alternate && s.countdown == 0)
    && s.outputs == !s.open
  }

  predicate Inv(s: Stage) { Sole(s) && Mode(s) && Landing(s) && Counter(s) && Writers(s) }

  lemma InitialInv(s: Stage)
    requires Initial(s)
    ensures Inv(s)
  {
  }

  lemma IrqKeeps(s: Stage, wanted: bool)
    requires Inv(s)
    requires wanted ==> !s.direct
    requires !wanted ==> s.driveOwns ==> s.direct
    ensures Inv(UpdateIrq(s, wanted))
  {
  }

  lemma FollowKeeps(s: Stage)
    requires Inv(s)
    ensures Inv(FollowCompares(s))
  {
  }

  lemma SetAllTook(s: Stage, ticks: Triple)
    requires SetAllWhy(s, ticks) == Took
    ensures !SetAllF(s, ticks).driveOwns && !SetAllF(s, ticks).dither
  {
    if s.skew != 0 {}
    if s.open {}
  }

  lemma FineKeeps(s: Stage, fine: Triple)
    requires Inv(s)
    ensures Inv(FineF(s, fine))
  {
  }

  lemma SetAllKeeps(s: Stage, ticks: Triple)
    requires Inv(s)
    ensures Inv(SetAllF(s, ticks))
  {
    hide FollowCompares, UpdateIrq;
    if SetAllWhy(s, ticks) == Took {
      var t := s.(dither := false, alternate := false, countdown := 0, want := Scaled(ticks),
                  residue := ZERO, ccr := ticks, duty := ticks);
      IrqKeeps(t, s.skew != 0);
      FollowKeeps(UpdateIrq(t, s.skew != 0));
    }
  }

  lemma CountKeeps(s: Stage, periods: nat)
    requires Inv(s) && !s.driveOwns && !s.dither
    ensures Inv(s.(countdown := periods, uie := true))
  {
  }

  lemma CountedKeeps(s: Stage, ticks: Triple, periods: nat)
    requires Inv(s)
    ensures Inv(CountedF(s, ticks, periods))
  {
    SetAllKeeps(s, ticks);
    if SetAllWhy(s, ticks) == Took && periods != 0 {
      SetAllTook(s, ticks);
      hide Inv, SetAllF;
      CountKeeps(SetAllF(s, ticks), periods);
    } else {
      hide Inv, SetAllF;
    }
  }

  lemma AlternateKeeps(s: Stage, a: Triple, b: Triple, periods: nat)
    requires Inv(s)
    ensures Inv(AlternateF(s, a, b, periods))
  {
  }

  lemma ArmKeeps(s: Stage)
    requires Inv(s)
    ensures Inv(ArmF(s))
  {
  }

  lemma DisarmKeeps(s: Stage)
    requires Inv(s)
    ensures Inv(DisarmF(s))
  {
  }

  lemma DeadTimeKeeps(s: Stage, ns: nat)
    requires Inv(s)
    ensures Inv(DeadTimeF(s, ns))
  {
  }

  lemma SkewUnowned(s: Stage)
    requires Inv(s) && !s.driveOwns
    ensures Inv(SkewIrq(s))
  {
    hide UpdateIrq;
    var t := if s.skew == 0 then s.(dtg := s.deadtime) else s;
    IrqKeeps(t, SkewWantsIrq(s));
  }

  lemma SkewSet(s: Stage, k: nat, up: bool)
    requires Inv(s) && s.driveOwns && k != 0
    ensures Inv(SkewIrq(LeaveDirect(s.(skew := k, skewUp := up))))
  {
  }

  lemma SkewClearedLanding(s: Stage, up: bool)
    requires Inv(s) && s.driveOwns && !s.direct
    ensures Inv(SkewIrq(s.(skew := 0, skewUp := up, toDirect := true)))
  {
  }

  lemma SkewClearedDirect(s: Stage, up: bool)
    requires Inv(s) && s.driveOwns && s.direct
    ensures Inv(SkewIrq(s.(skew := 0, skewUp := up)))
  {
  }

  lemma SkewKeeps(s: Stage, counts: int)
    requires Inv(s)
    ensures Inv(SkewF(s, counts))
  {
    var t := s.(skew := Size(counts), skewUp := counts >= 0);
    assert !s.driveOwns ==> Inv(t);
    assert t.skew == 0 <==> counts == 0;
    hide Inv, SkewIrq, LeaveDirect;
    if SkewWhy(s, counts) == Took {
      if !s.driveOwns {
        SkewUnowned(t);
      } else if t.skew != 0 {
        SkewSet(s, Size(counts), counts >= 0);
      } else if t.direct {
        SkewClearedDirect(s, true);
      } else {
        SkewClearedLanding(s, true);
      }
    }
  }

  /** Inv without the order of the timer's events, which a trigger's inner steps do not change. */
  lemma PeriodKeeps(s: Stage, period: nat)
    requires Inv(s)
    ensures Inv(WithPeriod(s, period))
  {
  }

  lemma LetGoKeeps(s: Stage)
    requires Inv(s) && s.last == Trig
    ensures Inv(LetGo(s).(owned := false))
  {
    if s.skew != 0 {}
    if s.dither {}
  }

  lemma DropKeeps(s: Stage, period: nat)
    requires Inv(s) && s.last == Trig
    ensures Inv(LetGo(WithPeriod(s, period)).(owned := false))
  {
    PeriodKeeps(s, period);
    hide Inv, LetGo;
    if period >= 64 {}
    LetGoKeeps(WithPeriod(s, period));
  }

  lemma TripKeeps(s: Stage)
    requires Inv(s) && s.last == Trig
    ensures Inv(DisarmF(s).(owned := false))
  {
  }

  lemma OwnKeeps(s: Stage)
    requires Inv(s) && s.last == Trig
    ensures Inv(OwnPwm(s))
  {
  }

  lemma NextKeeps(s: Stage, ticks: Triple)
    requires Inv(s)
    ensures Inv(SetNextF(s, ticks))
  {
  }

  lemma TriggerKeeps(s: Stage, ask: Ask)
    requires Inv(s) && s.last == Over
    ensures Inv(TriggerF(s, ask))
  {
    var t := s.(last := Trig);
    assert Inv(t);
    hide Inv, DisarmF, LetGo, OwnPwm, SetNextF;
    if ask.Trip? {
      TripKeeps(t);
    } else if ask.Drive? && Enabled(t) {
      PeriodKeeps(t, ask.period);
      assert WithPeriod(t, ask.period).last == Trig;
      OwnKeeps(WithPeriod(t, ask.period));
      NextKeeps(OwnPwm(WithPeriod(t, ask.period)), ask.ticks);
    } else if t.owned {
      DropKeeps(t, ask.period);
    }
  }

  lemma HoldPartKeeps(s: Stage)
    requires Inv(s)
    ensures Inv(HoldPart(s))
  {
    var c := HoldCounted(s);
    assert Inv(c) by {
      if s.countdown == 0 || s.half {}
    }
    if HoldOut(s) {
      var u := c.(alternate := false, dither := false, ccr := ZERO, duty := ZERO, want := ZERO,
                  residue := ZERO);
      assert Inv(u);
      hide Inv, HoldCounted;
      if c.skew == 0 {
        IrqKeeps(u, false);
      }
    }
  }

  lemma ComparesKeeps(s: Stage)
    requires Inv(s)
    ensures Inv(Compares(s))
  {
    if s.alternate && s.down {
      if s.altNext {}
    } else if s.driveOwns {
      var t := LandNext(s);
      assert Inv(t) by {
        if s.nextPending {}
      }
      if t.toDirect {}
    } else if !s.half {
      if s.dither {}
    }
  }

  lemma SkewWriteKeeps(s: Stage)
    requires Inv(s)
    ensures Inv(SkewWrite(s))
  {
  }

  lemma InterruptKeeps(s: Stage)
    requires Inv(s)
    ensures Inv(Interrupt(s))
  {
    hide HoldPart, Compares, SkewWrite;
    var t := s.(uif := false, half := !s.half);
    HoldPartKeeps(t);
    ComparesKeeps(HoldPart(t));
    SkewWriteKeeps(Compares(HoldPart(t)));
  }

  lemma UpdateKeeps(s: Stage, overflow: bool)
    requires Inv(s) && overflow == (s.last == Under)
    ensures Inv(Update(s, overflow))
  {
    hide Interrupt;
    if s.rep == 0 && s.uie {
      InterruptKeeps(Loaded(Turned(s, overflow)));
    }
  }

  lemma FlagsKeep(s: Stage, bif: bool, bke: bool, moe: bool)
    requires Inv(s)
    ensures Inv(s.(bif := bif, bke := bke, moe := moe))
  {
  }

  /** Every legal step keeps the ownership invariant. */
  lemma StepKeeps(s: Stage, e: Event)
    requires Inv(s) && Legal(s, e)
    ensures Inv(Step(s, e))
  {
    hide Inv, FineF, SetAllF, CountedF, AlternateF, ArmF, DisarmF, DeadTimeF, SkewF, TriggerF, Update;
    match e
    case SetAll(t) => SetAllKeeps(s, t);
    case Fine(f) => FineKeeps(s, f);
    case Counted(t, n) => CountedKeeps(s, t, n);
    case Alternate(a, b, n) => AlternateKeeps(s, a, b, n);
    case Arm => ArmKeeps(s);
    case Disarm => DisarmKeeps(s);
    case DeadTime(ns) => DeadTimeKeeps(s, ns);
    case Skew(c) => SkewKeeps(s, c);
    case Trigger(ask) => TriggerKeeps(s, ask);
    case Overflow => UpdateKeeps(s, true);
    case Underflow => UpdateKeeps(s, false);
    case Bypass(on) => FlagsKeep(s, !on && s.bif, !on, s.moe);
    case Clear => FlagsKeep(s, false, s.bke, s.moe);
    case Brk => FlagsKeep(s, true, s.bke, false);
  }

}
