/** The drive glue's flag and the stage's own: exactly when they part, and what the drive's triples
    come to from there. */
module GateWedge {
  import opened GateStage
  import opened GateOwner
  import opened GateTrace
  import opened GateReturn
  import opened GateHold
  import opened GateTrains

  /** Every trigger of a run hands a triple in, the stage armed: the glue's flag stays up. */
  predicate KeepsDriving(s: Stage, es: seq<Event>)
    decreases |es|
  {
    es != [] ==> && Legal(s, es[0]) && (es[0].Trigger? ==> HandsIn(s, es[0]))
                 && KeepsDriving(Step(s, es[0]), es[1..])
  }

  predicate NoDisarm(es: seq<Event>)
    decreases |es|
  {
    es == [] || (!es[0].Disarm? && NoDisarm(es[1..]))
  }

  // ---- holding ----

  lemma HoldingStep(s: Stage, e: Event)
    requires Held(s) && Legal(s, e) && (e.Trigger? ==> HandsIn(s, e)) && !e.Disarm?
    ensures Held(Step(s, e))
  {
    hide Inv, Update, TriggerF, Enabled, Clip;
    if e.Trigger? {
      HandedHeld(s, e.ask.period, e.ask.ticks);
    } else if e.Overflow? {
      OverflowHeld(s);
    } else if e.Underflow? {
      UnderflowHeld(s);
    } else {
      HostStep(s, e);
    }
  }

  /** The flag up and the compares lost. */
  predicate Wedged(s: Stage) { Inv(s) && s.owned && !s.driveOwns }

  lemma DisarmWedges(s: Stage)
    requires Inv(s) && s.owned
    ensures Wedged(DisarmF(s))
  {
    DisarmKeeps(s);
    hide Inv;
  }

  // ---- wedged, and a triple more or less ----

  /** Equality of triples, by name. */
  predicate Eq(t: Triple, u: Triple) { t == u }

  lemma EqSelf(t: Triple)
    ensures Eq(t, t)
  {
  }

  /** Two stages the same in all but the drive's next triple. */
  predicate Same(s: Stage, t: Stage) {
    && Eq(t.ccr, s.ccr) && t.rcr == s.rcr && t.uie == s.uie && t.uif == s.uif && t.down == s.down
    && t.moe == s.moe && t.bif == s.bif && t.bke == s.bke && t.outputs == s.outputs
    && t.dtg == s.dtg && t.arr == s.arr && Eq(t.active, s.active) && t.rep == s.rep
    && t.last == s.last && Eq(t.duty, s.duty) && Eq(t.want, s.want) && Eq(t.residue, s.residue)
    && t.dither == s.dither && Eq(t.altA, s.altA) && Eq(t.altB, s.altB)
    && t.alternate == s.alternate && t.altNext == s.altNext
    && t.skew == s.skew && t.skewUp == s.skewUp && t.deadtime == s.deadtime
    && t.half == s.half && t.countdown == s.countdown && t.armed == s.armed
    && t.nextPending == s.nextPending && t.driveOwns == s.driveOwns && t.open == s.open
    && t.landed == s.landed && t.direct == s.direct && t.toDirect == s.toDirect && t.owned == s.owned
  }

  lemma FollowSame(s: Stage, t: Stage)
    requires Same(s, t)
    ensures Same(FollowCompares(s), FollowCompares(t))
  {
    hide Eq;
    if s.open {}
  }

  lemma IrqSame(s: Stage, t: Stage, on: bool)
    requires Same(s, t)
    ensures Same(UpdateIrq(s, on), UpdateIrq(t, on))
  {
    hide Eq;
    if on {}
  }

  lemma WhySame(s: Stage, t: Stage, a: Triple, b: Triple)
    requires Same(s, t)
    ensures SetAllWhy(t, a) == SetAllWhy(s, a) && FineWhy(t, a) == FineWhy(s, a)
    ensures AlternateWhy(t, a, b) == AlternateWhy(s, a, b)
    ensures ArmWhy(t) == ArmWhy(s) && Enabled(t) == Enabled(s)
  {
  }

  lemma SetAllSame(s: Stage, t: Stage, a: Triple)
    requires Same(s, t)
    ensures Same(SetAllF(s, a), SetAllF(t, a))
  {
    hide Eq, SetAllWhy, UpdateIrq, FollowCompares;
    EqSelf(ZERO);
    EqSelf(a);
    EqSelf(Scaled(a));
    WhySame(s, t, a, a);
    if SetAllWhy(s, a) == Took {
      var u := s.(dither := false, alternate := false, countdown := 0, want := Scaled(a),
                  residue := ZERO, ccr := a, duty := a);
      var v := t.(dither := false, alternate := false, countdown := 0, want := Scaled(a),
                  residue := ZERO, ccr := a, duty := a);
      IrqSame(u, v, s.skew != 0);
      FollowSame(UpdateIrq(u, s.skew != 0), UpdateIrq(v, s.skew != 0));
    }
  }

  lemma CountedSame(s: Stage, t: Stage, a: Triple, k: nat)
    requires Same(s, t)
    ensures Same(CountedF(s, a, k), CountedF(t, a, k))
  {
    hide Eq, SetAllWhy, SetAllF;
    WhySame(s, t, a, a);
    SetAllSame(s, t, a);
    if SetAllWhy(s, a) == Took && k != 0 {}
  }

  lemma FineSame(s: Stage, t: Stage, a: Triple)
    requires Same(s, t)
    ensures Same(FineF(s, a), FineF(t, a))
  {
    hide Eq, FineWhy, FollowCompares;
    EqSelf(ZERO);
    EqSelf(a);
    WhySame(s, t, a, a);
    if FineWhy(s, a) == Took {
      FollowSame(s.(want := a, residue := ZERO, dither := true, alternate := false, countdown := 0,
                    uif := false, uie := true),
                 t.(want := a, residue := ZERO, dither := true, alternate := false, countdown := 0,
                    uif := false, uie := true));
    }
  }

  lemma AlternateSame(s: Stage, t: Stage, a: Triple, b: Triple, k: nat)
    requires Same(s, t)
    ensures Same(AlternateF(s, a, b, k), AlternateF(t, a, b, k))
  {
    hide Eq, AlternateWhy, FollowCompares;
    EqSelf(ZERO);
    EqSelf(a);
    EqSelf(b);
    EqSelf(Scaled(a));
    WhySame(s, t, a, b);
    if AlternateWhy(s, a, b) == Took {
      FollowSame(s.(dither := false, countdown := k, altA := a, altB := b, want := Scaled(a),
                    residue := ZERO, duty := a, ccr := a, altNext := true, alternate := true,
                    uif := false, uie := true),
                 t.(dither := false, countdown := k, altA := a, altB := b, want := Scaled(a),
                    residue := ZERO, duty := a, ccr := a, altNext := true, alternate := true,
                    uif := false, uie := true));
    }
  }

  lemma ArmSame(s: Stage, t: Stage)
    requires Same(s, t)
    ensures Same(ArmF(s), ArmF(t))
  {
    hide Eq, ArmWhy, FollowCompares;
    EqSelf(ZERO);
    WhySame(s, t, ZERO, ZERO);
    FollowSame(s.(ccr := ZERO, duty := ZERO), t.(ccr := ZERO, duty := ZERO));
    if ArmWhy(s) != Took {}
  }

  lemma DisarmSame(s: Stage, t: Stage)
    requires Same(s, t)
    ensures Same(DisarmF(s), DisarmF(t))
  {
    hide Eq;
    EqSelf(ZERO);
  }

  lemma BypassSame(s: Stage, t: Stage, on: bool)
    requires Same(s, t)
    ensures Same(BypassF(s, on), BypassF(t, on))
  {
    hide Eq;
    if on {}
  }

  lemma BreakSame(s: Stage, t: Stage)
    requires Same(s, t)
    ensures Same(BreakF(s), BreakF(t))
  {
    hide Eq;
    if s.bke {}
  }

  lemma DeadTimeSame(s: Stage, t: Stage, ns: nat)
    requires Same(s, t)
    ensures Same(DeadTimeF(s, ns), DeadTimeF(t, ns))
  {
    hide Eq, DeadTimeCounts;
    if DeadTimeWhy(s, ns) != Took {}
  }

  lemma LeaveSame(s: Stage, t: Stage)
    requires Same(s, t)
    ensures Same(LeaveDirect(s), LeaveDirect(t))
  {
    hide Eq;
  }

  lemma GoingSame(s: Stage, t: Stage)
    requires Same(s, t)
    ensures Same(s.(toDirect := true), t.(toDirect := true))
  {
    hide Eq;
  }

  lemma SkewModeSame(s: Stage, t: Stage)
    requires Same(s, t)
    ensures Same(SkewMode(s), SkewMode(t))
  {
    assert t.driveOwns == s.driveOwns && t.skew == s.skew && t.direct == s.direct;
    hide Same, LeaveDirect;
    LeaveSame(s, t);
    GoingSame(s, t);
    if s.driveOwns {}
    if s.skew != 0 {}
    if s.direct {}
  }

  lemma SkewIrqSame(s: Stage, t: Stage)
    requires Same(s, t)
    ensures Same(SkewIrq(s), SkewIrq(t))
  {
    hide Eq, UpdateIrq;
    assert SkewWantsIrq(s) == SkewWantsIrq(t);
    hide SkewWantsIrq;
    if s.skew == 0 {
      IrqSame(s.(dtg := s.deadtime), t.(dtg := t.deadtime), SkewWantsIrq(s));
    } else {
      IrqSame(s, t, SkewWantsIrq(s));
    }
  }

  lemma SkewSame(s: Stage, t: Stage, counts: int)
    requires Same(s, t)
    ensures Same(SkewF(s, counts), SkewF(t, counts))
  {
    assert SkewWhy(s, counts) == SkewWhy(t, counts);
    hide SkewWhy, SkewMode, SkewIrq, Size;
    if SkewWhy(s, counts) == Took {
      var u := s.(skew := Size(counts), skewUp := counts >= 0);
      var v := t.(skew := Size(counts), skewUp := counts >= 0);
      SkewModeSame(u, v);
      SkewIrqSame(SkewMode(u), SkewMode(v));
    }
  }

  lemma CountedDownSame(s: Stage, t: Stage)
    requires Same(s, t)
    ensures Same(HoldCounted(s), HoldCounted(t)) && HoldOut(s) == HoldOut(t)
  {
    hide Eq;
    if s.countdown == 0 {}
    if s.half {}
  }

  lemma ExpiredSame(s: Stage, t: Stage)
    requires Same(s, t)
    ensures Same(HoldExpired(s), HoldExpired(t))
  {
    hide Eq;
    EqSelf(ZERO);
    if s.skew == 0 {}
  }

  lemma HoldSame(s: Stage, t: Stage)
    requires Same(s, t)
    ensures Same(HoldPart(s), HoldPart(t))
  {
    hide Same, HoldCounted, HoldExpired, HoldOut;
    CountedDownSame(s, t);
    ExpiredSame(HoldCounted(s), HoldCounted(t));
    if HoldOut(s) {}
  }

  lemma AlternateWriteSame(s: Stage, t: Stage)
    requires Same(s, t)
    ensures Same(AlternateWrite(s), AlternateWrite(t))
  {
    hide Eq;
    if s.altNext {}
  }

  lemma DitherSame(s: Stage, t: Stage)
    requires Same(s, t)
    ensures Same(DitherStep(s), DitherStep(t))
  {
    hide DitherDuty, DitherResidues;
    if s.dither {}
  }

  lemma SkewWriteSame(s: Stage, t: Stage)
    requires Same(s, t)
    ensures Same(SkewWrite(s), SkewWrite(t))
  {
    hide Eq;
    if s.skew == 0 {}
    if s.half == s.skewUp {}
  }

  lemma ComparesSame(s: Stage, t: Stage)
    requires Same(s, t) && !s.driveOwns
    ensures Same(Compares(s), Compares(t))
  {
    assert t.alternate == s.alternate && t.down == s.down && t.half == s.half && !t.driveOwns;
    hide Same, AlternateWrite, DitherStep;
    AlternateWriteSame(s, t);
    DitherSame(s, t);
    if s.alternate && s.down {}
    if s.half {}
  }

  lemma InterruptSame(s: Stage, t: Stage)
    requires Same(s, t) && !s.driveOwns && s.uif
    ensures Same(Interrupt(s), Interrupt(t))
  {
    hide Eq, HoldPart, Compares, SkewWrite;
    var g, h := s.(uif := false, half := !s.half), t.(uif := false, half := !t.half);
    assert Same(g, h) && t.uif;
    hide Same;
    HoldSame(g, h);
    HoldBridge(g);
    ComparesSame(HoldPart(g), HoldPart(h));
    SkewWriteSame(Compares(HoldPart(g)), Compares(HoldPart(h)));
  }

  lemma TurnedSame(s: Stage, t: Stage, overflow: bool)
    requires Same(s, t)
    ensures Same(Turned(s, overflow), Turned(t, overflow))
  {
    hide Eq;
    if overflow {}
  }

  lemma LoadedSame(s: Stage, t: Stage)
    requires Same(s, t)
    ensures Same(Loaded(s), Loaded(t))
  {
    hide Eq;
  }

  lemma SpentSame(s: Stage, t: Stage)
    requires Same(s, t) && s.rep != 0
    ensures Same(s.(rep := s.rep - 1), t.(rep := t.rep - 1))
  {
    hide Eq;
  }

  lemma TurnedRep(s: Stage, overflow: bool)
    ensures Turned(s, overflow).rep == s.rep
  {
  }

  lemma SpentUpdate(s: Stage, t: Stage, overflow: bool)
    requires Same(s, t) && s.rep != 0
    ensures Same(Update(s, overflow), Update(t, overflow))
  {
    assert t.rep == s.rep;
    hide Same, Update, Turned;
    UpdateSpent(s, overflow);
    UpdateSpent(t, overflow);
    TurnedSame(s, t, overflow);
    TurnedRep(s, overflow);
    TurnedRep(t, overflow);
    SpentSame(Turned(s, overflow), Turned(t, overflow));
  }

  lemma FiredUpdate(s: Stage, t: Stage, overflow: bool)
    requires Same(s, t) && !s.driveOwns && s.rep == 0 && s.uie
    ensures Same(Update(s, overflow), Update(t, overflow))
  {
    assert t.rep == s.rep && t.uie;
    TurnedSame(s, t, overflow);
    LoadedSame(Turned(s, overflow), Turned(t, overflow));
    assert Loaded(Turned(s, overflow)).uif && !Loaded(Turned(s, overflow)).driveOwns;
    hide Same, Update, Interrupt, Turned, Loaded;
    UpdateInterrupts(s, overflow);
    UpdateInterrupts(t, overflow);
    InterruptSame(Loaded(Turned(s, overflow)), Loaded(Turned(t, overflow)));
  }

  lemma SilentUpdate(s: Stage, t: Stage, overflow: bool)
    requires Same(s, t) && s.rep == 0 && !s.uie
    ensures Same(Update(s, overflow), Update(t, overflow))
  {
    assert t.rep == s.rep && !t.uie;
    hide Same, Update, Turned, Loaded;
    UpdateSilent(s, overflow);
    UpdateSilent(t, overflow);
    TurnedSame(s, t, overflow);
    LoadedSame(Turned(s, overflow), Turned(t, overflow));
  }

  lemma UpdateSame(s: Stage, t: Stage, overflow: bool)
    requires Same(s, t) && !s.driveOwns
    ensures Same(Update(s, overflow), Update(t, overflow))
  {
    hide Same, Update;
    if s.rep != 0 {
      SpentUpdate(s, t, overflow);
    } else if s.uie {
      FiredUpdate(s, t, overflow);
    } else {
      SilentUpdate(s, t, overflow);
    }
  }

  // ---- the flag, wedged ----

  lemma DutyOwned(s: Stage, e: Event)
    requires e.SetAll? || e.Fine? || e.Counted? || e.Alternate?
    ensures Step(s, e).owned == s.owned
  {
    hide SetAllWhy, FineWhy, AlternateWhy, FollowCompares, UpdateIrq;
    match e
    case SetAll(t) => SetAllOwned(s, t);
    case Fine(f) => FineOwned(s, f);
    case Counted(t, k) => CountedOwned(s, t, k);
    case Alternate(a, b, k) => AlternateOwned(s, a, b, k);
  }

  lemma SetAllOwned(s: Stage, t: Triple)
    ensures SetAllF(s, t).owned == s.owned
  {
    hide SetAllWhy;
    if SetAllWhy(s, t) == Took { SetAllGives(s, t); }
  }

  lemma CountedOwned(s: Stage, t: Triple, k: nat)
    ensures CountedF(s, t, k).owned == s.owned
  {
    hide SetAllWhy, SetAllF;
    SetAllOwned(s, t);
    if SetAllWhy(s, t) == Took && k != 0 {}
  }

  lemma FineOwned(s: Stage, t: Triple)
    ensures FineF(s, t).owned == s.owned
  {
    hide FineWhy;
    if FineWhy(s, t) == Took {}
    if s.open {}
  }

  lemma AlternateOwned(s: Stage, a: Triple, b: Triple, k: nat)
    ensures AlternateF(s, a, b, k).owned == s.owned
  {
    hide AlternateWhy;
    if AlternateWhy(s, a, b) == Took {}
    if s.open {}
  }

  lemma ArmOwned(s: Stage)
    ensures ArmF(s).owned == s.owned && ArmF(s).driveOwns == s.driveOwns
  {
    hide ArmWhy;
    if ArmWhy(s) != Took {}
    if s.open {}
  }

  lemma EdgeOwned(s: Stage, overflow: bool)
    requires Inv(s) && !s.driveOwns && overflow == (s.last == Under)
    ensures Update(s, overflow).owned == s.owned
  {
    assert s.dither ==> !s.alternate;
    hide Inv, Update;
    if !(s.rep == 0 && s.uie) {
      QuietEdge(s, overflow);
    } else if Expiring(s) {
      FireExpires(s, overflow);
    } else if s.alternate && overflow {
      FireAlternates(s);
    } else if s.dither && s.half {
      FireDithers(s, overflow);
    } else {
      FireHolds(s, overflow);
    }
  }

  lemma WedgedDirect(s: Stage)
    requires Wedged(s)
    ensures !s.direct
  {
  }

  /** Wedged, a triple handed in is written where nothing reads it. */
  lemma WedgedTrigger(s: Stage, period: nat, ticks: Triple)
    requires Wedged(s) && Enabled(s)
    ensures var t := TriggerF(s, Drive(period, ticks));
            var u := WithPeriod(s.(last := Trig), period);
      t == (if s.landed then FollowCompares(u) else u).(next := Clip(ticks, u.arr), nextPending := true)
  {
    WedgedDirect(s);
    hide Inv, Clip, SetNextF, WithPeriod, TriggerF, Enabled;
    TriggerOwned(s, period, ticks);
    PeriodFields(s.(last := Trig), period);
    WedgedNext(WithPeriod(s.(last := Trig), period), ticks);
    DirectPeriod(s.(last := Trig), period);
  }

  lemma DirectPeriod(s: Stage, period: nat)
    ensures WithPeriod(s, period).direct == s.direct && WithPeriod(s, period).ccr == s.ccr
            && WithPeriod(s, period).active == s.active
  {
    if period >= 64 {}
  }

  lemma WedgedNext(s: Stage, ticks: Triple)
    requires !s.direct
    ensures SetNextF(s, ticks)
            == (if s.landed then FollowCompares(s) else s).(next := Clip(ticks, s.arr), nextPending := true)
  {
    hide Clip;
    if s.landed {}
    if s.open {}
  }

  lemma WedgedHand(s: Stage, period: nat, ticks: Triple)
    requires Wedged(s) && Enabled(s)
    ensures var t := TriggerF(s, Drive(period, ticks)); t.owned && !t.driveOwns
  {
    hide Inv, TriggerF, Clip, Enabled;
    WedgedTrigger(s, period, ticks);
    PeriodFields(s.(last := Trig), period);
    FollowCloses(WithPeriod(s.(last := Trig), period));
  }

  lemma WedgedEdge(s: Stage, overflow: bool)
    requires Wedged(s) && overflow == (s.last == Under)
    ensures Update(s, overflow).owned && !Update(s, overflow).driveOwns
  {
    hide Inv, Update;
    EdgeOwned(s, overflow);
    HostUpdate(s, overflow);
  }

  lemma WedgedArm(s: Stage)
    requires Wedged(s)
    ensures ArmF(s).owned && !ArmF(s).driveOwns && DisarmF(s).owned && !DisarmF(s).driveOwns
  {
    hide Inv, ArmF;
    ArmOwned(s);
  }

  lemma WedgedRest(s: Stage, e: Event)
    requires Wedged(s) && !IsEdge(e) && !e.Trigger? && !e.Arm? && !e.Disarm?
    ensures Step(s, e).owned && !Step(s, e).driveOwns
  {
    hide Inv, Step, SameTrain, SameBridge;
    if e.SetAll? || e.Fine? || e.Counted? || e.Alternate? {
      DutyOwned(s, e);
      DutyCloses(s, e);
    } else {
      FlagsPipe(s, e);
    }
  }

  lemma WedgedStep(s: Stage, e: Event)
    requires Wedged(s) && Legal(s, e) && (e.Trigger? ==> HandsIn(s, e))
    ensures Wedged(Step(s, e))
  {
    StepKeeps(s, e);
    if IsEdge(e) { LegalTurn(s, e); }
    hide Inv, Step, Update, TriggerF, ArmF, DisarmF, Enabled, Legal;
    if e.Trigger? {
      StepIs(s, e);
      WedgedHand(s, e.ask.period, e.ask.ticks);
    } else if IsEdge(e) {
      StepIs(s, e);
      WedgedEdge(s, e.Overflow?);
    } else if e.Arm? || e.Disarm? {
      StepArms(s, e);
      WedgedArm(s);
    } else {
      WedgedRest(s, e);
    }
  }

  lemma LegalTurn(s: Stage, e: Event)
    requires Legal(s, e) && IsEdge(e)
    ensures e.Overflow? == (s.last == Under)
  {
  }

  lemma StepArms(s: Stage, e: Event)
    ensures e.Arm? ==> Step(s, e) == ArmF(s)
    ensures e.Disarm? ==> Step(s, e) == DisarmF(s)
  {
    hide ArmF, DisarmF;
  }

  // ---- exactly when they part ----

  lemma {:induction false} WedgedRun(s: Stage, es: seq<Event>)
    requires Wedged(s) && KeepsDriving(s, es)
    ensures Wedged(Run(s, es))
    decreases |es|
  {
    hide Wedged, Step, Legal, HandsIn;
    if es != [] {
      WedgedStep(s, es[0]);
      WedgedRun(Step(s, es[0]), es[1..]);
    }
  }

  /** From the drive holding the compares, over any run in which it goes on handing triples in: the
      glue goes on thinking it holds them, and it does exactly while no disarm has come. */
  lemma {:induction false} HoldsWhile(s: Stage, es: seq<Event>)
    requires Held(s) && KeepsDriving(s, es)
    ensures Inv(Run(s, es)) && Run(s, es).owned
    ensures Run(s, es).driveOwns <==> NoDisarm(es)
    decreases |es|
  {
    HeldFlag(s);
    hide Inv, Step, Legal, HandsIn;
    if es != [] {
      if es[0].Disarm? {
        StepDisarms(s, es[0]);
        WedgedRun(Step(s, es[0]), es[1..]);
      } else {
        HoldingStep(s, es[0]);
        HoldsWhile(Step(s, es[0]), es[1..]);
      }
    }
  }

  lemma HeldFlag(s: Stage)
    requires Held(s)
    ensures s.owned
  {
  }

  lemma StepDisarms(s: Stage, e: Event)
    requires Held(s) && e.Disarm?
    ensures Wedged(Step(s, e))
  {
    HeldFlag(s);
    hide Inv;
    DisarmWedges(s);
  }

  /** And so at the next trigger, the stage armed: the drive holds the compares behind it exactly
      if no disarm has come since it took them. */
  lemma TakesBack(s: Stage, es: seq<Event>, period: nat, ticks: Triple)
    requires Held(s) && KeepsDriving(s, es) && Enabled(Run(s, es))
    ensures TriggerF(Run(s, es), Drive(period, ticks)).driveOwns <==> NoDisarm(es)
  {
    hide Inv, Run, KeepsDriving, TriggerF, Enabled, NoDisarm;
    HoldsWhile(s, es);
    TakesHold(Run(s, es), period, ticks);
  }

  // ---- and then nothing handed in is ever heard ----

  /** The same call, or a trigger at the same period with another triple. */
  predicate Alike(e: Event, f: Event) {
    e == f || (&& e.Trigger? && e.ask.Drive? && f.Trigger? && f.ask.Drive?
               && f.ask.period == e.ask.period)
  }

  predicate AllAlike(es: seq<Event>, fs: seq<Event>)
    decreases |es|
  {
    if es == [] then fs == [] else fs != [] && Alike(es[0], fs[0]) && AllAlike(es[1..], fs[1..])
  }

  lemma TrigSame(s: Stage, t: Stage)
    requires Same(s, t)
    ensures Same(s.(last := Trig), t.(last := Trig))
  {
    hide Eq;
  }

  lemma ArrSame(s: Stage, t: Stage, period: nat)
    requires Same(s, t)
    ensures Same(s.(arr := period), t.(arr := period))
  {
    hide Eq;
  }

  lemma PeriodSame(s: Stage, t: Stage, period: nat)
    requires Same(s, t)
    ensures Same(WithPeriod(s.(last := Trig), period), WithPeriod(t.(last := Trig), period))
    ensures WithPeriod(s.(last := Trig), period).landed == s.landed
  {
    hide Same, WithPeriod;
    TrigSame(s, t);
    ArrSame(s.(last := Trig), t.(last := Trig), period);
    PeriodFields(s.(last := Trig), period);
    PeriodFields(t.(last := Trig), period);
  }

  lemma PendSame(s: Stage, t: Stage, one: Triple, two: Triple)
    requires Same(s, t)
    ensures Same(s.(next := one, nextPending := true), t.(next := two, nextPending := true))
  {
    hide Eq;
  }

  lemma TriggerSame(s: Stage, t: Stage, period: nat, one: Triple, two: Triple)
    requires Same(s, t) && Wedged(s) && Wedged(t) && Enabled(s)
    ensures Same(TriggerF(s, Drive(period, one)), TriggerF(t, Drive(period, two)))
  {
    assert t.landed == s.landed;
    hide Inv, Same, Clip, TriggerF, WithPeriod, FollowCompares, Enabled;
    WhySame(s, t, ZERO, ZERO);
    WedgedTrigger(s, period, one);
    WedgedTrigger(t, period, two);
    PeriodSame(s, t, period);
    var u, v := WithPeriod(s.(last := Trig), period), WithPeriod(t.(last := Trig), period);
    if s.landed {
      FollowSame(u, v);
      PendSame(FollowCompares(u), FollowCompares(v), Clip(one, u.arr), Clip(two, v.arr));
    } else {
      PendSame(u, v, Clip(one, u.arr), Clip(two, v.arr));
    }
  }

  lemma WedgedSame(s: Stage, t: Stage)
    requires Wedged(s) && Same(s, t)
    ensures Wedged(t)
  {
  }

  lemma HostSame(s: Stage, t: Stage, e: Event)
    requires Same(s, t) && !s.driveOwns && !e.Trigger?
    ensures Same(Step(s, e), Step(t, e))
  {
    hide SetAllF, FineF, CountedF, AlternateF, ArmF, DisarmF, BypassF, BreakF, DeadTimeF, SkewF,
         Update;
    match e
    case SetAll(a) => SetAllSame(s, t, a);
    case Fine(f) => FineSame(s, t, f);
    case Counted(a, k) => CountedSame(s, t, a, k);
    case Alternate(a, b, k) => AlternateSame(s, t, a, b, k);
    case Arm => ArmSame(s, t);
    case Disarm => DisarmSame(s, t);
    case Bypass(on) => BypassSame(s, t, on);
    case Clear =>
    case DeadTime(ns) => DeadTimeSame(s, t, ns);
    case Skew(c) => SkewSame(s, t, c);
    case Brk => BreakSame(s, t);
    case Overflow => UpdateSame(s, t, true);
    case Underflow => UpdateSame(s, t, false);
  }

  lemma StepTrigger(s: Stage, e: Event)
    requires e.Trigger?
    ensures Step(s, e) == TriggerF(s, e.ask)
  {
    hide TriggerF;
  }

  lemma AlikeStep(s: Stage, t: Stage, e: Event, f: Event)
    requires Wedged(s) && Same(s, t) && Legal(s, e) && (e.Trigger? ==> HandsIn(s, e)) && Alike(e, f)
    ensures Same(Step(s, e), Step(t, f))
  {
    WedgedSame(s, t);
    hide Inv, Same, Step, TriggerF, Enabled;
    if e.Trigger? {
      StepTrigger(s, e);
      StepTrigger(t, f);
      TriggerSame(s, t, e.ask.period, e.ask.ticks, f.ask.ticks);
    } else {
      HostSame(s, t, e);
    }
  }

  /** The flag up over compares the drive has lost: two runs alike in everything but the triples
      handed in leave every register, every compare and every flag the same. What the drive hands
      in reaches nothing but its own store. */
  lemma {:induction false} NeverHeard(s: Stage, t: Stage, es: seq<Event>, fs: seq<Event>)
    requires Wedged(s) && Same(s, t) && KeepsDriving(s, es) && AllAlike(es, fs)
    ensures Same(Run(s, es), Run(t, fs))
    decreases |es|
  {
    hide Wedged, Same, Step, Legal, HandsIn, Alike;
    if es != [] {
      WedgedStep(s, es[0]);
      AlikeStep(s, t, es[0], fs[0]);
      NeverHeard(Step(s, es[0]), Step(t, fs[0]), es[1..], fs[1..]);
    }
  }

  // ---- and it happens ----

  lemma WedgeReached(s: Stage, ticks: Triple)
    requires Initial(s)
    ensures var t := Run(s, [Arm, Overflow, Trigger(Drive(0, ticks)), Disarm, Arm]);
      Wedged(t) && Enabled(t) && t.last == Trig && t.rep == 0 && t.skew == 0 && t.arr == s.arr
  {
    hide Inv, ArmF, DisarmF, Update, TriggerF, Clip, Run, Initial;
    ArmFirst(s);
    TurnFirst(ArmF(s));
    var o := Update(ArmF(s), true);
    TakingPends(o, 0, ticks);
    TakeFirst(o, ticks);
    var g := TriggerF(o, Drive(0, ticks));
    WedgeSteps(s, Drive(0, ticks));
    HeldFlag(g);
    DisarmWedges(g);
    DisarmFault(g);
    Rearms(DisarmF(g));
  }

  lemma DisarmFault(s: Stage)
    ensures var t := DisarmF(s);
      t.bif == s.bif && t.last == s.last && t.rep == s.rep && t.skew == s.skew && t.arr == s.arr
  {
  }

  lemma Rearms(s: Stage)
    requires Wedged(s) && !s.bif
    ensures var t := ArmF(s);
      Wedged(t) && Enabled(t) && t.last == s.last && t.rep == s.rep && t.skew == s.skew && t.arr == s.arr
  {
    ArmKeeps(s);
    ArmOwned(s);
    ArmStands(s);
  }

  lemma ArmStands(s: Stage)
    ensures var t := ArmF(s); t.last == s.last && t.rep == s.rep && t.skew == s.skew && t.arr == s.arr
  {
    hide ArmWhy;
    if ArmWhy(s) != Took {}
    if s.open {}
  }

  lemma WedgeSteps(s: Stage, ask: Ask)
    ensures Run(s, [Arm, Overflow, Trigger(ask), Disarm, Arm])
            == ArmF(DisarmF(TriggerF(Update(ArmF(s), true), ask)))
  {
    hide ArmF, DisarmF, Update, TriggerF, Run;
    RunFive(s, Arm, Overflow, Trigger(ask), Disarm, Arm);
  }
}
