/** The duties the board reports: over every run those in its compares. */
module GateDuty {
  import opened GateStage
  import opened GateTrace

  predicate Told(s: Stage) { s.duty == s.ccr }

  /** A part of a step that writes both or neither. */
  predicate TellsOf(s: Stage, t: Stage) { Told(s) ==> Told(t) }

  lemma FollowTells(s: Stage)
    ensures TellsOf(s, FollowCompares(s))
  {
    if s.open {}
  }

  lemma IrqTells(s: Stage, on: bool)
    ensures TellsOf(s, UpdateIrq(s, on))
  {
    if on {}
  }

  lemma SetAllTells(s: Stage, ticks: Triple)
    ensures TellsOf(s, SetAllF(s, ticks))
  {
    hide FollowCompares, SetAllWhy, UpdateIrq;
    var t := s.(dither := false, alternate := false, countdown := 0, want := Scaled(ticks),
                residue := ZERO, ccr := ticks, duty := ticks);
    IrqTells(t, s.skew != 0);
    FollowTells(UpdateIrq(t, s.skew != 0));
  }

  lemma CountedTells(s: Stage, ticks: Triple, periods: nat)
    ensures TellsOf(s, CountedF(s, ticks, periods))
  {
    hide SetAllF, SetAllWhy;
    SetAllTells(s, ticks);
  }

  lemma FineTells(s: Stage, fine: Triple)
    ensures TellsOf(s, FineF(s, fine))
  {
    hide FineWhy;
    if FineWhy(s, fine) != Took {}
    if s.open {}
  }

  lemma AlternateTells(s: Stage, a: Triple, b: Triple, n: nat)
    ensures TellsOf(s, AlternateF(s, a, b, n))
  {
    hide AlternateWhy;
    if AlternateWhy(s, a, b) != Took {}
    if s.open {}
  }

  lemma ArmTells(s: Stage)
    ensures TellsOf(s, ArmF(s))
  {
    hide ArmWhy;
    if ArmWhy(s) != Took {}
    if s.open {}
  }

  lemma DeadTimeTells(s: Stage, ns: nat)
    ensures TellsOf(s, DeadTimeF(s, ns))
  {
    hide DeadTimeCounts;
    if DeadTimeWhy(s, ns) != Took {}
  }

  lemma ModeTells(s: Stage)
    ensures TellsOf(s, SkewMode(s))
  {
    if s.driveOwns {}
    if s.skew != 0 {}
    if s.direct {}
  }

  lemma SkewIrqTells(s: Stage)
    ensures TellsOf(s, SkewIrq(s))
  {
    hide UpdateIrq, SkewWantsIrq;
    IrqTells(if s.skew == 0 then s.(dtg := s.deadtime) else s, SkewWantsIrq(s));
  }

  lemma SkewTells(s: Stage, c: int)
    ensures TellsOf(s, SkewF(s, c))
  {
    hide SkewMode, SkewIrq, SkewWhy;
    var t := s.(skew := Size(c), skewUp := c >= 0);
    ModeTells(t);
    SkewIrqTells(SkewMode(t));
  }

  lemma FlagsTell(s: Stage, e: Event)
    requires e.Disarm? || e.Clear?
    ensures TellsOf(s, Step(s, e))
  {
  }

  lemma BypassTells(s: Stage, on: bool)
    ensures TellsOf(s, BypassF(s, on))
  {
    if on {}
  }

  lemma BreakTells(s: Stage)
    ensures TellsOf(s, BreakF(s))
  {
    if s.bke {}
  }

  // ---- the trigger ----

  lemma LetGoTells(s: Stage)
    ensures TellsOf(s, LetGo(s))
  {
    if s.skew != 0 {}
    if s.dither {}
  }

  lemma NextTells(s: Stage, ticks: Triple)
    ensures TellsOf(s, SetNextF(s, ticks))
  {
    hide Clip;
    if s.landed {}
    if s.open {}
    if s.direct {}
  }

  lemma PeriodTells(s: Stage, period: nat)
    ensures TellsOf(s, WithPeriod(s.(last := Trig), period))
  {
    if period >= 64 {}
  }

  lemma TakeTells(s: Stage, owned: bool)
    ensures TellsOf(s, TakeCompares(s).(owned := owned))
  {
  }

  lemma TripTells(s: Stage)
    ensures TellsOf(s, TriggerF(s, Trip))
  {
  }

  lemma TriggerTells(s: Stage, ask: Ask)
    requires !ask.Trip?
    ensures TellsOf(s, TriggerF(s, ask))
  {
    hide TriggerF, Enabled, LetGo, WithPeriod, SetNextF, TakeCompares;
    var t := WithPeriod(s.(last := Trig), ask.period);
    PeriodTells(s, ask.period);
    TakeTells(t, true);
    if ask.Drive? && Enabled(s) {
      if s.owned {
        TriggerOwned(s, ask.period, ask.ticks);
        NextTells(t, ask.ticks);
      } else {
        TriggerTakes(s, ask.period, ask.ticks);
        NextTells(TakeCompares(t).(owned := true), ask.ticks);
      }
    } else if s.owned {
      DropTrigger(s, ask);
      LetGoTells(t);
    } else {
      IdleTrigger(s, ask);
    }
  }

  // ---- the interrupt ----

  lemma HoldTells(s: Stage)
    ensures TellsOf(s, HoldPart(s))
  {
    hide HoldExpired;
    if s.countdown == 0 {}
    if s.half {}
    ExpiredTells(HoldCounted(s));
  }

  lemma ExpiredTells(s: Stage)
    ensures TellsOf(s, HoldExpired(s))
  {
    if s.skew == 0 {}
  }

  lemma LandTells(s: Stage)
    ensures TellsOf(s, LandNext(s))
  {
    if s.nextPending {}
  }

  lemma DirectTells(s: Stage)
    ensures TellsOf(s, EnterDirect(s))
  {
    if s.toDirect {}
  }

  lemma TurnTells(s: Stage)
    ensures TellsOf(s, AlternateWrite(s))
  {
    if s.altNext {}
  }

  lemma DitherTells(s: Stage)
    ensures TellsOf(s, DitherStep(s))
  {
    hide DitherDuty, DitherResidues;
    if s.dither {}
  }

  lemma ComparesTell(s: Stage)
    ensures TellsOf(s, Compares(s))
  {
    hide LandNext, AlternateWrite, DitherStep, EnterDirect;
    LandTells(s);
    DirectTells(LandNext(s));
    TurnTells(s);
    DitherTells(s);
  }

  lemma WriteTells(s: Stage)
    ensures TellsOf(s, SkewWrite(s))
  {
    if s.skew == 0 {}
  }

  lemma InterruptTells(s: Stage)
    ensures TellsOf(s, Interrupt(s))
  {
    var h := s.(uif := false, half := !s.half);
    hide HoldPart, Compares, SkewWrite;
    HoldTells(h);
    ComparesTell(HoldPart(h));
    WriteTells(Compares(HoldPart(h)));
  }

  lemma LoadedTells(s: Stage, overflow: bool)
    ensures TellsOf(s, Loaded(Turned(s, overflow)))
  {
  }

  lemma SpentTells(s: Stage, overflow: bool)
    requires s.rep != 0
    ensures TellsOf(s, Turned(s, overflow).(rep := s.rep - 1))
  {
  }

  lemma UpdateTells(s: Stage, overflow: bool)
    ensures TellsOf(s, Update(s, overflow))
  {
    hide Update, Interrupt, Loaded, Turned;
    LoadedTells(s, overflow);
    if s.rep != 0 {
      UpdateSpent(s, overflow);
      SpentTells(s, overflow);
    } else if s.uie {
      UpdateInterrupts(s, overflow);
      InterruptTells(Loaded(Turned(s, overflow)));
    } else {
      UpdateSilent(s, overflow);
    }
  }

  // ---- every step, every run ----

  lemma StepTells(s: Stage, e: Event)
    ensures TellsOf(s, Step(s, e))
  {
    hide TellsOf, SetAllF, FineF, CountedF, AlternateF, ArmF, TriggerF, DeadTimeF, BypassF, BreakF,
         SkewF, Update, DisarmF;
    match e
    case SetAll(t) => SetAllTells(s, t);
    case Fine(f) => FineTells(s, f);
    case Counted(t, n) => CountedTells(s, t, n);
    case Alternate(a, b, n) => AlternateTells(s, a, b, n);
    case Arm => ArmTells(s);
    case DeadTime(ns) => DeadTimeTells(s, ns);
    case Skew(c) => SkewTells(s, c);
    case Bypass(on) => BypassTells(s, on);
    case Brk => BreakTells(s);
    case Trigger(ask) => if ask.Trip? { TripTells(s); } else { TriggerTells(s, ask); }
    case Overflow => UpdateTells(s, true);
    case Underflow => UpdateTells(s, false);
    case _ => FlagsTell(s, e);
  }

  /** From the board's start, over every run of calls, triggers, breaks and edges, the duty reported
      is the one in the compares: no writer of the one forgets the other. */
  lemma {:induction false} DutyRuns(s: Stage, es: seq<Event>)
    requires Initial(s) || Told(s)
    ensures Told(Run(s, es))
    decreases |es|
  {
    hide Step;
    if es != [] {
      StepTells(s, es[0]);
      DutyRuns(Step(s, es[0]), es[1..]);
    }
  }
}
