/** The stage on and off: what arms it and what shuts it, by the calls and breaks alone, over every
    run. */
module GateBreak {
  import opened GateStage
  import opened GateTrace
  import opened GateHold

  /** The stage as the calls and breaks leave it: on, its break latched, and its break watched. */
  datatype Watch = Watch(on: bool, latched: bool, watched: bool)

  /** A break shuts a stage that watches it, and latches; only an arm turns it on, refused while the
      latch stands watched; a disarm and a trip turn it off. */
  function Watched(w: Watch, e: Event): Watch {
    match e
    case Arm => if w.latched && w.watched then w else w.(on := true)
    case Disarm => w.(on := false)
    case Trigger(ask) => if ask.Trip? then w.(on := false) else w
    case Brk => if w.watched then w.(on := false, latched := true) else w
    case Clear => w.(latched := false)
    case Bypass(on) => if on then w.(watched := false, latched := false) else w.(watched := true)
    case _ => w
  }

  function WatchedAll(w: Watch, es: seq<Event>): Watch
    decreases |es|
  {
    if es == [] then w else WatchedAll(Watched(w, es[0]), es[1..])
  }

  predicate Shows(s: Stage, w: Watch) {
    && s.moe == w.on && s.bif == w.latched && s.bke == w.watched
    && (s.moe ==> s.armed) && (Enabled(s) <==> w.on)
  }

  predicate SameGate(s: Stage, t: Stage) {
    t.moe == s.moe && t.bif == s.bif && t.bke == s.bke && t.armed == s.armed
  }

  // ---- what moves none of it ----

  lemma FollowGate(s: Stage)
    ensures SameGate(s, FollowCompares(s))
  {
    if s.open {}
  }

  lemma IrqGate(s: Stage, on: bool)
    ensures SameGate(s, UpdateIrq(s, on))
  {
    if on {}
  }

  lemma SetAllGate(s: Stage, ticks: Triple)
    ensures SameGate(s, SetAllF(s, ticks))
  {
    hide FollowCompares, SetAllWhy, UpdateIrq;
    var t := s.(dither := false, alternate := false, countdown := 0, want := Scaled(ticks),
                residue := ZERO, ccr := ticks, duty := ticks);
    IrqGate(t, s.skew != 0);
    FollowGate(UpdateIrq(t, s.skew != 0));
  }

  lemma CountedGate(s: Stage, ticks: Triple, periods: nat)
    ensures SameGate(s, CountedF(s, ticks, periods))
  {
    hide SetAllF, SetAllWhy;
    SetAllGate(s, ticks);
  }

  lemma FineGate(s: Stage, fine: Triple)
    ensures SameGate(s, FineF(s, fine))
  {
    hide FineWhy;
    if FineWhy(s, fine) != Took {}
    if s.open {}
  }

  lemma AlternateGate(s: Stage, a: Triple, b: Triple, n: nat)
    ensures SameGate(s, AlternateF(s, a, b, n))
  {
    hide AlternateWhy;
    if AlternateWhy(s, a, b) != Took {}
    if s.open {}
  }

  lemma DeadTimeGate(s: Stage, ns: nat)
    ensures SameGate(s, DeadTimeF(s, ns))
  {
    hide DeadTimeCounts;
    if DeadTimeWhy(s, ns) != Took {}
  }

  lemma SkewGate(s: Stage, c: int)
    ensures SameGate(s, SkewF(s, c))
  {
    hide SkewMode, SkewIrq, SkewWhy;
    var t := s.(skew := Size(c), skewUp := c >= 0);
    ModeGate(t);
    SkewIrqGate(SkewMode(t));
  }

  lemma ModeGate(s: Stage)
    ensures SameGate(s, SkewMode(s))
  {
    if s.driveOwns {}
    if s.skew != 0 {}
    if s.direct {}
  }

  lemma SkewIrqGate(s: Stage)
    ensures SameGate(s, SkewIrq(s))
  {
    hide UpdateIrq, SkewWantsIrq;
    IrqGate(if s.skew == 0 then s.(dtg := s.deadtime) else s, SkewWantsIrq(s));
  }

  lemma LetGoGate(s: Stage)
    ensures SameGate(s, LetGo(s))
  {
    if s.skew != 0 {}
    if s.dither {}
  }

  lemma NextGate(s: Stage, ticks: Triple)
    ensures SameGate(s, SetNextF(s, ticks))
  {
    hide Clip;
    if s.landed {}
    if s.open {}
    if s.direct {}
  }

  lemma PeriodGate(s: Stage, period: nat)
    ensures SameGate(s, WithPeriod(s.(last := Trig), period))
  {
    if period >= 64 {}
  }

  lemma TakeGate(s: Stage)
    ensures SameGate(s, TakeCompares(s))
  {
  }

  lemma TriggerGate(s: Stage, ask: Ask)
    requires !ask.Trip?
    ensures SameGate(s, TriggerF(s, ask))
  {
    hide TriggerF, Enabled, LetGo, WithPeriod, SetNextF, TakeCompares;
    var t := WithPeriod(s.(last := Trig), ask.period);
    PeriodGate(s, ask.period);
    TakeGate(t);
    if ask.Drive? && Enabled(s) {
      if s.owned {
        TriggerOwned(s, ask.period, ask.ticks);
        NextGate(t, ask.ticks);
      } else {
        TriggerTakes(s, ask.period, ask.ticks);
        NextGate(TakeCompares(t).(owned := true), ask.ticks);
      }
    } else if s.owned {
      DropTrigger(s, ask);
      LetGoGate(t);
    } else {
      IdleTrigger(s, ask);
    }
  }

  lemma HoldGate(s: Stage)
    ensures SameGate(s, HoldPart(s))
  {
    hide HoldExpired;
    if s.countdown == 0 {}
    if s.half {}
    ExpiredGate(HoldCounted(s));
  }

  lemma ExpiredGate(s: Stage)
    ensures SameGate(s, HoldExpired(s))
  {
    if s.skew == 0 {}
  }

  lemma LandGate(s: Stage)
    ensures SameGate(s, LandNext(s))
  {
    if s.nextPending {}
  }

  lemma DirectGate(s: Stage)
    ensures SameGate(s, EnterDirect(s))
  {
    if s.toDirect {}
  }

  lemma TurnGate(s: Stage)
    ensures SameGate(s, AlternateWrite(s))
  {
    if s.altNext {}
  }

  lemma WriteGate(s: Stage)
    ensures SameGate(s, SkewWrite(s))
  {
    if s.skew == 0 {}
  }

  lemma DitherGate(s: Stage)
    ensures SameGate(s, DitherStep(s))
  {
    hide DitherDuty, DitherResidues;
    if s.dither {}
  }

  lemma ComparesGate(s: Stage)
    ensures SameGate(s, Compares(s))
  {
    hide LandNext, AlternateWrite, DitherStep, EnterDirect;
    LandGate(s);
    DirectGate(LandNext(s));
    TurnGate(s);
    DitherGate(s);
  }

  lemma InterruptGate(s: Stage)
    ensures SameGate(s, Interrupt(s))
  {
    var h := s.(uif := false, half := !s.half);
    hide HoldPart, Compares, SkewWrite;
    HoldGate(h);
    ComparesGate(HoldPart(h));
    WriteGate(Compares(HoldPart(h)));
  }

  lemma LoadedGate(s: Stage, overflow: bool)
    ensures SameGate(s, Loaded(Turned(s, overflow)))
  {
  }

  lemma SpentGate(s: Stage, overflow: bool)
    requires s.rep != 0
    ensures SameGate(s, Turned(s, overflow).(rep := s.rep - 1))
  {
  }

  lemma UpdateGate(s: Stage, overflow: bool)
    ensures SameGate(s, Update(s, overflow))
  {
    hide Update, Interrupt, Loaded, Turned;
    LoadedGate(s, overflow);
    if s.rep != 0 {
      UpdateSpent(s, overflow);
      SpentGate(s, overflow);
    } else if s.uie {
      UpdateInterrupts(s, overflow);
      InterruptGate(Loaded(Turned(s, overflow)));
    } else {
      UpdateSilent(s, overflow);
    }
  }

  // ---- what does ----

  lemma ArmShows(s: Stage, w: Watch)
    requires Shows(s, w)
    ensures Shows(ArmF(s), Watched(w, Arm))
  {
    hide FollowCompares;
    FollowGate(s.(ccr := ZERO, duty := ZERO));
  }

  lemma FlagShows(s: Stage, e: Event, w: Watch)
    requires Shows(s, w) && (e.Disarm? || e.Clear?)
    ensures Shows(Step(s, e), Watched(w, e))
  {
  }

  lemma BreakShows(s: Stage, w: Watch)
    requires Shows(s, w)
    ensures Shows(BreakF(s), Watched(w, Brk))
  {
    if s.bke {}
  }

  lemma BypassShows(s: Stage, on: bool, w: Watch)
    requires Shows(s, w)
    ensures Shows(BypassF(s, on), Watched(w, Bypass(on)))
  {
    if on {}
  }

  lemma TripShows(s: Stage, w: Watch)
    requires Shows(s, w)
    ensures Shows(TriggerF(s, Trip), Watched(w, Trigger(Trip)))
  {
  }

  lemma SameShows(s: Stage, t: Stage, w: Watch)
    requires Shows(s, w) && SameGate(s, t)
    ensures Shows(t, w)
  {
  }

  lemma StepShows(s: Stage, e: Event, w: Watch)
    requires Shows(s, w)
    ensures Shows(Step(s, e), Watched(w, e))
  {
    hide Shows, SameGate, SetAllF, FineF, CountedF, AlternateF, ArmF, TriggerF, DeadTimeF, BypassF,
         BreakF, SkewF, Update, DisarmF;
    match e
    case SetAll(t) => SetAllGate(s, t); SameShows(s, SetAllF(s, t), w);
    case Fine(f) => FineGate(s, f); SameShows(s, FineF(s, f), w);
    case Counted(t, n) => CountedGate(s, t, n); SameShows(s, CountedF(s, t, n), w);
    case Alternate(a, b, n) => AlternateGate(s, a, b, n); SameShows(s, AlternateF(s, a, b, n), w);
    case Arm => ArmShows(s, w);
    case DeadTime(ns) => DeadTimeGate(s, ns); SameShows(s, DeadTimeF(s, ns), w);
    case Skew(c) => SkewGate(s, c); SameShows(s, SkewF(s, c), w);
    case Bypass(on) => BypassShows(s, on, w);
    case Brk => BreakShows(s, w);
    case Trigger(ask) =>
      if ask.Trip? {
        TripShows(s, w);
      } else {
        TriggerGate(s, ask);
        SameShows(s, TriggerF(s, ask), w);
      }
    case Overflow => UpdateGate(s, true); SameShows(s, Update(s, true), w);
    case Underflow => UpdateGate(s, false); SameShows(s, Update(s, false), w);
    case _ => FlagShows(s, e, w);
  }

  /** Over every run the stage is on exactly as the arms, disarms, trips and breaks leave it, whatever
      else happens; and its latch is as the breaks, the clears and the bypasses leave that. */
  lemma {:induction false} OnRuns(s: Stage, es: seq<Event>, w: Watch)
    requires Shows(s, w)
    ensures Shows(Run(s, es), WatchedAll(w, es))
    decreases |es|
  {
    hide Shows, Step, Watched;
    if es != [] {
      StepShows(s, es[0], w);
      OnRuns(Step(s, es[0]), es[1..], Watched(w, es[0]));
    }
  }

  lemma StartShows(s: Stage)
    requires Initial(s)
    ensures Shows(s, Watch(false, false, true))
  {
  }

  /** A break watched shuts the stage, and while its latch is neither cleared nor bypassed no arm
      opens it again, over any run; cleared, it still takes an arm. */
  lemma BreakShuts(s: Stage, es: seq<Event>)
    requires s.bke && (s.moe ==> s.armed)
    requires (forall i :: 0 <= i < |es| ==> es[i] != Clear && es[i] != Bypass(true))
             || (forall i :: 0 <= i < |es| ==> es[i] != Arm)
    ensures !Enabled(Step(s, Brk)) && !Enabled(Run(Step(s, Brk), es))
  {
    hide Step, Run, WatchedAll, Shows, Watched, Enabled;
    var w, shut := Watch(s.moe, s.bif, s.bke), Watch(false, true, true);
    Begins(s);
    StepShows(s, Brk, w);
    OnRuns(Step(s, Brk), es, shut);
    StaysShut(shut, es);
    ShowsOff(Step(s, Brk), shut);
    ShowsOff(Run(Step(s, Brk), es), WatchedAll(shut, es));
  }

  lemma Begins(s: Stage)
    requires s.bke && (s.moe ==> s.armed)
    ensures var w := Watch(s.moe, s.bif, s.bke);
      Shows(s, w) && Watched(w, Brk) == Watch(false, true, true)
  {
  }

  lemma ShowsOff(s: Stage, w: Watch)
    requires Shows(s, w) && !w.on
    ensures !Enabled(s)
  {
  }

  lemma {:induction false} StaysShut(w: Watch, es: seq<Event>)
    requires !w.on
    requires (w.latched && w.watched
              && forall i :: 0 <= i < |es| ==> es[i] != Clear && es[i] != Bypass(true))
             || (forall i :: 0 <= i < |es| ==> es[i] != Arm)
    ensures !WatchedAll(w, es).on
    decreases |es|
  {
    if es != [] {
      StaysShut(Watched(w, es[0]), es[1..]);
    }
  }
}
