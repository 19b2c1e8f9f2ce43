/** Where an arm may fall while the drive holds the compares: the board takes one at any time, and
    it writes zero into all three. */
module GateArm {
  import opened GateStage
  import opened GateOwner
  import opened GateTrace

  /** The drive direct, and still direct at the trigger: the triple in the compares is whole
      exactly when no arm comes before its overflow, and the one handed in takes its place exactly
      when none comes between its trigger and the underflow. */
  lemma ArmDirect(s: Stage, p: Period)
    requires Held(s) && s.last == Under && Driven(s, p)
    requires AtOver(s, p).direct && !Skewed(AtOver(s, p), p.hold)
    ensures AtOver(s, p).active == PeriodEnd(s, p).active == s.ccr <==> !ArmRise(s, p) || s.ccr == ZERO
    ensures PeriodEnd(s, p).ccr == Given(s.arr, p) <==> !ArmFall(s, p) || Given(s.arr, p) == ZERO
  {
    SwallowedWhen(s, p);
    OnePeriod(s, p);
    hide Held, Driven, AtOver, Handed, AtTrigger, AtUnder, PeriodEnd, ArmRise, ArmHold, ArmFall,
         Given, Skewed, Swallowed;
  }

  /** The drive landing its triples: the one handed in always takes its place, but the one in the
      compares is whole exactly when no arm comes in the whole period. */
  lemma ArmLanded(s: Stage, p: Period)
    requires Held(s) && s.last == Under && Driven(s, p) && !AtOver(s, p).direct
    ensures AtOver(s, p).active == PeriodEnd(s, p).active == s.ccr
            <==> !(ArmRise(s, p) || ArmHold(s, p) || ArmFall(s, p)) || s.ccr == ZERO
    ensures PeriodEnd(s, p).ccr == Given(s.arr, p)
  {
    SwallowedWhen(s, p);
    OnePeriod(s, p);
    hide Held, Driven, AtOver, Handed, AtTrigger, AtUnder, PeriodEnd, ArmRise, ArmHold, ArmFall,
         Given, Skewed, Swallowed;
  }

  // ---- and it happens ----

  lemma ArmPeriod(s: Stage, ticks: Triple)
    ensures var p := Period([], [], [Arm], 0, ticks);
      && AtOver(s, p) == AtTrigger(s, p) == Update(s, true)
      && Handed(s, p) == TriggerF(Update(s, true), Drive(0, ticks))
      && AllHost(p.rise) && AllHost(p.hold) && AllHost(p.fall)
      && (ArmFall(s, p) <==> ArmWhy(Handed(s, p)) == Took)
      && !ArmRise(s, p)
  {
    hide Update, Run, ArmWhy, TriggerF, Rearmed;
    RunNone(s);
    RunNone(Update(s, true));
    var p := Period([], [], [Arm], 0, ticks);
    OneArm(Handed(s, p), Arm);
    NoArm(s);
  }

  /** Direct, no fault latched: neither the overflow nor the triple written there latches one. */
  lemma HandedUnlatched(s: Stage, ticks: Triple)
    requires Held(s) && s.last == Under && s.direct && Enabled(s) && !s.bif
    ensures ArmWhy(TriggerF(Update(s, true), Drive(0, ticks))) == Took
  {
    OverflowHeld(s);
    OverflowArmed(s);
    HeldGlue(Update(s, true));
    OverflowUnlatched(s);
    var o := Update(s, true);
    hide Inv, Update, TriggerF, SetNextF, WithPeriod, Enabled, Clip;
    TriggerOwned(o, 0, ticks);
    PeriodFields(o.(last := Trig), 0);
    NextMode(o.(last := Trig), ticks);
  }

  lemma HeldGlue(s: Stage)
    requires Held(s)
    ensures s.owned
  {
  }

  lemma OverflowUnlatched(s: Stage)
    requires Held(s) && s.last == Under && s.direct
    ensures Update(s, true).bif == s.bif
  {
    assert s.rep == 0 && !s.uie;
    hide Inv, Update;
    UpdateSilent(s, true);
  }

  function LostTo(s: Stage, ticks: Triple): Stage {
    Update(PeriodEnd(s, Period([], [], [Arm], 0, ticks)), true)
  }

  /** Whatever the drive handed in, one arm behind its trigger and the next overflow puts zero in
      force, the drive holding the compares throughout. */
  lemma ArmLoses(s: Stage, ticks: Triple)
    requires Held(s) && s.last == Under && s.direct && Enabled(s) && !s.bif
    ensures Run(s, [Overflow, Trigger(Drive(0, ticks)), Arm, Underflow, Overflow]) == LostTo(s, ticks)
    ensures LostTo(s, ticks).active == ZERO && LostTo(s, ticks).driveOwns
  {
    var p := Period([], [], [Arm], 0, ticks);
    FiveSteps(s, Drive(0, ticks));
    LostIs(s, ticks);
    ArmPeriod(s, ticks);
    HandedUnlatched(s, ticks);
    OverflowHeld(s);
    OverflowArmed(s);
    hide Held, Run, Update, TriggerF, Enabled, ArmWhy, AtOver, AtTrigger, Handed, PeriodEnd, ArmFall,
         ArmRise, ArmHold, Given, ArmF;
    OnePeriod(s, p);
    OverflowHeld(PeriodEnd(s, p));
    HeldOwns(LostTo(s, ticks));
  }

  lemma FiveSteps(s: Stage, ask: Ask)
    ensures Run(s, [Overflow, Trigger(ask), Arm, Underflow, Overflow])
            == Update(Update(ArmF(TriggerF(Update(s, true), ask)), false), true)
  {
    hide ArmF, Update, TriggerF, Run;
    RunFive(s, Overflow, Trigger(ask), Arm, Underflow, Overflow);
  }

  lemma LostIs(s: Stage, ticks: Triple)
    ensures LostTo(s, ticks)
            == Update(Update(ArmF(TriggerF(Update(s, true), Drive(0, ticks))), false), true)
  {
    hide ArmF, Update, TriggerF, Run;
    ArmPeriod(s, ticks);
    RunOne(TriggerF(Update(s, true), Drive(0, ticks)), Arm);
  }

  lemma ArmLost(s: Stage)
    requires Initial(s)
    ensures var u := Run(s, [Arm, Overflow, Trigger(Drive(0, [1, 1, 1])), Underflow]);
            var v := Run(u, [Overflow, Trigger(Drive(0, [2, 2, 2])), Arm, Underflow, Overflow]);
      v.active == ZERO && v.driveOwns && Given(u.arr, Period([], [], [Arm], 0, [2, 2, 2])) == [2, 2, 2]
  {
    DirectReached(s, [1, 1, 1]);
    TwosFit(s);
    var u := Run(s, [Arm, Overflow, Trigger(Drive(0, [1, 1, 1])), Underflow]);
    hide Held, Run, Update, TriggerF, Enabled, Clip, ArmF, LostTo, Initial;
    ArmLoses(u, [2, 2, 2]);
  }

  lemma TwosFit(s: Stage)
    requires Initial(s)
    ensures Clip([2, 2, 2], s.arr) == [2, 2, 2]
  {
  }
}
