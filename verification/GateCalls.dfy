/** What each of the stage's calls, its trigger, its interrupt and its edges come to, apart from how
    they are written: what they promise their callers and the invariants they keep. */
module GateCalls {
  import opened GateStage
  import opened GateOwner
  import opened GateTrace
  import opened GateHold
  import opened GateTrains
  import opened GateSwing
  import opened GateDead

  /** Off: nothing in the compares, nobody's train, and no interrupt to write one. */
  predicate Off(s: Stage) {
    && !Enabled(s) && !s.armed && s.ccr == ZERO && s.duty == ZERO && !s.uie && !s.driveOwns
    && !s.direct && !s.toDirect && !s.nextPending && s.rcr == 0 && s.countdown == 0 && !s.alternate && !s.dither
  }

  lemma DisarmGives(s: Stage)
    ensures Off(DisarmF(s)) && (Inv(s) ==> Inv(DisarmF(s))) && (Window(s) ==> Window(DisarmF(s)))
  {
  }

  /** An arm is refused for a latched break alone; taken, the stage is on with nothing in the
      compares and the bridge following them. */
  predicate Armed(s: Stage, t: Stage) {
    if s.bif && s.bke then t == s
    else Enabled(t) && t.ccr == ZERO && t.duty == ZERO && !t.open && t.driveOwns == s.driveOwns
  }

  lemma ArmGives(s: Stage)
    ensures Armed(s, ArmF(s)) && (ArmWhy(s) == Took <==> !(s.bif && s.bke))
  {
    if s.bif && s.bke {
    } else {
      FollowCloses(s.(ccr := ZERO, duty := ZERO));
      hide FollowCompares;
    }
  }

  /** A host may write the compares: the stage on and the drive not holding them. */
  predicate HostMay(s: Stage) { Enabled(s) && !s.driveOwns }

  lemma MayIs(s: Stage)
    ensures ComparesWhy(s) == Took <==> HostMay(s)
  {
  }

  lemma SetAllMay(s: Stage, ticks: Triple)
    ensures SetAllWhy(s, ticks) == Took <==> HostMay(s) && Within(ticks, s.arr)
  {
    MayIs(s);
    hide ComparesWhy, HostMay;
  }

  lemma AlternateMay(s: Stage, a: Triple, b: Triple)
    ensures AlternateWhy(s, a, b) == Took <==> HostMay(s) && Within(a, s.arr) && Within(b, s.arr)
  {
    MayIs(s);
    hide ComparesWhy, HostMay;
  }

  lemma FollowFields(s: Stage)
    ensures var t := FollowCompares(s);
      && !t.open && t.outputs == (s.open || s.outputs) && t.ccr == s.ccr && t.duty == s.duty
      && t.want == s.want && t.residue == s.residue && t.dither == s.dither
      && t.alternate == s.alternate && t.countdown == s.countdown && t.uie == s.uie
      && t.uif == s.uif && t.half == s.half && t.skew == s.skew && t.deadtime == s.deadtime
  {
    if s.open {}
  }

  /** A duty taken is in the compares and asked for, whatever ran before it is over, and the
      interrupt stays on for a skew alone. */
  lemma DutyGives(s: Stage, ticks: Triple)
    ensures SetAllWhy(s, ticks) == Took <==> HostMay(s) && Within(ticks, s.arr)
    ensures SetAllWhy(s, ticks) != Took ==> SetAllF(s, ticks) == s
    ensures SetAllWhy(s, ticks) == Took ==>
              var t := SetAllF(s, ticks);
              && t.ccr == ticks && t.duty == ticks && t.residue == ZERO
              && (forall k :: 0 <= k < 3 ==> t.want[k] == 65536 * ticks[k])
              && !t.dither && !t.alternate && t.countdown == 0 && (t.uie <==> s.skew != 0)
              && !t.open && t.outputs == (s.open || s.outputs)
              && t.half == s.half && t.skew == s.skew && t.deadtime == s.deadtime
    ensures Inv(s) ==> Inv(SetAllF(s, ticks))
  {
    hide Inv, HostMay, Within, SetAllWhy, FollowCompares, UpdateIrq;
    if Inv(s) { SetAllKeeps(s, ticks); }
    SetAllMay(s, ticks);
    if SetAllWhy(s, ticks) == Took {
      var t := s.(dither := false, alternate := false, countdown := 0, want := Scaled(ticks),
                  residue := ZERO, ccr := ticks, duty := ticks);
      IrqFields(t, s.skew != 0);
      FollowFields(UpdateIrq(t, s.skew != 0));
    }
  }

  lemma IrqFields(s: Stage, on: bool)
    ensures var t := UpdateIrq(s, on); t == s.(uie := on)
  {
    if on {}
  }

  lemma FineMay(s: Stage, fine: Triple)
    ensures FineWhy(s, fine) == Took <==> HostMay(s) && Within(fine, s.arr * 65536)
  {
    MayIs(s);
    hide ComparesWhy, HostMay;
  }

  lemma FineGives(s: Stage, fine: Triple)
    ensures FineWhy(s, fine) == Took <==> HostMay(s) && Within(fine, s.arr * 65536)
    ensures FineWhy(s, fine) != Took ==> FineF(s, fine) == s
    ensures FineWhy(s, fine) == Took ==>
              var t := FineF(s, fine);
              && t.want == fine && t.residue == ZERO && t.dither && !t.alternate && t.countdown == 0
              && t.uie && !t.uif && !t.open && t.outputs == (s.open || s.outputs)
              && t.ccr == s.ccr && t.duty == s.duty && t.half == s.half
    ensures Inv(s) ==> Inv(FineF(s, fine))
  {
    hide Inv, HostMay, Within, FineWhy, FollowCompares;
    if Inv(s) { FineKeeps(s, fine); }
    FineMay(s, fine);
    if FineWhy(s, fine) == Took {
      FollowFields(s.(want := fine, residue := ZERO, dither := true, alternate := false,
                      countdown := 0, uif := false, uie := true));
    }
  }

  /** A hold counted off in update interrupts, two a period, one fewer from the second half. */
  lemma CountedGives(s: Stage, ticks: Triple, periods: nat)
    ensures CountedF(s, ticks, periods).ccr == (if SetAllWhy(s, ticks) == Took then ticks else s.ccr)
    ensures SetAllWhy(s, ticks) != Took ==> CountedF(s, ticks, periods) == s
    ensures SetAllWhy(s, ticks) == Took && periods > 0 ==>
              var t := CountedF(s, ticks, periods);
              t.countdown == periods && t.uie && !t.alternate && !t.dither
              && Left(t) == 2 * periods - if s.half then 1 else 0
    ensures Inv(s) ==> Inv(CountedF(s, ticks, periods))
  {
    if Inv(s) { CountedKeeps(s, ticks, periods); }
    hide Inv;
    if SetAllWhy(s, ticks) == Took {
      SetAllGives(s, ticks);
      SetAllTook(s, ticks);
    }
    hide SetAllF, SetAllWhy;
  }

  lemma PairGives(s: Stage, a: Triple, b: Triple, periods: nat)
    requires AlternateWhy(s, a, b) == Took
    ensures var t := AlternateF(s, a, b, periods);
      && Written(t) == a && Coming(t) == b && t.ccr == a && t.alternate && !t.dither && t.uie
      && !t.uif && t.countdown == periods && !t.open && t.half == s.half
  {
    hide AlternateWhy;
    if s.open {}
  }

  lemma AlternateGives(s: Stage, a: Triple, b: Triple, periods: nat)
    ensures AlternateWhy(s, a, b) != Took ==> AlternateF(s, a, b, periods) == s
    ensures Inv(s) ==> Inv(AlternateF(s, a, b, periods))
    ensures Inv(s) && AlternateWhy(s, a, b) == Took ==>
              Alternating(AlternateF(s, a, b, periods), FRESH)
  {
    if Inv(s) {
      AlternateKeeps(s, a, b, periods);
      hide Inv;
      if AlternateWhy(s, a, b) == Took {
        AlternateStarts(s, a, b, periods);
      }
    }
    hide AlternateWhy;
  }

  /** A dead time refused is one no count with the skew beside it could keep. */
  lemma DeadTimeGives(s: Stage, ns: nat)
    ensures var t := DeadTimeF(s, ns);
      if DeadTimeWhy(s, ns) == Took then
        && DeadTimeNs(t) >= ns && FLOOR <= t.deadtime == t.dtg && t.deadtime + t.skew <= DTG_MAX
        && forall c: nat :: c >= FLOOR && ns * PS_PER_NS <= c * PS_PER_COUNT ==> t.deadtime <= c
      else
        && t == s
        && forall c: nat :: c >= FLOOR && ns * PS_PER_NS <= c * PS_PER_COUNT ==> c + s.skew > DTG_MAX
  {
    if DeadTimeWhy(s, ns) == Took {
      DeadTimeTaken(s, ns);
    } else {
      forall c: nat | c >= FLOOR && ns * PS_PER_NS <= c * PS_PER_COUNT
        ensures c + s.skew > DTG_MAX
      {
        CountsLeast(ns, c);
      }
    }
  }

  // ---- the drive ----

  lemma TakeGives(s: Stage)
    ensures var t := TakeCompares(s);
      && t.driveOwns && t.uie && !t.dither && !t.alternate && t.countdown == 0 && !t.landed
      && !t.nextPending && t.ccr == s.ccr && (t.toDirect <==> s.skew == 0)
  {
  }

  lemma DropGives(s: Stage)
    ensures var t := LetGo(s);
      && t.open && !t.outputs && t.ccr == ZERO && t.duty == ZERO && !t.driveOwns && !t.direct
      && !t.toDirect && t.rcr == 0 && t.arr == s.arr && (t.uie <==> s.skew != 0 || s.dither)
  {
    if s.skew != 0 {}
    if s.dither {}
  }

  /** The stage on and a triple handed in: the drive owns, and what it holds takes the triple,
      straight into the compares or to land at the underflow. */
  lemma DriveGives(s: Stage, period: nat, ticks: Triple)
    requires Inv(s) && s.last == Over && Enabled(s)
    ensures var t := TriggerF(s, Drive(period, ticks));
            var arr := if period >= 64 then period else s.arr;
      && t.owned && t.arr == arr && t.active == s.active
      && (s.direct ==> t.ccr == Clip(ticks, arr))
      && (!s.direct ==> t.ccr == s.ccr && t.nextPending && t.next == Clip(ticks, arr))
  {
    assert s.direct ==> s.owned;
    hide Inv, Clip, SetNextF, TakeCompares, WithPeriod, TriggerF, Enabled;
    var u := s.(last := Trig);
    PeriodFields(u, period);
    PeriodTrain(u, period);
    if s.owned {
      TriggerOwned(s, period, ticks);
      NextFields(WithPeriod(u, period), ticks);
      NextOwned(WithPeriod(u, period), ticks);
    } else {
      TriggerTakes(s, period, ticks);
      var v := TakeCompares(WithPeriod(u, period)).(owned := true);
      TakeFields(WithPeriod(u, period));
      TakeTrain(WithPeriod(u, period));
      NextFields(v, ticks);
      NextOwned(v, ticks);
    }
  }

  lemma PeriodTrain(s: Stage, period: nat)
    ensures var t := WithPeriod(s, period);
      && t.arr == (if period >= 64 then period else s.arr) && t.active == s.active && t.ccr == s.ccr
      && t.direct == s.direct
  {
    if period >= 64 {}
  }

  lemma TakeTrain(s: Stage)
    ensures TakeCompares(s).active == s.active && TakeCompares(s).ccr == s.ccr
  {
  }

  lemma NextOwned(s: Stage, ticks: Triple)
    ensures SetNextF(s, ticks).owned == s.owned
  {
    hide Clip;
    if s.landed {}
    if s.open {}
    if s.direct {}
  }

  /** Nothing handed in, or the stage off: the drive lets go if it thought it held. */
  lemma RestGives(s: Stage, ask: Ask)
    requires !ask.Trip? && !(ask.Drive? && Enabled(s))
    ensures var t := TriggerF(s, ask);
      if s.owned then
        && t.open && !t.outputs && t.ccr == ZERO && !t.driveOwns && !t.owned
        && t.arr == if ask.period >= 64 then ask.period else s.arr
      else t == s.(last := Trig)
  {
    hide LetGo, WithPeriod, TriggerF, Enabled;
    if s.owned {
      DropTrigger(s, ask);
      PeriodTrain(s.(last := Trig), ask.period);
      DropGives(WithPeriod(s.(last := Trig), ask.period));
    } else {
      IdleTrigger(s, ask);
    }
  }

  lemma TripGives(s: Stage)
    ensures Off(TriggerF(s, Trip)) && !TriggerF(s, Trip).owned
  {
  }

  // ---- the interrupt ----

  lemma InterruptWrites(s: Stage)
    requires s.uif
    ensures Interrupt(s) == SkewWrite(Compares(HoldPart(s.(uif := false, half := !s.half))))
  {
    hide HoldPart, Compares, SkewWrite;
  }

  /** The interrupt that runs a hold out leaves zero in the compares and no train. */
  lemma OutGives(s: Stage)
    requires s.uif && !s.driveOwns && Expiring(s)
    ensures Spent(Interrupt(s))
  {
    var h := s.(uif := false, half := !s.half);
    assert HoldOut(h);
    hide HoldPart, Compares, SkewWrite, Interrupt, HoldOut;
    InterruptWrites(s);
    ExpiresIs(h);
    NoTrain(HoldPart(h));
    SkewWriteTrain(HoldPart(h));
  }

  lemma CountKeeps(s: Stage)
    ensures var t := HoldCounted(s);
      t.active == s.active && t.half == s.half && t.uif == s.uif && t.down == s.down && t.bif == s.bif
  {
    if s.countdown == 0 {}
    if s.half {}
  }

  lemma ExpiryKeeps(s: Stage)
    ensures var t := HoldExpired(s);
      t.active == s.active && t.half == s.half && t.uif == s.uif && t.down == s.down && t.bif == s.bif
  {
    if s.skew == 0 {}
  }

  lemma HoldKeeps(s: Stage)
    ensures var t := HoldPart(s);
      t.active == s.active && t.half == s.half && t.uif == s.uif && t.down == s.down && t.bif == s.bif
  {
    hide HoldCounted, HoldExpired, HoldOut;
    CountKeeps(s);
    ExpiryKeeps(HoldCounted(s));
    if HoldOut(s) {}
  }

  lemma HandsKeep(s: Stage)
    ensures var t := EnterDirect(LandNext(s));
      t.active == s.active && t.half == s.half && t.uif == s.uif && t.bif == s.bif
  {
    if s.nextPending {}
    if s.down {}
    if LandNext(s).toDirect {}
    if LandNext(s).down {}
  }

  lemma DitherKeeps(s: Stage)
    ensures var t := DitherStep(s);
      t.active == s.active && t.half == s.half && t.uif == s.uif && t.bif == s.bif
  {
    hide DitherDuty, DitherResidues;
    if s.dither {}
  }

  lemma TurnKeeps(s: Stage)
    ensures var t := AlternateWrite(s);
      t.active == s.active && t.half == s.half && t.uif == s.uif && t.bif == s.bif
  {
    if s.altNext {}
  }

  lemma WriteKeeps(s: Stage)
    ensures var t := Compares(s);
      t.active == s.active && t.half == s.half && t.uif == s.uif && t.bif == s.bif
  {
    hide EnterDirect, LandNext, DitherStep, AlternateWrite;
    HandsKeep(s);
    DitherKeeps(s);
    TurnKeeps(s);
    if s.alternate && s.down {}
    if s.driveOwns {}
    if s.half {}
  }

  lemma SkewKeeping(s: Stage)
    ensures SkewWrite(s).uif == s.uif && SkewWrite(s).bif == s.bif
  {
    if s.skew == 0 {}
  }

  /** The interrupt turns the half and clears its flag, and what is in force is not its to move. */
  lemma InterruptGives(s: Stage)
    requires s.uif
    ensures var t := Interrupt(s);
      t.active == s.active && t.half == !s.half && !t.uif && t.bif == s.bif
  {
    var h := s.(uif := false, half := !s.half);
    hide HoldPart, Compares, SkewWrite, Interrupt;
    InterruptWrites(s);
    HoldKeeps(h);
    WriteKeeps(HoldPart(h));
    SkewWritePipe(Compares(HoldPart(h)));
    SkewKeeping(Compares(HoldPart(h)));
  }

  /** The drive's interrupt, past an underflow: the triple waiting lands. */
  lemma LandGives(s: Stage)
    requires Inv(s) && s.driveOwns && s.uif && !s.down
    ensures Interrupt(s).ccr == if s.nextPending then s.next else s.ccr
  {
    assert !s.alternate && s.countdown == 0;
    hide Inv, Interrupt;
    HeldUp(s);
  }

  lemma InterruptKeepsWindow(s: Stage)
    requires Window(s) && s.uif
    ensures Window(Interrupt(s))
  {
    var h := s.(uif := false, half := !s.half);
    SameWindow(s, h);
    hide Window, HoldPart, Compares, SkewWrite, Interrupt;
    InterruptWrites(s);
    HoldDead(h);
    SameWindow(h, HoldPart(h));
    ComparesDead(HoldPart(h));
    SameWindow(HoldPart(h), Compares(HoldPart(h)));
    WriteInWindow(Compares(HoldPart(h)));
  }

  // ---- the timer ----

  lemma EdgeGives(s: Stage, overflow: bool)
    ensures var t := Update(s, overflow);
      && t.active == (if s.rep == 0 then s.ccr else s.active)
      && t.half == (if s.rep == 0 && s.uie then !s.half else s.half) && t.bif == s.bif
  {
    TurnedIs(s, overflow);
    LoadedIs(Turned(s, overflow));
    hide Update, Interrupt, Turned, Loaded;
    if s.rep != 0 {
      UpdateSpent(s, overflow);
    } else if s.uie {
      UpdateInterrupts(s, overflow);
      InterruptGives(Loaded(Turned(s, overflow)));
    } else {
      UpdateSilent(s, overflow);
    }
  }

  lemma TurnedIs(s: Stage, overflow: bool)
    ensures var t := Turned(s, overflow);
      t.ccr == s.ccr && t.active == s.active && t.half == s.half && t.bif == s.bif
  {
  }

  lemma LoadedIs(s: Stage)
    ensures var t := Loaded(s); t.active == s.ccr && t.half == s.half && t.uif && t.bif == s.bif
  {
  }

  // ---- all that a caller is told ----

  lemma SkewGives(s: Stage, counts: int)
    ensures var t := SkewF(s, counts);
      && (SkewWhy(s, counts) == Took ==> t.skew == Size(counts)) && t.deadtime == s.deadtime
      && (SkewWhy(s, counts) != Took ==> t == s)
      && (Inv(s) ==> Inv(t)) && (Window(s) ==> Window(t))
    ensures SkewWhy(s, counts) == Took
            <==> FLOOR + Size(counts) <= s.deadtime && s.deadtime + Size(counts) <= DTG_MAX
  {
    if Inv(s) { SkewKeeps(s, counts); }
    if Window(s) { SkewWindow(s, counts); }
    SkewSet(s, counts);
    hide SkewF, Inv, Window;
  }

  lemma SkewSet(s: Stage, counts: int)
    ensures var t := SkewF(s, counts);
      && (SkewWhy(s, counts) == Took ==> t.skew == Size(counts)) && t.deadtime == s.deadtime
      && (SkewWhy(s, counts) != Took ==> t == s)
  {
    hide SkewMode, SkewIrq, SkewWhy;
    if SkewWhy(s, counts) == Took {
      var t := s.(skew := Size(counts), skewUp := counts >= 0);
      ModeDead(t);
      IrqSkewDead(SkewMode(t));
    }
  }

  lemma SampleGives(s: Stage, ask: Ask)
    ensures ask.Trip? ==> Off(TriggerF(s, ask)) && !TriggerF(s, ask).owned
    ensures !ask.Trip? && !(ask.Drive? && Enabled(s)) ==>
              var t := TriggerF(s, ask);
              if s.owned then
                && t.open && !t.outputs && t.ccr == ZERO && !t.driveOwns && !t.owned
                && t.arr == if ask.period >= 64 then ask.period else s.arr
              else t == s.(last := Trig)
    ensures Inv(s) && s.last == Over ==> Inv(TriggerF(s, ask))
    ensures Inv(s) && s.last == Over && ask.Drive? && Enabled(s) ==>
              var t := TriggerF(s, ask);
              var arr := if ask.period >= 64 then ask.period else s.arr;
              && t.owned && t.arr == arr && t.active == s.active
              && (s.direct ==> t.ccr == Clip(ask.ticks, arr))
              && (!s.direct ==> t.ccr == s.ccr && t.nextPending && t.next == Clip(ask.ticks, arr))
  {
    hide TriggerF, Inv, Off, Clip, Enabled;
    if Inv(s) && s.last == Over { TriggerKeeps(s, ask); }
    if ask.Trip? {
      TripGives(s);
    } else if ask.Drive? && Enabled(s) {
      if Inv(s) && s.last == Over { DriveGives(s, ask.period, ask.ticks); }
    } else {
      RestGives(s, ask);
    }
  }

  lemma UpdateGives(s: Stage)
    ensures !s.uif ==> Interrupt(s) == s
    ensures s.uif ==> var t := Interrupt(s); t.active == s.active && t.half == !s.half && !t.uif
    ensures s.uif && !s.driveOwns && Expiring(s) ==> Spent(Interrupt(s))
    ensures s.uif && Inv(s) && s.driveOwns && !s.down ==>
              Interrupt(s).ccr == if s.nextPending then s.next else s.ccr
    ensures (Inv(s) ==> Inv(Interrupt(s))) && (Window(s) ==> Window(Interrupt(s)))
  {
    InterruptIdle(s);
    hide Interrupt, Inv, Window, Spent, Expiring;
    if Inv(s) { InterruptKeeps(s); }
    if s.uif {
      InterruptGives(s);
      if !s.driveOwns && Expiring(s) { OutGives(s); }
      if Inv(s) && s.driveOwns && !s.down { LandGives(s); }
      if Window(s) { InterruptKeepsWindow(s); }
    }
  }

  lemma InterruptIdle(s: Stage)
    ensures !s.uif ==> Interrupt(s) == s
  {
    hide HoldPart, Compares, SkewWrite;
  }

  lemma TurnGives(s: Stage, overflow: bool)
    ensures var t := Update(s, overflow);
      && t.active == (if s.rep == 0 then s.ccr else s.active)
      && t.half == (if s.rep == 0 && s.uie then !s.half else s.half)
      && (Inv(s) && overflow == (s.last == Under) ==> Inv(t))
      && (Window(s) ==> Window(t))
  {
    hide Update, Inv, Window;
    EdgeGives(s, overflow);
    if Inv(s) && overflow == (s.last == Under) { UpdateKeeps(s, overflow); }
    if Window(s) { UpdateWindow(s, overflow); }
  }

  // ---- the drive's triple, and a step of the dither ----

  /** The drive's triple, each leg held to the period: straight into the compares in direct mode, to
      land otherwise; and the bridge follows once one of its own has landed. */
  lemma NextGives(s: Stage, ticks: Triple)
    ensures var t := SetNextF(s, ticks);
      && (forall k :: 0 <= k < 3 ==> t.next[k] == if ticks[k] > s.arr then s.arr else ticks[k])
      && (s.direct ==> t.ccr == t.next && t.duty == t.next && t.nextPending == s.nextPending)
      && (!s.direct ==> t.nextPending && t.ccr == s.ccr && t.duty == s.duty)
      && t.open == (s.open && !s.landed) && t.active == s.active
  {
    ClipGives(ticks, s.arr);
    hide Clip;
    if s.landed {}
    if s.open {}
    if s.direct {}
  }

  lemma ClipGives(ticks: Triple, arr: nat)
    ensures forall k :: 0 <= k < 3 ==>
              Clip(ticks, arr)[k] == if ticks[k] > arr then arr else ticks[k]
  {
  }

  /** One phase's step: whole ticks and carry make up the request and the carry before, the carry
      under a tick; short of that only at the period. */
  predicate Stepped(want: nat, residue: nat, written: nat, carried: nat, arr: nat) {
    && carried < 65536 && written <= arr
    && (65536 * written + carried == want + residue
        || (written == arr && 65536 * written + carried < want + residue))
  }

  lemma LegGives(want: nat, residue: nat, arr: nat)
    requires residue < 65536
    ensures Stepped(want, residue, Min(DitherWhole(want, residue), arr),
                    DitherResidue(want, residue), arr)
  {
    DitherPhase(want, residue, arr);
    hide DitherWhole, DitherResidue;
  }

  lemma DitherWrites(s: Stage)
    requires s.dither
    ensures var t := DitherStep(s);
      && t.ccr == DitherDuty(s.want, s.residue, s.arr) && t.duty == t.ccr
      && t.residue == DitherResidues(s.want, s.residue)
  {
    hide DitherDuty, DitherResidues;
  }

  lemma DitherLegs(want: Triple, residue: Triple, arr: nat, k: nat)
    requires k < 3
    ensures DitherDuty(want, residue, arr)[k] == Min(DitherWhole(want[k], residue[k]), arr)
    ensures DitherResidues(want, residue)[k] == DitherResidue(want[k], residue[k])
  {
    hide DitherWhole, DitherResidue, Min;
  }

  lemma SigmaDelta(s: Stage)
    requires s.dither
    ensures var t := DitherStep(s);
      forall k :: 0 <= k < 3 && s.residue[k] < 65536 ==>
        Stepped(s.want[k], s.residue[k], t.ccr[k], t.residue[k], s.arr) && t.duty[k] == t.ccr[k]
  {
    hide DitherWhole, DitherResidue, Stepped, Min, DitherStep, DitherDuty, DitherResidues;
    DitherWrites(s);
    forall k | 0 <= k < 3 && s.residue[k] < 65536
      ensures Stepped(s.want[k], s.residue[k], DitherStep(s).ccr[k], DitherStep(s).residue[k], s.arr)
    {
      DitherLegs(s.want, s.residue, s.arr, k);
      LegGives(s.want[k], s.residue[k], s.arr);
    }
  }
}
