/** The gate stage as the board runs it: one object holding the static state, the registers and
    the timer behind them, whose calls, trigger and interrupt update that record in place, each
    proved to be its step of the state machine. */
module GateCore {
  import opened GateStage
  import opened GateOwner
  import opened GateHold
  import opened GateTrains
  import opened GateSwing
  import opened GateDead
  import opened GateCalls
  import opened GateSkew

  class Gate {
    var s: Stage

    // ---- helpers ----

    method LeaveDirectMode()
      modifies this
      ensures s == LeaveDirect(old(s))
    {
      s := s.(rcr := 0, direct := false, toDirect := false);
    }

    method SetUpdateIrq(wanted: bool)
      modifies this
      ensures s == UpdateIrq(old(s), wanted)
    {
      s := s.(uie := wanted);
    }

    method Follow()
      modifies this
      ensures s == FollowCompares(old(s))
    {
      if s.open {
        s := s.(outputs := true, open := false);
      }
    }

    /** A new period, refused below 64 ticks. */
    method SetPeriod(to: nat) returns (took: bool)
      modifies this
      ensures s == WithPeriod(old(s), to) && took == (to >= 64)
    {
      if to < 64 {
        return false;
      }
      s := s.(arr := to);
      return true;
    }

    // ---- the host's calls ----

    method AllOff()
      modifies this
      ensures s == DisarmF(old(s))
    {
      s := s.(armed := false, dither := false, alternate := false, countdown := 0,
              driveOwns := false, nextPending := false);
      LeaveDirectMode();
      s := s.(uie := false, moe := false, ccr := ZERO, duty := ZERO);
    }

    method Disable()
      modifies this
      ensures s == DisarmF(old(s))
      ensures Off(s) && (Inv(old(s)) ==> Inv(s)) && (Window(old(s)) ==> Window(s))
    {
      hide Off, Inv, Window, DisarmF;
      DisarmGives(s);
      AllOff();
    }

    method Enable() returns (why: Why)
      modifies this
      ensures s == ArmF(old(s)) && why == ArmWhy(old(s))
      ensures why == Took <==> !(old(s).bif && old(s).bke)
      ensures Armed(old(s), s) && (Inv(old(s)) ==> Inv(s))
    {
      hide FollowCompares, Inv, Armed;
      ArmGives(s);
      if Inv(s) { ArmKeeps(s); }
      if s.bif && s.bke {
        return Latched;
      }
      s := s.(ccr := ZERO, duty := ZERO);
      Follow();
      s := s.(moe := true, armed := true);
      return Took;
    }

    method SetBreakBypass(on: bool)
      modifies this
      ensures s == BypassF(old(s), on)
      ensures s.bke == !on && s.bif == (old(s).bif && !on) && Enabled(s) == Enabled(old(s))
    {
      if on {
        s := s.(bke := false, bif := false);
      } else {
        s := s.(bke := true);
      }
    }

    method ClearFault()
      modifies this
      ensures s == old(s).(bif := false)
    {
      s := s.(bif := false);
    }

    method ComparesRefused() returns (why: Why)
      ensures why == ComparesWhy(s)
    {
      if !(s.armed && s.moe) {
        return StageOff;
      }
      if s.driveOwns {
        return DriveHolds;
      }
      return Took;
    }

    /** Whether all three are at or under a limit: all or none. */
    method AllWithin(t: Triple, limit: nat) returns (ok: bool)
      ensures ok == Within(t, limit)
    {
      for phase := 0 to PHASES
        invariant forall k :: 0 <= k < phase ==> t[k] <= limit
      {
        if t[phase] > limit {
          return false;
        }
      }
      return true;
    }

    method SetAllFine(fine: Triple) returns (why: Why)
      modifies this
      ensures s == FineF(old(s), fine) && why == FineWhy(old(s), fine)
      ensures why == Took <==> HostMay(old(s)) && Within(fine, old(s).arr * 65536)
      ensures why != Took ==> s == old(s)
      ensures why == Took ==>
                && s.want == fine && s.residue == ZERO && s.dither && !s.alternate && s.countdown == 0
                && s.uie && !s.uif && !s.open && s.outputs == (old(s).open || old(s).outputs)
                && s.ccr == old(s).ccr && s.duty == old(s).duty && s.half == old(s).half
      ensures Inv(old(s)) ==> Inv(s)
    {
      FineGives(s, fine);
      hide FollowCompares, ComparesWhy, Within, HostMay, Inv;
      why := ComparesRefused();
      if why != Took {
        return;
      }
      var fits := AllWithin(fine, s.arr * ONE_TICK);
      if !fits {
        return PastArr;
      }
      s := s.(want := fine, residue := ZERO, dither := true, alternate := false, countdown := 0,
              uif := false, uie := true);
      Follow();
    }

    method SetAll(ticks: Triple) returns (why: Why)
      modifies this
      ensures s == SetAllF(old(s), ticks) && why == SetAllWhy(old(s), ticks)
      ensures why == Took <==> HostMay(old(s)) && Within(ticks, old(s).arr)
      ensures why != Took ==> s == old(s)
      ensures why == Took ==>
                && s.ccr == ticks && s.duty == ticks && s.residue == ZERO
                && (forall k :: 0 <= k < 3 ==> s.want[k] == 65536 * ticks[k])
                && !s.dither && !s.alternate && s.countdown == 0 && (s.uie <==> old(s).skew != 0)
                && !s.open && s.outputs == (old(s).open || old(s).outputs)
                && s.half == old(s).half && s.skew == old(s).skew && s.deadtime == old(s).deadtime
      ensures Inv(old(s)) ==> Inv(s)
    {
      DutyGives(s, ticks);
      hide FollowCompares, UpdateIrq, ComparesWhy, Within, HostMay, Inv;
      why := ComparesRefused();
      if why != Took {
        return;
      }
      var fits := AllWithin(ticks, s.arr);
      if !fits {
        return PastArr;
      }
      s := s.(dither := false, alternate := false, countdown := 0,
              want := Scaled(ticks), residue := ZERO, ccr := ticks, duty := ticks);
      SetUpdateIrq(s.skew != 0);
      Follow();
    }

    method SetAllCounted(ticks: Triple, periods: nat) returns (why: Why)
      modifies this
      ensures s == CountedF(old(s), ticks, periods) && why == SetAllWhy(old(s), ticks)
      ensures why == Took <==> HostMay(old(s)) && Within(ticks, old(s).arr)
      ensures why != Took ==> s == old(s)
      ensures why == Took ==> s.ccr == ticks
      ensures why == Took && periods > 0 ==>
                s.countdown == periods && s.uie && !s.alternate && !s.dither
                && Left(s) == 2 * periods - if old(s).half then 1 else 0
      ensures Inv(old(s)) ==> Inv(s)
    {
      SetAllMay(s, ticks);
      CountedGives(s, ticks, periods);
      hide SetAllF, SetAllWhy, Inv, HostMay;
      why := SetAll(ticks);
      if why != Took {
        return;
      }
      if periods != 0 {
        s := s.(countdown := periods, uie := true);
      }
    }

    method SetAlternate(a: Triple, b: Triple, periods: nat) returns (why: Why)
      modifies this
      ensures s == AlternateF(old(s), a, b, periods) && why == AlternateWhy(old(s), a, b)
      ensures why == Took <==> HostMay(old(s)) && Within(a, old(s).arr) && Within(b, old(s).arr)
      ensures why != Took ==> s == old(s)
      ensures why == Took ==>
                && Written(s) == a && Coming(s) == b && s.ccr == a && s.alternate && s.uie && !s.uif
                && s.countdown == periods
      ensures why == Took && Inv(old(s)) ==> Alternating(s, FRESH)
      ensures Inv(old(s)) ==> Inv(s)
    {
      AlternateMay(s, a, b);
      AlternateGives(s, a, b, periods);
      if AlternateWhy(s, a, b) == Took { PairGives(s, a, b, periods); }
      hide FollowCompares, ComparesWhy, Within, Inv, HostMay, Alternating, Written, Coming;
      why := ComparesRefused();
      if why != Took {
        return;
      }
      var first := AllWithin(a, s.arr);
      var second := AllWithin(b, s.arr);
      if !first || !second {
        return PastArr;
      }
      s := s.(dither := false, countdown := periods, altA := a, altB := b, want := Scaled(a),
              residue := ZERO, duty := a, ccr := a, altNext := true, alternate := true,
              uif := false, uie := true);
      Follow();
    }

    // ---- the dead time ----

    method SetDeadTime(ns: nat) returns (why: Why)
      modifies this
      ensures s == DeadTimeF(old(s), ns) && why == DeadTimeWhy(old(s), ns)
      ensures why == Took ==>
                && DeadTimeNs(s) >= ns && 5 <= s.deadtime == s.dtg && s.deadtime + s.skew <= 127
                && forall c: nat :: c >= 5 && ns * 1000 <= c * 4210 ==> s.deadtime <= c
      ensures why != Took ==>
                && s == old(s)
                && forall c: nat ::
                     c >= 5 && ns * 1000 <= c * 4210 ==> c + s.skew > 127
      ensures Inv(old(s)) ==> Inv(s)
    {
      FloorIs();
      DeadTimeGives(s, ns);
      if Inv(s) { DeadTimeKeeps(s, ns); }
      hide Inv, DeadTimeNs;
      var counts := (ns * PS_PER_NS + PS_PER_COUNT - 1) / PS_PER_COUNT;
      if counts < FLOOR {
        counts := FLOOR;
      }
      if counts + s.skew > DTG_MAX {
        return PastLinear;
      }
      s := s.(deadtime := counts, dtg := counts);
      return Took;
    }

    method SetDeadTimeSkew(counts: int) returns (why: Why)
      modifies this
      ensures s == SkewF(old(s), counts) && why == SkewWhy(old(s), counts)
      ensures why == Took
              <==> 5 + Size(counts) <= old(s).deadtime && old(s).deadtime + Size(counts) <= 127
      ensures why == Took ==> s.skew == Size(counts) && Signed(s) == counts
      ensures why == Took ==> (counts == 0 ==> s.dtg == s.deadtime) && (counts != 0 ==> s.uie)
      ensures why != Took ==> s == old(s)
      ensures s.deadtime == old(s).deadtime
      ensures (Inv(old(s)) ==> Inv(s)) && (Window(old(s)) ==> Window(s))
    {
      hide SkewMode, SkewIrq, Inv, Window, Signed;
      SkewGives(s, counts);
      if SkewWhy(s, counts) == Took { SkewTaken(s, counts); }
      var size := if counts < 0 then -counts else counts;
      if s.deadtime - size < FLOOR {
        return UnderFloor;
      }
      if s.deadtime + size > DTG_MAX {
        return PastLinear;
      }
      s := s.(skew := size, skewUp := counts >= 0);
      FollowSkewMode();
      FollowSkewIrq();
      return Took;
    }

    /** The drive's mode follows the skew: any skew ends direct mode, none asks for it anew. */
    method FollowSkewMode()
      modifies this
      ensures s == SkewMode(old(s))
    {
      if s.driveOwns {
        if s.skew != 0 {
          LeaveDirectMode();
        } else if !s.direct {
          s := s.(toDirect := true);
        }
      }
    }

    method FollowSkewIrq()
      modifies this
      ensures s == SkewIrq(old(s))
    {
      hide UpdateIrq;
      var wanted := s.skew != 0 || s.dither || (s.driveOwns && !s.direct);
      if s.skew == 0 {
        s := s.(dtg := s.deadtime);
      }
      SetUpdateIrq(wanted);
    }

    // ---- the drive ----

    method TakeAll()
      modifies this
      ensures s == TakeCompares(old(s))
    {
      s := s.(dither := false, alternate := false, countdown := 0, nextPending := false,
              landed := false, driveOwns := true, toDirect := s.skew == 0, uif := false, uie := true);
    }

    method LetAllGo()
      modifies this
      ensures s == LetGo(old(s))
    {
      hide UpdateIrq;
      s := s.(outputs := false, open := true, ccr := ZERO, duty := ZERO);
      LeaveDirectMode();
      s := s.(driveOwns := false, nextPending := false, landed := false);
      SetUpdateIrq(s.skew != 0 || s.dither);
    }

    method DriveOwn(on: bool)
      modifies this
      ensures s == if on then TakeCompares(old(s)) else LetGo(old(s))
      ensures on ==>
                && s.driveOwns && s.uie && !s.dither && !s.alternate && s.countdown == 0
                && !s.nextPending && s.ccr == old(s).ccr && (s.toDirect <==> old(s).skew == 0)
      ensures !on ==>
                && s.open && !s.outputs && s.ccr == ZERO && s.duty == ZERO && !s.driveOwns
                && !s.direct && s.rcr == 0 && (s.uie <==> old(s).skew != 0 || old(s).dither)
    {
      TakeGives(s);
      DropGives(s);
      hide TakeCompares, LetGo;
      if on {
        TakeAll();
      } else {
        LetAllGo();
      }
    }

    /** The drive's triple, each leg held to the period. */
    method Clipped(ticks: Triple) returns (clipped: Triple)
      ensures clipped == Clip(ticks, s.arr)
    {
      clipped := ticks;
      for phase := 0 to PHASES
        invariant forall k :: 0 <= k < phase ==> clipped[k] == Min(ticks[k], s.arr)
        invariant forall k :: phase <= k < PHASES ==> clipped[k] == ticks[k]
      {
        if ticks[phase] > s.arr {
          clipped := clipped[phase := s.arr];
        }
      }
      assert clipped == Clip(ticks, s.arr);
    }

    method SetNext(ticks: Triple)
      modifies this
      ensures s == SetNextF(old(s), ticks)
      ensures forall k :: 0 <= k < 3 ==>
                s.next[k] == if ticks[k] > old(s).arr then old(s).arr else ticks[k]
      ensures old(s).direct ==>
                s.ccr == s.next && s.duty == s.next && s.nextPending == old(s).nextPending
      ensures !old(s).direct ==>
                s.nextPending && s.ccr == old(s).ccr && s.duty == old(s).duty
      ensures s.open == (old(s).open && !old(s).landed) && s.active == old(s).active
    {
      NextGives(s, ticks);
      hide Clip;
      if s.landed {
        Follow();
      }
      var clipped := Clipped(ticks);
      if s.direct {
        s := s.(next := clipped, ccr := clipped, duty := clipped);
        return;
      }
      s := s.(next := clipped, nextPending := true);
    }

    method OwnOnce()
      modifies this
      ensures s == OwnPwm(old(s))
    {
      hide TakeCompares;
      if s.owned {
        return;
      }
      DriveOwn(true);
      s := s.(owned := true);
    }

    /** The drive's interrupt, the law's answer given: the trip, the next triple, or the bridge let
        go. */
    method OnSample(ask: Ask)
      modifies this
      ensures s == TriggerF(old(s), ask)
      ensures ask.Trip? ==> Off(s) && !s.owned
      ensures !ask.Trip? && !(ask.Drive? && Enabled(old(s))) ==>
                if old(s).owned then
                  && s.open && !s.outputs && s.ccr == ZERO && !s.driveOwns && !s.owned
                  && s.arr == if ask.period >= 64 then ask.period else old(s).arr
                else s == old(s).(last := Trig)
      ensures Inv(old(s)) && old(s).last == Over ==> Inv(s)
      ensures Inv(old(s)) && old(s).last == Over && ask.Drive? && Enabled(old(s)) ==>
                var arr := if ask.period >= 64 then ask.period else old(s).arr;
                && s.owned && s.arr == arr && s.active == old(s).active
                && (old(s).direct ==> s.ccr == Clip(ask.ticks, arr))
                && (!old(s).direct ==>
                      s.ccr == old(s).ccr && s.nextPending && s.next == Clip(ask.ticks, arr))
    {
      SampleGives(s, ask);
      hide WithPeriod, LetGo, DisarmF, SetNextF, OwnPwm, Inv, Off, Clip;
      s := s.(last := Trig);
      if ask.Trip? {
        Disable();
        s := s.(owned := false);
      } else if ask.Drive? && s.armed && s.moe {
        var took := SetPeriod(ask.period);
        OwnOnce();
        SetNext(ask.ticks);
      } else if s.owned {
        var took := SetPeriod(ask.period);
        DriveOwn(false);
        s := s.(owned := false);
      }
    }

    // ---- the update interrupt ----

    /** One phase of the dither: the fraction carried, and a tick more when it makes one. */
    method DitherLeg(want: nat, residue: nat) returns (whole: nat, carried: nat)
      ensures whole == Min(DitherWhole(want, residue), s.arr) && carried == DitherResidue(want, residue)
    {
      whole := want / ONE_TICK;
      carried := residue + want % ONE_TICK;
      if carried >= ONE_TICK {
        carried := carried - ONE_TICK;
        whole := whole + 1;
      }
      if whole > s.arr {
        whole := s.arr;
      }
    }

    method Dither()
      modifies this
      ensures s == DitherStep(old(s))
      ensures !old(s).dither ==> s == old(s)
      ensures old(s).dither ==>
                forall k :: 0 <= k < 3 && old(s).residue[k] < 65536 ==>
                  Stepped(old(s).want[k], old(s).residue[k], s.ccr[k], s.residue[k], s.arr)
                  && s.duty[k] == s.ccr[k]
    {
      if s.dither { SigmaDelta(s); }
      hide DitherWhole, DitherResidue, Stepped;
      if !s.dither {
        return;
      }
      var carried, wholes := s.residue, s.duty;
      for phase := 0 to PHASES
        invariant s == old(s)
        invariant forall k :: 0 <= k < phase ==> carried[k] == DitherResidue(s.want[k], s.residue[k])
        invariant forall k :: 0 <= k < phase ==> wholes[k] == Min(DitherWhole(s.want[k], s.residue[k]), s.arr)
        invariant forall k :: phase <= k < PHASES ==> carried[k] == s.residue[k]
      {
        var whole, left := DitherLeg(s.want[phase], carried[phase]);
        carried, wholes := carried[phase := left], wholes[phase := whole];
      }
      assert carried == DitherResidues(s.want, s.residue);
      assert wholes == DitherDuty(s.want, s.residue, s.arr);
      s := s.(residue := carried, duty := wholes, ccr := wholes);
    }

    method HoldCountedDown() returns (out: bool)
      modifies this
      ensures s == HoldCounted(old(s)) && out == HoldOut(old(s))
    {
      if s.countdown == 0 || s.half {
        return false;
      }
      s := s.(countdown := s.countdown - 1);
      return s.countdown == 0;
    }

    method HoldRanOut()
      modifies this
      ensures s == HoldExpired(old(s))
    {
      hide UpdateIrq;
      s := s.(alternate := false, dither := false, ccr := ZERO, duty := ZERO, want := ZERO,
              residue := ZERO);
      if s.skew == 0 {
        SetUpdateIrq(false);
      }
    }

    method LandNextTriple()
      modifies this
      ensures s == LandNext(old(s))
    {
      if !s.nextPending || s.down {
        return;
      }
      s := s.(ccr := s.next, duty := s.next, nextPending := false, landed := true);
    }

    method EnterDirectMode()
      modifies this
      ensures s == EnterDirect(old(s))
    {
      if !s.toDirect || s.down {
        return;
      }
      s := s.(rcr := 1, direct := true, toDirect := false, uie := false);
    }

    method WriteAlternate()
      modifies this
      ensures s == AlternateWrite(old(s))
    {
      var t := if s.altNext then s.altB else s.altA;
      s := s.(ccr := t, duty := t, altNext := !s.altNext);
    }

    method WriteCompares()
      modifies this
      ensures s == Compares(old(s))
    {
      hide AlternateWrite, LandNext, EnterDirect, DitherStep;
      if s.alternate && s.down {
        WriteAlternate();
      } else if s.driveOwns {
        LandNextTriple();
        EnterDirectMode();
      } else if !s.half {
        Dither();
      }
    }

    method WriteSkew()
      modifies this
      ensures s == SkewWrite(old(s))
    {
      if s.skew != 0 {
        var dtg := HalfDtg(s);
        s := s.(dtg := dtg);
      }
    }

    method RunHold()
      modifies this
      ensures s == HoldPart(old(s))
    {
      hide HoldExpired, HoldCounted, HoldOut;
      var out := HoldCountedDown();
      if out {
        HoldRanOut();
      }
    }

    /** TIM1's update interrupt. */
    method OnUpdate()
      modifies this
      ensures s == Interrupt(old(s))
      ensures !old(s).uif ==> s == old(s)
      ensures old(s).uif ==> s.active == old(s).active && s.half == !old(s).half && !s.uif
      ensures old(s).uif && !old(s).driveOwns && Expiring(old(s)) ==> Spent(s)
      ensures old(s).uif && Inv(old(s)) && old(s).driveOwns && !old(s).down ==>
                s.ccr == if old(s).nextPending then old(s).next else old(s).ccr
      ensures (Inv(old(s)) ==> Inv(s)) && (Window(old(s)) ==> Window(s))
    {
      UpdateGives(s);
      hide HoldPart, Compares, SkewWrite, Inv, Window, Spent, Expiring;
      if !s.uif {
        return;
      }
      s := s.(uif := false, half := !s.half);
      RunHold();
      WriteCompares();
      WriteSkew();
    }

    // ---- the timer ----

    /** An overflow or an underflow: the count turns round, and an update is due once the repetition
        counter has reached nought. */
    method Turn(overflow: bool)
      modifies this
      ensures s == Update(old(s), overflow)
    {
      hide Interrupt, Inv, Window, Spent, Expiring;
      s := s.(down := overflow, last := if overflow then Over else Under);
      if s.rep != 0 {
        s := s.(rep := s.rep - 1);
        return;
      }
      s := s.(rep := s.rcr, active := s.ccr, uif := true);
      if s.uie {
        OnUpdate();
      }
    }

    /** An edge, and what it comes to. */
    method Edge(overflow: bool)
      modifies this
      ensures s == Update(old(s), overflow)
      ensures s.active == if old(s).rep == 0 then old(s).ccr else old(s).active
      ensures s.half == if old(s).rep == 0 && old(s).uie then !old(s).half else old(s).half
      ensures Inv(old(s)) && overflow == (old(s).last == Under) ==> Inv(s)
      ensures Window(old(s)) ==> Window(s)
    {
      hide Update, Inv, Window;
      TurnGives(s, overflow);
      Turn(overflow);
    }

    // ---- the whole machine ----

    /** Any event of the machine, by the method that serves it. */
    method Serve(e: Event)
      modifies this
      ensures s == Step(old(s), e)
    {
      hide SetAllF, FineF, CountedF, AlternateF, ArmF, DisarmF, BypassF, DeadTimeF, SkewF, BreakF,
           TriggerF, Update;
      var why;
      match e {
        case SetAll(t) => why := SetAll(t);
        case Fine(f) => why := SetAllFine(f);
        case Counted(t, n) => why := SetAllCounted(t, n);
        case Alternate(a, b, n) => why := SetAlternate(a, b, n);
        case Arm => why := Enable();
        case Disarm => Disable();
        case Bypass(on) => SetBreakBypass(on);
        case Clear => ClearFault();
        case DeadTime(ns) => why := SetDeadTime(ns);
        case Skew(c) => why := SetDeadTimeSkew(c);
        case Brk => BreakIn();
        case Trigger(ask) => OnSample(ask);
        case Overflow => Edge(true);
        case Underflow => Edge(false);
      }
    }

    /** BKIN active: with the break enabled it latches and takes MOE down. */
    method BreakIn()
      modifies this
      ensures s == BreakF(old(s))
      ensures old(s).bke ==> s.bif && !Enabled(s)
      ensures !old(s).bke ==> s == old(s)
    {
      if s.bke {
        s := s.(bif := true, moe := false);
      }
    }
  }
}
