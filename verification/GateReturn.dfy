/** The bridge after the drive lets go: open, and switching again only for an arm, a host duty,
    or a triple the drive handed in and which is already in force. */
module GateReturn {
  import opened GateStage
  import opened GateOwner
  import opened GateTrace

  /** A stage and the triples the drive has handed in since it took the compares. */
  datatype Watch = Watch(s: Stage, handed: set<Triple>)

  predicate HandsIn(s: Stage, e: Event) { e.Trigger? && e.ask.Drive? && Enabled(s) }

  function HandedIn(w: Watch, e: Event): set<Triple> {
    if HandsIn(w.s, e) then
      (if w.s.owned then w.handed else {})
      + {Clip(e.ask.ticks, if e.ask.period >= 64 then e.ask.period else w.s.arr)}
    else w.handed
  }

  function WatchStep(w: Watch, e: Event): Watch { Watch(Step(w.s, e), HandedIn(w, e)) }

  /** What waits to land is the drive's, and so is what has landed behind an open bridge. */
  predicate Ours(s: Stage, handed: set<Triple>) {
    && (s.driveOwns && s.nextPending ==> s.next in handed)
    && (s.open && s.landed && s.armed ==>
          s.driveOwns && s.ccr in handed && (s.last != Under ==> s.active in handed))
  }

  lemma PipeOurs(s: Stage, t: Stage, handed: set<Triple>)
    requires Ours(s, handed) && SamePipe(s, t)
    ensures Ours(t, handed)
  {
  }

  // ---- the host's duties ----

  lemma DutyCloses(s: Stage, e: Event)
    requires e.SetAll? || e.Fine? || e.Counted? || e.Alternate?
    ensures Step(s, e) == s || (!Step(s, e).driveOwns && !Step(s, e).open)
  {
    hide SetAllWhy, FineWhy, AlternateWhy;
    match e
    case SetAll(t) => SetAllCloses(s, t);
    case Fine(t) => FineCloses(s, t);
    case Counted(t, n) => CountedCloses(s, t, n);
    case Alternate(a, b, n) => AlternateCloses(s, a, b, n);
  }

  lemma TookUnowned(s: Stage, t: Triple)
    requires SetAllWhy(s, t) == Took
    ensures !s.driveOwns && Enabled(s)
  {
  }

  lemma SetAllCloses(s: Stage, t: Triple)
    ensures SetAllWhy(s, t) != Took ==> SetAllF(s, t) == s
    ensures SetAllWhy(s, t) == Took ==> !SetAllF(s, t).driveOwns && !SetAllF(s, t).open
  {
    hide SetAllWhy, UpdateIrq, FollowCompares;
    if SetAllWhy(s, t) == Took {
      TookUnowned(s, t);
      var u := s.(dither := false, alternate := false, countdown := 0, want := Scaled(t),
                  residue := ZERO, ccr := t, duty := t);
      IrqBridge(u, s.skew != 0);
      FollowCloses(UpdateIrq(u, s.skew != 0));
    }
  }

  lemma CountedCloses(s: Stage, t: Triple, n: nat)
    ensures var r := CountedF(s, t, n); r == s || (!r.driveOwns && !r.open)
  {
    hide SetAllF, SetAllWhy;
    SetAllCloses(s, t);
    if SetAllWhy(s, t) == Took && n != 0 {}
  }

  lemma FineCloses(s: Stage, t: Triple)
    ensures FineF(s, t) == s || (!FineF(s, t).driveOwns && !FineF(s, t).open)
  {
    if FineWhy(s, t) == Took {
      assert !s.driveOwns;
      hide FineWhy;
      if s.open {}
    }
  }

  lemma AlternateCloses(s: Stage, a: Triple, b: Triple, n: nat)
    ensures var r := AlternateF(s, a, b, n); r == s || (!r.driveOwns && !r.open)
  {
    if AlternateWhy(s, a, b) == Took {
      assert !s.driveOwns;
      hide AlternateWhy;
      if s.open {}
    }
  }

  lemma ArmCloses(s: Stage)
    ensures ArmF(s) == s || (!ArmF(s).open && ArmF(s).driveOwns == s.driveOwns
                             && ArmF(s).next == s.next && ArmF(s).nextPending == s.nextPending)
  {
    hide ArmWhy;
    if ArmWhy(s) != Took {}
    if s.open {}
  }

  // ---- the drive's trigger ----


  lemma TripOurs(s: Stage, handed: set<Triple>)
    ensures Ours(TriggerF(s, Trip), handed)
  {
  }

  lemma LetGoOpen(s: Stage)
    ensures LetGo(s).open && !LetGo(s).outputs && !LetGo(s).landed && !LetGo(s).driveOwns
  {
    if s.skew != 0 {}
    if s.dither {}
  }

  lemma DropOurs(s: Stage, ask: Ask, handed: set<Triple>)
    requires !ask.Trip? && !(ask.Drive? && Enabled(s)) && s.owned
    ensures Ours(TriggerF(s, ask), handed)
  {
    DropTrigger(s, ask);
    hide LetGo, WithPeriod, TriggerF;
    LetGoOpen(WithPeriod(s.(last := Trig), ask.period));
  }

  /** The drive's triple: what has landed closes the bridge, and what is new is its own. */
  lemma NextBridge(s: Stage, ticks: Triple)
    ensures var t := SetNextF(s, ticks);
      && t.landed == s.landed && t.open == (s.open && !s.landed)
      && t.outputs == (s.outputs || (s.open && s.landed))
      && t.driveOwns == s.driveOwns && t.next == Clip(ticks, s.arr)
  {
    hide Clip;
    if s.landed {}
    if s.open {}
    if s.direct {}
  }

  lemma NextOurs(s: Stage, period: nat, ticks: Triple, handed: set<Triple>)
    requires Inv(s) && Ours(s, handed) && Enabled(s)
    ensures Ours(TriggerF(s, Drive(period, ticks)),
                 HandedIn(Watch(s, handed), Trigger(Drive(period, ticks))))
  {
    hide Inv, Clip, SetNextF, TakeCompares, WithPeriod, TriggerF, Enabled;
    var t := s.(last := Trig);
    PeriodFields(t, period);
    if s.owned {
      TriggerOwned(s, period, ticks);
    } else {
      TriggerTakes(s, period, ticks);
    }
    if period >= 64 {
      NextBridge(t.(arr := period), ticks);
      TakeFields(t.(arr := period));
      TakeLands(t.(arr := period));
      NextBridge(TakeCompares(t.(arr := period)).(owned := true), ticks);
    } else {
      NextBridge(t, ticks);
      TakeFields(t);
      TakeLands(t);
      NextBridge(TakeCompares(t).(owned := true), ticks);
    }
  }

  lemma IdleOurs(s: Stage, ask: Ask, handed: set<Triple>)
    requires Inv(s) && Ours(s, handed)
    requires !ask.Trip? && !(ask.Drive? && Enabled(s)) && !s.owned
    ensures Ours(TriggerF(s, ask), handed)
  {
    assert !s.driveOwns;
    hide Inv, TriggerF;
    IdleTrigger(s, ask);
  }

  lemma TriggerOurs(s: Stage, ask: Ask, handed: set<Triple>)
    requires Inv(s) && Ours(s, handed)
    ensures Ours(TriggerF(s, ask), HandedIn(Watch(s, handed), Trigger(ask)))
  {
    hide Inv, Ours, Clip, TriggerF, Enabled;
    if HandsIn(s, Trigger(ask)) {
      NextOurs(s, ask.period, ask.ticks, handed);
    } else if ask.Trip? {
      TripOurs(s, handed);
    } else if s.owned {
      DropOurs(s, ask, handed);
    } else {
      IdleOurs(s, ask, handed);
    }
  }

  lemma TakeLands(s: Stage)
    ensures !TakeCompares(s).landed && TakeCompares(s).open == s.open && TakeCompares(s).outputs == s.outputs
  {
  }

  // ---- the timer's edges ----

  lemma ExpiredBridge(s: Stage)
    ensures SameBridge(s, HoldExpired(s)) && HoldExpired(s).driveOwns == s.driveOwns
  {
    if s.skew == 0 {}
  }

  lemma CountedBridge(s: Stage)
    ensures SameBridge(s, HoldCounted(s)) && HoldCounted(s).driveOwns == s.driveOwns
  {
    if s.countdown == 0 {}
    if s.half {}
  }

  lemma HoldBridge(s: Stage)
    ensures SameBridge(s, HoldPart(s)) && HoldPart(s).driveOwns == s.driveOwns
  {
    hide HoldCounted, HoldExpired, HoldOut;
    CountedBridge(s);
    ExpiredBridge(HoldCounted(s));
    if HoldOut(s) {}
  }

  lemma AlternateBridge(s: Stage)
    ensures SameBridge(s, AlternateWrite(s)) && AlternateWrite(s).driveOwns == s.driveOwns
  {
    if s.altNext {}
  }

  lemma DitherBridge(s: Stage)
    ensures SameBridge(s, DitherStep(s)) && DitherStep(s).driveOwns == s.driveOwns
  {
    hide DitherDuty, DitherResidues;
    if s.dither {}
  }

  lemma ComparesBridge(s: Stage)
    requires !s.driveOwns
    ensures var t := Compares(s); SameBridge(s, t) && !t.driveOwns
  {
    hide AlternateWrite, DitherStep;
    AlternateBridge(s);
    DitherBridge(s);
    if s.alternate && s.down {}
    if s.half {}
  }

  /** Without the drive the interrupt moves nothing of the bridge's. */
  lemma HostInterrupt(s: Stage)
    requires !s.driveOwns
    ensures SameBridge(s, Interrupt(s)) && !Interrupt(s).driveOwns
  {
    hide HoldPart, Compares, SkewWrite;
    var t := s.(uif := false, half := !s.half);
    HoldBridge(t);
    ComparesBridge(HoldPart(t));
    SkewWritePipe(Compares(HoldPart(t)));
    if s.uif {}
  }

  lemma SpentBridge(s: Stage, overflow: bool)
    requires s.rep != 0
    ensures SameBridge(s, Update(s, overflow)) && Update(s, overflow).driveOwns == s.driveOwns
  {
    hide Update;
    UpdateSpent(s, overflow);
  }

  lemma InterruptBridge(s: Stage, overflow: bool)
    requires !s.driveOwns && s.rep == 0 && s.uie
    ensures SameBridge(s, Update(s, overflow)) && !Update(s, overflow).driveOwns
  {
    hide Interrupt, Update;
    UpdateInterrupts(s, overflow);
    HostInterrupt(Loaded(Turned(s, overflow)));
  }

  lemma SilentBridge(s: Stage, overflow: bool)
    requires s.rep == 0 && !s.uie
    ensures SameBridge(s, Update(s, overflow)) && Update(s, overflow).driveOwns == s.driveOwns
  {
    hide Update;
    UpdateSilent(s, overflow);
  }

  lemma HostUpdate(s: Stage, overflow: bool)
    requires !s.driveOwns
    ensures SameBridge(s, Update(s, overflow)) && !Update(s, overflow).driveOwns
  {
    hide SameBridge, Update;
    if s.rep != 0 {
      SpentBridge(s, overflow);
    } else if s.uie {
      InterruptBridge(s, overflow);
    } else {
      SilentBridge(s, overflow);
    }
  }

  lemma OverflowOurs(s: Stage, handed: set<Triple>)
    requires Inv(s) && Ours(s, handed) && s.last == Under
    ensures Ours(Update(s, true), handed)
  {
    hide Inv, Update;
    if s.driveOwns {
      OverflowHeld(s);
      OverflowWaits(s);
    } else {
      HostUpdate(s, true);
    }
  }

  lemma OverflowWaits(s: Stage)
    requires Held(s) && s.last == Under
    ensures var t := Update(s, true);
      SameBridge(s, t) && t.next == s.next && t.nextPending == s.nextPending
  {
    var l := Loaded(Turned(s, true));
    assert s.rep == 0 && !s.alternate && s.countdown == 0;
    HeldDown(l);
    SkewWritePipe(l.(uif := false, half := !l.half));
    hide Inv, Interrupt, SkewWrite;
    assert Update(s, true) == if s.uie then Interrupt(l) else l;
    if s.uie {}
  }

  lemma LandBridge(s: Stage)
    requires s.driveOwns && !s.alternate && s.countdown == 0 && !s.down && s.uif
    ensures var t := Interrupt(s);
      && t.open == s.open && t.armed == s.armed && t.outputs == s.outputs && !t.nextPending
      && t.landed == (s.landed || s.nextPending)
  {
    var h := s.(uif := false, half := !s.half);
    assert HoldPart(h) == h;
    LandedBridge(h);
    SkewWritePipe(EnterDirect(LandNext(h)));
    hide HoldPart, LandNext, EnterDirect, SkewWrite;
  }

  lemma LandedBridge(s: Stage)
    requires s.driveOwns && !s.down
    ensures var t := EnterDirect(LandNext(s));
      && t.open == s.open && t.armed == s.armed && t.outputs == s.outputs && !t.nextPending
      && t.landed == (s.landed || s.nextPending)
  {
    if s.nextPending {}
    if LandNext(s).toDirect {}
    if LandNext(s).down {}
  }

  lemma UnderflowOurs(s: Stage, handed: set<Triple>)
    requires Inv(s) && Ours(s, handed) && s.last != Under
    ensures Ours(Update(s, false), handed)
  {
    hide Inv, Update;
    if s.driveOwns {
      UnderflowHeld(s);
      UnderflowLanded(s);
    } else {
      HostUpdate(s, false);
    }
  }

  lemma UnderflowLanded(s: Stage)
    requires Held(s) && s.last != Under
    ensures var t := Update(s, false);
      && t.open == s.open && t.armed == s.armed && t.outputs == s.outputs
      && (s.rep == 1 ==> t.landed == s.landed && t.next == s.next && t.nextPending == s.nextPending)
      && (s.rep != 1 ==> t.landed == (s.landed || s.nextPending) && !t.nextPending)
  {
    assert s.rep == 1 || (s.rep == 0 && s.uie && !s.alternate && s.countdown == 0);
    hide Inv, Interrupt, Update;
    if s.rep == 1 {
      UpdateSpent(s, false);
    } else {
      UpdateInterrupts(s, false);
      LandBridge(Loaded(Turned(s, false)));
    }
  }

  // ---- every step, every run ----

  lemma DutyOurs(s: Stage, e: Event, handed: set<Triple>)
    requires Ours(s, handed) && (e.SetAll? || e.Fine? || e.Counted? || e.Alternate?)
    ensures Ours(Step(s, e), handed)
  {
    hide Step;
    DutyCloses(s, e);
  }

  lemma ArmOurs(s: Stage, handed: set<Triple>)
    requires Ours(s, handed)
    ensures Ours(ArmF(s), handed) && Ours(DisarmF(s), handed)
  {
    hide ArmF;
    ArmCloses(s);
  }

  lemma FlagsOurs(s: Stage, e: Event, handed: set<Triple>)
    requires Ours(s, handed) && (e.Bypass? || e.Clear? || e.DeadTime? || e.Skew? || e.Brk?)
    ensures Ours(Step(s, e), handed)
  {
    hide Step, Ours, SamePipe;
    FlagsPipe(s, e);
    PipeOurs(s, Step(s, e), handed);
  }

  lemma WatchKeeps(w: Watch, e: Event)
    requires Inv(w.s) && Ours(w.s, w.handed) && Legal(w.s, e)
    ensures Inv(WatchStep(w, e).s) && Ours(WatchStep(w, e).s, WatchStep(w, e).handed)
  {
    hide Inv, Ours, ArmF, DisarmF, TriggerF, Update;
    StepKeeps(w.s, e);
    if e.Trigger? {
      TriggerOurs(w.s, e.ask, w.handed);
    } else if e.Overflow? {
      OverflowOurs(w.s, w.handed);
    } else if e.Underflow? {
      UnderflowOurs(w.s, w.handed);
    } else if e.Arm? || e.Disarm? {
      ArmOurs(w.s, w.handed);
    } else if e.SetAll? || e.Fine? || e.Counted? || e.Alternate? {
      DutyOurs(w.s, e, w.handed);
    } else {
      FlagsOurs(w.s, e, w.handed);
    }
  }

  // ---- when the outputs come back ----

  /** Outside the drive's trigger the outputs come back for an arm or a host duty only. */
  lemma NoReturn(s: Stage, e: Event)
    requires Inv(s) && Legal(s, e) && !s.outputs
    requires !e.Trigger? && !e.Arm? && !e.SetAll? && !e.Fine? && !e.Counted? && !e.Alternate?
    ensures !Step(s, e).outputs
  {
    hide Inv, Update, SamePipe;
    if e.Overflow? {
      EdgeShut(s, true);
    } else if e.Underflow? {
      EdgeShut(s, false);
    } else if !e.Disarm? {
      FlagsShut(s, e);
    }
  }

  lemma FlagsShut(s: Stage, e: Event)
    requires (e.Bypass? || e.Clear? || e.DeadTime? || e.Skew? || e.Brk?)
    ensures Step(s, e).outputs == s.outputs
  {
    hide Step;
    FlagsPipe(s, e);
  }

  lemma EdgeShut(s: Stage, overflow: bool)
    requires Inv(s) && overflow == (s.last == Under) && !s.outputs
    ensures !Update(s, overflow).outputs
  {
    hide Inv, Update;
    if !s.driveOwns {
      HostUpdate(s, overflow);
    } else if overflow {
      OverflowWaits(s);
    } else {
      UnderflowLanded(s);
    }
  }

  lemma DropShut(s: Stage, ask: Ask)
    requires !ask.Trip? && !(ask.Drive? && Enabled(s)) && s.owned
    ensures !TriggerF(s, ask).outputs
  {
    hide TriggerF, LetGo, WithPeriod;
    DropTrigger(s, ask);
    LetGoOpen(WithPeriod(s.(last := Trig), ask.period));
  }

  lemma IdleShut(s: Stage, ask: Ask)
    requires !ask.Trip? && !(ask.Drive? && Enabled(s)) && !s.owned
    ensures TriggerF(s, ask).outputs == s.outputs
  {
    hide TriggerF;
    IdleTrigger(s, ask);
  }

  lemma ShutOpen(s: Stage)
    requires Inv(s) && !s.outputs
    ensures s.open
  {
  }

  lemma TriggerReturn(s: Stage, ask: Ask)
    requires Inv(s) && !s.outputs && TriggerF(s, ask).outputs
    ensures HandsIn(s, Trigger(ask)) && s.open && s.landed
  {
    hide Inv, TriggerF, Enabled;
    ShutOpen(s);
    if HandsIn(s, Trigger(ask)) {
      NextReturn(s, ask.period, ask.ticks);
    } else if ask.Trip? {
      TripShut(s);
    } else if s.owned {
      DropShut(s, ask);
    } else {
      IdleShut(s, ask);
    }
  }

  lemma TripShut(s: Stage)
    ensures TriggerF(s, Trip).outputs == s.outputs
  {
  }

  lemma NextReturn(s: Stage, period: nat, ticks: Triple)
    requires Enabled(s)
    ensures TriggerF(s, Drive(period, ticks)).outputs ==> s.outputs || (s.open && s.landed)
  {
    hide Clip, SetNextF, TakeCompares, WithPeriod, TriggerF, Enabled;
    var t := s.(last := Trig);
    PeriodFields(t, period);
    if s.owned {
      TriggerOwned(s, period, ticks);
      NextBridge(WithPeriod(t, period), ticks);
    } else {
      TriggerTakes(s, period, ticks);
      TakeLands(WithPeriod(t, period));
      NextBridge(TakeCompares(WithPeriod(t, period)).(owned := true), ticks);
    }
  }

  /** Behind an open bridge the outputs come back for an arm, for a host duty, or at a trigger of
      the drive's with one of the triples it has handed in since it took the compares already in
      force. */
  lemma OutputsReturn(w: Watch, e: Event)
    requires Inv(w.s) && Ours(w.s, w.handed) && Legal(w.s, e)
    requires !w.s.outputs && Step(w.s, e).outputs
    ensures e.Arm? || e.SetAll? || e.Fine? || e.Counted? || e.Alternate?
            || (HandsIn(w.s, e) && w.s.active in w.handed)
  {
    hide Inv, Update, TriggerF;
    if e.Trigger? {
      TriggerReturn(w.s, e.ask);
    } else if !(e.Arm? || e.SetAll? || e.Fine? || e.Counted? || e.Alternate?) {
      NoReturn(w.s, e);
    }
  }

  function WatchRun(w: Watch, es: seq<Event>): Watch
    decreases |es|
  {
    if es == [] then w else WatchRun(WatchStep(w, es[0]), es[1..])
  }

  /** And that for every step of every run from the stage the board starts with. */
  lemma {:induction false} WatchRunKeeps(w: Watch, es: seq<Event>)
    requires Inv(w.s) && Ours(w.s, w.handed) && LegalRun(w.s, es)
    ensures var v := WatchRun(w, es); v.s == Run(w.s, es) && Inv(v.s) && Ours(v.s, v.handed)
    decreases |es|
  {
    hide Inv, Ours, Step, Legal, HandedIn;
    if es != [] {
      WatchKeeps(w, es[0]);
      WatchRunKeeps(WatchStep(w, es[0]), es[1..]);
    }
  }

  lemma OutputsReturnRun(s: Stage, es: seq<Event>, e: Event)
    requires Initial(s) && LegalRun(s, es) && Legal(Run(s, es), e)
    requires !Run(s, es).outputs && Step(Run(s, es), e).outputs
    ensures e.Arm? || e.SetAll? || e.Fine? || e.Counted? || e.Alternate?
            || (HandsIn(Run(s, es), e) && Run(s, es).active in WatchRun(Watch(s, {}), es).handed)
  {
    InitialInv(s);
    hide Inv, Step, Legal, HandsIn, Run, LegalRun;
    assert Ours(s, {});
    hide Ours;
    WatchRunKeeps(Watch(s, {}), es);
    OutputsReturn(WatchRun(Watch(s, {}), es), e);
  }

  // ---- the glue's flag without the stage's ----

  /** At a trigger with the stage armed the drive holds the compares after it exactly if it did
      before or the glue did not think so: a disarm and an arm between two triggers leave the glue
      owning compares the stage has taken back. */
  lemma TakesHold(s: Stage, period: nat, ticks: Triple)
    requires Enabled(s)
    ensures TriggerF(s, Drive(period, ticks)).driveOwns <==> s.driveOwns || !s.owned
  {
    hide Clip, SetNextF, TakeCompares, WithPeriod, TriggerF, Enabled;
    var t := s.(last := Trig);
    PeriodFields(t, period);
    if s.owned {
      TriggerOwned(s, period, ticks);
      NextBridge(WithPeriod(t, period), ticks);
    } else {
      TriggerTakes(s, period, ticks);
      TakeFields(WithPeriod(t, period));
      NextBridge(TakeCompares(WithPeriod(t, period)).(owned := true), ticks);
    }
  }
}
