/** The triples in force while the drive holds the compares: one trace, landed or direct, and
    exactly which skews and which arms break it. */
module GateTrace {
  import opened GateStage
  import opened GateOwner

  function Run(s: Stage, es: seq<Event>): Stage
    decreases |es|
  {
    if es == [] then s else Run(Step(s, es[0]), es[1..])
  }

  predicate LegalRun(s: Stage, es: seq<Event>)
    decreases |es|
  {
    es != [] ==> Legal(s, es[0]) && LegalRun(Step(s, es[0]), es[1..])
  }

  /** From the stage the board starts with, every run keeps the ownership invariant. */
  lemma {:induction false} RunKeeps(s: Stage, es: seq<Event>)
    requires Inv(s) && LegalRun(s, es)
    ensures Inv(Run(s, es))
    decreases |es|
  {
    hide Inv, Step, Legal;
    if es != [] {
      StepKeeps(s, es[0]);
      RunKeeps(Step(s, es[0]), es[1..]);
    }
  }

  /** What may happen between the timer's events and leave the drive's triples alone: duties
      (refused), the dead time and its skew, the break's calls. */
  predicate Quiet(e: Event) {
    !e.Arm? && !e.Disarm? && !e.Trigger? && !e.Overflow? && !e.Underflow?
  }

  /** Those calls, and the stage armed anew: all a host can do and the drive keep the compares. */
  predicate HostCall(e: Event) { Quiet(e) || e.Arm? }

  predicate AllHost(es: seq<Event>) { forall i :: 0 <= i < |es| ==> HostCall(es[i]) }

  /** An arm the stage takes, which writes zero into the compares. */
  predicate ArmTaken(s: Stage, e: Event) { e.Arm? && ArmWhy(s) == Took }

  predicate Rearmed(s: Stage, es: seq<Event>)
    decreases |es|
  {
    es != [] && (ArmTaken(s, es[0]) || Rearmed(Step(s, es[0]), es[1..]))
  }

  predicate Held(s: Stage) { Inv(s) && s.driveOwns }

  /** Nothing of the host's train has moved. */
  predicate SameTrain(s: Stage, t: Stage) {
    && t.countdown == s.countdown && t.half == s.half && t.ccr == s.ccr && t.duty == s.duty
    && t.dither == s.dither && t.want == s.want && t.residue == s.residue
    && t.alternate == s.alternate && t.altNext == s.altNext && t.altA == s.altA && t.altB == s.altB
    && t.arr == s.arr
  }

  /** The bridge's own state, neither opened nor closed. */
  predicate SameBridge(s: Stage, t: Stage) {
    t.open == s.open && t.outputs == s.outputs && t.landed == s.landed && t.armed == s.armed
  }

  /** Nothing of what the triples pass through has moved, and direct mode was not entered. */
  predicate SamePipe(s: Stage, t: Stage) {
    && t.last == s.last && t.rep == s.rep && t.active == s.active && t.ccr == s.ccr
    && t.next == s.next && t.nextPending == s.nextPending && t.arr == s.arr
    && t.owned == s.owned && t.driveOwns == s.driveOwns && (t.direct ==> s.direct)
    && SameBridge(s, t) && SameTrain(s, t)
  }

  /** The drive holding the compares, every host duty is refused and changes nothing. */
  lemma DutiesRefused(s: Stage, t: Triple, u: Triple, periods: nat)
    requires s.driveOwns
    ensures FineF(s, t) == SetAllF(s, t) == CountedF(s, t, periods) == AlternateF(s, t, u, periods) == s
  {
    assert ComparesWhy(s) != Took;
    hide ComparesWhy;
  }

  lemma IrqBridge(s: Stage, on: bool)
    ensures SamePipe(s, UpdateIrq(s, on))
  {
    if on {}
  }

  lemma FollowCloses(s: Stage)
    ensures var t := FollowCompares(s);
      !t.open && t.driveOwns == s.driveOwns && t.owned == s.owned
      && t.outputs == (s.outputs || s.open) && SameTrain(s, t)
  {
    if s.open {}
  }

  lemma IrqPipe(s: Stage, m: Stage)
    requires SamePipe(s, m)
    ensures SamePipe(s, SkewIrq(m)) && SkewIrq(m).direct == m.direct
  {
    if SkewWantsIrq(m) {}
    if m.skew == 0 {}
  }

  lemma SkewModePipe(s: Stage)
    ensures SamePipe(s, SkewMode(s))
  {
    if s.skew != 0 {}
    if s.direct {}
    if s.driveOwns {}
  }

  lemma SkewPipe(s: Stage, counts: int)
    ensures SamePipe(s, SkewF(s, counts))
  {
    hide SkewWhy, SkewMode, SkewIrq;
    var t := s.(skew := Size(counts), skewUp := counts >= 0);
    SkewModePipe(t);
    IrqPipe(t, SkewMode(t));
    if SkewWhy(s, counts) != Took {}
  }

  lemma DeadTimePipe(s: Stage, ns: nat)
    ensures SamePipe(s, DeadTimeF(s, ns)) && DeadTimeF(s, ns).direct == s.direct
            && DeadTimeF(s, ns).uie == s.uie
  {
    hide DeadTimeWhy, DeadTimeCounts;
    if DeadTimeWhy(s, ns) != Took {}
  }

  lemma BypassPipe(s: Stage, on: bool)
    ensures SamePipe(s, BypassF(s, on)) && BypassF(s, on).direct == s.direct
            && BypassF(s, on).uie == s.uie
  {
    if on {}
  }

  lemma BreakPipe(s: Stage)
    ensures SamePipe(s, BreakF(s)) && BreakF(s).direct == s.direct
            && BreakF(s).uie == s.uie
  {
    if s.bke {}
  }

  lemma FlagsPipe(s: Stage, e: Event)
    requires e.Bypass? || e.Clear? || e.DeadTime? || e.Skew? || e.Brk?
    ensures SamePipe(s, Step(s, e))
  {
    hide SkewF, DeadTimeF, BypassF, BreakF;
    match e
    case Skew(c) => SkewPipe(s, c);
    case DeadTime(ns) => DeadTimePipe(s, ns);
    case Bypass(on) => BypassPipe(s, on);
    case Clear => assert SamePipe(s, s.(bif := false));
    case Brk => BreakPipe(s);
  }

  lemma QuietStep(s: Stage, e: Event)
    requires Held(s) && Quiet(e)
    ensures Held(Step(s, e)) && SamePipe(s, Step(s, e))
  {
    assert Legal(s, e);
    hide Inv, SetAllF, FineF, CountedF, AlternateF, SkewF, DeadTimeF, BypassF, BreakF, Legal;
    StepKeeps(s, e);
    match e
    case SetAll(t) => DutiesRefused(s, t, t, 0);
    case Fine(t) => DutiesRefused(s, t, t, 0);
    case Counted(t, n) => DutiesRefused(s, t, t, n);
    case Alternate(a, b, n) => DutiesRefused(s, a, b, n);
    case Skew(c) => SkewPipe(s, c);
    case DeadTime(ns) => DeadTimePipe(s, ns);
    case Bypass(on) => BypassPipe(s, on);
    case Clear => assert SamePipe(s, s.(bif := false));
    case Brk => BreakPipe(s);
  }

  /** What the triples pass through, the compares apart. */
  predicate SameFlow(s: Stage, t: Stage) {
    && t.last == s.last && t.rep == s.rep && t.active == s.active && t.next == s.next
    && t.nextPending == s.nextPending && t.arr == s.arr && (t.direct ==> s.direct)
  }

  lemma ArmFlow(s: Stage)
    requires Held(s)
    ensures var t := ArmF(s);
      && Held(t) && SameFlow(s, t) && t.direct == s.direct
      && t.ccr == if ArmWhy(s) == Took then ZERO else s.ccr
  {
    ArmKeeps(s);
    hide Inv, ArmWhy;
    if ArmWhy(s) != Took {}
    if s.open {}
  }

  lemma HostStep(s: Stage, e: Event)
    requires Held(s) && HostCall(e)
    ensures var t := Step(s, e);
      Held(t) && SameFlow(s, t) && t.ccr == if ArmTaken(s, e) then ZERO else s.ccr
  {
    hide Held, ArmF, ArmWhy;
    if e.Arm? {
      ArmFlow(s);
    } else {
      QuietFlow(s, e);
    }
  }

  lemma QuietFlow(s: Stage, e: Event)
    requires Held(s) && Quiet(e)
    ensures Held(Step(s, e)) && SameFlow(s, Step(s, e)) && Step(s, e).ccr == s.ccr
  {
    hide Held, Step;
    QuietStep(s, e);
  }

  /** Over the host's calls the drive keeps the compares, and they keep their triple unless an arm
      was taken. */
  lemma {:induction false} HostRun(s: Stage, es: seq<Event>)
    requires Held(s) && AllHost(es)
    ensures var t := Run(s, es);
      Held(t) && SameFlow(s, t) && t.ccr == if Rearmed(s, es) then ZERO else s.ccr
    decreases |es|
  {
    hide Held, Step, HostCall, ArmTaken;
    if es != [] {
      HostStep(s, es[0]);
      HostRun(Step(s, es[0]), es[1..]);
    }
  }

  // ---- the timer's edges with the drive holding ----

  lemma OverflowHeld(s: Stage)
    requires Held(s) && s.last == Under
    ensures var t := Update(s, true);
      && Held(t) && t.last == Over && t.active == s.ccr && t.ccr == s.ccr
      && t.rep == (if s.direct then 1 else 0) && t.direct == s.direct && t.arr == s.arr
  {
    UpdateKeeps(s, true);
    assert s.rep == 0 && !s.alternate && !s.dither && s.countdown == 0 && s.rcr == if s.direct then 1 else 0;
    var l := Loaded(Turned(s, true));
    assert Update(s, true) == if s.uie then Interrupt(l) else l;
    HeldDown(l);
    hide Inv, Update, Interrupt;
    if s.uie {}
  }

  /** The interrupt past an overflow: the half turns and the dead time follows it, no more. */
  lemma HeldDown(s: Stage)
    requires s.driveOwns && !s.alternate && s.countdown == 0 && s.down && s.uif
    ensures Interrupt(s) == SkewWrite(s.(uif := false, half := !s.half))
  {
    var h := s.(uif := false, half := !s.half);
    assert HoldPart(h) == h;
    assert LandNext(h) == h && EnterDirect(h) == h;
  }

  lemma LandPipe(s: Stage)
    requires s.driveOwns && !s.down
    ensures var t := EnterDirect(LandNext(s));
      && t.active == s.active && t.arr == s.arr && t.last == s.last && t.driveOwns
      && t.ccr == if s.nextPending then s.next else s.ccr
  {
    if s.nextPending {}
    if LandNext(s).toDirect {}
    if LandNext(s).down {}
  }

  lemma SkewWritePipe(s: Stage)
    ensures SamePipe(s, SkewWrite(s)) && SkewWrite(s).direct == s.direct
  {
    if s.skew == 0 {}
    if s.half == s.skewUp {}
  }

  /** The interrupt past an underflow: the pending triple lands, and direct mode begins. */
  lemma HeldUp(s: Stage)
    requires s.driveOwns && !s.alternate && s.countdown == 0 && !s.down && s.uif
    ensures var t := Interrupt(s);
      && t.active == s.active && t.arr == s.arr && t.last == s.last && t.driveOwns
      && t.ccr == if s.nextPending then s.next else s.ccr
  {
    var h := s.(uif := false, half := !s.half);
    assert HoldPart(h) == h;
    LandPipe(h);
    SkewWritePipe(EnterDirect(LandNext(h)));
    hide HoldPart, LandNext, EnterDirect, SkewWrite;
  }

  /** An edge behind one that loaded the repetition counter: no update at all. */
  lemma UpdateSpent(s: Stage, overflow: bool)
    requires s.rep != 0
    ensures Update(s, overflow) == Turned(s, overflow).(rep := s.rep - 1)
  {
    assert Turned(s, overflow).rep == s.rep;
    hide Interrupt, Loaded;
  }

  lemma UpdateInterrupts(s: Stage, overflow: bool)
    requires s.rep == 0 && s.uie
    ensures Update(s, overflow) == Interrupt(Loaded(Turned(s, overflow)))
  {
    assert Turned(s, overflow).rep == 0 && Turned(s, overflow).uie;
    hide Interrupt, Loaded;
  }

  lemma UpdateSilent(s: Stage, overflow: bool)
    requires s.rep == 0 && !s.uie
    ensures Update(s, overflow) == Loaded(Turned(s, overflow))
  {
    assert Turned(s, overflow).rep == 0 && !Turned(s, overflow).uie;
    hide Interrupt, Loaded;
  }

  /** An underflow the repetition counter swallows moves nothing the triples pass through. */
  lemma UnderflowSpent(s: Stage)
    requires s.rep == 1
    ensures var t := Update(s, false);
      && t.last == Under && t.arr == s.arr && t.active == s.active && t.ccr == s.ccr
      && t.driveOwns == s.driveOwns
  {
    hide Update;
    UpdateSpent(s, false);
  }

  lemma UnderflowLands(s: Stage)
    requires s.driveOwns && s.rep == 0 && s.uie && !s.alternate && s.countdown == 0
    ensures var t := Update(s, false);
      && t.last == Under && t.arr == s.arr && t.active == s.ccr && t.driveOwns
      && t.ccr == if s.nextPending then s.next else s.ccr
  {
    hide Update, Interrupt;
    UpdateInterrupts(s, false);
    HeldUp(Loaded(Turned(s, false)));
  }

  lemma UnderflowHeld(s: Stage)
    requires Held(s) && s.last != Under
    ensures var t := Update(s, false);
      && Held(t) && t.last == Under && t.arr == s.arr
      && t.active == (if s.rep == 1 then s.active else s.ccr)
      && t.ccr == if s.rep == 1 || !s.nextPending then s.ccr else s.next
  {
    UpdateKeeps(s, false);
    assert s.rep == 1 || (s.rep == 0 && s.uie && !s.alternate && s.countdown == 0);
    hide Inv, Update;
    if s.rep == 1 {
      UnderflowSpent(s);
    } else {
      UnderflowLands(s);
    }
  }

  // ---- whole periods ----

  /** One PWM period with the drive at work, from just past an underflow to just past the next:
      what the host does before the overflow, between it and the trigger, and after; and what the
      drive hands in. */
  datatype Period = Period(rise: seq<Event>, hold: seq<Event>, fall: seq<Event>, arr: nat, ticks: Triple)

  function AtOver(s: Stage, p: Period): Stage { Update(Run(s, p.rise), true) }

  function AtTrigger(s: Stage, p: Period): Stage { Run(AtOver(s, p), p.hold) }

  function Handed(s: Stage, p: Period): Stage { TriggerF(AtTrigger(s, p), Drive(p.arr, p.ticks)) }

  function AtUnder(s: Stage, p: Period): Stage { Run(Handed(s, p), p.fall) }

  function PeriodEnd(s: Stage, p: Period): Stage { Update(AtUnder(s, p), false) }

  /** The drive's period: any host call but a disarm, and the stage enabled when the trigger
      comes. */
  predicate Driven(s: Stage, p: Period) {
    AllHost(p.rise) && AllHost(p.hold) && AllHost(p.fall) && Enabled(AtTrigger(s, p))
  }

  /** An arm taken before the overflow, between it and the trigger, and after the trigger. */
  predicate ArmRise(s: Stage, p: Period) { Rearmed(s, p.rise) }

  predicate ArmHold(s: Stage, p: Period) { Rearmed(AtOver(s, p), p.hold) }

  predicate ArmFall(s: Stage, p: Period) { Rearmed(Handed(s, p), p.fall) }

  /** The triple in the compares goes through the period untouched: no arm before its overflow,
      and, landed, none before the underflow either. */
  predicate Untorn(s: Stage, p: Period) {
    !ArmRise(s, p) && (AtOver(s, p).direct || (!ArmHold(s, p) && !ArmFall(s, p)))
  }

  /** The triple handed in takes its place: not swallowed by a skew, and, written straight in, not
      zeroed by an arm behind it. */
  predicate Placed(s: Stage, p: Period) {
    !Swallowed(s, p) && !(AtTrigger(s, p).direct && ArmFall(s, p))
  }

  /** What is in the compares where it does not. */
  function Leftover(s: Stage, p: Period): Triple {
    if Swallowed(s, p) && !ArmRise(s, p) && !ArmHold(s, p) && !ArmFall(s, p) then s.ccr else ZERO
  }

  /** The period the drive's triple comes with: its own, or the one in place. */
  function ArrOf(arr: nat, p: Period): nat { if p.arr >= 64 then p.arr else arr }

  /** What the drive's triple becomes, held to that period. */
  function Given(arr: nat, p: Period): Triple { Clip(p.ticks, ArrOf(arr, p)) }

  /** Each leg is its own, whole where it fits the period and the period's end where it does not. */
  lemma GivenHolds(arr: nat, p: Period, k: nat)
    requires k < PHASES
    ensures var most := ArrOf(arr, p);
      Given(arr, p)[k] == if p.ticks[k] <= most then p.ticks[k] else most
  {
    assert k == 0 || k == 1 || k == 2;
  }

  /** A skew set between the overflow and the trigger broke direct mode off: the repetition counter
      the overflow loaded swallows the underflow the triple would have landed at. */
  predicate Swallowed(s: Stage, p: Period) { AtOver(s, p).direct && !AtTrigger(s, p).direct }

  lemma TriggerOwned(s: Stage, period: nat, ticks: Triple)
    requires Enabled(s) && s.owned
    ensures TriggerF(s, Drive(period, ticks)) == SetNextF(WithPeriod(s.(last := Trig), period), ticks)
  {
    hide SetNextF, WithPeriod;
    assert Enabled(s.(last := Trig));
    PeriodFields(s.(last := Trig), period);
  }

  lemma PeriodFields(s: Stage, period: nat)
    ensures WithPeriod(s, period) == if period >= 64 then s.(arr := period) else s
    ensures WithPeriod(s, period).owned == s.owned && WithPeriod(s, period).driveOwns == s.driveOwns
    ensures SameBridge(s, WithPeriod(s, period))
  {
    if period >= 64 {}
  }

  lemma IdleTrigger(s: Stage, ask: Ask)
    requires !ask.Trip? && !(ask.Drive? && Enabled(s)) && !s.owned
    ensures TriggerF(s, ask) == s.(last := Trig)
  {
    assert Enabled(s.(last := Trig)) == Enabled(s);
    hide SetNextF, OwnPwm, LetGo, DisarmF;
  }

  lemma DropTrigger(s: Stage, ask: Ask)
    requires !ask.Trip? && !(ask.Drive? && Enabled(s)) && s.owned
    ensures TriggerF(s, ask) == LetGo(WithPeriod(s.(last := Trig), ask.period)).(owned := false)
  {
    assert Enabled(s.(last := Trig)) == Enabled(s);
    hide SetNextF, OwnPwm, LetGo, DisarmF, WithPeriod;
  }

  lemma HandedHeld(s: Stage, period: nat, ticks: Triple)
    requires Held(s) && s.last == Over && Enabled(s)
    ensures var t := TriggerF(s, Drive(period, ticks));
      && Held(t) && t.last == Trig && t.active == s.active && t.rep == s.rep
      && t.direct == s.direct && t.arr == (if period >= 64 then period else s.arr)
      && t.next == Clip(ticks, if period >= 64 then period else s.arr)
      && (s.direct ==> t.ccr == t.next)
      && (!s.direct ==> t.ccr == s.ccr && t.nextPending)
  {
    TriggerKeeps(s, Drive(period, ticks));
    assert s.owned && s.driveOwns;
    hide Inv, Clip, SetNextF, TriggerF, WithPeriod;
    TriggerOwned(s, period, ticks);
    PeriodFields(s.(last := Trig), period);
    if period >= 64 {
      NextFields(s.(last := Trig).(arr := period), ticks);
    } else {
      NextFields(s.(last := Trig), ticks);
    }
  }

  lemma NextFields(s: Stage, ticks: Triple)
    ensures var t := SetNextF(s, ticks);
      && t.last == s.last && t.active == s.active && t.rep == s.rep && t.direct == s.direct
      && t.driveOwns == s.driveOwns && t.arr == s.arr && t.next == Clip(ticks, s.arr)
      && (s.direct ==> t.ccr == t.next)
      && (!s.direct ==> t.ccr == s.ccr && t.nextPending)
  {
    hide Clip;
    if s.landed {}
    if s.open {}
    if s.direct {}
  }

  /** One driven period, whatever the host does in it but a disarm. The triple in the compares is
      in force from the overflow - or zero, an arm taken first - and to the period's end if
      untorn; and the one handed in takes its place in the compares exactly when placed. */
  lemma OnePeriod(s: Stage, p: Period)
    requires Held(s) && s.last == Under && Driven(s, p)
    ensures Held(PeriodEnd(s, p)) && PeriodEnd(s, p).last == Under
    ensures AtOver(s, p).active == AtTrigger(s, p).active == Handed(s, p).active
            == AtUnder(s, p).active == if ArmRise(s, p) then ZERO else s.ccr
    ensures PeriodEnd(s, p).active
            == if AtOver(s, p).direct || (!ArmHold(s, p) && !ArmFall(s, p)) then AtOver(s, p).active
               else ZERO
    ensures PeriodEnd(s, p).arr == ArrOf(s.arr, p)
    ensures PeriodEnd(s, p).ccr == if Placed(s, p) then Given(s.arr, p) else Leftover(s, p)
  {
    hide Inv, Clip, Update, TriggerF, AllHost, Run, Held, Rearmed, Enabled;
    HostRun(s, p.rise);
    OverflowHeld(Run(s, p.rise));
    HostRun(AtOver(s, p), p.hold);
    HandedHeld(AtTrigger(s, p), p.arr, p.ticks);
    HostRun(Handed(s, p), p.fall);
    UnderflowHeld(AtUnder(s, p));
    CounterOf(AtTrigger(s, p));
  }

  /** When the triple in the compares is in force from its overflow to the next, all through. */
  lemma TripleWhole(s: Stage, p: Period)
    requires Held(s) && s.last == Under && Driven(s, p)
    ensures AtOver(s, p).active == s.ccr && PeriodEnd(s, p).active == s.ccr
            <==> Untorn(s, p) || s.ccr == ZERO
  {
    hide Held, Driven, AtOver, Handed, AtTrigger, AtUnder, PeriodEnd, ArmRise, ArmHold, ArmFall,
         Given, Leftover, Placed;
    OnePeriod(s, p);
  }

  /** Between an overflow and the underflow, direct mode means the counter is loaded. */
  lemma CounterOf(s: Stage)
    requires Held(s) && s.last != Under
    ensures s.direct ==> s.rep == 1
  {
  }

  // ---- runs of periods ----

  function RunPeriods(s: Stage, ps: seq<Period>): Stage
    decreases |ps|
  {
    if ps == [] then s else RunPeriods(PeriodEnd(s, ps[0]), ps[1..])
  }

  predicate AllDriven(s: Stage, ps: seq<Period>)
    decreases |ps|
  {
    ps != [] ==> Driven(s, ps[0]) && AllDriven(PeriodEnd(s, ps[0]), ps[1..])
  }

  /** The triple in the compares untorn and the one handed in placed, or no difference made. */
  predicate Sound(s: Stage, p: Period) {
    && (Untorn(s, p) || s.ccr == ZERO)
    && (Placed(s, p) || Leftover(s, p) == Given(s.arr, p))
  }

  predicate AllSound(s: Stage, ps: seq<Period>)
    decreases |ps|
  {
    ps != [] ==> Sound(s, ps[0]) && AllSound(PeriodEnd(s, ps[0]), ps[1..])
  }

  /** The triple in the compares in force from its overflow to the next, and the one handed in
      behind it there. */
  predicate Shown(s: Stage, p: Period) {
    && AtOver(s, p).active == s.ccr && PeriodEnd(s, p).active == s.ccr
    && PeriodEnd(s, p).ccr == Given(s.arr, p)
  }

  predicate AllShown(s: Stage, ps: seq<Period>)
    decreases |ps|
  {
    ps != [] ==> Shown(s, ps[0]) && AllShown(PeriodEnd(s, ps[0]), ps[1..])
  }

  /** The triple in force at each overflow still in force just past the underflow. */
  predicate Through(s: Stage, ps: seq<Period>)
    decreases |ps|
  {
    ps != [] ==> && PeriodEnd(s, ps[0]).active == AtOver(s, ps[0]).active
                 && Through(PeriodEnd(s, ps[0]), ps[1..])
  }

  /** The triple in force over each period, from its overflow to the next. */
  function InForce(s: Stage, ps: seq<Period>): (r: seq<Triple>)
    ensures |r| == |ps|
    decreases |ps|
  {
    if ps == [] then [] else [AtOver(s, ps[0]).active] + InForce(PeriodEnd(s, ps[0]), ps[1..])
  }

  /** What the drive handed in, which is all the compares should ever show: no mode in sight. */
  function Asked(arr: nat, ps: seq<Period>): (r: seq<Triple>)
    ensures |r| == |ps|
    decreases |ps|
  {
    if ps == [] then [] else [Given(arr, ps[0])] + Asked(ArrOf(arr, ps[0]), ps[1..])
  }

  lemma ShownWhen(s: Stage, p: Period)
    requires Held(s) && s.last == Under && Driven(s, p)
    ensures Shown(s, p) <==> Sound(s, p)
    ensures Held(PeriodEnd(s, p)) && PeriodEnd(s, p).last == Under
            && PeriodEnd(s, p).arr == ArrOf(s.arr, p)
  {
    hide Held, Driven, AtOver, PeriodEnd, Given, ArrOf, ArmRise, ArmHold, ArmFall, Untorn, Placed,
         Leftover;
    TripleWhole(s, p);
    OnePeriod(s, p);
  }

  /** Over any run of driven periods, however skews switch the mode and arms zero the compares:
      every triple is in force for its whole period and the one handed in next stands behind it,
      if and only if every period is sound. And then, whichever the mode, the triple handed in
      after overflow k is the one in force from overflow k+1 to overflow k+2. */
  lemma {:induction false} OneTrace(s: Stage, ps: seq<Period>)
    requires Held(s) && s.last == Under && AllDriven(s, ps)
    ensures AllShown(s, ps) <==> AllSound(s, ps)
    ensures AllSound(s, ps) ==>
              && InForce(s, ps) == ([s.ccr] + Asked(s.arr, ps))[..|ps|]
              && RunPeriods(s, ps).ccr == ([s.ccr] + Asked(s.arr, ps))[|ps|] && Through(s, ps)
    decreases |ps|
  {
    hide Held, Driven, Sound, AtOver, PeriodEnd, Given, ArrOf;
    if ps == [] {
    } else {
      ShownWhen(s, ps[0]);
      OneTrace(PeriodEnd(s, ps[0]), ps[1..]);
    }
  }

  /** Two sound runs handed the same triples show the same trace, one direct and the other
      landed. */
  lemma ModesAgree(s: Stage, ps: seq<Period>, t: Stage, qs: seq<Period>)
    requires Held(s) && s.last == Under && AllDriven(s, ps) && AllSound(s, ps)
    requires Held(t) && t.last == Under && AllDriven(t, qs) && AllSound(t, qs)
    requires s.ccr == t.ccr && Asked(s.arr, ps) == Asked(t.arr, qs)
    ensures InForce(s, ps) == InForce(t, qs)
  {
    hide Held, AllDriven, AllSound, Asked, InForce, RunPeriods;
    OneTrace(s, ps);
    OneTrace(t, qs);
  }

  // ---- taking the compares ----

  /** The first triple: taken at a trigger, landed at the underflow behind it, and the drive in
      direct mode from there unless a skew is set. */
  lemma TakingLands(s: Stage, period: nat, ticks: Triple, fall: seq<Event>)
    requires Inv(s) && s.last == Over && !s.owned && Enabled(s) && AllHost(fall)
    ensures var t := Update(Run(TriggerF(s, Drive(period, ticks)), fall), false);
      Held(t) && t.last == Under && t.ccr == Clip(ticks, if period >= 64 then period else s.arr)
  {
    hide Inv, Clip, Update, TriggerF, AllHost, Run, Held, Enabled, Rearmed;
    TakingPends(s, period, ticks);
    HostRun(TriggerF(s, Drive(period, ticks)), fall);
    UnderflowHeld(Run(TriggerF(s, Drive(period, ticks)), fall));
  }

  /** And the whole of it, from the taking on: over sound periods behind that underflow the triple
      taken with is in force over the first, and each one handed in over the one behind its own. */
  lemma TraceFromTaking(s: Stage, period: nat, ticks: Triple, fall: seq<Event>, ps: seq<Period>)
    requires Inv(s) && s.last == Over && !s.owned && Enabled(s) && AllHost(fall)
    requires var u := Update(Run(TriggerF(s, Drive(period, ticks)), fall), false);
      AllDriven(u, ps) && AllSound(u, ps)
    ensures var u := Update(Run(TriggerF(s, Drive(period, ticks)), fall), false);
            var first := Clip(ticks, if period >= 64 then period else s.arr);
      InForce(u, ps) == ([first] + Asked(u.arr, ps))[..|ps|] && Through(u, ps)
  {
    hide Inv, Clip, Update, TriggerF, AllHost, Run, Held, Enabled, AllDriven, AllSound, Asked, InForce,
         Through, RunPeriods;
    TakingLands(s, period, ticks, fall);
    OneTrace(Update(Run(TriggerF(s, Drive(period, ticks)), fall), false), ps);
  }

  /** The period in place when the drive hands in its triple of period `i`. */
  function ArrAt(arr: nat, ps: seq<Period>, i: nat): nat
    requires i <= |ps|
    decreases |ps|
  {
    if i == 0 then arr else ArrAt(ArrOf(arr, ps[0]), ps[1..], i - 1)
  }

  lemma {:induction false} AskedAt(arr: nat, ps: seq<Period>, i: nat)
    requires i < |ps|
    ensures Asked(arr, ps)[i] == Given(ArrAt(arr, ps, i), ps[i])
    decreases |ps|
  {
    hide Given, ArrOf;
    if i > 0 {
      AskedAt(ArrOf(arr, ps[0]), ps[1..], i - 1);
    }
  }

  /** Leg by leg, over a sound run: what each period but the first shows is what the one before it was
      asked for, whole where it fits the period it came with and that period's end where it does not. */
  lemma LegShown(s: Stage, ps: seq<Period>, i: nat, k: nat)
    requires Held(s) && s.last == Under && AllDriven(s, ps) && AllSound(s, ps)
    requires i + 1 < |ps| && k < PHASES
    ensures var most := ArrOf(ArrAt(s.arr, ps, i), ps[i]);
            var leg := InForce(s, ps)[i + 1][k];
      leg == if ps[i].ticks[k] <= most then ps[i].ticks[k] else most
  {
    hide Held, AllDriven, AllSound, Given, ArrOf, ArrAt, InForce, Asked, RunPeriods;
    OneTrace(s, ps);
    AskedAt(s.arr, ps, i);
    assert InForce(s, ps)[i + 1] == ([s.ccr] + Asked(s.arr, ps))[i + 1];
    GivenHolds(ArrAt(s.arr, ps, i), ps[i], k);
  }

  lemma TriggerTakes(s: Stage, period: nat, ticks: Triple)
    requires Enabled(s) && !s.owned
    ensures TriggerF(s, Drive(period, ticks))
            == SetNextF(TakeCompares(WithPeriod(s.(last := Trig), period)).(owned := true), ticks)
  {
    hide SetNextF, WithPeriod, TakeCompares;
    assert Enabled(s.(last := Trig));
    PeriodFields(s.(last := Trig), period);
  }

  lemma TakenPends(s: Stage, ticks: Triple)
    requires !s.direct
    ensures var t := SetNextF(TakeCompares(s).(owned := true), ticks);
      t.driveOwns && t.last == s.last && t.rep == s.rep && t.nextPending && t.next == Clip(ticks, s.arr)
  {
    hide Clip, SetNextF, TakeCompares;
    TakeFields(s);
    NextFields(TakeCompares(s).(owned := true), ticks);
  }

  lemma TakingFields(s: Stage, period: nat, ticks: Triple)
    requires !s.owned && !s.direct && Enabled(s)
    ensures var t := TriggerF(s, Drive(period, ticks));
      && t.driveOwns && t.last == Trig && t.rep == s.rep && t.nextPending
      && t.next == Clip(ticks, if period >= 64 then period else s.arr)
  {
    hide Clip, SetNextF, WithPeriod, TakeCompares, TriggerF;
    TriggerTakes(s, period, ticks);
    PeriodFields(s.(last := Trig), period);
    if period >= 64 {
      TakenPends(s.(last := Trig).(arr := period), ticks);
    } else {
      TakenPends(s.(last := Trig), ticks);
    }
  }

  lemma TakingPends(s: Stage, period: nat, ticks: Triple)
    requires Inv(s) && s.last == Over && !s.owned && Enabled(s)
    ensures var t := TriggerF(s, Drive(period, ticks));
      && Held(t) && t.last == Trig && t.rep == 0 && t.nextPending
      && t.next == Clip(ticks, if period >= 64 then period else s.arr)
  {
    TriggerKeeps(s, Drive(period, ticks));
    assert s.rep == 0 && !s.direct;
    hide Inv, Clip, TriggerF, Enabled;
    TakingFields(s, period, ticks);
  }

  lemma TakeFields(s: Stage)
    ensures var t := TakeCompares(s);
      && t.rep == s.rep && t.direct == s.direct && t.last == s.last && t.arr == s.arr && t.driveOwns
      && t.owned == s.owned
  {
  }

  // ---- the triple lost ----

  lemma SkewPeriod(s: Stage, counts: int, arr: nat, ticks: Triple)
    ensures var p := Period([], [Skew(counts)], [], arr, ticks);
      && AtOver(s, p) == Update(s, true) && AtTrigger(s, p) == SkewF(Update(s, true), counts)
      && AllHost(p.rise) && AllHost(p.hold) && AllHost(p.fall)
      && !ArmRise(s, p) && !ArmHold(s, p) && !ArmFall(s, p)
  {
    hide Update, Run, SkewF, Rearmed;
    RunNone(s);
    RunOne(Update(s, true), Skew(counts));
    var p := Period([], [Skew(counts)], [], arr, ticks);
    OneArm(AtOver(s, p), Skew(counts));
    NoArm(s);
    NoArm(Handed(s, p));
  }

  lemma NoArm(s: Stage)
    ensures !Rearmed(s, [])
  {
  }

  lemma OneArm(s: Stage, e: Event)
    ensures Rearmed(s, [e]) == ArmTaken(s, e)
  {
    hide Step, ArmTaken;
    assert [e][1..] == [];
    NoArm(Step(s, e));
  }

  lemma SkewSwallows(s: Stage, counts: int, arr: nat, ticks: Triple)
    requires Held(s) && s.last == Under && s.direct && Enabled(s)
    requires counts != 0 && SkewWhy(Update(s, true), counts) == Took
    ensures var p := Period([], [Skew(counts)], [], arr, ticks);
      && Driven(s, p) && Swallowed(s, p) && PeriodEnd(s, p).ccr == s.ccr
  {
    var p := Period([], [Skew(counts)], [], arr, ticks);
    SkewPeriod(s, counts, arr, ticks);
    OverflowHeld(s);
    HeldOwns(Update(s, true));
    OverflowArmed(s);
    hide Update, Held, SkewF, Run, Enabled, SkewWhy, AtOver, AtTrigger, PeriodEnd;
    SkewBreaks(AtOver(s, p), counts);
    OnePeriod(s, p);
  }

  lemma RunNone(s: Stage)
    ensures Run(s, []) == s
  {
  }

  lemma RunTwo(s: Stage, a: Event, b: Event)
    ensures Run(s, [a, b]) == Step(Step(s, a), b)
  {
    hide Step;
    assert [a, b][1..] == [b];
    RunOne(Step(s, a), b);
  }

  lemma RunThree(s: Stage, a: Event, b: Event, c: Event)
    ensures Run(s, [a, b, c]) == Step(Step(Step(s, a), b), c)
  {
    hide Step;
    assert [a, b, c][1..] == [b, c];
    RunTwo(Step(s, a), b, c);
  }

  lemma RunFour(s: Stage, a: Event, b: Event, c: Event, d: Event)
    ensures Run(s, [a, b, c, d]) == Step(Step(Step(Step(s, a), b), c), d)
  {
    hide Step;
    assert [a, b, c, d][1..] == [b, c, d];
    RunThree(Step(s, a), b, c, d);
  }

  lemma RunFive(s: Stage, a: Event, b: Event, c: Event, d: Event, e: Event)
    ensures Run(s, [a, b, c, d, e]) == Step(Step(Step(Step(Step(s, a), b), c), d), e)
  {
    hide Step;
    assert [a, b, c, d, e][1..] == [b, c, d, e];
    RunFour(Step(s, a), b, c, d, e);
  }

  lemma RunOne(s: Stage, e: Event)
    ensures Run(s, [e]) == Step(s, e)
  {
    hide Step;
    assert [e][1..] == [];
    RunNone(Step(s, e));
  }

  lemma HeldOwns(s: Stage)
    requires Held(s)
    ensures s.driveOwns
  {
  }

  lemma SkewBreaks(s: Stage, counts: int)
    requires s.driveOwns && counts != 0 && SkewWhy(s, counts) == Took
    ensures !SkewF(s, counts).direct && Enabled(SkewF(s, counts)) == Enabled(s)
  {
    var t := s.(skew := Size(counts), skewUp := counts >= 0);
    assert t.skew != 0;
    hide SkewWhy;
    if SkewWantsIrq(LeaveDirect(t)) {}
  }

  lemma OverflowArmed(s: Stage)
    requires Held(s) && s.last == Under
    ensures Enabled(Update(s, true)) == Enabled(s)
  {
    var l := Loaded(Turned(s, true));
    assert s.rep == 0 && !s.alternate && s.countdown == 0;
    HeldDown(l);
    hide Inv, Interrupt;
    assert Update(s, true) == if s.uie then Interrupt(l) else l;
    if l.skew == 0 {}
  }

  /** Some skew other than zero accepted along the run. */
  predicate Skewed(s: Stage, es: seq<Event>)
    decreases |es|
  {
    es != [] && (SkewTaken(s, es[0]) || Skewed(Step(s, es[0]), es[1..]))
  }

  predicate SkewTaken(s: Stage, e: Event) { e.Skew? && e.counts != 0 && SkewWhy(s, e.counts) == Took }

  lemma ModeStays(s: Stage)
    requires s.skew == 0
    ensures SkewMode(s).direct == s.direct
  {
    if s.driveOwns {}
    if s.direct {}
  }

  lemma SkewStays(s: Stage, counts: int)
    requires s.driveOwns && s.direct && (counts == 0 || SkewWhy(s, counts) != Took)
    ensures SkewF(s, counts).direct
  {
    hide SkewWhy, SkewIrq, SkewMode;
    if SkewWhy(s, counts) == Took {
      var t := s.(skew := Size(counts), skewUp := counts >= 0);
      ModeStays(t);
      SkewModePipe(t);
      IrqPipe(t, SkewMode(t));
    }
  }

  lemma FlagsDirect(s: Stage, e: Event)
    requires Quiet(e) && s.driveOwns && !e.Skew?
    ensures Step(s, e).direct == s.direct
  {
    hide SetAllF, FineF, CountedF, AlternateF, SkewF, DeadTimeF, BypassF, BreakF;
    match e
    case SetAll(t) => DutiesRefused(s, t, t, 0);
    case Fine(t) => DutiesRefused(s, t, t, 0);
    case Counted(t, n) => DutiesRefused(s, t, t, n);
    case Alternate(a, b, n) => DutiesRefused(s, a, b, n);
    case DeadTime(ns) => DeadTimePipe(s, ns);
    case Bypass(on) => BypassPipe(s, on);
    case Clear =>
    case Brk => BreakPipe(s);
  }

  lemma QuietDirect(s: Stage, e: Event)
    requires Held(s) && Quiet(e) && s.direct
    ensures Step(s, e).direct <==> !SkewTaken(s, e)
  {
    HeldOwns(s);
    hide SkewF, SkewWhy, Held;
    if e.Skew? {
      if SkewTaken(s, e) { SkewBreaks(s, e.counts); } else { SkewStays(s, e.counts); }
    } else {
      FlagsDirect(s, e);
    }
  }

  lemma HostDirect(s: Stage, e: Event)
    requires Held(s) && HostCall(e) && s.direct
    ensures Step(s, e).direct <==> !SkewTaken(s, e)
  {
    hide Held, SkewWhy, ArmF, SkewF;
    if e.Arm? {
      ArmFlow(s);
    } else {
      QuietDirect(s, e);
    }
  }

  /** Direct mode outlives the host's calls exactly when none of them sets a skew. */
  lemma {:induction false} DirectSurvives(s: Stage, es: seq<Event>)
    requires Held(s) && AllHost(es)
    ensures Run(s, es).direct <==> s.direct && !Skewed(s, es)
    decreases |es|
  {
    HostRun(s, es);
    hide Held, Step, HostCall, SkewTaken, Rearmed;
    if es != [] && s.direct {
      HostStep(s, es[0]);
      HostDirect(s, es[0]);
      DirectSurvives(Step(s, es[0]), es[1..]);
    }
  }

  /** When a triple is lost, by the events of its period. The drive direct at the overflow: to a
      skew set before the trigger, or to an arm taken behind it. The drive landing: never. And a
      lost triple is missed unless it is the one the compares are left with. */
  lemma TripleKept(s: Stage, p: Period)
    requires Held(s) && s.last == Under && Driven(s, p)
    ensures var direct := AtOver(s, p).direct;
            PeriodEnd(s, p).ccr == Given(s.arr, p)
            <==> || !(direct && (Skewed(AtOver(s, p), p.hold) || ArmFall(s, p)))
                 || Leftover(s, p) == Given(s.arr, p)
  {
    OnePeriod(s, p);
    SwallowedWhen(s, p);
    hide Held, Run, Update, Skewed, PeriodEnd, Enabled, AllHost, Given, AtOver, AtTrigger, Handed,
         ArmFall, ArmRise, ArmHold, Leftover;
  }

  /** Which it is: a skew in the hold swallows, direct mode stands without one. */
  lemma SwallowedWhen(s: Stage, p: Period)
    requires Held(s) && s.last == Under && Driven(s, p)
    ensures Swallowed(s, p) <==> AtOver(s, p).direct && Skewed(AtOver(s, p), p.hold)
    ensures AtTrigger(s, p).direct <==> AtOver(s, p).direct && !Skewed(AtOver(s, p), p.hold)
  {
    hide Held, Run, Update, Skewed, PeriodEnd, Enabled, AllHost, Rearmed;
    HostRun(s, p.rise);
    OverflowHeld(Run(s, p.rise));
    DirectSurvives(AtOver(s, p), p.hold);
  }

  // ---- and it happens ----

  lemma ArmFirst(s: Stage)
    requires Initial(s)
    ensures var t := ArmF(s);
      && Inv(t) && Enabled(t) && t.rep == 1 && t.last == Under && !t.owned && t.skew == 0
      && t.deadtime == CUBE_DTG && t.arr == s.arr && !t.bif
  {
    InitialInv(s);
    ArmKeeps(s);
  }

  lemma TurnFirst(s: Stage)
    requires Inv(s) && s.rep == 1 && s.last == Under
    ensures var t := Update(s, true);
      && Inv(t) && t == Turned(s, true).(rep := 0) && t.last == Over && t.rep == 0
      && t.owned == s.owned && Enabled(t) == Enabled(s)
  {
    UpdateKeeps(s, true);
    hide Inv, Update;
    UpdateSpent(s, true);
  }

  lemma TakeFirst(s: Stage, ticks: Triple)
    requires Inv(s) && s.last == Over && !s.owned && Enabled(s) && s.skew == 0
    ensures var t := TriggerF(s, Drive(0, ticks));
      && t.toDirect && t.skew == 0 && t.deadtime == s.deadtime && t.arr == s.arr && t.armed && t.moe
      && t.bif == s.bif
  {
    hide Inv, Clip, SetNextF, WithPeriod, TakeCompares, TriggerF;
    TriggerTakes(s, 0, ticks);
    var u := s.(last := Trig);
    PeriodFields(u, 0);
    TakeMode(u);
    NextMode(TakeCompares(u).(owned := true), ticks);
  }

  lemma TakeMode(s: Stage)
    requires s.skew == 0
    ensures var t := TakeCompares(s);
      && t.toDirect && t.skew == 0 && t.deadtime == s.deadtime && t.arr == s.arr
      && t.armed == s.armed && t.moe == s.moe && t.bif == s.bif
  {
  }

  lemma NextMode(s: Stage, ticks: Triple)
    ensures var t := SetNextF(s, ticks);
      && t.toDirect == s.toDirect && t.skew == s.skew && t.deadtime == s.deadtime && t.arr == s.arr
      && t.armed == s.armed && t.moe == s.moe && t.bif == s.bif
  {
    hide Clip;
    if s.landed {}
    if s.open {}
    if s.direct {}
  }

  /** The underflow that lands an unskewed drive's triple begins direct mode. */
  lemma DirectBegins(s: Stage)
    requires Held(s) && s.last != Under && s.rep == 0 && s.toDirect
    ensures var t := Update(s, false);
      && t.direct && t.skew == 0 && t.deadtime == s.deadtime && t.armed == s.armed && t.moe == s.moe
      && t.bif == s.bif
  {
    assert s.uie && !s.alternate && s.countdown == 0 && s.skew == 0;
    hide Inv, Update, Interrupt;
    UpdateInterrupts(s, false);
    DirectIn(Loaded(Turned(s, false)));
  }

  lemma DirectIn(s: Stage)
    requires s.driveOwns && !s.alternate && s.countdown == 0 && !s.down && s.uif && s.toDirect
    requires s.skew == 0
    ensures var t := Interrupt(s);
      && t.direct && t.skew == 0 && t.deadtime == s.deadtime && t.armed == s.armed && t.moe == s.moe
      && t.bif == s.bif
  {
    var h := s.(uif := false, half := !s.half);
    assert HoldPart(h) == h;
    if s.nextPending {}
    hide HoldPart;
  }

  /** The drive direct, four steps from the start: armed, an overflow, its first triple, and the
      underflow behind it. */
  lemma DirectReached(s: Stage, ticks: Triple)
    requires Initial(s)
    ensures var t := Update(TriggerF(Update(ArmF(s), true), Drive(0, ticks)), false);
      && Run(s, [Arm, Overflow, Trigger(Drive(0, ticks)), Underflow]) == t
      && Held(t) && t.last == Under && t.direct && Enabled(t) && t.ccr == Clip(ticks, s.arr)
      && t.skew == 0 && t.deadtime == CUBE_DTG && t.arr == s.arr && !t.bif
  {
    FourSteps(s, Drive(0, ticks));
    hide Inv, ArmF, Update, TriggerF, Clip, Run;
    ArmFirst(s);
    var a := ArmF(s);
    TurnFirst(a);
    var o := Update(a, true);
    TakingPends(o, 0, ticks);
    TakeFirst(o, ticks);
    var g := TriggerF(o, Drive(0, ticks));
    UnderflowHeld(g);
    DirectBegins(g);
  }

  lemma FourSteps(s: Stage, ask: Ask)
    ensures Run(s, [Arm, Overflow, Trigger(ask), Underflow])
            == Update(TriggerF(Update(ArmF(s), true), ask), false)
  {
    hide ArmF, Update, TriggerF, Run;
    RunFour(s, Arm, Overflow, Trigger(ask), Underflow);
  }

  /** One count of skew set at the wrong moment, and the triple handed in after it is never in
      force: the one before it runs a second period. */
  lemma TripleLost(s: Stage)
    requires Initial(s)
    ensures var u := Run(s, [Arm, Overflow, Trigger(Drive(0, [1, 1, 1])), Underflow]);
            var p := Period([], [Skew(1)], [], 0, [2, 2, 2]);
      && Held(u) && u.last == Under && Driven(u, p)
      && PeriodEnd(u, p).ccr == [1, 1, 1] && Given(u.arr, p) == [2, 2, 2]
  {
    DirectReached(s, [1, 1, 1]);
    var u := Run(s, [Arm, Overflow, Trigger(Drive(0, [1, 1, 1])), Underflow]);
    assert Clip([1, 1, 1], s.arr) == [1, 1, 1];
    assert Clip([2, 2, 2], s.arr) == [2, 2, 2];
    hide Update, Held, Run, Driven, PeriodEnd, Enabled, Swallowed, TriggerF, ArmF;
    OverflowDead(u);
    SkewSwallows(u, 1, 0, [2, 2, 2]);
  }

  lemma OverflowDead(s: Stage)
    requires Held(s) && s.last == Under && s.direct && s.deadtime == CUBE_DTG
    ensures SkewWhy(Update(s, true), 1) == Took
  {
    assert s.rep == 0 && !s.uie;
    hide Inv, Update;
    UpdateSilent(s, true);
  }
}
