/** The host's own trains on the stage: the counted hold, the alternating triples and the dither,
    over every run in which nothing ends them: no new request, no disarm, and no trigger that trips
    or takes the compares. */
module GateHold {
  import opened GateStage
  import opened GateOwner
  import opened GateTrace

  /** What may happen and end no train: refused calls, an arm, the dead time and its skew, the break,
      the timer's edges, and a trigger that neither trips nor takes the compares - one the drive
      does nothing at, lets go at, or hands a triple in at over compares it has lost. */
  predicate Calm(s: Stage, e: Event) {
    match e
    case SetAll(t) => SetAllWhy(s, t) != Took
    case Fine(t) => FineWhy(s, t) != Took
    case Counted(t, n) => SetAllWhy(s, t) != Took
    case Alternate(a, b, n) => AlternateWhy(s, a, b) != Took
    case Disarm => false
    case Trigger(ask) => !ask.Trip? && !(ask.Drive? && Enabled(s) && !s.owned)
    case _ => true
  }

  predicate IsEdge(e: Event) { e.Overflow? || e.Underflow? }

  /** An update whose interrupt runs. */
  predicate Fires(s: Stage, e: Event) { IsEdge(e) && s.rep == 0 && s.uie }

  /** The compares are the host's to write. */
  predicate Hosts(s: Stage) { Inv(s) && !s.driveOwns }

  /** A trigger the drive lets go at, its flag up. */
  predicate Drops(s: Stage, e: Event) {
    e.Trigger? && !e.ask.Trip? && s.owned && !(e.ask.Drive? && Enabled(s))
  }

  /** What writes zero into the compares and ends no train: an arm taken, and a let-go. */
  predicate Zeroes(s: Stage, e: Event) { ArmTaken(s, e) || Drops(s, e) }

  /** The period a calm step leaves: a trigger's own while the glue's flag is up. */
  function ArrAfter(s: Stage, e: Event): nat {
    if e.Trigger? && !e.ask.Trip? && s.owned && e.ask.period >= 64 then e.ask.period else s.arr
  }

  /** The trains themselves, apart from what they have written. */
  predicate SameSetup(s: Stage, t: Stage) {
    && t.countdown == s.countdown && t.half == s.half && t.dither == s.dither && t.want == s.want
    && t.residue == s.residue && t.alternate == s.alternate && t.altNext == s.altNext
    && t.altA == s.altA && t.altB == s.altB
  }

  predicate SameTimer(s: Stage, t: Stage) {
    t.active == s.active && t.rep == s.rep && (t.last == Under <==> s.last == Under)
  }

  // ---- steps that are no edges ----

  lemma CalmRefused(s: Stage, e: Event)
    requires Calm(s, e) && (e.SetAll? || e.Fine? || e.Counted? || e.Alternate?)
    ensures Step(s, e) == s
  {
    hide SetAllWhy, FineWhy, AlternateWhy;
    match e
    case SetAll(t) =>
    case Fine(t) =>
    case Counted(t, n) => if SetAllWhy(s, t) == Took {}
    case Alternate(a, b, n) =>
  }

  /** Behind a calm step, as the step's own branch has it. */
  predicate CalmTo(s: Stage, t: Stage, zeroed: bool, arr: nat, uie: bool) {
    && SameSetup(s, t) && SameTimer(s, t) && t.arr == arr && t.uie == uie
    && t.ccr == (if zeroed then ZERO else s.ccr) && t.duty == if zeroed then ZERO else s.duty
  }

  lemma PipeCalm(s: Stage, t: Stage)
    requires SamePipe(s, t)
    ensures CalmTo(s, t, false, s.arr, t.uie) && t.driveOwns == s.driveOwns
  {
  }

  lemma ArmCalm(s: Stage)
    ensures var t := ArmF(s);
      CalmTo(s, t, ArmWhy(s) == Took, s.arr, s.uie) && t.driveOwns == s.driveOwns
  {
    hide ArmWhy;
    if ArmWhy(s) != Took {}
    if s.open {}
  }

  lemma IdleCalm(s: Stage)
    requires s.last != Under
    ensures var t := s.(last := Trig);
      CalmTo(s, t, false, s.arr, s.uie) && t.driveOwns == s.driveOwns
  {
  }

  lemma LetGoCalm(s: Stage)
    ensures var t := LetGo(s).(owned := false);
      CalmTo(s, t, true, s.arr, s.skew != 0 || s.dither) && !t.driveOwns
  {
    if s.skew != 0 {}
    if s.dither {}
  }

  lemma PeriodCalm(s: Stage, period: nat)
    requires s.last != Under
    ensures var t := WithPeriod(s.(last := Trig), period);
      && CalmTo(s, t, false, if period >= 64 then period else s.arr, s.uie)
      && t.driveOwns == s.driveOwns && t.direct == s.direct && t.skew == s.skew
  {
    if period >= 64 {}
  }

  lemma CalmJoin(s: Stage, t: Stage, u: Stage, zeroed: bool, arr: nat, uie: bool, on: bool)
    requires CalmTo(s, t, false, arr, uie) && CalmTo(t, u, zeroed, arr, on)
    ensures CalmTo(s, u, zeroed, arr, on)
  {
  }

  lemma DropCalm(s: Stage, ask: Ask)
    requires s.last != Under && !ask.Trip? && !(ask.Drive? && Enabled(s)) && s.owned
    ensures var t := TriggerF(s, ask);
      CalmTo(s, t, true, if ask.period >= 64 then ask.period else s.arr, s.skew != 0 || s.dither)
      && !t.driveOwns
  {
    hide LetGo, WithPeriod, TriggerF, Enabled, CalmTo;
    DropTrigger(s, ask);
    var u := WithPeriod(s.(last := Trig), ask.period);
    PeriodCalm(s, ask.period);
    CalmDither(s, u, false, if ask.period >= 64 then ask.period else s.arr, s.uie);
    LetGoCalm(u);
    CalmJoin(s, u, LetGo(u).(owned := false), true, u.arr, s.uie, u.skew != 0 || u.dither);
  }

  lemma CalmDither(s: Stage, t: Stage, zeroed: bool, arr: nat, uie: bool)
    requires CalmTo(s, t, zeroed, arr, uie)
    ensures t.dither == s.dither && t.arr == arr
  {
  }

  lemma LostNext(s: Stage, ticks: Triple)
    requires !s.direct
    ensures CalmTo(s, SetNextF(s, ticks), false, s.arr, s.uie)
            && SetNextF(s, ticks).driveOwns == s.driveOwns
  {
    hide Clip;
    if s.landed {}
    if s.open {}
  }

  /** A triple handed in over compares the drive has lost. */
  lemma LostCalm(s: Stage, period: nat, ticks: Triple)
    requires s.last != Under && Enabled(s) && s.owned && !s.direct
    ensures var t := TriggerF(s, Drive(period, ticks));
      CalmTo(s, t, false, if period >= 64 then period else s.arr, s.uie)
      && t.driveOwns == s.driveOwns
  {
    hide SetNextF, WithPeriod, TriggerF, Enabled, CalmTo;
    TriggerOwned(s, period, ticks);
    var u := WithPeriod(s.(last := Trig), period);
    PeriodCalm(s, period);
    CalmDither(s, u, false, if period >= 64 then period else s.arr, s.uie);
    LostNext(u, ticks);
    CalmUie(s, u, false, u.arr, s.uie);
    CalmJoin(s, u, SetNextF(u, ticks), false, u.arr, s.uie, s.uie);
  }

  lemma CalmUie(s: Stage, t: Stage, zeroed: bool, arr: nat, uie: bool)
    requires CalmTo(s, t, zeroed, arr, uie)
    ensures t.uie == uie
  {
  }

  lemma UnownedSkew(s: Stage)
    requires !s.driveOwns
    ensures SkewMode(s) == s && SkewIrq(s).uie == (s.skew != 0 || s.dither)
  {
    if SkewWantsIrq(s) {}
    if s.skew == 0 {}
  }

  lemma SkewUie(s: Stage, counts: int)
    requires !s.driveOwns
    ensures SkewF(s, counts).uie
            == if SkewWhy(s, counts) == Took then counts != 0 || s.dither else s.uie
  {
    hide SkewWhy, SkewIrq;
    if SkewWhy(s, counts) == Took {
      UnownedSkew(s.(skew := Size(counts), skewUp := counts >= 0));
    }
  }

  lemma FlagsIrq(s: Stage, e: Event)
    requires e.Bypass? || e.Clear? || e.Brk? || e.DeadTime?
    ensures Step(s, e).uie == s.uie
  {
    hide DeadTimeF, BypassF, BreakF;
    match e
    case Bypass(on) => BypassPipe(s, on);
    case Clear =>
    case Brk => BreakPipe(s);
    case DeadTime(ns) => DeadTimePipe(s, ns);
  }

  /** What turns the update interrupt off under the train: a skew of zero, or a let-go without a
      skew. */
  predicate Stalls(s: Stage, e: Event) {
    && !s.dither
    && ((e.Skew? && e.counts == 0 && SkewWhy(s, e.counts) == Took) || (Drops(s, e) && s.skew == 0))
  }

  predicate Wakes(s: Stage, e: Event) {
    || (e.Skew? && SkewWhy(s, e.counts) == Took && (e.counts != 0 || s.dither))
    || (Drops(s, e) && (s.skew != 0 || s.dither))
  }

  function IrqAfter(s: Stage, e: Event): bool {
    if Stalls(s, e) then false else if Wakes(s, e) then true else s.uie
  }

  lemma CalmSkew(s: Stage, counts: int)
    requires Hosts(s)
    ensures CalmTo(s, SkewF(s, counts), false, s.arr, IrqAfter(s, Skew(counts)))
            && !SkewF(s, counts).driveOwns
  {
    assert !Drops(s, Skew(counts));
    hide Inv, SkewWhy, SkewF, CalmTo, SamePipe, Drops;
    SkewUie(s, counts);
    SkewPipe(s, counts);
    PipeCalm(s, SkewF(s, counts));
    if SkewWhy(s, counts) == Took && counts == 0 && !s.dither {}
  }

  lemma CalmTrigger(s: Stage, ask: Ask)
    requires Hosts(s) && Calm(s, Trigger(ask)) && s.last == Over
    ensures CalmTo(s, TriggerF(s, ask), Drops(s, Trigger(ask)), ArrAfter(s, Trigger(ask)),
                   IrqAfter(s, Trigger(ask)))
            && !TriggerF(s, ask).driveOwns
  {
    assert !s.direct;
    hide Inv, TriggerF, Enabled, CalmTo;
    if !s.owned {
      IdleTrigger(s, ask);
      IdleCalm(s);
    } else if ask.Drive? && Enabled(s) {
      LostCalm(s, ask.period, ask.ticks);
    } else {
      DropCalm(s, ask);
      if s.skew == 0 && !s.dither {}
    }
  }

  lemma CalmArm(s: Stage)
    requires Hosts(s)
    ensures CalmTo(s, ArmF(s), Zeroes(s, Arm), s.arr, IrqAfter(s, Arm)) && !ArmF(s).driveOwns
  {
    hide Inv, CalmTo, ArmF, ArmWhy;
    ArmCalm(s);
  }

  lemma CalmFlags(s: Stage, e: Event)
    requires Hosts(s) && (e.Bypass? || e.Clear? || e.Brk? || e.DeadTime?)
    ensures CalmTo(s, Step(s, e), false, s.arr, IrqAfter(s, e)) && !Step(s, e).driveOwns
  {
    hide Inv, CalmTo, Step, SamePipe;
    FlagsIrq(s, e);
    FlagsPipe(s, e);
    PipeCalm(s, Step(s, e));
  }

  lemma CalmSame(s: Stage, e: Event)
    requires e.SetAll? || e.Fine? || e.Counted? || e.Alternate?
    ensures CalmTo(s, s, Zeroes(s, e), ArrAfter(s, e), IrqAfter(s, e))
  {
  }

  /** Between the edges a calm step moves no train: an arm taken or a let-go writes zero into the
      compares, a skew or a let-go sets the interrupt, a trigger the period. */
  lemma CalmStep(s: Stage, e: Event)
    requires Hosts(s) && Calm(s, e) && Legal(s, e) && !IsEdge(e)
    ensures Hosts(Step(s, e))
            && CalmTo(s, Step(s, e), Zeroes(s, e), ArrAfter(s, e), IrqAfter(s, e))
  {
    StepKeeps(s, e);
    hide Inv, Step, CalmTo, IrqAfter;
    StepIs(s, e);
    if e.Skew? {
      CalmSkew(s, e.counts);
    } else if e.Trigger? {
      CalmTrigger(s, e.ask);
    } else if e.Arm? {
      CalmArm(s);
    } else if e.SetAll? || e.Fine? || e.Counted? || e.Alternate? {
      CalmRefused(s, e);
      CalmSame(s, e);
    } else {
      CalmFlags(s, e);
    }
  }

  lemma StepIs(s: Stage, e: Event)
    ensures e.Skew? ==> Step(s, e) == SkewF(s, e.counts)
    ensures e.Trigger? ==> Step(s, e) == TriggerF(s, e.ask)
    ensures e.Arm? ==> Step(s, e) == ArmF(s)
    ensures e.Overflow? ==> Step(s, e) == Update(s, true)
    ensures e.Underflow? ==> Step(s, e) == Update(s, false)
  {
    hide SkewF, TriggerF, Update, ArmF;
  }

  // ---- edges ----

  /** An edge without an interrupt: the shadow loads where no repetition is left. */
  lemma QuietEdge(s: Stage, overflow: bool)
    requires !(s.rep == 0 && s.uie)
    ensures var t := Update(s, overflow);
      && SameTrain(s, t) && t.last == (if overflow then Over else Under) && t.uie == s.uie
      && t.active == (if s.rep == 0 then s.ccr else s.active)
      && t.driveOwns == s.driveOwns && t.owned == s.owned
      && t.rep == (if s.rep == 0 then s.rcr else s.rep - 1)
  {
    if s.rep == 0 {
      SilentEdge(s, overflow);
    } else {
      SpentEdge(s, overflow);
    }
  }

  lemma SilentEdge(s: Stage, overflow: bool)
    requires s.rep == 0 && !s.uie
    ensures var t := Update(s, overflow);
      && SameTrain(s, t) && t.last == (if overflow then Over else Under) && !t.uie
      && t.active == s.ccr && t.driveOwns == s.driveOwns && t.owned == s.owned && t.rep == s.rcr
  {
    hide Update;
    UpdateSilent(s, overflow);
  }

  lemma SpentEdge(s: Stage, overflow: bool)
    requires s.rep != 0
    ensures var t := Update(s, overflow);
      && SameTrain(s, t) && t.last == (if overflow then Over else Under) && t.uie == s.uie
      && t.active == s.active && t.driveOwns == s.driveOwns && t.owned == s.owned && t.rep == s.rep - 1
  {
    hide Update;
    UpdateSpent(s, overflow);
  }

  // ---- the interrupt on the host's train ----

  /** The state the interrupt works on: the shadow loaded, the half turned. */
  function Entered(s: Stage, overflow: bool): Stage {
    Loaded(Turned(s, overflow)).(uif := false, half := !s.half)
  }

  predicate Expiring(s: Stage) { s.countdown == 1 && s.half }

  predicate Fired(s: Stage, t: Stage, overflow: bool) {
    && t.last == (if overflow then Over else Under) && t.active == s.ccr && t.rep == s.rcr
    && t.half == !s.half && t.arr == s.arr && t.rcr == s.rcr
    && t.driveOwns == s.driveOwns && t.owned == s.owned && t.skew == s.skew
  }

  lemma FireIs(s: Stage, overflow: bool)
    requires s.rep == 0 && s.uie
    ensures Update(s, overflow) == SkewWrite(Compares(HoldPart(Entered(s, overflow))))
  {
    hide HoldPart, Compares, SkewWrite;
    UpdateInterrupts(s, overflow);
    assert Turned(s, overflow).half == s.half;
  }

  lemma SkewWriteTrain(s: Stage)
    ensures SamePipe(s, SkewWrite(s)) && SkewWrite(s).uie == s.uie
    ensures SkewWrite(s).rcr == s.rcr && SkewWrite(s).skew == s.skew
  {
    SkewWritePipe(s);
    if s.skew == 0 {}
  }

  /** The hold's last update: every compare zero and both trains off, before any of them writes. */
  lemma FireExpires(s: Stage, overflow: bool)
    requires !s.driveOwns && s.rep == 0 && s.uie && Expiring(s)
    ensures var t := Update(s, overflow);
      && Fired(s, t, overflow) && t.countdown == 0 && !t.alternate && !t.dither
      && t.ccr == ZERO && t.duty == ZERO && t.uie == (s.skew != 0)
  {
    hide Update, SkewWrite, Interrupt;
    FireIs(s, overflow);
    var h := Entered(s, overflow);
    EnteredIs(s, overflow);
    ExpiresIs(h);
    hide HoldPart, Entered;
    SkewWriteTrain(HoldPart(h));
    assert Compares(HoldPart(h)) == HoldPart(h) by { NoTrain(HoldPart(h)); }
    hide Compares;
  }

  lemma NoTrain(s: Stage)
    requires !s.driveOwns && !s.alternate && !s.dither
    ensures Compares(s) == s
  {
  }

  lemma EnteredIs(s: Stage, overflow: bool)
    ensures var h := Entered(s, overflow);
      && h.last == (if overflow then Over else Under) && h.down == overflow && h.active == s.ccr
      && h.rep == s.rcr && h.rcr == s.rcr && h.half == !s.half && h.arr == s.arr && h.uie == s.uie
      && h.driveOwns == s.driveOwns && h.owned == s.owned && h.skew == s.skew && h.ccr == s.ccr
      && h.duty == s.duty && h.dither == s.dither && h.want == s.want && h.residue == s.residue
      && h.alternate == s.alternate && h.altNext == s.altNext && h.altA == s.altA
      && h.altB == s.altB && h.countdown == s.countdown
  {
  }

  lemma ExpiresIs(s: Stage)
    requires HoldOut(s)
    ensures var t := HoldPart(s);
      && t.countdown == 0 && !t.alternate && !t.dither && t.ccr == ZERO && t.duty == ZERO
      && t.uie == (if s.skew == 0 then false else s.uie)
      && t.last == s.last && t.active == s.active && t.rep == s.rep && t.rcr == s.rcr
      && t.half == s.half && t.arr == s.arr && t.driveOwns == s.driveOwns && t.owned == s.owned
      && t.skew == s.skew
  {
    assert HoldCounted(s) == s.(countdown := 0);
    hide HoldCounted, HoldExpired;
    ExpiredIs(s.(countdown := 0));
  }

  lemma ExpiredIs(s: Stage)
    ensures var u := s.(alternate := false, dither := false, ccr := ZERO, duty := ZERO, want := ZERO,
                        residue := ZERO);
      HoldExpired(s) == if s.skew == 0 then u.(uie := false) else u
  {
    if s.skew == 0 {}
  }

  lemma CountsIs(s: Stage)
    requires !HoldOut(s)
    ensures s.countdown == 0 || s.half ==> HoldPart(s) == s
    ensures s.countdown != 0 && !s.half ==> HoldPart(s) == s.(countdown := s.countdown - 1)
  {
    hide HoldExpired;
    if s.countdown == 0 || s.half {}
  }

  /** The count an update leaves. */
  function CountAfter(s: Stage): nat {
    if s.countdown != 0 && s.half then s.countdown - 1 else s.countdown
  }

  lemma EnteredOut(s: Stage, overflow: bool)
    ensures HoldOut(Entered(s, overflow)) <==> Expiring(s)
  {
    EnteredIs(s, overflow);
    hide Entered;
  }

  lemma SameCount(s: Stage, n: nat)
    requires s.countdown == n
    ensures s.(countdown := n) == s
  {
  }

  lemma CountStays(s: Stage, overflow: bool)
    requires (s.countdown == 0 || !s.half) && !Expiring(s)
    ensures HoldPart(Entered(s, overflow)) == Entered(s, overflow).(countdown := CountAfter(s))
  {
    hide Entered, HoldPart, HoldOut;
    EnteredIs(s, overflow);
    EnteredOut(s, overflow);
    CountsIs(Entered(s, overflow));
    SameCount(Entered(s, overflow), CountAfter(s));
  }

  lemma CountFalls(s: Stage, overflow: bool)
    requires s.countdown != 0 && s.half && !Expiring(s)
    ensures HoldPart(Entered(s, overflow)) == Entered(s, overflow).(countdown := CountAfter(s))
  {
    EnteredIs(s, overflow);
    hide Entered, HoldPart;
    CountsIs(Entered(s, overflow));
  }

  lemma FireCounts(s: Stage, overflow: bool)
    requires s.rep == 0 && s.uie && !Expiring(s)
    ensures Update(s, overflow) == SkewWrite(Compares(Entered(s, overflow).(countdown := CountAfter(s))))
  {
    hide Update, SkewWrite, Compares, Entered, HoldPart, HoldOut;
    FireIs(s, overflow);
    EnteredOut(s, overflow);
    if s.countdown == 0 || !s.half {
      CountStays(s, overflow);
    } else {
      CountFalls(s, overflow);
    }
  }

  /** The alternation's update, past the overflow: the other triple into the compares. */
  lemma FireAlternates(s: Stage)
    requires s.rep == 0 && s.uie && !Expiring(s) && s.alternate
    ensures var t := Update(s, true);
      && Fired(s, t, true) && t.countdown == CountAfter(s) && t.uie && t.alternate
      && t.dither == s.dither && t.altA == s.altA && t.altB == s.altB && t.altNext == !s.altNext
      && t.ccr == if s.altNext then s.altB else s.altA
  {
    hide Update, SkewWrite, Compares;
    FireCounts(s, true);
    EnteredIs(s, true);
    hide Entered;
    var c := Entered(s, true).(countdown := CountAfter(s));
    AlternatesIs(c);
    SkewWriteTrain(Compares(c));
    if s.altNext {}
  }

  lemma AlternatesIs(s: Stage)
    requires s.alternate && s.down
    ensures var t := if s.altNext then s.altB else s.altA;
      Compares(s) == s.(ccr := t, duty := t, altNext := !s.altNext)
  {
    hide EnterDirect, LandNext, DitherStep;
  }

  /** The dither's update: one step of each phase's sum. */
  lemma FireDithers(s: Stage, overflow: bool)
    requires !s.driveOwns && s.rep == 0 && s.uie && !Expiring(s) && s.dither && !s.alternate && s.half
    ensures var t := Update(s, overflow);
      && Fired(s, t, overflow) && t.countdown == CountAfter(s) && t.uie && !t.alternate
      && t.dither && t.want == s.want && t.residue == DitherResidues(s.want, s.residue)
      && t.ccr == DitherDuty(s.want, s.residue, s.arr)
  {
    hide Update, SkewWrite, Compares, DitherDuty, DitherResidues;
    FireCounts(s, overflow);
    EnteredIs(s, overflow);
    hide Entered;
    var c := Entered(s, overflow).(countdown := CountAfter(s));
    DithersIs(c);
    SkewWriteTrain(Compares(c));
  }

  lemma DithersIs(s: Stage)
    requires !s.driveOwns && s.dither && !s.alternate && !s.half
    ensures var d := DitherDuty(s.want, s.residue, s.arr);
      Compares(s) == s.(residue := DitherResidues(s.want, s.residue), duty := d, ccr := d)
  {
    hide DitherDuty, DitherResidues;
  }

  /** Any other update leaves the train where it is. */
  lemma FireHolds(s: Stage, overflow: bool)
    requires !s.driveOwns && s.rep == 0 && s.uie && !Expiring(s)
    requires !(s.alternate && overflow) && !(s.dither && s.half)
    ensures var t := Update(s, overflow);
      && Fired(s, t, overflow) && t.countdown == CountAfter(s) && t.uie && t.ccr == s.ccr
      && t.duty == s.duty && t.dither == s.dither && t.want == s.want && t.residue == s.residue
      && t.alternate == s.alternate && t.altNext == s.altNext && t.altA == s.altA && t.altB == s.altB
  {
    hide Update, SkewWrite, Compares;
    FireCounts(s, overflow);
    EnteredIs(s, overflow);
    hide Entered;
    var c := Entered(s, overflow).(countdown := CountAfter(s));
    HoldsIs(c);
    SkewWriteTrain(c);
  }

  lemma HoldsIs(s: Stage)
    requires !s.driveOwns && !(s.alternate && s.down) && !(s.dither && !s.half)
    ensures Compares(s) == s
  {
  }
}
