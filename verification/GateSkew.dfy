/** A standing skew: the update interrupt on while it stands, and the dead time long and short turn
    about, over every run that does not take it away. */
module GateSkew {
  import opened GateStage
  import opened GateOwner
  import opened GateTrace
  import opened GateHold
  import opened GateTrains
  import opened GateDead

  /** The skew as it was asked for, its sign with it. */
  function Signed(s: Stage): int { if s.skewUp then s.skew as int else -(s.skew as int) }

  /** A skew stands and is being written. */
  predicate Standing(s: Stage) { Inv(s) && s.skew != 0 && s.uie }

  /** What a skew's half-periods are worked out of. */
  predicate SameSkew(s: Stage, t: Stage) {
    t.skew == s.skew && t.skewUp == s.skewUp && t.deadtime == s.deadtime
  }

  predicate SameBeat(s: Stage, t: Stage) {
    SameSkew(s, t) && t.uie == s.uie && t.half == s.half && t.rep == s.rep && t.rcr == s.rcr
  }

  // ---- one edge ----

  lemma HoldBeat(s: Stage)
    requires s.skew != 0
    ensures SameBeat(s, HoldPart(s)) && HoldPart(s).toDirect == s.toDirect
  {
    hide HoldExpired;
    if s.countdown == 0 {}
    if s.half {}
    if HoldOut(s) {
      ExpiredBeat(HoldCounted(s));
    }
  }

  lemma ExpiredBeat(s: Stage)
    requires s.skew != 0
    ensures SameBeat(s, HoldExpired(s)) && HoldExpired(s).toDirect == s.toDirect
  {
  }

  lemma LandBeat(s: Stage)
    ensures SameBeat(s, LandNext(s)) && LandNext(s).toDirect == s.toDirect
    ensures LandNext(s).down == s.down
  {
    if s.nextPending {}
  }

  lemma TurnBeat(s: Stage)
    ensures SameBeat(s, AlternateWrite(s))
  {
    if s.altNext {}
  }

  lemma DitherBeat(s: Stage)
    ensures SameBeat(s, DitherStep(s))
  {
    hide DitherDuty, DitherResidues;
    if s.dither {}
  }

  lemma DirectBeat(s: Stage)
    requires !s.toDirect
    ensures EnterDirect(s) == s
  {
  }

  lemma ComparesBeat(s: Stage)
    requires !s.toDirect
    ensures SameBeat(s, Compares(s))
  {
    hide LandNext, AlternateWrite, DitherStep, EnterDirect;
    LandBeat(s);
    TurnBeat(s);
    DitherBeat(s);
    DirectBeat(LandNext(s));
    if s.alternate && s.down {}
    if s.driveOwns {}
  }

  /** The interrupt under a skew: the half turned, and DTG this half's of the two. */
  lemma InterruptBeat(s: Stage)
    requires s.uif && s.skew != 0 && !s.toDirect
    ensures var t := Interrupt(s);
      && SameSkew(s, t) && t.uie == s.uie && t.half == !s.half && t.rep == s.rep && t.rcr == s.rcr
      && t.dtg == if t.half then t.deadtime + Signed(t) else t.deadtime - Signed(t)
  {
    var h := s.(uif := false, half := !s.half);
    hide HoldPart, Compares;
    HoldBeat(h);
    ComparesBeat(HoldPart(h));
  }

  lemma LoadedBeat(s: Stage, overflow: bool)
    ensures var t := Loaded(Turned(s, overflow));
      && SameSkew(s, t) && t.uie == s.uie && t.half == s.half && t.rep == s.rcr && t.rcr == s.rcr
      && t.toDirect == s.toDirect && t.uif
  {
  }

  lemma SpentBeat(s: Stage, overflow: bool)
    requires s.rep != 0
    ensures var t := Turned(s, overflow).(rep := s.rep - 1);
      SameSkew(s, t) && t.uie == s.uie && t.half == s.half && t.dtg == s.dtg
  {
  }

  lemma StandingMode(s: Stage)
    requires Standing(s)
    ensures !s.toDirect && s.rcr == 0
  {
  }

  lemma EdgeIs(s: Stage, e: Event)
    requires IsEdge(e)
    ensures Step(s, e) == Update(s, e.Overflow?)
  {
    hide Update;
  }

  /** An edge with the repetition counter out turns the half and writes DTG; one without moves the
      counter alone. */
  lemma EdgeBeat(s: Stage, e: Event)
    requires Standing(s) && IsEdge(e) && Legal(s, e)
    ensures var t := Step(s, e);
      && Standing(t) && SameSkew(s, t)
      && (s.rep == 0 ==>
            t.rep == 0 && t.half == !s.half
            && t.dtg == if t.half then t.deadtime + Signed(t) else t.deadtime - Signed(t))
      && (s.rep != 0 ==> t.rep == s.rep - 1 && t.half == s.half && t.dtg == s.dtg)
  {
    hide Inv, Interrupt, Loaded, Turned, Update, UpdateIrq;
    StepKeeps(s, e);
    StandingMode(s);
    var over := e.Overflow?;
    EdgeIs(s, e);
    if s.rep == 0 {
      UpdateInterrupts(s, over);
      LoadedBeat(s, over);
      InterruptBeat(Loaded(Turned(s, over)));
    } else {
      UpdateSpent(s, over);
      SpentBeat(s, over);
    }
  }

  // ---- everything else a host or the drive may do ----

  /** What takes no skew away: all but a disarm, a trip, and a skew's own call. */
  predicate Spares(e: Event) { !e.Disarm? && !e.Skew? && !(e.Trigger? && e.ask.Trip?) }

  /** Behind such a step that is no edge. */
  predicate SameTurn(s: Stage, t: Stage) {
    && t.skewUp == s.skewUp && t.half == s.half && t.rep == s.rep
    && (s.skew != 0 && s.uie ==> t.uie)
  }

  lemma FollowTurn(s: Stage)
    ensures SameTurn(s, FollowCompares(s)) && FollowCompares(s).uie == s.uie
  {
    if s.open {}
  }

  lemma IrqTurn(s: Stage, on: bool)
    ensures var t := UpdateIrq(s, on);
      && t.uie == on && t.skewUp == s.skewUp && t.half == s.half && t.rep == s.rep
  {
    if on {}
  }

  lemma SetAllTurn(s: Stage, ticks: Triple)
    ensures SameTurn(s, SetAllF(s, ticks))
  {
    hide FollowCompares, SetAllWhy, UpdateIrq;
    var t := s.(dither := false, alternate := false, countdown := 0, want := Scaled(ticks),
                residue := ZERO, ccr := ticks, duty := ticks);
    IrqTurn(t, s.skew != 0);
    FollowTurn(UpdateIrq(t, s.skew != 0));
  }

  lemma CountedTurn(s: Stage, ticks: Triple, periods: nat)
    ensures SameTurn(s, CountedF(s, ticks, periods))
  {
    hide SetAllF, SetAllWhy;
    SetAllTurn(s, ticks);
    if SetAllWhy(s, ticks) == Took && periods != 0 {}
  }

  lemma FineTurn(s: Stage, fine: Triple)
    ensures SameTurn(s, FineF(s, fine))
  {
    hide FineWhy;
    if FineWhy(s, fine) != Took {}
    if s.open {}
  }

  lemma AlternateTurn(s: Stage, a: Triple, b: Triple, n: nat)
    ensures SameTurn(s, AlternateF(s, a, b, n))
  {
    hide AlternateWhy;
    if AlternateWhy(s, a, b) != Took {}
    if s.open {}
  }

  lemma ArmTurn(s: Stage)
    ensures SameTurn(s, ArmF(s))
  {
    hide ArmWhy;
    if ArmWhy(s) != Took {}
    if s.open {}
  }

  lemma DeadTimeTurn(s: Stage, ns: nat)
    ensures SameTurn(s, DeadTimeF(s, ns)) && DeadTimeF(s, ns).skew == s.skew
  {
    hide DeadTimeCounts;
    if DeadTimeWhy(s, ns) != Took {}
  }

  lemma BypassTurn(s: Stage, on: bool)
    ensures SameTurn(s, BypassF(s, on))
  {
    if on {}
  }

  lemma BreakTurn(s: Stage)
    ensures SameTurn(s, BreakF(s))
  {
    if s.bke {}
  }

  lemma ClearTurn(s: Stage)
    ensures SameTurn(s, s.(bif := false))
  {
  }

  lemma LetGoTurn(s: Stage)
    ensures SameTurn(s, LetGo(s))
  {
    if s.skew != 0 {}
    if s.dither {}
  }

  lemma NextTurn(s: Stage, ticks: Triple)
    ensures SameTurn(s, SetNextF(s, ticks)) && SetNextF(s, ticks).skew == s.skew
  {
    hide Clip;
    if s.landed {}
    if s.open {}
    if s.direct {}
  }

  lemma TakeTurn(s: Stage)
    ensures SameTurn(s, TakeCompares(s)) && TakeCompares(s).skew == s.skew
  {
  }

  lemma PeriodTurn(s: Stage, period: nat)
    ensures var t := WithPeriod(s.(last := Trig), period);
      SameTurn(s, t) && t.skew == s.skew && t.uie == s.uie
  {
    if period >= 64 {}
  }

  lemma TurnJoin(s: Stage, t: Stage, u: Stage)
    requires SameTurn(s, t) && SameTurn(t, u) && t.skew == s.skew
    ensures SameTurn(s, u)
  {
  }

  lemma TriggerTurn(s: Stage, ask: Ask)
    requires !ask.Trip?
    ensures SameTurn(s, TriggerF(s, ask))
  {
    hide SameTurn, TriggerF, Enabled, LetGo, WithPeriod, SetNextF, TakeCompares;
    var t := WithPeriod(s.(last := Trig), ask.period);
    PeriodTurn(s, ask.period);
    if ask.Drive? && Enabled(s) {
      if s.owned {
        TriggerOwned(s, ask.period, ask.ticks);
        NextTurn(t, ask.ticks);
        TurnJoin(s, t, SetNextF(t, ask.ticks));
      } else {
        var v := TakeCompares(t).(owned := true);
        TriggerTakes(s, ask.period, ask.ticks);
        TakeTurn(t);
        OwnTurn(TakeCompares(t), true);
        TurnJoin(s, t, TakeCompares(t));
        TurnJoin(s, TakeCompares(t), v);
        NextTurn(v, ask.ticks);
        TurnJoin(s, v, SetNextF(v, ask.ticks));
      }
    } else if s.owned {
      DropTrigger(s, ask);
      LetGoTurn(t);
      LetGoDead(t);
      OwnTurn(LetGo(t), false);
      TurnJoin(s, t, LetGo(t));
      TurnJoin(s, LetGo(t), LetGo(t).(owned := false));
    } else {
      IdleTrigger(s, ask);
      IdleTurn(s);
    }
  }

  lemma OwnTurn(s: Stage, owned: bool)
    ensures SameTurn(s, s.(owned := owned)) && s.(owned := owned).skew == s.skew
  {
  }

  lemma IdleTurn(s: Stage)
    ensures SameTurn(s, s.(last := Trig))
  {
  }

  lemma CallTurn(s: Stage, e: Event)
    requires Spares(e) && !IsEdge(e)
    ensures SameTurn(s, Step(s, e))
  {
    hide SameTurn, SetAllF, FineF, CountedF, AlternateF, ArmF, TriggerF, DeadTimeF, BypassF, BreakF;
    match e
    case SetAll(t) => SetAllTurn(s, t);
    case Fine(f) => FineTurn(s, f);
    case Counted(t, n) => CountedTurn(s, t, n);
    case Alternate(a, b, n) => AlternateTurn(s, a, b, n);
    case Arm => ArmTurn(s);
    case DeadTime(ns) => DeadTimeTurn(s, ns);
    case Trigger(ask) => TriggerTurn(s, ask);
    case Bypass(on) => BypassTurn(s, on);
    case Clear => ClearTurn(s);
    case Brk => BreakTurn(s);
  }

  /** The same with what DTG is worked out of: only a dead time moves it. */
  lemma CallDead(s: Stage, e: Event)
    requires Spares(e) && !IsEdge(e)
    ensures Step(s, e).skew == s.skew
    ensures !e.DeadTime? ==> SameDead(s, Step(s, e))
  {
    hide SetAllF, FineF, CountedF, AlternateF, ArmF, TriggerF, DeadTimeF;
    match e
    case SetAll(t) => SetAllDead(s, t);
    case Fine(f) => FineDead(s, f);
    case Counted(t, n) => CountedDead(s, t, n);
    case Alternate(a, b, n) => AlternateDead(s, a, b, n);
    case Arm => ArmDead(s);
    case DeadTime(ns) => DeadTimeTurn(s, ns);
    case Trigger(ask) => TriggerDead(s, ask);
    case _ => FlagsDead(s, e);
  }

  // ---- runs ----

  predicate AllSpare(es: seq<Event>) { forall i :: 0 <= i < |es| ==> Spares(es[i]) }

  /** An update has been worked out of the dead time that stands: an edge with the counter out, and
      no dead time since. */
  function Refreshed(es: seq<Event>, rep: nat, was: bool): bool
    decreases |es|
  {
    if es == [] then was
    else if IsEdge(es[0]) then Refreshed(es[1..], if rep == 0 then 0 else rep - 1, rep == 0 || was)
    else Refreshed(es[1..], rep, was && !es[0].DeadTime?)
  }

  function RepAfter(rep: nat, edges: nat): nat { if edges < rep then rep - edges else 0 }

  /** DTG holds this half's dead time, the longer and the shorter turn about. */
  predicate InTurn(s: Stage) {
    s.dtg == if s.half then s.deadtime + Signed(s) else s.deadtime - Signed(s)
  }

  /** What a run leaves: the interrupt on and the skew standing, the half turned once an edge that
      found the counter out. */
  predicate Beats(s: Stage, t: Stage, edges: nat) {
    && Standing(t) && t.skew == s.skew && t.skewUp == s.skewUp && t.rep == RepAfter(s.rep, edges)
    && t.half == if edges <= s.rep || (edges - s.rep) % 2 == 0 then s.half else !s.half
  }

  lemma StepBeats(s: Stage, e: Event)
    requires Standing(s) && Legal(s, e) && Spares(e)
    ensures var t := Step(s, e);
      && Beats(s, t, if IsEdge(e) then 1 else 0)
      && (if IsEdge(e) then (s.rep == 0 || InTurn(s)) ==> InTurn(t)
          else InTurn(s) && !e.DeadTime? ==> InTurn(t))
  {
    if IsEdge(e) {
      EdgeBeat(s, e);
    } else {
      StepKeeps(s, e);
      CallTurn(s, e);
      CallDead(s, e);
    }
    hide Inv, Step;
  }

  lemma BeatsJoin(s: Stage, t: Stage, u: Stage, one: nat, more: nat)
    requires one <= 1 && Beats(s, t, one) && Beats(t, u, more)
    ensures Beats(s, u, one + more)
  {
    hide Standing;
    if one == 1 && s.rep == 0 {
      if more % 2 == 0 {}
    }
  }

  /** While a skew stands the interrupt stays on, whatever the host and the drive do but take it
      away: over every such run each edge turns the half, and DTG takes the dead time with the skew
      and against it turn about. */
  lemma {:induction false} SkewRuns(s: Stage, es: seq<Event>, was: bool)
    requires Standing(s) && LegalRun(s, es) && AllSpare(es) && (was ==> InTurn(s))
    ensures Beats(s, Run(s, es), Edges(es))
    ensures Refreshed(es, s.rep, was) ==> InTurn(Run(s, es))
    decreases |es|
  {
    hide Standing, Step, InTurn, Beats, Legal;
    if es == [] {
      NoBeat(s);
    } else {
      var e, t := es[0], Step(s, es[0]);
      StepBeats(s, e);
      BeatsRep(s, t, if IsEdge(e) then 1 else 0);
      var now := if IsEdge(e) then s.rep == 0 || was else was && !e.DeadTime?;
      SkewRuns(t, es[1..], now);
      BeatsJoin(s, t, Run(t, es[1..]), if IsEdge(e) then 1 else 0, Edges(es[1..]));
    }
  }

  lemma NoBeat(s: Stage)
    requires Standing(s)
    ensures Beats(s, s, 0)
  {
  }

  lemma BeatsRep(s: Stage, t: Stage, edges: nat)
    requires Beats(s, t, edges)
    ensures Standing(t) && t.rep == RepAfter(s.rep, edges)
  {
  }

  // ---- what sets a skew going ----

  /** A request that puts the interrupt on while a skew stands: a duty the stage takes, of any kind,
      or a skew that is none and fits. */
  predicate Wakening(s: Stage, e: Event) {
    match e
    case SetAll(t) => Enabled(s) && !s.driveOwns && Within(t, s.arr)
    case Counted(t, n) => Enabled(s) && !s.driveOwns && Within(t, s.arr)
    case Fine(f) => Enabled(s) && !s.driveOwns && Within(f, s.arr * 65536)
    case Alternate(a, b, n) => Enabled(s) && !s.driveOwns && Within(a, s.arr) && Within(b, s.arr)
    case Skew(c) => c != 0 && 5 + Size(c) <= s.deadtime && s.deadtime + Size(c) <= 127
    case _ => false
  }

  lemma SetAllIrq(s: Stage, ticks: Triple)
    requires Enabled(s) && !s.driveOwns && Within(ticks, s.arr)
    ensures SetAllF(s, ticks).uie <==> s.skew != 0
  {
    hide FollowCompares, UpdateIrq, Within;
    var t := s.(dither := false, alternate := false, countdown := 0, want := Scaled(ticks),
                residue := ZERO, ccr := ticks, duty := ticks);
    IrqTurn(t, s.skew != 0);
    FollowTurn(UpdateIrq(t, s.skew != 0));
  }

  lemma CountedIrq(s: Stage, ticks: Triple, periods: nat)
    requires Enabled(s) && !s.driveOwns && Within(ticks, s.arr) && s.skew != 0
    ensures CountedF(s, ticks, periods).uie
  {
    hide SetAllF, SetAllWhy, Within;
    SetAllIrq(s, ticks);
    if SetAllWhy(s, ticks) == Took && periods != 0 {}
  }

  lemma WakeOn(s: Stage, e: Event)
    requires Wakening(s, e) && Step(s, e).skew != 0
    ensures Step(s, e).uie
  {
    hide Within, SetAllF, CountedF, FineF, AlternateF, SkewF, Enabled;
    match e
    case SetAll(t) =>
      SetAllDead(s, t);
      SetAllIrq(s, t);
    case Counted(t, n) =>
      CountedDead(s, t, n);
      CountedIrq(s, t, n);
    case Fine(f) => FineIrq(s, f);
    case Alternate(a, b, n) => PairIrq(s, a, b, n);
    case Skew(c) => SkewIrqOn(s, c);
  }

  lemma FineIrq(s: Stage, fine: Triple)
    requires Wakening(s, Fine(fine))
    ensures FineF(s, fine).uie
  {
    hide Within;
    if s.open {}
  }

  lemma PairIrq(s: Stage, a: Triple, b: Triple, n: nat)
    requires Wakening(s, Alternate(a, b, n))
    ensures AlternateF(s, a, b, n).uie
  {
    hide Within;
    if s.open {}
  }

  lemma ModeSkew(s: Stage)
    ensures SkewMode(s).skew == s.skew && SkewMode(s).skewUp == s.skewUp
  {
    if s.driveOwns {}
    if s.skew != 0 {}
    if s.direct {}
  }

  lemma IrqSkew(s: Stage)
    requires s.skew != 0
    ensures SkewIrq(s).uie && SkewIrq(s).skewUp == s.skewUp
  {
  }

  lemma IrqPlain(s: Stage)
    requires s.skew == 0
    ensures SkewIrq(s).dtg == s.deadtime && SkewIrq(s).deadtime == s.deadtime
    ensures SkewIrq(s).skewUp == s.skewUp
  {
    if SkewWantsIrq(s) {}
  }

  /** A skew taken is the one asked for, its sign with it; and without one DTG is the dead time. */
  lemma SkewTaken(s: Stage, c: int)
    requires SkewWhy(s, c) == Took
    ensures var t := SkewF(s, c);
      && Signed(t) == c && (c == 0 ==> t.dtg == t.deadtime) && (c != 0 ==> t.uie)
  {
    hide SkewMode, SkewIrq, SkewWhy;
    var t := s.(skew := Size(c), skewUp := c >= 0);
    assert Size(c) == 0 <==> c == 0;
    ModeSkew(t);
    ModeDead(t);
    if c == 0 {
      IrqPlain(SkewMode(t));
    } else {
      IrqSkew(SkewMode(t));
    }
    IrqSkewDead(SkewMode(t));
  }

  lemma SkewIrqOn(s: Stage, c: int)
    requires Wakening(s, Skew(c))
    ensures SkewF(s, c).uie && Signed(SkewF(s, c)) == c
  {
    SkewSize(s, c);
    hide SkewF, SkewWhy, Signed;
    SkewTaken(s, c);
  }

  lemma SkewSize(s: Stage, c: int)
    requires Wakening(s, Skew(c))
    ensures SkewWhy(s, c) == Took && Size(c) != 0
  {
  }

  lemma {:induction false} RefreshedIs(es: seq<Event>, rep: nat, was: bool)
    requires forall i :: 0 <= i < |es| ==> !es[i].DeadTime?
    ensures Refreshed(es, rep, was) <==> was || Edges(es) > rep
    decreases |es|
  {
    if es != [] {
      if IsEdge(es[0]) {
        RefreshedIs(es[1..], if rep == 0 then 0 else rep - 1, rep == 0 || was);
      } else {
        RefreshedIs(es[1..], rep, was && !es[0].DeadTime?);
      }
    }
  }

  /** From a duty taken while a skew stands, or a skew taken, over every run that takes neither the
      stage nor the skew away: the interrupt is on, the half turns at each edge, and with no new dead
      time set DTG is the dead time and the skew together in one half and less it in the other. */
  lemma SkewStands(s: Stage, e: Event, es: seq<Event>)
    requires Inv(s) && Wakening(s, e) && Step(s, e).skew != 0
    requires LegalRun(Step(s, e), es) && AllSpare(es)
    ensures var t, u := Step(s, e), Run(Step(s, e), es);
      && Beats(t, u, Edges(es))
      && ((forall i :: 0 <= i < |es| ==> !es[i].DeadTime?) && Edges(es) > t.rep ==> InTurn(u))
      && (e.Skew? ==> Signed(u) == e.counts)
  {
    if e.Skew? { SkewIrqOn(s, e.counts); }
    WakeOn(s, e);
    assert Legal(s, e);
    hide Step, Wakening, InTurn, Inv, Refreshed, Edges;
    StepKeeps(s, e);
    SkewRuns(Step(s, e), es, false);
    if forall i :: 0 <= i < |es| ==> !es[i].DeadTime? {
      RefreshedIs(es, Step(s, e).rep, false);
    }
  }
}
