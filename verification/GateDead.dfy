/** The dead time: every value the stage writes to DTG stays between the floor and the linear
    range's end, skewed half-periods included, and one taken reads back no shorter than asked. */
module GateDead {
  import opened GateStage
  import opened GateOwner
  import opened GateTrace

  /** Both of a skewed period's dead times, and the one in the register, inside the window: no
      shorter than five counts, the least that last 20 ns, and no longer than DTG's linear range. */
  predicate Window(s: Stage) {
    5 + s.skew <= s.deadtime && s.deadtime + s.skew <= 127 && 5 <= s.dtg <= 127
  }

  /** The floor in counts: as short as 20 ns will go. */
  lemma FloorIs()
    ensures FLOOR == 5 && 4 * 4210 < 20 * 1000 <= 5 * 4210 && DTG_MAX == 127
  {
  }

  predicate SameDead(s: Stage, t: Stage) {
    t.skew == s.skew && t.deadtime == s.deadtime && t.dtg == s.dtg
  }

  // ---- rounding ----

  /** CountsFor is the least count no shorter than the time asked for. */
  lemma CountsLeast(ns: nat, counts: nat)
    ensures CountsFor(ns) <= counts <==> ns * PS_PER_NS <= counts * PS_PER_COUNT
  {
    var a := ns * PS_PER_NS + PS_PER_COUNT - 1;
    assert a == a / PS_PER_COUNT * PS_PER_COUNT + a % PS_PER_COUNT;
  }

  /** A dead time taken is the least count at or above both the floor and what was asked for, and
      reads back no shorter than asked. */
  lemma DeadTimeTaken(s: Stage, ns: nat)
    requires DeadTimeWhy(s, ns) == Took
    ensures var t := DeadTimeF(s, ns);
      && DeadTimeNs(t) == t.deadtime * 4210 / 1000 >= ns && t.dtg == t.deadtime && t.deadtime >= FLOOR
      && t.deadtime + t.skew <= DTG_MAX
      && forall c: nat :: c >= FLOOR && ns * 1000 <= c * 4210 ==> t.deadtime <= c
  {
    CountsLeast(ns, DeadTimeCounts(ns));
    var d := DeadTimeCounts(ns);
    ReadBack(d, ns);
    forall c: nat | c >= FLOOR && ns * PS_PER_NS <= c * PS_PER_COUNT
      ensures d <= c
    {
      CountsLeast(ns, c);
    }
  }

  lemma ReadBack(d: nat, ns: nat)
    requires ns * PS_PER_NS <= d * PS_PER_COUNT
    ensures d * PS_PER_COUNT / PS_PER_NS >= ns
  {
  }

  /** Without a skew the longest dead time taken is 534 ns: the refusal's own text offers 535,
      and 535 is refused. */
  lemma LongestTaken(s: Stage, ns: nat)
    requires s.skew == 0
    ensures DeadTimeWhy(s, ns) == Took <==> ns <= 534
    ensures DeadTimeWhy(s, 535) == PastLinear
  {
    CountsLeast(ns, DTG_MAX);
    CountsLeast(535, DTG_MAX);
  }

  /** Under a standing skew a dead time taken may leave the window from below: it stays inside
      exactly when the shorter of its two halves clears the floor, which the call does not ask. */
  lemma DeadTimeUnderSkew(s: Stage, ns: nat)
    requires Window(s) && DeadTimeWhy(s, ns) == Took
    ensures Window(DeadTimeF(s, ns)) <==> FLOOR + s.skew <= DeadTimeCounts(ns)
  {
  }

  // ---- what leaves the dead time alone ----

  lemma IrqDead(s: Stage, on: bool)
    ensures SameDead(s, UpdateIrq(s, on)) && SameDead(s, FollowCompares(s))
  {
    if on {}
    if s.open {}
  }

  lemma SetAllDead(s: Stage, t: Triple)
    ensures SameDead(s, SetAllF(s, t))
  {
    hide SetAllWhy, UpdateIrq, FollowCompares;
    var u := s.(dither := false, alternate := false, countdown := 0, want := Scaled(t),
                residue := ZERO, ccr := t, duty := t);
    IrqDead(u, s.skew != 0);
    IrqDead(UpdateIrq(u, s.skew != 0), true);
    if SetAllWhy(s, t) != Took {}
  }

  lemma CountedDead(s: Stage, t: Triple, n: nat)
    ensures SameDead(s, CountedF(s, t, n))
  {
    hide SetAllWhy, SetAllF;
    SetAllDead(s, t);
    if SetAllWhy(s, t) == Took && n != 0 {}
  }

  lemma FineDead(s: Stage, f: Triple)
    ensures SameDead(s, FineF(s, f))
  {
    hide FineWhy;
    if FineWhy(s, f) != Took {}
    if s.open {}
  }

  lemma AlternateDead(s: Stage, a: Triple, b: Triple, n: nat)
    ensures SameDead(s, AlternateF(s, a, b, n))
  {
    hide AlternateWhy;
    if AlternateWhy(s, a, b) != Took {}
    if s.open {}
  }

  lemma ArmDead(s: Stage)
    ensures SameDead(s, ArmF(s))
  {
    hide ArmWhy;
    if ArmWhy(s) != Took {}
    if s.open {}
  }

  lemma FlagsDead(s: Stage, e: Event)
    requires e.Disarm? || e.Bypass? || e.Clear? || e.Brk?
    ensures SameDead(s, Step(s, e))
  {
    match e
    case Disarm =>
    case Bypass(on) => BypassDead(s, on);
    case Clear =>
    case Brk => BreakDead(s);
  }

  lemma BypassDead(s: Stage, on: bool)
    ensures SameDead(s, BypassF(s, on))
  {
    if on {}
  }

  lemma BreakDead(s: Stage)
    ensures SameDead(s, BreakF(s))
  {
    if s.bke {}
  }

  lemma NextDead(s: Stage, ticks: Triple)
    ensures SameDead(s, SetNextF(s, ticks))
  {
    hide Clip;
    if s.landed {}
    if s.open {}
    if s.direct {}
  }

  lemma LetGoDead(s: Stage)
    ensures SameDead(s, LetGo(s))
  {
    if s.skew != 0 {}
    if s.dither {}
  }

  lemma PeriodDead(s: Stage, period: nat)
    ensures SameDead(s, WithPeriod(s, period))
  {
    if period >= 64 {}
  }

  lemma DriveDead(s: Stage, period: nat, ticks: Triple)
    requires Enabled(s)
    ensures SameDead(s, TriggerF(s, Drive(period, ticks)))
  {
    hide Clip, SetNextF, TakeCompares, WithPeriod, TriggerF, Enabled;
    var t := s.(last := Trig);
    PeriodDead(t, period);
    var u := WithPeriod(t, period);
    if s.owned {
      TriggerOwned(s, period, ticks);
      NextDead(u, ticks);
    } else {
      TriggerTakes(s, period, ticks);
      assert SameDead(u, TakeCompares(u)) by { TakeDead(u); }
      NextDead(TakeCompares(u).(owned := true), ticks);
    }
  }

  lemma TakeDead(s: Stage)
    ensures SameDead(s, TakeCompares(s))
  {
  }

  lemma RestDead(s: Stage, ask: Ask)
    requires !ask.Trip? && !(ask.Drive? && Enabled(s))
    ensures SameDead(s, TriggerF(s, ask))
  {
    hide LetGo, WithPeriod, TriggerF, Enabled;
    if s.owned {
      DropTrigger(s, ask);
      PeriodDead(s.(last := Trig), ask.period);
      LetGoDead(WithPeriod(s.(last := Trig), ask.period));
    } else {
      IdleTrigger(s, ask);
    }
  }

  lemma TripDead(s: Stage)
    ensures SameDead(s, TriggerF(s, Trip))
  {
  }

  lemma TriggerDead(s: Stage, ask: Ask)
    ensures SameDead(s, TriggerF(s, ask))
  {
    hide SameDead, TriggerF, Enabled;
    if ask.Trip? {
      TripDead(s);
    } else if ask.Drive? && Enabled(s) {
      DriveDead(s, ask.period, ask.ticks);
    } else {
      RestDead(s, ask);
    }
  }

  // ---- the interrupt ----

  lemma CountedDown(s: Stage)
    ensures SameDead(s, HoldCounted(s))
  {
    if s.countdown == 0 {}
    if s.half {}
  }

  lemma ExpiredDead(s: Stage)
    ensures SameDead(s, HoldExpired(s))
  {
    if s.skew == 0 {}
  }

  lemma HoldDead(s: Stage)
    ensures SameDead(s, HoldPart(s))
  {
    hide HoldCounted, HoldExpired, HoldOut;
    CountedDown(s);
    ExpiredDead(HoldCounted(s));
    if HoldOut(s) {}
  }

  lemma LandDead(s: Stage)
    ensures SameDead(s, EnterDirect(LandNext(s)))
  {
    if s.nextPending {}
    if s.down {}
    if LandNext(s).toDirect {}
    if LandNext(s).down {}
  }

  lemma DitherDead(s: Stage)
    ensures SameDead(s, DitherStep(s)) && SameDead(s, AlternateWrite(s))
  {
    hide DitherDuty, DitherResidues;
    if s.dither {}
    if s.altNext {}
  }

  lemma ComparesDead(s: Stage)
    ensures SameDead(s, Compares(s))
  {
    hide EnterDirect, LandNext, DitherStep, AlternateWrite;
    LandDead(s);
    DitherDead(s);
    if s.alternate && s.down {}
    if s.driveOwns {}
    if s.half {}
  }

  /** The interrupt writes one of the two skewed halves, or nothing. */
  lemma WriteInWindow(s: Stage)
    requires Window(s)
    ensures Window(SkewWrite(s))
  {
    if s.skew == 0 {}
    if s.half == s.skewUp {}
  }

  /** The two halves of a skewed period add up to twice the dead time, the longer being the one the
      skew's sign names. */
  lemma SkewHalves(s: Stage)
    requires s.skew != 0
    ensures var a, b := SkewWrite(s), SkewWrite(s.(half := !s.half));
      && a.dtg + b.dtg == 2 * s.deadtime
      && (a.dtg > b.dtg <==> s.half == s.skewUp)
  {
  }

  lemma SameWindow(s: Stage, t: Stage)
    requires Window(s) && SameDead(s, t)
    ensures Window(t)
  {
  }

  lemma UpdateWindow(s: Stage, overflow: bool)
    requires Window(s)
    ensures Window(Update(s, overflow))
  {
    hide Window, Update;
    if s.rep != 0 {
      UpdateSpent(s, overflow);
      SameWindow(s, Turned(s, overflow).(rep := s.rep - 1));
    } else if s.uie {
      InterruptWindow(s, overflow);
    } else {
      UpdateSilent(s, overflow);
      SameWindow(s, Loaded(Turned(s, overflow)));
    }
  }

  lemma InterruptWindow(s: Stage, overflow: bool)
    requires Window(s) && s.rep == 0 && s.uie
    ensures Window(Update(s, overflow))
  {
    hide Window, Update, HoldPart, Compares, SkewWrite;
    UpdateInterrupts(s, overflow);
    var h := Loaded(Turned(s, overflow)).(uif := false, half := !Turned(s, overflow).half);
    SameWindow(s, h);
    HoldDead(h);
    SameWindow(h, HoldPart(h));
    ComparesDead(HoldPart(h));
    SameWindow(HoldPart(h), Compares(HoldPart(h)));
    WriteInWindow(Compares(HoldPart(h)));
  }

  // ---- the two calls ----

  lemma SkewWindow(s: Stage, counts: int)
    requires Window(s)
    ensures Window(SkewF(s, counts))
    ensures SkewWhy(s, counts) == Took <==> FLOOR + Size(counts) <= s.deadtime && s.deadtime + Size(counts) <= DTG_MAX
    ensures SkewWhy(s, counts) == Took ==> SkewF(s, counts).skew == Size(counts)
    ensures SkewF(s, counts).deadtime == s.deadtime
  {
    if SkewWhy(s, counts) == Took {
      var t := s.(skew := Size(counts), skewUp := counts >= 0);
      ModeDead(t);
      IrqSkewDead(SkewMode(t));
      hide SkewMode, SkewIrq;
    }
  }

  lemma ModeDead(s: Stage)
    ensures SameDead(s, SkewMode(s))
  {
    if s.driveOwns {}
    if s.skew != 0 {}
    if s.direct {}
  }

  lemma IrqSkewDead(s: Stage)
    ensures var t := SkewIrq(s);
      t.skew == s.skew && t.deadtime == s.deadtime && t.dtg == if s.skew == 0 then s.deadtime else s.dtg
  {
    if SkewWantsIrq(s) {}
    if s.skew == 0 {}
  }

  lemma DeadTimeWindow(s: Stage, ns: nat)
    requires Window(s) && s.skew == 0
    ensures Window(DeadTimeF(s, ns)) && DeadTimeF(s, ns).skew == 0
  {
    FloorIs();
    hide CountsFor;
    if DeadTimeWhy(s, ns) != Took {}
  }

  // ---- every step, every run ----

  /** The callers' order: a dead time only with no skew standing. */
  predicate InOrder(s: Stage, e: Event) { e.DeadTime? ==> s.skew == 0 }

  lemma WindowStep(s: Stage, e: Event)
    requires Window(s) && InOrder(s, e)
    ensures Window(Step(s, e))
  {
    hide Window, SetAllF, FineF, CountedF, AlternateF, ArmF, TriggerF, Update, SkewF, DeadTimeF;
    match e
    case SetAll(t) => SetAllDead(s, t); SameWindow(s, SetAllF(s, t));
    case Fine(f) => FineDead(s, f); SameWindow(s, FineF(s, f));
    case Counted(t, n) => CountedDead(s, t, n); SameWindow(s, CountedF(s, t, n));
    case Alternate(a, b, n) => AlternateDead(s, a, b, n); SameWindow(s, AlternateF(s, a, b, n));
    case Arm => ArmDead(s); SameWindow(s, ArmF(s));
    case DeadTime(ns) => DeadTimeWindow(s, ns);
    case Skew(c) => SkewWindow(s, c);
    case Trigger(ask) => TriggerDead(s, ask); SameWindow(s, TriggerF(s, ask));
    case Overflow => UpdateWindow(s, true);
    case Underflow => UpdateWindow(s, false);
    case _ => FlagsDead(s, e); SameWindow(s, Step(s, e));
  }

  predicate AllInOrder(s: Stage, es: seq<Event>)
    decreases |es|
  {
    es != [] ==> InOrder(s, es[0]) && AllInOrder(Step(s, es[0]), es[1..])
  }

  /** From the stage the board starts with, with the callers' order kept, every value ever in DTG
      lies between the floor and 127. */
  lemma {:induction false} WindowRun(s: Stage, es: seq<Event>)
    requires Window(s) && AllInOrder(s, es)
    ensures Window(Run(s, es))
    decreases |es|
  {
    hide Window, Step, InOrder;
    if es != [] {
      WindowStep(s, es[0]);
      WindowRun(Step(s, es[0]), es[1..]);
    }
  }

  lemma StartsInWindow(s: Stage)
    requires Initial(s)
    ensures Window(s)
  {
    CountsLeast(DEADTIME_MIN_NS, CUBE_DTG);
  }

  // ---- op 9 ----

  /** The request's three calls; what comes between them are other steps that set no dead time. */
  predicate Between(es: seq<Event>) { forall i :: 0 <= i < |es| ==> !es[i].Skew? && !es[i].DeadTime? }

  lemma StepDead(s: Stage, e: Event)
    requires Window(s) && !e.Skew? && !e.DeadTime?
    ensures Window(Step(s, e)) && Step(s, e).skew == s.skew && Step(s, e).deadtime == s.deadtime
  {
    WindowStep(s, e);
    hide Window, SetAllF, FineF, CountedF, AlternateF, ArmF, TriggerF, Update;
    match e
    case SetAll(t) => SetAllDead(s, t);
    case Fine(f) => FineDead(s, f);
    case Counted(t, n) => CountedDead(s, t, n);
    case Alternate(a, b, n) => AlternateDead(s, a, b, n);
    case Arm => ArmDead(s);
    case Trigger(ask) => TriggerDead(s, ask);
    case Overflow => UpdateDead(s, true);
    case Underflow => UpdateDead(s, false);
    case _ => FlagsDead(s, e);
  }

  lemma UpdateDead(s: Stage, overflow: bool)
    ensures Update(s, overflow).skew == s.skew && Update(s, overflow).deadtime == s.deadtime
  {
    hide Update;
    if s.rep != 0 {
      UpdateSpent(s, overflow);
    } else if s.uie {
      InterruptDead(s, overflow);
    } else {
      UpdateSilent(s, overflow);
    }
  }

  lemma InterruptDead(s: Stage, overflow: bool)
    requires s.rep == 0 && s.uie
    ensures Update(s, overflow).skew == s.skew && Update(s, overflow).deadtime == s.deadtime
  {
    hide Update, HoldPart, Compares, SkewWrite;
    UpdateInterrupts(s, overflow);
    var h := Loaded(Turned(s, overflow)).(uif := false, half := !Turned(s, overflow).half);
    HoldDead(h);
    ComparesDead(HoldPart(h));
    WriteDead(Compares(HoldPart(h)));
  }

  lemma WriteDead(s: Stage)
    ensures SkewWrite(s).skew == s.skew && SkewWrite(s).deadtime == s.deadtime
  {
    if s.skew == 0 {}
    if s.half == s.skewUp {}
  }

  lemma {:induction false} BetweenRun(s: Stage, es: seq<Event>)
    requires Window(s) && Between(es)
    ensures Window(Run(s, es)) && Run(s, es).skew == s.skew && Run(s, es).deadtime == s.deadtime
    decreases |es|
  {
    hide Window, Step;
    if es != [] {
      StepDead(s, es[0]);
      BetweenRun(Step(s, es[0]), es[1..]);
    }
  }

  function Op9(s: Stage, ns: nat, counts: int, first: seq<Event>, second: seq<Event>): Stage {
    var zeroed := Run(SkewF(s, 0), first);
    if DeadTimeWhy(zeroed, ns) != Took then DeadTimeF(zeroed, ns)
    else SkewF(Run(DeadTimeF(zeroed, ns), second), counts)
  }

  /** The request as a whole, whatever runs between its calls: it stays in the window; it is taken
      exactly when both halves fit; taken, it reads back no shorter than asked and with the skew
      asked for; refused, it leaves no skew at all. */
  lemma Op9Keeps(s: Stage, ns: nat, counts: int, first: seq<Event>, second: seq<Event>)
    requires Window(s) && Between(first) && Between(second)
    ensures var t := Op9(s, ns, counts, first, second);
            var d := DeadTimeCounts(ns);
      && Window(t)
      && (FLOOR + Size(counts) <= d && d + Size(counts) <= DTG_MAX ==>
            t.skew == Size(counts) && t.deadtime == d && DeadTimeNs(t) >= ns)
      && (!(FLOOR + Size(counts) <= d && d + Size(counts) <= DTG_MAX) ==> t.skew == 0)
  {
    SkewWindow(s, 0);
    BetweenRun(SkewF(s, 0), first);
    var zeroed := Run(SkewF(s, 0), first);
    DeadTimeWindow(zeroed, ns);
    if DeadTimeWhy(zeroed, ns) == Took {
      DeadTimeTaken(zeroed, ns);
      BetweenRun(DeadTimeF(zeroed, ns), second);
      SkewWindow(Run(DeadTimeF(zeroed, ns), second), counts);
    }
    hide Run, SkewF, CountsFor, Between;
  }

  // ---- requests of op 9, one after another ----

  /** One request and what comes around its calls: anything but another skew or dead time. The last
      call is not made where the dead time was refused. */
  datatype Request = Request(before: seq<Event>, first: seq<Event>, ns: nat, second: seq<Event>,
                             counts: int, last: bool)

  predicate Apart(r: Request) { Between(r.before) && Between(r.first) && Between(r.second) }

  function Calls(r: Request, rest: seq<Event>): seq<Event> {
    r.before + ([Skew(0)] + (r.first + ([DeadTime(r.ns)]
    + (r.second + if r.last then [Skew(r.counts)] + rest else rest))))
  }

  function AllCalls(rs: seq<Request>): seq<Event>
    decreases |rs|
  {
    if rs == [] then [] else Calls(rs[0], AllCalls(rs[1..]))
  }

  /** Every dead time behind a skew of zero, with no other skew between. */
  predicate Ordered(es: seq<Event>, zeroed: bool)
    decreases |es|
  {
    es != [] ==>
      var e := es[0];
      (e.DeadTime? ==> zeroed) && Ordered(es[1..], if e.Skew? then e.counts == 0 else zeroed)
  }

  lemma {:induction false} OrderedJoin(es: seq<Event>, fs: seq<Event>, zeroed: bool)
    requires Between(es) && Ordered(fs, zeroed)
    ensures Ordered(es + fs, zeroed)
    decreases |es|
  {
    if es == [] {
      assert es + fs == fs;
    } else {
      assert (es + fs)[1..] == es[1..] + fs;
      OrderedJoin(es[1..], fs, zeroed);
    }
  }

  lemma OrderedCons(e: Event, es: seq<Event>, zeroed: bool)
    requires e.DeadTime? ==> zeroed
    requires Ordered(es, if e.Skew? then e.counts == 0 else zeroed)
    ensures Ordered([e] + es, zeroed)
  {
    assert ([e] + es)[1..] == es;
  }

  lemma RequestOrdered(r: Request, rest: seq<Event>, zeroed: bool)
    requires Apart(r) && Ordered(rest, true) && Ordered(rest, r.counts == 0)
    ensures Ordered(Calls(r, rest), zeroed)
  {
    hide Ordered, Between;
    var tail := if r.last then [Skew(r.counts)] + rest else rest;
    if r.last { OrderedCons(Skew(r.counts), rest, true); }
    OrderedJoin(r.second, tail, true);
    OrderedCons(DeadTime(r.ns), r.second + tail, true);
    OrderedJoin(r.first, [DeadTime(r.ns)] + (r.second + tail), true);
    OrderedCons(Skew(0), r.first + ([DeadTime(r.ns)] + (r.second + tail)), zeroed);
    OrderedJoin(r.before, [Skew(0)] + (r.first + ([DeadTime(r.ns)] + (r.second + tail))), zeroed);
  }

  lemma {:induction false} RequestsOrdered(rs: seq<Request>, zeroed: bool)
    requires forall i :: 0 <= i < |rs| ==> Apart(rs[i])
    ensures Ordered(AllCalls(rs), zeroed)
    decreases |rs|
  {
    hide Apart, Calls;
    if rs != [] {
      RequestsOrdered(rs[1..], true);
      RequestsOrdered(rs[1..], rs[0].counts == 0);
      RequestOrdered(rs[0], AllCalls(rs[1..]), zeroed);
    }
  }

  /** In a window, a skew of zero is always taken. */
  lemma OrderedStep(s: Stage, e: Event, zeroed: bool)
    requires Window(s) && (zeroed ==> s.skew == 0) && (e.DeadTime? ==> zeroed)
    ensures Window(Step(s, e))
    ensures (if e.Skew? then e.counts == 0 else zeroed) ==> Step(s, e).skew == 0
  {
    WindowStep(s, e);
    if e.Skew? {
      SkewWindow(s, e.counts);
      ZeroFits(s);
      hide Window, SkewF;
    } else if e.DeadTime? {
      DeadTimeWindow(s, e.ns);
      hide Window, DeadTimeF;
    } else {
      hide Window, Step;
      StepDead(s, e);
    }
  }

  lemma ZeroFits(s: Stage)
    requires Window(s)
    ensures FLOOR + Size(0) <= s.deadtime && s.deadtime + Size(0) <= DTG_MAX
  {
  }

  lemma {:induction false} OrderedRun(s: Stage, es: seq<Event>, zeroed: bool, k: nat)
    requires Window(s) && (zeroed ==> s.skew == 0) && Ordered(es, zeroed) && k <= |es|
    ensures Window(Run(s, es[..k]))
    decreases k
  {
    hide Window, Step;
    if k == 0 {
      assert es[..k] == [];
    } else {
      var e := es[0];
      assert es[..k][0] == e && es[..k][1..] == es[1..][..k - 1];
      OrderedStep(s, e, zeroed);
      OrderedRun(Step(s, e), es[1..], if e.Skew? then e.counts == 0 else zeroed, k - 1);
    }
  }

  /** From the board's start: its own two calls at boot, with whatever the record holds, then any
      requests of op 9 and whatever else comes between their calls. At every step on the way the
      dead time in DTG, and both halves of a skewed period, lie between the floor and 127. */
  lemma Op9Runs(s: Stage, ns: nat, counts: int, rs: seq<Request>, k: nat)
    requires Initial(s) && (forall i :: 0 <= i < |rs| ==> Apart(rs[i]))
    requires k <= |[DeadTime(ns)] + ([Skew(counts)] + AllCalls(rs))|
    ensures Window(Run(s, ([DeadTime(ns)] + ([Skew(counts)] + AllCalls(rs)))[..k]))
  {
    hide Window, Run, AllCalls, Apart, Ordered;
    StartsInWindow(s);
    assert s.skew == 0;
    hide Initial;
    RequestsOrdered(rs, counts == 0);
    OrderedCons(Skew(counts), AllCalls(rs), true);
    OrderedCons(DeadTime(ns), [Skew(counts)] + AllCalls(rs), true);
    OrderedRun(s, [DeadTime(ns)] + ([Skew(counts)] + AllCalls(rs)), true, k);
  }
}
