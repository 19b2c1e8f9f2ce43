/** The alternating triples and the dither over whole runs: one triple a period, turn about; and
    a mean that is exactly what was asked for. */
module GateSwing {
  import opened GateStage
  import opened GateOwner
  import opened GateTrace
  import opened GateHold
  import opened GateTrains

  /** A calm run in which no hold runs out, whatever it does to the interrupt and the compares. */
  predicate Lasting(s: Stage, es: seq<Event>)
    decreases |es|
  {
    es != [] ==> && Calm(s, es[0]) && Legal(s, es[0]) && !(Fires(s, es[0]) && Expiring(s))
                 && Lasting(Step(s, es[0]), es[1..])
  }

  function Underflows(es: seq<Event>): nat
    decreases |es|
  {
    if es == [] then 0 else (if es[0].Underflow? then 1 else 0) + Underflows(es[1..])
  }

  // ---- the alternation ----

  /** The triple last written to the compares, and the one the next overflow writes. */
  function Written(s: Stage): Triple { if s.altNext then s.altA else s.altB }

  function Coming(s: Stage): Triple { if s.altNext then s.altB else s.altA }

  /** How an alternation stands, by what has happened to it: the interrupt on; the compares written
      by the overflow since the last underflow; zeroed since they were last written; and what is in
      force loaded while they were. */
  datatype Phase = Phase(awake: bool, moved: bool, blank: bool, dark: bool)

  /** As a request leaves it. */
  const FRESH := Phase(true, false, false, false)

  function After(s: Stage, e: Event, w: Phase): Phase {
    if IsEdge(e) && s.rep != 0 then w
    else if e.Overflow? then w.(dark := w.blank, moved := w.awake, blank := w.blank && !w.awake)
    else if e.Underflow? then w.(dark := w.blank, moved := false)
    else w.(awake := Awake(s, e, w.awake), blank := w.blank || Zeroes(s, e))
  }

  function PhaseAfter(s: Stage, es: seq<Event>, w: Phase): Phase
    decreases |es|
  {
    if es == [] then w else PhaseAfter(Step(s, es[0]), es[1..], After(s, es[0], w))
  }

  /** The compares hold what was written last, or the zero written over it. */
  predicate Alternating(s: Stage, w: Phase) {
    Hosts(s) && s.alternate && s.uie == w.awake && s.ccr == if w.blank then ZERO else Written(s)
  }

  /** Of the two, the one in force, or in force but for the zero. */
  function Turn(s: Stage, w: Phase): Triple { if w.moved then Coming(s) else Written(s) }

  function Next(s: Stage, w: Phase): Triple { if w.moved then Written(s) else Coming(s) }

  /** In step with the timer. */
  predicate InStep(s: Stage, w: Phase) {
    && Alternating(s, w) && s.rep == 0 && (w.moved ==> s.last != Under)
    && s.active == if w.dark then ZERO else Turn(s, w)
  }

  /** The underflows behind an overflow that wrote the compares. */
  function Changes(s: Stage, es: seq<Event>, w: Phase): nat
    decreases |es|
  {
    if es == [] then 0
    else (if es[0].Underflow? && w.moved then 1 else 0)
         + Changes(Step(s, es[0]), es[1..], After(s, es[0], w))
  }

  lemma SwingFires(s: Stage, overflow: bool)
    requires Hosts(s) && s.alternate && s.rep == 0 && s.uie && !Expiring(s)
    requires overflow == (s.last == Under)
    ensures var t := Update(s, overflow);
      && Hosts(t) && t.alternate && t.rep == 0 && t.active == s.ccr && t.altA == s.altA
      && t.altB == s.altB && t.altNext == (if overflow then !s.altNext else s.altNext)
      && t.ccr == (if overflow then Coming(s) else s.ccr)
      && t.last == (if overflow then Over else Under) && t.uie && t.countdown == CountAfter(s)
  {
    UpdateKeeps(s, overflow);
    assert !s.dither && s.rcr == 0;
    hide Inv, Update;
    if overflow {
      FireAlternates(s);
    } else {
      FireHolds(s, overflow);
    }
  }

  lemma SwingSleeps(s: Stage, overflow: bool)
    requires Hosts(s) && s.alternate && !(s.rep == 0 && s.uie) && overflow == (s.last == Under)
    ensures var t := Update(s, overflow);
      && Hosts(t) && t.alternate && t.rep == 0 && t.active == (if s.rep == 0 then s.ccr else s.active)
      && t.altA == s.altA && t.altB == s.altB && t.altNext == s.altNext && t.ccr == s.ccr
      && t.last == (if overflow then Over else Under) && t.uie == s.uie
      && t.countdown == s.countdown
  {
    UpdateKeeps(s, overflow);
    assert s.rcr == 0 && s.rep <= 1;
    hide Inv, Update;
    QuietEdge(s, overflow);
  }

  /** An edge, whatever the phase: the other triple into the compares, or not. */
  lemma SwingEdge(s: Stage, e: Event, w: Phase)
    requires Alternating(s, w) && IsEdge(e) && Legal(s, e) && !(Fires(s, e) && Expiring(s))
    ensures var t := Step(s, e);
      && Alternating(t, After(s, e, w)) && t.rep == 0 && t.altA == s.altA && t.altB == s.altB
      && t.active == (if s.rep == 0 then s.ccr else s.active)
      && (t.last == Under <==> e.Underflow?)
      && t.altNext == (if e.Overflow? && s.rep == 0 && w.awake then !s.altNext else s.altNext)
  {
    hide Inv, Update, Step, Expiring;
    StepIs(s, e);
    if Fires(s, e) {
      SwingFires(s, e.Overflow?);
    } else {
      SwingSleeps(s, e.Overflow?);
    }
  }

  /** Between the edges the compares may be zeroed and the interrupt set, and the train stands. */
  lemma SwingStands(s: Stage, e: Event, w: Phase)
    requires Alternating(s, w) && !IsEdge(e) && Calm(s, e) && Legal(s, e)
    ensures var t := Step(s, e);
      && Alternating(t, After(s, e, w)) && t.rep == s.rep && t.altA == s.altA && t.altB == s.altB
      && t.active == s.active && (t.last == Under <==> s.last == Under) && t.altNext == s.altNext
  {
    hide Inv, Update, Step, Stalls, Wakes, Zeroes;
    CalmStep(s, e);
    if Stalls(s, e) {}
    if Wakes(s, e) {}
    if Zeroes(s, e) {}
  }

  /** In step, the triple in force changes at an underflow behind an overflow that found the
      interrupt on and nowhere else, and there for the other one. */
  lemma SwingStep(s: Stage, e: Event, w: Phase)
    requires InStep(s, w) && Calm(s, e) && Legal(s, e) && !(Fires(s, e) && Expiring(s))
    ensures var t, x := Step(s, e), After(s, e, w);
      && InStep(t, x) && t.altA == s.altA && t.altB == s.altB
      && Turn(t, x) == (if e.Underflow? && w.moved then Next(s, w) else Turn(s, w))
      && Next(t, x) == (if e.Underflow? && w.moved then Turn(s, w) else Next(s, w))
  {
    LegalEdge(s, e);
    hide Hosts, Step, Expiring, Calm, Legal, Awake, Zeroes;
    if IsEdge(e) {
      SwingEdge(s, e, w);
    } else {
      SwingStands(s, e, w);
    }
  }

  lemma LegalEdge(s: Stage, e: Event)
    requires Legal(s, e)
    ensures e.Overflow? ==> s.last == Under
    ensures e.Underflow? ==> s.last != Under
  {
  }

  /** From in step, over every calm run: the triple in force is one of the two - or zero, loaded
      while the compares were - and it has changed as often as an underflow came behind an overflow
      that found the interrupt on. */
  lemma {:induction false} SwingRun(s: Stage, es: seq<Event>, w: Phase)
    requires InStep(s, w) && Lasting(s, es)
    ensures var t, x := Run(s, es), PhaseAfter(s, es, w);
      && InStep(t, x) && t.altA == s.altA && t.altB == s.altB
      && Turn(t, x) == (if Changes(s, es, w) % 2 == 0 then Turn(s, w) else Next(s, w))
      && Next(t, x) == (if Changes(s, es, w) % 2 == 0 then Next(s, w) else Turn(s, w))
      && t.active == if x.dark then ZERO else Turn(t, x)
    decreases |es|
  {
    hide Alternating, Step, Calm, Legal, Expiring, Fires, After, Turn, Next;
    if es == [] {
    } else {
      SwingStep(s, es[0], w);
      SwingRun(Step(s, es[0]), es[1..], After(s, es[0], w));
    }
  }

  /** The underflows a train needs to be in step: one that loads the compares, and one before it
      if the repetition counter swallows the first. */
  function ToStep(s: Stage): nat { if s.rep == 1 && s.last != Under then 2 else 1 }

  lemma SettleStep(s: Stage, e: Event, w: Phase)
    requires Alternating(s, w) && Calm(s, e) && Legal(s, e) && !(Fires(s, e) && Expiring(s))
    ensures var t, x := Step(s, e), After(s, e, w);
      && Alternating(t, x) && t.altA == s.altA && t.altB == s.altB
      && (e.Underflow? && s.rep == 0 ==> InStep(t, x))
      && (!(e.Underflow? && s.rep == 0) ==> ToStep(t) + (if e.Underflow? then 1 else 0) <= ToStep(s))
  {
    assert s.rep <= 1;
    LegalEdge(s, e);
    hide Hosts, Step, Expiring, Calm, Legal, Awake, Zeroes;
    if IsEdge(e) {
      SwingEdge(s, e, w);
    } else {
      SwingStands(s, e, w);
    }
  }

  /** From a request for two triples on, by its second underflow the train is in step, whatever has
      been zeroed and put to sleep on the way. */
  lemma {:induction false} SettleRun(s: Stage, es: seq<Event>, w: Phase)
    requires Alternating(s, w) && Lasting(s, es) && Underflows(es) >= ToStep(s)
    ensures InStep(Run(s, es), PhaseAfter(s, es, w))
    ensures Run(s, es).altA == s.altA && Run(s, es).altB == s.altB
    decreases |es|
  {
    hide Alternating, InStep, Step, Calm, Legal, Expiring, Fires, After;
    if es == [] {
    } else {
      SettleStep(s, es[0], w);
      if es[0].Underflow? && s.rep == 0 {
        SwingRun(Step(s, es[0]), es[1..], After(s, es[0], w));
      } else {
        SettleRun(Step(s, es[0]), es[1..], After(s, es[0], w));
      }
    }
  }

  lemma AlternateStarts(s: Stage, a: Triple, b: Triple, periods: nat)
    requires Inv(s) && AlternateWhy(s, a, b) == Took
    ensures var t := AlternateF(s, a, b, periods);
      && Alternating(t, FRESH) && t.altA == a && t.altB == b && t.countdown == periods
      && t.altNext && Left(t) == 2 * periods - (if s.half then 1 else 0)
      && t.last == s.last && t.rep == s.rep && t.skew == s.skew && t.deadtime == s.deadtime
      && t.bif == s.bif && t.owned == s.owned
  {
    AlternateKeeps(s, a, b, periods);
    assert !s.driveOwns;
    hide Inv, AlternateWhy, FollowCompares;
    var u := s.(dither := false, countdown := periods, altA := a, altB := b,
                want := Scaled(a), residue := ZERO, duty := a, ccr := a,
                altNext := true, alternate := true, uif := false, uie := true);
    FollowCloses(u);
    FollowRest(u);
  }

  lemma FollowRest(s: Stage)
    ensures var t := FollowCompares(s);
      && t.uie == s.uie && t.last == s.last && t.rep == s.rep && t.skew == s.skew
      && t.deadtime == s.deadtime && t.bif == s.bif
  {
    if s.open {}
  }

  // ---- when it alternates ----

  /** What is in force just past each edge of a run. */
  function Shown(s: Stage, es: seq<Event>): seq<Triple>
    decreases |es|
  {
    if es == [] then []
    else (if IsEdge(es[0]) then [Step(s, es[0]).active] else []) + Shown(Step(s, es[0]), es[1..])
  }

  /** What an alternation should show over n edges, one triple in force and the other coming: each
      the whole period through, from its underflow past its overflow, and turn about. */
  function Turning(one: Triple, other: Triple, under: bool, n: nat): seq<Triple>
    decreases n
  {
    if n == 0 then []
    else if under then [one] + Turning(one, other, false, n - 1)
    else [other] + Turning(other, one, true, n - 1)
  }

  /** Every edge of the run finds the compares not zeroed since they were written, and every
      underflow an overflow behind it that found the interrupt on. */
  predicate Turns(s: Stage, es: seq<Event>, w: Phase)
    decreases |es|
  {
    es != [] ==>
      && (IsEdge(es[0]) ==> !w.blank && (es[0].Underflow? ==> w.moved))
      && Turns(Step(s, es[0]), es[1..], After(s, es[0], w))
  }

  /** An edge in step shows its triple if nothing has come in between, and if the two are apart and
      neither is zero only then. */
  lemma EdgeShows(s: Stage, e: Event, w: Phase)
    requires InStep(s, w) && IsEdge(e) && Calm(s, e) && Legal(s, e) && !(Fires(s, e) && Expiring(s))
    ensures var shown := Step(s, e).active;
            var due := if s.last == Under then Turn(s, w) else Next(s, w);
            var fair := !w.blank && (e.Underflow? ==> w.moved);
      && (fair ==> shown == due)
      && (s.altA != s.altB && s.altA != ZERO && s.altB != ZERO && shown == due ==> fair)
  {
    LegalEdge(s, e);
    hide Hosts, Step, Expiring, Calm, Legal, Fires;
    SwingEdge(s, e, w);
  }

  lemma LastIs(s: Stage, e: Event, w: Phase)
    requires InStep(s, w) && Calm(s, e) && Legal(s, e) && !(Fires(s, e) && Expiring(s))
    ensures Step(s, e).last == Under
            <==> e.Underflow? || (s.last == Under && !e.Overflow?)
  {
    hide Hosts, Step, Expiring, Calm, Legal, Awake, Zeroes;
    if IsEdge(e) {
      SwingEdge(s, e, w);
    } else {
      SwingStands(s, e, w);
    }
  }

  lemma EdgeCounts(es: seq<Event>)
    ensures Edges(es) == if es == [] then 0 else (if IsEdge(es[0]) then 1 else 0) + Edges(es[1..])
  {
  }

  lemma TurningIs(one: Triple, other: Triple, under: bool, n: nat)
    requires n > 0
    ensures Turning(one, other, under, n)
            == if under then [one] + Turning(one, other, false, n - 1)
               else [other] + Turning(other, one, true, n - 1)
  {
  }

  /** From in step, over every calm run: the triples turn about, each the whole of its period, if
      nothing comes in between, and only then if the two are apart and neither is zero. */
  lemma {:induction false} SwingsWhen(s: Stage, es: seq<Event>, w: Phase)
    requires InStep(s, w) && Lasting(s, es)
    ensures var due := Turning(Turn(s, w), Next(s, w), s.last == Under, Edges(es));
      && (Turns(s, es, w) ==> Shown(s, es) == due)
      && (s.altA != s.altB && s.altA != ZERO && s.altB != ZERO ==>
            (Shown(s, es) == due <==> Turns(s, es, w)))
    decreases |es|
  {
    hide InStep, Step, Calm, Legal, Expiring, Fires, After, Turn, Next, Turning, IsEdge;
    if es == [] {
      NoneDue(Turn(s, w), Next(s, w), s.last == Under);
    } else {
      var e, t, x := es[0], Step(s, es[0]), After(s, es[0], w);
      SwingStep(s, e, w);
      LastIs(s, e, w);
      SwingsWhen(t, es[1..], x);
      EdgeCounts(es);
      if IsEdge(e) {
        LegalEdge(s, e);
        EdgeShows(s, e, w);
        TurningIs(Turn(s, w), Next(s, w), s.last == Under, Edges(es));
        TurnHeads(s, es, w);
        var due := if s.last == Under then Turn(s, w) else Next(s, w);
        HeadTail(t.active, due, Shown(t, es[1..]),
                 Turning(Turn(t, x), Next(t, x), t.last == Under, Edges(es[1..])));
        HeadTail(t.active, due, Shown(t, es[1..]),
                 if s.last == Under then Turning(Turn(s, w), Next(s, w), false, Edges(es[1..]))
                 else Turning(Next(s, w), Turn(s, w), true, Edges(es[1..])));
      } else {
        NoEdge(e);
      }
    }
  }

  lemma NoneDue(one: Triple, other: Triple, under: bool)
    ensures Turning(one, other, under, 0) == []
  {
  }

  lemma HeadTail(x: Triple, y: Triple, p: seq<Triple>, q: seq<Triple>)
    ensures [x] + p == [y] + q <==> x == y && p == q
  {
    var a, b := [x] + p, [y] + q;
    assert a[0] == x && b[0] == y && a[1..] == p && b[1..] == q;
  }

  lemma NoEdge(e: Event)
    requires !IsEdge(e)
    ensures !e.Overflow? && !e.Underflow?
  {
  }

  lemma TurnHeads(s: Stage, es: seq<Event>, w: Phase)
    requires es != [] && IsEdge(es[0])
    ensures es[0].Overflow? || es[0].Underflow?
    ensures Shown(s, es) == [Step(s, es[0]).active] + Shown(Step(s, es[0]), es[1..])
  {
    hide Step;
  }

  // ---- one period, and from the request on ----

  /** No edge among them. */
  predicate NoEdges(es: seq<Event>) { forall i :: 0 <= i < |es| ==> !IsEdge(es[i]) }

  lemma {:induction false} StandRun(s: Stage, es: seq<Event>, w: Phase)
    requires InStep(s, w) && Lasting(s, es) && NoEdges(es)
    ensures var t, x := Run(s, es), PhaseAfter(s, es, w);
      && InStep(t, x) && Turn(t, x) == Turn(s, w) && (t.last == Under <==> s.last == Under)
      && x.blank == (w.blank || Zeroed(s, es)) && x.dark == w.dark && x.moved == w.moved
    decreases |es|
  {
    hide InStep, Step, Calm, Legal, Expiring, Fires, Turn, Next, Zeroes, Awake;
    if es != [] {
      NoEdge(es[0]);
      SwingStep(s, es[0], w);
      LastIs(s, es[0], w);
      StandRun(Step(s, es[0]), es[1..], After(s, es[0], w));
    }
  }

  /** One period of an alternation, from just past its underflow to just past its overflow. It runs
      one of the two triples, and that one all through, exactly when the compares have not been
      zeroed since the overflow that last wrote them, nor are from its underflow to its overflow -
      or the triple is zero itself. */
  lemma PeriodRuns(s: Stage, rise: seq<Event>, w: Phase)
    requires InStep(s, w) && s.last == Under && Lasting(s, rise) && NoEdges(rise)
    requires var o := Run(s, rise); !(Fires(o, Overflow) && Expiring(o))
    ensures var t := Step(Run(s, rise), Overflow);
      s.active == t.active == Turn(s, w)
      <==> (!w.dark && !w.blank && !Zeroed(s, rise)) || Turn(s, w) == ZERO
  {
    StandRun(s, rise, w);
    var o, x := Run(s, rise), PhaseAfter(s, rise, w);
    EdgeLoads(o, x);
    hide Lasting, Run, PhaseAfter, Zeroed, Step, Fires, Expiring, Alternating, Turn;
  }

  lemma EdgeLoads(s: Stage, w: Phase)
    requires InStep(s, w) && s.last == Under && !(Fires(s, Overflow) && Expiring(s))
    ensures Step(s, Overflow).active == if w.blank then ZERO else Turn(s, w)
  {
    hide Hosts, Step, Expiring, Fires, Awake, Zeroes;
    SwingEdge(s, Overflow, w);
  }

  /** From the request on. By the second underflow the train is in step, one of its two triples in
      force and the other coming; and from there on they turn about, each the whole of its period,
      if no edge comes behind an arm or a let-go that no write has followed, and none of the
      overflows behind what last turned the interrupt off. Where the two are apart and neither is
      zero, only then. */
  lemma AlternatesWhen(s: Stage, a: Triple, b: Triple, periods: nat, first: seq<Event>, rest: seq<Event>)
    requires Inv(s) && AlternateWhy(s, a, b) == Took
    requires var t := AlternateF(s, a, b, periods);
      Lasting(t, first) && Underflows(first) >= 2 && Lasting(Run(t, first), rest)
    ensures var t := AlternateF(s, a, b, periods);
            var u, w := Run(t, first), PhaseAfter(t, first, FRESH);
            var due := Turning(Turn(u, w), Next(u, w), u.last == Under, Edges(rest));
      && InStep(u, w)
      && ((Turn(u, w) == a && Next(u, w) == b) || (Turn(u, w) == b && Next(u, w) == a))
      && (Turns(u, rest, w) ==> Shown(u, rest) == due)
      && (a != b && a != ZERO && b != ZERO ==> (Shown(u, rest) == due <==> Turns(u, rest, w)))
  {
    hide Hosts, AlternateF, Lasting, Underflows, Run, AlternateWhy, Inv, PhaseAfter, Turns, Shown,
         Turning;
    AlternateStarts(s, a, b, periods);
    var t := AlternateF(s, a, b, periods);
    SettleRun(t, first, FRESH);
    SwingsWhen(Run(t, first), rest, PhaseAfter(t, first, FRESH));
  }

  // ---- asleep ----

  /** Whether an edge has come behind something that zeroed the compares. */
  predicate Darkened(s: Stage, es: seq<Event>, blank: bool, dark: bool)
    decreases |es|
  {
    if es == [] then dark
    else if IsEdge(es[0]) then Darkened(Step(s, es[0]), es[1..], blank, blank)
    else Darkened(Step(s, es[0]), es[1..], blank || Zeroes(s, es[0]), dark)
  }

  predicate Asleep(s: Stage, t: Triple, blank: bool, dark: bool) {
    && Hosts(s) && s.alternate && !s.uie && s.rep == 0
    && s.ccr == (if blank then ZERO else t) && s.active == if dark then ZERO else t
  }

  lemma {:induction false} SleepRun(s: Stage, es: seq<Event>, t: Triple, blank: bool, dark: bool)
    requires Asleep(s, t, blank, dark) && CalmRun(s, es) && NeverWakes(s, es)
    ensures var u := Run(s, es);
      u.alternate && !u.uie && u.active == if Darkened(s, es, blank, dark) then ZERO else t
    decreases |es|
  {
    hide Hosts, Step, Calm, Legal, Wakes, Zeroes;
    if es != [] {
      SleepStep(s, es[0], t, blank, dark);
      if IsEdge(es[0]) {
        SleepRun(Step(s, es[0]), es[1..], t, blank, blank);
      } else {
        SleepRun(Step(s, es[0]), es[1..], t, blank || Zeroes(s, es[0]), dark);
      }
    }
  }

  lemma SleepStep(s: Stage, e: Event, t: Triple, blank: bool, dark: bool)
    requires Asleep(s, t, blank, dark) && Calm(s, e) && Legal(s, e) && !Wakes(s, e)
    ensures IsEdge(e) ==> Asleep(Step(s, e), t, blank, blank)
    ensures !IsEdge(e) ==> Asleep(Step(s, e), t, blank || Zeroes(s, e), dark)
  {
    hide Inv, Step, Update, Wakes, Stalls, Zeroes;
    if IsEdge(e) {
      StepIs(s, e);
      QuietHost(s, e);
      QuietEdge(s, e.Overflow?);
    } else {
      CalmStep(s, e);
      if Stalls(s, e) {}
      if Zeroes(s, e) {}
    }
  }

  /** Asleep, and the compares the same as what is in force: the triple in force stays, period
      after period - or is zero, past the first edge behind an arm or a let-go - until another skew
      is set or a new request comes. */
  lemma FrozenRun(s: Stage, es: seq<Event>)
    requires Hosts(s) && s.alternate && !s.uie && s.rep == 0 && s.active == s.ccr
    requires CalmRun(s, es) && NeverWakes(s, es)
    ensures var t := Run(s, es);
      t.alternate && !t.uie && t.active == if Darkened(s, es, false, false) then ZERO else s.active
  {
    hide Hosts, Run, CalmRun, NeverWakes, Darkened;
    SleepRun(s, es, s.active, false, false);
  }

  // ---- the dither ----

  /** One step of one phase: what it would write and what it carries account for what was asked for,
      the carry stays under a tick, and the clip at the period is not taken where the request fits
      it. */
  lemma DitherPhase(want: nat, residue: nat, arr: nat)
    requires residue < ONE_TICK
    ensures ONE_TICK * DitherWhole(want, residue) + DitherResidue(want, residue) == want + residue
    ensures DitherResidue(want, residue) < ONE_TICK
    ensures want <= arr * ONE_TICK ==> DitherWhole(want, residue) <= arr
  {
    assert want == want / ONE_TICK * ONE_TICK + want % ONE_TICK;
  }

  predicate Dithering(s: Stage) {
    Hosts(s) && s.dither && s.uie
    && s.residue[0] < ONE_TICK && s.residue[1] < ONE_TICK && s.residue[2] < ONE_TICK
  }

  /** An update that takes a dither step: every second one. */
  predicate Dithers(s: Stage, e: Event) { Fires(s, e) && s.half }

  function DitherCount(s: Stage, es: seq<Event>): nat
    decreases |es|
  {
    if es == [] then 0 else (if Dithers(s, es[0]) then 1 else 0) + DitherCount(Step(s, es[0]), es[1..])
  }

  /** The sum of the compares a run's dither steps write for one phase. */
  function DitherSum(s: Stage, es: seq<Event>, k: nat): nat
    requires k < PHASES
    decreases |es|
  {
    if es == [] then 0
    else (if Dithers(s, es[0]) then Step(s, es[0]).ccr[k] else 0) + DitherSum(Step(s, es[0]), es[1..], k)
  }

  /** What a step's clip at the period takes from it. */
  function Clipped(s: Stage, k: nat): nat
    requires k < PHASES
  {
    var whole := DitherWhole(s.want[k], s.residue[k]);
    if whole > s.arr then whole - s.arr else 0
  }

  /** The ticks the clip takes from a run's dither steps. */
  function DitherLost(s: Stage, es: seq<Event>, k: nat): nat
    requires k < PHASES
    decreases |es|
  {
    if es == [] then 0
    else (if Dithers(s, es[0]) then Clipped(s, k) else 0) + DitherLost(Step(s, es[0]), es[1..], k)
  }

  /** A period at least as long as the request at every step: a request taken fits its own, and only a
      drive that has lost the compares sets another. */
  predicate Roomy(s: Stage, es: seq<Event>, k: nat)
    requires k < PHASES
    decreases |es|
  {
    s.want[k] <= s.arr * ONE_TICK && (es != [] ==> Roomy(Step(s, es[0]), es[1..], k))
  }

  lemma DitherFires(s: Stage, e: Event)
    requires Dithering(s) && Dithers(s, e) && Legal(s, e)
    ensures var t := Step(s, e);
      && t.want == s.want && t.residue == DitherResidues(s.want, s.residue) && t.arr == s.arr
      && t.ccr == DitherDuty(s.want, s.residue, s.arr) && t.dither && t.uie
      && Hosts(t) && t.half == !s.half
  {
    StepKeeps(s, e);
    assert !s.alternate && s.countdown == 0;
    hide Inv, Step, Update, DitherDuty, DitherResidues;
    StepIs(s, e);
    FireDithers(s, e.Overflow?);
  }

  lemma DitherCalm(s: Stage, e: Event)
    requires Hosts(s) && s.dither && s.uie && Calm(s, e) && Legal(s, e) && !IsEdge(e)
    ensures var t := Step(s, e);
      && t.want == s.want && t.residue == s.residue && t.dither && t.uie && Hosts(t)
      && t.half == s.half
  {
    assert IrqAfter(s, e);
    hide Inv, Step, IrqAfter, Zeroes;
    CalmStep(s, e);
  }

  lemma DitherWaits(s: Stage, e: Event)
    requires Dithering(s) && !Dithers(s, e) && Calm(s, e) && Legal(s, e)
    ensures var t := Step(s, e);
      && t.want == s.want && t.residue == s.residue && t.dither && t.uie
      && Hosts(t) && t.half == (if Fires(s, e) then !s.half else s.half)
  {
    StepKeeps(s, e);
    assert !s.alternate && s.countdown == 0;
    hide Inv, Step, Update;
    if Fires(s, e) {
      StepIs(s, e);
      FireHolds(s, e.Overflow?);
    } else if IsEdge(e) {
      QuietHost(s, e);
    } else {
      DitherCalm(s, e);
    }
  }

  lemma DutyIs(s: Stage, k: nat)
    requires k < PHASES
    ensures DitherDuty(s.want, s.residue, s.arr)[k] + Clipped(s, k)
            == DitherWhole(s.want[k], s.residue[k])
    ensures DitherResidues(s.want, s.residue)[k] == DitherResidue(s.want[k], s.residue[k])
  {
    hide DitherWhole, DitherResidue;
  }

  lemma DitherOne(s: Stage, e: Event, k: nat)
    requires Dithering(s) && Calm(s, e) && Legal(s, e) && k < PHASES
    ensures var t := Step(s, e);
      && Dithering(t) && t.want == s.want
      && t.half == (if Fires(s, e) then !s.half else s.half)
      && (if Dithers(s, e)
          then ONE_TICK * (t.ccr[k] + Clipped(s, k)) + t.residue[k] == s.want[k] + s.residue[k]
          else t.residue[k] == s.residue[k])
  {
    hide Hosts, Step, Calm, Legal, Fires, DitherWhole, DitherResidue, Min, Clipped, DitherDuty;
    if Dithers(s, e) {
      DitherFires(s, e);
      DitherPhase(s.want[0], s.residue[0], s.arr);
      DitherPhase(s.want[1], s.residue[1], s.arr);
      DitherPhase(s.want[2], s.residue[2], s.arr);
      DutyIs(s, k);
    } else {
      DitherWaits(s, e);
    }
  }

  /** Over every calm run the dither conserves what was asked for: with n steps taken, the compares
      written and the ticks clipped from them times a tick, and the carry left, come to n times the
      request and the carry it began with. The carry stays under a tick, and n is one for every
      second update interrupt. */
  lemma {:induction false} DitherAccounts(s: Stage, es: seq<Event>, k: nat)
    requires Dithering(s) && CalmRun(s, es) && k < PHASES
    ensures var t := Run(s, es);
      && Dithering(t) && t.residue[k] < ONE_TICK
      && ONE_TICK * (DitherSum(s, es, k) + DitherLost(s, es, k)) + t.residue[k]
         == DitherCount(s, es) * s.want[k] + s.residue[k]
      && 2 * DitherCount(s, es) + (if t.half then 1 else 0) == Firings(s, es) + if s.half then 1 else 0
    decreases |es|
  {
    hide Hosts, Step, Calm, Legal, Fires, Clipped;
    if es == [] {
    } else {
      DitherOne(s, es[0], k);
      DitherAccounts(Step(s, es[0]), es[1..], k);
      if Dithers(s, es[0]) {
        Distribute(DitherCount(Step(s, es[0]), es[1..]), s.want[k]);
      }
    }
  }

  /** No step of the run writes more than its period. */
  predicate NeverClips(s: Stage, es: seq<Event>, k: nat)
    requires k < PHASES
    decreases |es|
  {
    es != [] ==>
      && (Dithers(s, es[0]) ==> DitherWhole(s.want[k], s.residue[k]) <= s.arr)
      && NeverClips(Step(s, es[0]), es[1..], k)
  }

  lemma {:induction false} LostWhen(s: Stage, es: seq<Event>, k: nat)
    requires k < PHASES
    ensures DitherLost(s, es, k) == 0 <==> NeverClips(s, es, k)
    decreases |es|
  {
    hide Step, Dithers, DitherWhole;
    if es != [] {
      LostWhen(Step(s, es[0]), es[1..], k);
    }
  }

  lemma {:induction false} RoomyNeverClips(s: Stage, es: seq<Event>, k: nat)
    requires Dithering(s) && CalmRun(s, es) && k < PHASES && Roomy(s, es, k)
    ensures NeverClips(s, es, k)
    decreases |es|
  {
    hide Hosts, Step, Calm, Legal, Fires, DitherWhole, DitherResidue;
    if es != [] {
      DitherOne(s, es[0], k);
      assert s.residue[k] < ONE_TICK by { assert k == 0 || k == 1 || k == 2; }
      DitherPhase(s.want[k], s.residue[k], s.arr);
      RoomyNeverClips(Step(s, es[0]), es[1..], k);
    }
  }

  /** So with n steps taken the compares written and the carry come to n times the request, and the
      mean is off by less than a tick for all n, if and only if no step was clipped at the period;
      and none is while the period stays as long as the request. */
  lemma DitherConserves(s: Stage, es: seq<Event>, k: nat)
    requires Dithering(s) && CalmRun(s, es) && k < PHASES
    ensures var t := Run(s, es);
      && t.residue[k] < ONE_TICK
      && (ONE_TICK * DitherSum(s, es, k) + t.residue[k] == DitherCount(s, es) * s.want[k] + s.residue[k]
          <==> NeverClips(s, es, k))
      && 2 * DitherCount(s, es) + (if t.half then 1 else 0) == Firings(s, es) + if s.half then 1 else 0
    ensures Roomy(s, es, k) ==> NeverClips(s, es, k)
  {
    DitherAccounts(s, es, k);
    LostWhen(s, es, k);
    hide Hosts, Run, DitherSum, DitherLost, DitherCount, Firings, NeverClips, CalmRun, Roomy;
    if Roomy(s, es, k) {
      RoomyNeverClips(s, es, k);
    }
  }

  lemma Distribute(n: nat, w: nat)
    ensures (n + 1) * w == n * w + w
  {
  }

  /** An accepted fine duty begins a dither with no carry and a request its period has room for. */
  lemma FineStarts(s: Stage, fine: Triple, k: nat)
    requires Inv(s) && FineWhy(s, fine) == Took && k < PHASES
    ensures var t := FineF(s, fine);
      Dithering(t) && t.want == fine && t.residue == ZERO && t.half == s.half && Roomy(t, [], k)
  {
    FineKeeps(s, fine);
    assert !s.driveOwns && Within(fine, s.arr * ONE_TICK);
    assert k == 0 || k == 1 || k == 2;
    hide Inv, FineWhy, FollowCompares;
    var u := s.(want := fine, residue := ZERO, dither := true, alternate := false,
                countdown := 0, uif := false, uie := true);
    FollowCloses(u);
    FollowRest(u);
  }
}
