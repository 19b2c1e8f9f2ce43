/** What the host's trains come to over whole runs: the hold that ends on its count, the
    alternation with one triple a period, the dither that keeps the mean. */
module GateTrains {
  import opened GateStage
  import opened GateOwner
  import opened GateTrace
  import opened GateHold

  predicate CalmRun(s: Stage, es: seq<Event>)
    decreases |es|
  {
    es != [] ==> Calm(s, es[0]) && Legal(s, es[0]) && CalmRun(Step(s, es[0]), es[1..])
  }

  /** The update interrupts a run takes. */
  function Firings(s: Stage, es: seq<Event>): nat
    decreases |es|
  {
    if es == [] then 0 else (if Fires(s, es[0]) then 1 else 0) + Firings(Step(s, es[0]), es[1..])
  }

  /** The timer's edges in a run, an interrupt or none. */
  function Edges(es: seq<Event>): nat
    decreases |es|
  {
    if es == [] then 0 else (if IsEdge(es[0]) then 1 else 0) + Edges(es[1..])
  }

  predicate NeverStalls(s: Stage, es: seq<Event>)
    decreases |es|
  {
    es != [] ==> !Stalls(s, es[0]) && NeverStalls(Step(s, es[0]), es[1..])
  }

  predicate NeverWakes(s: Stage, es: seq<Event>)
    decreases |es|
  {
    es != [] ==> !Wakes(s, es[0]) && NeverWakes(Step(s, es[0]), es[1..])
  }

  /** The interrupt a run leaves a train with, by its events alone: an accepted skew of zero and a
      let-go without a skew turn it off, any other accepted skew and any other let-go on. */
  function Awake(s: Stage, e: Event, awake: bool): bool {
    if Stalls(s, e) then false else awake || Wakes(s, e)
  }

  // ---- the counted hold ----

  /** Zero written into the compares somewhere along a run, by an arm or a let-go. */
  predicate Zeroed(s: Stage, es: seq<Event>)
    decreases |es|
  {
    es != [] && (Zeroes(s, es[0]) || Zeroed(Step(s, es[0]), es[1..]))
  }

  /** The update interrupts a hold has left: two a period, one fewer in the second half. */
  function Left(s: Stage): int { 2 * s.countdown - if s.half then 1 else 0 }

  /** A hold run out: nothing armed to write a compare, and every compare zero. */
  predicate Spent(s: Stage) {
    s.countdown == 0 && !s.alternate && !s.dither && s.ccr == ZERO && s.duty == ZERO
  }

  /** What one update leaves of a running hold. */
  lemma FireHold(s: Stage, overflow: bool)
    requires Hosts(s) && s.countdown > 0 && s.rep == 0 && s.uie && overflow == (s.last == Under)
    ensures var t := Update(s, overflow);
      && Hosts(t) && Left(t) == Left(s) - 1 && t.rep == 0
      && (Left(s) == 1 ==> Spent(t))
      && (Left(s) > 1 ==> t.countdown > 0 && t.uie && t.alternate == s.alternate
                          && (!s.alternate ==> t.ccr == s.ccr))
  {
    UpdateKeeps(s, overflow);
    assert !s.dither && s.rcr == 0;
    hide Inv, Update;
    if Expiring(s) {
      FireExpires(s, overflow);
    } else if s.alternate && overflow {
      FireAlternates(s);
    } else {
      FireHolds(s, overflow);
    }
  }

  lemma HoldStep(s: Stage, e: Event)
    requires Hosts(s) && s.countdown > 0 && Calm(s, e) && Legal(s, e)
    ensures var t := Step(s, e);
      && Hosts(t)
      && (!Fires(s, e) ==> Left(t) == Left(s) && t.countdown > 0 && t.alternate == s.alternate
                           && t.ccr == if Zeroes(s, e) then ZERO else s.ccr)
      && (Fires(s, e) ==> Left(t) == Left(s) - 1 && (Left(s) == 1 ==> Spent(t)) && !Zeroes(s, e)
                          && (Left(s) > 1 ==> t.countdown > 0 && t.alternate == s.alternate
                                              && (!s.alternate ==> t.ccr == s.ccr)))
  {
    if IsEdge(e) { EdgeWhole(s, e); }
    hide Inv, Update, Step, Zeroes, IrqAfter, Spent;
    if Fires(s, e) {
      StepIs(s, e);
      FireHold(s, e.Overflow?);
    } else if IsEdge(e) {
      StepIs(s, e);
      QuietHost(s, e);
    } else {
      CalmStep(s, e);
    }
  }

  lemma EdgeWhole(s: Stage, e: Event)
    requires IsEdge(e)
    ensures !Zeroes(s, e) && !Stalls(s, e) && !Wakes(s, e) && !Drops(s, e)
  {
  }

  lemma QuietHost(s: Stage, e: Event)
    requires Hosts(s) && IsEdge(e) && Legal(s, e) && !Fires(s, e)
    ensures Hosts(Step(s, e)) && SameTrain(s, Step(s, e)) && Step(s, e).uie == s.uie
    ensures Step(s, e).rep == if s.rep == 0 then 0 else s.rep - 1
  {
    StepKeeps(s, e);
    assert s.rcr == 0;
    hide Inv, Update, Step;
    StepIs(s, e);
    QuietEdge(s, e.Overflow?);
  }

  lemma SpentStep(s: Stage, e: Event)
    requires Hosts(s) && Spent(s) && Calm(s, e) && Legal(s, e)
    ensures Hosts(Step(s, e)) && Spent(Step(s, e))
  {
    StepKeeps(s, e);
    hide Inv, Update, Step, Zeroes, IrqAfter;
    if Fires(s, e) {
      StepIs(s, e);
      FireHolds(s, e.Overflow?);
    } else if IsEdge(e) {
      QuietHost(s, e);
    } else {
      CalmStep(s, e);
    }
  }

  lemma {:induction false} SpentRun(s: Stage, es: seq<Event>)
    requires Hosts(s) && Spent(s) && CalmRun(s, es)
    ensures Hosts(Run(s, es)) && Spent(Run(s, es))
    decreases |es|
  {
    hide Hosts, Spent, Step, Calm, Legal;
    if es != [] {
      SpentStep(s, es[0]);
      SpentRun(Step(s, es[0]), es[1..]);
    }
  }

  /** A hold runs down one with each update interrupt and out on its last, never another; until then
      its compares are its own, or zero once an arm or a let-go has written it, and from there on
      every compare is zero and no interrupt writes one, until a new request. */
  lemma {:induction false} HoldRuns(s: Stage, es: seq<Event>)
    requires Hosts(s) && s.countdown > 0 && CalmRun(s, es)
    ensures Firings(s, es) < Left(s) ==>
              var t := Run(s, es);
              && t.countdown > 0 && Left(t) == Left(s) - Firings(s, es)
              && (!s.alternate ==> t.ccr == if Zeroed(s, es) then ZERO else s.ccr)
    ensures Firings(s, es) >= Left(s) ==> Spent(Run(s, es))
    decreases |es|
  {
    hide Hosts, Spent, Step, Calm, Legal, Fires, Zeroes;
    if es != [] {
      HoldStep(s, es[0]);
      var t := Step(s, es[0]);
      if Left(t) >= 1 && t.countdown > 0 {
        HoldRuns(t, es[1..]);
      } else {
        SpentRun(t, es[1..]);
      }
    }
  }

  /** A counted request of N periods leaves 2N interrupts, or 2N - 1 from the second half. */
  lemma CountedStarts(s: Stage, ticks: Triple, periods: nat)
    requires Inv(s) && SetAllWhy(s, ticks) == Took && periods > 0
    ensures var t := CountedF(s, ticks, periods);
      && Hosts(t) && t.countdown == periods && t.uie && t.ccr == ticks && !t.alternate
      && Left(t) == if s.half then 2 * periods - 1 else 2 * periods
  {
    CountedKeeps(s, ticks, periods);
    SetAllGives(s, ticks);
    hide Inv, SetAllF, SetAllWhy;
  }

  lemma SetAllGives(s: Stage, ticks: Triple)
    requires SetAllWhy(s, ticks) == Took
    ensures var t := SetAllF(s, ticks);
      && !t.driveOwns && t.owned == s.owned && t.ccr == ticks && !t.alternate && t.half == s.half
  {
    assert !s.driveOwns;
    hide SetAllWhy, UpdateIrq, FollowCompares;
    var u := s.(dither := false, alternate := false, countdown := 0, want := Scaled(ticks),
                residue := ZERO, ccr := ticks, duty := ticks);
    IrqBridge(u, s.skew != 0);
    FollowCloses(UpdateIrq(u, s.skew != 0));
  }

  /** With the interrupt on and nothing turning it off, a hold does run out: within as many edges as
      it has interrupts left, one more if the first is swallowed. */
  lemma {:induction false} HoldEnds(s: Stage, es: seq<Event>)
    requires Hosts(s) && s.countdown > 0 && s.uie && CalmRun(s, es) && NeverStalls(s, es)
    requires Edges(es) >= Left(s) + s.rep
    ensures Spent(Run(s, es))
    decreases |es|
  {
    hide Hosts, Spent, Step, Calm, Legal, Stalls;
    if es != [] {
      var t := Step(s, es[0]);
      HoldStep(s, es[0]);
      HoldAwake(s, es[0]);
      if t.countdown > 0 {
        HoldEnds(t, es[1..]);
      } else {
        SpentRun(t, es[1..]);
      }
    }
  }

  lemma HoldAwake(s: Stage, e: Event)
    requires Hosts(s) && s.countdown > 0 && Calm(s, e) && Legal(s, e) && s.uie && !Stalls(s, e)
    ensures var t := Step(s, e);
      && (t.countdown > 0 ==> t.uie)
      && t.rep == if IsEdge(e) && s.rep > 0 then s.rep - 1 else s.rep
  {
    HoldIrq(s, e);
    hide Inv, Step, Stalls, Wakes, IsEdge;
  }

  /** The edges a run has for a hold, by its events alone: those past the repetition counter and with
      nothing that turned the interrupt off last. */
  function AwakeEdges(s: Stage, es: seq<Event>, awake: bool, spent: nat): nat
    decreases |es|
  {
    if es == [] then 0
    else
      (if IsEdge(es[0]) && awake && spent == 0 then 1 else 0)
      + AwakeEdges(Step(s, es[0]), es[1..], Awake(s, es[0], awake),
                   if IsEdge(es[0]) && spent > 0 then spent - 1 else spent)
  }

  lemma EdgeAwake(s: Stage, e: Event, awake: bool)
    requires IsEdge(e)
    ensures Awake(s, e, awake) == awake
  {
    EdgeWhole(s, e);
  }

  lemma CalmAwake(s: Stage, e: Event)
    requires Hosts(s) && Calm(s, e) && Legal(s, e) && !IsEdge(e)
    ensures Step(s, e).uie == Awake(s, e, s.uie) && Step(s, e).rep == s.rep
  {
    hide Inv, Step, Stalls, Wakes, Zeroes;
    CalmStep(s, e);
    if Stalls(s, e) {}
    if Wakes(s, e) {}
  }

  lemma HoldIrq(s: Stage, e: Event)
    requires Hosts(s) && s.countdown > 0 && Calm(s, e) && Legal(s, e)
    ensures var t := Step(s, e);
      && (t.countdown > 0 ==> t.uie == Awake(s, e, s.uie))
      && t.rep == if IsEdge(e) && s.rep > 0 then s.rep - 1 else s.rep
  {
    hide Inv, Update, Step, Awake, Stalls, Wakes, Spent;
    if !IsEdge(e) {
      CalmAwake(s, e);
    } else {
      EdgeAwake(s, e, s.uie);
      if Fires(s, e) {
        StepIs(s, e);
        FireHold(s, e.Overflow?);
      } else {
        QuietHost(s, e);
      }
    }
  }

  lemma CountedOn(s: Stage)
    requires s.countdown > 0
    ensures Left(s) >= 1 && !Spent(s)
  {
  }

  /** Exactly when a hold runs out, by the events alone: once as many edges of its own have come as
      it has interrupts left. */
  lemma {:induction false} HoldOutExactly(s: Stage, es: seq<Event>)
    requires Hosts(s) && s.countdown > 0 && CalmRun(s, es)
    ensures Spent(Run(s, es)) <==> AwakeEdges(s, es, s.uie, s.rep) >= Left(s)
    decreases |es|
  {
    hide Hosts, Spent, Step, Calm, Legal, Awake, Left;
    CountedOn(s);
    if es != [] {
      HoldStep(s, es[0]);
      HoldIrq(s, es[0]);
      var t := Step(s, es[0]);
      if t.countdown > 0 {
        CountedOn(t);
        HoldOutExactly(t, es[1..]);
      } else {
        SpentRun(t, es[1..]);
      }
    }
  }

  /** A skew of zero asked for during a hold, or a let-go without a skew, turns its interrupt off,
      and then it never runs out: the count stands as it was until a skew is set again or a new
      request comes. */
  lemma StallStops(s: Stage, e: Event)
    requires Hosts(s) && s.countdown > 0 && Calm(s, e) && Legal(s, e) && Stalls(s, e)
    ensures Hosts(Step(s, e)) && !Step(s, e).uie && Step(s, e).countdown == s.countdown
            && Step(s, e).ccr == if Drops(s, e) then ZERO else s.ccr
  {
    assert Zeroes(s, e) == Drops(s, e);
    hide Inv, Step, SkewWhy, Zeroes, Drops;
    CalmStep(s, e);
  }

  lemma {:induction false} StalledHold(s: Stage, es: seq<Event>)
    requires Hosts(s) && s.countdown > 0 && !s.uie && CalmRun(s, es) && NeverWakes(s, es)
    ensures var t := Run(s, es);
      t.countdown == s.countdown && !t.uie && t.ccr == if Zeroed(s, es) then ZERO else s.ccr
    decreases |es|
  {
    hide Hosts, Step, Calm, Legal, Wakes, Zeroes;
    if es != [] {
      StalledStep(s, es[0]);
      StalledHold(Step(s, es[0]), es[1..]);
    }
  }

  lemma StalledStep(s: Stage, e: Event)
    requires Hosts(s) && s.countdown > 0 && !s.uie && Calm(s, e) && Legal(s, e) && !Wakes(s, e)
    ensures var t := Step(s, e);
      Hosts(t) && t.countdown == s.countdown && !t.uie && t.ccr == if Zeroes(s, e) then ZERO else s.ccr
  {
    if IsEdge(e) { EdgeWhole(s, e); }
    hide Inv, Step, Wakes, Stalls, Zeroes;
    if IsEdge(e) {
      QuietHost(s, e);
    } else {
      CalmStep(s, e);
      if Stalls(s, e) {}
    }
  }
}
