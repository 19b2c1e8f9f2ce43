/** The rail as it would be kept on a clock that never wraps, and the rail on its 32-bit tick held
    against it. */
module RailLedger {
  import opened RailState

  /** Who holds the rail, when each lease ends, whether the stage is enabled, and the host watch: the
      count last seen, when it last moved, and whether the host's holds went since. */
  datatype Ledger = Ledger(time: nat, holds: seq<bool>, ends: seq<nat>, stage: bool,
                           seen: nat, moved: nat, gone: bool)

  predicate Kept(l: Ledger) {
    |l.holds| == 5 && |l.ends| == 5
  }

  /** Three seconds on, and a millisecond more where the board's tick would read zero. */
  function EndOf(time: nat): nat {
    if (time + 3000) % 0x1_0000_0000 == 0 then time + 3001 else time + 3000
  }

  /** The host unheard at a poll for more than ten seconds, and not let go of since it was. */
  predicate Silent(l: Ledger, count: nat) {
    count == l.seen && !l.gone && l.time - l.moved > 10000
  }

  function Polled(l: Ledger, count: nat): (m: Ledger)
    requires Kept(l)
    ensures Kept(m)
  {
    var quiet := Silent(l, count);
    Ledger(l.time,
           seq(5, i requires 0 <= i < 5 =>
                 l.holds[i] && if i == 0 then !quiet else l.time < l.ends[i]),
           l.ends, l.stage && !quiet, count,
           if count == l.seen then l.moved else l.time, quiet || (count == l.seen && l.gone))
  }

  /** One event in real time. A user that holds the rail may always renew; a new hold is refused
      under an enabled stage, and any hold of a rail or by a user there is not. */
  function Next(l: Ledger, e: Event): (m: Ledger)
    requires Kept(l)
    ensures Kept(m)
  {
    match e
    case Wait(ms) => l.(time := l.time + ms)
    case Acquire(rail, user) =>
      if rail == 0 && user < 5 && (l.holds[user] || !l.stage)
      then l.(holds := l.holds[user := true], ends := l.ends[user := EndOf(l.time)]) else l
    case Release(rail, user) =>
      if rail == 0 && user < 5 then l.(holds := l.holds[user := false]) else l
    case ReleaseAll => l.(holds := [false, false, false, false, false])
    case Poll(count) => Polled(l, count)
    case Stage(on) => l.(stage := on)
  }

  function NextAll(l: Ledger, es: seq<Event>): (m: Ledger)
    requires Kept(l)
    ensures Kept(m)
    decreases |es|
  {
    if es == [] then l else NextAll(Next(l, es[0]), es[1..])
  }

  /** The board's rail says what the ledger says: the same holds, the pin on exactly while there is
      one, the same stage and the same watch. */
  ghost predicate Agree(w: World, l: Ledger) {
    && Inv(w) && Kept(l) && w.time == l.time
    && w.r.users == l.holds && (w.r.pin <==> true in l.holds) && w.r.stage == l.stage
    && w.r.seenCount == l.seen && w.heardAt == l.moved && w.r.told == l.gone
    && forall u :: 1 <= u < 5 && l.holds[u] ==> w.due[u] == l.ends[u]
  }

  lemma InitialAgrees(w: World, l: Ledger)
    requires Initial(w) && w.time == l.time && w.r.stage == l.stage && |l.ends| == 5
    requires l.holds == [false, false, false, false, false] && l.seen == 0 && l.moved == 0 && !l.gone
    ensures Agree(w, l)
  {
    InitialInv(w);
    hide Inv;
  }

  lemma PolledAgrees(w: World, l: Ledger, count: nat)
    requires Agree(w, l) && Timely(w, Poll(count))
    ensures Agree(StepF(w, Poll(count)), Polled(l, count))
  {
    var t, m := StepF(w, Poll(count)), Polled(l, count);
    StepKeeps(w, Poll(count));
    PollHost(w, count);
    PollWatch(w, count);
    forall u | 1 <= u < 5
      ensures t.r.users[u] == m.holds[u] && (t.r.users[u] ==> t.due[u] == m.ends[u])
    {
      PollEnds(w, count, u);
    }
    InvPin(t);
    hide PollF, Inv, LeaseOk, HostOk;
    assert t.r.users == m.holds;
  }

  lemma InvPin(w: World)
    requires Inv(w)
    ensures Shaped(w.r) && (w.r.pin <==> true in w.r.users)
  {
    hide LeaseOk, HostOk;
  }

  /** What a poll makes of the host watch. */
  lemma PollWatch(w: World, count: nat)
    requires Inv(w) && Timely(w, Poll(count))
    ensures var t := StepF(w, Poll(count));
            && t.r.seenCount == count
            && t.heardAt == (if count == w.r.seenCount then w.heardAt else w.time)
            && (t.r.told <==> (count == w.r.seenCount && w.r.told)
                              || w.time - t.heardAt > 10000)
  {
    HostDrops(w, count);
    hide Past, Any, Quiet, LeaseOk, HostOk;
    DropHostIs(w.r, count, Now(w));
    ExpireUsers(DropHostF(w.r, count, Now(w)), Now(w), USERS);
    hide ExpireTo, DropHostF;
  }

  lemma AcquireAgrees(w: World, l: Ledger, rail: nat, user: nat)
    requires Agree(w, l)
    ensures Agree(StepF(w, Acquire(rail, user)), Next(l, Acquire(rail, user)))
  {
    var e := Acquire(rail, user);
    StepKeeps(w, e);
    InvPin(StepF(w, e));
    hide Inv, LeaseOk, HostOk, LeaseEnd, Any;
    if AcquireOk(w.r, rail, user) {}
  }

  lemma RestAgrees(w: World, l: Ledger, e: Event)
    requires Agree(w, l) && !e.Poll? && !e.Acquire?
    ensures Agree(StepF(w, e), Next(l, e))
  {
    StepKeeps(w, e);
    InvPin(StepF(w, e));
    hide Inv, LeaseOk, HostOk, Any;
    if e.ReleaseAll? {
      assert StepF(w, e).r.users == [false, false, false, false, false];
    }
  }

  lemma StepAgrees(w: World, l: Ledger, e: Event)
    requires Agree(w, l) && Timely(w, e)
    ensures Agree(StepF(w, e), Next(l, e))
  {
    hide StepF, Inv;
    if e.Poll? {
      PolledAgrees(w, l, e.count);
    } else if e.Acquire? {
      AcquireAgrees(w, l, e.rail, e.user);
    } else {
      RestAgrees(w, l, e);
    }
  }

  /** Over every run whose polls come within half a turn of the tick, the rail on the tick is the
      rail in real time: the same holds refused and taken, each lease ended by the same poll, the
      host's hold and the stage gone at the same one, the pin on exactly while somebody holds it. */
  lemma {:induction false} TickIsTime(w: World, es: seq<Event>, l: Ledger)
    requires Agree(w, l) && TimelyRun(w, es)
    ensures Agree(Run(w, es), NextAll(l, es))
    decreases |es|
  {
    assert Sized(w) by {
      hide LeaseOk, HostOk, Any;
    }
    hide Agree, StepF, Next;
    if es != [] {
      var e := es[0];
      StepAgrees(w, l, e);
      TickIsTime(StepF(w, e), es[1..], Next(l, e));
    }
  }
}
