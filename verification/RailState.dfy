/** The switched rail: who holds it, when each hold runs out on a 32-bit tick that wraps, and when
    the host's holds go with the host. */
module RailState {
  const RAILS := 1
  const USERS := 5
  const HOST := 0
  const LEASE_MS := 3000
  const QUIET_MS := 10000
  const TURN := 0x1_0000_0000
  const HALF_TURN := 0x8000_0000

  /** The holds, their expiries on the tick (0 for never), the pin, whether the gate stage is
      enabled, and the host watch: the receive count last seen, when, and whether it has told. */
  datatype Rail = Rail(users: seq<bool>, expires: seq<nat>, pin: bool, stage: bool,
                       seenCount: nat, seenAt: nat, told: bool)

  predicate Shaped(r: Rail) { |r.users| == USERS && |r.expires| == USERS }

  predicate Any(users: seq<bool>) { true in users }

  function Apply(r: Rail): Rail { r.(pin := Any(r.users)) }

  /** The tick of a lease taken now: never the 0 that would mean for ever. */
  function LeaseEnd(now: nat): nat {
    if (now + LEASE_MS) % TURN == 0 then 1 else (now + LEASE_MS) % TURN
  }

  /** now - at read as signed 32 bits: at or past when not negative. */
  predicate Past(now: nat, at: nat) { (now - at) % TURN < HALF_TURN }

  function AcquireOk(r: Rail, rail: nat, user: nat): bool
    requires Shaped(r)
  {
    rail < RAILS && user < USERS && (r.users[user] || !r.stage)
  }

  function AcquireF(r: Rail, rail: nat, user: nat, now: nat): Rail
    requires Shaped(r)
  {
    if !AcquireOk(r, rail, user) then r
    else Apply(r.(users := r.users[user := true],
                  expires := r.expires[user := if user == HOST then 0 else LeaseEnd(now)]))
  }

  function Drop(r: Rail, user: nat): Rail
    requires Shaped(r) && user < USERS
  {
    Apply(r.(users := r.users[user := false], expires := r.expires[user := 0]))
  }

  function ReleaseF(r: Rail, rail: nat, user: nat): Rail
    requires Shaped(r)
  {
    if rail < RAILS && user < USERS then Drop(r, user) else r
  }

  function ReleaseAllF(r: Rail): Rail {
    r.(users := seq(USERS, _ => false), expires := seq(USERS, _ => 0), pin := false)
  }

  // ---- the poll ----

  /** The host watch, the count as it stands. */
  function Heard(r: Rail, count: nat, now: nat): Rail {
    if count != r.seenCount then r.(seenCount := count, seenAt := now, told := false) else r
  }

  predicate Quiet(r: Rail, now: nat) { !r.told && (now - r.seenAt) % TURN > QUIET_MS }

  function DropHostF(r: Rail, count: nat, now: nat): Rail
    requires Shaped(r)
  {
    var h := Heard(r, count, now);
    if !Quiet(h, now) then h
    else
      var t := h.(told := true);
      (if t.users[HOST] then Drop(t, HOST) else t).(stage := false)
  }

  predicate RunsOut(r: Rail, now: nat, user: nat)
    requires Shaped(r) && user < USERS
  {
    r.expires[user] != 0 && Past(now, r.expires[user])
  }

  function ExpireTo(r: Rail, now: nat, n: nat): Rail
    requires Shaped(r) && n <= USERS
    ensures Shaped(ExpireTo(r, now, n))
  {
    if n == 0 then r
    else
      var t := ExpireTo(r, now, n - 1);
      if RunsOut(t, now, n - 1) then Drop(t, n - 1) else t
  }

  function PollF(r: Rail, count: nat, now: nat): Rail
    requires Shaped(r)
  {
    ExpireTo(DropHostF(r, count, now), now, USERS)
  }

  // ---- the rail in time ----

  /** A rail in real time, which does not wrap: when each lease truly runs out (0 for none), the
      last poll, and the last poll that found the host heard. */
  datatype World = World(r: Rail, time: nat, due: seq<nat>, polled: nat, heardAt: nat)

  datatype Event =
    | Wait(ms: nat)
    | Acquire(rail: nat, user: nat)
    | Release(rail: nat, user: nat)
    | ReleaseAll
    | Poll(count: nat)
    | Stage(on: bool)

  function Now(w: World): nat { w.time % TURN }

  /** Real expiry: the lease's length, and a millisecond more where the tick would be 0. */
  function TrueEnd(time: nat): nat {
    if (time + LEASE_MS) % TURN == 0 then time + LEASE_MS + 1 else time + LEASE_MS
  }

  predicate Sized(w: World) { Shaped(w.r) && |w.due| == USERS }

  function DueAfter(w: World, e: Event): seq<nat>
    requires Shaped(w.r) && |w.due| == USERS
  {
    match e
    case Acquire(rail, user) =>
      if AcquireOk(w.r, rail, user) && user != HOST then w.due[user := TrueEnd(w.time)] else w.due
    case Release(rail, user) => if rail < RAILS && user < USERS then w.due[user := 0] else w.due
    case ReleaseAll => [0, 0, 0, 0, 0]
    case Poll(_) => seq(USERS, i requires 0 <= i < USERS => if w.due[i] <= w.time then 0 else w.due[i])
    case _ => w.due
  }

  function StepF(w: World, e: Event): (t: World)
    requires Sized(w)
    ensures Sized(t)
  {
    var due := DueAfter(w, e);
    match e
    case Wait(ms) => w.(time := w.time + ms)
    case Acquire(rail, user) => w.(r := AcquireF(w.r, rail, user, Now(w)), due := due)
    case Release(rail, user) => w.(r := ReleaseF(w.r, rail, user), due := due)
    case ReleaseAll => w.(r := ReleaseAllF(w.r), due := due)
    case Poll(count) =>
      w.(r := PollF(w.r, count, Now(w)), due := due, polled := w.time,
         heardAt := if count != w.r.seenCount then w.time else w.heardAt)
    case Stage(on) => w.(r := w.r.(stage := on))
  }

  /** Polls close enough together for the tick's sign to tell. */
  predicate Timely(w: World, e: Event) { e.Poll? ==> w.time - w.polled <= HALF_TURN }

  /** One user's hold and lease. */
  predicate LeaseOk(w: World, u: nat)
    requires Shaped(w.r) && |w.due| == USERS && u < USERS
  {
    if u == HOST then w.r.expires[u] == 0 && w.due[u] == 0
    else
      && (w.r.users[u] <==> w.r.expires[u] != 0)
      && (w.r.users[u] <==> w.due[u] != 0)
      && (w.r.users[u] ==> w.r.expires[u] == w.due[u] % TURN && w.polled < w.due[u] <= w.time + LEASE_MS + 1)
  }

  predicate HostOk(w: World) {
    && w.r.seenAt == w.heardAt % TURN && w.heardAt <= w.polled
    && (!w.r.told ==> w.polled - w.heardAt <= QUIET_MS)
  }

  predicate Inv(w: World) {
    && Shaped(w.r) && |w.due| == USERS && w.polled <= w.time
    && w.r.pin == Any(w.r.users)
    && (forall u :: 0 <= u < USERS ==> LeaseOk(w, u))
    && HostOk(w)
  }

  // ---- the tick's arithmetic ----

  /** Within half a turn past it, or a lease's length short of it, the tick tells which. */
  lemma PastIs(time: nat, due: nat)
    requires time - due < HALF_TURN && due - time <= LEASE_MS + 1
    ensures Past(time % TURN, due % TURN) <==> time >= due
  {
    ModDiff(time, due);
    if time >= due {
      Small(time - due);
    } else {
      Negative(due - time);
    }
  }

  lemma ModDiff(a: nat, b: nat)
    ensures (a % TURN - b % TURN) % TURN == (a - b) % TURN
  {
  }

  lemma Small(d: nat)
    requires d < TURN
    ensures (d as int) % TURN == d
  {
  }

  lemma Negative(d: nat)
    requires 0 < d < TURN
    ensures (0 - d) % TURN == TURN - d
  {
  }

  lemma EndIs(time: nat)
    ensures LeaseEnd(time % TURN) == TrueEnd(time) % TURN && LeaseEnd(time % TURN) != 0
    ensures LeaseEnd(time % TURN) < TURN
  {
    assert (time % TURN + LEASE_MS) % TURN == (time + LEASE_MS) % TURN;
    if (time + LEASE_MS) % TURN == 0 {
      assert (time + LEASE_MS + 1) % TURN == 1;
    }
  }

  /** How far past its end a lease may be found and still be collected: less than half a turn. */
  lemma CollectedWhen(time: nat, due: nat)
    requires time >= due
    ensures Past(time % TURN, due % TURN) <==> (time - due) % TURN < HALF_TURN
  {
    ModDiff(time, due);
  }

  /** A poll half a turn past the end finds the lease not yet due: a later poll than Timely allows
      can leave it held. */
  lemma LatePollMisses()
    ensures !Past((LEASE_MS + HALF_TURN) % TURN, LEASE_MS % TURN)
  {
    CollectedWhen(LEASE_MS + HALF_TURN, LEASE_MS);
  }

  // ---- the poll, user by user ----

  lemma {:induction false} ExpireUsers(r: Rail, now: nat, n: nat)
    requires Shaped(r) && n <= USERS
    ensures var t := ExpireTo(r, now, n);
      && (forall u :: 0 <= u < n ==> t.users[u] == (r.users[u] && !RunsOut(r, now, u)))
      && (forall u :: 0 <= u < n ==> t.expires[u] == if RunsOut(r, now, u) then 0 else r.expires[u])
      && (forall u :: n <= u < USERS ==> t.users[u] == r.users[u] && t.expires[u] == r.expires[u])
      && (r.pin == Any(r.users) ==> t.pin == Any(t.users))
      && t.stage == r.stage && t.seenCount == r.seenCount && t.seenAt == r.seenAt && t.told == r.told
    decreases n
  {
    hide Past, Any;
    if n > 0 {
      ExpireUsers(r, now, n - 1);
    }
  }

  /** The host's holds go at the first poll with the host unheard for more than ten seconds of
      real time, and the stage with them; not before, and once. */
  lemma HostDrops(w: World, count: nat)
    requires Inv(w) && Timely(w, Poll(count))
    ensures var h := Heard(w.r, count, Now(w));
            var since := if count != w.r.seenCount then w.time else w.heardAt;
      Quiet(h, Now(w)) <==> !h.told && w.time - since > QUIET_MS
  {
    hide LeaseOk, Any;
    ModDiff(w.time, w.heardAt);
    ModDiff(w.time, w.time);
    if count == w.r.seenCount && !w.r.told {
      Small(w.time - w.heardAt);
    } else {
      Small(0);
    }
  }

  lemma DropHostIs(r: Rail, count: nat, now: nat)
    requires Shaped(r) && r.pin == Any(r.users)
    ensures var t := DropHostF(r, count, now);
            var h := Heard(r, count, now);
      && Shaped(t) && t.pin == Any(t.users) && t.seenCount == h.seenCount && t.seenAt == h.seenAt
      && t.told == (h.told || Quiet(h, now))
      && t.stage == (r.stage && !Quiet(h, now))
      && t.users[HOST] == (r.users[HOST] && !Quiet(h, now))
      && (r.expires[HOST] == 0 ==> t.expires[HOST] == 0)
      && forall u :: 1 <= u < USERS ==> t.users[u] == r.users[u] && t.expires[u] == r.expires[u]
  {
    hide Any, Quiet;
    if count != r.seenCount {}
    if Quiet(Heard(r, count, now), now) {}
  }

  lemma RunsOutIs(w: World, u: nat)
    requires Inv(w) && w.time - w.polled <= HALF_TURN && 1 <= u < USERS
    ensures RunsOut(w.r, Now(w), u) <==> w.r.users[u] && w.time >= w.due[u]
  {
    assert LeaseOk(w, u);
    hide Past, HostOk, Any;
    if w.r.users[u] {
      PastIs(w.time, w.due[u]);
    }
  }

  /** Each lease not renewed ends at the first poll at or past its true end, and never before. */
  lemma PollEnds(w: World, count: nat, u: nat)
    requires Inv(w) && Timely(w, Poll(count)) && 1 <= u < USERS
    ensures var t := StepF(w, Poll(count));
      && (t.r.users[u] <==> w.r.users[u] && w.time < w.due[u])
      && t.r.expires[u] == (if t.r.users[u] then w.r.expires[u] else 0)
      && t.due[u] == if t.r.users[u] then w.due[u] else 0
  {
    assert LeaseOk(w, u);
    RunsOutIs(w, u);
    hide Past, Any, HostOk;
    DropHostIs(w.r, count, Now(w));
    ExpireUsers(DropHostF(w.r, count, Now(w)), Now(w), USERS);
    hide ExpireTo, DropHostF;
  }

  lemma PollHost(w: World, count: nat)
    requires Inv(w) && Timely(w, Poll(count))
    ensures var t := StepF(w, Poll(count));
            var since := if count != w.r.seenCount then w.time else w.heardAt;
            var drops := !(count == w.r.seenCount && w.r.told) && w.time - since > QUIET_MS;
      && LeaseOk(t, HOST) && HostOk(t) && t.r.pin == Any(t.r.users) && Shaped(t.r)
      && t.r.users[HOST] == (w.r.users[HOST] && !drops)
      && t.r.stage == (w.r.stage && !drops)
  {
    assert LeaseOk(w, HOST);
    HostDrops(w, count);
    hide Past, Any, Quiet;
    DropHostIs(w.r, count, Now(w));
    ExpireUsers(DropHostF(w.r, count, Now(w)), Now(w), USERS);
    hide ExpireTo, DropHostF;
  }

  lemma PollKeeps(w: World, count: nat)
    requires Inv(w) && Timely(w, Poll(count))
    ensures Inv(StepF(w, Poll(count)))
  {
    var t := StepF(w, Poll(count));
    PollHost(w, count);
    hide PollF, HostOk, Any;
    forall u | 0 <= u < USERS ensures LeaseOk(t, u) {
      if u != HOST {
        assert LeaseOk(w, u);
        PollEnds(w, count, u);
      }
    }
  }

  lemma AcquireLease(w: World, user: nat, u: nat)
    requires Inv(w) && u < USERS && AcquireOk(w.r, 0, user)
    ensures LeaseOk(StepF(w, Acquire(0, user)), u)
  {
    assert LeaseOk(w, u);
    EndIs(w.time);
    hide LeaseEnd, Any, HostOk;
  }

  lemma AcquireKeeps(w: World, rail: nat, user: nat)
    requires Inv(w)
    ensures Inv(StepF(w, Acquire(rail, user)))
  {
    var t := StepF(w, Acquire(rail, user));
    hide LeaseEnd, Any, LeaseOk, TrueEnd;
    if AcquireOk(w.r, rail, user) {
      forall u | 0 <= u < USERS ensures LeaseOk(t, u) {
        AcquireLease(w, user, u);
      }
    }
  }

  lemma ReleaseLease(w: World, user: nat, u: nat)
    requires Inv(w) && u < USERS && user < USERS
    ensures LeaseOk(StepF(w, Release(0, user)), u)
  {
    assert LeaseOk(w, u);
    hide Any, HostOk;
  }

  lemma ReleaseKeeps(w: World, rail: nat, user: nat)
    requires Inv(w)
    ensures Inv(StepF(w, Release(rail, user)))
  {
    var t := StepF(w, Release(rail, user));
    hide Any, LeaseOk;
    if rail < RAILS && user < USERS {
      forall u | 0 <= u < USERS ensures LeaseOk(t, u) {
        ReleaseLease(w, user, u);
      }
    }
  }

  lemma OtherKeeps(w: World, e: Event)
    requires Inv(w) && (e.Wait? || e.ReleaseAll? || e.Stage?)
    ensures Inv(StepF(w, e))
  {
    var t := StepF(w, e);
    assert e.ReleaseAll? ==> true !in t.r.users;
    forall u | 0 <= u < USERS ensures LeaseOk(t, u) {
      assert LeaseOk(w, u);
    }
  }

  /** In every reachable state the pin is on exactly when somebody holds the rail; a hold that is
      not the host's is held exactly while its expiry stands; the host's never expires. */
  lemma StepKeeps(w: World, e: Event)
    requires Inv(w) && Timely(w, e)
    ensures Inv(StepF(w, e))
  {
    hide Inv, StepF;
    match e
    case Acquire(rail, user) => AcquireKeeps(w, rail, user);
    case Release(rail, user) => ReleaseKeeps(w, rail, user);
    case Poll(count) => PollKeeps(w, count);
    case _ => OtherKeeps(w, e);
  }

  /** The rail never goes from off to on while the stage is enabled. */
  lemma NoSurge(w: World, e: Event)
    requires Inv(w) && Timely(w, e) && w.r.stage && !w.r.pin
    ensures !StepF(w, e).r.pin
  {
    assert !Any(w.r.users);
    assert forall u :: 0 <= u < USERS ==> !w.r.users[u];
    match e
    case Poll(count) => PollShut(w, count);
    case Acquire(rail, user) => assert AcquireOk(w.r, rail, user) == false;
    case Release(rail, user) =>
    case _ =>
  }

  lemma PollShut(w: World, count: nat)
    requires Inv(w) && Timely(w, Poll(count)) && !w.r.pin
    ensures !StepF(w, Poll(count)).r.pin
  {
    assert forall u :: 0 <= u < USERS ==> !w.r.users[u];
    PollHost(w, count);
    var t := StepF(w, Poll(count));
    hide PollF, HostOk, LeaseOk, Inv;
    forall u | 0 <= u < USERS ensures !t.r.users[u] {
      if u != HOST {
        PollEnds(w, count, u);
      }
    }
  }

  // ---- runs ----

  function Run(w: World, es: seq<Event>): (t: World)
    requires Sized(w)
    ensures Sized(t)
    decreases |es|
  {
    if es == [] then w else Run(StepF(w, es[0]), es[1..])
  }

  predicate TimelyRun(w: World, es: seq<Event>)
    requires Sized(w)
    decreases |es|
  {
    es != [] ==> Timely(w, es[0]) && TimelyRun(StepF(w, es[0]), es[1..])
  }

  /** The rail as the board starts: nobody holding it, the pin off, the host not yet heard. */
  predicate Initial(w: World) {
    && w.r.users == [false, false, false, false, false] && w.r.expires == [0, 0, 0, 0, 0]
    && !w.r.pin && w.r.seenCount == 0 && w.r.seenAt == 0 && !w.r.told
    && w.due == [0, 0, 0, 0, 0] && w.polled == 0 && w.heardAt == 0
  }

  lemma {:induction false} RunKeeps(w: World, es: seq<Event>)
    requires Sized(w) && Inv(w) && TimelyRun(w, es)
    ensures Inv(Run(w, es))
    decreases |es|
  {
    hide Inv, StepF, Timely;
    if es != [] {
      StepKeeps(w, es[0]);
      RunKeeps(StepF(w, es[0]), es[1..]);
    }
  }

  lemma InitialInv(w: World)
    requires Initial(w)
    ensures Inv(w)
  {
    assert forall u :: 0 <= u < USERS ==> LeaseOk(w, u);
  }

  /** One user's lease left alone: not renewed, not released. */
  predicate Untouched(e: Event, u: nat) {
    !(e.Acquire? && e.user == u) && !(e.Release? && e.user == u) && !e.ReleaseAll?
  }

  /** A poll in the run at or past a time. */
  predicate PolledAt(w: World, es: seq<Event>, due: nat)
    requires Sized(w)
    decreases |es|
  {
    es != [] && ((es[0].Poll? && w.time >= due) || PolledAt(StepF(w, es[0]), es[1..], due))
  }

  lemma LeaseStep(w: World, e: Event, u: nat)
    requires Sized(w) && Inv(w) && Timely(w, e) && Untouched(e, u) && 1 <= u < USERS && w.r.users[u]
    ensures var t := StepF(w, e);
      && Inv(t) && t.r.users[u] == !(e.Poll? && w.time >= w.due[u])
      && (t.r.users[u] ==> t.due[u] == w.due[u])
  {
    StepKeeps(w, e);
    hide Inv, PollF, LeaseEnd, TrueEnd, Any;
    match e
    case Poll(count) => PollEnds(w, count, u);
    case _ =>
  }

  /** A lease neither renewed nor released is held over any run of timely polls exactly until the
      first of them at or past its end; and it does not come back by itself. */
  lemma {:induction false} LeaseRun(w: World, es: seq<Event>, u: nat)
    requires Sized(w) && Inv(w) && TimelyRun(w, es) && 1 <= u < USERS && w.r.users[u]
    requires forall i :: 0 <= i < |es| ==> Untouched(es[i], u)
    ensures (Run(w, es).r.users[u] <==> !PolledAt(w, es, w.due[u]))
    decreases |es|
  {
    hide Inv, StepF, Timely, Untouched;
    if es == [] {
    } else {
      var t := StepF(w, es[0]);
      LeaseStep(w, es[0], u);
      if t.r.users[u] {
        LeaseRun(t, es[1..], u);
      } else {
        StaysOff(t, es[1..], u);
      }
    }
  }

  lemma OffStep(w: World, e: Event, u: nat)
    requires Sized(w) && Inv(w) && Timely(w, e) && Untouched(e, u) && 1 <= u < USERS && !w.r.users[u]
    ensures Inv(StepF(w, e)) && !StepF(w, e).r.users[u]
  {
    StepKeeps(w, e);
    hide Inv, PollF, LeaseEnd, TrueEnd, Any;
    match e
    case Poll(count) => PollEnds(w, count, u);
    case _ =>
  }

  lemma {:induction false} StaysOff(w: World, es: seq<Event>, u: nat)
    requires Sized(w) && Inv(w) && TimelyRun(w, es) && 1 <= u < USERS && !w.r.users[u]
    requires forall i :: 0 <= i < |es| ==> Untouched(es[i], u)
    ensures !Run(w, es).r.users[u]
    decreases |es|
  {
    hide Inv, StepF, Timely, Untouched;
    if es != [] {
      OffStep(w, es[0], u);
      StaysOff(StepF(w, es[0]), es[1..], u);
    }
  }
}
