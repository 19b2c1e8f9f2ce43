/** The rail's reference counts as the board keeps them, changed in place. */
module RailCore {
  import opened RailState

  class Power {
    var users: seq<bool>
    var expires: seq<nat>
    var pin: bool
    /** Whether the gate stage is enabled, which a session drop ends. */
    var stage: bool
    var seenCount: nat
    var seenAt: nat
    var told: bool

    predicate Valid()
      reads this
    {
      |users| == USERS && |expires| == USERS
    }

    function At(): (r: Rail)
      reads this
    {
      Rail(users, expires, pin, stage, seenCount, seenAt, told)
    }

    constructor ()
      ensures Valid() && !pin && seenCount == 0 && seenAt == 0 && !told
      ensures users == [false, false, false, false, false] && expires == [0, 0, 0, 0, 0]
    {
      users, expires := [false, false, false, false, false], [0, 0, 0, 0, 0];
      pin, stage, seenCount, seenAt, told := false, false, 0, 0, false;
    }

    method SetPin()
      modifies this`pin
      ensures At() == Apply(old(At()))
    {
      pin := true in users;
    }

    /** Takes a hold: refused only where it is a new one and would switch the rail under an
        enabled stage. */
    method Acquire(rail: nat, user: nat, now: nat) returns (held: bool)
      requires Valid()
      modifies this
      ensures Valid() && At() == AcquireF(old(At()), rail, user, now)
      ensures held <==> rail == 0 && user < 5 && (old(users)[user] || !old(stage))
      ensures held ==> users == old(users)[user := true] && pin
      ensures held ==> expires == old(expires)[user := if user == 0 then 0
                                               else if (now + 3000) % 0x1_0000_0000 == 0 then 1
                                               else (now + 3000) % 0x1_0000_0000]
      ensures !held ==> At() == old(At())
    {
      if rail >= RAILS || user >= USERS {
        return false;
      }
      if !users[user] && stage {
        return false;
      }
      users := users[user := true];
      var at := (now + LEASE_MS) % TURN;
      if at == 0 {
        at := 1;
      }
      expires := expires[user := if user == HOST then 0 else at];
      assert users[user];
      SetPin();
      return true;
    }

    method Let(user: nat)
      requires Valid() && user < USERS
      modifies this
      ensures Valid() && At() == Drop(old(At()), user)
    {
      users := users[user := false];
      expires := expires[user := 0];
      SetPin();
    }

    method Release(rail: nat, user: nat) returns (off: bool)
      requires Valid()
      modifies this
      ensures Valid() && At() == ReleaseF(old(At()), rail, user)
      ensures off == (rail < RAILS && user < USERS && !Any(users))
    {
      if rail >= RAILS || user >= USERS {
        return false;
      }
      Let(user);
      return !(true in users);
    }

    method ReleaseAll()
      requires Valid()
      modifies this
      ensures Valid() && At() == ReleaseAllF(old(At()))
    {
      ghost var was := At();
      users := seq(USERS, _ => false);
      for user := 0 to USERS
        invariant Valid() && users == seq(USERS, _ => false)
        invariant forall u :: 0 <= u < user ==> expires[u] == 0
        invariant At() == was.(users := users, expires := expires)
      {
        expires := expires[user := 0];
      }
      assert expires == seq(USERS, _ => 0);
      SetPin();
    }

    /** Not heard for long enough, the host holds the rail no more and its stage is off, once; every
        other user's hold and lease stand, and the pin goes on saying whether anyone holds it. */
    method DropHostClaims(heard: nat, now: nat)
      requires Valid()
      modifies this
      ensures Valid() && At() == DropHostF(old(At()), heard, now)
      ensures old(pin) == Any(old(users)) ==>
                var quiet := Quiet(Heard(old(At()), heard, now), now);
                && pin == Any(users)
                && users[HOST] == (old(users)[HOST] && !quiet) && stage == (old(stage) && !quiet)
                && told == (Heard(old(At()), heard, now).told || quiet)
                && (forall u :: 1 <= u < USERS ==>
                      users[u] == old(users)[u] && expires[u] == old(expires)[u])
    {
      if pin == Any(users) { DropHostIs(At(), heard, now); }
      hide Drop, Any;
      if heard != seenCount {
        seenCount, seenAt, told := heard, now, false;
      }
      if told || (now - seenAt) % TURN <= QUIET_MS {
        return;
      }
      told := true;
      if users[HOST] {
        Let(HOST);
      }
      stage := false;
    }

    /** Lets go of each lease that has run out by now. */
    method ExpireLeases(now: nat)
      requires Valid()
      modifies this
      ensures Valid() && At() == ExpireTo(old(At()), now, USERS)
    {
      hide Drop, Past;
      for user := 0 to USERS
        invariant Valid() && At() == ExpireTo(old(At()), now, user)
      {
        if expires[user] != 0 && Past(now, expires[user]) {
          Let(user);
        }
      }
    }

    method Poll(heard: nat, now: nat)
      requires Valid()
      modifies this
      ensures Valid() && At() == PollF(old(At()), heard, now)
    {
      hide DropHostF, ExpireTo;
      DropHostClaims(heard, now);
      ExpireLeases(now);
    }
  }
}
