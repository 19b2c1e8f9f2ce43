/** The two rings as the board keeps them, their slots an array written in place. */
module RingCore {
  import opened Ring
  import L = LogRing
  import E = LogEvents
  import U = UartRing

  class SampleLog {
    const ring: array<L.Sample>
    var head: nat
    var tail: nat
    var dropped: nat
    var sources: nat
    var serials: seq<nat>
    var thinned: nat
    var minGap: nat
    var lastAt: seq<nat>

    predicate Valid()
      reads this
    {
      ring.Length == L.DEPTH && head < L.DEPTH && tail < L.DEPTH
      && |serials| == L.SOURCES && |lastAt| == L.SOURCES
    }

    function Slots(): Ring<L.Sample>
      requires Valid()
      reads this, ring
      ensures Ok(Slots())
    {
      Ring(ring[..], head, tail)
    }

    function At(): (l: L.Log)
      requires Valid()
      reads this, ring
      ensures L.Shaped(l)
    {
      L.Log(Slots(), dropped, sources, serials, thinned, minGap, lastAt)
    }

    constructor (blank: L.Sample)
      ensures Valid() && fresh(ring) && Held(Slots()) == [] && sources == 0 && dropped == 0
    {
      ring := new L.Sample[L.DEPTH](_ => blank);
      head, tail, dropped, sources, thinned, minGap := 0, 0, 0, 0, 0, 0;
      serials, lastAt := [0, 0, 0, 0], [0, 0, 0, 0];
    }

    method Enable(which: nat, gap: nat, now: nat)
      requires Valid()
      modifies this
      ensures Valid() && At() == L.EnableF(old(At()), which, gap, now) && Held(Slots()) == []
    {
      sources, minGap, head, tail, dropped, thinned := which, gap, 0, 0, 0, 0;
      serials := [0, 0, 0, 0];
      for i := 0 to L.SOURCES
        invariant Valid()
        invariant head == 0 && tail == 0 && dropped == 0 && thinned == 0
        invariant sources == which && minGap == gap && serials == [0, 0, 0, 0]
        invariant forall k :: 0 <= k < i ==> lastAt[k] == (now - gap) % L.TURN
      {
        lastAt := lastAt[i := (now - gap) % L.TURN];
      }
      ghost var past := (now - gap) % L.TURN;
      assert lastAt == [past, past, past, past];
    }

    /** A push run through without being preempted: refused, thinned, stored behind what is held,
        or dropped and counted. */
    method Push(source: nat, now: nat, v: seq<int>)
      requires Valid()
      modifies this, ring
      ensures Valid()
      ensures var made := L.Made(old(At()), source, now, v);
              var entered := L.EnterF(old(At()), source, now);
              At() == if made.Some? then L.StoreF(entered, made.value) else entered
      ensures !E.Armed(old(sources), source) ==> At() == old(At())
      ensures E.Armed(old(sources), source) ==>
                if old(minGap) != 0 && (now - old(lastAt)[source]) % 0x1_0000_0000 < old(minGap) then
                  At() == old(At()).(thinned := (old(thinned) + 1) % 0x1_0000_0000)
                else
                  var held, was := Held(Slots()), old(Held(Slots()));
                  && lastAt == old(lastAt)[source := now]
                  && serials == old(serials)[source := (old(serials)[source] + 1) % 256]
                  && if |was| == 1023 then held == was && dropped == (old(dropped) + 1) % 0x1_0000_0000
                     else
                       && |held| == |was| + 1 && held[..|was|] == was && dropped == old(dropped)
                       && E.Carries(held[|was|], E.Pushed(source, now, v))
                       && held[|was|].serial == old(serials)[source]
    {
      hide Held, Put, E.Carries, E.Armed, L.Four, L.BitOf;
      E.ArmedTakes(sources, source);
      CountIs(Slots());
      if !L.Takes(sources, source) {
        return;
      }
      if minGap != 0 && L.Since(now, lastAt[source]) < minGap {
        thinned := (thinned + 1) % L.TURN;
        return;
      }
      lastAt := lastAt[source := now];
      var rec := L.Sample(now, source, serials[source], L.Four(v));
      E.FourCarries(source, now, serials[source], v);
      serials := serials[source := (serials[source] + 1) % L.SEQ_TURN];
      PutHeld(Slots(), rec);
      Store(rec);
    }

    method Store(x: L.Sample)
      requires Valid()
      modifies this`head, this`dropped, ring
      ensures Valid() && At() == L.StoreF(old(At()), x)
    {
      var next := NextOf(head, L.DEPTH);
      if next == tail {
        dropped := (dropped + 1) % L.TURN;
      } else {
        ring[head] := x;
        head := next;
      }
    }

    method Fill() returns (n: nat)
      requires Valid()
      ensures n == |Held(Slots())|
    {
      CountIs(Slots());
      n := if head >= tail then head - tail else L.DEPTH - tail + head;
    }

    /** The oldest record, and the tail past it. */
    method TakeOne() returns (x: L.Sample)
      requires Valid() && tail != head
      modifies this`tail
      ensures Valid() && old(Held(Slots())) == [x] + Held(Slots())
    {
      ghost var was := Slots();
      CountIs(was);
      AdvanceHeld(was);
      x := ring[tail];
      tail := NextOf(tail, L.DEPTH);
      assert Slots() == Advance(was);
      assert Held(was) == [Held(was)[0]] + Held(was)[1..];
    }

    /** The oldest records, up to as many as asked for, oldest first, and the ring without them. */
    method Take(most: nat) returns (out: seq<L.Sample>)
      requires Valid()
      modifies this`tail
      ensures Valid() && |out| <= most
      ensures out + Held(Slots()) == old(Held(Slots()))
      ensures |out| == most || Held(Slots()) == []
    {
      hide Held;
      out := [];
      while |out| < most && tail != head
        invariant Valid() && |out| <= most
        invariant out + Held(Slots()) == old(Held(Slots()))
        decreases most - |out|
      {
        ghost var held := Held(Slots());
        var x := TakeOne();
        assert out + held == (out + [x]) + Held(Slots());
        out := out + [x];
      }
      CountIs(Slots());
    }
  }

  class Port {
    const ring: array<U.Stamped>
    var head: nat
    var tail: nat
    var dropped: nat

    predicate Valid()
      reads this
    {
      ring.Length == U.DEPTH && head < U.DEPTH && tail < U.DEPTH
    }

    function Slots(): Ring<U.Stamped>
      requires Valid()
      reads this, ring
      ensures Ok(Slots())
    {
      Ring(ring[..], head, tail)
    }

    constructor ()
      ensures Valid() && fresh(ring) && Held(Slots()) == [] && dropped == 0
    {
      ring := new U.Stamped[U.DEPTH](_ => U.Stamped(0, 0));
      head, tail, dropped := 0, 0, 0;
    }

    /** A byte behind what is held, or counted as dropped, what is held left as it was. */
    method RingPush(byte: nat, tick: nat)
      requires Valid()
      modifies this`head, this`dropped, ring
      ensures Valid()
      ensures |old(Held(Slots()))| < U.DEPTH - 1 ==>
                Held(Slots()) == old(Held(Slots())) + [U.Stamped(byte, tick)] && dropped == old(dropped)
      ensures |old(Held(Slots()))| == U.DEPTH - 1 ==>
                Held(Slots()) == old(Held(Slots())) && dropped == (old(dropped) + 1) % U.TURN
    {
      CountIs(Slots());
      PutHeld(Slots(), U.Stamped(byte, tick));
      ghost var was := Slots();
      var next := NextOf(head, U.DEPTH);
      if next == tail {
        dropped := (dropped + 1) % U.TURN;
        return;
      }
      ring[head] := U.Stamped(byte, tick);
      head := next;
      assert Slots() == Put(was, U.Stamped(byte, tick));
    }

    /** Takes what has been held longest, if anything is. */
    method RingPop() returns (got: Option<U.Stamped>)
      requires Valid()
      modifies this`tail
      ensures Valid()
      ensures old(Held(Slots())) == [] ==> got.None? && Held(Slots()) == []
      ensures old(Held(Slots())) != [] ==> got.Some? && [got.value] + Held(Slots()) == old(Held(Slots()))
    {
      CountIs(Slots());
      if tail == head {
        return None;
      }
      ghost var was := Slots();
      AdvanceHeld(was);
      got := Some(ring[tail]);
      tail := NextOf(tail, U.DEPTH);
      assert Slots() == Advance(was);
      assert Held(was) == [Held(was)[0]] + Held(was)[1..];
    }

    method Purge()
      requires Valid()
      modifies this`tail
      ensures Valid() && Held(Slots()) == []
    {
      tail := head;
    }
  }
}
