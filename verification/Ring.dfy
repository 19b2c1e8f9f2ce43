/** A ring of slots between a head that writes and a tail that reads, one slot always free: what
    it holds, as a queue. */
module Ring {
  datatype Option<T> = None | Some(value: T)

  datatype Ring<T> = Ring(slots: seq<T>, head: nat, tail: nat)

  predicate Ok<T>(r: Ring<T>) { |r.slots| >= 2 && r.head < |r.slots| && r.tail < |r.slots| }

  function NextOf(i: nat, depth: nat): nat
    requires depth >= 1
  {
    (i + 1) % depth
  }

  /** What the ring holds, oldest first. */
  function Held<T>(r: Ring<T>): seq<T>
    requires Ok(r)
  {
    if r.tail <= r.head then r.slots[r.tail..r.head] else r.slots[r.tail..] + r.slots[..r.head]
  }

  predicate Full<T>(r: Ring<T>)
    requires Ok(r)
  {
    NextOf(r.head, |r.slots|) == r.tail
  }

  /** The producer's step: the record in and the head on, or nothing when full. */
  function Put<T>(r: Ring<T>, x: T): Ring<T>
    requires Ok(r)
  {
    if Full(r) then r
    else Ring(r.slots[r.head := x], NextOf(r.head, |r.slots|), r.tail)
  }

  /** The consumer's second step: the tail on. */
  function Advance<T>(r: Ring<T>): Ring<T>
    requires Ok(r)
  {
    Ring(r.slots, r.head, NextOf(r.tail, |r.slots|))
  }

  /** The fill as the indices give it. */
  function Count<T>(r: Ring<T>): int
    requires Ok(r)
  {
    if r.head >= r.tail then r.head - r.tail else |r.slots| - r.tail + r.head
  }

  lemma NextIs(i: nat, depth: nat)
    requires depth >= 1 && i < depth
    ensures NextOf(i, depth) == if i + 1 == depth then 0 else i + 1
  {
  }

  /** The indices give the fill, it leaves one slot free, and full means all but that one. */
  lemma CountIs<T>(r: Ring<T>)
    requires Ok(r)
    ensures Count(r) == |Held(r)| && |Held(r)| <= |r.slots| - 1
    ensures Full(r) <==> |Held(r)| == |r.slots| - 1
    ensures r.head == r.tail <==> Held(r) == []
  {
    NextIs(r.head, |r.slots|);
  }

  /** A record put in goes behind what is held, or the ring is full and nothing changes. */
  lemma PutHeld<T>(r: Ring<T>, x: T)
    requires Ok(r)
    ensures Ok(Put(r, x)) && |Put(r, x).slots| == |r.slots|
    ensures Held(Put(r, x)) == if Full(r) then Held(r) else Held(r) + [x]
  {
    NextIs(r.head, |r.slots|);
    if !Full(r) {
      var p := Put(r, x);
      if r.tail <= r.head {
        if p.head == 0 {
          assert p.slots[r.tail..] == r.slots[r.tail..r.head] + [x];
        } else {
          assert p.slots[r.tail..p.head] == r.slots[r.tail..r.head] + [x];
        }
      } else {
        assert p.slots[r.tail..] == r.slots[r.tail..];
        assert p.slots[..p.head] == r.slots[..r.head] + [x];
      }
    }
  }

  /** No record the ring holds is written over: the slot a record goes into is a free one. */
  lemma PutLeaves<T>(r: Ring<T>, x: T)
    requires Ok(r) && Held(r) != []
    ensures Put(r, x).tail == r.tail && Put(r, x).slots[r.tail] == r.slots[r.tail]
  {
  }

  /** What the tail stands on is the oldest, and passing it leaves the rest. */
  lemma AdvanceHeld<T>(r: Ring<T>)
    requires Ok(r) && Held(r) != []
    ensures r.slots[r.tail] == Held(r)[0]
    ensures Ok(Advance(r)) && Held(Advance(r)) == Held(r)[1..]
  {
    NextIs(r.tail, |r.slots|);
    var a := Advance(r);
    if r.tail < r.head {
      assert Held(a) == Held(r)[1..];
    } else if a.tail == 0 {
      assert r.slots[r.tail..] == [r.slots[r.tail]];
      assert Held(a) == Held(r)[1..];
    } else {
      assert Held(a) == Held(r)[1..];
    }
  }

  /** The index so many slots on. */
  function On(i: nat, n: nat, depth: nat): nat
    requires i < depth && n < depth
  {
    if i + n < depth then i + n else i + n - depth
  }

  /** A tail set to a head seen earlier passes what was held then and keeps what came since. */
  lemma SkipHeld<T>(r: Ring<T>, n: nat)
    requires Ok(r) && n <= |Held(r)| < |r.slots|
    ensures var s := Ring(r.slots, r.head, On(r.tail, n, |r.slots|)); Ok(s) && Held(s) == Held(r)[n..]
  {
    var s := Ring(r.slots, r.head, On(r.tail, n, |r.slots|));
    if r.tail <= r.head {
      assert r.slots[s.tail..r.head] == r.slots[r.tail..r.head][n..];
    } else if r.tail + n < |r.slots| {
      assert r.slots[s.tail..] == r.slots[r.tail..][n..];
    } else {
      assert r.slots[s.tail..r.head] == r.slots[..r.head][s.tail..];
    }
  }

  /** The head stands the fill on from the tail. */
  lemma HeadIs<T>(r: Ring<T>)
    requires Ok(r)
    ensures |Held(r)| < |r.slots| && r.head == On(r.tail, |Held(r)|, |r.slots|)
  {
  }

  /** What a ring holds up to a head seen earlier. */
  function HeldTo<T>(r: Ring<T>, seen: nat): seq<T>
    requires Ok(r) && seen < |r.slots|
  {
    Held(Ring(r.slots, seen, r.tail))
  }

  lemma HeldToIs<T>(r: Ring<T>, n: nat)
    requires Ok(r) && n <= |Held(r)| < |r.slots|
    ensures On(r.tail, n, |r.slots|) < |r.slots|
    ensures HeldTo(r, On(r.tail, n, |r.slots|)) == Held(r)[..n]
  {
    var k := On(r.tail, n, |r.slots|);
    if r.tail <= r.head {
      assert r.slots[r.tail..k] == r.slots[r.tail..r.head][..n];
    } else if r.tail + n < |r.slots| {
      assert r.slots[r.tail..k] == r.slots[r.tail..][..n];
    } else {
      assert r.slots[..k] == r.slots[..r.head][..k];
    }
  }
}
