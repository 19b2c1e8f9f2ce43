/** A serial port's receive ring: bytes stamped in by the interrupt, taken by the main loop, and
    purged by it, every interleaving of the three. */
module UartRing {
  import opened Ring

  const DEPTH := 256
  const TURN := 0x1_0000_0000

  datatype Stamped = Stamped(byte: nat, tick: nat)

  /** A head the purge has read and not yet written to the tail, and what was held at that read. */
  datatype Look = NoLook | Seen(index: nat, fill: nat)

  /** The port's ring with the main loop's step under way, and what has happened: every byte that
      came, those that found room, and those gone by, read or purged. */
  datatype System = System(ring: Ring<Stamped>, dropped: nat, copy: Option<Stamped>, look: Look,
                           came: nat, kept: seq<Stamped>, gone: seq<Stamped>, read: nat, purged: nat)

  datatype Event = Arrive(x: Stamped) | Copy | Step | LookUp | Purge

  predicate Sized(s: System) {
    Ok(s.ring) && |s.ring.slots| == DEPTH && (s.look.Seen? ==> s.look.index < DEPTH)
  }

  /** The main loop does one thing at a time; the interrupt comes between any two of its steps. */
  predicate Legal(s: System, e: Event)
    requires Sized(s)
  {
    match e
    case Arrive(_) => true
    case Copy => s.copy.None? && s.look.NoLook? && s.ring.tail != s.ring.head
    case Step => s.copy.Some?
    case LookUp => s.copy.None? && s.look.NoLook?
    case Purge => s.look.Seen?
  }

  function StepF(s: System, e: Event): System
    requires Sized(s) && Legal(s, e)
  {
    match e
    case Arrive(x) =>
      if Full(s.ring) then s.(came := s.came + 1, dropped := (s.dropped + 1) % TURN)
      else s.(came := s.came + 1, ring := Put(s.ring, x), kept := s.kept + [x])
    case Copy => s.(copy := Some(s.ring.slots[s.ring.tail]))
    case Step =>
      s.(ring := Advance(s.ring), copy := None, gone := s.gone + [s.copy.value], read := s.read + 1)
    case LookUp => s.(look := Seen(s.ring.head, |Held(s.ring)|))
    case Purge =>
      var passed := HeldTo(s.ring, s.look.index);
      s.(ring := Ring(s.ring.slots, s.ring.head, s.look.index), look := NoLook,
         gone := s.gone + passed, purged := s.purged + |passed|)
  }

  predicate Queued(s: System)
    requires Sized(s)
  {
    && s.gone + Held(s.ring) == s.kept
    && |s.gone| == s.read + s.purged
    && s.dropped == (s.came - |s.kept|) % TURN && |s.kept| <= s.came
  }

  /** The main loop's own place in its step, which no interrupt has moved. */
  predicate Placed(s: System)
    requires Sized(s)
  {
    && (s.copy.Some? ==> Held(s.ring) != [] && s.copy.value == Held(s.ring)[0])
    && (s.look.Seen? ==> s.look.fill <= |Held(s.ring)| && s.look.fill < DEPTH
                         && s.look.index == On(s.ring.tail, s.look.fill, DEPTH))
    && (s.copy.None? || s.look.NoLook?)
  }

  predicate Inv(s: System) { Sized(s) && Queued(s) && Placed(s) }

  /** A port just opened: nothing held, whatever its slots hold, and nothing of it yet happened. */
  function Opened(slots: seq<Stamped>): System {
    System(Ring(slots, 0, 0), 0, None, NoLook, 0, [], [], 0, 0)
  }

  lemma StartsEmpty(slots: seq<Stamped>)
    requires |slots| == DEPTH
    ensures Inv(Opened(slots))
  {
    CountIs(Ring(slots, 0, 0));
  }

  lemma Same(n: int)
    requires n >= 0
    ensures (n % TURN + 1) % TURN == (n + 1) % TURN
  {
  }

  lemma ArriveKeeps(s: System, x: Stamped)
    requires Inv(s)
    ensures Inv(StepF(s, Arrive(x)))
  {
    PutHeld(s.ring, x);
    Same(s.came - |s.kept|);
    hide Held, Put, Full, NextOf;
    var t := StepF(s, Arrive(x));
    if !Full(s.ring) {
      assert t.ring.tail == s.ring.tail by { PutTail(s.ring, x); }
      assert s.gone + (Held(s.ring) + [x]) == (s.gone + Held(s.ring)) + [x];
    }
  }

  lemma PutTail<T>(r: Ring<T>, x: T)
    requires Ok(r)
    ensures Put(r, x).tail == r.tail
  {
  }

  lemma CopyKeeps(s: System)
    requires Inv(s) && Legal(s, Copy)
    ensures Inv(StepF(s, Copy))
  {
    CountIs(s.ring);
    AdvanceHeld(s.ring);
    hide Held;
  }

  lemma StepKeeps(s: System)
    requires Inv(s) && Legal(s, Step)
    ensures Inv(StepF(s, Step))
  {
    var r := s.ring;
    AdvanceHeld(r);
    assert Held(r) == [Held(r)[0]] + Held(r)[1..];
    assert s.gone + Held(r) == (s.gone + [Held(r)[0]]) + Held(r)[1..];
    assert |Advance(r).slots| == DEPTH;
    hide Advance, Held;
  }

  lemma LookKeeps(s: System)
    requires Inv(s) && Legal(s, LookUp)
    ensures Inv(StepF(s, LookUp))
  {
    HeadIs(s.ring);
    hide Held;
  }

  lemma PurgeKeeps(s: System)
    requires Inv(s) && Legal(s, Purge)
    ensures Inv(StepF(s, Purge))
    ensures StepF(s, Purge).look.NoLook? && Held(StepF(s, Purge).ring) == Held(s.ring)[s.look.fill..]
  {
    var r, n := s.ring, s.look.fill;
    CountIs(r);
    SkipHeld(r, n);
    HeldToIs(r, n);
    assert Held(r) == Held(r)[..n] + Held(r)[n..];
    assert s.gone + Held(r) == (s.gone + Held(r)[..n]) + Held(r)[n..];
    hide Held, HeldTo;
  }

  /** Under every interleaving the bytes go by in the order they found room, none written over and
      none twice; what came is what was read, what was purged, what is held and what was dropped.
      A purge passes exactly what was held when it looked: a byte that came since stays. */
  lemma EveryStep(s: System, e: Event)
    requires Inv(s) && Legal(s, e)
    ensures Inv(StepF(s, e))
  {
    hide Queued, Placed, StepF, Held;
    match e
    case Arrive(x) => ArriveKeeps(s, x);
    case Copy => CopyKeeps(s);
    case Step => StepKeeps(s);
    case LookUp => LookKeeps(s);
    case Purge => PurgeKeeps(s);
  }

  predicate LegalRun(s: System, es: seq<Event>)
    requires Sized(s)
    decreases |es|
  {
    es != [] ==> Legal(s, es[0]) && Sized(StepF(s, es[0])) && LegalRun(StepF(s, es[0]), es[1..])
  }

  function Run(s: System, es: seq<Event>): System
    requires Sized(s) && LegalRun(s, es)
    decreases |es|
  {
    if es == [] then s else Run(StepF(s, es[0]), es[1..])
  }

  lemma {:induction false} RunAccounts(s: System, es: seq<Event>)
    requires Inv(s) && LegalRun(s, es)
    ensures var t := Run(s, es);
      && Inv(t) && t.gone + Held(t.ring) == t.kept
      && |t.kept| == t.read + t.purged + Count(t.ring)
    decreases |es|
  {
    hide StepF, Legal, Held, Placed, Count;
    if es != [] {
      EveryStep(s, es[0]);
      RunAccounts(StepF(s, es[0]), es[1..]);
    } else {
      CountIs(s.ring);
    }
  }
}
