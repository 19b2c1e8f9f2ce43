/** A serial port's ring against the queue it stands for: a list of at most 255 bytes that knows
    nothing of slots, heads or tails. */
module UartQueue {
  import opened Ring
  import opened UartRing

  /** What waits, how many found no room, what has gone by, and how much a purge has looked at. */
  datatype Line = Line(waiting: seq<Stamped>, lost: nat, gone: seq<Stamped>, looked: nat)

  /** A byte arriving joins the end or is lost; the reader takes the first; a purge drops as many as
      were waiting when it looked, those that came since left. */
  function Next(l: Line, e: Event): Line {
    match e
    case Arrive(x) =>
      if |l.waiting| < 255 then l.(waiting := l.waiting + [x]) else l.(lost := l.lost + 1)
    case Step =>
      if l.waiting == [] then l
      else l.(waiting := l.waiting[1..], gone := l.gone + [l.waiting[0]])
    case LookUp => l.(looked := |l.waiting|)
    case Purge =>
      if l.looked > |l.waiting| then l
      else l.(waiting := l.waiting[l.looked..], gone := l.gone + l.waiting[..l.looked])
    case Copy => l
  }

  function NextAll(l: Line, es: seq<Event>): Line
    decreases |es|
  {
    if es == [] then l else NextAll(Next(l, es[0]), es[1..])
  }

  /** The ring holds what waits, byte for byte and tick for tick; what has gone by did so in order;
      what was lost is counted, round 2^32; and a byte copied out is the first one waiting. */
  predicate Stands(s: System, l: Line) {
    && Inv(s) && Held(s.ring) == l.waiting && s.gone == l.gone && s.dropped == l.lost % 0x1_0000_0000
    && (s.look.Seen? ==> s.look.fill == l.looked)
    && (s.copy.Some? ==> l.waiting != [] && s.copy.value == l.waiting[0])
  }

  lemma ArriveStands(s: System, l: Line, x: Stamped)
    requires Stands(s, l)
    ensures Stands(StepF(s, Arrive(x)), Next(l, Arrive(x)))
  {
    EveryStep(s, Arrive(x));
    PutHeld(s.ring, x);
    CountIs(s.ring);
    Same(l.lost);
    hide Held, Put, Full, Queued, Placed;
  }

  lemma TakeStands(s: System, l: Line, e: Event)
    requires Stands(s, l) && Legal(s, e) && (e.Copy? || e.Step?)
    ensures Stands(StepF(s, e), Next(l, e))
  {
    EveryStep(s, e);
    CountIs(s.ring);
    AdvanceHeld(s.ring);
    hide Held, Advance, Queued, Placed;
  }

  lemma PurgeStands(s: System, l: Line, e: Event)
    requires Stands(s, l) && Legal(s, e) && (e.LookUp? || e.Purge?)
    ensures Stands(StepF(s, e), Next(l, e))
  {
    EveryStep(s, e);
    if e.Purge? {
      PurgeKeeps(s);
      CountIs(s.ring);
      HeldToIs(s.ring, s.look.fill);
    }
    hide Held, HeldTo, Queued;
  }

  lemma StandsInv(s: System, l: Line)
    requires Stands(s, l)
    ensures Inv(s)
  {
  }

  /** Over every interleaving of the interrupt and the main loop, and of a purge with both, the ring
      is that queue. */
  lemma {:induction false} RingIsQueue(s: System, es: seq<Event>, l: Line)
    requires Stands(s, l) && LegalRun(s, es)
    ensures Stands(Run(s, es), NextAll(l, es))
    decreases |es|
  {
    hide Stands, StepF, Next, Legal, Queued, Placed, Held;
    StandsInv(s, l);
    if es != [] {
      match es[0] {
        case Arrive(x) => ArriveStands(s, l, x);
        case Copy => TakeStands(s, l, es[0]);
        case Step => TakeStands(s, l, es[0]);
        case LookUp => PurgeStands(s, l, es[0]);
        case Purge => PurgeStands(s, l, es[0]);
      }
      RingIsQueue(StepF(s, es[0]), es[1..], Next(l, es[0]));
    }
  }

  lemma OpenedStands(slots: seq<Stamped>)
    requires |slots| == DEPTH
    ensures Stands(Opened(slots), Line([], 0, [], 0))
  {
    StartsEmpty(slots);
  }
}
