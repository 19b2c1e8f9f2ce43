/** The measurement log under its interrupts: pushes that preempt each other between their count
    and their masked store, and a reader that is preempted between its copy and its step. */
module LogRing {
  import opened Ring

  const DEPTH := 1024
  const SOURCES := 4
  const TURN := 0x1_0000_0000   // the cycle counter's and the counters' wrap
  const SEQ_TURN := 256

  /** One record: when, whose, which in its source's run, and four readings. */
  datatype Sample = Sample(at: nat, source: nat, serial: nat, v: seq<int>)

  datatype Log = Log(ring: Ring<Sample>, dropped: nat, sources: nat, serials: seq<nat>,
                     thinned: nat, minGap: nat, lastAt: seq<nat>)

  /** A push gone through its store: the record, and whether there was room. */
  datatype Outcome = Outcome(sample: Sample, kept: bool)

  /** The log with the pushes under way, the reader's copy, and what has happened since it was
      last enabled: every push stored or dropped, in order, and every record read out. */
  datatype System = System(log: Log, pending: seq<Option<Sample>>, copy: Option<Sample>,
                           past: seq<Outcome>, taken: seq<Sample>)

  datatype Event =
    | Enable(sources: nat, gap: nat, now: nat)
    | Enter(source: nat, now: nat, v: seq<int>)
    | Store(source: nat)
    | Copy
    | Step

  // ---- the log's own steps ----

  function BitOf(source: nat): nat
    requires source < SOURCES
  {
    [1, 2, 4, 8][source]
  }

  predicate Takes(sources: nat, source: nat) {
    source < SOURCES && sources / BitOf(source) % 2 == 1
  }

  /** Cycles since, round the counter's wrap. */
  function Since(now: nat, then_: nat): nat { (now - then_) % TURN }

  predicate Shaped(l: Log) {
    Ok(l.ring) && |l.ring.slots| == DEPTH && |l.serials| == SOURCES && |l.lastAt| == SOURCES
  }

  function EnableF(l: Log, sources: nat, gap: nat, now: nat): Log
    requires Shaped(l)
  {
    var past := (now - gap) % TURN;
    Log(Ring(l.ring.slots, 0, 0), 0, sources, [0, 0, 0, 0], 0, gap, [past, past, past, past])
  }

  predicate TooSoon(l: Log, source: nat, now: nat)
    requires Shaped(l) && source < SOURCES
  {
    l.minGap != 0 && Since(now, l.lastAt[source]) < l.minGap
  }

  /** Four readings, those past the count zero. */
  function Four(v: seq<int>): seq<int> {
    [if |v| > 0 then v[0] else 0, if |v| > 1 then v[1] else 0,
     if |v| > 2 then v[2] else 0, if |v| > 3 then v[3] else 0]
  }

  /** The push up to its masked store: refused, thinned, or a record made and counted. */
  function EnterF(l: Log, source: nat, now: nat): Log
    requires Shaped(l)
  {
    if !Takes(l.sources, source) then l
    else if TooSoon(l, source, now) then l.(thinned := (l.thinned + 1) % TURN)
    else l.(lastAt := l.lastAt[source := now],
            serials := l.serials[source := (l.serials[source] + 1) % SEQ_TURN])
  }

  function Made(l: Log, source: nat, now: nat, v: seq<int>): Option<Sample>
    requires Shaped(l)
  {
    if !Takes(l.sources, source) || TooSoon(l, source, now) then None
    else Some(Sample(now, source, l.serials[source], Four(v)))
  }

  function StoreF(l: Log, x: Sample): Log
    requires Shaped(l)
  {
    if Full(l.ring) then l.(dropped := (l.dropped + 1) % TURN) else l.(ring := Put(l.ring, x))
  }

  // ---- the system's ----

  predicate Sized(s: System) { Shaped(s.log) && |s.pending| == SOURCES }

  predicate Legal(s: System, e: Event)
    requires Sized(s)
  {
    match e
    case Enable(_, _, _) => s.copy.None? && s.pending == [None, None, None, None]
    case Enter(source, _, _) => source < SOURCES ==> s.pending[source].None?
    case Store(source) => source < SOURCES && s.pending[source].Some?
    case Copy => s.copy.None? && Held(s.log.ring) != []
    case Step => s.copy.Some?
  }

  function StepF(s: System, e: Event): System
    requires Sized(s) && Legal(s, e)
  {
    match e
    case Enable(sources, gap, now) =>
      System(EnableF(s.log, sources, gap, now), [None, None, None, None], None, [], [])
    case Enter(source, now, v) =>
      var made := Made(s.log, source, now, v);
      s.(log := EnterF(s.log, source, now),
         pending := if made.Some? then s.pending[source := made] else s.pending)
    case Store(source) =>
      var x := s.pending[source].value;
      s.(log := StoreF(s.log, x), pending := s.pending[source := None],
         past := s.past + [Outcome(x, !Full(s.log.ring))])
    case Copy => s.(copy := Some(s.log.ring.slots[s.log.ring.tail]))
    case Step =>
      s.(log := s.log.(ring := Advance(s.log.ring)), copy := None, taken := s.taken + [s.copy.value])
  }

  // ---- what has happened ----

  /** The records that found room, in order. */
  function Kept(past: seq<Outcome>): seq<Sample> {
    if past == [] then []
    else Kept(past[..|past| - 1]) + if past[|past| - 1].kept then [past[|past| - 1].sample] else []
  }

  /** How many pushes of one source. */
  function CountOf(past: seq<Outcome>, source: nat): nat {
    if past == [] then 0
    else CountOf(past[..|past| - 1], source) + if past[|past| - 1].sample.source == source then 1 else 0
  }

  /** How many of them found the ring full. */
  function DropsOf(past: seq<Outcome>, source: nat): nat {
    if past == [] then 0
    else
      var o := past[|past| - 1];
      DropsOf(past[..|past| - 1], source) + if o.sample.source == source && !o.kept then 1 else 0
  }

  function Drops(past: seq<Outcome>): nat {
    if past == [] then 0 else Drops(past[..|past| - 1]) + if past[|past| - 1].kept then 0 else 1
  }

  lemma PastGrows(past: seq<Outcome>, o: Outcome, source: nat)
    ensures Kept(past + [o]) == Kept(past) + if o.kept then [o.sample] else []
    ensures CountOf(past + [o], source) == CountOf(past, source) + if o.sample.source == source then 1 else 0
    ensures Drops(past + [o]) == Drops(past) + if o.kept then 0 else 1
  {
    assert (past + [o])[..|past + [o]| - 1] == past;
  }

  // ---- the invariant ----

  /** In order, none lost and none twice: what was kept is what has been read and what is held. */
  predicate Queued(s: System)
    requires Sized(s)
  {
    && s.taken + Held(s.log.ring) == Kept(s.past)
    && (s.copy.Some? ==> Held(s.log.ring) != [] && s.copy.value == Held(s.log.ring)[0])
  }

  /** Each record carries its number among its source's pushes, dropped ones counted. */
  predicate Numbered(past: seq<Outcome>) {
    forall i :: 0 <= i < |past| ==>
      past[i].sample.serial == CountOf(past[..i], past[i].sample.source) % SEQ_TURN
  }

  predicate Counted(s: System)
    requires Sized(s)
  {
    && s.log.dropped == Drops(s.past) % TURN
    && Numbered(s.past)
    && forall k :: 0 <= k < SOURCES ==> SerialOk(s, k)
  }

  predicate SerialOk(s: System, k: nat)
    requires Sized(s) && k < SOURCES
  {
    && (s.pending[k].Some? ==> s.pending[k].value.source == k
                               && s.pending[k].value.serial == CountOf(s.past, k) % SEQ_TURN)
    && s.log.serials[k] == (CountOf(s.past, k) + if s.pending[k].Some? then 1 else 0) % SEQ_TURN
  }

  predicate Inv(s: System) { Sized(s) && Queued(s) && Counted(s) }

  lemma EnableKeeps(s: System, sources: nat, gap: nat, now: nat)
    requires Sized(s) && Legal(s, Enable(sources, gap, now))
    ensures Inv(StepF(s, Enable(sources, gap, now)))
  {
    var t := StepF(s, Enable(sources, gap, now));
    forall k | 0 <= k < SOURCES ensures SerialOk(t, k) {}
  }

  lemma EnterSerial(s: System, source: nat, now: nat, v: seq<int>, k: nat)
    requires Inv(s) && Legal(s, Enter(source, now, v)) && k < SOURCES
    ensures var t := StepF(s, Enter(source, now, v)); Sized(t) && SerialOk(t, k)
  {
    hide CountOf, Kept, Drops, TooSoon, Four, BitOf, Queued, Numbered, Held;
    assert SerialOk(s, k);
    NextSerial(CountOf(s.past, k));
    if Takes(s.log.sources, source) && !TooSoon(s.log, source, now) {
      if k == source {}
    }
  }

  lemma EnterKeeps(s: System, source: nat, now: nat, v: seq<int>)
    requires Inv(s) && Legal(s, Enter(source, now, v))
    ensures Inv(StepF(s, Enter(source, now, v)))
  {
    var t := StepF(s, Enter(source, now, v));
    assert t.log.ring == s.log.ring && t.past == s.past && t.log.dropped == s.log.dropped;
    hide CountOf, Kept, Drops, StepF, SerialOk, Held;
    forall k | 0 <= k < SOURCES ensures SerialOk(t, k) {
      EnterSerial(s, source, now, v, k);
    }
  }

  lemma NextSerial(n: nat)
    ensures (n % SEQ_TURN + 1) % SEQ_TURN == (n + 1) % SEQ_TURN
  {
  }

  lemma StoreQueues(s: System, source: nat)
    requires Inv(s) && Legal(s, Store(source))
    ensures var t := StepF(s, Store(source)); Sized(t) && Queued(t)
  {
    var x := s.pending[source].value;
    var r := s.log.ring;
    PutHeld(r, x);
    PastGrows(s.past, Outcome(x, !Full(r)), source);
    hide Put, Full, Kept, Held, Counted;
    var t := StepF(s, Store(source));
    assert t.log.ring == if Full(r) then r else Put(r, x);
    if !Full(r) {
      assert s.taken + (Held(r) + [x]) == (s.taken + Held(r)) + [x];
    }
  }

  lemma NumberedGrows(past: seq<Outcome>, o: Outcome)
    requires Numbered(past) && o.sample.serial == CountOf(past, o.sample.source) % SEQ_TURN
    ensures Numbered(past + [o])
  {
    hide CountOf;
    var all := past + [o];
    forall i | 0 <= i < |all|
      ensures all[i].sample.serial == CountOf(all[..i], all[i].sample.source) % SEQ_TURN
    {
      if i < |past| {
        assert all[..i] == past[..i];
      } else {
        assert all[..i] == past;
      }
    }
  }

  lemma StoreOwn(s: System, source: nat)
    requires Inv(s) && Legal(s, Store(source))
    ensures var t := StepF(s, Store(source)); Sized(t) && SerialOk(t, source)
  {
    StoreShape(s, source);
    assert SerialOk(s, source);
    PastGrows(s.past, Outcome(s.pending[source].value, !Full(s.log.ring)), source);
    hide Put, Full, Kept, Held, CountOf, Drops, Queued, Numbered;
    if Full(s.log.ring) {}
  }

  lemma StoreOther(s: System, source: nat, k: nat)
    requires Inv(s) && Legal(s, Store(source)) && k < SOURCES && k != source
    ensures var t := StepF(s, Store(source)); Sized(t) && SerialOk(t, k)
  {
    StoreShape(s, source);
    PendingSerial(s, source);
    assert SerialOk(s, k);
    PastGrows(s.past, Outcome(s.pending[source].value, !Full(s.log.ring)), k);
    hide Put, Full, Kept, Held, CountOf, Drops, Queued, Numbered;
    if Full(s.log.ring) {}
  }

  lemma StoreShape(s: System, source: nat)
    requires Inv(s) && Legal(s, Store(source))
    ensures var t := StepF(s, Store(source));
      && Sized(t) && t.past == s.past + [Outcome(s.pending[source].value, !Full(s.log.ring))]
      && t.log.dropped == if Full(s.log.ring) then (s.log.dropped + 1) % TURN else s.log.dropped
  {
    PutHeld(s.log.ring, s.pending[source].value);
    hide Queued, Counted, Held, Full;
    if Full(s.log.ring) {}
  }

  lemma PendingSerial(s: System, source: nat)
    requires Inv(s) && Legal(s, Store(source))
    ensures var x := s.pending[source].value;
      x.source == source && x.serial == CountOf(s.past, source) % SEQ_TURN
  {
    assert SerialOk(s, source);
    hide CountOf, Queued;
  }

  lemma StoreCounts(s: System, source: nat)
    requires Inv(s) && Legal(s, Store(source))
    ensures var t := StepF(s, Store(source)); Sized(t) && Counted(t)
  {
    hide Full, Kept, CountOf, Drops, SerialOk, Numbered, Queued, StepF, Held;
    StoreShape(s, source);
    var x := s.pending[source].value;
    var o := Outcome(x, !Full(s.log.ring));
    PendingSerial(s, source);
    PastGrows(s.past, o, source);
    NumberedGrows(s.past, o);
    NextDrop(Drops(s.past));
    var t := StepF(s, Store(source));
    forall k | 0 <= k < SOURCES ensures SerialOk(t, k) {
      if k == source { StoreOwn(s, source); } else { StoreOther(s, source, k); }
    }
  }

  lemma NextDrop(n: nat)
    ensures (n % TURN + 1) % TURN == (n + 1) % TURN
  {
  }

  lemma StepQueues(s: System)
    requires Inv(s) && Legal(s, Step)
    ensures Inv(StepF(s, Step))
  {
    var r := s.log.ring;
    AdvanceHeld(r);
    var t := StepF(s, Step);
    assert |t.log.ring.slots| == DEPTH;
    assert Held(r) == [Held(r)[0]] + Held(r)[1..];
    assert s.taken + Held(r) == (s.taken + [Held(r)[0]]) + Held(r)[1..];
    hide Advance, Held, Kept, CountOf, Drops;
    forall k | 0 <= k < SOURCES ensures SerialOk(t, k) {
      assert SerialOk(s, k);
    }
  }

  lemma CopyKeeps(s: System)
    requires Inv(s) && Legal(s, Copy)
    ensures Inv(StepF(s, Copy))
  {
    AdvanceHeld(s.log.ring);
    var t := StepF(s, Copy);
    hide Held, Kept, CountOf, Drops;
    forall k | 0 <= k < SOURCES ensures SerialOk(t, k) {
      assert SerialOk(s, k);
    }
  }

  /** Every interleaving keeps the queue: records come out in the order they found room, what was
      kept is what was read and what is held, and what was not is counted. */
  lemma StepKeeps(s: System, e: Event)
    requires Inv(s) && Legal(s, e)
    ensures Inv(StepF(s, e))
  {
    hide Queued, Counted, StepF, EnableF, EnterF, StoreF, Made;
    match e
    case Enable(sources, gap, now) => EnableKeeps(s, sources, gap, now);
    case Enter(source, now, v) => EnterKeeps(s, source, now, v);
    case Store(source) =>
      StoreQueues(s, source);
      StoreCounts(s, source);
    case Copy => CopyKeeps(s);
    case Step => StepQueues(s);
  }

  predicate LegalRun(s: System, es: seq<Event>)
    requires Sized(s)
    decreases |es|
  {
    es != [] ==> Legal(s, es[0]) && Sized(StepF(s, es[0])) && LegalRun(StepF(s, es[0]), es[1..])
  }

  function Run(s: System, es: seq<Event>): System
    requires Sized(s) && LegalRun(s, es)
    decreases |es|
  {
    if es == [] then s else Run(StepF(s, es[0]), es[1..])
  }

  lemma {:induction false} RunKeeps(s: System, es: seq<Event>)
    requires Inv(s) && LegalRun(s, es)
    ensures Inv(Run(s, es))
    decreases |es|
  {
    hide Queued, Counted, StepF, Legal;
    if es != [] {
      StepKeeps(s, es[0]);
      RunKeeps(StepF(s, es[0]), es[1..]);
    }
  }

  // ---- what a reader can tell ----

  lemma {:induction false} CountSplit(a: seq<Outcome>, b: seq<Outcome>, source: nat)
    ensures CountOf(a + b, source) == CountOf(a, source) + CountOf(b, source)
    decreases |b|
  {
    if b == [] {
      assert a + b == a;
    } else {
      assert (a + b)[..|a + b| - 1] == a + b[..|b| - 1];
      CountSplit(a, b[..|b| - 1], source);
    }
  }

  lemma {:induction false} AllDropped(past: seq<Outcome>, source: nat)
    requires forall i :: 0 <= i < |past| && past[i].sample.source == source ==> !past[i].kept
    ensures DropsOf(past, source) == CountOf(past, source)
    decreases |past|
  {
    if past != [] {
      AllDropped(past[..|past| - 1], source);
    }
  }

  /** Two records of one source kept, and none of that source's kept between them. */
  predicate NextOfSource(past: seq<Outcome>, i: nat, j: nat) {
    && i < j < |past| && past[i].kept && past[j].kept && past[i].sample.source == past[j].sample.source
    && forall k :: i < k < j && past[k].sample.source == past[i].sample.source ==> !past[k].kept
  }

  lemma BetweenDropped(past: seq<Outcome>, i: nat, j: nat)
    requires NextOfSource(past, i, j)
    ensures var k := past[i].sample.source;
      DropsOf(past[i + 1..j], k) == CountOf(past[i + 1..j], k)
  {
    hide DropsOf, CountOf;
    var k := past[i].sample.source;
    var between := past[i + 1..j];
    forall n | 0 <= n < |between| && between[n].sample.source == k
      ensures !between[n].kept
    {
      assert between[n] == past[i + 1 + n];
    }
    AllDropped(between, k);
  }

  lemma GapsOf(past: seq<Outcome>, i: nat, j: nat)
    requires Numbered(past) && NextOfSource(past, i, j)
    ensures (past[j].sample.serial - past[i].sample.serial) % SEQ_TURN
            == (1 + DropsOf(past[i + 1..j], past[i].sample.source)) % SEQ_TURN
  {
    NextIsOf(past, i, j);
    hide CountOf, DropsOf, Numbered, NextOfSource;
    BetweenDropped(past, i, j);
    CountBetween(past, i, j);
    NumberAt(past, i);
    NumberAt(past, j);
    var k := past[i].sample.source;
    var a, d := CountOf(past[..i], k), DropsOf(past[i + 1..j], k);
    assert CountOf(past[..j], k) == a + (1 + d);
    GapMod(a, 1 + d, past[i].sample.serial, past[j].sample.serial);
  }

  lemma NextIsOf(past: seq<Outcome>, i: nat, j: nat)
    requires NextOfSource(past, i, j)
    ensures i < j < |past| && past[i].sample.source == past[j].sample.source
  {
  }

  lemma InvNumbered(s: System)
    requires Inv(s)
    ensures Numbered(s.past)
  {
    hide Numbered, CountOf, Queued, SerialOk, Drops;
  }

  /** Between two records of a source the reader sees one after the other, the serials' gap is one
      more than the source's drops between them, round 256. */
  lemma GapsAreDrops(s: System, i: nat, j: nat)
    requires Inv(s) && NextOfSource(s.past, i, j)
    ensures (s.past[j].sample.serial - s.past[i].sample.serial) % SEQ_TURN
            == (1 + DropsOf(s.past[i + 1..j], s.past[i].sample.source)) % SEQ_TURN
  {
    hide *;
    InvNumbered(s);
    GapsOf(s.past, i, j);
  }

  lemma CountBetween(past: seq<Outcome>, i: nat, j: nat)
    requires i < j < |past|
    ensures var k := past[i].sample.source;
      CountOf(past[..j], k) == CountOf(past[..i], k) + 1 + CountOf(past[i + 1..j], k)
  {
    hide CountOf;
    var k := past[i].sample.source;
    var upTo := past[..i] + [past[i]];
    assert past[..j] == upTo + past[i + 1..j];
    CountSplit(upTo, past[i + 1..j], k);
    PastGrows(past[..i], past[i], k);
  }

  lemma NumberAt(past: seq<Outcome>, i: nat)
    requires Numbered(past) && i < |past|
    ensures past[i].sample.serial == CountOf(past[..i], past[i].sample.source) % SEQ_TURN
  {
  }

  lemma GapMod(a: nat, d: nat, x: int, y: int)
    requires x == a % SEQ_TURN && y == (a + d) % SEQ_TURN
    ensures (y - x) % SEQ_TURN == d % SEQ_TURN
  {
  }

  /** What is read is in order, each record once, and the whole account closes. */
  lemma AccountCloses(s: System)
    requires Inv(s)
    ensures |Kept(s.past)| == |s.taken| + Count(s.log.ring)
    ensures s.taken == Kept(s.past)[..|s.taken|]
    ensures |s.past| == |Kept(s.past)| + Drops(s.past) && s.log.dropped == Drops(s.past) % TURN
  {
    CountIs(s.log.ring);
    KeptAndDropped(s.past);
    assert s.taken == (s.taken + Held(s.log.ring))[..|s.taken|];
  }

  lemma {:induction false} KeptAndDropped(past: seq<Outcome>)
    ensures |past| == |Kept(past)| + Drops(past)
    decreases |past|
  {
    if past != [] {
      KeptAndDropped(past[..|past| - 1]);
    }
  }
}
