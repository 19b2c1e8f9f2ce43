/** What the log's records say of the pushes that were made: an account kept from the calls alone,
    and the log held against it over every run. */
module LogEvents {
  import opened Ring
  import opened LogRing

  /** A push that was let in: whose, when and with what readings. */
  datatype Pushed = Pushed(source: nat, at: nat, v: seq<int>)

  /** What was asked when the log was last enabled, and what has been let in and thinned since. */
  datatype Book = Book(sources: nat, gap: nat, begun: nat, pushes: seq<Pushed>, thinned: nat)

  /** The pushes of one source. */
  function Of(pushes: seq<Pushed>, k: nat): seq<Pushed> {
    if pushes == [] then []
    else
      var p := pushes[|pushes| - 1];
      Of(pushes[..|pushes| - 1], k) + if p.source == k then [p] else []
  }

  /** A bit of the mask, a source each. */
  predicate Armed(sources: nat, k: nat) {
    || (k == 0 && sources % 2 == 1)
    || (k == 1 && sources / 2 % 2 == 1)
    || (k == 2 && sources / 4 % 2 == 1)
    || (k == 3 && sources / 8 % 2 == 1)
  }

  /** Fewer cycles than the gap, round 2^32, since the source's last push that was let in; since a
      gap before the enabling, if none was. */
  predicate Crowds(b: Book, k: nat, now: nat) {
    var own := Of(b.pushes, k);
    b.gap != 0
    && (if own == [] then (now - b.begun + b.gap) % 0x1_0000_0000 < b.gap
        else (now - own[|own| - 1].at) % 0x1_0000_0000 < b.gap)
  }

  function Heard(b: Book, e: Event): Book {
    match e
    case Enable(sources, gap, now) => Book(sources, gap, now, [], 0)
    case Enter(source, now, v) =>
      if !Armed(b.sources, source) then b
      else if Crowds(b, source, now) then b.(thinned := b.thinned + 1)
      else b.(pushes := b.pushes + [Pushed(source, now, v)])
    case _ => b
  }

  function HeardAll(b: Book, es: seq<Event>): Book
    decreases |es|
  {
    if es == [] then b else HeardAll(Heard(b, es[0]), es[1..])
  }

  /** A record that is a push's: its source, its time, its first four readings each in its place,
      and zero where it had none. */
  predicate Carries(x: Sample, p: Pushed) {
    && x.source == p.source && x.at == p.at && |x.v| == 4
    && forall i :: 0 <= i < 4 ==> x.v[i] == if i < |p.v| then p.v[i] else 0
  }

  /** One source's records, stored or dropped, in order. */
  function Own(past: seq<Outcome>, k: nat): seq<Sample> {
    if past == [] then []
    else
      var o := past[|past| - 1];
      Own(past[..|past| - 1], k) + if o.sample.source == k then [o.sample] else []
  }

  lemma OwnGrows(past: seq<Outcome>, o: Outcome, k: nat)
    ensures Own(past + [o], k) == Own(past, k) + if o.sample.source == k then [o.sample] else []
  {
    assert (past + [o])[..|past + [o]| - 1] == past;
  }

  lemma OfGrows(pushes: seq<Pushed>, p: Pushed, k: nat)
    ensures Of(pushes + [p], k) == Of(pushes, k) + if p.source == k then [p] else []
  {
    assert (pushes + [p])[..|pushes + [p]| - 1] == pushes;
  }

  lemma {:induction false} OwnCount(past: seq<Outcome>, k: nat)
    ensures |Own(past, k)| == CountOf(past, k)
  {
    if past != [] {
      OwnCount(past[..|past| - 1], k);
    }
  }

  /** One source's records and the push under way. */
  function Begun(s: System, k: nat): seq<Sample>
    requires Sized(s) && k < SOURCES
  {
    Own(s.past, k) + if s.pending[k].Some? then [s.pending[k].value] else []
  }

  /** Each is its push's, in order and numbered round 256; and the last one's time is remembered. */
  predicate Matched(s: System, b: Book, k: nat)
    requires Sized(s) && k < SOURCES
  {
    var xs, ps := Begun(s, k), Of(b.pushes, k);
    && |xs| == |ps|
    && (forall j :: 0 <= j < |ps| ==> Carries(xs[j], ps[j]) && xs[j].serial == j % 256)
    && s.log.lastAt[k] == if ps == [] then (b.begun - b.gap) % TURN else ps[|ps| - 1].at
  }

  predicate Accounted(s: System, b: Book)
    requires Sized(s)
  {
    && s.log.sources == b.sources && s.log.minGap == b.gap && s.log.thinned == b.thinned % TURN
    && (forall i :: 0 <= i < |s.past| ==> s.past[i].sample.source < SOURCES)
    && forall k :: 0 <= k < SOURCES ==> Matched(s, b, k)
  }

  lemma EnableAccounts(s: System, sources: nat, gap: nat, now: nat, b: Book)
    requires Sized(s) && Legal(s, Enable(sources, gap, now))
    ensures var e := Enable(sources, gap, now);
            Sized(StepF(s, e)) && Accounted(StepF(s, e), Heard(b, e))
  {
    var t := StepF(s, Enable(sources, gap, now));
    forall k | 0 <= k < SOURCES
      ensures Matched(t, Heard(b, Enable(sources, gap, now)), k)
    {
    }
  }

  lemma ArmedTakes(sources: nat, k: nat)
    ensures Armed(sources, k) <==> Takes(sources, k)
  {
    if k < SOURCES {
      assert BitOf(k) == if k == 0 then 1 else if k == 1 then 2 else if k == 2 then 4 else 8;
    }
  }

  lemma CrowdsSoon(s: System, b: Book, k: nat, now: nat)
    requires Sized(s) && k < SOURCES && Accounted(s, b)
    ensures Crowds(b, k, now) <==> TooSoon(s.log, k, now)
  {
    assert Matched(s, b, k);
    RoundGap(now, b.begun, b.gap);
    hide Of, Own, Carries;
  }

  lemma RoundGap(now: nat, begun: nat, gap: nat)
    ensures (now - (begun - gap) % TURN) % TURN == (now - begun + gap) % TURN
  {
  }

  lemma FourCarries(source: nat, now: nat, serial: nat, v: seq<int>)
    ensures Carries(Sample(now, source, serial, Four(v)), Pushed(source, now, v))
  {
    var f := Four(v);
    assert forall i :: 0 <= i < 4 ==> f[i] == if i < |v| then v[i] else 0;
  }

  lemma BegunCount(s: System, k: nat)
    requires Inv(s) && k < SOURCES
    ensures s.log.serials[k] == |Begun(s, k)| % 256
  {
    OwnCount(s.past, k);
    assert SerialOk(s, k);
    hide CountOf, Own, Queued, Numbered;
  }

  /** What an entering push changes, let in or not. */
  lemma EnterShape(s: System, source: nat, now: nat, v: seq<int>)
    requires Sized(s) && Legal(s, Enter(source, now, v))
    ensures var t := StepF(s, Enter(source, now, v));
            && Sized(t) && t.past == s.past
            && (if Takes(s.log.sources, source) && !TooSoon(s.log, source, now) then
                  && t.pending == s.pending[source := Some(Sample(now, source, s.log.serials[source], Four(v)))]
                  && t.log.lastAt == s.log.lastAt[source := now]
                else t.pending == s.pending && t.log.lastAt == s.log.lastAt)
  {
    hide BitOf, TooSoon, Four;
    if Takes(s.log.sources, source) {}
  }

  /** Let in, a push is its source's last. */
  lemma LetIn(s: System, t: System, b: Book, c: Book, x: Sample, p: Pushed, k: nat)
    requires Sized(s) && Sized(t) && k < SOURCES && s.pending[k].None?
    requires t.past == s.past && t.pending[k] == Some(x) && t.log.lastAt[k] == p.at
    requires Of(c.pushes, k) == Of(b.pushes, k) + [p] && Matched(s, b, k)
    requires Carries(x, p) && x.serial == |Begun(s, k)| % 256
    ensures Matched(t, c, k)
  {
    hide Own, Of, Carries;
    assert Begun(t, k) == Begun(s, k) + [x];
  }

  lemma EnterOwn(s: System, source: nat, now: nat, v: seq<int>, b: Book)
    requires Inv(s) && Legal(s, Enter(source, now, v)) && Accounted(s, b) && source < SOURCES
    ensures var e := Enter(source, now, v);
            Sized(StepF(s, e)) && Matched(StepF(s, e), Heard(b, e), source)
  {
    hide Own, Of, Carries, Queued, Counted, Takes, Armed, TooSoon, Crowds, Four, StepF, Begun;
    var e, p := Enter(source, now, v), Pushed(source, now, v);
    EnterShape(s, source, now, v);
    ArmedTakes(s.log.sources, source);
    CrowdsSoon(s, b, source, now);
    OfGrows(b.pushes, p, source);
    if Takes(s.log.sources, source) && !TooSoon(s.log, source, now) {
      BegunCount(s, source);
      FourCarries(source, now, s.log.serials[source], v);
      LetIn(s, StepF(s, e), b, Heard(b, e), StepF(s, e).pending[source].value, p, source);
    } else {
      SameMatched(s, StepF(s, e), b, Heard(b, e), source);
    }
  }

  lemma SameMatched(s: System, t: System, b: Book, c: Book, k: nat)
    requires Sized(s) && Sized(t) && k < SOURCES && Matched(s, b, k)
    requires t.past == s.past && t.pending[k] == s.pending[k] && t.log.lastAt[k] == s.log.lastAt[k]
    requires Of(c.pushes, k) == Of(b.pushes, k) && c.begun == b.begun && c.gap == b.gap
    ensures Matched(t, c, k)
  {
    hide Own, Of, Carries;
  }

  lemma EnterOther(s: System, source: nat, now: nat, v: seq<int>, b: Book, k: nat)
    requires Inv(s) && Legal(s, Enter(source, now, v)) && Accounted(s, b) && k < SOURCES
    requires k != source
    ensures var e := Enter(source, now, v);
            Sized(StepF(s, e)) && Matched(StepF(s, e), Heard(b, e), k)
  {
    hide Own, Of, Carries, Queued, Counted, Takes, Armed, TooSoon, Crowds, Four, StepF, Begun, Matched;
    EnterShape(s, source, now, v);
    OfGrows(b.pushes, Pushed(source, now, v), k);
    SameMatched(s, StepF(s, Enter(source, now, v)), b, Heard(b, Enter(source, now, v)), k);
  }

  lemma EnterRest(s: System, source: nat, now: nat, v: seq<int>, b: Book)
    requires Inv(s) && Legal(s, Enter(source, now, v)) && Accounted(s, b)
    ensures var t, c := StepF(s, Enter(source, now, v)), Heard(b, Enter(source, now, v));
            Sized(t) && t.log.sources == c.sources && t.log.minGap == c.gap
            && t.log.thinned == c.thinned % TURN
  {
    ArmedTakes(s.log.sources, source);
    NextDrop(b.thinned);
    if source < SOURCES {
      CrowdsSoon(s, b, source, now);
    }
    hide Own, Of, Carries, Inv, Takes, Armed, TooSoon, Crowds, Four, Matched;
    if Takes(s.log.sources, source) {}
  }

  lemma StoreMatched(s: System, source: nat, b: Book, k: nat)
    requires Inv(s) && Legal(s, Store(source)) && Accounted(s, b) && k < SOURCES && source < SOURCES
    ensures var t := StepF(s, Store(source)); Sized(t) && Matched(t, b, k)
  {
    var x := s.pending[source].value;
    StoreShape(s, source);
    PendingSerial(s, source);
    OwnGrows(s.past, Outcome(x, !Full(s.log.ring)), k);
    assert Matched(s, b, k);
    hide Own, Of, Carries, Inv, Full, Put, CountOf;
    var t := StepF(s, Store(source));
    assert t.log.lastAt == s.log.lastAt by {
      if Full(s.log.ring) {}
    }
    assert Begun(t, k) == Begun(s, k) by {
      if k == source {}
    }
  }

  /** What a step does to a source that neither enters nor stores. */
  lemma RestMatched(s: System, e: Event, b: Book, k: nat)
    requires Inv(s) && Legal(s, e) && (e.Copy? || e.Step?) && Accounted(s, b) && k < SOURCES
    requires Sized(StepF(s, e))
    ensures Matched(StepF(s, e), b, k)
  {
    assert Matched(s, b, k);
    hide Own, Of, Carries, Inv, Held, Advance;
  }

  lemma StoreRest(s: System, source: nat, b: Book)
    requires Inv(s) && Legal(s, Store(source)) && Accounted(s, b) && source < SOURCES
    ensures var t := StepF(s, Store(source));
            && t.log.sources == b.sources && t.log.minGap == b.gap && t.log.thinned == b.thinned % TURN
            && forall i :: 0 <= i < |t.past| ==> t.past[i].sample.source < SOURCES
  {
    PendingSerial(s, source);
    hide Own, Of, Carries, Full, Put, Matched, Queued, Counted;
    if Full(s.log.ring) {}
  }

  lemma StepAccounts(s: System, e: Event, b: Book)
    requires Inv(s) && Legal(s, e) && Accounted(s, b)
    ensures Inv(StepF(s, e)) && Accounted(StepF(s, e), Heard(b, e))
  {
    StepKeeps(s, e);
    match e
    case Enable(sources, gap, now) => EnableAccounts(s, sources, gap, now, b);
    case Enter(source, now, v) =>
      EnterRest(s, source, now, v, b);
      EnterAll(s, source, now, v, b);
    case Store(source) =>
      StoreRest(s, source, b);
      StoreAll(s, source, b);
    case _ => RestAll(s, e, b);
  }

  lemma EnterAll(s: System, source: nat, now: nat, v: seq<int>, b: Book)
    requires Inv(s) && Legal(s, Enter(source, now, v)) && Accounted(s, b)
    ensures var e := Enter(source, now, v);
            Sized(StepF(s, e))
            && forall k :: 0 <= k < SOURCES ==> Matched(StepF(s, e), Heard(b, e), k)
  {
    StepKeeps(s, Enter(source, now, v));
    hide Matched, StepF, Heard, Queued, Counted, Accounted, Legal;
    forall k | 0 <= k < SOURCES
      ensures Matched(StepF(s, Enter(source, now, v)), Heard(b, Enter(source, now, v)), k)
    {
      if k == source {
        EnterOwn(s, source, now, v, b);
      } else {
        EnterOther(s, source, now, v, b, k);
      }
    }
  }

  lemma StoreAll(s: System, source: nat, b: Book)
    requires Inv(s) && Legal(s, Store(source)) && Accounted(s, b) && source < SOURCES
    ensures var t := StepF(s, Store(source));
            Sized(t) && forall k :: 0 <= k < SOURCES ==> Matched(t, b, k)
  {
    StepKeeps(s, Store(source));
    hide Matched, StepF, Queued, Counted, Accounted, Legal;
    forall k | 0 <= k < SOURCES
      ensures Matched(StepF(s, Store(source)), b, k)
    {
      StoreMatched(s, source, b, k);
    }
  }

  lemma RestAll(s: System, e: Event, b: Book)
    requires Inv(s) && Legal(s, e) && (e.Copy? || e.Step?) && Accounted(s, b)
    ensures Sized(StepF(s, e)) && Accounted(StepF(s, e), b)
  {
    StepKeeps(s, e);
    forall k | 0 <= k < SOURCES
      ensures Matched(StepF(s, e), b, k)
    {
      RestMatched(s, e, b, k);
    }
    hide Matched, Queued, Counted, Held, Advance;
  }

  // ---- over whole runs ----

  /** Over every run, however the pushes preempt each other and the reader: each source's records are
      its pushes', one for one and in order, each with its own readings and time; a push is let in
      exactly when its source is asked for and the gap has passed; and those thinned are counted. */
  lemma {:induction false} EveryPush(s: System, es: seq<Event>, b: Book)
    requires Inv(s) && LegalRun(s, es) && Accounted(s, b)
    ensures Inv(Run(s, es)) && Accounted(Run(s, es), HeardAll(b, es))
    decreases |es|
  {
    hide Queued, Counted, StepF, Legal, Accounted, Heard;
    if es != [] {
      StepAccounts(s, es[0], b);
      EveryPush(StepF(s, es[0]), es[1..], Heard(b, es[0]));
    }
  }

  /** Where two records that were kept stand in the past. */
  lemma {:induction false} KeptIn(past: seq<Outcome>, i: nat, j: nat) returns (m: nat, n: nat)
    requires i <= j < |Kept(past)|
    ensures m <= n < |past| && past[m].sample == Kept(past)[i] && past[n].sample == Kept(past)[j]
    ensures i < j ==> m < n
  {
    var less := past[..|past| - 1];
    if j < |Kept(less)| {
      m, n := KeptIn(less, i, j);
    } else {
      n := |past| - 1;
      m := n;
      if i < j {
        var l;
        m, l := KeptIn(less, i, i);
      }
    }
  }

  /** A record of the past among its source's: as many come before it. */
  lemma {:induction false} OwnAt(past: seq<Outcome>, m: nat, k: nat)
    requires m < |past| && past[m].sample.source == k
    ensures CountOf(past[..m], k) < |Own(past, k)|
    ensures Own(past, k)[CountOf(past[..m], k)] == past[m].sample
  {
    var less := past[..|past| - 1];
    if m < |less| {
      OwnAt(less, m, k);
      assert less[..m] == past[..m];
    } else {
      OwnCount(less, k);
    }
  }

  lemma CountUp(past: seq<Outcome>, m: nat, n: nat, k: nat)
    requires m < n <= |past| && past[m].sample.source == k
    ensures CountOf(past[..m], k) < CountOf(past[..n], k)
  {
    PastGrows(past[..m], past[m], k);
    assert past[..m + 1] == past[..m] + [past[m]];
    assert past[..n] == past[..m + 1] + past[m + 1..n];
    CountSplit(past[..m + 1], past[m + 1..n], k);
  }

  lemma TakenPast(s: System, i: nat, j: nat) returns (m: nat, n: nat)
    requires Inv(s) && i <= j < |s.taken|
    ensures m <= n < |s.past| && s.past[m].sample == s.taken[i] && s.past[n].sample == s.taken[j]
    ensures i < j ==> m < n
  {
    hide Counted, Held;
    assert s.taken <= Kept(s.past);
    m, n := KeptIn(s.past, i, j);
  }

  lemma BegunCarries(s: System, b: Book, k: nat, i: nat)
    requires Sized(s) && Accounted(s, b) && k < SOURCES && i < |Own(s.past, k)|
    ensures i < |Of(b.pushes, k)| && Carries(Own(s.past, k)[i], Of(b.pushes, k)[i])
    ensures Own(s.past, k)[i].serial == i % 256
  {
    assert Matched(s, b, k);
    hide Own, Of, Carries;
    assert Begun(s, k)[i] == Own(s.past, k)[i];
  }

  /** Every record that was read carries the readings of a push of its source, of two of a source the
      later one those of a later push; and the serial says which push, round 256. */
  lemma TakenCarry(s: System, b: Book, i: nat, j: nat) returns (p: nat, q: nat)
    requires Inv(s) && Accounted(s, b) && i <= j < |s.taken|
    requires s.taken[i].source == s.taken[j].source
    ensures var own := Of(b.pushes, s.taken[i].source);
            && p <= q < |own| && (i < j ==> p < q)
            && Carries(s.taken[i], own[p]) && Carries(s.taken[j], own[q])
            && s.taken[i].serial == p % 256 && s.taken[j].serial == q % 256
  {
    hide Own, Of, Carries, CountOf, Kept, Matched, Queued, Counted;
    var m, n := TakenPast(s, i, j);
    var k := s.taken[i].source;
    OwnAt(s.past, m, k);
    OwnAt(s.past, n, k);
    if m < n {
      CountUp(s.past, m, n, k);
    }
    p, q := CountOf(s.past[..m], k), CountOf(s.past[..n], k);
    BegunCarries(s, b, k, p);
    BegunCarries(s, b, k, q);
  }

  /** Two pushes of one source let in one after the other are a gap apart, round 2^32. */
  predicate Apart(b: Book, k: nat) {
    var own := Of(b.pushes, k);
    forall j :: 0 < j < |own| ==> b.gap == 0 || (own[j].at - own[j - 1].at) % 0x1_0000_0000 >= b.gap
  }

  lemma NoneOf(k: nat)
    ensures Of([], k) == []
  {
  }

  lemma HeardApart(b: Book, e: Event, k: nat)
    requires Apart(b, k)
    ensures Apart(Heard(b, e), k)
  {
    hide Of, Armed;
    if e.Enter? {
      OfGrows(b.pushes, Pushed(e.source, e.now, e.v), k);
      if e.source == k {}
    } else if e.Enable? {
      NoneOf(k);
    }
  }

  lemma {:induction false} SpacedOut(b: Book, es: seq<Event>, k: nat)
    requires Apart(b, k)
    ensures Apart(HeardAll(b, es), k)
    decreases |es|
  {
    hide Apart, Heard;
    if es != [] {
      HeardApart(b, es[0], k);
      SpacedOut(Heard(b, es[0]), es[1..], k);
    }
  }
}
