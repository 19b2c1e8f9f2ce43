/** The emulator's TIM1: its registers, its lazy count, its alarm and its interrupt line. */
module TimerCore {
  import opened TimerClosed

  class Tim1 {
    // CR1, ARR, RCR and DIER, as far as the count goes
    var counting: bool
    var centred: bool
    var arr: nat
    var rcr: nat
    var uie: bool
    /** Counter ticks on the machine's clock, and the one the count is measured from. */
    var now: int
    var start: int
    /** The count while stopped. */
    var frozen: nat
    /** Update events already cleared from the flag, and the flag set outright. */
    var cleared: nat
    var flagged: bool
    /** The update event's alarm: off at 0, else the ticks it has left and its period. */
    var left: nat
    var every: nat
    /** The interrupt line as last signalled. */
    var line: bool

    /** Out of reset: stopped at zero, ARR all ones, nothing flagged and the alarm off. */
    constructor (at: int)
      ensures Valid() && Current() && now == at && !counting && Counter() == 0 && !Uif() && arr == 0xFFFF
    {
      counting, centred, arr, rcr, uie := false, false, 0xFFFF, 0, false;
      now, start, frozen, cleared, flagged := at, 0, 0, 0, false;
      left, every, line := 0, 0, false;
    }

    // ---- the lazy count ----

    function Top(): nat
      reads this
    {
      TopOf(arr)
    }

    function Reps(): nat
      reads this
    {
      RepsOf(rcr)
    }

    function Position(): nat
      requires Timed()
      reads this
    {
      if counting then now - start else frozen
    }

    function Counter(): int
      requires Timed()
      reads this
    {
      if counting then CounterAt(centred, Top(), Position()) else frozen
    }

    predicate Down()
      requires Timed()
      reads this
    {
      counting && DownAt(centred, Top(), Position())
    }

    function Flows(): nat
      requires Timed()
      reads this
    {
      if counting then FlowsAt(centred, Top(), Position()) else 0
    }

    function Updates(): nat
      requires Timed()
      reads this
    {
      if counting then UpdatesAt(centred, Top(), Reps(), Position()) else 0
    }

    /** The update flag as SR reads it. */
    predicate Uif()
      requires Timed()
      reads this
    {
      flagged || Updates() > cleared
    }

    predicate Timed()
      reads this
    {
      counting ==> start <= now
    }

    /** The alarm runs exactly while the count does with the interrupt on, and is set for the next
        update event. */
    predicate Armed()
      requires Timed()
      reads this
    {
      if counting && uie then
        left == NextAt(centred, Top(), Reps(), Position()) && left >= 1
        && every == StepOf(centred, Top()) * Reps()
      else left == 0
    }

    /** The line says what the flag and the interrupt's enable say, read this instant. */
    predicate Valid()
      reads this
    {
      Timed() && Armed() && line == (Uif() && uie)
    }

    /** No register written since the start has taken update events back. */
    predicate Current()
      requires Timed()
      reads this
    {
      counting ==> cleared <= Updates()
    }

    // ---- the parts of a register write ----

    method Start(cnt: nat)
      modifies this`start, this`cleared
      ensures start == now - cnt && cleared == 0
    {
      start := now - cnt;
      cleared := 0;
    }

    /** The alarm set for the next update event, or put off. */
    method Schedule()
      requires Timed()
      modifies this`left, this`every
      ensures Timed() && Armed()
    {
      if !(counting && uie) {
        left := 0;
        return;
      }
      NextPositive(centred, Top(), Reps(), Position());
      left := NextAt(centred, Top(), Reps(), Position());
      every := StepOf(centred, Top()) * Reps();
    }

    method Signal()
      requires Timed()
      modifies this`line
      ensures line == (Uif() && uie)
    {
      line := Uif() && uie;
    }

    // ---- the registers ----

    /** CR1: a start counts on from where the count stood, a stop keeps it. A start from a count
        at or past the first flow finds the flag up at once, and a stop takes back every update
        event not yet cleared that the flag was not set for. */
    method WriteCr1(cen: bool, cms: bool)
      requires Valid()
      modifies this
      ensures Valid() && counting == cen && centred == cms && arr == old(arr) && rcr == old(rcr)
      ensures uie == old(uie) && now == old(now) && flagged == old(flagged)
      ensures !old(counting) && cen ==>
                Position() == old(frozen) && (Uif() <==> flagged || old(frozen) >= StepOf(cms, Top()))
      ensures old(counting) && !cen ==>
                frozen == old(Counter()) == Counter() && (Uif() <==> flagged)
      ensures !old(counting) && !cen ==> Counter() == old(Counter())
      ensures old(counting) && cen ==> Position() == old(Position())
    {
      hide NextAt, UpdatesAt, StepOf, TopOf, RepsOf, CounterAt;
      var was := counting;
      CounterInRange(centred, Top(), if counting then Position() else 0);
      var cnt := if counting then CounterAt(centred, Top(), Position()) else frozen;
      counting, centred := cen, cms;
      if !was && counting {
        Start(cnt);
      } else if was && !counting {
        frozen := cnt;
      }
      if counting {
        StartCounts(centred, Top(), Reps(), Position());
      }
      Schedule();
      Signal();
    }

    /** SR with UIF written 0: the flag clears, and stays clear until the next update event. */
    method ClearUif()
      requires Valid()
      modifies this`cleared, this`flagged, this`line
      ensures Valid() && !Uif() && !line && Current()
    {
      cleared := Updates();
      flagged := false;
      Signal();
    }

    /** EGR's UG: the count from zero, and the flag set unless it is told not to. */
    method Generate(quiet: bool)
      requires Valid()
      modifies this
      ensures Valid() && (counting ==> Position() == 0)
      ensures Uif() <==> old(flagged) || !quiet
      ensures counting == old(counting) && centred == old(centred) && arr == old(arr) && rcr == old(rcr)
      ensures uie == old(uie) && now == old(now) && frozen == old(frozen)
    {
      Start(0);
      if !quiet {
        flagged := true;
      }
      if counting {
        StartCounts(centred, Top(), Reps(), 0);
      }
      Schedule();
      Signal();
    }

    method WriteCnt(value: nat)
      requires Valid()
      modifies this
      ensures Valid() && Position() == value % 65536
      ensures !counting ==> Counter() == value % 65536
      ensures counting ==> (Uif() <==> flagged || value % HALFWORD >= StepOf(centred, Top()))
      ensures counting == old(counting) && centred == old(centred) && arr == old(arr) && rcr == old(rcr)
      ensures uie == old(uie) && now == old(now) && flagged == old(flagged)
    {
      if counting {
        Start(value % HALFWORD);
        StartCounts(centred, Top(), Reps(), value % HALFWORD);
      } else {
        frozen := value % HALFWORD;
      }
      Schedule();
      Signal();
    }

    method WriteDier(on: bool)
      requires Valid()
      modifies this`uie, this`left, this`every, this`line
      ensures Valid() && uie == on && Uif() == old(Uif()) && (line <==> on && old(Uif()))
      ensures left == if on && counting then NextAt(centred, Top(), Reps(), Position()) else 0
    {
      uie := on;
      Schedule();
      Signal();
    }

    /** ARR or RCR: the position stands, the rest is worked out anew; what was cleared may now be
        more than has come. */
    method WriteArr(value: nat)
      requires Valid()
      modifies this
      ensures Valid() && arr == value && Position() == old(Position()) && cleared == old(cleared)
      ensures Current() <==> !counting || cleared <= UpdatesAt(centred, TopOf(value), Reps(), Position())
      ensures counting && centred && 1 <= value < 65536 ==> Whole(Flows(), value, Position())
      ensures counting && !centred && 1 <= value < 65536 ==> Whole(Flows(), value + 1, Position())
      ensures counting == old(counting) && centred == old(centred) && rcr == old(rcr) && uie == old(uie)
    {
      hide CounterAt, DownAt, FlowsAt, UpdatesOf, NextAt, Whole, Paced;
      arr := value;
      EdgeHolds(Top(), Position());
      CentredHolds(Top(), Position());
      Schedule();
      Signal();
    }

    method WriteRcr(value: nat)
      requires Valid()
      modifies this
      ensures Valid() && rcr == value && Position() == old(Position()) && cleared == old(cleared)
      ensures Current() <==> !counting || cleared <= UpdatesAt(centred, Top(), RepsOf(value), Position())
      ensures Flows() == old(Flows())
      ensures counting && value < 65536 ==> Paced(Updates(), value + 1, Flows())
      ensures counting == old(counting) && centred == old(centred) && arr == old(arr) && uie == old(uie)
    {
      hide CounterAt, DownAt, FlowsAt, UpdatesOf, NextAt, Whole, Paced;
      rcr := value;
      UpdatesHold(Flows(), Reps());
      Schedule();
      Signal();
    }

    // ---- the clock ----

    /** One tick of the counter's clock. With the registers standing, the update events grow by one
        exactly when the alarm goes off, the flag goes up with them and not otherwise, and the line
        keeps saying what the flag says though nobody has asked. */
    method Tick()
      requires Valid()
      modifies this
      ensures Valid() && now == old(now) + 1
      ensures counting == old(counting) && centred == old(centred) && arr == old(arr) && rcr == old(rcr)
      ensures uie == old(uie) && start == old(start) && cleared == old(cleared) && frozen == old(frozen)
      ensures Updates() == old(Updates())
                           + if counting && NextAt(centred, Top(), Reps(), old(Position())) == 1 then 1 else 0
      ensures old(Current()) ==> Current() && (Uif() <==> old(Uif()) || Updates() > old(Updates()))
    {
      hide NextAt, UpdatesAt, StepOf, TopOf, RepsOf;
      ghost var p := Position();
      ghost var next := if counting then NextAt(centred, Top(), Reps(), p) else 0;
      ghost var was := Updates();
      if counting {
        NextPositive(centred, Top(), Reps(), p);
        NextPositive(centred, Top(), Reps(), p + 1);
        NextIsNext(centred, Top(), Reps(), p, 1);
        NextAhead(centred, Top(), Reps(), p);
      }
      now := now + 1;
      assert Updates() == was + if counting && next == 1 then 1 else 0;
      if left != 0 {
        left := left - 1;
        if left == 0 {
          left := every;
          flagged := true;
          Signal();
        }
      }
    }
  }

  // ---- about the count ----

  lemma CounterInRange(centred: bool, top: nat, p: nat)
    requires top >= 1
    ensures 0 <= CounterAt(centred, top, p) <= top
  {
  }

  /** A count begun at cnt has an update event behind it already exactly when it is at or past the
      first flow. */
  lemma StartCounts(centred: bool, top: nat, reps: nat, cnt: nat)
    requires top >= 1 && reps >= 1
    ensures UpdatesAt(centred, top, reps, cnt) > 0 <==> cnt >= StepOf(centred, top)
  {
    UpdatesPast(centred, top, reps, cnt);
  }

  /** A tick on, the next update event is a tick nearer, or a whole step off. */
  lemma NextAhead(centred: bool, top: nat, reps: nat, p: nat)
    requires top >= 1 && reps >= 1
    ensures var n := NextAt(centred, top, reps, p);
      NextAt(centred, top, reps, p + 1) == if n == 1 then StepOf(centred, top) * reps else n - 1
  {
    var first := StepOf(centred, top);
    var m := first * reps;
    ProductPositive(first, reps);
    if p + 1 < first {
    } else if p < first {
      DivUnique(0, m, 0, 0);
    } else {
      DivStep(p - first, m);
    }
  }

  /** A running timer read at any tick, by what ARR and RCR hold: its reads are those of a counter
      stepped tick by tick since its start, centred turning at ARR, edge-aligned wrapping past it,
      with RCR + 1 flows to an update event. An ARR of zero counts as one. */
  lemma ReadsAsTicked(t: Tim1)
    requires t.Timed() && t.counting && t.arr < 65536 && t.rcr < 65536
    ensures var k := Ticked(t.centred, if t.arr == 0 then 1 else t.arr, t.rcr + 1, t.Position());
      && t.Counter() == k.cnt && t.Down() == k.down && t.Flows() == k.flows && t.Updates() == k.updates
  {
    hide Ticked, CounterAt, DownAt, FlowsAt, UpdatesOf;
    ClosedIsTicked(t.centred, t.Top(), t.Reps(), t.Position());
  }

  /** The same with no counter beside it. Centred, a flow comes every ARR ticks and the count goes up
      to ARR and down to zero in turn; edge-aligned, one comes every ARR + 1 and the count starts
      over. From one update event to the next there are RCR + 1 flows exactly, the first flow being
      one. */
  lemma RegistersCount(t: Tim1)
    requires t.Timed() && t.counting && 1 <= t.arr < 65536 && t.rcr < 65536
    ensures t.centred ==>
              && Whole(t.Flows(), t.arr, t.Position())
              && (t.Down() <==> t.Flows() % 2 == 1)
              && t.Counter() == (if t.Down() then t.Flows() * t.arr + t.arr - t.Position()
                                 else t.Position() - t.Flows() * t.arr)
    ensures !t.centred ==>
              && Whole(t.Flows(), t.arr + 1, t.Position())
              && !t.Down() && t.Counter() == t.Position() - t.Flows() * (t.arr + 1)
    ensures Paced(t.Updates(), t.rcr + 1, t.Flows())
  {
    hide CounterAt, DownAt, FlowsAt, UpdatesOf, Whole, Paced;
    EdgeHolds(t.Top(), t.Position());
    CentredHolds(t.Top(), t.Position());
    UpdatesHold(t.Flows(), t.Reps());
  }
}
