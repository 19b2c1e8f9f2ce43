/** What a master gets from the node over whole runs: whom it answers to, what a go is taken for,
    what its record and its address come to. */
module BootMaster {
  import opened Bytes
  import opened Checksum
  import opened BootPort
  import opened BootNode
  import opened BootRuns
  import opened BootStore
  import opened BootLaws
  import opened BootStream

  // ---- whom the node answers to ----

  /** What the master has told this board since its reset: whether anything at all, the session of
      the last hold, and the address of the last assign to its own id that was in range. */
  datatype Told = Told(called: bool, session: nat, own: bool, unit: nat, position: nat, flags: bv8)

  const UNTOLD := Told(false, 0, false, 247, 0, 0)

  function Hears(t: Told, layout: Layout, e: Event): Told {
    match e
    case Holds(session) => t.(called := true, session := session)
    case Assigns(uid, unit, position, flags) =>
      if uid == layout.uid && 0 < unit < 247
      then t.(called := true, own := true, unit := unit, position := position, flags := flags) else t
    case Resets(_, _) => UNTOLD
    case _ => t
  }

  function HearsAll(t: Told, layout: Layout, events: seq<Event>): Told {
    if events == [] then t
    else Hears(HearsAll(t, layout, events[..|events| - 1]), layout, events[|events| - 1])
  }

  /** The node holds what it was told, and no other's address, and is blank only while untold. */
  ghost predicate Obeys(n: Node, t: Told) {
    && (n.state == Blank <==> !t.called)
    && n.session == t.session && n.unit == t.unit && n.position == t.position && n.flags == t.flags
    && (Rank(n.state) >= Rank(Assigned) <==> t.own)
    && (t.own ==> 0 < t.unit < 247) && (!t.own ==> t.unit == 247)
  }

  lemma InitialObeys(n: Node)
    requires n.session == INITIAL.session && n.unit == INITIAL.unit && n.flags == INITIAL.flags
    requires n.position == INITIAL.position && n.state == INITIAL.state
    ensures Obeys(n, UNTOLD)
  {
  }

  lemma GateAddress(ram: seq<byte>, flash: seq<byte>, kind: byte, bytes: nat, crc: bv32)
    requires |ram| == RUN_BYTES && |flash| == FLASH_BYTES
    ensures var n := Gate(INITIAL, ram, flash, kind, bytes, crc).node;
      && n.session == INITIAL.session && n.unit == INITIAL.unit && n.flags == INITIAL.flags
      && n.position == INITIAL.position && n.state == INITIAL.state && n.go == INITIAL.go
  {
    hide ImageHeld, StoreNames, Copied, Filled;
    if bytes != 0 {}
  }

  /** What neither an offer, a chunk, a verify, a record nor a seal moves. */
  predicate Alike(n: Node, m: Node) {
    && m.session == n.session && m.unit == n.unit && m.position == n.position && m.flags == n.flags
    && m.go == n.go && (m.state == Blank <==> n.state == Blank)
    && (Rank(m.state) >= Rank(Assigned) <==> Rank(n.state) >= Rank(Assigned))
  }

  lemma OfferAlike(n: Node, ram: seq<byte>, flash: seq<byte>, kind: byte, offer: byte, size: nat,
                   crc: bv32, chunks: nat)
    requires NodeOk(n) && |ram| == RUN_BYTES && |flash| == FLASH_BYTES
    ensures Alike(n, Offer(n, ram, flash, kind, offer, size, crc, chunks).node)
  {
    hide ImageHeld, StoreNames, Copied, Wiped, Filled;
    if OfferHeard(n, kind, offer, size, chunks) {}
    if ImageHeld(n, ram, kind, size, crc) {}
    if StoreNames(flash, kind) == Image(size, crc) {}
  }

  lemma ChunkAlike(n: Node, ram: seq<byte>, index: nat, data: seq<byte>)
    requires NodeOk(n) && |ram| == RUN_BYTES
    ensures Alike(n, Chunk(n, ram, index, data).node)
  {
    hide Bit, SetBit, ChunkRam, Pad, Room;
    if ChunkHeard(n, index, data) && Bit(n.bitmap, index) {}
    if index == 0 {}
  }

  lemma VerifyAlike(n: Node, ram: seq<byte>)
    requires NodeOk(n) && |ram| == RUN_BYTES
    ensures Alike(n, Verify(n, ram).0)
  {
    hide ImageOf, Crc;
  }

  lemma RecordAlike(n: Node, offset: nat, data: seq<byte>)
    requires NodeOk(n)
    ensures Alike(n, Record(n, offset, data).0)
  {
    hide Put;
  }

  lemma SealAlike(a: Sys, layout: Layout, flags: bv8, b: Sys)
    requires Inv(a, layout) && SealEnds(a, layout, flags, b)
    ensures Alike(a.node, b.node)
  {
    if a.node.verified {
      VerifiedRank(a, layout);
    }
    hide Inv, SealCut, Kept, Completed, SameBut;
  }

  lemma OthersKeep(a: Sys, layout: Layout, e: Event, b: Sys)
    requires Inv(a, layout) && Step(a, layout, e, b)
    requires !e.Holds? && !e.Assigns? && !e.Goes? && !e.Resets?
    ensures Alike(a.node, b.node)
  {
    InvShaped(a, layout);
    hide Inv, Alike, Offer, Chunk, Verify, Record, SealEnds;
    match e
    case Offers(offer, size, crc, chunks) =>
      OfferAlike(a.node, a.ram, a.flash, layout.kind, offer, size, crc, chunks);
    case Chunks(index, data) => ChunkAlike(a.node, a.ram, index, data);
    case Verifies => VerifyAlike(a.node, a.ram);
    case Records(offset, data) => RecordAlike(a.node, offset, data);
    case Seals(flags) => SealAlike(a, layout, flags, b);
  }

  lemma VerifiedRank(s: Sys, layout: Layout)
    requires Inv(s, layout) && s.node.verified
    ensures Rank(s.node.state) >= Rank(Assigned)
  {
    hide Count, Bit, Crc, AppValid;
  }

  lemma ResetGo(a: Sys, layout: Layout, bytes: nat, crc: bv32, b: Sys)
    requires Shaped(a) && Step(a, layout, Resets(bytes, crc), b)
    ensures !b.node.go && Obeys(b.node, UNTOLD)
  {
    hide Gate, SealCuts, NodeOk, Filled;
    var ram :| |ram| == RUN_BYTES && ResetTo(a, layout, bytes, crc, ram, b);
    GateAddress(ram, b.flash, layout.kind, bytes, crc);
    InitialObeys(b.node);
  }

  lemma HoldObeys(a: Sys, layout: Layout, e: Event, b: Sys, t: Told)
    requires Shaped(a) && Step(a, layout, e, b) && Obeys(a.node, t) && (e.Holds? || e.Assigns?)
    ensures Obeys(b.node, Hears(t, layout, e))
  {
    hide NodeOk;
  }

  lemma AlikeObeys(n: Node, m: Node, t: Told)
    requires Alike(n, m) && Obeys(n, t)
    ensures Obeys(m, t)
  {
  }

  lemma GoObeys(a: Sys, layout: Layout, session: nat, b: Sys, t: Told)
    requires Shaped(a) && Step(a, layout, Goes(session), b) && Obeys(a.node, t)
    ensures Obeys(b.node, t)
  {
    hide NodeOk, AppValid;
  }

  lemma StepObeys(a: Sys, layout: Layout, e: Event, b: Sys, t: Told)
    requires Inv(a, layout) && Step(a, layout, e, b) && Obeys(a.node, t)
    ensures Obeys(b.node, Hears(t, layout, e))
  {
    InvShaped(a, layout);
    hide Inv, Step, Shaped, Obeys;
    if e.Holds? || e.Assigns? {
      HoldObeys(a, layout, e, b, t);
    } else if e.Resets? {
      ResetGo(a, layout, e.bytes, e.handCrc, b);
    } else if e.Goes? {
      GoObeys(a, layout, e.goSession, b, t);
    } else {
      OthersKeep(a, layout, e, b);
      AlikeObeys(a.node, b.node, t);
    }
  }

  /** Over every run the node's session is that of the last hold since its reset, and its unit,
      position and flags those of the last assign since then to its own id and in range: another
      board's, or one out of range, moves nothing. Assigned, the unit is one of 1 to 246; until
      then it is 247 and no other op is heard as an assigned node's. */
  lemma {:induction false} RunObeys(states: seq<Sys>, layout: Layout, events: seq<Event>, k: nat, t: Told)
    requires Run(states, layout, events) && k < |states|
    requires Inv(states[0], layout) && Obeys(states[0].node, t)
    ensures Obeys(states[k].node, HearsAll(t, layout, events[..k]))
  {
    hide Inv, Step, Shaped, Obeys, Hears;
    if k == 0 {
      assert events[..0] == [];
    } else {
      RunObeys(states, layout, events, k - 1, t);
      RunKeeps(states, layout, events, k - 1);
      StepObeys(states[k - 1], layout, events[k - 1], states[k], HearsAll(t, layout, events[..k - 1]));
      assert events[..k][..k - 1] == events[..k - 1];
    }
  }

  // ---- when nobody calls ----

  /** A call on this board: any hold, or an assign to its own id with a unit of 1 to 246. */
  predicate Calls(layout: Layout, e: Event) {
    e.Holds? || (e.Assigns? && e.uid == layout.uid && 0 < e.unit < 247)
  }

  /** Called since the last reset. */
  ghost predicate Called(layout: Layout, events: seq<Event>) {
    exists j :: 0 <= j < |events| && Calls(layout, events[j])
             && forall i :: j < i < |events| ==> !events[i].Resets?
  }

  lemma CalledNext(layout: Layout, events: seq<Event>, e: Event)
    ensures Called(layout, events + [e])
       <==> Calls(layout, e) || (Called(layout, events) && !e.Resets?)
  {
    hide Calls;
    var all := events + [e];
    assert all[|events|] == e && forall j :: 0 <= j < |events| ==> all[j] == events[j];
    if Called(layout, events) && !e.Resets? {
      var j :| 0 <= j < |events| && Calls(layout, events[j])
               && forall i :: j < i < |events| ==> !events[i].Resets?;
      assert Calls(layout, all[j]);
    }
    if Calls(layout, e) {
      assert Calls(layout, all[|events|]);
    }
    if Called(layout, all) {
      var j :| 0 <= j < |all| && Calls(layout, all[j])
               && forall i :: j < i < |all| ==> !all[i].Resets?;
      if j < |events| {
        assert !all[|events|].Resets?;
        assert Calls(layout, events[j]) && forall i :: j < i < |events| ==> !all[i].Resets?;
      }
    }
  }

  lemma StepBlank(a: Sys, layout: Layout, e: Event, b: Sys)
    requires Inv(a, layout) && Step(a, layout, e, b)
    ensures b.node.state == Blank
       <==> e.Resets? || (a.node.state == Blank && !Calls(layout, e))
  {
    InvShaped(a, layout);
    if e.Resets? {
      ResetGo(a, layout, e.bytes, e.handCrc, b);
    } else if !e.Holds? && !e.Assigns? && !e.Goes? {
      OthersKeep(a, layout, e, b);
    }
    hide Inv, Shaped, SealEnds, ResetTo, Offer, Chunk, Verify, Record, AppValid;
  }

  /** From a node just reset, over every run: it is blank exactly while nobody has called it since
      its last reset. So the window's jump is never open behind a call, and where nobody called it
      starts, if the gate found an image, that image whole and of its sum. */
  lemma {:induction false} WindowJump(states: seq<Sys>, layout: Layout, events: seq<Event>, k: nat)
    requires Run(states, layout, events) && k < |states|
    requires Inv(states[0], layout) && states[0].node.state == Blank
    ensures states[k].node.state == Blank <==> !Called(layout, events[..k])
    ensures states[k].ready && !Called(layout, events[..k]) ==>
              Shaped(states[k]) && |states[k].ram| == 0x4_8000 && RamHolds(states[k])
              && MayRun(states[k].ram, 0, layout.kind)
  {
    hide Inv, Step, Shaped, MayRun, RamHolds, Calls;
    if k > 0 {
      WindowJump(states, layout, events, k - 1);
      RunKeeps(states, layout, events, k - 1);
      StepBlank(states[k - 1], layout, events[k - 1], states[k]);
      CalledNext(layout, events[..k - 1], events[k - 1]);
      assert events[..k] == events[..k - 1] + [events[k - 1]];
      ResetsCall(layout, events[k - 1]);
    }
    RunKeeps(states, layout, events, k);
    if states[k].ready && states[k].node.state == Blank {
      TimeoutStarts(states[k], layout);
    }
  }

  lemma ResetsCall(layout: Layout, e: Event)
    ensures e.Resets? ==> !Calls(layout, e)
  {
  }

  // ---- what a go is taken for ----

  /** A go that was taken: its session that of the last hold, the node sealed, and RAM holding the
      image it had verified, the four tests passed. */
  ghost predicate GoTaken(states: seq<Sys>, layout: Layout, events: seq<Event>, t: Told, j: nat)
    requires j < |events| && |states| == |events| + 1
  {
    && events[j].Goes? && events[j].goSession == HearsAll(t, layout, events[..j]).session
    && states[j].node.state == Sealed && Shaped(states[j + 1]) && RamHolds(states[j + 1])
    && |states[j + 1].ram| == 0x4_8000 && MayRun(states[j + 1].ram, 0, layout.kind)
  }

  lemma GoesGo(a: Sys, layout: Layout, session: nat, b: Sys)
    requires Shaped(a) && Step(a, layout, Goes(session), b) && b.node.go
    ensures a.node.go || (session == a.node.session && a.node.state == Sealed)
  {
    hide AppValid, NodeOk;
  }

  lemma GoStep(a: Sys, layout: Layout, e: Event, b: Sys)
    requires Inv(a, layout) && Step(a, layout, e, b) && b.node.go
    ensures (a.node.go && !e.Resets?)
         || (e.Goes? && e.goSession == a.node.session && a.node.state == Sealed)
  {
    InvShaped(a, layout);
    hide Inv, Step, Shaped;
    if e.Resets? {
      ResetGo(a, layout, e.bytes, e.handCrc, b);
    } else if e.Goes? {
      GoesGo(a, layout, e.goSession, b);
    } else {
      OthersGo(a, layout, e, b);
    }
  }

  lemma OthersGo(a: Sys, layout: Layout, e: Event, b: Sys)
    requires Inv(a, layout) && Step(a, layout, e, b) && !e.Goes? && !e.Resets?
    ensures b.node.go == a.node.go
  {
    if !e.Holds? && !e.Assigns? {
      OthersKeep(a, layout, e, b);
    }
    hide Inv;
  }

  /** In every run that begins with no go up, one up at its end is one taken on the way, with the
      session of the last hold since the reset, and no reset behind it. */
  lemma {:induction false} SessionGoes(states: seq<Sys>, layout: Layout, events: seq<Event>, k: nat, t: Told)
    returns (j: nat)
    requires Run(states, layout, events) && k < |states| && Inv(states[0], layout)
    requires Obeys(states[0].node, t) && !states[0].node.go && states[k].node.go
    ensures j < k && GoTaken(states, layout, events, t, j)
    ensures forall i :: j <= i < k ==> !events[i].Resets?
  {
    hide Inv, Step, Shaped, Obeys, AppValid, RamHolds, HearsAll;
    RunKeeps(states, layout, events, k - 1);
    GoStep(states[k - 1], layout, events[k - 1], states[k]);
    if states[k - 1].node.go && !events[k - 1].Resets? {
      j := SessionGoes(states, layout, events, k - 1, t);
    } else {
      j := k - 1;
      RunObeys(states, layout, events, k - 1, t);
      ObeysSession(states[k - 1].node, HearsAll(t, layout, events[..k - 1]));
      GoStarts(states[k - 1], layout, events[k - 1].goSession, states[k]);
    }
  }

  lemma ObeysSession(n: Node, t: Told)
    requires Obeys(n, t)
    ensures n.session == t.session
  {
  }

  // ---- the record ----

  /** A record op that lands: its bytes where it asked, the rest as they were, and the record long
      enough to hold them. */
  lemma RecordLands(n: Node, offset: nat, data: seq<byte>)
    requires NodeOk(n)
    ensures var (m, took) := Record(n, offset, data);
      && (took <==> Rank(n.state) >= Rank(Assigned) && offset + |data| <= RECORD_MAX)
      && (!took ==> m == n)
      && (took ==>
            && NodeOk(m) && m.record[offset..offset + |data|] == data
            && (forall i :: 0 <= i < RECORD_MAX && !(offset <= i < offset + |data|) ==>
                  m.record[i] == n.record[i])
            && m.recordBytes >= offset + |data| && m.recordBytes >= n.recordBytes)
  {
  }

  /** A record op that was taken and wrote byte `i`. */
  predicate Wrote(n: Node, e: Event, i: nat)
    requires NodeOk(n)
  {
    e.Records? && e.offset <= i < e.offset + |e.data| && Record(n, e.offset, e.data).1
  }

  lemma OfferRecord(n: Node, ram: seq<byte>, flash: seq<byte>, kind: byte, offer: byte, size: nat,
                    crc: bv32, chunks: nat)
    requires NodeOk(n) && |ram| == RUN_BYTES && |flash| == FLASH_BYTES
    ensures var m := Offer(n, ram, flash, kind, offer, size, crc, chunks).node;
      && m.record == n.record
      && (!OfferHeard(n, kind, offer, size, chunks) ==> m.recordBytes == n.recordBytes)
  {
    hide ImageHeld, StoreNames, Copied, Wiped, Filled;
    if OfferHeard(n, kind, offer, size, chunks) {}
    if ImageHeld(n, ram, kind, size, crc) {}
    if StoreNames(flash, kind) == Image(size, crc) {}
  }

  lemma ChunkRecord(n: Node, ram: seq<byte>, index: nat, data: seq<byte>)
    requires NodeOk(n) && |ram| == RUN_BYTES
    ensures var m := Chunk(n, ram, index, data).node;
      m.record == n.record && m.recordBytes == n.recordBytes
  {
    hide Bit, SetBit, ChunkRam, Pad, Room;
    if ChunkHeard(n, index, data) && Bit(n.bitmap, index) {}
    if index == 0 {}
  }

  lemma SealRecord(a: Sys, layout: Layout, flags: bv8, b: Sys)
    requires Shaped(a) && SealEnds(a, layout, flags, b)
    ensures b.node.record == a.node.record && b.node.recordBytes == a.node.recordBytes
  {
    hide SealCut, Kept, Completed, SameBut;
  }

  lemma RestRecord(a: Sys, layout: Layout, e: Event, b: Sys)
    requires Shaped(a) && Step(a, layout, e, b)
    requires e.Holds? || e.Assigns? || e.Verifies? || e.Goes?
    ensures b.node.record == a.node.record && b.node.recordBytes == a.node.recordBytes
  {
    hide NodeOk, ImageOf, Crc, AppValid;
  }

  lemma RecordAt(n: Node, offset: nat, data: seq<byte>, i: nat)
    requires NodeOk(n) && i < RECORD_MAX
    ensures var m := Record(n, offset, data).0;
      && |m.record| == RECORD_MAX && m.recordBytes >= n.recordBytes
      && (!Wrote(n, Records(offset, data), i) ==> m.record[i] == n.record[i])
      && (Wrote(n, Records(offset, data), i) ==> m.record[i] == data[i - offset] && i < m.recordBytes)
  {
    RecordLands(n, offset, data);
    var (m, took) := Record(n, offset, data);
    if took && offset <= i < offset + |data| {
      assert m.record[offset..offset + |data|][i - offset] == m.record[i];
    }
    hide NodeOk;
  }

  lemma NoneWrote(n: Node, e: Event, i: nat)
    requires NodeOk(n) && !e.Records?
    ensures !Wrote(n, e, i)
  {
  }

  lemma OtherRecord(a: Sys, layout: Layout, e: Event, b: Sys)
    requires Shaped(a) && Step(a, layout, e, b) && !e.Resets? && !e.Records?
    ensures b.node.record == a.node.record
    ensures (e.Offers? ==> !OfferHeard(a.node, layout.kind, e.offer, e.size, e.chunks)) ==>
              b.node.recordBytes == a.node.recordBytes
  {
    hide NodeOk, Offer, Chunk, Verify, Go, Hold, Assign, SealEnds, OfferHeard;
    match e
    case Offers(offer, size, crc, chunks) =>
      OfferRecord(a.node, a.ram, a.flash, layout.kind, offer, size, crc, chunks);
    case Chunks(index, data) => ChunkRecord(a.node, a.ram, index, data);
    case Seals(flags) => SealRecord(a, layout, flags, b);
    case _ => RestRecord(a, layout, e, b);
  }

  lemma RecordIs(a: Sys, layout: Layout, e: Event, b: Sys)
    requires Shaped(a) && Step(a, layout, e, b) && e.Records?
    ensures b.node == Record(a.node, e.offset, e.data).0
  {
    hide Record, NodeOk;
  }

  /** One step leaves a byte of the record as it was unless it writes it, and in the record unless an
      erase is heard. */
  lemma RecordStep(a: Sys, layout: Layout, e: Event, b: Sys, i: nat)
    requires Shaped(a) && Shaped(b) && Step(a, layout, e, b) && !e.Resets? && i < RECORD_MAX
    ensures !Wrote(a.node, e, i) ==> b.node.record[i] == a.node.record[i]
    ensures Wrote(a.node, e, i) ==>
              e.Records? && e.offset <= i < e.offset + |e.data|
              && b.node.record[i] == e.data[i - e.offset] && i < b.node.recordBytes
    ensures (e.Offers? ==> !OfferHeard(a.node, layout.kind, e.offer, e.size, e.chunks)) ==>
              b.node.recordBytes >= a.node.recordBytes
  {
    hide Step, Record, OfferHeard;
    if e.Records? {
      RecordIs(a, layout, e, b);
      RecordAt(a.node, e.offset, e.data, i);
    } else {
      NoneWrote(a.node, e, i);
      OtherRecord(a, layout, e, b);
    }
  }

  /** Nothing from step `j` to step `k` writes byte `i` of the record, or resets the node. */
  ghost predicate Stands(states: seq<Sys>, events: seq<Event>, j: nat, k: nat, i: nat)
    requires k <= |events| <= |states|
  {
    forall m :: j < m < k ==>
      Shaped(states[m]) && !events[m].Resets? && !Wrote(states[m].node, events[m], i)
  }

  /** Nor hears an erase. */
  ghost predicate Unheard(states: seq<Sys>, layout: Layout, events: seq<Event>, j: nat, k: nat)
    requires k <= |events| <= |states|
  {
    forall m :: j < m < k && events[m].Offers? ==>
      !OfferHeard(states[m].node, layout.kind, events[m].offer, events[m].size, events[m].chunks)
  }

  /** Over every run a byte of the record is what the last record op taken over it wrote, and it is
      in the record as long as no erase has been heard since. */
  lemma {:induction false} RecordLast(states: seq<Sys>, layout: Layout, events: seq<Event>, j: nat,
                                      k: nat, i: nat)
    requires Run(states, layout, events) && Inv(states[0], layout) && j < k < |states|
    requires Shaped(states[j]) && Wrote(states[j].node, events[j], i)
    requires Stands(states, events, j, k, i)
    ensures Shaped(states[k]) && i < RECORD_MAX
    ensures states[k].node.record[i] == events[j].data[i - events[j].offset]
    ensures Unheard(states, layout, events, j, k) ==> i < states[k].node.recordBytes
    decreases k
  {
    hide Inv, Step, Wrote, OfferHeard, NodeOk, Run, Stands, Unheard;
    RunSize(states, layout, events);
    WroteIn(states[j].node, events[j], i);
    RunKeeps(states, layout, events, k);
    InvShaped(states[k], layout);
    RunAt(states, layout, events, k - 1);
    if j + 1 < k {
      StandsLess(states, layout, events, j, k, i);
      RecordLast(states, layout, events, j, k - 1, i);
    } else {
      WroteResets(states[j].node, events[j], i);
    }
    RecordStep(states[k - 1], layout, events[k - 1], states[k], i);
  }

  lemma RunSize(states: seq<Sys>, layout: Layout, events: seq<Event>)
    requires Run(states, layout, events)
    ensures |states| == |events| + 1
  {
    hide Step, Shaped;
  }

  lemma RunAt(states: seq<Sys>, layout: Layout, events: seq<Event>, k: nat)
    requires Run(states, layout, events) && k < |events|
    ensures Shaped(states[k]) && Step(states[k], layout, events[k], states[k + 1])
  {
    hide Step, Shaped;
  }

  lemma StandsLess(states: seq<Sys>, layout: Layout, events: seq<Event>, j: nat, k: nat, i: nat)
    requires j + 1 < k <= |events| <= |states| && Stands(states, events, j, k, i)
    ensures Stands(states, events, j, k - 1, i)
    ensures Shaped(states[k - 1]) && !events[k - 1].Resets? && !Wrote(states[k - 1].node, events[k - 1], i)
    ensures Unheard(states, layout, events, j, k) ==>
              && Unheard(states, layout, events, j, k - 1)
              && (events[k - 1].Offers? ==>
                    !OfferHeard(states[k - 1].node, layout.kind, events[k - 1].offer,
                                events[k - 1].size, events[k - 1].chunks))
  {
    hide Shaped, Wrote, OfferHeard;
  }

  lemma WroteResets(n: Node, e: Event, i: nat)
    requires NodeOk(n) && Wrote(n, e, i)
    ensures !e.Resets? && !e.Offers?
  {
  }

  lemma WroteIn(n: Node, e: Event, i: nat)
    requires NodeOk(n) && Wrote(n, e, i)
    ensures i < RECORD_MAX && e.Records?
  {
  }

  /** A seal that took leaves the record in its sector byte for byte, whatever else it kept. */
  lemma RecordSealed(n: Node, ram: seq<byte>, flash: seq<byte>, kind: byte, flags: bv8,
                     n': Node, ram': seq<byte>, flash': seq<byte>)
    requires NodeOk(n) && |ram| == RUN_BYTES && |flash| == FLASH_BYTES && n.recordBytes != 0
    requires SealStep(n, ram, flash, kind, flags, n', ram', flash', true)
    ensures |flash'| == FLASH_BYTES
    ensures flash'[RECORD..RECORD + n.recordBytes] == n.record[..n.recordBytes]
  {
    hide StoreNames, Stored, Recorded, Completed, SealCut;
    RecordThere(n, flash);
    var f := Recorded(n, flash);
    if Persisting(flags) && StoreNames(f, kind) != Image(n.size, n.crc) {
      StoredSpares(n, Completed(n, ram), f, kind);
    }
  }

  lemma RecordThere(n: Node, flash: seq<byte>)
    requires NodeOk(n) && |flash| == FLASH_BYTES && n.recordBytes != 0
    ensures Recorded(n, flash)[RECORD..RECORD + n.recordBytes] == n.record[..n.recordBytes]
  {
    var data := n.record[..n.recordBytes];
    var pad := Pad(data);
    PadBytes(data);
    var r := Recorded(n, flash);
    assert r[RECORD..RECORD + |pad|] == pad;
    hide Recorded, Pad;
    assert r[RECORD..RECORD + n.recordBytes] == pad[..n.recordBytes];
  }

  lemma StoredSpares(n: Node, ram: seq<byte>, flash: seq<byte>, kind: byte)
    requires NodeOk(n) && Fits(n.size, n.chunks) && |ram| == RUN_BYTES && |flash| == FLASH_BYTES
    ensures Stored(n, ram, flash, kind)[RECORD..] == flash[RECORD..]
  {
    hide SealWord;
    var c := Stored(n, ram, flash, kind);
    assert forall i :: RECORD <= i < FLASH_BYTES ==> c[i] == flash[i];
  }

  // ---- the address across restarts ----

  /** Restarts one after another, each handing over: the slot the next one finds. */
  function HandedOn(slot: Slot, nodes: seq<Node>): Slot {
    if nodes == [] then slot
    else HandOver(nodes[|nodes| - 1], HandedOn(slot, nodes[..|nodes| - 1]))
  }

  /** An address once assigned and handed over is handed on by every restart no master calls in on,
      however many. Without one ever, what is handed on is unit 0. */
  lemma {:induction false} UnitSurvives(n: Node, slot: Slot, nodes: seq<Node>)
    requires forall i :: 0 <= i < |nodes| ==> Rank(nodes[i].state) < Rank(Assigned)
    ensures var first := HandOver(n, slot);
            var last := HandedOn(first, nodes);
      && last.handed && !last.stay
      && last.unit == first.unit && last.position == first.position && last.flags == first.flags
      && (Rank(n.state) >= Rank(Assigned) ==>
            last.unit == n.unit && last.position == n.position && last.flags == n.flags)
      && (Rank(n.state) < Rank(Assigned) && !slot.handed ==> last.unit == 0)
      && (nodes != [] ==> last.bytes == nodes[|nodes| - 1].runBytes && last.crc == nodes[|nodes| - 1].runCrc)
    decreases |nodes|
  {
    if nodes != [] {
      UnitSurvives(n, slot, nodes[..|nodes| - 1]);
    }
  }

  // ---- a go taken, and the image lost at the next warm restart ----

  /** An image that passes the four tests and whose header names a size of its own. */
  function Misnamed(kind: byte): (r: seq<byte>)
    ensures |r| == SHAPE
  {
    U32Bytes(STACK_BASE + STACK_BYTES) + U32Bytes(RUN_BASE + 1) + Filled(HEADER - 8, 0)
    + U32Bytes(HEADER_MAGIC) + U32Bytes(HEADER + 1) + Filled(4, 0) + U32Bytes(kind as nat)
  }

  lemma MisnamedPasses(kind: byte)
    ensures ShapeOk(Misnamed(kind), 0, kind)
    ensures U32(Misnamed(kind), HEADER + 4) == HEADER + 1 != |Misnamed(kind)|
  {
    hide U32Bytes, U32, Filled;
    var img := Misnamed(kind);
    assert img[0..4] == U32Bytes(STACK_BASE + STACK_BYTES)[0..4];
    assert img[4..8] == U32Bytes(RUN_BASE + 1)[0..4];
    assert img[HEADER..HEADER + 4] == U32Bytes(HEADER_MAGIC)[0..4];
    assert img[HEADER + 4..HEADER + 8] == U32Bytes(HEADER + 1)[0..4];
    assert img[HEADER + 12..HEADER + 16] == U32Bytes(kind as nat)[0..4];
    U32OfBytes(STACK_BASE + STACK_BYTES);
    U32OfBytes(RUN_BASE + 1);
    U32OfBytes(HEADER_MAGIC);
    U32OfBytes(HEADER + 1);
    U32OfBytes(kind as nat);
    WordAlike(img, 0, U32Bytes(STACK_BASE + STACK_BYTES), 0);
    WordAlike(img, 4, U32Bytes(RUN_BASE + 1), 0);
    WordAlike(img, HEADER, U32Bytes(HEADER_MAGIC), 0);
    WordAlike(img, HEADER + 4, U32Bytes(HEADER + 1), 0);
    WordAlike(img, HEADER + 12, U32Bytes(kind as nat), 0);
  }

  ghost predicate Reaches(a: Sys, layout: Layout, b: Sys) {
    exists states: seq<Sys>, events: seq<Event> ::
      Run(states, layout, events) && states[0] == a && states[|events|] == b
  }

  lemma ReachesSelf(a: Sys, layout: Layout)
    ensures Reaches(a, layout, a)
  {
    hide Step, Shaped;
    assert Run([a], layout, []);
  }

  lemma ReachesMore(a: Sys, layout: Layout, b: Sys, e: Event, c: Sys)
    requires Reaches(a, layout, b) && Shaped(b) && Step(b, layout, e, c)
    ensures Reaches(a, layout, c)
  {
    hide Step, Shaped;
    var states, events :| Run(states, layout, events) && states[0] == a && states[|events|] == b;
    assert Run(states + [c], layout, events + [e]);
  }

  lemma {:induction false} StreamReaches(a: Sys, layout: Layout, b: Sys, heard: seq<Heard>)
    requires Reaches(a, layout, b) && Inv(b, layout) && Shaped(b)
    ensures var l := Play(Landed(b.node, b.ram), heard);
            var c := b.(node := l.node, ram := l.ram);
      Reaches(a, layout, c) && Inv(c, layout) && Shaped(c)
    decreases |heard|
  {
    hide Inv, Reaches, Chunk;
    if heard != [] {
      var k := |heard| - 1;
      StreamReaches(a, layout, b, heard[..k]);
      var m := Play(Landed(b.node, b.ram), heard[..k]);
      var c := b.(node := m.node, ram := m.ram);
      var l := Play(Landed(b.node, b.ram), heard);
      var d := b.(node := l.node, ram := l.ram);
      ChunkIs(c, layout, heard[k].index, heard[k].data, d);
      ReachesMore(a, layout, c, Chunks(heard[k].index, heard[k].data), d);
      StepKeeps(c, layout, Chunks(heard[k].index, heard[k].data), d);
      InvShaped(d, layout);
    }
  }

  lemma ChunkIs(a: Sys, layout: Layout, index: nat, data: seq<byte>, b: Sys)
    requires Shaped(a)
    requires var l := Chunk(a.node, a.ram, index, data); b == a.(node := l.node, ram := l.ram)
    ensures Step(a, layout, Chunks(index, data), b)
  {
    hide Chunk;
  }

  /** An image's chunks in turn. */
  function InTurn(img: seq<byte>, k: nat): seq<Heard>
    requires k <= ChunksOf(|img|)
  {
    if k == 0 then [] else InTurn(img, k - 1) + [Heard(k - 1, Part(img, k - 1))]
  }

  lemma {:induction false} TurnFrom(img: seq<byte>, k: nat)
    requires k <= ChunksOf(|img|)
    ensures From(img, InTurn(img, k))
  {
    hide Part;
    if k > 0 {
      TurnFrom(img, k - 1);
    }
  }

  lemma {:induction false} TurnSeen(img: seq<byte>, k: nat)
    requires k <= ChunksOf(|img|)
    ensures |Seen(ChunksOf(|img|), InTurn(img, k))| == k
    ensures forall i :: i in Seen(ChunksOf(|img|), InTurn(img, k)) ==> i < k
  {
    hide Part;
    if k > 0 {
      TurnSeen(img, k - 1);
      SeenTurn(ChunksOf(|img|), InTurn(img, k - 1), Heard(k - 1, Part(img, k - 1)));
    }
  }

  lemma SeenTurn(chunks: nat, heard: seq<Heard>, h: Heard)
    requires h.index < chunks
    ensures Seen(chunks, heard + [h]) == Seen(chunks, heard) + {h.index}
  {
    assert (heard + [h])[..|heard|] == heard;
  }

  /** Power up: RAM and the store with nothing in them. */
  const PARTED: Sys := Sys(INITIAL, Filled(RUN_BYTES, 0), Filled(FLASH_BYTES, BLANK), false, false)

  lemma PowerUp(layout: Layout)
    ensures Inv(PARTED, layout) && Shaped(PARTED)
    ensures StoreNames(PARTED.flash, layout.kind) == Nothing
    ensures forall n: Node, size, crc :: |n.first| == WORD ==> !ImageHeld(n, PARTED.ram, layout.kind, size, crc)
  {
    CountFilled(BITMAP_BYTES, 0);
    hide Count, Bit, Crc, ImageOf;
    assert U32(PARTED.ram, HEADER) == 0;
    assert U32(PARTED.flash, STORE) == 0xFFFF_FFFF;
  }

  lemma AssignedUp(layout: Layout) returns (b: Sys)
    ensures Reaches(PARTED, layout, b) && Inv(b, layout) && Shaped(b)
    ensures b.ram == PARTED.ram && b.flash == PARTED.flash
    ensures b.node.state == Assigned && b.node.session == 0
  {
    PowerUp(layout);
    var e := Assigns(layout.uid, 1, 0, 0);
    b := PARTED.(node := INITIAL.(unit := 1, position := 0, flags := 0, state := Assigned));
    hide Inv, Count, Filled;
    ReachesSelf(PARTED, layout);
    ReachesMore(PARTED, layout, PARTED, e, b);
    StepKeeps(PARTED, layout, e, b);
    InvShaped(b, layout);
  }

  /** From power up: an address, then any image in turn, verified; here as far as the verify. */
  lemma StreamUp(layout: Layout, img: seq<byte>) returns (b: Sys)
    requires WORD <= |img| <= RUN_BYTES
    ensures Reaches(PARTED, layout, b) && Inv(b, layout) && Shaped(b)
    ensures b.flash == PARTED.flash && b.node.session == 0 && b.node.recordBytes == 0
    ensures b.node.verified && b.node.size == |img| && b.node.crc == Crc(img)
    ensures ImageOf(b.node, b.ram, |img|) == img
  {
    var kind, crc, chunks := layout.kind, Crc(img), ChunksOf(|img|);
    PowerUp(layout);
    var a := AssignedUp(layout);
    FitsUp(img);
    var l0 := Offer(a.node, a.ram, a.flash, kind, kind, |img|, crc, chunks);
    var o := a.(node := l0.node, ram := l0.ram, streaming := true);
    OfferUp(a, layout, |img|, crc, chunks, o);
    hide Inv, Reaches, ImageHeld, StoreNames, ImageOf, Crc, From, Seen, Play, Verify, Offer, Begun,
         Filled, InTurn, Step, Fits, OfferHeard;
    ReachesMore(PARTED, layout, a, Offers(kind, |img|, crc, chunks), o);
    StepKeeps(a, layout, Offers(kind, |img|, crc, chunks), o);
    InvShaped(o, layout);
    var heard := InTurn(img, chunks);
    TurnFrom(img, chunks);
    TurnSeen(img, chunks);
    StreamReaches(PARTED, layout, o, heard);
    OfferBegins(a.node, a.ram, a.flash, kind, |img|, crc, chunks);
    OfferFresh(a.node, a.ram, a.flash, kind, |img|, crc, chunks);
    StreamDelivers(l0, img, heard);
    StreamKept(l0, img, heard);
    var l := Play(l0, heard);
    assert Landed(o.node, o.ram) == l0;
    var c := o.(node := l.node, ram := l.ram);
    VerifyGives(l.node, l.ram);
    b := c.(node := Verify(l.node, l.ram).0);
    VerifyIs(c, layout, b);
    ReachesMore(PARTED, layout, c, Verifies, b);
    StepKeeps(c, layout, Verifies, b);
    InvShaped(b, layout);
    SameImage(l.node, b.node, l.ram, |img|);
  }

  lemma FitsUp(img: seq<byte>)
    requires WORD <= |img| <= RUN_BYTES
    ensures Fits(|img|, ChunksOf(|img|)) && ChunksOf(|img|) <= MAX_CHUNKS
  {
  }

  lemma OfferUp(a: Sys, layout: Layout, size: nat, crc: bv32, chunks: nat, b: Sys)
    requires Shaped(a) && a.node.state == Assigned && chunks <= MAX_CHUNKS && Fits(size, chunks)
    requires StoreNames(a.flash, layout.kind) == Nothing
    requires !ImageHeld(a.node, a.ram, layout.kind, size, crc)
    requires var l := Offer(a.node, a.ram, a.flash, layout.kind, layout.kind, size, crc, chunks);
      b == a.(node := l.node, ram := l.ram, streaming := true)
    ensures OfferHeard(a.node, layout.kind, layout.kind, size, chunks)
    ensures Step(a, layout, Offers(layout.kind, size, crc, chunks), b)
  {
    hide ImageHeld, StoreNames, Offer;
  }

  lemma VerifyIs(a: Sys, layout: Layout, b: Sys)
    requires Shaped(a) && b == a.(node := Verify(a.node, a.ram).0)
    ensures Step(a, layout, Verifies, b)
  {
    hide Verify;
  }

  /** And as far as a seal that keeps nothing in the store. */
  lemma SealUp(layout: Layout, img: seq<byte>) returns (b: Sys)
    requires WORD <= |img| <= RUN_BYTES
    ensures Reaches(PARTED, layout, b) && Inv(b, layout) && Shaped(b)
    ensures b.flash == PARTED.flash && b.node.session == 0 && b.node.state == Sealed
    ensures b.node.size == |img| && b.ram[..|img|] == img && b.node.crc == Crc(img)
  {
    var a := StreamUp(layout, img);
    var n := a.node;
    hide Inv, Reaches, ImageOf, Crc, Filled, Completed;
    VerifiedFits(a, layout);
    KeptNothing(n, a.ram, a.flash, layout.kind);
    b := a.(node := n.(firstHeld := false, runBytes := n.size, runCrc := n.crc, state := Sealed),
            ram := Completed(n, a.ram), streaming := false);
    SealIs(a, layout, b);
    SealDelivers(n, a.ram, a.flash, layout.kind, 0, b.node, b.ram, b.flash, img);
    ReachesMore(PARTED, layout, a, Seals(0), b);
    StepKeeps(a, layout, Seals(0), b);
    InvShaped(b, layout);
  }

  lemma VerifiedFits(s: Sys, layout: Layout)
    requires Inv(s, layout) && s.node.verified
    ensures Fits(s.node.size, s.node.chunks)
  {
    hide Count, Bit, Crc, AppValid, ImageOf;
  }

  lemma KeptNothing(n: Node, ram: seq<byte>, flash: seq<byte>, kind: byte)
    requires NodeOk(n) && Fits(n.size, n.chunks) && |ram| == RUN_BYTES && |flash| == FLASH_BYTES
    requires n.recordBytes == 0
    ensures Kept(n, ram, flash, kind, 0) == flash
  {
    hide Stored, StoreNames, Completed, RecordHeld;
  }

  lemma SealIs(a: Sys, layout: Layout, b: Sys)
    requires Shaped(a) && a.node.verified && Fits(a.node.size, a.node.chunks)
    requires Kept(a.node, a.ram, a.flash, layout.kind, 0) == a.flash
    requires var n := a.node;
      b == a.(node := n.(firstHeld := false, runBytes := n.size, runCrc := n.crc, state := Sealed),
              ram := Completed(n, a.ram), streaming := false)
    ensures SealStep(a.node, a.ram, a.flash, layout.kind, 0, b.node, b.ram, b.flash, true)
    ensures Step(a, layout, Seals(0), b)
  {
    hide Kept, Completed, SealCut, NodeOk, Fits;
  }

  lemma RunsAs(ram: seq<byte>, img: seq<byte>, kind: byte)
    requires |ram| == RUN_BYTES && |img| == SHAPE && ram[..SHAPE] == img
    ensures AppValid(ram, kind) == ShapeOk(img, 0, kind)
    ensures U32(ram, HEADER + 4) == U32(img, HEADER + 4)
  {
    hide ShapeOk, U32;
    assert ram[0..0 + SHAPE] == img[0..0 + SHAPE];
    ShapeAlike(ram, 0, img, 0, kind);
  }

  lemma GoUp(layout: Layout) returns (z: Sys)
    ensures Reaches(PARTED, layout, z) && Inv(z, layout) && Shaped(z)
    ensures z.node.state == Sealed && z.node.go && AppValid(z.ram, layout.kind)
    ensures z.flash == PARTED.flash && U32(z.ram, HEADER + 4) != z.node.size
    ensures z.node.crc == Crc(Misnamed(layout.kind))
  {
    var kind, img := layout.kind, Misnamed(layout.kind);
    MisnamedPasses(kind);
    hide Inv, Reaches, Filled, Misnamed, ShapeOk, U32, Step, AppValid, NodeOk;
    var a := SealUp(layout, img);
    RunsAs(a.ram, img, kind);
    z := a.(node := a.node.(go := true));
    GoIs(a, layout, z);
    ReachesMore(PARTED, layout, a, Goes(0), z);
    StepKeeps(a, layout, Goes(0), z);
    InvShaped(z, layout);
  }

  /** A go taken and an image lost, from power up: the node streams, verifies and seals an image
      that passes the four tests and whose header names another size than the master offered; the
      go is taken and the image runs; and the warm restart behind it, RAM untouched and the slot
      handed over, refuses it. */
  lemma WarmLost(layout: Layout, slot: Slot) returns (z: Sys)
    ensures Reaches(PARTED, layout, z) && Shaped(z) && z.node.state == Sealed && z.node.go
    ensures var h := HandOver(z.node, slot);
      !Gate(INITIAL, z.ram, z.flash, layout.kind, h.bytes, h.crc).ready
  {
    hide Inv, Reaches, Filled, U32, StoreNames, AppValid, Gate, HandOver, ImageHeld, NodeOk;
    z := GoUp(layout);
    PowerUp(layout);
    WarmRefused(z, layout, slot);
  }

  /** A go taken, and its image gone, from power up: the same run, and then any image of another sum
      offered behind the go - the flag is up, and what RAM holds fails the tests. */
  lemma StaleReached(layout: Layout, crc: bv32) returns (b: Sys)
    requires crc != Crc(Misnamed(layout.kind))
    ensures Reaches(PARTED, layout, b) && Shaped(b)
    ensures b.node.go && !AppValid(b.ram, layout.kind)
  {
    hide Inv, Reaches, Filled, Misnamed, U32, StoreNames, AppValid, Gate, ImageHeld, NodeOk, Step, Crc;
    PowerUp(layout);
    var z := GoUp(layout);
    StaleGo(z, layout, crc);
    var e := Offers(layout.kind, z.node.size, crc, z.node.chunks);
    b :| Step(z, layout, e, b) && b.node.go && |b.ram| == RUN_BYTES && !AppValid(b.ram, layout.kind);
    ReachesMore(PARTED, layout, z, e, b);
    StepKeeps(z, layout, e, b);
    InvShaped(b, layout);
  }

  lemma WarmRefused(s: Sys, layout: Layout, slot: Slot)
    requires Inv(s, layout) && Shaped(s) && s.node.state == Sealed && AppValid(s.ram, layout.kind)
    requires U32(s.ram, HEADER + 4) != s.node.size && StoreNames(s.flash, layout.kind) == Nothing
    ensures var h := HandOver(s.node, slot);
      !Gate(INITIAL, s.ram, s.flash, layout.kind, h.bytes, h.crc).ready
  {
    hide Inv, AppValid, U32, StoreNames, Gate, Filled, ImageHeld, HandOver, NodeOk;
    WarmRestart(s, layout, slot);
    var h := HandOver(s.node, slot);
    GateRefuses(s.ram, s.flash, layout.kind, h.bytes, h.crc);
  }

  lemma GoIs(a: Sys, layout: Layout, b: Sys)
    requires Shaped(a) && a.node.state == Sealed && a.node.session == 0 && AppValid(a.ram, layout.kind)
    requires b == a.(node := a.node.(go := true))
    ensures Step(a, layout, Goes(0), b)
  {
    hide AppValid, NodeOk;
  }

  lemma GateRefuses(ram: seq<byte>, flash: seq<byte>, kind: byte, bytes: nat, crc: bv32)
    requires |ram| == RUN_BYTES && |flash| == FLASH_BYTES
    requires !ImageHeld(INITIAL, ram, kind, bytes, crc) && StoreNames(flash, kind) == Nothing
    ensures !Gate(INITIAL, ram, flash, kind, bytes, crc).ready
  {
    hide ImageHeld, StoreNames, Filled;
  }
}
