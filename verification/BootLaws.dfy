/** What the bootloader promises of every run: nothing runs unverified, and chunks may come in any
    order. */
module BootLaws {
  import opened Bytes
  import opened Checksum
  import opened BootPort
  import opened BootNode
  import opened BootRuns

  // -- what may run --------------------------------------------------------------------------

  /** Four bytes as a number, the lowest first. */
  function Word32(mem: seq<byte>, at: nat): nat
    requires at + 4 <= |mem|
  {
    mem[at] as nat + 256 * (mem[at + 1] as nat) + 65536 * (mem[at + 2] as nat)
    + 16777216 * (mem[at + 3] as nat)
  }

  /** What lets an image run: its stack pointer within the stack's memory, its reset vector odd and
      inside RAM, its header's magic, its board's kind, and a size past the header that RAM holds. */
  predicate MayRun(mem: seq<byte>, at: nat, kind: byte)
    requires at + 0x410 <= |mem|
  {
    && 0x2000_0000 < Word32(mem, at) <= 0x2002_0000
    && Word32(mem, at + 4) % 2 == 1 && 0x3000_0000 < Word32(mem, at + 4) < 0x3004_8000
    && Word32(mem, at + 0x400) == 0x5041_5843
    && Word32(mem, at + 0x40C) == kind as nat
    && 0x400 < Word32(mem, at + 0x404) <= 0x4_8000
  }

  /** The gate's tests are those, each a reason of its own to refuse. */
  lemma TestsAre(mem: seq<byte>, at: nat, kind: byte)
    requires at + 0x410 <= |mem|
    ensures ShapeOk(mem, at, kind) <==> MayRun(mem, at, kind)
  {
    hide U32, Word32;
    WordIs(mem, at);
    WordIs(mem, at + 4);
    WordIs(mem, at + 0x400);
    WordIs(mem, at + 0x404);
    WordIs(mem, at + 0x40C);
  }

  lemma WordIs(mem: seq<byte>, at: nat)
    requires at + 4 <= |mem|
    ensures U32(mem, at) == Word32(mem, at)
  {
  }

  /** RAM holds, whole and in place, the image the node's run size and sum name. */
  ghost predicate RamHolds(s: Sys)
    requires Shaped(s)
  {
    && WORD <= s.node.runBytes <= RUN_BYTES && !s.node.firstHeld
    && Crc(s.ram[..s.node.runBytes]) == s.node.runCrc
  }

  /** While an image streams, from the erase to the seal, RAM fails the four tests. */
  lemma StreamingInvalid(s: Sys, layout: Layout)
    requires Inv(s, layout) && s.streaming
    ensures !AppValid(s.ram, layout.kind)
  {
    hide Count, Bit, AppValid, Crc;
    BlankInvalid(s.ram, layout.kind);
  }

  lemma SealedHolds(s: Sys, layout: Layout)
    requires Inv(s, layout) && s.node.state == Sealed
    ensures Shaped(s) && RamHolds(s)
  {
    hide Count, Bit, AppValid, Crc, AllSet;
    ImageInRam(s.node, s.ram, s.node.size);
  }

  /** A go with the session held, on a sealed node, starts a verified image - valid, whole in RAM,
      and of the sum the erase offered - or none where the four tests fail; any other go changes
      nothing. */
  lemma GoStarts(a: Sys, layout: Layout, session: nat, b: Sys)
    requires Inv(a, layout) && Step(a, layout, Goes(session), b)
    ensures var taken := session == a.node.session && a.node.state == Sealed;
      && (!taken ==> b == a)
      && (taken ==>
            && |b.ram| == 0x4_8000 && (b.node.go <==> MayRun(b.ram, 0, layout.kind))
            && Shaped(b) && RamHolds(b) && b.node.runBytes == a.node.size
            && b.node.runCrc == a.node.crc)
  {
    if session == a.node.session && a.node.state == Sealed {
      SealedHolds(a, layout);
      TestsAre(a.ram, 0, layout.kind);
    }
    hide ShapeOk, MayRun, Crc, ImageOf, Count;
  }

  /** The jump when nobody called within the window starts the image the gate verified. */
  lemma TimeoutStarts(s: Sys, layout: Layout)
    requires Inv(s, layout) && s.ready && s.node.state == Blank
    ensures Shaped(s) && |s.ram| == 0x4_8000 && MayRun(s.ram, 0, layout.kind)
    ensures RamHolds(s) && U32(s.ram, HEADER + 4) == s.node.runBytes
  {
    hide Count, Bit, U32, Crc, ShapeOk, MayRun;
    if s.streaming {
      BlankInvalid(s.ram, layout.kind);
    }
    ValidSize(s.ram, layout.kind);
    TestsAre(s.ram, 0, layout.kind);
    ImageInRam(s.node, s.ram, s.node.runBytes);
  }

  lemma ValidSize(ram: seq<byte>, kind: byte)
    requires |ram| == RUN_BYTES && AppValid(ram, kind)
    ensures HEADER < U32(ram, HEADER + 4) <= RUN_BYTES
  {
    hide U32;
  }

  /** Until a unit is assigned no op writes a byte of RAM or flash. */
  lemma UnassignedKeeps(a: Sys, layout: Layout, e: Event, b: Sys)
    requires Inv(a, layout) && Step(a, layout, e, b)
    requires Rank(a.node.state) < Rank(Assigned) && !e.Resets?
    ensures b.ram == a.ram && b.flash == a.flash
  {
    hide Count, Bit, AppValid, Crc, ImageOf, AllSet, AllBlank, Put, ChunkRam, StoreNames, SealCut;
  }

  /** Warm restart: with RAM kept and the slot handed over, the gate passes the image on as it
      stands exactly when its header names its size - which a go does not ask. */
  lemma WarmRestart(s: Sys, layout: Layout, slot: Slot)
    requires Inv(s, layout) && s.node.state == Sealed && AppValid(s.ram, layout.kind)
    ensures var h := HandOver(s.node, slot);
            && h.bytes == s.node.size && h.crc == s.node.crc
            && (ImageHeld(INITIAL, s.ram, layout.kind, h.bytes, h.crc)
                <==> U32(s.ram, HEADER + 4) == s.node.size)
            && (U32(s.ram, HEADER + 4) == s.node.size ==>
                  var g := Gate(INITIAL, s.ram, s.flash, layout.kind, h.bytes, h.crc);
                  g.ready && g.ram == s.ram)
  {
    hide Count, Bit, U32, Crc, ShapeOk, AppValid;
    SealedHolds(s, layout);
    ImageInRam(INITIAL, s.ram, s.node.size);
  }

  // -- a go, and an erase behind it ----------------------------------------------------------

  /** RAM holds, whole and in place, the image the node verified. */
  ghost predicate Standing(s: Sys)
    requires Shaped(s)
  {
    s.node.verified && !s.node.firstHeld && Whole(s.node, s.ram)
  }

  /** After a go is taken the flag stays up until the jump; one op more leaves a whole image in
      RAM exactly unless it is an erase that starts a stream. */
  lemma GoOutlived(a: Sys, layout: Layout, e: Event, b: Sys)
    requires Inv(a, layout) && Step(a, layout, e, b) && Standing(a) && !e.Resets?
    ensures Inv(b, layout) && Shaped(b)
    ensures e.Goes? || b.node.go == a.node.go
    ensures Standing(b) <==> !(e.Offers? && Streams(a, layout, e.offer, e.size, e.crc, e.chunks))
    ensures e.Offers? && Streams(a, layout, e.offer, e.size, e.crc, e.chunks) ==>
              !AppValid(b.ram, layout.kind)
  {
    StepKeeps(a, layout, e, b);
    StandingNotStreaming(a, layout);
    StepStands(a, layout, e, b);
    if b.streaming {
      StreamingInvalid(b, layout);
    } else {
      hide Count, Bit, AppValid, Crc, AllSet, AllBlank, Step, StoreNames;
    }
  }

  lemma StandingNotStreaming(s: Sys, layout: Layout)
    requires Inv(s, layout) && Standing(s)
    ensures !s.streaming && s.node.chunks > 0
  {
    hide Count, Crc, AppValid, ImageOf;
    assert Bit(s.node.bitmap, 0);
  }

  lemma StepStands(a: Sys, layout: Layout, e: Event, b: Sys)
    requires Inv(a, layout) && Step(a, layout, e, b) && Standing(a) && !e.Resets?
    requires !a.streaming
    ensures e.Goes? || b.node.go == a.node.go
    ensures b.streaming <==> e.Offers? && Streams(a, layout, e.offer, e.size, e.crc, e.chunks)
    ensures b.streaming ==> !b.node.verified
    ensures !b.streaming ==> b.node.size != 0
  {
    hide Count, Bit, AppValid, Crc, ImageOf, AllSet, AllBlank, Put, ChunkRam, StoreNames, SealCut,
         ImageHeld;
  }

  /** So a go already taken does not keep the image it was taken for: offered another image that
      the store does not name, the flag still stands over a RAM that fails the four tests. */
  lemma StaleGo(a: Sys, layout: Layout, crc: bv32)
    requires Inv(a, layout) && a.node.state == Sealed && a.node.go
    requires crc != a.node.crc && StoreNames(a.flash, layout.kind) != Image(a.node.size, crc)
    ensures Shaped(a)
    ensures exists b :: Step(a, layout, Offers(layout.kind, a.node.size, crc, a.node.chunks), b)
              && b.node.go && |b.ram| == RUN_BYTES && !AppValid(b.ram, layout.kind)
  {
    var n, kind := a.node, layout.kind;
    StandingSealed(a, layout);
    var l := Offer(n, a.ram, a.flash, kind, kind, n.size, crc, n.chunks);
    var b := a.(node := l.node, ram := l.ram, streaming := true);
    StaleStep(a, layout, crc, b);
    hide Step, Offer, Inv, AppValid, StoreNames;
    GoOutlived(a, layout, Offers(kind, n.size, crc, n.chunks), b);
  }

  lemma StandingSealed(s: Sys, layout: Layout)
    requires Inv(s, layout) && s.node.state == Sealed
    ensures Shaped(s) && Standing(s)
  {
    hide Count, Bit, AppValid, Crc, AllSet;
  }

  lemma StaleStep(a: Sys, layout: Layout, crc: bv32, b: Sys)
    requires Shaped(a) && Standing(a) && a.node.state == Sealed && crc != a.node.crc
    requires StoreNames(a.flash, layout.kind) != Image(a.node.size, crc)
    requires var l := Offer(a.node, a.ram, a.flash, layout.kind, layout.kind, a.node.size, crc,
                            a.node.chunks);
             b == a.(node := l.node, ram := l.ram, streaming := true)
    ensures Streams(a, layout, layout.kind, a.node.size, crc, a.node.chunks)
    ensures Step(a, layout, Offers(layout.kind, a.node.size, crc, a.node.chunks), b)
  {
    hide Count, Bit, AppValid, Crc, AllSet, ImageOf, StoreNames;
    ChunksCovered(a.node);
  }
}
