/** Whole runs of the bootloader: ops in any order, resets and cuts of the supply anywhere. */
module BootRuns {
  import opened Bytes
  import opened Checksum
  import opened BootPort
  import opened BootNode

  // -- chunks counted ------------------------------------------------------------------------

  /** Bits set below `k`. */
  function Count(bitmap: seq<byte>, k: nat): nat
    requires k <= 8 * |bitmap|
  {
    if k == 0 then 0 else Count(bitmap, k - 1) + if Bit(bitmap, k - 1) then 1 else 0
  }

  lemma {:induction false} CountSet(bitmap: seq<byte>, i: nat, k: nat)
    requires i < 8 * |bitmap| && k <= 8 * |bitmap| && !Bit(bitmap, i)
    ensures Count(SetBit(bitmap, i), k) == Count(bitmap, k) + if i < k then 1 else 0
  {
    hide Bit, SetBit;
    if k > 0 {
      CountSet(bitmap, i, k - 1);
      BitOfSet(bitmap, i, k - 1);
    }
  }

  /** Every index below `k` landed. */
  ghost predicate AllSet(bitmap: seq<byte>, k: nat)
    requires k <= 8 * |bitmap|
  {
    forall i :: 0 <= i < k ==> Bit(bitmap, i)
  }

  lemma {:induction false} CountFull(bitmap: seq<byte>, k: nat)
    requires k <= 8 * |bitmap|
    ensures Count(bitmap, k) <= k
    ensures Count(bitmap, k) == k <==> AllSet(bitmap, k)
  {
    hide Bit;
    if k > 0 {
      CountFull(bitmap, k - 1);
      assert AllSet(bitmap, k) <==> AllSet(bitmap, k - 1) && Bit(bitmap, k - 1);
    }
  }

  lemma {:induction false} CountFilled(n: nat, k: nat)
    requires k <= 8 * n
    ensures Count(Filled(n, 0xFF), k) == k && Count(Filled(n, 0), k) == 0
  {
    hide Bit;
    if k > 0 {
      CountFilled(n, k - 1);
      BitOfFilled(n, k - 1);
    }
  }

  // -- the system ----------------------------------------------------------------------------

  /** The node, its memories, whether the reset's gate let the image in RAM run, and whether an
      image is being streamed: from an erase that kept nothing to the seal. */
  datatype Sys = Sys(node: Node, ram: seq<byte>, flash: seq<byte>, ready: bool, streaming: bool)

  datatype Event =
    | Holds(session: nat)
    | Assigns(uid: seq<byte>, unit: nat, position: nat, flags: bv8)
    | Offers(offer: byte, size: nat, crc: bv32, chunks: nat)
    | Chunks(index: nat, data: seq<byte>)
    | Verifies
    | Records(offset: nat, data: seq<byte>)
    | Seals(sealFlags: bv8)
    | Goes(goSession: nat)
    | Resets(bytes: nat, handCrc: bv32)

  ghost predicate Shaped(s: Sys) {
    NodeOk(s.node) && |s.ram| == RUN_BYTES && |s.flash| == FLASH_BYTES
  }

  /** Whether an erase op starts a stream: heard, the image held neither in RAM nor in the
      store. */
  ghost predicate Streams(s: Sys, layout: Layout, offer: byte, size: nat, crc: bv32, chunks: nat)
    requires Shaped(s)
  {
    && OfferHeard(s.node, layout.kind, offer, size, chunks)
    && !ImageHeld(s.node, s.ram, layout.kind, size, crc)
    && StoreNames(s.flash, layout.kind) != Image(size, crc)
  }

  ghost predicate SealEnds(a: Sys, layout: Layout, flags: bv8, b: Sys)
    requires Shaped(a)
  {
    && (SealStep(a.node, a.ram, a.flash, layout.kind, flags, b.node, b.ram, b.flash, true)
        || SealStep(a.node, a.ram, a.flash, layout.kind, flags, b.node, b.ram, b.flash, false))
    && b.ready == a.ready
    && b.streaming == (a.streaming && (!a.node.verified || b.node.firstHeld))
  }

  /** A reset, warm or after the supply was cut, between two ops or in the middle of a seal: the
      flash as the cut found it, RAM and the handover slot holding anything. */
  ghost predicate ResetTo(a: Sys, layout: Layout, bytes: nat, crc: bv32, ram: seq<byte>, b: Sys)
    requires Shaped(a) && |ram| == RUN_BYTES
  {
    && (b.flash == a.flash || SealCuts(b.flash, a.node, a.ram, a.flash, layout.kind))
    && |b.flash| == FLASH_BYTES
    && var g := Gate(INITIAL, ram, b.flash, layout.kind, bytes, crc);
       b.node == g.node && b.ram == g.ram && b.ready == g.ready && !b.streaming
  }

  ghost predicate Step(a: Sys, layout: Layout, e: Event, b: Sys)
    requires Shaped(a)
  {
    match e
    case Holds(session) => b == a.(node := Hold(a.node, session))
    case Assigns(uid, unit, position, flags) =>
      b == a.(node := Assign(a.node, layout, uid, unit, position, flags).0)
    case Offers(offer, size, crc, chunks) =>
      var l := Offer(a.node, a.ram, a.flash, layout.kind, offer, size, crc, chunks);
      b == a.(node := l.node, ram := l.ram,
              streaming := if OfferHeard(a.node, layout.kind, offer, size, chunks)
                           then Streams(a, layout, offer, size, crc, chunks) else a.streaming)
    case Chunks(index, data) =>
      var l := Chunk(a.node, a.ram, index, data);
      b == a.(node := l.node, ram := l.ram)
    case Verifies => b == a.(node := Verify(a.node, a.ram).0)
    case Records(offset, data) => b == a.(node := Record(a.node, offset, data).0)
    case Seals(flags) => SealEnds(a, layout, flags, b)
    case Goes(session) => b == a.(node := Go(a.node, a.ram, layout.kind, session))
    case Resets(bytes, crc) =>
      exists ram :: |ram| == RUN_BYTES && ResetTo(a, layout, bytes, crc, ram, b)
  }

  // -- what every run keeps ------------------------------------------------------------------

  /** Whole: every chunk landed, and the sum over the image with the word held back in its
      place is the one offered. */
  ghost predicate Whole(n: Node, ram: seq<byte>)
    requires NodeOk(n) && |ram| == RUN_BYTES
  {
    && Fits(n.size, n.chunks) && n.held == n.chunks && AllSet(n.bitmap, n.chunks)
    && Crc(ImageOf(n, ram, n.size)) == n.crc
  }

  lemma ChunksCovered(n: Node)
    requires NodeOk(n)
    ensures n.chunks <= MAX_CHUNKS && n.chunks <= 8 * |n.bitmap|
  {
  }

  /** The node's books against RAM. */
  ghost predicate Books(n: Node, ram: seq<byte>, streaming: bool) {
    && NodeOk(n) && |ram| == RUN_BYTES && n.chunks <= 8 * |n.bitmap|
    && n.held == Count(n.bitmap, n.chunks)
    && (n.verified ==> Whole(n, ram))
    && (n.state == Verified || n.state == Sealed ==> n.verified)
    && (n.state == Sealed ==> !n.firstHeld && n.runBytes == n.size && n.runCrc == n.crc)
    && (n.state == Blank || n.state == Held ==> n.size == 0)
    && (streaming ==> AllBlank(ram, 0, WORD) && n.size != 0)
    && (streaming && n.chunks > 0 && Bit(n.bitmap, 0) ==> n.firstHeld)
    && (!streaming ==> !n.firstHeld && (n.size == 0 || n.verified))
  }

  ghost predicate Inv(s: Sys, layout: Layout) {
    && Books(s.node, s.ram, s.streaming) && |s.flash| == FLASH_BYTES
    && (s.ready && (s.node.state == Blank || s.node.state == Held) ==>
          ImageHeld(s.node, s.ram, layout.kind, s.node.runBytes, s.node.runCrc))
  }

  lemma BlankInvalid(ram: seq<byte>, kind: byte)
    requires |ram| == RUN_BYTES && AllBlank(ram, 0, WORD)
    ensures !AppValid(ram, kind)
  {
    assert U32(ram, 0) == 0xFFFF_FFFF;
  }

  lemma ImageInRam(n: Node, ram: seq<byte>, size: nat)
    requires |n.first| == WORD && |ram| == RUN_BYTES && WORD <= size <= RUN_BYTES
    requires !n.firstHeld
    ensures ImageOf(n, ram, size) == ram[..size]
  {
    assert ram[..size] == ram[..WORD] + ram[WORD..size];
  }

  lemma ImageCompleted(n: Node, ram: seq<byte>, size: nat)
    requires |n.first| == WORD && |ram| == RUN_BYTES && WORD <= size <= RUN_BYTES
    ensures ImageOf(n, ram, size) == Completed(n, ram)[..size]
  {
    var c := Completed(n, ram);
    assert c[..size] == c[..WORD] + c[WORD..size];
    assert c[WORD..size] == ram[WORD..size];
    if n.firstHeld {
      assert c[..WORD] == n.first;
    }
  }

  lemma HeldOffered(n: Node, ram: seq<byte>, size: nat, crc: bv32, chunks: nat)
    requires NodeOk(n) && |ram| == RUN_BYTES && Fits(size, chunks) && Crc(ram[..size]) == crc
    ensures Books(Offered(n, size, crc, chunks, true), ram, false)
  {
    var m := Offered(n, size, crc, chunks, true);
    ChunksCovered(m);
    CountFilled(BITMAP_BYTES, chunks);
    CountFull(m.bitmap, chunks);
    hide Count, Bit, AppValid, Crc, Filled;
    ImageInRam(m, ram, size);
  }

  lemma CopiedImage(ram: seq<byte>, flash: seq<byte>, size: nat)
    requires |ram| == RUN_BYTES && |flash| == FLASH_BYTES && size <= RUN_BYTES
    ensures Copied(ram, flash, size)[..size] == flash[IMAGE..IMAGE + size]
  {
    var pad := Pad(flash[IMAGE..IMAGE + size]);
    assert Copied(ram, flash, size)[..size] == pad[..size];
  }

  /** Ops that leave the memories and the image's books alone. */
  lemma QuietKeeps(a: Sys, layout: Layout, e: Event, b: Sys)
    requires Inv(a, layout) && Step(a, layout, e, b)
    requires e.Holds? || e.Assigns? || e.Records? || e.Goes?
    ensures Inv(b, layout)
  {
    hide Count, Bit, AppValid, Crc, AllSet, AllBlank, Put, Fits;
  }

  lemma VerifyKeeps(a: Sys, layout: Layout, b: Sys)
    requires Inv(a, layout) && Step(a, layout, Verifies, b)
    ensures Inv(b, layout)
  {
    CountFull(a.node.bitmap, a.node.chunks);
    hide Count, Bit, AppValid, Crc, ImageOf, AllSet, AllBlank, Put;
  }

  lemma HeldKeeps(s: Sys, layout: Layout, size: nat, crc: bv32, chunks: nat)
    requires Inv(s, layout) && Fits(size, chunks)
    requires ImageHeld(s.node, s.ram, layout.kind, size, crc)
    ensures Books(Offered(s.node, size, crc, chunks, true), s.ram, false)
  {
    if s.streaming {
      BlankInvalid(s.ram, layout.kind);
    }
    ImageInRam(s.node, s.ram, size);
    HeldOffered(s.node, s.ram, size, crc, chunks);
  }

  lemma StoreSums(flash: seq<byte>, kind: byte, size: nat, crc: bv32)
    requires |flash| == FLASH_BYTES && StoreNames(flash, kind) == Image(size, crc)
    ensures size <= RUN_BYTES && Crc(flash[IMAGE..IMAGE + size]) == crc
    ensures !Unsealed(flash) && U32(flash, STORE + 4) == size && Crc32At(flash, STORE + 8) == crc
  {
    hide ShapeOk, U32, Crc, Crc32At;
  }

  lemma CopyKeeps(n: Node, ram: seq<byte>, flash: seq<byte>, kind: byte,
                  size: nat, crc: bv32, chunks: nat)
    requires NodeOk(n) && |ram| == RUN_BYTES && |flash| == FLASH_BYTES && Fits(size, chunks)
    requires StoreNames(flash, kind) == Image(size, crc)
    ensures Books(Offered(n, size, crc, chunks, true), Copied(ram, flash, size), false)
  {
    CopiedImage(ram, flash, size);
    StoreSums(flash, kind, size, crc);
    hide Copied, StoreNames, Books, Crc;
    HeldOffered(n, Copied(ram, flash, size), size, crc, chunks);
  }

  lemma OfferKeeps(a: Sys, layout: Layout, offer: byte, size: nat, crc: bv32, chunks: nat, b: Sys)
    requires Inv(a, layout) && Step(a, layout, Offers(offer, size, crc, chunks), b)
    ensures Inv(b, layout)
  {
    if OfferHeard(a.node, layout.kind, offer, size, chunks) {
      if ImageHeld(a.node, a.ram, layout.kind, size, crc) {
        HeldKeeps(a, layout, size, crc, chunks);
      } else if StoreNames(a.flash, layout.kind) == Image(size, crc) {
        CopyKeeps(a.node, a.ram, a.flash, layout.kind, size, crc, chunks);
      } else {
        StreamOffered(a.node, a.ram, size, crc, chunks);
      }
      hide Books, Copied, Wiped, ImageHeld, StoreNames, NodeOk, Filled;
    }
  }

  lemma StreamOffered(n: Node, ram: seq<byte>, size: nat, crc: bv32, chunks: nat)
    requires NodeOk(n) && |ram| == RUN_BYTES && Fits(size, chunks)
    ensures Words(size) <= RUN_BYTES
    ensures Books(Offered(n, size, crc, chunks, false), Wiped(ram, 0, Words(size)), true)
  {
    var m := Offered(n, size, crc, chunks, false);
    ChunksCovered(m);
    CountFilled(BITMAP_BYTES, chunks);
    BitOfFilled(BITMAP_BYTES, 0);
    hide Count, Bit, AppValid, Crc;
  }

  /** Where a chunk's words land, the image's first word is not. */
  lemma ChunkSpares(ram: seq<byte>, index: nat, data: seq<byte>)
    requires |ram| == RUN_BYTES && index < MAX_CHUNKS && 0 < |data| <= CHUNK
    requires AllBlank(ram, 0, WORD)
    ensures AllBlank(ChunkRam(ram, index, data), 0, WORD)
  {
  }

  /** A chunk that lands: one bit more, one chunk more. */
  lemma ChunkBooks(n: Node, ram: seq<byte>, index: nat, data: seq<byte>)
    requires Books(n, ram, true) && !n.verified
    requires ChunkHeard(n, index, data) && !Bit(n.bitmap, index)
    ensures Books(Chunk(n, ram, index, data).node, Chunk(n, ram, index, data).ram, true)
  {
    ChunksCovered(n);
    ChunkSpares(ram, index, data);
    CountSet(n.bitmap, index, n.chunks);
    BitOfSet(n.bitmap, index, 0);
    hide Count, Bit, Crc, ImageOf, AllSet, AllBlank, Put, SetBit, ChunkRam, Pad, Room;
  }

  lemma ChunkKeeps(a: Sys, layout: Layout, index: nat, data: seq<byte>, b: Sys)
    requires Inv(a, layout) && Step(a, layout, Chunks(index, data), b)
    ensures Inv(b, layout)
  {
    if ChunkHeard(a.node, index, data) && !Bit(a.node.bitmap, index) {
      LandingStreams(a, layout, index);
      ChunkBooks(a.node, a.ram, index, data);
      hide Books, ChunkRam, AppValid, Crc;
    } else {
      hide Count, Bit, AppValid, Crc, AllSet, AllBlank, Put;
    }
  }

  /** Only a stream still has a chunk to land. */
  lemma LandingStreams(s: Sys, layout: Layout, index: nat)
    requires Inv(s, layout) && index < s.node.chunks && !Bit(s.node.bitmap, index)
    ensures s.streaming && !s.node.verified
  {
    hide Bit, Count;
  }

  lemma SealKeeps(a: Sys, layout: Layout, flags: bv8, b: Sys)
    requires Inv(a, layout) && SealEnds(a, layout, flags, b)
    ensures Inv(b, layout)
  {
    hide SealCut, Kept, SameBut, AppValid, Crc, Count;
    if a.node.verified {
      SealSizes(a, layout, flags, b);
      SealBooks(a.node, a.ram, a.streaming);
      hide Books, Completed;
    }
  }

  lemma SealSizes(a: Sys, layout: Layout, flags: bv8, b: Sys)
    requires Shaped(a) && Fits(a.node.size, a.node.chunks) && SealEnds(a, layout, flags, b)
    ensures |b.flash| == FLASH_BYTES
  {
    hide Kept, ImageHeld, U32, StoreHas, Put, Completed;
  }

  /** The word held back put in its place: the image in RAM is whole without it. */
  lemma SealBooks(n: Node, ram: seq<byte>, streaming: bool)
    requires Books(n, ram, streaming) && n.verified
    ensures streaming ==> n.firstHeld
    ensures n.state != Blank && n.state != Held
    ensures Books(n.(firstHeld := false), Completed(n, ram), false)
    ensures Books(n.(firstHeld := false, runBytes := n.size, runCrc := n.crc, state := Sealed),
                  Completed(n, ram), false)
  {
    assert streaming ==> Bit(n.bitmap, 0);
    ImageCompleted(n, ram, n.size);
    ImageInRam(n.(firstHeld := false), Completed(n, ram), n.size);
    hide Count, Bit, Crc, ImageOf, AllBlank, Put, Completed;
  }

  lemma ResetKeeps(a: Sys, layout: Layout, bytes: nat, crc: bv32, ram: seq<byte>, b: Sys)
    requires Shaped(a) && |ram| == RUN_BYTES && ResetTo(a, layout, bytes, crc, ram, b)
    ensures Inv(b, layout)
  {
    hide SealCut, AppValid, Crc, StoreNames, Copied;
  }

  /** Every op, and every reset, keeps the books. */
  lemma StepKeeps(a: Sys, layout: Layout, e: Event, b: Sys)
    requires Inv(a, layout) && Step(a, layout, e, b)
    ensures Inv(b, layout)
  {
    match e
    case Offers(offer, size, crc, chunks) => OfferKeeps(a, layout, offer, size, crc, chunks, b);
    case Chunks(index, data) => ChunkKeeps(a, layout, index, data, b);
    case Verifies => VerifyKeeps(a, layout, b);
    case Seals(flags) => SealKeeps(a, layout, flags, b);
    case Resets(bytes, crc) =>
      var ram :| |ram| == RUN_BYTES && ResetTo(a, layout, bytes, crc, ram, b);
      ResetKeeps(a, layout, bytes, crc, ram, b);
    case _ => QuietKeeps(a, layout, e, b);
  }

  /** A run: each state the one before it and an event. */
  ghost predicate Run(states: seq<Sys>, layout: Layout, events: seq<Event>) {
    && |states| == |events| + 1
    && forall i :: 0 <= i < |events| ==>
         Shaped(states[i]) && Step(states[i], layout, events[i], states[i + 1])
  }

  /** After any reset of a part whose memories hold anything, every state of every run keeps the
      books. */
  lemma {:induction false} RunKeeps(states: seq<Sys>, layout: Layout, events: seq<Event>, k: nat)
    requires Run(states, layout, events) && k < |states|
    requires Inv(states[0], layout)
    ensures Inv(states[k], layout)
  {
    hide Inv, Step, Shaped;
    if k > 0 {
      RunKeeps(states, layout, events, k - 1);
      StepKeeps(states[k - 1], layout, events[k - 1], states[k]);
    }
  }
}
