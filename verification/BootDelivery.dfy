/** An image on its way with everything else going on: holds, other boards' assigns, records, goes,
    verifies and seals between the chunks, and what of it ends the stream. */
module BootDelivery {
  import opened Bytes
  import opened Checksum
  import opened BootPort
  import opened BootNode
  import opened BootRuns
  import opened BootStore
  import opened BootStream

  /** The chunks broadcast in a run. */
  function Casts(events: seq<Event>): seq<Heard> {
    if events == [] then []
    else
      var k := |events| - 1;
      Casts(events[..k])
      + match events[k] { case Chunks(index, data) => [Heard(index, data)] case _ => [] }
  }

  /** An assign to this board's own id, in range. */
  predicate OwnAssign(layout: Layout, e: Event) {
    e.Assigns? && e.uid == layout.uid && 0 < e.unit < UNIT
  }

  /** What ends a stream: a reset, an erase that is heard, and this board's own assign while nothing
      is verified. */
  predicate Ends(n: Node, layout: Layout, e: Event) {
    || e.Resets?
    || (e.Offers? && OfferHeard(n, layout.kind, e.offer, e.size, e.chunks))
    || (OwnAssign(layout, e) && !n.verified)
  }

  /** The node as the stream has it, apart from what a hold and a record op set. */
  function Plain(n: Node, base: Node): Node {
    n.(session := base.session, record := base.record, recordBytes := base.recordBytes)
  }

  /** Chunks still to come. */
  ghost predicate Live(s: Sys, l0: Landed, heard: seq<Heard>)
    requires Begun(l0)
  {
    Shaped(s) && Streamed(l0, Landed(Plain(s.node, l0.node), s.ram), heard)
  }

  /** All of it landed, and in place but for the word held back. */
  ghost predicate Complete(s: Sys, img: seq<byte>, crc: bv32) {
    && Shaped(s) && Fits(|img|, s.node.chunks) && s.node.size == |img| && s.node.crc == crc
    && s.node.held == s.node.chunks && s.node.chunks <= 8 * |s.node.bitmap|
    && AllSet(s.node.bitmap, s.node.chunks) && ImageOf(s.node, s.ram, |img|) == img
  }

  /** Where a stream stands: on its way, or complete. */
  ghost predicate Underway(s: Sys, l0: Landed, img: seq<byte>, heard: seq<Heard>)
    requires Begun(l0)
  {
    if |Seen(l0.node.chunks, heard)| < l0.node.chunks then Live(s, l0, heard)
    else Complete(s, img, l0.node.crc)
  }

  // ---- chunks to come ----

  lemma LiveFields(s: Sys, l0: Landed, heard: seq<Heard>)
    requires Begun(l0) && Live(s, l0, heard)
    ensures var n := s.node;
      && n.size == l0.node.size && n.crc == l0.node.crc && n.chunks == l0.node.chunks
      && n.state == Erased && n.verified == l0.node.verified
      && n.held == |Seen(l0.node.chunks, heard)|
  {
    hide Bit, Part, ImageOf, Clear, FirstOf, Seen;
  }

  /** The parts all there, the image is. */
  lemma PartsIn(l0: Landed, l: Landed, img: seq<byte>, heard: seq<Heard>)
    requires Begun(l0) && l0.node.size == |img| && From(img, heard) && Streamed(l0, l, heard)
    requires |Seen(l0.node.chunks, heard)| == l0.node.chunks
    ensures ImageOf(l.node, l.ram, |img|) == img && l.node.held == l.node.chunks
    ensures l.node.chunks <= 8 * |l.node.bitmap| && AllSet(l.node.bitmap, l.node.chunks)
  {
    hide Part, Share, Bit, Clear, ImageOf;
    SeenBelow(l0.node.chunks, heard);
    SeenAll(Seen(l0.node.chunks, heard), l0.node.chunks);
    ChunksCovered(l.node);
    var there := ImageOf(l.node, l.ram, |img|);
    forall i | 0 <= i < ChunksOf(|img|)
      ensures Part(there, i) == Part(img, i)
    {
      FirstFrom(img, heard, i);
    }
    PartsMake(there, img);
  }

  lemma LiveFull(s: Sys, l0: Landed, img: seq<byte>, heard: seq<Heard>)
    requires Begun(l0) && l0.node.size == |img| && From(img, heard) && Live(s, l0, heard)
    requires |Seen(l0.node.chunks, heard)| == l0.node.chunks
    ensures Complete(s, img, l0.node.crc)
  {
    var p := Plain(s.node, l0.node);
    LiveFields(s, l0, heard);
    PartsIn(l0, Landed(p, s.ram), img, heard);
    SameImage(p, s.node, s.ram, |img|);
    hide Streamed, ImageOf, Seen, From, Bit;
  }

  /** What came with a step. */
  function Came(e: Event): seq<Heard> {
    match e case Chunks(index, data) => [Heard(index, data)] case _ => []
  }

  lemma PlainOk(n: Node, base: Node)
    requires NodeOk(n) && NodeOk(base)
    ensures NodeOk(Plain(n, base))
  {
  }

  lemma ChunkPlainRam(n: Node, base: Node, ram: seq<byte>, index: nat, data: seq<byte>)
    requires NodeOk(n) && NodeOk(Plain(n, base)) && |ram| == RUN_BYTES
    ensures Chunk(Plain(n, base), ram, index, data).ram == Chunk(n, ram, index, data).ram
  {
    hide Bit, SetBit, ChunkRam, Pad, Room, NodeOk;
  }

  /** What a chunk that is heard does to the node's books of the image. */
  datatype Entry = Entry(held: nat, bitmap: seq<byte>, first: seq<byte>, firstHeld: bool)

  function Entered(b: Entry, index: nat, data: seq<byte>): Entry
    requires |b.bitmap| == BITMAP_BYTES && index < MAX_CHUNKS && 0 < |data|
  {
    if Bit(b.bitmap, index) then b
    else
      var c := if index == 0 then b.(first := Pad(data)[..WORD], firstHeld := true) else b;
      if Room(index, data) == Words(|data|)
      then c.(bitmap := SetBit(b.bitmap, index), held := b.held + 1) else c
  }

  function BooksOf(n: Node): Entry { Entry(n.held, n.bitmap, n.first, n.firstHeld) }

  function WithBooks(n: Node, b: Entry): Node {
    n.(held := b.held, bitmap := b.bitmap, first := b.first, firstHeld := b.firstHeld)
  }

  lemma ChunkNode(n: Node, ram: seq<byte>, index: nat, data: seq<byte>)
    requires NodeOk(n) && |ram| == RUN_BYTES
    ensures ChunkHeard(n, index, data) ==> index < MAX_CHUNKS
    ensures Chunk(n, ram, index, data).node
            == if ChunkHeard(n, index, data) then WithBooks(n, Entered(BooksOf(n), index, data))
               else n.(ignored := (n.ignored + 1) % 0x1_0000_0000)
  {
    hide Bit, SetBit, ChunkRam, Pad, Room;
    if ChunkHeard(n, index, data) && Bit(n.bitmap, index) {}
    if index == 0 {}
  }

  lemma PlainBooks(n: Node, base: Node, index: nat, data: seq<byte>)
    ensures BooksOf(Plain(n, base)) == BooksOf(n)
    ensures ChunkHeard(Plain(n, base), index, data) <==> ChunkHeard(n, index, data)
  {
  }

  lemma BooksPlain(n: Node, base: Node, b: Entry, ignored: nat)
    ensures WithBooks(Plain(n, base), b) == Plain(WithBooks(n, b), base)
    ensures Plain(n, base).(ignored := ignored) == Plain(n.(ignored := ignored), base)
    ensures Plain(n, base).ignored == n.ignored
  {
  }

  lemma ChunkPlain(n: Node, base: Node, ram: seq<byte>, index: nat, data: seq<byte>)
    requires NodeOk(n) && NodeOk(Plain(n, base)) && |ram| == RUN_BYTES
    ensures Chunk(Plain(n, base), ram, index, data).node == Plain(Chunk(n, ram, index, data).node, base)
  {
    ChunkNode(n, ram, index, data);
    ChunkNode(Plain(n, base), ram, index, data);
    PlainBooks(n, base, index, data);
    hide Chunk, ChunkHeard, NodeOk, WithBooks, Entered, BooksOf, Plain;
    if ChunkHeard(n, index, data) {
      BooksPlain(n, base, Entered(BooksOf(n), index, data), 0);
    } else {
      BooksPlain(n, base, BooksOf(n), (n.ignored + 1) % 0x1_0000_0000);
    }
  }

  lemma ChunkShaped(n: Node, ram: seq<byte>, index: nat, data: seq<byte>)
    requires NodeOk(n) && |ram| == RUN_BYTES
    ensures NodeOk(Chunk(n, ram, index, data).node) && |Chunk(n, ram, index, data).ram| == RUN_BYTES
  {
    hide Bit, SetBit, ChunkRam, Pad, Room;
  }

  lemma LiveChunk(a: Sys, layout: Layout, index: nat, data: seq<byte>, b: Sys, l0: Landed,
                  heard: seq<Heard>)
    requires Begun(l0) && Live(a, l0, heard) && Step(a, layout, Chunks(index, data), b)
    requires index < l0.node.chunks ==> |data| == Share(l0.node.size, index)
    ensures Live(b, l0, heard + [Heard(index, data)])
  {
    hide Streamed, Chunk, Share, Seen, Plain;
    var p := Landed(Plain(a.node, l0.node), a.ram);
    PlainOk(a.node, l0.node);
    ChunkPlainRam(a.node, l0.node, a.ram, index, data);
    ChunkPlain(a.node, l0.node, a.ram, index, data);
    ChunkShaped(a.node, a.ram, index, data);
    if index >= l0.node.chunks || index in Seen(l0.node.chunks, heard) {
      StreamIdles(l0, p, heard, Heard(index, data));
    } else {
      StreamLands(l0, p, heard, Heard(index, data));
    }
  }

  /** What neither a chunk nor an end is leaves a stream under way as it stands. */
  lemma LiveStands(a: Sys, layout: Layout, e: Event, b: Sys, l0: Landed, heard: seq<Heard>)
    requires Begun(l0) && Live(a, l0, heard) && Step(a, layout, e, b) && !e.Chunks?
    requires !l0.node.verified && |Seen(l0.node.chunks, heard)| < l0.node.chunks
    requires !Ends(a.node, layout, e)
    ensures Live(b, l0, heard)
  {
    LiveFields(a, l0, heard);
    LiveQuiet(a, layout, e, b, l0);
    hide Streamed, Step, Begun, Seen, Ends, Plain;
  }

  lemma LiveQuiet(a: Sys, layout: Layout, e: Event, b: Sys, l0: Landed)
    requires Shaped(a) && NodeOk(l0.node) && Step(a, layout, e, b) && !e.Chunks?
    requires a.node.state == Erased && !a.node.verified && a.node.held < a.node.chunks
    requires !Ends(a.node, layout, e)
    ensures Shaped(b) && b.ram == a.ram && Plain(b.node, l0.node) == Plain(a.node, l0.node)
  {
    hide Put, ImageHeld, StoreNames, ImageOf, Crc, AppValid, SealCut, Kept, OfferHeard, ChunkRam;
    match e
    case Offers(offer, size, crc, chunks) => OfferUnheard(a, layout, offer, size, crc, chunks);
    case Records(offset, data) => RecordShaped(a.node, offset, data, l0.node);
    case _ =>
  }

  lemma OfferUnheard(a: Sys, layout: Layout, offer: byte, size: nat, crc: bv32, chunks: nat)
    requires Shaped(a) && !OfferHeard(a.node, layout.kind, offer, size, chunks)
    ensures Offer(a.node, a.ram, a.flash, layout.kind, offer, size, crc, chunks) == Landed(a.node, a.ram)
  {
    hide ImageHeld, StoreNames, OfferHeard, Copied, Wiped, Filled;
  }

  lemma RecordShaped(n: Node, offset: nat, data: seq<byte>, base: Node)
    requires NodeOk(n)
    ensures NodeOk(Record(n, offset, data).0)
    ensures Plain(Record(n, offset, data).0, base) == Plain(n, base)
  {
  }

  // ---- complete ----

  lemma CompleteQuiet(a: Sys, layout: Layout, e: Event, b: Sys, img: seq<byte>, crc: bv32)
    requires Complete(a, img, crc) && Step(a, layout, e, b) && !Ends(a.node, layout, e)
    requires !e.Chunks? && !e.Seals? && !e.Verifies?
    ensures Complete(b, img, crc)
  {
    hide Put, ImageHeld, StoreNames, Crc, AppValid, OfferHeard, Bit;
    match e
    case Offers(offer, size, c, chunks) => OfferUnheard(a, layout, offer, size, c, chunks);
    case Records(offset, data) => RecordShaped(a.node, offset, data, a.node);
    case _ =>
  }

  lemma CompleteChunk(a: Sys, layout: Layout, index: nat, data: seq<byte>, b: Sys, img: seq<byte>,
                      crc: bv32)
    requires Complete(a, img, crc) && Step(a, layout, Chunks(index, data), b)
    ensures Complete(b, img, crc)
  {
    hide Bit, SetBit, ChunkRam, Pad, Room;
  }

  lemma CompleteVerify(a: Sys, layout: Layout, b: Sys, img: seq<byte>, crc: bv32)
    requires Complete(a, img, crc) && Step(a, layout, Verifies, b)
    ensures Complete(b, img, crc)
  {
    hide Bit, Crc;
  }

  lemma CompleteSeal(a: Sys, layout: Layout, flags: bv8, b: Sys, img: seq<byte>, crc: bv32)
    requires Complete(a, img, crc) && Step(a, layout, Seals(flags), b) && |b.flash| == FLASH_BYTES
    ensures Complete(b, img, crc)
  {
    ImageCompleted(a.node, a.ram, |img|);
    ImageInRam(a.node.(firstHeld := false), Completed(a.node, a.ram), |img|);
    SealMoves(a, layout, flags, b);
    hide Bit, Completed, ImageOf, Step, Fits;
    if b.node.firstHeld == a.node.firstHeld && b.ram == a.ram {
      SameImage(a.node, b.node, a.ram, |img|);
    } else {
      SameImage(a.node.(firstHeld := false), b.node, b.ram, |img|);
    }
  }

  /** All a seal does to the node and RAM, whether it took or not. */
  lemma SealMoves(a: Sys, layout: Layout, flags: bv8, b: Sys)
    requires Shaped(a) && SealEnds(a, layout, flags, b)
    ensures |b.ram| == RUN_BYTES && NodeOk(b.node)
    ensures var n, m := a.node, b.node;
      && m.size == n.size && m.crc == n.crc && m.chunks == n.chunks && m.held == n.held
      && m.bitmap == n.bitmap && m.first == n.first
      && ((m.firstHeld == n.firstHeld && b.ram == a.ram)
          || (!m.firstHeld && b.ram == Completed(n, a.ram)))
  {
    hide Kept, SealCut, Completed, SameBut, Fits;
    if a.node.verified {
      SealFits(a.node);
    }
  }

  lemma SealFits(n: Node)
    requires NodeOk(n) && n.verified
    ensures Fits(n.size, n.chunks) && Rank(n.state) < 6
  {
  }

  lemma CompleteStep(a: Sys, layout: Layout, e: Event, b: Sys, img: seq<byte>, crc: bv32)
    requires Inv(a, layout) && Complete(a, img, crc) && Step(a, layout, e, b)
    requires !Ends(a.node, layout, e)
    ensures Complete(b, img, crc)
  {
    hide Complete, Step, Inv, Ends;
    match e
    case Chunks(index, data) => CompleteChunk(a, layout, index, data, b, img, crc);
    case Verifies => CompleteVerify(a, layout, b, img, crc);
    case Seals(flags) =>
      StepKeeps(a, layout, e, b);
      InvShaped(b, layout);
      CompleteSeal(a, layout, flags, b, img, crc);
    case _ => CompleteQuiet(a, layout, e, b, img, crc);
  }

  // ---- runs ----

  lemma CastsMore(events: seq<Event>, k: nat)
    requires 0 < k <= |events|
    ensures Casts(events[..k]) == Casts(events[..k - 1]) + Came(events[k - 1])
  {
    assert events[..k][..k - 1] == events[..k - 1];
  }

  lemma SeenGrows(chunks: nat, heard: seq<Heard>, h: Heard)
    ensures Seen(chunks, heard) <= Seen(chunks, heard + [h])
    ensures |Seen(chunks, heard)| <= |Seen(chunks, heard + [h])|
  {
    assert (heard + [h])[..|heard|] == heard;
    SetGrows(Seen(chunks, heard), Seen(chunks, heard + [h]));
  }

  lemma SetGrows(s: set<nat>, t: set<nat>)
    requires s <= t
    ensures |s| <= |t|
  {
    assert t == s + (t - s);
  }

  lemma FromMore(img: seq<byte>, heard: seq<Heard>, h: Heard)
    ensures From(img, heard + [h]) <==>
              From(img, heard) && h.index < ChunksOf(|img|) && h.data == Part(img, h.index)
  {
    hide Part;
    var more := heard + [h];
    assert more[|heard|] == h;
    assert forall k :: 0 <= k < |heard| ==> more[k] == heard[k];
  }

  lemma UnderwayStep(a: Sys, layout: Layout, e: Event, b: Sys, l0: Landed, img: seq<byte>,
                     heard: seq<Heard>)
    requires Inv(a, layout) && Begun(l0) && !l0.node.verified && l0.node.size == |img|
    requires Underway(a, l0, img, heard) && Step(a, layout, e, b) && !Ends(a.node, layout, e)
    requires From(img, heard + Came(e))
    ensures Underway(b, l0, img, heard + Came(e))
  {
    var chunks := l0.node.chunks;
    BegunChunks(l0);
    if e.Chunks? {
      FromMore(img, heard, Heard(e.index, e.data));
      SeenGrows(chunks, heard, Heard(e.index, e.data));
      SeenBelow(chunks, heard + Came(e));
      SeenAll(Seen(chunks, heard + Came(e)), chunks);
      PartShare(img, e.index);
    } else {
      assert heard + Came(e) == heard;
    }
    hide Inv, Step, Begun, Live, Complete, Seen, From, Ends, Share, Part;
    if |Seen(chunks, heard)| < chunks {
      if e.Chunks? {
        LiveChunk(a, layout, e.index, e.data, b, l0, heard);
        if |Seen(chunks, heard + Came(e))| == chunks {
          LiveFull(b, l0, img, heard + Came(e));
        }
      } else {
        LiveStands(a, layout, e, b, l0, heard);
      }
    } else {
      CompleteStep(a, layout, e, b, img, l0.node.crc);
    }
  }

  lemma BegunChunks(l0: Landed)
    requires Begun(l0)
    ensures l0.node.chunks == ChunksOf(l0.node.size)
  {
    hide Clear;
  }

  lemma PartShare(img: seq<byte>, i: nat)
    requires i < ChunksOf(|img|)
    ensures |Part(img, i)| == Share(|img|, i)
  {
  }

  lemma UnderwayStarts(s: Sys, img: seq<byte>)
    requires Shaped(s) && Begun(Landed(s.node, s.ram)) && s.node.size == |img|
    ensures Underway(s, Landed(s.node, s.ram), img, [])
  {
    StreamStarts(Landed(s.node, s.ram));
    hide Streamed, Clear;
    assert Plain(s.node, s.node) == s.node;
  }

  /** From an erase that began a stream, over every run in which nothing ends it, the supply
      apart: the distinct chunks of the image heard so far are those landed, and once they are all
      of them RAM with the word held back is the image, whatever else the node is asked. */
  lemma {:induction false} StreamRuns(states: seq<Sys>, layout: Layout, events: seq<Event>,
                                      img: seq<byte>, k: nat)
    requires Run(states, layout, events) && k < |states| && Inv(states[0], layout)
    requires Begun(Landed(states[0].node, states[0].ram)) && !states[0].node.verified
    requires states[0].node.size == |img| && From(img, Casts(events[..k]))
    requires forall i :: 0 <= i < k ==> !Ends(states[i].node, layout, events[i])
    ensures Underway(states[k], Landed(states[0].node, states[0].ram), img, Casts(events[..k]))
  {
    hide Inv, Step, Begun, Underway, Ends, From;
    var l0 := Landed(states[0].node, states[0].ram);
    if k == 0 {
      InvShaped(states[0], layout);
      assert events[..0] == [];
      UnderwayStarts(states[0], img);
    } else {
      CastsMore(events, k);
      FromPrefix(img, Casts(events[..k - 1]), Came(events[k - 1]));
      StreamRuns(states, layout, events, img, k - 1);
      RunKeeps(states, layout, events, k - 1);
      UnderwayStep(states[k - 1], layout, events[k - 1], states[k], l0, img, Casts(events[..k - 1]));
    }
  }

  lemma FromPrefix(img: seq<byte>, heard: seq<Heard>, more: seq<Heard>)
    requires From(img, heard + more)
    ensures From(img, heard)
  {
    hide Part;
    assert forall k :: 0 <= k < |heard| ==> (heard + more)[k] == heard[k];
  }

  /** So at any point of such a run verify says ok exactly when every chunk has been heard, the
      image sums to what was offered and no assign has taken the node back; and a seal that takes
      there leaves the image in RAM byte for byte. */
  lemma DeliversRun(states: seq<Sys>, layout: Layout, events: seq<Event>, img: seq<byte>, k: nat,
                    flags: bv8, b: Sys)
    requires Run(states, layout, events) && k < |states| && Inv(states[0], layout)
    requires Begun(Landed(states[0].node, states[0].ram)) && !states[0].node.verified
    requires states[0].node.size == |img| && From(img, Casts(events[..k]))
    requires forall i :: 0 <= i < k ==> !Ends(states[i].node, layout, events[i])
    ensures Shaped(states[k])
    ensures var s, n0 := states[k], states[0].node;
            var all := |Seen(n0.chunks, Casts(events[..k]))| == n0.chunks;
      && (Verify(s.node, s.ram).1
          <==> all && Crc(img) == n0.crc && Rank(s.node.state) >= Rank(Erased))
      && (SealStep(s.node, s.ram, s.flash, layout.kind, flags, b.node, b.ram, b.flash, true) ==>
            && all && Crc(img) == n0.crc && |b.ram| == RUN_BYTES && b.ram[..|img|] == img
            && b.node.state == Sealed && b.node.runBytes == |img| && b.node.runCrc == n0.crc)
  {
    hide Inv, Begun, Ends, From, Step, Underway, SealStep, Verify, Seen, Crc, ImageOf, Casts;
    var l0 := Landed(states[0].node, states[0].ram);
    StreamRuns(states, layout, events, img, k);
    RunKeeps(states, layout, events, k);
    InvShaped(states[k], layout);
    SeenBound(l0.node.chunks, Casts(events[..k]));
    VerdictAt(states[k], layout, l0, img, Casts(events[..k]));
    var s := states[k];
    if SealStep(s.node, s.ram, s.flash, layout.kind, flags, b.node, b.ram, b.flash, true) {
      SealedAt(s, layout, l0, img, Casts(events[..k]), flags, b);
    }
  }

  lemma SeenBound(chunks: nat, heard: seq<Heard>)
    ensures |Seen(chunks, heard)| <= chunks
  {
    SeenBelow(chunks, heard);
    SeenAll(Seen(chunks, heard), chunks);
  }

  lemma VerdictAt(s: Sys, layout: Layout, l0: Landed, img: seq<byte>, heard: seq<Heard>)
    requires Shaped(s) && Begun(l0) && Underway(s, l0, img, heard)
    requires |Seen(l0.node.chunks, heard)| <= l0.node.chunks
    ensures Verify(s.node, s.ram).1
            <==> |Seen(l0.node.chunks, heard)| == l0.node.chunks && Crc(img) == l0.node.crc
                 && Rank(s.node.state) >= Rank(Erased)
  {
    if |Seen(l0.node.chunks, heard)| < l0.node.chunks {
      LiveFields(s, l0, heard);
    }
    hide Begun, Live, Seen, Crc, ImageOf, AllSet;
  }

  lemma SealedAt(s: Sys, layout: Layout, l0: Landed, img: seq<byte>, heard: seq<Heard>, flags: bv8,
                 b: Sys)
    requires Inv(s, layout) && Shaped(s) && Begun(l0) && !l0.node.verified
    requires Underway(s, l0, img, heard) && |Seen(l0.node.chunks, heard)| <= l0.node.chunks
    requires SealStep(s.node, s.ram, s.flash, layout.kind, flags, b.node, b.ram, b.flash, true)
    ensures |Seen(l0.node.chunks, heard)| == l0.node.chunks && Crc(img) == l0.node.crc
    ensures |b.ram| == RUN_BYTES && b.ram[..|img|] == img
    ensures b.node.state == Sealed && b.node.runBytes == |img| && b.node.runCrc == l0.node.crc
  {
    SealAsks(s.node, s.ram, s.flash, layout.kind, flags, b.node, b.ram, b.flash);
    if |Seen(l0.node.chunks, heard)| < l0.node.chunks {
      LiveFields(s, l0, heard);
    }
    VerifiedSums(s, layout);
    hide Begun, Live, Seen, Crc, ImageOf, AllSet, Inv, SealStep;
    SealDelivers(s.node, s.ram, s.flash, layout.kind, flags, b.node, b.ram, b.flash, img);
  }

  lemma VerifiedSums(s: Sys, layout: Layout)
    requires Inv(s, layout) && Shaped(s) && s.node.verified
    ensures Fits(s.node.size, s.node.chunks) && Crc(ImageOf(s.node, s.ram, s.node.size)) == s.node.crc
  {
    hide Crc, ImageOf, Count, Bit, AppValid;
  }

  // ---- ended ----

  /** Taken back by an assign before it verified. */
  ghost predicate Dropped(s: Sys) { Shaped(s) && s.node.state == Assigned && !s.node.verified }

  lemma DroppedStep(a: Sys, layout: Layout, e: Event, b: Sys)
    requires Dropped(a) && Step(a, layout, e, b) && !e.Resets?
    requires !(e.Offers? && OfferHeard(a.node, layout.kind, e.offer, e.size, e.chunks))
    ensures Dropped(b) && b.ram == a.ram && b.flash == a.flash && b.node.held == a.node.held
  {
    hide Put, ImageHeld, StoreNames, ImageOf, Crc, AppValid, SealCut, Kept, OfferHeard, ChunkRam, Bit;
    match e
    case Offers(offer, size, crc, chunks) => OfferUnheard(a, layout, offer, size, crc, chunks);
    case Records(offset, data) => RecordShaped(a.node, offset, data, a.node);
    case _ =>
  }

  /** An assign to the node in mid-stream does end it: until an erase is heard or a reset comes, over
      every run, no chunk lands, no byte of either memory moves, verify answers no and a seal is
      refused. */
  lemma {:induction false} AssignEnds(states: seq<Sys>, layout: Layout, events: seq<Event>, k: nat)
    requires Run(states, layout, events) && 0 < k < |states|
    requires OwnAssign(layout, events[0]) && !states[0].node.verified
    requires forall i :: 0 < i < k ==>
               && !events[i].Resets?
               && !(events[i].Offers? && OfferHeard(states[i].node, layout.kind, events[i].offer,
                                                    events[i].size, events[i].chunks))
    ensures Dropped(states[k]) && Shaped(states[0])
    ensures states[k].ram == states[0].ram && states[k].flash == states[0].flash
            && states[k].node.held == states[0].node.held
    ensures !Verify(states[k].node, states[k].ram).1
  {
    hide Shaped, Dropped, OfferHeard;
    assert Shaped(states[0]);
    if k == 1 {
      AssignDrops(states[0], layout, events[0], states[1]);
    } else {
      AssignEnds(states, layout, events, k - 1);
      hide Step, OwnAssign;
      DroppedStep(states[k - 1], layout, events[k - 1], states[k]);
    }
    DroppedNo(states[k]);
  }

  lemma AssignDrops(a: Sys, layout: Layout, e: Event, b: Sys)
    requires Shaped(a) && Step(a, layout, e, b) && OwnAssign(layout, e) && !a.node.verified
    ensures Dropped(b) && b.ram == a.ram && b.flash == a.flash && b.node.held == a.node.held
  {
  }

  lemma DroppedNo(s: Sys)
    requires Dropped(s)
    ensures Shaped(s) && !Verify(s.node, s.ram).1
  {
    hide Crc, ImageOf;
  }
}
