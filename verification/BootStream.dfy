/** An image streamed in chunks: any order, with drops and repeats. */
module BootStream {
  import opened Bytes
  import opened Checksum
  import opened BootPort
  import opened BootNode
  import opened BootRuns

  /** One chunk broadcast. */
  datatype Heard = Heard(index: nat, data: seq<byte>)

  /** What is left of an image for its chunk `i`. */
  function Share(size: nat, i: nat): (r: nat)
    requires i < ChunksOf(size)
    ensures 0 < r <= CHUNK && i * CHUNK + r <= size
  {
    if i * CHUNK + CHUNK <= size then CHUNK else size - i * CHUNK
  }

  /** Every chunk of the image of its own length; anything under an index past the last. */
  ghost predicate Measured(size: nat, heard: seq<Heard>) {
    forall k :: 0 <= k < |heard| && heard[k].index < ChunksOf(size) ==>
      |heard[k].data| == Share(size, heard[k].index)
  }

  function Play(l: Landed, heard: seq<Heard>): (r: Landed)
    requires NodeOk(l.node) && |l.ram| == RUN_BYTES
    ensures NodeOk(r.node) && |r.ram| == RUN_BYTES
  {
    if heard == [] then l
    else
      var k := |heard| - 1;
      var m := Play(l, heard[..k]);
      Chunk(m.node, m.ram, heard[k].index, heard[k].data)
  }

  /** The distinct indices of the image heard. */
  function Seen(chunks: nat, heard: seq<Heard>): set<nat> {
    if heard == [] then {}
    else
      var k := |heard| - 1;
      Seen(chunks, heard[..k]) + if heard[k].index < chunks then {heard[k].index} else {}
  }

  /** What came first under an index. */
  function FirstOf(chunks: nat, heard: seq<Heard>, i: nat): seq<byte>
    requires i in Seen(chunks, heard)
  {
    var k := |heard| - 1;
    if i in Seen(chunks, heard[..k]) then FirstOf(chunks, heard[..k], i) else heard[k].data
  }

  /** An image's chunk `i`. */
  function Part(img: seq<byte>, i: nat): seq<byte>
    requires i < ChunksOf(|img|)
  {
    img[i * CHUNK..i * CHUNK + Share(|img|, i)]
  }

  /** Where a chunk's words go in RAM: past the word held back, up to the last word's end. */
  ghost predicate Clear(ram: seq<byte>, size: nat, i: nat)
    requires |ram| == RUN_BYTES && size <= RUN_BYTES && i < ChunksOf(size)
  {
    AllBlank(ram, i * CHUNK, i * CHUNK + Words(Share(size, i)))
  }

  /** The stream as an erase began it. */
  ghost predicate Begun(l: Landed) {
    && NodeOk(l.node) && |l.ram| == RUN_BYTES && Fits(l.node.size, l.node.chunks)
    && l.node.state == Erased && l.node.held == 0 && l.node.bitmap == Filled(BITMAP_BYTES, 0)
    && !l.node.firstHeld
    && forall i :: 0 <= i < l.node.chunks ==> Clear(l.ram, l.node.size, i)
  }

  /** What an accepted erase that streams leaves. */
  lemma OfferBegins(n: Node, ram: seq<byte>, flash: seq<byte>, kind: byte, size: nat, crc: bv32,
                    chunks: nat)
    requires NodeOk(n) && |ram| == RUN_BYTES && |flash| == FLASH_BYTES
    requires OfferHeard(n, kind, kind, size, chunks) && !ImageHeld(n, ram, kind, size, crc)
    requires StoreNames(flash, kind) != Image(size, crc)
    ensures var l := Offer(n, ram, flash, kind, kind, size, crc, chunks);
            Begun(l) && l.node.size == size && l.node.crc == crc && l.node.chunks == chunks
  {
    hide ImageHeld, StoreNames;
    WipedClear(ram, size);
  }

  lemma WipedClear(ram: seq<byte>, size: nat)
    requires |ram| == RUN_BYTES && 0 < size <= RUN_BYTES
    ensures Words(size) <= RUN_BYTES
    ensures forall i :: 0 <= i < ChunksOf(size) ==> Clear(Wiped(ram, 0, Words(size)), size, i)
  {
    forall i | 0 <= i < ChunksOf(size)
      ensures Clear(Wiped(ram, 0, Words(size)), size, i)
    {
      ShareWords(size, i);
    }
  }

  lemma ShareWords(size: nat, i: nat)
    requires i < ChunksOf(size) && size <= RUN_BYTES
    ensures i * CHUNK + Words(Share(size, i)) <= Words(size) <= RUN_BYTES
    ensures Share(size, i) < CHUNK ==>
              (i + 1 == ChunksOf(size) && i * CHUNK + Share(size, i) == size)
    ensures Words(CHUNK) == CHUNK
  {
  }

  /** Two chunks' words never meet. */
  lemma SharesApart(size: nat, i: nat, j: nat)
    requires i < ChunksOf(size) && j < ChunksOf(size) && i != j && size <= RUN_BYTES
    ensures i * CHUNK + Words(Share(size, i)) <= j * CHUNK
         || j * CHUNK + Words(Share(size, j)) <= i * CHUNK
  {
    ShareWords(size, i);
    ShareWords(size, j);
    if i < j {
      assert i * CHUNK + CHUNK <= j * CHUNK;
    } else {
      assert j * CHUNK + CHUNK <= i * CHUNK;
    }
  }

  /** A chunk of its own length landing: the completed image has it in place, and no other chunk's
      room is touched. */
  lemma ChunkLands(n: Node, ram: seq<byte>, m: Node, size: nat, i: nat, data: seq<byte>)
    requires |n.first| == WORD && |ram| == RUN_BYTES && WORD <= size <= RUN_BYTES
    requires i < ChunksOf(size) && i < MAX_CHUNKS && |data| == Share(size, i)
    requires |Pad(data)| >= WORD
    requires m.first == (if i == 0 then Pad(data)[..WORD] else n.first)
    requires m.firstHeld == (i == 0 || n.firstHeld)
    ensures Room(i, data) == Words(|data|)
    ensures ImageOf(m, ChunkRam(ram, i, data), size) == Put(ImageOf(n, ram, size), i * CHUNK, data)
    ensures SameBut(ChunkRam(ram, i, data), ram, i * CHUNK, i * CHUNK + Words(Share(size, i)))
  {
    hide Words, Share, Pad, ChunkRam, ImageOf, Put;
    ShareWords(size, i);
    FirstWhole(size, i);
    PadBytes(data);
    assert Room(i, data) == Words(|data|);
    ChunkBytes(ram, i, data);
    var r := ChunkRam(ram, i, data);
    ImageBytes(m, r, size);
    ImageBytes(n, ram, size);
    var a, b := ImageOf(m, r, size), Put(ImageOf(n, ram, size), i * CHUNK, data);
    assert forall k :: 0 <= k < size ==> a[k] == b[k];
  }

  lemma ImageBytes(n: Node, ram: seq<byte>, size: nat)
    requires |n.first| == WORD && |ram| == RUN_BYTES && WORD <= size <= RUN_BYTES
    ensures forall k :: 0 <= k < size ==>
              ImageOf(n, ram, size)[k] == if k < WORD && n.firstHeld then n.first[k] else ram[k]
  {
  }

  lemma PadBytes(data: seq<byte>)
    ensures |Pad(data)| == Words(|data|)
    ensures forall k :: 0 <= k < |data| ==> Pad(data)[k] == data[k]
  {
  }

  /** RAM byte by byte once a chunk that fits is in it. */
  lemma ChunkBytes(ram: seq<byte>, i: nat, data: seq<byte>)
    requires |ram| == RUN_BYTES && i < MAX_CHUNKS && 0 < |data| <= CHUNK
    requires Room(i, data) == Words(|data|) == |Pad(data)| >= WORD
    ensures var r := ChunkRam(ram, i, data);
            forall k :: 0 <= k < RUN_BYTES ==>
              r[k] == if i * CHUNK <= k < i * CHUNK + |Pad(data)| && (i != 0 || k >= WORD)
                      then Pad(data)[k - i * CHUNK] else ram[k]
  {
    hide Words, Pad;
  }

  lemma FirstWhole(size: nat, i: nat)
    requires i < ChunksOf(size) && WORD <= size <= RUN_BYTES
    ensures i == 0 ==> Share(size, i) >= WORD
    ensures i != 0 ==> i * CHUNK >= WORD
  {
  }

  lemma PartOfPut(img: seq<byte>, i: nat, j: nat, data: seq<byte>)
    requires |img| <= RUN_BYTES && i < ChunksOf(|img|) && j < ChunksOf(|img|)
    requires |data| == Share(|img|, i)
    ensures Part(Put(img, i * CHUNK, data), j) == if i == j then data else Part(img, j)
  {
    var r := Put(img, i * CHUNK, data);
    if i != j {
      SharesApart(|img|, i, j);
    }
    hide Share;
    assert forall k :: 0 <= k < |Part(r, j)| ==>
             Part(r, j)[k] == if i == j then data[k] else Part(img, j)[k];
  }

  /** The stream after `heard`: the bitmap, the count and the bytes are what the first arrival of
      each index makes them. */
  ghost predicate Streamed(l0: Landed, l: Landed, heard: seq<Heard>)
    requires Begun(l0)
  {
    var n, size, chunks := l.node, l0.node.size, l0.node.chunks;
    var seen := Seen(chunks, heard);
    && NodeOk(n) && |l.ram| == RUN_BYTES
    && n == l0.node.(held := |seen|, bitmap := n.bitmap, first := n.first,
                     firstHeld := 0 in seen, ignored := n.ignored)
    && (forall i :: 0 <= i < chunks ==> (Bit(n.bitmap, i) <==> i in seen))
    && (forall i :: i in seen ==>
          (i < chunks && Part(ImageOf(n, l.ram, size), i) == FirstOf(chunks, heard, i)))
    && (forall i :: 0 <= i < chunks && i !in seen ==> Clear(l.ram, size, i))
  }

  lemma StreamStarts(l0: Landed)
    requires Begun(l0)
    ensures Streamed(l0, l0, [])
  {
    hide Bit, ImageOf, Clear;
    forall i | 0 <= i < l0.node.chunks
      ensures !Bit(l0.node.bitmap, i)
    {
      BitOfFilled(BITMAP_BYTES, i);
    }
  }

  lemma SeenBelow(chunks: nat, heard: seq<Heard>)
    ensures forall i :: i in Seen(chunks, heard) ==> i < chunks
  {
  }

  lemma SeenSame(chunks: nat, heard: seq<Heard>, h: Heard)
    requires h.index >= chunks || h.index in Seen(chunks, heard)
    ensures Seen(chunks, heard + [h]) == Seen(chunks, heard)
    ensures forall j :: j in Seen(chunks, heard) ==>
              FirstOf(chunks, heard + [h], j) == FirstOf(chunks, heard, j)
  {
    assert (heard + [h])[..|heard|] == heard;
  }

  /** A message that lands nothing: past the last chunk, or a repeat. */
  lemma StreamIdles(l0: Landed, l: Landed, heard: seq<Heard>, h: Heard)
    requires Begun(l0) && Streamed(l0, l, heard)
    requires h.index >= l0.node.chunks || h.index in Seen(l0.node.chunks, heard)
    requires h.index < l0.node.chunks ==> |h.data| == Share(l0.node.size, h.index)
    ensures Streamed(l0, Chunk(l.node, l.ram, h.index, h.data), heard + [h])
  {
    hide Bit, Clear, Part, ChunkRam, Room, SetBit, Pad, Seen, FirstOf, Filled, Share, Put;
    SeenSame(l0.node.chunks, heard, h);
    var m := Chunk(l.node, l.ram, h.index, h.data);
    assert m.ram == l.ram;
    assert m.node == l.node || m.node == l.node.(ignored := (l.node.ignored + 1) % 0x1_0000_0000);
    assert ImageOf(m.node, m.ram, l0.node.size) == ImageOf(l.node, l.ram, l0.node.size);
    hide Chunk, ImageOf;
  }

  lemma SeenMore(chunks: nat, heard: seq<Heard>, h: Heard)
    requires h.index < chunks && h.index !in Seen(chunks, heard)
    ensures var seen, more := Seen(chunks, heard), Seen(chunks, heard + [h]);
            && more == seen + {h.index} && |more| == |seen| + 1
            && FirstOf(chunks, heard + [h], h.index) == h.data
            && forall j :: j in seen ==>
                 FirstOf(chunks, heard + [h], j) == FirstOf(chunks, heard, j)
  {
    assert (heard + [h])[..|heard|] == heard;
  }

  lemma BitsMore(bitmap: seq<byte>, i: nat, chunks: nat, seen: set<nat>)
    requires i < chunks <= 8 * |bitmap|
    requires forall j :: 0 <= j < chunks ==> (Bit(bitmap, j) <==> j in seen)
    ensures forall j :: 0 <= j < chunks ==> (Bit(SetBit(bitmap, i), j) <==> j in seen + {i})
  {
    hide Bit, SetBit;
    forall j | 0 <= j < chunks
      ensures Bit(SetBit(bitmap, i), j) <==> j in seen + {i}
    {
      BitOfSet(bitmap, i, j);
    }
  }

  /** A message that lands a chunk. */
  lemma StreamLands(l0: Landed, l: Landed, heard: seq<Heard>, h: Heard)
    requires Begun(l0) && Streamed(l0, l, heard)
    requires h.index < l0.node.chunks && h.index !in Seen(l0.node.chunks, heard)
    requires |h.data| == Share(l0.node.size, h.index)
    ensures Clear(l.ram, l0.node.size, h.index)
    ensures Streamed(l0, Chunk(l.node, l.ram, h.index, h.data), heard + [h])
  {
    hide Bit, Clear, Part, ChunkRam, Room, SetBit, Pad, ImageOf, Put, SameBut, Words, Share, Seen,
         FirstOf, Filled;
    var n, i, size, chunks := l.node, h.index, l0.node.size, l0.node.chunks;
    var seen := Seen(chunks, heard);
    SeenMore(chunks, heard, h);
    ChunksCovered(n);
    BitsMore(n.bitmap, i, chunks, seen);
    var m := Chunk(n, l.ram, i, h.data);
    ChunkFitsWord(h.data);
    ChunkLands(n, l.ram, m.node, size, i, h.data);
    assert m.node.bitmap == SetBit(n.bitmap, i);
    assert m.ram == ChunkRam(l.ram, i, h.data);
    assert ImageOf(m.node, m.ram, size) == Put(ImageOf(n, l.ram, size), i * CHUNK, h.data);
    PartsMore(ImageOf(n, l.ram, size), i, h.data, chunks);
    ClearMore(l.ram, m.ram, size, i);
  }

  lemma PartsMore(img: seq<byte>, i: nat, data: seq<byte>, chunks: nat)
    requires |img| <= RUN_BYTES && chunks == ChunksOf(|img|) && i < chunks
    requires |data| == Share(|img|, i)
    ensures forall j :: 0 <= j < chunks ==>
              Part(Put(img, i * CHUNK, data), j) == if i == j then data else Part(img, j)
  {
    hide Part, Put, Share;
    forall j | 0 <= j < chunks
      ensures Part(Put(img, i * CHUNK, data), j) == if i == j then data else Part(img, j)
    {
      PartOfPut(img, i, j, data);
    }
  }

  lemma ClearMore(a: seq<byte>, b: seq<byte>, size: nat, i: nat)
    requires |a| == RUN_BYTES && size <= RUN_BYTES && i < ChunksOf(size)
    requires SameBut(b, a, i * CHUNK, i * CHUNK + Words(Share(size, i)))
    ensures |b| == RUN_BYTES
    ensures forall j :: 0 <= j < ChunksOf(size) && j != i && Clear(a, size, j) ==>
              Clear(b, size, j)
  {
    hide Clear, Words, Share;
    forall j | 0 <= j < ChunksOf(size) && j != i && Clear(a, size, j)
      ensures Clear(b, size, j)
    {
      ClearElsewhere(a, b, size, i, j);
    }
  }

  lemma ChunkFitsWord(data: seq<byte>)
    requires |data| > 0
    ensures |Pad(data)| >= WORD
  {
  }

  lemma ClearElsewhere(a: seq<byte>, b: seq<byte>, size: nat, i: nat, j: nat)
    requires |a| == RUN_BYTES && size <= RUN_BYTES && i < ChunksOf(size) && j < ChunksOf(size)
    requires i != j && SameBut(b, a, i * CHUNK, i * CHUNK + Words(Share(size, i)))
    requires Clear(a, size, j)
    ensures |b| == RUN_BYTES && Clear(b, size, j)
  {
    SharesApart(size, i, j);
    ShareWords(size, j);
    hide Words, Share;
  }

  /** Any order, drops and repeats: after every message of the stream the count is of the distinct
      indices heard, the bitmap theirs, each index's bytes those that came first under it - and
      what has not landed is still erased, so no word of RAM is written twice. */
  lemma {:induction false} PlayStreams(l0: Landed, heard: seq<Heard>)
    requires Begun(l0) && Measured(l0.node.size, heard)
    ensures Streamed(l0, Play(l0, heard), heard)
  {
    hide Streamed, Chunk, Share;
    if heard == [] {
      StreamStarts(l0);
    } else {
      var k := |heard| - 1;
      var l, h := Play(l0, heard[..k]), heard[k];
      PlayStreams(l0, heard[..k]);
      assert heard[..k] + [h] == heard;
      if h.index >= l0.node.chunks || h.index in Seen(l0.node.chunks, heard[..k]) {
        StreamIdles(l0, l, heard[..k], h);
      } else {
        StreamLands(l0, l, heard[..k], h);
      }
    }
  }

  // -- one image -----------------------------------------------------------------------------

  /** Every message a chunk of `img`, under its own index. */
  ghost predicate From(img: seq<byte>, heard: seq<Heard>) {
    forall k :: 0 <= k < |heard| ==>
      heard[k].index < ChunksOf(|img|) && heard[k].data == Part(img, heard[k].index)
  }

  lemma FromMeasured(img: seq<byte>, heard: seq<Heard>)
    requires From(img, heard)
    ensures Measured(|img|, heard)
  {
  }

  lemma {:induction false} FirstFrom(img: seq<byte>, heard: seq<Heard>, i: nat)
    requires From(img, heard) && i in Seen(ChunksOf(|img|), heard)
    ensures i < ChunksOf(|img|) && FirstOf(ChunksOf(|img|), heard, i) == Part(img, i)
  {
    hide Part;
    var k := |heard| - 1;
    if i in Seen(ChunksOf(|img|), heard[..k]) {
      FirstFrom(img, heard[..k], i);
    }
  }

  /** An image is its parts. */
  lemma PartsMake(a: seq<byte>, b: seq<byte>)
    requires |a| == |b|
    requires forall i :: 0 <= i < ChunksOf(|a|) ==> Part(a, i) == Part(b, i)
    ensures a == b
  {
    forall k | 0 <= k < |a|
      ensures a[k] == b[k]
    {
      var i := k / CHUNK;
      assert i < ChunksOf(|a|) && k - i * CHUNK < Share(|a|, i);
      assert a[k] == Part(a, i)[k - i * CHUNK];
      assert b[k] == Part(b, i)[k - i * CHUNK];
    }
  }

  /** The distinct indices, all of them seen. */
  lemma {:induction false} SeenAll(seen: set<nat>, chunks: nat)
    requires forall i :: i in seen ==> i < chunks
    ensures |seen| <= chunks
    ensures |seen| == chunks ==> forall i :: 0 <= i < chunks ==> i in seen
  {
    if chunks > 0 {
      SeenAll(seen - {chunks - 1}, chunks - 1);
    } else {
      assert seen == {};
    }
  }

  /** Once as many chunks landed as the image has, RAM with the word held back is the image, verify
      says ok for its sum, and a seal that answers took leaves the image in RAM byte for byte. */
  lemma StreamDelivers(l0: Landed, img: seq<byte>, heard: seq<Heard>)
    requires Begun(l0) && l0.node.size == |img| && From(img, heard)
    ensures var l := Play(l0, heard);
            && l.node.held == |Seen(l0.node.chunks, heard)| <= l0.node.chunks
            && (l.node.held == l0.node.chunks ==>
                  && ImageOf(l.node, l.ram, |img|) == img
                  && Verify(l.node, l.ram).1 == (Crc(img) == l0.node.crc))
  {
    hide Part, Share, Bit, Clear, Crc, ImageOf;
    var l := Play(l0, heard);
    FromMeasured(img, heard);
    PlayStreams(l0, heard);
    SeenBelow(l0.node.chunks, heard);
    SeenAll(Seen(l0.node.chunks, heard), l0.node.chunks);
    if l.node.held == l0.node.chunks {
      var there := ImageOf(l.node, l.ram, |img|);
      forall i | 0 <= i < ChunksOf(|img|)
        ensures Part(there, i) == Part(img, i)
      {
        FirstFrom(img, heard, i);
      }
      PartsMake(there, img);
    }
  }

  lemma SealDelivers(n: Node, ram: seq<byte>, flash: seq<byte>, kind: byte, flags: bv8,
                     n': Node, ram': seq<byte>, flash': seq<byte>, img: seq<byte>)
    requires NodeOk(n) && |ram| == RUN_BYTES && |flash| == FLASH_BYTES && Fits(n.size, n.chunks)
    requires n.size == |img| && ImageOf(n, ram, |img|) == img
    requires SealStep(n, ram, flash, kind, flags, n', ram', flash', true)
    ensures n'.state == Sealed && n'.runBytes == |img| && n'.runCrc == n.crc
    ensures |ram'| == RUN_BYTES && ram'[..|img|] == img
  {
    hide Kept, ImageOf, SealCut;
    ImageCompleted(n, ram, |img|);
  }

  lemma SameImage(n: Node, m: Node, ram: seq<byte>, size: nat)
    requires |n.first| == WORD && |ram| == RUN_BYTES && WORD <= size <= RUN_BYTES
    requires m.first == n.first && m.firstHeld == n.firstHeld
    ensures ImageOf(m, ram, size) == ImageOf(n, ram, size)
  {
  }

  /** A node in the middle of a stream, its books apart from what lands. */
  lemma StreamKept(l0: Landed, img: seq<byte>, heard: seq<Heard>)
    requires Begun(l0) && l0.node.size == |img| && From(img, heard)
    ensures var n, m := l0.node, Play(l0, heard).node;
      && m.size == n.size && m.chunks == n.chunks && m.crc == n.crc && m.verified == n.verified
      && m.state == n.state && m.session == n.session && m.recordBytes == n.recordBytes
      && Fits(m.size, m.chunks)
  {
    hide Part, Share, Bit, Clear, Crc, ImageOf, Play, Seen, FirstOf;
    FromMeasured(img, heard);
    PlayStreams(l0, heard);
  }

  /** Verify on a node that had not verified: ok exactly on all chunks held and the sum right, and
      nothing of the image moved. */
  lemma VerifyGives(n: Node, ram: seq<byte>)
    requires NodeOk(n) && |ram| == RUN_BYTES && n.state == Erased && !n.verified
    ensures var v := Verify(n, ram);
      && NodeOk(v.0) && v.0.size == n.size && v.0.chunks == n.chunks && v.0.crc == n.crc
      && v.0.first == n.first && v.0.firstHeld == n.firstHeld && v.0.verified == v.1
      && v.0.session == n.session && v.0.recordBytes == n.recordBytes
      && (v.1 ==> n.held == n.chunks)
  {
    hide ImageOf, Crc;
  }

  lemma SealAsks(n: Node, ram: seq<byte>, flash: seq<byte>, kind: byte, flags: bv8,
                 n': Node, ram': seq<byte>, flash': seq<byte>)
    requires NodeOk(n) && |ram| == RUN_BYTES && |flash| == FLASH_BYTES
    requires SealStep(n, ram, flash, kind, flags, n', ram', flash', true)
    ensures n.verified && n'.session == n.session
  {
    hide Kept, SealCut;
  }

  function StreamOf(n: Node, ram: seq<byte>, flash: seq<byte>, kind: byte, size: nat, crc: bv32,
                    chunks: nat, heard: seq<Heard>): (l: Landed)
    requires NodeOk(n) && |ram| == RUN_BYTES && |flash| == FLASH_BYTES
    ensures NodeOk(l.node) && |l.ram| == RUN_BYTES
  {
    OfferOk(n, ram, flash, kind, size, crc, chunks);
    Play(Offer(n, ram, flash, kind, kind, size, crc, chunks), heard)
  }

  lemma OfferOk(n: Node, ram: seq<byte>, flash: seq<byte>, kind: byte, size: nat, crc: bv32,
                chunks: nat)
    requires NodeOk(n) && |ram| == RUN_BYTES && |flash| == FLASH_BYTES
    ensures var l := Offer(n, ram, flash, kind, kind, size, crc, chunks);
      NodeOk(l.node) && |l.ram| == RUN_BYTES
  {
    hide ImageHeld, StoreNames, Copied;
    if OfferHeard(n, kind, kind, size, chunks) {}
    if ImageHeld(n, ram, kind, size, crc) {}
    if StoreNames(flash, kind) == Image(size, crc) {}
  }

  /** The whole way of an image into the node: an erase taken that starts a stream, any broadcasts
      of one image - in any order, some lost, some repeated - a verify, and a seal that took.
      Verify says ok exactly when every chunk was heard and the image sums to what was offered;
      and behind a seal RAM holds the image byte for byte, and the node its size and its sum. */
  lemma Delivers(n: Node, ram: seq<byte>, flash: seq<byte>, kind: byte, crc: bv32, chunks: nat,
                 img: seq<byte>, heard: seq<Heard>, flags: bv8,
                 n': Node, ram': seq<byte>, flash': seq<byte>)
    requires NodeOk(n) && |ram| == RUN_BYTES && |flash| == FLASH_BYTES
    requires OfferHeard(n, kind, kind, |img|, chunks) && !ImageHeld(n, ram, kind, |img|, crc)
    requires StoreNames(flash, kind) != Image(|img|, crc) && From(img, heard)
    ensures var l := StreamOf(n, ram, flash, kind, |img|, crc, chunks, heard);
            var v := Verify(l.node, l.ram);
      && (v.1 <==> |Seen(chunks, heard)| == chunks && Crc(img) == crc)
      && NodeOk(v.0)
      && (SealStep(v.0, l.ram, flash, kind, flags, n', ram', flash', true) ==>
            && v.1 && |ram'| == RUN_BYTES && ram'[..|img|] == img
            && n'.state == Sealed && n'.runBytes == |img| && n'.runCrc == crc)
  {
    hide ImageHeld, StoreNames, ImageOf, Crc, SealStep, From, Seen, Play, Verify, Offer, Begun, Kept,
         Filled;
    var l0 := Offer(n, ram, flash, kind, kind, |img|, crc, chunks);
    OfferBegins(n, ram, flash, kind, |img|, crc, chunks);
    OfferOk(n, ram, flash, kind, |img|, crc, chunks);
    OfferFresh(n, ram, flash, kind, |img|, crc, chunks);
    StreamDelivers(l0, img, heard);
    StreamKept(l0, img, heard);
    var l := Play(l0, heard);
    VerifyGives(l.node, l.ram);
    var v := Verify(l.node, l.ram);
    if SealStep(v.0, l.ram, flash, kind, flags, n', ram', flash', true) {
      SealAsks(v.0, l.ram, flash, kind, flags, n', ram', flash');
      SameImage(l.node, v.0, l.ram, |img|);
      SealDelivers(v.0, l.ram, flash, kind, flags, n', ram', flash', img);
    }
  }

  lemma OfferFresh(n: Node, ram: seq<byte>, flash: seq<byte>, kind: byte, size: nat, crc: bv32,
                   chunks: nat)
    requires NodeOk(n) && |ram| == RUN_BYTES && |flash| == FLASH_BYTES
    requires OfferHeard(n, kind, kind, size, chunks) && !ImageHeld(n, ram, kind, size, crc)
    requires StoreNames(flash, kind) != Image(size, crc)
    ensures var l := Offer(n, ram, flash, kind, kind, size, crc, chunks);
      && l.node.state == Erased && !l.node.verified && l.node.session == n.session
      && l.node.recordBytes == 0
  {
    hide ImageHeld, StoreNames, OfferHeard, Wiped, Filled;
  }
}
