/** What the store's bytes must say for its image to boot, and what an erase, a chunk and a verify
    come to, in their own terms. */
module BootPlain {
  import opened Bytes
  import opened Checksum
  import opened BootPort
  import opened BootNode
  import opened BootRuns
  import opened BootStore
  import opened BootLaws
  import M = BootMaster

  /** A seal that vouches: its magic, this board's kind, a size past a header that RAM holds, an image
      behind it that may run, and the sum of its bytes. */
  predicate Vouches(flash: seq<byte>, kind: byte)
    requires |flash| == 0x20_0000
  {
    && Word32(flash, 0x2_0000) == 0x4C41_4553
    && Word32(flash, 0x2_000C) == kind as nat
    && 0x400 < Word32(flash, 0x2_0004) <= 0x4_8000
    && MayRun(flash, 0x2_0020, kind)
    && Crc(flash[0x2_0020..0x2_0020 + Word32(flash, 0x2_0004)]) == Crc32At(flash, 0x2_0008)
  }

  /** The store names an image exactly where its seal vouches for one, and then that one. */
  lemma NamesWhat(flash: seq<byte>, kind: byte)
    requires |flash| == FLASH_BYTES
    ensures StoreNames(flash, kind).Image? <==> Vouches(flash, kind)
    ensures StoreNames(flash, kind).Image? ==>
              StoreNames(flash, kind) == Image(Word32(flash, 0x2_0004), Crc32At(flash, 0x2_0008))
  {
    hide U32, Word32, ShapeOk, MayRun, Crc, Crc32At;
    WordIs(flash, STORE);
    WordIs(flash, STORE + 4);
    WordIs(flash, STORE + 12);
    TestsAre(flash, IMAGE, kind);
  }

  /** Power applied, no slot handed over and nobody calling: an image runs exactly if the seal
      vouches for it, it is long enough to hold its header, and the header names the seal's size;
      and it is those bytes, whole. */
  lemma ColdRuns(ram: seq<byte>, flash: seq<byte>, kind: byte)
    requires |ram| == RUN_BYTES && |flash| == FLASH_BYTES
    ensures var g := Gate(INITIAL, ram, flash, kind, 0, 0);
            var size := Word32(flash, 0x2_0004);
            && (g.ready <==> Vouches(flash, kind) && size >= 0x410 && Word32(flash, 0x2_0424) == size)
            && (g.ready ==> size <= 0x4_8000 && g.ram[..size] == flash[0x2_0020..0x2_0020 + size]
                            && g.node.runBytes == size)
  {
    hide U32, Word32, ShapeOk, MayRun, Crc, Crc32At, Gate, StoreNames, Vouches, Pad, Bootable;
    NamesWhat(flash, kind);
    ColdGate(ram, flash, kind);
    if Vouches(flash, kind) {
      HeaderThere(flash, kind);
    }
  }

  lemma HeaderThere(flash: seq<byte>, kind: byte)
    requires |flash| == FLASH_BYTES && Vouches(flash, kind)
    ensures var size := Word32(flash, 0x2_0004);
            && HEADER < size <= RUN_BYTES
            && (Bootable(flash[IMAGE..IMAGE + size], kind)
                <==> size >= 0x410 && Word32(flash, 0x2_0424) == size)
  {
    hide U32, Word32, ShapeOk, MayRun, Crc, Crc32At, Pad;
    var size := Word32(flash, 0x2_0004);
    var img := flash[IMAGE..IMAGE + size];
    if size >= SHAPE {
      PadHead(flash, size);
      ShapeAlike(Pad(img), 0, flash, IMAGE, kind);
      TestsAre(flash, IMAGE, kind);
      WordIs(flash, IMAGE + (HEADER + 4));
    } else {
      TooShort(img, kind);
    }
  }

  lemma PadHead(flash: seq<byte>, size: nat)
    requires |flash| == FLASH_BYTES && SHAPE <= size <= RUN_BYTES
    ensures var pad := Pad(flash[IMAGE..IMAGE + size]);
            |pad| >= SHAPE && pad[0..0 + SHAPE] == flash[IMAGE..IMAGE + SHAPE]
  {
    var pad, img := Pad(flash[IMAGE..IMAGE + size]), flash[IMAGE..IMAGE + size];
    assert pad[..size] == img;
    Slices(flash, IMAGE, IMAGE + size, 0, SHAPE);
    assert pad[0..0 + SHAPE] == img[0..SHAPE];
  }

  /** An image that ends inside its header is padded with 0xFF there, and no board's kind. */
  lemma TooShort(img: seq<byte>, kind: byte)
    requires HEADER < |img| < SHAPE
    ensures !Bootable(img, kind)
  {
    var pad := Pad(img);
    assert pad[0x40F] == 0xFF;
    TestsAre(pad, 0, kind);
    hide ShapeOk, U32;
    assert Word32(pad, 0x40C) >= 0xFF00_0000;
  }

  // -- an erase ------------------------------------------------------------------------------

  /** An erase is heard by an assigned node, for its own board's kind, of a size RAM holds, told in
      as many chunks of 224 bytes as that takes. */
  predicate Heard(n: Node, kind: byte, offer: byte, size: nat, chunks: nat) {
    && n.state != Blank && n.state != Held && offer == kind
    && 32 <= size <= 0x4_8000 && chunks == (size + 223) / 224
  }

  lemma HeardIs(n: Node, kind: byte, offer: byte, size: nat, chunks: nat)
    ensures OfferHeard(n, kind, offer, size, chunks) <==> Heard(n, kind, offer, size, chunks)
  {
    if Fits(size, chunks) {
      assert (size + 223) / 224 <= MAX_CHUNKS;
    }
  }

  lemma HeardSize(n: Node, kind: byte, offer: byte, size: nat, chunks: nat)
    requires Heard(n, kind, offer, size, chunks)
    ensures 32 <= size <= 0x4_8000
  {
  }

  /** The image offered stands in RAM, past the tests, its header naming the size, its sum right. */
  predicate Stands(ram: seq<byte>, kind: byte, size: nat, crc: bv32)
    requires |ram| == 0x4_8000
  {
    && MayRun(ram, 0, kind) && Word32(ram, 0x404) == size
    && size <= 0x4_8000 && Crc(ram[..size]) == crc
  }

  lemma HeldStands(s: Sys, layout: Layout, size: nat, crc: bv32)
    requires Inv(s, layout)
    ensures Shaped(s)
    ensures ImageHeld(s.node, s.ram, layout.kind, size, crc) <==> Stands(s.ram, layout.kind, size, crc)
  {
    hide U32, Word32, Crc, Count, Bit, MayRun, ShapeOk, Whole;
    TestsAre(s.ram, 0, layout.kind);
    WordIs(s.ram, HEADER + 4);
    if AppValid(s.ram, layout.kind) {
      if s.streaming {
        BlankInvalid(s.ram, layout.kind);
      }
      ValidSize(s.ram, layout.kind);
      if U32(s.ram, HEADER + 4) == size {
        ImageInRam(s.node, s.ram, size);
      }
    }
  }

  /** An erase not heard changes nothing. One heard makes its image the node's, with no record: held
      and verified if and only if it stands in RAM or a seal vouches for it, and then all of it is in
      RAM; streaming, nothing of it landed, if not. */
  lemma OfferTaken(a: Sys, layout: Layout, offer: byte, size: nat, crc: bv32, chunks: nat, b: Sys)
    requires Inv(a, layout) && Step(a, layout, Offers(offer, size, crc, chunks), b)
    ensures !Heard(a.node, layout.kind, offer, size, chunks) ==> b == a
    ensures Heard(a.node, layout.kind, offer, size, chunks) ==>
              && b.node.size == size && b.node.crc == crc && b.node.chunks == chunks
              && b.node.recordBytes == 0 && !b.node.firstHeld && b.flash == a.flash
              && |a.ram| == 0x4_8000 && |b.ram| == 0x4_8000 && |a.flash| == 0x20_0000
              && (b.node.verified <==>
                    Stands(a.ram, layout.kind, size, crc)
                    || (Vouches(a.flash, layout.kind) && Word32(a.flash, 0x2_0004) == size
                        && Crc32At(a.flash, 0x2_0008) == crc))
              && (if b.node.verified
                  then b.node.state == Verified && b.node.held == chunks && Crc(b.ram[..size]) == crc
                  else b.node.state == Erased && b.node.held == 0 && b.streaming)
  {
    HeldStands(a, layout, size, crc);
    NamesWhat(a.flash, layout.kind);
    HeardIs(a.node, layout.kind, offer, size, chunks);
    StepKeeps(a, layout, Offers(offer, size, crc, chunks), b);
    hide ImageHeld, StoreNames, Vouches, Stands, Crc, Crc32At, Word32, Fits, Heard, Copied, Wiped,
         Count, Bit, AllSet, Filled;
    if b.node.verified && Heard(a.node, layout.kind, offer, size, chunks) {
      HeardSize(a.node, layout.kind, offer, size, chunks);
      ImageInRam(b.node, b.ram, size);
    }
  }

  // -- a chunk -------------------------------------------------------------------------------

  /** A chunk is this image's while one is being streamed or is held, of a place in it, and of 1 to
      224 bytes. Any other changes nothing but the count of those; one of a place that has landed
      changes nothing at all, and each place lands once. */
  lemma ChunkTaken(a: Sys, layout: Layout, index: nat, data: seq<byte>, b: Sys)
    requires Inv(a, layout) && Step(a, layout, Chunks(index, data), b)
    ensures var ours := (a.node.state == Erased || a.node.state == Verified)
                        && index < a.node.chunks && 0 < |data| <= 224;
      && b.node.ignored == (if ours then a.node.ignored else (a.node.ignored + 1) % 0x1_0000_0000)
      && b.node.state == a.node.state && b.node.verified == a.node.verified && b.flash == a.flash
      && (!ours ==> b == a.(node := a.node.(ignored := b.node.ignored)))
      && (ours ==>
            && index < 8 * |a.node.bitmap| && |b.node.bitmap| == |a.node.bitmap|
            && (Bit(a.node.bitmap, index) ==> b == a)
            && (b.node.held == a.node.held || b.node.held == a.node.held + 1)
            && (b.node.held == a.node.held + 1 ==>
                  !Bit(a.node.bitmap, index) && Bit(b.node.bitmap, index)))
  {
    hide Count, Bit, AppValid, Crc, AllSet, AllBlank, Chunk, Whole, ImageHeld;
    ChunksCovered(a.node);
    if ChunkHeard(a.node, index, data) {
      ChunkOurs(a.node, a.ram, index, data);
    } else {
      ChunkStray(a.node, a.ram, index, data);
    }
  }

  lemma ChunkStray(n: Node, ram: seq<byte>, index: nat, data: seq<byte>)
    requires NodeOk(n) && |ram| == RUN_BYTES && !ChunkHeard(n, index, data)
    ensures Chunk(n, ram, index, data) == Landed(n.(ignored := (n.ignored + 1) % 0x1_0000_0000), ram)
  {
    hide ChunkHeard;
  }

  lemma ChunkOurs(n: Node, ram: seq<byte>, index: nat, data: seq<byte>)
    requires NodeOk(n) && |ram| == RUN_BYTES && ChunkHeard(n, index, data)
    ensures index < 8 * |n.bitmap|
    ensures var m := Chunk(n, ram, index, data).node;
      && m.ignored == n.ignored && m.state == n.state && m.verified == n.verified
      && |m.bitmap| == |n.bitmap| && (m.held == n.held || m.held == n.held + 1)
      && (Bit(n.bitmap, index) ==> Chunk(n, ram, index, data) == Landed(n, ram))
      && (m.held == n.held + 1 ==> !Bit(n.bitmap, index) && Bit(m.bitmap, index))
  {
    hide Bit, SetBit, Put, ChunkRam, Pad, Room;
    ChunksCovered(n);
    BitOfSet(n.bitmap, index, index);
    if index == 0 {}
  }

  /** Where a chunk's bit is: eight to a byte, the lowest first. */
  lemma BitPlace(bitmap: seq<byte>, i: nat)
    requires i < 8 * |bitmap|
    ensures Bit(bitmap, i) <==> (bitmap[i / 8] >> (i % 8)) & 1 == 1
  {
    MaskPlace(bitmap[i / 8], i % 8);
  }

  lemma MaskPlace(b: byte, k: nat)
    requires k < 8
    ensures Has(b, k) <==> (b >> k) & 1 == 1
  {
    if k < 4 {
      if k < 2 {
        if k == 0 {} else {}
      } else if k == 2 {
      } else {
        assert k == 3;
      }
    } else {
      MaskHigh(b, k);
    }
  }

  lemma MaskHigh(b: byte, k: nat)
    requires 4 <= k < 8
    ensures Has(b, k) <==> (b >> k) & 1 == 1
  {
    match k
    case 4 => case 5 => case 6 => case _ => assert k == 7;
  }

  // -- a verify ------------------------------------------------------------------------------

  /** A verify is answered for an image whose every chunk has landed: with its sum, the word held
      back in its place, and yes exactly if that is the sum offered. A yes makes the node verified, a
      no leaves its state; without all the chunks it is no, sum nought, and changes nothing. */
  lemma VerifyTells(n: Node, ram: seq<byte>)
    requires NodeOk(n) && |ram| == RUN_BYTES
    ensures var all := n.state != Blank && n.state != Held && n.state != Assigned
                       && n.held == n.chunks;
            var (m, ok, crc) := Verify(n, ram);
      && (all ==>
            && 32 <= n.size <= 0x4_8000
            && crc == Crc((if n.firstHeld then n.first else ram[..32]) + ram[32..n.size])
            && (ok <==> crc == n.crc)
            && m == n.(verified := ok, state := if ok then Verified else n.state))
      && (!all ==> !ok && crc == 0 && m == n)
  {
    hide Crc;
  }

  // -- a record ------------------------------------------------------------------------------

  /** A piece of the record is taken by an assigned node exactly if it ends within 2048 bytes, and then
      lies in its place, the record as long as the furthest piece; refused it changes nothing. */
  lemma RecordTells(n: Node, offset: nat, data: seq<byte>)
    requires NodeOk(n)
    ensures var (m, took) := Record(n, offset, data);
      && (took <==> n.state != Blank && n.state != Held && offset + |data| <= 2048)
      && (!took ==> m == n)
      && (took ==>
            && |m.record| == 2048 && m.record[offset..offset + |data|] == data
            && m == n.(record := m.record, recordBytes := m.recordBytes)
            && n.recordBytes <= m.recordBytes && offset + |data| <= m.recordBytes
            && (m.recordBytes == n.recordBytes || m.recordBytes == offset + |data|)
            && forall i :: 0 <= i < 2048 && !(offset <= i < offset + |data|) ==>
                             m.record[i] == n.record[i])
  {
    var (m, took) := Record(n, offset, data);
    if took {
      assert m.record[offset..offset + |data|] == data;
    }
  }

  // -- a seal --------------------------------------------------------------------------------

  /** A seal that took keeps a copy exactly when its flags' lowest bit asks for one the store does not
      already name. Then the store's bytes are the image's, its sectors, 128 K each, read erased
      behind them, and the sectors past them stand; otherwise the store is left alone. */
  lemma SealStores(n: Node, ram: seq<byte>, flash: seq<byte>, kind: byte, flags: bv8,
                   n': Node, ram': seq<byte>, flash': seq<byte>)
    requires NodeOk(n) && |ram| == RUN_BYTES && |flash| == FLASH_BYTES && Fits(n.size, n.chunks)
    requires n.verified && SealStep(n, ram, flash, kind, flags, n', ram', flash', true)
    ensures |flash'| == 0x20_0000
    ensures if flags & 1 == 0 || StoreNames(flash, kind) == Image(n.size, n.crc)
            then flash'[0x2_0000..0x1E_0000] == flash[0x2_0000..0x1E_0000]
            else
              var at, end := 0x2_0020 + n.size, (0x2_0020 + n.size + 0x1_FFFF) / 0x2_0000 * 0x2_0000;
              && flash'[0x2_0020..at]
                 == (if n.firstHeld then n.first else ram[..32]) + ram[32..n.size]
              && (forall i :: at <= i < end ==> flash'[i] == 0xFF)
              && end <= 0x1E_0000 && flash'[end..0x1E_0000] == flash[end..0x1E_0000]
  {
    hide Kept, StoreNames, SealCut, Completed, NodeOk;
    assert NodeOk(n);
    if flags & 1 == 0 || StoreNames(flash, kind) == Image(n.size, n.crc) {
      KeptAlone(n, ram, flash, kind, flags);
    } else {
      KeptCopies(n, ram, flash, kind, flags);
    }
  }

  lemma KeptAlone(n: Node, ram: seq<byte>, flash: seq<byte>, kind: byte, flags: bv8)
    requires NodeOk(n) && |ram| == RUN_BYTES && |flash| == FLASH_BYTES && Fits(n.size, n.chunks)
    requires flags & 1 == 0 || StoreNames(flash, kind) == Image(n.size, n.crc)
    ensures Kept(n, ram, flash, kind, flags)[STORE..RECORD] == flash[STORE..RECORD]
  {
    hide Recorded, Stored, StoreNames, Completed;
    RecordedAlike(n, flash);
    StoreAlike(Recorded(n, flash), flash, kind);
  }

  lemma KeptCopies(n: Node, ram: seq<byte>, flash: seq<byte>, kind: byte, flags: bv8)
    requires NodeOk(n) && |ram| == RUN_BYTES && |flash| == FLASH_BYTES && Fits(n.size, n.chunks)
    requires flags & 1 != 0 && StoreNames(flash, kind) != Image(n.size, n.crc)
    ensures var c, end := Kept(n, ram, flash, kind, flags),
                          (0x2_0020 + n.size + 0x1_FFFF) / 0x2_0000 * 0x2_0000;
            && IMAGE + n.size <= end <= RECORD
            && c[IMAGE..IMAGE + n.size] == ImageOf(n, ram, n.size)
            && (forall i :: IMAGE + n.size <= i < end ==> c[i] == 0xFF)
            && c[end..RECORD] == flash[end..RECORD]
  {
    hide Recorded, Stored, StoreNames, Completed, ImageOf, Words, SealWord, Pad, SectorEnd;
    var f := Recorded(n, flash);
    RecordedAlike(n, flash);
    StoreAlike(f, flash, kind);
    StoredHas(n, Completed(n, ram), f, kind);
    StoredRest(n, Completed(n, ram), f, kind);
    ImageCompleted(n, ram, n.size);
    EndIs(n.size);
    TailAlike(f, flash, (0x2_0020 + n.size + 0x1_FFFF) / 0x2_0000 * 0x2_0000);
  }

  lemma TailAlike(a: seq<byte>, b: seq<byte>, end: nat)
    requires |a| == FLASH_BYTES && |b| == FLASH_BYTES && a[STORE..RECORD] == b[STORE..RECORD]
    requires STORE <= end <= RECORD
    ensures a[end..RECORD] == b[end..RECORD]
  {
    Slices(a, STORE, RECORD, end - STORE, RECORD - STORE);
    Slices(b, STORE, RECORD, end - STORE, RECORD - STORE);
  }

  lemma EndIs(size: nat)
    requires WORD <= size <= RUN_BYTES
    ensures var end := (0x2_0020 + size + 0x1_FFFF) / 0x2_0000 * 0x2_0000;
            end == SectorEnd(STORE, WORD + size) && IMAGE + Words(size) <= end <= RECORD
  {
    var at := STORE + (WORD + size) - 1;
    assert at / SECTOR * SECTOR <= at < at / SECTOR * SECTOR + SECTOR;
  }

  /** The store past the image: erased to its sector's end, and as it was from there. */
  lemma StoredRest(n: Node, ram: seq<byte>, flash: seq<byte>, kind: byte)
    requires NodeOk(n) && Fits(n.size, n.chunks) && |ram| == RUN_BYTES && |flash| == FLASH_BYTES
    ensures var c, end := Stored(n, ram, flash, kind),
                          (0x2_0020 + n.size + 0x1_FFFF) / 0x2_0000 * 0x2_0000;
            && STORE <= end <= RECORD
            && (forall i :: 0x2_0020 + n.size <= i < end ==> c[i] == 0xFF)
            && c[end..RECORD] == flash[end..RECORD]
  {
    hide SealWord, SectorEnd, Words, Pad, Put, Wiped;
    EndIs(n.size);
    var pad := Pad(ram[..n.size]);
    LaidOver(flash, SectorEnd(STORE, WORD + n.size), pad, SealWord(n.size, n.crc, kind));
    var c := Stored(n, ram, flash, kind);
    forall i | 0x2_0020 + n.size <= i < IMAGE + |pad|
      ensures c[i] == 0xFF
    {
      assert pad[i - IMAGE] == BLANK;
    }
  }

  lemma LaidOver(flash: seq<byte>, end: nat, pad: seq<byte>, word: seq<byte>)
    requires |flash| == FLASH_BYTES && |word| == WORD && IMAGE + |pad| <= end <= RECORD
    ensures var c := Put(Put(Wiped(flash, STORE, end), IMAGE, pad), STORE, word);
      && (forall i :: IMAGE <= i < IMAGE + |pad| ==> c[i] == pad[i - IMAGE])
      && (forall i :: IMAGE + |pad| <= i < end ==> c[i] == BLANK)
      && c[end..RECORD] == flash[end..RECORD]
  {
    var c := Put(Put(Wiped(flash, STORE, end), IMAGE, pad), STORE, word);
    assert c[end..RECORD] == flash[end..RECORD];
  }

  /** Sealed again, what a seal left is left alone: the record is in its sector, and the copy is kept
      or was not asked for. No word of flash is spent on it. */
  lemma SealAgain(n: Node, ram: seq<byte>, flash: seq<byte>, kind: byte, flags: bv8)
    requires NodeOk(n) && |ram| == RUN_BYTES && |flash| == FLASH_BYTES && Fits(n.size, n.chunks)
    ensures var f := Kept(n, ram, flash, kind, flags);
            flags & 1 == 0 || StoreNames(f, kind) == Image(n.size, n.crc) ==>
              Kept(n, ram, f, kind, flags) == f
  {
    hide Recorded, Stored, StoreNames, Completed;
    var f := Kept(n, ram, flash, kind, flags);
    RecordOnce(n, flash);
    if f != Recorded(n, flash) {
      M.StoredSpares(n, Completed(n, ram), Recorded(n, flash), kind);
      RecordApart(n, Recorded(n, flash), f);
    }
  }

  lemma RecordOnce(n: Node, flash: seq<byte>)
    requires NodeOk(n) && |flash| == FLASH_BYTES
    ensures Recorded(n, Recorded(n, flash)) == Recorded(n, flash)
    ensures n.recordBytes != 0 ==> RecordHeld(n, Recorded(n, flash))
  {
    hide RecordProgrammed, RecordImage;
    if n.recordBytes != 0 && !RecordHeld(n, flash) {
      ProgrammedHolds(n, flash);
    }
  }

  lemma ProgrammedHolds(n: Node, flash: seq<byte>)
    requires NodeOk(n) && |flash| == FLASH_BYTES
    ensures |RecordProgrammed(n, flash)| == FLASH_BYTES && RecordHeld(n, RecordProgrammed(n, flash))
  {
    hide RecordImage;
    var r, pad := RecordProgrammed(n, flash), RecordImage(n);
    assert r[RECORD..RECORD + |pad|] == pad;
  }

  lemma RecordApart(n: Node, a: seq<byte>, b: seq<byte>)
    requires NodeOk(n) && |a| == FLASH_BYTES && |b| == FLASH_BYTES && b[RECORD..] == a[RECORD..]
    requires n.recordBytes != 0 ==> RecordHeld(n, a)
    ensures Recorded(n, b) == b
  {
    hide RecordProgrammed, RecordImage;
    var k := |RecordImage(n)|;
    assert a[RECORD..FLASH_BYTES] == a[RECORD..] && b[RECORD..FLASH_BYTES] == b[RECORD..];
    Slices(a, RECORD, FLASH_BYTES, 0, k);
    Slices(b, RECORD, FLASH_BYTES, 0, k);
    assert RECORD + 0 == RECORD;
    if n.recordBytes != 0 {
      assert b[RECORD..RECORD + k] == a[RECORD..RECORD + k] == RecordImage(n);
    }
  }
}
