/** The bootloader's core as it runs: one record of state, changed op by op, over the port's
    erase, program and read. Each op is held to its closed form in BootNode. */
module BootCore {
  import opened Bytes
  import opened Checksum
  import opened BootPort
  import opened BootNode

  // -- words written one behind the other ----------------------------------------------------

  lemma PutNone(mem: seq<byte>, at: nat)
    requires at <= |mem|
    ensures Put(mem, at, []) == mem
  {
  }

  lemma PutMore(mem: seq<byte>, at: nat, w: seq<byte>, k: nat, m: nat)
    requires at + |w| <= |mem| && k <= m <= |w|
    ensures Put(Put(mem, at, w[..k]), at + k, w[k..m]) == Put(mem, at, w[..m])
  {
  }

  lemma PutOver(mem: seq<byte>, at: nat, v: seq<byte>, w: seq<byte>)
    requires |v| <= |w| && at + |w| <= |mem|
    ensures Put(Put(mem, at, v), at, w) == Put(mem, at, w)
  {
  }

  /** One word of `size` bytes standing at `from`, clipped to them and padded. */
  function WordOf(mem: seq<byte>, from: nat, offset: nat, size: nat): seq<byte>
    requires offset < size && from + size <= |mem|
  {
    Pad(mem[from + offset..from + if offset + WORD < size then offset + WORD else size])
  }

  lemma WordOfPad(mem: seq<byte>, from: nat, offset: nat, size: nat)
    requires offset < size && from + size <= |mem| && offset % WORD == 0
    ensures |WordOf(mem, from, offset, size)| == WORD
    ensures offset + WORD <= |Pad(mem[from..from + size])|
    ensures WordOf(mem, from, offset, size) == Pad(mem[from..from + size])[offset..offset + WORD]
  {
    Slices(mem, from, from + size, offset, if offset + WORD < size then offset + WORD else size);
  }

  lemma WordHas(mem: seq<byte>, from: nat, offset: nat, size: nat, have: nat)
    requires offset < size && from + size <= |mem|
    requires have == if size - offset < WORD then size - offset else WORD
    ensures have <= |WordOf(mem, from, offset, size)|
    ensures WordOf(mem, from, offset, size)[..have] == mem[from..from + size][offset..offset + have]
  {
    Slices(mem, from, from + size, offset, offset + have);
  }

  lemma SumMore(c: bv32, s: seq<byte>, i: nat, j: nat)
    requires i <= j <= |s|
    ensures Sum(Sum(c, s[..i]), s[i..j]) == Sum(c, s[..j])
  {
    hide Sum;
    SumOfPieces(c, s[..i], s[i..j]);
    assert s[..i] + s[i..j] == s[..j];
  }

  lemma WordsDone(size: nat, offset: nat)
    requires offset % WORD == 0 && size <= offset < size + WORD
    ensures offset == Words(size)
  {
  }

  class Boot {
    const layout: Layout
    const port: Port
    var s: Node

    ghost predicate Valid()
      reads this, port
    {
      port.Valid() && NodeOk(s)
    }

    constructor (layout: Layout, port: Port)
      requires port.Valid()
      ensures Valid() && this.layout == layout && this.port == port && s == INITIAL
    {
      this.layout := layout;
      this.port := port;
      s := INITIAL;
    }

    // -- checksums and tests -----------------------------------------------------------------

    method ImageCrc(size: nat) returns (crc: bv32)
      requires Valid() && WORD <= size <= RUN_BYTES
      ensures crc == Crc(ImageOf(s, port.ram, size))
    {
      var head := if s.firstHeld then s.first else port.ram[..WORD];
      crc := Crc32(INIT, head);
      crc := Crc32(crc, port.ram[WORD..size]);
      SumOfPieces(INIT, head, port.ram[WORD..size]);
      crc := Xor(crc, INIT);
    }

    method HoldsImage(size: nat, crc: bv32) returns (held: bool)
      requires Valid()
      ensures held == ImageHeld(s, port.ram, layout.kind, size, crc)
    {
      held := false;
      if AppValid(port.ram, layout.kind) && U32(port.ram, HEADER + 4) == size {
        var sum := ImageCrc(size);
        held := sum == crc;
      }
    }

    /** The store's bytes summed a flash word at a time. */
    method StoreCrc(size: nat) returns (crc: bv32)
      requires Valid() && size <= RUN_BYTES
      ensures crc == Crc(port.flash[IMAGE..IMAGE + size])
    {
      ghost var img := port.flash[IMAGE..IMAGE + size];
      crc := INIT;
      var offset := 0;
      assert Sum(INIT, img[..0]) == INIT;
      hide Sum, WordOf;
      while offset < size
        invariant crc == Sum(INIT, img[..if offset < size then offset else size])
      {
        var have := if size - offset < WORD then size - offset else WORD;
        var word := WordOf(port.flash, IMAGE, offset, size);
        WordHas(port.flash, IMAGE, offset, size, have);
        crc := Crc32(crc, word[..have]);
        SumMore(INIT, img, offset, offset + have);
        offset := offset + WORD;
      }
      assert img[..size] == img;
      crc := Xor(crc, INIT);
    }

    method StoreSealed() returns (named: Named)
      requires Valid()
      ensures named == StoreNames(port.flash, layout.kind)
    {
      var size, sum := U32(port.flash, STORE + 4), Crc32At(port.flash, STORE + 8);
      named := Nothing;
      if U32(port.flash, STORE) == SEAL_MAGIC
         && U32(port.flash, STORE + 12) == layout.kind as nat
         && HEADER < size <= RUN_BYTES && ShapeOk(port.flash, IMAGE, layout.kind) {
        var crc := StoreCrc(size);
        if crc == sum {
          named := Image(size, sum);
        }
      }
    }

    method StoreHolds(size: nat, crc: bv32) returns (held: bool)
      requires Valid()
      ensures held == (StoreNames(port.flash, layout.kind) == Image(size, crc))
    {
      var named := StoreSealed();
      held := named == Image(size, crc);
    }

    // -- moves between RAM and the store -----------------------------------------------------

    /** Moves the stored bytes to the start of RAM, the last of them padded out to a word. */
    method ToRun(size: nat) returns (ok: bool)
      requires Valid() && 0 < size <= RUN_BYTES
      modifies port
      ensures Valid() && ok
      ensures port.ram == Copied(old(port.ram), old(port.flash), size)
      ensures port.flash == old(port.flash) && port.cuts == old(port.cuts)
      ensures port.refused == old(port.refused) && port.asked == old(port.asked)
    {
      hide Put, Wiped, Pad, Words, WordOf;
      ghost var pad := Pad(port.flash[IMAGE..IMAGE + size]);
      ghost var was := port.ram;
      WordsFit(size);
      ok := port.Erase(RUN_BASE, size);
      ghost var wiped := port.ram;
      var offset := 0;
      assert pad[..0] == [];
      PutNone(wiped, 0);
      while offset < size
        invariant Valid() && offset % WORD == 0 && offset < size + WORD && offset <= |pad|
        invariant port.ram == Put(wiped, 0, pad[..offset])
        invariant port.flash == old(port.flash) && port.cuts == old(port.cuts)
        invariant port.refused == old(port.refused) && port.asked == old(port.asked)
      {
        var word := WordOf(port.flash, IMAGE, offset, size);
        WordOfPad(port.flash, IMAGE, offset, size);
        PutMore(wiped, 0, pad, offset, offset + WORD);
        ok := port.Program(RUN_BASE + offset, word);
        offset := offset + WORD;
      }
      WordsDone(size, offset);
      assert pad[..offset] == pad;
      CopiedOver(was, port.flash, size);
      ok := true;
    }

    /** One word of RAM's image onto the store. */
    method PersistOne(ghost f0: seq<byte>, offset: nat) returns (ok: bool)
      requires Valid() && Fits(s.size, s.chunks) && |f0| == FLASH_BYTES
      requires offset % WORD == 0 && offset < s.size
      requires IMAGE + |Pad(port.ram[..s.size])| <= FLASH_BYTES
      requires port.flash == Put(WipedStore(f0, s.size), IMAGE, Pad(port.ram[..s.size])[..offset])
      requires IMAGE + offset !in port.asked
      modifies port
      ensures Valid() && port.ram == old(port.ram) && port.refused == old(port.refused)
      ensures port.asked == old(port.asked) + {IMAGE + offset}
      ensures offset + WORD <= |Pad(port.ram[..s.size])|
      ensures ok ==> port.flash == Put(WipedStore(f0, s.size), IMAGE,
                                       Pad(port.ram[..s.size])[..offset + WORD])
      ensures PersistCut(port.flash, f0, s, port.ram, layout.kind)
      ensures port.cuts == old(port.cuts) + [port.flash]
    {
      hide Put, Pad, Words, WordOf, PersistCut, WipedStore, AllBlank, Filled;
      var word := WordOf(port.ram, 0, offset, s.size);
      WordOfPad(port.ram, 0, offset, s.size);
      assert port.ram[0..0 + s.size] == port.ram[..s.size];
      PersistWord(f0, s, port.ram, layout.kind, offset);
      ok := port.Program(FLASH_BASE + IMAGE + offset, word);
    }

    /** RAM's image onto the store, erased for it: everything but the seal. */
    method PersistImage() returns (ok: bool)
      requires Valid() && Fits(s.size, s.chunks)
      modifies port
      ensures Valid() && port.ram == old(port.ram) && port.refused == old(port.refused)
      ensures IMAGE + |Pad(port.ram[..s.size])| <= FLASH_BYTES
      ensures ok ==> port.flash == Put(WipedStore(old(port.flash), s.size), IMAGE,
                                       Pad(port.ram[..s.size]))
      ensures ok ==> STORE !in port.asked
      ensures PersistCut(port.flash, old(port.flash), s, port.ram, layout.kind)
      ensures |old(port.cuts)| <= |port.cuts| && port.cuts[..|old(port.cuts)|] == old(port.cuts)
      ensures forall k :: |old(port.cuts)| <= k < |port.cuts| ==>
                PersistCut(port.cuts[k], old(port.flash), s, port.ram, layout.kind)
    {
      hide Outside, Put, Wiped, Pad, Words, WordOf, PersistCut, WipedStore, SectorOf, SectorEnd, Wiping,
           SameBut, AllBlank, Filled, NodeOk;
      ghost var f0 := port.flash;
      ghost var pad := Pad(port.ram[..s.size]);
      PersistFits(s.size);
      WipedStoreIs(f0, s.size);
      PersistWiping(f0, s, port.ram, layout.kind);
      StoreUnasked(port.asked, s.size, |pad|);
      ok := port.Erase(FLASH_BASE + STORE, WORD + s.size);
      if !ok {
        return;
      }
      var offset := 0;
      assert pad[..0] == [];
      PutNone(port.flash, IMAGE);
      while offset < s.size
        invariant Valid() && offset % WORD == 0 && offset < s.size + WORD && offset <= |pad|
        invariant port.ram == old(port.ram) && port.refused == old(port.refused)
        invariant port.flash == Put(WipedStore(f0, s.size), IMAGE, pad[..offset])
        invariant STORE !in port.asked && Unasked(port.asked, IMAGE + offset, IMAGE + |pad|)
        invariant PersistCut(port.flash, f0, s, port.ram, layout.kind)
        invariant |old(port.cuts)| <= |port.cuts|
        invariant port.cuts[..|old(port.cuts)|] == old(port.cuts)
        invariant forall k :: |old(port.cuts)| <= k < |port.cuts| ==>
                    PersistCut(port.cuts[k], f0, s, port.ram, layout.kind)
      {
        PadReaches(port.ram[..s.size], offset);
        ok := PersistOne(f0, offset);
        if !ok {
          return;
        }
        offset := offset + WORD;
      }
      WordsDone(s.size, offset);
      assert pad[..offset] == pad;
      ok := true;
    }

    /** Writes the verified image behind a fresh seal word, and that word after everything else; a
        store that names the image already is not touched. */
    method Persist() returns (ok: bool)
      requires Valid() && Fits(s.size, s.chunks)
      modifies port
      ensures Valid() && port.ram == old(port.ram) && port.refused == old(port.refused)
      ensures ok ==> port.flash == if StoreNames(old(port.flash), layout.kind)
                                      == Image(s.size, s.crc)
                                   then old(port.flash)
                                   else Stored(s, port.ram, old(port.flash), layout.kind)
      ensures PersistCut(port.flash, old(port.flash), s, port.ram, layout.kind)
      ensures |old(port.cuts)| <= |port.cuts| && port.cuts[..|old(port.cuts)|] == old(port.cuts)
      ensures forall k :: |old(port.cuts)| <= k < |port.cuts| ==>
                PersistCut(port.cuts[k], old(port.flash), s, port.ram, layout.kind)
    {
      hide Put, Pad, PersistCut, SealWord, StoreNames, Stored, WipedStore, SameBut, AllBlank,
           Filled;
      ghost var f0, kind := port.flash, layout.kind;
      ok := StoreHolds(s.size, s.crc);
      PersistCutNone(f0, s, port.ram, kind);
      if ok {
        return;
      }
      ok := PersistImage();
      if !ok {
        return;
      }
      PersistSeal(f0, s, port.ram, kind);
      ok := port.Program(FLASH_BASE + STORE, SealWord(s.size, s.crc, layout.kind));
    }

    // -- the record --------------------------------------------------------------------------

    /** Compares the record, a word at a time, with what flash has for it. */
    method RecordStands() returns (held: bool)
      requires Valid()
      ensures held == RecordHeld(s, port.flash)
    {
      hide Pad, Words, WordOf;
      ghost var pad := Pad(s.record[..s.recordBytes]);
      var offset := 0;
      RecordFits(s);
      while offset < s.recordBytes
        invariant offset % WORD == 0 && offset < s.recordBytes + WORD && offset <= |pad|
        invariant port.flash[RECORD..RECORD + offset] == pad[..offset]
      {
        var word := WordOf(s.record, 0, offset, s.recordBytes);
        WordOfPad(s.record, 0, offset, s.recordBytes);
        assert s.record[0..0 + s.recordBytes] == s.record[..s.recordBytes];
        MatchMore(port.flash, RECORD, pad, offset, offset + WORD);
        if port.flash[RECORD + offset..RECORD + offset + WORD] != word {
          return false;
        }
        offset := offset + WORD;
      }
      WordsDone(s.recordBytes, offset);
      assert pad[..offset] == pad;
      held := true;
    }

    /** One of the record's words into its sector. */
    method ProgramRecordWord(ghost f0: seq<byte>, offset: nat) returns (ok: bool)
      requires Valid() && |f0| == FLASH_BYTES && offset % WORD == 0 && offset < s.recordBytes
      requires port.flash == Put(Wiped(f0, RECORD, RECORD + SECTOR), RECORD,
                                 RecordImage(s)[..offset])
      requires RECORD + offset !in port.asked
      modifies port
      ensures Valid() && port.ram == old(port.ram) && port.refused == old(port.refused)
      ensures port.asked == old(port.asked) + {RECORD + offset}
      ensures offset + WORD <= |RecordImage(s)|
      ensures ok ==> port.flash == Put(Wiped(f0, RECORD, RECORD + SECTOR), RECORD,
                                       RecordImage(s)[..offset + WORD])
      ensures SameBut(port.flash, f0, RECORD, RECORD + SECTOR)
      ensures port.cuts == old(port.cuts) + [port.flash]
    {
      hide Put, Wiped, Pad, Words, WordOf, SameBut, AllBlank, Filled;
      var word := WordOf(s.record, 0, offset, s.recordBytes);
      WordOfPad(s.record, 0, offset, s.recordBytes);
      assert s.record[0..0 + s.recordBytes] == s.record[..s.recordBytes];
      RecordFits(s);
      RecordWord(f0, RecordImage(s), offset);
      ok := port.Program(FLASH_BASE + RECORD + offset, word);
    }

    /** Erases the record's sector and writes the padded record there. */
    method ProgramRecord() returns (ok: bool)
      requires Valid()
      modifies port
      ensures Valid() && port.ram == old(port.ram) && port.refused == old(port.refused)
      ensures ok ==> port.flash == RecordProgrammed(s, old(port.flash))
      ensures SameBut(port.flash, old(port.flash), RECORD, RECORD + SECTOR)
      ensures |old(port.cuts)| <= |port.cuts| && port.cuts[..|old(port.cuts)|] == old(port.cuts)
      ensures forall k :: |old(port.cuts)| <= k < |port.cuts| ==>
                SameBut(port.cuts[k], old(port.flash), RECORD, RECORD + SECTOR)
    {
      hide Outside, Put, Wiped, RecordImage, SectorOf, SectorEnd, SameBut, AllBlank, Filled, Wiping, NodeOk,
           Words;
      ghost var f0, pad := port.flash, RecordImage(s);
      RecordFits(s);
      RecordWiping(f0);
      RecordUnasked(port.asked, |pad|);
      ok := port.Erase(FLASH_BASE + RECORD, SECTOR);
      if !ok {
        return;
      }
      var offset := 0;
      assert pad[..0] == [];
      PutNone(port.flash, RECORD);
      while offset < s.recordBytes
        invariant Valid() && offset % WORD == 0 && offset < s.recordBytes + WORD
        invariant offset <= |pad|
        invariant port.ram == old(port.ram) && port.refused == old(port.refused)
        invariant port.flash == Put(Wiped(f0, RECORD, RECORD + SECTOR), RECORD, pad[..offset])
        invariant Unasked(port.asked, RECORD + offset, RECORD + |pad|)
        invariant SameBut(port.flash, f0, RECORD, RECORD + SECTOR)
        invariant |old(port.cuts)| <= |port.cuts|
        invariant port.cuts[..|old(port.cuts)|] == old(port.cuts)
        invariant forall k :: |old(port.cuts)| <= k < |port.cuts| ==>
                    SameBut(port.cuts[k], f0, RECORD, RECORD + SECTOR)
      {
        RecordReaches(s, offset);
        ok := ProgramRecordWord(f0, offset);
        if !ok {
          return;
        }
        offset := offset + WORD;
      }
      WordsDone(s.recordBytes, offset);
      assert pad[..offset] == pad;
      ok := true;
    }

    // -- the ops -----------------------------------------------------------------------------

    method HoldOp(session: nat)
      requires Valid()
      modifies this
      ensures Valid() && s == Hold(old(s), session)
    {
      if s.state == Blank {
        s := s.(state := Held);
      }
      s := s.(session := session);
    }

    method AssignOp(uid: seq<byte>, unit: nat, position: nat, flags: bv8) returns (a: Answer)
      requires Valid()
      modifies this
      ensures Valid() && (s, a) == Assign(old(s), layout, uid, unit, position, flags)
    {
      if uid != layout.uid {
        return Silent;
      }
      if unit == 0 || unit >= UNIT {
        return Refused;
      }
      s := s.(unit := unit, position := position, flags := flags, state := Assigned);
      a := Took;
    }

    /** Starts the books of a new image, complete or empty as `held` says. */
    method Take(size: nat, crc: bv32, chunks: nat, held: bool)
      requires Valid() && Fits(size, chunks)
      modifies this
      ensures Valid() && s == Offered(old(s), size, crc, chunks, held)
    {
      s := s.(size := size, crc := crc, chunks := chunks);
      s := s.(held := if held then chunks else 0);
      s := s.(bitmap := Filled(BITMAP_BYTES, if held then 0xFF else 0x00));
      s := s.(first := Filled(WORD, BLANK), firstHeld := false);
      s := s.(verified := held, recordBytes := 0);
      s := s.(state := if held then Verified else Erased);
    }

    method EraseOp(offer: byte, size: nat, crc: bv32, chunks: nat)
      requires Valid()
      modifies this, port
      ensures Valid() && port.flash == old(port.flash) && port.cuts == old(port.cuts)
      ensures port.refused == old(port.refused)
      ensures Landed(s, port.ram)
           == Offer(old(s), old(port.ram), port.flash, layout.kind, offer, size, crc, chunks)
    {
      hide StoreNames, ImageHeld, Copied, Wiped;
      if offer != layout.kind || Rank(s.state) < Rank(Assigned) {
        return;
      }
      if size > RUN_BYTES || chunks > MAX_CHUNKS || size < WORD || chunks != ChunksOf(size) {
        return;
      }
      var held := HoldsImage(size, crc);
      if held {
        Take(size, crc, chunks, true);
        return;
      }
      held := StoreHolds(size, crc);
      if held {
        var copied := ToRun(size);
        if copied {
          Take(size, crc, chunks, true);
          return;
        }
      }
      var ok := port.Erase(RUN_BASE, size);
      if !ok {
        return;
      }
      Take(size, crc, chunks, false);
    }

    ghost predicate ChunkSoFar(was: seq<byte>, before: Node, index: nat, pad: seq<byte>,
                               offset: nat)
      requires |was| == RUN_BYTES && index < MAX_CHUNKS && WORD <= |pad|
      reads this, port
    {
      SoFar(port.ram, s, was, before, index, pad, offset)
    }

    /** Writes a chunk where it belongs, keeping the image's first word back. */
    method ProgramChunk(index: nat, data: seq<byte>) returns (ok: bool)
      requires Valid() && index < MAX_CHUNKS && 0 < |data| <= CHUNK
      modifies this, port
      ensures Valid() && port.flash == old(port.flash) && port.cuts == old(port.cuts)
      ensures port.refused == old(port.refused)
      ensures ok == (Room(index, data) == Words(|data|))
      ensures port.ram == ChunkRam(old(port.ram), index, data)
      ensures s == if index == 0 then old(s).(first := Pad(data)[..WORD], firstHeld := true)
                   else old(s)
    {
      hide Put, Pad, Words, NodeOk, Filled;
      ghost var was, before, pad := port.ram, s, Pad(data);
      ChunkFits(index, data);
      PutNone(was, index * CHUNK);
      PutNone(was, index * CHUNK + WORD);
      var offset := 0;
      while offset < |data|
        invariant Valid() && offset % WORD == 0 && offset < |data| + WORD
        invariant port.flash == old(port.flash) && port.cuts == old(port.cuts)
        invariant port.refused == old(port.refused)
        invariant ChunkSoFar(was, before, index, pad, offset)
      {
        ok := ProgramNext(was, before, index, data, offset);
        if !ok {
          return;
        }
        offset := offset + WORD;
      }
      WordsDone(|data|, offset);
      ok := true;
    }

    /** A word into RAM, or past its end. */
    method ToRam(at: nat, word: seq<byte>) returns (ok: bool)
      requires Valid() && |word| == WORD && at % WORD == 0 && at <= RUN_BYTES
      modifies port
      ensures Valid() && port.flash == old(port.flash) && port.cuts == old(port.cuts)
      ensures port.refused == old(port.refused) && ok == (at < RUN_BYTES)
      ensures port.ram == if ok then Put(old(port.ram), at, word) else old(port.ram)
    {
      hide Put, NodeOk, AllBlank, Filled;
      assert Port.InRun(RUN_BASE + at) <==> at < RUN_BYTES;
      assert !Port.InFlash(RUN_BASE + at);
      hide *;
      ok := port.Program(RUN_BASE + at, word);
    }

    /** The chunk's next word: programmed, or RAM ends here. */
    method ProgramNext(ghost was: seq<byte>, ghost before: Node, index: nat, data: seq<byte>,
                       offset: nat) returns (ok: bool)
      requires Valid() && index < MAX_CHUNKS && 0 < |data| <= CHUNK && |was| == RUN_BYTES
      requires offset % WORD == 0 && offset < |data| && WORD <= |Pad(data)|
      requires ChunkSoFar(was, before, index, Pad(data), offset)
      modifies this, port
      ensures Valid() && port.flash == old(port.flash) && port.cuts == old(port.cuts)
      ensures port.refused == old(port.refused)
      ensures ok == (index * CHUNK + offset < RUN_BYTES)
      ensures ok ==> ChunkSoFar(was, before, index, Pad(data), offset + WORD)
      ensures !ok ==> ChunkSoFar(was, before, index, Pad(data), offset)
    {
      hide Put, Pad, Words, WordOf, NodeOk, Filled, SoFar, AllBlank;
      ChunkWord(data, offset);
      var word := WordOf(data, 0, offset, |data|);
      SoFarFits(port.ram, s, was, before, index, Pad(data), offset);
      if index == 0 && offset == 0 {
        FirstSoFar(port.ram, s, was, before, Pad(data));
        FirstNodeOk(s, word);
        s := s.(first := word, firstHeld := true);
        ok := true;
      } else {
        if index * CHUNK + offset < RUN_BYTES {
          NextSoFar(port.ram, s, was, before, index, Pad(data), offset);
        }
        ok := ToRam(index * CHUNK + offset, word);
      }
    }

    method ChunkOp(index: nat, data: seq<byte>)
      requires Valid()
      modifies this, port
      ensures Valid() && port.flash == old(port.flash) && port.cuts == old(port.cuts)
      ensures port.refused == old(port.refused)
      ensures Landed(s, port.ram) == Chunk(old(s), old(port.ram), index, data)
    {
      hide ChunkRam, Room, SetBit, Pad, Words;
      if s.state != Erased && s.state != Verified {
        s := s.(ignored := (s.ignored + 1) % 0x1_0000_0000);
        return;
      }
      if index >= s.chunks || |data| == 0 || |data| > CHUNK {
        s := s.(ignored := (s.ignored + 1) % 0x1_0000_0000);
        return;
      }
      BitmapCovers(s, index);
      if Bit(s.bitmap, index) {
        return;
      }
      var ok := ProgramChunk(index, data);
      if !ok {
        return;
      }
      s := s.(bitmap := SetBit(s.bitmap, index));
      s := s.(held := s.held + 1);
    }

    method VerifyOp() returns (ok: bool, crc: bv32)
      requires Valid()
      modifies this
      ensures Valid() && (s, ok, crc) == Verify(old(s), port.ram)
    {
      if Rank(s.state) < Rank(Erased) || s.held != s.chunks {
        return false, 0;
      }
      crc := ImageCrc(s.size);
      s := s.(verified := crc == s.crc);
      s := s.(state := if s.verified then Verified else s.state);
      ok := s.verified;
    }

    method RecordOp(offset: nat, data: seq<byte>) returns (took: bool)
      requires Valid()
      modifies this
      ensures Valid() && (s, took) == Record(old(s), offset, data)
    {
      if Rank(s.state) < Rank(Assigned) {
        return false;
      }
      if offset + |data| > RECORD_MAX {
        return false;
      }
      s := s.(record := Put(s.record, offset, data));
      if offset + |data| > s.recordBytes {
        s := s.(recordBytes := offset + |data|);
      }
      took := true;
    }

    /** The record into its sector, unless it stands there. */
    method SealRecord() returns (ok: bool)
      requires Valid()
      modifies port
      ensures Valid() && port.ram == old(port.ram) && port.refused == old(port.refused)
      ensures ok ==> port.flash == Recorded(s, old(port.flash))
      ensures SameBut(port.flash, old(port.flash), RECORD, RECORD + SECTOR)
      ensures |old(port.cuts)| <= |port.cuts| && port.cuts[..|old(port.cuts)|] == old(port.cuts)
      ensures forall k :: |old(port.cuts)| <= k < |port.cuts| ==>
                SameBut(port.cuts[k], old(port.flash), RECORD, RECORD + SECTOR)
    {
      hide RecordHeld, RecordProgrammed, SameBut, NodeOk;
      SameButNone(port.flash);
      ok := true;
      if s.recordBytes != 0 {
        var held := RecordStands();
        if !held {
          ok := ProgramRecord();
        }
      }
    }

    /** The word held back put in its place. */
    method PlaceFirst() returns (ok: bool)
      requires Valid()
      modifies this, port
      ensures Valid() && ok && s == old(s).(firstHeld := false)
      ensures port.ram == Completed(old(s), old(port.ram)) && port.flash == old(port.flash)
      ensures port.cuts == old(port.cuts) && port.refused == old(port.refused)
    {
      hide Put;
      CompletedIs(s, port.ram);
      ok := true;
      if s.firstHeld {
        ok := port.Program(RUN_BASE, s.first);
        if !ok {
          return;
        }
      }
      s := s.(firstHeld := false);
    }

    /** The record, the word held back, then - asked to persist - the store: every cut on the
        way leaves the store as it was, unsealed or whole, and no flash word is
        asked for twice between two erases of its sector. */
    method SealOp(flags: bv8) returns (took: bool)
      requires Valid()
      modifies this, port
      ensures Valid() && port.refused == old(port.refused)
      ensures SealStep(old(s), old(port.ram), old(port.flash), layout.kind, flags,
                       s, port.ram, port.flash, took)
      ensures |old(port.cuts)| <= |port.cuts| && port.cuts[..|old(port.cuts)|] == old(port.cuts)
      ensures forall k :: |old(port.cuts)| <= k < |port.cuts| ==>
                SealCuts(port.cuts[k], old(s), old(port.ram), old(port.flash), layout.kind)
    {
      hide StoreNames, Recorded, SealCuts, SealCut, PersistCut, Stored, Put, SameBut, Filled, U32,
           SealStep, Kept, Completed;
      ghost var n, ram, f0, kind := s, port.ram, port.flash, layout.kind;
      SealEndsIn(n, ram, f0, kind, flags);
      if !s.verified {
        return false;
      }
      RecordCuts(n, ram, f0, kind);
      var ok := SealRecord();
      if !ok {
        return false;
      }
      ok := PlaceFirst();
      if !ok {
        return false;
      }
      if Persisting(flags) {
        PersistCuts(n, s, ram, f0, port.flash, kind);
        StoredAlike(n, s, port.ram, port.flash, kind);
        ok := Persist();
        if !ok {
          return false;
        }
      }
      s := s.(runBytes := s.size, runCrc := s.crc);
      s := s.(state := Sealed);
      took := true;
    }

    method GoOp(session: nat)
      requires Valid()
      modifies this
      ensures Valid() && s == Go(old(s), port.ram, layout.kind, session)
    {
      if session != s.session || s.state != Sealed {
        return;
      }
      s := s.(go := AppValid(port.ram, layout.kind));
    }

    /** The gate at reset. */
    method Ready(handBytes: nat, handCrc: bv32) returns (ready: bool)
      requires Valid()
      modifies this, port
      ensures Valid() && port.flash == old(port.flash) && port.cuts == old(port.cuts)
      ensures port.refused == old(port.refused) && port.asked == old(port.asked)
      ensures Gated(ready, s, port.ram)
           == Gate(old(s), old(port.ram), port.flash, layout.kind, handBytes, handCrc)
    {
      hide ImageHeld, StoreNames, Copied;
      var bytes, crc := handBytes, handCrc;
      var held := false;
      if bytes != 0 {
        held := HoldsImage(bytes, crc);
      }
      if !held {
        var named := StoreSealed();
        if named == Nothing {
          return false;
        }
        bytes, crc := named.bytes, named.crc;
        var ok := ToRun(bytes);
        if !ok {
          return false;
        }
        held := HoldsImage(bytes, crc);
        if !held {
          return false;
        }
      }
      s := s.(runBytes := bytes, runCrc := crc);
      ready := true;
    }

    method HandOverOp(slot: Slot) returns (r: Slot)
      requires Valid()
      ensures r == HandOver(s, slot)
    {
      r := slot;
      if Rank(s.state) >= Rank(Assigned) {
        r := r.(unit := s.unit, position := s.position, flags := s.flags);
      } else if !slot.handed {
        r := r.(unit := 0, position := 0, flags := 0);
      }
      r := r.(handed := true, stay := false, bytes := s.runBytes, crc := s.runCrc);
    }
  }

  lemma CompletedIs(n: Node, ram: seq<byte>)
    requires |n.first| == WORD && |ram| == RUN_BYTES
    ensures Completed(n, ram) == if n.firstHeld then Put(ram, 0, n.first) else ram
  {
  }

  /** The ends a seal may come to, one by one. */
  lemma SealEndsIn(n: Node, ram: seq<byte>, f0: seq<byte>, kind: byte, flags: bv8)
    requires NodeOk(n) && |ram| == RUN_BYTES && |f0| == FLASH_BYTES
    ensures !n.verified ==> SealStep(n, ram, f0, kind, flags, n, ram, f0, false)
    ensures n.verified ==> forall f :: SameBut(f, f0, RECORD, RECORD + SECTOR) ==>
              SealStep(n, ram, f0, kind, flags, n, ram, f, false)
    ensures n.verified && Persisting(flags) ==>
              forall f :: SealCuts(f, n, ram, f0, kind) ==>
                SealStep(n, ram, f0, kind, flags, n.(firstHeld := false), Completed(n, ram), f,
                         false)
    ensures n.verified ==>
              var f := Recorded(n, f0);
              var kept := if Persisting(flags) && StoreNames(f, kind) != Image(n.size, n.crc)
                          then Stored(n, Completed(n, ram), f, kind) else f;
              SealStep(n, ram, f0, kind, flags,
                       n.(firstHeld := false, runBytes := n.size, runCrc := n.crc,
                          state := Sealed), Completed(n, ram), kept, true)
  {
    hide StoreNames, Recorded, SealCut, Stored, SameBut, Completed;
  }

  lemma StoredAlike(n: Node, m: Node, ram: seq<byte>, flash: seq<byte>, kind: byte)
    requires NodeOk(n) && Fits(n.size, n.chunks) && m == n.(firstHeld := false)
    requires |ram| == RUN_BYTES && |flash| == FLASH_BYTES
    ensures Stored(m, ram, flash, kind) == Stored(n, ram, flash, kind)
  {
    hide Put, Wiped, SealWord, Pad, SectorEnd;
  }

  lemma SameButNone(f0: seq<byte>)
    ensures SameBut(f0, f0, RECORD, RECORD + SECTOR)
  {
  }

  /** An erase of the store's sectors leaves none of its words asked for. */
  lemma StoreUnasked(asked: set<nat>, size: nat, room: nat)
    requires WORD <= size <= RUN_BYTES && room == Words(size)
    ensures var left := Outside(asked, SectorOf(STORE), SectorEnd(STORE, WORD + size));
            STORE !in left && Unasked(left, IMAGE, IMAGE + room)
  {
    assert IMAGE + room <= SectorEnd(STORE, WORD + size);
  }

  lemma RecordUnasked(asked: set<nat>, room: nat)
    requires room <= SECTOR
    ensures Unasked(Outside(asked, SectorOf(RECORD), SectorEnd(RECORD, SECTOR)), RECORD, RECORD + room)
  {
  }

  lemma RecordReaches(n: Node, offset: nat)
    requires NodeOk(n) && offset < n.recordBytes
    ensures offset < |RecordImage(n)|
  {
  }

  lemma PadReaches(data: seq<byte>, offset: nat)
    requires offset < |data|
    ensures offset < |Pad(data)|
  {
  }

  lemma RecordFits(n: Node)
    requires NodeOk(n)
    ensures |RecordImage(n)| == Words(n.recordBytes) <= RECORD_MAX
  {
  }

  lemma MatchMore(m: seq<byte>, at: nat, pad: seq<byte>, k: nat, e: nat)
    requires k <= e <= |pad| && at + |pad| <= |m|
    requires m[at..at + k] == pad[..k]
    ensures m[at + k..at + e] == pad[k..e] <==> m[at..at + e] == pad[..e]
    ensures m[at..at + |pad|] == pad ==> m[at + k..at + e] == pad[k..e]
  {
    assert m[at..at + e] == m[at..at + k] + m[at + k..at + e];
    assert pad[..e] == pad[..k] + pad[k..e];
    Slices(m, at, at + |pad|, k, e);
  }

  lemma RecordWiping(f0: seq<byte>)
    requires |f0| == FLASH_BYTES
    ensures SectorOf(RECORD) == RECORD && SectorEnd(RECORD, SECTOR) == RECORD + SECTOR
    ensures forall c :: Wiping(c, f0, RECORD, SECTOR) ==> SameBut(c, f0, RECORD, RECORD + SECTOR)
  {
  }

  lemma RecordWord(f0: seq<byte>, pad: seq<byte>, offset: nat)
    requires |f0| == FLASH_BYTES && |pad| <= RECORD_MAX && offset + WORD <= |pad|
    ensures var wiped := Wiped(f0, RECORD, RECORD + SECTOR);
            var f := Put(wiped, RECORD, pad[..offset]);
            && AllBlank(f, RECORD + offset, RECORD + offset + WORD)
            && Put(f, RECORD + offset, pad[offset..offset + WORD])
               == Put(wiped, RECORD, pad[..offset + WORD])
            && SameBut(f, f0, RECORD, RECORD + SECTOR)
            && forall w: seq<byte> :: |w| == WORD ==>
                 SameBut(Put(f, RECORD + offset, w), f0, RECORD, RECORD + SECTOR)
  {
    PutMore(Wiped(f0, RECORD, RECORD + SECTOR), RECORD, pad, offset, offset + WORD);
  }

  lemma BitmapCovers(n: Node, index: nat)
    requires NodeOk(n) && index < n.chunks
    ensures index < MAX_CHUNKS && index < 8 * |n.bitmap|
  {
  }

  lemma ChunkFits(index: nat, data: seq<byte>)
    requires index < MAX_CHUNKS && 0 < |data| <= CHUNK
    ensures index * CHUNK % WORD == 0 && index * CHUNK + WORD <= RUN_BYTES
    ensures |Pad(data)| == Words(|data|) && WORD <= |Pad(data)|
  {
  }

  /** What a chunk's words before `offset` have done to RAM and to the word held back. */
  ghost predicate SoFar(r: seq<byte>, n: Node, was: seq<byte>, before: Node, index: nat,
                        pad: seq<byte>, offset: nat)
    requires |was| == RUN_BYTES && index < MAX_CHUNKS && WORD <= |pad|
  {
    var skip := if index == 0 then WORD else 0;
    && offset <= |pad| && index * CHUNK + offset <= RUN_BYTES
    && index * CHUNK + skip <= RUN_BYTES
    && r == Put(was, index * CHUNK + skip, pad[skip..if offset < skip then skip else offset])
    && n == if index == 0 && 0 < offset
            then before.(first := pad[..WORD], firstHeld := true) else before
  }

  lemma SoFarFits(r: seq<byte>, n: Node, was: seq<byte>, before: Node, index: nat, pad: seq<byte>,
                  offset: nat)
    requires |was| == RUN_BYTES && index < MAX_CHUNKS && WORD <= |pad| && offset % WORD == 0
    requires SoFar(r, n, was, before, index, pad, offset)
    ensures index * CHUNK + offset <= RUN_BYTES && offset <= |pad|
    ensures (index * CHUNK + offset) % WORD == 0
    ensures index * CHUNK + offset < RUN_BYTES ==> index * CHUNK + offset + WORD <= RUN_BYTES
    ensures index == 0 && offset == 0 <==> index * CHUNK + offset == 0
  {
    hide Put;
  }

  lemma ChunkWord(data: seq<byte>, offset: nat)
    requires offset % WORD == 0 && offset < |data|
    ensures offset + WORD <= |Pad(data)|
    ensures WordOf(data, 0, offset, |data|) == Pad(data)[offset..offset + WORD]
  {
    WordOfPad(data, 0, offset, |data|);
    assert data[0..0 + |data|] == data;
  }

  lemma FirstNodeOk(n: Node, word: seq<byte>)
    requires NodeOk(n) && |word| == WORD
    ensures NodeOk(n.(first := word, firstHeld := true))
  {
  }

  lemma FirstSoFar(r: seq<byte>, n: Node, was: seq<byte>, before: Node, pad: seq<byte>)
    requires |was| == RUN_BYTES && WORD <= |pad| && SoFar(r, n, was, before, 0, pad, 0)
    ensures SoFar(r, n.(first := pad[..WORD], firstHeld := true), was, before, 0, pad, WORD)
  {
    hide Put;
  }

  lemma FirstNext(r: seq<byte>, n: Node, was: seq<byte>, before: Node, pad: seq<byte>, offset: nat)
    requires |was| == RUN_BYTES && WORD <= |pad| && SoFar(r, n, was, before, 0, pad, offset)
    requires offset % WORD == 0 && offset + WORD <= |pad| && offset != 0
    requires offset + WORD <= RUN_BYTES
    ensures offset <= |r|
    ensures SoFar(Put(r, offset, pad[offset..offset + WORD]), n, was, before, 0, pad, offset + WORD)
  {
    hide Put;
    assert WORD <= offset;
    ChunkMore(was, 0, pad, WORD, offset);
  }

  lemma OtherNext(r: seq<byte>, n: Node, was: seq<byte>, before: Node, index: nat, pad: seq<byte>,
                  offset: nat)
    requires |was| == RUN_BYTES && 0 < index < MAX_CHUNKS && WORD <= |pad|
    requires SoFar(r, n, was, before, index, pad, offset)
    requires offset % WORD == 0 && offset + WORD <= |pad|
    requires index * CHUNK + offset + WORD <= RUN_BYTES
    ensures index * CHUNK + offset <= |r|
    ensures SoFar(Put(r, index * CHUNK + offset, pad[offset..offset + WORD]), n, was, before, index,
                  pad, offset + WORD)
  {
    hide Put;
    ChunkMore(was, index * CHUNK, pad, 0, offset);
  }

  lemma NextSoFar(r: seq<byte>, n: Node, was: seq<byte>, before: Node, index: nat, pad: seq<byte>,
                  offset: nat)
    requires |was| == RUN_BYTES && index < MAX_CHUNKS && WORD <= |pad|
    requires SoFar(r, n, was, before, index, pad, offset)
    requires offset % WORD == 0 && offset + WORD <= |pad| && (index != 0 || offset != 0)
    requires index * CHUNK + offset + WORD <= RUN_BYTES
    ensures index * CHUNK + offset <= |r|
    ensures SoFar(Put(r, index * CHUNK + offset, pad[offset..offset + WORD]), n, was, before, index,
                  pad, offset + WORD)
  {
    hide Put;
    if index == 0 {
      FirstNext(r, n, was, before, pad, offset);
    } else {
      OtherNext(r, n, was, before, index, pad, offset);
    }
  }

  lemma ChunkMore(was: seq<byte>, at: nat, pad: seq<byte>, skip: nat, offset: nat)
    requires |was| == RUN_BYTES && skip <= offset && offset + WORD <= |pad|
    requires at % WORD == 0 && offset % WORD == 0 && at + offset < RUN_BYTES
    ensures at + offset + WORD <= |was|
    ensures Put(Put(was, at + skip, pad[skip..offset]), at + offset, pad[offset..offset + WORD])
         == Put(was, at + skip, pad[skip..offset + WORD])
  {
    var w := pad[skip..offset + WORD];
    assert w[..offset - skip] == pad[skip..offset];
    assert w[offset - skip..|w|] == pad[offset..offset + WORD];
    PutMore(was, at + skip, w, offset - skip, |w|);
    assert w[..|w|] == w;
  }

  /** A cut while the record is programmed moved the store not at all. */
  lemma RecordCuts(n: Node, ram: seq<byte>, f0: seq<byte>, kind: byte)
    requires NodeOk(n) && n.verified && |ram| == RUN_BYTES && |f0| == FLASH_BYTES
    ensures forall c :: SameBut(c, f0, RECORD, RECORD + SECTOR) ==> SealCuts(c, n, ram, f0, kind)
  {
    forall c | SameBut(c, f0, RECORD, RECORD + SECTOR)
      ensures SealCuts(c, n, ram, f0, kind)
    {
      assert c[STORE..RECORD] == f0[STORE..RECORD];
    }
  }

  /** A cut while the store is programmed, the record behind it. */
  lemma PersistCuts(n: Node, m: Node, ram: seq<byte>, f0: seq<byte>, f1: seq<byte>, kind: byte)
    requires NodeOk(n) && n.verified && m == n.(firstHeld := false)
    requires |ram| == RUN_BYTES && |f0| == FLASH_BYTES && |f1| == FLASH_BYTES
    requires SameBut(f1, f0, RECORD, RECORD + SECTOR)
    ensures forall c :: PersistCut(c, f1, m, Completed(n, ram), kind) ==>
              SealCuts(c, n, ram, f0, kind)
  {
    hide PersistCut, SealCut, Completed, SameBut;
    forall c | PersistCut(c, f1, m, Completed(n, ram), kind)
      ensures SealCuts(c, n, ram, f0, kind)
    {
      PersistCutSeals(c, n, m, ram, f0, f1, kind);
    }
  }

  lemma PersistCutSeals(c: seq<byte>, n: Node, m: Node, ram: seq<byte>, f0: seq<byte>,
                        f1: seq<byte>, kind: byte)
    requires NodeOk(n) && Fits(n.size, n.chunks) && m == n.(firstHeld := false)
    requires |ram| == RUN_BYTES && |f0| == FLASH_BYTES && |f1| == FLASH_BYTES
    requires SameBut(f1, f0, RECORD, RECORD + SECTOR)
    requires PersistCut(c, f1, m, Completed(n, ram), kind)
    ensures SealCut(c, n, ram, f0, kind)
  {
    hide Completed, SealWord, U32;
    assert f1[STORE..RECORD] == f0[STORE..RECORD];
  }

  lemma WordsFit(size: nat)
    requires size <= RUN_BYTES
    ensures Words(size) <= RUN_BYTES
  {
  }

  lemma CopiedOver(ram: seq<byte>, flash: seq<byte>, size: nat)
    requires |ram| == RUN_BYTES && |flash| == FLASH_BYTES && size <= RUN_BYTES
    ensures Put(Wiped(ram, 0, Words(size)), 0, Pad(flash[IMAGE..IMAGE + size]))
         == Copied(ram, flash, size)
  {
    WordsFit(size);
    PutOver(ram, 0, Filled(Words(size), BLANK), Pad(flash[IMAGE..IMAGE + size]));
  }

  // -- the store, one step at a time ---------------------------------------------------------

  /** The flash at a cut anywhere in a persist: as it was, unsealed, or whole. */
  ghost predicate PersistCut(c: seq<byte>, f0: seq<byte>, n: Node, ram: seq<byte>, kind: byte)
    requires NodeOk(n) && Fits(n.size, n.chunks) && |ram| == RUN_BYTES && |f0| == FLASH_BYTES
  {
    SameBut(c, f0, STORE, RECORD) && (c == f0 || Unsealed(c) || StoreHas(c, n, ram, kind))
  }

  lemma PersistCutNone(f0: seq<byte>, n: Node, ram: seq<byte>, kind: byte)
    requires NodeOk(n) && Fits(n.size, n.chunks) && |ram| == RUN_BYTES && |f0| == FLASH_BYTES
    ensures PersistCut(f0, f0, n, ram, kind)
  {
  }

  lemma PersistFits(size: nat)
    requires WORD <= size <= RUN_BYTES
    ensures SectorOf(STORE) == STORE
    ensures IMAGE + Words(size) <= SectorEnd(STORE, WORD + size) <= RECORD
  {
  }

  lemma BlankUnsealed(c: seq<byte>)
    requires |c| == FLASH_BYTES && AllBlank(c, STORE, IMAGE)
    ensures Unsealed(c)
  {
  }

  lemma ZerosUnsealed(c: seq<byte>)
    requires |c| == FLASH_BYTES && c[STORE] == 0 && c[STORE + 1] == 0
    ensures Unsealed(c)
  {
  }

  /** Anything that moved only the store and left its first word erased may be cut. */
  lemma BlankCut(c: seq<byte>, f0: seq<byte>, n: Node, ram: seq<byte>, kind: byte)
    requires NodeOk(n) && Fits(n.size, n.chunks) && |ram| == RUN_BYTES && |f0| == FLASH_BYTES
    requires SameBut(c, f0, STORE, RECORD) && AllBlank(c, STORE, IMAGE)
    ensures PersistCut(c, f0, n, ram, kind)
  {
    BlankUnsealed(c);
  }

  lemma PersistWiping(f0: seq<byte>, n: Node, ram: seq<byte>, kind: byte)
    requires NodeOk(n) && Fits(n.size, n.chunks) && |ram| == RUN_BYTES && |f0| == FLASH_BYTES
    ensures forall c :: Wiping(c, f0, STORE, WORD + n.size) ==> PersistCut(c, f0, n, ram, kind)
  {
    forall c | Wiping(c, f0, STORE, WORD + n.size)
      ensures PersistCut(c, f0, n, ram, kind)
    {
      PersistFits(n.size);
      if c != f0 {
        BlankCut(c, f0, n, ram, kind);
      }
    }
  }

  function WipedStore(f0: seq<byte>, size: nat): (r: seq<byte>)
    requires |f0| == FLASH_BYTES && WORD <= size <= RUN_BYTES
    ensures |r| == FLASH_BYTES
  {
    Wiped(f0, STORE, SectorEnd(STORE, WORD + size))
  }

  lemma WipedStoreIs(f0: seq<byte>, size: nat)
    requires |f0| == FLASH_BYTES && WORD <= size <= RUN_BYTES
    ensures WipedStore(f0, size) == Wiped(f0, SectorOf(STORE), SectorEnd(STORE, WORD + size))
  {
  }

  /** One word of the image onto the wiped store: erased before, and whatever the step leaves
      may be cut. */
  lemma PersistWord(f0: seq<byte>, n: Node, ram: seq<byte>, kind: byte, offset: nat)
    requires NodeOk(n) && Fits(n.size, n.chunks) && |ram| == RUN_BYTES && |f0| == FLASH_BYTES
    requires offset % WORD == 0 && offset + WORD <= |Pad(ram[..n.size])|
    ensures IMAGE + |Pad(ram[..n.size])| <= RECORD
    ensures var pad := Pad(ram[..n.size]);
            var f := Put(WipedStore(f0, n.size), IMAGE, pad[..offset]);
            && AllBlank(f, IMAGE + offset, IMAGE + offset + WORD)
            && Put(f, IMAGE + offset, pad[offset..offset + WORD])
               == Put(WipedStore(f0, n.size), IMAGE, pad[..offset + WORD])
            && PersistCut(f, f0, n, ram, kind)
            && forall w: seq<byte> :: |w| == WORD ==>
                 PersistCut(Put(f, IMAGE + offset, w), f0, n, ram, kind)
  {
    hide WipedStore, Words, Pad, PersistCut, NodeOk;
    var pad, wiped := Pad(ram[..n.size]), WipedStore(f0, n.size);
    WipedStoreBlank(f0, n.size);
    var f := Put(wiped, IMAGE, pad[..offset]);
    PutMore(wiped, IMAGE, pad, offset, offset + WORD);
    BlankCut(f, f0, n, ram, kind);
    forall w: seq<byte> | |w| == WORD
      ensures PersistCut(Put(f, IMAGE + offset, w), f0, n, ram, kind)
    {
      BlankCut(Put(f, IMAGE + offset, w), f0, n, ram, kind);
    }
  }

  lemma WipedStoreBlank(f0: seq<byte>, size: nat)
    requires |f0| == FLASH_BYTES && WORD <= size <= RUN_BYTES
    ensures SameBut(WipedStore(f0, size), f0, STORE, RECORD)
    ensures IMAGE + Words(size) <= RECORD
    ensures AllBlank(WipedStore(f0, size), STORE, IMAGE + Words(size))
  {
    PersistFits(size);
  }

  /** The seal's word over a store with the whole image behind it: whatever the step leaves
      may be cut. */
  lemma SealOver(f: seq<byte>, f0: seq<byte>, n: Node, ram: seq<byte>, kind: byte)
    requires NodeOk(n) && Fits(n.size, n.chunks) && |ram| == RUN_BYTES && |f0| == FLASH_BYTES
    requires SameBut(f, f0, STORE, RECORD) && AllBlank(f, STORE, IMAGE)
    requires f[IMAGE..IMAGE + n.size] == ram[..n.size]
    ensures PersistCut(f, f0, n, ram, kind)
    ensures PersistCut(Put(f, STORE, Filled(WORD, 0)), f0, n, ram, kind)
    ensures PersistCut(Put(f, STORE, SealWord(n.size, n.crc, kind)), f0, n, ram, kind)
  {
    hide U32, SealWord;
    BlankCut(f, f0, n, ram, kind);
    ZerosUnsealed(Put(f, STORE, Filled(WORD, 0)));
    var c := Put(f, STORE, SealWord(n.size, n.crc, kind));
    assert c[STORE..IMAGE] == SealWord(n.size, n.crc, kind);
    assert c[IMAGE..IMAGE + n.size] == f[IMAGE..IMAGE + n.size];
  }

  lemma ImageBehind(f0: seq<byte>, img: seq<byte>)
    requires |f0| == FLASH_BYTES && WORD <= |img| <= RUN_BYTES
    ensures IMAGE + |Pad(img)| <= RECORD
    ensures var f := Put(WipedStore(f0, |img|), IMAGE, Pad(img));
            && SameBut(f, f0, STORE, RECORD) && AllBlank(f, STORE, IMAGE)
            && f[IMAGE..IMAGE + |img|] == img
  {
    WipedStoreBlank(f0, |img|);
    var pad := Pad(img);
    hide WipedStore, Words, Pad;
    var f := Put(WipedStore(f0, |img|), IMAGE, pad);
    assert f[IMAGE..IMAGE + |img|] == pad[..|img|];
  }

  lemma StoredIs(f0: seq<byte>, n: Node, ram: seq<byte>, kind: byte)
    requires NodeOk(n) && Fits(n.size, n.chunks) && |ram| == RUN_BYTES && |f0| == FLASH_BYTES
    requires IMAGE + |Pad(ram[..n.size])| <= RECORD
    ensures Put(Put(WipedStore(f0, n.size), IMAGE, Pad(ram[..n.size])), STORE,
                SealWord(n.size, n.crc, kind))
         == Stored(n, ram, f0, kind)
  {
    hide Put, Pad, SealWord;
  }

  /** The seal onto the whole image: erased before, and whatever the step leaves may be cut. */
  lemma PersistSeal(f0: seq<byte>, n: Node, ram: seq<byte>, kind: byte)
    requires NodeOk(n) && Fits(n.size, n.chunks) && |ram| == RUN_BYTES && |f0| == FLASH_BYTES
    ensures IMAGE + |Pad(ram[..n.size])| <= RECORD
    ensures var f := Put(WipedStore(f0, n.size), IMAGE, Pad(ram[..n.size]));
            && AllBlank(f, STORE, STORE + WORD)
            && PersistCut(f, f0, n, ram, kind)
            && PersistCut(Put(f, STORE, Filled(WORD, 0)), f0, n, ram, kind)
            && PersistCut(Put(f, STORE, SealWord(n.size, n.crc, kind)), f0, n, ram, kind)
            && Put(f, STORE, SealWord(n.size, n.crc, kind)) == Stored(n, ram, f0, kind)
  {
    hide WipedStore, Words, Pad, Stored, Put, SameBut, AllBlank, SealWord, PersistCut, Filled;
    ImageBehind(f0, ram[..n.size]);
    StoredIs(f0, n, ram, kind);
    SealOver(Put(WipedStore(f0, n.size), IMAGE, Pad(ram[..n.size])), f0, n, ram, kind);
  }
}
