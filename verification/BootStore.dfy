/** What a cold boot finds, wherever the supply was cut. */
module BootStore {
  import opened Bytes
  import opened Checksum
  import opened BootPort
  import opened BootNode
  import opened BootRuns

  /** An image the gate lets run: the four tests, and a header that names its size. */
  predicate Bootable(img: seq<byte>, kind: byte) {
    && HEADER < |img| <= RUN_BYTES
    && ShapeOk(Pad(img), 0, kind) && U32(Pad(img), HEADER + 4) == |img|
  }

  datatype Found = Nobody | Boots(image: seq<byte>)

  /** What runs after power is applied and nobody calls: nothing but the flash decides it. */
  function Cold(flash: seq<byte>, kind: byte): Found
    requires |flash| == FLASH_BYTES
  {
    match StoreNames(flash, kind)
    case Nothing => Nobody
    case Image(size, _) =>
      var img := flash[IMAGE..IMAGE + size];
      if Bootable(img, kind) then Boots(img) else Nobody
  }

  lemma WordAlike(a: seq<byte>, i: nat, b: seq<byte>, j: nat)
    requires i + 4 <= |a| && j + 4 <= |b| && a[i..i + 4] == b[j..j + 4]
    ensures U32(a, i) == U32(b, j) && Crc32At(a, i) == Crc32At(b, j)
  {
    hide Number, Register;
    var s, t := a[i..i + 4], b[j..j + 4];
    assert s[0] == a[i] && s[1] == a[i + 1] && s[2] == a[i + 2] && s[3] == a[i + 3];
    assert t[0] == b[j] && t[1] == b[j + 1] && t[2] == b[j + 2] && t[3] == b[j + 3];
  }

  /** The word `k` bytes into two stretches alike. */
  lemma FieldAlike(a: seq<byte>, i: nat, b: seq<byte>, j: nat, n: nat, k: nat)
    requires i + n <= |a| && j + n <= |b| && a[i..i + n] == b[j..j + n] && k + 4 <= n
    ensures U32(a, i + k) == U32(b, j + k) && Crc32At(a, i + k) == Crc32At(b, j + k)
  {
    Slices(a, i, i + n, k, k + 4);
    Slices(b, j, j + n, k, k + 4);
    WordAlike(a, i + k, b, j + k);
  }

  const SHAPE: nat := HEADER + 16

  lemma ShapeAlike(a: seq<byte>, i: nat, b: seq<byte>, j: nat, kind: byte)
    requires i + SHAPE <= |a| && j + SHAPE <= |b| && a[i..i + SHAPE] == b[j..j + SHAPE]
    ensures ShapeOk(a, i, kind) == ShapeOk(b, j, kind)
    ensures U32(a, i + (HEADER + 4)) == U32(b, j + (HEADER + 4))
  {
    hide U32;
    FieldAlike(a, i, b, j, SHAPE, 0);
    FieldAlike(a, i, b, j, SHAPE, 4);
    FieldAlike(a, i, b, j, SHAPE, HEADER);
    FieldAlike(a, i, b, j, SHAPE, HEADER + 4);
    FieldAlike(a, i, b, j, SHAPE, HEADER + 12);
  }

  /** The gate with no slot to go by: it runs the store's image, whatever RAM held. */
  lemma ColdGate(ram: seq<byte>, flash: seq<byte>, kind: byte)
    requires |ram| == RUN_BYTES && |flash| == FLASH_BYTES
    ensures var g := Gate(INITIAL, ram, flash, kind, 0, 0);
            && (g.ready <==> Cold(flash, kind).Boots?)
            && (g.ready ==>
                  var img := Cold(flash, kind).image;
                  && |img| <= RUN_BYTES && g.ram[..|img|] == img
                  && g.node.runBytes == |img| && g.node.runCrc == Crc(img))
  {
    hide StoreNames, Copied, ShapeOk, U32, Pad, Crc, Put, Filled;
    match StoreNames(flash, kind)
    case Nothing =>
    case Image(size, crc) =>
      var img := flash[IMAGE..IMAGE + size];
      StoreSums(flash, kind, size, crc);
      CopiedImage(ram, flash, size);
      CopiedShape(ram, flash, kind, size);
      ImageInRam(INITIAL, Copied(ram, flash, size), size);
  }

  lemma CopiedShape(ram: seq<byte>, flash: seq<byte>, kind: byte, size: nat)
    requires |ram| == RUN_BYTES && |flash| == FLASH_BYTES && HEADER < size <= RUN_BYTES
    ensures |Pad(flash[IMAGE..IMAGE + size])| >= SHAPE
    ensures var pad := Pad(flash[IMAGE..IMAGE + size]);
            && ShapeOk(Copied(ram, flash, size), 0, kind) == ShapeOk(pad, 0, kind)
            && U32(Copied(ram, flash, size), HEADER + 4) == U32(pad, HEADER + 4)
  {
    var pad := Pad(flash[IMAGE..IMAGE + size]);
    var c := Copied(ram, flash, size);
    assert c[0..0 + SHAPE] == pad[0..0 + SHAPE];
    hide ShapeOk, U32, Pad, Copied;
    ShapeAlike(c, 0, pad, 0, kind);
  }

  /** A flash alike from the store's start to the record's names and boots the same. */
  lemma StoreAlike(c: seq<byte>, f: seq<byte>, kind: byte)
    requires |c| == FLASH_BYTES && |f| == FLASH_BYTES && c[STORE..RECORD] == f[STORE..RECORD]
    ensures StoreNames(c, kind) == StoreNames(f, kind) && Cold(c, kind) == Cold(f, kind)
    ensures Unsealed(c) <==> Unsealed(f)
  {
    hide U32, Crc32At, ShapeOk, Crc, Bootable;
    var n := RECORD - STORE;
    FieldAlike(c, STORE, f, STORE, n, 0);
    FieldAlike(c, STORE, f, STORE, n, 4);
    FieldAlike(c, STORE, f, STORE, n, 8);
    FieldAlike(c, STORE, f, STORE, n, 12);
    Slices(c, STORE, RECORD, WORD, WORD + SHAPE);
    Slices(f, STORE, RECORD, WORD, WORD + SHAPE);
    ShapeAlike(c, IMAGE, f, IMAGE, kind);
    var size := U32(f, STORE + 4);
    if size <= RUN_BYTES {
      Slices(c, STORE, RECORD, WORD, WORD + size);
      Slices(f, STORE, RECORD, WORD, WORD + size);
    }
  }

  lemma WordReads(c: seq<byte>, size: nat, crc: bv32, kind: byte)
    requires |c| == FLASH_BYTES && size <= RUN_BYTES
    requires c[STORE..IMAGE] == SealWord(size, crc, kind)
    ensures U32(c, STORE) == SEAL_MAGIC && U32(c, STORE + 4) == size
    ensures Crc32At(c, STORE + 8) == crc && U32(c, STORE + 12) == kind as nat
  {
    hide SealWord, U32, Crc32At;
    var w := SealWord(size, crc, kind);
    WordHolds(size, crc, kind);
    assert w[0..0 + WORD] == w;
    FieldAlike(c, STORE, w, 0, WORD, 0);
    FieldAlike(c, STORE, w, 0, WORD, 4);
    FieldAlike(c, STORE, w, 0, WORD, 8);
    FieldAlike(c, STORE, w, 0, WORD, 12);
  }

  lemma WordHolds(size: nat, crc: bv32, kind: byte)
    requires size <= RUN_BYTES
    ensures var w := SealWord(size, crc, kind);
            U32(w, 0) == SEAL_MAGIC && U32(w, 4) == size && Crc32At(w, 8) == crc
            && U32(w, 12) == kind as nat
  {
    hide U32Bytes, CrcBytes, U32, Crc32At;
    var w := SealWord(size, crc, kind);
    assert w[0..4] == U32Bytes(SEAL_MAGIC) == U32Bytes(SEAL_MAGIC)[0..4];
    assert w[4..8] == U32Bytes(size) == U32Bytes(size)[0..4];
    assert w[8..12] == CrcBytes(crc) == CrcBytes(crc)[0..4];
    assert w[12..16] == U32Bytes(kind as nat) == U32Bytes(kind as nat)[0..4];
    U32OfBytes(SEAL_MAGIC);
    U32OfBytes(size);
    U32OfBytes(kind as nat);
    WordAlike(w, 0, U32Bytes(SEAL_MAGIC), 0);
    WordAlike(w, 4, U32Bytes(size), 0);
    WordAlike(w, 8, CrcBytes(crc), 0);
    WordAlike(w, 12, U32Bytes(kind as nat), 0);
  }

  // -- the supply cut ------------------------------------------------------------------------

  /** A store whole with an image boots that image or, where its shape or its sum is wrong,
      nothing. */
  lemma WholeBoots(c: seq<byte>, n: Node, ram: seq<byte>, kind: byte)
    requires NodeOk(n) && Fits(n.size, n.chunks) && |ram| == RUN_BYTES && |c| == FLASH_BYTES
    requires StoreHas(c, n, ram, kind)
    ensures Cold(c, kind) == Nobody || Cold(c, kind) == Boots(ram[..n.size])
  {
    hide SealWord, ShapeOk, U32, Crc32At, Crc, Bootable;
    WordReads(c, n.size, n.crc, kind);
  }

  /** Wherever a seal was cut, a cold boot finds the image there was, the one being kept, or
      nothing - no checksum needed to tell: a store that reads sealed is this seal's whole copy, or
      as it was. */
  lemma CutBoots(c: seq<byte>, n: Node, ram: seq<byte>, flash: seq<byte>, kind: byte)
    requires NodeOk(n) && Fits(n.size, n.chunks) && |ram| == RUN_BYTES && |flash| == FLASH_BYTES
    requires SealCut(c, n, ram, flash, kind)
    ensures |c| == FLASH_BYTES
    ensures Cold(c, kind) == Nobody || Cold(c, kind) == Cold(flash, kind)
         || Cold(c, kind) == Boots(ImageOf(n, ram, n.size))
    ensures Unsealed(c) || StoreHas(c, n, Completed(n, ram), kind)
         || (!Unsealed(flash) && c[STORE..RECORD] == flash[STORE..RECORD])
  {
    hide U32, Completed, ImageOf, ShapeOk, Crc, Bootable, StoreHas;
    ImageCompleted(n, ram, n.size);
    if c[STORE..RECORD] == flash[STORE..RECORD] {
      StoreAlike(c, flash, kind);
    } else if StoreHas(c, n, Completed(n, ram), kind) {
      WholeBoots(c, n, Completed(n, ram), kind);
    }
  }

  /** A flash the persist made whole. */
  lemma StoredHas(n: Node, ram: seq<byte>, flash: seq<byte>, kind: byte)
    requires NodeOk(n) && Fits(n.size, n.chunks) && |ram| == RUN_BYTES && |flash| == FLASH_BYTES
    ensures var c := Stored(n, ram, flash, kind);
            && StoreHas(c, n, ram, kind)
            && IMAGE + |Pad(ram[..n.size])| <= FLASH_BYTES
            && c[IMAGE..IMAGE + |Pad(ram[..n.size])|] == Pad(ram[..n.size])
  {
    hide SealWord;
    var c, pad := Stored(n, ram, flash, kind), Pad(ram[..n.size]);
    assert c[IMAGE..IMAGE + n.size] == pad[..n.size];
  }

  /** Sealed and kept, an image boots cold byte for byte exactly when it is bootable: its four
      tests pass and its header names its size. */
  lemma StoredBoots(n: Node, ram: seq<byte>, flash: seq<byte>, kind: byte)
    requires NodeOk(n) && Fits(n.size, n.chunks) && |ram| == RUN_BYTES && |flash| == FLASH_BYTES
    requires Crc(ram[..n.size]) == n.crc
    ensures Cold(Stored(n, ram, flash, kind), kind)
         == if Bootable(ram[..n.size], kind) then Boots(ram[..n.size]) else Nobody
  {
    hide Stored, SealWord, U32, Crc32At, Crc, ShapeOk, Pad;
    var c, img := Stored(n, ram, flash, kind), ram[..n.size];
    StoredHas(n, ram, flash, kind);
    WordReads(c, n.size, n.crc, kind);
    if HEADER < n.size {
      PadShape(c, img, kind);
    }
  }

  lemma PadShape(c: seq<byte>, img: seq<byte>, kind: byte)
    requires HEADER < |img| && IMAGE + |Pad(img)| <= |c| == FLASH_BYTES
    requires c[IMAGE..IMAGE + |Pad(img)|] == Pad(img)
    ensures |Pad(img)| >= SHAPE && ShapeOk(c, IMAGE, kind) == ShapeOk(Pad(img), 0, kind)
  {
    hide ShapeOk;
    var pad := Pad(img);
    Slices(c, IMAGE, IMAGE + |pad|, 0, SHAPE);
    ShapeAlike(c, IMAGE, pad, 0, kind);
  }

  lemma RecordedAlike(n: Node, flash: seq<byte>)
    requires NodeOk(n) && |flash| == FLASH_BYTES
    ensures Recorded(n, flash)[STORE..RECORD] == flash[STORE..RECORD]
  {
    hide RecordHeld, RecordImage;
    var r := Recorded(n, flash);
    assert forall i :: STORE <= i < RECORD ==> r[i] == flash[i];
  }

  /** A persist asked for and taken: from here on a cold boot runs RAM's image byte for byte, if
      it is bootable - unless the store already named an image of its size and sum, which then
      stays. */
  lemma KeptBoots(n: Node, ram: seq<byte>, flash: seq<byte>, kind: byte, flags: bv8)
    requires NodeOk(n) && |ram| == RUN_BYTES && |flash| == FLASH_BYTES && Whole(n, ram)
    requires flags & 1 != 0
    ensures var img := ImageOf(n, ram, n.size);
            Cold(Kept(n, ram, flash, kind, flags), kind)
            == if StoreNames(flash, kind) == Image(n.size, n.crc) then Cold(flash, kind)
               else if Bootable(img, kind) then Boots(img) else Nobody
  {
    hide Recorded, Stored, StoreNames, Cold, Bootable, ImageOf, Crc, Completed;
    RecordedAlike(n, flash);
    StoreAlike(Recorded(n, flash), flash, kind);
    ImageCompleted(n, ram, n.size);
    StoredBoots(n, Completed(n, ram), Recorded(n, flash), kind);
  }

  // -- whole runs ----------------------------------------------------------------------------

  /** One step's cold boot: what it was, nothing, or the image of a node that had verified it. */
  ghost predicate Descends(a: Sys, b: Sys, kind: byte)
    requires Shaped(a) && |b.flash| == FLASH_BYTES
  {
    || Cold(b.flash, kind) == Nobody
    || Cold(b.flash, kind) == Cold(a.flash, kind)
    || (a.node.verified && Whole(a.node, a.ram)
        && Cold(b.flash, kind) == Boots(ImageOf(a.node, a.ram, a.node.size)))
  }

  lemma SealDescends(a: Sys, layout: Layout, flags: bv8, b: Sys)
    requires Inv(a, layout) && SealEnds(a, layout, flags, b)
    ensures |b.flash| == FLASH_BYTES && Descends(a, b, layout.kind)
  {
    var n, kind := a.node, layout.kind;
    hide Recorded, Stored, Cold, SealCut, SameBut, Completed, ImageOf, Bootable, StoreNames, Crc,
         AppValid, Count;
    if n.verified {
      assert Whole(n, a.ram);
      if b.flash == Kept(n, a.ram, a.flash, kind, flags) {
        if Persisting(flags) {
          hide Kept, Whole;
          KeptBoots(n, a.ram, a.flash, kind, flags);
        } else {
          RecordedAlike(n, a.flash);
          StoreAlike(b.flash, a.flash, kind);
        }
      } else if SealCut(b.flash, n, a.ram, a.flash, kind) {
        CutBoots(b.flash, n, a.ram, a.flash, kind);
      } else {
        RecordCutAlike(b.flash, a.flash);
        StoreAlike(b.flash, a.flash, kind);
      }
    }
  }

  lemma RecordCutAlike(c: seq<byte>, f: seq<byte>)
    requires |f| == FLASH_BYTES && SameBut(c, f, RECORD, RECORD + SECTOR)
    ensures |c| == FLASH_BYTES && c[STORE..RECORD] == f[STORE..RECORD]
  {
  }

  lemma StepDescends(a: Sys, layout: Layout, e: Event, b: Sys)
    requires Inv(a, layout) && Step(a, layout, e, b)
    ensures |b.flash| == FLASH_BYTES && Descends(a, b, layout.kind)
  {
    hide Cold, SealCut, ImageOf, StoreNames, Crc, AppValid, Count, SealStep, Gate, Offer, Chunk,
         Verify, Record, Go, Hold, Assign;
    match e
    case Seals(flags) => SealDescends(a, layout, flags, b);
    case Resets(bytes, crc) =>
      if b.flash != a.flash {
        CutBoots(b.flash, a.node, a.ram, a.flash, layout.kind);
      }
    case _ =>
  }

  /** In any run, with the supply cut anywhere, whatever a cold boot finds at its end is what
      it would have found at its start, or an image some node of the run had verified: every
      chunk of it landed and its sum the one offered. */
  lemma {:induction false} RunBoots(states: seq<Sys>, layout: Layout, events: seq<Event>, k: nat)
    requires Run(states, layout, events) && k < |states| && Inv(states[0], layout)
    ensures |states[k].flash| == FLASH_BYTES && |states[0].flash| == FLASH_BYTES
    ensures var found := Cold(states[k].flash, layout.kind);
            || found == Nobody || found == Cold(states[0].flash, layout.kind)
            || exists i :: 0 <= i < k && Shaped(states[i]) && states[i].node.verified
                 && Whole(states[i].node, states[i].ram)
                 && found == Boots(ImageOf(states[i].node, states[i].ram, states[i].node.size))
  {
    hide Inv, Step, Cold, ImageOf, Whole;
    if k == 0 {
      InvShaped(states[0], layout);
    } else {
      RunBoots(states, layout, events, k - 1);
      RunKeeps(states, layout, events, k - 1);
      StepDescends(states[k - 1], layout, events[k - 1], states[k]);
    }
  }

  lemma InvShaped(s: Sys, layout: Layout)
    requires Inv(s, layout)
    ensures Shaped(s)
  {
  }

  // ---- whose bytes a seal stands over ----

  /** The store a seal word stands over is one node's whole image: every byte of it that node's
      RAM, the word held back in place, and the node's chunks and sum complete. */
  ghost predicate SealedBy(flash: seq<byte>, a: Sys, kind: byte) {
    && Shaped(a) && |flash| == FLASH_BYTES && a.node.verified && Whole(a.node, a.ram)
    && StoreHas(flash, a.node, Completed(a.node, a.ram), kind)
  }

  /** One step's store: unsealed, what it was, or the whole image of the node that stepped. */
  ghost predicate Owed(a: Sys, b: Sys, kind: byte)
    requires Shaped(a) && |b.flash| == FLASH_BYTES
  {
    || Unsealed(b.flash)
    || b.flash[STORE..RECORD] == a.flash[STORE..RECORD]
    || SealedBy(b.flash, a, kind)
  }

  /** What a seal that took keeps is what was there or the image whole. */
  lemma KeptOwed(n: Node, ram: seq<byte>, flash: seq<byte>, kind: byte, flags: bv8)
    requires NodeOk(n) && Fits(n.size, n.chunks) && |ram| == RUN_BYTES && |flash| == FLASH_BYTES
    ensures var c := Kept(n, ram, flash, kind, flags);
            c[STORE..RECORD] == flash[STORE..RECORD] || StoreHas(c, n, Completed(n, ram), kind)
  {
    hide Recorded, Stored, StoreNames, Completed, StoreHas;
    RecordedAlike(n, flash);
    StoredHas(n, Completed(n, ram), Recorded(n, flash), kind);
  }

  lemma CutSize(c: seq<byte>, n: Node, ram: seq<byte>, flash: seq<byte>, kind: byte)
    requires NodeOk(n) && Fits(n.size, n.chunks) && |ram| == RUN_BYTES && |flash| == FLASH_BYTES
    requires SealCut(c, n, ram, flash, kind)
    ensures |c| == FLASH_BYTES
  {
  }

  lemma SealOwed(a: Sys, layout: Layout, flags: bv8, b: Sys)
    requires Inv(a, layout) && SealEnds(a, layout, flags, b)
    ensures |b.flash| == FLASH_BYTES && Owed(a, b, layout.kind)
  {
    var n, kind := a.node, layout.kind;
    hide Recorded, Stored, SameBut, Completed, StoreNames, StoreHas, Crc, AppValid, Count, Kept,
         Unsealed, ImageOf;
    if n.verified {
      assert Whole(n, a.ram);
      if b.flash == Kept(n, a.ram, a.flash, kind, flags) {
        KeptOwed(n, a.ram, a.flash, kind, flags);
      } else if SealCut(b.flash, n, a.ram, a.flash, kind) {
        CutSize(b.flash, n, a.ram, a.flash, kind);
      } else {
        RecordCutAlike(b.flash, a.flash);
      }
    }
  }

  lemma StepOwed(a: Sys, layout: Layout, e: Event, b: Sys)
    requires Inv(a, layout) && Step(a, layout, e, b)
    ensures |b.flash| == FLASH_BYTES && Owed(a, b, layout.kind)
  {
    hide ImageOf, StoreNames, Crc, AppValid, Count, SealStep, Gate, Offer, Chunk, Verify, Record,
         Go, Hold, Assign, StoreHas, Completed, Unsealed;
    match e
    case Seals(flags) => SealOwed(a, layout, flags, b);
    case Resets(bytes, crc) =>
      if b.flash != a.flash {
        assert a.node.verified && Whole(a.node, a.ram);
      }
    case _ =>
  }

  /** In every run, the supply cut between any two port steps and flash steps failing where they
      will, the seal word reads its magic only over the store the run began with, untouched, or
      over one whole image: that of the node whose persist wrote it, verified when it did. No sum
      is asked to tell. */
  lemma {:induction false} RunSealed(states: seq<Sys>, layout: Layout, events: seq<Event>, k: nat)
    requires Run(states, layout, events) && k < |states| && Inv(states[0], layout)
    ensures |states[k].flash| == FLASH_BYTES && |states[0].flash| == FLASH_BYTES
    ensures || Unsealed(states[k].flash)
            || states[k].flash[STORE..RECORD] == states[0].flash[STORE..RECORD]
            || exists i :: 0 <= i < k && SealedBy(states[k].flash, states[i], layout.kind)
  {
    hide Inv, Step, Whole, StoreHas, Completed, Unsealed;
    if k == 0 {
      InvShaped(states[0], layout);
    } else {
      RunSealed(states, layout, events, k - 1);
      RunKeeps(states, layout, events, k - 1);
      StepOwed(states[k - 1], layout, events[k - 1], states[k]);
      var a, b := states[k - 1].flash, states[k].flash;
      if b[STORE..RECORD] == a[STORE..RECORD] {
        StoreAlike(b, a, layout.kind);
        forall i | 0 <= i < k - 1 && SealedBy(a, states[i], layout.kind)
          ensures SealedBy(b, states[i], layout.kind)
        {
          HasAlike(b, a, states[i].node, Completed(states[i].node, states[i].ram), layout.kind);
        }
      }
    }
  }

  lemma HasAlike(c: seq<byte>, f: seq<byte>, n: Node, ram: seq<byte>, kind: byte)
    requires NodeOk(n) && Fits(n.size, n.chunks) && |ram| == RUN_BYTES
    requires |c| == FLASH_BYTES && |f| == FLASH_BYTES && c[STORE..RECORD] == f[STORE..RECORD]
    requires StoreHas(f, n, ram, kind)
    ensures StoreHas(c, n, ram, kind)
  {
    hide SealWord;
    Slices(c, STORE, RECORD, 0, IMAGE - STORE);
    Slices(f, STORE, RECORD, 0, IMAGE - STORE);
    Slices(c, STORE, RECORD, IMAGE - STORE, IMAGE - STORE + n.size);
    Slices(f, STORE, RECORD, IMAGE - STORE, IMAGE - STORE + n.size);
  }

  /** A sealed store's own sum holds: begun unsealed, no run ever leaves a seal over bytes that do
      not sum to what it names. */
  lemma RunSums(states: seq<Sys>, layout: Layout, events: seq<Event>, k: nat)
    requires Run(states, layout, events) && k < |states| && Inv(states[0], layout)
    requires |states[0].flash| == FLASH_BYTES && Unsealed(states[0].flash)
    ensures |states[k].flash| == FLASH_BYTES
    ensures var c := states[k].flash;
            Unsealed(c)
            || (U32(c, STORE + 4) <= RUN_BYTES && IMAGE + U32(c, STORE + 4) <= FLASH_BYTES
                && Crc(c[IMAGE..IMAGE + U32(c, STORE + 4)]) == Crc32At(c, STORE + 8))
  {
    hide Inv, Step, Whole, StoreHas, Completed, Crc, U32, Crc32At, ImageOf;
    RunSealed(states, layout, events, k);
    var c := states[k].flash;
    if !Unsealed(c) {
      if c[STORE..RECORD] == states[0].flash[STORE..RECORD] {
        StoreAlike(c, states[0].flash, layout.kind);
      } else {
        var i :| 0 <= i < k && SealedBy(c, states[i], layout.kind);
        SealSums(c, states[i], layout.kind);
      }
    }
  }

  lemma SealSums(c: seq<byte>, a: Sys, kind: byte)
    requires SealedBy(c, a, kind)
    ensures |c| == FLASH_BYTES && U32(c, STORE + 4) <= RUN_BYTES
    ensures IMAGE + U32(c, STORE + 4) <= FLASH_BYTES
    ensures Crc(c[IMAGE..IMAGE + U32(c, STORE + 4)]) == Crc32At(c, STORE + 8)
  {
    hide U32, Crc32At, Crc, Completed, ImageOf, Count, Bit, AllSet, SealWord;
    var n := a.node;
    WordReads(c, n.size, n.crc, kind);
    ImageCompleted(n, a.ram, n.size);
  }
}
