/** The bootloader's node as a value, and what each op makes of it: closed forms of what the
    handlers do with loops over words. */
module BootNode {
  import opened Bytes
  import opened Checksum
  import opened BootPort

  const CHUNK: nat := 224
  const MAX_CHUNKS: nat := (RUN_BYTES + CHUNK - 1) / CHUNK
  const BITMAP_BYTES: nat := (MAX_CHUNKS + 7) / 8
  const RECORD_MAX: nat := 2048
  const HEADER: nat := 0x400
  const HEADER_MAGIC: nat := 0x5041_5843
  const SEAL_MAGIC: nat := 0x4C41_4553
  const STACK_BASE: nat := 0x2000_0000
  const STACK_BYTES: nat := 0x2_0000
  const UNIT: nat := 247

  datatype State = Blank | Held | Assigned | Erased | Verified | Sealed

  function Rank(s: State): nat {
    match s
    case Blank => 0
    case Held => 1
    case Assigned => 2
    case Erased => 3
    case Verified => 4
    case Sealed => 5
  }

  datatype Node = Node(
    state: State, session: nat, unit: nat, position: nat, flags: bv8,
    size: nat, crc: bv32, chunks: nat, held: nat, bitmap: seq<byte>,
    first: seq<byte>, firstHeld: bool, record: seq<byte>, recordBytes: nat,
    verified: bool, go: bool, ignored: nat, runBytes: nat, runCrc: bv32)

  /** What this board is: its type and its unique id. */
  datatype Layout = Layout(kind: byte, uid: seq<byte>)

  const INITIAL := Node(
    Blank, 0, UNIT, 0, 0, 0, 0, 0, 0, Filled(BITMAP_BYTES, 0), Filled(WORD, BLANK), false,
    Filled(RECORD_MAX, 0), 0, false, false, 0, 0, 0)

  function ChunksOf(size: nat): nat {
    (size + CHUNK - 1) / CHUNK
  }

  predicate Fits(size: nat, chunks: nat) {
    WORD <= size <= RUN_BYTES && chunks == ChunksOf(size)
  }

  /** The arrays' lengths, and no image or one that fits. */
  predicate NodeOk(n: Node) {
    && |n.bitmap| == BITMAP_BYTES && |n.first| == WORD
    && |n.record| == RECORD_MAX && n.recordBytes <= RECORD_MAX
    && (Fits(n.size, n.chunks)
        || (n.size == 0 && n.chunks == 0 && !n.verified && Rank(n.state) < Rank(Erased)))
  }

  // -- the bitmap ----------------------------------------------------------------------------

  function Mask(k: nat): byte
    requires k < 8
  {
    match k
    case 0 => 0x01 case 1 => 0x02 case 2 => 0x04 case 3 => 0x08
    case 4 => 0x10 case 5 => 0x20 case 6 => 0x40 case _ => 0x80
  }

  predicate Has(b: byte, k: nat)
    requires k < 8
  {
    b & Mask(k) != 0
  }

  function With(b: byte, k: nat): byte
    requires k < 8
  {
    b | Mask(k)
  }

  predicate Bit(bitmap: seq<byte>, i: nat)
    requires i < 8 * |bitmap|
  {
    Has(bitmap[i / 8], i % 8)
  }

  function SetBit(bitmap: seq<byte>, i: nat): (r: seq<byte>)
    requires i < 8 * |bitmap|
    ensures |r| == |bitmap|
  {
    bitmap[i / 8 := With(bitmap[i / 8], i % 8)]
  }

  lemma HasWith(b: byte, j: nat, k: nat)
    requires j < 8 && k < 8
    ensures Has(With(b, j), k) <==> (j == k || Has(b, k))
  {
  }

  lemma HasConstant(k: nat)
    requires k < 8
    ensures Has(0xFF, k) && !Has(0, k)
  {
  }

  lemma BitOfSet(bitmap: seq<byte>, i: nat, j: nat)
    requires i < 8 * |bitmap| && j < 8 * |bitmap|
    ensures Bit(SetBit(bitmap, i), j) <==> (i == j || Bit(bitmap, j))
  {
    hide Has, With;
    HasWith(bitmap[i / 8], i % 8, j % 8);
  }

  lemma BitOfFilled(n: nat, j: nat)
    requires j < 8 * n
    ensures Bit(Filled(n, 0xFF), j) && !Bit(Filled(n, 0), j)
  {
    HasConstant(j % 8);
  }

  // -- images --------------------------------------------------------------------------------

  /** What makes the bytes from `at` on a plausible image: stack, reset vector, magic and kind, and
      a size in range. Its addresses are RAM's wherever it lies. */
  predicate ShapeOk(mem: seq<byte>, at: nat, kind: byte)
    requires at + HEADER + 16 <= |mem|
  {
    var stack, reset := U32(mem, at), U32(mem, at + 4);
    var magic, size := U32(mem, at + HEADER), U32(mem, at + HEADER + 4);
    var kindThere := U32(mem, at + HEADER + 12);
    && STACK_BASE < stack <= STACK_BASE + STACK_BYTES
    && reset % 2 == 1 && RUN_BASE < reset < RUN_BASE + RUN_BYTES
    && magic == HEADER_MAGIC && kindThere == kind as nat
    && HEADER < size <= RUN_BYTES
  }

  predicate AppValid(ram: seq<byte>, kind: byte)
    requires |ram| == RUN_BYTES
  {
    ShapeOk(ram, 0, kind)
  }

  /** An image's bytes once it is complete: those in RAM, behind the word kept back if there is
      one. */
  function ImageOf(n: Node, ram: seq<byte>, size: nat): (r: seq<byte>)
    requires |n.first| == WORD && |ram| == RUN_BYTES && WORD <= size <= RUN_BYTES
    ensures |r| == size
  {
    (if n.firstHeld then n.first else ram[..WORD]) + ram[WORD..size]
  }

  predicate ImageHeld(n: Node, ram: seq<byte>, kind: byte, size: nat, crc: bv32)
    requires |n.first| == WORD && |ram| == RUN_BYTES
  {
    AppValid(ram, kind) && U32(ram, HEADER + 4) == size && Crc(ImageOf(n, ram, size)) == crc
  }

  datatype Named = Nothing | Image(bytes: nat, crc: bv32)

  /** The image a seal vouches for, if magic, kind, size, shape and sum all hold. */
  function StoreNames(flash: seq<byte>, kind: byte): (r: Named)
    requires |flash| == FLASH_BYTES
    ensures r.Image? ==> HEADER < r.bytes <= RUN_BYTES
  {
    var size, sum := U32(flash, STORE + 4), Crc32At(flash, STORE + 8);
    if U32(flash, STORE) != SEAL_MAGIC || U32(flash, STORE + 12) != kind as nat
       || size <= HEADER || size > RUN_BYTES
       || !ShapeOk(flash, IMAGE, kind) || Crc(flash[IMAGE..IMAGE + size]) != sum
    then Nothing
    else Image(size, sum)
  }

  function SealWord(size: nat, crc: bv32, kind: byte): (r: seq<byte>)
    requires size <= RUN_BYTES
    ensures |r| == WORD
  {
    U32Bytes(SEAL_MAGIC) + U32Bytes(size) + CrcBytes(crc) + U32Bytes(kind as nat)
      + Filled(16, BLANK)
  }

  /** RAM after the store's copy of `size` bytes is moved there. */
  function Copied(ram: seq<byte>, flash: seq<byte>, size: nat): (r: seq<byte>)
    requires |ram| == RUN_BYTES && |flash| == FLASH_BYTES && size <= RUN_BYTES
    ensures |r| == RUN_BYTES
  {
    Put(ram, 0, Pad(flash[IMAGE..IMAGE + size]))
  }

  // -- the ops -------------------------------------------------------------------------------

  /** A node and the RAM beside it. */
  datatype Landed = Landed(node: Node, ram: seq<byte>)

  function Hold(n: Node, session: nat): Node {
    n.(state := if n.state == Blank then Held else n.state, session := session)
  }

  datatype Answer = Silent | Took | Refused

  function Assign(n: Node, layout: Layout, uid: seq<byte>, unit: nat, position: nat, flags: bv8)
    : (Node, Answer)
  {
    if uid != layout.uid then (n, Silent)
    else if unit == 0 || unit >= UNIT then (n, Refused)
    else (n.(unit := unit, position := position, flags := flags, state := Assigned), Took)
  }

  function Offered(n: Node, size: nat, crc: bv32, chunks: nat, held: bool): Node {
    n.(size := size, crc := crc, chunks := chunks, held := if held then chunks else 0,
       bitmap := Filled(BITMAP_BYTES, if held then 0xFF else 0),
       first := Filled(WORD, BLANK), firstHeld := false, verified := held, recordBytes := 0,
       state := if held then Verified else Erased)
  }

  predicate OfferHeard(n: Node, kind: byte, offer: byte, size: nat, chunks: nat) {
    offer == kind && Rank(n.state) >= Rank(Assigned) && chunks <= MAX_CHUNKS && Fits(size, chunks)
  }

  function Offer(n: Node, ram: seq<byte>, flash: seq<byte>, kind: byte,
                 offer: byte, size: nat, crc: bv32, chunks: nat): Landed
    requires NodeOk(n) && |ram| == RUN_BYTES && |flash| == FLASH_BYTES
  {
    if !OfferHeard(n, kind, offer, size, chunks) then Landed(n, ram)
    else if ImageHeld(n, ram, kind, size, crc) then
      Landed(Offered(n, size, crc, chunks, true), ram)
    else if StoreNames(flash, kind) == Image(size, crc) then
      Landed(Offered(n, size, crc, chunks, true), Copied(ram, flash, size))
    else
      Landed(Offered(n, size, crc, chunks, false), Wiped(ram, 0, Words(size)))
  }

  predicate ChunkHeard(n: Node, index: nat, data: seq<byte>) {
    (n.state == Erased || n.state == Verified) && index < n.chunks && 0 < |data| <= CHUNK
  }

  /** How many of a chunk's padded bytes RAM has room for. */
  function Room(index: nat, data: seq<byte>): nat
    requires index < MAX_CHUNKS
  {
    if index * CHUNK + Words(|data|) <= RUN_BYTES then Words(|data|)
    else RUN_BYTES - index * CHUNK
  }

  /** RAM with a chunk's whole words in it but for the image's first, which is held back, and
      what lies past RAM's end. */
  function ChunkRam(ram: seq<byte>, index: nat, data: seq<byte>): (r: seq<byte>)
    requires |ram| == RUN_BYTES && index < MAX_CHUNKS && 0 < |data| <= CHUNK
    ensures |r| == RUN_BYTES
  {
    var skip := if index == 0 then WORD else 0;
    Put(ram, index * CHUNK + skip, Pad(data)[skip..Room(index, data)])
  }

  function Chunk(n: Node, ram: seq<byte>, index: nat, data: seq<byte>): Landed
    requires NodeOk(n) && |ram| == RUN_BYTES
  {
    if !ChunkHeard(n, index, data) then
      Landed(n.(ignored := (n.ignored + 1) % 0x1_0000_0000), ram)
    else if Bit(n.bitmap, index) then Landed(n, ram)
    else
      var m := if index == 0 then n.(first := Pad(data)[..WORD], firstHeld := true) else n;
      Landed(if Room(index, data) == Words(|data|)
             then m.(bitmap := SetBit(n.bitmap, index), held := n.held + 1) else m,
             ChunkRam(ram, index, data))
  }

  function Verify(n: Node, ram: seq<byte>): (Node, bool, bv32)
    requires NodeOk(n) && |ram| == RUN_BYTES
  {
    if Rank(n.state) < Rank(Erased) || n.held != n.chunks then (n, false, 0)
    else
      var crc := Crc(ImageOf(n, ram, n.size));
      var ok := crc == n.crc;
      (n.(verified := ok, state := if ok then Verified else n.state), ok, crc)
  }

  function Record(n: Node, offset: nat, data: seq<byte>): (Node, bool)
    requires NodeOk(n)
  {
    if Rank(n.state) < Rank(Assigned) || offset + |data| > RECORD_MAX then (n, false)
    else
      (n.(record := Put(n.record, offset, data),
          recordBytes := if offset + |data| > n.recordBytes then offset + |data|
                         else n.recordBytes), true)
  }

  function Go(n: Node, ram: seq<byte>, kind: byte, session: nat): Node
    requires |ram| == RUN_BYTES
  {
    if session != n.session || n.state != Sealed then n else n.(go := AppValid(ram, kind))
  }

  // -- seal ----------------------------------------------------------------------------------

  /** The record as its sector holds it, padded to whole words. */
  function RecordImage(n: Node): (r: seq<byte>)
    requires NodeOk(n)
    ensures |r| <= RECORD_MAX
  {
    Pad(n.record[..n.recordBytes])
  }

  predicate RecordHeld(n: Node, flash: seq<byte>)
    requires NodeOk(n) && |flash| == FLASH_BYTES
  {
    flash[RECORD..RECORD + |RecordImage(n)|] == RecordImage(n)
  }

  function RecordProgrammed(n: Node, flash: seq<byte>): seq<byte>
    requires NodeOk(n) && |flash| == FLASH_BYTES
  {
    Put(Wiped(flash, RECORD, RECORD + SECTOR), RECORD, RecordImage(n))
  }

  /** The flash once RAM's image is in the store, its seal in front. */
  function Stored(n: Node, ram: seq<byte>, flash: seq<byte>, kind: byte): (r: seq<byte>)
    requires NodeOk(n) && Fits(n.size, n.chunks)
    requires |ram| == RUN_BYTES && |flash| == FLASH_BYTES
    ensures |r| == FLASH_BYTES
  {
    var wiped := Wiped(flash, STORE, SectorEnd(STORE, WORD + n.size));
    Put(Put(wiped, IMAGE, Pad(ram[..n.size])), STORE, SealWord(n.size, n.crc, kind))
  }

  ghost predicate Unsealed(flash: seq<byte>)
    requires |flash| == FLASH_BYTES
  {
    U32(flash, STORE) != SEAL_MAGIC
  }

  /** The store whole: the seal of `n`'s image, and RAM's bytes of it behind. */
  ghost predicate StoreHas(c: seq<byte>, n: Node, ram: seq<byte>, kind: byte)
    requires NodeOk(n) && Fits(n.size, n.chunks) && |ram| == RUN_BYTES && |c| == FLASH_BYTES
  {
    && c[STORE..IMAGE] == SealWord(n.size, n.crc, kind)
    && c[IMAGE..IMAGE + n.size] == ram[..n.size]
  }

  /** RAM with the word held back put in its place. */
  function Completed(n: Node, ram: seq<byte>): (r: seq<byte>)
    requires |n.first| == WORD && |ram| == RUN_BYTES
    ensures |r| == RUN_BYTES
  {
    if n.firstHeld then Put(ram, 0, n.first) else ram
  }

  /** The flash at a cut anywhere in a seal that began over `flash`: outside the store and the
      record nothing moved, and the store is as it was, unsealed, or whole. */
  ghost predicate SealCut(c: seq<byte>, n: Node, ram: seq<byte>, flash: seq<byte>, kind: byte)
    requires NodeOk(n) && Fits(n.size, n.chunks) && |ram| == RUN_BYTES && |flash| == FLASH_BYTES
  {
    && SameBut(c, flash, STORE, RECORD + SECTOR)
    && (c[STORE..RECORD] == flash[STORE..RECORD] || Unsealed(c)
        || StoreHas(c, n, Completed(n, ram), kind))
  }

  /** A cut a seal may be stopped at: only a verified node's seal gets as far as the flash. */
  ghost predicate SealCuts(c: seq<byte>, n: Node, ram: seq<byte>, flash: seq<byte>, kind: byte)
    requires NodeOk(n) && |ram| == RUN_BYTES && |flash| == FLASH_BYTES
  {
    n.verified && SealCut(c, n, ram, flash, kind)
  }

  function Recorded(n: Node, flash: seq<byte>): (r: seq<byte>)
    requires NodeOk(n) && |flash| == FLASH_BYTES
    ensures |r| == FLASH_BYTES
  {
    if n.recordBytes != 0 && !RecordHeld(n, flash) then RecordProgrammed(n, flash) else flash
  }

  predicate Persisting(flags: bv8) {
    flags & 1 != 0
  }

  /** What a seal that took leaves in the flash. */
  function Kept(n: Node, ram: seq<byte>, flash: seq<byte>, kind: byte, flags: bv8): (r: seq<byte>)
    requires NodeOk(n) && Fits(n.size, n.chunks) && |ram| == RUN_BYTES && |flash| == FLASH_BYTES
    ensures |r| == FLASH_BYTES
  {
    var f := Recorded(n, flash);
    if Persisting(flags) && StoreNames(f, kind) != Image(n.size, n.crc)
    then Stored(n, Completed(n, ram), f, kind) else f
  }

  /** Every end a seal may come to. */
  ghost predicate SealStep(n: Node, ram: seq<byte>, flash: seq<byte>, kind: byte, flags: bv8,
                           n': Node, ram': seq<byte>, flash': seq<byte>, took: bool)
    requires NodeOk(n) && |ram| == RUN_BYTES && |flash| == FLASH_BYTES
  {
    if !n.verified then !took && n' == n && ram' == ram && flash' == flash
    else if took then
      && n' == n.(firstHeld := false, runBytes := n.size, runCrc := n.crc, state := Sealed)
      && ram' == Completed(n, ram)
      && flash' == Kept(n, ram, flash, kind, flags)
    else
      || (n' == n && ram' == ram && SameBut(flash', flash, RECORD, RECORD + SECTOR))
      || (Persisting(flags) && n' == n.(firstHeld := false) && ram' == Completed(n, ram)
          && SealCut(flash', n, ram, flash, kind))
  }

  // -- the gate at reset ---------------------------------------------------------------------

  datatype Gated = Gated(ready: bool, node: Node, ram: seq<byte>)

  /** What a reset leaves to run: an image RAM has kept and the slot describes, else the stored one
      once it is copied and holds there. */
  function Gate(n: Node, ram: seq<byte>, flash: seq<byte>, kind: byte, bytes: nat, crc: bv32)
    : (r: Gated)
    requires NodeOk(n) && |ram| == RUN_BYTES && |flash| == FLASH_BYTES
    ensures |r.ram| == RUN_BYTES
  {
    if bytes != 0 && ImageHeld(n, ram, kind, bytes, crc) then
      Gated(true, n.(runBytes := bytes, runCrc := crc), ram)
    else
      match StoreNames(flash, kind)
      case Nothing => Gated(false, n, ram)
      case Image(b, c) =>
        var copied := Copied(ram, flash, b);
        if ImageHeld(n, copied, kind, b, c)
        then Gated(true, n.(runBytes := b, runCrc := c), copied)
        else Gated(false, n, copied)
  }

  /** The slot the application finds. */
  datatype Slot = Slot(handed: bool, stay: bool, unit: nat, position: nat, flags: bv8,
                       bytes: nat, crc: bv32)

  function HandOver(n: Node, slot: Slot): Slot {
    var own := Slot(true, false, n.unit, n.position, n.flags, n.runBytes, n.runCrc);
    if Rank(n.state) >= Rank(Assigned) then own
    else if slot.handed then own.(unit := slot.unit, position := slot.position, flags := slot.flags)
    else own.(unit := 0, position := 0, flags := 0)
  }
}
