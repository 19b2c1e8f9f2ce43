/** The bootloader's memories and its port: RAM where the image runs, flash by the sector and
    the 256-bit word, each flash step free to fail. */
module BootPort {
  import opened Bytes

  const WORD: nat := 32
  const RUN_BASE: nat := 0x3000_0000
  const RUN_BYTES: nat := 0x4_8000
  const FLASH_BASE: nat := 0x0800_0000
  const FLASH_BYTES: nat := 0x20_0000
  const SECTOR: nat := 0x2_0000
  /** Where the store and the record start, from the flash's base. */
  const STORE: nat := 0x2_0000
  const IMAGE: nat := STORE + WORD
  const RECORD: nat := 0x1E_0000

  const BLANK: byte := 0xFF

  function Filled(n: nat, b: byte): (r: seq<byte>)
    ensures |r| == n && forall i :: 0 <= i < n ==> r[i] == b
  {
    seq(n, _ => b)
  }

  /** Whole words' worth of bytes. */
  function Words(n: nat): (r: nat)
    ensures n <= r < n + WORD && r % WORD == 0
  {
    (n + WORD - 1) / WORD * WORD
  }

  /** `s`, then 0xFF to the last word's end. */
  function Pad(s: seq<byte>): (r: seq<byte>)
    ensures |r| == Words(|s|) && r[..|s|] == s
    ensures forall i :: |s| <= i < |r| ==> r[i] == BLANK
  {
    s + Filled(Words(|s|) - |s|, BLANK)
  }

  /** `mem` with `w` written at `at`. */
  function Put(mem: seq<byte>, at: nat, w: seq<byte>): (r: seq<byte>)
    requires at + |w| <= |mem|
    ensures |r| == |mem|
    ensures forall i :: 0 <= i < |mem| ==> r[i] == if at <= i < at + |w| then w[i - at] else mem[i]
  {
    mem[..at] + w + mem[at + |w|..]
  }

  function Wiped(mem: seq<byte>, from: nat, to: nat): seq<byte>
    requires from <= to <= |mem|
  {
    Put(mem, from, Filled(to - from, BLANK))
  }

  lemma Slices(m: seq<byte>, a: nat, b: nat, i: nat, j: nat)
    requires i <= j && a + j <= b <= |m|
    ensures m[a..b][i..j] == m[a + i..a + j]
  {
    var l, r := m[a..b][i..j], m[a + i..a + j];
    forall k | 0 <= k < j - i
      ensures l[k] == r[k]
    {
      assert l[k] == m[a..b][i + k] == m[a + (i + k)];
    }
  }

  ghost predicate AllBlank(mem: seq<byte>, from: nat, to: nat)
    requires from <= to <= |mem|
  {
    forall i :: from <= i < to ==> mem[i] == BLANK
  }

  /** Alike but for what lies in from..to. */
  ghost predicate SameBut(a: seq<byte>, b: seq<byte>, from: nat, to: nat) {
    |a| == |b| && forall i :: 0 <= i < |a| && !(from <= i < to) ==> a[i] == b[i]
  }

  function SectorOf(at: nat): (r: nat)
    ensures r <= at < r + SECTOR && r % SECTOR == 0
  {
    at / SECTOR * SECTOR
  }

  /** Where the sectors a range touches end. */
  function SectorEnd(at: nat, bytes: nat): (r: nat)
    requires bytes > 0
    ensures at + bytes <= r && r % SECTOR == 0
    ensures at + bytes <= FLASH_BYTES ==> r <= FLASH_BYTES
    ensures SectorOf(at) < r
  {
    SectorOf(at + bytes - 1) + SECTOR
  }

  /** `f` after an erase of the range from `f0` was stopped anywhere: nothing outside its
      sectors moved, and it is as it was or its first sector is erased. */
  ghost predicate Wiping(f: seq<byte>, f0: seq<byte>, at: nat, bytes: nat)
    requires bytes > 0 && |f0| == FLASH_BYTES && at + bytes <= FLASH_BYTES
  {
    && SameBut(f, f0, SectorOf(at), SectorEnd(at, bytes))
    && (f == f0 || AllBlank(f, SectorOf(at), SectorOf(at) + SECTOR))
  }

  lemma WipedNone(was: seq<byte>, from: nat, bytes: nat)
    requires |was| == FLASH_BYTES && bytes > 0 && from + bytes <= FLASH_BYTES
    ensures Wiped(was, SectorOf(from), SectorOf(from)) == was && Wiping(was, was, from, bytes)
  {
  }

  lemma SectorsLeft(from: nat, bytes: nat, at: nat)
    requires bytes > 0 && at % SECTOR == 0 && at < from + bytes
    ensures at < SectorEnd(from, bytes) && at + SECTOR <= SectorEnd(from, bytes)
  {
  }

  lemma SectorsDone(from: nat, bytes: nat, at: nat)
    requires bytes > 0 && at % SECTOR == 0 && from + bytes <= at <= SectorEnd(from, bytes)
    ensures at == SectorEnd(from, bytes)
  {
  }

  lemma WipedMore(was: seq<byte>, from: nat, bytes: nat, at: nat)
    requires |was| == FLASH_BYTES && bytes > 0 && from + bytes <= FLASH_BYTES
    requires at % SECTOR == 0 && SectorOf(from) <= at < SectorEnd(from, bytes)
    ensures at + SECTOR <= SectorEnd(from, bytes)
    ensures Wiped(Wiped(was, SectorOf(from), at), at, at + SECTOR)
         == Wiped(was, SectorOf(from), at + SECTOR)
    ensures Wiping(Wiped(was, SectorOf(from), at + SECTOR), was, from, bytes)
  {
  }

  lemma BlankReads(flash: seq<byte>, at: nat)
    requires at + WORD <= |flash|
    ensures flash[at..at + WORD] == Filled(WORD, BLANK) <==> AllBlank(flash, at, at + WORD)
  {
    assert forall i :: at <= i < at + WORD ==> flash[i] == flash[at..at + WORD][i - at];
  }

  /** The words asked for outside a stretch. */
  ghost function Outside(asked: set<nat>, from: nat, to: nat): set<nat> {
    set a | a in asked && !(from <= a < to)
  }

  /** No word of a stretch asked for. */
  ghost predicate Unasked(asked: set<nat>, from: nat, to: nat) {
    forall a :: a in asked ==> !(from <= a < to)
  }

  lemma OutsideMore(asked: set<nat>, from: nat, at: nat, to: nat)
    requires from <= at <= to
    ensures Outside(Outside(asked, from, at), at, to) == Outside(asked, from, to)
    ensures Outside(asked, from, from) == asked
  {
  }

  /** The hardware the core sees as erase, program and read. A flash step may fail: a sector is
      then as it was or erased, a word as it was, written, or torn - which reads as zeros. */
  class Port {
    var ram: seq<byte>
    var flash: seq<byte>
    /** The flash after each step on it: where the supply may be cut. */
    ghost var cuts: seq<seq<byte>>
    /** Flash words asked for since their sector was last erased, taken or not. */
    ghost var asked: set<nat>
    /** Flash words asked for that did not read erased, or were asked for already. */
    ghost var refused: nat

    ghost predicate Valid()
      reads this
    {
      |ram| == RUN_BYTES && |flash| == FLASH_BYTES
    }

    static predicate InRun(address: nat) {
      RUN_BASE <= address < RUN_BASE + RUN_BYTES
    }

    static predicate InFlash(address: nat) {
      FLASH_BASE <= address < FLASH_BASE + FLASH_BYTES
    }

    method SectorErase(at: nat) returns (ok: bool)
      requires Valid() && at % SECTOR == 0 && at + SECTOR <= FLASH_BYTES
      modifies this`flash, this`cuts, this`asked
      ensures Valid()
      ensures || (!ok && flash == old(flash) && asked == old(asked))
              || (flash == Wiped(old(flash), at, at + SECTOR)
                  && asked == Outside(old(asked), at, at + SECTOR))
      ensures cuts == old(cuts) + [flash]
    {
      ok := *;
      var wiped: bool := *;
      if ok || wiped {
        flash := Wiped(flash, at, at + SECTOR);
        asked := Outside(asked, at, at + SECTOR);
      }
      cuts := cuts + [flash];
    }

    /** Every sector the range touches, the lowest first: whenever it stops, the flash is as it
        was or its first sector is gone. */
    method FlashErase(address: nat, bytes: nat) returns (ok: bool)
      requires Valid() && bytes > 0
      requires FLASH_BASE <= address && address + bytes <= FLASH_BASE + FLASH_BYTES
      modifies this`flash, this`cuts, this`asked
      ensures Valid()
      ensures ok ==> flash == Wiped(old(flash), SectorOf(address - FLASH_BASE),
                                    SectorEnd(address - FLASH_BASE, bytes))
      ensures ok ==> asked == Outside(old(asked), SectorOf(address - FLASH_BASE),
                                      SectorEnd(address - FLASH_BASE, bytes))
      ensures Wiping(flash, old(flash), address - FLASH_BASE, bytes)
      ensures |old(cuts)| <= |cuts| && cuts[..|old(cuts)|] == old(cuts)
      ensures forall k :: |old(cuts)| <= k < |cuts| ==>
                Wiping(cuts[k], old(flash), address - FLASH_BASE, bytes)
    {
      hide Wiped, Wiping, SectorOf, SectorEnd, Outside;
      var from := address - FLASH_BASE;
      var end := SectorEnd(from, bytes);
      var at := SectorOf(from);
      ghost var was, before := flash, asked;
      WipedNone(was, from, bytes);
      OutsideMore(before, at, at, at);
      while at < from + bytes
        invariant Valid() && at % SECTOR == 0
        invariant SectorOf(from) <= at <= end
        invariant flash == Wiped(was, SectorOf(from), at) && Wiping(flash, was, from, bytes)
        invariant asked == Outside(before, SectorOf(from), at)
        invariant |old(cuts)| <= |cuts| && cuts[..|old(cuts)|] == old(cuts)
        invariant forall k :: |old(cuts)| <= k < |cuts| ==> Wiping(cuts[k], was, from, bytes)
      {
        SectorsLeft(from, bytes, at);
        ok := SectorErase(at);
        WipedMore(was, from, bytes, at);
        OutsideMore(before, SectorOf(from), at, at + SECTOR);
        if !ok {
          return;
        }
        at := at + SECTOR;
      }
      SectorsDone(from, bytes, at);
      ok := true;
    }

    /** One word, refused where the flash does not read erased - and, a word once asked for, counted
        against the core until its sector is erased again. */
    method FlashProgram(address: nat, word: seq<byte>) returns (ok: bool)
      requires Valid() && |word| == WORD
      requires InFlash(address)
      modifies this`flash, this`cuts, this`refused, this`asked
      ensures Valid()
      ensures var at := address - FLASH_BASE;
              if at % WORD != 0 then
                !ok && flash == old(flash) && refused == old(refused) && asked == old(asked)
              else
                && asked == old(asked) + {at}
                && refused == old(refused)
                              + (if AllBlank(old(flash), at, at + WORD) && at !in old(asked)
                                 then 0 else 1)
                && (!AllBlank(old(flash), at, at + WORD) ==> !ok && flash == old(flash))
                && (ok ==> flash == Put(old(flash), at, word))
                && (flash == old(flash) || flash == Put(old(flash), at, word)
                    || flash == Put(old(flash), at, Filled(WORD, 0)))
      ensures cuts == old(cuts) + [flash]
    {
      var at := address - FLASH_BASE;
      ok := false;
      if at % WORD == 0 {
        BlankReads(flash, at);
        refused := refused + if AllBlank(flash, at, at + WORD) && at !in asked then 0 else 1;
        asked := asked + {at};
        if flash[at..at + WORD] == Filled(WORD, BLANK) {
          ok := *;
          var torn: bool, kept: bool := *, *;
          if ok || kept {
            flash := Put(flash, at, word);
          } else if torn {
            flash := Put(flash, at, Filled(WORD, 0));
          }
        }
      }
      cuts := cuts + [flash];
    }

    method Erase(address: nat, bytes: nat) returns (ok: bool)
      requires Valid() && bytes > 0
      requires (address == RUN_BASE && bytes <= RUN_BYTES)
            || (FLASH_BASE <= address && address + bytes <= FLASH_BASE + FLASH_BYTES)
      modifies this`ram, this`flash, this`cuts, this`asked
      ensures Valid()
      ensures InRun(address) ==>
                ok && ram == Wiped(old(ram), 0, Words(bytes)) && flash == old(flash)
                && cuts == old(cuts) && asked == old(asked)
      ensures !InRun(address) ==>
                ram == old(ram)
                && (ok ==> flash == Wiped(old(flash), SectorOf(address - FLASH_BASE),
                                          SectorEnd(address - FLASH_BASE, bytes)))
                && (ok ==> asked == Outside(old(asked), SectorOf(address - FLASH_BASE),
                                            SectorEnd(address - FLASH_BASE, bytes)))
                && Wiping(flash, old(flash), address - FLASH_BASE, bytes)
                && |old(cuts)| <= |cuts| && cuts[..|old(cuts)|] == old(cuts)
                && forall k :: |old(cuts)| <= k < |cuts| ==>
                     Wiping(cuts[k], old(flash), address - FLASH_BASE, bytes)
    {
      if InRun(address) {
        ram := Wiped(ram, 0, Words(bytes));
        ok := true;
      } else {
        ok := FlashErase(address, bytes);
      }
    }

    /** RAM takes every word; flash an erased one; nothing else takes any. */
    method Program(address: nat, word: seq<byte>) returns (ok: bool)
      requires Valid() && |word| == WORD
      requires InRun(address) ==> address % WORD == 0
      modifies this
      ensures Valid()
      ensures InRun(address) ==>
                ok && ram == Put(old(ram), address - RUN_BASE, word)
                && flash == old(flash) && cuts == old(cuts) && refused == old(refused)
                && asked == old(asked)
      ensures !InRun(address) ==> ram == old(ram)
      ensures !InRun(address) && !InFlash(address) ==>
                !ok && flash == old(flash) && cuts == old(cuts) && refused == old(refused)
                && asked == old(asked)
      ensures InFlash(address) && address % WORD == 0
              && AllBlank(old(flash), address - FLASH_BASE, address - FLASH_BASE + WORD) ==>
                asked == old(asked) + {address - FLASH_BASE} && cuts == old(cuts) + [flash]
                && refused == old(refused) + (if address - FLASH_BASE in old(asked) then 1 else 0)
                && (ok ==> flash == Put(old(flash), address - FLASH_BASE, word))
                && (flash == old(flash) || flash == Put(old(flash), address - FLASH_BASE, word)
                    || flash == Put(old(flash), address - FLASH_BASE, Filled(WORD, 0)))
    {
      if InRun(address) {
        ram := Put(ram, address - RUN_BASE, word);
        ok := true;
      } else if InFlash(address) {
        ok := FlashProgram(address, word);
      } else {
        ok := false;
      }
    }
  }

}
