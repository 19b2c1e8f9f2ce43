/** Bytes, and the two kinds of little-endian word the bootloader reads out of them: sizes and
    addresses as numbers, checksums as registers. */
module Bytes {
  type byte = bv8

  function Number(a: byte, b: byte, c: byte, d: byte): nat {
    a as nat + 0x100 * (b as nat) + 0x1_0000 * (c as nat) + 0x100_0000 * (d as nat)
  }

  /** Four bytes as a number, the lowest first. */
  function U32(s: seq<byte>, at: nat): nat
    requires at + 4 <= |s|
  {
    Number(s[at], s[at + 1], s[at + 2], s[at + 3])
  }

  /** The byte that counts `n`. */
  function ByteOf(n: nat): byte
    requires n < 0x100
  {
    if n == 0 then 0 else ByteOf(n - 1) + 1
  }

  lemma {:induction false} ByteOfCounts(n: nat)
    requires n < 0x100
    ensures ByteOf(n) as nat == n
  {
    if n > 0 {
      ByteOfCounts(n - 1);
    }
  }

  lemma FourBytes(n: nat)
    requires n < 0x1_0000_0000
    ensures n / 0x100_0000 < 0x100
    ensures n == n % 0x100 + 0x100 * (n / 0x100 % 0x100) + 0x1_0000 * (n / 0x1_0000 % 0x100)
                 + 0x100_0000 * (n / 0x100_0000)
  {
    assert n / 0x1_0000 == n / 0x100 / 0x100;
    assert n / 0x100_0000 == n / 0x1_0000 / 0x100;
  }

  function U32Bytes(n: nat): (r: seq<byte>)
    requires n < 0x1_0000_0000
    ensures |r| == 4
  {
    FourBytes(n);
    [ByteOf(n % 0x100), ByteOf(n / 0x100 % 0x100), ByteOf(n / 0x1_0000 % 0x100),
     ByteOf(n / 0x100_0000)]
  }

  lemma U32OfBytes(n: nat)
    requires n < 0x1_0000_0000
    ensures U32(U32Bytes(n), 0) == n
  {
    hide ByteOf;
    FourBytes(n);
    ByteOfCounts(n % 0x100);
    ByteOfCounts(n / 0x100 % 0x100);
    ByteOfCounts(n / 0x1_0000 % 0x100);
    ByteOfCounts(n / 0x100_0000);
  }

  function Register(a: byte, b: byte, c: byte, d: byte): bv32 {
    (a as bv32) | ((b as bv32) << 8) | ((c as bv32) << 16) | ((d as bv32) << 24)
  }

  /** Four bytes as a checksum, the lowest first. */
  function Crc32At(s: seq<byte>, at: nat): bv32
    requires at + 4 <= |s|
  {
    Register(s[at], s[at + 1], s[at + 2], s[at + 3])
  }

  function CrcBytes(c: bv32): (r: seq<byte>)
    ensures |r| == 4 && Crc32At(r, 0) == c
  {
    [(c & 0xFF) as byte, ((c >> 8) & 0xFF) as byte, ((c >> 16) & 0xFF) as byte, (c >> 24) as byte]
  }
}
