/** CRC-32 as section 3.2.9 of IEEE 802.3 defines it and as the bootloader takes it: reflected,
    bit by bit, with no table. */
module Checksum {
  import opened Bytes

  const POLY: bv32 := 0xEDB8_8320
  const INIT: bv32 := 0xFFFF_FFFF
  const BITS_PER_BYTE: nat := 8

  function Xor(a: bv32, b: bv32): bv32 { a ^ b }
  function Half(a: bv32): bv32 { a >> 1 }
  predicate Odd(a: bv32) { a & 1 != 0 }

  /** One turn of the register. */
  function Turn(c: bv32): bv32 {
    Xor(Half(c), if Odd(c) then POLY else 0)
  }

  function Turns(c: bv32, n: nat): bv32 {
    if n == 0 then c else Turn(Turns(c, n - 1))
  }

  function Absorb(c: bv32, b: byte): bv32 {
    Turns(Xor(c, b as bv32), BITS_PER_BYTE)
  }

  /** The register after the bytes of `s`, from `c`. */
  function Sum(c: bv32, s: seq<byte>): bv32 {
    if s == [] then c else Absorb(Sum(c, s[..|s| - 1]), s[|s| - 1])
  }

  /** The checksum of a whole image. */
  function Crc(s: seq<byte>): bv32 {
    Xor(Sum(INIT, s), INIT)
  }

  method Crc32(crc: bv32, data: seq<byte>) returns (r: bv32)
    ensures r == Sum(crc, data)
  {
    r := crc;
    for i := 0 to |data|
      invariant r == Sum(crc, data[..i])
    {
      assert data[..i + 1][..i] == data[..i];
      r := Xor(r, data[i] as bv32);
      ghost var loaded := r;
      for k := 0 to BITS_PER_BYTE
        invariant r == Turns(loaded, k)
      {
        r := Xor(Half(r), if Odd(r) then POLY else 0);
      }
    }
    assert data[..|data|] == data;
  }

  // -- pieces --------------------------------------------------------------------------------

  /** The sum over pieces is the sum over the whole, however an image is cut. */
  lemma {:induction false} SumOfPieces(c: bv32, a: seq<byte>, b: seq<byte>)
    ensures Sum(c, a + b) == Sum(Sum(c, a), b)
  {
    hide Absorb;
    if b == [] {
      assert a + b == a;
    } else {
      var n := |b| - 1;
      SumOfPieces(c, a, b[..n]);
      assert (a + b)[..|a + b| - 1] == a + b[..n];
    }
  }

  // -- bursts --------------------------------------------------------------------------------

  /** The polynomial's top bit shows in the register which way the turn went, so a turn loses
      nothing. */
  lemma TurnInjective(a: bv32, b: bv32)
    requires Turn(a) == Turn(b)
    ensures a == b
  {
  }

  lemma {:induction false} TurnsInjective(a: bv32, b: bv32, n: nat)
    requires Turns(a, n) == Turns(b, n)
    ensures a == b
  {
    hide Turn;
    if n > 0 {
      TurnInjective(Turns(a, n - 1), Turns(b, n - 1));
      TurnsInjective(a, b, n - 1);
    }
  }

  lemma XorCancels(x: bv32, y: bv32, b: bv32)
    requires Xor(x, b) == Xor(y, b)
    ensures x == y
  {
  }

  lemma AbsorbInjective(c: bv32, d: bv32, b: byte)
    requires Absorb(c, b) == Absorb(d, b)
    ensures c == d
  {
    hide Turns, Xor;
    TurnsInjective(Xor(c, b as bv32), Xor(d, b as bv32), BITS_PER_BYTE);
    XorCancels(c, d, b as bv32);
  }

  /** The same bytes behind two registers keep them apart. */
  lemma {:induction false} SumInjective(c: bv32, d: bv32, s: seq<byte>)
    requires Sum(c, s) == Sum(d, s)
    ensures c == d
  {
    hide Absorb;
    if s != [] {
      var n := |s| - 1;
      AbsorbInjective(Sum(c, s[..n]), Sum(d, s[..n]), s[n]);
      SumInjective(c, d, s[..n]);
    }
  }

  lemma HalfOfXor(x: bv32, z: bv32)
    ensures Half(Xor(x, z)) == Xor(Half(x), Half(z))
  {
  }

  lemma OddOfXor(x: bv32, z: bv32)
    requires !Odd(z)
    ensures Odd(Xor(x, z)) == Odd(x)
  {
  }

  lemma XorSwaps(a: bv32, b: bv32)
    ensures Xor(Xor(a, b), POLY) == Xor(Xor(a, POLY), b)
  {
  }

  /** What enters above the bit being turned out only moves down. */
  lemma TurnCarries(x: bv32, z: bv32)
    requires !Odd(z)
    ensures Turn(Xor(x, z)) == Xor(Turn(x), Half(z))
  {
    hide Xor, Half, Odd;
    HalfOfXor(x, z);
    OddOfXor(x, z);
    XorSwaps(Half(x), Half(z));
    XorZero(Xor(Half(x), Half(z)));
    XorZero(Half(x));
  }

  /** A word of three bytes, eight places up. */
  function Up(y: bv32, places: bv4): bv32 { y << places }

  ghost predicate ThreeBytes(y: bv32) { y & 0xFF00_0000 == 0 }

  lemma CarryStep(x: bv32, from: bv32, k: nat, y: bv32, p: bv4)
    requires ThreeBytes(y) && 1 <= p <= 8
    requires Turns(from, k) == Xor(Turns(x, k), Up(y, p))
    ensures Turns(from, k + 1) == Xor(Turns(x, k + 1), Up(y, p - 1))
  {
    hide Turn, Xor, Up, ThreeBytes, Odd, Half;
    assert !Odd(Up(y, p)) && Half(Up(y, p)) == Up(y, p - 1) by { Halves(y, p); }
    TurnCarries(Turns(x, k), Up(y, p));
  }

  lemma Halves(y: bv32, p: bv4)
    requires ThreeBytes(y) && 1 <= p <= 8
    ensures !Odd(Up(y, p)) && Half(Up(y, p)) == Up(y, p - 1)
  {
  }

  lemma {:induction false} CarryAll(x: bv32, from: bv32, k: nat, y: bv32, p: bv4)
    requires ThreeBytes(y) && p <= 8 && k + p as nat == BITS_PER_BYTE
    requires Turns(from, k) == Xor(Turns(x, k), Up(y, p))
    ensures Turns(from, BITS_PER_BYTE) == Xor(Turns(x, BITS_PER_BYTE), Up(y, 0))
    decreases BITS_PER_BYTE - k
  {
    hide Turns, Xor, Up, ThreeBytes;
    if k < BITS_PER_BYTE {
      CarryStep(x, from, k, y, p);
      CarryAll(x, from, k + 1, y, p - 1);
    }
  }

  /** The next byte may enter eight turns early, eight places up. */
  lemma TurnsCarry(x: bv32, y: bv32)
    requires ThreeBytes(y)
    ensures Turns(Xor(x, Up(y, 8)), BITS_PER_BYTE) == Xor(Turns(x, BITS_PER_BYTE), y)
  {
    hide Xor, ThreeBytes;
    assert Up(y, 0) == y;
    hide Up;
    CarryAll(x, Xor(x, Up(y, 8)), 0, y, 8);
  }

  lemma {:induction false} TurnsAdd(c: bv32, m: nat, n: nat)
    ensures Turns(Turns(c, m), n) == Turns(c, m + n)
  {
    hide Turn;
    if n > 0 {
      TurnsAdd(c, m, n - 1);
    }
  }

  function Over(low: byte, high: bv32): bv32 { (low as bv32) | Up(high, 8) }

  /** At most four bytes as one word, the first the lowest. */
  function Packed(s: seq<byte>): bv32 {
    if s == [] then 0 else Over(s[0], Packed(s[1..]))
  }

  lemma OverFits(a: byte, u: bv32)
    requires u & 0xFFFF_0000 == 0
    ensures ThreeBytes(Over(a, u))
    ensures u & 0xFF00 == 0 ==> Over(a, u) & 0xFFFF_0000 == 0
    ensures u == 0 ==> Over(a, u) & 0xFF00 == 0 && Over(a, u) & 0xFFFF_0000 == 0
  {
  }

  lemma PackedFits(s: seq<byte>)
    requires |s| <= 3
    ensures ThreeBytes(Packed(s))
  {
    if s != [] {
      var t := s[1..];
      if t != [] {
        var u := t[1..];
        if u != [] {
          assert Packed(u[1..]) == 0;
          OverFits(u[0], 0);
        }
        OverFits(t[0], Packed(u));
      }
      OverFits(s[0], Packed(t));
    }
  }

  lemma OverSplits(a: byte, u: bv32, b: byte, v: bv32)
    requires ThreeBytes(u) && ThreeBytes(v)
    requires Over(a, u) == Over(b, v)
    ensures a == b && u == v
  {
  }

  lemma {:induction false} PackedInjective(a: seq<byte>, b: seq<byte>)
    requires |a| == |b| <= 4
    requires Packed(a) == Packed(b)
    ensures a == b
  {
    hide Over, ThreeBytes;
    if a != [] {
      PackedFits(a[1..]);
      PackedFits(b[1..]);
      OverSplits(a[0], Packed(a[1..]), b[0], Packed(b[1..]));
      PackedInjective(a[1..], b[1..]);
      assert a == [a[0]] + a[1..];
      assert b == [b[0]] + b[1..];
    }
  }

  lemma XorOver(c: bv32, a: byte, u: bv32)
    ensures Xor(c, Over(a, u)) == Xor(Xor(c, a as bv32), Up(u, 8))
  {
  }

  lemma XorZero(c: bv32)
    ensures Xor(c, 0) == c
  {
  }

  lemma XorTurns(c: bv32, d: bv32)
    ensures Xor(c, d) == Xor(d, c)
  {
  }

  /** At most four bytes enter as one word, turned out whole. */
  lemma {:induction false} SumOfWord(c: bv32, s: seq<byte>)
    requires |s| <= 4
    ensures Sum(c, s) == Turns(Xor(c, Packed(s)), BITS_PER_BYTE * |s|)
    decreases |s|
  {
    hide Turn, Xor, Over, Up, ThreeBytes;
    if s == [] {
      XorZero(c);
    } else {
      var rest := s[1..];
      var u := Packed(rest);
      var head := Xor(c, s[0] as bv32);
      assert s == [s[0]] + rest;
      SumOfPieces(c, [s[0]], rest);
      assert [s[0]][..0] == [];
      assert Sum(c, [s[0]]) == Turns(head, BITS_PER_BYTE);
      SumOfWord(Turns(head, BITS_PER_BYTE), rest);
      PackedFits(rest);
      TurnsCarry(head, u);
      XorOver(c, s[0], u);
      TurnsAdd(Xor(head, Up(u, 8)), BITS_PER_BYTE, BITS_PER_BYTE * |rest|);
    }
  }

  lemma WordInjective(c: bv32, a: seq<byte>, b: seq<byte>)
    requires |a| == |b| <= 4
    requires Sum(c, a) == Sum(c, b)
    ensures a == b
  {
    hide Sum, Turns, Xor, Packed;
    SumOfWord(c, a);
    SumOfWord(c, b);
    TurnsInjective(Xor(c, Packed(a)), Xor(c, Packed(b)), BITS_PER_BYTE * |a|);
    XorTurns(c, Packed(a));
    XorTurns(c, Packed(b));
    XorCancels(Packed(a), Packed(b), c);
    PackedInjective(a, b);
  }

  /** Two images of one length that differ, and only inside four consecutive bytes, never share
      a checksum. */
  lemma BurstDetected(x: seq<byte>, y: seq<byte>, i: nat, j: nat)
    requires |x| == |y| && i <= j <= |x| && j - i <= 4
    requires x[..i] == y[..i] && x[j..] == y[j..]
    requires x != y
    ensures Crc(x) != Crc(y)
  {
    hide Sum, Xor;
    if Crc(x) == Crc(y) {
      XorCancels(Sum(INIT, x), Sum(INIT, y), INIT);
      assert x == x[..i] + x[i..j] + x[j..];
      assert y == x[..i] + y[i..j] + x[j..];
      SumOfPieces(INIT, x[..i] + x[i..j], x[j..]);
      SumOfPieces(INIT, x[..i] + y[i..j], x[j..]);
      SumInjective(Sum(INIT, x[..i] + x[i..j]), Sum(INIT, x[..i] + y[i..j]), x[j..]);
      SumOfPieces(INIT, x[..i], x[i..j]);
      SumOfPieces(INIT, x[..i], y[i..j]);
      WordInjective(Sum(INIT, x[..i]), x[i..j], y[i..j]);
    }
  }

  lemma AbsorbValue(c: bv32, b: byte)
    ensures Absorb(c, b)
         == Turn(Turn(Turn(Turn(Turn(Turn(Turn(Turn(Xor(c, b as bv32)))))))))
  {
    hide Turn, Xor;
    var x := Xor(c, b as bv32);
    assert Turns(x, 0) == x;
    assert Turns(x, 2) == Turn(Turns(x, 1));
    assert Turns(x, 4) == Turn(Turns(x, 3));
    assert Turns(x, 6) == Turn(Turns(x, 5));
    assert Turns(x, 8) == Turn(Turns(x, 7));
  }

  const DIGITS: seq<byte> := [0x31, 0x32, 0x33, 0x34, 0x35, 0x36, 0x37, 0x38, 0x39]

  lemma AbsorbsTo(i: nat, c: bv32, d: bv32)
    requires i < |DIGITS| && Sum(INIT, DIGITS[..i]) == c
    requires Turn(Turn(Turn(Turn(Turn(Turn(Turn(Turn(Xor(c, DIGITS[i] as bv32))))))))) == d
    ensures Sum(INIT, DIGITS[..i + 1]) == d
  {
    hide Absorb, Turn, Xor;
    AbsorbValue(c, DIGITS[i]);
    assert DIGITS[..i + 1][..i] == DIGITS[..i];
  }

  /** The check value published for this CRC: the digits 1 to 9. */
  lemma CheckValue()
    ensures Crc(DIGITS) == 0xCBF4_3926
  {
    assert Sum(INIT, DIGITS[..0]) == INIT;
    hide Sum;
    AbsorbsTo(0, 0xFFFF_FFFF, 0x7C23_1048);
    AbsorbsTo(1, 0x7C23_1048, 0xB0AC_BB32);
    AbsorbsTo(2, 0xB0AC_BB32, 0x77B7_9C2D);
    AbsorbsTo(3, 0x77B7_9C2D, 0x641C_1F5C);
    AbsorbsTo(4, 0x641C_1F5C, 0x340A_C5E3);
    AbsorbsTo(5, 0x340A_C5E3, 0xF68D_2C9E);
    AbsorbsTo(6, 0xF68D_2C9E, 0xAFFC_9660);
    AbsorbsTo(7, 0xAFFC_9660, 0x651F_2550);
    AbsorbsTo(8, 0x651F_2550, 0x340B_C6D9);
    assert DIGITS[..9] == DIGITS;
  }
}
