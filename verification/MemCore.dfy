/** The board's own copy and fill: single bytes up to a word boundary, then words in fours, single
    words, and the bytes that remain. No word access is ever off its boundary. */
module MemCore {
  const WORD := 4
  const FOUR_WORDS := 16

  /** The memory with n bytes from one place at another. */
  function Copied(m: seq<bv8>, dst: nat, src: nat, n: nat): seq<bv8>
    requires dst + n <= |m| && src + n <= |m|
  {
    m[..dst] + m[src..src + n] + m[dst + n..]
  }

  /** The memory with n bytes at a place all one value. */
  function Filled(m: seq<bv8>, dst: nat, byte: bv8, n: nat): seq<bv8>
    requires dst + n <= |m|
  {
    m[..dst] + seq(n, _ => byte) + m[dst + n..]
  }

  predicate Apart(dst: nat, src: nat, n: nat) { dst + n <= src || src + n <= dst || n == 0 }

  predicate Aligned(at: nat) { at % WORD == 0 }

  /** Two places the same way round a word. */
  predicate Alike(dst: nat, src: nat) { dst % WORD == src % WORD }

  lemma AlignedOn(at: nat)
    requires Aligned(at)
    ensures Aligned(at + WORD)
  {
  }

  lemma AlignedBoth(dst: nat, src: nat, k: nat)
    requires Alike(dst, src) && Aligned(dst + k)
    ensures Aligned(src + k)
  {
  }

  /** A word read and written: on word boundaries both. */
  method CopyWord(mem: array<bv8>, d: nat, s: nat)
    requires Aligned(d) && Aligned(s) && d + WORD <= mem.Length && s + WORD <= mem.Length
    requires Apart(d, s, WORD)
    modifies mem
    ensures forall i {:trigger mem[i]} :: d <= i < d + WORD ==> mem[i] == old(mem[s + i - d])
    ensures forall i :: 0 <= i < mem.Length && !(d <= i < d + WORD) ==> mem[i] == old(mem[i])
  {
    mem[d], mem[d + 1], mem[d + 2], mem[d + 3] := mem[s], mem[s + 1], mem[s + 2], mem[s + 3];
  }

  method FillWord(mem: array<bv8>, d: nat, byte: bv8)
    requires Aligned(d) && d + WORD <= mem.Length
    modifies mem
    ensures forall i :: d <= i < d + WORD ==> mem[i] == byte
    ensures forall i :: 0 <= i < mem.Length && !(d <= i < d + WORD) ==> mem[i] == old(mem[i])
  {
    mem[d], mem[d + 1], mem[d + 2], mem[d + 3] := byte, byte, byte, byte;
  }

  /** Done so far: k bytes of the copy in place, the rest of memory as it was. */
  predicate CopiedTo(m: seq<bv8>, was: seq<bv8>, dst: nat, src: nat, k: nat) {
    && |m| == |was| && dst + k <= |m| && src + k <= |m|
    && (forall i :: dst <= i < dst + k ==> m[i] == was[src + i - dst])
    && forall i :: 0 <= i < |m| && !(dst <= i < dst + k) ==> m[i] == was[i]
  }

  lemma CopiedIs(m: seq<bv8>, was: seq<bv8>, dst: nat, src: nat, n: nat)
    requires CopiedTo(m, was, dst, src, n)
    ensures m == Copied(was, dst, src, n)
  {
  }

  method CopyStep(mem: array<bv8>, ghost was: seq<bv8>, dst: nat, src: nat, k: nat, n: nat)
    requires CopiedTo(mem[..], was, dst, src, k) && k < n
    requires dst + n <= mem.Length && src + n <= mem.Length && Apart(dst, src, n)
    modifies mem
    ensures CopiedTo(mem[..], was, dst, src, k + 1)
  {
    mem[dst + k] := mem[src + k];
  }

  method CopyWordStep(mem: array<bv8>, ghost was: seq<bv8>, dst: nat, src: nat, k: nat, n: nat)
    requires CopiedTo(mem[..], was, dst, src, k) && k + WORD <= n
    requires dst + n <= mem.Length && src + n <= mem.Length && Apart(dst, src, n)
    requires Alike(dst, src) && Aligned(dst + k)
    modifies mem
    ensures CopiedTo(mem[..], was, dst, src, k + WORD) && Aligned(dst + k + WORD)
  {
    AlignedBoth(dst, src, k);
    AlignedOn(dst + k);
    hide Aligned, Alike;
    CopyWord(mem, dst + k, src + k);
  }

  /** memcpy: the bytes there, nothing else touched, whatever the two places' alignment. */
  method Memcpy(mem: array<bv8>, dst: nat, src: nat, n: nat)
    requires dst + n <= mem.Length && src + n <= mem.Length && Apart(dst, src, n)
    modifies mem
    ensures mem[..] == Copied(old(mem[..]), dst, src, n)
  {
    ghost var was := mem[..];
    var k := 0;
    assert CopiedTo(mem[..], was, dst, src, 0);
    hide Aligned, Alike, CopiedTo, Copied, Apart;
    if Alike(dst, src) {
      while k < n && !Aligned(dst + k)
        invariant k <= n && CopiedTo(mem[..], was, dst, src, k)
      {
        CopyStep(mem, was, dst, src, k, n);
        k := k + 1;
      }
      k := CopyWords(mem, was, dst, src, k, n);
    }
    while k < n
      invariant k <= n && CopiedTo(mem[..], was, dst, src, k)
    {
      CopyStep(mem, was, dst, src, k, n);
      k := k + 1;
    }
    CopiedIs(mem[..], was, dst, src, n);
  }

  /** The word loops: four a turn while sixteen bytes are left, then one. */
  method CopyWords(mem: array<bv8>, ghost was: seq<bv8>, dst: nat, src: nat, from: nat, n: nat)
    returns (k: nat)
    requires from <= n && CopiedTo(mem[..], was, dst, src, from)
    requires dst + n <= mem.Length && src + n <= mem.Length && Apart(dst, src, n)
    requires Alike(dst, src) && (from < n ==> Aligned(dst + from))
    modifies mem
    ensures from <= k <= n && CopiedTo(mem[..], was, dst, src, k) && n - k < WORD
  {
    hide Aligned, Alike, CopiedTo, Apart;
    k := from;
    while n - k >= FOUR_WORDS
      invariant from <= k <= n && CopiedTo(mem[..], was, dst, src, k)
      invariant k < n ==> Aligned(dst + k)
    {
      CopyWordStep(mem, was, dst, src, k, n);
      CopyWordStep(mem, was, dst, src, k + WORD, n);
      CopyWordStep(mem, was, dst, src, k + 2 * WORD, n);
      CopyWordStep(mem, was, dst, src, k + 3 * WORD, n);
      k := k + FOUR_WORDS;
    }
    while n - k >= WORD
      invariant from <= k <= n && CopiedTo(mem[..], was, dst, src, k)
      invariant k < n ==> Aligned(dst + k)
    {
      CopyWordStep(mem, was, dst, src, k, n);
      k := k + WORD;
    }
  }

  predicate FilledTo(m: seq<bv8>, was: seq<bv8>, dst: nat, byte: bv8, k: nat) {
    && |m| == |was| && dst + k <= |m|
    && (forall i :: dst <= i < dst + k ==> m[i] == byte)
    && forall i :: 0 <= i < |m| && !(dst <= i < dst + k) ==> m[i] == was[i]
  }

  lemma FilledIs(m: seq<bv8>, was: seq<bv8>, dst: nat, byte: bv8, n: nat)
    requires FilledTo(m, was, dst, byte, n)
    ensures m == Filled(was, dst, byte, n)
  {
  }

  /** memset: the bytes that value, nothing else touched. */
  method Memset(mem: array<bv8>, dst: nat, byte: bv8, n: nat)
    requires dst + n <= mem.Length
    modifies mem
    ensures mem[..] == Filled(old(mem[..]), dst, byte, n)
  {
    ghost var was := mem[..];
    var k := 0;
    while k < n && !Aligned(dst + k)
      invariant k <= n && FilledTo(mem[..], was, dst, byte, k)
    {
      mem[dst + k] := byte;
      k := k + 1;
    }
    k := FillWords(mem, was, dst, byte, k, n);
    while k < n
      invariant k <= n && FilledTo(mem[..], was, dst, byte, k)
    {
      mem[dst + k] := byte;
      k := k + 1;
    }
    FilledIs(mem[..], was, dst, byte, n);
  }

  method FillWordStep(mem: array<bv8>, ghost was: seq<bv8>, dst: nat, byte: bv8, k: nat, n: nat)
    requires FilledTo(mem[..], was, dst, byte, k) && k + WORD <= n && dst + n <= mem.Length
    requires Aligned(dst + k)
    modifies mem
    ensures FilledTo(mem[..], was, dst, byte, k + WORD) && Aligned(dst + k + WORD)
  {
    AlignedOn(dst + k);
    hide Aligned;
    FillWord(mem, dst + k, byte);
  }

  method FillWords(mem: array<bv8>, ghost was: seq<bv8>, dst: nat, byte: bv8, from: nat, n: nat)
    returns (k: nat)
    requires from <= n && FilledTo(mem[..], was, dst, byte, from) && dst + n <= mem.Length
    requires from < n ==> Aligned(dst + from)
    modifies mem
    ensures from <= k <= n && FilledTo(mem[..], was, dst, byte, k) && n - k < WORD
  {
    hide Aligned, FilledTo;
    k := from;
    while n - k >= FOUR_WORDS
      invariant from <= k <= n && FilledTo(mem[..], was, dst, byte, k)
      invariant k < n ==> Aligned(dst + k)
    {
      FillWordStep(mem, was, dst, byte, k, n);
      FillWordStep(mem, was, dst, byte, k + WORD, n);
      FillWordStep(mem, was, dst, byte, k + 2 * WORD, n);
      FillWordStep(mem, was, dst, byte, k + 3 * WORD, n);
      k := k + FOUR_WORDS;
    }
    while n - k >= WORD
      invariant from <= k <= n && FilledTo(mem[..], was, dst, byte, k)
      invariant k < n ==> Aligned(dst + k)
    {
      FillWordStep(mem, was, dst, byte, k, n);
      k := k + WORD;
    }
  }
}
