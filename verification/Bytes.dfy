/** Bytes, 32-bit words in either byte order, and a few facts about sequences.

    dumpcap handles words in the byte order of the host it runs on.  The host is taken to be
    little-endian here, so "swapped" means big-endian, as it does for dumpcap on such a host. */
module Bytes {

  type byte = x: int | 0 <= x < 0x100
  type u32 = x: int | 0 <= x < 0x1_0000_0000

  /** The word made of four bytes, lowest first. */
  function Join(b0: byte, b1: byte, b2: byte, b3: byte): (x: u32)
  {
    var n: int := b0;
    n + 0x100 * (b1 as int) + 0x1_0000 * (b2 as int) + 0x100_0000 * (b3 as int)
  }

  /** The word stored at `at`, in host order or in the opposite order. */
  function Word(b: seq<byte>, at: nat, swapped: bool): u32
    requires at + 4 <= |b|
  {
    if swapped then Join(b[at + 3], b[at + 2], b[at + 1], b[at])
    else Join(b[at], b[at + 1], b[at + 2], b[at + 3])
  }

  /** The four bytes that store `x`. */
  function Encode(x: u32, swapped: bool): (b: seq<byte>)
    ensures |b| == 4
  {
    var x1 := x / 0x100;
    var x2 := x1 / 0x100;
    var b0, b1, b2, b3 := x % 0x100, x1 % 0x100, x2 % 0x100, x2 / 0x100;
    if swapped then [b3, b2, b1, b0] else [b0, b1, b2, b3]
  }

  lemma LowByte(b: byte, high: nat)
    ensures (b + 0x100 * high) / 0x100 == high && (b + 0x100 * high) % 0x100 == b
  {
  }

  lemma {:induction false} SplitJoins(b0: byte, b1: byte, b2: byte, b3: byte)
    ensures Encode(Join(b0, b1, b2, b3), false) == [b0, b1, b2, b3]
  {
    var x2: nat := b2 + 0x100 * (b3 as int);
    var x1: nat := b1 + 0x100 * x2;
    assert Join(b0, b1, b2, b3) == b0 + 0x100 * x1;
    LowByte(b0, x1);
    LowByte(b1, x2);
    LowByte(b2, b3);
  }

  lemma WordOfEncode(x: u32, swapped: bool)
    ensures Word(Encode(x, swapped), 0, swapped) == x
  {
  }

  /** GUINT32_SWAP_LE_BE. */
  function Swap(x: u32): u32 {
    Word(Encode(x, false), 0, true)
  }

  /** Swapping a word read in host order is the same as reading it in the opposite order. */
  lemma {:induction false} SwapReads(b: seq<byte>, at: nat)
    requires at + 4 <= |b|
    ensures Swap(Word(b, at, false)) == Word(b, at, true)
  {
    SplitJoins(b[at], b[at + 1], b[at + 2], b[at + 3]);
  }

  /** A word depends only on its own four bytes. */
  lemma WordOfSlice(b: seq<byte>, c: seq<byte>, at: nat, swapped: bool)
    requires at + 4 <= |b| && at + 4 <= |c|
    requires b[at..at + 4] == c[at..at + 4]
    ensures Word(b, at, swapped) == Word(c, at, swapped)
  {
    WordInSlice(b, at, swapped);
    WordInSlice(c, at, swapped);
  }

  lemma WordInSlice(b: seq<byte>, at: nat, swapped: bool)
    requires at + 4 <= |b|
    ensures Word(b, at, swapped) == Word(b[at..at + 4], 0, swapped)
  {
  }

  lemma WordAfter(a: seq<byte>, x: u32, b: seq<byte>, swapped: bool)
    ensures Word(a + Encode(x, swapped) + b, |a|, swapped) == x
  {
    var e := Encode(x, swapped);
    assert (a + e + b)[|a|..|a| + 4] == e;
    WordOfEncode(x, swapped);
    WordInSlice(a + e + b, |a|, swapped);
  }

  lemma SwapTwice(x: u32)
    ensures Swap(Swap(x)) == x
  {
    hide Join;
    var e, f := Encode(x, false), Encode(Swap(x), false);
    SplitJoins(e[3], e[2], e[1], e[0]);
    WordOfEncode(x, false);
  }

  lemma SwapInjective(x: u32, y: u32)
    requires Swap(x) == Swap(y)
    ensures x == y
  {
    hide Swap;
    SwapTwice(x);
    SwapTwice(y);
  }
}
