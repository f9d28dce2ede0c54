/** The growth of a pipe's data buffer: the bit trick of cap_pipe_ensure_databuf_size. */
module BufferGrowth {

  const UINT32_MAX := 0xFFFF_FFFF

  function Pow2(n: nat): (p: nat)
    ensures p > 0
  {
    if n == 0 then 1 else 2 * Pow2(n - 1)
  }

  /** Bit i of an unsigned integer. */
  predicate Bit(x: nat, i: nat) {
    if i == 0 then x % 2 == 1 else Bit(x / 2, i - 1)
  }

  /** Bitwise "or". */
  function BitOr(a: nat, b: nat): nat {
    if a == 0 && b == 0 then 0
    else 2 * BitOr(a / 2, b / 2) + (if a % 2 == 1 || b % 2 == 1 then 1 else 0)
  }

  /** Right shift. */
  function Shr(x: nat, k: nat): nat {
    if k == 0 then x else Shr(x / 2, k - 1)
  }

  /** The five or-shift steps that copy the highest one bit into every bit below it. */
  function Smear(x: nat): nat {
    var x := BitOr(x, Shr(x, 1));
    var x := BitOr(x, Shr(x, 2));
    var x := BitOr(x, Shr(x, 4));
    var x := BitOr(x, Shr(x, 8));
    BitOr(x, Shr(x, 16))
  }

  /** The widths size_t can have. */
  datatype SizeWidth = Size32 | Size64

  function Range(width: SizeWidth): nat {
    if width.Size32? then 0x1_0000_0000 else 0x1_0000_0000_0000_0000
  }

  /** The new size for a request, in unsigned arithmetic of the given width. */
  function Grown(request: nat, width: SizeWidth): nat
    requires 1 <= request
  {
    var size := (Smear(request - 1) + 1) % Range(width);
    if size == 0 then UINT32_MAX else size
  }

  /** cap_pipe_ensure_databuf_size, on sizes. */
  function EnsuredSize(size: nat, request: nat, width: SizeWidth): nat {
    if request > size then Grown(request, width) else size
  }

  lemma Halve(q: nat, c: nat)
    requires c <= 1
    ensures (2 * q + c) / 2 == q && (2 * q + c) % 2 == c
  {
  }

  lemma {:induction false} BitOfOr(a: nat, b: nat, i: nat)
    ensures Bit(BitOr(a, b), i) == (Bit(a, i) || Bit(b, i))
  {
    Halve(BitOr(a / 2, b / 2), if a % 2 == 1 || b % 2 == 1 then 1 else 0);
    if i > 0 {
      BitOfOr(a / 2, b / 2, i - 1);
    }
  }

  lemma {:induction false} BitOfShr(x: nat, k: nat, i: nat)
    ensures Bit(Shr(x, k), i) == Bit(x, i + k)
  {
    if k > 0 {
      BitOfShr(x / 2, k - 1, i);
    }
  }

  /** x is an n-bit number whose top m bits are ones. */
  ghost predicate TopOnes(x: nat, n: nat, m: nat) {
    && (forall i: nat :: n <= i ==> !Bit(x, i))
    && (forall i: nat :: n <= i + m && i < n ==> Bit(x, i))
  }

  /** One or-shift step doubles the number of leading ones. */
  lemma OrShiftDoubles(x: nat, n: nat, m: nat)
    requires TopOnes(x, n, m)
    ensures TopOnes(BitOr(x, Shr(x, m)), n, 2 * m)
  {
    var r := BitOr(x, Shr(x, m));
    forall i: nat
      ensures n <= i ==> !Bit(r, i)
      ensures n <= i + 2 * m && i < n ==> Bit(r, i)
    {
      BitOfOr(x, Shr(x, m), i);
      BitOfShr(x, m, i);
    }
  }

  /** A number whose low n bits are ones and whose other bits are zeros. */
  lemma {:induction false} AllOnes(x: nat, n: nat)
    requires forall i: nat :: Bit(x, i) <==> i < n
    ensures x == Pow2(n) - 1
    decreases x, n
  {
    if n == 0 {
      ZeroBits(x);
    } else {
      assert Bit(x, 0);
      forall i: nat
        ensures Bit(x / 2, i) <==> i < n - 1
      {
        assert Bit(x, i + 1) == Bit(x / 2, i);
      }
      AllOnes(x / 2, n - 1);
    }
  }

  lemma {:induction false} ZeroBits(x: nat)
    requires forall i: nat :: !Bit(x, i)
    ensures x == 0
  {
    if x > 0 {
      assert !Bit(x, 0);
      forall i: nat
        ensures !Bit(x / 2, i)
      {
        assert Bit(x, i + 1) == Bit(x / 2, i);
      }
      ZeroBits(x / 2);
    }
  }

  /** The number of bits of x. */
  function BitLength(x: nat): (n: nat)
    ensures x < Pow2(n)
    ensures x > 0 ==> n > 0 && Pow2(n - 1) <= x
  {
    if x == 0 then 0 else BitLength(x / 2) + 1
  }

  lemma {:induction false} HighestBit(x: nat)
    ensures TopOnes(x, BitLength(x), if x == 0 then 0 else 1)
  {
    var n := BitLength(x);
    if x > 0 {
      HighestBit(x / 2);
      assert BitLength(x / 2) == n - 1;
      forall i: nat
        ensures n <= i ==> !Bit(x, i)
        ensures i == n - 1 ==> Bit(x, i)
      {
        if i > 0 {
          assert Bit(x, i) == Bit(x / 2, i - 1);
          if x / 2 == 0 {
            ZeroHasNoBits(i - 1);
          }
        }
      }
    } else {
      forall i: nat
        ensures !Bit(0, i)
      {
        ZeroHasNoBits(i);
      }
    }
  }

  lemma ZeroHasNoBits(i: nat)
    ensures !Bit(0, i)
  {
  }

  /** For a number of at most 32 bits the steps fill every bit up to the highest one. */
  lemma SmearFills(x: nat)
    requires BitLength(x) <= 32
    ensures Smear(x) + 1 == Pow2(BitLength(x))
  {
    var n := BitLength(x);
    HighestBit(x);
    var a := BitOr(x, Shr(x, 1));
    OrShiftDoubles(x, n, 1);
    var b := BitOr(a, Shr(a, 2));
    OrShiftDoubles(a, n, 2);
    var c := BitOr(b, Shr(b, 4));
    OrShiftDoubles(b, n, 4);
    var d := BitOr(c, Shr(c, 8));
    OrShiftDoubles(c, n, 8);
    OrShiftDoubles(d, n, 16);
    AllOnes(Smear(x), n);
  }

  lemma {:induction false} PowMonotone(a: nat, b: nat)
    requires a <= b
    ensures Pow2(a) <= Pow2(b)
    ensures a < b ==> 2 * Pow2(a) <= Pow2(b)
  {
    if a < b {
      PowMonotone(a, b - 1);
    }
  }

  lemma PowValues()
    ensures Pow2(31) == 0x8000_0000 && Pow2(32) == 0x1_0000_0000
  {
    assert Pow2(8) == 0x100;
    assert Pow2(16) == 0x1_0000;
    assert Pow2(24) == 0x100_0000;
  }

  /** A 32-bit request has at most 32 bits, and 31 when it is at most 2^31. */
  lemma RequestBits(request: nat)
    requires 1 <= request <= UINT32_MAX
    ensures BitLength(request - 1) <= 32
    ensures BitLength(request - 1) <= 31 <==> request <= 0x8000_0000
    ensures Smear(request - 1) + 1 == Pow2(BitLength(request - 1))
  {
    var n := BitLength(request - 1);
    PowValues();
    if n > 32 {
      PowMonotone(32, n - 1);
    } else if n <= 31 {
      PowMonotone(n, 31);
    }
    SmearFills(request - 1);
  }

  lemma Wrapped(x: nat, range: nat)
    requires x <= range && 0 < range
    ensures x % range == if x < range then x else 0
  {
  }

  /** What a growing buffer gets: a power of two, unless the last increment wraps to 0. */
  lemma GrownValue(request: nat, width: SizeWidth)
    requires 1 <= request <= UINT32_MAX
    ensures var p := Pow2(BitLength(request - 1));
            request <= p <= 0x1_0000_0000 &&
            Grown(request, width) == if p < Range(width) then p else UINT32_MAX
  {
    RequestBits(request);
    PowValues();
    PowMonotone(BitLength(request - 1), 32);
    Wrapped(Smear(request - 1) + 1, Range(width));
  }

  ghost predicate IsPowerOfTwo(p: nat) {
    exists n: nat :: p == Pow2(n)
  }

  /** No smaller power of two than the one just above the bits of x exceeds x. */
  lemma NoSmallerPower(x: nat, p: nat)
    requires IsPowerOfTwo(p) && x < p
    ensures Pow2(BitLength(x)) <= p
  {
    var n := BitLength(x);
    var m: nat :| p == Pow2(m);
    if m < n {
      PowMonotone(m, n - 1);
    } else {
      PowMonotone(n, m);
    }
  }

  /** With 64-bit sizes a growing buffer gets the least power of two that holds the request. */
  lemma GrownIsLeastPowerOfTwo(request: nat)
    requires 1 <= request <= UINT32_MAX
    ensures request <= Grown(request, Size64)
    ensures IsPowerOfTwo(Grown(request, Size64))
    ensures forall p: nat :: IsPowerOfTwo(p) && request <= p ==> Grown(request, Size64) <= p
  {
    hide Smear;
    var g, n := Grown(request, Size64), BitLength(request - 1);
    assert g == Pow2(n) && request <= g by {
      GrownValue(request, Size64);
    }
    forall p: nat | IsPowerOfTwo(p) && request <= p
      ensures g <= p
    {
      NoSmallerPower(request - 1, p);
    }
  }

  /** With 32-bit sizes the same holds up to 2^31; above it the sum wraps to 0 and is repaired. */
  lemma GrownIn32Bits(request: nat)
    requires 1 <= request <= UINT32_MAX
    ensures request <= Grown(request, Size32)
    ensures Grown(request, Size32) == if request <= 0x8000_0000 then Grown(request, Size64) else UINT32_MAX
  {
    GrownValue(request, Size32);
    GrownValue(request, Size64);
    RequestBits(request);
    PowValues();
    var n := BitLength(request - 1);
    if n <= 31 {
      PowMonotone(n, 31);
    } else {
      PowMonotone(32, n);
    }
  }

  /** The buffer never shrinks and always ends large enough for the request. */
  lemma EnsuredSizeSuffices(size: nat, request: nat, width: SizeWidth)
    requires request <= UINT32_MAX
    ensures size <= EnsuredSize(size, request, width) && request <= EnsuredSize(size, request, width)
  {
    if request > size {
      GrownIsLeastPowerOfTwo(request);
      GrownIn32Bits(request);
    }
  }
}
