/** Scalar helpers of the vector header: the tolerance constants, the
    near-zero test, the generic clamp, and the two integer steps the angle
    wrap is built from (truncation toward zero and the 16-bit mask).

    Every float of the header is modelled as a Dafny `real`; every C++ `int`
    as an unbounded `int`, with the 32-bit two's-complement view spelled out
    where the mask depends on it. */
module Scalar {

  /** kFloatEpsilon: the threshold of the near-zero test. */
  const FloatEpsilon: real := 0.01

  /** kFloatEqualEpsilon: the tolerance of fequal, reused as the divisor
      offset of the in-place division of a vector. */
  const FloatEqualEpsilon: real := 0.001

  const Int32Min: int := -0x8000_0000
  const Int32Max: int := 0x7FFF_FFFF

  function Abs(e: real): (r: real)
    ensures r >= 0.0
    ensures r == e || r == -e
  {
    if e < 0.0 then -e else e
  }

  /** fzero: a value counts as zero when its magnitude is below kFloatEpsilon. */
  predicate FZero(e: real)
  {
    Abs(e) < FloatEpsilon
  }

  /** The near-zero test is the open interval (-0.01, 0.01), symmetric in the sign. */
  lemma FZeroInterval(e: real)
    ensures FZero(e) <==> -FloatEpsilon < e < FloatEpsilon
    ensures FZero(e) <==> FZero(-e)
  {
  }

  /** clamp(x, a, b) = min(max(x, a), b), with std::max(x, a) choosing `a`
      only when x < a and std::min(m, b) choosing `b` only when b < m. The
      result is pinned to `b` when the bounds are inverted. */
  function Clamp(x: real, a: real, b: real): (r: real)
    ensures r <= b
    ensures a <= b ==> a <= r
    ensures a <= x <= b ==> r == x
    ensures x < a <= b ==> r == a
    ensures b < x || b < a ==> r == b
  {
    var m := if x < a then a else x;
    if b < m then b else m
  }

  /** Clamping a value already in range changes nothing. */
  lemma ClampIdempotent(x: real, a: real, b: real)
    ensures Clamp(Clamp(x, a, b), a, b) == Clamp(x, a, b)
  {
  }

  /** Clamp preserves the order of its first argument. */
  lemma ClampMonotone(x: real, y: real, a: real, b: real)
    requires x <= y
    ensures Clamp(x, a, b) <= Clamp(y, a, b)
  {
  }

  /** The product of two positive reals is positive. The product is passed
      in as `p` so that callers can name a square `a * a` without the
      solver losing it. */
  lemma ProductPositive(a: real, b: real, p: real)
    requires 0.0 < a && 0.0 < b && p == a * b
    ensures 0.0 < p
  {
  }

  /** A square is never negative, and it is zero exactly when its root is. */
  lemma SquareSign(a: real, p: real)
    requires p == a * a
    ensures 0.0 <= p
    ensures p == 0.0 <==> a == 0.0
  {
    if 0.0 < a {
      ProductPositive(a, a, p);
    } else if a < 0.0 {
      ProductPositive(-a, -a, p);
    }
  }

  /** static_cast<int> of a float: truncation toward zero (not floor). */
  function Trunc(x: real): (r: int)
    ensures 0.0 <= x ==> r as real <= x < r as real + 1.0
    ensures x < 0.0 ==> r as real - 1.0 < x <= r as real
    ensures (r < 0) == (x <= -1.0)
  {
    if x >= 0.0 then x.Floor else -((-x).Floor)
  }

  /** Truncation commutes with negation, which floor does not. */
  lemma TruncOdd(x: real)
    ensures Trunc(-x) == -Trunc(x)
  {
  }

  lemma TruncOfInt(k: int)
    ensures Trunc(k as real) == k
  {
  }

  /** On non-negative values, truncation commutes with adding a whole number. */
  lemma TruncShift(x: real, n: int)
    requires 0.0 <= x && 0 <= n
    ensures Trunc(x + n as real) == Trunc(x) + n
  {
  }

  /** `n & 65535` on an int, read as the Euclidean remainder modulo 2^16. */
  function Mask16(n: int): (r: int)
    ensures 0 <= r < 0x1_0000
    ensures (n - r) % 0x1_0000 == 0
  {
    n % 0x1_0000
  }

  /** Byte `i` (0 = least significant) of a value in [0, 2^32). */
  function ByteOf(u: int, i: nat): (r: int)
    requires 0 <= u < 0x1_0000_0000 && i < 4
    ensures 0 <= r < 0x100
  {
    if i == 0 then u % 0x100
    else if i == 1 then (u / 0x100) % 0x100
    else if i == 2 then (u / 0x1_0000) % 0x100
    else (u / 0x100_0000) % 0x100
  }

  /** The binary expansion of a byte value, as the low eight bits of a word. */
  function ByteBits(b: int): (w: bv32)
    requires 0 <= b < 0x100
    ensures w < 0x100
  {
    (if (b / 0x80) % 2 == 1 then 0x80 else 0)
      | (if (b / 0x40) % 2 == 1 then 0x40 else 0)
      | (if (b / 0x20) % 2 == 1 then 0x20 else 0)
      | (if (b / 0x10) % 2 == 1 then 0x10 else 0)
      | (if (b / 0x8) % 2 == 1 then 0x8 else 0)
      | (if (b / 0x4) % 2 == 1 then 0x4 else 0)
      | (if (b / 0x2) % 2 == 1 then 0x2 else 0)
      | (if b % 2 == 1 then 0x1 else 0)
  }

  /** Four bytes, most significant first, assembled into one word. */
  function Assemble(b3: bv32, b2: bv32, b1: bv32, b0: bv32): bv32
  {
    (b3 << 24) | (b2 << 16) | (b1 << 8) | b0
  }

  /** The 32 bits of a C++ int in two's complement: a negative int is
      stored as n + 2^32, and the bit pattern is assembled from its four
      bytes. */
  function Int32Bits(n: int): (b: bv32)
    requires Int32Min <= n <= Int32Max
  {
    var u := if n < 0 then n + 0x1_0000_0000 else n;
    Assemble(ByteBits(ByteOf(u, 3)), ByteBits(ByteOf(u, 2)), ByteBits(ByteOf(u, 1)), ByteBits(ByteOf(u, 0)))
  }

  /** -1 is all ones. */
  lemma Int32BitsOfMinusOne()
    ensures Int32Bits(-1) == 0xFFFF_FFFF
  {
    var u := 0xFFFF_FFFF;
    assert ByteOf(u, 3) == 0xFF && ByteOf(u, 2) == 0xFF && ByteOf(u, 1) == 0xFF && ByteOf(u, 0) == 0xFF;
    assert ByteBits(0xFF) == 0xFF;
  }

  /** The most negative int is the sign bit alone. */
  lemma Int32BitsOfMin()
    ensures Int32Bits(Int32Min) == 0x8000_0000
  {
    var u := 0x8000_0000;
    assert ByteOf(u, 3) == 0x80 && ByteOf(u, 2) == 0 && ByteOf(u, 1) == 0 && ByteOf(u, 0) == 0;
    assert ByteBits(0x80) == 0x80 && ByteBits(0) == 0;
  }

  /** Masking an assembled word with 0xFFFF keeps its two low bytes. */
  lemma AssembledLowHalf(b3: int, b2: int, b1: int, b0: int)
    requires 0 <= b3 < 0x100 && 0 <= b2 < 0x100 && 0 <= b1 < 0x100 && 0 <= b0 < 0x100
    ensures Assemble(ByteBits(b3), ByteBits(b2), ByteBits(b1), ByteBits(b0)) & 0xFFFF
         == Assemble(ByteBits(0), ByteBits(0), ByteBits(b1), ByteBits(b0))
  {
  }

  lemma LowBytesOfRemainder(u: int, m: int)
    requires 0 <= u < 0x1_0000_0000 && m == u % 0x1_0000
    ensures ByteOf(m, 0) == ByteOf(u, 0) && ByteOf(m, 1) == ByteOf(u, 1)
    ensures ByteOf(m, 2) == 0 && ByteOf(m, 3) == 0
  {
  }

  /** The C++ header's `n & 65535` on an int: masking the two's-complement bits
      of any int, negative ones included, leaves exactly the bits of the
      Euclidean remainder n % 65536. This licenses modelling the mask as
      `Mask16`. */
  lemma AndMask16IsMask16(n: int)
    requires Int32Min <= n <= Int32Max
    ensures Int32Bits(n) & 0xFFFF == Int32Bits(Mask16(n))
  {
    var u := if n < 0 then n + 0x1_0000_0000 else n;
    var m := Mask16(n);
    assert m == u % 0x1_0000;
    var b3, b2, b1, b0 := ByteOf(u, 3), ByteOf(u, 2), ByteOf(u, 1), ByteOf(u, 0);
    assert Int32Bits(n) == Assemble(ByteBits(b3), ByteBits(b2), ByteBits(b1), ByteBits(b0));
    assert Int32Bits(m) == Assemble(ByteBits(0), ByteBits(0), ByteBits(b1), ByteBits(b0)) by {
      LowBytesOfRemainder(u, m);
    }
    AssembledLowHalf(b3, b2, b1, b0);
  }
}
