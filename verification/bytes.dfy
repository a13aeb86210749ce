/**
 * Bytes are bit-vectors (bv8), as the registers they travel through. Where a
 * byte is used as a count (a transfer length, a buffer size) its unsigned value
 * is Value(b). Value is defined bit by bit and recursively, so that the prover
 * unfolds it one bit at a time instead of converting between bit-vectors and
 * integers; ValueIsConversion shows it is the usual conversion.
 */
module Bytes {

  /** The least significant bit of `b`, as 0 or 1. */
  function Low(b: bv8): nat {
    if b & 1 != 0 then 1 else 0
  }

  /** The unsigned value of the low `k` bits of `b`. */
  function LowValue(b: bv8, k: nat): nat
    requires k <= 8
  {
    if k == 0 then 0 else Low(b) + 2 * LowValue(b >> 1, k - 1)
  }

  /** The unsigned value of a byte. */
  function Value(b: bv8): nat {
    LowValue(b, 8)
  }

  function Bit(b: bv8, mask: bv8, weight: nat): nat {
    if b & mask != 0 then weight else 0
  }

  /** The value of a byte as the sum of the weights of its set bits. */
  function BitSum(b: bv8): nat {
    Bit(b, 0x80, 128) + Bit(b, 0x40, 64) + Bit(b, 0x20, 32) + Bit(b, 0x10, 16)
      + Bit(b, 0x08, 8) + Bit(b, 0x04, 4) + Bit(b, 0x02, 2) + Bit(b, 0x01, 1)
  }

  /** Value unrolled: each bit of the byte, shifted down, times its weight. */
  lemma ValueUnrolled(b: bv8)
    ensures Value(b) == Low(b) + 2 * Low(b >> 1) + 4 * Low(b >> 2) + 8 * Low(b >> 3)
      + 16 * Low(b >> 4) + 32 * Low(b >> 5) + 64 * Low(b >> 6) + 128 * Low(b >> 7)
  {
    assert LowValue(b >> 7, 1) == Low(b >> 7);
    assert LowValue(b >> 6, 2) == Low(b >> 6) + 2 * Low(b >> 7);
    assert LowValue(b >> 5, 3) == Low(b >> 5) + 2 * LowValue(b >> 6, 2);
    assert LowValue(b >> 4, 4) == Low(b >> 4) + 2 * LowValue(b >> 5, 3);
    assert LowValue(b >> 3, 5) == Low(b >> 3) + 2 * LowValue(b >> 4, 4);
    assert LowValue(b >> 2, 6) == Low(b >> 2) + 2 * LowValue(b >> 3, 5);
    assert LowValue(b >> 1, 7) == Low(b >> 1) + 2 * LowValue(b >> 2, 6);
  }

  lemma ValueIsBitSum(b: bv8)
    ensures Value(b) == BitSum(b)
  {
    ValueUnrolled(b);
    assert 128 * Low(b >> 7) == Bit(b, 0x80, 128);
    assert 64 * Low(b >> 6) == Bit(b, 0x40, 64);
    assert 32 * Low(b >> 5) == Bit(b, 0x20, 32);
    assert 16 * Low(b >> 4) == Bit(b, 0x10, 16);
    assert 8 * Low(b >> 3) == Bit(b, 0x08, 8);
    assert 4 * Low(b >> 2) == Bit(b, 0x04, 4);
    assert 2 * Low(b >> 1) == Bit(b, 0x02, 2);
  }

  /** A byte holds at most 255. */
  lemma ValueBound(b: bv8)
    ensures Value(b) < 0x100
  {
    ValueUnrolled(b);
  }

  /** Value is Dafny's conversion of a bit-vector to an integer. */
  lemma ValueIsConversion(b: bv8)
    ensures Value(b) == b as int
  {
    ValueIsBitSum(b);
  }

  /** The byte counts the driver writes as literals. */
  lemma SmallValues()
    ensures Value(0) == 0 && Value(1) == 1 && Value(2) == 2
  {
    ValueIsConversion(0);
    ValueIsConversion(1);
    ValueIsConversion(2);
  }
}
