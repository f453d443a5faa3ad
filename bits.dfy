/**
 * Bit-field extraction used by every instruction handler (include/util.inl).
 * The bus and the decoder work on bit-vectors, so masks, shifts and
 * wrap-around are exact there; the CPU works on the numbers its registers
 * hold (U32, below), and Field is bitseq on those numbers.
 * Bit positions are the template arguments of bitseq<end, start>.
 */
module Bits {

  type Word = bv32
  type Half = bv16
  type Byte = bv8

  /** A value that may be absent (a register the device does not answer from, an undefined mode). */
  datatype Option<T> = None | Some(value: T)

  /** bitseq<hi, lo> on a 32-bit value: bits hi..lo of v, moved down to bit 0 (0 when hi < lo). */
  function Bitseq(v: Word, hi: Word, lo: Word): (r: Word)
    requires hi < 32
    ensures hi < lo ==> r == 0
  {
    if hi < lo then 0 else (v & Mask(hi)) >> lo
  }

  /** The all-ones word shifted right by 31 - hi: bits hi..0 set. */
  function Mask(hi: Word): Word
    requires hi < 32
  {
    0xFFFF_FFFF >> (31 - hi)
  }

  /** The all-ones halfword shifted right by 15 - hi: bits hi..0 set. */
  function Mask16(hi: Word): Half
    requires hi < 16
  {
    0xFFFF >> (15 - hi)
  }

  /** bitseq<hi, lo> on a 16-bit value. */
  function Bitseq16(v: Half, hi: Word, lo: Word): (r: Half)
    requires hi < 16
    ensures hi < lo ==> r == 0
  {
    if hi < lo then 0 else (v & Mask16(hi)) >> lo
  }

  /** On a 16-bit input, the u16 overload of bitseq gives the same field as the u32 one. */
  lemma Bitseq16Agrees(v: Half, hi: Word, lo: Word)
    requires hi < 16
    ensures Bitseq16(v, hi, lo) as Word == Bitseq(v as Word, hi, lo)
  {
    // One lemma per start bit, so that every shift is by a constant.
    if lo > hi {
    } else if lo == 0 { AgreesFrom0(v, hi, lo);
    } else if lo == 1 { AgreesFrom1(v, hi, lo);
    } else if lo == 2 { AgreesFrom2(v, hi, lo);
    } else if lo == 3 { AgreesFrom3(v, hi, lo);
    } else if lo == 4 { AgreesFrom4(v, hi, lo);
    } else if lo == 5 { AgreesFrom5(v, hi, lo);
    } else if lo == 6 { AgreesFrom6(v, hi, lo);
    } else if lo == 7 { AgreesFrom7(v, hi, lo);
    } else if lo == 8 { AgreesFrom8(v, hi, lo);
    } else if lo == 9 { AgreesFrom9(v, hi, lo);
    } else if lo == 10 { AgreesFrom10(v, hi, lo);
    } else if lo == 11 { AgreesFrom11(v, hi, lo);
    } else if lo == 12 { AgreesFrom12(v, hi, lo);
    } else if lo == 13 { AgreesFrom13(v, hi, lo);
    } else if lo == 14 { AgreesFrom14(v, hi, lo);
    } else { AgreesFrom15(v, hi, lo);
    }
  }

  // Bitseq16Agrees for the fields that start at bit 0, 1, ..., 15.

  lemma AgreesFrom0(v: Half, hi: Word, lo: Word)
    requires lo == 0 && hi < 16
    ensures Bitseq16(v, hi, lo) as Word == Bitseq(v as Word, hi, lo)
  {
    MaskWidens(v, hi);
  }

  lemma AgreesFrom1(v: Half, hi: Word, lo: Word)
    requires lo == 1 <= hi < 16
    ensures Bitseq16(v, hi, lo) as Word == Bitseq(v as Word, hi, lo)
  {
  }

  lemma AgreesFrom2(v: Half, hi: Word, lo: Word)
    requires lo == 2 <= hi < 16
    ensures Bitseq16(v, hi, lo) as Word == Bitseq(v as Word, hi, lo)
  {
  }

  lemma AgreesFrom3(v: Half, hi: Word, lo: Word)
    requires lo == 3 <= hi < 16
    ensures Bitseq16(v, hi, lo) as Word == Bitseq(v as Word, hi, lo)
  {
  }

  lemma AgreesFrom4(v: Half, hi: Word, lo: Word)
    requires lo == 4 <= hi < 16
    ensures Bitseq16(v, hi, lo) as Word == Bitseq(v as Word, hi, lo)
  {
  }

  lemma AgreesFrom5(v: Half, hi: Word, lo: Word)
    requires lo == 5 <= hi < 16
    ensures Bitseq16(v, hi, lo) as Word == Bitseq(v as Word, hi, lo)
  {
  }

  lemma AgreesFrom6(v: Half, hi: Word, lo: Word)
    requires lo == 6 <= hi < 16
    ensures Bitseq16(v, hi, lo) as Word == Bitseq(v as Word, hi, lo)
  {
  }

  lemma AgreesFrom7(v: Half, hi: Word, lo: Word)
    requires lo == 7 <= hi < 16
    ensures Bitseq16(v, hi, lo) as Word == Bitseq(v as Word, hi, lo)
  {
  }

  lemma AgreesFrom8(v: Half, hi: Word, lo: Word)
    requires lo == 8 <= hi < 16
    ensures Bitseq16(v, hi, lo) as Word == Bitseq(v as Word, hi, lo)
  {
  }

  lemma AgreesFrom9(v: Half, hi: Word, lo: Word)
    requires lo == 9 <= hi < 16
    ensures Bitseq16(v, hi, lo) as Word == Bitseq(v as Word, hi, lo)
  {
  }

  lemma AgreesFrom10(v: Half, hi: Word, lo: Word)
    requires lo == 10 <= hi < 16
    ensures Bitseq16(v, hi, lo) as Word == Bitseq(v as Word, hi, lo)
  {
  }

  lemma AgreesFrom11(v: Half, hi: Word, lo: Word)
    requires lo == 11 <= hi < 16
    ensures Bitseq16(v, hi, lo) as Word == Bitseq(v as Word, hi, lo)
  {
  }

  lemma AgreesFrom12(v: Half, hi: Word, lo: Word)
    requires lo == 12 <= hi < 16
    ensures Bitseq16(v, hi, lo) as Word == Bitseq(v as Word, hi, lo)
  {
  }

  lemma AgreesFrom13(v: Half, hi: Word, lo: Word)
    requires lo == 13 <= hi < 16
    ensures Bitseq16(v, hi, lo) as Word == Bitseq(v as Word, hi, lo)
  {
  }

  lemma AgreesFrom14(v: Half, hi: Word, lo: Word)
    requires lo == 14 <= hi < 16
    ensures Bitseq16(v, hi, lo) as Word == Bitseq(v as Word, hi, lo)
  {
  }

  lemma AgreesFrom15(v: Half, hi: Word, lo: Word)
    requires lo == 15 <= hi < 16
    ensures Bitseq16(v, hi, lo) as Word == Bitseq(v as Word, hi, lo)
  {
  }

  /** For hi < 16, the 16-bit mask widened is the 32-bit mask applied to the widened halfword. */
  lemma MaskWidens(v: Half, hi: Word)
    requires hi < 16
    ensures (v & Mask16(hi)) as Word == (v as Word) & Mask(hi)
  {
  }

  /** Moved back up to bit lo, the field is exactly bits hi..lo of the input and nothing else. */
  lemma BitseqFieldMask(v: Word, hi: Word, lo: Word)
    requires lo <= hi < 32
    ensures Bitseq(v, hi, lo) << lo == v & (0xFFFF_FFFF >> (31 - hi)) & (0xFFFF_FFFF << lo)
  {
  }

  /** The field has no bits at or above position hi - lo + 1: it is taken modulo 2^(hi-lo+1). */
  lemma BitseqFits(v: Word, hi: Word, lo: Word)
    requires lo <= hi < 31
    ensures Bitseq(v, hi, lo) >> (hi - lo + 1) == 0
  {
  }

  /**
   * The CPU works on the numbers its registers hold rather than on bit-vectors:
   * a u32 is a number below 2^32, and every addition or subtraction that can
   * leave that range is wrapped explicitly.
   */
  type U32 = x: int | 0 <= x < 0x1_0000_0000
  type U16 = x: int | 0 <= x < 0x1_0000
  type U8 = x: int | 0 <= x < 0x100

  /**
   * A u32 result: the arithmetic value modulo 2^32. A sum or difference of
   * two u32 values is at most one 2^32 away from the range, so those cases
   * are written out before the general remainder.
   */
  function Wrap(x: int): (r: U32)
    ensures r == x % 0x1_0000_0000
  {
    if 0 <= x < 0x1_0000_0000 then x
    else if 0x1_0000_0000 <= x < 0x2_0000_0000 then x - 0x1_0000_0000
    else if -0x1_0000_0000 <= x < 0 then x + 0x1_0000_0000
    else x % 0x1_0000_0000
  }

  /** A byte value survives the conversion to a bit pattern and back. */
  lemma ByteRoundTrip(b: int)
    requires 0 <= b < 0x100
    ensures (b as Byte) as int == b
  {
    assert b % 0x100 == b;
  }

  /** For an even x, taking away bit 1 (x / 2 % 2, weighted 2) rounds x down to a multiple of 4. */
  lemma EvenRoundsDown(x: nat)
    requires x % 2 == 0
    ensures x - x / 2 % 2 * 2 == x - x % 4
  {
    var q, m := x / 4, x % 4;
    assert x == 4 * q + m;
    assert m == 0 || m == 2;
    assert x / 2 == 2 * q + m / 2;
  }

  /** Wrapping once at the end is the same as wrapping an intermediate result. */
  lemma WrapShift(x: int, d: int)
    ensures Wrap(Wrap(x) + d) == Wrap(x + d)
  {
    var q := x / 0x1_0000_0000;
    assert x == q * 0x1_0000_0000 + Wrap(x);
    assert x + d == q * 0x1_0000_0000 + (Wrap(x) + d);
  }

  /** 2^k for the bit positions of a word. */
  function Pow2(k: nat): (r: nat)
    requires k <= 32
    ensures r >= 1
  {
    if k == 0 then 1 else if k == 1 then 2 else if k == 2 then 4 else if k == 3 then 8
    else if k == 4 then 0x10 else if k == 5 then 0x20 else if k == 6 then 0x40 else if k == 7 then 0x80
    else if k == 8 then 0x100 else if k == 9 then 0x200 else if k == 10 then 0x400 else if k == 11 then 0x800
    else if k == 12 then 0x1000 else if k == 13 then 0x2000 else if k == 14 then 0x4000 else if k == 15 then 0x8000
    else if k == 16 then 0x1_0000 else if k == 17 then 0x2_0000 else if k == 18 then 0x4_0000 else if k == 19 then 0x8_0000
    else if k == 20 then 0x10_0000 else if k == 21 then 0x20_0000 else if k == 22 then 0x40_0000 else if k == 23 then 0x80_0000
    else if k == 24 then 0x100_0000 else if k == 25 then 0x200_0000 else if k == 26 then 0x400_0000 else if k == 27 then 0x800_0000
    else if k == 28 then 0x1000_0000 else if k == 29 then 0x2000_0000 else if k == 30 then 0x4000_0000 else if k == 31 then 0x8000_0000
    else 0x1_0000_0000
  }
  /** bitseq<hi, lo> on the number v: bits hi..lo of v, shifted down to bit 0. */
  function Field(v: int, hi: nat, lo: nat): (r: int)
    requires 0 <= v && hi <= 31
    ensures 0 <= r && (lo <= hi ==> r < Pow2(hi - lo + 1))
    ensures hi < lo ==> r == 0
  {
    if hi < lo then 0 else v / Pow2(lo) % Pow2(hi - lo + 1)
  }
  /** The same extraction examples, on numbers. */
  lemma FieldExamples()
    ensures Field(0xF0, 7, 4) == 0xF
    ensures Field(0x0000_000B, 3, 0) == 0xB
    ensures Field(0xC800_0000, 31, 28) == 0xC
    ensures Field(0x0000_000B, 0, 4) == 0x0
    ensures Field(0xF0A5, 15, 12) == 0xF
  {
  }

  /** Low and high byte of a halfword, and the halfword built from two bytes (little-endian pair). */
  function Lo8(v: Half): Byte { (v & 0xFF) as Byte }
  function Hi8(v: Half): Byte { (v >> 8) as Byte }
  function Pack16(hi: Byte, lo: Byte): Half { (hi as Half << 8) | lo as Half }

  /** Splitting a halfword into its bytes and packing them again are inverse. */
  lemma Pack16RoundTrip(v: Half, hi: Byte, lo: Byte)
    ensures Pack16(Hi8(v), Lo8(v)) == v
    ensures Hi8(Pack16(hi, lo)) == hi && Lo8(Pack16(hi, lo)) == lo
  {
  }

  /** Extraction examples, the first the one the header's own comment gives. */
  lemma BitseqExamples()
    ensures Bitseq(0xF0, 7, 4) == 0xF
    ensures Bitseq(0x0000_0000, 3, 0) == 0x0
    ensures Bitseq(0x0000_000B, 3, 0) == 0xB
    ensures Bitseq(0xC800_0000, 31, 28) == 0xC
    ensures Bitseq(0xC000_0C9B, 11, 0) == 0xC9B
    ensures Bitseq(0xC800_0000, 27, 27) == 0x1
    ensures Bitseq(0x0000_000B, 0, 4) == 0x0
    ensures Bitseq16(0xF0A5, 15, 12) == 0xF
    ensures Bitseq16(0xF0A5, 7, 0) == 0xA5
  {
  }
}
