/** JavaScript's bitwise `&` as the decoders use it: an int32 operand masked
    by a small non-negative constant, the result being a non-negative number
    whose truthiness gates an optional field. */
module Bits {

  function Pow2(k: nat): (r: nat)
    ensures r > 0
  {
    if k == 0 then 1 else 2 * Pow2(k - 1)
  }

  /** `x & mask`: the bits of the two's-complement form of `x` that are also
      set in `mask`. Dafny's `/` and `%` are Euclidean, so `x / 2` and `x % 2`
      shift and test the low bit of negative operands as two's complement
      does. */
  function And(x: int, mask: nat): (r: nat)
    ensures r <= mask
    decreases mask
  {
    if mask == 0 then 0
    else 2 * And(x / 2, mask / 2) + (if mask % 2 == 1 then x % 2 else 0)
  }

  /** One step of `And`: a mask with its low bit set keeps the low bit of
      `x`, and the rest of the mask applies to `x` shifted right. */
  lemma AndOddMask(x: int, m: nat)
    ensures And(x, 2 * m + 1) == 2 * And(x / 2, m) + x % 2
  {
  }

  /** One step of `And`: a mask with its low bit clear drops the low bit of
      `x`. */
  lemma AndEvenMask(x: int, m: nat)
    ensures And(x, 2 * m) == 2 * And(x / 2, m)
  {
  }

  /** The truthiness of `flags & mask` in JavaScript. */
  predicate Has(flags: int, mask: nat) {
    And(flags, mask) != 0
  }

  /** Bit k of the two's-complement form of `x`. */
  function BitOf(x: int, k: nat): (r: nat)
    ensures r < 2
    decreases k
  {
    if k == 0 then x % 2 else BitOf(x / 2, k - 1)
  }

  /** Masking with one bit keeps that bit: `x & 2^k` is `2^k` when bit k of
      `x` is set and 0 otherwise. */
  lemma {:induction false} AndBit(x: int, k: nat)
    ensures And(x, Pow2(k)) == Pow2(k) * BitOf(x, k)
    decreases k
  {
    var p := Pow2(k);
    if k == 0 {
      assert And(x, p) == 2 * And(x / 2, 0) + (if x % 2 == 1 then 1 else 0);
    } else {
      AndBit(x / 2, k - 1);
      assert p / 2 == Pow2(k - 1) && p % 2 == 0;
      assert And(x, p) == 2 * And(x / 2, Pow2(k - 1));
      if BitOf(x, k) == 0 {
        assert And(x / 2, Pow2(k - 1)) == 0;
      } else {
        assert And(x / 2, Pow2(k - 1)) == Pow2(k - 1);
      }
    }
  }

  /** Dropping the low bit of `c + 2 * g`. */
  lemma Peel(c: nat, g: int, k: nat)
    requires c < 2
    ensures BitOf(c + 2 * g, 0) == c
    ensures BitOf(c + 2 * g, k + 1) == BitOf(g, k)
  {
    assert (c + 2 * g) / 2 == g;
  }

  /** The bits of a five-bit number. */
  lemma FieldBits(c0: nat, c1: nat, c2: nat, c3: nat, c4: nat)
    requires c0 < 2 && c1 < 2 && c2 < 2 && c3 < 2 && c4 < 2
    ensures var f := c0 + 2 * c1 + 4 * c2 + 8 * c3 + 16 * c4;
      && BitOf(f, 0) == c0 && BitOf(f, 1) == c1 && BitOf(f, 2) == c2
      && BitOf(f, 3) == c3 && BitOf(f, 4) == c4
  {
    var g3 := c3 + 2 * c4;
    var g2 := c2 + 2 * g3;
    var g1 := c1 + 2 * g2;
    Peel(c0, g1, 0);
    Peel(c0, g1, 1);
    Peel(c0, g1, 2);
    Peel(c0, g1, 3);
    Peel(c1, g2, 0);
    Peel(c1, g2, 1);
    Peel(c1, g2, 2);
    Peel(c2, g3, 0);
    Peel(c2, g3, 1);
    Peel(c3, c4, 0);
    Peel(c4, 0, 0);
  }

  /** Masking a five-bit number with one of its bits tests that bit. */
  lemma FieldMasks(c0: nat, c1: nat, c2: nat, c3: nat, c4: nat)
    requires c0 < 2 && c1 < 2 && c2 < 2 && c3 < 2 && c4 < 2
    ensures var f := c0 + 2 * c1 + 4 * c2 + 8 * c3 + 16 * c4;
      && And(f, 1) == c0 && And(f, 2) == 2 * c1 && And(f, 4) == 4 * c2
      && And(f, 8) == 8 * c3 && And(f, 16) == 16 * c4
  {
    var f := c0 + 2 * c1 + 4 * c2 + 8 * c3 + 16 * c4;
    FieldBits(c0, c1, c2, c3, c4);
    assert Pow2(1) == 2 && Pow2(2) == 4 && Pow2(3) == 8 && Pow2(4) == 16;
    AndBit(f, 0);
    AndBit(f, 1);
    AndBit(f, 2);
    AndBit(f, 3);
    AndBit(f, 4);
  }

  /** A flags byte made of five booleans has exactly those bits set. */
  lemma FlagsHas(b0: bool, b1: bool, b2: bool, b3: bool, b4: bool)
    ensures var f := Flag(b0) + 2 * Flag(b1) + 4 * Flag(b2) + 8 * Flag(b3) + 16 * Flag(b4);
      && Has(f, 0x1) == b0 && Has(f, 0x2) == b1 && Has(f, 0x4) == b2
      && Has(f, 0x8) == b3 && Has(f, 0x10) == b4
  {
    FieldMasks(Flag(b0), Flag(b1), Flag(b2), Flag(b3), Flag(b4));
  }

  /** A flag as a bit value. */
  function Flag(b: bool): nat {
    if b then 1 else 0
  }

  // ---------------------------------------------------------------------
  // Helpers for the bit-field selectors of weight_scale_feature: the low
  // bits a small mask keeps, as a remainder
  // ---------------------------------------------------------------------

  /** Helper: dropping the low bit and putting it back leaves the low k bits
      as they were. */
  lemma HalvingMod4(x: int)
    ensures x % 4 == 2 * ((x / 2) % 2) + x % 2
  {
  }

  lemma HalvingMod8(x: int)
    ensures x % 8 == 2 * ((x / 2) % 4) + x % 2
  {
  }

  lemma HalvingMod16(x: int)
    ensures x % 16 == 2 * ((x / 2) % 8) + x % 2
  {
  }

  /** Helper: masking with 0x1, 0x3, 0x7 and 0xF keeps the low one, two, three and
      four bits. */
  lemma AndLowBit(x: int)
    ensures And(x, 0x1) == x % 2
  {
    AndOddMask(x, 0);
  }

  lemma AndLowTwoBits(x: int)
    ensures And(x, 0x3) == x % 4
  {
    AndOddMask(x, 1);
    AndLowBit(x / 2);
    HalvingMod4(x);
  }

  lemma AndLowThreeBits(x: int)
    ensures And(x, 0x7) == x % 8
  {
    AndOddMask(x, 3);
    AndLowTwoBits(x / 2);
    HalvingMod8(x);
  }

  lemma AndLowBits(x: int)
    ensures And(x, 0x7) == x % 8
    ensures And(x, 0xF) == x % 16
  {
    AndLowThreeBits(x);
    AndOddMask(x, 7);
    AndLowThreeBits(x / 2);
    HalvingMod16(x);
  }

  /** Helper: bit 3 of a number is the high bit of its low four bits. */
  lemma NibbleHighBit(x: int)
    ensures x % 16 == x % 8 + 8 * ((x / 8) % 2)
  {
  }
}
