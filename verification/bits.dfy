/** Bitwise operators of C on non-negative integers, computed bit by bit over
    an explicit width. On operands below 2^width they agree with C's `&`, `|`
    and `^`; byte operands use width 8. */
module Bits {

  function Pow2(n: nat): (r: nat)
    ensures r >= 1
  {
    if n == 0 then 1 else 2 * Pow2(n - 1)
  }

  /** `a & b` over the low `width` bits. */
  function And(a: nat, b: nat, width: nat): (r: nat)
    ensures r < Pow2(width)
  {
    if width == 0 then 0
    else 2 * And(a / 2, b / 2, width - 1) + (if a % 2 == 1 && b % 2 == 1 then 1 else 0)
  }

  /** `a | b` over the low `width` bits. */
  function Or(a: nat, b: nat, width: nat): (r: nat)
    ensures r < Pow2(width)
  {
    if width == 0 then 0
    else 2 * Or(a / 2, b / 2, width - 1) + (if a % 2 == 1 || b % 2 == 1 then 1 else 0)
  }

  /** `a ^ b` over the low `width` bits. */
  function Xor(a: nat, b: nat, width: nat): (r: nat)
    ensures r < Pow2(width)
  {
    if width == 0 then 0
    else 2 * Xor(a / 2, b / 2, width - 1) + (if a % 2 != b % 2 then 1 else 0)
  }

  lemma {:induction false} AndZero(a: nat, width: nat)
    ensures And(a, 0, width) == 0
  {
    if width > 0 {
      AndZero(a / 2, width - 1);
    }
  }

  /** Masking with 1 keeps exactly the lowest bit. */
  lemma AndOne(a: nat, width: nat)
    requires width > 0
    ensures And(a, 1, width) == a % 2
  {
    AndZero(a / 2, width - 1);
  }

  /** Masking with the top bit of the width yields that bit's weight or 0. */
  lemma {:induction false} AndTopBit(a: nat, width: nat)
    requires width > 0 && a < Pow2(width)
    ensures And(a, Pow2(width - 1), width) == if a >= Pow2(width - 1) then Pow2(width - 1) else 0
  {
    if width == 1 {
      AndOne(a, 1);
    } else {
      AndTopBit(a / 2, width - 1);
    }
  }

  lemma {:induction false} OrZero(a: nat, width: nat)
    requires a < Pow2(width)
    ensures Or(a, 0, width) == a
  {
    if width > 0 {
      OrZero(a / 2, width - 1);
    }
  }

  /** OR-ing a value shifted left by k with a value below 2^k is addition. */
  lemma {:induction false} OrDisjoint(hi: nat, lo: nat, k: nat, width: nat)
    requires lo < Pow2(k)
    requires hi * Pow2(k) + lo < Pow2(width)
    ensures Or(hi * Pow2(k), lo, width) == hi * Pow2(k) + lo
  {
    if k == 0 {
      OrZero(hi, width);
    } else if width > 0 {
      var p := Pow2(k - 1);
      assert hi * Pow2(k) == 2 * (hi * p);
      assert (hi * Pow2(k)) / 2 == hi * p;
      assert hi * p + lo / 2 < Pow2(width - 1);
      OrDisjoint(hi, lo / 2, k - 1, width - 1);
    }
  }

  /** Bit k of a, counting from the least significant bit. */
  function Bit(a: nat, k: nat): (r: nat)
    ensures r < 2
  {
    if k == 0 then a % 2 else Bit(a / 2, k - 1)
  }

  /** Bit k of `a | b` is set exactly when bit k of a or of b is set. */
  lemma {:induction false} OrBit(a: nat, b: nat, width: nat, k: nat)
    requires k < width
    ensures Bit(Or(a, b, width), k) == if Bit(a, k) == 1 || Bit(b, k) == 1 then 1 else 0
  {
    if k > 0 {
      OrBit(a / 2, b / 2, width - 1, k - 1);
    }
  }

  /** Bit k of `a & b` is set exactly when bit k of both a and b is set. */
  lemma {:induction false} AndBit(a: nat, b: nat, width: nat, k: nat)
    requires k < width
    ensures Bit(And(a, b, width), k) == if Bit(a, k) == 1 && Bit(b, k) == 1 then 1 else 0
  {
    if k > 0 {
      AndBit(a / 2, b / 2, width - 1, k - 1);
    }
  }

  /** Bit k of `a ^ b` is set exactly when bit k of a and of b differ. */
  lemma {:induction false} XorBit(a: nat, b: nat, width: nat, k: nat)
    requires k < width
    ensures Bit(Xor(a, b, width), k) == if Bit(a, k) != Bit(b, k) then 1 else 0
  {
    if k > 0 {
      XorBit(a / 2, b / 2, width - 1, k - 1);
    }
  }

  /** Two values below 2^width with the same bits are equal, so the three
      lemmas above determine `Or`, `And` and `Xor` completely. */
  lemma {:induction false} BitsDetermine(a: nat, b: nat, width: nat)
    requires a < Pow2(width) && b < Pow2(width)
    requires forall k :: 0 <= k < width ==> Bit(a, k) == Bit(b, k)
    ensures a == b
  {
    if width > 0 {
      assert Bit(a, 0) == Bit(b, 0);
      forall k | 0 <= k < width - 1
        ensures Bit(a / 2, k) == Bit(b / 2, k)
      {
        assert Bit(a, k + 1) == Bit(b, k + 1);
      }
      BitsDetermine(a / 2, b / 2, width - 1);
    }
  }

  /** The byte operators of the interpreter. */
  function AndByte(a: nat, b: nat): (r: nat)
    requires a < 0x100 && b < 0x100
    ensures r < 0x100
  {
    assert Pow2(8) == 0x100;
    And(a, b, 8)
  }

  function OrByte(a: nat, b: nat): (r: nat)
    requires a < 0x100 && b < 0x100
    ensures r < 0x100
  {
    assert Pow2(8) == 0x100;
    Or(a, b, 8)
  }

  function XorByte(a: nat, b: nat): (r: nat)
    requires a < 0x100 && b < 0x100
    ensures r < 0x100
  {
    assert Pow2(8) == 0x100;
    Xor(a, b, 8)
  }

  /** `v & 0b00000001` is the bit a right shift drops. */
  lemma AndByteOne(v: nat)
    requires v < 0x100
    ensures AndByte(v, 1) == v % 2
  {
    AndOne(v, 8);
  }

  /** `v & 0b10000000` is 128 when the top bit is set and 0 otherwise. */
  lemma AndByteTop(v: nat)
    requires v < 0x100
    ensures AndByte(v, 0x80) == if v >= 0x80 then 0x80 else 0
  {
    assert Pow2(7) == 0x80;
    assert Pow2(8) == 0x100;
    AndTopBit(v, 8);
  }

  /** `hi << 8 | lo` for two bytes is the big-endian sum. */
  lemma ComposeBytes(hi: nat, lo: nat)
    requires hi < 0x100 && lo < 0x100
    ensures Or(hi * 0x100, lo, 16) == hi * 0x100 + lo
  {
    assert Pow2(8) == 0x100;
    assert Pow2(16) == 0x1_0000;
    OrDisjoint(hi, lo, 8, 16);
  }

  /** Worked values of the byte operators on 0xA5 and 0x3C. */
  lemma ByteOperatorExamples()
    ensures OrByte(0xA5, 0x3C) == 0xBD
    ensures AndByte(0xA5, 0x3C) == 0x24
    ensures XorByte(0xA5, 0x3C) == 0x99
  {
    assert Or(1, 0, 1) == 1 && And(1, 0, 1) == 0 && Xor(1, 0, 1) == 1;
    assert Or(2, 0, 2) == 2 && And(2, 0, 2) == 0 && Xor(2, 0, 2) == 2;
    assert Or(5, 1, 3) == 5 && And(5, 1, 3) == 1 && Xor(5, 1, 3) == 4;
    assert Or(10, 3, 4) == 11 && And(10, 3, 4) == 2 && Xor(10, 3, 4) == 9;
    assert Or(20, 7, 5) == 23 && And(20, 7, 5) == 4 && Xor(20, 7, 5) == 19;
    assert Or(41, 15, 6) == 47 && And(41, 15, 6) == 9 && Xor(41, 15, 6) == 38;
    assert Or(82, 30, 7) == 94 && And(82, 30, 7) == 18 && Xor(82, 30, 7) == 76;
    assert Or(165, 60, 8) == 189 && And(165, 60, 8) == 36 && Xor(165, 60, 8) == 153;
  }
}
