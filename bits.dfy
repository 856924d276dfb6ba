/** C's bitwise operators on non-negative integers, defined bit by bit, with
    the arithmetic facts the driver's byte handling relies on. */
module Bits {

  /** `a | b` */
  function Or(a: nat, b: nat): nat
    decreases a + b
  {
    if a == 0 && b == 0 then 0
    else 2 * Or(a / 2, b / 2) + (if a % 2 == 1 || b % 2 == 1 then 1 else 0)
  }

  /** `a & b` */
  function And(a: nat, b: nat): nat
    decreases a + b
  {
    if a == 0 || b == 0 then 0
    else 2 * And(a / 2, b / 2) + (if a % 2 == 1 && b % 2 == 1 then 1 else 0)
  }

  /** `a << k` */
  function Shl(a: nat, k: nat): nat
  {
    if k == 0 then a else 2 * Shl(a, k - 1)
  }

  /** `a >> k` */
  function Shr(a: nat, k: nat): nat
  {
    if k == 0 then a else Shr(a / 2, k - 1)
  }

  lemma {:induction false} OrZero(a: nat)
    ensures Or(0, a) == a && Or(a, 0) == a
    decreases a
  {
    if a > 0 {
      OrZero(a / 2);
    }
  }

  /** The lowest bit of `2x | d` is that of `d`. */
  lemma OrEven(x: nat, d: nat)
    ensures Or(2 * x, d) == 2 * Or(x, d / 2) + d % 2
  {
    if x != 0 || d != 0 {
      assert (2 * x) / 2 == x && (2 * x) % 2 == 0;
    }
  }

  /** `(a << 4) | x` keeps the low nibble of `x` unchanged. */
  lemma OrNibble(a: nat, x: nat)
    ensures Or(16 * a, x) == 16 * Or(a, x / 16) + x % 16
  {
    OrEven(8 * a, x);
    OrEven(4 * a, x / 2);
    OrEven(2 * a, x / 4);
    OrEven(a, x / 8);
    assert x / 2 / 2 == x / 4 && x / 4 / 2 == x / 8 && x / 8 / 2 == x / 16;
  }

  /** `(a << 8) | x` keeps the low byte of `x` unchanged. */
  lemma OrByte(a: nat, x: nat)
    ensures Or(256 * a, x) == 256 * Or(a, x / 256) + x % 256
  {
    OrNibble(16 * a, x);
    OrNibble(a, x / 16);
    assert x / 16 / 16 == x / 256;
    assert 16 * (x / 16 % 16) + x % 16 == x % 256;
  }

  /** OR-ing a value below 16 into a multiple of 16 is addition. */
  lemma OrDisjointNibble(h: nat, d: nat)
    requires d < 16
    ensures Or(16 * h, d) == 16 * h + d
  {
    OrNibble(h, d);
    OrZero(h);
  }

  lemma AndOdd(x: nat, m: nat)
    ensures And(x, 2 * m + 1) == 2 * And(x / 2, m) + x % 2
  {
    if x == 0 {
      assert And(x / 2, m) == 0;
    } else {
      assert (2 * m + 1) / 2 == m && (2 * m + 1) % 2 == 1;
    }
  }

  lemma AndEven(x: nat, m: nat)
    ensures And(x, 2 * m) == 2 * And(x / 2, m)
  {
    if x == 0 {
      assert And(x / 2, m) == 0;
    } else if m == 0 {
      assert And(x / 2, m) == 0;
    } else {
      assert (2 * m) / 2 == m && (2 * m) % 2 == 0;
    }
  }

  /** `x & 0x0F` is the low nibble. */
  lemma AndLowNibble(x: nat)
    ensures And(x, 0x0F) == x % 16
  {
    AndOdd(x, 7);
    AndOdd(x / 2, 3);
    AndOdd(x / 4, 1);
    AndOdd(x / 8, 0);
    assert And(x / 16, 0) == 0;
    assert x / 2 / 2 == x / 4 && x / 4 / 2 == x / 8 && x / 8 / 2 == x / 16;
  }

  /** `x & 7` is the low three bits. */
  lemma AndLowThree(y: nat)
    ensures And(y, 7) == y % 8
  {
    AndOdd(y, 3);
    AndOdd(y / 2, 1);
    AndOdd(y / 4, 0);
    assert And(y / 8, 0) == 0;
    assert y / 2 / 2 == y / 4 && y / 4 / 2 == y / 8;
  }

  /** `x & 0x70` keeps bits 6..4: three bits of the high nibble. */
  lemma AndTensMask(x: nat)
    ensures And(x, 0x70) == 16 * (x / 16 % 8)
  {
    AndEven(x, 56);
    AndEven(x / 2, 28);
    AndEven(x / 4, 14);
    AndEven(x / 8, 7);
    assert x / 2 / 2 == x / 4 && x / 4 / 2 == x / 8 && x / 8 / 2 == x / 16;
    AndLowThree(x / 16);
  }

  lemma ShlFour(a: nat)
    ensures Shl(a, 4) == 16 * a
  {
    assert Shl(a, 1) == 2 * a;
    assert Shl(a, 2) == 4 * a;
    assert Shl(a, 3) == 8 * a;
  }

  lemma ShrFour(a: nat)
    ensures Shr(a, 4) == a / 16
  {
    var a1, a2, a3 := a / 2, a / 2 / 2, a / 2 / 2 / 2;
    assert Shr(a3 / 2, 0) == a3 / 2;
    assert Shr(a3, 1) == a3 / 2;
    assert Shr(a2, 2) == a3 / 2;
    assert Shr(a1, 3) == a3 / 2;
    assert a3 / 2 == a / 16;
  }
}
