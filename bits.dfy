/**
 * Python's shift-left and bitwise OR on non-negative integers.
 *
 * The exporter assembles every multi-byte register with `hi << 8 | lo`
 * (and the four-byte variant). Python integers are unbounded, so these are
 * the operations on naturals, not on a fixed machine width.
 */
module Bits {

  function Pow2(n: nat): (r: nat)
    ensures r >= 1
  {
    if n == 0 then 1 else 2 * Pow2(n - 1)
  }

  /** The powers the exporter's shifts use. */
  lemma Pow2Constants()
    ensures Pow2(8) == 0x100 && Pow2(16) == 0x1_0000 && Pow2(24) == 0x100_0000
  {
    assert Pow2(4) == 16;
    assert Pow2(8) == 256;
    assert Pow2(12) == 4096;
    assert Pow2(16) == 65536;
    assert Pow2(20) == 1048576;
  }

  /** `x << n` for a non-negative `x`. */
  function Shl(x: nat, n: nat): nat
  {
    x * Pow2(n)
  }

  /** `a | b` for non-negative `a` and `b`, one bit at a time from the low end. */
  function Or(a: nat, b: nat): nat
    decreases a + b
  {
    if a == 0 then b
    else if b == 0 then a
    else 2 * Or(a / 2, b / 2) + (if a % 2 == 1 || b % 2 == 1 then 1 else 0)
  }

  /**
   * When `a` is a multiple of 2^k and `b` is below 2^k, their bits do not
   * overlap and `a | b` is plain addition.
   */
  lemma {:induction false} OrDisjoint(c: nat, b: nat, k: nat)
    requires b < Pow2(k)
    ensures Or(c * Pow2(k), b) == c * Pow2(k) + b
  {
    if k == 0 {
      assert b == 0;
    } else {
      var a := c * Pow2(k);
      var p := c * Pow2(k - 1);
      assert a == 2 * p;
      if a != 0 && b != 0 {
        assert a / 2 == p && a % 2 == 0;
        OrDisjoint(c, b / 2, k - 1);
        assert Or(a, b) == 2 * (p + b / 2) + b % 2;
      }
    }
  }

  /** `hi << 8 | lo` is the little-endian value of the pair. */
  lemma Or16(lo: nat, hi: nat)
    requires lo < 0x100
    ensures Or(Shl(hi, 8), lo) == lo + 0x100 * hi
  {
    Pow2Constants();
    OrDisjoint(hi, lo, 8);
  }

  /** `b3 << 24 | b2 << 16 | b1 << 8 | b0`, grouped from the left as Python does. */
  lemma Or32(b0: nat, b1: nat, b2: nat, b3: nat)
    requires b0 < 0x100 && b1 < 0x100 && b2 < 0x100
    ensures Or(Or(Or(Shl(b3, 24), Shl(b2, 16)), Shl(b1, 8)), b0)
         == b0 + 0x100 * b1 + 0x1_0000 * b2 + 0x100_0000 * b3
  {
    Pow2Constants();
    OrDisjoint(b3, b2 * 0x1_0000, 24);
    var upper := 0x100 * b3 + b2;
    assert Or(Shl(b3, 24), Shl(b2, 16)) == upper * Pow2(16);
    OrDisjoint(upper, b1 * 0x100, 16);
    var three := 0x1_0000 * b3 + 0x100 * b2 + b1;
    assert Or(Or(Shl(b3, 24), Shl(b2, 16)), Shl(b1, 8)) == three * Pow2(8);
    OrDisjoint(three, b0, 8);
  }
}
