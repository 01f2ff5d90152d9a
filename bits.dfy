/**
 * Bitwise arithmetic on unbounded naturals: powers of two, bitwise OR and
 * AND, and the facts about them that the dxyflake bit layout relies on
 * (OR of disjoint fields is addition, AND with a contiguous mask extracts a
 * field, OR stays within a bit width).
 */
module Bits {

  function Pow2(k: nat): (r: nat)
    ensures r >= 1
  {
    if k == 0 then 1 else 2 * Pow2(k - 1)
  }

  lemma {:induction false} Pow2Add(a: nat, b: nat)
    ensures Pow2(a + b) == Pow2(a) * Pow2(b)
  {
    if a > 0 {
      Pow2Add(a - 1, b);
      assert Pow2(a + b) == 2 * Pow2(a - 1 + b);
    }
  }

  /** The powers of two that the 64-bit layout mentions, as literals. */
  lemma Pow2Values()
    ensures Pow2(5) == 0x20 && Pow2(12) == 0x1000 && Pow2(16) == 0x1_0000
    ensures Pow2(17) == 0x2_0000 && Pow2(22) == 0x40_0000
    ensures Pow2(33) == 0x2_0000_0000 && Pow2(34) == 0x4_0000_0000
    ensures Pow2(41) == 0x200_0000_0000
    ensures Pow2(63) == 0x8000_0000_0000_0000 && Pow2(64) == 0x1_0000_0000_0000_0000
  {
    assert Pow2(2) == 4;
    assert Pow2(4) == 16;
    assert Pow2(5) == 32;
    Pow2Add(4, 4);
    Pow2Add(8, 4);
    Pow2Add(8, 8);
    Pow2Add(16, 1);
    Pow2Add(17, 5);
    Pow2Add(16, 16);
    Pow2Add(32, 1);
    Pow2Add(33, 1);
    Pow2Add(32, 8);
    Pow2Add(40, 1);
    Pow2Add(32, 31);
    Pow2Add(16, 15);
    Pow2Add(12, 3);
    Pow2Add(63, 1);
  }

  /** Bitwise OR of two naturals. */
  function Or(a: nat, b: nat): (r: nat)
    decreases a
  {
    if a == 0 then b
    else if b == 0 then a
    else 2 * Or(a / 2, b / 2) + (if a % 2 == 1 || b % 2 == 1 then 1 else 0)
  }

  /** Bitwise AND of two naturals. */
  function And(a: nat, b: nat): (r: nat)
    decreases a
  {
    if a == 0 || b == 0 then 0
    else 2 * And(a / 2, b / 2) + (if a % 2 == 1 && b % 2 == 1 then 1 else 0)
  }

  /** AND never exceeds either operand. */
  lemma {:induction false} AndUpper(a: nat, b: nat)
    ensures And(a, b) <= b && And(a, b) <= a
  {
    if a != 0 && b != 0 {
      AndUpper(a / 2, b / 2);
    }
  }

  /** OR of a value with itself is that value. */
  lemma {:induction false} OrIdempotent(a: nat)
    ensures Or(a, a) == a
  {
    if a != 0 {
      OrIdempotent(a / 2);
    }
  }

  /** OR of two values of at most n bits has at most n bits. */
  lemma {:induction false} OrBound(a: nat, b: nat, n: nat)
    requires a < Pow2(n) && b < Pow2(n)
    ensures Or(a, b) < Pow2(n)
  {
    if a != 0 && b != 0 {
      assert n > 0;
      OrBound(a / 2, b / 2, n - 1);
    }
  }

  /** OR-ing a value shifted left by k with a value below 2^k is addition. */
  lemma {:induction false} OrDisjoint(hi: nat, lo: nat, k: nat)
    requires lo < Pow2(k)
    ensures Or(hi * Pow2(k), lo) == hi * Pow2(k) + lo
  {
    if hi != 0 && lo != 0 {
      assert k > 0;
      var h := hi * Pow2(k - 1);
      assert hi * Pow2(k) == 2 * h;
      assert (2 * h) / 2 == h && (2 * h) % 2 == 0;
      OrDisjoint(hi, lo / 2, k - 1);
      assert Or(hi * Pow2(k), lo) == 2 * Or(h, lo / 2) + lo % 2;
    }
  }

  /** AND with the mask of the low w bits (p == 2^w) is the remainder modulo 2^w. */
  lemma {:induction false} AndLowMask(x: nat, w: nat, p: nat)
    requires p >= 1 && p == Pow2(w)
    ensures And(x, p - 1) == x % p
  {
    if w == 0 {
    } else if x == 0 {
    } else {
      var h := Pow2(w - 1);
      assert p == 2 * h;
      assert (p - 1) / 2 == h - 1 && (p - 1) % 2 == 1;
      AndLowMask(x / 2, w - 1, h);
      DivModNested(x, h);
    }
  }

  /** x mod 2p, read through its low bit and x / 2. */
  lemma DivModNested(x: nat, p: nat)
    requires p >= 1
    ensures x % (2 * p) == 2 * ((x / 2) % p) + x % 2
  {
    var q := x / 2;
    assert x == 2 * q + x % 2;
    assert q == p * (q / p) + q % p;
    assert x == (2 * p) * (q / p) + (2 * (q % p) + x % 2);
    DivModUnique(x, 2 * p, q / p, 2 * (q % p) + x % 2);
  }

  /** Division and remainder are determined by x == d * a + b with 0 <= b < d. */
  lemma DivModUnique(x: int, d: int, a: int, b: int)
    requires d > 0 && 0 <= b < d && x == d * a + b
    ensures x / d == a && x % d == b
  {
    var q := x / d;
    if q > a {
      MulStrict(d, a, q);
      assert false;
    }
    if q < a {
      MulStrict(d, q, a);
      assert false;
    }
  }

  lemma MulStrict(d: int, u: int, v: int)
    requires d > 0 && u < v
    ensures d * u + d <= d * v
  {
    MulAtLeast(d, v - u);
    assert d * v == d * u + d * (v - u);
  }

  lemma {:induction false} MulAtLeast(d: nat, k: nat)
    requires k >= 1
    ensures d * k >= d
  {
    if k > 1 {
      MulAtLeast(d, k - 1);
      assert d * k == d * (k - 1) + d;
    }
  }

  /**
   * AND with a mask shifted left by k (p == 2^k, shifted == mask * 2^k):
   * shift the value right (xp == x / p), mask, shift back.
   */
  lemma {:induction false} AndShiftedMask(x: nat, mask: nat, k: nat, p: nat, shifted: nat, xp: nat)
    requires p >= 1 && p == Pow2(k) && shifted == mask * p && xp == x / p
    ensures And(x, shifted) == And(xp, mask) * p
  {
    if k == 0 {
      assert p == 1 && xp == x && shifted == mask;
      var a := And(x, mask);
      assert a * p == a;
    } else if mask == 0 || x == 0 {
      assert x == 0 ==> xp == 0;
      assert mask == 0 ==> shifted == 0;
      var a := And(xp, mask);
      assert a == 0 && a * p == 0;
    } else {
      var h := Pow2(k - 1);
      assert p == 2 * h;
      var m: nat := mask * h;
      assert shifted == 2 * m;
      assert shifted / 2 == m && shifted % 2 == 0;
      var f := And(xp, mask);
      var x2: nat := x / 2;
      DivNonNegative(x2, h);
      var xh: nat := x2 / h;
      DivDiv(x, 2, h);
      calc {
        And(x, shifted);
        2 * And(x2, m);
        { AndShiftedMask(x2, mask, k - 1, h, m, xh); }
        2 * (f * h);
        { Double(f, h); }
        f * p;
      }
    }
  }

  lemma Double(f: int, p: int)
    ensures 2 * (f * p) == f * (2 * p)
  {
  }

  lemma DivNonNegative(x: nat, d: int)
    requires d > 0
    ensures x / d >= 0
  {
  }

  lemma DivDiv(x: nat, a: nat, b: nat)
    requires a >= 1 && b >= 1
    ensures (x / a) / b == x / (a * b)
  {
    var q := x / a;
    assert x == a * q + x % a;
    assert q == b * (q / b) + q % b;
    assert x == (a * b) * (q / b) + (a * (q % b) + x % a);
    assert a * (q % b) + x % a < a * b by {
      assert a * (q % b) <= a * (b - 1);
    }
    DivModUnique(x, a * b, q / b, a * (q % b) + x % a);
  }

  /**
   * AND with a contiguous mask of w bits at offset k (mask == (2^w - 1) * 2^k),
   * shifted back down, extracts that field.
   */
  lemma FieldMask(x: nat, w: nat, k: nat, pw: nat, pk: nat, mask: nat)
    requires pw >= 1 && pk >= 1 && pw == Pow2(w) && pk == Pow2(k) && mask == (pw - 1) * pk
    ensures And(x, mask) / pk == (x / pk) % pw
    ensures (x / pk) % pw < pw
  {
    DivNonNegative(x, pk);
    var xk: nat := x / pk;
    AndShiftedMask(x, pw - 1, k, pk, mask, xk);
    AndLowMask(xk, w, pw);
    var f := xk % pw;
    assert (f * pk) / pk == f by { DivModUnique(f * pk, pk, f, 0); }
  }
}
