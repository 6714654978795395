/** Fixed-width integers and the bitwise operators the hardware model uses.
    Rust's `&`, `|`, `>>` and `<<` on `u8`/`u16` values are written as the
    functions below on naturals, and the lemmas turn the masks that occur in
    the source into ordinary division and remainder. */
module Bits {

  /** Rust `u8`. */
  type u8 = x: int | 0 <= x < 0x100
  /** Rust `u16`. */
  type u16 = x: int | 0 <= x < 0x1_0000

  function Pow2(k: nat): (r: nat)
    ensures r >= 1
  {
    if k == 0 then 1 else 2 * Pow2(k - 1)
  }

  /** The powers of two that the source's masks and shifts use. */
  lemma Pow2Table()
    ensures Pow2(1) == 2 && Pow2(2) == 4 && Pow2(3) == 8 && Pow2(4) == 0x10
    ensures Pow2(5) == 0x20 && Pow2(7) == 0x80 && Pow2(10) == 0x400 && Pow2(11) == 0x800
    ensures Pow2(12) == 0x1000 && Pow2(13) == 0x2000 && Pow2(14) == 0x4000 && Pow2(15) == 0x8000
  {
  }

  /** Bitwise AND, one bit at a time from the least significant bit. */
  function And(x: nat, y: nat): (r: nat)
    ensures r <= x && r <= y
    decreases x
  {
    if x == 0 || y == 0 then 0
    else 2 * And(x / 2, y / 2) + (if x % 2 == 1 && y % 2 == 1 then 1 else 0)
  }

  /** Bitwise OR, one bit at a time from the least significant bit. */
  function Or(x: nat, y: nat): (r: nat)
    ensures x <= r && y <= r && r <= x + y
    decreases x + y
  {
    if x == 0 then y
    else if y == 0 then x
    else 2 * Or(x / 2, y / 2) + (if x % 2 == 1 || y % 2 == 1 then 1 else 0)
  }

  /** Logical shift right by `k` bits. */
  function Shr(x: nat, k: nat): nat
  {
    if k == 0 then x else Shr(x / 2, k - 1)
  }

  /** Shift left by `k` bits (the callers stay inside their width). */
  function Shl(x: nat, k: nat): nat
  {
    x * Pow2(k)
  }

  /** Euclidean division is unique: the quotient and remainder of `x` by `m`
      are the `a` and `c` of any decomposition `x == m * a + c`. */
  lemma DivModUnique(x: int, m: int, a: int, c: int)
    requires m > 0 && 0 <= c < m && x == m * a + c
    ensures x / m == a && x % m == c
  {
    var q, r := x / m, x % m;
    assert x == m * q + r;
    assert m * (a + 1) == m * a + m;
    assert m * (q + 1) == m * q + m;
    if q > a {
      MulMonotone(m, a + 1, q);
    } else if q < a {
      MulMonotone(m, q + 1, a);
    }
  }

  lemma MulMonotone(m: int, s: int, t: int)
    requires m > 0 && s <= t
    ensures m * s <= m * t
  {
    var e := t - s;
    assert m * t == m * s + m * e;
    assert m * e >= 0;
  }

  /** Dividing by `2 * p` is halving, then dividing by `p`; the remainder
      keeps the low bit and the remainder of the half. */
  lemma DivModHalf(x: nat, p: nat)
    requires p >= 1
    ensures x / (2 * p) == (x / 2) / p
    ensures x % (2 * p) == 2 * ((x / 2) % p) + x % 2
  {
    var q, r := x / 2, x % 2;
    var a, b := q / p, q % p;
    assert q == p * a + b;
    assert x == 2 * q + r;
    assert x == (2 * p) * a + (2 * b + r);
    DivModUnique(x, 2 * p, a, 2 * b + r);
  }

  /** The remainder by `2 * p` is the remainder by `p` plus the next bit
      above it. */
  lemma ModDoubleHigh(x: nat, p: nat)
    requires p >= 1
    ensures x % (2 * p) == p * ((x / p) % 2) + x % p
    ensures x / (2 * p) == (x / p) / 2
  {
    var q, r := x / p, x % p;
    var s, t := q / 2, q % 2;
    assert x == p * q + r;
    assert q == 2 * s + t;
    assert p * q == (2 * p) * s + p * t;
    DivModUnique(x, 2 * p, s, p * t + r);
  }

  /** Shifting right by `k` bits divides by `Pow2(k)`. */
  lemma {:induction false} ShrDiv(x: nat, k: nat)
    ensures Shr(x, k) == x / Pow2(k)
  {
    if k > 0 {
      ShrDiv(x / 2, k - 1);
      DivModHalf(x, Pow2(k - 1));
    }
  }

  /** AND with `Pow2(k) - 1` keeps the low `k` bits. */
  lemma {:induction false} AndLowMask(x: nat, m: nat, k: nat)
    requires m == Pow2(k) - 1
    ensures And(x, m) == x % (m + 1)
  {
    if k == 0 || x == 0 {
    } else {
      var p := Pow2(k - 1);
      DivModUnique(m, 2, p - 1, 1);
      AndLowMask(x / 2, p - 1, k - 1);
      DivModHalf(x, p);
    }
  }

  /** The low `k` bits of an AND, one bit position at a time: the bit at
      position 0 and the bits of the halves below position `k - 1`. */
  lemma AndLowHalf(x: nat, y: nat, h: nat)
    requires h >= 1
    ensures And(x % (2 * h), y % (2 * h))
         == 2 * And((x / 2) % h, (y / 2) % h) + (if x % 2 == 1 && y % 2 == 1 then 1 else 0)
  {
    DivModHalf(x, h);
    DivModHalf(y, h);
    var u, v := x % (2 * h), y % (2 * h);
    DivModUnique(u, 2, (x / 2) % h, x % 2);
    DivModUnique(v, 2, (y / 2) % h, y % 2);
    if u == 0 || v == 0 {
      assert And(u, v) == 0;
    } else {
      assert And(u, v) == 2 * And(u / 2, v / 2) + (if u % 2 == 1 && v % 2 == 1 then 1 else 0);
    }
  }

  /** AND splits at any bit position `k`: the bits above and the bits below
      are combined separately. */
  lemma {:induction false} AndSplit(x: nat, y: nat, p: nat, k: nat)
    requires p == Pow2(k)
    ensures And(x, y) == p * And(Shr(x, k), Shr(y, k)) + And(x % p, y % p)
  {
    if k == 0 {
    } else if x == 0 {
      ShrDiv(x, k);
      DivModUnique(x, p, 0, 0);
    } else if y == 0 {
      ShrDiv(y, k);
      DivModUnique(y, p, 0, 0);
    } else {
      var h := Pow2(k - 1);
      var b := if x % 2 == 1 && y % 2 == 1 then 1 else 0;
      DivModHalf(x, h);
      DivModHalf(y, h);
      AndSplit(x / 2, y / 2, h, k - 1);
      AndLowHalf(x, y, h);
      assert p == 2 * h;
      var l := And((x / 2) % h, (y / 2) % h);
      assert And(x % p, y % p) == 2 * l + b;
      assert And(x, y) == 2 * And(x / 2, y / 2) + b;
      ScaleSum(And(x / 2, y / 2), b, h, And(Shr(x, k), Shr(y, k)), l);
    }
  }

  lemma ScaleSum(a: int, b: int, h: int, z: int, l: int)
    requires a == h * z + l
    ensures 2 * a + b == (2 * h) * z + (2 * l + b)
  {
  }

  /** AND with the single bit `Pow2(k)` tests bit `k`. */
  lemma AndBit(x: nat, p: nat, k: nat)
    requires p == Pow2(k)
    ensures And(x, p) == p * (Shr(x, k) % 2)
  {
    AndSplit(x, p, p, k);
    ShrDiv(p, k);
    DivModUnique(p, p, 1, 0);
    AndLowMask(Shr(x, k), 1, 1);
  }

  /** Testing bit `k` with AND gives zero exactly when that bit is clear. */
  lemma AndBitZero(x: nat, p: nat, k: nat)
    requires p == Pow2(k)
    ensures (And(x, p) == 0) == ((x / p) % 2 == 0)
  {
    AndBit(x, p, k);
    ShrDiv(x, k);
  }

  /** OR does not depend on the order of its operands. */
  lemma {:induction false} OrCommutes(x: nat, y: nat)
    ensures Or(x, y) == Or(y, x)
    decreases x + y
  {
    if x != 0 && y != 0 {
      OrCommutes(x / 2, y / 2);
    }
  }

  /** OR of a value below 0x10 with bit 4 (or with zero) is a sum: the
      two operands have no bit in common. */
  lemma OrBelowBit4(x: nat, bit: nat)
    requires x < 0x10 && bit <= 1
    ensures Or(x, 0x10 * bit) == x + 0x10 * bit
  {
    if bit == 1 {
      assert Pow2(4) == 0x10 by { Pow2Table(); }
      OrPowerOfTwo(x, 0x10, 4);
    }
  }

  /** ORing a power of two above `x` adds it. */
  lemma {:induction false} OrPowerOfTwo(x: nat, p: nat, k: nat)
    requires p == Pow2(k) && x < p
    ensures Or(x, p) == x + p
  {
    if x == 0 {
    } else if k == 0 {
    } else {
      var h := Pow2(k - 1);
      assert p == 2 * h;
      assert p / 2 == h && p % 2 == 0;
      assert x / 2 < h;
      OrPowerOfTwo(x / 2, h, k - 1);
      assert Or(x, p) == 2 * Or(x / 2, h) + x % 2;
    }
  }

  /** ORing a power of two sets that bit: the value grows by the power
      when the bit was clear and stays as it is when the bit was set. */
  lemma {:induction false} OrSetsBit(x: nat, p: nat, k: nat)
    requires p == Pow2(k)
    ensures Or(x, p) == x + (if (x / p) % 2 == 0 then p else 0)
  {
    if x == 0 {
    } else if k == 0 {
      assert Or(x / 2, 0) == x / 2;
    } else {
      var h := Pow2(k - 1);
      assert p == 2 * h;
      assert p / 2 == h && p % 2 == 0;
      DivModHalf(x, h);
      OrSetsBit(x / 2, h, k - 1);
      assert Or(x, p) == 2 * Or(x / 2, h) + x % 2;
    }
  }
}
