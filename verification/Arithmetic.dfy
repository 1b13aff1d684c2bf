/** Integer and dyadic arithmetic shared by the converters. */
module Arithmetic {

  /** Python's `a // b`: the quotient rounded towards minus infinity. */
  function FloorDiv(a: int, b: int): int
    requires b != 0
  {
    if b > 0 then a / b else (-a) / (-b)
  }

  lemma FloorDivBounds(a: int, b: int)
    requires b != 0
    ensures b > 0 ==> b * FloorDiv(a, b) <= a < b * FloorDiv(a, b) + b
    ensures b < 0 ==> b * FloorDiv(a, b) + b < a <= b * FloorDiv(a, b)
  {}

  function Pow2(n: nat): (p: nat)
    ensures p >= 1
  {
    if n == 0 then 1 else 2 * Pow2(n - 1)
  }

  lemma {:induction false} Pow2Add(a: nat, b: nat)
    ensures Pow2(a + b) == Pow2(a) * Pow2(b)
    decreases a
  {
    if a > 0 {
      Pow2Add(a - 1, b);
      assert 2 * (Pow2(a - 1) * Pow2(b)) == (2 * Pow2(a - 1)) * Pow2(b);
    }
  }

  lemma {:induction false} Pow2Monotone(a: nat, b: nat)
    requires a <= b
    ensures Pow2(a) <= Pow2(b)
    decreases b
  {
    if a < b {
      Pow2Monotone(a, b - 1);
    }
  }

  lemma MulMonotone(x: int, y: int, z: int)
    requires x <= y && z >= 0
    ensures x * z <= y * z
  {}

  /** A digit above a bounded lower part. */
  lemma DigitAbove(lower: int, digit: int, weight: int, radix: int)
    requires 0 <= lower < weight && 0 <= digit < radix
    ensures 0 <= lower + digit * weight < weight * radix
  {
    MulMonotone(0, digit, weight);
    MulMonotone(digit + 1, radix, weight);
  }

  /** The quotient and remainder are determined by the division equation. */
  lemma DivModUnique(x: int, m: int, q: int, r: int)
    requires m > 0 && x == q * m + r && 0 <= r < m
    ensures x / m == q && x % m == r
  {
    var q' := x / m;
    if q' < q {
      MulMonotone(q' + 1, q, m);
    } else if q < q' {
      MulMonotone(q + 1, q', m);
    }
  }

  lemma DivModAddMultiple(x: int, k: int, m: int)
    requires m > 0
    ensures (x + k * m) / m == x / m + k
    ensures (x + k * m) % m == x % m
  {
    assert (x / m + k) * m == (x / m) * m + k * m;
    DivModUnique(x + k * m, m, x / m + k, x % m);
  }

  /** Rounding up, written `-(-a // b)`. */
  function CeilDiv(a: nat, b: nat): nat
    requires b > 0
  {
    CeilDivBounds(a, b);
    -FloorDiv(0 - a, b)
  }

  lemma CeilDivBounds(a: nat, b: nat)
    requires b > 0
    ensures var c := -FloorDiv(0 - a, b); c >= 0 && b * c - b < a <= b * c
  {
    FloorDivBounds(0 - a, b);
    var q := FloorDiv(0 - a, b);
    MulMonotone(1, if q > 0 then q else 1, b);
  }

  /** The tile of size b that index i falls in. */
  function TileIndex(i: nat, b: nat): nat
    requires b > 0
  {
    i / b
  }

  lemma TileOf(i: nat, n: nat, b: nat)
    requires b > 0 && i < n
    ensures TileIndex(i, b) < CeilDiv(n, b) && i % b < b
    ensures TileIndex(i, b) * b + i % b == i
  {
    var t := CeilDiv(n, b);
    CeilDivBounds(n, b);
    if t <= i / b {
      MulMonotone(t, i / b, b);
    }
  }

  lemma InTile(t: nat, tiles: nat, r: nat, b: nat)
    requires t < tiles && r < b
    ensures t * b + r < tiles * b
    ensures TileIndex(t * b + r, b) == t && (t * b + r) % b == r
  {
    MulMonotone(t + 1, tiles, b);
    DivModUnique(t * b + r, b, t, r);
  }

  /** Two to any integer power. */
  function Exp2(e: int): (r: real)
    ensures r > 0.0
    decreases if e < 0 then -e else e
  {
    if e == 0 then 1.0 else if e > 0 then 2.0 * Exp2(e - 1) else Exp2(e + 1) / 2.0
  }

  lemma Exp2Step(e: int)
    ensures Exp2(e + 1) == 2.0 * Exp2(e)
  {}

  ghost predicate IsProduct(z: real, x: real, y: real) { z == x * y }

  lemma DoubledFactor(x: real, y: real, z: real)
    ensures IsProduct(z, x, y) <==> IsProduct(2.0 * z, 2.0 * x, y)
  {}

  /** One more factor of two on both sides of the product law. */
  lemma ProductStep(a: int, b: int, x: real, y: real, z: real, x': real, z': real)
    requires x == Exp2(a) && x' == Exp2(a + 1) && y == Exp2(b) && z == Exp2(a + b) && z' == Exp2(a + b + 1)
    ensures IsProduct(z, x, y) <==> IsProduct(z', x', y)
  {
    Exp2Step(a + b);
    Exp2Step(a);
    DoubledFactor(x, y, z);
  }

  lemma {:induction false} Exp2Product(a: int, b: int)
    ensures IsProduct(Exp2(a + b), Exp2(a), Exp2(b))
    decreases if a < 0 then -a else a
  {
    if a > 0 {
      Exp2Product(a - 1, b);
      ProductStep(a - 1, b, Exp2(a - 1), Exp2(b), Exp2(a - 1 + b), Exp2(a), Exp2(a + b));
    } else if a < 0 {
      Exp2Product(a + 1, b);
      ProductStep(a, b, Exp2(a), Exp2(b), Exp2(a + b), Exp2(a + 1), Exp2(a + 1 + b));
    }
  }

  lemma Exp2Add(a: int, b: int)
    ensures Exp2(a + b) == Exp2(a) * Exp2(b)
  {
    hide Exp2;
    Exp2Product(a, b);
  }

  lemma {:induction false} Exp2IsPow2(n: nat)
    ensures Exp2(n) == Pow2(n) as real
  {
    if n > 0 {
      Exp2IsPow2(n - 1);
    }
  }

  lemma Exp2SmallValues()
    ensures Exp2(6) == 64.0 && Exp2(8) == 256.0
  {
    Exp2IsPow2(6);
    Exp2IsPow2(8);
    assert Pow2(6) == 64 && Pow2(8) == 256;
  }

  lemma MulThree(a: real, b: real, c: real)
    ensures (a * b) * c == a * (b * c)
  {}

  lemma RealMulMonotone(x: real, y: real, s: real)
    requires x <= y && s >= 0.0
    ensures x * s <= y * s
  {}

  lemma RealMulStrict(x: real, y: real, s: real)
    requires x < y && s > 0.0
    ensures x * s < y * s
  {}
}
