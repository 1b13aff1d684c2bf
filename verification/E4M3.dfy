/** The E4M3 grid without infinities, counted in units of 2^-9, its smallest subnormal. */
module E4M3 {
  import opened Arithmetic

  /** 448 in units of 2^-9. */
  const MAX_UNITS: nat := 229376

  /** The magnitude encoded by an exponent field and a three-bit mantissa. */
  function Decode(field: nat, mantissa: nat): nat
    requires field < 16 && mantissa < 8
  {
    if field == 0 then mantissa else (8 + mantissa) * Pow2(field - 1)
  }

  /** Field 15 with mantissa 7 is the not-a-number code. */
  predicate IsFiniteCode(field: nat, mantissa: nat) {
    field < 16 && mantissa < 8 && !(field == 15 && mantissa == 7)
  }

  ghost predicate Representable(n: int) {
    exists field: nat, mantissa: nat ::
      IsFiniteCode(field, mantissa) && (n == Decode(field, mantissa) || n == -(Decode(field, mantissa) as int))
  }

  /** The grid continued without an upper bound: below 16 every unit, above it twice the grid of half the size. */
  predicate OnGrid(n: nat) {
    n < 16 || (n % 2 == 0 && OnGrid(n / 2))
  }

  lemma {:induction false} DecodeOnGrid(mantissa: nat, shift: nat)
    requires mantissa < 8
    ensures OnGrid((8 + mantissa) * Pow2(shift))
  {
    if shift > 0 {
      DecodeOnGrid(mantissa, shift - 1);
      var n := (8 + mantissa) * Pow2(shift - 1);
      assert (8 + mantissa) * Pow2(shift) == 2 * n;
    }
  }

  lemma {:induction false} GridHasCode(n: nat) returns (mantissa: nat, shift: nat)
    requires OnGrid(n) && n >= 8
    ensures mantissa < 8 && n == (8 + mantissa) * Pow2(shift)
  {
    if n < 16 {
      mantissa, shift := n - 8, 0;
    } else {
      mantissa, shift := GridHasCode(n / 2);
      assert (8 + mantissa) * Pow2(shift + 1) == 2 * ((8 + mantissa) * Pow2(shift));
      shift := shift + 1;
    }
  }

  lemma TopBinade(mantissa: nat, shift: nat)
    requires mantissa < 8
    ensures (8 + mantissa) * Pow2(shift) <= MAX_UNITS <==> shift < 14 || (shift == 14 && mantissa < 7)
  {
    assert Pow2(14) == 16384 by { Pow2Add(7, 7); assert Pow2(7) == 128; }
    if shift < 14 {
      Pow2Monotone(shift, 14);
      MulMonotone(8 + mantissa, 15, Pow2(shift));
      DoubleAtMost(shift);
    } else if shift > 14 {
      DoubleAtMost(14);
      Pow2Monotone(15, shift);
      MulMonotone(8, 8 + mantissa, Pow2(shift));
    }
  }

  lemma DoubleAtMost(shift: nat)
    requires shift <= 14
    ensures shift < 14 ==> 2 * Pow2(shift) <= Pow2(14)
    ensures Pow2(15) == 2 * Pow2(14)
  {
    if shift < 14 {
      Pow2Monotone(shift + 1, 14);
    }
  }

  /** The codes of the format are exactly the grid up to 448. */
  lemma GridIsFormat(n: nat)
    ensures Representable(n) <==> OnGrid(n) && n <= MAX_UNITS
  {
    if Representable(n) {
      var field: nat, mantissa: nat :|
        IsFiniteCode(field, mantissa) && (n == Decode(field, mantissa) || n == -(Decode(field, mantissa) as int));
      if field > 0 {
        DecodeOnGrid(mantissa, field - 1);
        TopBinade(mantissa, field - 1);
      }
    }
    if OnGrid(n) && n <= MAX_UNITS {
      if n < 8 {
        assert IsFiniteCode(0, n) && n == Decode(0, n);
      } else {
        var mantissa, shift := GridHasCode(n);
        TopBinade(mantissa, shift);
        assert IsFiniteCode(shift + 1, mantissa) && n == Decode(shift + 1, mantissa);
      }
    }
  }

  // ---- rounding ----

  /** Nearest integer, ties to even. */
  function RoundHalfEven(x: real): (n: int)
    ensures n as real - 0.5 <= x <= n as real + 0.5
    ensures x == n as real - 0.5 || x == n as real + 0.5 ==> n % 2 == 0
  {
    var f := x.Floor;
    if x - f as real < 0.5 || (x - f as real == 0.5 && f % 2 == 0) then f else f + 1
  }

  /** Round to nearest, ties to even, on the unbounded grid: one binade up doubles the step. */
  function RoundMagnitude(a: real): (n: nat)
    requires a >= 0.0
    decreases a.Floor
  {
    if a < 16.0 then RoundHalfEven(a) else 2 * RoundMagnitude(a / 2.0)
  }

  lemma {:induction false} RoundLandsOnGrid(a: real)
    requires a >= 0.0
    ensures OnGrid(RoundMagnitude(a))
    ensures a >= 8.0 ==> RoundMagnitude(a) >= 8
    decreases a.Floor
  {
    if a >= 16.0 {
      RoundLandsOnGrid(a / 2.0);
    } else if RoundMagnitude(a) == 16 {
      assert OnGrid(8);
    }
  }

  function Distance(a: real, n: int): real {
    if a < n as real then n as real - a else a - n as real
  }

  /** No grid point is closer than the one the rounding picks. */
  lemma {:induction false} RoundIsNearest(a: real, g: nat)
    requires a >= 0.0 && OnGrid(g)
    ensures Distance(a, RoundMagnitude(a)) <= Distance(a, g)
    decreases a.Floor
  {
    if a >= 16.0 {
      if g < 16 {
        RoundIsNearest(a / 2.0, 8);
      } else {
        RoundIsNearest(a / 2.0, g / 2);
      }
    }
  }

  /** The step of its binade at which a grid point lies is even. */
  predicate EvenStep(n: nat) {
    if n < 16 then n % 2 == 0 else EvenStep(n / 2)
  }

  lemma {:induction false} EvenShift(n: nat, shift: nat)
    requires n >= 8
    ensures EvenStep(n * Pow2(shift)) <==> EvenStep(n)
  {
    if shift > 0 {
      EvenShift(n, shift - 1);
      MulMonotone(1, Pow2(shift - 1), n);
      assert n * Pow2(shift) == 2 * (n * Pow2(shift - 1));
    }
  }

  /** In a code, the even steps are the even mantissas. */
  lemma EvenStepIsEvenMantissa(field: nat, mantissa: nat)
    requires field < 16 && mantissa < 8
    ensures EvenStep(Decode(field, mantissa)) <==> mantissa % 2 == 0
  {
    if field > 0 {
      EvenShift(8 + mantissa, field - 1);
    }
  }

  lemma DoubledDistance(a: real, n: nat)
    ensures Distance(a, 2 * n) == 2.0 * Distance(a / 2.0, n)
  {}

  lemma NotBelowBinade(a: real, g: nat)
    requires a >= 16.0 && g < 16
    ensures 2.0 * Distance(a / 2.0, 8) < Distance(a, g)
  {}

  lemma UnitTiesToEven(a: real, g: nat)
    requires 0.0 <= a < 16.0 && g != RoundHalfEven(a)
    requires Distance(a, g) == Distance(a, RoundHalfEven(a))
    ensures EvenStep(RoundHalfEven(a))
  {
    var n := RoundHalfEven(a);
    assert a == n as real - 0.5 || a == n as real + 0.5;
    assert EvenStep(16) == EvenStep(8);
  }

  /** When another grid point is as close, the rounding has picked the even one. */
  lemma {:induction false} RoundTiesToEven(a: real, g: nat)
    requires a >= 0.0 && OnGrid(g) && g != RoundMagnitude(a)
    requires Distance(a, g) == Distance(a, RoundMagnitude(a))
    ensures EvenStep(RoundMagnitude(a))
    decreases a.Floor
  {
    if a < 16.0 {
      UnitTiesToEven(a, g);
    } else {
      hide Distance;
      RoundLandsOnGrid(a / 2.0);
      DoubledDistance(a, RoundMagnitude(a / 2.0));
      if g < 16 {
        RoundIsNearest(a / 2.0, 8);
        NotBelowBinade(a, g);
      } else {
        DoubledDistance(a, g / 2);
        RoundTiesToEven(a / 2.0, g / 2);
      }
    }
  }

  /** Half a unit below the normal range, one part in sixteen above it. */
  lemma {:induction false} RoundError(a: real)
    requires a >= 0.0
    ensures Distance(a, RoundMagnitude(a)) <= (if a < 8.0 then 0.5 else a / 16.0)
    decreases a.Floor
  {
    if a >= 16.0 {
      RoundError(a / 2.0);
    }
  }

  lemma RoundStaysInFormat(a: real)
    requires 0.0 <= a <= MAX_UNITS as real
    ensures Representable(RoundMagnitude(a))
  {
    RoundLandsOnGrid(a);
    assert OnGrid(MAX_UNITS) by { DecodeOnGrid(6, 14); assert Pow2(14) == 16384 by { Pow2Add(7, 7); assert Pow2(7) == 128; } }
    RoundIsNearest(a, MAX_UNITS);
    GridIsFormat(RoundMagnitude(a));
  }

  /** The value of a code, in ordinary units. */
  function Real(units: int): real { units as real / 512.0 }

  /** Cast a number whose magnitude is at most 448. */
  function Cast(x: real): (units: int)
    requires -448.0 <= x <= 448.0
  {
    if x < 0.0 then -(RoundMagnitude(-512.0 * x) as int) else RoundMagnitude(512.0 * x)
  }

  function Abs(x: real): (a: real)
    ensures a >= 0.0 && (a == x || a == -x)
  {
    if x < 0.0 then -x else x
  }

  function Max(x: real, y: real): (m: real)
    ensures m >= x && m >= y && (m == x || m == y)
  {
    if x < y then y else x
  }

  /** A grid point on the other side of zero is no closer than its mirror image. */
  lemma MirrorIsCloser(a: real, n: nat, other: int)
    requires a >= 0.0 && Distance(a, n) <= Distance(a, if other < 0 then -other else other)
    ensures Distance(a, n) <= Distance(a, other)
  {}

  lemma MagnitudeCast(a: real, other: int)
    requires 0.0 <= a <= MAX_UNITS as real && Representable(other)
    ensures Representable(RoundMagnitude(a)) && Representable(-(RoundMagnitude(a) as int))
    ensures Distance(a, RoundMagnitude(a)) <= Distance(a, other)
    ensures Distance(a, RoundMagnitude(a)) <= Max(a / 16.0, 0.5)
  {
    RoundStaysInFormat(a);
    RoundError(a);
    var g: nat := if other < 0 then -other else other;
    assert Representable(g);
    GridIsFormat(g);
    RoundIsNearest(a, g);
    MirrorIsCloser(a, RoundMagnitude(a), other);
  }

  lemma RealDistance(x: real, units: int)
    ensures Abs(Real(units) - x) == Distance(512.0 * x, units) / 512.0
  {}

  lemma MirrorIsRepresentable(n: int)
    requires Representable(n)
    ensures Representable(-n)
  {}

  /** The cast lands in the format, no other value of the format is closer, and its error is bounded. */
  lemma CastIsNearest(x: real, other: int)
    requires -448.0 <= x <= 448.0 && Representable(other)
    ensures Representable(Cast(x))
    ensures Abs(Real(Cast(x)) - x) <= Abs(Real(other) - x)
    ensures Abs(Real(Cast(x)) - x) <= Max(Abs(x) / 16.0, 1.0 / 1024.0)
  {
    hide RoundMagnitude, Representable;
    RealDistance(x, Cast(x));
    RealDistance(x, other);
    if x < 0.0 {
      MirrorIsRepresentable(other);
      MagnitudeCast(-512.0 * x, -other);
    } else {
      MagnitudeCast(512.0 * x, other);
    }
  }

  lemma MagnitudeTies(a: real, other: int)
    requires 0.0 <= a <= MAX_UNITS as real && Representable(other) && other != RoundMagnitude(a)
    requires Distance(a, RoundMagnitude(a)) == Distance(a, other)
    ensures EvenStep(RoundMagnitude(a))
  {
    var g: nat := if other < 0 then -other else other;
    assert Representable(g);
    GridIsFormat(g);
    RoundIsNearest(a, g);
    if other < 0 {
      assert OnGrid(0);
      RoundIsNearest(a, 0);
    } else {
      RoundTiesToEven(a, g);
    }
  }

  /** Half way between two values of the format the cast returns the one with the even mantissa. */
  lemma CastTiesToEven(x: real, other: int)
    requires -448.0 <= x <= 448.0 && Representable(other) && other != Cast(x)
    requires Abs(Real(Cast(x)) - x) == Abs(Real(other) - x)
    ensures EvenStep(if Cast(x) < 0 then -Cast(x) else Cast(x))
  {
    hide RoundMagnitude, Representable, EvenStep;
    RealDistance(x, Cast(x));
    RealDistance(x, other);
    if x < 0.0 {
      MirrorIsRepresentable(other);
      MagnitudeTies(-512.0 * x, -other);
    } else {
      MagnitudeTies(512.0 * x, other);
    }
  }
}
