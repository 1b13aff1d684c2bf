/** Casting packed E2M1 weights with 1 by 32 power-of-two scales to E4M3 weights with 128 by 128 scales. */
module Mxfp4Cast {
  import opened Arithmetic
  import opened E4M3
  import opened Matrices
  import opened Wrappers

  const FP8_BLOCK: nat := 128
  const FP4_BLOCK: nat := 32
  const GROUPS: nat := 4             // groups of 32 columns in a tile

  // ---- element formats (OCP Microscaling Formats v1.0, sections 5.3.3 and 5.4.1) ----

  /** The E2M1 table, counted in halves; codes 8 to 15 are the negative values. */
  const MAGNITUDE_HALVES: seq<nat> := [0, 1, 2, 3, 4, 6, 8, 12]

  function Fp4Halves(code: nat): (h: int)
    requires code < 16
    ensures -12 <= h <= 12
  {
    if code < 8 then MAGNITUDE_HALVES[code] else -(MAGNITUDE_HALVES[code - 8] as int)
  }

  /** An E2M1 code by its fields, counted in halves: sign, two exponent bits, one mantissa bit. */
  function E2M1Halves(code: nat): int
    requires code < 16
  {
    var sign, field, mantissa := code / 8, (code / 2) % 4, code % 2;
    (if sign == 1 then -1 else 1) * (if field == 0 then mantissa else (2 + mantissa) * Pow2(field - 1))
  }

  /** The table is the format. */
  lemma TableIsFormat(code: nat)
    requires code < 16
    ensures Fp4Halves(code) == E2M1Halves(code)
  {
    assert Pow2(0) == 1 && Pow2(1) == 2 && Pow2(2) == 4;
  }

  function GroupScale(code: int): real { Exp2(code - 127) }

  // ---- layout ----

  /** Low nibble first: byte c holds columns 2c and 2c + 1. */
  function Nibble(byte: nat, odd: bool): (n: nat)
    requires byte < 256
    ensures n < 16
  {
    if odd then byte / 16 else byte % 16
  }

  /** Signed bytes viewed as unsigned ones. */
  function AsUnsigned(x: int): (u: nat)
    ensures u < 256
  {
    x % 256
  }

  function Unpack(x: seq<seq<int>>, rows: nat, cols: nat): (codes: seq<seq<nat>>)
    requires cols % 2 == 0 && IsMatrix(x, rows, cols / 2)
    ensures IsMatrix(codes, rows, cols)
    ensures forall i, j :: 0 <= i < rows && 0 <= j < cols ==> codes[i][j] < 16
  {
    seq(rows, i requires 0 <= i < rows =>
      seq(cols, j requires 0 <= j < cols => Nibble(AsUnsigned(x[i][j / 2]), j % 2 == 1)))
  }

  lemma UnpackAt(x: seq<seq<int>>, rows: nat, cols: nat, i: nat, j: nat)
    requires cols % 2 == 0 && IsMatrix(x, rows, cols / 2) && i < rows && j < cols / 2
    ensures var b := AsUnsigned(x[i][j]);
            var codes := Unpack(x, rows, cols);
            codes[i][2 * j] == b % 16 && codes[i][2 * j + 1] == b / 16
  {
    assert (2 * j) / 2 == j && (2 * j + 1) / 2 == j;
  }

  /** `view(bo, br, bi, bc).transpose(1, 2)`: a grid of tiles. */
  function Tiles<T>(m: seq<seq<T>>, bo: nat, br: nat, bi: nat, bc: nat): (t: seq<seq<seq<seq<T>>>>)
    requires IsMatrix(m, bo * br, bi * bc)
  {
    seq(bo, p requires 0 <= p < bo =>
      seq(bi, q requires 0 <= q < bi =>
        seq(br, r requires 0 <= r < br =>
          seq(bc, c requires 0 <= c < bc => InTile(p, bo, r, br); InTile(q, bi, c, bc); m[p * br + r][q * bc + c]))))
  }

  ghost predicate IsTiles<T>(t: seq<seq<seq<seq<T>>>>, bo: nat, br: nat, bi: nat, bc: nat) {
    && |t| == bo
    && forall p :: 0 <= p < bo ==> |t[p]| == bi && forall q :: 0 <= q < bi ==> IsMatrix(t[p][q], br, bc)
  }

  /** `transpose(1, 2).reshape(rows, cols)`: the tiles laid out as one matrix again. */
  function Untile<T>(t: seq<seq<seq<seq<T>>>>, bo: nat, br: nat, bi: nat, bc: nat): (m: seq<seq<T>>)
    requires br > 0 && bc > 0 && IsTiles(t, bo, br, bi, bc)
    ensures IsMatrix(m, bo * br, bi * bc)
  {
    seq(bo * br, i requires 0 <= i < bo * br =>
      seq(bi * bc, j requires 0 <= j < bi * bc =>
        TileRange(i, bo, br);
        TileRange(j, bi, bc);
        t[TileIndex(i, br)][TileIndex(j, bc)][i % br][j % bc]))
  }

  lemma TileRange(i: nat, n: nat, b: nat)
    requires b > 0 && i < n * b
    ensures TileIndex(i, b) < n && i % b < b
    ensures TileIndex(i, b) * b + i % b == i
  {
    if n <= i / b {
      MulMonotone(n, i / b, b);
    }
  }

  /** The last two dimensions of a tile merged into one, row by row. */
  function FlattenTile<T>(t: seq<seq<T>>, br: nat, bc: nat): (s: seq<T>)
    requires bc > 0 && IsMatrix(t, br, bc)
    ensures |s| == br * bc
  {
    seq(br * bc, k requires 0 <= k < br * bc => TileRange(k, br, bc); t[TileIndex(k, bc)][k % bc])
  }

  function MaxCode(s: seq<int>): (m: int)
    requires |s| > 0
    ensures m in s && forall i :: 0 <= i < |s| ==> s[i] <= m
  {
    if |s| == 1 then s[0]
    else
      var rest := MaxCode(s[..|s| - 1]);
      if rest < s[|s| - 1] then s[|s| - 1] else rest
  }

  /** `amax` over the scale values of a tile. */
  function MaxScale(s: seq<int>): (m: real)
    requires |s| > 0
  {
    if |s| == 1 then GroupScale(s[0]) else Max(MaxScale(s[..|s| - 1]), GroupScale(s[|s| - 1]))
  }

  lemma {:induction false} Exp2Monotone(a: int, b: int)
    requires a <= b
    ensures Exp2(a) <= Exp2(b)
    decreases b - a
  {
    if a < b {
      Exp2Monotone(a, b - 1);
      Exp2Step(b - 1);
    }
  }

  /** The largest scale is the one with the largest exponent byte. */
  lemma {:induction false} MaxScaleIsMaxCode(s: seq<int>)
    requires |s| > 0
    ensures MaxScale(s) == GroupScale(MaxCode(s))
    decreases |s|
  {
    if |s| > 1 {
      MaxScaleIsMaxCode(s[..|s| - 1]);
      var a, b := MaxCode(s[..|s| - 1]) - 127, s[|s| - 1] - 127;
      if a <= b {
        Exp2Monotone(a, b);
      } else {
        Exp2Monotone(b, a);
      }
    }
  }

  // ---- the cast ----

  /** Group scales of tile (p, q), row by row. */
  function TileCodes(scale: seq<seq<int>>, bo: nat, bi: nat, p: nat, q: nat): (s: seq<int>)
    requires IsMatrix(scale, bo * FP8_BLOCK, bi * GROUPS) && p < bo && q < bi
    ensures |s| == FP8_BLOCK * GROUPS
  {
    FlattenTile(Tiles(scale, bo, FP8_BLOCK, bi, GROUPS)[p][q], FP8_BLOCK, GROUPS)
  }

  function TileScale(scale: seq<seq<int>>, bo: nat, bi: nat, p: nat, q: nat): (s: real)
    requires IsMatrix(scale, bo * FP8_BLOCK, bi * GROUPS) && p < bo && q < bi
    ensures s > 0.0
  {
    MaxScaleIsMaxCode(TileCodes(scale, bo, bi, p, q));
    MaxScale(TileCodes(scale, bo, bi, p, q)) / 64.0
  }

  /** `(scale / tile_scale).unflatten(...).repeat_interleave(32)` at row r, column c of the tile. */
  function Offset(scale: seq<seq<int>>, bo: nat, bi: nat, p: nat, q: nat, r: nat, c: nat): real
    requires IsMatrix(scale, bo * FP8_BLOCK, bi * GROUPS) && p < bo && q < bi && r < FP8_BLOCK && c < FP8_BLOCK
  {
    GroupScale(TileCodes(scale, bo, bi, p, q)[r * GROUPS + c / FP4_BLOCK]) / TileScale(scale, bo, bi, p, q)
  }

  datatype Converted = Converted(weight: seq<seq<int>>, tileScale: seq<seq<real>>)

  function Rescale(codes: seq<seq<nat>>, scale: seq<seq<int>>, bo: nat, bi: nat): (t: seq<seq<seq<seq<real>>>>)
    requires IsMatrix(codes, bo * FP8_BLOCK, bi * FP8_BLOCK)
    requires forall i, j :: 0 <= i < bo * FP8_BLOCK && 0 <= j < bi * FP8_BLOCK ==> codes[i][j] < 16
    requires IsMatrix(scale, bo * FP8_BLOCK, bi * GROUPS)
    ensures IsTiles(t, bo, FP8_BLOCK, bi, FP8_BLOCK)
  {
    seq(bo, p requires 0 <= p < bo =>
      seq(bi, q requires 0 <= q < bi =>
        seq(FP8_BLOCK, r requires 0 <= r < FP8_BLOCK =>
          seq(FP8_BLOCK, c requires 0 <= c < FP8_BLOCK =>
            InTile(p, bo, r, FP8_BLOCK);
            InTile(q, bi, c, FP8_BLOCK);
            Fp4Halves(Tiles(codes, bo, FP8_BLOCK, bi, FP8_BLOCK)[p][q][r][c]) as real / 2.0
            * Offset(scale, bo, bi, p, q, r, c)))))
  }

  /** A cast that is total on reals; magnitudes beyond 448 do not arise here. */
  function CastReal(x: real): int {
    if -448.0 <= x <= 448.0 then Cast(x) else 0
  }

  /** The shapes the conversion asks for: whole 128 by 128 tiles, one scale per 32 columns. */
  ghost predicate Shapes(x: seq<seq<int>>, scale: seq<seq<int>>, bo: nat, bi: nat) {
    IsMatrix(x, bo * FP8_BLOCK, bi * (FP8_BLOCK / 2)) && IsMatrix(scale, bo * FP8_BLOCK, bi * GROUPS)
  }

  function PackedCodes(x: seq<seq<int>>, bo: nat, bi: nat): (codes: seq<seq<nat>>)
    requires IsMatrix(x, bo * FP8_BLOCK, bi * (FP8_BLOCK / 2))
    ensures IsMatrix(codes, bo * FP8_BLOCK, bi * FP8_BLOCK)
    ensures forall i, j :: 0 <= i < bo * FP8_BLOCK && 0 <= j < bi * FP8_BLOCK ==> codes[i][j] < 16
  {
    Unpack(x, bo * FP8_BLOCK, bi * FP8_BLOCK)
  }

  function CastAll(m: seq<seq<real>>, rows: nat, cols: nat): (w: seq<seq<int>>)
    requires IsMatrix(m, rows, cols)
    ensures IsMatrix(w, rows, cols)
    ensures forall i, j :: 0 <= i < rows && 0 <= j < cols ==> w[i][j] == CastReal(m[i][j])
  {
    seq(rows, i requires 0 <= i < rows => seq(cols, j requires 0 <= j < cols => CastReal(m[i][j])))
  }

  function TileScales(scale: seq<seq<int>>, bo: nat, bi: nat): (s: seq<seq<real>>)
    requires IsMatrix(scale, bo * FP8_BLOCK, bi * GROUPS)
    ensures IsMatrix(s, bo, bi)
    ensures forall p, q :: 0 <= p < bo && 0 <= q < bi ==> s[p][q] == TileScale(scale, bo, bi, p, q)
  {
    seq(bo, p requires 0 <= p < bo => seq(bi, q requires 0 <= q < bi => TileScale(scale, bo, bi, p, q)))
  }

  function Convert(x: seq<seq<int>>, scale: seq<seq<int>>, bo: nat, bi: nat): (c: Converted)
    requires Shapes(x, scale, bo, bi)
    ensures IsMatrix(c.weight, bo * FP8_BLOCK, bi * FP8_BLOCK) && IsMatrix(c.tileScale, bo, bi)
  {
    var t := Rescale(PackedCodes(x, bo, bi), scale, bo, bi);
    Converted(CastAll(Untile(t, bo, FP8_BLOCK, bi, FP8_BLOCK), bo * FP8_BLOCK, bi * FP8_BLOCK),
              TileScales(scale, bo, bi))
  }

  /** The conversion with its shape assertions. */
  function CastE2m1ToE4m3(x: seq<seq<int>>, scale: seq<seq<int>>, outDim: nat, inDim: nat): (r: Result<Converted>)
    requires inDim % 2 == 0 && IsMatrix(x, outDim, inDim / 2)
    ensures r.Success? <==> outDim % 128 == 0 && inDim % 128 == 0
                            && IsMatrix(scale, outDim, inDim / 32)
    ensures r.Success? ==> Shapes(x, scale, outDim / 128, inDim / 128)
                           && r.value == Convert(x, scale, outDim / 128, inDim / 128)
  {
    if outDim % FP8_BLOCK != 0 || inDim % FP8_BLOCK != 0 then Failure("dimensions must be multiples of 128")
    else if |scale| != outDim || exists i :: 0 <= i < |scale| && |scale[i]| != inDim / FP4_BLOCK then Failure("scale shape")
    else Success(Convert(x, scale, outDim / FP8_BLOCK, inDim / FP8_BLOCK))
  }

  // ---- where each element comes from ----

  lemma FlattenTileAt<T>(t: seq<seq<T>>, br: nat, bc: nat, r: nat, g: nat)
    requires bc > 0 && IsMatrix(t, br, bc) && r < br && g < bc
    ensures r * bc + g < br * bc && FlattenTile(t, br, bc)[r * bc + g] == t[r][g]
  {
    InTile(r, br, g, bc);
  }

  /** The scale used at (i, j) is that of row i, group j / 32, even though it went through the tile view. */
  lemma ScaleCellAt(scale: seq<seq<int>>, bo: nat, bi: nat, i: nat, j: nat, p: nat, q: nat, r: nat, c: nat)
    requires IsMatrix(scale, bo * FP8_BLOCK, bi * GROUPS) && p < bo && q < bi && r < FP8_BLOCK && c < FP8_BLOCK
    requires i == p * FP8_BLOCK + r && j == q * FP8_BLOCK + c
    ensures i < bo * FP8_BLOCK && j / FP4_BLOCK < bi * GROUPS
    ensures TileCodes(scale, bo, bi, p, q)[r * GROUPS + c / FP4_BLOCK] == scale[i][j / FP4_BLOCK]
  {
    var g := c / FP4_BLOCK;
    FlattenTileAt(Tiles(scale, bo, FP8_BLOCK, bi, GROUPS)[p][q], FP8_BLOCK, GROUPS, r, g);
    assert q * GROUPS + g == j / FP4_BLOCK;
  }

  /** The largest exponent byte of tile (p, q). */
  function TileMaxCode(scale: seq<seq<int>>, bo: nat, bi: nat, p: nat, q: nat): int
    requires IsMatrix(scale, bo * FP8_BLOCK, bi * GROUPS) && p < bo && q < bi
  {
    MaxCode(TileCodes(scale, bo, bi, p, q))
  }

  /** It bounds the exponent byte of every element of the tile, and some group of the tile has it. */
  lemma TileMaxCodeBounds(scale: seq<seq<int>>, bo: nat, bi: nat, i: nat, j: nat, p: nat, q: nat, r: nat, c: nat)
    requires IsMatrix(scale, bo * 128, bi * 4) && p < bo && q < bi && r < 128 && c < 128
    requires i == p * 128 + r && j == q * 128 + c
    ensures i < bo * 128 && j / 32 < bi * 4
    ensures scale[i][j / 32] <= TileMaxCode(scale, bo, bi, p, q)
  {
    ScaleCellAt(scale, bo, bi, i, j, p, q, r, c);
  }

  lemma TileMaxCodeAttained(scale: seq<seq<int>>, bo: nat, bi: nat, p: nat, q: nat) returns (i: nat, g: nat)
    requires IsMatrix(scale, bo * 128, bi * 4) && p < bo && q < bi
    ensures p * 128 <= i < (p + 1) * 128 && q * 4 <= g < (q + 1) * 4
    ensures i < bo * 128 && g < bi * 4 && scale[i][g] == TileMaxCode(scale, bo, bi, p, q)
  {
    var codes := TileCodes(scale, bo, bi, p, q);
    var k :| 0 <= k < |codes| && codes[k] == MaxCode(codes);
    i, g := p * FP8_BLOCK + k / GROUPS, q * GROUPS + k % GROUPS;
    FlattenTileAt(Tiles(scale, bo, FP8_BLOCK, bi, GROUPS)[p][q], FP8_BLOCK, GROUPS, k / GROUPS, k % GROUPS);
  }

  // ---- exactness ----

  /** The cast at exponent distance d below the tile maximum keeps a value of h halves. */
  predicate Lossless(h: int, d: nat) {
    d <= 14 || h % Pow2(d - 14) == 0
  }

  lemma {:induction false} SmallTimesPowerOnGrid(m: nat, k: nat)
    requires m < 16
    ensures OnGrid(m * Pow2(k))
  {
    if k > 0 {
      SmallTimesPowerOnGrid(m, k - 1);
      assert m * Pow2(k) == 2 * (m * Pow2(k - 1));
    }
  }

  lemma CastOfGridPoint(x: real, n: int)
    requires -448.0 <= x <= 448.0 && 512.0 * x == n as real
    requires OnGrid(AbsInt(n))
    ensures Cast(x) == n
  {
    hide RoundMagnitude, OnGrid;
    if x < 0.0 {
      RoundIsNearest(-512.0 * x, -n);
    } else {
      RoundIsNearest(512.0 * x, n);
    }
  }

  /** In units of 2^-9, the rescaled value is h * 2^(14 - d). */
  function Units(h: int, d: nat): real { h as real * Exp2(14 - d) }

  lemma IntProduct(h: int, p: int)
    ensures (h * p) as real == h as real * p as real
  {}

  lemma WholeUnits(h: int, d: nat)
    requires d <= 14
    ensures Units(h, d) == (h * Pow2(14 - d)) as real
  {
    hide Exp2, Pow2;
    var p := Pow2(14 - d);
    Exp2IsPow2(14 - d);
    assert p as real == Exp2(14 - d);
    IntProduct(h, p);
  }

  lemma FractionalUnits(h: int, d: nat, n: int)
    requires d > 14
    ensures Units(h, d) == n as real <==> h == n * Pow2(d - 14)
  {
    var k := d - 14;
    Exp2IsPow2(k);
    Exp2Add(14 - d, k);
    ReciprocalForm(h, n, Exp2(14 - d), Pow2(k));
  }

  lemma Reciprocal(h: real, n: real, r: real, p: real)
    requires r * p == 1.0
    ensures h * r == n <==> h == n * p
  {
    MulThree(h, r, p);
    MulThree(n, p, r);
  }

  lemma ReciprocalForm(h: int, n: int, r: real, p: int)
    requires r * (p as real) == 1.0
    ensures h as real * r == n as real <==> h == n * p
  {
    Reciprocal(h as real, n as real, r, p as real);
    assert (n * p) as real == n as real * (p as real);
  }

  lemma MultipleIff(h: int, p: int)
    requires p >= 1
    ensures h % p == 0 <==> exists n: int :: h == n * p
  {
    if h % p == 0 {
      assert h == (h / p) * p;
    }
    if exists n: int :: h == n * p {
      var n: int :| h == n * p;
      DivModUnique(h, p, n, 0);
    }
  }

  function AbsInt(n: int): nat { if n < 0 then -n else n }

  lemma AbsProduct(h: int, p: int)
    requires p >= 0
    ensures AbsInt(h * p) == AbsInt(h) * p
  {
    if h >= 0 {
      MulMonotone(0, h, p);
    } else {
      MulMonotone(h, 0, p);
      assert (-h) * p == -(h * p);
    }
  }

  lemma GridMagnitude(h: int, k: nat)
    requires -16 < h < 16
    ensures OnGrid(AbsInt(h * Pow2(k)))
  {
    hide OnGrid, Pow2;
    AbsProduct(h, Pow2(k));
    SmallTimesPowerOnGrid(AbsInt(h), k);
  }

  lemma DivisorShrinks(h: int, n: int, p: int)
    requires p >= 1 && h == n * p && -16 < h < 16
    ensures -16 < n < 16
  {
    if n >= 16 {
      MulMonotone(16, n, p);
    } else if n <= -16 {
      MulMonotone(n, -16, p);
    }
  }

  /** The cast returns its argument exactly when the value is lossless at its distance. */
  lemma CastIsExactIff(h: int, d: nat, x: real)
    requires -12 <= h <= 12 && -448.0 <= x <= 448.0 && 512.0 * x == Units(h, d)
    ensures Real(Cast(x)) == x <==> Lossless(h, d)
  {
    hide Cast, Units, OnGrid;
    if d <= 14 {
      WholeUnits(h, d);
      GridMagnitude(h, 14 - d);
      CastOfGridPoint(x, h * Pow2(14 - d));
    } else {
      var p := Pow2(d - 14);
      MultipleIff(h, p);
      if Lossless(h, d) {
        var n: int :| h == n * p;
        FractionalUnits(h, d, n);
        DivisorShrinks(h, n, p);
        GridMagnitude(n, 0);
        assert n * Pow2(0) == n;
        CastOfGridPoint(x, n);
      }
      if Real(Cast(x)) == x {
        FractionalUnits(h, d, Cast(x));
      }
    }
  }

  // ---- the scales as powers of two ----

  lemma QuotientIs(gs: real, gt: real, o: real, t: real)
    requires t > 0.0 && gs == o * t && gt == 64.0 * t
    ensures gt / 64.0 == t && gs / (gt / 64.0) == o
  {}

  /** `scale / tile_scale` is two to the power six minus the distance to the tile maximum. */
  lemma OffsetIsPower(code: int, top: int)
    ensures GroupScale(code) / (GroupScale(top) / 64.0) == Exp2(code - top + 6)
    ensures GroupScale(top) / 64.0 == Exp2(top - 133)
    ensures GroupScale(code) == Exp2(code - top + 6) * Exp2(top - 133)
  {
    hide Exp2;
    Exp2SmallValues();
    Exp2Add(6, top - 133);
    Exp2Add(code - top + 6, top - 133);
    QuotientIs(GroupScale(code), GroupScale(top), Exp2(code - top + 6), Exp2(top - 133));
  }

  lemma SignedBound(v: real, e: real)
    requires -6.0 <= v <= 6.0 && 0.0 < e <= 64.0
    ensures -384.0 <= v * e <= 384.0
  {
    RealMulMonotone(v, 6.0, e);
    RealMulMonotone(-6.0, v, e);
    assert v * e <= 6.0 * e <= 384.0;
    assert v * e >= -6.0 * e >= -384.0;
  }

  lemma ScaledHalf(h: real, e: real)
    ensures 512.0 * (h / 2.0 * e) == h * (256.0 * e)
  {}

  lemma UnitsOfValue(h: int, d: nat)
    requires -12 <= h <= 12
    ensures 512.0 * (h as real / 2.0 * Exp2(6 - d)) == Units(h, d)
    ensures -448.0 <= h as real / 2.0 * Exp2(6 - d) <= 448.0
  {
    hide Exp2;
    Exp2SmallValues();
    Exp2Add(8, 6 - d);
    Exp2Monotone(6 - d, 6);
    ScaledHalf(h as real, Exp2(6 - d));
    SignedBound(h as real / 2.0, Exp2(6 - d));
  }

  lemma SameFactor(a: real, b: real, t: real)
    requires t > 0.0
    ensures a * t == b * t <==> a == b
  {
    if a * t == b * t {
      assert (a - b) * t == 0.0;
    }
  }

  lemma ProductsAgreeIff(y: real, v: real, e: real, t: real, g: real)
    requires t > 0.0 && g == e * t
    ensures y * t == v * g <==> y == v * e
  {
    MulThree(v, e, t);
    SameFactor(y, v * e, t);
  }

  lemma CastRealIsRepresentable(x: real)
    requires -448.0 <= x <= 448.0
    ensures CastReal(x) == Cast(x) && Representable(CastReal(x))
  {
    assert Representable(0) by { GridIsFormat(0); }
    CastIsNearest(x, 0);
  }

  /** One element with scale byte `code` in a tile whose largest byte is `top`: the stored value times the tile scale
      equals the packed value times the group scale exactly when the value is lossless at that distance. */
  lemma ElementExactIff(h: int, code: int, top: int, ts: real, x: real)
    requires -12 <= h <= 12 && code <= top && ts == GroupScale(top) / 64.0
    requires ts != 0.0 && x == h as real / 2.0 * (GroupScale(code) / ts)
    ensures -448.0 <= x <= 448.0 && Representable(CastReal(x))
    ensures Real(CastReal(x)) * ts == h as real / 2.0 * GroupScale(code) <==> Lossless(h, top - code)
  {
    hide Exp2, GroupScale, Cast, CastReal, Real, Lossless, Representable, Units;
    OffsetIsPower(code, top);
    assert code - top + 6 == 6 - (top - code);
    UnitsOfValue(h, top - code);
    CastIsExactIff(h, top - code, x);
    CastRealIsRepresentable(x);
    ProductsAgreeIff(Real(CastReal(x)), h as real / 2.0, Exp2(code - top + 6), ts, GroupScale(code));
  }

  // ---- the whole conversion ----

  /** Coordinates of (i, j) in the grid of tiles. */
  ghost predicate At(i: nat, j: nat, p: nat, q: nat, r: nat, c: nat) {
    && r < FP8_BLOCK && c < FP8_BLOCK
    && i == p * FP8_BLOCK + r && j == q * FP8_BLOCK + c
  }

  lemma UntileAt<T>(t: seq<seq<seq<seq<T>>>>, bo: nat, bi: nat, i: nat, j: nat, p: nat, q: nat, r: nat, c: nat)
    requires IsTiles(t, bo, FP8_BLOCK, bi, FP8_BLOCK) && At(i, j, p, q, r, c) && p < bo && q < bi
    ensures i < bo * FP8_BLOCK && j < bi * FP8_BLOCK
    ensures Untile(t, bo, FP8_BLOCK, bi, FP8_BLOCK)[i][j] == t[p][q][r][c]
  {
    InTile(p, bo, r, FP8_BLOCK);
    InTile(q, bi, c, FP8_BLOCK);
  }

  lemma TileScaleIsMaxCode(scale: seq<seq<int>>, bo: nat, bi: nat, p: nat, q: nat)
    requires IsMatrix(scale, bo * FP8_BLOCK, bi * GROUPS) && p < bo && q < bi
    ensures TileScale(scale, bo, bi, p, q) == GroupScale(TileMaxCode(scale, bo, bi, p, q)) / 64.0
  {
    hide MaxScale, MaxCode, TileCodes, Exp2;
    MaxScaleIsMaxCode(TileCodes(scale, bo, bi, p, q));
  }

  /** The rescaled value at (i, j): the packed value times its group scale over the tile scale. */
  function RescaledAt(codes: seq<seq<nat>>, scale: seq<seq<int>>, bo: nat, bi: nat, i: nat, j: nat, p: nat, q: nat): real
    requires IsMatrix(codes, bo * FP8_BLOCK, bi * FP8_BLOCK) && IsMatrix(scale, bo * FP8_BLOCK, bi * GROUPS)
    requires i < bo * FP8_BLOCK && j < bi * FP8_BLOCK && p < bo && q < bi && codes[i][j] < 16
  {
    Fp4Halves(codes[i][j]) as real / 2.0 * (GroupScale(scale[i][j / FP4_BLOCK]) / TileScale(scale, bo, bi, p, q))
  }

  lemma RescaleAt(codes: seq<seq<nat>>, scale: seq<seq<int>>, bo: nat, bi: nat,
                  i: nat, j: nat, p: nat, q: nat, r: nat, c: nat)
    requires IsMatrix(codes, bo * FP8_BLOCK, bi * FP8_BLOCK) && IsMatrix(scale, bo * FP8_BLOCK, bi * GROUPS)
    requires forall i, j :: 0 <= i < bo * FP8_BLOCK && 0 <= j < bi * FP8_BLOCK ==> codes[i][j] < 16
    requires At(i, j, p, q, r, c) && p < bo && q < bi
    ensures i < bo * FP8_BLOCK && j < bi * FP8_BLOCK
    ensures Rescale(codes, scale, bo, bi)[p][q][r][c] == RescaledAt(codes, scale, bo, bi, i, j, p, q)
  {
    hide TileCodes, TileScale, GroupScale, Fp4Halves;
    ScaleCellAt(scale, bo, bi, i, j, p, q, r, c);
  }

  /** What the conversion stores at (i, j), in terms of the two inputs at that same position. */
  lemma StoredElement(x: seq<seq<int>>, scale: seq<seq<int>>, bo: nat, bi: nat, i: nat, j: nat,
                      p: nat, q: nat, r: nat, c: nat)
    requires Shapes(x, scale, bo, bi) && At(i, j, p, q, r, c) && p < bo && q < bi
    ensures i < bo * FP8_BLOCK && j < bi * FP8_BLOCK
    ensures Convert(x, scale, bo, bi).weight[i][j]
            == CastReal(RescaledAt(PackedCodes(x, bo, bi), scale, bo, bi, i, j, p, q))
  {
    hide TileScale, CastReal, PackedCodes, RescaledAt, Rescale, Untile, TileScales;
    var codes := PackedCodes(x, bo, bi);
    RescaleAt(codes, scale, bo, bi, i, j, p, q, r, c);
    UntileAt(Rescale(codes, scale, bo, bi), bo, bi, i, j, p, q, r, c);
  }

  /** The exactness of one element in the coordinates of its tile. */
  lemma TileIsLosslessIff(x: seq<seq<int>>, scale: seq<seq<int>>, bo: nat, bi: nat, i: nat, j: nat,
                          p: nat, q: nat, r: nat, c: nat)
    requires Shapes(x, scale, bo, bi) && At(i, j, p, q, r, c) && p < bo && q < bi
    ensures i < bo * FP8_BLOCK && j < bi * FP8_BLOCK && j / FP4_BLOCK < bi * GROUPS
    ensures var out := Convert(x, scale, bo, bi);
            var h := Fp4Halves(PackedCodes(x, bo, bi)[i][j]);
            var code := scale[i][j / FP4_BLOCK];
            var distance := TileMaxCode(scale, bo, bi, p, q) - code;
            && distance >= 0 && out.tileScale[p][q] == TileScale(scale, bo, bi, p, q)
            && Representable(out.weight[i][j])
            && (Real(out.weight[i][j]) * out.tileScale[p][q] == h as real / 2.0 * GroupScale(code)
                <==> Lossless(h, distance))
            && (distance <= 14 ==> Lossless(h, distance))
  {
    hide TileScale, TileMaxCode, CastReal, PackedCodes, GroupScale, Real, Representable, Fp4Halves, Rescale, Untile;
    StoredElement(x, scale, bo, bi, i, j, p, q, r, c);
    TileScaleIsMaxCode(scale, bo, bi, p, q);
    TileMaxCodeBounds(scale, bo, bi, i, j, p, q, r, c);
    var codes := PackedCodes(x, bo, bi);
    ElementExactIff(Fp4Halves(codes[i][j]), scale[i][j / FP4_BLOCK], TileMaxCode(scale, bo, bi, p, q),
                    TileScale(scale, bo, bi, p, q), RescaledAt(codes, scale, bo, bi, i, j, p, q));
  }

  /** Exactness of the whole cast, element by element, whenever its shape checks pass: the stored code is an E4M3 value,
      and code times tile scale equals the E2M1 value of its nibble times its group scale exactly when its distance from
      the tile maximum is at most fourteen or the value, in halves, is divisible by two to the power of the excess. */
  lemma CastIsLosslessIff(x: seq<seq<int>>, scale: seq<seq<int>>, outDim: nat, inDim: nat, i: nat, j: nat)
    requires inDim % 2 == 0 && IsMatrix(x, outDim, inDim / 2) && i < outDim && j < inDim
    requires CastE2m1ToE4m3(x, scale, outDim, inDim).Success?
    ensures var out := CastE2m1ToE4m3(x, scale, outDim, inDim).value;
            var (bo, bi, p, q) := (outDim / 128, inDim / 128, i / 128, j / 128);
            && IsMatrix(out.weight, outDim, inDim) && IsMatrix(out.tileScale, bo, bi) && p < bo && q < bi
            && var byte := x[i][j / 2] % 256;
               var h := E2M1Halves(if j % 2 == 0 then byte % 16 else byte / 16);
               var code, top := scale[i][j / 32], TileMaxCode(scale, bo, bi, p, q);
               && top >= code && out.tileScale[p][q] == Exp2(top - 133)
               && Representable(out.weight[i][j])
               && (out.weight[i][j] as real / 512.0 * out.tileScale[p][q] == h as real / 2.0 * Exp2(code - 127)
                   <==> top - code <= 14 || h % Pow2(top - code - 14) == 0)
  {
    hide TileScale, TileMaxCode, CastReal, Representable, Fp4Halves, E2M1Halves, Rescale, Untile, Convert, Exp2, Pow2;
    TableIsFormat(Nibble(AsUnsigned(x[i][j / 2]), j % 2 == 1));
    var bo, bi := outDim / FP8_BLOCK, inDim / FP8_BLOCK;
    WholeTiles(outDim, i);
    WholeTiles(inDim, j);
    assert inDim / 2 == bi * (FP8_BLOCK / 2) && inDim / FP4_BLOCK == bi * GROUPS;
    TileIsLosslessIff(x, scale, bo, bi, i, j, i / FP8_BLOCK, j / FP8_BLOCK, i % FP8_BLOCK, j % FP8_BLOCK);
    TileScaleIs(scale, bo, bi, i / FP8_BLOCK, j / FP8_BLOCK);
  }

  /** The tile scale is two to the power of the largest group exponent less six. */
  lemma TileScaleIs(scale: seq<seq<int>>, bo: nat, bi: nat, p: nat, q: nat)
    requires IsMatrix(scale, bo * FP8_BLOCK, bi * GROUPS) && p < bo && q < bi
    ensures TileScale(scale, bo, bi, p, q) == Exp2(TileMaxCode(scale, bo, bi, p, q) - 133)
  {
    hide Exp2, TileMaxCode, TileScale;
    TileScaleIsMaxCode(scale, bo, bi, p, q);
    OffsetIsPower(0, TileMaxCode(scale, bo, bi, p, q));
  }

  lemma WholeTiles(n: nat, i: nat)
    requires n % FP8_BLOCK == 0 && i < n
    ensures n == n / FP8_BLOCK * FP8_BLOCK && i / FP8_BLOCK < n / FP8_BLOCK
    ensures i == i / FP8_BLOCK * FP8_BLOCK + i % FP8_BLOCK
  {}

  /** The bound is tight: at distance fifteen the codes of one half and one and a half, and only those magnitudes,
      are no longer exact. */
  lemma FifteenBreaksOddHalves(code: nat)
    requires code < 16
    ensures Lossless(Fp4Halves(code), 15) <==> code % 8 != 1 && code % 8 != 3
  {
    assert Pow2(1) == 2;
  }
}
