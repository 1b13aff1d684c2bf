/** Blockwise FP8 quantisation, and what dequantising its output gives back. */
module BlockFp8 {
  import opened Arithmetic
  import opened DequantKernel
  import opened E4M3
  import opened Matrices

  const FP8_MAX: real := 448.0

  function MaxOver(s: seq<real>): (m: real)
    requires |s| > 0
    ensures m in s && forall i :: 0 <= i < |s| ==> s[i] <= m
  {
    if |s| == 1 then s[0] else Max(MaxOver(s[..|s| - 1]), s[|s| - 1])
  }

  /** The weight with zeros outside its shape. */
  function Padded(w: seq<seq<real>>, rows: nat, cols: nat, i: nat, j: nat): real
    requires IsMatrix(w, rows, cols)
  {
    if i < rows && j < cols then w[i][j] else 0.0
  }

  function Magnitude(w: seq<seq<real>>, rows: nat, cols: nat, i: nat, j: nat): (m: real)
    requires IsMatrix(w, rows, cols)
    ensures m >= 0.0
  {
    Abs(Padded(w, rows, cols, i, j))
  }

  /** The magnitudes of column j in the `bn` rows from `top` on. */
  function Column(w: seq<seq<real>>, rows: nat, cols: nat, bn: nat, top: nat, j: nat): (s: seq<real>)
    requires IsMatrix(w, rows, cols)
    ensures |s| == bn
    ensures forall r :: 0 <= r < bn ==> s[r] == Magnitude(w, rows, cols, top + r, j)
  {
    seq(bn, (r: nat) => Magnitude(w, rows, cols, top + r, j))
  }

  function ColumnMaxima(w: seq<seq<real>>, rows: nat, cols: nat, bn: nat, bk: nat, top: nat, left: nat): (s: seq<real>)
    requires IsMatrix(w, rows, cols) && bn > 0
    ensures |s| == bk
    ensures forall c :: 0 <= c < bk ==> s[c] == MaxOver(Column(w, rows, cols, bn, top, left + c))
  {
    seq(bk, (c: nat) => MaxOver(Column(w, rows, cols, bn, top, left + c)))
  }

  /** The column maxima of a tile, then the maximum over its columns. */
  function BlockMax(w: seq<seq<real>>, rows: nat, cols: nat, bn: nat, bk: nat, ti: nat, tj: nat): (m: real)
    requires IsMatrix(w, rows, cols) && bn > 0 && bk > 0
  {
    MaxOver(ColumnMaxima(w, rows, cols, bn, bk, ti * bn, tj * bk))
  }

  lemma Attained(s: seq<real>) returns (k: nat)
    requires |s| > 0
    ensures k < |s| && s[k] == MaxOver(s)
  {
    k :| 0 <= k < |s| && s[k] == MaxOver(s);
  }

  lemma TileElementBound(w: seq<seq<real>>, rows: nat, cols: nat, bn: nat, bk: nat, top: nat, left: nat, r: nat, c: nat)
    requires IsMatrix(w, rows, cols) && r < bn && c < bk
    ensures Magnitude(w, rows, cols, top + r, left + c) <= MaxOver(ColumnMaxima(w, rows, cols, bn, bk, top, left))
  {
    var column := Column(w, rows, cols, bn, top, left + c);
    assert column[r] <= MaxOver(column);
    assert ColumnMaxima(w, rows, cols, bn, bk, top, left)[c] == MaxOver(column);
  }

  lemma TileElementAttains(w: seq<seq<real>>, rows: nat, cols: nat, bn: nat, bk: nat, top: nat, left: nat)
      returns (r: nat, c: nat)
    requires IsMatrix(w, rows, cols) && bn > 0 && bk > 0
    ensures r < bn && c < bk
    ensures Magnitude(w, rows, cols, top + r, left + c) == MaxOver(ColumnMaxima(w, rows, cols, bn, bk, top, left))
  {
    c := Attained(ColumnMaxima(w, rows, cols, bn, bk, top, left));
    r := Attained(Column(w, rows, cols, bn, top, left + c));
  }

  /** The block maximum bounds every magnitude of its tile... */
  lemma BlockMaxBounds(w: seq<seq<real>>, rows: nat, cols: nat, bn: nat, bk: nat, i: nat, j: nat)
    requires IsMatrix(w, rows, cols) && bn > 0 && bk > 0
    ensures Magnitude(w, rows, cols, i, j) <= BlockMax(w, rows, cols, bn, bk, TileIndex(i, bn), TileIndex(j, bk))
  {
    TileOf(i, i + 1, bn);
    TileOf(j, j + 1, bk);
    TileElementBound(w, rows, cols, bn, bk, TileIndex(i, bn) * bn, TileIndex(j, bk) * bk, i % bn, j % bk);
  }

  /** ...and is one of them. */
  lemma BlockMaxAttained(w: seq<seq<real>>, rows: nat, cols: nat, bn: nat, bk: nat, ti: nat, tj: nat)
      returns (i: nat, j: nat)
    requires IsMatrix(w, rows, cols) && bn > 0 && bk > 0
    ensures TileIndex(i, bn) == ti && TileIndex(j, bk) == tj
    ensures Magnitude(w, rows, cols, i, j) == BlockMax(w, rows, cols, bn, bk, ti, tj)
  {
    hide *;
    var r, c := AttainedInBlock(w, rows, cols, bn, bk, ti, tj);
    i, j := ti * bn + r, tj * bk + c;
    InTileRow(ti, r, bn);
    InTileRow(tj, c, bk);
  }

  lemma AttainedInBlock(w: seq<seq<real>>, rows: nat, cols: nat, bn: nat, bk: nat, ti: nat, tj: nat) returns (r: nat, c: nat)
    requires IsMatrix(w, rows, cols) && bn > 0 && bk > 0
    ensures r < bn && c < bk && Magnitude(w, rows, cols, ti * bn + r, tj * bk + c) == BlockMax(w, rows, cols, bn, bk, ti, tj)
  {
    hide TileIndex, MaxOver, ColumnMaxima, Magnitude;
    r, c := TileElementAttains(w, rows, cols, bn, bk, ti * bn, tj * bk);
  }

  lemma InTileRow(t: nat, r: nat, b: nat)
    requires r < b
    ensures TileIndex(t * b + r, b) == t
  {
    InTile(t, t + 1, r, b);
  }

  ghost predicate NoZeroBlock(w: seq<seq<real>>, rows: nat, cols: nat, bn: nat, bk: nat)
    requires IsMatrix(w, rows, cols) && bn > 0 && bk > 0
  {
    forall ti: nat, tj: nat :: ti < CeilDiv(rows, bn) && tj < CeilDiv(cols, bk) ==>
      BlockMax(w, rows, cols, bn, bk, ti, tj) > 0.0
  }

  function Clamp(x: real): (y: real)
    ensures -FP8_MAX <= y <= FP8_MAX
  {
    if x < -FP8_MAX then -FP8_MAX else if x > FP8_MAX then FP8_MAX else x
  }

  function ScaleOf(w: seq<seq<real>>, rows: nat, cols: nat, bn: nat, bk: nat): (scale: seq<seq<real>>)
    requires IsMatrix(w, rows, cols) && bn > 0 && bk > 0
    ensures IsMatrix(scale, CeilDiv(rows, bn), CeilDiv(cols, bk))
  {
    seq(CeilDiv(rows, bn), ti requires 0 <= ti < CeilDiv(rows, bn) =>
      seq(CeilDiv(cols, bk), tj requires 0 <= tj < CeilDiv(cols, bk) =>
        BlockMax(w, rows, cols, bn, bk, ti, tj) / FP8_MAX))
  }

  /** Element (i, j) of the quantised weight: divide by the tile's scale, clamp, cast. */
  function QuantisedAt(w: seq<seq<real>>, rows: nat, cols: nat, bn: nat, bk: nat, i: nat, j: nat): int
    requires IsMatrix(w, rows, cols) && bn > 0 && bk > 0 && NoZeroBlock(w, rows, cols, bn, bk)
    requires i < rows && j < cols
  {
    TileOf(i, rows, bn);
    TileOf(j, cols, bk);
    Cast(Clamp(Padded(w, rows, cols, i, j) / (BlockMax(w, rows, cols, bn, bk, TileIndex(i, bn), TileIndex(j, bk)) / FP8_MAX)))
  }

  function BlockFp8(w: seq<seq<real>>, rows: nat, cols: nat, bn: nat, bk: nat): (r: (seq<seq<int>>, seq<seq<real>>))
    requires IsMatrix(w, rows, cols) && bn > 0 && bk > 0 && NoZeroBlock(w, rows, cols, bn, bk)
    ensures IsMatrix(r.0, rows, cols) && IsMatrix(r.1, CeilDiv(rows, bn), CeilDiv(cols, bk))
  {
    (seq(rows, i requires 0 <= i < rows =>
       seq(cols, j requires 0 <= j < cols => QuantisedAt(w, rows, cols, bn, bk, i, j))),
     ScaleOf(w, rows, cols, bn, bk))
  }

  // ---- the error bound ----

  /** A magnitude of at most `top`, divided by s = top / 448, lands within the format. */
  lemma QuotientBound(v: real, x: real, top: real, s: real)
    requires s > 0.0 && IsProduct(top, s, FP8_MAX) && IsProduct(x, v, s) && Abs(x) <= top
    ensures -FP8_MAX <= v <= FP8_MAX
  {
    if v > FP8_MAX {
      RealMulStrict(FP8_MAX, v, s);
    } else if v < -FP8_MAX {
      RealMulStrict(v, -FP8_MAX, s);
    }
  }

  lemma ScaledAbs(v: real, s: real)
    requires s > 0.0
    ensures Abs(v * s) == Abs(v) * s
  {
    if v >= 0.0 {
      RealMulMonotone(0.0, v, s);
    } else {
      RealMulMonotone(v, 0.0, s);
      assert (-v) * s == -(v * s);
    }
  }

  lemma ScaledMax(x: real, y: real, s: real)
    requires s > 0.0
    ensures Max(x, y) * s == Max(x * s, y * s)
  {
    if x < y {
      RealMulStrict(x, y, s);
    } else {
      RealMulMonotone(y, x, s);
    }
  }

  lemma ScaledError(u: real, v: real, s: real, e: real)
    requires s > 0.0 && Abs(u - v) <= e
    ensures Abs(u * s - v * s) <= e * s
  {
    assert u * s - v * s == (u - v) * s;
    ScaledAbs(u - v, s);
    RealMulMonotone(Abs(u - v), e, s);
  }

  lemma ScaledBound(v: real, x: real, s: real, top: real)
    requires s > 0.0 && IsProduct(x, v, s) && IsProduct(top, s, FP8_MAX)
    ensures Max(Abs(v) / 16.0, 1.0 / 1024.0) * s == Max(Abs(x) / 16.0, top / 458752.0)
  {
    ScaledMax(Abs(v) / 16.0, 1.0 / 1024.0, s);
    ScaledAbs(v, s);
    SixteenthScales(Abs(v), s);
  }

  lemma SixteenthScales(v: real, s: real)
    ensures (v / 16.0) * s == (v * s) / 16.0
  {}

  lemma CastIsNearestToAll(v: real)
    requires -FP8_MAX <= v <= FP8_MAX
    ensures Representable(Cast(v))
    ensures forall other :: Representable(other) ==> Abs(Real(Cast(v)) - v) <= Abs(Real(other) - v)
    ensures Abs(Real(Cast(v)) - v) <= Max(Abs(v) / 16.0, 1.0 / 1024.0)
  {
    assert Representable(0) by { GridIsFormat(0); }
    CastIsNearest(v, 0);
    forall other | Representable(other) ensures Abs(Real(Cast(v)) - v) <= Abs(Real(other) - v) {
      CastIsNearest(v, other);
    }
  }

  lemma QuotientTimesScale(x: real, top: real, s: real, v: real)
    requires top > 0.0 && s == top / FP8_MAX && v == x / s
    ensures s > 0.0 && IsProduct(top, s, FP8_MAX) && IsProduct(x, v, s)
  {}

  /** An error bound on the codes becomes an error bound on the weights. */
  lemma ErrorInWeights(u: real, v: real, x: real, s: real, top: real)
    requires s > 0.0 && IsProduct(x, v, s) && IsProduct(top, s, FP8_MAX)
    requires Abs(u - v) <= Max(Abs(v) / 16.0, 1.0 / 1024.0)
    ensures Abs(u * s - x) <= Max(Abs(x) / 16.0, top / 458752.0)
  {
    ScaledError(u, v, s, Max(Abs(v) / 16.0, 1.0 / 1024.0));
    ScaledBound(v, x, s, top);
  }

  ghost predicate NearestCode(c: int, v: real) {
    && Representable(c)
    && (forall other :: Representable(other) ==> Abs(Real(c) - v) <= Abs(Real(other) - v))
  }

  lemma ClampIsIdle(v: real, x: real, top: real, s: real)
    requires s > 0.0 && IsProduct(top, s, FP8_MAX) && IsProduct(x, v, s) && Abs(x) <= top
    ensures -FP8_MAX <= v <= FP8_MAX && Clamp(v) == v
  {
    QuotientBound(v, x, top, s);
  }

  lemma CastOfQuotient(v: real, c: int)
    requires -FP8_MAX <= v <= FP8_MAX && c == Cast(Clamp(v))
    ensures NearestCode(c, v) && Abs(Real(c) - v) <= Max(Abs(v) / 16.0, 1.0 / 1024.0)
  {
    CastIsNearestToAll(v);
  }

  /** One element: the clamp is idle, the code is the nearest one, and the error is within one part in sixteen or
      one part in 458752 of the block maximum. */
  lemma ElementError(x: real, top: real, s: real, v: real, c: int)
    requires s > 0.0 && IsProduct(top, s, FP8_MAX) && IsProduct(x, v, s) && Abs(x) <= top && c == Cast(Clamp(v))
    ensures Clamp(v) == v
    ensures NearestCode(c, v)
    ensures Abs(Real(c) * s - x) <= Max(Abs(x) / 16.0, top / 458752.0)
  {
    hide *;
    assert -FP8_MAX <= v <= FP8_MAX && Clamp(v) == v by { ClampIsIdle(v, x, top, s); }
    CastOfQuotient(v, c);
    assert Abs(Real(c) * s - x) <= Max(Abs(x) / 16.0, top / 458752.0) by { ErrorInWeights(Real(c), v, x, s, top); }
  }

  function Flatten<T>(m: seq<seq<T>>, sh: Shape): (flat: seq<T>)
    requires IsMatrix(m, sh.rows, sh.cols)
    ensures |flat| == sh.Cells()
  {
    seq(sh.Cells(), k requires 0 <= k < sh.Cells() => CellRow(k, sh.rows, sh.cols); m[k / sh.cols][k % sh.cols])
  }

  function Reals(q: seq<int>): (r: seq<real>)
    ensures |r| == |q|
  {
    seq(|q|, k requires 0 <= k < |q| => Real(q[k]))
  }

  lemma FlattenAt<T>(m: seq<seq<T>>, sh: Shape, i: nat, j: nat)
    requires IsMatrix(m, sh.rows, sh.cols) && i < sh.rows && j < sh.cols
    ensures Flatten(m, sh)[CellAddress(i, j, sh)] == m[i][j]
  {
    FlatIndex(i, j, sh.rows, sh.cols);
  }

  lemma DequantisedAt(x: seq<real>, s: seq<real>, sh: Shape, i: nat, j: nat)
    requires sh.Valid() && BuffersMatch(x, s, sh) && i < sh.rows && j < sh.cols
    ensures Dequantised(x, s, sh)[CellAddress(i, j, sh)] == x[CellAddress(i, j, sh)] * s[TileAddress(i, j, sh)]
  {
    hide TileAddress;
    FlatIndex(i, j, sh.rows, sh.cols);
  }

  /** The scales form a small matrix of their own: one cell per tile. */
  function ScaleShape(sh: Shape): Shape
    requires sh.Valid()
  {
    Shape(sh.RowTiles(), sh.ColTiles(), 1)
  }

  function FlatScales(scale: seq<seq<real>>, sh: Shape): (s: seq<real>)
    requires sh.Valid() && IsMatrix(scale, sh.RowTiles(), sh.ColTiles())
    ensures |s| == sh.Scales()
  {
    Flatten(scale, ScaleShape(sh))
  }

  lemma ScaleAt(scale: seq<seq<real>>, sh: Shape, i: nat, j: nat)
    requires sh.Valid() && IsMatrix(scale, sh.RowTiles(), sh.ColTiles()) && i < sh.rows && j < sh.cols
    ensures TileIndex(i, sh.block) < sh.RowTiles() && TileIndex(j, sh.block) < sh.ColTiles()
    ensures FlatScales(scale, sh)[TileAddress(i, j, sh)] == scale[TileIndex(i, sh.block)][TileIndex(j, sh.block)]
  {
    TileOf(i, sh.rows, sh.block);
    TileOf(j, sh.cols, sh.block);
    FlattenAt(scale, ScaleShape(sh), TileIndex(i, sh.block), TileIndex(j, sh.block));
  }

  function Codes(q: seq<seq<int>>, sh: Shape): (x: seq<real>)
    requires IsMatrix(q, sh.rows, sh.cols)
    ensures |x| == sh.Cells()
  {
    Reals(Flatten(q, sh))
  }

  /** The kernel multiplies each code by the scale of the tile that quantised it. */
  lemma SameScaleCell(q: seq<seq<int>>, scale: seq<seq<real>>, sh: Shape, i: nat, j: nat)
    requires sh.Valid() && IsMatrix(q, sh.rows, sh.cols) && IsMatrix(scale, sh.RowTiles(), sh.ColTiles())
    requires i < sh.rows && j < sh.cols
    ensures TileIndex(i, sh.block) < sh.RowTiles() && TileIndex(j, sh.block) < sh.ColTiles()
    ensures Dequantised(Codes(q, sh), FlatScales(scale, sh), sh)[CellAddress(i, j, sh)]
            == Real(q[i][j]) * scale[TileIndex(i, sh.block)][TileIndex(j, sh.block)]
  {
    hide TileAddress, CellAddress, Dequantised, Flatten, FlatScales, CeilDiv, TileIndex;
    hide Shape.Cells, Shape.Scales;
    FlattenAt(q, sh, i, j);
    ScaleAt(scale, sh, i, j);
    DequantisedAt(Codes(q, sh), FlatScales(scale, sh), sh, i, j);
  }

  lemma BlockBound(w: seq<seq<real>>, rows: nat, cols: nat, block: nat, i: nat, j: nat)
    requires IsMatrix(w, rows, cols) && block > 0 && NoZeroBlock(w, rows, cols, block, block)
    requires i < rows && j < cols
    ensures var top := BlockMax(w, rows, cols, block, block, TileIndex(i, block), TileIndex(j, block));
            top > 0.0 && Abs(w[i][j]) <= top
  {
    hide BlockMax;
    TileOf(i, rows, block);
    TileOf(j, cols, block);
    BlockMaxBounds(w, rows, cols, block, block, i, j);
  }

  lemma StoredCode(w: seq<seq<real>>, rows: nat, cols: nat, block: nat, i: nat, j: nat)
    requires IsMatrix(w, rows, cols) && block > 0 && NoZeroBlock(w, rows, cols, block, block)
    requires i < rows && j < cols
    ensures TileIndex(i, block) < CeilDiv(rows, block) && TileIndex(j, block) < CeilDiv(cols, block)
    ensures var (q, scale) := BlockFp8(w, rows, cols, block, block);
            var s := scale[TileIndex(i, block)][TileIndex(j, block)];
            && s == BlockMax(w, rows, cols, block, block, TileIndex(i, block), TileIndex(j, block)) / FP8_MAX && s > 0.0
            && q[i][j] == Cast(Clamp(w[i][j] / s))
  {
    hide BlockMax, Cast, Clamp;
    TileOf(i, rows, block);
    TileOf(j, cols, block);
  }

  /** What the quantiser stores for one element, and how far its value is from the weight. */
  lemma QuantisedElement(w: seq<seq<real>>, rows: nat, cols: nat, block: nat, i: nat, j: nat)
    requires IsMatrix(w, rows, cols) && block > 0 && NoZeroBlock(w, rows, cols, block, block)
    requires i < rows && j < cols
    ensures TileIndex(i, block) < CeilDiv(rows, block) && TileIndex(j, block) < CeilDiv(cols, block)
    ensures var (q, scale) := BlockFp8(w, rows, cols, block, block);
            var s := scale[TileIndex(i, block)][TileIndex(j, block)];
            var top := BlockMax(w, rows, cols, block, block, TileIndex(i, block), TileIndex(j, block));
            && s > 0.0
            && NearestCode(q[i][j], w[i][j] / s)
            && Abs(Real(q[i][j]) * s - w[i][j]) <= Max(Abs(w[i][j]) / 16.0, top / 458752.0)
  {
    hide BlockMax, Cast, Clamp, Abs, Max, NearestCode, Real, QuantisedAt, IsProduct, BlockFp8, ScaleOf, NoZeroBlock, TileIndex, CeilDiv;
    StoredCode(w, rows, cols, block, i, j);
    BlockBound(w, rows, cols, block, i, j);
    var (q, scale) := BlockFp8(w, rows, cols, block, block);
    var x, s := w[i][j], scale[TileIndex(i, block)][TileIndex(j, block)];
    var top := BlockMax(w, rows, cols, block, block, TileIndex(i, block), TileIndex(j, block));
    QuotientTimesScale(x, top, s, x / s);
    ElementError(x, top, s, x / s, q[i][j]);
  }

  /** Quantise with square blocks, then run the dequantisation kernel. */
  function RoundTrip(w: seq<seq<real>>, sh: Shape): (y: seq<real>)
    requires sh.Valid() && IsMatrix(w, sh.rows, sh.cols) && NoZeroBlock(w, sh.rows, sh.cols, sh.block, sh.block)
    ensures |y| == sh.Cells()
  {
    var (q, scale) := BlockFp8(w, sh.rows, sh.cols, sh.block, sh.block);
    Dequantised(Codes(q, sh), FlatScales(scale, sh), sh)
  }

  /** Every element comes back within one part in sixteen of itself or one part in 458752 of its block maximum. */
  lemma RoundTripError(w: seq<seq<real>>, sh: Shape, i: nat, j: nat)
    requires sh.Valid() && IsMatrix(w, sh.rows, sh.cols) && NoZeroBlock(w, sh.rows, sh.cols, sh.block, sh.block)
    requires i < sh.rows && j < sh.cols
    ensures var top := BlockMax(w, sh.rows, sh.cols, sh.block, sh.block, TileIndex(i, sh.block), TileIndex(j, sh.block));
            Abs(RoundTrip(w, sh)[CellAddress(i, j, sh)] - w[i][j]) <= Max(Abs(w[i][j]) / 16.0, top / 458752.0)
  {
    hide BlockMax, Abs, Max, Real, NearestCode, BlockFp8, Dequantised, Codes, FlatScales, NoZeroBlock;
    hide CeilDiv, TileIndex, CellAddress, Shape.Cells, Shape.Scales;
    var (q, scale) := BlockFp8(w, sh.rows, sh.cols, sh.block, sh.block);
    SameScaleCell(q, scale, sh, i, j);
    QuantisedElement(w, sh.rows, sh.cols, sh.block, i, j);
  }
}
