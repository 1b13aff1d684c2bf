/** The tiled dequantisation kernel: a grid of programs storing into one flat buffer. */
module DequantKernel {
  import opened Arithmetic

  /** Problem sizes: an M by N matrix in tiles of `block`. */
  datatype Shape = Shape(rows: nat, cols: nat, block: nat) {
    predicate Valid() { block > 0 }

    function RowTiles(): nat requires Valid() { CeilDiv(rows, block) }
    function ColTiles(): nat requires Valid() { CeilDiv(cols, block) }
    function Cells(): nat { rows * cols }
    function Scales(): nat requires Valid() { RowTiles() * ColTiles() }
  }

  /** One lane of one program: program (pidM, pidN), element (a, b) of its tile. */
  datatype Lane = Lane(pidM: nat, pidN: nat, a: nat, b: nat) {
    function Row(sh: Shape): nat { pidM * sh.block + a }
    function Col(sh: Shape): nat { pidN * sh.block + b }
    predicate Masked(sh: Shape) { Row(sh) < sh.rows && Col(sh) < sh.cols }
    function Address(sh: Shape): nat { Row(sh) * sh.cols + Col(sh) }
    function ScaleAddress(sh: Shape): nat requires sh.Valid() { pidM * sh.ColTiles() + pidN }

    predicate InGrid(sh: Shape)
      requires sh.Valid()
    {
      pidM < sh.RowTiles() && pidN < sh.ColTiles() && a < sh.block && b < sh.block
    }
  }

  lemma FlatIndex(i: nat, j: nat, rows: nat, cols: nat)
    requires i < rows && j < cols
    ensures i * cols + j < rows * cols
    ensures (i * cols + j) / cols == i && (i * cols + j) % cols == j
  {
    InTile(i, rows, j, cols);
  }

  lemma AddressInRange(lane: Lane, sh: Shape)
    requires sh.Valid() && lane.InGrid(sh)
    ensures lane.Masked(sh) ==> lane.Address(sh) < sh.Cells()
    ensures lane.ScaleAddress(sh) < sh.Scales()
  {
    if lane.Masked(sh) {
      FlatIndex(lane.Row(sh), lane.Col(sh), sh.rows, sh.cols);
    }
    FlatIndex(lane.pidM, lane.pidN, sh.RowTiles(), sh.ColTiles());
  }

  /** No two lanes of the grid ever store to the same cell. */
  lemma RaceFree(p: Lane, q: Lane, sh: Shape)
    requires sh.Valid() && p.InGrid(sh) && q.InGrid(sh) && p.Masked(sh) && q.Masked(sh)
    requires p.Address(sh) == q.Address(sh)
    ensures p == q
  {
    FlatIndex(p.Row(sh), p.Col(sh), sh.rows, sh.cols);
    FlatIndex(q.Row(sh), q.Col(sh), sh.rows, sh.cols);
    InTile(p.pidM, sh.RowTiles(), p.a, sh.block);
    InTile(q.pidM, sh.RowTiles(), q.a, sh.block);
    InTile(p.pidN, sh.ColTiles(), p.b, sh.block);
    InTile(q.pidN, sh.ColTiles(), q.b, sh.block);
  }

  /** The lane responsible for cell (i, j). */
  function Owner(i: nat, j: nat, sh: Shape): Lane
    requires sh.Valid()
  {
    Lane(TileIndex(i, sh.block), TileIndex(j, sh.block), i % sh.block, j % sh.block)
  }

  /** Every cell has a lane of the grid, and that lane reads the scale of the cell's own tile. */
  lemma Covered(i: nat, j: nat, sh: Shape)
    requires sh.Valid() && i < sh.rows && j < sh.cols
    ensures var lane := Owner(i, j, sh);
            && lane.InGrid(sh) && lane.Masked(sh)
            && lane.Address(sh) == CellAddress(i, j, sh)
            && lane.ScaleAddress(sh) == TileAddress(i, j, sh)
  {
    TileOf(i, sh.rows, sh.block);
    TileOf(j, sh.cols, sh.block);
  }

  lemma CellRow(k: nat, rows: nat, cols: nat)
    requires k < rows * cols
    ensures cols > 0 && k / cols < rows && (k / cols) * cols + k % cols == k
  {
    FactorIsPositive(rows, cols, k);
    if rows <= k / cols {
      MulMonotone(rows, k / cols, cols);
    }
  }

  lemma FactorIsPositive(a: nat, b: nat, k: nat)
    requires k < a * b
    ensures a > 0 && b > 0
  {}

  /** The flat address of cell (i, j). */
  function CellAddress(i: nat, j: nat, sh: Shape): (k: nat)
    requires i < sh.rows && j < sh.cols
    ensures k < sh.Cells()
  {
    FlatIndex(i, j, sh.rows, sh.cols);
    i * sh.cols + j
  }

  /** The flat address of the scale of the tile that holds cell (i, j). */
  function TileAddress(i: nat, j: nat, sh: Shape): (p: nat)
    requires sh.Valid() && i < sh.rows && j < sh.cols
    ensures p < sh.Scales()
  {
    TileOf(i, sh.rows, sh.block);
    TileOf(j, sh.cols, sh.block);
    FlatIndex(TileIndex(i, sh.block), TileIndex(j, sh.block), sh.RowTiles(), sh.ColTiles());
    TileIndex(i, sh.block) * sh.ColTiles() + TileIndex(j, sh.block)
  }

  function ScaleIndex(k: nat, sh: Shape): (p: nat)
    requires sh.Valid() && k < sh.Cells()
    ensures p < sh.Scales()
  {
    CellRow(k, sh.rows, sh.cols);
    TileAddress(k / sh.cols, k % sh.cols, sh)
  }

  ghost predicate BuffersMatch(x: seq<real>, s: seq<real>, sh: Shape)
    requires sh.Valid()
  {
    |x| == sh.Cells() && |s| == sh.Scales()
  }

  /** The order-free meaning: each cell times the scale of its tile. */
  function DequantisedCell(x: seq<real>, s: seq<real>, sh: Shape, k: nat): real
    requires sh.Valid() && BuffersMatch(x, s, sh) && k < |x|
  {
    x[k] * s[ScaleIndex(k, sh)]
  }

  function Dequantised(x: seq<real>, s: seq<real>, sh: Shape): (y: seq<real>)
    requires sh.Valid() && BuffersMatch(x, s, sh)
    ensures |y| == |x|
  {
    seq(|x|, k requires 0 <= k < |x| => DequantisedCell(x, s, sh, k))
  }

  lemma LaneComputesCell(x: seq<real>, s: seq<real>, sh: Shape, lane: Lane)
    requires sh.Valid() && BuffersMatch(x, s, sh)
    requires lane.InGrid(sh) && lane.Masked(sh)
    ensures lane.Address(sh) < |x| && lane.ScaleAddress(sh) < |s|
    ensures ScaleIndex(lane.Address(sh), sh) == lane.ScaleAddress(sh)
  {
    AddressInRange(lane, sh);
    AddressParts(lane, sh);
    ScaleOfLane(lane, sh);
    hide TileAddress, Lane.Row, Lane.Col, Lane.Address, Lane.ScaleAddress;
  }

  lemma AddressParts(lane: Lane, sh: Shape)
    requires lane.Masked(sh)
    ensures sh.cols > 0 && lane.Address(sh) / sh.cols == lane.Row(sh) && lane.Address(sh) % sh.cols == lane.Col(sh)
  {
    FlatIndex(lane.Row(sh), lane.Col(sh), sh.rows, sh.cols);
  }

  lemma ScaleOfLane(lane: Lane, sh: Shape)
    requires sh.Valid() && lane.InGrid(sh) && lane.Masked(sh)
    ensures TileAddress(lane.Row(sh), lane.Col(sh), sh) == lane.ScaleAddress(sh)
  {
    InTile(lane.pidM, sh.RowTiles(), lane.a, sh.block);
    InTile(lane.pidN, sh.ColTiles(), lane.b, sh.block);
    hide TileIndex, CeilDiv;
  }

  /** One lane: masked load, scale load, multiply, masked store. */
  method Store(x: seq<real>, s: seq<real>, y: array<real>, sh: Shape, lane: Lane)
    requires sh.Valid() && lane.InGrid(sh)
    requires BuffersMatch(x, s, sh) && y.Length == |x|
    modifies y
    ensures lane.Masked(sh) ==> lane.Address(sh) < y.Length
                                && y[lane.Address(sh)] == DequantisedCell(x, s, sh, lane.Address(sh))
    ensures forall k :: 0 <= k < y.Length && !(lane.Masked(sh) && k == lane.Address(sh)) ==> y[k] == old(y[k])
  {
    AddressInRange(lane, sh);
    if lane.Masked(sh) {
      LaneComputesCell(x, s, sh, lane);
      y[lane.Address(sh)] := x[lane.Address(sh)] * s[lane.ScaleAddress(sh)];
    }
  }

  /** Launch the grid. `schedule` is the order in which the lanes of all programs happen to store: any order, any
      interleaving. The result does not depend on it. */
  method WeightDequant(x: seq<real>, s: seq<real>, sh: Shape, schedule: seq<Lane>) returns (y: array<real>)
    requires sh.Valid() && BuffersMatch(x, s, sh)
    requires forall lane: Lane :: lane in schedule <==> lane.InGrid(sh)
    ensures fresh(y) && y[..] == Dequantised(x, s, sh)
  {
    y := new real[sh.Cells()];
    for n := 0 to |schedule|
      invariant forall m :: 0 <= m < n && schedule[m].Masked(sh) ==>
          schedule[m].Address(sh) < y.Length
          && y[schedule[m].Address(sh)] == DequantisedCell(x, s, sh, schedule[m].Address(sh))
    {
      assert schedule[n] in schedule;
      Store(x, s, y, sh, schedule[n]);
    }
    forall k | 0 <= k < y.Length ensures y[k] == DequantisedCell(x, s, sh, k) {
      CellRow(k, sh.rows, sh.cols);
      Covered(k / sh.cols, k % sh.cols, sh);
      var lane := Owner(k / sh.cols, k % sh.cols, sh);
      assert lane in schedule;
      var m :| 0 <= m < |schedule| && schedule[m] == lane;
      assert schedule[m].Address(sh) == k;
    }
    assert y[..] == Dequantised(x, s, sh);
  }
}
