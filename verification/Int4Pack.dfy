/** Packing narrow integers into 32-bit words: the direct HF to INT4 converter. */
module Int4Pack {
  import opened Arithmetic
  import opened Wrappers

  /** A dense matrix: `at` holds `rows` rows of `cols` values. */
  datatype Matrix = Matrix(rows: nat, cols: nat, at: seq<seq<int>>) {
    predicate Valid() {
      && |at| == rows
      && forall r :: 0 <= r < rows ==> |at[r]| == cols
    }

    function Transpose(): (t: Matrix)
      requires Valid()
      ensures t.Valid()
    {
      Matrix(cols, rows, seq(cols, c requires 0 <= c < cols => seq(rows, r requires 0 <= r < rows => at[r][c])))
    }
  }

  lemma TransposeTwice(m: Matrix)
    requires m.Valid()
    ensures m.Transpose().Transpose() == m
  {
    var t := m.Transpose().Transpose();
    forall r | 0 <= r < m.rows ensures t.at[r] == m.at[r] {
      assert forall c :: 0 <= c < m.cols ==> t.at[r][c] == m.at[r][c];
    }
    assert t.at == m.at;
  }

  // ---- machine integers ----

  const TWO32: int := 0x1_0000_0000
  const TWO31: int := 0x8000_0000

  function WrapInt32(x: int): (w: int)
    ensures -TWO31 <= w < TWO31
  {
    (x + TWO31) % TWO32 - TWO31
  }

  function WrapInt8(x: int): int {
    (x + 128) % 256 - 128
  }

  function WrapUint8(x: int): int {
    x % 256
  }

  /** Wrapping keeps the residue and lands in the range of the type. */
  lemma WrapsBytes(x: int)
    ensures -128 <= WrapInt8(x) < 128 && (x - WrapInt8(x)) % 256 == 0
    ensures 0 <= WrapUint8(x) < 256 && (x - WrapUint8(x)) % 256 == 0
  {}

  function ShiftLeft32(x: int, k: nat): int {
    WrapInt32(x * Pow2(k))
  }

  /** Summation in int32: the accumulator wraps after every addition. */
  function SumInt32(terms: seq<int>): int {
    if terms == [] then 0 else WrapInt32(SumInt32(terms[..|terms| - 1]) + terms[|terms| - 1])
  }

  lemma WrapAbsorbs(a: int, b: int)
    ensures WrapInt32(a + WrapInt32(b)) == WrapInt32(a + b)
  {
    var q := (b + TWO31) / TWO32;
    assert WrapInt32(b) == b - q * TWO32;
    DivModAddMultiple(a + b + TWO31, -q, TWO32);
  }

  lemma WrapAddsMultiple(x: int) returns (k: int)
    ensures WrapInt32(x) == x + k * Pow2(32)
  {
    TwoTo32();
    hide Pow2;
    k := -((x + TWO31) / TWO32);
  }

  lemma TwoTo32()
    ensures TWO32 == Pow2(32)
  {
    assert Pow2(8) == 256;
    Pow2Add(16, 16);
    Pow2Add(8, 8);
  }

  // ---- one word ----

  /** Lane i of the word is `bits` wide and starts at bit i * bits. */
  function PackLanes(lanes: seq<int>, bits: nat): int {
    SumInt32(seq(|lanes|, i requires 0 <= i < |lanes| => ShiftLeft32(lanes[i], i * bits)))
  }

  /** The lanes read as the digits of an unbounded number in base 2^bits, least significant first. */
  function Digits(lanes: seq<int>, bits: nat): int {
    if lanes == [] then 0
    else Digits(lanes[..|lanes| - 1], bits) + lanes[|lanes| - 1] * Pow2((|lanes| - 1) * bits)
  }

  predicate LanesFit(lanes: seq<int>, bits: nat) {
    forall i :: 0 <= i < |lanes| ==> 0 <= lanes[i] < Pow2(bits)
  }

  /** Arithmetic shift right, then mask: lane `lane` of a signed 32-bit word. */
  function Extract(word: int, lane: nat, bits: nat): int {
    FloorDiv(word, Pow2(lane * bits)) % Pow2(bits)
  }

  /** Every wrap-around along the way amounts to one wrap of the whole number. */
  lemma {:induction false} PackIsWrappedDigits(lanes: seq<int>, bits: nat)
    ensures PackLanes(lanes, bits) == WrapInt32(Digits(lanes, bits))
    decreases |lanes|
  {
    var terms := seq(|lanes|, i requires 0 <= i < |lanes| => ShiftLeft32(lanes[i], i * bits));
    if lanes != [] {
      var init := lanes[..|lanes| - 1];
      PackIsWrappedDigits(init, bits);
      assert terms[..|lanes| - 1] == seq(|init|, i requires 0 <= i < |init| => ShiftLeft32(init[i], i * bits));
      var last := lanes[|lanes| - 1] * Pow2((|lanes| - 1) * bits);
      WrapAbsorbs(WrapInt32(Digits(init, bits)), last);
      WrapAbsorbs(last, Digits(init, bits));
    }
  }

  lemma NextWeight(n: nat, bits: nat)
    ensures Pow2((n + 1) * bits) == Pow2(n * bits) * Pow2(bits)
  {
    Pow2Add(n * bits, bits);
    assert (n + 1) * bits == n * bits + bits;
  }

  lemma {:induction false} DigitsBound(lanes: seq<int>, bits: nat)
    requires LanesFit(lanes, bits)
    ensures 0 <= Digits(lanes, bits) < Pow2(|lanes| * bits)
    decreases |lanes|
  {
    if lanes != [] {
      var n := |lanes| - 1;
      var p := Pow2(n * bits);
      DigitsBound(lanes[..n], bits);
      NextWeight(n, bits);
      DigitAbove(Digits(lanes[..n], bits), lanes[n], p, Pow2(bits));
    }
  }

  lemma HigherMultiple(x: int, k: int, p: int, b: int, gap: int)
    requires p > 0 && b > 0
    ensures ((x + k * ((p * b) * gap)) / p) % b == (x / p) % b
  {
    var m := k * gap;
    assert k * ((p * b) * gap) == (m * b) * p;
    DivModAddMultiple(x, m * b, p);
    DivModAddMultiple(x / p, m, b);
  }

  /** Adding a multiple of a weight above a lane does not disturb that lane. */
  lemma ExtractIgnoresHigher(x: int, k: int, lane: nat, above: nat, bits: nat)
    requires (lane + 1) * bits <= above
    ensures Extract(x + k * Pow2(above), lane, bits) == Extract(x, lane, bits)
  {
    var gap: nat := above - (lane + 1) * bits;
    Pow2Add((lane + 1) * bits, gap);
    NextWeight(lane, bits);
    HigherMultiple(x, k, Pow2(lane * bits), Pow2(bits), Pow2(gap));
  }

  lemma {:induction false} ExtractDigit(lanes: seq<int>, lane: nat, bits: nat)
    requires LanesFit(lanes, bits) && lane < |lanes|
    ensures Extract(Digits(lanes, bits), lane, bits) == lanes[lane]
    decreases |lanes|
  {
    var n := |lanes| - 1;
    var lower := Digits(lanes[..n], bits);
    if lane == n {
      DigitsBound(lanes[..n], bits);
      DivModUnique(Digits(lanes, bits), Pow2(n * bits), lanes[n], lower);
      DivModUnique(lanes[n], Pow2(bits), 0, lanes[n]);
    } else {
      ExtractDigit(lanes[..n], lane, bits);
      MulMonotone(lane + 1, n, bits);
      ExtractIgnoresHigher(lower, lanes[n], lane, n * bits, bits);
    }
  }

  /** A lane survives packing, including in words whose sign bit ends up set. */
  lemma ExtractPacked(lanes: seq<int>, lane: nat, bits: nat)
    requires LanesFit(lanes, bits) && lane < |lanes| && |lanes| * bits <= 32
    ensures Extract(PackLanes(lanes, bits), lane, bits) == lanes[lane]
  {
    hide Digits, PackLanes, Extract, LanesFit, WrapInt32;
    PackIsWrappedDigits(lanes, bits);
    ExtractDigit(lanes, lane, bits);
    var k := WrapAddsMultiple(Digits(lanes, bits));
    MulMonotone(lane + 1, |lanes|, bits);
    ExtractIgnoresHigher(Digits(lanes, bits), k, lane, 32, bits);
  }

  // ---- rows ----

  function PackFactor(bits: nat): (f: nat)
    requires 1 <= bits <= 8
    ensures 4 <= f <= 32 && f * bits <= 32
  {
    32 / bits
  }

  function PadRow(row: seq<int>, bits: nat): (padded: seq<int>)
    requires 1 <= bits <= 8
    ensures |padded| == PackFactor(bits) * CeilDiv(|row|, PackFactor(bits))
    ensures padded[..|row|] == row
    ensures forall i :: |row| <= i < |padded| ==> padded[i] == 0
  {
    var f := PackFactor(bits);
    CeilDivBounds(|row|, f);
    row + seq(f * CeilDiv(|row|, f) - |row|, _ => 0)
  }

  function Group(padded: seq<int>, g: nat, factor: nat): (lanes: seq<int>)
    requires (g + 1) * factor <= |padded|
    ensures |lanes| == factor
  {
    padded[g * factor..(g + 1) * factor]
  }

  lemma GroupInRange(g: nat, groups: nat, factor: nat)
    requires g < groups
    ensures (g + 1) * factor <= factor * groups
  {
    MulMonotone(g + 1, groups, factor);
  }

  function PackRow(row: seq<int>, bits: nat): (words: seq<int>)
    requires 1 <= bits <= 8
    ensures |words| == CeilDiv(|row|, PackFactor(bits))
  {
    var f := PackFactor(bits);
    var padded := PadRow(row, bits);
    var groups := CeilDiv(|row|, f);
    seq(groups, g requires 0 <= g < groups => GroupInRange(g, groups, f); PackLanes(Group(padded, g, f), bits))
  }

  function UnpackRow(words: seq<int>, bits: nat, cols: nat): (row: seq<int>)
    requires 1 <= bits <= 8 && |words| == CeilDiv(cols, PackFactor(bits))
    ensures |row| == cols
  {
    var f := PackFactor(bits);
    seq(cols, c requires 0 <= c < cols => TileOf(c, cols, f); Extract(words[c / f], c % f, bits))
  }

  predicate RowFits(row: seq<int>, bits: nat) {
    LanesFit(row, bits)
  }

  lemma GroupFits(padded: seq<int>, g: nat, factor: nat, bits: nat)
    requires (g + 1) * factor <= |padded| && RowFits(padded, bits)
    ensures LanesFit(Group(padded, g, factor), bits)
  {
    var lanes := Group(padded, g, factor);
    forall i | 0 <= i < |lanes| ensures 0 <= lanes[i] < Pow2(bits) {
      assert lanes[i] == padded[g * factor + i];
    }
  }

  lemma PaddedFits(row: seq<int>, bits: nat)
    requires 1 <= bits <= 8 && RowFits(row, bits)
    ensures RowFits(PadRow(row, bits), bits)
  {
    var padded := PadRow(row, bits);
    forall i | 0 <= i < |padded| ensures 0 <= padded[i] < Pow2(bits) {
      if i < |row| {
        assert padded[i] == padded[..|row|][i];
      }
    }
  }

  lemma GroupAt(padded: seq<int>, g: nat, factor: nat, i: nat, c: nat)
    requires (g + 1) * factor <= |padded| && i < factor && g * factor + i == c < |padded|
    ensures Group(padded, g, factor)[i] == padded[c]
  {}

  lemma PackedColumn(row: seq<int>, bits: nat, c: nat)
    requires 1 <= bits <= 8 && RowFits(row, bits) && c < |row|
    ensures UnpackRow(PackRow(row, bits), bits, |row|)[c] == row[c]
  {
    var f := PackFactor(bits);
    var padded := PadRow(row, bits);
    var words := PackRow(row, bits);
    TileOf(c, |row|, f);
    var g := c / f;
    GroupInRange(g, |words|, f);
    PaddedFits(row, bits);
    GroupFits(padded, g, f, bits);
    ExtractPacked(Group(padded, g, f), c % f, bits);
    GroupAt(padded, g, f, c % f, c);
    assert padded[c] == padded[..|row|][c];
  }

  /** Packing a row and reading its lanes back gives the row, whatever padding the last word needed. */
  lemma PackRowRoundTrip(row: seq<int>, bits: nat)
    requires 1 <= bits <= 8 && RowFits(row, bits)
    ensures UnpackRow(PackRow(row, bits), bits, |row|) == row
  {
    forall c | 0 <= c < |row| ensures UnpackRow(PackRow(row, bits), bits, |row|)[c] == row[c] {
      PackedColumn(row, bits, c);
    }
  }

  // ---- the packing routine ----

  function Offset(bits: nat): int
    requires bits >= 1
  {
    Pow2(bits - 1)
  }

  /** Signed values move to the unsigned range: an int8 addition followed by a uint8 cast. */
  function ToUnsigned(value: int, bits: nat): int
    requires bits >= 1
  {
    WrapUint8(WrapInt8(value + Offset(bits)))
  }

  function Shifted(row: seq<int>, bits: nat, sym: bool): (out: seq<int>)
    requires bits >= 1
    ensures |out| == |row|
  {
    if sym then seq(|row|, i requires 0 <= i < |row| => ToUnsigned(row[i], bits)) else row
  }

  function Unshifted(lanes: seq<int>, bits: nat, sym: bool): (out: seq<int>)
    requires bits >= 1
    ensures |out| == |lanes|
  {
    if sym then seq(|lanes|, i requires 0 <= i < |lanes| => lanes[i] - Offset(bits)) else lanes
  }

  function PackToInt32(value: Matrix, bits: int, packedDim: int, sym: bool): (r: Result<Matrix>)
    requires value.Valid()
    ensures r.Success? <==> 1 <= bits <= 8
    ensures r.Success? ==> r.value.Valid()
  {
    if bits > 8 then Failure("Packing is only supported for less than 8 bits")
    else if bits < 1 then Failure("num_bits must be at least 1")
    else
      var v := if packedDim == 0 then value.Transpose() else value;
      var packed := Matrix(v.rows, CeilDiv(v.cols, PackFactor(bits)),
                           seq(v.rows, r requires 0 <= r < v.rows => PackRow(Shifted(v.at[r], bits, sym), bits)));
      Success(if packedDim == 0 then packed.Transpose() else packed)
  }

  /** The reader's side: extract the lanes of every row and undo the signed offset. */
  function UnpackFromInt32(packed: Matrix, bits: nat, packedDim: int, sym: bool, rows: nat, cols: nat): (m: Matrix)
    requires packed.Valid() && 1 <= bits <= 8
    requires packedDim == 0 ==> packed.cols == cols && packed.rows == CeilDiv(rows, PackFactor(bits))
    requires packedDim != 0 ==> packed.rows == rows && packed.cols == CeilDiv(cols, PackFactor(bits))
    ensures m.Valid()
  {
    var p := if packedDim == 0 then packed.Transpose() else packed;
    var n := if packedDim == 0 then rows else cols;
    var flat := Matrix(p.rows, n,
                       seq(p.rows, r requires 0 <= r < p.rows => Unshifted(UnpackRow(p.at[r], bits, n), bits, sym)));
    if packedDim == 0 then flat.Transpose() else flat
  }

  /** The values the quantiser produces at this width. */
  predicate InRange(x: int, bits: nat, sym: bool)
    requires bits >= 1
  {
    if sym then -Offset(bits) <= x < Offset(bits) else 0 <= x < Pow2(bits)
  }

  ghost predicate MatrixInRange(m: Matrix, bits: nat, sym: bool)
    requires m.Valid() && bits >= 1
  {
    forall r, c :: 0 <= r < m.rows && 0 <= c < m.cols ==> InRange(m.at[r][c], bits, sym)
  }

  lemma OffsetBound(bits: nat)
    requires 1 <= bits <= 8
    ensures 1 <= Offset(bits) <= 128 && Pow2(bits) == 2 * Offset(bits)
  {
    Pow2Monotone(bits - 1, 7);
    assert Pow2(7) == 128;
  }

  /** The int8 addition may overflow, and the uint8 cast repairs it. */
  lemma CastsRepairOverflow(x: int, offset: int)
    requires 1 <= offset <= 128 && -offset <= x < offset
    ensures WrapUint8(WrapInt8(x + offset)) == x + offset
  {}

  lemma UnsignedIsOffset(x: int, bits: nat)
    requires 1 <= bits <= 8 && InRange(x, bits, true)
    ensures ToUnsigned(x, bits) == x + Offset(bits)
    ensures 0 <= ToUnsigned(x, bits) < Pow2(bits)
  {
    OffsetBound(bits);
    CastsRepairOverflow(x, Offset(bits));
  }

  lemma ShiftedFits(row: seq<int>, bits: nat, sym: bool)
    requires 1 <= bits <= 8 && forall i :: 0 <= i < |row| ==> InRange(row[i], bits, sym)
    ensures RowFits(Shifted(row, bits, sym), bits)
    ensures Unshifted(Shifted(row, bits, sym), bits, sym) == row
  {
    if sym {
      forall i | 0 <= i < |row| ensures Shifted(row, bits, sym)[i] == row[i] + Offset(bits)
                                ensures 0 <= Shifted(row, bits, sym)[i] < Pow2(bits) {
        UnsignedIsOffset(row[i], bits);
      }
    }
  }

  lemma PackRowsRoundTrip(value: Matrix, bits: nat, sym: bool)
    requires value.Valid() && 1 <= bits <= 8 && MatrixInRange(value, bits, sym)
    ensures UnpackFromInt32(PackToInt32(value, bits, 1, sym).value, bits, 1, sym, value.rows, value.cols) == value
  {
    hide PackRow, UnpackRow, Shifted, Unshifted, InRange, RowFits, CeilDiv;
    var packed := PackToInt32(value, bits, 1, sym).value;
    var back := UnpackFromInt32(packed, bits, 1, sym, value.rows, value.cols);
    forall r | 0 <= r < value.rows ensures back.at[r] == value.at[r] {
      var row := value.at[r];
      assert forall i :: 0 <= i < |row| ==> InRange(value.at[r][i], bits, sym);
      ShiftedFits(row, bits, sym);
      PackRowRoundTrip(Shifted(row, bits, sym), bits);
      assert packed.at[r] == PackRow(Shifted(row, bits, sym), bits);
    }
    assert back.at == value.at;
  }

  /** Packing then lane extraction is the identity at every width, along either dimension, signed or not. */
  lemma PackRoundTrip(value: Matrix, bits: nat, packedDim: int, sym: bool)
    requires value.Valid() && 1 <= bits <= 8 && MatrixInRange(value, bits, sym)
    ensures PackToInt32(value, bits, packedDim, sym).Success?
    ensures var packed := PackToInt32(value, bits, packedDim, sym).value;
            UnpackFromInt32(packed, bits, packedDim, sym, value.rows, value.cols) == value
  {
    if packedDim == 0 {
      var t := value.Transpose();
      assert MatrixInRange(t, bits, sym);
      PackRowsRoundTrip(t, bits, sym);
      TransposeTwice(value);
      var inner := PackToInt32(t, bits, 1, sym).value;
      TransposeTwice(inner);
      assert PackToInt32(value, bits, 0, sym).value == inner.Transpose();
    } else {
      PackRowsRoundTrip(value, bits, sym);
    }
  }

  // ---- where each value is ----

  /** Bits `lane * bits` and on of a word, as many as `bits`, read as an unsigned number. */
  predicate HoldsInLane(word: int, lane: nat, bits: nat, x: int) {
    (word / Pow2(lane * bits)) % Pow2(bits) == x
  }

  lemma LaneIsExtract(word: int, lane: nat, bits: nat)
    ensures HoldsInLane(word, lane, bits, Extract(word, lane, bits))
  {}

  lemma FactorIs(bits: nat)
    requires 1 <= bits <= 8
    ensures PackFactor(bits) == 32 / bits
  {}

  /** The value at `g * factor + k` of a row is lane `k` of word `g`. */
  lemma RowLane(row: seq<int>, bits: nat, factor: nat, g: nat, k: nat, c: nat)
    requires 1 <= bits <= 8 && RowFits(row, bits) && factor == PackFactor(bits) && k < factor && c == g * factor + k < |row|
    ensures g < |PackRow(row, bits)| && HoldsInLane(PackRow(row, bits)[g], k, bits, row[c])
  {
    var padded, words := PadRow(row, bits), |PackRow(row, bits)|;
    WordOf(|row|, factor, words, g, k);
    GroupInRange(g, words, factor);
    PaddedFits(row, bits);
    assert padded[c] == padded[..|row|][c];
    hide PadRow, HoldsInLane, RowFits, PackFactor;
    GroupFits(padded, g, factor, bits);
    ExtractPacked(Group(padded, g, factor), k, bits);
    GroupAt(padded, g, factor, k, c);
    LaneIsExtract(PackRow(row, bits)[g], k, bits);
  }

  lemma WordOf(n: nat, factor: nat, words: nat, g: nat, k: nat)
    requires factor > 0 && words == CeilDiv(n, factor) && k < factor && g * factor + k < n
    ensures g < words
  {
    CeilDivBounds(n, factor);
    if words <= g {
      MulMonotone(words, g, factor);
    }
  }

  /** Shape of the packed words: `32 / bits` values to a word, the last one padded. */
  lemma PackedShape(value: Matrix, bits: nat, packedDim: int, sym: bool, factor: nat)
    requires value.Valid() && 1 <= bits <= 8 && factor == 32 / bits
    ensures PackToInt32(value, bits, packedDim, sym).Success?
    ensures var packed := PackToInt32(value, bits, packedDim, sym).value;
            && (packedDim == 0 ==> packed.cols == value.cols && (packed.rows - 1) * factor < value.rows <= packed.rows * factor)
            && (packedDim != 0 ==> packed.rows == value.rows && (packed.cols - 1) * factor < value.cols <= packed.cols * factor)
  {
    hide *;
    FactorIs(bits);
    PackedDims(value, bits, packedDim, sym);
    WordsNeeded(value.rows, factor);
    WordsNeeded(value.cols, factor);
  }

  lemma WordsNeeded(n: nat, factor: nat)
    requires factor > 0
    ensures (CeilDiv(n, factor) - 1) * factor < n <= CeilDiv(n, factor) * factor
  {
    CeilDivBounds(n, factor);
    hide CeilDiv;
  }

  lemma PackedDims(value: Matrix, bits: nat, packedDim: int, sym: bool)
    requires value.Valid() && 1 <= bits <= 8
    ensures PackToInt32(value, bits, packedDim, sym).Success?
    ensures var packed := PackToInt32(value, bits, packedDim, sym).value;
            if packedDim == 0 then packed.cols == value.cols && packed.rows == CeilDiv(value.rows, PackFactor(bits))
            else packed.rows == value.rows && packed.cols == CeilDiv(value.cols, PackFactor(bits))
  {
    hide PackRow, Shifted, CeilDiv, PackFactor;
  }

  /** Where each value is, `32 / bits` of them to a word: along the packed dimension, the value at `g * (32 / bits) + k` is
      lane `k` of word `g`, from the lowest bits up, a signed one moved up by half the range. */
  lemma PackedWords(value: Matrix, bits: nat, packedDim: int, sym: bool, factor: nat, r: nat, c: nat, g: nat, k: nat)
    requires value.Valid() && 1 <= bits <= 8 && factor == 32 / bits && k < factor && r < value.rows && c < value.cols
    requires forall i, j :: 0 <= i < value.rows && 0 <= j < value.cols ==>
               if sym then -(Pow2(bits - 1) as int) <= value.at[i][j] < Pow2(bits - 1) else 0 <= value.at[i][j] < Pow2(bits)
    requires (if packedDim == 0 then r else c) == g * factor + k
    ensures var packed := PackToInt32(value, bits, packedDim, sym).value;
            var (i, j) := if packedDim == 0 then (g, c) else (r, g);
            && i < packed.rows && j < packed.cols
            && HoldsInLane(packed.at[i][j], k, bits, value.at[r][c] + if sym then Pow2(bits - 1) else 0)
  {
    hide *;
    FactorIs(bits);
    LineInRange(value, bits, packedDim, sym, r, c);
    ShiftedLane(LineOf(value, packedDim, r, c), bits, sym, factor, g, k, if packedDim == 0 then r else c);
    WordOfLine(value, bits, packedDim, sym, r, c, g);
  }

  lemma LineInRange(value: Matrix, bits: nat, packedDim: int, sym: bool, r: nat, c: nat)
    requires value.Valid() && 1 <= bits <= 8 && r < value.rows && c < value.cols
    requires forall i, j :: 0 <= i < value.rows && 0 <= j < value.cols ==>
               if sym then -(Pow2(bits - 1) as int) <= value.at[i][j] < Pow2(bits - 1) else 0 <= value.at[i][j] < Pow2(bits)
    ensures var line := LineOf(value, packedDim, r, c); forall i :: 0 <= i < |line| ==> InRange(line[i], bits, sym)
  {
    hide Pow2, LineOf;
  }

  /** The row, or for the first dimension the column, that is packed into one line of words. */
  function LineOf(value: Matrix, packedDim: int, r: nat, c: nat): (line: seq<int>)
    requires value.Valid() && r < value.rows && c < value.cols
    ensures |line| == if packedDim == 0 then value.rows else value.cols
    ensures forall i :: 0 <= i < |line| ==> line[i] == if packedDim == 0 then value.at[i][c] else value.at[r][i]
  {
    if packedDim == 0 then value.Transpose().at[c] else value.at[r]
  }

  lemma WordOfLine(value: Matrix, bits: nat, packedDim: int, sym: bool, r: nat, c: nat, g: nat)
    requires value.Valid() && 1 <= bits <= 8 && r < value.rows && c < value.cols
    requires g < |PackRow(Shifted(LineOf(value, packedDim, r, c), bits, sym), bits)|
    ensures var packed := PackToInt32(value, bits, packedDim, sym).value;
            var (i, j) := if packedDim == 0 then (g, c) else (r, g);
            && i < packed.rows && j < packed.cols
            && packed.at[i][j] == PackRow(Shifted(LineOf(value, packedDim, r, c), bits, sym), bits)[g]
  {
    hide PackRow, Shifted, PackFactor, CeilDiv;
  }

  lemma ShiftedLane(row: seq<int>, bits: nat, sym: bool, factor: nat, g: nat, k: nat, c: nat)
    requires 1 <= bits <= 8 && factor == PackFactor(bits) && k < factor && c == g * factor + k < |row|
    requires forall i :: 0 <= i < |row| ==> InRange(row[i], bits, sym)
    ensures var words := PackRow(Shifted(row, bits, sym), bits);
            g < |words| && HoldsInLane(words[g], k, bits, row[c] + if sym then Pow2(bits - 1) else 0)
  {
    hide HoldsInLane, PackRow, PackFactor;
    ShiftedFits(row, bits, sym);
    RowLane(Shifted(row, bits, sym), bits, factor, g, k, c);
    if sym {
      UnsignedIsOffset(row[c], bits);
    }
  }

  /** Two different matrices never pack to the same words. */
  lemma PackIsInjective(a: Matrix, b: Matrix, bits: nat, packedDim: int, sym: bool)
    requires a.Valid() && b.Valid() && a.rows == b.rows && a.cols == b.cols && 1 <= bits <= 8
    requires MatrixInRange(a, bits, sym) && MatrixInRange(b, bits, sym)
    requires PackToInt32(a, bits, packedDim, sym) == PackToInt32(b, bits, packedDim, sym)
    ensures a == b
  {
    PackRoundTrip(a, bits, packedDim, sym);
    PackRoundTrip(b, bits, packedDim, sym);
  }

  // ---- zero points ----

  /** The lane that zero point i of a group of eight goes to. */
  const LANE_ORDER: seq<nat> := [0, 4, 1, 5, 2, 6, 3, 7]

  /** Shift in int32, sum in int64, cast back to int32. */
  function PackZeroPoints(zeros: seq<int>): int
    requires |zeros| == 8
  {
    WrapInt32(ShiftLeft32(zeros[0], LANE_ORDER[0] * 4) + ShiftLeft32(zeros[1], LANE_ORDER[1] * 4)
              + ShiftLeft32(zeros[2], LANE_ORDER[2] * 4) + ShiftLeft32(zeros[3], LANE_ORDER[3] * 4)
              + ShiftLeft32(zeros[4], LANE_ORDER[4] * 4) + ShiftLeft32(zeros[5], LANE_ORDER[5] * 4)
              + ShiftLeft32(zeros[6], LANE_ORDER[6] * 4) + ShiftLeft32(zeros[7], LANE_ORDER[7] * 4))
  }

  lemma WrapOfShift(x: int, z: int, k: nat)
    ensures WrapInt32(x + ShiftLeft32(z, k)) == WrapInt32(x + z * Pow2(k))
  {
    WrapAbsorbs(x, z * Pow2(k));
  }

  /** The interleaved order packs the same word as packing the even positions, then the odd ones. */
  lemma ZeroPointsAreInterleavedLanes(z: seq<int>)
    requires |z| == 8
    ensures PackZeroPoints(z) == PackLanes([z[0], z[2], z[4], z[6], z[1], z[3], z[5], z[7]], 4)
  {
    hide Pow2, Digits, PackLanes, ShiftLeft32, WrapInt32;
    var lanes := [z[0], z[2], z[4], z[6], z[1], z[3], z[5], z[7]];
    PackIsWrappedDigits(lanes, 4);
    assert Digits(lanes, 4) == z[0] * Pow2(0) + z[2] * Pow2(4) + z[4] * Pow2(8) + z[6] * Pow2(12)
                               + z[1] * Pow2(16) + z[3] * Pow2(20) + z[5] * Pow2(24) + z[7] * Pow2(28) by {
      DigitsOfEight(lanes);
    }
    var s := k requires 0 <= k < 8 => ShiftLeft32(z[k], LANE_ORDER[k] * 4);
    WrapOfShift(s(0) + s(1) + s(2) + s(3) + s(4) + s(5) + s(6), z[7], 28);
    WrapOfShift(s(0) + s(1) + s(2) + s(3) + s(4) + s(5) + z[7] * Pow2(28), z[6], 12);
    WrapOfShift(s(0) + s(1) + s(2) + s(3) + s(4) + z[7] * Pow2(28) + z[6] * Pow2(12), z[5], 24);
    WrapOfShift(s(0) + s(1) + s(2) + s(3) + z[7] * Pow2(28) + z[6] * Pow2(12) + z[5] * Pow2(24), z[4], 8);
    WrapOfShift(s(0) + s(1) + s(2) + z[7] * Pow2(28) + z[6] * Pow2(12) + z[5] * Pow2(24) + z[4] * Pow2(8), z[3], 20);
    var hi := z[7] * Pow2(28) + z[6] * Pow2(12) + z[5] * Pow2(24) + z[4] * Pow2(8) + z[3] * Pow2(20);
    WrapOfShift(s(0) + s(1) + hi, z[2], 4);
    WrapOfShift(s(0) + hi + z[2] * Pow2(4), z[1], 16);
    WrapOfShift(hi + z[2] * Pow2(4) + z[1] * Pow2(16), z[0], 0);
  }

  lemma DigitsOfEight(l: seq<int>)
    requires |l| == 8
    ensures Digits(l, 4) == l[0] * Pow2(0) + l[1] * Pow2(4) + l[2] * Pow2(8) + l[3] * Pow2(12)
                            + l[4] * Pow2(16) + l[5] * Pow2(20) + l[6] * Pow2(24) + l[7] * Pow2(28)
  {
    hide Pow2;
    assert l[..7][..6] == l[..6] && l[..6][..5] == l[..5] && l[..5][..4] == l[..4];
    assert l[..4][..3] == l[..3] && l[..3][..2] == l[..2] && l[..2][..1] == l[..1] && l[..1][..0] == [];
    assert Digits(l[..1], 4) == l[0] * Pow2(0);
    assert Digits(l[..2], 4) == Digits(l[..1], 4) + l[1] * Pow2(4);
    assert Digits(l[..3], 4) == Digits(l[..2], 4) + l[2] * Pow2(8);
    assert Digits(l[..4], 4) == Digits(l[..3], 4) + l[3] * Pow2(12);
    assert Digits(l[..5], 4) == Digits(l[..4], 4) + l[4] * Pow2(16);
    assert Digits(l[..6], 4) == Digits(l[..5], 4) + l[5] * Pow2(20);
    assert Digits(l[..7], 4) == Digits(l[..6], 4) + l[6] * Pow2(24);
  }

  /** Every zero point can be read back from its lane, so the packing is injective. */
  lemma ZeroPointRoundTrip(z: seq<int>, i: nat)
    requires |z| == 8 && i < 8 && LanesFit(z, 4)
    ensures Extract(PackZeroPoints(z), LANE_ORDER[i], 4) == z[i]
  {
    ZeroPointsAreInterleavedLanes(z);
    var lanes := [z[0], z[2], z[4], z[6], z[1], z[3], z[5], z[7]];
    assert lanes[LANE_ORDER[i]] == z[i];
    ExtractPacked(lanes, LANE_ORDER[i], 4);
  }

  /** Zero points arrive as one row per weight row and one column per group; the output has one row per group and
      packs eight consecutive weight rows into a word. */
  function PackZeroPointMatrix(zp: Matrix): (r: Result<Matrix>)
    requires zp.Valid()
    ensures r.Success? <==> zp.rows % 8 == 0
    ensures r.Success? ==> r.value.Valid() && r.value.rows == zp.cols && r.value.cols * 8 == zp.rows
  {
    if zp.rows % 8 != 0 then Failure("shape is invalid for the reshape")
    else
      var t := zp.Transpose();
      Success(Matrix(zp.cols, zp.rows / 8,
                     seq(zp.cols, g requires 0 <= g < zp.cols =>
                       seq(zp.rows / 8, b requires 0 <= b < zp.rows / 8 =>
                         PackZeroPoints(t.at[g][8 * b..8 * b + 8])))))
  }

  /** Each weight row's zero point sits alone in its own lane, and no two rows of a word share a lane. */
  lemma ZeroPointMatrixRoundTrip(zp: Matrix, row: nat, group: nat)
    requires zp.Valid() && zp.rows % 8 == 0 && row < zp.rows && group < zp.cols
    requires forall r, g :: 0 <= r < zp.rows && 0 <= g < zp.cols ==> 0 <= zp.at[r][g] < 16
    ensures Extract(PackZeroPointMatrix(zp).value.at[group][row / 8], LANE_ORDER[row % 8], 4) == zp.at[row][group]
    ensures forall i, j :: 0 <= i < 8 && 0 <= j < 8 && i != j ==> LANE_ORDER[i] != LANE_ORDER[j]
  {
    hide PackZeroPoints, Extract;
    var b := row / 8;
    var eight := zp.Transpose().at[group][8 * b..8 * b + 8];
    assert Pow2(4) == 16;
    forall i | 0 <= i < 8 ensures 0 <= eight[i] < Pow2(4) {
      assert eight[i] == zp.at[8 * b + i][group];
    }
    ZeroPointRoundTrip(eight, row % 8);
    assert eight[row % 8] == zp.at[row][group];
  }
}
