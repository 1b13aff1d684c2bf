/** Source scales of a block-FP8 checkpoint re-used as MXFP8 group scales. */
module Mxfp8Scale {
  import opened Arithmetic
  import opened Matrices
  import opened Wrappers

  const SOURCE_BLOCK: int := 128
  const TARGET_GROUP: int := 32

  // ---- binary32 and E8M0 (IEEE 754-2019 section 3.4; OCP Microscaling Formats v1.0 section 5.4.1) ----

  const MANTISSA_SPAN: int := 0x80_0000      // 2^23

  /** A 32-bit pattern read as a signed integer. */
  newtype Bits32 = x: int | -0x8000_0000 <= x < 0x8000_0000

  function Mantissa(b: Bits32): (m: int) ensures 0 <= m < MANTISSA_SPAN { b as int % MANTISSA_SPAN }

  /** `(bits >> 23) & 0xFF`. */
  function ExponentField(b: Bits32): (e: int) ensures 0 <= e < 256 { (b as int / MANTISSA_SPAN) % 256 }

  predicate Negative(b: Bits32) { b < 0 }

  datatype Value = Finite(r: real) | Infinite(negative: bool) | NotANumber

  function Binary32Value(b: Bits32): Value {
    var e, m := ExponentField(b), Mantissa(b);
    var sign := if Negative(b) then -1.0 else 1.0;
    if e == 255 then (if m == 0 then Infinite(Negative(b)) else NotANumber)
    else if e == 0 then Finite(sign * (m as real * Exp2(-149)))
    else Finite(sign * ((MANTISSA_SPAN + m) as real * Exp2(e - 150)))
  }

  function E8M0Value(code: int): Value
    requires 0 <= code < 256
  {
    if code == 255 then NotANumber else Finite(Exp2(code - 127))
  }

  /** `code << 23` viewed as binary32. */
  function CodeToBinary32(code: int): Bits32
    requires 0 <= code < 256
  {
    (code * MANTISSA_SPAN) as Bits32
  }

  /** The exponent byte of a scale, available when the scale is a non-negative pattern with an empty mantissa. */
  predicate IsPowerOfTwoPattern(b: Bits32) { Mantissa(b) == 0 && !Negative(b) }

  lemma CodeFields(code: int)
    requires 0 <= code < 256
    ensures ExponentField(CodeToBinary32(code)) == code
    ensures IsPowerOfTwoPattern(CodeToBinary32(code))
  {
    DivModUnique(code * MANTISSA_SPAN, MANTISSA_SPAN, code, 0);
  }

  /** Writing the exponent byte and reading it back are inverse on the patterns the converter accepts. */
  lemma PatternRoundTrip(b: Bits32)
    requires IsPowerOfTwoPattern(b)
    ensures CodeToBinary32(ExponentField(b)) == b
  {
    assert 0 <= b as int / MANTISSA_SPAN < 256;
  }

  lemma SpanIsExp2()
    ensures MANTISSA_SPAN as real == Exp2(23)
  {
    assert Pow2(23) == 0x80_0000 by {
      assert Pow2(8) == 256 && Pow2(7) == 128;
      Pow2Add(8, 8);
      Pow2Add(16, 7);
    }
    Exp2IsPow2(23);
  }

  /** The distance from a finite pattern to the next one: it doubles with the exponent, and is least below the normal numbers. */
  function UnitInLastPlace(b: Bits32): real {
    Exp2((if ExponentField(b) == 0 then 1 else ExponentField(b)) - 150)
  }

  ghost function ShiftedBy(m: int, e: int): real { m as real * Exp2(e) }

  /** Binary32 from zero upwards: consecutive patterns are one unit in the last place apart, up to infinity. */
  lemma Binary32Steps(b: Bits32)
    requires 0 <= b < 0x7F7F_FFFF
    ensures Binary32Value(0) == Finite(0.0) && Binary32Value(0x7F80_0000) == Infinite(false)
    ensures Binary32Value(b).Finite? && Binary32Value(b + 1) == Finite(Binary32Value(b).r + UnitInLastPlace(b))
  {
    NextFields(b);
    ZeroAndInfinity();
    PositiveValue(b);
    PositiveValue(b + 1);
    NextMantissa(ExponentField(b), Mantissa(b));
    NextExponent(ExponentField(b));
    hide ExponentField, Mantissa, Exp2, Binary32Value, ShiftedBy;
  }

  lemma ZeroAndInfinity()
    ensures Binary32Value(0) == Finite(0.0) && Binary32Value(0x7F80_0000) == Infinite(false)
  {
    CodeFields(0);
    CodeFields(255);
    assert CodeToBinary32(0) == 0 && CodeToBinary32(255) == 0x7F80_0000;
    PositiveValue(0);
    hide ExponentField, Mantissa, Exp2;
  }

  lemma PositiveValue(b: Bits32)
    requires 0 <= b && ExponentField(b) < 255
    ensures Binary32Value(b) == Finite(if ExponentField(b) == 0 then ShiftedBy(Mantissa(b), -149)
                                       else ShiftedBy(MANTISSA_SPAN + Mantissa(b), ExponentField(b) - 150))
  {
    hide ExponentField, Mantissa, Exp2;
  }

  lemma NextFields(b: Bits32)
    requires 0 <= b < 0x7F7F_FFFF
    ensures var e, m := ExponentField(b), Mantissa(b);
            && e < 255 && (e == 254 ==> m + 1 < MANTISSA_SPAN)
            && if m + 1 < MANTISSA_SPAN then ExponentField(b + 1) == e && Mantissa(b + 1) == m + 1
               else ExponentField(b + 1) == e + 1 && Mantissa(b + 1) == 0
  {
    var e, m := b as int / MANTISSA_SPAN, Mantissa(b);
    assert b as int == e * MANTISSA_SPAN + m;
    if m + 1 < MANTISSA_SPAN {
      DivModUnique(b as int + 1, MANTISSA_SPAN, e, m + 1);
    } else {
      DivModUnique(b as int + 1, MANTISSA_SPAN, e + 1, 0);
    }
  }

  lemma NextMantissa(e: nat, m: nat)
    ensures ShiftedBy(m + 1, -149) == ShiftedBy(m, -149) + Exp2(-149)
    ensures ShiftedBy(MANTISSA_SPAN + (m + 1), e - 150) == ShiftedBy(MANTISSA_SPAN + m, e - 150) + Exp2(e - 150)
  {
    hide Exp2;
  }

  lemma NextExponent(e: nat)
    ensures ShiftedBy(MANTISSA_SPAN, 1 - 150) == ShiftedBy(MANTISSA_SPAN - 1, -149) + Exp2(-149)
    ensures ShiftedBy(MANTISSA_SPAN, e + 1 - 150) == ShiftedBy(MANTISSA_SPAN + (MANTISSA_SPAN - 1), e - 150) + Exp2(e - 150)
  {
    Exp2Step(e - 150);
    hide Exp2;
  }

  /** Setting the sign bit negates. */
  lemma SignBitNegates(b: Bits32)
    requires 0 <= b
    ensures match Binary32Value(b)
            case Finite(r) => Binary32Value(b - 0x7FFF_FFFF - 1) == Finite(-r)
            case Infinite(_) => Binary32Value(b - 0x7FFF_FFFF - 1) == Infinite(true)
            case NotANumber => Binary32Value(b - 0x7FFF_FFFF - 1) == NotANumber
  {
    SignedFields(b);
    hide ExponentField, Mantissa, Exp2;
  }

  lemma SignedFields(b: Bits32)
    requires 0 <= b
    ensures ExponentField(b - 0x7FFF_FFFF - 1) == ExponentField(b) && Mantissa(b - 0x7FFF_FFFF - 1) == Mantissa(b)
  {
    var e, m := b as int / MANTISSA_SPAN, Mantissa(b);
    assert b as int == e * MANTISSA_SPAN + m;
    DivModUnique(b as int - 0x8000_0000, MANTISSA_SPAN, e - 256, m);
  }

  /** The exponent byte means the same number as E8M0 and as binary32 exactly for exponent fields 1 to 254. */
  lemma ByteKeepsValue(code: int)
    requires 0 <= code < 256
    ensures Binary32Value(CodeToBinary32(code)) == E8M0Value(code) <==> 1 <= code <= 254
  {
    CodeFields(code);
    if 1 <= code <= 254 {
      SpanIsExp2();
      Exp2Add(23, code - 150);
    }
  }

  // ---- scale tensors ----

  /** Rounding up as the converter writes it: `(n + 127) // 128`. */
  function Tiles(n: nat): (t: nat)
    ensures SOURCE_BLOCK * t - SOURCE_BLOCK < n <= SOURCE_BLOCK * t
  {
    (n + SOURCE_BLOCK - 1) / SOURCE_BLOCK
  }

  function Crop<T>(m: seq<seq<T>>, rows: nat, cols: nat): (c: seq<seq<T>>)
    requires |m| >= rows && forall i :: 0 <= i < |m| ==> |m[i]| >= cols
    ensures IsMatrix(c, rows, cols)
    ensures forall i, j :: 0 <= i < rows && 0 <= j < cols ==> c[i][j] == m[i][j]
  {
    seq(rows, i requires 0 <= i < rows => m[i][..cols])
  }

  /** `repeat_interleave(times)` along the outer dimension. */
  function Repeat<T>(s: seq<T>, times: nat): (r: seq<T>)
    requires times > 0
    ensures |r| == |s| * times
    ensures forall i :: 0 <= i < |r| ==> 0 <= i / times < |s| && r[i] == s[i / times]
  {
    var n := |s| * times;
    IndicesInRepeat(|s|, times);
    seq(n, i requires 0 <= i < n => s[i / times])
  }

  lemma IndicesInRepeat(n: nat, times: nat)
    requires times > 0
    ensures forall i :: 0 <= i < n * times ==> 0 <= i / times < n
  {
    forall i | 0 <= i < n * times ensures 0 <= i / times < n {
      if n <= i / times {
        MulMonotone(n, i / times, times);
      }
    }
  }

  datatype SourceScale = ByteScale(codes: seq<seq<int>>) | FloatScale(bits: seq<seq<Bits32>>)

  ghost predicate ValidCodes(codes: seq<seq<int>>) {
    forall i, j :: 0 <= i < |codes| && 0 <= j < |codes[i]| ==> 0 <= codes[i][j] < 256
  }

  /** The stored scale covers the weight: at least one entry for each 128 by 128 tile. */
  ghost predicate Covers<T>(m: seq<seq<T>>, n: nat, k: nat) {
    |m| >= Tiles(n) && forall i :: 0 <= i < |m| ==> |m[i]| >= Tiles(k)
  }

  function FieldsOf(bits: seq<seq<Bits32>>): (codes: seq<seq<int>>)
    ensures |codes| == |bits|
    ensures forall i :: 0 <= i < |bits| ==> |codes[i]| == |bits[i]|
    ensures forall i, j :: 0 <= i < |bits| && 0 <= j < |bits[i]| ==> codes[i][j] == ExponentField(bits[i][j])
  {
    seq(|bits|, i requires 0 <= i < |bits| => seq(|bits[i]|, j requires 0 <= j < |bits[i]| => ExponentField(bits[i][j])))
  }

  predicate AllPowersOfTwo(bits: seq<seq<Bits32>>) {
    forall i, j :: 0 <= i < |bits| && 0 <= j < |bits[i]| ==> IsPowerOfTwoPattern(bits[i][j])
  }

  /** Both stored forms give the binary32 scale and, when every entry is a power of two, the byte scale. */
  function LoadSourceScale(scale: SourceScale, n: nat, k: nat): (r: (seq<seq<Bits32>>, Option<seq<seq<int>>>))
    requires scale.ByteScale? ==> ValidCodes(scale.codes) && Covers(scale.codes, n, k)
    requires scale.FloatScale? ==> Covers(scale.bits, n, k)
    ensures IsMatrix(r.0, Tiles(n), Tiles(k))
    ensures r.1.Some? ==> IsMatrix(r.1.value, Tiles(n), Tiles(k)) && ValidCodes(r.1.value)
  {
    match scale
    case FloatScale(bits) =>
      var fp32 := Crop(bits, Tiles(n), Tiles(k));
      (fp32, if AllPowersOfTwo(fp32) then Some(FieldsOf(fp32)) else None)
    case ByteScale(codes) =>
      var u8 := Crop(codes, Tiles(n), Tiles(k));
      (seq(|u8|, i requires 0 <= i < |u8| => seq(|u8[i]|, j requires 0 <= j < |u8[i]| => CodeToBinary32(u8[i][j]))), Some(u8))
  }

  /** Whichever form was stored, the two results describe the same scale: each determines the other. */
  lemma LoadedFormsAgree(scale: SourceScale, n: nat, k: nat, i: nat, j: nat)
    requires scale.ByteScale? ==> ValidCodes(scale.codes) && Covers(scale.codes, n, k)
    requires scale.FloatScale? ==> Covers(scale.bits, n, k)
    requires LoadSourceScale(scale, n, k).1.Some?
    requires i < Tiles(n) && j < Tiles(k)
    ensures var (fp32, u8) := LoadSourceScale(scale, n, k);
            && CodeToBinary32(u8.value[i][j]) == fp32[i][j]
            && ExponentField(fp32[i][j]) == u8.value[i][j]
            && IsPowerOfTwoPattern(fp32[i][j])
  {
    var (fp32, u8) := LoadSourceScale(scale, n, k);
    assert |fp32[i]| == Tiles(k) && |u8.value[i]| == Tiles(k);
    match scale {
      case FloatScale(_) => PatternRoundTrip(fp32[i][j]);
      case ByteScale(_) => CodeFields(u8.value[i][j]);
    }
  }

  /** A binary32 scale has bytes exactly if every pattern in use is non-negative with an empty mantissa, a byte scale always
      has; the patterns and the bytes in use are handed on as they are. */
  lemma LoadedIff(scale: SourceScale, n: nat, k: nat)
    requires scale.ByteScale? ==> ValidCodes(scale.codes) && Covers(scale.codes, n, k)
    requires scale.FloatScale? ==> Covers(scale.bits, n, k)
    ensures var (fp32, u8) := LoadSourceScale(scale, n, k);
            match scale
            case FloatScale(bits) =>
              && (u8.Some? <==> forall i, j :: 0 <= i < Tiles(n) && 0 <= j < Tiles(k) ==>
                    bits[i][j] >= 0 && bits[i][j] as int % 0x80_0000 == 0)
              && (forall i, j :: 0 <= i < Tiles(n) && 0 <= j < Tiles(k) ==> fp32[i][j] == bits[i][j])
            case ByteScale(codes) =>
              && u8.Some? && forall i, j :: 0 <= i < Tiles(n) && 0 <= j < Tiles(k) ==> u8.value[i][j] == codes[i][j]
  {}

  /** 128 by 128 scales expanded to one scale per row and 32 columns. */
  function SourceToMxfp8(n: nat, k: nat, source: seq<seq<int>>): (r: seq<seq<int>>)
    requires IsMatrix(source, Tiles(n), Tiles(k))
    ensures IsMatrix(r, n, k / 32)
  {
    var tall := Repeat(source, SOURCE_BLOCK);
    var wide := seq(|tall|, i requires 0 <= i < |tall| => Repeat(tall[i], SOURCE_BLOCK / TARGET_GROUP));
    GroupsFitTiles(k);
    Crop(wide, n, k / TARGET_GROUP)
  }

  lemma GroupsFitTiles(k: nat)
    ensures k / TARGET_GROUP <= Tiles(k) * (SOURCE_BLOCK / TARGET_GROUP)
  {}

  /** The group scale used for an element is the scale of the tile it came from. */
  lemma GroupScaleIsTileScale(n: nat, k: nat, source: seq<seq<int>>, i: nat, j: nat)
    requires IsMatrix(source, Tiles(n), Tiles(k))
    requires i < n && j < 32 * (k / 32)
    ensures i / 128 < Tiles(n) && j / 128 < Tiles(k) && j / 32 < k / 32
    ensures SourceToMxfp8(n, k, source)[i][j / 32] == source[i / 128][j / 128]
  {
    var tall := Repeat(source, SOURCE_BLOCK);
    var g := j / TARGET_GROUP;
    assert tall[i] == source[i / SOURCE_BLOCK];
    GroupsFitTiles(k);
    assert Repeat(tall[i], SOURCE_BLOCK / TARGET_GROUP)[g] == tall[i][g / 4];
    assert g / 4 == j / SOURCE_BLOCK;
  }

  function Scaled(x: real, v: Value): Value {
    if v.Finite? then Finite(x * v.r) else v
  }

  lemma ScaledIff(x: real, r: real, s: real)
    ensures Scaled(x, Finite(r)) == Scaled(x, Finite(s)) <==> r == s || x == 0.0
  {
    assert x * r - x * s == x * (r - s);
    if x != 0.0 && r != s {
      assert (r - s) * x != 0.0 by { Nonzero(x, r - s); }
    }
  }

  lemma Nonzero(x: real, y: real)
    requires x != 0.0 && y != 0.0
    ensures y * x != 0.0
  {}

  /** What expanding a scale does to an element: nothing exactly if the exponent field is 1 to 254, or the field and the
      element are both zero. */
  lemma ScaledByByteIff(x: real, code: int)
    requires 0 <= code < 256
    ensures Scaled(x, Binary32Value(CodeToBinary32(code))) == Scaled(x, E8M0Value(code))
            <==> 1 <= code <= 254 || (code == 0 && x == 0.0)
  {
    ByteKeepsValue(code);
    EdgeCodesDiffer();
    if code == 0 {
      ScaledIff(x, 0.0, Exp2(-127));
    }
  }

  /** Expanding the scales leaves a dequantised element unchanged exactly if the exponent field of its tile is 1 to 254,
      or the field and the element are both zero. */
  lemma ExpansionKeepsElements(scale: SourceScale, n: nat, k: nat, x: real, i: nat, j: nat)
    requires scale.ByteScale? ==> ValidCodes(scale.codes) && Covers(scale.codes, n, k)
    requires scale.FloatScale? ==> Covers(scale.bits, n, k)
    requires LoadSourceScale(scale, n, k).1.Some?
    requires k % 32 == 0 && i < n && j < k
    ensures i / 128 < Tiles(n) && j / 128 < Tiles(k)
    ensures var (fp32, u8) := LoadSourceScale(scale, n, k);
            var expanded := SourceToMxfp8(n, k, u8.value);
            var code := expanded[i][j / 32];
            var tile := fp32[i / 128][j / 128];
            && 0 <= code < 256
            && (Binary32Value(tile) == E8M0Value(code) <==> 1 <= ExponentField(tile) <= 254)
            && (Scaled(x, Binary32Value(tile)) == Scaled(x, E8M0Value(code))
                <==> 1 <= ExponentField(tile) <= 254 || (ExponentField(tile) == 0 && x == 0.0))
  {
    var (fp32, u8) := LoadSourceScale(scale, n, k);
    GroupScaleIsTileScale(n, k, u8.value, i, j);
    LoadedFormsAgree(scale, n, k, i / SOURCE_BLOCK, j / SOURCE_BLOCK);
    ByteKeepsValue(ExponentField(fp32[i / SOURCE_BLOCK][j / SOURCE_BLOCK]));
    ScaledByByteIff(x, ExponentField(fp32[i / SOURCE_BLOCK][j / SOURCE_BLOCK]));
  }

  /** The two exponent bytes outside the range do change meaning: zero, and infinity against not-a-number. */
  lemma EdgeCodesDiffer()
    ensures Binary32Value(CodeToBinary32(0)) == Finite(0.0) && E8M0Value(0) != Finite(0.0)
    ensures Binary32Value(CodeToBinary32(255)) == Infinite(false) && E8M0Value(255) == NotANumber
  {
    CodeFields(0);
    CodeFields(255);
  }
}
