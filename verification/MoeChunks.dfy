/** The direct path for chunked expert tensors: every storage chunk is converted where it lies. */
module MoeChunks {

  import opened Sequences
  import opened Tensors

  datatype Linear = Fc1 | Fc2

  datatype Projection = Gate | Up | Down

  /** A storage chunk: offsets and lengths along experts, ffn rows and hidden size. */
  datatype Chunk = Chunk(e0: int, f0: int, h0: int, experts: nat, rows: nat, hidden: nat)

  datatype Size = Size(experts: nat, ffn: nat, hidden: nat)

  /** One weight handed on: expert, projection, rows. */
  datatype Slice = Slice(expert: nat, projection: Projection, rows: seq<Tensor>)

  /** The support check. */
  predicate Supported(c: Chunk, fc: Linear, size: Size) {
    && 0 <= c.e0 && c.e0 + c.experts <= size.experts
    && c.h0 == 0 && c.hidden == size.hidden
    && match fc
       case Fc2 => c.f0 == 0 && c.rows == size.ffn
       case Fc1 =>
         var half := size.ffn / 2;
         && size.ffn % 2 == 0
         && ((c.f0 == 0 && c.rows == size.ffn) || ((c.f0 == 0 || c.f0 == half) && c.rows == half))
  }

  predicate Contains(c: Chunk, e: int, f: int, h: int) {
    c.e0 <= e < c.e0 + c.experts && c.f0 <= f < c.f0 + c.rows && c.h0 <= h < c.h0 + c.hidden
  }

  ghost predicate CoveredOnce(chunks: seq<Chunk>, e: int, f: int, h: int) {
    && (exists i :: 0 <= i < |chunks| && Contains(chunks[i], e, f, h))
    && (forall i, j :: 0 <= i < |chunks| && 0 <= j < |chunks| && Contains(chunks[i], e, f, h) && Contains(chunks[j], e, f, h) ==> i == j)
  }

  /** The chunk has cells. */
  predicate HasCells(c: Chunk) {
    c.experts > 0 && c.rows > 0 && c.hidden > 0
  }

  /** The cell belongs to the rows of an expert that make up a projection: all of fc2, the lower or the upper half of fc1. */
  predicate InSlab(size: Size, p: Projection, f: int, h: int) {
    && 0 <= f < size.ffn && 0 <= h < size.hidden
    && match p
       case Down => true
       case Gate => 2 * f < size.ffn
       case Up => 2 * f >= size.ffn
  }

  ghost predicate AllOfSlab(c: Chunk, size: Size, e: int, p: Projection) {
    forall f, h :: InSlab(size, p, f, h) ==> Contains(c, e, f, h)
  }

  ghost predicate NoneOfSlab(c: Chunk, size: Size, e: int, p: Projection) {
    forall f, h :: InSlab(size, p, f, h) ==> !Contains(c, e, f, h)
  }

  /** The chunk lies in the tensor, and of every projection of every expert it holds everything or nothing. */
  ghost predicate OfWholeSlabs(c: Chunk, fc: Linear, size: Size) {
    && (fc == Fc1 ==> size.ffn % 2 == 0)
    && (forall e, f, h :: Contains(c, e, f, h) ==> 0 <= e < size.experts && 0 <= f < size.ffn && 0 <= h < size.hidden)
    && (forall e: int, p :: (fc == Fc2) == (p == Down) ==> AllOfSlab(c, size, e, p) || NoneOfSlab(c, size, e, p))
  }

  /** What the support check is: a chunk with cells passes exactly if it consists of whole projections of experts. */
  lemma SupportedIff(c: Chunk, fc: Linear, size: Size)
    requires HasCells(c)
    ensures Supported(c, fc, size) <==> OfWholeSlabs(c, fc, size)
  {
    if Supported(c, fc, size) {
      SupportedOfSlabs(c, fc, size);
    }
    if OfWholeSlabs(c, fc, size) {
      SlabsSupported(c, fc, size);
    }
  }

  lemma SupportedOfSlabs(c: Chunk, fc: Linear, size: Size)
    requires HasCells(c) && Supported(c, fc, size)
    ensures OfWholeSlabs(c, fc, size)
  {
    forall e: int, p | (fc == Fc2) == (p == Down) ensures AllOfSlab(c, size, e, p) || NoneOfSlab(c, size, e, p) {
      if c.e0 <= e < c.e0 + c.experts && (p == Down || (if p == Gate then c.f0 == 0 else c.f0 + c.rows == size.ffn)) {
        assert AllOfSlab(c, size, e, p);
      } else {
        assert NoneOfSlab(c, size, e, p);
      }
    }
  }

  lemma SlabsSupported(c: Chunk, fc: Linear, size: Size)
    requires HasCells(c) && OfWholeSlabs(c, fc, size)
    ensures Supported(c, fc, size)
  {
    assert Contains(c, c.e0, c.f0, c.h0);
    assert Contains(c, c.e0 + c.experts - 1, c.f0 + c.rows - 1, c.h0 + c.hidden - 1);
    var first := SlabOf(fc, size, c.f0);
    var last := SlabOf(fc, size, c.f0 + c.rows - 1);
    WholeSlab(c, fc, size, first, c.f0, c.h0);
    WholeSlab(c, fc, size, last, c.f0 + c.rows - 1, c.h0);
    assert InSlab(size, first, SlabStart(size, first), 0) && InSlab(size, first, SlabStart(size, first), size.hidden - 1);
    assert InSlab(size, last, SlabEnd(size, last) - 1, 0);
  }

  function SlabOf(fc: Linear, size: Size, f: int): Projection {
    if fc == Fc2 then Down else if 2 * f < size.ffn then Gate else Up
  }

  function SlabStart(size: Size, p: Projection): int { if p == Up then size.ffn / 2 else 0 }

  function SlabEnd(size: Size, p: Projection): int { if p == Gate then size.ffn / 2 else size.ffn }

  lemma WholeSlab(c: Chunk, fc: Linear, size: Size, p: Projection, f: int, h: int)
    requires HasCells(c) && OfWholeSlabs(c, fc, size) && p == SlabOf(fc, size, f) && Contains(c, c.e0, f, h)
    ensures AllOfSlab(c, size, c.e0, p)
  {
    assert InSlab(size, p, f, h);
  }

  /** Every cell of the tensor lies in exactly one chunk. */
  ghost predicate Tiles(chunks: seq<Chunk>, size: Size) {
    forall e, f, h :: 0 <= e < size.experts && 0 <= f < size.ffn && 0 <= h < size.hidden ==> CoveredOnce(chunks, e, f, h)
  }

  /** A whole expert tensor: experts, each a stack of ffn rows. */
  predicate IsExpertTensor(w: seq<seq<Tensor>>, size: Size) {
    |w| == size.experts && forall e :: 0 <= e < |w| ==> |w[e]| == size.ffn
  }

  /** The rows of one expert that a chunk stores. */
  function ChunkRows(w: seq<seq<Tensor>>, size: Size, c: Chunk, k: nat): (rows: seq<Tensor>)
    requires IsExpertTensor(w, size) && 0 <= c.e0 && c.e0 + c.experts <= size.experts && k < c.experts
    requires 0 <= c.f0 && c.f0 + c.rows <= size.ffn
  {
    w[c.e0 + k][c.f0..c.f0 + c.rows]
  }

  lemma SupportedInBounds(c: Chunk, fc: Linear, size: Size)
    requires Supported(c, fc, size)
    ensures 0 <= c.e0 && c.e0 + c.experts <= size.experts && 0 <= c.f0 && c.f0 + c.rows <= size.ffn
  {}

  /** Where `chunk(2, dim=0)` cuts: the larger half comes first. */
  function Cut(n: nat): (k: nat)
    ensures n - k <= k <= n - k + 1
  {
    (n + 1) / 2
  }

  /** What the chunk converter hands on for the chunk's `k`-th expert. */
  function ConvertExpert(fc: Linear, w: seq<seq<Tensor>>, size: Size, c: Chunk, k: nat): seq<Slice>
    requires IsExpertTensor(w, size) && Supported(c, fc, size) && k < c.experts
  {
    SupportedInBounds(c, fc, size);
    var rows, half := ChunkRows(w, size, c, k), size.ffn / 2;
    match fc
    case Fc2 => [Slice(c.e0 + k, Down, rows)]
    case Fc1 =>
      if c.f0 == 0 && c.rows == size.ffn then [Slice(c.e0 + k, Gate, rows[..Cut(|rows|)]), Slice(c.e0 + k, Up, rows[Cut(|rows|)..])]
      else if c.f0 == 0 && c.rows == half then [Slice(c.e0 + k, Gate, rows)]
      else [Slice(c.e0 + k, Up, rows)]
  }

  function ConvertExperts(fc: Linear, w: seq<seq<Tensor>>, size: Size, c: Chunk, n: nat): seq<Slice>
    requires IsExpertTensor(w, size) && Supported(c, fc, size) && n <= c.experts
  {
    if n == 0 then [] else ConvertExperts(fc, w, size, c, n - 1) + ConvertExpert(fc, w, size, c, n - 1)
  }

  /** The groups of one chunk. */
  function ConvertChunk(fc: Linear, w: seq<seq<Tensor>>, size: Size, c: Chunk): seq<Slice>
    requires IsExpertTensor(w, size) && Supported(c, fc, size)
  {
    ConvertExperts(fc, w, size, c, c.experts)
  }

  /** The conversion of a chunk, expert by expert, from the data read for it. */
  method ConvertedMoeTensorsFromChunk(fc: Linear, w: seq<seq<Tensor>>, size: Size, c: Chunk, data: seq<seq<Tensor>>)
    returns (slices: seq<Slice>)
    requires IsExpertTensor(w, size) && Supported(c, fc, size)
    requires |data| == c.experts && forall k :: 0 <= k < c.experts ==> data[k] == ChunkRows(w, size, c, k)
    ensures slices == ConvertChunk(fc, w, size, c)
  {
    slices := [];
    var half := size.ffn / 2;
    for k := 0 to c.experts
      invariant slices == ConvertExperts(fc, w, size, c, k)
    {
      var e: nat := c.e0 + k;
      if fc == Fc2 {
        slices := slices + [Slice(e, Down, data[k])];
      } else if c.f0 == 0 && c.rows == size.ffn {
        slices := slices + [Slice(e, Gate, data[k][..Cut(|data[k]|)]), Slice(e, Up, data[k][Cut(|data[k]|)..])];
      } else if c.f0 == 0 && c.rows == half {
        slices := slices + [Slice(e, Gate, data[k])];
      } else {
        slices := slices + [Slice(e, Up, data[k])];
      }
    }
  }

  /** What converting the whole tensor hands on for expert `e`: the core's own split. */
  function WholeExpert(fc: Linear, rows: seq<Tensor>, e: nat): seq<Slice> {
    match fc
    case Fc2 => [Slice(e, Down, rows)]
    case Fc1 => [Slice(e, Gate, rows[..Cut(|rows|)]), Slice(e, Up, rows[Cut(|rows|)..])]
  }

  /** Expert by expert, the whole tensor's first `n` experts. */
  function WholeTensor(fc: Linear, w: seq<seq<Tensor>>, n: nat): seq<Slice>
    requires n <= |w|
  {
    if n == 0 then [] else WholeTensor(fc, w, n - 1) + WholeExpert(fc, w[n - 1], n - 1)
  }

  /** The weights of a whole tensor in order: gate and up of each expert, the gate with the middle row of an odd number, or
      its down projection. */
  lemma {:induction false} WholeInOrder(fc: Linear, w: seq<seq<Tensor>>, n: nat, e: nat)
    requires e < n <= |w|
    ensures |WholeTensor(fc, w, n)| == if fc == Fc1 then 2 * n else n
    ensures fc == Fc1 ==> WholeTensor(fc, w, n)[2 * e] == Slice(e, Gate, w[e][..(|w[e]| + 1) / 2])
    ensures fc == Fc1 ==> WholeTensor(fc, w, n)[2 * e + 1] == Slice(e, Up, w[e][(|w[e]| + 1) / 2..])
    ensures fc == Fc2 ==> WholeTensor(fc, w, n)[e] == Slice(e, Down, w[e])
  {
    if n > 1 {
      WholeInOrder(fc, w, n - 1, if e < n - 1 then e else 0);
    } else {
      assert WholeTensor(fc, w, n - 1) == [];
    }
  }

  /** The weights of a chunk in order: for its `k`-th expert all of fc2, or the halves of fc1 that it holds. */
  lemma {:induction false} ChunkInOrder(fc: Linear, w: seq<seq<Tensor>>, size: Size, c: Chunk, n: nat, k: nat)
    requires IsExpertTensor(w, size) && Supported(c, fc, size) && k < n <= c.experts && size.ffn >= 1
    ensures var slices, e := ConvertExperts(fc, w, size, c, n), c.e0 + k;
            && (fc == Fc2 ==> |slices| == n && slices[k] == Slice(e, Down, w[e]))
            && (fc == Fc1 && c.rows == size.ffn ==>
                  && |slices| == 2 * n && slices[2 * k] == Slice(e, Gate, w[e][..size.ffn / 2])
                  && slices[2 * k + 1] == Slice(e, Up, w[e][size.ffn / 2..]))
            && (fc == Fc1 && c.rows < size.ffn ==>
                  && |slices| == n
                  && slices[k] == if c.f0 == 0 then Slice(e, Gate, w[e][..size.ffn / 2]) else Slice(e, Up, w[e][size.ffn / 2..]))
  {
    if n > 1 {
      ChunkInOrder(fc, w, size, c, n - 1, if k < n - 1 then k else 0);
    } else {
      assert ConvertExperts(fc, w, size, c, n - 1) == [];
    }
    if k == n - 1 {
      OneExpertOfChunk(fc, w, size, c, k);
    }
  }

  lemma OneExpertOfChunk(fc: Linear, w: seq<seq<Tensor>>, size: Size, c: Chunk, k: nat)
    requires IsExpertTensor(w, size) && Supported(c, fc, size) && k < c.experts && size.ffn >= 1
    ensures var slices, e := ConvertExpert(fc, w, size, c, k), c.e0 + k;
            slices == if fc == Fc2 then [Slice(e, Down, w[e])]
                      else if c.rows == size.ffn then [Slice(e, Gate, w[e][..size.ffn / 2]), Slice(e, Up, w[e][size.ffn / 2..])]
                      else if c.f0 == 0 then [Slice(e, Gate, w[e][..size.ffn / 2])] else [Slice(e, Up, w[e][size.ffn / 2..])]
  {
    var e := c.e0 + k;
    assert w[e][0..size.ffn] == w[e];
    assert fc == Fc1 ==> Cut(size.ffn) == size.ffn / 2;
  }

  /** The chunk's rows of its expert cover the projection. */
  predicate Covers(c: Chunk, size: Size, e: int, p: Projection) {
    && c.e0 <= e < c.e0 + c.experts
    && match p
       case Down => true
       case Gate => c.f0 == 0
       case Up => c.f0 + c.rows == size.ffn
  }

  predicate Belongs(fc: Linear, p: Projection) {
    (fc == Fc2) == (p == Down)
  }

  function Rows(w: seq<seq<Tensor>>, e: nat, p: Projection): seq<Tensor>
    requires e < |w|
  {
    match p
    case Down => w[e]
    case Gate => w[e][..Cut(|w[e]|)]
    case Up => w[e][Cut(|w[e]|)..]
  }

  /** The slice is the whole tensor's, and the chunk's rows are the ones it consists of. */
  predicate Held(fc: Linear, w: seq<seq<Tensor>>, size: Size, c: Chunk, s: Slice) {
    && s.expert < |w| && Belongs(fc, s.projection) && Covers(c, size, s.expert, s.projection)
    && s.rows == Rows(w, s.expert, s.projection)
  }

  /** One expert of a chunk: exactly the projections its rows cover, each the right part of the whole. */
  lemma ExpertSlices(fc: Linear, w: seq<seq<Tensor>>, size: Size, c: Chunk, k: nat, s: Slice)
    requires IsExpertTensor(w, size) && Supported(c, fc, size) && k < c.experts && size.ffn >= 1
    ensures multiset(ConvertExpert(fc, w, size, c, k))[s] ==
            if s.expert == c.e0 + k && Held(fc, w, size, c, s) then 1 else 0
  {
    hide Held, ConvertExpert;
    if fc == Fc2 {
      DownSlice(w, size, c, k, s);
    } else if c.rows == size.ffn {
      WholeChunkSlices(w, size, c, k, s);
    } else {
      HalfChunkSlice(w, size, c, k, s);
    }
  }

  lemma DownSlice(w: seq<seq<Tensor>>, size: Size, c: Chunk, k: nat, s: Slice)
    requires IsExpertTensor(w, size) && Supported(c, Fc2, size) && k < c.experts && size.ffn >= 1
    ensures multiset(ConvertExpert(Fc2, w, size, c, k))[s] ==
            if s.expert == c.e0 + k && Held(Fc2, w, size, c, s) then 1 else 0
  {
    var e, half := c.e0 + k, size.ffn / 2;
    assert ChunkRows(w, size, c, k) == w[e];
    CountOne(Slice(e, Down, w[e]), s);
  }

  lemma WholeChunkSlices(w: seq<seq<Tensor>>, size: Size, c: Chunk, k: nat, s: Slice)
    requires IsExpertTensor(w, size) && Supported(c, Fc1, size) && k < c.experts && size.ffn >= 1 && c.rows == size.ffn
    ensures multiset(ConvertExpert(Fc1, w, size, c, k))[s] ==
            if s.expert == c.e0 + k && Held(Fc1, w, size, c, s) then 1 else 0
  {
    var e, half := c.e0 + k, size.ffn / 2;
    assert ChunkRows(w, size, c, k) == w[e];
    CountTwo(Slice(e, Gate, w[e][..half]), Slice(e, Up, w[e][half..]), s);
  }

  lemma HalfChunkSlice(w: seq<seq<Tensor>>, size: Size, c: Chunk, k: nat, s: Slice)
    requires IsExpertTensor(w, size) && Supported(c, Fc1, size) && k < c.experts && size.ffn >= 1 && c.rows != size.ffn
    ensures multiset(ConvertExpert(Fc1, w, size, c, k))[s] ==
            if s.expert == c.e0 + k && Held(Fc1, w, size, c, s) then 1 else 0
  {
    var e, half := c.e0 + k, size.ffn / 2;
    if c.f0 == 0 {
      assert ChunkRows(w, size, c, k) == w[e][..half];
      CountOne(Slice(e, Gate, w[e][..half]), s);
    } else {
      assert ChunkRows(w, size, c, k) == w[e][half..];
      CountOne(Slice(e, Up, w[e][half..]), s);
    }
  }

  lemma CountOne(a: Slice, s: Slice)
    ensures multiset([a])[s] == if s == a then 1 else 0
  {}

  lemma CountTwo(a: Slice, b: Slice, s: Slice)
    requires a != b
    ensures multiset([a, b])[s] == if s == a || s == b then 1 else 0
  {
    assert multiset([a, b]) == multiset{a, b};
  }

  lemma CountAppend(a: seq<Slice>, b: seq<Slice>, s: Slice)
    ensures multiset(a + b)[s] == multiset(a)[s] + multiset(b)[s]
  {}

  predicate Whole(fc: Linear, w: seq<seq<Tensor>>, s: Slice) {
    s.expert < |w| && Belongs(fc, s.projection) && s.rows == Rows(w, s.expert, s.projection)
  }

  lemma WholeExpertSlices(fc: Linear, w: seq<seq<Tensor>>, e: nat, s: Slice)
    requires e < |w|
    ensures multiset(WholeExpert(fc, w[e], e))[s] == if s.expert == e && Whole(fc, w, s) then 1 else 0
  {
    var half := Cut(|w[e]|);
    if fc == Fc2 {
      CountOne(Slice(e, Down, w[e]), s);
    } else {
      CountTwo(Slice(e, Gate, w[e][..half]), Slice(e, Up, w[e][half..]), s);
    }
  }

  lemma {:induction false} ChunkSlices(fc: Linear, w: seq<seq<Tensor>>, size: Size, c: Chunk, n: nat, s: Slice)
    requires IsExpertTensor(w, size) && Supported(c, fc, size) && n <= c.experts && size.ffn >= 1
    ensures multiset(ConvertExperts(fc, w, size, c, n))[s] ==
            if c.e0 <= s.expert < c.e0 + n && Held(fc, w, size, c, s) then 1 else 0
  {
    hide Held, ConvertExpert, Supported;
    if n > 0 {
      ChunkSlices(fc, w, size, c, n - 1, s);
      ExpertSlices(fc, w, size, c, n - 1, s);
      CountAppend(ConvertExperts(fc, w, size, c, n - 1), ConvertExpert(fc, w, size, c, n - 1), s);
    }
  }

  lemma {:induction false} WholeSlices(fc: Linear, w: seq<seq<Tensor>>, n: nat, s: Slice)
    requires n <= |w|
    ensures multiset(WholeTensor(fc, w, n))[s] ==
            if s.expert < n && Whole(fc, w, s) then 1 else 0
  {
    hide Whole, WholeExpert;
    if n > 0 {
      WholeSlices(fc, w, n - 1, s);
      WholeExpertSlices(fc, w, n - 1, s);
      CountAppend(WholeTensor(fc, w, n - 1), WholeExpert(fc, w[n - 1], n - 1), s);
    }
  }

  /** The cell of an expert that only a chunk covering the projection contains. */
  function Witness(size: Size, p: Projection): int {
    if p == Up then size.ffn - 1 else 0
  }

  lemma CoversIsContains(c: Chunk, fc: Linear, size: Size, e: int, p: Projection)
    requires Supported(c, fc, size) && size.ffn >= 1 && size.hidden >= 1 && Belongs(fc, p)
    ensures Covers(c, size, e, p) <==> Contains(c, e, Witness(size, p), 0)
  {}

  /** The slices of a chunk, for use under a sum. */
  function Converted(fc: Linear, w: seq<seq<Tensor>>, size: Size): Chunk -> multiset<Slice>
    requires IsExpertTensor(w, size)
  {
    (c: Chunk) => if Supported(c, fc, size) then multiset(ConvertChunk(fc, w, size, c)) else multiset{}
  }

  lemma {:induction false} AtMostOneHit(chunks: seq<Chunk>, f: Chunk -> multiset<Slice>, s: Slice, hit: int)
    requires forall i :: 0 <= i < |chunks| ==> f(chunks[i])[s] == if i == hit then 1 else 0
    ensures Gather(chunks, f)[s] == if 0 <= hit < |chunks| then 1 else 0
  {
    if chunks != [] {
      AtMostOneHit(chunks[1..], f, s, hit - 1);
    }
  }

  /** Each slice of the whole tensor is handed on once by exactly one chunk, and nothing else is. */
  lemma SliceCount(fc: Linear, w: seq<seq<Tensor>>, size: Size, chunks: seq<Chunk>, s: Slice)
    requires IsExpertTensor(w, size) && size.ffn >= 1 && size.hidden >= 1
    requires Tiles(chunks, size) && forall c :: c in chunks ==> Supported(c, fc, size)
    ensures Gather(chunks, Converted(fc, w, size))[s] == multiset(WholeTensor(fc, w, |w|))[s]
  {
    WholeSlices(fc, w, |w|, s);
    var f := Converted(fc, w, size);
    var hit := OneHit(fc, w, size, chunks, s);
    hide *;
    forall i | 0 <= i < |chunks| ensures f(chunks[i])[s] == if i == hit then 1 else 0 {
      ChunkHits(fc, w, size, chunks[i], s);
    }
    AtMostOneHit(chunks, f, s, hit);
  }

  /** The chunk that holds a slice of the whole tensor; of anything else there is none. */
  lemma OneHit(fc: Linear, w: seq<seq<Tensor>>, size: Size, chunks: seq<Chunk>, s: Slice) returns (hit: int)
    requires IsExpertTensor(w, size) && size.ffn >= 1 && size.hidden >= 1 && Tiles(chunks, size)
    ensures 0 <= hit < |chunks| <==> s.expert < |w| && Whole(fc, w, s)
    ensures forall i :: 0 <= i < |chunks| ==> (Hits(fc, w, size, chunks[i], s) <==> i == hit)
  {
    hide Rows, Contains;
    hit := -1;
    if s.expert < |w| && Whole(fc, w, s) {
      assert CoveredOnce(chunks, s.expert, Witness(size, s.projection), 0);
      hit :| 0 <= hit < |chunks| && Contains(chunks[hit], s.expert, Witness(size, s.projection), 0);
    }
  }

  /** The slice is the whole tensor's and its witness lies in the chunk. */
  predicate Hits(fc: Linear, w: seq<seq<Tensor>>, size: Size, c: Chunk, s: Slice) {
    && s.expert < |w| && Belongs(fc, s.projection) && Contains(c, s.expert, Witness(size, s.projection), 0)
    && s.rows == Rows(w, s.expert, s.projection)
  }

  lemma ChunkHits(fc: Linear, w: seq<seq<Tensor>>, size: Size, c: Chunk, s: Slice)
    requires IsExpertTensor(w, size) && Supported(c, fc, size) && size.ffn >= 1 && size.hidden >= 1
    ensures Converted(fc, w, size)(c)[s] == if Hits(fc, w, size, c, s) then 1 else 0
  {
    ChunkSlices(fc, w, size, c, c.experts, s);
    if Belongs(fc, s.projection) {
      CoversIsContains(c, fc, size, s.expert, s.projection);
    }
  }

  /** If the chunks tile the tensor and each passes the support check, converting chunk by chunk, some experts whole
      and others in halves, hands on each expert's projections exactly once, equal to those of the whole tensor. */
  lemma DirectEqualsWhole(fc: Linear, w: seq<seq<Tensor>>, size: Size, chunks: seq<Chunk>)
    requires IsExpertTensor(w, size) && size.ffn >= 1 && size.hidden >= 1
    requires Tiles(chunks, size) && forall c :: c in chunks ==> Supported(c, fc, size)
    ensures Gather(chunks, Converted(fc, w, size)) == multiset(WholeTensor(fc, w, |w|))
  {
    forall s ensures Gather(chunks, Converted(fc, w, size))[s] == multiset(WholeTensor(fc, w, |w|))[s] {
      SliceCount(fc, w, size, chunks, s);
    }
  }

  /** A gated tensor with an odd number of rows never takes the direct path: its two projections are not halves. */
  lemma OddRowsUnsupported(c: Chunk, size: Size)
    requires size.ffn % 2 == 1
    ensures !Supported(c, Fc1, size)
  {}
}
