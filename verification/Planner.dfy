/** Planning the parallel conversion: which source keys and storage chunks go into which task. */
module Planner {

  import opened Dispatcher
  import opened GreedyPacking
  import opened Grouping
  import opened MoeChunks
  import opened Sequences
  import opened Sorting
  import opened Strings
  import opened Wrappers

  /** A parsed expert key: layer, linear, and whether it has the language-model prefix. */
  datatype ExpertKey = ExpertKey(layer: nat, fc: Linear, prefixed: bool)

  datatype StoredChunk = StoredChunk(box: Chunk, file: string, length: nat)

  /** The metadata of one kept source key. */
  datatype Source = Source(name: string, bytes: nat, expert: Option<ExpertKey>, dims: seq<nat>, chunks: seq<StoredChunk>)

  /** The chunks of one source that lie in one file. */
  datatype Block = Block(source: string, file: string, indices: seq<nat>, key: ExpertKey)

  datatype SizedBlock = SizedBlock(bytes: nat, block: Block)

  /** Whole source keys that must be converted together. */
  datatype Atomic = Atomic(bytes: nat, keys: seq<string>)

  datatype TaskSpec = TaskSpec(id: int, keys: seq<string>, bytes: nat, blocks: seq<Block>)

  /** A piece of work: a whole key, or one storage chunk of a key. */
  datatype Unit = Whole(name: string) | Part(name: string, index: nat)

  const DEFAULT_DIRECT_MOE_GROUP_SIZE: nat := 2 * 1024 * 1024 * 1024

  // ---------------------------------------------------------------- routes

  function SizeOf(dims: seq<nat>): Size
    requires |dims| == 3
  {
    Size(dims[0], dims[1], dims[2])
  }

  /** The direct route: a parsed expert key of three dimensions, each of its chunks supported. */
  predicate Direct(s: Source) {
    && s.expert.Some? && |s.dims| == 3 && s.chunks != []
    && forall i :: 0 <= i < |s.chunks| ==> Supported(s.chunks[i].box, s.expert.value.fc, SizeOf(s.dims))
  }

  function NotDirect(s: Source): bool { !Direct(s) }

  function NameOf(s: Source): string { s.name }

  function WholeUnit(name: string): Unit { Whole(name) }

  function PartUnit(name: string): nat -> Unit { (i: nat) => Part(name, i) }

  /** The work a source stands for. */
  function SourceUnits(s: Source): seq<Unit> {
    if Direct(s) then Map(Range(|s.chunks|), PartUnit(s.name)) else [Whole(s.name)]
  }

  function UnitsOf(s: Source): multiset<Unit> { multiset(SourceUnits(s)) }

  /** The bytes a source is estimated at: what its chunks take in storage, or its tensor's size. */
  function SourceBytes(s: Source): nat {
    if Direct(s) then Total(s.chunks, ChunkLength) else s.bytes
  }

  function ChunkLength(c: StoredChunk): nat { c.length }

  // ---------------------------------------------------------------- blocks of a source

  function FileOf(s: Source): nat -> string {
    (i: nat) => if i < |s.chunks| then s.chunks[i].file else ""
  }

  function LengthOf(s: Source): nat -> nat {
    (i: nat) => if i < |s.chunks| then s.chunks[i].length else 0
  }

  predicate OffsetLeq(a: Chunk, b: Chunk) {
    a.e0 < b.e0 || (a.e0 == b.e0 && (a.f0 < b.f0 || (a.f0 == b.f0 && a.h0 <= b.h0)))
  }

  function ByOffset(s: Source): (nat, nat) -> bool {
    (i: nat, j: nat) => i < |s.chunks| && j < |s.chunks| ==> OffsetLeq(s.chunks[i].box, s.chunks[j].box)
  }

  function ByFile(): (Group<nat>, Group<nat>) -> bool {
    (g: Group<nat>, h: Group<nat>) => StringLeq(g.key, h.key)
  }

  function BlockOf(s: Source): Group<nat> -> SizedBlock
    requires Direct(s)
  {
    (g: Group<nat>) =>
      SizedBlock(Total(g.members, LengthOf(s)), Block(s.name, g.key, Sort(g.members, ByOffset(s)), s.expert.value))
  }

  /** One block per storage file, in file order, each with its chunks in offset order. */
  function MoeBlocks(s: Source): seq<SizedBlock>
    requires Direct(s)
  {
    Map(Sort(GroupBy(Range(|s.chunks|), FileOf(s)), ByFile()), BlockOf(s))
  }

  /** When chunks have cells, the direct route is taken exactly by parsed expert keys of three dimensions that have chunks,
      all of which consist of whole projections of experts. */
  lemma DirectIff(s: Source)
    ensures (forall i :: 0 <= i < |s.chunks| ==> HasCells(s.chunks[i].box)) ==>
              (Direct(s) <==>
               && s.expert.Some? && |s.dims| == 3 && s.chunks != []
               && forall i :: 0 <= i < |s.chunks| ==>
                    OfWholeSlabs(s.chunks[i].box, s.expert.value.fc, Size(s.dims[0], s.dims[1], s.dims[2])))
  {
    if s.expert.Some? && |s.dims| == 3 {
      var fc, size := s.expert.value.fc, Size(s.dims[0], s.dims[1], s.dims[2]);
      hide Supported, OfWholeSlabs;
      forall i | 0 <= i < |s.chunks| && HasCells(s.chunks[i].box)
        ensures Supported(s.chunks[i].box, fc, size) <==> OfWholeSlabs(s.chunks[i].box, fc, size)
      {
        SupportedIff(s.chunks[i].box, fc, size);
      }
    }
  }

  method CreateMoeBlockSpecs(s: Source) returns (blocks: Option<seq<SizedBlock>>)
    ensures blocks == if Direct(s) then Some(MoeBlocks(s)) else None
    ensures (forall i :: 0 <= i < |s.chunks| ==> HasCells(s.chunks[i].box)) ==>
              (blocks.Some? <==>
               && s.expert.Some? && |s.dims| == 3 && s.chunks != []
               && forall i :: 0 <= i < |s.chunks| ==>
                    OfWholeSlabs(s.chunks[i].box, s.expert.value.fc, Size(s.dims[0], s.dims[1], s.dims[2])))
  {
    DirectIff(s);
    if !Direct(s) {
      return None;
    }
    var groups := GroupByKey(Range(|s.chunks|), FileOf(s));
    return Some(Map(Sort(groups, ByFile()), BlockOf(s)));
  }

  function BlockUnits(b: SizedBlock): multiset<Unit> {
    multiset(Map(b.block.indices, PartUnit(b.block.source)))
  }

  function BlockBytes(b: SizedBlock): nat { b.bytes }

  function Indices(g: Group<nat>): seq<nat> { g.members }

  /** The blocks' index lists rearrange the source's chunk indices. */
  lemma BlockLists(s: Source)
    ensures var sorted := Sort(GroupBy(Range(|s.chunks|), FileOf(s)), ByFile());
            multiset(Concat(Map(sorted, Indices))) == multiset(Range(|s.chunks|))
  {
    var range := Range(|s.chunks|);
    var groups := GroupBy(range, FileOf(s));
    var sorted := Sort(groups, ByFile());
    GroupByIsGrouped(range, FileOf(s));
    GatherPermutation(sorted, groups, Members);
    hide Sort, GroupBy, FileOf, ByFile, Range;
    GatherMap(sorted, Indices, (m: seq<nat>) => multiset(m), Members);
    GatherCongruent(Map(sorted, Indices), (m: seq<nat>) => multiset(m), (m: seq<nat>) => multiset(m));
    ConcatMultiset(Map(sorted, Indices));
  }

  /** Every chunk of a direct source lies in exactly one of its blocks, and the blocks' bytes are the source's. */
  lemma BlocksPartition(s: Source)
    requires Direct(s)
    ensures Gather(MoeBlocks(s), BlockUnits) == UnitsOf(s)
    ensures Total(MoeBlocks(s), BlockBytes) == SourceBytes(s)
  {
    var sorted := Sort(GroupBy(Range(|s.chunks|), FileOf(s)), ByFile());
    BlockLists(s);
    BlocksBytes(s, sorted, Map(sorted, Indices));
    var part := PartUnit(s.name);
    var blockParts := (g: Group<nat>) => multiset(Map(g.members, part));
    forall g | g in sorted ensures blockParts(g) == BlockUnits(BlockOf(s)(g)) {
      MapPermutation(Sort(g.members, ByOffset(s)), g.members, part);
    }
    assert MoeBlocks(s) == Map(sorted, BlockOf(s));
    hide Sort, GroupBy, FileOf, ByFile, Range, BlockUnits, MoeBlocks, BlockOf;
    GatherMap(sorted, BlockOf(s), BlockUnits, blockParts);
    var partsOf := (m: seq<nat>) => multiset(Map(m, part));
    GatherMap(sorted, Indices, partsOf, blockParts);
    MappedParts(Map(sorted, Indices), Range(|s.chunks|), part, partsOf);
  }

  lemma BlocksBytes(s: Source, sorted: seq<Group<nat>>, lists: seq<seq<nat>>)
    requires Direct(s) && lists == Map(sorted, Indices) && MoeBlocks(s) == Map(sorted, BlockOf(s))
    requires multiset(Concat(lists)) == multiset(Range(|s.chunks|))
    ensures Total(MoeBlocks(s), BlockBytes) == SourceBytes(s)
  {
    LengthsOfRange(s, |s.chunks|);
    assert s.chunks[..|s.chunks|] == s.chunks;
    hide Total, Sort, MoeBlocks, Concat, LengthOf, Direct;
    var len := LengthOf(s);
    var sum := (m: seq<nat>) => Total(m, len);
    var groupSum := (g: Group<nat>) => Total(g.members, len);
    TotalMap(sorted, BlockOf(s), BlockBytes, groupSum);
    TotalMap(sorted, Indices, sum, groupSum);
    TotalParts(lists, len, sum);
    TotalPermutation(Concat(lists), Range(|s.chunks|), len);
  }

  lemma {:induction false} LengthsOfRange(s: Source, n: nat)
    requires n <= |s.chunks|
    ensures Total(Range(n), LengthOf(s)) == Total(s.chunks[..n], ChunkLength)
  {
    if n > 0 {
      LengthsOfRange(s, n - 1);
      RangeStep(n - 1);
      TotalSnoc<nat>(Range(n - 1), n - 1, LengthOf(s));
      assert s.chunks[..n] == s.chunks[..n - 1] + [s.chunks[n - 1]];
      TotalSnoc(s.chunks[..n - 1], s.chunks[n - 1], ChunkLength);
    }
  }

  function ByName(): (Source, Source) -> bool {
    (a: Source, b: Source) => StringLeq(a.name, b.name)
  }

  /** The blocks of all direct sources, source by source. */
  function AllBlocks(sources: seq<Source>): seq<SizedBlock> {
    if sources == [] then []
    else
      var last := sources[|sources| - 1];
      AllBlocks(sources[..|sources| - 1]) + if Direct(last) then MoeBlocks(last) else []
  }

  /** Splits the kept sources into the blocks of the direct ones and the sources converted whole. */
  method CollectMoeBlocksByFile(sources: seq<Source>) returns (blocks: seq<SizedBlock>, whole: seq<Source>)
    ensures blocks == AllBlocks(Sort(sources, ByName())) && whole == Filter(sources, NotDirect)
  {
    hide Direct, MoeBlocks, Sort, Filter;
    var sorted := Sort(sources, ByName());
    blocks := [];
    for i := 0 to |sorted|
      invariant blocks == AllBlocks(sorted[..i])
    {
      assert sorted[..i + 1][..i] == sorted[..i];
      var specs := CreateMoeBlockSpecs(sorted[i]);
      if specs.Some? {
        blocks := blocks + specs.value;
      }
    }
    assert sorted[..|sorted|] == sorted;
    whole := Filter(sources, NotDirect);
  }

  lemma {:induction false} AllBlocksPartition(sources: seq<Source>)
    ensures Gather(AllBlocks(sources), BlockUnits) == Gather(Filter(sources, Direct), UnitsOf)
    ensures Total(AllBlocks(sources), BlockBytes) == Total(Filter(sources, Direct), SourceBytes)
  {
    hide Direct, MoeBlocks, BlockUnits, UnitsOf, SourceBytes;
    if sources != [] {
      var front, last := sources[..|sources| - 1], sources[|sources| - 1];
      AllBlocksPartition(front);
      FilterSnoc(front, last, Direct);
      assert sources == front + [last];
      OneMoreSource(AllBlocks(front), Filter(front, Direct), last);
    }
  }

  lemma OneMoreSource(blocks: seq<SizedBlock>, direct: seq<Source>, s: Source)
    requires Gather(blocks, BlockUnits) == Gather(direct, UnitsOf)
    requires Total(blocks, BlockBytes) == Total(direct, SourceBytes)
    ensures var b, d := blocks + (if Direct(s) then MoeBlocks(s) else []), direct + if Direct(s) then [s] else [];
            Gather(b, BlockUnits) == Gather(d, UnitsOf) && Total(b, BlockBytes) == Total(d, SourceBytes)
  {
    if Direct(s) {
      BlocksPartition(s);
      hide *;
      AddDirect(blocks, direct, MoeBlocks(s), s);
    } else {
      hide *;
      assert blocks + [] == blocks && direct + [] == direct;
    }
  }

  lemma AddDirect(blocks: seq<SizedBlock>, direct: seq<Source>, more: seq<SizedBlock>, s: Source)
    requires Gather(blocks, BlockUnits) == Gather(direct, UnitsOf) && Gather(more, BlockUnits) == UnitsOf(s)
    requires Total(blocks, BlockBytes) == Total(direct, SourceBytes) && Total(more, BlockBytes) == SourceBytes(s)
    ensures Gather(blocks + more, BlockUnits) == Gather(direct + [s], UnitsOf)
    ensures Total(blocks + more, BlockBytes) == Total(direct + [s], SourceBytes)
  {
    hide *;
    GatherAppend(blocks, more, BlockUnits);
    TotalAppend(blocks, more, BlockBytes);
    GatherSnoc(direct, s, UnitsOf);
    TotalSnoc(direct, s, SourceBytes);
  }

  // ---------------------------------------------------------------- grouping blocks into tasks

  function ByBlock(): (SizedBlock, SizedBlock) -> bool {
    (a: SizedBlock, b: SizedBlock) =>
      StringLess(a.block.source, b.block.source)
      || (a.block.source == b.block.source && StringLeq(a.block.file, b.block.file))
  }

  predicate StringLess(a: string, b: string) { a != b && StringLeq(a, b) }

  function ByString(): (string, string) -> bool { (a: string, b: string) => StringLeq(a, b) }

  /** The distinct strings of a list. */
  function Unique(s: seq<string>): seq<string> {
    if s == [] then [] else if s[0] in s[1..] then Unique(s[1..]) else [s[0]] + Unique(s[1..])
  }

  function BlockIn(b: SizedBlock): Block { b.block }

  function SourceIn(b: SizedBlock): string { b.block.source }

  function BlockTask(bin: seq<SizedBlock>): TaskSpec {
    TaskSpec(-1, Sort(Unique(Map(bin, SourceIn)), ByString()), Total(bin, BlockBytes), Map(bin, BlockIn))
  }

  function BlockTarget(cap: nat): nat {
    if cap == 0 then DEFAULT_DIRECT_MOE_GROUP_SIZE else cap
  }

  /** Block tasks are the greedy packing of the blocks in source and file order. */
  ghost predicate BlockTasks(blocks: seq<SizedBlock>, cap: nat, tasks: seq<TaskSpec>, bins: seq<seq<SizedBlock>>) {
    GreedyBins(bins, Sort(blocks, ByBlock()), BlockTarget(cap), BlockBytes) && tasks == Map(bins, BlockTask)
  }

  method GroupMoeBlockTasks(blocks: seq<SizedBlock>, cap: nat) returns (tasks: seq<TaskSpec>, ghost bins: seq<seq<SizedBlock>>)
    ensures BlockTasks(blocks, cap, tasks, bins)
  {
    var packed := PackInOrder(Sort(blocks, ByBlock()), BlockTarget(cap), BlockBytes);
    bins := packed;
    tasks := Map(packed, BlockTask);
  }

  function UnitsOfBlock(b: Block): multiset<Unit> { multiset(Map(b.indices, PartUnit(b.source))) }

  /** The work in a task: the chunks of its blocks, or its keys whole. */
  function TaskUnits(t: TaskSpec): multiset<Unit> {
    if t.blocks != [] then Gather(t.blocks, UnitsOfBlock) else multiset(Map(t.keys, WholeUnit))
  }

  function TaskBytes(t: TaskSpec): nat { t.bytes }

  lemma BlockTasksPartition(blocks: seq<SizedBlock>, cap: nat, tasks: seq<TaskSpec>, bins: seq<seq<SizedBlock>>)
    requires BlockTasks(blocks, cap, tasks, bins)
    ensures Gather(tasks, TaskUnits) == Gather(blocks, BlockUnits)
    ensures Total(tasks, TaskBytes) == Total(blocks, BlockBytes)
    ensures forall t :: t in tasks ==> t.blocks != []
  {
    var sorted := Sort(blocks, ByBlock());
    hide GreedyBins, Sort, BlockTask, TaskUnits, BlockUnits, Concat;
    BinsHold(bins, sorted, BlockTarget(cap), BlockBytes);
    TotalPermutation(sorted, blocks, BlockBytes);
    GatherPermutation(sorted, blocks, BlockUnits);
    BlockTasksUnits(bins);
    BlockTasksBytes(bins);
    forall i | 0 <= i < |tasks| ensures tasks[i].blocks != [] {
      BlockTaskHasBlocks(bins[i]);
    }
  }

  /** The block tasks waste at most half of their target. */
  lemma BlockTasksBound(blocks: seq<SizedBlock>, cap: nat, tasks: seq<TaskSpec>, bins: seq<seq<SizedBlock>>)
    requires BlockTasks(blocks, cap, tasks, bins)
    ensures |tasks| >= 2 ==> (|tasks| - 1) * BlockTarget(cap) < 2 * Total(blocks, BlockBytes)
  {
    hide GreedyBins, Sort, BlockTask, BlockTarget;
    TwiceTheTotal(bins, Sort(blocks, ByBlock()), BlockTarget(cap), BlockBytes);
    TotalPermutation(Sort(blocks, ByBlock()), blocks, BlockBytes);
  }

  lemma BinsHold<T>(bins: seq<seq<T>>, items: seq<T>, cap: nat, size: T -> nat)
    requires GreedyBins(bins, items, cap, size)
    ensures Concat(bins) == items && forall i :: 0 <= i < |bins| ==> bins[i] != []
  {}

  lemma BlockTaskHasBlocks(bin: seq<SizedBlock>)
    requires bin != []
    ensures BlockTask(bin).blocks != []
  {}

  lemma BlockTasksUnits(bins: seq<seq<SizedBlock>>)
    requires forall i :: 0 <= i < |bins| ==> bins[i] != []
    ensures Gather(Map(bins, BlockTask), TaskUnits) == Gather(Concat(bins), BlockUnits)
  {
    var unitsIn := (bin: seq<SizedBlock>) => Gather(bin, BlockUnits);
    forall bin | bin in bins ensures unitsIn(bin) == TaskUnits(BlockTask(bin)) {
      assert bin != [];
      GatherMap(bin, BlockIn, UnitsOfBlock, BlockUnits);
    }
    hide BlockTask, TaskUnits, BlockUnits;
    GatherMap(bins, BlockTask, TaskUnits, unitsIn);
    GatherParts(bins, BlockUnits, unitsIn);
  }

  lemma BlockTasksBytes(bins: seq<seq<SizedBlock>>)
    ensures Total(Map(bins, BlockTask), TaskBytes) == Total(Concat(bins), BlockBytes)
  {
    var bytesIn := (bin: seq<SizedBlock>) => Total(bin, BlockBytes);
    TotalMap(bins, BlockTask, TaskBytes, bytesIn);
    TotalParts(bins, BlockBytes, bytesIn);
  }

  // ---------------------------------------------------------------- grouping whole keys into tasks

  const Q_DOWN := "self_attention.linear_q_down_proj.weight"
  const KV_DOWN := "self_attention.linear_kv_down_proj.weight"
  const PAIR := "self_attention.MLA_A_PAIR.weight"

  function MlaPairGroup(key: string): string {
    ReplaceAll(ReplaceAll(key, Q_DOWN, PAIR), KV_DOWN, PAIR)
  }

  /** The two MLA down-projections of a layer share a group. */
  lemma PairSharesGroup(layer: string)
    requires FirstAt(layer, Q_DOWN, []) && FirstAt(layer, KV_DOWN, [])
    requires !Occurs(layer + PAIR, KV_DOWN) && !Occurs(layer + KV_DOWN, Q_DOWN)
    ensures MlaPairGroup(layer + "self_attention.linear_q_down_proj.weight") == layer + "self_attention.MLA_A_PAIR.weight"
    ensures MlaPairGroup(layer + "self_attention.linear_kv_down_proj.weight") == layer + "self_attention.MLA_A_PAIR.weight"
  {
    hide Occurs, FirstAt;
    ReplaceSuffix(layer, Q_DOWN, PAIR);
    ReplaceNothing(layer + PAIR, KV_DOWN, PAIR);
    ReplaceNothing(layer + KV_DOWN, Q_DOWN, PAIR);
    ReplaceSuffix(layer, KV_DOWN, PAIR);
  }

  /** Keys with the same group are converted together. */
  function KeyGroup(qLora: bool, key: string): string {
    if qLora then MlaPairGroup(key) else key
  }

  function GroupName(qLora: bool): Source -> string {
    (s: Source) => KeyGroup(qLora, s.name)
  }

  function WholeBytes(s: Source): nat { s.bytes }

  function AtomicBytes(a: Atomic): nat { a.bytes }

  function KeysIn(a: Atomic): multiset<string> { multiset(a.keys) }

  function KeyList(a: Atomic): seq<string> { a.keys }

  function AtomicOf(g: Group<Source>): Atomic {
    Atomic(Total(g.members, WholeBytes), Sort(Map(g.members, NameOf), ByString()))
  }

  function Atomics(whole: seq<Source>, qLora: bool): seq<Atomic> {
    Map(GroupBy(whole, GroupName(qLora)), AtomicOf)
  }

  function Sources(g: Group<Source>): seq<Source> { g.members }

  /** Several atomic tasks as one. */
  function Merge(bin: seq<Atomic>): Atomic {
    Atomic(Total(bin, AtomicBytes), Sort(Concat(Map(bin, KeyList)), ByString()))
  }

  predicate KeysLeq(a: seq<string>, b: seq<string>) {
    a == [] || (b != [] && (StringLess(a[0], b[0]) || (a[0] == b[0] && KeysLeq(a[1..], b[1..]))))
  }

  /** Larger first, then by keys. */
  function BySize(): (Atomic, Atomic) -> bool {
    (a: Atomic, b: Atomic) => a.bytes > b.bytes || (a.bytes == b.bytes && KeysLeq(a.keys, b.keys))
  }

  function AtLeast(cap: nat): Atomic -> bool { (a: Atomic) => a.bytes >= cap }

  function Below(cap: nat): Atomic -> bool { (a: Atomic) => a.bytes < cap }

  /** Without a target nothing is grouped; otherwise large tasks stay alone and small ones are packed, larger first. */
  ghost predicate GroupedSmall(atomics: seq<Atomic>, cap: nat, tasks: seq<Atomic>, bins: seq<seq<Atomic>>) {
    if cap == 0 then tasks == atomics && bins == []
    else GreedyBins(bins, Sort(Filter(atomics, Below(cap)), BySize()), cap, AtomicBytes)
         && tasks == Filter(atomics, AtLeast(cap)) + Map(bins, Merge)
  }

  method GroupSmallTasks(atomics: seq<Atomic>, cap: nat) returns (tasks: seq<Atomic>, ghost bins: seq<seq<Atomic>>)
    ensures GroupedSmall(atomics, cap, tasks, bins)
  {
    if cap <= 0 {
      return atomics, [];
    }
    var packed := PackInOrder(Sort(Filter(atomics, Below(cap)), BySize()), cap, AtomicBytes);
    bins := packed;
    tasks := Filter(atomics, AtLeast(cap)) + Map(packed, Merge);
  }

  lemma MergeKeeps(bins: seq<seq<Atomic>>)
    ensures Gather(Map(bins, Merge), KeysIn) == Gather(Concat(bins), KeysIn)
    ensures Total(Map(bins, Merge), AtomicBytes) == Total(Concat(bins), AtomicBytes)
  {
    var keysIn := (bin: seq<Atomic>) => Gather(bin, KeysIn);
    var bytesIn := (bin: seq<Atomic>) => Total(bin, AtomicBytes);
    forall bin | bin in bins ensures keysIn(bin) == KeysIn(Merge(bin)) {
      KeysOfBin(bin);
    }
    assert forall bin :: bytesIn(bin) == AtomicBytes(Merge(bin));
    hide Merge, KeysIn;
    GatherMap(bins, Merge, KeysIn, keysIn);
    GatherParts(bins, KeysIn, keysIn);
    TotalMap(bins, Merge, AtomicBytes, bytesIn);
    TotalParts(bins, AtomicBytes, bytesIn);
  }

  lemma KeysOfBin(bin: seq<Atomic>)
    ensures multiset(Concat(Map(bin, KeyList))) == Gather(bin, KeysIn)
  {
    ConcatMultiset(Map(bin, KeyList));
    GatherMap(bin, KeyList, (k: seq<string>) => multiset(k), KeysIn);
    GatherCongruent(Map(bin, KeyList), (k: seq<string>) => multiset(k), (k: seq<string>) => multiset(k));
  }

  /** Grouping loses and repeats no key and no byte. */
  lemma GroupingConserves(atomics: seq<Atomic>, cap: nat, tasks: seq<Atomic>, bins: seq<seq<Atomic>>)
    requires GroupedSmall(atomics, cap, tasks, bins)
    ensures Gather(tasks, KeysIn) == Gather(atomics, KeysIn)
    ensures Total(tasks, AtomicBytes) == Total(atomics, AtomicBytes)
  {
    if cap > 0 {
      var large, small := Filter(atomics, AtLeast(cap)), Filter(atomics, Below(cap));
      var sorted := Sort(small, BySize());
      BinsHold(bins, sorted, cap, AtomicBytes);
      hide GroupedSmall, GreedyBins, Sort, KeysIn, Merge;
      MergeKeeps(bins);
      GatherPermutation(sorted, small, KeysIn);
      TotalPermutation(sorted, small, AtomicBytes);
      GatherAppend(large, Map(bins, Merge), KeysIn);
      TotalAppend(large, Map(bins, Merge), AtomicBytes);
      GatherFilter(atomics, AtLeast(cap), Below(cap), KeysIn);
      TotalFilter(atomics, AtLeast(cap), Below(cap), AtomicBytes);
    }
  }

  /** Keys that must stay together do. */
  lemma GroupingKeepsTogether(atomics: seq<Atomic>, cap: nat, tasks: seq<Atomic>, bins: seq<seq<Atomic>>, a: Atomic)
    returns (t: Atomic)
    requires GroupedSmall(atomics, cap, tasks, bins) && a in atomics
    ensures t in tasks && forall k :: k in a.keys ==> k in t.keys
  {
    if cap > 0 && a.bytes < cap {
      hide GreedyBins, Sort, Merge;
      t := KeptSmall(Filter(atomics, AtLeast(cap)), Filter(atomics, Below(cap)), cap, bins, a);
    } else {
      hide GreedyBins, Sort, Merge;
      t := a;
      assert cap > 0 ==> a in Filter(atomics, AtLeast(cap));
    }
  }

  lemma KeptSmall(large: seq<Atomic>, small: seq<Atomic>, cap: nat, bins: seq<seq<Atomic>>, a: Atomic) returns (t: Atomic)
    requires GreedyBins(bins, Sort(small, BySize()), cap, AtomicBytes) && a in small
    ensures t in large + Map(bins, Merge) && forall k :: k in a.keys ==> k in t.keys
  {
    hide *;
    var bin := BinOf(bins, small, cap, a);
    MergeHolds(bin, a);
    t := Merge(bin);
    var i :| 0 <= i < |bins| && bins[i] == bin;
    assert (large + Map(bins, Merge))[|large| + i] == t;
  }

  lemma BinOf(bins: seq<seq<Atomic>>, small: seq<Atomic>, cap: nat, a: Atomic) returns (bin: seq<Atomic>)
    requires GreedyBins(bins, Sort(small, BySize()), cap, AtomicBytes) && a in small
    ensures bin in bins && a in bin
  {
    hide *;
    var sorted := Sort(small, BySize());
    assert a in multiset(small) && a in multiset(sorted);
    BinsHold(bins, sorted, cap, AtomicBytes);
    InConcat(bins, a);
    var i :| 0 <= i < |bins| && a in bins[i];
    bin := bins[i];
  }

  lemma MergeHolds(bin: seq<Atomic>, a: Atomic)
    requires a in bin
    ensures forall k :: k in a.keys ==> k in Merge(bin).keys
  {
    forall k | k in a.keys ensures k in Merge(bin).keys {
      InMerge(bin, a, k);
    }
  }

  lemma InMerge(bin: seq<Atomic>, a: Atomic, k: string)
    requires a in bin && k in a.keys
    ensures k in Merge(bin).keys
  {
    var i :| 0 <= i < |bin| && bin[i] == a;
    var lists := Map(bin, KeyList);
    assert k in lists[i];
    InConcat(lists, k);
    assert k in multiset(Sort(Concat(lists), ByString()));
  }

  /** The packed tasks waste at most half, and none of them exceeds the target. */
  lemma GroupingBound(atomics: seq<Atomic>, cap: nat, tasks: seq<Atomic>, bins: seq<seq<Atomic>>)
    requires GroupedSmall(atomics, cap, tasks, bins) && cap > 0
    ensures |bins| >= 2 ==> (|bins| - 1) * cap < 2 * Total(Filter(atomics, Below(cap)), AtomicBytes)
    ensures forall bin :: bin in bins ==> Merge(bin).bytes <= cap
  {
    var small := Filter(atomics, Below(cap));
    var sorted := Sort(small, BySize());
    forall x | x in sorted ensures x.bytes < cap {
      assert x in multiset(sorted) && x in small;
    }
    forall bin | bin in bins ensures Merge(bin).bytes <= cap {
      PackedBelow(bins, sorted, cap, bin);
    }
    hide GreedyBins, Sort, Filter, Merge;
    TwiceTheTotal(bins, sorted, cap, AtomicBytes);
    TotalPermutation(sorted, small, AtomicBytes);
  }

  lemma PackedBelow(bins: seq<seq<Atomic>>, items: seq<Atomic>, cap: nat, bin: seq<Atomic>)
    requires GreedyBins(bins, items, cap, AtomicBytes) && bin in bins && forall x :: x in items ==> x.bytes < cap
    ensures Total(bin, AtomicBytes) <= cap
  {
    var i :| 0 <= i < |bins| && bins[i] == bin;
    assert bin[0] in bins[i];
    InConcat(bins, bin[0]);
    if |bin| == 1 {
      assert bin[1..] == [] && Total(bin, AtomicBytes) == AtomicBytes(bin[0]) + Total(bin[1..], AtomicBytes);
    }
  }

  /** Without MLA pairs and without a target, every whole key is a task of its own. */
  lemma AloneWithoutGrouping(whole: seq<Source>, raw: seq<Atomic>, bins: seq<seq<Atomic>>, a: Atomic)
    requires DistinctNames(whole) && GroupedSmall(Atomics(whole, false), 0, raw, bins) && a in raw
    ensures |a.keys| == 1
  {
    var g := GroupOfAtomic(whole, false, a);
    if |g.members| > 1 {
      var x, y := g.members[0], g.members[1];
      assert GroupName(false)(x) == GroupName(false)(y);
      hide AtomicOf, KeyGroup;
      var groups := GroupBy(whole, GroupName(false));
      var i :| 0 <= i < |groups| && groups[i] == g;
      GroupByIsGrouped(whole, GroupName(false));
      MemberOfAll(groups, i, x, y);
      SameNameSameSource(whole, x, y);
      OnceInDistinct(whole, x);
    }
  }

  lemma SameNameSameSource(whole: seq<Source>, x: Source, y: Source)
    requires DistinctNames(whole) && x in whole && y in whole && x.name == y.name
    ensures x == y
  {}

  /** Two members of one group are in the sum over all groups, twice if they are equal. */
  lemma {:induction false} MemberOfAll(groups: seq<Group<Source>>, i: nat, x: Source, y: Source)
    requires i < |groups| && |groups[i].members| > 1 && groups[i].members[0] == x && groups[i].members[1] == y
    ensures x in Gather(groups, Members) && y in Gather(groups, Members)
    ensures x == y ==> Gather(groups, Members)[x] >= 2
  {
    if i > 0 {
      MemberOfAll(groups[1..], i - 1, x, y);
    } else {
      var m := groups[0].members;
      assert m == [x, y] + m[2..];
    }
  }

  lemma {:induction false} OnceInDistinct(sources: seq<Source>, s: Source)
    requires DistinctNames(sources)
    ensures multiset(sources)[s] <= 1
  {
    if sources != [] {
      OnceInDistinct(sources[1..], s);
      assert sources == [sources[0]] + sources[1..];
      if sources[0] == s {
        assert s !in sources[1..];
      }
    }
  }

  lemma AtomicsConserve(whole: seq<Source>, qLora: bool)
    ensures Gather(Atomics(whole, qLora), KeysIn) == multiset(Map(whole, NameOf))
    ensures Total(Atomics(whole, qLora), AtomicBytes) == Total(whole, WholeBytes)
  {
    var groups := GroupBy(whole, GroupName(qLora));
    GroupByIsGrouped(whole, GroupName(qLora));
    var lists := Map(groups, Sources);
    hide GroupBy, GroupName, NameOf;
    GatherMap(groups, Sources, (m: seq<Source>) => multiset(m), Members);
    GatherCongruent(lists, (m: seq<Source>) => multiset(m), (m: seq<Source>) => multiset(m));
    ConcatMultiset(lists);
    var names := (m: seq<Source>) => multiset(Map(m, NameOf));
    var groupNames := (g: Group<Source>) => multiset(Map(g.members, NameOf));
    GatherMap(groups, AtomicOf, KeysIn, groupNames);
    GatherMap(groups, Sources, names, groupNames);
    MappedParts(lists, whole, NameOf, names);
    AtomicsBytes(groups, lists, whole);
  }

  lemma AtomicsBytes(groups: seq<Group<Source>>, lists: seq<seq<Source>>, whole: seq<Source>)
    requires lists == Map(groups, Sources) && multiset(Concat(lists)) == multiset(whole)
    ensures Total(Map(groups, AtomicOf), AtomicBytes) == Total(whole, WholeBytes)
  {
    var sum := (m: seq<Source>) => Total(m, WholeBytes);
    var groupSum := (g: Group<Source>) => Total(g.members, WholeBytes);
    TotalMap(groups, AtomicOf, AtomicBytes, groupSum);
    TotalMap(groups, Sources, sum, groupSum);
    TotalParts(lists, WholeBytes, sum);
    TotalPermutation(Concat(lists), whole, WholeBytes);
  }

  function WholeTask(a: Atomic): TaskSpec { TaskSpec(-1, a.keys, a.bytes, []) }

  /** Task ids in the order of the list. */
  function Numbered(tasks: seq<TaskSpec>): (r: seq<TaskSpec>)
    ensures |r| == |tasks| && forall i :: 0 <= i < |tasks| ==> r[i] == tasks[i].(id := i)
  {
    seq(|tasks|, i requires 0 <= i < |tasks| => tasks[i].(id := i))
  }

  function Unnumbered(t: TaskSpec): TaskSpec { t.(id := -1) }

  /** The source keys converted whole, as tasks: larger first, numbered. */
  method PlanWholeSourceTasks(whole: seq<Source>, qLora: bool, cap: nat)
    returns (tasks: seq<TaskSpec>, ghost raw: seq<Atomic>, ghost bins: seq<seq<Atomic>>)
    ensures GroupedSmall(Atomics(whole, qLora), cap, raw, bins)
    ensures tasks == Numbered(Map(Sort(raw, BySize()), WholeTask))
  {
    var groups := GroupByKey(whole, GroupName(qLora));
    var grouped, packed := GroupSmallTasks(Map(groups, AtomicOf), cap);
    raw, bins := grouped, packed;
    tasks := Numbered(Map(Sort(grouped, BySize()), WholeTask));
  }

  function SortKey(t: TaskSpec): seq<string> {
    (if t.blocks != [] then [t.blocks[0].source, t.blocks[0].file] else if t.keys != [] then [t.keys[0], ""] else ["", ""]) + t.keys
  }

  /** Larger first, then by first source key, file and keys. */
  function ByTask(): (TaskSpec, TaskSpec) -> bool {
    (a: TaskSpec, b: TaskSpec) => a.bytes > b.bytes || (a.bytes == b.bytes && KeysLeq(SortKey(a), SortKey(b)))
  }

  lemma {:induction false} KeysLeqConnected(a: seq<string>, b: seq<string>)
    ensures KeysLeq(a, b) || KeysLeq(b, a)
  {
    if a != [] && b != [] {
      StringLeqConnected(a[0], b[0]);
      if a[0] == b[0] {
        KeysLeqConnected(a[1..], b[1..]);
      }
    }
  }

  lemma ByTaskConnected()
    ensures Connected(ByTask())
  {
    forall a, b ensures ByTask()(a, b) || ByTask()(b, a) {
      KeysLeqConnected(SortKey(a), SortKey(b));
    }
  }

  /** What the plan does for the sources: the tasks are numbered in order, larger first; together they do every
      source's work exactly once, and their bytes add up to the sources'. */
  ghost predicate IsPlan(sources: seq<Source>, tasks: seq<TaskSpec>) {
    && (forall i :: 0 <= i < |tasks| ==> tasks[i].id == i)
    && (forall i :: 0 < i < |tasks| ==> tasks[i - 1].bytes >= tasks[i].bytes)
    && Gather(tasks, TaskUnits) == Gather(sources, UnitsOf)
    && Total(tasks, TaskBytes) == Total(sources, SourceBytes)
  }

  /** What a plan is put together from: the tasks of blocks and the bins they were packed from, and the same for whole keys. */
  datatype PlanParts = PlanParts(blockTasks: seq<TaskSpec>, blockBins: seq<seq<SizedBlock>>, raw: seq<Atomic>, bins: seq<seq<Atomic>>)

  /** Blocks and whole keys are grouped separately, and the tasks of both sorted and numbered together. */
  ghost predicate PlannedFrom(sources: seq<Source>, qLora: bool, cap: nat, tasks: seq<TaskSpec>, parts: PlanParts) {
    && BlockTasks(AllBlocks(Sort(sources, ByName())), cap, parts.blockTasks, parts.blockBins)
    && GroupedSmall(Atomics(Filter(sources, NotDirect), qLora), cap, parts.raw, parts.bins)
    && exists wholeTasks :: wholeTasks == Numbered(Map(Sort(parts.raw, BySize()), WholeTask))
                            && tasks == Numbered(Sort(parts.blockTasks + Map(wholeTasks, Unnumbered), ByTask()))
  }

  /** The plan of a conversion: `cap` is the task group target, `qLora` whether MLA pairs are grouped. */
  method PlanConversionTasks(sources: seq<Source>, qLora: bool, cap: nat) returns (tasks: seq<TaskSpec>, ghost parts: PlanParts)
    ensures PlannedFrom(sources, qLora, cap, tasks, parts)
    ensures IsPlan(sources, tasks)
    ensures qLora ==> PairsTogether(sources, tasks)
    ensures cap == 0 ==> GroupsApart(qLora, tasks)
  {
    hide *;
    var blocks, whole := CollectMoeBlocksByFile(sources);
    var blockTasks, blockBins := GroupMoeBlockTasks(blocks, cap);
    var wholeTasks, raw, bins := PlanWholeSourceTasks(whole, qLora, cap);
    var all := blockTasks + Map(wholeTasks, Unnumbered);
    tasks := Numbered(Sort(all, ByTask()));
    parts := PlanParts(blockTasks, blockBins, raw, bins);
    PlanFromParts(sources, qLora, cap, wholeTasks, tasks, parts);
    PlanIsPartition(sources, qLora, cap, blockTasks, blockBins, raw, bins, wholeTasks, tasks);
    if qLora {
      PlanKeepsPairs(sources, cap, blockTasks, raw, bins, wholeTasks, tasks);
    }
    if cap == 0 {
      PlanKeepsApart(sources, qLora, blockTasks, blockBins, raw, bins, wholeTasks, tasks);
    }
  }

  lemma PlanFromParts(sources: seq<Source>, qLora: bool, cap: nat, wholeTasks: seq<TaskSpec>, tasks: seq<TaskSpec>, parts: PlanParts)
    requires BlockTasks(AllBlocks(Sort(sources, ByName())), cap, parts.blockTasks, parts.blockBins)
    requires GroupedSmall(Atomics(Filter(sources, NotDirect), qLora), cap, parts.raw, parts.bins)
    requires wholeTasks == Numbered(Map(Sort(parts.raw, BySize()), WholeTask))
    requires tasks == Numbered(Sort(parts.blockTasks + Map(wholeTasks, Unnumbered), ByTask()))
    ensures PlannedFrom(sources, qLora, cap, tasks, parts)
  {}

  /** Whole keys of different groups are in different tasks. */
  ghost predicate GroupsApart(qLora: bool, tasks: seq<TaskSpec>) {
    forall t, x, y :: t in tasks && t.blocks == [] && x in t.keys && y in t.keys ==> KeyGroup(qLora, x) == KeyGroup(qLora, y)
  }

  lemma KeysOfOneGroup(whole: seq<Source>, qLora: bool, a: Atomic, x: string, y: string)
    requires a in Atomics(whole, qLora) && x in a.keys && y in a.keys
    ensures KeyGroup(qLora, x) == KeyGroup(qLora, y)
  {
    hide *;
    var g := GroupOfAtomic(whole, qLora, a);
    KeyInGroup(g, qLora, x);
    KeyInGroup(g, qLora, y);
  }

  lemma GroupOfAtomic(whole: seq<Source>, qLora: bool, a: Atomic) returns (g: Group<Source>)
    requires a in Atomics(whole, qLora)
    ensures g in GroupBy(whole, GroupName(qLora)) && a == AtomicOf(g) && WellGrouped(g, GroupName(qLora))
  {
    hide AtomicOf, Gather, GroupBy, GroupName;
    var groups := GroupBy(whole, GroupName(qLora));
    GroupByIsGrouped(whole, GroupName(qLora));
    var i :| 0 <= i < |groups| && a == AtomicOf(groups[i]);
    g := groups[i];
  }

  lemma KeyInGroup(g: Group<Source>, qLora: bool, x: string)
    requires WellGrouped(g, GroupName(qLora)) && x in AtomicOf(g).keys
    ensures KeyGroup(qLora, x) == g.key
  {
    KeyHasMember(g, x);
    hide AtomicOf, KeyGroup;
    var k :| 0 <= k < |g.members| && g.members[k].name == x;
    assert GroupName(qLora)(g.members[k]) == g.key;
  }

  lemma KeyHasMember(g: Group<Source>, x: string)
    requires x in AtomicOf(g).keys
    ensures exists k :: 0 <= k < |g.members| && g.members[k].name == x
  {
    assert x in multiset(AtomicOf(g).keys) && x in multiset(Map(g.members, NameOf));
    var k :| 0 <= k < |g.members| && Map(g.members, NameOf)[k] == x;
  }

  /** Without a target, the tasks are the atomic ones. */
  lemma PlanKeepsApart(sources: seq<Source>, qLora: bool, blockTasks: seq<TaskSpec>, blockBins: seq<seq<SizedBlock>>,
                       raw: seq<Atomic>, bins: seq<seq<Atomic>>, wholeTasks: seq<TaskSpec>, tasks: seq<TaskSpec>)
    requires BlockTasks(AllBlocks(Sort(sources, ByName())), 0, blockTasks, blockBins)
    requires GroupedSmall(Atomics(Filter(sources, NotDirect), qLora), 0, raw, bins)
    requires wholeTasks == Numbered(Map(Sort(raw, BySize()), WholeTask))
    requires tasks == Numbered(Sort(blockTasks + Map(wholeTasks, Unnumbered), ByTask()))
    ensures GroupsApart(qLora, tasks)
  {
    hide BlockTasks, Atomics, Sort, KeyGroup;
    BlockTasksPartition(AllBlocks(Sort(sources, ByName())), 0, blockTasks, blockBins);
    forall t, x, y | t in tasks && t.blocks == [] && x in t.keys && y in t.keys ensures KeyGroup(qLora, x) == KeyGroup(qLora, y) {
      var r := RawOfTask(blockTasks, raw, wholeTasks, tasks, t);
      KeysOfOneGroup(Filter(sources, NotDirect), qLora, r, x, y);
    }
  }

  /** A task of whole keys is one of the raw ones. */
  lemma RawOfTask(blockTasks: seq<TaskSpec>, raw: seq<Atomic>, wholeTasks: seq<TaskSpec>, tasks: seq<TaskSpec>, t: TaskSpec)
    returns (r: Atomic)
    requires wholeTasks == Numbered(Map(Sort(raw, BySize()), WholeTask))
    requires tasks == Numbered(Sort(blockTasks + Map(wholeTasks, Unnumbered), ByTask()))
    requires (forall b :: b in blockTasks ==> b.blocks != []) && t in tasks && t.blocks == []
    ensures r in raw && t.keys == r.keys
  {
    hide Sort;
    var sorted, all := Sort(raw, BySize()), blockTasks + Map(wholeTasks, Unnumbered);
    var s := Sort(all, ByTask());
    var i :| 0 <= i < |tasks| && tasks[i] == t;
    InPermutation(s, all, s[i]);
    var k :| 0 <= k < |wholeTasks| && Unnumbered(wholeTasks[k]) == s[i];
    r := sorted[k];
    InPermutation(sorted, raw, r);
  }

  /** Any two source keys that are converted whole and form an MLA pair are converted by one task. */
  ghost predicate PairsTogether(sources: seq<Source>, tasks: seq<TaskSpec>) {
    forall a, b :: a in sources && b in sources && !Direct(a) && !Direct(b) && MlaPairGroup(a.name) == MlaPairGroup(b.name) ==>
      exists t :: t in tasks && t.blocks == [] && a.name in t.keys && b.name in t.keys
  }

  lemma WholeTasksConserve(whole: seq<Source>, qLora: bool, cap: nat, raw: seq<Atomic>, bins: seq<seq<Atomic>>)
    requires GroupedSmall(Atomics(whole, qLora), cap, raw, bins)
    ensures Gather(Map(Sort(raw, BySize()), WholeTask), TaskUnits) == multiset(Map(Map(whole, NameOf), WholeUnit))
    ensures Total(Map(Sort(raw, BySize()), WholeTask), TaskBytes) == Total(whole, WholeBytes)
  {
    GroupingConserves(Atomics(whole, qLora), cap, raw, bins);
    AtomicsConserve(whole, qLora);
    var sorted := Sort(raw, BySize());
    GatherPermutation(sorted, raw, KeysIn);
    TotalPermutation(sorted, raw, AtomicBytes);
    hide Atomics, GroupedSmall, Sort;
    TotalMap(sorted, WholeTask, TaskBytes, AtomicBytes);
    var units := (a: Atomic) => multiset(Map(a.keys, WholeUnit));
    var unitsIn := (k: seq<string>) => multiset(Map(k, WholeUnit));
    GatherMap(sorted, WholeTask, TaskUnits, units);
    GatherMap(sorted, KeyList, unitsIn, units);
    GatherMap(sorted, KeyList, (k: seq<string>) => multiset(k), KeysIn);
    GatherCongruent(Map(sorted, KeyList), (k: seq<string>) => multiset(k), (k: seq<string>) => multiset(k));
    ConcatMultiset(Map(sorted, KeyList));
    MappedParts(Map(sorted, KeyList), Map(whole, NameOf), WholeUnit, unitsIn);
  }

  lemma NumberedConserves(tasks: seq<TaskSpec>)
    ensures Gather(Numbered(tasks), TaskUnits) == Gather(tasks, TaskUnits)
    ensures Total(Numbered(tasks), TaskBytes) == Total(tasks, TaskBytes)
    ensures Map(Numbered(tasks), Unnumbered) == Map(tasks, Unnumbered)
  {
    assert Map(Numbered(tasks), Unnumbered) == Map(tasks, Unnumbered);
    GatherMap(tasks, Unnumbered, TaskUnits, TaskUnits);
    GatherMap(Numbered(tasks), Unnumbered, TaskUnits, TaskUnits);
    TotalMap(tasks, Unnumbered, TaskBytes, TaskBytes);
    TotalMap(Numbered(tasks), Unnumbered, TaskBytes, TaskBytes);
  }

  lemma {:induction false} WholeUnits(whole: seq<Source>)
    requires forall s :: s in whole ==> !Direct(s)
    ensures multiset(Map(Map(whole, NameOf), WholeUnit)) == Gather(whole, UnitsOf)
    ensures Total(whole, WholeBytes) == Total(whole, SourceBytes)
  {
    hide Direct, Map, UnitsOf, SourceBytes;
    if whole == [] {
      assert Map(Map(whole, NameOf), WholeUnit) == [];
    } else {
      var front, last := whole[..|whole| - 1], whole[|whole| - 1];
      WholeUnits(front);
      assert whole == front + [last];
      OneWhole(last);
      hide *;
      MapSnoc(front, last, NameOf);
      MapSnoc(Map(front, NameOf), last.name, WholeUnit);
      AddWhole(front, last, Map(Map(front, NameOf), WholeUnit));
    }
  }

  lemma AddWhole(front: seq<Source>, s: Source, units: seq<Unit>)
    requires multiset(units) == Gather(front, UnitsOf) && Total(front, WholeBytes) == Total(front, SourceBytes)
    requires UnitsOf(s) == multiset{Whole(s.name)} && SourceBytes(s) == WholeBytes(s)
    ensures multiset(units + [Whole(s.name)]) == Gather(front + [s], UnitsOf)
    ensures Total(front + [s], WholeBytes) == Total(front + [s], SourceBytes)
  {
    hide *;
    GatherSnoc(front, s, UnitsOf);
    TotalSnoc(front, s, WholeBytes);
    TotalSnoc(front, s, SourceBytes);
  }

  lemma OneWhole(s: Source)
    requires !Direct(s)
    ensures UnitsOf(s) == multiset{Whole(s.name)} && SourceBytes(s) == WholeBytes(s)
    ensures NameOf(s) == s.name && WholeUnit(s.name) == Whole(s.name)
  {}

  lemma PlanIsPartition(sources: seq<Source>, qLora: bool, cap: nat, blockTasks: seq<TaskSpec>, blockBins: seq<seq<SizedBlock>>,
                        raw: seq<Atomic>, bins: seq<seq<Atomic>>, wholeTasks: seq<TaskSpec>, tasks: seq<TaskSpec>)
    requires BlockTasks(AllBlocks(Sort(sources, ByName())), cap, blockTasks, blockBins)
    requires GroupedSmall(Atomics(Filter(sources, NotDirect), qLora), cap, raw, bins)
    requires wholeTasks == Numbered(Map(Sort(raw, BySize()), WholeTask))
    requires tasks == Numbered(Sort(blockTasks + Map(wholeTasks, Unnumbered), ByTask()))
    ensures IsPlan(sources, tasks)
  {
    LargerFirst(blockTasks + Map(wholeTasks, Unnumbered));
    hide TaskUnits, UnitsOf, SourceBytes, ByTask, BlockTasks, GroupedSmall, AllBlocks, Atomics, Filter, Sort, Map;
    PlanConserves(sources, qLora, cap, blockTasks, blockBins, raw, bins);
    TasksConserve(blockTasks, Map(Sort(raw, BySize()), WholeTask));
  }

  lemma TasksConserve(blockTasks: seq<TaskSpec>, w: seq<TaskSpec>)
    ensures var tasks := Numbered(Sort(blockTasks + Map(Numbered(w), Unnumbered), ByTask()));
            && Gather(tasks, TaskUnits) == Gather(blockTasks, TaskUnits) + Gather(w, TaskUnits)
            && Total(tasks, TaskBytes) == Total(blockTasks, TaskBytes) + Total(w, TaskBytes)
  {
    var again := Map(Numbered(w), Unnumbered);
    var all := blockTasks + again;
    var sorted := Sort(all, ByTask());
    IdsDoNotMatter();
    NumberedConserves(w);
    NumberedConserves(sorted);
    hide TaskUnits, Sort, Map;
    GatherMap(Numbered(w), Unnumbered, TaskUnits, TaskUnits);
    TotalMap(Numbered(w), Unnumbered, TaskBytes, TaskBytes);
    GatherPermutation(sorted, all, TaskUnits);
    TotalPermutation(sorted, all, TaskBytes);
    GatherAppend(blockTasks, again, TaskUnits);
    TotalAppend(blockTasks, again, TaskBytes);
  }

  lemma IdsDoNotMatter()
    ensures forall t: TaskSpec :: TaskUnits(Unnumbered(t)) == TaskUnits(t)
  {}

  lemma LargerFirst(tasks: seq<TaskSpec>)
    ensures var r := Numbered(Sort(tasks, ByTask())); forall i :: 0 < i < |r| ==> r[i - 1].bytes >= r[i].bytes
  {
    ByTaskConnected();
    SortOrdered(tasks, ByTask());
    var s := Sort(tasks, ByTask());
    forall i | 0 < i < |s| ensures s[i - 1].bytes >= s[i].bytes {
      assert ByTask()(s[i - 1], s[i]);
    }
  }

  lemma PlanConserves(sources: seq<Source>, qLora: bool, cap: nat, blockTasks: seq<TaskSpec>, blockBins: seq<seq<SizedBlock>>,
                      raw: seq<Atomic>, bins: seq<seq<Atomic>>)
    requires BlockTasks(AllBlocks(Sort(sources, ByName())), cap, blockTasks, blockBins)
    requires GroupedSmall(Atomics(Filter(sources, NotDirect), qLora), cap, raw, bins)
    ensures var w := Map(Sort(raw, BySize()), WholeTask);
            && Gather(blockTasks, TaskUnits) + Gather(w, TaskUnits) == Gather(sources, UnitsOf)
            && Total(blockTasks, TaskBytes) + Total(w, TaskBytes) == Total(sources, SourceBytes)
  {
    var sorted, whole := Sort(sources, ByName()), Filter(sources, NotDirect);
    hide BlockTasks, GroupedSmall, AllBlocks, TaskUnits, UnitsOf, SourceBytes, Atomics, Sort, TaskBytes;
    BlockTasksPartition(AllBlocks(sorted), cap, blockTasks, blockBins);
    AllBlocksPartition(sorted);
    FilterPermutation(sorted, sources, Direct);
    GatherPermutation(Filter(sorted, Direct), Filter(sources, Direct), UnitsOf);
    TotalPermutation(Filter(sorted, Direct), Filter(sources, Direct), SourceBytes);
    WholeTasksConserve(whole, qLora, cap, raw, bins);
    WholeUnits(whole);
    GatherFilter(sources, Direct, NotDirect, UnitsOf);
    TotalFilter(sources, Direct, NotDirect, SourceBytes);
  }

  lemma FilterPermutation(s: seq<Source>, t: seq<Source>, p: Source -> bool)
    requires multiset(s) == multiset(t)
    ensures multiset(Filter(s, p)) == multiset(Filter(t, p))
  {
    var keep := (x: Source) => if p(x) then multiset{x} else multiset{};
    FilterIsGather(s, p, keep);
    FilterIsGather(t, p, keep);
    GatherPermutation(s, t, keep);
  }

  lemma {:induction false} FilterIsGather(s: seq<Source>, p: Source -> bool, keep: Source -> multiset<Source>)
    requires forall x :: keep(x) == if p(x) then multiset{x} else multiset{}
    ensures multiset(Filter(s, p)) == Gather(s, keep)
  {
    if s != [] {
      FilterIsGather(s[1..], p, keep);
    }
  }

  lemma PlanKeepsPairs(sources: seq<Source>, cap: nat, blockTasks: seq<TaskSpec>, raw: seq<Atomic>,
                       bins: seq<seq<Atomic>>, wholeTasks: seq<TaskSpec>, tasks: seq<TaskSpec>)
    requires GroupedSmall(Atomics(Filter(sources, NotDirect), true), cap, raw, bins)
    requires wholeTasks == Numbered(Map(Sort(raw, BySize()), WholeTask))
    requires tasks == Numbered(Sort(blockTasks + Map(wholeTasks, Unnumbered), ByTask()))
    ensures PairsTogether(sources, tasks)
  {
    forall a, b | a in sources && b in sources && !Direct(a) && !Direct(b) && MlaPairGroup(a.name) == MlaPairGroup(b.name)
      ensures exists t :: t in tasks && t.blocks == [] && a.name in t.keys && b.name in t.keys
    {
      var whole := Filter(sources, NotDirect);
      var i := SameKeySameGroup(whole, GroupName(true), a, b);
      var g := GroupBy(whole, GroupName(true))[i];
      NameInAtomic(g, a);
      NameInAtomic(g, b);
      assert Atomics(whole, true)[i] == AtomicOf(g);
      var r := GroupingKeepsTogether(Atomics(whole, true), cap, raw, bins, AtomicOf(g));
      TaskOfRaw(blockTasks, raw, wholeTasks, tasks, r);
    }
  }

  lemma NameInAtomic(g: Group<Source>, s: Source)
    requires s in g.members
    ensures s.name in AtomicOf(g).keys
  {
    var i :| 0 <= i < |g.members| && g.members[i] == s;
    assert Map(g.members, NameOf)[i] == s.name;
    assert s.name in multiset(AtomicOf(g).keys);
  }

  lemma TaskOfRaw(blockTasks: seq<TaskSpec>, raw: seq<Atomic>, wholeTasks: seq<TaskSpec>, tasks: seq<TaskSpec>, r: Atomic)
    requires wholeTasks == Numbered(Map(Sort(raw, BySize()), WholeTask))
    requires tasks == Numbered(Sort(blockTasks + Map(wholeTasks, Unnumbered), ByTask()))
    requires r in raw
    ensures exists t :: t in tasks && t.blocks == [] && t.keys == r.keys
  {
    hide Sort;
    var sorted, all := Sort(raw, BySize()), blockTasks + Map(wholeTasks, Unnumbered);
    InPermutation(sorted, raw, r);
    var i :| 0 <= i < |sorted| && sorted[i] == r;
    assert all[|blockTasks| + i] == WholeTask(r);
    var s := Sort(all, ByTask());
    InPermutation(s, all, WholeTask(r));
    var k :| 0 <= k < |s| && s[k] == WholeTask(r);
    assert tasks[k] == s[k].(id := k);
  }

  // ---------------------------------------------------------------- exactly once

  predicate DistinctNames(sources: seq<Source>) {
    forall i, j :: 0 <= i < j < |sources| ==> sources[i].name != sources[j].name
  }

  /** A unit of this source: the whole key, or a chunk of it, depending on the route. */
  predicate UnitOf(s: Source, u: Unit) {
    u.name == s.name && if Direct(s) then u.Part? && u.index < |s.chunks| else u.Whole?
  }

  lemma {:induction false} PartsOnce(name: string, n: nat, u: Unit)
    ensures multiset(Map(Range(n), PartUnit(name)))[u] == if u.Part? && u.name == name && u.index < n then 1 else 0
  {
    if n > 0 {
      PartsOnce(name, n - 1, u);
      OneMorePart(name, n - 1);
      hide *;
      OnePart(Map(Range(n - 1), PartUnit(name)), name, n, u);
    }
  }

  lemma OneMorePart(name: string, n: nat)
    ensures Map(Range(n + 1), PartUnit(name)) == Map(Range(n), PartUnit(name)) + [PartUnit(name)(n)]
  {
    RangeStep(n);
    MapSnoc<nat, Unit>(Range(n), n, PartUnit(name));
  }

  lemma OnePart(parts: seq<Unit>, name: string, n: nat, u: Unit)
    requires n > 0 && multiset(parts)[u] == if u.Part? && u.name == name && u.index < n - 1 then 1 else 0
    ensures multiset(parts + [PartUnit(name)(n - 1)])[u] == if u.Part? && u.name == name && u.index < n then 1 else 0
  {}

  lemma SourceUnitsOnce(s: Source, u: Unit)
    ensures UnitsOf(s)[u] == if UnitOf(s, u) then 1 else 0
  {
    if Direct(s) {
      PartsOnce(s.name, |s.chunks|, u);
    }
  }

  lemma {:induction false} UnitsOnce(sources: seq<Source>, u: Unit)
    requires DistinctNames(sources)
    ensures Gather(sources, UnitsOf)[u] == if exists i :: 0 <= i < |sources| && UnitOf(sources[i], u) then 1 else 0
  {
    hide UnitOf, UnitsOf;
    if sources != [] {
      var rest := sources[1..];
      UnitsOnce(rest, u);
      SourceUnitsOnce(sources[0], u);
      assert forall i :: 0 < i < |sources| ==> sources[i] == rest[i - 1];
      if UnitOf(sources[0], u) {
        forall i | 0 <= i < |rest| ensures !UnitOf(rest[i], u) {
          UnitsHaveNames(rest[i], u);
          UnitsHaveNames(sources[0], u);
        }
      }
    }
  }

  lemma UnitsHaveNames(s: Source, u: Unit)
    ensures UnitOf(s, u) ==> u.name == s.name
  {}

  /** Under a plan for distinct keys, every unit of work is done once, in exactly one task: each key that goes down the
      whole route by one task, each storage chunk of a key on the direct route by one task. */
  lemma PlannedExactlyOnce(sources: seq<Source>, tasks: seq<TaskSpec>, i: nat, u: Unit) returns (t: nat)
    requires DistinctNames(sources) && IsPlan(sources, tasks) && i < |sources| && UnitOf(sources[i], u)
    ensures t < |tasks| && TaskUnits(tasks[t])[u] == 1
    ensures forall k :: 0 <= k < |tasks| && k != t ==> TaskUnits(tasks[k])[u] == 0
  {
    UnitsOnce(sources, u);
    hide UnitOf, UnitsOf, TaskUnits;
    t := OneHolder(tasks, TaskUnits, u);
  }

  /** A task with a whole key as a unit is one of whole keys and lists it. */
  lemma WholeHolder(t: TaskSpec, name: string)
    requires TaskUnits(t)[Whole(name)] > 0
    ensures t.blocks == [] && name in t.keys
  {
    if t.blocks != [] {
      NoWholeInBlocks(t.blocks, name);
    } else {
      var units := Map(t.keys, WholeUnit);
      assert Whole(name) in multiset(units);
      var k :| 0 <= k < |units| && units[k] == Whole(name);
    }
  }

  lemma {:induction false} NoWholeInBlocks(blocks: seq<Block>, name: string)
    ensures Gather(blocks, UnitsOfBlock)[Whole(name)] == 0
  {
    if blocks != [] {
      NoWholeInBlocks(blocks[1..], name);
      var parts := Map(blocks[0].indices, PartUnit(blocks[0].source));
      assert forall k :: 0 <= k < |parts| ==> parts[k] != Whole(name);
      assert Whole(name) !in multiset(parts);
    }
  }
}
