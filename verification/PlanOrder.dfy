/** The order of a plan: of blocks and of their chunks, of keys in a task, and of the tasks. */
module PlanOrder {

  import opened Dispatcher
  import opened GreedyPacking
  import opened Grouping
  import opened MoeChunks
  import opened Planner
  import opened Sequences
  import opened Sorting
  import opened Strings

  // ---------------------------------------------------------------- the orders

  lemma StringLessTransitive(a: string, b: string, c: string)
    requires StringLeq(a, b) && StringLeq(b, c)
    ensures StringLeq(a, c) && (StringLess(a, b) || StringLess(b, c) ==> StringLess(a, c))
  {
    StringLeqTransitive(a, b, c);
    if a == c {
      StringLeqAntisymmetric(a, b);
    }
  }

  lemma StringsSort(s: seq<string>)
    ensures Sorted(Sort(s, ByString()), ByString())
  {
    forall a, b ensures ByString()(a, b) || ByString()(b, a) {
      StringLeqConnected(a, b);
    }
    forall a, b, c | ByString()(a, b) && ByString()(b, c) ensures ByString()(a, c) {
      StringLeqTransitive(a, b, c);
    }
    SortSorts(s, ByString());
  }

  /** One list of strings is a prefix of the other, or at the first difference it has the smaller string. */
  ghost predicate ListLeq(a: seq<string>, b: seq<string>) {
    a <= b || exists k :: FirstDifference(a, b, k) && StringLeq(a[k], b[k])
  }

  lemma {:induction false} KeysLeqIff(a: seq<string>, b: seq<string>)
    ensures KeysLeq(a, b) <==> ListLeq(a, b)
  {
    hide StringLeq;
    if a != [] && b != [] {
      var x, y := a[1..], b[1..];
      if a[0] == b[0] {
        KeysLeqIff(x, y);
        assert a <= b <==> x <= y;
        if k :| FirstDifference(a, b, k) && StringLeq(a[k], b[k]) {
          assert k > 0 && x[k - 1] == a[k] && y[k - 1] == b[k];
          assert FirstDifference(x, y, k - 1) && StringLeq(x[k - 1], y[k - 1]);
        }
        if k :| FirstDifference(x, y, k) && StringLeq(x[k], y[k]) {
          assert FirstDifference(a, b, k + 1) && StringLeq(a[k + 1], b[k + 1]);
        }
      } else {
        assert FirstDifference(a, b, 0);
      }
    }
  }

  lemma {:induction false} KeysLeqTransitive(a: seq<string>, b: seq<string>, c: seq<string>)
    requires KeysLeq(a, b) && KeysLeq(b, c)
    ensures KeysLeq(a, c)
  {
    hide StringLeq;
    if a != [] {
      StringLeqConnected(a[0], a[0]);
      StringLeqConnected(c[0], c[0]);
      StringLessTransitive(a[0], b[0], c[0]);
      if a[0] == b[0] == c[0] {
        KeysLeqTransitive(a[1..], b[1..], c[1..]);
      }
    }
  }

  // ---------------------------------------------------------------- the blocks of a source

  /** The offset of one chunk is lexicographically at most that of the other. */
  ghost predicate OffsetAtMost(a: Chunk, b: Chunk) {
    a.e0 <= b.e0 && (a.e0 == b.e0 ==> a.f0 <= b.f0 && (a.f0 == b.f0 ==> a.h0 <= b.h0))
  }

  ghost predicate Within(s: Source, indices: seq<nat>) {
    forall i :: 0 <= i < |indices| ==> indices[i] < |s.chunks|
  }

  ghost function LengthsAt(s: Source, indices: seq<nat>): nat
    requires Within(s, indices)
  {
    if indices == [] then 0 else s.chunks[indices[0]].length + LengthsAt(s, indices[1..])
  }

  /** A block of a source: some of its chunks, all from the block's file, in the order of their offsets. */
  ghost predicate BlockOfSource(s: Source, b: SizedBlock) {
    && b.block.source == s.name && s.expert.Some? && b.block.key == s.expert.value && b.block.indices != []
    && Within(s, b.block.indices)
    && (forall i :: 0 <= i < |b.block.indices| ==> s.chunks[b.block.indices[i]].file == b.block.file)
    && (forall i, j :: 0 <= i < j < |b.block.indices| ==>
          OffsetAtMost(s.chunks[b.block.indices[i]].box, s.chunks[b.block.indices[j]].box))
    && b.bytes == LengthsAt(s, b.block.indices)
  }

  ghost predicate ChunksOfFile(s: Source, g: Group<nat>) {
    g.members != [] && Within(s, g.members) && forall i :: 0 <= i < |g.members| ==> s.chunks[g.members[i]].file == g.key
  }

  lemma {:induction false} LengthsAtIsTotal(s: Source, indices: seq<nat>)
    requires Within(s, indices)
    ensures LengthsAt(s, indices) == Total(indices, LengthOf(s))
  {
    if indices != [] {
      LengthsAtIsTotal(s, indices[1..]);
    }
  }

  lemma OffsetsSort(s: Source, members: seq<nat>)
    requires Within(s, members)
    ensures Sorted(Sort(members, ByOffset(s)), ByOffset(s))
  {
    SortSorts(members, ByOffset(s));
  }

  /** A group of chunks of one file becomes a block of the source. */
  lemma OneBlock(s: Source, g: Group<nat>)
    requires Direct(s) && ChunksOfFile(s, g)
    ensures BlockOfSource(s, BlockOf(s)(g)) && BlockOf(s)(g).block.file == g.key
    ensures multiset(BlockOf(s)(g).block.indices) == multiset(g.members)
  {
    var indices := Sort(g.members, ByOffset(s));
    OffsetsSort(s, g.members);
    forall i | 0 <= i < |indices| ensures indices[i] < |s.chunks| && s.chunks[indices[i]].file == g.key {
      InPermutation(indices, g.members, indices[i]);
    }
    forall i, j | 0 <= i < j < |indices| ensures OffsetAtMost(s.chunks[indices[i]].box, s.chunks[indices[j]].box) {
      assert ByOffset(s)(indices[i], indices[j]);
    }
    LengthsAtIsTotal(s, indices);
    TotalPermutation<nat>(indices, g.members, LengthOf(s));
  }

  lemma {:induction false} MemberGathered<T>(groups: seq<Group<T>>, i: nat, x: T)
    requires i < |groups| && x in groups[i].members
    ensures x in Gather(groups, Members)
  {
    if i > 0 {
      MemberGathered(groups[1..], i - 1, x);
    }
  }

  lemma GroupOfChunks(s: Source, g: Group<nat>)
    requires g in GroupBy(Range(|s.chunks|), FileOf(s))
    ensures ChunksOfFile(s, g)
  {
    var range := Range(|s.chunks|);
    var groups := GroupBy(range, FileOf(s));
    GroupByIsGrouped(range, FileOf(s));
    hide GroupBy, Gather;
    var i :| 0 <= i < |groups| && groups[i] == g;
    assert WellGrouped(groups[i], FileOf(s));
    forall j | 0 <= j < |g.members| ensures g.members[j] < |s.chunks| && s.chunks[g.members[j]].file == g.key {
      MemberGathered(groups, i, g.members[j]);
      assert g.members[j] in multiset(range) && g.members[j] in range;
      assert FileOf(s)(g.members[j]) == g.key;
    }
  }

  function KeyOf(g: Group<nat>): string { g.key }

  lemma GroupsSort(groups: seq<Group<nat>>)
    requires forall i, j :: 0 <= i < j < |groups| ==> groups[i].key != groups[j].key
    ensures var r := Sort(groups, ByFile());
            forall i, j :: 0 <= i < j < |r| ==> r[i].key != r[j].key && StringLeq(r[i].key, r[j].key)
  {
    forall g, h ensures ByFile()(g, h) || ByFile()(h, g) {
      StringLeqConnected(g.key, h.key);
    }
    forall f, g, h | ByFile()(f, g) && ByFile()(g, h) ensures ByFile()(f, h) {
      StringLeqTransitive(f.key, g.key, h.key);
    }
    SortSorts(groups, ByFile());
    var r := Sort(groups, ByFile());
    MapPermutation(r, groups, KeyOf);
    DistinctIsOnce(Map(groups, KeyOf));
    DistinctIsOnce(Map(r, KeyOf));
    hide Sort, StringLeq;
    forall i, j | 0 <= i < j < |r| ensures r[i].key != r[j].key && StringLeq(r[i].key, r[j].key) {
      assert Map(r, KeyOf)[i] == r[i].key && Map(r, KeyOf)[j] == r[j].key;
      assert ByFile()(r[i], r[j]);
    }
  }

  ghost predicate InSomeBlock(blocks: seq<SizedBlock>, k: nat) {
    exists b :: b in blocks && k in b.block.indices
  }

  /** A direct source has one block for each of its files, in the order of the files' names. */
  lemma BlocksInOrder(s: Source)
    requires Direct(s)
    ensures forall b :: b in MoeBlocks(s) ==> BlockOfSource(s, b)
    ensures forall i, j :: 0 <= i < j < |MoeBlocks(s)| ==>
              && MoeBlocks(s)[i].block.file != MoeBlocks(s)[j].block.file
              && StringLeq(MoeBlocks(s)[i].block.file, MoeBlocks(s)[j].block.file)
    ensures forall k :: 0 <= k < |s.chunks| ==> InSomeBlock(MoeBlocks(s), k)
  {
    var sorted := SortedGroups(s);
    var blocks := MoeBlocks(s);
    hide *;
    forall i | 0 <= i < |blocks| ensures BlockOfSource(s, blocks[i]) {
      OneBlock(s, sorted[i]);
    }
    forall i, j | 0 <= i < j < |blocks|
      ensures blocks[i].block.file != blocks[j].block.file && StringLeq(blocks[i].block.file, blocks[j].block.file)
    {
      OneBlock(s, sorted[i]);
      OneBlock(s, sorted[j]);
    }
    forall k | 0 <= k < |s.chunks| ensures InSomeBlock(blocks, k) {
      ChunkInBlock(s, sorted, k);
    }
  }

  lemma BlocksAreMapped(s: Source)
    requires Direct(s)
    ensures var sorted := Sort(GroupBy(Range(|s.chunks|), FileOf(s)), ByFile());
            |MoeBlocks(s)| == |sorted| && forall i :: 0 <= i < |sorted| ==> MoeBlocks(s)[i] == BlockOf(s)(sorted[i])
  {
    hide Direct, Sort, BlockOf, GroupBy, FileOf, ByFile, Range;
  }

  lemma GroupsAreDistinct(items: seq<nat>, keyOf: nat -> string)
    ensures var r := GroupBy(items, keyOf); forall i, j :: 0 <= i < j < |r| ==> r[i].key != r[j].key
  {
    GroupByIsGrouped(items, keyOf);
  }

  /** The groups of chunks behind the blocks. */
  lemma SortedGroups(s: Source) returns (sorted: seq<Group<nat>>)
    requires Direct(s)
    ensures |MoeBlocks(s)| == |sorted| && forall i :: 0 <= i < |sorted| ==> MoeBlocks(s)[i] == BlockOf(s)(sorted[i])
    ensures forall i :: 0 <= i < |sorted| ==> ChunksOfFile(s, sorted[i])
    ensures forall i, j :: 0 <= i < j < |sorted| ==> sorted[i].key != sorted[j].key && StringLeq(sorted[i].key, sorted[j].key)
    ensures multiset(sorted) == multiset(GroupBy(Range(|s.chunks|), FileOf(s)))
  {
    var groups := GroupBy(Range(|s.chunks|), FileOf(s));
    sorted := Sort(groups, ByFile());
    BlocksAreMapped(s);
    hide *;
    GroupsAreDistinct(Range(|s.chunks|), FileOf(s));
    GroupsSort(groups);
    forall i | 0 <= i < |sorted| ensures ChunksOfFile(s, sorted[i]) {
      InPermutation(sorted, groups, sorted[i]);
      GroupOfChunks(s, sorted[i]);
    }
  }

  lemma ChunkInBlock(s: Source, sorted: seq<Group<nat>>, k: nat)
    requires Direct(s) && k < |s.chunks| && multiset(sorted) == multiset(GroupBy(Range(|s.chunks|), FileOf(s)))
    requires |MoeBlocks(s)| == |sorted| && forall i :: 0 <= i < |sorted| ==> MoeBlocks(s)[i] == BlockOf(s)(sorted[i])
    requires forall i :: 0 <= i < |sorted| ==> ChunksOfFile(s, sorted[i])
    ensures InSomeBlock(MoeBlocks(s), k)
  {
    hide Direct, Sort, BlockOf, GroupBy, FileOf, Range, ChunksOfFile, MoeBlocks;
    InRange(|s.chunks|, k);
    var groups := GroupBy(Range(|s.chunks|), FileOf(s));
    var i := SameKeySameGroup(Range(|s.chunks|), FileOf(s), k, k);
    InPermutation(sorted, groups, groups[i]);
    var j :| 0 <= j < |sorted| && sorted[j] == groups[i];
    OneBlock(s, sorted[j]);
    assert k in multiset(MoeBlocks(s)[j].block.indices);
  }

  ghost predicate SourcesOrdered(sources: seq<Source>) {
    forall i, j :: 0 <= i < j < |sources| ==> StringLeq(sources[i].name, sources[j].name)
  }

  lemma SourcesSort(sources: seq<Source>)
    ensures SourcesOrdered(Sort(sources, ByName()))
  {
    forall a, b ensures ByName()(a, b) || ByName()(b, a) {
      StringLeqConnected(a.name, b.name);
    }
    forall a, b, c | ByName()(a, b) && ByName()(b, c) ensures ByName()(a, c) {
      StringLeqTransitive(a.name, b.name, c.name);
    }
    SortSorts(sources, ByName());
    hide Sort, StringLeq;
    var r := Sort(sources, ByName());
    forall i, j | 0 <= i < j < |r| ensures StringLeq(r[i].name, r[j].name) {
      assert ByName()(r[i], r[j]);
    }
  }

  ghost predicate ComesFrom(b: SizedBlock, sources: seq<Source>) {
    exists s :: s in sources && Direct(s) && BlockOfSource(s, b)
  }

  /** The blocks collected: those of the direct sources, source by source in the order of their names. */
  lemma CollectedInOrder(sources: seq<Source>)
    ensures var blocks := AllBlocks(Sort(sources, ByName()));
            && (forall b :: b in blocks ==> ComesFrom(b, sources))
            && (forall i, j :: 0 <= i < j < |blocks| ==> StringLeq(blocks[i].block.source, blocks[j].block.source))
  {
    var sorted := Sort(sources, ByName());
    SourcesSort(sources);
    AllBlocksOrdered(sorted);
    hide *;
    forall b | b in AllBlocks(sorted) ensures ComesFrom(b, sources) {
      FromPermutation(b, sorted, sources);
    }
  }

  lemma FromPermutation(b: SizedBlock, sorted: seq<Source>, sources: seq<Source>)
    requires ComesFrom(b, sorted) && multiset(sorted) == multiset(sources)
    ensures ComesFrom(b, sources)
  {
    var s :| s in sorted && Direct(s) && BlockOfSource(s, b);
    hide Direct, BlockOfSource;
    InPermutation(sorted, sources, s);
  }

  lemma {:induction false} AllBlocksOrdered(sources: seq<Source>)
    requires SourcesOrdered(sources)
    ensures forall b :: b in AllBlocks(sources) ==> ComesFrom(b, sources)
    ensures forall i, j :: 0 <= i < j < |AllBlocks(sources)| ==>
              StringLeq(AllBlocks(sources)[i].block.source, AllBlocks(sources)[j].block.source)
  {
    hide Direct, MoeBlocks, BlockOfSource, StringLeq;
    if sources != [] {
      var front, last := sources[..|sources| - 1], sources[|sources| - 1];
      AllBlocksOrdered(front);
      if Direct(last) {
        BlocksInOrder(last);
        OrderedWithLast(front, last, AllBlocks(front), MoeBlocks(last));
      } else {
        assert AllBlocks(sources) == AllBlocks(front);
      }
      forall b | ComesFrom(b, front) ensures ComesFrom(b, sources) {
        var s :| s in front && Direct(s) && BlockOfSource(s, b);
        assert s in sources;
      }
    }
  }

  lemma OrderedWithLast(front: seq<Source>, last: Source, blocks: seq<SizedBlock>, more: seq<SizedBlock>)
    requires SourcesOrdered(front + [last]) && (forall b :: b in blocks ==> ComesFrom(b, front))
    requires Direct(last) && forall b :: b in more ==> BlockOfSource(last, b)
    requires forall i, j :: 0 <= i < j < |blocks| ==> StringLeq(blocks[i].block.source, blocks[j].block.source)
    ensures forall b :: b in more ==> ComesFrom(b, front + [last])
    ensures forall i, j :: 0 <= i < j < |blocks + more| ==>
              StringLeq((blocks + more)[i].block.source, (blocks + more)[j].block.source)
  {
    var all := blocks + more;
    assert (front + [last])[|front|] == last;
    forall i, j | 0 <= i < j < |all| ensures StringLeq(all[i].block.source, all[j].block.source) {
      if j >= |blocks| {
        SourceOfLast(last, more, all[j]);
        if i >= |blocks| {
          SourceOfLast(last, more, all[i]);
          StringLeqConnected(last.name, last.name);
        } else {
          assert all[i] in blocks;
          BeforeLast(front, last, all[i]);
        }
      }
    }
  }

  lemma SourceOfLast(last: Source, more: seq<SizedBlock>, b: SizedBlock)
    requires b in more && forall b :: b in more ==> BlockOfSource(last, b)
    ensures b.block.source == last.name
  {}

  lemma BeforeLast(front: seq<Source>, last: Source, b: SizedBlock)
    requires SourcesOrdered(front + [last]) && ComesFrom(b, front)
    ensures StringLeq(b.block.source, last.name)
  {
    hide StringLeq;
    var s :| s in front && Direct(s) && BlockOfSource(s, b);
    var i :| 0 <= i < |front| && front[i] == s;
    assert (front + [last])[i] == s && (front + [last])[|front|] == last;
  }

  // ---------------------------------------------------------------- tasks of blocks

  /** The order of blocks: by source, then by file. */
  ghost predicate BlockBefore(a: Block, b: Block) {
    if a.source == b.source then StringLeq(a.file, b.file) else StringLeq(a.source, b.source)
  }

  ghost predicate BlocksOrdered(s: seq<SizedBlock>) {
    forall i, j :: 0 <= i < j < |s| ==> BlockBefore(s[i].block, s[j].block)
  }

  lemma BlocksSort(blocks: seq<SizedBlock>)
    ensures BlocksOrdered(Sort(blocks, ByBlock()))
  {
    forall a, b ensures ByBlock()(a, b) || ByBlock()(b, a) {
      StringLeqConnected(a.block.source, b.block.source);
      StringLeqConnected(a.block.file, b.block.file);
    }
    forall a, b, c | ByBlock()(a, b) && ByBlock()(b, c) ensures ByBlock()(a, c) {
      ByBlockTransitive(a, b, c);
    }
    SortSorts(blocks, ByBlock());
    hide Sort, StringLeq;
    var r := Sort(blocks, ByBlock());
    forall i, j | 0 <= i < j < |r| ensures BlockBefore(r[i].block, r[j].block) {
      assert ByBlock()(r[i], r[j]);
    }
  }

  lemma ByBlockTransitive(a: SizedBlock, b: SizedBlock, c: SizedBlock)
    requires ByBlock()(a, b) && ByBlock()(b, c)
    ensures ByBlock()(a, c)
  {
    hide StringLeq;
    StringLeqConnected(a.block.source, a.block.source);
    StringLeqConnected(b.block.source, b.block.source);
    StringLessTransitive(a.block.source, b.block.source, c.block.source);
    if a.block.source == b.block.source == c.block.source {
      StringLeqTransitive(a.block.file, b.block.file, c.block.file);
    }
  }

  /** A task of blocks: the blocks of its bin, with the bytes of all and, sorted and once each, the sources they come from. */
  ghost predicate TaskOfBlocks(t: TaskSpec, bin: seq<SizedBlock>) {
    && |t.blocks| == |bin| && (forall i :: 0 <= i < |bin| ==> t.blocks[i] == bin[i].block)
    && t.bytes == Total(bin, (b: SizedBlock) => b.bytes)
    && (forall i, j :: 0 <= i < j < |t.keys| ==> t.keys[i] != t.keys[j] && StringLeq(t.keys[i], t.keys[j]))
    && (forall k :: k in t.keys <==> exists b :: b in t.blocks && b.source == k)
  }

  lemma {:induction false} UniqueIsSet(s: seq<string>)
    ensures forall x :: x in Unique(s) <==> x in s
    ensures forall i, j :: 0 <= i < j < |Unique(s)| ==> Unique(s)[i] != Unique(s)[j]
  {
    if s != [] {
      UniqueIsSet(s[1..]);
      assert s == [s[0]] + s[1..];
    }
  }

  lemma SortedSet(s: seq<string>)
    ensures var r := Sort(Unique(s), ByString());
            && (forall i, j :: 0 <= i < j < |r| ==> r[i] != r[j] && StringLeq(r[i], r[j]))
            && (forall x :: x in r <==> x in s)
  {
    var u := Unique(s);
    var r := Sort(u, ByString());
    UniqueIsSet(s);
    StringsSort(u);
    DistinctIsOnce(u);
    DistinctIsOnce(r);
    hide Sort, StringLeq, Unique;
    forall x ensures x in r <==> x in s {
      InPermutation(r, u, x);
    }
    forall i, j | 0 <= i < j < |r| ensures r[i] != r[j] && StringLeq(r[i], r[j]) {
      assert ByString()(r[i], r[j]);
    }
  }

  lemma OneBlockTask(bin: seq<SizedBlock>)
    ensures TaskOfBlocks(BlockTask(bin), bin)
  {
    var t, sources := BlockTask(bin), Map(bin, SourceIn);
    SortedSet(sources);
    TotalCongruent(bin, BlockBytes, (b: SizedBlock) => b.bytes);
    hide Sort, StringLeq, Unique, Total;
    forall k ensures k in sources <==> exists b :: b in t.blocks && b.source == k {
      if k in sources {
        var i :| 0 <= i < |sources| && sources[i] == k;
        assert t.blocks[i] in t.blocks && t.blocks[i].source == k;
      }
      if b :| b in t.blocks && b.source == k {
        var i :| 0 <= i < |t.blocks| && t.blocks[i] == b;
        assert sources[i] == k;
      }
    }
  }

  lemma {:induction false} TotalCongruent<T>(s: seq<T>, f: T -> nat, g: T -> nat)
    requires forall x :: x in s ==> f(x) == g(x)
    ensures Total(s, f) == Total(s, g)
  {
    if s != [] {
      TotalCongruent(s[1..], f, g);
    }
  }

  /** The blocks of the tasks are all blocks, by source and file. A task is closed only by a block that would take it above
      the target, two gibibytes if none is given, and only a lone block exceeds it. */
  lemma BlockTasksInOrder(blocks: seq<SizedBlock>, cap: nat, tasks: seq<TaskSpec>, bins: seq<seq<SizedBlock>>)
    requires BlockTasks(blocks, cap, tasks, bins)
    ensures multiset(Concat(bins)) == multiset(blocks) && BlocksOrdered(Concat(bins))
    ensures |tasks| == |bins| && forall i :: 0 <= i < |tasks| ==> bins[i] != [] && TaskOfBlocks(tasks[i], bins[i])
    ensures forall i :: 0 <= i < |tasks| && |bins[i]| > 1 ==> tasks[i].bytes <= if cap == 0 then 2147483648 else cap
    ensures forall i :: 0 < i < |tasks| ==> tasks[i - 1].bytes + bins[i][0].bytes > if cap == 0 then 2147483648 else cap
  {
    hide Sort, BlocksOrdered, TaskOfBlocks, Concat, Total, BlockTask;
    BlocksSort(blocks);
    forall i | 0 <= i < |tasks| ensures TaskOfBlocks(tasks[i], bins[i]) && tasks[i].bytes == Total(bins[i], BlockBytes) {
      OneBlockTask(bins[i]);
      BlockTaskBytes(bins[i]);
    }
  }

  lemma BlockTaskBytes(bin: seq<SizedBlock>)
    ensures BlockTask(bin).bytes == Total(bin, BlockBytes)
  {}

  // ---------------------------------------------------------------- tasks of whole keys

  /** The order of whole tasks: larger first, then by their keys. */
  ghost predicate LargerFirstThenKeys(a: Atomic, b: Atomic) {
    a.bytes >= b.bytes && (a.bytes == b.bytes ==> ListLeq(a.keys, b.keys))
  }

  ghost predicate AtomicsOrdered(s: seq<Atomic>) {
    forall i, j :: 0 <= i < j < |s| ==> LargerFirstThenKeys(s[i], s[j])
  }

  lemma AtomicsSort(atomics: seq<Atomic>)
    ensures AtomicsOrdered(Sort(atomics, BySize()))
  {
    forall a, b ensures BySize()(a, b) || BySize()(b, a) {
      KeysLeqConnected(a.keys, b.keys);
    }
    forall a, b, c | BySize()(a, b) && BySize()(b, c) ensures BySize()(a, c) {
      if a.bytes == c.bytes {
        KeysLeqTransitive(a.keys, b.keys, c.keys);
      }
    }
    SortSorts(atomics, BySize());
    hide Sort, KeysLeq;
    var r := Sort(atomics, BySize());
    forall i, j | 0 <= i < j < |r| ensures LargerFirstThenKeys(r[i], r[j]) {
      assert BySize()(r[i], r[j]);
      KeysLeqIff(r[i].keys, r[j].keys);
    }
  }

  /** Some tasks as one: their bytes together, and their keys, sorted. */
  ghost predicate MergedFrom(t: Atomic, bin: seq<Atomic>) {
    && t.bytes == Total(bin, (a: Atomic) => a.bytes) && KeysOrdered(t.keys)
    && multiset(t.keys) == Gather(bin, (a: Atomic) => multiset(a.keys))
  }

  lemma OneMerged(bin: seq<Atomic>)
    ensures MergedFrom(Merge(bin), bin)
  {
    KeysOfBin(bin);
    KeysSorted(Concat(Map(bin, KeyList)));
    TotalCongruent(bin, AtomicBytes, (a: Atomic) => a.bytes);
    hide Sort, StringLeq, Total, Concat;
    GatherCongruent(bin, KeysIn, (a: Atomic) => multiset(a.keys));
  }

  /** An atomic task holds the keys of one group, sorted, with the bytes of their tensors. */
  lemma AtomicInOrder(whole: seq<Source>, qLora: bool, a: Atomic) returns (members: seq<Source>)
    requires a in Atomics(whole, qLora)
    ensures members != [] && multiset(a.keys) == multiset(Map(members, NameOf)) && a.bytes == Total(members, WholeBytes)
    ensures forall s :: s in members ==> KeyGroup(qLora, s.name) == KeyGroup(qLora, members[0].name)
    ensures KeysOrdered(a.keys)
  {
    var g := GroupOfAtomic(whole, qLora, a);
    members := g.members;
    AtomicOfHolds(g);
    hide AtomicOf, KeyGroup, Total, Map;
    forall i | 0 <= i < |members| ensures KeyGroup(qLora, members[i].name) == g.key {
      assert GroupName(qLora)(members[i]) == g.key;
    }
  }

  lemma AtomicOfHolds(g: Group<Source>)
    ensures var a := AtomicOf(g);
            && multiset(a.keys) == multiset(Map(g.members, NameOf)) && a.bytes == Total(g.members, WholeBytes)
            && KeysOrdered(a.keys)
  {
    KeysSorted(Map(g.members, NameOf));
  }

  ghost predicate KeysOrdered(keys: seq<string>) {
    forall i, j :: 0 <= i < j < |keys| ==> StringLeq(keys[i], keys[j])
  }

  lemma KeysSorted(keys: seq<string>)
    ensures KeysOrdered(Sort(keys, ByString()))
  {
    StringsSort(keys);
    var r := Sort(keys, ByString());
    hide Sort, StringLeq;
    forall i, j | 0 <= i < j < |r| ensures StringLeq(r[i], r[j]) {
      assert ByString()(r[i], r[j]);
    }
  }

  /** Keys without either down-projection keep a group of their own. */
  lemma OtherKeysAlone(key: string)
    requires !Occurs(key, Q_DOWN) && !Occurs(key, KV_DOWN)
    ensures KeyGroup(true, key) == KeyGroup(false, key) == key
  {
    ReplaceNothing(key, Q_DOWN, PAIR);
    ReplaceNothing(key, KV_DOWN, PAIR);
  }

  /** With a target, exactly the tasks that reach it stay alone, and the others are packed, larger ones first. */
  lemma WholeTasksInOrder(atomics: seq<Atomic>, cap: nat, tasks: seq<Atomic>, bins: seq<seq<Atomic>>)
    returns (large: seq<Atomic>, packed: seq<Atomic>)
    requires GroupedSmall(atomics, cap, tasks, bins) && cap > 0
    ensures tasks == large + packed && multiset(large) + multiset(Concat(bins)) == multiset(atomics)
    ensures (forall a :: a in large ==> a.bytes >= cap) && (forall a :: a in Concat(bins) ==> a.bytes < cap)
    ensures AtomicsOrdered(Concat(bins))
    ensures |packed| == |bins| && forall i :: 0 <= i < |bins| ==> bins[i] != [] && MergedFrom(packed[i], bins[i])
    ensures forall i :: 0 <= i < |packed| ==> packed[i].bytes <= cap
    ensures forall i :: 0 < i < |packed| ==> packed[i - 1].bytes + bins[i][0].bytes > cap
  {
    large, packed := Filter(atomics, AtLeast(cap)), Map(bins, Merge);
    var small := Filter(atomics, Below(cap));
    AtomicsSort(small);
    PartsOfAtomics(atomics, cap);
    GroupingBound(atomics, cap, tasks, bins);
    hide Sort, MergedFrom, Concat, Total, Merge, AtomicsOrdered, Filter;
    forall a | a in Concat(bins) ensures a.bytes < cap {
      InPermutation(Concat(bins), small, a);
    }
    forall i | 0 <= i < |bins|
      ensures MergedFrom(packed[i], bins[i]) && packed[i].bytes == Total(bins[i], AtomicBytes) <= cap
    {
      OneMerged(bins[i]);
      MergeBytes(bins[i]);
      assert bins[i] in bins;
    }
  }

  lemma MergeBytes(bin: seq<Atomic>)
    ensures Merge(bin).bytes == Total(bin, AtomicBytes)
  {}

  lemma {:induction false} PartsOfAtomics(atomics: seq<Atomic>, cap: nat)
    ensures forall a :: a in Filter(atomics, AtLeast(cap)) <==> a in atomics && a.bytes >= cap
    ensures forall a :: a in Filter(atomics, Below(cap)) <==> a in atomics && a.bytes < cap
    ensures multiset(Filter(atomics, AtLeast(cap))) + multiset(Filter(atomics, Below(cap))) == multiset(atomics)
  {
    if atomics != [] {
      PartsOfAtomics(atomics[1..], cap);
      assert atomics == [atomics[0]] + atomics[1..];
    }
  }

  // ---------------------------------------------------------------- the whole plan

  function LeadingKey(t: TaskSpec): string {
    if t.blocks != [] then t.blocks[0].source else if t.keys != [] then t.keys[0] else ""
  }

  function LeadingFile(t: TaskSpec): string { if t.blocks != [] then t.blocks[0].file else "" }

  /** The order of tasks: larger first, then by the source and file they begin with, then by their keys. */
  ghost predicate TaskBefore(a: TaskSpec, b: TaskSpec) {
    && a.bytes >= b.bytes
    && (a.bytes == b.bytes ==>
          && StringLeq(LeadingKey(a), LeadingKey(b))
          && (LeadingKey(a) == LeadingKey(b) ==>
                && StringLeq(LeadingFile(a), LeadingFile(b))
                && (LeadingFile(a) == LeadingFile(b) ==> ListLeq(a.keys, b.keys))))
  }

  lemma ByTaskIsTaskBefore(a: TaskSpec, b: TaskSpec)
    requires ByTask()(a, b)
    ensures TaskBefore(a, b)
  {
    if a.bytes == b.bytes {
      var x, y := SortKey(a), SortKey(b);
      assert x[0] == LeadingKey(a) && x[1] == LeadingFile(a) && x[1..][1..] == a.keys;
      assert y[0] == LeadingKey(b) && y[1] == LeadingFile(b) && y[1..][1..] == b.keys;
      StringLeqConnected(LeadingKey(a), LeadingKey(a));
      StringLeqConnected(LeadingFile(a), LeadingFile(a));
      hide StringLeq;
      assert KeysLeq(x, y) ==> StringLess(x[0], y[0]) || (x[0] == y[0] && KeysLeq(x[1..], y[1..]));
      assert KeysLeq(x[1..], y[1..]) ==> StringLess(x[1], y[1]) || (x[1] == y[1] && KeysLeq(a.keys, b.keys));
      KeysLeqIff(a.keys, b.keys);
    }
  }

  lemma TasksSort(all: seq<TaskSpec>)
    ensures var r := Sort(all, ByTask()); forall i, j :: 0 <= i < j < |r| ==> TaskBefore(r[i], r[j])
  {
    ByTaskConnected();
    forall a, b, c | ByTask()(a, b) && ByTask()(b, c) ensures ByTask()(a, c) {
      if a.bytes == c.bytes {
        KeysLeqTransitive(SortKey(a), SortKey(b), SortKey(c));
      }
    }
    SortSorts(all, ByTask());
    hide Sort, TaskBefore;
    var r := Sort(all, ByTask());
    forall i, j | 0 <= i < j < |r| ensures TaskBefore(r[i], r[j]) {
      assert ByTask()(r[i], r[j]);
      ByTaskIsTaskBefore(r[i], r[j]);
    }
  }

  /** Apart from their numbers, the tasks are those of blocks and those of whole keys, in order. */
  lemma PlanInOrder(sources: seq<Source>, qLora: bool, cap: nat, tasks: seq<TaskSpec>, parts: PlanParts)
    requires PlannedFrom(sources, qLora, cap, tasks, parts)
    ensures forall i, j :: 0 <= i < j < |tasks| ==> TaskBefore(tasks[i], tasks[j])
    ensures multiset(Map(tasks, Unnumbered)) == multiset(Map(parts.blockTasks, Unnumbered)) + multiset(Map(parts.raw, WholeTask))
  {
    var wholeTasks := Map(Sort(parts.raw, BySize()), WholeTask);
    var all := parts.blockTasks + wholeTasks;
    var sorted := Sort(all, ByTask());
    TasksAreNumbered(sources, qLora, cap, tasks, parts);
    hide *;
    TasksSort(all);
    forall i, j | 0 <= i < j < |tasks| ensures TaskBefore(tasks[i], tasks[j]) {
      NumbersDoNotMatter(sorted[i], sorted[j], i, j);
    }
    NumberedConserves(sorted);
    MapPermutation(sorted, all, Unnumbered);
    MapPermutation(Sort(parts.raw, BySize()), parts.raw, WholeTask);
    UnnumberedParts(parts.blockTasks, Sort(parts.raw, BySize()));
  }

  lemma TasksAreNumbered(sources: seq<Source>, qLora: bool, cap: nat, tasks: seq<TaskSpec>, parts: PlanParts)
    requires PlannedFrom(sources, qLora, cap, tasks, parts)
    ensures tasks == Numbered(Sort(parts.blockTasks + Map(Sort(parts.raw, BySize()), WholeTask), ByTask()))
  {
    hide Sort, BlockTasks, GroupedSmall, AllBlocks, Atomics;
    UnnumberedAgain(Sort(parts.raw, BySize()));
  }

  lemma UnnumberedAgain(raw: seq<Atomic>)
    ensures Map(Numbered(Map(raw, WholeTask)), Unnumbered) == Map(raw, WholeTask)
  {}

  lemma UnnumberedParts(blockTasks: seq<TaskSpec>, raw: seq<Atomic>)
    ensures Map(blockTasks + Map(raw, WholeTask), Unnumbered) == Map(blockTasks, Unnumbered) + Map(raw, WholeTask)
  {}

  lemma NumbersDoNotMatter(a: TaskSpec, b: TaskSpec, i: int, j: int)
    requires TaskBefore(a, b)
    ensures TaskBefore(a.(id := i), b.(id := j))
  {}
}
