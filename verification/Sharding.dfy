/** Writing converted tensors into shards, and the global index over the shards of all tasks. */
module Sharding {

  import opened GreedyPacking
  import opened Sequences
  import opened Sorting
  import opened TensorNames
  import opened Tensors
  import opened Wrappers

  /** A written shard: its tensors in order and the size it was closed with. */
  datatype Shard = Shard(tensors: seq<Out>, bytes: nat)

  function Names(outs: seq<Out>): (names: seq<string>)
    ensures |names| == |outs|
  {
    seq(|outs|, i requires 0 <= i < |outs| => outs[i].name)
  }

  predicate Distinct(names: seq<string>) {
    forall i, j :: 0 <= i < j < |names| ==> names[i] != names[j]
  }

  /** Assigning in an insertion-ordered dictionary. */
  function SetItem(d: seq<Out>, o: Out): seq<Out> {
    if d == [] then [o]
    else if d[0].name == o.name then [o] + d[1..]
    else [d[0]] + SetItem(d[1..], o)
  }

  /** The dictionary after assigning the items in order. */
  function AsDict(outs: seq<Out>): (d: seq<Out>)
    ensures d == [] <==> outs == []
  {
    if outs == [] then [] else SetItem(AsDict(outs[..|outs| - 1]), outs[|outs| - 1])
  }

  lemma AsDictSnoc(outs: seq<Out>, o: Out)
    ensures AsDict(outs + [o]) == SetItem(AsDict(outs), o)
  {
    assert (outs + [o])[..|outs|] == outs;
  }

  /** Item `i` is the last one of its name. */
  predicate LastOfName(outs: seq<Out>, i: nat)
    requires i < |outs|
  {
    forall j :: i < j < |outs| ==> outs[j].name != outs[i].name
  }

  lemma {:induction false} SetItemHolds(d: seq<Out>, o: Out, x: Out)
    requires Distinct(Names(d))
    ensures x in SetItem(d, o) <==> x == o || (x in d && x.name != o.name)
    ensures Distinct(Names(SetItem(d, o)))
  {
    if d != [] {
      var rest := d[1..];
      assert Names(rest) == Names(d)[1..];
      HeadIsNew(d);
      SetItemHolds(rest, o, x);
      if d[0].name != o.name {
        forall k | 0 <= k < |SetItem(rest, o)| ensures SetItem(rest, o)[k].name != d[0].name {
          SetItemHolds(rest, o, SetItem(rest, o)[k]);
        }
        ConsDistinct(d[0], SetItem(rest, o));
      } else {
        assert SetItem(d, o) == [o] + rest;
        assert Names(SetItem(d, o)) == Names(d);
      }
    }
  }

  lemma ConsDistinct(h: Out, r: seq<Out>)
    requires Distinct(Names(r)) && forall k :: 0 <= k < |r| ==> r[k].name != h.name
    ensures Distinct(Names([h] + r))
  {
    var all := [h] + r;
    forall i, j | 0 <= i < j < |all| ensures all[i].name != all[j].name {
      assert all[j] == r[j - 1];
      assert i > 0 ==> Names(r)[i - 1] == all[i].name && Names(r)[j - 1] == all[j].name;
    }
  }

  lemma HeadIsNew(d: seq<Out>)
    requires d != [] && Distinct(Names(d))
    ensures Distinct(Names(d[1..])) && forall x :: x in d[1..] ==> x.name != d[0].name
  {
    assert Names(d[1..]) == Names(d)[1..];
    forall x | x in d[1..] ensures x.name != d[0].name {
      var k :| 0 <= k < |d[1..]| && d[1..][k] == x;
      assert Names(d)[k + 1] == x.name && Names(d)[0] == d[0].name;
    }
  }

  /** A dictionary has each name once, with the value assigned last. */
  lemma {:induction false} AsDictHolds(outs: seq<Out>, x: Out)
    ensures x in AsDict(outs) <==> exists i :: 0 <= i < |outs| && outs[i] == x && LastOfName(outs, i)
    ensures Distinct(Names(AsDict(outs)))
  {
    if outs != [] {
      var front, o := outs[..|outs| - 1], outs[|outs| - 1];
      AsDictHolds(front, x);
      SetItemHolds(AsDict(front), o, x);
      hide AsDict, SetItem, Distinct;
      LastAmong(front, o, x);
      assert outs == front + [o];
    }
  }

  lemma LastAmong(front: seq<Out>, o: Out, x: Out)
    ensures var outs := front + [o];
            (exists i :: 0 <= i < |outs| && outs[i] == x && LastOfName(outs, i)) <==>
            x == o || (x.name != o.name && exists i :: 0 <= i < |front| && front[i] == x && LastOfName(front, i))
  {
    var outs := front + [o];
    assert outs[|front|] == o && LastOfName(outs, |front|);
    forall i | 0 <= i < |front| ensures LastOfName(outs, i) <==> LastOfName(front, i) && front[i].name != o.name {
      assert forall j :: i < j < |front| ==> outs[j] == front[j];
      assert LastOfName(outs, i) ==> outs[|front|].name != outs[i].name;
    }
    if i :| 0 <= i < |front| && front[i] == x && LastOfName(front, i) {
      assert outs[i] == x;
    }
  }

  lemma {:induction false} SetNewItem(d: seq<Out>, o: Out)
    requires o.name !in Names(d)
    ensures SetItem(d, o) == d + [o]
  {
    if d != [] {
      assert Names(d)[0] == d[0].name && Names(d[1..]) == Names(d)[1..];
      SetNewItem(d[1..], o);
      assert [d[0]] + (d[1..] + [o]) == d + [o];
    }
  }

  /** Items with distinct names are their own dictionary. */
  lemma {:induction false} DistinctAsDict(outs: seq<Out>)
    requires Distinct(Names(outs))
    ensures AsDict(outs) == outs
  {
    if outs != [] {
      var front, o := outs[..|outs| - 1], outs[|outs| - 1];
      assert outs == front + [o];
      DistinctPrefix(front, [o]);
      DistinctAsDict(front);
      assert o.name !in Names(front) by {
        assert forall k :: 0 <= k < |front| ==> Names(front)[k] == Names(outs)[k];
        assert Names(outs)[|front|] == o.name;
      }
      SetNewItem(front, o);
    }
  }

  function BinsOf(shards: seq<Shard>): (bins: seq<seq<Out>>)
    ensures |bins| == |shards|
  {
    seq(|shards|, i requires 0 <= i < |shards| => shards[i].tensors)
  }

  /** Each shard holds the dictionary of its bin, and its size counts every item of the bin. */
  ghost predicate Manifest(shards: seq<Shard>, bins: seq<seq<Out>>, size: Out -> nat) {
    |shards| == |bins| && forall i :: 0 <= i < |shards| ==> shards[i] == Shard(AsDict(bins[i]), Total(bins[i], size))
  }

  lemma TotalUpTo(tensors: seq<Out>, i: nat, size: Out -> nat)
    requires i <= |tensors|
    ensures i < |tensors| ==> Total(tensors[..i + 1], size) == Total(tensors[..i], size) + size(tensors[i])
    ensures i == 0 ==> Total(tensors[..i], size) == 0
  {
    if i < |tensors| {
      assert tensors[..i + 1] == tensors[..i] + [tensors[i]];
      TotalSnoc(tensors[..i], tensors[i], size);
    }
  }

  /** The closed bins and the open one pack everything written, in order, by the greedy rule; the shards are the closed
      bins and the dictionary is the open one. */
  ghost predicate Packing(cap: nat, size: Out -> nat, shards: seq<Shard>, current: seq<Out>, currentSize: nat,
                          written: seq<Out>, closed: seq<seq<Out>>, open: seq<Out>) {
    && GreedyBins(WithCurrent(closed, open), written, cap, size)
    && (open == [] ==> closed == [])
    && Manifest(shards, closed, size)
    && current == AsDict(open) && currentSize == Total(open, size)
  }

  lemma PackingStep(cap: nat, size: Out -> nat, shards: seq<Shard>, current: seq<Out>, currentSize: nat,
                    written: seq<Out>, closed: seq<seq<Out>>, open: seq<Out>, o: Out)
    requires Packing(cap, size, shards, current, currentSize, written, closed, open)
    ensures if size(o) + currentSize > cap && current != []
            then Packing(cap, size, shards + [Shard(current, currentSize)], SetItem([], o), size(o), written + [o],
                         closed + [open], [o])
            else Packing(cap, size, shards, SetItem(current, o), currentSize + size(o), written + [o], closed, open + [o])
  {
    BinsStep(closed, open, written, cap, size, o);
    AsDictSnoc(open, o);
    AsDictSnoc([], o);
    TotalSnoc(open, o, size);
    TotalSnoc([], o, size);
    assert [] + [o] == [o];
  }

  /** An insertion-ordered dictionary, filled and cleared in place. */
  class TensorDict {
    var items: seq<Out>

    constructor ()
      ensures items == []
    {
      items := [];
    }

    method Set(o: Out)
      modifies this
      ensures items == SetItem(old(items), o)
    {
      items := SetItem(items, o);
    }

    method Clear()
      modifies this
      ensures items == []
    {
      items := [];
    }
  }

  /** The writer of one task. All its shards are collected in one dictionary, one after the other. */
  class ShardWriter {
    const cap: nat
    const size: Out -> nat
    const current: TensorDict
    var currentSize: nat
    var shards: seq<Shard>
    ghost var written: seq<Out>
    ghost var closed: seq<seq<Out>>
    ghost var open: seq<Out>

    constructor (cap: nat, size: Out -> nat)
      ensures Valid() && fresh(current) && written == [] && shards == [] && this.cap == cap && this.size == size
    {
      this.cap, this.size := cap, size;
      current := new TensorDict();
      currentSize, shards, written, closed, open := 0, [], [], [], [];
      new;
      BinsBegin<Out>(cap, size);
      assert WithCurrent<Out>([], []) == [];
    }

    ghost predicate Valid()
      reads this, current
    {
      Packing(cap, size, shards, current.items, currentSize, written, closed, open)
    }

    /** Saves the dictionary as it is. */
    method FlushShard() returns (manifest: Shard)
      ensures manifest == Shard(current.items, currentSize)
    {
      manifest := Shard(current.items, currentSize);
    }

    method AppendToShards(tensors: seq<Out>) returns (added: nat)
      requires Valid()
      modifies this, current
      ensures Valid() && written == old(written) + tensors && added == Total(tensors, size)
    {
      hide *;
      added := 0;
      assert written + tensors[..0] == written;
      TotalUpTo(tensors, 0, size);
      for i := 0 to |tensors|
        invariant Valid() && written == old(written) + tensors[..i] && added == Total(tensors[..i], size)
      {
        var o := tensors[i];
        var tensorSize := size(o);
        TotalUpTo(tensors, i, size);
        AppendOne(o);
        assert old(written) + tensors[..i + 1] == old(written) + tensors[..i] + [o];
        added := added + tensorSize;
      }
      assert tensors[..|tensors|] == tensors;
    }

    /** One tensor. When it no longer fits, the shard is saved and the dictionary cleared for the next one: the manifest
        keeps what was in it, and so do all earlier ones. */
    method AppendOne(o: Out)
      requires Valid()
      modifies this, current
      ensures Valid() && written == old(written) + [o]
      ensures if size(o) + old(currentSize) > cap && old(current.items) != []
              then shards == old(shards) + [Shard(old(current.items), old(currentSize))] && current.items == [o]
              else shards == old(shards) && current.items == SetItem(old(current.items), o)
    {
      SetFirst(o);
      hide Packing, SetItem;
      PackingStep(cap, size, shards, current.items, currentSize, written, closed, open, o);
      if size(o) + currentSize > cap && current.items != [] {
        var manifest := FlushShard();
        shards := shards + [manifest];
        current.Clear();
        currentSize := 0;
        closed, open := closed + [open], [];
      }
      assert [] + [o] == [o];
      current.Set(o);
      currentSize := currentSize + size(o);
      written, open := written + [o], open + [o];
    }

    /** All groups of a task, then the last shard. The shards are the greedy packing of everything written, each a
        dictionary in which a repeated name keeps its last value; their sizes count every item. */
    method WriteGroups(groups: seq<seq<Out>>) returns (totalSize: nat)
      requires Valid() && written == [] && shards == []
      modifies this, current
      ensures totalSize == Total(Concat(groups), size)
      ensures Packs(shards, Concat(groups), cap, size)
    {
      hide *;
      totalSize := 0;
      NothingWritten(groups, size);
      for k := 0 to |groups|
        invariant Valid() && written == Concat(groups[..k]) && totalSize == Total(written, size)
      {
        NextConcat(groups, k);
        TotalAppend(written, groups[k], size);
        var added := AppendToShards(groups[k]);
        totalSize := totalSize + added;
      }
      assert groups[..|groups|] == groups;
      Finish();
    }

    method Finish()
      requires Valid()
      modifies this
      ensures Packs(shards, written, cap, size) && written == old(written)
    {
      hide Packing, Packs;
      LastShard(cap, size, shards, current.items, currentSize, written, closed, open);
      if current.items != [] {
        var manifest := FlushShard();
        shards := shards + [manifest];
      }
    }
  }

  lemma LastShard(cap: nat, size: Out -> nat, shards: seq<Shard>, current: seq<Out>, currentSize: nat,
                  written: seq<Out>, closed: seq<seq<Out>>, open: seq<Out>)
    requires Packing(cap, size, shards, current, currentSize, written, closed, open)
    ensures Packs(if current != [] then shards + [Shard(current, currentSize)] else shards, written, cap, size)
  {
    hide GreedyBins;
    if current != [] {
      PackedBy(shards + [Shard(current, currentSize)], closed + [open], written, cap, size);
    } else {
      PackedBy(shards, closed, written, cap, size);
    }
  }

  lemma NothingWritten(groups: seq<seq<Out>>, size: Out -> nat)
    ensures Concat(groups[..0]) == [] && Total([], size) == 0
  {}

  lemma SetFirst(o: Out)
    ensures SetItem([], o) == [o]
  {}

  /** The shards of a greedy packing. */
  ghost predicate Packs(shards: seq<Shard>, items: seq<Out>, cap: nat, size: Out -> nat) {
    exists bins :: GreedyBins(bins, items, cap, size) && Manifest(shards, bins, size)
  }

  lemma PackedBy(shards: seq<Shard>, bins: seq<seq<Out>>, items: seq<Out>, cap: nat, size: Out -> nat)
    requires GreedyBins(bins, items, cap, size) && Manifest(shards, bins, size)
    ensures Packs(shards, items, cap, size)
  {}

  /** The shards of a task waste at most half of the size they may have, and only a shard of a single tensor exceeds it. */
  lemma ShardsBound(shards: seq<Shard>, items: seq<Out>, cap: nat, size: Out -> nat)
    requires Packs(shards, items, cap, size)
    ensures |shards| >= 2 ==> (|shards| - 1) * cap < 2 * Total(items, size)
    ensures forall i :: 0 <= i < |shards| && shards[i].bytes > cap ==> |shards[i].tensors| == 1
  {
    var bins :| GreedyBins(bins, items, cap, size) && Manifest(shards, bins, size);
    TwiceTheTotal(bins, items, cap, size);
    forall i | 0 <= i < |shards| && shards[i].bytes > cap ensures |shards[i].tensors| == 1 {
      assert |bins[i]| == 1 && bins[i] == [] + [bins[i][0]];
      AsDictSnoc([], bins[i][0]);
    }
  }

  lemma {:induction false} SetItemPart(d: seq<Out>, o: Out)
    ensures multiset(SetItem(d, o)) <= multiset(d) + multiset{o}
  {
    if d != [] {
      assert d == [d[0]] + d[1..];
      if d[0].name == o.name {
        assert SetItem(d, o) == [o] + d[1..];
      } else {
        SetItemPart(d[1..], o);
        assert SetItem(d, o) == [d[0]] + SetItem(d[1..], o);
      }
    }
  }

  lemma {:induction false} AsDictPart(outs: seq<Out>)
    ensures multiset(AsDict(outs)) <= multiset(outs)
  {
    if outs != [] {
      var front, o := outs[..|outs| - 1], outs[|outs| - 1];
      assert outs == front + [o];
      AsDictPart(front);
      SetItemPart(AsDict(front), o);
    }
  }

  lemma {:induction false} PartsOfConcat<A>(parts: seq<seq<A>>, wholes: seq<seq<A>>)
    requires |parts| == |wholes| && forall i :: 0 <= i < |parts| ==> multiset(parts[i]) <= multiset(wholes[i])
    ensures multiset(Concat(parts)) <= multiset(Concat(wholes))
  {
    if parts != [] {
      PartsOfConcat(parts[1..], wholes[1..]);
    }
  }

  /** Shards hold nothing that was not written, and none is empty. */
  lemma PackedPart(shards: seq<Shard>, items: seq<Out>, cap: nat, size: Out -> nat)
    requires Packs(shards, items, cap, size)
    ensures multiset(Concat(BinsOf(shards))) <= multiset(items)
    ensures forall sh :: sh in shards ==> sh.tensors != []
  {
    var bins :| GreedyBins(bins, items, cap, size) && Manifest(shards, bins, size);
    forall i | 0 <= i < |shards| ensures multiset(BinsOf(shards)[i]) <= multiset(bins[i]) {
      AsDictPart(bins[i]);
    }
    hide AsDict;
    PartsOfConcat(BinsOf(shards), bins);
  }

  /** The items decide the shards. */
  lemma PackingIsUnique(a: seq<Shard>, b: seq<Shard>, items: seq<Out>, cap: nat, size: Out -> nat)
    requires Packs(a, items, cap, size) && Packs(b, items, cap, size)
    ensures a == b
  {
    var bins :| GreedyBins(bins, items, cap, size) && Manifest(a, bins, size);
    var others :| GreedyBins(others, items, cap, size) && Manifest(b, others, size);
    hide GreedyBins;
    GreedyIsUnique(bins, others, items, cap, size);
  }

  /** With distinct names nothing is overwritten: the shards hold the items in order, with their sizes, and none is
      empty. */
  lemma PackedDistinct(shards: seq<Shard>, items: seq<Out>, cap: nat, size: Out -> nat)
    requires Packs(shards, items, cap, size) && Distinct(Names(items))
    ensures GreedyBins(BinsOf(shards), items, cap, size)
    ensures forall i :: 0 <= i < |shards| ==> shards[i].bytes == Total(shards[i].tensors, size) && shards[i].tensors != []
  {
    var bins :| GreedyBins(bins, items, cap, size) && Manifest(shards, bins, size);
    assert Concat(bins) == items;
    forall i | 0 <= i < |bins| ensures AsDict(bins[i]) == bins[i] != [] {
      PartIsDistinct(bins, i);
      DistinctAsDict(bins[i]);
    }
    assert BinsOf(shards) == bins;
  }

  lemma {:induction false} PartIsDistinct(parts: seq<seq<Out>>, i: nat)
    requires i < |parts| && Distinct(Names(Concat(parts)))
    ensures Distinct(Names(parts[i]))
  {
    if i == 0 {
      DistinctPrefix(parts[0], Concat(parts[1..]));
    } else {
      DistinctSuffix(parts[0], Concat(parts[1..]));
      PartIsDistinct(parts[1..], i - 1);
    }
  }

  lemma DistinctSuffix(a: seq<Out>, b: seq<Out>)
    requires Distinct(Names(a + b))
    ensures Distinct(Names(b))
  {
    forall i, j | 0 <= i < j < |b| ensures b[i].name != b[j].name {
      assert Names(a + b)[|a| + i] == b[i].name && Names(a + b)[|a| + j] == b[j].name;
    }
  }

  lemma NextConcat(groups: seq<seq<Out>>, k: nat)
    requires k < |groups|
    ensures Concat(groups[..k + 1]) == Concat(groups[..k]) + groups[k]
  {
    assert groups[..k + 1] == groups[..k] + [groups[k]];
    ConcatSnoc(groups[..k], groups[k]);
  }

  lemma DistinctPrefix(a: seq<Out>, b: seq<Out>)
    requires Distinct(Names(a + b))
    ensures Distinct(Names(a))
  {
    assert forall i :: 0 <= i < |a| ==> Names(a)[i] == Names(a + b)[i];
  }

  // ---------------------------------------------------------------- the serial writer

  /** The serial writer's bins: an empty one it may have left in front, the closed ones, the one being filled. */
  function Layout(skipped: bool, closed: seq<seq<Out>>, open: seq<Out>): seq<seq<Out>> {
    (if skipped then [[]] else []) + closed + [open]
  }

  /** The dictionaries of the bins. */
  function Dicts(bins: seq<seq<Out>>): (models: seq<seq<Out>>)
    ensures |models| == |bins| && forall i :: 0 <= i < |bins| ==> models[i] == AsDict(bins[i])
  {
    seq(|bins|, i requires 0 <= i < |bins| => AsDict(bins[i]))
  }

  lemma DictsSnoc(bins: seq<seq<Out>>, open: seq<Out>)
    ensures Dicts(bins + [open]) == Dicts(bins) + [AsDict(open)]
  {}

  lemma SetLast<A>(s: seq<A>, x: A, y: A)
    ensures (s + [x])[|s + [x]| - 1] == x && (s + [x])[|s + [x]| - 1 := y] == s + [y]
  {}

  lemma LayoutSteps(skipped: bool, closed: seq<seq<Out>>, open: seq<Out>, o: Out)
    ensures var m := Dicts(Layout(skipped, closed, open));
            && m != [] && m[|m| - 1] == AsDict(open)
            && m[|m| - 1 := SetItem(AsDict(open), o)] == Dicts(Layout(skipped, closed, open + [o]))
            && (open != [] ==> m + [[]] == Dicts(Layout(skipped, closed + [open], [])))
            && (open == [] && closed == [] && !skipped ==> m + [[]] == Dicts(Layout(true, closed, [])))
  {
    AsDictSnoc(open, o);
    NothingIn();
    hide AsDict, SetItem, Dicts;
    var front := (if skipped then [[]] else []) + closed;
    DictsSnoc(front, open);
    DictsSnoc(front, open + [o]);
    SetLast(Dicts(front), AsDict(open), SetItem(AsDict(open), o));
    DictsSnoc(front + [open], []);
    assert Layout(skipped, closed + [open], []) == (front + [open]) + [[]] by {
      assert (if skipped then [[]] else []) + (closed + [open]) == front + [open];
    }
    if open == [] && closed == [] && !skipped {
      assert front == [] && Layout(true, closed, []) == (front + [open]) + [[]];
    }
  }

  /** What holds of the serial writer after the first `i` tensors. */
  ghost predicate Serial(tensors: seq<Out>, i: nat, cap: nat, size: Out -> nat,
                         skipped: bool, closed: seq<seq<Out>>, open: seq<Out>)
    requires i <= |tensors|
  {
    && GreedyBins(WithCurrent(closed, open), tensors[..i], cap, size)
    && (open == [] ==> closed == [])
    && (if i == 0 then !skipped && open == [] else open != [] && (skipped <==> size(tensors[0]) > cap))
  }

  lemma SerialBegin(tensors: seq<Out>, cap: nat, size: Out -> nat)
    ensures Serial(tensors, 0, cap, size, false, [], []) && Dicts(Layout(false, [], [])) == [[]]
    ensures Total([], size) == 0 && tensors[..0] == []
  {
    BinsBegin<Out>(cap, size);
  }

  lemma SerialStep(tensors: seq<Out>, i: nat, cap: nat, size: Out -> nat,
                   skipped: bool, closed: seq<seq<Out>>, open: seq<Out>)
    requires i < |tensors| && Serial(tensors, i, cap, size, skipped, closed, open)
    ensures Total(open + [tensors[i]], size) == Total(open, size) + size(tensors[i])
    ensures Total(tensors[..i + 1], size) == Total(tensors[..i], size) + size(tensors[i])
    ensures Total([tensors[i]], size) == size(tensors[i])
    ensures if size(tensors[i]) + Total(open, size) > cap
            then Serial(tensors, i + 1, cap, size, skipped || open == [], if open == [] then [] else closed + [open], [tensors[i]])
            else Serial(tensors, i + 1, cap, size, skipped, closed, open + [tensors[i]])
  {
    var o := tensors[i];
    assert tensors[..i + 1] == tensors[..i] + [o];
    BinsStep(closed, open, tensors[..i], cap, size, o);
    TotalSnoc(open, o, size);
    TotalSnoc(tensors[..i], o, size);
    TotalSnoc([], o, size);
    assert [] + [o] == [o];
  }

  /** The bins of the serial writer: it closes a shard even when nothing is in it yet. So a first tensor above the cap
      leaves an empty first bin; otherwise its packing is the greedy one. */
  ghost predicate SerialBins(bins: seq<seq<Out>>, tensors: seq<Out>, cap: nat, size: Out -> nat) {
    && bins != [] && (bins[0] == [] <==> tensors == [] || size(tensors[0]) > cap)
    && GreedyBins(if bins[0] == [] then bins[1..] else bins, tensors, cap, size)
  }

  /** The serial converter's shards are the dictionaries of its bins; the total counts every tensor. */
  method SaveTensors(tensors: seq<Out>, cap: nat, size: Out -> nat)
    returns (models: seq<seq<Out>>, totalSize: nat, ghost bins: seq<seq<Out>>)
    ensures SerialBins(bins, tensors, cap, size) && models == Dicts(bins) && totalSize == Total(tensors, size)
  {
    hide *;
    SerialBegin(tensors, cap, size);
    models := [[]];
    totalSize := 0;
    var currentSize := 0;
    ghost var skipped := false;
    ghost var closed: seq<seq<Out>> := [];
    ghost var open: seq<Out> := [];
    for i := 0 to |tensors|
      invariant models == Dicts(Layout(skipped, closed, open)) && currentSize == Total(open, size)
      invariant totalSize == Total(tensors[..i], size)
      invariant Serial(tensors, i, cap, size, skipped, closed, open)
    {
      var o := tensors[i];
      SerialStep(tensors, i, cap, size, skipped, closed, open);
      LayoutSteps(skipped, closed, open, o);
      if size(o) + currentSize > cap {
        models := models + [[]];
        currentSize := 0;
        SerialCurrent(tensors, i, cap, size, skipped, closed, open);
        skipped, closed := skipped || open == [], if open == [] then [] else closed + [open];
        LayoutSteps(skipped, closed, [], o);
        open := [];
        assert open + [o] == [o];
        NothingIn();
      }
      models := models[|models| - 1 := SetItem(models[|models| - 1], o)];
      currentSize := currentSize + size(o);
      totalSize := totalSize + size(o);
      open := open + [o];
    }
    assert tensors[..|tensors|] == tensors;
    bins := Layout(skipped, closed, open);
    SerialEnd(tensors, cap, size, skipped, closed, open);
  }

  lemma NothingIn()
    ensures AsDict([]) == []
  {}

  lemma SerialCurrent(tensors: seq<Out>, i: nat, cap: nat, size: Out -> nat,
                      skipped: bool, closed: seq<seq<Out>>, open: seq<Out>)
    requires i <= |tensors| && Serial(tensors, i, cap, size, skipped, closed, open)
    ensures open == [] ==> closed == [] && !skipped
  {}

  lemma SerialEnd(tensors: seq<Out>, cap: nat, size: Out -> nat, skipped: bool, closed: seq<seq<Out>>, open: seq<Out>)
    requires Serial(tensors, |tensors|, cap, size, skipped, closed, open)
    ensures SerialBins(Layout(skipped, closed, open), tensors, cap, size)
  {
    var bins := Layout(skipped, closed, open);
    assert tensors[..|tensors|] == tensors;
    if skipped || open == [] {
      assert bins[1..] == WithCurrent(closed, open);
    } else {
      assert bins == WithCurrent(closed, open);
      assert bins[0] != [];
    }
  }

  /** With distinct names the serial shards hold the tensors in order. */
  lemma SavedDistinct(bins: seq<seq<Out>>, tensors: seq<Out>, cap: nat, size: Out -> nat)
    requires SerialBins(bins, tensors, cap, size) && Distinct(Names(tensors))
    ensures Dicts(bins) == bins && Concat(bins) == tensors
  {
    assert bins == [bins[0]] + bins[1..];
    assert bins[0] == [] ==> Concat(bins) == [] + Concat(bins[1..]) == Concat(bins[1..]);
    assert Concat(bins) == tensors;
    hide SerialBins, GreedyBins;
    forall i | 0 <= i < |bins| ensures AsDict(bins[i]) == bins[i] {
      PartIsDistinct(bins, i);
      DistinctAsDict(bins[i]);
    }
  }

  /** A name is in one of the first `n` models. */
  ghost predicate SavedIn(models: seq<seq<Out>>, n: nat, name: string) {
    exists i :: 0 <= i < n && i < |models| && name in Names(models[i])
  }

  /** Model `i` is the last of the first `n` that has the name. */
  ghost predicate LastIn(models: seq<seq<Out>>, n: nat, i: nat, name: string) {
    i < n <= |models| && name in Names(models[i]) && forall j :: i < j < n ==> name !in Names(models[j])
  }

  /** The name is mapped exactly if one of the first `n` models has it, and then to the file of the last that has it. */
  ghost predicate MapsSaved(models: seq<seq<Out>>, n: nat, weightMap: map<string, string>, name: string) {
    && (name in weightMap <==> SavedIn(models, n, name))
    && (forall i: nat :: LastIn(models, n, i, name) ==> name in weightMap && weightMap[name] == ShardName(i, |models|))
  }

  /** Every name in the first `n` models is mapped to the file of the last of them that has it. */
  ghost predicate SerialMap(models: seq<seq<Out>>, n: nat, weightMap: map<string, string>) {
    forall name :: MapsSaved(models, n, weightMap, name)
  }

  /** The map after the first `k` names of model `n` have been added. */
  ghost predicate SerialPart(models: seq<seq<Out>>, n: nat, k: nat, before: map<string, string>, weightMap: map<string, string>)
    requires n < |models| && k <= |models[n]|
  {
    && (forall name :: name in weightMap <==> name in before || name in Names(models[n])[..k])
    && (forall name :: name in weightMap ==>
          weightMap[name] == if name in Names(models[n])[..k] then ShardName(n, |models|) else before[name])
  }

  lemma SavedStep(models: seq<seq<Out>>, n: nat, name: string)
    requires n < |models|
    ensures SavedIn(models, n + 1, name) <==> SavedIn(models, n, name) || name in Names(models[n])
  {
    if name in Names(models[n]) {
      assert SavedIn(models, n + 1, name);
    }
  }

  lemma LastStep(models: seq<seq<Out>>, n: nat, i: nat, name: string)
    requires n < |models| && LastIn(models, n + 1, i, name)
    ensures if name in Names(models[n]) then i == n else LastIn(models, n, i, name)
  {}

  lemma WholePart(models: seq<seq<Out>>, n: nat, before: map<string, string>, weightMap: map<string, string>, name: string)
    requires n < |models| && SerialPart(models, n, |models[n]|, before, weightMap)
    ensures name in weightMap <==> name in before || name in Names(models[n])
    ensures name in weightMap ==> weightMap[name] == if name in Names(models[n]) then ShardName(n, |models|) else before[name]
  {
    hide ShardName;
    assert Names(models[n])[..|models[n]|] == Names(models[n]);
  }

  lemma MapsSavedStep(models: seq<seq<Out>>, n: nat, before: map<string, string>, weightMap: map<string, string>, name: string)
    requires n < |models| && MapsSaved(models, n, before, name)
    requires name in weightMap <==> name in before || name in Names(models[n])
    requires name in weightMap ==> weightMap[name] == if name in Names(models[n]) then ShardName(n, |models|) else before[name]
    ensures MapsSaved(models, n + 1, weightMap, name)
  {
    hide ShardName, SavedIn, LastIn, Names;
    SavedStep(models, n, name);
    var next := n + 1;
    forall i: nat | LastIn(models, next, i, name) ensures name in weightMap && weightMap[name] == ShardName(i, |models|) {
      LastStep(models, n, i, name);
    }
  }

  lemma SerialMapStep(models: seq<seq<Out>>, n: nat, before: map<string, string>, weightMap: map<string, string>)
    requires n < |models| && SerialMap(models, n, before) && SerialPart(models, n, |models[n]|, before, weightMap)
    ensures SerialMap(models, n + 1, weightMap)
  {
    var next := n + 1;
    forall name ensures MapsSaved(models, next, weightMap, name) {
      assert MapsSaved(models, n, before, name);
      hide *;
      WholePart(models, n, before, weightMap, name);
      MapsSavedStep(models, n, before, weightMap, name);
    }
  }

  /** The serial index. */
  method SerialIndex(models: seq<seq<Out>>) returns (weightMap: map<string, string>)
    ensures SerialMap(models, |models|, weightMap)
  {
    weightMap := map[];
    for n := 0 to |models|
      invariant SerialMap(models, n, weightMap)
    {
      hide SerialMap, SerialPart, ShardName;
      var after := SerialNames(models, n, weightMap);
      SerialMapStep(models, n, weightMap, after);
      weightMap := after;
    }
  }

  /** Adds the names of one model. */
  method SerialNames(models: seq<seq<Out>>, n: nat, before: map<string, string>) returns (weightMap: map<string, string>)
    requires n < |models|
    ensures SerialPart(models, n, |models[n]|, before, weightMap)
  {
    hide ShardName, Names;
    weightMap := before;
    var names := Names(models[n]);
    for k := 0 to |names|
      invariant SerialPart(models, n, k, before, weightMap)
    {
      assert names[..k + 1] == names[..k] + [names[k]];
      weightMap := weightMap[names[k] := ShardName(n, |models|)];
    }
  }

  lemma SerialMapKeys(models: seq<seq<Out>>, n: nat, weightMap: map<string, string>, name: string)
    requires SerialMap(models, n, weightMap)
    ensures name in weightMap <==> SavedIn(models, n, name)
  {
    assert MapsSaved(models, n, weightMap, name);
  }

  lemma {:induction false} SavedNames(models: seq<seq<Out>>, name: string)
    ensures SavedIn(models, |models|, name) <==> name in Names(Concat(models))
  {
    if models != [] {
      SavedNames(models[1..], name);
      assert Names(models[0] + Concat(models[1..])) == Names(models[0]) + Names(Concat(models[1..]));
      if SavedIn(models[1..], |models| - 1, name) {
        var i :| 0 <= i < |models| - 1 && name in Names(models[1..][i]);
        assert models[1..][i] == models[i + 1];
      }
      if SavedIn(models, |models|, name) {
        var i :| 0 <= i < |models| && name in Names(models[i]);
        assert i > 0 ==> models[i] == models[1..][i - 1];
      }
    }
  }

  // ---------------------------------------------------------------- the global index

  datatype TaskResult = TaskResult(taskId: nat, shards: seq<Shard>)

  datatype PlannedShard = PlannedShard(finalName: string, keys: seq<string>, bytes: nat)

  datatype Index = Index(totalSize: nat, weightMap: map<string, string>)

  function ByTaskId(): (TaskResult, TaskResult) -> bool {
    (a: TaskResult, b: TaskResult) => a.taskId <= b.taskId
  }

  /** The shards of all tasks in the order of task ids. */
  function AllShards(results: seq<TaskResult>): seq<Shard> {
    Concat(Map(Sort(results, ByTaskId()), (r: TaskResult) => r.shards))
  }

  /** The shards are those of the results one after the other, with the task ids ascending. */
  lemma ShardsInTaskOrder(results: seq<TaskResult>) returns (sorted: seq<TaskResult>)
    ensures multiset(sorted) == multiset(results)
    ensures forall i, j :: 0 <= i < j < |sorted| ==> sorted[i].taskId <= sorted[j].taskId
    ensures AllShards(results) == Concat(Map(sorted, (r: TaskResult) => r.shards))
  {
    sorted := Sort(results, ByTaskId());
    SortSorts(results, ByTaskId());
    hide Sort;
    forall i, j | 0 <= i < j < |sorted| ensures sorted[i].taskId <= sorted[j].taskId {
      assert ByTaskId()(sorted[i], sorted[j]);
    }
  }

  /** The keys of all shards, shard by shard. */
  function AllNames(shards: seq<Shard>): seq<string> {
    if shards == [] then [] else AllNames(shards[..|shards| - 1]) + Names(shards[|shards| - 1].tensors)
  }

  function BytesOf(shards: seq<Shard>): nat {
    if shards == [] then 0 else BytesOf(shards[..|shards| - 1]) + shards[|shards| - 1].bytes
  }

  lemma DistinctStep(done: seq<string>, key: string, rest: seq<string>)
    requires Distinct(done)
    ensures key in done ==> !Distinct(done + [key] + rest)
    ensures key !in done ==> Distinct(done + [key])
  {
    var all := done + [key] + rest;
    if i :| 0 <= i < |done| && done[i] == key {
      assert all[i] == all[|done|];
    }
  }

  lemma {:induction false} AllNamesPrefix(shards: seq<Shard>, n: nat)
    requires n <= |shards|
    ensures AllNames(shards[..n]) <= AllNames(shards)
    decreases |shards|
  {
    if n == |shards| {
      assert shards[..n] == shards;
    } else {
      AllNamesPrefix(shards[..|shards| - 1], n);
      assert shards[..|shards| - 1][..n] == shards[..n];
    }
  }

  /** Every name of the first `n` shards is mapped to the file of its shard. */
  ghost predicate Maps(shards: seq<Shard>, n: nat, total: nat, weightMap: map<string, string>)
    requires n <= |shards|
  {
    forall i, name :: 0 <= i < n && name in Names(shards[i].tensors) ==>
      name in weightMap && weightMap[name] == ShardName(i, total)
  }

  ghost predicate KeysAre(weightMap: map<string, string>, names: seq<string>) {
    forall name :: name in weightMap <==> name in names
  }

  /** The map after the first `k` keys of a shard have been added to `before`, whose keys are `done`. */
  ghost predicate Mapped(before: map<string, string>, done: seq<string>, keys: seq<string>, k: nat, file: string,
                         weightMap: map<string, string>)
    requires k <= |keys|
  {
    && Distinct(done + keys[..k]) && KeysAre(weightMap, done + keys[..k])
    && (forall name :: name in before ==> name in weightMap && weightMap[name] == before[name])
    && (forall j :: 0 <= j < k ==> keys[j] in weightMap && weightMap[keys[j]] == file)
  }

  lemma MappedBegin(before: map<string, string>, done: seq<string>, keys: seq<string>, file: string)
    requires Distinct(done) && KeysAre(before, done)
    ensures Mapped(before, done, keys, 0, file, before)
  {
    assert done + keys[..0] == done;
  }

  lemma MappedStep(before: map<string, string>, done: seq<string>, keys: seq<string>, k: nat, file: string,
                   weightMap: map<string, string>, after: seq<string>)
    requires k < |keys| && Mapped(before, done, keys, k, file, weightMap)
    ensures keys[k] in weightMap ==> !Distinct(done + keys + after)
    ensures keys[k] !in weightMap ==> Mapped(before, done, keys, k + 1, file, weightMap[keys[k] := file])
  {
    DistinctStep(done + keys[..k], keys[k], keys[k + 1..] + after);
    assert done + keys[..k + 1] == done + keys[..k] + [keys[k]];
    assert done + keys + after == done + keys[..k] + [keys[k]] + (keys[k + 1..] + after);
  }

  /** Adds the keys of one shard; a key that is there already is a duplicate. */
  method MapShard(keys: seq<string>, file: string, before: map<string, string>, ghost done: seq<string>, ghost after: seq<string>)
    returns (r: Result<map<string, string>>)
    requires Distinct(done) && KeysAre(before, done)
    ensures r.Failure? ==> !Distinct(done + keys + after)
    ensures r.Success? ==> Mapped(before, done, keys, |keys|, file, r.value)
  {
    hide *;
    var weightMap := before;
    MappedBegin(before, done, keys, file);
    for k := 0 to |keys|
      invariant Mapped(before, done, keys, k, file, weightMap)
    {
      MappedStep(before, done, keys, k, file, weightMap, after);
      if keys[k] in weightMap {
        return Failure("Duplicate HF tensor emitted during finalization");
      }
      weightMap := weightMap[keys[k] := file];
    }
    r := Success(weightMap);
  }

  /** The plan over the first `n` shards. */
  ghost predicate Planned(shards: seq<Shard>, n: nat, planned: seq<PlannedShard>, index: Index)
    requires n <= |shards|
  {
    && Distinct(AllNames(shards[..n])) && KeysAre(index.weightMap, AllNames(shards[..n]))
    && Maps(shards, n, |shards|, index.weightMap) && index.totalSize == BytesOf(shards[..n])
    && |planned| == n
    && (forall k :: 0 <= k < n ==>
          planned[k] == PlannedShard(ShardName(k, |shards|), Names(shards[k].tensors), shards[k].bytes))
  }

  lemma PrefixStep(shards: seq<Shard>, i: nat)
    requires i < |shards|
    ensures AllNames(shards[..i + 1]) == AllNames(shards[..i]) + Names(shards[i].tensors)
    ensures BytesOf(shards[..i + 1]) == BytesOf(shards[..i]) + shards[i].bytes
    ensures AllNames(shards[..i + 1]) <= AllNames(shards)
  {
    assert shards[..i + 1][..i] == shards[..i] && shards[..i + 1][i] == shards[i];
    AllNamesPrefix(shards, i + 1);
  }

  /** The names after the first `i + 1` shards. */
  ghost function NamesAfter(shards: seq<Shard>, i: nat): (rest: seq<string>)
    requires i < |shards|
    ensures AllNames(shards) == AllNames(shards[..i]) + Names(shards[i].tensors) + rest
  {
    PrefixStep(shards, i);
    AllNames(shards)[|AllNames(shards[..i + 1])|..]
  }

  lemma PlannedStep(shards: seq<Shard>, i: nat, planned: seq<PlannedShard>, index: Index, weightMap: map<string, string>)
    requires i < |shards| && Planned(shards, i, planned, index)
    requires var keys := Names(shards[i].tensors);
             Mapped(index.weightMap, AllNames(shards[..i]), keys, |keys|, ShardName(i, |shards|), weightMap)
    ensures Planned(shards, i + 1, planned + [PlannedShard(ShardName(i, |shards|), Names(shards[i].tensors), shards[i].bytes)],
                    Index(index.totalSize + shards[i].bytes, weightMap))
  {
    var keys := Names(shards[i].tensors);
    PrefixStep(shards, i);
    assert keys[..|keys|] == keys;
    hide Distinct, AllNames, BytesOf;
    MapsStep(shards, i, index.weightMap, weightMap, keys);
  }

  lemma MapsStep(shards: seq<Shard>, i: nat, before: map<string, string>, after: map<string, string>, keys: seq<string>)
    requires i < |shards| && Maps(shards, i, |shards|, before) && keys == Names(shards[i].tensors)
    requires forall name :: name in before ==> name in after && after[name] == before[name]
    requires forall j :: 0 <= j < |keys| ==> keys[j] in after && after[keys[j]] == ShardName(i, |shards|)
    ensures Maps(shards, i + 1, |shards|, after)
  {
    hide ShardName;
    forall k, name | 0 <= k < i + 1 && name in Names(shards[k].tensors)
      ensures name in after && after[name] == ShardName(k, |shards|)
    {
      if k < i {
        assert name in before && before[name] == ShardName(k, |shards|);
      }
    }
  }

  /** Final names, weight map and total size over the results of all tasks, in whatever order they are given. It fails
      exactly when no shard was emitted or two emitted tensors have the same name. */
  method PlanGlobalShards(results: seq<TaskResult>) returns (r: Result<(seq<PlannedShard>, Index)>)
    ensures var shards := AllShards(results);
            && (r.Success? <==> shards != [] && Distinct(AllNames(shards)))
            && (r.Success? ==> Planned(shards, |shards|, r.value.0, r.value.1))
  {
    hide *;
    var shards := AllShards(results);
    if shards == [] {
      return Failure("No HF tensor shards were emitted");
    }
    var index := Index(0, map[]);
    var planned: seq<PlannedShard> := [];
    PlannedBegin(shards);
    for i := 0 to |shards|
      invariant Planned(shards, i, planned, index)
    {
      var file := ShardName(i, |shards|);
      PlannedFacts(shards, i, planned, index);
      var mapped := MapShard(Names(shards[i].tensors), file, index.weightMap, AllNames(shards[..i]), NamesAfter(shards, i));
      if mapped.Failure? {
        return Failure("Duplicate HF tensor emitted during finalization");
      }
      PlannedStep(shards, i, planned, index, mapped.value);
      planned := planned + [PlannedShard(file, Names(shards[i].tensors), shards[i].bytes)];
      index := Index(index.totalSize + shards[i].bytes, mapped.value);
    }
    PlannedFacts(shards, |shards|, planned, index);
    assert shards[..|shards|] == shards;
    r := Success((planned, index));
  }

  lemma PlannedBegin(shards: seq<Shard>)
    ensures Planned(shards, 0, [], Index(0, map[]))
  {}

  lemma PlannedFacts(shards: seq<Shard>, n: nat, planned: seq<PlannedShard>, index: Index)
    requires n <= |shards| && Planned(shards, n, planned, index)
    ensures Distinct(AllNames(shards[..n])) && KeysAre(index.weightMap, AllNames(shards[..n]))
  {}

  /** No two shards of a plan get the same final file. */
  lemma FinalNamesDiffer(shards: seq<Shard>, planned: seq<PlannedShard>, index: Index, i: nat, j: nat)
    requires Planned(shards, |shards|, planned, index) && i < j < |shards|
    ensures planned[i].finalName != planned[j].finalName
  {
    if ShardName(i, |shards|) == ShardName(j, |shards|) {
      ShardNamesDiffer(i, j, |shards|);
    }
  }
}
