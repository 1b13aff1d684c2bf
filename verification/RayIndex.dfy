/** The end of the parallel conversion: results of all workers, final shards and index, against the serial output. */
module RayIndex {

  import opened Accumulation
  import opened GreedyPacking
  import opened Sequences
  import opened Sharding
  import opened Sorting
  import opened Spread
  import opened Tensors

  // ---------------------------------------------------------------- the outputs of single tasks

  /** What a worker hands on for each of its tasks in turn; what is stashed stays stashed between tasks. */
  function WorkerOutputs(combine: (string, Bucket) -> Tensor, acc: Pieces, tasks: seq<seq<Action>>): seq<seq<Out>>
    decreases |tasks|
  {
    if tasks == [] then []
    else
      var first := Run(combine, acc, tasks[0]);
      [first.1] + WorkerOutputs(combine, first.0, tasks[1..])
  }

  lemma {:induction false} WorkerOutputsTogether(combine: (string, Bucket) -> Tensor, acc: Pieces, tasks: seq<seq<Action>>)
    ensures Concat(WorkerOutputs(combine, acc, tasks)) == Run(combine, acc, Concat(tasks)).1
    decreases |tasks|
  {
    if tasks != [] {
      var first := Run(combine, acc, tasks[0]);
      WorkerOutputsTogether(combine, first.0, tasks[1..]);
      RunAppend(combine, acc, tasks[0], Concat(tasks[1..]));
      assert WorkerOutputs(combine, acc, tasks)[1..] == WorkerOutputs(combine, first.0, tasks[1..]);
    }
  }

  function OutputsOfWorker(combine: (string, Bucket) -> Tensor): seq<seq<Action>> -> seq<seq<Out>> {
    (tasks: seq<seq<Action>>) => WorkerOutputs(combine, map[], tasks)
  }

  function CallsOfWorker(): seq<seq<Action>> -> seq<Action> {
    (tasks: seq<seq<Action>>) => Concat(tasks)
  }

  /** The outputs of all tasks of all workers are what the workers hand on. */
  lemma {:induction false} TaskOutputsAreCollected(combine: (string, Bucket) -> Tensor, workers: seq<seq<seq<Action>>>)
    ensures multiset(Concat(Concat(Map(workers, OutputsOfWorker(combine))))) == Collected(combine, Map(workers, CallsOfWorker()))
  {
    var each := (w: seq<Action>) => multiset(Outputs(combine, w));
    var work := Map(workers, CallsOfWorker());
    GatherCongruent(work, each, (w: seq<Action>) => multiset(Outputs(combine, w)));
    if workers == [] {
      assert Map(workers, OutputsOfWorker(combine)) == [] && work == [];
    } else {
      TaskOutputsAreCollected(combine, workers[1..]);
      WorkerOutputsTogether(combine, map[], workers[0]);
      var outs := Map(workers, OutputsOfWorker(combine));
      assert outs[1..] == Map(workers[1..], OutputsOfWorker(combine));
      assert work[1..] == Map(workers[1..], CallsOfWorker());
      GatherCongruent(work[1..], each, (w: seq<Action>) => multiset(Outputs(combine, w)));
      ConcatAppend(outs[0], Concat(outs[1..]));
    }
  }

  // ---------------------------------------------------------------- the results

  function ResultOuts(r: TaskResult): seq<Out> { Concat(BinsOf(r.shards)) }

  function ResultShards(r: TaskResult): seq<Shard> { r.shards }

  lemma {:induction false} NamesOfShards(shards: seq<Shard>)
    ensures AllNames(shards) == Names(Concat(BinsOf(shards)))
  {
    if shards == [] {
      assert BinsOf(shards) == [];
    } else {
      var front, last := shards[..|shards| - 1], shards[|shards| - 1];
      NamesOfShards(front);
      assert BinsOf(shards) == BinsOf(front) + [last.tensors];
      ConcatSnoc(BinsOf(front), last.tensors);
      assert Names(Concat(BinsOf(front)) + last.tensors) == Names(Concat(BinsOf(front))) + Names(last.tensors);
    }
  }

  lemma {:induction false} TensorsOfShardLists(lists: seq<seq<Shard>>)
    ensures Concat(BinsOf(Concat(lists))) == Concat(Map(lists, (l: seq<Shard>) => Concat(BinsOf(l))))
  {
    var each := (l: seq<Shard>) => Concat(BinsOf(l));
    if lists == [] {
      assert BinsOf(Concat(lists)) == [] && Map(lists, each) == [];
    } else {
      TensorsOfShardLists(lists[1..]);
      assert BinsOf(lists[0] + Concat(lists[1..])) == BinsOf(lists[0]) + BinsOf(Concat(lists[1..]));
      ConcatAppend(BinsOf(lists[0]), BinsOf(Concat(lists[1..])));
      assert Map(lists, each)[1..] == Map(lists[1..], (l: seq<Shard>) => Concat(BinsOf(l)));
    }
    assert Map(lists, each) == Map(lists, (l: seq<Shard>) => Concat(BinsOf(l)));
  }

  /** The final shards hold what the results hold. */
  lemma ShardsHoldResults(results: seq<TaskResult>)
    ensures multiset(Concat(BinsOf(AllShards(results)))) == multiset(Concat(Map(results, ResultOuts)))
  {
    var sorted := Sort(results, ByTaskId());
    var lists := Map(sorted, ResultShards);
    assert lists == Map(sorted, (r: TaskResult) => r.shards);
    TensorsOfShardLists(lists);
    assert Map(lists, (l: seq<Shard>) => Concat(BinsOf(l))) == Map(sorted, ResultOuts);
    MapPermutation(sorted, results, ResultOuts);
    ConcatPermutation(Map(sorted, ResultOuts), Map(results, ResultOuts));
  }

  function NameOfOut(o: Out): string { o.name }

  lemma NamesAreMapped(outs: seq<Out>)
    ensures Names(outs) == Map(outs, NameOfOut)
  {}

  /** A part of distinct items is distinct. */
  lemma PartOfDistinct(part: seq<Out>, all: seq<Out>)
    requires multiset(part) <= multiset(all) && Distinct(Names(all))
    ensures Distinct(Names(part))
  {
    DistinctIsOnce(Names(part));
    DistinctIsOnce(Names(all));
    NamesAreMapped(part);
    NamesAreMapped(all);
    forall x ensures multiset(Names(part))[x] <= 1 {
      CountInPart(part, all, x);
    }
  }

  lemma CountInPart(part: seq<Out>, all: seq<Out>, x: string)
    requires multiset(part) <= multiset(all)
    ensures multiset(Map(part, NameOfOut))[x] <= multiset(Map(all, NameOfOut))[x]
  {
    var single := (o: Out) => multiset{NameOfOut(o)};
    MapIsGather(part, NameOfOut, single);
    MapIsGather(all, NameOfOut, single);
    GatherOfPart(part, all, single);
  }

  lemma {:induction false} GatherOfPart<A, B>(part: seq<A>, all: seq<A>, f: A -> multiset<B>)
    requires multiset(part) <= multiset(all)
    ensures Gather(part, f) <= Gather(all, f)
  {
    if part != [] {
      assert part == [part[0]] + part[1..];
      assert part[0] in multiset(all);
      var i :| 0 <= i < |all| && all[i] == part[0];
      GatherWithout(all, i, f);
      assert multiset(part[1..]) == multiset(part) - multiset{part[0]};
      assert multiset(Without(all, i)) == multiset(all) - multiset{part[0]};
      GatherOfPart(part[1..], Without(all, i), f);
    }
  }

  /** Items with distinct names that are part of others are all of them exactly if their names are all names. */
  lemma AllNamesAllItems(part: seq<Out>, all: seq<Out>)
    requires multiset(part) <= multiset(all) && Distinct(Names(all))
    ensures multiset(part) == multiset(all) <==> forall name :: name in Names(part) <==> name in Names(all)
  {
    NamesAreMapped(part);
    NamesAreMapped(all);
    if multiset(part) == multiset(all) {
      MapPermutation(part, all, NameOfOut);
      forall name ensures name in Names(part) <==> name in Names(all) {
        InPermutation(Names(part), Names(all), name);
      }
    }
    if forall name :: name in Names(part) <==> name in Names(all) {
      forall o ensures multiset(part)[o] == multiset(all)[o] {
        SameCount(part, all, o);
      }
    }
  }

  lemma SameCount(part: seq<Out>, all: seq<Out>, o: Out)
    requires multiset(part) <= multiset(all) && Distinct(Names(all))
    requires forall name :: name in Names(part) <==> name in Names(all)
    ensures multiset(part)[o] == multiset(all)[o]
  {
    ItemOnce(all, o);
    if o in all {
      var i :| 0 <= i < |all| && all[i] == o;
      assert Names(all)[i] == o.name;
      assert o.name in Names(all) && o.name in Names(part);
      var k :| 0 <= k < |part| && Names(part)[k] == o.name;
      assert part[k] in multiset(part) && part[k] in multiset(all);
      var l :| 0 <= l < |all| && all[l] == part[k];
      assert Names(all)[l] == o.name;
      assert l == i;
    } else {
      assert o !in multiset(all);
    }
  }

  lemma {:induction false} ItemOnce(all: seq<Out>, o: Out)
    requires Distinct(Names(all))
    ensures multiset(all)[o] <= 1
  {
    if all != [] {
      HeadIsNew(all);
      ItemOnce(all[1..], o);
      assert all == [all[0]] + all[1..];
      assert all[0] == o ==> o !in all[1..];
    }
  }

  /** What finalization finds, when the results are part of items with distinct names and no shard is empty: never a
      duplicate; shards if anything was handed on; and all names exactly if everything was. */
  lemma FinalShards(results: seq<TaskResult>, all: seq<Out>)
    requires multiset(Concat(Map(results, ResultOuts))) <= multiset(all) && Distinct(Names(all))
    requires forall r, sh :: r in results && sh in r.shards ==> sh.tensors != []
    ensures Distinct(AllNames(AllShards(results)))
    ensures AllShards(results) == [] <==> Concat(Map(results, ResultOuts)) == []
    ensures multiset(Concat(BinsOf(AllShards(results)))) == multiset(Concat(Map(results, ResultOuts)))
    ensures (forall name :: name in AllNames(AllShards(results)) <==> name in Names(all))
            <==> multiset(Concat(Map(results, ResultOuts))) == multiset(all)
  {
    hide *;
    ShardsHoldResults(results);
    NamesOfShards(AllShards(results));
    var outs := Concat(BinsOf(AllShards(results)));
    PartOfDistinct(outs, all);
    AllNamesAllItems(outs, all);
    SameLength(outs, Concat(Map(results, ResultOuts)));
    ShardsOfResults(results);
    EmptyShards(AllShards(results));
  }

  lemma SameLength<A>(s: seq<A>, t: seq<A>)
    requires multiset(s) == multiset(t)
    ensures |s| == |t|
  {
    assert |s| == |multiset(s)| == |multiset(t)| == |t|;
  }

  lemma ShardsOfResults(results: seq<TaskResult>)
    requires forall r, sh :: r in results && sh in r.shards ==> sh.tensors != []
    ensures forall sh :: sh in AllShards(results) ==> sh.tensors != []
  {
    var sorted := Sort(results, ByTaskId());
    forall sh | sh in AllShards(results) ensures sh.tensors != [] {
      var lists := Map(sorted, (r: TaskResult) => r.shards);
      InConcat(lists, sh);
      var k :| 0 <= k < |lists| && sh in lists[k];
      InPermutation(sorted, results, sorted[k]);
    }
  }

  lemma EmptyShards(shards: seq<Shard>)
    requires forall sh :: sh in shards ==> sh.tensors != []
    ensures shards == [] <==> Concat(BinsOf(shards)) == []
  {
    if shards != [] {
      assert shards[0].tensors != [];
      assert BinsOf(shards)[0] == shards[0].tensors;
    }
  }

  // ---------------------------------------------------------------- the sizes

  /** When every shard's size is that of its tensors, the sizes add up to the tensors'. */
  lemma {:induction false} BytesAddUp(shards: seq<Shard>, size: Out -> nat)
    requires forall i :: 0 <= i < |shards| ==> shards[i].bytes == Total(shards[i].tensors, size)
    ensures BytesOf(shards) == Total(Concat(BinsOf(shards)), size)
  {
    if shards == [] {
      assert BinsOf(shards) == [];
    } else {
      var front, last := shards[..|shards| - 1], shards[|shards| - 1];
      BytesAddUp(front, size);
      assert BinsOf(shards) == BinsOf(front) + [last.tensors];
      ConcatSnoc(BinsOf(front), last.tensors);
      TotalAppend(Concat(BinsOf(front)), last.tensors, size);
    }
  }
}
