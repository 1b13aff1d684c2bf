/** The two converters from end to end: what the parallel one leaves on disk against what the serial one does. */
module Conversion {

  import opened Accumulation
  import opened Cores
  import opened Dispatcher
  import opened FamilyRefinement
  import opened GreedyPacking
  import opened MoeChunks
  import opened OrderSafety
  import opened Params
  import opened Planner
  import opened RayIndex
  import opened RayRefinement
  import opened Rearrangement
  import opened Schedule
  import opened Sequences
  import opened SerialConversion
  import opened Sharding
  import opened Sorting
  import opened Spread
  import opened Tensors
  import opened Wrappers

  // ---------------------------------------------------------------- what the workers produce

  function CallsPerTask(taskCalls: seq<seq<Action>>): seq<nat> -> seq<seq<Action>> {
    (ids: seq<nat>) => Map(ids, CallsOfTask(taskCalls))
  }

  /** What is handed on for each task, worker by worker. */
  function TaskOutputs(combine: (string, Bucket) -> Tensor, taskCalls: seq<seq<Action>>, order: seq<seq<nat>>): seq<seq<Out>> {
    Concat(Map(Map(order, CallsPerTask(taskCalls)), OutputsOfWorker(combine)))
  }

  /** One result for each task: its id, and the shards of what was handed on for it. */
  ghost predicate ResultsFor(ids: seq<nat>, outputs: seq<seq<Out>>, cap: nat, size: Out -> nat, results: seq<TaskResult>) {
    && |results| == |ids| == |outputs|
    && forall k :: 0 <= k < |results| ==> results[k].taskId == ids[k] && Packs(results[k].shards, outputs[k], cap, size)
  }

  lemma ResultsAppend(ids: seq<nat>, outputs: seq<seq<Out>>, ids': seq<nat>, outputs': seq<seq<Out>>, cap: nat, size: Out -> nat,
                      results: seq<TaskResult>, more: seq<TaskResult>)
    requires ResultsFor(ids, outputs, cap, size, results) && ResultsFor(ids', outputs', cap, size, more)
    ensures ResultsFor(ids + ids', outputs + outputs', cap, size, results + more)
  {
    hide Packs;
    var all := results + more;
    forall k | 0 <= k < |all|
      ensures all[k].taskId == (ids + ids')[k] && Packs(all[k].shards, (outputs + outputs')[k], cap, size)
    {
      if k < |results| {
        assert all[k] == results[k];
      } else {
        assert all[k] == more[k - |results|];
      }
    }
  }

  /** The results of the tasks that were run, worker by worker. */
  ghost predicate Produced(combine: (string, Bucket) -> Tensor, taskCalls: seq<seq<Action>>, order: seq<seq<nat>>,
                           cap: nat, size: Out -> nat, results: seq<TaskResult>) {
    ResultsFor(Concat(order), TaskOutputs(combine, taskCalls, order), cap, size, results)
  }

  lemma CollectedByTask(combine: (string, Bucket) -> Tensor, taskCalls: seq<seq<Action>>, order: seq<seq<nat>>)
    ensures multiset(Concat(TaskOutputs(combine, taskCalls, order))) == Collected(combine, Map(order, WorkerCalls(taskCalls)))
  {
    var workers := Map(order, CallsPerTask(taskCalls));
    TaskOutputsAreCollected(combine, workers);
    assert Map(workers, CallsOfWorker()) == Map(order, WorkerCalls(taskCalls));
  }

  /** With distinct names, the results hold what was handed on, in shards that are not empty and have the right size. */
  lemma ResultsHoldOutputs(outputs: seq<seq<Out>>, cap: nat, size: Out -> nat, results: seq<TaskResult>)
    requires |results| == |outputs| && Distinct(Names(Concat(outputs)))
    requires forall k :: 0 <= k < |results| ==> Packs(results[k].shards, outputs[k], cap, size)
    ensures Map(results, ResultOuts) == outputs
    ensures forall r, sh :: r in results && sh in r.shards ==> sh.tensors != [] && sh.bytes == Total(sh.tensors, size)
  {
    forall k | 0 <= k < |results|
      ensures ResultOuts(results[k]) == outputs[k]
      ensures forall sh :: sh in results[k].shards ==> sh.tensors != [] && sh.bytes == Total(sh.tensors, size)
    {
      PartIsDistinct(outputs, k);
      PackedDistinct(results[k].shards, outputs[k], cap, size);
    }
  }

  // ---------------------------------------------------------------- the two outputs compared

  /** Finalization succeeds, its shards hold exactly the tensors of the serial shards, its index has exactly the names of
      the serial index, and the recorded sizes are the same. */
  ghost predicate SameConversion(results: seq<TaskResult>, models: seq<seq<Out>>, serialMap: map<string, string>, serialSize: nat) {
    var shards := AllShards(results);
    && shards != [] && Distinct(AllNames(shards))
    && multiset(Concat(BinsOf(shards))) == multiset(Concat(models))
    && (forall name :: name in AllNames(shards) <==> name in serialMap)
    && BytesOf(shards) == serialSize
  }

  /** What the serial converter writes: its shards, their index and the total size. */
  ghost predicate SerialFiles(tensors: seq<Out>, cap: nat, size: Out -> nat, models: seq<seq<Out>>,
                              serialMap: map<string, string>, serialSize: nat) {
    && (exists bins :: SerialBins(bins, tensors, cap, size) && models == Dicts(bins))
    && SerialMap(models, |models|, serialMap) && serialSize == Total(tensors, size)
  }

  lemma SerialFilesDistinct(tensors: seq<Out>, cap: nat, size: Out -> nat, models: seq<seq<Out>>,
                            serialMap: map<string, string>, serialSize: nat)
    requires SerialFiles(tensors, cap, size, models, serialMap, serialSize) && Distinct(Names(tensors))
    ensures Concat(models) == tensors && serialSize == Total(tensors, size)
    ensures forall name :: name in serialMap <==> name in Names(tensors)
  {
    var bins :| SerialBins(bins, tensors, cap, size) && models == Dicts(bins);
    SavedDistinct(bins, tensors, cap, size);
    hide *;
    forall name ensures name in serialMap <==> name in Names(tensors) {
      SerialMapKeys(models, |models|, serialMap, name);
      SavedNames(models, name);
    }
  }

  lemma ResultsCompared(results: seq<TaskResult>, all: seq<Out>, size: Out -> nat, models: seq<seq<Out>>,
                        serialMap: map<string, string>, serialSize: nat)
    requires multiset(Concat(Map(results, ResultOuts))) <= multiset(all) && Distinct(Names(all))
    requires forall r, sh :: r in results && sh in r.shards ==> sh.tensors != [] && sh.bytes == Total(sh.tensors, size)
    requires Concat(models) == all && serialSize == Total(all, size) && forall name :: name in serialMap <==> name in Names(all)
    ensures SameConversion(results, models, serialMap, serialSize) <==>
            multiset(Concat(Map(results, ResultOuts))) == multiset(all) && all != []
  {
    var shards, outs := AllShards(results), Concat(Map(results, ResultOuts));
    FinalShards(results, all);
    ShardsSized(results, size);
    hide AllShards, AllNames, Distinct, Names, BytesOf;
    if multiset(outs) == multiset(all) && all != [] {
      SameLength(outs, all);
      TotalPermutation(Concat(BinsOf(shards)), all, size);
      assert SameConversion(results, models, serialMap, serialSize);
    }
    if SameConversion(results, models, serialMap, serialSize) {
      assert forall name :: name in AllNames(shards) <==> name in Names(all);
      SameLength(outs, all);
    }
  }

  lemma ShardsSized(results: seq<TaskResult>, size: Out -> nat)
    requires forall r, sh :: r in results && sh in r.shards ==> sh.tensors != [] && sh.bytes == Total(sh.tensors, size)
    ensures BytesOf(AllShards(results)) == Total(Concat(BinsOf(AllShards(results))), size)
  {
    var sorted := Sort(results, ByTaskId());
    var lists := Map(sorted, (r: TaskResult) => r.shards);
    hide Sort;
    forall i | 0 <= i < |AllShards(results)| ensures AllShards(results)[i].bytes == Total(AllShards(results)[i].tensors, size) {
      var sh := AllShards(results)[i];
      InConcat(lists, sh);
      var k :| 0 <= k < |lists| && sh in lists[k];
      InPermutation(sorted, results, sorted[k]);
    }
    BytesAddUp(AllShards(results), size);
  }

  lemma ConversionsCompared(combine: (string, Bucket) -> Tensor, taskCalls: seq<seq<Action>>, order: seq<seq<nat>>,
                            serial: seq<Action>, cap: nat, size: Out -> nat, produced: seq<TaskResult>,
                            results: seq<TaskResult>, serialCap: nat, models: seq<seq<Out>>,
                            serialMap: map<string, string>, serialSize: nat)
    requires Collected(combine, Map(order, WorkerCalls(taskCalls))) <= multiset(Outputs(combine, serial))
    requires Produced(combine, taskCalls, order, cap, size, produced) && multiset(results) == multiset(produced)
    requires SerialFiles(Outputs(combine, serial), serialCap, size, models, serialMap, serialSize)
    requires Distinct(Names(Outputs(combine, serial)))
    ensures SameConversion(results, models, serialMap, serialSize) <==>
            Collected(combine, Map(order, WorkerCalls(taskCalls))) == multiset(Outputs(combine, serial)) && Outputs(combine, serial) != []
  {
    CollectedByTask(combine, taskCalls, order);
    var all, outputs := Outputs(combine, serial), TaskOutputs(combine, taskCalls, order);
    PartOfDistinct(Concat(outputs), all);
    SerialFilesDistinct(all, serialCap, size, models, serialMap, serialSize);
    ResultsHoldOutputs(outputs, cap, size, produced);
    hide *;
    MapPermutation(results, produced, ResultOuts);
    ConcatPermutation(Map(results, ResultOuts), Map(produced, ResultOuts));
    SameShards(results, produced, size);
    ResultsCompared(results, all, size, models, serialMap, serialSize);
  }

  lemma SameShards(results: seq<TaskResult>, produced: seq<TaskResult>, size: Out -> nat)
    requires multiset(results) == multiset(produced)
    requires forall r, sh :: r in produced && sh in r.shards ==> sh.tensors != [] && sh.bytes == Total(sh.tensors, size)
    ensures forall r, sh :: r in results && sh in r.shards ==> sh.tensors != [] && sh.bytes == Total(sh.tensors, size)
  {
    forall r | r in results ensures r in produced {
      InPermutation(results, produced, r);
    }
  }

  /** Whatever the names: what is in shards was handed on, and a conversion that is the same has handed on everything. */
  lemma SameNeedsOutputs(combine: (string, Bucket) -> Tensor, taskCalls: seq<seq<Action>>, order: seq<seq<nat>>,
                         serial: seq<Action>, cap: nat, size: Out -> nat, produced: seq<TaskResult>,
                         results: seq<TaskResult>, serialCap: nat, models: seq<seq<Out>>,
                         serialMap: map<string, string>, serialSize: nat)
    requires Produced(combine, taskCalls, order, cap, size, produced) && multiset(results) == multiset(produced)
    requires SerialFiles(Outputs(combine, serial), serialCap, size, models, serialMap, serialSize)
    requires Distinct(Names(Outputs(combine, serial)))
    requires SameConversion(results, models, serialMap, serialSize)
    ensures multiset(Outputs(combine, serial)) <= Collected(combine, Map(order, WorkerCalls(taskCalls)))
    ensures Outputs(combine, serial) != []
  {
    CollectedByTask(combine, taskCalls, order);
    SerialFilesDistinct(Outputs(combine, serial), serialCap, size, models, serialMap, serialSize);
    var outputs := TaskOutputs(combine, taskCalls, order);
    ResultsPart(outputs, Concat(order), cap, size, produced);
    ShardsHoldResults(results);
    MapPermutation(results, produced, ResultOuts);
    ConcatPermutation(Map(results, ResultOuts), Map(produced, ResultOuts));
    NonEmptyShards(results, produced);
    assert multiset(Concat(BinsOf(AllShards(results)))) == multiset(Outputs(combine, serial));
    hide *;
    EmptyShards(AllShards(results));
    SameLength(Concat(BinsOf(AllShards(results))), Outputs(combine, serial));
  }

  lemma ResultsPart(outputs: seq<seq<Out>>, ids: seq<nat>, cap: nat, size: Out -> nat, results: seq<TaskResult>)
    requires ResultsFor(ids, outputs, cap, size, results)
    ensures multiset(Concat(Map(results, ResultOuts))) <= multiset(Concat(outputs))
    ensures forall r, sh :: r in results && sh in r.shards ==> sh.tensors != []
  {
    forall k | 0 <= k < |results|
      ensures multiset(ResultOuts(results[k])) <= multiset(outputs[k]) && forall sh :: sh in results[k].shards ==> sh.tensors != []
    {
      PackedPart(results[k].shards, outputs[k], cap, size);
    }
    hide ResultOuts, Packs;
    PartsOfConcat(Map(results, ResultOuts), outputs);
  }

  lemma NonEmptyShards(results: seq<TaskResult>, produced: seq<TaskResult>)
    requires multiset(results) == multiset(produced)
    requires forall r, sh :: r in produced && sh in r.shards ==> sh.tensors != []
    ensures forall sh :: sh in AllShards(results) ==> sh.tensors != []
  {
    forall r | r in results ensures r in produced {
      InPermutation(results, produced, r);
    }
    ShardsOfResults(results);
  }

  /** From end to end, for a core of a family. For every plan, every assignment of its tasks to workers and every order in
      which the results come in: the parallel conversion leaves what the serial one does (finalization succeeds, same
      tensors under the same names, same index keys, same total size) exactly if no joined output was split, every direct
      source with experts goes by the core's names, and there is anything to write. */
  lemma EndToEnd(d: Dims, core: Core, family: Family, combine: (string, Bucket) -> Tensor, stored: seq<Stored>,
                 calls: Unit -> seq<Action>, tasks: seq<TaskSpec>, taskCalls: seq<seq<Action>>, order: seq<seq<nat>>,
                 serial: seq<Action>, cap: nat, size: Out -> nat, produced: seq<TaskResult>, results: seq<TaskResult>,
                 serialCap: nat, models: seq<seq<Out>>, serialMap: map<string, string>, serialSize: nat)
    requires Execution(d, core, stored, calls, tasks, taskCalls) && Handed(order, |tasks|) && FollowsAll(core, family, stored)
    requires SerialCalls(d, core, stored) == Success(serial) && Ready(map[], serial)
    requires Produced(combine, taskCalls, order, cap, size, produced) && multiset(results) == multiset(produced)
    requires SerialFiles(Outputs(combine, serial), serialCap, size, models, serialMap, serialSize)
    requires Distinct(Names(Outputs(combine, serial)))
    ensures SameConversion(results, models, serialMap, serialSize) <==>
            Unsplit(Map(order, WorkerCalls(taskCalls)), serial) && NamedAlike(family, stored) && Outputs(combine, serial) != []
  {
    hide *;
    FamilyRefinesSerial(d, core, family, combine, stored, calls, tasks, taskCalls, order, serial);
    if Collected(combine, Map(order, WorkerCalls(taskCalls))) == multiset(Outputs(combine, serial)) {
      ConversionsCompared(combine, taskCalls, order, serial, cap, size, produced, results, serialCap, models, serialMap, serialSize);
    } else if SameConversion(results, models, serialMap, serialSize) {
      SameNeedsOutputs(combine, taskCalls, order, serial, cap, size, produced, results, serialCap, models, serialMap, serialSize);
    }
  }

  /** For any core: if the direct route makes the serial loop's calls, exactly if no joined output was split and there is
      anything to write. */
  lemma AlikeEndToEnd(d: Dims, core: Core, combine: (string, Bucket) -> Tensor, stored: seq<Stored>,
                      calls: Unit -> seq<Action>, tasks: seq<TaskSpec>, taskCalls: seq<seq<Action>>, order: seq<seq<nat>>,
                      serial: seq<Action>, cap: nat, size: Out -> nat, produced: seq<TaskResult>, results: seq<TaskResult>,
                      serialCap: nat, models: seq<seq<Out>>, serialMap: map<string, string>, serialSize: nat)
    requires Execution(d, core, stored, calls, tasks, taskCalls) && Handed(order, |tasks|) && DirectAlike(d, core, stored)
    requires SerialCalls(d, core, stored) == Success(serial) && Ready(map[], serial)
    requires Produced(combine, taskCalls, order, cap, size, produced) && multiset(results) == multiset(produced)
    requires SerialFiles(Outputs(combine, serial), serialCap, size, models, serialMap, serialSize)
    requires Distinct(Names(Outputs(combine, serial)))
    ensures SameConversion(results, models, serialMap, serialSize) <==>
            Unsplit(Map(order, WorkerCalls(taskCalls)), serial) && Outputs(combine, serial) != []
  {
    hide *;
    RayRefinesSerial(d, core, combine, stored, calls, tasks, taskCalls, order, serial);
    ConversionsCompared(combine, taskCalls, order, serial, cap, size, produced, results, serialCap, models, serialMap, serialSize);
  }

  // ---------------------------------------------------------------- every run

  /** The results of a run in which `finishes` says who is ready when, in the order in which they come in. */
  ghost predicate RunResults(combine: (string, Bucket) -> Tensor, taskCalls: seq<seq<Action>>, workers: nat, finishes: seq<nat>,
                             cap: nat, size: Out -> nat, results: seq<TaskResult>)
    requires workers >= 1
  {
    exists produced :: Produced(combine, taskCalls, Assigned(workers, finishes, |taskCalls|), cap, size, produced)
                       && multiset(results) == multiset(produced)
  }

  lemma {:induction false} OneOutputPerTask(combine: (string, Bucket) -> Tensor, acc: Pieces, tasks: seq<seq<Action>>)
    ensures |WorkerOutputs(combine, acc, tasks)| == |tasks|
    decreases |tasks|
  {
    if tasks != [] {
      OneOutputPerTask(combine, Run(combine, acc, tasks[0]).0, tasks[1..]);
    }
  }

  lemma {:induction false} OutputsPerTask(combine: (string, Bucket) -> Tensor, taskCalls: seq<seq<Action>>, order: seq<seq<nat>>)
    ensures |TaskOutputs(combine, taskCalls, order)| == |Concat(order)|
  {
    if order != [] {
      OutputsPerTask(combine, taskCalls, order[1..]);
      var workers := Map(order, CallsPerTask(taskCalls));
      OneOutputPerTask(combine, map[], workers[0]);
      assert workers[1..] == Map(order[1..], CallsPerTask(taskCalls));
      assert Map(workers, OutputsOfWorker(combine))[1..] == Map(workers[1..], OutputsOfWorker(combine));
    }
  }

  lemma {:induction false} SomeResults(ids: seq<nat>, outputs: seq<seq<Out>>, cap: nat, size: Out -> nat) returns (results: seq<TaskResult>)
    requires |ids| == |outputs|
    ensures ResultsFor(ids, outputs, cap, size, results)
  {
    results := [];
    if ids != [] {
      results := SomeResults(ids[1..], outputs[1..], cap, size);
      var closed, current := GreedyExists(outputs[0], cap, size);
      var bins := WithCurrent(closed, current);
      var shards := seq(|bins|, i requires 0 <= i < |bins| => Shard(AsDict(bins[i]), Total(bins[i], size)));
      PackedBy(shards, bins, outputs[0], cap, size);
      results := [TaskResult(ids[0], shards)] + results;
    }
  }

  lemma SomeRun(combine: (string, Bucket) -> Tensor, taskCalls: seq<seq<Action>>, workers: nat, finishes: seq<nat>,
                cap: nat, size: Out -> nat) returns (results: seq<TaskResult>)
    requires workers >= 1
    ensures RunResults(combine, taskCalls, workers, finishes, cap, size, results)
  {
    var order := Assigned(workers, finishes, |taskCalls|);
    hide Assigned;
    OutputsPerTask(combine, taskCalls, order);
    results := SomeResults(Concat(order), TaskOutputs(combine, taskCalls, order), cap, size);
    assert Produced(combine, taskCalls, order, cap, size, results);
    assert RunResults(combine, taskCalls, workers, finishes, cap, size, results);
  }

  /** One run. */
  lemma RunCompared(d: Dims, core: Core, family: Family, combine: (string, Bucket) -> Tensor, stored: seq<Stored>,
                    calls: Unit -> seq<Action>, tasks: seq<TaskSpec>, taskCalls: seq<seq<Action>>, workers: nat,
                    finishes: seq<nat>, serial: seq<Action>, cap: nat, size: Out -> nat, results: seq<TaskResult>,
                    serialCap: nat, models: seq<seq<Out>>, serialMap: map<string, string>, serialSize: nat)
    requires Execution(d, core, stored, calls, tasks, taskCalls) && workers >= 1 && FollowsAll(core, family, stored)
    requires SerialCalls(d, core, stored) == Success(serial) && Ready(map[], serial)
    requires RunResults(combine, taskCalls, workers, finishes, cap, size, results)
    requires SerialFiles(Outputs(combine, serial), serialCap, size, models, serialMap, serialSize)
    requires Distinct(Names(Outputs(combine, serial)))
    ensures SameConversion(results, models, serialMap, serialSize) <==>
            Unsplit(WorkOf(taskCalls, workers, finishes), serial) && NamedAlike(family, stored) && Outputs(combine, serial) != []
  {
    var order := Assigned(workers, finishes, |taskCalls|);
    var produced :| Produced(combine, taskCalls, order, cap, size, produced) && multiset(results) == multiset(produced);
    assert WorkOf(taskCalls, workers, finishes) == Map(order, WorkerCalls(taskCalls));
    hide *;
    AssignedIsHanded(workers, finishes, |taskCalls|);
    TasksMakeAllCalls(d, core, stored, calls, tasks, taskCalls);
    EndToEnd(d, core, family, combine, stored, calls, tasks, taskCalls, order, serial, cap, size, produced, results, serialCap,
             models, serialMap, serialSize);
  }

  /** A plan, a number of workers, and all runs they allow: every run leaves what the serial conversion does exactly if the
      plan is safe, every direct source with experts goes by the core's names, and there is anything to write. */
  lemma EveryRunAgrees(d: Dims, core: Core, family: Family, combine: (string, Bucket) -> Tensor, stored: seq<Stored>,
                       calls: Unit -> seq<Action>, tasks: seq<TaskSpec>, taskCalls: seq<seq<Action>>, workers: nat,
                       serial: seq<Action>, cap: nat, size: Out -> nat,
                       serialCap: nat, models: seq<seq<Out>>, serialMap: map<string, string>, serialSize: nat)
    requires Execution(d, core, stored, calls, tasks, taskCalls) && workers >= 1 && FollowsAll(core, family, stored)
    requires SerialCalls(d, core, stored) == Success(serial) && Ready(map[], serial)
    requires SerialFiles(Outputs(combine, serial), serialCap, size, models, serialMap, serialSize)
    requires Distinct(Names(Outputs(combine, serial)))
    ensures (forall finishes: seq<nat>, results :: RunResults(combine, taskCalls, workers, finishes, cap, size, results) ==>
               SameConversion(results, models, serialMap, serialSize))
            <==> OrderSafe(taskCalls, serial, workers) && NamedAlike(family, stored) && Outputs(combine, serial) != []
  {
    assert SerialCalls(d, core, stored).Success?;
    hide *;
    FamilyStashesNothing(d, core, family, stored);
    TasksStash(d, core, stored, calls, tasks, taskCalls, serial);
    EveryOrder(taskCalls, serial, workers);
    forall finishes: seq<nat>, results | RunResults(combine, taskCalls, workers, finishes, cap, size, results)
      ensures SameConversion(results, models, serialMap, serialSize) <==>
              Unsplit(WorkOf(taskCalls, workers, finishes), serial) && NamedAlike(family, stored) && Outputs(combine, serial) != []
    {
      RunCompared(d, core, family, combine, stored, calls, tasks, taskCalls, workers, finishes, serial, cap, size, results,
                  serialCap, models, serialMap, serialSize);
    }
    if forall finishes: seq<nat>, results :: RunResults(combine, taskCalls, workers, finishes, cap, size, results) ==>
         SameConversion(results, models, serialMap, serialSize)
    {
      forall finishes: seq<nat>
        ensures Unsplit(WorkOf(taskCalls, workers, finishes), serial) && NamedAlike(family, stored) && Outputs(combine, serial) != []
      {
        var results := SomeRun(combine, taskCalls, workers, finishes, cap, size);
      }
      var nobody: seq<nat> := [];
      assert Unsplit(WorkOf(taskCalls, workers, nobody), serial) && NamedAlike(family, stored) && Outputs(combine, serial) != [];
    }
  }
}
