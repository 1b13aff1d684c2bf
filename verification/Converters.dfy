/** The two conversion programs, composed from planning, dispatch, conversion, sharding and indexing. */
module Converters {

  import opened Accumulation
  import opened Conversion
  import opened Cores
  import opened Dispatcher
  import opened FamilyRefinement
  import opened GreedyPacking
  import opened MoeChunks
  import opened OrderSafety
  import opened Params
  import opened Planner
  import opened RayIndex
  import opened RayRefinement
  import opened Rearrangement
  import opened Schedule
  import opened Sequences
  import opened SerialConversion
  import opened Sharding
  import opened Sorting
  import opened Spread
  import opened Tensors
  import opened Wrappers

  // ---------------------------------------------------------------- the serial program

  /** The serial conversion: all parameters through one process, then shards and index. */
  method ConvertSerial(d: Dims, core: Core, combine: (string, Bucket) -> Tensor, stored: seq<Stored>,
                       cap: nat, size: Out -> nat) returns (r: Result<(seq<seq<Out>>, Index)>)
    requires var calls := SerialCalls(d, core, stored); calls.Success? ==> Ready(map[], calls.value)
    ensures r.Failure? <==> exists s :: s in stored && !Convertible(d, core, s)
    ensures r.Failure? <==> SerialCalls(d, core, stored).Failure?
    ensures r.Success? ==> SerialFiles(Outputs(combine, SerialCalls(d, core, stored).value), cap, size,
                                       r.value.0, r.value.1.weightMap, r.value.1.totalSize)
  {
    SerialIsPerSource(d, core, stored);
    hide Ready, Run, SerialBins, SerialMap, Dicts, Convertible;
    var calls := SerialCalls(d, core, stored);
    if calls.Failure? {
      return Failure(calls.message);
    }
    var acc := new PieceAccumulator();
    var outs := acc.Convert(combine, calls.value);
    var models, totalSize, bins := SaveTensors(outs.value, cap, size);
    var weightMap := SerialIndex(models);
    return Success((models, Index(totalSize, weightMap)));
  }

  // ---------------------------------------------------------------- units and tasks

  function Find(stored: seq<Stored>, name: string): Option<Stored> {
    if stored == [] then None else if stored[0].meta.name == name then Some(stored[0]) else Find(stored[1..], name)
  }

  lemma {:induction false} FindsSource(stored: seq<Stored>, s: Stored)
    requires DistinctNames(Map(stored, MetaOf)) && s in stored
    ensures Find(stored, s.meta.name) == Some(s)
  {
    var metas := Map(stored, MetaOf);
    assert metas[0] == stored[0].meta;
    if s != stored[0] {
      var i :| 0 < i < |stored| && stored[i] == s;
      assert metas[i] == s.meta;
      assert Map(stored[1..], MetaOf) == metas[1..];
      FindsSource(stored[1..], s);
    }
  }

  /** The calls of a unit of work, looked up by name. */
  function CallsOfUnit(d: Dims, core: Core, stored: seq<Stored>): Unit -> seq<Action> {
    (u: Unit) =>
      match Find(stored, u.name)
      case None => []
      case Some(s) =>
        match u
        case Whole(_) => SourceCalls(d, core, s)
        case Part(_, i) =>
          if Direct(s.meta) && IsExpertTensor(ExpertRows(s.param.value), SizeOf(s.meta.dims)) && i < |s.meta.chunks|
          then PartCalls(s, i) else []
  }

  /** The tensors of the direct route are what their metadata says. */
  ghost predicate ShapesSound(stored: seq<Stored>) {
    forall s :: s in stored && Direct(s.meta) ==> DirectShape(s)
  }

  lemma UnitsAreCalled(d: Dims, core: Core, stored: seq<Stored>)
    requires DistinctNames(Map(stored, MetaOf)) && ShapesSound(stored)
    ensures UnitCalls(d, core, stored, CallsOfUnit(d, core, stored))
  {
    var calls := CallsOfUnit(d, core, stored);
    forall s | s in stored
      ensures if Direct(s.meta)
              then DirectShape(s) && forall i :: 0 <= i < |s.meta.chunks| ==> calls(Part(s.meta.name, i)) == PartCalls(s, i)
              else calls(Whole(s.meta.name)) == SourceCalls(d, core, s)
    {
      FindsSource(stored, s);
      hide DistinctNames, PartCalls, SourceCalls;
    }
  }

  /** The order in which a task's units are read and converted is a matter of the reader. */
  ghost predicate Rearranges(arrange: seq<Unit> -> seq<Unit>) {
    forall units :: multiset(arrange(units)) == multiset(units)
  }

  function CallsOfTaskSpec(arrange: seq<Unit> -> seq<Unit>, calls: Unit -> seq<Action>): TaskSpec -> seq<Action> {
    (t: TaskSpec) => Concat(Map(arrange(TaskUnitList(t)), calls))
  }

  lemma TasksAreDone(arrange: seq<Unit> -> seq<Unit>, calls: Unit -> seq<Action>, tasks: seq<TaskSpec>)
    requires Rearranges(arrange)
    ensures TasksDone(tasks, calls, Map(tasks, CallsOfTaskSpec(arrange, calls)))
  {
    var taskCalls := Map(tasks, CallsOfTaskSpec(arrange, calls));
    forall i | 0 <= i < |tasks| ensures multiset(taskCalls[i]) == Gather(TaskUnitList(tasks[i]), CallBag(calls)) {
      UnitsTogether(arrange(TaskUnitList(tasks[i])), calls);
      GatherPermutation(arrange(TaskUnitList(tasks[i])), TaskUnitList(tasks[i]), CallBag(calls));
    }
  }

  lemma UnitsTogether(units: seq<Unit>, calls: Unit -> seq<Action>)
    ensures multiset(Concat(Map(units, calls))) == Gather(units, CallBag(calls))
  {
    var asSet := (c: seq<Action>) => multiset(c);
    ConcatMultiset(Map(units, calls));
    GatherCongruent(Map(units, calls), asSet, (c: seq<Action>) => multiset(c));
    GatherMap(units, calls, asSet, CallBag(calls));
  }

  // ---------------------------------------------------------------- errors

  /** The task raises no error: every key that it converts whole can be taken apart, and the core takes every part. A task
      of chunks never calls the core. */
  predicate TaskConvertible(d: Dims, core: Core, stored: seq<Stored>, t: TaskSpec) {
    t.blocks == [] ==> forall k :: k in t.keys && Find(stored, k).Some? ==> Convertible(d, core, Find(stored, k).value)
  }

  /** Some task of a plan raises an error exactly if a source that is converted whole does. */
  lemma TasksFailIff(d: Dims, core: Core, stored: seq<Stored>, tasks: seq<TaskSpec>)
    requires DistinctNames(Map(stored, MetaOf)) && IsPlan(Map(stored, MetaOf), tasks)
    ensures (exists t :: t in tasks && !TaskConvertible(d, core, stored, t))
            <==> exists s :: s in stored && !Direct(s.meta) && !Convertible(d, core, s)
  {
    hide Convertible, IsPlan, TaskUnits, DistinctNames, Direct;
    if s :| s in stored && !Direct(s.meta) && !Convertible(d, core, s) {
      var t := TaskOfSource(stored, tasks, s);
      FindsSource(stored, s);
      assert !TaskConvertible(d, core, stored, t);
    }
    if t :| t in tasks && !TaskConvertible(d, core, stored, t) {
      var k :| k in t.keys && Find(stored, k).Some? && !Convertible(d, core, Find(stored, k).value);
      FoundIsStored(stored, k);
      KeyIsWhole(stored, tasks, t, Find(stored, k).value);
    }
  }

  lemma {:induction false} FoundIsStored(stored: seq<Stored>, name: string)
    requires Find(stored, name).Some?
    ensures Find(stored, name).value in stored && Find(stored, name).value.meta.name == name
  {
    if stored[0].meta.name != name {
      FoundIsStored(stored[1..], name);
    }
  }

  lemma TaskOfSource(stored: seq<Stored>, tasks: seq<TaskSpec>, s: Stored) returns (t: TaskSpec)
    requires DistinctNames(Map(stored, MetaOf)) && IsPlan(Map(stored, MetaOf), tasks) && s in stored && !Direct(s.meta)
    ensures t in tasks && t.blocks == [] && s.meta.name in t.keys
  {
    SourceListed(stored, s);
    var i :| 0 <= i < |stored| && Map(stored, MetaOf)[i] == s.meta;
    hide TaskUnits, DistinctNames, IsPlan, Direct;
    var k := PlannedExactlyOnce(Map(stored, MetaOf), tasks, i, Whole(s.meta.name));
    WholeHolder(tasks[k], s.meta.name);
    t := tasks[k];
  }

  /** A key in a task of whole keys is not on the direct route. */
  lemma KeyIsWhole(stored: seq<Stored>, tasks: seq<TaskSpec>, t: TaskSpec, s: Stored)
    requires DistinctNames(Map(stored, MetaOf)) && IsPlan(Map(stored, MetaOf), tasks)
    requires t in tasks && t.blocks == [] && s in stored && s.meta.name in t.keys
    ensures !Direct(s.meta)
  {
    var sources, u := Map(stored, MetaOf), Whole(s.meta.name);
    UnitsOnce(sources, u);
    WholeInTask(t, s.meta.name);
    hide TaskUnits, Direct;
    GatherContains(tasks, TaskUnits, t, u);
    assert u in Gather(sources, UnitsOf);
    SourceListed(stored, s);
    var i :| 0 <= i < |sources| && UnitOf(sources[i], u);
    var j :| 0 <= j < |sources| && sources[j] == s.meta;
    assert sources[i].name == sources[j].name;
    assert i == j;
  }

  /** Who raises an error, for a core of a family and any plan: the serial loop exactly if a task does, or a source of the
      direct route has experts that the serial loop refuses and the direct route converts all the same. */
  lemma ErrorsCompared(d: Dims, core: Core, family: Family, stored: seq<Stored>, tasks: seq<TaskSpec>)
    requires DistinctNames(Map(stored, MetaOf)) && IsPlan(Map(stored, MetaOf), tasks) && FollowsAll(core, family, stored)
    ensures SerialCalls(d, core, stored).Failure? <==>
            (exists t :: t in tasks && !TaskConvertible(d, core, stored, t))
            || (exists s :: s in stored && RefusedExperts(d, family, s))
  {
    hide *;
    SerialFailsIff(d, core, family, stored);
    TasksFailIff(d, core, stored, tasks);
  }

  // ---------------------------------------------------------------- the workers

  /** One worker: its tasks in turn, each converted with what is stashed and written to shards of its own. */
  method ConvertWorker(combine: (string, Bucket) -> Tensor, ids: seq<nat>, calls: seq<seq<Action>>, cap: nat, size: Out -> nat)
    returns (results: seq<TaskResult>)
    requires |calls| == |ids| && Ready(map[], Concat(calls))
    ensures ResultsFor(ids, WorkerOutputs(combine, map[], calls), cap, size, results)
  {
    hide *;
    OneOutputPerTask(combine, map[], calls);
    var acc := new PieceAccumulator();
    results := [];
    assert calls[0..] == calls;
    ghost var outputs := WorkerOutputs(combine, map[], calls);
    NoResults(ids, outputs, cap, size);
    for k := 0 to |ids|
      invariant Ready(acc.buckets, Concat(calls[k..]))
      invariant outputs[k..] == WorkerOutputs(combine, acc.buckets, calls[k..])
      invariant ResultsFor(ids[..k], outputs[..k], cap, size, results)
    {
      NextTask(combine, map[], calls, k, acc.buckets);
      var outs := acc.Convert(combine, calls[k]);
      var writer := new ShardWriter(cap, size);
      OneGroup(outs.value);
      var written := writer.WriteGroups([outs.value]);
      OneResult(ids, outputs, k, cap, size, results, writer.shards);
      results := results + [TaskResult(ids[k], writer.shards)];
    }
    assert ids[..|ids|] == ids && outputs[..|ids|] == outputs;
  }

  lemma NoResults(ids: seq<nat>, outputs: seq<seq<Out>>, cap: nat, size: Out -> nat)
    ensures ResultsFor(ids[..0], outputs[..0], cap, size, [])
  {}

  lemma OneGroup(outs: seq<Out>)
    ensures Concat([outs]) == outs
  {
    assert [outs][1..] == [];
  }

  lemma OneResult(ids: seq<nat>, outputs: seq<seq<Out>>, k: nat, cap: nat, size: Out -> nat, results: seq<TaskResult>,
                  shards: seq<Shard>)
    requires k < |ids| == |outputs| && ResultsFor(ids[..k], outputs[..k], cap, size, results)
    requires Packs(shards, outputs[k], cap, size)
    ensures ResultsFor(ids[..k + 1], outputs[..k + 1], cap, size, results + [TaskResult(ids[k], shards)])
  {
    assert ids[..k + 1] == ids[..k] + [ids[k]] && outputs[..k + 1] == outputs[..k] + [outputs[k]];
    hide Packs;
    ResultsAppend(ids[..k], outputs[..k], [ids[k]], [outputs[k]], cap, size, results, [TaskResult(ids[k], shards)]);
  }

  lemma NextTask(combine: (string, Bucket) -> Tensor, start: Pieces, calls: seq<seq<Action>>, k: nat, acc: Pieces)
    requires k < |calls| == |WorkerOutputs(combine, start, calls)| && Ready(acc, Concat(calls[k..]))
    requires WorkerOutputs(combine, start, calls)[k..] == WorkerOutputs(combine, acc, calls[k..])
    ensures Ready(acc, calls[k]) && Ready(Run(combine, acc, calls[k]).0, Concat(calls[k + 1..]))
    ensures WorkerOutputs(combine, start, calls)[k] == Run(combine, acc, calls[k]).1
    ensures WorkerOutputs(combine, start, calls)[k + 1..] == WorkerOutputs(combine, Run(combine, acc, calls[k]).0, calls[k + 1..])
  {
    hide Ready, Run;
    assert calls[k..][0] == calls[k] && calls[k..][1..] == calls[k + 1..];
    ReadyFront(acc, calls[k], Concat(calls[k + 1..]));
    ReadyRest(combine, acc, calls[k], Concat(calls[k + 1..]));
    var all := WorkerOutputs(combine, start, calls);
    assert all[k..][0] == all[k] && all[k..][1..] == all[k + 1..];
  }

  lemma WorkerReady(taskCalls: seq<seq<Action>>, order: seq<seq<nat>>, ray: seq<Action>, w: nat)
    requires Handed(order, |taskCalls|) && multiset(Concat(taskCalls)) == multiset(ray) && Ready(map[], ray)
    requires w < |order|
    ensures Ready(map[], Concat(CallsPerTask(taskCalls)(order[w])))
  {
    hide Ready, Handed;
    WorkersMakeAllCalls(order, taskCalls);
    var work := Map(order, WorkerCalls(taskCalls));
    OneProcess(work, w);
    PutsOfPart(work[w], ray);
    PartOf(work[w], ray);
  }

  lemma OneMoreWorker(combine: (string, Bucket) -> Tensor, taskCalls: seq<seq<Action>>, order: seq<seq<nat>>, w: nat)
    requires w < |order|
    ensures Concat(order[..w + 1]) == Concat(order[..w]) + order[w]
    ensures TaskOutputs(combine, taskCalls, order[..w + 1]) ==
            TaskOutputs(combine, taskCalls, order[..w]) + WorkerOutputs(combine, map[], CallsPerTask(taskCalls)(order[w]))
  {
    assert order[..w + 1] == order[..w] + [order[w]];
    ConcatSnoc(order[..w], order[w]);
    hide Concat, WorkerOutputs;
    var per := CallsPerTask(taskCalls);
    MapSnoc(order[..w], order[w], per);
    MapSnoc(Map(order[..w], per), per(order[w]), OutputsOfWorker(combine));
    ConcatSnoc(Map(Map(order[..w], per), OutputsOfWorker(combine)), OutputsOfWorker(combine)(per(order[w])));
  }

  /** All workers. */
  method ConvertTasks(combine: (string, Bucket) -> Tensor, taskCalls: seq<seq<Action>>, order: seq<seq<nat>>,
                      cap: nat, size: Out -> nat, ghost ray: seq<Action>) returns (results: seq<TaskResult>)
    requires Handed(order, |taskCalls|) && multiset(Concat(taskCalls)) == multiset(ray) && Ready(map[], ray)
    ensures Produced(combine, taskCalls, order, cap, size, results)
  {
    hide *;
    results := [];
    NoWorkers(combine, taskCalls, order, cap, size);
    for w := 0 to |order|
      invariant Produced(combine, taskCalls, order[..w], cap, size, results)
    {
      WorkerReady(taskCalls, order, ray, w);
      var calls := Map(order[w], CallsOfTask(taskCalls));
      PerTask(taskCalls, order[w]);
      var more := ConvertWorker(combine, order[w], calls, cap, size);
      AddResults(combine, taskCalls, order, w, cap, size, results, more);
      results := results + more;
    }
    assert order[..|order|] == order;
  }

  lemma PerTask(taskCalls: seq<seq<Action>>, ids: seq<nat>)
    ensures CallsPerTask(taskCalls)(ids) == Map(ids, CallsOfTask(taskCalls))
  {}

  lemma NoWorkers(combine: (string, Bucket) -> Tensor, taskCalls: seq<seq<Action>>, order: seq<seq<nat>>, cap: nat, size: Out -> nat)
    ensures Produced(combine, taskCalls, order[..0], cap, size, [])
  {
    assert order[..0] == [];
    assert Map(Map(order[..0], CallsPerTask(taskCalls)), OutputsOfWorker(combine)) == [];
  }

  lemma AddResults(combine: (string, Bucket) -> Tensor, taskCalls: seq<seq<Action>>, order: seq<seq<nat>>, w: nat,
                   cap: nat, size: Out -> nat, results: seq<TaskResult>, more: seq<TaskResult>)
    requires w < |order| && Produced(combine, taskCalls, order[..w], cap, size, results)
    requires ResultsFor(order[w], WorkerOutputs(combine, map[], CallsPerTask(taskCalls)(order[w])), cap, size, more)
    ensures Produced(combine, taskCalls, order[..w + 1], cap, size, results + more)
  {
    OneMoreWorker(combine, taskCalls, order, w);
    hide ResultsFor, TaskOutputs, WorkerOutputs, Concat, CallsPerTask;
    ResultsAppend(Concat(order[..w]), TaskOutputs(combine, taskCalls, order[..w]), order[w],
                  WorkerOutputs(combine, map[], CallsPerTask(taskCalls)(order[w])), cap, size, results, more);
  }

  // ---------------------------------------------------------------- the parallel program

  /** `args.concurrency or min(max(len(tasks), 1), 16)` */
  function Concurrency(requested: int, tasks: nat): int {
    if requested == 0 then Min(Max(tasks, 1), 16) else requested
  }

  /** A run of the parallel conversion: the plan, what each task calls, the results as they came in. */
  datatype RayRun = RayRun(tasks: seq<TaskSpec>, taskCalls: seq<seq<Action>>, results: seq<TaskResult>)

  /** The run is one of its plan, on these workers, with tasks finishing in this order. */
  ghost predicate IsRun(d: Dims, core: Core, stored: seq<Stored>, combine: (string, Bucket) -> Tensor, workers: nat,
                        finishes: seq<nat>, cap: nat, size: Out -> nat, run: RayRun)
    requires workers >= 1
  {
    && Execution(d, core, stored, CallsOfUnit(d, core, stored), run.tasks, run.taskCalls)
    && RunResults(combine, run.taskCalls, workers, finishes, cap, size, run.results)
  }

  lemma AtLeastOneWorker(requested: nat, tasks: nat)
    requires tasks >= 1
    ensures Concurrency(requested, tasks) >= 1
    ensures var asked := if requested == 0 then 16 else requested;
            Min(Concurrency(requested, tasks), tasks) == (if asked < tasks then asked else tasks) >= 1
  {}

  lemma RunIs(d: Dims, core: Core, stored: seq<Stored>, combine: (string, Bucket) -> Tensor, workers: nat, finishes: seq<nat>,
              cap: nat, size: Out -> nat, run: RayRun, produced: seq<TaskResult>)
    requires workers >= 1 && Execution(d, core, stored, CallsOfUnit(d, core, stored), run.tasks, run.taskCalls)
    requires Produced(combine, run.taskCalls, Assigned(workers, finishes, |run.tasks|), cap, size, produced)
    requires |run.tasks| == |run.taskCalls| && multiset(run.results) == multiset(produced)
    ensures IsRun(d, core, stored, combine, workers, finishes, cap, size, run)
  {}

  lemma Executed(d: Dims, core: Core, stored: seq<Stored>, calls: Unit -> seq<Action>, tasks: seq<TaskSpec>, taskCalls: seq<seq<Action>>)
    requires UnitCalls(d, core, stored, calls) && IsPlan(Map(stored, MetaOf), tasks) && TasksDone(tasks, calls, taskCalls)
    ensures Execution(d, core, stored, calls, tasks, taskCalls)
  {}

  /** No source that is converted whole raises an error. */
  ghost predicate WholeConvertible(d: Dims, core: Core, stored: seq<Stored>) {
    forall s :: s in stored && !Direct(s.meta) ==> Convertible(d, core, s)
  }

  /** The parallel conversion: plan, dispatch, conversion on the workers, global index. It fails if nothing is planned, if a
      task raises an error, and otherwise as the finalization does. */
  method ConvertRay(d: Dims, core: Core, combine: (string, Bucket) -> Tensor, stored: seq<Stored>,
                    qLora: bool, target: nat, requested: nat, finishes: seq<nat>, arrange: seq<Unit> -> seq<Unit>,
                    cap: nat, size: Out -> nat)
    returns (r: Result<(seq<PlannedShard>, Index)>, run: RayRun, ghost parts: PlanParts)
    requires DistinctNames(Map(stored, MetaOf)) && ShapesSound(stored) && Rearranges(arrange)
    requires WholeConvertible(d, core, stored) ==> Ready(map[], RayCalls(d, core, stored))
    ensures IsPlan(Map(stored, MetaOf), run.tasks) && PlannedFrom(Map(stored, MetaOf), qLora, target, run.tasks, parts)
    ensures (qLora ==> PairsTogether(Map(stored, MetaOf), run.tasks)) && (target == 0 ==> GroupsApart(qLora, run.tasks))
    ensures run.tasks == [] || !WholeConvertible(d, core, stored) ==> r.Failure?
    ensures run.tasks != [] && WholeConvertible(d, core, stored) ==>
              && (var asked := if requested == 0 then 16 else requested;
                  IsRun(d, core, stored, combine, if asked < |run.tasks| then asked else |run.tasks|, finishes, cap, size, run))
              && var shards := AllShards(run.results);
                 && (r.Success? <==> shards != [] && Distinct(AllNames(shards)))
                 && (r.Success? ==> Planned(shards, |shards|, r.value.0, r.value.1))
  {
    hide *;
    var tasks, planned := PlanConversionTasks(Map(stored, MetaOf), qLora, target);
    var calls := CallsOfUnit(d, core, stored);
    run := RayRun(tasks, Map(tasks, CallsOfTaskSpec(arrange, calls)), []);
    parts := planned;
    if tasks == [] {
      return Failure("No checkpoint tensor tasks were planned"), run, parts;
    }
    TasksFailIff(d, core, stored, tasks);
    WholeConvertibleIff(d, core, stored);
    if t :| t in tasks && !TaskConvertible(d, core, stored, t) {
      return Failure("a task raised an error"), run, parts;
    }
    UnitsAreCalled(d, core, stored);
    TasksAreDone(arrange, calls, tasks);
    Executed(d, core, stored, calls, tasks, run.taskCalls);
    TasksMakeAllCalls(d, core, stored, calls, tasks, run.taskCalls);
    var concurrency := Concurrency(requested, |tasks|);
    AtLeastOneWorker(requested, |tasks|);
    ghost var workers := Min(concurrency, |tasks|);
    var order, ids := CollectRayResults(|tasks|, concurrency, finishes);
    AssignedIsHanded(workers, finishes, |tasks|);
    var produced := ConvertTasks(combine, run.taskCalls, order, cap, size, RayCalls(d, core, stored));
    var results := Sort(produced, ByTaskId());
    run := RayRun(tasks, run.taskCalls, results);
    RunIs(d, core, stored, combine, workers, finishes, cap, size, run, produced);
    r := PlanGlobalShards(results);
  }

  lemma WholeConvertibleIff(d: Dims, core: Core, stored: seq<Stored>)
    ensures WholeConvertible(d, core, stored) <==> !exists s :: s in stored && !Direct(s.meta) && !Convertible(d, core, s)
  {}

  /** When the serial loop's calls are well-formed, so are the parallel converter's. */
  lemma RayIsReady(d: Dims, core: Core, stored: seq<Stored>, serial: seq<Action>)
    requires SerialCalls(d, core, stored) == Success(serial) && Ready(map[], serial)
    ensures WholeConvertible(d, core, stored) && Ready(map[], RayCalls(d, core, stored))
  {
    SerialIsPerSource(d, core, stored);
    assert WholeConvertible(d, core, stored);
    hide *;
    RayPutsIn(d, core, stored, serial);
    PartOf(RayCalls(d, core, stored), serial);
  }

  /** The two programs on one checkpoint, for a core of a family, when the serial one succeeds and its outputs have distinct
      names. A run of the parallel one leaves what the serial one leaves exactly if the order of completion split no joined
      output, every direct source with experts goes by the core's names, and there is anything to write; all runs of its
      plan do exactly if the plan is safe and the other two hold. */
  lemma ProgramsAgree(d: Dims, core: Core, family: Family, combine: (string, Bucket) -> Tensor, stored: seq<Stored>,
                      workers: nat, finishes: seq<nat>, cap: nat, size: Out -> nat, run: RayRun,
                      serial: seq<Action>, serialCap: nat, models: seq<seq<Out>>, index: Index)
    requires SerialCalls(d, core, stored) == Success(serial) && Ready(map[], serial) && workers >= 1
    requires FollowsAll(core, family, stored) && IsRun(d, core, stored, combine, workers, finishes, cap, size, run)
    requires SerialFiles(Outputs(combine, serial), serialCap, size, models, index.weightMap, index.totalSize)
    requires Distinct(Names(Outputs(combine, serial)))
    ensures SameConversion(run.results, models, index.weightMap, index.totalSize) <==>
            Unsplit(WorkOf(run.taskCalls, workers, finishes), serial) && NamedAlike(family, stored) && Outputs(combine, serial) != []
    ensures (forall order: seq<nat>, results :: RunResults(combine, run.taskCalls, workers, order, cap, size, results) ==>
               SameConversion(results, models, index.weightMap, index.totalSize))
            <==> OrderSafe(run.taskCalls, serial, workers) && NamedAlike(family, stored) && Outputs(combine, serial) != []
  {
    var calls := CallsOfUnit(d, core, stored);
    assert Execution(d, core, stored, calls, run.tasks, run.taskCalls);
    hide *;
    RunCompared(d, core, family, combine, stored, calls, run.tasks, run.taskCalls, workers, finishes, serial, cap, size,
                run.results, serialCap, models, index.weightMap, index.totalSize);
    EveryRunAgrees(d, core, family, combine, stored, calls, run.tasks, run.taskCalls, workers, serial, cap, size,
                   serialCap, models, index.weightMap, index.totalSize);
  }
}
