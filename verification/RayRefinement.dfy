/** The parallel converter's work: the calls of units, tasks and workers, against those of the serial loop. */
module RayRefinement {

  import opened Accumulation
  import opened Cores
  import opened Dispatcher
  import opened GreedyPacking
  import opened MoeChunks
  import opened Params
  import opened Planner
  import opened Rearrangement
  import opened Sequences
  import opened SerialConversion
  import opened Spread
  import opened Tensors
  import opened Wrappers

  // ---------------------------------------------------------------- the direct route

  /** The rows of an expert tensor. */
  function ExpertRows(t: Tensor): seq<seq<Tensor>> {
    if t.Stack? then seq(|t.rows|, e requires 0 <= e < |t.rows| => if t.rows[e].Stack? then t.rows[e].rows else []) else []
  }

  function Boxes(s: Source): seq<Chunk> {
    seq(|s.chunks|, i requires 0 <= i < |s.chunks| => s.chunks[i].box)
  }

  /** The tensor of a direct source is what its metadata says: three-dimensional, of the recorded, non-degenerate size, and
      tiled by its chunks. */
  ghost predicate DirectShape(s: Stored) {
    && Direct(s.meta) && s.param.key.layer.Layer? && s.param.key.expert == AllExperts
    && s.param.value.Stack? && (forall e :: 0 <= e < |s.param.value.rows| ==> s.param.value.rows[e].Stack?)
    && var size := SizeOf(s.meta.dims);
       && IsExpertTensor(ExpertRows(s.param.value), size) && size.ffn >= 1 && size.hidden >= 1
       && Tiles(Boxes(s.meta), size)
  }

  /** What the direct route hands on for a key: every slice of the tensor, under its own names. */
  function DirectCalls(s: Stored): seq<Action>
    requires s.meta.expert.Some?
  {
    var w := ExpertRows(s.param.value);
    Map(WholeTensor(s.meta.expert.value.fc, w, |w|), SliceCall(s.meta.expert.value))
  }

  /** One expert's weight of a source. */
  function ExpertWeight(s: Stored, e: nat, rows: seq<Tensor>): Named {
    Named(s.param.key.(expert := Expert(e)), Stack(rows))
  }

  /** The core makes of every expert weight of the source's size what the direct route makes of it: halves of fc1, all
      of fc2, under the same names. */
  ghost predicate CoreAgrees(core: Core, s: Stored)
    requires s.meta.expert.Some? && |s.meta.dims| == 3
  {
    forall e: nat, rows: seq<Tensor> :: e < SizeOf(s.meta.dims).experts && |rows| == SizeOf(s.meta.dims).ffn ==>
      core(ExpertWeight(s, e, rows)) ==
      Success(Map(WholeExpert(s.meta.expert.value.fc, rows, e), SliceCall(s.meta.expert.value)))
  }

  predicate SameResult(a: Result<seq<Action>>, b: Result<seq<Action>>) {
    a.Success? == b.Success? && (a.Success? ==> a.value == b.value)
  }

  /** What the core makes of every such weight, or that it raises an error, is as its family has it. */
  ghost predicate Follows(core: Core, s: Stored, family: Family)
    requires s.meta.expert.Some? && |s.meta.dims| == 3
  {
    forall e: nat, rows: seq<Tensor> :: e < SizeOf(s.meta.dims).experts && |rows| == SizeOf(s.meta.dims).ffn ==>
      SameResult(core(ExpertWeight(s, e, rows)), CoreExpertCalls(family, s.meta.expert.value, e, rows))
  }

  /** On a direct source with experts, a core of a family agrees with the direct route exactly if their naming is the
      same; a core that follows its family is the only thing asked. */
  lemma FamilyAgreement(core: Core, s: Stored, family: Family)
    requires Direct(s.meta)
    ensures Follows(core, s, family) ==> (CoreAgrees(core, s) <==> SameNaming(family, s.meta.expert.value) || SizeOf(s.meta.dims).experts == 0)
    ensures CoreAgrees(core, s) && SameNaming(family, s.meta.expert.value) ==> Follows(core, s, family)
  {
    var key, size := s.meta.expert.value, SizeOf(s.meta.dims);
    assert Supported(s.meta.chunks[0].box, key.fc, size);
    forall e: nat, rows: seq<Tensor> | e < size.experts && |rows| == size.ffn
      ensures CoreExpertCalls(family, key, e, rows) == Success(Map(WholeExpert(key.fc, rows, e), SliceCall(key)))
              <==> SameNaming(family, key)
    {
      ExpertCallsAgree(family, key, e, rows);
    }
    hide CoreExpertCalls, SliceCall, WholeExpert, SameNaming;
    var rows := SomeRows(size.ffn);
    if Follows(core, s, family) && CoreAgrees(core, s) && size.experts > 0 {
      assert SameResult(core(ExpertWeight(s, 0, rows)), CoreExpertCalls(family, key, 0, rows));
      assert core(ExpertWeight(s, 0, rows)) == Success(Map(WholeExpert(key.fc, rows, 0), SliceCall(key)));
    }
  }

  function SomeRows(n: nat): (rows: seq<Tensor>)
    ensures |rows| == n
  {
    seq(n, _ => Stack([]))
  }

  // ---------------------------------------------------------------- the serial loop on a direct source

  /** The cores that raise no error on a key's experts. */
  predicate Knows(family: Family, key: ExpertKey) {
    key.prefixed ==> family == KimiVlCore || family == InklingCore
  }

  /** The serial loop takes a direct source apart exactly if it has the expected number of experts and the core takes each
      of them. */
  lemma DirectConvertibleIff(d: Dims, core: Core, s: Stored)
    requires DirectShape(s)
    ensures var w := ExpertRows(s.param.value);
            Convertible(d, core, s) <==> |w| == d.experts && forall e :: 0 <= e < |w| ==> core(ExpertWeight(s, e, w[e])).Success?
    ensures Convertible(d, core, s) ==> PartsOf(d)(s) == ExpertsUpTo(s.param, d.experts)
  {
    var w := ExpertRows(s.param.value);
    if |w| == d.experts {
      var params := ExpertsUpTo(s.param, d.experts);
      assert GetLayerParam(d, s.param) == Success(params);
      forall e | 0 <= e < |w| ensures params[e] == ExpertWeight(s, e, w[e]) {
        assert params[e] == ExpertSlice(s.param, e);
      }
      assert Taken(core, params) ==> forall e :: 0 <= e < |w| ==> core(params[e]).Success?;
    }
  }

  /** For a core of a family: exactly if it has the expected number of experts and, unless there are none, the core knows
      the key's prefix. */
  lemma FamilyConvertibleIff(d: Dims, core: Core, s: Stored, family: Family)
    requires DirectShape(s) && Follows(core, s, family)
    ensures Convertible(d, core, s) <==>
            SizeOf(s.meta.dims).experts == d.experts && (d.experts == 0 || Knows(family, s.meta.expert.value))
  {
    DirectConvertibleIff(d, core, s);
    NotSingleRows(s);
    var w, key := ExpertRows(s.param.value), s.meta.expert.value;
    assert |w| == SizeOf(s.meta.dims).experts && forall e :: 0 <= e < |w| ==> |w[e]| == SizeOf(s.meta.dims).ffn;
    hide Convertible, DirectShape, ExpertRows, Knows, CoreExpertCalls;
    forall e: nat | e < |w| ensures core(ExpertWeight(s, e, w[e])).Success? <==> Knows(family, key) {
      assert SameResult(core(ExpertWeight(s, e, w[e])), CoreExpertCalls(family, key, e, w[e]));
      KnownIsTaken(family, key, e, w[e]);
    }
    if |w| > 0 {
      assert core(ExpertWeight(s, 0, w[0])).Success? <==> Knows(family, key);
    }
  }

  lemma KnownIsTaken(family: Family, key: ExpertKey, e: nat, rows: seq<Tensor>)
    requires key.fc == Fc1 ==> |rows| != 1
    ensures CoreExpertCalls(family, key, e, rows).Success? <==> Knows(family, key)
  {}

  lemma NotSingleRows(s: Stored)
    requires DirectShape(s)
    ensures forall e :: 0 <= e < |ExpertRows(s.param.value)| ==> s.meta.expert.value.fc == Fc1 ==> |ExpertRows(s.param.value)[e]| != 1
  {
    assert Supported(s.meta.chunks[0].box, s.meta.expert.value.fc, SizeOf(s.meta.dims));
  }

  lemma WholeTensorStep(fc: Linear, w: seq<seq<Tensor>>, n: nat)
    requires 0 < n <= |w|
    ensures WholeTensor(fc, w, n) == WholeTensor(fc, w, n - 1) + WholeExpert(fc, w[n - 1], n - 1)
  {}

  lemma OneMoreExpert(core: Core, s: Stored, n: nat)
    requires s.param.value.Stack? && 0 < n <= |s.param.value.rows| && s.param.value.rows[n - 1].Stack?
    ensures CallsOf(core, ExpertsUpTo(s.param, n)) ==
            CallsOf(core, ExpertsUpTo(s.param, n - 1)) + Made(core)(ExpertWeight(s, n - 1, ExpertRows(s.param.value)[n - 1]))
  {
    var params := ExpertsUpTo(s.param, n - 1);
    assert ExpertSlice(s.param, n - 1) == ExpertWeight(s, n - 1, ExpertRows(s.param.value)[n - 1]);
    assert ExpertsUpTo(s.param, n) == params + [ExpertSlice(s.param, n - 1)];
    MapSnoc(params, ExpertSlice(s.param, n - 1), Made(core));
    ConcatSnoc(Map(params, Made(core)), Made(core)(ExpertSlice(s.param, n - 1)));
  }

  /** An agreeing core's calls for an expert tensor are those for the slices of the whole. */
  lemma {:induction false} CoreOnExperts(core: Core, s: Stored, n: nat)
    requires DirectShape(s) && CoreAgrees(core, s) && n <= |s.param.value.rows|
    ensures CallsOf(core, ExpertsUpTo(s.param, n)) ==
            Map(WholeTensor(s.meta.expert.value.fc, ExpertRows(s.param.value), n), SliceCall(s.meta.expert.value))
  {
    var fc, w, call := s.meta.expert.value.fc, ExpertRows(s.param.value), SliceCall(s.meta.expert.value);
    if n == 0 {
      assert Map(ExpertsUpTo(s.param, 0), Made(core)) == [] && Map(WholeTensor(fc, w, 0), call) == [];
    } else {
      CoreOnExperts(core, s, n - 1);
      OneMoreExpert(core, s, n);
      assert core(ExpertWeight(s, n - 1, w[n - 1])) == Success(Map(WholeExpert(fc, w[n - 1], n - 1), call));
      assert Made(core)(ExpertWeight(s, n - 1, w[n - 1])) == Map(WholeExpert(fc, w[n - 1], n - 1), call);
      WholeTensorStep(fc, w, n);
      hide *;
      MapAppend(WholeTensor(fc, w, n - 1), WholeExpert(fc, w[n - 1], n - 1), call);
    }
  }

  lemma MapAppend<A, B>(s: seq<A>, t: seq<A>, f: A -> B)
    ensures Map(s + t, f) == Map(s, f) + Map(t, f)
  {}

  /** A core of a family makes the family's calls. */
  lemma {:induction false} FamilyOnExperts(core: Core, s: Stored, family: Family, n: nat)
    requires DirectShape(s) && Follows(core, s, family) && n <= |s.param.value.rows|
    ensures CallsOf(core, ExpertsUpTo(s.param, n)) == FamilyCalls(family, s.meta.expert.value, ExpertRows(s.param.value), n)
  {
    var w, key := ExpertRows(s.param.value), s.meta.expert.value;
    if n == 0 {
      assert Map(ExpertsUpTo(s.param, 0), Made(core)) == [];
    } else {
      FamilyOnExperts(core, s, family, n - 1);
      OneMoreExpert(core, s, n);
      assert SameResult(core(ExpertWeight(s, n - 1, w[n - 1])), CoreExpertCalls(family, key, n - 1, w[n - 1]));
    }
  }

  /** A source whose core agrees makes the serial loop's calls on the direct route too. */
  lemma AgreeingSource(d: Dims, core: Core, s: Stored)
    requires DirectShape(s) && CoreAgrees(core, s) && Convertible(d, core, s)
    ensures SourceCalls(d, core, s) == DirectCalls(s)
  {
    DirectConvertibleIff(d, core, s);
    CoreOnExperts(core, s, d.experts);
  }

  // ---------------------------------------------------------------- units of work

  /** The calls of one unit of work on a source. */
  function PartCalls(s: Stored, i: nat): seq<Action>
    requires Direct(s.meta) && IsExpertTensor(ExpertRows(s.param.value), SizeOf(s.meta.dims)) && i < |s.meta.chunks|
  {
    Map(ConvertChunk(s.meta.expert.value.fc, ExpertRows(s.param.value), SizeOf(s.meta.dims), s.meta.chunks[i].box),
        SliceCall(s.meta.expert.value))
  }

  /** `calls` gives the calls of every unit: of a whole key what the core makes of it, of a chunk what the chunk converter
      hands on. */
  ghost predicate UnitCalls(d: Dims, core: Core, stored: seq<Stored>, calls: Unit -> seq<Action>) {
    forall s :: s in stored ==>
      if Direct(s.meta)
      then DirectShape(s) && forall i :: 0 <= i < |s.meta.chunks| ==> calls(Part(s.meta.name, i)) == PartCalls(s, i)
      else calls(Whole(s.meta.name)) == SourceCalls(d, core, s)
  }

  /** The calls the parallel converter makes for a source, in an order of its own. */
  function RaySource(d: Dims, core: Core): Stored -> seq<Action> {
    (s: Stored) => if Direct(s.meta) then DirectCalls(s) else SourceCalls(d, core, s)
  }

  function RayCalls(d: Dims, core: Core, stored: seq<Stored>): seq<Action> {
    Concat(Map(stored, RaySource(d, core)))
  }

  /** Chunk by chunk or whole, a source's units make these calls. */
  lemma SourceUnitsCalls(d: Dims, core: Core, stored: seq<Stored>, calls: Unit -> seq<Action>, s: Stored)
    requires UnitCalls(d, core, stored, calls) && s in stored
    ensures Gather(SourceUnits(s.meta), CallBag(calls)) == multiset(RaySource(d, core)(s))
  {
    if Direct(s.meta) {
      DirectUnitsCalls(s, calls);
    } else {
      assert SourceUnits(s.meta) == [Whole(s.meta.name)];
      assert SourceUnits(s.meta)[1..] == [];
    }
  }

  lemma DirectUnitsCalls(s: Stored, calls: Unit -> seq<Action>)
    requires DirectShape(s) && forall i :: 0 <= i < |s.meta.chunks| ==> calls(Part(s.meta.name, i)) == PartCalls(s, i)
    ensures Gather(SourceUnits(s.meta), CallBag(calls)) == multiset(DirectCalls(s))
  {
    var fc, w, size := s.meta.expert.value.fc, ExpertRows(s.param.value), SizeOf(s.meta.dims);
    BoxesSupported(s.meta);
    DirectEqualsWhole(fc, w, size, Boxes(s.meta));
    var chunkSlices := ChunkSliceLists(s);
    hide *;
    BagOfCalls(calls);
    ChunksGather(s, chunkSlices, calls, CallBag(calls));
    DirectCallsAre(s);
  }

  lemma DirectCallsAre(s: Stored)
    requires s.meta.expert.Some?
    ensures DirectCalls(s) == Map(WholeTensor(s.meta.expert.value.fc, ExpertRows(s.param.value), |ExpertRows(s.param.value)|),
                                  SliceCall(s.meta.expert.value))
  {}

  /** The calls of a unit, without their order. */
  function CallBag(calls: Unit -> seq<Action>): Unit -> multiset<Action> {
    (u: Unit) => multiset(calls(u))
  }

  lemma BagOfCalls(calls: Unit -> seq<Action>)
    ensures forall u :: CallBag(calls)(u) == multiset(calls(u))
  {}

  lemma BoxesSupported(s: Source)
    requires Direct(s)
    ensures forall c :: c in Boxes(s) ==> Supported(c, s.expert.value.fc, SizeOf(s.dims))
  {}

  /** What each chunk of a source is converted to. */
  function ChunkSliceLists(s: Stored): (r: seq<seq<Slice>>)
    requires Direct(s.meta) && IsExpertTensor(ExpertRows(s.param.value), SizeOf(s.meta.dims))
    ensures |r| == |s.meta.chunks|
    ensures forall i :: 0 <= i < |r| ==>
              r[i] == ConvertChunk(s.meta.expert.value.fc, ExpertRows(s.param.value), SizeOf(s.meta.dims), s.meta.chunks[i].box)
  {
    seq(|s.meta.chunks|, i requires 0 <= i < |s.meta.chunks| =>
      ConvertChunk(s.meta.expert.value.fc, ExpertRows(s.param.value), SizeOf(s.meta.dims), s.meta.chunks[i].box))
  }

  lemma ChunksGather(s: Stored, chunkSlices: seq<seq<Slice>>, calls: Unit -> seq<Action>, callsOf: Unit -> multiset<Action>)
    requires Direct(s.meta) && IsExpertTensor(ExpertRows(s.param.value), SizeOf(s.meta.dims))
    requires |chunkSlices| == |s.meta.chunks|
    requires forall i :: 0 <= i < |chunkSlices| ==>
               chunkSlices[i] == ConvertChunk(s.meta.expert.value.fc, ExpertRows(s.param.value), SizeOf(s.meta.dims), s.meta.chunks[i].box)
    requires forall i :: 0 <= i < |s.meta.chunks| ==> calls(Part(s.meta.name, i)) == PartCalls(s, i)
    requires forall u :: callsOf(u) == multiset(calls(u))
    requires Gather(Boxes(s.meta), Converted(s.meta.expert.value.fc, ExpertRows(s.param.value), SizeOf(s.meta.dims)))
             == multiset(WholeTensor(s.meta.expert.value.fc, ExpertRows(s.param.value), |ExpertRows(s.param.value)|))
    ensures Gather(SourceUnits(s.meta), callsOf)
            == multiset(Map(WholeTensor(s.meta.expert.value.fc, ExpertRows(s.param.value), |ExpertRows(s.param.value)|),
                            SliceCall(s.meta.expert.value)))
  {
    var fc, w, size := s.meta.expert.value.fc, ExpertRows(s.param.value), SizeOf(s.meta.dims);
    var call := SliceCall(s.meta.expert.value);
    var asSet := (m: seq<Slice>) => multiset(m);
    var asCalls := (m: seq<Slice>) => multiset(Map(m, call));
    GatherIndexed(Boxes(s.meta), Converted(fc, w, size), chunkSlices, asSet);
    ConcatMultiset(chunkSlices);
    GatherCongruent(chunkSlices, asSet, (m: seq<Slice>) => multiset(m));
    MappedParts(chunkSlices, WholeTensor(fc, w, |w|), call, asCalls);
    GatherIndexed(SourceUnits(s.meta), callsOf, chunkSlices, asCalls);
  }

  /** Sums of equal summands, index by index. */
  lemma {:induction false} GatherIndexed<A, B, C>(s: seq<A>, f: A -> multiset<C>, t: seq<B>, g: B -> multiset<C>)
    requires |s| == |t| && forall i :: 0 <= i < |s| ==> f(s[i]) == g(t[i])
    ensures Gather(s, f) == Gather(t, g)
  {
    if s != [] {
      GatherIndexed(s[1..], f, t[1..], g);
    }
  }

  // ---------------------------------------------------------------- the tasks of a plan

  function BlockUnitList(b: Block): seq<Unit> { Map(b.indices, PartUnit(b.source)) }

  /** The units of a task, one after the other. */
  function TaskUnitList(t: TaskSpec): seq<Unit> {
    if t.blocks != [] then Concat(Map(t.blocks, BlockUnitList)) else Map(t.keys, WholeUnit)
  }

  lemma TaskUnitsListed(t: TaskSpec)
    ensures multiset(TaskUnitList(t)) == TaskUnits(t)
  {
    if t.blocks != [] {
      var lists := Map(t.blocks, BlockUnitList);
      ConcatMultiset(lists);
      GatherCongruent(lists, (l: seq<Unit>) => multiset(l), (l: seq<Unit>) => multiset(l));
      GatherMap(t.blocks, BlockUnitList, (l: seq<Unit>) => multiset(l), UnitsOfBlock);
    }
  }

  /** The calls a worker makes for each task: those of the task's units, in some order. */
  ghost predicate TasksDone(tasks: seq<TaskSpec>, calls: Unit -> seq<Action>, taskCalls: seq<seq<Action>>) {
    |taskCalls| == |tasks| && forall i :: 0 <= i < |tasks| ==> multiset(taskCalls[i]) == Gather(TaskUnitList(tasks[i]), CallBag(calls))
  }

  /** A plan for the sources, carried out: `taskCalls` are the calls of its tasks. */
  ghost predicate Execution(d: Dims, core: Core, stored: seq<Stored>, calls: Unit -> seq<Action>, tasks: seq<TaskSpec>,
                            taskCalls: seq<seq<Action>>) {
    && UnitCalls(d, core, stored, calls) && IsPlan(Map(stored, MetaOf), tasks) && TasksDone(tasks, calls, taskCalls)
  }

  /** All tasks of a plan together make the calls of all sources. */
  lemma TasksMakeAllCalls(d: Dims, core: Core, stored: seq<Stored>, calls: Unit -> seq<Action>, tasks: seq<TaskSpec>,
                          taskCalls: seq<seq<Action>>)
    requires Execution(d, core, stored, calls, tasks, taskCalls)
    ensures multiset(Concat(taskCalls)) == multiset(RayCalls(d, core, stored)) && |taskCalls| == |tasks|
  {
    assert UnitCalls(d, core, stored, calls) && IsPlan(Map(stored, MetaOf), tasks) && TasksDone(tasks, calls, taskCalls);
    hide *;
    TaskSide(tasks, calls, taskCalls);
    SourceSide(d, core, stored, calls);
    UnitsMatch(Map(stored, MetaOf), tasks);
    GatherPermutation(Concat(Map(tasks, TaskUnitList)), Concat(Map(Map(stored, MetaOf), SourceUnits)), CallBag(calls));
  }

  lemma TaskSide(tasks: seq<TaskSpec>, calls: Unit -> seq<Action>, taskCalls: seq<seq<Action>>)
    requires TasksDone(tasks, calls, taskCalls)
    ensures multiset(Concat(taskCalls)) == Gather(Concat(Map(tasks, TaskUnitList)), CallBag(calls)) && |taskCalls| == |tasks|
  {
    hide TaskUnitList, CallBag;
    var asSet := (c: seq<Action>) => multiset(c);
    var listCalls := (l: seq<Unit>) => Gather(l, CallBag(calls));
    ConcatMultiset(taskCalls);
    GatherCongruent(taskCalls, asSet, (c: seq<Action>) => multiset(c));
    GatherIndexed(taskCalls, asSet, Map(tasks, TaskUnitList), listCalls);
    GatherParts(Map(tasks, TaskUnitList), CallBag(calls), listCalls);
  }

  lemma SourceSide(d: Dims, core: Core, stored: seq<Stored>, calls: Unit -> seq<Action>)
    requires UnitCalls(d, core, stored, calls)
    ensures multiset(RayCalls(d, core, stored)) == Gather(Concat(Map(Map(stored, MetaOf), SourceUnits)), CallBag(calls))
  {
    var perSource := Map(stored, RaySource(d, core));
    var asSet := (c: seq<Action>) => multiset(c);
    var listCalls := (l: seq<Unit>) => Gather(l, CallBag(calls));
    var units := Map(Map(stored, MetaOf), SourceUnits);
    forall i | 0 <= i < |stored| ensures asSet(perSource[i]) == listCalls(units[i]) {
      SourceUnitsCalls(d, core, stored, calls, stored[i]);
    }
    hide SourceUnits, UnitCalls, CallBag, RaySource;
    ConcatMultiset(perSource);
    GatherCongruent(perSource, asSet, (c: seq<Action>) => multiset(c));
    GatherIndexed(perSource, asSet, units, listCalls);
    GatherParts(units, CallBag(calls), listCalls);
  }

  lemma UnitsMatch(sources: seq<Source>, tasks: seq<TaskSpec>)
    requires IsPlan(sources, tasks)
    ensures multiset(Concat(Map(tasks, TaskUnitList))) == multiset(Concat(Map(sources, SourceUnits)))
  {
    var asSet := (l: seq<Unit>) => multiset(l);
    var listed, wanted := Map(tasks, TaskUnitList), Map(sources, SourceUnits);
    ConcatMultiset(listed);
    ConcatMultiset(wanted);
    GatherCongruent(listed, asSet, (l: seq<Unit>) => multiset(l));
    GatherCongruent(wanted, asSet, (l: seq<Unit>) => multiset(l));
    forall t | t in tasks ensures TaskUnits(t) == asSet(TaskUnitList(t)) {
      TaskUnitsListed(t);
    }
    hide TaskUnitList, TaskUnits;
    GatherMap(tasks, TaskUnitList, asSet, TaskUnits);
    GatherMap(sources, SourceUnits, asSet, UnitsOf);
  }

  // ---------------------------------------------------------------- the workers

  function CallsOfTask(taskCalls: seq<seq<Action>>): nat -> seq<Action> {
    (i: nat) => if i < |taskCalls| then taskCalls[i] else []
  }

  /** The calls of a worker, task after task. */
  function WorkerCalls(taskCalls: seq<seq<Action>>): seq<nat> -> seq<Action> {
    (order: seq<nat>) => Concat(Map(order, CallsOfTask(taskCalls)))
  }

  lemma {:induction false} WorkIsOneList(order: seq<seq<nat>>, taskCalls: seq<seq<Action>>)
    ensures Concat(Map(order, WorkerCalls(taskCalls))) == Concat(Map(Concat(order), CallsOfTask(taskCalls)))
  {
    var pick := CallsOfTask(taskCalls);
    if order == [] {
      assert Map(Concat(order), pick) == [];
    } else {
      WorkIsOneList(order[1..], taskCalls);
      assert Map(order, WorkerCalls(taskCalls))[1..] == Map(order[1..], WorkerCalls(taskCalls));
      assert Map(order[0] + Concat(order[1..]), pick) == Map(order[0], pick) + Map(Concat(order[1..]), pick);
      ConcatAppend(Map(order[0], pick), Map(Concat(order[1..]), pick));
    }
  }

  lemma WorkersMakeAllCalls(order: seq<seq<nat>>, taskCalls: seq<seq<Action>>)
    requires Handed(order, |taskCalls|)
    ensures multiset(Concat(Map(order, WorkerCalls(taskCalls)))) == multiset(Concat(taskCalls))
  {
    hide *;
    var pick := CallsOfTask(taskCalls);
    WorkIsOneList(order, taskCalls);
    HandedAll(order, |taskCalls|);
    MapPermutation(Concat(order), Range(|taskCalls|), pick);
    AllTasks(taskCalls);
    ConcatPermutation(Map(Concat(order), pick), taskCalls);
  }

  lemma HandedAll(order: seq<seq<nat>>, n: nat)
    requires Handed(order, n)
    ensures multiset(Concat(order)) == multiset(Range(n))
  {}

  lemma AllTasks(taskCalls: seq<seq<Action>>)
    ensures Map(Range(|taskCalls|), CallsOfTask(taskCalls)) == taskCalls
  {}

  /** The serial loop makes the same calls for every source on the direct route. */
  ghost predicate DirectAlike(d: Dims, core: Core, stored: seq<Stored>) {
    forall s :: s in stored && Direct(s.meta) ==> SourceCalls(d, core, s) == DirectCalls(s)
  }

  /** If the direct route makes the serial loop's calls, all tasks of a plan together make the serial calls. */
  lemma TasksMakeSerialCalls(d: Dims, core: Core, stored: seq<Stored>, calls: Unit -> seq<Action>, tasks: seq<TaskSpec>,
                             taskCalls: seq<seq<Action>>, serial: seq<Action>)
    requires Execution(d, core, stored, calls, tasks, taskCalls) && DirectAlike(d, core, stored)
    requires SerialCalls(d, core, stored) == Success(serial)
    ensures multiset(Concat(taskCalls)) == multiset(serial)
  {
    SerialIsPerSource(d, core, stored);
    AlikeCalls(d, core, stored);
    hide *;
    TasksMakeAllCalls(d, core, stored, calls, tasks, taskCalls);
  }

  lemma AlikeCalls(d: Dims, core: Core, stored: seq<Stored>)
    requires DirectAlike(d, core, stored)
    ensures RayCalls(d, core, stored) == Concat(Map(stored, CallsFor(d, core)))
  {
    hide SourceCalls, DirectCalls, Direct;
    assert Map(stored, RaySource(d, core)) == Map(stored, CallsFor(d, core));
  }

  /** Nothing is stashed on the direct route; for everything else the calls are the serial ones. */
  lemma {:induction false} StashedCalls(d: Dims, core: Core, stored: seq<Stored>, a: Action)
    requires a.Put?
    ensures multiset(RayCalls(d, core, stored))[a] <= multiset(Concat(Map(stored, CallsFor(d, core))))[a]
    ensures (forall s :: s in stored && Direct(s.meta) ==> a !in SourceCalls(d, core, s)) ==>
              multiset(RayCalls(d, core, stored))[a] == multiset(Concat(Map(stored, CallsFor(d, core))))[a]
  {
    hide SourceCalls, DirectCalls, Direct;
    if stored != [] {
      var s, rest := stored[0], stored[1..];
      StashedCalls(d, core, rest, a);
      assert Map(stored, RaySource(d, core))[1..] == Map(rest, RaySource(d, core));
      assert Map(stored, CallsFor(d, core))[1..] == Map(rest, CallsFor(d, core));
      if Direct(s.meta) {
        DirectStashesNothing(s, a);
      }
    }
  }

  lemma DirectStashesNothing(s: Stored, a: Action)
    requires Direct(s.meta) && a.Put?
    ensures a !in DirectCalls(s)
  {}

  predicate NoPuts(calls: seq<Action>) {
    forall a :: a in calls ==> a.Emit?
  }

  /** The core stashes nothing of a source on the direct route. */
  ghost predicate DirectEmits(d: Dims, core: Core, stored: seq<Stored>) {
    forall s :: s in stored && Direct(s.meta) ==> NoPuts(SourceCalls(d, core, s))
  }

  lemma RayPutsIn(d: Dims, core: Core, stored: seq<Stored>, serial: seq<Action>)
    requires SerialCalls(d, core, stored) == Success(serial)
    ensures PutsIn(RayCalls(d, core, stored), serial)
    ensures DirectEmits(d, core, stored) ==> PutsIn(serial, RayCalls(d, core, stored))
  {
    SerialIsPerSource(d, core, stored);
    hide RayCalls, SerialCalls, SourceCalls, Direct;
    forall a: Action | a.Put? ensures multiset(RayCalls(d, core, stored))[a] <= multiset(serial)[a] {
      StashedCalls(d, core, stored, a);
    }
    if DirectEmits(d, core, stored) {
      forall a: Action | a.Put? ensures multiset(serial)[a] <= multiset(RayCalls(d, core, stored))[a] {
        forall s | s in stored && Direct(s.meta) ensures a !in SourceCalls(d, core, s) {
          assert NoPuts(SourceCalls(d, core, s));
        }
        StashedCalls(d, core, stored, a);
      }
    }
  }

  lemma PutsOfSame(a: seq<Action>, b: seq<Action>, calls: seq<Action>)
    requires multiset(a) == multiset(b) && PutsIn(b, calls)
    ensures PutsIn(a, calls)
  {}

  /** The parallel conversion against the serial one, for every core, plan, number of workers and order in which tasks
      finish. The workers hand on what the units hand on directly, and of the serial loop's joined outputs only those of
      which one worker got all pieces. If the direct route makes the serial loop's calls, what is missing are exactly the
      other joined outputs, and nothing is missing exactly if there are none. */
  lemma RayRefinesSerial(d: Dims, core: Core, combine: (string, Bucket) -> Tensor, stored: seq<Stored>,
                         calls: Unit -> seq<Action>, tasks: seq<TaskSpec>, taskCalls: seq<seq<Action>>, order: seq<seq<nat>>,
                         serial: seq<Action>)
    requires Execution(d, core, stored, calls, tasks, taskCalls) && Handed(order, |tasks|)
    requires SerialCalls(d, core, stored) == Success(serial) && Ready(map[], serial)
    ensures var work := Map(order, WorkerCalls(taskCalls));
            && Collected(combine, work) == Emitted(RayCalls(d, core, stored)) + multiset(JoinedAnywhere(combine, work))
            && JoinedAnywhere(combine, work) <= Joined(combine, map[], serial)
            && (DirectAlike(d, core, stored) ==>
                  && Collected(combine, work) ==
                     multiset(Outputs(combine, serial)) - multiset(Joined(combine, map[], serial) - JoinedAnywhere(combine, work))
                  && (Collected(combine, work) == multiset(Outputs(combine, serial)) <==> Unsplit(work, serial)))
  {
    hide *;
    TasksMakeAllCalls(d, core, stored, calls, tasks, taskCalls);
    WorkersMakeAllCalls(order, taskCalls);
    RayPutsIn(d, core, stored, serial);
    var work := Map(order, WorkerCalls(taskCalls));
    PutsOfSame(Concat(work), RayCalls(d, core, stored), serial);
    SpreadJoins(combine, work, serial);
    SameEmits(Concat(work), RayCalls(d, core, stored));
    if DirectAlike(d, core, stored) {
      TasksMakeSerialCalls(d, core, stored, calls, tasks, taskCalls, serial);
      SpreadsIf(work, serial);
      SpreadOutputs(combine, work, serial);
    }
  }

  lemma SameEmits(a: seq<Action>, b: seq<Action>)
    requires multiset(a) == multiset(b)
    ensures Emitted(a) == Emitted(b)
  {
    GatherPermutation(a, b, EmitOf);
  }

  lemma SpreadsIf(work: seq<seq<Action>>, serial: seq<Action>)
    requires multiset(Concat(work)) == multiset(serial)
    ensures Spreads(work, serial)
  {}

  lemma SourceListed(stored: seq<Stored>, s: Stored)
    requires s in stored
    ensures s.meta in Map(stored, MetaOf)
  {
    var i :| 0 <= i < |stored| && stored[i] == s;
    assert Map(stored, MetaOf)[i] == s.meta;
  }

  /** A core that collects nothing is converted the same way by any plan and any workers. */
  lemma NothingCollectedNothingLost(work: seq<seq<Action>>, serial: seq<Action>)
    requires forall a :: a in serial ==> a.Emit?
    ensures Unsplit(work, serial) && Ready(map[], serial)
  {}
}
