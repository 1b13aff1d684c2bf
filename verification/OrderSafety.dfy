/** Which plans give the serial outputs whatever the order in which tasks finish. */
module OrderSafety {

  import opened Accumulation
  import opened Cores
  import opened Dispatcher
  import opened FamilyRefinement
  import opened Params
  import opened Planner
  import opened RayRefinement
  import opened Rearrangement
  import opened Sequences
  import opened SerialConversion
  import opened Spread
  import opened Tensors
  import opened Wrappers

  /** All pieces of the output are stashed by the calls of one task. */
  predicate InOneTask(taskCalls: seq<seq<Action>>, serial: seq<Action>, name: string) {
    exists t :: 0 <= t < |taskCalls| && PieceIds(serial, name) <= PieceIds(taskCalls[t], name)
  }

  /** There is one worker, or every output the serial loop joins has all its pieces in one task. */
  predicate OrderSafe(taskCalls: seq<seq<Action>>, serial: seq<Action>, workers: nat) {
    workers <= 1 || forall a :: a in serial && Completes(map[], serial, a) ==> InOneTask(taskCalls, serial, a.name)
  }

  /** What the workers do when `finishes` says who is ready when. */
  function WorkOf(taskCalls: seq<seq<Action>>, workers: nat, finishes: seq<nat>): (work: seq<seq<Action>>)
    requires workers >= 1
    ensures |work| == workers
  {
    Map(Assigned(workers, finishes, |taskCalls|), WorkerCalls(taskCalls))
  }

  /** The tasks stash what the serial loop does, and nothing else. */
  ghost predicate SameStash(taskCalls: seq<seq<Action>>, serial: seq<Action>) {
    PutsIn(Concat(taskCalls), serial) && PutsIn(serial, Concat(taskCalls))
  }

  lemma WorkMakesAll(taskCalls: seq<seq<Action>>, workers: nat, finishes: seq<nat>)
    requires workers >= 1
    ensures multiset(Concat(WorkOf(taskCalls, workers, finishes))) == multiset(Concat(taskCalls))
  {
    AssignedIsHanded(workers, finishes, |taskCalls|);
    hide Assigned, Handed, WorkerCalls;
    WorkersMakeAllCalls(Assigned(workers, finishes, |taskCalls|), taskCalls);
  }

  lemma WorkSpreads(taskCalls: seq<seq<Action>>, serial: seq<Action>, workers: nat, finishes: seq<nat>)
    requires workers >= 1 && PutsIn(Concat(taskCalls), serial)
    ensures PutsIn(Concat(WorkOf(taskCalls, workers, finishes)), serial)
  {
    hide *;
    WorkMakesAll(taskCalls, workers, finishes);
    PutsOfSame(Concat(WorkOf(taskCalls, workers, finishes)), Concat(taskCalls), serial);
  }

  /** The worker that is given a task makes the task's calls. */
  lemma HolderMakesCall(taskCalls: seq<seq<Action>>, workers: nat, finishes: seq<nat>, t: nat, a: Action)
    requires workers >= 1 && t < |taskCalls| && a in taskCalls[t]
    ensures a in WorkOf(taskCalls, workers, finishes)[Holder(workers, finishes, t)]
  {
    var w := Holder(workers, finishes, t);
    AssignedHolds(workers, finishes, |taskCalls|, w, t);
    hide Assigned, Holder;
    var order := Assigned(workers, finishes, |taskCalls|)[w];
    var k :| 0 <= k < |order| && order[k] == t;
    var lists := Map(order, CallsOfTask(taskCalls));
    assert lists[k] == taskCalls[t];
    InConcat(lists, a);
  }

  lemma HolderHasPieces(taskCalls: seq<seq<Action>>, workers: nat, finishes: seq<nat>, t: nat, name: string)
    requires workers >= 1 && t < |taskCalls|
    ensures PieceIds(taskCalls[t], name) <= PieceIds(WorkOf(taskCalls, workers, finishes)[Holder(workers, finishes, t)], name)
  {
    hide Holder, WorkOf;
    forall p | p in PieceIds(taskCalls[t], name)
      ensures p in PieceIds(WorkOf(taskCalls, workers, finishes)[Holder(workers, finishes, t)], name)
    {
      var i :| 0 <= i < |taskCalls[t]| && taskCalls[t][i].Put? && taskCalls[t][i].name == name && taskCalls[t][i].piece == p;
      HolderMakesCall(taskCalls, workers, finishes, t, taskCalls[t][i]);
      PieceOf(WorkOf(taskCalls, workers, finishes)[Holder(workers, finishes, t)], taskCalls[t][i]);
    }
  }

  lemma OnlyWorkerHasAll(taskCalls: seq<seq<Action>>, serial: seq<Action>, finishes: seq<nat>, name: string)
    requires SameStash(taskCalls, serial)
    ensures PieceIds(WorkOf(taskCalls, 1, finishes)[0], name) == PieceIds(serial, name)
  {
    WorkMakesAll(taskCalls, 1, finishes);
    var work := WorkOf(taskCalls, 1, finishes);
    assert work[1..] == [] && Concat(work) == work[0] + Concat(work[1..]) == work[0];
    PieceIdsOfPart(work[0], serial, name);
    PieceIdsOfPart(serial, work[0], name);
  }

  /** A safe plan is split by no order. */
  lemma SafeIsUnsplit(taskCalls: seq<seq<Action>>, serial: seq<Action>, workers: nat, finishes: seq<nat>)
    requires workers >= 1 && SameStash(taskCalls, serial) && OrderSafe(taskCalls, serial, workers)
    ensures Unsplit(WorkOf(taskCalls, workers, finishes), serial)
  {
    var work := WorkOf(taskCalls, workers, finishes);
    WorkSpreads(taskCalls, serial, workers, finishes);
    hide WorkOf, PieceIds, Completes, InOneTask;
    forall a | a in serial && Completes(map[], serial, a)
      ensures exists w :: 0 <= w < |work| && PieceIds(work[w], a.name) == PieceIds(serial, a.name)
    {
      if workers == 1 {
        OnlyWorkerHasAll(taskCalls, serial, finishes, a.name);
        assert PieceIds(work[0], a.name) == PieceIds(serial, a.name);
      } else {
        var w := WorkerOfTask(taskCalls, serial, workers, finishes, a.name);
        assert PieceIds(work[w], a.name) == PieceIds(serial, a.name);
      }
    }
  }

  lemma WorkerOfTask(taskCalls: seq<seq<Action>>, serial: seq<Action>, workers: nat, finishes: seq<nat>, name: string) returns (w: nat)
    requires workers >= 1 && SameStash(taskCalls, serial) && InOneTask(taskCalls, serial, name)
    ensures w < workers && PieceIds(WorkOf(taskCalls, workers, finishes)[w], name) == PieceIds(serial, name)
  {
    var t :| 0 <= t < |taskCalls| && PieceIds(serial, name) <= PieceIds(taskCalls[t], name);
    assert PutsIn(Concat(taskCalls), serial);
    hide *;
    var work := WorkOf(taskCalls, workers, finishes);
    w := Holder(workers, finishes, t);
    WorkSpreads(taskCalls, serial, workers, finishes);
    HolderHasPieces(taskCalls, workers, finishes, t, name);
    ProcessPuts(work, serial, w);
    PieceIdsOfPart(work[w], serial, name);
  }

  lemma TaskOfCall(taskCalls: seq<seq<Action>>, serial: seq<Action>, a: Action) returns (t: nat)
    requires SameStash(taskCalls, serial) && a in serial && a.Put?
    ensures t < |taskCalls| && a in taskCalls[t]
  {
    InPart(serial, Concat(taskCalls), a);
    InConcat(taskCalls, a);
    t :| 0 <= t < |taskCalls| && a in taskCalls[t];
  }

  /** Two calls for one output in different tasks, neither of which has all pieces. */
  lemma TwoTasksOf(taskCalls: seq<seq<Action>>, serial: seq<Action>, a: Action) returns (b: Action, i: nat, j: nat)
    requires SameStash(taskCalls, serial) && a in serial && a.Put? && !InOneTask(taskCalls, serial, a.name)
    ensures i < |taskCalls| && j < |taskCalls| && i != j && a in taskCalls[i] && b in taskCalls[j]
    ensures b in serial && PutsTo(b, a.name)
  {
    i := TaskOfCall(taskCalls, serial, a);
    var q :| q in PieceIds(serial, a.name) && q !in PieceIds(taskCalls[i], a.name);
    var k :| 0 <= k < |serial| && serial[k].Put? && serial[k].name == a.name && serial[k].piece == q;
    b := serial[k];
    j := TaskOfCall(taskCalls, serial, b);
    if i == j {
      PieceOf(taskCalls[i], b);
    }
  }

  /** A worker that has all pieces of an output makes every call for it, and no other worker does. */
  lemma AllPiecesOnHolder(taskCalls: seq<seq<Action>>, serial: seq<Action>, workers: nat, finishes: seq<nat>, w: nat, t: nat, a: Action)
    requires workers >= 1 && PutsIn(Concat(taskCalls), serial) && DistinctPieces(serial)
    requires w < workers && t < |taskCalls| && a in taskCalls[t] && a in serial && a.Put?
    requires PieceIds(WorkOf(taskCalls, workers, finishes)[w], a.name) == PieceIds(serial, a.name)
    ensures w == Holder(workers, finishes, t)
  {
    hide WorkOf, Holder, DistinctPieces, PieceIds, PutsIn;
    var work, v := WorkOf(taskCalls, workers, finishes), Holder(workers, finishes, t);
    WorkSpreads(taskCalls, serial, workers, finishes);
    ProcessPuts(work, serial, w);
    PieceOf(serial, a);
    HolderOf(work[w], serial, a);
    HolderMakesCall(taskCalls, workers, finishes, t, a);
    if w < v {
      NotInBoth(work, serial, w, v, a);
    } else if v < w {
      NotInBoth(work, serial, v, w, a);
    }
  }

  /** With two workers or more, some order splits an unsafe plan. */
  lemma UnsafeIsSplit(taskCalls: seq<seq<Action>>, serial: seq<Action>, workers: nat) returns (finishes: seq<nat>)
    requires workers >= 1 && SameStash(taskCalls, serial) && Ready(map[], serial)
    requires !OrderSafe(taskCalls, serial, workers)
    ensures !Unsplit(WorkOf(taskCalls, workers, finishes), serial)
  {
    ReadyIsDistinct(map[], serial);
    var a :| a in serial && Completes(map[], serial, a) && !InOneTask(taskCalls, serial, a.name);
    CompletingIsPut(map[], serial, a);
    hide Ready, DistinctPieces, InOneTask, Completes, WorkOf, PieceIds;
    var b, i, j := TwoTasksOf(taskCalls, serial, a);
    if i < j {
      finishes := TasksCanPart(workers, i, j);
    } else {
      finishes := TasksCanPart(workers, j, i);
    }
    var work := WorkOf(taskCalls, workers, finishes);
    WorkSpreads(taskCalls, serial, workers, finishes);
    forall w | 0 <= w < |work| ensures PieceIds(work[w], a.name) != PieceIds(serial, a.name) {
      if PieceIds(work[w], a.name) == PieceIds(serial, a.name) {
        AllPiecesOnHolder(taskCalls, serial, workers, finishes, w, i, a);
        AllPiecesOnHolder(taskCalls, serial, workers, finishes, w, j, b);
      }
    }
  }

  /** The tasks' calls, spread over workers in every order in which tasks can finish: no order splits a joined output
      exactly if there is one worker or no joined output has its pieces in two tasks. */
  lemma EveryOrder(taskCalls: seq<seq<Action>>, serial: seq<Action>, workers: nat)
    requires workers >= 1 && SameStash(taskCalls, serial) && Ready(map[], serial)
    ensures (forall finishes: seq<nat> :: Unsplit(WorkOf(taskCalls, workers, finishes), serial)) <==> OrderSafe(taskCalls, serial, workers)
  {
    hide *;
    if OrderSafe(taskCalls, serial, workers) {
      forall finishes: seq<nat> ensures Unsplit(WorkOf(taskCalls, workers, finishes), serial) {
        SafeIsUnsplit(taskCalls, serial, workers, finishes);
      }
    } else {
      var finishes := UnsafeIsSplit(taskCalls, serial, workers);
    }
  }

  lemma TasksStash(d: Dims, core: Core, stored: seq<Stored>, calls: Unit -> seq<Action>, tasks: seq<TaskSpec>,
                   taskCalls: seq<seq<Action>>, serial: seq<Action>)
    requires Execution(d, core, stored, calls, tasks, taskCalls) && SerialCalls(d, core, stored) == Success(serial)
    ensures PutsIn(Concat(taskCalls), serial) && (DirectEmits(d, core, stored) ==> SameStash(taskCalls, serial))
  {
    TasksMakeAllCalls(d, core, stored, calls, tasks, taskCalls);
    RayPutsIn(d, core, stored, serial);
    hide Execution, SerialCalls, RayCalls, DirectEmits;
  }

  /** The same of a plan, for every core that stashes nothing of the experts on the direct route: whether the order of
      completion can split an output is decided by the calls of the plan's tasks alone. If the direct route makes the serial
      loop's calls, every order gives the serial outputs exactly if the plan is safe. */
  lemma PlanIsOrderFree(d: Dims, core: Core, combine: (string, Bucket) -> Tensor, stored: seq<Stored>,
                        calls: Unit -> seq<Action>, tasks: seq<TaskSpec>, taskCalls: seq<seq<Action>>, workers: nat,
                        serial: seq<Action>)
    requires Execution(d, core, stored, calls, tasks, taskCalls) && workers >= 1 && DirectEmits(d, core, stored)
    requires SerialCalls(d, core, stored) == Success(serial) && Ready(map[], serial)
    ensures (forall finishes: seq<nat> :: Unsplit(WorkOf(taskCalls, workers, finishes), serial)) <==> OrderSafe(taskCalls, serial, workers)
    ensures DirectAlike(d, core, stored) ==>
              ((forall finishes: seq<nat> :: Collected(combine, WorkOf(taskCalls, workers, finishes)) == multiset(Outputs(combine, serial)))
               <==> OrderSafe(taskCalls, serial, workers))
  {
    hide *;
    TasksStash(d, core, stored, calls, tasks, taskCalls, serial);
    EveryOrder(taskCalls, serial, workers);
    if DirectAlike(d, core, stored) {
      TasksMakeSerialCalls(d, core, stored, calls, tasks, taskCalls, serial);
      forall finishes: seq<nat>
        ensures Collected(combine, WorkOf(taskCalls, workers, finishes)) == multiset(Outputs(combine, serial))
                <==> Unsplit(WorkOf(taskCalls, workers, finishes), serial)
      {
        WorkMakesAll(taskCalls, workers, finishes);
        SpreadsIf(WorkOf(taskCalls, workers, finishes), serial);
        SpreadOutputs(combine, WorkOf(taskCalls, workers, finishes), serial);
      }
    }
  }

  /** For a core of a family: every order of completion gives the serial outputs exactly if the plan is safe and every
      direct source with experts goes by the core's names. */
  lemma FamilyIsOrderFree(d: Dims, core: Core, family: Family, combine: (string, Bucket) -> Tensor, stored: seq<Stored>,
                          calls: Unit -> seq<Action>, tasks: seq<TaskSpec>, taskCalls: seq<seq<Action>>, workers: nat,
                          serial: seq<Action>)
    requires Execution(d, core, stored, calls, tasks, taskCalls) && workers >= 1 && FollowsAll(core, family, stored)
    requires SerialCalls(d, core, stored) == Success(serial) && Ready(map[], serial)
    ensures (forall finishes: seq<nat> :: Collected(combine, WorkOf(taskCalls, workers, finishes)) == multiset(Outputs(combine, serial)))
            <==> OrderSafe(taskCalls, serial, workers) && NamedAlike(family, stored)
  {
    hide *;
    FamilyStashesNothing(d, core, family, stored);
    TasksStash(d, core, stored, calls, tasks, taskCalls, serial);
    TasksMakeAllCalls(d, core, stored, calls, tasks, taskCalls);
    EveryOrder(taskCalls, serial, workers);
    forall finishes: seq<nat>
      ensures Collected(combine, WorkOf(taskCalls, workers, finishes)) == multiset(Outputs(combine, serial))
              <==> Unsplit(WorkOf(taskCalls, workers, finishes), serial) && NamedAlike(family, stored)
    {
      FamilyRun(d, core, family, combine, stored, calls, tasks, taskCalls, workers, finishes, serial);
    }
    var nobody: seq<nat> := [];
    assert Collected(combine, WorkOf(taskCalls, workers, nobody)) == multiset(Outputs(combine, serial))
           <==> Unsplit(WorkOf(taskCalls, workers, nobody), serial) && NamedAlike(family, stored);
  }

  /** One order of completion. */
  lemma FamilyRun(d: Dims, core: Core, family: Family, combine: (string, Bucket) -> Tensor, stored: seq<Stored>,
                  calls: Unit -> seq<Action>, tasks: seq<TaskSpec>, taskCalls: seq<seq<Action>>, workers: nat,
                  finishes: seq<nat>, serial: seq<Action>)
    requires Execution(d, core, stored, calls, tasks, taskCalls) && workers >= 1 && FollowsAll(core, family, stored)
    requires SerialCalls(d, core, stored) == Success(serial) && Ready(map[], serial)
    ensures var work := WorkOf(taskCalls, workers, finishes);
            && (Collected(combine, work) == multiset(Outputs(combine, serial)) <==> Unsplit(work, serial) && NamedAlike(family, stored))
            && (multiset(Outputs(combine, serial)) <= Collected(combine, work) ==> Unsplit(work, serial) && NamedAlike(family, stored))
  {
    assert WorkOf(taskCalls, workers, finishes) == Map(Assigned(workers, finishes, |taskCalls|), WorkerCalls(taskCalls));
    hide *;
    TasksMakeAllCalls(d, core, stored, calls, tasks, taskCalls);
    AssignedIsHanded(workers, finishes, |taskCalls|);
    FamilyRefinesSerial(d, core, family, combine, stored, calls, tasks, taskCalls, Assigned(workers, finishes, |taskCalls|), serial);
  }

  // ---------------------------------------------------------------- when nothing is split

  /** All pieces of every collected output come from whole keys of one MLA pair group. */
  ghost predicate PairsOnly(d: Dims, core: Core, stored: seq<Stored>) {
    forall r, s, a, b :: r in stored && s in stored && a in SourceCalls(d, core, r) && b in SourceCalls(d, core, s)
                         && a.Put? && PutsTo(b, a.name) ==>
      !Direct(r.meta) && !Direct(s.meta) && MlaPairGroup(r.meta.name) == MlaPairGroup(s.meta.name)
  }

  /** A task that holds a whole key makes the serial calls for it. */
  lemma CallInTask(d: Dims, core: Core, stored: seq<Stored>, tasks: seq<TaskSpec>, calls: Unit -> seq<Action>,
                   taskCalls: seq<seq<Action>>, t: nat, s: Stored, a: Action)
    requires UnitCalls(d, core, stored, calls)
    requires TasksDone(tasks, calls, taskCalls) && t < |tasks| && tasks[t].blocks == [] && s.meta.name in tasks[t].keys
    requires s in stored && !Direct(s.meta) && a in SourceCalls(d, core, s)
    ensures a in taskCalls[t]
  {
    var units := TaskUnitList(tasks[t]);
    var k :| 0 <= k < |tasks[t].keys| && tasks[t].keys[k] == s.meta.name;
    assert units[k] == Whole(s.meta.name);
    assert calls(Whole(s.meta.name)) == SourceCalls(d, core, s);
    hide SourceCalls, Direct;
    assert a in CallBag(calls)(Whole(s.meta.name));
    GatherContains(units, CallBag(calls), Whole(s.meta.name), a);
    assert a in multiset(taskCalls[t]);
  }

  /** A key converted whole is in one task only. */
  lemma OneTask(sources: seq<Source>, tasks: seq<TaskSpec>, s: Source, t: nat, v: nat)
    requires DistinctNames(sources) && IsPlan(sources, tasks) && s in sources && !Direct(s)
    requires t < |tasks| && tasks[t].blocks == [] && s.name in tasks[t].keys
    requires v < |tasks| && tasks[v].blocks == [] && s.name in tasks[v].keys
    ensures t == v
  {
    var i :| 0 <= i < |sources| && sources[i] == s;
    var k := PlannedExactlyOnce(sources, tasks, i, Whole(s.name));
    WholeInTask(tasks[t], s.name);
    WholeInTask(tasks[v], s.name);
  }

  lemma WholeInTask(t: TaskSpec, name: string)
    requires t.blocks == [] && name in t.keys
    ensures TaskUnits(t)[Whole(name)] > 0
  {
    var k :| 0 <= k < |t.keys| && t.keys[k] == name;
    assert Map(t.keys, WholeUnit)[k] == Whole(name);
    assert Whole(name) in multiset(Map(t.keys, WholeUnit));
  }

  /** Every call of the serial loop comes from a source. */
  lemma CallHasSource(d: Dims, core: Core, stored: seq<Stored>, serial: seq<Action>, a: Action) returns (s: Stored)
    requires SerialCalls(d, core, stored) == Success(serial) && a in serial
    ensures s in stored && a in SourceCalls(d, core, s)
  {
    SerialIsPerSource(d, core, stored);
    var each := CallsFor(d, core);
    InConcat(Map(stored, each), a);
    var i :| 0 <= i < |stored| && a in Map(stored, each)[i];
    s := stored[i];
  }

  /** With a core that collects only MLA pairs, which the planner keeps together, the plan is safe for any number of
      workers. */
  lemma PairsAreNeverSplit(d: Dims, core: Core, stored: seq<Stored>, tasks: seq<TaskSpec>,
                           calls: Unit -> seq<Action>, taskCalls: seq<seq<Action>>,
                           workers: nat, serial: seq<Action>)
    requires UnitCalls(d, core, stored, calls)
    requires IsPlan(Map(stored, MetaOf), tasks) && TasksDone(tasks, calls, taskCalls)
    requires DistinctNames(Map(stored, MetaOf)) && PairsTogether(Map(stored, MetaOf), tasks) && PairsOnly(d, core, stored)
    requires SerialCalls(d, core, stored) == Success(serial)
    ensures OrderSafe(taskCalls, serial, workers)
  {
    forall a | a in serial && Completes(map[], serial, a) ensures InOneTask(taskCalls, serial, a.name) {
      CompletingIsPut(map[], serial, a);
      hide *;
      TaskHoldsPair(d, core, stored, tasks, calls, taskCalls, serial, a);
    }
  }

  lemma TaskHoldsPair(d: Dims, core: Core, stored: seq<Stored>, tasks: seq<TaskSpec>,
                      calls: Unit -> seq<Action>, taskCalls: seq<seq<Action>>,
                      serial: seq<Action>, a: Action)
    requires UnitCalls(d, core, stored, calls)
    requires IsPlan(Map(stored, MetaOf), tasks) && TasksDone(tasks, calls, taskCalls)
    requires DistinctNames(Map(stored, MetaOf)) && PairsTogether(Map(stored, MetaOf), tasks) && PairsOnly(d, core, stored)
    requires SerialCalls(d, core, stored) == Success(serial) && a in serial && a.Put?
    ensures InOneTask(taskCalls, serial, a.name)
  {
    TaskCount(tasks, calls, taskCalls);
    var r := CallHasSource(d, core, stored, serial, a);
    var t := TaskOfPair(d, core, stored, tasks, r, r, a, a);
    SourceListed(stored, r);
    forall p | p in PieceIds(serial, a.name) ensures p in PieceIds(taskCalls[t], a.name) {
      var i :| 0 <= i < |serial| && serial[i].Put? && serial[i].name == a.name && serial[i].piece == p;
      hide *;
      PieceInTask(d, core, stored, tasks, calls, taskCalls, serial, a, r, t, serial[i]);
    }
  }

  /** Another piece of the output is stashed by the same task. */
  lemma PieceInTask(d: Dims, core: Core, stored: seq<Stored>, tasks: seq<TaskSpec>,
                    calls: Unit -> seq<Action>, taskCalls: seq<seq<Action>>,
                    serial: seq<Action>, a: Action, r: Stored, t: nat, b: Action)
    requires UnitCalls(d, core, stored, calls)
    requires IsPlan(Map(stored, MetaOf), tasks) && TasksDone(tasks, calls, taskCalls) && |taskCalls| == |tasks|
    requires DistinctNames(Map(stored, MetaOf)) && PairsTogether(Map(stored, MetaOf), tasks) && PairsOnly(d, core, stored)
    requires SerialCalls(d, core, stored) == Success(serial) && a.Put? && b in serial && b.Put? && b.name == a.name
    requires r in stored && r.meta in Map(stored, MetaOf) && a in SourceCalls(d, core, r) && !Direct(r.meta)
    requires t < |tasks| && tasks[t].blocks == [] && r.meta.name in tasks[t].keys
    ensures b.piece in PieceIds(taskCalls[t], a.name)
  {
    var s := CallHasSource(d, core, stored, serial, b);
    SameOutput(a, b);
    hide *;
    var v := TaskOfPair(d, core, stored, tasks, r, s, a, b);
    OneTask(Map(stored, MetaOf), tasks, r.meta, t, v);
    CallInTask(d, core, stored, tasks, calls, taskCalls, t, s, b);
    PieceOf(taskCalls[t], b);
  }

  lemma SameOutput(a: Action, b: Action)
    requires a.Put? && b.Put? && a.name == b.name
    ensures PutsTo(b, a.name)
  {}

  lemma TaskCount(tasks: seq<TaskSpec>, calls: Unit -> seq<Action>, taskCalls: seq<seq<Action>>)
    requires TasksDone(tasks, calls, taskCalls)
    ensures |taskCalls| == |tasks|
  {}

  lemma TaskOfPair(d: Dims, core: Core, stored: seq<Stored>, tasks: seq<TaskSpec>, r: Stored, s: Stored,
                   a: Action, b: Action) returns (t: nat)
    requires PairsTogether(Map(stored, MetaOf), tasks) && PairsOnly(d, core, stored) && r in stored && s in stored
    requires a in SourceCalls(d, core, r) && b in SourceCalls(d, core, s) && a.Put? && PutsTo(b, a.name)
    ensures !Direct(r.meta) && !Direct(s.meta)
    ensures t < |tasks| && tasks[t].blocks == [] && r.meta.name in tasks[t].keys && s.meta.name in tasks[t].keys
  {
    SourceListed(stored, r);
    SourceListed(stored, s);
    var spec :| spec in tasks && spec.blocks == [] && r.meta.name in spec.keys && s.meta.name in spec.keys;
    t :| 0 <= t < |tasks| && tasks[t] == spec;
  }
}
