/** Outputs that the default plan can lose: their pieces come from several source keys, which go into separate tasks. */
module SplitOutputs {

  import opened Accumulation
  import opened Cores
  import opened Dispatcher
  import opened FamilyRefinement
  import opened MoeChunks
  import opened OrderSafety
  import opened Params
  import opened Planner
  import opened RayRefinement
  import opened Rearrangement
  import opened Sequences
  import opened SerialConversion
  import opened Spread
  import opened Strings
  import opened TensorNames
  import opened Tensors
  import opened Wrappers

  // ---------------------------------------------------------------- two keys in separate tasks

  /** A task that holds a whole key, and makes the calls for it. */
  lemma TaskOfKey(d: Dims, core: Core, stored: seq<Stored>, calls: Unit -> seq<Action>, tasks: seq<TaskSpec>,
                  taskCalls: seq<seq<Action>>, s: Stored, a: Action) returns (t: nat)
    requires Execution(d, core, stored, calls, tasks, taskCalls) && DistinctNames(Map(stored, MetaOf))
    requires s in stored && !Direct(s.meta) && a in SourceCalls(d, core, s)
    ensures t < |taskCalls| == |tasks| && a in taskCalls[t] && tasks[t].blocks == [] && s.meta.name in tasks[t].keys
  {
    SourceListed(stored, s);
    var i :| 0 <= i < |stored| && Map(stored, MetaOf)[i] == s.meta;
    assert UnitCalls(d, core, stored, calls) && IsPlan(Map(stored, MetaOf), tasks) && TasksDone(tasks, calls, taskCalls);
    t := PlannedExactlyOnce(Map(stored, MetaOf), tasks, i, Whole(s.meta.name));
    WholeHolder(tasks[t], s.meta.name);
    TaskCount(tasks, calls, taskCalls);
    hide *;
    CallInTask(d, core, stored, tasks, calls, taskCalls, t, s, a);
  }

  lemma TasksApart(qLora: bool, tasks: seq<TaskSpec>, t: nat, v: nat, x: string, y: string)
    requires GroupsApart(qLora, tasks) && KeyGroup(qLora, x) != KeyGroup(qLora, y)
    requires t < |tasks| && tasks[t].blocks == [] && x in tasks[t].keys
    requires v < |tasks| && tasks[v].blocks == [] && y in tasks[v].keys
    ensures t != v
  {
    assert tasks[t] in tasks;
  }

  /** Without a task group target, some order of completion keeps two pieces of an output from two whole keys of different
      groups on different workers, so that no worker ever has all pieces. */
  lemma SplitAcrossGroups(d: Dims, core: Core, stored: seq<Stored>, qLora: bool, calls: Unit -> seq<Action>,
                          tasks: seq<TaskSpec>, taskCalls: seq<seq<Action>>, workers: nat, serial: seq<Action>,
                          r: Stored, s: Stored, a: Action, b: Action)
    returns (finishes: seq<nat>)
    requires Execution(d, core, stored, calls, tasks, taskCalls) && GroupsApart(qLora, tasks) && DistinctNames(Map(stored, MetaOf))
    requires SerialCalls(d, core, stored) == Success(serial) && Ready(map[], serial)
    requires r in stored && !Direct(r.meta) && a in SourceCalls(d, core, r)
    requires s in stored && !Direct(s.meta) && b in SourceCalls(d, core, s)
    requires KeyGroup(qLora, r.meta.name) != KeyGroup(qLora, s.meta.name)
    requires a.Put? && PutsTo(b, a.name) && workers >= 2
    ensures var work := WorkOf(taskCalls, workers, finishes);
            forall w :: 0 <= w < |work| ==> PieceIds(work[w], a.name) != PieceIds(serial, a.name)
  {
    ReadyIsDistinct(map[], serial);
    CallIsSerial(d, core, stored, serial, r, a);
    CallIsSerial(d, core, stored, serial, s, b);
    assert b.Put? && b.name == a.name;
    hide *;
    TasksStash(d, core, stored, calls, tasks, taskCalls, serial);
    var t := TaskOfKey(d, core, stored, calls, tasks, taskCalls, r, a);
    var v := TaskOfKey(d, core, stored, calls, tasks, taskCalls, s, b);
    TasksApart(qLora, tasks, t, v, r.meta.name, s.meta.name);
    if t < v {
      finishes := TasksCanPart(workers, t, v);
    } else {
      finishes := TasksCanPart(workers, v, t);
    }
    var work := WorkOf(taskCalls, workers, finishes);
    forall w | 0 <= w < |work| ensures PieceIds(work[w], a.name) != PieceIds(serial, a.name) {
      if PieceIds(work[w], a.name) == PieceIds(serial, a.name) {
        AllPiecesOnHolder(taskCalls, serial, workers, finishes, w, t, a);
        AllPiecesOnHolder(taskCalls, serial, workers, finishes, w, v, b);
      }
    }
  }

  lemma CallIsSerial(d: Dims, core: Core, stored: seq<Stored>, serial: seq<Action>, s: Stored, a: Action)
    requires SerialCalls(d, core, stored) == Success(serial) && s in stored && a in SourceCalls(d, core, s)
    ensures a in serial
  {
    SerialIsPerSource(d, core, stored);
    var i :| 0 <= i < |stored| && stored[i] == s;
    var lists := Map(stored, CallsFor(d, core));
    assert lists[i] == SourceCalls(d, core, s);
    InConcat(lists, a);
  }

  /** No key of the direct route gives an expert this name. */
  ghost predicate NotAnExpert(name: string) {
    forall key, e: nat, p :: DirectName(key, e, p) != name
  }

  /** An output that no worker has all pieces of is handed on less often than by the serial loop. */
  lemma SplitIsLost(d: Dims, core: Core, combine: (string, Bucket) -> Tensor, stored: seq<Stored>, calls: Unit -> seq<Action>,
                    tasks: seq<TaskSpec>, taskCalls: seq<seq<Action>>, workers: nat, finishes: seq<nat>, serial: seq<Action>,
                    a: Action)
    requires Execution(d, core, stored, calls, tasks, taskCalls) && workers >= 1
    requires SerialCalls(d, core, stored) == Success(serial) && Ready(map[], serial)
    requires a in serial && Completes(map[], serial, a) && NotAnExpert(a.name)
    requires var work := WorkOf(taskCalls, workers, finishes);
             forall w :: 0 <= w < |work| ==> PieceIds(work[w], a.name) != PieceIds(serial, a.name)
    ensures var o := JoinOf(combine, map[], serial, a.name);
            Collected(combine, WorkOf(taskCalls, workers, finishes))[o] < multiset(Outputs(combine, serial))[o]
  {
    var work, o := WorkOf(taskCalls, workers, finishes), JoinOf(combine, map[], serial, a.name);
    assert o.name == a.name && o in Joined(combine, map[], serial);
    NotJoined(d, core, combine, stored, calls, tasks, taskCalls, workers, finishes, serial, o);
    SerialIsPerSource(d, core, stored);
    hide *;
    TasksStash(d, core, stored, calls, tasks, taskCalls, serial);
    WorkSpreads(taskCalls, serial, workers, finishes);
    SpreadJoins(combine, work, serial);
    WorkMakesAll(taskCalls, workers, finishes);
    TasksMakeAllCalls(d, core, stored, calls, tasks, taskCalls);
    SameEmits(Concat(work), RayCalls(d, core, stored));
    EmitsDiffer(d, core, stored);
    NotOnDirectRoute(stored, o);
    assert (Emitted(serial) + Gather(stored, RayDirect()))[o] == (Emitted(RayCalls(d, core, stored)) + Gather(stored, SerialDirect(d, core)))[o];
  }

  lemma NotJoined(d: Dims, core: Core, combine: (string, Bucket) -> Tensor, stored: seq<Stored>, calls: Unit -> seq<Action>,
                  tasks: seq<TaskSpec>, taskCalls: seq<seq<Action>>, workers: nat, finishes: seq<nat>, serial: seq<Action>, o: Out)
    requires Execution(d, core, stored, calls, tasks, taskCalls) && workers >= 1
    requires SerialCalls(d, core, stored) == Success(serial) && Ready(map[], serial)
    requires var work := WorkOf(taskCalls, workers, finishes);
             forall w :: 0 <= w < |work| ==> PieceIds(work[w], o.name) != PieceIds(serial, o.name)
    ensures o !in JoinedAnywhere(combine, WorkOf(taskCalls, workers, finishes))
  {
    hide *;
    var work := WorkOf(taskCalls, workers, finishes);
    TasksStash(d, core, stored, calls, tasks, taskCalls, serial);
    WorkSpreads(taskCalls, serial, workers, finishes);
    InJoinedAnywhere(combine, work, o);
    forall w | 0 <= w < |work| ensures o !in Joined(combine, map[], work[w]) {
      ProcessPuts(work, serial, w);
      JoinedInPart(combine, work[w], serial, o);
    }
  }

  lemma NotOnDirectRoute(stored: seq<Stored>, o: Out)
    requires NotAnExpert(o.name)
    ensures Gather(stored, RayDirect())[o] == 0
  {
    if o in Gather(stored, RayDirect()) {
      var s := RayDirectNamed(stored, o);
    }
  }

  // ---------------------------------------------------------------- the cores that collect across keys

  /** A parameter of every layer that is one piece of an output of that layer. */
  datatype Piece = Piece(start: string, output: string, index: nat, of: nat)

  function OutputName(p: Piece, layer: nat): string {
    p.start + (Dec(layer) + ("." + p.output))
  }

  /** Pieces 0 and 1 of a layer's gate. */
  const INKLING_PIECES: map<string, Piece> :=
    map["mlp.router.weight" := Piece("model.llm.layers.", "mlp.gate.weight", 0, 2),
        "mlp.router.shared_gate" := Piece("model.llm.layers.", "mlp.gate.weight", 1, 2)]

  /** The three scales of a hyper-connection, for DeepSeek V4 and GLM-5 next alike. */
  const HYPER_CONNECTION_PIECES: map<string, Piece> :=
    map["self_attention_hyper_connection.alpha_pre" := Piece("model.layers.", "hc_attn_scale", 0, 3),
        "self_attention_hyper_connection.alpha_post" := Piece("model.layers.", "hc_attn_scale", 1, 3),
        "self_attention_hyper_connection.alpha_res" := Piece("model.layers.", "hc_attn_scale", 2, 3),
        "mlp_hyper_connection.alpha_pre" := Piece("model.layers.", "hc_ffn_scale", 0, 3),
        "mlp_hyper_connection.alpha_post" := Piece("model.layers.", "hc_ffn_scale", 1, 3),
        "mlp_hyper_connection.alpha_res" := Piece("model.layers.", "hc_ffn_scale", 2, 3)]

  /** A core that collects these parameters and does anything with the others. */
  function CollectingCore(pieces: map<string, Piece>, rest: Core): Core {
    (p: Named) =>
      if p.key.layer.Layer? && p.key.expert == NoExperts && p.key.stem in pieces then
        var piece := pieces[p.key.stem];
        Success([Put(OutputName(piece, p.key.layer.id), piece.index, piece.of, p.value)])
      else rest(p)
  }

  /** Only parameters of one layer, and not of an expert, are collected. */
  lemma OthersAreNotCollected(pieces: map<string, Piece>, rest: Core, p: Named)
    requires !p.key.layer.Layer? || p.key.expert != NoExperts || p.key.stem !in pieces
    ensures CollectingCore(pieces, rest)(p) == rest(p)
  {}

  /** A key that holds the parameter for a layer, alone or stacked with the other layers. */
  predicate HoldsLayer(d: Dims, key: Key, layer: nat) {
    key.expert == NoExperts && (key.layer == Layer(layer) || (key.layer == AllLayers && layer < d.layers))
  }

  /** A key that is no expert's holds a layer exactly if taking it apart yields a part of that layer. */
  lemma HoldsLayerIff(d: Dims, p: Named, layer: nat)
    requires GetLayerParam(d, p).Success? && p.key.expert == NoExperts
    ensures HoldsLayer(d, p.key, layer) <==> exists q :: q in GetLayerParam(d, p).value && q.key.layer == Layer(layer)
  {
    TakenApartInOrder(d, p);
    var parts := GetLayerParam(d, p).value;
    if HoldsLayer(d, p.key, layer) {
      var q := parts[if p.key.layer == AllLayers then layer else 0];
      assert q in parts && q.key.layer == Layer(layer);
    }
  }

  lemma {:induction false} StackedLayers(d: Dims, p: Named, n: nat)
    requires p.value.Stack? && n <= |p.value.rows| && p.key.expert == NoExperts
    ensures LayersUpTo(d, p, n).Success? && |LayersUpTo(d, p, n).value| == n
    ensures forall l :: 0 <= l < n ==> LayersUpTo(d, p, n).value[l] == LayerSlice(p, l)
  {
    if n > 0 {
      StackedLayers(d, p, n - 1);
    }
  }

  /** Converting a key that holds the layer stashes the layer's piece. */
  lemma PieceIsStashed(d: Dims, pieces: map<string, Piece>, rest: Core, s: Stored, layer: nat) returns (a: Action)
    requires s.param.key.stem in pieces && HoldsLayer(d, s.param.key, layer) && GetLayerParam(d, s.param).Success?
    ensures a in SourceCalls(d, CollectingCore(pieces, rest), s)
    ensures a.Put? && a.name == OutputName(pieces[s.param.key.stem], layer)
    ensures a.piece == pieces[s.param.key.stem].index && a.of == pieces[s.param.key.stem].of
  {
    var p, core := s.param, CollectingCore(pieces, rest);
    var params := GetLayerParam(d, p).value;
    var i := if p.key.layer.Layer? then 0 else layer;
    if p.key.layer == AllLayers {
      StackedLayers(d, p, d.layers);
    }
    var piece := pieces[p.key.stem];
    a := Put(OutputName(piece, layer), piece.index, piece.of, params[i].value);
    assert Map(params, Made(core))[i] == [a];
    InConcat(Map(params, Made(core)), a);
  }

  /** From end to end, for any core that collects these parameters, any checkpoint, any plan without a task group target and
      two workers or more: when the serial loop joins the output and two of its parameters are whole keys of different
      groups, some order of completion hands the output on less often than the serial loop does. */
  lemma CollectedOutputIsLost(d: Dims, pieces: map<string, Piece>, rest: Core, combine: (string, Bucket) -> Tensor,
                              stored: seq<Stored>, qLora: bool, calls: Unit -> seq<Action>, tasks: seq<TaskSpec>,
                              taskCalls: seq<seq<Action>>, workers: nat, serial: seq<Action>, r: Stored, s: Stored, layer: nat)
    returns (finishes: seq<nat>, o: Out)
    requires Execution(d, CollectingCore(pieces, rest), stored, calls, tasks, taskCalls) && GroupsApart(qLora, tasks)
    requires DistinctNames(Map(stored, MetaOf)) && workers >= 2
    requires SerialCalls(d, CollectingCore(pieces, rest), stored) == Success(serial) && Ready(map[], serial)
    requires r in stored && s in stored && !Direct(r.meta) && !Direct(s.meta)
    requires KeyGroup(qLora, r.meta.name) != KeyGroup(qLora, s.meta.name)
    requires HoldsLayer(d, r.param.key, layer) && HoldsLayer(d, s.param.key, layer)
    requires r.param.key.stem in pieces && s.param.key.stem in pieces
    requires OutputName(pieces[r.param.key.stem], layer) == OutputName(pieces[s.param.key.stem], layer)
    requires |PieceIds(serial, OutputName(pieces[r.param.key.stem], layer))| == pieces[r.param.key.stem].of
    requires NotAnExpert(OutputName(pieces[r.param.key.stem], layer))
    ensures o.name == OutputName(pieces[r.param.key.stem], layer)
    ensures Collected(combine, WorkOf(taskCalls, workers, finishes))[o] < multiset(Outputs(combine, serial))[o]
  {
    var core := CollectingCore(pieces, rest);
    SerialIsPerSource(d, core, stored);
    assert Convertible(d, core, r) && Convertible(d, core, s);
    var a := PieceIsStashed(d, pieces, rest, r, layer);
    var b := PieceIsStashed(d, pieces, rest, s, layer);
    AllPiecesComplete(serial, a);
    CallIsSerial(d, core, stored, serial, r, a);
    SameOutput(a, b);
    hide *;
    finishes := SplitAcrossGroups(d, core, stored, qLora, calls, tasks, taskCalls, workers, serial, r, s, a, b);
    SplitIsLost(d, core, combine, stored, calls, tasks, taskCalls, workers, finishes, serial, a);
    JoinHasName(combine, serial, a.name);
    o := JoinOf(combine, map[], serial, a.name);
  }

  lemma JoinHasName(combine: (string, Bucket) -> Tensor, serial: seq<Action>, name: string)
    ensures JoinOf(combine, map[], serial, name).name == name
  {}

  lemma AllPiecesComplete(serial: seq<Action>, a: Action)
    requires a.Put? && |PieceIds(serial, a.name)| == a.of
    ensures Completes(map[], serial, a)
  {
    FoldKeys(map[], serial, a.name);
    var full := Fold(map[], serial, a.name);
    assert BucketOf(map[], a.name) == map[] && full.Keys == PieceIds(serial, a.name);
    assert |full| == |full.Keys|;
  }

  // ---------------------------------------------------------------- the outputs of the three cores

  /** A key that is no MLA down-projection, and so a group of its own. */
  predicate OtherKey(name: string) {
    !Occurs(name, Q_DOWN) && !Occurs(name, KV_DOWN)
  }

  lemma OwnGroup(qLora: bool, name: string)
    requires OtherKey(name)
    ensures KeyGroup(qLora, name) == name
  {
    ReplaceNothing(name, Q_DOWN, PAIR);
    ReplaceNothing(name, KV_DOWN, PAIR);
  }

  lemma OwnGroups(stored: seq<Stored>, qLora: bool, r: Stored, s: Stored)
    requires DistinctNames(Map(stored, MetaOf)) && r in stored && s in stored && r != s
    requires OtherKey(r.meta.name) && OtherKey(s.meta.name)
    ensures KeyGroup(qLora, r.meta.name) != KeyGroup(qLora, s.meta.name)
  {
    OwnGroup(qLora, r.meta.name);
    OwnGroup(qLora, s.meta.name);
    var i :| 0 <= i < |stored| && stored[i] == r;
    var j :| 0 <= j < |stored| && stored[j] == s;
    var metas := Map(stored, MetaOf);
    assert metas[i] == r.meta && metas[j] == s.meta;
    assert i < j || j < i;
  }

  lemma GateIsNoExpert(layer: nat)
    ensures NotAnExpert(OutputName(Piece("model.llm.layers.", "mlp.gate.weight", 0, 2), layer))
  {
    var name := OutputName(Piece("model.llm.layers.", "mlp.gate.weight", 0, 2), layer);
    assert name[0] == 'm' && name[7] == 'l';
    forall key, e: nat, p ensures DirectName(key, e, p) != name {
      if key.prefixed {
        assert DirectName(key, e, p)[0] == 'l';
      } else {
        assert DirectName(key, e, p)[7] == 'a';
      }
    }
  }

  lemma ScaleIsNoExpert(p: Piece, layer: nat)
    requires p.output == "hc_attn_scale" || p.output == "hc_ffn_scale"
    ensures NotAnExpert(OutputName(p, layer))
  {
    var name := OutputName(p, layer);
    assert name[|name| - 1] == 'e';
    forall key, e: nat, q ensures DirectName(key, e, q) != name {
      EndsWithWeight(key, e, q);
    }
  }

  lemma EndsWithWeight(key: ExpertKey, e: nat, p: Projection)
    ensures var n := DirectName(key, e, p); n != [] && n[|n| - 1] == 't'
  {
    var tail := ProjectionName(p) + ".weight";
    assert tail[|tail| - 1] == 't';
  }

  /** The router weights of an Inkling layer, alone or stacked over the layers, whatever the core makes of all other keys. */
  lemma InklingCheckpointLosesGate(d: Dims, rest: Core, combine: (string, Bucket) -> Tensor, stored: seq<Stored>, qLora: bool,
                                   calls: Unit -> seq<Action>, tasks: seq<TaskSpec>, taskCalls: seq<seq<Action>>,
                                   workers: nat, serial: seq<Action>, router: Stored, shared: Stored, layer: nat)
    returns (finishes: seq<nat>, o: Out)
    requires Execution(d, CollectingCore(INKLING_PIECES, rest), stored, calls, tasks, taskCalls) && GroupsApart(qLora, tasks)
    requires DistinctNames(Map(stored, MetaOf)) && workers >= 2
    requires SerialCalls(d, CollectingCore(INKLING_PIECES, rest), stored) == Success(serial) && Ready(map[], serial)
    requires router in stored && shared in stored && !Direct(router.meta) && !Direct(shared.meta)
    requires OtherKey(router.meta.name) && OtherKey(shared.meta.name)
    requires HoldsLayer(d, router.param.key, layer) && HoldsLayer(d, shared.param.key, layer)
    requires router.param.key.stem == "mlp.router.weight" && shared.param.key.stem == "mlp.router.shared_gate"
    ensures o.name == "model.llm.layers." + (Dec(layer) + ".mlp.gate.weight")
    ensures Collected(combine, WorkOf(taskCalls, workers, finishes))[o] < multiset(Outputs(combine, serial))[o]
  {
    var core, pieces := CollectingCore(INKLING_PIECES, rest), INKLING_PIECES;
    SerialIsPerSource(d, core, stored);
    assert Convertible(d, core, router) && Convertible(d, core, shared);
    GatePieces(layer);
    hide *;
    var a := PieceIsStashed(d, pieces, rest, router, layer);
    var b := PieceIsStashed(d, pieces, rest, shared, layer);
    OwnGroups(stored, qLora, router, shared);
    GateIsNoExpert(layer);
    CallIsSerial(d, core, stored, serial, router, a);
    CallIsSerial(d, core, stored, serial, shared, b);
    TwoPieces(serial, a, b);
    finishes, o := CollectedOutputIsLost(d, pieces, rest, combine, stored, qLora, calls, tasks, taskCalls, workers, serial,
                                         router, shared, layer);
  }

  lemma GatePieces(layer: nat)
    ensures var m, router, shared := INKLING_PIECES, "mlp.router.weight", "mlp.router.shared_gate";
            && router in m && shared in m && router != shared
            && m[router] == Piece("model.llm.layers.", "mlp.gate.weight", 0, 2) && m[shared] == m[router].(index := 1)
            && OutputName(m[router], layer) == OutputName(m[shared], layer) == "model.llm.layers." + (Dec(layer) + ".mlp.gate.weight")
  {
    assert "." + "mlp.gate.weight" == ".mlp.gate.weight";
  }

  lemma TwoPieces(serial: seq<Action>, a: Action, b: Action)
    requires Ready(map[], serial) && a in serial && b in serial && a.Put? && b.Put? && a.name == b.name
    requires a.piece != b.piece && a.of == 2
    ensures |PieceIds(serial, a.name)| == 2
  {
    assert Room(map[], serial, a);
    PieceOf(serial, a);
    PieceOf(serial, b);
    hide Ready, PieceIds;
    var ids := PieceIds(serial, a.name);
    assert BucketOf(map[], a.name).Keys + ids == ids;
    SubsetBound({a.piece, b.piece}, ids);
  }

  /** The parameter names of a hyper-connection's scales, in the order in which they are packed. */
  predicate AlphaStems(pre: string, post: string, res: string) {
    || (&& pre == "self_attention_hyper_connection.alpha_pre" && post == "self_attention_hyper_connection.alpha_post"
        && res == "self_attention_hyper_connection.alpha_res")
    || (&& pre == "mlp_hyper_connection.alpha_pre" && post == "mlp_hyper_connection.alpha_post"
        && res == "mlp_hyper_connection.alpha_res")
  }

  lemma AlphaPieces(pre: string, post: string, res: string)
    requires AlphaStems(pre, post, res)
    ensures var m := HYPER_CONNECTION_PIECES;
            && pre in m && post in m && res in m
            && m[post] == m[pre].(index := 1) && m[res] == m[pre].(index := 2) && m[pre].index == 0 && m[pre].of == 3
            && (m[pre].output == "hc_attn_scale" || m[pre].output == "hc_ffn_scale") && pre != post
  {}

  /** The three scales of a hyper-connection of a DeepSeek V4 or GLM-5 next layer. */
  lemma HyperConnectionScaleIsLost(d: Dims, rest: Core, combine: (string, Bucket) -> Tensor, stored: seq<Stored>, qLora: bool,
                                   calls: Unit -> seq<Action>, tasks: seq<TaskSpec>, taskCalls: seq<seq<Action>>,
                                   workers: nat, serial: seq<Action>, pre: Stored, post: Stored, res: Stored, layer: nat)
    returns (finishes: seq<nat>, o: Out)
    requires Execution(d, CollectingCore(HYPER_CONNECTION_PIECES, rest), stored, calls, tasks, taskCalls)
    requires GroupsApart(qLora, tasks) && DistinctNames(Map(stored, MetaOf)) && workers >= 2
    requires SerialCalls(d, CollectingCore(HYPER_CONNECTION_PIECES, rest), stored) == Success(serial) && Ready(map[], serial)
    requires pre in stored && post in stored && res in stored && !Direct(pre.meta) && !Direct(post.meta)
    requires OtherKey(pre.meta.name) && OtherKey(post.meta.name)
    requires HoldsLayer(d, pre.param.key, layer) && HoldsLayer(d, post.param.key, layer) && HoldsLayer(d, res.param.key, layer)
    requires AlphaStems(pre.param.key.stem, post.param.key.stem, res.param.key.stem)
    ensures o.name == OutputName(HYPER_CONNECTION_PIECES[pre.param.key.stem], layer)
    ensures Collected(combine, WorkOf(taskCalls, workers, finishes))[o] < multiset(Outputs(combine, serial))[o]
  {
    var pieces := HYPER_CONNECTION_PIECES;
    AlphaPieces(pre.param.key.stem, post.param.key.stem, res.param.key.stem);
    var core := CollectingCore(pieces, rest);
    SerialIsPerSource(d, core, stored);
    assert Convertible(d, core, pre) && Convertible(d, core, post) && Convertible(d, core, res);
    hide AlphaStems, SerialCalls;
    var a := PieceIsStashed(d, pieces, rest, pre, layer);
    var b := PieceIsStashed(d, pieces, rest, post, layer);
    var c := PieceIsStashed(d, pieces, rest, res, layer);
    assert OutputName(pieces[pre.param.key.stem], layer) == OutputName(pieces[post.param.key.stem], layer)
        == OutputName(pieces[res.param.key.stem], layer);
    hide *;
    OwnGroups(stored, qLora, pre, post);
    ScaleIsNoExpert(pieces[pre.param.key.stem], layer);
    CallIsSerial(d, core, stored, serial, pre, a);
    CallIsSerial(d, core, stored, serial, post, b);
    CallIsSerial(d, core, stored, serial, res, c);
    ThreePieces(serial, a, b, c);
    finishes, o := CollectedOutputIsLost(d, pieces, rest, combine, stored, qLora, calls, tasks, taskCalls, workers, serial,
                                         pre, post, layer);
  }

  lemma ThreePieces(serial: seq<Action>, a: Action, b: Action, c: Action)
    requires Ready(map[], serial) && a in serial && b in serial && c in serial && a.Put? && b.Put? && c.Put?
    requires a.name == b.name == c.name && a.piece != b.piece && a.piece != c.piece && b.piece != c.piece && a.of == 3
    ensures |PieceIds(serial, a.name)| == 3
  {
    assert Room(map[], serial, a);
    PieceOf(serial, a);
    PieceOf(serial, b);
    PieceOf(serial, c);
    hide Ready, PieceIds;
    var ids := PieceIds(serial, a.name);
    assert BucketOf(map[], a.name).Keys + ids == ids;
    SubsetBound({a.piece, b.piece, c.piece}, ids);
  }

  // ---------------------------------------------------------------- the smallest case

  /** The router weights of an Inkling layer go down separate tasks unless tasks are grouped. On workers of their own
      they never meet: the serial loop hands on the joined gate, the parallel one nothing. */
  lemma InklingGateLost(combine: (string, Bucket) -> Tensor, gate: string, router: Tensor, shared: Tensor)
    ensures var first, second := Put(gate, 0, 2, router), Put(gate, 1, 2, shared);
            && Outputs(combine, [first, second]) == [Out(gate, combine(gate, map[0 := router, 1 := shared]))]
            && Collected(combine, [[first], [second]]) == multiset{}
  {
    var first, second := Put(gate, 0, 2, router), Put(gate, 1, 2, shared);
    LonePiece(combine, gate, 0, router);
    LonePiece(combine, gate, 1, shared);
    BothPieces(combine, gate, router, shared);
    var each := (w: seq<Action>) => multiset(Outputs(combine, w));
    GatherCongruent([[first], [second]], each, (w: seq<Action>) => multiset(Outputs(combine, w)));
    assert [[first], [second]][1..] == [[second]] && [[second]][1..] == [];
    assert Gather([[second]], each) == each([second]) + Gather<seq<Action>, Out>([], each);
    assert Gather([[first], [second]], each) == each([first]) + Gather([[second]], each);
  }

  lemma LonePiece(combine: (string, Bucket) -> Tensor, name: string, piece: nat, value: Tensor)
    ensures Run(combine, map[], [Put(name, piece, 2, value)]) == (map[name := map[piece := value]], [])
  {
    var bucket: Bucket := map[piece := value];
    assert BucketOf(map[], name)[piece := value] == bucket;
    assert bucket.Keys == {piece} && |bucket| == |bucket.Keys|;
    var calls := [Put(name, piece, 2, value)];
    assert calls[1..] == [] && calls[0] == Put(name, piece, 2, value);
    var first := Step(combine, map[], calls[0]);
    assert first == (map[name := bucket], []);
    var rest := Run(combine, first.0, calls[1..]);
    assert rest == (map[name := bucket], []) && first.1 + rest.1 == [];
    assert Run(combine, map[], calls) == (rest.0, first.1 + rest.1);
  }

  lemma BothPieces(combine: (string, Bucket) -> Tensor, name: string, x: Tensor, y: Tensor)
    ensures Outputs(combine, [Put(name, 0, 2, x), Put(name, 1, 2, y)]) == [Out(name, combine(name, map[0 := x, 1 := y]))]
  {
    var first, second := Put(name, 0, 2, x), Put(name, 1, 2, y);
    var one: Bucket, both: Bucket := map[0 := x], map[0 := x, 1 := y];
    LonePiece(combine, name, 0, x);
    RunAppend(combine, map[], [first], [second]);
    assert [first] + [second] == [first, second] && [second][1..] == [];
    assert BucketOf(map[name := one], name)[1 := y] == both && both.Keys == {0, 1} && |both| == |both.Keys|;
    var after := map[name := one] - {name};
    assert Step(combine, map[name := one], second) == (after, [Out(name, combine(name, both))]);
    assert Run(combine, after, []) == (after, []);
  }
}
