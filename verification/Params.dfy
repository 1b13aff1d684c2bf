/** Named parameters of a state dict: stacked layers and experts are taken apart. */
module Params {

  import opened Arithmetic
  import opened Tensors
  import opened Wrappers

  /** The layer part of a name: none, an index, or all layers stacked; likewise the expert part. */
  datatype LayerField = NoLayers | Layer(id: nat) | AllLayers

  datatype ExpertField = NoExperts | Expert(id: nat) | AllExperts

  datatype Key = Key(stem: string, layer: LayerField, expert: ExpertField)

  datatype Named = Named(key: Key, value: Tensor)

  datatype Dims = Dims(layers: nat, experts: nat)

  predicate StackOf(t: Tensor, n: nat) {
    t.Stack? && |t.rows| == n
  }

  function ExpertSlice(p: Named, e: nat): Named
    requires p.value.Stack? && e < |p.value.rows|
  {
    Named(p.key.(expert := Expert(e)), p.value.rows[e])
  }

  /** The first `n` experts of a stacked parameter. */
  function ExpertsUpTo(p: Named, n: nat): (r: seq<Named>)
    requires p.value.Stack? && n <= |p.value.rows|
    ensures |r| == n && forall e :: 0 <= e < n ==> r[e] == ExpertSlice(p, e)
  {
    seq(n, e requires 0 <= e < n => ExpertSlice(p, e))
  }

  function LayerSlice(p: Named, l: nat): Named
    requires p.value.Stack? && l < |p.value.rows|
  {
    Named(p.key.(layer := Layer(l)), p.value.rows[l])
  }

  function GetExpertParam(d: Dims, p: Named): Result<seq<Named>> {
    if p.key.expert != AllExperts then Success([p])
    else if !StackOf(p.value, d.experts) then Failure("unexpected number of experts")
    else Success(ExpertsUpTo(p, d.experts))
  }

  /** The layers below `n` of a stacked parameter. */
  function LayersUpTo(d: Dims, p: Named, n: nat): Result<seq<Named>>
    requires p.value.Stack? && n <= |p.value.rows|
  {
    if n == 0 then Success([])
    else
      var before := LayersUpTo(d, p, n - 1);
      var last := GetExpertParam(d, LayerSlice(p, n - 1));
      if before.Failure? then before else if last.Failure? then last else Success(before.value + last.value)
  }

  /** A name without layers is handed on as it is, whatever its expert part. */
  function GetLayerParam(d: Dims, p: Named): Result<seq<Named>> {
    match p.key.layer
    case NoLayers => Success([p])
    case Layer(_) => GetExpertParam(d, p)
    case AllLayers =>
      if !StackOf(p.value, d.layers) then Failure("unexpected number of layers") else LayersUpTo(d, p, d.layers)
  }

  /** What a parameter taken apart stands for: a slice named by its layer and expert. */
  ghost predicate SliceOf(d: Dims, p: Named, q: Named) {
    match p.key.layer
    case NoLayers => q == p
    case Layer(_) => ExpertSliceOf(d, p, q)
    case AllLayers => p.value.Stack? && exists l :: 0 <= l < |p.value.rows| && ExpertSliceOf(d, LayerSlice(p, l), q)
  }

  ghost predicate ExpertSliceOf(d: Dims, p: Named, q: Named) {
    if p.key.expert != AllExperts then q == p
    else p.value.Stack? && exists e :: 0 <= e < |p.value.rows| && q == ExpertSlice(p, e)
  }

  lemma ExpertParams(d: Dims, p: Named)
    requires GetExpertParam(d, p).Success?
    ensures forall q :: q in GetExpertParam(d, p).value <==> ExpertSliceOf(d, p, q)
  {
    if p.key.expert == AllExperts {
      forall q | ExpertSliceOf(d, p, q) ensures q in GetExpertParam(d, p).value {
        var e :| 0 <= e < |p.value.rows| && q == ExpertSlice(p, e);
        assert GetExpertParam(d, p).value[e] == q;
      }
    }
  }

  lemma {:induction false} LayersSlices(d: Dims, p: Named, n: nat)
    requires p.value.Stack? && n <= |p.value.rows| && LayersUpTo(d, p, n).Success?
    ensures forall q :: q in LayersUpTo(d, p, n).value <==> exists l :: 0 <= l < n && ExpertSliceOf(d, LayerSlice(p, l), q)
  {
    if n > 0 {
      LayersSlices(d, p, n - 1);
      ExpertParams(d, LayerSlice(p, n - 1));
    }
  }

  /** Taking a parameter apart yields exactly its slices: every layer and expert, each under its own name. */
  lemma ParamsAreSlices(d: Dims, p: Named)
    requires GetLayerParam(d, p).Success?
    ensures forall q :: q in GetLayerParam(d, p).value <==> SliceOf(d, p, q)
  {
    match p.key.layer
    case NoLayers =>
    case Layer(_) => ExpertParams(d, p);
    case AllLayers => LayersSlices(d, p, d.layers);
  }

  // ---------------------------------------------------------------- part by part

  /** The tensor is a stack of `n` stacks of `m`. */
  predicate NestedStack(t: Tensor, n: nat, m: nat) {
    StackOf(t, n) && forall l :: 0 <= l < n ==> StackOf(t.rows[l], m)
  }

  /** When a key can be taken apart: a stack has as many parts as there are layers, respectively experts. */
  lemma {:induction false} TakenApartIff(d: Dims, p: Named)
    ensures p.key.layer == NoLayers ==> GetLayerParam(d, p).Success?
    ensures p.key.layer.Layer? ==> (GetLayerParam(d, p).Success? <==> p.key.expert != AllExperts || StackOf(p.value, d.experts))
    ensures p.key.layer == AllLayers ==>
              (GetLayerParam(d, p).Success? <==>
               if p.key.expert == AllExperts then NestedStack(p.value, d.layers, d.experts) else StackOf(p.value, d.layers))
  {
    if p.key.layer == AllLayers && StackOf(p.value, d.layers) {
      LayersTakenIff(d, p, d.layers);
    }
  }

  lemma {:induction false} LayersTakenIff(d: Dims, p: Named, n: nat)
    requires p.value.Stack? && n <= |p.value.rows|
    ensures LayersUpTo(d, p, n).Success? <==>
            p.key.expert != AllExperts || forall l :: 0 <= l < n ==> StackOf(p.value.rows[l], d.experts)
  {
    if n > 0 {
      LayersTakenIff(d, p, n - 1);
    }
  }

  /** Layers without stacked experts: item `l` is layer `l`, with the `l`-th part of the tensor. */
  lemma {:induction false} LayersInOrder(d: Dims, p: Named, n: nat)
    requires p.value.Stack? && n <= |p.value.rows| && p.key.expert != AllExperts
    ensures LayersUpTo(d, p, n).Success? && |LayersUpTo(d, p, n).value| == n
    ensures forall l :: 0 <= l < n ==>
              LayersUpTo(d, p, n).value[l] == Named(Key(p.key.stem, Layer(l), p.key.expert), p.value.rows[l])
  {
    if n > 0 {
      LayersInOrder(d, p, n - 1);
    }
  }

  /** Item `l * k + e` is expert `e` of layer `l`, with that part of the tensor. */
  ghost predicate ExpertAt(p: Named, k: nat, r: seq<Named>, l: nat, e: nat) {
    && p.value.Stack? && l < |p.value.rows| && StackOf(p.value.rows[l], k) && e < k && l * k + e < |r|
    && r[l * k + e] == Named(Key(p.key.stem, Layer(l), Expert(e)), p.value.rows[l].rows[e])
  }

  /** Layer after layer, and within each its `k` experts in order. */
  ghost predicate ExpertsOfLayers(p: Named, k: nat, n: nat, r: seq<Named>) {
    |r| == n * k && forall l: nat, e: nat :: l < n && e < k ==> ExpertAt(p, k, r, l, e)
  }

  lemma {:induction false} LayersOfExpertsInOrder(d: Dims, p: Named, n: nat)
    requires p.value.Stack? && n <= |p.value.rows| && p.key.expert == AllExperts && LayersUpTo(d, p, n).Success?
    ensures ExpertsOfLayers(p, d.experts, n, LayersUpTo(d, p, n).value)
  {
    hide ExpertsOfLayers;
    if n == 0 {
      NoLayersYet(p, d.experts);
    } else {
      LayersTakenIff(d, p, n);
      LayersOfExpertsInOrder(d, p, n - 1);
      var k, before := d.experts, LayersUpTo(d, p, n - 1).value;
      var last := ExpertsUpTo(LayerSlice(p, n - 1), k);
      assert LayersUpTo(d, p, n).value == before + last;
      assert forall e :: 0 <= e < k ==> last[e] == Named(Key(p.key.stem, Layer(n - 1), Expert(e)), p.value.rows[n - 1].rows[e]);
      hide *;
      OneMoreLayer(p, k, n, before, last);
    }
  }

  lemma NoLayersYet(p: Named, k: nat)
    ensures ExpertsOfLayers(p, k, 0, [])
  {}

  lemma OneMoreLayer(p: Named, k: nat, n: nat, before: seq<Named>, last: seq<Named>)
    requires 0 < n && p.value.Stack? && n <= |p.value.rows| && StackOf(p.value.rows[n - 1], k)
    requires ExpertsOfLayers(p, k, n - 1, before) && |last| == k
    requires forall e :: 0 <= e < k ==> last[e] == Named(Key(p.key.stem, Layer(n - 1), Expert(e)), p.value.rows[n - 1].rows[e])
    ensures ExpertsOfLayers(p, k, n, before + last)
  {
    BlockSizes(n, k);
    hide ExpertAt, StackOf;
    forall l: nat, e: nat | l < n && e < k ensures ExpertAt(p, k, before + last, l, e) {
      assert l < n - 1 ==> ExpertAt(p, k, before, l, e);
      OneExpert(p, k, n, before, last, l, e);
    }
  }

  lemma OneExpert(p: Named, k: nat, n: nat, before: seq<Named>, last: seq<Named>, l: nat, e: nat)
    requires l < n && e < k && p.value.Stack? && n <= |p.value.rows| && |before| == (n - 1) * k && |last| == k
    requires if l < n - 1 then ExpertAt(p, k, before, l, e)
             else StackOf(p.value.rows[l], k) && last[e] == Named(Key(p.key.stem, Layer(l), Expert(e)), p.value.rows[l].rows[e])
    ensures ExpertAt(p, k, before + last, l, e)
  {
    BlockIndex(before, last, n, k, l, e);
  }

  lemma BlockSizes(n: nat, k: nat)
    requires n > 0
    ensures n * k == (n - 1) * k + k
  {}

  lemma BlockIndex<A>(before: seq<A>, last: seq<A>, n: nat, k: nat, l: nat, e: nat)
    requires l < n && e < k && |before| == (n - 1) * k && |last| == k
    ensures l < n - 1 ==> l * k + e < |before|
    ensures l * k + e < n * k == |before + last|
    ensures (before + last)[l * k + e] == if l < n - 1 then before[l * k + e] else last[e]
  {
    BlockSizes(n, k);
    if l < n - 1 {
      MulMonotone(l + 1, n - 1, k);
    }
  }

  /** What comes of a key, item by item: without layers it is handed on as it is; of a single layer, every expert in
      order; of stacked layers, layer after layer, and within each every expert in order. */
  lemma {:induction false} TakenApartInOrder(d: Dims, p: Named)
    requires GetLayerParam(d, p).Success?
    ensures var r := GetLayerParam(d, p).value;
            && (p.key.layer == NoLayers || (p.key.layer.Layer? && p.key.expert != AllExperts) ==> r == [p])
            && (p.key.layer.Layer? && p.key.expert == AllExperts ==>
                  && |r| == d.experts == |p.value.rows|
                  && forall e :: 0 <= e < |r| ==> r[e] == Named(Key(p.key.stem, p.key.layer, Expert(e)), p.value.rows[e]))
            && (p.key.layer == AllLayers && p.key.expert != AllExperts ==>
                  && |r| == d.layers == |p.value.rows|
                  && forall l :: 0 <= l < |r| ==> r[l] == Named(Key(p.key.stem, Layer(l), p.key.expert), p.value.rows[l]))
            && (p.key.layer == AllLayers && p.key.expert == AllExperts ==>
                  NestedStack(p.value, d.layers, d.experts) && ExpertsOfLayers(p, d.experts, d.layers, r))
  {
    TakenApartIff(d, p);
    if p.key.layer == AllLayers {
      if p.key.expert == AllExperts {
        LayersOfExpertsInOrder(d, p, d.layers);
        assert GetLayerParam(d, p) == LayersUpTo(d, p, d.layers);
      } else {
        LayersInOrder(d, p, d.layers);
        assert GetLayerParam(d, p) == LayersUpTo(d, p, d.layers);
      }
      hide LayersUpTo, GetLayerParam, ExpertsOfLayers;
    }
  }

  predicate DistinctKeys(params: seq<Named>) {
    forall i, j :: 0 <= i < j < |params| ==> params[i].key != params[j].key
  }

  lemma {:induction false} LayersDistinct(d: Dims, p: Named, n: nat)
    requires p.value.Stack? && n <= |p.value.rows| && LayersUpTo(d, p, n).Success?
    ensures DistinctKeys(LayersUpTo(d, p, n).value)
    ensures forall q :: q in LayersUpTo(d, p, n).value ==> q.key.layer.Layer? && q.key.layer.id < n
  {
    if n > 0 {
      LayersDistinct(d, p, n - 1);
      var last := GetExpertParam(d, LayerSlice(p, n - 1)).value;
      assert forall i :: 0 <= i < |last| ==> last[i].key.layer == Layer(n - 1);
    }
  }

  /** No two slices of a parameter get the same name. */
  lemma ParamsDistinct(d: Dims, p: Named)
    requires GetLayerParam(d, p).Success?
    ensures DistinctKeys(GetLayerParam(d, p).value)
  {
    if p.key.layer == AllLayers {
      LayersDistinct(d, p, d.layers);
    }
  }

  /** The parameters of a whole state dict, in its order. */
  function GetNamedParams(d: Dims, params: seq<Named>): Result<seq<Named>> {
    if params == [] then Success([])
    else
      var before := GetNamedParams(d, params[..|params| - 1]);
      var last := GetLayerParam(d, params[|params| - 1]);
      if before.Failure? then before else if last.Failure? then last else Success(before.value + last.value)
  }
}
