/** Conversion cores: how they name and cut expert weights, and how the direct route does. */
module Cores {

  import opened Accumulation
  import opened MoeChunks
  import opened Params
  import opened Planner
  import opened Sequences
  import opened TensorNames
  import opened Tensors
  import opened Wrappers

  /** What a core makes of a named parameter, or the error it raises. */
  type Core = Named -> Result<seq<Action>>

  /** The calls a core makes; none where it raises an error. */
  function Made(core: Core): Named -> seq<Action> {
    (p: Named) => match core(p) case Success(calls) => calls case Failure(_) => []
  }

  // ---------------------------------------------------------------- expert names

  /** Naming of expert weights by the conversion cores. */
  datatype Family = PlainCore | KimiVlCore | InklingCore | Qwen35Core | KimiK3Core

  function DirectPrefix(key: ExpertKey): string {
    if key.prefixed then LANGUAGE_PREFIX else ""
  }

  /** The name the direct route gives. */
  function DirectName(key: ExpertKey, expert: nat, p: Projection): string {
    ExpertWeightName(DirectPrefix(key), key.layer, expert, p)
  }

  /** `{start}{layer}.{block}.experts.{expert}.{projection}.weight` */
  function NestedName(start: string, layer: nat, block: string, expert: nat, projection: string): string {
    start + (Dec(layer) + "." + (block + ".experts." + (Dec(expert) + "." + (projection + ".weight"))))
  }

  function KimiK3Projection(p: Projection): string {
    match p case Gate => "w1" case Up => "w3" case Down => "w2"
  }

  function LinearName(fc: Linear): string {
    match fc case Fc1 => "linear_fc1" case Fc2 => "linear_fc2"
  }

  /** The name of one expert's weight in the source, without its module prefixes. */
  function SourceName(key: ExpertKey, expert: nat): string {
    DirectPrefix(key) + ("decoder.layers." + (Dec(key.layer) + ".mlp.experts." + (LinearName(key.fc) + ".weight" + Dec(expert))))
  }

  /** The name a core gives the weight of a projection. Most cores do not know the prefix; the Kimi VL core always adds
      it; the Inkling core hands a prefixed key on under its own name. */
  function CoreName(family: Family, key: ExpertKey, expert: nat, p: Projection): Result<string> {
    if key.prefixed && family != KimiVlCore then
      if family == InklingCore then Success(SourceName(key, expert)) else Failure("Unknown parameter name")
    else
      match family
      case PlainCore => Success(ExpertWeightName("", key.layer, expert, p))
      case KimiVlCore => Success(ExpertWeightName(LANGUAGE_PREFIX, key.layer, expert, p))
      case InklingCore => Success(NestedName("model.llm.layers.", key.layer, "mlp", expert, ProjectionName(p)))
      case Qwen35Core => Success(NestedName("model.language_model.layers.", key.layer, "mlp", expert, ProjectionName(p)))
      case KimiK3Core => Success(NestedName("language_model.model.layers.", key.layer, "block_sparse_moe", expert, KimiK3Projection(p)))
  }

  // ---------------------------------------------------------------- the names in full

  function FileSuffix(p: Projection): string {
    match p case Gate => "gate_proj.weight" case Up => "up_proj.weight" case Down => "down_proj.weight"
  }

  lemma NestedNameIs(start: string, layer: nat, block: string, expert: nat, projection: string, middle: string, suffix: string)
    requires middle == "." + block + ".experts." && suffix == projection + ".weight"
    ensures NestedName(start, layer, block, expert, projection) == start + Dec(layer) + middle + Dec(expert) + "." + suffix
  {
    var l, e := Dec(layer), Dec(expert);
    assert e + ("." + suffix) == e + "." + suffix;
    var rest := e + "." + suffix;
    assert block + ".experts." + rest == block + (".experts." + rest);
    assert l + "." + (block + ".experts." + rest) == l + middle + rest;
  }

  lemma Regroup(start: string, l: string, block: string, e: string, suffix: string, middle: string)
    requires middle == "." + block
    ensures start + (l + "." + (block + (e + "." + suffix))) == start + l + middle + e + "." + suffix
  {
    var rest := e + "." + suffix;
    assert l + "." + (block + rest) == l + middle + rest;
  }

  lemma DirectNameInFull(layer: nat, fc: Linear, expert: nat, p: Projection)
    ensures CoreName(PlainCore, ExpertKey(layer, fc, false), expert, p)
         == Success("model.layers." + Dec(layer) + ".mlp.experts." + Dec(expert) + "." + FileSuffix(p))
  {
    assert "." + "mlp.experts." == ".mlp.experts." && ProjectionName(p) + ".weight" == FileSuffix(p);
    Regroup("model.layers.", Dec(layer), "mlp.experts.", Dec(expert), FileSuffix(p), ".mlp.experts.");
    hide FileSuffix, ProjectionName;
    assert "" + AfterPrefix(layer, expert, p) == AfterPrefix(layer, expert, p);
  }

  lemma KimiVlNameInFull(layer: nat, fc: Linear, expert: nat, p: Projection)
    ensures CoreName(KimiVlCore, ExpertKey(layer, fc, true), expert, p)
         == Success("language_model." + ("model.layers." + Dec(layer) + ".mlp.experts." + Dec(expert) + "." + FileSuffix(p)))
  {
    assert "." + "mlp.experts." == ".mlp.experts." && ProjectionName(p) + ".weight" == FileSuffix(p);
    Regroup("model.layers.", Dec(layer), "mlp.experts.", Dec(expert), FileSuffix(p), ".mlp.experts.");
    hide FileSuffix, ProjectionName;
  }

  lemma InklingNameInFull(layer: nat, fc: Linear, expert: nat, p: Projection)
    ensures CoreName(InklingCore, ExpertKey(layer, fc, false), expert, p)
         == Success("model.llm.layers." + Dec(layer) + ".mlp.experts." + Dec(expert) + "." + FileSuffix(p))
  {
    assert "." + "mlp" + ".experts." == ".mlp.experts." && ProjectionName(p) + ".weight" == FileSuffix(p);
    NestedNameIs("model.llm.layers.", layer, "mlp", expert, ProjectionName(p), ".mlp.experts.", FileSuffix(p));
    hide NestedName, FileSuffix, ProjectionName;
  }

  lemma Qwen35NameInFull(layer: nat, fc: Linear, expert: nat, p: Projection)
    ensures CoreName(Qwen35Core, ExpertKey(layer, fc, false), expert, p)
         == Success("model.language_model.layers." + Dec(layer) + ".mlp.experts." + Dec(expert) + "." + FileSuffix(p))
  {
    assert "." + "mlp" + ".experts." == ".mlp.experts." && ProjectionName(p) + ".weight" == FileSuffix(p);
    NestedNameIs("model.language_model.layers.", layer, "mlp", expert, ProjectionName(p), ".mlp.experts.", FileSuffix(p));
    hide NestedName, FileSuffix, ProjectionName;
  }

  lemma KimiK3NameInFull(layer: nat, fc: Linear, expert: nat, p: Projection, suffix: string)
    requires suffix == match p case Gate => "w1.weight" case Up => "w3.weight" case Down => "w2.weight"
    ensures CoreName(KimiK3Core, ExpertKey(layer, fc, false), expert, p)
         == Success("language_model.model.layers." + Dec(layer) + ".block_sparse_moe.experts." + Dec(expert) + "." + suffix)
  {
    assert "." + "block_sparse_moe" + ".experts." == ".block_sparse_moe.experts." && KimiK3Projection(p) + ".weight" == suffix;
    NestedNameIs("language_model.model.layers.", layer, "block_sparse_moe", expert, KimiK3Projection(p),
                 ".block_sparse_moe.experts.", suffix);
    hide NestedName, KimiK3Projection;
  }

  /** The Inkling core leaves a prefixed key as it is in the source. */
  lemma SourceNameInFull(layer: nat, expert: nat, p: Projection)
    ensures CoreName(InklingCore, ExpertKey(layer, Fc1, true), expert, p)
         == Success("language_model." + ("decoder.layers." + (Dec(layer) + ".mlp.experts." + ("linear_fc1.weight" + Dec(expert)))))
    ensures CoreName(InklingCore, ExpertKey(layer, Fc2, true), expert, p)
         == Success("language_model." + ("decoder.layers." + (Dec(layer) + ".mlp.experts." + ("linear_fc2.weight" + Dec(expert)))))
  {
    assert "linear_fc1" + ".weight" == "linear_fc1.weight" && "linear_fc2" + ".weight" == "linear_fc2.weight";
  }

  /** The cores whose naming the direct route matches. */
  predicate SameNaming(family: Family, key: ExpertKey) {
    (family == PlainCore && !key.prefixed) || (family == KimiVlCore && key.prefixed)
  }

  lemma SourceNamesDiffer(key: ExpertKey, expert: nat, p: Projection)
    requires key.prefixed
    ensures SourceName(key, expert) != DirectName(key, expert, p)
  {
    assert SourceName(key, expert)[15] == 'd';
    assert DirectName(key, expert, p)[15] == 'm';
  }

  lemma NestedNamesDiffer(key: ExpertKey, expert: nat, p: Projection, q: string)
    requires !key.prefixed
    ensures NestedName("model.llm.layers.", key.layer, "mlp", expert, q) != DirectName(key, expert, p)
    ensures NestedName("model.language_model.layers.", key.layer, "mlp", expert, q) != DirectName(key, expert, p)
    ensures NestedName("language_model.model.layers.", key.layer, "block_sparse_moe", expert, q) != DirectName(key, expert, p)
  {
    var direct := DirectName(key, expert, p);
    assert direct[0] == 'm' && direct[7] == 'a' && direct[8] == 'y';
    assert NestedName("model.llm.layers.", key.layer, "mlp", expert, q)[7] == 'l';
    assert NestedName("model.language_model.layers.", key.layer, "mlp", expert, q)[7] == 'a';
    assert NestedName("model.language_model.layers.", key.layer, "mlp", expert, q)[8] == 'n';
    assert NestedName("language_model.model.layers.", key.layer, "block_sparse_moe", expert, q)[0] == 'l';
  }

  /** The direct route and the core agree on a name exactly if the key's prefix is the one the core expects. */
  lemma DirectNameAgrees(family: Family, key: ExpertKey, expert: nat, p: Projection)
    ensures CoreName(family, key, expert, p) == Success(DirectName(key, expert, p)) <==> SameNaming(family, key)
  {
    hide SourceName, NestedName, ExpertWeightName;
    PrefixesDiffer(key.layer, expert, p, key.layer, expert, p);
    if key.prefixed {
      SourceNamesDiffer(key, expert, p);
    } else {
      NestedNamesDiffer(key, expert, p, ProjectionName(p));
      NestedNamesDiffer(key, expert, p, KimiK3Projection(p));
    }
  }

  /** The call that handing on a slice amounts to on the direct route. */
  function SliceCall(key: ExpertKey): Slice -> Action {
    (s: Slice) => Emit(DirectName(key, s.expert, s.projection), Stack(s.rows))
  }

  /** What a core makes of one expert's weight. Cutting a single row in two fails. */
  function CoreExpertCalls(family: Family, key: ExpertKey, e: nat, rows: seq<Tensor>): Result<seq<Action>> {
    if key.prefixed && family == InklingCore then Success([Emit(SourceName(key, e), Stack(rows))])
    else if key.prefixed && family != KimiVlCore then Failure("Unknown parameter name")
    else if key.fc == Fc1 && |rows| == 1 then Failure("not enough values to unpack")
    else Success(Map(WholeExpert(key.fc, rows, e), FamilyCall(family, key)))
  }

  /** The call a core makes for a slice, under its own name. */
  function FamilyCall(family: Family, key: ExpertKey): Slice -> Action
    requires key.prefixed ==> family == KimiVlCore
  {
    (s: Slice) => Emit(CoreName(family, key, s.expert, s.projection).value, Stack(s.rows))
  }

  lemma SliceCallsAgree(family: Family, key: ExpertKey, s: Slice)
    requires key.prefixed ==> family == KimiVlCore
    ensures FamilyCall(family, key)(s) == SliceCall(key)(s) <==> SameNaming(family, key)
  {
    DirectNameAgrees(family, key, s.expert, s.projection);
    assert CoreName(family, key, s.expert, s.projection).Success?;
  }

  /** For one expert, a core of a family does what the direct route does exactly if their naming is the same. */
  lemma ExpertCallsAgree(family: Family, key: ExpertKey, e: nat, rows: seq<Tensor>)
    requires key.fc == Fc1 ==> |rows| % 2 == 0
    ensures CoreExpertCalls(family, key, e, rows) == Success(Map(WholeExpert(key.fc, rows, e), SliceCall(key)))
            <==> SameNaming(family, key)
  {
    hide CoreName, DirectName, SourceName, SliceCall, FamilyCall;
    var slices := WholeExpert(key.fc, rows, e);
    var direct := Map(slices, SliceCall(key));
    assert direct[0] == SliceCall(key)(slices[0]);
    if key.prefixed ==> family == KimiVlCore {
      var own := Map(slices, FamilyCall(family, key));
      forall i | 0 <= i < |slices| ensures own[i] == direct[i] <==> SameNaming(family, key) {
        SliceCallsAgree(family, key, slices[i]);
      }
      assert own[0] == direct[0] <==> SameNaming(family, key);
      assert SameNaming(family, key) ==> own == direct;
      assert CoreExpertCalls(family, key, e, rows) == Success(own);
    } else if family == InklingCore {
      NotUnderSourceName(key, e, rows, slices[0]);
      assert [Emit(SourceName(key, e), Stack(rows))][0] != direct[0];
    }
  }

  lemma NotUnderSourceName(key: ExpertKey, e: nat, rows: seq<Tensor>, s: Slice)
    requires key.prefixed && s.expert == e
    ensures Emit(SourceName(key, e), Stack(rows)) != SliceCall(key)(s)
  {
    SourceNamesDiffer(key, e, s.projection);
  }

  // ---------------------------------------------------------------- names that are not the direct route's

  /** A core that names experts in a way of its own gives none of them a name of the direct route. The Kimi K3 core knows no
      prefix, and neither do the keys it converts. */
  lemma ForeignName(family: Family, key: ExpertKey, e: nat, p: Projection, other: ExpertKey, e': nat, p': Projection)
    requires family == InklingCore || family == Qwen35Core || family == KimiK3Core
    requires CoreName(family, key, e, p).Success? && (family == KimiK3Core ==> !other.prefixed)
    ensures CoreName(family, key, e, p).value != DirectName(other, e', p')
  {
    DirectLetters(other, e', p');
    hide DirectName, ExpertWeightName;
    if key.prefixed {
      SourceLetters(key, e);
    } else {
      NestedLetters(key, e, ProjectionName(p));
      NestedLetters(key, e, KimiK3Projection(p));
    }
    hide SourceName, NestedName;
  }

  lemma DirectLetters(key: ExpertKey, e: nat, p: Projection)
    ensures var n := DirectName(key, e, p);
            |n| > 15 && if key.prefixed then n[0] == 'l' && n[15] == 'm' else n[0] == 'm' && n[7] == 'a' && n[8] == 'y'
  {}

  lemma SourceLetters(key: ExpertKey, e: nat)
    requires key.prefixed
    ensures var n := SourceName(key, e); |n| > 15 && n[0] == 'l' && n[15] == 'd'
  {}

  lemma NestedLetters(key: ExpertKey, e: nat, q: string)
    ensures var n := NestedName("model.llm.layers.", key.layer, "mlp", e, q); |n| > 8 && n[0] == 'm' && n[7] == 'l'
    ensures var n := NestedName("model.language_model.layers.", key.layer, "mlp", e, q); |n| > 8 && n[0] == 'm' && n[8] == 'n'
    ensures var n := NestedName("language_model.model.layers.", key.layer, "block_sparse_moe", e, q); |n| > 8 && n[0] == 'l'
  {}

  // ---------------------------------------------------------------- all experts of a key

  /** What a core of a family makes of the first `n` experts of a key, as far as it raises no error. */
  function FamilyCalls(family: Family, key: ExpertKey, w: seq<seq<Tensor>>, n: nat): seq<Action>
    requires n <= |w|
  {
    if n == 0 then []
    else
      FamilyCalls(family, key, w, n - 1)
      + match CoreExpertCalls(family, key, n - 1, w[n - 1]) case Success(calls) => calls case Failure(_) => []
  }

  /** A call that hands on a weight under the family's name for an expert of the key. */
  ghost predicate NamedByFamily(family: Family, key: ExpertKey, a: Action) {
    a.Emit? && exists e: nat, p :: CoreName(family, key, e, p) == Success(a.name)
  }

  lemma ExpertCallsNamed(family: Family, key: ExpertKey, e: nat, rows: seq<Tensor>, a: Action)
    requires CoreExpertCalls(family, key, e, rows).Success? && a in CoreExpertCalls(family, key, e, rows).value
    ensures NamedByFamily(family, key, a)
  {
    if key.prefixed && family == InklingCore {
      assert CoreName(family, key, e, Gate) == Success(a.name);
    } else {
      FamilySlicesNamed(family, key, WholeExpert(key.fc, rows, e), a);
    }
  }

  lemma FamilySlicesNamed(family: Family, key: ExpertKey, slices: seq<Slice>, a: Action)
    requires key.prefixed ==> family == KimiVlCore
    requires a in Map(slices, FamilyCall(family, key))
    ensures NamedByFamily(family, key, a)
  {
    var k :| 0 <= k < |slices| && a == Map(slices, FamilyCall(family, key))[k];
    KnownIsNamed(family, key, slices[k].expert, slices[k].projection);
    hide CoreName;
    assert CoreName(family, key, slices[k].expert, slices[k].projection) == Success(a.name);
  }

  lemma KnownIsNamed(family: Family, key: ExpertKey, e: nat, p: Projection)
    requires key.prefixed ==> family == KimiVlCore
    ensures CoreName(family, key, e, p).Success?
  {}

  lemma {:induction false} FamilyCallsNamed(family: Family, key: ExpertKey, w: seq<seq<Tensor>>, n: nat, a: Action)
    requires n <= |w| && a in FamilyCalls(family, key, w, n)
    ensures NamedByFamily(family, key, a)
  {
    hide CoreExpertCalls, NamedByFamily;
    if a in FamilyCalls(family, key, w, n - 1) {
      FamilyCallsNamed(family, key, w, n - 1, a);
    } else {
      ExpertCallsNamed(family, key, n - 1, w[n - 1], a);
    }
  }

  /** The Kimi VL core hands on one weight for each slice. */
  lemma {:induction false} KimiVlCallCount(key: ExpertKey, w: seq<seq<Tensor>>, n: nat)
    requires n <= |w| && forall e :: 0 <= e < |w| ==> key.fc == Fc1 ==> |w[e]| != 1
    ensures |FamilyCalls(KimiVlCore, key, w, n)| == |WholeTensor(key.fc, w, n)|
  {
    if n > 0 {
      KimiVlCallCount(key, w, n - 1);
    }
  }

  /** What the direct route hands on is named by its key. */
  lemma {:induction false} DirectCallsNamed(key: ExpertKey, slices: seq<Slice>, a: Action)
    requires a in Map(slices, SliceCall(key))
    ensures a.Emit? && exists e: nat, p :: a.name == DirectName(key, e, p)
  {
    var k :| 0 <= k < |slices| && a == Map(slices, SliceCall(key))[k];
    assert a.name == DirectName(key, slices[k].expert, slices[k].projection);
  }
}
