/** The automatic pipeline-parallel size search of the HF to torch_dist converter. */
module AutoPipeline {

  import opened Arithmetic

  /** The converter's own rounding-up division, written with a negated divisor. */
  function LayersPerStage(a: int, b: int): (c: int)
    requires b > 0
    ensures b * (c - 1) < a <= b * c
  {
    FloorDivBounds(a, -b);
    -FloorDiv(a, -b)
  }

  /** Layers left for the last stage when every earlier stage takes the rounded-up share. */
  function LastStageLayers(layers: int, stages: int): int
    requires stages > 0
  {
    layers - LayersPerStage(layers, stages) * (stages - 1)
  }

  predicate Fits(layers: int, stages: int)
    requires stages > 0
  {
    LastStageLayers(layers, stages) > 0
  }

  /** `stages` is the value the search looks at after `halvings` exact halvings of `start`. */
  ghost predicate Candidate(start: nat, halvings: nat, stages: nat)
  {
    start == stages * Pow2(halvings)
  }

  /** A stage count that fits gives a real pipeline: every stage holds at least one layer, none more than the
      rounded-up share, and the stages add up to the model. */
  lemma FittingSplitIsBalanced(layers: int, stages: int)
    requires layers >= 1 && stages >= 1
    requires Fits(layers, stages)
    ensures 1 <= LastStageLayers(layers, stages) <= LayersPerStage(layers, stages)
    ensures LayersPerStage(layers, stages) * (stages - 1) + LastStageLayers(layers, stages) == layers
    ensures stages <= layers
  {
    var c := LayersPerStage(layers, stages);
    assert c * (stages - 1) == c * stages - c;
    if c <= 0 {
      assert false;
    }
    if stages > layers {
      MulMonotone(1, c, stages - 1);
      assert false;
    }
  }

  /** A single stage always fits. */
  lemma OneStageFits(layers: int)
    requires layers >= 1
    ensures Fits(layers, 1)
  {
    assert LayersPerStage(layers, 1) * 0 == 0;
  }

  lemma CandidateIsUnique(start: nat, halvings: nat, s: nat, t: nat)
    requires Candidate(start, halvings, s) && Candidate(start, halvings, t)
    ensures s == t
  {
    var p := Pow2(halvings);
    if s < t {
      MulMonotone(s + 1, t, p);
    } else if t < s {
      MulMonotone(t + 1, s, p);
    }
  }

  /** Halving further keeps the smaller candidate a divisor of the larger one. */
  lemma CandidateStep(start: nat, halvings: nat, stages: nat)
    requires Candidate(start, halvings, stages) && stages % 2 == 0
    ensures Candidate(start, halvings + 1, stages / 2)
  {
    assert Pow2(halvings + 1) == 2 * Pow2(halvings);
    var half := stages / 2;
    assert stages == 2 * half;
    assert half * (2 * Pow2(halvings)) == (half * 2) * Pow2(halvings);
  }

  /** No candidate lies below an odd one. */
  lemma {:induction false} OddCandidateIsLast(start: nat, halvings: nat, stages: nat, further: nat, other: nat)
    requires Candidate(start, halvings, stages) && stages % 2 == 1
    requires further > halvings
    ensures !Candidate(start, further, other)
    decreases further
  {
    if Candidate(start, further, other) {
      assert Pow2(further) == 2 * Pow2(further - 1);
      assert other * (2 * Pow2(further - 1)) == (other * 2) * Pow2(further - 1);
      assert Candidate(start, further - 1, 2 * other);
      if further - 1 > halvings {
        OddCandidateIsLast(start, halvings, stages, further - 1, 2 * other);
      } else {
        CandidateIsUnique(start, halvings, stages, 2 * other);
      }
    }
  }

  // ---------------------------------------------------------------- when the search can succeed

  /** What is left of a number when it is halved as often as it can be. */
  function OddPart(n: nat): (m: nat)
    ensures n > 0 ==> m > 0 && m % 2 == 1
  {
    if n == 0 || n % 2 == 1 then n else OddPart(n / 2)
  }

  /** Halving a stage count that fits keeps it fitting: the share at most doubles. */
  lemma HalvingKeepsFit(layers: int, stages: int)
    requires layers >= 1 && stages >= 1 && Fits(layers, 2 * stages)
    ensures Fits(layers, stages)
  {
    var c, d := LayersPerStage(layers, 2 * stages), LayersPerStage(layers, stages);
    var fewer := stages - 1;
    ShareAtMostDoubles(layers, stages, c, d);
    MulMonotone(d, 2 * c, fewer);
    assert (2 * c) * fewer == c * (2 * stages - 1) - c;
  }

  lemma ShareAtMostDoubles(layers: int, stages: int, c: int, d: int)
    requires layers >= 1 && stages >= 1
    requires (2 * stages) * (c - 1) < layers <= (2 * stages) * c && stages * (d - 1) < layers <= stages * d
    ensures c >= 1 && d <= 2 * c
  {
    assert (2 * stages) * c == stages * (2 * c);
    if c <= 0 {
      MulMonotone(c, 0, 2 * stages);
    }
    if d - 1 >= 2 * c {
      MulMonotone(2 * c, d - 1, stages);
    }
  }

  /** If any value of the halving order fits, so does the last. */
  lemma {:induction false} FitReachesOddPart(layers: int, stages: nat)
    requires layers >= 1 && stages >= 1 && Fits(layers, stages)
    ensures Fits(layers, OddPart(stages))
  {
    if stages % 2 == 0 {
      HalvingKeepsFit(layers, stages / 2);
      FitReachesOddPart(layers, stages / 2);
    }
  }

  lemma {:induction false} OddPartOfCandidate(start: nat, halvings: nat, stages: nat)
    requires stages > 0 && Candidate(start, halvings, stages)
    ensures start > 0 && OddPart(start) == OddPart(stages)
    decreases halvings
  {
    if halvings == 0 {
      assert start == stages;
    } else {
      var p := Pow2(halvings - 1);
      assert stages * (2 * p) == (2 * stages) * p;
      assert Candidate(start, halvings - 1, 2 * stages);
      OddPartOfCandidate(start, halvings - 1, 2 * stages);
    }
  }

  lemma {:induction false} OddPartIsCandidate(start: nat) returns (h: nat)
    requires start > 0
    ensures Candidate(start, h, OddPart(start))
  {
    if start % 2 == 1 {
      h := 0;
    } else {
      h := OddPartIsCandidate(start / 2);
      CandidateDoubles(start / 2, h, OddPart(start / 2));
      h := h + 1;
    }
  }

  lemma CandidateDoubles(start: nat, halvings: nat, stages: nat)
    requires Candidate(start, halvings, stages)
    ensures Candidate(2 * start, halvings + 1, stages)
  {
    var p := Pow2(halvings);
    assert stages * (2 * p) == 2 * (stages * p);
  }

  /** Some value of the halving order fits exactly if the odd part does: one check, before the search. */
  lemma SearchSucceedsIff(layers: int, start: nat)
    requires layers >= 1 && start >= 1
    ensures (exists h: nat, s: nat :: s > 0 && Candidate(start, h, s) && Fits(layers, s)) <==> Fits(layers, OddPart(start))
  {
    if h: nat, s: nat :| s > 0 && Candidate(start, h, s) && Fits(layers, s) {
      FitReachesOddPart(layers, s);
      OddPartOfCandidate(start, h, s);
    }
    var h := OddPartIsCandidate(start);
  }

  /** The fields of the parsed arguments that the search reads and overwrites. */
  class ConversionArgs {
    const numLayers: int
    const tensorParallel: int
    const contextParallel: int
    const expertParallel: int
    const expertTensorParallel: int   // 0 stands for None, "same as tensor parallel"
    var pipelineParallel: int
    var decoderLastPipelineLayers: int

    constructor (layers: int, tp: int, cp: int, ep: int, etp: int, pp: int, last: int)
      ensures numLayers == layers && tensorParallel == tp && contextParallel == cp
      ensures expertParallel == ep && expertTensorParallel == etp
      ensures pipelineParallel == pp && decoderLastPipelineLayers == last
    {
      numLayers, tensorParallel, contextParallel := layers, tp, cp;
      expertParallel, expertTensorParallel := ep, etp;
      pipelineParallel, decoderLastPipelineLayers := pp, last;
    }

    predicate AutoPipelineParallel(worldSize: int, keepPipelineOne: bool)
      requires expertParallel > 0
      reads this
    {
      && pipelineParallel == 1 && tensorParallel == 1 && contextParallel == 1
      && (if expertTensorParallel != 0 then expertTensorParallel else tensorParallel) == 1
      && worldSize % expertParallel == 0
      && worldSize > expertParallel
      && !keepPipelineOne
    }

    /** The search. It succeeds exactly if the odd part of the ranks left to the pipeline fits. On success the chosen size
        is the first value of the halving order whose last stage is non-empty; on failure no value of the halving order
        qualifies. Without the automatic mode nothing changes. */
    method ChoosePipelineSize(worldSize: int, keepPipelineOne: bool) returns (ok: bool)
      requires expertParallel > 0
      requires pipelineParallel <= numLayers
      modifies this
      ensures old(AutoPipelineParallel(worldSize, keepPipelineOne)) <==>
                && old(pipelineParallel) == 1 && tensorParallel == 1 && contextParallel == 1
                && (expertTensorParallel == 0 || expertTensorParallel == 1) && !keepPipelineOne
                && exists stages: nat :: stages > 1 && worldSize == stages * expertParallel
      ensures !old(AutoPipelineParallel(worldSize, keepPipelineOne)) ==>
                ok && pipelineParallel == old(pipelineParallel)
                && decoderLastPipelineLayers == old(decoderLastPipelineLayers)
      ensures old(AutoPipelineParallel(worldSize, keepPipelineOne)) && ok ==>
                && pipelineParallel > 0
                && decoderLastPipelineLayers == LastStageLayers(numLayers, pipelineParallel)
                && Fits(numLayers, pipelineParallel)
                && exists h: nat :: (
                     && Candidate(worldSize / expertParallel, h, pipelineParallel)
                     && forall earlier: nat, s: nat ::
                          earlier < h && s > 0 && Candidate(worldSize / expertParallel, earlier, s)
                          ==> !Fits(numLayers, s))
      ensures old(AutoPipelineParallel(worldSize, keepPipelineOne)) ==>
                (ok <==> Fits(numLayers, OddPart(worldSize / expertParallel)))
      ensures old(AutoPipelineParallel(worldSize, keepPipelineOne)) && !ok ==>
                forall h: nat, s: nat :: s > 0 && Candidate(worldSize / expertParallel, h, s) ==> !Fits(numLayers, s)
    {
      RanksForStages(worldSize, expertParallel);
      ok := true;
      if AutoPipelineParallel(worldSize, keepPipelineOne) {
        var start := worldSize / expertParallel;
        assert start >= 1;
        var stages := start;
        ghost var h := 0;
        while true
          invariant stages >= 1 && OddPart(stages) == OddPart(start)
          invariant Candidate(start, h, stages)
          invariant forall earlier: nat, s: nat ::
              earlier < h && s > 0 && Candidate(start, earlier, s) ==> !Fits(numLayers, s)
          decreases stages
        {
          pipelineParallel := stages;
          decoderLastPipelineLayers := numLayers - LayersPerStage(numLayers, pipelineParallel) * (pipelineParallel - 1);
          if decoderLastPipelineLayers > 0 {
            FitReachesOddPart(numLayers, stages);
            break;
          }
          forall s: nat | s > 0 && Candidate(start, h, s) ensures !Fits(numLayers, s) {
            CandidateIsUnique(start, h, stages, s);
          }
          if stages % 2 == 0 {
            CandidateStep(start, h, stages);
            stages := stages / 2;
            h := h + 1;
          } else {
            forall h': nat, s: nat | s > 0 && Candidate(start, h', s) ensures !Fits(numLayers, s) {
              if h' > h {
                OddCandidateIsLast(start, h, stages, h', s);
              }
            }
            ok := false;
            return;
          }
        }
      }
    }
  }

  lemma RanksForStages(worldSize: int, perStage: int)
    requires perStage > 0
    ensures worldSize % perStage == 0 && worldSize > perStage <==>
              exists stages: nat :: stages > 1 && worldSize == stages * perStage
  {
    if worldSize % perStage == 0 && worldSize > perStage {
      var stages := worldSize / perStage;
      assert worldSize == stages * perStage;
      if stages <= 1 {
        MulMonotone(stages, 1, perStage);
      }
    }
    if stages: nat :| stages > 1 && worldSize == stages * perStage {
      MulMonotone(2, stages, perStage);
      DivModUnique(worldSize, perStage, stages, 0);
    }
  }

  /** When the ranks left to the pipeline are a power of two the search cannot fail: its last value is one stage. */
  lemma PowerOfTwoNeverFails(layers: int, exponent: nat)
    requires layers >= 1
    ensures OddPart(Pow2(exponent)) == 1 && Fits(layers, OddPart(Pow2(exponent)))
    ensures exists h: nat, s: nat :: s > 0 && Candidate(Pow2(exponent), h, s) && Fits(layers, s)
  {
    OneStageFits(layers);
    assert Candidate(Pow2(exponent), exponent, 1);
    OddPartOfCandidate(Pow2(exponent), exponent, 1);
  }

  /** The search fails for every number of ranks whose odd part exceeds the layers. */
  lemma OddWorldCanFail(layers: int, start: nat)
    requires layers >= 1 && start >= 1 && OddPart(start) > layers
    ensures forall h: nat, s: nat :: s > 0 && Candidate(start, h, s) ==> !Fits(layers, s)
  {
    if Fits(layers, OddPart(start)) {
      FittingSplitIsBalanced(layers, OddPart(start));
    }
    SearchSucceedsIff(layers, start);
  }

  /** It can fail below that as well: three ranks and four layers give shares of two, leaving the last stage empty. */
  lemma ThreeRanksFourLayersFail()
    ensures OddPart(3) == 3 <= 4 && !Fits(4, OddPart(3))
  {}
}
