/** The serial conversion: every parameter of every source key goes through the core in turn. */
module SerialConversion {

  import opened Accumulation
  import opened Cores
  import opened Params
  import opened Planner
  import opened Sequences
  import opened Tensors
  import opened Wrappers

  /** A source key with its structured name and its tensor. */
  datatype Stored = Stored(meta: Source, param: Named)

  function MetaOf(s: Stored): Source { s.meta }

  function ParamOf(s: Stored): Named { s.param }

  /** The core's calls for a list of parameters; the first error ends it. */
  function CoreCalls(core: Core, params: seq<Named>): Result<seq<Action>> {
    if params == [] then Success([])
    else
      var before := CoreCalls(core, params[..|params| - 1]);
      var last := core(params[|params| - 1]);
      if before.Failure? then before else if last.Failure? then last else Success(before.value + last.value)
  }

  /** The serial loop. */
  function SerialCalls(d: Dims, core: Core, stored: seq<Stored>): Result<seq<Action>> {
    match GetNamedParams(d, Map(stored, ParamOf))
    case Success(params) => CoreCalls(core, params)
    case Failure(message) => Failure(message)
  }

  // ---------------------------------------------------------------- source by source

  function CallsOf(core: Core, params: seq<Named>): seq<Action> {
    Concat(Map(params, Made(core)))
  }

  function PartsOf(d: Dims): Stored -> seq<Named> {
    (s: Stored) => match GetLayerParam(d, s.param) case Success(params) => params case Failure(_) => []
  }

  /** The calls one source key causes, as far as no error is raised. */
  function SourceCalls(d: Dims, core: Core, s: Stored): seq<Action> {
    CallsOf(core, PartsOf(d)(s))
  }

  function CallsFor(d: Dims, core: Core): Stored -> seq<Action> {
    (s: Stored) => SourceCalls(d, core, s)
  }

  /** The core raises an error on none of the parameters. */
  predicate Taken(core: Core, params: seq<Named>) {
    forall q :: q in params ==> core(q).Success?
  }

  /** The key can be taken apart, and the core takes every part. */
  predicate Convertible(d: Dims, core: Core, s: Stored) {
    GetLayerParam(d, s.param).Success? && Taken(core, GetLayerParam(d, s.param).value)
  }

  lemma {:induction false} CoreCallsMade(core: Core, params: seq<Named>)
    ensures CoreCalls(core, params).Success? <==> Taken(core, params)
    ensures CoreCalls(core, params).Success? ==> CoreCalls(core, params).value == CallsOf(core, params)
  {
    if params == [] {
      assert Map(params, Made(core)) == [];
    } else {
      var front, last := params[..|params| - 1], params[|params| - 1];
      assert params == front + [last];
      CoreCallsMade(core, front);
      MapSnoc(front, last, Made(core));
      ConcatSnoc(Map(front, Made(core)), Made(core)(last));
    }
  }

  lemma CallsAppend(core: Core, a: seq<Named>, b: seq<Named>)
    ensures CallsOf(core, a + b) == CallsOf(core, a) + CallsOf(core, b)
  {
    assert Map(a + b, Made(core)) == Map(a, Made(core)) + Map(b, Made(core));
    ConcatAppend(Map(a, Made(core)), Map(b, Made(core)));
  }

  lemma {:induction false} PartsInOrder(d: Dims, stored: seq<Stored>)
    ensures var r := GetNamedParams(d, Map(stored, ParamOf));
            && (r.Success? <==> forall i :: 0 <= i < |stored| ==> GetLayerParam(d, stored[i].param).Success?)
            && (r.Success? ==> r.value == Concat(Map(stored, PartsOf(d))))
  {
    if stored == [] {
      assert Map(stored, ParamOf) == [] && Map(stored, PartsOf(d)) == [];
    } else {
      var front, last := stored[..|stored| - 1], stored[|stored| - 1];
      PartsInOrder(d, front);
      assert stored == front + [last];
      var params := Map(stored, ParamOf);
      assert params[..|params| - 1] == Map(front, ParamOf) && params[|params| - 1] == last.param;
      MapSnoc(front, last, PartsOf(d));
      ConcatSnoc(Map(front, PartsOf(d)), PartsOf(d)(last));
    }
  }

  lemma {:induction false} CallsOfParts(d: Dims, core: Core, stored: seq<Stored>)
    ensures CallsOf(core, Concat(Map(stored, PartsOf(d)))) == Concat(Map(stored, CallsFor(d, core)))
    ensures Taken(core, Concat(Map(stored, PartsOf(d)))) <==> forall i :: 0 <= i < |stored| ==> Taken(core, PartsOf(d)(stored[i]))
  {
    if stored == [] {
      assert Map(stored, PartsOf(d)) == [] && Map(stored, CallsFor(d, core)) == [];
      assert Map<Named, seq<Action>>([], Made(core)) == [];
    } else {
      var front, last := stored[..|stored| - 1], stored[|stored| - 1];
      CallsOfParts(d, core, front);
      assert stored == front + [last];
      MapSnoc(front, last, PartsOf(d));
      MapSnoc(front, last, CallsFor(d, core));
      var parts := Concat(Map(front, PartsOf(d)));
      ConcatSnoc(Map(front, PartsOf(d)), PartsOf(d)(last));
      ConcatSnoc(Map(front, CallsFor(d, core)), CallsFor(d, core)(last));
      CallsAppend(core, parts, PartsOf(d)(last));
      TakenAppend(core, parts, PartsOf(d)(last));
    }
  }

  lemma TakenAppend(core: Core, a: seq<Named>, b: seq<Named>)
    ensures Taken(core, a + b) <==> Taken(core, a) && Taken(core, b)
  {
    assert forall q :: q in a + b <==> q in a || q in b;
  }

  /** The serial loop succeeds exactly if every source is convertible, and then makes the calls of each source in turn. */
  lemma SerialIsPerSource(d: Dims, core: Core, stored: seq<Stored>)
    ensures SerialCalls(d, core, stored).Success? <==> forall s :: s in stored ==> Convertible(d, core, s)
    ensures SerialCalls(d, core, stored).Success? ==> SerialCalls(d, core, stored).value == Concat(Map(stored, CallsFor(d, core)))
  {
    PartsInOrder(d, stored);
    CoreCallsMade(core, Concat(Map(stored, PartsOf(d))));
    CallsOfParts(d, core, stored);
    hide Taken, CallsOf, CoreCalls, GetLayerParam;
    if forall s :: s in stored ==> Convertible(d, core, s) {
      forall i | 0 <= i < |stored| ensures GetLayerParam(d, stored[i].param).Success? && Taken(core, PartsOf(d)(stored[i])) {
        assert Convertible(d, core, stored[i]);
      }
    }
    if SerialCalls(d, core, stored).Success? {
      forall s | s in stored ensures Convertible(d, core, s) {
        var i :| 0 <= i < |stored| && stored[i] == s;
        assert GetLayerParam(d, stored[i].param).Success? && Taken(core, PartsOf(d)(stored[i]));
      }
    }
  }
}
