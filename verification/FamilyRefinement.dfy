/** The refinement for cores that name experts as one of the families does: exactly when the naming matters. */
module FamilyRefinement {

  import opened Accumulation
  import opened Cores
  import opened Dispatcher
  import opened MoeChunks
  import opened Params
  import opened Planner
  import opened RayRefinement
  import opened Rearrangement
  import opened Sequences
  import opened SerialConversion
  import opened Spread
  import opened TensorNames
  import opened Tensors
  import opened Wrappers

  /** The core treats the experts of every direct source as its family does. */
  ghost predicate FollowsAll(core: Core, family: Family, stored: seq<Stored>) {
    forall s :: s in stored && Direct(s.meta) ==> DirectShape(s) && Follows(core, s, family)
  }

  /** Every direct source that has experts goes by the names of the core. */
  predicate NamedAlike(family: Family, stored: seq<Stored>) {
    forall s :: s in stored && Direct(s.meta) ==> SizeOf(s.meta.dims).experts == 0 || SameNaming(family, s.meta.expert.value)
  }

  // ---------------------------------------------------------------- which checkpoints the serial loop refuses

  /** A source the serial loop raises an error on although the direct route converts it: another number of experts than
      expected, or experts under a prefix the core does not know. */
  predicate RefusedExperts(d: Dims, family: Family, s: Stored) {
    && Direct(s.meta)
    && var n := SizeOf(s.meta.dims).experts;
       n != d.experts || (n > 0 && !Knows(family, s.meta.expert.value))
  }

  /** The serial loop fails exactly if a source that is converted whole raises an error, or a source of the direct route has
      experts it refuses. */
  lemma SerialFailsIff(d: Dims, core: Core, family: Family, stored: seq<Stored>)
    requires FollowsAll(core, family, stored)
    ensures SerialCalls(d, core, stored).Failure? <==>
            (exists s :: s in stored && !Direct(s.meta) && !Convertible(d, core, s))
            || (exists s :: s in stored && RefusedExperts(d, family, s))
  {
    SerialIsPerSource(d, core, stored);
    forall s | s in stored && Direct(s.meta) ensures Convertible(d, core, s) <==> !RefusedExperts(d, family, s) {
      FamilyConvertibleIff(d, core, s, family);
    }
  }

  // ---------------------------------------------------------------- what the serial loop makes of a direct source

  lemma FamilySource(d: Dims, core: Core, family: Family, s: Stored)
    requires DirectShape(s) && Follows(core, s, family) && Convertible(d, core, s)
    ensures SourceCalls(d, core, s) == FamilyCalls(family, s.meta.expert.value, ExpertRows(s.param.value), |ExpertRows(s.param.value)|)
    ensures |ExpertRows(s.param.value)| == SizeOf(s.meta.dims).experts
    ensures |ExpertRows(s.param.value)| > 0 ==> Knows(family, s.meta.expert.value)
  {
    DirectConvertibleIff(d, core, s);
    FamilyConvertibleIff(d, core, s, family);
    FamilyOnExperts(core, s, family, d.experts);
  }

  lemma FamilyStashesNothing(d: Dims, core: Core, family: Family, stored: seq<Stored>)
    requires FollowsAll(core, family, stored) && SerialCalls(d, core, stored).Success?
    ensures DirectEmits(d, core, stored)
  {
    SerialIsPerSource(d, core, stored);
    hide SourceCalls, FamilyCalls, Convertible;
    forall s | s in stored && Direct(s.meta) ensures NoPuts(SourceCalls(d, core, s)) {
      FamilySource(d, core, family, s);
      var w := ExpertRows(s.param.value);
      forall a | a in SourceCalls(d, core, s) ensures a.Emit? {
        FamilyCallsNamed(family, s.meta.expert.value, w, |w|, a);
      }
    }
  }

  /** Under the same names the direct route makes the serial loop's calls. */
  lemma AlikeByName(d: Dims, core: Core, family: Family, stored: seq<Stored>)
    requires FollowsAll(core, family, stored) && SerialCalls(d, core, stored).Success? && NamedAlike(family, stored)
    ensures DirectAlike(d, core, stored)
  {
    SerialIsPerSource(d, core, stored);
    forall s | s in stored && Direct(s.meta) ensures SourceCalls(d, core, s) == DirectCalls(s) {
      FamilyAgreement(core, s, family);
      hide *;
      AgreeingSource(d, core, s);
    }
  }

  // ---------------------------------------------------------------- what is handed on for direct sources

  function SerialDirect(d: Dims, core: Core): Stored -> multiset<Out> {
    (s: Stored) => if Direct(s.meta) then Emitted(SourceCalls(d, core, s)) else multiset{}
  }

  function RayDirect(): Stored -> multiset<Out> {
    (s: Stored) => if Direct(s.meta) then Emitted(DirectCalls(s)) else multiset{}
  }

  /** The two conversions differ in these alone. */
  lemma {:induction false} EmitsDiffer(d: Dims, core: Core, stored: seq<Stored>)
    ensures Emitted(Concat(Map(stored, CallsFor(d, core)))) + Gather(stored, RayDirect())
            == Emitted(RayCalls(d, core, stored)) + Gather(stored, SerialDirect(d, core))
  {
    if stored == [] {
      assert Map(stored, CallsFor(d, core)) == [] && Map(stored, RaySource(d, core)) == [];
    } else {
      var s, rest := stored[0], stored[1..];
      EmitsDiffer(d, core, rest);
      OneSourceDiffers(d, core, s);
      EmitsOfFirst(stored, CallsFor(d, core));
      EmitsOfFirst(stored, RaySource(d, core));
      GatherFirst(stored, RayDirect());
      GatherFirst(stored, SerialDirect(d, core));
      hide *;
      RayCallsAre(d, core, stored);
      RayCallsAre(d, core, rest);
      SumsAgree(Emitted(CallsFor(d, core)(s)), RayDirect()(s), Emitted(RaySource(d, core)(s)), SerialDirect(d, core)(s),
                Emitted(Concat(Map(rest, CallsFor(d, core)))), Gather(rest, RayDirect()),
                Emitted(Concat(Map(rest, RaySource(d, core)))), Gather(rest, SerialDirect(d, core)));
    }
  }

  lemma RayCallsAre(d: Dims, core: Core, stored: seq<Stored>)
    ensures RayCalls(d, core, stored) == Concat(Map(stored, RaySource(d, core)))
  {}

  lemma OneSourceDiffers(d: Dims, core: Core, s: Stored)
    ensures Emitted(CallsFor(d, core)(s)) + RayDirect()(s) == Emitted(RaySource(d, core)(s)) + SerialDirect(d, core)(s)
  {
    hide SourceCalls, DirectCalls, Direct, Emitted;
  }

  lemma EmitsOfFirst(stored: seq<Stored>, f: Stored -> seq<Action>)
    requires stored != []
    ensures Emitted(Concat(Map(stored, f))) == Emitted(f(stored[0])) + Emitted(Concat(Map(stored[1..], f)))
  {
    assert Map(stored, f)[1..] == Map(stored[1..], f);
    GatherAppend(f(stored[0]), Concat(Map(stored[1..], f)), EmitOf);
  }

  lemma GatherFirst<A, B>(s: seq<A>, f: A -> multiset<B>)
    requires s != []
    ensures Gather(s, f) == f(s[0]) + Gather(s[1..], f)
  {}

  lemma SumsAgree<A>(a: multiset<A>, b: multiset<A>, c: multiset<A>, e: multiset<A>,
                     a': multiset<A>, b': multiset<A>, c': multiset<A>, e': multiset<A>)
    requires a + b == c + e && a' + b' == c' + e'
    ensures (a + a') + (b + b') == (c + c') + (e + e')
  {
    assert (a + a') + (b + b') == (a + b) + (a' + b');
    assert (c + c') + (e + e') == (c + e) + (c' + e');
  }

  lemma {:induction false} EmittedCalls(calls: seq<Action>, o: Out)
    ensures o in Emitted(calls) <==> Emit(o.name, o.value) in calls
  {
    if o in Emitted(calls) {
      var a := InGather(calls, EmitOf, o);
    }
    if Emit(o.name, o.value) in calls {
      GatherContains(calls, EmitOf, Emit(o.name, o.value), o);
    }
  }

  lemma {:induction false} EmittedSize(calls: seq<Action>)
    requires NoPuts(calls)
    ensures |Emitted(calls)| == |calls|
  {
    if calls != [] {
      EmittedSize(calls[1..]);
    }
  }

  /** What the serial loop hands on for a direct source goes by the family's names. */
  lemma SerialDirectNamed(d: Dims, core: Core, family: Family, stored: seq<Stored>, o: Out) returns (s: Stored)
    requires FollowsAll(core, family, stored) && SerialCalls(d, core, stored).Success?
    requires o in Gather(stored, SerialDirect(d, core))
    ensures s in stored && Direct(s.meta) && exists e: nat, p :: CoreName(family, s.meta.expert.value, e, p) == Success(o.name)
  {
    s := InGather(stored, SerialDirect(d, core), o);
    SerialIsPerSource(d, core, stored);
    hide FamilyCalls, SourceCalls;
    FamilySource(d, core, family, s);
    EmittedCalls(SourceCalls(d, core, s), o);
    FamilyCallsNamed(family, s.meta.expert.value, ExpertRows(s.param.value), |ExpertRows(s.param.value)|, Emit(o.name, o.value));
  }

  /** What the direct route hands on goes by its own names, and comes from a source with experts. */
  lemma RayDirectNamed(stored: seq<Stored>, o: Out) returns (s: Stored)
    requires o in Gather(stored, RayDirect())
    ensures s in stored && Direct(s.meta) && ExpertRows(s.param.value) != []
    ensures exists e: nat, p :: o.name == DirectName(s.meta.expert.value, e, p)
  {
    s := InGather(stored, RayDirect(), o);
    hide Emitted, Direct, DirectName;
    EmittedCalls(DirectCalls(s), o);
    var key, w := s.meta.expert.value, ExpertRows(s.param.value);
    DirectCallsNamed(key, WholeTensor(key.fc, w, |w|), Emit(o.name, o.value));
  }

  lemma {:induction false} FamilyCallsSome(family: Family, key: ExpertKey, w: seq<seq<Tensor>>, n: nat)
    requires 0 < n <= |w| && Knows(family, key) && forall e :: 0 <= e < |w| ==> key.fc == Fc1 ==> |w[e]| != 1
    ensures FamilyCalls(family, key, w, n) != []
  {
    assert CoreExpertCalls(family, key, n - 1, w[n - 1]).Success? && CoreExpertCalls(family, key, n - 1, w[n - 1]).value != [];
  }

  // ---------------------------------------------------------------- other names are not made up for

  /** Cores with names of their own: nothing that the direct route hands on can stand for what the serial loop does. */
  lemma ForeignNamesMissing(d: Dims, core: Core, family: Family, stored: seq<Stored>, s: Stored)
    requires FollowsAll(core, family, stored) && SerialCalls(d, core, stored).Success?
    requires family == InklingCore || family == Qwen35Core || family == KimiK3Core
    requires s in stored && Direct(s.meta) && SizeOf(s.meta.dims).experts > 0
    ensures !(Gather(stored, SerialDirect(d, core)) <= Gather(stored, RayDirect()))
  {
    SerialIsPerSource(d, core, stored);
    var o := SomeOutput(d, core, family, stored, s);
    var r := SerialDirectNamed(d, core, family, stored, o);
    if o in Gather(stored, RayDirect()) {
      var t := RayDirectNamed(stored, o);
      FamilySource(d, core, family, t);
      hide CoreName, DirectName, Gather, Follows, DirectShape, SerialCalls, Convertible;
      var e: nat, p :| CoreName(family, r.meta.expert.value, e, p) == Success(o.name);
      var e': nat, p' :| o.name == DirectName(t.meta.expert.value, e', p');
      ForeignName(family, r.meta.expert.value, e, p, t.meta.expert.value, e', p');
    }
  }

  lemma SomeOutput(d: Dims, core: Core, family: Family, stored: seq<Stored>, s: Stored) returns (o: Out)
    requires FollowsAll(core, family, stored) && SerialCalls(d, core, stored).Success?
    requires s in stored && Direct(s.meta) && SizeOf(s.meta.dims).experts > 0
    ensures o in Gather(stored, SerialDirect(d, core))
  {
    SerialIsPerSource(d, core, stored);
    FamilySource(d, core, family, s);
    NotSingleRows(s);
    var w := ExpertRows(s.param.value);
    FamilyCallsSome(family, s.meta.expert.value, w, |w|);
    hide FamilyCalls, CoreExpertCalls;
    var a := SourceCalls(d, core, s)[0];
    FamilyCallsNamed(family, s.meta.expert.value, w, |w|, a);
    o := Out(a.name, a.value);
    EmittedCalls(SourceCalls(d, core, s), o);
    GatherContains(stored, SerialDirect(d, core), s, o);
  }

  /** The Kimi VL core hands on as much as the direct route; a key without the prefix makes a difference. */
  lemma KimiVlNamesMissing(d: Dims, core: Core, stored: seq<Stored>, s: Stored)
    requires FollowsAll(core, KimiVlCore, stored) && SerialCalls(d, core, stored).Success?
    requires s in stored && Direct(s.meta) && SizeOf(s.meta.dims).experts > 0 && !s.meta.expert.value.prefixed
    ensures !(Gather(stored, SerialDirect(d, core)) <= Gather(stored, RayDirect()))
  {
    if Gather(stored, SerialDirect(d, core)) <= Gather(stored, RayDirect()) {
      KimiVlSameSize(d, core, stored);
      PartOfSameSize(Gather(stored, SerialDirect(d, core)), Gather(stored, RayDirect()));
      UnprefixedOutput(d, core, stored, s);
    }
  }

  lemma KimiVlSameSize(d: Dims, core: Core, stored: seq<Stored>)
    requires FollowsAll(core, KimiVlCore, stored) && SerialCalls(d, core, stored).Success?
    ensures |Gather(stored, SerialDirect(d, core))| == |Gather(stored, RayDirect())|
  {
    SerialIsPerSource(d, core, stored);
    FamilyStashesNothing(d, core, KimiVlCore, stored);
    hide SerialCalls, Convertible, Direct, Follows, DirectShape, SourceCalls, DirectCalls;
    forall s | s in stored ensures |SerialDirect(d, core)(s)| == |RayDirect()(s)| {
      if Direct(s.meta) {
        assert NoPuts(SourceCalls(d, core, s));
        KimiVlSourceSize(d, core, s);
      }
    }
    GatherSizes(stored, SerialDirect(d, core), RayDirect());
  }

  lemma KimiVlSourceSize(d: Dims, core: Core, s: Stored)
    requires Direct(s.meta) && DirectShape(s) && Follows(core, s, KimiVlCore) && Convertible(d, core, s)
    requires NoPuts(SourceCalls(d, core, s))
    ensures |Emitted(SourceCalls(d, core, s))| == |Emitted(DirectCalls(s))|
  {
    FamilySource(d, core, KimiVlCore, s);
    NotSingleRows(s);
    var key, w := s.meta.expert.value, ExpertRows(s.param.value);
    KimiVlCallCount(key, w, |w|);
    assert |DirectCalls(s)| == |WholeTensor(key.fc, w, |w|)| && NoPuts(DirectCalls(s));
    hide *;
    EmittedSize(SourceCalls(d, core, s));
    EmittedSize(DirectCalls(s));
  }

  lemma UnprefixedOutput(d: Dims, core: Core, stored: seq<Stored>, s: Stored)
    requires FollowsAll(core, KimiVlCore, stored) && SerialCalls(d, core, stored).Success?
    requires s in stored && Direct(s.meta) && SizeOf(s.meta.dims).experts > 0 && !s.meta.expert.value.prefixed
    ensures Gather(stored, SerialDirect(d, core)) != Gather(stored, RayDirect())
  {
    var key, w := s.meta.expert.value, ExpertRows(s.param.value);
    assert |w| > 0 && WholeTensor(key.fc, w, |w|) != [];
    var slice := WholeTensor(key.fc, w, |w|)[0];
    var o := Out(DirectName(key, slice.expert, slice.projection), Stack(slice.rows));
    assert DirectCalls(s)[0] == Emit(o.name, o.value);
    hide SerialCalls, Follows, DirectShape, Emitted, ExpertRows;
    EmittedCalls(DirectCalls(s), o);
    GatherContains(stored, RayDirect(), s, o);
    if o in Gather(stored, SerialDirect(d, core)) {
      var r := SerialDirectNamed(d, core, KimiVlCore, stored, o);
      hide Gather;
      var e: nat, p :| CoreName(KimiVlCore, r.meta.expert.value, e, p) == Success(o.name);
      PrefixedIsNot(key, slice.expert, slice.projection, r.meta.expert.value, e, p);
    }
  }

  lemma PrefixedIsNot(key: ExpertKey, e: nat, p: Projection, other: ExpertKey, e': nat, p': Projection)
    requires !key.prefixed
    ensures CoreName(KimiVlCore, other, e', p') != Success(DirectName(key, e, p))
  {
    PrefixesDiffer(key.layer, e, p, other.layer, e', p');
  }

  /** If what the serial loop hands on for direct sources is all handed on by the direct route, they go by the same names. */
  lemma NamingNeeded(d: Dims, core: Core, family: Family, stored: seq<Stored>)
    requires FollowsAll(core, family, stored) && SerialCalls(d, core, stored).Success?
    requires Gather(stored, SerialDirect(d, core)) <= Gather(stored, RayDirect())
    ensures NamedAlike(family, stored)
  {
    SerialIsPerSource(d, core, stored);
    forall s | s in stored && Direct(s.meta) && SizeOf(s.meta.dims).experts > 0 ensures SameNaming(family, s.meta.expert.value) {
      FamilySource(d, core, family, s);
      hide Gather, SerialCalls, Follows, DirectShape, Convertible, FamilyCalls, SourceCalls;
      if family == KimiVlCore {
        if !s.meta.expert.value.prefixed {
          KimiVlNamesMissing(d, core, stored, s);
        }
      } else if family != PlainCore {
        ForeignNamesMissing(d, core, family, stored, s);
      }
    }
  }

  // ---------------------------------------------------------------- the refinement

  lemma PartsLeft<A>(es: multiset<A>, er: multiset<A>, ds: multiset<A>, dr: multiset<A>, all: multiset<A>, some: multiset<A>)
    requires es + dr == er + ds && some <= all && es + all <= er + some
    ensures ds <= dr
  {
    forall o ensures ds[o] <= dr[o] {
      assert (es + dr)[o] == (er + ds)[o];
      assert some[o] <= all[o];
      assert (es + all)[o] <= (er + some)[o];
    }
  }

  /** The parallel conversion against the serial one, for a core of a family: every plan, number of workers and order of
      completion hands on the serial outputs exactly if no joined output is split and every direct source with experts goes
      by the core's names. Handing on at least the serial outputs already takes both. */
  lemma FamilyRefinesSerial(d: Dims, core: Core, family: Family, combine: (string, Bucket) -> Tensor, stored: seq<Stored>,
                            calls: Unit -> seq<Action>, tasks: seq<TaskSpec>, taskCalls: seq<seq<Action>>,
                            order: seq<seq<nat>>, serial: seq<Action>)
    requires Execution(d, core, stored, calls, tasks, taskCalls) && Handed(order, |tasks|)
    requires SerialCalls(d, core, stored) == Success(serial) && Ready(map[], serial) && FollowsAll(core, family, stored)
    ensures var work := Map(order, WorkerCalls(taskCalls));
            && (Collected(combine, work) == multiset(Outputs(combine, serial)) <==> Unsplit(work, serial) && NamedAlike(family, stored))
            && (multiset(Outputs(combine, serial)) <= Collected(combine, work) ==> Unsplit(work, serial) && NamedAlike(family, stored))
  {
    var work := Map(order, WorkerCalls(taskCalls));
    assert SerialCalls(d, core, stored).Success?;
    SerialIsPerSource(d, core, stored);
    hide *;
    RayRefinesSerial(d, core, combine, stored, calls, tasks, taskCalls, order, serial);
    if NamedAlike(family, stored) {
      AlikeByName(d, core, family, stored);
    }
    if multiset(Outputs(combine, serial)) <= Collected(combine, work) {
      OutputIsOrderFree(combine, map[], serial);
      EmitsDiffer(d, core, stored);
      JoinedParts(Joined(combine, map[], serial), JoinedAnywhere(combine, work));
      PartsLeft(Emitted(serial), Emitted(RayCalls(d, core, stored)), Gather(stored, SerialDirect(d, core)), Gather(stored, RayDirect()),
                multiset(Joined(combine, map[], serial)), multiset(JoinedAnywhere(combine, work)));
      NamingNeeded(d, core, family, stored);
      AlikeByName(d, core, family, stored);
      LessIsEqual(Collected(combine, work), multiset(Outputs(combine, serial)),
                  multiset(Joined(combine, map[], serial) - JoinedAnywhere(combine, work)));
    }
  }

  lemma JoinedParts(all: set<Out>, some: set<Out>)
    requires some <= all
    ensures multiset(some) <= multiset(all)
  {}

  lemma LessIsEqual<A>(a: multiset<A>, b: multiset<A>, c: multiset<A>)
    requires a == b - c && b <= a
    ensures a == b
  {}
}
