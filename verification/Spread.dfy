/** Conversion calls spread over independent processes, compared with one process making them all. */
module Spread {

  import opened Accumulation
  import opened Rearrangement
  import opened Sequences
  import opened Tensors

  /** The processes make exactly the calls of the single one, in any distribution and order. */
  predicate Spreads(work: seq<seq<Action>>, calls: seq<Action>) {
    multiset(Concat(work)) == multiset(calls)
  }

  /** Whatever is stashed in one list of calls is stashed in the other. */
  ghost predicate PutsIn(part: seq<Action>, calls: seq<Action>) {
    forall a: Action :: a.Put? ==> multiset(part)[a] <= multiset(calls)[a]
  }

  /** Everything the processes hand on; each starts with nothing stashed. */
  ghost function Collected(combine: (string, Bucket) -> Tensor, work: seq<seq<Action>>): multiset<Out> {
    Gather(work, (w: seq<Action>) => multiset(Outputs(combine, w)))
  }

  /** Every output that the single process joins has all its pieces in one process. */
  predicate Unsplit(work: seq<seq<Action>>, calls: seq<Action>) {
    forall a :: a in calls && Completes(map[], calls, a) ==>
      exists w :: 0 <= w < |work| && PieceIds(work[w], a.name) == PieceIds(calls, a.name)
  }

  // ---------------------------------------------------------------- parts of well-formed calls

  lemma TwoIndices(s: seq<Action>, x: Action) returns (i: nat, j: nat)
    requires multiset(s)[x] >= 2
    ensures i < j < |s| && s[i] == s[j] == x
  {
    assert x in multiset(s);
    i :| 0 <= i < |s| && s[i] == x;
    var rest := Without(s, i);
    assert x in multiset(rest);
    var k :| 0 <= k < |rest| && rest[k] == x;
    j := if k < i then k else k + 1;
    assert rest == s[..i] + s[i + 1..];
    if j < i {
      i, j := j, i;
    }
  }

  lemma PutsOfPart(part: seq<Action>, calls: seq<Action>)
    requires multiset(part) <= multiset(calls)
    ensures PutsIn(part, calls)
  {}

  lemma InPart(part: seq<Action>, calls: seq<Action>, a: Action)
    requires PutsIn(part, calls) && a in part && a.Put?
    ensures a in calls
  {
    assert a in multiset(part);
  }

  lemma PieceIdsOfPart(part: seq<Action>, calls: seq<Action>, name: string)
    requires PutsIn(part, calls)
    ensures PieceIds(part, name) <= PieceIds(calls, name)
  {
    forall p | p in PieceIds(part, name) ensures p in PieceIds(calls, name) {
      var i :| 0 <= i < |part| && part[i].Put? && part[i].name == name && part[i].piece == p;
      InPart(part, calls, part[i]);
      PieceOf(calls, part[i]);
    }
  }

  lemma RoomInPart(part: seq<Action>, calls: seq<Action>, a: Action)
    requires PutsIn(part, calls) && Room(map[], calls, a)
    ensures Room(map[], part, a)
  {
    if a.Put? {
      PieceIdsOfPart(part, calls, a.name);
      SubsetBound(PieceIds(part, a.name), PieceIds(calls, a.name));
      assert BucketOf(map[], a.name).Keys + PieceIds(part, a.name) == PieceIds(part, a.name);
      assert BucketOf(map[], a.name).Keys + PieceIds(calls, a.name) == PieceIds(calls, a.name);
    }
  }

  lemma PartOf(part: seq<Action>, calls: seq<Action>)
    requires PutsIn(part, calls) && Ready(map[], calls)
    ensures Ready(map[], part)
  {
    assert DistinctPieces(part) by {
      forall i, j | 0 <= i < j < |part| && part[i].Put? && PutsTo(part[j], part[i].name)
        ensures part[i].piece != part[j].piece && part[i].of == part[j].of
      {
        DistinctInPart(part, calls, i, j);
      }
    }
    forall a | a in part ensures Room(map[], part, a) {
      if a.Put? {
        InPart(part, calls, a);
        assert Room(map[], calls, a);
        hide Ready, DistinctPieces, Room;
        RoomInPart(part, calls, a);
      }
    }
    hide DistinctPieces, Room;
    ReadyIsRoom(map[], part);
  }

  lemma DistinctInPart(part: seq<Action>, calls: seq<Action>, i: nat, j: nat)
    requires PutsIn(part, calls) && DistinctPieces(calls)
    requires i < j < |part| && part[i].Put? && PutsTo(part[j], part[i].name)
    ensures part[i].piece != part[j].piece && part[i].of == part[j].of
  {
    var x, y := part[i], part[j];
    if x == y {
      assert multiset(part) == multiset(Without(part, i)) + multiset{x};
      assert Without(part, i)[j - 1] == x;
      var k, l := TwoIndices(calls, x);
    } else {
      assert x in multiset(part) && y in multiset(part);
      var k :| 0 <= k < |calls| && calls[k] == x;
      var l :| 0 <= l < |calls| && calls[l] == y;
      assert if k < l then PutsTo(calls[l], calls[k].name) else PutsTo(calls[k], calls[l].name);
    }
  }

  lemma {:induction false} OneProcess(work: seq<seq<Action>>, w: nat)
    requires w < |work|
    ensures multiset(work[w]) <= multiset(Concat(work))
  {
    if w > 0 {
      OneProcess(work[1..], w - 1);
    }
  }

  lemma ProcessPuts(work: seq<seq<Action>>, calls: seq<Action>, w: nat)
    requires PutsIn(Concat(work), calls) && w < |work|
    ensures PutsIn(work[w], calls)
  {
    OneProcess(work, w);
  }

  lemma {:induction false} TwoProcesses(work: seq<seq<Action>>, v: nat, w: nat)
    requires v < w < |work|
    ensures multiset(work[v] + work[w]) <= multiset(Concat(work))
  {
    if v > 0 {
      TwoProcesses(work[1..], v - 1, w - 1);
    } else {
      OneProcess(work[1..], w - 1);
    }
  }

  // ---------------------------------------------------------------- outputs joined somewhere

  ghost function JoinedAnywhere(combine: (string, Bucket) -> Tensor, work: seq<seq<Action>>): set<Out> {
    if work == [] then {} else Joined(combine, map[], work[0]) + JoinedAnywhere(combine, work[1..])
  }

  lemma {:induction false} InJoinedAnywhere(combine: (string, Bucket) -> Tensor, work: seq<seq<Action>>, o: Out)
    ensures o in JoinedAnywhere(combine, work) <==> exists w :: 0 <= w < |work| && o in Joined(combine, map[], work[w])
  {
    if work != [] {
      InJoinedAnywhere(combine, work[1..], o);
      if o in JoinedAnywhere(combine, work[1..]) {
        var w :| 0 <= w < |work[1..]| && o in Joined(combine, map[], work[1..][w]);
        assert o in Joined(combine, map[], work[w + 1]);
      }
      if w :| 0 <= w < |work| && o in Joined(combine, map[], work[w]) {
        if w > 0 {
          assert work[w] == work[1..][w - 1];
        }
      }
    }
  }

  /** A process that completes an output has all its pieces. */
  lemma CompleteHasAll(part: seq<Action>, calls: seq<Action>, a: Action)
    requires PutsIn(part, calls) && Ready(map[], calls)
    requires a in part && Completes(map[], part, a)
    ensures PieceIds(part, a.name) == PieceIds(calls, a.name) && |PieceIds(part, a.name)| == a.of
  {
    InPart(part, calls, a);
    assert Room(map[], calls, a);
    hide Ready, PieceIds;
    PieceIdsOfPart(part, calls, a.name);
    FoldKeys(map[], part, a.name);
    var full, keys, all := Fold(map[], part, a.name), PieceIds(part, a.name), PieceIds(calls, a.name);
    assert full.Keys == keys && |full.Keys| == |full|;
    assert BucketOf(map[], a.name).Keys + all == all;
    SubsetBound(keys, all);
  }

  /** With all pieces of an output, a process joins it from the same bucket as the single one. */
  lemma SameBucket(part: seq<Action>, calls: seq<Action>, name: string)
    requires PutsIn(part, calls) && Ready(map[], calls)
    requires PieceIds(part, name) == PieceIds(calls, name)
    ensures Fold(map[], part, name) == Fold(map[], calls, name)
  {
    PartOf(part, calls);
    var f, g := Fold(map[], part, name), Fold(map[], calls, name);
    FoldKeys(map[], part, name);
    FoldKeys(map[], calls, name);
    forall p | p in f ensures f[p] == g[p] {
      SameValue(part, calls, name, p);
    }
  }

  lemma SameValue(part: seq<Action>, calls: seq<Action>, name: string, p: nat)
    requires PutsIn(part, calls) && DistinctPieces(part) && DistinctPieces(calls)
    requires p in Fold(map[], part, name) && p in Fold(map[], calls, name)
    ensures Fold(map[], part, name)[p] == Fold(map[], calls, name)[p]
  {
    FoldKeys(map[], part, name);
    FoldValues(map[], part, name);
    FoldValues(map[], calls, name);
    var i :| 0 <= i < |part| && PutsTo(part[i], name) && part[i].piece == p;
    InPart(part, calls, part[i]);
  }

  /** A process joins an output exactly if the single process does and the process has all its pieces. */
  lemma JoinedInPart(combine: (string, Bucket) -> Tensor, part: seq<Action>, calls: seq<Action>, o: Out)
    requires PutsIn(part, calls) && Ready(map[], calls)
    ensures o in Joined(combine, map[], part) <==>
            o in Joined(combine, map[], calls) && PieceIds(part, o.name) == PieceIds(calls, o.name)
  {
    hide Ready, Fold, PieceIds;
    if a :| a in part && Completes(map[], part, a) && JoinOf(combine, map[], part, a.name) == o {
      CompleteHasAll(part, calls, a);
      SameBucket(part, calls, a.name);
      assert a in multiset(part);
      assert a in calls && Completes(map[], calls, a);
    }
    if a :| a in calls && Completes(map[], calls, a) && JoinOf(combine, map[], calls, a.name) == o
            && PieceIds(part, a.name) == PieceIds(calls, a.name) {
      SameBucket(part, calls, a.name);
      PieceOf(calls, a);
      ReadyIsDistinct(map[], calls);
      HolderOf(part, calls, a);
      assert Completes(map[], part, a);
    }
  }

  lemma HolderOf(part: seq<Action>, calls: seq<Action>, a: Action)
    requires PutsIn(part, calls) && DistinctPieces(calls)
    requires a in calls && a.Put? && a.piece in PieceIds(part, a.name)
    ensures a in part
  {
    var i :| 0 <= i < |part| && part[i].Put? && part[i].name == a.name && part[i].piece == a.piece;
    InPart(part, calls, part[i]);
    var k :| 0 <= k < |calls| && calls[k] == a;
    var l :| 0 <= l < |calls| && calls[l] == part[i];
    OnePiece(calls, k, l);
  }

  lemma OnePiece(calls: seq<Action>, k: nat, l: nat)
    requires DistinctPieces(calls) && k < |calls| && l < |calls| && calls[k].Put?
    requires PutsTo(calls[l], calls[k].name) && calls[l].piece == calls[k].piece
    ensures k == l
  {
    assert PutsTo(calls[k], calls[l].name);
  }

  lemma ReadyIsDistinct(acc: Pieces, calls: seq<Action>)
    requires Ready(acc, calls)
    ensures DistinctPieces(calls)
  {}

  /** A call that two processes make would be two calls of the single one. */
  lemma NotInBoth(work: seq<seq<Action>>, calls: seq<Action>, v: nat, w: nat, a: Action)
    requires PutsIn(Concat(work), calls) && DistinctPieces(calls) && v < w < |work| && a.Put?
    ensures !(a in work[v] && a in work[w])
  {
    if a in work[v] && a in work[w] {
      TwoProcesses(work, v, w);
      var both := work[v] + work[w];
      assert multiset(both)[a] >= 2;
      var k, l := TwoIndices(calls, a);
    }
  }

  /** No two processes join the same output. */
  lemma JoinedOnce(combine: (string, Bucket) -> Tensor, work: seq<seq<Action>>, calls: seq<Action>, v: nat, w: nat, o: Out)
    requires PutsIn(Concat(work), calls) && Ready(map[], calls) && v < w < |work|
    requires o in Joined(combine, map[], work[v])
    ensures o !in Joined(combine, map[], work[w])
  {
    ProcessPuts(work, calls, v);
    ProcessPuts(work, calls, w);
    JoinedInPart(combine, work[v], calls, o);
    JoinedInPart(combine, work[w], calls, o);
    ReadyIsDistinct(map[], calls);
    hide Ready, Fold, PieceIds;
    var a :| a in calls && Completes(map[], calls, a) && o == JoinOf(combine, map[], calls, a.name);
    PieceOf(calls, a);
    NotInBoth(work, calls, v, w, a);
    HolderOf(work[v], calls, a);
    if PieceIds(work[w], o.name) == PieceIds(calls, o.name) {
      HolderOf(work[w], calls, a);
    }
  }

  /** What the processes join all together: nothing but what the single one joins, and all of it exactly if nothing is split. */
  lemma JoinedTogether(combine: (string, Bucket) -> Tensor, work: seq<seq<Action>>, calls: seq<Action>)
    requires PutsIn(Concat(work), calls) && Ready(map[], calls)
    ensures JoinedAnywhere(combine, work) <= Joined(combine, map[], calls)
    ensures JoinedAnywhere(combine, work) == Joined(combine, map[], calls) <==> Unsplit(work, calls)
  {
    var together, single := JoinedAnywhere(combine, work), Joined(combine, map[], calls);
    forall o | o in together ensures o in single {
      InJoinedAnywhere(combine, work, o);
      var w :| 0 <= w < |work| && o in Joined(combine, map[], work[w]);
      ProcessPuts(work, calls, w);
      JoinedInPart(combine, work[w], calls, o);
    }
    if together == single {
      forall a | a in calls && Completes(map[], calls, a)
        ensures exists w :: 0 <= w < |work| && PieceIds(work[w], a.name) == PieceIds(calls, a.name)
      {
        var o := JoinOf(combine, map[], calls, a.name);
        assert o in single;
        InJoinedAnywhere(combine, work, o);
        var w :| 0 <= w < |work| && o in Joined(combine, map[], work[w]);
        ProcessPuts(work, calls, w);
        JoinedInPart(combine, work[w], calls, o);
      }
    }
    if Unsplit(work, calls) {
      forall o | o in single ensures o in together {
        var a :| a in calls && Completes(map[], calls, a) && o == JoinOf(combine, map[], calls, a.name);
        var w :| 0 <= w < |work| && PieceIds(work[w], a.name) == PieceIds(calls, a.name);
        ProcessPuts(work, calls, w);
        JoinedInPart(combine, work[w], calls, o);
        InJoinedAnywhere(combine, work, o);
      }
    }
  }

  // ---------------------------------------------------------------- what is collected

  lemma {:induction false} CollectedParts(combine: (string, Bucket) -> Tensor, work: seq<seq<Action>>, calls: seq<Action>)
    requires PutsIn(Concat(work), calls) && Ready(map[], calls)
    requires forall v, w, o :: 0 <= v < w < |work| && o in Joined(combine, map[], work[v]) ==> o !in Joined(combine, map[], work[w])
    ensures Collected(combine, work) == Emitted(Concat(work)) + multiset(JoinedAnywhere(combine, work))
  {
    hide Joined, Ready;
    var each := (w: seq<Action>) => multiset(Outputs(combine, w));
    GatherCongruent(work, each, (w: seq<Action>) => multiset(Outputs(combine, w)));
    if work != [] {
      var first, rest := work[0], work[1..];
      CollectedParts(combine, rest, calls);
      GatherCongruent(rest, each, (w: seq<Action>) => multiset(Outputs(combine, w)));
      OneProcess(work, 0);
      PartOf(first, calls);
      OutputIsOrderFree(combine, map[], first);
      GatherAppend(first, Concat(rest), EmitOf);
      forall o | o in JoinedAnywhere(combine, rest) ensures o !in Joined(combine, map[], first) {
        InJoinedAnywhere(combine, rest, o);
        var w :| 0 <= w < |rest| && o in Joined(combine, map[], rest[w]);
        assert rest[w] == work[w + 1];
      }
      assert multiset(Joined(combine, map[], first) + JoinedAnywhere(combine, rest))
          == multiset(Joined(combine, map[], first)) + multiset(JoinedAnywhere(combine, rest));
    }
  }

  /** When the processes stash nothing that the single one does not, they hand on what is theirs to hand on directly, and
      of the single one's joined outputs those of which one of them holds all pieces. */
  lemma SpreadJoins(combine: (string, Bucket) -> Tensor, work: seq<seq<Action>>, calls: seq<Action>)
    requires PutsIn(Concat(work), calls) && Ready(map[], calls)
    ensures Collected(combine, work) == Emitted(Concat(work)) + multiset(JoinedAnywhere(combine, work))
    ensures JoinedAnywhere(combine, work) <= Joined(combine, map[], calls)
    ensures JoinedAnywhere(combine, work) == Joined(combine, map[], calls) <==> Unsplit(work, calls)
    ensures multiset(Outputs(combine, calls)) == Emitted(calls) + multiset(Joined(combine, map[], calls))
  {
    hide Ready, Joined;
    forall v, w, o | 0 <= v < w < |work| && o in Joined(combine, map[], work[v])
      ensures o !in Joined(combine, map[], work[w])
    {
      JoinedOnce(combine, work, calls, v, w, o);
    }
    CollectedParts(combine, work, calls);
    JoinedTogether(combine, work, calls);
    OutputIsOrderFree(combine, map[], calls);
  }

  /** Spreading the calls over processes never adds an output; what it loses is exactly the joined outputs of which no
      process holds all pieces. */
  lemma SpreadOutputs(combine: (string, Bucket) -> Tensor, work: seq<seq<Action>>, calls: seq<Action>)
    requires Spreads(work, calls) && Ready(map[], calls)
    ensures Collected(combine, work) ==
            multiset(Outputs(combine, calls)) - multiset(Joined(combine, map[], calls) - JoinedAnywhere(combine, work))
    ensures Collected(combine, work) == multiset(Outputs(combine, calls)) <==> Unsplit(work, calls)
  {
    PutsOfPart(Concat(work), calls);
    hide *;
    SpreadJoins(combine, work, calls);
    SpreadEmits(work, calls);
    LostFromSum(Emitted(calls), Joined(combine, map[], calls), JoinedAnywhere(combine, work));
  }

  lemma SpreadEmits(work: seq<seq<Action>>, calls: seq<Action>)
    requires Spreads(work, calls)
    ensures Emitted(Concat(work)) == Emitted(calls)
  {
    GatherPermutation(Concat(work), calls, EmitOf);
  }

  lemma LostFromSum(emitted: multiset<Out>, all: set<Out>, some: set<Out>)
    requires some <= all
    ensures emitted + multiset(some) == (emitted + multiset(all)) - multiset(all - some)
    ensures emitted + multiset(some) == emitted + multiset(all) <==> some == all
  {
    if emitted + multiset(some) == emitted + multiset(all) {
      forall o | o in all ensures o in some {
        assert (emitted + multiset(some))[o] == (emitted + multiset(all))[o];
      }
    }
  }
}
