/** What a set of conversion calls hands on, however the calls are ordered and spread over processes. */
module Rearrangement {

  import opened Accumulation
  import opened Sequences
  import opened Tensors

  /** The bucket of an output after all its pieces among `calls` have been added. */
  function Fold(bucket: Bucket, calls: seq<Action>, name: string): Bucket
    decreases |calls|
  {
    if calls == [] then bucket
    else Fold(if PutsTo(calls[0], name) then bucket[calls[0].piece := calls[0].value] else bucket, calls[1..], name)
  }

  function EmitOf(a: Action): multiset<Out> {
    match a case Emit(name, value) => multiset{Out(name, value)} case _ => multiset{}
  }

  /** The tensors handed on directly. */
  function Emitted(calls: seq<Action>): multiset<Out> {
    Gather(calls, EmitOf)
  }

  /** All pieces of `a`'s output arrive. */
  predicate Completes(acc: Pieces, calls: seq<Action>, a: Action) {
    a.Put? && |Fold(BucketOf(acc, a.name), calls, a.name)| == a.of
  }

  function JoinOf(combine: (string, Bucket) -> Tensor, acc: Pieces, calls: seq<Action>, name: string): Out {
    Out(name, combine(name, Fold(BucketOf(acc, name), calls, name)))
  }

  /** The outputs joined from pieces. */
  ghost function Joined(combine: (string, Bucket) -> Tensor, acc: Pieces, calls: seq<Action>): set<Out> {
    set a | a in calls && Completes(acc, calls, a) :: JoinOf(combine, acc, calls, a.name)
  }

  lemma {:induction false} FoldKeys(bucket: Bucket, calls: seq<Action>, name: string)
    ensures Fold(bucket, calls, name).Keys == bucket.Keys + PieceIds(calls, name)
    decreases |calls|
  {
    if calls != [] {
      PieceIdsTail(calls, name);
      FoldKeys(if PutsTo(calls[0], name) then bucket[calls[0].piece := calls[0].value] else bucket, calls[1..], name);
    }
  }

  lemma {:induction false} FoldValues(bucket: Bucket, calls: seq<Action>, name: string)
    requires DistinctPieces(calls) && bucket.Keys !! PieceIds(calls, name)
    ensures forall p :: p in bucket ==> p in Fold(bucket, calls, name) && Fold(bucket, calls, name)[p] == bucket[p]
    ensures forall a :: a in calls && PutsTo(a, name) ==>
              a.piece in Fold(bucket, calls, name) && Fold(bucket, calls, name)[a.piece] == a.value
    decreases |calls|
  {
    if calls != [] {
      var c, tail := calls[0], calls[1..];
      var next := if PutsTo(c, name) then bucket[c.piece := c.value] else bucket;
      PieceIdsTail(calls, name);
      DistinctTail(calls);
      hide DistinctPieces, PieceIds;
      assert next.Keys !! PieceIds(tail, name);
      FoldValues(next, tail, name);
      forall a | a in calls && PutsTo(a, name)
        ensures a.piece in Fold(bucket, calls, name) && Fold(bucket, calls, name)[a.piece] == a.value
      {
        if a != c {
          assert a in tail;
        }
      }
    }
  }

  lemma PieceOf(calls: seq<Action>, a: Action)
    requires a in calls && a.Put?
    ensures a.piece in PieceIds(calls, a.name)
  {
    var i :| 0 <= i < |calls| && calls[i] == a;
  }

  lemma NoPieceLeft(calls: seq<Action>, name: string)
    requires PieceIds(calls, name) == {}
    ensures forall a :: a in calls ==> !PutsTo(a, name)
  {
    forall a | a in calls ensures !PutsTo(a, name) {
      if a.Put? {
        PieceOf(calls, a);
      }
    }
  }

  /** A call that completes nothing leaves every bucket on its way to the same content. */
  lemma FoldStep(combine: (string, Bucket) -> Tensor, acc: Pieces, calls: seq<Action>, name: string)
    requires calls != []
    requires PutsTo(calls[0], name) ==> |BucketOf(acc, name)[calls[0].piece := calls[0].value]| < calls[0].of
    ensures Fold(BucketOf(acc, name), calls, name) ==
            Fold(BucketOf(Step(combine, acc, calls[0]).0, name), calls[1..], name)
  {
    BucketAfter(combine, acc, calls[0], name);
  }

  /** `a`'s output is joined from these calls as well, and from the same bucket. */
  ghost predicate AlsoJoined(combine: (string, Bucket) -> Tensor, acc: Pieces, calls: seq<Action>, o: Out) {
    exists b :: b in calls && Completes(acc, calls, b) && JoinOf(combine, acc, calls, b.name) == o
  }

  lemma InJoined(combine: (string, Bucket) -> Tensor, acc: Pieces, calls: seq<Action>, o: Out)
    ensures o in Joined(combine, acc, calls) <==> AlsoJoined(combine, acc, calls, o)
  {}

  /** A later call's output is complete before the step exactly if it is afterwards. */
  lemma CompletesStep(combine: (string, Bucket) -> Tensor, acc: Pieces, calls: seq<Action>, a: Action)
    requires calls != [] && a.Put?
    requires PutsTo(calls[0], a.name) ==> |BucketOf(acc, a.name)[calls[0].piece := calls[0].value]| < calls[0].of
    ensures var after := Step(combine, acc, calls[0]).0;
            && (Completes(acc, calls, a) <==> Completes(after, calls[1..], a))
            && JoinOf(combine, acc, calls, a.name) == JoinOf(combine, after, calls[1..], a.name)
  {
    FoldStep(combine, acc, calls, a.name);
  }

  lemma JoinedThen(combine: (string, Bucket) -> Tensor, acc: Pieces, calls: seq<Action>, a: Action)
    requires calls != [] && Ready(acc, calls) && a in calls && Completes(acc, calls, a)
    requires var c := calls[0]; c.Put? ==> |BucketOf(acc, c.name)[c.piece := c.value]| < c.of
    ensures AlsoJoined(combine, Step(combine, acc, calls[0]).0, calls[1..], JoinOf(combine, acc, calls, a.name))
  {
    hide Ready;
    CompletingIsPut(acc, calls, a);
    if a in calls[1..] {
      CompletesStep(combine, acc, calls, a);
    } else {
      var b := OtherPiece(combine, acc, calls);
      FoldStep(combine, acc, calls, a.name);
    }
  }

  lemma JoinedBefore(combine: (string, Bucket) -> Tensor, acc: Pieces, calls: seq<Action>, o: Out)
    requires calls != []
    requires var c := calls[0]; c.Put? ==> |BucketOf(acc, c.name)[c.piece := c.value]| < c.of
    requires AlsoJoined(combine, Step(combine, acc, calls[0]).0, calls[1..], o)
    ensures AlsoJoined(combine, acc, calls, o)
  {
    var tail, after := calls[1..], Step(combine, acc, calls[0]).0;
    var a :| a in tail && Completes(after, tail, a) && JoinOf(combine, after, tail, a.name) == o;
    CompletingIsPut(after, tail, a);
    CompletesStep(combine, acc, calls, a);
    assert a in calls;
  }

  lemma JoinedIncomplete(combine: (string, Bucket) -> Tensor, acc: Pieces, calls: seq<Action>)
    requires calls != [] && Ready(acc, calls)
    requires var c := calls[0]; c.Put? ==> |BucketOf(acc, c.name)[c.piece := c.value]| < c.of
    ensures Joined(combine, acc, calls) == Joined(combine, Step(combine, acc, calls[0]).0, calls[1..])
  {
    hide Joined, Fold, BucketOf, Step, Completes, JoinOf, Ready;
    var c, tail, after := calls[0], calls[1..], Step(combine, acc, calls[0]).0;
    forall o ensures o in Joined(combine, acc, calls) <==> o in Joined(combine, after, tail) {
      InJoined(combine, acc, calls, o);
      InJoined(combine, after, tail, o);
      if a :| a in calls && Completes(acc, calls, a) && o == JoinOf(combine, acc, calls, a.name) {
        JoinedThen(combine, acc, calls, a);
      }
      if AlsoJoined(combine, after, tail, o) {
        JoinedBefore(combine, acc, calls, o);
      }
    }
  }

  lemma CompletingIsPut(acc: Pieces, calls: seq<Action>, a: Action)
    requires Completes(acc, calls, a)
    ensures a.Put?
  {}

  /** When the first call does not complete its output, but all calls do, another piece comes later. */
  lemma OtherPiece(combine: (string, Bucket) -> Tensor, acc: Pieces, calls: seq<Action>) returns (a: Action)
    requires calls != [] && Ready(acc, calls) && Completes(acc, calls, calls[0])
    requires var c := calls[0]; |BucketOf(acc, c.name)[c.piece := c.value]| < c.of
    ensures a in calls[1..] && PutsTo(a, calls[0].name) && a.of == calls[0].of
    ensures Completes(Step(combine, acc, calls[0]).0, calls[1..], a)
  {
    var c, tail := calls[0], calls[1..];
    var next := BucketOf(acc, c.name)[c.piece := c.value];
    FoldKeys(next, tail, c.name);
    FoldStep(combine, acc, calls, c.name);
    var full := Fold(next, tail, c.name);
    assert |full.Keys| == |full| == c.of && |next.Keys| == |next|;
    assert PieceIds(tail, c.name) == {} ==> full.Keys == next.Keys;
    var p :| p in PieceIds(tail, c.name);
    var i :| 0 <= i < |tail| && PutsTo(tail[i], c.name) && tail[i].piece == p;
    a := tail[i];
    SameArity(calls, a);
  }

  /** The first call completes its output: what it hands on, and that its output is done with. */
  lemma FirstCompletes(combine: (string, Bucket) -> Tensor, acc: Pieces, calls: seq<Action>)
    requires calls != [] && Ready(acc, calls) && calls[0].Put?
    requires var c := calls[0]; |BucketOf(acc, c.name)[c.piece := c.value]| == c.of
    ensures Completes(acc, calls, calls[0])
    ensures Step(combine, acc, calls[0]).1 == [JoinOf(combine, acc, calls, calls[0].name)]
    ensures forall a :: a in calls[1..] ==> !PutsTo(a, calls[0].name)
  {
    var c, tail := calls[0], calls[1..];
    ReadyStep(combine, acc, calls);
    NoPieceLeft(tail, c.name);
    FoldUntouched(BucketOf(acc, c.name)[c.piece := c.value], tail, c.name);
  }

  lemma JoinedNowOrLater(combine: (string, Bucket) -> Tensor, acc: Pieces, calls: seq<Action>, a: Action)
    requires calls != [] && calls[0].Put? && a in calls && Completes(acc, calls, a) && a.name != calls[0].name
    ensures AlsoJoined(combine, Step(combine, acc, calls[0]).0, calls[1..], JoinOf(combine, acc, calls, a.name))
  {
    CompletingIsPut(acc, calls, a);
    CompletesStep(combine, acc, calls, a);
    assert a in calls[1..];
  }

  lemma JoinedLater(combine: (string, Bucket) -> Tensor, acc: Pieces, calls: seq<Action>, o: Out)
    requires calls != [] && calls[0].Put? && forall a :: a in calls[1..] ==> !PutsTo(a, calls[0].name)
    requires AlsoJoined(combine, Step(combine, acc, calls[0]).0, calls[1..], o)
    ensures AlsoJoined(combine, acc, calls, o) && o.name != calls[0].name
  {
    var tail, after := calls[1..], Step(combine, acc, calls[0]).0;
    var a :| a in tail && Completes(after, tail, a) && JoinOf(combine, after, tail, a.name) == o;
    CompletingIsPut(after, tail, a);
    CompletesStep(combine, acc, calls, a);
    assert a in calls;
  }

  lemma JoinedComplete(combine: (string, Bucket) -> Tensor, acc: Pieces, calls: seq<Action>)
    requires calls != [] && calls[0].Put? && Completes(acc, calls, calls[0])
    requires forall a :: a in calls[1..] ==> !PutsTo(a, calls[0].name)
    ensures var o := JoinOf(combine, acc, calls, calls[0].name); var rest := Joined(combine, Step(combine, acc, calls[0]).0, calls[1..]);
            o !in rest && Joined(combine, acc, calls) == {o} + rest
  {
    hide Step, Fold, BucketOf, Completes, Joined;
    var c, tail, after := calls[0], calls[1..], Step(combine, acc, calls[0]).0;
    var first := JoinOf(combine, acc, calls, c.name);
    assert first.name == c.name;
    hide JoinOf;
    forall o ensures o in Joined(combine, acc, calls) <==> o == first || o in Joined(combine, after, tail)
             ensures o in Joined(combine, after, tail) ==> o.name != c.name {
      InJoined(combine, acc, calls, o);
      InJoined(combine, after, tail, o);
      if a :| a in calls && Completes(acc, calls, a) && JoinOf(combine, acc, calls, a.name) == o {
        if a.name != c.name {
          JoinedNowOrLater(combine, acc, calls, a);
        }
      }
      if AlsoJoined(combine, after, tail, o) {
        JoinedLater(combine, acc, calls, o);
      }
    }
  }

  lemma {:induction false} FoldUntouched(bucket: Bucket, calls: seq<Action>, name: string)
    requires forall a :: a in calls ==> !PutsTo(a, name)
    ensures Fold(bucket, calls, name) == bucket
    decreases |calls|
  {
    if calls != [] {
      FoldUntouched(bucket, calls[1..], name);
    }
  }

  lemma OneMore(o: Out, rest: set<Out>)
    requires o !in rest
    ensures multiset({o} + rest) == multiset{o} + multiset(rest)
  {}

  /** The output of a process is what it emits directly and the outputs whose pieces it collects; in which order the
      calls come does not show. */
  lemma {:induction false} OutputIsOrderFree(combine: (string, Bucket) -> Tensor, acc: Pieces, calls: seq<Action>)
    requires Ready(acc, calls)
    ensures multiset(Run(combine, acc, calls).1) == Emitted(calls) + multiset(Joined(combine, acc, calls))
    decreases |calls|
  {
    if calls == [] {
      assert Joined(combine, acc, calls) == {};
    } else {
      var step := Step(combine, acc, calls[0]);
      ReadyStep(combine, acc, calls);
      OutputIsOrderFree(combine, step.0, calls[1..]);
      FirstOutput(combine, acc, calls);
      assert multiset(Run(combine, acc, calls).1) == multiset(step.1) + multiset(Run(combine, step.0, calls[1..]).1);
    }
  }

  lemma FirstOutput(combine: (string, Bucket) -> Tensor, acc: Pieces, calls: seq<Action>)
    requires calls != [] && Ready(acc, calls)
    ensures var step := Step(combine, acc, calls[0]);
            Emitted(calls) + multiset(Joined(combine, acc, calls)) ==
            multiset(step.1) + (Emitted(calls[1..]) + multiset(Joined(combine, step.0, calls[1..])))
  {
    hide Ready, Joined;
    var c, step := calls[0], Step(combine, acc, calls[0]);
    if c.Put? && |BucketOf(acc, c.name)[c.piece := c.value]| >= c.of {
      ReadyStep(combine, acc, calls);
      FirstCompletes(combine, acc, calls);
      JoinedComplete(combine, acc, calls);
      OneMore(step.1[0], Joined(combine, step.0, calls[1..]));
    } else {
      JoinedIncomplete(combine, acc, calls);
    }
  }
}
