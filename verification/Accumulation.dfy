/** Name conversion whose cores may collect several source tensors into one output across calls. */
module Accumulation {

  import opened Sequences
  import opened Tensors
  import opened Wrappers

  /** What a core does with one parameter: hand on a tensor, or stash one of the `of` pieces of the output `name`. */
  datatype Action = Emit(name: string, value: Tensor) | Put(name: string, piece: nat, of: nat, value: Tensor)

  type Bucket = map<nat, Tensor>

  /** The pieces still waiting, by the output they belong to. */
  type Pieces = map<string, Bucket>

  function BucketOf(acc: Pieces, name: string): Bucket {
    if name in acc then acc[name] else map[]
  }

  /** One call. The last missing piece produces the output and empties its bucket. */
  function Step(combine: (string, Bucket) -> Tensor, acc: Pieces, a: Action): (Pieces, seq<Out>) {
    match a
    case Emit(name, value) => (acc, [Out(name, value)])
    case Put(name, piece, of, value) =>
      var bucket := BucketOf(acc, name)[piece := value];
      if |bucket| < of then (acc[name := bucket], []) else (acc - {name}, [Out(name, combine(name, bucket))])
  }

  function Run(combine: (string, Bucket) -> Tensor, acc: Pieces, calls: seq<Action>): (Pieces, seq<Out>)
    decreases |calls|
  {
    if calls == [] then (acc, [])
    else
      var first := Step(combine, acc, calls[0]);
      var rest := Run(combine, first.0, calls[1..]);
      (rest.0, first.1 + rest.1)
  }

  /** What a process that starts with nothing stashed hands on. */
  function Outputs(combine: (string, Bucket) -> Tensor, calls: seq<Action>): seq<Out> {
    Run(combine, map[], calls).1
  }

  lemma {:induction false} RunAppend(combine: (string, Bucket) -> Tensor, acc: Pieces, calls: seq<Action>, more: seq<Action>)
    ensures var first := Run(combine, acc, calls); var rest := Run(combine, first.0, more);
            Run(combine, acc, calls + more) == (rest.0, first.1 + rest.1)
    decreases |calls|
  {
    if calls == [] {
      var rest := Run(combine, acc, more);
      assert calls + more == more && [] + rest.1 == rest.1;
    } else {
      assert (calls + more)[1..] == calls[1..] + more;
      RunFirst(combine, acc, calls);
      RunFirst(combine, acc, calls + more);
      hide *;
      var first := Step(combine, acc, calls[0]);
      RunAppend(combine, first.0, calls[1..], more);
      var tail := Run(combine, first.0, calls[1..]);
      var rest := Run(combine, tail.0, more);
      assert first.1 + (tail.1 + rest.1) == (first.1 + tail.1) + rest.1;
    }
  }

  lemma RunFirst(combine: (string, Bucket) -> Tensor, acc: Pieces, calls: seq<Action>)
    requires calls != []
    ensures var first := Step(combine, acc, calls[0]); var rest := Run(combine, first.0, calls[1..]);
            Run(combine, acc, calls) == (rest.0, first.1 + rest.1)
  {}

  /** The accumulator of one process, updated in place. */
  class PieceAccumulator {
    var buckets: Pieces

    constructor ()
      ensures buckets == map[]
    {
      buckets := map[];
    }

    /** Stashes one piece; all pieces, once they have arrived. A bucket that holds more than expected is refused. */
    method Put(name: string, piece: nat, value: Tensor, of: nat) returns (r: Result<Option<Bucket>>)
      modifies this
      ensures var bucket := BucketOf(old(buckets), name)[piece := value];
              && (r.Failure? <==> |bucket| > of)
              && (r == Success(None) <==> |bucket| < of)
              && (|bucket| == of ==> r == Success(Some(bucket)))
              && buckets == if |bucket| == of then old(buckets) - {name} else old(buckets)[name := bucket]
    {
      var bucket := BucketOf(buckets, name)[piece := value];
      buckets := buckets[name := bucket];
      if |bucket| < of {
        return Success(None);
      }
      if |bucket| != of {
        return Failure("more pieces than expected");
      }
      buckets := buckets - {name};
      return Success(Some(bucket));
    }

    /** Converting one parameter's call. */
    method Call(combine: (string, Bucket) -> Tensor, a: Action) returns (r: Result<seq<Out>>)
      modifies this
      ensures r.Failure? <==> a.Put? && |BucketOf(old(buckets), a.name)[a.piece := a.value]| > a.of
      ensures r.Success? ==> (buckets, r.value) == Step(combine, old(buckets), a)
    {
      match a
      case Emit(name, value) => r := Success([Out(name, value)]);
      case Put(name, piece, of, value) =>
        var joined := Put(name, piece, value, of);
        match joined {
          case Failure(message) => r := Failure(message);
          case Success(None) => r := Success([]);
          case Success(Some(bucket)) => r := Success([Out(name, combine(name, bucket))]);
        }
    }

    /** Converting parameters in order, as one process does it: with distinct pieces nothing is ever refused. */
    method Convert(combine: (string, Bucket) -> Tensor, calls: seq<Action>) returns (r: Result<seq<Out>>)
      requires Ready(buckets, calls)
      modifies this
      ensures r.Success? && (buckets, r.value) == Run(combine, old(buckets), calls)
    {
      hide Ready, Step, Run;
      var outs: seq<Out> := [];
      assert calls[0..] == calls && [] + Run(combine, buckets, calls).1 == Run(combine, buckets, calls).1;
      for i := 0 to |calls|
        invariant Run(combine, old(buckets), calls) ==
                  (Run(combine, buckets, calls[i..]).0, outs + Run(combine, buckets, calls[i..]).1)
        invariant Ready(buckets, calls[i..])
      {
        assert calls[i..][0] == calls[i] && calls[i..][1..] == calls[i + 1..];
        ReadyStep(combine, buckets, calls[i..]);
        RunHead(combine, buckets, calls[i..], outs);
        var step := Call(combine, calls[i]);
        if step.Failure? {
          return Failure("more pieces than expected");
        }
        outs := outs + step.value;
      }
      RunNothing(combine, buckets, outs);
      assert calls[|calls|..] == [];
      r := Success(outs);
    }
  }

  lemma RunNothing(combine: (string, Bucket) -> Tensor, acc: Pieces, outs: seq<Out>)
    ensures Run(combine, acc, []) == (acc, []) && outs + [] == outs
  {}

  lemma RunHead(combine: (string, Bucket) -> Tensor, acc: Pieces, calls: seq<Action>, outs: seq<Out>)
    requires calls != []
    ensures var step := Step(combine, acc, calls[0]); var rest := Run(combine, step.0, calls[1..]);
            var all := Run(combine, acc, calls);
            all.0 == rest.0 && outs + all.1 == (outs + step.1) + rest.1
  {
    hide *;
    RunFirst(combine, acc, calls);
    var step := Step(combine, acc, calls[0]);
    var rest := Run(combine, step.0, calls[1..]);
    assert outs + (step.1 + rest.1) == (outs + step.1) + rest.1;
  }

  // ---------------------------------------------------------------- well-formed calls

  function PieceIds(calls: seq<Action>, name: string): set<nat> {
    set i | 0 <= i < |calls| && calls[i].Put? && calls[i].name == name :: calls[i].piece
  }

  predicate PutsTo(a: Action, name: string) {
    a.Put? && a.name == name
  }

  /** No piece is stashed twice, and the callers agree on how many pieces an output has. */
  ghost predicate DistinctPieces(calls: seq<Action>) {
    forall i, j :: 0 <= i < j < |calls| && calls[i].Put? && PutsTo(calls[j], calls[i].name) ==>
      calls[i].piece != calls[j].piece && calls[i].of == calls[j].of
  }

  /** Nothing is stashed twice, and no output gets more pieces than it has. */
  ghost predicate Ready(acc: Pieces, calls: seq<Action>) {
    && DistinctPieces(calls)
    && (forall a :: a in calls && a.Put? ==>
          && a.of >= 1
          && BucketOf(acc, a.name).Keys !! PieceIds(calls, a.name)
          && |BucketOf(acc, a.name).Keys + PieceIds(calls, a.name)| <= a.of)
  }

  lemma PieceIdsTail(calls: seq<Action>, name: string)
    requires calls != []
    ensures PieceIds(calls, name) == PieceIds(calls[1..], name) + if PutsTo(calls[0], name) then {calls[0].piece} else {}
  {
    var tail := calls[1..];
    forall p ensures p in PieceIds(calls, name) <==> p in PieceIds(tail, name) || (PutsTo(calls[0], name) && p == calls[0].piece) {
      if p in PieceIds(calls, name) {
        var i :| 0 <= i < |calls| && PutsTo(calls[i], name) && calls[i].piece == p;
        assert i == 0 || tail[i - 1] == calls[i];
      }
      if p in PieceIds(tail, name) {
        var i :| 0 <= i < |tail| && PutsTo(tail[i], name) && tail[i].piece == p;
        assert calls[i + 1] == tail[i];
      }
    }
  }

  /** Room for every piece of an output that is still to come. */
  ghost predicate Room(acc: Pieces, calls: seq<Action>, a: Action) {
    a.Put? ==>
      && a.of >= 1
      && BucketOf(acc, a.name).Keys !! PieceIds(calls, a.name)
      && |BucketOf(acc, a.name).Keys + PieceIds(calls, a.name)| <= a.of
  }

  lemma ReadyStep(combine: (string, Bucket) -> Tensor, acc: Pieces, calls: seq<Action>)
    requires calls != [] && Ready(acc, calls)
    ensures Ready(Step(combine, acc, calls[0]).0, calls[1..])
    ensures calls[0].Put? ==>
              var bucket := BucketOf(acc, calls[0].name)[calls[0].piece := calls[0].value];
              |bucket| <= calls[0].of && (|bucket| == calls[0].of ==> PieceIds(calls[1..], calls[0].name) == {})
  {
    DistinctTail(calls);
    var c, tail := calls[0], calls[1..];
    if c.Put? {
      PieceIdsTail(calls, c.name);
      BucketFills(BucketOf(acc, c.name), c.piece, c.value, PieceIds(tail, c.name), c.of);
    }
    hide Ready, DistinctPieces, Step;
    forall a | a in tail ensures Room(Step(combine, acc, c).0, tail, a) {
      RoomStep(combine, acc, calls, a);
    }
    ReadyIsRoom(Step(combine, acc, c).0, tail);
  }

  lemma ReadyIsRoom(acc: Pieces, calls: seq<Action>)
    requires DistinctPieces(calls) && forall a :: a in calls ==> Room(acc, calls, a)
    ensures Ready(acc, calls)
  {}

  /** What a call leaves in a bucket. */
  lemma BucketAfter(combine: (string, Bucket) -> Tensor, acc: Pieces, c: Action, name: string)
    ensures BucketOf(Step(combine, acc, c).0, name) ==
            if !PutsTo(c, name) then BucketOf(acc, name)
            else if |BucketOf(acc, name)[c.piece := c.value]| < c.of then BucketOf(acc, name)[c.piece := c.value]
            else map[]
  {}

  lemma SameArity(calls: seq<Action>, a: Action)
    requires calls != [] && DistinctPieces(calls) && a in calls[1..] && a.Put? && PutsTo(calls[0], a.name)
    ensures a.of == calls[0].of && calls[0].piece !in PieceIds(calls[1..], a.name)
  {
    DistinctTail(calls);
    var i :| 0 <= i < |calls[1..]| && calls[1..][i] == a;
    assert calls[i + 1] == a;
  }

  lemma RoomStep(combine: (string, Bucket) -> Tensor, acc: Pieces, calls: seq<Action>, a: Action)
    requires calls != [] && Ready(acc, calls) && a in calls[1..]
    ensures Room(Step(combine, acc, calls[0]).0, calls[1..], a)
  {
    hide PieceIds, Step, BucketOf, DistinctPieces;
    var c, tail, after := calls[0], calls[1..], Step(combine, acc, calls[0]).0;
    assert a in calls;
    if a.Put? {
      BucketAfter(combine, acc, c, a.name);
      PieceIdsTail(calls, a.name);
      if PutsTo(c, a.name) {
        SameArity(calls, a);
        assert Room(acc, calls, c);
        hide *;
        RoomSame(acc, tail, c, a, after);
      } else {
        assert Room(acc, calls, a);
        assert PieceIds(calls, a.name) == PieceIds(tail, a.name);
      }
    }
  }

  lemma RoomSame(acc: Pieces, tail: seq<Action>, c: Action, a: Action, after: Pieces)
    requires a.Put? && c.Put? && a.name == c.name && a.of == c.of >= 1 && c.piece !in PieceIds(tail, c.name)
    requires BucketOf(acc, c.name).Keys !! PieceIds(tail, c.name) + {c.piece}
    requires |BucketOf(acc, c.name).Keys + (PieceIds(tail, c.name) + {c.piece})| <= c.of
    requires var b := BucketOf(acc, c.name)[c.piece := c.value]; BucketOf(after, c.name) == if |b| < c.of then b else map[]
    ensures Room(after, tail, a)
  {
    BucketFills(BucketOf(acc, c.name), c.piece, c.value, PieceIds(tail, c.name), c.of);
    hide PieceIds, BucketOf;
    RoomFromParts(after, tail, a, BucketOf(acc, c.name)[c.piece := c.value]);
  }

  lemma RoomFromParts(acc: Pieces, calls: seq<Action>, a: Action, bucket: Bucket)
    requires a.Put? && a.of >= 1 && bucket.Keys !! PieceIds(calls, a.name)
    requires |bucket.Keys + PieceIds(calls, a.name)| <= a.of
    requires BucketOf(acc, a.name) == bucket || BucketOf(acc, a.name) == map[]
    ensures Room(acc, calls, a)
  {
    var ids := PieceIds(calls, a.name);
    assert BucketOf(acc, a.name) == map[] ==> BucketOf(acc, a.name).Keys + ids == ids;
    SubsetBound(ids, bucket.Keys + ids);
  }

  lemma DistinctTail(calls: seq<Action>)
    requires calls != [] && DistinctPieces(calls)
    ensures DistinctPieces(calls[1..])
    ensures calls[0].Put? ==> calls[0].piece !in PieceIds(calls[1..], calls[0].name)
  {}

  /** A bucket with room for every piece still to come is full only once none is left. */
  lemma BucketFills(bucket: Bucket, piece: nat, value: Tensor, left: set<nat>, of: nat)
    requires bucket.Keys !! left + {piece} && |bucket.Keys + (left + {piece})| <= of && piece !in left
    ensures var b := bucket[piece := value];
            && b.Keys == bucket.Keys + {piece} && b.Keys !! left && b.Keys + left == bucket.Keys + (left + {piece})
            && |b| <= of && (|b| == of ==> left == {})
  {
    var b := bucket[piece := value];
    assert b.Keys == bucket.Keys + {piece} && |b| == |b.Keys|;
    var keys := b.Keys;
    assert keys !! left && keys + left == bucket.Keys + (left + {piece});
    SubsetBound(keys, keys + left);
    if |keys| == of {
      assert keys == keys + left && left == keys * left;
    }
  }

  // ---------------------------------------------------------------- lists of calls, one after the other

  lemma DistinctFront(calls: seq<Action>, more: seq<Action>)
    requires DistinctPieces(calls + more)
    ensures DistinctPieces(calls)
  {
    var all := calls + more;
    forall i, j | 0 <= i < j < |calls| && calls[i].Put? && PutsTo(calls[j], calls[i].name)
      ensures calls[i].piece != calls[j].piece && calls[i].of == calls[j].of
    {
      assert all[i] == calls[i] && all[j] == calls[j];
    }
  }

  lemma PieceIdsFront(calls: seq<Action>, more: seq<Action>, name: string)
    ensures PieceIds(calls, name) <= PieceIds(calls + more, name)
  {
    forall p | p in PieceIds(calls, name) ensures p in PieceIds(calls + more, name) {
      var i :| 0 <= i < |calls| && calls[i].Put? && calls[i].name == name && calls[i].piece == p;
      assert (calls + more)[i] == calls[i];
    }
  }

  /** Calls that are well-formed together are well-formed up to any point... */
  lemma ReadyFront(acc: Pieces, calls: seq<Action>, more: seq<Action>)
    requires Ready(acc, calls + more)
    ensures Ready(acc, calls)
  {
    DistinctFront(calls, more);
    forall a | a in calls ensures Room(acc, calls, a) {
      if a.Put? {
        assert a in calls + more;
        PieceIdsFront(calls, more, a.name);
        SubsetBound(BucketOf(acc, a.name).Keys + PieceIds(calls, a.name), BucketOf(acc, a.name).Keys + PieceIds(calls + more, a.name));
      }
    }
    hide *;
    ReadyIsRoom(acc, calls);
  }

  /** ...and the rest is well-formed for what has been stashed until then. */
  lemma {:induction false} ReadyRest(combine: (string, Bucket) -> Tensor, acc: Pieces, calls: seq<Action>, more: seq<Action>)
    requires Ready(acc, calls + more)
    ensures Ready(Run(combine, acc, calls).0, more)
    decreases |calls|
  {
    hide Ready, Step;
    if calls == [] {
      assert calls + more == more;
    } else {
      assert (calls + more)[1..] == calls[1..] + more;
      ReadyStep(combine, acc, calls + more);
      ReadyRest(combine, Step(combine, acc, calls[0]).0, calls[1..], more);
    }
  }
}
