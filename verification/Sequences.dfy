/** Concatenation, and order-free sums of multisets, over sequences. */
module Sequences {

  function Concat<A>(ss: seq<seq<A>>): seq<A> {
    if ss == [] then [] else ss[0] + Concat(ss[1..])
  }

  lemma {:induction false} ConcatAppend<A>(ss: seq<seq<A>>, ts: seq<seq<A>>)
    ensures Concat(ss + ts) == Concat(ss) + Concat(ts)
  {
    if ss == [] {
      assert ss + ts == ts;
    } else {
      assert (ss + ts)[1..] == ss[1..] + ts;
      ConcatAppend(ss[1..], ts);
    }
  }

  lemma ConcatSnoc<A>(ss: seq<seq<A>>, s: seq<A>)
    ensures Concat(ss + [s]) == Concat(ss) + s
  {
    ConcatAppend(ss, [s]);
    assert Concat([s]) == s + Concat([s][1..]);
  }

  lemma {:induction false} InConcat<A>(ss: seq<seq<A>>, x: A)
    ensures x in Concat(ss) <==> exists i :: 0 <= i < |ss| && x in ss[i]
  {
    if ss != [] {
      var rest := ss[1..];
      InConcat(rest, x);
      assert Concat(ss) == ss[0] + Concat(rest);
      if x in Concat(rest) {
        var i :| 0 <= i < |rest| && x in rest[i];
        assert rest[i] == ss[i + 1];
      }
      if i :| 0 <= i < |ss| && x in ss[i] {
        assert i > 0 ==> rest[i - 1] == ss[i];
      }
    }
  }

  function Gather<A, B>(s: seq<A>, f: A -> multiset<B>): multiset<B> {
    if s == [] then multiset{} else f(s[0]) + Gather(s[1..], f)
  }

  lemma {:induction false} GatherAppend<A, B>(s: seq<A>, t: seq<A>, f: A -> multiset<B>)
    ensures Gather(s + t, f) == Gather(s, f) + Gather(t, f)
  {
    if s == [] {
      assert s + t == t;
    } else {
      assert (s + t)[1..] == s[1..] + t;
      GatherAppend(s[1..], t, f);
    }
  }

  lemma GatherSnoc<A, B>(s: seq<A>, x: A, f: A -> multiset<B>)
    ensures Gather(s + [x], f) == Gather(s, f) + f(x)
  {
    GatherAppend(s, [x], f);
    assert [x][1..] == [] && Gather([x], f) == f(x) + Gather([x][1..], f);
  }

  lemma {:induction false} GatherCongruent<A, B>(s: seq<A>, f: A -> multiset<B>, g: A -> multiset<B>)
    requires forall x :: x in s ==> f(x) == g(x)
    ensures Gather(s, f) == Gather(s, g)
  {
    if s != [] {
      GatherCongruent(s[1..], f, g);
    }
  }

  function Without<A>(s: seq<A>, i: nat): (r: seq<A>)
    requires i < |s|
    ensures multiset(s) == multiset(r) + multiset{s[i]}
  {
    assert s == s[..i] + [s[i]] + s[i + 1..];
    s[..i] + s[i + 1..]
  }

  lemma {:induction false} GatherWithout<A, B>(s: seq<A>, i: nat, f: A -> multiset<B>)
    requires i < |s|
    ensures Gather(s, f) == f(s[i]) + Gather(Without(s, i), f)
  {
    var rest := Without(s, i);
    if i == 0 {
      assert rest == s[1..];
    } else {
      GatherWithout(s[1..], i - 1, f);
      assert rest[0] == s[0] && rest[1..] == Without(s[1..], i - 1);
    }
  }

  /** The order of the summands does not matter. */
  lemma {:induction false} GatherPermutation<A, B>(s: seq<A>, t: seq<A>, f: A -> multiset<B>)
    requires multiset(s) == multiset(t)
    ensures Gather(s, f) == Gather(t, f)
  {
    if s == [] {
      assert |t| == |multiset(t)| == 0;
    } else {
      assert s[0] in multiset(t);
      var i :| 0 <= i < |t| && t[i] == s[0];
      assert s == [s[0]] + s[1..];
      assert multiset(s[1..]) + multiset{s[0]} == multiset(Without(t, i)) + multiset{s[0]};
      SumCancels(multiset(s[1..]), multiset(Without(t, i)), multiset{s[0]});
      GatherPermutation(s[1..], Without(t, i), f);
      GatherWithout(t, i, f);
    }
  }

  lemma SumCancels<A>(a: multiset<A>, b: multiset<A>, c: multiset<A>)
    requires a + c == b + c
    ensures a == b
  {
    assert a == (a + c) - c && b == (b + c) - c;
  }

  /** Summing over a concatenation, part by part. */
  lemma {:induction false} GatherConcat<A, B>(ss: seq<seq<A>>, f: A -> multiset<B>)
    ensures Gather(Concat(ss), f) == Gather(ss, (s: seq<A>) => Gather(s, f))
  {
    var each := (s: seq<A>) => Gather(s, f);
    if ss != [] {
      GatherConcat(ss[1..], f);
      GatherCongruent(ss[1..], each, (s: seq<A>) => Gather(s, f));
      GatherAppend(ss[0], Concat(ss[1..]), f);
    }
    GatherCongruent(ss, each, (s: seq<A>) => Gather(s, f));
  }

  lemma {:induction false} ConcatMultiset<A>(ss: seq<seq<A>>)
    ensures multiset(Concat(ss)) == Gather(ss, (s: seq<A>) => multiset(s))
  {
    var each := (s: seq<A>) => multiset(s);
    if ss != [] {
      ConcatMultiset(ss[1..]);
      GatherCongruent(ss[1..], each, (s: seq<A>) => multiset(s));
    }
    GatherCongruent(ss, each, (s: seq<A>) => multiset(s));
  }

  /** Concatenating the parts in another order permutes the result. */
  lemma ConcatPermutation<A>(ss: seq<seq<A>>, ts: seq<seq<A>>)
    requires multiset(ss) == multiset(ts)
    ensures multiset(Concat(ss)) == multiset(Concat(ts))
  {
    ConcatMultiset(ss);
    ConcatMultiset(ts);
    var each := (s: seq<A>) => multiset(s);
    GatherPermutation(ss, ts, each);
    GatherCongruent(ss, each, (s: seq<A>) => multiset(s));
    GatherCongruent(ts, each, (s: seq<A>) => multiset(s));
  }

  function Map<A, B>(s: seq<A>, f: A -> B): (r: seq<B>)
    ensures |r| == |s| && forall i :: 0 <= i < |s| ==> r[i] == f(s[i])
  {
    seq(|s|, i requires 0 <= i < |s| => f(s[i]))
  }

  lemma MapSnoc<A, B>(s: seq<A>, x: A, f: A -> B)
    ensures Map(s + [x], f) == Map(s, f) + [f(x)]
  {}

  lemma InPermutation<A>(s: seq<A>, t: seq<A>, x: A)
    requires multiset(s) == multiset(t)
    ensures x in s <==> x in t
  {
    assert x in s <==> x in multiset(s);
    assert x in t <==> x in multiset(t);
  }

  lemma {:induction false} MapPermutation<A, B>(s: seq<A>, t: seq<A>, f: A -> B)
    requires multiset(s) == multiset(t)
    ensures multiset(Map(s, f)) == multiset(Map(t, f))
  {
    var single := (x: A) => multiset{f(x)};
    MapGathers(s, f);
    MapGathers(t, f);
    GatherCongruent(s, single, (x: A) => multiset{f(x)});
    GatherCongruent(t, single, (x: A) => multiset{f(x)});
    GatherPermutation(s, t, single);
  }

  lemma {:induction false} MapGathers<A, B>(s: seq<A>, f: A -> B)
    ensures multiset(Map(s, f)) == Gather(s, (x: A) => multiset{f(x)})
  {
    var single := (x: A) => multiset{f(x)};
    if s != [] {
      MapGathers(s[1..], f);
      GatherCongruent(s[1..], single, (x: A) => multiset{f(x)});
      assert Map(s, f) == [f(s[0])] + Map(s[1..], f);
    }
    GatherCongruent(s, single, (x: A) => multiset{f(x)});
  }

  lemma {:induction false} SubsetBound<A>(s: set<A>, t: set<A>)
    requires s <= t
    ensures |s| <= |t| && (|s| == |t| ==> s == t)
  {
    if s != {} {
      var x :| x in s;
      SubsetBound(s - {x}, t - {x});
    }
  }

  lemma {:induction false} GatherMap<A, B, C>(s: seq<A>, g: A -> B, f: B -> multiset<C>, h: A -> multiset<C>)
    requires forall x :: x in s ==> h(x) == f(g(x))
    ensures Gather(Map(s, g), f) == Gather(s, h)
  {
    if s != [] {
      assert Map(s, g)[1..] == Map(s[1..], g);
      GatherMap(s[1..], g, f, h);
    }
  }

  /** A sum over a concatenation, with the parts' sums named. */
  lemma GatherParts<A, B>(ss: seq<seq<A>>, f: A -> multiset<B>, each: seq<A> -> multiset<B>)
    requires forall s :: s in ss ==> each(s) == Gather(s, f)
    ensures Gather(Concat(ss), f) == Gather(ss, each)
  {
    GatherConcat(ss, f);
    GatherCongruent(ss, each, (s: seq<A>) => Gather(s, f));
  }

  /** Splitting a sum by a condition. */
  function Filter<A(!new)>(s: seq<A>, p: A -> bool): (r: seq<A>)
    ensures forall x :: x in r <==> x in s && p(x)
  {
    if s == [] then [] else if p(s[0]) then [s[0]] + Filter(s[1..], p) else Filter(s[1..], p)
  }

  lemma {:induction false} FilterSnoc<A(!new)>(s: seq<A>, x: A, p: A -> bool)
    ensures Filter(s + [x], p) == Filter(s, p) + if p(x) then [x] else []
  {
    if s == [] {
      assert [x][1..] == [] && s + [x] == [x];
    } else {
      assert (s + [x])[1..] == s[1..] + [x];
      FilterSnoc(s[1..], x, p);
    }
  }

  lemma {:induction false} GatherFilter<A(!new), B>(s: seq<A>, p: A -> bool, q: A -> bool, f: A -> multiset<B>)
    requires forall x :: x in s ==> q(x) == !p(x)
    ensures Gather(Filter(s, p), f) + Gather(Filter(s, q), f) == Gather(s, f)
  {
    if s != [] {
      GatherFilter(s[1..], p, q, f);
    }
  }

  /** Mapping the parts of a rearranged sequence maps the sequence. */
  lemma MappedParts<A, B>(parts: seq<seq<A>>, items: seq<A>, h: A -> B, each: seq<A> -> multiset<B>)
    requires multiset(Concat(parts)) == multiset(items)
    requires forall m :: m in parts ==> each(m) == multiset(Map(m, h))
    ensures Gather(parts, each) == multiset(Map(items, h))
  {
    var single := (x: A) => multiset{h(x)};
    forall m | m in parts ensures each(m) == Gather(m, single) {
      MapIsGather(m, h, single);
    }
    GatherParts(parts, single, each);
    GatherPermutation(Concat(parts), items, single);
    MapIsGather(items, h, single);
  }

  lemma MapIsGather<A, B>(s: seq<A>, h: A -> B, single: A -> multiset<B>)
    requires forall x :: x in s ==> single(x) == multiset{h(x)}
    ensures multiset(Map(s, h)) == Gather(s, single)
  {
    MapGathers(s, h);
    GatherCongruent(s, single, (x: A) => multiset{h(x)});
  }

  /** What is summed up once comes from exactly one summand. */
  lemma {:induction false} OneHolder<A, B>(s: seq<A>, f: A -> multiset<B>, u: B) returns (i: nat)
    requires Gather(s, f)[u] == 1
    ensures i < |s| && f(s[i])[u] == 1 && forall j :: 0 <= j < |s| && j != i ==> f(s[j])[u] == 0
  {
    if f(s[0])[u] == 1 {
      i := 0;
      NoHolder(s[1..], f, u);
      assert forall j :: 0 < j < |s| ==> s[j] == s[1..][j - 1];
    } else {
      var k := OneHolder(s[1..], f, u);
      i := k + 1;
      assert forall j :: 0 < j < |s| ==> s[j] == s[1..][j - 1];
    }
  }

  lemma {:induction false} NoHolder<A, B>(s: seq<A>, f: A -> multiset<B>, u: B)
    requires Gather(s, f)[u] == 0
    ensures forall j :: 0 <= j < |s| ==> f(s[j])[u] == 0
  {
    if s != [] {
      NoHolder(s[1..], f, u);
      assert forall j :: 0 < j < |s| ==> s[j] == s[1..][j - 1];
    }
  }

  lemma {:induction false} GatherContains<A, B>(s: seq<A>, f: A -> multiset<B>, x: A, b: B)
    requires x in s && b in f(x)
    ensures b in Gather(s, f)
  {
    if x != s[0] {
      GatherContains(s[1..], f, x, b);
    }
  }

  lemma {:induction false} InGather<A, B>(s: seq<A>, f: A -> multiset<B>, b: B) returns (x: A)
    requires b in Gather(s, f)
    ensures x in s && b in f(x)
  {
    if b in f(s[0]) {
      x := s[0];
    } else {
      x := InGather(s[1..], f, b);
    }
  }

  lemma {:induction false} GatherSizes<A, B>(s: seq<A>, f: A -> multiset<B>, g: A -> multiset<B>)
    requires forall x :: x in s ==> |f(x)| == |g(x)|
    ensures |Gather(s, f)| == |Gather(s, g)|
  {
    if s != [] {
      GatherSizes(s[1..], f, g);
    }
  }

  /** A part of the same size is all of it. */
  lemma PartOfSameSize<A>(a: multiset<A>, b: multiset<A>)
    requires a <= b && |a| == |b|
    ensures a == b
  {
    assert b == a + (b - a);
    assert |b - a| == 0;
  }

  lemma DistinctIsOnce<A(!new)>(s: seq<A>)
    ensures (forall i, j :: 0 <= i < j < |s| ==> s[i] != s[j]) <==> forall x :: multiset(s)[x] <= 1
  {
    if forall i, j :: 0 <= i < j < |s| ==> s[i] != s[j] {
      forall x ensures multiset(s)[x] <= 1 {
        OnceIn(s, x);
      }
    }
    if forall x :: multiset(s)[x] <= 1 {
      forall i, j | 0 <= i < j < |s| ensures s[i] != s[j] {
        assert multiset(s) == multiset(Without(s, i)) + multiset{s[i]};
        assert Without(s, i)[j - 1] == s[j];
        assert s[j] in multiset(Without(s, i));
        assert multiset(s)[s[i]] <= 1;
      }
    }
  }

  lemma {:induction false} OnceIn<A>(s: seq<A>, x: A)
    requires forall i, j :: 0 <= i < j < |s| ==> s[i] != s[j]
    ensures multiset(s)[x] <= 1
  {
    if s != [] {
      OnceIn(s[1..], x);
      assert s == [s[0]] + s[1..];
      if s[0] == x {
        assert x !in s[1..];
      }
    }
  }
}
