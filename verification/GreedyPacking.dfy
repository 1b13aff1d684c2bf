/** Greedy packing in order: the rule shared by the two task groupers and the shard writer. */
module GreedyPacking {

  import opened Sequences

  function Total<T>(items: seq<T>, size: T -> nat): nat {
    if items == [] then 0 else size(items[0]) + Total(items[1..], size)
  }

  lemma {:induction false} TotalAppend<T>(a: seq<T>, b: seq<T>, size: T -> nat)
    ensures Total(a + b, size) == Total(a, size) + Total(b, size)
  {
    if a == [] {
      assert a + b == b;
    } else {
      assert (a + b)[1..] == a[1..] + b;
      TotalAppend(a[1..], b, size);
    }
  }

  lemma TotalSnoc<T>(a: seq<T>, x: T, size: T -> nat)
    ensures Total(a + [x], size) == Total(a, size) + size(x)
  {
    TotalAppend(a, [x], size);
    assert [x][1..] == [];
  }

  /** The bins hold the items in order, none is empty, only a lone item exceeds the cap, and a bin is closed only by an
      item that no longer fits. */
  ghost predicate GreedyBins<T>(bins: seq<seq<T>>, items: seq<T>, cap: nat, size: T -> nat) {
    && Concat(bins) == items
    && (forall i :: 0 <= i < |bins| ==> bins[i] != [])
    && (forall i :: 0 <= i < |bins| && |bins[i]| > 1 ==> Total(bins[i], size) <= cap)
    && (forall i :: 0 < i < |bins| ==> Total(bins[i - 1], size) + size(bins[i][0]) > cap)
  }

  /** Closed bins and the one being filled. */
  function WithCurrent<T>(closed: seq<seq<T>>, current: seq<T>): seq<seq<T>> {
    if current == [] then closed else closed + [current]
  }

  lemma BinsBegin<T>(cap: nat, size: T -> nat)
    ensures GreedyBins<T>([], [], cap, size)
  {}

  lemma OpenBin<T>(bins: seq<seq<T>>, items: seq<T>, cap: nat, size: T -> nat, x: T)
    requires GreedyBins(bins, items, cap, size)
    requires bins != [] ==> Total(bins[|bins| - 1], size) + size(x) > cap
    ensures GreedyBins(bins + [[x]], items + [x], cap, size)
  {
    ConcatSnoc(bins, [x]);
  }

  lemma FillBin<T>(closed: seq<seq<T>>, current: seq<T>, items: seq<T>, cap: nat, size: T -> nat, x: T)
    requires GreedyBins(closed + [current], items, cap, size) && Total(current, size) + size(x) <= cap
    ensures GreedyBins(closed + [current + [x]], items + [x], cap, size)
  {
    var before, after := closed + [current], closed + [current + [x]];
    assert before[|closed|] == current;
    ConcatSnoc(closed, current);
    ConcatSnoc(closed, current + [x]);
    assert Concat(closed) + current + [x] == Concat(closed) + (current + [x]);
    TotalSnoc(current, x, size);
    forall i | 0 <= i < |after|
      ensures after[i] == if i < |closed| then before[i] else current + [x]
      ensures before[i] != [] && after[i][0] == before[i][0]
    {
      assert before[i] != [];
    }
    forall i | 0 < i < |after| ensures Total(after[i - 1], size) + size(after[i][0]) > cap {
      assert Total(before[i - 1], size) + size(before[i][0]) > cap;
    }
  }

  /** One item: it joins the current bin, or closes it and opens the next. */
  lemma BinsStep<T>(closed: seq<seq<T>>, current: seq<T>, items: seq<T>, cap: nat, size: T -> nat, x: T)
    requires GreedyBins(WithCurrent(closed, current), items, cap, size)
    requires current == [] ==> closed == []
    ensures if current != [] && Total(current, size) + size(x) > cap
            then GreedyBins(WithCurrent(closed + [current], [x]), items + [x], cap, size)
            else GreedyBins(WithCurrent(closed, current + [x]), items + [x], cap, size)
  {
    if current == [] {
      OpenBin(closed, items, cap, size, x);
      assert current + [x] == [x];
    } else if Total(current, size) + size(x) > cap {
      OpenBin(closed + [current], items, cap, size, x);
    } else {
      FillBin(closed, current, items, cap, size, x);
    }
  }

  /** Any items can be packed. */
  lemma {:induction false} GreedyExists<T>(items: seq<T>, cap: nat, size: T -> nat) returns (closed: seq<seq<T>>, current: seq<T>)
    ensures GreedyBins(WithCurrent(closed, current), items, cap, size) && (current == [] ==> closed == [])
  {
    if items == [] {
      closed, current := [], [];
      BinsBegin<T>(cap, size);
    } else {
      var front, x := items[..|items| - 1], items[|items| - 1];
      closed, current := GreedyExists(front, cap, size);
      BinsStep(closed, current, front, cap, size, x);
      assert items == front + [x];
      if current != [] && Total(current, size) + size(x) > cap {
        closed, current := closed + [current], [x];
      } else {
        current := current + [x];
      }
    }
  }

  /** With two bins or more, the cap times all but one stays below twice the total: greedy packing wastes at most half. */
  lemma TwiceTheTotal<T>(bins: seq<seq<T>>, items: seq<T>, cap: nat, size: T -> nat)
    requires GreedyBins(bins, items, cap, size)
    ensures |bins| >= 2 ==> (|bins| - 1) * cap < 2 * Total(items, size)
  {
    if |bins| >= 2 {
      TwiceUpTo(bins, cap, size, |bins| - 1);
      assert bins[..|bins|] == bins;
    }
  }

  lemma {:induction false} TwiceUpTo<T>(bins: seq<seq<T>>, cap: nat, size: T -> nat, n: nat)
    requires GreedyBins(bins, Concat(bins), cap, size) && 1 <= n < |bins|
    ensures n * cap + Total(bins[n], size) < 2 * Total(Concat(bins[..n + 1]), size)
  {
    var last, before := Total(bins[n], size), Total(bins[n - 1], size);
    assert before + size(bins[n][0]) > cap && last >= size(bins[n][0]);
    if n > 1 {
      TwiceUpTo(bins, cap, size, n - 1);
    }
    hide *;
    TotalUpToBin(bins, size, n);
    TotalUpToBin(bins, size, n - 1);
    assert bins[..n - 1 + 1] == bins[..n];
    if n > 1 {
      TwiceStep(n, cap, last, before, Total(Concat(bins[..n]), size));
    }
  }

  lemma TotalUpToBin<T>(bins: seq<seq<T>>, size: T -> nat, n: nat)
    requires n < |bins|
    ensures Total(Concat(bins[..n + 1]), size) == Total(Concat(bins[..n]), size) + Total(bins[n], size)
  {
    assert bins[..n + 1] == bins[..n] + [bins[n]];
    ConcatSnoc(bins[..n], bins[n]);
    TotalAppend(Concat(bins[..n]), bins[n], size);
  }

  lemma TwiceStep(n: nat, cap: nat, last: nat, before: nat, total: nat)
    requires n > 1 && (n - 1) * cap + before < 2 * total && before + last > cap
    ensures n * cap + last < 2 * (total + last)
  {
    assert n * cap == (n - 1) * cap + cap;
  }

  /** The rule leaves no choice: two packings of the same items by it are the same. */
  lemma {:induction false} GreedyIsUnique<T>(a: seq<seq<T>>, b: seq<seq<T>>, items: seq<T>, cap: nat, size: T -> nat)
    requires GreedyBins(a, items, cap, size) && GreedyBins(b, items, cap, size)
    ensures a == b
  {
    if a != [] && b != [] {
      FirstBinAtLeast(a, b, items, cap, size);
      FirstBinAtLeast(b, a, items, cap, size);
      assert items[..|a[0]|] == a[0] && items[..|b[0]|] == b[0];
      assert items[|a[0]|..] == Concat(a[1..]) && items[|b[0]|..] == Concat(b[1..]);
      GreedyIsUnique(a[1..], b[1..], items[|a[0]|..], cap, size);
    }
  }

  lemma {:induction false} TotalPrefix<T>(s: seq<T>, n: nat, size: T -> nat)
    requires n <= |s|
    ensures Total(s[..n], size) <= Total(s, size)
  {
    assert s == s[..n] + s[n..];
    TotalAppend(s[..n], s[n..], size);
  }

  lemma LoneBin<T>(bins: seq<seq<T>>)
    ensures |bins| == 1 ==> Concat(bins) == bins[0]
  {
    assert |bins| == 1 ==> bins[1..] == [];
  }

  /** A first bin cannot be longer than another packing's: that one was closed by an item that did not fit. */
  lemma FirstBinAtLeast<T>(a: seq<seq<T>>, b: seq<seq<T>>, items: seq<T>, cap: nat, size: T -> nat)
    requires GreedyBins(a, items, cap, size) && GreedyBins(b, items, cap, size) && a != [] && b != []
    ensures |a[0]| <= |b[0]|
  {
    if |a[0]| > |b[0]| {
      var n := |b[0]|;
      assert items[..|a[0]|] == a[0] && items[..n] == b[0];
      LoneBin(b);
      assert Concat(b) == b[0] + (b[1] + Concat(b[1..][1..]));
      assert items[n] == b[1][0] == a[0][n];
      assert a[0][..n + 1] == b[0] + [b[1][0]];
      TotalSnoc(b[0], b[1][0], size);
      TotalPrefix(a[0], n + 1, size);
      assert false;
    }
  }

  lemma {:induction false} TotalPermutation<T>(s: seq<T>, t: seq<T>, size: T -> nat)
    requires multiset(s) == multiset(t)
    ensures Total(s, size) == Total(t, size)
  {
    if s == [] {
      assert |t| == |multiset(t)| == 0;
    } else {
      assert s[0] in multiset(t);
      var i :| 0 <= i < |t| && t[i] == s[0];
      assert s == [s[0]] + s[1..];
      SumCancels(multiset(s[1..]), multiset(Without(t, i)), multiset{s[0]});
      TotalPermutation(s[1..], Without(t, i), size);
      assert t == t[..i] + t[i..] && t[i..][1..] == t[i + 1..];
      TotalAppend(t[..i], t[i..], size);
      TotalAppend(t[..i], t[i + 1..], size);
    }
  }

  lemma {:induction false} TotalParts<T>(ss: seq<seq<T>>, size: T -> nat, each: seq<T> -> nat)
    requires forall s :: s in ss ==> each(s) == Total(s, size)
    ensures Total(Concat(ss), size) == Total(ss, each)
  {
    if ss != [] {
      TotalAppend(ss[0], Concat(ss[1..]), size);
      TotalParts(ss[1..], size, each);
    }
  }

  lemma {:induction false} TotalMap<A, B>(s: seq<A>, g: A -> B, size: B -> nat, direct: A -> nat)
    requires forall x :: x in s ==> direct(x) == size(g(x))
    ensures Total(Map(s, g), size) == Total(s, direct)
  {
    if s != [] {
      assert Map(s, g)[1..] == Map(s[1..], g);
      TotalMap(s[1..], g, size, direct);
    }
  }

  lemma {:induction false} TotalFilter<A(!new)>(s: seq<A>, p: A -> bool, q: A -> bool, size: A -> nat)
    requires forall x :: x in s ==> q(x) == !p(x)
    ensures Total(Filter(s, p), size) + Total(Filter(s, q), size) == Total(s, size)
  {
    if s != [] {
      TotalFilter(s[1..], p, q, size);
      if p(s[0]) {
        assert Filter(s, p)[1..] == Filter(s[1..], p);
      } else {
        assert Filter(s, q)[1..] == Filter(s[1..], q);
      }
    }
  }

  /** The loop of the two task groupers. */
  method PackInOrder<T>(items: seq<T>, cap: nat, size: T -> nat) returns (bins: seq<seq<T>>)
    ensures GreedyBins(bins, items, cap, size)
  {
    hide GreedyBins;
    bins := [];
    var current: seq<T> := [];
    var currentSize := 0;
    BinsBegin<T>(cap, size);
    assert items[..0] == [];
    for i := 0 to |items|
      invariant GreedyBins(WithCurrent(bins, current), items[..i], cap, size)
      invariant currentSize == Total(current, size) && (current == [] ==> bins == [])
    {
      assert items[..i + 1] == items[..i] + [items[i]];
      BinsStep(bins, current, items[..i], cap, size, items[i]);
      TotalSnoc(current, items[i], size);
      TotalSnoc([], items[i], size);
      if current != [] && currentSize + size(items[i]) > cap {
        bins := bins + [current];
        current := [];
        currentSize := 0;
        assert current + [items[i]] == [items[i]];
      }
      current := current + [items[i]];
      currentSize := currentSize + size(items[i]);
    }
    assert items[..|items|] == items;
    if current != [] {
      bins := bins + [current];
    }
  }
}
