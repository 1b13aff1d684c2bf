/** Handing conversion tasks to workers, one at a time each, and collecting whatever finishes next. */
module Dispatcher {

  import opened Schedule
  import opened Sequences
  import opened Sorting

  /** `0`, `1`, ..., `n - 1` */
  function Range(n: nat): (r: seq<nat>)
    ensures |r| == n && forall i :: 0 <= i < n ==> r[i] == i
  {
    seq(n, i => i)
  }

  lemma InRange(n: nat, t: nat)
    ensures t in Range(n) <==> t < n
  {
    assert t < n ==> Range(n)[t] == t;
  }

  lemma RangeStep(n: nat)
    ensures Range(n + 1) == Range(n) + [n]
  {}

  ghost predicate Busy(pending: map<nat, nat>, w: nat) {
    exists t :: t in pending && pending[t] == w
  }

  /** The submitted tasks are exactly the finished and the pending ones; a worker has at most one pending task; a worker
      is idle only when there is nothing left to submit. */
  ghost predicate Balanced(workers: nat, tasks: nat, submitted: nat, pending: map<nat, nat>, finished: seq<nat>) {
    && submitted <= tasks
    && |finished| + |pending| == submitted
    && multiset(finished) + multiset(pending.Keys) == multiset(Range(submitted))
    && (forall t :: t in pending ==> pending[t] < workers)
    && (forall s, t :: s in pending && t in pending && pending[s] == pending[t] ==> s == t)
    && (submitted < tasks ==> forall w :: 0 <= w < workers ==> Busy(pending, w))
  }

  /** The tasks each worker was given, in order. */
  ghost predicate Handed(order: seq<seq<nat>>, submitted: nat) {
    multiset(Concat(order)) == multiset(Range(submitted))
  }

  lemma {:induction false} HandOver(order: seq<seq<nat>>, w: nat, t: nat)
    requires w < |order|
    ensures multiset(Concat(order[w := order[w] + [t]])) == multiset(Concat(order)) + multiset{t}
  {
    if w > 0 {
      HandOver(order[1..], w - 1, t);
      assert order[w := order[w] + [t]][1..] == order[1..][w - 1 := order[1..][w - 1] + [t]];
    } else {
      assert order[0 := order[0] + [t]][1..] == order[1..];
    }
  }

  lemma HandedStep(order: seq<seq<nat>>, w: nat, submitted: nat)
    requires w < |order| && Handed(order, submitted)
    ensures Handed(order[w := order[w] + [submitted]], submitted + 1)
  {
    HandOver(order, w, submitted);
    RangeStep(submitted);
  }

  /** `n` workers without tasks. */
  function Nobody(n: nat): (order: seq<seq<nat>>)
    ensures |order| == n && forall w :: 0 <= w < n ==> order[w] == []
  {
    seq(n, _ => [])
  }

  lemma {:induction false} NothingHanded(n: nat)
    ensures Concat(Nobody(n)) == []
  {
    if n > 0 {
      NothingHanded(n - 1);
      assert Nobody(n)[1..] == Nobody(n - 1);
    }
  }

  /** Two sorted arrangements of the same numbers are the same. */
  lemma {:induction false} SortedIsUnique(a: seq<nat>, b: seq<nat>)
    requires multiset(a) == multiset(b)
    requires forall i, j :: 0 <= i < j < |a| ==> a[i] <= a[j]
    requires forall i, j :: 0 <= i < j < |b| ==> b[i] <= b[j]
    ensures a == b
  {
    if a == [] {
      assert |b| == |multiset(b)| == 0;
    } else {
      assert b != [] by {
        assert a[0] in multiset(b);
      }
      FirstIsLeast(a, b);
      FirstIsLeast(b, a);
      assert a == [a[0]] + a[1..] && b == [b[0]] + b[1..];
      assert a[0] == b[0] && multiset(a) == multiset(a[1..]) + multiset{a[0]} && multiset(b) == multiset(b[1..]) + multiset{a[0]};
      SumCancels(multiset(a[1..]), multiset(b[1..]), multiset{a[0]});
      SortedIsUnique(a[1..], b[1..]);
    }
  }

  lemma FirstIsLeast(a: seq<nat>, b: seq<nat>)
    requires multiset(a) == multiset(b) && a != [] && b != []
    requires forall i, j :: 0 <= i < j < |b| ==> b[i] <= b[j]
    ensures b[0] <= a[0]
  {
    assert a[0] in multiset(b);
    var i :| 0 <= i < |b| && b[i] == a[0];
  }

  function Leq(): (nat, nat) -> bool {
    (a: nat, b: nat) => a <= b
  }

  lemma {:induction false} OrderedIsSorted(s: seq<nat>, i: nat, j: nat)
    requires Ordered(s, Leq()) && i < j < |s|
    ensures s[i] <= s[j]
    decreases j
  {
    assert Leq()(s[j - 1], s[j]);
    if i < j - 1 {
      OrderedIsSorted(s, i, j - 1);
    }
  }

  /** In whatever order the tasks finish, sorting their results by task id gives the same list. */
  lemma SortedResults(finished: seq<nat>, n: nat)
    requires multiset(finished) == multiset(Range(n))
    ensures Sort(finished, Leq()) == Range(n)
  {
    SortOrdered(finished, Leq());
    var sorted := Sort(finished, Leq());
    forall i, j | 0 <= i < j < |sorted| ensures sorted[i] <= sorted[j] {
      OrderedIsSorted(sorted, i, j);
    }
    SortedIsUnique(sorted, Range(n));
  }

  lemma AddKey(m: map<nat, nat>, k: nat, v: nat)
    requires k !in m
    ensures |m[k := v]| == |m| + 1
    ensures multiset(m[k := v].Keys) == multiset(m.Keys) + multiset{k}
  {
    var keys, more := m.Keys, m[k := v].Keys;
    assert more == keys + {k};
    assert |m| == |keys| && |m[k := v]| == |more|;
  }

  /** The next task is not among the finished and pending ones. */
  lemma SubmitCounts(submitted: nat, pending: map<nat, nat>, finished: seq<nat>, w: nat)
    requires |finished| + |pending| == submitted
    requires multiset(finished) + multiset(pending.Keys) == multiset(Range(submitted))
    ensures submitted !in pending
    ensures var p := pending[submitted := w];
            && |finished| + |p| == submitted + 1
            && multiset(finished) + multiset(p.Keys) == multiset(Range(submitted + 1))
  {
    RangeStep(submitted);
    assert submitted !in multiset(Range(submitted));
    assert submitted in pending ==> submitted in multiset(finished) + multiset(pending.Keys);
    hide *;
    AddKey(pending, submitted, w);
  }

  /** Submitting the next task to an idle worker. */
  lemma Submit(workers: nat, submitted: nat, pending: map<nat, nat>, finished: seq<nat>, w: nat)
    requires |finished| + |pending| == submitted && w < workers
    requires multiset(finished) + multiset(pending.Keys) == multiset(Range(submitted))
    requires forall t :: t in pending ==> pending[t] < workers && pending[t] != w
    requires forall s, t :: s in pending && t in pending && pending[s] == pending[t] ==> s == t
    ensures submitted !in pending
    ensures var p := pending[submitted := w];
            && |finished| + |p| == submitted + 1
            && multiset(finished) + multiset(p.Keys) == multiset(Range(submitted + 1))
            && (forall t :: t in p ==> p[t] < workers)
            && (forall s, t :: s in p && t in p && p[s] == p[t] ==> s == t)
  {
    SubmitCounts(submitted, pending, finished, w);
    hide Range;
    var p := pending[submitted := w];
    forall s, t | s in p && t in p && p[s] == p[t] ensures s == t {
      if s != submitted && t != submitted {
        assert pending[s] == pending[t];
      }
    }
  }

  /** The first task of every worker. */
  method FirstRound(workers: nat, tasks: nat, ghost finishes: seq<nat>) returns (order: seq<seq<nat>>, pending: map<nat, nat>)
    requires 1 <= workers <= tasks
    ensures order == Assigned(workers, finishes, workers) && forall w :: 0 <= w < workers ==> order[w] == [w]
    ensures Balanced(workers, tasks, workers, pending, [])
  {
    hide Assigned, Own, Balanced, Holder;
    OwnSteps(0);
    pending := map[];
    var submitted := 0;
    order := Nobody(workers);
    NobodyYet(workers, finishes);
    while submitted < workers
      invariant 0 <= submitted <= workers && |order| == workers && pending == Own(submitted)
      invariant order == Assigned(workers, finishes, submitted)
      invariant forall w :: 0 <= w < workers ==> order[w] == if w < submitted then [w] else []
    {
      AssignedStep(workers, finishes, submitted);
      FirstHolder(workers, finishes, submitted);
      OwnSteps(submitted);
      pending := pending[submitted := submitted];
      order := order[submitted := order[submitted] + [submitted]];
      submitted := submitted + 1;
    }
    OwnIsBalanced(workers, tasks);
  }

  /** Task `w` pending on worker `w`. */
  function Own(n: nat): (m: map<nat, nat>)
    ensures forall t :: t in m <==> 0 <= t < n
    ensures forall t :: t in m ==> m[t] == t
  {
    if n == 0 then map[] else Own(n - 1)[n - 1 := n - 1]
  }

  lemma OwnSteps(n: nat)
    ensures Own(0) == map[] && Own(n + 1) == Own(n)[n := n]
  {}

  lemma FirstHolder(workers: nat, finishes: seq<nat>, t: nat)
    requires t < workers
    ensures Holder(workers, finishes, t) == t
  {}

  lemma {:induction false} OwnKeys(n: nat)
    ensures |Own(n)| == n && multiset(Own(n).Keys) == multiset(Range(n))
  {
    if n > 0 {
      OwnKeys(n - 1);
      RangeStep(n - 1);
      AddKey(Own(n - 1), n - 1, n - 1);
    } else {
      assert Own(0).Keys == {};
    }
  }

  lemma OwnIsBalanced(workers: nat, tasks: nat)
    requires workers <= tasks
    ensures Balanced(workers, tasks, workers, Own(workers), [])
  {
    OwnKeys(workers);
    forall w | 0 <= w < workers ensures Busy(Own(workers), w) {
      assert w in Own(workers) && Own(workers)[w] == w;
    }
  }

  // ---------------------------------------------------------------- who is given which task

  /** The worker that is ready at the `k`-th wait after which a task is left to submit; every worker is busy then. */
  function Finisher(workers: nat, finishes: seq<nat>, k: nat): (w: nat)
    requires workers >= 1
    ensures w < workers
  {
    if k < |finishes| then finishes[k] % workers else 0
  }

  /** The worker that is given task `t`: the first round goes round, afterwards whoever is ready gets the next task. */
  function Holder(workers: nat, finishes: seq<nat>, t: nat): (w: nat)
    requires workers >= 1
    ensures w < workers
  {
    if t < workers then t else Finisher(workers, finishes, t - workers)
  }

  function GivenTo(workers: nat, finishes: seq<nat>, w: nat): nat -> bool
    requires workers >= 1
  {
    (t: nat) => Holder(workers, finishes, t) == w
  }

  /** The tasks each worker is given among the first `n`, in order. */
  function Assigned(workers: nat, finishes: seq<nat>, n: nat): (order: seq<seq<nat>>)
    requires workers >= 1
    ensures |order| == workers
  {
    seq(workers, w requires 0 <= w < workers => Filter(Range(n), GivenTo(workers, finishes, w)))
  }

  lemma AssignedHolds(workers: nat, finishes: seq<nat>, n: nat, w: nat, t: nat)
    requires w < workers
    ensures t in Assigned(workers, finishes, n)[w] <==> t < n && Holder(workers, finishes, t) == w
  {
    InRange(n, t);
  }

  lemma AssignedStep(workers: nat, finishes: seq<nat>, n: nat)
    requires workers >= 1
    ensures var order, w := Assigned(workers, finishes, n), Holder(workers, finishes, n);
            Assigned(workers, finishes, n + 1) == order[w := order[w] + [n]]
  {
    RangeStep(n);
    forall w | 0 <= w < workers
      ensures Assigned(workers, finishes, n + 1)[w] ==
              Assigned(workers, finishes, n)[w] + if Holder(workers, finishes, n) == w then [n] else []
    {
      FilterSnoc(Range(n), n, GivenTo(workers, finishes, w));
    }
    var order, w := Assigned(workers, finishes, n), Holder(workers, finishes, n);
    var next := order[w := order[w] + [n]];
    forall v | 0 <= v < workers ensures Assigned(workers, finishes, n + 1)[v] == next[v] {
      assert order[v] + [] == order[v];
    }
    assert Assigned(workers, finishes, n + 1) == next;
  }

  lemma {:induction false} AssignedIsHanded(workers: nat, finishes: seq<nat>, n: nat)
    requires workers >= 1
    ensures Handed(Assigned(workers, finishes, n), n)
  {
    hide Handed, Assigned;
    if n == 0 {
      NobodyYet(workers, finishes);
    } else {
      AssignedIsHanded(workers, finishes, n - 1);
      AssignedStep(workers, finishes, n - 1);
      HandedStep(Assigned(workers, finishes, n - 1), Holder(workers, finishes, n - 1), n - 1);
    }
  }

  lemma NobodyYet(workers: nat, finishes: seq<nat>)
    requires workers >= 1
    ensures Assigned(workers, finishes, 0) == Nobody(workers) && Handed(Assigned(workers, finishes, 0), 0)
  {
    NothingHanded(workers);
    assert forall w :: 0 <= w < workers ==> Assigned(workers, finishes, 0)[w] == [];
    assert Assigned(workers, finishes, 0) == Nobody(workers);
    assert Range(0) == [];
  }

  /** Some completion order brings two given tasks to different workers. */
  lemma TasksCanPart(workers: nat, i: nat, j: nat) returns (finishes: seq<nat>)
    requires workers >= 2 && i < j
    ensures Holder(workers, finishes, i) != Holder(workers, finishes, j)
  {
    if j < workers {
      finishes := [];
    } else {
      var first := if i < workers then i else 0;
      finishes := seq(j - workers, _ => 0) + [if first == 0 then 1 else 0];
    }
  }

  /** Collects the results of `tasks` tasks with at most `concurrency` workers. `finishes` says who is ready at each wait;
      `order` is what every worker did, in order; `results` the task ids as returned. Each task is run exactly once, by
      the worker that was ready for it, and the returned list does not depend on `finishes`. */
  method CollectRayResults(tasks: nat, concurrency: int, finishes: seq<nat>) returns (order: seq<seq<nat>>, results: seq<nat>)
    ensures tasks == 0 || concurrency < 1 ==> order == [] && results == []
    ensures tasks >= 1 && concurrency >= 1 ==>
              order == Assigned(Min(concurrency, tasks), finishes, tasks) && results == Range(tasks)
  {
    hide Balanced, Handed, Assigned, Holder;
    var workers := Min(concurrency, tasks);
    if workers < 1 {
      return [], [];
    }
    var pending: map<nat, nat>;
    order, pending := FirstRound(workers, tasks, finishes);
    var submitted := workers;
    var finished: seq<nat> := [];
    while pending != map[]
      invariant Balanced(workers, tasks, submitted, pending, finished)
      invariant workers <= submitted <= tasks && order == Assigned(workers, finishes, submitted)
      decreases tasks - |finished|
    {
      var ready;
      if submitted < tasks {
        ready := ReadyOf(workers, tasks, submitted, pending, finished, Holder(workers, finishes, submitted));
      } else {
        ready :| ready in pending;
      }
      var worker := pending[ready];
      Refill(workers, tasks, submitted, pending, finished, ready);
      pending := pending - {ready};
      finished := finished + [ready];
      if submitted < tasks {
        AssignedStep(workers, finishes, submitted);
        pending := pending[submitted := worker];
        order := order[worker := order[worker] + [submitted]];
        submitted := submitted + 1;
      }
    }
    NothingPending(workers, tasks, submitted, pending, finished);
    SortedResults(finished, tasks);
    results := Sort(finished, Leq());
  }

  /** The pending task of a worker. */
  method ReadyOf(workers: nat, tasks: nat, submitted: nat, pending: map<nat, nat>, ghost finished: seq<nat>, w: nat) returns (ready: nat)
    requires Balanced(workers, tasks, submitted, pending, finished) && submitted < tasks && w < workers
    ensures ready in pending && pending[ready] == w
  {
    assert Busy(pending, w);
    ready :| ready in pending && pending[ready] == w;
  }

  lemma NothingPending(workers: nat, tasks: nat, submitted: nat, pending: map<nat, nat>, finished: seq<nat>)
    requires workers >= 1 && Balanced(workers, tasks, submitted, pending, finished) && pending == map[]
    ensures submitted == tasks && multiset(finished) == multiset(Range(tasks))
  {
    assert !Busy(pending, 0);
  }

  /** A pending task finishes: its worker is the only one without a task. */
  lemma Complete(workers: nat, tasks: nat, submitted: nat, pending: map<nat, nat>, finished: seq<nat>, ready: nat)
    requires Balanced(workers, tasks, submitted, pending, finished) && ready in pending
    ensures var p, f := pending - {ready}, finished + [ready];
            && |f| + |p| == submitted && |finished| < tasks
            && multiset(f) + multiset(p.Keys) == multiset(Range(submitted))
            && (forall t :: t in p ==> p[t] < workers && p[t] != pending[ready])
            && (submitted < tasks ==> forall w :: 0 <= w < workers && w != pending[ready] ==> Busy(p, w))
  {
    var p := pending - {ready};
    assert p.Keys == pending.Keys - {ready};
    assert multiset(pending.Keys) == multiset(p.Keys) + multiset{ready};
    assert |pending| == |pending.Keys| && |p| == |p.Keys|;
    if submitted < tasks {
      forall w | 0 <= w < workers && w != pending[ready] ensures Busy(p, w) {
        assert Busy(pending, w);
        var t :| t in pending && pending[t] == w;
        assert t in p && p[t] == w;
      }
    }
  }

  /** A completion, and the next task for the worker that is free now if there is one. */
  lemma Refill(workers: nat, tasks: nat, submitted: nat, pending: map<nat, nat>, finished: seq<nat>, ready: nat)
    requires Balanced(workers, tasks, submitted, pending, finished) && ready in pending
    ensures |finished| < tasks && pending[ready] < workers
    ensures submitted < tasks ==>
              Balanced(workers, tasks, submitted + 1, (pending - {ready})[submitted := pending[ready]], finished + [ready])
    ensures submitted >= tasks ==> Balanced(workers, tasks, submitted, pending - {ready}, finished + [ready])
  {
    var w, p, f := pending[ready], pending - {ready}, finished + [ready];
    Complete(workers, tasks, submitted, pending, finished, ready);
    if submitted < tasks {
      hide Range;
      Submit(workers, submitted, p, f, w);
      BusyAgain(workers, p, submitted, w);
    }
  }

  lemma BusyAgain(workers: nat, p: map<nat, nat>, t: nat, w: nat)
    requires t !in p && forall v :: 0 <= v < workers && v != w ==> Busy(p, v)
    ensures var q := p[t := w]; forall v :: 0 <= v < workers ==> Busy(q, v)
  {
    var q := p[t := w];
    forall v | 0 <= v < workers ensures Busy(q, v) {
      if v == w {
        assert t in q && q[t] == w;
      } else {
        assert Busy(p, v);
        var s :| s in p && p[s] == v;
        assert s in q && q[s] == v;
      }
    }
  }
}
