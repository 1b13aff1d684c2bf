/** What the synchronous and the pipelined driver share: the steps of a run and the periodic actions. */
module Schedule {

  import opened Wrappers

  function Max(a: int, b: int): int {
    if a >= b then a else b
  }

  function Min(a: int, b: int): int {
    if a <= b then a else b
  }

  /** `first`, `first + 1`, ... */
  function Ids(first: nat, n: nat): seq<nat> {
    seq(n, i requires 0 <= i => first + i)
  }

  /** Training steps of a run from `start` to `num` that may be cut short after `debugExit` rollouts. */
  function StepsRun(start: nat, num: nat, debugExit: Option<int>): nat {
    if start >= num then 0
    else match debugExit
      case None => num - start
      case Some(x) => Min(num - start, Max(1, x))
  }

  /** The run stops after the step that makes `done` steps. */
  predicate ExitAfter(done: int, debugExit: Option<int>) {
    debugExit.Some? && done >= debugExit.value
  }

  /** Whether eval or save runs after rollout `r`: always after the last one, else at the interval or the epoch end. */
  predicate Due(r: nat, interval: Option<nat>, perEpoch: Option<nat>, num: nat)
    requires interval != Some(0) && perEpoch != Some(0)
  {
    interval.Some?
    && (r + 1 == num || (r + 1) % interval.value == 0 || (perEpoch.Some? && (r + 1) % perEpoch.value == 0))
  }
}
