/** The producer of the fully asynchronous mode: it generates all the time, and a drain collects what is done. */
module StandingProducer {

  import opened Arithmetic
  import opened Schedule
  import opened Wrappers

  /** `maxStaleness` is the limit on a group's age in versions, `capacity` that of the buffer of finished groups, `maxGroups`
      one on groups that are generated or not yet in the buffer, `debugExit` the option that stops a run after a number of
      rollouts. */
  datatype Config = Config(
    start: nat, num: nat, interval: nat, fullyAsync: bool,
    batchSize: nat, maxStaleness: Option<nat>, capacity: nat, maxGroups: nat,
    useCritic: bool, criticOnlySteps: nat, debugExit: Option<int>)
  {
    predicate Valid() { interval >= 1 && capacity >= 1 && maxGroups >= 1 }

    function Steps(): nat { StepsRun(start, num, debugExit) }
  }

  /** A group of samples: the oldest and the newest version its tokens came from. */
  datatype Group = Group(first: nat, last: nat)

  /** Groups being generated, by the version they began under; groups done that wait for room in the buffer; the buffer;
      and what the drain under way has taken from it. */
  datatype Stand = Stand(active: seq<nat>, waiting: seq<Group>, buffer: seq<Group>, taken: seq<Group>)

  /** What may happen next: a group begins, one of those in generation gets done, one that is done enters the buffer, or the
      drain takes the oldest in the buffer. */
  datatype Event = Begin | Finish(k: nat) | Put(k: nat) | Take

  /** Everything that happens in a run: during the `i`-th wait of the drain for a rollout, and while a step trains. */
  datatype Script = Script(waits: (nat, nat) -> seq<Event>, training: nat -> seq<Event>)

  // ---------------------------------------------------------------- versions

  /** Completed steps held by the engines' weights once `completed` steps are done and published on time. */
  function Published(cfg: Config, completed: nat): nat
    requires cfg.Valid()
  {
    Max(cfg.start, cfg.interval * (completed / cfg.interval))
  }

  /** Updates made once `completed` steps are done. */
  function VersionAfter(cfg: Config, completed: nat): nat
    requires cfg.Valid()
  {
    Max(0, completed / cfg.interval - cfg.start / cfg.interval)
  }

  /** Completed steps held by a version. */
  function StepsOf(cfg: Config, version: nat): nat
    requires cfg.Valid()
  {
    if version == 0 then cfg.start else cfg.interval * (cfg.start / cfg.interval + version)
  }

  /** Completed steps held by the weights that rollout `r` is requested under. */
  function RequestedUnder(cfg: Config, r: nat): nat
    requires cfg.Valid()
  {
    if r <= cfg.start then cfg.start
    else Published(cfg, if cfg.fullyAsync then r else r - 1)
  }

  lemma PublishedStep(cfg: Config, completed: nat)
    requires cfg.Valid() && completed >= cfg.start
    ensures (completed + 1) % cfg.interval == 0 ==> Published(cfg, completed + 1) == completed + 1
    ensures (completed + 1) % cfg.interval != 0 ==> Published(cfg, completed + 1) == Published(cfg, completed)
    ensures Published(cfg, cfg.start) == cfg.start
  {
    var k, next := cfg.interval, completed + 1;
    assert next == k * (next / k) + next % k;
    if next % k != 0 {
      DivModUnique(completed, k, next / k, next % k - 1);
    }
    assert cfg.start == k * (cfg.start / k) + cfg.start % k;
  }

  lemma VersionStep(cfg: Config, completed: nat)
    requires cfg.Valid() && completed >= cfg.start
    ensures VersionAfter(cfg, completed + 1) == VersionAfter(cfg, completed) + if (completed + 1) % cfg.interval == 0 then 1 else 0
  {
    var k, next := cfg.interval, completed + 1;
    assert next == k * (next / k) + next % k;
    DivMonotone(cfg.start, completed, k);
    if next % k != 0 {
      DivModUnique(completed, k, next / k, next % k - 1);
    } else {
      DivModUnique(completed, k, next / k - 1, k - 1);
    }
  }

  lemma DivMonotone(a: nat, b: nat, k: nat)
    requires k >= 1 && a <= b
    ensures a / k <= b / k
  {
    if a / k > b / k {
      MulMonotone(b / k + 1, a / k, k);
    }
  }

  /** The version reached holds the steps published. */
  lemma VersionHolds(cfg: Config, completed: nat)
    requires cfg.Valid() && completed >= cfg.start
    ensures StepsOf(cfg, VersionAfter(cfg, completed)) == Published(cfg, completed)
  {
    var k := cfg.interval;
    DivMonotone(cfg.start, completed, k);
    assert cfg.start == k * (cfg.start / k) + cfg.start % k;
    if completed / k > cfg.start / k {
      MulMonotone(cfg.start / k + 1, completed / k, k);
    }
  }

  /** How far the weights a rollout is requested under are behind when it is trained: `r` steps are done by then. Never
      more than the update interval, one less when draining is deferred past an update, and exactly the distance to the
      update before the request unless the run is younger than that. */
  lemma StalenessBound(cfg: Config, r: nat)
    requires cfg.Valid() && r >= cfg.start
    ensures var lag := r - RequestedUnder(cfg, r);
            && 0 <= lag <= (if cfg.fullyAsync then cfg.interval - 1 else cfg.interval)
            && lag == Min(r - cfg.start, if cfg.fullyAsync then r % cfg.interval else if r == 0 then 0 else (r - 1) % cfg.interval + 1)
  {
    var k := cfg.interval;
    assert r == k * (r / k) + r % k;
    if r > 0 {
      assert r - 1 == k * ((r - 1) / k) + (r - 1) % k;
    }
  }

  // ---------------------------------------------------------------- what the producer hands over

  /** Too old to be trained on. */
  predicate Stale(cfg: Config, first: nat, current: nat) {
    cfg.maxStaleness.Some? && current - first > cfg.maxStaleness.value
  }

  /** A full batch of groups for rollout `r`, begun and done under versions up to the one of the request, none too old. */
  ghost predicate Batch(cfg: Config, r: nat, groups: seq<Group>)
    requires cfg.Valid()
  {
    && |groups| == cfg.batchSize
    && forall i :: 0 <= i < |groups| ==> Usable(cfg, VersionAfter(cfg, r), groups[i])
  }

  predicate Usable(cfg: Config, current: nat, g: Group) {
    g.first <= g.last <= current && !Stale(cfg, g.first, current)
  }

  /** With a limit of `m` versions, the oldest weights behind a group of a batch are at most `(m + 1) * interval - 1` steps
      behind when the batch is trained. */
  lemma GroupLag(cfg: Config, r: nat, g: Group)
    requires cfg.Valid() && r >= cfg.start && Usable(cfg, VersionAfter(cfg, r), g)
    ensures StepsOf(cfg, g.first) <= StepsOf(cfg, g.last) <= r
    ensures cfg.maxStaleness.Some? ==> r - StepsOf(cfg, g.first) <= (cfg.maxStaleness.value + 1) * cfg.interval - 1
  {
    VersionHolds(cfg, r);
    StepsGrow(cfg, g.first, g.last);
    StepsGrow(cfg, g.last, VersionAfter(cfg, r));
    PublishedBelow(cfg, r);
    if cfg.maxStaleness.Some? {
      LagOfStart(cfg, r, g.first, cfg.maxStaleness.value);
    }
  }

  lemma PublishedBelow(cfg: Config, r: nat)
    requires cfg.Valid() && r >= cfg.start
    ensures Published(cfg, r) <= r
  {
    assert r == cfg.interval * (r / cfg.interval) + r % cfg.interval;
  }

  lemma LagOfStart(cfg: Config, r: nat, first: nat, m: nat)
    requires cfg.Valid() && r >= cfg.start && VersionAfter(cfg, r) - first <= m
    ensures r - StepsOf(cfg, first) <= (m + 1) * cfg.interval - 1
  {
    VersionIs(cfg, r);
    StepsAtLeast(cfg, first);
    DivParts(r, cfg.interval);
    var k, s, q, rest := cfg.interval, cfg.start / cfg.interval, r / cfg.interval, r % cfg.interval;
    hide *;
    AgeInSteps(k, s + first, m, q, rest);
  }

  lemma VersionIs(cfg: Config, r: nat)
    requires cfg.Valid() && r >= cfg.start
    ensures VersionAfter(cfg, r) == r / cfg.interval - cfg.start / cfg.interval
  {
    DivMonotone(cfg.start, r, cfg.interval);
  }

  lemma DivParts(x: nat, k: nat)
    requires k >= 1
    ensures x == k * (x / k) + x % k && x % k < k
  {}

  lemma StepsAtLeast(cfg: Config, version: nat)
    requires cfg.Valid()
    ensures StepsOf(cfg, version) >= cfg.interval * (cfg.start / cfg.interval + version)
  {
    DivParts(cfg.start, cfg.interval);
  }

  lemma AgeInSteps(k: nat, base: nat, m: nat, q: nat, rest: nat)
    requires q <= base + m && rest < k
    ensures k * q + rest - k * base <= (m + 1) * k - 1
  {
    MulMonotone(q, base + m, k);
    assert (base + m) * k == base * k + m * k;
  }

  lemma StepsGrow(cfg: Config, a: nat, b: nat)
    requires cfg.Valid() && a <= b
    ensures StepsOf(cfg, a) <= StepsOf(cfg, b)
  {
    var k := cfg.interval;
    assert cfg.start == k * (cfg.start / k) + cfg.start % k;
    if 0 < a {
      MulMonotone(cfg.start / k + a, cfg.start / k + b, k);
    } else if 0 < b {
      MulMonotone(cfg.start / k + 1, cfg.start / k + b, k);
    }
  }

  // ---------------------------------------------------------------- counting what is too old

  /** How many of these versions are too old. */
  function CountStale(cfg: Config, firsts: seq<nat>, current: nat): nat {
    if firsts == [] then 0
    else CountStale(cfg, firsts[..|firsts| - 1], current) + if Stale(cfg, firsts[|firsts| - 1], current) then 1 else 0
  }

  lemma {:induction false} CountAppend(cfg: Config, a: seq<nat>, b: seq<nat>, current: nat)
    ensures CountStale(cfg, a + b, current) == CountStale(cfg, a, current) + CountStale(cfg, b, current)
  {
    if b == [] {
      assert a + b == a;
    } else {
      CountAppend(cfg, a, b[..|b| - 1], current);
      assert (a + b)[..|a + b| - 1] == a + b[..|b| - 1];
    }
  }

  lemma CountOne(cfg: Config, x: nat, current: nat)
    ensures CountStale(cfg, [x], current) == if Stale(cfg, x, current) then 1 else 0
  {
    assert [x][..0] == [];
  }

  lemma CountWithout(cfg: Config, s: seq<nat>, k: nat, current: nat)
    requires k < |s|
    ensures CountStale(cfg, s, current) == CountStale(cfg, s[..k] + s[k + 1..], current) + CountStale(cfg, [s[k]], current)
  {
    assert s == s[..k] + [s[k]] + s[k + 1..];
    CountAppend(cfg, s[..k] + [s[k]], s[k + 1..], current);
    CountAppend(cfg, s[..k], [s[k]], current);
    CountAppend(cfg, s[..k], s[k + 1..], current);
  }

  function Firsts(groups: seq<Group>): (f: seq<nat>)
    ensures |f| == |groups| && forall i :: 0 <= i < |f| ==> f[i] == groups[i].first
  {
    seq(|groups|, i requires 0 <= i < |groups| => groups[i].first)
  }

  lemma FirstsAppend(a: seq<Group>, g: Group)
    ensures Firsts(a + [g]) == Firsts(a) + [g.first]
  {}

  lemma FirstsWithout(s: seq<Group>, k: nat)
    requires k < |s|
    ensures Firsts(s[..k] + s[k + 1..]) == Firsts(s)[..k] + Firsts(s)[k + 1..]
  {}

  /** Stale groups that are still to be drained. */
  function AllStale(cfg: Config, s: Stand, current: nat): nat {
    CountStale(cfg, s.active, current) + CountStale(cfg, Firsts(s.waiting), current) + CountStale(cfg, Firsts(s.buffer), current)
  }

  // ---------------------------------------------------------------- one event

  /** A group does not begin beyond the limit, does not enter a full buffer, and is not taken unless a drain is under way
      that needs it. The drain drops what is too old. */
  function Apply(cfg: Config, current: nat, draining: bool, s: Stand, e: Event): Stand {
    match e
    case Begin => if |s.active| + |s.waiting| < cfg.maxGroups then s.(active := s.active + [current]) else s
    case Finish(k) =>
      if k < |s.active|
      then s.(active := s.active[..k] + s.active[k + 1..], waiting := s.waiting + [Group(s.active[k], current)]) else s
    case Put(k) =>
      if k < |s.waiting| && |s.buffer| < cfg.capacity
      then s.(waiting := s.waiting[..k] + s.waiting[k + 1..], buffer := s.buffer + [s.waiting[k]]) else s
    case Take =>
      if draining && |s.taken| < cfg.batchSize && s.buffer != []
      then s.(buffer := s.buffer[1..], taken := s.taken + if Stale(cfg, s.buffer[0].first, current) then [] else [s.buffer[0]])
      else s
  }

  function ApplyAll(cfg: Config, current: nat, draining: bool, s: Stand, events: seq<Event>): Stand {
    if events == [] then s
    else Apply(cfg, current, draining, ApplyAll(cfg, current, draining, s, events[..|events| - 1]), events[|events| - 1])
  }

  /** A group for the buffer, if it has none: one that waits, one that gets done now, or a new one. */
  function Awaited(cfg: Config, current: nat, s: Stand): Stand {
    if s.buffer != [] then s
    else
      var a := if s.waiting == [] && s.active == [] then Apply(cfg, current, false, s, Begin) else s;
      var b := if a.waiting == [] then Apply(cfg, current, false, a, Finish(0)) else a;
      Apply(cfg, current, false, b, Put(0))
  }

  lemma AwaitedIsThere(cfg: Config, current: nat, s: Stand)
    requires cfg.Valid()
    ensures Awaited(cfg, current, s).buffer != [] && Awaited(cfg, current, s).taken == s.taken
  {}

  /** Nothing but a drain changes how many groups are too old; a drain takes one more, or drops a stale one. */
  lemma StaleStep(cfg: Config, current: nat, draining: bool, s: Stand, e: Event)
    ensures var t := Apply(cfg, current, draining, s, e);
            && (e != Take || !draining ==> t.taken == s.taken && AllStale(cfg, t, current) == AllStale(cfg, s, current))
            && (e == Take && draining && |s.taken| < cfg.batchSize && s.buffer != [] ==>
                  if Stale(cfg, s.buffer[0].first, current)
                  then t.taken == s.taken && AllStale(cfg, t, current) + 1 == AllStale(cfg, s, current)
                  else t.taken == s.taken + [s.buffer[0]] && AllStale(cfg, t, current) == AllStale(cfg, s, current))
  {
    hide Apply, AllStale, Stale;
    match e
    case Begin => BeginIsFresh(cfg, s, draining, current);
    case Finish(k) => FinishMoves(cfg, s, draining, k, current);
    case Put(k) => PutMoves(cfg, s, draining, k, current);
    case Take => TakeRemoves(cfg, s, draining, current);
  }

  lemma BeginIsFresh(cfg: Config, s: Stand, draining: bool, current: nat)
    ensures var t := Apply(cfg, current, draining, s, Begin); t.taken == s.taken && AllStale(cfg, t, current) == AllStale(cfg, s, current)
  {
    hide CountStale;
    CountAppend(cfg, s.active, [current], current);
    CountOne(cfg, current, current);
  }

  lemma FinishMoves(cfg: Config, s: Stand, draining: bool, k: nat, current: nat)
    ensures var t := Apply(cfg, current, draining, s, Finish(k)); t.taken == s.taken && AllStale(cfg, t, current) == AllStale(cfg, s, current)
  {
    hide CountStale;
    if k < |s.active| {
      CountWithout(cfg, s.active, k, current);
      FirstsAppend(s.waiting, Group(s.active[k], current));
      CountAppend(cfg, Firsts(s.waiting), [s.active[k]], current);
    }
  }

  lemma PutMoves(cfg: Config, s: Stand, draining: bool, k: nat, current: nat)
    ensures var t := Apply(cfg, current, draining, s, Put(k)); t.taken == s.taken && AllStale(cfg, t, current) == AllStale(cfg, s, current)
  {
    hide CountStale;
    if k < |s.waiting| {
      FirstsWithout(s.waiting, k);
      CountWithout(cfg, Firsts(s.waiting), k, current);
      FirstsAppend(s.buffer, s.waiting[k]);
      CountAppend(cfg, Firsts(s.buffer), [s.waiting[k].first], current);
    }
  }

  lemma TakeRemoves(cfg: Config, s: Stand, draining: bool, current: nat)
    ensures var t := Apply(cfg, current, draining, s, Take);
            && (!draining ==> t == s)
            && (draining && |s.taken| < cfg.batchSize && s.buffer != [] ==>
                  if Stale(cfg, s.buffer[0].first, current)
                  then t.taken == s.taken && AllStale(cfg, t, current) + 1 == AllStale(cfg, s, current)
                  else t.taken == s.taken + [s.buffer[0]] && AllStale(cfg, t, current) == AllStale(cfg, s, current))
  {
    if s.buffer != [] {
      CountFirst(cfg, s.buffer, current);
    }
    hide CountStale, Stale;
  }

  lemma CountFirst(cfg: Config, buffer: seq<Group>, current: nat)
    requires buffer != []
    ensures CountStale(cfg, Firsts(buffer), current)
            == CountStale(cfg, Firsts(buffer[1..]), current) + if Stale(cfg, buffer[0].first, current) then 1 else 0
  {
    hide CountStale, Stale;
    CountWithout(cfg, Firsts(buffer), 0, current);
    CountOne(cfg, buffer[0].first, current);
    assert Firsts(buffer)[..0] + Firsts(buffer)[1..] == Firsts(buffer[1..]);
  }

  lemma {:induction false} StaleSteps(cfg: Config, current: nat, s: Stand, events: seq<Event>)
    ensures var t := ApplyAll(cfg, current, false, s, events);
            t.taken == s.taken && AllStale(cfg, t, current) == AllStale(cfg, s, current)
  {
    if events != [] {
      StaleSteps(cfg, current, s, events[..|events| - 1]);
      hide AllStale, Apply;
      StaleStep(cfg, current, false, ApplyAll(cfg, current, false, s, events[..|events| - 1]), events[|events| - 1]);
    }
  }

  lemma StaleAwaited(cfg: Config, current: nat, s: Stand)
    ensures AllStale(cfg, Awaited(cfg, current, s), current) == AllStale(cfg, s, current)
  {
    hide AllStale, Apply;
    StaleStep(cfg, current, false, s, Begin);
    var a := if s.waiting == [] && s.active == [] then Apply(cfg, current, false, s, Begin) else s;
    StaleStep(cfg, current, false, a, Finish(0));
    var b := if a.waiting == [] then Apply(cfg, current, false, a, Finish(0)) else a;
    StaleStep(cfg, current, false, b, Put(0));
  }

  // ---------------------------------------------------------------- a drain

  /** One turn of a drain that needs another group: anything may happen, a group is awaited, and it is taken. */
  function Turn(cfg: Config, current: nat, s: Stand, events: seq<Event>): Stand {
    Apply(cfg, current, true, Awaited(cfg, current, ApplyAll(cfg, current, false, s, events)), Take)
  }

  /** Every turn takes a group more, or leaves fewer that are too old. */
  lemma TurnGoesOn(cfg: Config, current: nat, s: Stand, events: seq<Event>)
    requires cfg.Valid() && |s.taken| < cfg.batchSize
    ensures var t := Turn(cfg, current, s, events);
            |s.taken| < |t.taken| <= cfg.batchSize || (t.taken == s.taken && AllStale(cfg, t, current) < AllStale(cfg, s, current))
  {
    hide AllStale, Apply, Awaited, Stale;
    var before := ApplyAll(cfg, current, false, s, events);
    StaleSteps(cfg, current, s, events);
    AwaitedIsThere(cfg, current, before);
    StaleAwaited(cfg, current, before);
    StaleStep(cfg, current, true, Awaited(cfg, current, before), Take);
  }

  /** The drain for rollout `r`, from its `i`-th wait on. */
  function DrainFrom(cfg: Config, script: Script, r: nat, i: nat, current: nat, s: Stand): Stand
    requires cfg.Valid()
    decreases cfg.batchSize - |s.taken|, AllStale(cfg, s, current)
  {
    if |s.taken| >= cfg.batchSize then s
    else
      TurnGoesOn(cfg, current, s, script.waits(r, i));
      DrainFrom(cfg, script, r, i + 1, current, Turn(cfg, current, s, script.waits(r, i)))
  }

  /** The next rollout is requested before step `r` trains, not deferred until after an update. */
  predicate RequestedEarly(cfg: Config, r: nat)
    requires cfg.Valid()
  {
    r + 1 < cfg.num && (r + 1) % cfg.interval != 0
  }

  /** The state in which the drain for rollout `r` goes on at the top of its step. */
  function Before(cfg: Config, script: Script, r: nat): Stand
    requires cfg.Valid()
    decreases r, 0
  {
    if r <= cfg.start then Stand([], [], [], [])
    else ApplyAll(cfg, VersionAfter(cfg, r - 1), RequestedEarly(cfg, r - 1),
                  Drained(cfg, script, r - 1).(taken := []), script.training(r - 1))
  }

  function Drained(cfg: Config, script: Script, r: nat): Stand
    requires cfg.Valid()
    decreases r, 1
  {
    DrainFrom(cfg, script, r, 0, VersionAfter(cfg, r), Before(cfg, script, r))
  }

  /** What step `r` trains on. */
  function BatchOf(cfg: Config, script: Script, r: nat): seq<Group>
    requires cfg.Valid()
  {
    Drained(cfg, script, r).taken
  }

  // ---------------------------------------------------------------- what a batch is made of

  /** No group comes from a version that is yet to come, and none was taken that is too old. */
  ghost predicate Sound(cfg: Config, current: nat, s: Stand) {
    && (forall i :: 0 <= i < |s.active| ==> s.active[i] <= current)
    && (forall i :: 0 <= i < |s.waiting| ==> s.waiting[i].first <= s.waiting[i].last <= current)
    && (forall i :: 0 <= i < |s.buffer| ==> s.buffer[i].first <= s.buffer[i].last <= current)
    && (forall i :: 0 <= i < |s.taken| ==> Usable(cfg, current, s.taken[i])) && |s.taken| <= cfg.batchSize
  }

  lemma SoundStep(cfg: Config, current: nat, draining: bool, s: Stand, e: Event)
    requires Sound(cfg, current, s)
    ensures Sound(cfg, current, Apply(cfg, current, draining, s, e))
  {}

  lemma {:induction false} SoundSteps(cfg: Config, current: nat, draining: bool, s: Stand, events: seq<Event>)
    requires Sound(cfg, current, s)
    ensures Sound(cfg, current, ApplyAll(cfg, current, draining, s, events))
    ensures !draining ==> ApplyAll(cfg, current, draining, s, events).taken == s.taken
  {
    hide Sound;
    if events != [] {
      SoundSteps(cfg, current, draining, s, events[..|events| - 1]);
      SoundStep(cfg, current, draining, ApplyAll(cfg, current, draining, s, events[..|events| - 1]), events[|events| - 1]);
    }
  }

  lemma SoundTurn(cfg: Config, current: nat, s: Stand, events: seq<Event>)
    requires Sound(cfg, current, s)
    ensures Sound(cfg, current, Turn(cfg, current, s, events))
  {
    hide Sound, Apply;
    SoundSteps(cfg, current, false, s, events);
    var before := ApplyAll(cfg, current, false, s, events);
    SoundStep(cfg, current, false, before, Begin);
    var a := if before.waiting == [] && before.active == [] then Apply(cfg, current, false, before, Begin) else before;
    SoundStep(cfg, current, false, a, Finish(0));
    var b := if a.waiting == [] then Apply(cfg, current, false, a, Finish(0)) else a;
    SoundStep(cfg, current, false, b, Put(0));
    SoundStep(cfg, current, true, Awaited(cfg, current, before), Take);
  }

  lemma {:induction false} SoundDrain(cfg: Config, script: Script, r: nat, i: nat, current: nat, s: Stand)
    requires cfg.Valid() && Sound(cfg, current, s)
    ensures Sound(cfg, current, DrainFrom(cfg, script, r, i, current, s))
    ensures |DrainFrom(cfg, script, r, i, current, s).taken| >= cfg.batchSize
    decreases cfg.batchSize - |s.taken|, AllStale(cfg, s, current)
  {
    hide Sound, Turn, AllStale;
    if |s.taken| < cfg.batchSize {
      TurnGoesOn(cfg, current, s, script.waits(r, i));
      SoundTurn(cfg, current, s, script.waits(r, i));
      SoundDrain(cfg, script, r, i + 1, current, Turn(cfg, current, s, script.waits(r, i)));
    }
  }

  lemma SoundLater(cfg: Config, current: nat, later: nat, s: Stand)
    requires Sound(cfg, current, s) && s.taken == [] && current <= later
    ensures Sound(cfg, later, s)
  {}

  lemma {:induction false} SoundBefore(cfg: Config, script: Script, r: nat)
    requires cfg.Valid() && r >= cfg.start
    ensures Sound(cfg, VersionAfter(cfg, r), Before(cfg, script, r))
    decreases r
  {
    if r > cfg.start {
      SoundBefore(cfg, script, r - 1);
      SoundDrained(cfg, script, r - 1);
      BeforeNext(cfg, script, r - 1);
      var v, done := VersionAfter(cfg, r - 1), Drained(cfg, script, r - 1).(taken := []);
      VersionStep(cfg, r - 1);
      hide Sound, ApplyAll, VersionAfter, Before, Drained;
      SoundSteps(cfg, v, RequestedEarly(cfg, r - 1), done, script.training(r - 1));
      if !RequestedEarly(cfg, r - 1) {
        SoundLater(cfg, v, VersionAfter(cfg, r), Before(cfg, script, r));
      }
    }
  }

  lemma BeforeNext(cfg: Config, script: Script, r: nat)
    requires cfg.Valid() && r >= cfg.start
    ensures Before(cfg, script, r + 1) ==
            ApplyAll(cfg, VersionAfter(cfg, r), RequestedEarly(cfg, r), Drained(cfg, script, r).(taken := []), script.training(r))
  {}

  lemma SoundDrained(cfg: Config, script: Script, r: nat)
    requires cfg.Valid() && Sound(cfg, VersionAfter(cfg, r), Before(cfg, script, r))
    ensures Sound(cfg, VersionAfter(cfg, r), Drained(cfg, script, r).(taken := []))
  {
    hide VersionAfter, Before;
    SoundDrain(cfg, script, r, 0, VersionAfter(cfg, r), Before(cfg, script, r));
  }

  /** Whatever happens in a run: step `r` trains on a full batch of groups begun and done under versions up to that of its
      request, none of them too old. */
  lemma BatchIsUsable(cfg: Config, script: Script, r: nat)
    requires cfg.Valid() && r >= cfg.start
    ensures Batch(cfg, r, BatchOf(cfg, script, r))
  {
    SoundBefore(cfg, script, r);
    hide VersionAfter, Before;
    SoundDrain(cfg, script, r, 0, VersionAfter(cfg, r), Before(cfg, script, r));
  }

  // ---------------------------------------------------------------- a generation that spans updates

  /** A group begins, gets done behind `n` others, and enters the buffer. */
  function Fresh(n: nat): seq<Event> { [Begin, Finish(n), Put(0)] }

  /** A group that begins in step `first` gets done in step `last`; in every other turn a group begins and gets done. */
  function LongScript(first: nat, last: nat): Script {
    Script((r: nat, i: nat) =>
             if r == first < last && i == 0 then [Begin] + Fresh(1)
             else if first < r == last && i == 0 then [Finish(0), Put(0)]
             else Fresh(if first <= r < last then 1 else 0),
           (r: nat) => [])
  }

  lemma ApplyThree(cfg: Config, current: nat, s: Stand, a: Event, b: Event, c: Event)
    ensures ApplyAll(cfg, current, false, s, [a, b, c]) ==
            Apply(cfg, current, false, Apply(cfg, current, false, Apply(cfg, current, false, s, a), b), c)
  {
    ApplyTwo(cfg, current, s, a, b);
    assert [a, b, c][..2] == [a, b];
  }

  lemma ApplyFour(cfg: Config, current: nat, s: Stand, a: Event, b: Event, c: Event, e: Event)
    ensures ApplyAll(cfg, current, false, s, [a, b, c, e]) ==
            Apply(cfg, current, false,
                  Apply(cfg, current, false, Apply(cfg, current, false, Apply(cfg, current, false, s, a), b), c), e)
  {
    hide Apply;
    ApplyThree(cfg, current, s, a, b, c);
    assert [a, b, c, e][..3] == [a, b, c];
  }

  lemma ApplyTwo(cfg: Config, current: nat, s: Stand, a: Event, b: Event)
    ensures ApplyAll(cfg, current, false, s, [a, b]) == Apply(cfg, current, false, Apply(cfg, current, false, s, a), b)
  {
    assert [a, b][..1] == [a] && [a][..0] == [];
    assert ApplyAll(cfg, current, false, s, [a]) == Apply(cfg, current, false, s, a);
  }

  lemma Began(cfg: Config, current: nat, active: seq<nat>, taken: seq<Group>)
    requires |active| < cfg.maxGroups
    ensures Apply(cfg, current, false, Stand(active, [], [], taken), Begin) == Stand(active + [current], [], [], taken)
  {}

  lemma FinishedLast(cfg: Config, current: nat, active: seq<nat>, begun: nat, taken: seq<Group>)
    ensures Apply(cfg, current, false, Stand(active + [begun], [], [], taken), Finish(|active|)) ==
            Stand(active, [Group(begun, current)], [], taken)
  {
    var more := active + [begun];
    assert more[..|active|] + more[|active| + 1..] == active;
    assert [] + [Group(begun, current)] == [Group(begun, current)];
  }

  lemma Entered(cfg: Config, current: nat, active: seq<nat>, g: Group, taken: seq<Group>)
    requires cfg.Valid()
    ensures Apply(cfg, current, false, Stand(active, [g], [], taken), Put(0)) == Stand(active, [], [g], taken)
  {
    assert [g][..0] + [g][1..] == [] && [] + [g] == [g];
  }

  lemma Taken(cfg: Config, current: nat, active: seq<nat>, g: Group, taken: seq<Group>)
    requires |taken| < cfg.batchSize && !Stale(cfg, g.first, current)
    ensures Apply(cfg, current, true, Awaited(cfg, current, Stand(active, [], [g], taken)), Take) == Stand(active, [], [], taken + [g])
  {
    assert [g][1..] == [];
  }

  lemma NotStaleNow(cfg: Config, current: nat)
    ensures !Stale(cfg, current, current)
  {}

  /** A turn in which a group begins and gets done takes that group. */
  lemma FreshTurn(cfg: Config, current: nat, active: seq<nat>, taken: seq<Group>)
    requires cfg.Valid() && |active| < cfg.maxGroups && |taken| < cfg.batchSize
    ensures Turn(cfg, current, Stand(active, [], [], taken), Fresh(|active|)) == Stand(active, [], [], taken + [Group(current, current)])
  {
    hide Apply, Awaited, Stale;
    ApplyThree(cfg, current, Stand(active, [], [], taken), Begin, Finish(|active|), Put(0));
    Began(cfg, current, active, taken);
    FinishedLast(cfg, current, active, current, taken);
    Entered(cfg, current, active, Group(current, current), taken);
    NotStaleNow(cfg, current);
    Taken(cfg, current, active, Group(current, current), taken);
  }

  lemma {:induction false} FreshDrain(cfg: Config, script: Script, r: nat, i: nat, current: nat, active: seq<nat>, taken: seq<Group>)
    requires cfg.Valid() && |active| < cfg.maxGroups && |taken| <= cfg.batchSize
    requires forall j: nat :: j >= i ==> script.waits(r, j) == Fresh(|active|)
    ensures var t := DrainFrom(cfg, script, r, i, current, Stand(active, [], [], taken));
            t == Stand(active, [], [], t.taken) && taken <= t.taken
    decreases cfg.batchSize - |taken|
  {
    if |taken| < cfg.batchSize {
      assert script.waits(r, i) == Fresh(|active|);
      hide Fresh, Turn;
      FreshTurn(cfg, current, active, taken);
      FreshDrain(cfg, script, r, i + 1, current, active, taken + [Group(current, current)]);
    }
  }

  /** Two groups begin, and the second gets done. */
  lemma FirstTurn(cfg: Config, current: nat)
    requires cfg.Valid() && cfg.maxGroups >= 2 && cfg.batchSize >= 1
    ensures Turn(cfg, current, Stand([], [], [], []), [Begin] + Fresh(1)) == Stand([current], [], [], [Group(current, current)])
  {
    assert [Begin] + Fresh(1) == [Begin, Begin, Finish(1), Put(0)];
    assert [] + [current] == [current] && [] + [Group(current, current)] == [Group(current, current)];
    hide Apply, Awaited, Stale, ApplyAll, Fresh;
    ApplyFour(cfg, current, Stand([], [], [], []), Begin, Begin, Finish(1), Put(0));
    Began(cfg, current, [], []);
    Began(cfg, current, [current], []);
    FinishedLast(cfg, current, [current], current, []);
    Entered(cfg, current, [current], Group(current, current), []);
    NotStaleNow(cfg, current);
    Taken(cfg, current, [current], Group(current, current), []);
  }

  /** A turn in which the group that has been generated all along gets done takes that group. */
  lemma LongTurn(cfg: Config, current: nat, begun: nat)
    requires cfg.Valid() && cfg.batchSize >= 1 && !Stale(cfg, begun, current)
    ensures Turn(cfg, current, Stand([begun], [], [], []), [Finish(0), Put(0)]) == Stand([], [], [], [Group(begun, current)])
  {
    assert [] + [begun] == [begun] && [] + [Group(begun, current)] == [Group(begun, current)];
    hide Apply, Awaited, Stale;
    ApplyTwo(cfg, current, Stand([begun], [], [], []), Finish(0), Put(0));
    FinishedLast(cfg, current, [], begun, []);
    Entered(cfg, current, [], Group(begun, current), []);
    Taken(cfg, current, [], Group(begun, current), []);
  }

  /** The state before each step of that script. */
  lemma {:induction false} LongBefore(cfg: Config, first: nat, last: nat, r: nat)
    requires cfg.Valid() && cfg.maxGroups >= 2 && cfg.batchSize >= 1 && cfg.start <= first <= last && cfg.start <= r <= last
    ensures Before(cfg, LongScript(first, last), r) == Stand(if first < r then [VersionAfter(cfg, first)] else [], [], [], [])
    decreases r
  {
    if r > cfg.start {
      LongBefore(cfg, first, last, r - 1);
      LongDrained(cfg, first, last, r - 1);
      BeforeNext(cfg, LongScript(first, last), r - 1);
      assert LongScript(first, last).training(r - 1) == [];
      hide VersionAfter, Drained, Before, LongScript;
    }
  }

  lemma LongDrained(cfg: Config, first: nat, last: nat, r: nat)
    requires cfg.Valid() && cfg.maxGroups >= 2 && cfg.batchSize >= 1 && cfg.start <= first <= last && cfg.start <= r < last
    requires Before(cfg, LongScript(first, last), r) == Stand(if first < r then [VersionAfter(cfg, first)] else [], [], [], [])
    ensures Drained(cfg, LongScript(first, last), r).(taken := []) == Stand(if first <= r then [VersionAfter(cfg, first)] else [], [], [], [])
  {
    var script, v := LongScript(first, last), VersionAfter(cfg, r);
    hide VersionAfter, Turn, Apply, Fresh, AllStale, Before;
    if first == r {
      FirstTurn(cfg, v);
      FreshDrain(cfg, script, r, 1, v, [v], [Group(v, v)]);
    } else {
      FreshDrain(cfg, script, r, 0, v, if first < r then [VersionAfter(cfg, first)] else [], []);
    }
  }

  /** Some run hands step `last` a group that was generated since step `first`, unless that is too long ago: room in the
      buffer for one group and two groups in generation are enough. */
  lemma LongGroupReached(cfg: Config, first: nat, last: nat)
    requires cfg.Valid() && cfg.maxGroups >= 2 && cfg.batchSize >= 1 && cfg.start <= first <= last
    requires !Stale(cfg, VersionAfter(cfg, first), VersionAfter(cfg, last))
    ensures var batch := BatchOf(cfg, LongScript(first, last), last);
            batch != [] && batch[0] == Group(VersionAfter(cfg, first), VersionAfter(cfg, last))
  {
    var script, v := LongScript(first, last), VersionAfter(cfg, last);
    LongBefore(cfg, first, last, last);
    hide Before, Turn, VersionAfter;
    if first < last {
      LongTurn(cfg, v, VersionAfter(cfg, first));
      FreshDrain(cfg, script, last, 1, v, [], [Group(VersionAfter(cfg, first), v)]);
    } else {
      FreshTurn(cfg, v, [], []);
      assert script.waits(last, 0) == Fresh(0) && [] + [Group(v, v)] == [Group(v, v)];
      FreshDrain(cfg, script, last, 1, v, [], [Group(v, v)]);
    }
  }

  /** The bound on the lag is met: for every version some run hands a step a group whose oldest tokens are
      `(m + 1) * interval - 1` steps behind. */
  lemma GroupLagIsTight(cfg: Config, version: nat) returns (script: Script, r: nat)
    requires cfg.Valid() && cfg.maxGroups >= 2 && cfg.batchSize >= 1 && cfg.maxStaleness.Some? && version >= 1
    ensures var m := cfg.maxStaleness.value; var batch := BatchOf(cfg, script, r);
            && r >= cfg.start && batch != [] && batch[0] == Group(version, version + m)
            && r - StepsOf(cfg, version) == (m + 1) * cfg.interval - 1
  {
    var m := cfg.maxStaleness.value;
    r := LastStepOf(cfg, version, m);
    script := LongScript(StepsOf(cfg, version), r);
    VersionOfSteps(cfg, version);
    hide VersionAfter, StepsOf, BatchOf;
    LongGroupReached(cfg, StepsOf(cfg, version), r);
  }

  /** The first step under a version, counted from one. */
  lemma VersionOfSteps(cfg: Config, version: nat)
    requires cfg.Valid() && version >= 1
    ensures StepsOf(cfg, version) >= cfg.start && VersionAfter(cfg, StepsOf(cfg, version)) == version
  {
    var k, q := cfg.interval, cfg.start / cfg.interval + version;
    DivParts(cfg.start, k);
    MulMonotone(cfg.start / k + 1, q, k);
    DivModUnique(k * q, k, q, 0);
  }

  /** The last step before the update after `m` more. */
  lemma LastStepOf(cfg: Config, version: nat, m: nat) returns (r: nat)
    requires cfg.Valid() && version >= 1
    ensures r >= StepsOf(cfg, version) && r - StepsOf(cfg, version) == (m + 1) * cfg.interval - 1
    ensures r >= cfg.start && VersionAfter(cfg, r) == version + m
  {
    var k, base := cfg.interval, cfg.start / cfg.interval + version;
    var q := base + m;
    r := k * q + (k - 1);
    DivParts(cfg.start, k);
    MulMonotone(cfg.start / k + 1, q, k);
    DivModUnique(r, k, q, k - 1);
    LastStepArithmetic(k, base, m);
  }

  lemma LastStepArithmetic(k: nat, base: nat, m: nat)
    requires k >= 1
    ensures k * (base + m) + (k - 1) - k * base == (m + 1) * k - 1
    ensures k * (base + m) >= k * base
  {
    assert k * (base + m) == k * base + m * k;
    assert (m + 1) * k == m * k + k;
  }

  /** Without a limit there is no bound: for every step some run hands it a group that was generated since the start. */
  lemma NoLimitNoBound(cfg: Config, r: nat) returns (script: Script)
    requires cfg.Valid() && cfg.maxGroups >= 2 && cfg.batchSize >= 1 && cfg.maxStaleness.None? && r >= cfg.start
    ensures var batch := BatchOf(cfg, script, r);
            batch != [] && batch[0] == Group(0, VersionAfter(cfg, r)) && r - StepsOf(cfg, 0) == r - cfg.start
  {
    script := LongScript(cfg.start, r);
    LongGroupReached(cfg, cfg.start, r);
  }
}
