/** The pipelined driver: generation of the next rollout overlaps the training on the current one. */
module AsyncDriver {

  import opened Arithmetic
  import opened Schedule
  import opened StandingProducer
  import opened Wrappers

  /** One call of a trainer: the step it is told, the rollout whose data it is handed, and what was freed before. */
  datatype Step = Step(step: nat, data: nat, freedBefore: seq<nat>)

  /** A requested rollout and the version the engines held then. */
  datatype Future = Future(id: nat, asked: nat)

  // ---------------------------------------------------------------- the log of a run

  function RolloutsRequested(cfg: Config): nat
  {
    if cfg.start >= cfg.num then 1 else Min(cfg.Steps() + 1, cfg.num - cfg.start)
  }

  /** A run requests exactly what it trains, unless it starts at its end or is cut short by the debug exit; then it
      leaves exactly one rollout that no step uses. */
  lemma LeftOverRollouts(cfg: Config)
    ensures RolloutsRequested(cfg) - cfg.Steps() == if cfg.start >= cfg.num || cfg.start + cfg.Steps() < cfg.num then 1 else 0
    ensures cfg.start < cfg.num && cfg.debugExit.None? ==> RolloutsRequested(cfg) == cfg.Steps()
  {}

  function FirstActorStep(cfg: Config): nat
  {
    if cfg.useCritic then Max(cfg.start, cfg.criticOnlySteps) else cfg.start
  }

  /** Steps `first`, `first + 1`, ... in order, each on its own rollout, with all earlier rollouts and no others freed. */
  ghost predicate InStep(cfg: Config, first: nat, end: nat, steps: seq<Step>)
    requires first >= cfg.start
  {
    && |steps| == Max(0, end - first)
    && forall i :: 0 <= i < |steps| ==> steps[i] == Step(first + i, first + i, Ids(cfg.start, first + i - cfg.start))
  }

  /** Everything requested so far: asked for once, in order, each under the weights of the staleness bound. When a
      rollout is generated for its request, no other weights were in the engines while it was. */
  ghost predicate Generations(cfg: Config, requests: seq<nat>, versionsDuring: map<nat, set<nat>>, n: nat)
    requires cfg.Valid()
  {
    && requests == Ids(cfg.start, n)
    && (forall id :: id in versionsDuring <==> cfg.start <= id < cfg.start + n)
    && (forall id :: id in versionsDuring ==> versionsDuring[id] == {RequestedUnder(cfg, id)})
  }

  /** The log after the steps below `end`. */
  ghost predicate Trained(cfg: Config, freed: seq<nat>, actorSteps: seq<Step>, criticSteps: seq<Step>, end: nat)
    requires end >= cfg.start
  {
    && freed == Ids(cfg.start, end - cfg.start)
    && InStep(cfg, FirstActorStep(cfg), end, actorSteps)
    && InStep(cfg, cfg.start, if cfg.useCritic then end else cfg.start, criticSteps)
  }

  /** In the fully asynchronous mode, every rollout below `end` was handed over as the batch that its drain collects. */
  ghost predicate Batches(cfg: Config, script: Script, batches: map<nat, seq<Group>>, end: nat)
    requires cfg.Valid()
  {
    && (forall id :: id in batches <==> cfg.fullyAsync && cfg.start <= id < end)
    && (forall id :: id in batches ==> batches[id] == BatchOf(cfg, script, id))
  }

  lemma OneMoreRequest(cfg: Config, requests: seq<nat>, versionsDuring: map<nat, set<nat>>, n: nat, steps: nat)
    requires cfg.Valid() && Generations(cfg, requests, versionsDuring, n)
    requires steps == RequestedUnder(cfg, cfg.start + n)
    ensures cfg.start + n !in versionsDuring
    ensures Generations(cfg, requests + [cfg.start + n], versionsDuring[cfg.start + n := {steps}], n + 1)
  {}

  lemma OneMoreStep(cfg: Config, freed: seq<nat>, actor: seq<Step>, critic: seq<Step>, r: nat)
    requires r >= cfg.start && Trained(cfg, freed, actor, critic, r)
    ensures Trained(cfg, freed + [r],
                    actor + if cfg.useCritic && r < cfg.criticOnlySteps then [] else [Step(r, r, freed)],
                    critic + if cfg.useCritic then [Step(r, r, freed)] else [], r + 1)
  {
    assert freed + [r] == Ids(cfg.start, r + 1 - cfg.start);
  }

  lemma OneMoreBatch(cfg: Config, script: Script, batches: map<nat, seq<Group>>, r: nat)
    requires cfg.Valid() && r >= cfg.start && Batches(cfg, script, batches, r)
    ensures Batches(cfg, script, if cfg.fullyAsync then batches[r := BatchOf(cfg, script, r)] else batches, r + 1)
  {}

  /** Every batch handed over is full, and its groups come from versions up to that of the request, none of them too old. */
  lemma BatchesAreUsable(cfg: Config, script: Script, batches: map<nat, seq<Group>>, end: nat, id: nat)
    requires cfg.Valid() && Batches(cfg, script, batches, end) && id in batches
    ensures Batch(cfg, id, batches[id])
  {
    BatchIsUsable(cfg, script, id);
  }

  lemma FirstRequest(cfg: Config, script: Script)
    requires cfg.Valid()
    ensures Generations(cfg, [cfg.start], map[cfg.start := {cfg.start}], 1)
    ensures Trained(cfg, [], [], [], cfg.start) && Batches(cfg, script, map[], cfg.start)
    ensures VersionAfter(cfg, cfg.start) == 0 && Published(cfg, cfg.start) == cfg.start
  {
    PublishedStep(cfg, cfg.start);
  }

  /** The next rollout is requested before the update at the end of this step, or after it when the drain is deferred. */
  lemma NextVersion(cfg: Config, r: nat)
    requires cfg.Valid() && r >= cfg.start
    ensures (r + 1) % cfg.interval == 0 ==> Published(cfg, r + 1) == r + 1
    ensures (r + 1) % cfg.interval != 0 ==> Published(cfg, r + 1) == Published(cfg, r)
    ensures VersionAfter(cfg, r + 1) == VersionAfter(cfg, r) + if (r + 1) % cfg.interval == 0 then 1 else 0
    ensures RequestedUnder(cfg, r + 1) == Published(cfg, if cfg.fullyAsync then r + 1 else r)
  {
    PublishedStep(cfg, r);
    VersionStep(cfg, r);
  }

  // ---------------------------------------------------------------- the driver

  class Driver {
    const cfg: Config
    const script: Script                      // what the standing producer does, and when
    var publishes: seq<nat>                   // completed steps held by each version of the engines' weights
    var completed: nat                        // completed steps held by the trainers
    var requests: seq<nat>
    var versionsDuring: map<nat, set<nat>>    // by rollout: the weights at its request and at any update during its generation
    var inFlight: set<nat>                    // rollouts being generated for their request
    var generated: set<nat>                   // rollouts generated for their request
    var active: seq<nat>                      // the standing producer: groups in generation, by the version they began under
    var waiting: seq<Group>                   // groups done that wait for room in the buffer
    var buffer: seq<Group>
    var taken: seq<Group>                     // what the drain under way has collected
    var batches: map<nat, seq<Group>>         // what was drained, by rollout
    var criticSteps: seq<Step>
    var actorSteps: seq<Step>
    var freed: seq<nat>
    var next: Option<Future>                  // the future of the rollout requested last
    var curr: Option<nat>                     // the data awaited last

    constructor (cfg: Config, script: Script)
      ensures this.cfg == cfg && this.script == script && publishes == [cfg.start] && completed == cfg.start
      ensures inFlight == generated == {} && versionsDuring == map[] && requests == freed == []
      ensures Standing() == Stand([], [], [], []) && batches == map[] && criticSteps == actorSteps == []
    {
      this.cfg, this.script := cfg, script;
      publishes, completed := [cfg.start], cfg.start;
      requests, versionsDuring, inFlight, generated := [], map[], {}, {};
      active, waiting, buffer, taken, batches := [], [], [], [], map[];
      criticSteps, actorSteps, freed := [], [], [];
      next, curr := None, None;
    }

    /** The engines' version. */
    function Version(): nat
      reads this`publishes
      requires publishes != []
    {
      |publishes| - 1
    }

    /** The standing producer and the drain. */
    function Standing(): Stand
      reads this`active, this`waiting, this`buffer, this`taken
    {
      Stand(active, waiting, buffer, taken)
    }

    /** The versions so far are the ones due after `completed` steps. */
    ghost predicate UpToDate(completed: nat)
      requires cfg.Valid()
      reads this`publishes
    {
      && |publishes| == VersionAfter(cfg, completed) + 1
      && (forall i :: 0 <= i < |publishes| ==> publishes[i] == StepsOf(cfg, i))
      && publishes[|publishes| - 1] == Published(cfg, completed)
    }

    /** `prepare_and_generate`, started eagerly. */
    method Request(id: nat) returns (f: Future)
      requires id !in versionsDuring && publishes != []
      modifies `requests, `inFlight, `versionsDuring
      ensures f == Future(id, Version())
      ensures requests == old(requests) + [id] && inFlight == old(inFlight) + if cfg.fullyAsync then {} else {id}
      ensures versionsDuring == old(versionsDuring)[id := {publishes[|publishes| - 1]}]
    {
      requests := requests + [id];
      if !cfg.fullyAsync {
        inFlight := inFlight + {id};
      }
      versionsDuring := versionsDuring[id := {publishes[|publishes| - 1]}];
      f := Future(id, |publishes| - 1);
    }

    /** One thing that happens to the standing producer or its buffer. */
    method Produce(e: Event, current: nat, draining: bool)
      modifies `active, `waiting, `buffer, `taken
      ensures Standing() == Apply(cfg, current, draining, old(Standing()), e)
    {
      match e
      case Begin =>
        if |active| + |waiting| < cfg.maxGroups {
          active := active + [current];
        }
      case Finish(k) =>
        if k < |active| {
          waiting := waiting + [Group(active[k], current)];
          active := active[..k] + active[k + 1..];
        }
      case Put(k) =>
        if k < |waiting| && |buffer| < cfg.capacity {
          buffer := buffer + [waiting[k]];
          waiting := waiting[..k] + waiting[k + 1..];
        }
      case Take =>
        if draining && |taken| < cfg.batchSize && buffer != [] {
          if !Stale(cfg, buffer[0].first, current) {
            taken := taken + [buffer[0]];
          }
          buffer := buffer[1..];
        }
    }

    method ProduceAll(events: seq<Event>, current: nat, draining: bool)
      modifies `active, `waiting, `buffer, `taken
      ensures Standing() == ApplyAll(cfg, current, draining, old(Standing()), events)
    {
      hide Apply;
      for i := 0 to |events|
        invariant Standing() == ApplyAll(cfg, current, draining, old(Standing()), events[..i])
      {
        assert events[..i + 1][..i] == events[..i] && events[..i + 1][i] == events[i];
        Produce(events[i], current, draining);
      }
      assert events[..|events|] == events;
    }

    /** Waits until the buffer holds a group. */
    method WaitForGroup(current: nat)
      modifies `active, `waiting, `buffer, `taken
      ensures Standing() == Awaited(cfg, current, old(Standing()))
    {
      hide Apply;
      if buffer == [] {
        if waiting == [] && active == [] {
          Produce(Begin, current, false);
        }
        if waiting == [] {
          Produce(Finish(0), current, false);
        }
        Produce(Put(0), current, false);
      }
    }

    /** Collects a batch, one group after the other in the order in which they entered the buffer, without those that are
        too old. Only finitely many are, so the drain ends. */
    method Drain(r: nat, current: nat)
      requires cfg.Valid()
      modifies `active, `waiting, `buffer, `taken, `batches
      ensures Standing() == DrainFrom(cfg, script, r, 0, current, old(Standing())).(taken := [])
      ensures batches == old(batches)[r := DrainFrom(cfg, script, r, 0, current, old(Standing())).taken]
    {
      hide Apply, Awaited, AllStale, ApplyAll;
      var i := 0;
      while |taken| < cfg.batchSize
        invariant batches == old(batches)
        invariant DrainFrom(cfg, script, r, i, current, Standing()) == DrainFrom(cfg, script, r, 0, current, old(Standing()))
        decreases cfg.batchSize - |taken|, AllStale(cfg, Standing(), current)
      {
        TurnGoesOn(cfg, current, Standing(), script.waits(r, i));
        ghost var before := Standing();
        ProduceAll(script.waits(r, i), current, false);
        WaitForGroup(current);
        Produce(Take, current, true);
        assert Standing() == Turn(cfg, current, before, script.waits(r, i));
        i := i + 1;
      }
      batches := batches[r := taken];
      taken := [];
    }

    /** Any of the generations for a request may finish while the driver does something else. */
    method Progress()
      modifies `inFlight, `generated
      ensures inFlight <= old(inFlight) && generated >= old(generated)
      ensures inFlight + generated == old(inFlight + generated)
    {
      var finished :| finished <= inFlight;
      inFlight, generated := inFlight - finished, generated + finished;
    }

    /** Awaiting a rollout that was generated for its request, perhaps long ago. */
    method Await(id: nat)
      requires id in inFlight + generated
      modifies `inFlight, `generated
      ensures inFlight <= old(inFlight) - {id} && inFlight + generated == old(inFlight + generated) && id in generated
    {
      Progress();
      inFlight, generated := inFlight - {id}, generated + {id};
    }

    /** `update_weights`: the engines take over the trainers' weights, also under generations in flight. */
    method UpdateWeights()
      modifies `publishes, `versionsDuring
      ensures publishes == old(publishes) + [completed]
      ensures versionsDuring.Keys == old(versionsDuring).Keys && (inFlight == {} ==> versionsDuring == old(versionsDuring))
      ensures forall id :: id in versionsDuring ==>
                versionsDuring[id] == old(versionsDuring)[id] + if id in inFlight then {completed} else {}
    {
      publishes := publishes + [completed];
      ghost var during := versionsDuring;
      versionsDuring := map id | id in versionsDuring :: versionsDuring[id] + if id in inFlight then {completed} else {};
      if inFlight == {} {
        assert forall id :: id in during ==> during[id] + {} == during[id];
        assert versionsDuring == during;
      }
    }

    /** Training on one rollout's data, then releasing it. */
    method TrainAndFree(rolloutId: nat, data: nat)
      modifies `criticSteps, `actorSteps, `freed, `completed
      ensures criticSteps == old(criticSteps) + if cfg.useCritic then [Step(rolloutId, data, old(freed))] else []
      ensures actorSteps == old(actorSteps)
                            + if cfg.useCritic && rolloutId < cfg.criticOnlySteps then [] else [Step(rolloutId, data, old(freed))]
      ensures freed == old(freed) + [data] && completed == old(completed) + 1
    {
      if cfg.useCritic {
        criticSteps := criticSteps + [Step(rolloutId, data, freed)];
        if rolloutId >= cfg.criticOnlySteps {
          actorSteps := actorSteps + [Step(rolloutId, data, freed)];
        }
      } else {
        actorSteps := actorSteps + [Step(rolloutId, data, freed)];
      }
      completed := completed + 1;
      freed := freed + [data];
    }

    /** The slot holds rollout `r`'s future, asked under the engines' present version when it is to be drained, or its
        data is already at hand. */
    ghost predicate Held(r: nat)
      requires publishes != []
      reads this`next, this`curr, this`inFlight, this`generated, this`publishes
    {
      && inFlight <= {r}
      && if cfg.fullyAsync then next == Some(Future(r, Version())) && inFlight == {}
         else (next.Some? && next.value.id == r && r in inFlight + generated) || (next == None && curr == Some(r) && inFlight == {})
    }

    /** The state at the top of the loop. */
    ghost predicate AtTop(r: nat)
      requires cfg.Valid() && r >= cfg.start
      reads this
    {
      && UpToDate(r) && completed == r && Trained(cfg, freed, actorSteps, criticSteps, r)
      && Batches(cfg, script, batches, r) && (cfg.fullyAsync ==> Standing() == Before(cfg, script, r))
      && Generations(cfg, requests, versionsDuring, if r < cfg.num || r == cfg.start then r - cfg.start + 1 else r - cfg.start)
      && inFlight <= {r} && (cfg.fullyAsync ==> inFlight == {})
      && (r < cfg.num ==> Held(r))
    }

    /** Waits for rollout `r`, or drains its batch. */
    method TakeData(r: nat)
      requires cfg.Valid() && cfg.start <= r && publishes != [] && Held(r) && Batches(cfg, script, batches, r)
      requires Version() == VersionAfter(cfg, r) && (cfg.fullyAsync ==> Standing() == Before(cfg, script, r))
      modifies `curr, `inFlight, `generated, `active, `waiting, `buffer, `taken, `batches
      ensures curr == Some(r) && Batches(cfg, script, batches, r + 1)
      ensures inFlight == {} && (next.Some? && !cfg.fullyAsync ==> next.value.id in generated)
      ensures cfg.fullyAsync ==> Standing() == Drained(cfg, script, r).(taken := [])
    {
      hide VersionAfter, Batches, DrainFrom, Before;
      OneMoreBatch(cfg, script, batches, r);
      if cfg.fullyAsync {
        Drain(r, next.value.asked);
        curr := Some(r);
      } else if next.Some? {
        Await(next.value.id);
        curr := Some(r);
      }
    }

    /** Requests rollout `r`, while nothing else is in flight for a request. */
    method RequestNext(r: nat)
      requires cfg.Valid() && cfg.start < r && publishes != [] && inFlight == {}
      requires Generations(cfg, requests, versionsDuring, r - cfg.start)
      requires publishes[|publishes| - 1] == RequestedUnder(cfg, r)
      modifies `next, `requests, `inFlight, `versionsDuring
      ensures Generations(cfg, requests, versionsDuring, r + 1 - cfg.start)
      ensures next == Some(Future(r, |publishes| - 1)) && inFlight == if cfg.fullyAsync then {} else {r}
    {
      OneMoreRequest(cfg, requests, versionsDuring, r - cfg.start, publishes[|publishes| - 1]);
      hide Generations;
      var f := Request(r);
      next := Some(f);
    }

    /** Waits for rollout `r` and, unless the drain is deferred past an update, requests the next one; then generation goes
        on while the step trains. */
    method AwaitAndRequest(r: nat) returns (deferDrain: bool)
      requires cfg.Valid() && cfg.start <= r < cfg.num && AtTop(r)
      modifies `next, `curr, `requests, `inFlight, `generated, `versionsDuring, `active, `waiting, `buffer, `taken, `batches
      ensures deferDrain == (cfg.fullyAsync && r + 1 < cfg.num && (r + 1) % cfg.interval == 0)
      ensures curr == Some(r) && BetweenRequests(r, r + 1 < cfg.num && !deferDrain)
      ensures Batches(cfg, script, batches, r + 1) && (cfg.fullyAsync ==> Standing() == Before(cfg, script, r + 1))
    {
      hide Published, Generations, Trained, RequestedUnder, VersionAfter, StepsOf, Batches, Drained, Before;
      TakeData(r);
      var hasNext := r + 1 < cfg.num;
      deferDrain := cfg.fullyAsync && hasNext && (r + 1) % cfg.interval == 0;
      if hasNext && !deferDrain {
        NextVersion(cfg, r);
        RequestNext(r + 1);
      }
      Meanwhile(r, hasNext && !deferDrain);
    }

    /** What goes on while step `r` trains: the next drain as well, if it has been asked for. */
    method Meanwhile(r: nat, requested: bool)
      requires cfg.Valid() && cfg.start <= r && |publishes| == VersionAfter(cfg, r) + 1
      requires cfg.fullyAsync ==> Standing() == Drained(cfg, script, r).(taken := []) && requested == RequestedEarly(cfg, r)
      modifies `inFlight, `generated, `active, `waiting, `buffer, `taken
      ensures inFlight <= old(inFlight) && generated >= old(generated) && inFlight + generated == old(inFlight + generated)
      ensures cfg.fullyAsync ==> Standing() == Before(cfg, script, r + 1) && inFlight == old(inFlight)
    {
      hide VersionAfter, Drained, Before, ApplyAll;
      if cfg.fullyAsync {
        BeforeNext(cfg, script, r);
        ProduceAll(script.training(r), |publishes| - 1, requested);
      } else {
        Progress();
      }
    }

    /** Rollout `r` is at hand; the next one is requested, or nothing is in flight for a request. */
    ghost predicate BetweenRequests(r: nat, requested: bool)
      requires cfg.Valid() && r >= cfg.start
      reads this`requests, this`versionsDuring, this`inFlight, this`generated, this`next, this`publishes
    {
      && Generations(cfg, requests, versionsDuring, r + 1 - cfg.start + if requested then 1 else 0)
      && publishes != [] && (cfg.fullyAsync ==> inFlight == {})
      && if requested then
           inFlight <= {r + 1} && next == Some(Future(r + 1, |publishes| - 1)) && (cfg.fullyAsync || r + 1 in inFlight + generated)
         else inFlight == {} && (next.Some? && !cfg.fullyAsync ==> next.value.id in generated)
    }

    /** The update at the end of step `r`. A generation for a request is awaited first, so that it does not see two
        versions; the standing producer goes on, but the next drain is asked for under the new version. */
    method PublishWhenDue(r: nat, deferDrain: bool)
      requires cfg.Valid() && cfg.start <= r < cfg.num && completed == r + 1 && UpToDate(r)
      requires deferDrain == (cfg.fullyAsync && r + 1 < cfg.num && (r + 1) % cfg.interval == 0)
      requires BetweenRequests(r, r + 1 < cfg.num && !deferDrain)
      requires Trained(cfg, freed, actorSteps, criticSteps, r + 1) && Batches(cfg, script, batches, r + 1)
      requires cfg.fullyAsync ==> Standing() == Before(cfg, script, r + 1)
      modifies `next, `curr, `requests, `inFlight, `generated, `publishes, `versionsDuring
      ensures AtTop(r + 1)
    {
      hide Published, Generations, Trained, RequestedUnder, VersionAfter, StepsOf, Batches, Before;
      NextVersion(cfg, r);
      VersionHolds(cfg, r + 1);
      if (r + 1) % cfg.interval == 0 {
        if !cfg.fullyAsync {
          AwaitPending();
        }
        UpdateWeights();
        if deferDrain {
          RequestNext(r + 1);
        }
      }
    }

    /** Waits for the future in the slot, if there is one, and empties it. */
    method AwaitPending()
      requires !cfg.fullyAsync && (next.Some? ==> next.value.id in inFlight + generated && inFlight <= {next.value.id})
      requires next.None? ==> inFlight == {}
      modifies `next, `curr, `inFlight, `generated
      ensures inFlight == {} && next == None
      ensures curr == if old(next).Some? then Some(old(next).value.id) else None
    {
      if next.Some? {
        Await(next.value.id);
        curr := Some(next.value.id);
      } else {
        curr := None;
      }
      next := None;
    }

    /** One turn of the loop, from top to top. */
    method TrainStep(r: nat)
      requires cfg.Valid() && cfg.start <= r < cfg.num && AtTop(r)
      modifies this
      ensures AtTop(r + 1)
    {
      hide Published, Generations, Trained, BetweenRequests, RequestedUnder, VersionAfter, StepsOf, Batches, Before;
      var deferDrain := AwaitAndRequest(r);
      OneMoreStep(cfg, freed, actorSteps, criticSteps, r);
      TrainAndFree(r, curr.value);
      PublishWhenDue(r, deferDrain);
    }

    /** The first request. */
    method Start()
      requires cfg.Valid() && publishes == [cfg.start] && completed == cfg.start
      requires inFlight == generated == {} && versionsDuring == map[] && requests == freed == []
      requires Standing() == Stand([], [], [], []) && batches == map[] && criticSteps == actorSteps == []
      modifies this
      ensures AtTop(cfg.start)
    {
      hide Published, Generations, Trained, Batches, VersionAfter;
      FirstRequest(cfg, script);
      var f := Request(cfg.start);
      assert requests == [cfg.start];
      next, curr := Some(f), None;
    }

    /** A whole run. Step `r` trains rollout `r`, with exactly the earlier rollouts freed; every rollout is requested
        once, under the weights of the staleness bound. A rollout generated for its request saw no other weights while it
        was; in the fully asynchronous mode step `r` was handed the batch that its drain collects under the script. */
    method Run()
      requires cfg.Valid() && publishes == [cfg.start] && completed == cfg.start
      requires inFlight == generated == {} && versionsDuring == map[] && requests == freed == []
      requires Standing() == Stand([], [], [], []) && batches == map[] && criticSteps == actorSteps == []
      modifies this
      ensures Generations(cfg, requests, versionsDuring, RolloutsRequested(cfg))
      ensures Trained(cfg, freed, actorSteps, criticSteps, cfg.start + cfg.Steps())
      ensures Batches(cfg, script, batches, cfg.start + cfg.Steps())
      ensures completed == cfg.start + cfg.Steps() && UpToDate(completed)
      ensures forall id :: id in inFlight ==> id == completed
    {
      hide Published, Generations, Trained, Batches, VersionAfter, Held, UpToDate, Before;
      Start();
      var r := cfg.start;
      while r < cfg.num
        invariant cfg.start <= r && (r > cfg.start ==> r <= cfg.num)
        invariant AtTop(r)
        invariant r == cfg.start || !ExitAfter(r - cfg.start, cfg.debugExit)
      {
        TrainStep(r);
        r := r + 1;
        if ExitAfter(r - cfg.start, cfg.debugExit) {
          break;
        }
      }
    }
  }
}
