/** The synchronous driver: engines and trainers take turns on the same memory. */
module SyncDriver {

  import opened Schedule
  import opened Wrappers

  /** `colocate` puts engines and trainers on the same GPUs; `gpuPeak` is the "gpu" peak device;
      `kvLevel` and `weightLevel` say what the rollout offload level names;
      `saveGiven` that the rollout data is saved as well. */
  datatype Config = Config(
    start: nat, num: nat, debugExit: Option<int>, evalInterval: Option<nat>, saveInterval: Option<nat>,
    perEpoch: Option<nat>, skipFirstEval: bool,
    colocate: bool, offloadRollout: bool, offloadTrain: bool, gpuPeak: bool, kvLevel: bool, weightLevel: bool,
    useCritic: bool, criticOnlySteps: nat,
    saveGiven: bool, evalUsesSnapshots: bool, exportsSnapshots: bool, evalMaxInFlight: nat, skipWhenBusy: bool)
  {
    predicate Valid() {
      evalInterval != Some(0) && saveInterval != Some(0) && perEpoch != Some(0) && evalMaxInFlight >= 1
    }

    /** What is asserted before anything else: the "gpu" peak moves both sides and has no critic; evals on snapshots have
        an interval and GPUs of their own. */
    predicate Accepted() {
      && (gpuPeak ==> offloadTrain && offloadRollout && !useCritic)
      && (evalUsesSnapshots ==> evalInterval.Some? && !colocate)
    }

    function Steps(): nat { StepsRun(start, num, debugExit) }

    predicate EvalDue(r: nat) requires Valid() { Due(r, evalInterval, perEpoch, num) }

    /** Actor updates contained in the weights once every step below `end` is done. */
    function ActorUpdates(end: nat): nat
      requires end >= start
    {
      start + Max(0, end - if useCritic then Max(start, criticOnlySteps) else start)
    }
  }

  datatype Work = Rollout | Eval

  /** A dispatch to the engines, with what it finds there and the steps finished before it. */
  datatype Dispatch = Dispatch(work: Work, id: nat, weights: bool, kv: bool, engineUpdates: nat, stepsDone: nat)

  /** Everything is in place for a dispatch, and its weights carry every step so far. */
  ghost predicate Served(cfg: Config, d: Dispatch) {
    && d.weights && d.kv && d.engineUpdates == cfg.ActorUpdates(cfg.start + d.stepsDone)
    && (d.work == Rollout ==> d.id == cfg.start + d.stepsDone)
  }

  /** The rollouts of a log, in the order in which they were dispatched. */
  function RolloutIds(log: seq<Dispatch>): seq<nat> {
    if log == [] then []
    else RolloutIds(log[..|log| - 1]) + if log[|log| - 1].work == Rollout then [log[|log| - 1].id] else []
  }

  /** Every dispatch was served, and the rollouts were dispatched once each, in order. */
  ghost predicate Faithful(cfg: Config, log: seq<Dispatch>) {
    && (forall d :: d in log ==> Served(cfg, d))
    && RolloutIds(log) == Ids(cfg.start, |RolloutIds(log)|)
  }

  // ---------------------------------------------------------------- the schedule of evals and saves

  /** What comes from outside: the rollouts after which a save is asked for, and for the `i`-th eval point how many of the
      evals in flight have settled by then and whether its export works. */
  datatype Outside = Outside(saves: set<nat>, settled: nat -> nat, exports: nat -> bool)

  datatype Outcome = Sent | Skipped | ExportFailed

  /** One eval point: whether the caller named a snapshot or forced it, and how many evals it found in flight. */
  datatype EvalPoint = EvalPoint(id: nat, stepsDone: nat, given: bool, forced: bool, inFlight: nat, outcome: Outcome)

  datatype Model = Actor | Critic | RolloutData

  /** One file written, with the actor updates contained in the actor's weights then. */
  datatype Saved = Saved(rollout: nat, model: Model, updates: nat)

  /** The rollouts from `from` to `end` that are asked for or due: the last one of all, every multiple of the interval and
      every end of an epoch; nothing but what is asked for without an interval. Each once, in order. */
  ghost predicate Periodic(cfg: Config, ids: seq<nat>, from: nat, end: nat, interval: Option<nat>, asked: set<nat>)
    requires cfg.Valid() && interval != Some(0)
  {
    && (forall i, j :: 0 <= i < j < |ids| ==> ids[i] < ids[j])
    && forall r: nat :: r in ids <==>
         && from <= r < end
         && (r in asked || (interval.Some? && (r + 1 == cfg.num || (r + 1) % interval.value == 0
                                               || (cfg.perEpoch.Some? && (r + 1) % cfg.perEpoch.value == 0))))
  }

  lemma PeriodicStep(cfg: Config, ids: seq<nat>, from: nat, end: nat, interval: Option<nat>, asked: set<nat>)
    requires cfg.Valid() && interval != Some(0) && Periodic(cfg, ids, from, end, interval, asked)
    ensures Periodic(cfg, ids + if end >= from && (end in asked || Due(end, interval, cfg.perEpoch, cfg.num)) then [end] else [],
                     from, end + 1, interval, asked)
  {
    assert forall i :: 0 <= i < |ids| ==> ids[i] in ids;
  }

  lemma DueAtTheEnd(r: nat, interval: Option<nat>, perEpoch: Option<nat>, num: nat)
    requires interval != Some(0) && perEpoch != Some(0)
    ensures Due(r, interval, perEpoch, num) ==> interval.Some?
    ensures r + 1 == num && interval.Some? ==> Due(r, interval, perEpoch, num)
  {}

  function PointIds(points: seq<EvalPoint>): seq<nat> {
    seq(|points|, i requires 0 <= i < |points| => points[i].id)
  }

  /** The evals that are in flight after a point: one has been waited for if there were too many, and it has joined them if it
      was sent. */
  function InFlightAfter(cfg: Config, p: EvalPoint): nat {
    if !cfg.evalUsesSnapshots then 0
    else if p.outcome == Skipped then p.inFlight
    else Max(0, Min(p.inFlight, cfg.evalMaxInFlight - 1)) + if p.outcome == Sent then 1 else 0
  }

  /** What becomes of the `i`-th eval point, if `before` evals were in flight. A blocking eval takes place; one on a snapshot
      is skipped exactly when too many are in flight, the policy is to skip and it is not forced, and can fail only in
      exporting a snapshot of its own. */
  ghost predicate OutcomeFits(cfg: Config, outside: Outside, i: nat, before: nat, p: EvalPoint) {
    if !cfg.evalUsesSnapshots then p.outcome == Sent && p.inFlight == 0
    else
      && p.inFlight == Max(0, before - outside.settled(i))
      && p.outcome == if p.inFlight >= cfg.evalMaxInFlight && cfg.skipWhenBusy && !p.forced then Skipped
                      else if cfg.exportsSnapshots && !p.given && !outside.exports(i) then ExportFailed else Sent
  }

  /** The evals in flight after all points. */
  function InFlight(cfg: Config, points: seq<EvalPoint>): nat {
    if points == [] then 0 else InFlightAfter(cfg, points[|points| - 1])
  }

  ghost predicate OutcomesFit(cfg: Config, outside: Outside, points: seq<EvalPoint>) {
    forall i :: 0 <= i < |points| ==> OutcomeFits(cfg, outside, i, InFlight(cfg, points[..i]), points[i])
  }

  lemma OneMoreOutcome(cfg: Config, outside: Outside, points: seq<EvalPoint>, p: EvalPoint)
    requires OutcomesFit(cfg, outside, points) && OutcomeFits(cfg, outside, |points|, InFlight(cfg, points), p)
    ensures OutcomesFit(cfg, outside, points + [p]) && InFlight(cfg, points + [p]) == InFlightAfter(cfg, p)
    ensures !cfg.evalUsesSnapshots ==> InFlight(cfg, points) == 0
  {
    assert !cfg.evalUsesSnapshots ==> InFlight(cfg, points) == 0;
    hide OutcomeFits, InFlight, InFlightAfter;
    forall i | 0 <= i < |points| + 1 ensures OutcomeFits(cfg, outside, i, InFlight(cfg, (points + [p])[..i]), (points + [p])[i]) {
      assert (points + [p])[..i] == points[..i];
    }
    LastInFlight(cfg, points, p);
  }

  lemma LastInFlight(cfg: Config, points: seq<EvalPoint>, p: EvalPoint)
    ensures InFlight(cfg, points + [p]) == InFlightAfter(cfg, p)
  {}

  /** The eval points after `done` steps: one before the first step, of the checkpoint that was given or of the last step
      before a resumed run, and then one after each rollout at which an eval is due, with that rollout trained on. */
  ghost predicate EvalsOnSchedule(cfg: Config, points: seq<EvalPoint>, done: nat)
    requires cfg.Valid()
  {
    var first := if cfg.evalInterval.Some? && (cfg.num == 0 || (cfg.num > cfg.start && !cfg.skipFirstEval)) then 1 else 0;
    && |points| >= first
    && (first == 1 ==>
          && points[0].stepsDone == 0 && !points[0].forced && (points[0].given <==> cfg.start == 0 || cfg.num == 0)
          && points[0].id == if cfg.start == 0 || cfg.num == 0 then 0 else cfg.start - 1)
    && Periodic(cfg, PointIds(points[first..]), cfg.start, cfg.start + done, cfg.evalInterval, {})
    && (forall p :: p in points[first..] ==>
          cfg.start + p.stepsDone == p.id + 1 && p.forced == (p.id + 1 == cfg.num) && !p.given)
  }

  lemma EvalStep(cfg: Config, points: seq<EvalPoint>, done: nat, now: seq<EvalPoint>)
    requires cfg.Valid() && EvalsOnSchedule(cfg, points, done)
    requires |now| == if Due(cfg.start + done, cfg.evalInterval, cfg.perEpoch, cfg.num) then 1 else 0
    requires forall p :: p in now ==>
               p.id == cfg.start + done && p.stepsDone == done + 1 && p.forced == (p.id + 1 == cfg.num) && !p.given
    ensures EvalsOnSchedule(cfg, points + now, done + 1)
  {
    hide Periodic, Due;
    var first := if cfg.evalInterval.Some? && (cfg.num == 0 || (cfg.num > cfg.start && !cfg.skipFirstEval)) then 1 else 0;
    PeriodicStep(cfg, PointIds(points[first..]), cfg.start, cfg.start + done, cfg.evalInterval, {});
    assert (points + now)[first..] == points[first..] + now;
    assert PointIds(points[first..] + now)
        == PointIds(points[first..]) + if Due(cfg.start + done, cfg.evalInterval, cfg.perEpoch, cfg.num) then [cfg.start + done] else [];
  }

  /** Id and steps done of the evals that went to the engines, and of the points that were sent there. */
  function EvalsIn(log: seq<Dispatch>): seq<(nat, nat)> {
    if log == [] then []
    else EvalsIn(log[..|log| - 1])
         + if log[|log| - 1].work == Eval then [(log[|log| - 1].id, log[|log| - 1].stepsDone)] else []
  }

  function SentOf(points: seq<EvalPoint>): seq<(nat, nat)> {
    if points == [] then []
    else SentOf(points[..|points| - 1])
         + if points[|points| - 1].outcome == Sent then [(points[|points| - 1].id, points[|points| - 1].stepsDone)] else []
  }

  /** How many points export a snapshot of their own, successfully or not. */
  function ExportsOf(cfg: Config, points: seq<EvalPoint>): nat {
    if points == [] then 0
    else ExportsOf(cfg, points[..|points| - 1])
         + if cfg.evalUsesSnapshots && cfg.exportsSnapshots && !points[|points| - 1].given && points[|points| - 1].outcome != Skipped
           then 1 else 0
  }

  lemma OneMorePoint(cfg: Config, points: seq<EvalPoint>, p: EvalPoint)
    ensures SentOf(points + [p]) == SentOf(points) + if p.outcome == Sent then [(p.id, p.stepsDone)] else []
    ensures ExportsOf(cfg, points + [p]) == ExportsOf(cfg, points)
      + if cfg.evalUsesSnapshots && cfg.exportsSnapshots && !p.given && p.outcome != Skipped then 1 else 0
  {
    assert (points + [p])[..|points|] == points;
  }

  function SavedIds(saves: seq<Saved>, model: Model): seq<nat> {
    if saves == [] then []
    else SavedIds(saves[..|saves| - 1], model) + if saves[|saves| - 1].model == model then [saves[|saves| - 1].rollout] else []
  }

  lemma OneMoreFile(saves: seq<Saved>, file: Saved, model: Model)
    ensures SavedIds(saves + [file], model) == SavedIds(saves, model) + if file.model == model then [file.rollout] else []
  {
    assert (saves + [file])[..|saves|] == saves;
  }

  /** The files after `done` steps: at each rollout that is due or asked for from outside, the models there are (the actor
      from the end of the critic-only steps), with the updates of all steps so far, and the rollout data. */
  ghost predicate SavesOnSchedule(cfg: Config, asked: set<nat>, saves: seq<Saved>, done: nat)
    requires cfg.Valid()
  {
    && Periodic(cfg, SavedIds(saves, Actor), if cfg.useCritic then Max(cfg.start, cfg.criticOnlySteps) else cfg.start,
                cfg.start + done, cfg.saveInterval, asked)
    && (if cfg.useCritic then Periodic(cfg, SavedIds(saves, Critic), cfg.start, cfg.start + done, cfg.saveInterval, asked)
        else SavedIds(saves, Critic) == [])
    && (if cfg.saveGiven then Periodic(cfg, SavedIds(saves, RolloutData), cfg.start, cfg.start + done, cfg.saveInterval, asked)
        else SavedIds(saves, RolloutData) == [])
    && CarryUpdates(cfg, saves)
  }

  /** Every file carries the updates of all steps up to its rollout. */
  ghost predicate CarryUpdates(cfg: Config, saves: seq<Saved>) {
    forall f :: f in saves ==> f.rollout >= cfg.start && f.updates == cfg.ActorUpdates(f.rollout + 1)
  }

  /** What one save writes, in order. */
  function FilesOf(cfg: Config, r: nat, updates: nat): seq<Saved> {
    (if !cfg.useCritic || r >= cfg.criticOnlySteps then [Saved(r, Actor, updates)] else [])
    + (if cfg.useCritic then [Saved(r, Critic, updates)] else [])
    + (if cfg.saveGiven then [Saved(r, RolloutData, updates)] else [])
  }

  predicate Writes(cfg: Config, r: nat, model: Model) {
    match model
    case Actor => !cfg.useCritic || r >= cfg.criticOnlySteps
    case Critic => cfg.useCritic
    case RolloutData => cfg.saveGiven
  }

  lemma FilesIds(cfg: Config, saves: seq<Saved>, r: nat, updates: nat, model: Model)
    ensures SavedIds(saves + FilesOf(cfg, r, updates), model)
         == SavedIds(saves, model) + if Writes(cfg, r, model) then [r] else []
  {
    hide SavedIds;
    var actor := if !cfg.useCritic || r >= cfg.criticOnlySteps then [Saved(r, Actor, updates)] else [];
    var critic := if cfg.useCritic then [Saved(r, Critic, updates)] else [];
    var data := if cfg.saveGiven then [Saved(r, RolloutData, updates)] else [];
    assert saves + FilesOf(cfg, r, updates) == saves + actor + critic + data;
    assert saves + [] == saves && saves + actor + [] == saves + actor && saves + actor + critic + [] == saves + actor + critic;
    OneMoreFile(saves, Saved(r, Actor, updates), model);
    OneMoreFile(saves + actor, Saved(r, Critic, updates), model);
    OneMoreFile(saves + actor + critic, Saved(r, RolloutData, updates), model);
  }

  lemma SaveStep(cfg: Config, asked: set<nat>, saves: seq<Saved>, done: nat)
    requires cfg.Valid() && SavesOnSchedule(cfg, asked, saves, done)
    ensures SavesOnSchedule(
              cfg, asked,
              saves + if cfg.start + done in asked || Due(cfg.start + done, cfg.saveInterval, cfg.perEpoch, cfg.num)
                      then FilesOf(cfg, cfg.start + done, cfg.ActorUpdates(cfg.start + done + 1)) else [], done + 1)
  {
    hide SavesOnSchedule, Due, FilesOf;
    if cfg.start + done in asked || Due(cfg.start + done, cfg.saveInterval, cfg.perEpoch, cfg.num) {
      SavedNow(cfg, asked, saves, done);
    } else {
      NotSavedNow(cfg, asked, saves, done);
      assert saves + [] == saves;
    }
  }

  lemma NotSavedNow(cfg: Config, asked: set<nat>, saves: seq<Saved>, done: nat)
    requires cfg.Valid() && SavesOnSchedule(cfg, asked, saves, done)
    requires cfg.start + done !in asked && !Due(cfg.start + done, cfg.saveInterval, cfg.perEpoch, cfg.num)
    ensures SavesOnSchedule(cfg, asked, saves, done + 1)
  {
    hide SavedIds;
  }

  lemma SavedNow(cfg: Config, asked: set<nat>, saves: seq<Saved>, done: nat)
    requires cfg.Valid() && SavesOnSchedule(cfg, asked, saves, done)
    requires cfg.start + done in asked || Due(cfg.start + done, cfg.saveInterval, cfg.perEpoch, cfg.num)
    ensures SavesOnSchedule(cfg, asked, saves + FilesOf(cfg, cfg.start + done, cfg.ActorUpdates(cfg.start + done + 1)), done + 1)
  {
    var r := cfg.start + done;
    hide Periodic, Due, SavedIds, FilesOf, CarryUpdates, Config.ActorUpdates;
    var updates := cfg.ActorUpdates(r + 1);
    FilesCarryUpdates(cfg, saves, r);
    ModelSavedNow(cfg, asked, saves, r, updates, Actor, if cfg.useCritic then Max(cfg.start, cfg.criticOnlySteps) else cfg.start);
    ModelSavedNow(cfg, asked, saves, r, updates, Critic, cfg.start);
    ModelSavedNow(cfg, asked, saves, r, updates, RolloutData, cfg.start);
  }

  lemma ModelSavedNow(cfg: Config, asked: set<nat>, saves: seq<Saved>, r: nat, updates: nat, model: Model, from: nat)
    requires cfg.Valid() && (r in asked || Due(r, cfg.saveInterval, cfg.perEpoch, cfg.num))
    ensures !Writes(cfg, r, model) ==> SavedIds(saves + FilesOf(cfg, r, updates), model) == SavedIds(saves, model)
    ensures Periodic(cfg, SavedIds(saves, model), from, r, cfg.saveInterval, asked) && (Writes(cfg, r, model) <==> r >= from) ==>
              Periodic(cfg, SavedIds(saves + FilesOf(cfg, r, updates), model), from, r + 1, cfg.saveInterval, asked)
  {
    hide SavedIds, FilesOf, Periodic, Due, Writes;
    FilesIds(cfg, saves, r, updates, model);
    var before, after := SavedIds(saves, model), SavedIds(saves + FilesOf(cfg, r, updates), model);
    assert !Writes(cfg, r, model) ==> after == before + [] == before;
    if Periodic(cfg, before, from, r, cfg.saveInterval, asked) && (Writes(cfg, r, model) <==> r >= from) {
      PeriodicStep(cfg, before, from, r, cfg.saveInterval, asked);
    }
  }

  lemma FilesCarryUpdates(cfg: Config, saves: seq<Saved>, r: nat)
    requires CarryUpdates(cfg, saves) && r >= cfg.start
    ensures CarryUpdates(cfg, saves + FilesOf(cfg, r, cfg.ActorUpdates(r + 1)))
  {
    hide Config.ActorUpdates;
  }

  lemma FaithfulStep(cfg: Config, log: seq<Dispatch>, d: Dispatch)
    requires Faithful(cfg, log) && Served(cfg, d)
    requires d.work == Rollout ==> d.id == cfg.start + |RolloutIds(log)|
    ensures Faithful(cfg, log + [d])
    ensures |RolloutIds(log + [d])| == |RolloutIds(log)| + if d.work == Rollout then 1 else 0
    ensures EvalsIn(log + [d]) == EvalsIn(log) + if d.work == Eval then [(d.id, d.stepsDone)] else []
  {
    assert (log + [d])[..|log|] == log;
    assert RolloutIds(log + [d]) == RolloutIds(log) + if d.work == Rollout then [d.id] else [];
  }

  /** The memory the driver moves, and the history the properties are about. */
  class Cluster {
    const cfg: Config
    const outside: Outside
    var weights: bool          // engine weights resident
    var kv: bool               // engine KV cache resident
    var actor: bool            // actor state resident
    var critic: bool           // critic state resident
    var engineUpdates: nat     // actor updates contained in the engines' weights
    var actorUpdates: nat
    var criticUpdates: nat     // critic updates of this run
    var stepsDone: nat
    var pending: nat           // evals on snapshots that have not been settled
    var exports: nat           // snapshot exports from the actor, failed ones included
    var log: seq<Dispatch>
    var points: seq<EvalPoint>
    var saves: seq<Saved>
    var kvMet: bool            // KV cache and trainer state have been resident together
    var weightsMet: bool       // engine weights and trainer state have been resident together

    constructor (cfg: Config, outside: Outside)
      ensures this.cfg == cfg && this.outside == outside && Started()
    {
      this.cfg, this.outside := cfg, outside;
      weights, kv := true, !cfg.offloadRollout;
      actor, critic := !cfg.offloadTrain, !cfg.offloadTrain && cfg.useCritic;
      engineUpdates, actorUpdates, criticUpdates, stepsDone, pending, exports := 0, cfg.start, 0, 0, 0, 0;
      log, points, saves := [], [], [];
      kvMet, weightsMet := !cfg.offloadTrain && !cfg.offloadRollout, !cfg.offloadTrain;
    }

    /** The components as they are created: offloading engines come up with their weights only, offloading trainers
        go to sleep, and the engines hold nothing of the trainers' yet. */
    ghost predicate Started()
      reads this
    {
      && weights && kv == !cfg.offloadRollout && TrainersAside()
      && actorUpdates == cfg.start && criticUpdates == stepsDone == pending == exports == 0 && log == [] && points == [] && saves == []
      && kvMet == (!cfg.offloadTrain && !cfg.offloadRollout) && weightsMet == !cfg.offloadTrain
    }

    ghost predicate TrainersAside()
      reads `actor, `critic
    {
      && actor == !cfg.offloadTrain && critic == (!cfg.offloadTrain && cfg.useCritic)
    }

    /** The engines are up with the current weights and the trainers are out of the way. */
    ghost predicate Serving()
      reads `weights, `kv, `actor, `critic, `engineUpdates, `actorUpdates
    {
      weights && kv && engineUpdates == actorUpdates && TrainersAside()
    }

    /** Where things are during and after a training step. */
    ghost predicate Training()
      reads `weights, `kv, `actor, `critic
    {
      && (cfg.offloadRollout ==> kv == !cfg.kvLevel && weights == !cfg.weightLevel)
      && (!cfg.offloadRollout ==> kv && weights)
      && actor == (!cfg.offloadTrain || !cfg.useCritic) && critic == (!cfg.offloadTrain && cfg.useCritic)
    }

    /** Exactly when trainer state has met engine memory on the shared GPUs after `ran` training phases: without offloading
        of the trainers always, otherwise while training, for what the engines keep then or, under the "gpu" peak, give up
        only after the actor has come in. */
    ghost predicate MeetingsExact(ran: nat)
      reads `kvMet, `weightsMet
    {
      cfg.colocate ==>
        && (kvMet <==> !cfg.offloadTrain || (ran > 0 && (!cfg.offloadRollout || !cfg.kvLevel)))
        && (weightsMet <==> !cfg.offloadTrain || (ran > 0 && (!cfg.offloadRollout || !cfg.weightLevel || cfg.gpuPeak)))
    }

    ghost predicate History()
      reads `actorUpdates, `criticUpdates, `stepsDone, `log, `pending, `points, `exports
    {
      && actorUpdates == cfg.ActorUpdates(cfg.start + stepsDone) && criticUpdates == (if cfg.useCritic then stepsDone else 0)
      && Faithful(cfg, log)
      && EvalsIn(log) == SentOf(points) && exports == ExportsOf(cfg, points)
      && OutcomesFit(cfg, outside, points) && pending == InFlight(cfg, points) <= cfg.evalMaxInFlight
    }

    /** Every move of engine or trainer memory. */
    method Place(w: bool, k: bool, a: bool, c: bool)
      modifies `weights, `kv, `actor, `critic, `kvMet, `weightsMet
      ensures weights == w && kv == k && actor == a && critic == c
      ensures kvMet == (old(kvMet) || (k && (a || c))) && weightsMet == (old(weightsMet) || (w && (a || c)))
    {
      weights, kv, actor, critic := w, k, a, c;
      kvMet := kvMet || (k && (a || c));
      weightsMet := weightsMet || (w && (a || c));
    }

    method OnloadWeights()
      modifies `weights, `kv, `actor, `critic, `kvMet, `weightsMet
      ensures weights == (old(weights) || cfg.weightLevel) && kv == old(kv) && actor == old(actor) && critic == old(critic)
      ensures kvMet == (old(kvMet) || (cfg.weightLevel && kv && (actor || critic)))
      ensures weightsMet == (old(weightsMet) || (cfg.weightLevel && (actor || critic)))
    {
      if cfg.weightLevel {
        Place(true, kv, actor, critic);
      }
    }

    /** The trainers send their weights; the engines must hold theirs to receive them. */
    method UpdateWeights()
      requires weights
      modifies `engineUpdates
      ensures engineUpdates == actorUpdates
    {
      engineUpdates := actorUpdates;
    }

    /** A dispatch while the engines serve. */
    method Send(work: Work, id: nat)
      requires Serving() && actorUpdates == cfg.ActorUpdates(cfg.start + stepsDone) && Faithful(cfg, log)
      requires work == Rollout ==> id == cfg.start + |RolloutIds(log)| == cfg.start + stepsDone
      modifies `log
      ensures log == old(log) + [Dispatch(work, id, true, true, engineUpdates, stepsDone)] && Faithful(cfg, log)
      ensures |RolloutIds(log)| == |RolloutIds(old(log))| + if work == Rollout then 1 else 0
      ensures EvalsIn(log) == EvalsIn(old(log)) + if work == Eval then [(id, stepsDone)] else []
    {
      hide RolloutIds, Faithful, EvalsIn;
      FaithfulStep(cfg, log, Dispatch(work, id, weights, kv, engineUpdates, stepsDone));
      log := log + [Dispatch(work, id, weights, kv, engineUpdates, stepsDone)];
    }

    /** Takes from the engines what the level names; under the "gpu" peak the actor comes in before the weights go. */
    method HandOver()
      requires cfg.Accepted() && weights && kv
      modifies `weights, `kv, `actor, `critic, `kvMet, `weightsMet
      ensures kv == !(cfg.offloadRollout && cfg.kvLevel) && weights == !(cfg.offloadRollout && cfg.weightLevel)
      ensures actor == (old(actor) || cfg.gpuPeak) && critic == old(critic)
      ensures kvMet == (old(kvMet) || (cfg.offloadRollout && kv && (actor || critic)))
      ensures weightsMet == (old(weightsMet) || cfg.gpuPeak || (cfg.offloadRollout && weights && (actor || critic)))
    {
      if cfg.offloadRollout {
        if cfg.gpuPeak {
          Place(weights, kv && !cfg.kvLevel, actor, critic);
          Place(weights, kv, true, critic);
          Place(weights && !cfg.weightLevel, kv, actor, critic);
        } else {
          Place(weights && !cfg.weightLevel, kv && !cfg.kvLevel, actor, critic);
        }
      }
    }

    /** Moves the memory from the engines to the trainers and trains one step. */
    method HandOverAndTrain(r: nat)
      requires cfg.Accepted() && r == cfg.start + stepsDone && Serving() && MeetingsExact(stepsDone) && History()
      modifies `weights, `kv, `actor, `critic, `kvMet, `weightsMet, `actorUpdates, `criticUpdates, `stepsDone
      ensures stepsDone == old(stepsDone) + 1 && Training() && MeetingsExact(stepsDone) && History()
    {
      hide RolloutIds, Faithful, Served, EvalsIn, SentOf, ExportsOf, OutcomesFit, InFlight;
      HandOver();
      if cfg.useCritic {
        TrainBoth(r);
      } else {
        Place(weights, kv, true, critic);
        TrainOn(actor);
        actorUpdates := actorUpdates + 1;
      }
      stepsDone := stepsDone + 1;
    }

    /** Critic and actor in turn, each offloaded again; the actor only after the critic-only steps. */
    method TrainBoth(r: nat)
      requires cfg.useCritic && TrainersAside()
      modifies `weights, `kv, `actor, `critic, `kvMet, `weightsMet, `actorUpdates, `criticUpdates
      ensures TrainersAside() && weights == old(weights) && kv == old(kv)
      ensures kvMet == (old(kvMet) || kv) && weightsMet == (old(weightsMet) || weights)
      ensures actorUpdates == old(actorUpdates) + if r >= cfg.criticOnlySteps then 1 else 0
      ensures criticUpdates == old(criticUpdates) + 1
    {
      Place(weights, kv, actor, true);
      TrainOn(critic);
      criticUpdates := criticUpdates + 1;
      if cfg.offloadTrain {
        Place(weights, kv, actor, false);
      }
      if r >= cfg.criticOnlySteps {
        Place(weights, kv, true, critic);
        TrainOn(actor);
        actorUpdates := actorUpdates + 1;
        if cfg.offloadTrain {
          Place(weights, kv, false, critic);
        }
      }
    }

    /** Training finds the state it works on resident. */
    method TrainOn(resident: bool)
      requires resident
    {}

    /** Saving finds the state it writes resident, onloading it for the while in the critic path. */
    method Save(r: nat)
      requires cfg.Accepted() && Training() && stepsDone > 0 && MeetingsExact(stepsDone)
      modifies `weights, `kv, `actor, `critic, `kvMet, `weightsMet, `saves
      ensures Training() && MeetingsExact(stepsDone)
      ensures saves == old(saves) + FilesOf(cfg, r, actorUpdates)
    {
      if !cfg.useCritic || r >= cfg.criticOnlySteps {
        if cfg.useCritic && cfg.offloadTrain {
          Place(weights, kv, true, critic);
        }
        SaveModel(r, Actor, actor);
        if cfg.useCritic && cfg.offloadTrain {
          Place(weights, kv, false, critic);
        }
      }
      if cfg.useCritic {
        if cfg.offloadTrain {
          Place(weights, kv, actor, true);
        }
        SaveModel(r, Critic, critic);
        if cfg.offloadTrain {
          Place(weights, kv, actor, false);
        }
      }
      if cfg.saveGiven {
        SaveModel(r, RolloutData, true);
      }
    }

    method SaveModel(r: nat, model: Model, resident: bool)
      requires resident
      modifies `saves
      ensures saves == old(saves) + [Saved(r, model, actorUpdates)]
    {
      saves := saves + [Saved(r, model, actorUpdates)];
    }

    /** Moves the memory back to the engines and publishes the weights. */
    method HandBack()
      requires cfg.Accepted() && Training() && stepsDone > 0 && MeetingsExact(stepsDone)
      modifies `weights, `kv, `actor, `critic, `kvMet, `weightsMet, `engineUpdates
      ensures Serving() && MeetingsExact(stepsDone)
    {
      if cfg.gpuPeak {
        OnloadWeights();
        Place(weights, kv, false, critic);
      } else {
        if !cfg.useCritic && cfg.offloadTrain {
          Place(weights, kv, false, critic);
        }
        if cfg.offloadRollout {
          OnloadWeights();
        }
      }
      UpdateWeights();
      if cfg.offloadRollout {
        Place(weights, true, actor, critic);
      }
    }

    /** Writes a snapshot from the actor, which is onloaded beside the serving engines for the while. */
    method Export() returns (exported: bool)
      requires Serving() && MeetingsExact(stepsDone) && !cfg.colocate
      modifies `weights, `kv, `actor, `critic, `kvMet, `weightsMet, `exports
      ensures Serving() && MeetingsExact(stepsDone) && exports == old(exports) + 1 && exported == outside.exports(|points|)
    {
      if cfg.offloadTrain {
        Place(weights, kv, true, critic);
      }
      exported := ExportSnapshot(actor);
      if cfg.offloadTrain {
        Place(weights, kv, false, critic);
      }
    }

    /** The export may fail. */
    method ExportSnapshot(resident: bool) returns (exported: bool)
      requires resident
      modifies `exports
      ensures exports == old(exports) + 1 && exported == outside.exports(|points|)
    {
      exports := exports + 1;
      exported := outside.exports(|points|);
    }

    /** One eval point: a blocking call, or an eval on a snapshot that is exported here unless the caller names one.
        A point is skipped when too many are in flight and it is not forced, or when its export fails. */
    method DispatchEval(id: nat, given: bool, force: bool) returns (p: EvalPoint)
      requires cfg.Valid() && cfg.Accepted() && Serving() && MeetingsExact(stepsDone) && History()
      modifies `weights, `kv, `actor, `critic, `kvMet, `weightsMet, `pending, `exports, `log, `points
      ensures Serving() && MeetingsExact(stepsDone) && History()
      ensures p.id == id && p.stepsDone == stepsDone && p.given == given && p.forced == force
      ensures points == old(points) + [p]
      ensures log == old(log) + if p.outcome == Sent then [Dispatch(Eval, id, true, true, engineUpdates, stepsDone)] else []
      ensures |RolloutIds(log)| == |RolloutIds(old(log))|
    {
      hide RolloutIds, Faithful, Served, MeetingsExact, EvalsIn, SentOf, ExportsOf, Serving, OutcomesFit, InFlight;
      var outcome, inFlight := Prepare(given, force);
      if outcome == Sent {
        Send(Eval, id);
        if cfg.evalUsesSnapshots {
          pending := pending + 1;
        }
      }
      p := EvalPoint(id, stepsDone, given, force, inFlight, outcome);
      OneMorePoint(cfg, points, p);
      OneMoreOutcome(cfg, outside, points, p);
      points := points + [p];
    }

    /** Room for the eval and its snapshot, or the reason why it does not take place. */
    method Prepare(given: bool, force: bool) returns (outcome: Outcome, inFlight: nat)
      requires cfg.Valid() && cfg.Accepted() && Serving() && MeetingsExact(stepsDone) && pending <= cfg.evalMaxInFlight
      modifies `weights, `kv, `actor, `critic, `kvMet, `weightsMet, `pending, `exports
      ensures Serving() && MeetingsExact(stepsDone) && engineUpdates == old(engineUpdates)
      ensures OutcomeFits(cfg, outside, |points|, old(pending), EvalPoint(0, 0, given, force, inFlight, outcome))
      ensures !cfg.evalUsesSnapshots ==> pending == old(pending)
      ensures cfg.evalUsesSnapshots ==> pending == if outcome == Skipped then inFlight else Min(inFlight, cfg.evalMaxInFlight - 1)
      ensures exports == old(exports) + if cfg.evalUsesSnapshots && cfg.exportsSnapshots && !given && outcome != Skipped then 1 else 0
    {
      hide MeetingsExact, Serving;
      outcome, inFlight := Sent, 0;
      if cfg.evalUsesSnapshots {
        var ready;
        ready, inFlight := MakeRoom(force);
        if !ready {
          outcome := Skipped;
        } else if cfg.exportsSnapshots && !given {
          var exported := Export();
          outcome := if exported then Sent else ExportFailed;
        }
      }
    }

    /** Reaps the settled evals in flight and makes room for one more, unless the policy is to skip. */
    method MakeRoom(force: bool) returns (ready: bool, inFlight: nat)
      requires cfg.Valid() && pending <= cfg.evalMaxInFlight
      modifies `pending
      ensures inFlight == Max(0, old(pending) - outside.settled(|points|))
      ensures pending == if ready then Min(inFlight, cfg.evalMaxInFlight - 1) else inFlight
      ensures ready <==> !(inFlight >= cfg.evalMaxInFlight && cfg.skipWhenBusy && !force)
    {
      pending := Max(0, pending - outside.settled(|points|));
      ready, inFlight := true, pending;
      if pending >= cfg.evalMaxInFlight {
        if cfg.skipWhenBusy && !force {
          return false, inFlight;
        }
        pending := pending - 1;
      }
    }

    /** A whole run. It is refused exactly for a "gpu" peak that is not wired or snapshot evals that have no interval or no
        GPUs of their own; otherwise every rollout is dispatched once and in order, and every dispatch, of a rollout or of
        an eval, finds weights and KV cache resident and the weights carrying all steps so far. The eval points and the
        saves are those of the schedule, and the evals dispatched are the points that were sent. On shared GPUs the
        configuration and whether a step was run decide what trainers and engines hold at the same time. */
    method Run() returns (r: Result<()>)
      requires cfg.Valid() && Started()
      modifies this
      ensures r.Failure? <==> !cfg.Accepted()
      ensures r.Failure? ==> Started()
      ensures r.Success? ==>
                && stepsDone == cfg.Steps()
                && (forall d :: d in log ==> Served(cfg, d)) && RolloutIds(log) == Ids(cfg.start, cfg.Steps())
                && EvalsOnSchedule(cfg, points, cfg.Steps()) && OutcomesFit(cfg, outside, points) && EvalsIn(log) == SentOf(points)
                && SavesOnSchedule(cfg, outside.saves, saves, cfg.Steps())
                && MeetingsExact(cfg.Steps())
                && exports == ExportsOf(cfg, points)
                && (if cfg.Steps() == 0 || cfg.start + cfg.Steps() < cfg.num || cfg.evalInterval.Some? then Serving() else Training())
    {
      if !cfg.Accepted() {
        return Failure("the configuration is not supported");
      }
      Prologue();
      hide RolloutIds, Served, MeetingsExact, Serving, EvalsOnSchedule, SavesOnSchedule, EvalsIn, SentOf, ExportsOf,
           OutcomesFit, InFlight, Training, TrainersAside;
      FirstEval();
      Loop();
      return Success(());
    }

    /** All steps, up to the last or to the debug exit. */
    method Loop()
      requires cfg.Valid() && cfg.Accepted() && Serving() && MeetingsExact(0) && History() && stepsDone == 0 == |RolloutIds(log)|
      requires EvalsOnSchedule(cfg, points, 0) && SavesOnSchedule(cfg, outside.saves, saves, 0)
      modifies this
      ensures stepsDone == cfg.Steps() == |RolloutIds(log)| && MeetingsExact(stepsDone) && History()
      ensures EvalsOnSchedule(cfg, points, stepsDone) && SavesOnSchedule(cfg, outside.saves, saves, stepsDone)
      ensures if stepsDone == 0 || cfg.start + stepsDone < cfg.num || cfg.evalInterval.Some? then Serving() else Training()
    {
      hide RolloutIds, MeetingsExact, Serving, EvalsOnSchedule, SavesOnSchedule, Training, History;
      var i := cfg.start;
      while i < cfg.num
        invariant cfg.start <= i && (i > cfg.start ==> i <= cfg.num) && stepsDone == i - cfg.start
        invariant if i == cfg.start || i < cfg.num || cfg.evalInterval.Some? then Serving() else Training()
        invariant MeetingsExact(stepsDone) && History() && |RolloutIds(log)| == stepsDone
        invariant EvalsOnSchedule(cfg, points, stepsDone) && SavesOnSchedule(cfg, outside.saves, saves, stepsDone)
        invariant i == cfg.start || !ExitAfter(i - cfg.start, cfg.debugExit)
      {
        Step(i);
        i := i + 1;
        if ExitAfter(i - cfg.start, cfg.debugExit) {
          break;
        }
      }
    }

    /** The first update and, for offloading engines, the KV cache. */
    method Prologue()
      requires cfg.Valid() && cfg.Accepted() && Started()
      modifies `weights, `kv, `actor, `critic, `kvMet, `weightsMet, `engineUpdates
      ensures Serving() && MeetingsExact(0) && History() && |RolloutIds(log)| == 0
    {
      assert Faithful(cfg, []);
      UpdateWeights();
      if cfg.offloadRollout {
        Place(weights, true, actor, critic);
      }
    }

    /** The eval points before the first step: of the initial checkpoint, or of the last step before a resumed run. */
    method FirstEval()
      requires cfg.Valid() && cfg.Accepted() && Serving() && MeetingsExact(0) && History()
      requires stepsDone == 0 && points == [] && saves == []
      modifies `weights, `kv, `actor, `critic, `kvMet, `weightsMet, `pending, `exports, `log, `points
      ensures Serving() && MeetingsExact(0) && History()
      ensures EvalsOnSchedule(cfg, points, 0) && SavesOnSchedule(cfg, outside.saves, saves, 0)
      ensures |RolloutIds(log)| == |RolloutIds(old(log))|
    {
      hide RolloutIds, Faithful, Served, MeetingsExact, History, Serving;
      if cfg.num == 0 && cfg.evalInterval.Some? {
        var _ := DispatchEval(0, true, false);
      }
      if cfg.num > cfg.start && cfg.evalInterval.Some? && !cfg.skipFirstEval {
        if cfg.start == 0 {
          var _ := DispatchEval(0, true, false);
        } else {
          var _ := DispatchEval(cfg.start - 1, false, false);
        }
      }
    }

    /** One iteration of the loop. */
    method Step(r: nat)
      requires cfg.Valid() && cfg.Accepted() && r == cfg.start + stepsDone && r < cfg.num
      requires Serving() && MeetingsExact(stepsDone) && History() && |RolloutIds(log)| == stepsDone
      requires EvalsOnSchedule(cfg, points, stepsDone) && SavesOnSchedule(cfg, outside.saves, saves, stepsDone)
      modifies this
      ensures stepsDone == old(stepsDone) + 1
      ensures if r + 1 < cfg.num || cfg.evalInterval.Some? then Serving() else Training()
      ensures MeetingsExact(stepsDone) && History() && |RolloutIds(log)| == stepsDone
      ensures EvalsOnSchedule(cfg, points, stepsDone) && SavesOnSchedule(cfg, outside.saves, saves, stepsDone)
    {
      hide RolloutIds, Faithful, Served, MeetingsExact, Serving, Training, Due, EvalsOnSchedule, SavesOnSchedule, EvalsIn,
           SentOf, ExportsOf, OutcomesFit, InFlight, FilesOf;
      SaveStep(cfg, outside.saves, saves, stepsDone);
      Send(Rollout, r);
      HandOverAndTrain(r);
      assert saves + [] == saves;
      if r in outside.saves || Due(r, cfg.saveInterval, cfg.perEpoch, cfg.num) {
        Save(r);
      }
      PublishAndEval(r);
    }

    /** The end of an iteration: unless the run is over and nothing is left to evaluate, the engines serve again. */
    method PublishAndEval(r: nat)
      requires cfg.Valid() && cfg.Accepted() && r + 1 == cfg.start + stepsDone <= cfg.num && stepsDone > 0
      requires Training() && MeetingsExact(stepsDone) && History() && EvalsOnSchedule(cfg, points, stepsDone - 1)
      modifies `weights, `kv, `actor, `critic, `kvMet, `weightsMet, `engineUpdates, `pending, `exports, `log, `points
      ensures if r + 1 < cfg.num || cfg.evalInterval.Some? then Serving() else Training()
      ensures MeetingsExact(stepsDone) && History() && EvalsOnSchedule(cfg, points, stepsDone)
      ensures |RolloutIds(log)| == |RolloutIds(old(log))|
    {
      hide RolloutIds, Faithful, Served, MeetingsExact, Serving, Training, Due, EvalsOnSchedule, EvalsIn,
           SentOf, ExportsOf, OutcomesFit, InFlight;
      DueAtTheEnd(r, cfg.evalInterval, cfg.perEpoch, cfg.num);
      ghost var before := points;
      var evalDue := cfg.EvalDue(r);
      if r + 1 < cfg.num || evalDue {
        HandBack();
      }
      if evalDue {
        var _ := DispatchEval(r, false, r + 1 == cfg.num);
      }
      assert points == before + points[|before|..];
      EvalStep(cfg, before, stepsDone - 1, points[|before|..]);
    }
  }
}
