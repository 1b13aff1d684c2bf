/** One leading policy and any number of followers train concurrently; the leader parks all followers for every
    global save and every eval. A step is the code between two suspension points of one task. */
module MultiPolicy {

  import opened Schedule
  import opened Wrappers

  datatype Site = AtSave | AtEval

  datatype Config = Config(
    num: nat, interval: nat, leaderStart: nat, debugExit: Option<int>,
    saveInterval: Option<nat>, evalInterval: Option<nat>, perEpoch: Option<nat>)
  {
    predicate Valid() {
      interval >= 1 && saveInterval != Some(0) && evalInterval != Some(0) && perEpoch != Some(0)
    }

    predicate UpdateDue(r: nat) requires Valid() { (r + 1) % interval == 0 }
  }

  /** Where a follower is suspended. A parked one is woken when the event is set. */
  datatype Pc = Top | Getting | Training | Yielding(site: Site) | Parked(site: Site, woken: bool) | Updating | Stopped

  /** `recorded` is the follower's entry in the shared dictionary, `trained` the id it finished training last, `updates` the
      ids after which it sent its weights. */
  datatype Follower = Follower(pc: Pc, start: nat, id: nat, recorded: Option<nat>, trained: Option<nat>, updates: seq<nat>)

  /** Where the leader is suspended: `WaitEmpty` and `WaitAll` poll the parker's count, `Body` holds all followers. */
  datatype LeaderPc = LTop | LGetting | LTraining | WaitEmpty(site: Site) | WaitAll(site: Site) | Body(site: Site) | LUpdating | LDone

  datatype Parker = Parker(isSet: bool, ready: int)

  /** What a global save wrote: the id every trainer saved under, the ids in the record, and, for comparison, the id
      every trainer had finished last; the leader comes first. */
  datatype Checkpoint = Checkpoint(saved: seq<Option<nat>>, record: seq<Option<nat>>, trained: seq<Option<nat>>)

  datatype State = State(
    pc: LeaderPc, id: nat, recorded: Option<nat>, trained: Option<nat>,
    followers: seq<Follower>, save: Parker, eval: Parker,
    saving: seq<Option<nat>>, checkpoints: seq<Checkpoint>, updates: seq<nat>, evals: seq<nat>)
  {
    function At(site: Site): Parker { if site == AtSave then save else eval }

    function With(site: Site, p: Parker): State { if site == AtSave then this.(save := p) else this.(eval := p) }

    /** The shared dictionary of current rollout ids. */
    function Dictionary(): seq<Option<nat>> {
      [recorded] + seq(|followers|, i requires 0 <= i < |followers| => followers[i].recorded)
    }

    function LastTrained(): seq<Option<nat>> {
      [trained] + seq(|followers|, i requires 0 <= i < |followers| => followers[i].trained)
    }
  }

  ghost predicate Init(c: Config, s: State) {
    && s.pc == LTop && s.id == c.leaderStart && s.recorded == s.trained == None
    && (forall i :: 0 <= i < |s.followers| ==>
          && s.followers[i].pc == Top && s.followers[i].recorded == s.followers[i].trained == None
          && s.followers[i].id == s.followers[i].start && s.followers[i].updates == [])
    && s.save == s.eval == Parker(true, 0) && s.checkpoints == [] && s.updates == s.evals == []
  }

  // ---------------------------------------------------------------- the parker

  /** `_event.set()`: every follower waiting at the site becomes runnable. */
  function Wake(fs: seq<Follower>, site: Site): (r: seq<Follower>)
    ensures |r| == |fs|
    ensures forall i :: 0 <= i < |fs| ==>
              r[i] == if fs[i].pc.Parked? && fs[i].pc.site == site then fs[i].(pc := Parked(site, true)) else fs[i]
  {
    seq(|fs|, i requires 0 <= i < |fs| =>
      if fs[i].pc.Parked? && fs[i].pc.site == site then fs[i].(pc := Parked(site, true)) else fs[i])
  }

  function Open(s: State, site: Site): State {
    s.With(site, s.At(site).(isSet := true)).(followers := Wake(s.followers, site))
  }

  function Close(s: State, site: Site): State {
    s.With(site, s.At(site).(isSet := false))
  }

  // ---------------------------------------------------------------- the leader

  function EndOfRound(c: Config, s: State): State {
    if ExitAfter(s.id - c.leaderStart + 1, c.debugExit) then s.(pc := LDone) else s.(pc := LTop, id := s.id + 1)
  }

  function AfterUpdate(c: Config, s: State): State
    requires c.Valid()
  {
    if Due(s.id, c.evalInterval, c.perEpoch, c.num) then s.(pc := WaitEmpty(AtEval)) else EndOfRound(c, s)
  }

  function AfterSave(c: Config, s: State): State
    requires c.Valid()
  {
    if c.UpdateDue(s.id) then s.(pc := LUpdating) else AfterUpdate(c, s)
  }

  function LeaveBody(c: Config, s: State): State
    requires c.Valid() && s.pc.Body?
  {
    match s.pc.site
    case AtSave =>
      var written := s.(checkpoints := s.checkpoints + [Checkpoint(s.saving, s.Dictionary(), s.LastTrained())]);
      AfterSave(c, Open(written, AtSave))
    case AtEval => EndOfRound(c, Open(s.(evals := s.evals + [s.id]), AtEval))
  }

  /** A save may also be asked for from outside, at any round. */
  ghost predicate LeaderStep(c: Config, s: State, t: State)
    requires c.Valid()
  {
    match s.pc
    case LTop =>
      t == if s.id < c.num then s.(pc := LGetting, recorded := Some(s.id)) else s.(pc := LDone)
    case LGetting => t == s.(pc := LTraining)
    case LTraining =>
      var u := s.(trained := Some(s.id));
      || t == u.(pc := WaitEmpty(AtSave))
      || (!Due(s.id, c.saveInterval, c.perEpoch, c.num) && t == AfterSave(c, u))
    case WaitEmpty(site) => s.At(site).ready == 0 && t == Close(s, site).(pc := WaitAll(site))
    case WaitAll(site) =>
      s.At(site).ready == |s.followers| && t == s.(pc := Body(site), saving := s.Dictionary())
    case Body(_) => t == LeaveBody(c, s)
    case LUpdating => t == AfterUpdate(c, s.(updates := s.updates + [s.id]))
    case LDone => false
  }

  // ---------------------------------------------------------------- a follower

  /** What a follower does once it is let past a site. */
  function PastSite(c: Config, f: Follower, site: Site): Follower
    requires c.Valid()
  {
    match site
    case AtSave => f.(pc := if c.UpdateDue(f.id) then Updating else Yielding(AtEval))
    case AtEval => f.(pc := Top, id := f.id + 1)
  }

  /** Waiting on a set event does not suspend; on a cleared one it does, counted as ready. */
  ghost predicate FollowerStep(c: Config, s: State, t: State, i: nat)
    requires c.Valid() && i < |s.followers|
  {
    var f := s.followers[i];
    match f.pc
    case Top => t == s.(followers := s.followers[i := f.(pc := Getting, recorded := Some(f.id))])
    case Getting => t == s.(followers := s.followers[i := f.(pc := Training)])
    case Training => t == s.(followers := s.followers[i := f.(pc := Yielding(AtSave), trained := Some(f.id))])
    case Yielding(site) =>
      var p := s.At(site);
      t == if p.isSet then s.(followers := s.followers[i := PastSite(c, f, site)])
           else s.With(site, p.(ready := p.ready + 1)).(followers := s.followers[i := f.(pc := Parked(site, false))])
    case Parked(site, woken) =>
      var p := s.At(site);
      woken && t == s.With(site, p.(ready := p.ready - 1)).(followers := s.followers[i := PastSite(c, f, site)])
    case Updating => t == s.(followers := s.followers[i := f.(pc := Yielding(AtEval), updates := f.updates + [f.id])])
    case Stopped => false
  }

  /** Once the leader is done the run ends: followers stop at their next round or are cancelled where they are. */
  ghost predicate EndStep(s: State, t: State, i: nat)
    requires i < |s.followers|
  {
    s.pc == LDone && t == s.(followers := s.followers[i := s.followers[i].(pc := Stopped)])
  }

  ghost predicate Next(c: Config, s: State, t: State)
    requires c.Valid()
  {
    || LeaderStep(c, s, t)
    || (exists i :: 0 <= i < |s.followers| && (FollowerStep(c, s, t, i) || EndStep(s, t, i)))
  }

  ghost predicate Run(c: Config, run: seq<State>)
    requires c.Valid()
  {
    |run| > 0 && Init(c, run[0]) && forall k :: 0 < k < |run| ==> Next(c, run[k - 1], run[k])
  }

  // ---------------------------------------------------------------- counting followers

  function Sum(fs: seq<Follower>, weight: Follower -> nat): nat {
    if fs == [] then 0 else weight(fs[0]) + Sum(fs[1..], weight)
  }

  lemma {:induction false} SumUpdate(fs: seq<Follower>, weight: Follower -> nat, i: nat, f: Follower)
    requires i < |fs|
    ensures Sum(fs[i := f], weight) + weight(fs[i]) == Sum(fs, weight) + weight(f)
  {
    if i > 0 {
      SumUpdate(fs[1..], weight, i - 1, f);
      assert fs[i := f][1..] == fs[1..][i - 1 := f];
    } else {
      assert fs[i := f][1..] == fs[1..];
    }
  }

  lemma {:induction false} SumCongruent(fs: seq<Follower>, gs: seq<Follower>, weight: Follower -> nat)
    requires |fs| == |gs| && forall i :: 0 <= i < |fs| ==> weight(fs[i]) == weight(gs[i])
    ensures Sum(fs, weight) == Sum(gs, weight)
  {
    if fs != [] {
      SumCongruent(fs[1..], gs[1..], weight);
    }
  }

  ghost predicate Everywhere(fs: seq<Follower>, weight: Follower -> nat, v: nat) {
    forall i :: 0 <= i < |fs| ==> weight(fs[i]) == v
  }

  /** A sum of weights up to `most` lies between zero and `most` times the length, reached only everywhere at once. */
  lemma {:induction false} SumBounds(fs: seq<Follower>, weight: Follower -> nat, most: nat)
    requires forall f :: f in fs ==> weight(f) <= most
    ensures Sum(fs, weight) <= most * |fs|
    ensures Sum(fs, weight) == 0 <==> Everywhere(fs, weight, 0)
    ensures Sum(fs, weight) == most * |fs| <==> Everywhere(fs, weight, most)
  {
    if fs != [] {
      SumBounds(fs[1..], weight, most);
      EverywhereStep(fs, weight, 0);
      EverywhereStep(fs, weight, most);
      var n, rest := |fs[1..]|, Sum(fs[1..], weight);
      assert Sum(fs, weight) == weight(fs[0]) + rest && fs[0] in fs;
      hide *;
      SumStep(most, n, weight(fs[0]), rest);
      assert |fs| == n + 1;
    }
  }

  lemma SumStep(most: nat, n: nat, first: nat, rest: nat)
    requires first <= most && rest <= most * n
    ensures first + rest <= most * (n + 1)
    ensures first + rest == most * (n + 1) <==> first == most && rest == most * n
  {
    assert most * (n + 1) == most * n + most;
  }

  lemma EverywhereStep(fs: seq<Follower>, weight: Follower -> nat, v: nat)
    requires fs != []
    ensures Everywhere(fs, weight, v) <==> weight(fs[0]) == v && Everywhere(fs[1..], weight, v)
  {
    var rest := fs[1..];
    if weight(fs[0]) == v && Everywhere(rest, weight, v) {
      forall i | 0 <= i < |fs| ensures weight(fs[i]) == v {
        if i > 0 {
          assert fs[i] == rest[i - 1];
        }
      }
    }
  }

  predicate ParkedAt(f: Follower, site: Site) {
    f.pc.Parked? && f.pc.site == site
  }

  function Presence(site: Site): Follower -> nat {
    (f: Follower) => if ParkedAt(f, site) then 1 else 0
  }

  // ---------------------------------------------------------------- the invariant

  ghost predicate FollowerConsistent(f: Follower) {
    match f.pc
    case Top => true
    case Getting | Training => f.recorded == Some(f.id)
    case _ => f.recorded == f.trained == Some(f.id)
  }

  ghost predicate LeaderConsistent(s: State) {
    match s.pc
    case LTop => true
    case LGetting | LTraining => s.recorded == Some(s.id)
    case _ => s.recorded == s.trained == Some(s.id)
  }

  /** The count is the number of parked followers; they are free to go exactly while the event is set; it is clear
      exactly while the leader collects or holds them; in the leader's body all of them are parked. */
  ghost predicate ParkInvariant(s: State, site: Site) {
    && s.At(site).ready == Sum(s.followers, Presence(site))
    && (forall i :: 0 <= i < |s.followers| && ParkedAt(s.followers[i], site) ==> s.followers[i].pc.woken == s.At(site).isSet)
    && (s.At(site).isSet <==> s.pc != WaitAll(site) && s.pc != Body(site))
    && (s.pc == Body(site) ==> s.At(site).ready == |s.followers|)
  }

  /** A checkpoint in which every trainer saved, and is recorded, under the id it had just finished training. */
  ghost predicate Consistent(cp: Checkpoint, trainers: nat) {
    && |cp.record| == trainers && (forall i :: 0 <= i < trainers ==> cp.record[i].Some?)
    && cp.saved == cp.record == cp.trained
  }

  ghost predicate CheckpointInvariant(s: State) {
    && (forall cp :: cp in s.checkpoints ==> Consistent(cp, 1 + |s.followers|))
    && (s.pc == Body(AtSave) ==> s.saving == s.Dictionary())
  }

  ghost predicate Invariant(s: State) {
    s.pc != LDone ==>
      && (forall i :: 0 <= i < |s.followers| ==> s.followers[i].pc != Stopped && FollowerConsistent(s.followers[i]))
      && LeaderConsistent(s) && ParkInvariant(s, AtSave) && ParkInvariant(s, AtEval)
  }

  // ---------------------------------------------------------------- every step keeps it

  lemma InvariantInitially(c: Config, s: State)
    requires Init(c, s)
    ensures Invariant(s) && CheckpointInvariant(s)
  {
    SumBounds(s.followers, Presence(AtSave), 1);
    SumBounds(s.followers, Presence(AtEval), 1);
  }

  /** Moving on without touching followers, parkers or entries keeps both parkers' invariants outside the holds. */
  lemma MovingOnKeepsParkers(s: State, t: State)
    requires ParkInvariant(s, AtSave) && ParkInvariant(s, AtEval)
    requires t.followers == s.followers && t.save == s.save && t.eval == s.eval
    requires !s.pc.WaitAll? && !s.pc.Body? && !t.pc.WaitAll? && !t.pc.Body?
    ensures ParkInvariant(t, AtSave) && ParkInvariant(t, AtEval)
  {}

  lemma CloseKeepsParkers(s: State, site: Site)
    requires ParkInvariant(s, AtSave) && ParkInvariant(s, AtEval)
    requires s.pc == WaitEmpty(site) && s.At(site).ready == 0
    ensures var t := Close(s, site).(pc := WaitAll(site)); ParkInvariant(t, AtSave) && ParkInvariant(t, AtEval)
  {
    SumBounds(s.followers, Presence(site), 1);
    forall i | 0 <= i < |s.followers| ensures !ParkedAt(s.followers[i], site) {
      assert Presence(site)(s.followers[i]) == 0;
    }
  }

  lemma OpenKeepsParkers(s: State, site: Site, t: State)
    requires ParkInvariant(s, AtSave) && ParkInvariant(s, AtEval) && s.pc == Body(site)
    requires t.followers == Wake(s.followers, site) && t.save == Open(s, site).save && t.eval == Open(s, site).eval
    requires !t.pc.WaitAll? && !t.pc.Body?
    ensures ParkInvariant(t, AtSave) && ParkInvariant(t, AtEval)
  {
    SumCongruent(s.followers, t.followers, Presence(AtSave));
    SumCongruent(s.followers, t.followers, Presence(AtEval));
  }

  /** While the leader's body runs, every follower is parked there and cannot go on by itself. */
  lemma BodyHoldsEveryone(s: State, site: Site, i: nat)
    requires ParkInvariant(s, site) && s.pc == Body(site) && i < |s.followers|
    ensures s.followers[i].pc == Parked(site, false)
  {
    SumBounds(s.followers, Presence(site), 1);
    assert Presence(site)(s.followers[i]) == 1;
  }

  /** With everyone held at the save site, the dictionary is what every trainer has just finished. */
  lemma HeldDictionary(s: State)
    requires Invariant(s) && s.pc == Body(AtSave)
    ensures s.Dictionary() == s.LastTrained() && |s.Dictionary()| == 1 + |s.followers|
    ensures forall k :: 0 <= k < |s.Dictionary()| ==> s.Dictionary()[k].Some?
  {
    forall k | 0 <= k < |s.Dictionary()|
      ensures s.Dictionary()[k] == s.LastTrained()[k] && s.Dictionary()[k].Some?
    {
      if k > 0 {
        BodyHoldsEveryone(s, AtSave, k - 1);
        assert FollowerConsistent(s.followers[k - 1]);
      }
    }
  }

  lemma LeaderKeeps(c: Config, s: State, t: State)
    requires c.Valid() && Invariant(s) && LeaderStep(c, s, t)
    ensures Invariant(t)
  {
    hide ParkInvariant, Sum, Wake;
    match s.pc
    case WaitEmpty(site) => CloseKeepsParkers(s, site);
    case WaitAll(site) => EnterKeepsParkers(s, t, site);
    case Body(site) =>
      assert t.followers == Wake(s.followers, site);
      OpenKeepsParkers(s, site, t);
    case _ => MovingOnKeepsParkers(s, t);
  }

  lemma EnterKeepsParkers(s: State, t: State, site: Site)
    requires ParkInvariant(s, AtSave) && ParkInvariant(s, AtEval) && s.pc == WaitAll(site)
    requires s.At(site).ready == |s.followers| && t == s.(pc := Body(site), saving := s.Dictionary())
    ensures ParkInvariant(t, AtSave) && ParkInvariant(t, AtEval)
  {}

  lemma FollowerKeeps(c: Config, s: State, t: State, i: nat)
    requires c.Valid() && Invariant(s) && i < |s.followers| && FollowerStep(c, s, t, i)
    ensures Invariant(t)
  {
    hide Sum, ParkInvariant, FollowerStep, FollowerConsistent;
    FollowerFrame(c, s, t, i);
    if s.pc != LDone {
      FollowerKeepsParker(c, s, t, i, AtSave);
      FollowerKeepsParker(c, s, t, i, AtEval);
    }
  }

  /** A follower changes its own state only, and keeps its entry consistent. */
  lemma FollowerFrame(c: Config, s: State, t: State, i: nat)
    requires c.Valid() && i < |s.followers| && FollowerStep(c, s, t, i)
    ensures t.pc == s.pc && t.id == s.id && t.recorded == s.recorded && t.trained == s.trained
    ensures t.followers == s.followers[i := t.followers[i]] && t.followers[i].pc != Stopped
    ensures FollowerConsistent(s.followers[i]) ==> FollowerConsistent(t.followers[i])
  {}

  lemma FollowerKeepsParker(c: Config, s: State, t: State, i: nat, site: Site)
    requires c.Valid() && s.pc != LDone && Invariant(s) && i < |s.followers| && FollowerStep(c, s, t, i)
    ensures ParkInvariant(t, site)
  {
    hide Sum;
    SumUpdate(s.followers, Presence(site), i, t.followers[i]);
    if s.pc == Body(site) {
      BodyHoldsEveryone(s, site, i);
    }
  }

  lemma LeaderKeepsCheckpoints(c: Config, s: State, t: State)
    requires c.Valid() && Invariant(s) && CheckpointInvariant(s) && LeaderStep(c, s, t)
    ensures CheckpointInvariant(t)
  {
    hide Invariant, ParkInvariant, Sum, Wake;
    if s.pc == Body(AtSave) {
      HeldDictionary(s);
      assert |t.followers| == |s.followers|;
      assert t.checkpoints == s.checkpoints + [Checkpoint(s.saving, s.Dictionary(), s.LastTrained())];
    } else {
      assert t.checkpoints == s.checkpoints;
    }
  }

  lemma OthersKeepCheckpoints(c: Config, s: State, t: State, i: nat)
    requires c.Valid() && Invariant(s) && CheckpointInvariant(s) && i < |s.followers|
    requires FollowerStep(c, s, t, i) || EndStep(s, t, i)
    ensures CheckpointInvariant(t)
  {
    OthersFrame(c, s, t, i);
    if s.pc == Body(AtSave) {
      assert ParkInvariant(s, AtSave);
      hide *;
      BodyHoldsEveryone(s, AtSave, i);
      HeldCannotStep(c, s, t, i);
    }
  }

  /** What no follower touches. */
  lemma OthersFrame(c: Config, s: State, t: State, i: nat)
    requires c.Valid() && i < |s.followers| && (FollowerStep(c, s, t, i) || EndStep(s, t, i))
    ensures t.checkpoints == s.checkpoints && t.pc == s.pc && t.saving == s.saving && |t.followers| == |s.followers|
  {}

  lemma HeldCannotStep(c: Config, s: State, t: State, i: nat)
    requires c.Valid() && i < |s.followers| && s.pc == Body(AtSave) && s.followers[i].pc == Parked(AtSave, false)
    ensures !FollowerStep(c, s, t, i) && !EndStep(s, t, i)
  {}

  lemma EndKeeps(s: State, t: State, i: nat)
    requires i < |s.followers| && EndStep(s, t, i)
    ensures Invariant(t)
  {}

  lemma {:induction false} EveryStateIsSafe(c: Config, run: seq<State>, k: nat)
    requires c.Valid() && Run(c, run) && k < |run|
    ensures Invariant(run[k]) && CheckpointInvariant(run[k])
  {
    if k == 0 {
      InvariantInitially(c, run[0]);
    } else {
      EveryStateIsSafe(c, run, k - 1);
      var s, t := run[k - 1], run[k];
      assert Next(c, s, t);
      hide Invariant, CheckpointInvariant, LeaderStep, FollowerStep;
      if LeaderStep(c, s, t) {
        LeaderKeeps(c, s, t);
        LeaderKeepsCheckpoints(c, s, t);
      } else {
        var i :| 0 <= i < |s.followers| && (FollowerStep(c, s, t, i) || EndStep(s, t, i));
        OthersKeepCheckpoints(c, s, t, i);
        if FollowerStep(c, s, t, i) {
          FollowerKeeps(c, s, t, i);
        } else {
          EndKeeps(s, t, i);
        }
      }
    }
  }

  // ---------------------------------------------------------------- main results

  /** In every run, every checkpoint names for every trainer the rollout it had just finished training, both in what
      the trainer saved under and in the record. */
  lemma CheckpointsAreConsistent(c: Config, run: seq<State>, k: nat, cp: Checkpoint)
    requires c.Valid() && Run(c, run) && k < |run| && cp in run[k].checkpoints
    ensures Consistent(cp, 1 + |run[k].followers|)
  {
    EveryStateIsSafe(c, run, k);
  }

  /** In every run, while the leader saves globally or evaluates, no trainer is training or updating weights: every
      follower is parked, and stays so until the leader is done. */
  lemma NoTrainingDuringBody(c: Config, run: seq<State>, k: nat, site: Site, i: nat)
    requires c.Valid() && Run(c, run) && k < |run| && run[k].pc == Body(site) && i < |run[k].followers|
    ensures run[k].followers[i].pc == Parked(site, false)
    ensures forall t :: !FollowerStep(c, run[k], t, i)
  {
    EveryStateIsSafe(c, run, k);
    BodyHoldsEveryone(run[k], site, i);
  }

  // ---------------------------------------------------------------- progress

  /** Steps a follower is away from parking at a site that is closed. */
  function Away(pc: Pc, site: Site): nat {
    var fromTop := match pc
      case Top => 0
      case Getting => 1
      case Training => 2
      case Yielding(AtSave) => 3
      case Parked(AtSave, _) => 4
      case Updating => 5
      case Yielding(AtEval) => 6
      case Parked(AtEval, _) => 7
      case Stopped => 0;
    var target := if site == AtSave then 4 else 7;
    if fromTop <= target then target - fromTop else target + 8 - fromTop
  }

  function AwayFrom(site: Site): Follower -> nat {
    (f: Follower) => Away(f.pc, site)
  }

  lemma StepsCloser(c: Config, s: State, t: State, site: Site, i: nat)
    requires c.Valid() && Invariant(s) && s.pc == WaitAll(site) && i < |s.followers| && FollowerStep(c, s, t, i)
    ensures Sum(t.followers, AwayFrom(site)) < Sum(s.followers, AwayFrom(site))
  {
    hide Sum;
    assert s.At(if site == AtSave then AtEval else AtSave).isSet && !s.At(site).isSet;
    assert t.followers == s.followers[i := t.followers[i]];
    SumUpdate(s.followers, AwayFrom(site), i, t.followers[i]);
  }

  /** A wait for all followers is a bounded one: it starts at most seven steps a follower away, every step of a
      follower brings it closer, and a follower that is not there yet can step. */
  lemma CollectingEnds(c: Config, s: State, site: Site)
    requires c.Valid() && Invariant(s) && s.pc == WaitAll(site)
    ensures Sum(s.followers, AwayFrom(site)) <= 7 * |s.followers|
    ensures Sum(s.followers, AwayFrom(site)) == 0 <==> s.At(site).ready == |s.followers|
    ensures forall i, t :: 0 <= i < |s.followers| && FollowerStep(c, s, t, i) ==>
              Sum(t.followers, AwayFrom(site)) < Sum(s.followers, AwayFrom(site))
    ensures forall i :: 0 <= i < |s.followers| && !ParkedAt(s.followers[i], site) ==> exists t :: FollowerStep(c, s, t, i)
  {
    hide Sum, FollowerStep;
    SumBounds(s.followers, AwayFrom(site), 7);
    SumBounds(s.followers, Presence(site), 1);
    assert forall i :: 0 <= i < |s.followers| ==>
        (AwayFrom(site)(s.followers[i]) == 0 <==> Presence(site)(s.followers[i]) == 1);
    forall i, t | 0 <= i < |s.followers| && FollowerStep(c, s, t, i)
      ensures Sum(t.followers, AwayFrom(site)) < Sum(s.followers, AwayFrom(site))
    {
      StepsCloser(c, s, t, site, i);
    }
    forall i | 0 <= i < |s.followers| && !ParkedAt(s.followers[i], site) ensures exists t :: FollowerStep(c, s, t, i) {
      FollowerCanStep(c, s, i);
    }
  }

  /** A wait for the site to empty: nobody parks there meanwhile, and whoever is parked can leave. */
  lemma EmptyingEnds(c: Config, s: State, site: Site)
    requires c.Valid() && Invariant(s) && s.pc == WaitEmpty(site)
    ensures forall i, t :: 0 <= i < |s.followers| && FollowerStep(c, s, t, i) ==>
              t.At(site).ready == s.At(site).ready - if ParkedAt(s.followers[i], site) then 1 else 0
    ensures s.At(site).ready > 0 ==>
              exists i, t :: 0 <= i < |s.followers| && ParkedAt(s.followers[i], site) && FollowerStep(c, s, t, i)
  {
    hide Sum;
    SumBounds(s.followers, Presence(site), 1);
    if s.At(site).ready > 0 {
      var i :| 0 <= i < |s.followers| && Presence(site)(s.followers[i]) != 0;
      FollowerCanStep(c, s, i);
    }
  }

  /** Nothing but a closed site stops a follower. */
  lemma FollowerCanStep(c: Config, s: State, i: nat)
    requires c.Valid() && s.pc != LDone && Invariant(s) && i < |s.followers|
    requires s.followers[i].pc.Parked? ==> s.At(s.followers[i].pc.site).isSet
    ensures exists t :: FollowerStep(c, s, t, i)
  {
    var f := s.followers[i];
    var move := (g: Follower) => s.(followers := s.followers[i := g]);
    var t := match f.pc
      case Top => move(f.(pc := Getting, recorded := Some(f.id)))
      case Getting => move(f.(pc := Training))
      case Training => move(f.(pc := Yielding(AtSave), trained := Some(f.id)))
      case Yielding(site) =>
        var p := s.At(site);
        if p.isSet then move(PastSite(c, f, site))
        else s.With(site, p.(ready := p.ready + 1)).(followers := s.followers[i := f.(pc := Parked(site, false))])
      case Parked(site, _) =>
        var p := s.At(site);
        s.With(site, p.(ready := p.ready - 1)).(followers := s.followers[i := PastSite(c, f, site)])
      case Updating => move(f.(pc := Yielding(AtEval), updates := f.updates + [f.id]))
      case Stopped => s;
    assert FollowerStep(c, s, t, i);
  }

  /** No reachable state is stuck before the leader is done. */
  lemma NoDeadlock(c: Config, run: seq<State>, k: nat)
    requires c.Valid() && Run(c, run) && k < |run| && run[k].pc != LDone
    ensures exists t :: Next(c, run[k], t)
  {
    var s := run[k];
    EveryStateIsSafe(c, run, k);
    if s.pc.WaitEmpty? {
      var site := s.pc.site;
      EmptyingEnds(c, s, site);
      if s.At(site).ready == 0 {
        assert Next(c, s, Close(s, site).(pc := WaitAll(site)));
      } else {
        var i, t :| 0 <= i < |s.followers| && FollowerStep(c, s, t, i);
        assert Next(c, s, t);
      }
    } else if s.pc.WaitAll? {
      var site := s.pc.site;
      CollectingEnds(c, s, site);
      if s.At(site).ready == |s.followers| {
        assert Next(c, s, s.(pc := Body(site), saving := s.Dictionary()));
      } else {
        SumBounds(s.followers, Presence(site), 1);
        var i :| 0 <= i < |s.followers| && Presence(site)(s.followers[i]) != 1;
        var t :| FollowerStep(c, s, t, i);
        assert Next(c, s, t);
      }
    } else {
      LeaderCanStep(c, s);
    }
  }

  /** Outside its waits the leader can always go on. */
  lemma LeaderCanStep(c: Config, s: State)
    requires c.Valid() && s.pc != LDone && !s.pc.WaitEmpty? && !s.pc.WaitAll?
    ensures exists t :: Next(c, s, t)
  {
    var t := match s.pc
      case LTop => if s.id < c.num then s.(pc := LGetting, recorded := Some(s.id)) else s.(pc := LDone)
      case LGetting => s.(pc := LTraining)
      case LTraining => s.(trained := Some(s.id)).(pc := WaitEmpty(AtSave))
      case Body(_) => LeaveBody(c, s)
      case LUpdating => AfterUpdate(c, s.(updates := s.updates + [s.id]))
      case _ => s;
    assert Next(c, s, t);
  }

  // ---------------------------------------------------------------- one record per leader rollout

  /** The round the leader's next checkpoint belongs to: all written so far are of earlier rounds. */
  function Round(s: State): nat {
    match s.pc
    case LTop | LGetting | LTraining => s.id
    case WaitEmpty(AtSave) | WaitAll(AtSave) | Body(AtSave) => s.id
    case _ => s.id + 1
  }

  /** Records are filed under the leader's id; these grow, so that no record is overwritten. */
  ghost predicate RecordsGrow(s: State) {
    && (forall k :: 0 <= k < |s.checkpoints| ==> |s.checkpoints[k].record| > 0 && s.checkpoints[k].record[0].Some?)
    && (forall k :: 0 <= k < |s.checkpoints| ==> s.checkpoints[k].record[0].value < Round(s))
    && (forall j, k :: 0 <= j < k < |s.checkpoints| ==>
          s.checkpoints[j].record[0].value < s.checkpoints[k].record[0].value)
  }

  lemma {:induction false} RecordsAreDistinct(c: Config, run: seq<State>, k: nat)
    requires c.Valid() && Run(c, run) && k < |run|
    ensures RecordsGrow(run[k])
  {
    if k > 0 {
      RecordsAreDistinct(c, run, k - 1);
      EveryStateIsSafe(c, run, k - 1);
      assert Next(c, run[k - 1], run[k]);
      hide RecordsGrow, LeaderStep, FollowerStep, EndStep, Invariant, CheckpointInvariant;
      if LeaderStep(c, run[k - 1], run[k]) {
        RecordsGrowStep(c, run[k - 1], run[k]);
      } else {
        OthersKeepRecords(c, run[k - 1], run[k]);
      }
    }
  }

  lemma OthersKeepRecords(c: Config, s: State, t: State)
    requires c.Valid() && RecordsGrow(s) && Next(c, s, t) && !LeaderStep(c, s, t)
    ensures RecordsGrow(t)
  {
    hide LeaderStep, RecordsGrow;
    assert t.checkpoints == s.checkpoints && t.pc == s.pc && t.id == s.id;
    SameRecords(s, t);
  }

  lemma SameRecords(s: State, t: State)
    requires RecordsGrow(s) && t.checkpoints == s.checkpoints && t.pc == s.pc && t.id == s.id
    ensures RecordsGrow(t)
  {}

  lemma RecordsGrowStep(c: Config, s: State, t: State)
    requires c.Valid() && Invariant(s) && RecordsGrow(s) && LeaderStep(c, s, t)
    ensures RecordsGrow(t)
  {
    hide Sum, ParkInvariant, Wake, RecordsGrow;
    if s.pc == Body(AtSave) {
      assert s.recorded == Some(s.id);
      assert t.checkpoints == s.checkpoints + [Checkpoint(s.saving, s.Dictionary(), s.LastTrained())];
      AppendedRecord(s, t);
    } else {
      assert t.checkpoints == s.checkpoints;
      OlderRecords(s, t);
    }
  }

  lemma AppendedRecord(s: State, t: State)
    requires RecordsGrow(s) && s.pc == Body(AtSave) && s.recorded == Some(s.id) && Round(s) < Round(t)
    requires t.checkpoints == s.checkpoints + [Checkpoint(s.saving, s.Dictionary(), s.LastTrained())]
    ensures RecordsGrow(t)
  {}

  lemma OlderRecords(s: State, t: State)
    requires RecordsGrow(s) && t.checkpoints == s.checkpoints && Round(s) <= Round(t)
    ensures RecordsGrow(t)
  {}

  // ---------------------------------------------------------------- the cadence of updates, evals and saves

  /** The rounds from `first` to `end` after which the weights are sent: every multiple of the interval, each once, in order. */
  ghost predicate UpdatesAt(c: Config, ids: seq<nat>, first: nat, end: nat)
    requires c.Valid()
  {
    && (forall i, j :: 0 <= i < j < |ids| ==> ids[i] < ids[j])
    && forall r: nat :: r in ids <==> first <= r < end && (r + 1) % c.interval == 0
  }

  /** The last round of all, every multiple of the interval and every end of an epoch; none without an interval. */
  ghost predicate PeriodicRound(c: Config, interval: Option<nat>, r: nat)
    requires c.Valid() && interval != Some(0)
  {
    interval.Some? && (r + 1 == c.num || (r + 1) % interval.value == 0 || (c.perEpoch.Some? && (r + 1) % c.perEpoch.value == 0))
  }

  ghost predicate EvalsAt(c: Config, ids: seq<nat>, end: nat)
    requires c.Valid()
  {
    && (forall i, j :: 0 <= i < j < |ids| ==> ids[i] < ids[j])
    && forall r: nat :: r in ids <==> c.leaderStart <= r < end && PeriodicRound(c, c.evalInterval, r)
  }

  /** The leader's id in each checkpoint. */
  function SavedRounds(checkpoints: seq<Checkpoint>): seq<Option<nat>> {
    seq(|checkpoints|, i requires 0 <= i < |checkpoints| => if checkpoints[i].record == [] then None else checkpoints[i].record[0])
  }

  /** Every periodic round is saved; others may be, when asked for from outside. */
  ghost predicate SavesAt(c: Config, checkpoints: seq<Checkpoint>, end: nat)
    requires c.Valid()
  {
    && (forall o :: o in SavedRounds(checkpoints) ==> o.Some? && c.leaderStart <= o.value < end)
    && forall r: nat :: c.leaderStart <= r < end && PeriodicRound(c, c.saveInterval, r) ==> Some(r) in SavedRounds(checkpoints)
  }

  /** What has been done once the rounds before `end` are over, as far as updates, evals and saves are concerned. */
  ghost predicate DoneUpTo(c: Config, s: State, updates: nat, evals: nat, saves: nat)
    requires c.Valid()
  {
    UpdatesAt(c, s.updates, c.leaderStart, updates) && EvalsAt(c, s.evals, evals) && SavesAt(c, s.checkpoints, saves)
  }

  /** The round under way is one of the run's. */
  ghost predicate WithinRun(c: Config, s: State) {
    c.leaderStart <= s.id < c.num && (s.id > c.leaderStart ==> !ExitAfter(s.id - c.leaderStart, c.debugExit))
  }

  /** What the leader has done where it is suspended; at the end, all rounds of the run. */
  ghost predicate LeaderOnSchedule(c: Config, s: State)
    requires c.Valid()
  {
    match s.pc
    case LTop =>
      && DoneUpTo(c, s, s.id, s.id, s.id) && c.leaderStart <= s.id
      && (s.id > c.leaderStart ==> s.id <= c.num && !ExitAfter(s.id - c.leaderStart, c.debugExit))
    case LGetting | LTraining => DoneUpTo(c, s, s.id, s.id, s.id) && WithinRun(c, s)
    case WaitEmpty(AtSave) | WaitAll(AtSave) | Body(AtSave) => DoneUpTo(c, s, s.id, s.id, s.id) && WithinRun(c, s)
    case LUpdating => DoneUpTo(c, s, s.id, s.id, s.id + 1) && WithinRun(c, s) && (s.id + 1) % c.interval == 0
    case WaitEmpty(AtEval) | WaitAll(AtEval) | Body(AtEval) =>
      DoneUpTo(c, s, s.id + 1, s.id, s.id + 1) && WithinRun(c, s) && PeriodicRound(c, c.evalInterval, s.id)
    case LDone =>
      var end := c.leaderStart + StepsRun(c.leaderStart, c.num, c.debugExit);
      DoneUpTo(c, s, end, end, end)
  }

  ghost predicate FollowerOnSchedule(c: Config, f: Follower)
    requires c.Valid()
  {
    match f.pc
    case Top | Getting | Training | Yielding(AtSave) | Parked(AtSave, _) => f.start <= f.id && UpdatesAt(c, f.updates, f.start, f.id)
    case Updating => f.start <= f.id && UpdatesAt(c, f.updates, f.start, f.id) && (f.id + 1) % c.interval == 0
    case Yielding(AtEval) | Parked(AtEval, _) => f.start <= f.id && UpdatesAt(c, f.updates, f.start, f.id + 1)
    case Stopped => f.start <= f.id && (UpdatesAt(c, f.updates, f.start, f.id) || UpdatesAt(c, f.updates, f.start, f.id + 1))
  }

  ghost predicate OnSchedule(c: Config, s: State)
    requires c.Valid()
  {
    LeaderOnSchedule(c, s) && forall i :: 0 <= i < |s.followers| ==> FollowerOnSchedule(c, s.followers[i])
  }

  lemma UpdatesStep(c: Config, ids: seq<nat>, first: nat, r: nat)
    requires c.Valid() && first <= r && UpdatesAt(c, ids, first, r)
    ensures UpdatesAt(c, if (r + 1) % c.interval == 0 then ids + [r] else ids, first, r + 1)
  {
    assert forall i :: 0 <= i < |ids| ==> ids[i] in ids;
  }

  lemma EvalsStep(c: Config, ids: seq<nat>, r: nat)
    requires c.Valid() && c.leaderStart <= r && EvalsAt(c, ids, r)
    ensures EvalsAt(c, if PeriodicRound(c, c.evalInterval, r) then ids + [r] else ids, r + 1)
  {
    hide PeriodicRound;
    assert forall i :: 0 <= i < |ids| ==> ids[i] in ids;
  }

  lemma SavesStep(c: Config, checkpoints: seq<Checkpoint>, r: nat, cp: Checkpoint)
    requires c.Valid() && c.leaderStart <= r && SavesAt(c, checkpoints, r)
    ensures cp.record != [] && cp.record[0] == Some(r) ==> SavesAt(c, checkpoints + [cp], r + 1)
    ensures !PeriodicRound(c, c.saveInterval, r) ==> SavesAt(c, checkpoints, r + 1)
  {
    hide PeriodicRound;
    var before, after := SavedRounds(checkpoints), SavedRounds(checkpoints + [cp]);
    assert cp.record != [] ==> after == before + [cp.record[0]];
  }

  lemma DueIsPeriodic(c: Config, interval: Option<nat>, r: nat)
    requires c.Valid() && interval != Some(0)
    ensures Due(r, interval, c.perEpoch, c.num) <==> PeriodicRound(c, interval, r)
  {}

  lemma AfterEndOfRound(c: Config, s: State)
    requires c.Valid() && DoneUpTo(c, s, s.id + 1, s.id + 1, s.id + 1) && WithinRun(c, s)
    ensures LeaderOnSchedule(c, EndOfRound(c, s))
  {
    hide UpdatesAt, EvalsAt, SavesAt;
  }

  lemma AfterUpdateOnSchedule(c: Config, s: State)
    requires c.Valid() && DoneUpTo(c, s, s.id + 1, s.id, s.id + 1) && WithinRun(c, s)
    ensures LeaderOnSchedule(c, AfterUpdate(c, s))
  {
    hide UpdatesAt, EvalsAt, SavesAt, PeriodicRound, Due;
    DueIsPeriodic(c, c.evalInterval, s.id);
    EvalsStep(c, s.evals, s.id);
    if !PeriodicRound(c, c.evalInterval, s.id) {
      AfterEndOfRound(c, s);
    }
  }

  lemma AfterSaveOnSchedule(c: Config, s: State)
    requires c.Valid() && DoneUpTo(c, s, s.id, s.id, s.id + 1) && WithinRun(c, s)
    ensures LeaderOnSchedule(c, AfterSave(c, s))
  {
    hide UpdatesAt, EvalsAt, SavesAt, PeriodicRound, Due, AfterUpdate;
    UpdatesStep(c, s.updates, c.leaderStart, s.id);
    if (s.id + 1) % c.interval != 0 {
      AfterUpdateOnSchedule(c, s);
    }
  }

  lemma LeaderKeepsSchedule(c: Config, s: State, t: State)
    requires c.Valid() && Invariant(s) && LeaderOnSchedule(c, s) && LeaderStep(c, s, t)
    ensures LeaderOnSchedule(c, t)
  {
    hide UpdatesAt, EvalsAt, SavesAt, PeriodicRound, Due, AfterUpdate, AfterSave, EndOfRound, ParkInvariant, Wake, FollowerConsistent;
    match s.pc
    case LTraining =>
      DueIsPeriodic(c, c.saveInterval, s.id);
      var u := s.(trained := Some(s.id));
      SavesStep(c, s.checkpoints, s.id, Checkpoint([], [], []));
      if t == AfterSave(c, u) && !Due(s.id, c.saveInterval, c.perEpoch, c.num) {
        AfterSaveOnSchedule(c, u);
      }
    case Body(AtSave) =>
      var cp := Checkpoint(s.saving, s.Dictionary(), s.LastTrained());
      SavesStep(c, s.checkpoints, s.id, cp);
      AfterSaveOnSchedule(c, Open(s.(checkpoints := s.checkpoints + [cp]), AtSave));
    case Body(AtEval) =>
      EvalsStep(c, s.evals, s.id);
      AfterEndOfRound(c, Open(s.(evals := s.evals + [s.id]), AtEval));
    case LUpdating =>
      UpdatesStep(c, s.updates, c.leaderStart, s.id);
      AfterUpdateOnSchedule(c, s.(updates := s.updates + [s.id]));
    case _ =>
  }

  lemma FollowerKeepsSchedule(c: Config, s: State, t: State, i: nat)
    requires c.Valid() && i < |s.followers| && FollowerOnSchedule(c, s.followers[i])
    requires FollowerStep(c, s, t, i) || EndStep(s, t, i)
    ensures t.followers == s.followers[i := t.followers[i]] && FollowerOnSchedule(c, t.followers[i])
    ensures LeaderOnSchedule(c, s) ==> LeaderOnSchedule(c, t)
  {
    hide UpdatesAt, EvalsAt, SavesAt, PeriodicRound, ExitAfter, StepsRun;
    var f := s.followers[i];
    if UpdatesAt(c, f.updates, f.start, f.id) {
      UpdatesStep(c, f.updates, f.start, f.id);
    }
  }

  /** The leader touches no follower's schedule. */
  lemma LeaderLeavesFollowers(c: Config, s: State, t: State)
    requires c.Valid() && LeaderStep(c, s, t)
    requires forall i :: 0 <= i < |s.followers| ==> FollowerOnSchedule(c, s.followers[i])
    ensures forall i :: 0 <= i < |t.followers| ==> FollowerOnSchedule(c, t.followers[i])
  {
    hide UpdatesAt;
    if s.pc.Body? {
      assert t.followers == Wake(s.followers, s.pc.site);
    } else {
      assert t.followers == s.followers;
    }
  }

  /** In every run, every trainer sends its weights after exactly the rounds of the interval, and the leader evaluates after
      exactly the periodic rounds and saves after all periodic ones; when the leader is done, it has been through the whole
      run, up to the debug exit. */
  lemma {:induction false} EveryRunIsOnSchedule(c: Config, run: seq<State>, k: nat)
    requires c.Valid() && Run(c, run) && k < |run|
    ensures OnSchedule(c, run[k])
  {
    if k > 0 {
      EveryRunIsOnSchedule(c, run, k - 1);
      EveryStateIsSafe(c, run, k - 1);
      var s, t := run[k - 1], run[k];
      assert Next(c, s, t);
      hide LeaderOnSchedule, FollowerOnSchedule, LeaderStep, FollowerStep, EndStep, Invariant, CheckpointInvariant;
      if LeaderStep(c, s, t) {
        LeaderKeepsSchedule(c, s, t);
        LeaderLeavesFollowers(c, s, t);
      } else {
        var i :| 0 <= i < |s.followers| && (FollowerStep(c, s, t, i) || EndStep(s, t, i));
        FollowerKeepsSchedule(c, s, t, i);
      }
    }
  }
}
