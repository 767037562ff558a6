/** One completion request, from the cache lookup over the cascade to the scheduled cache write. */
module Service {
  import opened Wrappers
  import opened Cascade
  import opened CascadeRun
  import Provenance = CascadeProvenance
  import Path = CascadePath
  import Keys = CacheKeys
  import Cache = SemanticCache

  /** The tier that the caller wants at least. */
  datatype Floor = Tier1 | Tier2 | Tier3

  function FloorNumber(f: Floor): nat {
    match f
    case Tier1 => 1
    case Tier2 => 2
    case Tier3 => 3
  }

  datatype Completion = Completion(prompt: Keys.Content, floor: Floor, cacheable: bool, requiresJson: bool) {
    predicate SkipsCache() { prompt.Parts? || !cacheable }

    /** The floor as the cascade reads it: a forced starting tier, none for the cheapest tier. */
    function Learning(): Learning {
      if floor.Tier3? && !requiresJson then NO_LEARNING else
      Cascade.Learning(false, if FloorNumber(floor) < 3 then Some(FloorNumber(floor)) else None, None, {}, {}, false,
                       requiresJson)
    }

    function Config(base: Config): Config { base.(learning := Learning(), bandit := None) }

    function Context(taskType: string): Cache.Context {
      Cache.Context([Keys.Message("user", prompt)], taskType, "default", [], None)
    }
  }

  // ---------------------------------------------------------------------------
  // The floor
  // ---------------------------------------------------------------------------

  /** A call respects the floor: it is at that tier or a more capable one, or it is the tier-2 fallback of a denied
      frontier check. */
  predicate AboveFloor(floor: Floor, d: Dispatch) {
    d.tier <= FloorNumber(floor) || (d.tier == 2 && d.afterDenial)
  }

  /** Every run: with a floor of 2 no call goes to tier 3 or below, and with a floor of 1 none goes to tier 2 unless
      the frontier cap was denied before it. */
  lemma FloorIsKept(r: Completion, base: Config, pick: nat, ins: seq<Input>)
    requires WellFormed(r.Config(base)) && !r.floor.Tier3?
    ensures var ds := Trace(r.Config(base), pick, ins).s.dispatches;
      forall k :: 0 <= k < |ds| ==> AboveFloor(r.floor, ds[k])
    ensures r.floor.Tier2? ==>
      var ds := Trace(r.Config(base), pick, ins).s.dispatches; forall k :: 0 <= k < |ds| ==> ds[k].tier <= 2
  {
    var c := r.Config(base);
    if Start(c, pick).Looping? {
      Path.StartWithoutBandit(c, pick);
      Path.RunTiers(c, pick, ins);
      var start := Start(c, pick).s.tier;
      var ds := Trace(c, pick, ins).s.dispatches;
      forall k | 0 <= k < |ds| ensures AboveFloor(r.floor, ds[k]) {
        assert Path.InRange(c, start, ds[k].tier, ds[k].afterDenial);
      }
    } else {
      RaisedAtOnce(c, pick, ins);
    }
  }

  /** A request for at least tier 1 or 2 starts there if that tier has a capable model, and one for tier 3 where the
      policy starts it. */
  lemma StartsAtFloor(r: Completion, base: Config, pick: nat)
    requires WellFormed(r.Config(base))
    ensures var tier := if r.floor.Tier1? then 1 else if r.floor.Tier2? then 2 else base.policyTier;
      Pool(r.Config(base), tier) != [] ==> Start(r.Config(base), pick).Looping? && Start(r.Config(base), pick).s.tier == tier
  {
  }

  /** Every run of a JSON completion: every main-loop call goes to a model of its tier that supports JSON mode, as far as
      the catalog knows it, if the tier lists one that has this and all else the request declares. */
  lemma JsonIsRequired(r: Completion, base: Config, pick: nat, ins: seq<Input>, k: nat)
    requires WellFormed(r.Config(base)) && r.requiresJson && k < |Trace(r.Config(base), pick, ins).s.dispatches|
    ensures var c, d := r.Config(base), Trace(r.Config(base), pick, ins).s.dispatches[k];
      d.kind.Main? && IsTier(c, d.tier) && Path.TierHasFitting(c, d.tier) && d.model in base.catalog ==>
        base.catalog[d.model].supportsJsonMode
  {
    Path.RunNeeds(r.Config(base), pick, ins);
    hide Trace, Path.TierHasFitting;
  }

  lemma {:induction false} RaisedAtOnce(c: Config, pick: nat, ins: seq<Input>)
    requires WellFormed(c) && !Start(c, pick).Looping?
    ensures Trace(c, pick, ins) == Start(c, pick)
  {
    if ins != [] {
      RaisedAtOnce(c, pick, ins[..|ins| - 1]);
    }
  }

  // ---------------------------------------------------------------------------
  // Runs and what they earn
  // ---------------------------------------------------------------------------

  /** What the outside contributes to one request; `answers(n)` is what dispatch `n` answers. */
  datatype World = World(
    taskType: string, modelReady: bool, now: real, base: Config, pick: nat, env: nat -> Input,
    answers: nat -> Cache.Answer)

  datatype Run = Run(request: Completion, world: World, passes: nat) {
    ghost predicate WellFormed() { Cascade.WellFormed(request.Config(world.base)) }

    ghost function Status(): Status
      requires WellFormed()
    {
      Trace(request.Config(world.base), world.pick, Prefix(world.env, passes))
    }
  }

  /** The served answer: the provider's, under the reported model and tier. */
  function ServedAnswer(answers: nat -> Cache.Answer, s: State): Cache.Answer
    requires s.result.Some?
  {
    answers(s.result.value.origin).(modelUsed := s.result.value.model, modelTier := s.tier)
  }

  /** The write is the answer of a text-only, cacheable request whose run passed its quality check at the end. */
  ghost predicate EarnedBy(w: Cache.WriteCall, run: Run) {
    && !run.request.prompt.Parts? && run.request.cacheable && run.WellFormed()
    && w.context == run.request.Context(run.world.taskType)
    && (var t := run.Status();
        && t.Served? && (t.exit.QualityPassed? || t.exit.FrontierServed?)
        && t.s.qualityPassed == Some(true)
        && t.s.result.Some? && w.answer == ServedAnswer(run.world.answers, t.s))
  }

  ghost predicate Earned(w: Cache.WriteCall, runs: seq<Run>) {
    exists k :: 0 <= k < |runs| && EarnedBy(w, runs[k])
  }

  lemma StillEarned(w: Cache.WriteCall, runs: seq<Run>, more: seq<Run>)
    requires Earned(w, runs) && runs <= more
    ensures Earned(w, more)
  {
    var k :| 0 <= k < |runs| && EarnedBy(w, runs[k]);
    assert EarnedBy(w, more[k]);
  }

  /** `quality_passed` is decided, and says success only after a passed check of the served answer itself. */
  predicate QualityDecided(exit: Exit, s: State) {
    && s.result.Some? && (s.qualityPassed == Some(true) || s.qualityPassed == Some(false))
    && (s.qualityPassed == Some(true) ==> exit.QualityPassed? || exit.FrontierServed?)
    && (exit.QualityPassed? ==> s.qualityPassed == Some(true))
    && (!exit.QualityPassed? && !exit.FrontierServed? ==> s.qualityPassed == Some(false))
  }

  /** What every served run reports for `quality_passed`: never nothing. An aggregated or degraded answer is reported as
      failed, even if it passed the check among its competitors. */
  lemma QualityIsAlwaysDecided(c: Config, pick: nat, ins: seq<Input>)
    requires WellFormed(c)
    ensures var t := Trace(c, pick, ins); t.Served? ==> QualityDecided(t.exit, t.s)
  {
    Provenance.RunReport(c, pick, ins);
    var t := Trace(c, pick, ins);
    hide *;
    if t.Served? {
      ServedQuality(c, t.exit, t.s);
    }
  }

  lemma ServedQuality(c: Config, exit: Exit, s: State)
    requires WellFormed(c) && Provenance.StatusInv(c, Served(exit, s))
    ensures QualityDecided(exit, s)
  {
    hide Pool, Provenance.HoldsLatest, WellFormed;
    assert s.qualityPassed == Some(s.qualityPassed.value);
    assert s.qualityPassed.value == true || s.qualityPassed.value == false;
  }

  lemma WriteIsEarned(w: Cache.WriteCall, run: Run)
    requires !run.request.SkipsCache() && run.WellFormed() && w.context == run.request.Context(run.world.taskType)
    requires run.Status().Served? && QualityDecided(run.Status().exit, run.Status().s)
    requires run.Status().s.qualityPassed != Some(false) && w.answer == ServedAnswer(run.world.answers, run.Status().s)
    ensures EarnedBy(w, run)
  {
  }

  /** A completion is a single message, so nothing comes before it: all of them share one fingerprint, and the cache
      tells them apart by similarity alone. */
  lemma OneFingerprint(f: Cache.Functions, r: Completion, taskType: string)
    ensures Cache.Fingerprint(f, r.Context(taskType)) == f.digest("")
    ensures Keys.CacheText(r.Context(taskType).messages) == Keys.ContentText(r.prompt)
  {
    var messages := r.Context(taskType).messages;
    assert Keys.LastUser(messages) == 0 && Keys.Prior(messages) == [];
    assert Keys.SystemPrompt(messages) == Keys.SystemPrompt(messages[1..]) == "";
    assert Keys.FingerprintText([], []) == "" && Keys.Turns([]) == [];
  }

  datatype Reply =
    | Hit(hit: Cache.CacheHit)
    | Computed(answer: Cache.Answer, qualityPassed: Option<bool>)
    | Failed(failure: Failure)

  class Service {
    const cache: Cache.SemanticCache
    /** Every run of the cascade so far. */
    ghost var runs: seq<Run>

    /** All that the cache holds or is about to hold has been earned. */
    ghost predicate Valid()
      reads this, cache, cache.store, cache.store.redis
    {
      && cache.Valid()
      && (forall n :: 0 <= n < |cache.written| ==> Earned(cache.written[n].call, runs))
      && (forall n :: 0 <= n < |cache.tasks| ==> Earned(cache.tasks[n], runs))
    }

    constructor (cache: Cache.SemanticCache, ghost earlier: seq<Run>)
      requires cache.Valid() && cache.tasks == []
      requires forall n :: 0 <= n < |cache.written| ==> Earned(cache.written[n].call, earlier)
      ensures Valid() && this.cache == cache && runs == earlier
    {
      this.cache := cache;
      runs := earlier;
    }

    /** Look in the cache; on a miss run the cascade and schedule a write if the answer did not fail its check. */
    method Complete(r: Completion, w: World, ghost horizon: nat) returns (reply: Reply)
      requires Valid() && WellFormed(r.Config(w.base))
      requires w.env(horizon).elapsed >= w.base.budget && forall k :: Plausible(r.Config(w.base), w.env(k))
      modifies this`runs, cache`tasks
      ensures Valid()
      ensures reply.Hit? ==> !r.prompt.Parts? && r.cacheable && runs == old(runs) && cache.tasks == old(cache.tasks)
      ensures reply.Hit? ==> exists n :: 0 <= n < |cache.written| && Serves(cache.written[n], r, w, reply.hit)
      ensures !reply.Hit? ==> |runs| == |old(runs)| + 1 && Reports(r, w, runs[|old(runs)|], reply)
      ensures !reply.Hit? ==> runs[..|old(runs)|] == old(runs)
      ensures cache.tasks == if !r.prompt.Parts? && r.cacheable && reply.Computed? && reply.qualityPassed == Some(true)
                             then old(cache.tasks) + [Cache.WriteCall(r.Context(w.taskType), reply.answer, 1.0)]
                             else old(cache.tasks)
    {
      hide Cache.GenuineIndex, Cache.GenuineData, Cache.AllGated, Cache.Gated, Cache.Justifies, Cache.CipherWorks;
      hide Trace, EarnedBy, WellFormed, Plausible;
      if !r.SkipsCache() {
        var hit := cache.Get(r.Context(w.taskType), 0.0, w.now, w.modelReady);
        if hit.Some? {
          return Hit(hit.value);
        }
      }
      ghost var runsBefore := runs;
      var next, passes, result, tier, quality := RunCascade(r, w, horizon);
      ghost var run := Run(r, w, passes);
      runs := runs + [run];
      forall n | 0 <= n < |cache.written| ensures Earned(cache.written[n].call, runs) {
        StillEarned(cache.written[n].call, runsBefore, runs);
      }
      forall n | 0 <= n < |cache.tasks| ensures Earned(cache.tasks[n], runs) {
        StillEarned(cache.tasks[n], runsBefore, runs);
      }
      if next.Raise? {
        return Failed(next.failure);
      }
      QualityIsAlwaysDecided(r.Config(w.base), w.pick, Prefix(w.env, passes));
      var answer := w.answers(result.value.origin).(modelUsed := result.value.model, modelTier := tier);
      reply := Computed(answer, quality);
      if !r.SkipsCache() && quality != Some(false) {
        var write := Cache.WriteCall(r.Context(w.taskType), answer, 1.0);
        WriteIsEarned(write, run);
        assert runs[|runsBefore|] == run;
        cache.ScheduleSet(write);
      }
    }

    /** A hit gives back what an earlier run earned and the gate let through. */
    ghost predicate Serves(entry: Cache.Written, r: Completion, w: World, hit: Cache.CacheHit)
      reads this, cache
    {
      && Earned(entry.call, runs) && Cache.Gated(cache.agentSteps, entry.call)
      && Cache.Justifies(cache.f, entry, r.Context(w.taskType), hit, w.now, cache.lastSecond)
    }

    /** What a computed reply says of its run. */
    ghost predicate Reports(r: Completion, w: World, run: Run, reply: Reply) {
      && run.request == r && run.world == w && run.WellFormed()
      && (match run.Status()
          case Served(_, s) => s.result.Some? && reply == Computed(ServedAnswer(w.answers, s), s.qualityPassed)
          case Raised(failure, _) => reply == Failed(failure)
          case Looping(_) => false)
    }

    /** The cascade, and what is read off its variables afterwards. */
    method RunCascade(r: Completion, w: World, ghost horizon: nat)
      returns (next: Next, passes: nat, result: Option<Response>, tier: nat, quality: Option<bool>)
      requires WellFormed(r.Config(w.base))
      requires w.env(horizon).elapsed >= w.base.budget && forall k :: Plausible(r.Config(w.base), w.env(k))
      ensures !next.Continue?
      ensures var t := Run(r, w, passes).Status();
        && t == StatusOf(next, t.s) && result == t.s.result && tier == t.s.tier && quality == t.s.qualityPassed
    {
      var request := new Request(r.Config(w.base));
      next, passes := request.Run(w.pick, w.env, horizon);
      assert StatusOf(next, request.Now()) == Run(r, w, passes).Status();
      result, tier, quality := request.result, request.tier, request.qualityPassed;
    }

    /** A scheduled write takes place, at some later time. */
    method RunTask(k: nat, id: string, now: real, modelReady: bool, reachable: bool)
      requires Valid() && k < |cache.tasks|
      modifies cache`tasks, cache`written, cache.store`records, cache.store.redis
      ensures Valid() && cache.tasks == old(cache.tasks)[..k] + old(cache.tasks)[k + 1..]
    {
      hide Cache.GenuineIndex, Cache.GenuineData, Cache.AllGated, Cache.Gated, Cache.CipherWorks, EarnedBy;
      cache.RunTask(k, id, now, modelReady, reachable);
    }

    /** Reopen the cache from what is stored. */
    method WarmUp(now: real, reachable: bool)
      requires Valid()
      modifies cache`enabled, cache`lastSecond, cache.store`records
      ensures Valid() && cache.enabled
    {
      hide Cache.GenuineIndex, Cache.GenuineData, Cache.AllGated, Cache.Gated, Cache.CipherWorks, EarnedBy;
      cache.WarmUp(now, reachable);
    }
  }
}
