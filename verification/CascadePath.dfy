/** Which tiers and which models a run may dispatch to. */
module CascadePath {
  import opened Wrappers
  import opened Capabilities
  import opened Exceptions
  import opened Cascade
  import Aggregation

  // ---------------------------------------------------------------------------
  // Tiers
  // ---------------------------------------------------------------------------

  /** The lowest tier number a run starting at `start` may reach under the memory cap. */
  function Floor(c: Config, start: nat): int {
    if c.learning.maxTier.Some? && !c.learning.isShadow then
      if c.learning.maxTier.value < start then c.learning.maxTier.value else start
    else 1
  }

  /** A call is within the run's range: not below the memory cap, and above the starting tier only as the
      tier-2 fallback of a denied frontier check. */
  ghost predicate InRange(c: Config, start: nat, tier: nat, afterDenial: bool) {
    && tier >= Floor(c, start)
    && (tier <= start || (tier == 2 && afterDenial))
  }

  /** Later calls never go to a higher tier number, except from 1 to 2 once the cap has been denied. */
  ghost predicate Descending(ds: seq<Dispatch>) {
    forall j, k :: 0 <= j < k < |ds| ==>
      ds[k].tier <= ds[j].tier || (ds[j].tier == 1 && ds[k].tier == 2 && ds[k].afterDenial)
  }

  ghost predicate TierInv(c: Config, start: nat, s: State) {
    && InRange(c, start, s.tier, s.capFellBack)
    && (s.capFellBack <==> s.denials > 0)
    && (forall j :: 0 <= j < |s.dispatches| ==>
          InRange(c, start, s.dispatches[j].tier, s.dispatches[j].afterDenial)
          && s.dispatches[j].tier >= 1
          && (s.tier <= s.dispatches[j].tier || (s.tier == 2 && s.capFellBack && s.dispatches[j].tier == 1)))
    && Descending(s.dispatches)
  }

  /** No main-loop call after a denial has answered. */
  ghost predicate UnansweredSinceDenial(s: State) {
    forall j :: 0 <= j < |s.dispatches| ==>
      s.dispatches[j].kind.Main? && s.dispatches[j].afterDenial ==> !s.dispatches[j].result.Answered?
  }

  ghost predicate LogInRange(c: Config, start: nat, s: State) {
    && (forall j :: 0 <= j < |s.dispatches| ==>
          InRange(c, start, s.dispatches[j].tier, s.dispatches[j].afterDenial))
    && Descending(s.dispatches)
  }

  lemma {:induction false} SkipStaysAbove(c: Config, start: nat, t: nat)
    requires IsTier(c, t) && t >= Floor(c, start)
    ensures SkipEmpty(c, t) >= Floor(c, start)
    decreases t
  {
    if Pool(c, t) == [] {
      match GetNext(c, t)
      case None =>
      case Some(n) => SkipStaysAbove(c, start, n);
    }
  }

  lemma NextStaysAbove(c: Config, start: nat, t: nat)
    requires IsTier(c, t) && t >= Floor(c, start)
    ensures GetNext(c, t).Some? ==> GetNext(c, t).value >= Floor(c, start)
  {
  }

  lemma AdmitKeepsTiers(c: Config, start: nat, s: State, i: Input)
    requires WellFormed(c) && IsTier(c, s.tier) && IsTier(c, start) && TierInv(c, start, s)
    ensures TierInv(c, start, Admit(c, s, i))
  {
  }

  lemma LoggingKeepsTiers(c: Config, start: nat, s: State, result: DispatchResult)
    requires IsTier(c, s.tier) && TierInv(c, start, s)
    ensures TierInv(c, start, LogDispatch(s, result))
  {
  }

  lemma ParallelKeepsTiers(c: Config, start: nat, s: State, i: Input)
    requires IsTier(c, s.tier) && TierInv(c, start, s)
    ensures var t := LogParallel(c, s, i);
      && TierInv(c, start, t) && t.tier == s.tier && t.capFellBack == s.capFellBack
      && (UnansweredSinceDenial(s) ==> UnansweredSinceDenial(t))
  {
    hide Pool, AggregationCandidates;
    var t := LogParallel(c, s, i);
    forall k | |s.dispatches| <= k < |t.dispatches|
      ensures t.dispatches[k].tier == s.tier && t.dispatches[k].afterDenial == s.capFellBack
      ensures t.dispatches[k].kind.Parallel?
    {
    }
  }

  ghost predicate TierReport(c: Config, start: nat, r: Status) {
    && LogInRange(c, start, r.s)
    && (r.Looping? ==> TierInv(c, start, r.s) && UnansweredSinceDenial(r.s))
  }

  lemma FailureTiers(c: Config, start: nat, s: State, e: Exn, i: Input)
    requires WellFormed(c) && IsTier(c, s.tier) && IsTier(c, start) && TierInv(c, start, s) && UnansweredSinceDenial(s)
    ensures TierReport(c, start, OnFailure(c, s, e, i))
  {
    hide Pool, Fallbacks;
    LoggingKeepsTiers(c, start, s, Threw(e));
    NextStaysAbove(c, start, s.tier);
    if GetNext(c, s.tier).Some? {
      SkipStaysAbove(c, start, GetNext(c, s.tier).value);
    }
    assert UnansweredSinceDenial(LogDispatch(s, Threw(e)));
  }

  lemma QualityFailureTiers(c: Config, start: nat, s: State, i: Input)
    requires WellFormed(c) && IsTier(c, s.tier) && IsTier(c, start) && TierInv(c, start, s) && s.tier >= 2
    requires !s.capFellBack ==> UnansweredSinceDenial(s)
    requires s.capFellBack ==> s.tier == 2
    ensures TierReport(c, start, AfterQualityFailure(c, s, i))
    ensures s.capFellBack ==> !AfterQualityFailure(c, s, i).Looping?
  {
    hide Pool, LogParallel, AggregationCandidates, ServeAggregate;
    ParallelKeepsTiers(c, start, s, i);
    NextStaysAbove(c, start, s.tier);
    if GetNext(c, s.tier).Some? {
      SkipStaysAbove(c, start, GetNext(c, s.tier).value);
    }
  }

  lemma AnswerTiers(c: Config, start: nat, s: State, check: Check, i: Input)
    requires WellFormed(c) && IsTier(c, s.tier) && IsTier(c, start) && TierInv(c, start, s) && UnansweredSinceDenial(s)
    requires s.capFellBack ==> s.tier <= 2
    ensures TierReport(c, start, OnAnswer(c, s, check, i))
    ensures s.capFellBack ==> !OnAnswer(c, s, check, i).Looping?
  {
    var n := |s.dispatches|;
    LoggingKeepsTiers(c, start, s, Answered);
    var s1 := LogDispatch(s, Answered).(result := Some(Response(s.model, n)), lastTier := Some(s.tier));
    if !check.Crash? && s.tier != 1 && !check.Pass? {
      var s2 := LogOutcome(s1.(qualityPassed := Some(check.Pass?)), s.tier, check.Pass?, s.escalated, n);
      assert !s.capFellBack ==> UnansweredSinceDenial(s2);
      QualityFailureTiers(c, start, s2, i);
    }
  }

  /** After a denial the loop stands on tier 1 or 2. */
  ghost predicate LowAfterDenial(s: State) { s.capFellBack ==> s.tier <= 2 }

  lemma LowAfterDenialKept(c: Config, s: State, i: Input)
    requires WellFormed(c) && IsTier(c, s.tier) && LowAfterDenial(s)
    ensures var r := Step(c, s, i); r.Looping? ==> LowAfterDenial(r.s)
  {
    if i.elapsed < c.budget {
      var d := Admit(c, s, i);
      match i.call
      case Returns(check) => assert OnAnswer(c, d, check, i).Looping? ==> OnAnswer(c, d, check, i).s.tier <= d.tier;
      case Throws(e) => assert OnFailure(c, d, e, i).Looping? ==> OnFailure(c, d, e, i).s.tier <= d.tier;
    }
  }

  lemma StepTiers(c: Config, start: nat, s: State, i: Input)
    requires WellFormed(c) && IsTier(c, s.tier) && IsTier(c, start)
    requires TierInv(c, start, s) && UnansweredSinceDenial(s) && LowAfterDenial(s)
    ensures TierReport(c, start, Step(c, s, i))
  {
    if i.elapsed < c.budget {
      AdmitKeepsTiers(c, start, s, i);
      var d := Admit(c, s, i);
      assert UnansweredSinceDenial(d);
      match i.call
      case Returns(check) => AnswerTiers(c, start, d, check, i);
      case Throws(e) => FailureTiers(c, start, d, e, i);
    }
  }

  /** Every run, from the tier it starts on: calls stay in range and descend, and a loop that goes on has had
      no answer since the cap was denied, so after a denial the first successful call ends the run. */
  lemma {:induction false} RunTiers(c: Config, pick: nat, ins: seq<Input>)
    requires WellFormed(c) && Start(c, pick).Looping?
    ensures TierReport(c, Start(c, pick).s.tier, Trace(c, pick, ins))
    ensures var r := Trace(c, pick, ins); r.Looping? ==> LowAfterDenial(r.s)
  {
    var start := Start(c, pick).s.tier;
    if ins == [] {
      assert Trace(c, pick, ins) == Start(c, pick);
    } else {
      RunTiers(c, pick, ins[..|ins| - 1]);
      var before := Trace(c, pick, ins[..|ins| - 1]);
      assert IsTier(c, start) by {
        assert Trace(c, pick, []) == Start(c, pick);
      }
      if before.Looping? {
        StepTiers(c, start, before.s, ins[|ins| - 1]);
        LowAfterDenialKept(c, before.s, ins[|ins| - 1]);
      }
    }
  }

  /** Without a bandit choice the run starts at or below its initial tier and within the memory cap. */
  lemma StartWithoutBandit(c: Config, pick: nat)
    requires WellFormed(c) && c.bandit.None? && Start(c, pick).Looping?
    ensures var start := Start(c, pick).s.tier;
      1 <= start <= InitialTier(c) && start >= Floor(c, InitialTier(c)) && Floor(c, start) == Floor(c, InitialTier(c))
  {
    SkipStaysAbove(c, InitialTier(c), InitialTier(c));
  }

  // ---------------------------------------------------------------------------
  // Capabilities
  // ---------------------------------------------------------------------------

  /** The one way an incapable model is reached: tier 2 has no capable model and the frontier cap sent the
      request there, where selection from the empty pool answers the policy's configured model. */
  predicate ColdFallback(c: Config, model: ModelId, tier: nat, afterDenial: bool)
    requires WellFormed(c)
  {
    afterDenial && tier == 2 && Pool(c, 2) == [] && model == c.coldModel
  }

  predicate MediaSafe(c: Config, model: ModelId, tier: nat, afterDenial: bool)
    requires WellFormed(c)
  {
    SupportsMedia(c.catalog, model, c.declared) || ColdFallback(c, model, tier, afterDenial)
  }

  ghost predicate MediaLog(c: Config, s: State)
    requires WellFormed(c)
  {
    forall j :: 0 <= j < |s.dispatches| ==>
      MediaSafe(c, s.dispatches[j].model, s.dispatches[j].tier, s.dispatches[j].afterDenial)
  }

  ghost predicate MediaInv(c: Config, s: State)
    requires WellFormed(c)
  {
    MediaLog(c, s) && MediaSafe(c, s.model, s.tier, s.capFellBack)
  }

  lemma PoolIsMediaCapable(c: Config, t: nat)
    requires WellFormed(c) && IsTier(c, t) && c.declared.Media()
    ensures forall m :: m in Pool(c, t) ==> SupportsMedia(c.catalog, m, c.declared)
  {
    FilterSoundness(c.catalog, c.tierModels[t - 1], EffectiveNeeds(c));
  }

  lemma AdmitKeepsMedia(c: Config, s: State, i: Input)
    requires WellFormed(c) && IsTier(c, s.tier) && c.declared.Media() && MediaInv(c, s)
    ensures MediaInv(c, Admit(c, s, i))
  {
    PoolIsMediaCapable(c, 2);
  }

  lemma FailureMedia(c: Config, s: State, e: Exn, i: Input)
    requires WellFormed(c) && IsTier(c, s.tier) && c.declared.Media() && MediaInv(c, s)
    ensures var r := OnFailure(c, s, e, i); MediaLog(c, r.s) && (r.Looping? ==> MediaInv(c, r.s))
  {
    assert MediaLog(c, LogDispatch(s, Threw(e)));
    var r := OnFailure(c, s, e, i);
    assert MediaLog(c, r.s);
    if r.Looping? {
      PoolIsMediaCapable(c, r.s.tier);
    }
  }

  lemma ParallelMedia(c: Config, s: State, i: Input)
    requires WellFormed(c) && IsTier(c, s.tier) && c.declared.Media() && MediaLog(c, s) && Plausible(c, i)
    ensures MediaLog(c, LogParallel(c, s, i))
  {
    var models := c.tierModels[s.tier - 1];
    var cs := AggregationCandidates(c, s, i);
    Aggregation.CandidatesAreCapable(c.catalog, models, c.declared, s.model, c.aggregation.maxParallel, i.rank);
    forall k | 0 <= k < |cs| ensures SupportsMedia(c.catalog, cs[k], c.declared) {
      assert cs[k] in cs;
    }
  }

  lemma AnswerMedia(c: Config, s: State, check: Check, i: Input)
    requires WellFormed(c) && IsTier(c, s.tier) && c.declared.Media() && MediaInv(c, s) && Plausible(c, i)
    ensures var r := OnAnswer(c, s, check, i); MediaLog(c, r.s) && (r.Looping? ==> MediaInv(c, r.s))
  {
    var n := |s.dispatches|;
    var s1 := LogDispatch(s, Answered).(result := Some(Response(s.model, n)), lastTier := Some(s.tier));
    assert MediaLog(c, s1);
    hide Pool, ColdFallback, AfterQualityFailure, LogParallel;
    if !check.Crash? && s.tier != 1 && !check.Pass? {
      var s2 := LogOutcome(s1.(qualityPassed := Some(check.Pass?)), s.tier, check.Pass?, s.escalated, n);
      ParallelMedia(c, s2, i);
      var r := AfterQualityFailure(c, s2, i);
      assert MediaLog(c, r.s);
      if r.Looping? {
        PoolIsMediaCapable(c, r.s.tier);
      }
    }
  }

  /** Every run of a vision or video request: every model called, in the main loop or in aggregation, is in the
      catalog with the needed media flags, unless it is the cold fallback of a denied frontier check into a
      tier 2 without capable models. */
  lemma {:induction false} RunMedia(c: Config, pick: nat, ins: seq<Input>)
    requires WellFormed(c) && c.declared.Media() && forall k :: 0 <= k < |ins| ==> Plausible(c, ins[k])
    ensures var r := Trace(c, pick, ins); MediaLog(c, r.s) && (r.Looping? ==> MediaInv(c, r.s))
  {
    hide Plausible;
    if ins == [] {
      PoolIsMediaCapable(c, SkipEmpty(c, InitialTier(c)));
    } else {
      var i := ins[|ins| - 1];
      RunMedia(c, pick, ins[..|ins| - 1]);
      var before := Trace(c, pick, ins[..|ins| - 1]);
      if before.Looping? && i.elapsed < c.budget {
        AdmitKeepsMedia(c, before.s, i);
        var d := Admit(c, before.s, i);
        match i.call
        case Returns(check) => AnswerMedia(c, d, check, i);
        case Throws(e) => FailureMedia(c, d, e, i);
      }
    }
  }

  /** The exception is real: whenever the cap is denied while tier 2 has no capable model, that pass calls the
      configured tier-2 model, capable or not. */
  lemma ColdFallbackIsReached(c: Config, s: State, i: Input)
    requires WellFormed(c) && s.tier == 1 && !i.allowed && i.elapsed < c.budget && Pool(c, 2) == []
    ensures var r := Step(c, s, i);
      |s.dispatches| < |r.s.dispatches|
      && r.s.dispatches[|s.dispatches|].model == c.coldModel && r.s.dispatches[|s.dispatches|].tier == 2
  {
    var d := Admit(c, s, i);
    match i.call
    case Returns(check) => assert LogDispatch(d, Answered).dispatches <= OnAnswer(c, d, check, i).s.dispatches;
    case Throws(e) => assert OnFailure(c, d, e, i).s.dispatches == LogDispatch(d, Threw(e)).dispatches;
  }

  // ---------------------------------------------------------------------------
  // All needs
  // ---------------------------------------------------------------------------

  /** The model has every capability that the request or the learning adjustment asks for, as far as the catalog knows
      it; a model outside the catalog will do where neither vision nor video is needed. */
  predicate FitsRequest(c: Config, m: ModelId) {
    if m in c.catalog then
      && (c.declared.json || c.learning.requiresJsonMode ==> c.catalog[m].supportsJsonMode)
      && (c.declared.tools || c.learning.requiresToolUse ==> c.catalog[m].supportsToolUse)
      && (c.declared.vision ==> c.catalog[m].supportsVision)
      && (c.declared.video ==> c.catalog[m].supportsVideo)
    else !c.declared.vision && !c.declared.video
  }

  ghost predicate TierHasFitting(c: Config, tier: nat)
    requires IsTier(c, tier)
  {
    exists m :: m in c.tierModels[tier - 1] && FitsRequest(c, m)
  }

  /** The model is the bandit's, or a fitting one of its tier if the tier lists any. */
  ghost predicate FitsIfAny(c: Config, model: ModelId, tier: nat) {
    c.bandit == Some(model) || (IsTier(c, tier) && (TierHasFitting(c, tier) ==> model in c.tierModels[tier - 1] && FitsRequest(c, model)))
  }

  ghost predicate FittingLog(c: Config, s: State) {
    forall j :: 0 <= j < |s.dispatches| && s.dispatches[j].kind.Main? ==>
      FitsIfAny(c, s.dispatches[j].model, s.dispatches[j].tier)
  }

  lemma PoolFits(c: Config, t: nat)
    requires IsTier(c, t)
    ensures TierHasFitting(c, t) ==> Pool(c, t) != [] && forall m :: m in Pool(c, t) ==> FitsIfAny(c, m, t)
  {
    var models := c.tierModels[t - 1];
    FilterByFlags(c.catalog, models, EffectiveNeeds(c));
    hide CapableModels;
    if TierHasFitting(c, t) {
      var x :| x in models && FitsRequest(c, x);
      assert x in Fitting(c.catalog, models, EffectiveNeeds(c));
      assert forall m :: m in Pool(c, t) <==> multiset(Pool(c, t))[m] > 0;
      assert forall m :: m in models <==> multiset(models)[m] > 0;
      assert x in Pool(c, t);
    }
  }

  lemma DrawFits(c: Config, t: nat, m: ModelId)
    requires IsTier(c, t) && (m in Pool(c, t) || Pool(c, t) == [])
    ensures FitsIfAny(c, m, t)
  {
    PoolFits(c, t);
    hide Pool;
  }

  /** Every run: every main-loop call goes to a model of its tier that has all that the request and the learning
      adjustment need, if the tier lists one; only the bandit's own choice is exempt. */
  lemma {:induction false} RunNeeds(c: Config, pick: nat, ins: seq<Input>)
    requires WellFormed(c)
    ensures var r := Trace(c, pick, ins); FittingLog(c, r.s) && (r.Looping? ==> FitsIfAny(c, r.s.model, r.s.tier))
  {
    hide Pool, FitsIfAny, AfterQualityFailure, EscalateAfterFailure, Fallbacks;
    if ins == [] {
      StartFits(c, pick);
    } else {
      var i := ins[|ins| - 1];
      RunNeeds(c, pick, ins[..|ins| - 1]);
      var before := Trace(c, pick, ins[..|ins| - 1]);
      if before.Looping? && i.elapsed < c.budget {
        PassFits(c, before.s, i);
      }
    }
  }

  lemma StartFits(c: Config, pick: nat)
    requires WellFormed(c)
    ensures var r := Start(c, pick); r.s.dispatches == [] && (r.Looping? ==> FitsIfAny(c, r.s.model, r.s.tier))
  {
    hide Pool, FitsIfAny;
    var r := Start(c, pick);
    if r.Looping? {
      if c.bandit == Some(r.s.model) {
        BanditIsExempt(c, r.s.model, r.s.tier);
      } else {
        DrawFits(c, r.s.tier, r.s.model);
      }
    }
  }

  lemma BanditIsExempt(c: Config, m: ModelId, tier: nat)
    requires c.bandit == Some(m)
    ensures FitsIfAny(c, m, tier)
  {
  }

  lemma PassFits(c: Config, s: State, i: Input)
    requires WellFormed(c) && IsTier(c, s.tier) && i.elapsed < c.budget
    requires FittingLog(c, s) && FitsIfAny(c, s.model, s.tier)
    ensures var r := Step(c, s, i); FittingLog(c, r.s) && (r.Looping? ==> FitsIfAny(c, r.s.model, r.s.tier))
  {
    var d, r := Admit(c, s, i), Step(c, s, i);
    AdmittedFits(c, s, i);
    PassCalls(c, s, i);
    hide Pool, FitsIfAny, Step, Admit;
    var n := |s.dispatches|;
    forall j | 0 <= j < |r.s.dispatches| && r.s.dispatches[j].kind.Main?
      ensures FitsIfAny(c, r.s.dispatches[j].model, r.s.dispatches[j].tier)
    {
      if j < n {
        assert r.s.dispatches[j] == s.dispatches[j];
      }
    }
    if r.Looping? {
      DrawFits(c, r.s.tier, r.s.model);
    }
  }

  lemma AdmittedFits(c: Config, s: State, i: Input)
    requires WellFormed(c) && IsTier(c, s.tier) && FitsIfAny(c, s.model, s.tier)
    ensures var d := Admit(c, s, i); FitsIfAny(c, d.model, d.tier)
  {
    hide Pool, FitsIfAny;
    if s.tier == 1 && !i.allowed {
      DrawFits(c, 2, Admit(c, s, i).model);
    }
  }

  /** A pass in time makes one main-loop call, and if the loop goes on it has drawn a model of its tier's pool. */
  lemma PassCalls(c: Config, s: State, i: Input)
    requires WellFormed(c) && IsTier(c, s.tier) && i.elapsed < c.budget
    ensures var d, r, n := Admit(c, s, i), Step(c, s, i), |s.dispatches|;
      && s.dispatches <= r.s.dispatches && n < |r.s.dispatches|
      && r.s.dispatches[n].model == d.model && r.s.dispatches[n].tier == d.tier
      && (forall k :: n < k < |r.s.dispatches| ==> r.s.dispatches[k].kind.Parallel?)
      && (r.Looping? ==> r.s.model in Pool(c, r.s.tier))
  {
    var d := Admit(c, s, i);
    match i.call
    case Returns(check) => AnswerCalls(c, d, check, i);
    case Throws(e) => assert OnFailure(c, d, e, i).s.dispatches == LogDispatch(d, Threw(e)).dispatches;
  }

  lemma AnswerCalls(c: Config, d: State, check: Check, i: Input)
    requires IsTier(c, d.tier)
    ensures var ds, r := LogDispatch(d, Answered).dispatches, OnAnswer(c, d, check, i);
      ds <= r.s.dispatches && forall k :: |ds| <= k < |r.s.dispatches| ==> r.s.dispatches[k].kind.Parallel?
  {
    var s1 := LogDispatch(d, Answered).(result := Some(Response(d.model, |d.dispatches|)), lastTier := Some(d.tier));
    if !check.Crash? && d.tier != 1 && !check.Pass? {
      var s2 := LogOutcome(s1.(qualityPassed := Some(check.Pass?)), d.tier, check.Pass?, d.escalated, |d.dispatches|);
      assert OnAnswer(c, d, check, i) == AfterQualityFailure(c, s2, i);
      BatchFollows(c, s2, i);
      hide AfterQualityFailure, LogParallel;
    }
  }

  /** The calls an aggregation adds are parallel ones. */
  lemma BatchFollows(c: Config, s: State, i: Input)
    requires IsTier(c, s.tier)
    ensures var ds := LogParallel(c, s, i).dispatches;
      s.dispatches <= ds && forall k :: |s.dispatches| <= k < |ds| ==> ds[k].kind.Parallel?
  {
  }
}
