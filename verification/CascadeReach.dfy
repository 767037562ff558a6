/** Where a request starts, which tiers it can reach, and what steers it. */
module CascadeReach {
  import opened Wrappers
  import opened Capabilities
  import opened Exceptions
  import opened Cascade
  import Aggregation
  import Bounce = CascadeBounce
  import Path = CascadePath

  // ---------------------------------------------------------------------------
  // The start
  // ---------------------------------------------------------------------------

  /** A memory cap, unless it is a shadow's, lets a request go up to `tier`. */
  predicate CapAllows(l: Learning, tier: nat) {
    l.isShadow || l.maxTier.None? || l.maxTier.value <= tier
  }

  lemma {:induction false} SkipsOnlyEmpty(c: Config, t: nat, u: nat)
    requires IsTier(c, t) && SkipEmpty(c, t) < u <= t
    ensures Pool(c, u) == [] && CapAllows(c.learning, u - 1)
    decreases t
  {
    hide Pool;
    if u < t {
      SkipsOnlyEmpty(c, GetNext(c, t).value, u);
    }
  }

  /** No tier from `t` up to where the cap ends has a capable model. */
  ghost predicate NothingFrom(c: Config, t: nat)
    requires IsTier(c, t)
  {
    forall u :: 1 <= u <= t && (u == t || CapAllows(c.learning, u)) ==> Pool(c, u) == []
  }

  lemma SkipFindsFirst(c: Config, t: nat)
    requires IsTier(c, t)
    ensures Pool(c, SkipEmpty(c, t)) == [] <==> NothingFrom(c, t)
  {
    hide Pool;
    var r := SkipEmpty(c, t);
    forall u | r < u <= t ensures Pool(c, u) == [] && CapAllows(c.learning, u - 1) {
      SkipsOnlyEmpty(c, t, u);
    }
    assert Pool(c, r) == [] ==> forall u :: 1 <= u < r ==> !CapAllows(c.learning, u);
    if r < t {
      SkipsOnlyEmpty(c, t, r + 1);
    }
  }

  /** The tier in which a request starts without a bandit choice: the first one, from the policy's or, unless it is a
      shadow's, the learning adjustment's, with a capable model. */
  predicate FirstCapable(c: Config, t: nat)
    requires WellFormed(c)
  {
    var initial := if c.learning.overrideTier.Some? && !c.learning.isShadow then c.learning.overrideTier.value else c.policyTier;
    && IsTier(c, t) && t <= initial && (t == initial || CapAllows(c.learning, t))
    && Pool(c, t) != [] && forall u :: t < u <= initial ==> Pool(c, u) == []
  }

  /** A request starts at all exactly if some tier has a capable model within reach. It starts on the bandit's choice
      exactly if that is in the pool of the first capable tier, where it then starts, or is known with the media flags,
      where it starts in the model's own tier; otherwise it starts with a model of the first capable tier's pool. */
  lemma StartIff(c: Config, pick: nat)
    requires WellFormed(c)
    ensures var r := Start(c, pick);
      && (r.Looping? <==> exists t :: FirstCapable(c, t))
      && (r.Looping? ==> forall t :: FirstCapable(c, t) ==>
            && (c.bandit.Some? ==>
                  (r.s.model == c.bandit.value <==> c.bandit.value in Pool(c, t) || KnownWithMedia(c, c.bandit.value)))
            && (if r.s.model in Pool(c, t) then r.s.tier == t
                else c.bandit == Some(r.s.model) && r.s.tier == c.catalog[r.s.model].defaultTier))
  {
    hide Pool;
    var initial := InitialTier(c);
    var t := SkipEmpty(c, initial);
    SkipFindsFirst(c, initial);
    forall u | t < u <= initial ensures Pool(c, u) == [] && CapAllows(c.learning, u - 1) {
      SkipsOnlyEmpty(c, initial, u);
    }
    if Pool(c, t) != [] {
      assert FirstCapable(c, t);
      forall u | FirstCapable(c, u) ensures u == t {
        if u < t {
          assert false;
        }
      }
    }
  }

  predicate KnownWithMedia(c: Config, m: ModelId) {
    && m in c.catalog && (c.declared.vision ==> c.catalog[m].supportsVision)
    && (c.declared.video ==> c.catalog[m].supportsVideo)
  }

  // ---------------------------------------------------------------------------
  // The reach
  // ---------------------------------------------------------------------------

  ghost predicate StandsIn(c: Config, pick: nat, ins: seq<Input>, t: nat)
    requires WellFormed(c)
  {
    Trace(c, pick, ins).Looping? && Trace(c, pick, ins).s.tier == t
  }

  ghost predicate Reaches(c: Config, pick: nat, t: nat)
    requires WellFormed(c)
  {
    exists ins :: StandsIn(c, pick, ins, t)
  }

  /** A failed call with an error that no other model is tried for goes up to the next tier with a capable model. */
  lemma FailingClimbs(c: Config, s: State, t: nat)
    requires WellFormed(c) && IsTier(c, s.tier) && 1 <= t < s.tier && Pool(c, t) != [] && CapAllows(c.learning, t)
    ensures var r := Step(c, s, Bounce.Hopeless(c)); r.Looping? && t <= r.s.tier < s.tier
  {
    hide Pool, SkipEmpty;
    var i := Bounce.Hopeless(c);
    var next := s.tier - 1;
    assert GetNext(c, s.tier) == Some(next);
    SkipFindsFirst(c, next);
    var u := SkipEmpty(c, next);
    if u < t {
      SkipsOnlyEmpty(c, next, t);
    }
    assert !IsProviderError(i.call.exn) && Admit(c, s, i) == s;
    assert Step(c, s, i) == EscalateAfterFailure(c, LogFailure(s, i.call.exn), i.call.exn, IsSloTimeout(i.call.exn),
                                                 |s.dispatches|, i.nextPick);
  }

  lemma {:induction false} ClimbsTo(c: Config, pick: nat, ins: seq<Input>, t: nat)
    requires WellFormed(c) && Trace(c, pick, ins).Looping? && 1 <= t <= Trace(c, pick, ins).s.tier
    requires t == Trace(c, pick, ins).s.tier || (Pool(c, t) != [] && CapAllows(c.learning, t))
    ensures Reaches(c, pick, t)
    decreases Trace(c, pick, ins).s.tier
  {
    var before := Trace(c, pick, ins);
    if t == before.s.tier {
      assert StandsIn(c, pick, ins, t);
    } else {
      FailingClimbs(c, before.s, t);
      TraceSnoc(c, pick, ins, Bounce.Hopeless(c));
      hide Trace, Step, Pool;
      ClimbsTo(c, pick, ins + [Bounce.Hopeless(c)], t);
    }
  }

  lemma StandsWithPool(c: Config, s: State, i: Input)
    requires WellFormed(c) && IsTier(c, s.tier)
    ensures var r := Step(c, s, i); r.Looping? ==> Pool(c, r.s.tier) != []
  {
    if i.elapsed < c.budget {
      Path.PassCalls(c, s, i);
    }
    hide Pool;
  }

  /** The tiers above its start that a request can come to are exactly those with a capable model that its memory cap
      allows; a shadow's cap allows all. */
  lemma ReachesIff(c: Config, pick: nat, t: nat)
    requires WellFormed(c) && Start(c, pick).Looping? && 1 <= t < Start(c, pick).s.tier
    ensures Reaches(c, pick, t) <==> Pool(c, t) != [] && CapAllows(c.learning, t)
  {
    assert Trace(c, pick, []) == Start(c, pick);
    if Pool(c, t) != [] && CapAllows(c.learning, t) {
      ClimbsTo(c, pick, [], t);
    }
    if Reaches(c, pick, t) {
      var ins :| StandsIn(c, pick, ins, t);
      Path.RunTiers(c, pick, ins);
      assert ins != [];
      assert Path.TierInv(c, Start(c, pick).s.tier, Trace(c, pick, ins).s);
      assert CapAllows(c.learning, t);
      var before := Trace(c, pick, ins[..|ins| - 1]);
      assert before.Looping?;
      StandsWithPool(c, before.s, ins[|ins| - 1]);
    }
  }

  // ---------------------------------------------------------------------------
  // Shadow learning
  // ---------------------------------------------------------------------------

  /** The request with another cap and another forced tier in its learning adjustment. */
  function Resteered(c: Config, overrideTier: Option<nat>, maxTier: Option<int>): Config {
    c.(learning := c.learning.(overrideTier := overrideTier, maxTier := maxTier))
  }

  lemma {:induction false} SameSkip(c: Config, overrideTier: Option<nat>, maxTier: Option<int>, t: nat)
    requires c.learning.isShadow && IsTier(c, t)
    ensures SkipEmpty(Resteered(c, overrideTier, maxTier), t) == SkipEmpty(c, t)
    decreases t
  {
    var c' := Resteered(c, overrideTier, maxTier);
    assert Pool(c', t) == Pool(c, t);
    hide Pool;
    if Pool(c, t) == [] && t > 1 {
      SameSkip(c, overrideTier, maxTier, t - 1);
    }
  }

  lemma SamePools(c: Config, overrideTier: Option<nat>, maxTier: Option<int>)
    ensures forall t :: IsTier(c, t) ==> Pool(Resteered(c, overrideTier, maxTier), t) == Pool(c, t)
    ensures forall t, failed :: IsTier(c, t) ==>
      Fallbacks(Resteered(c, overrideTier, maxTier), t, failed) == Fallbacks(c, t, failed)
  {
    var c' := Resteered(c, overrideTier, maxTier);
    forall failed ensures NotExcluded(failed, c'.learning) == NotExcluded(failed, c.learning) {
    }
  }

  lemma SameEscalation(c: Config, overrideTier: Option<nat>, maxTier: Option<int>, s: State, e: Exn, recorded: bool,
                       dispatch: nat, pick: nat)
    requires c.learning.isShadow && IsTier(c, s.tier)
    ensures EscalateAfterFailure(Resteered(c, overrideTier, maxTier), s, e, recorded, dispatch, pick)
      == EscalateAfterFailure(c, s, e, recorded, dispatch, pick)
  {
    hide Pool, SkipEmpty, Fallbacks, Degrade;
    SamePools(c, overrideTier, maxTier);
    if s.tier > 1 {
      SameSkip(c, overrideTier, maxTier, s.tier - 1);
    }
  }

  lemma SameFailure(c: Config, overrideTier: Option<nat>, maxTier: Option<int>, s: State, e: Exn, i: Input)
    requires WellFormed(c) && c.learning.isShadow && IsTier(c, s.tier)
    ensures OnFailure(Resteered(c, overrideTier, maxTier), s, e, i) == OnFailure(c, s, e, i)
  {
    hide Pool, Fallbacks, EscalateAfterFailure;
    SamePools(c, overrideTier, maxTier);
    var s1, n := LogFailure(s, e), |s.dispatches|;
    SameEscalation(c, overrideTier, maxTier, s1, e, IsSloTimeout(e), n, i.nextPick);
    SameEscalation(c, overrideTier, maxTier, s1.(failed := s1.failed + {s1.model}), e, IsSloTimeout(e), n, i.nextPick);
  }

  lemma SameBatch(c: Config, overrideTier: Option<nat>, maxTier: Option<int>, s: State, i: Input)
    requires IsTier(c, s.tier)
    ensures var c' := Resteered(c, overrideTier, maxTier);
      && AggregationCandidates(c', s, i) == AggregationCandidates(c, s, i)
      && LogParallel(c', s, i) == LogParallel(c, s, i) && LogParallel(c, s, i).tier == s.tier
  {
    hide Aggregation.Candidates, Batch;
  }

  lemma SameQualityFailure(c: Config, overrideTier: Option<nat>, maxTier: Option<int>, s: State, i: Input)
    requires WellFormed(c) && c.learning.isShadow && IsTier(c, s.tier)
    ensures AfterQualityFailure(Resteered(c, overrideTier, maxTier), s, i) == AfterQualityFailure(c, s, i)
  {
    SamePools(c, overrideTier, maxTier);
    SameBatch(c, overrideTier, maxTier, s, i);
    if s.tier > 1 {
      SameSkip(c, overrideTier, maxTier, s.tier - 1);
    }
    hide Pool, SkipEmpty, AggregationCandidates, LogParallel, ServeAggregate, Aggregation.Attempt, Aggregation.Runs;
  }

  lemma SameAnswer(c: Config, overrideTier: Option<nat>, maxTier: Option<int>, s: State, check: Check, i: Input)
    requires WellFormed(c) && c.learning.isShadow && IsTier(c, s.tier)
    ensures OnAnswer(Resteered(c, overrideTier, maxTier), s, check, i) == OnAnswer(c, s, check, i)
  {
    hide AfterQualityFailure, Pool;
    var s1 := LogDispatch(s, Answered).(result := Some(Response(s.model, |s.dispatches|)), lastTier := Some(s.tier));
    var s2 := LogOutcome(s1.(qualityPassed := Some(check.Pass?)), s.tier, check.Pass?, s.escalated, |s.dispatches|);
    SameQualityFailure(c, overrideTier, maxTier, s2, i);
  }

  /** A shadow's learning adjustment steers no tier: with any other cap or forced tier in it every run is the same. */
  lemma {:induction false} ShadowSteersNoTier(c: Config, overrideTier: Option<nat>, maxTier: Option<int>, pick: nat, ins: seq<Input>)
    requires WellFormed(c) && c.learning.isShadow
    ensures WellFormed(Resteered(c, overrideTier, maxTier))
    ensures Trace(Resteered(c, overrideTier, maxTier), pick, ins) == Trace(c, pick, ins)
  {
    var c' := Resteered(c, overrideTier, maxTier);
    assert forall t :: IsTier(c, t) ==> Pool(c', t) == Pool(c, t);
    if ins == [] {
      SameSkip(c, overrideTier, maxTier, InitialTier(c));
      hide Pool, SkipEmpty;
    } else {
      ShadowSteersNoTier(c, overrideTier, maxTier, pick, ins[..|ins| - 1]);
      var before, i := Trace(c, pick, ins[..|ins| - 1]), ins[|ins| - 1];
      if before.Looping? && i.elapsed < c.budget {
        var d := Admit(c, before.s, i);
        hide Pool;
        match i.call
        case Returns(check) => SameAnswer(c, overrideTier, maxTier, d, check, i);
        case Throws(e) => SameFailure(c, overrideTier, maxTier, d, e, i);
      }
    }
  }
}
