/** The loop itself, over mutable variables, proved to compute the run that the step machine defines. */
module CascadeRun {
  import opened Wrappers
  import opened Sequences
  import opened Capabilities
  import opened Exceptions
  import opened Cascade
  import Aggregation

  function Prefix(env: nat -> Input, n: nat): seq<Input> { seq(n, k requires 0 <= k < n => env(k)) }

  lemma PrefixSnoc(c: Config, pick: nat, env: nat -> Input, n: nat)
    requires WellFormed(c)
    ensures var before := Trace(c, pick, Prefix(env, n));
      Trace(c, pick, Prefix(env, n + 1)) == if before.Looping? then Step(c, before.s, env(n)) else before
  {
    assert Prefix(env, n + 1) == Prefix(env, n) + [env(n)];
    TraceSnoc(c, pick, Prefix(env, n), env(n));
  }

  /** What a piece of the loop body asks the loop to do next. */
  datatype Next = Continue | Break(exit: Exit) | Raise(failure: Failure)

  function StatusOf(next: Next, s: State): Status {
    match next
    case Continue => Looping(s)
    case Break(exit) => Served(exit, s)
    case Raise(failure) => Raised(failure, s)
  }

  /** One request: the variables of `run`, updated in place by the pieces of its loop. */
  class Request {
    const c: Config
    var tier: nat
    var model: ModelId
    var result: Option<Response>
    var lastTier: Option<nat>
    var failed: set<ModelId>
    var capFellBack: bool
    var escalations: nat
    var escalated: bool
    var qualityPassed: Option<bool>
    var dispatches: seq<Dispatch>
    var outcomes: seq<Outcome>
    var denials: nat

    constructor (c: Config)
      ensures this.c == c
    {
      this.c := c;
      new;
      SetUp(0, "");
    }

    function Now(): State
      reads this
    {
      State(tier, model, result, lastTier, failed, capFellBack, escalations, escalated, qualityPassed,
            dispatches, outcomes, denials)
    }

    ghost predicate Valid()
      reads this
    {
      WellFormed(c) && IsTier(c, tier)
    }

    method SetUp(tier: nat, model: ModelId)
      modifies this
      ensures Now() == Fresh(tier, model)
    {
      this.tier, this.model := tier, model;
      result, lastTier, failed, capFellBack := None, None, {}, false;
      escalations, escalated, qualityPassed := 0, false, None;
      dispatches, outcomes, denials := [], [], 0;
    }

    method Dispatched(r: DispatchResult)
      modifies this`dispatches
      ensures Now() == LogDispatch(old(Now()), r)
    {
      dispatches := dispatches + [Dispatch(model, tier, Main, r, capFellBack)];
    }

    method RecordOutcome(tier: nat, passed: bool, escalated: bool, dispatch: nat)
      modifies this`outcomes
      ensures Now() == LogOutcome(old(Now()), tier, passed, escalated, dispatch)
    {
      outcomes := outcomes + [Outcome(model, tier, passed, escalated, dispatch)];
    }

    /** Walk down the tiers until one has capable models. */
    method SkipEmptyTiers() returns (pool: seq<ModelId>)
      requires Valid()
      modifies this`tier
      ensures Valid() && pool == Pool(c, tier)
      ensures Now() == old(Now()).(tier := SkipEmpty(c, old(tier)))
    {
      pool := Pool(c, tier);
      while pool == []
        invariant Valid() && pool == Pool(c, tier)
        invariant SkipEmpty(c, old(tier)) == SkipEmpty(c, tier)
        decreases tier
      {
        var next := GetNext(c, tier);
        if next.None? {
          break;
        }
        tier := next.value;
        pool := Pool(c, tier);
      }
    }

    /** Select a model of the current tier's pool after an escalation. */
    method Select(pool: seq<ModelId>, pick: nat)
      requires pool != []
      modifies this`model, this`escalated, this`escalations
      ensures Now() == old(Now()).(model := Choose(pool, pick), escalated := true, escalations := old(escalations) + 1)
    {
      model := Choose(pool, pick);
      escalated := true;
      escalations := escalations + 1;
    }

    /** The choice before the loop: the initial tier, its model, and a bandit override. */
    method ChooseStart(pick: nat) returns (next: Next)
      requires WellFormed(c)
      modifies this
      ensures StatusOf(next, Now()) == Start(c, pick)
    {
      SetUp(InitialTier(c), "");
      var pool := SkipEmptyTiers();
      if pool == [] {
        return Raise(NoCapableTier);
      }
      model := Choose(pool, pick);
      if c.bandit.Some? {
        if c.bandit.value in pool {
          model := c.bandit.value;
        } else if SupportsMedia(c.catalog, c.bandit.value, c.declared) {
          tier := c.catalog[c.bandit.value].defaultTier;
          model := c.bandit.value;
        }
      }
      next := Continue;
    }

    method CheckFrontierCap(i: Input)
      requires Valid()
      modifies this`tier, this`model, this`capFellBack, this`denials
      ensures Valid() && Now() == Admit(c, old(Now()), i)
    {
      if tier == 1 {
        if !i.allowed {
          capFellBack := true;
          tier := 2;
          var pool := Pool(c, 2);
          model := if pool == [] then c.coldModel else Choose(pool, i.capPick);
          denials := denials + 1;
        }
      }
    }

    method DispatchBatch(cs: seq<ModelId>, replies: ModelId -> Reply)
      modifies this`dispatches
      ensures Now() == old(Now()).(dispatches := old(dispatches) + Batch(old(Now()), cs, replies))
    {
      var t, denied := tier, capFellBack;
      dispatches := dispatches + seq(|cs|, k requires 0 <= k < |cs| =>
        Dispatch(cs[k], t, Parallel, ParallelResult(replies(cs[k])), denied));
    }

    method AcceptWinner(cs: seq<ModelId>, r: Aggregation.Result, replies: ModelId -> Reply, base: nat)
      requires r.winner < |cs| && Aggregation.InBounds(r.order, |cs|)
      modifies this`result, this`model, this`outcomes
      ensures Now() == ServeAggregate(old(Now()), cs, r, replies, base)
    {
      result := Some(Response(cs[r.winner], base + r.winner));
      outcomes := outcomes + ParallelOutcomes(cs, tier, r.order, replies, base);
      model := cs[r.winner];
    }

    /** The state after an aggregation attempt over `cs`. */
    ghost predicate Aggregates(s: State, cs: seq<ModelId>, i: Input, winner: Option<Aggregation.Result>, t: State)
      requires IsTier(c, s.tier)
    {
      && winner == Aggregation.Attempt(c.aggregation, s.tier, cs, i.replies)
      && (winner.None? ==> t == LogParallel(c, s, i))
      && (winner.Some? ==>
            && winner.value.winner < |cs| && Aggregation.InBounds(winner.value.order, |cs|)
            && t == ServeAggregate(LogParallel(c, s, i), cs, winner.value, i.replies, |s.dispatches|))
    }

    /** Ask the other models of the tier; a winner replaces the rejected answer. */
    method TryAggregation(i: Input) returns (winner: Option<Aggregation.Result>)
      requires Valid() && Plausible(c, i)
      modifies this`result, this`model, this`dispatches, this`outcomes
      ensures Aggregates(old(Now()), AggregationCandidates(c, old(Now()), i), i, winner, Now())
    {
      hide Pool, Aggregation.Candidates, Aggregation.Attempt, Aggregation.Runs, Aggregation.Ranks, Batch, ParallelOutcomes;
      ghost var s := Now();
      var models, base := c.tierModels[tier - 1], |dispatches|;
      var cs := Aggregation.Candidates(c.catalog, models, c.declared, model, c.aggregation.maxParallel, i.rank);
      Aggregation.CandidatesAreCapable(c.catalog, models, c.declared, model, c.aggregation.maxParallel, i.rank);
      Aggregation.AttemptLedger(c.aggregation, tier, cs, i.replies);
      winner := Aggregation.AttemptAggregation(c.aggregation, tier, cs, i.replies);
      if Aggregation.Runs(c.aggregation, tier, cs) {
        DispatchBatch(cs, i.replies);
      }
      assert Now() == LogParallel(c, s, i);
      if winner.Some? {
        AcceptWinner(cs, winner.value, i.replies, base);
      }
    }

    /** The quality check said no: aggregate, or stop, or escalate. */
    method HandleQualityFailure(i: Input) returns (next: Next)
      requires Valid() && Plausible(c, i)
      modifies this
      ensures Valid() && StatusOf(next, Now()) == AfterQualityFailure(c, old(Now()), i)
    {
      hide Pool, AggregationCandidates, LogParallel, ServeAggregate, SkipEmpty;
      var winner := TryAggregation(i);
      if winner.Some? {
        return Break(Aggregated);
      }
      if escalations >= c.maxEscalations {
        return Break(EscalationLimit);
      }
      var higher := GetNext(c, tier);
      if higher.Some? && higher.value == 1 && capFellBack {
        higher := None;
      }
      if higher.None? {
        return Break(NoHigherTier);
      }
      tier := higher.value;
      var pool := SkipEmptyTiers();
      if pool == [] {
        return Break(PoolsExhausted);
      }
      Select(pool, i.nextPick);
      next := Continue;
    }

    method HandleAnswer(check: Check, i: Input) returns (next: Next)
      requires Valid() && Plausible(c, i)
      modifies this
      ensures Valid() && StatusOf(next, Now()) == OnAnswer(c, old(Now()), check, i)
    {
      var n := |dispatches|;
      Dispatched(Answered);
      result := Some(Response(model, n));
      lastTier := Some(tier);
      if check.Crash? {
        return Raise(CheckCrashed);
      }
      qualityPassed := Some(check.Pass?);
      RecordOutcome(tier, check.Pass?, escalated, n);
      if tier == 1 {
        return Break(FrontierServed);
      }
      if check.Pass? {
        return Break(QualityPassed);
      }
      next := HandleQualityFailure(i);
    }

    /** Nothing left to try: serve the last successful tier's answer, or raise. */
    method ServeLast(exit: Exit, e: Exn, recorded: bool, failedTier: nat, dispatch: nat) returns (next: Next)
      modifies this`tier, this`outcomes
      ensures StatusOf(next, Now()) == Degrade(old(Now()), exit, e, recorded, failedTier, dispatch)
    {
      if result.Some? && lastTier.Some? {
        if !recorded {
          RecordOutcome(failedTier, false, true, dispatch);
        }
        tier := lastTier.value;
        return Break(exit);
      }
      next := Raise(ProviderFailure(e));
    }

    method EscalateFrom(e: Exn, recorded: bool, dispatch: nat, pick: nat) returns (next: Next)
      requires Valid()
      modifies this
      ensures next.Continue? ==> Valid()
      ensures StatusOf(next, Now()) == EscalateAfterFailure(c, old(Now()), e, recorded, dispatch, pick)
    {
      var higher := if tier == 1 then None else GetNext(c, tier);
      if higher.None? {
        next := ServeLast(TierUnreachable, e, recorded, tier, dispatch);
        return;
      }
      var failedTier := tier;
      tier := higher.value;
      failed := {};
      var pool := SkipEmptyTiers();
      if pool == [] {
        next := ServeLast(NoCapableModels, e, recorded, failedTier, dispatch);
        return;
      }
      Select(pool, pick);
      next := Continue;
    }

    /** The models of the tier that have not failed and are not to be avoided. */
    method SameTierFallbacks() returns (fallbacks: seq<ModelId>)
      requires Valid()
      ensures fallbacks == Fallbacks(c, tier, failed)
    {
      var pool := Pool(c, tier);
      var keep := NotExcluded(failed, c.learning);
      fallbacks := [];
      for k := 0 to |pool|
        invariant fallbacks == Filter(pool[..k], keep)
      {
        FilterPrefix(pool, k, keep);
        var m := pool[k];
        if m !in failed && m !in c.learning.hardAvoid && m !in c.learning.avoid {
          fallbacks := fallbacks + [m];
        }
      }
      assert pool[..|pool|] == pool;
    }

    method HandleFailure(e: Exn, i: Input) returns (next: Next)
      requires Valid()
      modifies this
      ensures next.Continue? ==> Valid()
      ensures StatusOf(next, Now()) == OnFailure(c, old(Now()), e, i)
    {
      var n := |dispatches|;
      Dispatched(Threw(e));
      var recorded := false;
      if IsSloTimeout(e) {
        RecordOutcome(tier, false, true, n);
        recorded := true;
      }
      if IsProviderError(e) {
        failed := failed + {model};
        var fallbacks := SameTierFallbacks();
        if fallbacks != [] {
          model := Choose(fallbacks, i.nextPick);
          return Continue;
        }
      }
      next := EscalateFrom(e, recorded, n, i.nextPick);
    }

    /** `run` from its tier selection on. `horizon` is a pass by which the clock has passed the budget. */
    method Run(pick: nat, env: nat -> Input, ghost horizon: nat) returns (next: Next, passes: nat)
      requires WellFormed(c) && env(horizon).elapsed >= c.budget && forall k :: Plausible(c, env(k))
      modifies this
      ensures !next.Continue? && passes <= horizon + 1
      ensures StatusOf(next, Now()) == Trace(c, pick, Prefix(env, passes))
    {
      hide Plausible, Start, Step;
      passes := 0;
      assert Prefix(env, 0) == [];
      next := ChooseStart(pick);
      while next.Continue?
        invariant next.Continue? ==> Valid() && passes <= horizon
        invariant passes <= horizon + 1
        invariant StatusOf(next, Now()) == Trace(c, pick, Prefix(env, passes))
        decreases next.Continue?, horizon + 1 - passes
      {
        var i := env(passes);
        PrefixSnoc(c, pick, env, passes);
        passes := passes + 1;
        next := OnePass(i);
      }
    }

    /** The body of the loop. */
    method OnePass(i: Input) returns (next: Next)
      requires Valid() && Plausible(c, i)
      modifies this
      ensures next.Continue? ==> Valid() && i.elapsed < c.budget
      ensures StatusOf(next, Now()) == Step(c, old(Now()), i)
    {
      if i.elapsed >= c.budget {
        return if result.Some? then Break(BudgetExhausted) else Raise(BudgetTimeout);
      }
      CheckFrontierCap(i);
      match i.call
      case Returns(check) => next := HandleAnswer(check, i);
      case Throws(e) => next := HandleFailure(e, i);
    }
  }
}
