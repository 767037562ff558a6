/**
 The cascade loop of the engine as a step machine. One `Step` is one pass through the loop: budget check,
 frontier cap, dispatch, and what follows the answer or the exception. Everything the loop asks of the
 outside (clock, frontier counter, model selection, provider, quality check) arrives in an `Input`.
 */
module Cascade {
  import opened Wrappers
  import opened Sequences
  import opened Capabilities
  import opened Exceptions
  import Aggregation

  type Check = Aggregation.Check
  type Reply = Aggregation.Reply

  /** The attributes of `learning_adjustment` that the loop reads; `NO_LEARNING` stands for its absence. */
  datatype Learning = Learning(
    isShadow: bool,
    overrideTier: Option<nat>,
    maxTier: Option<int>,
    avoid: set<ModelId>,
    hardAvoid: set<ModelId>,
    requiresToolUse: bool,
    requiresJsonMode: bool)

  const NO_LEARNING := Learning(false, None, None, {}, {}, false, false)

  /** What stays fixed during one request. `tierModels[t - 1]` lists the models of tier `t` (1 is the
      frontier), `coldModel` is the policy's pick for the request's complexity in tier 2. */
  datatype Config = Config(
    catalog: Catalog,
    tierModels: seq<seq<ModelId>>,
    coldModel: ModelId,
    declared: Needs,
    learning: Learning,
    policyTier: nat,
    bandit: Option<ModelId>,
    maxEscalations: int,
    budget: real,
    aggregation: Aggregation.Settings)

  ghost predicate WellFormed(c: Config) {
    && 2 <= |c.tierModels|
    && (forall t :: 0 <= t < |c.tierModels| ==> NoDup(c.tierModels[t]))
    && 1 <= InitialTier(c) <= |c.tierModels|
    && (c.bandit.Some? && c.bandit.value in c.catalog ==>
          1 <= c.catalog[c.bandit.value].defaultTier <= |c.tierModels|)
  }

  predicate IsTier(c: Config, t: nat) { 1 <= t <= |c.tierModels| }

  // ---------------------------------------------------------------------------
  // Tiers and pools
  // ---------------------------------------------------------------------------

  function EffectiveNeeds(c: Config): Needs {
    Needs(c.declared.json || c.learning.requiresJsonMode, c.declared.tools || c.learning.requiresToolUse,
          c.declared.vision, c.declared.video)
  }

  function InitialTier(c: Config): nat {
    if !c.learning.isShadow && c.learning.overrideTier.Some? then c.learning.overrideTier.value else c.policyTier
  }

  function Pool(c: Config, t: nat): seq<ModelId>
    requires IsTier(c, t)
  {
    CapableModels(c.catalog, c.tierModels[t - 1], EffectiveNeeds(c))
  }

  /** The tier to escalate to, or None at the frontier or under a memory cap. */
  function GetNext(c: Config, t: nat): (r: Option<nat>)
    requires IsTier(c, t)
    ensures r.Some? ==> r.value == t - 1 && IsTier(c, r.value)
  {
    if t <= 1 then None
    else if c.learning.maxTier.Some? && !c.learning.isShadow && t - 1 < c.learning.maxTier.value then None
    else Some(t - 1)
  }

  /** Escalate past tiers with an empty pool: the first tier with capable models, or the last one reached. */
  function SkipEmpty(c: Config, t: nat): (r: nat)
    requires IsTier(c, t)
    ensures r <= t && IsTier(c, r)
    ensures Pool(c, r) == [] ==> GetNext(c, r).None?
  {
    if Pool(c, t) != [] then t else
    match GetNext(c, t)
    case None => t
    case Some(n) => SkipEmpty(c, n)
  }

  // ---------------------------------------------------------------------------
  // State
  // ---------------------------------------------------------------------------

  datatype Kind = Main | Parallel

  datatype DispatchResult = Answered | Threw(exn: Exn)

  /** One provider call. `afterDenial` tells whether the frontier cap had been denied before it. */
  datatype Dispatch = Dispatch(model: ModelId, tier: nat, kind: Kind, result: DispatchResult, afterDenial: bool)

  /** A recorded outcome; `dispatch` is the call it is about, as an index of the dispatch log. */
  datatype Outcome = Outcome(model: ModelId, tier: nat, passed: bool, escalated: bool, dispatch: nat)

  /** A provider response; `origin` stands for its content: the index of the dispatch that returned it. */
  datatype Response = Response(model: ModelId, origin: nat)

  datatype State = State(
    tier: nat,
    model: ModelId,
    result: Option<Response>,
    lastTier: Option<nat>,
    failed: set<ModelId>,
    capFellBack: bool,
    escalations: nat,
    escalated: bool,
    qualityPassed: Option<bool>,
    dispatches: seq<Dispatch>,
    outcomes: seq<Outcome>,
    denials: nat)

  datatype Exit =
    | BudgetExhausted
    | FrontierServed
    | QualityPassed
    | Aggregated
    | EscalationLimit
    | NoHigherTier
    | PoolsExhausted
    | TierUnreachable
    | NoCapableModels

  datatype Failure =
    | NoCapableTier
    | BudgetTimeout
    | ProviderFailure(exn: Exn)
    | CheckCrashed

  datatype Status = Looping(s: State) | Served(exit: Exit, s: State) | Raised(failure: Failure, s: State)

  datatype CallResult = Returns(check: Check) | Throws(exn: Exn)

  /** What one pass asks of the outside. Model choices are draws: `n` chooses `pool[n % |pool|]`, so every
      member of a pool can be chosen and nothing else can. */
  datatype Input = Input(
    elapsed: real,
    allowed: bool,
    capPick: nat,
    call: CallResult,
    nextPick: nat,
    rank: seq<ModelId> -> seq<ModelId>,
    replies: ModelId -> Reply)

  function Choose(pool: seq<ModelId>, n: nat): (m: ModelId)
    requires pool != []
    ensures m in pool
  {
    pool[n % |pool|]
  }

  // ---------------------------------------------------------------------------
  // Before the loop
  // ---------------------------------------------------------------------------

  function Fresh(tier: nat, model: ModelId): State {
    State(tier, model, None, None, {}, false, 0, false, None, [], [], 0)
  }

  predicate BanditAccepted(c: Config, pool: seq<ModelId>) {
    c.bandit.Some? && (c.bandit.value in pool || SupportsMedia(c.catalog, c.bandit.value, c.declared))
  }

  /** Pick the first tier with capable models and a model in it; a bandit choice overrides both. */
  function Start(c: Config, pick: nat): Status
    requires WellFormed(c)
  {
    var t := SkipEmpty(c, InitialTier(c));
    var pool := Pool(c, t);
    if pool == [] then Raised(NoCapableTier, Fresh(t, ""))
    else if !BanditAccepted(c, pool) then Looping(Fresh(t, Choose(pool, pick)))
    else if c.bandit.value in pool then Looping(Fresh(t, c.bandit.value))
    else Looping(Fresh(c.catalog[c.bandit.value].defaultTier, c.bandit.value))
  }

  // ---------------------------------------------------------------------------
  // One pass
  // ---------------------------------------------------------------------------

  /** The frontier cap: a denied tier-1 dispatch falls back to tier 2. */
  function Admit(c: Config, s: State, i: Input): State
    requires WellFormed(c)
  {
    if s.tier == 1 && !i.allowed then
      var pool := Pool(c, 2);
      s.(tier := 2, model := if pool == [] then c.coldModel else Choose(pool, i.capPick),
         capFellBack := true, denials := s.denials + 1)
    else s
  }

  function LogDispatch(s: State, result: DispatchResult): State {
    s.(dispatches := s.dispatches + [Dispatch(s.model, s.tier, Main, result, s.capFellBack)])
  }

  function LogOutcome(s: State, tier: nat, passed: bool, escalated: bool, dispatch: nat): State {
    s.(outcomes := s.outcomes + [Outcome(s.model, tier, passed, escalated, dispatch)])
  }

  /** Move to `tier`, whose pool is not empty, with a freshly chosen model. */
  function MoveTo(c: Config, s: State, tier: nat, pick: nat): State
    requires IsTier(c, tier) && Pool(c, tier) != []
  {
    s.(tier := tier, model := Choose(Pool(c, tier), pick), escalated := true, escalations := s.escalations + 1)
  }

  function AggregationCandidates(c: Config, s: State, i: Input): seq<ModelId>
    requires IsTier(c, s.tier)
  {
    Aggregation.Candidates(c.catalog, c.tierModels[s.tier - 1], c.declared, s.model, c.aggregation.maxParallel, i.rank)
  }

  function ParallelResult(r: Reply): DispatchResult {
    if r.Answered? then Answered else Threw(Exn("", false, false))
  }

  function Batch(s: State, cs: seq<ModelId>, replies: ModelId -> Reply): seq<Dispatch> {
    seq(|cs|, k requires 0 <= k < |cs| =>
      Dispatch(cs[k], s.tier, Parallel, ParallelResult(replies(cs[k])), s.capFellBack))
  }

  /** Log the parallel dispatches; they happen whenever the attempt is eligible, also when it fails. */
  function LogParallel(c: Config, s: State, i: Input): State
    requires IsTier(c, s.tier)
  {
    var cs := AggregationCandidates(c, s, i);
    if Aggregation.Runs(c.aggregation, s.tier, cs) then
      s.(dispatches := s.dispatches + Batch(s, cs, i.replies))
    else s
  }

  function ParallelOutcomes(cs: seq<ModelId>, tier: nat, order: seq<nat>, replies: ModelId -> Reply, base: nat): seq<Outcome>
    requires Aggregation.InBounds(order, |cs|)
  {
    seq(|order|, k requires 0 <= k < |order| =>
      Outcome(cs[order[k]], tier, replies(cs[order[k]]).Passes(), false, base + order[k]))
  }

  function ServeAggregate(s: State, cs: seq<ModelId>, r: Aggregation.Result, replies: ModelId -> Reply, base: nat): State
    requires r.winner < |cs| && Aggregation.InBounds(r.order, |cs|)
  {
    s.(result := Some(Response(cs[r.winner], base + r.winner)),
       model := cs[r.winner],
       outcomes := s.outcomes + ParallelOutcomes(cs, s.tier, r.order, replies, base))
  }

  /** After a quality failure: aggregate, or stop, or escalate (keeping the failed set). */
  function AfterQualityFailure(c: Config, s: State, i: Input): (r: Status)
    requires IsTier(c, s.tier)
    ensures r.Looping? ==> 1 <= r.s.tier < s.tier && r.s.model in Pool(c, r.s.tier)
    ensures r.s.dispatches == LogParallel(c, s, i).dispatches
    ensures r.s.lastTier == s.lastTier && r.s.qualityPassed == s.qualityPassed
    ensures r.s.capFellBack == s.capFellBack && r.s.denials == s.denials
    ensures !r.Raised? && !(r.Served? && r.exit.Aggregated?) ==> r.s.result == s.result
  {
    var cs := AggregationCandidates(c, s, i);
    var base := |s.dispatches|;
    var s1 := LogParallel(c, s, i);
    Aggregation.AttemptLedger(c.aggregation, s.tier, cs, i.replies);
    match Aggregation.Attempt(c.aggregation, s.tier, cs, i.replies)
    case Some(r) =>
      Served(Aggregated, ServeAggregate(s1, cs, r, i.replies, base))
    case None =>
      if s1.escalations >= c.maxEscalations then Served(EscalationLimit, s1) else
      match GetNext(c, s1.tier)
      case None => Served(NoHigherTier, s1)
      case Some(next) =>
        if next == 1 && s1.capFellBack then Served(NoHigherTier, s1) else
        var t := SkipEmpty(c, next);
        if Pool(c, t) == [] then Served(PoolsExhausted, s1.(tier := t))
        else Looping(MoveTo(c, s1, t, i.nextPick))
  }

  function OnAnswer(c: Config, s: State, check: Check, i: Input): (r: Status)
    requires IsTier(c, s.tier)
    ensures r.Looping? ==> 1 <= r.s.tier <= s.tier && r.s.model in Pool(c, r.s.tier)
    ensures s.dispatches <= r.s.dispatches && r.s.lastTier == Some(s.tier)
    ensures r.s.capFellBack == s.capFellBack && r.s.denials == s.denials
  {
    var n := |s.dispatches|;
    var s1 := LogDispatch(s, Answered).(result := Some(Response(s.model, n)), lastTier := Some(s.tier));
    if check.Crash? then Raised(CheckCrashed, s1) else
    var s2 := LogOutcome(s1.(qualityPassed := Some(check.Pass?)), s.tier, check.Pass?, s.escalated, n);
    if s.tier == 1 then Served(FrontierServed, s2)
    else if check.Pass? then Served(QualityPassed, s2)
    else AfterQualityFailure(c, s2, i)
  }

  /** Nothing after a failed dispatch touches the held answer, the dispatch log or the cap flag. */
  predicate SameAnswer(s: State, t: State) {
    && t.dispatches == s.dispatches && t.result == s.result
    && t.lastTier == s.lastTier && t.qualityPassed == s.qualityPassed
    && t.capFellBack == s.capFellBack && t.denials == s.denials
  }

  /** Serve the last successful tier's answer if there is one, else raise. `s.model` is still the model that
      failed; its failure is recorded unless a timeout already was. */
  function Degrade(s: State, exit: Exit, e: Exn, recorded: bool, failedTier: nat, dispatch: nat): (r: Status)
    ensures SameAnswer(s, r.s)
  {
    if s.result.Some? && s.lastTier.Some? then
      var s1 := if recorded then s else LogOutcome(s, failedTier, false, true, dispatch);
      Served(exit, s1.(tier := s.lastTier.value))
    else Raised(ProviderFailure(e), s)
  }

  function NotExcluded(failed: set<ModelId>, l: Learning): ModelId -> bool {
    (m: ModelId) => m !in failed && m !in l.hardAvoid && m !in l.avoid
  }

  function Fallbacks(c: Config, tier: nat, failed: set<ModelId>): seq<ModelId>
    requires IsTier(c, tier)
  {
    Filter(Pool(c, tier), NotExcluded(failed, c.learning))
  }

  /** No same-tier alternative is left: escalate (clearing the failed set), degrade, or raise. */
  function EscalateAfterFailure(c: Config, s: State, e: Exn, recorded: bool, dispatch: nat, pick: nat): (r: Status)
    requires IsTier(c, s.tier)
    ensures r.Looping? ==> 1 <= r.s.tier < s.tier && r.s.model in Pool(c, r.s.tier)
    ensures SameAnswer(s, r.s)
  {
    var next := if s.tier == 1 then None else GetNext(c, s.tier);
    match next
    case None => Degrade(s, TierUnreachable, e, recorded, s.tier, dispatch)
    case Some(n) =>
      var t := SkipEmpty(c, n);
      var s1 := s.(failed := {});
      if Pool(c, t) == [] then Degrade(s1.(tier := t), NoCapableModels, e, recorded, s.tier, dispatch)
      else Looping(MoveTo(c, s1, t, pick))
  }

  /** A failed call is logged, and its outcome too if it timed out. */
  function LogFailure(s: State, e: Exn): State {
    var s1 := LogDispatch(s, Threw(e));
    if IsSloTimeout(e) then LogOutcome(s1, s.tier, false, true, |s.dispatches|) else s1
  }

  /** A provider error: another model of the same tier if one is left, else escalate. */
  function AfterProviderError(c: Config, s: State, e: Exn, dispatch: nat, pick: nat): (r: Status)
    requires IsTier(c, s.tier)
    ensures r.Looping? ==> 1 <= r.s.tier <= s.tier && r.s.model in Pool(c, r.s.tier)
    ensures r.Looping? && r.s.tier == s.tier ==> r.s.failed == s.failed + {s.model} && r.s.model !in r.s.failed
    ensures SameAnswer(s, r.s)
  {
    var s1 := s.(failed := s.failed + {s.model});
    var fallbacks := Fallbacks(c, s.tier, s1.failed);
    FilterMembers(Pool(c, s.tier), NotExcluded(s1.failed, c.learning));
    if fallbacks != [] then Looping(s1.(model := Choose(fallbacks, pick)))
    else EscalateAfterFailure(c, s1, e, IsSloTimeout(e), dispatch, pick)
  }

  function OnFailure(c: Config, s: State, e: Exn, i: Input): (r: Status)
    requires IsTier(c, s.tier)
    ensures r.Looping? ==> 1 <= r.s.tier <= s.tier && r.s.model in Pool(c, r.s.tier)
    ensures r.Looping? && r.s.tier == s.tier ==> r.s.failed == s.failed + {s.model} && r.s.model !in r.s.failed
    ensures SameAnswer(LogDispatch(s, Threw(e)), r.s)
  {
    var s1 := LogFailure(s, e);
    if IsProviderError(e) then AfterProviderError(c, s1, e, |s.dispatches|, i.nextPick)
    else EscalateAfterFailure(c, s1, e, IsSloTimeout(e), |s.dispatches|, i.nextPick)
  }

  function Step(c: Config, s: State, i: Input): (r: Status)
    requires WellFormed(c) && IsTier(c, s.tier)
    ensures r.Looping? ==> IsTier(c, r.s.tier)
    ensures s.dispatches <= r.s.dispatches
  {
    if i.elapsed >= c.budget then
      if s.result.Some? then Served(BudgetExhausted, s) else Raised(BudgetTimeout, s)
    else
      var d := Admit(c, s, i);
      match i.call
      case Returns(check) => OnAnswer(c, d, check, i)
      case Throws(e) => OnFailure(c, d, e, i)
  }

  // ---------------------------------------------------------------------------
  // Runs
  // ---------------------------------------------------------------------------

  /** Where the request stands after the passes `ins`; a finished run ignores further inputs. */
  function Trace(c: Config, pick: nat, ins: seq<Input>): (r: Status)
    requires WellFormed(c)
    ensures r.Looping? ==> IsTier(c, r.s.tier)
  {
    if ins == [] then Start(c, pick) else
    var before := Trace(c, pick, ins[..|ins| - 1]);
    if before.Looping? then Step(c, before.s, ins[|ins| - 1]) else before
  }

  lemma {:induction false} TraceSnoc(c: Config, pick: nat, ins: seq<Input>, i: Input)
    requires WellFormed(c)
    ensures var before := Trace(c, pick, ins);
      Trace(c, pick, ins + [i]) == if before.Looping? then Step(c, before.s, i) else before
  {
    assert (ins + [i])[..|ins + [i]| - 1] == ins;
  }

  /** What the profile ranking may answer: some of the candidates it was given, none twice, at most n. */
  ghost predicate Plausible(c: Config, i: Input) {
    Aggregation.Ranks(i.rank, c.aggregation.maxParallel)
  }
}
