# Verified model of the Sriti routing core

Sriti answers a completion request by trying language models from cheap to expensive: tier 3 (local), tier 2, tier 1
(the frontier). This project models that machinery in Dafny and proves what it keeps over whole runs:

- **The cascade loop** (`Cascade`, `CascadeRun`): a request as a step machine, one step per pass of the loop, and the
  loop itself as a class whose methods update the request's variables in place and are proved to compute exactly the
  machine's run. Over that machine stand eleven theories: `CascadeProvenance` (what a held or served answer is),
  `CascadeLedger` (which calls are recorded for learning, and how), `CascadePath` (which tiers and models are called),
  `CascadeReach` (where a request starts, what it can reach and what steers it), `CascadeFallbacks` (what follows a failed call),
  `CascadeEscalation` (what the escalation counter and flag say), `CascadeBound` (when the loop ends), `CascadeBounce`
  (when a denied request returns to the frontier), `CascadeFrontier` (runs against real frontier counters),
  `CascadeExits` (runs that reach the two exits with a mismatch) and `CascadeTime` (calls against the clock). Everything the loop asks of the outside (clock, frontier counters, model choice,
  provider, quality check) is an input of the step, so each theorem holds for every provider and every choice.
- **What feeds it**: the capability filter, aggregation, the exception classes, the frontier cap as interleaved reads and
  writes of shared counters, the retry loop with its clock, model selection and its laws, the tier pools, the profile
  store, case memory, the expert bank, the provider-health breaker and the structural quality gate.
- **What surrounds it**: the local vector store with its persisted records, the semantic cache and its keys, the history
  printer and parser of prompt compression, and the service that puts cache, cascade and cache write together.

Classes model the objects that the program updates in place; their methods are proved against functions and predicates
on values, and the laws are lemmas about those. Floats are reals, random choice is an arbitrary draw, and a provider call
answers with a response, or fails with an exception of which only the class matters.

`dafny verify dfyconfig.toml` checks everything.

## Where the code departs from its comments

The model follows the code. The lemmas named say for which inputs the comment holds.

- The flag that a denied frontier check sets is said to prevent a ping-pong between tiers 1 and 2 (`engine.py:618`). A
  pass in tier 2 after a denial returns to the frontier exactly when its call throws, no fallback is left in tier 2 and
  the frontier is open, that is, escalation from tier 2 is allowed and tier 1 has a capable model; a quality failure
  never returns (`CascadeBounce.BounceIff`). The comment therefore holds for a request exactly if its frontier is not
  open (`CascadeBounce.CanReturnIff`). Denials are real: they are reachable exactly under a cap below 1
  (`Frontier.DeniesIff`), and a run alone in its minute keeps up the ping-pong for exactly as many passes as its counters
  deny in a row (`CascadeFrontier.PingPongIsReal`).
- `max_escalations` is tested only after a quality failure. Once it is reached, the counter passes it exactly when the
  call throws, no fallback is left and a tier above has capable models (`CascadeEscalation.LimitIsPassedIff`); with an
  open frontier any number of escalations is reached (`CascadeBounce.EscalationsUnlimited`).
- On two exits the reported tier is not the one that produced the answer. After a quality escalation into empty pools it
  is always below. On budget exhaustion it is below unless a denial has brought the request back to the tier 2 that
  produced the answer (`CascadeProvenance.RunReport`, predicate `ExitReport`). All three cases occur
  (`CascadeExits.MismatchOccurs`, `CascadeExits.BackInTier2Occurs`). The reported tier is therefore the producing one in
  every run of a request exactly if its first answer cannot be escalated (`CascadeExits.CanMismatchIff`).
- A frontier denial with no capable model in tier 2 calls the configured tier-2 model, capable or not
  (`CascadePath.ColdFallbackIsReached`).
- An aggregated answer has passed its check, yet the request reports `quality_passed` as false, so it is never cached;
  `quality_passed` is never undecided, although the service provides for that (`Service.QualityIsAlwaysDecided`).
- An aggregation in which nothing passes discards its outcomes, so those calls are never recorded
  (`CascadeLedger.RunLedger`, `Aggregation.AttemptLedger`).
- The timeout is capped at the remaining budget so that the deadline is not overshot (`engine.py:678`). The cap bounds one
  attempt, and timeouts are retried: a dispatch is sure to keep the deadline exactly if an SLO is enforced and three of it
  and four seconds still fit (`Retry.DeadlineKeptIff`). With the shipped values tier 3 never is
  (`Retry.ShippedDeadlines`).
- An empty answer is said to fail at every tier; the low-mode check accepts it at the frontier
  (`QualityGate.CheckLow`).
- `get_top_models` is documented to answer nothing without profiles; it answers the first candidates. With some
  qualified profiles it answers only those, so if there are more candidates than may run in parallel and some but fewer
  than the minimum qualify, aggregation is skipped; with few enough candidates nobody is ranked
  (`SelectionLaws.FewProfilesBlockAggregation`).
- Pareto is said to stay dominant over case memory. A lead beyond the case and affinity weights together decides for
  rewards in [0, 1] (`SelectionLaws.ParetoStaysDominant`), which hold exactly for quality scores in [0, 1]
  (`CaseMemory.RewardInRangeIff`). The low-mode check can return a negative one (`QualityGate.CheckLow`); for
  similarities in [-1, 1] the lead must exceed 1.4 times the case weight plus the affinity weight
  (`CaseMemory.RewardOfSimilarity`).
- A record reloaded in the last second of its life never expires (`VectorStore.ReloadedLifetime`).
- Conversations with different contexts are said never to share cache entries. For roles without a colon a context has a
  different one with the same fingerprint exactly if it has two prior turns or more, or a single one that quotes a turn
  behind a bar (`CacheCollisions.CollidesIff`); without separators inside the fields fingerprints tell contexts apart
  (`CacheKeys.FingerprintsTellContextsApart`). Turns after the last user message do not count at all
  (`CacheKeys.TrailingTurnsAreIgnored`).
- Compressing a history drops every turn after the last user message (`History.PassIsFaithful`).
- A profile key with a colon in the task reads back as another model and task (`ReliabilityStore.KeyRoundTrip`).

## Model

| member | source | states |
|---|---|---|
| `CascadeRun.Request.Run` | sriti/core/cascade/engine.py:516-1213 | the loop over mutable variables ends by the pass that finds the budget spent, and its exit and final state are those of the step machine's run |
| `CascadeRun.Request.OnePass` | sriti/core/cascade/engine.py:619-1213 | one pass of the loop body is one step of the machine; a pass that goes on found the budget unspent |
| `CascadeRun.Request.SkipEmptyTiers` | sriti/core/cascade/engine.py:1185-1199 | the skip loop stops at the first tier with capable models or where escalation ends |
| `CascadeRun.Request.SameTierFallbacks` | sriti/core/cascade/engine.py:767-773 | exactly the capable models of the tier that have not failed and are not to be avoided, in order |
| `CascadeFallbacks.FallbackPass` | sriti/core/cascade/engine.py:748-781 | after a failed call the loop stays in the tier exactly if the error is a provider error and the pool has a model, other than the one called, that has not failed and is on neither avoid list; the next model is one of these |
| `CascadeFallbacks.RunFallbacks` | sriti/core/cascade/engine.py:748-781 | every run: of the main-loop calls that a tier makes in a row each but the last failed with a provider error, and each but the first goes to a model of the pool that none before it went to and no avoid list names, tier-2 calls after a denial apart |
| `CascadeFallbacks.NoModelIsPassedOver` | sriti/core/cascade/engine.py:748-781 | every run: after a provider error the tier is not left while its pool has a model, on neither avoid list, that the loop has not called |
| `CascadeFallbacks.EverySpareCanFollow` | sriti/core/cascade/engine.py:776-781 | each of these models can be the next one, depending on the draw alone |
| `CascadeFallbacks.EveryModelCanTakeOver` | sriti/core/cascade/engine.py:640-669 | a denied check can be followed by a call of any model of the tier-2 pool |
| `CascadeReach.StartIff` | sriti/core/cascade/engine.py:457-568 | a request starts exactly if some tier within reach has a capable model; it starts on the bandit's choice exactly if that is in the first capable tier's pool or known with the media flags |
| `CascadeReach.ReachesIff` | sriti/core/cascade/engine.py:488-502 | some run comes to a tier above its start exactly if that tier has a capable model and the memory cap, unless a shadow's, allows it |
| `CascadeReach.ShadowSteersNoTier` | sriti/core/cascade/engine.py:457-502 | every run under a shadow's learning adjustment is the same with any other cap or forced tier in it |
| `CascadeProvenance.RunReport` | sriti/core/cascade/engine.py:619-1221 | every run: at the loop head a held answer is the latest one, failed its check and comes from a tier above the current number, or from tier 2 after a denial has brought the request back there; a served request reports model and tier of one dispatch, except that after a quality escalation into empty pools the reported tier is below, and on budget exhaustion it is below exactly if no denial has brought the request back to the producing tier 2; a failure means that no main-loop call ever answered, or that the check itself raised |
| `CascadeExits.MismatchOccurs` | sriti/core/cascade/engine.py:1184-1199 | for every request whose first answer can be escalated a run reports a tier below the producing one: in empty pools if the tiers above have no capable model, and on budget exhaustion otherwise |
| `CascadeExits.CanMismatchIff` | sriti/core/cascade/engine.py:619-1221 | some run of a request, on a clock that starts at zero or later, reports a tier that did not produce its answer exactly if its first answer can be escalated: budget and escalation limit are positive, and its starting tier escalates to another one |
| `CascadeExits.BackInTier2Occurs` | sriti/core/cascade/engine.py:627-669 | for every request that starts in tier 2 with an open frontier and a spare model a run exhausts the budget back in the tier 2 that produced its answer |
| `CascadeProvenance.NeverFailsAfterAnAnswer` | sriti/core/cascade/engine.py:803-923 | once any main-loop call has answered, no later event makes the request fail, short of a crash of the quality check |
| `CascadeProvenance.TraceExtendsLog` | sriti/core/cascade/engine.py:691-703 | the log of calls only grows |
| `CascadeLedger.RunLedger` | sriti/core/cascade/engine.py:709-1004 | every run: an outcome carries model and tier of its own call, no call has two, and a main-loop call has one exactly when it answered, timed out or ended the run by degrading; parallel calls have one exactly when their aggregation succeeded |
| `CascadeLedger.CallsAreLogged` | sriti/core/cascade/engine.py:691-748 | every call is logged with its own answer or error, a parallel one as answered exactly if it was |
| `CascadeLedger.VerdictsAreRecorded` | sriti/core/cascade/engine.py:957-1004 | every outcome that a pass records says passed exactly if that call's own answer passed its check |
| `CascadePath.RunTiers` | sriti/core/cascade/engine.py:640-1213 | every run: no call goes above the starting tier or below the memory cap, tiers never rise except from 1 to 2 after a denial, and after a denial the first answer ends the run |
| `CascadePath.StartWithoutBandit` | sriti/core/cascade/engine.py:457-537 | without a bandit choice the run starts at or below its initial tier, within the memory cap |
| `CascadePath.RunMedia` | sriti/core/cascade/engine.py:450-781 | every run of a vision or video request: every model called, in the loop or in aggregation, has the needed flags in the catalog, except the cold fallback |
| `CascadePath.RunNeeds` | sriti/core/cascade/engine.py:274-317 | every run: every main-loop call other than the bandit's choice goes to a model of its tier that has every capability the request or the learning adjustment needs, if the tier lists one |
| `CascadePath.ColdFallbackIsReached` | sriti/core/cascade/engine.py:655-662 | the exception occurs in every pass that is denied the frontier while tier 2 has no capable model |
| `CascadeBound.CallsBounded` | sriti/core/cascade/engine.py:619-1213 | every run: the main-loop calls are at most the starting potential plus a refund per denial, whatever is answered and whenever the failed set is cleared |
| `CascadeBound.StartingPotential` | sriti/core/cascade/engine.py:516-568 | the potential is the pools from the starting tier down, plus one for a bandit model from outside |
| `CascadeBound.EndsWithoutDenials` | sriti/core/cascade/engine.py:619-1213 | without denials the loop is over after at most as many passes as there are capable models from the starting tier down, without the clock |
| `CascadeBound.EveryPassCalls` | sriti/core/cascade/engine.py:691-702 | a loop that still goes on has made exactly one main-loop call per pass |
| `CascadeBound.PingPong` | sriti/core/cascade/engine.py:803-938 | from a start at the frontier, passes that are denied and fail with an error that is no provider error keep the loop going for any number of passes, each one escalation and one denial more |
| `CascadeBounce.BounceIff` | sriti/core/cascade/engine.py:748-938 | a pass in tier 2 after a denial returns to the frontier exactly when its call throws, no fallback is left and the frontier is open |
| `CascadeBounce.ReturnsIff` | sriti/core/cascade/engine.py:619-1213 | every run comes back to the frontier after a denial exactly if some pass of it is such a bounce |
| `CascadeBounce.CanReturnIff` | sriti/core/cascade/engine.py:618-938 | some run of a request comes back to the frontier after a denial exactly if its memory cap lets tier 2 escalate and tier 1 has a capable model |
| `CascadeBounce.EscalationsUnlimited` | sriti/core/cascade/engine.py:803-937 | with an open frontier every number of escalations is reached |
| `CascadeFrontier.LoneDenials` | sriti/core/cascade/policy.py:381-416 | a run alone in its minute, with the counters threaded through its checks: until one is allowed it is denied once per check and at most as often as the counters deny in a row |
| `CascadeFrontier.LoneRunEnds` | sriti/core/cascade/engine.py:619-1213 | such a run ends without the clock, with a bound on its denials, calls and passes, if no failed frontier model leaves another one to fall back to and there is no bandit choice |
| `CascadeFrontier.LoneRunsUnboundedIff` | sriti/core/cascade/engine.py:619-1213 | from a start at the frontier and a minute that denies it, under a cap of at most one half, lone runs go on past every bound exactly if some frontier model leaves such a fallback |
| `CascadeFrontier.PingPongIsReal` | sriti/core/cascade/engine.py:640-669 | denied and failing passes are answered so by real counters exactly up to the number of denials in a row |
| `CascadeTime.CallsIff` | sriti/core/cascade/engine.py:620-638 | a pass makes a main-loop call exactly if the loop has come to it and its head finds the budget unspent |
| `CascadeTime.CallsEndBy` | sriti/core/cascade/engine.py:620-702 | every main-loop call under an SLO, taken to begin at its pass's reading of the clock and with attempts that keep their timeout, is over within two SLOs and four seconds after the budget |
| `CascadeBound.BudgetEndsTheRun` | sriti/core/cascade/engine.py:620-638 | every run is over at the first pass whose head sees the budget spent, and that pass calls no provider |
| `CascadeEscalation.RunEscalations` | sriti/core/cascade/engine.py:802-1213 | every run: the flag says whether the counter is positive, the counter is at most the tiers above the start plus the denials, and a recorded outcome is marked escalated for a failed call, never for a parallel one, and without denials for an answered one exactly when it was made below the starting tier's number |
| `CascadeEscalation.AnswerEnds` | sriti/core/cascade/engine.py:923-1010 | an answer ends the request at the frontier in any case and elsewhere if it passed; otherwise exactly the aggregation candidates are called in parallel, and only if aggregation runs |
| `CascadeEscalation.QualityEscalatesIff` | sriti/core/cascade/engine.py:1006-1213 | an answer escalates, and by one, exactly if it was rejected below the frontier, no parallel answer replaces it, the counter is below the limit, a tier above has capable models, and it is not tier 2's after a denial |
| `CascadeEscalation.LimitIsPassedIff` | sriti/core/cascade/engine.py:748-937 | with the counter at the limit or beyond, a pass raises it exactly if its call throws, no fallback is left and a tier above has capable models |
| `Capabilities.FilterForCapabilities` | sriti/core/cascade/engine.py:274-317 | the filtering loop computes the capable models |
| `Capabilities.FilterSoundness` | sriti/core/cascade/engine.py:274-317 | the filter invents and repeats nothing; it is closed for vision and video, empty exactly when no model qualifies, and open for the rest |
| `Capabilities.FilterByFlags` | sriti/core/cascade/engine.py:274-317 | by the flags: exactly the listed models that are known with every needed flag, or unknown without a media need, in their order; if there are none, nothing for media and the whole list otherwise |
| `Exceptions.Classification` | sriti/core/cascade/engine.py:40-60 | the engine's and the retry loop's classes differ by exactly one, the missing model; a timeout is in both |
| `Aggregation.CandidatesAreCapable` | sriti/core/cascade/aggregation.py:56-113 | the candidates are different models of the tier, never the failed one, at most the configured number, and capable of the media asked for |
| `Aggregation.SelectBestResponse` | sriti/core/cascade/aggregation.py:155-176 | the first passing answer wins, and every answer has its own verdict, a crashed check counting as a failure |
| `Aggregation.SplitReplies` | sriti/core/cascade/aggregation.py:284-302 | failures and successes in candidate order, each success with its own answer |
| `Aggregation.AttemptAggregation` | sriti/core/cascade/aggregation.py:207-359 | eligibility, candidate count, split, choice and outcome list compute the attempt |
| `Aggregation.AttemptLedger` | sriti/core/cascade/aggregation.py:284-359 | it succeeds exactly when it may run and some candidate passes; then the first passing one is served and each candidate recorded once, the failed before the answered |
| `Frontier.CapHoldsUnderInterleaving` | sriti/core/cascade/policy.py:381-416 | every interleaving of up to k checks: the frontier count stays within the total, and with the pending allowances below max(20, cap times the traffic to come) + k |
| `Frontier.CapAtRest` | sriti/core/cascade/policy.py:381-416 | with no check under way the frontier count exceeds max(20, cap times total) by at most k - 1 |
| `Frontier.BoundIsReached` | sriti/core/cascade/policy.py:382-416 | some interleaving of at most k checks ends exactly at that bound if and only if cap times (19 + k) is at most 20; under any larger cap every interleaving stays strictly below |
| `Frontier.DeniesIff` | sriti/core/cascade/policy.py:386-407 | counters that deny the next check are reached at rest exactly under a cap below 1 |
| `Frontier.DenialsAreReachable` | sriti/core/cascade/policy.py:386-407 | from an empty minute, one check at a time, the whole computed run of denials takes place |
| `Frontier.AllowedIff` | sriti/core/cascade/policy.py:396-397 | a check is allowed exactly when the total is large enough for one more frontier request |
| `Frontier.DenialRun` | sriti/core/cascade/policy.py:386-416 | sequentially the next checks are denied exactly max(0, ceil((F+1)/cap) - (T+1)) times, each raising only the total, and the one after is allowed |
| `Frontier.NonPositiveCapDenies` | sriti/core/cascade/policy.py:386-407 | a cap of zero or less denies everything from the traffic minimum on |
| `Frontier.CapStore.CheckAndRecord` | sriti/core/cascade/policy.py:351-416 | one uninterrupted check: its answer and both counters of its scope, all other scopes unchanged |
| `Retry.WithRetry` | sriti/core/execution/retry.py:35-71 | exactly the attempts up to the first that answers or fails for good are made; its result, or the last error, is reported |
| `Retry.CallTime` | sriti/core/execution/retry.py:49-71 | m attempts that keep their timeout take at most m timeouts and the pauses between them |
| `Retry.PauseGrows` | sriti/core/execution/retry.py:56-61 | a pause never exceeds the cap, and below it doubles with every attempt, but for the jitter |
| `Retry.DispatchEnds` | sriti/core/cascade/engine.py:679-702 | a dispatch begun at e under an enforced SLO ends by e + 3 min(SLO, B - e) + 4 |
| `Retry.WithinIff` | sriti/core/execution/retry.py:49-71 | whatever the provider does within its timeout, every call is over within a given time if and only if m timeouts and the longest pauses are |
| `Retry.DeadlineKeptIff` | sriti/core/cascade/engine.py:678-690 | every dispatch keeps the deadline if and only if an SLO is enforced and e + 3 SLO + 4 is within the budget |
| `Retry.ShippedDeadlines` | sriti/config/policy.yaml:58-80 | with the shipped budget and SLOs a dispatch is sure to keep the deadline in tier 3 never, in tier 2 up to second 221 and at the frontier up to second 176 |
| `Retry.OvershootIsBounded` | sriti/core/cascade/engine.py:679-702 | a dispatch ends at most two SLOs and four seconds past the budget |
| `Retry.TimeoutsOvershoot` | sriti/core/cascade/engine.py:685-690 | without an enforced SLO every dispatch to a provider that keeps timing out ends past the deadline, whatever the pauses |
| `Selection.Score` | sriti/core/cascade/reliability.py:306-331 | the scoring of one candidate from spans computed once is its fitness among all candidates |
| `Selection.Exploit` | sriti/core/cascade/reliability.py:290-336 | the loop answers the first candidate of maximal fitness |
| `Selection.ColdStart` | sriti/core/cascade/reliability.py:169-200 | a least sampled model of any non-empty pool, the policy's model for an empty one |
| `Selection.GetBestModel` | sriti/core/cascade/reliability.py:203-336 | a member of any non-empty pool; if it does not explore, a first best one if a candidate qualifies and a least sampled one otherwise |
| `Selection.GetTopModels` | sriti/core/cascade/reliability.py:346-410 | the first n of the stable descending sort of the qualified candidates |
| `Selection.QualifiedByNumbers` | sriti/core/cascade/reliability.py:245-263 | a profile is considered exactly if it is a listed model's for the task, on enough samples and at least half successful |
| `SelectionMerits.ThirdDecides` | sriti/core/cascade/reliability.py:299-309 | of two candidates with equal success and secondary terms, the best and dearest beats the worst and cheapest exactly above complexity 1/3 |
| `SelectionMerits.ComplexityFavoursQuality` | sriti/core/cascade/reliability.py:299-331 | a better and dearer candidate of equal success that wins at some complexity wins at every higher one |
| `SelectionMerits.SuccessWinsIff` | sriti/core/cascade/reliability.py:309-331 | of two that differ in success alone the more successful wins exactly if its quality makes up for its cost, but for a hundredth |
| `SelectionMerits.ListsWeigh` | sriti/core/cascade/reliability.py:321-327 | by how much a preferred, avoided, hard-avoided, or preferred and avoided candidate must lead an unlisted one to win |
| `SelectionMerits.SignalsBreakTies` | sriti/core/cascade/reliability.py:310-319 | between level candidates the higher affinity wins, and the higher case bias |
| `SelectionLaws.SelectorsAgree` | sriti/core/cascade/reliability.py:302-410 | without case bias and with equal affinities the exploit loop answers the head of the ranking |
| `SelectionLaws.DominatedNeverChosen` | sriti/core/cascade/reliability.py:290-336 | of candidates with equal success and equal secondary terms, one worse in cost or quality and better in neither is never chosen, at any complexity in [0,1] |
| `SelectionLaws.ParetoStaysDominant` | sriti/core/cascade/reliability.py:267-336 | a lead in tradeoff and success bonus beyond the affinity weight and (1 - low) times the case weight decides, whatever the affinities and the cases with rewards between low and 1 |
| `SelectionLaws.ReadAffinities` | sriti/core/cascade/reliability.py:312-319 | the affinities read from the bank lie in [0,1], as the previous law needs |
| `SelectionLaws.TopIsRanking` | sriti/core/cascade/reliability.py:370-410 | the ranking has different candidates only, none excluded, and exactly min(n, qualified) of them, or min(n, all) if none qualifies |
| `SelectionLaws.TopIsBest` | sriti/core/cascade/reliability.py:381-410 | the ranking falls in score and leaves out no qualified profile that scores higher; without qualified profiles it is the first n as given |
| `SelectionLaws.TopNamesRank` | sriti/core/cascade/aggregation.py:94-109 | the ranking as aggregation asks for it is one for every list of different candidates, which is all that the cascade's theorems assume of it |
| `SelectionLaws.FewProfilesBlockAggregation` | sriti/core/cascade/aggregation.py:78-113 | the exact number of candidates for every catalog, profile cache and setting; with a minimum that fits, aggregation may run exactly if there are enough candidates and, should there be too many to take all while some qualify, enough of them qualify |
| `SelectionLaws.BestAreAggregated` | sriti/core/cascade/aggregation.py:94-113 | with too many candidates to take all and some qualified, the best scoring qualified ones are asked |
| `Ranking.ProfileScore` | sriti/core/cascade/reliability.py:441-457 | the pass over the profile cache averages exactly the model's trusted profiles |
| `Ranking.ScoreWeighs` | sriti/core/cascade/reliability.py:453-457 | of two profiled models the one scores higher whose lead in quality, half again as heavy as one in success, outweighs what it costs more |
| `Ranking.ProfiledByNumbers` | sriti/core/cascade/reliability.py:446-452 | a model has a score exactly if one of its profiles rests on enough samples |
| `Ranking.RankCandidates` | sriti/core/cascade/reliability.py:420-469 | the loop and both sorts compute the ranking, also in the branch for an empty cache |
| `Ranking.EmptyCacheIsColdStart` | sriti/core/cascade/reliability.py:438-439 | with an empty cache the ranking is the cold-start order by which the policy ranks the tiers |
| `Ranking.RankingIsFaithful` | sriti/core/cascade/reliability.py:459-469 | nothing lost or doubled; profiled models first, by score; at equal scores, and among the others, only a fast model stands before a fast one, only a slow one behind a slow one, and the cheaper first among fast, slow and all other models |
| `TierResolution.ResolveTiers` | sriti/core/cascade/policy.py:129-223 | each tier's configuration from override, catalog or fallback |
| `TierResolution.NoModelLost` | sriti/core/cascade/policy.py:165-223 | primary, complexity and additional models of a tier are together exactly its active models; an override or an empty tier has its one model |
| `TierResolution.AdditionalAreOthers` | sriti/core/cascade/policy.py:207-212 | additional models are listed once and are none of the routed ones |
| `TierResolution.AvailableModels` | sriti/core/cascade/reliability.py:109-120 | the pool as a list, every model once |
| `TierResolution.GetModelForComplexity` | sriti/core/cascade/policy.py:304-326 | the loop answers the model of the last bucket up to the complexity |
| `TierResolution.ChosenByRank` | sriti/core/cascade/policy.py:186-326 | a score below 0.33 selects the first ranked model, one from 0.66 the last, and one in between the middle one of three or more |
| `TierResolution.ComplexityNeverRanksLower` | sriti/core/cascade/policy.py:186-326 | the chosen model is in the pool; as the score rises it never becomes faster, nor cheaper among fast, slow and all other models |
| `TierResolution.ClassServesComplexity` | sriti/core/cascade/policy.py:111-326 | a tier without override that has a fast model is led by a cheapest fast one, which serves scores below 0.33; if it has a slow one, a dearest slow one serves scores from 0.66 |
| `ReliabilityStore.HistoryClosedForm` | sriti/core/cascade/reliability_store.py:51-71 | after any history each average is the geometrically weighted sum of all outcomes with weights adding up to 1, and the count is their number |
| `ReliabilityStore.FourInARow` | sriti/core/cascade/reliability_store.py:57-58 | four failures in a row leave any success rate below one half, four successes above |
| `ReliabilityStore.ThreeMayNotSuffice` | sriti/core/cascade/reliability_store.py:57-58 | three failures after a perfect record leave 0.512 |
| `ReliabilityStore.HullUnderInterleaving` | sriti/core/cascade/reliability_store.py:53-71 | under every interleaving of reads and writes the averages stay within the bounds of the outcomes, and the count never exceeds the writes |
| `ReliabilityStore.UpdatesCanBeLost` | sriti/core/cascade/reliability_store.py:53-71 | two recordings that read first leave only one |
| `ReliabilityStore.KeyRoundTrip` | sriti/core/cascade/reliability_store.py:35-89 | a key reads back to its model and task exactly when the task has no colon |
| `ReliabilityStore.Store.RecordOutcome` | sriti/core/cascade/reliability_store.py:39-71 | one profile is updated or seeded, all others stay |
| `ReliabilityStore.Store.LoadAllProfiles` | sriti/core/cascade/reliability_store.py:76-93 | the scan reads every stored key under the prefix and nothing else, each entry being the profile of a key that parses to it; of what recording writes, a profile is found under its own model and task exactly when the task has no colon |
| `CaseMemory.RewardRange` | sriti/core/cascade/case_memory.py:80-95 | with a score in [0,1] the reward is in [0,1], and 1 only for a perfect free pass |
| `CaseMemory.RewardInRangeIff` | sriti/core/cascade/case_memory.py:90-95 | a quality score keeps every reward in [0,1], whatever the verdict and cost, exactly if it is in [0,1] itself |
| `CaseMemory.RewardParts` | sriti/core/cascade/case_memory.py:80-95 | passing weighs as much as being free and three quarters of the quality score, and cost beyond a cent no more |
| `CaseMemory.ComputeCaseBias` | sriti/core/cascade/case_memory.py:242-265 | the accumulating loop has an entry per model with a case, each the sum of its contributions |
| `CaseMemory.BetterCaseRaisesBias` | sriti/core/cascade/case_memory.py:253-265 | a case with a higher reward raises its own model's bias and no other's |
| `CaseMemory.BiasSign` | sriti/core/cascade/case_memory.py:253-265 | cases above the threshold alone give a positive bias, cases at or below it alone a negative one, no cases none |
| `CaseMemory.RewardOfSimilarity` | sriti/core/cascade/case_memory.py:90-95 | with a similarity in [-1,1] for a score the reward is between -0.4 and 1 |
| `CaseMemory.BiasesShareOneSpan` | sriti/core/cascade/case_memory.py:253-265 | the absolute biases of any different models add up to at most 1 minus a lower bound of the rewards, so to at most 1 for rewards in [0,1] |
| `ExpertBank.SeedHeuristic` | sriti/core/cascade/expert_bank.py:84-101 | the boosting loops compute the seed |
| `ExpertBank.SeedRange` | sriti/core/cascade/expert_bank.py:84-101 | a seed scores every step type, between neutral and 1 |
| `ExpertBank.SeedIsHighestBoost` | sriti/core/cascade/expert_bank.py:84-101 | a seed is neutral or the highest boost of the model's strengths and latency class |
| `ExpertBank.BlendBetween` | sriti/core/cascade/expert_bank.py:195-204 | a blend lies between data and heuristic, so the clamp never acts |
| `ExpertBank.BlendRamps` | sriti/core/cascade/expert_bank.py:195-204 | the blend moves from the heuristic toward the data by equal steps up to 20 samples, and then stays at the blend factor's share of the way |
| `ExpertBank.Bank.SeedAll` | sriti/core/cascade/expert_bank.py:104-111 | all active models are seeded, learned affinities stay, and every affinity stays in [0,1] |
| `ExpertBank.Bank.UpdateFromProduction` | sriti/core/cascade/expert_bank.py:170-205 | each (model, step) of the statistics gets the blend of its success rate with the catalog seed, or with 0.5 without one; every other affinity, of this tenant and all others, stays |
| `ProviderHealth.P95OrderStatistic` | sriti/core/cascade/provider_health.py:155-160 | at least n - idx samples reach the p95 and at most n - 1 - idx exceed it |
| `ProviderHealth.IndexIsNearest` | sriti/core/cascade/provider_health.py:155-160 | its position is the nearest whole number to 0.95 (n - 1), of two equally near the even one |
| `ProviderHealth.FlagNeedsRoom` | sriti/core/cascade/provider_health.py:181-193 | a provider is newly flagged only if n - idx(n) <= N - 1 - idx(N) |
| `ProviderHealth.CanFlagIff` | sriti/core/cascade/provider_health.py:181-193 | some n samples of a minute within N of the hour flag the provider exactly if n is between the minimum and N and that room is there |
| `ProviderHealth.OneMinuteNeverFlags` | sriti/core/cascade/provider_health.py:181-193 | data from the current minute alone never flags |
| `ProviderHealth.FlagNeedsHistory` | sriti/core/cascade/provider_health.py:181-193 | a flag rests on older samples, with the fewest samples on two |
| `ProviderHealth.Breaker.Record` | sriti/core/cascade/provider_health.py:80-100 | only successful calls of a provider enter its current bucket |
| `ProviderHealth.ProviderEndsAtSlash` | sriti/core/cascade/provider_health.py:66-77 | a model's provider is the text before its first slash |
| `ProviderHealth.Breaker.WindowHolds` | sriti/core/cascade/provider_health.py:59-152 | a window holds exactly the samples of its minutes |
| `ProviderHealth.Breaker.WindowContains` | sriti/core/cascade/provider_health.py:59-152 | the current minute's samples are part of every longer window's |
| `ProviderHealth.Breaker.IsDegraded` | sriti/core/cascade/provider_health.py:163-203 | the latch decides while it holds; then a provider is degraded exactly if minute and hour have ten samples each and the minute's p95 is more than twice the hour's; a verdict sets the latch |
| `ProviderHealth.Breaker.FilterCandidates` | sriti/core/cascade/provider_health.py:206-244 | the flagged providers do not depend on the order of asking, and the answer is the partition by them |
| `ProviderHealth.FilterIsStable` | sriti/core/cascade/provider_health.py:239-244 | a rearrangement with every healthy model before every degraded one, each part in the given order |
| `QualityGate.CheckStructure` | sriti/core/cascade/engine.py:79-181 | when the structural check rejects, accepts and leaves open, exactly |
| `QualityGate.CheckLow` | sriti/core/cascade/engine.py:185-249 | when the low-mode check passes, exactly; a negative score is always a measured similarity |
| `QualityGate.GateAfterCheck` | sriti/core/cache/semantic_cache.py:324-347 | below the frontier an answer that the structural check lets through is written by the cache exactly when it is complete, long enough, cacheable and free of error phrases, and, for a JSON answer only, of hedging; a hedging one is refused at any tier |
| `Phrases.HedgesWithinTheHead` | sriti/core/cache/semantic_cache.py:341-344 | a text hedges exactly when a hedging phrase lies wholly in its first 200 characters |
| `VectorStore.PayloadRoundTrip` | sriti/core/local_vector_store.py:65-97 | a document reads back to its metadata and vector exactly when the metadata has no `_vector` |
| `VectorStore.ReloadedLifetime` | sriti/core/local_vector_store.py:63-64 | reloading never extends a lifetime exactly when a whole second is left or the record never expires; in the last second the record becomes immortal |
| `VectorStore.SimilarityRange` | sriti/core/local_vector_store.py:109-132 | the similarity of normalised vectors is between -1 and 1, and 1 for the same vector only |
| `VectorStore.LocalVectorStore.Add` | sriti/core/local_vector_store.py:80-107 | the record enters the index in any case and the storage if the write succeeds |
| `VectorStore.LocalVectorStore.Load` | sriti/core/local_vector_store.py:52-75 | the index is exactly what the live entries read back to, each once; any failure leaves it empty |
| `VectorStore.LocalVectorStore.Search` | sriti/core/local_vector_store.py:109-132 | the sorted and cut list of matching live records |
| `VectorStoreLaws.WriteKeepsAgreement` | sriti/core/local_vector_store.py:80-107 | under a fresh key index and storage still agree exactly when the write succeeds without `_vector` in its metadata, or is dead on arrival |
| `VectorStoreLaws.HistoriesAgree` | sriti/core/local_vector_store.py:80-107 | after any history of such writes under distinct keys they agree, now and later |
| `VectorStoreLaws.ReloadedRecord` | sriti/core/local_vector_store.py:58-67 | each reloaded record is a live record of the agreeing index, with the reloaded expiry |
| `VectorStoreLaws.ReloadIsTheLiveIndex` | sriti/core/local_vector_store.py:52-75 | reloading yields exactly the live records held in memory, each once |
| `VectorStoreLaws.HistoryReloads` | sriti/core/local_vector_store.py:52-132 | after every history of consistent writes under distinct keys the storage can be reloaded, and any index rebuilt from it finds the same similarities as the one in memory |
| `VectorStoreLaws.SearchSpec` | sriti/core/local_vector_store.py:109-132 | the min(k, n) best of the n live matching records, in descending order, and nothing left out is more similar |
| `VectorStoreLaws.ReloadFindsTheSame` | sriti/core/local_vector_store.py:52-132 | searching the reloaded index and the one in memory gives the same similarities in the same order |
| `CacheKeys.BuildCacheText` | sriti/core/cache/semantic_cache.py:282-295 | the one-pass loop finds the first non-empty system text and the last user text |
| `CacheKeys.EveryTextCounts` | sriti/core/cascade/multimodal.py:174-188 | a content of parts has the text of all its text parts, in order |
| `CacheKeys.SystemPromptCounts` | sriti/core/cache/semantic_cache.py:282-295 | two conversations with the same question have the same text to embed exactly if they have the same system prompt |
| `CacheKeys.SystemPromptIsFirst` | sriti/core/cache/semantic_cache.py:282-295 | the system prompt is the first system text that is not empty, wherever it stands |
| `CacheKeys.BuildFingerprintText` | sriti/core/cache/semantic_cache.py:298-318 | the text before hashing, of the turns before the last user message and the sorted tools |
| `CacheKeys.FingerprintsTellContextsApart` | sriti/core/cache/semantic_cache.py:298-318 | clean contexts have the same fingerprint text exactly when turns and tools are the same |
| `CacheCollisions.BarInContent` | sriti/core/cache/semantic_cache.py:315 | anywhere in any context, quoting a turn behind a bar has the fingerprint text of saying it |
| `CacheCollisions.ColonInRole` | sriti/core/cache/semantic_cache.py:315 | a role with a colon can end at it |
| `CacheCollisions.BarInRole` | sriti/core/cache/semantic_cache.py:315 | what precedes a bar in a role can end the turn before |
| `CacheCollisions.RoleNamedTools` | sriti/core/cache/semantic_cache.py:315-317 | a last turn of the role `tools` reads like the tool names |
| `CacheCollisions.BarInTool` | sriti/core/cache/semantic_cache.py:315-317 | a tool name with a bar can begin at a later mark |
| `CacheCollisions.CommaInTool` | sriti/core/cache/semantic_cache.py:316-317 | a tool name with a comma reads like two |
| `CacheCollisions.CollidesIff` | sriti/core/cache/semantic_cache.py:298-318 | for roles without a colon a context shares its fingerprint text with a different one of the same tools exactly if it has two turns or more, or one that quotes a turn behind a bar |
| `CacheKeys.TrailingTurnsAreIgnored` | sriti/core/cache/semantic_cache.py:282-318 | turns after the last user message change neither fingerprint nor, without a system turn, the embedded text |
| `SemanticCache.MetadataReadsBack` | sriti/core/cache/semantic_cache.py:184-256 | a stored document gives back the written answer under its tenant and fingerprint |
| `SemanticCache.OwnWriteMatches` | sriti/core/cache/semantic_cache.py:157-172 | what a write left matches a lookup exactly while it lives and tenant and fingerprint are the same |
| `SemanticCache.ThresholdIsNearest` | sriti/core/cache/semantic_cache.py:145-157 | the threshold is the number in [0,1] nearest to the task's own moved by the offset |
| `SemanticCache.LifetimeIsWhole` | sriti/core/cache/semantic_cache.py:257-265 | a lifetime is the scaled one without its fraction |
| `SemanticCache.SemanticCache.WarmUp` | sriti/core/cache/semantic_cache.py:110-117 | after a reload every record still stems from a gated write, in time unless met in its last second |
| `SemanticCache.SemanticCache.Set` | sriti/core/cache/semantic_cache.py:200-265 | a write takes place exactly when the cache is open, the model ready, the answer complete, of 20 characters or more and without hedging or error, the task cacheable or an agent step, and there is a text to embed; it keeps every record genuine |
| `SemanticCache.SemanticCache.RunTask` | sriti/core/cache/semantic_cache.py:267-275 | a scheduled write takes place later, in any order among the others |
| `SemanticCache.SemanticCache.Get` | sriti/core/cache/semantic_cache.py:123-198 | a hit was written before, passed the gate, has the same tenant and fingerprint, has not outlived its deadline unless reloaded in its last second, is a most similar such entry and meets the clamped threshold; a miss means that no entry does, or that the cache is closed, the model not ready, the task not cacheable, or there is nothing to embed |
| `SemanticCache.BestMatch` | sriti/core/cache/semantic_cache.py:166-172 | a search for one answers a most similar match, or nothing exactly when nothing matches |
| `SemanticCache.SameFingerprintSameContext` | sriti/core/cache/semantic_cache.py:315-318 | under an injective digest clean contexts share a fingerprint exactly when the turns before the last user message agree in role and text and the tools are the same |
| `History.SerializeHistory` | sriti/core/compression/llmlingua.py:144-154 | the loop prints the parts of all messages, one line each |
| `History.ReconstructMessages` | sriti/core/compression/llmlingua.py:157-179 | the index loop reads the segment pairs, with the fallback for none |
| `History.RoundTrip` | sriti/core/compression/llmlingua.py:141-179 | printing and reading back normalises a history exactly when it is not empty and no content has a role tag |
| `History.SplitMessages` | sriti/core/compression/llmlingua.py:101-134 | the system prompt is the first message exactly if that has the role; with a user message, system prompt, history and last user message are together the messages up to it |
| `History.PassIsFaithful` | sriti/core/compression/llmlingua.py:233-279 | with an identity compression the conversation comes through exactly when there is no history, or the user spoke last and no content of the history has a role tag |
| `History.EndsAreKept` | sriti/core/compression/llmlingua.py:267-277 | whatever compression makes of a history, the system prompt stays first and the last user message comes last |
| `Service.FloorIsKept` | sriti/core/service.py:146-167 | every run: a floor of 2 never calls tier 3, a floor of 1 calls tier 2 only after a denial |
| `Service.StartsAtFloor` | sriti/core/service.py:146-167 | a floor of 1 or 2 starts the run there if that tier has a capable model, a floor of 3 where the policy starts it |
| `Service.JsonIsRequired` | sriti/core/service.py:146-167 | every run of a JSON completion: main-loop calls go to models that support JSON mode, as far as the catalog knows them, if the tier lists a fitting one |
| `Service.QualityIsAlwaysDecided` | sriti/core/service.py:190-198 | every served run has decided `quality_passed`, true only after a passed check of the served answer, false for every aggregated or degraded one |
| `Service.OneFingerprint` | sriti/core/service.py:90-115 | all text completions share one fingerprint, so similarity alone tells them apart |
| `Service.Service.Complete` | sriti/core/service.py:72-211 | a hit is an answer that an earlier text-only cacheable run earned by passing its check; otherwise the reply is the run's, and a write is scheduled exactly when the request may use the cache and its answer passed |
| `Service.Service.RunTask` | sriti/core/service.py:198-209 | a scheduled write keeps everything in the cache earned |

## Left out

- HTTP and streaming endpoints, telemetry, logging and the routing trail: input and output around the core.
- Provider calls, embeddings, the classifier and the complexity score: oracles, vectors and numbers given from outside; a response's `model_used` is the model that was asked.
- Encryption and SHA-256: a cipher whose decryption inverts it, and an abstract digest, injective where a lemma says so; its truncation to 16 digits is not modelled.
- LLMLingua and remote compression: the compressed text is given. The quality-gate error handler of `maybe_compress` (llmlingua.py:431-439), which omits a required field and so raises, is not modelled.
- YAML loading, settings and environment: tier lists, thresholds, weights and the budget are parameters.
- The Redis transport: a map with expiry times. Its errors are modelled where they leave a trace (failed persist, failed reload); the fail-open branches of cap, breaker and profile store are not, nor are the lifetimes of counter and sample buckets.
- The server's reported lifetime is rounded down to whole seconds; a server that rounds to the nearest second can extend a lifetime by up to half a second.
- Floats are reals, so rounding and overflow are not modelled; the similarity score of a hit is the unrounded one.
- Strings are ASCII where case or white space matters; Unicode case mapping and spaces are not modelled. Message contents in the history are strings.
- The quality check inside the cascade is an oracle with three results (pass, fail, crash); `QualityGate` models the check apart from it, with the JSON parser as a parameter.
- The medium quality mode, a stub onto low mode, and the unused `max_cases_per_index` setting.
- The legacy provider-preference sort of tier resolution, behind a flag that is off by default.
- Exploration weights: only that every member of the pool can be drawn, which needs positive weights.
- Total cost: the reported cost is the served response's alone (engine.py:1227), so there is nothing to conserve.
- Case retrieval and storage in the vector store: they go through the store modelled here and would only add easy members.
- Retry.DispatchEnds: covers dispatches begun before the budget is spent; a remaining time of zero or less by the time the timeout is computed is not modelled.
- CascadeTime.CallsEndBy: a pass reads the clock once; the time between that reading and the start of its call is not modelled.
- CascadeFrontier.LoneRunsUnboundedIff: the shipped cap is 0.08 (policy.yaml:82); for caps above one half, where several checks in a row can be allowed and the answer depends on the counters as well as on the length of the fallback chain, it is not decided.
- Ranking.RankCandidates: profiles are a list in cache order rather than a dictionary.
- Service.Service.Complete: the answer of a run is scheduled at once; classification and compression before it are inputs, and an unknown tier name, which raises, is not modelled.
- SemanticCache.SemanticCache.Get: an exception while embedding, which reads as a miss, is not modelled.
- Frontier.CapHoldsUnderInterleaving: one minute bucket with a fixed cap and no server errors; each pipeline is atomic.
- Orchestration, schemas, multimodal detection, embedding cache and registry filters: only easy members.
