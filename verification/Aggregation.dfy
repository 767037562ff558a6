/** Same-tier aggregation: after a quality failure, ask other models of the tier before escalating. */
module Aggregation {
  import opened Wrappers
  import opened Sequences
  import opened Capabilities

  /** What the quality check says of an answer; `Crash` is a check that raises. */
  datatype Check = Pass | Reject | Crash

  /** What one parallel dispatch brings back. */
  datatype Reply = Failed | Answered(check: Check) {
    predicate Passes() { Answered? && check.Pass? }
  }

  datatype Settings = Settings(enabled: bool, eligibleTiers: set<nat>, maxParallel: nat, minModels: nat)

  /** `winner` and the entries of `order` are indices into the candidate list; `order` is the order in which
      the outcomes are recorded, failed dispatches first. */
  datatype Result = Result(winner: nat, order: seq<nat>)

  // ---------------------------------------------------------------------------
  // Candidates
  // ---------------------------------------------------------------------------

  function OtherThan(failed: ModelId): ModelId -> bool { (m: ModelId) => m != failed }

  /** What a ranking by reliability profile may answer: some of the candidates, none twice, at most `n`. */
  ghost predicate IsRanking(ranked: seq<ModelId>, candidates: seq<ModelId>, n: nat) {
    NoDup(ranked) && |ranked| <= n && forall m :: m in ranked ==> m in candidates
  }

  /** `rank` answers every list of different candidates with a ranking of them. */
  ghost predicate Ranks(rank: seq<ModelId> -> seq<ModelId>, n: nat) {
    forall cs :: NoDup(cs) ==> IsRanking(rank(cs), cs, n)
  }

  function Eligible(catalog: Catalog, models: seq<ModelId>, needs: Needs, failed: ModelId): seq<ModelId> {
    Filter(CapableModels(catalog, models, needs), OtherThan(failed))
  }

  /** `rank` answers for the ranking by profiles; an empty answer (or a ranking that raised) falls back to
      the first `maxParallel` candidates. */
  function Candidates(catalog: Catalog, models: seq<ModelId>, needs: Needs, failed: ModelId,
                      maxParallel: nat, rank: seq<ModelId> -> seq<ModelId>): seq<ModelId>
  {
    var eligible := Eligible(catalog, models, needs, failed);
    if |eligible| <= maxParallel then eligible
    else if rank(eligible) != [] then rank(eligible)
    else eligible[..maxParallel]
  }

  lemma CandidatesAreCapable(catalog: Catalog, models: seq<ModelId>, needs: Needs, failed: ModelId,
                             maxParallel: nat, rank: seq<ModelId> -> seq<ModelId>)
    requires NoDup(models) && Ranks(rank, maxParallel)
    ensures var r := Candidates(catalog, models, needs, failed, maxParallel, rank);
      && NoDup(r) && |r| <= maxParallel
      && (forall m :: m in r ==> m in models && m != failed)
      && (needs.Media() ==> forall m :: m in r ==> SupportsMedia(catalog, m, needs))
  {
    FilterSoundness(catalog, models, needs);
    FilterMembers(CapableModels(catalog, models, needs), OtherThan(failed));
    EligibleAreOthers(catalog, models, needs, failed);
  }

  lemma EligibleAreOthers(catalog: Catalog, models: seq<ModelId>, needs: Needs, failed: ModelId)
    requires NoDup(models)
    ensures var eligible := Eligible(catalog, models, needs, failed);
      NoDup(eligible) && forall k :: 0 <= k < |eligible| ==> eligible[k] != failed
  {
    FilterSoundness(catalog, models, needs);
    FilterKeepsNoDup(CapableModels(catalog, models, needs), OtherThan(failed));
    FilterSatisfies(CapableModels(catalog, models, needs), OtherThan(failed));
  }

  // ---------------------------------------------------------------------------
  // Picking the best response
  // ---------------------------------------------------------------------------

  /** The first passing answer wins; every answer's verdict is noted, a crashed check as a failure. */
  method SelectBestResponse(successful: seq<(ModelId, Check)>)
    returns (best: Option<nat>, results: map<ModelId, bool>)
    requires forall i, j :: 0 <= i < j < |successful| ==> successful[i].0 != successful[j].0
    ensures best.None? <==> forall i :: 0 <= i < |successful| ==> !successful[i].1.Pass?
    ensures best.Some? ==> best.value < |successful| && successful[best.value].1.Pass?
    ensures best.Some? ==> forall i :: 0 <= i < best.value ==> !successful[i].1.Pass?
    ensures forall i :: 0 <= i < |successful| ==>
      successful[i].0 in results && results[successful[i].0] == successful[i].1.Pass?
  {
    best, results := None, map[];
    for k := 0 to |successful|
      invariant best.None? <==> forall i :: 0 <= i < k ==> !successful[i].1.Pass?
      invariant best.Some? ==> best.value < k && successful[best.value].1.Pass?
      invariant best.Some? ==> forall i :: 0 <= i < best.value ==> !successful[i].1.Pass?
      invariant forall i :: 0 <= i < k ==>
        successful[i].0 in results && results[successful[i].0] == successful[i].1.Pass?
    {
      var (modelId, check) := successful[k];
      if check.Crash? {
        results := results[modelId := false];
      } else {
        var passed := check.Pass?;
        results := results[modelId := passed];
        if passed && best.None? {
          best := Some(k);
        }
      }
    }
  }

  // ---------------------------------------------------------------------------
  // The attempt
  // ---------------------------------------------------------------------------

  /** The candidates below `k` whose dispatch failed, by index. */
  function Failures(candidates: seq<ModelId>, reply: ModelId -> Reply, k: nat): (r: seq<nat>)
    requires k <= |candidates|
    ensures forall i :: 0 <= i < |r| ==> r[i] < k && reply(candidates[r[i]]).Failed?
    ensures forall i, j :: 0 <= i < j < |r| ==> r[i] < r[j]
  {
    if k == 0 then [] else
    var r := Failures(candidates, reply, k - 1);
    if reply(candidates[k - 1]).Failed? then r + [k - 1] else r
  }

  /** The candidates below `k` that answered, by index. */
  function Successes(candidates: seq<ModelId>, reply: ModelId -> Reply, k: nat): (r: seq<nat>)
    requires k <= |candidates|
    ensures forall i :: 0 <= i < |r| ==> r[i] < k && reply(candidates[r[i]]).Answered?
    ensures forall i, j :: 0 <= i < j < |r| ==> r[i] < r[j]
  {
    if k == 0 then [] else
    var r := Successes(candidates, reply, k - 1);
    if reply(candidates[k - 1]).Answered? then r + [k - 1] else r
  }

  /** Every candidate is either a failure or a success. */
  lemma {:induction false} EveryReplyIsListed(candidates: seq<ModelId>, reply: ModelId -> Reply, k: nat, i: nat)
    requires i < k <= |candidates|
    ensures reply(candidates[i]).Failed? ==> i in Failures(candidates, reply, k)
    ensures reply(candidates[i]).Answered? ==> i in Successes(candidates, reply, k)
  {
    if i < k - 1 {
      EveryReplyIsListed(candidates, reply, k - 1, i);
    }
  }

  predicate AnyPasses(candidates: seq<ModelId>, reply: ModelId -> Reply) {
    exists k :: 0 <= k < |candidates| && reply(candidates[k]).Passes()
  }

  function FirstPassing(candidates: seq<ModelId>, reply: ModelId -> Reply): (k: nat)
    requires AnyPasses(candidates, reply)
    ensures k < |candidates| && reply(candidates[k]).Passes()
    ensures forall j :: 0 <= j < k ==> !reply(candidates[j]).Passes()
  {
    if reply(candidates[0]).Passes() then 0 else
    assert AnyPasses(candidates[1..], reply) by {
      var k :| 0 <= k < |candidates| && reply(candidates[k]).Passes();
      assert candidates[1..][k - 1] == candidates[k];
    }
    var rest := FirstPassing(candidates[1..], reply);
    assert forall j :: 1 <= j < rest + 1 ==> candidates[j] == candidates[1..][j - 1];
    rest + 1
  }

  ghost predicate InBounds(order: seq<nat>, n: nat) {
    forall i :: 0 <= i < |order| ==> order[i] < n
  }

  ghost predicate Lists(order: seq<nat>, k: nat) { k in order }

  /** The failed calls are listed before the answered ones, and both in the order of the candidates. */
  ghost predicate FailuresFirst(candidates: seq<ModelId>, reply: ModelId -> Reply, order: seq<nat>) {
    forall i, j :: 0 <= i < j < |order| && order[i] < |candidates| && order[j] < |candidates| ==>
      if reply(candidates[order[i]]).Failed? == reply(candidates[order[j]]).Failed? then order[i] < order[j]
      else reply(candidates[order[i]]).Failed?
  }

  predicate Runs(settings: Settings, tier: nat, candidates: seq<ModelId>) {
    settings.enabled && tier in settings.eligibleTiers && |candidates| >= settings.minModels
  }

  function Attempt(settings: Settings, tier: nat, candidates: seq<ModelId>, reply: ModelId -> Reply): Option<Result> {
    if Runs(settings, tier, candidates) && AnyPasses(candidates, reply) then
      Some(Result(FirstPassing(candidates, reply),
                  Failures(candidates, reply, |candidates|) + Successes(candidates, reply, |candidates|)))
    else None
  }

  /** A successful attempt serves the first passing candidate and records each candidate exactly once, the failed first.
      A failed one returns nothing, so none of its dispatches is recorded. */
  lemma AttemptLedger(settings: Settings, tier: nat, candidates: seq<ModelId>, reply: ModelId -> Reply)
    ensures var r := Attempt(settings, tier, candidates, reply);
      && (r.Some? <==> Runs(settings, tier, candidates) && AnyPasses(candidates, reply))
      && (r.Some? ==>
        && r.value.winner < |candidates| && reply(candidates[r.value.winner]).Passes()
        && (forall j :: 0 <= j < r.value.winner ==> !reply(candidates[j]).Passes())
        && NoDup(r.value.order)
        && InBounds(r.value.order, |candidates|)
        && (forall k: nat :: k < |candidates| ==> Lists(r.value.order, k))
        && FailuresFirst(candidates, reply, r.value.order))
  {
    forall k: nat | k < |candidates|
      ensures Lists(Failures(candidates, reply, |candidates|) + Successes(candidates, reply, |candidates|), k)
    {
      EveryReplyIsListed(candidates, reply, |candidates|, k);
    }
  }

  /** Separate the answered dispatches from the failed ones, keeping candidate order in both. */
  method SplitReplies(candidates: seq<ModelId>, reply: ModelId -> Reply)
    returns (failures: seq<nat>, successes: seq<nat>, successful: seq<(ModelId, Check)>)
    ensures failures == Failures(candidates, reply, |candidates|)
    ensures successes == Successes(candidates, reply, |candidates|)
    ensures |successful| == |successes|
    ensures forall j :: 0 <= j < |successes| ==>
      successful[j] == (candidates[successes[j]], reply(candidates[successes[j]]).check)
  {
    failures, successes, successful := [], [], [];
    for k := 0 to |candidates|
      invariant failures == Failures(candidates, reply, k)
      invariant successes == Successes(candidates, reply, k)
      invariant |successful| == |successes|
      invariant forall j :: 0 <= j < |successes| ==>
        successful[j] == (candidates[successes[j]], reply(candidates[successes[j]]).check)
    {
      match reply(candidates[k])
      case Failed => failures := failures + [k];
      case Answered(check) =>
        successes := successes + [k];
        successful := successful + [(candidates[k], check)];
    }
  }

  /** The orchestration: eligibility, candidate count, split, pick, and the list of outcomes. */
  method AttemptAggregation(settings: Settings, tier: nat, candidates: seq<ModelId>, reply: ModelId -> Reply)
    returns (r: Option<Result>)
    requires NoDup(candidates)
    ensures r == Attempt(settings, tier, candidates, reply)
  {
    if !settings.enabled || tier !in settings.eligibleTiers || |candidates| < settings.minModels {
      return None;
    }
    var failures, successes, successful := SplitReplies(candidates, reply);
    if successful == [] {
      NothingPasses(candidates, reply, successes);
      return None;
    }
    var best, _ := SelectBestResponse(successful);
    if best.None? {
      NothingPasses(candidates, reply, successes);
      return None;
    }
    FirstPassingIsFirst(candidates, reply, successes, best.value);
    r := Some(Result(successes[best.value], failures + successes));
  }

  lemma NothingPasses(candidates: seq<ModelId>, reply: ModelId -> Reply, successes: seq<nat>)
    requires successes == Successes(candidates, reply, |candidates|)
    requires forall j :: 0 <= j < |successes| ==> !reply(candidates[successes[j]]).Passes()
    ensures !AnyPasses(candidates, reply)
  {
    forall k | 0 <= k < |candidates| ensures !reply(candidates[k]).Passes() {
      if reply(candidates[k]).Answered? {
        EveryReplyIsListed(candidates, reply, |candidates|, k);
      }
    }
  }

  lemma FirstPassingIsFirst(candidates: seq<ModelId>, reply: ModelId -> Reply, successes: seq<nat>, b: nat)
    requires successes == Successes(candidates, reply, |candidates|) && b < |successes|
    requires reply(candidates[successes[b]]).Passes()
    requires forall i :: 0 <= i < b ==> !reply(candidates[successes[i]]).Passes()
    ensures AnyPasses(candidates, reply) && FirstPassing(candidates, reply) == successes[b]
  {
    var v := successes[b];
    forall k | 0 <= k < v ensures !reply(candidates[k]).Passes() {
      if reply(candidates[k]).Answered? {
        EveryReplyIsListed(candidates, reply, |candidates|, k);
        var j :| 0 <= j < |successes| && successes[j] == k;
        assert j < b;
      }
    }
    hide *;
    FirstIs(candidates, reply, v);
  }

  lemma FirstIs(candidates: seq<ModelId>, reply: ModelId -> Reply, v: nat)
    requires v < |candidates| && reply(candidates[v]).Passes()
    requires forall k :: 0 <= k < v ==> !reply(candidates[k]).Passes()
    ensures AnyPasses(candidates, reply) && FirstPassing(candidates, reply) == v
  {
    hide FirstPassing;
  }
}
