/** Which models each tier consists of, and which of them a request's complexity selects. */
module TierResolution {
  import opened Sequences
  import opened StableSort
  import opened Capabilities

  const FALLBACK_MODEL: ModelId := "gpt-4o-mini"

  datatype TierConfig = TierConfig(
    tier: nat, model: ModelId, complexityModels: seq<(int, ModelId)>, additional: seq<ModelId>)

  // ---------------------------------------------------------------------------
  // Ranking
  // ---------------------------------------------------------------------------

  function ClassRank(info: ModelInfo): nat {
    if info.latencyClass == "fast" then 0 else if info.latencyClass == "slow" then 2 else 1
  }

  predicate RanksBefore(a: ModelInfo, b: ModelInfo) {
    ClassRank(a) < ClassRank(b) || (ClassRank(a) == ClassRank(b) && a.costPerMillionInput <= b.costPerMillionInput)
  }

  /** `a` is at least as fast as `b`, and at most as dear if they are of one kind: only a fast model stands before a fast
      one, only a slow one behind a slow one, and the cheaper first among fast, slow, and all other models. */
  predicate FasterOrCheaper(a: ModelInfo, b: ModelInfo) {
    && (b.latencyClass == "fast" ==> a.latencyClass == "fast")
    && (a.latencyClass == "slow" ==> b.latencyClass == "slow")
    && ((a.latencyClass == "fast" <==> b.latencyClass == "fast") && (a.latencyClass == "slow" <==> b.latencyClass == "slow") ==>
          a.costPerMillionInput <= b.costPerMillionInput)
  }

  lemma RankMeansFasterOrCheaper(a: ModelInfo, b: ModelInfo)
    ensures RanksBefore(a, b) <==> FasterOrCheaper(a, b)
  {
    assert "fast"[0] != "slow"[0];
  }

  function ByRank(): (ModelInfo, ModelInfo) -> bool { (a: ModelInfo, b: ModelInfo) => RanksBefore(a, b) }

  function InTier(tier: nat): ModelInfo -> bool { (m: ModelInfo) => m.defaultTier == tier && m.active }

  /** The active models of the tier, fast and cheap ones first. */
  function Ranked(catalog: seq<ModelInfo>, tier: nat): seq<ModelInfo> {
    Sort(Filter(catalog, InTier(tier)), ByRank())
  }

  ghost predicate DistinctIds(ms: seq<ModelInfo>) {
    forall i, j :: 0 <= i < j < |ms| ==> ms[i].modelId != ms[j].modelId
  }

  function Ids(ms: seq<ModelInfo>): (r: seq<ModelId>)
    ensures |r| == |ms| && forall i :: 0 <= i < |ms| ==> r[i] == ms[i].modelId
  {
    seq(|ms|, i requires 0 <= i < |ms| => ms[i].modelId)
  }

  // ---------------------------------------------------------------------------
  // Resolution
  // ---------------------------------------------------------------------------

  /** Up to three of the ranked models, by the complexity they serve. */
  function Buckets(ranked: seq<ModelInfo>): seq<(int, ModelId)> {
    var n := |ranked|;
    if n >= 3 then [(0, ranked[0].modelId), (1, ranked[n / 2].modelId), (2, ranked[n - 1].modelId)]
    else if n == 2 then [(0, ranked[0].modelId), (2, ranked[1].modelId)]
    else []
  }

  function Second<A, B>(p: (A, B)): B { p.1 }

  /** The primary model and the ones that serve a complexity. */
  function Routed(model: ModelId, buckets: seq<(int, ModelId)>): set<ModelId> {
    {model} + set i | 0 <= i < |buckets| :: Second(buckets[i])
  }

  function Unrouted(routed: set<ModelId>): ModelId -> bool { (m: ModelId) => m !in routed }

  function FromCatalog(tier: nat, ranked: seq<ModelInfo>): TierConfig
    requires ranked != []
  {
    var buckets := Buckets(ranked);
    TierConfig(tier, ranked[0].modelId, buckets, Filter(Ids(ranked), Unrouted(Routed(ranked[0].modelId, buckets))))
  }

  function Resolve(tier: nat, overrides: map<nat, ModelId>, catalog: seq<ModelInfo>): TierConfig {
    if tier in overrides && overrides[tier] != "" then TierConfig(tier, overrides[tier], [], [])
    else if Ranked(catalog, tier) == [] then TierConfig(tier, FALLBACK_MODEL, [], [])
    else FromCatalog(tier, Ranked(catalog, tier))
  }

  method ResolveTiers(count: nat, overrides: map<nat, ModelId>, catalog: seq<ModelInfo>) returns (tiers: seq<TierConfig>)
    ensures |tiers| == count && forall i :: 0 <= i < count ==> tiers[i] == Resolve(i + 1, overrides, catalog)
  {
    tiers := [];
    for i := 0 to count
      invariant |tiers| == i && forall k :: 0 <= k < i ==> tiers[k] == Resolve(k + 1, overrides, catalog)
    {
      var tier := i + 1;
      var model, buckets, additional := FALLBACK_MODEL, [], [];
      if tier in overrides && overrides[tier] != "" {
        model := overrides[tier];
      } else {
        var ranked := Ranked(catalog, tier);
        if ranked != [] {
          model, buckets := ranked[0].modelId, Buckets(ranked);
          additional := Remaining(ranked, Routed(model, buckets));
        }
      }
      tiers := tiers + [TierConfig(tier, model, buckets, additional)];
    }
  }

  method Remaining(ranked: seq<ModelInfo>, routed: set<ModelId>) returns (additional: seq<ModelId>)
    ensures additional == Filter(Ids(ranked), Unrouted(routed))
  {
    additional := [];
    for k := 0 to |ranked|
      invariant additional == Filter(Ids(ranked)[..k], Unrouted(routed))
    {
      FilterPrefix(Ids(ranked), k, Unrouted(routed));
      if ranked[k].modelId !in routed {
        additional := additional + [ranked[k].modelId];
      }
    }
    assert Ids(ranked)[..|ranked|] == Ids(ranked);
  }

  // ---------------------------------------------------------------------------
  // The pool of a tier
  // ---------------------------------------------------------------------------

  function PoolOf(t: TierConfig): set<ModelId> {
    Routed(t.model, t.complexityModels) + set i | 0 <= i < |t.additional| :: t.additional[i]
  }

  /** The pool as a list, in no particular order. */
  method AvailableModels(t: TierConfig) returns (models: seq<ModelId>)
    ensures NoDup(models) && forall m :: m in models <==> m in PoolOf(t)
  {
    models := [];
    var todo := PoolOf(t);
    while todo != {}
      invariant NoDup(models) && todo <= PoolOf(t)
      invariant forall m :: m in models <==> m in PoolOf(t) - todo
      decreases todo
    {
      var m :| m in todo;
      assert m !in models;
      models := models + [m];
      todo := todo - {m};
    }
  }

  lemma RankedAreTheActiveModels(catalog: seq<ModelInfo>, tier: nat)
    ensures forall m :: m in Ranked(catalog, tier) <==> m in catalog && m.defaultTier == tier && m.active
    ensures SortedBy(Ranked(catalog, tier), ByRank())
  {
    var models := Filter(catalog, InTier(tier));
    FilterMembers(catalog, InTier(tier));
    SortCorrect(models, ByRank());
    SameElements(Ranked(catalog, tier), models);
  }

  /** The ids of the active models of a tier. */
  ghost function ActiveIds(catalog: seq<ModelInfo>, tier: nat): set<ModelId> {
    set m | m in catalog && m.defaultTier == tier && m.active :: m.modelId
  }

  /** No model is lost: without an override, the primary, the complexity and the additional models of a tier with
      active models are exactly those; an override or a tier without models has the one configured. */
  lemma NoModelLost(tier: nat, overrides: map<nat, ModelId>, catalog: seq<ModelInfo>)
    ensures PoolOf(Resolve(tier, overrides, catalog)) ==
      if tier in overrides && overrides[tier] != "" then {overrides[tier]}
      else if ActiveIds(catalog, tier) == {} then {FALLBACK_MODEL}
      else ActiveIds(catalog, tier)
  {
    var ranked := Ranked(catalog, tier);
    RankedAreTheActiveModels(catalog, tier);
    if ranked == [] {
      assert ActiveIds(catalog, tier) == {};
    } else {
      assert ranked[0] in ranked && ranked[0].modelId in ActiveIds(catalog, tier);
      RankedPool(tier, ranked);
      forall id ensures id in PoolOf(FromCatalog(tier, ranked)) <==> id in ActiveIds(catalog, tier) {
        if id in ActiveIds(catalog, tier) {
          var m :| m in catalog && m.defaultTier == tier && m.active && m.modelId == id;
          assert m in ranked;
          var i :| 0 <= i < |ranked| && ranked[i] == m;
          assert Ids(ranked)[i] == id;
        }
        if id in Ids(ranked) {
          var i :| 0 <= i < |ranked| && ranked[i].modelId == id;
          assert ranked[i] in ranked;
        }
      }
    }
  }

  lemma RankedPool(tier: nat, ranked: seq<ModelInfo>)
    requires ranked != []
    ensures forall id :: id in PoolOf(FromCatalog(tier, ranked)) <==> id in Ids(ranked)
  {
    var t := FromCatalog(tier, ranked);
    var routed := Routed(t.model, t.complexityModels);
    FilterMembers(Ids(ranked), Unrouted(routed));
    forall id | id in routed ensures id in Ids(ranked) {
      assert Ids(ranked)[0] in Ids(ranked) && Ids(ranked)[|ranked| / 2] in Ids(ranked);
      assert Ids(ranked)[|ranked| - 1] in Ids(ranked);
      if id != t.model {
        var i :| 0 <= i < |t.complexityModels| && Second(t.complexityModels[i]) == id;
      }
    }
    forall id ensures id in PoolOf(t) <==> id in routed || id in t.additional {
      if id in t.additional {
        var i :| 0 <= i < |t.additional| && t.additional[i] == id;
      }
    }
  }

  /** Each model is listed once: no additional model is routed too, and none is listed twice. */
  lemma AdditionalAreOthers(tier: nat, ranked: seq<ModelInfo>)
    requires ranked != [] && DistinctIds(ranked)
    ensures var t := FromCatalog(tier, ranked);
      NoDup(t.additional) && forall id :: id in t.additional ==> id !in Routed(t.model, t.complexityModels)
  {
    var t := FromCatalog(tier, ranked);
    FilterMembers(Ids(ranked), Unrouted(Routed(t.model, t.complexityModels)));
    FilterKeepsNoDup(Ids(ranked), Unrouted(Routed(t.model, t.complexityModels)));
  }

  // ---------------------------------------------------------------------------
  // Complexity
  // ---------------------------------------------------------------------------

  function Discrete(score: real): int { if score < 0.33 then 0 else if score < 0.66 then 1 else 2 }

  method GetModelForComplexity(t: TierConfig, complexity: int) returns (best: ModelId)
    ensures best == ForComplexity(t, complexity)
  {
    if t.complexityModels == [] {
      return t.model;
    }
    best := t.model;
    for k := 0 to |t.complexityModels|
      invariant best == LastUpTo(t.model, t.complexityModels[..k], complexity)
    {
      var (c, m) := t.complexityModels[k];
      assert t.complexityModels[..k + 1][..k] == t.complexityModels[..k];
      if c <= complexity {
        best := m;
      }
    }
    assert t.complexityModels[..|t.complexityModels|] == t.complexityModels;
  }

  /** The model of the last bucket up to `complexity`. */
  function LastUpTo(model: ModelId, buckets: seq<(int, ModelId)>, complexity: int): ModelId {
    if buckets == [] then model else
    var last := buckets[|buckets| - 1];
    if last.0 <= complexity then last.1 else LastUpTo(model, buckets[..|buckets| - 1], complexity)
  }

  function ForComplexity(t: TierConfig, complexity: int): ModelId { LastUpTo(t.model, t.complexityModels, complexity) }

  /** The rank a score selects among `n` models. */
  function RankFor(n: nat, score: real): nat
    requires n > 0
  {
    if score < 0.33 then 0
    else if score < 0.66 then (if n >= 3 then n / 2 else 0)
    else n - 1
  }

  /** A score below 0.33 selects the first ranked model and one from 0.66 on the last; in between the middle one is
      selected of three or more, and otherwise the first. */
  lemma ChosenByRank(tier: nat, ranked: seq<ModelInfo>, score: real)
    requires ranked != []
    ensures var id, n := ForComplexity(FromCatalog(tier, ranked), Discrete(score)), |ranked|;
      && (score < 0.33 ==> id == ranked[0].modelId)
      && (0.33 <= score < 0.66 ==> id == ranked[if n >= 3 then n / 2 else 0].modelId)
      && (score >= 0.66 ==> id == ranked[n - 1].modelId)
    ensures ForComplexity(FromCatalog(tier, ranked), Discrete(score)) == ranked[RankFor(|ranked|, score)].modelId
  {
    var b, n, c, model := Buckets(ranked), |ranked|, Discrete(score), ranked[0].modelId;
    if n >= 2 {
      assert LastUpTo(model, b[..1], c) == model;
      assert b[..2][..1] == b[..1];
      assert LastUpTo(model, b[..2], c) == if b[1].0 <= c then b[1].1 else model;
      assert n == 2 ==> b[..2] == b;
      assert n >= 3 ==> b[..|b| - 1] == b[..2];
    }
  }

  /** A more complex request never gets a model that ranks earlier: the chosen one is in the pool, and as the score
      rises its latency class and, within a class, its cost never fall. */
  lemma ComplexityNeverRanksLower(tier: nat, catalog: seq<ModelInfo>, lower: real, higher: real)
    requires lower <= higher && Ranked(catalog, tier) != []
    ensures var ranked := Ranked(catalog, tier);
      var t := FromCatalog(tier, ranked);
      exists i, j :: 0 <= i <= j < |ranked|
        && ranked[i].modelId == ForComplexity(t, Discrete(lower)) && ranked[j].modelId == ForComplexity(t, Discrete(higher))
        && FasterOrCheaper(ranked[i], ranked[j])
    ensures ForComplexity(FromCatalog(tier, Ranked(catalog, tier)), Discrete(lower)) in
      PoolOf(FromCatalog(tier, Ranked(catalog, tier)))
  {
    var ranked := Ranked(catalog, tier);
    RankedAreTheActiveModels(catalog, tier);
    ChosenByRank(tier, ranked, lower);
    ChosenByRank(tier, ranked, higher);
    RankedPool(tier, ranked);
    var i, j := RankFor(|ranked|, lower), RankFor(|ranked|, higher);
    assert i <= j;
    assert i < j ==> ByRank()(ranked[i], ranked[j]);
    RankMeansFasterOrCheaper(ranked[i], ranked[j]);
    assert Ids(ranked)[i] in Ids(ranked);
  }

  predicate ActiveOf(m: ModelInfo, tier: nat, latencyClass: string) {
    m.defaultTier == tier && m.active && m.latencyClass == latencyClass
  }

  /** The id is that of a cheapest active fast model of the tier. */
  ghost predicate CheapestFast(catalog: seq<ModelInfo>, tier: nat, id: ModelId) {
    exists m :: m in catalog && ActiveOf(m, tier, "fast") && m.modelId == id
      && forall x :: x in catalog && ActiveOf(x, tier, "fast") ==> m.costPerMillionInput <= x.costPerMillionInput
  }

  /** The id is that of a dearest active slow model of the tier. */
  ghost predicate DearestSlow(catalog: seq<ModelInfo>, tier: nat, id: ModelId) {
    exists m :: m in catalog && ActiveOf(m, tier, "slow") && m.modelId == id
      && forall x :: x in catalog && ActiveOf(x, tier, "slow") ==> x.costPerMillionInput <= m.costPerMillionInput
  }

  lemma FirstIsCheapestFast(catalog: seq<ModelInfo>, tier: nat, fast: ModelInfo)
    requires fast in catalog && ActiveOf(fast, tier, "fast")
    ensures Ranked(catalog, tier) != [] && CheapestFast(catalog, tier, Ranked(catalog, tier)[0].modelId)
  {
    var ranked := Ranked(catalog, tier);
    RankedAreTheActiveModels(catalog, tier);
    hide Ranked;
    assert fast in ranked;
    var first := ranked[0];
    forall x | x in ranked ensures FasterOrCheaper(first, x) {
      var i :| 0 <= i < |ranked| && ranked[i] == x;
      assert i > 0 ==> ByRank()(first, x);
      RankMeansFasterOrCheaper(first, x);
    }
    assert FasterOrCheaper(first, fast);
    assert "fast"[0] != "slow"[0];
    assert first in catalog && ActiveOf(first, tier, "fast");
  }

  lemma LastIsDearestSlow(catalog: seq<ModelInfo>, tier: nat, slow: ModelInfo)
    requires slow in catalog && ActiveOf(slow, tier, "slow")
    ensures var ranked := Ranked(catalog, tier); ranked != [] && DearestSlow(catalog, tier, ranked[|ranked| - 1].modelId)
  {
    var ranked := Ranked(catalog, tier);
    RankedAreTheActiveModels(catalog, tier);
    hide Ranked;
    assert slow in ranked;
    var last := ranked[|ranked| - 1];
    forall x | x in ranked ensures FasterOrCheaper(x, last) {
      var i :| 0 <= i < |ranked| && ranked[i] == x;
      assert i < |ranked| - 1 ==> ByRank()(x, last);
      RankMeansFasterOrCheaper(x, last);
    }
    assert FasterOrCheaper(slow, last);
    assert "fast"[0] != "slow"[0];
    assert last in catalog && ActiveOf(last, tier, "slow");
  }

  /** A tier without an override that has a fast model active is led by a cheapest such model, which also serves its
      simple requests; if it has a slow one active, a dearest such model serves its complex requests. */
  lemma ClassServesComplexity(tier: nat, overrides: map<nat, ModelId>, catalog: seq<ModelInfo>, score: real)
    requires tier !in overrides || overrides[tier] == ""
    ensures var t := Resolve(tier, overrides, catalog);
      && ((exists m :: m in catalog && ActiveOf(m, tier, "fast")) ==>
            CheapestFast(catalog, tier, t.model) && (score < 0.33 ==> CheapestFast(catalog, tier, ForComplexity(t, Discrete(score)))))
      && ((exists m :: m in catalog && ActiveOf(m, tier, "slow")) ==>
            score >= 0.66 ==> DearestSlow(catalog, tier, ForComplexity(t, Discrete(score))))
  {
    var ranked := Ranked(catalog, tier);
    if ranked != [] {
      ChosenByRank(tier, ranked, score);
    }
    hide Ranked, ForComplexity, CheapestFast, DearestSlow;
    if m :| m in catalog && ActiveOf(m, tier, "fast") {
      FirstIsCheapestFast(catalog, tier, m);
    }
    if m :| m in catalog && ActiveOf(m, tier, "slow") {
      LastIsDearestSlow(catalog, tier, m);
    }
  }
}
