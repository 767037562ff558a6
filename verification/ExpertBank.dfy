/** Step-type affinities: heuristic seeds from the catalog, blended with production success rates. */
module ExpertBank {
  import opened Wrappers
  import opened Capabilities
  import opened Reals

  const DEFAULT_AFFINITY: real := 0.5
  const MIN_SAMPLES: nat := 20

  const STEP_TYPES: seq<string> :=
    ["planning", "retrieval", "synthesis", "verification", "tool_use", "generation", "translation"]

  type Affinities = map<string, real>

  /** The boost table of one strength or latency class. */
  type Boosts = map<string, Affinities>

  const STRENGTH_BOOSTS: Boosts := map[
    "reasoning" := map["planning" := 0.9, "verification" := 0.8, "synthesis" := 0.7],
    "code" := map["tool_use" := 0.9, "generation" := 0.8],
    "multilingual" := map["translation" := 0.9],
    "summarization" := map["synthesis" := 0.8],
    "extraction" := map["retrieval" := 0.7],
    "math" := map["verification" := 0.8, "planning" := 0.7],
    "creative" := map["generation" := 0.9],
    "agentic" := map["planning" := 0.8, "tool_use" := 0.8]]

  const LATENCY_BOOSTS: Boosts := map[
    "fast" := map["retrieval" := 0.9, "generation" := 0.7],
    "slow" := map["planning" := 0.8, "verification" := 0.7],
    "medium" := map[]]

  predicate Bounded(a: Affinities) {
    forall k :: k in a ==> 0.0 <= a[k] <= 1.0
  }

  /** A boost table as the module's own are: every boost a proper affinity. */
  ghost predicate Proper(boosts: Boosts) {
    forall k :: k in boosts ==> Bounded(boosts[k])
  }

  lemma StrengthsAreProper()
    ensures Proper(STRENGTH_BOOSTS)
  {
    hide LATENCY_BOOSTS;
  }

  lemma LatenciesAreProper()
    ensures Proper(LATENCY_BOOSTS)
  {
    hide STRENGTH_BOOSTS;
  }

  /** Raise the known step types to their boost. */
  function Boost(scores: Affinities, boosts: Affinities): Affinities {
    map k | k in scores :: if k in boosts then Max(scores[k], boosts[k]) else scores[k]
  }

  function Neutral(): Affinities { map k | k in STEP_TYPES :: DEFAULT_AFFINITY }

  function BoostAll(scores: Affinities, boosts: Boosts, keys: seq<string>): Affinities {
    if keys == [] then scores else
    var before := BoostAll(scores, boosts, keys[..|keys| - 1]);
    var key := keys[|keys| - 1];
    if key in boosts then Boost(before, boosts[key]) else before
  }

  /** Neutral scores, raised by each strength of the model and then by its latency class. */
  function Seed(info: ModelInfo): Affinities {
    BoostAll(BoostAll(Neutral(), STRENGTH_BOOSTS, info.strengths), LATENCY_BOOSTS, [info.latencyClass])
  }

  method SeedHeuristic(info: ModelInfo) returns (scores: Affinities)
    ensures scores == Seed(info)
  {
    scores := Neutral();
    for i := 0 to |info.strengths|
      invariant scores == BoostAll(Neutral(), STRENGTH_BOOSTS, info.strengths[..i])
    {
      assert info.strengths[..i + 1][..i] == info.strengths[..i];
      if info.strengths[i] in STRENGTH_BOOSTS {
        scores := Boost(scores, STRENGTH_BOOSTS[info.strengths[i]]);
      }
    }
    assert info.strengths[..|info.strengths|] == info.strengths;
    var cls := [info.latencyClass];
    assert cls[..0] == [] && cls[|cls| - 1] == info.latencyClass && cls[..|cls| - 1] == [];
    assert BoostAll(scores, LATENCY_BOOSTS, cls[..|cls| - 1]) == scores;
    if info.latencyClass in LATENCY_BOOSTS {
      scores := Boost(scores, LATENCY_BOOSTS[info.latencyClass]);
    }
  }

  lemma {:induction false} BoostingIsBounded(scores: Affinities, boosts: Boosts, keys: seq<string>)
    requires Bounded(scores) && Proper(boosts)
    ensures var r := BoostAll(scores, boosts, keys);
      Bounded(r) && r.Keys == scores.Keys && forall k :: k in r ==> r[k] >= scores[k]
  {
    if keys != [] {
      BoostingIsBounded(scores, boosts, keys[..|keys| - 1]);
    }
  }

  /** A seed scores every step type, never below neutral and never above 1. */
  lemma SeedRange(info: ModelInfo)
    ensures var r := Seed(info);
      Bounded(r) && forall k :: k in STEP_TYPES ==> k in r && DEFAULT_AFFINITY <= r[k]
  {
    StrengthsAreProper();
    LatenciesAreProper();
    BoostingIsBounded(Neutral(), STRENGTH_BOOSTS, info.strengths);
    var mid := BoostAll(Neutral(), STRENGTH_BOOSTS, info.strengths);
    BoostingIsBounded(mid, LATENCY_BOOSTS, [info.latencyClass]);
  }

  /** The boost that one strength or latency class gives a step type, if any. */
  predicate Gives(boosts: Boosts, key: string, step: string, value: real) {
    key in boosts && step in boosts[key] && boosts[key][step] == value
  }

  /** Boosting raises each score to its highest boost and no further. */
  lemma {:induction false} BoostingTakesHighest(scores: Affinities, boosts: Boosts, keys: seq<string>, step: string)
    requires step in scores
    ensures var r := BoostAll(scores, boosts, keys);
      && step in r && r[step] >= scores[step]
      && (forall k, v :: k in keys && Gives(boosts, k, step, v) ==> r[step] >= v)
      && (r[step] == scores[step] || exists k :: k in keys && Gives(boosts, k, step, r[step]))
  {
    if keys != [] {
      var front, key := keys[..|keys| - 1], keys[|keys| - 1];
      BoostingTakesHighest(scores, boosts, front, step);
      assert keys == front + [key];
      var before, r := BoostAll(scores, boosts, front), BoostAll(scores, boosts, keys);
      if r[step] != before[step] {
        assert Gives(boosts, key, step, r[step]);
      }
    }
  }

  /** A seed is neutral, or the highest boost of the model's strengths and latency class. */
  lemma SeedIsHighestBoost(info: ModelInfo, step: string)
    requires step in STEP_TYPES
    ensures var r := Seed(info);
      && step in r
      && (forall k, v :: k in info.strengths && Gives(STRENGTH_BOOSTS, k, step, v) ==> r[step] >= v)
      && (forall v :: Gives(LATENCY_BOOSTS, info.latencyClass, step, v) ==> r[step] >= v)
      && (|| r[step] == DEFAULT_AFFINITY || Gives(LATENCY_BOOSTS, info.latencyClass, step, r[step])
          || exists k :: k in info.strengths && Gives(STRENGTH_BOOSTS, k, step, r[step]))
  {
    hide STRENGTH_BOOSTS, LATENCY_BOOSTS;
    var mid := BoostAll(Neutral(), STRENGTH_BOOSTS, info.strengths);
    BoostingTakesHighest(Neutral(), STRENGTH_BOOSTS, info.strengths, step);
    BoostingTakesHighest(mid, LATENCY_BOOSTS, [info.latencyClass], step);
    hide BoostAll, Gives;
    assert info.latencyClass in [info.latencyClass];
  }

  /** The weight production data has with so many samples. */
  function DataWeight(blend: real, samples: nat): real {
    if samples >= MIN_SAMPLES then blend else blend * (samples as real / MIN_SAMPLES as real)
  }

  function Blended(blend: real, samples: nat, success: real, heuristic: real): real {
    var w := DataWeight(blend, samples);
    Max(0.0, Min(1.0, w * success + (1.0 - w) * heuristic))
  }

  /** A blend of two affinities lies between them, so within [0, 1] the clamp never acts. */
  lemma BlendBetween(blend: real, samples: nat, success: real, heuristic: real)
    requires 0.0 <= blend <= 1.0 && 0.0 <= success <= 1.0 && 0.0 <= heuristic <= 1.0
    ensures var r := Blended(blend, samples, success, heuristic);
      && Min(success, heuristic) <= r <= Max(success, heuristic)
      && r == DataWeight(blend, samples) * success + (1.0 - DataWeight(blend, samples)) * heuristic
  {
    var w := DataWeight(blend, samples);
    assert 0.0 <= w <= 1.0 by {
      if samples < MIN_SAMPLES {
        var share := samples as real / 20.0;
        assert 0.0 <= share <= 1.0;
        assert 0.0 <= blend * share <= blend;
      }
    }
    Convex(w, success, heuristic);
  }

  /** The blend starts at the heuristic and moves toward the data by the same step with every sample, until at 20 samples
      and ever after it has gone the blend factor's share of the way. */
  lemma BlendRamps(blend: real, samples: nat, success: real, heuristic: real)
    requires 0.0 <= blend <= 1.0 && 0.0 <= success <= 1.0 && 0.0 <= heuristic <= 1.0
    ensures var counted := if samples < 20 then samples else 20;
      20.0 * (Blended(blend, samples, success, heuristic) - heuristic) == counted as real * (blend * (success - heuristic))
  {
    BlendBetween(blend, samples, success, heuristic);
    var w := DataWeight(blend, samples);
    var counted := (if samples < 20 then samples else 20) as real;
    assert 20.0 * w == counted * blend by {
      if samples < MIN_SAMPLES {
        assert 20.0 * (blend * (samples as real / 20.0)) == blend * samples as real;
      }
    }
    hide Blended, DataWeight;
    BlendStep(w, counted, blend, success, heuristic);
  }

  lemma BlendStep(w: real, counted: real, blend: real, x: real, y: real)
    requires 20.0 * w == counted * blend
    ensures 20.0 * ((w * x + (1.0 - w) * y) - y) == counted * (blend * (x - y))
  {
    assert (w * x + (1.0 - w) * y) - y == w * (x - y);
    assert 20.0 * (w * (x - y)) == (counted * blend) * (x - y);
  }

  lemma NonNegative(a: real, b: real)
    requires 0.0 <= a && 0.0 <= b
    ensures 0.0 <= a * b
  {
  }

  lemma Convex(w: real, x: real, y: real)
    requires 0.0 <= w <= 1.0
    ensures Min(x, y) <= w * x + (1.0 - w) * y <= Max(x, y)
  {
    var d := x - y;
    assert w * x + (1.0 - w) * y == y + w * d;
    assert w * d == d - (1.0 - w) * d;
    if d <= 0.0 {
      NonNegative(w, -d);
      NonNegative(1.0 - w, -d);
    } else {
      NonNegative(w, d);
      NonNegative(1.0 - w, d);
    }
  }

  lemma SeedKeys(info: ModelInfo)
    ensures Seed(info).Keys == set k | k in STEP_TYPES
  {
    StrengthsAreProper();
    LatenciesAreProper();
    hide STRENGTH_BOOSTS, LATENCY_BOOSTS;
    BoostingIsBounded(Neutral(), STRENGTH_BOOSTS, info.strengths);
    BoostingIsBounded(BoostAll(Neutral(), STRENGTH_BOOSTS, info.strengths), LATENCY_BOOSTS, [info.latencyClass]);
  }

  datatype Stat = Stat(model: ModelId, step: string, success: real, samples: nat)

  class Bank {
    var heuristic: map<ModelId, Affinities>
    var tenants: map<string, map<ModelId, Affinities>>

    constructor ()
      ensures Valid() && heuristic == map[] && tenants == map[]
    {
      heuristic, tenants := map[], map[];
    }

    /** Every stored affinity is in [0, 1]. */
    ghost predicate Valid()
      reads this
    {
      && (forall m :: m in heuristic ==> Bounded(heuristic[m]))
      && (forall t, m :: t in tenants && m in tenants[t] ==> Bounded(tenants[t][m]))
    }

    /** Seed all active models; learned affinities are kept. */
    method SeedAll(active: seq<ModelInfo>)
      requires Valid()
      modifies this`heuristic
      ensures Valid()
      ensures heuristic.Keys == (set i | 0 <= i < |active| :: active[i].modelId)
      ensures forall m :: m in heuristic ==>
        exists i :: 0 <= i < |active| && active[i].modelId == m && heuristic[m] == Seed(active[i])
      ensures forall m, st, t :: m in heuristic && st in heuristic[m] && Learned(t, m, st).None? ==>
        Affinity(m, Some(st), t) == heuristic[m][st]
    {
      var seeded: map<ModelId, Affinities> := map[];
      for i := 0 to |active|
        invariant Valid() && heuristic == old(heuristic)
        invariant seeded.Keys == (set j | 0 <= j < i :: active[j].modelId)
        invariant forall m :: m in seeded ==> Bounded(seeded[m])
        invariant forall m :: m in seeded ==>
          exists j :: 0 <= j < i && active[j].modelId == m && seeded[m] == Seed(active[j])
      {
        var scores := SeedHeuristic(active[i]);
        SeedRange(active[i]);
        seeded := seeded[active[i].modelId := scores];
      }
      heuristic := seeded;
    }

    /** A tenant's own affinity, else the seed, else neutral; neutral without a step type. */
    function Affinity(model: ModelId, step: Option<string>, tenant: string): (a: real)
      requires Valid()
      reads this
      ensures 0.0 <= a <= 1.0
    {
      if step.None? then DEFAULT_AFFINITY
      else if Learned(tenant, model, step.value).Some? then Learned(tenant, model, step.value).value
      else if model in heuristic && step.value in heuristic[model] then heuristic[model][step.value]
      else DEFAULT_AFFINITY
    }

    /** The catalog seed of one model and step, which production data is blended with. */
    function SeedFor(catalog: Catalog, model: ModelId, step: string): real {
      if model !in catalog then DEFAULT_AFFINITY else
      var scores := Seed(catalog[model]);
      if step in scores then scores[step] else DEFAULT_AFFINITY
    }

    function Value(catalog: Catalog, s: Stat, blend: real): real {
      Blended(blend, s.samples, s.success, SeedFor(catalog, s.model, s.step))
    }

    lemma SeedsAreKnown(catalog: Catalog, stats: seq<Stat>, blend: real)
      ensures forall i :: 0 <= i < |stats| ==>
        var s := stats[i];
        var known := s.model in catalog && s.step in STEP_TYPES;
        var heuristic := if known && s.step in Seed(catalog[s.model]) then Seed(catalog[s.model])[s.step] else 0.5;
        Value(catalog, s, blend) == Blended(blend, s.samples, s.success, heuristic)
    {
      hide Blended;
      forall i | 0 <= i < |stats| && stats[i].model in catalog ensures Seed(catalog[stats[i].model]).Keys <= set k | k in STEP_TYPES {
        SeedKeys(catalog[stats[i].model]);
      }
    }

    /** The affinity a tenant has learned for a model and step, if any. */
    function Learned(tenant: string, model: ModelId, step: string): Option<real>
      reads this
    {
      if tenant in tenants && model in tenants[tenant] && step in tenants[tenant][model]
      then Some(tenants[tenant][model][step]) else None
    }

    method Learn(tenant: string, model: ModelId, step: string, value: real)
      requires Valid() && tenant in tenants && 0.0 <= value <= 1.0
      modifies this`tenants
      ensures Valid() && tenant in tenants
      ensures Learned(tenant, model, step) == Some(value)
      ensures forall t, m, st :: t != tenant || m != model || st != step ==> Learned(t, m, st) == old(Learned(t, m, st))
    {
      var had := if model in tenants[tenant] then tenants[tenant][model] else map[];
      tenants := tenants[tenant := tenants[tenant][model := had[step := value]]];
    }

    /** Blend production success rates into one tenant's affinities: each (model, step) of the statistics gets its
        blend, and every other affinity, of this tenant and of the others, stays. */
    method UpdateFromProduction(catalog: Catalog, stats: seq<Stat>, tenant: string, blend: real)
      requires Valid()
      requires forall i, j :: 0 <= i < j < |stats| ==> stats[i].model != stats[j].model || stats[i].step != stats[j].step
      modifies this`tenants
      ensures Valid()
      ensures forall i :: 0 <= i < |stats| ==>
        Learned(tenant, stats[i].model, stats[i].step) == Some(Value(catalog, stats[i], blend))
        && Affinity(stats[i].model, Some(stats[i].step), tenant) == Value(catalog, stats[i], blend)
      ensures forall i :: 0 <= i < |stats| ==>
        var s := stats[i];
        var known := s.model in catalog && s.step in STEP_TYPES;
        var heuristic := if known && s.step in Seed(catalog[s.model]) then Seed(catalog[s.model])[s.step] else 0.5;
        Affinity(s.model, Some(s.step), tenant) == Blended(blend, s.samples, s.success, heuristic)
      ensures forall t, m, st :: t != tenant || !Mentioned(stats, |stats|, m, st) ==> Learned(t, m, st) == old(Learned(t, m, st))
    {
      SeedsAreKnown(catalog, stats, blend);
      if tenant !in tenants {
        tenants := tenants[tenant := map[]];
      }
      for n := 0 to |stats|
        invariant Valid() && tenant in tenants
        invariant forall i :: 0 <= i < n ==>
          Learned(tenant, stats[i].model, stats[i].step) == Some(Value(catalog, stats[i], blend))
        invariant forall t, m, st :: t != tenant || !Mentioned(stats, n, m, st) ==> Learned(t, m, st) == old(Learned(t, m, st))
      {
        var s := stats[n];
        var value := Value(catalog, s, blend);
        assert 0.0 <= value <= 1.0;
        hide Value;
        Learn(tenant, s.model, s.step, value);
      }
    }
  }

  /** One of the first `n` statistics is about this model and step. */
  predicate Mentioned(stats: seq<Stat>, n: nat, m: ModelId, step: string)
    requires n <= |stats|
  {
    exists i :: 0 <= i < n && stats[i].model == m && stats[i].step == step
  }
}
