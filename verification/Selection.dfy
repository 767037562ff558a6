/** Choosing a model by its reliability profile: the exploit loop, cold start, and the top-N ranking. */
module Selection {
  import opened Wrappers
  import opened Sequences
  import opened StableSort
  import opened Capabilities
  import opened Reals

  const MIN_SUCCESS_RATE: real := 0.5

  datatype Profile = Profile(model: ModelId, samples: nat, success: real, quality: real, cost: real)

  /** The profile cache of one tenant. */
  type Profiles = map<(ModelId, string), Profile>

  /** A cached profile is about the model and task it is stored under. */
  ghost predicate Keyed(profiles: Profiles) {
    forall key :: key in profiles ==> profiles[key].model == key.0
  }

  /** What the two selectors add to the cost-quality tradeoff. */
  datatype Signals = Signals(
    complexity: real,
    caseWeight: real,
    bias: map<ModelId, real>,
    affinityWeight: real,
    affinity: map<ModelId, real>,
    prefer: set<ModelId>,
    avoid: set<ModelId>,
    hardAvoid: set<ModelId>)

  // ---------------------------------------------------------------------------
  // Fitness
  // ---------------------------------------------------------------------------

  function Lowest(s: seq<real>): (r: real)
    requires s != []
    ensures forall i :: 0 <= i < |s| ==> r <= s[i]
    ensures exists i :: 0 <= i < |s| && r == s[i]
  {
    if |s| == 1 then s[0] else
    var rest := Lowest(s[1..]);
    assert forall i :: 1 <= i < |s| ==> s[i] == s[1..][i - 1];
    Min(s[0], rest)
  }

  function Highest(s: seq<real>): (r: real)
    requires s != []
    ensures forall i :: 0 <= i < |s| ==> r >= s[i]
    ensures exists i :: 0 <= i < |s| && r == s[i]
  {
    if |s| == 1 then s[0] else
    var rest := Highest(s[1..]);
    assert forall i :: 1 <= i < |s| ==> s[i] == s[1..][i - 1];
    Max(s[0], rest)
  }

  function Qualities(cs: seq<Profile>): seq<real> { seq(|cs|, i requires 0 <= i < |cs| => cs[i].quality) }

  function Costs(cs: seq<Profile>): seq<real> { seq(|cs|, i requires 0 <= i < |cs| => cs[i].cost) }

  /** The span of the candidates' values, or 1 if they are all the same. */
  function Range(s: seq<real>): (r: real)
    requires s != []
    ensures r > 0.0
  {
    if Highest(s) > Lowest(s) then Highest(s) - Lowest(s) else 1.0
  }

  function Normalised(x: real, s: seq<real>): real
    requires s != []
  {
    (x - Lowest(s)) / Range(s)
  }

  function QualityWeight(complexity: real): real { 0.3 + 0.6 * complexity }

  /** Quality against cost, the more of the one the less of the other, scaled by the success rate. */
  function Tradeoff(weight: real, quality: real, cost: real, success: real): real {
    (weight * quality - (1.0 - weight) * cost) * success
  }

  function Pareto(cs: seq<Profile>, c: Profile, complexity: real): real
    requires cs != []
  {
    Tradeoff(QualityWeight(complexity), Normalised(c.quality, Qualities(cs)), Normalised(c.cost, Costs(cs)), c.success)
  }

  function SuccessBonus(c: Profile): real { 0.01 * c.success }

  function MemoryTerm(m: ModelId, g: Signals): real {
    (if m in g.prefer then 0.15 else 0.0) - (if m in g.avoid then 0.20 else 0.0) - (if m in g.hardAvoid then 0.50 else 0.0)
  }

  function BiasOf(m: ModelId, g: Signals): real { if m in g.bias then g.bias[m] else 0.0 }

  function CaseTerm(m: ModelId, g: Signals): real { g.caseWeight * BiasOf(m, g) }

  function AffinityTerm(m: ModelId, g: Signals): real {
    g.affinityWeight * (if m in g.affinity then g.affinity[m] else 0.5)
  }

  /** The tradeoff and the memory lists: all that `get_top_models` scores by. */
  function BaseScore(cs: seq<Profile>, c: Profile, g: Signals): real
    requires cs != []
  {
    Pareto(cs, c, g.complexity) + SuccessBonus(c) + MemoryTerm(c.model, g)
  }

  /** What `get_best_model` scores by. */
  function Fitness(cs: seq<Profile>, c: Profile, g: Signals): real
    requires cs != []
  {
    BaseScore(cs, c, g) + CaseTerm(c.model, g) + AffinityTerm(c.model, g)
  }

  // ---------------------------------------------------------------------------
  // Candidates
  // ---------------------------------------------------------------------------

  predicate Qualifies(profiles: Profiles, task: string, minSamples: nat, m: ModelId) {
    && (m, task) in profiles
    && profiles[(m, task)].samples >= minSamples
    && profiles[(m, task)].success >= MIN_SUCCESS_RATE
  }

  /** The profiles of the models that qualify, in list order. */
  function Qualified(profiles: Profiles, task: string, minSamples: nat, models: seq<ModelId>): (cs: seq<Profile>)
    ensures |cs| <= |models|
  {
    if models == [] then [] else
    var rest := Qualified(profiles, task, minSamples, models[..|models| - 1]);
    var m := models[|models| - 1];
    if Qualifies(profiles, task, minSamples, m) then rest + [profiles[(m, task)]] else rest
  }

  lemma ListedModel(m: ModelId, models: seq<ModelId>)
    requires models != [] && m in models[..|models| - 1]
    ensures m in models && (NoDup(models) ==> m != models[|models| - 1])
  {
  }

  /** The profiles are those of listed models that qualify, one each if the list repeats none. */
  ghost predicate FromModels(cs: seq<Profile>, profiles: Profiles, task: string, minSamples: nat, models: seq<ModelId>) {
    && (forall i :: 0 <= i < |cs| ==>
          cs[i].model in models && Qualifies(profiles, task, minSamples, cs[i].model) && cs[i] == profiles[(cs[i].model, task)])
    && (NoDup(models) ==> forall i, j :: 0 <= i < j < |cs| ==> cs[i].model != cs[j].model)
  }

  lemma {:induction false} QualifiedAreModels(profiles: Profiles, task: string, minSamples: nat, models: seq<ModelId>)
    requires Keyed(profiles)
    ensures FromModels(Qualified(profiles, task, minSamples, models), profiles, task, minSamples, models)
  {
    if models != [] {
      var front, last := models[..|models| - 1], models[|models| - 1];
      QualifiedAreModels(profiles, task, minSamples, front);
      var rest := Qualified(profiles, task, minSamples, front);
      forall i | 0 <= i < |rest| ensures rest[i].model in models && (NoDup(models) ==> rest[i].model != last) {
        ListedModel(rest[i].model, models);
      }
      if Qualifies(profiles, task, minSamples, last) {
        assert profiles[(last, task)].model == last;
      }
    }
  }

  /** A profile counts exactly if it is a listed model's for the task, on enough samples and with at least every other
      answer a success. */
  lemma {:induction false} QualifiedByNumbers(profiles: Profiles, task: string, minSamples: nat, models: seq<ModelId>)
    ensures forall p :: p in Qualified(profiles, task, minSamples, models) <==>
      exists m :: m in models && (m, task) in profiles && profiles[(m, task)] == p && p.samples >= minSamples && p.success >= 0.5
  {
    if models != [] {
      var front, last := models[..|models| - 1], models[|models| - 1];
      QualifiedByNumbers(profiles, task, minSamples, front);
      assert models == front + [last];
    }
  }

  // ---------------------------------------------------------------------------
  // The exploit loop
  // ---------------------------------------------------------------------------

  /** `k` is the first candidate of the highest fitness. */
  ghost predicate FirstBest(cs: seq<Profile>, g: Signals, k: nat)
  {
    && k < |cs|
    && (forall j :: 0 <= j < |cs| ==> Fitness(cs, cs[j], g) <= Fitness(cs, cs[k], g))
    && (forall j :: 0 <= j < k ==> Fitness(cs, cs[j], g) < Fitness(cs, cs[k], g))
  }

  /** One candidate's fitness, from the spans computed once for all candidates. */
  method Score(ghost cs: seq<Profile>, c: Profile, g: Signals, qMin: real, qRange: real, cMin: real, cRange: real)
    returns (fitness: real)
    requires cs != []
    requires qMin == Lowest(Qualities(cs)) && qRange == Range(Qualities(cs))
    requires cMin == Lowest(Costs(cs)) && cRange == Range(Costs(cs))
    ensures fitness == Fitness(cs, c, g)
  {
    hide Lowest, Highest, Range;
    var qualityWeight := 0.3 + 0.6 * g.complexity;
    var costWeight := 1.0 - qualityWeight;
    var normQuality := (c.quality - qMin) / qRange;
    var normCost := (c.cost - cMin) / cRange;
    var pareto := (qualityWeight * normQuality - costWeight * normCost) * c.success;
    assert pareto == Pareto(cs, c, g.complexity);
    var caseTerm := g.caseWeight * (if c.model in g.bias then g.bias[c.model] else 0.0);
    var affinityTerm := g.affinityWeight * (if c.model in g.affinity then g.affinity[c.model] else 0.5);
    var memoryTerm := 0.0;
    if c.model in g.prefer {
      memoryTerm := memoryTerm + 0.15;
    }
    if c.model in g.avoid {
      memoryTerm := memoryTerm - 0.20;
    }
    if c.model in g.hardAvoid {
      memoryTerm := memoryTerm - 0.50;
    }
    var successBonus := 0.01 * c.success;
    assert caseTerm == CaseTerm(c.model, g) && affinityTerm == AffinityTerm(c.model, g);
    hide Pareto, CaseTerm, AffinityTerm;
    fitness := pareto + caseTerm + affinityTerm + memoryTerm + successBonus;
  }

  method Exploit(cs: seq<Profile>, g: Signals) returns (best: ModelId)
    requires cs != []
    ensures exists k: nat :: FirstBest(cs, g, k) && best == cs[k].model
  {
    hide Fitness, Lowest, Highest, Range;
    var qMin, cMin := Lowest(Qualities(cs)), Lowest(Costs(cs));
    var qRange, cRange := Range(Qualities(cs)), Range(Costs(cs));
    best := cs[0].model;
    ghost var k: nat := 0;
    var bestFitness: Option<real> := None;
    for i := 0 to |cs|
      invariant k < |cs|
      invariant i == 0 ==> bestFitness.None?
      invariant i > 0 ==> k < i && bestFitness == Some(Fitness(cs, cs[k], g)) && best == cs[k].model
      invariant forall j :: 0 <= j < i ==> Fitness(cs, cs[j], g) <= Fitness(cs, cs[k], g)
      invariant forall j :: 0 <= j < k ==> Fitness(cs, cs[j], g) < Fitness(cs, cs[k], g)
    {
      var fitness := Score(cs, cs[i], g, qMin, qRange, cMin, cRange);
      if bestFitness.None? || fitness > bestFitness.value {
        bestFitness := Some(fitness);
        best := cs[i].model;
        k := i;
      }
    }
  }

  // ---------------------------------------------------------------------------
  // Cold start and the whole selection
  // ---------------------------------------------------------------------------

  function SampleCount(profiles: Profiles, task: string, m: ModelId): nat {
    if (m, task) in profiles then profiles[(m, task)].samples else 0
  }

  /** One of the least sampled models; the policy's model when there is none to choose from. */
  method ColdStart(profiles: Profiles, task: string, available: seq<ModelId>, policyModel: ModelId, draw: nat)
    returns (selected: ModelId)
    ensures available == [] ==> selected == policyModel
    ensures available != [] ==> selected in available
    ensures available != [] ==>
      forall m :: m in available && (selected, task) in profiles && profiles[(selected, task)].samples > 0 ==>
        (m, task) in profiles && profiles[(selected, task)].samples <= profiles[(m, task)].samples
  {
    if available == [] {
      return policyModel;
    }
    var minCount := SampleCount(profiles, task, available[0]);
    var leastSampled := [available[0]];
    for i := 1 to |available|
      invariant leastSampled != []
      invariant forall j :: 0 <= j < i ==> minCount <= SampleCount(profiles, task, available[j])
      invariant forall j :: 0 <= j < |leastSampled| ==>
        leastSampled[j] in available && SampleCount(profiles, task, leastSampled[j]) == minCount
    {
      var count := SampleCount(profiles, task, available[i]);
      if count < minCount {
        minCount, leastSampled := count, [available[i]];
      } else if count == minCount {
        leastSampled := leastSampled + [available[i]];
      }
    }
    selected := leastSampled[draw % |leastSampled|];
  }

  /** Some(n) is a random draw below the explore rate, with its weighted choice (all weights are positive, so any
      member can come up); None goes on to exploit. */
  method GetBestModel(profiles: Profiles, task: string, minSamples: nat, available: seq<ModelId>, g: Signals,
                      explore: Option<nat>, policyModel: ModelId, draw: nat)
    returns (selected: ModelId, explored: bool)
    requires Keyed(profiles)
    ensures available != [] ==> selected in available
    ensures available == [] ==> selected == policyModel && !explored
    ensures explored <==> explore.Some? && |available| > 1
    ensures var cs := Qualified(profiles, task, minSamples, available);
      !explored && cs != [] ==> exists k: nat :: FirstBest(cs, g, k) && selected == cs[k].model
    ensures !explored && Qualified(profiles, task, minSamples, available) == [] ==>
      forall m :: m in available && (selected, task) in profiles && profiles[(selected, task)].samples > 0 ==>
        (m, task) in profiles && profiles[(selected, task)].samples <= profiles[(m, task)].samples
  {
    if explore.Some? && |available| > 1 {
      return available[explore.value % |available|], true;
    }
    var profiled: seq<Profile> := [];
    var candidates: seq<Profile> := [];
    for i := 0 to |available|
      invariant candidates == Qualified(profiles, task, minSamples, available[..i])
    {
      assert available[..i + 1][..i] == available[..i];
      var key := (available[i], task);
      if key in profiles && profiles[key].samples >= minSamples {
        profiled := profiled + [profiles[key]];
        if profiles[key].success >= MIN_SUCCESS_RATE {
          candidates := candidates + [profiles[key]];
        }
      }
    }
    assert available[..|available|] == available;
    if candidates == [] {
      selected := ColdStart(profiles, task, available, policyModel, draw);
      return selected, false;
    }
    selected := Exploit(candidates, g);
    ghost var k: nat :| FirstBest(candidates, g, k) && selected == candidates[k].model;
    QualifiedAreModels(profiles, task, minSamples, available);
    explored := false;
  }

  // ---------------------------------------------------------------------------
  // Top-N
  // ---------------------------------------------------------------------------

  type Scored = (ModelId, real)

  function ByScore(): (Scored, Scored) -> bool { (a: Scored, b: Scored) => a.1 >= b.1 }

  function Scores(cs: seq<Profile>, g: Signals): seq<Scored>
    requires cs != []
  {
    seq(|cs|, i requires 0 <= i < |cs| => (cs[i].model, BaseScore(cs, cs[i], g)))
  }

  function NotIn(exclude: set<ModelId>): ModelId -> bool { (m: ModelId) => m !in exclude }

  /** The first `n` of the stable descending sort by score; without qualified profiles the first `n` as they are. */
  function TopModels(profiles: Profiles, task: string, minSamples: nat, available: seq<ModelId>, n: nat,
                     exclude: set<ModelId>, g: Signals): seq<Scored>
  {
    var filtered := Filter(available, NotIn(exclude));
    var cs := Qualified(profiles, task, minSamples, filtered);
    if cs == [] then Take(seq(|filtered|, i requires 0 <= i < |filtered| => (filtered[i], 0.0)), n)
    else Take(Sort(Scores(cs, g), ByScore()), n)
  }

  method CollectQualified(profiles: Profiles, task: string, minSamples: nat, models: seq<ModelId>)
    returns (candidates: seq<Profile>)
    ensures candidates == Qualified(profiles, task, minSamples, models)
  {
    candidates := [];
    for i := 0 to |models|
      invariant candidates == Qualified(profiles, task, minSamples, models[..i])
    {
      assert models[..i + 1][..i] == models[..i];
      var key := (models[i], task);
      if key in profiles && profiles[key].samples >= minSamples && profiles[key].success >= MIN_SUCCESS_RATE {
        candidates := candidates + [profiles[key]];
      }
    }
    assert models[..|models|] == models;
  }

  method GetTopModels(profiles: Profiles, task: string, minSamples: nat, available: seq<ModelId>, n: nat,
                      exclude: set<ModelId>, g: Signals) returns (top: seq<Scored>)
    ensures top == TopModels(profiles, task, minSamples, available, n, exclude, g)
  {
    var filtered := Filter(available, NotIn(exclude));
    var candidates := CollectQualified(profiles, task, minSamples, filtered);
    if candidates == [] {
      return Take(seq(|filtered|, i requires 0 <= i < |filtered| => (filtered[i], 0.0)), n);
    }
    hide BaseScore;
    var scored: seq<Scored> := [];
    for i := 0 to |candidates|
      invariant |scored| == i
      invariant forall j :: 0 <= j < i ==> scored[j] == (candidates[j].model, BaseScore(candidates, candidates[j], g))
    {
      scored := scored + [(candidates[i].model, BaseScore(candidates, candidates[i], g))];
    }
    assert scored == Scores(candidates, g);
    top := Take(Sort(scored, ByScore()), n);
  }
}
