/** What the selection scores guarantee: the two selectors agree, dominated models lose, memory only breaks ties. */
module SelectionLaws {
  import opened Wrappers
  import opened Sequences
  import opened StableSort
  import opened Capabilities
  import opened Selection
  import Aggregation
  import CaseMemory
  import ExpertBank

  // ---------------------------------------------------------------------------
  // The two selectors
  // ---------------------------------------------------------------------------

  lemma ByScoreIsPreorder()
    ensures TotalPreorder(ByScore())
  {
  }

  /** The secondary signals do not tell the candidates apart: no case bias, one affinity for all. */
  ghost predicate Indifferent(cs: seq<Profile>, g: Signals, affinity: real) {
    && (forall i :: 0 <= i < |cs| ==> CaseTerm(cs[i].model, g) == 0.0)
    && (forall i :: 0 <= i < |cs| ==> AffinityTerm(cs[i].model, g) == affinity)
  }

  lemma FirstBestBySorting(cs: seq<Profile>, g: Signals, affinity: real, k: nat)
    requires cs != [] && Indifferent(cs, g, affinity) && FirstBest(cs, g, k)
    ensures Sort(Scores(cs, g), ByScore())[0] == (cs[k].model, BaseScore(cs, cs[k], g))
  {
    forall j | 0 <= j < |cs| ensures Fitness(cs, cs[j], g) == BaseScore(cs, cs[j], g) + affinity {
    }
    hide BaseScore, Fitness;
    ByScoreIsPreorder();
    SortHeadIsFirstBest(Scores(cs, g), ByScore(), k);
  }

  /** With indifferent secondary signals and some qualified profile, the exploit loop returns the head of the
      top-N ranking: the strict first maximum agrees with the stable descending sort. */
  lemma SelectorsAgree(profiles: Profiles, task: string, minSamples: nat, available: seq<ModelId>, n: nat, g: Signals,
                       affinity: real, k: nat)
    requires n > 0
    requires var cs := Qualified(profiles, task, minSamples, available);
      cs != [] && Indifferent(cs, g, affinity) && FirstBest(cs, g, k)
    ensures var top := TopModels(profiles, task, minSamples, available, n, {}, g);
      top != [] && top[0].0 == Qualified(profiles, task, minSamples, available)[k].model
  {
    var cs := Qualified(profiles, task, minSamples, available);
    FilterAll(available, NotIn({}));
    FirstBestBySorting(cs, g, affinity, k);
    assert |Sort(Scores(cs, g), ByScore())| == |cs|;
  }

  // ---------------------------------------------------------------------------
  // Domination
  // ---------------------------------------------------------------------------

  /** `a` is at least as good as `b` in quality and cost and strictly better in one. */
  predicate Dominates(a: Profile, b: Profile) {
    && a.quality >= b.quality && a.cost <= b.cost
    && (a.quality > b.quality || a.cost < b.cost)
  }

  lemma NormalisedOrder(s: seq<real>, x: real, y: real)
    requires s != [] && x <= y
    ensures Normalised(x, s) <= Normalised(y, s)
    ensures x < y ==> Normalised(x, s) < Normalised(y, s)
  {
    hide Range, Lowest, Highest;
    QuotientOrder(x - Lowest(s), y - Lowest(s), Range(s));
  }

  lemma QuotientOrder(x: real, y: real, r: real)
    requires x <= y && r > 0.0
    ensures x / r <= y / r && (x < y ==> x / r < y / r)
  {
    var u, v := x / r, y / r;
    assert u * r == x && v * r == y;
    if u > v {
      ScaledOrder(r, v, u);
    } else if u == v {
      assert x == y;
    }
  }

  lemma ScaledOrder(w: real, x: real, y: real)
    requires w > 0.0 && x <= y
    ensures w * x <= w * y && (x < y ==> w * x < w * y)
  {
  }

  lemma WeightedOrder(w: real, v: real, qa: real, qb: real, ca: real, cb: real)
    requires w > 0.0 && v > 0.0 && qb <= qa && ca <= cb && (qb < qa || ca < cb)
    ensures w * qb - v * cb < w * qa - v * ca
  {
    ScaledOrder(w, qb, qa);
    ScaledOrder(v, ca, cb);
  }

  predicate SameSecondary(a: ModelId, b: ModelId, g: Signals) {
    CaseTerm(a, g) + AffinityTerm(a, g) + MemoryTerm(a, g) == CaseTerm(b, g) + AffinityTerm(b, g) + MemoryTerm(b, g)
  }

  lemma DominatedIsLessFit(cs: seq<Profile>, a: Profile, b: Profile, g: Signals)
    requires cs != [] && 0.0 <= g.complexity <= 1.0
    requires a.success == b.success && a.success >= MIN_SUCCESS_RATE && Dominates(a, b)
    requires SameSecondary(a.model, b.model, g)
    ensures Fitness(cs, a, g) > Fitness(cs, b, g)
  {
    DominatedScoresLess(cs, a, b, g);
    hide Pareto, CaseTerm, AffinityTerm, MemoryTerm;
  }

  lemma DominatedScoresLess(cs: seq<Profile>, a: Profile, b: Profile, g: Signals)
    requires cs != [] && 0.0 <= g.complexity <= 1.0
    requires a.success == b.success && a.success >= MIN_SUCCESS_RATE && Dominates(a, b)
    ensures Pareto(cs, a, g.complexity) > Pareto(cs, b, g.complexity)
  {
    hide Tradeoff, Normalised, Range;
    NormalisedOrder(Qualities(cs), b.quality, a.quality);
    NormalisedOrder(Costs(cs), a.cost, b.cost);
    TradeoffOrder(QualityWeight(g.complexity), a.success,
                  Normalised(a.quality, Qualities(cs)), Normalised(b.quality, Qualities(cs)),
                  Normalised(a.cost, Costs(cs)), Normalised(b.cost, Costs(cs)));
  }

  lemma TradeoffOrder(w: real, success: real, qa: real, qb: real, ca: real, cb: real)
    requires 0.3 <= w <= 0.9 && success > 0.0 && qb <= qa && ca <= cb && (qb < qa || ca < cb)
    ensures Tradeoff(w, qa, ca, success) > Tradeoff(w, qb, cb, success)
  {
    WeightedOrder(w, 1.0 - w, qa, qb, ca, cb);
    ScaledOrder(success, w * qb - (1.0 - w) * cb, w * qa - (1.0 - w) * ca);
  }

  /** Among candidates with equal success rate and equal secondary terms, a dominated one is never the exploit
      loop's choice, at any complexity in [0, 1]. */
  lemma DominatedNeverChosen(cs: seq<Profile>, g: Signals, k: nat, a: nat)
    requires cs != [] && 0.0 <= g.complexity <= 1.0 && FirstBest(cs, g, k) && a < |cs|
    requires cs[a].success == cs[k].success && cs[a].success >= MIN_SUCCESS_RATE
    requires SameSecondary(cs[a].model, cs[k].model, g)
    ensures !Dominates(cs[a], cs[k])
  {
    if Dominates(cs[a], cs[k]) {
      DominatedIsLessFit(cs, cs[a], cs[k], g);
    }
  }

  // ---------------------------------------------------------------------------
  // Memory only breaks ties
  // ---------------------------------------------------------------------------

  /** The case bias is what the case memory computes from cases with rewards between `low` and 1, and the affinities are
      in [0, 1]. */
  ghost predicate Bounded(g: Signals, cases: seq<CaseMemory.Case>, minReward: real, low: real) {
    && g.caseWeight >= 0.0 && g.affinityWeight >= 0.0
    && (forall m :: m in g.affinity ==> 0.0 <= g.affinity[m] <= 1.0)
    && CaseMemory.RewardsFrom(cases, low)
    && (cases == [] ==> g.bias == map[])
    && (cases != [] ==> forall m :: m in g.bias ==> g.bias[m] == CaseMemory.Bias(cases, minReward, |cases|, m))
  }

  lemma ScaledGap(w: real, x: real, y: real, gap: real)
    requires w >= 0.0 && y - x <= gap
    ensures w * y - w * x <= w * gap
  {
    assert w * (gap - (y - x)) >= 0.0;
  }

  lemma CaseGap(g: Signals, cases: seq<CaseMemory.Case>, minReward: real, low: real, a: ModelId, b: ModelId)
    requires Bounded(g, cases, minReward, low) && a != b
    ensures CaseTerm(b, g) - CaseTerm(a, g) <= g.caseWeight * (1.0 - low)
  {
    BiasesAreClose(g, cases, minReward, low, a, b);
    hide Bounded;
    ScaledGap(g.caseWeight, BiasOf(a, g), BiasOf(b, g), 1.0 - low);
  }

  lemma BiasesAreClose(g: Signals, cases: seq<CaseMemory.Case>, minReward: real, low: real, a: ModelId, b: ModelId)
    requires Bounded(g, cases, minReward, low) && a != b
    ensures BiasOf(b, g) - BiasOf(a, g) <= 1.0 - low
  {
    hide CaseMemory.Bias;
    if cases != [] {
      CaseMemory.BiasGap(cases, minReward, a, b, low);
    }
  }

  lemma AffinityGap(g: Signals, cases: seq<CaseMemory.Case>, minReward: real, low: real, a: ModelId, b: ModelId)
    requires Bounded(g, cases, minReward, low)
    ensures AffinityTerm(b, g) - AffinityTerm(a, g) <= g.affinityWeight
  {
    var x := if a in g.affinity then g.affinity[a] else 0.5;
    var y := if b in g.affinity then g.affinity[b] else 0.5;
    ScaledGap(g.affinityWeight, x, y, 1.0);
  }

  /** The tradeoff of `a` with its success bonus. */
  function Lead(cs: seq<Profile>, c: Profile, g: Signals): real
    requires cs != []
  {
    Pareto(cs, c, g.complexity) + SuccessBonus(c)
  }

  /** Without prefer and avoid lists, a candidate whose tradeoff leads another's by more than the secondary weights
      together always outranks it, so the other is never chosen. The case weight counts once for rewards in [0, 1], and
      1 - `low` times if they can fall to `low`: 1.4 times for scores that are similarities. */
  lemma ParetoStaysDominant(cs: seq<Profile>, g: Signals, cases: seq<CaseMemory.Case>, minReward: real, low: real,
                            a: nat, b: nat, k: nat)
    requires cs != [] && a < |cs| && b < |cs| && cs[a].model != cs[b].model
    requires Bounded(g, cases, minReward, low) && g.prefer == {} && g.avoid == {} && g.hardAvoid == {}
    ensures Lead(cs, cs[a], g) - Lead(cs, cs[b], g) > g.caseWeight * (1.0 - low) + g.affinityWeight ==>
      Fitness(cs, cs[a], g) > Fitness(cs, cs[b], g) && (FirstBest(cs, g, k) ==> k != b)
  {
    CaseGap(g, cases, minReward, low, cs[a].model, cs[b].model);
    AffinityGap(g, cases, minReward, low, cs[a].model, cs[b].model);
    hide CaseTerm, AffinityTerm, Pareto, Bounded;
    assert MemoryTerm(cs[a].model, g) == 0.0 == MemoryTerm(cs[b].model, g);
  }

  /** The bank's affinities, as the selection reads them, meet the bound. */
  method ReadAffinities(bank: ExpertBank.Bank, models: seq<ModelId>, step: Option<string>, tenant: string)
    returns (affinity: map<ModelId, real>)
    requires bank.Valid()
    ensures affinity.Keys == (set i | 0 <= i < |models| :: models[i])
    ensures forall m :: m in affinity ==> affinity[m] == bank.Affinity(m, step, tenant) && 0.0 <= affinity[m] <= 1.0
    ensures step.None? ==> forall m :: m in affinity ==> affinity[m] == 0.5
  {
    affinity := map[];
    for i := 0 to |models|
      invariant affinity.Keys == (set j | 0 <= j < i :: models[j])
      invariant forall m :: m in affinity ==> affinity[m] == bank.Affinity(m, step, tenant)
    {
      affinity := affinity[models[i] := bank.Affinity(models[i], step, tenant)];
    }
  }

  // ---------------------------------------------------------------------------
  // Ranking for aggregation
  // ---------------------------------------------------------------------------

  function Names(top: seq<Scored>): seq<ModelId> { seq(|top|, i requires 0 <= i < |top| => top[i].0) }

  ghost predicate DistinctNames(s: seq<Scored>) {
    forall i, j :: 0 <= i < j < |s| ==> s[i].0 != s[j].0
  }

  ghost predicate NamesFrom(s: seq<Scored>, models: seq<ModelId>) {
    DistinctNames(s) && forall i :: 0 <= i < |s| ==> s[i].0 in models
  }

  /** A rearrangement of scores keeps their names different and listed. */
  lemma RearrangedNames(s: seq<Scored>, t: seq<Scored>, models: seq<ModelId>)
    requires multiset(s) == multiset(t) && NamesFrom(s, models)
    ensures NamesFrom(t, models)
  {
    assert NoDup(s);
    SameNoDup(s, t);
    SameElements(s, t);
    forall i, j | 0 <= i < j < |t| ensures t[i].0 != t[j].0 {
      assert t[i] in s && t[j] in s;
      var a :| 0 <= a < |s| && s[a] == t[i];
      var b :| 0 <= b < |s| && s[b] == t[j];
      assert a != b;
    }
    forall i | 0 <= i < |t| ensures t[i].0 in models {
      assert t[i] in s;
      var a :| 0 <= a < |s| && s[a] == t[i];
    }
  }

  lemma ScoreNames(cs: seq<Profile>, profiles: Profiles, task: string, minSamples: nat, models: seq<ModelId>, g: Signals)
    requires cs != [] && NoDup(models) && FromModels(cs, profiles, task, minSamples, models)
    ensures NamesFrom(Scores(cs, g), models)
  {
    hide BaseScore;
  }

  lemma SortedNames(profiles: Profiles, task: string, minSamples: nat, filtered: seq<ModelId>, g: Signals)
    requires Keyed(profiles) && NoDup(filtered) && Qualified(profiles, task, minSamples, filtered) != []
    ensures NamesFrom(Sort(Scores(Qualified(profiles, task, minSamples, filtered), g), ByScore()), filtered)
  {
    var cs := Qualified(profiles, task, minSamples, filtered);
    QualifiedAreModels(profiles, task, minSamples, filtered);
    ScoreNames(cs, profiles, task, minSamples, filtered, g);
    SortMembers(Scores(cs, g), ByScore());
    RearrangedNames(Scores(cs, g), Sort(Scores(cs, g), ByScore()), filtered);
  }

  /** The ranking the aggregation asks for is one: some of the candidates, none twice, at most `n`. Its length is
      the number of qualified candidates up to `n`; only when there are none do the rest count. */
  lemma TopIsRanking(profiles: Profiles, task: string, minSamples: nat, candidates: seq<ModelId>, n: nat,
                     exclude: set<ModelId>, g: Signals)
    requires Keyed(profiles) && NoDup(candidates)
    ensures var top := TopModels(profiles, task, minSamples, candidates, n, exclude, g);
      var filtered := Filter(candidates, NotIn(exclude));
      var qualified := |Qualified(profiles, task, minSamples, filtered)|;
      && Aggregation.IsRanking(Names(top), candidates, n)
      && (forall m :: m in Names(top) ==> m !in exclude)
      && |top| == var most := if qualified == 0 then |filtered| else qualified; if n <= most then n else most
  {
    var filtered := Filter(candidates, NotIn(exclude));
    FilterMembers(candidates, NotIn(exclude));
    FilterKeepsNoDup(candidates, NotIn(exclude));
    var cs := Qualified(profiles, task, minSamples, filtered);
    var unranked: seq<Scored> := seq(|filtered|, i requires 0 <= i < |filtered| => (filtered[i], 0.0));
    hide BaseScore, Qualified, ByScore;
    if cs == [] {
      assert NamesFrom(unranked, filtered);
      TakeIsRanking(unranked, filtered, candidates, n, exclude);
    } else {
      SortedNames(profiles, task, minSamples, filtered, g);
      TakeIsRanking(Sort(Scores(cs, g), ByScore()), filtered, candidates, n, exclude);
    }
  }

  /** Nothing that is left out scores higher than what is taken. */
  ghost predicate BestFirst(top: seq<Scored>, all: seq<Scored>) {
    && Descending(top)
    && (forall i :: 0 <= i < |top| ==> top[i] in all)
    && (forall j :: 0 <= j < |all| ==> all[j] in top || forall i :: 0 <= i < |top| ==> all[j].1 <= top[i].1)
  }

  ghost predicate Descending(s: seq<Scored>) { forall i, j :: 0 <= i < j < |s| ==> s[i].1 >= s[j].1 }

  lemma SortedIsDescending(all: seq<Scored>)
    ensures Descending(Sort(all, ByScore())) && multiset(Sort(all, ByScore())) == multiset(all)
  {
    hide Sort;
    var sorted := Sort(all, ByScore());
    ByScoreIsPreorder();
    SortCorrect(all, ByScore());
    forall i, j | 0 <= i < j < |sorted| ensures sorted[i].1 >= sorted[j].1 {
      assert ByScore()(sorted[i], sorted[j]);
    }
  }

  lemma CutIsBestFirst(all: seq<Scored>, n: nat)
    ensures BestFirst(Take(Sort(all, ByScore()), n), all)
  {
    hide Sort;
    SortedIsDescending(all);
    var sorted := Sort(all, ByScore());
    var top := Take(sorted, n);
    SameElements(sorted, all);
    forall i | 0 <= i < |top| ensures top[i] in all {
      assert sorted[i] in sorted;
    }
    forall j | 0 <= j < |all| ensures all[j] in top || forall i :: 0 <= i < |top| ==> all[j].1 <= top[i].1 {
      var k := Occurs(all[j], all, sorted);
      assert k < |top| ==> top[k] == all[j];
    }
  }

  /** The ranking takes the best: it falls in score, names only qualified profiles with the scores of the tradeoff, and
      leaves none out that scores higher. If no profile qualifies it is the first `n` models as they are given. */
  lemma TopIsBest(profiles: Profiles, task: string, minSamples: nat, candidates: seq<ModelId>, n: nat,
                  exclude: set<ModelId>, g: Signals)
    ensures var top := TopModels(profiles, task, minSamples, candidates, n, exclude, g);
      var filtered := Filter(candidates, NotIn(exclude));
      var cs := Qualified(profiles, task, minSamples, filtered);
      if cs == [] then Names(top) == if n <= |filtered| then filtered[..n] else filtered
      else |top| == (if n <= |cs| then n else |cs|) && BestFirst(top, Scores(cs, g))
  {
    var filtered := Filter(candidates, NotIn(exclude));
    var cs := Qualified(profiles, task, minSamples, filtered);
    hide Qualified, BaseScore;
    if cs != [] {
      CutIsBestFirst(Scores(cs, g), n);
    }
  }

  /** The ranking as the aggregation calls it. */
  function TopNames(profiles: Profiles, task: string, minSamples: nat, n: nat, exclude: set<ModelId>, g: Signals)
    : seq<ModelId> -> seq<ModelId>
  {
    (candidates: seq<ModelId>) => Names(TopModels(profiles, task, minSamples, candidates, n, exclude, g))
  }

  /** It is a ranking for every list of candidates, which is all that the cascade relies on. */
  lemma TopNamesRank(profiles: Profiles, task: string, minSamples: nat, n: nat, exclude: set<ModelId>, g: Signals)
    requires Keyed(profiles)
    ensures Aggregation.Ranks(TopNames(profiles, task, minSamples, n, exclude, g), n)
  {
    hide TopModels, Keyed;
    forall cs | NoDup(cs)
      ensures Aggregation.IsRanking(TopNames(profiles, task, minSamples, n, exclude, g)(cs), cs, n)
    {
      TopIsRanking(profiles, task, minSamples, cs, n, exclude, g);
    }
  }

  lemma TakeIsRanking(all: seq<Scored>, filtered: seq<ModelId>, candidates: seq<ModelId>, n: nat, exclude: set<ModelId>)
    requires NamesFrom(all, filtered)
    requires forall m :: m in filtered ==> m in candidates && m !in exclude
    ensures Aggregation.IsRanking(Names(Take(all, n)), candidates, n)
    ensures forall m :: m in Names(Take(all, n)) ==> m !in exclude
  {
  }

  /** How many candidates an aggregation gets: all of `eligible` unless they are too many; then as many of the
      qualified ones as fit, or of all if none qualifies. */
  function CandidateCount(eligible: nat, qualified: nat, maxParallel: nat): nat {
    if eligible <= maxParallel then eligible else
    var ranked := if qualified == 0 then eligible else qualified;
    if ranked < maxParallel then ranked else maxParallel
  }

  /** Ranking by profile can shrink the candidates below what aggregation needs, and only when there are more of them
      than may run in parallel: with at most `maxParallel` nobody is ranked. The count is exact for every catalog and
      every setting; with a minimum that fits, too few qualified profiles block exactly if there are too many
      candidates to take all and some but fewer than the minimum qualify. */
  lemma FewProfilesBlockAggregation(catalog: Catalog, models: seq<ModelId>, needs: Needs, failed: ModelId,
                                    profiles: Profiles, task: string, minSamples: nat, g: Signals,
                                    settings: Aggregation.Settings, tier: nat)
    requires Keyed(profiles) && NoDup(models)
    ensures var eligible := Aggregation.Eligible(catalog, models, needs, failed);
      var qualified := |Qualified(profiles, task, minSamples, eligible)|;
      var rank := TopNames(profiles, task, minSamples, settings.maxParallel, {failed}, g);
      var cs := Aggregation.Candidates(catalog, models, needs, failed, settings.maxParallel, rank);
      && |cs| == CandidateCount(|eligible|, qualified, settings.maxParallel)
      && (0 < settings.minModels <= settings.maxParallel ==>
            (Aggregation.Runs(settings, tier, cs) <==>
             && settings.enabled && tier in settings.eligibleTiers && |eligible| >= settings.minModels
             && (|eligible| > settings.maxParallel && qualified > 0 ==> qualified >= settings.minModels)))
  {
    hide TopNames, Qualified, Keyed, Aggregation.Eligible, Filter;
    var eligible := Aggregation.Eligible(catalog, models, needs, failed);
    var rank := TopNames(profiles, task, minSamples, settings.maxParallel, {failed}, g);
    Aggregation.EligibleAreOthers(catalog, models, needs, failed);
    RankedCount(profiles, task, minSamples, settings.maxParallel, failed, g, eligible);
    assert |Aggregation.Candidates(catalog, models, needs, failed, settings.maxParallel, rank)|
        == CandidateCount(|eligible|, |Qualified(profiles, task, minSamples, eligible)|, settings.maxParallel);
  }

  lemma RankedCount(profiles: Profiles, task: string, minSamples: nat, n: nat, failed: ModelId, g: Signals,
                    eligible: seq<ModelId>)
    requires Keyed(profiles) && NoDup(eligible) && forall k :: 0 <= k < |eligible| ==> eligible[k] != failed
    ensures var qualified := |Qualified(profiles, task, minSamples, eligible)|;
      var most := if qualified == 0 then |eligible| else qualified;
      |TopNames(profiles, task, minSamples, n, {failed}, g)(eligible)| == if n <= most then n else most
  {
    FilterAll(eligible, NotIn({failed}));
    TopIsRanking(profiles, task, minSamples, eligible, n, {failed}, g);
    hide TopModels, Qualified;
  }

  /** With more candidates than may run in parallel and some of them qualified, an aggregation asks the best: every
      candidate is a qualified model other than the failed one, and no qualified one that is passed over scores higher. */
  lemma BestAreAggregated(catalog: Catalog, models: seq<ModelId>, needs: Needs, failed: ModelId,
                          profiles: Profiles, task: string, minSamples: nat, g: Signals, maxParallel: nat)
    requires NoDup(models) && maxParallel > 0
    ensures var eligible := Aggregation.Eligible(catalog, models, needs, failed);
      var cs := Qualified(profiles, task, minSamples, eligible);
      var rank := TopNames(profiles, task, minSamples, maxParallel, {failed}, g);
      |eligible| > maxParallel && cs != [] ==>
        exists top :: Aggregation.Candidates(catalog, models, needs, failed, maxParallel, rank) == Names(top)
                      && |top| == (if maxParallel <= |cs| then maxParallel else |cs|) && BestFirst(top, Scores(cs, g))
  {
    hide Aggregation.Eligible, Qualified, BestFirst, TopModels, Scores, Filter;
    var eligible := Aggregation.Eligible(catalog, models, needs, failed);
    Aggregation.EligibleAreOthers(catalog, models, needs, failed);
    FilterAll(eligible, NotIn({failed}));
    TopIsBest(profiles, task, minSamples, eligible, maxParallel, {failed}, g);
    var top := TopModels(profiles, task, minSamples, eligible, maxParallel, {failed}, g);
    assert TopNames(profiles, task, minSamples, maxParallel, {failed}, g)(eligible) == Names(top);
    if |eligible| > maxParallel && Qualified(profiles, task, minSamples, eligible) != [] {
      assert Names(top) != [];
    }
  }
}
