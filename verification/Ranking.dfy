/** The tenant-free ranking of catalog models: profiled models by their averages, the others as at cold start. */
module Ranking {
  import opened Wrappers
  import opened Sequences
  import opened StableSort
  import opened Capabilities
  import opened TierResolution

  /** One cached profile, in the order of the cache. */
  datatype Stat = Stat(model: ModelId, samples: nat, success: real, quality: real)

  predicate Counts(s: Stat, m: ModelId, minSamples: nat) { s.model == m && s.samples >= minSamples }

  function Relevant(stats: seq<Stat>, m: ModelId, minSamples: nat): seq<Stat> {
    Filter(stats, (s: Stat) => Counts(s, m, minSamples))
  }

  function SuccessSum(stats: seq<Stat>): real {
    if stats == [] then 0.0 else SuccessSum(stats[..|stats| - 1]) + stats[|stats| - 1].success
  }

  function QualitySum(stats: seq<Stat>): real {
    if stats == [] then 0.0 else QualitySum(stats[..|stats| - 1]) + stats[|stats| - 1].quality
  }

  function Score(stats: seq<Stat>, m: ModelInfo, minSamples: nat): Option<real> {
    var rs := Relevant(stats, m.modelId, minSamples);
    if rs == [] then None
    else Some(0.6 * (QualitySum(rs) / |rs| as real) + 0.4 * (SuccessSum(rs) / |rs| as real)
              - 0.000001 * m.costPerMillionInput)
  }

  /** The loop over the whole cache. */
  method ProfileScore(stats: seq<Stat>, m: ModelInfo, minSamples: nat) returns (score: Option<real>)
    ensures score == Score(stats, m, minSamples)
  {
    var success, quality, n := 0.0, 0.0, 0;
    for i := 0 to |stats|
      invariant var rs := Relevant(stats[..i], m.modelId, minSamples);
        n == |rs| && success == SuccessSum(rs) && quality == QualitySum(rs)
    {
      FilterPrefix(stats, i, (s: Stat) => Counts(s, m.modelId, minSamples));
      var s := stats[i];
      ghost var before := Relevant(stats[..i], m.modelId, minSamples);
      assert (before + [s])[..|before + [s]| - 1] == before;
      if s.model == m.modelId && s.samples >= minSamples {
        success, quality, n := success + s.success, quality + s.quality, n + 1;
      }
    }
    assert stats[..|stats|] == stats;
    if n == 0 {
      return None;
    }
    score := Some(0.6 * (quality / n as real) + 0.4 * (success / n as real) - 0.000001 * m.costPerMillionInput);
  }

  type Scored = (real, ModelInfo)

  /** Higher scores first, and at equal scores the cold-start order. */
  predicate ScoredBefore(a: Scored, b: Scored) { a.0 > b.0 || (a.0 == b.0 && RanksBefore(a.1, b.1)) }

  function ByScore(): (Scored, Scored) -> bool { (a: Scored, b: Scored) => ScoredBefore(a, b) }

  function Models(s: seq<Scored>): seq<ModelInfo> { seq(|s|, i requires 0 <= i < |s| => s[i].1) }

  function Profiled(stats: seq<Stat>, minSamples: nat): ModelInfo -> bool {
    (m: ModelInfo) => Score(stats, m, minSamples).Some?
  }

  function Unprofiled(stats: seq<Stat>, minSamples: nat): ModelInfo -> bool {
    (m: ModelInfo) => Score(stats, m, minSamples).None?
  }

  /** The profiled candidates with their scores, in the given order. */
  function WithScores(stats: seq<Stat>, minSamples: nat, cs: seq<ModelInfo>): seq<Scored> {
    if cs == [] then [] else
    var rest := WithScores(stats, minSamples, cs[..|cs| - 1]);
    var m := cs[|cs| - 1];
    match Score(stats, m, minSamples)
    case Some(x) => rest + [(x, m)]
    case None => rest
  }

  method RankCandidates(stats: seq<Stat>, minSamples: nat, candidates: seq<ModelInfo>) returns (ranked: seq<ModelInfo>)
    ensures ranked == Ranking(stats, minSamples, candidates)
  {
    if candidates == [] {
      return [];
    }
    if stats == [] {
      EmptyCacheIsColdStart(minSamples, candidates);
      return Sort(candidates, ByRank());
    }
    hide Sort, Score;
    var scored: seq<Scored> := [];
    var unprofiled: seq<ModelInfo> := [];
    for i := 0 to |candidates|
      invariant scored == WithScores(stats, minSamples, candidates[..i])
      invariant unprofiled == Filter(candidates[..i], Unprofiled(stats, minSamples))
    {
      FilterPrefix(candidates, i, Unprofiled(stats, minSamples));
      assert candidates[..i + 1][..i] == candidates[..i];
      var score := ProfileScore(stats, candidates[i], minSamples);
      if score.None? {
        unprofiled := unprofiled + [candidates[i]];
      } else {
        scored := scored + [(score.value, candidates[i])];
      }
    }
    assert candidates[..|candidates|] == candidates;
    ranked := Models(Sort(scored, ByScore())) + Sort(unprofiled, ByRank());
  }

  lemma {:induction false} WithoutStats(minSamples: nat, cs: seq<ModelInfo>)
    ensures WithScores([], minSamples, cs) == [] && Filter(cs, Unprofiled([], minSamples)) == cs
  {
    if cs != [] {
      WithoutStats(minSamples, cs[..|cs| - 1]);
      assert cs == cs[..|cs| - 1] + [cs[|cs| - 1]];
    }
  }

  /** The ranking of either branch. */
  function Ranking(stats: seq<Stat>, minSamples: nat, cs: seq<ModelInfo>): seq<ModelInfo> {
    Models(Sort(WithScores(stats, minSamples, cs), ByScore())) + Sort(Filter(cs, Unprofiled(stats, minSamples)), ByRank())
  }

  /** An empty cache needs no branch of its own: it ranks like the general case, in the cold-start order that also ranks
      the tiers. */
  lemma EmptyCacheIsColdStart(minSamples: nat, cs: seq<ModelInfo>)
    ensures Ranking([], minSamples, cs) == Sort(cs, ByRank())
  {
    WithoutStats(minSamples, cs);
    assert Sort<Scored>([], ByScore()) == [];
  }

  lemma {:induction false} ScoredAreProfiled(stats: seq<Stat>, minSamples: nat, cs: seq<ModelInfo>)
    ensures Models(WithScores(stats, minSamples, cs)) == Filter(cs, Profiled(stats, minSamples))
    ensures ScoresRight(WithScores(stats, minSamples, cs), stats, minSamples)
  {
    if cs != [] {
      var rest := WithScores(stats, minSamples, cs[..|cs| - 1]);
      ScoredAreProfiled(stats, minSamples, cs[..|cs| - 1]);
      hide Score;
      var m := cs[|cs| - 1];
      if Score(stats, m, minSamples).Some? {
        assert Models(rest + [(Score(stats, m, minSamples).value, m)]) == Models(rest) + [m];
      }
    }
  }

  ghost predicate ScoresRight(s: seq<Scored>, stats: seq<Stat>, minSamples: nat) {
    forall i :: 0 <= i < |s| ==> Score(stats, s[i].1, minSamples) == Some(s[i].0)
  }

  lemma OrdersArePreorders()
    ensures TotalPreorder(ByScore()) && TotalPreorder(ByRank())
  {
  }

  lemma {:induction false} SameModels(s: seq<Scored>, t: seq<Scored>)
    requires multiset(s) == multiset(t)
    ensures multiset(Models(s)) == multiset(Models(t))
    decreases |s|
  {
    assert |s| == |multiset(s)| && |t| == |multiset(t)|;
    if s == [] {
      assert Models(s) == Models(t);
    } else {
      var j := Occurs(s[0], s, t);
      SameModels(Without(s, 0), Without(t, j));
      ModelsWithout(s, 0);
      ModelsWithout(t, j);
      assert multiset(Models(s)) == multiset(Models(Without(s, 0))) + multiset{s[0].1};
      assert multiset(Models(t)) == multiset(Models(Without(t, j))) + multiset{s[0].1};
    }
  }

  lemma ModelsWithout(s: seq<Scored>, i: nat)
    requires i < |s|
    ensures multiset(Models(s)) == multiset(Models(Without(s, i))) + multiset{s[i].1}
  {
    assert Models(Without(s, i)) == Without(Models(s), i);
    assert Models(s)[i] in multiset(Models(s));
  }

  /** A ranking with `p` profiled models in front: those by score, the rest in cold-start order. */
  ghost predicate RankedFrom(ranked: seq<ModelInfo>, p: nat, stats: seq<Stat>, minSamples: nat) {
    && p <= |ranked|
    && (forall i :: 0 <= i < p ==> Score(stats, ranked[i], minSamples).Some?)
    && (forall i :: p <= i < |ranked| ==> Score(stats, ranked[i], minSamples).None?)
    && (forall i, j :: 0 <= i < j < p ==>
          Score(stats, ranked[i], minSamples).Some? && Score(stats, ranked[j], minSamples).Some?
          && Score(stats, ranked[i], minSamples).value >= Score(stats, ranked[j], minSamples).value
          && (Score(stats, ranked[i], minSamples) == Score(stats, ranked[j], minSamples) ==> FasterOrCheaper(ranked[i], ranked[j])))
    && (forall i, j :: p <= i < j < |ranked| ==> FasterOrCheaper(ranked[i], ranked[j]))
  }

  /** The ranking loses and doubles no candidate, and ranks every profiled model before every other: the profiled by
      score and then by class and cost, the others by class and cost. */
  lemma RankingIsFaithful(stats: seq<Stat>, minSamples: nat, cs: seq<ModelInfo>)
    ensures var ranked := Ranking(stats, minSamples, cs);
      && multiset(ranked) == multiset(cs)
      && RankedFrom(ranked, |Filter(cs, Profiled(stats, minSamples))|, stats, minSamples)
  {
    var scored, unprofiled := WithScores(stats, minSamples, cs), Filter(cs, Unprofiled(stats, minSamples));
    var front, back := Sort(scored, ByScore()), Sort(unprofiled, ByRank());
    OrdersArePreorders();
    SortCorrect(scored, ByScore());
    SortCorrect(unprofiled, ByRank());
    ScoredAreProfiled(stats, minSamples, cs);
    SameModels(front, scored);
    FilterPartition(cs, Profiled(stats, minSamples), Unprofiled(stats, minSamples));
    FilterSatisfies(cs, Unprofiled(stats, minSamples));
    hide Sort, Score, WithScores, Filter;
    SortedScoresRight(front, scored, stats, minSamples);
    SortedUnprofiled(back, unprofiled, stats, minSamples);
    Assembled(front, back, stats, minSamples);
  }

  lemma SortedScoresRight(front: seq<Scored>, scored: seq<Scored>, stats: seq<Stat>, minSamples: nat)
    requires multiset(front) == multiset(scored) && ScoresRight(scored, stats, minSamples)
    ensures ScoresRight(front, stats, minSamples)
  {
    hide Score;
    forall i | 0 <= i < |front| ensures Score(stats, front[i].1, minSamples) == Some(front[i].0) {
      assert front[i] in front;
      var _ := Occurs(front[i], front, scored);
    }
  }

  lemma SortedUnprofiled(back: seq<ModelInfo>, unprofiled: seq<ModelInfo>, stats: seq<Stat>, minSamples: nat)
    requires multiset(back) == multiset(unprofiled) && All(unprofiled, Unprofiled(stats, minSamples))
    ensures All(back, Unprofiled(stats, minSamples))
  {
    hide Score;
    forall i | 0 <= i < |back| ensures Unprofiled(stats, minSamples)(back[i]) {
      assert back[i] in back;
      var j := Occurs(back[i], back, unprofiled);
      assert Unprofiled(stats, minSamples)(unprofiled[j]);
    }
  }

  lemma Assembled(front: seq<Scored>, back: seq<ModelInfo>, stats: seq<Stat>, minSamples: nat)
    requires ScoresRight(front, stats, minSamples) && SortedBy(front, ByScore())
    requires All(back, Unprofiled(stats, minSamples)) && SortedBy(back, ByRank())
    ensures RankedFrom(Models(front) + back, |front|, stats, minSamples)
  {
    hide Score, RanksBefore, FasterOrCheaper;
    var ranked := Models(front) + back;
    forall i | |front| <= i < |ranked| ensures Score(stats, ranked[i], minSamples).None? {
      assert Unprofiled(stats, minSamples)(back[i - |front|]);
    }
    forall i, j | 0 <= i < j < |front|
      ensures front[i].0 >= front[j].0 && (front[i].0 == front[j].0 ==> FasterOrCheaper(ranked[i], ranked[j]))
    {
      assert ByScore()(front[i], front[j]);
      RankMeansFasterOrCheaper(ranked[i], ranked[j]);
    }
    forall i, j | |front| <= i < j < |ranked| ensures FasterOrCheaper(ranked[i], ranked[j]) {
      assert ByRank()(back[i - |front|], back[j - |front|]);
      RankMeansFasterOrCheaper(ranked[i], ranked[j]);
    }
  }

  /** A model is ranked by its profiles exactly if one of them rests on enough samples. */
  lemma ProfiledByNumbers(stats: seq<Stat>, m: ModelInfo, minSamples: nat)
    ensures Score(stats, m, minSamples).Some? <==> exists s :: s in stats && s.model == m.modelId && s.samples >= minSamples
  {
    var rs := Relevant(stats, m.modelId, minSamples);
    FilterMembers(stats, (s: Stat) => Counts(s, m.modelId, minSamples));
    assert rs != [] ==> rs[0] in rs;
  }

  /** The averages that a score is made of. */
  function Quality(rs: seq<Stat>): real
    requires rs != []
  {
    QualitySum(rs) / |rs| as real
  }

  function Success(rs: seq<Stat>): real
    requires rs != []
  {
    SuccessSum(rs) / |rs| as real
  }

  /** What a score weighs: one of two profiled models scores higher exactly if its lead in quality, half again as heavy as
      one in success, outweighs what it costs more, a full point of success being worth 400,000 a million tokens. */
  lemma ScoreWeighs(stats: seq<Stat>, minSamples: nat, a: ModelInfo, b: ModelInfo)
    requires Score(stats, a, minSamples).Some? && Score(stats, b, minSamples).Some?
    ensures var ra, rb := Relevant(stats, a.modelId, minSamples), Relevant(stats, b.modelId, minSamples);
      && ra != [] && rb != []
      && (Score(stats, a, minSamples).value > Score(stats, b, minSamples).value <==>
            400000.0 * (1.5 * (Quality(ra) - Quality(rb)) + (Success(ra) - Success(rb)))
              > a.costPerMillionInput - b.costPerMillionInput)
  {
    var ra, rb := Relevant(stats, a.modelId, minSamples), Relevant(stats, b.modelId, minSamples);
    assert Score(stats, a, minSamples) == Some(0.6 * Quality(ra) + 0.4 * Success(ra) - 0.000001 * a.costPerMillionInput);
    assert Score(stats, b, minSamples) == Some(0.6 * Quality(rb) + 0.4 * Success(rb) - 0.000001 * b.costPerMillionInput);
    hide Score, Quality, Success, Relevant;
  }
}
