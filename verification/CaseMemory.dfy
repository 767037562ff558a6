/** Case memory: the reward of an outcome, and the per-model bias of the retrieved cases. */
module CaseMemory {
  import opened Sequences
  import opened Capabilities
  import opened Reals

  datatype Case = Case(model: ModelId, reward: real)

  function Abs(x: real): real { if x < 0.0 then -x else x }

  function OutcomeReward(qualityScore: real, qualityPassed: bool, cost: real): real {
    0.4 * qualityScore + 0.3 * (if qualityPassed then 1.0 else 0.0) + 0.3 * (1.0 - Min(cost / 0.01, 1.0))
  }

  /** The reward of a quality score in [0, 1] lies in [0, 1]; it is 1 only for a perfect free pass. */
  lemma RewardRange(qualityScore: real, qualityPassed: bool, cost: real)
    requires 0.0 <= qualityScore <= 1.0 && cost >= 0.0
    ensures 0.0 <= OutcomeReward(qualityScore, qualityPassed, cost) <= 1.0
    ensures OutcomeReward(qualityScore, qualityPassed, cost) == 1.0 <==>
      qualityScore == 1.0 && qualityPassed && cost == 0.0
  {
    var e := Min(cost / 0.01, 1.0);
    assert cost == cost / 0.01 * 0.01;
    assert 0.0 <= cost / 0.01;
    assert e == 0.0 <==> cost == 0.0;
  }

  /** A cosine similarity can be negative. A quality score keeps every reward in [0, 1] exactly if it is in [0, 1]
      itself: with any other score a failed costly answer, or a passed free one, leaves the range. */
  lemma RewardInRangeIff(qualityScore: real)
    ensures (forall passed, cost :: cost >= 0.0 ==> 0.0 <= OutcomeReward(qualityScore, passed, cost) <= 1.0)
      <==> 0.0 <= qualityScore <= 1.0
  {
    assert 0.01 / 0.01 == 1.0 && 0.0 / 0.01 == 0.0;
    assert OutcomeReward(qualityScore, false, 0.01) == 0.4 * qualityScore;
    assert OutcomeReward(qualityScore, true, 0.0) == 0.4 * qualityScore + 0.6;
    if 0.0 <= qualityScore <= 1.0 {
      forall passed, cost | cost >= 0.0 ensures 0.0 <= OutcomeReward(qualityScore, passed, cost) <= 1.0 {
        RewardRange(qualityScore, passed, cost);
      }
    }
  }

  /** With a cosine similarity for a score, in [-1, 1], the reward lies in [-0.4, 1]. */
  lemma RewardOfSimilarity(qualityScore: real, qualityPassed: bool, cost: real)
    requires -1.0 <= qualityScore <= 1.0 && cost >= 0.0
    ensures -0.4 <= OutcomeReward(qualityScore, qualityPassed, cost) <= 1.0
  {
    var e := Min(cost / 0.01, 1.0);
    assert cost == cost / 0.01 * 0.01;
    assert 0.0 <= e <= 1.0;
  }

  /** What the parts of a reward weigh: passing is worth as much as being free, three quarters of the whole quality score
      each, and beyond a cent cost makes no difference. */
  lemma RewardParts(q: real, q': real, passed: bool, cost: real, more: real)
    requires 0.0 <= cost && more >= 0.01
    ensures OutcomeReward(q, true, more) == OutcomeReward(q, false, 0.0)
    ensures OutcomeReward(q, true, cost) - OutcomeReward(q, false, cost) == 0.75 * (OutcomeReward(1.0, passed, cost) - OutcomeReward(0.0, passed, cost))
    ensures q < q' ==> OutcomeReward(q, passed, cost) < OutcomeReward(q', passed, cost)
    ensures OutcomeReward(q, passed, more) == OutcomeReward(q, passed, 0.01) <= OutcomeReward(q, passed, cost) <= OutcomeReward(q, passed, 0.0)
  {
    assert 0.0 / 0.01 == 0.0 && 0.01 / 0.01 == 1.0;
    assert cost == cost / 0.01 * 0.01 && more == more / 0.01 * 0.01;
    assert 0.0 <= cost / 0.01 && more / 0.01 >= 1.0;
  }

  /** What one of `k` cases adds to its model's bias. */
  function Contribution(c: Case, minReward: real, k: nat): real
    requires k > 0
  {
    if c.reward > minReward then c.reward / k as real else -((1.0 - c.reward) / k as real)
  }

  /** The bias of one model over the first cases, each weighing one `k`-th. */
  function Bias(cases: seq<Case>, minReward: real, k: nat, m: ModelId): real
    requires k > 0
  {
    if cases == [] then 0.0 else
    var last := cases[|cases| - 1];
    Bias(cases[..|cases| - 1], minReward, k, m) + if last.model == m then Contribution(last, minReward, k) else 0.0
  }

  /** The accumulating loop of `compute_case_bias`: one entry per model that has a case. */
  method ComputeCaseBias(cases: seq<Case>, minReward: real) returns (bias: map<ModelId, real>)
    ensures cases == [] ==> bias == map[]
    ensures cases != [] ==> bias.Keys == (set i | 0 <= i < |cases| :: cases[i].model)
    ensures cases != [] ==> forall m :: m in bias ==> bias[m] == Bias(cases, minReward, |cases|, m)
  {
    bias := map[];
    if cases == [] {
      return;
    }
    var k := |cases|;
    for n := 0 to k
      invariant bias.Keys == (set i | 0 <= i < n :: cases[i].model)
      invariant forall m :: m in bias ==> bias[m] == Bias(cases[..n], minReward, k, m)
      invariant forall m :: m !in bias ==> Bias(cases[..n], minReward, k, m) == 0.0
    {
      assert cases[..n + 1][..n] == cases[..n];
      var c := cases[n];
      var had := if c.model in bias then bias[c.model] else 0.0;
      if c.reward > minReward {
        bias := bias[c.model := had + c.reward / k as real];
      } else {
        bias := bias[c.model := had - (1.0 - c.reward) / k as real];
      }
    }
    assert cases[..k] == cases;
  }

  lemma BetterContribution(c: Case, better: real, minReward: real, k: nat)
    requires k > 0 && better > c.reward
    ensures Contribution(c.(reward := better), minReward, k) > Contribution(c, minReward, k)
  {
    DivideLess(c.reward, better, k as real);
    DivideLess(1.0 - better, 1.0 - c.reward, k as real);
    DivideLess(c.reward - 1.0, better, k as real);
    assert -((1.0 - c.reward) / k as real) == (c.reward - 1.0) / k as real;
  }

  lemma DivideLess(a: real, b: real, k: real)
    requires k > 0.0
    ensures a < b ==> a / k < b / k
  {
    assert a == a / k * k && b == b / k * k;
  }

  /** A case with a higher reward raises its own model's bias and no other's. */
  lemma {:induction false} BetterCaseRaisesBias(cases: seq<Case>, n: nat, better: real, minReward: real, k: nat, m: ModelId)
    requires k > 0 && n < |cases| && better > cases[n].reward
    ensures var after := Bias(cases[n := cases[n].(reward := better)], minReward, k, m);
      if m == cases[n].model then after > Bias(cases, minReward, k, m) else after == Bias(cases, minReward, k, m)
    decreases |cases|
  {
    var changed := cases[n := cases[n].(reward := better)];
    var front, last := cases[..|cases| - 1], cases[|cases| - 1];
    if n < |cases| - 1 {
      BetterCaseRaisesBias(front, n, better, minReward, k, m);
      assert changed[..|cases| - 1] == front[n := cases[n].(reward := better)];
    } else {
      BetterContribution(last, better, minReward, k);
      assert changed[..|cases| - 1] == front;
    }
    hide Contribution;
  }

  ghost predicate HasCase(cases: seq<Case>, m: ModelId) { exists i :: 0 <= i < |cases| && cases[i].model == m }

  /** Cases above the threshold speak for their model, cases at or below it against: a model all of whose cases are of
      one kind has a bias of that sign, and a model without cases has none. */
  lemma {:induction false} BiasSign(cases: seq<Case>, minReward: real, k: nat, m: ModelId)
    requires k > 0 && 0.0 <= minReward < 1.0
    ensures !HasCase(cases, m) ==> Bias(cases, minReward, k, m) == 0.0
    ensures HasCase(cases, m) && (forall i :: 0 <= i < |cases| && cases[i].model == m ==> cases[i].reward > minReward) ==>
      Bias(cases, minReward, k, m) > 0.0
    ensures HasCase(cases, m) && (forall i :: 0 <= i < |cases| && cases[i].model == m ==> cases[i].reward <= minReward) ==>
      Bias(cases, minReward, k, m) < 0.0
  {
    if cases != [] {
      var front, last := cases[..|cases| - 1], cases[|cases| - 1];
      BiasSign(front, minReward, k, m);
      assert cases == front + [last];
      assert HasCase(cases, m) <==> HasCase(front, m) || last.model == m by {
        assert last.model == m ==> cases[|cases| - 1].model == m;
        assert HasCase(front, m) ==> HasCase(cases, m) by {
          if i :| 0 <= i < |front| && front[i].model == m {
            assert cases[i].model == m;
          }
        }
      }
      ContributionSign(last, minReward, k);
      hide Contribution, HasCase;
    }
  }

  lemma ContributionSign(c: Case, minReward: real, k: nat)
    requires k > 0 && 0.0 <= minReward < 1.0
    ensures if c.reward > minReward then Contribution(c, minReward, k) > 0.0 else Contribution(c, minReward, k) < 0.0
  {
    assert c.reward == c.reward / k as real * k as real;
    assert 1.0 - c.reward == (1.0 - c.reward) / k as real * k as real;
  }

  /** The biases of the listed models, in absolute value, added up. */
  function TotalBias(cases: seq<Case>, minReward: real, k: nat, models: seq<ModelId>): real
    requires k > 0
  {
    if models == [] then 0.0 else
      TotalBias(cases, minReward, k, models[..|models| - 1]) + Abs(Bias(cases, minReward, k, models[|models| - 1]))
  }

  /** The rewards lie between `low`, which is at most 0, and 1. */
  ghost predicate RewardsFrom(cases: seq<Case>, low: real) {
    low <= 0.0 && forall i :: 0 <= i < |cases| ==> low <= cases[i].reward <= 1.0
  }

  lemma ContributionBounded(c: Case, minReward: real, k: nat, low: real)
    requires k > 0 && low <= 0.0 && low <= c.reward <= 1.0
    ensures Abs(Contribution(c, minReward, k)) <= (1.0 - low) / k as real
  {
    DivideMonotone(Abs(c.reward), 1.0 - low, k as real);
    DivideMonotone(1.0 - c.reward, 1.0 - low, k as real);
    assert -(c.reward / k as real) == (-c.reward) / k as real;
  }

  lemma DivideMonotone(a: real, b: real, k: real)
    requires 0.0 <= a <= b && k > 0.0
    ensures 0.0 <= a / k <= b / k
  {
    assert a == a / k * k && b == b / k * k;
  }

  /** One more case changes one model's bias, by at most one `k`-th of the span of rewards. */
  lemma {:induction false} OneMoreCase(cases: seq<Case>, c: Case, minReward: real, k: nat, models: seq<ModelId>, low: real)
    requires k > 0 && NoDup(models) && low <= 0.0 && low <= c.reward <= 1.0
    ensures TotalBias(cases + [c], minReward, k, models)
      <= TotalBias(cases, minReward, k, models) + if c.model in models then (1.0 - low) / k as real else 0.0
  {
    if models != [] {
      var front, m := models[..|models| - 1], models[|models| - 1];
      OneMoreCase(cases, c, minReward, k, front, low);
      assert (cases + [c])[..|cases + [c]| - 1] == cases;
      ContributionBounded(c, minReward, k, low);
      assert models == front + [m];
      assert m !in front;
      hide Contribution;
    }
  }

  function Times(n: nat, x: real): real { n as real * x }

  lemma OneMore(n: nat, x: real)
    ensures Times(n + 1, x) == Times(n, x) + x
  {
  }

  lemma {:induction false} TotalBiasOf(cases: seq<Case>, minReward: real, k: nat, models: seq<ModelId>, low: real)
    requires k > 0 && NoDup(models) && RewardsFrom(cases, low)
    ensures TotalBias(cases, minReward, k, models) <= Times(|cases|, (1.0 - low) / k as real)
  {
    var n := |cases|;
    if n == 0 {
      NoCases(minReward, k, models);
    } else {
      var front, last := cases[..n - 1], cases[n - 1];
      TotalBiasOf(front, minReward, k, models, low);
      assert cases == front + [last];
      OneMoreCase(front, last, minReward, k, models, low);
      DivideMonotone(0.0, 1.0 - low, k as real);
      OneMore(n - 1, (1.0 - low) / k as real);
      hide TotalBias, Times;
    }
  }

  lemma {:induction false} NoCases(minReward: real, k: nat, models: seq<ModelId>)
    requires k > 0
    ensures TotalBias([], minReward, k, models) == 0.0
  {
    if models != [] {
      NoCases(minReward, k, models[..|models| - 1]);
    }
  }

  /** The absolute biases of any different models add up to at most the span of rewards, 1 - `low`: with rewards in
      [0, 1] the memory hands out one unit of preference among all models, whatever the cases. */
  lemma BiasesShareOneSpan(cases: seq<Case>, minReward: real, models: seq<ModelId>, low: real)
    requires cases != [] && NoDup(models) && RewardsFrom(cases, low)
    ensures TotalBias(cases, minReward, |cases|, models) <= 1.0 - low
  {
    TotalBiasOf(cases, minReward, |cases|, models, low);
    assert Times(|cases|, (1.0 - low) / |cases| as real) == 1.0 - low;
  }

  /** In particular the biases of two models differ by at most that. */
  lemma BiasGap(cases: seq<Case>, minReward: real, a: ModelId, b: ModelId, low: real)
    requires cases != [] && a != b && RewardsFrom(cases, low)
    ensures Abs(Bias(cases, minReward, |cases|, a)) + Abs(Bias(cases, minReward, |cases|, b)) <= 1.0 - low
  {
    var models := [a, b];
    BiasesShareOneSpan(cases, minReward, models, low);
    assert models[..1] == [a] && [a][..0] == [];
    assert TotalBias(cases, minReward, |cases|, [a]) == TotalBias(cases, minReward, |cases|, []) + Abs(Bias(cases, minReward, |cases|, a));
  }
}
