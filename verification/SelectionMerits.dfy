/** Which of two candidates the selection prefers, and how much each signal weighs in it. */
module SelectionMerits {
  import opened Sequences
  import opened StableSort
  import opened Capabilities
  import opened Selection
  import Laws = SelectionLaws

  // ---------------------------------------------------------------------------
  // Complexity
  // ---------------------------------------------------------------------------

  /** The candidate has the best quality and the highest cost, or the worst and lowest, of all. */
  ghost predicate BestAndDearest(cs: seq<Profile>, a: nat) {
    a < |cs| && forall j :: 0 <= j < |cs| ==> cs[j].quality <= cs[a].quality && cs[j].cost <= cs[a].cost
  }

  ghost predicate WorstAndCheapest(cs: seq<Profile>, b: nat) {
    b < |cs| && forall j :: 0 <= j < |cs| ==> cs[j].quality >= cs[b].quality && cs[j].cost >= cs[b].cost
  }

  lemma NormalisedEnds(s: seq<real>, hi: nat, lo: nat)
    requires hi < |s| && lo < |s| && s[lo] < s[hi]
    requires forall j :: 0 <= j < |s| ==> s[lo] <= s[j] <= s[hi]
    ensures Normalised(s[hi], s) == 1.0 && Normalised(s[lo], s) == 0.0
  {
    assert Highest(s) == s[hi] && Lowest(s) == s[lo];
    hide Highest, Lowest;
    ZeroAndOne(s[hi] - s[lo]);
  }

  lemma ZeroAndOne(x: real)
    requires x > 0.0
    ensures x / x == 1.0 && 0.0 / x == 0.0
  {
  }

  lemma SignOfProduct(x: real, y: real)
    requires y > 0.0
    ensures x * y > 0.0 <==> x > 0.0
    ensures x * y < 0.0 <==> x < 0.0
  {
    if x < 0.0 {
      assert (-x) * y > 0.0;
    }
  }

  /** With equal secondary terms the tradeoff and the success bonus decide. */
  lemma TradeoffDecides(cs: seq<Profile>, g: Signals, a: Profile, b: Profile)
    requires cs != [] && Laws.SameSecondary(a.model, b.model, g)
    ensures Fitness(cs, a, g) - Fitness(cs, b, g)
      == (Pareto(cs, a, g.complexity) + 0.01 * a.success) - (Pareto(cs, b, g.complexity) + 0.01 * b.success)
  {
    hide Pareto, CaseTerm, AffinityTerm, MemoryTerm;
  }

  lemma ParetoOfEnds(cs: seq<Profile>, complexity: real, a: nat, b: nat)
    requires BestAndDearest(cs, a) && WorstAndCheapest(cs, b)
    requires cs[a].quality > cs[b].quality && cs[a].cost > cs[b].cost
    ensures Pareto(cs, cs[a], complexity) == 0.4 * (3.0 * complexity - 1.0) * cs[a].success
    ensures Pareto(cs, cs[b], complexity) == 0.0
  {
    hide Normalised;
    NormalisedEnds(Qualities(cs), a, b);
    NormalisedEnds(Costs(cs), a, b);
  }

  /** A third is where the selection turns from cost to quality: of two candidates with equal success and equal
      secondary terms, the best and dearest beats the worst and cheapest exactly above it. */
  lemma ThirdDecides(cs: seq<Profile>, g: Signals, a: nat, b: nat, k: nat)
    requires BestAndDearest(cs, a) && WorstAndCheapest(cs, b)
    requires cs[a].quality > cs[b].quality && cs[a].cost > cs[b].cost
    requires cs[a].success == cs[b].success > 0.0 && Laws.SameSecondary(cs[a].model, cs[b].model, g)
    ensures Fitness(cs, cs[a], g) > Fitness(cs, cs[b], g) <==> g.complexity > 1.0 / 3.0
    ensures FirstBest(cs, g, k) ==> (g.complexity > 1.0 / 3.0 ==> k != b) && (g.complexity < 1.0 / 3.0 ==> k != a)
  {
    hide Fitness, Pareto, Laws.SameSecondary;
    ParetoOfEnds(cs, g.complexity, a, b);
    TradeoffDecides(cs, g, cs[a], cs[b]);
    SignOfProduct(0.4 * (3.0 * g.complexity - 1.0), cs[a].success);
  }

  lemma TradeoffDifference(w: real, qa: real, ca: real, qb: real, cb: real, success: real)
    ensures Tradeoff(w, qa, ca, success) - Tradeoff(w, qb, cb, success)
      == success * (w * ((qa - qb) + (ca - cb)) - (ca - cb))
  {
  }

  lemma NonNegative(x: real, y: real)
    requires x >= 0.0 && y >= 0.0
    ensures x * y >= 0.0
  {
  }

  lemma ScaledGrows(success: real, w: real, v: real, x: real, y: real)
    requires success >= 0.0 && w <= v && x >= 0.0
    ensures success * (w * x - y) <= success * (v * x - y)
  {
    NonNegative(v - w, x);
    NonNegative(success, (v - w) * x);
    assert success * (v * x - y) - success * (w * x - y) == success * ((v - w) * x);
  }

  /** The lead of a better and dearer candidate over another of equal success never shrinks as the request becomes more
      complex, whatever the other signals: if it wins at some complexity, it wins at every higher one. */
  lemma ComplexityFavoursQuality(cs: seq<Profile>, g: Signals, higher: real, a: Profile, b: Profile)
    requires cs != [] && g.complexity <= higher
    requires a.success == b.success >= 0.0 && a.quality >= b.quality && a.cost >= b.cost
    ensures var h := g.(complexity := higher);
      && Fitness(cs, a, g) - Fitness(cs, b, g) <= Fitness(cs, a, h) - Fitness(cs, b, h)
      && (Fitness(cs, a, g) > Fitness(cs, b, g) ==> Fitness(cs, a, h) > Fitness(cs, b, h))
  {
    var h := g.(complexity := higher);
    ParetoLeadGrows(cs, g.complexity, higher, a, b);
    SameBesidesPareto(cs, g, higher, a);
    SameBesidesPareto(cs, g, higher, b);
    hide Fitness, Pareto;
  }

  lemma SameBesidesPareto(cs: seq<Profile>, g: Signals, higher: real, c: Profile)
    requires cs != []
    ensures Fitness(cs, c, g.(complexity := higher)) - Pareto(cs, c, higher) == Fitness(cs, c, g) - Pareto(cs, c, g.complexity)
  {
    hide Pareto;
    assert CaseTerm(c.model, g.(complexity := higher)) == CaseTerm(c.model, g);
    assert AffinityTerm(c.model, g.(complexity := higher)) == AffinityTerm(c.model, g);
    hide CaseTerm, AffinityTerm;
  }

  lemma ParetoLeadGrows(cs: seq<Profile>, lower: real, higher: real, a: Profile, b: Profile)
    requires cs != [] && lower <= higher && a.success == b.success >= 0.0 && a.quality >= b.quality && a.cost >= b.cost
    ensures Pareto(cs, a, lower) - Pareto(cs, b, lower) <= Pareto(cs, a, higher) - Pareto(cs, b, higher)
  {
    hide Normalised, Tradeoff;
    Laws.NormalisedOrder(Qualities(cs), b.quality, a.quality);
    Laws.NormalisedOrder(Costs(cs), b.cost, a.cost);
    LeadGrows(QualityWeight(lower), QualityWeight(higher), Normalised(a.quality, Qualities(cs)), Normalised(a.cost, Costs(cs)),
              Normalised(b.quality, Qualities(cs)), Normalised(b.cost, Costs(cs)), a.success);
  }

  lemma LeadGrows(w: real, v: real, qa: real, ca: real, qb: real, cb: real, success: real)
    requires w <= v && qa >= qb && ca >= cb && success >= 0.0
    ensures Tradeoff(w, qa, ca, success) - Tradeoff(w, qb, cb, success)
      <= Tradeoff(v, qa, ca, success) - Tradeoff(v, qb, cb, success)
  {
    TradeoffDifference(w, qa, ca, qb, cb, success);
    TradeoffDifference(v, qa, ca, qb, cb, success);
    hide Tradeoff;
    ScaledGrows(success, w, v, (qa - qb) + (ca - cb), ca - cb);
  }

  // ---------------------------------------------------------------------------
  // Success
  // ---------------------------------------------------------------------------

  /** Quality against cost, before success scales it. */
  function Merit(cs: seq<Profile>, c: Profile, complexity: real): real
    requires cs != []
  {
    (0.3 + 0.6 * complexity) * Normalised(c.quality, Qualities(cs)) - (0.7 - 0.6 * complexity) * Normalised(c.cost, Costs(cs))
  }

  lemma ParetoScalesMerit(cs: seq<Profile>, c: Profile, complexity: real)
    requires cs != []
    ensures Pareto(cs, c, complexity) == Merit(cs, c, complexity) * c.success
  {
    hide Normalised;
  }

  lemma SuccessLead(merit: real, x: real, y: real)
    ensures (merit * x + 0.01 * x) - (merit * y + 0.01 * y) == (merit + 0.01) * (x - y)
  {
  }

  /** Of two candidates that differ in their success rate alone the more successful one wins exactly if quality makes up
      for cost, but for a hundredth: success scales the tradeoff, so it also scales a bad one. */
  lemma SuccessWinsIff(cs: seq<Profile>, g: Signals, a: Profile, b: Profile)
    requires cs != [] && a.success > b.success && a.quality == b.quality && a.cost == b.cost
    requires Laws.SameSecondary(a.model, b.model, g)
    ensures Fitness(cs, a, g) > Fitness(cs, b, g) <==> Merit(cs, a, g.complexity) > -0.01
  {
    hide Fitness, Pareto, Merit, Laws.SameSecondary;
    TradeoffDecides(cs, g, a, b);
    var merit := Merit(cs, a, g.complexity);
    ParetoScalesMerit(cs, a, g.complexity);
    ParetoScalesMerit(cs, b, g.complexity);
    assert Merit(cs, b, g.complexity) == merit by {
      SameMerit(cs, a, b, g.complexity);
    }
    LeadDecides(merit, a.success, b.success, Pareto(cs, a, g.complexity), Pareto(cs, b, g.complexity),
                Fitness(cs, a, g) - Fitness(cs, b, g));
  }

  lemma LeadDecides(merit: real, x: real, y: real, paretoX: real, paretoY: real, lead: real)
    requires x > y && paretoX == merit * x && paretoY == merit * y
    requires lead == (paretoX + 0.01 * x) - (paretoY + 0.01 * y)
    ensures lead > 0.0 <==> merit > -0.01
  {
    SuccessLead(merit, x, y);
    SignOfProduct(merit + 0.01, x - y);
  }

  lemma SameMerit(cs: seq<Profile>, a: Profile, b: Profile, complexity: real)
    requires cs != [] && a.quality == b.quality && a.cost == b.cost
    ensures Merit(cs, a, complexity) == Merit(cs, b, complexity)
  {
  }

  // ---------------------------------------------------------------------------
  // The other signals
  // ---------------------------------------------------------------------------

  predicate Unlisted(m: ModelId, g: Signals) { m !in g.prefer && m !in g.avoid && m !in g.hardAvoid }

  /** What the lists weigh: against an unlisted candidate with equal case and affinity terms, a preferred one wins unless
      it trails by 0.15 or more, an avoided one only if it leads by more than 0.2, a hard-avoided one only if it leads by
      more than 0.5; one that is preferred and avoided needs a lead of more than 0.05. */
  lemma ListsWeigh(cs: seq<Profile>, g: Signals, a: Profile, b: Profile)
    requires cs != [] && Unlisted(b.model, g)
    requires CaseTerm(a.model, g) + AffinityTerm(a.model, g) == CaseTerm(b.model, g) + AffinityTerm(b.model, g)
    ensures var lead, wins := Laws.Lead(cs, a, g) - Laws.Lead(cs, b, g), Fitness(cs, a, g) > Fitness(cs, b, g);
      && (a.model in g.prefer && a.model !in g.avoid && a.model !in g.hardAvoid ==> (wins <==> lead > -0.15))
      && (a.model !in g.prefer && a.model in g.avoid && a.model !in g.hardAvoid ==> (wins <==> lead > 0.2))
      && (a.model !in g.prefer && a.model !in g.avoid && a.model in g.hardAvoid ==> (wins <==> lead > 0.5))
      && (a.model in g.prefer && a.model in g.avoid && a.model !in g.hardAvoid ==> (wins <==> lead > 0.05))
  {
    hide Pareto, CaseTerm, AffinityTerm;
  }

  /** The affinity of a model without one is a half. */
  function AffinityOf(m: ModelId, g: Signals): real { if m in g.affinity then g.affinity[m] else 0.5 }

  lemma UnlistedFitness(cs: seq<Profile>, g: Signals, c: Profile)
    requires cs != [] && Unlisted(c.model, g)
    ensures Fitness(cs, c, g) == Laws.Lead(cs, c, g) + CaseTerm(c.model, g) + AffinityTerm(c.model, g)
  {
    hide Pareto, CaseTerm, AffinityTerm;
  }

  lemma TermsFollowSignals(g: Signals, a: ModelId, b: ModelId)
    requires g.caseWeight > 0.0 && g.affinityWeight > 0.0
    ensures CaseTerm(a, g) > CaseTerm(b, g) <==> BiasOf(a, g) > BiasOf(b, g)
    ensures BiasOf(a, g) == BiasOf(b, g) ==> CaseTerm(a, g) == CaseTerm(b, g)
    ensures AffinityTerm(a, g) > AffinityTerm(b, g) <==> AffinityOf(a, g) > AffinityOf(b, g)
    ensures AffinityOf(a, g) == AffinityOf(b, g) ==> AffinityTerm(a, g) == AffinityTerm(b, g)
  {
    WeightedIff(g.caseWeight, BiasOf(a, g), BiasOf(b, g));
    WeightedIff(g.affinityWeight, AffinityOf(a, g), AffinityOf(b, g));
    hide BiasOf;
  }

  /** Between candidates that are otherwise level, the higher affinity wins, and the higher case bias wins. */
  lemma SignalsBreakTies(cs: seq<Profile>, g: Signals, a: Profile, b: Profile)
    requires cs != [] && g.caseWeight > 0.0 && g.affinityWeight > 0.0
    requires Unlisted(a.model, g) && Unlisted(b.model, g) && Laws.Lead(cs, a, g) == Laws.Lead(cs, b, g)
    ensures BiasOf(a.model, g) == BiasOf(b.model, g) ==>
      (Fitness(cs, a, g) > Fitness(cs, b, g) <==> AffinityOf(a.model, g) > AffinityOf(b.model, g))
    ensures AffinityOf(a.model, g) == AffinityOf(b.model, g) ==>
      (Fitness(cs, a, g) > Fitness(cs, b, g) <==> BiasOf(a.model, g) > BiasOf(b.model, g))
  {
    hide Fitness, Laws.Lead, CaseTerm, AffinityTerm, BiasOf, AffinityOf;
    UnlistedFitness(cs, g, a);
    UnlistedFitness(cs, g, b);
    TermsFollowSignals(g, a.model, b.model);
  }

  lemma WeightedIff(w: real, x: real, y: real)
    requires w > 0.0
    ensures w * x > w * y <==> x > y
    ensures x == y ==> w * x == w * y
  {
    if x > y {
      Laws.ScaledOrder(w, y, x);
    } else {
      Laws.ScaledOrder(w, x, y);
    }
  }
}
