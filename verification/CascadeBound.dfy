/** How long a run can go on: an amortised bound on its main-loop calls, with and without frontier denials. */
module CascadeBound {
  import opened Wrappers
  import opened Sequences
  import opened Capabilities
  import opened Exceptions
  import opened Cascade

  function IsMain(): Dispatch -> bool { (d: Dispatch) => d.kind.Main? }

  /** The number of main-loop provider calls in a log. */
  function MainCalls(ds: seq<Dispatch>): nat { |Filter(ds, IsMain())| }

  /** The models the current tier can still be asked: the selected one, and the pool minus the failed ones. */
  function Candidates(c: Config, s: State): set<ModelId>
    requires IsTier(c, s.tier)
  {
    {s.model} + (set m | m in Pool(c, s.tier) && m !in s.failed)
  }

  /** The pool sizes of the tiers below `t`. */
  function Below(c: Config, t: nat): nat
    requires t <= |c.tierModels| + 1
  {
    if t <= 1 then 0 else |Pool(c, t - 1)| + Below(c, t - 1)
  }

  /** What the run can still spend without another denial. */
  function Potential(c: Config, s: State): nat
    requires IsTier(c, s.tier)
  {
    |Candidates(c, s)| + Below(c, s.tier)
  }

  /** What one denial can give back. */
  function Refund(c: Config): nat
    requires WellFormed(c)
  {
    |Pool(c, 2)| + |Pool(c, 1)|
  }

  lemma {:induction false} BelowMonotone(c: Config, t: nat, u: nat)
    requires t <= u <= |c.tierModels| + 1
    ensures Below(c, t) <= Below(c, u)
    decreases u
  {
    if t < u && u > 1 {
      BelowMonotone(c, t, u - 1);
    }
  }

  /** The set of a sequence is no larger than the sequence. */
  lemma {:induction false} SetOfSeq(s: seq<ModelId>)
    ensures |set m | m in s| <= |s|
  {
    if s != [] {
      var front := s[..|s| - 1];
      SetOfSeq(front);
      assert (set m | m in s) == (set m | m in front) + {s[|s| - 1]} by {
        assert s == front + [s[|s| - 1]];
      }
    }
  }

  lemma SubsetCard(a: set<ModelId>, b: set<ModelId>)
    requires a <= b
    ensures |a| <= |b|
  {
    assert b == a + (b - a);
  }

  /** On a model of its own pool, a tier offers at most its pool. */
  lemma CandidatesWithinPool(c: Config, s: State)
    requires IsTier(c, s.tier) && s.model in Pool(c, s.tier)
    ensures |Candidates(c, s)| <= |Pool(c, s.tier)|
  {
    var all := set m | m in Pool(c, s.tier);
    SubsetCard(Candidates(c, s), all);
    SetOfSeq(Pool(c, s.tier));
  }

  /** Any move to a lower tier number, onto a model of its pool, costs at least one unit. */
  lemma EscalationSpends(c: Config, s: State, t: State)
    requires IsTier(c, s.tier) && IsTier(c, t.tier) && t.tier < s.tier && t.model in Pool(c, t.tier)
    ensures Potential(c, t) + 1 <= Potential(c, s)
  {
    CandidatesWithinPool(c, t);
    BelowMonotone(c, t.tier + 1, s.tier);
    assert s.model in Candidates(c, s);
  }

  /** A same-tier fallback drops the failed model for good. */
  lemma FallbackSpends(c: Config, s: State, t: State)
    requires IsTier(c, s.tier) && t.tier == s.tier && t.failed == s.failed + {s.model}
    requires t.model in Pool(c, t.tier) && t.model !in t.failed
    ensures Potential(c, t) + 1 <= Potential(c, s)
  {
    assert s.model !in Candidates(c, t);
    SubsetCard(Candidates(c, t) + {s.model}, Candidates(c, s));
  }

  lemma LoggingCounts(s: State, result: DispatchResult)
    ensures MainCalls(LogDispatch(s, result).dispatches) == MainCalls(s.dispatches) + 1
  {
    FilterSnoc(s.dispatches, Dispatch(s.model, s.tier, Main, result, s.capFellBack), IsMain());
  }

  lemma {:induction false} ParallelAreNotMain(ds: seq<Dispatch>)
    requires forall j :: 0 <= j < |ds| ==> ds[j].kind.Parallel?
    ensures MainCalls(ds) == 0
  {
    if ds != [] {
      ParallelAreNotMain(ds[..|ds| - 1]);
    }
  }

  lemma ParallelCounts(c: Config, s: State, i: Input)
    requires IsTier(c, s.tier)
    ensures MainCalls(LogParallel(c, s, i).dispatches) == MainCalls(s.dispatches)
  {
    var t := LogParallel(c, s, i);
    var batch := t.dispatches[|s.dispatches|..];
    assert t.dispatches == s.dispatches + batch;
    ParallelAreNotMain(batch);
    FilterAppend(s.dispatches, batch, IsMain());
  }

  lemma FailureSpends(c: Config, s: State, e: Exn, i: Input)
    requires WellFormed(c) && IsTier(c, s.tier)
    ensures var r := OnFailure(c, s, e, i);
      && MainCalls(r.s.dispatches) == MainCalls(s.dispatches) + 1
      && (r.Looping? ==> Potential(c, r.s) + 1 <= Potential(c, s))
  {
    hide Pool, Candidates, Below, OnFailure;
    LoggingCounts(s, Threw(e));
    var r := OnFailure(c, s, e, i);
    if r.Looping? {
      if r.s.tier < s.tier {
        EscalationSpends(c, s, r.s);
      } else {
        FallbackSpends(c, s, r.s);
      }
    }
  }

  lemma QualitySpends(c: Config, s: State, i: Input)
    requires WellFormed(c) && IsTier(c, s.tier)
    ensures var r := AfterQualityFailure(c, s, i);
      && MainCalls(r.s.dispatches) == MainCalls(s.dispatches)
      && (r.Looping? ==> Potential(c, r.s) + 1 <= Potential(c, s))
  {
    hide Pool, Candidates, Below, AfterQualityFailure;
    ParallelCounts(c, s, i);
    var r := AfterQualityFailure(c, s, i);
    if r.Looping? {
      EscalationSpends(c, s, r.s);
    }
  }

  lemma AnswerSpends(c: Config, s: State, check: Check, i: Input)
    requires WellFormed(c) && IsTier(c, s.tier)
    ensures var r := OnAnswer(c, s, check, i);
      && MainCalls(r.s.dispatches) == MainCalls(s.dispatches) + 1
      && (r.Looping? ==> Potential(c, r.s) + 1 <= Potential(c, s))
  {
    hide Pool, Below, MainCalls, AfterQualityFailure;
    LoggingCounts(s, Answered);
    var s1 := LogDispatch(s, Answered).(result := Some(Response(s.model, |s.dispatches|)), lastTier := Some(s.tier));
    if !check.Crash? && s.tier != 1 && !check.Pass? {
      var s2 := LogOutcome(s1.(qualityPassed := Some(check.Pass?)), s.tier, check.Pass?, s.escalated, |s.dispatches|);
      QualitySpends(c, s2, i);
      assert Candidates(c, s2) == Candidates(c, s);
    }
  }

  /** A denial falls back to tier 2 with at most the refund to spend. */
  lemma DenialRefunds(c: Config, s: State, i: Input)
    requires WellFormed(c) && IsTier(c, s.tier) && s.tier == 1 && !i.allowed
    ensures var d := Admit(c, s, i);
      Pool(c, 2) != [] ==> Potential(c, d) <= Refund(c)
  {
    var d := Admit(c, s, i);
    if Pool(c, 2) != [] {
      CandidatesWithinPool(c, d);
      assert Below(c, 2) == |Pool(c, 1)| + Below(c, 1);
    }
  }

  /** From the cold fallback into an empty tier 2 the loop can only go on in tier 1. */
  lemma ColdFallbackSpends(c: Config, d: State, t: State)
    requires WellFormed(c) && d.tier == 2 && Pool(c, 2) == [] && IsTier(c, t.tier) && t.tier <= 2 && t.model in Pool(c, t.tier)
    ensures Potential(c, t) <= Refund(c)
  {
    CandidatesWithinPool(c, t);
  }

  /** One pass makes exactly one main-loop call and spends at least one unit, after what a denial gave back. */
  lemma StepSpends(c: Config, s: State, i: Input)
    requires WellFormed(c) && IsTier(c, s.tier) && i.elapsed < c.budget
    ensures var r := Step(c, s, i);
      && MainCalls(r.s.dispatches) == MainCalls(s.dispatches) + 1
      && s.denials <= r.s.denials <= s.denials + 1
      && (r.Looping? ==>
            Potential(c, r.s) + 1 <= Potential(c, s) + if r.s.denials > s.denials then Refund(c) else 0)
  {
    var d := Admit(c, s, i);
    match i.call {
      case Returns(check) => AnswerSpends(c, d, check, i);
      case Throws(e) => FailureSpends(c, d, e, i);
    }
    var r := Step(c, s, i);
    if r.Looping? && r.s.denials > s.denials {
      assert s.model in Candidates(c, s);
      if Pool(c, 2) == [] {
        ColdFallbackSpends(c, d, r.s);
      } else {
        DenialRefunds(c, s, i);
      }
    }
  }

  ghost predicate Bounded(c: Config, allowance: nat, r: Status)
    requires WellFormed(c) && (r.Looping? ==> IsTier(c, r.s.tier))
  {
    && MainCalls(r.s.dispatches) <= allowance + Refund(c) * r.s.denials
    && (r.Looping? ==> MainCalls(r.s.dispatches) + Potential(c, r.s) <= allowance + Refund(c) * r.s.denials)
  }

  lemma SomethingLeft(c: Config, s: State)
    requires IsTier(c, s.tier)
    ensures Potential(c, s) >= 1
  {
    assert s.model in Candidates(c, s);
  }

  lemma Accounting(c: Config, allowance: nat, s: State, r: Status)
    requires WellFormed(c) && IsTier(c, s.tier) && (r.Looping? ==> IsTier(c, r.s.tier))
    requires Bounded(c, allowance, Looping(s))
    requires MainCalls(r.s.dispatches) == MainCalls(s.dispatches) + 1 && s.denials <= r.s.denials <= s.denials + 1
    requires r.Looping? ==>
      Potential(c, r.s) + 1 <= Potential(c, s) + if r.s.denials > s.denials then Refund(c) else 0
    ensures Bounded(c, allowance, r)
  {
    hide Pool, MainCalls, Candidates, Below;
    SomethingLeft(c, s);
    if r.s.denials > s.denials {
      assert Refund(c) * r.s.denials == Refund(c) * s.denials + Refund(c);
    }
  }

  lemma StepBounded(c: Config, allowance: nat, s: State, i: Input)
    requires WellFormed(c) && IsTier(c, s.tier) && Bounded(c, allowance, Looping(s))
    ensures Bounded(c, allowance, Step(c, s, i))
  {
    if i.elapsed < c.budget {
      hide Step, Bounded, Potential, Refund, MainCalls;
      StepSpends(c, s, i);
      Accounting(c, allowance, s, Step(c, s, i));
    } else {
      assert Step(c, s, i).s == s;
    }
  }

  /** Every run, whatever answers and clock: main-loop calls are bounded by the starting potential plus one
      refund per denial. */
  lemma {:induction false} CallsBounded(c: Config, pick: nat, ins: seq<Input>)
    requires WellFormed(c) && Start(c, pick).Looping?
    ensures Bounded(c, Potential(c, Trace(c, pick, []).s), Trace(c, pick, ins))
  {
    if ins == [] {
      assert MainCalls([]) == 0;
    } else {
      CallsBounded(c, pick, ins[..|ins| - 1]);
      var before := Trace(c, pick, ins[..|ins| - 1]);
      if before.Looping? {
        StepBounded(c, Potential(c, Trace(c, pick, []).s), before.s, ins[|ins| - 1]);
      }
    }
  }

  /** The starting potential is the pools from the starting tier down, plus one for a bandit model from outside
      its pool. */
  lemma StartingPotential(c: Config, pick: nat)
    requires WellFormed(c) && Start(c, pick).Looping?
    ensures var s0 := Trace(c, pick, []).s;
      Potential(c, s0) <= Limit(c, s0)
    ensures c.bandit.None? ==> var s0 := Trace(c, pick, []).s; s0.model in Pool(c, s0.tier)
  {
    var s0 := Trace(c, pick, []).s;
    if s0.model in Pool(c, s0.tier) {
      CandidatesWithinPool(c, s0);
    } else {
      var all := set m | m in Pool(c, s0.tier);
      SubsetCard(Candidates(c, s0), all + {s0.model});
      SetOfSeq(Pool(c, s0.tier));
    }
  }

  /** While the loop goes on, every pass has made one call. */
  lemma {:induction false} EveryPassCalls(c: Config, pick: nat, ins: seq<Input>)
    requires WellFormed(c) && Trace(c, pick, ins).Looping?
    ensures MainCalls(Trace(c, pick, ins).s.dispatches) == |ins|
  {
    if ins != [] {
      EveryPassCalls(c, pick, ins[..|ins| - 1]);
      var before := Trace(c, pick, ins[..|ins| - 1]);
      StepSpends(c, before.s, ins[|ins| - 1]);
    }
  }

  lemma WithoutDenials(c: Config, allowance: nat, r: Status)
    requires WellFormed(c) && (r.Looping? ==> IsTier(c, r.s.tier)) && Bounded(c, allowance, r) && r.s.denials == 0
    ensures MainCalls(r.s.dispatches) <= allowance
    ensures r.Looping? ==> MainCalls(r.s.dispatches) < allowance
  {
    hide Pool, MainCalls, Below;
    if r.Looping? {
      SomethingLeft(c, r.s);
    }
  }

  /** The capable models from the starting tier down, and one more for a bandit model from outside. */
  function Limit(c: Config, s0: State): nat
    requires IsTier(c, s0.tier)
  {
    Below(c, s0.tier + 1) + if s0.model in Pool(c, s0.tier) then 0 else 1
  }

  /** Without denials the loop ends by itself, before the clock matters: it makes at most as many main-loop
      calls as there are capable models from its starting tier down (one more for a bandit model from
      outside), and is over after that many passes. */
  lemma EndsWithoutDenials(c: Config, pick: nat, ins: seq<Input>)
    requires WellFormed(c) && Start(c, pick).Looping?
    ensures var limit := Limit(c, Trace(c, pick, []).s);
      Trace(c, pick, ins).s.denials == 0 ==>
        && MainCalls(Trace(c, pick, ins).s.dispatches) <= limit
        && (|ins| >= limit ==> !Trace(c, pick, ins).Looping?)
  {
    var s0 := Trace(c, pick, []).s;
    hide Trace, Start, Pool, Potential, Bounded, MainCalls;
    CallsBounded(c, pick, ins);
    StartingPotential(c, pick);
    if Trace(c, pick, ins).s.denials == 0 {
      WithoutDenials(c, Potential(c, s0), Trace(c, pick, ins));
      if Trace(c, pick, ins).Looping? {
        EveryPassCalls(c, pick, ins);
      }
    }
  }

  // ---------------------------------------------------------------------------
  // Denials and the clock
  // ---------------------------------------------------------------------------

  /** A pass that is denied the frontier and then fails in tier 2 with an error that is no provider error. */
  predicate DeniedAndFailing(c: Config, i: Input) {
    i.elapsed < c.budget && !i.allowed && i.call.Throws? && !IsProviderError(i.call.exn)
  }

  lemma DeniedAndFailingLoops(c: Config, s: State, i: Input)
    requires WellFormed(c) && s.tier == 1 && Pool(c, 1) != [] && GetNext(c, 2) == Some(1) && DeniedAndFailing(c, i)
    ensures var r := Step(c, s, i);
      r.Looping? && r.s.tier == 1 && r.s.denials == s.denials + 1 && r.s.escalations == s.escalations + 1
  {
    var d := Admit(c, s, i);
    assert SkipEmpty(c, 1) == 1;
    var r := OnFailure(c, d, i.call.exn, i);
    assert r == EscalateAfterFailure(c, LogFailure(d, i.call.exn), i.call.exn, IsSloTimeout(i.call.exn), |d.dispatches|, i.nextPick);
  }

  /** The flag set by a denial does not stop the loop from returning to tier 1 after an error: as long as the
      budget lasts, denied and failing passes go on without bound, past any limit on escalations. */
  lemma {:induction false} PingPong(c: Config, pick: nat, ins: seq<Input>)
    requires WellFormed(c) && c.bandit.None? && InitialTier(c) == 1 && Pool(c, 1) != [] && GetNext(c, 2) == Some(1)
    requires forall k :: 0 <= k < |ins| ==> DeniedAndFailing(c, ins[k])
    ensures var r := Trace(c, pick, ins);
      && r.Looping? && r.s.tier == 1
      && r.s.denials == r.s.escalations == MainCalls(r.s.dispatches) == |ins|
  {
    if ins != [] {
      PingPong(c, pick, ins[..|ins| - 1]);
      DeniedAndFailingLoops(c, Trace(c, pick, ins[..|ins| - 1]).s, ins[|ins| - 1]);
    }
    EveryPassCalls(c, pick, ins);
  }

  lemma {:induction false} FinishedStays(c: Config, pick: nat, ins: seq<Input>, k: nat)
    requires WellFormed(c) && k <= |ins| && !Trace(c, pick, ins[..k]).Looping?
    ensures Trace(c, pick, ins) == Trace(c, pick, ins[..k])
  {
    if k == |ins| {
      assert ins[..k] == ins;
    } else {
      assert ins[..|ins| - 1][..k] == ins[..k];
      FinishedStays(c, pick, ins[..|ins| - 1], k);
    }
  }

  /** Every run, with or without denials, is over at the first pass that finds the budget spent, and that pass
      calls no provider. */
  lemma BudgetEndsTheRun(c: Config, pick: nat, ins: seq<Input>, k: nat)
    requires WellFormed(c) && k < |ins| && ins[k].elapsed >= c.budget
    ensures var r := Trace(c, pick, ins);
      !r.Looping? && r.s.dispatches == Trace(c, pick, ins[..k]).s.dispatches
  {
    assert ins[..k + 1] == ins[..k] + [ins[k]];
    TraceSnoc(c, pick, ins[..k], ins[k]);
    FinishedStays(c, pick, ins, k + 1);
  }
}
