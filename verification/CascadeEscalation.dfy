/** What the escalation counter and flag say: about tiers, about recorded outcomes, and how far the limit reaches. */
module CascadeEscalation {
  import opened Wrappers
  import opened Capabilities
  import opened Exceptions
  import opened Cascade
  import Aggregation
  import Bounce = CascadeBounce

  /** An outcome is marked as escalated if its call failed, never if it was a parallel call, and otherwise, without
      denials, exactly if the call was made below the tier the request started on. */
  predicate MarkRight(s: State, start: nat, o: Outcome) {
    && o.dispatch < |s.dispatches|
    && (var d := s.dispatches[o.dispatch];
        && (d.kind.Parallel? ==> !o.escalated)
        && (d.kind.Main? && d.result.Threw? ==> o.escalated)
        && (d.kind.Main? && d.result.Answered? && s.denials == 0 ==> (o.escalated <==> o.tier < start)))
  }

  ghost predicate MarksRight(s: State, start: nat) {
    forall j :: 0 <= j < |s.outcomes| ==> MarkRight(s, start, s.outcomes[j])
  }

  ghost predicate Counted(s: State) { s.escalated <==> s.escalations > 0 }

  /** At the head of the loop. */
  ghost predicate HeadCount(s: State, start: nat) {
    && Counted(s) && MarksRight(s, start)
    && s.escalations + s.tier <= start + s.denials
    && (s.denials == 0 ==> s.tier <= start && (s.escalated <==> s.tier < start))
  }

  ghost predicate EscalationReport(r: Status, start: nat) {
    && Counted(r.s) && MarksRight(r.s, start)
    && r.s.escalations + 1 <= start + r.s.denials
    && (r.Looping? ==> HeadCount(r.s, start))
  }

  /** Longer logs and no new denial keep the marks. */
  lemma MarksKept(s: State, t: State, start: nat)
    requires MarksRight(s, start) && s.dispatches <= t.dispatches && t.outcomes == s.outcomes
    requires t.denials == 0 ==> s.denials == 0
    ensures MarksRight(t, start)
  {
    forall j | 0 <= j < |t.outcomes| ensures MarkRight(t, start, t.outcomes[j]) {
      assert MarkRight(s, start, s.outcomes[j]);
    }
  }

  lemma MarkAdded(s: State, start: nat, tier: nat, passed: bool, escalated: bool, dispatch: nat)
    requires MarksRight(s, start) && MarkRight(s, start, Outcome(s.model, tier, passed, escalated, dispatch))
    ensures MarksRight(LogOutcome(s, tier, passed, escalated, dispatch), start)
  {
    var t := LogOutcome(s, tier, passed, escalated, dispatch);
    forall j | 0 <= j < |t.outcomes| ensures MarkRight(t, start, t.outcomes[j]) {
      if j < |s.outcomes| {
        assert MarkRight(s, start, s.outcomes[j]);
      }
    }
  }

  lemma BatchMarks(c: Config, s: State, i: Input, start: nat, r: Aggregation.Result)
    requires IsTier(c, s.tier) && MarksRight(s, start)
    requires Aggregation.Attempt(c.aggregation, s.tier, AggregationCandidates(c, s, i), i.replies) == Some(r)
    ensures MarksRight(AfterQualityFailure(c, s, i).s, start)
  {
    hide AggregationCandidates;
    var cs, base, s1 := AggregationCandidates(c, s, i), |s.dispatches|, LogParallel(c, s, i);
    Aggregation.AttemptLedger(c.aggregation, s.tier, cs, i.replies);
    hide Aggregation.Attempt, Aggregation.FirstPassing;
    var t := ServeAggregate(s1, cs, r, i.replies, base);
    assert AfterQualityFailure(c, s, i) == Served(Aggregated, t);
    forall j | 0 <= j < |t.outcomes| ensures MarkRight(t, start, t.outcomes[j]) {
      if j < |s.outcomes| {
        assert MarkRight(s, start, s.outcomes[j]);
      }
    }
  }

  lemma QualityFailureCount(c: Config, s: State, i: Input, start: nat)
    requires IsTier(c, s.tier) && HeadCount(s, start)
    ensures EscalationReport(AfterQualityFailure(c, s, i), start)
  {
    match Aggregation.Attempt(c.aggregation, s.tier, AggregationCandidates(c, s, i), i.replies)
    case Some(r) => BatchMarks(c, s, i, start, r);
    case None =>
      var s1, r := LogParallel(c, s, i), AfterQualityFailure(c, s, i);
      hide Pool, AggregationCandidates, Aggregation.Attempt, LogParallel;
      MarksKept(s, r.s, start);
  }

  lemma AnswerCount(c: Config, s: State, check: Check, i: Input, start: nat)
    requires IsTier(c, s.tier) && HeadCount(s, start)
    ensures EscalationReport(OnAnswer(c, s, check, i), start)
  {
    var n := |s.dispatches|;
    var s1 := LogDispatch(s, Answered).(result := Some(Response(s.model, n)), lastTier := Some(s.tier));
    MarksKept(s, s1, start);
    if !check.Crash? {
      var s2 := s1.(qualityPassed := Some(check.Pass?));
      MarkAdded(s2, start, s.tier, check.Pass?, s.escalated, n);
      if s.tier != 1 && !check.Pass? {
        QualityFailureCount(c, LogOutcome(s2, s.tier, check.Pass?, s.escalated, n), i, start);
      }
    }
  }

  lemma FailureMarks(s: State, t: State, start: nat, tier: nat, dispatch: nat)
    requires MarksRight(s, start) && dispatch < |s.dispatches|
    requires s.dispatches[dispatch].kind.Main? && s.dispatches[dispatch].result.Threw?
    requires t.dispatches == s.dispatches && t.denials == s.denials
    requires t.outcomes == s.outcomes || t.outcomes == s.outcomes + [Outcome(s.model, tier, false, true, dispatch)]
    ensures MarksRight(t, start)
  {
    forall j | 0 <= j < |t.outcomes| ensures MarkRight(t, start, t.outcomes[j]) {
      if j < |s.outcomes| {
        assert MarkRight(s, start, s.outcomes[j]);
      }
    }
  }

  /** What a failure does to the logs and the counters. */
  ghost predicate FailureShape(s: State, r: Status, dispatch: nat) {
    && r.s.dispatches == s.dispatches && r.s.denials == s.denials
    && (r.s.outcomes == s.outcomes || r.s.outcomes == s.outcomes + [Outcome(s.model, s.tier, false, true, dispatch)])
    && (if r.Looping? && r.s.tier != s.tier then
          r.s.tier < s.tier && r.s.escalated && r.s.escalations == s.escalations + 1
        else r.s.escalated == s.escalated && r.s.escalations == s.escalations)
  }

  lemma EscalationHasShape(c: Config, s: State, e: Exn, recorded: bool, dispatch: nat, pick: nat)
    requires IsTier(c, s.tier)
    ensures FailureShape(s, EscalateAfterFailure(c, s, e, recorded, dispatch, pick), dispatch)
  {
    hide Pool, SkipEmpty, Choose;
  }

  lemma ProviderErrorHasShape(c: Config, s: State, e: Exn, dispatch: nat, pick: nat)
    requires IsTier(c, s.tier)
    ensures FailureShape(s, AfterProviderError(c, s, e, dispatch, pick), dispatch)
  {
    hide Pool, Fallbacks, Choose, EscalateAfterFailure;
    EscalationHasShape(c, s.(failed := s.failed + {s.model}), e, IsSloTimeout(e), dispatch, pick);
  }

  lemma FailureHasShape(c: Config, s: State, e: Exn, i: Input)
    requires IsTier(c, s.tier)
    ensures FailureShape(LogFailure(s, e), OnFailure(c, s, e, i), |s.dispatches|)
  {
    hide AfterProviderError, EscalateAfterFailure, FailureShape;
    var s1, n := LogFailure(s, e), |s.dispatches|;
    EscalationHasShape(c, s1, e, IsSloTimeout(e), n, i.nextPick);
    ProviderErrorHasShape(c, s1, e, n, i.nextPick);
  }

  lemma FailureCount(c: Config, s: State, e: Exn, i: Input, start: nat)
    requires IsTier(c, s.tier) && HeadCount(s, start)
    ensures EscalationReport(OnFailure(c, s, e, i), start)
  {
    var n := |s.dispatches|;
    var s1, s2, r := LogDispatch(s, Threw(e)), LogFailure(s, e), OnFailure(c, s, e, i);
    FailureHasShape(c, s, e, i);
    hide OnFailure;
    MarksKept(s, s1, start);
    FailureMarks(s1, s2, start, s.tier, n);
    hide MarksRight;
    FailureMarks(s2, r.s, start, s.tier, n);
  }

  lemma StepCount(c: Config, s: State, i: Input, start: nat)
    requires WellFormed(c) && IsTier(c, s.tier) && HeadCount(s, start)
    ensures EscalationReport(Step(c, s, i), start)
  {
    if i.elapsed < c.budget {
      var d := Admit(c, s, i);
      MarksKept(s, d, start);
      match i.call
      case Returns(check) => AnswerCount(c, d, check, i, start);
      case Throws(e) => FailureCount(c, d, e, i, start);
    }
  }

  /** Every run: the flag says whether anything was escalated; escalations are at most the tiers above the starting one
      plus the denials; and every recorded outcome is marked right. */
  lemma {:induction false} RunEscalations(c: Config, pick: nat, ins: seq<Input>)
    requires WellFormed(c) && Start(c, pick).Looping?
    ensures EscalationReport(Trace(c, pick, ins), Trace(c, pick, []).s.tier)
  {
    var start := Trace(c, pick, []).s.tier;
    if ins == [] {
      assert Trace(c, pick, ins) == Start(c, pick);
    } else {
      var front := ins[..|ins| - 1];
      RunEscalations(c, pick, front);
      var before := Trace(c, pick, front);
      if before.Looping? {
        StepCount(c, before.s, ins[|ins| - 1], start);
      }
    }
  }

  /** Escalation from this tier finds one above with capable models. */
  predicate CanClimb(c: Config, tier: nat)
    requires IsTier(c, tier)
  {
    var next := GetNext(c, tier); next.Some? && Pool(c, SkipEmpty(c, next.value)) != []
  }

  /** No parallel answer replaces the one of this call. */
  predicate NoWinner(c: Config, d: State, i: Input)
    requires IsTier(c, d.tier)
  {
    var cs := AggregationCandidates(c, d, i);
    Aggregation.Runs(c.aggregation, d.tier, cs) ==> forall k :: 0 <= k < |cs| ==> !i.replies(cs[k]).Passes()
  }

  lemma QualityFailureClimbs(c: Config, s: State, i: Input)
    requires IsTier(c, s.tier)
    ensures var r := AfterQualityFailure(c, s, i);
      && (r.Looping? <==> NoWinner(c, s, i) && s.escalations < c.maxEscalations && !(s.tier == 2 && s.capFellBack)
                          && CanClimb(c, s.tier))
      && (r.Looping? ==> r.s.escalations == s.escalations + 1)
  {
    hide Pool, AggregationCandidates, SkipEmpty, ServeAggregate;
    Aggregation.AttemptLedger(c.aggregation, s.tier, AggregationCandidates(c, s, i), i.replies);
    ParallelKeepsCount(c, s, i);
    hide LogParallel, Aggregation.Attempt, Aggregation.Runs;
  }

  /** What follows an answer: at the frontier it is served, passed or not; elsewhere it is served if it passed. Otherwise
      the aggregation's candidates are called in parallel if it runs, and nobody else is. */
  lemma AnswerEnds(c: Config, s: State, i: Input)
    requires WellFormed(c) && IsTier(c, s.tier) && i.elapsed < c.budget && i.call.Returns? && !i.call.check.Crash?
    ensures var d, r, n := Admit(c, s, i), Step(c, s, i), |s.dispatches| + 1;
      && (d.tier == 1 ==> r.Served? && r.exit.FrontierServed?)
      && (d.tier >= 2 && i.call.check.Pass? ==> r.Served? && r.exit.QualityPassed?)
      && (d.tier == 1 || i.call.check.Pass? ==> |r.s.dispatches| == n)
      && (d.tier >= 2 && i.call.check.Reject? ==>
            var cs := AggregationCandidates(c, d, i);
            && !(r.Served? && (r.exit.FrontierServed? || r.exit.QualityPassed?))
            && |r.s.dispatches| == n + (if Aggregation.Runs(c.aggregation, d.tier, cs) then |cs| else 0)
            && forall k :: n <= k < |r.s.dispatches| ==> r.s.dispatches[k].model == cs[k - n])
  {
    hide Pool, AfterQualityFailure, LogParallel, Aggregation.Runs;
    var d, n, check := Admit(c, s, i), |s.dispatches|, i.call.check;
    var s1 := LogDispatch(d, Answered).(result := Some(Response(d.model, n)), lastTier := Some(d.tier));
    var s2 := LogOutcome(s1.(qualityPassed := Some(check.Pass?)), d.tier, check.Pass?, d.escalated, n);
    if d.tier >= 2 && check.Reject? {
      BatchOfCandidates(c, s2, i);
      assert AggregationCandidates(c, s2, i) == AggregationCandidates(c, d, i);
      assert Step(c, s, i) == AfterQualityFailure(c, s2, i);
      RejectedIsNotServed(c, s2, i);
    }
  }

  lemma BatchOfCandidates(c: Config, s: State, i: Input)
    requires IsTier(c, s.tier)
    ensures var cs, t, n := AggregationCandidates(c, s, i), LogParallel(c, s, i), |s.dispatches|;
      && |t.dispatches| == n + (if Aggregation.Runs(c.aggregation, s.tier, cs) then |cs| else 0)
      && forall k :: n <= k < |t.dispatches| ==> t.dispatches[k].model == cs[k - n]
  {
    hide AggregationCandidates;
  }

  lemma RejectedIsNotServed(c: Config, s: State, i: Input)
    requires IsTier(c, s.tier)
    ensures var r := AfterQualityFailure(c, s, i); !(r.Served? && (r.exit.FrontierServed? || r.exit.QualityPassed?))
  {
    hide Pool, AggregationCandidates, LogParallel, SkipEmpty, Aggregation.Attempt, ServeAggregate;
  }

  /** An answer escalates exactly if it was given below the frontier and rejected, no parallel answer replaces it, the
      limit is not reached, a tier above has capable models, and it is not the answer of tier 2 after a denial. */
  lemma QualityEscalatesIff(c: Config, s: State, i: Input)
    requires WellFormed(c) && IsTier(c, s.tier) && i.elapsed < c.budget && i.call.Returns?
    ensures var d, r := Admit(c, s, i), Step(c, s, i);
      && (r.Looping? <==>
            && i.call.check.Reject? && d.tier >= 2 && NoWinner(c, d, i) && s.escalations < c.maxEscalations
            && !(d.tier == 2 && d.capFellBack) && CanClimb(c, d.tier))
      && (r.Looping? ==> r.s.escalations == s.escalations + 1)
  {
    hide Pool, AfterQualityFailure, NoWinner, CanClimb;
    var d, n, check := Admit(c, s, i), |s.dispatches|, i.call.check;
    var s1 := LogDispatch(d, Answered).(result := Some(Response(d.model, n)), lastTier := Some(d.tier));
    var s2 := LogOutcome(s1.(qualityPassed := Some(check.Pass?)), d.tier, check.Pass?, d.escalated, n);
    QualityFailureClimbs(c, s2, i);
    assert NoWinner(c, s2, i) == NoWinner(c, d, i) by {
      SameCandidates(c, d, s2, i);
    }
  }

  lemma SameCandidates(c: Config, s: State, t: State, i: Input)
    requires IsTier(c, s.tier) && s.tier == t.tier && s.model == t.model
    ensures NoWinner(c, s, i) == NoWinner(c, t, i)
  {
  }

  lemma ErrorClimbs(c: Config, s: State, e: Exn, i: Input)
    requires IsTier(c, s.tier)
    ensures OnFailure(c, s, e, i).s.escalations > s.escalations <==> Bounce.NoFallbackLeft(c, s, e) && CanClimb(c, s.tier)
  {
    hide Pool, Fallbacks, SkipEmpty;
    assert s.tier == 1 ==> GetNext(c, s.tier).None?;
  }

  lemma AnswerClimbsBelowLimit(c: Config, s: State, check: Check, i: Input)
    requires IsTier(c, s.tier) && s.escalations >= c.maxEscalations
    ensures OnAnswer(c, s, check, i).s.escalations == s.escalations
  {
    hide Pool, LogParallel, AggregationCandidates;
    var s1 := LogDispatch(s, Answered).(result := Some(Response(s.model, |s.dispatches|)), lastTier := Some(s.tier));
    ParallelKeepsCount(
      c, LogOutcome(s1.(qualityPassed := Some(check.Pass?)), s.tier, check.Pass?, s.escalated, |s.dispatches|), i);
  }

  /** Once the limit is reached, the counter passes it exactly if the call throws, no other model of the tier is left
      for its error, and a tier above has capable models. */
  lemma LimitIsPassedIff(c: Config, s: State, i: Input)
    requires WellFormed(c) && IsTier(c, s.tier) && i.elapsed < c.budget && s.escalations >= c.maxEscalations
    ensures var d := Admit(c, s, i);
      Step(c, s, i).s.escalations > s.escalations <==> Bounce.GivesUpTier(c, d, i) && CanClimb(c, d.tier)
  {
    var d := Admit(c, s, i);
    assert d.escalations == s.escalations;
    match i.call
    case Returns(check) => AnswerClimbsBelowLimit(c, d, check, i);
    case Throws(e) => ErrorClimbs(c, d, e, i);
  }

  lemma ParallelKeepsCount(c: Config, s: State, i: Input)
    requires IsTier(c, s.tier)
    ensures LogParallel(c, s, i).escalations == s.escalations
  {
  }
}
