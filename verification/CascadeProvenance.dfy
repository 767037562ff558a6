/** Graceful degradation and provenance: what a held answer is, and what every exit reports. */
module CascadeProvenance {
  import opened Wrappers
  import opened Capabilities
  import opened Exceptions
  import opened Cascade
  import Aggregation

  predicate MainAnswer(d: Dispatch) { d.kind.Main? && d.result.Answered? }

  /** The held answer is the latest main-loop answer, and `lastTier` is the tier that gave it. */
  ghost predicate HoldsLatest(s: State) {
    && (s.result.None? <==> s.lastTier.None?)
    && (s.result.None? ==> forall j :: 0 <= j < |s.dispatches| ==> !MainAnswer(s.dispatches[j]))
    && (s.result.Some? ==>
          var o := s.result.value.origin;
          && o < |s.dispatches|
          && MainAnswer(s.dispatches[o])
          && s.dispatches[o].model == s.result.value.model
          && s.dispatches[o].tier == s.lastTier.value
          && forall j :: o < j < |s.dispatches| ==> !MainAnswer(s.dispatches[j]))
  }

  /** A denied frontier check has brought the request back to the tier 2 that gave the held answer. */
  predicate BackInTier2(s: State) { s.capFellBack && s.tier == 2 && s.lastTier == Some(2) }

  /** What holds every time the loop comes back to its head: the loop stands below the tier of a held answer, unless a
      denial has brought it back. */
  ghost predicate HeadInv(s: State) {
    && HoldsLatest(s)
    && (s.result.None? ==> s.qualityPassed.None?)
    && (s.result.Some? ==>
          s.qualityPassed == Some(false) && 2 <= s.lastTier.value
          && (s.tier < s.lastTier.value || BackInTier2(s)))
  }

  /** What every served request reports: `tier` is the reported tier, `result` the reported model. */
  ghost predicate ExitReport(c: Config, exit: Exit, s: State) {
    && s.result.Some?
    && s.result.value.origin < |s.dispatches|
    && IsTier(c, s.tier)
    && (var d := s.dispatches[s.result.value.origin];
        && d.model == s.result.value.model
        && d.result.Answered?
        && (d.kind.Parallel? <==> exit.Aggregated?)
        && (exit.BudgetExhausted? ==>
              s.tier <= d.tier && (s.tier == d.tier <==> s.capFellBack && s.tier == 2 && d.tier == 2))
        && (exit.PoolsExhausted? ==> s.tier < d.tier && Pool(c, s.tier) == [])
        && (!exit.BudgetExhausted? && !exit.PoolsExhausted? ==> s.tier == d.tier))
    && (!exit.Aggregated? ==> HoldsLatest(s))
    && s.qualityPassed.Some?
    && (s.qualityPassed == Some(true) ==> exit.QualityPassed? || exit.FrontierServed?)
    && (exit.QualityPassed? ==> s.qualityPassed == Some(true))
  }

  /** A request fails without a crash of the quality check only if no dispatch ever answered. */
  ghost predicate FailureReport(failure: Failure, s: State) {
    failure.CheckCrashed? || (s.result.None? && forall j :: 0 <= j < |s.dispatches| ==> !MainAnswer(s.dispatches[j]))
  }

  ghost predicate StatusInv(c: Config, r: Status) {
    match r
    case Looping(s) => HeadInv(s)
    case Served(exit, s) => ExitReport(c, exit, s)
    case Raised(failure, s) => FailureReport(failure, s)
  }

  /** After an answer has been logged. */
  ghost predicate JustAnswered(s: State) {
    && HoldsLatest(s) && s.result.Some? && s.lastTier == Some(s.tier) && s.qualityPassed.Some?
  }

  lemma ParallelKeepsLatest(c: Config, s: State, i: Input)
    requires IsTier(c, s.tier) && HoldsLatest(s)
    ensures HoldsLatest(LogParallel(c, s, i))
  {
    var cs := AggregationCandidates(c, s, i);
  }

  lemma AggregateReport(c: Config, s: State, i: Input, r: Aggregation.Result)
    requires WellFormed(c) && IsTier(c, s.tier) && s.qualityPassed == Some(false)
    requires Aggregation.Attempt(c.aggregation, s.tier, AggregationCandidates(c, s, i), i.replies) == Some(r)
    ensures StatusInv(c, AfterQualityFailure(c, s, i))
  {
    var cs := AggregationCandidates(c, s, i);
    Aggregation.AttemptLedger(c.aggregation, s.tier, cs, i.replies);
    var s1 := LogParallel(c, s, i);
    assert s1.dispatches[|s.dispatches| + r.winner] == Dispatch(cs[r.winner], s.tier, Parallel, Answered, s.capFellBack);
    assert AfterQualityFailure(c, s, i) == Served(Aggregated, ServeAggregate(s1, cs, r, i.replies, |s.dispatches|));
  }

  lemma AggregationReport(c: Config, s: State, i: Input)
    requires WellFormed(c) && IsTier(c, s.tier)
    requires JustAnswered(s) && s.tier >= 2 && s.qualityPassed == Some(false)
    ensures StatusInv(c, AfterQualityFailure(c, s, i))
  {
    var cs := AggregationCandidates(c, s, i);
    match Aggregation.Attempt(c.aggregation, s.tier, cs, i.replies)
    case Some(r) => AggregateReport(c, s, i, r);
    case None => ParallelKeepsLatest(c, s, i);
  }

  lemma AnswerReport(c: Config, s: State, check: Check, i: Input)
    requires WellFormed(c) && IsTier(c, s.tier)
    requires HoldsLatest(s)
    ensures StatusInv(c, OnAnswer(c, s, check, i))
  {
    var n := |s.dispatches|;
    var s1 := LogDispatch(s, Answered).(result := Some(Response(s.model, n)), lastTier := Some(s.tier));
    if !check.Crash? {
      var s2 := LogOutcome(s1.(qualityPassed := Some(check.Pass?)), s.tier, check.Pass?, s.escalated, n);
      assert s2.dispatches[n] == Dispatch(s.model, s.tier, Main, Answered, s.capFellBack);
      assert JustAnswered(s2);
      if s.tier != 1 && !check.Pass? {
        AggregationReport(c, s2, i);
      }
    }
  }

  lemma FailureKeepsAnswer(c: Config, s: State, e: Exn, i: Input)
    requires WellFormed(c) && IsTier(c, s.tier)
    requires HeadInv(s) && (s.result.Some? ==> IsTier(c, s.lastTier.value))
    ensures StatusInv(c, OnFailure(c, s, e, i))
  {
    hide Pool, SkipEmpty, Fallbacks;
    var s1 := LogDispatch(s, Threw(e));
    assert HeadInv(s1);
  }

  /** A denial moves the tier up from 1 to 2, which a held answer's tier still bounds. */
  lemma AdmitKeepsHead(c: Config, s: State, i: Input)
    requires WellFormed(c) && IsTier(c, s.tier) && HeadInv(s)
    ensures HeadInv(Admit(c, s, i)) && IsTier(c, Admit(c, s, i).tier)
  {
  }

  ghost predicate LastTierExists(c: Config, s: State) {
    s.lastTier.Some? ==> IsTier(c, s.lastTier.value)
  }

  lemma LastTierKept(c: Config, s: State, i: Input)
    requires WellFormed(c) && IsTier(c, s.tier) && LastTierExists(c, s)
    ensures var r := Step(c, s, i); r.Looping? ==> LastTierExists(c, r.s)
  {
  }

  lemma StepReport(c: Config, s: State, i: Input)
    requires WellFormed(c) && IsTier(c, s.tier)
    requires HeadInv(s) && LastTierExists(c, s)
    ensures StatusInv(c, Step(c, s, i))
  {
    if i.elapsed < c.budget {
      AdmitKeepsHead(c, s, i);
      var d := Admit(c, s, i);
      match i.call
      case Returns(check) => AnswerReport(c, d, check, i);
      case Throws(e) => FailureKeepsAnswer(c, d, e, i);
    }
  }

  /** Every run of the loop, of any length and against any provider: at the head a held answer is the latest
      one, failed its quality check, and comes from a tier above the current number, or from tier 2 with a denial
      having brought the request back there; a served request reports a model and tier of one dispatch on every exit
      but two: after a quality escalation into empty pools the reported tier is below the producing one, and on budget
      exhaustion too, unless a denial had brought the request back to the producing tier 2; a request fails only if
      no main-loop dispatch ever answered, or the quality check itself raised. */
  lemma {:induction false} RunReport(c: Config, pick: nat, ins: seq<Input>)
    requires WellFormed(c)
    ensures StatusInv(c, Trace(c, pick, ins))
    ensures Trace(c, pick, ins).Looping? ==> LastTierExists(c, Trace(c, pick, ins).s)
  {
    if ins != [] {
      var front, i := ins[..|ins| - 1], ins[|ins| - 1];
      RunReport(c, pick, front);
      var before := Trace(c, pick, front);
      if before.Looping? {
        StepReport(c, before.s, i);
        LastTierKept(c, before.s, i);
      }
    }
  }

  /** The dispatch log only grows, so an answer once received stays in it. */
  lemma {:induction false} TraceExtendsLog(c: Config, pick: nat, ins: seq<Input>, k: nat)
    requires WellFormed(c) && k <= |ins|
    ensures Trace(c, pick, ins[..k]).s.dispatches <= Trace(c, pick, ins).s.dispatches
  {
    if k == |ins| {
      assert ins[..k] == ins;
    } else {
      var front := ins[..|ins| - 1];
      TraceExtendsLog(c, pick, front, k);
      assert front[..k] == ins[..k];
    }
  }

  /** Graceful degradation: once some main-loop dispatch has answered, whatever happens afterwards the
      request never fails, short of a crash in the quality check. */
  lemma NeverFailsAfterAnAnswer(c: Config, pick: nat, ins: seq<Input>, k: nat, j: nat)
    requires WellFormed(c) && k <= |ins|
    ensures var before := Trace(c, pick, ins[..k]).s.dispatches;
      j < |before| && MainAnswer(before[j]) && Trace(c, pick, ins).Raised? ==> Trace(c, pick, ins).failure.CheckCrashed?
  {
    var before, now := Trace(c, pick, ins[..k]).s.dispatches, Trace(c, pick, ins).s.dispatches;
    TraceExtendsLog(c, pick, ins, k);
    RunReport(c, pick, ins);
    assert j < |before| ==> now[j] == before[j];
  }
}
