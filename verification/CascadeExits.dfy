/** Runs that end on the two exits where the reported tier is not the one that produced the answer. */
module CascadeExits {
  import opened Wrappers
  import opened Sequences
  import opened Capabilities
  import opened Exceptions
  import opened Cascade
  import opened CascadeProvenance
  import Aggregation
  import Path = CascadePath

  /** An answer that is rejected, with every parallel call failing. */
  function Rejected(): Input {
    Input(0.0, true, 0, Returns(Aggregation.Reject), 0, cs => [], m => Aggregation.Failed)
  }

  /** A denied frontier check, then a provider error. */
  function DeniedThenLimited(): Input {
    Input(0.0, false, 0, Throws(Exn("RateLimitError", false, false)), 0, cs => [], m => Aggregation.Failed)
  }

  /** A pass that finds the budget spent. */
  function Late(c: Config): Input {
    Input(c.budget, true, 0, Returns(Aggregation.Reject), 0, cs => [], m => Aggregation.Failed)
  }

  /** A request that a rejected first answer can escalate from tier 2 or a cheaper one. */
  predicate CanEscalate(c: Config, pick: nat)
    requires WellFormed(c)
  {
    var start := Start(c, pick);
    && c.budget > 0.0 && c.maxEscalations > 0
    && start.Looping? && start.s.tier >= 2 && GetNext(c, start.s.tier).Some?
  }

  /** The tier in which such an escalation ends. */
  function EscalatesTo(c: Config, pick: nat): (t: nat)
    requires WellFormed(c) && CanEscalate(c, pick)
    ensures IsTier(c, t) && t < Start(c, pick).s.tier
  {
    assert Trace(c, pick, []) == Start(c, pick);
    SkipEmpty(c, GetNext(c, Start(c, pick).s.tier).value)
  }

  lemma StartIsFresh(c: Config, pick: nat)
    requires WellFormed(c) && Start(c, pick).Looping?
    ensures var s := Start(c, pick).s;
      IsTier(c, s.tier) && s.escalations == 0 && !s.capFellBack && s.result.None? && s.failed == {}
  {
    assert Trace(c, pick, []) == Start(c, pick);
  }

  lemma ParallelAllFail(c: Config, s: State)
    requires IsTier(c, s.tier)
    ensures Aggregation.Attempt(c.aggregation, s.tier, AggregationCandidates(c, s, Rejected()), Rejected().replies).None?
    ensures var t := LogParallel(c, s, Rejected()); t == s.(dispatches := t.dispatches)
  {
  }

  /** The first pass rejects an answer of the starting tier, and escalates or finds only empty pools. */
  lemma FirstRejection(c: Config, pick: nat)
    requires WellFormed(c) && CanEscalate(c, pick)
    ensures var t, r := EscalatesTo(c, pick), Trace(c, pick, [Rejected()]);
      && r.s.result.Some? && r.s.lastTier == Some(Start(c, pick).s.tier) && !r.s.capFellBack && r.s.failed == {}
      && r.s.tier == t && r == if Pool(c, t) == [] then Served(PoolsExhausted, r.s) else Looping(r.s)
  {
    StartIsFresh(c, pick);
    var s, i := Start(c, pick).s, Rejected();
    TraceSnoc(c, pick, [], i);
    assert [] + [i] == [i];
    var n := |s.dispatches|;
    var s1 := LogDispatch(s, Answered).(result := Some(Response(s.model, n)), lastTier := Some(s.tier));
    var s2 := LogOutcome(s1.(qualityPassed := Some(false)), s.tier, false, s.escalated, n);
    ParallelAllFail(c, s2);
    hide Start, Pool, AggregationCandidates, Aggregation.Attempt, LogParallel, SkipEmpty;
    assert Step(c, s, i) == OnAnswer(c, s, Aggregation.Reject, i) == AfterQualityFailure(c, s2, i);
  }

  lemma ThenLate(c: Config, pick: nat, ins: seq<Input>)
    requires WellFormed(c) && Trace(c, pick, ins).Looping? && Trace(c, pick, ins).s.result.Some?
    ensures Trace(c, pick, ins + [Late(c)]) == Served(BudgetExhausted, Trace(c, pick, ins).s)
  {
    TraceSnoc(c, pick, ins, Late(c));
  }

  /** The run ends on this exit, reporting a tier below the one that produced the answer. */
  ghost predicate ReportsBelow(c: Config, pick: nat, ins: seq<Input>, exit: Exit)
    requires WellFormed(c)
  {
    var r := Trace(c, pick, ins);
    && r.Served? && r.exit == exit && r.s.result.Some? && r.s.result.value.origin < |r.s.dispatches|
    && r.s.tier < r.s.dispatches[r.s.result.value.origin].tier
  }

  /** For every request whose first answer can be escalated, the mismatch occurs: if the tiers above have no capable
      model, a single rejected answer ends in empty pools, and otherwise a rejected answer and a spent budget end there. */
  lemma MismatchOccurs(c: Config, pick: nat)
    requires WellFormed(c) && CanEscalate(c, pick)
    ensures Pool(c, EscalatesTo(c, pick)) == [] ==> ReportsBelow(c, pick, [Rejected()], PoolsExhausted)
    ensures Pool(c, EscalatesTo(c, pick)) != [] ==> ReportsBelow(c, pick, [Rejected()] + [Late(c)], BudgetExhausted)
  {
    FirstRejection(c, pick);
    if Pool(c, EscalatesTo(c, pick)) == [] {
      RunReport(c, pick, [Rejected()]);
      hide Trace, Pool, EscalatesTo, HoldsLatest, CanEscalate, Rejected;
    } else {
      ThenLate(c, pick, [Rejected()]);
      RunReport(c, pick, [Rejected()] + [Late(c)]);
      hide Trace, Pool, EscalatesTo, HoldsLatest, CanEscalate, Rejected, Late;
    }
  }

  /** A tier 2 with a second model to fall back to. */
  predicate HasSpare(c: Config)
    requires WellFormed(c)
  {
    |Pool(c, 2)| >= 2 && c.learning.avoid == {} && c.learning.hardAvoid == {}
  }

  lemma SpareIsLeft(c: Config, m: ModelId)
    requires WellFormed(c) && HasSpare(c)
    ensures Fallbacks(c, 2, {m}) != []
  {
    FilterSoundness(c.catalog, c.tierModels[1], EffectiveNeeds(c));
    FilterMembers(Pool(c, 2), NotExcluded({m}, c.learning));
    var pool := Pool(c, 2);
    assert pool[0] != pool[1];
    var spare := if pool[0] == m then pool[1] else pool[0];
    assert spare in pool && NotExcluded({m}, c.learning)(spare);
    assert spare in Fallbacks(c, 2, {m});
  }

  lemma FailsOver(c: Config, s: State, e: Exn, dispatch: nat, pick: nat)
    requires WellFormed(c) && HasSpare(c) && s.tier == 2 && s.failed == {}
    ensures var r := AfterProviderError(c, s, e, dispatch, pick); r.Looping? && r.s.tier == 2
  {
    SpareIsLeft(c, s.model);
    hide Pool, Fallbacks;
    assert s.failed + {s.model} == {s.model};
  }

  lemma DeniedFallsBack(c: Config, s: State)
    requires WellFormed(c) && HasSpare(c) && c.budget > 0.0 && s.tier == 1 && s.failed == {}
    ensures var r := Step(c, s, DeniedThenLimited());
      && r.Looping? && r.s.tier == 2 && r.s.capFellBack && r.s.result == s.result && r.s.lastTier == s.lastTier
  {
    var i := DeniedThenLimited();
    var d, e := Admit(c, s, i), i.call.exn;
    var s1 := LogFailure(d, e);
    assert s1.tier == 2 && s1.failed == {} && IsProviderError(e);
    FailsOver(c, s1, e, |d.dispatches|, 0);
    assert Step(c, s, i) == OnFailure(c, d, e, i) == AfterProviderError(c, s1, e, |d.dispatches|, 0);
    hide Pool, Fallbacks, AfterProviderError, OnFailure;
    assert SameAnswer(LogDispatch(d, Threw(e)), OnFailure(c, d, e, i).s);
  }

  /** The exception to the mismatch occurs too: a request that starts in tier 2 with an open frontier and a spare model
      is rejected, denied the frontier, fails over in tier 2, and then reports the tier that produced its answer. */
  lemma BackInTier2Occurs(c: Config, pick: nat)
    requires WellFormed(c) && CanEscalate(c, pick) && HasSpare(c)
    requires Start(c, pick).s.tier == 2 && Pool(c, 1) != []
    ensures var r := Trace(c, pick, [Rejected()] + [DeniedThenLimited()] + [Late(c)]);
      && r.Served? && r.exit == BudgetExhausted && r.s.capFellBack
      && r.s.result.Some? && r.s.result.value.origin < |r.s.dispatches|
      && r.s.tier == r.s.dispatches[r.s.result.value.origin].tier == 2
  {
    FirstRejection(c, pick);
    assert EscalatesTo(c, pick) == 1 by {
      assert GetNext(c, 2).value == 1 && SkipEmpty(c, 1) == 1;
    }
    DeniedFallsBack(c, Trace(c, pick, [Rejected()]).s);
    TraceSnoc(c, pick, [Rejected()], DeniedThenLimited());
    hide Step, Start, Rejected, DeniedThenLimited, CanEscalate;
    ThenLate(c, pick, [Rejected()] + [DeniedThenLimited()]);
    RunReport(c, pick, [Rejected()] + [DeniedThenLimited()] + [Late(c)]);
    hide Trace, Late;
  }

  // ---------------------------------------------------------------------------
  // Which requests can report a mismatch
  // ---------------------------------------------------------------------------

  /** A rejected answer cannot be escalated from here. */
  predicate Stuck(c: Config, d: State)
    requires IsTier(c, d.tier)
  {
    var next := GetNext(c, d.tier);
    d.tier == 1 || d.escalations >= c.maxEscalations || next.None? || (next.value == 1 && d.capFellBack)
  }

  lemma ParallelKeepsRest(c: Config, s: State, i: Input)
    requires IsTier(c, s.tier)
    ensures var t := LogParallel(c, s, i); t == s.(dispatches := t.dispatches)
  {
  }

  lemma StuckAnswers(c: Config, d: State, check: Check, i: Input)
    requires IsTier(c, d.tier) && Stuck(c, d)
    ensures var r := OnAnswer(c, d, check, i); !r.Looping? && !Mismatching(r)
  {
    var s1 := LogDispatch(d, Answered).(result := Some(Response(d.model, |d.dispatches|)), lastTier := Some(d.tier));
    var s2 := LogOutcome(s1.(qualityPassed := Some(check.Pass?)), d.tier, check.Pass?, d.escalated, |d.dispatches|);
    ParallelKeepsRest(c, s2, i);
    hide Pool, LogParallel, AggregationCandidates, ServeAggregate, SkipEmpty;
  }

  /** Served on one of the two exits that can report a tier other than the producing one. */
  predicate Mismatching(r: Status) { r.Served? && (r.exit.BudgetExhausted? || r.exit.PoolsExhausted?) }

  lemma UnansweredFails(c: Config, d: State, e: Exn, i: Input)
    requires IsTier(c, d.tier) && d.result.None?
    ensures var r := OnFailure(c, d, e, i); r.s.result.None? && !r.Served?
  {
    hide Pool, Fallbacks, SkipEmpty;
    assert SameAnswer(LogDispatch(d, Threw(e)), OnFailure(c, d, e, i).s);
  }

  /** The request can escalate a rejected first answer, the clock aside. */
  predicate Escalatable(c: Config, start: nat)
    requires IsTier(c, start)
  {
    c.maxEscalations > 0 && start >= 2 && GetNext(c, start).Some?
  }

  /** A run of a request that cannot is stuck at every head. */
  lemma HeadsAreStuck(c: Config, start: nat, d: State)
    requires WellFormed(c) && IsTier(c, d.tier) && IsTier(c, start)
    requires Path.TierInv(c, start, d) && Path.LowAfterDenial(d) && !Escalatable(c, start)
    ensures Stuck(c, d)
  {
    hide Path.Descending;
    assert Path.InRange(c, start, d.tier, d.capFellBack);
    if start >= 2 && GetNext(c, start).None? {
      assert Path.Floor(c, start) == start;
    }
  }

  lemma StuckStep(c: Config, s: State, i: Input)
    requires WellFormed(c) && IsTier(c, s.tier) && s.result.None? && Stuck(c, Admit(c, s, i))
    ensures var r := Step(c, s, i); !Mismatching(r) && (r.Looping? ==> r.s.result.None?)
  {
    if i.elapsed < c.budget {
      var d := Admit(c, s, i);
      match i.call
      case Returns(check) => StuckAnswers(c, d, check, i);
      case Throws(e) => UnansweredFails(c, d, e, i);
    }
  }

  lemma {:induction false} StuckRun(c: Config, pick: nat, ins: seq<Input>)
    requires WellFormed(c) && Start(c, pick).Looping?
    requires IsTier(c, Start(c, pick).s.tier) && !Escalatable(c, Start(c, pick).s.tier)
    ensures var r := Trace(c, pick, ins); !Mismatching(r) && (r.Looping? ==> r.s.result.None?)
  {
    if ins == [] {
      assert Trace(c, pick, ins) == Start(c, pick);
    } else {
      var front, i := ins[..|ins| - 1], ins[|ins| - 1];
      StuckRun(c, pick, front);
      var before, start := Trace(c, pick, front), Start(c, pick).s.tier;
      if before.Looping? {
        Path.RunTiers(c, pick, front);
        hide Start, Stuck, Escalatable, Step, Path.LogInRange, Path.UnansweredSinceDenial;
        Path.AdmitKeepsTiers(c, start, before.s, i);
        AdmitStaysLow(c, before.s, i);
        HeadsAreStuck(c, start, Admit(c, before.s, i));
        hide Path.TierInv;
        StuckStep(c, before.s, i);
      }
    }
  }

  lemma AdmitStaysLow(c: Config, s: State, i: Input)
    requires WellFormed(c) && IsTier(c, s.tier) && Path.LowAfterDenial(s)
    ensures Path.LowAfterDenial(Admit(c, s, i)) && IsTier(c, Admit(c, s, i).tier)
  {
  }

  /** Without time no pass answers. */
  lemma {:induction false} NoTime(c: Config, pick: nat, ins: seq<Input>)
    requires WellFormed(c) && Start(c, pick).Looping? && c.budget <= 0.0 && Clocked(ins)
    ensures !Trace(c, pick, ins).Served? && Trace(c, pick, ins).s.result.None?
  {
    if ins == [] {
      assert Trace(c, pick, ins) == Start(c, pick);
    } else {
      NoTime(c, pick, ins[..|ins| - 1]);
    }
  }

  /** The clock starts at zero. */
  ghost predicate Clocked(ins: seq<Input>) { forall k :: 0 <= k < |ins| ==> ins[k].elapsed >= 0.0 }

  /** The run reports a tier that did not produce its answer. */
  ghost predicate ReportsOther(r: Status) {
    r.Served? && r.s.result.Some? && r.s.result.value.origin < |r.s.dispatches|
    && r.s.tier != r.s.dispatches[r.s.result.value.origin].tier
  }

  lemma OtherIsMismatching(c: Config, pick: nat, ins: seq<Input>)
    requires WellFormed(c)
    ensures ReportsOther(Trace(c, pick, ins)) ==> Mismatching(Trace(c, pick, ins))
  {
    RunReport(c, pick, ins);
    var r := Trace(c, pick, ins);
    hide Trace, Pool, HoldsLatest;
  }

  /** A request can report a tier that did not produce its answer exactly if its first answer can be escalated: it has
      time and escalations, starts above tier 1 in number, and its memory cap lets that tier escalate. */
  lemma CanMismatchIff(c: Config, pick: nat)
    requires WellFormed(c) && Start(c, pick).Looping?
    ensures (exists ins :: Clocked(ins) && ReportsOther(Trace(c, pick, ins))) <==> CanEscalate(c, pick)
  {
    StartIsFresh(c, pick);
    if CanEscalate(c, pick) {
      MismatchOccurs(c, pick);
      var short, long := [Rejected()], [Rejected()] + [Late(c)];
      assert Clocked(short) && Clocked(long);
      hide Trace, Start, EscalatesTo, Pool, Rejected, Late;
      assert ReportsOther(Trace(c, pick, short)) || ReportsOther(Trace(c, pick, long));
    } else {
      forall ins | Clocked(ins) ensures !ReportsOther(Trace(c, pick, ins)) {
        NeverMismatches(c, pick, ins);
      }
    }
  }

  lemma NeverMismatches(c: Config, pick: nat, ins: seq<Input>)
    requires WellFormed(c) && Start(c, pick).Looping? && !CanEscalate(c, pick) && Clocked(ins)
    ensures !ReportsOther(Trace(c, pick, ins))
  {
    StartIsFresh(c, pick);
    if c.budget <= 0.0 {
      NoTime(c, pick, ins);
    } else {
      StuckRun(c, pick, ins);
      OtherIsMismatching(c, pick, ins);
    }
    hide Trace, Start, Mismatching;
  }
}
