/** What happens to a call that fails: which other models of its tier are tried, and which never are. */
module CascadeFallbacks {
  import opened Wrappers
  import Sequences
  import opened Capabilities
  import opened Exceptions
  import opened Cascade
  import Aggregation
  import Path = CascadePath

  /** Another model of the tier that may be tried after the call of `d.model`. */
  predicate Spare(c: Config, d: State, m: ModelId)
    requires IsTier(c, d.tier)
  {
    && m in Pool(c, d.tier) && m != d.model && m !in d.failed
    && m !in c.learning.avoid && m !in c.learning.hardAvoid
  }

  ghost predicate HasSpare(c: Config, d: State)
    requires IsTier(c, d.tier)
  {
    exists m :: Spare(c, d, m)
  }

  // ---------------------------------------------------------------------------
  // One pass
  // ---------------------------------------------------------------------------

  lemma FallbacksAreSpare(c: Config, d: State)
    requires IsTier(c, d.tier)
    ensures forall m :: m in Fallbacks(c, d.tier, d.failed + {d.model}) <==> Spare(c, d, m)
    ensures Fallbacks(c, d.tier, d.failed + {d.model}) != [] <==> HasSpare(c, d)
  {
    var tried := d.failed + {d.model};
    Sequences.FilterMembers(Pool(c, d.tier), NotExcluded(tried, c.learning));
    hide Pool;
    if Fallbacks(c, d.tier, tried) != [] {
      var m := Fallbacks(c, d.tier, tried)[0];
      assert m in Fallbacks(c, d.tier, tried);
      assert Spare(c, d, m);
    }
  }

  /** After a failed call the loop stays in its tier exactly if the error is a provider error and the tier's pool has
      a model that has not failed and is on neither avoid list; such a model is called next. */
  lemma FallbackPass(c: Config, s: State, i: Input)
    requires WellFormed(c) && IsTier(c, s.tier) && i.elapsed < c.budget && i.call.Throws?
    ensures var d, r := Admit(c, s, i), Step(c, s, i);
      && (r.Looping? && r.s.tier == d.tier <==> IsProviderError(i.call.exn) && HasSpare(c, d))
      && (r.Looping? && r.s.tier == d.tier ==> Spare(c, d, r.s.model) && r.s.failed == d.failed + {d.model})
  {
    hide Pool, Fallbacks, EscalateAfterFailure;
    var d, e := Admit(c, s, i), i.call.exn;
    FallbacksAreSpare(c, d);
    assert Step(c, s, i) == OnFailure(c, d, e, i);
    hide Step, HasSpare, Spare;
    assert LogFailure(d, e).failed == d.failed && LogFailure(d, e).model == d.model && LogFailure(d, e).tier == d.tier;
  }

  lemma DrawnFallback(c: Config, s: State, i: Input)
    requires WellFormed(c) && IsTier(c, s.tier) && i.elapsed < c.budget
    requires i.call.Throws? && IsProviderError(i.call.exn)
    ensures var d := Admit(c, s, i);
      var fallbacks := Fallbacks(c, d.tier, d.failed + {d.model});
      fallbacks != [] ==> Step(c, s, i).s.model == Choose(fallbacks, i.nextPick)
  {
    hide Pool, Fallbacks, EscalateAfterFailure;
    var d, e := Admit(c, s, i), i.call.exn;
    assert LogFailure(d, e).failed == d.failed && LogFailure(d, e).model == d.model && LogFailure(d, e).tier == d.tier;
    assert Step(c, s, i) == AfterProviderError(c, LogFailure(d, e), e, |d.dispatches|, i.nextPick);
  }

  /** Every such model can be the next one: which it is depends on the draw alone. */
  lemma EverySpareCanFollow(c: Config, s: State, i: Input, m: ModelId)
    requires WellFormed(c) && IsTier(c, s.tier) && i.elapsed < c.budget
    requires i.call.Throws? && IsProviderError(i.call.exn) && Spare(c, Admit(c, s, i), m)
    ensures exists pick: nat :: Step(c, s, i.(nextPick := pick)).s.model == m
  {
    hide Pool, Fallbacks, Step, Spare;
    var d := Admit(c, s, i);
    var fallbacks := Fallbacks(c, d.tier, d.failed + {d.model});
    FallbacksAreSpare(c, d);
    assert m in fallbacks;
    var pick: nat :| pick < |fallbacks| && fallbacks[pick] == m;
    assert pick % |fallbacks| == pick;
    DrawnFallback(c, s, i.(nextPick := pick));
    assert Admit(c, s, i.(nextPick := pick)) == d;
    assert Step(c, s, i.(nextPick := pick)).s.model == m;
  }

  /** A check that is denied can be followed by a call of any model of the tier-2 pool. */
  lemma EveryModelCanTakeOver(c: Config, s: State, i: Input, m: ModelId)
    requires WellFormed(c) && s.tier == 1 && !i.allowed && m in Pool(c, 2)
    ensures exists pick: nat :: Admit(c, s, i.(capPick := pick)).model == m
  {
    var pick: nat :| pick < |Pool(c, 2)| && Pool(c, 2)[pick] == m;
    hide Pool;
    assert pick % |Pool(c, 2)| == pick;
    assert Admit(c, s, i.(capPick := pick)).model == m;
  }

  // ---------------------------------------------------------------------------
  // Whole runs
  // ---------------------------------------------------------------------------

  /** The calls from `j` to `k` are main-loop calls of one tier, with nothing in between. */
  ghost predicate Streak(ds: seq<Dispatch>, j: nat, k: nat) {
    j <= k < |ds| && forall i :: j <= i <= k ==> ds[i].kind.Main? && ds[i].tier == ds[k].tier
  }

  /** A tier-2 call after a denial: between two of them the loop may have been at the frontier and denied again. */
  predicate Redirected(tier: nat, afterDenial: bool) { tier == 2 && afterDenial }

  predicate FailedForNow(d: Dispatch) { d.result.Threw? && IsProviderError(d.result.exn) }

  /** The call `b` is a fallback from `a`. */
  predicate FellBack(c: Config, a: Dispatch, b: Dispatch) {
    && FailedForNow(a) && b.model != a.model
    && IsTier(c, b.tier) && b.model in Pool(c, b.tier)
    && b.model !in c.learning.avoid && b.model !in c.learning.hardAvoid
  }

  /** In a row of calls of one tier each but the first is a fallback from all before it. */
  ghost predicate RowsFallBack(c: Config, ds: seq<Dispatch>) {
    forall j: nat, k: nat :: j < k && Streak(ds, j, k) && !Redirected(ds[k].tier, ds[k].afterDenial) ==>
      FellBack(c, ds[j], ds[k])
  }

  /** The last calls of the log are a row in the tier of the loop, from `j` on. */
  ghost predicate InRow(s: State, j: nat) {
    j < |s.dispatches| && Streak(s.dispatches, j, |s.dispatches| - 1) && s.dispatches[j].tier == s.tier
  }

  /** What is known of a row when the loop comes back to its head. */
  ghost predicate RowOpen(c: Config, s: State)
    requires IsTier(c, s.tier)
  {
    !Redirected(s.tier, s.capFellBack) ==>
      forall j: nat :: InRow(s, j) ==>
        FailedForNow(s.dispatches[j]) && s.dispatches[j].model in s.failed
        && s.model in Pool(c, s.tier) && s.model !in s.failed
        && s.model !in c.learning.avoid && s.model !in c.learning.hardAvoid
  }

  ghost predicate RowReport(c: Config, r: Status) {
    RowsFallBack(c, r.s.dispatches) && (r.Looping? ==> IsTier(c, r.s.tier) && RowOpen(c, r.s))
  }

  /** The call of a pass continues the row or begins a new one. */
  lemma CallContinuesRow(c: Config, s: State, result: DispatchResult)
    requires IsTier(c, s.tier) && RowsFallBack(c, s.dispatches) && RowOpen(c, s)
    ensures RowsFallBack(c, LogDispatch(s, result).dispatches)
  {
    hide Pool;
    var ds, n := LogDispatch(s, result).dispatches, |s.dispatches|;
    forall j: nat, k: nat | j < k && Streak(ds, j, k) && !Redirected(ds[k].tier, ds[k].afterDenial)
      ensures FellBack(c, ds[j], ds[k])
    {
      assert forall x :: j <= x < n ==> ds[x] == s.dispatches[x];
      if k < n {
        assert Streak(s.dispatches, j, k);
      } else {
        assert ds[n - 1].tier == ds[n].tier;
        assert InRow(s, j);
      }
    }
  }

  /** Parallel calls belong to no row. */
  lemma ParallelCallsEndRow(c: Config, ds: seq<Dispatch>, more: seq<Dispatch>)
    requires RowsFallBack(c, ds) && ds <= more
    requires forall k :: |ds| <= k < |more| ==> more[k].kind.Parallel?
    ensures RowsFallBack(c, more)
  {
    hide FellBack;
    forall j: nat, k: nat | j < k && Streak(more, j, k) && !Redirected(more[k].tier, more[k].afterDenial)
      ensures FellBack(c, more[j], more[k])
    {
      assert more[k].kind.Main?;
      assert Streak(ds, j, k);
    }
  }

  lemma AnswerClimbs(c: Config, d: State, check: Check, i: Input)
    requires IsTier(c, d.tier)
    ensures OnAnswer(c, d, check, i).Looping? ==> OnAnswer(c, d, check, i).s.tier < d.tier
  {
    hide AfterQualityFailure;
  }

  lemma AnswerPass(c: Config, s: State, i: Input)
    requires WellFormed(c) && IsTier(c, s.tier) && i.elapsed < c.budget && i.call.Returns?
    requires RowsFallBack(c, s.dispatches) && RowOpen(c, s)
    ensures RowReport(c, Step(c, s, i))
  {
    var d, r := Admit(c, s, i), Step(c, s, i);
    assert r == OnAnswer(c, d, i.call.check, i) && (r.Looping? ==> r.s.tier < d.tier) by {
      AnswerClimbs(c, d, i.call.check, i);
    }
    hide Pool, Step, OnAnswer;
    assert RowOpen(c, d);
    CallContinuesRow(c, d, Answered);
    Path.AnswerCalls(c, d, i.call.check, i);
    ParallelCallsEndRow(c, LogDispatch(d, Answered).dispatches, r.s.dispatches);
    if r.Looping? {
      var last := r.s.dispatches[|r.s.dispatches| - 1];
      assert last.kind.Parallel? || last.tier == d.tier;
      assert forall j: nat :: !InRow(r.s, j);
    }
  }

  lemma FailurePass(c: Config, s: State, i: Input)
    requires WellFormed(c) && IsTier(c, s.tier) && i.elapsed < c.budget && i.call.Throws?
    requires RowsFallBack(c, s.dispatches) && RowOpen(c, s)
    ensures RowReport(c, Step(c, s, i))
  {
    hide Pool, Step, OnFailure, RowsFallBack, HasSpare;
    var d, r, e := Admit(c, s, i), Step(c, s, i), i.call.exn;
    StepFails(c, s, i);
    FallbackPass(c, s, i);
    assert RowOpen(c, d);
    CallContinuesRow(c, d, Threw(e));
    if r.Looping? {
      RowStaysOpen(c, d, r.s, e);
    }
  }

  lemma StepFails(c: Config, s: State, i: Input)
    requires WellFormed(c) && IsTier(c, s.tier) && i.elapsed < c.budget && i.call.Throws?
    ensures var d, r, e := Admit(c, s, i), Step(c, s, i), i.call.exn;
      && r.s.dispatches == LogDispatch(d, Threw(e)).dispatches && r.s.capFellBack == d.capFellBack
      && (r.Looping? ==> IsTier(c, r.s.tier))
  {
    hide OnFailure, Pool;
    assert Step(c, s, i) == OnFailure(c, Admit(c, s, i), i.call.exn, i);
  }

  lemma RowStaysOpen(c: Config, d: State, t: State, e: Exn)
    requires IsTier(c, d.tier) && IsTier(c, t.tier) && RowOpen(c, d)
    requires t.dispatches == LogDispatch(d, Threw(e)).dispatches && t.capFellBack == d.capFellBack
    requires t.tier == d.tier ==> IsProviderError(e) && Spare(c, d, t.model) && t.failed == d.failed + {d.model}
    ensures RowOpen(c, t)
  {
    hide Pool;
    var n := |d.dispatches|;
    if !Redirected(t.tier, t.capFellBack) {
      forall j: nat | InRow(t, j)
        ensures t.tier == d.tier && FailedForNow(t.dispatches[j]) && t.dispatches[j].model in t.failed
      {
        assert t.dispatches[n].tier == d.tier;
        if j < n {
          assert forall x :: j <= x < n ==> t.dispatches[x] == d.dispatches[x];
          assert InRow(d, j);
        }
      }
    }
  }

  /** Every run: of the main-loop calls that one tier makes in a row, each but the last failed with a provider error,
      and each after the first goes to a model of the pool that none before it went to and that is on neither avoid
      list. Only tier-2 calls after a denial need not be fallbacks. */
  lemma {:induction false} RunFallbacks(c: Config, pick: nat, ins: seq<Input>)
    requires WellFormed(c)
    ensures RowReport(c, Trace(c, pick, ins))
  {
    if ins != [] {
      var front, i := ins[..|ins| - 1], ins[|ins| - 1];
      RunFallbacks(c, pick, front);
      var before := Trace(c, pick, front);
      if before.Looping? && i.elapsed < c.budget {
        hide Trace;
        match i.call
        case Returns(_) => AnswerPass(c, before.s, i);
        case Throws(_) => FailurePass(c, before.s, i);
      }
    }
  }

  // ---------------------------------------------------------------------------
  // No model is passed over
  // ---------------------------------------------------------------------------

  ghost predicate Called(ds: seq<Dispatch>, m: ModelId) {
    exists j :: 0 <= j < |ds| && ds[j].kind.Main? && ds[j].model == m
  }

  ghost predicate FailedWereCalled(s: State) { forall m :: m in s.failed ==> Called(s.dispatches, m) }

  lemma CalledKept(ds: seq<Dispatch>, more: seq<Dispatch>, m: ModelId)
    requires ds <= more && Called(ds, m)
    ensures Called(more, m)
  {
    var j :| 0 <= j < |ds| && ds[j].kind.Main? && ds[j].model == m;
    assert more[j] == ds[j];
  }

  lemma AnswerFailsNone(c: Config, d: State, check: Check, i: Input)
    requires IsTier(c, d.tier)
    ensures OnAnswer(c, d, check, i).s.failed == d.failed
  {
    hide Pool, AggregationCandidates, SkipEmpty, Aggregation.Attempt;
    var s1 := LogDispatch(d, Answered).(result := Some(Response(d.model, |d.dispatches|)), lastTier := Some(d.tier));
    if !check.Crash? && d.tier != 1 && !check.Pass? {
      var s2 := LogOutcome(s1.(qualityPassed := Some(check.Pass?)), d.tier, check.Pass?, d.escalated, |d.dispatches|);
      assert OnAnswer(c, d, check, i) == AfterQualityFailure(c, s2, i);
      hide OnAnswer;
    }
  }

  lemma FailureFailsOne(c: Config, d: State, e: Exn, i: Input)
    requires IsTier(c, d.tier)
    ensures OnFailure(c, d, e, i).s.failed <= d.failed + {d.model}
  {
    hide Pool, Fallbacks, EscalateAfterFailure;
    var s1, n := LogFailure(d, e), |d.dispatches|;
    EscalationFailsNone(c, s1, e, IsSloTimeout(e), n, i.nextPick);
    EscalationFailsNone(c, s1.(failed := s1.failed + {s1.model}), e, IsSloTimeout(e), n, i.nextPick);
  }

  lemma EscalationFailsNone(c: Config, s: State, e: Exn, recorded: bool, dispatch: nat, pick: nat)
    requires IsTier(c, s.tier)
    ensures EscalateAfterFailure(c, s, e, recorded, dispatch, pick).s.failed <= s.failed
  {
    hide Pool, SkipEmpty;
  }

  /** A pass adds no model to the failed ones but the one it called. */
  lemma FailedGrows(c: Config, s: State, i: Input)
    requires WellFormed(c) && IsTier(c, s.tier) && i.elapsed < c.budget
    ensures var d, r := Admit(c, s, i), Step(c, s, i);
      r.s.failed <= d.failed + {d.model} && Called(r.s.dispatches, d.model)
  {
    hide Pool, OnAnswer, OnFailure;
    var d, r := Admit(c, s, i), Step(c, s, i);
    match i.call
    case Returns(check) =>
      AnswerFailsNone(c, d, check, i);
      Path.AnswerCalls(c, d, check, i);
      assert r.s.dispatches[|d.dispatches|].model == d.model;
    case Throws(e) =>
      FailureFailsOne(c, d, e, i);
      assert r.s.dispatches[|d.dispatches|].model == d.model;
  }

  lemma {:induction false} FailedOnesWereCalled(c: Config, pick: nat, ins: seq<Input>)
    requires WellFormed(c)
    ensures var r := Trace(c, pick, ins); r.Looping? ==> FailedWereCalled(r.s)
  {
    if ins != [] {
      var front, i := ins[..|ins| - 1], ins[|ins| - 1];
      FailedOnesWereCalled(c, pick, front);
      var before := Trace(c, pick, front);
      if before.Looping? && i.elapsed < c.budget {
        var r := Step(c, before.s, i);
        FailedGrows(c, before.s, i);
        assert Admit(c, before.s, i).failed == before.s.failed;
        hide Step, Called;
        forall m | m in r.s.failed ensures Called(r.s.dispatches, m) {
          if m in before.s.failed {
            CalledKept(before.s.dispatches, r.s.dispatches, m);
          }
        }
      }
    }
  }

  /** Every run: after a provider error the tier is not left while its pool has a model, on neither avoid list, that the
      loop has not called yet. */
  lemma NoModelIsPassedOver(c: Config, pick: nat, ins: seq<Input>, i: Input, m: ModelId)
    requires WellFormed(c) && Trace(c, pick, ins).Looping?
    requires i.elapsed < c.budget && i.call.Throws? && IsProviderError(i.call.exn)
    requires var d := Admit(c, Trace(c, pick, ins).s, i);
      && m in Pool(c, d.tier) && m !in c.learning.avoid && m !in c.learning.hardAvoid
      && !Called(Trace(c, pick, ins + [i]).s.dispatches, m)
    ensures var d, r := Admit(c, Trace(c, pick, ins).s, i), Trace(c, pick, ins + [i]); r.Looping? && r.s.tier == d.tier
  {
    var s := Trace(c, pick, ins).s;
    TraceSnoc(c, pick, ins, i);
    FailedOnesWereCalled(c, pick, ins);
    FallbackPass(c, s, i);
    FailedGrows(c, s, i);
    hide Trace, Step, Pool, Called;
    var d := Admit(c, s, i);
    assert m != d.model;
    if m in d.failed {
      CalledKept(s.dispatches, Step(c, s, i).s.dispatches, m);
    }
    assert Spare(c, d, m);
  }
}
