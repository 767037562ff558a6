/** The outcome ledger: which provider calls are recorded for the reliability learner, and under what name. */
module CascadeLedger {
  import opened Wrappers
  import opened Sequences
  import opened Capabilities
  import opened Exceptions
  import opened Cascade
  import Aggregation
  import Escalation = CascadeEscalation

  /** The error is a timeout by its base class or one of the three names. */
  predicate TimedOut(e: Exn) {
    e.isTimeout || e.name == "Timeout" || e.name == "TimeoutException" || e.name == "ReadTimeout"
  }

  /** The calls recorded on the spot: main-loop answers, and main-loop timeouts. */
  predicate RecordedAtOnce(d: Dispatch) {
    d.kind.Main? && (d.result.Answered? || TimedOut(d.result.exn))
  }

  ghost predicate Recorded(s: State, j: nat) {
    exists k :: 0 <= k < |s.outcomes| && s.outcomes[k].dispatch == j
  }

  /** Every outcome carries the model and tier of its own call, and no call has two outcomes. */
  ghost predicate Faithful(s: State) {
    && (forall k :: 0 <= k < |s.outcomes| ==>
          var o := s.outcomes[k];
          && o.dispatch < |s.dispatches|
          && s.dispatches[o.dispatch].model == o.model
          && s.dispatches[o.dispatch].tier == o.tier
          && (o.passed ==> s.dispatches[o.dispatch].result.Answered?))
    && (forall a, b :: 0 <= a < b < |s.outcomes| ==> s.outcomes[a].dispatch != s.outcomes[b].dispatch)
  }

  ghost predicate Ledger(s: State) {
    Faithful(s) && forall j: nat :: j < |s.dispatches| ==> (Recorded(s, j) <==> RecordedAtOnce(s.dispatches[j]))
  }

  /** The ledger, except that the last call's entry is `last`. */
  ghost predicate LedgerButLast(s: State, last: bool) {
    && s.dispatches != [] && Faithful(s)
    && s.dispatches[|s.dispatches| - 1].kind.Main?
    && (forall j: nat :: j < |s.dispatches| - 1 ==> (Recorded(s, j) <==> RecordedAtOnce(s.dispatches[j])))
    && (Recorded(s, |s.dispatches| - 1) <==> last)
  }

  /** The ledger after a successful aggregation: `base` is where the calls after the last main-loop call begin, which are
      the parallel calls of the aggregation, the served one among them, and each of them is recorded. */
  ghost predicate LedgerWithBatch(s: State, base: nat) {
    && 0 < base <= |s.dispatches| && Faithful(s)
    && s.dispatches[base - 1].kind.Main?
    && s.result.Some? && base <= s.result.value.origin < |s.dispatches|
    && (forall j: nat :: j < base ==> (Recorded(s, j) <==> RecordedAtOnce(s.dispatches[j])))
    && (forall j: nat :: base <= j < |s.dispatches| ==> s.dispatches[j].kind.Parallel? && Recorded(s, j))
  }

  ghost predicate LedgerReport(r: Status) {
    match r
    case Looping(s) => Ledger(s)
    case Served(exit, s) =>
      if exit.Aggregated? then exists base: nat :: LedgerWithBatch(s, base)
      else if exit.TierUnreachable? || exit.NoCapableModels? then LedgerButLast(s, true)
      else Ledger(s)
    case Raised(failure, s) => if failure.CheckCrashed? then LedgerButLast(s, false) else Ledger(s)
  }

  lemma LoggingAnOutcome(s: State, tier: nat, passed: bool, escalated: bool, j: nat)
    requires Faithful(s) && j < |s.dispatches| && !Recorded(s, j)
    requires s.dispatches[j].model == s.model && s.dispatches[j].tier == tier
    requires passed ==> s.dispatches[j].result.Answered?
    ensures var t := LogOutcome(s, tier, passed, escalated, j);
      Faithful(t) && forall x: nat :: Recorded(t, x) <==> Recorded(s, x) || x == j
  {
    var t := LogOutcome(s, tier, passed, escalated, j);
    var n := |s.outcomes|;
    assert t.outcomes[n].dispatch == j;
    assert forall k :: 0 <= k < n ==> t.outcomes[k] == s.outcomes[k];
    forall x: nat ensures Recorded(t, x) <==> Recorded(s, x) || x == j {
      if Recorded(s, x) {
        var k :| 0 <= k < n && s.outcomes[k].dispatch == x;
        assert t.outcomes[k].dispatch == x;
      }
    }
  }

  lemma LoggingADispatch(s: State, result: DispatchResult)
    requires Ledger(s)
    ensures LedgerButLast(LogDispatch(s, result), false)
  {
    var t := LogDispatch(s, result);
    assert forall x: nat :: Recorded(t, x) <==> Recorded(s, x);
  }

  /** Parallel calls of an attempt that did not succeed leave no trace in the ledger. */
  lemma ParallelUnrecorded(c: Config, s: State, i: Input)
    requires IsTier(c, s.tier) && Ledger(s)
    ensures Ledger(LogParallel(c, s, i))
  {
    var t := LogParallel(c, s, i);
    assert t.outcomes == s.outcomes;
    assert forall x: nat :: Recorded(t, x) <==> Recorded(s, x);
  }

  /** The state after a batch of parallel calls whose winner is served. */
  function AfterBatch(s: State, cs: seq<ModelId>, r: Aggregation.Result, replies: ModelId -> Reply): State
    requires r.winner < |cs| && Aggregation.InBounds(r.order, |cs|)
  {
    ServeAggregate(s.(dispatches := s.dispatches + Batch(s, cs, replies)), cs, r, replies, |s.dispatches|)
  }

  /** The outcome a batch records at position `k` of its recording order. */
  function BatchOutcome(s: State, cs: seq<ModelId>, order: seq<nat>, replies: ModelId -> Reply, k: nat): Outcome
    requires Aggregation.InBounds(order, |cs|) && k < |order|
  {
    Outcome(cs[order[k]], s.tier, replies(cs[order[k]]).Passes(), false, |s.dispatches| + order[k])
  }

  lemma BatchOutcomes(s: State, cs: seq<ModelId>, r: Aggregation.Result, replies: ModelId -> Reply)
    requires r.winner < |cs| && Aggregation.InBounds(r.order, |cs|)
    ensures var t, n := AfterBatch(s, cs, r, replies), |s.outcomes|;
      && |t.outcomes| == n + |r.order|
      && (forall k :: 0 <= k < n ==> t.outcomes[k] == s.outcomes[k])
      && (forall k :: n <= k < |t.outcomes| ==> t.outcomes[k] == BatchOutcome(s, cs, r.order, replies, k - n))
  {
  }

  /** A batch outcome is about its own call, which lies past the old log. */
  lemma BatchOutcomeFaithful(s: State, cs: seq<ModelId>, r: Aggregation.Result, replies: ModelId -> Reply, k: nat)
    requires r.winner < |cs| && Aggregation.InBounds(r.order, |cs|) && k < |r.order|
    ensures var t, o := AfterBatch(s, cs, r, replies), BatchOutcome(s, cs, r.order, replies, k);
      && |s.dispatches| <= o.dispatch < |t.dispatches|
      && t.dispatches[o.dispatch].model == o.model
      && t.dispatches[o.dispatch].tier == o.tier
      && (o.passed ==> t.dispatches[o.dispatch].result.Answered?)
  {
    assert Batch(s, cs, replies)[r.order[k]].model == cs[r.order[k]];
  }

  lemma BatchFaithful(s: State, cs: seq<ModelId>, r: Aggregation.Result, replies: ModelId -> Reply)
    requires Faithful(s)
    requires r.winner < |cs| && NoDup(r.order) && Aggregation.InBounds(r.order, |cs|)
    ensures Faithful(AfterBatch(s, cs, r, replies))
  {
    BatchOutcomes(s, cs, r, replies);
    var t, n := AfterBatch(s, cs, r, replies), |s.outcomes|;
    assert s.dispatches <= t.dispatches;
    hide AfterBatch;
    forall k | n <= k < |t.outcomes|
      ensures var o := t.outcomes[k];
        && |s.dispatches| <= o.dispatch < |t.dispatches|
        && t.dispatches[o.dispatch].model == o.model
        && t.dispatches[o.dispatch].tier == o.tier
        && (o.passed ==> t.dispatches[o.dispatch].result.Answered?)
    {
      BatchOutcomeFaithful(s, cs, r, replies, k - n);
    }
    forall a, b | 0 <= a < b < |t.outcomes| ensures t.outcomes[a].dispatch != t.outcomes[b].dispatch {
      if a >= n {
        assert r.order[a - n] != r.order[b - n];
      }
    }
  }

  lemma BatchRecords(s: State, cs: seq<ModelId>, r: Aggregation.Result, replies: ModelId -> Reply, j: nat)
    requires r.winner < |cs| && Aggregation.InBounds(r.order, |cs|)
    ensures j < |s.dispatches| ==> (Recorded(AfterBatch(s, cs, r, replies), j) <==> Recorded(s, j))
    ensures j >= |s.dispatches| && Aggregation.Lists(r.order, j - |s.dispatches|) ==>
      Recorded(AfterBatch(s, cs, r, replies), j)
  {
    BatchOutcomes(s, cs, r, replies);
    hide AfterBatch;
    var t, n, base := AfterBatch(s, cs, r, replies), |s.outcomes|, |s.dispatches|;
    if Recorded(s, j) {
      var k :| 0 <= k < n && s.outcomes[k].dispatch == j;
      assert t.outcomes[k].dispatch == j;
    }
    if j >= base && Aggregation.Lists(r.order, j - base) {
      var k :| 0 <= k < |r.order| && r.order[k] == j - base;
      assert t.outcomes[n + k].dispatch == j;
    }
    if j < base && Recorded(t, j) {
      var k :| 0 <= k < |t.outcomes| && t.outcomes[k].dispatch == j;
      assert s.outcomes[k].dispatch == j;
    }
  }

  lemma BatchRecorded(s: State, cs: seq<ModelId>, r: Aggregation.Result, replies: ModelId -> Reply)
    requires Ledger(s)
    requires r.winner < |cs| && Aggregation.InBounds(r.order, |cs|) && NoDup(r.order)
    requires forall k: nat :: k < |cs| ==> Aggregation.Lists(r.order, k)
    requires s.dispatches != [] && s.dispatches[|s.dispatches| - 1].kind.Main?
    ensures LedgerWithBatch(AfterBatch(s, cs, r, replies), |s.dispatches|)
  {
    BatchFaithful(s, cs, r, replies);
    var t, base := AfterBatch(s, cs, r, replies), |s.dispatches|;
    assert t.dispatches == s.dispatches + Batch(s, cs, replies);
    hide AfterBatch, Faithful, Recorded;
    forall j: nat | j < |t.dispatches|
      ensures j < base ==> (Recorded(t, j) <==> Recorded(s, j))
      ensures j >= base ==> Recorded(t, j)
    {
      BatchRecords(s, cs, r, replies, j);
      assert j >= base ==> Aggregation.Lists(r.order, j - base);
    }
  }

  lemma QualityFailureLedger(c: Config, s: State, i: Input)
    requires WellFormed(c) && IsTier(c, s.tier) && Ledger(s)
    requires s.dispatches != [] && s.dispatches[|s.dispatches| - 1].kind.Main?
    ensures LedgerReport(AfterQualityFailure(c, s, i))
  {
    var cs := AggregationCandidates(c, s, i);
    Aggregation.AttemptLedger(c.aggregation, s.tier, cs, i.replies);
    match Aggregation.Attempt(c.aggregation, s.tier, cs, i.replies)
    case Some(r) =>
      BatchRecorded(s, cs, r, i.replies);
      var t := AfterQualityFailure(c, s, i).s;
      assert LedgerWithBatch(t, |s.dispatches|);
    case None =>
      ParallelUnrecorded(c, s, i);
      var s1 := LogParallel(c, s, i);
      SameLogsSameLedger(s1, AfterQualityFailure(c, s, i).s);
  }

  lemma SameLogsSameLedger(s: State, t: State)
    requires s.dispatches == t.dispatches && s.outcomes == t.outcomes
    ensures Ledger(s) <==> Ledger(t)
    ensures forall last :: LedgerButLast(s, last) <==> LedgerButLast(t, last)
  {
    assert forall j: nat :: Recorded(s, j) <==> Recorded(t, j);
  }

  lemma AnswerLedger(c: Config, s: State, check: Check, i: Input)
    requires WellFormed(c) && IsTier(c, s.tier) && Ledger(s)
    ensures LedgerReport(OnAnswer(c, s, check, i))
  {
    var n := |s.dispatches|;
    LoggingADispatch(s, Answered);
    var s1 := LogDispatch(s, Answered).(result := Some(Response(s.model, n)), lastTier := Some(s.tier));
    SameLogsSameLedger(LogDispatch(s, Answered), s1);
    if !check.Crash? {
      var s1' := s1.(qualityPassed := Some(check.Pass?));
      SameLogsSameLedger(s1, s1');
      LoggingAnOutcome(s1', s.tier, check.Pass?, s.escalated, n);
      var s2 := LogOutcome(s1', s.tier, check.Pass?, s.escalated, n);
      assert Ledger(s2);
      if s.tier != 1 && !check.Pass? {
        QualityFailureLedger(c, s2, i);
      }
    }
  }

  /** From a failed call whose entry is `recorded`, as a timeout's is, the loop goes on with it so recorded, or
      degrades with it recorded. */
  lemma DegradeLedger(s: State, exit: Exit, e: Exn, recorded: bool, failedTier: nat)
    requires exit.TierUnreachable? || exit.NoCapableModels?
    requires LedgerButLast(s, recorded) && recorded == IsSloTimeout(e)
    requires var d := s.dispatches[|s.dispatches| - 1]; d.model == s.model && d.tier == failedTier && d.result == Threw(e)
    ensures LedgerReport(Degrade(s, exit, e, recorded, failedTier, |s.dispatches| - 1))
  {
    var n := |s.dispatches| - 1;
    var r := Degrade(s, exit, e, recorded, failedTier, n);
    if r.Served? {
      if !recorded {
        LoggingAnOutcome(s, failedTier, false, true, n);
        var s1 := LogOutcome(s, failedTier, false, true, n);
        assert s1.dispatches == s.dispatches && r.s == s1.(tier := s.lastTier.value);
        hide LogOutcome, Degrade, Faithful, Recorded, IsSloTimeout;
        SameLogsSameLedger(s1, r.s);
      } else {
        SameLogsSameLedger(s, r.s);
      }
    }
  }

  lemma SameTimeouts(e: Exn)
    ensures IsSloTimeout(e) <==> TimedOut(e)
  {
  }

  lemma EscalationLedger(c: Config, s: State, e: Exn, recorded: bool, pick: nat)
    requires WellFormed(c) && IsTier(c, s.tier)
    requires LedgerButLast(s, recorded) && recorded == IsSloTimeout(e)
    requires var d := s.dispatches[|s.dispatches| - 1]; d.model == s.model && d.tier == s.tier && d.result == Threw(e)
    ensures LedgerReport(EscalateAfterFailure(c, s, e, recorded, |s.dispatches| - 1, pick))
  {
    SameTimeouts(e);
    hide Pool, SkipEmpty, GetNext, Faithful, Recorded, IsSloTimeout, TimedOut, Degrade;
    var n := |s.dispatches| - 1;
    var next := if s.tier == 1 then None else GetNext(c, s.tier);
    match next
    case None => DegradeLedger(s, TierUnreachable, e, recorded, s.tier);
    case Some(x) =>
      var t := SkipEmpty(c, x);
      var s1 := s.(failed := {}, tier := t);
      SameLogsSameLedger(s, s1);
      if Pool(c, t) == [] {
        DegradeLedger(s1, NoCapableModels, e, recorded, s.tier);
        assert EscalateAfterFailure(c, s, e, recorded, n, pick) == Degrade(s1, NoCapableModels, e, recorded, s.tier, n);
      } else {
        SameLogsSameLedger(s, EscalateAfterFailure(c, s, e, recorded, n, pick).s);
      }
  }

  lemma FailureLogged(s: State, e: Exn)
    requires Ledger(s)
    ensures LedgerButLast(LogFailure(s, e), IsSloTimeout(e))
  {
    LoggingADispatch(s, Threw(e));
    if IsSloTimeout(e) {
      LoggingAnOutcome(LogDispatch(s, Threw(e)), s.tier, false, true, |s.dispatches|);
    }
  }

  lemma ProviderErrorLedger(c: Config, s: State, e: Exn, pick: nat)
    requires WellFormed(c) && IsTier(c, s.tier)
    requires LedgerButLast(s, IsSloTimeout(e))
    requires var d := s.dispatches[|s.dispatches| - 1]; d.model == s.model && d.tier == s.tier && d.result == Threw(e)
    ensures LedgerReport(AfterProviderError(c, s, e, |s.dispatches| - 1, pick))
  {
    var s1 := s.(failed := s.failed + {s.model});
    SameLogsSameLedger(s, s1);
    if Fallbacks(c, s.tier, s1.failed) == [] {
      EscalationLedger(c, s1, e, IsSloTimeout(e), pick);
    } else {
      SameLogsSameLedger(s, AfterProviderError(c, s, e, |s.dispatches| - 1, pick).s);
    }
  }

  lemma FailureLedger(c: Config, s: State, e: Exn, i: Input)
    requires WellFormed(c) && IsTier(c, s.tier) && Ledger(s)
    ensures LedgerReport(OnFailure(c, s, e, i))
  {
    FailureLogged(s, e);
    var s1 := LogFailure(s, e);
    var d := s1.dispatches[|s1.dispatches| - 1];
    assert |s1.dispatches| - 1 == |s.dispatches| && s1.tier == s.tier;
    assert d.model == s1.model && d.tier == s1.tier && d.result == Threw(e);
    hide LogFailure, AfterProviderError, EscalateAfterFailure, IsProviderError, IsSloTimeout, LedgerReport, LedgerButLast;
    if IsProviderError(e) {
      ProviderErrorLedger(c, s1, e, i.nextPick);
    } else {
      EscalationLedger(c, s1, e, IsSloTimeout(e), i.nextPick);
    }
  }

  lemma StepLedger(c: Config, s: State, i: Input)
    requires WellFormed(c) && IsTier(c, s.tier) && Ledger(s)
    ensures LedgerReport(Step(c, s, i))
  {
    if i.elapsed < c.budget {
      var d := Admit(c, s, i);
      SameLogsSameLedger(s, d);
      match i.call
      case Returns(check) => AnswerLedger(c, d, check, i);
      case Throws(e) => FailureLedger(c, d, e, i);
    }
  }

  /** Every run: an outcome always names the model and tier of the call it is about, no call has two, and a
      main-loop call has one exactly when it answered (and its check did not crash), timed out, or failed and
      ended the run by degrading. Parallel calls are recorded exactly if their aggregation succeeded: then all that
      follow the last main-loop call are, the served one among them, and no others ever are. */
  lemma {:induction false} RunLedger(c: Config, pick: nat, ins: seq<Input>)
    requires WellFormed(c)
    ensures LedgerReport(Trace(c, pick, ins))
  {
    if ins != [] {
      RunLedger(c, pick, ins[..|ins| - 1]);
      var before := Trace(c, pick, ins[..|ins| - 1]);
      if before.Looping? {
        StepLedger(c, before.s, ins[|ins| - 1]);
      }
    }
  }

  // ---------------------------------------------------------------------------
  // Verdicts
  // ---------------------------------------------------------------------------

  /** The log says of a call made in this pass how it went. */
  predicate LoggedRight(i: Input, d: Dispatch) {
    if d.kind.Main? then d.result == if i.call.Returns? then Answered else Threw(i.call.exn)
    else d.result.Answered? <==> i.replies(d.model).Answered?
  }

  /** Every call that a pass logs is logged as it went: the main-loop one with its answer or error, a parallel one as
      answered exactly if it was. */
  lemma CallsAreLogged(c: Config, s: State, i: Input)
    requires WellFormed(c) && IsTier(c, s.tier)
    ensures var r := Step(c, s, i);
      forall k :: |s.dispatches| <= k < |r.s.dispatches| ==> LoggedRight(i, r.s.dispatches[k])
  {
    hide AfterQualityFailure, AfterProviderError, EscalateAfterFailure, Pool, LogParallel;
    if i.elapsed < c.budget {
      var d, n := Admit(c, s, i), |s.dispatches|;
      match i.call
      case Returns(check) =>
        var s1 := LogDispatch(d, Answered).(result := Some(Response(d.model, n)), lastTier := Some(d.tier));
        var s2 := LogOutcome(s1.(qualityPassed := Some(check.Pass?)), d.tier, check.Pass?, d.escalated, n);
        BatchIsLogged(c, s2, i);
      case Throws(e) => assert OnFailure(c, d, e, i).s.dispatches == LogDispatch(d, Threw(e)).dispatches;
    }
  }

  lemma BatchIsLogged(c: Config, s: State, i: Input)
    requires IsTier(c, s.tier)
    ensures var t := LogParallel(c, s, i);
      && s.dispatches <= t.dispatches
      && forall k :: |s.dispatches| <= k < |t.dispatches| ==> LoggedRight(i, t.dispatches[k])
  {
    hide AggregationCandidates;
  }

  /** The verdict on the answer of a call made in this pass. */
  predicate Passed(i: Input, d: Dispatch) {
    if d.kind.Main? then i.call == Returns(Aggregation.Pass) else i.replies(d.model).Passes()
  }

  /** The outcomes of `r` after the first `n` say of their calls what the pass says. */
  ghost predicate VerdictsFrom(n: nat, i: Input, r: State) {
    forall k :: n <= k < |r.outcomes| ==>
      r.outcomes[k].dispatch < |r.dispatches| && (r.outcomes[k].passed <==> Passed(i, r.dispatches[r.outcomes[k].dispatch]))
  }

  lemma BatchVerdicts(c: Config, s: State, i: Input, n: nat)
    requires IsTier(c, s.tier) && VerdictsFrom(n, i, s) && n <= |s.outcomes|
    ensures VerdictsFrom(n, i, AfterQualityFailure(c, s, i).s)
  {
    hide AggregationCandidates, Pool, SkipEmpty, GetNext, LogParallel, ServeAggregate, Aggregation.Attempt;
    var cs, base, s1, r := AggregationCandidates(c, s, i), |s.dispatches|, LogParallel(c, s, i), AfterQualityFailure(c, s, i);
    ParallelLog(c, s, i);
    Aggregation.AttemptLedger(c.aggregation, s.tier, cs, i.replies);
    match Aggregation.Attempt(c.aggregation, s.tier, cs, i.replies)
    case None => assert r.s.outcomes == s1.outcomes;
    case Some(result) => ServedVerdicts(s, s1, cs, result, i, n);
  }

  lemma ParallelLog(c: Config, s: State, i: Input)
    requires IsTier(c, s.tier)
    ensures var cs, t := AggregationCandidates(c, s, i), LogParallel(c, s, i);
      && t.outcomes == s.outcomes && t.tier == s.tier && s.dispatches <= t.dispatches
      && (Aggregation.Runs(c.aggregation, s.tier, cs) ==> t.dispatches == s.dispatches + Batch(s, cs, i.replies))
  {
    hide AggregationCandidates;
  }

  lemma ServedVerdicts(s: State, s1: State, cs: seq<ModelId>, result: Aggregation.Result, i: Input, n: nat)
    requires result.winner < |cs| && Aggregation.InBounds(result.order, |cs|)
    requires s1.outcomes == s.outcomes && s1.tier == s.tier && s1.dispatches == s.dispatches + Batch(s, cs, i.replies)
    requires VerdictsFrom(n, i, s) && n <= |s.outcomes|
    ensures VerdictsFrom(n, i, ServeAggregate(s1, cs, result, i.replies, |s.dispatches|))
  {
    var t, base := ServeAggregate(s1, cs, result, i.replies, |s.dispatches|), |s.dispatches|;
    forall k | |s.outcomes| <= k < |t.outcomes|
      ensures t.outcomes[k].dispatch < |t.dispatches|
      ensures t.outcomes[k].passed <==> Passed(i, t.dispatches[t.outcomes[k].dispatch])
    {
      var j := result.order[k - |s.outcomes|];
      assert t.outcomes[k] == Outcome(cs[j], s.tier, i.replies(cs[j]).Passes(), false, base + j);
      assert t.dispatches[base + j] == Batch(s, cs, i.replies)[j];
    }
  }

  /** Every outcome that a pass records says that its call passed exactly if that call's own answer passed its check. */
  lemma VerdictsAreRecorded(c: Config, s: State, i: Input)
    requires WellFormed(c) && IsTier(c, s.tier)
    ensures VerdictsFrom(|s.outcomes|, i, Step(c, s, i).s)
  {
    hide AfterQualityFailure, AfterProviderError, EscalateAfterFailure, Pool;
    if i.elapsed < c.budget {
      var d, n, m := Admit(c, s, i), |s.dispatches|, |s.outcomes|;
      match i.call
      case Returns(check) =>
        var s1 := LogDispatch(d, Answered).(result := Some(Response(d.model, n)), lastTier := Some(d.tier));
        var s2 := LogOutcome(s1.(qualityPassed := Some(check.Pass?)), d.tier, check.Pass?, d.escalated, n);
        assert VerdictsFrom(m, i, s2);
        BatchVerdicts(c, s2, i, m);
      case Throws(e) => FailureVerdicts(c, d, e, i);
    }
  }

  lemma FailureVerdicts(c: Config, d: State, e: Exn, i: Input)
    requires IsTier(c, d.tier) && i.call == Throws(e)
    ensures VerdictsFrom(|d.outcomes|, i, OnFailure(c, d, e, i).s)
  {
    hide OnFailure;
    Escalation.FailureHasShape(c, d, e, i);
    assert VerdictsFrom(|d.outcomes|, i, LogFailure(d, e));
  }
}
