/** When a request that was denied the frontier comes back to it: one pass, whole runs, and which requests can. */
module CascadeBounce {
  import opened Wrappers
  import opened Capabilities
  import opened Exceptions
  import opened Cascade
  import Aggregation
  import Path = CascadePath

  /** After this error no other model of the tier is tried. */
  predicate NoFallbackLeft(c: Config, d: State, e: Exn)
    requires IsTier(c, d.tier)
  {
    IsProviderError(e) ==> Fallbacks(c, d.tier, d.failed + {d.model}) == []
  }

  /** Escalation leads from tier 2 to the frontier. */
  predicate FrontierOpen(c: Config)
    requires WellFormed(c)
  {
    GetNext(c, 2) == Some(1) && Pool(c, 1) != []
  }

  /** The call fails with nothing left to try in its tier. */
  predicate GivesUpTier(c: Config, d: State, i: Input)
    requires IsTier(c, d.tier)
  {
    i.call.Throws? && NoFallbackLeft(c, d, i.call.exn)
  }

  /** This pass calls tier 2 after a denial and gives it up for the frontier. */
  predicate Bounces(c: Config, s: State, i: Input)
    requires WellFormed(c) && IsTier(c, s.tier)
  {
    var d := Admit(c, s, i);
    i.elapsed < c.budget && d.capFellBack && d.tier == 2 && GivesUpTier(c, d, i) && FrontierOpen(c)
  }

  lemma FailureBounces(c: Config, d: State, e: Exn, i: Input)
    requires WellFormed(c) && d.tier == 2
    ensures var r := OnFailure(c, d, e, i);
      r.Looping? && r.s.tier == 1 <==> NoFallbackLeft(c, d, e) && FrontierOpen(c)
  {
    hide Pool, Fallbacks;
    assert FrontierOpen(c) ==> SkipEmpty(c, 1) == 1;
    assert GetNext(c, 1) == None;
    assert GetNext(c, 2).Some? ==> GetNext(c, 2).value == 1 && SkipEmpty(c, 1) == 1;
  }

  lemma AnswersStay(c: Config, d: State, check: Check, i: Input)
    requires WellFormed(c) && d.tier == 2 && d.capFellBack
    ensures !OnAnswer(c, d, check, i).Looping?
  {
    hide Pool, LogParallel, AggregationCandidates, ServeAggregate, SkipEmpty;
    var s1 := LogDispatch(d, Answered).(result := Some(Response(d.model, |d.dispatches|)), lastTier := Some(d.tier));
    var s2 := LogOutcome(s1.(qualityPassed := Some(check.Pass?)), d.tier, check.Pass?, d.escalated, |d.dispatches|);
    StaysDenied(c, s2, i);
  }

  lemma StaysDenied(c: Config, s: State, i: Input)
    requires IsTier(c, s.tier)
    ensures LogParallel(c, s, i).capFellBack == s.capFellBack && LogParallel(c, s, i).tier == s.tier
  {
  }

  /** One pass after a denial returns to the frontier exactly when its tier-2 call throws, no fallback is left there and
      the frontier is open: a quality failure never returns, an error does whenever it can. */
  lemma BounceIff(c: Config, s: State, i: Input)
    requires WellFormed(c) && IsTier(c, s.tier) && i.elapsed < c.budget
    requires Admit(c, s, i).capFellBack && Admit(c, s, i).tier == 2
    ensures var r := Step(c, s, i); r.Looping? && r.s.tier == 1 <==> Bounces(c, s, i)
  {
    var d := Admit(c, s, i);
    match i.call
    case Returns(check) => AnswersStay(c, d, check, i);
    case Throws(e) => FailureBounces(c, d, e, i);
  }

  // ---------------------------------------------------------------------------
  // Whole runs
  // ---------------------------------------------------------------------------

  /** The loop stands at the frontier again after a denial. */
  predicate Returned(r: Status) { r.Looping? && r.s.capFellBack && r.s.tier == 1 }

  ghost predicate BouncesAt(c: Config, pick: nat, ins: seq<Input>, k: nat)
    requires WellFormed(c) && k < |ins|
  {
    var before := Trace(c, pick, ins[..k]); before.Looping? && Bounces(c, before.s, ins[k])
  }

  lemma AtPass(c: Config, pick: nat, ins: seq<Input>, k: nat)
    requires WellFormed(c) && k < |ins|
    ensures var before := Trace(c, pick, ins[..k]);
      Trace(c, pick, ins[..k + 1]) == if before.Looping? then Step(c, before.s, ins[k]) else before
  {
    assert ins[..k + 1] == ins[..k] + [ins[k]];
    TraceSnoc(c, pick, ins[..k], ins[k]);
  }

  lemma FlagFromAdmit(c: Config, s: State, i: Input)
    requires WellFormed(c) && IsTier(c, s.tier) && i.elapsed < c.budget
    ensures Step(c, s, i).s.capFellBack == Admit(c, s, i).capFellBack
    ensures Step(c, s, i).Looping? ==> Step(c, s, i).s.tier <= Admit(c, s, i).tier
  {
    var d := Admit(c, s, i);
    match i.call
    case Returns(check) => assert OnAnswer(c, d, check, i).s.capFellBack == d.capFellBack;
    case Throws(e) => assert OnFailure(c, d, e, i).s.capFellBack == d.capFellBack;
  }

  /** Coming back from elsewhere takes a bounce. */
  lemma ReturnNeedsBounce(c: Config, s: State, i: Input)
    requires WellFormed(c) && IsTier(c, s.tier) && Path.LowAfterDenial(s) && !Returned(Looping(s))
    requires Returned(Step(c, s, i))
    ensures Bounces(c, s, i)
  {
    assert i.elapsed < c.budget;
    FlagFromAdmit(c, s, i);
    var d := Admit(c, s, i);
    hide Step, Bounces;
    assert d.capFellBack && d.tier == 2;
    BounceIff(c, s, i);
  }

  lemma {:induction false} ReturnHasBounce(c: Config, pick: nat, ins: seq<Input>, n: nat)
    requires WellFormed(c) && Start(c, pick).Looping? && n <= |ins| && Returned(Trace(c, pick, ins[..n]))
    ensures exists k :: 0 <= k < n && BouncesAt(c, pick, ins, k)
  {
    assert ins[..0] == [];
    assert !Returned(Trace(c, pick, ins[..0]));
    AtPass(c, pick, ins, n - 1);
    var before := Trace(c, pick, ins[..n - 1]);
    if Returned(before) {
      ReturnHasBounce(c, pick, ins, n - 1);
    } else {
      Path.RunTiers(c, pick, ins[..n - 1]);
      hide Trace, Step, Bounces;
      ReturnNeedsBounce(c, before.s, ins[n - 1]);
      assert BouncesAt(c, pick, ins, n - 1);
    }
  }

  /** Every run: it comes back to the frontier after a denial exactly if some pass of it bounces. */
  lemma ReturnsIff(c: Config, pick: nat, ins: seq<Input>)
    requires WellFormed(c) && Start(c, pick).Looping?
    ensures (exists n :: 0 <= n <= |ins| && Returned(Trace(c, pick, ins[..n])))
      <==> (exists k :: 0 <= k < |ins| && BouncesAt(c, pick, ins, k))
  {
    if n :| 0 <= n <= |ins| && Returned(Trace(c, pick, ins[..n])) {
      ReturnHasBounce(c, pick, ins, n);
    }
    if k :| 0 <= k < |ins| && BouncesAt(c, pick, ins, k) {
      AtPass(c, pick, ins, k);
      var before := Trace(c, pick, ins[..k]);
      BounceIff(c, before.s, ins[k]);
      FlagFromAdmit(c, before.s, ins[k]);
      hide Trace, Step, Bounces;
      assert Returned(Trace(c, pick, ins[..k + 1]));
    }
  }

  // ---------------------------------------------------------------------------
  // Which requests can
  // ---------------------------------------------------------------------------

  /** A pass in time that is denied any frontier check and fails with an error that no other model is tried for. */
  function Hopeless(c: Config): Input {
    Input(c.budget - 1.0, false, 0, Throws(Exn("BadRequestError", false, false)), 0,
          cs => [], m => Aggregation.Failed)
  }

  lemma OpenAllTheWay(c: Config, t: nat)
    requires WellFormed(c) && FrontierOpen(c) && IsTier(c, t)
    ensures Pool(c, SkipEmpty(c, t)) != [] && (t >= 2 ==> GetNext(c, t) == Some(t - 1))
  {
    var u := SkipEmpty(c, t);
    assert u >= 2 ==> GetNext(c, u).Some?;
  }

  lemma HopelessClimbs(c: Config, s: State)
    requires WellFormed(c) && FrontierOpen(c) && IsTier(c, s.tier)
    ensures var r := Step(c, s, Hopeless(c));
      && r.Looping? && r.s.escalations == s.escalations + 1
      && (s.tier >= 2 ==> r.s.tier < s.tier && r.s.capFellBack == s.capFellBack)
      && (s.tier == 1 ==> Returned(r))
  {
    var i := Hopeless(c);
    var d := Admit(c, s, i);
    assert !IsProviderError(i.call.exn);
    OpenAllTheWay(c, d.tier);
    OpenAllTheWay(c, d.tier - 1);
    FlagFromAdmit(c, s, i);
    if s.tier == 1 {
      BounceIff(c, s, i);
    }
    hide Pool, SkipEmpty, Fallbacks;
    var r := OnFailure(c, d, i.call.exn, i);
    assert r == EscalateAfterFailure(c, LogFailure(d, i.call.exn), i.call.exn, IsSloTimeout(i.call.exn), |d.dispatches|, 0);
  }

  lemma {:induction false} ClimbsToTheFrontier(c: Config, pick: nat, ins: seq<Input>)
    requires WellFormed(c) && FrontierOpen(c) && Trace(c, pick, ins).Looping?
    ensures exists more: seq<Input> :: Returned(Trace(c, pick, more))
    decreases Trace(c, pick, ins).s.tier
  {
    var before := Trace(c, pick, ins);
    HopelessClimbs(c, before.s);
    TraceSnoc(c, pick, ins, Hopeless(c));
    hide Trace, Step, Hopeless;
    if before.s.tier > 1 {
      ClimbsToTheFrontier(c, pick, ins + [Hopeless(c)]);
    }
  }

  /** The comment that the flag prevents the return holds for a request exactly if its frontier is not open: its memory
      cap ends escalation at tier 2, or tier 1 has no capable model. Otherwise some denials and errors bring it back. */
  lemma CanReturnIff(c: Config, pick: nat)
    requires WellFormed(c) && Start(c, pick).Looping?
    ensures (exists ins: seq<Input> :: Returned(Trace(c, pick, ins))) <==> FrontierOpen(c)
  {
    if FrontierOpen(c) {
      assert Trace(c, pick, []) == Start(c, pick);
      ClimbsToTheFrontier(c, pick, []);
    }
    if ins: seq<Input> :| Returned(Trace(c, pick, ins)) {
      assert ins[..|ins|] == ins;
      ReturnHasBounce(c, pick, ins, |ins|);
    }
  }

  /** `n` passes that escalate once each, and the loop goes on. */
  predicate EscalatesEachPass(c: Config, pick: nat, ins: seq<Input>, n: nat)
    requires WellFormed(c)
  {
    |ins| == n && Trace(c, pick, ins).Looping? && Trace(c, pick, ins).s.escalations == n
  }

  lemma OneMoreEscalation(c: Config, pick: nat, ins: seq<Input>, n: nat)
    requires WellFormed(c) && FrontierOpen(c) && EscalatesEachPass(c, pick, ins, n)
    ensures EscalatesEachPass(c, pick, ins + [Hopeless(c)], n + 1)
  {
    HopelessClimbs(c, Trace(c, pick, ins).s);
    TraceSnoc(c, pick, ins, Hopeless(c));
    hide Trace, Step, Hopeless;
  }

  /** With an open frontier errors escalate past every limit: any number of passes can each escalate once. */
  lemma {:induction false} EscalationsUnlimited(c: Config, pick: nat, n: nat)
    requires WellFormed(c) && Start(c, pick).Looping? && FrontierOpen(c)
    ensures exists ins: seq<Input> :: EscalatesEachPass(c, pick, ins, n)
  {
    if n == 0 {
      var none: seq<Input> := [];
      assert EscalatesEachPass(c, pick, none, 0);
    } else {
      EscalationsUnlimited(c, pick, n - 1);
      hide EscalatesEachPass, Start, FrontierOpen;
      var front: seq<Input> :| EscalatesEachPass(c, pick, front, n - 1);
      OneMoreEscalation(c, pick, front, n - 1);
    }
  }
}
