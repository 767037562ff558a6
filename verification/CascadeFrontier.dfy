/** A request whose frontier checks read real counters: how often it can be denied, and when it ends without the clock. */
module CascadeFrontier {
  import opened Wrappers
  import opened Sequences
  import opened Capabilities
  import opened Exceptions
  import opened Cascade
  import Aggregation
  import Bound = CascadeBound
  import Frontier

  /** The two counters of the minute. */
  datatype Minute = Minute(total: nat, frontier: nat)

  /** Whether the next pass consults the counters. */
  predicate Checks(c: Config, r: Status, i: Input) { r.Looping? && i.elapsed < c.budget && r.s.tier == 1 }

  /** The counters after a run that had the minute to itself from `m` on. */
  function CountersAfter(c: Config, pick: nat, ins: seq<Input>, m: Minute): Minute
    requires WellFormed(c)
  {
    if ins == [] then m else
    var front, i := ins[..|ins| - 1], ins[|ins| - 1];
    var before := CountersAfter(c, pick, front, m);
    if !Checks(c, Trace(c, pick, front), i) then before
    else Minute(before.total + 1, before.frontier + if i.allowed then 1 else 0)
  }

  /** The answer of the frontier check is what the counters say. */
  predicate Answers(cap: real, c: Config, r: Status, m: Minute, i: Input) {
    Checks(c, r, i) ==> i.allowed == Frontier.Allows(cap, m.total, m.frontier)
  }

  /** A run alone in its minute: every check is answered by the counters as its own earlier checks left them. */
  ghost predicate Lone(cap: real, c: Config, pick: nat, ins: seq<Input>, m: Minute)
    requires WellFormed(c)
  {
    forall k :: 0 <= k < |ins| ==>
      Answers(cap, c, Trace(c, pick, ins[..k]), CountersAfter(c, pick, ins[..k], m), ins[k])
  }

  lemma LonePrefix(cap: real, c: Config, pick: nat, ins: seq<Input>, m: Minute)
    requires WellFormed(c) && ins != [] && Lone(cap, c, pick, ins, m)
    ensures var front := ins[..|ins| - 1];
      && Lone(cap, c, pick, front, m)
      && Answers(cap, c, Trace(c, pick, front), CountersAfter(c, pick, front, m), ins[|ins| - 1])
  {
    hide Answers, CountersAfter;
    var front := ins[..|ins| - 1];
    forall k | 0 <= k < |front| ensures front[..k] == ins[..k] {
    }
  }

  function Denials(cap: real, m: Minute): nat
    requires cap > 0.0
  {
    Frontier.DenialsInARow(cap, m.total, m.frontier)
  }

  lemma DeniedMeansRoom(cap: real, m: Minute, j: nat)
    requires cap > 0.0 && j <= Denials(cap, m)
    ensures Frontier.Allows(cap, m.total + j, m.frontier) <==> j == Denials(cap, m)
  {
    Frontier.DenialRun(cap, m.total, m.frontier, j);
    hide Frontier.DenialsInARow, Frontier.Allows;
  }

  /** One pass counts a denial exactly when it is denied. */
  lemma DenialsCount(c: Config, s: State, i: Input)
    requires WellFormed(c) && IsTier(c, s.tier)
    ensures Step(c, s, i).s.denials == s.denials + if Checks(c, Looping(s), i) && !i.allowed then 1 else 0
  {
    if i.elapsed < c.budget {
      var d := Admit(c, s, i);
      match i.call
      case Returns(check) => assert OnAnswer(c, d, check, i).s.denials == d.denials;
      case Throws(e) => assert OnFailure(c, d, e, i).s.denials == d.denials;
    }
  }

  /** While no check has been allowed, a lone run has been denied once per check, and never more often than the counters
      it started on allow. */
  ghost predicate Unadmitted(cap: real, m: Minute, now: Minute, denials: nat)
    requires cap > 0.0
  {
    now.frontier == m.frontier ==> now.total == m.total + denials && denials <= Denials(cap, m)
  }

  /** One check, or none. */
  lemma CheckKeepsCount(cap: real, m: Minute, now: Minute, denials: nat, checks: bool, allowed: bool)
    requires cap > 0.0 && Unadmitted(cap, m, now, denials) && now.frontier >= m.frontier
    requires checks ==> allowed == Frontier.Allows(cap, now.total, now.frontier)
    ensures var next := if checks then Minute(now.total + 1, now.frontier + if allowed then 1 else 0) else now;
      Unadmitted(cap, m, next, denials + if checks && !allowed then 1 else 0)
  {
    if now.frontier == m.frontier {
      DeniedMeansRoom(cap, m, denials);
    }
    hide Frontier.Allows, Denials;
  }

  lemma CountersSnoc(c: Config, pick: nat, ins: seq<Input>, m: Minute)
    requires WellFormed(c) && ins != []
    ensures var front, i := ins[..|ins| - 1], ins[|ins| - 1];
      var before, now := Trace(c, pick, front), CountersAfter(c, pick, front, m);
      var checks := Checks(c, before, i);
      && CountersAfter(c, pick, ins, m)
        == (if checks then Minute(now.total + 1, now.frontier + if i.allowed then 1 else 0) else now)
      && Trace(c, pick, ins).s.denials == before.s.denials + if checks && !i.allowed then 1 else 0
  {
    var front, i := ins[..|ins| - 1], ins[|ins| - 1];
    var before := Trace(c, pick, front);
    if before.Looping? {
      DenialsCount(c, before.s, i);
    }
    hide Step;
  }

  lemma NothingDenied(cap: real, c: Config, pick: nat, m: Minute)
    requires cap > 0.0 && WellFormed(c)
    ensures Trace(c, pick, []).s.denials == 0 && CountersAfter(c, pick, [], m) == m && Unadmitted(cap, m, m, 0)
  {
    hide Pool, SkipEmpty, Denials, Frontier.Allows;
  }

  /** Every lone run: as long as none of its checks has been allowed, it has been denied once per check, and at most as
      often in a row as the counters it started on deny. */
  lemma {:induction false} LoneDenials(cap: real, c: Config, pick: nat, ins: seq<Input>, m: Minute)
    requires cap > 0.0 && WellFormed(c) && Lone(cap, c, pick, ins, m)
    ensures Unadmitted(cap, m, CountersAfter(c, pick, ins, m), Trace(c, pick, ins).s.denials)
    ensures CountersAfter(c, pick, ins, m).frontier >= m.frontier
  {
    hide Lone, Trace, CountersAfter, Checks, Denials, Unadmitted, Frontier.Allows;
    if ins == [] {
      NothingDenied(cap, c, pick, m);
    } else {
      var front, i := ins[..|ins| - 1], ins[|ins| - 1];
      LonePrefix(cap, c, pick, ins, m);
      LoneDenials(cap, c, pick, front, m);
      CountersSnoc(c, pick, ins, m);
      var before, now := Trace(c, pick, front), CountersAfter(c, pick, front, m);
      CheckKeepsCount(cap, m, now, before.s.denials, Checks(c, before, i), i.allowed);
    }
  }

  // ---------------------------------------------------------------------------
  // Without a spare frontier model
  // ---------------------------------------------------------------------------

  /** The model the loop is about to call is of its tier's pool. */
  predicate OfItsPool(c: Config, s: State)
    requires IsTier(c, s.tier)
  {
    s.model in Pool(c, s.tier)
  }

  lemma {:induction false} HeadsAreOfTheirPool(c: Config, pick: nat, ins: seq<Input>)
    requires WellFormed(c) && c.bandit.None? && Trace(c, pick, ins).Looping?
    ensures OfItsPool(c, Trace(c, pick, ins).s)
  {
    if ins != [] {
      var before, i := Trace(c, pick, ins[..|ins| - 1]), ins[|ins| - 1];
      var d := Admit(c, before.s, i);
      hide Pool;
      match i.call
      case Returns(check) => assert OnAnswer(c, d, check, i).Looping? ==> OfItsPool(c, OnAnswer(c, d, check, i).s);
      case Throws(e) => assert OnFailure(c, d, e, i).Looping? ==> OfItsPool(c, OnFailure(c, d, e, i).s);
    }
  }

  /** After a failed call of this frontier model another one of the tier is tried. */
  predicate HasSpare(c: Config, m: ModelId)
    requires WellFormed(c)
  {
    m in Pool(c, 1) && Fallbacks(c, 1, {m}) != []
  }

  ghost predicate NoSpare(c: Config)
    requires WellFormed(c)
  {
    forall m :: m in Pool(c, 1) ==> !HasSpare(c, m)
  }

  /** A single frontier model has no spare. */
  lemma SingleHasNoSpare(c: Config)
    requires WellFormed(c) && |Pool(c, 1)| <= 1
    ensures NoSpare(c)
  {
    forall m | m in Pool(c, 1) ensures !HasSpare(c, m) {
      assert Pool(c, 1) == [m];
      FilterNone(Pool(c, 1), NotExcluded({m}, c.learning));
    }
  }

  lemma NothingLeft(c: Config, s: State)
    requires WellFormed(c) && s.tier == 1 && OfItsPool(c, s) && NoSpare(c)
    ensures Fallbacks(c, 1, s.failed + {s.model}) == []
  {
    var pool, more, fewer := Pool(c, 1), s.failed + {s.model}, {s.model};
    assert !HasSpare(c, s.model);
    FilterMembers(pool, NotExcluded(fewer, c.learning));
    forall k | 0 <= k < |pool| ensures !NotExcluded(more, c.learning)(pool[k]) {
      assert pool[k] in pool && pool[k] !in Fallbacks(c, 1, fewer);
    }
    FilterNone(pool, NotExcluded(more, c.learning));
  }

  /** Without a spare an allowed frontier pass is the last one. */
  lemma AllowedEnds(c: Config, s: State, i: Input)
    requires WellFormed(c) && IsTier(c, s.tier) && OfItsPool(c, s) && NoSpare(c)
    requires Checks(c, Looping(s), i) && i.allowed
    ensures !Step(c, s, i).Looping?
  {
    match i.call
    case Returns(check) =>
    case Throws(e) =>
      NothingLeft(c, s);
      var s1 := LogFailure(s, e);
      assert s1.failed == s.failed && s1.model == s.model && s1.tier == 1;
      hide Pool, Fallbacks, Filter, NoSpare;
  }

  lemma {:induction false} StillUnadmitted(cap: real, c: Config, pick: nat, ins: seq<Input>, m: Minute)
    requires cap > 0.0 && WellFormed(c) && c.bandit.None? && NoSpare(c) && Lone(cap, c, pick, ins, m)
    ensures Trace(c, pick, ins).Looping? ==> CountersAfter(c, pick, ins, m).frontier == m.frontier
    ensures Trace(c, pick, ins).s.denials <= Denials(cap, m)
  {
    if ins != [] {
      var front, i := ins[..|ins| - 1], ins[|ins| - 1];
      LonePrefix(cap, c, pick, ins, m);
      StillUnadmitted(cap, c, pick, front, m);
      LoneDenials(cap, c, pick, ins, m);
      var before := Trace(c, pick, front);
      if before.Looping? {
        HeadsAreOfTheirPool(c, pick, front);
        DenialsCount(c, before.s, i);
        if Checks(c, before, i) && i.allowed {
          AllowedEnds(c, before.s, i);
        }
      }
      hide Lone, Step, Denials, Pool, OfItsPool, NoSpare;
    }
  }

  function Times(n: nat, d: nat): nat { n * d }

  lemma TimesGrows(n: nat, d: nat, e: nat)
    requires d <= e
    ensures Times(n, d) <= Times(n, e)
  {
    assert n * e == n * d + n * (e - d);
  }

  /** What a run from `s0` with so many denials can call. */
  function Calls(c: Config, s0: State, denials: nat): nat
    requires WellFormed(c) && IsTier(c, s0.tier)
  {
    Bound.Limit(c, s0) + Times(Bound.Refund(c), denials)
  }

  lemma MoreDenialsMoreCalls(c: Config, s0: State, d: nat, e: nat)
    requires WellFormed(c) && IsTier(c, s0.tier) && d <= e
    ensures Calls(c, s0, d) <= Calls(c, s0, e)
  {
    hide Bound.Refund, Bound.Limit, Times;
    TimesGrows(Bound.Refund(c), d, e);
  }

  lemma CallsOfRun(c: Config, pick: nat, ins: seq<Input>)
    requires WellFormed(c) && Start(c, pick).Looping?
    ensures var s0, r := Trace(c, pick, []).s, Trace(c, pick, ins);
      && Bound.MainCalls(r.s.dispatches) <= Calls(c, s0, r.s.denials)
      && (r.Looping? ==> |ins| < Calls(c, s0, r.s.denials))
  {
    var s0, r := Trace(c, pick, []).s, Trace(c, pick, ins);
    Bound.CallsBounded(c, pick, ins);
    Bound.StartingPotential(c, pick);
    hide Trace, Pool, Bound.MainCalls, Bound.Limit, Bound.Refund, Bound.Below, Bound.Candidates;
    if r.Looping? {
      Bound.EveryPassCalls(c, pick, ins);
      Bound.SomethingLeft(c, r.s);
    }
  }

  /** Every lone run without a spare frontier model and without bandit choice ends without the clock: it is denied at
      most as often as the counters it started on deny in a row, makes at most as many main-loop calls as its capable
      models and that many refunds, and is over after that many passes. */
  lemma LoneRunEnds(cap: real, c: Config, pick: nat, ins: seq<Input>, m: Minute)
    requires cap > 0.0 && WellFormed(c) && Start(c, pick).Looping? && c.bandit.None? && NoSpare(c)
    requires Lone(cap, c, pick, ins, m)
    ensures var s0, r, d := Trace(c, pick, []).s, Trace(c, pick, ins), Denials(cap, m);
      && r.s.denials <= d
      && Bound.MainCalls(r.s.dispatches) <= Calls(c, s0, d)
      && (|ins| >= Calls(c, s0, d) ==> !r.Looping?)
  {
    StillUnadmitted(cap, c, pick, ins, m);
    CallsOfRun(c, pick, ins);
    MoreDenialsMoreCalls(c, Trace(c, pick, []).s, Trace(c, pick, ins).s.denials, Denials(cap, m));
    hide Trace, Calls, Denials, Lone, Pool, Start, NoSpare;
  }

  // ---------------------------------------------------------------------------
  // The ping-pong against real counters
  // ---------------------------------------------------------------------------

  /** A request without bandit choice that starts at an open frontier. */
  predicate StartsAtFrontier(c: Config)
    requires WellFormed(c)
  {
    c.bandit.None? && InitialTier(c) == 1 && Pool(c, 1) != [] && GetNext(c, 2) == Some(1)
  }

  ghost predicate AllDeniedAndFailing(c: Config, ins: seq<Input>) {
    forall k :: 0 <= k < |ins| ==> Bound.DeniedAndFailing(c, ins[k])
  }

  lemma {:induction false} PingPongCounts(c: Config, pick: nat, ins: seq<Input>, m: Minute)
    requires WellFormed(c) && StartsAtFrontier(c) && AllDeniedAndFailing(c, ins)
    ensures CountersAfter(c, pick, ins, m) == Minute(m.total + |ins|, m.frontier)
  {
    if ins != [] {
      PingPongCounts(c, pick, ins[..|ins| - 1], m);
      Bound.PingPong(c, pick, ins[..|ins| - 1]);
      hide Trace, Pool;
    }
  }

  lemma PingPongPrefix(c: Config, pick: nat, ins: seq<Input>, m: Minute, k: nat)
    requires WellFormed(c) && StartsAtFrontier(c) && AllDeniedAndFailing(c, ins) && k < |ins|
    ensures Checks(c, Trace(c, pick, ins[..k]), ins[k]) && !ins[k].allowed
    ensures CountersAfter(c, pick, ins[..k], m) == Minute(m.total + k, m.frontier)
  {
    PingPongCounts(c, pick, ins[..k], m);
    Bound.PingPong(c, pick, ins[..k]);
    hide Trace, CountersAfter;
  }

  lemma DeniedCheck(cap: real, c: Config, r: Status, m: Minute, i: Input, k: nat)
    requires cap > 0.0 && Checks(c, r, i) && !i.allowed && k <= Denials(cap, m)
    ensures Answers(cap, c, r, Minute(m.total + k, m.frontier), i) <==> k < Denials(cap, m)
  {
    DeniedMeansRoom(cap, m, k);
    hide Denials, Checks, Frontier.Allows;
  }

  lemma PingPongPass(cap: real, c: Config, pick: nat, ins: seq<Input>, m: Minute, k: nat)
    requires cap > 0.0 && WellFormed(c) && StartsAtFrontier(c) && AllDeniedAndFailing(c, ins)
    requires k < |ins| && k <= Denials(cap, m)
    ensures Answers(cap, c, Trace(c, pick, ins[..k]), CountersAfter(c, pick, ins[..k], m), ins[k]) <==> k < Denials(cap, m)
  {
    hide *;
    PingPongPrefix(c, pick, ins, m, k);
    DeniedCheck(cap, c, Trace(c, pick, ins[..k]), m, ins[k], k);
  }

  /** Passes that are denied the frontier and fail in tier 2 are a lone run against real counters exactly as long as the
      counters deny in a row: that far, and no further, the ping-pong goes on by itself. */
  lemma PingPongIsReal(cap: real, c: Config, pick: nat, ins: seq<Input>, m: Minute)
    requires cap > 0.0 && WellFormed(c) && StartsAtFrontier(c) && AllDeniedAndFailing(c, ins)
    ensures Lone(cap, c, pick, ins, m) <==> |ins| <= Denials(cap, m)
  {
    var d := Denials(cap, m);
    hide Trace, CountersAfter, Denials, Answers, StartsAtFrontier, AllDeniedAndFailing;
    if |ins| <= d {
      forall k | 0 <= k < |ins|
        ensures Answers(cap, c, Trace(c, pick, ins[..k]), CountersAfter(c, pick, ins[..k], m), ins[k])
      {
        PingPongPass(cap, c, pick, ins, m, k);
      }
    } else {
      PingPongPass(cap, c, pick, ins, m, d);
      assert !Answers(cap, c, Trace(c, pick, ins[..d]), CountersAfter(c, pick, ins[..d], m), ins[d]);
    }
  }

  // ---------------------------------------------------------------------------
  // With a spare frontier model
  // ---------------------------------------------------------------------------

  /** A pass in time that is denied the frontier, fails for good in tier 2 and draws the frontier model at `pick`. */
  function DeniedPass(c: Config, pick: nat): Input {
    Input(c.budget - 1.0, false, 0, Throws(Exn("BadRequestError", false, false)), pick, cs => [], m => Aggregation.Failed)
  }

  /** A pass in time that is allowed to the frontier and meets a provider error there. */
  function AllowedPass(c: Config): Input {
    Input(c.budget - 1.0, true, 0, Throws(Exn("RateLimitError", false, false)), 0, cs => [], m => Aggregation.Failed)
  }

  lemma ComesHome(c: Config, s: State, e: Exn, recorded: bool, dispatch: nat, pick: nat)
    requires WellFormed(c) && StartsAtFrontier(c) && s.tier == 2
    ensures EscalateAfterFailure(c, s, e, recorded, dispatch, pick) == Looping(MoveTo(c, s.(failed := {}), 1, pick))
  {
    assert SkipEmpty(c, 1) == 1;
    hide Pool, SkipEmpty;
  }

  /** An error that is no provider error leaves the tier of the call. */
  lemma ErrorLeavesTier(c: Config, s: State, e: Exn, i: Input)
    requires WellFormed(c) && IsTier(c, s.tier) && i.elapsed < c.budget && i.call == Throws(e) && !IsProviderError(e)
    ensures var d := Admit(c, s, i);
      Step(c, s, i) == EscalateAfterFailure(c, LogFailure(d, e), e, IsSloTimeout(e), |d.dispatches|, i.nextPick)
  {
    hide EscalateAfterFailure, AfterProviderError, Pool, LogFailure, Admit;
  }

  lemma DeniedPassReturns(c: Config, s: State, pick: nat)
    requires WellFormed(c) && StartsAtFrontier(c) && s.tier == 1 && pick < |Pool(c, 1)|
    ensures var r := Step(c, s, DeniedPass(c, pick));
      r.Looping? && r.s.tier == 1 && r.s.failed == {} && r.s.model == Pool(c, 1)[pick]
  {
    hide Step, Pool, StartsAtFrontier, EscalateAfterFailure;
    var i := DeniedPass(c, pick);
    var d, e := Admit(c, s, i), i.call.exn;
    ErrorLeavesTier(c, s, e, i);
    ComesHome(c, LogFailure(d, e), e, IsSloTimeout(e), |d.dispatches|, pick);
    assert pick % |Pool(c, 1)| == pick;
  }

  lemma AllowedPassStays(c: Config, s: State)
    requires WellFormed(c) && s.tier == 1 && s.failed == {} && HasSpare(c, s.model)
    ensures var r := Step(c, s, AllowedPass(c)); r.Looping? && r.s.tier == 1
  {
    var i := AllowedPass(c);
    var e := i.call.exn;
    var s1 := LogFailure(s, e);
    assert IsProviderError(e) && s1.tier == 1 && s1.failed + {s1.model} == {s.model};
    assert Step(c, s, i) == OnFailure(c, s, e, i) == AfterProviderError(c, s1, e, |s.dispatches|, 0);
    hide Pool, Fallbacks;
  }

  /** Under a cap of at most one half an allowed check right after a denied one is followed by a denied one. */
  lemma DeniedAgain(cap: real, t: nat, f: nat)
    requires cap <= 0.5 && t >= Frontier.MIN_TRAFFIC && !Frontier.Allows(cap, t, f)
    ensures !Frontier.Allows(cap, t + 2, f + 1)
  {
    var x, y := (f + 1) as real / (t + 1) as real, (f + 2) as real / (t + 3) as real;
    assert x * (t + 1) as real == (f + 1) as real && y * (t + 3) as real == (f + 2) as real;
    if y <= cap {
      Below(y, cap, (t + 3) as real);
      Below(cap, x, (t + 1) as real);
      assert cap * (t + 3) as real == cap * (t + 1) as real + 2.0 * cap;
    }
  }

  lemma Below(x: real, y: real, n: real)
    requires x <= y && n > 0.0
    ensures x * n <= y * n && (x < y ==> x * n < y * n)
  {
  }

  /** Where a run that goes on stands: at the frontier, on `x` afresh if the next check is allowed, which is then the only
      one in a row. */
  predicate Poised(cap: real, s: State, m: Minute, x: ModelId) {
    && s.tier == 1 && m.total >= Frontier.MIN_TRAFFIC
    && (Frontier.Allows(cap, m.total, m.frontier) ==>
          s.model == x && s.failed == {} && !Frontier.Allows(cap, m.total + 1, m.frontier + 1))
  }

  ghost predicate GoesOn(cap: real, c: Config, pick: nat, ins: seq<Input>, m: Minute, n: nat)
    requires WellFormed(c)
  {
    |ins| == n && Lone(cap, c, pick, ins, m) && Trace(c, pick, ins).Looping?
  }

  lemma LoneSnoc(cap: real, c: Config, pick: nat, ins: seq<Input>, m: Minute, i: Input)
    requires WellFormed(c) && Lone(cap, c, pick, ins, m)
    requires Checks(c, Trace(c, pick, ins), i)
    requires var now := CountersAfter(c, pick, ins, m); i.allowed == Frontier.Allows(cap, now.total, now.frontier)
    ensures Lone(cap, c, pick, ins + [i], m)
    ensures var now := CountersAfter(c, pick, ins, m);
      CountersAfter(c, pick, ins + [i], m) == Minute(now.total + 1, now.frontier + if i.allowed then 1 else 0)
    ensures Trace(c, pick, ins + [i]) == Step(c, Trace(c, pick, ins).s, i)
  {
    var all := ins + [i];
    assert all[..|all| - 1] == ins;
    TraceSnoc(c, pick, ins, i);
    hide Step, Trace, Frontier.Allows;
    forall k | 0 <= k < |all|
      ensures Answers(cap, c, Trace(c, pick, all[..k]), CountersAfter(c, pick, all[..k], m), all[k])
    {
      if k < |ins| {
        assert all[..k] == ins[..k];
      }
    }
  }

  /** One more pass, answered by the counters. */
  lemma PoisedPass(cap: real, c: Config, s: State, now: Minute, x: ModelId) returns (i: Input)
    requires cap <= 0.5 && WellFormed(c) && StartsAtFrontier(c) && HasSpare(c, x) && Poised(cap, s, now, x)
    ensures i.elapsed < c.budget && i.allowed == Frontier.Allows(cap, now.total, now.frontier)
    ensures Step(c, s, i).Looping?
    ensures Poised(cap, Step(c, s, i).s, Minute(now.total + 1, now.frontier + if i.allowed then 1 else 0), x)
  {
    if Frontier.Allows(cap, now.total, now.frontier) {
      i := AllowedPass(c);
      AllowedPassStays(c, s);
    } else {
      var k: nat :| k < |Pool(c, 1)| && Pool(c, 1)[k] == x;
      i := DeniedPass(c, k);
      DeniedPassReturns(c, s, k);
      DeniedAgain(cap, now.total, now.frontier);
    }
    hide Step, Pool, Fallbacks, StartsAtFrontier, HasSpare, Frontier.Allows;
  }

  lemma GoesOneFurther(cap: real, c: Config, pick: nat, ins: seq<Input>, m: Minute, x: ModelId, n: nat) returns (i: Input)
    requires cap <= 0.5 && WellFormed(c) && StartsAtFrontier(c) && HasSpare(c, x) && GoesOn(cap, c, pick, ins, m, n)
    requires Poised(cap, Trace(c, pick, ins).s, CountersAfter(c, pick, ins, m), x)
    ensures GoesOn(cap, c, pick, ins + [i], m, n + 1)
    ensures Poised(cap, Trace(c, pick, ins + [i]).s, CountersAfter(c, pick, ins + [i], m), x)
  {
    hide Trace, CountersAfter, Step, StartsAtFrontier, HasSpare, Lone, Frontier.Allows;
    i := PoisedPass(cap, c, Trace(c, pick, ins).s, CountersAfter(c, pick, ins, m), x);
    LoneSnoc(cap, c, pick, ins, m, i);
  }

  lemma {:induction false} GoesOnFor(cap: real, c: Config, pick: nat, m: Minute, x: ModelId, n: nat) returns (ins: seq<Input>)
    requires cap <= 0.5 && WellFormed(c) && StartsAtFrontier(c) && HasSpare(c, x)
    requires m.total >= Frontier.MIN_TRAFFIC && !Frontier.Allows(cap, m.total, m.frontier)
    ensures GoesOn(cap, c, pick, ins, m, n)
    ensures Poised(cap, Trace(c, pick, ins).s, CountersAfter(c, pick, ins, m), x)
  {
    if n == 0 {
      ins := [];
      assert SkipEmpty(c, 1) == 1;
    } else {
      var front := GoesOnFor(cap, c, pick, m, x, n - 1);
      var i := GoesOneFurther(cap, c, pick, front, m, x, n - 1);
      ins := front + [i];
    }
  }

  /** Lone runs from this minute go on for any number of passes. */
  ghost predicate Unbounded(cap: real, c: Config, pick: nat, m: Minute)
    requires WellFormed(c)
  {
    forall n: nat :: CanGoOn(cap, c, pick, m, n)
  }

  ghost predicate CanGoOn(cap: real, c: Config, pick: nat, m: Minute, n: nat)
    requires WellFormed(c)
  {
    exists ins :: GoesOn(cap, c, pick, ins, m, n)
  }

  /** From a start at the frontier and a minute that denies it, under a cap of at most one half, lone runs go on past every
      bound exactly if some frontier model has a spare: each allowed check then fails over to it, and the denied ones
      between clear its failures. */
  lemma LoneRunsUnboundedIff(cap: real, c: Config, pick: nat, m: Minute)
    requires 0.0 < cap <= 0.5 && WellFormed(c) && StartsAtFrontier(c)
    requires m.total >= Frontier.MIN_TRAFFIC && !Frontier.Allows(cap, m.total, m.frontier)
    ensures Unbounded(cap, c, pick, m) <==> !NoSpare(c)
  {
    if NoSpare(c) {
      CannotGoOn(cap, c, pick, m);
    } else {
      var x :| x in Pool(c, 1) && HasSpare(c, x);
      hide HasSpare, Pool, GoesOn, Poised, StartsAtFrontier, Frontier.Allows;
      forall n: nat ensures CanGoOn(cap, c, pick, m, n) {
        var ins := GoesOnFor(cap, c, pick, m, x, n);
      }
    }
  }

  lemma CannotGoOn(cap: real, c: Config, pick: nat, m: Minute)
    requires cap > 0.0 && WellFormed(c) && StartsAtFrontier(c) && NoSpare(c)
    ensures !Unbounded(cap, c, pick, m)
  {
    assert Start(c, pick).Looping? by {
      assert SkipEmpty(c, 1) == 1;
    }
    var n := Calls(c, Trace(c, pick, []).s, Denials(cap, m));
    hide Trace, Calls, Denials, Start, Pool, NoSpare, Lone;
    forall ins ensures !GoesOn(cap, c, pick, ins, m, n) {
      if Lone(cap, c, pick, ins, m) {
        LoneRunEnds(cap, c, pick, ins, m);
      }
    }
    assert !CanGoOn(cap, c, pick, m, n);
  }
}
