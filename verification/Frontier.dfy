/**
 The frontier traffic cap. Each check reads two counters and then, in a separate step, writes them; between the
 two other requests may read and write. The counters of one scope and one minute are modelled; the pipelined
 write is one step.
 */
module Frontier {
  import opened Wrappers
  import opened Reals

  const MIN_TRAFFIC: nat := 20

  /** Python's `(frontier + 1) / (total + 1) > cap`, below the traffic minimum never. */
  predicate Allows(cap: real, total: nat, frontier: nat) {
    total < MIN_TRAFFIC || (frontier + 1) as real / (total + 1) as real <= cap
  }

  // ---------------------------------------------------------------------------
  // Interleaved checks
  // ---------------------------------------------------------------------------

  /** The counters, and the checks that have read but not yet written: how many will allow, how many deny. */
  datatype Counters = Counters(total: nat, frontier: nat, allowing: nat, denying: nat) {
    function Pending(): nat { allowing + denying }
  }

  datatype Action = Read | WriteAllow | WriteDeny

  /** At most `k` checks are between their read and their write. */
  predicate Enabled(k: nat, s: Counters, a: Action) {
    match a
    case Read => s.Pending() < k
    case WriteAllow => s.allowing > 0
    case WriteDeny => s.denying > 0
  }

  function Act(cap: real, s: Counters, a: Action): Counters
    requires a.WriteAllow? ==> s.allowing > 0
    requires a.WriteDeny? ==> s.denying > 0
  {
    match a
    case Read =>
      if Allows(cap, s.total, s.frontier) then s.(allowing := s.allowing + 1) else s.(denying := s.denying + 1)
    case WriteAllow => s.(total := s.total + 1, frontier := s.frontier + 1, allowing := s.allowing - 1)
    case WriteDeny => s.(total := s.total + 1, denying := s.denying - 1)
  }

  /** The counters after an interleaving of an empty minute, or None if it is not one of at most `k` checks. */
  function After(cap: real, k: nat, actions: seq<Action>): Option<Counters> {
    if actions == [] then Some(Counters(0, 0, 0, 0)) else
    match After(cap, k, actions[..|actions| - 1])
    case None => None
    case Some(s) => if Enabled(k, s, actions[|actions| - 1]) then Some(Act(cap, s, actions[|actions| - 1])) else None
  }

  /** The capped share of some traffic. */
  function Share(cap: real, traffic: nat): real { cap * traffic as real }

  /** The cap with its slack: the traffic minimum or the capped share of all traffic, read or written. */
  function Ceiling(cap: real, traffic: nat): real { Max(MIN_TRAFFIC as real, Share(cap, traffic)) }

  ghost predicate CapInv(cap: real, k: nat, s: Counters) {
    && s.frontier <= s.total
    && s.Pending() <= k
    && (s.frontier + s.allowing) as real <= Ceiling(cap, s.total + s.Pending()) + k as real - 1.0
  }

  lemma MoreTrafficRaisesCeiling(cap: real, t: nat)
    ensures Ceiling(cap, t) <= Ceiling(cap, t + 1)
  {
    assert cap * (t + 1) as real == cap * t as real + cap;
    if cap < 0.0 {
      assert cap * (t + 1) as real <= 0.0;
    }
  }

  /** An allowed read respects the ceiling of the traffic it joins. */
  lemma AllowedReadFits(cap: real, total: nat, frontier: nat, pending: nat)
    requires Allows(cap, total, frontier) && frontier <= total
    ensures (frontier + 1) as real <= Ceiling(cap, total + pending + 1)
  {
    if total < MIN_TRAFFIC {
      assert (frontier + 1) as real <= MIN_TRAFFIC as real;
    } else {
      var f, t := (frontier + 1) as real, (total + 1) as real;
      assert f == f / t * t;
      assert f / t > 0.0;
      assert f <= cap * t;
      assert cap * (total + pending + 1) as real == cap * t + cap * pending as real;
      assert cap * pending as real >= 0.0;
    }
  }

  lemma ActKeepsCap(cap: real, k: nat, s: Counters, a: Action)
    requires CapInv(cap, k, s) && Enabled(k, s, a)
    ensures CapInv(cap, k, Act(cap, s, a))
  {
    if a.Read? {
      if Allows(cap, s.total, s.frontier) {
        AllowedReadFits(cap, s.total, s.frontier, s.Pending());
      } else {
        MoreTrafficRaisesCeiling(cap, s.total + s.Pending());
      }
    }
  }

  /** Every interleaving of checks, at most `k` at a time: the frontier count never passes the total, and counted
      plus allowed-but-unwritten frontier requests stay under the ceiling by less than `k`. */
  lemma {:induction false} CapHoldsUnderInterleaving(cap: real, k: nat, actions: seq<Action>)
    requires k > 0
    ensures var s := After(cap, k, actions); s.Some? ==> CapInv(cap, k, s.value)
  {
    if actions != [] {
      CapHoldsUnderInterleaving(cap, k, actions[..|actions| - 1]);
      var before := After(cap, k, actions[..|actions| - 1]);
      if before.Some? && Enabled(k, before.value, actions[|actions| - 1]) {
        ActKeepsCap(cap, k, before.value, actions[|actions| - 1]);
      }
    }
  }

  /** At rest the frontier share exceeds the ceiling by at most the number of simultaneous checks less one. */
  lemma CapAtRest(cap: real, k: nat, actions: seq<Action>)
    requires k > 0
    ensures var s := After(cap, k, actions);
      s.Some? && s.value.Pending() == 0 ==>
        s.value.frontier as real <= Ceiling(cap, s.value.total) + k as real - 1.0
  {
    CapHoldsUnderInterleaving(cap, k, actions);
  }

  function Times(n: nat, a: Action): seq<Action> { seq(n, i => a) }

  lemma Next(cap: real, k: nat, actions: seq<Action>, a: Action)
    requires After(cap, k, actions).Some? && Enabled(k, After(cap, k, actions).value, a)
    ensures After(cap, k, actions + [a]) == Some(Act(cap, After(cap, k, actions).value, a))
  {
    assert (actions + [a])[..|actions + [a]| - 1] == actions;
  }

  lemma TimesSnoc(actions: seq<Action>, j: nat, a: Action)
    requires j > 0
    ensures actions + Times(j, a) == actions + Times(j - 1, a) + [a]
  {
  }

  lemma {:induction false} Reading(cap: real, k: nat, n: nat, j: nat, actions: seq<Action>)
    requires j <= k && n < MIN_TRAFFIC && After(cap, k, actions) == Some(Counters(n, n, 0, 0))
    ensures After(cap, k, actions + Times(j, Read)) == Some(Counters(n, n, j, 0))
  {
    hide After;
    if j == 0 {
      assert actions + Times(0, Read) == actions;
    } else {
      Reading(cap, k, n, j - 1, actions);
      TimesSnoc(actions, j, Read);
      Next(cap, k, actions + Times(j - 1, Read), Read);
    }
  }

  lemma {:induction false} Writing(cap: real, k: nat, n: nat, a: nat, j: nat, actions: seq<Action>)
    requires j <= a && After(cap, k, actions) == Some(Counters(n, n, a, 0))
    ensures After(cap, k, actions + Times(j, WriteAllow)) == Some(Counters(n + j, n + j, a - j, 0))
  {
    hide After;
    if j == 0 {
      assert actions + Times(0, WriteAllow) == actions;
    } else {
      Writing(cap, k, n, a, j - 1, actions);
      TimesSnoc(actions, j, WriteAllow);
      Next(cap, k, actions + Times(j - 1, WriteAllow), WriteAllow);
    }
  }

  /** `n` checks one after the other, each allowed because traffic is below the minimum. */
  function WarmUp(n: nat): seq<Action> {
    if n == 0 then [] else WarmUp(n - 1) + Times(1, Read) + Times(1, WriteAllow)
  }

  lemma OneAllowed(cap: real, k: nat, n: nat, actions: seq<Action>)
    requires k > 0 && n < MIN_TRAFFIC && After(cap, k, actions) == Some(Counters(n, n, 0, 0))
    ensures After(cap, k, actions + Times(1, Read) + Times(1, WriteAllow)) == Some(Counters(n + 1, n + 1, 0, 0))
  {
    hide After, Times;
    Reading(cap, k, n, 1, actions);
    Writing(cap, k, n, 1, 1, actions + Times(1, Read));
  }

  lemma {:induction false} WarmUpCounts(cap: real, k: nat, n: nat)
    requires k > 0 && n <= MIN_TRAFFIC
    ensures After(cap, k, WarmUp(n)) == Some(Counters(n, n, 0, 0))
  {
    if n > 0 {
      hide After, Times;
      WarmUpCounts(cap, k, n - 1);
      OneAllowed(cap, k, n - 1, WarmUp(n - 1));
    }
  }

  /** One request short of the traffic minimum, `k` checks that all read before any writes are all allowed. */
  lemma MinimumOvershot(cap: real, k: nat, n: nat)
    requires k > 0 && n + 1 == MIN_TRAFFIC
    ensures exists actions :: After(cap, k, actions) == Some(Counters(n + k, n + k, 0, 0))
  {
    WarmUpCounts(cap, k, n);
    Reading(cap, k, n, k, WarmUp(n));
    Writing(cap, k, n, k, k, WarmUp(n) + Times(k, Read));
    hide WarmUp, Times, After;
    assert After(cap, k, WarmUp(n) + Times(k, Read) + Times(k, WriteAllow)) == Some(Counters(n + k, n + k, 0, 0));
  }

  /** The bound with nothing to spare, whatever is pending. */
  ghost predicate Within(cap: real, k: nat, s: Counters) {
    && s.frontier <= s.total && s.Pending() <= k
    && (s.frontier + s.allowing) as real < Ceiling(cap, s.total + s.Pending()) + k as real - 1.0
  }

  /** A cap whose share of the first 19 + `k` requests exceeds the traffic minimum. */
  predicate Generous(cap: real, k: nat) { Share(cap, MIN_TRAFFIC - 1 + k) > MIN_TRAFFIC as real }

  lemma ShareGrows(cap: real, t: nat, u: nat)
    requires cap > 0.0 && t <= u
    ensures Share(cap, t) <= Share(cap, u) && (t < u ==> Share(cap, t) < Share(cap, u))
  {
    assert Share(cap, u) - Share(cap, t) == cap * (u - t) as real;
  }

  lemma ShareSign(cap: real, t: nat)
    ensures cap <= 0.0 ==> Share(cap, t) <= 0.0
    ensures cap <= 1.0 ==> Share(cap, t) <= t as real
    ensures cap > 1.0 && t > 0 ==> Share(cap, t) > t as real
  {
    assert t as real - Share(cap, t) == (1.0 - cap) * t as real;
  }

  lemma EarlyJoins(cap: real, k: nat, total: nat, frontier: nat, allowing: nat, pending: nat)
    requires k > 0 && Generous(cap, k)
    requires total < MIN_TRAFFIC && frontier <= total && allowing <= pending < k
    ensures (frontier + allowing + 1) as real < Ceiling(cap, total + pending + 1) + k as real - 1.0
  {
    ShareSign(cap, MIN_TRAFFIC - 1 + k);
    hide Share;
    if total + pending + 1 >= MIN_TRAFFIC - 1 + k {
      ShareGrows(cap, MIN_TRAFFIC - 1 + k, total + pending + 1);
    }
  }

  lemma AllowedIsCovered(cap: real, total: nat, frontier: nat)
    requires total >= MIN_TRAFFIC && Allows(cap, total, frontier)
    ensures (frontier + 1) as real <= Share(cap, total + 1)
  {
    var f, t := (frontier + 1) as real, (total + 1) as real;
    assert f == f / t * t;
  }

  lemma LateJoins(cap: real, k: nat, total: nat, frontier: nat, allowing: nat, pending: nat)
    requires k > 0 && Generous(cap, k)
    requires total >= MIN_TRAFFIC && Allows(cap, total, frontier) && frontier <= total && allowing <= pending < k
    ensures (frontier + allowing + 1) as real < Ceiling(cap, total + pending + 1) + k as real - 1.0
  {
    ShareSign(cap, MIN_TRAFFIC - 1 + k);
    ShareSign(cap, total + 1);
    AllowedIsCovered(cap, total, frontier);
    hide Share, Allows;
    ShareGrows(cap, total + 1, total + pending + 1);
  }

  lemma ActStaysWithin(cap: real, k: nat, s: Counters, a: Action)
    requires k > 0 && Generous(cap, k) && Within(cap, k, s) && Enabled(k, s, a)
    ensures Within(cap, k, Act(cap, s, a))
  {
    hide Generous;
    if a.Read? {
      if !Allows(cap, s.total, s.frontier) {
        MoreTrafficRaisesCeiling(cap, s.total + s.Pending());
      } else if s.total < MIN_TRAFFIC {
        EarlyJoins(cap, k, s.total, s.frontier, s.allowing, s.Pending());
      } else {
        LateJoins(cap, k, s.total, s.frontier, s.allowing, s.Pending());
      }
    }
    hide Ceiling, Allows;
  }

  lemma NothingWithin(cap: real, k: nat)
    requires k > 0
    ensures Within(cap, k, Counters(0, 0, 0, 0))
  {
  }

  lemma {:induction false} StaysWithin(cap: real, k: nat, actions: seq<Action>)
    requires k > 0 && Generous(cap, k)
    ensures var s := After(cap, k, actions); s.Some? ==> Within(cap, k, s.value)
  {
    hide Generous, Ceiling, Allows;
    if actions == [] {
      NothingWithin(cap, k);
    } else {
      StaysWithin(cap, k, actions[..|actions| - 1]);
      var before := After(cap, k, actions[..|actions| - 1]);
      if before.Some? && Enabled(k, before.value, actions[|actions| - 1]) {
        ActStaysWithin(cap, k, before.value, actions[|actions| - 1]);
      }
    }
  }

  /** At rest, with the frontier count exactly at the bound. */
  ghost predicate AtTheBound(cap: real, k: nat, actions: seq<Action>) {
    var s := After(cap, k, actions);
    s.Some? && s.value.Pending() == 0 && s.value.frontier as real == Ceiling(cap, s.value.total) + k as real - 1.0
  }

  /** The bound is reached by some interleaving exactly when the cap's share of the first 19 + `k` requests stays
      within the traffic minimum; under any larger cap every interleaving stays strictly below it. */
  lemma BoundIsReached(cap: real, k: nat)
    requires k > 0
    ensures (exists actions :: AtTheBound(cap, k, actions)) <==> Share(cap, MIN_TRAFFIC - 1 + k) <= MIN_TRAFFIC as real
  {
    if Generous(cap, k) {
      forall actions ensures !AtTheBound(cap, k, actions) {
        StaysWithin(cap, k, actions);
        hide After, Ceiling;
      }
    } else {
      var n: nat := MIN_TRAFFIC - 1;
      MinimumOvershot(cap, k, n);
      hide After;
      var actions :| After(cap, k, actions) == Some(Counters(n + k, n + k, 0, 0));
      assert AtTheBound(cap, k, actions);
    }
  }

  // ---------------------------------------------------------------------------
  // One check at a time
  // ---------------------------------------------------------------------------

  function Ceil(x: real): int { -((-x).Floor) }

  /** How many checks in a row are denied from here when nobody else writes. */
  function DenialsInARow(cap: real, total: nat, frontier: nat): nat
    requires cap > 0.0
  {
    var d := Ceil((frontier + 1) as real / cap) - (total + 1);
    if total < MIN_TRAFFIC || d < 0 then 0 else d
  }

  /** Being allowed at a total of `t` is the cap's share of `t + 1` covering one more frontier request. */
  lemma AllowedIff(cap: real, t: nat, frontier: nat)
    requires cap > 0.0 && t >= MIN_TRAFFIC
    ensures Allows(cap, t, frontier) <==> Ceil((frontier + 1) as real / cap) <= t + 1
  {
    var f, n := (frontier + 1) as real, (t + 1) as real;
    assert f / n <= cap <==> f <= cap * n by {
      assert f == f / n * n;
      if f / n <= cap {
        assert f / n * n <= cap * n;
      } else {
        assert f / n * n > cap * n;
      }
    }
    assert f <= cap * n <==> f / cap <= n by {
      assert f == f / cap * cap;
      if f / cap <= n {
        assert f / cap * cap <= n * cap;
      } else {
        assert f / cap * cap > n * cap;
      }
    }
    var x := f / cap;
    assert x <= n <==> -n <= -x;
    assert Ceil(x) <= t + 1 <==> (-x).Floor >= -(t + 1);
  }

  /** Sequentially, the run of denials from any counters has exactly the computed length: each of the next
      checks is denied, raising only the total, until the one that is allowed. */
  lemma DenialRun(cap: real, total: nat, frontier: nat, j: nat)
    requires cap > 0.0
    ensures var d := DenialsInARow(cap, total, frontier);
      && (j < d ==> !Allows(cap, total + j, frontier))
      && Allows(cap, total + d, frontier)
  {
    var d := DenialsInARow(cap, total, frontier);
    if total >= MIN_TRAFFIC {
      AllowedIff(cap, total + j, frontier);
      AllowedIff(cap, total + d, frontier);
    }
  }

  /** `j` checks one after the other, each denied. */
  function Denied(j: nat): seq<Action> {
    if j == 0 then [] else Denied(j - 1) + [Read] + [WriteDeny]
  }

  lemma OneDenial(cap: real, actions: seq<Action>, t: nat, f: nat)
    requires After(cap, 1, actions) == Some(Counters(t, f, 0, 0)) && !Allows(cap, t, f)
    ensures After(cap, 1, actions + [Read] + [WriteDeny]) == Some(Counters(t + 1, f, 0, 0))
  {
    hide Allows, After;
    Next(cap, 1, actions, Read);
    Next(cap, 1, actions + [Read], WriteDeny);
  }

  lemma {:induction false} DenialsHappen(cap: real, j: nat, actions: seq<Action>, n: nat)
    requires cap > 0.0 && After(cap, 1, actions) == Some(Counters(n, n, 0, 0)) && j <= DenialsInARow(cap, n, n)
    ensures After(cap, 1, actions + Denied(j)) == Some(Counters(n + j, n, 0, 0))
  {
    hide DenialsInARow, Allows, After;
    if j == 0 {
      assert actions + Denied(0) == actions;
    } else {
      DenialsHappen(cap, j - 1, actions, n);
      DenialRun(cap, n, n, j - 1);
      OneDenial(cap, actions + Denied(j - 1), n + j - 1, n);
      assert actions + Denied(j) == actions + Denied(j - 1) + [Read] + [WriteDeny];
    }
  }

  /** Denials are real: even one check at a time, from an empty minute, the whole computed run of them takes place after
      as many allowed requests as the traffic minimum. */
  lemma DenialsAreReachable(cap: real, j: nat, n: nat)
    requires cap > 0.0 && n == MIN_TRAFFIC && j <= DenialsInARow(cap, n, n)
    ensures exists actions :: After(cap, 1, actions) == Some(Counters(n + j, n, 0, 0))
  {
    WarmUpCounts(cap, 1, n);
    DenialsHappen(cap, j, WarmUp(n), n);
  }

  /** Some counters that are reached at rest deny the next check. */
  ghost predicate CanDeny(cap: real) {
    exists actions, t, f :: After(cap, 1, actions) == Some(Counters(t, f, 0, 0)) && !Allows(cap, t, f)
  }

  lemma AtMostAll(t: nat, f: nat)
    requires f <= t
    ensures (f + 1) as real / (t + 1) as real <= 1.0
  {
    var q := (f + 1) as real / (t + 1) as real;
    assert q * (t + 1) as real == (f + 1) as real;
  }

  lemma RestAllows(cap: real, actions: seq<Action>, t: nat, f: nat)
    requires cap >= 1.0 && After(cap, 1, actions) == Some(Counters(t, f, 0, 0))
    ensures Allows(cap, t, f)
  {
    CapHoldsUnderInterleaving(cap, 1, actions);
    hide After, Ceiling;
    AtMostAll(t, f);
  }

  lemma OnlyFrontierTraffic(cap: real, n: nat)
    requires n >= MIN_TRAFFIC && cap < 1.0
    ensures !Allows(cap, n, n)
  {
    assert (n + 1) as real / (n + 1) as real == 1.0;
  }

  lemma FirstDenial(cap: real, n: nat)
    requires n == MIN_TRAFFIC && cap < 1.0
    ensures CanDeny(cap)
  {
    WarmUpCounts(cap, 1, n);
    OnlyFrontierTraffic(cap, n);
    hide After, WarmUp, Allows;
    var actions := WarmUp(n);
    assert After(cap, 1, actions) == Some(Counters(n, n, 0, 0)) && !Allows(cap, n, n);
  }

  /** A check is ever denied exactly under a cap below 1. */
  lemma DeniesIff(cap: real)
    ensures CanDeny(cap) <==> cap < 1.0
  {
    if cap < 1.0 {
      FirstDenial(cap, MIN_TRAFFIC);
    } else {
      hide After, Allows;
      forall actions, t, f | After(cap, 1, actions) == Some(Counters(t, f, 0, 0)) ensures Allows(cap, t, f) {
        RestAllows(cap, actions, t, f);
      }
    }
  }

  /** A cap of zero or less denies every check once the traffic minimum is reached. */
  lemma NonPositiveCapDenies(cap: real, total: nat, frontier: nat)
    requires cap <= 0.0 && total >= MIN_TRAFFIC
    ensures !Allows(cap, total, frontier)
  {
    assert (frontier + 1) as real / (total + 1) as real > 0.0;
  }

  /** The counters of one minute, by scope: a tenant, or "global" without one. */
  class CapStore {
    var total: map<string, nat>
    var frontier: map<string, nat>

    constructor ()
      ensures total == map[] && frontier == map[]
    {
      total, frontier := map[], map[];
    }

    function Count(m: map<string, nat>, scope: string): nat {
      if scope in m then m[scope] else 0
    }

    /** One check whose read and write are not interrupted. `policyCap` applies without an override. */
    method CheckAndRecord(tenant: Option<string>, capOverride: Option<real>, policyCap: real) returns (allowed: bool)
      modifies this
      ensures var scope := if tenant.Some? && tenant.value != "" then tenant.value else "global";
        var cap := if capOverride.Some? then capOverride.value else policyCap;
        var t, f := Count(old(total), scope), Count(old(frontier), scope);
        && allowed == Allows(cap, t, f)
        && total == old(total)[scope := t + 1]
        && frontier == if allowed then old(frontier)[scope := f + 1] else old(frontier)
    {
      var scope := if tenant.Some? && tenant.value != "" then tenant.value else "global";
      var cap := if capOverride.Some? then capOverride.value else policyCap;
      var t, f := Count(total, scope), Count(frontier, scope);
      if t < MIN_TRAFFIC {
        total := total[scope := t + 1];
        frontier := frontier[scope := f + 1];
        return true;
      }
      var projected := (f + 1) as real / (t + 1) as real;
      if projected > cap {
        total := total[scope := t + 1];
        return false;
      }
      total := total[scope := t + 1];
      frontier := frontier[scope := f + 1];
      return true;
    }
  }
}
