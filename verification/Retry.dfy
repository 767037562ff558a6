/** The retry loop around one provider call, and how long a dispatch can take. */
module Retry {
  import opened Wrappers
  import opened Exceptions
  import opened Reals

  /** One attempt as the provider and the clock decide it; `jitter` is the random part of the pause after it. */
  datatype Attempt = Attempt(duration: real, error: Option<Exn>, jitter: real)

  datatype Outcome = Answer(attempt: nat) | Error(exn: Exn) | NoAttempts

  function Pow2(n: nat): nat { if n == 0 then 1 else 2 * Pow2(n - 1) }

  function Delay(base: real, cap: real, attempt: nat, jitter: real): real {
    Min(base * Pow2(attempt) as real + jitter, cap)
  }

  predicate Retried(a: Attempt) { a.error.Some? && IsRetryable(a.error.value) }

  /** Every attempt before `n` failed with a retryable error. */
  predicate AllRetried(attempts: nat -> Attempt, n: nat) {
    forall k :: 0 <= k < n ==> Retried(attempts(k))
  }

  /** The time of `n` attempts that all fail, with the pause after each but a last one. */
  function Spent(attempts: nat -> Attempt, n: nat, limit: nat, base: real, cap: real): real {
    if n == 0 then 0.0 else
      Spent(attempts, n - 1, limit, base, cap) + attempts(n - 1).duration
      + if n < limit then Delay(base, cap, n - 1, attempts(n - 1).jitter) else 0.0
  }

  /** The attempts that are made when `limit` allows: up to the first answer or non-retryable error. */
  ghost predicate Made(attempts: nat -> Attempt, limit: nat, made: nat) {
    && made <= limit
    && (made > 0 ==> AllRetried(attempts, made - 1))
    && (made < limit ==> made > 0 && !Retried(attempts(made - 1)))
  }

  /** The loop of `with_retry`, with its clock: it makes exactly the attempts up to the first that answers or
      fails for good, and reports that one, or the last error when the attempts run out. */
  method WithRetry(attempts: nat -> Attempt, limit: nat, base: real, cap: real)
    returns (outcome: Outcome, made: nat, elapsed: real)
    ensures Made(attempts, limit, made)
    ensures outcome == if made == 0 then NoAttempts
                       else if attempts(made - 1).error.None? then Answer(made - 1)
                       else Error(attempts(made - 1).error.value)
    ensures made > 0 ==> elapsed == Spent(attempts, made - 1, limit, base, cap) + attempts(made - 1).duration
  {
    outcome, made, elapsed := NoAttempts, 0, 0.0;
    while made < limit
      invariant made <= limit && AllRetried(attempts, made)
      invariant made == 0 ==> outcome == NoAttempts
      invariant made > 0 ==> outcome == Error(attempts(made - 1).error.value)
      invariant elapsed == Spent(attempts, made, limit, base, cap)
    {
      var a := attempts(made);
      elapsed := elapsed + a.duration;
      made := made + 1;
      if a.error.None? {
        outcome := Answer(made - 1);
        return;
      }
      outcome := Error(a.error.value);
      if !IsRetryable(a.error.value) {
        return;
      }
      if made < limit {
        elapsed := elapsed + Delay(base, cap, made - 1, a.jitter);
      }
    }
  }

  // ---------------------------------------------------------------------------
  // Time
  // ---------------------------------------------------------------------------

  /** Each attempt respects the timeout it was given, and pauses jitter by at most half a second. */
  ghost predicate Punctual(attempts: nat -> Attempt, timeout: real) {
    forall k: nat :: 0.0 <= attempts(k).duration <= timeout && 0.0 <= attempts(k).jitter <= 0.5
  }

  /** The longest pause after attempt `i`. */
  function LongestDelay(base: real, cap: real, i: nat): real { Delay(base, cap, i, 0.5) }

  /** The longest pauses between `n` attempts. */
  function Pauses(n: nat, base: real, cap: real): real {
    if n <= 1 then 0.0 else Pauses(n - 1, base, cap) + LongestDelay(base, cap, n - 2)
  }

  lemma {:induction false} PowPositive(n: nat)
    ensures Pow2(n) > 0
  {
    if n > 0 {
      PowPositive(n - 1);
    }
  }

  lemma DelayBounds(base: real, cap: real, i: nat, jitter: real)
    requires 0.0 <= base && 0.0 <= cap && 0.0 <= jitter <= 0.5
    ensures 0.0 <= Delay(base, cap, i, jitter) <= LongestDelay(base, cap, i)
    ensures base > 0.0 && cap > 0.0 ==> Delay(base, cap, i, jitter) > 0.0
  {
    PowPositive(i);
    var x := Pow2(i) as real;
    hide Pow2;
    assert 0.0 <= base * x;
    assert base > 0.0 ==> 0.0 < base * x;
  }

  /** A pause is never longer than the cap; below the cap it doubles with every attempt, but for the jitter. */
  lemma PauseGrows(base: real, cap: real, i: nat, jitter: real)
    ensures Delay(base, cap, i, jitter) <= cap
    ensures Delay(base, cap, i + 1, jitter) < cap && base >= 0.0 ==>
      Delay(base, cap, i + 1, jitter) - jitter == 2.0 * (Delay(base, cap, i, jitter) - jitter)
  {
    PowPositive(i);
    var x := Pow2(i) as real;
    assert Pow2(i + 1) as real == 2.0 * x;
    hide Pow2;
    assert base * (2.0 * x) == 2.0 * (base * x);
    assert base >= 0.0 ==> base * x >= 0.0;
  }

  function Times(n: nat, x: real): real { n as real * x }

  lemma OneMore(n: nat, x: real)
    ensures Times(n + 1, x) == Times(n, x) + x
  {
  }

  lemma {:induction false} SpentBounded(attempts: nat -> Attempt, n: nat, limit: nat, base: real, cap: real, timeout: real)
    requires n < limit && 0.0 <= base && 0.0 <= cap && Punctual(attempts, timeout)
    ensures 0.0 <= Spent(attempts, n, limit, base, cap) <= Times(n, timeout) + Pauses(n + 1, base, cap)
  {
    if n > 0 {
      SpentBounded(attempts, n - 1, limit, base, cap, timeout);
      var a := attempts(n - 1);
      assert 0.0 <= a.duration <= timeout;
      OneMore(n - 1, timeout);
      DelayBounds(base, cap, n - 1, a.jitter);
      hide Delay, LongestDelay, Times;
    }
  }

  lemma {:induction false} PausesGrow(n: nat, m: nat, base: real, cap: real)
    requires n <= m && 0.0 <= base && 0.0 <= cap
    ensures Pauses(n, base, cap) <= Pauses(m, base, cap)
    decreases m - n
  {
    if n < m {
      PausesGrow(n, m - 1, base, cap);
      if m > 1 {
        DelayBounds(base, cap, m - 2, 0.5);
        hide Delay;
      }
    }
  }

  lemma {:induction false} ProductGrows(n: nat, m: nat, x: real)
    requires n <= m && 0.0 <= x
    ensures Times(n, x) <= Times(m, x)
    decreases m - n
  {
    if n < m {
      ProductGrows(n, m - 1, x);
      OneMore(m - 1, x);
      hide Times;
    }
  }

  /** A call with `limit` attempts takes at most `limit` timeouts and the pauses between them. */
  lemma CallTime(attempts: nat -> Attempt, limit: nat, made: nat, base: real, cap: real, timeout: real)
    requires 0 < made <= limit && 0.0 <= base && 0.0 <= cap && Punctual(attempts, timeout)
    ensures Spent(attempts, made - 1, limit, base, cap) + attempts(made - 1).duration
      <= Times(limit, timeout) + Pauses(limit, base, cap)
  {
    SpentBounded(attempts, made - 1, limit, base, cap, timeout);
    PausesGrow(made, limit, base, cap);
    assert 0.0 <= attempts(made - 1).duration <= timeout;
    OneMore(made - 1, timeout);
    ProductGrows(made, limit, timeout);
    hide Spent, Pauses, Punctual, Times;
  }

  /** The timeout of a dispatch begun at `elapsed`: the tier's SLO if there is one, capped at the remaining budget. */
  function EffectiveTimeout(slo: Option<real>, budget: real, elapsed: real): real {
    var remaining := budget - elapsed;
    Min(if slo.Some? && slo.value != 0.0 then slo.value else remaining, remaining)
  }

  /** A dispatch begun at `elapsed`, with the engine's three attempts, one second of base delay and ten at most,
      ends within three timeouts and four seconds of pauses. */
  lemma DispatchEnds(attempts: nat -> Attempt, made: nat, slo: real, budget: real, elapsed: real)
    requires 0 < made <= 3 && slo > 0.0 && elapsed < budget
    requires Punctual(attempts, EffectiveTimeout(Some(slo), budget, elapsed))
    ensures elapsed + Spent(attempts, made - 1, 3, 1.0, 10.0) + attempts(made - 1).duration
      <= elapsed + 3.0 * Min(slo, budget - elapsed) + 4.0
  {
    CallTime(attempts, 3, made, 1.0, 10.0, EffectiveTimeout(Some(slo), budget, elapsed));
    assert Pow2(1) == 2;
    assert Pauses(3, 1.0, 10.0) == 4.0;
  }

  /** A call's time up to the end of its last attempt. */
  function Duration(attempts: nat -> Attempt, made: nat, limit: nat, base: real, cap: real): real
    requires made > 0
  {
    Spent(attempts, made - 1, limit, base, cap) + attempts(made - 1).duration
  }

  /** Whatever the provider does within its timeout, the call is over in time. */
  ghost predicate AlwaysWithin(limit: nat, base: real, cap: real, timeout: real, time: real) {
    forall attempts, made ::
      Punctual(attempts, timeout) && made > 0 && Made(attempts, limit, made) ==>
        Duration(attempts, made, limit, base, cap) <= time
  }

  /** The provider at its worst: every attempt takes the whole timeout, and every pause is the longest. */
  function AllTimeOut(timeout: real): nat -> Attempt {
    k => Attempt(timeout, Some(Exn("Timeout", false, true)), 0.5)
  }

  lemma {:induction false} WorstCase(n: nat, limit: nat, base: real, cap: real, timeout: real)
    requires n < limit
    ensures Spent(AllTimeOut(timeout), n, limit, base, cap) == Times(n, timeout) + Pauses(n + 1, base, cap)
  {
    if n > 0 {
      WorstCase(n - 1, limit, base, cap, timeout);
      OneMore(n - 1, timeout);
      hide Delay, Times;
    }
  }

  /** The bound on a call is exact: every call is over within a given time if and only if `limit` timeouts and the
      longest pauses between them are. */
  lemma WithinIff(limit: nat, base: real, cap: real, timeout: real, time: real)
    requires limit > 0 && 0.0 <= base && 0.0 <= cap && 0.0 <= timeout
    ensures AlwaysWithin(limit, base, cap, timeout, time) <==> Times(limit, timeout) + Pauses(limit, base, cap) <= time
  {
    if Times(limit, timeout) + Pauses(limit, base, cap) <= time {
      forall attempts, made | Punctual(attempts, timeout) && made > 0 && Made(attempts, limit, made)
        ensures Duration(attempts, made, limit, base, cap) <= time
      {
        CallTime(attempts, limit, made, base, cap, timeout);
      }
    }
    var worst := AllTimeOut(timeout);
    WorstCase(limit - 1, limit, base, cap, timeout);
    OneMore(limit - 1, timeout);
    assert Duration(worst, limit, limit, base, cap) == Times(limit, timeout) + Pauses(limit, base, cap);
    assert Punctual(worst, timeout) && Made(worst, limit, limit);
  }

  /** Capping the timeout at the remaining budget keeps a dispatch within the deadline exactly if an SLO is enforced
      and three of it and four seconds still fit: the cap itself never saves a dispatch, because it bounds one attempt
      and timeouts are retried. */
  lemma DeadlineKeptIff(slo: Option<real>, budget: real, elapsed: real)
    requires elapsed < budget && (slo.Some? ==> slo.value > 0.0)
    ensures AlwaysWithin(3, 1.0, 10.0, EffectiveTimeout(slo, budget, elapsed), budget - elapsed)
      <==> slo.Some? && elapsed + 3.0 * slo.value + 4.0 <= budget
  {
    WithinIff(3, 1.0, 10.0, EffectiveTimeout(slo, budget, elapsed), budget - elapsed);
    assert Pow2(1) == 2;
    assert Pauses(3, 1.0, 10.0) == 4.0;
    hide AlwaysWithin, Pauses;
  }

  /** With the shipped budget of 270 seconds a dispatch to tier 3, whose SLO is 240 seconds, can overshoot whenever it
      begins; to tier 2, with 15, from second 221 on, and to the frontier, with 30, from second 176 on. */
  lemma ShippedDeadlines(elapsed: real)
    requires 0.0 <= elapsed < 270.0
    ensures !AlwaysWithin(3, 1.0, 10.0, EffectiveTimeout(Some(240.0), 270.0, elapsed), 270.0 - elapsed)
    ensures AlwaysWithin(3, 1.0, 10.0, EffectiveTimeout(Some(15.0), 270.0, elapsed), 270.0 - elapsed) <==> elapsed <= 221.0
    ensures AlwaysWithin(3, 1.0, 10.0, EffectiveTimeout(Some(30.0), 270.0, elapsed), 270.0 - elapsed) <==> elapsed <= 176.0
  {
    DeadlineKeptIff(Some(240.0), 270.0, elapsed);
    DeadlineKeptIff(Some(15.0), 270.0, elapsed);
    DeadlineKeptIff(Some(30.0), 270.0, elapsed);
    hide AlwaysWithin;
  }

  /** However late it begins, a dispatch ends at most two SLOs and four seconds past the budget. */
  lemma OvershootIsBounded(attempts: nat -> Attempt, made: nat, slo: real, budget: real, elapsed: real)
    requires 0 < made <= 3 && slo > 0.0 && elapsed < budget
    requires Punctual(attempts, EffectiveTimeout(Some(slo), budget, elapsed))
    ensures elapsed + Duration(attempts, made, 3, 1.0, 10.0) <= budget + 2.0 * slo + 4.0
  {
    DispatchEnds(attempts, made, slo, budget, elapsed);
  }

  /** Without an enforced SLO every dispatch to a provider that keeps timing out, whatever the pauses, takes all the
      attempts and ends past the deadline. */
  lemma TimeoutsOvershoot(attempts: nat -> Attempt, limit: nat, base: real, cap: real, budget: real, elapsed: real)
    requires limit >= 2 && base > 0.0 && cap > 0.0 && elapsed < budget
    requires forall k: nat :: attempts(k).duration == EffectiveTimeout(None, budget, elapsed)
    requires forall k: nat :: attempts(k).error.Some? && IsSloTimeout(attempts(k).error.value)
    requires forall k: nat :: 0.0 <= attempts(k).jitter <= 0.5
    ensures Made(attempts, limit, limit)
    ensures elapsed + Spent(attempts, limit - 1, limit, base, cap) + attempts(limit - 1).duration > budget
  {
    forall k | 0 <= k < limit ensures Retried(attempts(k)) {
      Classification(attempts(k).error.value);
    }
    SpentPositive(attempts, limit - 1, limit, base, cap);
  }

  lemma {:induction false} SpentPositive(attempts: nat -> Attempt, n: nat, limit: nat, base: real, cap: real)
    requires 0 < n < limit && base > 0.0 && cap > 0.0
    requires forall k: nat :: attempts(k).duration > 0.0 && 0.0 <= attempts(k).jitter <= 0.5
    ensures Spent(attempts, n, limit, base, cap) > 0.0
  {
    DelayBounds(base, cap, n - 1, attempts(n - 1).jitter);
    hide Delay;
    if n > 1 {
      SpentPositive(attempts, n - 1, limit, base, cap);
    }
  }
}
