/** How long a run can go on calling: the clock at the loop head and the length of one dispatch together. */
module CascadeTime {
  import opened Wrappers
  import opened Cascade
  import Bound = CascadeBound
  import Retry

  /** The pass after `ins` makes a main-loop call. */
  predicate Calls(c: Config, pick: nat, ins: seq<Input>, i: Input)
    requires WellFormed(c)
  {
    Bound.MainCalls(Trace(c, pick, ins + [i]).s.dispatches) > Bound.MainCalls(Trace(c, pick, ins).s.dispatches)
  }

  /** A pass calls exactly if the loop has come to it and finds the budget unspent. */
  lemma CallsIff(c: Config, pick: nat, ins: seq<Input>, i: Input)
    requires WellFormed(c)
    ensures Calls(c, pick, ins, i) <==> Trace(c, pick, ins).Looping? && i.elapsed < c.budget
  {
    TraceSnoc(c, pick, ins, i);
    var before := Trace(c, pick, ins);
    hide Trace, Bound.MainCalls;
    if before.Looping? && i.elapsed < c.budget {
      Bound.StepSpends(c, before.s, i);
    }
  }

  /** Every run: a main-loop call that begins when its head read the clock, under an SLO and with attempts that keep their
      timeout, is over within two SLOs and four seconds after the budget. */
  lemma CallsEndBy(c: Config, pick: nat, ins: seq<Input>, i: Input, attempts: nat -> Retry.Attempt, made: nat, slo: real)
    requires WellFormed(c) && slo > 0.0 && 0 < made <= 3
    requires Retry.Punctual(attempts, Retry.EffectiveTimeout(Some(slo), c.budget, i.elapsed))
    ensures Calls(c, pick, ins, i) ==>
      i.elapsed + Retry.Duration(attempts, made, 3, 1.0, 10.0) <= c.budget + 2.0 * slo + 4.0
  {
    CallsIff(c, pick, ins, i);
    if i.elapsed < c.budget {
      Retry.OvershootIsBounded(attempts, made, slo, c.budget, i.elapsed);
    }
    hide Calls, Retry.Duration;
  }
}
