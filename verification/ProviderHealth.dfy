/** The provider circuit breaker: p95 of the current minute against p95 of the last hour, and a soft filter. */
module ProviderHealth {
  import opened Sequences
  import opened StableSort

  const MIN_CURRENT_SAMPLES: nat := 10
  const CURRENT_WINDOW_MIN: nat := 1
  const BASELINE_WINDOW_MIN: nat := 60
  const DEGRADATION_RATIO: real := 2.0
  const DEGRADATION_TTL: real := 120.0

  // ---------------------------------------------------------------------------
  // The 95th percentile
  // ---------------------------------------------------------------------------

  /** Python's round: to the nearest integer, and to the even one when two are equally near. */
  function Round(x: real): int {
    var low := x.Floor;
    var part := x - low as real;
    if part < 0.5 then low
    else if part > 0.5 then low + 1
    else if low % 2 == 0 then low else low + 1
  }

  /** The position of the p95 in a sorted list of `n` samples. */
  function Index(n: nat): (i: nat)
    requires n > 0
    ensures i < n
  {
    var x := 0.95 * (n - 1) as real;
    var r := Round(x);
    assert x <= (n - 1) as real && 0.0 <= x;
    assert r <= n - 1 && 0 <= r;
    r
  }

  /** The position is the nearest whole number to 95 percent of the last one, and of two equally near the even one. */
  lemma IndexIsNearest(n: nat, k: int)
    requires n > 0
    ensures var x, i := 0.95 * (n - 1) as real, Index(n);
      && i as real - 0.5 <= x <= i as real + 0.5
      && (k != i && k as real - 0.5 <= x <= k as real + 0.5 ==> i % 2 == 0)
  {
  }

  function Ascending(): (real, real) -> bool { (a: real, b: real) => a <= b }

  function P95(samples: seq<real>): real {
    if samples == [] then 0.0 else Sort(samples, Ascending())[Index(|samples|)]
  }

  lemma AscendingIsPreorder()
    ensures TotalPreorder(Ascending())
  {
  }

  function AtLeast(v: real): real -> bool { (x: real) => x >= v }

  function Above(v: real): real -> bool { (x: real) => x > v }

  /** How many samples satisfy `p`. */
  function Count(s: seq<real>, p: real -> bool): nat { |Filter(s, p)| }

  lemma CountWithout(t: seq<real>, k: nat, p: real -> bool)
    requires k < |t|
    ensures Count(t, p) == Count(t[..k] + t[k + 1..], p) + if p(t[k]) then 1 else 0
    ensures multiset(t) == multiset(t[..k] + t[k + 1..]) + multiset{t[k]}
  {
    assert t == t[..k] + ([t[k]] + t[k + 1..]);
    FilterAppend(t[..k], [t[k]] + t[k + 1..], p);
    FilterAppend([t[k]], t[k + 1..], p);
    FilterAppend(t[..k], t[k + 1..], p);
    assert [t[k]][..0] == [];
  }

  /** A part of a collection of samples has no more of any kind, in whatever order. */
  lemma {:induction false} CountMonotone(s: seq<real>, t: seq<real>, p: real -> bool)
    requires multiset(s) <= multiset(t)
    ensures Count(s, p) <= Count(t, p)
  {
    if s != [] {
      var front, last := s[..|s| - 1], s[|s| - 1];
      assert s == front + [last];
      assert last in multiset(t);
      var k :| 0 <= k < |t| && t[k] == last;
      CountWithout(t, k, p);
      assert multiset(front) == multiset(s) - multiset{last};
      assert multiset(t[..k] + t[k + 1..]) == multiset(t) - multiset{last};
      CountMonotone(front, t[..k] + t[k + 1..], p);
    }
  }

  /** In a sorted list, everything from position `i` on is at least the value there, so at least |s| - i
      elements are. */
  lemma {:induction false} ManyAtLeast(s: seq<real>, i: nat, n: nat)
    requires SortedBy(s, Ascending()) && i < |s| && i <= n <= |s|
    ensures Count(s[..n], AtLeast(s[i])) >= n - i
    decreases n
  {
    if n > i {
      ManyAtLeast(s, i, n - 1);
      FilterPrefix(s, n - 1, AtLeast(s[i]));
      assert i == n - 1 || Ascending()(s[i], s[n - 1]);
    }
  }

  /** In a sorted list, nothing up to position `i` is above the value there, so at most |s| - 1 - i are. */
  lemma {:induction false} FewAbove(s: seq<real>, i: nat, n: nat)
    requires SortedBy(s, Ascending()) && i < n <= |s|
    ensures Count(s[..n], Above(s[i])) <= n - 1 - i
    decreases n
  {
    if n == i + 1 {
      NoneAbove(s, i, n);
    } else {
      FewAbove(s, i, n - 1);
      FilterPrefix(s, n - 1, Above(s[i]));
    }
  }

  lemma {:induction false} NoneAbove(s: seq<real>, i: nat, n: nat)
    requires SortedBy(s, Ascending()) && i < |s| && n <= i + 1
    ensures Count(s[..n], Above(s[i])) == 0
  {
    if n > 0 {
      NoneAbove(s, i, n - 1);
      FilterPrefix(s, n - 1, Above(s[i]));
      assert n - 1 == i || Ascending()(s[n - 1], s[i]);
    }
  }

  /** The p95 as an order statistic: at least n - idx samples reach it, at most n - 1 - idx exceed it. */
  lemma P95OrderStatistic(s: seq<real>)
    requires s != []
    ensures Count(s, AtLeast(P95(s))) >= |s| - Index(|s|)
    ensures Count(s, Above(P95(s))) <= |s| - 1 - Index(|s|)
  {
    var r := Sort(s, Ascending());
    AscendingIsPreorder();
    SortCorrect(s, Ascending());
    var i := Index(|s|);
    ManyAtLeast(r, i, |r|);
    FewAbove(r, i, |r|);
    assert r[..|r|] == r;
    CountMonotone(r, s, AtLeast(r[i]));
    CountMonotone(s, r, Above(r[i]));
  }

  lemma {:induction false} MoreBelowThanAbove(s: seq<real>, lo: real, hi: real)
    requires lo < hi
    ensures Count(s, AtLeast(hi)) <= Count(s, Above(lo))
  {
    if s != [] {
      MoreBelowThanAbove(s[..|s| - 1], lo, hi);
    }
  }

  // ---------------------------------------------------------------------------
  // The verdict
  // ---------------------------------------------------------------------------

  predicate Slower(current: seq<real>, baseline: seq<real>) {
    && |current| >= MIN_CURRENT_SAMPLES && |baseline| >= MIN_CURRENT_SAMPLES
    && P95(baseline) > 0.0 && P95(current) > DEGRADATION_RATIO * P95(baseline)
  }

  /** The current minute is part of the baseline hour, so a provider can be newly flagged only if the baseline has
      room above its p95 for all the slow samples of the current minute. */
  lemma FlagNeedsRoom(current: seq<real>, baseline: seq<real>)
    requires multiset(current) <= multiset(baseline) && Slower(current, baseline)
    ensures |current| - Index(|current|) <= |baseline| - 1 - Index(|baseline|)
  {
    var lo, hi := P95(baseline), P95(current);
    P95OrderStatistic(current);
    P95OrderStatistic(baseline);
    CountMonotone(current, baseline, AtLeast(hi));
    MoreBelowThanAbove(baseline, lo, hi);
  }

  /** `fast` samples of 1 and `slow` ones of 3, in ascending order. */
  function Mixed(fast: nat, slow: nat): (r: seq<real>)
    ensures |r| == fast + slow
  {
    seq(fast + slow, i => if i < fast then 1.0 else 3.0)
  }

  lemma MixedP95(fast: nat, slow: nat)
    requires fast + slow > 0
    ensures P95(Mixed(fast, slow)) == if Index(fast + slow) < fast then 1.0 else 3.0
  {
    var s := Mixed(fast, slow);
    AscendingIsPreorder();
    SortCorrect(s, Ascending());
    assert SortedBy(s, Ascending());
    SortedIsUnique(Sort(s, Ascending()), s, Ascending());
  }

  lemma MixedPart(fast: nat, more: nat, slow: nat)
    ensures multiset(Mixed(fast, slow)) <= multiset(Mixed(fast + more, slow))
  {
    var ones := seq(more, i => 1.0);
    assert Mixed(fast + more, slow) == ones + Mixed(fast, slow);
  }

  /** A minute of `n` samples within an hour of `m` that flags the provider. */
  ghost predicate CanFlag(n: nat, m: nat) {
    exists current, baseline ::
      |current| == n && |baseline| == m && multiset(current) <= multiset(baseline) && Slower(current, baseline)
  }

  lemma RoomFlags(n: nat, m: nat)
    requires MIN_CURRENT_SAMPLES <= n <= m && n - Index(n) <= m - 1 - Index(m)
    ensures CanFlag(n, m)
  {
    var slow := n - Index(n);
    MixedP95(n - slow, slow);
    MixedP95(m - slow, slow);
    MixedPart(n - slow, m - n, slow);
    var current, baseline := Mixed(n - slow, slow), Mixed(m - slow, slow);
    hide P95, Mixed, Index;
    assert (n - slow) + (m - n) == m - slow;
    assert |current| == n && |baseline| == m && multiset(current) <= multiset(baseline) && Slower(current, baseline);
  }

  lemma FlagSizes(current: seq<real>, baseline: seq<real>)
    requires multiset(current) <= multiset(baseline) && Slower(current, baseline)
    ensures MIN_CURRENT_SAMPLES <= |current| <= |baseline|
    ensures |current| - Index(|current|) <= |baseline| - 1 - Index(|baseline|)
  {
    FlagNeedsRoom(current, baseline);
    assert |multiset(current)| == |current| && |multiset(baseline)| == |baseline|;
    assert multiset(baseline) == multiset(current) + (multiset(baseline) - multiset(current));
    hide P95, Index;
  }

  /** That room is all it takes: a minute of `n` samples within an hour of `m` can flag the provider exactly if it has
      enough samples, and as many as would reach its p95 fit above that of the hour. */
  lemma CanFlagIff(n: nat, m: nat)
    ensures CanFlag(n, m) <==> MIN_CURRENT_SAMPLES <= n <= m && n - Index(n) <= m - 1 - Index(m)
  {
    hide P95, Index, Slower;
    if MIN_CURRENT_SAMPLES <= n <= m && n - Index(n) <= m - 1 - Index(m) {
      RoomFlags(n, m);
    }
    if CanFlag(n, m) {
      var current, baseline :|
        |current| == n && |baseline| == m && multiset(current) <= multiset(baseline) && Slower(current, baseline);
      FlagSizes(current, baseline);
    }
  }

  /** So a provider with data from the current minute alone is never flagged, however slow that minute is. */
  lemma OneMinuteNeverFlags(current: seq<real>, baseline: seq<real>)
    requires multiset(current) == multiset(baseline)
    ensures !Slower(current, baseline)
  {
    if Slower(current, baseline) {
      assert |current| == |multiset(current)| == |multiset(baseline)| == |baseline|;
      FlagNeedsRoom(current, baseline);
    }
  }

  /** A verdict rests on at least one sample older than the current minute, and with the fewest samples a verdict
      takes, on two. */
  lemma FlagNeedsHistory(current: seq<real>, baseline: seq<real>)
    requires multiset(current) <= multiset(baseline) && Slower(current, baseline)
    ensures |baseline| > |current|
    ensures |current| == MIN_CURRENT_SAMPLES ==> |baseline| >= |current| + 2
  {
    FlagNeedsRoom(current, baseline);
    assert |current| == |multiset(current)| && |multiset(baseline)| == |baseline|;
    assert multiset(baseline) == multiset(current) + (multiset(baseline) - multiset(current));
    assert Index(10) == 9 && Index(11) == 10;
  }

  // ---------------------------------------------------------------------------
  // The breaker
  // ---------------------------------------------------------------------------

  function Slug(chars: string): string {
    if chars == "" || chars[0] == '/' then "" else [chars[0]] + Slug(chars[1..])
  }

  /** A model's provider: the text before its first slash, or all of it. */
  function Provider(model: string): string { Slug(model) }

  /** The provider has no slash in it, and the model goes on with one or ends. */
  lemma {:induction false} ProviderEndsAtSlash(model: string)
    ensures var p := Provider(model);
      '/' !in p && p <= model && (|p| < |model| ==> model[|p|] == '/')
  {
    if model != "" && model[0] != '/' {
      ProviderEndsAtSlash(model[1..]);
      assert model == [model[0]] + model[1..];
    }
  }

  class Breaker {
    /** Samples by provider and minute, newest first. */
    var buckets: map<(string, int), seq<real>>
    /** When each latch expires. */
    var latches: map<string, real>

    constructor ()
      ensures buckets == map[] && latches == map[]
    {
      buckets, latches := map[], map[];
    }

    function Bucket(provider: string, minute: int): seq<real>
      reads this`buckets
    {
      if (provider, minute) in buckets then buckets[(provider, minute)] else []
    }

    /** The samples of the `minutes` minutes up to and including `minute`, newest minute first. */
    function Window(provider: string, minute: int, minutes: nat): seq<real>
      reads this`buckets
      decreases minutes
    {
      if minutes == 0 then [] else Window(provider, minute, minutes - 1) + Bucket(provider, minute - (minutes - 1))
    }

    predicate Latched(provider: string, now: real)
      reads this`latches
    {
      provider in latches && now < latches[provider]
    }

    /** Only successful calls with a provider are recorded. */
    method Record(model: string, latency: real, success: bool, minute: int)
      modifies this`buckets
      ensures var p := Provider(model);
        if p == "" || !success then buckets == old(buckets)
        else buckets == old(buckets)[(p, minute) := [latency] + old(Bucket(p, minute))]
    {
      var provider := Provider(model);
      if provider == "" || !success {
        return;
      }
      buckets := buckets[(provider, minute) := [latency] + Bucket(provider, minute)];
    }

    method ReadSamples(provider: string, minute: int, minutes: nat) returns (samples: seq<real>)
      ensures samples == Window(provider, minute, minutes)
    {
      samples := [];
      for i := 0 to minutes
        invariant samples == Window(provider, minute, i)
      {
        samples := samples + Bucket(provider, minute - i);
      }
    }

    /** A window holds exactly the samples of its minutes, the given one and the ones before it. */
    lemma {:induction false} WindowHolds(provider: string, minute: int, n: nat, x: real)
      ensures x in Window(provider, minute, n) <==> exists t :: minute - n < t <= minute && x in Bucket(provider, t)
      decreases n
    {
      if n > 0 {
        WindowHolds(provider, minute, n - 1, x);
        assert x in Window(provider, minute, n) <==>
          x in Window(provider, minute, n - 1) || x in Bucket(provider, minute - (n - 1));
      }
    }

    /** The current minute is the first part of the hour. */
    lemma {:induction false} WindowContains(provider: string, minute: int, n: nat)
      requires n >= 1
      ensures multiset(Window(provider, minute, 1)) <= multiset(Window(provider, minute, n))
      decreases n
    {
      if n > 1 {
        WindowContains(provider, minute, n - 1);
      }
    }

    predicate Flagged(provider: string, minute: int, now: real)
      reads this
    {
      provider != "" &&
      (Latched(provider, now)
       || Slower(Window(provider, minute, CURRENT_WINDOW_MIN), Window(provider, minute, BASELINE_WINDOW_MIN)))
    }

    /** Flagged while the latch holds; otherwise judged by the windows, which sets the latch. A verdict that sets
        the latch had older samples than the current minute. */
    method IsDegraded(provider: string, minute: int, now: real) returns (degraded: bool)
      modifies this`latches
      ensures old(provider in latches && now < latches[provider]) && provider != "" ==> degraded && latches == old(latches)
      ensures degraded == old(Flagged(provider, minute, now))
      ensures !old(provider in latches && now < latches[provider]) ==>
        var current, hour := old(Window(provider, minute, 1)), old(Window(provider, minute, 60));
        degraded <==> provider != "" && |current| >= 10 && |hour| >= 10 && P95(hour) > 0.0 && P95(current) > 2.0 * P95(hour)
      ensures latches == if degraded && !old(provider in latches && now < latches[provider])
                         then old(latches)[provider := now + 120.0] else old(latches)
      ensures forall q :: Flagged(q, minute, now) == old(Flagged(q, minute, now))
      ensures degraded && !old(provider in latches && now < latches[provider]) ==>
        |Window(provider, minute, BASELINE_WINDOW_MIN)| > |Window(provider, minute, CURRENT_WINDOW_MIN)|
    {
      hide Window, P95;
      if provider == "" {
        return false;
      }
      if Latched(provider, now) {
        return true;
      }
      var current := ReadSamples(provider, minute, CURRENT_WINDOW_MIN);
      if |current| < MIN_CURRENT_SAMPLES {
        return false;
      }
      var baseline := ReadSamples(provider, minute, BASELINE_WINDOW_MIN);
      if |baseline| < MIN_CURRENT_SAMPLES {
        return false;
      }
      var currP95 := P95(current);
      var baseP95 := P95(baseline);
      if baseP95 <= 0.0 {
        return false;
      }
      degraded := currP95 > DEGRADATION_RATIO * baseP95;
      if degraded {
        WindowContains(provider, minute, BASELINE_WINDOW_MIN);
        FlagNeedsHistory(current, baseline);
        latches := latches[provider := now + DEGRADATION_TTL];
      }
    }

    predicate FlaggedModel(m: string, minute: int, now: real)
      reads this
    {
      Flagged(Provider(m), minute, now)
    }

    lemma NoProviderIsNotFlagged(minute: int, now: real)
      ensures !Flagged("", minute, now)
    {
    }

    /** Move the models of flagged providers behind the others, dropping none. Which providers are flagged does not
        depend on the order in which they are asked. */
    method FilterCandidates(candidates: seq<string>, minute: int, now: real) returns (r: seq<string>, degraded: set<string>)
      modifies this`latches
      ensures forall p :: Flagged(p, minute, now) == old(Flagged(p, minute, now))
      ensures forall m :: m in candidates ==> (Provider(m) in degraded <==> old(FlaggedModel(m, minute, now)))
      ensures r == Partitioned(candidates, degraded)
    {
      NoProviderIsNotFlagged(minute, now);
      hide Window, Slower, Flagged, Provider;
      var todo := set m | m in candidates && Provider(m) != "" :: Provider(m);
      ghost var providers := todo;
      degraded := {};
      while todo != {}
        invariant todo <= providers && buckets == old(buckets)
        invariant forall p :: Flagged(p, minute, now) == old(Flagged(p, minute, now))
        invariant forall p :: p in degraded <==> p in providers - todo && old(Flagged(p, minute, now))
        decreases todo
      {
        var p :| p in todo;
        var flag := IsDegraded(p, minute, now);
        if flag {
          degraded := degraded + {p};
        }
        todo := todo - {p};
      }
      if degraded == {} {
        r := candidates;
        FilterAll(candidates, Outside(degraded));
        FilterNone(candidates, Inside(degraded));
      } else {
        r := Filter(candidates, Outside(degraded)) + Filter(candidates, Inside(degraded));
      }
    }
  }

  function Inside(providers: set<string>): string -> bool { (m: string) => Provider(m) in providers }

  function Outside(providers: set<string>): string -> bool { (m: string) => Provider(m) !in providers }

  function Partitioned(candidates: seq<string>, degraded: set<string>): seq<string> {
    Filter(candidates, Outside(degraded)) + Filter(candidates, Inside(degraded))
  }

  lemma Sides(s: seq<string>, degraded: set<string>)
    ensures All(s, Outside(degraded)) <==> NoneOf(s, Inside(degraded))
    ensures All(s, Inside(degraded)) <==> NoneOf(s, Outside(degraded))
  {
  }

  /** Each part of the partition keeps the given order. */
  lemma PartitionKeepsOrder(candidates: seq<string>, degraded: set<string>)
    ensures var r := Partitioned(candidates, degraded);
      && Filter(r, Outside(degraded)) == Filter(candidates, Outside(degraded))
      && Filter(r, Inside(degraded)) == Filter(candidates, Inside(degraded))
  {
    var out, inside := Outside(degraded), Inside(degraded);
    var a, b := Filter(candidates, out), Filter(candidates, inside);
    FilterSatisfies(candidates, out);
    FilterSatisfies(candidates, inside);
    Sides(a, degraded);
    Sides(b, degraded);
    FilterAppend(a, b, out);
    FilterAppend(a, b, inside);
    FilterAll(a, out);
    FilterAll(b, inside);
    FilterNone(a, inside);
    FilterNone(b, out);
  }

  /** In the partition every model of a healthy provider comes before every model of a degraded one. */
  lemma HealthyFirst(candidates: seq<string>, degraded: set<string>)
    ensures var r := Partitioned(candidates, degraded);
      forall i, j :: 0 <= i < j < |r| && Provider(r[i]) in degraded ==> Provider(r[j]) in degraded
  {
    var a, b := Filter(candidates, Outside(degraded)), Filter(candidates, Inside(degraded));
    FilterSatisfies(candidates, Outside(degraded));
    FilterSatisfies(candidates, Inside(degraded));
    hide Provider, Filter;
    var r := a + b;
    assert forall i :: 0 <= i < |a| ==> Outside(degraded)(a[i]) && r[i] == a[i];
    assert forall i :: |a| <= i < |r| ==> Inside(degraded)(b[i - |a|]) && r[i] == b[i - |a|];
  }

  /** What the filter answers is a rearrangement of what it was given: nothing is lost or doubled, every model of a
      healthy provider comes before every one of a degraded provider, and each part keeps the given order. */
  lemma FilterIsStable(candidates: seq<string>, degraded: set<string>)
    ensures var r := Partitioned(candidates, degraded);
      && multiset(r) == multiset(candidates)
      && (forall i, j :: 0 <= i < j < |r| && Provider(r[i]) in degraded ==> Provider(r[j]) in degraded)
      && Filter(r, Outside(degraded)) == Filter(candidates, Outside(degraded))
      && Filter(r, Inside(degraded)) == Filter(candidates, Inside(degraded))
  {
    PartitionKeepsOrder(candidates, degraded);
    HealthyFirst(candidates, degraded);
    FilterPartition(candidates, Outside(degraded), Inside(degraded));
  }
}
