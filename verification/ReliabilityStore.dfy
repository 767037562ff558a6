/** The EMA profile store: running averages per (model, task), their keys, and lost updates. */
module ReliabilityStore {
  import opened Wrappers

  const ALPHA: real := 0.2

  datatype Observation = Observation(passed: bool, quality: real, latency: real, cost: real) {
    function Success(): real { if passed then 1.0 else 0.0 }
  }

  datatype Profile = Profile(samples: nat, success: real, quality: real, latency: real, cost: real)

  function Mix(average: real, x: real): real { (1.0 - ALPHA) * average + ALPHA * x }

  /** The profile after one more outcome; the first outcome is the profile. */
  function Updated(stored: Option<Profile>, o: Observation): Profile {
    match stored
    case None => Profile(1, o.Success(), o.quality, o.latency, o.cost)
    case Some(p) => Profile(p.samples + 1, Mix(p.success, o.Success()), Mix(p.quality, o.quality),
                            Mix(p.latency, o.latency), Mix(p.cost, o.cost))
  }

  // ---------------------------------------------------------------------------
  // One writer: the whole history
  // ---------------------------------------------------------------------------

  function Recorded(history: seq<Observation>): Option<Profile> {
    if history == [] then None
    else Some(Updated(Recorded(history[..|history| - 1]), history[|history| - 1]))
  }

  function Pow(b: real, n: nat): real { if n == 0 then 1.0 else b * Pow(b, n - 1) }

  /** The weight of outcome `i` among `n`: the first has what the others leave. */
  function Weight(n: nat, i: nat): real
    requires i < n
  {
    if i == 0 then Pow(1.0 - ALPHA, n - 1) else ALPHA * Pow(1.0 - ALPHA, n - 1 - i)
  }

  /** The weighted sum of the first `k` of `n` values. */
  function WeightedSum(xs: seq<real>, n: nat, k: nat): real
    requires k <= |xs| <= n
  {
    if k == 0 then 0.0 else WeightedSum(xs, n, k - 1) + Weight(n, k - 1) * xs[k - 1]
  }

  function Ones(n: nat): seq<real> { seq(n, i => 1.0) }

  lemma WeightShrinks(n: nat, i: nat)
    requires i < n
    ensures Weight(n + 1, i) == (1.0 - ALPHA) * Weight(n, i)
  {
  }

  /** A sum and the weight of its next term, both scaled, give the scaled sum with that term. */
  lemma Scaled(a: real, sum: real, weight: real, x: real)
    ensures a * sum + (a * weight) * x == a * (sum + weight * x)
  {
  }

  /** One more value scales every earlier weight by 1 - ALPHA. */
  lemma {:induction false} WeightsShrink(xs: seq<real>, x: real, n: nat, k: nat)
    requires 0 < n == |xs| && k <= n
    ensures WeightedSum(xs + [x], n + 1, k) == (1.0 - ALPHA) * WeightedSum(xs, n, k)
  {
    hide Weight;
    if k > 0 {
      var sum, weight := WeightedSum(xs, n, k - 1), Weight(n, k - 1);
      calc {
        WeightedSum(xs + [x], n + 1, k);
        WeightedSum(xs + [x], n + 1, k - 1) + Weight(n + 1, k - 1) * xs[k - 1];
        { WeightsShrink(xs, x, n, k - 1); WeightShrinks(n, k - 1); }
        (1.0 - ALPHA) * sum + ((1.0 - ALPHA) * weight) * xs[k - 1];
        { Scaled(1.0 - ALPHA, sum, weight, xs[k - 1]); }
        (1.0 - ALPHA) * (sum + weight * xs[k - 1]);
      }
    }
  }

  function Successes(h: seq<Observation>): seq<real> { seq(|h|, i requires 0 <= i < |h| => h[i].Success()) }

  function QualitiesOf(h: seq<Observation>): seq<real> { seq(|h|, i requires 0 <= i < |h| => h[i].quality) }

  function Latencies(h: seq<Observation>): seq<real> { seq(|h|, i requires 0 <= i < |h| => h[i].latency) }

  function CostsOf(h: seq<Observation>): seq<real> { seq(|h|, i requires 0 <= i < |h| => h[i].cost) }

  /** One running average over a list of values. */
  function Average(xs: seq<real>): real
    requires xs != []
  {
    if |xs| == 1 then xs[0] else Mix(Average(xs[..|xs| - 1]), xs[|xs| - 1])
  }

  lemma {:induction false} AverageClosedForm(xs: seq<real>)
    requires xs != []
    ensures Average(xs) == WeightedSum(xs, |xs|, |xs|)
  {
    var n := |xs|;
    if n == 1 {
      assert Weight(1, 0) == 1.0;
      assert WeightedSum(xs, 1, 0) == 0.0;
    } else {
      var front, x := xs[..n - 1], xs[n - 1];
      AverageClosedForm(front);
      assert xs == front + [x];
      WeightsShrink(front, x, n - 1, n - 1);
      assert Weight(n, n - 1) == ALPHA;
    }
  }

  lemma {:induction false} AverageOfOnes(n: nat)
    requires n > 0
    ensures Average(Ones(n)) == 1.0
  {
    if n > 1 {
      assert Ones(n)[..n - 1] == Ones(n - 1);
      AverageOfOnes(n - 1);
    }
  }

  /** The stored averages are the running averages of the histories of values. */
  lemma {:induction false} FieldsAreAverages(h: seq<Observation>)
    requires h != []
    ensures Recorded(h) == Some(Profile(|h|, Average(Successes(h)), Average(QualitiesOf(h)),
                                        Average(Latencies(h)), Average(CostsOf(h))))
  {
    if |h| > 1 {
      var front := h[..|h| - 1];
      FieldsAreAverages(front);
      assert Successes(h)[..|h| - 1] == Successes(front);
      assert QualitiesOf(h)[..|h| - 1] == QualitiesOf(front);
      assert Latencies(h)[..|h| - 1] == Latencies(front);
      assert CostsOf(h)[..|h| - 1] == CostsOf(front);
    }
  }

  /** Whole histories: the sample count is the number of outcomes and each average is the sum of all outcomes with
      geometrically falling weights, which add up to 1. */
  lemma HistoryClosedForm(h: seq<Observation>)
    requires h != []
    ensures var n := |h|;
      && Recorded(h) == Some(Profile(n, WeightedSum(Successes(h), n, n), WeightedSum(QualitiesOf(h), n, n),
                                     WeightedSum(Latencies(h), n, n), WeightedSum(CostsOf(h), n, n)))
      && WeightedSum(Ones(n), n, n) == 1.0
  {
    FieldsAreAverages(h);
    AverageClosedForm(Successes(h));
    AverageClosedForm(QualitiesOf(h));
    AverageClosedForm(Latencies(h));
    AverageClosedForm(CostsOf(h));
    AverageClosedForm(Ones(|h|));
    AverageOfOnes(|h|);
  }

  /** A success rate lies in [0, 1], and over the last four outcomes it crosses one half: four failures in a row
      leave it below, four successes above. Three of either may not. */
  lemma FourInARow(h: seq<Observation>)
    requires |h| >= 4
    ensures var rate := Recorded(h).value.success; var last := h[|h| - 4..];
      && ((forall i :: 0 <= i < 4 ==> !last[i].passed) ==> rate < 0.5)
      && ((forall i :: 0 <= i < 4 ==> last[i].passed) ==> rate > 0.5)
  {
    var n := |h|;
    var last := h[n - 4..];
    if n > 4 {
      SuccessRange(h[..n - 4]);
    }
    NextRate(h, n - 3, last[0]);
    NextRate(h, n - 2, last[1]);
    NextRate(h, n - 1, last[2]);
    NextRate(h, n, last[3]);
    assert h[..n] == h;
    hide Recorded;
  }

  /** The success rate after the first `k` outcomes, from the one before. */
  lemma NextRate(h: seq<Observation>, k: nat, o: Observation)
    requires 0 < k <= |h| && o == h[k - 1]
    ensures Recorded(h[..k]).Some?
    ensures k == 1 ==> Recorded(h[..k]).value.success == o.Success()
    ensures k > 1 ==> Recorded(h[..k - 1]).Some?
    ensures k > 1 ==> Recorded(h[..k]).value.success == 0.8 * Recorded(h[..k - 1]).value.success + 0.2 * o.Success()
  {
    assert h[..k][..k - 1] == h[..k - 1];
  }

  lemma {:induction false} SuccessRange(h: seq<Observation>)
    requires h != []
    ensures 0.0 <= Recorded(h).value.success <= 1.0
  {
    if |h| > 1 {
      SuccessRange(h[..|h| - 1]);
    }
  }

  lemma RecordedSnoc(h: seq<Observation>, o: Observation)
    ensures Recorded(h + [o]) == Some(Updated(Recorded(h), o))
  {
    assert (h + [o])[..|h + [o]| - 1] == h;
  }

  /** A perfect model survives three failures in a row: 0.8 cubed is above one half. */
  lemma ThreeMayNotSuffice(pass: Observation, fail: Observation)
    requires pass.passed && !fail.passed
    ensures Recorded([pass, fail, fail, fail]).value.success == 0.512
  {
    RecordedSnoc([], pass);
    RecordedSnoc([pass], fail);
    RecordedSnoc([pass, fail], fail);
    RecordedSnoc([pass, fail, fail], fail);
    assert [] + [pass] == [pass] && [pass] + [fail] == [pass, fail];
    assert [pass, fail] + [fail] == [pass, fail, fail] && [pass, fail, fail] + [fail] == [pass, fail, fail, fail];
  }

  // ---------------------------------------------------------------------------
  // Many writers: lost updates
  // ---------------------------------------------------------------------------

  /** A recording that has read the profile and not yet written it back. */
  datatype InFlight = InFlight(read: Option<Profile>, o: Observation)

  datatype Shared = Shared(stored: Option<Profile>, flights: seq<InFlight>, begun: seq<Observation>, written: nat)

  datatype Action = Get(o: Observation) | Set(flight: nat)

  /** A get starts a recording from the stored profile; a set finishes any one in flight, overwriting. */
  function Act(s: Shared, a: Action): Shared {
    match a
    case Get(o) => s.(flights := s.flights + [InFlight(s.stored, o)], begun := s.begun + [o])
    case Set(i) =>
      if i < |s.flights| then
        Shared(Some(Updated(s.flights[i].read, s.flights[i].o)), s.flights[..i] + s.flights[i + 1..], s.begun, s.written + 1)
      else s
  }

  function After(actions: seq<Action>): Shared {
    if actions == [] then Shared(None, [], [], 0) else Act(After(actions[..|actions| - 1]), actions[|actions| - 1])
  }

  predicate Within(o: Observation, lo: Profile, hi: Profile) {
    && lo.success <= o.Success() <= hi.success && lo.quality <= o.quality <= hi.quality
    && lo.latency <= o.latency <= hi.latency && lo.cost <= o.cost <= hi.cost
  }

  /** Between the bounds in every field, and counting at most `n` outcomes. */
  predicate Between(p: Profile, lo: Profile, hi: Profile, n: nat) {
    && lo.success <= p.success <= hi.success && lo.quality <= p.quality <= hi.quality
    && lo.latency <= p.latency <= hi.latency && lo.cost <= p.cost <= hi.cost
    && 1 <= p.samples <= n
  }

  ghost predicate HullInv(s: Shared, lo: Profile, hi: Profile) {
    && (s.stored.Some? ==> Between(s.stored.value, lo, hi, s.written))
    && (forall i :: 0 <= i < |s.flights| ==>
          Within(s.flights[i].o, lo, hi)
          && (s.flights[i].read.Some? ==> Between(s.flights[i].read.value, lo, hi, s.written)))
  }

  lemma MixBetween(a: real, x: real, lo: real, hi: real)
    requires lo <= a <= hi && lo <= x <= hi
    ensures lo <= Mix(a, x) <= hi
  {
  }

  lemma UpdateBetween(stored: Option<Profile>, o: Observation, lo: Profile, hi: Profile, n: nat)
    requires Within(o, lo, hi) && (stored.Some? ==> Between(stored.value, lo, hi, n))
    ensures Between(Updated(stored, o), lo, hi, n + 1)
  {
    if stored.Some? {
      var p := stored.value;
      MixBetween(p.success, o.Success(), lo.success, hi.success);
      MixBetween(p.quality, o.quality, lo.quality, hi.quality);
      MixBetween(p.latency, o.latency, lo.latency, hi.latency);
      MixBetween(p.cost, o.cost, lo.cost, hi.cost);
    }
  }

  /** Every interleaving of recordings, with any updates lost: the stored averages stay within whatever bounds the
      begun outcomes meet, so in their convex hull, and the sample count never exceeds the completed writes. */
  lemma {:induction false} HullUnderInterleaving(actions: seq<Action>, lo: Profile, hi: Profile)
    requires forall i :: 0 <= i < |After(actions).begun| ==> Within(After(actions).begun[i], lo, hi)
    ensures HullInv(After(actions), lo, hi)
  {
    if actions != [] {
      var before, a := After(actions[..|actions| - 1]), actions[|actions| - 1];
      var after := After(actions);
      assert before.begun <= after.begun;
      HullUnderInterleaving(actions[..|actions| - 1], lo, hi);
      match a
      case Get(o) => assert after.begun[|before.begun|] == o;
      case Set(i) =>
        if i < |before.flights| {
          UpdateBetween(before.flights[i].read, before.flights[i].o, lo, hi, before.written);
        }
    }
  }

  lemma AfterSnoc(actions: seq<Action>, a: Action)
    ensures After(actions + [a]) == Act(After(actions), a)
  {
    assert (actions + [a])[..|actions + [a]| - 1] == actions;
  }

  /** An update is really lost when two recordings read before either writes. */
  lemma UpdatesCanBeLost(a: Observation, b: Observation)
    ensures var s := After([Get(a), Get(b), Set(0), Set(0)]);
      s.written == 2 && s.stored == Some(Updated(None, b)) && s.stored.value.samples == 1
  {
    AfterSnoc([], Get(a));
    AfterSnoc([Get(a)], Get(b));
    AfterSnoc([Get(a), Get(b)], Set(0));
    AfterSnoc([Get(a), Get(b), Set(0)], Set(0));
    assert [] + [Get(a)] == [Get(a)] && [Get(a)] + [Get(b)] == [Get(a), Get(b)];
    assert [Get(a), Get(b)] + [Set(0)] == [Get(a), Get(b), Set(0)];
    assert [Get(a), Get(b), Set(0)] + [Set(0)] == [Get(a), Get(b), Set(0), Set(0)];
  }

  // ---------------------------------------------------------------------------
  // Keys
  // ---------------------------------------------------------------------------

  const KEY_PREFIX: string := "sriti:reliability:"

  function Key(model: string, task: string): string { KEY_PREFIX + model + ":" + task }

  /** Python's rpartition(":"): split at the last colon; without one everything is the last part. */
  function RPartition(s: string): (string, string) {
    if s == "" then ("", "")
    else if s[|s| - 1] == ':' then (s[..|s| - 1], "")
    else
      var (before, after) := RPartition(s[..|s| - 1]);
      (before, after + [s[|s| - 1]])
  }

  function ParseKey(key: string): (string, string)
    requires KEY_PREFIX <= key
  {
    RPartition(key[|KEY_PREFIX|..])
  }

  lemma {:induction false} RPartitionAtLastColon(model: string, task: string)
    requires ':' !in task
    ensures RPartition(model + ":" + task) == (model, task)
  {
    var s := model + ":" + task;
    if task == "" {
      assert s[..|s| - 1] == model;
    } else {
      var front := task[..|task| - 1];
      assert s[..|s| - 1] == model + ":" + front;
      assert task == front + [task[|task| - 1]];
      RPartitionAtLastColon(model, front);
    }
  }

  lemma {:induction false} RPartitionTail(s: string)
    ensures ':' !in RPartition(s).1
  {
    if s != "" && s[|s| - 1] != ':' {
      RPartitionTail(s[..|s| - 1]);
    }
  }

  /** A key gives back its model and task exactly when the task has no colon, whatever colons the model has. */
  lemma KeyRoundTrip(model: string, task: string)
    ensures KEY_PREFIX <= Key(model, task)
    ensures ParseKey(Key(model, task)) == (model, task) <==> ':' !in task
  {
    var key := Key(model, task);
    assert key[|KEY_PREFIX|..] == model + ":" + task;
    if ':' !in task {
      RPartitionAtLastColon(model, task);
    } else {
      RPartitionTail(model + ":" + task);
    }
  }

  lemma {:induction false} RejoinParts(s: string)
    requires ':' in s
    ensures RPartition(s).0 + ":" + RPartition(s).1 == s
  {
    var n := |s| - 1;
    assert s == s[..n] + [s[n]];
    if s[n] != ':' {
      RejoinParts(s[..n]);
      var (before, after) := RPartition(s[..n]);
      assert before + ":" + (after + [s[n]]) == (before + ":" + after) + [s[n]];
    } else {
      assert s[..n] + ":" + "" == s;
    }
  }

  /** Whatever a written key parses to, its task has no colon and the two give the key again. */
  lemma ParsedKeyRejoins(model: string, task: string)
    ensures KEY_PREFIX <= Key(model, task)
    ensures var (m, t) := ParseKey(Key(model, task)); Key(m, t) == Key(model, task) && ':' !in t
  {
    var rest := model + ":" + task;
    assert Key(model, task)[|KEY_PREFIX|..] == rest;
    assert rest[|model|] == ':';
    RejoinParts(rest);
    RPartitionTail(rest);
    var (m, t) := RPartition(rest);
    assert Key(m, t) == KEY_PREFIX + (m + ":" + t) && Key(model, task) == KEY_PREFIX + rest;
  }

  class Store {
    var data: map<string, Profile>

    constructor ()
      ensures data == map[]
    {
      data := map[];
    }

    /** Read, update or seed, write back, uninterrupted. */
    method RecordOutcome(model: string, task: string, o: Observation)
      modifies this
      ensures var key := Key(model, task);
        data == old(data)[key := Updated(if key in old(data) then Some(old(data)[key]) else None, o)]
    {
      var key := Key(model, task);
      if key in data {
        var p := data[key];
        var n := p.samples + 1;
        data := data[key := Profile(n,
          (1.0 - ALPHA) * p.success + ALPHA * o.Success(),
          (1.0 - ALPHA) * p.quality + ALPHA * o.quality,
          (1.0 - ALPHA) * p.latency + ALPHA * o.latency,
          (1.0 - ALPHA) * p.cost + ALPHA * o.cost)];
      } else {
        data := data[key := Profile(1, o.Success(), o.quality, o.latency, o.cost)];
      }
    }

    /** Every key under the prefix was written for some model and task, with colons or without. */
    ghost predicate Written()
      reads this
    {
      forall key :: key in data && KEY_PREFIX <= key ==> exists model, task :: key == Key(model, task)
    }

    /** The scan reads every stored key under the prefix, and nothing else: each entry is the profile of a key that parses
        to it. Of what `RecordOutcome` writes each profile is found once, under the model and task its key parses to. */
    method LoadAllProfiles() returns (profiles: map<(string, string), Profile>)
      ensures forall key :: key in data && KEY_PREFIX <= key ==> ParseKey(key) in profiles
      ensures forall parsed :: parsed in profiles ==> FoundUnder(parsed, profiles[parsed])
      ensures Written() ==> forall model, task :: (model, task) in profiles <==>
        ':' !in task && Key(model, task) in data
      ensures Written() ==> forall model, task :: (model, task) in profiles ==>
        profiles[(model, task)] == data[Key(model, task)]
    {
      profiles := map[];
      var todo := set key | key in data && KEY_PREFIX <= key;
      ghost var all := todo;
      while todo != {}
        invariant todo <= all
        invariant forall key :: key in all - todo ==> ParseKey(key) in profiles
        invariant forall parsed :: parsed in profiles ==> FoundUnder(parsed, profiles[parsed])
        decreases todo
      {
        var key :| key in todo;
        profiles := profiles[ParseKey(key) := data[key]];
        todo := todo - {key};
      }
      if Written() {
        forall model, task
          ensures (model, task) in profiles <==> ':' !in task && Key(model, task) in data
          ensures (model, task) in profiles ==> profiles[(model, task)] == data[Key(model, task)]
        {
          EntryIsOwn(profiles, model, task);
        }
      }
    }

    /** Some key under the prefix parses to `parsed` and holds the profile. */
    ghost predicate FoundUnder(parsed: (string, string), p: Profile)
      reads this
    {
      exists key :: key in data && KEY_PREFIX <= key && ParseKey(key) == parsed && data[key] == p
    }

    lemma EntryIsOwn(profiles: map<(string, string), Profile>, model: string, task: string)
      requires Written()
      requires forall key :: key in data && KEY_PREFIX <= key ==> ParseKey(key) in profiles
      requires forall parsed :: parsed in profiles ==> FoundUnder(parsed, profiles[parsed])
      ensures (model, task) in profiles <==> ':' !in task && Key(model, task) in data
      ensures (model, task) in profiles ==> profiles[(model, task)] == data[Key(model, task)]
    {
      KeyRoundTrip(model, task);
      hide ParseKey;
      if (model, task) in profiles {
        var key :| key in data && KEY_PREFIX <= key && ParseKey(key) == (model, task) && data[key] == profiles[(model, task)];
        var m, t :| key == Key(m, t);
        ParsedKeyRejoins(m, t);
      }
    }
  }
}
