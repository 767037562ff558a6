/** The semantic cache: what may be written to it, and what a hit is. */
module SemanticCache {
  import opened Wrappers
  import opened Sequences
  import opened Text
  import opened Phrases
  import Keys = CacheKeys
  import V = VectorStore
  import L = VectorStoreLaws

  const KEY_PREFIX := "sriti:cache:"

  const UNCACHEABLE_TASKS: set<string> := {"reasoning", "math", "data_analysis", "document_review", "tool_use"}

  const FALLBACK_THRESHOLD: real := 0.90

  const MIN_CACHEABLE_LENGTH: nat := 20

  // ---------------------------------------------------------------------------
  // The gate
  // ---------------------------------------------------------------------------

  predicate IsCacheable(content: string, finishReason: Option<string>, taskType: string, allowUncacheable: bool) {
    && (taskType in UNCACHEABLE_TASKS ==> allowUncacheable)
    && finishReason == Some("stop")
    && |Strip(content)| >= MIN_CACHEABLE_LENGTH
    && !Hedges(Lower(Strip(content)))
    && !ReportsError(Lower(Strip(content)))
  }

  // ---------------------------------------------------------------------------
  // Calls
  // ---------------------------------------------------------------------------

  /** What both a lookup and a write are about. */
  datatype Context = Context(
    messages: seq<Keys.Message>, taskType: string, tenant: string, tools: seq<string>, step: Option<string>)

  datatype Answer = Answer(
    content: string, modelUsed: string, modelTier: nat, promptTokens: nat, completionTokens: nat, cost: real,
    finishReason: Option<string>)

  datatype WriteCall = WriteCall(context: Context, answer: Answer, ttlMultiplier: real)

  datatype CacheHit = CacheHit(answer: Answer, similarity: real, taskType: string)

  /** The embedding (normalised), the digest and the cipher. */
  datatype Functions = Functions(
    embed: string -> V.Vector, digest: string -> string, seal: string -> string, unseal: string -> string)

  ghost predicate CipherWorks(f: Functions) { forall s :: f.unseal(f.seal(s)) == s }

  function Fingerprint(f: Functions, c: Context): string {
    f.digest(Keys.FingerprintText(Keys.Turns(Keys.Prior(c.messages)), c.tools))
  }

  function VectorOf(f: Functions, c: Context): V.Vector { f.embed(Keys.CacheText(c.messages)) }

  predicate HasText(c: Context) { Strip(Keys.CacheText(c.messages)) != "" }

  /** Python's `int` of a float. */
  function Truncate(x: real): int { if x >= 0.0 then x.Floor else -((-x).Floor) }

  predicate StepAllowed(agentSteps: set<string>, step: Option<string>) { step.Some? && step.value in agentSteps }

  /** The gate of a write: a complete, substantial answer without hedging or error, and a text to embed. */
  predicate Gated(agentSteps: set<string>, w: WriteCall) {
    && IsCacheable(w.answer.content, w.answer.finishReason, w.context.taskType, StepAllowed(agentSteps, w.context.step))
    && HasText(w.context)
  }

  ghost predicate AllGated(agentSteps: set<string>, written: seq<Written>) {
    forall n :: 0 <= n < |written| ==> Gated(agentSteps, written[n].call)
  }

  function Lifetime(ttl: int, multiplier: real): int { Truncate(ttl as real * multiplier) }

  // ---------------------------------------------------------------------------
  // The stored document
  // ---------------------------------------------------------------------------

  function Metadata(f: Functions, w: WriteCall): V.Document {
    map["tenant_id" := V.Text(w.context.tenant),
        "conv_fp" := V.Text(Fingerprint(f, w.context)),
        "task_type" := V.Text(w.context.taskType),
        "content" := V.Text(f.seal(w.answer.content)),
        "model_used" := V.Text(w.answer.modelUsed),
        "model_tier" := V.Number(w.answer.modelTier as real),
        "prompt_tokens" := V.Number(w.answer.promptTokens as real),
        "completion_tokens" := V.Number(w.answer.completionTokens as real),
        "cost_usd" := V.Number(w.answer.cost),
        "finish_reason" := V.Text(OrStop(w.answer.finishReason))]
  }

  function OrStop(reason: Option<string>): string {
    if reason.Some? && reason.value != "" then reason.value else "stop"
  }

  function TextField(doc: V.Document, name: string): string {
    if name in doc && doc[name].Text? then doc[name].text else ""
  }

  function NumberField(doc: V.Document, name: string): real {
    if name in doc && doc[name].Number? then doc[name].number else 0.0
  }

  function CountField(doc: V.Document, name: string): nat {
    var n := Truncate(NumberField(doc, name)); if n < 0 then 0 else n
  }

  function ReadHit(f: Functions, doc: V.Document, similarity: real, taskType: string): CacheHit {
    var reason, task := TextField(doc, "finish_reason"), TextField(doc, "task_type");
    CacheHit(
      Answer(f.unseal(TextField(doc, "content")), TextField(doc, "model_used"), CountField(doc, "model_tier"),
             CountField(doc, "prompt_tokens"), CountField(doc, "completion_tokens"), NumberField(doc, "cost_usd"),
             if reason != "" then Some(reason) else None),
      similarity,
      if task != "" then task else taskType)
  }

  lemma FieldNamesDiffer()
    ensures "tenant_id" != "task_type" && "content" != "conv_fp" && "model_used" != "model_tier"
  {
    assert "tenant_id"[1] == 'e' && "task_type"[1] == 'a';
    assert "model_used"[6] == 'u' && "model_tier"[6] == 't';
  }

  /** A stored document reads back to the answer that was written, under the tenant and fingerprint it was written for,
      and has no field under the vector's name. */
  lemma MetadataReadsBack(f: Functions, w: WriteCall, similarity: real, taskType: string)
    requires CipherWorks(f) && w.answer.finishReason == Some("stop")
    ensures var hit := ReadHit(f, Metadata(f, w), similarity, taskType);
      && hit.answer == w.answer && hit.similarity == similarity
      && hit.taskType == if w.context.taskType != "" then w.context.taskType else taskType
    ensures TextField(Metadata(f, w), "tenant_id") == w.context.tenant
    ensures TextField(Metadata(f, w), "conv_fp") == Fingerprint(f, w.context)
    ensures V.VECTOR_FIELD !in Metadata(f, w)
  {
    hide Fingerprint;
    FieldNamesDiffer();
    var doc := Metadata(f, w);
    assert doc["tenant_id"] == V.Text(w.context.tenant) && doc["conv_fp"] == V.Text(Fingerprint(f, w.context));
    assert doc["task_type"] == V.Text(w.context.taskType) && doc["content"] == V.Text(f.seal(w.answer.content));
    assert doc["model_used"] == V.Text(w.answer.modelUsed);
    assert doc["model_tier"] == V.Number(w.answer.modelTier as real);
    assert doc["prompt_tokens"] == V.Number(w.answer.promptTokens as real);
    assert doc["completion_tokens"] == V.Number(w.answer.completionTokens as real);
    assert V.VECTOR_FIELD[0] == '_';
  }

  // ---------------------------------------------------------------------------
  // Lookups
  // ---------------------------------------------------------------------------

  function Clamp(x: real): real { if x < 0.0 then 0.0 else if x > 1.0 then 1.0 else x }

  function Threshold(thresholds: map<string, real>, taskType: string, offset: real): (t: real)
    ensures 0.0 <= t <= 1.0
  {
    Clamp((if taskType in thresholds then thresholds[taskType] else FALLBACK_THRESHOLD) + offset)
  }

  function FiltersFor(f: Functions, c: Context): V.Filters {
    map["tenant_id" := V.Text(c.tenant), "conv_fp" := V.Text(Fingerprint(f, c))]
  }

  /** A live record written for the tenant and the fingerprint that are asked for. */
  predicate IsMatch(f: Functions, r: V.Record, c: Context, now: real) {
    && (r.expires.None? || now < r.expires.value)
    && "tenant_id" in r.metadata && r.metadata["tenant_id"] == V.Text(c.tenant)
    && "conv_fp" in r.metadata && r.metadata["conv_fp"] == V.Text(Fingerprint(f, c))
  }

  lemma MatchIff(f: Functions, c: Context, now: real)
    ensures forall r :: V.Matches(r, FiltersFor(f, c), now) <==> IsMatch(f, r, c, now)
  {
    hide Fingerprint;
    var filters := FiltersFor(f, c);
    assert "tenant_id" in filters && filters["tenant_id"] == V.Text(c.tenant);
    assert "conv_fp" in filters && filters["conv_fp"] == V.Text(Fingerprint(f, c));
  }

  /** The threshold is the number in [0, 1] nearest to the task's own one, or 0.9 without one, moved by the offset. */
  lemma ThresholdIsNearest(thresholds: map<string, real>, taskType: string, offset: real, other: real)
    requires 0.0 <= other <= 1.0
    ensures var t := Threshold(thresholds, taskType, offset);
      var asked := (if taskType in thresholds then thresholds[taskType] else 0.9) + offset;
      0.0 <= t <= 1.0 && (t == asked || (t < asked && other <= t) || (t > asked && other >= t))
  {
  }

  /** A lifetime is the scaled one without its fraction. */
  lemma LifetimeIsWhole(ttl: int, multiplier: real)
    ensures var x, whole := ttl as real * multiplier, Lifetime(ttl, multiplier) as real;
      if x >= 0.0 then whole <= x < whole + 1.0 && whole >= 0.0 else whole - 1.0 < x <= whole && whole <= 0.0
  {
  }

  /** A record that stems from a write matches exactly what asks for the same tenant and fingerprint while it lives. */
  lemma OwnWriteMatches(f: Functions, r: V.Record, w: Written, c: Context, now: real)
    requires CipherWorks(f) && StemsFrom(f, r, w) && w.call.answer.finishReason == Some("stop")
    ensures IsMatch(f, r, c, now) <==>
      (r.expires.None? || now < r.expires.value) && w.call.context.tenant == c.tenant
      && Fingerprint(f, w.call.context) == Fingerprint(f, c)
  {
    hide Fingerprint, VectorOf;
    var doc := Metadata(f, w.call);
    FieldNamesDiffer();
    assert doc["tenant_id"] == V.Text(w.call.context.tenant) && doc["conv_fp"] == V.Text(Fingerprint(f, w.call.context));
  }

  /** A matching document carries the tenant and the fingerprint that are asked for. */
  lemma MatchMeansSameContext(f: Functions, c: Context, r: V.Record, now: real)
    requires V.Matches(r, FiltersFor(f, c), now)
    ensures TextField(r.metadata, "tenant_id") == c.tenant && TextField(r.metadata, "conv_fp") == Fingerprint(f, c)
  {
    hide Fingerprint;
    var filters := FiltersFor(f, c);
    assert "tenant_id" in filters && filters["tenant_id"] == V.Text(c.tenant);
    assert "conv_fp" in filters && filters["conv_fp"] == V.Text(Fingerprint(f, c));
  }

  // ---------------------------------------------------------------------------
  // The cache
  // ---------------------------------------------------------------------------

  /** A write that went through, under its key, until its deadline. */
  datatype Written = Written(call: WriteCall, key: string, deadline: real)

  predicate StemsFrom(f: Functions, r: V.Record, w: Written) {
    r.key == w.key && r.vector == VectorOf(f, w.call.context) && r.metadata == Metadata(f, w.call)
  }

  predicate InTime(r: V.Record, w: Written, lastSecond: set<string>) {
    (r.expires.Some? && r.expires.value <= w.deadline) || r.key in lastSecond
  }

  ghost predicate Genuine(f: Functions, r: V.Record, written: seq<Written>, lastSecond: set<string>) {
    exists n :: 0 <= n < |written| && StemsFrom(f, r, written[n]) && InTime(r, written[n], lastSecond)
  }

  predicate StoredFrom(f: Functions, key: string, entry: V.Entry, w: Written) {
    && key == w.key && entry.expires == Some(w.deadline)
    && entry.doc == V.Payload(Metadata(f, w.call), VectorOf(f, w.call.context))
  }

  ghost predicate GenuineData(f: Functions, data: V.Data, written: seq<Written>) {
    forall key :: key in data && KEY_PREFIX <= key ==> GenuineEntry(f, key, data[key], written)
  }

  ghost predicate GenuineEntry(f: Functions, key: string, entry: V.Entry, written: seq<Written>) {
    exists n :: 0 <= n < |written| && StoredFrom(f, key, entry, written[n])
  }

  ghost predicate GenuineIndex(f: Functions, rs: seq<V.Record>, written: seq<Written>, lastSecond: set<string>) {
    forall i :: 0 <= i < |rs| ==> Genuine(f, rs[i], written, lastSecond)
  }

  /** A hit gives back what `w` wrote: the same answer, for the same tenant and context, before its deadline. */
  ghost predicate Justifies(f: Functions, w: Written, c: Context, hit: CacheHit, now: real, lastSecond: set<string>) {
    && hit.answer == w.call.answer
    && w.call.context.tenant == c.tenant
    && Fingerprint(f, w.call.context) == Fingerprint(f, c)
    && hit.similarity == V.Dot(VectorOf(f, c), VectorOf(f, w.call.context))
    && (now < w.deadline || w.key in lastSecond)
  }

  class SemanticCache {
    const f: Functions
    const thresholds: map<string, real>
    const ttl: int
    const agentSteps: set<string>
    const store: V.LocalVectorStore
    var enabled: bool
    var tasks: seq<WriteCall>
    /** Every write that reached the store, by this process or an earlier one. */
    ghost var written: seq<Written>
    /** The keys a reload met in the last second of their life. */
    ghost var lastSecond: set<string>

    ghost predicate Valid()
      reads this, store, store.redis
    {
      && CipherWorks(f) && store.prefix == KEY_PREFIX
      && AllGated(agentSteps, written)
      && GenuineIndex(f, store.records, written, lastSecond)
      && GenuineData(f, store.redis.data, written)
    }

    /** Start over what an earlier process may have left in the database. */
    constructor (f: Functions, thresholds: map<string, real>, ttl: int, agentSteps: set<string>, redis: V.Redis,
                 ghost past: seq<Written>)
      requires CipherWorks(f) && GenuineData(f, redis.data, past)
      requires AllGated(agentSteps, past)
      ensures Valid() && !enabled && tasks == [] && store.records == []
      ensures fresh(store) && store.redis == redis && written == past && lastSecond == {}
    {
      this.f, this.thresholds, this.ttl, this.agentSteps := f, thresholds, ttl, agentSteps;
      store := new V.LocalVectorStore(redis, KEY_PREFIX);
      enabled, tasks := false, [];
      written, lastSecond := past, {};
    }

    /** Load the index and open the cache. */
    method WarmUp(now: real, reachable: bool)
      requires Valid()
      modifies this`enabled, this`lastSecond, store`records
      ensures Valid() && enabled
      ensures lastSecond == old(lastSecond) + if reachable then DyingKeys(store.redis.data, now) else {}
    {
      store.Load(now, reachable);
      if reachable {
        lastSecond := lastSecond + DyingKeys(store.redis.data, now);
      }
      enabled := true;
      forall i | 0 <= i < |store.records| ensures Genuine(f, store.records[i], written, lastSecond) {
        ReloadedIsGenuine(f, store.records[i].key, store.redis.data[store.records[i].key], now, written, lastSecond);
      }
    }

    /** Write an answer, if the cache is open, the answer passes the gate and there is a text to embed. */
    method Set(w: WriteCall, id: string, now: real, modelReady: bool, reachable: bool)
      requires Valid()
      modifies this`written, store`records, store.redis
      ensures Valid()
      ensures var content, step := w.answer.content, w.context.step;
        written == if && enabled && modelReady && w.answer.finishReason == Some("stop")
                      && (w.context.taskType in UNCACHEABLE_TASKS ==> step.Some? && step.value in agentSteps)
                      && |Strip(content)| >= 20 && !Hedges(Lower(Strip(content))) && !ReportsError(Lower(Strip(content)))
                      && Strip(Keys.CacheText(w.context.messages)) != ""
                   then old(written) + [NewEntry(w, id, now)] else old(written)
      ensures !(enabled && Gated(agentSteps, w) && modelReady) ==>
        store.records == old(store.records) && store.redis.data == old(store.redis.data)
    {
      hide Metadata, VectorOf, GenuineIndex, GenuineData, Lifetime, V.Payload, Hedges, ReportsError, Strip, Keys.CacheText;
      assert Gated(agentSteps, w) <==> IsCacheable(w.answer.content, w.answer.finishReason, w.context.taskType,
                                                   StepAllowed(agentSteps, w.context.step)) && HasText(w.context);
      hide Gated;
      if !enabled || !modelReady || !Gated(agentSteps, w) {
        return;
      }
      var key := KEY_PREFIX + w.context.tenant + ":" + id;
      var lifetime := Lifetime(ttl, w.ttlMultiplier);
      ghost var entry := NewEntry(w, id, now);
      ghost var before, dataBefore, was := store.records, store.redis.data, written;
      written := written + [entry];
      assert entry.key == key by {
        assert KEY_PREFIX + (w.context.tenant + ":" + id) == key;
      }
      store.Add(key, VectorOf(f, w.context), Metadata(f, w), Some(lifetime), now, reachable);
      WriteStaysGenuine(f, before, dataBefore, was, entry, lastSecond, store.records, store.redis.data);
    }

    /** What a successful write leaves in the record of writes. */
    ghost function NewEntry(w: WriteCall, id: string, now: real): Written {
      Written(w, KEY_PREFIX + (w.context.tenant + ":" + id), now + Lifetime(ttl, w.ttlMultiplier) as real)
    }

    /** Remember a write for later: the request does not wait for it. */
    method ScheduleSet(w: WriteCall)
      requires Valid()
      modifies this`tasks
      ensures Valid() && tasks == old(tasks) + [w]
    {
      tasks := tasks + [w];
    }

    /** One of the scheduled writes takes place. */
    method RunTask(k: nat, id: string, now: real, modelReady: bool, reachable: bool)
      requires Valid() && k < |tasks|
      modifies this`tasks, this`written, store`records, store.redis
      ensures Valid() && tasks == old(tasks)[..k] + old(tasks)[k + 1..]
      ensures written == if enabled && Gated(agentSteps, old(tasks)[k]) && modelReady
                         then old(written) + [NewEntry(old(tasks)[k], id, now)] else old(written)
    {
      var w := tasks[k];
      tasks := tasks[..k] + tasks[k + 1..];
      Set(w, id, now, modelReady, reachable);
    }

    /** Whether a lookup searches at all: the cache is open, the task may be cached, the model is ready, and there is a
        text to embed. */
    predicate Searches(c: Context, modelReady: bool)
      reads this`enabled
    {
      enabled && (c.taskType in UNCACHEABLE_TASKS ==> StepAllowed(agentSteps, c.step)) && modelReady && HasText(c)
    }

    function Similarity(r: V.Record, c: Context): real { V.Dot(VectorOf(f, c), r.vector) }

    /** No matching record is more similar than `bound`. */
    ghost predicate NoneAbove(c: Context, now: real, bound: real)
      reads store
    {
      forall i :: 0 <= i < |store.records| && IsMatch(f, store.records[i], c, now) ==>
        Similarity(store.records[i], c) <= bound
    }

    /** No matching record reaches `bound`. */
    ghost predicate AllBelow(c: Context, now: real, bound: real)
      reads store
    {
      forall i :: 0 <= i < |store.records| && IsMatch(f, store.records[i], c, now) ==>
        Similarity(store.records[i], c) < bound
    }

    /** Every hit was written before, passed the gate, belongs to the same tenant and context, has not expired, is a
        most similar such entry and meets the threshold; a miss means that nothing does, or that no search took place. */
    method Get(c: Context, offset: real, now: real, modelReady: bool) returns (hit: Option<CacheHit>)
      requires Valid()
      ensures hit.Some? ==> exists n :: 0 <= n < |written| && Gated(agentSteps, written[n].call)
                                    && Justifies(f, written[n], c, hit.value, now, lastSecond)
      ensures hit.Some? ==> NoneAbove(c, now, hit.value.similarity)
      ensures hit.Some? ==> hit.value.similarity >= Threshold(thresholds, c.taskType, offset)
      ensures hit.None? <==>
        || !enabled || !modelReady || Strip(Keys.CacheText(c.messages)) == ""
        || (c.taskType in UNCACHEABLE_TASKS && !(c.step.Some? && c.step.value in agentSteps))
        || AllBelow(c, now, Threshold(thresholds, c.taskType, offset))
    {
      hide Metadata, VectorOf, Gated, GenuineIndex, GenuineData, V.Found, Threshold, Fingerprint, Justifies;
      if !Searches(c, modelReady) {
        return None;
      }
      var threshold := Threshold(thresholds, c.taskType, offset);
      var filters := FiltersFor(f, c);
      var query := VectorOf(f, c);
      var results := store.Search(query, 1, filters, now);
      BestMatch(store.records, query, filters, now);
      MatchIff(f, c, now);
      if results == [] || results[0].0 < threshold {
        return None;
      }
      var (similarity, doc) := results[0];
      hit := Some(ReadHit(f, doc, similarity, c.taskType));
      BestIsJustified(f, store.records, written, lastSecond, agentSteps, c, now);
    }
  }

  // ---------------------------------------------------------------------------
  // What the methods rest on
  // ---------------------------------------------------------------------------

  /** The keys of live entries with less than a second left. */
  ghost function DyingKeys(data: V.Data, now: real): set<string> {
    set key | key in data && KEY_PREFIX <= key && data[key].expires.Some?
              && now < data[key].expires.value < now + 1.0
  }

  lemma ReloadedIsGenuine(f: Functions, key: string, entry: V.Entry, now: real, written: seq<Written>, lastSecond: set<string>)
    requires CipherWorks(f) && GenuineEntry(f, key, entry, written) && V.Live(entry.expires, now)
    requires forall n :: 0 <= n < |written| ==> written[n].call.answer.finishReason == Some("stop")
    requires entry.expires.Some? && entry.expires.value < now + 1.0 ==> key in lastSecond
    requires V.HasVector(entry.doc)
    ensures Genuine(f, V.FromEntry(key, entry, now), written, lastSecond)
  {
    hide Metadata, VectorOf;
    var n :| 0 <= n < |written| && StoredFrom(f, key, entry, written[n]);
    var w := written[n];
    MetadataReadsBack(f, w.call, 0.0, "");
    V.PayloadRoundTrip(Metadata(f, w.call), VectorOf(f, w.call.context));
    V.ReloadedLifetime(entry.expires, now);
    assert StemsFrom(f, V.FromEntry(key, entry, now), w);
  }

  lemma WriteStaysGenuine(f: Functions, rs: seq<V.Record>, data: V.Data, written: seq<Written>, w: Written,
                          lastSecond: set<string>, rsAfter: seq<V.Record>, dataAfter: V.Data)
    requires GenuineIndex(f, rs, written, lastSecond) && GenuineData(f, data, written)
    requires var vector, metadata := VectorOf(f, w.call.context), Metadata(f, w.call);
      && rsAfter == rs + [V.Record(w.key, vector, metadata, Some(w.deadline))]
      && (dataAfter == data || dataAfter == data[w.key := V.Entry(V.Payload(metadata, vector), Some(w.deadline))])
    ensures GenuineIndex(f, rsAfter, written + [w], lastSecond) && GenuineData(f, dataAfter, written + [w])
  {
    hide Metadata, VectorOf;
    var all := written + [w];
    assert all[|written|] == w;
    forall i | 0 <= i < |rsAfter| ensures Genuine(f, rsAfter[i], all, lastSecond) {
      if i < |rs| {
        assert Genuine(f, rs[i], written, lastSecond);
        var n :| 0 <= n < |written| && StemsFrom(f, rs[i], written[n]) && InTime(rs[i], written[n], lastSecond);
        assert all[n] == written[n];
      } else {
        assert StemsFrom(f, rsAfter[i], all[|written|]);
      }
    }
    forall key | key in dataAfter && KEY_PREFIX <= key ensures GenuineEntry(f, key, dataAfter[key], all) {
      if key in data && dataAfter[key] == data[key] {
        assert GenuineEntry(f, key, data[key], written);
        var n :| 0 <= n < |written| && StoredFrom(f, key, data[key], written[n]);
        assert all[n] == written[n];
      } else {
        assert StoredFrom(f, key, dataAfter[key], all[|written|]);
      }
    }
  }

  /** A search for one answers nothing exactly when nothing matches, and otherwise a most similar match. */
  lemma BestMatch(rs: seq<V.Record>, query: V.Vector, filters: V.Filters, now: real)
    ensures var found := V.Found(rs, query, 1, filters, now);
      && |found| <= 1
      && (found == [] <==> forall i :: 0 <= i < |rs| ==> !V.Matches(rs[i], filters, now))
      && (found != [] ==> forall i :: 0 <= i < |rs| && V.Matches(rs[i], filters, now) ==>
            V.Dot(query, rs[i].vector) <= found[0].0)
      && (found != [] ==> exists i :: 0 <= i < |rs| && V.Matches(rs[i], filters, now)
                                  && found[0].1 == rs[i].metadata && found[0].0 == V.Dot(query, rs[i].vector))
  {
    var test, found := V.MatchTest(filters, now), V.Found(rs, query, 1, filters, now);
    var matching, hits := Filter(rs, test), L.Candidates(rs, query, filters, now);
    L.SearchSpec(rs, query, 1, filters, now);
    FilterMembers(rs, test);
    if found != [] {
      var rest :| L.BestOf(found, rest, hits);
      assert found == [found[0]];
      assert multiset(hits) == multiset{found[0]} + multiset(rest);
      forall i | 0 <= i < |rs| && V.Matches(rs[i], filters, now) ensures V.Dot(query, rs[i].vector) <= found[0].0 {
        assert test(rs[i]) && rs[i] in matching;
        var k :| 0 <= k < |matching| && matching[k] == rs[i];
        assert hits[k] in multiset(hits);
        if hits[k] != found[0] {
          assert hits[k] in multiset(rest);
          var j :| 0 <= j < |rest| && rest[j] == hits[k];
        }
      }
      assert found[0] in multiset(hits);
      var k :| 0 <= k < |hits| && hits[k] == found[0];
      assert matching[k] in rs && test(matching[k]);
      var i :| 0 <= i < |rs| && rs[i] == matching[k];
    } else {
      assert matching == [];
      forall i | 0 <= i < |rs| ensures !V.Matches(rs[i], filters, now) {
        assert rs[i] in rs;
        assert rs[i] !in matching;
      }
    }
  }

  lemma BestIsJustified(f: Functions, rs: seq<V.Record>, written: seq<Written>, lastSecond: set<string>,
                        agentSteps: set<string>, c: Context, now: real)
    requires CipherWorks(f) && GenuineIndex(f, rs, written, lastSecond) && AllGated(agentSteps, written)
    ensures var found := V.Found(rs, VectorOf(f, c), 1, FiltersFor(f, c), now);
      found != [] ==>
        exists n :: 0 <= n < |written| && Gated(agentSteps, written[n].call)
          && Justifies(f, written[n], c, ReadHit(f, found[0].1, found[0].0, c.taskType), now, lastSecond)
  {
    hide Metadata, VectorOf, Fingerprint, FiltersFor, V.Found, Gated, Justifies;
    var query, filters := VectorOf(f, c), FiltersFor(f, c);
    var found := V.Found(rs, query, 1, filters, now);
    BestMatch(rs, query, filters, now);
    if found != [] {
      var i :| 0 <= i < |rs| && V.Matches(rs[i], filters, now)
        && found[0].1 == rs[i].metadata && found[0].0 == V.Dot(query, rs[i].vector);
      assert Genuine(f, rs[i], written, lastSecond);
      var n :| 0 <= n < |written| && StemsFrom(f, rs[i], written[n]) && InTime(rs[i], written[n], lastSecond);
      GatedIsComplete(agentSteps, written[n].call);
      MatchIsJustified(f, rs[i], written[n], c, now, lastSecond);
    }
  }

  lemma GatedIsComplete(agentSteps: set<string>, w: WriteCall)
    ensures Gated(agentSteps, w) ==> w.answer.finishReason == Some("stop")
  {
    hide Mentions, Strip;
  }

  lemma MatchIsJustified(f: Functions, r: V.Record, w: Written, c: Context, now: real, lastSecond: set<string>)
    requires CipherWorks(f) && V.Matches(r, FiltersFor(f, c), now) && StemsFrom(f, r, w) && InTime(r, w, lastSecond)
    requires w.call.answer.finishReason == Some("stop")
    ensures Justifies(f, w, c, ReadHit(f, r.metadata, V.Dot(VectorOf(f, c), r.vector), c.taskType), now, lastSecond)
  {
    hide Metadata, VectorOf, Fingerprint;
    MetadataReadsBack(f, w.call, V.Dot(VectorOf(f, c), r.vector), c.taskType);
    MatchMeansSameContext(f, c, r, now);
  }

  /** The messages agree in role and text. */
  predicate SameTurns(a: seq<Keys.Message>, b: seq<Keys.Message>) {
    |a| == |b| && forall i :: 0 <= i < |a| ==>
      a[i].role == b[i].role && Keys.ContentText(a[i].content) == Keys.ContentText(b[i].content)
  }

  lemma TurnsTellMessages(a: seq<Keys.Message>, b: seq<Keys.Message>)
    ensures Keys.Turns(a) == Keys.Turns(b) <==> SameTurns(a, b)
  {
    var s, t := Keys.Turns(a), Keys.Turns(b);
    assert |s| == |a| && |t| == |b|;
    assert forall i :: 0 <= i < |a| ==> s[i] == Keys.Turn(a[i].role, Keys.ContentText(a[i].content));
    assert forall i :: 0 <= i < |b| ==> t[i] == Keys.Turn(b[i].role, Keys.ContentText(b[i].content));
    if s == t {
      forall i | 0 <= i < |a| ensures a[i].role == b[i].role && Keys.ContentText(a[i].content) == Keys.ContentText(b[i].content) {
        assert s[i] == t[i];
      }
    }
  }

  /** Under an injective digest, two clean contexts share a fingerprint exactly when the turns before the last user
      message and the tools are the same: only then can one be served what the other wrote. */
  lemma SameFingerprintSameContext(f: Functions, c: Context, d: Context)
    requires forall s, t :: f.digest(s) == f.digest(t) ==> s == t
    requires Keys.Clean(Keys.Turns(Keys.Prior(c.messages)), c.tools) && Keys.Clean(Keys.Turns(Keys.Prior(d.messages)), d.tools)
    ensures Fingerprint(f, c) == Fingerprint(f, d) <==>
      SameTurns(Keys.Prior(c.messages), Keys.Prior(d.messages)) && multiset(c.tools) == multiset(d.tools)
  {
    TurnsTellMessages(Keys.Prior(c.messages), Keys.Prior(d.messages));
    Keys.FingerprintsTellContextsApart(
      Keys.Turns(Keys.Prior(c.messages)), c.tools, Keys.Turns(Keys.Prior(d.messages)), d.tools);
    if multiset(c.tools) == multiset(d.tools) && Keys.Turns(Keys.Prior(c.messages)) == Keys.Turns(Keys.Prior(d.messages)) {
      assert Keys.FingerprintText(Keys.Turns(Keys.Prior(c.messages)), c.tools)
          == Keys.FingerprintText(Keys.Turns(Keys.Prior(d.messages)), d.tools);
    }
  }
}
