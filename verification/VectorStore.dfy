/** The local vector store: an in-memory index over records persisted in Redis/Valkey. */
module VectorStore {
  import opened Wrappers
  import opened Sequences
  import opened StableSort

  type Vector = seq<real>

  datatype Value = Text(text: string) | Number(number: real) | Numbers(numbers: Vector)

  type Document = map<string, Value>

  const VECTOR_FIELD: string := "_vector"

  datatype Record = Record(key: string, vector: Vector, metadata: Document, expires: Option<real>)

  datatype Entry = Entry(doc: Document, expires: Option<real>)

  type Data = map<string, Entry>

  predicate Live(expires: Option<real>, now: real) { expires.None? || expires.value > now }

  function Dot(a: Vector, b: Vector): real {
    if a == [] || b == [] then 0.0 else a[0] * b[0] + Dot(a[1..], b[1..])
  }

  function Scaled(x: real, a: Vector): (r: Vector)
    ensures |r| == |a|
  {
    seq(|a|, i requires 0 <= i < |a| => x * a[i])
  }

  function Plus(a: Vector, b: Vector): (r: Vector)
    requires |a| == |b|
    ensures |r| == |a|
  {
    seq(|a|, i requires 0 <= i < |a| => a[i] + b[i])
  }

  lemma {:induction false} DotSymmetric(a: Vector, b: Vector)
    ensures Dot(a, b) == Dot(b, a)
  {
    if a != [] && b != [] {
      DotSymmetric(a[1..], b[1..]);
    }
  }

  lemma {:induction false} DotLinear(x: real, a: Vector, b: Vector, c: Vector)
    requires |a| == |b| == |c|
    ensures Dot(Plus(Scaled(x, a), b), c) == x * Dot(a, c) + Dot(b, c)
  {
    if a != [] {
      DotLinear(x, a[1..], b[1..], c[1..]);
      PlusTail(x, a, b);
      Distribute(x, a[0], b[0], c[0], Dot(a[1..], c[1..]));
    }
  }

  lemma Distribute(x: real, a: real, b: real, c: real, rest: real)
    ensures (x * a + b) * c + x * rest == x * (a * c + rest) + b * c
  {
  }

  lemma PlusTail(x: real, a: Vector, b: Vector)
    requires |a| == |b| > 0
    ensures var c := Plus(Scaled(x, a), b); c[0] == x * a[0] + b[0] && c[1..] == Plus(Scaled(x, a[1..]), b[1..])
  {
    var c, d := Plus(Scaled(x, a), b), Plus(Scaled(x, a[1..]), b[1..]);
    assert |c[1..]| == |d|;
    forall i | 0 <= i < |d| ensures c[1..][i] == d[i] {
      assert Scaled(x, a[1..])[i] == x * a[i + 1] == Scaled(x, a)[i + 1];
    }
  }

  function Product(x: real, y: real): real { x * y }

  lemma SquareSign(x: real)
    ensures x > 0.0 || x < 0.0 ==> Product(x, x) > 0.0
    ensures x == 0.0 ==> Product(x, x) == 0.0
  {
    if x > 0.0 {
      SameSign(x, x);
    } else if x < 0.0 {
      SignsCancel(x, x);
      SameSign(-x, -x);
    }
  }

  lemma SameSign(x: real, y: real)
    requires x > 0.0 && y > 0.0
    ensures Product(x, y) > 0.0
  {
  }

  lemma SignsCancel(x: real, y: real)
    ensures Product(-x, -y) == Product(x, y)
  {
  }

  predicate IsZero(a: Vector) { forall i :: 0 <= i < |a| ==> a[i] == 0.0 }

  lemma ZeroTail(a: Vector)
    requires a != []
    ensures IsZero(a) <==> a[0] == 0.0 && IsZero(a[1..])
  {
    assert forall i :: 1 <= i < |a| ==> a[i] == a[1..][i - 1];
  }

  lemma {:induction false} SquareNotNegative(a: Vector)
    ensures Dot(a, a) >= 0.0 && (Dot(a, a) == 0.0 <==> IsZero(a))
  {
    if a != [] {
      var x, rest := a[0], a[1..];
      SquareNotNegative(rest);
      SquareSign(x);
      ZeroTail(a);
      assert Dot(a, a) == Product(x, x) + Dot(rest, rest);
      hide Product, Dot, IsZero;
    }
  }

  /** The similarity of normalised vectors lies between -1 and 1; it is 1 for the same vector only. */
  lemma SimilarityRange(a: Vector, b: Vector)
    requires |a| == |b| && Dot(a, a) == 1.0 && Dot(b, b) == 1.0
    ensures -1.0 <= Dot(a, b) <= 1.0
    ensures Dot(a, b) == 1.0 <==> a == b
  {
    SquareOfDifference(a, b, -1.0);
    SquareOfDifference(a, b, 1.0);
    SquareNotNegative(Plus(Scaled(-1.0, a), b));
    SquareNotNegative(Plus(Scaled(1.0, a), b));
    hide Dot;
    if Dot(a, b) == 1.0 {
      forall i | 0 <= i < |a| ensures a[i] == b[i] {
        assert Plus(Scaled(-1.0, a), b)[i] == 0.0;
      }
    }
  }

  lemma SquareOfDifference(a: Vector, b: Vector, x: real)
    requires |a| == |b| && (x == 1.0 || x == -1.0)
    ensures var c := Plus(Scaled(x, a), b);
      Dot(c, c) == Dot(a, a) + Dot(b, b) + if x == 1.0 then 2.0 * Dot(a, b) else -2.0 * Dot(a, b)
  {
    hide Dot, Plus, Scaled;
    var c := Plus(Scaled(x, a), b);
    DotLinear(x, a, b, c);
    DotLinear(x, a, b, a);
    DotLinear(x, a, b, b);
    DotSymmetric(a, c);
    DotSymmetric(b, c);
    DotSymmetric(b, a);
  }

  // ---------------------------------------------------------------------------
  // Persisted form
  // ---------------------------------------------------------------------------

  /** The document that is persisted: the metadata with the vector as one more field. */
  function Payload(metadata: Document, vector: Vector): Document { metadata[VECTOR_FIELD := Numbers(vector)] }

  /** What reading a document back gives: the vector, and the rest as metadata. */
  function Unpack(doc: Document): (Document, Vector)
    requires HasVector(doc)
  {
    (doc - {VECTOR_FIELD}, doc[VECTOR_FIELD].numbers)
  }

  /** The persisted form reads back to what was written exactly when the metadata has no field of its own under the
      vector's name. */
  lemma PayloadRoundTrip(metadata: Document, vector: Vector)
    ensures Unpack(Payload(metadata, vector)) == (metadata, vector) <==> VECTOR_FIELD !in metadata
  {
    var back := Unpack(Payload(metadata, vector)).0;
    assert VECTOR_FIELD !in back;
    if VECTOR_FIELD !in metadata {
      assert back == metadata;
    }
  }

  /** The whole seconds a key reports until it expires; -1 without expiry. */
  function ReportedTtl(expires: Option<real>, now: real): int {
    if expires.None? then -1 else (expires.value - now).Floor
  }

  function ReloadedExpiry(expires: Option<real>, now: real): Option<real> {
    var ttl := ReportedTtl(expires, now);
    if ttl > 0 then Some(now + ttl as real) else None
  }

  /** Reloading a live record shortens its life, or keeps it, exactly when at least one whole second is left or it
      never expires; in its last second it becomes immortal. */
  lemma ReloadedLifetime(expires: Option<real>, now: real)
    requires Live(expires, now)
    ensures Live(ReloadedExpiry(expires, now), now)
    ensures (forall later :: later >= now && Live(ReloadedExpiry(expires, now), later) ==> Live(expires, later))
      <==> expires.None? || expires.value - now >= 1.0
    ensures expires.Some? && expires.value - now < 1.0 ==> ReloadedExpiry(expires, now).None?
    ensures expires.Some? && expires.value - now >= 1.0 ==>
      expires.value - 1.0 < ReloadedExpiry(expires, now).value <= expires.value
  {
    if expires.Some? && expires.value - now < 1.0 {
      assert ReportedTtl(expires, now) == 0;
      assert !Live(expires, expires.value);
    }
  }

  /** An entry as the rebuilt index holds it. */
  function FromEntry(key: string, entry: Entry, now: real): Record
    requires HasVector(entry.doc)
  {
    var (metadata, vector) := Unpack(entry.doc);
    Record(key, vector, metadata, ReloadedExpiry(entry.expires, now))
  }

  /** The keys a scan of the prefix can still read. */
  function LiveKeys(data: Data, prefix: string, now: real): set<string> {
    set key | key in data && prefix <= key && Live(data[key].expires, now)
  }

  predicate HasVector(doc: Document) { VECTOR_FIELD in doc && doc[VECTOR_FIELD].Numbers? }

  /** Every live entry under the prefix has a vector; one without fails the whole rebuild. */
  ghost predicate Readable(data: Data, prefix: string, now: real) {
    forall key :: key in LiveKeys(data, prefix, now) ==> HasVector(data[key].doc)
  }

  // ---------------------------------------------------------------------------
  // Search
  // ---------------------------------------------------------------------------

  type Filters = map<string, Value>

  predicate Matches(r: Record, filters: Filters, now: real) {
    Live(r.expires, now) && forall f :: f in filters ==> f in r.metadata && r.metadata[f] == filters[f]
  }

  function MatchTest(filters: Filters, now: real): Record -> bool { (r: Record) => Matches(r, filters, now) }

  type Hit = (real, Document)

  function Hits(rs: seq<Record>, query: Vector): seq<Hit> {
    seq(|rs|, i requires 0 <= i < |rs| => (Dot(query, rs[i].vector), rs[i].metadata))
  }

  function BySimilarity(): (Hit, Hit) -> bool { (a: Hit, b: Hit) => a.0 >= b.0 }

  function Found(records: seq<Record>, query: Vector, k: nat, filters: Filters, now: real): seq<Hit> {
    Take(Sort(Hits(Filter(records, MatchTest(filters, now)), query), BySimilarity()), k)
  }

  // ---------------------------------------------------------------------------
  // Writes
  // ---------------------------------------------------------------------------

  function Deadline(ttl: Option<int>, now: real): Option<real> {
    if ttl.Some? then Some(now + ttl.value as real) else None
  }

  datatype Write = Write(key: string, vector: Vector, metadata: Document, ttl: Option<int>, at: real, reachable: bool) {
    function Expires(): Option<real> { Deadline(ttl, at) }

    /** A key with a non-positive expiry is refused; an unreachable server keeps nothing. */
    predicate Kept() { reachable && (ttl.None? || ttl.value > 0) }
  }

  function Indexed(records: seq<Record>, w: Write): seq<Record> {
    records + [Record(w.key, w.vector, w.metadata, w.Expires())]
  }

  function Persisted(data: Data, w: Write): Data {
    if w.Kept() then data[w.key := Entry(Payload(w.metadata, w.vector), w.Expires())] else data
  }

  // ---------------------------------------------------------------------------
  // The store
  // ---------------------------------------------------------------------------

  class Redis {
    var data: Data

    constructor ()
      ensures data == map[]
    {
      data := map[];
    }

    /** SET with an optional expiry; refused for a non-positive one, or when the connection fails. */
    method Set(key: string, doc: Document, ttl: Option<int>, now: real, reachable: bool)
      modifies this
      ensures data == if reachable && (ttl.None? || ttl.value > 0)
                      then old(data)[key := Entry(doc, Deadline(ttl, now))] else old(data)
    {
      if reachable && (ttl.None? || ttl.value > 0) {
        data := data[key := Entry(doc, Deadline(ttl, now))];
      }
    }
  }

  class LocalVectorStore {
    const redis: Redis
    const prefix: string
    var records: seq<Record>

    constructor (redis: Redis, prefix: string)
      ensures this.redis == redis && this.prefix == prefix && records == []
    {
      this.redis, this.prefix, records := redis, prefix, [];
    }

    /** The record enters the index in any case; it is persisted if the write succeeds. */
    method Add(key: string, vector: Vector, metadata: Document, ttl: Option<int>, now: real, reachable: bool)
      modifies this`records, redis
      ensures records == Indexed(old(records), Write(key, vector, metadata, ttl, now, reachable))
      ensures redis.data == Persisted(old(redis.data), Write(key, vector, metadata, ttl, now, reachable))
    {
      records := records + [Record(key, vector, metadata, Deadline(ttl, now))];
      redis.Set(key, Payload(metadata, vector), ttl, now, reachable);
    }

    /** Rebuild the index from what is stored, in whatever order the scan answers; any failure leaves it empty. */
    method Load(now: real, reachable: bool)
      modifies this`records
      ensures if reachable && Readable(redis.data, prefix, now) then Rebuilt(records, redis.data, prefix, now) else records == []
    {
      if !reachable {
        records := [];
        return;
      }
      var loaded: seq<Record> := [];
      var todo := set key | key in redis.data && prefix <= key;
      ghost var all := todo;
      while todo != {}
        invariant todo <= all && unchanged(redis)
        invariant forall i :: 0 <= i < |loaded| ==>
          loaded[i].key in LiveKeys(redis.data, prefix, now) - todo
          && HasVector(redis.data[loaded[i].key].doc)
          && loaded[i] == FromEntry(loaded[i].key, redis.data[loaded[i].key], now)
        invariant forall key :: key in LiveKeys(redis.data, prefix, now) - todo ==> Holds(loaded, key)
        invariant forall i, j :: 0 <= i < j < |loaded| ==> loaded[i].key != loaded[j].key
        decreases todo
      {
        ghost var todoBefore := todo;
        var key :| key in todo;
        todo := todo - {key};
        var entry := redis.data[key];
        ghost var before := loaded;
        if Live(entry.expires, now) {
          if !HasVector(entry.doc) {
            records := [];
            return;
          }
          var ttl := ReportedTtl(entry.expires, now);
          var expires := if ttl > 0 then Some(now + ttl as real) else None;
          var (metadata, vector) := Unpack(entry.doc);
          loaded := loaded + [Record(key, vector, metadata, expires)];
          assert loaded[|before|].key == key;
        }
        forall k | k in LiveKeys(redis.data, prefix, now) - todo ensures Holds(loaded, k) {
          if k != key {
            assert k in LiveKeys(redis.data, prefix, now) - todoBefore;
            assert Holds(before, k);
            var i :| 0 <= i < |before| && before[i].key == k;
            assert loaded[i].key == k;
          }
        }
      }
      forall key | key in LiveKeys(redis.data, prefix, now) ensures HasVector(redis.data[key].doc) {
        assert Holds(loaded, key);
      }
      records := loaded;
    }

    /** The k most similar live records that match the filters, most similar first. */
    method Search(query: Vector, k: nat, filters: Filters, now: real) returns (found: seq<Hit>)
      ensures found == Found(records, query, k, filters, now)
    {
      var candidates := Filter(records, MatchTest(filters, now));
      if candidates == [] {
        return [];
      }
      found := Take(Sort(Hits(candidates, query), BySimilarity()), k);
    }
  }

  ghost predicate Holds(records: seq<Record>, key: string) {
    exists i :: 0 <= i < |records| && records[i].key == key
  }

  /** The index is exactly what the live entries read back to, each once. */
  ghost predicate Rebuilt(records: seq<Record>, data: Data, prefix: string, now: real)
  {
    && Readable(data, prefix, now)
    && (forall i :: 0 <= i < |records| ==>
          records[i].key in LiveKeys(data, prefix, now)
          && records[i] == FromEntry(records[i].key, data[records[i].key], now))
    && (forall key :: key in LiveKeys(data, prefix, now) ==> Holds(records, key))
    && (forall i, j :: 0 <= i < j < |records| ==> records[i].key != records[j].key)
  }
}
