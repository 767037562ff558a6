/** What holds between the in-memory index and the persisted records: they agree, reloading gives the live ones back,
    and searching either finds the same similarities. */
module VectorStoreLaws {
  import opened Wrappers
  import opened Sequences
  import opened StableSort
  import opened VectorStore

  // ---------------------------------------------------------------------------
  // Agreement
  // ---------------------------------------------------------------------------

  ghost predicate DistinctKeys(rs: seq<Record>) {
    forall i, j :: 0 <= i < j < |rs| ==> rs[i].key != rs[j].key
  }

  /** The entry is live, lasts as long as the record and reads back to it. */
  predicate StoredAs(data: Data, r: Record) {
    && r.key in data && data[r.key].expires == r.expires
    && HasVector(data[r.key].doc)
    && Unpack(data[r.key].doc) == (r.metadata, r.vector)
  }

  /** Some live record of the index has this key. */
  ghost predicate HoldsLive(records: seq<Record>, key: string, now: real) {
    exists i :: 0 <= i < |records| && records[i].key == key && Live(records[i].expires, now)
  }

  /** Every live record is stored as it is, and every live stored entry is in the index. */
  ghost predicate Agree(records: seq<Record>, data: Data, prefix: string, now: real) {
    && DistinctKeys(records)
    && (forall i :: 0 <= i < |records| ==> prefix <= records[i].key)
    && (forall i :: 0 <= i < |records| && Live(records[i].expires, now) ==> StoredAs(data, records[i]))
    && (forall key :: key in LiveKeys(data, prefix, now) ==> HoldsLive(records, key, now))
  }

  lemma TimeKeepsAgreement(records: seq<Record>, data: Data, prefix: string, now: real, later: real)
    requires Agree(records, data, prefix, now) && now <= later
    ensures Agree(records, data, prefix, later)
  {
    forall key | key in LiveKeys(data, prefix, later) ensures HoldsLive(records, key, later) {
      assert key in LiveKeys(data, prefix, now);
      var i :| 0 <= i < |records| && records[i].key == key && Live(records[i].expires, now);
      assert StoredAs(data, records[i]);
    }
  }

  /** A write that both sides see alike: kept whole, or dead on arrival. */
  predicate Consistent(w: Write) {
    (w.ttl.Some? && w.ttl.value <= 0) || (w.reachable && VECTOR_FIELD !in w.metadata)
  }

  /** Under a fresh key, index and storage still agree after a write exactly when the write is consistent: a failed
      write leaves a record the storage lacks, and metadata with a `_vector` of its own does not read back. */
  lemma WriteKeepsAgreement(records: seq<Record>, data: Data, prefix: string, w: Write)
    requires Agree(records, data, prefix, w.at)
    requires prefix <= w.key && w.key !in data && !Holds(records, w.key)
    ensures Agree(Indexed(records, w), Persisted(data, w), prefix, w.at) <==> Consistent(w)
  {
    var after, stored, n := Indexed(records, w), Persisted(data, w), |records|;
    assert after[n] == Record(w.key, w.vector, w.metadata, w.Expires());
    PayloadRoundTrip(w.metadata, w.vector);
    assert Live(w.Expires(), w.at) <==> w.ttl.None? || w.ttl.value > 0;
    if Consistent(w) {
      forall i | 0 <= i < |after| && Live(after[i].expires, w.at) ensures StoredAs(stored, after[i]) {
        if i < n {
          assert after[i] == records[i];
          assert StoredAs(data, records[i]);
        }
      }
      forall key | key in LiveKeys(stored, prefix, w.at) ensures HoldsLive(after, key, w.at) {
        if key == w.key {
          assert after[n].key == key;
        } else {
          assert key in LiveKeys(data, prefix, w.at);
          var i :| 0 <= i < n && records[i].key == key && Live(records[i].expires, w.at);
          assert after[i] == records[i];
        }
      }
      forall i, j | 0 <= i < j < |after| ensures after[i].key != after[j].key {
        if j == n {
          assert records[i].key != w.key;
        }
      }
    } else {
      assert Live(after[n].expires, w.at) && !StoredAs(stored, after[n]);
    }
  }

  // ---------------------------------------------------------------------------
  // Whole histories of writes
  // ---------------------------------------------------------------------------

  function IndexAfter(ws: seq<Write>): seq<Record> {
    if ws == [] then [] else Indexed(IndexAfter(ws[..|ws| - 1]), ws[|ws| - 1])
  }

  function DataAfter(ws: seq<Write>): Data {
    if ws == [] then map[] else Persisted(DataAfter(ws[..|ws| - 1]), ws[|ws| - 1])
  }

  /** Distinct keys under the prefix, in order of time. */
  ghost predicate WriteHistory(ws: seq<Write>, prefix: string) {
    && (forall i :: 0 <= i < |ws| ==> prefix <= ws[i].key)
    && (forall i, j :: 0 <= i < j < |ws| ==> ws[i].key != ws[j].key && ws[i].at <= ws[j].at)
  }

  lemma {:induction false} KeysAfter(ws: seq<Write>)
    ensures |IndexAfter(ws)| == |ws| && forall i :: 0 <= i < |ws| ==> IndexAfter(ws)[i].key == ws[i].key
    ensures forall key :: key in DataAfter(ws) ==> exists i :: 0 <= i < |ws| && ws[i].key == key
  {
    if ws != [] {
      var front := ws[..|ws| - 1];
      KeysAfter(front);
      forall key | key in DataAfter(ws) ensures exists i :: 0 <= i < |ws| && ws[i].key == key {
        if key in DataAfter(front) {
          var i :| 0 <= i < |front| && front[i].key == key;
          assert ws[i].key == key;
        } else {
          assert ws[|ws| - 1].key == key;
        }
      }
    }
  }

  /** After any history of consistent writes under distinct keys, index and storage agree, now and at every later
      time. */
  lemma {:induction false} HistoriesAgree(ws: seq<Write>, prefix: string, now: real)
    requires WriteHistory(ws, prefix) && forall i :: 0 <= i < |ws| ==> Consistent(ws[i]) && ws[i].at <= now
    ensures Agree(IndexAfter(ws), DataAfter(ws), prefix, now)
  {
    if ws != [] {
      var front, w := ws[..|ws| - 1], ws[|ws| - 1];
      HistoriesAgree(front, prefix, w.at);
      KeysAfter(front);
      assert !Holds(IndexAfter(front), w.key);
      assert w.key !in DataAfter(front);
      WriteKeepsAgreement(IndexAfter(front), DataAfter(front), prefix, w);
      TimeKeepsAgreement(IndexAfter(ws), DataAfter(ws), prefix, w.at, now);
    }
  }

  // ---------------------------------------------------------------------------
  // Reloading
  // ---------------------------------------------------------------------------

  /** The same key, vector and metadata. */
  predicate SameContent(a: Record, b: Record) { a.key == b.key && a.vector == b.vector && a.metadata == b.metadata }

  /** Every record of `a` has one with the same content in `b`. */
  ghost predicate Covers(a: seq<Record>, b: seq<Record>) {
    forall i :: 0 <= i < |a| ==> Twin(a[i], b)
  }

  ghost predicate Twin(r: Record, b: seq<Record>) {
    exists j :: 0 <= j < |b| && SameContent(r, b[j])
  }

  /** Storage that agrees with an index can be reloaded. */
  lemma AgreementIsReadable(records: seq<Record>, data: Data, prefix: string, now: real)
    requires Agree(records, data, prefix, now)
    ensures Readable(data, prefix, now)
  {
    forall key | key in LiveKeys(data, prefix, now) ensures HasVector(data[key].doc) {
      var i :| 0 <= i < |records| && records[i].key == key && Live(records[i].expires, now);
      assert StoredAs(data, records[i]);
    }
  }

  function LiveTest(now: real): Record -> bool { (r: Record) => Live(r.expires, now) }

  lemma ReloadedRecord(records: seq<Record>, data: Data, prefix: string, loaded: seq<Record>, now: real, i: nat)
    requires Agree(records, data, prefix, now) && Rebuilt(loaded, data, prefix, now)
    requires i < |loaded|
    ensures exists j :: 0 <= j < |records| && Live(records[j].expires, now)
                && SameContent(loaded[i], records[j]) && loaded[i].expires == ReloadedExpiry(records[j].expires, now)
    ensures Live(loaded[i].expires, now)
  {
    var key := loaded[i].key;
    var j :| 0 <= j < |records| && records[j].key == key && Live(records[j].expires, now);
    assert StoredAs(data, records[j]);
    ReloadedLifetime(records[j].expires, now);
  }

  lemma ReloadMissesNothing(records: seq<Record>, data: Data, prefix: string, loaded: seq<Record>, now: real, j: nat)
    requires Agree(records, data, prefix, now) && Rebuilt(loaded, data, prefix, now)
    requires j < |records| && Live(records[j].expires, now)
    ensures Twin(records[j], loaded)
  {
    var key := records[j].key;
    assert StoredAs(data, records[j]) && key in LiveKeys(data, prefix, now);
    var i :| 0 <= i < |loaded| && loaded[i].key == key;
    assert SameContent(records[j], loaded[i]);
  }

  /** Reloading yields exactly the live records the index held, each once, all of them live. */
  lemma ReloadIsTheLiveIndex(records: seq<Record>, data: Data, prefix: string, loaded: seq<Record>, now: real)
    requires Agree(records, data, prefix, now) && Rebuilt(loaded, data, prefix, now)
    ensures DistinctKeys(loaded) && All(loaded, LiveTest(now))
    ensures Covers(loaded, Filter(records, LiveTest(now))) && Covers(Filter(records, LiveTest(now)), loaded)
  {
    var live := Filter(records, LiveTest(now));
    FilterMembers(records, LiveTest(now));
    forall i | 0 <= i < |loaded| ensures Twin(loaded[i], live) && LiveTest(now)(loaded[i]) {
      ReloadedRecord(records, data, prefix, loaded, now, i);
      var j :| 0 <= j < |records| && Live(records[j].expires, now) && SameContent(loaded[i], records[j]);
      assert records[j] in live;
    }
    forall i | 0 <= i < |live| ensures Twin(live[i], loaded) {
      assert live[i] in records;
      var j :| 0 <= j < |records| && records[j] == live[i];
      ReloadMissesNothing(records, data, prefix, loaded, now, j);
    }
  }

  // ---------------------------------------------------------------------------
  // Searching
  // ---------------------------------------------------------------------------

  function Scores(hits: seq<Hit>): (r: seq<real>)
    ensures |r| == |hits| && forall i :: 0 <= i < |hits| ==> r[i] == hits[i].0
  {
    seq(|hits|, i requires 0 <= i < |hits| => hits[i].0)
  }

  ghost predicate Descending(scores: seq<real>) { forall i, j :: 0 <= i < j < |scores| ==> scores[i] >= scores[j] }

  lemma BySimilarityIsTotal()
    ensures TotalPreorder(BySimilarity())
  {
  }

  lemma ScoresWithout(hits: seq<Hit>, i: nat)
    requires i < |hits|
    ensures multiset(Scores(Without(hits, i))) == multiset(Scores(hits)) - multiset{hits[i].0}
    ensures hits[i].0 in multiset(Scores(hits))
  {
    assert Scores(Without(hits, i)) == Without(Scores(hits), i);
    assert Scores(hits)[i] in multiset(Scores(hits));
  }

  lemma {:induction false} SameScores(a: seq<Hit>, b: seq<Hit>)
    requires multiset(a) == multiset(b)
    ensures multiset(Scores(a)) == multiset(Scores(b))
    decreases |a|
  {
    assert |a| == |multiset(a)| && |b| == |multiset(b)|;
    if a == [] {
      assert Scores(a) == Scores(b);
    } else {
      var j := Occurs(a[0], a, b);
      SameScores(Without(a, 0), Without(b, j));
      ScoresWithout(a, 0);
      ScoresWithout(b, j);
      Restored(multiset(Scores(a)), multiset(Scores(b)), a[0].0);
    }
  }

  lemma Restored<T>(s: multiset<T>, t: multiset<T>, x: T)
    requires s - multiset{x} == t - multiset{x} && x in s && x in t
    ensures s == t
  {
    assert s == (s - multiset{x}) + multiset{x};
    assert t == (t - multiset{x}) + multiset{x};
  }

  lemma SortedScoresDescend(hits: seq<Hit>)
    ensures Descending(Scores(Sort(hits, BySimilarity())))
  {
    BySimilarityIsTotal();
    SortCorrect(hits, BySimilarity());
    var r := Sort(hits, BySimilarity());
    forall i, j | 0 <= i < j < |r| ensures Scores(r)[i] >= Scores(r)[j] {
      assert BySimilarity()(r[i], r[j]);
    }
  }

  function Candidates(records: seq<Record>, query: Vector, filters: Filters, now: real): seq<Hit> {
    Hits(Filter(records, MatchTest(filters, now)), query)
  }

  /** `rest` is what `found` leaves of the candidates, and nothing in it is more similar. */
  ghost predicate BestOf(found: seq<Hit>, rest: seq<Hit>, candidates: seq<Hit>) {
    && multiset(found) + multiset(rest) == multiset(candidates)
    && forall i, j :: 0 <= i < |found| && 0 <= j < |rest| ==> found[i].0 >= rest[j].0
  }

  /** A search answers the min(k, n) most similar of the n live records that match, in descending order. */
  lemma SearchSpec(records: seq<Record>, query: Vector, k: nat, filters: Filters, now: real)
    ensures var found := Found(records, query, k, filters, now);
      var n := |Filter(records, MatchTest(filters, now))|;
      && |found| == (if k <= n then k else n)
      && Descending(Scores(found))
      && exists rest :: BestOf(found, rest, Candidates(records, query, filters, now))
  {
    var hits := Candidates(records, query, filters, now);
    var sorted := Sort(hits, BySimilarity());
    SortMembers(hits, BySimilarity());
    SortedScoresDescend(hits);
    hide Sort, BySimilarity, Filter, MatchTest;
    TopOfSorted(sorted, hits, k);
  }

  lemma TopOfSorted(sorted: seq<Hit>, hits: seq<Hit>, k: nat)
    requires multiset(sorted) == multiset(hits) && Descending(Scores(sorted))
    ensures |Take(sorted, k)| == (if k <= |hits| then k else |hits|) && Descending(Scores(Take(sorted, k)))
    ensures exists rest :: BestOf(Take(sorted, k), rest, hits)
  {
    assert |multiset(sorted)| == |sorted| && |multiset(hits)| == |hits|;
    var found := Take(sorted, k);
    var rest := sorted[|found|..];
    assert sorted == found + rest;
    var scores := Scores(sorted);
    forall i, j | 0 <= i < |found| && 0 <= j < |rest| ensures found[i].0 >= rest[j].0 {
      assert scores[i] >= scores[|found| + j];
    }
    forall i, j | 0 <= i < j < |found| ensures Scores(found)[i] >= Scores(found)[j] {
      assert scores[i] >= scores[j];
    }
    assert BestOf(found, rest, hits);
  }

  lemma HitsWithout(rs: seq<Record>, query: Vector, i: nat)
    requires i < |rs|
    ensures multiset(Hits(Without(rs, i), query)) == multiset(Hits(rs, query)) - multiset{Hits(rs, query)[i]}
    ensures Hits(rs, query)[i] in multiset(Hits(rs, query))
  {
    assert Hits(Without(rs, i), query) == Without(Hits(rs, query), i);
  }

  /** Two indexes with the same contents, in whatever order, offer the same hits. */
  lemma {:induction false} SameHits(a: seq<Record>, b: seq<Record>, query: Vector)
    requires DistinctKeys(a) && DistinctKeys(b) && Covers(a, b) && Covers(b, a)
    ensures multiset(Hits(a, query)) == multiset(Hits(b, query))
    decreases |a|
  {
    if a == [] {
      assert b == [] by {
        if b != [] {
          var _ := TwinOf(b, a, 0);
        }
      }
    } else {
      var j := TwinOf(a, b, 0);
      PairLeaves(a, b, 0, j);
      PairLeaves(b, a, j, 0);
      SameHits(Without(a, 0), Without(b, j), query);
      HitsWithout(a, query, 0);
      HitsWithout(b, query, j);
      Restored(multiset(Hits(a, query)), multiset(Hits(b, query)), Hits(a, query)[0]);
    }
  }

  lemma TwinOf(a: seq<Record>, b: seq<Record>, i: nat) returns (j: nat)
    requires Covers(a, b) && i < |a|
    ensures j < |b| && SameContent(a[i], b[j])
  {
    assert Twin(a[i], b);
    j :| 0 <= j < |b| && SameContent(a[i], b[j]);
  }

  /** Taking a record and its twin away leaves the others covered. */
  lemma PairLeaves(a: seq<Record>, b: seq<Record>, i: nat, j: nat)
    requires DistinctKeys(a) && Covers(a, b) && i < |a| && j < |b| && SameContent(a[i], b[j])
    ensures DistinctKeys(Without(a, i)) && Covers(Without(a, i), Without(b, j))
  {
    var rest, others := Without(a, i), Without(b, j);
    forall n | 0 <= n < |rest| ensures Twin(rest[n], others) {
      var m := if n < i then n else n + 1;
      var k := TwinOf(a, b, m);
      assert rest[n] == a[m] && a[m].key != a[i].key;
      assert b[k] == others[if k < j then k else k - 1];
    }
  }

  lemma {:induction false} FilterKeepsDistinctKeys(rs: seq<Record>, p: Record -> bool)
    requires DistinctKeys(rs)
    ensures DistinctKeys(Filter(rs, p))
  {
    if rs != [] {
      var front, x := rs[..|rs| - 1], rs[|rs| - 1];
      FilterKeepsDistinctKeys(front, p);
      FilterMembers(front, p);
      forall i | 0 <= i < |Filter(front, p)| ensures Filter(front, p)[i].key != x.key {
        assert Filter(front, p)[i] in front;
      }
    }
  }

  /** The matching records of two indexes with the same live contents have the same contents too. */
  lemma MatchesCover(a: seq<Record>, b: seq<Record>, filters: Filters, now: real)
    requires Covers(Filter(a, LiveTest(now)), b) && All(b, LiveTest(now))
    ensures Covers(Filter(a, MatchTest(filters, now)), Filter(b, MatchTest(filters, now)))
  {
    var matching := Filter(a, MatchTest(filters, now));
    FilterMembers(a, MatchTest(filters, now));
    FilterMembers(a, LiveTest(now));
    forall i | 0 <= i < |matching| ensures Twin(matching[i], Filter(b, MatchTest(filters, now))) {
      var r := matching[i];
      assert r in matching && r in Filter(a, LiveTest(now));
      MatchesTwin(r, Filter(a, LiveTest(now)), b, filters, now);
    }
  }

  lemma MatchesTwin(r: Record, live: seq<Record>, b: seq<Record>, filters: Filters, now: real)
    requires Covers(live, b) && All(b, LiveTest(now)) && r in live && Matches(r, filters, now)
    ensures Twin(r, Filter(b, MatchTest(filters, now)))
  {
    FilterMembers(b, MatchTest(filters, now));
    var n :| 0 <= n < |live| && live[n] == r;
    var j := TwinOf(live, b, n);
    assert LiveTest(now)(b[j]);
    assert b[j] in Filter(b, MatchTest(filters, now));
  }

  /** Searching the reloaded index gives the same similarities, in the same order, as searching the one in memory. */
  lemma ReloadFindsTheSame(records: seq<Record>, data: Data, prefix: string, loaded: seq<Record>, now: real,
                           query: Vector, k: nat, filters: Filters)
    requires Agree(records, data, prefix, now) && Rebuilt(loaded, data, prefix, now)
    ensures Scores(Found(loaded, query, k, filters, now)) == Scores(Found(records, query, k, filters, now))
    ensures multiset(Candidates(loaded, query, filters, now)) == multiset(Candidates(records, query, filters, now))
  {
    ReloadIsTheLiveIndex(records, data, prefix, loaded, now);
    var test, live := MatchTest(filters, now), Filter(records, LiveTest(now));
    var a, b := Filter(records, test), Filter(loaded, test);
    FilterKeepsDistinctKeys(records, test);
    FilterKeepsDistinctKeys(loaded, test);
    MatchesCover(records, loaded, filters, now);
    FilterSatisfies(records, LiveTest(now));
    FilterAll(loaded, LiveTest(now));
    MatchesCover(loaded, live, filters, now);
    assert Filter(live, test) == a by {
      FilterTwice(records, filters, now);
    }
    SameHits(a, b, query);
    SameRanking(Hits(a, query), Hits(b, query), k);
  }

  /** End to end, for every history of consistent writes under distinct keys: what is stored can be reloaded, and any
      index rebuilt from it finds the same similarities, in the same order, as the index the writes left in memory. */
  lemma HistoryReloads(ws: seq<Write>, prefix: string, now: real, loaded: seq<Record>, query: Vector, k: nat,
                       filters: Filters)
    requires WriteHistory(ws, prefix) && forall i :: 0 <= i < |ws| ==> Consistent(ws[i]) && ws[i].at <= now
    ensures Readable(DataAfter(ws), prefix, now)
    ensures Rebuilt(loaded, DataAfter(ws), prefix, now) ==>
      Scores(Found(loaded, query, k, filters, now)) == Scores(Found(IndexAfter(ws), query, k, filters, now))
  {
    HistoriesAgree(ws, prefix, now);
    hide Agree, Rebuilt, Found, IndexAfter, DataAfter, WriteHistory;
    AgreementIsReadable(IndexAfter(ws), DataAfter(ws), prefix, now);
    if Rebuilt(loaded, DataAfter(ws), prefix, now) {
      ReloadFindsTheSame(IndexAfter(ws), DataAfter(ws), prefix, loaded, now, query, k, filters);
    }
  }

  /** Filtering the live records first changes nothing: a match is live. */
  lemma {:induction false} FilterTwice(rs: seq<Record>, filters: Filters, now: real)
    ensures Filter(Filter(rs, LiveTest(now)), MatchTest(filters, now)) == Filter(rs, MatchTest(filters, now))
  {
    if rs != [] {
      var front, x := rs[..|rs| - 1], rs[|rs| - 1];
      FilterTwice(front, filters, now);
      if Live(x.expires, now) {
        FilterSnoc(Filter(front, LiveTest(now)), x, MatchTest(filters, now));
      }
    }
  }

  lemma SameRanking(a: seq<Hit>, b: seq<Hit>, k: nat)
    requires multiset(a) == multiset(b)
    ensures Scores(Take(Sort(a, BySimilarity()), k)) == Scores(Take(Sort(b, BySimilarity()), k))
  {
    var sa, sb := Sort(a, BySimilarity()), Sort(b, BySimilarity());
    SortMembers(a, BySimilarity());
    SortMembers(b, BySimilarity());
    SortedScoresDescend(a);
    SortedScoresDescend(b);
    hide Sort, BySimilarity;
    SameScores(sa, sb);
    SortedIsUnique(Scores(sa), Scores(sb), (x: real, y: real) => x >= y);
    TakeScores(sa, k);
    TakeScores(sb, k);
  }

  lemma TakeScores(hits: seq<Hit>, k: nat)
    ensures Scores(Take(hits, k)) == Take(Scores(hits), k)
  {
  }
}
