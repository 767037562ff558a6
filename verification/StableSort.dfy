/** Python's sort: stable, by a total preorder. `le(a, b)` says that `a` may stand before `b`. */
module StableSort {
  import opened Sequences

  ghost predicate TotalPreorder<T(!new)>(le: (T, T) -> bool) {
    && (forall a, b :: le(a, b) || le(b, a))
    && (forall a, b, c :: le(a, b) && le(b, c) ==> le(a, c))
  }

  ghost predicate SortedBy<T>(s: seq<T>, le: (T, T) -> bool) {
    forall i, j :: 0 <= i < j < |s| ==> le(s[i], s[j])
  }

  /** Put `x` behind everything that may stand before it. */
  function Insert<T>(s: seq<T>, x: T, le: (T, T) -> bool): (r: seq<T>)
    ensures |r| == |s| + 1
  {
    if s == [] || le(s[|s| - 1], x) then s + [x] else Insert(s[..|s| - 1], x, le) + [s[|s| - 1]]
  }

  function Sort<T>(s: seq<T>, le: (T, T) -> bool): (r: seq<T>)
    ensures |r| == |s|
  {
    if s == [] then [] else Insert(Sort(s[..|s| - 1], le), s[|s| - 1], le)
  }

  /** Everything that stands level with `v`. */
  function LevelWith<T>(v: T, le: (T, T) -> bool): T -> bool {
    x => le(x, v) && le(v, x)
  }

  lemma {:induction false} InsertMembers<T>(s: seq<T>, x: T, le: (T, T) -> bool)
    ensures multiset(Insert(s, x, le)) == multiset(s) + multiset{x}
  {
    if s != [] && !le(s[|s| - 1], x) {
      InsertMembers(s[..|s| - 1], x, le);
      assert s == s[..|s| - 1] + [s[|s| - 1]];
    }
  }

  lemma {:induction false} InsertSorted<T(!new)>(s: seq<T>, x: T, le: (T, T) -> bool)
    requires TotalPreorder(le) && SortedBy(s, le)
    ensures SortedBy(Insert(s, x, le), le)
  {
    if s == [] {
    } else if le(s[|s| - 1], x) {
      forall i | 0 <= i < |s| ensures le(s[i], x) {
        if i < |s| - 1 {
          assert le(s[i], s[|s| - 1]);
        }
      }
    } else {
      var front, last := s[..|s| - 1], s[|s| - 1];
      InsertSorted(front, x, le);
      InsertMembers(front, x, le);
      var r := Insert(front, x, le);
      forall i | 0 <= i < |r| ensures le(r[i], last) {
        assert r[i] in multiset(r);
        assert r[i] in front || r[i] == x;
        if r[i] in front {
          var k :| 0 <= k < |front| && front[k] == r[i];
          assert s[k] == front[k];
        }
      }
    }
  }

  lemma {:induction false} InsertStable<T(!new)>(s: seq<T>, x: T, v: T, le: (T, T) -> bool)
    requires TotalPreorder(le)
    ensures Filter(Insert(s, x, le), LevelWith(v, le)) == Filter(s + [x], LevelWith(v, le))
  {
    var p := LevelWith(v, le);
    if s != [] && !le(s[|s| - 1], x) {
      var front, last := s[..|s| - 1], s[|s| - 1];
      InsertStable(front, x, v, le);
      FilterSnoc(Insert(front, x, le), last, p);
      FilterSnoc(front, x, p);
      FilterSnoc(front, last, p);
      FilterSnoc(s, x, p);
      assert s == front + [last];
      // the two cannot both be level with v, so their order among the level ones does not matter
      assert !(p(x) && p(last));
    }
  }

  /** Sorting only rearranges. */
  lemma {:induction false} SortMembers<T>(s: seq<T>, le: (T, T) -> bool)
    ensures multiset(Sort(s, le)) == multiset(s)
  {
    if s != [] {
      var front, last := s[..|s| - 1], s[|s| - 1];
      SortMembers(front, le);
      InsertMembers(Sort(front, le), last, le);
      assert s == front + [last];
    }
  }

  /** Sorting rearranges, orders, and keeps the given order among elements that stand level. */
  lemma {:induction false} SortCorrect<T(!new)>(s: seq<T>, le: (T, T) -> bool)
    requires TotalPreorder(le)
    ensures multiset(Sort(s, le)) == multiset(s)
    ensures SortedBy(Sort(s, le), le)
    ensures forall v :: Filter(Sort(s, le), LevelWith(v, le)) == Filter(s, LevelWith(v, le))
  {
    if s != [] {
      var front, last := s[..|s| - 1], s[|s| - 1];
      SortCorrect(front, le);
      InsertMembers(Sort(front, le), last, le);
      InsertSorted(Sort(front, le), last, le);
      assert s == front + [last];
      forall v ensures Filter(Sort(s, le), LevelWith(v, le)) == Filter(s, LevelWith(v, le)) {
        InsertStable(Sort(front, le), last, v, le);
        FilterSnoc(Sort(front, le), last, LevelWith(v, le));
        FilterSnoc(front, last, LevelWith(v, le));
      }
    }
  }

  lemma SameElements<T>(s: seq<T>, t: seq<T>)
    requires multiset(s) == multiset(t)
    ensures |s| == |t| && forall x :: x in s <==> x in t
  {
    assert |s| == |multiset(s)| && |t| == |multiset(t)|;
    forall x ensures x in s <==> x in t {
      assert x in s <==> x in multiset(s);
      assert x in t <==> x in multiset(t);
    }
  }

  /** A rearrangement of a duplicate-free sequence is duplicate-free. */
  lemma SameNoDup<T>(s: seq<T>, t: seq<T>)
    requires multiset(s) == multiset(t) && NoDup(s)
    ensures NoDup(t)
  {
    forall i, j | 0 <= i < j < |t| ensures t[i] != t[j] {
      if t[i] == t[j] {
        assert t == t[..i] + [t[i]] + t[i + 1..j] + [t[j]] + t[j + 1..];
        assert multiset(t)[t[i]] >= 2;
        NoDupOnce(s, t[i]);
      }
    }
  }

  lemma {:induction false} NoDupOnce<T>(s: seq<T>, x: T)
    requires NoDup(s)
    ensures multiset(s)[x] <= 1
  {
    if s != [] {
      var front, last := s[..|s| - 1], s[|s| - 1];
      NoDupOnce(front, x);
      assert s == front + [last];
      assert last !in front;
      assert multiset(front)[last] == 0;
    }
  }

  /** The head of a sorted sequence is the first element of the original that may stand before all others. */
  lemma SortHeadIsFirstBest<T(!new)>(s: seq<T>, le: (T, T) -> bool, k: nat)
    requires TotalPreorder(le) && k < |s|
    requires forall j :: 0 <= j < |s| ==> le(s[k], s[j])
    requires forall j :: 0 <= j < k ==> !le(s[j], s[k])
    ensures Sort(s, le)[0] == s[k]
  {
    var r, p := Sort(s, le), LevelWith(s[k], le);
    SortCorrect(s, le);
    SameElements(r, s);
    assert p(r[0]) by {
      assert s[k] in r;
      var i :| 0 <= i < |r| && r[i] == s[k];
      assert r[0] in s;
      var j :| 0 <= j < |s| && s[j] == r[0];
      assert i == 0 || le(r[0], r[i]);
    }
    FilterFirst(r, p, 0);
    FilterFirst(s, p, k);
  }

  lemma {:induction false} FilterFirst<T(!new)>(s: seq<T>, p: T -> bool, k: nat)
    requires k < |s| && p(s[k]) && forall j :: 0 <= j < k ==> !p(s[j])
    ensures Filter(s, p) != [] && Filter(s, p)[0] == s[k]
  {
    var front := s[..|s| - 1];
    if k < |s| - 1 {
      FilterFirst(front, p, k);
    } else {
      FilterNone(front, p);
    }
  }

  /** A sequence without one of its elements. */
  function Without<T>(s: seq<T>, i: nat): (r: seq<T>)
    requires i < |s|
    ensures |r| == |s| - 1
    ensures multiset(r) == multiset(s) - multiset{s[i]}
  {
    assert s == s[..i] + [s[i]] + s[i + 1..];
    s[..i] + s[i + 1..]
  }

  lemma Occurs<T>(x: T, s: seq<T>, t: seq<T>) returns (i: nat)
    requires multiset(s) == multiset(t) && x in s
    ensures |s| == |t| && i < |t| && t[i] == x
  {
    assert |s| == |multiset(s)| && |t| == |multiset(t)|;
    assert x in multiset(t);
    i :| 0 <= i < |t| && t[i] == x;
  }

  /** Two sorted sequences of the same elements are one sequence, if no two elements stand level. */
  lemma {:induction false} SortedIsUnique<T(!new)>(a: seq<T>, b: seq<T>, le: (T, T) -> bool)
    requires forall x, y :: le(x, y) && le(y, x) ==> x == y
    requires SortedBy(a, le) && SortedBy(b, le) && multiset(a) == multiset(b)
    ensures a == b
  {
    assert |a| == |multiset(a)| && |b| == |multiset(b)|;
    if a != [] {
      var n := |a| - 1;
      SameLast(a, b, le);
      SameFront(a, b);
      SortedIsUnique(a[..n], b[..n], le);
      assert a == a[..n] + [a[n]] && b == b[..n] + [b[n]];
    }
  }

  lemma SameLast<T(!new)>(a: seq<T>, b: seq<T>, le: (T, T) -> bool)
    requires forall x, y :: le(x, y) && le(y, x) ==> x == y
    requires SortedBy(a, le) && SortedBy(b, le) && multiset(a) == multiset(b) && a != []
    ensures |a| == |b| && a[|a| - 1] == b[|b| - 1]
  {
    var n := |a| - 1;
    var i := Occurs(a[n], a, b);
    var j := Occurs(b[n], b, a);
    assert i == n || le(b[i], b[n]);
    assert j == n || le(a[j], a[n]);
  }

  lemma SameFront<T>(a: seq<T>, b: seq<T>)
    requires multiset(a) == multiset(b) && a != [] && |a| == |b| && a[|a| - 1] == b[|b| - 1]
    ensures multiset(a[..|a| - 1]) == multiset(b[..|b| - 1])
  {
    assert Without(a, |a| - 1) == a[..|a| - 1] && Without(b, |b| - 1) == b[..|b| - 1];
  }
}
