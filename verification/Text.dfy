/** The string operations the components use: strip, case mapping, substring search and join, over ASCII. */
module Text {

  predicate IsSpace(c: char) { c == ' ' || '\t' <= c <= '\r' || '\U{1C}' <= c <= '\U{1F}' }

  function LStrip(s: string): (r: string)
    ensures |r| <= |s|
  {
    if s != [] && IsSpace(s[0]) then LStrip(s[1..]) else s
  }

  function RStrip(s: string): (r: string)
    ensures |r| <= |s|
  {
    if s != [] && IsSpace(s[|s| - 1]) then RStrip(s[..|s| - 1]) else s
  }

  function Strip(s: string): (r: string)
    ensures |r| <= |s|
  {
    RStrip(LStrip(s))
  }

  function UpperChar(c: char): char { if 'a' <= c <= 'z' then c - 'a' + 'A' else c }

  function LowerChar(c: char): char { if 'A' <= c <= 'Z' then c - 'A' + 'a' else c }

  function Upper(s: string): string { seq(|s|, i requires 0 <= i < |s| => UpperChar(s[i])) }

  function Lower(s: string): string { seq(|s|, i requires 0 <= i < |s| => LowerChar(s[i])) }

  predicate Contains(s: string, p: string) {
    exists i :: 0 <= i <= |s| && p <= s[i..]
  }

  function Join(sep: string, parts: seq<string>): string {
    if parts == [] then "" else if |parts| == 1 then parts[0] else parts[0] + sep + Join(sep, parts[1..])
  }

  // ---------------------------------------------------------------------------
  // Stripping
  // ---------------------------------------------------------------------------

  lemma {:induction false} LStripSnoc(s: string, c: char)
    requires IsSpace(c)
    ensures LStrip(s + [c]) == if LStrip(s) == [] then [] else LStrip(s) + [c]
  {
    if s == [] {
      assert LStrip([c]) == LStrip([c][1..]);
    } else if IsSpace(s[0]) {
      LStripSnoc(s[1..], c);
      assert (s + [c])[1..] == s[1..] + [c];
    }
  }

  /** White space around a text does not survive stripping. */
  lemma StripPadding(s: string, c: char, d: char)
    requires IsSpace(c) && IsSpace(d)
    ensures Strip([c] + s) == Strip(s) && Strip([c] + s + [d]) == Strip(s)
  {
    assert ([c] + s)[1..] == s;
    assert [c] + s + [d] == [c] + (s + [d]) && ([c] + (s + [d]))[1..] == s + [d];
    LStripSnoc(s, d);
    var t := LStrip(s);
    if t != [] {
      assert (t + [d])[..|t + [d]| - 1] == t;
    }
  }

  lemma {:induction false} LStripLower(s: string)
    ensures LStrip(Lower(s)) == Lower(LStrip(s))
  {
    if s != [] {
      assert IsSpace(LowerChar(s[0])) <==> IsSpace(s[0]);
      if IsSpace(s[0]) {
        LStripLower(s[1..]);
        assert Lower(s)[1..] == Lower(s[1..]);
      }
    }
  }

  lemma {:induction false} RStripLower(s: string)
    ensures RStrip(Lower(s)) == Lower(RStrip(s))
  {
    if s != [] {
      var n := |s| - 1;
      assert IsSpace(LowerChar(s[n])) <==> IsSpace(s[n]);
      if IsSpace(s[n]) {
        RStripLower(s[..n]);
        assert Lower(s)[..n] == Lower(s[..n]);
      }
    }
  }

  /** Lowering and stripping commute. */
  lemma StripLower(s: string)
    ensures Strip(Lower(s)) == Lower(Strip(s))
  {
    LStripLower(s);
    RStripLower(LStrip(s));
  }

  /** The number of words: the positions where a run of other characters than white space begins. */
  function WordCount(s: string): nat {
    if s == [] then 0 else
    var n := |s| - 1;
    WordCount(s[..n]) + if !IsSpace(s[n]) && (n == 0 || IsSpace(s[n - 1])) then 1 else 0
  }

  lemma WordsSnoc(s: string, c: char)
    ensures WordCount(s + [c])
      == WordCount(s) + if !IsSpace(c) && (s == [] || IsSpace(s[|s| - 1])) then 1 else 0
  {
    hide IsSpace;
    var t, n := s + [c], |s|;
    assert t[..n] == s && t[n] == c;
    assert n > 0 ==> t[n - 1] == s[n - 1];
  }

  /** The words of two texts with white space between them are those of both. */
  lemma {:induction false} WordsAdd(s: string, c: char, t: string)
    requires IsSpace(c)
    ensures WordCount(s + [c] + t) == WordCount(s) + WordCount(t)
  {
    hide WordCount, IsSpace;
    if t == [] {
      assert s + [c] + t == s + [c];
      WordsSnoc(s, c);
      NoWords();
    } else {
      var front, d := t[..|t| - 1], t[|t| - 1];
      WordsAdd(s, c, front);
      assert t == front + [d] && s + [c] + t == (s + [c] + front) + [d];
      WordsSnoc(s + [c] + front, d);
      WordsSnoc(front, d);
    }
  }

  lemma NoWords()
    ensures WordCount([]) == 0
  {
  }

  /** A text without white space is one word, or none if it is empty. */
  lemma {:induction false} OneWord(s: string)
    requires forall i :: 0 <= i < |s| ==> !IsSpace(s[i])
    ensures WordCount(s) == if s == [] then 0 else 1
  {
    if s != [] {
      OneWord(s[..|s| - 1]);
    }
  }

  /** The case mappings change letters only, leave none of the other case, and lose nothing but the case. */
  lemma CaseMappings(s: string)
    ensures |Upper(s)| == |Lower(s)| == |s|
    ensures forall i :: 0 <= i < |s| ==> !('a' <= Upper(s)[i] <= 'z') && !('A' <= Lower(s)[i] <= 'Z')
    ensures forall i :: 0 <= i < |s| && !('a' <= s[i] <= 'z') ==> Upper(s)[i] == s[i]
    ensures forall i :: 0 <= i < |s| && !('A' <= s[i] <= 'Z') ==> Lower(s)[i] == s[i]
    ensures Lower(Upper(s)) == Lower(s) && Upper(Lower(s)) == Upper(s)
  {
  }

  // ---------------------------------------------------------------------------
  // Joined texts
  // ---------------------------------------------------------------------------

  predicate Free(s: string, c: char) { forall i :: 0 <= i < |s| ==> s[i] != c }

  /** Two texts that agree up to their first separator agree before and after it. */
  lemma CutUnique(x: string, y: string, r: string, t: string, sep: char)
    requires Free(x, sep) && Free(y, sep)
    requires (r == [] || r[0] == sep) && (t == [] || t[0] == sep)
    requires x + r == y + t
    ensures x == y && r == t
  {
    var z := x + r;
    assert |x| == |y| by {
      assert forall k :: 0 <= k < |x| ==> z[k] == x[k];
      assert forall k :: 0 <= k < |y| ==> z[k] == y[k];
      assert |x| < |z| ==> z[|x|] == r[0];
      assert |y| < |z| ==> z[|y|] == t[0];
    }
    assert x == (x + r)[..|x|] && y == (y + t)[..|y|];
    assert r == (x + r)[|x|..] && t == (y + t)[|y|..];
  }

  /** What follows the first part of a joined text. */
  function AfterFirst(sep: char, parts: seq<string>): string
    requires parts != []
  {
    if |parts| == 1 then [] else [sep] + Join([sep], parts[1..])
  }

  /** Parts without the separator can be read off a joined text. */
  lemma {:induction false} JoinInjective(a: seq<string>, b: seq<string>, sep: char)
    requires a != [] && b != []
    requires (forall i :: 0 <= i < |a| ==> Free(a[i], sep)) && (forall i :: 0 <= i < |b| ==> Free(b[i], sep))
    requires Join([sep], a) == Join([sep], b)
    ensures a == b
  {
    assert Join([sep], a) == a[0] + AfterFirst(sep, a) by {
      if |a| > 1 {
        assert a[0] + [sep] + Join([sep], a[1..]) == a[0] + ([sep] + Join([sep], a[1..]));
      }
    }
    assert Join([sep], b) == b[0] + AfterFirst(sep, b) by {
      if |b| > 1 {
        assert b[0] + [sep] + Join([sep], b[1..]) == b[0] + ([sep] + Join([sep], b[1..]));
      }
    }
    CutUnique(a[0], b[0], AfterFirst(sep, a), AfterFirst(sep, b), sep);
    if |a| == 1 {
      assert a == [a[0]] && b == [b[0]];
    } else {
      assert Join([sep], a[1..]) == AfterFirst(sep, a)[1..];
      assert Join([sep], b[1..]) == AfterFirst(sep, b)[1..];
      JoinInjective(a[1..], b[1..], sep);
      assert a == [a[0]] + a[1..] && b == [b[0]] + b[1..];
    }
  }

  // ---------------------------------------------------------------------------
  // The order of strings
  // ---------------------------------------------------------------------------

  /** Python's order of strings. */
  predicate LexLe(a: string, b: string) {
    a == [] || (b != [] && (a[0] < b[0] || (a[0] == b[0] && LexLe(a[1..], b[1..]))))
  }

  lemma {:induction false} LexTotal(a: string, b: string)
    ensures LexLe(a, b) || LexLe(b, a)
    ensures LexLe(a, b) && LexLe(b, a) ==> a == b
  {
    if a != [] && b != [] && a[0] == b[0] {
      LexTotal(a[1..], b[1..]);
      assert a == [a[0]] + a[1..] && b == [b[0]] + b[1..];
    }
  }

  lemma {:induction false} LexTransitive(a: string, b: string, c: string)
    requires LexLe(a, b) && LexLe(b, c)
    ensures LexLe(a, c)
  {
    if a != [] && a[0] == b[0] && b[0] == c[0] {
      LexTransitive(a[1..], b[1..], c[1..]);
    }
  }
}
