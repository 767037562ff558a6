/** The phrases that mark a refusal or an error, and where they are looked for. */
module Phrases {
  import opened Text

  const HEAD_LENGTH: nat := 200

  const HEDGING_PATTERNS: seq<string> := [
    "i'm not sure", "i am not sure", "i don't know", "i do not know", "i cannot", "i can't", "i'm unable to",
    "i am unable to", "i don't have access", "i do not have access", "as an ai language model", "as an ai,",
    "as an ai assistant", "i'm just an ai", "i was not able to", "i wasn't able to"]

  const ERROR_PATTERNS: seq<string> := [
    "rate limit exceeded", "rate_limit_exceeded", "internal server error", "service unavailable", "bad gateway",
    "gateway timeout", "too many requests", "quota exceeded", "model is overloaded", "request timed out",
    "connection refused", "upstream error"]

  predicate Mentions(text: string, patterns: seq<string>) {
    exists i :: 0 <= i < |patterns| && Contains(text, patterns[i])
  }

  predicate Hedges(lower: string) {
    Mentions(if |lower| <= HEAD_LENGTH then lower else lower[..HEAD_LENGTH], HEDGING_PATTERNS)
  }

  predicate ReportsError(lower: string) { Mentions(lower, ERROR_PATTERNS) }

  /** The text has `p` at position `i`. */
  predicate OccursAt(s: string, p: string, i: nat) { i + |p| <= |s| && s[i..i + |p|] == p }

  lemma ContainsIsOccurs(s: string, p: string)
    ensures Contains(s, p) <==> exists i: nat :: OccursAt(s, p, i)
  {
    if Contains(s, p) {
      var i :| 0 <= i <= |s| && p <= s[i..];
      assert p == s[i..][..|p|] == s[i..i + |p|];
      assert OccursAt(s, p, i);
    }
    if i: nat :| OccursAt(s, p, i) {
      assert s[i..][..|p|] == s[i..i + |p|];
      assert p <= s[i..];
    }
  }

  ghost predicate HedgeAt(lower: string, n: nat, i: nat)
    requires n < |HEDGING_PATTERNS|
  {
    i + |HEDGING_PATTERNS[n]| <= HEAD_LENGTH && OccursAt(lower, HEDGING_PATTERNS[n], i)
  }

  /** A text hedges exactly when some hedging phrase lies wholly within its first 200 characters. */
  lemma HedgesWithinTheHead(lower: string)
    ensures Hedges(lower) <==> exists n: nat, i: nat :: n < |HEDGING_PATTERNS| && HedgeAt(lower, n, i)
  {
    var head := if |lower| <= HEAD_LENGTH then lower else lower[..HEAD_LENGTH];
    forall n: nat | n < |HEDGING_PATTERNS|
      ensures Contains(head, HEDGING_PATTERNS[n]) <==> exists i: nat :: HedgeAt(lower, n, i)
    {
      PhraseInHead(lower, head, n);
    }
  }

  lemma PhraseInHead(lower: string, head: string, n: nat)
    requires head == if |lower| <= HEAD_LENGTH then lower else lower[..HEAD_LENGTH]
    requires n < |HEDGING_PATTERNS|
    ensures Contains(head, HEDGING_PATTERNS[n]) <==> exists i: nat :: HedgeAt(lower, n, i)
  {
    var p := HEDGING_PATTERNS[n];
    hide Contains;
    ContainsIsOccurs(head, p);
    if i: nat :| OccursAt(head, p, i) {
      assert head[i..i + |p|] == lower[i..i + |p|];
      assert HedgeAt(lower, n, i);
    }
    if i: nat :| HedgeAt(lower, n, i) {
      assert head[i..i + |p|] == lower[i..i + |p|];
      assert OccursAt(head, p, i);
    }
  }
}
