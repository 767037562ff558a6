/** The structural quality check of an answer, and how it relates to the cache's own gate. */
module QualityGate {
  import opened Wrappers
  import opened Text
  import opened Phrases
  import Cache = SemanticCache

  const MIN_WORDS: map<string, nat> := map[
    "code" := 30, "reasoning" := 40, "math" := 20, "data_analysis" := 30, "document_review" := 30,
    "structured_extraction" := 10, "tool_use" := 20, "instruction_following" := 10]

  /** Reject, accept, or leave it to the embedding-based check. */
  datatype Verdict = Bad | Good | Unsure

  /** An answer as the check sees it. `threshold` is the tier's, none at the frontier; `isJson` is the JSON parser. */
  datatype Answer = Answer(
    text: string, finishReason: Option<string>, taskType: string, threshold: Option<real>, requiresJson: bool,
    isJson: string -> bool)
  {
    predicate Empty() { Strip(text) == "" }

    predicate IsToolCall() { finishReason == Some("tool_calls") }

    predicate Truncated() { finishReason == Some("length") }

    predicate TooShort() { taskType in MIN_WORDS && WordCount(Strip(Lower(text))) < MIN_WORDS[taskType] }

    /** What disqualifies an answer below the frontier; JSON is only parsed, prose only read. */
    predicate Unfit() {
      Truncated() || (if requiresJson then !isJson(text) else Hedges(Strip(Lower(text))) || TooShort())
    }
  }

  /** The check, in its order of tests: an empty answer is rejected everywhere unless it is a tool call; the frontier
      accepts everything else, truncated or not; below it an empty tool call is accepted, an unfit answer rejected, and
      the rest left open. */
  method CheckStructure(a: Answer) returns (v: Verdict)
    ensures Strip(a.text) == "" ==> (v.Bad? <==> a.finishReason != Some("tool_calls"))
    ensures Strip(a.text) != "" ==>
      (v.Bad? <==>
        && a.threshold.Some?
        && (|| a.finishReason == Some("length") || (a.requiresJson && !a.isJson(a.text))
            || (!a.requiresJson && Hedges(Strip(Lower(a.text))))
            || (!a.requiresJson && a.taskType in MIN_WORDS && WordCount(Strip(Lower(a.text))) < MIN_WORDS[a.taskType])))
    ensures v.Good? <==> if Strip(a.text) == "" then a.finishReason == Some("tool_calls") else a.threshold.None?
  {
    hide Strip, Lower, WordCount, Contains;
    var lower := Strip(Lower(a.text));
    EmptyAlike(a.text);
    if lower == "" && !a.IsToolCall() {
      return Bad;
    }
    if a.threshold.None? {
      return Good;
    }
    if a.Truncated() {
      return Bad;
    }
    if lower == "" {
      return Good;
    }
    if !a.requiresJson {
      var opening := if |lower| <= HEAD_LENGTH then lower else lower[..HEAD_LENGTH];
      for n := 0 to |HEDGING_PATTERNS|
        invariant forall k :: 0 <= k < n ==> !Contains(opening, HEDGING_PATTERNS[k])
      {
        if Contains(opening, HEDGING_PATTERNS[n]) {
          return Bad;
        }
      }
      if a.taskType in MIN_WORDS && WordCount(lower) < MIN_WORDS[a.taskType] {
        return Bad;
      }
      return Unsure;
    }
    if !a.isJson(a.text) {
      return Bad;
    }
    v := Unsure;
  }

  const SUBSTANTIAL_WORDS: nat := 100

  /** Below the frontier: an empty tool call, or an answer that is fit and, if it is short and the question's vector is
      known, similar enough to the question. */
  predicate Passes(a: Answer, similarity: Option<real>)
    requires a.threshold.Some?
  {
    if a.Empty() then a.IsToolCall()
    else !a.Unfit() && (similarity.None? || WordCount(a.text) >= SUBSTANTIAL_WORDS || similarity.value >= a.threshold.value)
  }

  /** The low-mode check; `similarity` is none without the question's vector. The frontier passes everything, the empty
      answer included, which the structural check alone would reject. Only a similarity can make the score negative. */
  method CheckLow(a: Answer, similarity: Option<real>) returns (passed: bool, score: real)
    ensures a.threshold.None? ==> passed && score == 1.0
    ensures a.threshold.Some? ==> (passed <==> Passes(a, similarity))
    ensures score < 0.0 ==> similarity == Some(score) && a.threshold.Some? && (passed <==> score >= a.threshold.value)
  {
    hide Strip, WordCount;
    if a.threshold.None? {
      return true, 1.0;
    }
    var structural := CheckStructure(a);
    if !structural.Unsure? {
      return structural.Good?, if structural.Good? then 1.0 else 0.0;
    }
    if similarity.None? {
      return true, 1.0;
    }
    if WordCount(a.text) >= SUBSTANTIAL_WORDS {
      return true, 0.8;
    }
    return similarity.value >= a.threshold.value, similarity.value;
  }

  lemma EmptyAlike(text: string)
    ensures Strip(Lower(text)) == "" <==> Strip(text) == ""
  {
    StripLower(text);
  }

  /** Below the frontier an answer that the structural check lets through is written to the cache exactly when it is
      complete, long enough, free of error phrases and of a cacheable task; hedging decides only for a JSON answer, which
      the check does not read as prose. At the frontier, where everything passes, the cache still refuses hedging. */
  lemma GateAfterCheck(a: Answer, allow: bool)
    requires !a.Empty()
    ensures a.threshold.Some? && !a.Unfit() ==>
      (Cache.IsCacheable(a.text, a.finishReason, a.taskType, allow) <==>
       && (a.taskType in Cache.UNCACHEABLE_TASKS ==> allow) && a.finishReason == Some("stop")
       && |Strip(a.text)| >= Cache.MIN_CACHEABLE_LENGTH && !ReportsError(Strip(Lower(a.text)))
       && (a.requiresJson ==> !Hedges(Strip(Lower(a.text)))))
    ensures Hedges(Strip(Lower(a.text))) ==> !Cache.IsCacheable(a.text, a.finishReason, a.taskType, allow)
  {
    hide Strip, Lower, WordCount, Hedges, ReportsError;
    StripLower(a.text);
  }
}
