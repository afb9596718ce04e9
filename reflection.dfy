/**
 * Heuristic self-reflection on an answer: completeness from its length,
 * relevance from the share of query words it repeats, a fixed accuracy, and
 * a weighted quality score that decides whether improvement is suggested.
 * Python floats are modelled as exact reals.
 */
module Reflection {
  import opened Wrappers
  import opened PyStr
  import opened Verifier

  datatype Assessment = Assessment(
    qualityScore: real,
    completeness: real,
    accuracy: real,
    relevance: real,
    needsImprovement: bool,
    suggestions: seq<string>)

  const TooShort: string := "Answer is too short"
  const ImproveQuality: string := "Consider improving answer quality"

  /** `set(s.lower().split())`. */
  function WordSet(s: string): set<string>
  {
    set w | w in Words(Lower(s))
  }

  /** The share of distinct query words found among the answer's words, or 0.8 for a query without words. */
  function Relevance(answer: string, query: string): real
  {
    var q := WordSet(query);
    if |q| > 0 then (|q * WordSet(answer)| as real) / (|q| as real) else 0.8
  }

  /** The assessment `assess_quality` builds, as one value. */
  function Assess(answer: string, query: string): Assessment
  {
    var short := |answer| < 50;
    var completeness := if short then 0.5 else 0.8;
    var relevance := Relevance(answer, query);
    var quality := completeness * 0.3 + 0.8 * 0.3 + relevance * 0.4;
    Assessment(quality, completeness, 0.8, relevance, short || quality < 0.6,
               (if short then [TooShort] else []) + (if quality < 0.6 then [ImproveQuality] else []))
  }

  /**
   * `assess_quality`: the defaults are overwritten step by step; the
   * sources are accepted but not used.
   */
  method AssessQuality(answer: string, query: string, sources: Option<seq<string>>) returns (a: Assessment)
    ensures a == Assess(answer, query)
  {
    hide WordSet;
    a := Assessment(0.8, 0.8, 0.8, 0.8, false, []);
    if |answer| < 50 {
      a := a.(completeness := 0.5, needsImprovement := true, suggestions := a.suggestions + [TooShort]);
    }
    var queryKeywords := WordSet(query);
    var answerKeywords := WordSet(answer);
    var overlap := |queryKeywords * answerKeywords|;
    if |queryKeywords| > 0 {
      a := a.(relevance := (overlap as real) / (|queryKeywords| as real));
    }
    a := a.(qualityScore := a.completeness * 0.3 + a.accuracy * 0.3 + a.relevance * 0.4);
    if a.qualityScore < 0.6 {
      a := a.(needsImprovement := true, suggestions := a.suggestions + [ImproveQuality]);
    }
  }

  /** `reflect_with_llm` delegates to the heuristic assessment. */
  method ReflectWithLlm(answer: string, query: string, provider: string) returns (a: Assessment)
    ensures a == Assess(answer, query)
  {
    a := AssessQuality(answer, query, None);
  }

  /** Relevance lies in [0, 1]; it is 1 when the answer has every query word and 0 when it has none. */
  lemma RelevanceBounds(answer: string, query: string)
    ensures 0.0 <= Relevance(answer, query) <= 1.0
    ensures WordSet(query) == {} ==> Relevance(answer, query) == 0.8
    ensures WordSet(query) != {} && WordSet(query) <= WordSet(answer) ==> Relevance(answer, query) == 1.0
    ensures WordSet(query) != {} && WordSet(query) !! WordSet(answer) ==> Relevance(answer, query) == 0.0
  {
    var q := WordSet(query);
    if |q| > 0 {
      ShareBounds(q, WordSet(answer));
    }
  }

  /**
   * The assessment's fields: accuracy is always 0.8; completeness is 0.5 for
   * an answer under 50 characters and 0.8 otherwise; the quality score is
   * the 0.3/0.3/0.4 weighting and lies in [0.39, 0.88]; improvement is
   * flagged exactly when the answer is short or the score is below 0.6, each
   * reason adding its own suggestion in that order.
   */
  lemma AssessFields(answer: string, query: string)
    ensures var a := Assess(answer, query);
      a.accuracy == 0.8
      && a.completeness == (if |answer| < 50 then 0.5 else 0.8)
      && a.relevance == Relevance(answer, query)
      && a.qualityScore == 0.3 * a.completeness + 0.3 * a.accuracy + 0.4 * a.relevance
      && 0.39 <= a.qualityScore <= 0.88
      && (a.needsImprovement <==> |answer| < 50 || a.qualityScore < 0.6)
      && (|answer| < 50 ==> a.suggestions[0] == TooShort)
      && (TooShort in a.suggestions <==> |answer| < 50)
      && (ImproveQuality in a.suggestions <==> a.qualityScore < 0.6)
      && |a.suggestions| <= 2
  {
    RelevanceBounds(answer, query);
  }

  /** For an answer of 50 characters or more, improvement is flagged exactly when relevance is below 0.3. */
  lemma LongAnswerThreshold(answer: string, query: string)
    requires |answer| >= 50
    ensures Assess(answer, query).needsImprovement <==> Relevance(answer, query) < 0.3
  {
  }

  /** For a short answer, the quality suggestion is added exactly when relevance is below 0.525. */
  lemma ShortAnswerThreshold(answer: string, query: string)
    requires |answer| < 50
    ensures Assess(answer, query).needsImprovement
    ensures ImproveQuality in Assess(answer, query).suggestions <==> Relevance(answer, query) < 0.525
  {
  }

  /** A long answer to a query without words scores 0.8 and needs no improvement. */
  lemma WordlessQueryLongAnswer(answer: string)
    requires |answer| >= 50
    ensures Assess(answer, "").qualityScore == 0.8
    ensures !Assess(answer, "").needsImprovement && Assess(answer, "").suggestions == []
  {
    hide WordSet;
    WordlessEmpty();
  }

  lemma WordlessEmpty()
    ensures WordSet("") == {}
  {
    hide Lower;
    assert Lower("") == [];
    assert Words([]) == [];
  }
}
