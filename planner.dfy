/**
 * Heuristic query planning: a plan always starts with retrieval and ends
 * with synthesis; keyword tests add a web search, a calculator step and a
 * decomposition step in between. Queries with several questions can be
 * split into sub-queries at their question marks.
 */
module Planner {
  import opened Wrappers
  import opened PyStr

  datatype StepKind = Retrieval | WebSearch | Calculator | Decompose | Synthesis

  datatype Step = Step(kind: StepKind, query: Option<string>, reason: string)

  datatype Plan = Plan(
    originalQuery: string,
    steps: seq<Step>,
    requiresRetrieval: bool,
    requiresTools: bool,
    estimatedComplexity: string)

  const WebKeywords: seq<string> := ["current", "recent", "latest", "today", "now", "2024", "2025"]
  const CalcKeywords: seq<string> := ["calculate", "compute", "math", "equation", "+", "-", "*", "/"]

  /** `any(keyword in s for keyword in keywords)`. */
  predicate AnyKeyword(keywords: seq<string>, s: string)
  {
    exists k :: 0 <= k < |keywords| && Has(s, keywords[k])
  }

  predicate NeedsWeb(query: string)
  {
    AnyKeyword(WebKeywords, Lower(query))
  }

  predicate NeedsCalc(query: string)
  {
    AnyKeyword(CalcKeywords, Lower(query))
  }

  /** `"?" in query and query.count("?") > 1`. */
  predicate ManyQuestions(query: string)
  {
    Has(query, "?") && Count(query, "?") > 1
  }

  function Kinds(steps: seq<Step>): (r: seq<StepKind>)
    ensures |r| == |steps|
    ensures forall k :: 0 <= k < |steps| ==> r[k] == steps[k].kind
  {
    if steps == [] then [] else [steps[0].kind] + Kinds(steps[1..])
  }

  /** The reasons the steps are given. */
  const RetrievalReason: string := "Retrieve relevant context from knowledge base"
  const WebReason: string := "Query requires current/recent information"
  const CalcReason: string := "Query involves mathematical calculation"
  const DecomposeReason: string := "Multiple questions detected"
  const SynthesisReason: string := "Combine retrieved information and tool results"

  function RetrievalStep(query: string): Step
  {
    Step(Retrieval, Some(query), RetrievalReason)
  }

  const SynthesisStep: Step := Step(Synthesis, None, SynthesisReason)

  /** The step kind `kind` when `cond` holds, else nothing. */
  function If(cond: bool, kind: StepKind): seq<StepKind>
  {
    if cond then [kind] else []
  }

  /**
   * `plan_query`: retrieval is always required; tools are required exactly
   * when the query asks for recent information or a calculation; the plan is
   * "complex" exactly when the query has more than one "?"; the steps are
   * retrieval, then web search, calculator and decomposition as detected, in
   * that order, then synthesis.
   */
  method PlanQuery(query: string, context: Option<string>) returns (plan: Plan)
    ensures plan.originalQuery == query && plan.requiresRetrieval
    ensures plan.requiresTools <==> NeedsWeb(query) || NeedsCalc(query)
    ensures plan.estimatedComplexity == (if CountChar(query, '?') > 1 then "complex" else "medium")
    ensures 2 <= |plan.steps| <= 5
    ensures plan.steps[0] == RetrievalStep(query) && plan.steps[|plan.steps| - 1] == SynthesisStep
    ensures Kinds(plan.steps) == [Retrieval] + If(NeedsWeb(query), WebSearch) + If(NeedsCalc(query), Calculator)
                                 + If(CountChar(query, '?') > 1, Decompose) + [Synthesis]
  {
    hide Kinds, NeedsWeb, NeedsCalc, CountChar, RetrievalReason, SynthesisReason;
    var middle, tools, complex := DetectedSteps(query);
    KindsCons(RetrievalStep(query), middle);
    KindsSnoc([RetrievalStep(query)] + middle, SynthesisStep);
    plan := Plan(query, [RetrievalStep(query)] + middle + [SynthesisStep], true, tools,
                 if complex then "complex" else "medium");
  }

  /**
   * The steps `plan_query` puts between retrieval and synthesis: web search,
   * calculator and decomposition as the keyword and question-mark tests
   * detect them, in that order.
   */
  method DetectedSteps(query: string) returns (steps: seq<Step>, tools: bool, complex: bool)
    ensures Kinds(steps) == If(NeedsWeb(query), WebSearch) + If(NeedsCalc(query), Calculator)
                            + If(CountChar(query, '?') > 1, Decompose)
    ensures tools <==> NeedsWeb(query) || NeedsCalc(query)
    ensures complex <==> CountChar(query, '?') > 1
  {
    hide AnyKeyword, Lower, Has, Count, CountChar, Kinds, WebReason, CalcReason, DecomposeReason;
    steps, tools, complex := [], false, false;
    ghost var kinds: seq<StepKind> := [];
    var queryLower := Lower(query);
    if AnyKeyword(WebKeywords, queryLower) {
      var step := Step(WebSearch, Some(query), WebReason);
      KindsSnoc(steps, step);
      steps, tools := steps + [step], true;
    }
    kinds := kinds + If(NeedsWeb(query), WebSearch);
    assert Kinds(steps) == kinds;
    if AnyKeyword(CalcKeywords, queryLower) {
      var step := Step(Calculator, None, CalcReason);
      KindsSnoc(steps, step);
      steps, tools := steps + [step], true;
    }
    kinds := kinds + If(NeedsCalc(query), Calculator);
    assert Kinds(steps) == kinds;
    CountOneChar(query, '?');
    if Has(query, "?") && Count(query, "?") > 1 {
      var step := Step(Decompose, None, DecomposeReason);
      KindsSnoc(steps, step);
      steps, complex := steps + [step], true;
    }
    kinds := kinds + If(CountChar(query, '?') > 1, Decompose);
    assert Kinds(steps) == kinds;
  }

  /** Adding a step at the end adds its kind at the end. */
  lemma KindsSnoc(steps: seq<Step>, step: Step)
    ensures Kinds(steps + [step]) == Kinds(steps) + [step.kind]
  {
    KindsOfSteps(steps + [step]);
    KindsOfSteps(steps);
  }

  /** Adding a step at the front adds its kind at the front. */
  lemma KindsCons(step: Step, steps: seq<Step>)
    ensures Kinds([step] + steps) == [step.kind] + Kinds(steps)
  {
    KindsOfSteps([step] + steps);
    KindsOfSteps(steps);
  }

  /** `Kinds` element by element, as a sequence equation. */
  lemma KindsOfSteps(steps: seq<Step>)
    ensures |Kinds(steps)| == |steps| && forall k :: 0 <= k < |steps| ==> Kinds(steps)[k] == steps[k].kind
  {
  }

  /** The count of "?" alone decides complexity: the `"?" in query` test never changes it. */
  lemma ManyQuestionsIsCount(query: string)
    ensures ManyQuestions(query) <==> CountChar(query, '?') > 1
  {
    CountOneChar(query, '?');
  }

  /** A stripped part is kept when it is longer than ten characters, and gets a "?" unless it ends with one. */
  function SubQuery(part: string): Option<string>
  {
    var p := Strip(part);
    if p != [] && |p| > 10 then Some(if EndsWith(p, "?") then p else p + "?") else None
  }

  /** The sub-queries kept from `parts`, in order. */
  function SubQueries(parts: seq<string>): seq<string>
  {
    if parts == [] then []
    else
      var s := SubQuery(parts[|parts| - 1]);
      SubQueries(parts[..|parts| - 1]) + (if s.Some? then [s.value] else [])
  }

  /** The sub-queries of the first `i` parts, one part at a time. */
  lemma SubQueriesStep(parts: seq<string>, i: nat)
    requires i <= |parts|
    ensures i == 0 ==> SubQueries(parts[..i]) == []
    ensures i > 0 ==>
      SubQueries(parts[..i]) == SubQueries(parts[..i - 1]) + (if SubQuery(parts[i - 1]).Some? then [SubQuery(parts[i - 1]).value] else [])
  {
    hide SubQuery;
    if i > 0 {
      assert parts[..i][..i - 1] == parts[..i - 1];
    }
  }

  /**
   * `decompose_query`: the query is split at every "?"; when fewer than two
   * parts survive, the query itself is the only sub-query.
   */
  method DecomposeQuery(query: string, provider: Option<string>) returns (r: seq<string>)
    ensures var subs := SubQueries(Split(query, '?'));
      r == if |subs| <= 1 then [query] else subs
  {
    hide Split, SubQueries;
    var parts := Split(query, '?');
    var subQueries: seq<string> := [];
    SubQueriesStep(parts, 0);
    var i := 0;
    while i < |parts|
      invariant 0 <= i <= |parts|
      invariant subQueries == SubQueries(parts[..i])
    {
      SubQueriesStep(parts, i + 1);
      var part := Strip(parts[i]);
      if part != [] && |part| > 10 {
        if !EndsWith(part, "?") {
          part := part + "?";
        }
        subQueries := subQueries + [part];
      }
      i := i + 1;
    }
    assert parts[..|parts|] == parts;
    if |subQueries| <= 1 {
      return [query];
    }
    return subQueries;
  }

  /**
   * Every kept sub-query is a stripped part of more than ten characters
   * followed by "?": it ends in its only "?" and neither starts nor ends
   * with whitespace.
   */
  lemma {:induction false} SubQueriesShape(parts: seq<string>)
    requires forall k, i :: 0 <= k < |parts| && 0 <= i < |parts[k]| ==> parts[k][i] != '?'
    ensures var subs := SubQueries(parts);
      |subs| <= |parts|
      && forall k :: 0 <= k < |subs| ==>
        |subs[k]| > 11 && subs[k][|subs[k]| - 1] == '?' && !IsSpace(subs[k][0])
        && forall i :: 0 <= i < |subs[k]| - 1 ==> subs[k][i] != '?'
  {
    hide SubQuery;
    if parts != [] {
      var init := parts[..|parts| - 1];
      SubQueriesShape(init);
      SubQueryShape(parts[|parts| - 1]);
    }
  }

  /** A kept part is its stripped text, longer than ten characters and without "?", followed by one "?". */
  lemma SubQueryShape(part: string)
    requires forall i :: 0 <= i < |part| ==> part[i] != '?'
    ensures var s := SubQuery(part);
      s.Some? ==>
        |s.value| > 11 && s.value[|s.value| - 1] == '?' && !IsSpace(s.value[0])
        && forall i :: 0 <= i < |s.value| - 1 ==> s.value[i] != '?'
  {
    var p := Strip(part);
    assert forall i :: 0 <= i < |p| ==> p[i] == part[StripStart(part) + i];
    assert !EndsWith(p, "?") by {
      if |p| > 0 {
        assert p[|p| - 1..] == [p[|p| - 1]];
      }
    }
  }

  /** Every sub-query ends with "?" and is longer than eleven characters. */
  lemma DecomposeShape(query: string)
    ensures var subs := SubQueries(Split(query, '?'));
      forall k :: 0 <= k < |subs| ==> EndsWith(subs[k], "?") && |subs[k]| > 11
  {
    var parts := Split(query, '?');
    SubQueriesShape(parts);
    var subs := SubQueries(parts);
    forall k | 0 <= k < |subs| ensures EndsWith(subs[k], "?") {
      assert subs[k][|subs[k]| - 1..] == [subs[k][|subs[k]| - 1]];
    }
  }

  /** Splitting two questions at "?" gives both and an empty tail. */
  lemma SplitTwoQuestions(a: string, b: string)
    requires forall i :: 0 <= i < |a| ==> a[i] != '?'
    requires forall i :: 0 <= i < |b| ==> b[i] != '?'
    ensures Split(a + "?" + b + "?", '?') == [a, b, ""]
  {
    hide *;
    var t := b + ['?'] + "";
    var q := a + ['?'] + t;
    SplitAppend(a, '?', t);
    SplitAppend(b, '?', "");
    SplitWithoutSeparator(a, '?');
    SplitWithoutSeparator(b, '?');
    SplitWithoutSeparator("", '?');
    assert a + "?" + b + "?" == q;
  }

  /** A question without surrounding whitespace and longer than ten characters is kept with a "?" added. */
  lemma LongQuestionKept(a: string)
    requires forall i :: 0 <= i < |a| ==> a[i] != '?'
    requires |a| > 10 && !IsSpace(a[0]) && !IsSpace(a[|a| - 1])
    ensures SubQuery(a) == Some(a + "?")
  {
    StripUnpadded(a);
    assert a[|a| - 1..] == [a[|a| - 1]];
  }

  /** A query of two long questions is decomposed into both. */
  lemma TwoQuestionsDecompose(a: string, b: string)
    requires forall i :: 0 <= i < |a| ==> a[i] != '?'
    requires forall i :: 0 <= i < |b| ==> b[i] != '?'
    requires |a| > 10 && |b| > 10
    requires !IsSpace(a[0]) && !IsSpace(a[|a| - 1]) && !IsSpace(b[0]) && !IsSpace(b[|b| - 1])
    ensures SubQueries(Split(a + "?" + b + "?", '?')) == [a + "?", b + "?"]
  {
    SplitTwoQuestions(a, b);
    LongQuestionKept(a);
    LongQuestionKept(b);
    assert SubQuery("") == None;
    var parts := [a, b, ""];
    hide Split, SubQuery, Strip;
    assert parts[..2] == [a, b] && parts[..2][..1] == [a] && parts[..2][..1][..0] == [];
    assert SubQueries(parts[..1]) == [a + "?"];
    assert SubQueries(parts[..2]) == [a + "?", b + "?"];
  }

  /** `refine_plan_with_llm` keeps the initial plan. */
  function RefinePlanWithLlm(query: string, initialPlan: Plan, provider: Option<string>): (r: Plan)
    ensures r == initialPlan
  {
    initialPlan
  }
}
