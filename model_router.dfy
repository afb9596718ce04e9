/**
 * Routing a query to a provider: a creatable preferred provider wins;
 * otherwise the query's complexity picks a priority list (fast providers
 * for simple queries, capable ones for complex queries) and the factory's
 * default is the last resort.
 */
module ModelRouter {
  import opened Wrappers
  import opened PyStr
  import opened ProviderBase
  import opened ProviderFactory
  import opened Planner
  import AnthropicProvider

  const SimpleQueryMaxLength: int := 100
  const ComplexQueryMinLength: int := 200

  const SimpleKeywords: seq<string> := ["what is", "who is", "when", "where", "yes", "no"]
  const ComplexKeywords: seq<string> := ["explain", "analyze", "compare", "why", "how", "describe"]

  predicate LooksSimple(query: string)
  {
    AnyKeyword(SimpleKeywords, Lower(query)) && |query| < SimpleQueryMaxLength
  }

  predicate LooksComplex(query: string)
  {
    AnyKeyword(ComplexKeywords, Lower(query)) || |query| > ComplexQueryMinLength
    || Count(query, "?") > 1 || Count(query, "and") > 2
  }

  /** `_detect_complexity`: the simple test runs first, then the complex and multi-step tests. */
  function DetectComplexity(query: string): (r: string)
    ensures r == "simple" || r == "complex" || r == "medium"
    ensures r == "simple" <==> LooksSimple(query)
    ensures r == "complex" <==> !LooksSimple(query) && LooksComplex(query)
  {
    if LooksSimple(query) then "simple"
    else if AnyKeyword(ComplexKeywords, Lower(query)) || |query| > ComplexQueryMinLength then "complex"
    else if Count(query, "?") > 1 || Count(query, "and") > 2 then "complex"
    else "medium"
  }

  const SimpleOrder: seq<string> := ["groq", "gemini", "openai"]
  const ComplexOrder: seq<string> := ["anthropic", "openai", "gemini"]

  /** `route_query`. */
  function RouteQuery(keys: Keys, query: string, preferredProvider: Option<string>, preferredModel: Option<string>,
                      complexity: Option<string>): Option<Provider>
  {
    var preferred := if Given(preferredProvider) then CreateProvider(keys, preferredProvider.value, preferredModel) else None;
    if preferred.Some? then preferred
    else
      var c := if Given(complexity) then complexity.value else DetectComplexity(query);
      var routed := if c == "simple" then FirstCreatable(keys, SimpleOrder)
                    else if c == "complex" then FirstCreatable(keys, ComplexOrder)
                    else None;
      if routed.Some? then routed else DefaultProvider(keys)
  }

  /** A creatable preferred provider always wins, with the preferred model. */
  lemma PreferredWins(keys: Keys, query: string, preferredProvider: string, preferredModel: Option<string>,
                      complexity: Option<string>)
    requires CreateProvider(keys, preferredProvider, preferredModel).Some?
    ensures RouteQuery(keys, query, Some(preferredProvider), preferredModel, complexity)
         == CreateProvider(keys, preferredProvider, preferredModel)
  {
    CreateProviderSpec(keys, preferredProvider, preferredModel);
    LowerFixed("");
  }

  /** The first creatable of three names, written out. */
  lemma FirstOfThree(keys: Keys, a: string, b: string, c: string)
    ensures FirstCreatable(keys, [a, b, c])
         == if CreateProvider(keys, a, None).Some? then CreateProvider(keys, a, None)
            else if CreateProvider(keys, b, None).Some? then CreateProvider(keys, b, None)
            else CreateProvider(keys, c, None)
  {
    hide CreateProvider;
    assert [a, b, c][1..] == [b, c] && [b, c][1..] == [c] && [c][1..] == [];
    var pc := CreateProvider(keys, c, None);
    assert FirstCreatable(keys, [c]) == pc by {
      assert FirstCreatable(keys, [c]) == if pc.Some? then pc else FirstCreatable(keys, []);
    }
  }

  /** The provider of a kind whose key is set, with its default model. */
  function Made(keys: Keys, kind: ProviderKind): Option<Provider>
  {
    Some(Provider(kind, KeyOf(keys, kind), DefaultModelOf(kind)))
  }

  /**
   * Without a winning preferred provider, a simple query goes to groq, then
   * gemini ("openai" never yields a provider), then the default provider.
   */
  lemma SimpleRoute(keys: Keys, query: string, preferredModel: Option<string>, complexity: Option<string>)
    requires (if Given(complexity) then complexity.value else DetectComplexity(query)) == "simple"
    ensures RouteQuery(keys, query, None, preferredModel, complexity)
         == if keys.groq != "" then Made(keys, Groq)
            else if keys.gemini != "" then Made(keys, Gemini)
            else DefaultProvider(keys)
  {
    hide CreateProvider;
    FirstOfThree(keys, "groq", "gemini", "openai");
    CreateByKindName(keys, Groq, None);
    CreateByKindName(keys, Gemini, None);
    OpenAiUnsupported(keys, None);
  }

  /**
   * Without a winning preferred provider, a complex query goes to anthropic,
   * then gemini, then the default provider.
   */
  lemma ComplexRoute(keys: Keys, query: string, preferredModel: Option<string>, complexity: Option<string>)
    requires (if Given(complexity) then complexity.value else DetectComplexity(query)) == "complex"
    ensures RouteQuery(keys, query, None, preferredModel, complexity)
         == if keys.anthropic != "" then Made(keys, Anthropic)
            else if keys.gemini != "" then Made(keys, Gemini)
            else DefaultProvider(keys)
  {
    hide CreateProvider;
    FirstOfThree(keys, "anthropic", "openai", "gemini");
    CreateByKindName(keys, Anthropic, None);
    CreateByKindName(keys, Gemini, None);
    OpenAiUnsupported(keys, None);
  }

  /** Without any key set, no name yields a provider. */
  lemma NoKeysNoProvider(keys: Keys, name: string, model: Option<string>)
    requires AvailableProviders(keys) == []
    ensures CreateProvider(keys, name, model).None?
  {
    assert keys.anthropic == "" && keys.gemini == "" && keys.groq == "";
  }

  /** Routing finds no provider exactly when no API key is set. */
  lemma RouteNoneIffNoKeys(keys: Keys, query: string, preferredProvider: Option<string>, preferredModel: Option<string>,
                           complexity: Option<string>)
    ensures RouteQuery(keys, query, preferredProvider, preferredModel, complexity).None?
        <==> AvailableProviders(keys) == []
  {
    hide CreateProvider, FirstCreatable, DetectComplexity, AvailableProviders;
    DefaultIsFirstAvailable(keys);
    if AvailableProviders(keys) == [] {
      if Given(preferredProvider) {
        NoKeysNoProvider(keys, preferredProvider.value, preferredModel);
      }
      FirstCreatableSpec(keys, SimpleOrder);
      FirstCreatableSpec(keys, ComplexOrder);
      forall i | 0 <= i < 3 ensures CreateProvider(keys, SimpleOrder[i], None).None? && CreateProvider(keys, ComplexOrder[i], None).None? {
        NoKeysNoProvider(keys, SimpleOrder[i], None);
        NoKeysNoProvider(keys, ComplexOrder[i], None);
      }
    }
  }

  /** `get_recommended_model` ("openai" is never creatable, so its branch is not reached and is left out). */
  function RecommendedModel(keys: Keys, provider: string, complexity: string): Option<string>
  {
    var inst := CreateProvider(keys, provider, None);
    if inst.None? then None
    else
      var models := ModelsOf(inst.value.kind);
      if provider == "anthropic" then
        if complexity == "complex" then
          Some(if "claude-opus-4-20250514" in models then "claude-opus-4-20250514" else models[0])
        else if complexity == "simple" then
          Some(if "claude-haiku-4-20250514" in models then "claude-haiku-4-20250514" else models[|models| - 1])
        else
          Some(if "claude-sonnet-4-20250514" in models then "claude-sonnet-4-20250514" else models[0])
      else if provider == "gemini" then Some(models[0])
      else if provider == "groq" then
        if complexity == "complex" then
          Some(if "llama-3.3-70b-versatile" in models then "llama-3.3-70b-versatile" else models[0])
        else
          Some(if "llama-3.1-8b-instant" in models then "llama-3.1-8b-instant" else models[|models| - 1])
      else Some(models[0])
  }

  /**
   * There is a recommendation exactly when the provider can be created, and
   * it is always one of that provider's models.
   */
  lemma RecommendedIsAvailable(keys: Keys, provider: string, complexity: string)
    ensures RecommendedModel(keys, provider, complexity).None? <==> CreateProvider(keys, provider, None).None?
    ensures RecommendedModel(keys, provider, complexity).Some? ==>
      RecommendedModel(keys, provider, complexity).value in ModelsOf(CreateProvider(keys, provider, None).value.kind)
  {
  }

  /** With its key set, anthropic recommends opus for complex, haiku for simple and sonnet otherwise. */
  lemma RecommendedAnthropic(keys: Keys, complexity: string)
    requires keys.anthropic != ""
    ensures RecommendedModel(keys, "anthropic", complexity)
         == Some(if complexity == "complex" then "claude-opus-4-20250514"
                 else if complexity == "simple" then "claude-haiku-4-20250514"
                 else "claude-sonnet-4-20250514")
  {
    hide CreateProvider, KindOf, Lower;
    CreateByKindName(keys, Anthropic, None);
    var models := ModelsOf(Anthropic);
    assert models == AnthropicProvider.AvailableModels;
    assert models[0] == "claude-opus-4-20250514" && models[1] == "claude-sonnet-4-20250514" && models[2] == "claude-haiku-4-20250514";
  }

  /** With its key set, groq recommends the 70b model for complex queries and the 8b model otherwise. */
  lemma RecommendedGroq(keys: Keys, complexity: string)
    requires keys.groq != ""
    ensures RecommendedModel(keys, "groq", complexity)
         == Some(if complexity == "complex" then "llama-3.3-70b-versatile" else "llama-3.1-8b-instant")
  {
    CreateByKindName(keys, Groq, None);
    var models := ModelsOf(Groq);
    assert models[0] == "llama-3.3-70b-versatile" && models[1] == "llama-3.1-8b-instant";
  }

  /** With its key set, gemini always recommends its first model. */
  lemma RecommendedGemini(keys: Keys, complexity: string)
    requires keys.gemini != ""
    ensures RecommendedModel(keys, "gemini", complexity) == Some("gemini-2.5-flash")
  {
    CreateByKindName(keys, Gemini, None);
  }

  /**
   * The branches compare the name as given, so a capitalised name that the
   * factory accepts falls through to the first listed model whatever the
   * complexity.
   */
  lemma CapitalisedNameFallsThrough(keys: Keys, complexity: string)
    requires keys.anthropic != ""
    ensures RecommendedModel(keys, "Anthropic", complexity) == Some("claude-opus-4-20250514")
  {
    hide Lower, CreateProvider;
    LowerCapitalised();
    CreateByKindName(keys, Anthropic, None);
    SameLowerSameProvider(keys, "Anthropic", "anthropic");
    assert "Anthropic"[0] != "anthropic"[0];
    assert ModelsOf(Anthropic) == AnthropicProvider.AvailableModels;
  }

  /** The factory only looks at the lower-cased name. */
  lemma SameLowerSameProvider(keys: Keys, a: string, b: string)
    requires Lower(a) == Lower(b)
    ensures CreateProvider(keys, a, None) == CreateProvider(keys, b, None)
  {
  }

  /** "Anthropic" lower-cases to the factory's name. */
  lemma LowerCapitalised()
    ensures Lower("Anthropic") == "anthropic"
  {
    hide Lower;
    var r := Lower("Anthropic");
    assert r[0] == LowerChar('A') == 'a';
    assert r[1] == LowerChar('n') == 'n' && r[2] == LowerChar('t') == 't';
    assert r[3] == LowerChar('h') == 'h' && r[4] == LowerChar('r') == 'r';
    assert r[5] == LowerChar('o') == 'o' && r[6] == LowerChar('p') == 'p';
    assert r[7] == LowerChar('i') == 'i' && r[8] == LowerChar('c') == 'c';
  }
}
