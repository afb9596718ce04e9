/**
 * Provider construction. Which API keys are configured is an input: a key
 * is the empty string when it is not set. Names are matched after
 * lower-casing; "openai" is not supported and, like any other unknown name,
 * gives no provider.
 */
module ProviderFactory {
  import opened Wrappers
  import opened PyStr
  import opened ProviderBase
  import AnthropicProvider
  import GeminiProvider
  import GroqProvider

  /** The configured API keys ("" when not set). */
  datatype Keys = Keys(anthropic: string, gemini: string, groq: string)

  function KeyOf(keys: Keys, kind: ProviderKind): string
  {
    match kind
    case Anthropic => keys.anthropic
    case Gemini => keys.gemini
    case Groq => keys.groq
  }

  function DefaultModelOf(kind: ProviderKind): string
  {
    match kind
    case Anthropic => AnthropicProvider.DefaultModel
    case Gemini => GeminiProvider.DefaultModel
    case Groq => GroqProvider.DefaultModel
  }

  /** `get_available_models` of each provider class. */
  function ModelsOf(kind: ProviderKind): (r: seq<string>)
    ensures |r| > 0 && DefaultModelOf(kind) in r
  {
    match kind
    case Anthropic => AnthropicProvider.AvailableModels
    case Gemini => GeminiProvider.AvailableModels
    case Groq => GroqProvider.AvailableModels
  }

  /** The kind a name selects once lower-cased. */
  function KindOf(name: string): (r: Option<ProviderKind>)
    ensures r.Some? ==> KindName(r.value) == Lower(name)
    ensures r.None? ==> forall k :: KindName(k) != Lower(name)
  {
    var n := Lower(name);
    if n == "anthropic" then Some(Anthropic)
    else if n == "gemini" then Some(Gemini)
    else if n == "groq" then Some(Groq)
    else None
  }

  /** `create_provider`: no provider for an unknown name or a missing key; `model or default_model`. */
  function CreateProvider(keys: Keys, name: string, model: Option<string>): Option<Provider>
  {
    match KindOf(name)
    case None => None
    case Some(kind) =>
      if KeyOf(keys, kind) == "" then None
      else Some(Provider(kind, KeyOf(keys, kind), if Given(model) then model.value else DefaultModelOf(kind)))
  }

  /** `get_available_providers`: the configured providers in the order anthropic, gemini, groq. */
  function AvailableProviders(keys: Keys): seq<string>
  {
    (if keys.anthropic != "" then ["anthropic"] else [])
    + (if keys.gemini != "" then ["gemini"] else [])
    + (if keys.groq != "" then ["groq"] else [])
  }

  /** The first name in `names` that yields a provider (with its default model), if any. */
  function FirstCreatable(keys: Keys, names: seq<string>): Option<Provider>
  {
    if names == [] then None
    else
      var p := CreateProvider(keys, names[0], None);
      if p.Some? then p else FirstCreatable(keys, names[1..])
  }

  const Priority: seq<string> := ["anthropic", "gemini", "groq"]

  /** `get_default_provider`: the first creatable of anthropic, gemini, groq. */
  function DefaultProvider(keys: Keys): Option<Provider>
  {
    FirstCreatable(keys, Priority)
  }

  /** A lower-case-only string is its own lower-casing, and lower-casing is idempotent. */
  lemma LowerFixed(s: string)
    ensures (forall i :: 0 <= i < |s| ==> !('A' <= s[i] <= 'Z')) ==> Lower(s) == s
    ensures Lower(Lower(s)) == Lower(s)
  {
  }

  /** Each kind's own name selects it. */
  lemma KindOfKindName(kind: ProviderKind)
    ensures KindOf(KindName(kind)) == Some(kind)
  {
    hide Lower;
    LowerKindName(kind);
  }

  /** Kind names are already lower case. */
  lemma LowerKindName(kind: ProviderKind)
    ensures Lower(KindName(kind)) == KindName(kind)
  {
    hide Lower;
    var s := KindName(kind);
    var r := Lower(s);
    forall i | 0 <= i < |s| ensures r[i] == s[i] {
      assert 'a' <= s[i] <= 'z';
    }
  }

  /**
   * A provider is made exactly when the lower-cased name is one of the
   * three kinds and that kind's key is set; it carries that key and the
   * given model, or the kind's default model when none is given.
   */
  lemma CreateProviderSpec(keys: Keys, name: string, model: Option<string>)
    ensures var p := CreateProvider(keys, name, model);
      (p.Some? <==> KindOf(name).Some? && KeyOf(keys, KindOf(name).value) != "")
      && (p.Some? ==> KindName(p.value.kind) == Lower(name) && p.value.apiKey == KeyOf(keys, p.value.kind) != ""
                      && p.value.model == (if Given(model) then model.value else DefaultModelOf(p.value.kind)))
  {
  }

  /** Names are matched without regard to case. */
  lemma CaseInsensitive(keys: Keys, name: string, model: Option<string>)
    ensures CreateProvider(keys, name, model) == CreateProvider(keys, Lower(name), model)
  {
    LowerFixed(name);
  }

  /** "openai" is not a supported provider, whatever keys are set. */
  lemma OpenAiUnsupported(keys: Keys, model: Option<string>)
    ensures CreateProvider(keys, "openai", model) == None
  {
    LowerFixed("openai");
  }

  /** Creating a provider by a kind's own name. */
  lemma CreateByKindName(keys: Keys, kind: ProviderKind, model: Option<string>)
    ensures CreateProvider(keys, KindName(kind), model)
         == if KeyOf(keys, kind) == "" then None
            else Some(Provider(kind, KeyOf(keys, kind), if Given(model) then model.value else DefaultModelOf(kind)))
  {
    KindOfKindName(kind);
  }

  /**
   * The available providers are the kinds whose key is set, in priority
   * order, and each of them can be created.
   */
  lemma AvailableSpec(keys: Keys)
    ensures forall k :: KindName(k) in AvailableProviders(keys) <==> KeyOf(keys, k) != ""
    ensures forall n :: n in AvailableProviders(keys) ==> CreateProvider(keys, n, None).Some?
    ensures |AvailableProviders(keys)| <= 3
  {
    hide CreateProvider;
    CreateByKindName(keys, Anthropic, None);
    CreateByKindName(keys, Gemini, None);
    CreateByKindName(keys, Groq, None);
    forall n | n in AvailableProviders(keys) ensures CreateProvider(keys, n, None).Some? {
      assert n == KindName(Anthropic) || n == KindName(Gemini) || n == KindName(Groq);
    }
  }

  /** The first creatable name of a list: every earlier name fails, and a result comes from some name of the list. */
  lemma {:induction false} FirstCreatableSpec(keys: Keys, names: seq<string>)
    ensures var p := FirstCreatable(keys, names);
      (p.None? <==> forall i :: 0 <= i < |names| ==> CreateProvider(keys, names[i], None).None?)
      && (p.Some? ==> exists i :: 0 <= i < |names| && p == CreateProvider(keys, names[i], None)
                        && forall j :: 0 <= j < i ==> CreateProvider(keys, names[j], None).None?)
  {
    hide CreateProvider;
    if names != [] {
      FirstCreatableSpec(keys, names[1..]);
      var p := FirstCreatable(keys, names);
      if CreateProvider(keys, names[0], None).Some? {
        assert p == CreateProvider(keys, names[0], None);
      } else {
        if p.Some? {
          var i :| 0 <= i < |names[1..]| && p == CreateProvider(keys, names[1..][i], None)
                   && forall j :: 0 <= j < i ==> CreateProvider(keys, names[1..][j], None).None?;
          assert forall j :: 0 <= j < i + 1 ==> CreateProvider(keys, names[j], None).None? by {
            forall j | 0 <= j < i + 1 ensures CreateProvider(keys, names[j], None).None? {
              if j > 0 {
                assert names[j] == names[1..][j - 1];
              }
            }
          }
        } else {
          forall i | 0 <= i < |names| ensures CreateProvider(keys, names[i], None).None? {
            if i > 0 {
              assert names[i] == names[1..][i - 1];
            }
          }
        }
      }
    }
  }

  /**
   * The default provider is the first available one, made with its default
   * model, and there is none exactly when no key is set.
   */
  lemma DefaultIsFirstAvailable(keys: Keys)
    ensures var avail := AvailableProviders(keys);
      DefaultProvider(keys) == (if avail == [] then None else CreateProvider(keys, avail[0], None))
    ensures DefaultProvider(keys).None? <==> AvailableProviders(keys) == []
  {
    hide CreateProvider;
    CreateByKindName(keys, Anthropic, None);
    CreateByKindName(keys, Gemini, None);
    CreateByKindName(keys, Groq, None);
    assert Priority == [KindName(Anthropic), KindName(Gemini), KindName(Groq)];
    assert Priority[1..] == [KindName(Gemini), KindName(Groq)];
    assert Priority[1..][1..] == [KindName(Groq)];
    assert Priority[1..][1..][1..] == [];
    var a := CreateProvider(keys, "anthropic", None);
    var g := CreateProvider(keys, "gemini", None);
    var q := CreateProvider(keys, "groq", None);
    assert FirstCreatable(keys, Priority[1..][1..]) == q;
    assert FirstCreatable(keys, Priority[1..]) == if g.Some? then g else q;
    assert DefaultProvider(keys) == if a.Some? then a else if g.Some? then g else q;
  }
}
