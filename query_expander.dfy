/**
 * Query expansion for multi-hop retrieval: the original query first, then,
 * when the query mentions "what" in any case, two rewrites in which the
 * lower-case word "what" becomes "how" and "why".
 */
module QueryExpander {
  import opened Wrappers
  import opened PyStr

  /** Whether the lower-cased query contains "what", i.e. the rewrites are added. */
  predicate AsksWhat(query: string)
  {
    Has(Lower(query), "what")
  }

  /**
   * `expand`: the retrieved context is accepted but not used. The result
   * starts with the original query and has at most three entries.
   */
  function Expand(query: string, retrievedContext: Option<seq<string>>): (r: seq<string>)
    ensures 1 <= |r| <= 3 && r[0] == query
    ensures !AsksWhat(query) ==> r == [query]
    ensures AsksWhat(query) ==> |r| == 3
  {
    var expanded := [query];
    var expanded := if AsksWhat(query) then expanded + [Replace(query, "what", "how"), Replace(query, "what", "why")] else expanded;
    Prefix(expanded, 3)
  }

  /** `expand_with_llm` is a placeholder that returns only the original query. */
  function ExpandWithLlm(query: string, context: Option<string>): (r: seq<string>)
    ensures r == [query]
  {
    [query]
  }

  /** The two rewrites replace the lower-case "what" and leave a query without it unchanged. */
  lemma ExpandRewrites(query: string, retrievedContext: Option<seq<string>>)
    requires AsksWhat(query)
    ensures var r := Expand(query, retrievedContext);
      r[1] == Replace(query, "what", "how") && r[2] == Replace(query, "what", "why")
      && (!Contains(query, "what") ==> r == [query, query, query])
  {
  }

  /** The context has no effect on the expansion. */
  lemma ContextIgnored(query: string, a: Option<seq<string>>, b: Option<seq<string>>)
    ensures Expand(query, a) == Expand(query, b)
  {
  }

  /**
   * The replacement is case-sensitive: "What is RAG?" asks "what" once it is
   * lower-cased, yet both rewrites equal the query.
   */
  lemma CapitalWhatIsRepeated()
    ensures Expand("What is RAG?", None) == ["What is RAG?", "What is RAG?", "What is RAG?"]
  {
    var q := "What is RAG?";
    hide Expand, Replace, Has, Lower;
    SampleAsksWhat();
    SampleHasNoW();
    NoW(q);
    ExpandRewrites(q, None);
  }

  lemma SampleAsksWhat()
    ensures AsksWhat("What is RAG?")
  {
    hide Has, ContainsFrom, Lower;
    var q := "What is RAG?";
    var low := Lower(q);
    assert low[0] == 'w' && low[1] == 'h' && low[2] == 'a' && low[3] == 't';
    assert low[..4] == "what";
    assert HasAt(low, 0, "what");
  }

  lemma SampleHasNoW()
    ensures forall i :: 0 <= i < |"What is RAG?"| ==> "What is RAG?"[i] != 'w'
  {
  }

  /** A string without a small "w" does not contain "what". */
  lemma NoW(s: string)
    requires forall i :: 0 <= i < |s| ==> s[i] != 'w'
    ensures !Contains(s, "what")
  {
    forall i ensures !HasAt(s, i, "what") {
      if 0 <= i && i + 4 <= |s| {
        assert s[i..i + 4][0] == s[i];
      }
    }
  }
}
