/**
 * Multi-hop retrieval: up to `maxHops` rounds of vector search and
 * re-ranking, followed by de-duplication of everything gathered.
 *
 * The vector store is outside the model: `search(hop, query, k)` stands for
 * the results of the `hop`-th search for `query` asking for `k` hits (the
 * source filter and the user id are fixed for one call and folded into it).
 * Python's `hash` of a content string is the parameter `hash`.
 */
module MultiHop {
  import opened Wrappers
  import opened PyStr
  import opened Records
  import opened Reranker
  import opened QueryExpander

  /** `result.get("id") or hash(content)`: a non-empty id, else the content's hash. */
  datatype Key = ById(id: string) | ByHash(h: int)

  function KeyOf(d: Doc, hash: string -> int): (k: Key)
    ensures d.id.Some? && d.id.value != [] ==> k == ById(d.id.value)
    ensures !(d.id.Some? && d.id.value != []) ==> k == ByHash(hash(d.content))
  {
    if d.id.Some? && d.id.value != [] then ById(d.id.value) else ByHash(hash(d.content))
  }

  function KeySet(xs: seq<Doc>, hash: string -> int): set<Key>
  {
    if xs == [] then {} else {KeyOf(xs[0], hash)} + KeySet(xs[1..], hash)
  }

  /**
   * Everything gathered from hop `hop` on: each hop searches the original
   * query for `2 * topK` hits, stops the loop when nothing is found, and
   * otherwise contributes the re-ranked hits.
   */
  function HopsFrom(hop: nat, query: string, topK: int, maxHops: int,
                    search: (nat, string, int) -> seq<Doc>, scorer: Scorer): seq<Doc>
    decreases if hop < maxHops then maxHops - hop else 0
  {
    if hop >= maxHops then []
    else
      var results := search(hop, query, topK * 2);
      if results == [] then []
      else Rerank(query, results, topK, scorer) + HopsFrom(hop + 1, query, topK, maxHops, search, scorer)
  }

  /** The de-duplication loop: the first document with each key is kept, later ones are dropped. */
  function Dedup(xs: seq<Doc>, seen: set<Key>, hash: string -> int): seq<Doc>
  {
    if xs == [] then []
    else if KeyOf(xs[0], hash) in seen then Dedup(xs[1..], seen, hash)
    else [xs[0]] + Dedup(xs[1..], seen + {KeyOf(xs[0], hash)}, hash)
  }

  /** Reference definition: the documents whose key does not occur earlier in `xs`, in order. */
  function FirstOccurrences(xs: seq<Doc>, hash: string -> int): seq<Doc>
  {
    if xs == [] then []
    else
      var init := xs[..|xs| - 1];
      FirstOccurrences(init, hash) + (if KeyOf(xs[|xs| - 1], hash) in KeySet(init, hash) then [] else [xs[|xs| - 1]])
  }

  /**
   * `retrieve`: the hop loop with query expansion between hops, then the
   * de-duplication loop, then the first `topK` unique documents.
   */
  method Retrieve(query: string, topK: int, maxHops: int,
                  search: (nat, string, int) -> seq<Doc>, scorer: Scorer, hash: string -> int)
    returns (r: seq<Doc>)
    ensures r == Take(Dedup(HopsFrom(0, query, topK, maxHops, search, scorer), {}, hash), topK)
  {
    var allResults := GatherHops(query, topK, maxHops, search, scorer);
    var unique := Deduplicate(allResults, hash);
    r := Take(unique, topK);
  }

  /**
   * The hop loop of `retrieve`: the query searched is the one the expander
   * puts first, which is always the original query.
   */
  method GatherHops(query: string, topK: int, maxHops: int,
                    search: (nat, string, int) -> seq<Doc>, scorer: Scorer)
    returns (allResults: seq<Doc>)
    ensures allResults == HopsFrom(0, query, topK, maxHops, search, scorer)
  {
    hide Rerank, Expand;
    allResults := [];
    var currentQuery := query;
    var hop: nat := 0;
    while hop < maxHops
      invariant currentQuery == query
      invariant allResults + HopsFrom(hop, query, topK, maxHops, search, scorer)
                == HopsFrom(0, query, topK, maxHops, search, scorer)
      decreases maxHops - hop
    {
      var results := search(hop, currentQuery, topK * 2);
      if results == [] {
        assert HopsFrom(hop, query, topK, maxHops, search, scorer) == [];
        break;
      }
      var reranked := Rerank(currentQuery, results, topK, scorer);
      assert HopsFrom(hop, query, topK, maxHops, search, scorer)
          == reranked + HopsFrom(hop + 1, query, topK, maxHops, search, scorer);
      allResults := allResults + reranked;
      if hop < maxHops - 1 {
        var expanded := Expand(query, Some(Contents(reranked)));
        if expanded != [] {
          currentQuery := expanded[0];
        }
      }
      hop := hop + 1;
    }
  }

  /** The de-duplication loop of `retrieve`. */
  method Deduplicate(allResults: seq<Doc>, hash: string -> int) returns (unique: seq<Doc>)
    ensures unique == Dedup(allResults, {}, hash)
  {
    var seen: set<Key> := {};
    unique := [];
    var i := 0;
    while i < |allResults|
      invariant 0 <= i <= |allResults|
      invariant unique + Dedup(allResults[i..], seen, hash) == Dedup(allResults, {}, hash)
    {
      assert allResults[i..][1..] == allResults[i + 1..];
      var key := KeyOf(allResults[i], hash);
      if key !in seen {
        seen := seen + {key};
        unique := unique + [allResults[i]];
      }
      i := i + 1;
    }
    assert allResults[i..] == [];
  }

  /**
   * De-duplication keeps no key twice and none already seen, and it keeps
   * every key of the input that was not already seen.
   */
  lemma {:induction false} DedupKeys(xs: seq<Doc>, seen: set<Key>, hash: string -> int)
    ensures var r := Dedup(xs, seen, hash);
      (forall i, j :: 0 <= i < j < |r| ==> KeyOf(r[i], hash) != KeyOf(r[j], hash))
      && (forall i :: 0 <= i < |r| ==> KeyOf(r[i], hash) !in seen)
      && KeySet(r, hash) == KeySet(xs, hash) - seen
  {
    if xs != [] {
      var k := KeyOf(xs[0], hash);
      if k in seen {
        DedupKeys(xs[1..], seen, hash);
      } else {
        var rest := Dedup(xs[1..], seen + {k}, hash);
        DedupKeys(xs[1..], seen + {k}, hash);
        var r := [xs[0]] + rest;
        assert r[1..] == rest;
        forall i, j | 0 <= i < j < |r| ensures KeyOf(r[i], hash) != KeyOf(r[j], hash) {
          assert r[j] == rest[j - 1];
          if i > 0 {
            assert r[i] == rest[i - 1];
          }
        }
        forall i | 0 <= i < |r| ensures KeyOf(r[i], hash) !in seen {
          if i > 0 {
            assert r[i] == rest[i - 1];
          }
        }
      }
    }
  }

  /** Appending one document to the input appends it to the output exactly when its key is new. */
  lemma {:induction false} DedupSnoc(xs: seq<Doc>, y: Doc, seen: set<Key>, hash: string -> int)
    ensures Dedup(xs + [y], seen, hash)
         == Dedup(xs, seen, hash) + (if KeyOf(y, hash) in seen + KeySet(xs, hash) then [] else [y])
    decreases |xs|
  {
    if xs == [] {
      assert xs + [y] == [y];
    } else {
      var k := KeyOf(xs[0], hash);
      assert (xs + [y])[0] == xs[0] && (xs + [y])[1..] == xs[1..] + [y];
      if k in seen {
        DedupSnoc(xs[1..], y, seen, hash);
        assert seen + KeySet(xs, hash) == seen + KeySet(xs[1..], hash);
      } else {
        DedupSnoc(xs[1..], y, seen + {k}, hash);
        assert seen + KeySet(xs, hash) == seen + {k} + KeySet(xs[1..], hash);
      }
    }
  }

  /** The de-duplication loop keeps exactly the first occurrence of each key, in input order. */
  lemma {:induction false} DedupIsFirstOccurrences(xs: seq<Doc>, hash: string -> int)
    ensures Dedup(xs, {}, hash) == FirstOccurrences(xs, hash)
  {
    if xs != [] {
      var init := xs[..|xs| - 1];
      DedupIsFirstOccurrences(init, hash);
      DedupSnoc(init, xs[|xs| - 1], {}, hash);
      assert init + [xs[|xs| - 1]] == xs;
      assert {} + KeySet(init, hash) == KeySet(init, hash);
    }
  }

  /** Each hop adds at most `topK` documents, so all hops together add at most `topK` per hop allowed. */
  lemma {:induction false} HopsBound(hop: nat, query: string, topK: int, maxHops: int,
                                     search: (nat, string, int) -> seq<Doc>, scorer: Scorer)
    requires topK >= 0
    ensures |HopsFrom(hop, query, topK, maxHops, search, scorer)| <= (if hop < maxHops then maxHops - hop else 0) * topK
    decreases if hop < maxHops then maxHops - hop else 0
  {
    hide Rerank;
    if hop < maxHops {
      var results := search(hop, query, topK * 2);
      if results != [] {
        RerankBounds(query, results, topK, scorer);
        HopsBound(hop + 1, query, topK, maxHops, search, scorer);
        assert (maxHops - hop) * topK == topK + (maxHops - (hop + 1)) * topK;
      }
    }
  }

  /**
   * The result holds at most `topK` documents (for a non-negative `topK`),
   * no two with the same key, each being the first document with its key
   * among everything gathered.
   */
  lemma RetrieveResult(query: string, topK: int, maxHops: int,
                       search: (nat, string, int) -> seq<Doc>, scorer: Scorer, hash: string -> int)
    ensures var all := HopsFrom(0, query, topK, maxHops, search, scorer);
      var r := Take(Dedup(all, {}, hash), topK);
      (topK >= 0 ==> |r| <= topK)
      && (forall i, j :: 0 <= i < j < |r| ==> KeyOf(r[i], hash) != KeyOf(r[j], hash))
      && r == Take(FirstOccurrences(all, hash), topK)
  {
    var all := HopsFrom(0, query, topK, maxHops, search, scorer);
    var u := Dedup(all, {}, hash);
    DedupKeys(all, {}, hash);
    DedupIsFirstOccurrences(all, hash);
    var r := Take(u, topK);
    forall i, j | 0 <= i < j < |r| ensures KeyOf(r[i], hash) != KeyOf(r[j], hash) {
      assert r[i] == u[i] && r[j] == u[j];
    }
  }

  /** When the first search finds nothing, the result is empty. */
  lemma EmptyFirstSearch(query: string, topK: int, maxHops: int,
                         search: (nat, string, int) -> seq<Doc>, scorer: Scorer, hash: string -> int)
    requires search(0, query, topK * 2) == []
    ensures Take(Dedup(HopsFrom(0, query, topK, maxHops, search, scorer), {}, hash), topK) == []
  {
  }
}
