/**
 * Re-ranking of retrieved documents. The cross-encoder is outside the
 * model: `Scorer` says whether it was loaded and, when it was, gives the
 * score it assigns to a (query, content) pair, or says that scoring raises.
 */
module Reranker {
  import opened Wrappers
  import opened PyStr
  import opened Records

  datatype Scorer =
    | NoModel
    | Failing
    | CrossEncoder(score: (string, string) -> real)

  /** `list(zip(documents, scores))`, with the scores the model gives each document's content. */
  function ScoreAll(query: string, documents: seq<Doc>, score: (string, string) -> real): (r: seq<(Doc, real)>)
    ensures |r| == |documents|
    ensures forall k :: 0 <= k < |r| ==> r[k] == (documents[k], score(query, documents[k].content))
  {
    if documents == [] then []
    else [(documents[0], score(query, documents[0].content))] + ScoreAll(query, documents[1..], score)
  }

  predicate SortedDesc(xs: seq<(Doc, real)>)
  {
    forall i, j :: 0 <= i < j < |xs| ==> xs[i].1 >= xs[j].1
  }

  /** The entries with score `v`, in their order. */
  function WithScore(xs: seq<(Doc, real)>, v: real): (r: seq<(Doc, real)>)
    ensures |r| <= |xs|
  {
    if xs == [] then []
    else (if xs[0].1 == v then [xs[0]] else []) + WithScore(xs[1..], v)
  }

  function Docs(xs: seq<(Doc, real)>): (r: seq<Doc>)
    ensures |r| == |xs|
    ensures forall k :: 0 <= k < |xs| ==> r[k] == xs[k].0
  {
    if xs == [] then [] else [xs[0].0] + Docs(xs[1..])
  }

  /** Puts `x` in front of the first entry whose score is not above its own. */
  function Insert(x: (Doc, real), ys: seq<(Doc, real)>): seq<(Doc, real)>
  {
    if ys == [] || x.1 >= ys[0].1 then [x] + ys else [ys[0]] + Insert(x, ys[1..])
  }

  /**
   * `sort(key=score, reverse=True)`: Python's sort is stable, also when
   * reversed, so entries with equal scores keep their input order.
   */
  function SortByScore(xs: seq<(Doc, real)>): seq<(Doc, real)>
  {
    if xs == [] then [] else Insert(xs[0], SortByScore(xs[1..]))
  }

  /**
   * `rerank`: nothing for no documents; without a model, or when scoring
   * fails, the first `topK` documents in their order; otherwise the documents
   * by descending score, the first `topK` of them.
   */
  function Rerank(query: string, documents: seq<Doc>, topK: int, scorer: Scorer): seq<Doc>
  {
    if documents == [] then []
    else match scorer
      case NoModel => Take(documents, topK)
      case Failing => Take(documents, topK)
      case CrossEncoder(score) => Take(Docs(SortByScore(ScoreAll(query, documents, score))), topK)
  }

  lemma {:induction false} WithScoreAppend(a: seq<(Doc, real)>, b: seq<(Doc, real)>, v: real)
    ensures WithScore(a + b, v) == WithScore(a, v) + WithScore(b, v)
    decreases |a|
  {
    if a != [] {
      var head := if a[0].1 == v then [a[0]] else [];
      assert (a + b)[0] == a[0] && (a + b)[1..] == a[1..] + b;
      WithScoreAppend(a[1..], b, v);
      assert WithScore(a + b, v) == head + (WithScore(a[1..], v) + WithScore(b, v));
      assert WithScore(a, v) == head + WithScore(a[1..], v);
    } else {
      assert a + b == b;
    }
  }

  lemma {:induction false} InsertMultiset(x: (Doc, real), ys: seq<(Doc, real)>)
    ensures multiset(Insert(x, ys)) == multiset([x]) + multiset(ys)
    decreases |ys|
  {
    if ys != [] && x.1 < ys[0].1 {
      InsertMultiset(x, ys[1..]);
      assert ys == [ys[0]] + ys[1..];
    }
  }

  lemma {:induction false} InsertSorted(x: (Doc, real), ys: seq<(Doc, real)>)
    requires SortedDesc(ys)
    ensures SortedDesc(Insert(x, ys))
    decreases |ys|
  {
    if ys != [] && x.1 < ys[0].1 {
      var rest := Insert(x, ys[1..]);
      InsertSorted(x, ys[1..]);
      InsertMultiset(x, ys[1..]);
      var all := [ys[0]] + rest;
      assert Insert(x, ys) == all;
      hide Insert;
      forall k | 0 <= k < |rest| ensures ys[0].1 >= rest[k].1 {
        assert rest[k] in multiset([x]) + multiset(ys[1..]);
        if rest[k] != x {
          assert rest[k] in ys[1..];
        }
      }
      forall i, j | 0 <= i < j < |all| ensures all[i].1 >= all[j].1 {
        assert all[j] == rest[j - 1];
        if i > 0 {
          assert all[i] == rest[i - 1];
        }
      }
    }
  }

  /** `x` goes in front of the entries of `ys` that share its score. */
  lemma {:induction false} InsertStable(x: (Doc, real), ys: seq<(Doc, real)>, v: real)
    requires SortedDesc(ys)
    ensures WithScore(Insert(x, ys), v) == WithScore([x], v) + WithScore(ys, v)
    decreases |ys|
  {
    if ys == [] || x.1 >= ys[0].1 {
      WithScoreAppend([x], ys, v);
    } else {
      var rest := Insert(x, ys[1..]);
      InsertStable(x, ys[1..], v);
      assert ys == [ys[0]] + ys[1..];
      WithScoreAppend([ys[0]], rest, v);
      WithScoreAppend([ys[0]], ys[1..], v);
      if x.1 == v {
        assert WithScore([ys[0]], v) == [];
      }
    }
  }

  lemma {:induction false} InsertDocs(x: (Doc, real), ys: seq<(Doc, real)>)
    ensures multiset(Docs(Insert(x, ys))) == multiset([x.0]) + multiset(Docs(ys))
    decreases |ys|
  {
    if ys != [] && x.1 < ys[0].1 {
      InsertDocs(x, ys[1..]);
      assert Docs(ys) == [ys[0].0] + Docs(ys[1..]);
    }
  }

  lemma {:induction false} SortByScoreDocs(xs: seq<(Doc, real)>)
    ensures multiset(Docs(SortByScore(xs))) == multiset(Docs(xs))
  {
    if xs != [] {
      SortByScoreDocs(xs[1..]);
      InsertDocs(xs[0], SortByScore(xs[1..]));
      assert Docs(xs) == [xs[0].0] + Docs(xs[1..]);
    }
  }

  /**
   * The sorted entries are a permutation of the input in descending score
   * order, and the entries sharing any one score appear in their input order.
   */
  lemma {:induction false} SortByScoreSpec(xs: seq<(Doc, real)>)
    ensures SortedDesc(SortByScore(xs))
    ensures multiset(SortByScore(xs)) == multiset(xs)
    ensures forall v :: WithScore(SortByScore(xs), v) == WithScore(xs, v)
  {
    if xs != [] {
      SortByScoreSpec(xs[1..]);
      InsertSorted(xs[0], SortByScore(xs[1..]));
      InsertMultiset(xs[0], SortByScore(xs[1..]));
      assert xs == [xs[0]] + xs[1..];
      forall v ensures WithScore(SortByScore(xs), v) == WithScore(xs, v) {
        InsertStable(xs[0], SortByScore(xs[1..]), v);
        WithScoreAppend([xs[0]], xs[1..], v);
      }
    }
  }

  /** Without a model or when scoring fails, the first `topK` documents are kept in their order. */
  lemma RerankFallback(query: string, documents: seq<Doc>, topK: int, scorer: Scorer)
    requires scorer.NoModel? || scorer.Failing?
    ensures Rerank(query, documents, topK, scorer) == Take(documents, topK)
  {
  }

  /**
   * With a model, the result is in descending score order, ties keep their
   * input order, and it holds at most `topK` of the documents, each as often
   * as at most in the input.
   */
  lemma RerankByScore(query: string, documents: seq<Doc>, topK: int, score: (string, string) -> real)
    ensures var r := Rerank(query, documents, topK, CrossEncoder(score));
      var ranked := SortByScore(ScoreAll(query, documents, score));
      r == Take(Docs(ranked), topK)
      && SortedDesc(ranked)
      && (forall v :: WithScore(ranked, v) == WithScore(ScoreAll(query, documents, score), v))
      && (forall i, j :: 0 <= i < j < |r| ==> score(query, r[i].content) >= score(query, r[j].content))
  {
    var scored := ScoreAll(query, documents, score);
    var ranked := SortByScore(scored);
    SortByScoreSpec(scored);
    RankedScores(query, documents, score);
    hide SortByScore, ScoreAll, WithScore, Insert;
    TakeDocsSorted(query, ranked, topK, score);
  }

  /** Every sorted entry carries the score of its own document. */
  lemma RankedScores(query: string, documents: seq<Doc>, score: (string, string) -> real)
    ensures forall k :: 0 <= k < |SortByScore(ScoreAll(query, documents, score))| ==>
      SortByScore(ScoreAll(query, documents, score))[k].1
      == score(query, SortByScore(ScoreAll(query, documents, score))[k].0.content)
  {
    var scored := ScoreAll(query, documents, score);
    var ranked := SortByScore(scored);
    SortByScoreSpec(scored);
    hide SortByScore, ScoreAll;
    forall k | 0 <= k < |ranked| ensures ranked[k].1 == score(query, ranked[k].0.content) {
      assert ranked[k] in multiset(scored);
    }
  }

  /** A prefix of the documents of a descending list is in descending order of their scores. */
  lemma TakeDocsSorted(query: string, ranked: seq<(Doc, real)>, topK: int, score: (string, string) -> real)
    requires SortedDesc(ranked)
    requires forall k :: 0 <= k < |ranked| ==> ranked[k].1 == score(query, ranked[k].0.content)
    ensures var r := Take(Docs(ranked), topK);
      forall i, j :: 0 <= i < j < |r| ==> score(query, r[i].content) >= score(query, r[j].content)
  {
    var r := Take(Docs(ranked), topK);
    forall i, j | 0 <= i < j < |r| ensures score(query, r[i].content) >= score(query, r[j].content) {
      assert r[i] == ranked[i].0 && r[j] == ranked[j].0;
    }
  }

  /**
   * Whatever the scorer, the result is at most `topK` long (for a
   * non-negative `topK`), at most as long as the input, and holds no
   * document more often than the input does.
   */
  lemma RerankBounds(query: string, documents: seq<Doc>, topK: int, scorer: Scorer)
    ensures var r := Rerank(query, documents, topK, scorer);
      |r| <= |documents| && (topK >= 0 ==> |r| <= topK)
      && multiset(r) <= multiset(documents)
      && (documents == [] ==> r == [])
  {
    var r := Rerank(query, documents, topK, scorer);
    if documents != [] && scorer.CrossEncoder? {
      var scored := ScoreAll(query, documents, scorer.score);
      var ranked := SortByScore(scored);
      SortByScoreDocs(scored);
      assert Docs(scored) == documents;
      var all := Docs(ranked);
      assert |multiset(all)| == |multiset(documents)|;
      assert r == Take(all, topK);
      hide SortByScore, ScoreAll, Docs, Rerank;
      TakeBounds(all, topK);
    } else if documents != [] {
      TakeBounds(documents, topK);
    }
  }

  /** A prefix holds no element more often than the whole. */
  lemma TakeBounds<T>(s: seq<T>, n: int)
    ensures multiset(Take(s, n)) <= multiset(s)
  {
    var r := Take(s, n);
    assert s == r + s[|r|..];
    assert multiset(s) == multiset(r) + multiset(s[|r|..]);
  }
}
