/**
 * Heuristic answer verification: the confidence is the share of the
 * sources' distinct keywords that the answer also uses, and the agreement of
 * the sources is their mean pairwise Jaccard similarity of keyword sets.
 * Scores that are Python floats are exact reals here.
 */
module Verifier {
  import opened Wrappers
  import opened PyStr
  import opened Records

  datatype Verification = Verification(verified: bool, confidence: real, issues: seq<string>, sourceAgreement: real)

  const NoSources: string := "No sources available for verification"
  const LowConfidence: string := "Low confidence: answer may not align with sources"

  predicate IsAsciiLetter(c: char)
  {
    'a' <= c <= 'z' || 'A' <= c <= 'Z'
  }

  /**
   * A character `\w` matches in a Python 3 `str` pattern: "_" and every
   * Unicode letter or digit. Covered here: ASCII, the letters and numerals
   * of Latin-1, Latin Extended-A and -B, the Greek and Coptic letters and
   * the Cyrillic letters.
   */
  predicate IsWordChar(c: char)
  {
    IsAsciiLetter(c) || '0' <= c <= '9' || c == '_'
    || IsLatin1WordChar(c)
    || '\U{0100}' <= c <= '\U{024F}'
    || IsGreekLetter(c)
    || '\U{0400}' <= c <= '\U{0481}' || '\U{048A}' <= c <= '\U{052F}'
  }

  /** Latin-1 letters and numerals: ª ² ³ µ ¹ º ¼ ½ ¾ and À to ÿ except × and ÷. */
  predicate IsLatin1WordChar(c: char)
  {
    c == '\U{00AA}' || c == '\U{00B2}' || c == '\U{00B3}' || c == '\U{00B5}' || c == '\U{00B9}' || c == '\U{00BA}'
    || '\U{00BC}' <= c <= '\U{00BE}'
    || ('\U{00C0}' <= c <= '\U{00FF}' && c != '\U{00D7}' && c != '\U{00F7}')
  }

  /**
   * The word characters of the Greek and Coptic block: its assigned letters,
   * including the numeral sign U+0374, a modifier letter.
   */
  predicate IsGreekLetter(c: char)
  {
    '\U{0370}' <= c <= '\U{0374}' || c == '\U{0376}' || c == '\U{0377}' || '\U{037A}' <= c <= '\U{037D}' || c == '\U{037F}'
    || c == '\U{0386}' || '\U{0388}' <= c <= '\U{038A}' || c == '\U{038C}' || '\U{038E}' <= c <= '\U{03A1}'
    || ('\U{03A3}' <= c <= '\U{03FF}' && c != '\U{03F6}')
  }

  /** "abcd" followed by the Greek numeral sign: that sign is a word character, so no word boundary ends "abcd". */
  lemma GreekNumeralSignBlocksKeyword()
    ensures FindKeywords("abcd\U{0374}") == []
  {
  }

  /** "straße": the letter ß is a word character, so no word boundary falls after "stra" and nothing is found. */
  lemma NonAsciiLetterBlocksKeyword()
    ensures FindKeywords("stra\U{00DF}e") == []
  {
    var s := "stra\U{00DF}e";
    assert WordRun(s) == s by {
      assert WordRun(s[5..]) == s[5..];
      assert WordRun(s[4..]) == s[4..];
    }
    assert !IsKeyword(s) by {
      assert !IsAsciiLetter(s[4]);
    }
    assert s[6..] == [];
  }

  predicate NoUpper(s: string)
  {
    forall i :: 0 <= i < |s| ==> !('A' <= s[i] <= 'Z')
  }

  /** The maximal run of word characters at the start of `s`. */
  function WordRun(s: string): (w: string)
    ensures |w| <= |s| && w == s[..|w|]
    ensures forall i :: 0 <= i < |w| ==> IsWordChar(w[i])
    ensures |w| < |s| ==> !IsWordChar(s[|w|])
  {
    if s == [] || !IsWordChar(s[0]) then [] else [s[0]] + WordRun(s[1..])
  }

  /** Four or more ASCII letters. */
  predicate IsKeyword(w: string)
  {
    |w| >= 4 && forall i :: 0 <= i < |w| ==> IsAsciiLetter(w[i])
  }

  /**
   * `re.findall(r"\b[a-zA-Z]{4,}\b", s)`: a match must start and end at a
   * word boundary, so it is a whole run of word characters made only of
   * four or more ASCII letters.
   */
  function FindKeywords(s: string): (r: seq<string>)
    ensures forall k :: 0 <= k < |r| ==> IsKeyword(r[k])
    ensures NoUpper(s) ==> forall k :: 0 <= k < |r| ==> NoUpper(r[k])
    decreases |s|
  {
    if s == [] then []
    else if !IsWordChar(s[0]) then FindKeywords(s[1..])
    else
      var w := WordRun(s);
      (if IsKeyword(w) then [w] else []) + FindKeywords(s[|w|..])
  }

  /** The keywords `_extract_keywords` takes from one text: the first twenty of its lower-cased text. */
  function TextKeywords(text: string): (r: seq<string>)
    ensures |r| <= 20
    ensures forall k :: 0 <= k < |r| ==> IsKeyword(r[k]) && NoUpper(r[k])
  {
    var all := FindKeywords(Lower(text));
    Prefix(all, 20)
  }

  /** `_extract_keywords(texts)`: each text's keywords, in text order. */
  function AllKeywords(texts: seq<string>): (r: seq<string>)
    ensures |r| <= 20 * |texts|
    ensures forall k :: 0 <= k < |r| ==> IsKeyword(r[k]) && NoUpper(r[k])
  {
    if texts == [] then []
    else AllKeywords(texts[..|texts| - 1]) + TextKeywords(texts[|texts| - 1])
  }

  /** `_extract_keywords`: the loop extending the keyword list text by text. */
  method ExtractKeywords(texts: seq<string>) returns (keywords: seq<string>)
    ensures keywords == AllKeywords(texts)
  {
    keywords := [];
    var i := 0;
    while i < |texts|
      invariant 0 <= i <= |texts|
      invariant keywords == AllKeywords(texts[..i])
    {
      assert texts[..i + 1][..i] == texts[..i];
      var words := FindKeywords(Lower(texts[i]));
      keywords := keywords + Prefix(words, 20);
      i := i + 1;
    }
    assert texts[..|texts|] == texts;
  }

  function KeySet(ks: seq<string>): set<string>
  {
    set k | k in ks
  }

  /** The Jaccard similarity of two keyword sets, or nothing when both are empty. */
  function Jaccard(a: set<string>, b: set<string>): seq<real>
  {
    if |a + b| > 0 then [(|a * b| as real) / (|a + b| as real)] else []
  }

  /** The similarities of pair (i, j') for i < j' < j, in order of j'. */
  function RowSims(sets: seq<set<string>>, i: nat, j: nat): seq<real>
    requires i < |sets| && j <= |sets|
  {
    if j <= i + 1 then [] else RowSims(sets, i, j - 1) + Jaccard(sets[i], sets[j - 1])
  }

  /** The similarities of all pairs whose first index is below `i`, row by row. */
  function PairSims(sets: seq<set<string>>, i: nat): seq<real>
    requires i <= |sets|
  {
    if i == 0 then [] else PairSims(sets, i - 1) + RowSims(sets, i - 1, |sets|)
  }

  function Sum(xs: seq<real>): real
  {
    if xs == [] then 0.0 else Sum(xs[..|xs| - 1]) + xs[|xs| - 1]
  }

  /** `sum(xs) / len(xs) if xs else 0.0`. */
  function Mean(xs: seq<real>): real
  {
    if xs == [] then 0.0 else Sum(xs) / (|xs| as real)
  }

  function KeywordSets(contents: seq<string>): (r: seq<set<string>>)
    ensures |r| == |contents|
    ensures forall k :: 0 <= k < |r| ==> r[k] == KeySet(AllKeywords([contents[k]]))
  {
    seq(|contents|, k requires 0 <= k < |contents| => KeySet(AllKeywords([contents[k]])))
  }

  /**
   * `_calculate_agreement`: 1.0 for fewer than two sources, otherwise the
   * mean Jaccard similarity over the pairs whose union is not empty (0.0
   * when there is none). The source's test for an empty list of keyword sets
   * cannot succeed once there are two sources, and is left out.
   */
  function Agreement(contents: seq<string>): real
  {
    if |contents| < 2 then 1.0
    else
      var sets := KeywordSets(contents);
      Mean(PairSims(sets, |sets|))
  }

  /** `_calculate_agreement`: the nested loops over pairs (i, j) with i < j. */
  method CalculateAgreement(contents: seq<string>) returns (r: real)
    ensures r == Agreement(contents)
  {
    hide KeywordSets, AllKeywords, KeySet, Sum, PairSims, RowSims;
    if |contents| < 2 {
      return 1.0;
    }
    var sets := KeywordSets(contents);
    var similarities: seq<real> := [];
    var i := 0;
    PairSimsStart(sets);
    while i < |sets|
      invariant 0 <= i <= |sets|
      invariant similarities == PairSims(sets, i)
    {
      similarities := AppendRow(sets, i, similarities);
      PairSimsStep(sets, i + 1);
      i := i + 1;
    }
    r := if similarities != [] then Sum(similarities) / (|similarities| as real) else 0.0;
  }

  /** The inner loop of `_calculate_agreement`: the similarities of row `i` appended. */
  method AppendRow(sets: seq<set<string>>, i: nat, similarities: seq<real>) returns (s: seq<real>)
    requires i < |sets|
    ensures s == similarities + RowSims(sets, i, |sets|)
  {
    hide RowSims, Jaccard;
    s := similarities;
    var j := i + 1;
    RowSimsStart(sets, i);
    while j < |sets|
      invariant i + 1 <= j <= |sets|
      invariant s == similarities + RowSims(sets, i, j)
    {
      var intersection := |sets[i] * sets[j]|;
      var union := |sets[i] + sets[j]|;
      RowSimsStep(sets, i, j);
      JaccardIs(sets[i], sets[j]);
      if union > 0 {
        s := s + [(intersection as real) / (union as real)];
      }
      j := j + 1;
    }
  }

  lemma JaccardIs(a: set<string>, b: set<string>)
    ensures |a + b| > 0 ==> Jaccard(a, b) == [(|a * b| as real) / (|a + b| as real)]
    ensures |a + b| == 0 ==> Jaccard(a, b) == []
  {
  }

  lemma RowSimsStart(sets: seq<set<string>>, i: nat)
    requires i < |sets|
    ensures RowSims(sets, i, i + 1) == []
  {
  }

  lemma RowSimsStep(sets: seq<set<string>>, i: nat, j: nat)
    requires i < j < |sets|
    ensures RowSims(sets, i, j + 1) == RowSims(sets, i, j) + Jaccard(sets[i], sets[j])
  {
  }

  lemma PairSimsStart(sets: seq<set<string>>)
    ensures PairSims(sets, 0) == []
  {
  }

  lemma InUnitEmpty()
    ensures InUnit([])
  {
  }

  lemma PairSimsStep(sets: seq<set<string>>, i: nat)
    requires 0 < i <= |sets|
    ensures PairSims(sets, i) == PairSims(sets, i - 1) + RowSims(sets, i - 1, |sets|)
  {
  }

  /**
   * The share of the sources' distinct keywords found among the answer's,
   * or 0.8 when the sources have no keyword.
   */
  function Confidence(answer: string, contents: seq<string>): real
  {
    var sourceSet := KeySet(AllKeywords(contents));
    var answerSet := KeySet(AllKeywords([answer]));
    if |sourceSet| > 0 then (|sourceSet * answerSet| as real) / (|sourceSet| as real) else 0.8
  }

  /**
   * `verify`: without sources the answer is unverified with confidence 0;
   * otherwise the agreement and the confidence are computed, and a
   * confidence below 0.5 marks the answer unverified with one issue.
   */
  method Verify(answer: string, sources: seq<Doc>, query: string) returns (v: Verification)
    ensures sources == [] ==> v == Verification(false, 0.0, [NoSources], 0.0)
    ensures sources != [] ==>
      v.sourceAgreement == Agreement(Contents(sources))
      && v.confidence == Confidence(answer, Contents(sources))
      && (v.verified <==> v.confidence >= 0.5)
      && v.issues == (if v.confidence < 0.5 then [LowConfidence] else [])
  {
    v := Verification(true, 0.8, [], 0.0);
    if sources == [] {
      v := v.(verified := false, confidence := 0.0, issues := v.issues + [NoSources]);
      return;
    }
    var sourceContents := Contents(sources);
    var agreementScore := CalculateAgreement(sourceContents);
    v := v.(sourceAgreement := agreementScore);
    var sourceKeywords := ExtractKeywords(sourceContents);
    var answerKeywords := ExtractKeywords([answer]);
    var overlap := |KeySet(sourceKeywords) * KeySet(answerKeywords)|;
    var total := |KeySet(sourceKeywords)|;
    if total > 0 {
      v := v.(confidence := (overlap as real) / (total as real));
    }
    if v.confidence < 0.5 {
      v := v.(verified := false, issues := v.issues + [LowConfidence]);
    }
  }

  /** A ratio of a part to a non-empty whole lies in [0, 1]. */
  lemma RatioBounds(part: nat, whole: nat)
    requires part <= whole && whole > 0
    ensures 0.0 <= (part as real) / (whole as real) <= 1.0
  {
  }

  /** The share of `s` that lies in `a` is in [0, 1]; it is 1 when `s` lies inside `a` and 0 when they are disjoint. */
  lemma ShareBounds(s: set<string>, a: set<string>)
    requires |s| > 0
    ensures var q := (|s * a| as real) / (|s| as real);
      0.0 <= q <= 1.0 && (s <= a ==> q == 1.0) && (s !! a ==> q == 0.0)
  {
    SubsetCard(s * a, s);
    RatioBounds(|s * a|, |s|);
    if s <= a {
      assert s * a == s;
    }
    if s !! a {
      assert s * a == {};
      assert |s * a| == 0;
    }
  }

  /** The confidence lies in [0, 1]; it is 1 when the answer uses every source keyword and 0 when it uses none. */
  lemma ConfidenceBounds(answer: string, contents: seq<string>)
    ensures 0.0 <= Confidence(answer, contents) <= 1.0
    ensures var s := KeySet(AllKeywords(contents));
      var a := KeySet(AllKeywords([answer]));
      |s| > 0 ==> (s <= a ==> Confidence(answer, contents) == 1.0) && (s !! a ==> Confidence(answer, contents) == 0.0)
  {
    var s := KeySet(AllKeywords(contents));
    var a := KeySet(AllKeywords([answer]));
    if |s| > 0 {
      ShareBounds(s, a);
    }
  }

  lemma JaccardBounds(a: set<string>, b: set<string>)
    ensures |Jaccard(a, b)| <= 1
    ensures forall k :: 0 <= k < |Jaccard(a, b)| ==> 0.0 <= Jaccard(a, b)[k] <= 1.0
  {
    SubsetCard(a * b, a + b);
    if |a + b| > 0 {
      RatioBounds(|a * b|, |a + b|);
    }
  }

  predicate InUnit(xs: seq<real>)
  {
    forall k :: 0 <= k < |xs| ==> 0.0 <= xs[k] <= 1.0
  }

  lemma InUnitAppend(a: seq<real>, b: seq<real>)
    requires InUnit(a) && InUnit(b)
    ensures InUnit(a + b)
  {
    forall k | 0 <= k < |a + b| ensures 0.0 <= (a + b)[k] <= 1.0 {
      if k >= |a| {
        assert (a + b)[k] == b[k - |a|];
      }
    }
  }

  lemma {:induction false} RowSimsInUnit(sets: seq<set<string>>, i: nat, j: nat)
    requires i < |sets| && j <= |sets|
    ensures InUnit(RowSims(sets, i, j))
    decreases j
  {
    if j > i + 1 {
      RowSimsInUnit(sets, i, j - 1);
      JaccardBounds(sets[i], sets[j - 1]);
      InUnitAppend(RowSims(sets, i, j - 1), Jaccard(sets[i], sets[j - 1]));
    }
  }

  lemma {:induction false} PairSimsInUnit(sets: seq<set<string>>, i: nat)
    requires i <= |sets|
    ensures InUnit(PairSims(sets, i))
  {
    hide PairSims, RowSims, InUnit;
    if i == 0 {
      PairSimsStart(sets);
      InUnitEmpty();
    } else {
      PairSimsStep(sets, i);
      PairSimsInUnit(sets, i - 1);
      RowSimsInUnit(sets, i - 1, |sets|);
      InUnitAppend(PairSims(sets, i - 1), RowSims(sets, i - 1, |sets|));
    }
  }

  lemma {:induction false} SumBounds(xs: seq<real>)
    requires InUnit(xs)
    ensures 0.0 <= Sum(xs) <= |xs| as real
  {
    if xs != [] {
      var init := xs[..|xs| - 1];
      assert InUnit(init) by {
        forall k | 0 <= k < |init| ensures 0.0 <= init[k] <= 1.0 {
          assert init[k] == xs[k];
        }
      }
      SumBounds(init);
    }
  }

  lemma MeanBounds(xs: seq<real>)
    requires InUnit(xs)
    ensures 0.0 <= Mean(xs) <= 1.0
  {
    if xs != [] {
      SumBounds(xs);
      var n := |xs| as real;
      assert Sum(xs) / n <= n / n;
    }
  }

  /** The agreement of the sources lies in [0, 1]. */
  lemma AgreementBounds(contents: seq<string>)
    ensures 0.0 <= Agreement(contents) <= 1.0
  {
    if |contents| >= 2 {
      var sets := KeywordSets(contents);
      PairSimsInUnit(sets, |sets|);
      MeanBounds(PairSims(sets, |sets|));
    }
  }

  /** Two sources with the same non-empty keyword set agree fully. */
  lemma IdenticalSourcesAgree(c: string)
    requires AllKeywords([c]) != []
    ensures Agreement([c, c]) == 1.0
  {
    var sets := KeywordSets([c, c]);
    var s := sets[0];
    assert AllKeywords([c])[0] in s;
    hide KeywordSets, AllKeywords, KeySet, PairSims, RowSims, Jaccard, Sum;
    assert |sets| == 2 && sets[1] == s;
    SelfJaccard(s);
    TwoPairSims(sets);
    assert PairSims(sets, |sets|) == [1.0];
    SumOne();
    assert Mean([1.0]) == 1.0;
    assert Agreement([c, c]) == Mean(PairSims(sets, |sets|));
  }

  /** A non-empty set is fully similar to itself. */
  lemma SelfJaccard(s: set<string>)
    requires |s| > 0
    ensures Jaccard(s, s) == [1.0]
  {
    assert s * s == s && s + s == s;
    assert (|s| as real) / (|s| as real) == 1.0;
  }

  /** With two sources there is the one pair (0, 1). */
  lemma TwoPairSims(sets: seq<set<string>>)
    requires |sets| == 2
    ensures PairSims(sets, 2) == Jaccard(sets[0], sets[1])
  {
    hide Jaccard;
    assert RowSims(sets, 0, 1) == [];
    assert RowSims(sets, 0, 2) == Jaccard(sets[0], sets[1]);
    assert RowSims(sets, 1, 2) == [];
    assert PairSims(sets, 1) == Jaccard(sets[0], sets[1]);
  }

  lemma SumOne()
    ensures Sum([1.0]) == 1.0
  {
    assert [1.0][..0] == [];
  }
}
