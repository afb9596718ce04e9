/**
 * Small string utilities: parsing the owner and repository out of a GitHub
 * URL with two regular expressions tried in order, truncation with an
 * ellipsis, whitespace cleaning, and the binary-extension test.
 *
 * The two patterns are `github\.com/([^/]+)/([^/]+?)(?:\.git)?/?$` and
 * `github\.com/([^/]+)/([^/]+?)(?:/tree/[^/]+)?/?$`, used with `re.search`.
 * They are modelled by what the backtracking matcher does with them: the
 * leftmost position where "github.com/" starts a match wins; the owner is
 * the whole run of non-"/" characters that follows (the greedy group must be
 * followed by "/"); the repository is the shortest non-empty run of non-"/"
 * characters after which the rest of the string matches the pattern's tail
 * (the lazy group); `$` matches at the end or before a final newline.
 */
module Helpers {
  import opened Wrappers
  import opened PyStr

  // ---------------------------------------------------------------------
  // extract_repo_info

  const Host: string := "github.com/"

  /** The two patterns, in the order they are tried; they differ only in their tail. */
  datatype Pattern = DotGitTail | TreeTail

  const Patterns: seq<Pattern> := [DotGitTail, TreeTail]

  predicate NoSlash(s: string)
  {
    forall i :: 0 <= i < |s| ==> s[i] != '/'
  }

  /** What `/?$` accepts. */
  predicate SlashEnd(r: string)
  {
    r == "" || r == "\n" || r == "/" || r == "/\n"
  }

  /** What `[^/]+/?$` accepts. */
  predicate BranchEnd(y: string)
  {
    exists m :: 1 <= m <= |y| && NoSlash(y[..m]) && SlashEnd(y[m..])
  }

  /** The rest of the string after the repository group matches the pattern's tail. */
  predicate TailMatches(pat: Pattern, r: string)
  {
    match pat
    case DotGitTail => SlashEnd(r) || (StartsWith(r, ".git") && SlashEnd(r[4..]))
    case TreeTail => SlashEnd(r) || (StartsWith(r, "/tree/") && BranchEnd(r[6..]))
  }

  /** The pattern's tail matches from position `i` of `s` to its end. */
  predicate TailAt(s: string, i: int, pat: Pattern)
  {
    0 <= i <= |s| && TailMatches(pat, s[i..])
  }

  /** The first "/" at or after `i`, or `|s|`. */
  function NextSlash(s: string, i: nat): (e: nat)
    requires i <= |s|
    ensures i <= e <= |s| && (e < |s| ==> s[e] == '/')
    ensures forall j :: i <= j < e ==> s[j] != '/'
    decreases |s| - i
  {
    if i == |s| || s[i] == '/' then i else NextSlash(s, i + 1)
  }

  /**
   * The end of the lazy repository group, which has already reached `i`:
   * the first position from `i` on where the tail matches, without crossing
   * a "/".
   */
  function LazyRepo(s: string, pat: Pattern, i: nat): (r: Option<nat>)
    requires i <= |s|
    ensures r.Some? ==> i <= r.value <= |s| && TailAt(s, r.value, pat)
    ensures r.Some? ==> forall j :: i <= j < r.value ==> s[j] != '/' && !TailAt(s, j, pat)
    decreases |s| - i
  {
    if TailAt(s, i, pat) then Some(i)
    else if i < |s| && s[i] != '/' then LazyRepo(s, pat, i + 1)
    else None
  }

  /** The (owner, repository) groups of a match of `pat` starting at `p`, if there is one. */
  function MatchAt(s: string, p: nat, pat: Pattern): Option<(string, string)>
    requires p <= |s|
  {
    if !HasAt(s, p, Host) then None
    else
      var o := p + |Host|;
      var e := NextSlash(s, o);
      if e == o || e == |s| then None
      else
        var q := e + 1;
        if q < |s| && s[q] != '/' then
          match LazyRepo(s, pat, q + 1)
          case Some(f) => Some((s[o..e], s[q..f]))
          case None => None
        else None
  }

  /** `re.search(pat, s)` from position `p` on: the match at the leftmost position that has one. */
  function SearchFrom(s: string, pat: Pattern, p: nat): Option<(string, string)>
    requires p <= |s|
    decreases |s| - p
  {
    var m := MatchAt(s, p, pat);
    if m.Some? then m else if p == |s| then None else SearchFrom(s, pat, p + 1)
  }

  function Search(s: string, pat: Pattern): Option<(string, string)>
  {
    SearchFrom(s, pat, 0)
  }

  /**
   * `extract_repo_info`: the patterns are tried in order and the groups of
   * the first one that matches are returned; when neither matches the URL is
   * rejected.
   */
  method ExtractRepoInfo(url: string) returns (r: Outcome<(string, string)>)
    ensures Search(url, DotGitTail).Some? ==> r == Success(Search(url, DotGitTail).value)
    ensures Search(url, DotGitTail).None? && Search(url, TreeTail).Some? ==> r == Success(Search(url, TreeTail).value)
    ensures Search(url, DotGitTail).None? && Search(url, TreeTail).None? ==>
      r == Failure("Could not parse GitHub URL: " + url)
  {
    assert Patterns[0] == DotGitTail && Patterns[1] == TreeTail;
    var i := 0;
    while i < |Patterns|
      invariant 0 <= i <= |Patterns|
      invariant forall j :: 0 <= j < i ==> Search(url, Patterns[j]).None?
    {
      var m := Search(url, Patterns[i]);
      if m.Some? {
        return Success(m.value);
      }
      i := i + 1;
    }
    return Failure("Could not parse GitHub URL: " + url);
  }

  /**
   * A match at `p` spells out "github.com/", the owner, "/" and the
   * repository there; owner and repository are non-empty and hold no "/";
   * the rest of the string matches the tail, and no shorter repository
   * would have let it match.
   */
  lemma MatchShape(s: string, p: nat, pat: Pattern)
    requires p <= |s| && MatchAt(s, p, pat).Some?
    ensures var (owner, repo) := MatchAt(s, p, pat).value;
      var q := p + |Host| + |owner| + 1;
      owner != [] && NoSlash(owner) && repo != [] && NoSlash(repo)
      && HasAt(s, p, Host) && HasAt(s, p + |Host|, owner) && HasAt(s, q - 1, "/") && HasAt(s, q, repo)
      && TailAt(s, q + |repo|, pat)
      && forall j :: q + 1 <= j < q + |repo| ==> !TailAt(s, j, pat)
  {
    hide NextSlash, LazyRepo, TailAt;
    var o := p + |Host|;
    var e := NextSlash(s, o);
    var q := e + 1;
    var f := LazyRepo(s, pat, q + 1).value;
    assert MatchAt(s, p, pat).value == (s[o..e], s[q..f]);
    assert s[e..e + 1] == [s[e]];
  }

  /** A search result is a match at some position. */
  lemma {:induction false} SearchFromFindsMatch(s: string, pat: Pattern, p: nat)
    requires p <= |s| && SearchFrom(s, pat, p).Some?
    ensures exists i :: p <= i <= |s| && MatchAt(s, i, pat) == SearchFrom(s, pat, p)
    decreases |s| - p
  {
    if MatchAt(s, p, pat).None? {
      SearchFromFindsMatch(s, pat, p + 1);
    }
  }

  /** A found (owner, repository) pair is non-empty, free of "/", and spelled out in the URL after "github.com/". */
  lemma SearchShape(s: string, pat: Pattern)
    requires Search(s, pat).Some?
    ensures var (owner, repo) := Search(s, pat).value;
      owner != [] && NoSlash(owner) && repo != [] && NoSlash(repo)
      && exists p :: HasAt(s, p, Host) && HasAt(s, p + |Host|, owner) && HasAt(s, p + |Host| + |owner| + 1, repo)
  {
    hide MatchAt, SearchFrom, NextSlash, LazyRepo, TailAt;
    SearchFromFindsMatch(s, pat, 0);
    var i :| 0 <= i <= |s| && MatchAt(s, i, pat) == Search(s, pat);
    MatchShape(s, i, pat);
    var (owner, repo) := Search(s, pat).value;
    assert HasAt(s, i, Host) && HasAt(s, i + |Host|, owner) && HasAt(s, i + |Host| + |owner| + 1, repo);
  }

  /** Every non-empty tail begins with "\n", "/" or ".". */
  lemma TailStart(pat: Pattern, r: string)
    requires TailMatches(pat, r) && r != []
    ensures r[0] == '\n' || r[0] == '/' || r[0] == '.'
  {
  }

  /** The search stops at a position where the pattern matches. */
  lemma SearchFromMatch(s: string, pat: Pattern, p: nat)
    requires p <= |s| && MatchAt(s, p, pat).Some?
    ensures SearchFrom(s, pat, p) == MatchAt(s, p, pat)
  {
  }

  /** Positions that do not start "github.com/" are skipped by the search. */
  lemma {:induction false} SearchSkips(s: string, pat: Pattern, p: nat, p': nat)
    requires p <= p' <= |s|
    requires forall i :: p <= i < p' ==> !HasAt(s, i, Host)
    ensures SearchFrom(s, pat, p) == SearchFrom(s, pat, p')
    decreases p' - p
  {
    if p < p' {
      SearchSkips(s, pat, p + 1, p');
    }
  }

  /** "github.com/" has its dot six characters in. */
  lemma HostDot(s: string, i: int)
    requires HasAt(s, i, Host)
    ensures s[i + 6] == '.'
  {
    assert s[i..i + 11][6] == Host[6];
  }

  /** Without a "." from `p + 6` on, nothing more is found. */
  lemma {:induction false} SearchNoDot(s: string, pat: Pattern, p: nat)
    requires p <= |s| && forall i :: p + 6 <= i < |s| ==> s[i] != '.'
    ensures SearchFrom(s, pat, p) == None
    decreases |s| - p
  {
    if HasAt(s, p, Host) {
      HostDot(s, p);
    }
    if p < |s| {
      SearchNoDot(s, pat, p + 1);
    }
  }

  /** `NextSlash` stops at the first "/". */
  lemma {:induction false} NextSlashStops(s: string, i: nat, e: nat)
    requires i <= e < |s| && s[e] == '/'
    requires forall j :: i <= j < e ==> s[j] != '/'
    ensures NextSlash(s, i) == e
    decreases e - i
  {
    if i < e {
      NextSlashStops(s, i + 1, e);
    }
  }

  /** The lazy group stops at the first position whose tail matches. */
  lemma {:induction false} LazyRepoStops(s: string, pat: Pattern, i: nat, stop: nat)
    requires i <= stop <= |s|
    requires forall j :: i <= j < stop ==> s[j] != '/' && !TailAt(s, j, pat)
    requires TailAt(s, stop, pat)
    ensures LazyRepo(s, pat, i) == Some(stop)
    decreases stop - i
  {
    if i < stop {
      LazyRepoStops(s, pat, i + 1, stop);
    }
  }

  /** The lazy group fails when it reaches a "/" without a matching tail. */
  lemma {:induction false} LazyRepoBlocked(s: string, pat: Pattern, i: nat, slash: nat)
    requires i <= slash < |s| && s[slash] == '/'
    requires forall j :: i <= j < slash ==> s[j] != '/'
    requires forall j :: i <= j <= slash ==> !TailAt(s, j, pat)
    ensures LazyRepo(s, pat, i) == None
    decreases slash - i
  {
    if i < slash {
      LazyRepoBlocked(s, pat, i + 1, slash);
    }
  }

  /** An owner or repository name made of characters other than "/", "." and newline. */
  predicate PlainName(n: string)
  {
    n != [] && forall i :: 0 <= i < |n| ==> n[i] != '/' && n[i] != '.' && n[i] != '\n'
  }

  /** "https://github.com/<owner>/<repo>" followed by the tail `t`. */
  function RepoUrl(owner: string, repo: string, t: string): string
  {
    "https://" + Host + owner + "/" + repo + t
  }

  /** Where the parts of a `RepoUrl` sit. */
  lemma RepoUrlLayout(owner: string, repo: string, t: string)
    ensures var s := RepoUrl(owner, repo, t);
      var q := 20 + |owner|;
      |s| == q + |repo| + |t|
      && (forall i :: 0 <= i < 8 ==> !HasAt(s, i, Host))
      && HasAt(s, 8, Host)
      && (forall j :: 19 <= j < 19 + |owner| ==> s[j] == owner[j - 19])
      && s[q - 1] == '/'
      && (forall j :: q <= j < q + |repo| ==> s[j] == repo[j - q])
      && s[q + |repo|..] == t
  {
    var s := RepoUrl(owner, repo, t);
    var q := 20 + |owner|;
    var w := owner + "/" + repo + t;
    assert s == "https://github.com/" + w;
    assert s[8..19] == Host;
    forall i | 0 <= i < 8 ensures !HasAt(s, i, Host) {
      if HasAt(s, i, Host) {
        HostDot(s, i);
      }
    }
    assert s[19..] == w;
    assert s[q + |repo|..] == w[|owner| + 1 + |repo|..];
  }

  /** With plain names, the tail cannot match inside the repository name. */
  lemma InsideNameNoTail(s: string, pat: Pattern, lo: nat, hi: nat)
    requires lo <= hi <= |s|
    requires forall j :: lo <= j < hi ==> s[j] != '/' && s[j] != '.' && s[j] != '\n'
    ensures forall j :: lo <= j < hi ==> !TailAt(s, j, pat)
  {
    forall j | lo <= j < hi ensures !TailAt(s, j, pat) {
      if TailAt(s, j, pat) {
        TailStart(pat, s[j..]);
      }
    }
  }

  /**
   * A string laid out as "https://github.com/<owner>/<repo>" and a rest on
   * which the tail matches yields (owner, repo).
   */
  lemma LaidOutMatch(s: string, owner: string, repo: string, pat: Pattern)
    requires PlainName(owner) && PlainName(repo)
    requires |s| >= 20 + |owner| + |repo|
    requires forall i :: 0 <= i < 8 ==> !HasAt(s, i, Host)
    requires HasAt(s, 8, Host)
    requires forall j :: 19 <= j < 19 + |owner| ==> s[j] == owner[j - 19]
    requires s[19 + |owner|] == '/'
    requires forall j :: 20 + |owner| <= j < 20 + |owner| + |repo| ==> s[j] == repo[j - 20 - |owner|]
    requires TailAt(s, 20 + |owner| + |repo|, pat)
    ensures Search(s, pat) == Some((owner, repo))
  {
    hide TailAt, NextSlash, LazyRepo, SearchFrom;
    var q := 20 + |owner|;
    SearchSkips(s, pat, 0, 8);
    NextSlashStops(s, 19, q - 1);
    InsideNameNoTail(s, pat, q + 1, q + |repo|);
    LazyRepoStops(s, pat, q + 1, q + |repo|);
    assert s[19..q - 1] == owner;
    assert s[q..q + |repo|] == repo;
    assert MatchAt(s, 8, pat) == Some((owner, repo));
    SearchFromMatch(s, pat, 8);
  }

  /** A `RepoUrl` whose tail matches the pattern yields (owner, repo). */
  lemma RepoUrlMatch(owner: string, repo: string, t: string, pat: Pattern)
    requires PlainName(owner) && PlainName(repo)
    requires TailMatches(pat, t)
    ensures Search(RepoUrl(owner, repo, t), pat) == Some((owner, repo))
  {
    RepoUrlLayout(owner, repo, t);
    LaidOutMatch(RepoUrl(owner, repo, t), owner, repo, pat);
  }

  /**
   * ".git" and a trailing "/" are left out of the repository group:
   * "https://github.com/<owner>/<repo>" followed by "", "/", ".git" or
   * ".git/" parses to (owner, repo) with the first pattern.
   */
  lemma DotGitUrlParses(owner: string, repo: string, t: string)
    requires PlainName(owner) && PlainName(repo)
    requires t == "" || t == "/" || t == ".git" || t == ".git/"
    ensures Search(RepoUrl(owner, repo, t), DotGitTail) == Some((owner, repo))
  {
    assert TailMatches(DotGitTail, t) by {
      if t == ".git" || t == ".git/" {
        assert t[..4] == ".git";
        assert t[4..] == "" || t[4..] == "/";
      }
    }
    RepoUrlMatch(owner, repo, t, DotGitTail);
  }

  /**
   * A branch URL "https://github.com/<owner>/<repo>/tree/<branch>" is not
   * matched by the first pattern and parses to (owner, repo) with the second.
   */
  lemma TreeUrlParses(owner: string, repo: string, branch: string)
    requires PlainName(owner) && PlainName(repo) && PlainName(branch)
    ensures Search(RepoUrl(owner, repo, "/tree/" + branch), DotGitTail) == None
    ensures Search(RepoUrl(owner, repo, "/tree/" + branch), TreeTail) == Some((owner, repo))
  {
    var t := "/tree/" + branch;
    assert TailMatches(TreeTail, t) by {
      assert t[..6] == "/tree/";
      assert t[6..] == branch;
      assert branch[..|branch|] == branch && branch[|branch|..] == "";
    }
    RepoUrlMatch(owner, repo, t, TreeTail);
    TreeUrlRejectsDotGit(owner, repo, branch);
  }

  /** The search moves past a position where the pattern does not match. */
  lemma SearchFromNoMatch(s: string, pat: Pattern, p: nat)
    requires p < |s| && MatchAt(s, p, pat).None?
    ensures SearchFrom(s, pat, p) == SearchFrom(s, pat, p + 1)
  {
  }

  /** In a branch URL the first pattern fails at "github.com/": the repository group runs into "/tree/". */
  lemma TreeUrlNoMatchAtHost(owner: string, repo: string, branch: string)
    requires PlainName(owner) && PlainName(repo) && PlainName(branch)
    ensures MatchAt(RepoUrl(owner, repo, "/tree/" + branch), 8, DotGitTail) == None
  {
    var t := "/tree/" + branch;
    var s := RepoUrl(owner, repo, t);
    var q := 20 + |owner|;
    RepoUrlLayout(owner, repo, t);
    hide RepoUrl, SearchFrom, NextSlash, LazyRepo;
    NextSlashStops(s, 19, q - 1);
    InsideNameNoTail(s, DotGitTail, q + 1, q + |repo|);
    assert s[q + |repo|] == '/';
    assert !TailAt(s, q + |repo|, DotGitTail) by {
      assert s[q + |repo|..] == t;
      assert t[1] == 't';
    }
    LazyRepoBlocked(s, DotGitTail, q + 1, q + |repo|);
  }

  /** A branch URL of plain names has no "." after "github". */
  lemma TreeUrlDotFree(owner: string, repo: string, branch: string)
    requires PlainName(owner) && PlainName(repo) && PlainName(branch)
    ensures forall i :: 15 <= i < |RepoUrl(owner, repo, "/tree/" + branch)| ==>
      RepoUrl(owner, repo, "/tree/" + branch)[i] != '.'
  {
    var t := "/tree/" + branch;
    var s := RepoUrl(owner, repo, t);
    var q := 20 + |owner|;
    RepoUrlLayout(owner, repo, t);
    hide RepoUrl;
    forall i | 15 <= i < |s| ensures s[i] != '.' {
      if 19 <= i < q + |repo| && i != q - 1 {
        if i < q - 1 {
          assert s[i] == owner[i - 19];
        } else {
          assert s[i] == repo[i - q];
        }
      } else if i >= q + |repo| + 6 {
        assert s[i] == t[i - q - |repo|] == branch[i - q - |repo| - 6];
      } else if i >= q + |repo| {
        assert s[i] == t[i - q - |repo|];
      } else if i < 19 {
        assert s[15..19] == "com/";
        assert s[i] == s[15..19][i - 15];
      }
    }
  }

  /** The first pattern finds nothing in a branch URL. */
  lemma TreeUrlRejectsDotGit(owner: string, repo: string, branch: string)
    requires PlainName(owner) && PlainName(repo) && PlainName(branch)
    ensures Search(RepoUrl(owner, repo, "/tree/" + branch), DotGitTail) == None
  {
    var s := RepoUrl(owner, repo, "/tree/" + branch);
    RepoUrlLayout(owner, repo, "/tree/" + branch);
    hide RepoUrl, MatchAt, SearchFrom;
    SearchSkips(s, DotGitTail, 0, 8);
    TreeUrlNoMatchAtHost(owner, repo, branch);
    SearchFromNoMatch(s, DotGitTail, 8);
    TreeUrlDotFree(owner, repo, branch);
    SearchNoDot(s, DotGitTail, 9);
  }

  // ---------------------------------------------------------------------
  // truncate_text, clean_text, is_binary_file

  /** `truncate_text`: text longer than `maxLength` is cut and ends in "...". */
  function TruncateText(text: string, maxLength: int): (r: string)
    ensures |text| <= maxLength ==> r == text
    ensures |text| > maxLength ==> EndsWith(r, "...") && StartsWith(text, r[..|r| - 3])
    ensures |text| > maxLength >= 3 ==> |r| == maxLength
  {
    if |text| <= maxLength then text else Take(text, maxLength - 3) + "..."
  }

  /** `re.sub(r"\s+", " ", s)`: every run of whitespace becomes one space. */
  function CollapseSpaces(s: string): string
    decreases |s|
  {
    if s == [] then []
    else if IsSpace(s[0]) then " " + CollapseSpaces(s[SkipSpaces(s, 0)..])
    else [s[0]] + CollapseSpaces(s[1..])
  }

  /**
   * The collapsed text holds only plain spaces and non-whitespace characters
   * of the input, never two spaces in a row, and starts with a space exactly
   * when the input starts with whitespace.
   */
  lemma {:induction false} CollapseSpacesShape(s: string)
    ensures var r := CollapseSpaces(s);
      && (forall i :: 0 <= i < |r| ==> r[i] == ' ' || (!IsSpace(r[i]) && r[i] in s))
      && (forall i :: 0 <= i && i + 1 < |r| ==> !(r[i] == ' ' && r[i + 1] == ' '))
      && (r != [] && s != [] ==> (r[0] == ' ' <==> IsSpace(s[0])))
    decreases |s|
  {
    if s != [] {
      var r := CollapseSpaces(s);
      var j := if IsSpace(s[0]) then SkipSpaces(s, 0) else 1;
      var rest := CollapseSpaces(s[j..]);
      CollapseSpacesShape(s[j..]);
      assert r == (if IsSpace(s[0]) then " " else [s[0]]) + rest;
      if IsSpace(s[0]) {
        assert rest != [] ==> rest[0] != ' ' by {
          if rest != [] {
            assert j < |s| && !IsSpace(s[j]);
          }
        }
      }
      forall i | 0 <= i < |rest| && rest[i] != ' ' ensures rest[i] in s {
        assert rest[i] in s[j..];
      }
      assert forall i :: 1 <= i < |r| ==> r[i] == rest[i - 1];
    }
  }

  /** `SkipSpaces` is determined by what it promises: the first non-whitespace index from `i` on. */
  lemma SkipSpacesUnique(s: string, i: nat, j: nat)
    requires i <= j <= |s|
    requires j < |s| ==> !IsSpace(s[j])
    requires forall k :: i <= k < j ==> IsSpace(s[k])
    ensures SkipSpaces(s, i) == j
  {
  }

  /**
   * Collapsing works run by run: a lone whitespace character becomes one
   * space and any other lone character stays, and a non-empty run of
   * whitespace becomes a single space.
   */
  lemma CollapseSpacesRun(a: string, x: char)
    ensures CollapseSpaces([x]) == if IsSpace(x) then " " else [x]
    ensures a != [] && IsBlank(a) ==> CollapseSpaces(a) == " "
  {
    assert [x][1..] == [];
    if IsSpace(x) {
      SkipSpacesUnique([x], 0, 1);
      assert [x][1..] == [];
    }
    if a != [] && IsBlank(a) {
      SkipSpacesUnique(a, 0, |a|);
      assert a[|a|..] == [];
    }
  }

  /** One unfolding of `CollapseSpaces`. */
  lemma CollapseSpacesStep(s: string)
    requires s != []
    ensures CollapseSpaces(s) == if IsSpace(s[0]) then " " + CollapseSpaces(s[SkipSpaces(s, 0)..])
                                 else [s[0]] + CollapseSpaces(s[1..])
  {
  }

  /**
   * The collapse of a concatenation is the collapse of each part whenever
   * the parts do not meet inside a run of whitespace.
   */
  lemma {:induction false} CollapseSpacesAppend(a: string, b: string)
    requires a == [] || b == [] || !IsSpace(a[|a| - 1]) || !IsSpace(b[0])
    ensures CollapseSpaces(a + b) == CollapseSpaces(a) + CollapseSpaces(b)
    decreases |a|
  {
    if a == [] {
      assert a + b == b;
    } else if !IsSpace(a[0]) {
      hide *;
      CollapseSpacesAppend(a[1..], b);
      CollapseAppendKept(a, b);
    } else {
      hide *;
      var j := SkipSpaces(a, 0);
      if j < |a| {
        CollapseAppendRun(a, b);
        CollapseSpacesAppend(a[j..], b);
        CollapseAppendSkipped(a, b, j);
      } else {
        CollapseAppendBlank(a, b);
      }
    }
  }

  /** The step of `CollapseSpacesAppend` for a first character that is kept. */
  lemma CollapseAppendKept(a: string, b: string)
    requires a != [] && !IsSpace(a[0])
    requires CollapseSpaces(a[1..] + b) == CollapseSpaces(a[1..]) + CollapseSpaces(b)
    ensures CollapseSpaces(a + b) == CollapseSpaces(a) + CollapseSpaces(b)
  {
    hide *;
    var ab := a + b;
    assert ab[0] == a[0];
    assert ab[1..] == a[1..] + b;
    CollapseSpacesStep(ab);
    CollapseSpacesStep(a);
  }

  /** The boundary condition carries over to what follows the leading whitespace. */
  lemma CollapseAppendRun(a: string, b: string)
    requires a != [] && IsSpace(a[0]) && SkipSpaces(a, 0) < |a|
    requires b == [] || !IsSpace(a[|a| - 1]) || !IsSpace(b[0])
    ensures var j := SkipSpaces(a, 0);
      0 < j && (a[j..] == [] || b == [] || !IsSpace(a[j..][|a[j..]| - 1]) || !IsSpace(b[0]))
  {
  }

  /** The step of `CollapseSpacesAppend` for a first run of whitespace that ends inside `a`. */
  lemma CollapseAppendSkipped(a: string, b: string, j: nat)
    requires a != [] && IsSpace(a[0]) && j == SkipSpaces(a, 0) && j < |a|
    requires CollapseSpaces(a[j..] + b) == CollapseSpaces(a[j..]) + CollapseSpaces(b)
    ensures CollapseSpaces(a + b) == CollapseSpaces(a) + CollapseSpaces(b)
  {
    hide *;
    var ab := a + b;
    assert ab[0] == a[0];
    CollapseSpacesSkip(a, b, j);
    CollapseSpacesStep(ab);
    CollapseSpacesStep(a);
    DropAppend(a, b, j);
  }

  /** The step of `CollapseSpacesAppend` for an `a` made only of whitespace. */
  lemma CollapseAppendBlank(a: string, b: string)
    requires a != [] && IsSpace(a[0]) && SkipSpaces(a, 0) == |a|
    requires b == [] || !IsSpace(a[|a| - 1]) || !IsSpace(b[0])
    ensures CollapseSpaces(a + b) == CollapseSpaces(a) + CollapseSpaces(b)
  {
    hide *;
    var ab := a + b;
    assert ab[0] == a[0];
    CollapseSpacesSkip(a, b, |a|);
    CollapseSpacesStep(ab);
    CollapseSpacesStep(a);
    DropAppend(a, b, |a|);
    assert a[|a|..] == [];
  }

  /** Dropping a prefix of the first part of a concatenation. */
  lemma DropAppend(a: string, b: string, j: nat)
    requires j <= |a|
    ensures (a + b)[j..] == a[j..] + b
  {
  }

  /** Skipping the leading whitespace of `a + b` stops where it stops in `a`, unless `a` is all whitespace. */
  lemma CollapseSpacesSkip(a: string, b: string, j: nat)
    requires a != [] && (j < |a| || b == [] || !IsSpace(a[|a| - 1]) || !IsSpace(b[0]))
    requires j == SkipSpaces(a, 0)
    ensures SkipSpaces(a + b, 0) == j
    ensures j == |a| ==> CollapseSpaces(a[j..]) == []
  {
    if j < |a| {
      SkipSpacesUnique(a + b, 0, j);
    } else {
      assert a[j..] == [];
      assert forall k :: 0 <= k < |a| ==> (a + b)[k] == a[k];
      SkipSpacesUnique(a + b, 0, |a|);
    }
  }

  /** `s.replace(c, "")` for one character. */
  function RemoveChar(s: string, c: char): (r: string)
    ensures forall i :: 0 <= i < |r| ==> r[i] != c && r[i] in s
    ensures |r| <= |s|
  {
    if s == [] then []
    else
      var rest := RemoveChar(s[1..], c);
      assert forall i :: 0 <= i < |rest| ==> rest[i] in s by {
        forall i | 0 <= i < |rest| ensures rest[i] in s {
          assert rest[i] in s[1..];
        }
      }
      if s[0] == c then rest else [s[0]] + rest
  }
  /**
   * Removal works character by character, in order: it distributes over
   * concatenation, drops a lone `c` and keeps any other lone character.
   */
  lemma {:induction false} RemoveCharFilter(a: string, b: string, c: char, x: char)
    ensures RemoveChar(a + b, c) == RemoveChar(a, c) + RemoveChar(b, c)
    ensures RemoveChar([x], c) == if x == c then [] else [x]
    decreases |a|
  {
    assert [x][1..] == [];
    if a == [] {
      assert a + b == b;
    } else {
      assert (a + b)[0] == a[0];
      assert (a + b)[1..] == a[1..] + b;
      RemoveCharFilter(a[1..], b, c, x);
    }
  }


  /**
   * `clean_text`: the result holds no NUL, no whitespace other than the
   * plain space, and no whitespace at either end.
   */
  function CleanText(text: string): (r: string)
    ensures forall i :: 0 <= i < |r| ==> r[i] != '\0'
    ensures forall i :: 0 <= i < |r| ==> r[i] == ' ' || !IsSpace(r[i])
    ensures r != [] ==> !IsSpace(r[0]) && !IsSpace(r[|r| - 1])
  {
    var collapsed := CollapseSpaces(text);
    CollapseSpacesShape(text);
    var noNul := RemoveChar(collapsed, '\0');
    SpacesStayPlain(collapsed, noNul);
    StripChars(noNul);
    Strip(noNul)
  }

  /** Characters drawn from a text whose only whitespace is " " have no other whitespace. */
  lemma SpacesStayPlain(from: string, s: string)
    requires forall i :: 0 <= i < |from| ==> from[i] == ' ' || !IsSpace(from[i])
    requires forall i :: 0 <= i < |s| ==> s[i] in from
    ensures forall i :: 0 <= i < |s| ==> s[i] == ' ' || !IsSpace(s[i])
  {
    forall i | 0 <= i < |s| ensures s[i] == ' ' || !IsSpace(s[i]) {
      var k :| 0 <= k < |from| && from[k] == s[i];
    }
  }

  /** Each character of `s.strip()` is the one at the same offset past the leading whitespace. */
  lemma StripChars(s: string)
    ensures forall i :: 0 <= i < |Strip(s)| ==> StripStart(s) + i < |s| && Strip(s)[i] == s[StripStart(s) + i]
  {
    var r := Strip(s);
    forall i | 0 <= i < |r| ensures StripStart(s) + i < |s| && r[i] == s[StripStart(s) + i] {
      assert r == s[StripStart(s)..StripEnd(s)];
    }
  }

  const BinaryExtensions: set<string> := {
    ".png", ".jpg", ".jpeg", ".gif", ".bmp", ".ico", ".svg",
    ".pdf", ".doc", ".docx", ".xls", ".xlsx", ".ppt", ".pptx",
    ".zip", ".tar", ".gz", ".rar", ".7z",
    ".exe", ".dll", ".so", ".dylib",
    ".mp3", ".mp4", ".wav", ".avi", ".mov",
    ".ttf", ".woff", ".woff2", ".eot",
    ".pyc", ".pyo", ".class", ".o"
  }

  /** The extension `is_binary_file` looks at: "." and the lower-cased text after the last dot, or "" without a dot. */
  function DotExtension(path: string): string
  {
    if Has(path, ".") then
      var parts := Split(path, '.');
      "." + Lower(parts[|parts| - 1])
    else ""
  }

  predicate IsBinaryFile(path: string)
  {
    DotExtension(path) in BinaryExtensions
  }

  /** A path without a dot is never binary. */
  lemma NoDotNotBinary(path: string)
    requires forall i :: 0 <= i < |path| ==> path[i] != '.'
    ensures !IsBinaryFile(path)
  {
    if Has(path, ".") {
      var i :| HasAt(path, i, ".");
      assert path[i..i + 1][0] == '.';
    }
  }

  /** The extension is the text after the last dot, compared lower-cased: "photo.PNG" is binary. */
  lemma {:induction false} ExtensionAfterLastDot(stem: string, ext: string)
    requires forall i :: 0 <= i < |ext| ==> ext[i] != '.'
    ensures DotExtension(stem + "." + ext) == "." + Lower(ext)
  {
    var path := stem + "." + ext;
    assert HasAt(path, |stem|, ".") by { assert path[|stem|..|stem| + 1] == "."; }
    assert path == stem + ['.'] + ext;
    SplitAppend(stem, '.', ext);
    SplitWithoutSeparator(ext, '.');
  }

  lemma PngIsBinary()
    ensures IsBinaryFile("photo.PNG")
  {
    hide DotExtension, Split, Lower;
    ExtensionAfterLastDot("photo", "PNG");
    assert "photo" + "." + "PNG" == "photo.PNG";
    var low := Lower("PNG");
    assert low[0] == 'p' && low[1] == 'n' && low[2] == 'g';
    assert low == "png";
    assert DotExtension("photo.PNG") == ".png";
    assert ".png" in BinaryExtensions;
  }
}
