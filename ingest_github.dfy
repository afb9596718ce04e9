/**
 * Ingestion of a public GitHub repository. Cloning and the directory walk
 * are outside the model: the clone is given as its outcome, and a successful
 * clone as the list of its files in the order the walk visits them, each
 * with the directories leading to it, its size and its text (or `None` when
 * it cannot be read).
 */
module IngestGithub {
  import opened Wrappers
  import opened PyStr
  import opened Records
  import opened Config
  import opened Chunker

  const CodeExtensions: set<string> := {
    ".py", ".js", ".jsx", ".ts", ".tsx", ".java", ".go", ".rs",
    ".cpp", ".c", ".h", ".hpp", ".rb", ".php", ".swift", ".kt",
    ".scala", ".cs", ".vue", ".svelte"
  }

  const DocExtensions: set<string> := {".md", ".txt", ".rst", ".mdx"}

  /** Directories the walk does not descend into. */
  const SkipDirs: set<string> := {
    "node_modules", ".git", "__pycache__", ".venv", "venv",
    "dist", "build", ".next", ".nuxt", "target", "bin", "obj",
    ".idea", ".vscode", "coverage", ".pytest_cache"
  }

  /** Files larger than this many bytes are skipped (500 KB). */
  const MaxFileSize: int := 500 * 1024

  const InvalidUrl: string := "Invalid GitHub URL. Must start with https://github.com/"
  const NoFiles: string := "No processable files found in repository"

  /** A file of the cloned repository. */
  datatype RepoFile = RepoFile(dirs: seq<string>, name: string, size: int, content: Option<string>)

  predicate IsGithubUrl(url: string)
  {
    StartsWith(url, "https://github.com/") || StartsWith(url, "http://github.com/")
  }

  /** `s.rstrip(c)`: `s` without its trailing run of `c`. */
  function RStrip(s: string, c: char): (r: string)
    ensures |r| <= |s| && r == s[..|r|]
    ensures r == [] || r[|r| - 1] != c
    ensures forall i :: |r| <= i < |s| ==> s[i] == c
  {
    if s != [] && s[|s| - 1] == c then RStrip(s[..|s| - 1], c) else s
  }

  /** `url.rstrip("/").split("/")[-1].replace(".git", "")`. */
  function RepoName(url: string): (r: string)
  {
    var parts := Split(RStrip(url, '/'), '/');
    Replace(parts[|parts| - 1], ".git", "")
  }

  /** `Path(name).suffix`: from the last dot on, unless that dot starts or ends the name. */
  function Suffix(name: string): (r: string)
    ensures r == [] || (|r| >= 2 && r[0] == '.' && EndsWith(name, r) && |r| < |name|)
    ensures r != [] ==> forall i :: 1 <= i < |r| ==> r[i] != '.'
  {
    var i := RFind(name, ".", 0, |name|);
    if 0 < i < |name| - 1 then
      assert forall j :: i < j < |name| ==> name[j] != '.' by {
        forall j | i < j < |name| ensures name[j] != '.' {
          assert !HasAt(name, j, ".");
          assert name[j..j + 1] == [name[j]];
        }
      }
      assert name[i..i + 1] == ".";
      name[i..]
    else []
  }

  /** A name ending in a dot and a dot-free extension has that extension as its suffix ("main.py" has ".py"). */
  lemma SuffixOf(stem: string, ext: string)
    requires stem != [] && |ext| >= 2 && ext[0] == '.'
    requires forall i :: 1 <= i < |ext| ==> ext[i] != '.'
    ensures Suffix(stem + ext) == ext
  {
    var name := stem + ext;
    var r := RFind(name, ".", 0, |name|);
    assert HasAt(name, |stem|, ".") by { assert name[|stem|..|stem| + 1] == [ext[0]]; }
    forall j | |stem| < j < |name| ensures !HasAt(name, j, ".") {
      assert name[j] == ext[j - |stem|];
      assert j + 1 <= |name| ==> name[j..j + 1] == [name[j]];
    }
    assert name[|stem|..] == ext;
  }

  /** A name whose only dot is its first character (".gitignore") has no suffix. */
  lemma DotfileHasNoSuffix(name: string)
    requires |name| >= 1 && name[0] == '.'
    requires forall i :: 1 <= i < |name| ==> name[i] != '.'
    ensures Suffix(name) == []
  {
    var r := RFind(name, ".", 0, |name|);
  }

  /** The file's path relative to the repository root. */
  function RelativePath(f: RepoFile): string
  {
    Join(f.dirs + [f.name], "/")
  }

  /** The walk reaches the file: no directory on its path is a skipped one. */
  predicate Visited(f: RepoFile)
  {
    forall k :: 0 <= k < |f.dirs| ==> f.dirs[k] !in SkipDirs
  }

  /** `Path(file).suffix.lower()`. */
  function Extension(f: RepoFile): string
  {
    Lower(Suffix(f.name))
  }

  /** The tags every chunk of the file receives. */
  function GithubTags(sourceId: string, repoName: string, relativePath: string): (r: Metadata)
    ensures r.Keys == {"source_id", "source_name", "source_type", "file_path"}
    ensures r["source_id"] == MStr(sourceId) && r["source_name"] == MStr(repoName)
    ensures r["source_type"] == MStr("github") && r["file_path"] == MStr(relativePath)
  {
    SourceTags(sourceId, repoName, "github")["file_path" := MStr(relativePath)]
  }

  /** The file is chunked: reached by the walk, small enough, of a code or documentation kind, readable and not blank. */
  predicate Processable(f: RepoFile)
  {
    Visited(f) && f.size <= MaxFileSize
    && (Extension(f) in CodeExtensions || Extension(f) in DocExtensions)
    && f.content.Some? && !IsBlank(f.content.value)
  }

  /** The chunks one file contributes. */
  function FileChunks(f: RepoFile, sourceId: string, repoName: string, settings: Settings): seq<Chunk>
    requires ValidWindow(settings.maxChunkSize, settings.chunkOverlap)
  {
    if !Processable(f) then []
    else if Extension(f) in CodeExtensions then
      TagAll(CodeChunks(f.content.value, RelativePath(f), settings.maxChunkSize, false),
             GithubTags(sourceId, repoName, RelativePath(f)))
    else
      TagAll(TextChunks(f.content.value, settings.maxChunkSize, settings.chunkOverlap),
             GithubTags(sourceId, repoName, RelativePath(f)))
  }

  /** The chunks of all files, in walk order. */
  function RepoChunks(files: seq<RepoFile>, sourceId: string, repoName: string, settings: Settings): seq<Chunk>
    requires ValidWindow(settings.maxChunkSize, settings.chunkOverlap)
  {
    if files == [] then []
    else RepoChunks(files[..|files| - 1], sourceId, repoName, settings)
         + FileChunks(files[|files| - 1], sourceId, repoName, settings)
  }

  /**
   * `ingest_github_repo`: the URL is checked before anything else; a failed
   * clone propagates its error; every file the walk reaches is filtered by
   * size and extension, code files are chunked by `chunk_code`, documentation
   * by `chunk_text`, files that cannot be read are skipped, and a repository
   * that yields no chunk is rejected.
   */
  method IngestGithubRepo(url: string, clone: Outcome<seq<RepoFile>>, sourceId: string, settings: Settings)
    returns (r: Outcome<(string, int)>, stored: seq<Chunk>)
    requires ValidWindow(settings.maxChunkSize, settings.chunkOverlap)
    ensures !IsGithubUrl(url) ==> r == Failure(InvalidUrl) && stored == []
    ensures IsGithubUrl(url) && clone.Failure? ==> r == Failure(clone.error) && stored == []
    ensures IsGithubUrl(url) && clone.Success? ==>
      var all := RepoChunks(clone.value, sourceId, RepoName(url), settings);
      (all == [] ==> r == Failure(NoFiles) && stored == [])
      && (all != [] ==> r == Success((sourceId, |all|)) && stored == all)
  {
    hide RepoChunks, FileChunks, RepoName;
    if !(StartsWith(url, "https://github.com/") || StartsWith(url, "http://github.com/")) {
      return Failure(InvalidUrl), [];
    }
    var repoName := RepoName(url);
    if clone.Failure? {
      return Failure(clone.error), [];
    }
    var files := clone.value;
    var all: seq<Chunk> := [];
    RepoChunksStep(files[..0], sourceId, repoName, settings);
    var i := 0;
    while i < |files|
      invariant 0 <= i <= |files|
      invariant all == RepoChunks(files[..i], sourceId, repoName, settings)
    {
      RepoChunksStep(files[..i + 1], sourceId, repoName, settings);
      assert files[..i + 1][..i] == files[..i];
      var chunks := ProcessFile(files[i], sourceId, repoName, settings);
      all := all + chunks;
      i := i + 1;
    }
    assert files[..|files|] == files;
    if all == [] {
      return Failure(NoFiles), [];
    }
    stored := all;
    r := Success((sourceId, |all|));
  }

  /**
   * One file of the walk: skipped unless it is small enough and of a code or
   * documentation kind and has readable, non-blank text; code is chunked by
   * `chunk_code`, documentation by `chunk_text`, and every chunk is tagged.
   */
  method ProcessFile(f: RepoFile, sourceId: string, repoName: string, settings: Settings) returns (chunks: seq<Chunk>)
    requires ValidWindow(settings.maxChunkSize, settings.chunkOverlap)
    ensures chunks == FileChunks(f, sourceId, repoName, settings)
  {
    hide TextChunks, CodeChunks, TagAll, GithubTags, RelativePath, Lower, Suffix;
    chunks := [];
    if Visited(f) && f.size <= MaxFileSize {
      var ext := Lower(Suffix(f.name));
      var relativePath := RelativePath(f);
      if ext in CodeExtensions {
        if f.content.Some? && Strip(f.content.value) != [] {
          chunks := ChunkCode(f.content.value, relativePath, None, settings);
          chunks := TagChunks(chunks, GithubTags(sourceId, repoName, relativePath));
        }
      } else if ext in DocExtensions {
        if f.content.Some? && Strip(f.content.value) != [] {
          chunks := ChunkText(f.content.value, None, None, settings);
          chunks := TagChunks(chunks, GithubTags(sourceId, repoName, relativePath));
        }
      }
    }
  }

  lemma RepoChunksStep(files: seq<RepoFile>, sourceId: string, repoName: string, settings: Settings)
    requires ValidWindow(settings.maxChunkSize, settings.chunkOverlap)
    ensures files == [] ==> RepoChunks(files, sourceId, repoName, settings) == []
    ensures files != [] ==>
      RepoChunks(files, sourceId, repoName, settings)
      == RepoChunks(files[..|files| - 1], sourceId, repoName, settings)
         + FileChunks(files[|files| - 1], sourceId, repoName, settings)
  {
  }

  /** The chunk is tagged as coming from file number `i` of the repository, and that file is processable. */
  predicate FromFile(c: Chunk, files: seq<RepoFile>, i: int, sourceId: string, repoName: string)
  {
    0 <= i < |files| && Processable(files[i])
    && HasTag(c, "source_id", MStr(sourceId))
    && HasTag(c, "source_name", MStr(repoName))
    && HasTag(c, "source_type", MStr("github"))
    && HasTag(c, "file_path", MStr(RelativePath(files[i])))
  }

  /** The chunk is tagged as coming from some processable file of the repository. */
  ghost predicate FromSomeFile(c: Chunk, files: seq<RepoFile>, sourceId: string, repoName: string)
  {
    exists i :: FromFile(c, files, i, sourceId, repoName)
  }

  /** Every chunk of a file carries the file's tags, and only a processable file has chunks. */
  lemma FileChunksTagged(f: RepoFile, sourceId: string, repoName: string, settings: Settings)
    requires ValidWindow(settings.maxChunkSize, settings.chunkOverlap)
    ensures FileChunks(f, sourceId, repoName, settings) != [] ==> Processable(f)
    ensures forall k :: 0 <= k < |FileChunks(f, sourceId, repoName, settings)| ==>
      FromFile(FileChunks(f, sourceId, repoName, settings)[k], [f], 0, sourceId, repoName)
  {
  }

  /**
   * Every stored chunk comes from a file the walk reaches, of at most 500 KB,
   * with a code or documentation extension and non-blank readable text, and
   * is tagged with the source id, the repository name, the kind "github" and
   * that file's relative path.
   */
  lemma {:induction false} RepoChunksFromProcessableFiles(files: seq<RepoFile>, sourceId: string, repoName: string, settings: Settings)
    requires ValidWindow(settings.maxChunkSize, settings.chunkOverlap)
    ensures forall k :: 0 <= k < |RepoChunks(files, sourceId, repoName, settings)| ==>
      FromSomeFile(RepoChunks(files, sourceId, repoName, settings)[k], files, sourceId, repoName)
  {
    hide RepoChunks, FileChunks, Processable;
    RepoChunksStep(files, sourceId, repoName, settings);
    if files != [] {
      var init := files[..|files| - 1];
      var n := |files|;
      RepoChunksFromProcessableFiles(init, sourceId, repoName, settings);
      FileChunksTagged(files[n - 1], sourceId, repoName, settings);
      var a := RepoChunks(init, sourceId, repoName, settings);
      var b := FileChunks(files[n - 1], sourceId, repoName, settings);
      var all := a + b;
      assert all == RepoChunks(files, sourceId, repoName, settings);
      forall k | 0 <= k < |all|
        ensures FromSomeFile(all[k], files, sourceId, repoName)
      {
        if k < |a| {
          assert all[k] == a[k];
          assert FromSomeFile(a[k], init, sourceId, repoName);
          var i :| FromFile(a[k], init, i, sourceId, repoName);
          assert files[i] == init[i];
          assert FromFile(all[k], files, i, sourceId, repoName);
        } else {
          assert all[k] == b[k - |a|];
          assert FromFile(b[k - |a|], [files[n - 1]], 0, sourceId, repoName);
          assert FromFile(all[k], files, n - 1, sourceId, repoName);
        }
      }
    }
  }

  /** A file under a skipped directory contributes nothing, whatever its kind. */
  lemma SkippedDirectoryContributesNothing(f: RepoFile, k: nat, sourceId: string, repoName: string, settings: Settings)
    requires ValidWindow(settings.maxChunkSize, settings.chunkOverlap)
    requires k < |f.dirs| && f.dirs[k] in SkipDirs
    ensures FileChunks(f, sourceId, repoName, settings) == []
  {
  }

  /** Deleting the text ".git" leaves no character that was not already there. */
  lemma {:induction false} ReplaceKeepsAbsent(s: string, pat: string, c: char)
    requires pat != [] && forall i :: 0 <= i < |s| ==> s[i] != c
    ensures forall i :: 0 <= i < |Replace(s, pat, "")| ==> Replace(s, pat, "")[i] != c
    decreases |s|
  {
    if |s| >= |pat| {
      if StartsWith(s, pat) {
        ReplaceKeepsAbsent(s[|pat|..], pat, c);
      } else {
        ReplaceKeepsAbsent(s[1..], pat, c);
      }
    }
  }

  /** The repository name is a single path segment: it holds no "/". */
  lemma RepoNameIsOneSegment(url: string)
    ensures forall i :: 0 <= i < |RepoName(url)| ==> RepoName(url)[i] != '/'
  {
    var parts := Split(RStrip(url, '/'), '/');
    ReplaceKeepsAbsent(parts[|parts| - 1], ".git", '/');
  }

  /** Characters before the first character of the pattern are copied unchanged. */
  lemma {:induction false} ReplaceSkips(s: string, t: string, pat: string, rep: string)
    requires pat != [] && forall i :: 0 <= i < |s| ==> s[i] != pat[0]
    ensures Replace(s + t, pat, rep) == s + Replace(t, pat, rep)
    decreases |s|
  {
    hide Replace;
    if s != [] {
      var st := s + t;
      if |st| < |pat| {
        ReplaceStep(st, pat, rep);
        ReplaceStep(t, pat, rep);
      } else {
        assert !StartsWith(st, pat) by {
          assert st[0] == s[0] != pat[0];
        }
        ReplaceStep(st, pat, rep);
        assert st[1..] == s[1..] + t;
        ReplaceSkips(s[1..], t, pat, rep);
        var rt := Replace(t, pat, rep);
        assert [s[0]] + (s[1..] + rt) == s + rt;
      }
    } else {
      assert s + t == t;
    }
  }

  /** Trailing separators are all removed, and nothing before them. */
  lemma {:induction false} RStripTrailing(x: string, n: nat, c: char)
    requires x != [] && x[|x| - 1] != c
    ensures RStrip(x + seq(n, _ => c), c) == x
    decreases n
  {
    if n > 0 {
      assert (x + seq(n, _ => c))[..|x| + n - 1] == x + seq(n - 1, _ => c);
      RStripTrailing(x, n - 1, c);
    }
  }

  /** The last "/"-segment of "<prefix>/<body>" is `body` when `body` holds no "/". */
  lemma LastSegment(prefix: string, body: string)
    requires forall i :: 0 <= i < |body| ==> body[i] != '/'
    ensures var parts := Split(prefix + "/" + body, '/');
      parts[|parts| - 1] == body
  {
    SplitAppend(prefix, '/', body);
    SplitWithoutSeparator(body, '/');
    assert prefix + "/" + body == prefix + ['/'] + body;
  }

  /** Deleting ".git" from "<name>" or "<name>.git" leaves `name` when `name` holds no ".". */
  lemma DropDotGit(name: string, dotGit: bool)
    requires forall i :: 0 <= i < |name| ==> name[i] != '.'
    ensures Replace(name + (if dotGit then ".git" else ""), ".git", "") == name
  {
    var tail := if dotGit then ".git" else "";
    ReplaceSkips(name, tail, ".git", "");
    if dotGit {
      assert StartsWith(".git", ".git");
      assert Replace(".git", ".git", "") == "" + Replace("", ".git", "");
    } else {
      assert Replace("", ".git", "") == "";
      assert name + tail == name;
    }
  }

  /**
   * The name of "<prefix>/<name>", optionally followed by ".git" and by any
   * number of "/", is `name`, when `name` holds neither "/" nor ".".
   */
  lemma RepoNameOfUrl(prefix: string, name: string, dotGit: bool, slashes: nat)
    requires name != [] && forall i :: 0 <= i < |name| ==> name[i] != '/' && name[i] != '.'
    ensures RepoName(prefix + "/" + name + (if dotGit then ".git" else "") + seq(slashes, _ => '/')) == name
  {
    hide Replace, Split, RStrip;
    var tail := if dotGit then ".git" else "";
    var body := name + tail;
    assert body[|body| - 1] != '/';
    var x := prefix + "/" + body;
    assert x + seq(slashes, _ => '/') == prefix + "/" + name + tail + seq(slashes, _ => '/');
    RStripTrailing(x, slashes, '/');
    assert forall i :: 0 <= i < |body| ==> body[i] != '/';
    LastSegment(prefix, body);
    DropDotGit(name, dotGit);
  }
}
