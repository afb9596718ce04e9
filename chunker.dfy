/**
 * Chunking of ingested text: prose is cut into overlapping windows that end
 * at a natural boundary when one lies past the window's midpoint; code is cut
 * into runs of whole lines that repeat the last three lines of the previous
 * chunk; PDF page chunks are additionally tagged with their page.
 */
module Chunker {
  import opened Wrappers
  import opened PyStr
  import opened Records
  import opened Config

  /**
   * Window parameters for which the cursor always moves forward: every
   * window ends at least `size / 2 + 2` characters past its start, or at
   * `start + size`.
   */
  predicate ValidWindow(size: int, overlap: int)
  {
    size >= 1 && overlap < size && overlap < size / 2 + 2
  }

  /** Metadata of a prose chunk. */
  function TextMeta(index: int, start: int): Metadata
  {
    map["chunk_index" := MInt(index), "char_start" := MInt(start)]
  }

  /**
   * Where the window starting at `start` ends (exclusive, possibly past the
   * end of the text): after the last paragraph break, else the last sentence
   * end, else the last newline that lies beyond the midpoint of the window;
   * otherwise `start + size`. Only windows that stop short of the end of the
   * text look for a boundary.
   */
  function BreakEnd(text: string, start: nat, size: int): (r: int)
    requires start < |text| && size >= 1
    ensures start + size / 2 + 2 <= r <= start + size || r == start + size
    ensures r < start + size ==>
      r <= |text| && (HasAt(text, r - 2, "\n\n") || HasAt(text, r - 2, ". ") || HasAt(text, r - 1, "\n"))
  {
    var end := start + size;
    if end < |text| then
      var half := start + size / 2;
      var para := RFind(text, "\n\n", start, end);
      if para > half then para + 2
      else
        var sentence := RFind(text, ". ", start, end);
        if sentence > half then sentence + 2
        else
          var line := RFind(text, "\n", start, end);
          if line > half then line + 1 else end
    else end
  }

  /** A paragraph break past the midpoint wins, and the last one in the window is taken. */
  lemma BreakEndPrefersParagraph(text: string, start: nat, size: int, i: int)
    requires start < |text| && size >= 1 && start + size < |text|
    requires start + size / 2 < i <= start + size - 2 && HasAt(text, i, "\n\n")
    ensures var r := BreakEnd(text, start, size);
      HasAt(text, r - 2, "\n\n") && i <= r - 2
      && forall j :: r - 2 < j <= start + size - 2 ==> !HasAt(text, j, "\n\n")
  {
    hide RFind, HasAt;
    var para := RFind(text, "\n\n", start, start + size);
    assert para != -1;
    assert para >= i;
  }

  /** With no paragraph break past the midpoint, the last sentence end past it is taken. */
  lemma BreakEndThenSentence(text: string, start: nat, size: int, i: int)
    requires start < |text| && size >= 1 && start + size < |text|
    requires forall j :: start + size / 2 < j <= start + size - 2 ==> !HasAt(text, j, "\n\n")
    requires start + size / 2 < i <= start + size - 2 && HasAt(text, i, ". ")
    ensures var r := BreakEnd(text, start, size);
      HasAt(text, r - 2, ". ") && i <= r - 2
      && forall j :: r - 2 < j <= start + size - 2 ==> !HasAt(text, j, ". ")
  {
    hide RFind, HasAt;
    var para := RFind(text, "\n\n", start, start + size);
    assert para <= start + size / 2 by {
      if para != -1 {
        assert HasAt(text, para, "\n\n");
      }
    }
    var sentence := RFind(text, ". ", start, start + size);
    assert sentence != -1;
    assert sentence >= i;
  }

  /** With neither, the last newline past the midpoint is taken. */
  lemma BreakEndThenNewline(text: string, start: nat, size: int, i: int)
    requires start < |text| && size >= 1 && start + size < |text|
    requires forall j :: start + size / 2 < j <= start + size - 2 ==> !HasAt(text, j, "\n\n")
    requires forall j :: start + size / 2 < j <= start + size - 2 ==> !HasAt(text, j, ". ")
    requires start + size / 2 < i <= start + size - 1 && HasAt(text, i, "\n")
    ensures var r := BreakEnd(text, start, size);
      HasAt(text, r - 1, "\n") && i <= r - 1
      && forall j :: r - 1 < j <= start + size - 1 ==> !HasAt(text, j, "\n")
  {
    hide RFind, HasAt;
    var para := RFind(text, "\n\n", start, start + size);
    assert para <= start + size / 2 by {
      if para != -1 {
        assert HasAt(text, para, "\n\n");
      }
    }
    var sentence := RFind(text, ". ", start, start + size);
    assert sentence <= start + size / 2 by {
      if sentence != -1 {
        assert HasAt(text, sentence, ". ");
      }
    }
    var line := RFind(text, "\n", start, start + size);
    assert line != -1;
    assert line >= i;
  }

  /** A paragraph break starts with a newline. */
  lemma ParagraphAtIsNewlineAt(text: string, j: int)
    ensures HasAt(text, j, "\n\n") ==> HasAt(text, j, "\n")
  {
    if HasAt(text, j, "\n\n") {
      assert text[j] == "\n\n"[0];
    }
  }

  /** With no sentence end or newline past the midpoint, the window is cut after exactly `size` characters. */
  lemma BreakEndHardCut(text: string, start: nat, size: int)
    requires start < |text| && size >= 1
    requires forall j :: start + size / 2 < j <= start + size - 2 ==> !HasAt(text, j, ". ")
    requires forall j :: start + size / 2 < j <= start + size - 1 ==> !HasAt(text, j, "\n")
    ensures BreakEnd(text, start, size) == start + size
  {
    if start + size < |text| {
      forall j | start + size / 2 < j <= start + size - 2
        ensures !HasAt(text, j, "\n\n")
      {
        ParagraphAtIsNewlineAt(text, j);
      }
      var para := RFind(text, "\n\n", start, start + size);
      assert para <= start + size / 2 by {
        if para != -1 {
          assert HasAt(text, para, "\n\n");
        }
      }
      var sentence := RFind(text, ". ", start, start + size);
      assert sentence <= start + size / 2 by {
        if sentence != -1 {
          assert HasAt(text, sentence, ". ");
        }
      }
      var line := RFind(text, "\n", start, start + size);
      assert line <= start + size / 2 by {
        if line != -1 {
          assert HasAt(text, line, "\n");
        }
      }
    }
  }

  /** The end of the window starting at `start`, clamped to the text as Python slicing does. */
  function WindowEnd(text: string, start: nat, size: int): (e: nat)
    requires start < |text| && size >= 1
    ensures start < e <= |text| && e <= start + size
  {
    var b := BreakEnd(text, start, size);
    if b < |text| then b else |text|
  }

  /**
   * The chunks produced from the window at `start` onwards, numbered from
   * `count`: the stripped window becomes a chunk when it is not blank, and
   * the next window starts `overlap` characters before this one ended.
   */
  function ChunksFrom(text: string, size: int, overlap: int, start: nat, count: nat): seq<Chunk>
    requires ValidWindow(size, overlap) && start < |text|
    decreases |text| - start
  {
    var here := WindowChunk(text, size, start, count);
    var next := BreakEnd(text, start, size) - overlap;
    if next >= |text| then here
    else here + ChunksFrom(text, size, overlap, next, count + |here|)
  }

  /** What `chunk_text` returns for a window configuration it terminates on. */
  function TextChunks(text: string, size: int, overlap: int): seq<Chunk>
    requires ValidWindow(size, overlap)
  {
    if IsBlank(text) then [] else ChunksFrom(text, size, overlap, 0, 0)
  }

  /** Blank text has no chunks; any other text is chunked from its first character. */
  lemma TextChunksCases(text: string, size: int, overlap: int)
    requires ValidWindow(size, overlap)
    ensures text == [] ==> IsBlank(text)
    ensures IsBlank(text) ==> TextChunks(text, size, overlap) == []
    ensures !IsBlank(text) ==> TextChunks(text, size, overlap) == ChunksFrom(text, size, overlap, 0, 0)
  {
  }

  /** The "char_start" recorded in a chunk's metadata (0 when absent). */
  function CharStart(c: Chunk): int
  {
    if "char_start" in c.metadata && c.metadata["char_start"].MInt? then c.metadata["char_start"].i else 0
  }

  /**
   * A chunk of `text` numbered `index`: its metadata records its position in
   * the result and the start of its window, and its content is that window,
   * stripped and not empty.
   */
  predicate IsWindowChunk(text: string, size: int, c: Chunk, index: nat)
    requires size >= 1
  {
    0 <= CharStart(c) < |text|
    && c.metadata == TextMeta(index, CharStart(c))
    && c.content != []
    && c.content == Strip(text[CharStart(c)..WindowEnd(text, CharStart(c), size)])
  }

  /** The chunk of the window at `start`, if the window is not blank. */
  function WindowChunk(text: string, size: int, start: nat, count: nat): (r: seq<Chunk>)
    requires size >= 1 && start < |text|
    ensures |r| <= 1
  {
    var piece := Strip(text[start..WindowEnd(text, start, size)]);
    if piece != [] then [Chunk(piece, TextMeta(count, start))] else []
  }

  lemma WindowChunkShape(text: string, size: int, start: nat, count: nat)
    requires size >= 1 && start < |text|
    ensures var r := WindowChunk(text, size, start, count);
      r != [] ==> IsWindowChunk(text, size, r[0], count) && CharStart(r[0]) == start
  {
  }

  /** Whether a window yields a chunk does not depend on the number it would get. */
  lemma WindowChunkCount(text: string, size: int, start: nat, count: nat)
    requires size >= 1 && start < |text|
    ensures WindowChunk(text, size, start, count) == [] <==> WindowChunk(text, size, start, 0) == []
  {
  }

  /** One step of `ChunksFrom`: the window's own chunk, then the chunks from the next window, which starts further right. */
  lemma ChunksFromStep(text: string, size: int, overlap: int, start: nat, count: nat)
    requires ValidWindow(size, overlap) && start < |text|
    ensures var here := WindowChunk(text, size, start, count);
      var next := BreakEnd(text, start, size) - overlap;
      start < next
      && (here != [] ==> IsWindowChunk(text, size, here[0], count) && CharStart(here[0]) == start)
      && ChunksFrom(text, size, overlap, start, count)
        == if next >= |text| then here else here + ChunksFrom(text, size, overlap, next, count + |here|)
  {
    hide WindowChunk, BreakEnd, IsWindowChunk, CharStart, ChunksFrom;
    WindowChunkShape(text, size, start, count);
    BreakEndAdvances(text, size, overlap, start);
    ChunksFromUnfold(text, size, overlap, start, count);
  }

  /** One unfolding of `ChunksFrom`. */
  lemma ChunksFromUnfold(text: string, size: int, overlap: int, start: nat, count: nat)
    requires ValidWindow(size, overlap) && start < |text|
    ensures var here := WindowChunk(text, size, start, count);
      var next := BreakEnd(text, start, size) - overlap;
      ChunksFrom(text, size, overlap, start, count)
        == if next >= |text| then here else here + ChunksFrom(text, size, overlap, next, count + |here|)
  {
    hide WindowChunk, BreakEnd;
  }

  /** For a valid window the next start lies past the current one. */
  lemma BreakEndAdvances(text: string, size: int, overlap: int, start: nat)
    requires ValidWindow(size, overlap) && start < |text|
    ensures start < BreakEnd(text, start, size) - overlap
  {
    hide BreakEnd;
  }

  /** `ChunksFromStep` without the shape of the window's chunk. */
  lemma ChunksFromNext(text: string, size: int, overlap: int, start: nat, count: nat)
    requires ValidWindow(size, overlap) && start < |text|
    ensures var here := WindowChunk(text, size, start, count);
      var next := BreakEnd(text, start, size) - overlap;
      start < next
      && ChunksFrom(text, size, overlap, start, count)
        == if next >= |text| then here else here + ChunksFrom(text, size, overlap, next, count + |here|)
  {
    hide ChunksFrom, WindowChunk, BreakEnd, IsWindowChunk;
    ChunksFromStep(text, size, overlap, start, count);
  }

  lemma {:induction false} ChunksFromShape(text: string, size: int, overlap: int, start: nat, count: nat)
    requires ValidWindow(size, overlap) && start < |text|
    ensures var r := ChunksFrom(text, size, overlap, start, count);
      forall k :: 0 <= k < |r| ==> IsWindowChunk(text, size, r[k], count + k) && start <= CharStart(r[k])
    decreases |text| - start
  {
    hide ChunksFrom, WindowChunk, BreakEnd, WindowEnd, IsWindowChunk, Strip, CharStart, TextMeta;
    ChunksFromStep(text, size, overlap, start, count);
    var here := WindowChunk(text, size, start, count);
    var next := BreakEnd(text, start, size) - overlap;
    if next < |text| {
      ChunksFromShape(text, size, overlap, next, count + |here|);
      var rest := ChunksFrom(text, size, overlap, next, count + |here|);
      var r := here + rest;
      forall k | 0 <= k < |r|
        ensures IsWindowChunk(text, size, r[k], count + k) && start <= CharStart(r[k])
      {
        if k >= |here| {
          assert r[k] == rest[k - |here|];
        } else {
          assert r[k] == here[0];
        }
      }
    }
  }

  lemma {:induction false} ChunksFromAscending(text: string, size: int, overlap: int, start: nat, count: nat)
    requires ValidWindow(size, overlap) && start < |text|
    ensures var r := ChunksFrom(text, size, overlap, start, count);
      forall j, k :: 0 <= j < k < |r| ==> CharStart(r[j]) < CharStart(r[k])
    decreases |text| - start
  {
    hide ChunksFrom, WindowChunk, BreakEnd, WindowEnd, IsWindowChunk, Strip, CharStart, TextMeta;
    ChunksFromStep(text, size, overlap, start, count);
    var here := WindowChunk(text, size, start, count);
    var next := BreakEnd(text, start, size) - overlap;
    if next < |text| {
      ChunksFromAscending(text, size, overlap, next, count + |here|);
      ChunksFromShape(text, size, overlap, next, count + |here|);
      var rest := ChunksFrom(text, size, overlap, next, count + |here|);
      var r := here + rest;
      forall j, k | 0 <= j < k < |r|
        ensures CharStart(r[j]) < CharStart(r[k])
      {
        assert r[k] == rest[k - |here|];
        if j >= |here| {
          assert r[j] == rest[j - |here|];
        }
      }
    }
  }

  /**
   * Every chunk of `chunk_text` is a non-empty stripped window of at most
   * `size` characters, its "chunk_index" is its position in the result, and
   * the windows start strictly left to right.
   */
  lemma TextChunksShape(text: string, size: int, overlap: int)
    requires ValidWindow(size, overlap)
    ensures var r := TextChunks(text, size, overlap);
      (forall k :: 0 <= k < |r| ==> IsWindowChunk(text, size, r[k], k) && 0 < |r[k].content| <= size)
      && (forall j, k :: 0 <= j < k < |r| ==> CharStart(r[j]) < CharStart(r[k]))
  {
    if !IsBlank(text) {
      ChunksFromAscending(text, size, overlap, 0, 0);
      var r := ChunksFrom(text, size, overlap, 0, 0);
      forall k | 0 <= k < |r|
        ensures IsWindowChunk(text, size, r[k], k) && |r[k].content| <= size
      {
        TextChunkAt(text, size, overlap, k);
      }
    }
  }

  lemma TextChunkAt(text: string, size: int, overlap: int, k: nat)
    requires ValidWindow(size, overlap) && 0 < |text|
    requires k < |ChunksFrom(text, size, overlap, 0, 0)|
    ensures var c := ChunksFrom(text, size, overlap, 0, 0)[k];
      IsWindowChunk(text, size, c, k) && |c.content| <= size
  {
    ChunksFromShape(text, size, overlap, 0, 0);
    var c := ChunksFrom(text, size, overlap, 0, 0)[k];
    assert IsWindowChunk(text, size, c, k);
    assert |text[CharStart(c)..WindowEnd(text, CharStart(c), size)]| <= size;
  }

  /** A window that yields no chunk is all whitespace, so the next window still reaches the first non-space character. */
  lemma BlankWindowSkips(text: string, size: int, overlap: int, start: nat, i: nat)
    requires ValidWindow(size, overlap) && overlap >= 0 && start <= i < |text| && !IsSpace(text[i])
    requires WindowChunk(text, size, start, 0) == []
    ensures var next := BreakEnd(text, start, size) - overlap;
      next <= i
  {
    var e := WindowEnd(text, start, size);
    assert IsBlank(text[start..e]);
  }

  /** A text with something other than whitespace from `start` on yields at least one chunk when the overlap is not negative. */
  lemma {:induction false} ChunksFromNonBlank(text: string, size: int, overlap: int, start: nat, count: nat, i: nat)
    requires ValidWindow(size, overlap) && overlap >= 0 && start <= i < |text| && !IsSpace(text[i])
    ensures ChunksFrom(text, size, overlap, start, count) != []
    decreases |text| - start
  {
    hide ChunksFrom, WindowChunk, BreakEnd, WindowEnd, IsWindowChunk, Strip;
    ChunksFromStep(text, size, overlap, start, count);
    var here := WindowChunk(text, size, start, count);
    if here == [] {
      WindowChunkCount(text, size, start, count);
      BlankWindowSkips(text, size, overlap, start, i);
      ChunksFromNonBlank(text, size, overlap, BreakEnd(text, start, size) - overlap, count, i);
    }
  }

  lemma NonBlankTextHasChunks(text: string, size: int, overlap: int)
    requires ValidWindow(size, overlap) && overlap >= 0
    ensures TextChunks(text, size, overlap) == [] <==> IsBlank(text)
  {
    if !IsBlank(text) {
      var i :| 0 <= i < |text| && !IsSpace(text[i]);
      ChunksFromNonBlank(text, size, overlap, 0, 0, i);
    }
  }

  lemma AppendAssoc<T>(a: seq<T>, b: seq<T>, c: seq<T>)
    ensures a + b + c == a + (b + c)
  {
  }

  /** Where `chunk_text` ends the window starting at `start`: the natural boundary search of one iteration. */
  method NaturalEnd(text: string, start: nat, size: int) returns (end: int)
    requires start < |text| && size >= 1
    ensures end == BreakEnd(text, start, size)
  {
    hide RFind, HasAt;
    end := start + size;
    if end < |text| {
      var half := start + size / 2;
      var para := RFind(text, "\n\n", start, end);
      if para > half {
        end := para + 2;
      } else {
        var sentence := RFind(text, ". ", start, end);
        if sentence > half {
          end := sentence + 2;
        } else {
          var line := RFind(text, "\n", start, end);
          if line > half {
            end := line + 1;
          }
        }
      }
    }
  }

  /** The chunk `chunk_text` takes from the window `text[start..end]`, numbered `count`. */
  lemma WindowChunkAt(text: string, size: int, start: nat, count: nat, end: int)
    requires size >= 1 && start < |text| && end == BreakEnd(text, start, size)
    ensures var piece := Strip(text[start..if end < |text| then end else |text|]);
      WindowChunk(text, size, start, count) == if piece != [] then [Chunk(piece, TextMeta(count, start))] else []
  {
  }

  /** Appending the window's stripped text, when not empty, appends the window's chunk. */
  lemma WindowChunkAfter(text: string, size: int, start: nat, end: int, before: seq<Chunk>, after: seq<Chunk>)
    requires size >= 1 && start < |text| && end == BreakEnd(text, start, size)
    requires var piece := Strip(text[start..if end < |text| then end else |text|]);
      after == if piece != [] then before + [Chunk(piece, TextMeta(|before|, start))] else before
    ensures after == before + WindowChunk(text, size, start, |before|)
  {
    hide WindowChunk, BreakEnd, Strip, TextMeta;
    WindowChunkAt(text, size, start, |before|, end);
  }

  /**
   * One iteration of `chunk_text`: the window's chunk (if any) is appended, and
   * what is left to produce is the chunks from the next window on.
   */
  lemma ChunkTextStep(text: string, size: int, overlap: int, start: nat, end: int,
                      before: seq<Chunk>, after: seq<Chunk>)
    requires ValidWindow(size, overlap) && start < |text| && end == BreakEnd(text, start, size)
    requires after == before + WindowChunk(text, size, start, |before|)
    ensures end - overlap >= |text| ==> after == before + ChunksFrom(text, size, overlap, start, |before|)
    ensures end - overlap < |text| ==>
      start < end - overlap
      && after + ChunksFrom(text, size, overlap, end - overlap, |after|) == before + ChunksFrom(text, size, overlap, start, |before|)
  {
    hide ChunksFrom, WindowChunk, BreakEnd, WindowEnd, IsWindowChunk, Strip, TextMeta, CharStart;
    ChunksFromNext(text, size, overlap, start, |before|);
    var here := WindowChunk(text, size, start, |before|);
    if end - overlap < |text| {
      AppendAssoc(before, here, ChunksFrom(text, size, overlap, end - overlap, |after|));
    }
  }

  /**
   * `chunk_text`: cuts the text into overlapping windows of at most `size`
   * characters, preferring to end each window at a natural boundary.
   */
  method ChunkText(text: string, chunkSize: Option<int>, chunkOverlap: Option<int>, settings: Settings)
    returns (chunks: seq<Chunk>)
    requires ValidWindow(OrInt(chunkSize, settings.maxChunkSize), OrInt(chunkOverlap, settings.chunkOverlap))
    ensures chunks == TextChunks(text, OrInt(chunkSize, settings.maxChunkSize), OrInt(chunkOverlap, settings.chunkOverlap))
    ensures IsBlank(text) ==> chunks == []
  {
    hide ChunksFrom, WindowChunk, BreakEnd, WindowEnd, IsWindowChunk, Strip, RFind, HasAt, TextMeta, TextChunks, IsBlank;
    var size := OrInt(chunkSize, settings.maxChunkSize);
    var overlap := OrInt(chunkOverlap, settings.chunkOverlap);
    TextChunksCases(text, size, overlap);
    if text == [] || Strip(text) == [] {
      return [];
    }
    chunks := [];
    var start: nat := 0;
    var n := |text|;
    while start < n
      invariant start < n
      invariant chunks + ChunksFrom(text, size, overlap, start, |chunks|) == TextChunks(text, size, overlap)
      decreases n - start
    {
      var end := NaturalEnd(text, start, size);
      var piece := Strip(text[start..if end < n then end else n]);
      ghost var before := chunks;
      if piece != [] {
        chunks := chunks + [Chunk(piece, TextMeta(|chunks|, start))];
      }
      WindowChunkAfter(text, size, start, end, before, chunks);
      ChunkTextStep(text, size, overlap, start, end, before, chunks);
      if end - overlap >= n {
        break;
      }
      start := end - overlap;
    }
  }

  /** `chunk_pdf_page`: the chunks of one page, each tagged with the document name and the page number. */
  method ChunkPdfPage(text: string, pageNumber: int, sourceName: string,
                      chunkSize: Option<int>, chunkOverlap: Option<int>, settings: Settings)
    returns (chunks: seq<Chunk>)
    requires ValidWindow(OrInt(chunkSize, settings.maxChunkSize), OrInt(chunkOverlap, settings.chunkOverlap))
    ensures chunks == TagAll(TextChunks(text, OrInt(chunkSize, settings.maxChunkSize), OrInt(chunkOverlap, settings.chunkOverlap)),
                             PageTags(sourceName, pageNumber))
  {
    var base := ChunkText(text, chunkSize, chunkOverlap, settings);
    chunks := TagChunks(base, PageTags(sourceName, pageNumber));
  }

  /** The entries `chunk_pdf_page` adds: the document name and the page number. */
  function PageTags(sourceName: string, pageNumber: int): (r: Metadata)
    ensures r.Keys == {"source", "page"}
    ensures r["source"] == MStr(sourceName) && r["page"] == MInt(pageNumber)
  {
    map["source" := MStr(sourceName), "page" := MInt(pageNumber)]
  }

  // ---------------------------------------------------------------------
  // Code chunking

  /** The lines of a file, each with its newline put back. */
  function WithNewlines(lines: seq<string>): (r: seq<string>)
    ensures |r| == |lines|
    ensures forall k :: 0 <= k < |r| ==> r[k] == lines[k] + "\n"
  {
    seq(|lines|, k requires 0 <= k < |lines| => lines[k] + "\n")
  }

  /** `''.join(parts)`. */
  function Concat(parts: seq<string>): string
  {
    if parts == [] then [] else Concat(parts[..|parts| - 1]) + parts[|parts| - 1]
  }

  lemma ConcatAppend(parts: seq<string>, x: string)
    ensures Concat(parts + [x]) == Concat(parts) + x
  {
    assert (parts + [x])[..|parts|] == parts;
  }

  /** Joining puts the first part in front of the join of the rest. */
  lemma {:induction false} ConcatCons(x: string, rest: seq<string>)
    ensures Concat([x] + rest) == x + Concat(rest)
    decreases |rest|
  {
    if rest == [] {
      assert [x] + rest == [x];
      assert [x][..0] == [];
    } else {
      var init := rest[..|rest| - 1];
      assert ([x] + rest)[..|rest|] == [x] + init;
      ConcatCons(x, init);
    }
  }

  /** The lines, each with its newline put back, join to the lines joined by newlines, plus a final newline. */
  lemma {:induction false} JoinedWithNewlines(lines: seq<string>)
    requires lines != []
    ensures Concat(WithNewlines(lines)) == Join(lines, "\n") + "\n"
    decreases |lines|
  {
    if |lines| == 1 {
      assert WithNewlines(lines) == [lines[0] + "\n"];
      assert WithNewlines(lines)[..0] == [];
    } else {
      assert WithNewlines(lines) == [lines[0] + "\n"] + WithNewlines(lines[1..]);
      ConcatCons(lines[0] + "\n", WithNewlines(lines[1..]));
      JoinedWithNewlines(lines[1..]);
    }
  }

  /**
   * Nothing of a file is lost or reordered when it is cut into lines: the
   * lines of `code.split('\n')`, each with its newline put back, join to
   * the file followed by one newline.
   */
  lemma LinesRebuildFile(code: string)
    ensures Concat(WithNewlines(Split(code, '\n'))) == code + "\n"
  {
    JoinedWithNewlines(Split(code, '\n'));
    assert "\n" == ['\n'];
  }

  /** Metadata of a code chunk. */
  function CodeMeta(filePath: string, index: int, lineStart: int): Metadata
  {
    map["file_path" := MStr(filePath), "chunk_index" := MInt(index), "line_start" := MInt(lineStart)]
  }

  /** The chunk saved from the pending lines, if they are not blank. */
  function Flush(current: seq<string>, lineStart: int, index: int, filePath: string): (r: seq<Chunk>)
    ensures |r| <= 1
    ensures r != [] ==> r[0].content == Strip(Concat(current)) && r[0].content != []
  {
    var content := Strip(Concat(current));
    if current != [] && content != [] then [Chunk(content, CodeMeta(filePath, index, lineStart))] else []
  }

  /** The lines kept when a chunk is saved: the last three, or all of them when there are at most three. */
  function Carried(current: seq<string>): (r: seq<string>)
    ensures |r| <= 3 && |r| <= |current|
    ensures r == current[|current| - |r|..]
  {
    if |current| > 3 then current[|current| - 3..] else current
  }

  /**
   * The line number recorded for a chunk that starts after a save at line
   * index `i` carrying `carried` lines: `asWritten` selects the formula of
   * the source (one past the first carried line), otherwise the number of
   * the first carried line.
   */
  function NextLineStart(i: int, carried: nat, asWritten: bool): int
  {
    if asWritten then (if i - carried + 2 > 1 then i - carried + 2 else 1) else i - carried + 1
  }

  /**
   * The chunks `chunk_code` produces from line index `i` on, given the
   * pending lines `current` (first of them numbered `lineStart`) and the
   * chunks `acc` already saved.
   */
  function CodeChunksFrom(lines: seq<string>, i: nat, current: seq<string>, lineStart: int,
                          acc: seq<Chunk>, size: int, filePath: string, asWritten: bool): seq<Chunk>
    requires i <= |lines|
    decreases |lines| - i
  {
    if i == |lines| then acc + Flush(current, lineStart, |acc|, filePath)
    else
      var line := lines[i] + "\n";
      if |Concat(current)| + |line| > size && current != [] then
        var kept := Carried(current);
        CodeChunksFrom(lines, i + 1, kept + [line], NextLineStart(i, |kept|, asWritten),
                       acc + Flush(current, lineStart, |acc|, filePath), size, filePath, asWritten)
      else
        CodeChunksFrom(lines, i + 1, current + [line], lineStart, acc, size, filePath, asWritten)
  }

  /** What `chunk_code` returns; `asWritten` selects the line numbering of the source. */
  function CodeChunks(code: string, filePath: string, size: int, asWritten: bool): seq<Chunk>
  {
    if IsBlank(code) then [] else CodeChunksFrom(Split(code, '\n'), 0, [], 1, [], size, filePath, asWritten)
  }

  /** Blank code has no chunks; any other code is chunked line by line from its first line. */
  lemma CodeChunksCases(code: string, filePath: string, size: int, asWritten: bool)
    ensures code == [] ==> IsBlank(code)
    ensures IsBlank(code) ==> CodeChunks(code, filePath, size, asWritten) == []
    ensures !IsBlank(code) ==>
      CodeChunks(code, filePath, size, asWritten) == CodeChunksFrom(Split(code, '\n'), 0, [], 1, [], size, filePath, asWritten)
  {
  }

  /**
   * A chunk of the file with lines `lines`, numbered `index`: its content is
   * the stripped text of whole lines, and its "line_start" is the number of
   * the first of those lines.
   */
  ghost predicate IsLineChunk(lines: seq<string>, c: Chunk, index: nat, filePath: string)
  {
    var first := LineStart(c);
    1 <= first <= |lines|
    && c.metadata == CodeMeta(filePath, index, first)
    && c.content != []
    && exists last :: first <= last <= |lines| && c.content == LinesText(lines, first, last)
  }

  /** The stripped text of lines `first` to `last` (numbered from 1), newlines included. */
  function LinesText(lines: seq<string>, first: int, last: int): string
    requires 1 <= first <= last <= |lines|
  {
    Strip(Concat(WithNewlines(lines)[first - 1..last]))
  }

  /** The "line_start" recorded in a code chunk's metadata (0 when absent). */
  function LineStart(c: Chunk): int
  {
    if "line_start" in c.metadata && c.metadata["line_start"].MInt? then c.metadata["line_start"].i else 0
  }

  lemma SliceGrow<T>(s: seq<T>, lo: nat, hi: nat)
    requires lo <= hi < |s|
    ensures s[lo..hi] + [s[hi]] == s[lo..hi + 1]
  {
  }

  lemma SliceTail<T>(s: seq<T>, lo: nat, hi: nat, m: nat)
    requires lo <= hi <= |s| && m <= hi - lo
    ensures s[lo..hi][hi - lo - m..] == s[hi - m..hi]
  {
  }

  lemma FlushChunk(current: seq<string>, lineStart: int, index: int, filePath: string)
    ensures var content := Strip(Concat(current));
      Flush(current, lineStart, index, filePath)
        == if current != [] && content != [] then [Chunk(content, CodeMeta(filePath, index, lineStart))] else []
  {
  }

  lemma CodeChunksFromEnd(lines: seq<string>, current: seq<string>, lineStart: int,
                          acc: seq<Chunk>, size: int, filePath: string, asWritten: bool)
    ensures CodeChunksFrom(lines, |lines|, current, lineStart, acc, size, filePath, asWritten)
         == acc + Flush(current, lineStart, |acc|, filePath)
  {
  }

  /** One step of `CodeChunksFrom`. */
  lemma CodeChunksFromStep(lines: seq<string>, i: nat, current: seq<string>, lineStart: int,
                           acc: seq<Chunk>, size: int, filePath: string, asWritten: bool)
    requires i < |lines|
    ensures var line := lines[i] + "\n";
      var kept := Carried(current);
      CodeChunksFrom(lines, i, current, lineStart, acc, size, filePath, asWritten)
        == if |Concat(current)| + |line| > size && current != [] then
             CodeChunksFrom(lines, i + 1, kept + [line], NextLineStart(i, |kept|, asWritten),
                            acc + Flush(current, lineStart, |acc|, filePath), size, filePath, asWritten)
           else
             CodeChunksFrom(lines, i + 1, current + [line], lineStart, acc, size, filePath, asWritten)
  {
  }

  /** The pending lines, when they are lines `lineStart` to `i` of the file, flush into a chunk that names its first line. */
  lemma FlushIsLineChunk(lines: seq<string>, i: nat, current: seq<string>, lineStart: int, index: nat, filePath: string)
    requires i <= |lines| && 1 <= lineStart <= i + 1
    requires current == WithNewlines(lines)[lineStart - 1..i]
    ensures var f := Flush(current, lineStart, index, filePath);
      f != [] ==> IsLineChunk(lines, f[0], index, filePath)
  {
    var f := Flush(current, lineStart, index, filePath);
    if f != [] {
      assert LineStart(f[0]) == lineStart;
      assert f[0].content == LinesText(lines, lineStart, i);
    }
  }

  lemma AppendLineChunks(lines: seq<string>, acc: seq<Chunk>, f: seq<Chunk>, filePath: string)
    requires forall k :: 0 <= k < |acc| ==> IsLineChunk(lines, acc[k], k, filePath)
    requires |f| <= 1 && (f != [] ==> IsLineChunk(lines, f[0], |acc|, filePath))
    ensures forall k :: 0 <= k < |acc + f| ==> IsLineChunk(lines, (acc + f)[k], k, filePath)
  {
    hide IsLineChunk;
    forall k | 0 <= k < |acc + f|
      ensures IsLineChunk(lines, (acc + f)[k], k, filePath)
    {
      if k < |acc| {
        assert (acc + f)[k] == acc[k];
      } else {
        assert (acc + f)[k] == f[0];
      }
    }
  }

  /**
   * With the corrected numbering, every chunk produced from line `i` on is a
   * run of whole lines whose "line_start" is the number of its first line,
   * provided the pending lines are the lines `lineStart` to `i`.
   */
  lemma {:induction false} CodeChunksFromShape(lines: seq<string>, i: nat, current: seq<string>, lineStart: int,
                                               acc: seq<Chunk>, size: int, filePath: string)
    requires i <= |lines| && 1 <= lineStart <= i + 1
    requires current == WithNewlines(lines)[lineStart - 1..i]
    requires forall k :: 0 <= k < |acc| ==> IsLineChunk(lines, acc[k], k, filePath)
    ensures var r := CodeChunksFrom(lines, i, current, lineStart, acc, size, filePath, false);
      forall k :: 0 <= k < |r| ==> IsLineChunk(lines, r[k], k, filePath)
    decreases |lines| - i
  {
    hide CodeChunksFrom, Flush, IsLineChunk, Strip, Concat, Carried, WithNewlines;
    if i == |lines| {
      CodeChunksFromEnd(lines, current, lineStart, acc, size, filePath, false);
      FlushIsLineChunk(lines, i, current, lineStart, |acc|, filePath);
      AppendLineChunks(lines, acc, Flush(current, lineStart, |acc|, filePath), filePath);
    } else {
      CodeChunksFromStep(lines, i, current, lineStart, acc, size, filePath, false);
      var line := lines[i] + "\n";
      if |Concat(current)| + |line| > size && current != [] {
        var kept := Carried(current);
        var f := Flush(current, lineStart, |acc|, filePath);
        FlushIsLineChunk(lines, i, current, lineStart, |acc|, filePath);
        AppendLineChunks(lines, acc, f, filePath);
        CarriedLines(lines, i, current, lineStart);
        CodeChunksFromShape(lines, i + 1, kept + [line], i - |kept| + 1, acc + f, size, filePath);
      } else {
        SliceGrow(WithNewlines(lines), lineStart - 1, i);
        CodeChunksFromShape(lines, i + 1, current + [line], lineStart, acc, size, filePath);
      }
    }
  }

  /** The lines carried into a new chunk, followed by the next line, are again consecutive lines of the file. */
  lemma CarriedLines(lines: seq<string>, i: nat, current: seq<string>, lineStart: int)
    requires i < |lines| && 1 <= lineStart <= i + 1
    requires current == WithNewlines(lines)[lineStart - 1..i]
    ensures var kept := Carried(current);
      1 <= i - |kept| + 1 <= i + 2
      && kept + [lines[i] + "\n"] == WithNewlines(lines)[i - |kept|..i + 1]
      && NextLineStart(i, |kept|, false) == i - |kept| + 1
  {
    var all := WithNewlines(lines);
    var kept := Carried(current);
    SliceTail(all, lineStart - 1, i, |kept|);
    SliceGrow(all, i - |kept|, i);
  }

  /**
   * With the corrected numbering, chunk `k` of `chunk_code` is numbered `k`,
   * holds the stripped text of a run of whole lines, and records the number
   * of the first of them as its "line_start".
   */
  lemma CodeChunksShape(code: string, filePath: string, size: int)
    ensures var r := CodeChunks(code, filePath, size, false);
      forall k :: 0 <= k < |r| ==> IsLineChunk(Split(code, '\n'), r[k], k, filePath)
  {
    if !IsBlank(code) {
      var lines := Split(code, '\n');
      assert WithNewlines(lines)[0..0] == [];
      CodeChunksFromShape(lines, 0, [], 1, [], size, filePath);
      assert CodeChunks(code, filePath, size, false) == CodeChunksFrom(lines, 0, [], 1, [], size, filePath, false);
    }
  }

  /** Saving the pending lines: their stripped join becomes the next chunk unless there are none or it is blank. */
  method SaveChunk(current: seq<string>, lineStart: int, chunks: seq<Chunk>, filePath: string)
    returns (saved: seq<Chunk>)
    ensures saved == chunks + Flush(current, lineStart, |chunks|, filePath)
  {
    hide Flush;
    FlushChunk(current, lineStart, |chunks|, filePath);
    saved := chunks;
    if current != [] {
      var content := Strip(Concat(current));
      if content != [] {
        saved := chunks + [Chunk(content, CodeMeta(filePath, |chunks|, lineStart))];
      }
    }
  }

  /**
   * `chunk_code` with each chunk's "line_start" naming the line its content
   * starts at: lines are gathered until the next one would push the chunk
   * past `size` characters, and each new chunk repeats the last three lines
   * of the previous one.
   */
  method ChunkCode(code: string, filePath: string, chunkSize: Option<int>, settings: Settings)
    returns (chunks: seq<Chunk>)
    ensures chunks == CodeChunks(code, filePath, OrInt(chunkSize, settings.maxChunkSize), false)
    ensures IsBlank(code) ==> chunks == []
  {
    hide CodeChunksFrom, Flush, Strip, Split, CodeChunks, IsBlank, CodeMeta, Carried;
    var size := OrInt(chunkSize, settings.maxChunkSize);
    CodeChunksCases(code, filePath, size, false);
    if code == [] || Strip(code) == [] {
      return [];
    }
    chunks := [];
    var lines := Split(code, '\n');
    var current: seq<string> := [];
    var currentSize := 0;
    var lineStart := 1;
    for i := 0 to |lines|
      invariant currentSize == |Concat(current)|
      invariant CodeChunksFrom(lines, i, current, lineStart, chunks, size, filePath, false)
             == CodeChunks(code, filePath, size, false)
    {
      CodeChunksFromStep(lines, i, current, lineStart, chunks, size, filePath, false);
      var line := lines[i] + "\n";
      if currentSize + |line| > size && current != [] {
        chunks := SaveChunk(current, lineStart, chunks, filePath);
        var kept := Carried(current);
        current := kept;
        currentSize := |Concat(kept)|;
        lineStart := i - |kept| + 1;
      }
      ConcatAppend(current, line);
      current := current + [line];
      currentSize := currentSize + |line|;
    }
    CodeChunksFromEnd(lines, current, lineStart, chunks, size, filePath, false);
    chunks := SaveChunk(current, lineStart, chunks, filePath);
  }

  /** Three short lines: the first two fit in 10 characters and are gathered into one pending chunk. */
  lemma ThreeShortLinesGather(lines: seq<string>, filePath: string, asWritten: bool)
    requires |lines| == 3 && |lines[0]| == |lines[1]| == |lines[2]| == 4
    ensures CodeChunksFrom(lines, 0, [], 1, [], 10, filePath, asWritten)
         == CodeChunksFrom(lines, 2, WithNewlines(lines)[0..2], 1, [], 10, filePath, asWritten)
  {
    hide CodeChunksFrom, Strip, Flush, Carried;
    var all := WithNewlines(lines);
    var x0, x1 := all[0..1], all[0..2];
    assert |all[0]| == 5;
    assert [] + [all[0]] == x0 && x0 + [all[1]] == x1;
    ConcatAppend([], all[0]);
    assert |Concat(x0)| == 5;
    CodeChunksFromStep(lines, 0, [], 1, [], 10, filePath, asWritten);
    CodeChunksFromStep(lines, 1, x0, 1, [], 10, filePath, asWritten);
  }

  /** The third line would pass 10 characters: the first two are saved and carried over. */
  lemma ThreeShortLinesSave(lines: seq<string>, filePath: string, asWritten: bool)
    requires |lines| == 3 && |lines[0]| == |lines[1]| == |lines[2]| == 4
    ensures var all := WithNewlines(lines);
      CodeChunksFrom(lines, 2, all[0..2], 1, [], 10, filePath, asWritten)
        == CodeChunksFrom(lines, 3, all[0..3], NextLineStart(2, 2, asWritten),
                          Flush(all[0..2], 1, 0, filePath), 10, filePath, asWritten)
  {
    hide CodeChunksFrom, Strip, Flush;
    var all := WithNewlines(lines);
    var x0, x1 := all[0..1], all[0..2];
    assert |all[0]| == 5 && |all[1]| == 5;
    assert [] + [all[0]] == x0 && x0 + [all[1]] == x1 && x1 + [all[2]] == all[0..3];
    ConcatAppend([], all[0]);
    ConcatAppend(x0, all[1]);
    assert |Concat(x1)| == 10;
    assert Carried(x1) == x1;
    assert [] + Flush(x1, 1, 0, filePath) == Flush(x1, 1, 0, filePath);
    CodeChunksFromStep(lines, 2, x1, 1, [], 10, filePath, asWritten);
  }

  /** Pending lines that start with a non-space character flush into one chunk. */
  lemma FlushNonBlank(current: seq<string>, lineStart: int, index: int, filePath: string)
    requires current != [] && current[0] != [] && !IsSpace(current[0][0])
    ensures Flush(current, lineStart, index, filePath)
         == [Chunk(Strip(Concat(current)), CodeMeta(filePath, index, lineStart))]
  {
    hide Strip, Concat;
    ConcatFirst(current);
    assert !IsBlank(Concat(current));
    FlushChunk(current, lineStart, index, filePath);
  }

  /** The joined text starts with the first part's first character. */
  lemma {:induction false} ConcatFirst(parts: seq<string>)
    requires parts != [] && parts[0] != []
    ensures |Concat(parts)| >= |parts[0]| && Concat(parts)[0] == parts[0][0]
  {
    var n := |parts| - 1;
    if n > 0 {
      ConcatFirst(parts[..n]);
    }
  }

  /**
   * Three lines of four characters and a size of 10: the first two lines fill
   * the first chunk, and the second chunk repeats them and adds the third.
   */
  lemma ThreeShortLines(lines: seq<string>, filePath: string, asWritten: bool)
    requires |lines| == 3 && |lines[0]| == |lines[1]| == |lines[2]| == 4 && !IsSpace(lines[0][0])
    ensures var all := WithNewlines(lines);
      CodeChunksFrom(lines, 0, [], 1, [], 10, filePath, asWritten)
        == [Chunk(Strip(Concat(all[0..2])), CodeMeta(filePath, 0, 1)),
            Chunk(Strip(Concat(all[0..3])), CodeMeta(filePath, 1, NextLineStart(2, 2, asWritten)))]
  {
    hide CodeChunksFrom, Strip, Flush, Concat, CodeMeta;
    var all := WithNewlines(lines);
    var ls := NextLineStart(2, 2, asWritten);
    ThreeShortLinesGather(lines, filePath, asWritten);
    ThreeShortLinesSave(lines, filePath, asWritten);
    assert all[0..2][0] == all[0] == lines[0] + "\n";
    FlushNonBlank(all[0..2], 1, 0, filePath);
    var first := Flush(all[0..2], 1, 0, filePath);
    CodeChunksFromEnd(lines, all[0..3], ls, first, 10, filePath, asWritten);
    assert all[0..3][0] == all[0];
    FlushNonBlank(all[0..3], ls, 1, filePath);
  }

  /** Three lines without newlines joined by newlines split back into those lines. */
  lemma ThreeLinesSplit(a: string, b: string, c: string)
    requires forall i :: 0 <= i < |a| ==> a[i] != '\n'
    requires forall i :: 0 <= i < |b| ==> b[i] != '\n'
    requires forall i :: 0 <= i < |c| ==> c[i] != '\n'
    ensures Split(a + "\n" + (b + "\n" + c), '\n') == [a, b, c]
  {
    hide Split;
    SplitAtFirst(a, '\n', b + "\n" + c);
    SplitAtFirst(b, '\n', c);
    SplitWithoutSeparator(c, '\n');
  }

  /** The sample file of the line-numbering example, split into its lines. */
  lemma SampleFileLines()
    ensures Split("aaaa\nbbbb\ncccc", '\n') == ["aaaa", "bbbb", "cccc"]
    ensures !IsBlank("aaaa\nbbbb\ncccc")
  {
    hide Split, IsBlank;
    assert "aaaa\nbbbb\ncccc" == "aaaa" + "\n" + ("bbbb" + "\n" + "cccc");
    ThreeLinesSplit("aaaa", "bbbb", "cccc");
    SampleFileNotBlank();
  }

  lemma SampleFileNotBlank()
    ensures !IsBlank("aaaa\nbbbb\ncccc")
  {
    assert "aaaa\nbbbb\ncccc"[0] == 'a';
  }

  lemma CodeMetaLineStart(filePath: string, index: int, lineStart: int)
    ensures "line_start" in CodeMeta(filePath, index, lineStart)
    ensures CodeMeta(filePath, index, lineStart)["line_start"] == MInt(lineStart)
  {
  }

  /**
   * The source records `max(1, i - len(overlap_lines) + 2)` as the first
   * line of a chunk that starts with carried lines: for the file
   * "aaaa\nbbbb\ncccc" and a size of 10 the second chunk holds lines 1 to 3
   * but is recorded as starting at line 2; the corrected numbering records 1.
   */
  lemma LineStartAsWrittenIsOneTooHigh()
    ensures var code := "aaaa\nbbbb\ncccc";
      var asWritten := CodeChunks(code, "f.py", 10, true);
      var corrected := CodeChunks(code, "f.py", 10, false);
      |asWritten| == 2 && |corrected| == 2
      && asWritten[1].content == corrected[1].content
      && LineStart(asWritten[1]) == 2
      && LineStart(corrected[1]) == 1
  {
    hide CodeChunks, Strip, Concat, WithNewlines, CodeMeta;
    SampleCodeChunks(true);
    SampleCodeChunks(false);
    CodeMetaLineStart("f.py", 1, NextLineStart(2, 2, true));
    CodeMetaLineStart("f.py", 1, NextLineStart(2, 2, false));
  }

  /** The two chunks of the sample file under either numbering. */
  lemma SampleCodeChunks(asWritten: bool)
    ensures var all := WithNewlines(["aaaa", "bbbb", "cccc"]);
      CodeChunks("aaaa\nbbbb\ncccc", "f.py", 10, asWritten)
        == [Chunk(Strip(Concat(all[0..2])), CodeMeta("f.py", 0, 1)),
            Chunk(Strip(Concat(all[0..3])), CodeMeta("f.py", 1, NextLineStart(2, 2, asWritten)))]
  {
    hide CodeChunks, CodeChunksFrom, Strip, Concat, WithNewlines, CodeMeta;
    var lines := ["aaaa", "bbbb", "cccc"];
    SampleCodeStart(asWritten);
    assert lines[0][0] == 'a' && !IsSpace('a');
    ThreeShortLines(lines, "f.py", asWritten);
  }

  /** The sample file is not blank, so chunking starts on its three lines. */
  lemma SampleCodeStart(asWritten: bool)
    ensures CodeChunks("aaaa\nbbbb\ncccc", "f.py", 10, asWritten)
         == CodeChunksFrom(["aaaa", "bbbb", "cccc"], 0, [], 1, [], 10, "f.py", asWritten)
  {
    hide Split, IsBlank, CodeChunksFrom;
    SampleFileLines();
  }

}
