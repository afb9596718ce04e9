/**
 * Ingestion of a PDF document. Text extraction is outside the model: the
 * document is given as the sequence of its pages' extracted texts, in page
 * order. Every page with text is chunked by `chunk_pdf_page`, its chunks are
 * tagged with the source and collected in page order.
 */
module IngestPdf {
  import opened Wrappers
  import opened PyStr
  import opened Records
  import opened Config
  import opened Chunker

  /** The tags `ingest_pdf` writes over every page chunk. */
  function PdfTags(sourceId: string, filename: string): (r: Metadata)
    ensures r == SourceTags(sourceId, filename, "pdf")
  {
    SourceTags(sourceId, filename, "pdf")
  }

  /** The chunks page number `pageNumber` (1-based) contributes: none when its text is blank. */
  function PageChunks(text: string, pageNumber: int, filename: string, sourceId: string, settings: Settings): seq<Chunk>
    requires ValidWindow(settings.maxChunkSize, settings.chunkOverlap)
  {
    if IsBlank(text) then []
    else TagAll(TagAll(TextChunks(text, settings.maxChunkSize, settings.chunkOverlap), PageTags(filename, pageNumber)),
                PdfTags(sourceId, filename))
  }

  /** The chunks of all pages, first page first. */
  function PdfChunks(pages: seq<string>, filename: string, sourceId: string, settings: Settings): seq<Chunk>
    requires ValidWindow(settings.maxChunkSize, settings.chunkOverlap)
  {
    if pages == [] then []
    else PdfChunks(pages[..|pages| - 1], filename, sourceId, settings)
         + PageChunks(pages[|pages| - 1], |pages|, filename, sourceId, settings)
  }

  lemma PdfChunksStep(pages: seq<string>, filename: string, sourceId: string, settings: Settings)
    requires ValidWindow(settings.maxChunkSize, settings.chunkOverlap)
    ensures pages == [] ==> PdfChunks(pages, filename, sourceId, settings) == []
    ensures pages != [] ==>
      PdfChunks(pages, filename, sourceId, settings)
      == PdfChunks(pages[..|pages| - 1], filename, sourceId, settings)
         + PageChunks(pages[|pages| - 1], |pages|, filename, sourceId, settings)
  {
  }

  /** The chunks of one page: none for a blank page, otherwise its text chunks tagged with the page and then the source. */
  lemma PageChunksCases(text: string, pageNumber: int, filename: string, sourceId: string, settings: Settings)
    requires ValidWindow(settings.maxChunkSize, settings.chunkOverlap)
    ensures IsBlank(text) ==> PageChunks(text, pageNumber, filename, sourceId, settings) == []
    ensures !IsBlank(text) ==>
      PageChunks(text, pageNumber, filename, sourceId, settings)
      == TagAll(TagAll(TextChunks(text, OrInt(None, settings.maxChunkSize), OrInt(None, settings.chunkOverlap)),
                       PageTags(filename, pageNumber)),
                PdfTags(sourceId, filename))
  {
  }

  /** The page a chunk was tagged with (0 when it carries none). */
  function PageNumber(c: Chunk): int
  {
    if "page" in c.metadata && c.metadata["page"].MInt? then c.metadata["page"].i else 0
  }

  /**
   * `ingest_pdf`: pages are visited in order with 1-based page numbers,
   * blank pages are skipped, and when no page yields a chunk the document is
   * rejected; otherwise all chunks are stored and their number is returned.
   */
  method IngestPdf(pages: seq<string>, filename: string, sourceId: string, settings: Settings)
    returns (r: Outcome<(string, int)>, stored: seq<Chunk>)
    requires ValidWindow(settings.maxChunkSize, settings.chunkOverlap)
    ensures var all := PdfChunks(pages, filename, sourceId, settings);
      (all == [] ==> r == Failure("No text content found in PDF") && stored == [])
      && (all != [] ==> r == Success((sourceId, |all|)) && stored == all)
  {
    hide PdfChunks, PageChunks, TagAll, TextChunks, IsBlank, PageTags, PdfTags;
    var all: seq<Chunk> := [];
    var pageNum := 0;
    PdfChunksStep(pages[..0], filename, sourceId, settings);
    while pageNum < |pages|
      invariant 0 <= pageNum <= |pages|
      invariant all == PdfChunks(pages[..pageNum], filename, sourceId, settings)
    {
      var text := pages[pageNum];
      assert pages[..pageNum + 1][..pageNum] == pages[..pageNum];
      assert pages[..pageNum + 1][pageNum] == text;
      PdfChunksStep(pages[..pageNum + 1], filename, sourceId, settings);
      PageChunksCases(text, pageNum + 1, filename, sourceId, settings);
      if !IsBlank(text) {
        var chunks := ChunkPdfPage(text, pageNum + 1, filename, None, None, settings);
        chunks := TagChunks(chunks, PdfTags(sourceId, filename));
        all := all + chunks;
      }
      pageNum := pageNum + 1;
    }
    assert pages[..|pages|] == pages;
    if all == [] {
      return Failure("No text content found in PDF"), [];
    }
    stored := all;
    r := Success((sourceId, |all|));
  }

  /** Every chunk of a page carries the page's number, the source's id, the file name and the kind "pdf". */
  lemma PageChunksTagged(text: string, pageNumber: int, filename: string, sourceId: string, settings: Settings)
    requires ValidWindow(settings.maxChunkSize, settings.chunkOverlap)
    ensures var cs := PageChunks(text, pageNumber, filename, sourceId, settings);
      (cs != [] ==> !IsBlank(text))
      && forall k :: 0 <= k < |cs| ==>
        PageNumber(cs[k]) == pageNumber
        && HasTag(cs[k], "source_id", MStr(sourceId))
        && HasTag(cs[k], "source_name", MStr(filename))
        && HasTag(cs[k], "source_type", MStr("pdf"))
        && HasTag(cs[k], "source", MStr(filename))
  {
  }

  /** The chunk carries the 1-based number of a page with text and the source tags of a PDF. */
  predicate FromPage(c: Chunk, pages: seq<string>, filename: string, sourceId: string)
  {
    1 <= PageNumber(c) <= |pages| && !IsBlank(pages[PageNumber(c) - 1])
    && HasTag(c, "source_id", MStr(sourceId))
    && HasTag(c, "source_name", MStr(filename))
    && HasTag(c, "source_type", MStr("pdf"))
  }

  /**
   * Every stored chunk comes from a page that has text, carries that page's
   * 1-based number and the source tags, and the page numbers never decrease
   * along the result.
   */
  lemma {:induction false} PdfChunksInPageOrder(pages: seq<string>, filename: string, sourceId: string, settings: Settings)
    requires ValidWindow(settings.maxChunkSize, settings.chunkOverlap)
    ensures forall k :: 0 <= k < |PdfChunks(pages, filename, sourceId, settings)| ==>
      FromPage(PdfChunks(pages, filename, sourceId, settings)[k], pages, filename, sourceId)
    ensures forall j, k :: 0 <= j < k < |PdfChunks(pages, filename, sourceId, settings)| ==>
      PageNumber(PdfChunks(pages, filename, sourceId, settings)[j]) <= PageNumber(PdfChunks(pages, filename, sourceId, settings)[k])
  {
    hide PdfChunks, PageChunks, TextChunks, TagAll;
    PdfChunksStep(pages, filename, sourceId, settings);
    if pages != [] {
      var init := pages[..|pages| - 1];
      var n := |pages|;
      PdfChunksInPageOrder(init, filename, sourceId, settings);
      PageChunksTagged(pages[n - 1], n, filename, sourceId, settings);
      var a := PdfChunks(init, filename, sourceId, settings);
      var b := PageChunks(pages[n - 1], n, filename, sourceId, settings);
      var all := a + b;
      assert all == PdfChunks(pages, filename, sourceId, settings);
      forall k | 0 <= k < |all|
        ensures FromPage(all[k], pages, filename, sourceId)
      {
        if k < |a| {
          assert all[k] == a[k];
          assert FromPage(a[k], init, filename, sourceId);
          assert pages[PageNumber(a[k]) - 1] == init[PageNumber(a[k]) - 1];
        } else {
          assert all[k] == b[k - |a|];
        }
      }
      forall j, k | 0 <= j < k < |all|
        ensures PageNumber(all[j]) <= PageNumber(all[k])
      {
        if k < |a| {
          assert all[j] == a[j] && all[k] == a[k];
        } else if j < |a| {
          assert all[j] == a[j] && all[k] == b[k - |a|];
        } else {
          assert all[j] == b[j - |a|] && all[k] == b[k - |a|];
        }
      }
    }
  }

  /**
   * With a non-negative overlap, the document is rejected exactly when every
   * page is blank.
   */
  lemma {:induction false} PdfRejectedIffAllBlank(pages: seq<string>, filename: string, sourceId: string, settings: Settings)
    requires ValidWindow(settings.maxChunkSize, settings.chunkOverlap) && settings.chunkOverlap >= 0
    ensures PdfChunks(pages, filename, sourceId, settings) == [] <==> forall p :: 0 <= p < |pages| ==> IsBlank(pages[p])
  {
    if pages != [] {
      var init := pages[..|pages| - 1];
      var n := |pages|;
      PdfRejectedIffAllBlank(init, filename, sourceId, settings);
      NonBlankTextHasChunks(pages[n - 1], settings.maxChunkSize, settings.chunkOverlap);
      if forall p :: 0 <= p < |pages| ==> IsBlank(pages[p]) {
        assert forall p :: 0 <= p < |init| ==> IsBlank(init[p]) by {
          forall p | 0 <= p < |init| ensures IsBlank(init[p]) {
            assert init[p] == pages[p];
          }
        }
      } else {
        var p :| 0 <= p < |pages| && !IsBlank(pages[p]);
        if p < n - 1 {
          assert init[p] == pages[p];
        }
      }
    }
  }
}
