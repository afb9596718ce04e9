/**
 * Ingestion of pasted text: the text is chunked, every chunk is tagged with
 * the source's id, display name and the kind "text", and the chunks are
 * handed to the vector store (here: returned as `stored`).
 */
module IngestText {
  import opened Wrappers
  import opened PyStr
  import opened Records
  import opened Config
  import opened Chunker

  /** `name or "Pasted text"`. */
  function DisplayName(name: Option<string>): (r: string)
    ensures name.Some? && name.value != [] ==> r == name.value
    ensures name.None? || name.value == [] ==> r == "Pasted text"
  {
    if name.Some? && name.value != [] then name.value else "Pasted text"
  }

  /**
   * `ingest_text`: blank text is rejected before anything is chunked or
   * stored; otherwise the chunks of `chunk_text` are tagged and stored, and
   * the source id is returned with the number of chunks. `sourceId` stands
   * for the fresh UUID.
   */
  method IngestText(text: string, settings: Settings, sourceId: string, name: Option<string>)
    returns (r: Outcome<(string, int)>, stored: seq<Chunk>)
    requires ValidWindow(settings.maxChunkSize, settings.chunkOverlap)
    ensures IsBlank(text) ==> r == Failure("Text cannot be empty") && stored == []
    ensures !IsBlank(text) ==>
      r == Success((sourceId, |stored|))
      && stored == TagAll(TextChunks(text, settings.maxChunkSize, settings.chunkOverlap),
                          SourceTags(sourceId, DisplayName(name), "text"))
  {
    if text == [] || Strip(text) == [] {
      return Failure("Text cannot be empty"), [];
    }
    var sourceName := DisplayName(name);
    var chunks := ChunkText(text, None, None, settings);
    stored := TagChunks(chunks, SourceTags(sourceId, sourceName, "text"));
    r := Success((sourceId, |stored|));
  }

  /**
   * Text that is not blank is stored as at least one chunk when the
   * configured overlap is not negative, and every stored chunk keeps the
   * content of the corresponding `chunk_text` chunk and carries the same
   * source id, the display name and the kind "text".
   */
  lemma IngestedTextChunks(text: string, settings: Settings, sourceId: string, name: Option<string>)
    requires ValidWindow(settings.maxChunkSize, settings.chunkOverlap) && settings.chunkOverlap >= 0
    requires !IsBlank(text)
    ensures var base := TextChunks(text, settings.maxChunkSize, settings.chunkOverlap);
      var stored := TagAll(base, SourceTags(sourceId, DisplayName(name), "text"));
      |stored| > 0
      && forall k :: 0 <= k < |stored| ==>
        stored[k].content == base[k].content
        && stored[k].metadata["source_id"] == MStr(sourceId)
        && stored[k].metadata["source_name"] == MStr(DisplayName(name))
        && stored[k].metadata["source_type"] == MStr("text")
  {
    NonBlankTextHasChunks(text, settings.maxChunkSize, settings.chunkOverlap);
  }
}
