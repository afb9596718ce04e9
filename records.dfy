/**
 * The records that flow between ingestion, the vector store and retrieval:
 * chunk metadata values, chunks, and search results.
 */
module Records {
  import opened Wrappers
  import opened PyStr

  /** A metadata value. The backend stores strings and integers. */
  datatype Meta = MStr(s: string) | MInt(i: int)

  /** A metadata payload: key to value (Python dict). */
  type Metadata = map<string, Meta>

  /** A chunk produced by ingestion: its text and its metadata. */
  datatype Chunk = Chunk(content: string, metadata: Metadata)

  /**
   * A vector-store search result: the stored text, the remaining payload as
   * metadata, the similarity score and, when the record carries one, an "id".
   */
  datatype Doc = Doc(content: string, metadata: Metadata, score: real, id: Option<string>)

  /** `[d.get("content", "") for d in docs]`. */
  function Contents(docs: seq<Doc>): (r: seq<string>)
    ensures |r| == |docs|
    ensures forall k :: 0 <= k < |docs| ==> r[k] == docs[k].content
  {
    if docs == [] then [] else [docs[0].content] + Contents(docs[1..])
  }

  /** Python truthiness of a metadata value. */
  predicate Truthy(m: Meta)
  {
    match m
    case MStr(s) => s != []
    case MInt(i) => i != 0
  }

  /** `str(value)`. */
  function Render(m: Meta): (r: string)
    ensures m.MStr? ==> r == m.s
  {
    match m
    case MStr(s) => s
    case MInt(i) => IntToString(i)
  }

  /** `int(value)`: `None` where Python raises ValueError. */
  function ToInt(m: Meta): (r: Option<int>)
    ensures m.MInt? ==> r == Some(m.i)
  {
    match m
    case MStr(s) => ParseInt(s)
    case MInt(i) => Some(i)
  }

  /** `metadata.get(key)` when the value is used only if truthy. */
  function GetTruthy(md: Metadata, key: string): (r: Option<Meta>)
    ensures r.Some? <==> key in md && Truthy(md[key])
  {
    if key in md && Truthy(md[key]) then Some(md[key]) else None
  }

  /** `str(metadata.get(key, default))`. */
  function GetStr(md: Metadata, key: string, default: string): string
  {
    if key in md then Render(md[key]) else default
  }

  /** The chunk's metadata holds `v` under `key`. */
  predicate HasTag(c: Chunk, key: string, v: Meta)
  {
    key in c.metadata && c.metadata[key] == v
  }

  /** A chunk with extra metadata entries written over its own. */
  function Tagged(c: Chunk, tags: Metadata): (r: Chunk)
    ensures r.content == c.content
    ensures forall k :: k in tags ==> k in r.metadata && r.metadata[k] == tags[k]
    ensures forall k :: k in c.metadata && k !in tags ==> k in r.metadata && r.metadata[k] == c.metadata[k]
    ensures r.metadata.Keys == c.metadata.Keys + tags.Keys
  {
    Chunk(c.content, c.metadata + tags)
  }

  /** Every chunk with `tags` written over its metadata, in the same order. */
  function TagAll(chunks: seq<Chunk>, tags: Metadata): (r: seq<Chunk>)
    ensures |r| == |chunks|
    ensures forall k :: 0 <= k < |r| ==> r[k] == Tagged(chunks[k], tags)
  {
    seq(|chunks|, k requires 0 <= k < |chunks| => Tagged(chunks[k], tags))
  }

  /**
   * Writes `tags` into the metadata of every chunk, one chunk after the other
   * (the `for chunk in chunks: chunk["metadata"][...] = ...` loops).
   */
  method TagChunks(chunks: seq<Chunk>, tags: Metadata) returns (r: seq<Chunk>)
    ensures r == TagAll(chunks, tags)
  {
    r := chunks;
    var k := 0;
    while k < |r|
      invariant 0 <= k <= |r| == |chunks|
      invariant forall j :: 0 <= j < k ==> r[j] == Tagged(chunks[j], tags)
      invariant forall j :: k <= j < |r| ==> r[j] == chunks[j]
    {
      r := r[k := Tagged(r[k], tags)];
      k := k + 1;
    }
  }

  /** The entries every ingested chunk receives: the source's id, display name and kind. */
  function SourceTags(sourceId: string, sourceName: string, sourceType: string): (r: Metadata)
    ensures r.Keys == {"source_id", "source_name", "source_type"}
    ensures r["source_id"] == MStr(sourceId) && r["source_name"] == MStr(sourceName)
    ensures r["source_type"] == MStr(sourceType)
  {
    map["source_id" := MStr(sourceId), "source_name" := MStr(sourceName), "source_type" := MStr(sourceType)]
  }
}
