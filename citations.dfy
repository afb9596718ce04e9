/**
 * What an answer cites, and the web-search hits the agentic engine folds
 * into its context. Both engines cut a citation's content to its first 200
 * characters.
 */
module Citations {
  import opened Wrappers
  import opened PyStr
  import opened Json

  const MaxCitationContent: nat := 200

  /**
   * One citation: the source shown, a prefix of the cited text, the line and
   * page when known, and whether it is a web result (`"type": "web"`).
   */
  datatype Citation = Citation(source: string, content: string, line: Option<int>, page: Option<int>, web: bool)

  /** One result of a web-search tool: title, url and snippet. */
  datatype WebHit = WebHit(title: string, url: string, snippet: string)

  /** A text field of a hit; a missing or non-text field reads as "". */
  function TextField(j: Json, key: string): string
  {
    var f := FieldOr(j, key, JStr(""));
    if f.JStr? then f.s else ""
  }

  function HitOf(j: Json): WebHit
  {
    WebHit(TextField(j, "title"), TextField(j, "url"), TextField(j, "snippet"))
  }

  /** The hits in a search tool's data: one per listed result, in order. */
  function HitsOf(data: Json): (r: seq<WebHit>)
    ensures data.JArr? ==> |r| == |data.items| && forall i :: 0 <= i < |r| ==> r[i] == HitOf(data.items[i])
    ensures !data.JArr? ==> r == []
  {
    if data.JArr? then seq(|data.items|, i requires 0 <= i < |data.items| => HitOf(data.items[i])) else []
  }

  /** The citation of a web hit: its url as source and at most 200 characters of its snippet. */
  function WebCitation(h: WebHit): (c: Citation)
    ensures c.web && c.source == h.url && c.line.None? && c.page.None?
    ensures |c.content| <= MaxCitationContent && |c.content| <= |h.snippet| && c.content == h.snippet[..|c.content|]
    ensures |h.snippet| <= MaxCitationContent ==> c.content == h.snippet
  {
    Citation(h.url, Prefix(h.snippet, MaxCitationContent), None, None, true)
  }

  function WebCitations(hits: seq<WebHit>): (r: seq<Citation>)
    ensures |r| == |hits|
    ensures forall i :: 0 <= i < |r| ==> r[i] == WebCitation(hits[i])
  {
    seq(|hits|, i requires 0 <= i < |hits| => WebCitation(hits[i]))
  }
}
