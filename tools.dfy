/** The search tools: a web search and an ArXiv search whose results are
    laid out as `<Document ...>` blocks separated by rules. Neither search
    ever raises: any exception becomes an `<Error>...</Error>` text. */
module Tools {
  import opened Wrappers
  import opened PyStrings
  import opened Config

  /** One web search hit: a dictionary of text fields ("url", "content", ...). */
  type WebResult = map<string, string>

  /** One ArXiv paper: its metadata dictionary and its full text. */
  datatype ArxivDoc = ArxivDoc(metadata: map<string, string>, pageContent: string)

  /** What a search backend does with a query: return its hits, or raise an
      exception with the given message. */
  datatype Outcome<T> = Returned(results: seq<T>) | Raised(message: string)

  /** The rule placed between two result blocks. */
  const Separator: string := "\n\n---\n\n"

  /** The tag every result block opens with. */
  const DocumentTag: string := "<Document"

  /** `str(KeyError(key))`: the key in single quotes. */
  function KeyErrorText(key: string): string {
    "'" + key + "'"
  }

  function WebError(message: string): string {
    "<Error>Error occurred during web search: " + message + "</Error>"
  }

  function ArxivError(message: string): string {
    "<Error>Error occurred during ArXiv search: " + message + "</Error>"
  }

  // ---------------------------------------------------------------------------
  // Formatting a list of results, first failure wins
  // ---------------------------------------------------------------------------

  /** Format every result in order, stopping at the first one whose formatting
      raises: all blocks in input order, or the first failure's message. */
  function FormatEach<T>(docs: seq<T>, format: T -> Result<string>): (r: Result<seq<string>>)
    ensures r.Success? <==> forall i :: 0 <= i < |docs| ==> format(docs[i]).Success?
    ensures r.Success? ==>
      (|r.value| == |docs| && forall i :: 0 <= i < |docs| ==> r.value[i] == format(docs[i]).value)
    ensures r.Failure? ==>
      (exists i :: 0 <= i < |docs| && format(docs[i]) == Failure(r.error)
         && forall j :: 0 <= j < i ==> format(docs[j]).Success?)
    decreases |docs|
  {
    if docs == [] then Success([])
    else
      var init := docs[..|docs| - 1];
      assert forall i :: 0 <= i < |init| ==> init[i] == docs[i];
      match FormatEach(init, format)
      case Failure(e) => Failure(e)
      case Success(blocks) =>
        match format(docs[|docs| - 1])
        case Failure(e) => Failure(e)
        case Success(block) => Success(blocks + [block])
  }

  /** The error of the first result that fails is the error of the whole list. */
  lemma FormatEachFirstFailure<T>(docs: seq<T>, i: nat, format: T -> Result<string>)
    requires i < |docs| && format(docs[i]).Failure?
    requires forall j :: 0 <= j < i ==> format(docs[j]).Success?
    ensures FormatEach(docs, format) == Failure(format(docs[i]).error)
  {
    var r := FormatEach(docs, format);
    var k :| 0 <= k < |docs| && format(docs[k]) == Failure(r.error)
      && forall j :: 0 <= j < k ==> format(docs[j]).Success?;
    assert k == i;
  }

  // ---------------------------------------------------------------------------
  // Web search
  // ---------------------------------------------------------------------------

  function WebBlock(url: string, content: string): string {
    "<Document href=\"" + url + "\"/>\n" + content + "\n</Document>"
  }

  predicate HasWebFields(doc: WebResult) {
    "url" in doc && "content" in doc
  }

  /** One web hit as a block; reading "url" and then "content" raises a
      `KeyError` for the first that is missing. */
  function FormatWebResult(doc: WebResult): (r: Result<string>)
    ensures r.Success? <==> HasWebFields(doc)
  {
    if "url" !in doc then Failure(KeyErrorText("url"))
    else if "content" !in doc then Failure(KeyErrorText("content"))
    else Success(WebBlock(doc["url"], doc["content"]))
  }

  /** The text `search_web` returns when the backend behaves as given. */
  function WebSearchText(outcome: Outcome<WebResult>): string {
    match outcome
    case Raised(message) => WebError(message)
    case Returned(results) =>
      match FormatEach(results, FormatWebResult)
      case Success(blocks) => Join(blocks, Separator)
      case Failure(message) => WebError(message)
  }

  /** The blocks of a list of complete web hits, in input order. */
  function WebBlocks(results: seq<WebResult>): (blocks: seq<string>)
    requires forall i :: 0 <= i < |results| ==> HasWebFields(results[i])
    ensures |blocks| == |results|
  {
    seq(|results|, i requires 0 <= i < |results| && HasWebFields(results[i]) => WebBlock(results[i]["url"], results[i]["content"]))
  }

  // ---------------------------------------------------------------------------
  // ArXiv search
  // ---------------------------------------------------------------------------

  /** One paper's block: the seven lines of the source's f-strings, joined. */
  function ArxivBlock(entryId: string, date: string, authors: string, title: string,
                      summary: string, content: string): string {
    Concat(ArxivLines(entryId, date, authors, title, summary, content))
  }

  function ArxivLines(entryId: string, date: string, authors: string, title: string,
                      summary: string, content: string): seq<string> {
    [ "<Document source=\"" + entryId + "\" ",
      "date=\"" + date + "\" ",
      "authors=\"" + authors + "\"/>\n",
      "<Title>\n" + title + "\n</Title>\n\n",
      "<Summary>\n" + summary + "\n</Summary>\n\n",
      "<Content>\n" + content + "\n</Content>\n",
      "</Document>" ]
  }

  /** `metadata.get(key, "")`. */
  function GetText(metadata: map<string, string>, key: string): string {
    if key in metadata then metadata[key] else ""
  }

  predicate HasArxivFields(doc: ArxivDoc) {
    "entry_id" in doc.metadata && "Title" in doc.metadata && "Summary" in doc.metadata
  }

  /** One paper as a block. "entry_id", "Title" and "Summary" are read in that
      order and raise for the first that is missing; "Published" and
      "Authors" fall back to the empty text. */
  function FormatArxivDoc(doc: ArxivDoc): (r: Result<string>)
    ensures r.Success? <==> HasArxivFields(doc)
  {
    var m := doc.metadata;
    if "entry_id" !in m then Failure(KeyErrorText("entry_id"))
    else if "Title" !in m then Failure(KeyErrorText("Title"))
    else if "Summary" !in m then Failure(KeyErrorText("Summary"))
    else Success(ArxivDocBlock(doc))
  }

  /** The block of a paper that has every required field. */
  function ArxivDocBlock(doc: ArxivDoc): string
    requires HasArxivFields(doc)
  {
    var m := doc.metadata;
    ArxivBlock(m["entry_id"], GetText(m, "Published"), GetText(m, "Authors"),
               m["Title"], m["Summary"], doc.pageContent)
  }

  /** The text `search_arxiv` returns when the backend behaves as given. */
  function ArxivSearchText(outcome: Outcome<ArxivDoc>): string {
    match outcome
    case Raised(message) => ArxivError(message)
    case Returned(docs) =>
      match FormatEach(docs, FormatArxivDoc)
      case Success(blocks) => Join(blocks, Separator)
      case Failure(message) => ArxivError(message)
  }

  /** The blocks of a list of complete papers, in input order. */
  function ArxivBlocks(docs: seq<ArxivDoc>): (blocks: seq<string>)
    requires forall i :: 0 <= i < |docs| ==> HasArxivFields(docs[i])
    ensures |blocks| == |docs|
  {
    seq(|docs|, i requires 0 <= i < |docs| && HasArxivFields(docs[i]) => ArxivDocBlock(docs[i]))
  }

  // ---------------------------------------------------------------------------
  // The tools object
  // ---------------------------------------------------------------------------

  /** `SearchTools`: the settings it reads once, at construction, and the two
      searches. The backends are parameters of the searches, each called with
      the result limit the tools were built with and the query, which may be
      `None` when the model left it unset. */
  class SearchTools {
    const configuration: Configuration
    /** `max_results` of the web search client. */
    const tavilyMaxResults: Value
    /** `load_max_docs` of the ArXiv client. */
    const arxivMaxDocs: Value

    constructor(config: RunnableConfig)
      requires WellFormed(config)
      ensures configuration == FromRunnableConfig(config)
      ensures tavilyMaxResults == configuration.tavilyMaxResults
      ensures arxivMaxDocs == configuration.arxivMaxDocs
    {
      configuration := FromRunnableConfig(config);
      tavilyMaxResults := FromRunnableConfig(config).tavilyMaxResults;
      arxivMaxDocs := FromRunnableConfig(config).arxivMaxDocs;
    }

    /** `search_web(query)`: the hits laid out one block each, or the error
      text; it never raises. */
    method SearchWeb(query: Option<string>, tavily: (Value, Option<string>) -> Outcome<WebResult>) returns (text: string)
      ensures text == WebSearchText(tavily(tavilyMaxResults, query))
    {
      var outcome := tavily(tavilyMaxResults, query);
      if outcome.Raised? {
        return WebError(outcome.message);
      }
      var results := outcome.results;
      var formatted: seq<string> := [];
      var i := 0;
      while i < |results|
        invariant 0 <= i <= |results|
        invariant forall j :: 0 <= j < i ==> HasWebFields(results[j])
        invariant |formatted| == i
        invariant forall j :: 0 <= j < i ==> formatted[j] == WebBlock(results[j]["url"], results[j]["content"])
      {
        var doc := results[i];
        if "url" !in doc {
          FormatEachFirstFailure(results, i, FormatWebResult);
          return WebError(KeyErrorText("url"));
        }
        if "content" !in doc {
          FormatEachFirstFailure(results, i, FormatWebResult);
          return WebError(KeyErrorText("content"));
        }
        formatted := formatted + [WebBlock(doc["url"], doc["content"])];
        i := i + 1;
      }
      WebSearchFormatsEveryResult(results);
      assert formatted == WebBlocks(results);
      text := Join(formatted, Separator);
    }

    /** `search_arxiv(query)`: the papers laid out one block each, or the
      error text; it never raises. */
    method SearchArxiv(query: Option<string>, arxiv: (Value, Option<string>) -> Outcome<ArxivDoc>) returns (text: string)
      ensures text == ArxivSearchText(arxiv(arxivMaxDocs, query))
    {
      var outcome := arxiv(arxivMaxDocs, query);
      if outcome.Raised? {
        return ArxivError(outcome.message);
      }
      var docs := outcome.results;
      var formatted: seq<string> := [];
      var i := 0;
      while i < |docs|
        invariant 0 <= i <= |docs|
        invariant forall j :: 0 <= j < i ==> HasArxivFields(docs[j])
        invariant |formatted| == i
        invariant forall j :: 0 <= j < i ==> formatted[j] == ArxivDocBlock(docs[j])
      {
        var metadata := docs[i].metadata;
        if "entry_id" !in metadata {
          FormatEachFirstFailure(docs, i, FormatArxivDoc);
          return ArxivError(KeyErrorText("entry_id"));
        }
        if "Title" !in metadata {
          FormatEachFirstFailure(docs, i, FormatArxivDoc);
          return ArxivError(KeyErrorText("Title"));
        }
        if "Summary" !in metadata {
          FormatEachFirstFailure(docs, i, FormatArxivDoc);
          return ArxivError(KeyErrorText("Summary"));
        }
        var block := ArxivBlock(metadata["entry_id"], GetText(metadata, "Published"),
                                GetText(metadata, "Authors"), metadata["Title"],
                                metadata["Summary"], docs[i].pageContent);
        formatted := formatted + [block];
        i := i + 1;
      }
      ArxivSearchFormatsEveryDoc(docs);
      assert formatted == ArxivBlocks(docs);
      text := Join(formatted, Separator);
    }
  }

  /** `get_search_tools(config)`: a new tools object for the configuration. */
  method GetSearchTools(config: RunnableConfig) returns (tools: SearchTools)
    requires WellFormed(config)
    ensures fresh(tools)
    ensures tools.configuration == FromRunnableConfig(config)
    ensures tools.tavilyMaxResults == tools.configuration.tavilyMaxResults
    ensures tools.arxivMaxDocs == tools.configuration.arxivMaxDocs
  {
    tools := new SearchTools(config);
  }

  // ---------------------------------------------------------------------------
  // Properties of the result texts
  // ---------------------------------------------------------------------------

  /** Complete hits give their blocks, in input order, joined by the rule; no
      hits give the empty text. */
  lemma WebSearchFormatsEveryResult(results: seq<WebResult>)
    requires forall i :: 0 <= i < |results| ==> HasWebFields(results[i])
    ensures WebSearchText(Returned(results)) == Join(WebBlocks(results), Separator)
    ensures results == [] ==> WebSearchText(Returned(results)) == ""
  {
    var r := FormatEach(results, FormatWebResult);
    assert r.Success?;
    assert r.value == WebBlocks(results);
  }

  /** A hit that lacks "url" or "content" turns the whole call into the error
      text naming the first missing key of the first incomplete hit: no
      partial result is returned. */
  lemma WebSearchFailsOnFirstIncomplete(results: seq<WebResult>, i: nat)
    requires i < |results| && !HasWebFields(results[i])
    requires forall j :: 0 <= j < i ==> HasWebFields(results[j])
    ensures WebSearchText(Returned(results))
         == WebError(KeyErrorText(if "url" !in results[i] then "url" else "content"))
  {
    FormatEachFirstFailure(results, i, FormatWebResult);
  }

  /** A backend exception becomes the error text carrying its message. */
  lemma WebSearchWrapsBackendError(message: string)
    ensures WebSearchText(Raised(message)) == WebError(message)
    ensures StartsWith(WebSearchText(Raised(message)), "<Error>")
  {
    assert WebError(message) == "<Error>" + ("Error occurred during web search: " + message + "</Error>");
  }

  /** Complete papers give their blocks, in input order, joined by the rule;
      no papers give the empty text. */
  lemma ArxivSearchFormatsEveryDoc(docs: seq<ArxivDoc>)
    requires forall i :: 0 <= i < |docs| ==> HasArxivFields(docs[i])
    ensures ArxivSearchText(Returned(docs)) == Join(ArxivBlocks(docs), Separator)
    ensures docs == [] ==> ArxivSearchText(Returned(docs)) == ""
  {
    var r := FormatEach(docs, FormatArxivDoc);
    assert r.Success?;
    assert r.value == ArxivBlocks(docs);
  }

  /** A paper lacking "entry_id", "Title" or "Summary" turns the whole call
      into the error text naming the first missing key, in that order. */
  lemma ArxivSearchFailsOnFirstIncomplete(docs: seq<ArxivDoc>, i: nat)
    requires i < |docs| && !HasArxivFields(docs[i])
    requires forall j :: 0 <= j < i ==> HasArxivFields(docs[j])
    ensures var m := docs[i].metadata;
      ArxivSearchText(Returned(docs))
        == ArxivError(KeyErrorText(if "entry_id" !in m then "entry_id"
                                   else if "Title" !in m then "Title" else "Summary"))
  {
    FormatEachFirstFailure(docs, i, FormatArxivDoc);
  }

  /** A backend exception becomes the error text carrying its message. */
  lemma ArxivSearchWrapsBackendError(message: string)
    ensures ArxivSearchText(Raised(message)) == ArxivError(message)
    ensures StartsWith(ArxivSearchText(Raised(message)), "<Error>")
  {
    assert ArxivError(message) == "<Error>" + ("Error occurred during ArXiv search: " + message + "</Error>");
  }

  // ---------------------------------------------------------------------------
  // One <Document block per result
  // ---------------------------------------------------------------------------

  lemma SeparatorOpensNoDocument()
    ensures |Separator| > 0 && Separator[0] !in DocumentTag[1..] && NoOpenerIn(Separator, DocumentTag)
  {
  }

  /** A field is placed inside a block, ahead of a piece whose first
      character cannot continue a partial tag. */
  lemma FieldThenTail(field: string, tail: string)
    requires !Contains(field, DocumentTag)
    requires |tail| > 0 && tail[0] !in DocumentTag[1..]
    ensures Occurrences(field + tail, DocumentTag) == Occurrences(tail, DocumentTag)
  {
    ContainsIffOccurs(field, DocumentTag);
    OccurrencesConcat(field, tail, DocumentTag);
  }

  /** Fixed text without '<', then a field, then the rest of the block. */
  lemma PieceThenField(piece: string, field: string, rest: string)
    requires |piece| > 0 && DocumentTag[0] !in piece && piece[0] !in DocumentTag[1..]
    requires !Contains(field, DocumentTag)
    requires |rest| > 0 && rest[0] !in DocumentTag[1..]
    ensures Occurrences(piece + (field + rest), DocumentTag) == Occurrences(rest, DocumentTag)
  {
    FieldThenTail(field, rest);
    OccurrencesAfterPlain(piece, field + rest, DocumentTag);
  }

  /** A tag other than `<Document`, such as `</Document>` or `<Title>`. */
  lemma TagThen(tag: string, rest: string)
    requires |tag| >= 2 && tag[1] != DocumentTag[1] && DocumentTag[0] !in tag[1..]
    ensures Occurrences(tag + rest, DocumentTag) == Occurrences(rest, DocumentTag)
  {
    OccurrencesAfterTag(tag, rest, DocumentTag);
  }

  lemma WebBlockTail(content: string)
    requires !Contains(content, DocumentTag)
    ensures Occurrences("\"/>\n" + (content + ("\n" + ("</Document>" + []))), DocumentTag) == 0
  {
    TagThen("</Document>", []);
    OccurrencesAfterPlain("\n", "</Document>" + [], DocumentTag);
    PieceThenField("\"/>\n", content, "\n" + ("</Document>" + []));
  }

  lemma WebBlockPieces(url: string, content: string)
    ensures WebBlock(url, content)
         == "<Document href=\"" + (url + ("\"/>\n" + (content + ("\n" + ("</Document>" + [])))))
  {
    assert "\n</Document>" == "\n" + ("</Document>" + []);
  }

  lemma WebBlockHasOneDocument(url: string, content: string)
    requires !Contains(url, DocumentTag) && !Contains(content, DocumentTag)
    ensures Occurrences(WebBlock(url, content), DocumentTag) == 1
  {
    var rest := "\"/>\n" + (content + ("\n" + ("</Document>" + [])));
    WebBlockTail(content);
    FieldThenTail(url, rest);
    OccurrencesAfterOpener("<Document href=\"", url + rest, DocumentTag);
    WebBlockPieces(url, content);
  }

  /** No field of a hit holds the tag itself. */
  predicate WebFieldsTagFree(doc: WebResult)
    requires HasWebFields(doc)
  {
    !Contains(doc["url"], DocumentTag) && !Contains(doc["content"], DocumentTag)
  }

  /** A successful web search holds exactly one `<Document` per hit, provided
      the hits themselves do not contain that tag. */
  lemma WebDocumentCount(results: seq<WebResult>)
    requires forall i :: 0 <= i < |results| ==> HasWebFields(results[i]) && WebFieldsTagFree(results[i])
    ensures Occurrences(WebSearchText(Returned(results)), DocumentTag) == |results|
  {
    WebSearchFormatsEveryResult(results);
    var blocks := WebBlocks(results);
    forall i | 0 <= i < |blocks|
      ensures Occurrences(blocks[i], DocumentTag) == 1
    {
      WebBlockHasOneDocument(results[i]["url"], results[i]["content"]);
    }
    SeparatorOpensNoDocument();
    OccurrencesOfJoin(blocks, Separator, DocumentTag);
  }

  /** A line of a block that holds one field between fixed texts without
      '<' holds no tag. */
  lemma FieldLine(head: string, field: string, tail: string)
    requires DocumentTag[0] !in head && !Contains(field, DocumentTag)
    requires |tail| > 0 && tail[0] !in DocumentTag[1..] && DocumentTag[0] !in tail
    ensures Occurrences(head + field + tail, DocumentTag) == 0
  {
    ContainsIffOccurs(field, DocumentTag);
    OccurrencesAfterPlain(head, field, DocumentTag);
    OccurrencesConcat(head + field, tail, DocumentTag);
    assert tail + [] == tail;
    OccurrencesAfterPlain(tail, [], DocumentTag);
  }

  /** A line of a block that holds one field between an opening tag and a
      line break followed by a closing tag, none of them `<Document`. */
  lemma TagLine(open: string, field: string, close: string)
    requires |open| >= 2 && open[1] != DocumentTag[1] && DocumentTag[0] !in open[1..]
    requires |close| >= 2 && close[1] != DocumentTag[1] && DocumentTag[0] !in close[1..]
    requires !Contains(field, DocumentTag)
    ensures Occurrences(open + field + ("\n" + close), DocumentTag) == 0
  {
    ContainsIffOccurs(field, DocumentTag);
    TagThen(open, field);
    OccurrencesConcat(open + field, "\n" + close, DocumentTag);
    assert close + [] == close;
    TagThen(close, []);
    OccurrencesAfterPlain("\n", close, DocumentTag);
  }

  /** Lines that each start with a character that cannot continue a partial
      tag add up their tags. */
  lemma {:induction false} OccurrencesOfLines(lines: seq<string>)
    requires forall i :: 0 < i < |lines| ==> |lines[i]| > 0 && lines[i][0] !in DocumentTag[1..]
    ensures Occurrences(Concat(lines), DocumentTag) == SumOccurrences(lines)
    decreases |lines|
  {
    if lines != [] {
      OccurrencesOfLines(lines[1..]);
      var rest := Concat(lines[1..]);
      if |lines| > 1 {
        assert rest == lines[1] + Concat(lines[2..]);
      }
      OccurrencesConcat(lines[0], rest, DocumentTag);
    }
  }

  function SumOccurrences(lines: seq<string>): nat
    decreases |lines|
  {
    if lines == [] then 0 else Occurrences(lines[0], DocumentTag) + SumOccurrences(lines[1..])
  }

  lemma {:induction false} SumOfTagFree(lines: seq<string>)
    requires forall i :: 0 <= i < |lines| ==> Occurrences(lines[i], DocumentTag) == 0
    ensures SumOccurrences(lines) == 0
    decreases |lines|
  {
    if lines != [] {
      SumOfTagFree(lines[1..]);
    }
  }

  /** A first line with one tag followed by tag-free lines, each starting with
      a character that cannot continue a partial tag: one tag in all. */
  lemma OneOpenerLines(lines: seq<string>)
    requires |lines| > 0 && Occurrences(lines[0], DocumentTag) == 1
    requires forall i :: 0 < i < |lines| ==> LaterLine(lines[i])
    ensures Occurrences(Concat(lines), DocumentTag) == 1
  {
    OccurrencesOfLines(lines);
    SumOfTagFree(lines[1..]);
  }

  lemma SourceLine(entryId: string)
    requires !Contains(entryId, DocumentTag)
    ensures Occurrences("<Document source=\"" + entryId + "\" ", DocumentTag) == 1
  {
    ContainsIffOccurs(entryId, DocumentTag);
    OccurrencesAfterOpener("<Document source=\"", entryId, DocumentTag);
    assert "\" " + [] == "\" ";
    OccurrencesAfterPlain("\" ", [], DocumentTag);
    OccurrencesConcat("<Document source=\"" + entryId, "\" ", DocumentTag);
  }

  /** A line after the first of a block: tag-free, and starting with a
      character that cannot continue a partial tag. */
  predicate LaterLine(line: string) {
    Occurrences(line, DocumentTag) == 0 && |line| > 0 && line[0] !in DocumentTag[1..]
  }

  /** The lines of an ArXiv block between the first and the last hold no tag. */
  lemma ArxivMiddleLines(entryId: string, date: string, authors: string, title: string,
                         summary: string, content: string, lines: seq<string>)
    requires !Contains(date, DocumentTag) && !Contains(authors, DocumentTag)
    requires !Contains(title, DocumentTag)
    requires lines == ArxivLines(entryId, date, authors, title, summary, content)
    ensures LaterLine(lines[1]) && LaterLine(lines[2]) && LaterLine(lines[3])
  {
    FieldLine("date=\"", date, "\" ");
    FieldLine("authors=\"", authors, "\"/>\n");
    TagLine("<Title>\n", title, "</Title>\n\n");
    assert "\n" + "</Title>\n\n" == "\n</Title>\n\n";
  }

  lemma ArxivLastLines(entryId: string, date: string, authors: string, title: string,
                       summary: string, content: string, lines: seq<string>)
    requires !Contains(summary, DocumentTag) && !Contains(content, DocumentTag)
    requires lines == ArxivLines(entryId, date, authors, title, summary, content)
    ensures LaterLine(lines[4]) && LaterLine(lines[5]) && LaterLine(lines[6])
  {
    TagLine("<Summary>\n", summary, "</Summary>\n\n");
    assert "\n" + "</Summary>\n\n" == "\n</Summary>\n\n";
    TagLine("<Content>\n", content, "</Content>\n");
    assert "\n" + "</Content>\n" == "\n</Content>\n";
    assert "</Document>" + [] == "</Document>";
    TagThen("</Document>", []);
  }

  lemma SevenLines(lines: seq<string>)
    requires |lines| == 7
    requires LaterLine(lines[1]) && LaterLine(lines[2]) && LaterLine(lines[3])
    requires LaterLine(lines[4]) && LaterLine(lines[5]) && LaterLine(lines[6])
    ensures forall i :: 0 < i < |lines| ==> LaterLine(lines[i])
  {
  }

  lemma ArxivBlockHasOneDocument(entryId: string, date: string, authors: string, title: string,
                                 summary: string, content: string)
    requires !Contains(entryId, DocumentTag) && !Contains(date, DocumentTag)
    requires !Contains(authors, DocumentTag) && !Contains(title, DocumentTag)
    requires !Contains(summary, DocumentTag) && !Contains(content, DocumentTag)
    ensures Occurrences(ArxivBlock(entryId, date, authors, title, summary, content), DocumentTag) == 1
  {
    var lines := ArxivLines(entryId, date, authors, title, summary, content);
    SourceLine(entryId);
    ArxivMiddleLines(entryId, date, authors, title, summary, content, lines);
    ArxivLastLines(entryId, date, authors, title, summary, content, lines);
    SevenLines(lines);
    OneOpenerLines(lines);
  }

  /** No text that goes into a paper's block holds the tag itself. */
  predicate ArxivFieldsTagFree(doc: ArxivDoc)
    requires HasArxivFields(doc)
  {
    var m := doc.metadata;
    && !Contains(m["entry_id"], DocumentTag) && !Contains(GetText(m, "Published"), DocumentTag)
    && !Contains(GetText(m, "Authors"), DocumentTag) && !Contains(m["Title"], DocumentTag)
    && !Contains(m["Summary"], DocumentTag) && !Contains(doc.pageContent, DocumentTag)
  }

  /** A successful ArXiv search holds exactly one `<Document` per paper,
      provided the papers themselves do not contain that tag. */
  lemma ArxivDocumentCount(docs: seq<ArxivDoc>)
    requires forall i :: 0 <= i < |docs| ==> HasArxivFields(docs[i]) && ArxivFieldsTagFree(docs[i])
    ensures Occurrences(ArxivSearchText(Returned(docs)), DocumentTag) == |docs|
  {
    ArxivSearchFormatsEveryDoc(docs);
    var blocks := ArxivBlocks(docs);
    forall i | 0 <= i < |blocks|
      ensures Occurrences(blocks[i], DocumentTag) == 1
    {
      var m := docs[i].metadata;
      ArxivBlockHasOneDocument(m["entry_id"], GetText(m, "Published"), GetText(m, "Authors"),
                               m["Title"], m["Summary"], docs[i].pageContent);
    }
    SeparatorOpensNoDocument();
    OccurrencesOfJoin(blocks, Separator, DocumentTag);
  }
}
