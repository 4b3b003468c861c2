/**
 * The tool list both agent classes build from their enable flags, and the
 * web-URL crawler tool's text assembly and truncation.  Loading a page is a
 * foreign call: the crawler receives the loaded documents.
 */
module Tools {
  import opened Wrappers
  import PyStr

  datatype Engine = Serper | DuckDuckGo
  datatype CodeRunner = E2BDataAnalysis | PythonAstRepl

  /** A tool handed to the agent executor. */
  datatype Tool =
    | Search(engine: Engine)
    | RunPythonCode(runner: CodeRunner)
    | WebUrlCrawler(name: string)

  /** The position a tool kind takes in the list: search, then code, then crawler. */
  function Rank(t: Tool): nat {
    match t
    case Search(_) => 0
    case RunPythonCode(_) => 1
    case WebUrlCrawler(_) => 2
  }

  /** `run_python_code_tool`: the E2B tool when an E2B key is set, the AST REPL otherwise. */
  function Runner(e2bKey: Option<string>): (r: CodeRunner)
    ensures r == E2BDataAnalysis <==> e2bKey.Some? && e2bKey.value != ""
  {
    if e2bKey.Some? && e2bKey.value != "" then E2BDataAnalysis else PythonAstRepl
  }

  /** The tools appended, in order, for the enabled flags. */
  function EnabledTools(search: bool, code: bool, crawler: bool,
                        engine: Engine, runner: CodeRunner, crawlerName: string): (r: seq<Tool>)
    ensures Search(engine) in r <==> search
    ensures RunPythonCode(runner) in r <==> code
    ensures WebUrlCrawler(crawlerName) in r <==> crawler
    ensures forall t :: t in r ==> t == Search(engine) || t == RunPythonCode(runner) || t == WebUrlCrawler(crawlerName)
    ensures forall i, j :: 0 <= i < j < |r| ==> Rank(r[i]) < Rank(r[j])
    ensures r == [] <==> !search && !code && !crawler
  {
    (if search then [Search(engine)] else [])
    + (if code then [RunPythonCode(runner)] else [])
    + (if crawler then [WebUrlCrawler(crawlerName)] else [])
  }

  // ---------------------------------------------------------------------------
  // web_url_crawler_func
  // ---------------------------------------------------------------------------

  /** Which loader the crawler uses for a URL. */
  datatype Loader = OnlinePdf(path: string) | WebBase(url: string)

  /** The URL is stripped; a `.pdf` suffix selects the PDF loader. */
  function CrawlerLoader(url: string): (l: Loader)
    ensures l.OnlinePdf? <==> PyStr.EndsWith(PyStr.Strip(url), ".pdf")
    ensures l == OnlinePdf(PyStr.Strip(url)) || l == WebBase(PyStr.Strip(url))
  {
    var u := PyStr.Strip(url);
    if PyStr.EndsWith(u, ".pdf") then OnlinePdf(u) else WebBase(u)
  }

  /** A loaded document: its metadata dictionary and its page text. */
  datatype LoadedDoc = LoadedDoc(metadata: map<string, string>, pageContent: string)

  /** `d.metadata.get(key, "").strip()` */
  function MetaField(d: LoadedDoc, key: string): string {
    PyStr.Strip(if key in d.metadata then d.metadata[key] else "")
  }

  /** The block one document contributes to the crawler text. */
  function Entry(d: LoadedDoc): string {
    "title: " + MetaField(d, "title") + "\ndescription:" + MetaField(d, "description")
    + "\n" + PyStr.Strip(d.pageContent) + "\n\n"
  }

  /** The blocks of all documents, in load order. */
  function Entries(docs: seq<LoadedDoc>): (r: seq<string>)
    ensures |r| == |docs|
    ensures forall i :: 0 <= i < |docs| ==> r[i] == Entry(docs[i])
  {
    seq(|docs|, i requires 0 <= i < |docs| => Entry(docs[i]))
  }

  /** The text the crawler assembles: every document's block, in load order. */
  function CrawlerText(docs: seq<LoadedDoc>): string {
    PyStr.Concat(Entries(docs))
  }

  /** The crawler text of two batches of documents is the concatenation of their texts. */
  lemma CrawlerTextAppend(a: seq<LoadedDoc>, b: seq<LoadedDoc>)
    ensures CrawlerText(a + b) == CrawlerText(a) + CrawlerText(b)
  {
    assert Entries(a + b) == Entries(a) + Entries(b);
    PyStr.ConcatAppend(Entries(a), Entries(b));
  }

  /** Every document's block appears in the crawler text, after the blocks of the documents before it. */
  lemma EntryInCrawlerText(docs: seq<LoadedDoc>, k: nat)
    requires k < |docs|
    ensures PyStr.OccursAt(CrawlerText(docs), Entry(docs[k]), |CrawlerText(docs[..k])|)
  {
    var e := Entries(docs);
    assert e == Entries(docs[..k]) + [Entry(docs[k])] + Entries(docs[k + 1..]);
    PyStr.ConcatAppend(Entries(docs[..k]) + [Entry(docs[k])], Entries(docs[k + 1..]));
    PyStr.ConcatAppend(Entries(docs[..k]), [Entry(docs[k])]);
    PyStr.ConcatSingle(Entry(docs[k]));
  }

  /**
   * The crawler's result: the assembled text, cut to its first `budget`
   * characters (Python's `content[:budget]`) only when its token count is over
   * the budget.
   */
  method CrawlerContent(docs: seq<LoadedDoc>, tok: string -> nat, budget: int) returns (content: string)
    ensures tok(CrawlerText(docs)) <= budget ==> content == CrawlerText(docs)
    ensures tok(CrawlerText(docs)) > budget ==> content == PyStr.SliceTo(CrawlerText(docs), budget)
    ensures content == CrawlerText(docs)[..|content|]
  {
    content := "";
    var i := 0;
    while i < |docs|
      invariant 0 <= i <= |docs|
      invariant content == PyStr.Concat(Entries(docs[..i]))
    {
      var d := docs[i];
      var title := MetaField(d, "title");
      var desc := MetaField(d, "description");
      var pageContent := PyStr.Strip(d.pageContent);
      var block := "title: " + title + "\ndescription:" + desc + "\n" + pageContent + "\n\n";
      assert block == Entry(d);
      content := content + block;
      assert Entries(docs[..i + 1]) == Entries(docs[..i]) + [Entry(d)];
      PyStr.ConcatAppend(Entries(docs[..i]), [Entry(d)]);
      PyStr.ConcatSingle(Entry(d));
      i := i + 1;
    }
    assert docs[..i] == docs;
    var contentTokens := tok(content);
    if contentTokens > budget {
      content := PyStr.SliceTo(content, budget);
    }
  }
}
