/**
 * The retrieval app: the choice of a document loader from a file's name and
 * content type, the choice of the embedding function from the configured
 * model name (at start-up and on update), and the query settings with their
 * defaults.  The loaders and embedding functions themselves are foreign; they
 * appear only as the variant chosen and its arguments.
 */
module RagApp {
  import opened Wrappers
  import PyStr
  import Config

  // ---------------------------------------------------------------------------
  // Loaders
  // ---------------------------------------------------------------------------

  datatype Loader =
    | PyPdfLoader(extractImages: bool)
    | CsvLoader
    | UnstructuredRstLoader
    | UnstructuredXmlLoader
    | UnstructuredMarkdownLoader
    | UnstructuredEPubLoader
    | Docx2txtLoader
    | UnstructuredExcelLoader
    | TextLoader

  /** `get_loader`'s result: the loader and whether the file type was recognised. */
  datatype LoaderChoice = LoaderChoice(loader: Loader, knownType: bool)

  /** The extensions read as plain source text. */
  const KnownSourceExt: seq<string> := [
    "go", "py", "java", "sh", "bat", "ps1", "cmd", "js", "ts", "css", "cpp", "hpp", "h", "c",
    "cs", "sql", "log", "ini", "pl", "pm", "r", "dart", "dockerfile", "env", "php", "hs", "hsc",
    "lua", "nginxconf", "conf", "m", "mm", "plsql", "perl", "rb", "rs", "db2", "scala", "bash",
    "swift", "vue", "svelte"
  ]

  const EPubType: string := "application/epub+zip"
  const WordType: string := "application/vnd.openxmlformats-officedocument.wordprocessingml.document"
  const ExcelTypes: seq<string> := [
    "application/vnd.ms-excel",
    "application/vnd.openxmlformats-officedocument.spreadsheetml.sheet"
  ]

  /** `filename.split(".")[-1].lower()` */
  function FileExtension(filename: string): string {
    PyStr.Lower(PyStr.LastPart(filename, '.'))
  }

  /**
   * The extension is the lower-cased text after the last dot; without a dot
   * it is the whole name lower-cased.
   */
  lemma FileExtensionSpec(filename: string)
    ensures var tail := PyStr.LastPart(filename, '.');
            && FileExtension(filename) == PyStr.Lower(tail)
            && PyStr.EndsWith(filename, tail)
            && '.' !in tail
            && ('.' in filename ==> PyStr.EndsWith(filename, "." + tail))
            && ('.' !in filename ==> FileExtension(filename) == PyStr.Lower(filename))
  {
    var tail := PyStr.LastPart(filename, '.');
    PyStr.LastPartSpec(filename, '.');
    PyStr.SplitPartsFree(filename, '.');
    assert forall i :: 0 <= i < |tail| ==> tail[i] != '.';
    if '.' in filename {
      var n := |filename| - |tail| - 1;
      assert filename[n..] == [filename[n]] + filename[n + 1..];
    }
  }

  /** A content type is present and non-empty, as `file_content_type and ...` requires. */
  predicate Truthy(s: Option<string>) {
    s.Some? && s.value != ""
  }

  predicate IsTextType(contentType: Option<string>) {
    Truthy(contentType) && PyStr.Contains(contentType.value, "text/")
  }

  /**
   * `get_loader`: the extensions `pdf`, `csv`, `rst`, `xml` and `md` first,
   * then the content types for e-books, Word and Excel documents (or their
   * extensions), then source extensions and `text/` content types; anything
   * else is still read as text but reported as an unknown type.
   */
  function GetLoader(filename: string, contentType: Option<string>, pdfExtractImages: bool): (r: LoaderChoice)
    ensures !r.knownType ==> r.loader == TextLoader
  {
    var ext := FileExtension(filename);
    if ext == "pdf" then LoaderChoice(PyPdfLoader(pdfExtractImages), true)
    else if ext == "csv" then LoaderChoice(CsvLoader, true)
    else if ext == "rst" then LoaderChoice(UnstructuredRstLoader, true)
    else if ext == "xml" then LoaderChoice(UnstructuredXmlLoader, true)
    else if ext == "md" then LoaderChoice(UnstructuredMarkdownLoader, true)
    else if contentType == Some(EPubType) then LoaderChoice(UnstructuredEPubLoader, true)
    else if contentType == Some(WordType) || ext in ["doc", "docx"] then LoaderChoice(Docx2txtLoader, true)
    else if (contentType.Some? && contentType.value in ExcelTypes) || ext in ["xls", "xlsx"] then
      LoaderChoice(UnstructuredExcelLoader, true)
    else if ext in KnownSourceExt || IsTextType(contentType) then LoaderChoice(TextLoader, true)
    else LoaderChoice(TextLoader, false)
  }

  /** The five extension checks win over any content type. */
  lemma ExtensionChecksFirst(filename: string, contentType: Option<string>, pdfExtractImages: bool)
    ensures var ext := FileExtension(filename);
            var r := GetLoader(filename, contentType, pdfExtractImages);
            && (ext == "pdf" ==> r == LoaderChoice(PyPdfLoader(pdfExtractImages), true))
            && (ext == "csv" ==> r == LoaderChoice(CsvLoader, true))
            && (ext == "rst" ==> r == LoaderChoice(UnstructuredRstLoader, true))
            && (ext == "xml" ==> r == LoaderChoice(UnstructuredXmlLoader, true))
            && (ext == "md" ==> r == LoaderChoice(UnstructuredMarkdownLoader, true))
  {
  }

  /** Every extension or content type that some branch tests for. */
  predicate Recognised(ext: string, contentType: Option<string>) {
    || ext in ["pdf", "csv", "rst", "xml", "md", "doc", "docx", "xls", "xlsx"]
    || ext in KnownSourceExt
    || (contentType.Some? && (contentType.value == EPubType || contentType.value == WordType
                              || contentType.value in ExcelTypes))
    || IsTextType(contentType)
  }

  /** The type is reported unknown exactly when nothing about the file was recognised. */
  lemma KnownTypeIff(filename: string, contentType: Option<string>, pdfExtractImages: bool)
    ensures GetLoader(filename, contentType, pdfExtractImages).knownType
            <==> Recognised(FileExtension(filename), contentType)
  {
  }

  /**
   * A source extension, or a `text/` content type, is read as known text,
   * unless one of the earlier, more specific checks matched first.
   */
  lemma SourceOrTextIsText(filename: string, contentType: Option<string>, pdfExtractImages: bool)
    requires FileExtension(filename) !in ["pdf", "csv", "rst", "xml", "md", "doc", "docx", "xls", "xlsx"]
    requires FileExtension(filename) in KnownSourceExt || IsTextType(contentType)
    requires contentType.None? || (contentType.value != EPubType && contentType.value != WordType
                                   && contentType.value !in ExcelTypes)
    ensures GetLoader(filename, contentType, pdfExtractImages) == LoaderChoice(TextLoader, true)
  {
  }

  /** A PDF is read by the PDF loader whatever its content type claims. */
  lemma PdfWinsOverTextType(filename: string, contentType: Option<string>, pdfExtractImages: bool)
    requires FileExtension(filename) == "pdf" && IsTextType(contentType)
    ensures GetLoader(filename, contentType, pdfExtractImages).loader == PyPdfLoader(pdfExtractImages)
  {
  }

  /** A missing content type is treated like an empty one: it never matches. */
  lemma MissingContentTypeLikeEmpty(filename: string, pdfExtractImages: bool)
    ensures GetLoader(filename, None, pdfExtractImages) == GetLoader(filename, Some(""), pdfExtractImages)
  {
    assert |EPubType| > 0 && |WordType| > 0;
    assert forall t :: t in ExcelTypes ==> |t| > 0;
  }

  // ---------------------------------------------------------------------------
  // Embedding functions
  // ---------------------------------------------------------------------------

  datatype EmbeddingFunction =
    | OpenAIEmbedding(apiKey: string, apiBase: string, modelName: string)
    | Text2VecEmbedding(modelName: string)
    | Word2VecEmbedding(modelName: string)
    | SentenceTransformerEmbedding(modelName: string)
    | LiteralHashEmbedding

  /** `ValueError("No OpenAI API key found")`, and `[0]` on an empty URL list. */
  datatype RagError = NoOpenAIKey | IndexError

  /** `OPENAI_API_KEYS and OPENAI_API_KEYS[0]` */
  predicate HasKey(keys: seq<string>) {
    |keys| > 0 && keys[0] != ""
  }

  /** The OpenAI embedding function for `model`, from the first key and the first base URL. */
  function OpenAIFor(model: string, keys: seq<string>, baseUrls: seq<string>): (r: Result<EmbeddingFunction, RagError>)
    requires HasKey(keys)
    ensures r.Failure? <==> baseUrls == []
    ensures r.Success? ==> r.value == OpenAIEmbedding(keys[0], baseUrls[0], model)
  {
    if baseUrls == [] then Failure(IndexError) else Success(OpenAIEmbedding(keys[0], baseUrls[0], model))
  }

  /**
   * The embedding function chosen at start-up: OpenAI for a `text-embedding`
   * model only when a first key is set, otherwise text2vec, then word2vec by
   * name, and the literal-hash function for everything else.
   */
  function StartupEmbedding(model: string, keys: seq<string>, baseUrls: seq<string>): (r: Result<EmbeddingFunction, RagError>)
    ensures r.Failure? ==> PyStr.Contains(model, "text-embedding") && HasKey(keys) && baseUrls == []
    ensures r.Success? && r.value.OpenAIEmbedding? ==>
              PyStr.Contains(model, "text-embedding") && HasKey(keys) && r.value.apiKey == keys[0]
    ensures r.Success? && r.value.Text2VecEmbedding? ==> PyStr.Contains(model, "text2vec")
    ensures r.Success? && r.value.Word2VecEmbedding? ==> PyStr.Contains(model, "w2v")
    ensures r.Success? ==> !r.value.SentenceTransformerEmbedding?
    ensures r == Success(LiteralHashEmbedding) <==>
              && !(PyStr.Contains(model, "text-embedding") && HasKey(keys))
              && !PyStr.Contains(model, "text2vec") && !PyStr.Contains(model, "w2v")
    ensures PyStr.Contains(model, "text-embedding") && HasKey(keys) ==>
              (baseUrls == [] ==> r == Failure(IndexError))
              && (baseUrls != [] ==> r == Success(OpenAIEmbedding(keys[0], baseUrls[0], model)))
    ensures !(PyStr.Contains(model, "text-embedding") && HasKey(keys)) && PyStr.Contains(model, "text2vec") ==>
              r == Success(Text2VecEmbedding(model))
    ensures !(PyStr.Contains(model, "text-embedding") && HasKey(keys)) && !PyStr.Contains(model, "text2vec")
            && PyStr.Contains(model, "w2v") ==>
              r == Success(Word2VecEmbedding(model))
  {
    if PyStr.Contains(model, "text-embedding") && HasKey(keys) then OpenAIFor(model, keys, baseUrls)
    else if PyStr.Contains(model, "text2vec") then Success(Text2VecEmbedding(model))
    else if PyStr.Contains(model, "w2v") then Success(Word2VecEmbedding(model))
    else Success(LiteralHashEmbedding)
  }

  /**
   * The embedding function chosen by `update_embedding_model`: text2vec is
   * tested first, a `text-embedding` model without a key is an error, any
   * other non-empty name is a SentenceTransformer model and only the empty
   * name gives the literal-hash function.
   */
  function UpdatedEmbedding(model: string, keys: seq<string>, baseUrls: seq<string>): (r: Result<EmbeddingFunction, RagError>)
    ensures r == Failure(NoOpenAIKey) <==>
              !PyStr.Contains(model, "text2vec") && PyStr.Contains(model, "text-embedding") && !HasKey(keys)
    ensures r.Success? && r.value.Text2VecEmbedding? <==> r == Success(Text2VecEmbedding(model)) && PyStr.Contains(model, "text2vec")
    ensures r == Success(LiteralHashEmbedding) <==> model == ""
    ensures r.Success? && r.value.SentenceTransformerEmbedding? ==>
              model != "" && !PyStr.Contains(model, "text2vec") && !PyStr.Contains(model, "text-embedding")
              && !PyStr.Contains(model, "w2v")
    ensures !PyStr.Contains(model, "text2vec") && PyStr.Contains(model, "text-embedding") && HasKey(keys) ==>
              (baseUrls == [] ==> r == Failure(IndexError))
              && (baseUrls != [] ==> r == Success(OpenAIEmbedding(keys[0], baseUrls[0], model)))
    ensures !PyStr.Contains(model, "text2vec") && !PyStr.Contains(model, "text-embedding") && PyStr.Contains(model, "w2v") ==>
              r == Success(Word2VecEmbedding(model))
    ensures model != "" && !PyStr.Contains(model, "text2vec") && !PyStr.Contains(model, "text-embedding")
            && !PyStr.Contains(model, "w2v") ==>
              r == Success(SentenceTransformerEmbedding(model))
  {
    if PyStr.Contains(model, "text2vec") then Success(Text2VecEmbedding(model))
    else if PyStr.Contains(model, "text-embedding") then
      (if HasKey(keys) then OpenAIFor(model, keys, baseUrls) else Failure(NoOpenAIKey))
    else if PyStr.Contains(model, "w2v") then Success(Word2VecEmbedding(model))
    else if model != "" then Success(SentenceTransformerEmbedding(model))
    else Success(LiteralHashEmbedding)
  }

  /** The two choices differ: the update tests text2vec first and raises where start-up falls through. */
  lemma StartupAndUpdateDiffer(model: string, keys: seq<string>, baseUrls: seq<string>)
    ensures PyStr.Contains(model, "text2vec") && PyStr.Contains(model, "text-embedding") && HasKey(keys) && baseUrls != [] ==>
              StartupEmbedding(model, keys, baseUrls).value.OpenAIEmbedding?
              && UpdatedEmbedding(model, keys, baseUrls) == Success(Text2VecEmbedding(model))
    ensures PyStr.Contains(model, "text-embedding") && !PyStr.Contains(model, "text2vec") && !HasKey(keys) ==>
              StartupEmbedding(model, keys, baseUrls).Success? && UpdatedEmbedding(model, keys, baseUrls) == Failure(NoOpenAIKey)
  {
  }

  /** The two choices agree for the configured default model when a key and a base URL are set. */
  lemma DefaultModelAgrees(keys: seq<string>, baseUrls: seq<string>)
    requires HasKey(keys) && baseUrls != []
    ensures StartupEmbedding("text-embedding-ada-002", keys, baseUrls)
            == UpdatedEmbedding("text-embedding-ada-002", keys, baseUrls)
            == Success(OpenAIEmbedding(keys[0], baseUrls[0], "text-embedding-ada-002"))
  {
    var m := "text-embedding-ada-002";
    assert PyStr.StartsWith(m, "text-embedding");
    assert 'v' !in m;
    PyStr.ContainsHasChars(m, "text2vec", 5);
  }

  // ---------------------------------------------------------------------------
  // The app's state
  // ---------------------------------------------------------------------------

  /** `x if x else default` for an optional integer. */
  function IntOr(x: Option<int>, default: int): (r: int)
    ensures x.Some? && x.value != 0 ==> r == x.value
    ensures (x.None? || x.value == 0) ==> r == default
  {
    if x.Some? && x.value != 0 then x.value else default
  }

  class RagState {
    var ragTemplate: string
    var ragEmbeddingModel: string
    var topK: int
    var openaiApiKeys: seq<string>
    var openaiApiBaseUrls: seq<string>
    var embeddingFunction: EmbeddingFunction
    var pdfExtractImages: bool

    constructor (model: string, topK: int, keys: seq<string>, baseUrls: seq<string>, ef: EmbeddingFunction)
      ensures ragTemplate == Config.RagTemplate && ragEmbeddingModel == model && this.topK == topK
      ensures openaiApiKeys == keys && openaiApiBaseUrls == baseUrls
      ensures embeddingFunction == ef && !pdfExtractImages
    {
      ragTemplate := Config.RagTemplate;
      ragEmbeddingModel := model;
      this.topK := topK;
      openaiApiKeys := keys;
      openaiApiBaseUrls := baseUrls;
      embeddingFunction := ef;
      pdfExtractImages := false;
    }

    /**
     * The module's start-up: the settings come from the configuration and the
     * embedding function is chosen by `StartupEmbedding`, whose failure stops
     * the import.
     */
    static method Create(model: string, topK: int, keys: seq<string>, baseUrls: seq<string>)
      returns (r: Result<RagState, RagError>)
      ensures r.Failure? <==> StartupEmbedding(model, keys, baseUrls).Failure?
      ensures r.Success? ==> fresh(r.value) && r.value.embeddingFunction == StartupEmbedding(model, keys, baseUrls).value
                             && r.value.ragEmbeddingModel == model && r.value.topK == topK
                             && r.value.ragTemplate == Config.RagTemplate
    {
      var ef := StartupEmbedding(model, keys, baseUrls);
      if ef.Failure? {
        return Failure(ef.error);
      }
      var s := new RagState(model, topK, keys, baseUrls, ef.value);
      return Success(s);
    }

    /** `get_loader` with the app's PDF setting. */
    function LoaderFor(filename: string, contentType: Option<string>): (r: LoaderChoice)
      reads this
      ensures FileExtension(filename) == "pdf" ==> r.loader == PyPdfLoader(pdfExtractImages)
    {
      GetLoader(filename, contentType, pdfExtractImages)
    }

    /**
     * `update_embedding_model`: the model name is stored first, so it stays
     * changed even when the update then raises; the embedding function
     * changes only on success.
     */
    method UpdateEmbeddingModel(model: string) returns (r: Result<string, RagError>)
      modifies this`ragEmbeddingModel, this`embeddingFunction
      ensures ragEmbeddingModel == model
      ensures r.Failure? <==> UpdatedEmbedding(model, openaiApiKeys, openaiApiBaseUrls).Failure?
      ensures r.Success? ==> r.value == model
                             && embeddingFunction == UpdatedEmbedding(model, openaiApiKeys, openaiApiBaseUrls).value
      ensures r.Failure? ==> r.error == UpdatedEmbedding(model, openaiApiKeys, openaiApiBaseUrls).error
                             && embeddingFunction == old(embeddingFunction)
    {
      ragEmbeddingModel := model;
      var ef := UpdatedEmbedding(model, openaiApiKeys, openaiApiBaseUrls);
      if ef.Failure? {
        return Failure(ef.error);
      }
      embeddingFunction := ef.value;
      return Success(model);
    }

    /** The `k` the query handlers pass on: the form's when truthy, else the app's. */
    function EffectiveK(k: Option<int>): (r: int)
      reads this
      ensures topK != 0 ==> r != 0
      ensures k.Some? && k.value != 0 ==> r == k.value
      ensures (k.None? || k.value == 0) ==> r == topK
    {
      IntOr(k, topK)
    }

    /**
     * `update_query_settings`: an empty or missing template restores the
     * default one, and a missing or zero `k` becomes 4; so afterwards every
     * query handler searches for a non-zero number of documents.
     */
    method UpdateQuerySettings(k: Option<int>, template: Option<string>) returns (stored: string)
      modifies this`ragTemplate, this`topK
      ensures ragTemplate == (if template.Some? && template.value != "" then template.value else Config.RagTemplate)
      ensures topK == IntOr(k, 4) && topK != 0
      ensures forall formK :: EffectiveK(formK) != 0
      ensures stored == ragTemplate
    {
      ragTemplate := if template.Some? && template.value != "" then template.value else Config.RagTemplate;
      topK := if k.Some? && k.value != 0 then k.value else 4;
      stored := ragTemplate;
    }
  }
}
