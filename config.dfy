/**
 * The settings `chatpilot/config.py` derives from the environment and from
 * the optional `config.json`: the Ollama base URL(s), the boolean feature
 * flags, the comma-separated model lists, the request-rate limits and the
 * prompt suggestions.  The environment is a map from variable names to their
 * values; a missing name is an unset variable.
 */
module Config {
  import opened Wrappers
  import PyStr

  type Env = map<string, string>

  /** `int()` on a value that is not an integer, or a test on a value of the wrong type. */
  datatype ConfigError = InvalidInteger(name: string) | TypeError

  /** `os.getenv(name, default)` */
  function Getenv(env: Env, name: string, default: string): string {
    if name in env then env[name] else default
  }

  // ---------------------------------------------------------------------------
  // Ollama base URLs
  // ---------------------------------------------------------------------------

  /**
   * `OLLAMA_BASE_URL`, falling back to the older `OLLAMA_API_BASE_URL` with one
   * trailing `/api` removed.
   */
  function OllamaBaseUrl(env: Env): (url: string)
    ensures Getenv(env, "OLLAMA_BASE_URL", "") != "" ==> url == env["OLLAMA_BASE_URL"]
    ensures var api := Getenv(env, "OLLAMA_API_BASE_URL", "");
            Getenv(env, "OLLAMA_BASE_URL", "") == "" ==>
              if PyStr.EndsWith(api, "/api") then url + "/api" == api else url == api
  {
    var base := Getenv(env, "OLLAMA_BASE_URL", "");
    var api := Getenv(env, "OLLAMA_API_BASE_URL", "");
    if base == "" && api != "" then
      (if PyStr.EndsWith(api, "/api") then PyStr.SliceTo(api, -4) else api)
    else base
  }

  /** `OLLAMA_BASE_URLS`: the base URL split at `;`, each part stripped. */
  function OllamaBaseUrls(env: Env): seq<string> {
    PyStr.StripAll(PyStr.Split(OllamaBaseUrl(env), ';'))
  }

  /** One URL per `;`-separated part, and `[""]` when nothing is configured. */
  lemma OllamaBaseUrlsCount(env: Env)
    ensures |OllamaBaseUrls(env)| == PyStr.Count(OllamaBaseUrl(env), ';') + 1
    ensures "OLLAMA_BASE_URL" !in env && "OLLAMA_API_BASE_URL" !in env ==> OllamaBaseUrls(env) == [""]
  {
    PyStr.SplitLength(OllamaBaseUrl(env), ';');
    if "OLLAMA_BASE_URL" !in env && "OLLAMA_API_BASE_URL" !in env {
      assert PyStr.Strip("") == "";
    }
  }

  /**
   * With only the API URL set, exactly one trailing `/api` is removed: a
   * prefix that itself ends in `/api` keeps it.
   */
  lemma OllamaApiSuffixRemovedOnce(env: Env, prefix: string)
    requires Getenv(env, "OLLAMA_BASE_URL", "") == ""
    requires "OLLAMA_API_BASE_URL" in env && env["OLLAMA_API_BASE_URL"] == prefix + "/api"
    ensures OllamaBaseUrl(env) == prefix
  {
    var api := prefix + "/api";
    assert api[|api| - 4..] == "/api";
    assert api[..|api| - 4] == prefix;
  }

  // ---------------------------------------------------------------------------
  // Flags, lists and numbers
  // ---------------------------------------------------------------------------

  /** `os.getenv(name, "True").lower() == "true"` */
  function Flag(env: Env, name: string): bool {
    PyStr.Lower(Getenv(env, name, "True")) == "true"
  }

  /**
   * A flag is on when unset, and when set exactly when its value spells `true`
   * in any mix of upper and lower case; every other value, such as `"1"`,
   * `"yes"` or `"false"`, turns it off.
   */
  lemma FlagValues(env: Env, name: string)
    ensures name !in env ==> Flag(env, name)
    ensures name in env ==>
              (Flag(env, name) <==>
                 var v := env[name];
                 |v| == 4 && v[0] in "tT" && v[1] in "rR" && v[2] in "uU" && v[3] in "eE")
  {
    if name in env {
      var v := env[name];
      var low := PyStr.Lower(v);
      if |v| == 4 {
        assert low == "true" <==> low[0] == 't' && low[1] == 'r' && low[2] == 'u' && low[3] == 'e';
      } else {
        assert |low| != 4;
      }
    }
  }

  /** `[i.strip() for i in s.split(",")]` */
  function CommaList(s: string): seq<string> {
    PyStr.StripAll(PyStr.Split(s, ','))
  }

  /** `DEFAULT_MODELS`, by default the one model `gpt-3.5-turbo-1106`. */
  function DefaultModels(env: Env): seq<string> {
    CommaList(Getenv(env, "DEFAULT_MODELS", "gpt-3.5-turbo-1106"))
  }

  /** `MODEL_FILTER_LIST`, by default `[""]`. */
  function ModelFilterList(env: Env): seq<string> {
    CommaList(Getenv(env, "MODEL_FILTER_LIST", ""))
  }

  /** The lists have one entry per comma-separated part, none holding a comma. */
  lemma CommaListSpec(s: string)
    ensures |CommaList(s)| == PyStr.Count(s, ',') + 1
    ensures forall j :: 0 <= j < |CommaList(s)| ==> CommaList(s)[j] == PyStr.Strip(PyStr.Split(s, ',')[j])
    ensures forall j, i :: 0 <= j < |PyStr.Split(s, ',')| && 0 <= i < |PyStr.Split(s, ',')[j]| ==> PyStr.Split(s, ',')[j][i] != ','
  {
    PyStr.SplitLength(s, ',');
    PyStr.SplitPartsFree(s, ',');
  }

  lemma ModelFilterListDefault(env: Env)
    requires "MODEL_FILTER_LIST" !in env
    ensures ModelFilterList(env) == [""]
  {
    assert PyStr.Strip("") == "";
  }

  lemma DefaultModelsDefault(env: Env)
    requires "DEFAULT_MODELS" !in env
    ensures DefaultModels(env) == ["gpt-3.5-turbo-1106"]
  {
    var m := "gpt-3.5-turbo-1106";
    assert ',' !in m && m[0] == 'g' && m[|m| - 1] == '6';
    CommaListSingle(m);
  }

  /** A name without commas and without surrounding whitespace is a list of itself alone. */
  lemma CommaListSingle(s: string)
    requires ',' !in s && s != [] && !PyStr.IsSpace(s[0]) && !PyStr.IsSpace(s[|s| - 1])
    ensures CommaList(s) == [s]
  {
    PyStr.SplitWithoutSeparator(s, ',');
    assert PyStr.StripLeft(s) == s;
    assert PyStr.StripRight(s) == s;
  }

  // ---------------------------------------------------------------------------
  // Retrieval settings
  // ---------------------------------------------------------------------------

  /** `RAG_EMBEDDING_MODEL`, by default `text-embedding-ada-002`. */
  function RagEmbeddingModel(env: Env): string {
    Getenv(env, "RAG_EMBEDDING_MODEL", "text-embedding-ada-002")
  }

  /** `RAG_TOP_K`, by default 5. */
  function RagTopK(env: Env, parse: string -> Option<int>): Result<int, ConfigError> {
    IntSetting(env, "RAG_TOP_K", 5, parse)
  }

  /** `RAG_TEMPLATE`, the server's default prompt template for retrieval. */
  const RagTemplate: string := "根据以下文档资料（context）回答问题，不要使用外部工具。\n<context>\n[context]\n</context>\n\n问题: [query]\n"

  /**
   * `MODEL_FILTER_ENABLED`: the raw value of the variable, or `False` when it
   * is unset; as a condition it holds for every non-empty value.
   */
  function ModelFilterEnabled(env: Env): (enabled: bool)
    ensures enabled <==> "MODEL_FILTER_ENABLED" in env && |env["MODEL_FILTER_ENABLED"]| > 0
  {
    "MODEL_FILTER_ENABLED" in env && env["MODEL_FILTER_ENABLED"] != ""
  }

  /** Even the value `false` turns the filter on. */
  lemma ModelFilterEnabledByFalse(env: Env)
    requires "MODEL_FILTER_ENABLED" in env && env["MODEL_FILTER_ENABLED"] == "false"
    ensures ModelFilterEnabled(env)
  {
  }

  /**
   * `int(os.getenv(name, default))`; `parse` is Python's `int` on a string,
   * `None` where it raises.
   */
  function IntSetting(env: Env, name: string, default: int, parse: string -> Option<int>): (r: Result<int, ConfigError>)
    ensures name !in env ==> r == Success(default)
    ensures name in env ==> (r.Success? <==> parse(env[name]).Some?)
    ensures name in env && r.Success? ==> r.value == parse(env[name]).value
    ensures r.Failure? ==> r.error == InvalidInteger(name)
  {
    if name !in env then Success(default)
    else match parse(env[name])
      case Some(n) => Success(n)
      case None => Failure(InvalidInteger(name))
  }

  /** Requests per day and per minute; unset means no limit, written -1. */
  function Rpd(env: Env, parse: string -> Option<int>): Result<int, ConfigError> {
    IntSetting(env, "RPD", -1, parse)
  }

  function Rpm(env: Env, parse: string -> Option<int>): Result<int, ConfigError> {
    IntSetting(env, "RPM", -1, parse)
  }

  lemma RateLimitsDefault(env: Env, parse: string -> Option<int>)
    requires "RPD" !in env && "RPM" !in env
    ensures Rpd(env, parse) == Success(-1) && Rpm(env, parse) == Success(-1)
  {
  }

  // ---------------------------------------------------------------------------
  // Prompt suggestions
  // ---------------------------------------------------------------------------

  /** A value read from `config.json`. */
  datatype Json =
    | JNull
    | JBool(b: bool)
    | JNumber(n: int)
    | JString(s: string)
    | JArray(items: seq<Json>)
    | JObject(fields: map<string, Json>)

  /** `CONFIG_DATA`: the parsed `config.json`, or `{}` when it cannot be read. */
  function ConfigData(loaded: Option<Json>): Json {
    if loaded.Some? then loaded.value else JObject(map[])
  }

  /** Python's `key in container` for a string key. */
  function In(key: string, container: Json): Result<bool, ConfigError> {
    match container
      case JObject(fields) => Success(key in fields)
      case JArray(items) => Success(JString(key) in items)
      case JString(s) => Success(PyStr.Contains(s, key))
      case _ => Failure(TypeError)
  }

  /** `container[key]` after `key in container` held. */
  function Index(container: Json, key: string): Result<Json, ConfigError> {
    if container.JObject? && key in container.fields then Success(container.fields[key]) else Failure(TypeError)
  }

  function Suggestion(title1: string, title2: string, content: string): Json {
    JObject(map["title" := JArray([JString(title1), JString(title2)]), "content" := JString(content)])
  }

  /** The four suggestions used when the configuration has none. */
  const BuiltinSuggestions: seq<Json> := [
    Suggestion("介绍北京", "执行知识问答", "一句话介绍北京"),
    Suggestion("帮我算题", "执行代码解释器", "计算38023*40334=?"),
    Suggestion("北京今日天气", "执行搜索", "搜索一下北京今日天气"),
    Suggestion("Show me a code snippet", "of a website's sticky header",
               "Show me a code snippet of a website's sticky header in CSS and JavaScript. "
               + "just show me the code.")
  ]

  /**
   * `DEFAULT_PROMPT_SUGGESTIONS`: `CONFIG_DATA["ui"]["prompt_suggestions"]`
   * when both lookups succeed and the value is a list, else the built-in
   * ones.  The conditions are evaluated left to right, so a value of a type
   * that `in` or `[]` does not accept raises.
   */
  function PromptSuggestions(config: Json): (r: Result<seq<Json>, ConfigError>)
    ensures config.JObject? && "ui" !in config.fields ==> r == Success(BuiltinSuggestions)
    ensures (config.JObject? && "ui" in config.fields && config.fields["ui"].JObject?
             && "prompt_suggestions" in config.fields["ui"].fields) ==>
              var p := config.fields["ui"].fields["prompt_suggestions"];
              r == Success(if p.JArray? then p.items else BuiltinSuggestions)
    ensures (config.JObject? && "ui" in config.fields && config.fields["ui"].JObject?
             && "prompt_suggestions" !in config.fields["ui"].fields) ==> r == Success(BuiltinSuggestions)
    ensures r.Success? && r.value != BuiltinSuggestions ==>
              config.JObject? && "ui" in config.fields && config.fields["ui"].JObject?
              && "prompt_suggestions" in config.fields["ui"].fields
              && config.fields["ui"].fields["prompt_suggestions"] == JArray(r.value)
  {
    match In("ui", config)
      case Failure(e) => Failure(e)
      case Success(false) => Success(BuiltinSuggestions)
      case Success(true) =>
        match Index(config, "ui")
          case Failure(e) => Failure(e)
          case Success(ui) =>
            match In("prompt_suggestions", ui)
              case Failure(e) => Failure(e)
              case Success(false) => Success(BuiltinSuggestions)
              case Success(true) =>
                match Index(ui, "prompt_suggestions")
                  case Failure(e) => Failure(e)
                  case Success(p) => if p.JArray? then Success(p.items) else Success(BuiltinSuggestions)
  }

  /** Without a readable `config.json` the built-in suggestions apply. */
  lemma NoConfigFileBuiltinSuggestions()
    ensures PromptSuggestions(ConfigData(None)) == Success(BuiltinSuggestions)
  {
  }

  /** A `config.json` whose top level is a number or `null` raises at the first test. */
  lemma ScalarConfigRaises(config: Json)
    requires config.JNull? || config.JBool? || config.JNumber?
    ensures PromptSuggestions(config) == Failure(TypeError)
  {
  }
}
