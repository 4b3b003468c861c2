/**
 * `ChatAgent`: the constructor's checks and tool list, and the conversation
 * history it keeps across runs.  Unlike `LangchainAssistant` it falls back to
 * the stored history only when no history argument is given at all.
 */
module ChatAgent {
  import opened Wrappers
  import PyStr
  import opened History
  import opened Tools

  /** The constructor's arguments that decide its outcome. */
  datatype Options = Options(
    openaiApiKey: Option<string>,
    searchEngineName: string,
    serperApiKey: Option<string>,
    maxContextTokens: int,
    numMemoryTurns: int)

  /** Configuration the tool list reads. */
  datatype Env = Env(
    enableSearchTool: bool,
    enableRunPythonCodeTool: bool,
    enableCrawlerTool: bool,
    e2bApiKey: Option<string>)

  datatype SetupError = MissingOpenAIApiKey | MissingSerperApiKey | NoToolsEnabled

  /** Python truthiness of an optional string. */
  predicate IsSet(s: Option<string>) {
    s.Some? && s.value != ""
  }

  /** The tools appended in `_initialize_tools`, before the emptiness check. */
  function ToolsFor(o: Options, env: Env): seq<Tool> {
    EnabledTools(
      env.enableSearchTool, env.enableRunPythonCodeTool, env.enableCrawlerTool,
      if o.searchEngineName == "serper" then Serper else DuckDuckGo,
      Runner(env.e2bApiKey),
      "web_url_crawler")
  }

  /**
   * The constructor's checks, in order: an API key, a serper key when serper
   * is the engine (whatever the tool flags), at least one enabled tool.
   */
  function Setup(o: Options, env: Env): (r: Result<seq<Tool>, SetupError>)
    ensures r == Failure(MissingOpenAIApiKey) <==> !IsSet(o.openaiApiKey)
    ensures r == Failure(MissingSerperApiKey) <==>
              IsSet(o.openaiApiKey) && o.searchEngineName == "serper" && !IsSet(o.serperApiKey)
    ensures r == Failure(NoToolsEnabled) <==>
              && IsSet(o.openaiApiKey) && !(o.searchEngineName == "serper" && !IsSet(o.serperApiKey))
              && !env.enableSearchTool && !env.enableRunPythonCodeTool && !env.enableCrawlerTool
    ensures r.Success? ==> r.value == ToolsFor(o, env) && r.value != []
  {
    if !IsSet(o.openaiApiKey) then Failure(MissingOpenAIApiKey)
    else if o.searchEngineName == "serper" && !IsSet(o.serperApiKey) then Failure(MissingSerperApiKey)
    else
      var tools := ToolsFor(o, env);
      if tools == [] then Failure(NoToolsEnabled) else Success(tools)
  }

  /** `output["output"]` on a result without that key. */
  datatype RunError = MissingOutputKey

  class ChatAgent {
    const tok: string -> nat
    const tools: seq<Tool>
    const maxContextTokens: int
    const numMemoryTurns: int
    var chatHistory: seq<Message>

    constructor (tok: string -> nat, tools: seq<Tool>, maxContextTokens: int, numMemoryTurns: int)
      ensures this.tok == tok && this.tools == tools
      ensures this.maxContextTokens == maxContextTokens && this.numMemoryTurns == numMemoryTurns
      ensures chatHistory == []
    {
      this.tok := tok;
      this.tools := tools;
      this.maxContextTokens := maxContextTokens;
      this.numMemoryTurns := numMemoryTurns;
      chatHistory := [];
    }

    /** `ChatAgent(...)`: raises what `Setup` names, or starts with an empty history. */
    static method Create(o: Options, env: Env, tok: string -> nat) returns (r: Result<ChatAgent, SetupError>)
      ensures r.Failure? <==> Setup(o, env).Failure?
      ensures r.Failure? ==> r.error == Setup(o, env).error
      ensures r.Success? ==> fresh(r.value) && r.value.tools == Setup(o, env).value
                             && r.value.tok == tok && r.value.maxContextTokens == o.maxContextTokens
                             && r.value.numMemoryTurns == o.numMemoryTurns && r.value.chatHistory == []
    {
      var s := Setup(o, env);
      if s.Failure? {
        return Failure(s.error);
      }
      var a := new ChatAgent(tok, s.value, o.maxContextTokens, o.numMemoryTurns);
      return Success(a);
    }

    /**
     * The history `run` and `astream_run` hand to the executor: the argument
     * whenever one is given, even an empty one, else the stored history; when
     * non-empty, cut to the last turns and trimmed to the context budget.
     */
    method PrepareHistory(arg: Option<seq<Message>>) returns (h: seq<Message>)
      ensures h == Prepare(tok, SelectNone(arg, chatHistory), numMemoryTurns, maxContextTokens)
    {
      h := if arg.Some? then arg.value else chatHistory;
      if h != [] {
        h := if numMemoryTurns > 0 then PyStr.SliceFrom(h, -numMemoryTurns * 2) else h;
        h := TrimHistory(tok, h, maxContextTokens);
      }
    }

    /**
     * `run`: the prepared history is sent with the input.  A result without an
     * `"output"` entry raises before the history is touched; otherwise the
     * stored history becomes the sent one followed by the exchange.
     */
    method Run(input: string, arg: Option<seq<Message>>, output: map<string, string>)
      returns (r: Result<seq<Message>, RunError>)
      modifies this`chatHistory
      ensures r.Failure? <==> "output" !in output
      ensures r.Success? ==> r.value == Prepare(tok, SelectNone(arg, old(chatHistory)), numMemoryTurns, maxContextTokens)
      ensures r.Success? ==> chatHistory == r.value + [Message(Human, input), Message(Ai, output["output"])]
      ensures r.Failure? ==> chatHistory == old(chatHistory)
    {
      var sent := PrepareHistory(arg);
      if "output" !in output {
        return Failure(MissingOutputKey);
      }
      chatHistory := sent + [Message(Human, input), Message(Ai, output["output"])];
      return Success(sent);
    }
  }
}
