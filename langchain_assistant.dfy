/**
 * `LangchainAssistant`: the token budget its constructor settles on, the
 * choice of LLM back end, tools and executor (with the errors the constructor
 * raises), and the conversation history it keeps across runs.  The LLM, the
 * agent executor and the tokenizer are foreign: the executor's output is a
 * parameter of `Run`, the tokenizer is `tok`.
 */
module LangchainAssistant {
  import opened Wrappers
  import PyStr
  import opened History
  import opened Tools

  // ---------------------------------------------------------------------------
  // Token budget
  // ---------------------------------------------------------------------------

  /** The cap on generated tokens applied before and after the adjustment. */
  const MaxGeneratedTokens := 4096

  function Min(a: int, b: int): int {
    if a < b then a else b
  }

  /** `int(a / b)` for `b > 0`: the quotient truncated toward zero. */
  function TruncDiv(a: int, b: int): (q: int)
    requires b > 0
    ensures a >= 0 ==> q * b <= a < (q + 1) * b
    ensures a < 0 ==> q == -((-a) / b)
  {
    if a >= 0 then a / b else -((-a) / b)
  }

  datatype Budget = Budget(maxTokens: int, maxContextTokens: int)

  /** `MODEL_TOKEN_LIMIT.get(model_name, 4096)` */
  function TotalLimit(limits: map<string, nat>, modelName: string): nat {
    if modelName in limits then limits[modelName] else 4096
  }

  /**
   * The constructor's budget: `max_tokens` is capped at 4096; when the capped
   * value plus `max_context_tokens` exceeds the model limit, `max_tokens`
   * becomes its proportional share of the limit (capped again) and the
   * context gets the rest.
   */
  function AdjustBudget(limit: nat, maxTokens: int, maxContextTokens: int): (b: Budget)
    ensures b.maxTokens <= MaxGeneratedTokens
    ensures Min(maxTokens, MaxGeneratedTokens) + maxContextTokens <= limit ==>
              b == Budget(Min(maxTokens, MaxGeneratedTokens), maxContextTokens)
    ensures Min(maxTokens, MaxGeneratedTokens) + maxContextTokens > limit ==>
              b.maxTokens + b.maxContextTokens == limit
  {
    var m := Min(maxTokens, MaxGeneratedTokens);
    var current := m + maxContextTokens;
    if current > limit then
      var adjusted := Min(TruncDiv(m * limit, current), MaxGeneratedTokens);
      Budget(adjusted, limit - adjusted)
    else
      Budget(m, maxContextTokens)
  }

  /**
   * For non-negative inputs that overflow the limit, the adjusted
   * `max_tokens` is the floor of its proportional share of the limit, and
   * neither part grows.
   */
  lemma AdjustBudgetProportional(limit: nat, maxTokens: int, maxContextTokens: int)
    requires 0 <= maxTokens && 0 <= maxContextTokens
    requires Min(maxTokens, MaxGeneratedTokens) + maxContextTokens > limit
    ensures var m := Min(maxTokens, MaxGeneratedTokens);
      var c := m + maxContextTokens;
      var b := AdjustBudget(limit, maxTokens, maxContextTokens);
      && b.maxTokens * c <= m * limit < (b.maxTokens + 1) * c
      && 0 <= b.maxTokens <= m
      && 0 <= b.maxContextTokens <= maxContextTokens
  {
    var m := Min(maxTokens, MaxGeneratedTokens);
    var c := m + maxContextTokens;
    MulMono(m, 0, limit);
    ShareBounds(m, maxContextTokens, limit);
    assert TruncDiv(m * limit, c) == (m * limit) / c;
  }

  /** The floor of `m`'s share of `limit` out of `m + mc` lies between `limit - mc` and `m`. */
  lemma ShareBounds(m: nat, mc: nat, limit: nat)
    requires m + mc > limit
    ensures var c := m + mc; var q := (m * limit) / c;
      && q * c <= m * limit < (q + 1) * c
      && limit - mc <= q <= m
      && 0 <= q <= limit
  {
    var c := m + mc;
    var q := (m * limit) / c;
    assert q * c <= m * limit < (q + 1) * c;
    MulMono(m, limit, c);
    CancelFactor(q, m, c);
    assert (limit - mc) * c == m * limit + mc * (limit - c);
    MulMono(mc, limit, c);
    CancelFactor(limit - mc, q + 1, c);
    MulMono(m, 0, limit);
    if q < 0 {
      CancelFactor(q + 1, 0, c);
    }
    MulMono(limit, m, c);
    assert c * limit == limit * c;
    CancelFactor(q, limit, c);
  }

  lemma MulMono(a: int, b: int, c: int)
    requires 0 <= a && b <= c
    ensures a * b <= a * c
  {
    assert a * c - a * b == a * (c - b);
  }

  lemma CancelFactor(a: int, b: int, c: int)
    requires c > 0 && a * c <= b * c
    ensures a <= b
  {
    if a > b {
      assert a * c - b * c == (a - b) * c;
      MulMono(c, 1, a - b);
    }
  }

  // ---------------------------------------------------------------------------
  // Constructor: back end, tools and executor
  // ---------------------------------------------------------------------------

  /** The model types with an LLM back end: Azure OpenAI, OpenAI-compatible and DashScope. */
  const SupportedModelTypes: set<string> := {"azure", "openai", "dashscope"}

  /** The model types the tools agent can bind tools to. */
  const ToolCallingModelTypes: set<string> := {"openai", "azure"}

  /** The constructor's arguments that decide its outcome. */
  datatype Options = Options(
    modelType: string,
    modelName: string,
    searchName: string,
    agentType: string,
    enableSearchTool: Option<bool>,
    enableUrlCrawlerTool: Option<bool>,
    enableRunPythonCodeTool: Option<bool>,
    maxTokens: int,
    maxContextTokens: int,
    numMemoryTurns: int,
    systemPrompt: string)

  /** Configuration and environment the constructor reads. */
  datatype Env = Env(
    modelTokenLimit: map<string, nat>,
    enableSearchTool: bool,
    enableUrlCrawlerTool: bool,
    enableRunPythonCodeTool: bool,
    serperApiKey: Option<string>,
    e2bApiKey: Option<string>,
    defaultSystemPrompt: string)

  datatype SetupError =
    | UnsupportedModelType(modelType: string)
    | MissingSerperApiKey
    | UnsupportedAgentModelType(modelType: string)

  /** What runs a turn: the plain chat chain, or an agent executor with tools. */
  datatype Executor = ChatChain | ReactAgent | ToolsAgent

  /** The state a successful constructor leaves behind. */
  datatype Settings = Settings(
    budget: Budget,
    systemPrompt: string,
    tools: seq<Tool>,
    executor: Executor)

  /** `x if x is not None else default` for the tool flags. */
  function Flag(x: Option<bool>, default: bool): bool {
    x.GetOr(default)
  }

  /** The tool list `_initialize_tools` builds, once the search engine is available. */
  function ToolsFor(o: Options, env: Env): seq<Tool> {
    EnabledTools(
      Flag(o.enableSearchTool, env.enableSearchTool),
      Flag(o.enableRunPythonCodeTool, env.enableRunPythonCodeTool),
      Flag(o.enableUrlCrawlerTool, env.enableUrlCrawlerTool),
      if o.searchName == "serper" then Serper else DuckDuckGo,
      Runner(env.e2bApiKey),
      "WebUrlCrawler")
  }

  /** `_initialize_search_engine` raises when serper is chosen and `SERPER_API_KEY` is unset or empty. */
  predicate SearchEngineFails(o: Options, env: Env) {
    Flag(o.enableSearchTool, env.enableSearchTool) && o.searchName == "serper"
    && !(env.serperApiKey.Some? && env.serperApiKey.value != "")
  }

  /**
   * The constructor: an unsupported model type is rejected first, then a
   * missing serper key (only when the search tool is enabled), then a
   * non-react agent over a back end without tool calling (only when some
   * tool is enabled, since no tools means the plain chat chain).
   */
  function Setup(o: Options, env: Env): (r: Result<Settings, SetupError>)
    ensures o.modelType !in SupportedModelTypes <==> r == Failure(UnsupportedModelType(o.modelType))
    ensures r == Failure(MissingSerperApiKey) <==>
              o.modelType in SupportedModelTypes && SearchEngineFails(o, env)
    ensures r.Failure? && r.error.UnsupportedAgentModelType? <==>
              && o.modelType in SupportedModelTypes && !SearchEngineFails(o, env)
              && ToolsFor(o, env) != [] && o.agentType != "react"
              && o.modelType !in ToolCallingModelTypes
    ensures r.Success? ==>
              && r.value.budget == AdjustBudget(TotalLimit(env.modelTokenLimit, o.modelName), o.maxTokens, o.maxContextTokens)
              && r.value.tools == ToolsFor(o, env)
              && (r.value.executor == ChatChain <==> r.value.tools == [])
              && (o.systemPrompt != "" ==> r.value.systemPrompt == o.systemPrompt)
    ensures r.Success? && env.defaultSystemPrompt != "" ==> r.value.systemPrompt != ""
  {
    var budget := AdjustBudget(TotalLimit(env.modelTokenLimit, o.modelName), o.maxTokens, o.maxContextTokens);
    if o.modelType !in SupportedModelTypes then Failure(UnsupportedModelType(o.modelType))
    else if SearchEngineFails(o, env) then Failure(MissingSerperApiKey)
    else
      var prompt := if o.systemPrompt != "" then o.systemPrompt else env.defaultSystemPrompt;
      var tools := ToolsFor(o, env);
      if tools == [] then Success(Settings(budget, prompt, tools, ChatChain))
      else if o.agentType == "react" then Success(Settings(budget, prompt, tools, ReactAgent))
      else if o.modelType in ToolCallingModelTypes then Success(Settings(budget, prompt, tools, ToolsAgent))
      else Failure(UnsupportedAgentModelType(o.modelType))
  }

  // ---------------------------------------------------------------------------
  // The assistant object
  // ---------------------------------------------------------------------------

  class LangchainAssistant {
    const tok: string -> nat
    const settings: Settings
    const numMemoryTurns: int
    var chatHistory: seq<Message>

    constructor (tok: string -> nat, settings: Settings, numMemoryTurns: int)
      ensures this.tok == tok && this.settings == settings && this.numMemoryTurns == numMemoryTurns
      ensures chatHistory == []
    {
      this.tok := tok;
      this.settings := settings;
      this.numMemoryTurns := numMemoryTurns;
      chatHistory := [];
    }

    /** `LangchainAssistant(...)`: raises what `Setup` names, or starts with an empty history. */
    static method Create(o: Options, env: Env, tok: string -> nat) returns (r: Result<LangchainAssistant, SetupError>)
      ensures r.Failure? <==> Setup(o, env).Failure?
      ensures r.Failure? ==> r.error == Setup(o, env).error
      ensures r.Success? ==> fresh(r.value) && r.value.settings == Setup(o, env).value
                             && r.value.tok == tok && r.value.numMemoryTurns == o.numMemoryTurns
                             && r.value.chatHistory == []
    {
      var s := Setup(o, env);
      if s.Failure? {
        return Failure(s.error);
      }
      var a := new LangchainAssistant(tok, s.value, o.numMemoryTurns);
      return Success(a);
    }

    /**
     * The history `run` and `astream_run` hand to the executor: the argument
     * unless it is `None` or empty, else the stored history; when non-empty,
     * cut to the last turns and trimmed to the context budget.
     */
    method PrepareHistory(arg: Option<seq<Message>>) returns (h: seq<Message>)
      ensures h == Prepare(tok, SelectFalsy(arg, chatHistory), numMemoryTurns, settings.budget.maxContextTokens)
    {
      h := if arg.Some? && arg.value != [] then arg.value else chatHistory;
      if h != [] {
        h := if numMemoryTurns > 0 then PyStr.SliceFrom(h, -numMemoryTurns * 2) else h;
        h := TrimHistory(tok, h, settings.budget.maxContextTokens);
      }
    }

    /**
     * `run`: the prepared history is sent with the input, and the executor's
     * `output` is returned as it came back. `sent` is the history handed to
     * the executor; the source does not return it. Afterwards the stored
     * history is that history followed by the human input and the assistant's
     * reply text.
     */
    method Run(input: string, arg: Option<seq<Message>>, output: AgentOutput) returns (result: AgentOutput, sent: seq<Message>)
      modifies this`chatHistory
      ensures result == output
      ensures sent == Prepare(tok, SelectFalsy(arg, old(chatHistory)), numMemoryTurns, settings.budget.maxContextTokens)
      ensures chatHistory == sent + [Message(Human, input), Message(Ai, OutputText(output))]
    {
      sent := PrepareHistory(arg);
      var outputStr := OutputText(output);
      chatHistory := sent + [Message(Human, input), Message(Ai, outputStr)];
      result := output;
    }
  }

  /** After a run the stored history ends with exactly the new exchange, preceded by a suffix of the chosen history. */
  lemma RunKeepsSuffix(tok: string -> nat, chosen: seq<Message>, turns: int, budget: int, input: string, reply: string)
    ensures var stored := Prepare(tok, chosen, turns, budget) + [Message(Human, input), Message(Ai, reply)];
      && |stored| >= 2
      && stored[|stored| - 2..] == [Message(Human, input), Message(Ai, reply)]
      && stored[..|stored| - 2] == chosen[|chosen| - (|stored| - 2)..]
  {
    PrepareBounds(tok, chosen, turns, budget);
  }
}
