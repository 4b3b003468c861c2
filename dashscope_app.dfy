/**
 * The DashScope app: the request URL and the input checks of the DashScope
 * client, the `DashScopeLLM` wrapper (system-prompt capability, call
 * arguments, response checks), and the chat proxy that streams DashScope's
 * generation events back as chunk frames.  The DashScope SDK's settings and
 * calls, JSON encoding and the clock are parameters.
 */
module DashScopeApp {
  import opened Wrappers
  import PyStr
  import opened History
  import opened Sse

  datatype DashScopeError =
    | UnsupportedApiProtocol
    | InputDataRequired
    | InputRequired
    | ModelRequired
    | RuntimeError(message: string)
    | IndexError

  // ---------------------------------------------------------------------------
  // build_api_arequest
  // ---------------------------------------------------------------------------

  datatype ApiProtocol = Http | Https | WebSocket

  /** The base URL with a `/` appended only when it does not already end in one. */
  function Root(base: string): string {
    if PyStr.EndsWith(base, "/") then base else base + "/"
  }

  /** `"%s/" % s` when `s` is non-empty, else nothing. */
  function Segment(s: string): string {
    if s != "" then s + "/" else ""
  }

  /**
   * The request URL: the root, then the service path iff `isService`, the
   * non-empty task group and task, each with one `/`, and the function last.
   */
  function ApiUrl(base: string, servicePath: string, isService: bool, taskGroup: string, task: string, functionName: string): string {
    Root(base) + (if isService then servicePath + "/" else "") + Segment(taskGroup) + Segment(task) + functionName
  }

  /** The root is the base followed by at most one added `/`, and ends in `/`. */
  lemma RootShape(base: string)
    ensures PyStr.StartsWith(Root(base), base) && PyStr.EndsWith(Root(base), "/")
    ensures |Root(base)| == (if PyStr.EndsWith(base, "/") then |base| else |base| + 1)
  {
    assert Root(base)[..|base|] == base;
  }

  /** The URL starts with the root, and the service path follows the root exactly when `isService`. */
  lemma ApiUrlPrefix(base: string, servicePath: string, isService: bool, taskGroup: string, task: string, functionName: string)
    ensures PyStr.StartsWith(ApiUrl(base, servicePath, isService, taskGroup, task, functionName), Root(base))
    ensures isService ==>
              PyStr.OccursAt(ApiUrl(base, servicePath, isService, taskGroup, task, functionName), servicePath + "/", |Root(base)|)
    ensures !isService ==>
              ApiUrl(base, servicePath, isService, taskGroup, task, functionName)
              == Root(base) + Segment(taskGroup) + Segment(task) + functionName
  {
    var svc := if isService then servicePath + "/" else "";
    PiecesAt(Root(base), svc, Segment(taskGroup), Segment(task), functionName);
  }

  /** Where the first two of five concatenated pieces sit. */
  lemma PiecesAt(a: string, b: string, c: string, d: string, e: string)
    ensures (a + b + c + d + e)[..|a|] == a
    ensures (a + b + c + d + e)[|a|..|a| + |b|] == b
  {
    var s := a + b + c + d + e;
    assert s == a + (b + (c + d + e));
  }

  /** The function name ends the URL. */
  lemma ApiUrlSuffix(base: string, servicePath: string, isService: bool, taskGroup: string, task: string, functionName: string)
    ensures PyStr.EndsWith(ApiUrl(base, servicePath, isService, taskGroup, task, functionName), functionName)
  {
    var url := ApiUrl(base, servicePath, isService, taskGroup, task, functionName);
    assert url[|url| - |functionName|..] == functionName;
  }

  /** The URL assembled with `+=` in `build_api_arequest`. */
  method HttpUrl(base: string, servicePath: string, isService: bool, taskGroup: string, task: string, functionName: string)
    returns (url: string)
    ensures url == ApiUrl(base, servicePath, isService, taskGroup, task, functionName)
  {
    if !PyStr.EndsWith(base, "/") {
      url := base + "/";
    } else {
      url := base;
    }
    ghost var service := if isService then servicePath + "/" else "";
    assert url == Root(base);
    if isService {
      url := url + servicePath + "/";
    }
    assert url == Root(base) + service;
    if taskGroup != "" {
      url := url + taskGroup + "/";
    }
    assert url == Root(base) + service + Segment(taskGroup);
    if task != "" {
      url := url + task + "/";
    }
    assert url == Root(base) + service + Segment(taskGroup) + Segment(task);
    if functionName != "" {
      url := url + functionName;
    }
    assert url == Root(base) + service + Segment(taskGroup) + Segment(task) + functionName;
  }

  /** With nothing to add, the URL is the base with exactly one trailing `/`. */
  lemma UrlOfBareBase(base: string)
    ensures ApiUrl(base, "", false, "", "", "") == Root(base)
    ensures |Root(base)| <= |base| + 1
  {
  }

  /** The request `build_api_arequest` returns, with the fields this model follows. */
  datatype ApiRequest = ApiRequest(url: string, headers: map<string, string>, model: string)

  /**
   * `build_api_arequest`: a protocol other than HTTP(S) is rejected before the
   * input check; input and form both `None` is rejected after it.
   */
  function BuildApiRequest(base: string, servicePath: string, protocol: ApiProtocol, model: string,
                           hasInput: bool, hasForm: bool, taskGroup: string, task: string, functionName: string,
                           isService: bool, headers: Option<map<string, string>>): (r: Result<ApiRequest, DashScopeError>)
    ensures protocol == WebSocket <==> r == Failure(UnsupportedApiProtocol)
    ensures r == Failure(InputDataRequired) <==> protocol != WebSocket && !hasInput && !hasForm
    ensures r.Success? ==> r.value.url == ApiUrl(base, servicePath, isService, taskGroup, task, functionName)
    ensures r.Success? ==> r.value.headers == headers.GetOr(map[]) && r.value.model == model
  {
    if protocol == WebSocket then Failure(UnsupportedApiProtocol)
    else if !hasInput && !hasForm then Failure(InputDataRequired)
    else Success(ApiRequest(ApiUrl(base, servicePath, isService, taskGroup, task, functionName), headers.GetOr(map[]), model))
  }

  // ---------------------------------------------------------------------------
  // AGeneration.acall
  // ---------------------------------------------------------------------------

  /** The `plugins` argument: a string, or an object to be JSON-encoded. */
  datatype Plugins = PluginText(text: string) | PluginObject(fields: map<string, string>)

  const PluginHeader := "X-DashScope-Plugin"

  /**
   * The checks and header set-up at the start of `acall`: missing prompt and
   * messages first, then a missing model; a plugin header is the string as
   * given or the JSON encoding (`encode`) of the object.  The result is the
   * `headers` passed on, if any.
   */
  function ACallHeaders(model: Option<string>, prompt: Option<string>, messages: Option<seq<ChatMessage>>,
                        plugins: Option<Plugins>, headers: Option<map<string, string>>,
                        encode: map<string, string> -> string): (r: Result<Option<map<string, string>>, DashScopeError>)
    ensures r == Failure(InputRequired) <==>
              (prompt == None || prompt == Some("")) && (messages == None || messages == Some([]))
    ensures r == Failure(ModelRequired) <==>
              !((prompt == None || prompt == Some("")) && (messages == None || messages == Some([])))
              && (model == None || model == Some(""))
    ensures r.Success? && plugins == None ==> r.value == headers
    ensures r.Success? && plugins.Some? ==> r.value.Some? && PluginHeader in r.value.value
    ensures r.Success? && plugins.Some? && plugins.value.PluginText? ==>
              r.value.value[PluginHeader] == plugins.value.text
    ensures r.Success? && plugins.Some? && plugins.value.PluginObject? ==>
              r.value.value[PluginHeader] == encode(plugins.value.fields)
    ensures r.Success? && plugins.Some? ==>
              forall k :: k in headers.GetOr(map[]) && k != PluginHeader ==>
                k in r.value.value && r.value.value[k] == headers.GetOr(map[])[k]
  {
    if (prompt == None || prompt == Some("")) && (messages == None || messages == Some([])) then
      Failure(InputRequired)
    else if model == None || model == Some("") then
      Failure(ModelRequired)
    else if plugins == None then
      Success(headers)
    else
      var h := headers.GetOr(map[]);
      var value := match plugins.value
        case PluginText(t) => t
        case PluginObject(f) => encode(f);
      Success(Some(h[PluginHeader := value]))
  }

  // ---------------------------------------------------------------------------
  // DashScopeLLM
  // ---------------------------------------------------------------------------

  /** Model-name fragments of the models that accept a system message. */
  const SupportSystemModels: seq<string> := ["qwen-", "llama2-", "baichuan2-7b-chat-v1", "chatglm3-6b"]

  /** A value in the keyword arguments of a generation call. */
  datatype KwValue = Text(s: string) | Flag(b: bool) | Number(r: real) | Messages(ms: seq<ChatMessage>)

  /**
   * A generation response: its HTTP status, the service's error code, the
   * request id and message, and, when OK, its output.
   */
  datatype GenerationResponse =
    GenerationResponse(statusCode: int, code: string, requestId: string, message: string, output: GenerationOutput)

  /** `output.get("choices", [{}])`: an absent key reads as one empty choice. */
  datatype GenerationOutput = GenerationOutput(choices: Option<seq<Choice>>)
  /** A choice's `message` and that message's `content`, each possibly absent. */
  datatype Choice = Choice(message: Option<Option<string>>)

  const HttpOk := 200

  class DashScopeLLM {
    const model: string
    const apiKey: string
    const temperature: real
    var useSystemPrompt: bool

    /** The constructor: the system prompt is used iff the model name contains a supporting fragment. */
    constructor (model: string, apiKey: string, temperature: real)
      ensures this.model == model && this.apiKey == apiKey && this.temperature == temperature
      ensures useSystemPrompt <==> exists i :: 0 <= i < |SupportSystemModels| && PyStr.Contains(model, SupportSystemModels[i])
    {
      this.model := model;
      this.apiKey := apiKey;
      this.temperature := temperature;
      useSystemPrompt := false;
      new;
      var i := 0;
      while i < |SupportSystemModels|
        invariant 0 <= i <= |SupportSystemModels|
        invariant useSystemPrompt <==> exists k :: 0 <= k < i && PyStr.Contains(model, SupportSystemModels[k])
      {
        if PyStr.Contains(this.model, SupportSystemModels[i]) {
          useSystemPrompt := true;
        }
        i := i + 1;
      }
    }

    /**
     * `const_kwargs`: the five fixed keys always; `temperature` only when it is
     * positive; `incremental_output` only when streaming.
     */
    method ConstKwargs(messages: seq<ChatMessage>, stream: bool) returns (kwargs: map<string, KwValue>)
      ensures kwargs.Keys == {"api_key", "model", "messages", "stream", "result_format"}
                             + (if temperature > 0.0 then {"temperature"} else {})
                             + (if stream then {"incremental_output"} else {})
      ensures kwargs["api_key"] == Text(apiKey) && kwargs["model"] == Text(model)
      ensures kwargs["messages"] == Messages(messages) && kwargs["stream"] == Flag(stream)
      ensures kwargs["result_format"] == Text("message")
      ensures temperature > 0.0 ==> kwargs["temperature"] == Number(temperature)
      ensures stream ==> kwargs["incremental_output"] == Flag(true)
    {
      kwargs := map[
        "api_key" := Text(apiKey),
        "model" := Text(model),
        "messages" := Messages(messages),
        "stream" := Flag(stream),
        "result_format" := Text("message")
      ];
      if temperature > 0.0 {
        kwargs := kwargs["temperature" := Number(temperature)];
      }
      if stream {
        kwargs := kwargs["incremental_output" := Flag(true)];
      }
    }
  }

  /** The text of the error `_check_response` raises. */
  function ResponseErrorText(resp: GenerationResponse): string {
    "code: " + resp.code + ", request_id: " + resp.requestId + ", message: " + resp.message
  }

  /**
   * `_check_response`: any status other than 200 raises a runtime error whose
   * text carries the response's code, request id and message, in that order.
   */
  function CheckResponse(resp: GenerationResponse): (r: Outcome<DashScopeError>)
    ensures r.Pass? <==> resp.statusCode == HttpOk
    ensures r.Fail? ==> r.error.RuntimeError?
    ensures r.Fail? ==> var text := r.error.message;
      && PyStr.StartsWith(text, "code: " + resp.code + ", request_id: ")
      && PyStr.EndsWith(text, ", request_id: " + resp.requestId + ", message: " + resp.message)
  {
    if resp.statusCode != HttpOk then Fail(RuntimeError(ResponseErrorText(resp))) else Pass
  }

  /**
   * `get_choice_text`: the first choice's message content, "" when any level
   * is absent; an explicitly empty choice list has no first element.
   */
  function GetChoiceText(output: GenerationOutput): (r: Result<string, DashScopeError>)
    ensures r == Failure(IndexError) <==> output.choices == Some([])
    ensures output.choices == None ==> r == Success("")
    ensures output.choices.Some? && output.choices.value != [] ==>
              var c := output.choices.value[0];
              r == Success(if c.message.Some? && c.message.value.Some? then c.message.value.value else "")
  {
    var choices := output.choices.GetOr([Choice(None)]);
    if choices == [] then Failure(IndexError)
    else
      var message := choices[0].message.GetOr(None);
      Success(message.GetOr(""))
  }

  // ---------------------------------------------------------------------------
  // Proxy: request -> system prompt, history, question
  // ---------------------------------------------------------------------------

  /** The content of the last system message, or "" when there is none. */
  function SystemPrompt(messages: seq<ChatMessage>): string {
    if messages == [] then ""
    else if messages[|messages| - 1].role == "system" then messages[|messages| - 1].content
    else SystemPrompt(messages[..|messages| - 1])
  }

  /** The chat turns without the newest one (`history[:-1]`). */
  function DropNewest(messages: seq<ChatMessage>): (r: seq<Message>)
    ensures var t := ChatTurns(messages); |r| == if t == [] then 0 else |t| - 1
    ensures r == ChatTurns(messages)[..|r|]
  {
    var t := ChatTurns(messages);
    PyStr.SliceTo(t, -1)
  }

  /** The content of the last message when it is a user message, else "". */
  function UserQuestion(messages: seq<ChatMessage>): string {
    if messages != [] && messages[|messages| - 1].role == "user" then messages[|messages| - 1].content else ""
  }

  /** A later system message overrides an earlier one. */
  lemma {:induction false} SystemPromptLastWins(before: seq<ChatMessage>, content: string, after: seq<ChatMessage>)
    requires forall i :: 0 <= i < |after| ==> after[i].role != "system"
    ensures SystemPrompt(before + [ChatMessage("system", content)] + after) == content
    decreases |after|
  {
    var ms := before + [ChatMessage("system", content)] + after;
    if after != [] {
      var after' := after[..|after| - 1];
      assert ms[..|ms| - 1] == before + [ChatMessage("system", content)] + after';
      SystemPromptLastWins(before, content, after');
    }
  }

  /** The conversion loop in `proxy`. */
  method ConvertMessages(messages: seq<ChatMessage>) returns (systemPrompt: string, history: seq<Message>, userQuestion: string)
    ensures systemPrompt == SystemPrompt(messages)
    ensures history == DropNewest(messages)
    ensures userQuestion == UserQuestion(messages)
  {
    systemPrompt := "";
    history := [];
    var i := 0;
    while i < |messages|
      invariant 0 <= i <= |messages|
      invariant history == ChatTurns(messages[..i])
      invariant systemPrompt == SystemPrompt(messages[..i])
    {
      var message := messages[i];
      assert messages[..i + 1][..i] == messages[..i];
      if message.role == "user" {
        history := history + [Message(Human, message.content)];
      } else if message.role == "assistant" {
        history := history + [Message(Ai, message.content)];
      } else if message.role == "system" {
        systemPrompt := message.content;
      }
      i := i + 1;
    }
    assert messages[..i] == messages;
    history := PyStr.SliceTo(history, -1);
    userQuestion := "";
    if messages != [] && messages[|messages| - 1].role == "user" {
      userQuestion := messages[|messages| - 1].content;
    }
  }

  // ---------------------------------------------------------------------------
  // Proxy: events -> frames
  // ---------------------------------------------------------------------------

  /**
   * A streamed generation event: its optional fields and
   * `output.choices[0]["message"]["content"]`, or an event that has no such
   * content (an upstream error streamed as an event), on which reading the
   * content raises.
   */
  datatype GenerationEvent = GenerationEvent(meta: EventMeta, content: string) | ErrorEvent

  /** How many events are read before the first one whose content cannot be read. */
  function ReadableRun(events: seq<GenerationEvent>): (n: nat)
    ensures n <= |events|
    ensures forall i :: 0 <= i < n ==> events[i].GenerationEvent?
    ensures n < |events| ==> events[n].ErrorEvent?
  {
    if events == [] || events[0].ErrorEvent? then 0 else 1 + ReadableRun(events[1..])
  }

  /**
   * `event_generator`: one chunk per event, in order; an unreadable event
   * raises inside the generator, which ends the stream there without `[DONE]`.
   */
  method EventGenerator(events: seq<GenerationEvent>, model: string, created: int) returns (frames: seq<Frame>)
    ensures frames == StreamFrames(events, model, created)
  {
    frames := [];
    var i := 0;
    while i < |events|
      invariant 0 <= i <= |events|
      invariant |frames| == i
      invariant forall k :: 0 <= k < i ==> events[k].GenerationEvent?
      invariant forall k :: 0 <= k < i ==> frames[k] == ChunkFrame(events[k].meta, created, model, events[k].content)
    {
      var event := events[i];
      if event.ErrorEvent? {
        assert ReadableRun(events) == i;
        return;
      }
      var c := event.content;
      frames := frames + [ChunkFrame(event.meta, created, model, c)];
      i := i + 1;
    }
    assert ReadableRun(events) == |events|;
    frames := frames + [Done];
  }

  // ---------------------------------------------------------------------------
  // Proxy and model list
  // ---------------------------------------------------------------------------

  /** The parts of the request body the proxy reads. */
  datatype ProxyRequest = ProxyRequest(model: Option<string>, messages: Option<seq<ChatMessage>>)

  datatype ProxyError = Unauthorized | ServerError

  /** What a successful proxy call sends upstream and streams back. */
  datatype Stream = Stream(model: string, messages: seq<ChatMessage>, frames: seq<Frame>)

  /**
   * `proxy`: no key is a 401. Any exception before the streaming response is
   * returned becomes a 500: the generation call rejects an empty message list
   * or an empty model name, and `callFails` stands for the rest of that call
   * (validating the key and model, building the request, sending it).
   * Otherwise the request's messages go upstream unchanged and the events are
   * streamed back.
   */
  function Proxy(apiKey: Option<string>, req: ProxyRequest, callFails: bool, created: int, events: seq<GenerationEvent>): (r: Result<Stream, ProxyError>)
    ensures !(apiKey.Some? && apiKey.value != "") <==> r == Failure(Unauthorized)
    ensures r == Failure(ServerError) <==>
              apiKey.Some? && apiKey.value != "" && (req.messages.GetOr([]) == [] || req.model == Some("") || callFails)
    ensures r.Success? ==> r.value.messages == req.messages.GetOr([]) && r.value.model == req.model.GetOr("qwen-max")
    ensures r.Success? ==> r.value.frames == StreamFrames(events, r.value.model, created)
  {
    if !(apiKey.Some? && apiKey.value != "") then Failure(Unauthorized)
    else
      var model := req.model.GetOr("qwen-max");
      var messages := req.messages.GetOr([]);
      var checked := ACallHeaders(Some(model), None, Some(messages), None, None, _ => "");
      if checked.Failure? || callFails then Failure(ServerError)
      else Success(Stream(model, messages, StreamFrames(events, model, created)))
  }

  /**
   * The frames `event_generator` yields (see `EventGenerator`): one chunk per
   * event up to the first unreadable one, and `[DONE]` only when every event
   * was read.
   */
  function StreamFrames(events: seq<GenerationEvent>, model: string, created: int): (frames: seq<Frame>)
    ensures var n := ReadableRun(events);
      && |frames| == (if n == |events| then n + 1 else n)
      && forall i :: 0 <= i < n ==> frames[i] == ChunkFrame(events[i].meta, created, model, events[i].content)
    ensures Terminated(frames) <==> forall i :: 0 <= i < |events| ==> events[i].GenerationEvent?
  {
    var n := ReadableRun(events);
    var chunks := seq(n, i requires 0 <= i < n => ChunkFrame(events[i].meta, created, model, events[i].content));
    if n == |events| then chunks + [Done] else chunks
  }

  /** An entry of the fixed model list. */
  datatype ModelInfo = ModelInfo(id: string, name: string)

  const DashScopeModels: seq<ModelInfo> := [ModelInfo("qwen-max", "Qwen Max"), ModelInfo("qwen-turbo", "Qwen Turbo")]

  class AppState {
    var apiKey: Option<string>
    var enabled: bool
    var models: map<string, ModelInfo>

    constructor (apiKey: Option<string>)
      ensures this.apiKey == apiKey && models == map[]
      ensures enabled <==> apiKey.Some? && apiKey.value != ""
    {
      this.apiKey := apiKey;
      enabled := apiKey.Some? && apiKey.value != "";
      models := map[];
    }

    /**
     * `get_all_models`: without a key the list is empty and nothing changes;
     * with one the app is enabled and the two Qwen models are listed and
     * indexed by id.
     */
    method GetAllModels() returns (data: seq<ModelInfo>)
      modifies this`enabled, this`models
      ensures !(apiKey.Some? && apiKey.value != "") ==>
                data == [] && enabled == old(enabled) && models == old(models)
      ensures apiKey.Some? && apiKey.value != "" ==>
                data == DashScopeModels && enabled
                && models == map["qwen-max" := DashScopeModels[0], "qwen-turbo" := DashScopeModels[1]]
    {
      if !(apiKey.Some? && apiKey.value != "") {
        return [];
      }
      enabled := true;
      data := DashScopeModels;
      var index := map[];
      var i := 0;
      while i < |data|
        invariant 0 <= i <= |data|
        invariant index == if i == 0 then map[] else if i == 1 then map["qwen-max" := data[0]]
                           else map["qwen-max" := data[0], "qwen-turbo" := data[1]]
      {
        index := index[data[i].id := data[i]];
        i := i + 1;
      }
      models := index;
    }
  }
}
