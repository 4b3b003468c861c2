/**
 * The OpenAI-compatible app: aggregation of the model lists the configured
 * base URLs return, the per-role model filter, and the chat proxy that turns
 * a chat-completions request into a `ChatAgent` run and streams its events
 * back as chunk frames.  Fetching, the agent executor and the clock are
 * foreign: their results are parameters.
 */
module OpenAIApp {
  import opened Wrappers
  import PyStr
  import opened History
  import opened Sse
  import ChatAgent
  import Tools

  // ---------------------------------------------------------------------------
  // Model lists
  // ---------------------------------------------------------------------------

  /** A model entry: its id, its other fields, and the `urlIdx` tag. */
  datatype Model = Model(id: string, fields: map<string, string>, urlIdx: Option<nat>)

  /** `model` copied with `urlIdx` set to `idx`, all other fields kept. */
  function Tagged(model: Model, idx: nat): Model {
    model.(urlIdx := Some(idx))
  }

  /** `lists[i]` holds at position `j` the model that `m` is the tagged copy of. */
  predicate TaggedFrom(lists: seq<seq<Model>>, i: nat, j: nat, m: Model) {
    i < |lists| && j < |lists[i]| && Tagged(lists[i][j], i) == m
  }

  /** `[{**model, "urlIdx": idx} for model in models if model["id"]]` */
  function TagList(models: seq<Model>, idx: nat): (r: seq<Model>)
    ensures |r| <= |models|
    ensures forall m :: m in r ==> m.id != "" && exists j :: 0 <= j < |models| && Tagged(models[j], idx) == m
    ensures forall j :: 0 <= j < |models| && models[j].id != "" ==> Tagged(models[j], idx) in r
  {
    if models == [] then []
    else
      var rest := TagList(models[1..], idx);
      assert forall m :: m in rest ==> exists j :: 0 <= j < |models| && Tagged(models[j], idx) == m by {
        forall m | m in rest
          ensures exists j :: 0 <= j < |models| && Tagged(models[j], idx) == m
        {
          var j :| 0 <= j < |models[1..]| && Tagged(models[1..][j], idx) == m;
          assert Tagged(models[j + 1], idx) == m;
        }
      }
      assert forall j :: 1 <= j < |models| ==> models[j] == models[1..][j - 1];
      (if models[0].id != "" then [Tagged(models[0], idx)] else []) + rest
  }

  /** Tagging a concatenation tags each part, keeping their order. */
  lemma {:induction false} TagListAppend(a: seq<Model>, b: seq<Model>, idx: nat)
    ensures TagList(a + b, idx) == TagList(a, idx) + TagList(b, idx)
  {
    if a == [] {
      assert a + b == b;
    } else {
      assert (a + b)[0] == a[0];
      assert (a + b)[1..] == a[1..] + b;
      TagListAppend(a[1..], b, idx);
    }
  }

  /** A single model is kept, tagged, exactly when it has an id. */
  lemma TagListSingle(m: Model, idx: nat)
    ensures TagList([m], idx) == (if m.id != "" then [Tagged(m, idx)] else [])
  {
    assert [m][1..] == [];
  }

  /** `merge_models_lists`: the tagged lists, in input order. */
  function Merged(lists: seq<seq<Model>>): seq<Model> {
    if lists == [] then []
    else Merged(lists[..|lists| - 1]) + TagList(lists[|lists| - 1], |lists| - 1)
  }

  /** Every merged model has an id and is the tagged copy of a model of the list its tag names. */
  lemma {:induction false} MergedSound(lists: seq<seq<Model>>)
    ensures forall m :: m in Merged(lists) ==>
              m.id != "" && m.urlIdx.Some? && exists j :: TaggedFrom(lists, m.urlIdx.value, j, m)
  {
    if lists != [] {
      var n := |lists| - 1;
      var front := Merged(lists[..n]);
      var last := TagList(lists[n], n);
      assert Merged(lists) == front + last;
      MergedSound(lists[..n]);
      forall m | m in front
        ensures m.id != "" && m.urlIdx.Some? && exists j :: TaggedFrom(lists, m.urlIdx.value, j, m)
      {
        var j :| TaggedFrom(lists[..n], m.urlIdx.value, j, m);
        assert TaggedFrom(lists, m.urlIdx.value, j, m);
      }
      forall m | m in last
        ensures m.id != "" && m.urlIdx.Some? && exists j :: TaggedFrom(lists, m.urlIdx.value, j, m)
      {
        var j :| 0 <= j < |lists[n]| && Tagged(lists[n][j], n) == m;
        assert TaggedFrom(lists, n, j, m);
      }
    }
  }

  /** Every model with an id is merged, tagged with its list's index. */
  lemma {:induction false} MergedComplete(lists: seq<seq<Model>>)
    ensures forall i, j :: 0 <= i < |lists| && 0 <= j < |lists[i]| && lists[i][j].id != "" ==>
              Tagged(lists[i][j], i) in Merged(lists)
  {
    if lists != [] {
      var n := |lists| - 1;
      var front := Merged(lists[..n]);
      assert Merged(lists) == front + TagList(lists[n], n);
      MergedComplete(lists[..n]);
      forall i, j | 0 <= i < n && 0 <= j < |lists[i]| && lists[i][j].id != ""
        ensures Tagged(lists[i][j], i) in front
      {
        assert lists[..n][i] == lists[i];
      }
    }
  }

  /** The loop of `merge_models_lists`, extending the result list by list. */
  method MergeModelsLists(lists: seq<seq<Model>>) returns (merged: seq<Model>)
    ensures merged == Merged(lists)
  {
    merged := [];
    var idx := 0;
    while idx < |lists|
      invariant 0 <= idx <= |lists|
      invariant merged == Merged(lists[..idx])
    {
      assert lists[..idx + 1][..idx] == lists[..idx];
      merged := merged + TagList(lists[idx], idx);
      idx := idx + 1;
    }
    assert lists[..idx] == lists;
  }

  /** What a fetch of `{url}/models` gives back: nothing, an error body, or a model list. */
  datatype Response = NoResponse | ErrorBody | Body(data: seq<Model>)

  /** The model lists of the responses that are neither `None` nor an error, in order. */
  function OkData(responses: seq<Response>): (r: seq<seq<Model>>)
    ensures |r| <= |responses|
    ensures forall d :: d in r ==> Body(d) in responses
  {
    if responses == [] then []
    else (if responses[0].Body? then [responses[0].data] else []) + OkData(responses[1..])
  }

  /** How many of the responses are model lists. */
  function NumBodies(responses: seq<Response>): (n: nat)
    ensures n <= |responses|
  {
    if responses == [] then 0
    else (if responses[0].Body? then 1 else 0) + NumBodies(responses[1..])
  }

  /** Counting the model lists in a prefix peels off its first response. */
  lemma NumBodiesPrefix(responses: seq<Response>, i: nat)
    requires 0 < i <= |responses|
    ensures NumBodies(responses[..i]) == (if responses[0].Body? then 1 else 0) + NumBodies(responses[1..][..i - 1])
  {
    assert responses[..i][1..] == responses[1..][..i - 1];
  }

  /** One model list is kept per `Body` response. */
  lemma {:induction false} OkDataCount(responses: seq<Response>)
    ensures |OkData(responses)| == NumBodies(responses)
  {
    if responses != [] {
      OkDataCount(responses[1..]);
    }
  }

  /** The model list of the `i`-th response lands after those of the model lists before it. */
  lemma {:induction false} OkDataAt(responses: seq<Response>)
    ensures forall i :: 0 <= i < |responses| && responses[i].Body? ==>
              NumBodies(responses[..i]) < |OkData(responses)| && OkData(responses)[NumBodies(responses[..i])] == responses[i].data
  {
    if responses != [] {
      var head := if responses[0].Body? then [responses[0].data] else [];
      var rest := responses[1..];
      assert OkData(responses) == head + OkData(rest);
      OkDataAt(rest);
      forall i | 0 <= i < |responses| && responses[i].Body?
        ensures NumBodies(responses[..i]) < |OkData(responses)|
        ensures OkData(responses)[NumBodies(responses[..i])] == responses[i].data
      {
        if i == 0 {
          assert responses[..0] == [];
        } else {
          NumBodiesPrefix(responses, i);
          assert rest[i - 1] == responses[i];
        }
      }
    }
  }

  /** `responses[i]` is a model list and `k` model lists come before it. */
  predicate BodyAt(responses: seq<Response>, i: nat, k: nat) {
    i < |responses| && responses[i].Body? && NumBodies(responses[..i]) == k
  }

  /** Every kept model list is the list of a `Body` response, and its position counts the lists before it. */
  lemma {:induction false} OkDataFrom(responses: seq<Response>, k: nat)
    requires k < |OkData(responses)|
    ensures exists i: nat :: BodyAt(responses, i, k)
  {
    var rest := responses[1..];
    var head := if responses[0].Body? then [responses[0].data] else [];
    assert OkData(responses) == head + OkData(rest);
    if responses[0].Body? && k == 0 {
      assert responses[..0] == [];
      assert BodyAt(responses, 0, 0);
    } else {
      var k': nat := if responses[0].Body? then k - 1 else k;
      OkDataFrom(rest, k');
      var i': nat :| BodyAt(rest, i', k');
      NumBodiesPrefix(responses, i' + 1);
      assert BodyAt(responses, i' + 1, k);
    }
  }

  /** `{model["id"]: model for model in data}` */
  function ModelIndex(data: seq<Model>): map<string, Model> {
    if data == [] then map[]
    else ModelIndex(data[..|data| - 1])[data[|data| - 1].id := data[|data| - 1]]
  }

  /** The index has a key for exactly the ids in the list. */
  lemma {:induction false} ModelIndexKeys(data: seq<Model>, id: string)
    ensures id in ModelIndex(data) <==> exists j :: 0 <= j < |data| && data[j].id == id
  {
    if data != [] {
      var n := |data| - 1;
      ModelIndexKeys(data[..n], id);
      if exists j :: 0 <= j < |data| && data[j].id == id {
        var j :| 0 <= j < |data| && data[j].id == id;
        if j < n {
          assert data[..n][j].id == id;
        }
      }
      if exists j :: 0 <= j < n && data[..n][j].id == id {
        var j :| 0 <= j < n && data[..n][j].id == id;
        assert data[j].id == id;
      }
    }
  }

  /** Each id maps to the last model in the list carrying that id. */
  lemma {:induction false} ModelIndexLast(data: seq<Model>, j: nat)
    requires j < |data|
    requires forall k :: j < k < |data| ==> data[k].id != data[j].id
    ensures data[j].id in ModelIndex(data) && ModelIndex(data)[data[j].id] == data[j]
  {
    var n := |data| - 1;
    if j < n {
      ModelIndexLast(data[..n], j);
    }
  }

  /** The loop behind the dict comprehension. */
  method BuildIndex(data: seq<Model>) returns (index: map<string, Model>)
    ensures index == ModelIndex(data)
  {
    index := map[];
    var i := 0;
    while i < |data|
      invariant 0 <= i <= |data|
      invariant index == ModelIndex(data[..i])
    {
      assert data[..i + 1][..i] == data[..i];
      index := index[data[i].id := data[i]];
      i := i + 1;
    }
    assert data[..i] == data;
  }

  /** `filter(lambda model: model["id"] in allowed, data)` */
  function FilterIds(data: seq<Model>, allowed: seq<string>): (r: seq<Model>)
    ensures |r| <= |data|
    ensures forall m :: m in r <==> m in data && m.id in allowed
  {
    if data == [] then []
    else (if data[0].id in allowed then [data[0]] else []) + FilterIds(data[1..], allowed)
  }

  /** Filtering a concatenation filters each part, keeping their order. */
  lemma {:induction false} FilterIdsAppend(a: seq<Model>, b: seq<Model>, allowed: seq<string>)
    ensures FilterIds(a + b, allowed) == FilterIds(a, allowed) + FilterIds(b, allowed)
  {
    if a == [] {
      assert a + b == b;
    } else {
      assert (a + b)[0] == a[0];
      assert (a + b)[1..] == a[1..] + b;
      FilterIdsAppend(a[1..], b, allowed);
    }
  }

  /** A single model is kept exactly when its id is allowed. */
  lemma FilterIdsSingle(m: Model, allowed: seq<string>)
    ensures FilterIds([m], allowed) == (if m.id in allowed then [m] else [])
  {
    assert [m][1..] == [];
  }

  /** `filter(lambda model: "gpt" in model["id"], data)`, applied by `/models/{url_idx}` when the URL is non-empty. */
  function GptModels(url: string, data: seq<Model>): (r: seq<Model>)
    ensures url == "" ==> r == data
    ensures url != "" ==> forall m :: m in r <==> m in data && PyStr.Contains(m.id, "gpt")
  {
    if url == "" then data
    else if data == [] then []
    else (if PyStr.Contains(data[0].id, "gpt") then [data[0]] else []) + GptModels(url, data[1..])
  }

  /** The model list a caller with `role` sees from `/models`. */
  function VisibleModels(filterEnabled: bool, filterList: seq<string>, role: string, data: seq<Model>): seq<Model> {
    if filterEnabled && role == "user" then FilterIds(data, filterList) else data
  }

  /** With filtering on, a "user" sees exactly the listed models; every other role sees the whole list. */
  lemma VisibleModelsSpec(filterEnabled: bool, filterList: seq<string>, role: string, data: seq<Model>)
    ensures filterEnabled && role == "user" ==>
              forall m :: m in VisibleModels(filterEnabled, filterList, role, data) <==> m in data && m.id in filterList
    ensures !(filterEnabled && role == "user") ==> VisibleModels(filterEnabled, filterList, role, data) == data
  {
  }

  datatype AppError =
    | KeyIndexError        // fewer keys than base URLs, or the chosen index has no key
    | Unauthorized         // 401: no key at the chosen index
    | ServerError          // 500: anything raised inside the proxy's handler

  class AppState {
    var baseUrls: seq<string>
    var apiKeys: seq<string>
    var models: map<string, Model>
    var filterEnabled: bool
    var filterList: seq<string>

    constructor (baseUrls: seq<string>, apiKeys: seq<string>, filterEnabled: bool, filterList: seq<string>)
      ensures this.baseUrls == baseUrls && this.apiKeys == apiKeys
      ensures this.filterEnabled == filterEnabled && this.filterList == filterList
      ensures models == map[]
    {
      this.baseUrls := baseUrls;
      this.apiKeys := apiKeys;
      this.filterEnabled := filterEnabled;
      this.filterList := filterList;
      models := map[];
    }

    /** No key configured: the key list is exactly `[""]`. */
    predicate NoKeys()
      reads this
    {
      |apiKeys| == 1 && apiKeys[0] == ""
    }

    /**
     * `get_all_models`: with no key configured the list is empty and the model
     * index untouched; otherwise every base URL is fetched with the key at its
     * position (one response each, given here), the failed responses are
     * dropped, the rest merged, and the index rebuilt from the merged list.
     */
    method GetAllModels(responses: seq<Response>) returns (r: Result<seq<Model>, AppError>)
      requires |responses| == |baseUrls|
      modifies this`models
      ensures NoKeys() ==> r == Success([]) && models == old(models)
      ensures !NoKeys() && |apiKeys| < |baseUrls| ==> r == Failure(KeyIndexError) && models == old(models)
      ensures !NoKeys() && |apiKeys| >= |baseUrls| ==>
                r == Success(Merged(OkData(responses))) && models == ModelIndex(r.value)
    {
      if NoKeys() {
        return Success([]);
      }
      if |apiKeys| < |baseUrls| {
        return Failure(KeyIndexError);
      }
      var ok := OkData(responses);
      var data := MergeModelsLists(ok);
      models := BuildIndex(data);
      return Success(data);
    }

    /** `/models`: the aggregated list, narrowed for the "user" role when filtering is on. */
    method GetModels(role: string, responses: seq<Response>) returns (r: Result<seq<Model>, AppError>)
      requires |responses| == |baseUrls|
      modifies this`models
      ensures NoKeys() ==> r == Success([]) && models == old(models)
      ensures !NoKeys() && |apiKeys| >= |baseUrls| ==>
                r == Success(VisibleModels(filterEnabled, filterList, role, Merged(OkData(responses))))
                && models == ModelIndex(Merged(OkData(responses)))
      ensures !NoKeys() && |apiKeys| < |baseUrls| ==> r == Failure(KeyIndexError) && models == old(models)
    {
      r := GetAllModels(responses);
      if r.Success? && filterEnabled && role == "user" {
        r := Success(FilterIds(r.value, filterList));
      }
    }
  }

  /**
   * `responses[i]` is a model list and `m` is its `j`-th model tagged with the
   * number of model lists before it.
   */
  predicate FromResponse(responses: seq<Response>, i: nat, j: nat, m: Model) {
    i < |responses| && responses[i].Body? && j < |responses[i].data|
    && Tagged(responses[i].data[j], NumBodies(responses[..i])) == m
  }

  /**
   * The `urlIdx` of a merged model counts the working responses before its
   * own, not the URLs: a failed fetch shifts every later model's tag down.
   */
  lemma UrlIdxCountsSurvivors(responses: seq<Response>)
    ensures forall i, j :: 0 <= i < |responses| && responses[i].Body? && 0 <= j < |responses[i].data| && responses[i].data[j].id != "" ==>
              Tagged(responses[i].data[j], NumBodies(responses[..i])) in Merged(OkData(responses))
    ensures forall m :: m in Merged(OkData(responses)) ==> m.id != "" && exists i, j :: FromResponse(responses, i, j, m)
  {
    var ok := OkData(responses);
    OkDataAt(responses);
    MergedComplete(ok);
    MergedSound(ok);
    forall m | m in Merged(ok)
      ensures exists i, j :: FromResponse(responses, i, j, m)
    {
      var k := m.urlIdx.value;
      var j :| TaggedFrom(ok, k, j, m);
      OkDataFrom(responses, k);
      var i: nat :| BodyAt(responses, i, k);
      assert FromResponse(responses, i, j, m);
    }
  }

  // ---------------------------------------------------------------------------
  // Proxy: request -> history
  // ---------------------------------------------------------------------------

  /** At most the last 10 of the chat turns, without the newest one when there are several. */
  function ConvertedHistory(messages: seq<ChatMessage>): (r: seq<Message>)
    ensures |r| <= 10
    ensures var t := ChatTurns(messages); |t| < 2 ==> r == t
    ensures var t := ChatTurns(messages); |t| >= 2 ==>
              |r| == (if |t| - 1 < 10 then |t| - 1 else 10) && r == t[|t| - 1 - |r|..|t| - 1]
  {
    var h := ChatTurns(messages);
    var h1 := if |h| > 1 then h[..|h| - 1] else h;
    if |h1| > 10 then h1[|h1| - 10..] else h1
  }

  /** The content of the last message when it is a user message, else "". */
  function InputStr(messages: seq<ChatMessage>): string {
    if messages != [] && messages[|messages| - 1].role == "user" then messages[|messages| - 1].content else ""
  }

  /** The conversion loop in `proxy`. */
  method ConvertMessages(messages: seq<ChatMessage>) returns (history: seq<Message>, inputStr: string)
    ensures history == ConvertedHistory(messages)
    ensures inputStr == InputStr(messages)
  {
    history := [];
    var i := 0;
    while i < |messages|
      invariant 0 <= i <= |messages|
      invariant history == ChatTurns(messages[..i])
    {
      var message := messages[i];
      assert messages[..i + 1][..i] == messages[..i];
      if message.role == "user" {
        history := history + [Message(Human, message.content)];
      } else if message.role == "assistant" {
        history := history + [Message(Ai, message.content)];
      }
      i := i + 1;
    }
    assert messages[..i] == messages;
    if history != [] && |history| > 1 {
      history := history[..|history| - 1];
    }
    if history != [] && |history| > 10 {
      history := history[|history| - 10..];
    }
    inputStr := "";
    if messages != [] && messages[|messages| - 1].role == "user" {
      inputStr := messages[|messages| - 1].content;
    }
  }

  /**
   * When the request ends with a user message after earlier turns, that
   * message is the input and is kept out of the history, which is the last
   * (at most 10) turns before it.
   */
  lemma LastUserMessageIsInput(earlier: seq<ChatMessage>, content: string)
    requires ChatTurns(earlier) != []
    ensures var messages := earlier + [ChatMessage("user", content)];
      var t := ChatTurns(earlier);
      && InputStr(messages) == content
      && ConvertedHistory(messages) == (if |t| > 10 then t[|t| - 10..] else t)
  {
    var messages := earlier + [ChatMessage("user", content)];
    ChatTurnsAppend(earlier, [ChatMessage("user", content)]);
    assert ChatTurns([ChatMessage("user", content)]) == [Message(Human, content)] by {
      assert [ChatMessage("user", content)][..0] == [];
    }
    var h := ChatTurns(messages);
    assert h[..|h| - 1] == ChatTurns(earlier);
  }

  /** A request whose only message is a user message sends that message both as input and as history. */
  lemma LoneUserMessageEchoed(content: string)
    ensures ConvertedHistory([ChatMessage("user", content)]) == [Message(Human, content)]
    ensures InputStr([ChatMessage("user", content)]) == content
  {
    assert [ChatMessage("user", content)][..0] == [];
  }

  // ---------------------------------------------------------------------------
  // Proxy: agent events -> frames
  // ---------------------------------------------------------------------------

  /**
   * An event of the agent's event stream, with the fields the generator
   * reads, or a point where iterating the stream raises: the agent fails, or
   * an event lacks the `event`, `data` or chunk content the generator reads.
   */
  datatype AgentEvent =
    | AgentEvent(kind: string, meta: EventMeta, name: string, input: Option<string>, chunk: string)
    | Raised

  /** The delta announcing a tool call. */
  function ToolDelta(name: string, input: string): string {
    "Invoking: `" + name + "`\n```\n" + input + "\n```\n\n"
  }

  /** Whether an event produces a frame. */
  predicate Relevant(e: AgentEvent) {
    e.AgentEvent? && (e.kind == "on_tool_start" || e.kind == "on_chat_model_stream")
  }

  /** The frame a relevant event becomes. */
  function EventFrame(e: AgentEvent, model: string, created: int): Frame
    requires Relevant(e)
  {
    var c := if e.kind == "on_tool_start" then ToolDelta(e.name, e.input.GetOr("")) else e.chunk;
    ChunkFrame(e.meta, created, model, c)
  }

  /** The chunk frames of the relevant events, in event order. */
  function EventFrames(events: seq<AgentEvent>, model: string, created: int): (r: seq<Frame>)
    ensures forall f :: f in r ==> f.Chunk? && f.model == model
  {
    if events == [] then []
    else
      var e := events[|events| - 1];
      EventFrames(events[..|events| - 1], model, created)
      + (if Relevant(e) then [EventFrame(e, model, created)] else [])
  }

  /** The number of relevant events. */
  function RelevantCount(events: seq<AgentEvent>): nat {
    if events == [] then 0
    else RelevantCount(events[..|events| - 1]) + (if Relevant(events[|events| - 1]) then 1 else 0)
  }

  /** One chunk per relevant event; an event stream made of two parts yields the frames of each part in turn. */
  lemma {:induction false} EventFramesAppend(a: seq<AgentEvent>, b: seq<AgentEvent>, model: string, created: int)
    ensures EventFrames(a + b, model, created) == EventFrames(a, model, created) + EventFrames(b, model, created)
    ensures |EventFrames(a, model, created)| == RelevantCount(a)
    decreases |b|
  {
    if b == [] {
      assert a + b == a;
      EventFramesCount(a, model, created);
    } else {
      var b' := b[..|b| - 1];
      assert (a + b)[..|a + b| - 1] == a + b';
      EventFramesAppend(a, b', model, created);
    }
  }

  /** The frame of a tool start announces the tool and its input; that of a model-stream event carries its chunk. */
  lemma EventFramesSingle(e: AgentEvent, model: string, created: int)
    ensures EventFrames([e], model, created) ==
              if Relevant(e) then
                [ChunkFrame(e.meta, created, model,
                            if e.kind == "on_tool_start" then ToolDelta(e.name, e.input.GetOr("")) else e.chunk)]
              else []
  {
    assert [e][..0] == [];
  }

  lemma {:induction false} EventFramesCount(events: seq<AgentEvent>, model: string, created: int)
    ensures |EventFrames(events, model, created)| == RelevantCount(events)
  {
    if events != [] {
      EventFramesCount(events[..|events| - 1], model, created);
    }
  }

  /** How many events are read before the stream first raises. */
  function RaiseAt(events: seq<AgentEvent>): (n: nat)
    ensures n <= |events|
    ensures forall i :: 0 <= i < n ==> events[i].AgentEvent?
    ensures n < |events| ==> events[n].Raised?
  {
    if events == [] || events[0].Raised? then 0 else 1 + RaiseAt(events[1..])
  }

  /**
   * What `event_generator` yields: the frames of the events read before the
   * stream raises, and `[DONE]` only when it never raises, since the
   * exception escapes the generator after the handler has returned.
   */
  function StreamFrames(events: seq<AgentEvent>, model: string, created: int): (frames: seq<Frame>)
    ensures var n := RaiseAt(events);
      |frames| == RelevantCount(events[..n]) + (if n == |events| then 1 else 0)
    ensures Terminated(frames) <==> forall i :: 0 <= i < |events| ==> events[i].AgentEvent?
  {
    var n := RaiseAt(events);
    EventFramesCount(events[..n], model, created);
    var body := EventFrames(events[..n], model, created);
    assert forall f :: f in body ==> f.Chunk?;
    if n == |events| then
      assert forall i :: 0 <= i < |body| ==> body[i].Chunk?;
      body + [Done]
    else
      assert body != [] ==> body[|body| - 1] in body;
      body
  }

  /** `event_generator`: a chunk per relevant event, then `[DONE]`; it stops where the stream raises. */
  method EventGenerator(events: seq<AgentEvent>, model: string, created: int) returns (frames: seq<Frame>)
    ensures frames == StreamFrames(events, model, created)
  {
    frames := [];
    var i := 0;
    while i < |events|
      invariant 0 <= i <= |events|
      invariant forall k :: 0 <= k < i ==> events[k].AgentEvent?
      invariant frames == EventFrames(events[..i], model, created)
    {
      var event := events[i];
      if event.Raised? {
        assert RaiseAt(events) == i;
        return;
      }
      assert events[..i + 1][..i] == events[..i];
      var kind := event.kind;
      if kind == "on_tool_start" || kind == "on_chat_model_stream" {
        var c;
        if kind == "on_tool_start" {
          c := "Invoking: `" + event.name + "`\n```\n" + event.input.GetOr("") + "\n```\n\n";
        } else {
          c := event.chunk;
        }
        frames := frames + [ChunkFrame(event.meta, created, model, c)];
      }
      i := i + 1;
    }
    assert RaiseAt(events) == |events|;
    assert events[..i] == events;
    frames := frames + [Done];
  }

  // ---------------------------------------------------------------------------
  // Proxy
  // ---------------------------------------------------------------------------

  /** The parts of the request body the proxy reads. */
  datatype ProxyRequest = ProxyRequest(model: Option<string>, messages: Option<seq<ChatMessage>>)

  /** What a successful proxy call streams, with the input and history the agent was given. */
  datatype Stream = Stream(input: string, history: seq<Message>, frames: seq<Frame>)

  /** The context budget and turn limit of the `ChatAgent` the proxy builds (its defaults). */
  const AgentMaxContextTokens := 8192
  const AgentMemoryTurns := -1

  /** The `ChatAgent` the proxy builds for a key: serper search when a serper key is set, duckduckgo otherwise. */
  function AgentFor(key: string, serperKey: Option<string>, env: ChatAgent.Env): Result<seq<Tools.Tool>, ChatAgent.SetupError> {
    var search := if ChatAgent.IsSet(serperKey) then "serper" else "duckduckgo";
    ChatAgent.Setup(ChatAgent.Options(Some(key), search, serperKey, AgentMaxContextTokens, AgentMemoryTurns), env)
  }

  /** The methods a `ChatAgent` offers for a turn. */
  const ChatAgentRunMethods: set<string> := {"run", "astream_run"}

  /**
   * `proxy` as written: after the key check and the agent's construction it
   * awaits `client.stream_run(...)`, which `ChatAgent` does not define, so the
   * handler's `except` turns every such request into a 500.
   */
  function ProxyAsWritten(apiKeys: seq<string>, idx: nat, req: ProxyRequest, serperKey: Option<string>,
                          env: ChatAgent.Env, tok: string -> nat, created: int,
                          events: seq<AgentEvent>): (r: Result<Stream, AppError>)
  {
    if idx >= |apiKeys| then Failure(KeyIndexError)
    else if apiKeys[idx] == "" then Failure(Unauthorized)
    else if AgentFor(apiKeys[idx], serperKey, env).Failure? then Failure(ServerError)
    else if "stream_run" !in ChatAgentRunMethods then Failure(ServerError)
    else Proxy(apiKeys, idx, req, serperKey, env, tok, created, events)
  }

  /** The proxy as written never streams: every request ends in an error. */
  lemma ProxyAsWrittenNeverStreams(apiKeys: seq<string>, idx: nat, req: ProxyRequest, serperKey: Option<string>,
                                   env: ChatAgent.Env, tok: string -> nat, created: int, events: seq<AgentEvent>)
    ensures ProxyAsWritten(apiKeys, idx, req, serperKey, env, tok, created, events).Failure?
    ensures idx < |apiKeys| && apiKeys[idx] != "" && AgentFor(apiKeys[idx], serperKey, env).Success? ==>
              ProxyAsWritten(apiKeys, idx, req, serperKey, env, tok, created, events) == Failure(ServerError)
              && Proxy(apiKeys, idx, req, serperKey, env, tok, created, events).Success?
  {
  }

  /**
   * `proxy` with the agent's streaming entry point `astream_run`: the key at
   * the chosen index must be non-empty (401), the agent must build (500);
   * then the converted history goes through the agent's history preparation
   * and its events are streamed back.
   */
  function Proxy(apiKeys: seq<string>, idx: nat, req: ProxyRequest, serperKey: Option<string>,
                 env: ChatAgent.Env, tok: string -> nat, created: int,
                 events: seq<AgentEvent>): Result<Stream, AppError>
  {
    if idx >= |apiKeys| then Failure(KeyIndexError)
    else if apiKeys[idx] == "" then Failure(Unauthorized)
    else if AgentFor(apiKeys[idx], serperKey, env).Failure? then Failure(ServerError)
    else
      var messages := req.messages.GetOr([]);
      var model := req.model.GetOr("gpt-3.5-turbo");
      var history := ConvertedHistory(messages);
      var sent := Prepare(tok, SelectNone(Some(history), []), AgentMemoryTurns, AgentMaxContextTokens);
      Success(Stream(InputStr(messages), sent, StreamFrames(events, model, created)))
  }

  /**
   * An empty key at the chosen index is refused with 401; a stream holds one
   * chunk per relevant event read, and ends with `[DONE]` exactly when the
   * agent's event stream never raises; the agent is given at most the last
   * 10 messages.
   */
  lemma ProxySpec(apiKeys: seq<string>, idx: nat, req: ProxyRequest, serperKey: Option<string>,
                  env: ChatAgent.Env, tok: string -> nat, created: int, events: seq<AgentEvent>)
    ensures var r := Proxy(apiKeys, idx, req, serperKey, env, tok, created, events);
            && (idx < |apiKeys| && apiKeys[idx] == "" ==> r == Failure(Unauthorized))
            && (r.Success? ==> (Terminated(r.value.frames) <==> forall i :: 0 <= i < |events| ==> events[i].AgentEvent?))
            && (r.Success? && RaiseAt(events) == |events| ==> |r.value.frames| == RelevantCount(events) + 1)
            && (r.Success? ==> |r.value.history| <= 10)
  {
    var r := Proxy(apiKeys, idx, req, serperKey, env, tok, created, events);
    if r.Success? {
      var model := req.model.GetOr("gpt-3.5-turbo");
      var history := ConvertedHistory(req.messages.GetOr([]));
      PrepareBounds(tok, history, AgentMemoryTurns, AgentMaxContextTokens);
      var frames := StreamFrames(events, model, created);
      assert r.value.frames == frames;
      if RaiseAt(events) == |events| {
        assert events[..|events|] == events;
      }
    }
  }

  /** The agent the proxy builds only fails when no tool is enabled. */
  lemma AgentForFailsOnlyWithoutTools(key: string, serperKey: Option<string>, env: ChatAgent.Env)
    requires key != ""
    ensures AgentFor(key, serperKey, env).Failure? <==>
              !env.enableSearchTool && !env.enableRunPythonCodeTool && !env.enableCrawlerTool
    ensures AgentFor(key, serperKey, env).Failure? ==> AgentFor(key, serperKey, env).error == ChatAgent.NoToolsEnabled
  {
  }
}
