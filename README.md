# ChatPilot gateway core in Dafny

ChatPilot is a chat gateway. It exposes OpenAI-compatible endpoints in front of
two back ends:

- a LangChain tool-using agent (`ChatAgent`, `LangchainAssistant`);
- DashScope, Alibaba's model service.

It also provides retrieval-augmented generation (RAG) document loading,
reciprocal-rank fusion of search results and image generation. This project
models the parts of that gateway that decide what is sent, stored and
returned, and proves what they promise.

- `History` (history.dfy): the conversation history the two agents keep.
  - Trimming to a token budget, newest first, stopping at the first message
    that overflows.
  - Cutting to the last `num_memory_turns` turns.
  - The two agents' different choice between an explicit and the stored
    history.
- `LangchainAssistant`, `ChatAgent`: the agents' constructors, with their
  checks in source order and the split of the context budget. Each agent is a
  class whose `Run` updates the stored history in place.
- `Tools`: which tools are enabled, the code-runner choice, the crawler loader
  and the crawler's text, which is cut to a token budget.
- `OpenAIApp`: the OpenAI-compatible app.
  - The model list is merged over several back-end URLs, tagged with their
    index, indexed by id and filtered by the model whitelist.
  - Chat messages are converted into input and history.
  - The agent's event stream is turned into server-sent-event chunks.
  - `/chat/completions` is proxied.
- `DashScopeApp`: the DashScope app.
  - The request URL and payload are built.
  - The LLM wrapper checks the response.
  - The system-prompt and question selection.
  - Streaming and the proxy.
- `Sse`: the `data: …\n\n` framing shared by both streams.
- `RagApp`: the RAG app.
  - The document loader is chosen by extension and content type.
  - The embedding function is chosen at start-up and on update.
  - The query settings.
- `RagFusion`: reciprocal-rank fusion of several ranked lists into a stable,
  descending ranking, and the text of its top entries.
- `RagTemplate`: the web client's RAG prompt template, with its `[context]`
  and `[query]` placeholders filled in.
- `ImageApp`: the image app's mutable configuration, the validated image size
  and steps, the model switch, the request body and the URLs of saved images.
- `Config`: the environment-derived settings the modelled code reads.
- `PyStr`: Python's and JavaScript's string built-ins used above, namely
  slicing with negative bounds, strip, split, `in` and endswith.
- `Wrappers`: `Option`, `Result`, `Outcome`.

Python's exceptions are modelled as `Result.Failure` values carrying the
error. Network calls, the clock, the tokenizer and the LLM are parameters.

## Model

| member | source |  states |
|---|---|---|
| History.Trim | chatpilot/langchain_assistant.py:334-349 | the trimmed history is never longer than the input; a negative budget keeps nothing |
| History.TrimSuffix | chatpilot/langchain_assistant.py:341-349 | the kept messages are the newest ones, a contiguous suffix of the history in its original order |
| History.TrimFits | chatpilot/langchain_assistant.py:341-349 | the kept messages' token total never exceeds the budget |
| History.TrimStopsAtOverflow | chatpilot/langchain_assistant.py:344-346 | when something is dropped, the newest dropped message would push the total over the budget: the walk stops at the first overflow and does not skip over it |
| History.TrimIdempotent | chatpilot/langchain_assistant.py:341-349 | trimming an already trimmed history changes nothing |
| History.TrimEmptyIff | chatpilot/langchain_assistant.py:343-346 | a non-empty history trims to nothing exactly when its newest message alone exceeds the budget |
| History.TrimHistory | chatpilot/langchain_assistant.py:334-349 | the loop (reverse walk, insert at the front, running total, break) returns exactly the trimmed history; `ChatAgent._trim_history` (chatpilot/chat_agent.py:231-246) is the same code |
| History.LastTurns | chatpilot/langchain_assistant.py:361-364 | with `num_memory_turns <= 0` the history is unchanged; otherwise it keeps the last `min(2*turns, len)` messages, as a suffix |
| History.PrepareBounds | chatpilot/langchain_assistant.py:360-365 | the prepared history is a suffix of the chosen history, fits the context budget, and holds at most `2*turns` messages when turns are limited |
| History.PrepareIdempotent | chatpilot/langchain_assistant.py:360-365 | preparing an already prepared history changes nothing |
| History.SelectFalsy | chatpilot/langchain_assistant.py:359 | `chat_history or self.chat_history`: an absent or empty argument falls back to the stored history, and a non-empty one is used |
| History.SelectNone | chatpilot/chat_agent.py:256 | `if chat_history is None`: only an absent argument falls back, so an explicit empty list is used as given |
| History.SelectionsDiffer | chatpilot/chat_agent.py:256 | the two agents choose differently exactly when the argument is an empty list and the stored history is not empty |
| History.OutputText | chatpilot/langchain_assistant.py:369-372 | an output with a `log` yields that log. A result dictionary yields its `"output"` entry, or the empty reply when it has none |
| History.ChatTurns | chatpilot/apps/openai_app.py:315-319 | converting OpenAI messages never yields more history entries than messages |
| History.ChatTurnsAppend | chatpilot/apps/openai_app.py:315-319 | converting distributes over concatenation: each message converts independently |
| LangchainAssistant.TruncDiv | chatpilot/langchain_assistant.py:97 | Python's `int()` truncates toward zero: for a non-negative dividend the floor quotient, for a negative one its mirror |
| LangchainAssistant.AdjustBudget | chatpilot/langchain_assistant.py:87-101 | `max_tokens` is clamped to 4096. Within the model's limit, both budgets keep their values. Over the limit, both are scaled so that they add up exactly to the limit |
| LangchainAssistant.AdjustBudgetProportional | chatpilot/langchain_assistant.py:96-98 | for non-negative budgets over the limit, `max_tokens` becomes the truncated share `m*limit/(m+c)`, and neither budget grows |
| LangchainAssistant.Setup | chatpilot/langchain_assistant.py:86-168 | the constructor's checks, in source order. An unsupported model type fails first, and fails exactly then. A serper engine without a key fails exactly when the search tool is enabled. A non-react agent on a back end without tool calling fails exactly when some tool is enabled. On success: the adjusted budgets, the enabled tools, a plain chat chain exactly when there are no tools, a given system prompt kept, and never an empty prompt when the default is set |
| LangchainAssistant.LangchainAssistant.constructor | chatpilot/langchain_assistant.py:162-164 | the settings are stored and the history starts empty |
| LangchainAssistant.LangchainAssistant.Create | chatpilot/langchain_assistant.py:41-168 | construction fails exactly when `Setup` does, with its error; otherwise a fresh assistant with the set-up budgets and tools and an empty history |
| LangchainAssistant.LangchainAssistant.PrepareHistory | chatpilot/langchain_assistant.py:359-365 | the history handed to the executor is the falsy-fallback choice, cut to the last turns and trimmed; `astream_run` (388-394) does the same |
| LangchainAssistant.LangchainAssistant.Run | chatpilot/langchain_assistant.py:351-377 | the prepared history is sent and the executor's output is returned unchanged. Afterwards the stored history is the sent history followed by the human input and the AI reply |
| LangchainAssistant.RunKeepsSuffix | chatpilot/langchain_assistant.py:359-376 | after a run, the stored history ends with exactly that exchange, and everything before it is a suffix of the chosen history |
| ChatAgent.Setup | chatpilot/chat_agent.py:74-182 | the checks in order, each exactly when it fires. A missing or empty OpenAI key fails first. Then a serper engine without a serper key fails, whatever the tool flags. Then no enabled tool fails. On success, the enabled tools, which are not empty |
| ChatAgent.ChatAgent.constructor | chatpilot/chat_agent.py:110-114 | the settings are stored and the history starts empty |
| ChatAgent.ChatAgent.Create | chatpilot/chat_agent.py:74-114 | construction fails exactly when `Setup` does, with its error; otherwise a fresh agent with the tools, the budgets and an empty history |
| ChatAgent.ChatAgent.PrepareHistory | chatpilot/chat_agent.py:256-262 | the history handed to the executor is the `is None` choice, cut to the last turns and trimmed; `astream_run` (280-286) does the same |
| ChatAgent.ChatAgent.Run | chatpilot/chat_agent.py:248-270 | a result without `"output"` fails and leaves the stored history as it was. Otherwise the prepared history is sent, and the stored history becomes the sent one followed by the exchange |
| Tools.Runner | chatpilot/langchain_assistant.py:207-212 | the E2B code runner is chosen exactly when an E2B key is set and non-empty, otherwise the local runner |
| Tools.EnabledTools | chatpilot/langchain_assistant.py:201-246 | the tool list holds exactly the enabled tools, in the order search, code runner, crawler; it is empty exactly when none is enabled |
| Tools.CrawlerLoader | chatpilot/langchain_assistant.py:220-224 | the URL is stripped first; the PDF loader is used exactly when the stripped URL ends in `.pdf` |
| Tools.Entries | chatpilot/langchain_assistant.py:227-232 | there is one text block per loaded document, in order |
| Tools.CrawlerTextAppend | chatpilot/langchain_assistant.py:227-232 | the crawler text of two batches of documents is the concatenation of their texts |
| Tools.EntryInCrawlerText | chatpilot/langchain_assistant.py:227-232 | each document's block appears in the text right after the blocks of the documents before it |
| Tools.CrawlerContent | chatpilot/langchain_assistant.py:227-237 | the loop builds the crawler text of the documents. Within the token budget it is returned whole, otherwise cut with `[:budget]`; the result is always a prefix of the text |
| Sse.ChunkFrame | chatpilot/apps/openai_app.py:340-354 | a chunk carries the requested model and the content; its id, creation time and fingerprint are the event's when present, else `default_id`, the stream's creation time and the empty fingerprint |
| Sse.TerminatedIff | chatpilot/apps/openai_app.py:358-359 | a frame sequence is terminated exactly when it is the chunks followed by the final `[DONE]` frame |
| Sse.Render | chatpilot/apps/openai_app.py:355-359 | every rendered frame is `data: ` followed by the chunk's encoding, or by `[DONE]` for the terminator, and then a blank line |
| OpenAIApp.TagList | chatpilot/apps/openai_app.py:207-211 | keeps exactly the models with a non-empty id, each as a copy tagged with its URL index |
| OpenAIApp.TagListAppend | chatpilot/apps/openai_app.py:207-211 | tagging keeps order: tagging a concatenation gives the tagged first part followed by the tagged second part |
| OpenAIApp.TagListSingle | chatpilot/apps/openai_app.py:207-211 | a single model comes out as its tagged copy when its id is non-empty, and is dropped otherwise |
| OpenAIApp.MergedSound | chatpilot/apps/openai_app.py:203-214 | every merged model has an id and is the tagged copy of a model from the list its `urlIdx` names |
| OpenAIApp.MergedComplete | chatpilot/apps/openai_app.py:203-214 | every model with an id, from every list, is in the merged list, tagged with its list's index |
| OpenAIApp.MergeModelsLists | chatpilot/apps/openai_app.py:203-214 | the loop returns the merged list |
| OpenAIApp.OkData | chatpilot/apps/openai_app.py:228-233 | only the `data` of successful responses survives: each surviving list is the body of some response, and there are never more lists than responses |
| OpenAIApp.OkDataCount | chatpilot/apps/openai_app.py:228-233 | exactly one model list is kept per response that has a body |
| OpenAIApp.NumBodiesPrefix | chatpilot/apps/openai_app.py:228-233 | the count of bodies in a prefix is the first response's share plus the count in the rest |
| OpenAIApp.OkDataAt | chatpilot/apps/openai_app.py:228-233 | the list of the `i`-th response, when it has a body, is kept at the position equal to the number of bodies before it |
| OpenAIApp.OkDataFrom | chatpilot/apps/openai_app.py:228-233 | each kept list at position `k` comes from a response with a body that has exactly `k` bodies before it |
| OpenAIApp.UrlIdxCountsSurvivors | chatpilot/apps/openai_app.py:228-233 | for every input, a merged model's `urlIdx` is the number of working responses before its own, not its URL's position. Every model with an id of a working response is merged with that tag, and every merged model is such a tagged copy. So each failed fetch shifts the tags of the later URLs down by one |
| OpenAIApp.ModelIndexKeys | chatpilot/apps/openai_app.py:236 | the id index has a key exactly for each id some model carries |
| OpenAIApp.ModelIndexLast | chatpilot/apps/openai_app.py:236 | each id maps to the last model in the list carrying it |
| OpenAIApp.BuildIndex | chatpilot/apps/openai_app.py:236 | the dictionary comprehension's loop builds the id index |
| OpenAIApp.FilterIds | chatpilot/apps/openai_app.py:249-254 | keeps exactly the models whose id is whitelisted |
| OpenAIApp.FilterIdsAppend | chatpilot/apps/openai_app.py:249-254 | filtering keeps order: filtering a concatenation gives the filtered first part followed by the filtered second part |
| OpenAIApp.FilterIdsSingle | chatpilot/apps/openai_app.py:249-254 | a single model is kept exactly when its id is whitelisted |
| OpenAIApp.GptModels | chatpilot/apps/openai_app.py:264-267 | with a non-empty URL, keeps exactly the models whose id contains `gpt`; with an empty URL, the list is unchanged |
| OpenAIApp.VisibleModelsSpec | chatpilot/apps/openai_app.py:247-256 | with the filter on, users see exactly the whitelisted models and admins see everything; with it off, everyone sees everything |
| OpenAIApp.AppState.constructor | chatpilot/apps/openai_app.py:49-55 | the app state holds the configured URLs, keys, filter flag and whitelist, with an empty model index |
| OpenAIApp.AppState.GetAllModels | chatpilot/apps/openai_app.py:217-238 | with the single empty key, no models and nothing changes. With fewer keys than URLs, the key lookup fails and nothing changes. Otherwise the result is the merged data of the successful responses, and the id index is rebuilt from it |
| OpenAIApp.AppState.GetModels | chatpilot/apps/openai_app.py:243-256 | the same three cases, with the merged list reduced to what the user's role may see. The model index is rebuilt from the whole merged list, whatever the role, and is left alone in the other two cases |
| OpenAIApp.ConvertedHistory | chatpilot/apps/openai_app.py:320-323 | with fewer than two chat turns the history is those turns. Otherwise it is the newest turns before the last one: `min(10, n - 1)` of them for `n` turns. It never holds more than 10 entries |
| OpenAIApp.ConvertMessages | chatpilot/apps/openai_app.py:313-326 | the loop yields the converted history and the last user message as input |
| OpenAIApp.LastUserMessageIsInput | chatpilot/apps/openai_app.py:313-326 | when the messages end with a user message after some earlier turns, the input is that message's content, and the history is the earlier turns cut to the last 10 |
| OpenAIApp.LoneUserMessageEchoed | chatpilot/apps/openai_app.py:320-326 | a single user message is both the input and the one history entry, because dropping the last entry needs two |
| OpenAIApp.EventFrames | chatpilot/apps/openai_app.py:332-356 | every frame is a chunk of the requested model |
| OpenAIApp.EventFramesSingle | chatpilot/apps/openai_app.py:333-337 | a tool-start event becomes a chunk announcing ``Invoking: `name` `` followed by its input (default empty) in a fenced block. A model-stream event becomes a chunk carrying its content. Both keep the event's metadata. Any other event gives no frame |
| OpenAIApp.EventFramesAppend | chatpilot/apps/openai_app.py:332-356 | the frames of two batches of events are the concatenation of their frames |
| OpenAIApp.EventFramesCount | chatpilot/apps/openai_app.py:332-356 | there is exactly one frame per model-stream or tool event, and none for the others |
| OpenAIApp.RaiseAt | chatpilot/apps/openai_app.py:332-337 | the number of events read before the stream first raises: those before it are events, and the one at that index is a raise |
| OpenAIApp.StreamFrames | chatpilot/apps/openai_app.py:330-359 | one chunk per relevant event read before the stream raises. It ends with `[DONE]` exactly when the stream never raises |
| OpenAIApp.EventGenerator | chatpilot/apps/openai_app.py:330-359 | the loop yields exactly the frames of `StreamFrames`, stopping where the stream raises |
| OpenAIApp.ProxyAsWrittenNeverStreams | chatpilot/apps/openai_app.py:327 | as written, every request fails. With a key and a buildable agent it fails with a 500 where the corrected proxy streams |
| OpenAIApp.ProxySpec | chatpilot/apps/openai_app.py:288-365 | the corrected proxy. An empty key gives 401. A success ends with `[DONE]` exactly when the agent's event stream never raises, and then holds one frame per tool or model-stream event plus `[DONE]`. It sends at most 10 history entries |
| OpenAIApp.AgentForFailsOnlyWithoutTools | chatpilot/apps/openai_app.py:301-311 | with a non-empty key, building the agent fails exactly when no tool is enabled, and then with the no-tools error. The serper engine is picked only when its key is set, so the serper check never fires |
| DashScopeApp.RootShape | chatpilot/apps/dashscope_app.py:131-134 | the root starts with the base URL and ends in `/`; one `/` is appended exactly when the base lacks it |
| DashScopeApp.ApiUrlPrefix | chatpilot/apps/dashscope_app.py:130-144 | the URL starts with the root. A service request puts `service_path/` right after it. A plain request is the root followed by the task-group and task segments and the function name |
| DashScopeApp.ApiUrlSuffix | chatpilot/apps/dashscope_app.py:135-144 | the URL ends with the function name |
| DashScopeApp.UrlOfBareBase | chatpilot/apps/dashscope_app.py:131-144 | with empty task parts and no service, the URL is the root |
| DashScopeApp.HttpUrl | chatpilot/apps/dashscope_app.py:130-144 | the URL of an HTTP request is the composed API URL |
| DashScopeApp.BuildApiRequest | chatpilot/apps/dashscope_app.py:112-177 | a websocket protocol is rejected exactly when given. A request with neither input nor form is rejected. A built request has the composed URL, the given headers (none becomes empty) and the model |
| DashScopeApp.ACallHeaders | chatpilot/apps/dashscope_app.py:192-203 | input is required exactly when prompt and messages are both missing or empty. Otherwise a missing or empty model is rejected. Without plugins the headers are passed on unchanged. With plugins the plugin header holds the text or the JSON encoding of the object, and every other header is kept |
| DashScopeApp.DashScopeLLM.constructor | chatpilot/apps/dashscope_app.py:229-247 | the wrapper stores the model, key and temperature, and uses a system prompt exactly when the model name contains one of the listed families |
| DashScopeApp.DashScopeLLM.ConstKwargs | chatpilot/apps/dashscope_app.py:249-262 | the arguments hold the key, model, messages, stream flag and result format `message`. `temperature` is added exactly when positive, and `incremental_output` exactly when streaming |
| DashScopeApp.CheckResponse | chatpilot/apps/dashscope_app.py:264-266 | a response passes exactly when its status is 200. Otherwise it fails with a runtime error whose text starts with the response's code and ends with its request id and message |
| DashScopeApp.GetChoiceText | chatpilot/apps/dashscope_app.py:268-269 | an empty choices list fails on `[0]`. Missing choices give the empty text. Otherwise the first choice's message content, or the empty text when it has none |
| DashScopeApp.DropNewest | chatpilot/apps/dashscope_app.py:323 | `history[:-1]`: the converted turns without the last one, and none when there are none |
| DashScopeApp.SystemPromptLastWins | chatpilot/apps/dashscope_app.py:316-322 | the content of the last system message is the system prompt, whatever non-system messages follow |
| DashScopeApp.ConvertMessages | chatpilot/apps/dashscope_app.py:313-326 | the loop yields the system prompt, the history without its newest turn, and the user question |
| DashScopeApp.ReadableRun | chatpilot/apps/dashscope_app.py:334 | the number of events before the first one whose content cannot be read: those before it are readable, and the one at that index is not |
| DashScopeApp.EventGenerator | chatpilot/apps/dashscope_app.py:332-355 | the loop yields exactly the frames of `StreamFrames`, stopping at the first unreadable event |
| DashScopeApp.StreamFrames | chatpilot/apps/dashscope_app.py:332-355 | one chunk per event, in order, up to the first unreadable event, with the event's metadata and the requested model. The stream ends with `[DONE]` exactly when every event could be read; otherwise it stops without it |
| DashScopeApp.Proxy | chatpilot/apps/dashscope_app.py:297-361 | a missing or empty key gives 401, and only then. With a key, a 500 comes exactly when the generation call raises: it rejects no messages or an empty model name, and otherwise fails when its validation, request building or sending fails. Otherwise the request's messages go upstream unchanged, with the model defaulting to `qwen-max`, and the frames are those of `StreamFrames` |
| DashScopeApp.AppState.constructor | chatpilot/apps/dashscope_app.py:60-62 | the app state holds the key and an empty model index, and is enabled exactly when the key is set |
| DashScopeApp.AppState.GetAllModels | chatpilot/apps/dashscope_app.py:88-100 | without a key, no models and nothing changes. With one, the two Qwen models are returned, the app is enabled, and the index maps each id to its model |
| RagApp.FileExtensionSpec | chatpilot/apps/rag_app.py:401 | the extension is the lower-cased text after the last `.`, or the whole lower-cased name when there is none, and the name ends with that text |
| RagApp.GetLoader | chatpilot/apps/rag_app.py:399-480 | an unrecognised type always falls back to the text loader |
| RagApp.ExtensionChecksFirst | chatpilot/apps/rag_app.py:449-458 | the extensions pdf, csv, rst, xml and md decide the loader whatever the content type |
| RagApp.KnownTypeIff | chatpilot/apps/rag_app.py:402-480 | `known_type` is true exactly when the extension or the content type is one the chain recognises |
| RagApp.SourceOrTextIsText | chatpilot/apps/rag_app.py:472-475 | a source-code extension or a `text/` content type uses the text loader, when no document extension or document content type earlier in the chain matches |
| RagApp.PdfWinsOverTextType | chatpilot/apps/rag_app.py:449-450 | a `.pdf` file uses the PDF loader even when its content type says text |
| RagApp.MissingContentTypeLikeEmpty | chatpilot/apps/rag_app.py:459-474 | a missing content type behaves like an empty one |
| RagApp.OpenAIFor | chatpilot/apps/rag_app.py:124-128 | given a key, fails exactly when there is no base URL for `[0]`; otherwise uses the first key, the first URL and the model |
| RagApp.StartupEmbedding | chatpilot/apps/rag_app.py:123-138 | a `text-embedding` model with a first key gets OpenAI embeddings on that key and the first base URL, or an index error when there is no base URL. Otherwise a text2vec name gets text2vec, tested before w2v, and then a w2v name gets word2vec. The hashing fallback comes exactly when none of those applies, and sentence-transformers is never chosen at start-up |
| RagApp.UpdatedEmbedding | chatpilot/apps/rag_app.py:222-249 | a name containing text2vec gets text2vec. Otherwise a `text-embedding` name fails without a key; with a key it gets OpenAI on the first key and base URL, or an index error when there is no base URL. Otherwise a `w2v` name gets word2vec, and any other non-empty name gets sentence-transformers; an empty name gets the hashing fallback. Each choice is stated in both directions |
| RagApp.StartupAndUpdateDiffer | chatpilot/apps/rag_app.py:123-138 | the two chains disagree. A name holding both `text2vec` and `text-embedding` gets OpenAI at start-up but text2vec on update. A `text-embedding` model without a key starts, but cannot be switched to |
| RagApp.DefaultModelAgrees | chatpilot/apps/rag_app.py:123-128 | for the default `text-embedding-ada-002` with a key and a URL, both choose OpenAI embeddings with the first key and URL |
| RagApp.IntOr | chatpilot/apps/rag_app.py:323 | `x or default`: a given non-zero value wins; a missing or zero value gives the default |
| RagApp.RagState.constructor | chatpilot/apps/rag_app.py:79-86 | the state holds the built-in template, the model, top-k, keys, URLs and embedding function, with PDF image extraction off |
| RagApp.RagState.Create | chatpilot/apps/rag_app.py:79-138 | start-up fails exactly when the start-up embedding choice does; otherwise it stores that function with the model, top-k and built-in template |
| RagApp.RagState.LoaderFor | chatpilot/apps/rag_app.py:449-450 | a `.pdf` file uses the PDF loader with the stored image-extraction setting |
| RagApp.RagState.UpdateEmbeddingModel | chatpilot/apps/rag_app.py:218-255 | the model name is stored in any case. On success the new embedding function is stored and the name returned. On failure the error is returned and the old function is kept |
| RagApp.RagState.EffectiveK | chatpilot/apps/rag_app.py:342 | `form_data.k if form_data.k else TOP_K`: a given non-zero k wins, and a missing or zero k falls back to the stored top-k. So with a non-zero stored top-k the result is never zero |
| RagApp.RagState.UpdateQuerySettings | chatpilot/apps/rag_app.py:318-324 | the template is the given one, or the built-in one when missing or empty. Top-k is the given non-zero k, else 4. Afterwards no query's k can be zero |
| RagFusion.FirstSeenSpec | chatpilot/rag_fusion.py:76-86 | the score dictionary's keys are exactly the documents hit, each once |
| RagFusion.ScoreOfUnseen | chatpilot/rag_fusion.py:76-82 | a document never hit scores nothing |
| RagFusion.ScoreAppend | chatpilot/rag_fusion.py:76-82 | scores add up over consecutive batches of hits |
| RagFusion.ScoreNonNegative | chatpilot/rag_fusion.py:76-82 | every fused score is non-negative |
| RagFusion.ScoreAround | chatpilot/rag_fusion.py:76-82 | a document's score is the part before a hit, plus that hit's share, plus the part after it |
| RagFusion.ScoreCreditsEveryHit | chatpilot/rag_fusion.py:78-82 | each hit of a document adds at least its share `1/(rank+k)` to its score |
| RagFusion.EarlierRankWeighsMore | chatpilot/rag_fusion.py:73-82 | a better rank contributes strictly more than a worse one |
| RagFusion.InsertPermutes | chatpilot/rag_fusion.py:84-87 | inserting into the ranking adds exactly the new entry |
| RagFusion.InsertKeepsDescending | chatpilot/rag_fusion.py:84-87 | inserting into a descending ranking keeps it descending |
| RagFusion.InsertStable | chatpilot/rag_fusion.py:84-87 | inserting keeps each score class in order and puts the new entry last in its own |
| RagFusion.SortDescendingSpec | chatpilot/rag_fusion.py:84-87 | `sorted(..., reverse=True)` returns a descending permutation that keeps equal scores in input order |
| RagFusion.WithScoreAppend | chatpilot/rag_fusion.py:84-87 | a score class of two concatenated lists is the concatenation of their classes |
| RagFusion.RerankedOrder | chatpilot/rag_fusion.py:84-87 | the ranking is descending and ties keep the dictionary's first-hit order |
| RagFusion.RerankedSameItems | chatpilot/rag_fusion.py:84-87 | the ranking is a permutation of the dictionary's items |
| RagFusion.RerankedScores | chatpilot/rag_fusion.py:75-87 | each ranked document carries its fused score, and exactly the documents hit are ranked |
| RagFusion.RerankedDistinct | chatpilot/rag_fusion.py:75-87 | no document is ranked twice |
| RagFusion.FusedTextOfNoHits | chatpilot/rag_fusion.py:88-90 | no hits at all gives the empty text |
| RagFusion.FusedTextTakesTop | chatpilot/rag_fusion.py:88-90 | the text is the page contents of the first `topk` ranked entries, in order |
| RagFusion.ReciprocalRankFusion | chatpilot/rag_fusion.py:72-90 | the loops build the fused scores and the function returns the fused text of the top entries |
| RagTemplate.ReplaceAbsent | web/src/lib/utils/rag/index.ts:14-15 | a global replace of a pattern that does not occur leaves the string unchanged |
| RagTemplate.ReplaceBySelf | web/src/lib/utils/rag/index.ts:14-15 | replacing a pattern by itself leaves the string unchanged |
| RagTemplate.ReplaceSplit | web/src/lib/utils/rag/index.ts:14-15 | replacing distributes over a split point that no occurrence crosses |
| RagTemplate.RenderWithoutPlaceholders | web/src/lib/utils/rag/index.ts:14-15 | a template with neither placeholder is returned unchanged |
| RagTemplate.FillFirst | web/src/lib/utils/rag/index.ts:14 | filling `[context]` in a template with one occurrence puts the context there, unchanged |
| RagTemplate.FillLast | web/src/lib/utils/rag/index.ts:15 | filling `[query]` puts the query in place of the trailing placeholder, and also replaces any `[query]` the inserted context holds |
| RagTemplate.RenderFallback | web/src/lib/utils/rag/index.ts:4-15 | the built-in template renders as its head, the context (with its own `[query]`s filled), its middle, then the query |
| ImageApp.BeforeFinalNewline | chatpilot/apps/image_app.py:115-116 | Python's `$` matches at the end or before one final newline: the body is the string, or the string without its final newline |
| ImageApp.SizeAccepted | chatpilot/apps/image_app.py:115-116 | digits, `x`, digits matches the pattern, with or without one final newline |
| ImageApp.SizeShape | chatpilot/apps/image_app.py:115-116 | a matching size is digits, `x`, digits, with at most one final newline |
| ImageApp.MatchesSizeIff | chatpilot/apps/image_app.py:115-116 | a size matches exactly when it has that shape |
| ImageApp.ImageUrlId | chatpilot/apps/image_app.py:255 | the URL is the cache prefix, the image id (`None` when saving failed) and `.png`, and the id can be read back from it |
| ImageApp.ImageUrlInjective | chatpilot/apps/image_app.py:255 | different ids give different URLs |
| ImageApp.ImageUrls | chatpilot/apps/image_app.py:252-255 | the loop yields one URL per saved image, in order |
| ImageApp.ImageUrlsDistinct | chatpilot/apps/image_app.py:252-255 | two different saved ids give two different URLs |
| ImageApp.ImageState.constructor | chatpilot/apps/image_app.py:42-55 | the engine is `openai`, disabled, model `dall-e-3`, size `1024x1024`, 50 steps. A client manager exists exactly when there is a non-empty first key |
| ImageApp.ImageState.UpdateConfig | chatpilot/apps/image_app.py:68-72 | the engine and the enabled flag take the given values and are reported back |
| ImageApp.ImageState.OpenAIKey | chatpilot/apps/image_app.py:83-85 | the first key, and an index error when there are no keys |
| ImageApp.ImageState.UpdateOpenAIKey | chatpilot/apps/image_app.py:88-99 | no keys is an index error. An empty stored key with an empty new key is rejected. Both errors change nothing. Otherwise only the first key changes, and only when the new one is non-empty; the key returned is non-empty |
| ImageApp.ImageState.UpdateImageSize | chatpilot/apps/image_app.py:111-126 | a size is stored exactly when it matches `^\d+x\d+$`; otherwise the format error is returned and the size is kept |
| ImageApp.ImageState.UpdateImageSteps | chatpilot/apps/image_app.py:138-152 | a step count is stored exactly when it is non-negative; otherwise the format error is returned and the steps are kept |
| ImageApp.ImageState.Models | chatpilot/apps/image_app.py:155-165 | models are listed exactly for the `openai` engine. The list is `dall-e-2` ("DALL·E 2") followed by the default `dall-e-3` ("DALL·E 3") |
| ImageApp.ImageState.DefaultModelReported | chatpilot/apps/image_app.py:168-175 | a model is reported exactly for the `openai` engine. It is the stored model when that is non-empty, and `dall-e-3` when it is empty |
| ImageApp.ImageState.SetModel | chatpilot/apps/image_app.py:182-193 | the `openai` engine stores and returns the given model; any other engine changes nothing and returns nothing |
| ImageApp.ImageState.RequestData | chatpilot/apps/image_app.py:234-240 | the body carries the stored model, or `dall-e-3` when that is empty. It also carries the prompt, the count, `b64_json`, and the form's size or else the stored size |
| ImageApp.ImageState.RequestModelIsDefaultModel | chatpilot/apps/image_app.py:234-240 | the model in the request body is the one `DefaultModelReported` returns |
| ImageApp.ImageState.GenerateImage | chatpilot/apps/image_app.py:222-266 | another engine returns nothing. Without a client manager, or when generation fails, the result is the 400 error. Otherwise one URL per saved image, in order |
| Config.OllamaBaseUrl | chatpilot/config.py:91-100 | a set `OLLAMA_BASE_URL` wins. Otherwise the API base URL is used, without its `/api` suffix when it has one |
| Config.OllamaApiSuffixRemovedOnce | chatpilot/config.py:95-100 | with only the API URL set, for every URL that ends in `/api`, exactly one `/api` is removed. A prefix that itself ends in `/api` keeps it |
| Config.OllamaBaseUrlsCount | chatpilot/config.py:102 | the URL list has one more entry than there are `;`. With neither variable set it is one empty entry |
| Config.FlagValues | chatpilot/config.py:155 | an unset flag is on (default `True`). A set flag is on exactly when its value spells `true` in any mix of upper and lower case |
| Config.CommaListSpec | chatpilot/config.py:242-243 | the list has one entry per comma plus one; each entry is the stripped part between commas, and empty entries are kept |
| Config.ModelFilterListDefault | chatpilot/config.py:242-243 | an unset whitelist is the list with one empty entry |
| Config.DefaultModelsDefault | chatpilot/config.py:209-210 | the default model list is `gpt-3.5-turbo-1106` |
| Config.ModelFilterEnabled | chatpilot/config.py:241 | the filter flag is the raw string's truthiness: on exactly when the variable is set and non-empty |
| Config.ModelFilterEnabledByFalse | chatpilot/config.py:241 | setting the variable to `false` turns the filter on |
| Config.IntSetting | chatpilot/config.py:124-125 | `int(os.getenv(name, default))`: an unset variable gives the default. A set one succeeds exactly when it parses, with the parsed value, and otherwise fails with that setting's name |
| Config.RateLimitsDefault | chatpilot/config.py:124-125 | unset `RPD` and `RPM` are both -1, meaning unlimited |
| Config.PromptSuggestions | chatpilot/config.py:212-236 | the configured suggestions are used exactly when `ui.prompt_suggestions` is present and a list. Otherwise, with a dictionary, the built-in list is used |
| Config.NoConfigFileBuiltinSuggestions | chatpilot/config.py:34-38 | an unreadable or missing config file yields `{}` and so the built-in suggestions |
| Config.ScalarConfigRaises | chatpilot/config.py:212-216 | a config file holding a bare number, boolean or null makes the `"ui" in` test raise a type error |
| PyStr.SliceTo | chatpilot/config.py:97 | `s[:n]` with Python's negative and out-of-range bounds: a prefix of the clamped length |
| PyStr.SliceFrom | chatpilot/langchain_assistant.py:362 | `s[-n:]` with Python's bounds: a suffix of the clamped length |
| PyStr.StripSpec | chatpilot/config.py:102 | `strip()` removes exactly the leading and trailing whitespace; the result sits in place in the string and has no whitespace at either end |
| PyStr.SplitLength | chatpilot/config.py:102 | `split(sep)` yields one more part than there are separators |
| PyStr.JoinSplit | chatpilot/config.py:102 | joining the parts with the separator gives back the string, so splitting loses nothing |
| PyStr.SplitPartsFree | chatpilot/config.py:102 | no part contains the separator |
| PyStr.LastPartSpec | chatpilot/apps/rag_app.py:401 | the last part of a split is a suffix of the string; it is preceded by the separator when there is one, and is the whole string otherwise |
| PyStr.ContainsIff | chatpilot/apps/openai_app.py:266 | `x in s` holds exactly when `x` occurs at some position |
| PyStr.ConcatAppend | chatpilot/langchain_assistant.py:229-232 | building a text block by block is the same as concatenating the blocks |

## Left out

- LangchainAssistant.TruncDiv, LangchainAssistant.AdjustBudget: `int((a/b)*c)` is computed in floating point in the source. The model uses exact integer truncation, which can differ by one where the float rounds across an integer.
- PyStr.Strip, PyStr.Lower: ASCII whitespace and ASCII case only. Unicode whitespace and case folding are not modelled.
- ImageApp.MatchesSizeIff: `\d` is taken as the ASCII digits. Python also accepts other Unicode decimal digits.
- RagTemplate.ReplaceAll: JavaScript's `$&`-style patterns in the replacement string are not interpreted; the replacement is taken literally.
- Aliasing of mutable lists is not modelled.
  - `chat_history.extend(...)` in the source also changes a caller's list when that list was passed in.
  - The stored `OPENAI_API_KEYS` list is shared with the configuration module.
- RagFusion.ReciprocalRankFusion requires `k > 0`, which the default of 60 meets. Scores are exact reals, not floats. Documents are identified by value rather than by their `dumps` serialisation.
- Credential rotation (`random.randrange` over the keys) and rate limiting are not modelled. This includes the unused `user_request_counts` of chatpilot/apps/dashscope_app.py:64-65.
- The LangChain agent loop, the LLM calls, the search engines and the code runners are not modelled. Their results are parameters: the result dictionary, the event stream and the streamed responses.
- Network and file I/O are parameters or left out: fetching URLs, saving base64 images, writing JSON files and creating directories.
- JSON serialisation of the frames is not modelled. A frame is a datatype, and `Sse.Render` fixes only its framing.
- DashScopeApp.Proxy: the request's `temperature` reaches the upstream call's arguments (see `DashScopeApp.DashScopeLLM.ConstKwargs`), but the stream records only the model and the messages. The source reads `max_tokens` and `num_ctx` and never uses them, and it also never uses the system prompt and history it converts at lines 314-323 of chatpilot/apps/dashscope_app.py.
- OpenAIApp.VisibleModelsSpec: `MODEL_FILTER_ENABLED` is taken as a boolean, which is its truthiness in the source.
- RagApp.StartupEmbedding: the `ImportError` path of the optional Word2Vec loader is not modelled.
- ImageApp.ImageState.UpdateOpenAIKey: the source keeps the client manager built at start-up, so a key update does not rebuild it. The model stores the key only, as the source does.
- The thread-local client cache (`local_client`) is not modelled. A new agent is built for every request.
- The HTTP error mapping of `/models/{url_idx}` and the `check_url` middleware are not modelled. OpenAIApp.GptModels covers the `url_idx` path's filtering only.
- DashScopeApp.BuildApiRequest: the websocket protocol is modelled only as its rejection.
- DashScopeApp.Proxy: the failures of the generation call after its input checks are one boolean parameter. These are validating the key and model, building the request and sending it, at lines 206-216 of chatpilot/apps/dashscope_app.py. Which of them failed, and the exception raised, are not modelled.
- OpenAIApp.StreamFrames: a raise stands for any exception while the agent's event stream is iterated. It covers an agent failure, and an event missing `event`, `data` or its chunk's content. Which exception it was is not modelled; the model records only that the stream stops there without `[DONE]`.
- DashScopeApp.StreamFrames: an unreadable event stands for any streamed event whose `output.choices[0]["message"]["content"]` raises. The exception itself is not modelled; the model records only that the stream stops there without `[DONE]`.
- DashScopeApp.CheckResponse: the contract fixes how the error text starts and how it ends. That the text is exactly those pieces joined, as the source's f-string builds it, is the body of `ResponseErrorText` and is not restated.
- `_get_protocol_params` and `_build_input_parameters` belong to the DashScope SDK, which is not part of this model. They appear as parameters.
- The tokenizer (tiktoken) is the parameter `tok: string -> nat`.
- `MODEL_TOKEN_LIMIT`, `ENABLE_CRAWLER_TOOL` and `OPENAI_API_KEYS` are imported from a configuration module that is not part of this model, since chatpilot/config.py does not define them. They are parameters.
- OpenAIApp.Proxy: the request's `max_tokens`, `stream` and `temperature` configure the LLM client, which is not modelled. The agent is built with the `ChatAgent` defaults: 8192 context tokens and unlimited memory turns.

## Findings

| source | as written | input that shows it | evidently intended | confidence | as-written member | corrected member |
|---|---|---|---|---|---|---|
| chatpilot/apps/openai_app.py:327 | the proxy streams `client.stream_run(...)`, a method `ChatAgent` does not define (it has `run` and `astream_run`). The `AttributeError` is caught at lines 362-365 and returned as a 500 | any chat request with a non-empty API key and at least one enabled tool | stream the frames of `client.astream_run(...)` | high; not executed | OpenAIApp.ProxyAsWrittenNeverStreams | OpenAIApp.ProxySpec |
