# Chat backend — a Dafny model

This project models the Python backend of a small educational chat service. Its parts:

- **Message types.** A `Message` and a `Conversation` are validated value types; a conversation is an append-only list of messages.
- **Request and response models.** `ChatRequest`, `ChatResponse` and the `StreamChunk` frame.
- **`ChatWorkflow`.** It keeps an in-memory map from conversation id to conversation. It answers a message either in one piece or as a stream of frames: `start`, then `chunk`s, then `end` or `error`.
- **Mock AI model.** It picks a canned reply and streams it word by word.
- **LangChain-backed providers.** Their retry counter, their failure replies and the default-provider choice are modelled.
- **FastAPI routes.** These cover:
  - status codes;
  - the history `limit` bounds;
  - the delete rule;
  - the conversation list preview;
  - the Server-Sent Events (SSE) framing `data: <json>\n\n`, together with the client that reads it back.

Everything is modelled with immutable datatypes and pure functions. Modules follow the source files:

| module | models |
|---|---|
| `Wrappers`, `Dicts`, `Text`, `Validation` | `Option`/`Result`; JSON-like dictionaries; Python's `strip`, `split`, `lower` and substring tests; the shared pydantic content validator |
| `Messages` | `backend/app/models/message.py` |
| `ChatModels` | `backend/app/models/chat.py` |
| `MockModel` | `MockAIModel` in `backend/app/chat/ai_models.py` |
| `Providers` | `backend/app/chat/ai_providers.py` |
| `Workflow` | `backend/app/chat/workflow.py` |
| `Sse` | `generate_sse` in `backend/app/routes/chat.py` and the reading client of `backend/test_stream_chat.py` |
| `Routes` | the other handlers in `backend/app/routes/chat.py` |

Some inputs are nondeterministic: generated ids (uuid), clock readings and the elapsed `processing_time`. These are all fields of one `Env` value that the caller supplies. The fresh conversation id has the generated shape, "conv_" followed by 12 lower-case hex digits, by its type. Timestamps are logical natural numbers.

The AI model is a function parameter:
- `seq<string> -> ModelReply` for a plain answer;
- `seq<string> -> ModelStream` for a stream, which gives the pieces yielded and possibly the exception raised after them.

The JSON text of a frame is produced by an `encode` function parameter. The model assumes only that this text has no line feed and that a `decode` function inverts it. This holds for frames dumped in JSON mode (`model_dump(mode="json")`), and the stream route and its client are modelled that way. The generator as written dumps in Python mode, and then `json.dumps` fails on every frame; see "## Findings".

A node of the non-streaming pipeline that raises leaves behind what it had already stored:
- a new conversation created before the user message is rejected;
- the AI message appended before a negative elapsed time makes `ChatResponse` fail.

`process_message` then answers with its fallback apology.

Where the route and the validator disagree, the model follows the code. A request whose message is empty or blank never reaches the route's own `400 Message cannot be empty` branch. The reason is that `ChatRequest` validation rejects it first, so FastAPI answers 422, as the tests in `backend/test_chat_api_comprehensive.py` expect. `Routes.RouteBlankCheckIsDead` proves that the 400 branch cannot fire.

Likewise, `process_message` catches every exception and returns an apology response. The chat route's `ValueError`/`TimeoutError` mapping (`Routes.ChatFailure`) is therefore reachable only in principle.

## Model

| member | source | states |
|---|---|---|
| Text.Strip | backend/app/models/message.py:58-63 | `str.strip()`: the result is no longer than the input, starts and ends with a non-space, and is empty exactly when the input is all whitespace |
| Text.StripIdempotent | backend/app/models/message.py:58-63 | stripping a stripped string changes nothing, so stored content is a fixpoint of the validator |
| Text.SplitWords | backend/app/chat/ai_models.py:139 | `str.split()` yields only non-empty words without whitespace |
| Text.SplitJoinRoundTrip | backend/app/chat/ai_models.py:139-149 | splitting words joined by single spaces gives the words back |
| Validation.ValidateText | backend/app/models/message.py:35-40 | content is accepted iff its raw length is within bounds and it is not all whitespace, and the accepted value is the stripped text |
| Validation.ValidateTextStable | backend/app/models/message.py:58-63 | re-validating accepted content accepts it unchanged |
| Messages.ParseType | backend/app/models/message.py:12-17 | the wire strings "user", "ai" and "system" name the three message types, and no other string does |
| Messages.ParseTypeValue | backend/app/models/message.py:65-81 | reading back the written type value gives the same type |
| Messages.NewMessage | backend/app/models/message.py:35-40 | a message is created iff its content has 1..10000 characters and is not blank; its content is the stripped text and the other fields are as given |
| Messages.MessageFromDict | backend/app/models/message.py:76-81 | a dictionary missing `content`, `type` or `conversation_id` is rejected; a message read from a dictionary is valid and carries the dictionary's type, conversation id and stripped content |
| Messages.MessageDictRoundTrip | backend/app/models/message.py:65-81 | `from_dict(to_dict(m)) == m` for every valid message: id, content, type, timestamp, conversation id and metadata survive |
| Messages.DefaultConversationId | backend/app/models/message.py:111-114 | the default id is "conv_" followed by 12 lower-case hex digits |
| Messages.DefaultConversationIdInjective | backend/app/models/message.py:111-114 | two default ids differ exactly when the uuids differ in their first 12 hex digits |
| Messages.AddMessage | backend/app/models/message.py:132-152 | fails iff the content is invalid; on success appends exactly one message with the conversation's id, the given type and the stripped content, keeps every earlier message, sets `updated_at`, changes nothing else, and keeps the conversation valid |
| Messages.AddMessageAdvancesUpdatedAt | backend/app/models/message.py:132-152 | with a clock that does not run backwards, `updated_at` does not decrease |
| Messages.MessagesByType | backend/app/models/message.py:154-156 | the result is a subsequence of the messages (order kept) holding exactly the messages of that type |
| Messages.MessagesByTypePartition | backend/app/models/message.py:154-156 | the counts of user, AI and system messages sum to the total |
| Messages.SortNewestFirst | backend/app/models/message.py:158-160 | sorting by timestamp keeps exactly the same messages (a permutation) |
| Messages.SortIsNewestFirst | backend/app/models/message.py:158-160 | the sorted messages are in non-increasing timestamp order |
| Messages.RecentMessages | backend/app/models/message.py:158-160 | `get_recent_messages(limit)` returns `min(limit, n)` messages of the conversation, newest first |
| Messages.RecentMessagesAreNewest | backend/app/models/message.py:158-160 | every returned message is at least as recent as every message left out |
| Messages.SortKeepsTies | backend/app/models/message.py:158-160 | when all messages share one timestamp, the sort returns them in their input order, not reversed |
| Messages.SortIsStable | backend/app/models/message.py:158-160 | the sort is stable, as Python's `sort(reverse=True)` is: for every timestamp, the messages carrying it keep their input order, whatever lies between them (for instance a user message and its reply stamped alike after older messages) |
| Messages.RecentMessagesOfChronological | backend/app/models/message.py:158-160 | when messages were appended in time order, the result is the last `limit` messages in reverse order |
| Messages.ConversationFromDict | backend/app/models/message.py:172-185 | `Conversation.from_dict` succeeds only with valid messages and keeps their number |
| Messages.MessagesJsonRoundTrip | backend/app/models/message.py:162-185 | the message list survives writing and reading back, in count and order |
| Messages.ConversationDictRoundTrip | backend/app/models/message.py:162-185 | `Conversation.from_dict(c.to_dict()) == c` for every valid conversation |
| ChatModels.ParseChatRequest | backend/app/models/chat.py:18-35 | a request body is accepted iff `message` is a string with 1..1000 characters that is not blank and `conversation_id` is absent, null or a string; the stored message is stripped, and the id is `None` exactly when absent or null |
| ChatModels.ConversationIdDefaultsToNone | backend/app/models/chat.py:24-27 | a body without `conversation_id` yields `None` |
| ChatModels.NewChatResponse | backend/app/models/chat.py:69-73 | a response is built iff `processing_time` is absent or not negative; a negative time is a `processing_time` error |
| ChatModels.StreamChunkDefaults | backend/app/models/chat.py:101-120 | any `type` string is accepted, `content` defaults to "" and `metadata` to `None` |
| MockModel.MockReplyToEmpty | backend/app/chat/ai_models.py:102-103 | with no messages the reply is the first canned sentence, without prefixes |
| MockModel.MockReplyShape | backend/app/chat/ai_models.py:105-120 | the reply reads back as sentence `len(content) % 5`, with the greeting prefix iff the lower-cased content contains a greeting and the question prefix, outermost, iff it contains "?" or "？" |
| MockModel.GreetingMatchesInsideWords | backend/app/chat/ai_models.py:113-114 | the greeting test is a substring test, so "this" counts as a greeting |
| MockModel.StreamPieces | backend/app/chat/ai_models.py:141-149 | one piece per word, and no piece of a word is empty |
| MockModel.StreamPiecesConcat | backend/app/chat/ai_models.py:141-149 | the pieces (first bare, later ones after one space) concatenate to the words joined by single spaces |
| MockModel.MockStream | backend/app/chat/ai_models.py:122-149 | every streamed piece is non-empty and the pieces concatenate to the reply's words joined by single spaces |
| MockModel.MockReplyIsWord | backend/app/chat/ai_models.py:80-118 | every mock reply contains no whitespace and is shorter than 64 characters |
| MockModel.MockStreamIsOnePiece | backend/app/chat/ai_models.py:122-149 | the mock stream of any conversation is a single piece equal to the whole reply |
| Providers.NewRetryHandler | backend/app/chat/ai_providers.py:30-39 | a fresh handler has no errors and a counter of 0 |
| Providers.OnLlmError | backend/app/chat/ai_providers.py:41-55 | appends exactly the error's text, adds one to the counter, and pauses iff the new count is at most `max_retries`, for as many seconds as the new count |
| Providers.OnLlmErrorsSchedule | backend/app/chat/ai_providers.py:41-55 | a run of errors records them all in order, and the pauses are `current+1, current+2, ...`, one for each error until the counter passes `max_retries` |
| Providers.BackoffFromFresh | backend/app/chat/ai_providers.py:30-55 | from a fresh handler, `n` errors pause 1, 2, ... seconds, `min(n, max_retries)` times |
| Providers.ResetIsFresh | backend/app/chat/ai_providers.py:57-60 | a reset handler equals a fresh one with the same `max_retries` |
| Providers.FailureReplyDetails | backend/app/chat/ai_providers.py:137-142 | a failure reply carries details iff errors were recorded, and the details are the errors joined by ", "; otherwise it is the fixed apology followed by the hint |
| Providers.FailureReplyMentionsErrors | backend/app/chat/ai_providers.py:235-240 | every recorded error text occurs in the failure reply |
| Providers.GenerateReportsOnlyThisCall | backend/app/chat/ai_providers.py:313-340 | because the handler is reset first, the reply reports only the errors of the current call |
| Providers.DefaultModel | backend/app/chat/ai_providers.py:368-392 | the priority is Moonshot key, then OpenAI key, then an Ollama probe answering 200, then the mock model; each choice is stated as an iff |
| Providers.Instantiate | backend/app/chat/ai_models.py:15-52 | a class can be instantiated iff it defines every abstract method of the interface, otherwise `TypeError` |
| Providers.CreateDefaultModelAsWritten | backend/app/chat/ai_providers.py:359-392 | with the classes as written, any configured key makes the call raise, and otherwise the result is the mock model |
| Providers.AsWrittenMissesProviders | backend/app/chat/ai_providers.py:368-385 | a Moonshot key gives `TypeError` instead of the Moonshot model, and a 200 probe gives the mock model instead of Ollama |
| Providers.CreateDefaultModel | backend/app/chat/ai_providers.py:359-392 | once every class defines the streaming method, the result is exactly the intended priority choice |
| Workflow.ResolveConversationId | backend/app/chat/workflow.py:295 | the request's id is kept when non-empty; a missing or empty id gets the fresh one |
| Workflow.GetOrCreate | backend/app/chat/workflow.py:308-311 | an existing conversation is returned as stored, and an unknown id gets a new empty conversation with that id |
| Workflow.ProcessMessageStream | backend/app/chat/workflow.py:285-371 | the frames are `start`, `chunk`*, then one `end` or `error`, all with the same conversation id; only that id's entry of the store changes |
| Workflow.Finish | backend/app/chat/workflow.py:344-371 | the last frame keeps the conversation id and is `end` exactly when the model stream did not fail and `add_message` accepts the joined reply; `end` carries the processing time, the chunk count and the full reply, and the conversation gains the AI message; otherwise the frame is `error` (the model's exception when it failed) and the conversation keeps only the user message; a valid conversation stays valid |
| Workflow.StreamFrames | backend/app/chat/workflow.py:299-342 | `start` has empty content and status "processing"; each piece becomes one `chunk` carrying it, numbered 1..k in order; a rejected user message gives no chunks |
| Workflow.StreamEndsIff | backend/app/chat/workflow.py:344-371 | the stream ends in `end` iff the user message is accepted, the model raised nothing, and the concatenated reply is acceptable content, so an empty or blank reply ends in `error` |
| Workflow.StreamEndSummarizesChunks | backend/app/chat/workflow.py:350-361 | `end` reports `total_chunks` = the number of chunks and `full_response` = their in-order concatenation |
| Workflow.StreamReportsModelFailure | backend/app/chat/workflow.py:363-371 | a model failure gives a final `error` frame with the exception's text and class name, after the pieces already yielded |
| Workflow.StreamStoreEffect | backend/app/chat/workflow.py:313-348 | the user message is appended and kept even on error; on `end` exactly one AI message with the stripped reply follows it |
| Workflow.StreamKeepsStoreValid | backend/app/chat/workflow.py:285-371 | every stored conversation stays under its own id and holds only valid messages |
| Workflow.ProcessInputNode | backend/app/chat/workflow.py:91-117 | blank input raises `ValueError`; otherwise the id is kept when present and a fresh one is assigned when missing |
| Workflow.ManageContextNode | backend/app/chat/workflow.py:119-162 | succeeds iff the input is valid content, appends the user message to that conversation only, and hands the model the conversation's texts ending with the new message; on rejected content the conversation it got or created stays stored and nothing else changes |
| Workflow.GenerateResponseNode | backend/app/chat/workflow.py:164-200 | a model answer is passed on, and a model failure becomes the apology text |
| Workflow.FormatOutputNode | backend/app/chat/workflow.py:202-233 | answers with the reply for the same conversation, failing iff the reply is not acceptable content or the time is negative; a rejected reply changes nothing, while an acceptable one is appended as the AI message even when the negative time then fails |
| Workflow.ProcessMessageAnswersSameConversation | backend/app/chat/workflow.py:242-283 | the response is always for the request's (or the fresh) conversation; a successful run's response is returned with the measured time, while a failed run, or a call before setup, gets the apology quoting its exception with `processing_time` 0.0; the store is what the run left, and unchanged without setup |
| Workflow.ProcessMessageFailurePaths | backend/app/chat/workflow.py:91-283 | a blank message fails before anything is stored; a message `add_message` rejects leaves the conversation created; a rejected answer leaves the user message appended; a negative time leaves both messages appended; each gets the apology quoting its exception |
| Workflow.ProcessMessageSucceeds | backend/app/chat/workflow.py:242-269 | with valid input and an acceptable answer, the response is the model's answer, and the conversation gains the stripped user message and then the stripped answer |
| Workflow.ProcessMessageKeepsStoreValid | backend/app/chat/workflow.py:242-283 | on every path, failures included, only the request's conversation changes, and the store stays valid |
| Workflow.GetConversationHistory | backend/app/chat/workflow.py:385-400 | an unknown id gives []; otherwise `min(limit, n)` of that conversation's messages, newest first |
| Workflow.ClearConversation | backend/app/chat/workflow.py:402-415 | reports True iff the id was present, and removes exactly that entry |
| Workflow.ClearTwice | backend/app/chat/workflow.py:402-415 | a second clear of the same id reports False and changes nothing |
| Workflow.ClearedHasNoHistory | backend/app/chat/workflow.py:385-415 | a cleared conversation has no history |
| Sse.Lines | backend/test_stream_chat.py:43 | the client's lines contain no line feed |
| Sse.DecodeEncodeFrames | backend/app/routes/chat.py:74 | keeping the lines that start with "data: " and dropping those 6 characters recovers exactly the payloads, in order, when no payload has a line feed |
| Sse.GeneratorErrorFrame | backend/app/routes/chat.py:76-84 | the generator's error frame carries the exception text, and its conversation id is the request's when non-empty, otherwise "unknown" |
| Sse.JsonDumps | backend/app/routes/chat.py:71-73 | dumping a frame raises exactly when `model_dump()` left the `datetime` object in it (Python mode), and the exception is `TypeError` "Object of type datetime is not JSON serializable"; in JSON mode the result is the frame's JSON text |
| Sse.JsonModeWritesAllFrames | backend/app/routes/chat.py:67-84 | with frames dumped in JSON mode, no dump raises: the generator writes every frame, then the error frame when the workflow raised, and nothing escapes it |
| Sse.AsWrittenSseWritesNothing | backend/app/routes/chat.py:67-84 | as written (`model_dump()` in Python mode), the body holds no frame, and the `TypeError` of `json.dumps` escapes whenever there was a frame or an exception to report |
| Sse.ReadGeneratedBody | backend/app/routes/chat.py:67-84 | with frames dumped in JSON mode, a client reads back exactly the frames the generator sent, plus the error frame when the workflow raised |
| Sse.AccumulateChunks | backend/test_stream_chat.py:56-58 | the client's accumulated text is the in-order concatenation of the chunk contents |
| Sse.AccumulatedStreamIsReply | backend/app/chat/workflow.py:330-361 | for a stream ending in `end`, the accumulated text equals the reported `full_response` and the model's pieces concatenated |
| Sse.ConsumerSeesFullResponse | backend/test_stream_chat.py:43-58 | for any well-formed stream, sent by the JSON-mode generator through any JSON codec that reads back what it wrote, the client parsing the SSE body gets the frames unchanged, and what it accumulates is the chunk contents in order |
| Sse.MockStreamScenario | backend/app/chat/ai_models.py:122-149 | with the mock model and a valid message, the stream is `start`, one `chunk` holding the whole reply, and `end` reporting that reply |
| Routes.ChatFailure | backend/app/routes/chat.py:159-191 | `HTTPException` passes through; otherwise 400 iff a `ValueError` (with its text), 503 iff a `TimeoutError`, and 500 in every other case |
| Routes.StreamFailure | backend/app/routes/chat.py:97-104 | `HTTPException` passes through, and anything else is 500 |
| Routes.RouteBlankCheckIsDead | backend/app/routes/chat.py:54-59 | a request past validation never has a blank message, so the route's 400 branch is unreachable |
| Routes.ChatEndpoint | backend/app/routes/chat.py:107-191 | a request answered with an error (422, 400, 503 or 500) leaves the conversation store as it was |
| Routes.ChatEndpointAnswersValidBodies | backend/app/routes/chat.py:107-157 | a body gets a response iff it validates, otherwise 422, and the response is for the request's conversation |
| Routes.StreamEndpoint | backend/app/routes/chat.py:35-104 | a request answered with an error (422, 400 or 500) leaves the conversation store as it was |
| Routes.StreamEndpointCarriesFrames | backend/app/routes/chat.py:35-95 | with frames dumped in JSON mode, a body gets a stream iff it validates, otherwise 422, and the client reads the workflow's frames from it |
| Routes.AsWrittenStreamCarriesNothing | backend/app/routes/chat.py:35-95 | as written, a body gets a stream iff it validates, but a client reads no frame from it, the generator ends with `TypeError`, and the store is unchanged |
| Routes.HistoryEndpoint | backend/app/routes/chat.py:194-246 | a missing `limit` means 10, so a non-blank id without a limit always succeeds with `limit` 10; 400 iff the id is blank or the limit is outside 1..100; otherwise `message_count` equals the number of messages returned, which is at most the limit, and an unknown id has none |
| Routes.HistoryReadsBack | backend/app/routes/chat.py:194-243 | the returned message dictionaries read back into exactly the conversation's `limit` newest messages (10 when no limit is given), newest first |
| Routes.DeleteEndpoint | backend/app/routes/chat.py:260-304 | 400 for a blank id; success iff the conversation exists, otherwise 404; on success exactly that conversation is removed |
| Routes.DeleteTwiceIsNotFound | backend/app/routes/chat.py:289-304 | a second delete of the same id is a 404 that changes nothing, and the deleted conversation's history is empty |
| Routes.Preview | backend/app/routes/chat.py:342-347 | "" without messages; the whole last message when it has at most 50 characters; otherwise its first 50 characters followed by "..." |
| Routes.PreviewLosesOnlyLongTails | backend/app/routes/chat.py:342-347 | a short message is shown in full, and long messages that agree on their first 50 characters have the same preview |
| Routes.Summarize | backend/app/routes/chat.py:337-348 | a conversation's list entry has its number of messages, its creation and update times and the preview of its last message |
| Routes.ListConversations | backend/app/routes/chat.py:334-354 | one summary per stored conversation, with its message count, its times and its preview; `total_count` is the number of conversations |
| Routes.DeleteShrinksListing | backend/app/routes/chat.py:289-354 | a successful delete removes exactly that entry from the list and lowers `total_count` by one; a failed one changes nothing |
| Routes.StreamListsConversation | backend/app/routes/chat.py:318-354 | once the workflow's stream has run to its end, as with the JSON-mode generator, its conversation is listed and at most one entry was added |

## Left out

- LangGraph and LangChain:
  - the graph build/compile/`ainvoke` is modelled as the four node functions run in order (`Workflow.RunGraph`);
  - the conversion to `HumanMessage`/`AIMessage`/`SystemMessage` is modelled as the list of message texts.
- Real provider calls:
  - `ChatOpenAI`, `ChatOllama` and the Moonshot client are network calls; their outcome is an `LlmOutcome` input;
  - the Ollama probe is an optional status code;
  - `time.sleep` and the mock's 100 ms `asyncio.sleep` are not modelled; a backoff pause is returned as its length in seconds.
- Overriding `model`/`temperature` through keyword arguments in the providers' `generate_response` recreates the LLM object. It has no effect on the modelled results and is not modelled.
- `create_moonshot_model`, `create_openai_model` and `create_ollama_model` only forward constructor arguments (model name, temperature, URL), which the model does not represent.
- `get_model_info` of every model, and the `/api/chat/health` route that reports it, return static descriptions.
- The uuid, `time.time` and `datetime.utcnow` values are inputs (`Env`). `add_message` reads the clock twice, once for the message's `timestamp` (message.py:45-46) and once for `updated_at` (message.py:150); the model uses one `now` for both.
- ISO-8601 text of timestamps: timestamps are logical natural numbers.
- The `timestamp` values of route responses and of every `StreamChunk` are not modelled. The only trace of them is that a Python-mode dump of a frame holds a `datetime` (`Sse.DumpMode`).
- `processing_time` rounding to three decimals: it is an input real.
- `json.dumps`/`json.loads`: the JSON text of a frame dumped in JSON mode is opaque text produced by an `encode` parameter. It is assumed free of line feeds and invertible by `decode`. Of `json.dumps`'s failures, only the one on `datetime` values is modelled.
- The client's line splitting breaks lines at line feeds only. httpx splits the way `str.splitlines` does, so it also breaks at carriage returns and other line boundaries. `json.dumps` escapes the ASCII control characters. With `ensure_ascii=False` it leaves U+0085 (NEL), U+2028 and U+2029 raw, so a frame whose text holds one of them is split by the real client. This is not modelled.
- `str.lower()` is modelled for ASCII letters only; other characters are left unchanged.
- Whitespace is the set of characters Python's `str.isspace` accepts, written out.
- pydantic error messages: a validation failure records the field and the kind of problem only, and a 422 response carries the failing field name as its detail.
- The order of the conversation list (dictionary insertion order) is not modelled; the list is a map from id to summary.
- FastAPI plumbing is not modelled: `main.py`, middleware, CORS headers, `StreamingResponse` headers, client-IP logging, and environment reading in `config.py`.
- Concurrency: requests are modelled one at a time over an immutable store.
- The frontend is not part of this model.
- Sse.ReadGeneratedBody: states the generator with frames dumped in JSON mode, the corrected one; as written, the generator writes no frame (Sse.AsWrittenSseWritesNothing, "## Findings").
- Sse.ConsumerSeesFullResponse: states the body of the corrected, JSON-mode generator; as written, the client reads nothing (Routes.AsWrittenStreamCarriesNothing).
- Routes.StreamEndpointCarriesFrames: states the route with the corrected generator; the route as written is Routes.StreamEndpointAsWritten.
- Routes.StreamEndpointAsWritten: the store is left unchanged because the generator stops at the workflow's first frame, `start`, which comes before any store change. The model does not follow the workflow's generator frame by frame to derive this.
- Routes.StreamListsConversation: stated for the workflow's stream run to its end, which is what the JSON-mode generator consumes; as written the stream route leaves the store unchanged (`Routes.AsWrittenStreamCarriesNothing`), so a streamed conversation is not listed.
- Routes.ChatFailure: the exception classes treated as `ValueError` are a fixed list of its common subclasses, not Python's full class hierarchy.

## Findings

| source | as written | input that shows it | evidently intended | confidence | as-written member | corrected member |
|---|---|---|---|---|---|---|
| backend/app/chat/ai_providers.py:359-392 | `OpenAIModel`, `OllamaModel` and `MoonshotModel` do not define the abstract `generate_response_stream` of `AIModelInterface` (backend/app/chat/ai_models.py:38-52), so creating any of them raises `TypeError`. A configured Moonshot or OpenAI key makes `create_default_model` raise. An Ollama probe answering 200 falls into the `except` and yields the mock model | `MOONSHOT_API_KEY="sk-moonshot"` raises `TypeError`; no keys and Ollama answering 200 gives `MockAIModel` | Moonshot key, then OpenAI key, then Ollama answering 200, then the mock model, with every model able to stream (backend/test_streaming_models.py:38-51) | high; not executed | Providers.CreateDefaultModelAsWritten, Providers.AsWrittenMissesProviders | Providers.CreateDefaultModel, Providers.DefaultModel |
| backend/app/routes/chat.py:67-84 | `generate_sse` writes `json.dumps(chunk.model_dump(), ensure_ascii=False)`. Pydantic 2's `model_dump()` keeps the `timestamp` field a `datetime` (backend/app/models/chat.py:113-116), since the `json_encoders` setting applies only in JSON mode. `json.dumps` raises `TypeError` on it, and the `except` branch dumps its error frame the same way | any valid body, e.g. `{"message": "hi"}`: the `start` frame raises `TypeError`, the error frame raises again, the exception escapes, and the body ends before its first frame | every frame written as JSON text, e.g. through `model_dump(mode="json")`, so that the client of backend/test_stream_chat.py:43-58 reads the workflow's frames | high; not executed | Sse.GenerateSseAsWritten, Sse.AsWrittenSseWritesNothing, Routes.StreamEndpointAsWritten, Routes.AsWrittenStreamCarriesNothing | Sse.GenerateSse, Sse.JsonModeWritesAllFrames, Routes.StreamEndpoint, Routes.StreamEndpointCarriesFrames |
