/** The FastAPI routes of `app/routes/chat.py` over the in-memory store of
    the workflow: `POST /api/chat/`, `POST /api/chat/stream`, `GET` and
    `DELETE /api/chat/history/{id}` and `GET /api/chat/conversations`. A
    request body is a JSON object (`Dict`); a response is either a body or an
    `HttpError` with a status code and a `detail`. The per-response
    `timestamp` fields and logging are not modelled. */
module Routes {
  import opened Wrappers
  import opened Text
  import opened Dicts
  import opened Validation
  import opened Messages
  import opened ChatModels
  import opened Workflow
  import opened Sse

  /** `HTTPException(status_code, detail)`. */
  datatype HttpError = HttpError(status: int, detail: string)

  /** What escaped the code a handler called: an `HTTPException` it raised
      itself, or any other exception. */
  datatype Escaped = Http(error: HttpError) | Other(raised: Raised)

  /** FastAPI's answer to a request body that does not validate against the
      route's pydantic model. */
  const UnprocessableEntity: int := 422

  const EmptyMessage: string := "Message cannot be empty"
  const EmptyConversationId: string := "Conversation ID cannot be empty"
  const BadLimit: string := "Limit must be between 1 and 100"
  const ChatFailed: string := "Internal server error - Unable to process chat request"
  const StreamFailed: string := "Internal server error - Unable to process streaming chat request"
  const ChatTimedOut: string := "Request timeout - AI service is temporarily unavailable"
  const ValidationDetailPrefix: string := "Validation error: "
  const HistoryLimitMax: int := 100
  const HistoryDefaultLimit: int := 10

  /** Exception classes that are `ValueError` or one of its subclasses
      (pydantic's `ValidationError` among them). */
  const ValueErrorKinds: set<string> :=
    {"ValueError", "ValidationError", "UnicodeError", "UnicodeDecodeError", "UnicodeEncodeError", "JSONDecodeError"}

  predicate IsValueError(kind: string) {
    kind in ValueErrorKinds
  }

  /** The `except` clauses of the `chat` route: an `HTTPException` passes
      through, a `ValueError` becomes 400 with its text, a `TimeoutError` 503,
      anything else 500. */
  function ChatFailure(x: Escaped): (r: HttpError)
    ensures x.Http? ==> r == x.error
    ensures x.Other? ==> (r.status == 400 <==> IsValueError(x.raised.kind))
    ensures x.Other? ==> (r.status == 503 <==> x.raised.kind == "TimeoutError")
    ensures x.Other? ==> r.status in {400, 500, 503}
    ensures x.Other? && r.status == 400 ==> r.detail == ValidationDetailPrefix + x.raised.message
  {
    match x
    case Http(e) => e
    case Other(e) =>
      if IsValueError(e.kind) then HttpError(400, ValidationDetailPrefix + e.message)
      else if e.kind == "TimeoutError" then HttpError(503, ChatTimedOut)
      else HttpError(500, ChatFailed)
  }

  /** The `except` clauses of the streaming route: an `HTTPException` passes
      through, anything else becomes 500. */
  function StreamFailure(x: Escaped): (r: HttpError)
    ensures x.Http? ==> r == x.error
    ensures x.Other? ==> r == HttpError(500, StreamFailed)
  {
    match x
    case Http(e) => e
    case Other(_) => HttpError(500, StreamFailed)
  }

  /** The route's own check `not message or not message.strip()`. */
  predicate MessageMissing(message: string) {
    IsBlank(message)
  }

  /** The route's emptiness check can never fire: a request that got past
      `ChatRequest` validation has a non-blank message, so an empty or blank
      message is answered 422 by validation and never 400 by the route. */
  lemma RouteBlankCheckIsDead(body: Dict)
    ensures ParseChatRequest(body).Success? ==> !MessageMissing(ParseChatRequest(body).value.message)
  {
    var r := ParseChatRequest(body);
    if r.Success? {
      assert r.value.message != [] && !IsSpace(r.value.message[0]);
    }
  }

  /** `POST /api/chat/`: validate the body, check the message, then run
      `process_message`. Returns the response or the error, and the store after. */
  function ChatEndpoint(store: Store, body: Dict, env: Env, initialized: bool,
                        model: seq<string> -> ModelReply): (r: (Result<ChatResponse, HttpError>, Store))
    ensures r.0.Failure? ==> r.1 == store
  {
    match ParseChatRequest(body)
    case Failure(e) => (Failure(HttpError(UnprocessableEntity, e.field)), store)
    case Success(req) =>
      if MessageMissing(req.message) then (Failure(ChatFailure(Http(HttpError(400, EmptyMessage)))), store)
      else
        var (response, after) := ProcessMessage(store, req, env, initialized, model);
        (Success(response), after)
  }

  /** The chat route answers exactly the bodies that validate; a valid body
      always gets a response for its conversation, because `process_message`
      turns every failure into an apology response. */
  lemma ChatEndpointAnswersValidBodies(store: Store, body: Dict, env: Env, initialized: bool,
                                       model: seq<string> -> ModelReply)
    ensures var (r, _) := ChatEndpoint(store, body, env, initialized, model);
            && (r.Success? <==> ParseChatRequest(body).Success?)
            && (r.Failure? ==> r.error.status == UnprocessableEntity)
            && (r.Success? ==> r.value.conversationId == ResolveConversationId(ParseChatRequest(body).value, env))
  {
    RouteBlankCheckIsDead(body);
    if ParseChatRequest(body).Success? {
      ProcessMessageAnswersSameConversation(store, ParseChatRequest(body).value, env, initialized, model);
    }
  }

  /** `POST /api/chat/stream`, with each frame dumped in JSON mode: validate
      the body, check the message, and answer with the SSE body of the
      workflow's frames. Returns the body or the error, and the store after
      the stream was consumed. */
  function StreamEndpoint(store: Store, body: Dict, env: Env, model: seq<string> -> ModelStream,
                          encode: StreamChunk -> string): (r: (Result<string, HttpError>, Store))
    ensures r.0.Failure? ==> r.1 == store
  {
    match ParseChatRequest(body)
    case Failure(e) => (Failure(HttpError(UnprocessableEntity, e.field)), store)
    case Success(req) =>
      if MessageMissing(req.message) then (Failure(StreamFailure(Http(HttpError(400, EmptyMessage)))), store)
      else
        var run := ProcessMessageStream(store, req, env, model);
        (Success(GenerateSse(req, run.frames, None, encode)), run.store)
  }

  /** Every valid body gets a stream, and a consumer reading it sees exactly
      the frames of `process_message_stream`. */
  lemma StreamEndpointCarriesFrames(store: Store, body: Dict, env: Env, model: seq<string> -> ModelStream,
                                    encode: StreamChunk -> string, decode: string -> Option<StreamChunk>)
    requires Readable(encode, decode)
    ensures var (r, after) := StreamEndpoint(store, body, env, model, encode);
            && (r.Success? <==> ParseChatRequest(body).Success?)
            && (r.Failure? ==> r.error.status == UnprocessableEntity)
            && (r.Success? ==>
                  var run := ProcessMessageStream(store, ParseChatRequest(body).value, env, model);
                  ReadBody(r.value, decode) == run.frames && after == run.store)
  {
    RouteBlankCheckIsDead(body);
    if ParseChatRequest(body).Success? {
      var req := ParseChatRequest(body).value;
      ReadGeneratedBody(req, ProcessMessageStream(store, req, env, model).frames, None, encode, decode);
    }
  }

  /** `POST /api/chat/stream` as written: the response starts, and the
      generator writes what `GenerateSseAsWritten` writes. It stops at the
      first frame, `start`, which the workflow yields before it touches the
      store, and the workflow is not resumed after it, so the store stays as
      it was. */
  function StreamEndpointAsWritten(store: Store, body: Dict, env: Env, model: seq<string> -> ModelStream,
                                   encode: StreamChunk -> string): (r: (Result<SseOutcome, HttpError>, Store))
  {
    match ParseChatRequest(body)
    case Failure(e) => (Failure(HttpError(UnprocessableEntity, e.field)), store)
    case Success(req) =>
      if MessageMissing(req.message) then (Failure(StreamFailure(Http(HttpError(400, EmptyMessage)))), store)
      else
        var run := ProcessMessageStream(store, req, env, model);
        (Success(GenerateSseAsWritten(req, run.frames, None, encode)), store)
  }

  /** As written, every valid body gets a response from which a client reads
      no frame, the generator ends with the `TypeError` of `json.dumps`, and
      nothing is stored. */
  lemma AsWrittenStreamCarriesNothing(store: Store, body: Dict, env: Env, model: seq<string> -> ModelStream,
                                      encode: StreamChunk -> string, decode: string -> Option<StreamChunk>)
    ensures var (r, after) := StreamEndpointAsWritten(store, body, env, model, encode);
            && (r.Success? <==> ParseChatRequest(body).Success?)
            && (r.Failure? ==> r.error.status == UnprocessableEntity)
            && (r.Success? ==> ReadBody(r.value.body, decode) == [] && r.value.escaped == Some(NotSerializable))
            && after == store
  {
    RouteBlankCheckIsDead(body);
    if ParseChatRequest(body).Success? {
      var req := ParseChatRequest(body).value;
      AsWrittenSseWritesNothing(req, ProcessMessageStream(store, req, env, model).frames, None, encode, decode);
    }
  }

  /** The `limit` query parameter as the route sees it: the client's value,
      or 10 when the query leaves it out. */
  function QueryLimit(limit: Option<int>): int {
    limit.GetOr(HistoryDefaultLimit)
  }

  /** `GET /api/chat/history/{id}?limit=`: 400 for a blank id or a limit
      outside 1..100, where a missing limit means 10; otherwise the `limit`
      most recent messages, newest first, as dictionaries, with their count. */
  function HistoryEndpoint(store: Store, id: string, limit: Option<int>): (r: Result<Dict, HttpError>)
    ensures r.Success? <==> !IsBlank(id) && 1 <= QueryLimit(limit) <= HistoryLimitMax
    ensures IsBlank(id) ==> r == Failure(HttpError(400, EmptyConversationId))
    ensures !IsBlank(id) && r.Failure? ==> r == Failure(HttpError(400, BadLimit))
    ensures r.Success? ==>
              && r.value.Keys == {"conversation_id", "messages", "message_count", "limit"}
              && r.value["conversation_id"] == JStr(id)
              && r.value["limit"] == JInt(QueryLimit(limit))
              && r.value["messages"].JArr?
              && r.value["message_count"] == JInt(|r.value["messages"].items|)
              && |r.value["messages"].items| <= QueryLimit(limit)
              && (id !in store ==> r.value["messages"].items == [])
    ensures limit.None? && !IsBlank(id) ==> r.Success? && r.value["limit"] == JInt(10)
  {
    var n := QueryLimit(limit);
    if IsBlank(id) then Failure(HttpError(400, EmptyConversationId))
    else if n < 1 || n > HistoryLimitMax then Failure(HttpError(400, BadLimit))
    else
      var messages := GetConversationHistory(store, id, n);
      Success(map[
        "conversation_id" := JStr(id),
        "messages" := JArr(MessagesToJson(messages)),
        "message_count" := JInt(|messages|),
        "limit" := JInt(n)
      ])
  }

  /** The history a client receives reads back, message by message, into
      exactly the conversation's `limit` newest messages (10 when the query
      has none), newest first. */
  lemma HistoryReadsBack(store: Store, id: string, limit: Option<int>, freshId: nat -> string, now: nat)
    requires ValidStore(store)
    requires !IsBlank(id) && 1 <= QueryLimit(limit) <= HistoryLimitMax
    ensures var n := QueryLimit(limit);
            var r := HistoryEndpoint(store, id, limit);
            var recent := GetConversationHistory(store, id, n);
            && r.Success?
            && MessagesFromJson(r.value["messages"].items, freshId, 0, now) == Success(recent)
            && NewestFirst(recent)
            && (id in store ==> |recent| == if n <= |store[id].messages| then n else |store[id].messages|)
  {
    var recent := GetConversationHistory(store, id, QueryLimit(limit));
    assert HistoryEndpoint(store, id, limit).value["messages"].items == MessagesToJson(recent);
    forall i | 0 <= i < |recent| ensures ValidMessage(recent[i]) {
      assert recent[i] in multiset(recent);
      assert recent[i] in store[id].messages;
    }
    MessagesJsonRoundTrip(recent, freshId, 0, now);
  }

  /** `DELETE /api/chat/history/{id}`: 400 for a blank id, 404 when there is
      no such conversation, otherwise remove it and report success. Returns
      the answer and the store after. */
  function DeleteEndpoint(store: Store, id: string): (r: (Result<Dict, HttpError>, Store))
    ensures r.0.Success? <==> !IsBlank(id) && id in store
    ensures IsBlank(id) ==> r == (Failure(HttpError(400, EmptyConversationId)), store)
    ensures !IsBlank(id) && id !in store ==> r.0.Failure? && r.0.error.status == 404 && r.1 == store
    ensures r.0.Success? ==> && "status" in r.0.value && r.0.value["status"] == JStr("success")
                             && "conversation_id" in r.0.value && r.0.value["conversation_id"] == JStr(id)
    ensures r.1.Keys == if r.0.Success? then store.Keys - {id} else store.Keys
    ensures forall k :: k in r.1 ==> r.1[k] == store[k]
  {
    if IsBlank(id) then (Failure(HttpError(400, EmptyConversationId)), store)
    else
      var (after, found) := ClearConversation(store, id);
      if found then
        (Success(map[
           "status" := JStr("success"),
           "message" := JStr("Conversation " + id + " cleared successfully"),
           "conversation_id" := JStr(id)
         ]), after)
      else
        assert after == store;
        (Failure(HttpError(404, "Conversation " + id + " not found")), store)
  }

  /** Deleting is not repeatable: the second delete of the same id is a 404
      and changes nothing, and the history of a deleted conversation is empty. */
  lemma DeleteTwiceIsNotFound(store: Store, id: string, limit: Option<int>)
    requires !IsBlank(id) && id in store && 1 <= QueryLimit(limit) <= HistoryLimitMax
    ensures var (_, once) := DeleteEndpoint(store, id);
            var (second, twice) := DeleteEndpoint(once, id);
            && second.Failure? && second.error.status == 404 && twice == once
            && HistoryEndpoint(once, id, limit).value["messages"].items == []
  {
  }

  // ---------------------------------------------------------------------------
  // Conversation list

  const PreviewLength: nat := 50
  const Ellipsis: string := "..."

  /** `last_message_preview`: the last message's content, cut to its first 50
      characters followed by "..." when longer; "" for a conversation without
      messages. */
  function Preview(c: Conversation): (r: string)
    ensures c.messages == [] ==> r == ""
    ensures |r| <= PreviewLength + |Ellipsis|
    ensures c.messages != [] ==>
              var content := LastMessage(c).content;
              && StartsWith(r, content[..if |content| <= PreviewLength then |content| else PreviewLength])
              && (|content| <= PreviewLength ==> r == content)
              && (|content| > PreviewLength ==> |r| == PreviewLength + |Ellipsis| && r[PreviewLength..] == Ellipsis)
  {
    if c.messages == [] then ""
    else
      var content := LastMessage(c).content;
      if |content| > PreviewLength then content[..PreviewLength] + Ellipsis else content
  }

  /** A preview identifies the message exactly when it is short: a message
      of at most 50 characters is shown in full, and two messages that agree
      on their first 50 characters and are both longer than 50 characters
      look the same in the list. */
  lemma PreviewLosesOnlyLongTails(c: Conversation, d: Conversation)
    requires c.messages != [] && d.messages != []
    ensures |LastMessage(c).content| <= PreviewLength ==> Preview(c) == LastMessage(c).content
    ensures |LastMessage(c).content| > PreviewLength && |LastMessage(d).content| > PreviewLength
            && LastMessage(c).content[..PreviewLength] == LastMessage(d).content[..PreviewLength]
            ==> Preview(c) == Preview(d)
  {
  }

  /** One entry of the conversation list. */
  datatype Summary = Summary(messageCount: nat, createdAt: nat, updatedAt: nat, lastMessagePreview: string)

  function Summarize(c: Conversation): (s: Summary)
    ensures s.messageCount == |c.messages| && s.createdAt == c.createdAt && s.updatedAt == c.updatedAt
    ensures s.lastMessagePreview == Preview(c)
  {
    Summary(|c.messages|, c.createdAt, c.updatedAt, Preview(c))
  }

  /** `GET /api/chat/conversations`: one summary per stored conversation, by
      id, and `total_count`. The list order (the dict's insertion order) is
      not modelled. */
  datatype Listing = Listing(conversations: map<string, Summary>, totalCount: nat)

  function ListConversations(store: Store): (r: Listing)
    ensures r.conversations.Keys == store.Keys
    ensures r.totalCount == |store|
    ensures forall id :: id in store ==> r.conversations[id] == Summarize(store[id])
  {
    Listing(map id | id in store :: Summarize(store[id]), |store|)
  }

  /** A successful delete removes exactly that conversation from the list
      and lowers `total_count` by one; a failed one changes nothing. */
  lemma DeleteShrinksListing(store: Store, id: string)
    ensures var (r, after) := DeleteEndpoint(store, id);
            var before := ListConversations(store);
            var now := ListConversations(after);
            && (r.Success? ==> now.totalCount == before.totalCount - 1 && id !in now.conversations
                               && forall k :: k in now.conversations ==> now.conversations[k] == before.conversations[k])
            && (r.Failure? ==> now == before)
  {
    var (r, after) := DeleteEndpoint(store, id);
    if r.Success? {
      assert after.Keys == store.Keys - {id};
      assert |after.Keys| == |store.Keys| - 1;
    } else {
      assert after == store;
    }
  }

  /** Once the workflow's stream has run to its end, as with the JSON-mode
      generator of `StreamEndpoint`, the request's conversation is listed and
      at most that one conversation was added to the list. */
  lemma StreamListsConversation(store: Store, req: ChatRequest, env: Env, model: seq<string> -> ModelStream)
    ensures var after := ProcessMessageStream(store, req, env, model).store;
            var id := ResolveConversationId(req, env);
            && id in ListConversations(after).conversations
            && ListConversations(after).conversations.Keys == store.Keys + {id}
            && ListConversations(after).totalCount <= ListConversations(store).totalCount + 1
  {
    var after := ProcessMessageStream(store, req, env, model).store;
    var id := ResolveConversationId(req, env);
    assert after.Keys == store.Keys + {id};
    assert |store.Keys + {id}| <= |store.Keys| + 1;
  }
}
