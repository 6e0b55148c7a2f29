/** `ChatWorkflow` of `app/chat/workflow.py`: the in-memory conversation
    store, the streaming pipeline `process_message_stream`, the four nodes of
    the non-streaming pipeline and `process_message` around them, and the
    history and clear operations.

    Everything the Python code draws from the outside world during one request
    (the fresh uuid, `datetime.utcnow()`, the elapsed time, the text of a
    pydantic error) is an `Env` value, and the AI model is a function from the
    conversation's message texts to what it produced. */
module Workflow {
  import opened Wrappers
  import opened Text
  import opened Dicts
  import opened Validation
  import opened Messages
  import opened ChatModels

  /** `self.conversations`: conversation id to conversation. */
  type Store = map<string, Conversation>

  /** Every stored conversation is filed under its own id and holds only
      validated messages. */
  predicate ValidStore(s: Store) {
    forall id :: id in s ==> s[id].id == id && ValidConversation(s[id])
  }

  /** The outside world during one request. */
  datatype Env = Env(
    freshConversationId: DefaultId, // `f"conv_{uuid.uuid4().hex[:12]}"`
    userMessageId: string,        // the user message's `uuid4()`
    aiMessageId: string,          // the AI message's `uuid4()`
    openedAt: nat,                // `utcnow()` when a conversation is created
    userAt: nat,                  // `utcnow()` when the user message is created
    aiAt: nat,                    // `utcnow()` when the AI message and the response are created
    processingTime: real,         // `round(time.time() - start, 3)`
    validationText: string)       // `str(e)` of a pydantic `ValidationError`

  /** An exception: its class name and `str(e)`. */
  datatype Raised = Raised(kind: string, message: string)

  /** The exception `add_message` raises for rejected content. */
  function ValidationFailure(env: Env): Raised {
    Raised("ValidationError", env.validationText)
  }

  /** `request.conversation_id or f"conv_..."`: an absent or empty id is
      replaced by the fresh one. */
  function ResolveConversationId(req: ChatRequest, env: Env): (id: string)
    ensures req.conversationId.Some? && req.conversationId.value != "" ==> id == req.conversationId.value
    ensures req.conversationId.None? || req.conversationId.value == "" ==> id == env.freshConversationId
    ensures id != ""
  {
    if req.conversationId.Some? && req.conversationId.value != "" then req.conversationId.value
    else env.freshConversationId
  }

  /** The stored conversation, or a new empty one created at `now`. */
  function GetOrCreate(store: Store, id: string, now: nat): (c: Conversation)
    ensures id in store ==> c == store[id]
    ensures id !in store ==> c == NewConversation(id, now)
    ensures ValidStore(store) ==> c.id == id && ValidConversation(c)
  {
    if id in store then store[id] else NewConversation(id, now)
  }

  /** The message texts handed to the model, in conversation order. */
  function Contents(ms: seq<Message>): (texts: seq<string>)
    ensures |texts| == |ms|
    ensures forall i :: 0 <= i < |ms| ==> texts[i] == ms[i].content
  {
    seq(|ms|, i requires 0 <= i < |ms| => ms[i].content)
  }

  /** A sequence one longer than `before` that starts with `before` is
      `before` plus its last message, and so are its contents. */
  lemma AppendOne(before: seq<Message>, after: seq<Message>)
    requires |after| == |before| + 1 && after[..|before|] == before
    ensures after == before + [after[|before|]]
    ensures Contents(after) == Contents(before) + [after[|before|].content]
  {
    assert after == after[..|before|] + [after[|before|]];
  }

  /** Storing a valid conversation under its own id keeps the store valid. */
  lemma PutKeepsValid(store: Store, id: string, c: Conversation)
    ensures ValidStore(store) && ValidConversation(c) && c.id == id ==> ValidStore(store[id := c])
  {
  }

  // ---------------------------------------------------------------------------
  // Streaming

  /** What the model's `generate_response_stream` produced: the pieces it
      yielded, then possibly the exception it raised. */
  datatype ModelStream = ModelStream(pieces: seq<string>, failure: Option<Raised>)

  function StartFrame(id: string): StreamChunk {
    NewStreamChunk("start", id, "", Some(map["status" := JStr("processing")]))
  }

  function ChunkFrame(id: string, piece: string, index: nat): StreamChunk {
    NewStreamChunk("chunk", id, piece, Some(map["chunk_index" := JInt(index)]))
  }

  function EndMetadata(processingTime: real, totalChunks: nat, fullResponse: string): Dict {
    map[
      "processing_time" := JNum(processingTime),
      "total_chunks" := JInt(totalChunks),
      "full_response" := JStr(fullResponse)
    ]
  }

  function EndFrame(id: string, processingTime: real, totalChunks: nat, fullResponse: string): StreamChunk {
    NewStreamChunk("end", id, "", Some(EndMetadata(processingTime, totalChunks, fullResponse)))
  }

  function ErrorFrame(id: string, e: Raised): StreamChunk {
    NewStreamChunk("error", id, e.message, Some(map["error_type" := JStr(e.kind)]))
  }

  /** One `chunk` frame per piece, numbered from 1. */
  function ChunkFrames(id: string, pieces: seq<string>): (frames: seq<StreamChunk>)
    ensures |frames| == |pieces|
    ensures forall i :: 0 <= i < |pieces| ==> frames[i] == ChunkFrame(id, pieces[i], i + 1)
  {
    seq(|pieces|, i requires 0 <= i < |pieces| => ChunkFrame(id, pieces[i], i + 1))
  }

  /** The result of one streamed request: the frames yielded and the store after. */
  datatype StreamRun = StreamRun(frames: seq<StreamChunk>, store: Store)

  /** The frame grammar: `start`, then `chunk` frames, then exactly one
      terminal frame, `end` or `error`. */
  predicate WellFormedStream(frames: seq<StreamChunk>) {
    && |frames| >= 2
    && frames[0].kind == "start"
    && (forall i :: 0 < i < |frames| - 1 ==> frames[i].kind == "chunk")
    && (frames[|frames| - 1].kind == "end" || frames[|frames| - 1].kind == "error")
  }

  /** The contents of the `chunk` frames of a well-formed stream, in order. */
  function ChunkTexts(frames: seq<StreamChunk>): (texts: seq<string>)
    requires |frames| >= 2
    ensures |texts| == |frames| - 2
    ensures forall i :: 0 <= i < |texts| ==> texts[i] == frames[i + 1].content
  {
    seq(|frames| - 2, i requires 0 <= i < |frames| - 2 => frames[i + 1].content)
  }

  /** The frames of a stream whose model yielded `pieces`: `start`, one
      `chunk` per piece, then `terminal`. */
  function Frames(id: string, pieces: seq<string>, terminal: StreamChunk): (frames: seq<StreamChunk>)
    ensures |frames| == |pieces| + 2
    ensures frames[0] == StartFrame(id)
    ensures frames[|frames| - 1] == terminal
    ensures forall i :: 0 < i < |frames| - 1 ==> frames[i] == ChunkFrame(id, pieces[i - 1], i)
  {
    [StartFrame(id)] + ChunkFrames(id, pieces) + [terminal]
  }

  /** Such frames follow the grammar, all carry the conversation id, and their
      chunk contents are the pieces. */
  lemma FramesShape(id: string, pieces: seq<string>, terminal: StreamChunk)
    requires terminal.conversationId == id
    requires terminal.kind == "end" || terminal.kind == "error"
    ensures var frames := Frames(id, pieces, terminal);
            && WellFormedStream(frames)
            && (forall i :: 0 <= i < |frames| ==> frames[i].conversationId == id)
            && ChunkTexts(frames) == pieces
  {
    var frames := Frames(id, pieces, terminal);
    assert forall i :: 0 < i < |frames| - 1 ==> frames[i].kind == "chunk";
  }

  /** The reply is accepted as the AI message's content. */
  predicate ReplyAccepted(full: string) {
    1 <= |full| <= MaxContentLength && !IsBlank(full)
  }

  /** After the model's stream: the terminal frame, and the conversation to
      keep. A model failure or a rejected reply gives an `error` frame and
      keeps the conversation with the user message only. */
  function Finish(id: string, withUser: Conversation, out: ModelStream, env: Env): (r: (StreamChunk, Conversation))
    ensures r.0.conversationId == id
    ensures r.0.kind == "end" || r.0.kind == "error"
    ensures r.0.kind == "end" <==> out.failure.None? && ReplyAccepted(Concat(out.pieces))
    ensures r.1.id == withUser.id
    ensures r.0.kind == "error" ==> r.1 == withUser
    ensures r.0.kind == "end" ==>
              && r.0 == EndFrame(id, env.processingTime, |out.pieces|, Concat(out.pieces))
              && r.1 == AddMessage(withUser, env.aiMessageId, Concat(out.pieces), Ai, None, env.aiAt).value
    ensures out.failure.Some? ==> r.0 == ErrorFrame(id, out.failure.value)
    ensures ValidConversation(withUser) ==> ValidConversation(r.1)
  {
    if out.failure.Some? then (ErrorFrame(id, out.failure.value), withUser)
    else
      var full := Concat(out.pieces);
      match AddMessage(withUser, env.aiMessageId, full, Ai, None, env.aiAt)
      case Failure(_) => (ErrorFrame(id, ValidationFailure(env)), withUser)
      case Success(withReply) => (EndFrame(id, env.processingTime, |out.pieces|, full), withReply)
  }

  /** A finished stream: its frames for `pieces` and `terminal`, and the
      store with the conversation `kept` under `id`. */
  function Run(store: Store, id: string, pieces: seq<string>, terminal: StreamChunk, kept: Conversation)
    : (r: StreamRun)
    requires terminal.conversationId == id
    requires terminal.kind == "end" || terminal.kind == "error"
    ensures WellFormedStream(r.frames)
    ensures forall i :: 0 <= i < |r.frames| ==> r.frames[i].conversationId == id
    ensures id in r.store && r.store == store[id := r.store[id]]
  {
    FramesShape(id, pieces, terminal);
    StreamRun(Frames(id, pieces, terminal), store[id := kept])
  }

  /** `process_message_stream(request)`: yield `start`; get or create the
      conversation and append the user message; yield one `chunk` per piece of
      the model's stream; append the concatenated reply as the AI message and
      yield `end`. Any exception on the way is turned into a final `error`
      frame, and what was already stored stays stored. */
  function ProcessMessageStream(store: Store, req: ChatRequest, env: Env, model: seq<string> -> ModelStream)
    : (r: StreamRun)
    ensures WellFormedStream(r.frames)
    ensures forall i :: 0 <= i < |r.frames| ==> r.frames[i].conversationId == ResolveConversationId(req, env)
    ensures var id := ResolveConversationId(req, env);
            id in r.store && r.store == store[id := r.store[id]]
  {
    var id := ResolveConversationId(req, env);
    var conversation := GetOrCreate(store, id, env.openedAt);
    match AddMessage(conversation, env.userMessageId, req.message, User, None, env.userAt)
    case Failure(_) => Run(store, id, [], ErrorFrame(id, ValidationFailure(env)), conversation)
    case Success(withUser) =>
      var out := model(Contents(withUser.messages));
      var fin := Finish(id, withUser, out, env);
      Run(store, id, out.pieces, fin.0, fin.1)
  }

  /** The texts the model sees in a streamed request: the conversation so far
      followed by the new (stripped) user message. */
  function StreamHistory(store: Store, req: ChatRequest, env: Env): seq<string> {
    var id := ResolveConversationId(req, env);
    Contents(GetOrCreate(store, id, env.openedAt).messages) + [Strip(req.message)]
  }

  /** The user message is accepted exactly when the request's message is
      valid message content. */
  predicate UserAccepted(req: ChatRequest) {
    1 <= |req.message| <= MaxContentLength && !IsBlank(req.message)
  }

  /** The conversation after the user message was appended. */
  function WithUser(store: Store, req: ChatRequest, env: Env): (c: Conversation)
    requires UserAccepted(req)
    ensures var before := GetOrCreate(store, ResolveConversationId(req, env), env.openedAt);
            && c.id == before.id
            && c.messages != [] && c.messages == before.messages + [LastMessage(c)]
            && LastMessage(c).content == Strip(req.message) && LastMessage(c).msgType == User
            && Contents(c.messages) == StreamHistory(store, req, env)
            && (ValidConversation(before) ==> ValidConversation(c))
  {
    var id := ResolveConversationId(req, env);
    var before := GetOrCreate(store, id, env.openedAt);
    var c := AddMessage(before, env.userMessageId, req.message, User, None, env.userAt).value;
    assert c.messages == c.messages[..|before.messages|] + [LastMessage(c)];
    assert Contents(c.messages) == Contents(before.messages) + [Strip(req.message)];
    c
  }

  /** How a stream with an accepted user message is built. */
  lemma StreamUnfold(store: Store, req: ChatRequest, env: Env, model: seq<string> -> ModelStream)
    requires UserAccepted(req)
    ensures var id := ResolveConversationId(req, env);
            var withUser := WithUser(store, req, env);
            var out := model(StreamHistory(store, req, env));
            var fin := Finish(id, withUser, out, env);
            ProcessMessageStream(store, req, env, model) == StreamRun(Frames(id, out.pieces, fin.0), store[id := fin.1])
  {
  }

  /** The first frame is `start` with empty content and status "processing";
      each piece of the model's stream, which was given the conversation's texts
      ending in the new message, becomes one `chunk` frame carrying it,
      numbered 1, 2, ... in order. */
  lemma StreamFrames(store: Store, req: ChatRequest, env: Env, model: seq<string> -> ModelStream)
    ensures var r := ProcessMessageStream(store, req, env, model);
            && r.frames[0].content == ""
            && r.frames[0].metadata == Some(map["status" := JStr("processing")])
            && (UserAccepted(req) ==> ChunkTexts(r.frames) == model(StreamHistory(store, req, env)).pieces)
            && (!UserAccepted(req) ==> |r.frames| == 2)
            && (forall i :: 0 < i < |r.frames| - 1 ==> r.frames[i].metadata == Some(map["chunk_index" := JInt(i)]))
  {
    var id := ResolveConversationId(req, env);
    if UserAccepted(req) {
      StreamUnfold(store, req, env, model);
      var out := model(StreamHistory(store, req, env));
      var fin := Finish(id, WithUser(store, req, env), out, env);
      FramesShape(id, out.pieces, fin.0);
    }
  }

  /** The stream ends with `end` exactly when the user message was accepted,
      the model raised nothing, and the concatenated reply is acceptable
      message content; in particular an empty or blank reply ends in `error`. */
  lemma StreamEndsIff(store: Store, req: ChatRequest, env: Env, model: seq<string> -> ModelStream)
    ensures var r := ProcessMessageStream(store, req, env, model);
            var out := model(StreamHistory(store, req, env));
            (r.frames[|r.frames| - 1].kind == "end")
              <==> (UserAccepted(req) && out.failure.None? && ReplyAccepted(Concat(out.pieces)))
  {
    if UserAccepted(req) {
      StreamUnfold(store, req, env, model);
    }
  }

  /** An `end` frame reports the number of chunks and the in-order
      concatenation of their contents. */
  lemma StreamEndSummarizesChunks(store: Store, req: ChatRequest, env: Env, model: seq<string> -> ModelStream)
    ensures var r := ProcessMessageStream(store, req, env, model);
            var last := r.frames[|r.frames| - 1];
            last.kind == "end" ==>
              last.metadata == Some(EndMetadata(env.processingTime, |r.frames| - 2, Concat(ChunkTexts(r.frames))))
  {
    if UserAccepted(req) {
      var id := ResolveConversationId(req, env);
      var out := model(StreamHistory(store, req, env));
      var fin := Finish(id, WithUser(store, req, env), out, env);
      StreamUnfold(store, req, env, model);
      FramesShape(id, out.pieces, fin.0);
    } else {
      StreamEndsIff(store, req, env, model);
    }
  }

  /** After a model failure the last frame is an `error` frame carrying the
      exception's text and class name, right after the pieces yielded so far. */
  lemma StreamReportsModelFailure(store: Store, req: ChatRequest, env: Env, model: seq<string> -> ModelStream)
    requires UserAccepted(req)
    requires model(StreamHistory(store, req, env)).failure.Some?
    ensures var r := ProcessMessageStream(store, req, env, model);
            var out := model(StreamHistory(store, req, env));
            && r.frames[|r.frames| - 1] == ErrorFrame(ResolveConversationId(req, env), out.failure.value)
            && |r.frames| == |out.pieces| + 2
  {
    StreamUnfold(store, req, env, model);
  }

  /** The stored conversation after a stream: the earlier messages, then the
      user message (kept even when the stream fails later), then the AI
      message holding the stripped reply exactly when the stream ended with
      `end`. */
  lemma StreamStoreEffect(store: Store, req: ChatRequest, env: Env, model: seq<string> -> ModelStream)
    ensures var r := ProcessMessageStream(store, req, env, model);
            var id := ResolveConversationId(req, env);
            var before := GetOrCreate(store, id, env.openedAt).messages;
            var after := r.store[id].messages;
            var ended := r.frames[|r.frames| - 1].kind == "end";
            && |after| == |before| + (if !UserAccepted(req) then 0 else if ended then 2 else 1)
            && after[..|before|] == before
            && (UserAccepted(req) ==> after[|before|].content == Strip(req.message)
                                      && after[|before|].msgType == User)
            && (ended ==> after[|before| + 1].content == Strip(Concat(model(StreamHistory(store, req, env)).pieces))
                          && after[|before| + 1].msgType == Ai)
  {
    var id := ResolveConversationId(req, env);
    var r := ProcessMessageStream(store, req, env, model);
    var before := GetOrCreate(store, id, env.openedAt);
    if UserAccepted(req) {
      var withUser := WithUser(store, req, env);
      var out := model(StreamHistory(store, req, env));
      var fin := Finish(id, withUser, out, env);
      StreamUnfold(store, req, env, model);
      assert r.store[id] == fin.1 && r.frames[|r.frames| - 1] == fin.0;
      if fin.0.kind == "end" {
        assert fin.1.messages == withUser.messages + [LastMessage(fin.1)] by {
          assert fin.1.messages == fin.1.messages[..|withUser.messages|] + [LastMessage(fin.1)];
        }
        AppendTwo(before.messages, LastMessage(withUser), LastMessage(fin.1));
      }
    } else {
      assert AddMessage(before, env.userMessageId, req.message, User, None, env.userAt).Failure?;
      assert r.store[id] == before;
      StreamEndsIff(store, req, env, model);
    }
  }

  /** A stream keeps the store valid. */
  lemma StreamKeepsStoreValid(store: Store, req: ChatRequest, env: Env, model: seq<string> -> ModelStream)
    requires ValidStore(store)
    ensures ValidStore(ProcessMessageStream(store, req, env, model).store)
  {
    var id := ResolveConversationId(req, env);
    PutKeepsValid(store, id, GetOrCreate(store, id, env.openedAt));
    if UserAccepted(req) {
      StreamUnfold(store, req, env, model);
      var withUser := WithUser(store, req, env);
      var fin := Finish(id, withUser, model(StreamHistory(store, req, env)), env);
      PutKeepsValid(store, id, fin.1);
    }
  }

  // ---------------------------------------------------------------------------
  // The non-streaming pipeline

  /** What the model's `generate_response` did: answered, or raised. */
  datatype ModelReply = Replied(text: string) | Failed(error: Raised)

  const EmptyInput: string := "User input cannot be empty"

  /** `_process_input_node`: rejects input that is empty after stripping, and
      gives the state a fresh conversation id only when it has none. Returns
      the conversation id the rest of the pipeline uses. */
  function ProcessInputNode(userInput: string, conversationId: string, freshId: string): (r: Result<string, Raised>)
    ensures r.Success? <==> !IsBlank(userInput)
    ensures r.Success? && conversationId != "" ==> r.value == conversationId
    ensures r.Success? && conversationId == "" ==> r.value == freshId
    ensures r.Failure? ==> r.error.kind == "ValueError"
  {
    if Strip(userInput) == [] then Failure(Raised("ValueError", EmptyInput))
    else if conversationId == "" then Success(freshId)
    else Success(conversationId)
  }

  /** `_manage_context_node`: get or create the conversation, storing a new
      one at once, and append the user message to it; the model will see all
      of its texts. Returns those texts or the exception, and the store as the
      node left it: when `add_message` rejects the content, a conversation it
      created stays stored, empty. */
  function ManageContextNode(store: Store, id: string, userInput: string, env: Env)
    : (r: (Result<seq<string>, Raised>, Store))
    ensures r.0.Success? <==> 1 <= |userInput| <= MaxContentLength && !IsBlank(userInput)
    ensures id in r.1 && r.1 == store[id := r.1[id]]
    ensures r.0.Failure? ==> r.0.error == ValidationFailure(env) && r.1[id] == GetOrCreate(store, id, env.openedAt)
    ensures r.0.Success? ==> var c := r.1[id];
                             && c.messages != []
                             && c.messages == GetOrCreate(store, id, env.openedAt).messages + [LastMessage(c)]
                             && LastMessage(c).content == Strip(userInput) && LastMessage(c).msgType == User
    ensures r.0.Success? ==> r.0.value == Contents(GetOrCreate(store, id, env.openedAt).messages) + [Strip(userInput)]
    ensures ValidStore(store) ==> ValidStore(r.1)
  {
    var conversation := GetOrCreate(store, id, env.openedAt);
    var added := AddMessage(conversation, env.userMessageId, userInput, User, None, env.userAt);
    var kept := if added.Success? then added.value else conversation;
    PutKeepsValid(store, id, kept);
    if added.Failure? then (Failure(ValidationFailure(env)), store[id := kept])
    else
      AppendOne(conversation.messages, kept.messages);
      (Success(Contents(kept.messages)), store[id := kept])
  }

  const GenerateApology: string := "抱歉，我在处理您的请求时遇到了问题。错误信息: "

  /** `_generate_response_node`: the model's answer, or an apology quoting the
      exception when the model raised. */
  function GenerateResponseNode(reply: ModelReply): (text: string)
    ensures reply.Replied? ==> text == reply.text
    ensures reply.Failed? ==> StartsWith(text, GenerateApology)
                              && text[|GenerateApology|..] == reply.error.message
  {
    match reply
    case Replied(t) => t
    case Failed(e) => GenerateApology + e.message
  }

  /** `_format_output_node`: append the AI message, whose content is the
      model's answer, then build the response, whose text is that answer as
      given (not stripped). Returns the response or the exception, and the
      store as the node left it: an answer rejected as content changes
      nothing, while a negative elapsed time fails only after the AI message
      was appended. */
  function FormatOutputNode(store: Store, id: string, aiResponse: string, env: Env)
    : (r: (Result<ChatResponse, Raised>, Store))
    requires id in store
    ensures r.0.Success? <==> ReplyAccepted(aiResponse) && env.processingTime >= 0.0
    ensures r.0.Success? ==> r.0.value == ChatResponse(aiResponse, id, env.aiAt, Some(env.processingTime))
    ensures r.0.Failure? ==> r.0.error == ValidationFailure(env)
    ensures !ReplyAccepted(aiResponse) ==> r.1 == store
    ensures ReplyAccepted(aiResponse) ==>
              && id in r.1 && r.1 == store[id := r.1[id]]
              && var c := r.1[id];
                 && c.messages != []
                 && c.messages == store[id].messages + [LastMessage(c)]
                 && LastMessage(c).content == Strip(aiResponse) && LastMessage(c).msgType == Ai
    ensures ValidStore(store) ==> ValidStore(r.1)
  {
    var conversation := store[id];
    match AddMessage(conversation, env.aiMessageId, aiResponse, Ai, None, env.aiAt)
    case Failure(_) => (Failure(ValidationFailure(env)), store)
    case Success(withReply) =>
      AppendOne(conversation.messages, withReply.messages);
      PutKeepsValid(store, id, withReply);
      match NewChatResponse(aiResponse, id, env.aiAt, Some(env.processingTime))
      case Failure(_) => (Failure(ValidationFailure(env)), store[id := withReply])
      case Success(response) => (Success(response), store[id := withReply])
  }

  /** The four nodes in order, as the compiled graph runs them. An exception
      ends the run, and the store keeps what the nodes had stored up to it. */
  function RunGraph(store: Store, req: ChatRequest, id: string, env: Env, model: seq<string> -> ModelReply)
    : (r: (Result<ChatResponse, Raised>, Store))
  {
    match ProcessInputNode(req.message, id, env.freshConversationId)
    case Failure(e) => (Failure(e), store)
    case Success(cid) =>
      var (history, mid) := ManageContextNode(store, cid, req.message, env);
      match history
      case Failure(e) => (Failure(e), mid)
      case Success(texts) => FormatOutputNode(mid, cid, GenerateResponseNode(model(texts)), env)
  }

  const WorkflowApology: string := "抱歉，我在处理您的消息时遇到了问题: "
  const NotInitialized: string := "工作流未初始化。请先调用 async_setup()。"

  /** The `except` branch of `process_message`: an apology quoting the
      exception, for the same conversation, with `processing_time` 0.0. */
  function FallbackResponse(id: string, e: Raised, env: Env): ChatResponse {
    ChatResponse(WorkflowApology + e.message, id, env.aiAt, Some(0.0))
  }

  /** `process_message(request)`: run the graph when `async_setup` has
      compiled it (`initialized`); any exception becomes the fallback
      response. Returns the response and the store after. */
  function ProcessMessage(store: Store, req: ChatRequest, env: Env, initialized: bool,
                          model: seq<string> -> ModelReply): (r: (ChatResponse, Store))
  {
    var id := ResolveConversationId(req, env);
    var (outcome, after) :=
      if initialized then RunGraph(store, req, id, env, model)
      else (Failure(Raised("RuntimeError", NotInitialized)), store);
    match outcome
    case Success(response) => (response, after)
    case Failure(e) => (FallbackResponse(id, e, env), after)
  }

  /** `process_message` always answers for the request's conversation (or the
      fresh one). A successful run's response comes back as it is, with the
      measured time; a failed run, or a call before setup, is answered with
      the fallback quoting its exception. The store is what the run left,
      and without setup nothing is stored. */
  lemma ProcessMessageAnswersSameConversation(store: Store, req: ChatRequest, env: Env, initialized: bool,
                                              model: seq<string> -> ModelReply)
    ensures var id := ResolveConversationId(req, env);
            var run := RunGraph(store, req, id, env, model);
            var (response, after) := ProcessMessage(store, req, env, initialized, model);
            && response.conversationId == id
            && (initialized && run.0.Success? ==>
                  response == run.0.value && response.processingTime == Some(env.processingTime) && after == run.1)
            && (initialized && run.0.Failure? ==> response == FallbackResponse(id, run.0.error, env) && after == run.1)
            && (!initialized ==>
                  response == FallbackResponse(id, Raised("RuntimeError", NotInitialized), env) && after == store)
  {
    var id := ResolveConversationId(req, env);
    assert ProcessInputNode(req.message, id, env.freshConversationId).Success? ==>
           ProcessInputNode(req.message, id, env.freshConversationId).value == id;
  }

  /** Where a failing `process_message` stops and what it leaves stored: a
      blank message is refused before anything is stored; a message that
      `add_message` rejects (over 10000 characters, which only a request
      whose message was set after `ChatRequest` validation can carry) leaves
      the conversation created; an answer it rejects leaves the user message appended; a
      negative elapsed time leaves both messages appended. Each is answered
      with the fallback. */
  lemma ProcessMessageFailurePaths(store: Store, req: ChatRequest, env: Env, model: seq<string> -> ModelReply)
    ensures var id := ResolveConversationId(req, env);
            var (response, after) := ProcessMessage(store, req, env, true, model);
            && (IsBlank(req.message) ==>
                  response == FallbackResponse(id, Raised("ValueError", EmptyInput), env) && after == store)
            && (!IsBlank(req.message) && !UserAccepted(req) ==>
                  response == FallbackResponse(id, ValidationFailure(env), env)
                  && after == store[id := GetOrCreate(store, id, env.openedAt)])
    ensures UserAccepted(req) ==>
            var id := ResolveConversationId(req, env);
            var text := GenerateResponseNode(model(StreamHistory(store, req, env)));
            var (response, after) := ProcessMessage(store, req, env, true, model);
            && (!ReplyAccepted(text) ==>
                  response == FallbackResponse(id, ValidationFailure(env), env)
                  && after == store[id := WithUser(store, req, env)])
            && (ReplyAccepted(text) && env.processingTime < 0.0 ==>
                  && response == FallbackResponse(id, ValidationFailure(env), env)
                  && id in after && after == store[id := after[id]]
                  && after[id].messages != []
                  && after[id].messages == WithUser(store, req, env).messages + [LastMessage(after[id])]
                  && LastMessage(after[id]).content == Strip(text))
  {
    var id := ResolveConversationId(req, env);
    if !IsBlank(req.message) {
      assert ProcessInputNode(req.message, id, env.freshConversationId) == Success(id);
      var (history, mid) := ManageContextNode(store, id, req.message, env);
      if UserAccepted(req) {
        assert mid == store[id := WithUser(store, req, env)];
        assert history == Success(StreamHistory(store, req, env));
        var text := GenerateResponseNode(model(history.value));
        assert RunGraph(store, req, id, env, model) == FormatOutputNode(mid, id, text, env);
        if ReplyAccepted(text) {
          PutTwice(store, id, mid[id], FormatOutputNode(mid, id, text, env).1[id]);
        }
      }
    }
  }

  /** A compiled graph answers with the model's reply, and stores the user
      message and then the stripped reply, when both are acceptable content
      and the elapsed time is not negative. */
  lemma ProcessMessageSucceeds(store: Store, req: ChatRequest, env: Env, model: seq<string> -> ModelReply)
    requires env.processingTime >= 0.0
    requires UserAccepted(req)
    requires model(StreamHistory(store, req, env)).Replied?
    requires ReplyAccepted(model(StreamHistory(store, req, env)).text)
    ensures var id := ResolveConversationId(req, env);
            var text := model(StreamHistory(store, req, env)).text;
            var (response, after) := ProcessMessage(store, req, env, true, model);
            var before := GetOrCreate(store, id, env.openedAt).messages;
            && response == ChatResponse(text, id, env.aiAt, Some(env.processingTime))
            && id in after
            && |after[id].messages| == |before| + 2
            && after[id].messages[..|before|] == before
            && after[id].messages[|before|].content == Strip(req.message)
            && after[id].messages[|before| + 1].content == Strip(text)
  {
    var id := ResolveConversationId(req, env);
    var before := GetOrCreate(store, id, env.openedAt).messages;
    assert ProcessInputNode(req.message, id, env.freshConversationId) == Success(id);
    var (history, mid) := ManageContextNode(store, id, req.message, env);
    assert history == Success(StreamHistory(store, req, env));
    var text := model(history.value).text;
    assert GenerateResponseNode(model(history.value)) == text;
    var done := FormatOutputNode(mid, id, text, env);
    assert RunGraph(store, req, id, env, model) == done;
    assert ProcessMessage(store, req, env, true, model) == (done.0.value, done.1);
    var withUser := mid[id];
    var withReply := done.1[id];
    assert withUser.messages == before + [LastMessage(withUser)];
    assert withReply.messages == withUser.messages + [LastMessage(withReply)];
    AppendTwo(before, LastMessage(withUser), LastMessage(withReply));
  }

  lemma AppendTwo(before: seq<Message>, a: Message, b: Message)
    ensures var after := before + [a] + [b];
            && |after| == |before| + 2
            && after[..|before|] == before
            && after[|before|] == a && after[|before| + 1] == b
  {
  }

  /** Updating one entry twice is updating it once. */
  lemma PutTwice(store: Store, id: string, a: Conversation, b: Conversation)
    ensures store[id := a][id := b] == store[id := b]
  {
  }

  /** The graph changes at most the conversation it works on and keeps the
      store valid. */
  lemma RunGraphKeepsStoreValid(store: Store, req: ChatRequest, id: string, env: Env, model: seq<string> -> ModelReply)
    requires ValidStore(store) && id != ""
    ensures var after := RunGraph(store, req, id, env, model).1;
            && ValidStore(after)
            && (after == store || (id in after && after == store[id := after[id]]))
  {
    var input := ProcessInputNode(req.message, id, env.freshConversationId);
    if input.Success? {
      var (history, mid) := ManageContextNode(store, id, req.message, env);
      if history.Success? {
        var formatted := FormatOutputNode(mid, id, GenerateResponseNode(model(history.value)), env);
        assert RunGraph(store, req, id, env, model) == formatted;
        assert formatted.1 == mid[id := formatted.1[id]];
        PutTwice(store, id, mid[id], formatted.1[id]);
      } else {
        assert RunGraph(store, req, id, env, model).1 == mid;
      }
    }
  }

  /** `process_message` changes at most the request's conversation and keeps
      the store valid. */
  lemma ProcessMessageKeepsStoreValid(store: Store, req: ChatRequest, env: Env, initialized: bool,
                                      model: seq<string> -> ModelReply)
    requires ValidStore(store)
    ensures var after := ProcessMessage(store, req, env, initialized, model).1;
            var id := ResolveConversationId(req, env);
            && ValidStore(after)
            && (after == store || (id in after && after == store[id := after[id]]))
  {
    if initialized {
      RunGraphKeepsStoreValid(store, req, ResolveConversationId(req, env), env, model);
    }
  }

  // ---------------------------------------------------------------------------
  // History and clearing

  /** `get_conversation_history(id, limit)`: no messages for an unknown id,
      otherwise the conversation's `limit` most recent messages, newest first. */
  function GetConversationHistory(store: Store, id: string, limit: int): (r: seq<Message>)
    ensures id !in store ==> r == []
    ensures id in store ==> |r| == SliceEnd(|store[id].messages|, limit)
    ensures NewestFirst(r)
    ensures id in store ==> multiset(r) <= multiset(store[id].messages)
  {
    if id !in store then [] else RecentMessages(store[id].messages, limit)
  }

  /** `clear_conversation(id)`: remove the conversation, reporting whether it
      was there. */
  function ClearConversation(store: Store, id: string): (r: (Store, bool))
    ensures r.1 <==> id in store
    ensures r.0.Keys == store.Keys - {id}
    ensures forall k :: k in r.0 ==> r.0[k] == store[k]
  {
    (store - {id}, id in store)
  }

  /** Clearing twice: the second call finds nothing and changes nothing. */
  lemma ClearTwice(store: Store, id: string)
    ensures var (once, _) := ClearConversation(store, id);
            ClearConversation(once, id) == (once, false)
  {
    var once := ClearConversation(store, id).0;
    assert once - {id} == once;
  }

  /** A cleared conversation has no history. */
  lemma ClearedHasNoHistory(store: Store, id: string, limit: int)
    ensures GetConversationHistory(ClearConversation(store, id).0, id, limit) == []
  {
  }
}
