/** The request/response models of `app/models/chat.py`: `ChatRequest`
    validation, the `ChatResponse.processing_time` bound and the `StreamChunk`
    frame with its defaults. */
module ChatModels {
  import opened Wrappers
  import opened Text
  import opened Dicts
  import opened Validation

  /** `Field(..., min_length=1, max_length=1000)` on `ChatRequest.message`. */
  const MaxRequestLength: nat := 1000

  datatype ChatRequest = ChatRequest(message: string, conversationId: Option<string>)

  /** What every constructed `ChatRequest` satisfies. */
  predicate ValidChatRequest(r: ChatRequest) {
    1 <= |r.message| <= MaxRequestLength && IsStripped(r.message)
  }

  /** `ChatRequest(**body)`: `message` is required and validated like message
      content (with a 1000-character bound); `conversation_id` is optional and
      `null` when absent. */
  function ParseChatRequest(body: Dict): (r: Result<ChatRequest, FieldError>)
    ensures r.Success? <==>
      && "message" in body && body["message"].JStr?
      && 1 <= |body["message"].s| <= MaxRequestLength && !IsBlank(body["message"].s)
      && ("conversation_id" in body ==> body["conversation_id"].JNull? || body["conversation_id"].JStr?)
    ensures r.Success? ==> ValidChatRequest(r.value) && r.value.message == Strip(body["message"].s)
    ensures r.Success? ==> (r.value.conversationId.None? <==>
                            "conversation_id" !in body || body["conversation_id"].JNull?)
    ensures r.Success? && r.value.conversationId.Some? ==> body["conversation_id"] == JStr(r.value.conversationId.value)
  {
    var raw :- RequiredString(body, "message");
    var message :- ValidateText("message", raw, MaxRequestLength);
    var conversationId :- if "conversation_id" !in body then Success(None)
                          else match body["conversation_id"]
                            case JNull => Success(None)
                            case JStr(s) => Success(Some(s))
                            case _ => Failure(FieldError("conversation_id", WrongType));
    Success(ChatRequest(message, conversationId))
  }

  /** A request with a valid message and no conversation id is accepted, with
      `conversation_id` left as `None`. */
  lemma ConversationIdDefaultsToNone(message: string)
    requires 1 <= |message| <= MaxRequestLength && !IsBlank(message)
    ensures ParseChatRequest(map["message" := JStr(message)]) == Success(ChatRequest(Strip(message), None))
  {
  }

  /** `ChatResponse`; `processing_time` is in seconds. */
  datatype ChatResponse = ChatResponse(
    response: string,
    conversationId: string,
    timestamp: nat,
    processingTime: Option<real>)

  /** `ChatResponse(...)`: `processing_time` is optional but, when given, must be
      non-negative (`ge=0`). */
  function NewChatResponse(response: string, conversationId: string, timestamp: nat,
                           processingTime: Option<real>): (r: Result<ChatResponse, FieldError>)
    ensures r.Success? <==> processingTime.None? || processingTime.value >= 0.0
    ensures r.Success? ==> r.value.response == response && r.value.conversationId == conversationId
                           && r.value.processingTime == processingTime
    ensures r.Failure? ==> r.error == FieldError("processing_time", Negative)
  {
    if processingTime.Some? && processingTime.value < 0.0 then
      Failure(FieldError("processing_time", Negative))
    else
      Success(ChatResponse(response, conversationId, timestamp, processingTime))
  }

  /** One frame of a streamed reply. `kind` is the model's `type`: any string
      is accepted, and "start", "chunk", "end" and "error" are a convention of
      the producer. The frame's informational timestamp is not modelled. */
  datatype StreamChunk = StreamChunk(
    kind: string,
    content: string,
    conversationId: string,
    metadata: Option<Dict>)

  /** `StreamChunk(type=..., conversation_id=..., ...)` with pydantic's defaults:
      `content` is "" and `metadata` is `None` unless given. */
  function NewStreamChunk(kind: string, conversationId: string, content: string := "",
                          metadata: Option<Dict> := None): StreamChunk
  {
    StreamChunk(kind, content, conversationId, metadata)
  }

  /** Constructing a frame never fails, whatever its `type`, and omitted fields
      take their defaults. */
  lemma StreamChunkDefaults(kind: string, conversationId: string)
    ensures NewStreamChunk(kind, conversationId).kind == kind
    ensures NewStreamChunk(kind, conversationId).content == ""
    ensures NewStreamChunk(kind, conversationId).metadata.None?
  {
  }
}
