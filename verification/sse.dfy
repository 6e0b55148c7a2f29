/** Server-Sent Events framing of `app/routes/chat.py` and the consumer of
    `test_stream_chat.py`: each frame is written as `"data: " + payload +
    "\n\n"`; the consumer reads the body line by line, keeps the lines
    starting with `"data: "`, drops those six characters and accumulates the
    content of the `chunk` frames. The payload is the JSON text of the frame,
    produced by an `encode` function that is a parameter here. */
module Sse {
  import opened Wrappers
  import opened Text
  import opened Dicts
  import opened ChatModels
  import opened Workflow
  import MockModel

  const DataPrefix: string := "data: "

  /** `f"data: {payload}\n\n"`. */
  function FrameText(payload: string): string {
    DataPrefix + payload + "\n\n"
  }

  /** The response body for a sequence of payloads. */
  function EncodeFrames(payloads: seq<string>): string {
    if payloads == [] then [] else FrameText(payloads[0]) + EncodeFrames(payloads[1..])
  }

  predicate NewlineFree(s: string) {
    forall i :: 0 <= i < |s| ==> s[i] != '\n'
  }

  /** Length of the text before the first line feed of `s` (all of `s` when it has none). */
  function LineLength(s: string): (n: nat)
    ensures n <= |s|
    ensures n < |s| ==> s[n] == '\n'
    ensures NewlineFree(s[..n])
  {
    if s == [] || s[0] == '\n' then 0
    else
      var n := 1 + LineLength(s[1..]);
      assert s[..n] == [s[0]] + s[1..][..n - 1];
      n
  }

  /** `aiter_lines()`: the lines of `s` without their line feeds, including
      empty lines; a last line without a line feed is kept. */
  function Lines(s: string): (lines: seq<string>)
    ensures forall i :: 0 <= i < |lines| ==> NewlineFree(lines[i])
    decreases |s|
  {
    if s == [] then []
    else
      var n := LineLength(s);
      if n == |s| then [s] else [s[..n]] + Lines(s[n + 1..])
  }

  /** The consumer's filter: the text after `"data: "` of every line that
      starts with it, in order. */
  function DataPayloads(lines: seq<string>): (payloads: seq<string>)
    ensures |payloads| <= |lines|
  {
    if lines == [] then []
    else if StartsWith(lines[0], DataPrefix) then [lines[0][|DataPrefix|..]] + DataPayloads(lines[1..])
    else DataPayloads(lines[1..])
  }

  lemma LineLengthOfLine(line: string, rest: string)
    requires NewlineFree(line)
    ensures LineLength(line + "\n" + rest) == |line|
    decreases |line|
  {
    if line != [] {
      assert (line + "\n" + rest)[1..] == line[1..] + "\n" + rest;
      LineLengthOfLine(line[1..], rest);
    }
  }

  /** A line feed ends exactly one line. */
  lemma LinesOfLine(line: string, rest: string)
    requires NewlineFree(line)
    ensures Lines(line + "\n" + rest) == [line] + Lines(rest)
  {
    var s := line + "\n" + rest;
    LineLengthOfLine(line, rest);
    assert s[..|line|] == line;
    assert s[|line| + 1..] == rest;
  }

  /** One frame is a data line followed by an empty line. */
  lemma LinesOfFrame(payload: string, rest: string)
    requires NewlineFree(payload)
    ensures Lines(FrameText(payload) + rest) == [DataPrefix + payload, ""] + Lines(rest)
  {
    var line := DataPrefix + payload;
    assert NewlineFree(line) by {
      assert forall i :: 0 <= i < |line| ==> line[i] == if i < |DataPrefix| then DataPrefix[i] else payload[i - |DataPrefix|];
    }
    assert FrameText(payload) + rest == line + "\n" + ("" + "\n" + rest);
    LinesOfLine(line, "" + "\n" + rest);
    LinesOfLine("", rest);
    assert "" + "\n" + rest == [] + "\n" + rest;
  }

  /** Splitting the body into lines and keeping the data lines recovers the
      payloads, in order, when no payload contains a line feed (as is the
      case for the output of `json.dumps`). */
  lemma {:induction false} DecodeEncodeFrames(payloads: seq<string>)
    requires forall i :: 0 <= i < |payloads| ==> NewlineFree(payloads[i])
    ensures DataPayloads(Lines(EncodeFrames(payloads))) == payloads
    decreases |payloads|
  {
    if payloads != [] {
      var p := payloads[0];
      var rest := EncodeFrames(payloads[1..]);
      LinesOfFrame(p, rest);
      DecodeEncodeFrames(payloads[1..]);
      var lines := [DataPrefix + p, ""] + Lines(rest);
      assert lines[0] == DataPrefix + p && StartsWith(lines[0], DataPrefix);
      assert lines[0][|DataPrefix|..] == p;
      assert lines[1..] == [""] + Lines(rest);
      assert !StartsWith(lines[1], DataPrefix);
      assert lines[1..][1..] == Lines(rest);
      assert payloads == [p] + payloads[1..];
    }
  }

  /** The payloads of a sequence of frames. */
  function Payloads(frames: seq<StreamChunk>, encode: StreamChunk -> string): (ps: seq<string>)
    ensures |ps| == |frames|
    ensures forall i :: 0 <= i < |frames| ==> ps[i] == encode(frames[i])
  {
    seq(|frames|, i requires 0 <= i < |frames| => encode(frames[i]))
  }

  /** The frame `generate_sse` adds when iterating the workflow raised:
      an `error` frame for the request's conversation id, or "unknown". */
  function GeneratorErrorFrame(req: ChatRequest, e: Raised): (f: StreamChunk)
    ensures f.kind == "error" && f.content == e.message
    ensures req.conversationId.Some? && req.conversationId.value != "" ==> f.conversationId == req.conversationId.value
    ensures req.conversationId.None? || req.conversationId.value == "" ==> f.conversationId == "unknown"
  {
    var id := if req.conversationId.Some? && req.conversationId.value != "" then req.conversationId.value else "unknown";
    ErrorFrame(id, e)
  }

  // ---------------------------------------------------------------------------
  // Dumping frames: `json.dumps(chunk.model_dump(), ensure_ascii=False)`

  /** How a frame becomes plain data before `json.dumps`. Pydantic 2's
      `model_dump()` works in Python mode and leaves the `timestamp` field a
      `datetime` object (the class's `json_encoders` setting applies only when
      dumping to JSON); `model_dump(mode="json")` writes it as ISO text. */
  datatype DumpMode = PythonMode | JsonMode

  /** The value the dump holds for the `timestamp` field. */
  datatype DumpedTimestamp = DateTimeObject | IsoText

  function TimestampIn(mode: DumpMode): DumpedTimestamp {
    match mode
    case PythonMode => DateTimeObject
    case JsonMode => IsoText
  }

  /** What the standard JSON encoder raises on a `datetime`. */
  const NotSerializable: Raised := Raised("TypeError", "Object of type datetime is not JSON serializable")

  /** `json.dumps` of a frame dumped in `mode`: `TypeError` when the dump
      holds a `datetime`, otherwise the frame's JSON text, which `encode`
      stands for. */
  function JsonDumps(chunk: StreamChunk, mode: DumpMode, encode: StreamChunk -> string): (r: Result<string, Raised>)
    ensures r.Failure? <==> mode == PythonMode
    ensures r.Failure? ==> r.error == NotSerializable
    ensures r.Success? ==> r.value == encode(chunk)
  {
    match TimestampIn(mode)
    case DateTimeObject => Failure(NotSerializable)
    case IsoText => Success(encode(chunk))
  }

  /** What `generate_sse()` wrote, and the exception that escaped it, if any. */
  datatype SseOutcome = SseOutcome(body: string, escaped: Option<Raised>)

  /** The `except` branch of `generate_sse()`: one `error` frame for `e`,
      unless dumping that frame raises too, and then that exception escapes. */
  function SseExcept(req: ChatRequest, e: Raised, mode: DumpMode, encode: StreamChunk -> string): SseOutcome {
    match JsonDumps(GeneratorErrorFrame(req, e), mode, encode)
    case Failure(e2) => SseOutcome([], Some(e2))
    case Success(p) => SseOutcome(FrameText(p), None)
  }

  /** `generate_sse()` with frames dumped in `mode`: each frame the workflow
      yields is written in turn until dumping one raises; that exception, or
      `raised` from the workflow after its last frame, goes to the `except`
      branch. */
  function SseWrite(req: ChatRequest, frames: seq<StreamChunk>, raised: Option<Raised>, mode: DumpMode,
                    encode: StreamChunk -> string): SseOutcome
    decreases |frames|
  {
    if frames == [] then
      (if raised.Some? then SseExcept(req, raised.value, mode, encode) else SseOutcome([], None))
    else
      match JsonDumps(frames[0], mode, encode)
      case Failure(e) => SseExcept(req, e, mode, encode)
      case Success(p) =>
        var rest := SseWrite(req, frames[1..], raised, mode, encode);
        SseOutcome(FrameText(p) + rest.body, rest.escaped)
  }

  /** The frames a JSON-mode generator sends: every frame the workflow
      yielded, then one `error` frame if iterating it raised `raised`. */
  function SentFrames(req: ChatRequest, frames: seq<StreamChunk>, raised: Option<Raised>): seq<StreamChunk> {
    if raised.Some? then frames + [GeneratorErrorFrame(req, raised.value)] else frames
  }

  /** `generate_sse()` with each frame dumped in JSON mode: the body of the
      frames it sends. */
  function GenerateSse(req: ChatRequest, frames: seq<StreamChunk>, raised: Option<Raised>,
                       encode: StreamChunk -> string): (body: string)
  {
    EncodeFrames(Payloads(SentFrames(req, frames, raised), encode))
  }

  /** In JSON mode no dump raises: the generator writes every frame, then the
      error frame when the workflow raised, and nothing escapes it. */
  lemma {:induction false} JsonModeWritesAllFrames(req: ChatRequest, frames: seq<StreamChunk>, raised: Option<Raised>,
                                                   encode: StreamChunk -> string)
    ensures SseWrite(req, frames, raised, JsonMode, encode) == SseOutcome(GenerateSse(req, frames, raised, encode), None)
    decreases |frames|
  {
    var all := SentFrames(req, frames, raised);
    var ps := Payloads(all, encode);
    if frames == [] {
      if raised.Some? {
        var err := GeneratorErrorFrame(req, raised.value);
        assert all == [err];
        assert JsonDumps(err, JsonMode, encode) == Success(ps[0]);
        assert ps[1..] == [];
        assert EncodeFrames(ps) == FrameText(ps[0]) + [];
      }
    } else {
      JsonModeWritesAllFrames(req, frames[1..], raised, encode);
      assert all[1..] == SentFrames(req, frames[1..], raised);
      assert ps[1..] == Payloads(all[1..], encode);
    }
  }

  /** `generate_sse()` as written: `chunk.model_dump()`, in Python mode. */
  function GenerateSseAsWritten(req: ChatRequest, frames: seq<StreamChunk>, raised: Option<Raised>,
                                encode: StreamChunk -> string): SseOutcome {
    SseWrite(req, frames, raised, PythonMode, encode)
  }

  /** A JSON encoding of frames that a consumer can read back: no line feeds,
      and `decode` inverts it. */
  ghost predicate Readable(encode: StreamChunk -> string, decode: string -> Option<StreamChunk>) {
    forall c :: NewlineFree(encode(c)) && decode(encode(c)) == Some(c)
  }

  /** The consumer's frames: each kept payload decoded, undecodable ones skipped. */
  function DecodeAll(payloads: seq<string>, decode: string -> Option<StreamChunk>): seq<StreamChunk> {
    if payloads == [] then []
    else match decode(payloads[0])
      case Some(c) => [c] + DecodeAll(payloads[1..], decode)
      case None => DecodeAll(payloads[1..], decode)
  }

  lemma {:induction false} DecodeAllPayloads(frames: seq<StreamChunk>, encode: StreamChunk -> string,
                                             decode: string -> Option<StreamChunk>)
    requires Readable(encode, decode)
    ensures DecodeAll(Payloads(frames, encode), decode) == frames
    decreases |frames|
  {
    if frames != [] {
      assert Payloads(frames, encode)[1..] == Payloads(frames[1..], encode);
      assert decode(encode(frames[0])) == Some(frames[0]);
      DecodeAllPayloads(frames[1..], encode, decode);
      assert frames == [frames[0]] + frames[1..];
    }
  }

  /** What the consumer reads from a body: the frames, in the order they were sent. */
  function ReadBody(body: string, decode: string -> Option<StreamChunk>): seq<StreamChunk> {
    DecodeAll(DataPayloads(Lines(body)), decode)
  }

  /** With a readable encoding, the consumer reads back exactly the frames a
      JSON-mode `generate_sse` sent. */
  lemma ReadGeneratedBody(req: ChatRequest, frames: seq<StreamChunk>, raised: Option<Raised>,
                          encode: StreamChunk -> string, decode: string -> Option<StreamChunk>)
    requires Readable(encode, decode)
    ensures ReadBody(GenerateSse(req, frames, raised, encode), decode)
            == if raised.Some? then frames + [GeneratorErrorFrame(req, raised.value)] else frames
  {
    var all := SentFrames(req, frames, raised);
    var ps := Payloads(all, encode);
    assert forall i :: 0 <= i < |ps| ==> NewlineFree(ps[i]) by {
      forall i | 0 <= i < |ps| ensures NewlineFree(ps[i]) {
        assert ps[i] == encode(all[i]);
      }
    }
    DecodeEncodeFrames(ps);
    DecodeAllPayloads(all, encode, decode);
  }

  /** As written, the body holds no frame: dumping the first frame raises
      `TypeError`, dumping the `error` frame meant to report it raises again,
      and that exception escapes the generator. A client reads nothing. */
  lemma AsWrittenSseWritesNothing(req: ChatRequest, frames: seq<StreamChunk>, raised: Option<Raised>,
                                  encode: StreamChunk -> string, decode: string -> Option<StreamChunk>)
    ensures var out := GenerateSseAsWritten(req, frames, raised, encode);
            && out.body == []
            && ReadBody(out.body, decode) == []
            && (out.escaped.Some? <==> frames != [] || raised.Some?)
            && (out.escaped.Some? ==> out.escaped.value == NotSerializable)
  {
  }

  /** The consumer's `full_response`: the contents of the `chunk` frames,
      concatenated in order. */
  function Accumulate(frames: seq<StreamChunk>): string {
    if frames == [] then []
    else (if frames[0].kind == "chunk" then frames[0].content else []) + Accumulate(frames[1..])
  }

  lemma {:induction false} AccumulateChunks(frames: seq<StreamChunk>)
    requires WellFormedStream(frames)
    ensures Accumulate(frames) == Concat(ChunkTexts(frames))
  {
    var k := |frames| - 2;
    AccumulateMiddle(frames[1..|frames| - 1]);
    assert frames == [frames[0]] + frames[1..|frames| - 1] + [frames[|frames| - 1]];
    AccumulateAppend([frames[0]] + frames[1..|frames| - 1], [frames[|frames| - 1]]);
    AccumulateAppend([frames[0]], frames[1..|frames| - 1]);
    assert Accumulate([frames[0]]) == [];
    assert Accumulate([frames[|frames| - 1]]) == [];
    assert ChunkTexts(frames) == seq(k, i requires 0 <= i < k => frames[1..|frames| - 1][i].content);
  }

  lemma {:induction false} AccumulateAppend(a: seq<StreamChunk>, b: seq<StreamChunk>)
    ensures Accumulate(a + b) == Accumulate(a) + Accumulate(b)
    decreases |a|
  {
    if a != [] {
      assert (a + b)[0] == a[0];
      assert (a + b)[1..] == a[1..] + b;
      AccumulateAppend(a[1..], b);
    } else {
      assert a + b == b;
    }
  }

  lemma {:induction false} AccumulateMiddle(chunks: seq<StreamChunk>)
    requires forall i :: 0 <= i < |chunks| ==> chunks[i].kind == "chunk"
    ensures Accumulate(chunks) == Concat(seq(|chunks|, i requires 0 <= i < |chunks| => chunks[i].content))
    decreases |chunks|
  {
    if chunks != [] {
      AccumulateMiddle(chunks[1..]);
      var texts := seq(|chunks|, i requires 0 <= i < |chunks| => chunks[i].content);
      assert texts[1..] == seq(|chunks[1..]|, i requires 0 <= i < |chunks[1..]| => chunks[1..][i].content);
    }
  }

  /** What the consumer accumulates from a streamed reply that ends with
      `end` is the `full_response` that frame reports, and the model's pieces
      concatenated in order. */
  lemma AccumulatedStreamIsReply(store: Store, req: ChatRequest, env: Env, model: seq<string> -> ModelStream)
    ensures var frames := ProcessMessageStream(store, req, env, model).frames;
            var last := frames[|frames| - 1];
            last.kind == "end" ==>
              && last.metadata == Some(EndMetadata(env.processingTime, |frames| - 2, Accumulate(frames)))
              && Accumulate(frames) == Concat(model(StreamHistory(store, req, env)).pieces)
  {
    var frames := ProcessMessageStream(store, req, env, model).frames;
    AccumulateChunks(frames);
    StreamEndSummarizesChunks(store, req, env, model);
    StreamEndsIff(store, req, env, model);
    StreamFrames(store, req, env, model);
  }

  /** End to end: a consumer reading the body a JSON-mode `generate_sse`
      writes for a well-formed stream sees the frames unchanged, and
      accumulates the contents of its chunks in order. */
  lemma ConsumerSeesFullResponse(req: ChatRequest, frames: seq<StreamChunk>,
                                 encode: StreamChunk -> string, decode: string -> Option<StreamChunk>)
    requires Readable(encode, decode)
    requires WellFormedStream(frames)
    ensures var read := ReadBody(GenerateSse(req, frames, None, encode), decode);
            read == frames && Accumulate(read) == Concat(ChunkTexts(frames))
  {
    ReadGeneratedBody(req, frames, None, encode, decode);
    AccumulateChunks(frames);
  }

  /** The mock model as a stream producer: it never raises. */
  function MockStreamModel(history: seq<string>): ModelStream {
    ModelStream(MockModel.MockStream(history), None)
  }

  /** With the mock model, a valid request always streams `start`, a single
      `chunk` holding the whole canned reply, and `end` reporting that reply. */
  lemma MockStreamScenario(store: Store, req: ChatRequest, env: Env)
    requires UserAccepted(req)
    ensures var r := ProcessMessageStream(store, req, env, MockStreamModel);
            var reply := MockModel.MockReply(StreamHistory(store, req, env));
            && |r.frames| == 3
            && r.frames[1].content == reply
            && r.frames[2] == EndFrame(ResolveConversationId(req, env), env.processingTime, 1, reply)
  {
    var history := StreamHistory(store, req, env);
    var reply := MockModel.MockReply(history);
    MockModel.MockStreamIsOnePiece(history);
    MockModel.MockReplyIsWord(history);
    assert !IsSpace(reply[0]);
    assert Concat([reply]) == reply;
    StreamEndsIff(store, req, env, MockStreamModel);
    StreamFrames(store, req, env, MockStreamModel);
    StreamUnfold(store, req, env, MockStreamModel);
  }
}
