/** The provider side of `app/chat/ai_providers.py`: the `RetryHandler`
    callback's counter and backoff, the apology text a provider returns when
    its LLM call fails, and the choice of the default model. The LLM call
    itself is abstracted to the error callbacks it fires and whether it
    finally answered. */
module Providers {
  import opened Wrappers
  import opened Text

  /** The callback's state: `max_retries`, `current_retry` and `errors`. */
  datatype RetryHandler = RetryHandler(maxRetries: int, currentRetry: nat, errors: seq<string>)

  /** `RetryHandler(max_retries)`. */
  function NewRetryHandler(maxRetries: int): (h: RetryHandler)
    ensures Counted(h) && h.errors == [] && h.maxRetries == maxRetries
  {
    RetryHandler(maxRetries, 0, [])
  }

  /** The counter equals the number of recorded errors, as it does for any
      handler built by `RetryHandler(...)`, `on_llm_error` and `reset`. */
  predicate Counted(h: RetryHandler) {
    h.currentRetry == |h.errors|
  }

  /** `on_llm_error(error)`: record the error text, count one more retry, and
      sleep `current_retry` seconds while the count is within `max_retries`.
      Returns the new state and the pause taken, if any. */
  function OnLlmError(h: RetryHandler, error: string): (r: (RetryHandler, Option<nat>))
    ensures Counted(h) ==> Counted(r.0)
    ensures r.0.maxRetries == h.maxRetries
    ensures r.0.errors == h.errors + [error]
    ensures r.0.currentRetry == h.currentRetry + 1
    ensures r.1.Some? <==> h.currentRetry < h.maxRetries
    ensures r.1.Some? ==> r.1.value == r.0.currentRetry
  {
    var next := RetryHandler(h.maxRetries, h.currentRetry + 1, h.errors + [error]);
    if next.currentRetry <= h.maxRetries then (next, Some(next.currentRetry)) else (next, None)
  }

  /** The errors reported to the callback during one call, in order: the final
      state and the pauses taken. */
  function OnLlmErrors(h: RetryHandler, errors: seq<string>): (RetryHandler, seq<nat>)
    decreases |errors|
  {
    if errors == [] then (h, [])
    else
      var (h1, pause) := OnLlmError(h, errors[0]);
      var (h2, pauses) := OnLlmErrors(h1, errors[1..]);
      (h2, (if pause.Some? then [pause.value] else []) + pauses)
  }

  function Min(a: int, b: int): int { if a <= b then a else b }
  function Max(a: int, b: int): int { if a >= b then a else b }

  /** A run of errors records all of them and counts them, and the pauses grow
      by one second per retry, starting after the retries already counted, and
      stop once `max_retries` is reached. */
  lemma {:induction false} OnLlmErrorsSchedule(h: RetryHandler, errors: seq<string>)
    ensures var (h', pauses) := OnLlmErrors(h, errors);
            && h'.maxRetries == h.maxRetries
            && h'.errors == h.errors + errors
            && h'.currentRetry == h.currentRetry + |errors|
            && |pauses| == Max(0, Min(|errors|, h.maxRetries - h.currentRetry))
            && forall i :: 0 <= i < |pauses| ==> pauses[i] == h.currentRetry + 1 + i
    decreases |errors|
  {
    if errors != [] {
      var (h1, pause) := OnLlmError(h, errors[0]);
      OnLlmErrorsSchedule(h1, errors[1..]);
      assert h.errors + errors == h.errors + [errors[0]] + errors[1..];
      if pause.None? {
        var (h2, pauses) := OnLlmErrors(h1, errors[1..]);
        assert |pauses| == 0;
      }
    }
  }

  /** From a fresh handler, `n` errors cause pauses of 1, 2, ... seconds, one
      per error up to `max_retries` of them. */
  lemma BackoffFromFresh(maxRetries: int, errors: seq<string>)
    ensures var (h', pauses) := OnLlmErrors(NewRetryHandler(maxRetries), errors);
            && Counted(h') && h'.errors == errors
            && |pauses| == Max(0, Min(|errors|, maxRetries))
            && forall i :: 0 <= i < |pauses| ==> pauses[i] == i + 1
  {
    OnLlmErrorsSchedule(NewRetryHandler(maxRetries), errors);
  }

  /** `reset()`: forget the count and the errors, keep `max_retries`. */
  function Reset(h: RetryHandler): (r: RetryHandler)
    ensures Counted(r) && r.errors == [] && r.maxRetries == h.maxRetries
  {
    RetryHandler(h.maxRetries, 0, [])
  }

  /** A reset handler is the fresh handler, whatever happened before. */
  lemma ResetIsFresh(h: RetryHandler)
    ensures Reset(h) == NewRetryHandler(h.maxRetries)
  {
  }

  /** The three LangChain-backed providers. */
  datatype LlmProvider = OpenAI | Ollama | Moonshot

  /** The opening sentence of each provider's failure reply. */
  function Apology(p: LlmProvider): string {
    match p
    case OpenAI => "抱歉，AI模型暂时无法响应。"
    case Ollama => "抱歉，本地AI模型暂时无法响应。"
    case Moonshot => "抱歉，Moonshot AI模型暂时无法响应。"
  }

  /** The sentence that follows the apology when no error was recorded. */
  function Hint(p: LlmProvider): string {
    match p
    case OpenAI => "请稍后再试。"
    case Ollama => "请确保Ollama服务正在运行。"
    case Moonshot => "请稍后再试。"
  }

  const DetailsLabel: string := "错误详情: "
  const DetailsSeparator: string := ", "

  /** The reply of `generate_response` after its call raised: the recorded
      errors joined by ", " after the details label, or the fixed hint when
      the callback recorded none. */
  function FailureReply(p: LlmProvider, errors: seq<string>): (r: string)
    ensures StartsWith(r, Apology(p))
  {
    if errors == [] then Apology(p) + Hint(p)
    else Apology(p) + DetailsLabel + JoinWith(errors, DetailsSeparator)
  }

  /** Reads the error details back out of a failure reply; `None` for a reply
      without the details label. */
  function ReportedDetails(p: LlmProvider, reply: string): Option<string> {
    var head := Apology(p) + DetailsLabel;
    if StartsWith(reply, head) then Some(reply[|head|..]) else None
  }

  /** A failure reply carries details exactly when errors were recorded, and
      then the details are the errors joined by ", "; without errors it is the
      apology and the hint. */
  lemma FailureReplyDetails(p: LlmProvider, errors: seq<string>)
    ensures ReportedDetails(p, FailureReply(p, errors))
            == if errors == [] then None else Some(JoinWith(errors, DetailsSeparator))
  {
    var head := Apology(p) + DetailsLabel;
    var r := FailureReply(p, errors);
    if errors == [] {
      assert r[|Apology(p)|] == Hint(p)[0] != DetailsLabel[0] == head[|Apology(p)|];
    } else {
      assert r == head + JoinWith(errors, DetailsSeparator);
      assert r[..|head|] == head;
      assert r[|head|..] == JoinWith(errors, DetailsSeparator);
    }
  }

  /** Every part of a join occurs in it. */
  lemma {:induction false} JoinContainsParts(parts: seq<string>, sep: string, i: nat)
    requires i < |parts|
    ensures Contains(JoinWith(parts, sep), parts[i])
    decreases |parts|
  {
    var s := JoinWith(parts, sep);
    if i == 0 {
      if |parts| > 1 {
        assert s == parts[0] + (sep + JoinWith(parts[1..], sep));
      }
      assert StartsWith(s[0..], parts[0]);
    } else {
      var rest := JoinWith(parts[1..], sep);
      JoinContainsParts(parts[1..], sep, i - 1);
      ContainsInSuffix(parts[0] + sep, rest, parts[i]);
    }
  }

  lemma ContainsInSuffix(prefix: string, s: string, sub: string)
    requires Contains(s, sub)
    ensures Contains(prefix + s, sub)
  {
    var k :| 0 <= k <= |s| && StartsWith(s[k..], sub);
    assert (prefix + s)[|prefix| + k..] == s[k..];
    assert StartsWith((prefix + s)[|prefix| + k..], sub);
  }

  /** Every recorded error text appears in the failure reply. */
  lemma FailureReplyMentionsErrors(p: LlmProvider, errors: seq<string>, i: nat)
    requires i < |errors|
    ensures Contains(FailureReply(p, errors), errors[i])
  {
    JoinContainsParts(errors, DetailsSeparator, i);
    ContainsInSuffix(Apology(p) + DetailsLabel, JoinWith(errors, DetailsSeparator), errors[i]);
    assert FailureReply(p, errors) == (Apology(p) + DetailsLabel) + JoinWith(errors, DetailsSeparator);
  }

  /** How the wrapped LLM call ended: with an answer, or by raising. */
  datatype LlmOutcome = Answered(content: string) | Raised

  /** `generate_response` of a provider: reset the handler, let the call report
      `errors` to the callback, then return the answer or the failure reply.
      Returns the reply and the handler's final state. */
  function GenerateResponse(p: LlmProvider, h: RetryHandler, errors: seq<string>, outcome: LlmOutcome)
    : (r: (string, RetryHandler))
  {
    var (h', _) := OnLlmErrors(Reset(h), errors);
    match outcome
    case Answered(content) => (content, h')
    case Raised => (FailureReply(p, h'.errors), h')
  }

  /** Because the handler is reset first, a failure reply reports exactly the
      errors of this call, whatever earlier calls left behind, and the handler
      ends counting exactly those errors. */
  lemma GenerateReportsOnlyThisCall(p: LlmProvider, h: RetryHandler, errors: seq<string>, outcome: LlmOutcome)
    ensures var (reply, h') := GenerateResponse(p, h, errors, outcome);
            && Counted(h') && h'.errors == errors
            && reply == (if outcome.Raised? then FailureReply(p, errors) else outcome.content)
  {
    OnLlmErrorsSchedule(Reset(h), errors);
  }

  /** The model classes `create_default_model` can return. */
  datatype ModelClass = MoonshotModel | OpenAIModel | OllamaModel | MockAIModel

  /** A configuration value Python treats as true: set and non-empty. */
  predicate Configured(key: Option<string>) {
    key.Some? && key.value != ""
  }

  /** The provider priority `create_default_model` is written to follow: a
      Moonshot key, then an OpenAI key, then an Ollama server whose
      `/api/version` answers 200, then the mock model. `ollamaStatus` is the
      probe's status code, `None` when the probe raised. */
  function DefaultModel(moonshotKey: Option<string>, openAiKey: Option<string>, ollamaStatus: Option<int>)
    : (m: ModelClass)
    ensures m == MoonshotModel <==> Configured(moonshotKey)
    ensures m == OpenAIModel <==> !Configured(moonshotKey) && Configured(openAiKey)
    ensures m == OllamaModel <==> !Configured(moonshotKey) && !Configured(openAiKey) && ollamaStatus == Some(200)
    ensures m == MockAIModel <==> !Configured(moonshotKey) && !Configured(openAiKey) && ollamaStatus != Some(200)
  {
    if Configured(moonshotKey) then MoonshotModel
    else if Configured(openAiKey) then OpenAIModel
    else if ollamaStatus == Some(200) then OllamaModel
    else MockAIModel
  }

  /** The abstract methods of `AIModelInterface`. */
  const InterfaceMethods: set<string> := {"generate_response", "generate_response_stream", "get_model_info"}

  /** The methods each class of `ai_providers.py` and `ai_models.py` defines
      itself: the three provider classes do not define `generate_response_stream`. */
  function DefinedMethods(c: ModelClass): set<string> {
    match c
    case MockAIModel => {"generate_response", "generate_response_stream", "get_model_info"}
    case _ => {"generate_response", "get_model_info"}
  }

  /** Every class defines every interface method. */
  function CompleteMethods(c: ModelClass): set<string> {
    InterfaceMethods
  }

  /** `c()`: Python refuses to instantiate a subclass of an abstract base class
      that leaves an abstract method undefined, raising `TypeError`. */
  function Instantiate(defined: ModelClass -> set<string>, c: ModelClass): (r: Result<ModelClass, string>)
    ensures r.Success? <==> InterfaceMethods <= defined(c)
    ensures r.Success? ==> r.value == c
    ensures r.Failure? ==> r.error == "TypeError"
  {
    if InterfaceMethods <= defined(c) then Success(c) else Failure("TypeError")
  }

  /** The control flow of `create_default_model` for classes defining
      `defined(c)`: the Moonshot and OpenAI constructors run unguarded, while
      the Ollama constructor runs inside the `try` that guards the probe, so
      its failure falls through to the mock model. */
  function CreateDefaultModelWith(defined: ModelClass -> set<string>, moonshotKey: Option<string>,
                                  openAiKey: Option<string>, ollamaStatus: Option<int>): Result<ModelClass, string>
  {
    if Configured(moonshotKey) then Instantiate(defined, MoonshotModel)
    else if Configured(openAiKey) then Instantiate(defined, OpenAIModel)
    else if ollamaStatus == Some(200) && Instantiate(defined, OllamaModel).Success? then Instantiate(defined, OllamaModel)
    else Instantiate(defined, MockAIModel)
  }

  /** `create_default_model` with the classes as written. */
  function CreateDefaultModelAsWritten(moonshotKey: Option<string>, openAiKey: Option<string>,
                                       ollamaStatus: Option<int>): (r: Result<ModelClass, string>)
    ensures r.Failure? <==> Configured(moonshotKey) || Configured(openAiKey)
    ensures r.Success? ==> r.value == MockAIModel
  {
    assert "generate_response_stream" in InterfaceMethods;
    CreateDefaultModelWith(DefinedMethods, moonshotKey, openAiKey, ollamaStatus)
  }

  /** With only a Moonshot key set, the intended choice is the Moonshot model
      but the code as written raises `TypeError`; with only an Ollama server
      answering, the intended choice is Ollama but the mock model is returned. */
  lemma AsWrittenMissesProviders()
    ensures DefaultModel(Some("sk-moonshot"), None, None) == MoonshotModel
    ensures CreateDefaultModelAsWritten(Some("sk-moonshot"), None, None) == Failure("TypeError")
    ensures DefaultModel(None, None, Some(200)) == OllamaModel
    ensures CreateDefaultModelAsWritten(None, None, Some(200)) == Success(MockAIModel)
  {
    assert "generate_response_stream" !in DefinedMethods(MoonshotModel);
  }

  /** `create_default_model` once every class defines the streaming method:
      never raises, and picks exactly the intended priority. */
  function CreateDefaultModel(moonshotKey: Option<string>, openAiKey: Option<string>,
                              ollamaStatus: Option<int>): (r: Result<ModelClass, string>)
    ensures r == Success(DefaultModel(moonshotKey, openAiKey, ollamaStatus))
  {
    CreateDefaultModelWith(CompleteMethods, moonshotKey, openAiKey, ollamaStatus)
  }
}
