/**
 * The POST handler of the chat endpoint: parse the body, validate it, check that a
 * model is configured and available, then stream a completion; every failure becomes
 * an (HTTP status, error body) pair. The foreign collaborators (the model provider,
 * the message converter and the streaming call) are parameters, and the handler
 * reports which of them it called, in order.
 */
module ChatRoute {
  import opened Base
  import opened JsStrings
  import opened Constants
  import opened ChatSchema

  /** What `req.json()` gives: a parsed value, or a parse failure. */
  datatype BodyOutcome = Parsed(json: Json) | ParseFailed

  /** A thrown value as the catch block sees it. */
  datatype Thrown =
    | ZodErrorThrown(issues: seq<Issue>)
    | ErrorThrown(message: string, causeCode: Option<string>)  // any other `Error`; `cause.code` when it is a string
    | NonErrorThrown                                          // a thrown value that is not an `Error`

  datatype ModelHandle = ModelHandle(id: nat)
  datatype ResolveOutcome = Resolved(handle: ModelHandle) | NullHandle | ResolveThrew(thrown: Thrown)
  datatype ModelMessage = ModelMessage(role: string, content: string)
  datatype ConvertOutcome = Converted(messages: seq<ModelMessage>) | ConvertThrew(thrown: Thrown)
  datatype StreamArgs = StreamArgs(model: ModelHandle, system: string, messages: seq<ModelMessage>, temperature: real)
  datatype StreamHandle = StreamHandle(id: nat)
  datatype StreamOutcome = Streaming(result: StreamHandle) | StreamRejected(thrown: Thrown)

  /** `ollama(name)`, `convertToModelMessages(messages)` and `streamText(args)`. */
  datatype Backend = Backend(
    resolve: string -> ResolveOutcome,
    convert: seq<UIMessage> -> ConvertOutcome,
    streamText: StreamArgs -> StreamOutcome)

  /** One invocation of a collaborator, with its argument. */
  datatype Call = ResolveCall(name: string) | ConvertCall(messages: seq<UIMessage>) | StreamCall(args: StreamArgs)

  datatype Details = ParseErrorDetails | IssueDetails(issues: seq<Issue>)
  datatype ErrorBody = ErrorBody(error: ErrorKey, details: Option<Details>, message: Option<string>)
  datatype Header = Header(name: string, value: string)
  datatype Response =
    | JsonResponse(status: nat, body: ErrorBody)
    | StreamResponse(status: nat, stream: StreamHandle, headers: seq<Header>)

  /** The response and the collaborator calls made to produce it. */
  datatype Handled = Handled(response: Response, calls: seq<Call>)

  const Temperature: real := 0.7
  const FetchFailed: string := "fetch failed"
  const ConnectionRefused: string := "ECONNREFUSED"
  const StreamHeaders: seq<Header> := [Header("Cache-Control", "no-cache"), Header("Connection", "keep-alive")]

  /** The status each error key is sent with. */
  function StatusOf(key: ErrorKey): (status: nat)
    ensures status == 400 <==> key == InvalidJson
    ensures status == 503 <==> key == ModelNotConfigured || key == ModelNotAvailable
    ensures status == 502 <==> key == ModelRequestFail
    ensures status == 400 || status == 500 || status == 502 || status == 503
  {
    match key
    case InvalidJson => 400
    case ModelNotConfigured => 503
    case ModelNotAvailable => 503
    case ModelRequestFail => 502
    case _ => 500
  }

  function ErrorResponse(key: ErrorKey): Response {
    JsonResponse(StatusOf(key), ErrorBody(key, None, None))
  }

  /** A connection failure: a message mentioning "fetch failed", or a cause coded ECONNREFUSED. */
  predicate IsConnectionFailure(message: string, causeCode: Option<string>)
    ensures IsConnectionFailure(message, causeCode)
            <==> (exists i :: OccursAt(message, FetchFailed, i)) || causeCode == Some(ConnectionRefused)
  {
    ContainsIff(message, FetchFailed);
    Contains(message, FetchFailed) || causeCode == Some(ConnectionRefused)
  }

  /** The catch block: a zod error, then a connection failure, then any other Error, then anything else. */
  function Classify(t: Thrown): (r: Response)
    ensures r.JsonResponse? && r.status == StatusOf(r.body.error)
    ensures t.ZodErrorThrown? ==> r.body == ErrorBody(InvalidJson, Some(IssueDetails(t.issues)), None)
    ensures t.ErrorThrown? ==> (r.status == 502 <==> IsConnectionFailure(t.message, t.causeCode))
    ensures t.ErrorThrown? && IsConnectionFailure(t.message, t.causeCode) ==> r.body == ErrorBody(ModelRequestFail, None, None)
    ensures t.ErrorThrown? && !IsConnectionFailure(t.message, t.causeCode)
            ==> r.body == ErrorBody(InternalServerError, None, Some(t.message))
    ensures t.NonErrorThrown? ==> r.body == ErrorBody(UnknownError, None, None)
  {
    match t
    case ZodErrorThrown(issues) => JsonResponse(StatusOf(InvalidJson), ErrorBody(InvalidJson, Some(IssueDetails(issues)), None))
    case ErrorThrown(message, causeCode) =>
      if IsConnectionFailure(message, causeCode) then ErrorResponse(ModelRequestFail)
      else JsonResponse(StatusOf(InternalServerError), ErrorBody(InternalServerError, None, Some(message)))
    case NonErrorThrown => ErrorResponse(UnknownError)
  }

  /** The handler: the guard chain, then the three collaborator calls, any throw classified. */
  function Post(body: BodyOutcome, env: Option<string>, backend: Backend): (h: Handled)
    ensures h.response.JsonResponse? ==> h.response.status == StatusOf(h.response.body.error)
    ensures h.response.StreamResponse? ==> h.response.status == 200 && h.response.headers == StreamHeaders
    ensures h.calls != [] ==> body.Parsed? && ValidRequest(body.json) && IsConfigured(env)
                              && h.calls[0] == ResolveCall(env.value)
    ensures |h.calls| <= 3
    ensures h.response.StreamResponse? ==> |h.calls| == 3
  {
    match body
    case ParseFailed =>
      Handled(JsonResponse(StatusOf(InvalidJson), ErrorBody(InvalidJson, Some(ParseErrorDetails), None)), [])
    case Parsed(json) =>
      match ParseRequest(json)
      case Failure(issues) =>
        Handled(JsonResponse(StatusOf(InvalidJson), ErrorBody(InvalidJson, Some(IssueDetails(issues)), None)), [])
      case Success(request) =>
        if !IsConfigured(env) then Handled(ErrorResponse(ModelNotConfigured), [])
        else
          var resolved := [ResolveCall(env.value)];
          match backend.resolve(env.value)
          case ResolveThrew(t) => Handled(Classify(t), resolved)
          case NullHandle => Handled(ErrorResponse(ModelNotAvailable), resolved)
          case Resolved(model) =>
            var converted := resolved + [ConvertCall(request.messages)];
            match backend.convert(request.messages)
            case ConvertThrew(t) => Handled(Classify(t), converted)
            case Converted(modelMessages) =>
              var args := StreamArgs(model, SystemPrompt, modelMessages, Temperature);
              var streamed := converted + [StreamCall(args)];
              match backend.streamText(args)
              case StreamRejected(t) => Handled(Classify(t), streamed)
              case Streaming(result) => Handled(StreamResponse(200, result, StreamHeaders), streamed)
  }

  /** No collaborator is called at all: a malformed body gets 400 INVALID_JSON before validation runs. */
  lemma ParseFailureShortCircuits(env: Option<string>, backend: Backend)
    ensures Post(ParseFailed, env, backend)
            == Handled(JsonResponse(400, ErrorBody(InvalidJson, Some(ParseErrorDetails), None)), [])
  {
  }

  /** A schema violation gets 400 INVALID_JSON with every issue as details, and nothing is called. */
  lemma SchemaFailureReportsIssues(json: Json, env: Option<string>, backend: Backend)
    requires !ValidRequest(json)
    ensures var h := Post(Parsed(json), env, backend);
            && h.calls == []
            && h.response == JsonResponse(400, ErrorBody(InvalidJson, Some(IssueDetails(RequestIssues(json))), None))
            && RequestIssues(json) != []
  {
  }

  /** `{messages: []}` gets 400 whose details hold too_small at ["messages"], minimum 1, inclusive. */
  lemma EmptyMessagesRejected(json: Json, env: Option<string>, backend: Backend)
    requires json.JObject? && GetArray(json, "messages") == Some([])
    ensures var h := Post(Parsed(json), env, backend);
            && h.response.JsonResponse? && h.response.status == 400 && h.response.body.error == InvalidJson
            && h.response.body.details.Some? && h.response.body.details.value.IssueDetails?
            && Issue([Key("messages")], TooSmall(1, true)) in h.response.body.details.value.issues
  {
    EmptyMessagesIssue(json);
  }

  /** An empty text at message i, part j gets 400 with too_small at ["messages", i, "parts", j, "text"]. */
  lemma EmptyTextRejected(json: Json, i: nat, j: nat, env: Option<string>, backend: Backend)
    requires json.JObject? && GetArray(json, "messages").Some? && i < |GetArray(json, "messages").value|
    requires GetArray(json, "messages").value[i].JObject?
    requires GetArray(GetArray(json, "messages").value[i], "parts").Some?
    requires j < |GetArray(GetArray(json, "messages").value[i], "parts").value|
    requires var part := GetArray(GetArray(json, "messages").value[i], "parts").value[j];
             IsTextShaped(part) && GetString(part, "text") == Some("")
    ensures var h := Post(Parsed(json), env, backend);
            && h.calls == [] && h.response.JsonResponse? && h.response.status == 400
            && h.response.body.error == InvalidJson
            && h.response.body.details.Some? && h.response.body.details.value.IssueDetails?
            && Issue([Key("messages"), Index(i), Key("parts"), Index(j), Key("text")], TooSmall(1, true))
               in h.response.body.details.value.issues
  {
    TextLengthIssueAt(json, i, j);
  }

  /** A missing or empty OLLAMA_MODEL gets 503 MODEL_NOT_CONFIGURED; neither the provider nor the stream is called. */
  lemma NotConfiguredCallsNothing(json: Json, env: Option<string>, backend: Backend)
    requires ValidRequest(json) && !IsConfigured(env)
    ensures Post(Parsed(json), env, backend) == Handled(JsonResponse(503, ErrorBody(ModelNotConfigured, None, None)), [])
  {
  }

  /** A null model handle gets 503 MODEL_NOT_AVAILABLE; only the provider was called, never the stream. */
  lemma NullHandleNeverStreams(json: Json, env: Option<string>, backend: Backend)
    requires ValidRequest(json) && IsConfigured(env) && backend.resolve(env.value) == NullHandle
    ensures Post(Parsed(json), env, backend)
            == Handled(JsonResponse(503, ErrorBody(ModelNotAvailable, None, None)), [ResolveCall(env.value)])
  {
  }

  /**
   * `ollama(name)` and `convertToModelMessages` run inside the try: whatever either throws is
   * answered by the catch block, and nothing after the throwing call is called.
   */
  lemma ProviderThrowsClassified(json: Json, env: Option<string>, backend: Backend)
    requires ValidRequest(json) && IsConfigured(env)
    ensures var messages := DecodeRequest(json).messages;
            var h := Post(Parsed(json), env, backend);
            && (backend.resolve(env.value).ResolveThrew? ==>
                  h == Handled(Classify(backend.resolve(env.value).thrown), [ResolveCall(env.value)]))
            && (backend.resolve(env.value).Resolved? && backend.convert(messages).ConvertThrew? ==>
                  h == Handled(Classify(backend.convert(messages).thrown), [ResolveCall(env.value), ConvertCall(messages)]))
  {
  }

  /**
   * On success the stream is called once, last, with the resolved model, the fixed system
   * prompt, the converted messages and temperature 0.7, and the response carries the
   * no-cache and keep-alive headers.
   */
  lemma SuccessStreamsConvertedMessages(json: Json, env: Option<string>, backend: Backend)
    requires ValidRequest(json) && IsConfigured(env)
    requires backend.resolve(env.value).Resolved?
    requires backend.convert(DecodeRequest(json).messages).Converted?
    ensures var model := backend.resolve(env.value).handle;
            var messages := DecodeRequest(json).messages;
            var args := StreamArgs(model, SystemPrompt, backend.convert(messages).messages, 0.7);
            var h := Post(Parsed(json), env, backend);
            && h.calls == [ResolveCall(env.value), ConvertCall(messages), StreamCall(args)]
            && (backend.streamText(args).Streaming? ==>
                  h.response == StreamResponse(200, backend.streamText(args).result, StreamHeaders)
                  && Header("Cache-Control", "no-cache") in h.response.headers
                  && Header("Connection", "keep-alive") in h.response.headers)
            && (backend.streamText(args).StreamRejected? ==> h.response == Classify(backend.streamText(args).thrown))
  {
  }
}
