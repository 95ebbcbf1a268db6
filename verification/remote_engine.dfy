/** The remote engine's operations: loading and unloading model
    configurations, the chat-completion pipeline (validate, resolve, render
    the request, dispatch sync or streaming, classify, render the response),
    model listing, status and the capability query.

    Each operation is a function from the engine state, the inbound body and
    the collaborators to an `Effect`: the replies passed to the callback, the
    HTTP request sent (if any) and the new engine state. */
module RemoteEngine {
  import opened Wrappers
  import opened JsonValue
  import opened Registry
  import opened Envelope
  import opened Collaborators

  const CurlInitError: string := "Failed to initialize CURL"
  const ParseFailure: string := "Failed to parse response"
  const MissingModelFields: string := "Missing required fields: model"
  const MissingModelField: string := "Missing required field: model"
  const MissingLoadFields: string := "Missing required fields: model or model_path"
  const LoadFailed: string := "Failed to load model configuration"
  const LoadedStatus: string := "Model loaded successfully"
  const UnloadedStatus: string := "Model unloaded successfully"
  const NotLoadedPrefix: string := "Model not found or not loaded: "
  const NotFoundPrefix: string := "Model not found: "

  const ContentTypeHeader: string := "Content-Type: application/json"
  const EventStreamHeaders: seq<string> :=
    ["Accept: text/event-stream", "Cache-Control: no-cache", "Connection: keep-alive"]

  /** What one call did. `Threw`: an exception left the operation; in every
      operation this happens before any callback, request or state change. */
  datatype Effect =
    | Returned(replies: seq<Reply>, sent: Option<Request>, engine: Engine)
    | Threw

  /** The `model` member of an inbound body, coerced by `asString`. */
  function RequestedModel(body: Json): Option<string> {
    match Member(body, "model")
    case Present(v) => AsString(v)
    case _ => None
  }

  /** The registry holds a loaded configuration for `model`. */
  predicate Serves(e: Engine, model: string) {
    model in e.models && e.models[model].isLoaded
  }

  /** `isMember("stream") && ["stream"].asBool()`; None when `asBool` throws. */
  function StreamRequested(body: Json): Option<bool> {
    match Member(body, "stream")
    case Present(v) => AsBool(v)
    case Absent => Some(false)
    case NotAnObject => None
  }

  /** `section["chat_completions"][key]` of a transform section. */
  function ChatCompletionsField(section: Option<Yaml>, key: string): Option<Yaml> {
    match section
    case None => None
    case Some(root) =>
      match Child(root, "chat_completions")
      case None => None
      case Some(node) => Child(node, key)
  }

  /** The `chat_completions` template of a section, if present and a string. */
  function TemplateOf(section: Option<Yaml>): Option<string> {
    match ChatCompletionsField(section, "template")
    case Some(node) => AsText(node)
    case None => None
  }

  /** The `chat_completions` url of a section; None where yaml-cpp throws. */
  function UrlOf(section: Option<Yaml>): Option<string> {
    match ChatCompletionsField(section, "url")
    case Some(node) => AsText(node)
    case None => None
  }

  /** The transform step shared by the request and the response side: render
      the section's template against `data`, and on any failure along the way
      fall back to the styled text of `data`. */
  function Transform(section: Option<Yaml>, data: Json, codec: Codec): string {
    match TemplateOf(section)
    case None => codec.styled(data)
    case Some(template) =>
      if data.JNull? then codec.styled(data)
      else match codec.render(template, data)
        case Ok(text) => text
        case Err(_) => codec.styled(data)
  }

  /** The header list of a chat-completion request. */
  function ChatHeaders(e: Engine, config: ModelConfig, streaming: bool): seq<string> {
    (if config.apiKey != "" then [e.authHeader] else [])
    + [ContentTypeHeader]
    + (if streaming then EventStreamHeaders else [])
  }

  /** The classification shared by every buffered transfer: a transport error
      is a 400, an unparseable body a 500, anything else the parsed body. */
  function Received(fetched: Result<string, string>, codec: Codec): Result<Json, Reply> {
    match fetched
    case Err(message) => Err(ErrorReply(BadRequest, false, message))
    case Ok(text) =>
      match codec.parse(text)
      case None => Err(ErrorReply(InternalServerError, false, ParseFailure))
      case Some(j) => Ok(j)
  }

  /** The synchronous leg of a chat completion, from sending `outbound` to the
      one reply. */
  function SyncCompletion(e: Engine, config: ModelConfig, outbound: string, codec: Codec, net: Network): (r: Effect)
    ensures r.Threw? <==> net.initOk && UrlOf(config.transformReq).None?
    ensures r.Returned? ==> r.engine == e && |r.replies| == 1
    ensures r.Returned? ==> r.replies[0].status.Some? && r.replies[0].status.value.isDone
                            && !r.replies[0].status.value.isStream
    ensures !net.initOk ==> r == Returned([ErrorReply(BadRequest, false, CurlInitError)], None, e)
    ensures r.Returned? && net.initOk ==>
              r.sent == Some(Request(Post(outbound), UrlOf(config.transformReq).value, ChatHeaders(e, config, false)))
    ensures r.Returned? && r.sent.Some? ==>
              var fetched := net.fetch(r.sent.value);
              && (fetched.Err? ==> r.replies[0] == ErrorReply(BadRequest, false, fetched.error))
              && (fetched.Ok? && codec.parse(fetched.value).None? ==>
                    r.replies[0] == ErrorReply(InternalServerError, false, ParseFailure))
              && (fetched.Ok? && codec.parse(fetched.value).Some? ==>
                    var rendered := Transform(config.transformResp, codec.parse(fetched.value).value, codec);
                    && (codec.parse(rendered).None? ==>
                          r.replies[0] == ErrorReply(InternalServerError, false, ParseFailure))
                    && (codec.parse(rendered).Some? ==>
                          r.replies[0] == Reply(Some(Status(true, false, false, OK)), codec.parse(rendered).value)))
  {
    if !net.initOk then Returned([ErrorReply(BadRequest, false, CurlInitError)], None, e)
    else match UrlOf(config.transformReq)
      case None => Threw
      case Some(url) =>
        var request := Request(Post(outbound), url, ChatHeaders(e, config, false));
        var reply :=
          match Received(net.fetch(request), codec)
          case Err(failure) => failure
          case Ok(j) =>
            match codec.parse(Transform(config.transformResp, j, codec))
            case None => ErrorReply(InternalServerError, false, ParseFailure)
            case Some(result) => SuccessReply(result);
        Returned([reply], Some(request), e)
  }

  /** The streamed transfer of a chat completion once curl has a handle: the
      provider's replies are forwarded as they arrive, and a failed transfer
      adds one terminal error envelope. */
  function StreamTransfer(e: Engine, config: ModelConfig, outbound: string, net: Network): (r: Effect)
    ensures r.Threw? <==> UrlOf(config.transformReq).None?
    ensures r.Returned? ==> r.engine == e
    ensures r.Returned? ==>
              r.sent == Some(Request(PostStream(outbound), UrlOf(config.transformReq).value, ChatHeaders(e, config, true)))
    ensures r.Returned? ==>
              var s := net.stream(r.sent.value);
              && |r.replies| == |s.delivered| + (if s.failure.Some? then 1 else 0)
              && r.replies[..|s.delivered|] == s.delivered
              && (s.failure.Some? ==>
                    r.replies[|s.delivered|] == Reply(Some(Status(true, true, true, InternalServerError)),
                                                      Object1("error", JString(s.failure.value))))
  {
    match UrlOf(config.transformReq)
    case None => Threw
    case Some(url) =>
      var request := Request(PostStream(outbound), url, ChatHeaders(e, config, true));
      var s := net.stream(request);
      var terminal := if s.failure.Some? then [ErrorReply(InternalServerError, true, s.failure.value)] else [];
      Returned(s.delivered + terminal, Some(request), e)
  }

  /** The streaming leg as the source writes it: when `curl_easy_init` fails
      it returns without invoking the callback at all. */
  function StreamCompletionAsWritten(e: Engine, config: ModelConfig, outbound: string, net: Network): (r: Effect)
    ensures !net.initOk ==> r.Returned? && r.replies == [] && r.sent.None?
    ensures net.initOk ==> r == StreamTransfer(e, config, outbound, net)
  {
    if !net.initOk then Returned([], None, e)
    else StreamTransfer(e, config, outbound, net)
  }

  /** The streaming leg, corrected: a failed `curl_easy_init` ends the call
      with the same terminal error envelope as a failed transfer. */
  function StreamCompletion(e: Engine, config: ModelConfig, outbound: string, net: Network): (r: Effect)
    ensures !net.initOk ==> r == Returned([ErrorReply(InternalServerError, true, CurlInitError)], None, e)
    ensures net.initOk ==> r == StreamTransfer(e, config, outbound, net)
  {
    if !net.initOk then Returned([ErrorReply(InternalServerError, true, CurlInitError)], None, e)
    else StreamTransfer(e, config, outbound, net)
  }

  /** Which streaming leg a chat completion runs: the one the source has, or
      the corrected one. */
  datatype StreamLeg = AsWritten | Corrected

  /** The body of `HandleChatCompletion`, parameterised by its streaming
      leg: everything it does before the leg is chosen, and on the
      synchronous path, is the same for both. */
  function ChatCompletion(leg: StreamLeg, e: Engine, body: Json, codec: Codec, net: Network): (r: Effect)
    ensures r.Returned? ==> r.engine == e
    ensures Member(body, "model").NotAnObject? ==> r.Threw?
    ensures Member(body, "model").Absent? ==>
              r == Returned([ErrorReply(BadRequest, false, MissingModelFields)], None, e)
    ensures RequestedModel(body).Some? && !Serves(e, RequestedModel(body).value) ==>
              r == Returned([ErrorReply(BadRequest, false, NotLoadedPrefix + RequestedModel(body).value)], None, e)
    ensures r.Returned? && r.sent.Some? ==>
              && RequestedModel(body).Some? && Serves(e, RequestedModel(body).value)
              && StreamRequested(body).Some?
              && var outbound := Transform(e.models[RequestedModel(body).value].transformReq, body, codec);
                 r.sent.value.verb == (if StreamRequested(body).value then PostStream(outbound) else Post(outbound))
    ensures r.Returned? && StreamRequested(body) != Some(true) ==> |r.replies| == 1
  {
    match Member(body, "model")
    case NotAnObject => Threw
    case Absent => Returned([ErrorReply(BadRequest, false, MissingModelFields)], None, e)
    case Present(v) =>
      match AsString(v)
      case None => Threw
      case Some(model) =>
        if !Serves(e, model) then Returned([ErrorReply(BadRequest, false, NotLoadedPrefix + model)], None, e)
        else match StreamRequested(body)
          case None => Threw
          case Some(isStream) =>
            var config := e.models[model];
            var outbound := Transform(config.transformReq, body, codec);
            if isStream then
              match leg
              case AsWritten => StreamCompletionAsWritten(e, config, outbound, net)
              case Corrected => StreamCompletion(e, config, outbound, net)
            else SyncCompletion(e, config, outbound, codec, net)
  }

  /** `HandleChatCompletion` as the source writes it. A streamed call for a
      served model whose `curl_easy_init` fails gets no reply at all, since
      the error response the streaming leg returns is discarded; any other
      streamed call is the transfer. */
  function HandleChatCompletion(e: Engine, body: Json, codec: Codec, net: Network): (r: Effect)
    ensures r.Returned? ==> r.engine == e
    ensures r.Returned? && StreamRequested(body) != Some(true) ==> |r.replies| == 1
    ensures RequestedModel(body).Some? && Serves(e, RequestedModel(body).value) && StreamRequested(body) == Some(true) ==>
              var config := e.models[RequestedModel(body).value];
              var outbound := Transform(config.transformReq, body, codec);
              && (!net.initOk ==> r == Returned([], None, e))
              && (net.initOk ==> r == StreamTransfer(e, config, outbound, net))
  {
    ChatCompletion(AsWritten, e, body, codec, net)
  }

  /** `HandleChatCompletion` with the corrected streaming leg: a failed
      `curl_easy_init` ends a streamed call with one terminal error
      envelope. */
  function HandleChatCompletionCorrected(e: Engine, body: Json, codec: Codec, net: Network): (r: Effect)
    ensures r.Returned? ==> r.engine == e
    ensures r.Returned? && StreamRequested(body) != Some(true) ==> |r.replies| == 1
    ensures RequestedModel(body).Some? && Serves(e, RequestedModel(body).value) && StreamRequested(body) == Some(true) ==>
              var config := e.models[RequestedModel(body).value];
              var outbound := Transform(config.transformReq, body, codec);
              && (!net.initOk ==> r == Returned([ErrorReply(InternalServerError, true, CurlInitError)], None, e))
              && (net.initOk ==> r == StreamTransfer(e, config, outbound, net))
  {
    ChatCompletion(Corrected, e, body, codec, net)
  }

  /** The three members `LoadModel` needs, coerced by `asString`. */
  datatype LoadArgs = LoadArgs(model: string, modelPath: string, apiKey: string)

  predicate HasLoadFields(body: Json) {
    Member(body, "model").Present? && Member(body, "model_path").Present? && Member(body, "api_key").Present?
  }

  function LoadArguments(body: Json): Option<LoadArgs> {
    if !HasLoadFields(body) then None
    else match (AsString(Member(body, "model").value), AsString(Member(body, "model_path").value),
                AsString(Member(body, "api_key").value))
      case (Some(model), Some(path), Some(key)) => Some(LoadArgs(model, path, key))
      case _ => None
  }

  /** `LoadModel`. `files` stands for `YAML::LoadFile`: the document at a
      path, or None when reading or parsing it throws. */
  function LoadModel(e: Engine, body: Json, files: string -> Option<Yaml>): (r: Effect)
    ensures r.Threw? <==> Member(body, "model").NotAnObject? || (HasLoadFields(body) && LoadArguments(body).None?)
    ensures r.Returned? ==> |r.replies| == 1 && r.sent.None?
    ensures !Member(body, "model").NotAnObject? && !HasLoadFields(body) ==>
              r == Returned([ErrorReply(BadRequest, false, MissingLoadFields)], None, e)
    ensures LoadArguments(body).Some? ==>
              var a := LoadArguments(body).value;
              var loaded := LoadModelConfig(e, a.model, files(a.modelPath), a.apiKey);
              && (!loaded.ok ==> r == Returned([ErrorReply(InternalServerError, false, LoadFailed)], None, e))
              && (loaded.ok ==>
                    && r.Returned?
                    && r.replies == [SuccessReply(Object1("status", JString(LoadedStatus)))]
                    && r.engine.models == loaded.engine.models
                    && r.engine.authHeader == loaded.engine.authHeader
                    && r.engine.metadata == (if Member(body, "metadata").Present? then Member(body, "metadata").value
                                             else e.metadata))
    ensures r.Returned? && Valid(e) ==> Valid(r.engine)
  {
    if Member(body, "model").NotAnObject? then Threw
    else if !HasLoadFields(body) then Returned([ErrorReply(BadRequest, false, MissingLoadFields)], None, e)
    else match LoadArguments(body)
      case None => Threw
      case Some(a) =>
        var loaded := LoadModelConfig(e, a.model, files(a.modelPath), a.apiKey);
        if !loaded.ok then Returned([ErrorReply(InternalServerError, false, LoadFailed)], None, e)
        else
          var metadata := match Member(body, "metadata") case Present(m) => m case _ => loaded.engine.metadata;
          Returned([SuccessReply(Object1("status", JString(LoadedStatus)))], None,
                   loaded.engine.(metadata := metadata))
  }

  /** `UnloadModel`. */
  function UnloadModel(e: Engine, body: Json): (r: Effect)
    ensures r.Threw? <==> Member(body, "model").NotAnObject? || (Member(body, "model").Present? && RequestedModel(body).None?)
    ensures r.Returned? ==> |r.replies| == 1 && r.sent.None?
    ensures Member(body, "model").Absent? ==>
              r == Returned([ErrorReply(BadRequest, false, MissingModelField)], None, e)
    ensures RequestedModel(body).Some? ==>
              var model := RequestedModel(body).value;
              && r.Returned?
              && r.replies == [SuccessReply(Object1("status", JString(UnloadedStatus)))]
              && r.engine.models.Keys == e.models.Keys - {model}
              && (forall other :: other != model ==> GetModelConfig(r.engine, other) == GetModelConfig(e, other))
              && r.engine.authHeader == e.authHeader && r.engine.metadata == e.metadata
    ensures r.Returned? && Valid(e) ==> Valid(r.engine)
  {
    match Member(body, "model")
    case NotAnObject => Threw
    case Absent => Returned([ErrorReply(BadRequest, false, MissingModelField)], None, e)
    case Present(v) =>
      match AsString(v)
      case None => Threw
      case Some(model) =>
        Returned([SuccessReply(Object1("status", JString(UnloadedStatus)))], None, EraseModel(e, model))
  }

  /** `GetModelStatus`. The errors come with a null status. The configured url
      is never assigned in the source, so `model_data` is always empty. */
  function GetModelStatus(e: Engine, body: Json): (r: Effect)
    ensures r.Returned? ==> r.engine == e && r.sent.None? && |r.replies| == 1
    ensures r.Threw? <==> Member(body, "model").NotAnObject? || (Member(body, "model").Present? && RequestedModel(body).None?)
    ensures Member(body, "model").Absent? ==> r.replies == [Reply(None, ErrorBody(MissingModelField))]
    ensures RequestedModel(body).Some? && RequestedModel(body).value !in e.models ==>
              r.replies == [Reply(None, ErrorBody(NotFoundPrefix + RequestedModel(body).value))]
    ensures RequestedModel(body).Some? && RequestedModel(body).value in e.models ==>
              var reply := r.replies[0];
              && Finishes(reply, false, OK) && !reply.status.value.isStream
              && reply.payload.JObject?
              && reply.payload.fields.Keys == {"model", "model_loaded", "model_data"}
              && reply.payload.fields["model"] == JString(RequestedModel(body).value)
              && reply.payload.fields["model_loaded"] == JBool(e.models[RequestedModel(body).value].isLoaded)
              && reply.payload.fields["model_data"] == JString("")
  {
    match Member(body, "model")
    case NotAnObject => Threw
    case Absent => Returned([Reply(None, ErrorBody(MissingModelField))], None, e)
    case Present(v) =>
      match AsString(v)
      case None => Threw
      case Some(model) =>
        match GetModelConfig(e, model)
        case None => Returned([Reply(None, ErrorBody(NotFoundPrefix + model))], None, e)
        case Some(config) =>
          var status := JObject(map["model" := JString(model), "model_loaded" := JBool(config.isLoaded),
                                    "model_data" := JString("")]);
          Returned([SuccessReply(status)], None, e)
  }

  /** `metadata_["get_models_url"].asString()`; None where jsoncpp throws. */
  function ModelsUrl(metadata: Json): Option<string> {
    match Member(metadata, "get_models_url")
    case NotAnObject => None
    case Absent => Some("")
    case Present(v) => AsString(v)
  }

  /** `GetModels`: one GET to the url of the last load's metadata, classified
      like the synchronous chat path. */
  function GetModels(e: Engine, codec: Codec, net: Network): (r: Effect)
    ensures r.Threw? <==> net.initOk && ModelsUrl(e.metadata).None?
    ensures r.Returned? ==> r.engine == e && |r.replies| == 1
    ensures r.Returned? ==> r.replies[0].status.Some? && r.replies[0].status.value.isDone
                            && !r.replies[0].status.value.isStream
    ensures !net.initOk ==> r == Returned([ErrorReply(BadRequest, false, CurlInitError)], None, e)
    ensures r.Returned? && net.initOk ==>
              r.sent == Some(Request(Get, ModelsUrl(e.metadata).value, [e.authHeader, ContentTypeHeader]))
    ensures r.Returned? && r.sent.Some? ==>
              var fetched := net.fetch(r.sent.value);
              && (fetched.Err? ==> r.replies[0] == ErrorReply(BadRequest, false, fetched.error))
              && (fetched.Ok? && codec.parse(fetched.value).None? ==>
                    r.replies[0] == ErrorReply(InternalServerError, false, ParseFailure))
              && (fetched.Ok? && codec.parse(fetched.value).Some? ==>
                    Finishes(r.replies[0], false, OK) && r.replies[0].payload == codec.parse(fetched.value).value)
  {
    if !net.initOk then Returned([ErrorReply(BadRequest, false, CurlInitError)], None, e)
    else match ModelsUrl(e.metadata)
      case None => Threw
      case Some(url) =>
        var request := Request(Get, url, [e.authHeader, ContentTypeHeader]);
        var reply :=
          match Received(net.fetch(request), codec)
          case Err(failure) => failure
          case Ok(j) => SuccessReply(j);
        Returned([reply], Some(request), e)
  }

  /** The operations this engine reports as supported. */
  const SupportedOperations: set<string> :=
    {"HandleChatCompletion", "LoadModel", "UnloadModel", "GetModelStatus", "GetModels",
     "SetFileLogger", "SetLogLevel"}

  /** `IsSupported`. */
  function IsSupported(f: string): (r: bool)
    ensures r <==> f in SupportedOperations
    ensures f == "HandleEmbedding" ==> !r
  {
    f == "HandleChatCompletion" || f == "LoadModel" || f == "UnloadModel"
    || f == "GetModelStatus" || f == "GetModels" || f == "SetFileLogger" || f == "SetLogLevel"
  }
}
