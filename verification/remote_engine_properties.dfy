/** Properties of the remote engine that relate several operations, or that
    state an operation's outcome in terms of the raw configuration document
    and the collaborators' answers. */
module RemoteEngineProperties {
  import opened Wrappers
  import opened JsonValue
  import opened Registry
  import opened Envelope
  import opened Collaborators
  import opened RemoteEngine

  /** The text a request carries, whichever way it is sent. */
  function Payload(verb: Method): string {
    match verb
    case Get => ""
    case Post(body) => body
    case PostStream(body) => body
  }

  /** The `chat_completions.template` entry of a transform section is present
      in the document and is a scalar holding `template`. */
  predicate HasTemplate(section: Option<Yaml>, template: string) {
    && section.Some? && section.value.Mapping?
    && "chat_completions" in section.value.entries
    && section.value.entries["chat_completions"].Mapping?
    && "template" in section.value.entries["chat_completions"].entries
    && section.value.entries["chat_completions"].entries["template"] == Scalar(template)
  }

  /** The section yields no usable template: a section, its
      `chat_completions` node or its `template` entry is missing, or the
      template is not a scalar. */
  predicate LacksTemplate(section: Option<Yaml>) {
    || section.None? || !section.value.Mapping?
    || "chat_completions" !in section.value.entries
    || !section.value.entries["chat_completions"].Mapping?
    || "template" !in section.value.entries["chat_completions"].entries
    || !section.value.entries["chat_completions"].entries["template"].Scalar?
  }

  // ---------------------------------------------------------------------------
  // The transform step

  /** A usable template, a non-null input and a successful render: the
      rendered text is what goes on. */
  lemma TransformUsesRenderedTemplate(section: Option<Yaml>, data: Json, codec: Codec, template: string)
    requires HasTemplate(section, template) && !data.JNull? && codec.render(template, data).Ok?
    ensures Transform(section, data, codec) == codec.render(template, data).value
  {
  }

  /** Any failure along the way (no usable template, a null input, a render
      error) sends the styled input on instead. */
  lemma TransformFallsBackToStyledInput(section: Option<Yaml>, data: Json, codec: Codec)
    requires || LacksTemplate(section) || data.JNull?
             || (exists t :: HasTemplate(section, t) && codec.render(t, data).Err?)
    ensures Transform(section, data, codec) == codec.styled(data)
  {
  }

  // ---------------------------------------------------------------------------
  // The chat-completion request

  /** A body that names a loaded model, with a valid `stream` flag. */
  predicate Dispatched(e: Engine, body: Json, model: string) {
    RequestedModel(body) == Some(model) && Serves(e, model) && StreamRequested(body).Some?
  }

  /** With a usable request template that renders, the provider receives the
      rendered text, on either path. */
  lemma OutboundBodyIsRenderedTemplate(e: Engine, body: Json, codec: Codec, net: Network, model: string, template: string)
    requires Dispatched(e, body, model)
    requires HasTemplate(e.models[model].transformReq, template) && codec.render(template, body).Ok?
    ensures var r := HandleChatCompletion(e, body, codec, net);
            r.Returned? && r.sent.Some? ==> Payload(r.sent.value.verb) == codec.render(template, body).value
  {
    assert body.JObject?;
  }

  /** Without a usable request template the provider receives the inbound
      body as styled JSON. */
  lemma OutboundBodyIsStyledOriginal(e: Engine, body: Json, codec: Codec, net: Network, model: string)
    requires Dispatched(e, body, model) && LacksTemplate(e.models[model].transformReq)
    ensures var r := HandleChatCompletion(e, body, codec, net);
            r.Returned? && r.sent.Some? ==> Payload(r.sent.value.verb) == codec.styled(body)
  {
  }

  /** The streaming path is taken exactly when `stream` is present and
      reads as true. */
  lemma StreamingIffStreamFlag(e: Engine, body: Json, codec: Codec, net: Network)
    ensures var r := HandleChatCompletion(e, body, codec, net);
            r.Returned? && r.sent.Some? ==>
              (r.sent.value.verb.PostStream? <==>
                 Member(body, "stream").Present? && AsBool(Member(body, "stream").value) == Some(true))
  {
  }

  // ---------------------------------------------------------------------------
  // The synchronous response

  /** With no response template, the provider's parsed body reaches the
      caller unchanged, as long as printing and reparsing it is lossless. */
  lemma ResponsePassesThroughWithoutTemplate(e: Engine, body: Json, codec: Codec, net: Network, text: string, j: Json)
    requires StreamRequested(body) == Some(false)
    requires RequestedModel(body).Some? && RequestedModel(body).value in e.models
    requires LacksTemplate(e.models[RequestedModel(body).value].transformResp)
    requires codec.parse(text) == Some(j) && ParsesBack(codec, j)
    ensures var r := HandleChatCompletion(e, body, codec, net);
            r.Returned? && r.sent.Some? && net.fetch(r.sent.value) == Ok(text) ==> r.replies == [SuccessReply(j)]
  {
  }

  /** With a response template that renders to JSON, the caller receives that
      JSON. */
  lemma ResponseRenderedThroughTemplate(e: Engine, body: Json, codec: Codec, net: Network,
                                        text: string, j: Json, template: string, k: Json)
    requires StreamRequested(body) == Some(false)
    requires RequestedModel(body).Some? && RequestedModel(body).value in e.models
    requires HasTemplate(e.models[RequestedModel(body).value].transformResp, template)
    requires codec.parse(text) == Some(j) && !j.JNull?
    requires codec.render(template, j).Ok? && codec.parse(codec.render(template, j).value) == Some(k)
    ensures var r := HandleChatCompletion(e, body, codec, net);
            r.Returned? && r.sent.Some? && net.fetch(r.sent.value) == Ok(text) ==> r.replies == [SuccessReply(k)]
  {
  }

  /** Every synchronous outcome is one finished, non-streaming envelope:
      200 without error, or 400 / 500 with one. */
  lemma SyncRepliesOnceWithKnownCode(e: Engine, body: Json, codec: Codec, net: Network)
    requires StreamRequested(body) == Some(false)
    ensures var r := HandleChatCompletion(e, body, codec, net);
            r.Returned? ==>
              && |r.replies| == 1
              && (|| Finishes(r.replies[0], false, OK)
                  || Finishes(r.replies[0], true, BadRequest)
                  || Finishes(r.replies[0], true, InternalServerError))
              && !r.replies[0].status.value.isStream
  {
    var r := HandleChatCompletion(e, body, codec, net);
    if r.Returned? && r.sent.Some? {
      var model := RequestedModel(body).value;
      var config := e.models[model];
      var outbound := Transform(config.transformReq, body, codec);
      assert r == SyncCompletion(e, config, outbound, codec, net);
    }
  }

  // ---------------------------------------------------------------------------
  // The streaming response

  /** With the corrected leg, when curl cannot start a streamed transfer the
      caller still receives one terminal error envelope. */
  lemma StreamInitFailureIsReported(e: Engine, body: Json, codec: Codec, net: Network, model: string)
    requires Dispatched(e, body, model) && StreamRequested(body) == Some(true) && !net.initOk
    ensures var r := HandleChatCompletionCorrected(e, body, codec, net);
            && r == Returned([ErrorReply(InternalServerError, true, CurlInitError)], None, e)
            && Finishes(r.replies[0], true, InternalServerError) && r.replies[0].status.value.isStream
  {
  }

  /** A streamed transfer forwards what the provider delivered; it adds one
      terminal error envelope when the transfer fails and nothing of its own
      when it succeeds. Once curl starts, both legs behave alike. */
  lemma StreamForwardsDeliveredReplies(e: Engine, body: Json, codec: Codec, net: Network, model: string)
    requires Dispatched(e, body, model) && StreamRequested(body) == Some(true) && net.initOk
    requires UrlOf(e.models[model].transformReq).Some?
    ensures var r := HandleChatCompletion(e, body, codec, net);
            && r == HandleChatCompletionCorrected(e, body, codec, net)
            && r.Returned? && r.sent.Some? && r.sent.value.verb.PostStream?
            && var s := net.stream(r.sent.value);
               && (s.failure.None? ==> r.replies == s.delivered)
               && (s.failure.Some? ==>
                     && r.replies == s.delivered + [ErrorReply(InternalServerError, true, s.failure.value)]
                     && Finishes(r.replies[|r.replies| - 1], true, InternalServerError))
  {
    var r := HandleChatCompletion(e, body, codec, net);
    var s := net.stream(r.sent.value);
    if s.failure.Some? {
      assert r.replies == r.replies[..|s.delivered|] + [r.replies[|s.delivered|]];
    }
  }

  /** As written, a streamed call for a served model whose `curl_easy_init`
      fails gets no reply and sends nothing, while the corrected handler
      ends the call with one terminal error envelope. */
  lemma AsWrittenInitFailureIsSilent(e: Engine, body: Json, codec: Codec, net: Network, model: string)
    requires Dispatched(e, body, model) && StreamRequested(body) == Some(true) && !net.initOk
    ensures HandleChatCompletion(e, body, codec, net) == Returned([], None, e)
    ensures var fixed := HandleChatCompletionCorrected(e, body, codec, net);
            fixed.Returned? && |fixed.replies| == 1 && Finishes(fixed.replies[0], true, InternalServerError)
  {
  }

  // ---------------------------------------------------------------------------
  // Sequences of calls

  /** One call to the engine, with the collaborators it meets. */
  datatype Command =
    | Load(loadBody: Json, files: string -> Option<Yaml>)
    | Unload(unloadBody: Json)
    | Chat(chatBody: Json, chatCodec: Codec, chatNet: Network)
    | ModelStatus(statusBody: Json)
    | ListModels(listCodec: Codec, listNet: Network)

  /** The effect of one call. */
  function Perform(e: Engine, c: Command): Effect {
    match c
    case Load(body, files) => LoadModel(e, body, files)
    case Unload(body) => UnloadModel(e, body)
    case Chat(body, codec, net) => HandleChatCompletion(e, body, codec, net)
    case ModelStatus(body) => GetModelStatus(e, body)
    case ListModels(codec, net) => GetModels(e, codec, net)
  }

  /** The state after one call; a call that throws changes nothing. */
  function Apply(e: Engine, c: Command): Engine {
    match Perform(e, c)
    case Returned(_, _, next) => next
    case Threw => e
  }

  /** The state after a sequence of calls. */
  function Run(e: Engine, cs: seq<Command>): Engine
    decreases |cs|
  {
    if cs == [] then e else Run(Apply(e, cs[0]), cs[1..])
  }

  /** One call keeps every entry filed under its own name and loaded. */
  lemma ApplyPreservesValid(e: Engine, c: Command)
    requires Valid(e)
    ensures Valid(Apply(e, c))
  {
  }

  /** Any sequence of calls from a valid state keeps it valid. */
  lemma {:induction false} RunPreservesValid(e: Engine, cs: seq<Command>)
    requires Valid(e)
    ensures Valid(Run(e, cs))
    decreases |cs|
  {
    if cs != [] {
      ApplyPreservesValid(e, cs[0]);
      RunPreservesValid(Apply(e, cs[0]), cs[1..]);
    }
  }

  /** Whatever is loaded or unloaded, the registry never holds an entry
      that chat completion would refuse as "not loaded". */
  lemma RegisteredModelsAreServed(cs: seq<Command>, model: string)
    requires model in Run(Initial, cs).models
    ensures Serves(Run(Initial, cs), model)
  {
    InitialIsValid();
    RunPreservesValid(Initial, cs);
  }

  // ---------------------------------------------------------------------------
  // Load, unload and chat together

  /** After a load whose file is read and holds a scalar
      `api_key_template`, chat completion accepts the model: it no longer
      answers "not loaded". */
  lemma LoadedModelIsServed(e: Engine, body: Json, files: string -> Option<Yaml>, a: LoadArgs, doc: Yaml)
    requires LoadArguments(body) == Some(a) && files(a.modelPath) == Some(doc)
    requires doc.Mapping? && "api_key_template" in doc.entries && doc.entries["api_key_template"].Scalar?
    ensures var r := LoadModel(e, body, files);
            r.Returned? && Serves(r.engine, a.model)
  {
  }

  /** After an unload, chat completion for that model is refused with 400,
      and nothing is sent. */
  lemma UnloadedModelIsRejected(e: Engine, unloadBody: Json, chatBody: Json, codec: Codec, net: Network)
    requires RequestedModel(unloadBody).Some? && RequestedModel(chatBody) == RequestedModel(unloadBody)
    ensures var after := UnloadModel(e, unloadBody).engine;
            var model := RequestedModel(chatBody).value;
            HandleChatCompletion(after, chatBody, codec, net)
              == Returned([ErrorReply(BadRequest, false, NotLoadedPrefix + model)], None, after)
  {
  }

  /** After an unload, the status query reports the model as not found. */
  lemma UnloadedModelHasNoStatus(e: Engine, body: Json)
    requires RequestedModel(body).Some?
    ensures var after := UnloadModel(e, body).engine;
            GetModelStatus(after, body).replies == [Reply(None, ErrorBody(NotFoundPrefix + RequestedModel(body).value))]
  {
  }
}
