# Remote engine and thread messages, modelled in Dafny

This project models two parts of the cortex.cpp engine.

- **The remote engine** (`engine/extensions/remote-engine/remote_engine.cc`). It forwards OpenAI-style chat completions to a hosted provider that a YAML configuration describes. The model covers:
  - the model registry (`LoadModelConfig`, `GetModelConfig`, the `models_` map, the `api_key_template_` header and the `metadata_` value);
  - the `LoadModel` and `UnloadModel` handlers;
  - the chat-completion pipeline, from validation and model lookup through the request template, the synchronous and streaming dispatch and the response template to the reply classification;
  - `GetModels`, `GetModelStatus` and `IsSupported`.
- **The thread-message entities** (`engine/common/message.h`). This covers the status and role names and the `ToJson` serialiser of every entity. Each serialiser has a decoder, and the pair is proved lossless.

Every handler is a pure function of three things:

- the engine state;
- the inbound JSON body;
- its collaborators, passed in as values:
  - a `Codec` for the inja renderer, `Json::Reader::parse` and `toStyledString`;
  - a `Network` for curl: whether `curl_easy_init` succeeds, what a buffered transfer answers, and what a streamed transfer delivers;
  - a `files` map for `YAML::LoadFile`.

A handler returns an `Effect`. That is either `Returned(replies, sent, engine)` or `Threw`:

- `replies` are the callback invocations in order;
- `sent` is the one HTTP request, if any;
- `engine` is the new state;
- `Threw` stands for a jsoncpp or yaml-cpp exception that escapes the handler. In every handler that exception is raised before any callback, request or state change.

JSON is a datatype, and the jsoncpp coercions the source relies on are modelled exactly:

- `isMember` and `operator[]` throw on a value that is neither an object nor null;
- `asString` throws on arrays and objects;
- `asBool` throws on strings, arrays and objects.

`HandleChatCompletion` follows the source's streaming leg. `HandleChatCompletionCorrected` runs the corrected leg described under "## Findings"; the two differ only when a streamed call cannot make a curl handle.

The registry invariant `Registry.Valid` says every entry is filed under its own name and marked loaded. It holds initially and after every sequence of calls.

Modules: `Wrappers`, `JsonValue`, `ApiKey`, `Registry`, `Envelope`, `Collaborators`, `RemoteEngine`, `RemoteEngineProperties`, `ThreadMessage`.

## Model

| member | source | states |
|---|---|---|
| `ApiKey.ReplaceApiKeyPlaceholder` | engine/extensions/remote-engine/remote_engine.cc:75-86 | the leftmost `{{api_key}}` is replaced by the key and the rest of the template is kept; a template with no placeholder comes back unchanged |
| `ApiKey.OnlyFirstPlaceholderReplaced` | engine/extensions/remote-engine/remote_engine.cc:79-83 | only the first placeholder is substituted: a later placeholder is still there in the result, shifted by the length difference |
| `ApiKey.ReplaceByPlaceholderIsIdentity` | engine/extensions/remote-engine/remote_engine.cc:79-83 | substituting the placeholder for itself changes no template |
| `ApiKey.FindFrom` | engine/extensions/remote-engine/remote_engine.cc:79 | `std::string::find` finds the leftmost occurrence at or after the start position, or reports that there is none |
| `Registry.Child` | engine/extensions/remote-engine/remote_engine.cc:204-215 | yaml-cpp `node[key]` tested with `!`: a child is present exactly when the node is a mapping holding the key, and then it is that entry |
| `Registry.AsText` | engine/extensions/remote-engine/remote_engine.cc:409-416 | `as<std::string>()` succeeds exactly on a scalar, giving its text; any other node throws `BadConversion` |
| `Registry.GetModelConfig` | engine/extensions/remote-engine/remote_engine.cc:102-110 | a configuration is found iff the name is registered, and it is the registered one |
| `Registry.AuthTemplate` | engine/extensions/remote-engine/remote_engine.cc:205-215 | the header template exists iff the document is a mapping whose `api_key_template` is a scalar, and it is that scalar's text |
| `Registry.LoadModelConfig` | engine/extensions/remote-engine/remote_engine.cc:195-242 | it succeeds iff the file was read and has a string `api_key_template`; a failure changes nothing; a success adds exactly that name, with the key, both transform sections and the loaded flag, leaves every other name alone, renders the header from the template and keeps the registry invariant |
| `Registry.EraseModel` | engine/extensions/remote-engine/remote_engine.cc:344-347 | only that name leaves the registry; the header, the metadata and every other entry are unchanged |
| `Registry.GetAfterLoad` | engine/extensions/remote-engine/remote_engine.cc:228-234 | right after a successful load the name is found, loaded, with the key given |
| `Registry.GetAfterErase` | engine/extensions/remote-engine/remote_engine.cc:346 | after an erase the name is not found |
| `Registry.LoadTwiceLastWins` | engine/extensions/remote-engine/remote_engine.cc:233 | loading a name twice leaves the state of the second load alone |
| `Envelope.StatusJson` | engine/extensions/remote-engine/remote_engine.cc:59-63 | the status object has exactly `is_done`, `has_error`, `is_stream` and `status_code`, and reads back to the same status |
| `RemoteEngine.ChatCompletion` | engine/extensions/remote-engine/remote_engine.cc:359-433 | for either streaming leg: a body without `model` gets 400 before any lookup; a name that is absent or not loaded gets 400 "Model not found or not loaded: " plus the name; a request is sent only for a served model and goes out streamed iff `stream` reads true, carrying the transformed body; a non-streaming call answers exactly once; the registry never changes |
| `RemoteEngine.HandleChatCompletion` | engine/extensions/remote-engine/remote_engine.cc:359-433 | as the source has it: a streamed call for a served model gets no reply and sends nothing when curl cannot make a handle, and is otherwise the streamed transfer; a non-streaming call answers exactly once; the registry never changes |
| `RemoteEngine.HandleChatCompletionCorrected` | engine/extensions/remote-engine/remote_engine.cc:359-433 | with the corrected leg: a streamed call for a served model whose curl handle cannot be made gets one terminal 500 streaming envelope, and is otherwise the streamed transfer |
| `RemoteEngine.SyncCompletion` | engine/extensions/remote-engine/remote_engine.cc:436-526 | a curl init failure gives 400; otherwise one POST to the configured url; a transport error gives 400 with curl's message; an unparseable body gives 500; a parsed body goes through the response transform, and a failed re-parse gives 500 while a successful one gives 200 with the parsed value |
| `RemoteEngine.StreamTransfer` | engine/extensions/remote-engine/remote_engine.cc:27-73 | one streamed POST with the event-stream headers; the replies are what the provider delivered, plus one terminal 500 envelope with `is_stream` when the transfer fails |
| `RemoteEngine.StreamCompletionAsWritten` | engine/extensions/remote-engine/remote_engine.cc:18-25 | when `curl_easy_init` fails, the streaming leg returns with no reply and sends nothing |
| `RemoteEngine.StreamCompletion` | engine/extensions/remote-engine/remote_engine.cc:14-73 | the corrected streaming leg: a curl init failure ends the call with one terminal 500 streaming envelope; otherwise it is the streamed transfer |
| `RemoteEngine.LoadModel` | engine/extensions/remote-engine/remote_engine.cc:282-325 | a missing field gives 400 and a failed configuration load gives 500, both leaving the state unchanged; a success gives 200 "Model loaded successfully" with the loaded registry and header, and replaces `metadata` only when the body has one; the registry invariant is kept |
| `RemoteEngine.UnloadModel` | engine/extensions/remote-engine/remote_engine.cc:327-357 | a body without `model` gets 400; otherwise the entry is erased, whether or not it existed, and the answer is 200 "Model unloaded successfully" |
| `RemoteEngine.GetModelStatus` | engine/extensions/remote-engine/remote_engine.cc:530-561 | a missing field or an unknown name gets an error with a null status; a known name gets 200 and exactly `model` (the name), `model_loaded` (the entry's flag) and `model_data` (always the empty string) |
| `RemoteEngine.GetModels` | engine/extensions/remote-engine/remote_engine.cc:244-280 | one GET to `metadata.get_models_url` with the header; a transport error gives 400, an unparseable body 500, and otherwise 200 with the parsed body |
| `RemoteEngine.IsSupported` | engine/extensions/remote-engine/remote_engine.cc:570-577 | true exactly for the seven listed operations, so embeddings are not supported |
| `RemoteEngineProperties.TransformUsesRenderedTemplate` | engine/extensions/remote-engine/remote_engine.cc:393-424 | with a scalar `chat_completions.template` in the raw document, a non-null input and a successful render, the rendered text goes on |
| `RemoteEngineProperties.TransformFallsBackToStyledInput` | engine/extensions/remote-engine/remote_engine.cc:425-430 | a missing or non-scalar template, a null input or a render error sends the styled input instead |
| `RemoteEngineProperties.OutboundBodyIsRenderedTemplate` | engine/extensions/remote-engine/remote_engine.cc:390-433 | on either path, the provider receives the rendered request template |
| `RemoteEngineProperties.OutboundBodyIsStyledOriginal` | engine/extensions/remote-engine/remote_engine.cc:425-430 | without a usable request template, the provider receives the styled inbound body |
| `RemoteEngineProperties.StreamingIffStreamFlag` | engine/extensions/remote-engine/remote_engine.cc:388-389 | the request is streamed iff `stream` is present and reads as true |
| `RemoteEngineProperties.ResponsePassesThroughWithoutTemplate` | engine/extensions/remote-engine/remote_engine.cc:464-526 | without a response template, the provider's parsed body reaches the caller unchanged with 200 |
| `RemoteEngineProperties.ResponseRenderedThroughTemplate` | engine/extensions/remote-engine/remote_engine.cc:464-526 | with a response template that renders to JSON, the caller receives that JSON with 200 |
| `RemoteEngineProperties.SyncRepliesOnceWithKnownCode` | engine/extensions/remote-engine/remote_engine.cc:434-527 | a synchronous call answers exactly once, finished and not streaming, with 200 and no error or with 400 or 500 and an error |
| `RemoteEngineProperties.StreamInitFailureIsReported` | engine/extensions/remote-engine/remote_engine.cc:18-25 | with the corrected handler, a streamed call whose curl handle cannot be made ends with one terminal 500 streaming envelope |
| `RemoteEngineProperties.StreamForwardsDeliveredReplies` | engine/extensions/remote-engine/remote_engine.cc:53-68 | a streamed call forwards what the provider delivered; it appends one terminal 500 envelope on transfer failure and adds nothing of its own on success; once curl starts, the as-written and corrected handlers agree |
| `RemoteEngineProperties.AsWrittenInitFailureIsSilent` | engine/extensions/remote-engine/remote_engine.cc:18-25 | for a streamed call to a served model while curl cannot make a handle, the handler as written returns no reply and sends nothing, while the corrected handler ends the call with one terminal 500 |
| `RemoteEngineProperties.ApplyPreservesValid` | engine/extensions/remote-engine/remote_engine.cc:228-234 | every handler keeps each registry entry filed under its own name and loaded |
| `RemoteEngineProperties.RunPreservesValid` | engine/extensions/remote-engine/remote_engine.cc:228-234 | any sequence of handler calls from a valid state keeps the registry valid |
| `RemoteEngineProperties.RegisteredModelsAreServed` | engine/extensions/remote-engine/remote_engine.cc:375-377 | starting from a fresh engine, any registered name is one that chat completion accepts, whatever calls came before |
| `RemoteEngineProperties.LoadedModelIsServed` | engine/extensions/remote-engine/remote_engine.cc:298-302 | after `LoadModel` with all three fields, a readable file and a scalar `api_key_template`, chat completion serves that model |
| `RemoteEngineProperties.UnloadedModelIsRejected` | engine/extensions/remote-engine/remote_engine.cc:342-387 | after `UnloadModel`, chat completion for that model answers 400 "Model not found or not loaded" and sends nothing |
| `RemoteEngineProperties.UnloadedModelHasNoStatus` | engine/extensions/remote-engine/remote_engine.cc:540-548 | after `UnloadModel`, the status query answers "Model not found: " plus the name |
| `JsonValue.Member` | engine/extensions/remote-engine/remote_engine.cc:362-374 | a member is present iff the value is an object holding the key; any kind other than object or null throws |
| `JsonValue.AsString` | engine/extensions/remote-engine/remote_engine.cc:298 | `asString` throws exactly on arrays and objects; a string reads as itself and null reads as the empty string |
| `JsonValue.AsBool` | engine/extensions/remote-engine/remote_engine.cc:388-389 | `asBool` throws exactly on strings, arrays and objects; null reads false and a bool reads as itself |
| `JsonValue.AsStringDistinguishesUnsigned` | engine/extensions/remote-engine/remote_engine.cc:298 | `asString` reads distinct unsigned (`uintValue`) numbers as distinct strings |
| `JsonValue.AsStringDistinguishesIntegers` | engine/extensions/remote-engine/remote_engine.cc:298 | `asString` reads distinct signed (`intValue`) numbers as distinct strings; a negative number never prints like a non-negative one |
| `JsonValue.AsStringIntegerKindsAgree` | engine/extensions/remote-engine/remote_engine.cc:298 | a signed and an unsigned number read as the same string exactly when they are the same integer, so an integer `model` names one registry entry per integer value whichever kind jsoncpp stores it as; reals are not covered (`5` and `5.0` print differently and name two entries) |
| `JsonValue.DecodeAllElements` | engine/common/message.h:326-330 | an array built by appending each element's JSON decodes back to the elements in order, when each element does |
| `ThreadMessage.StatusToString` | engine/common/message.h:13-25 | each status has its own name, and the name reads back to the status |
| `ThreadMessage.StatusToStringInjective` | engine/common/message.h:13-25 | distinct statuses have distinct names |
| `ThreadMessage.RoleToString` | engine/common/message.h:42-52 | each role has its own name, and the name reads back to the role |
| `ThreadMessage.IncompleteDetailToJson` | engine/common/message.h:32-36 | exactly the member `reason`, and it reads back |
| `ThreadMessage.ImageFileContentToJson` | engine/common/message.h:75-81 | exactly `type` ("image_file") and `image_file`, which holds the file id and the detail; it reads back |
| `ThreadMessage.ImageUrlContentToJson` | engine/common/message.h:100-106 | exactly `type` (as constructed) and `image_url`, which holds the url and the detail; it reads back |
| `ThreadMessage.RefusalToJson` | engine/common/message.h:206-218 | exactly `type` ("refusal") and `refusal`; it reads back |
| `ThreadMessage.ContentToJson` | engine/common/message.h:54-58 | a content part is written with its own type and reads back to the same part |
| `ThreadMessage.AnnotationToJson` | engine/common/message.h:133-181 | exactly `text`, `type`, `start_index`, `end_index` and a nested member named after the type ("file_citation" or "file_path") that holds the file id; it reads back |
| `ThreadMessage.TextToJson` | engine/common/message.h:190-199 | `value` and an `annotations` array holding every annotation's JSON in order |
| `ThreadMessage.TextRoundTrip` | engine/common/message.h:190-199 | a text and its annotations read back unchanged |
| `ThreadMessage.AttachmentToJson` | engine/common/message.h:246-257 | `file_id` and a `tools` array of `{"type": ...}` objects, one per tool, in order |
| `ThreadMessage.AttachmentRoundTrip` | engine/common/message.h:246-257 | an attachment and its tools read back unchanged |
| `ThreadMessage.StandardToolsWritten` | engine/common/message.h:228-257 | an attachment to the `CodeInterpreter` and `FileSearch` tools writes `{"type": "code_interpreter"}` then `{"type": "file_search"}` and reads back with the two tools kept apart |
| `ThreadMessage.AttachmentsRoundTrip` | engine/common/message.h:336-342 | the attachments array, built by appending each attachment's JSON, reads back to the attachments in order |
| `ThreadMessage.MetadataValueToJson` | engine/common/message.h:347-355 | each variant is written as the JSON kind of the same alternative, and reads back |
| `ThreadMessage.MetadataToJson` | engine/common/message.h:345-357 | the metadata object has exactly the map's keys, and each value reads back to its variant |
| `ThreadMessage.MetadataRoundTrip` | engine/common/message.h:345-357 | a metadata map reads back unchanged |
| `ThreadMessage.KeyNameInjective` | engine/common/message.h:308-357 | the fourteen member names are pairwise distinct, so no assignment overwrites another |
| `ThreadMessage.AssignMembers` | engine/common/message.h:305-360 | assigning members in turn yields an object with a member under a name exactly when that member is written, holding the written value, and with no name that is not one of the assigned members' |
| `ThreadMessage.MessageToJson` | engine/common/message.h:305-360 | a member appears under its name exactly when it is written (required members always, optional ones when set) and holds the value written for it; the object has no other member |
| `ThreadMessage.MessageToJsonSerialises` | engine/common/message.h:305-360 | the serialised message holds, under every member's name, exactly what is written for that member, and nothing else |
| `ThreadMessage.SerialisedFormIsUnique` | engine/common/message.h:305-360 | the members as written and nothing else determine the object: two objects that both serialise a message are equal |
| `ThreadMessage.RequiredMembersPresent` | engine/common/message.h:308-357 | `id`, `object`, `created_at`, `thread_id`, `status`, `role`, `content` and `metadata` are always present |
| `ThreadMessage.LifecycleMembersPresent` | engine/common/message.h:314-322 | `incomplete_details`, `completed_at` and `incomplete_at` are present if and only if the optional is set |
| `ThreadMessage.OriginMembersPresent` | engine/common/message.h:331-343 | `assistant_id`, `run_id` and `attachments` are present if and only if the optional is set |
| `ThreadMessage.MessageMembersPresent` | engine/common/message.h:305-360 | the serialiser's own output has every required member, and each optional member if and only if it is set |
| `ThreadMessage.BodyMembersWritten` | engine/common/message.h:312-357 | `status` and `role` hold their names; `content` holds one element per part, in order, each that part's JSON; `metadata` has the map's keys |
| `ThreadMessage.IdentityMembersDecode` | engine/common/message.h:308-311 | `id`, `object`, `created_at` and `thread_id` read back to the message's values |
| `ThreadMessage.StatusAndRoleDecode` | engine/common/message.h:312-324 | `status` and `role` read back as the status's and the role's names |
| `ThreadMessage.LifecycleMembersDecode` | engine/common/message.h:314-322 | the three lifecycle optionals read back to the optionals they came from, unset ones as unset |
| `ThreadMessage.AttachmentsMemberDecodes` | engine/common/message.h:336-343 | the `attachments` member reads back to the optional it came from, unset as unset |
| `ThreadMessage.OriginMembersDecode` | engine/common/message.h:331-343 | `assistant_id`, `run_id` and `attachments` read back to the optionals they came from, unset ones as unset |
| `ThreadMessage.ContentAndMetadataDecode` | engine/common/message.h:326-357 | the content array decodes to the parts and the metadata object to the metadata map |
| `ThreadMessage.DecodeSerialised` | engine/common/message.h:305-360 | any object holding each member as written decodes back to the message; names outside the fourteen are not read |
| `ThreadMessage.MessageRoundTrip` | engine/common/message.h:305-360 | a message reads back unchanged from its JSON |

## Left out

- Transport: curl is the `Network` value. The model does not cover the handle options, `curl_global_init` and cleanup, or the header list's memory. It does cover the headers and url of every request.
- `StreamWriteCallback` and the `StreamContext` it fills are declared in `remote_engine.h`, which is not part of this model. The replies a streamed transfer forwards are taken from the `Network` value as they are delivered.
- The inja renderer, the JSON reader and `toStyledString` are the `Codec` value. `TemplateRenderer.cc` is not part of this model. Round-trip facts about them appear only as hypotheses, through `Collaborators.ParsesBack`.
- `YAML::LoadFile` is the `files` map. A file that cannot be read or parsed maps to None. A YAML null node is folded into a scalar, since converting either to a string succeeds.
- Locking (`models_mutex_`) and concurrency: each handler is one atomic step.
- Logging: `LOG_*`, `SetFileLogger`, `SetLogLevel` and the `get_engine` factory only set up logging or construct the engine.
- `HandleEmbedding` is a stub that calls back with two null values. The model records only that `IsSupported` denies it.
- The `method` parameter of `MakeChatCompletionRequest` is always its default "POST" at the one call site. It is modelled as a POST.
- `ModelConfig::url` is never assigned. So `model_data` in the status reply is always the empty string, and the model writes it as such.
- Floating-point numbers are opaque. Only their printed form and whether they are zero or NaN are modelled, because those are all that `asString` and `asBool` observe.
- jsoncpp integers are unbounded here. The 32- and 64-bit ranges are kept only where `message.h` fixes them (`u32`, `u64`).
- `TextContent` declares no `ToJson` of its own, so it stays abstract and is not a content variant. Its inner `Text` and annotations are modelled.
- In `message.h`, content parts and annotations are kept by value in vectors of their abstract bases. The model gives each element its concrete variant and that variant's serialiser, which is what the virtual `ToJson` calls are for.
- The `default:` branches that throw in `StatusToString` and `RoleToString` are unreachable for enum values, so they are not modelled.
- `Message.object` defaults to "thread.message". The model keeps it as an ordinary field.
- The context files (the TypeScript thread use cases, the controllers, the request DTOs, the documentation configuration) are not part of this model.

## Findings

| source | as written | input that shows it | evidently intended | confidence | as-written member | corrected member |
|---|---|---|---|---|---|---|
| engine/extensions/remote-engine/remote_engine.cc:18-25 | when `curl_easy_init` fails on the streaming path, the function returns an error response that `HandleChatCompletion` ignores, and the callback is never invoked | a chat completion with `"stream": true` for a loaded model while curl cannot make a handle | the caller receives a terminal error envelope, as it does for a failed streamed transfer (lines 55-68) and for a curl init failure on the synchronous path | medium; not executed | `RemoteEngine.HandleChatCompletion` (see `RemoteEngineProperties.AsWrittenInitFailureIsSilent`) | `RemoteEngine.HandleChatCompletionCorrected` (see `RemoteEngineProperties.StreamInitFailureIsReported`) |
