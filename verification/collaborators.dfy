/** The engine's external collaborators, as values the model is given rather
    than code it runs: the JSON and template libraries, and the HTTP
    transport. Each may fail, and the engine's behaviour is stated for every
    possible answer. */
module Collaborators {
  import opened Wrappers
  import opened JsonValue
  import opened Envelope

  /** The JSON and template libraries.
      - `render`: `TemplateRenderer::render(template, data)`; Err when it throws.
      - `parse`: `Json::Reader::parse`; None when the text is not JSON.
      - `styled`: `Json::Value::toStyledString`. */
  datatype Codec = Codec(
    render: (string, Json) -> Result<string, string>,
    parse: string -> Option<Json>,
    styled: Json -> string)

  /** How a request is sent: a plain GET, a buffered POST, or a POST whose
      response is streamed through the callback. */
  datatype Method = Get | Post(body: string) | PostStream(streamBody: string)

  /** One outbound HTTP request. */
  datatype Request = Request(verb: Method, url: string, headers: seq<string>)

  /** What a streaming transfer delivers: the replies its write callback
      passed on, in arrival order, and the curl error message if the transfer
      failed. */
  datatype Streamed = Streamed(delivered: seq<Reply>, failure: Option<string>)

  /** The curl transport.
      - `initOk`: `curl_easy_init` returns a handle.
      - `fetch`: a buffered transfer, answering the body or the curl error message.
      - `stream`: a streamed transfer. */
  datatype Network = Network(
    initOk: bool,
    fetch: Request -> Result<string, string>,
    stream: Request -> Streamed)

  /** The text printed for a value parses back to the same value: the
      round trip the JSON library promises. */
  predicate ParsesBack(codec: Codec, j: Json) {
    codec.parse(codec.styled(j)) == Some(j)
  }
}
