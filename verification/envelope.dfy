/** The `(status, payload)` pair every engine operation hands to its callback. */
module Envelope {
  import opened Wrappers
  import opened JsonValue

  const OK: int := 200
  const BadRequest: int := 400
  const InternalServerError: int := 500

  /** The status object `{is_done, has_error, is_stream, status_code}`. */
  datatype Status = Status(isDone: bool, hasError: bool, isStream: bool, statusCode: int)

  /** One callback invocation. `status` is None where the engine passes a
      null `Json::Value()` instead of a status object. */
  datatype Reply = Reply(status: Option<Status>, payload: Json)

  /** The status object as the callback receives it. */
  function StatusJson(s: Status): (r: Json)
    ensures r.JObject? && r.fields.Keys == {"is_done", "has_error", "is_stream", "status_code"}
    ensures StatusFromJson(r) == Some(s)
  {
    JObject(map["is_done" := JBool(s.isDone), "has_error" := JBool(s.hasError),
                "is_stream" := JBool(s.isStream), "status_code" := JInt(s.statusCode)])
  }

  /** Reads a status object back, as a caller of the engine does. */
  function StatusFromJson(j: Json): Option<Status> {
    if j.JObject? && "is_done" in j.fields && "has_error" in j.fields
       && "is_stream" in j.fields && "status_code" in j.fields
       && j.fields["is_done"].JBool? && j.fields["has_error"].JBool?
       && j.fields["is_stream"].JBool? && j.fields["status_code"].JInt?
    then Some(Status(j.fields["is_done"].b, j.fields["has_error"].b,
                     j.fields["is_stream"].b, j.fields["status_code"].i))
    else None
  }

  /** The error payload `{"error": message}`. */
  function ErrorBody(message: string): Json {
    Object1("error", JString(message))
  }

  /** A finished, failed call. */
  function ErrorReply(code: int, isStream: bool, message: string): Reply {
    Reply(Some(Status(true, true, isStream, code)), ErrorBody(message))
  }

  /** A finished, successful, non-streaming call. */
  function SuccessReply(payload: Json): Reply {
    Reply(Some(Status(true, false, false, OK)), payload)
  }

  /** The reply ends the call, reporting `code`, with or without an error. */
  predicate Finishes(reply: Reply, hasError: bool, code: int) {
    reply.status.Some? && reply.status.value.isDone
    && reply.status.value.hasError == hasError && reply.status.value.statusCode == code
  }
}
