/**
 * The request and the response as plain values. URL parsing, the body
 * reader and the runtime's Request/Response objects are replaced by the
 * parts of them the handlers look at.
 */
module Http {
  import opened Wrappers
  import opened Json

  /** A value thrown in JavaScript: an `Error` (which has a message) or anything else. */
  datatype Thrown = ErrorObject(message: string) | NonError

  /** `e instanceof Error ? e.message : fallback`. */
  function ThrownMessage(e: Thrown, fallback: string): string
  {
    match e
    case ErrorObject(msg) => msg
    case NonError => fallback
  }

  /** What `request.json()` does with the body: a parsed value, or the error it throws. */
  datatype BodyParse = Parsed(value: Value) | Malformed(error: Thrown)

  /**
   * A request: its method (`verb`), the URL's path, the `id` query parameter
   * (`searchParams.get('id')`, absent when `has('id')` is false), the
   * `Origin` header (absent when `headers.get('Origin')` is null) and the
   * outcome of reading its body as JSON.
   */
  datatype Request = Request(
    verb: string,
    path: string,
    idParam: Option<string>,
    origin: Option<string>,
    body: BodyParse)

  datatype Body = TextBody(text: string) | JsonBody(value: Value)

  /** A response: status, body and the header map. */
  datatype Reply = Reply(status: int, body: Body, headers: map<string, string>)

  /** The value of an async function: the response it returns, or what it throws. */
  datatype Completion = Returned(reply: Reply) | Threw(error: Thrown)

  const JsonHeaders: map<string, string> := map["Content-Type" := "application/json"]

  /** The body `{ "message": message }`. */
  function MessageBody(message: string): Body
  {
    JsonBody(Obj(map["message" := Str(message)]))
  }

  /** A JSON response whose body is `{ "message": message }`. */
  function JsonMessage(status: int, message: string): Reply
  {
    Reply(status, MessageBody(message), JsonHeaders)
  }

  /** A plain-text response carrying no headers of its own. */
  function TextReply(status: int, text: string): Reply
  {
    Reply(status, TextBody(text), map[])
  }
}
