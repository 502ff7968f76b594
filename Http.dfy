/**
 * What the chat code sees of HTTP: a fetch that either rejects or yields a
 * status and an optional body, the body read chunk by chunk as already
 * decoded text, and the values thrown along the way. The network itself,
 * headers and the UTF-8 decoder are not modelled.
 */
module Http {
  import opened Wrappers
  import opened JsText

  /** A value thrown inside a send: an `Error` with its message, or anything else. */
  datatype Thrown = Error(message: string) | NonError

  /** The error banner: `err instanceof Error ? err.message : 'Failed to send message'`. */
  function BannerText(t: Thrown): string {
    if t.Error? then t.message else "Failed to send message"
  }

  /** The content of the error message appended to the chat. */
  function BubbleText(t: Thrown): (s: string)
    ensures |s| >= 7 && s[..7] == "Error: "
    ensures t.Error? ==> s[7..] == t.message
  {
    "Error: " + (if t.Error? then t.message else "Unknown error occurred")
  }

  /** How a body stream ends: the reader reports done, or a read rejects. */
  datatype StreamEnd = Done | ReadFailed(thrown: Thrown)

  /** A response body as successive `reader.read()` calls deliver it. */
  datatype Stream = Stream(chunks: seq<string>, end: StreamEnd)

  /** The outcome of one `fetch`. `body` is None when `response.body` is null. */
  datatype Exchange = FetchFailed(thrown: Thrown) | Replied(status: nat, body: Option<Stream>)

  /** `response.ok`. */
  predicate IsOk(status: nat) {
    200 <= status <= 299
  }

  function Concat(chunks: seq<string>): string {
    if chunks == [] then "" else chunks[0] + Concat(chunks[1..])
  }

  /** `await response.text()`: the whole body, "" without one, or what a failed read threw. */
  function ResponseText(body: Option<Stream>): Result<string, Thrown> {
    match body
    case None => Ok("")
    case Some(Stream(chunks, Done)) => Ok(Concat(chunks))
    case Some(Stream(_, ReadFailed(t))) => Err(t)
  }

  /** `API Error: ${response.status} - ${errorText}`. */
  function ApiErrorWithBody(status: nat, text: string): string {
    "API Error: " + DecimalString(status) + " - " + text
  }

  datatype FileAttachment = FileAttachment(fileName: string, content: string, mimeType: string)

  /** The JSON body sent to the agent endpoint; `files` is None when the key is absent. */
  datatype AgentPayload = AgentPayload(
    query: string,
    userId: string,
    requestId: string,
    sessionId: string,
    files: Option<seq<FileAttachment>>)

  /** The JSON body the chat layout posts to the chat route: `{query, user_id, session_id}`. */
  datatype ChatRequest = ChatRequest(query: string, userId: string, sessionId: string)

  /** `req_${Date.now()}_${suffix}`. */
  function RequestId(nowMs: nat, suffix: string): string {
    "req_" + DecimalString(nowMs) + "_" + suffix
  }

  /** Thrown when a successful response has no body to read. */
  const NoReaderMessage := "No response body reader available"

  /**
   * The clock readings of one send: `Date.now()` and `toISOString()` for
   * each message it may create, and `Date.now()` for the request id.
   */
  datatype Stamps = Stamps(
    userMs: nat, userIso: string,
    requestMs: nat,
    replyMs: nat, replyIso: string,
    errorMs: nat, errorIso: string)
}
