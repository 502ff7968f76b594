/**
 * The chat layout component (components/chat/ChatLayout.tsx): the same
 * send-and-stream cycle as the chat test page, over the database's message
 * shape. It posts `{query, user_id, session_id}` to the chat route instead of
 * the agent, does not ensure the conversation itself, reads a non-OK
 * response as JSON, and gives its messages `temp-…-user`, `temp-…-ai` and
 * `error-…` ids.
 */
module ChatLayout {
  import opened Wrappers
  import opened JsText
  import opened Http
  import opened Reconciler
  import opened Conversations

  datatype MessageType = Human | Ai

  /** The `message` column: `{type, content, files?}`. */
  datatype MessageBody = MessageBody(kind: MessageType, content: string, files: Option<seq<FileAttachment>>)

  /** A row of the messages table as the view holds it. */
  datatype Message = Message(
    id: string,
    computedSessionUserId: Option<string>,
    sessionId: string,
    message: MessageBody,
    messageData: Option<string>,
    createdAt: string)

  /** `temp-${Date.now()}-user`. */
  function UserId(ms: nat): string {
    "temp-" + DecimalString(ms) + "-user"
  }

  /** `temp-${Date.now()}-ai`. */
  function AiId(ms: nat): string {
    "temp-" + DecimalString(ms) + "-ai"
  }

  /** `error-${Date.now()}`. */
  function ErrorId(ms: nat): string {
    "error-" + DecimalString(ms)
  }

  /** The three kinds of id never coincide, whatever the clock says. */
  lemma IdsDistinct(a: nat, b: nat)
    ensures UserId(a) != AiId(b)
    ensures UserId(a) != ErrorId(b) && AiId(a) != ErrorId(b)
  {
    var u, ai, e := UserId(a), AiId(b), ErrorId(b);
    assert u[|u| - 1] == 'r' && ai[|ai| - 1] == 'i';
    assert u[0] == 't' && e[0] == 'e';
    assert AiId(a)[0] == 't';
  }

  /** Placeholders created at different milliseconds have different ids. */
  lemma AiIdInjective(a: nat, b: nat)
    requires AiId(a) == AiId(b)
    ensures a == b
  {
    var da, db := DecimalString(a), DecimalString(b);
    assert AiId(a)[5..|AiId(a)| - 3] == da;
    assert AiId(b)[5..|AiId(b)| - 3] == db;
    DecimalStringInjective(a, b);
  }

  function UserMessage(content: string, uid: string, sid: string, clock: Stamps): Message {
    Message(UserId(clock.userMs), Some(uid), sid, MessageBody(Human, content, None), None, clock.userIso)
  }

  /** The empty assistant message shown once a reader is obtained. */
  function Placeholder(uid: string, sid: string, clock: Stamps): Message {
    Message(AiId(clock.replyMs), Some(uid), sid, MessageBody(Ai, "", None), None, clock.replyIso)
  }

  /** The error message; its user column is `user?.id || null`. */
  function ErrorMessage(t: Thrown, uid: string, sid: string, clock: Stamps): Message {
    Message(ErrorId(clock.errorMs), if uid == "" then None else Some(uid), sid,
            MessageBody(Ai, BubbleText(t), None), None, clock.errorIso)
  }

  /** `prev.map(msg => msg.id === id ? {...msg, message: {...msg.message, content: text}} : msg)`. */
  function WithContent(ms: seq<Message>, id: string, text: string): (r: seq<Message>)
    ensures |r| == |ms|
    ensures forall k :: 0 <= k < |ms| && ms[k].id != id ==> r[k] == ms[k]
    ensures forall k :: 0 <= k < |ms| && ms[k].id == id ==> r[k] == ms[k].(message := ms[k].message.(content := text))
  {
    if ms == [] then []
    else
      var m := ms[0];
      [if m.id == id then m.(message := m.message.(content := text)) else m] + WithContent(ms[1..], id, text)
  }

  /** Rewriting twice is rewriting once with the later text. */
  lemma RewriteCollapses(ms: seq<Message>, id: string, a: string, b: string)
    ensures WithContent(WithContent(ms, id, a), id, b) == WithContent(ms, id, b)
  {
    var once, twice := WithContent(ms, id, b), WithContent(WithContent(ms, id, a), id, b);
    forall k | 0 <= k < |ms| ensures once[k] == twice[k] {
    }
  }

  function Committed(ms: seq<Message>, id: string, r: Reply): seq<Message> {
    if r.committed then WithContent(ms, id, r.text) else ms
  }

  /** Writing a new text into a list that shows a reply is showing the committed new text. */
  lemma CommitStep(ms: seq<Message>, id: string, r: Reply, text: string)
    ensures WithContent(Committed(ms, id, r), id, text) == Committed(ms, id, Reply(text, true))
  {
    if r.committed {
      RewriteCollapses(ms, id, r.text, text);
    }
  }

  /**
   * What `await response.json()` and `errorData.error` give for a non-OK
   * body: a throw (the body is not JSON, or is JSON `null`), or the `error`
   * property, present when it is a string.
   */
  datatype ErrorBody = Unreadable(thrown: Thrown) | ErrorField(error: Option<string>)

  /** `errorData.error || \`API Error: ${response.status}\``. */
  function ErrorResponseMessage(status: nat, error: Option<string>): string {
    if error.Some? && error.value != "" then error.value else "API Error: " + DecimalString(status)
  }

  /** How a send ends, from what `fetch` gave back; `parseError` is `JSON.parse` on an error body. */
  function ReplyOutcome(exchange: Exchange, parse: string -> Event, parseError: string -> ErrorBody): Outcome {
    match exchange
    case FetchFailed(t) => Failed(t, None)
    case Replied(status, body) =>
      if !IsOk(status) then
        match ResponseText(body)
        case Err(t) => Failed(t, None)
        case Ok(text) =>
          match parseError(text)
          case Unreadable(t) => Failed(t, None)
          case ErrorField(e) => Failed(Error(ErrorResponseMessage(status, e)), None)
      else if body.None? then Failed(Error(NoReaderMessage), None)
      else StreamOutcome(body.value, parse)
  }

  /** The list before any error message: the placeholder, once a reader exists, holding the reply. */
  function Shown(base: seq<Message>, o: Outcome, uid: string, sid: string, clock: Stamps): seq<Message> {
    var streamed := base + [Placeholder(uid, sid, clock)];
    match o
    case Completed(r) => Committed(streamed, AiId(clock.replyMs), r)
    case Failed(_, None) => base
    case Failed(_, Some(r)) => Committed(streamed, AiId(clock.replyMs), r)
  }

  /** The message list at the end of a send, from the list that already shows the user message. */
  function Settle(base: seq<Message>, o: Outcome, uid: string, sid: string, clock: Stamps): seq<Message> {
    Shown(base, o, uid, sid, clock) + (if o.Failed? then [ErrorMessage(o.thrown, uid, sid, clock)] else [])
  }

  /** The guard `!input.trim() || !user || !sessionId` negated. */
  predicate CanSend(input: string, user: Option<AuthUser>, sessionId: string) {
    Trim(input) != "" && user.Some? && sessionId != ""
  }

  class ChatLayout {
    var messages: seq<Message>
    var isLoading: bool
    var error: Option<string>
    var user: Option<AuthUser>
    var sessionId: string

    constructor()
      ensures messages == [] && !isLoading && error == None
      ensures user == None && sessionId == ""
    {
      messages, isLoading, error := [], false, None;
      user, sessionId := None, "";
    }

    /** The sign-in effect: a signed-in user gets a session id `<user id>~<suffix>`; without one the view redirects and keeps its state. */
    method LoadUser(signedIn: Option<AuthUser>, randomSuffix: string)
      modifies this`user, this`sessionId
      ensures signedIn.None? ==> user == old(user) && sessionId == old(sessionId)
      ensures signedIn.Some? ==> user == signedIn && sessionId == SessionIdFor(signedIn.value.id, randomSuffix)
    {
      if signedIn.Some? {
        user := signedIn;
        sessionId := SessionIdFor(signedIn.value.id, randomSuffix);
      }
    }

    /** `handleClearChat`: an empty list and no error. */
    method HandleClearChat()
      modifies this`messages, this`error
      ensures messages == [] && error == None
    {
      messages := [];
      error := None;
    }

    /**
     * The read loop: every chunk, in order, until the stream ends; each
     * non-empty text replaces `accumulated` and is written into the content
     * of the message whose id is `assistantId`.
     */
    method ReadStream(assistantId: string, chunks: seq<string>, parse: string -> Event) returns (accumulated: string)
      modifies this`messages
      ensures accumulated == ProcessStream(Fresh, chunks, parse).text
      ensures messages == Committed(old(messages), assistantId, ProcessStream(Fresh, chunks, parse))
    {
      accumulated := "";
      ghost var committed := false;
      var rest := chunks;
      while rest != []
        invariant ProcessStream(Reply(accumulated, committed), rest, parse) == ProcessStream(Fresh, chunks, parse)
        invariant messages == Committed(old(messages), assistantId, Reply(accumulated, committed))
      {
        accumulated, committed := ReadChunk(assistantId, rest[0], parse, accumulated, committed, old(messages));
        rest := rest[1..];
      }
    }

    /**
     * One pass of the read loop: the chunk's non-blank lines in order; a
     * completion signal ends the chunk. `base` is the list before the first
     * text was written.
     */
    method ReadChunk(
      assistantId: string, chunk: string, parse: string -> Event,
      accumulated0: string, ghost committed0: bool, ghost base: seq<Message>)
      returns (accumulated: string, ghost committed: bool)
      requires messages == Committed(base, assistantId, Reply(accumulated0, committed0))
      modifies this`messages
      ensures Reply(accumulated, committed) == ProcessChunk(Reply(accumulated0, committed0), chunk, parse)
      ensures messages == Committed(base, assistantId, Reply(accumulated, committed))
    {
      accumulated, committed := accumulated0, committed0;
      ghost var target := ProcessChunk(Reply(accumulated0, committed0), chunk, parse);
      var lines := NonBlankLines(chunk);
      while lines != []
        invariant ProcessLines(Reply(accumulated, committed), lines, parse) == target
        invariant messages == Committed(base, assistantId, Reply(accumulated, committed))
      {
        var data := parse(lines[0]);
        if data.Obj? && data.completeIsTrue {
          break;
        }
        if data.Obj? && data.text.Some? && data.text.value != "" {
          CommitStep(base, assistantId, Reply(accumulated, committed), data.text.value);
          accumulated := data.text.value;
          committed := true;
          messages := WithContent(messages, assistantId, accumulated);
        }
        lines := lines[1..];
      }
    }

    /**
     * Everything after `fetch` up to the outer `catch`: a failed fetch, a
     * non-OK status read as JSON, a missing body, or the placeholder and the
     * read loop. `failure` is what reaches the `catch`.
     */
    method ReceiveReply(
      exchange: Exchange, uid: string, sid: string, clock: Stamps,
      parse: string -> Event, parseError: string -> ErrorBody)
      returns (failure: Option<Thrown>)
      modifies this`messages
      ensures var o := ReplyOutcome(exchange, parse, parseError);
        && failure == (if o.Failed? then Some(o.thrown) else None)
        && messages == Shown(old(messages), o, uid, sid, clock)
    {
      failure := None;
      match exchange
      case FetchFailed(t) =>
        failure := Some(t);
      case Replied(status, body) =>
        if !IsOk(status) {
          var text := ResponseText(body);
          if text.Err? {
            failure := Some(text.error);
          } else {
            var errorData := parseError(text.value);
            failure := Some(if errorData.Unreadable? then errorData.thrown
                            else Error(ErrorResponseMessage(status, errorData.error)));
          }
        } else if body.None? {
          failure := Some(Error(NoReaderMessage));
        } else {
          var placeholder := Placeholder(uid, sid, clock);
          messages := messages + [placeholder];
          var _ := ReadStream(placeholder.id, body.value.chunks, parse);
          if body.value.end.ReadFailed? {
            failure := Some(body.value.end.thrown);
          }
        }
    }

    /**
     * The `try`/`catch`/`finally` of `handleSendMessage`: receive the reply;
     * whatever is thrown is shown in the banner and appended as one error
     * message; loading ends either way. `shown` names the list as the `try`
     * finds it.
     */
    method Deliver(
      uid: string, clock: Stamps, exchange: Exchange,
      parse: string -> Event, parseError: string -> ErrorBody, ghost shown: seq<Message>)
      requires error == None && shown == messages
      modifies this`messages, this`error, this`isLoading
      ensures var o := ReplyOutcome(exchange, parse, parseError);
        && messages == Settle(shown, o, uid, sessionId, clock)
        && error == (if o.Failed? then Some(BannerText(o.thrown)) else None)
      ensures !isLoading
    {
      var failure := ReceiveReply(exchange, uid, sessionId, clock, parse, parseError);
      if failure.Some? {
        error := Some(BannerText(failure.value));
        messages := messages + [ErrorMessage(failure.value, uid, sessionId, clock)];
      }
      isLoading := false;
    }

    /**
     * `handleSendMessage(input)`. Ids and timestamps come from `clock`;
     * `exchange` is what `fetch` on the chat route yields; `request` is the
     * body posted, if any.
     */
    method HandleSendMessage(
      input: string, clock: Stamps, exchange: Exchange,
      parse: string -> Event, parseError: string -> ErrorBody)
      returns (request: Option<ChatRequest>)
      modifies this`messages, this`isLoading, this`error
      ensures !CanSend(input, user, sessionId) ==>
        && request.None?
        && messages == old(messages) && isLoading == old(isLoading) && error == old(error)
      ensures CanSend(input, user, sessionId) ==>
        var o := ReplyOutcome(exchange, parse, parseError);
        && request == Some(ChatRequest(Trim(input), user.value.id, sessionId))
        && messages == Settle(old(messages) + [UserMessage(Trim(input), user.value.id, sessionId, clock)],
                              o, user.value.id, sessionId, clock)
        && error == (if o.Failed? then Some(BannerText(o.thrown)) else None)
        && !isLoading
    {
      request := None;
      if !CanSend(input, user, sessionId) {
        return;
      }
      var content := Trim(input);
      var uid := user.value.id;
      messages := messages + [UserMessage(content, uid, sessionId, clock)];
      isLoading := true;
      error := None;
      request := Some(ChatRequest(content, uid, sessionId));
      Deliver(uid, clock, exchange, parse, parseError,
              old(messages) + [UserMessage(Trim(input), user.value.id, sessionId, clock)]);
    }
  }

  // ---------------------------------------------------------------------------
  // Properties of a send

  /**
   * A non-OK response fails with the body's `error` string when it is a
   * non-empty string, with `API Error: <status>` when it is absent or empty,
   * and with what reading or parsing the body threw otherwise.
   */
  lemma NonOkResponse(status: nat, body: Option<Stream>, parse: string -> Event, parseError: string -> ErrorBody)
    requires !IsOk(status)
    ensures var o := ReplyOutcome(Replied(status, body), parse, parseError);
      var text := ResponseText(body);
      && o.Failed? && o.partial.None?
      && (text.Err? ==> o.thrown == text.error)
      && (text.Ok? && parseError(text.value).Unreadable? ==> o.thrown == parseError(text.value).thrown)
      && (text.Ok? && parseError(text.value).ErrorField? &&
          !(parseError(text.value).error.Some? && parseError(text.value).error.value != "") ==>
            o.thrown == Error("API Error: " + DecimalString(status)))
      && (forall e :: text.Ok? && parseError(text.value) == ErrorField(Some(e)) && e != "" ==> o.thrown == Error(e))
  {
  }

  /** The placeholder appears exactly when the response is 2xx and has a body to read. */
  lemma PlaceholderNeedsReader(exchange: Exchange, parse: string -> Event, parseError: string -> ErrorBody)
    ensures var o := ReplyOutcome(exchange, parse, parseError);
      (o.Completed? || o.partial.Some?) <==> exchange.Replied? && IsOk(exchange.status) && exchange.body.Some?
  {
  }

  /**
   * At the end of a send: the history and the user message keep their
   * place and content (neither carries the placeholder's id); the
   * placeholder, when there is one, follows them; a failure appends exactly
   * one error message, last.
   */
  lemma SettleShape(history: seq<Message>, content: string, o: Outcome, uid: string, sid: string, clock: Stamps)
    requires forall k :: 0 <= k < |history| ==> history[k].id != AiId(clock.replyMs)
    ensures var user := UserMessage(content, uid, sid, clock);
      var after := Settle(history + [user], o, uid, sid, clock);
      var placed := o.Completed? || o.partial.Some?;
      && |after| == |history| + 1 + (if placed then 1 else 0) + (if o.Failed? then 1 else 0)
      && after[..|history| + 1] == history + [user]
      && (placed ==> after[|history| + 1].id == AiId(clock.replyMs) && after[|history| + 1].message.kind == Ai)
      && (o.Failed? ==> after[|after| - 1] == ErrorMessage(o.thrown, uid, sid, clock))
  {
    var user := UserMessage(content, uid, sid, clock);
    var base := history + [user];
    IdsDistinct(clock.userMs, clock.replyMs);
    assert forall k :: 0 <= k < |base| ==> base[k].id != AiId(clock.replyMs);
    var after := Settle(base, o, uid, sid, clock);
    assert after[..|base|] == base;
  }

  /**
   * When a reader was obtained, the placeholder ends up holding the last
   * non-empty text the stream committed, or stays empty.
   */
  lemma PlaceholderShowsLastText(base: seq<Message>, body: Stream, uid: string, sid: string, clock: Stamps, parse: string -> Event)
    ensures var after := Settle(base, StreamOutcome(body, parse), uid, sid, clock);
      var ts := StreamTexts(body.chunks, parse);
      after[|base|].message.content == (if ts == [] then "" else ts[|ts| - 1])
      && after[|base|].id == AiId(clock.replyMs)
  {
    FinalTextOfStream(body.chunks, parse);
    var streamed := base + [Placeholder(uid, sid, clock)];
    assert streamed[|base|] == Placeholder(uid, sid, clock);
  }
}
