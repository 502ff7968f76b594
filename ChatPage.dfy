/**
 * The chat test page (app/chat/page.tsx): a message list, the input box,
 * the loading and error flags, and `sendMessage`, which guards the submit,
 * shows the user message, ensures the conversation row, posts to the agent
 * endpoint and reconciles the streamed reply into one assistant message.
 */
module ChatPage {
  import opened Wrappers
  import opened JsText
  import opened Http
  import opened Reconciler
  import opened Conversations

  datatype Role = UserRole | AssistantRole

  /** The page's own message shape: `{id, role, content, timestamp}`. */
  datatype PageMessage = PageMessage(id: string, role: Role, content: string, timestamp: string)

  /** `prev.map(msg => msg.id === id ? { ...msg, content: text } : msg)`. */
  function WithContent(ms: seq<PageMessage>, id: string, text: string): (r: seq<PageMessage>)
    ensures |r| == |ms|
    ensures forall k :: 0 <= k < |ms| && ms[k].id != id ==> r[k] == ms[k]
    ensures forall k :: 0 <= k < |ms| && ms[k].id == id ==> r[k] == ms[k].(content := text)
  {
    if ms == [] then []
    else [if ms[0].id == id then ms[0].(content := text) else ms[0]] + WithContent(ms[1..], id, text)
  }

  /** Rewriting twice is rewriting once with the later text. */
  lemma RewriteCollapses(ms: seq<PageMessage>, id: string, a: string, b: string)
    ensures WithContent(WithContent(ms, id, a), id, b) == WithContent(ms, id, b)
  {
    var once, twice := WithContent(ms, id, b), WithContent(WithContent(ms, id, a), id, b);
    assert |once| == |twice|;
    forall k | 0 <= k < |ms| ensures once[k] == twice[k] {
    }
  }

  /** The list after the events of a reply: one rewrite per committed event nets to one rewrite with the last text. */
  function Committed(ms: seq<PageMessage>, id: string, r: Reply): seq<PageMessage> {
    if r.committed then WithContent(ms, id, r.text) else ms
  }

  /** Writing a new text into a list that shows a reply is showing the committed new text. */
  lemma CommitStep(ms: seq<PageMessage>, id: string, r: Reply, text: string)
    ensures WithContent(Committed(ms, id, r), id, text) == Committed(ms, id, Reply(text, true))
  {
    if r.committed {
      RewriteCollapses(ms, id, r.text, text);
    }
  }

  function UserMessage(content: string, clock: Stamps): PageMessage {
    PageMessage(DecimalString(clock.userMs), UserRole, content, clock.userIso)
  }

  /** The empty assistant message shown once a reader is obtained; its id is `(Date.now() + 1).toString()`. */
  function Placeholder(clock: Stamps): PageMessage {
    PageMessage(DecimalString(clock.replyMs + 1), AssistantRole, "", clock.replyIso)
  }

  function ErrorMessage(t: Thrown, clock: Stamps): PageMessage {
    PageMessage(DecimalString(clock.errorMs + 1), AssistantRole, BubbleText(t), clock.errorIso)
  }

  /** The guard `!input.trim() || !user || !sessionId` negated. */
  predicate CanSend(input: string, user: Option<AuthUser>, sessionId: string) {
    Trim(input) != "" && user.Some? && sessionId != ""
  }

  /** How a send ends, from what ensure-conversation reported and what `fetch` gave back. */
  function SendOutcome(ensureError: Option<string>, exchange: Exchange, parse: string -> Event): Outcome {
    if ensureError.Some? then Failed(Error(ensureError.value), None)
    else
      match exchange
      case FetchFailed(t) => Failed(t, None)
      case Replied(status, body) =>
        if !IsOk(status) then
          match ResponseText(body)
          case Ok(text) => Failed(Error(ApiErrorWithBody(status, text)), None)
          case Err(t) => Failed(t, None)
        else if body.None? then Failed(Error(NoReaderMessage), None)
        else StreamOutcome(body.value, parse)
  }

  /** The list before any error message: the placeholder, once a reader exists, holding the reply. */
  function Shown(base: seq<PageMessage>, o: Outcome, clock: Stamps): seq<PageMessage> {
    var streamed := base + [Placeholder(clock)];
    var id := Placeholder(clock).id;
    match o
    case Completed(r) => Committed(streamed, id, r)
    case Failed(_, None) => base
    case Failed(_, Some(r)) => Committed(streamed, id, r)
  }

  /** The message list at the end of a send, from the list that already shows the user message. */
  function Settle(base: seq<PageMessage>, o: Outcome, clock: Stamps): seq<PageMessage> {
    Shown(base, o, clock) + (if o.Failed? then [ErrorMessage(o.thrown, clock)] else [])
  }

  /** What a send that passed the guard leaves behind. */
  datatype SendEffect = SendEffect(
    rows: map<string, Conversation>,
    request: Option<AgentPayload>,
    messages: seq<PageMessage>,
    error: Option<string>)

  /**
   * A send after the guard, from the table, the session, the trimmed input
   * and the list that already shows the user message: the conversation is
   * ensured, the payload posted only if that succeeded, and the outcome
   * settled into the list and the error banner.
   */
  function SendSpec(
    rows: map<string, Conversation>, sessionId: string, uid: string, content: string,
    lookupFault: Option<DbError>, insertFault: Option<DbError>,
    clock: Stamps, requestSuffix: string, exchange: Exchange, parse: string -> Event,
    shown: seq<PageMessage>): SendEffect
  {
    var ensured := EnsureSpec(rows, sessionId, uid, lookupFault, insertFault);
    var o := SendOutcome(ensured.error, exchange, parse);
    SendEffect(
      ensured.rows,
      if ensured.error.None?
      then Some(AgentPayload(content, uid, RequestId(clock.requestMs, requestSuffix), sessionId, None))
      else None,
      Settle(shown, o, clock),
      if o.Failed? then Some(BannerText(o.thrown)) else None)
  }

  class ChatPage {
    var messages: seq<PageMessage>
    var input: string
    var isLoading: bool
    var error: Option<string>
    var user: Option<AuthUser>
    var sessionId: string

    constructor()
      ensures messages == [] && input == "" && !isLoading && error == None
      ensures user == None && sessionId == ""
    {
      messages, input, isLoading, error := [], "", false, None;
      user, sessionId := None, "";
    }

    /** The sign-in effect: a signed-in user gets a session id `<user id>~<suffix>`; without one the page redirects and keeps its state. */
    method LoadUser(signedIn: Option<AuthUser>, randomSuffix: string)
      modifies this
      ensures signedIn.None? ==> user == old(user) && sessionId == old(sessionId)
      ensures signedIn.Some? ==> user == signedIn && sessionId == SessionIdFor(signedIn.value.id, randomSuffix)
      ensures messages == old(messages) && input == old(input)
      ensures isLoading == old(isLoading) && error == old(error)
    {
      if signedIn.Some? {
        user := signedIn;
        sessionId := SessionIdFor(signedIn.value.id, randomSuffix);
      }
    }

    /** The input box's `onChange`. */
    method SetInput(text: string)
      modifies this`input
      ensures input == text
    {
      input := text;
    }

    /** `clearChat`: an empty list and no error. */
    method ClearChat()
      modifies this`messages, this`error
      ensures messages == [] && error == None
    {
      messages := [];
      error := None;
    }

    /**
     * The read loop: every chunk, in order, until the stream ends; each
     * non-empty text replaces `accumulated` and is written into the content
     * of the message whose id is `assistantId`.
     */
    method ReadStream(assistantId: string, chunks: seq<string>, parse: string -> Event) returns (accumulated: string)
      modifies this`messages
      ensures accumulated == ProcessStream(Fresh, chunks, parse).text
      ensures messages == Committed(old(messages), assistantId, ProcessStream(Fresh, chunks, parse))
    {
      accumulated := "";
      ghost var committed := false;
      var rest := chunks;
      while rest != []
        invariant ProcessStream(Reply(accumulated, committed), rest, parse) == ProcessStream(Fresh, chunks, parse)
        invariant messages == Committed(old(messages), assistantId, Reply(accumulated, committed))
      {
        accumulated, committed := ReadChunk(assistantId, rest[0], parse, accumulated, committed, old(messages));
        rest := rest[1..];
      }
    }

    /**
     * One pass of the read loop: the chunk's non-blank lines in order; a
     * completion signal ends the chunk. `base` is the list before the first
     * text was written.
     */
    method ReadChunk(
      assistantId: string, chunk: string, parse: string -> Event,
      accumulated0: string, ghost committed0: bool, ghost base: seq<PageMessage>)
      returns (accumulated: string, ghost committed: bool)
      requires messages == Committed(base, assistantId, Reply(accumulated0, committed0))
      modifies this`messages
      ensures Reply(accumulated, committed) == ProcessChunk(Reply(accumulated0, committed0), chunk, parse)
      ensures messages == Committed(base, assistantId, Reply(accumulated, committed))
    {
      accumulated, committed := accumulated0, committed0;
      ghost var target := ProcessChunk(Reply(accumulated0, committed0), chunk, parse);
      var lines := NonBlankLines(chunk);
      while lines != []
        invariant ProcessLines(Reply(accumulated, committed), lines, parse) == target
        invariant messages == Committed(base, assistantId, Reply(accumulated, committed))
      {
        var data := parse(lines[0]);
        if data.Obj? && data.completeIsTrue {
          break;
        }
        if data.Obj? && data.text.Some? && data.text.value != "" {
          CommitStep(base, assistantId, Reply(accumulated, committed), data.text.value);
          accumulated := data.text.value;
          committed := true;
          messages := WithContent(messages, assistantId, accumulated);
        }
        lines := lines[1..];
      }
    }

    /**
     * Everything after `fetch` up to the outer `catch`: a failed fetch, a
     * non-OK status, a missing body, or the placeholder and the read loop.
     * `failure` is what reaches the `catch`.
     */
    method ReceiveReply(exchange: Exchange, clock: Stamps, parse: string -> Event) returns (failure: Option<Thrown>)
      modifies this`messages
      ensures var o := SendOutcome(None, exchange, parse);
        && failure == (if o.Failed? then Some(o.thrown) else None)
        && messages == Shown(old(messages), o, clock)
    {
      failure := None;
      match exchange
      case FetchFailed(t) =>
        failure := Some(t);
      case Replied(status, body) =>
        if !IsOk(status) {
          var text := ResponseText(body);
          failure := Some(if text.Ok? then Error(ApiErrorWithBody(status, text.value)) else text.error);
        } else if body.None? {
          failure := Some(Error(NoReaderMessage));
        } else {
          var placeholder := Placeholder(clock);
          messages := messages + [placeholder];
          var _ := ReadStream(placeholder.id, body.value.chunks, parse);
          if body.value.end.ReadFailed? {
            failure := Some(body.value.end.thrown);
          }
        }
    }

    /**
     * The `try`/`catch`/`finally` of `sendMessage`: ensure the conversation,
     * post the payload, receive the reply; whatever is thrown is shown in the
     * banner and appended as one error message; loading ends either way.
     * `rows` and `shown` name the table and the list as the `try` finds them.
     */
    method Deliver(
      table: ConversationTable, lookupFault: Option<DbError>, insertFault: Option<DbError>,
      content: string, uid: string, clock: Stamps, requestSuffix: string, exchange: Exchange, parse: string -> Event,
      ghost rows: map<string, Conversation>, ghost shown: seq<PageMessage>)
      returns (request: Option<AgentPayload>)
      requires error == None && rows == table.rows && shown == messages
      modifies this`messages, this`error, this`isLoading, table
      ensures SendEffect(table.rows, request, messages, error)
        == SendSpec(rows, sessionId, uid, content, lookupFault, insertFault,
                    clock, requestSuffix, exchange, parse, shown)
      ensures !isLoading
    {
      request := None;
      var failure: Option<Thrown> := None;
      var ensureError := EnsureConversation(table, sessionId, uid, lookupFault, insertFault);
      ghost var o := SendOutcome(ensureError, exchange, parse);
      if ensureError.Some? {
        failure := Some(Error(ensureError.value));
      } else {
        request := Some(AgentPayload(content, uid, RequestId(clock.requestMs, requestSuffix), sessionId, None));
        failure := ReceiveReply(exchange, clock, parse);
      }
      assert messages == Shown(shown, o, clock);
      if failure.Some? {
        error := Some(BannerText(failure.value));
        messages := messages + [ErrorMessage(failure.value, clock)];
      }
      isLoading := false;
    }

    /** `sendMessage`. Ids and timestamps come from `clock`; `exchange` is what `fetch` yields; `request` is the payload posted, if any. */
    method SendMessage(
      table: ConversationTable, lookupFault: Option<DbError>, insertFault: Option<DbError>,
      clock: Stamps, requestSuffix: string, exchange: Exchange, parse: string -> Event)
      returns (request: Option<AgentPayload>)
      modifies this`messages, this`input, this`isLoading, this`error, table
      ensures !CanSend(old(input), old(user), old(sessionId)) ==>
        && request.None? && table.rows == old(table.rows)
        && messages == old(messages) && input == old(input)
        && isLoading == old(isLoading) && error == old(error)
      ensures CanSend(old(input), old(user), old(sessionId)) ==>
        && SendEffect(table.rows, request, messages, error)
           == SendSpec(old(table.rows), sessionId, old(user).value.id, Trim(old(input)),
                       lookupFault, insertFault, clock, requestSuffix, exchange, parse,
                       old(messages) + [UserMessage(Trim(old(input)), clock)])
        && input == "" && !isLoading
    {
      request := None;
      if !CanSend(input, user, sessionId) {
        return;
      }
      var content := Trim(input);
      var uid := user.value.id;
      messages := messages + [UserMessage(content, clock)];
      input := "";
      isLoading := true;
      error := None;
      request := Deliver(table, lookupFault, insertFault, content, uid, clock, requestSuffix, exchange, parse,
                         old(table.rows), old(messages) + [UserMessage(Trim(old(input)), clock)]);
    }
  }

  // ---------------------------------------------------------------------------
  // Properties of a send

  /**
   * The placeholder is added exactly when ensure-conversation succeeded and
   * the response is OK with a body to read; only then can a stream be
   * reconciled.
   */
  lemma PlaceholderNeedsReader(ensureError: Option<string>, exchange: Exchange, parse: string -> Event)
    ensures var o := SendOutcome(ensureError, exchange, parse);
      (o.Completed? || o.partial.Some?) <==>
        ensureError.None? && exchange.Replied? && IsOk(exchange.status) && exchange.body.Some?
  {
  }

  /**
   * A non-OK response fails with `API Error: <status> - <body text>`, the
   * text being "" when there is no body; a body whose read fails fails with
   * what the read threw; nothing is streamed.
   */
  lemma NonOkResponse(status: nat, body: Option<Stream>, parse: string -> Event)
    requires !IsOk(status)
    ensures var o := SendOutcome(None, Replied(status, body), parse);
      && o.Failed? && o.partial.None?
      && (body.None? ==> o.thrown == Error("API Error: " + DecimalString(status) + " - "))
      && (forall chunks :: body == Some(Stream(chunks, Done)) ==>
            o.thrown == Error("API Error: " + DecimalString(status) + " - " + Concat(chunks)))
      && (body.Some? && body.value.end.ReadFailed? ==> o.thrown == body.value.end.thrown)
  {
    var prefix := "API Error: " + DecimalString(status) + " - ";
    assert prefix + "" == prefix;
  }

  /**
   * At the end of a send: messages already shown before it keep their place
   * (only those sharing the placeholder's id can have their content
   * rewritten); a failure appends exactly one error message, last; a
   * placeholder, when there is one, follows the history directly.
   */
  lemma SettleShape(base: seq<PageMessage>, o: Outcome, clock: Stamps)
    ensures var after := Settle(base, o, clock);
      var id := Placeholder(clock).id;
      var placed := o.Completed? || o.partial.Some?;
      && |after| == |base| + (if placed then 1 else 0) + (if o.Failed? then 1 else 0)
      && (forall k :: 0 <= k < |base| && base[k].id != id ==> after[k] == base[k])
      && (forall k :: 0 <= k < |base| ==> after[k].id == base[k].id && after[k].role == base[k].role)
      && (o.Failed? ==> after[|after| - 1] == ErrorMessage(o.thrown, clock))
      && (placed ==> after[|base|].id == id && after[|base|].role == AssistantRole)
  {
  }

  /**
   * When a reader was obtained, the placeholder ends up holding the last
   * non-empty text the stream committed, or stays empty; its id, role and
   * timestamp never change.
   */
  lemma PlaceholderShowsLastText(base: seq<PageMessage>, body: Stream, clock: Stamps, parse: string -> Event)
    ensures var after := Settle(base, StreamOutcome(body, parse), clock);
      var ts := StreamTexts(body.chunks, parse);
      after[|base|] == Placeholder(clock).(content := if ts == [] then "" else ts[|ts| - 1])
  {
    FinalTextOfStream(body.chunks, parse);
    var streamed := base + [Placeholder(clock)];
    assert streamed[|base|] == Placeholder(clock);
  }

  /**
   * The ids `Date.now()` and `Date.now() + 1`: the user message never shares
   * an id with the placeholder or the error message created after it, while
   * an error message shares the placeholder's id exactly when both are
   * created in the same millisecond.
   */
  lemma MessageIds(content: string, t: Thrown, clock: Stamps)
    ensures clock.userMs <= clock.replyMs ==> UserMessage(content, clock).id != Placeholder(clock).id
    ensures clock.userMs <= clock.errorMs ==> UserMessage(content, clock).id != ErrorMessage(t, clock).id
    ensures ErrorMessage(t, clock).id == Placeholder(clock).id <==> clock.errorMs == clock.replyMs
  {
    if UserMessage(content, clock).id == Placeholder(clock).id {
      DecimalStringInjective(clock.userMs, clock.replyMs + 1);
    }
    if UserMessage(content, clock).id == ErrorMessage(t, clock).id {
      DecimalStringInjective(clock.userMs, clock.errorMs + 1);
    }
    if ErrorMessage(t, clock).id == Placeholder(clock).id {
      DecimalStringInjective(clock.errorMs + 1, clock.replyMs + 1);
    }
  }
}
