/**
 * The chat API route (app/api/chat/route.ts): `POST` checks the signed-in
 * user and the request body, ensures the conversation row, checks for an
 * access token, forwards the query to the agent with the token as a bearer
 * credential, and either relays the agent's event stream or turns a failure
 * into a JSON error with a status code. The ladder is `PostSpec`; `Post`
 * runs it against the conversations table.
 */
module ChatRoute {
  import opened Wrappers
  import opened JsText
  import opened Http
  import opened Reconciler
  import opened Conversations
  import ChatLayout

  /**
   * The parsed request body `{query, session_id, user_id, files}`; a field
   * the client left out (or sent as `null`) is `None`.
   */
  datatype RouteBody = RouteBody(
    query: Option<string>,
    sessionId: Option<string>,
    userId: Option<string>,
    files: Option<seq<FileAttachment>>)

  /** What the route answers: `NextResponse.json({error}, {status})`, or the agent's body relayed as an event stream. */
  datatype Response = JsonError(status: nat, error: string) | EventStream(body: Option<Stream>)

  /** The request sent to the agent: the JSON payload and the `Authorization` header. */
  datatype Upstream = Upstream(payload: AgentPayload, authorization: string)

  /** The response, the upstream request if one was made, and the conversations table afterwards. */
  datatype Routed = Routed(response: Response, sent: Option<Upstream>, rows: map<string, Conversation>)

  const Unauthorized := "Unauthorized"
  const MissingFields := "Missing query or session_id"
  const NoToken := "No valid session token"
  const InternalError := "Internal server error"

  /** JavaScript truthiness of an optional string: present and non-empty. */
  predicate Truthy(s: Option<string>) {
    s.Some? && s.value != ""
  }

  /** `Bearer ${session.access_token}`. */
  function Bearer(token: string): string {
    "Bearer " + token
  }

  /**
   * The decision ladder of `POST`. `user` is `auth.getUser()`, `body` is
   * `request.json()` (`None` when it throws), `token` is the session's
   * access token, `nowMs` and `suffix` make the request id, and `exchange`
   * is what `fetch` on the agent yields.
   */
  function PostSpec(
    rows: map<string, Conversation>, user: Option<AuthUser>, body: Option<RouteBody>,
    lookupFault: Option<DbError>, insertFault: Option<DbError>, token: Option<string>,
    nowMs: nat, suffix: string, exchange: Exchange): Routed
  {
    if user.None? then Routed(JsonError(401, Unauthorized), None, rows)
    else if body.None? then Routed(JsonError(500, InternalError), None, rows)
    else if !Truthy(body.value.query) || !Truthy(body.value.sessionId) then
      Routed(JsonError(400, MissingFields), None, rows)
    else
      var sid := body.value.sessionId.value;
      var ensured := EnsureSpec(rows, sid, user.value.id, lookupFault, insertFault);
      if ensured.error.Some? then Routed(JsonError(500, ensured.error.value), None, ensured.rows)
      else if !Truthy(token) then Routed(JsonError(401, NoToken), None, ensured.rows)
      else
        var payload := AgentPayload(body.value.query.value, user.value.id, RequestId(nowMs, suffix), sid, body.value.files);
        var sent := Some(Upstream(payload, Bearer(token.value)));
        Routed(Answer(exchange), sent, ensured.rows)
  }

  /**
   * The statuses a response with a body may carry: the Fetch standard's
   * `Response` constructor throws a `RangeError` outside 200..599 and a
   * `TypeError` for a null-body status (101, 103, 204, 205, 304) with a body.
   */
  predicate CanCarryBody(status: nat) {
    200 <= status <= 599 && status !in {101, 103, 204, 205, 304}
  }

  /**
   * The response once the agent was called: its stream when OK; its status
   * and text otherwise, unless `NextResponse.json` cannot be built with that
   * status; 500 on any throw.
   */
  function Answer(exchange: Exchange): Response {
    match exchange
    case FetchFailed(_) => JsonError(500, InternalError)
    case Replied(status, body) =>
      if IsOk(status) then EventStream(body)
      else
        match ResponseText(body)
        case Err(_) => JsonError(500, InternalError)
        case Ok(text) =>
          if CanCarryBody(status) then JsonError(status, ApiErrorWithBody(status, text))
          else JsonError(500, InternalError)
  }

  /** `POST(request)` against the conversations table. */
  method Post(
    table: ConversationTable, user: Option<AuthUser>, body: Option<RouteBody>,
    lookupFault: Option<DbError>, insertFault: Option<DbError>, token: Option<string>,
    nowMs: nat, suffix: string, exchange: Exchange)
    returns (response: Response, sent: Option<Upstream>)
    modifies table
    ensures Routed(response, sent, table.rows)
      == PostSpec(old(table.rows), user, body, lookupFault, insertFault, token, nowMs, suffix, exchange)
  {
    sent := None;
    if user.None? {
      return JsonError(401, Unauthorized), None;
    }
    if body.None? {
      return JsonError(500, InternalError), None;
    }
    var query, sessionId, files := body.value.query, body.value.sessionId, body.value.files;
    if !Truthy(query) || !Truthy(sessionId) {
      return JsonError(400, MissingFields), None;
    }
    var conversationError := EnsureConversation(table, sessionId.value, user.value.id, lookupFault, insertFault);
    if conversationError.Some? {
      return JsonError(500, conversationError.value), None;
    }
    if !Truthy(token) {
      return JsonError(401, NoToken), None;
    }
    var payload := AgentPayload(query.value, user.value.id, RequestId(nowMs, suffix), sessionId.value, files);
    sent := Some(Upstream(payload, Bearer(token.value)));
    match exchange {
      case FetchFailed(_) =>
        response := JsonError(500, InternalError);
      case Replied(status, replyBody) =>
        if IsOk(status) {
          response := EventStream(replyBody);
        } else {
          var errorText := ResponseText(replyBody);
          if errorText.Err? || !CanCarryBody(status) {
            response := JsonError(500, InternalError);
          } else {
            response := JsonError(status, ApiErrorWithBody(status, errorText.value));
          }
        }
    }
  }

  // ---------------------------------------------------------------------------
  // Properties of the route

  /**
   * The checks before the database: no user is 401, a body that is not JSON
   * is 500, a missing or empty query or session id is 400; none of them
   * touches the table or calls the agent.
   */
  lemma RejectedBeforeDatabase(
    rows: map<string, Conversation>, user: Option<AuthUser>, body: Option<RouteBody>,
    lookupFault: Option<DbError>, insertFault: Option<DbError>, token: Option<string>,
    nowMs: nat, suffix: string, exchange: Exchange)
    ensures var r := PostSpec(rows, user, body, lookupFault, insertFault, token, nowMs, suffix, exchange);
      && (user.None? ==> r == Routed(JsonError(401, Unauthorized), None, rows))
      && (user.Some? && body.None? ==> r == Routed(JsonError(500, InternalError), None, rows))
      && (user.Some? && body.Some? && (!Truthy(body.value.query) || !Truthy(body.value.sessionId)) ==>
            r == Routed(JsonError(400, MissingFields), None, rows))
  {
  }

  /**
   * The agent is called exactly when there is a user, a body with a query
   * and a session id, the conversation could be ensured, and there is an
   * access token; the conversation then exists in the table.
   */
  lemma ForwardedIff(
    rows: map<string, Conversation>, user: Option<AuthUser>, body: Option<RouteBody>,
    lookupFault: Option<DbError>, insertFault: Option<DbError>, token: Option<string>,
    nowMs: nat, suffix: string, exchange: Exchange)
    ensures var r := PostSpec(rows, user, body, lookupFault, insertFault, token, nowMs, suffix, exchange);
      r.sent.Some? <==>
        && user.Some? && body.Some? && Truthy(body.value.query) && Truthy(body.value.sessionId)
        && EnsureSpec(rows, body.value.sessionId.value, user.value.id, lookupFault, insertFault).error.None?
        && Truthy(token)
    ensures var r := PostSpec(rows, user, body, lookupFault, insertFault, token, nowMs, suffix, exchange);
      r.sent.Some? ==> body.value.sessionId.value in r.rows
  {
    if user.Some? && body.Some? && Truthy(body.value.query) && Truthy(body.value.sessionId) {
      EnsureGuarantees(rows, body.value.sessionId.value, user.value.id, lookupFault, insertFault);
    }
  }

  /**
   * What the agent receives: the body's query and session id, the user id
   * of the signed-in user (never the body's), a request id from the clock
   * and the suffix, the files only when the body has them, and the access
   * token as a bearer credential.
   */
  lemma PayloadFields(
    rows: map<string, Conversation>, user: Option<AuthUser>, body: Option<RouteBody>,
    lookupFault: Option<DbError>, insertFault: Option<DbError>, token: Option<string>,
    nowMs: nat, suffix: string, exchange: Exchange)
    ensures var r := PostSpec(rows, user, body, lookupFault, insertFault, token, nowMs, suffix, exchange);
      r.sent.Some? ==>
        var p := r.sent.value.payload;
        && p.query == body.value.query.value && p.query != ""
        && p.sessionId == body.value.sessionId.value && p.sessionId != ""
        && p.userId == user.value.id
        && p.requestId == RequestId(nowMs, suffix)
        && p.files == body.value.files
        && r.sent.value.authorization == "Bearer " + token.value && token.value != ""
  {
  }

  /** The `user_id` a client puts in the body changes nothing: the route answers the same whatever it says. */
  lemma BodyUserIdIgnored(
    rows: map<string, Conversation>, user: Option<AuthUser>, body: RouteBody, claimed: Option<string>,
    lookupFault: Option<DbError>, insertFault: Option<DbError>, token: Option<string>,
    nowMs: nat, suffix: string, exchange: Exchange)
    ensures PostSpec(rows, user, Some(body.(userId := claimed)), lookupFault, insertFault, token, nowMs, suffix, exchange)
         == PostSpec(rows, user, Some(body), lookupFault, insertFault, token, nowMs, suffix, exchange)
  {
  }

  /**
   * Once the agent was called: its body is relayed exactly when it answers
   * with a 2xx status; any other status that a response with a body may
   * carry is passed on with the text the agent sent; a status that cannot
   * carry one (304, say), a failed fetch or a failed read is 500.
   */
  lemma UpstreamAnswer(
    rows: map<string, Conversation>, user: Option<AuthUser>, body: Option<RouteBody>,
    lookupFault: Option<DbError>, insertFault: Option<DbError>, token: Option<string>,
    nowMs: nat, suffix: string, exchange: Exchange)
    ensures var r := PostSpec(rows, user, body, lookupFault, insertFault, token, nowMs, suffix, exchange);
      && (r.response.EventStream? <==> r.sent.Some? && exchange.Replied? && IsOk(exchange.status))
      && (r.response.EventStream? ==> r.response.body == exchange.body)
      && (r.sent.Some? && exchange.FetchFailed? ==> r.response == JsonError(500, InternalError))
      && (forall text ::
            (r.sent.Some? && exchange.Replied? && !IsOk(exchange.status) && ResponseText(exchange.body) == Ok(text))
            ==> r.response == (if CanCarryBody(exchange.status)
                               then JsonError(exchange.status, "API Error: " + DecimalString(exchange.status) + " - " + text)
                               else JsonError(500, InternalError)))
      && (r.sent.Some? && exchange.Replied? && !IsOk(exchange.status) && ResponseText(exchange.body).Err? ==>
            r.response == JsonError(500, InternalError))
  {
  }

  /**
   * Every JSON error the route produces has one of its own status codes
   * (400, 401, 500) or the agent's non-2xx status; the route never answers
   * an error with a 2xx status, nor with one a response body cannot carry.
   */
  lemma ErrorStatuses(
    rows: map<string, Conversation>, user: Option<AuthUser>, body: Option<RouteBody>,
    lookupFault: Option<DbError>, insertFault: Option<DbError>, token: Option<string>,
    nowMs: nat, suffix: string, exchange: Exchange)
    ensures var r := PostSpec(rows, user, body, lookupFault, insertFault, token, nowMs, suffix, exchange);
      r.response.JsonError? ==>
        && !IsOk(r.response.status)
        && CanCarryBody(r.response.status)
        && (r.response.status in {400, 401, 500} || (exchange.Replied? && r.response.status == exchange.status))
  {
  }

  /** The table changes only by ensure-conversation: at most the request's session row is added, nothing is altered. */
  lemma TableOnlyGains(
    rows: map<string, Conversation>, user: Option<AuthUser>, body: Option<RouteBody>,
    lookupFault: Option<DbError>, insertFault: Option<DbError>, token: Option<string>,
    nowMs: nat, suffix: string, exchange: Exchange)
    ensures var r := PostSpec(rows, user, body, lookupFault, insertFault, token, nowMs, suffix, exchange);
      && (forall k :: k in rows ==> k in r.rows && r.rows[k] == rows[k])
      && (r.rows != rows ==>
            && user.Some? && body.Some? && Truthy(body.value.sessionId)
            && r.rows == rows[body.value.sessionId.value := NewConversation(body.value.sessionId.value, user.value.id)])
  {
    if user.Some? && body.Some? && Truthy(body.value.query) && Truthy(body.value.sessionId) {
      var sid := body.value.sessionId.value;
      EnsureGuarantees(rows, sid, user.value.id, lookupFault, insertFault);
      InsertOnlyOnNotFound(rows, sid, user.value.id, lookupFault, insertFault);
    }
  }

  // ---------------------------------------------------------------------------
  // The route and the chat layout together

  /** The body the chat layout posts, as the route parses it. */
  function BodyOf(req: ChatRequest): RouteBody {
    RouteBody(Some(req.query), Some(req.sessionId), Some(req.userId), None)
  }

  /**
   * A request the chat layout sends (its query and session id are never
   * empty) passes the route's validation; with a working database and a
   * token it reaches the agent with the same query and session id and the
   * signed-in user's id, and no files.
   */
  lemma LayoutRequestForwarded(
    rows: map<string, Conversation>, user: AuthUser, req: ChatRequest, token: string,
    nowMs: nat, suffix: string, exchange: Exchange)
    requires req.query != "" && req.sessionId != "" && token != ""
    ensures var r := PostSpec(rows, Some(user), Some(BodyOf(req)), None, None, Some(token), nowMs, suffix, exchange);
      && r.sent.Some?
      && r.sent.value.payload == AgentPayload(req.query, user.id, RequestId(nowMs, suffix), req.sessionId, None)
      && req.sessionId in r.rows
  {
    EnsureTwiceInsertsOnce(rows, req.sessionId, user.id);
    ForwardedIff(rows, Some(user), Some(BodyOf(req)), None, None, Some(token), nowMs, suffix, exchange);
  }

  /**
   * Every JSON error the route produces carries a non-empty message, so the
   * chat layout shows the route's own message rather than its
   * `API Error: <status>` fallback.
   */
  lemma ErrorMessagesNonEmpty(
    rows: map<string, Conversation>, user: Option<AuthUser>, body: Option<RouteBody>,
    lookupFault: Option<DbError>, insertFault: Option<DbError>, token: Option<string>,
    nowMs: nat, suffix: string, exchange: Exchange)
    ensures var r := PostSpec(rows, user, body, lookupFault, insertFault, token, nowMs, suffix, exchange);
      r.response.JsonError? ==> r.response.error != ""
  {
    var r := PostSpec(rows, user, body, lookupFault, insertFault, token, nowMs, suffix, exchange);
    if r.response.JsonError? && exchange.Replied? && r.sent.Some? && !IsOk(exchange.status) {
      var e := r.response.error;
      assert e[0] == 'A' || e == InternalError;
    }
  }

  /**
   * When the route answers with a JSON error and the layout reads its
   * `error` field back, the layout fails with exactly that message.
   */
  lemma RouteErrorReachesLayout(
    rows: map<string, Conversation>, user: Option<AuthUser>, body: Option<RouteBody>,
    lookupFault: Option<DbError>, insertFault: Option<DbError>, token: Option<string>,
    nowMs: nat, suffix: string, exchange: Exchange,
    relayed: Option<Stream>, parse: string -> Event, parseError: string -> ChatLayout.ErrorBody)
    requires var r := PostSpec(rows, user, body, lookupFault, insertFault, token, nowMs, suffix, exchange);
      && r.response.JsonError?
      && ResponseText(relayed).Ok?
      && parseError(ResponseText(relayed).value) == ChatLayout.ErrorField(Some(r.response.error))
    ensures var r := PostSpec(rows, user, body, lookupFault, insertFault, token, nowMs, suffix, exchange);
      ChatLayout.ReplyOutcome(Replied(r.response.status, relayed), parse, parseError)
        == Failed(Error(r.response.error), None)
  {
    ErrorStatuses(rows, user, body, lookupFault, insertFault, token, nowMs, suffix, exchange);
    ErrorMessagesNonEmpty(rows, user, body, lookupFault, insertFault, token, nowMs, suffix, exchange);
  }
}
