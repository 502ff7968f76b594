# Chat send-and-stream cycle, modelled in Dafny

This project models the part of the chat application that has behaviour of
its own: what happens when a user sends a message. The cycle appears three
times:

- the chat test page (`app/chat/page.tsx`) ensures the conversation row
  itself and posts straight to the agent;
- the chat layout component (`components/chat/ChatLayout.tsx`) posts to the
  application's own chat route and keeps messages in the database's shape;
- the chat route (`app/api/chat/route.ts`) authenticates, validates,
  ensures the conversation, forwards to the agent and relays its event
  stream.

Each send has the same shape:

1. a guard that turns an empty input, or a missing user or session, into a
   no-op;
2. the trimmed user message is appended and loading starts;
3. the request is made;
4. once a response with a readable body arrives, an empty assistant
   placeholder is appended;
5. the reply is read chunk by chunk. Each chunk is split on `'\n'` and
   blank lines are dropped. Each line is parsed:
   - a line that does not parse is skipped;
   - `complete === true` ends the current chunk but not the stream;
   - a non-empty `text` replaces the accumulated text and is written into
     the placeholder;
6. anything thrown is shown in the error banner and appended as exactly one
   `Error: …` message; loading ends on every path.

Modules:

- `Wrappers`: `Option` and `Result`.
- `JsText`: the string operations the source relies on:
  - `String.prototype.trim` with ECMAScript's white-space and
    line-terminator set;
  - `split` on a character and the blank-line filter;
  - `Number.prototype.toString()` on the non-negative integers `Date.now()`
    returns.
- `Http`: what `fetch` can yield (a thrown value, or a status and an
  optional body stream that ends or fails), the thrown values, the banner
  and bubble texts, and the request payloads.
- `Reconciler`: the fold over lines and chunks that produces the reply.
  `JSON.parse` is a parameter `parse: string -> Event`. The fold is related
  to an independent reference definition: the list of texts that take
  effect, and the last one of them.
- `Conversations`: the session id `<user id>~<suffix>`, and
  ensure-conversation against a conversations table. The table is a class
  holding a map keyed by session id. Failures the backend reports for
  reasons the model cannot see are parameters.
- `ChatPage`: the chat test page as a class with the page's state. It
  covers the sign-in effect, `sendMessage` (guard, ensure-conversation,
  read loop, error path) and `clearChat`. Each method is proved against a
  specification function (`SendSpec`, `Settle`, `ProcessStream`).
- `ChatLayout`: the chat layout component as a class over the database
  `Message` shape (`lib/types/database.ts:42-53`). It covers
  `handleSendMessage` and `handleClearChat`.
- `ChatRoute`: the route's decision ladder as a pure function `PostSpec`,
  and `Post` as a method that runs it against the conversations table. The
  lemmas relate the route to the requests the chat layout sends and the
  error bodies it reads back.

Clock readings, random suffixes, what `fetch` yields, what a stream read
yields, and what `JSON.parse` yields are all inputs.

Two consequences of the source, which the model keeps as they are:

- A JSON object that a chunk boundary cuts in two is dropped as two
  unparsable halves. `Reconciler.InertChunkNoop` states what such a chunk
  does.
- On the chat test page, an error message created in the same millisecond
  as the placeholder has the same id as the placeholder
  (`ChatPage.MessageIds`).
- When the agent answers with a status that a response body cannot carry
  (304, or one outside 200..599), the route's `NextResponse.json` call
  throws and the route answers 500 `Internal server error`, not the
  agent's status (`ChatRoute.CanCarryBody`, following the Fetch standard's
  `Response` constructor).

## Model

| member | source | states |
|---|---|---|
| JsText.Trim | app/chat/page.tsx:83-88 | the result is the input with its leading and trailing ECMAScript white space removed: a slice of the input with only white space before and after it, neither starting nor ending with white space, and empty exactly when the input is all white space |
| JsText.TrimIdempotent | components/chat/ChatLayout.tsx:43-51 | trimming is idempotent: trimming a trimmed string changes nothing |
| JsText.SplitPartsFree | app/chat/page.tsx:166 | no part of `chunk.split('\n')` contains a newline |
| JsText.JoinSplit | app/chat/page.tsx:166 | splitting loses nothing and keeps order: joining the parts with the separator gives back the chunk |
| JsText.SplitNoSeparator | app/chat/page.tsx:166 | a chunk without a newline splits into itself alone |
| JsText.KeepNonBlank | app/chat/page.tsx:166 | the blank-line filter keeps exactly the lines that are not all white space, never adding one |
| JsText.KeepNonBlankAppend | app/chat/page.tsx:166 | the filter distributes over concatenation, so it keeps the order of the lines |
| JsText.NonBlankLines | components/chat/ChatLayout.tsx:118 | every line handed to the parser is free of newlines and not blank |
| JsText.DecimalString | app/chat/page.tsx:86 | the decimal text of a millisecond count is non-empty, made of digits only, and has two or more digits from 10 on |
| JsText.DecimalRoundTrip | app/chat/page.tsx:86 | the rendering's digits denote the number rendered, with no leading zero |
| JsText.DecimalStringInjective | app/chat/page.tsx:86 | different millisecond counts give different ids |
| Http.BubbleText | app/chat/page.tsx:206-211 | the error bubble reads `Error: ` followed by the thrown error's message |
| Reconciler.CommittedTexts | app/chat/page.tsx:168-191 | reference definition: the texts of a chunk's lines before its first completion signal, all non-empty |
| Reconciler.StreamTexts | app/chat/page.tsx:154-196 | reference definition: the committed texts of every chunk in order, all non-empty |
| Reconciler.ProcessLinesIsLastText | app/chat/page.tsx:168-191 | processing a chunk's lines leaves the last text that took effect, or the reply untouched |
| Reconciler.ProcessStreamIsLastText | app/chat/page.tsx:154-196 | processing a stream leaves the last text any chunk committed before its completion signal |
| Reconciler.FinalTextOfStream | app/chat/page.tsx:151-196 | a fresh reply ends holding the last non-empty text of the stream, or "" with nothing committed |
| Reconciler.CompleteEndsChunk | app/chat/page.tsx:173-176 | a completion signal ends its chunk: the lines after it are ignored and the text is unchanged |
| Reconciler.InertLineSkipped | app/chat/page.tsx:169-194 | an unparsable line, or one without a non-empty text, is skipped and the lines around it are processed as if it were absent |
| Reconciler.EmptyTextIgnored | app/chat/page.tsx:179-191 | an event whose text is empty leaves the reply as it was |
| Reconciler.DuplicateEventNoop | app/chat/page.tsx:179-188 | an event applied twice in a row has the effect of applying it once |
| Reconciler.ReplayedChunkNoop | app/chat/page.tsx:162-195 | the same chunk delivered twice in a row has the effect of delivering it once |
| Reconciler.InertChunkNoop | app/chat/page.tsx:162-195 | a chunk of only inert lines (such as the two halves of a cut object) leaves the reply as it was |
| Reconciler.InertLinesNoop | app/chat/page.tsx:168-195 | lines that are all inert leave the reply as it was |
| Reconciler.LaterChunkAfterComplete | app/chat/page.tsx:154-176 | a completion signal does not end the stream: a later chunk's text still replaces the reply |
| Reconciler.StreamOutcome | app/chat/page.tsx:153-199 | reading a body completes exactly when the stream ends normally; a failed read fails with what it threw and keeps the partial reply |
| Conversations.SessionIdFor | app/chat/page.tsx:36-37 | the session id is never empty |
| Conversations.OwnerOfSessionId | app/chat/page.tsx:35-37 | the part of the session id before `~` is the user's id, when the user id has no `~` |
| Conversations.ConversationTable.Select | app/chat/page.tsx:48-52 | the lookup reports the injected fault when there is one, otherwise nothing for a present row and the PGRST116 not-found error for a missing one |
| Conversations.ConversationTable.Insert | app/chat/page.tsx:56-63 | the insert reports an injected fault, the unique-key violation 23505 for a session already present, or nothing; it adds the row exactly when it reports nothing |
| Conversations.EnsureConversation | app/chat/page.tsx:46-80 | the table and the thrown message are those of the ensure specification |
| Conversations.EnsureGuarantees | app/chat/page.tsx:54-75 | success leaves the row present; existing rows never change; the only new row is the session's with the user id, null title and empty metadata; a failure changes nothing |
| Conversations.InsertOnlyOnNotFound | app/chat/page.tsx:54-63 | the table changes exactly when the lookup reports code PGRST116 and the insert succeeds |
| Conversations.EnsureErrorMessages | app/chat/page.tsx:65-72 | a found row is a no-op; another lookup error fails with `Database error: <message>`; an insert error with `Failed to create conversation: <message>` |
| Conversations.EnsureTwiceInsertsOnce | app/chat/page.tsx:48-69 | a second ensure of the same session finds the row and inserts nothing |
| ChatPage.WithContent | app/chat/page.tsx:184-188 | the rewrite keeps the list's length, changes only the messages with the placeholder's id, and changes only their content |
| ChatPage.RewriteCollapses | app/chat/page.tsx:179-188 | writing two texts in turn leaves the list as writing the second alone |
| ChatPage.CommitStep | app/chat/page.tsx:179-188 | writing a text into a list that shows a reply gives the list that shows the new text |
| ChatPage.ChatPage.constructor | app/chat/page.tsx:16-21 | the page starts with no messages, no input, no user or session, not loading and no error |
| ChatPage.ChatPage.LoadUser | app/chat/page.tsx:26-43 | a signed-in user is stored with the session id `<user id>~<suffix>`; with no user nothing changes |
| ChatPage.ChatPage.SetInput | app/chat/page.tsx:319 | the input holds the typed text |
| ChatPage.ChatPage.ClearChat | app/chat/page.tsx:225-228 | the list is empty and the error cleared |
| ChatPage.ChatPage.ReadStream | app/chat/page.tsx:150-199 | the read loop leaves the accumulated text of the fold and the list with the placeholder showing it, everything else unchanged |
| ChatPage.ChatPage.ReadChunk | app/chat/page.tsx:166-195 | one chunk's lines leave the reply of the chunk fold and the list showing it |
| ChatPage.ChatPage.ReceiveReply | app/chat/page.tsx:115-199 | the failure reaching the catch and the list are those of the send outcome: no placeholder unless a 2xx response has a body |
| ChatPage.ChatPage.Deliver | app/chat/page.tsx:97-215 | the table, the request, the list and the banner are those of the send specification; loading ends |
| ChatPage.ChatPage.SendMessage | app/chat/page.tsx:82-216 | a send the guard stops changes nothing and sends nothing; otherwise the trimmed user message is appended, the input cleared, the conversation ensured, and the table, request, list and banner follow the send specification, with loading over |
| ChatPage.PlaceholderNeedsReader | app/chat/page.tsx:126-148 | a placeholder appears exactly when the conversation was ensured and the response is 2xx with a body |
| ChatPage.NonOkResponse | app/chat/page.tsx:126-130 | a non-2xx response fails with `API Error: <status> - <body text>` (an empty text when there is no body), or with what a failed body read threw, and never gets a placeholder |
| ChatPage.SettleShape | app/chat/page.tsx:201-212 | the history keeps its ids and roles, and everything but the placeholder is unchanged; the placeholder follows the history; a failure appends exactly one error message, last |
| ChatPage.PlaceholderShowsLastText | app/chat/page.tsx:138-196 | the placeholder ends holding the last non-empty text of the stream, with its id, role and timestamp unchanged |
| ChatPage.MessageIds | app/chat/page.tsx:86-207 | the user message's id differs from later placeholder and error ids; the error id equals the placeholder id exactly when both are created in the same millisecond |
| ChatLayout.IdsDistinct | components/chat/ChatLayout.tsx:46-168 | `temp-…-user`, `temp-…-ai` and `error-…` ids never coincide |
| ChatLayout.AiIdInjective | components/chat/ChatLayout.tsx:86 | placeholders created in different milliseconds have different ids |
| ChatLayout.WithContent | components/chat/ChatLayout.tsx:137-149 | the rewrite keeps the list's length and every other message, and changes only `message.content` of the matching one |
| ChatLayout.RewriteCollapses | components/chat/ChatLayout.tsx:133-149 | writing two texts in turn leaves the list as writing the second alone |
| ChatLayout.CommitStep | components/chat/ChatLayout.tsx:133-149 | writing a text into a list that shows a reply gives the list that shows the new text |
| ChatLayout.ChatLayout.constructor | components/chat/ChatLayout.tsx:12-16 | the view starts with no messages, no user or session, not loading and no error |
| ChatLayout.ChatLayout.LoadUser | components/chat/ChatLayout.tsx:21-40 | a signed-in user is stored with the session id `<user id>~<suffix>`; with no user nothing changes |
| ChatLayout.ChatLayout.HandleClearChat | components/chat/ChatLayout.tsx:186-189 | the list is empty and the error cleared |
| ChatLayout.ChatLayout.ReadStream | components/chat/ChatLayout.tsx:102-161 | the read loop leaves the accumulated text of the fold and the list with the placeholder showing it |
| ChatLayout.ChatLayout.ReadChunk | components/chat/ChatLayout.tsx:118-157 | one chunk's lines leave the reply of the chunk fold and the list showing it |
| ChatLayout.ChatLayout.ReceiveReply | components/chat/ChatLayout.tsx:62-161 | the failure reaching the catch and the list are those of the reply outcome |
| ChatLayout.ChatLayout.Deliver | components/chat/ChatLayout.tsx:61-183 | the list and the banner are those of the settled outcome; loading ends |
| ChatLayout.ChatLayout.HandleSendMessage | components/chat/ChatLayout.tsx:42-184 | a send the guard stops changes nothing and posts nothing; otherwise it posts `{query, user_id, session_id}` with the trimmed input, appends the human message, and settles the list and banner, with loading over |
| ChatLayout.NonOkResponse | components/chat/ChatLayout.tsx:74-77 | a non-2xx response fails with the body's non-empty `error` string, with `API Error: <status>` when it is absent or empty, or with what reading or parsing threw |
| ChatLayout.PlaceholderNeedsReader | components/chat/ChatLayout.tsx:74-100 | the placeholder appears exactly when the response is 2xx with a body |
| ChatLayout.SettleShape | components/chat/ChatLayout.tsx:162-180 | the history and the human message keep their place; the `ai` placeholder follows; a failure appends exactly one error message, last |
| ChatLayout.PlaceholderShowsLastText | components/chat/ChatLayout.tsx:86-158 | the placeholder ends holding the last non-empty text of the stream |
| ChatRoute.Post | app/api/chat/route.ts:4-133 | the response, the upstream request and the table are those of the route's decision ladder, including 500 when the agent's non-2xx status cannot carry a JSON body |
| ChatRoute.RejectedBeforeDatabase | app/api/chat/route.ts:13-25 | no user is 401 `Unauthorized`, an unreadable body 500, a missing query or session 400 `Missing query or session_id`; none touches the table or calls the agent |
| ChatRoute.ForwardedIff | app/api/chat/route.ts:13-105 | the agent is called exactly when every check passes and the conversation could be ensured; the row then exists |
| ChatRoute.PayloadFields | app/api/chat/route.ts:87-105 | the agent gets the body's query and session, the signed-in user's id, the request id, the files only when present, and the bearer token |
| ChatRoute.BodyUserIdIgnored | app/api/chat/route.ts:17-93 | the `user_id` the client sends has no effect on anything the route does |
| ChatRoute.UpstreamAnswer | app/api/chat/route.ts:98-131 | the agent's body is relayed exactly on 2xx; another status a response body may carry is passed on with `API Error: <status> - <text>`; a status that cannot carry one (such as 304), a failed fetch or a failed read is 500 `Internal server error` |
| ChatRoute.ErrorStatuses | app/api/chat/route.ts:13-131 | every JSON error carries 400, 401, 500 or the agent's own non-2xx status, never a 2xx and never one a response body cannot carry |
| ChatRoute.TableOnlyGains | app/api/chat/route.ts:28-62 | the table changes only by adding the request's session row for the signed-in user; no row is altered |
| ChatRoute.LayoutRequestForwarded | app/api/chat/route.ts:17-93 | a request the chat layout sends passes validation and, with a working database and a token, reaches the agent with its query and session and the user's id |
| ChatRoute.ErrorMessagesNonEmpty | app/api/chat/route.ts:13-131 | every JSON error message is non-empty |
| ChatRoute.RouteErrorReachesLayout | components/chat/ChatLayout.tsx:74-77 | when the layout reads back a route error's `error` field, it fails with exactly that message |

## Left out

- I/O is not modelled: `fetch`, the stream reader and `releaseLock`, the
  backend client, cookies, headers and environment URLs. Their results are
  parameters.
- `TextDecoder` is not modelled: chunks are already-decoded strings.
- `JSON.parse` is a parameter; so is reading an error body as JSON in the
  chat layout.
- `Date.now()`, `new Date().toISOString()` and `Math.random()` are
  parameters (`Stamps`, suffix strings).
- Console logging is not modelled.
- The async interleaving of React state updates is not modelled: the
  `setMessages(prev => …)` updaters are applied in program order.
- A stream that never ends is not modelled; a stream is a finite sequence
  of chunks with an end.
- JSON values of the wrong type are not modelled:
  - a non-string `text`, `query`, `session_id` or `error` (a number, an
    object, `null` stored as content);
  - a `files` value that is not an array.

  Fields are `Option<string>` and `Option<seq<FileAttachment>>`.
- An exception thrown by the backend client itself, as opposed to an error
  it returns, is not modelled.
- The route's streamed response headers are not modelled. The chat
  layout's posting to the route and the route's relaying are related by
  lemmas, not composed into one send.
- The rendering, scrolling and styling components are not modelled, and
  neither are the login pages.
- ChatRoute.Post: the `Authorization` header is modelled as its string
  value; the URL and the other headers are left out.
