/**
 * The conversation session manager: a session id derived from the signed-in
 * user, and "ensure conversation", which looks the session up in the
 * backend's `conversations` table and inserts a row only when the lookup
 * reports the not-found error code. The table is a map keyed by session id;
 * failures the backend may report for reasons the model cannot see (network,
 * permissions) are parameters.
 */
module Conversations {
  import opened Wrappers

  datatype AuthUser = AuthUser(id: string)

  /** `${user.id}~${randomSuffix}`, built once the user is known. */
  function SessionIdFor(userId: string, suffix: string): (sid: string)
    ensures sid != ""
  {
    userId + "~" + suffix
  }

  /** The user part of a session id: everything before its first '~'. */
  function Owner(sessionId: string): string {
    if sessionId == [] || sessionId[0] == '~' then [] else [sessionId[0]] + Owner(sessionId[1..])
  }

  /** A user id without '~' can be read back from the session id built from it. */
  lemma {:induction false} OwnerOfSessionId(userId: string, suffix: string)
    requires '~' !in userId
    ensures Owner(SessionIdFor(userId, suffix)) == userId
  {
    var sid := SessionIdFor(userId, suffix);
    if userId != [] {
      assert sid[0] == userId[0] && sid[1..] == SessionIdFor(userId[1..], suffix);
      OwnerOfSessionId(userId[1..], suffix);
      assert userId == [userId[0]] + userId[1..];
    } else {
      assert sid[0] == '~';
    }
  }

  /** An error object of the backend client: `error.code`, `error.message`. */
  datatype DbError = DbError(code: string, message: string)

  /** The code `.single()` reports when no row matches. */
  const NotFoundCode := "PGRST116"
  const NotFoundMessage := "JSON object requested, multiple (or no) rows returned"
  /** The code the database reports for a second row with the same key. */
  const UniqueViolationCode := "23505"
  const UniqueViolationMessage := "duplicate key value violates unique constraint"

  const CreateFailedPrefix := "Failed to create conversation: "
  const DatabaseErrorPrefix := "Database error: "

  /** A row of `conversations`: `{session_id, user_id, title, metadata}`. */
  datatype Conversation = Conversation(
    sessionId: string,
    userId: string,
    title: Option<string>,
    metadata: map<string, string>)

  /** The row ensure-conversation inserts: null title, empty metadata. */
  function NewConversation(sessionId: string, userId: string): Conversation {
    Conversation(sessionId, userId, None, map[])
  }

  /** What `ConversationTable.Select` reports, as a value for the ensure specification. */
  function Lookup(rows: map<string, Conversation>, sessionId: string, fault: Option<DbError>): Option<DbError> {
    if fault.Some? then fault
    else if sessionId in rows then None
    else Some(DbError(NotFoundCode, NotFoundMessage))
  }

  /** What `ConversationTable.Insert` reports, as a value for the ensure specification. */
  function InsertError(rows: map<string, Conversation>, row: Conversation, fault: Option<DbError>): Option<DbError> {
    if fault.Some? then fault
    else if row.sessionId in rows then Some(DbError(UniqueViolationCode, UniqueViolationMessage))
    else None
  }

  /** The backend's `conversations` table. */
  class ConversationTable {
    var rows: map<string, Conversation>

    constructor(initial: map<string, Conversation>)
      ensures rows == initial
    {
      rows := initial;
    }

    /** `.select('session_id').eq('session_id', sid).single()`; `fault` is a failure the table does not explain. */
    method Select(sessionId: string, fault: Option<DbError>) returns (err: Option<DbError>)
      ensures fault.Some? ==> err == fault
      ensures fault.None? && sessionId in rows ==> err.None?
      ensures fault.None? && sessionId !in rows ==> err == Some(DbError(NotFoundCode, NotFoundMessage))
    {
      if fault.Some? {
        err := fault;
      } else if sessionId in rows {
        err := None;
      } else {
        err := Some(DbError(NotFoundCode, NotFoundMessage));
      }
    }

    /** `.insert(row)`: a second row for the same session violates the table's unique key. */
    method Insert(row: Conversation, fault: Option<DbError>) returns (err: Option<DbError>)
      modifies this
      ensures fault.Some? ==> err == fault
      ensures fault.None? && row.sessionId in old(rows) ==> err == Some(DbError(UniqueViolationCode, UniqueViolationMessage))
      ensures fault.None? && row.sessionId !in old(rows) ==> err.None?
      ensures rows == if err.None? then old(rows)[row.sessionId := row] else old(rows)
    {
      err := InsertError(rows, row, fault);
      if err.None? {
        rows := rows[row.sessionId := row];
      }
    }
  }

  /** The table after ensure-conversation, and the message it fails with, if any. */
  datatype Ensured = Ensured(rows: map<string, Conversation>, error: Option<string>)

  /** What ensure-conversation does to the table and what it reports. */
  function EnsureSpec(
    rows: map<string, Conversation>, sessionId: string, userId: string,
    lookupFault: Option<DbError>, insertFault: Option<DbError>): Ensured
  {
    var lookup := Lookup(rows, sessionId, lookupFault);
    if lookup.Some? && lookup.value.code == NotFoundCode then
      var row := NewConversation(sessionId, userId);
      var inserted := InsertError(rows, row, insertFault);
      if inserted.Some? then Ensured(rows, Some(CreateFailedPrefix + inserted.value.message))
      else Ensured(rows[sessionId := row], None)
    else if lookup.Some? then Ensured(rows, Some(DatabaseErrorPrefix + lookup.value.message))
    else Ensured(rows, None)
  }

  /** Ensure-conversation against the table; `error` is the message it throws (or returns). */
  method EnsureConversation(
    table: ConversationTable, sessionId: string, userId: string,
    lookupFault: Option<DbError>, insertFault: Option<DbError>)
    returns (error: Option<string>)
    modifies table
    ensures Ensured(table.rows, error) == EnsureSpec(old(table.rows), sessionId, userId, lookupFault, insertFault)
  {
    var lookup := table.Select(sessionId, lookupFault);
    if lookup.Some? && lookup.value.code == NotFoundCode {
      var inserted := table.Insert(NewConversation(sessionId, userId), insertFault);
      if inserted.Some? {
        error := Some(CreateFailedPrefix + inserted.value.message);
      } else {
        error := None;
      }
    } else if lookup.Some? {
      error := Some(DatabaseErrorPrefix + lookup.value.message);
    } else {
      error := None;
    }
  }

  /**
   * Success means the conversation exists afterwards; existing rows are
   * never changed; the only row that can appear is the new session's, with
   * the signed-in user, a null title and empty metadata; a failure changes
   * nothing.
   */
  lemma EnsureGuarantees(
    rows: map<string, Conversation>, sessionId: string, userId: string,
    lookupFault: Option<DbError>, insertFault: Option<DbError>)
    ensures var e := EnsureSpec(rows, sessionId, userId, lookupFault, insertFault);
      && (e.error.None? ==> sessionId in e.rows)
      && (forall k :: k in rows ==> k in e.rows && e.rows[k] == rows[k])
      && e.rows.Keys <= rows.Keys + {sessionId}
      && (sessionId in e.rows && sessionId !in rows ==> e.rows[sessionId] == NewConversation(sessionId, userId))
      && (e.error.Some? ==> e.rows == rows)
  {
  }

  /** A row is inserted exactly when the lookup reports the not-found code and the insert succeeds. */
  lemma InsertOnlyOnNotFound(
    rows: map<string, Conversation>, sessionId: string, userId: string,
    lookupFault: Option<DbError>, insertFault: Option<DbError>)
    ensures var e := EnsureSpec(rows, sessionId, userId, lookupFault, insertFault);
      var lookup := Lookup(rows, sessionId, lookupFault);
      e.rows != rows <==>
        && lookup.Some? && lookup.value.code == NotFoundCode
        && InsertError(rows, NewConversation(sessionId, userId), insertFault).None?
  {
    var row := NewConversation(sessionId, userId);
    if sessionId !in rows {
      assert sessionId in rows[sessionId := row];
    }
  }

  /** The failure messages: "Database error: " for a lookup that failed otherwise, "Failed to create conversation: " for an insert. */
  lemma EnsureErrorMessages(
    rows: map<string, Conversation>, sessionId: string, userId: string,
    lookupFault: Option<DbError>, insertFault: Option<DbError>)
    ensures var e := EnsureSpec(rows, sessionId, userId, lookupFault, insertFault);
      var lookup := Lookup(rows, sessionId, lookupFault);
      var inserted := InsertError(rows, NewConversation(sessionId, userId), insertFault);
      && (lookup.None? ==> e == Ensured(rows, None))
      && (lookup.Some? && lookup.value.code != NotFoundCode ==>
            e.error == Some(DatabaseErrorPrefix + lookup.value.message))
      && (lookup.Some? && lookup.value.code == NotFoundCode && inserted.Some? ==>
            e.error == Some(CreateFailedPrefix + inserted.value.message))
  {
  }

  /** Two ensures in a row for the same session insert at most once: the second finds the row. */
  lemma EnsureTwiceInsertsOnce(rows: map<string, Conversation>, sessionId: string, userId: string)
    ensures var first := EnsureSpec(rows, sessionId, userId, None, None);
      && first.error.None?
      && first.rows == (if sessionId in rows then rows else rows[sessionId := NewConversation(sessionId, userId)])
      && EnsureSpec(first.rows, sessionId, userId, None, None) == Ensured(first.rows, None)
  {
    var first := EnsureSpec(rows, sessionId, userId, None, None);
    assert sessionId in first.rows;
  }
}
