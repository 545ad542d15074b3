/**
 * `/api/messages`: storing one chat message. The `messages` table is a sequence
 * of rows; the session user and the insert's error are parameters.
 */
module MessagesRoute {
  import opened Common

  /** A row of the `messages` table as the route builds it. */
  datatype MessageRow = MessageRow(
    conversationId: Value, content: Value, role: Value, userId: UserId, isEmergencyPrompt: bool)

  /**
   * The request body: unreadable (not JSON, or JSON `null`, whose destructuring
   * throws), or the four fields the route reads plus an owner field a client
   * might add, which the route never reads.
   */
  datatype Request =
    | Unreadable
    | Message(conversationId: Value, content: Value, role: Value, isEmergencyPrompt: Value, userId: Value)

  datatype Body = Stored | ErrorBody(error: string)

  const Unauthorized := "Unauthorized"

  /** `insertData`: the body's fields copied, the owner taken from the session, the flag coerced with `Boolean`. */
  function InsertData(req: Request, uid: UserId): (row: MessageRow)
    requires req.Message?
    ensures row.conversationId == req.conversationId && row.content == req.content && row.role == req.role
    ensures row.userId == uid
    ensures row.isEmergencyPrompt <==> Truthy(req.isEmergencyPrompt)
  {
    MessageRow(req.conversationId, req.content, req.role, uid, Truthy(req.isEmergencyPrompt))
  }

  datatype Result = Result(response: Response<Body>, table: seq<MessageRow>)

  /**
   * `POST`. Reading the body runs outside the `try`, so an unreadable body
   * escapes the handler. Without a session: 401 and no insert. Otherwise the row
   * is inserted and the answer is `{ success: true }`, or, when the insert
   * reports an error, 500 with its message and no row.
   */
  function StoreMessage(req: Request, session: Option<UserId>, table: seq<MessageRow>,
                        insertError: Option<Thrown>): (res: Result)
    ensures req.Unreadable? ==> res == Result(Unhandled, table)
    ensures req.Message? && session.None? ==> res == Result(Json(401, ErrorBody(Unauthorized)), table)
    ensures req.Message? && session.Some? && insertError.Some? ==>
      res == Result(Json(500, ErrorBody(CaughtMessage(insertError.value))), table)
    ensures req.Message? && session.Some? && insertError.None? ==>
      res == Result(Json(200, Stored), table + [InsertData(req, session.value)])
  {
    if req.Unreadable? then Result(Unhandled, table)
    else if session.None? then Result(Json(401, ErrorBody(Unauthorized)), table)
    else if insertError.Some? then Result(Json(500, ErrorBody(CaughtMessage(insertError.value))), table)
    else Result(Json(200, Stored), table + [InsertData(req, session.value)])
  }

  /** The table only ever grows by rows owned by the session user, and only on a 200. */
  lemma StoredRowsBelongToSession(req: Request, session: Option<UserId>, table: seq<MessageRow>,
                                  insertError: Option<Thrown>)
    ensures var res := StoreMessage(req, session, table, insertError);
      && (res.table == table || (res.response == Json(200, Stored) && session.Some? &&
                                 res.table == table + [res.table[|table|]] && res.table[|table|].userId == session.value))
      && (res.response.Json? && res.response.status == 200 <==> res.table != table)
  {
    var res := StoreMessage(req, session, table, insertError);
    if res.table != table {
      assert |res.table| == |table| + 1;
    }
  }

  /** The stored flag is JavaScript's coercion: absent, null, false, 0 and "" give false; any non-empty string, "false" included, gives true. */
  lemma EmergencyFlagCoercion(uid: UserId, id: Value, content: Value, role: Value, claimed: Value, s: string)
    ensures !InsertData(Message(id, content, role, Missing, claimed), uid).isEmergencyPrompt
    ensures !InsertData(Message(id, content, role, Null, claimed), uid).isEmergencyPrompt
    ensures !InsertData(Message(id, content, role, Bool(false), claimed), uid).isEmergencyPrompt
    ensures !InsertData(Message(id, content, role, Num(0.0), claimed), uid).isEmergencyPrompt
    ensures !InsertData(Message(id, content, role, Str(""), claimed), uid).isEmergencyPrompt
    ensures InsertData(Message(id, content, role, Bool(true), claimed), uid).isEmergencyPrompt
    ensures InsertData(Message(id, content, role, Str("false"), claimed), uid).isEmergencyPrompt
    ensures s != "" ==> InsertData(Message(id, content, role, Str(s), claimed), uid).isEmergencyPrompt
  {
  }

  /** Whatever owner the client claims, the same row is stored. */
  lemma ClientOwnerIgnored(id: Value, content: Value, role: Value, flag: Value, claimed1: Value, claimed2: Value,
                           session: Option<UserId>, table: seq<MessageRow>, insertError: Option<Thrown>)
    ensures StoreMessage(Message(id, content, role, flag, claimed1), session, table, insertError)
         == StoreMessage(Message(id, content, role, flag, claimed2), session, table, insertError)
  {
  }
}
