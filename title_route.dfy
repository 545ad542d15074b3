/**
 * `/api/title`: asks the AI server for a title for a conversation's first message
 * and stores it on the conversation. The AI server, the session and the update's
 * error are parameters; the `conversations` table is the sequence of rows of
 * the conversations route.
 */
module TitleRoute {
  import opened Common
  import opened Text
  import ConversationsRoute

  type Row = ConversationsRoute.Row

  /** The request body: not JSON, or the two fields the route reads. */
  datatype Request = Unparsable | Body(conversationId: Value, message: Value)

  /**
   * How the AI call ends: `fetch` or reading its JSON body throws, or a response
   * arrives with its `ok` flag and the `title` field of its body (read only when ok).
   */
  datatype AiOutcome = AiThrew | AiReplied(ok: bool, title: Value)

  /** A request to the AI server: the URL and the `query` field of its body. */
  datatype AiCall = AiCall(endpoint: string, query: Value)

  datatype ResponseBody = TitleSet(title: Value) | ErrorBody(error: string)

  const MissingFields := "conversationId and message are required."
  const Failure := "Failed to generate title."
  const Unauthorized := "Unauthorized"

  /**
   * `` `${process.env.NEXT_PUBLIC_AI_API_ENDPOINT?.replace('/ask', '')}/generate-title` ``:
   * with the variable unset the optional chain yields `undefined`, which the
   * template literal spells out.
   */
  function AiEndpoint(env: Option<string>): (r: string)
    ensures |r| >= 15 && r[|r| - 15..] == "/generate-title"
    ensures env.Some? ==> |r| == |env.value| + 15 || |r| == |env.value| + 11
  {
    (if env.None? then "undefined" else ReplaceFirst(env.value, "/ask", "")) + "/generate-title"
  }

  /**
   * The endpoint is the configured one with its first "/ask" cut out, followed by
   * "/generate-title"; a configuration without "/ask" is kept whole.
   */
  lemma AiEndpointShape(e: string, i: nat)
    ensures !Occurs(e, "/ask") ==> AiEndpoint(Some(e)) == e + "/generate-title"
    ensures OccursAt(e, "/ask", i) && (forall j :: 0 <= j < i ==> !OccursAt(e, "/ask", j)) ==>
      AiEndpoint(Some(e)) == e[..i] + e[i + 4..] + "/generate-title"
  {
    if !Occurs(e, "/ask") {
      ReplaceFirstAbsent(e, "/ask", "");
    }
    if OccursAt(e, "/ask", i) && (forall j :: 0 <= j < i ==> !OccursAt(e, "/ask", j)) {
      ReplaceFirstAt(e, "/ask", "", i);
      assert e[..i] + "" == e[..i];
    }
  }

  /** In `base + "/ask"`, with no "/ask" in `base`, no occurrence starts inside `base`. */
  lemma AskOnlyAtJoin(base: string, j: int)
    requires !Occurs(base, "/ask") && 0 <= j < |base|
    ensures !OccursAt(base + "/ask", "/ask", j)
  {
    var e := base + "/ask";
    if j + 4 <= |base| {
      assert e[j..j + 4] == base[j..j + 4];
      assert !OccursAt(base, "/ask", j);
    } else {
      var m := |base| - j;
      assert e[j..j + 4][m] == e[|base|] == '/';
      assert "/ask"[m] != '/';
    }
  }

  /** The usual configuration, an endpoint ending in "/ask", gives its base plus "/generate-title". */
  lemma AiEndpointOfAskUrl(base: string)
    requires !Occurs(base, "/ask")
    ensures AiEndpoint(Some(base + "/ask")) == base + "/generate-title"
  {
    var e := base + "/ask";
    var i := |base|;
    assert e[i..i + 4] == "/ask";
    forall j | 0 <= j < i ensures !OccursAt(e, "/ask", j) {
      AskOnlyAtJoin(base, j);
    }
    ReplaceFirstAt(e, "/ask", "", i);
    assert e[..i] == base && e[i + 4..] == [];
    assert ReplaceFirst(e, "/ask", "") == base;
  }

  /** `.update({ title }).eq('id', conversationId).eq('user_id', uid)`: retitle only the user's rows with that id. */
  function Retitle(table: seq<Row>, conversationId: Value, uid: UserId, title: Value): (t: seq<Row>)
    ensures |t| == |table|
    ensures forall k :: 0 <= k < |table| ==>
      t[k] == if Str(table[k].id) == conversationId && table[k].userId == uid then table[k].(title := title) else table[k]
  {
    if table == [] then []
    else
      var r := table[0];
      [if Str(r.id) == conversationId && r.userId == uid then r.(title := title) else r]
        + Retitle(table[1..], conversationId, uid, title)
  }

  datatype Result = Result(response: Response<ResponseBody>, table: seq<Row>, aiCalls: seq<AiCall>)

  /**
   * `POST`. Everything, reading the body included, runs inside one `try` whose
   * `catch` answers 500 with a fixed message. Missing fields are rejected before
   * any call. Then the AI server is asked; a failed call, a non-ok answer or a
   * falsy title is a 500. Only then is the session checked (401 without one), and
   * the update's error is a 500 as well.
   */
  function GenerateTitle(req: Request, env: Option<string>, ai: AiOutcome, session: Option<UserId>,
                         table: seq<Row>, updateError: Option<Thrown>): (res: Result)
    ensures req.Unparsable? ==> res == Result(Json(500, ErrorBody(Failure)), table, [])
    ensures req.Body? && (!Truthy(req.conversationId) || !Truthy(req.message)) ==>
      res == Result(Json(400, ErrorBody(MissingFields)), table, [])
    ensures req.Body? && Truthy(req.conversationId) && Truthy(req.message) ==>
      res.aiCalls == [AiCall(AiEndpoint(env), req.message)]
    ensures req.Body? && Truthy(req.conversationId) && Truthy(req.message) &&
            !(ai.AiReplied? && ai.ok && Truthy(ai.title)) ==>
      res.response == Json(500, ErrorBody(Failure)) && res.table == table
    ensures req.Body? && Truthy(req.conversationId) && Truthy(req.message) &&
            ai.AiReplied? && ai.ok && Truthy(ai.title) ==>
      && (session.None? ==> res.response == Json(401, ErrorBody(Unauthorized)) && res.table == table)
      && (session.Some? && updateError.Some? ==> res.response == Json(500, ErrorBody(Failure)) && res.table == table)
      && (session.Some? && updateError.None? ==>
            res.response == Json(200, TitleSet(ai.title)) &&
            res.table == Retitle(table, req.conversationId, session.value, ai.title))
  {
    if req.Unparsable? then Result(Json(500, ErrorBody(Failure)), table, [])
    else if !Truthy(req.conversationId) || !Truthy(req.message) then Result(Json(400, ErrorBody(MissingFields)), table, [])
    else
      var calls := [AiCall(AiEndpoint(env), req.message)];
      if !(ai.AiReplied? && ai.ok && Truthy(ai.title)) then Result(Json(500, ErrorBody(Failure)), table, calls)
      else if session.None? then Result(Json(401, ErrorBody(Unauthorized)), table, calls)
      else if updateError.Some? then Result(Json(500, ErrorBody(Failure)), table, calls)
      else Result(Json(200, TitleSet(ai.title)), Retitle(table, req.conversationId, session.value, ai.title), calls)
  }

  /** Rows of other users, and rows with another id, are never changed by the route. */
  lemma OnlyOwnedRowRetitled(req: Request, env: Option<string>, ai: AiOutcome, session: Option<UserId>,
                             table: seq<Row>, updateError: Option<Thrown>, k: int)
    requires 0 <= k < |table|
    requires session.None? || table[k].userId != session.value || !(req.Body? && Str(table[k].id) == req.conversationId)
    ensures |GenerateTitle(req, env, ai, session, table, updateError).table| == |table|
    ensures GenerateTitle(req, env, ai, session, table, updateError).table[k] == table[k]
  {
  }

  /** The AI server is asked before the session is checked: a signed-out request with both fields costs one AI call and ends in 401 or 500. */
  lemma SignedOutStillCallsAi(conversationId: Value, message: Value, env: Option<string>, ai: AiOutcome,
                              table: seq<Row>, updateError: Option<Thrown>)
    requires Truthy(conversationId) && Truthy(message)
    ensures var res := GenerateTitle(Body(conversationId, message), env, ai, None, table, updateError);
      |res.aiCalls| == 1 && res.table == table &&
      res.response in {Json(401, ErrorBody(Unauthorized)), Json(500, ErrorBody(Failure))}
  {
  }

  /** A 200 carries the AI's title, and that title is then on every row the user owns with that id. */
  lemma SuccessStoresTitle(req: Request, env: Option<string>, ai: AiOutcome, uid: UserId,
                           table: seq<Row>, updateError: Option<Thrown>)
    requires GenerateTitle(req, env, ai, Some(uid), table, updateError).response.Json?
    requires GenerateTitle(req, env, ai, Some(uid), table, updateError).response.status == 200
    ensures ai.AiReplied? && Truthy(ai.title) && req.Body?
    ensures var res := GenerateTitle(req, env, ai, Some(uid), table, updateError);
      res.response.body == TitleSet(ai.title) &&
      forall k :: 0 <= k < |res.table| && res.table[k].userId == uid && Str(res.table[k].id) == req.conversationId ==>
        res.table[k].title == ai.title
  {
  }
}
