/**
 * `/api/conversations`: the signed-in user's conversation list (GET) and the
 * creation of a conversation (POST). The `conversations` table is a sequence of
 * rows; the session user, the store's errors and the values the store assigns
 * on insert are parameters.
 */
module ConversationsRoute {
  import opened Common

  /** A row of the `conversations` table; `title` is whatever JSON value the creator sent. */
  datatype Row = Row(id: string, title: Value, userId: UserId, createdAt: int)

  /** The `select('id, title')` projection of a row. */
  datatype Summary = Summary(id: string, title: Value)

  datatype Body = Listing(items: seq<Summary>) | Created(row: Row) | ErrorBody(error: string)

  const Unauthorized := "Unauthorized"

  /** `.eq('user_id', uid)`: the rows the user owns, in table order. */
  function OwnedBy(table: seq<Row>, uid: UserId): (owned: seq<Row>)
    ensures forall r :: r in owned <==> r in table && r.userId == uid
    ensures |owned| <= |table|
  {
    if table == [] then []
    else (if table[0].userId == uid then [table[0]] else []) + OwnedBy(table[1..], uid)
  }

  /** Newest first: `created_at` never increases along the sequence. */
  ghost predicate NewestFirst(rows: seq<Row>) {
    forall i, j :: 0 <= i < j < |rows| ==> rows[i].createdAt >= rows[j].createdAt
  }

  /** Put `r` in front of the first row that is not newer than it. */
  function InsertByDate(r: Row, sorted: seq<Row>): (s: seq<Row>)
    ensures multiset(s) == multiset(sorted) + multiset{r}
    ensures |s| == |sorted| + 1
  {
    if sorted == [] || r.createdAt >= sorted[0].createdAt then [r] + sorted
    else
      assert sorted == [sorted[0]] + sorted[1..];
      [sorted[0]] + InsertByDate(r, sorted[1..])
  }

  /** Inserting a row no newer than `t` among rows no newer than `t` gives rows no newer than `t`. */
  lemma {:induction false} InsertBounded(r: Row, sorted: seq<Row>, t: int)
    requires r.createdAt <= t
    requires forall k :: 0 <= k < |sorted| ==> sorted[k].createdAt <= t
    ensures forall k :: 0 <= k < |InsertByDate(r, sorted)| ==> InsertByDate(r, sorted)[k].createdAt <= t
  {
    if sorted != [] && r.createdAt < sorted[0].createdAt {
      InsertBounded(r, sorted[1..], t);
    }
  }

  /** Inserting into a newest-first sequence keeps it newest first. */
  lemma {:induction false} InsertKeepsNewestFirst(r: Row, sorted: seq<Row>)
    requires NewestFirst(sorted)
    ensures NewestFirst(InsertByDate(r, sorted))
  {
    if sorted != [] && r.createdAt < sorted[0].createdAt {
      var rest := InsertByDate(r, sorted[1..]);
      InsertKeepsNewestFirst(r, sorted[1..]);
      InsertBounded(r, sorted[1..], sorted[0].createdAt);
      assert InsertByDate(r, sorted) == [sorted[0]] + rest;
    }
  }

  /** `.order('created_at', { ascending: false })`, as an insertion sort. */
  function SortNewestFirst(rows: seq<Row>): (s: seq<Row>)
    ensures multiset(s) == multiset(rows)
    ensures NewestFirst(s)
  {
    if rows == [] then []
    else
      assert rows == [rows[0]] + rows[1..];
      var rest := SortNewestFirst(rows[1..]);
      InsertKeepsNewestFirst(rows[0], rest);
      InsertByDate(rows[0], rest)
  }

  function Summaries(rows: seq<Row>): (items: seq<Summary>)
    ensures |items| == |rows|
    ensures forall k :: 0 <= k < |rows| ==> items[k] == Summary(rows[k].id, rows[k].title)
  {
    if rows == [] then [] else [Summary(rows[0].id, rows[0].title)] + Summaries(rows[1..])
  }

  /**
   * The rows the list query returns for `uid`: exactly the user's rows, each as
   * often as in the table, newest first. Rows with equal `created_at` come out in
   * an order the database does not promise; this model fixes one.
   */
  function ListQuery(table: seq<Row>, uid: UserId): (q: seq<Row>)
    ensures multiset(q) == multiset(OwnedBy(table, uid))
    ensures forall r :: r in q <==> r in table && r.userId == uid
    ensures NewestFirst(q)
  {
    var owned := OwnedBy(table, uid);
    var q := SortNewestFirst(owned);
    assert forall r :: r in q <==> r in multiset(q);
    q
  }

  /**
   * `GET`. Without a session: an empty list with status 200, not an error. With
   * one: the summaries of the list query, or 500 with the store error's message.
   */
  function Get(session: Option<UserId>, table: seq<Row>, storeError: Option<Thrown>): (r: Response<Body>)
    ensures session.None? ==> r == Json(200, Listing([]))
    ensures session.Some? && storeError.Some? ==> r == Json(500, ErrorBody(CaughtMessage(storeError.value)))
    ensures session.Some? && storeError.None? ==>
      r == Json(200, Listing(Summaries(ListQuery(table, session.value))))
  {
    if session.None? then Json(200, Listing([]))
    else if storeError.Some? then Json(500, ErrorBody(CaughtMessage(storeError.value)))
    else Json(200, Listing(Summaries(ListQuery(table, session.value))))
  }

  /** A listing never shows a conversation of another user: each item is the summary of a row the session user owns. */
  lemma ListingIsOwned(uid: UserId, table: seq<Row>)
    ensures var items := Get(Some(uid), table, None).body.items;
      forall k :: 0 <= k < |items| ==>
        exists r :: r in table && r.userId == uid && items[k] == Summary(r.id, r.title)
  {
    var q := ListQuery(table, uid);
    forall k | 0 <= k < |q|
      ensures exists r :: r in table && r.userId == uid && Summaries(q)[k] == Summary(r.id, r.title)
    {
      assert q[k] in q;
    }
  }

  /** The listing holds exactly one item per row the user owns. */
  lemma ListingCountsOwnedRows(uid: UserId, table: seq<Row>)
    ensures |Get(Some(uid), table, None).body.items| == |OwnedBy(table, uid)|
  {
    var q := ListQuery(table, uid);
    assert |q| == |multiset(q)| == |multiset(OwnedBy(table, uid))| == |OwnedBy(table, uid)|;
  }

  /** The parsed request body; `userId` stands for any owner field a client might add, which the route never reads. */
  datatype Request = Unparsable | Post(title: Value, userId: Value)

  datatype Result = Result(response: Response<Body>, table: seq<Row>)

  /**
   * `POST`. `req.json()` runs outside the `try`, so an unparsable body escapes
   * the handler. Without a session: 401 and no insert. Otherwise the row gets the
   * body's title and the session user as owner; `insert` is the id and creation
   * time the store assigns, or the error it reports, in which case nothing is
   * inserted and the answer is 500 with the message.
   */
  function CreateConversation(req: Request, session: Option<UserId>, table: seq<Row>,
                              insert: Outcome<(string, int)>): (res: Result)
    ensures req.Unparsable? ==> res == Result(Unhandled, table)
    ensures req.Post? && session.None? ==> res == Result(Json(401, ErrorBody(Unauthorized)), table)
    ensures req.Post? && session.Some? && insert.Failed? ==>
      res == Result(Json(500, ErrorBody(CaughtMessage(insert.error))), table)
    ensures req.Post? && session.Some? && insert.Done? ==>
      var row := Row(insert.value.0, req.title, session.value, insert.value.1);
      res == Result(Json(200, Created(row)), table + [row])
  {
    if req.Unparsable? then Result(Unhandled, table)
    else if session.None? then Result(Json(401, ErrorBody(Unauthorized)), table)
    else match insert
      case Failed(e) => Result(Json(500, ErrorBody(CaughtMessage(e))), table)
      case Done((id, createdAt)) =>
        var row := Row(id, req.title, session.value, createdAt);
        Result(Json(200, Created(row)), table + [row])
  }

  /** Whatever owner the client claims, the outcome is the same: the owner is the session user. */
  lemma ClientOwnerIgnored(title: Value, claimed1: Value, claimed2: Value, session: Option<UserId>,
                           table: seq<Row>, insert: Outcome<(string, int)>)
    ensures CreateConversation(Post(title, claimed1), session, table, insert)
         == CreateConversation(Post(title, claimed2), session, table, insert)
  {
  }

  /** A created conversation is owned by the session user and appears at the head of that user's next listing unless a row is newer. */
  lemma CreatedIsListed(title: Value, claimed: Value, uid: UserId, table: seq<Row>, id: string, createdAt: int)
    requires forall r :: r in table ==> r.createdAt < createdAt
    ensures var res := CreateConversation(Post(title, claimed), Some(uid), table, Done((id, createdAt)));
      Get(Some(uid), res.table, None).body.items[0] == Summary(id, title)
  {
    var row := Row(id, title, uid, createdAt);
    var after := table + [row];
    var q := ListQuery(after, uid);
    assert row in after;
    forall x | x in q ensures x == row || x.createdAt < createdAt {
      assert x in after;
    }
    NewestHeadsList(q, row);
    assert Get(Some(uid), after, None) == Json(200, Listing(Summaries(q)));
  }

  /** In a newest-first sequence, a row strictly newer than all the others comes first. */
  lemma NewestHeadsList(q: seq<Row>, row: Row)
    requires NewestFirst(q) && row in q
    requires forall x :: x in q ==> x == row || x.createdAt < row.createdAt
    ensures q[0] == row
  {
    var i :| 0 <= i < |q| && q[i] == row;
    assert q[0] in q && q[0].createdAt >= q[i].createdAt;
  }
}
