/**
 * The CSV seeding script: it turns the rows of a hospital CSV file into rows of
 * the `hospitals` table, skipping incomplete rows, then clears the table and
 * inserts the new rows.
 */
module SeedCsv {
  import opened Common

  /** A parsed CSV row (`header: true`): column name to cell text; a column the row lacks is absent. */
  type Row = map<string, string>

  /** A `hospitals` row as the script builds it; `None` is SQL null. */
  datatype Hospital = Hospital(name: string, address: Option<string>, phone: Option<string>, location: string)

  /** `row[column]` is truthy: present and not the empty string. */
  predicate Filled(row: Row, column: string) {
    column in row && row[column] != ""
  }

  /** `row[column] || null`. */
  function OrNull(row: Row, column: string): Option<string> {
    if Filled(row, column) then Some(row[column]) else None
  }

  /** The three columns a hospital cannot do without are all filled. */
  predicate Complete(row: Row) {
    Filled(row, "hospital_name") && Filled(row, "longitude") && Filled(row, "latitude")
  }

  /** The PostGIS well-known-text point, longitude before latitude. */
  function Point(longitude: string, latitude: string): string {
    "POINT(" + longitude + " " + latitude + ")"
  }

  /** The callback given to `map`: `null` for an incomplete row, else the table row. */
  function TransformRow(row: Row): (h: Option<Hospital>)
    ensures h.None? <==> !Complete(row)
    ensures h.Some? ==> h.value.name == row["hospital_name"]
    ensures h.Some? ==> h.value.address == OrNull(row, "address") && h.value.phone == OrNull(row, "contact")
    ensures h.Some? ==> h.value.location == Point(row["longitude"], row["latitude"])
  {
    if !Complete(row) then None
    else Some(Hospital(row["hospital_name"], OrNull(row, "address"), OrNull(row, "contact"),
                       Point(row["longitude"], row["latitude"])))
  }

  function Emit(h: Option<Hospital>): seq<Hospital> {
    match h
    case Some(x) => [x]
    case None => []
  }

  /** `sourceData.map(TransformRow).filter(Boolean)`: a table row is never falsy, so only the nulls go. */
  function Transform(rows: seq<Row>): (hs: seq<Hospital>)
    ensures |hs| <= |rows|
    ensures forall k :: 0 <= k < |hs| ==>
      hs[k].name != "" && hs[k].address != Some("") && hs[k].phone != Some("")
  {
    if rows == [] then [] else Emit(TransformRow(rows[0])) + Transform(rows[1..])
  }

  /** Transforming a concatenation transforms each part in place. */
  lemma {:induction false} TransformAppend(a: seq<Row>, b: seq<Row>)
    ensures Transform(a + b) == Transform(a) + Transform(b)
  {
    if a == [] {
      assert a + b == b;
    } else {
      assert (a + b)[0] == a[0];
      assert (a + b)[1..] == a[1..] + b;
      TransformAppend(a[1..], b);
    }
  }

  /** The positions of the complete rows, in increasing order (the reference for what is kept). */
  ghost function CompleteIndices(rows: seq<Row>): (ix: seq<nat>)
    ensures |ix| <= |rows|
    ensures forall k :: 0 <= k < |ix| ==> ix[k] < |rows| && Complete(rows[ix[k]])
    ensures forall k, l :: 0 <= k < l < |ix| ==> ix[k] < ix[l]
    ensures forall i :: 0 <= i < |rows| && Complete(rows[i]) ==> i in ix
  {
    if rows == [] then []
    else
      var pre := CompleteIndices(rows[..|rows| - 1]);
      if Complete(rows[|rows| - 1]) then pre + [|rows| - 1] else pre
  }

  /**
   * The output holds one row per complete input row, in the order of the input:
   * its k-th row is built from the k-th complete source row. So its length is the
   * number of complete rows, which is at most the number of input rows.
   */
  lemma {:induction false} TransformKeepsCompleteRowsInOrder(rows: seq<Row>)
    ensures |Transform(rows)| == |CompleteIndices(rows)| <= |rows|
    ensures forall k :: 0 <= k < |Transform(rows)| ==>
      TransformRow(rows[CompleteIndices(rows)[k]]) == Some(Transform(rows)[k])
    decreases |rows|
  {
    if rows != [] {
      var n := |rows| - 1;
      var front := rows[..n];
      TransformKeepsCompleteRowsInOrder(front);
      assert rows == front + [rows[n]];
      TransformAppend(front, [rows[n]]);
      assert Transform([rows[n]]) == Emit(TransformRow(rows[n])) + Transform([]);
      var pre, ix := Transform(front), CompleteIndices(front);
      assert Transform(rows) == pre + Emit(TransformRow(rows[n]));
      assert CompleteIndices(rows) == ix + (if Complete(rows[n]) then [n] else []);
      forall k | 0 <= k < |Transform(rows)|
        ensures TransformRow(rows[CompleteIndices(rows)[k]]) == Some(Transform(rows)[k])
      {
        if k < |pre| {
          assert CompleteIndices(rows)[k] == ix[k] && rows[ix[k]] == front[ix[k]];
          assert Transform(rows)[k] == pre[k];
        }
      }
    }
  }

  /** A table row comes out exactly when some source row builds it. */
  lemma {:induction false} TransformMembership(rows: seq<Row>, h: Hospital)
    ensures h in Transform(rows) <==> exists i :: 0 <= i < |rows| && TransformRow(rows[i]) == Some(h)
  {
    if rows != [] {
      TransformMembership(rows[1..], h);
      if h in Transform(rows[1..]) {
        var i :| 0 <= i < |rows[1..]| && TransformRow(rows[1..][i]) == Some(h);
        assert TransformRow(rows[i + 1]) == Some(h);
      }
      if exists i :: 0 <= i < |rows| && TransformRow(rows[i]) == Some(h) {
        var i :| 0 <= i < |rows| && TransformRow(rows[i]) == Some(h);
        if i > 0 {
          assert rows[1..][i - 1] == rows[i];
        }
      }
    }
  }

  /** Reading a well-known-text point back: split the inside of `POINT(...)` at its first space. */
  function ParsePoint(s: string): Option<(string, string)> {
    if |s| >= 7 && s[..6] == "POINT(" && s[|s| - 1] == ')' then SplitAtSpace(s[6..|s| - 1]) else None
  }

  function SplitAtSpace(s: string): Option<(string, string)> {
    if s == [] then None
    else if s[0] == ' ' then Some(([], s[1..]))
    else match SplitAtSpace(s[1..])
      case None => None
      case Some(parts) => Some(([s[0]] + parts.0, parts.1))
  }

  lemma {:induction false} SplitAtFirstSpace(a: string, b: string)
    requires ' ' !in a
    ensures SplitAtSpace(a + " " + b) == Some((a, b))
  {
    var s := a + " " + b;
    if a == [] {
      assert s[0] == ' ' && s[1..] == b;
    } else {
      assert s[0] == a[0] && a[0] != ' ';
      assert s[1..] == a[1..] + " " + b;
      SplitAtFirstSpace(a[1..], b);
      assert [a[0]] + a[1..] == a;
    }
  }

  /**
   * The location really is longitude first: a longitude without spaces and any
   * latitude are read back from the point in that order.
   */
  lemma PointRoundTrip(longitude: string, latitude: string)
    requires ' ' !in longitude
    ensures ParsePoint(Point(longitude, latitude)) == Some((longitude, latitude))
  {
    var p := Point(longitude, latitude);
    assert p[..6] == "POINT(";
    assert p[6..|p| - 1] == longitude + " " + latitude;
    SplitAtFirstSpace(longitude, latitude);
  }

  /** The two table operations the script issues, in order. */
  datatype Step = ClearTable | InsertRows(records: seq<Hospital>)

  datatype Ending = MissingCredentials | MissingFile | NothingToInsert | OperationFailed | Seeded

  datatype Run = Run(steps: seq<Step>, ending: Ending)

  /**
   * `seedFromCsv`, with the environment, the file system and the database as
   * outcomes: the two credentials, the parsed rows (`None` when the file does
   * not exist), the error thrown by `createClient` (which sits inside the
   * `try`), and the errors reported by clearing (`delete().neq('id', 0)`)
   * and by the bulk insert.
   */
  function Seed(url: Option<string>, serviceKey: Option<string>, file: Option<seq<Row>>,
                connect: Option<Thrown>, clear: Option<Thrown>, insert: Option<Thrown>): (run: Run)
    ensures
      var hasCredentials := url.Some? && url.value != "" && serviceKey.Some? && serviceKey.value != "";
      && (run.ending == MissingCredentials <==> !hasCredentials)
      && (run.ending == MissingFile <==> hasCredentials && file.None?)
      && (run.ending == NothingToInsert <==> hasCredentials && file.Some? && Transform(file.value) == [])
      && (run.steps == [] <==>
            run.ending in {MissingCredentials, MissingFile, NothingToInsert} || connect.Some?)
    ensures run.steps != [] ==> connect.None? && run.steps[0] == ClearTable
    ensures |run.steps| <= 2
    ensures |run.steps| == 2 ==> clear.None? && run.steps[1] == InsertRows(Transform(file.value))
    ensures run.ending == Seeded <==> |run.steps| == 2 && insert.None?
  {
    if url.None? || url.value == "" || serviceKey.None? || serviceKey.value == "" then Run([], MissingCredentials)
    else if file.None? then Run([], MissingFile)
    else
      var records := Transform(file.value);
      if records == [] then Run([], NothingToInsert)
      else if connect.Some? then Run([], OperationFailed)
      else if clear.Some? then Run([ClearTable], OperationFailed)
      else if insert.Some? then Run([ClearTable, InsertRows(records)], OperationFailed)
      else Run([ClearTable, InsertRows(records)], Seeded)
  }
}
