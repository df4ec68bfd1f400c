/**
 * api/documents.php: one request in, one JSON reply out. The method and the
 * query keys choose an action (`Route`); running it against the table gives
 * the status code, the reply body and the table afterwards (`Handle`).
 *
 * What the database does with a statement is a parameter: it runs (`Done`),
 * `execute` returns false (`Refused`), or it throws a `PDOException`
 * (`Throws`). Which of these happens is the engine's business.
 */
module DocumentsApi {
  import opened Common
  import opened Documents
  import opened DbConfig

  /** The decoded request body: a document, or the reason `json_decode` failed. */
  datatype Payload = Decoded(data: Doc) | Malformed(reason: string)

  datatype Request = Request(httpMethod: string, query: map<string, string>, body: Payload)

  datatype DbOutcome = Done | Refused | Throws

  /** `$_GET[key] ?? null`. */
  function Param(query: map<string, string>, key: string): (r: Option<string>)
    ensures r.Some? <==> key in query
  {
    if key in query then Some(query[key]) else None
  }

  datatype Action =
    | Preflight
    | Search(criteria: Criteria)
    | GetOne(key: string)
    | GetAll
    | Add
    | Update(id: Option<string>)
    | Delete(id: Option<string>)
    | NotAllowed

  const SearchKeys: set<string> := {"search", "type", "status", "date_from", "date_to", "organization"}

  /** The action a request selects, before any database work. */
  function Route(httpMethod: string, query: map<string, string>): Action
  {
    if httpMethod == "OPTIONS" then Preflight
    else if httpMethod == "GET" then
      if "search" in query || "type" in query || "status" in query ||
         "date_from" in query || "date_to" in query || "organization" in query then
        Search(Criteria(Param(query, "search"), Param(query, "type"), Param(query, "status"),
                        Param(query, "date_from"), Param(query, "date_to"), Param(query, "organization")))
      else if "id" in query then GetOne(query["id"])
      else GetAll
    else if httpMethod == "POST" then Add
    else if httpMethod == "PUT" then Update(Param(query, "id"))
    else if httpMethod == "DELETE" then Delete(Param(query, "id"))
    else NotAllowed
  }

  /**
   * A GET with any search key, even an empty one, searches, whether or not
   * `id` is given; `id` alone fetches one row, and no key fetches all.
   */
  lemma RouteGet(query: map<string, string>)
    ensures (exists k :: k in SearchKeys && k in query) ==> Route("GET", query).Search?
    ensures (forall k :: k in SearchKeys ==> k !in query) && "id" in query ==> Route("GET", query) == GetOne(query["id"])
    ensures (forall k :: k in SearchKeys ==> k !in query) && "id" !in query ==> Route("GET", query) == GetAll
  {
    if exists k :: k in SearchKeys && k in query {
      var k :| k in SearchKeys && k in query;
      assert k == "search" || k == "type" || k == "status" || k == "date_from" || k == "date_to" || k == "organization";
    }
    if forall k :: k in SearchKeys ==> k !in query {
      assert "search" in SearchKeys && "type" in SearchKeys && "status" in SearchKeys;
      assert "date_from" in SearchKeys && "date_to" in SearchKeys && "organization" in SearchKeys;
    }
  }

  /** A search request passes each key's value on, and an absent key as `null`. */
  lemma RouteSearchCriteria(query: map<string, string>)
    requires exists k :: k in SearchKeys && k in query
    ensures Route("GET", query) == Search(Criteria(Param(query, "search"), Param(query, "type"), Param(query, "status"),
      Param(query, "date_from"), Param(query, "date_to"), Param(query, "organization")))
  {
    var k :| k in SearchKeys && k in query;
    assert k == "search" || k == "type" || k == "status" || k == "date_from" || k == "date_to" || k == "organization";
  }

  datatype Body =
    | Empty
    | RowList(rows: seq<Row>)
    | OneRow(row: Option<Row>)            // `false` when no row has the id
    | SuccessFlag(success: bool)
    | SuccessMessage(success: bool, message: string)
    | ErrorBody(error: string, detail: Option<string>)

  datatype Response = Response(status: int, body: Body)

  datatype Outcome = Outcome(response: Response, table: seq<Row>)

  const InternalError := Response(500, ErrorBody("Internal server error", Some("database error")))

  // ---------------------------------------------------------------- reading the id text

  /** White space MySQL skips before a number it reads from text. */
  predicate IsSpace(c: char)
  {
    c == ' ' || c == '\t' || c == '\n' || c == '\r' || c == '\U{B}' || c == '\U{C}'
  }

  /** The text from its first character that is not white space. */
  function SkipSpaces(s: string): (r: string)
    ensures |r| <= |s|
    ensures r == [] || !IsSpace(r[0])
  {
    if s != [] && IsSpace(s[0]) then SkipSpaces(s[1..]) else s
  }

  /** The length of the run of decimal digits the text starts with. */
  function DigitRun(s: string): (k: nat)
    ensures k <= |s| && AllDigits(s[..k])
    ensures k < |s| ==> !IsDigit(s[k])
  {
    if s != [] && IsDigit(s[0]) then
      var k := 1 + DigitRun(s[1..]);
      assert s[..k] == [s[0]] + s[1..][..k - 1];
      k
    else 0
  }

  predicate AllZeros(f: string)
  {
    forall i :: 0 <= i < |f| ==> f[i] == '0'
  }

  /**
   * The number read from unsigned text: the leading digits and, after a
   * '.', the digits of a fractional part; whatever follows is ignored, and
   * text without digits reads as 0. `None` when the fraction is not all
   * zeros, so that the number is not whole.
   */
  function UnsignedValue(u: string): Option<nat>
  {
    var k := DigitRun(u);
    var rest := u[k..];
    var fraction := if rest != [] && rest[0] == '.' then rest[1..][..DigitRun(rest[1..])] else "";
    if AllZeros(fraction) then Some(DigitsValue(u[..k])) else None
  }

  /**
   * The number MySQL reads from the text bound to `id = ?` when it compares
   * it with the integer column: white space is skipped and a sign is taken
   * before the unsigned number. `None` when that number is not whole
   * (`5.5`), which no id equals.
   */
  function SqlIdValue(s: string): Option<int>
  {
    var t := SkipSpaces(s);
    var u := if t != [] && (t[0] == '-' || t[0] == '+') then t[1..] else t;
    match UnsignedValue(u)
    case None => None
    case Some(v) => var value: int := if t != [] && t[0] == '-' then -(v as int) else v; Some(value)
  }

  /** A string of digits reads as its decimal value. */
  lemma UnsignedOfDigits(u: string)
    requires AllDigits(u)
    ensures UnsignedValue(u) == Some(DigitsValue(u))
  {
    assert DigitRun(u) == |u| && u[..|u|] == u && u[|u|..] == [];
  }

  /** `WHERE id = ?` with the text `id` holds for the row. */
  predicate IdNames(id: string, row: Row)
  {
    SqlIdValue(id) == Some(row.id)
  }

  /** The decimal text of an id names that id and no other. */
  lemma SqlIdValueOfText(n: int)
    ensures SqlIdValue(IntToString(n)) == Some(n)
  {
    var m := if n < 0 then -n else n;
    NatToStringDigits(m);
    NatToStringValue(m);
    SignedDigits(NatToString(m));
  }

  /** Digits, with or without a leading '-', read as their value with that sign. */
  lemma SignedDigits(u: string)
    requires u != [] && AllDigits(u)
    ensures SqlIdValue(u) == Some(DigitsValue(u))
    ensures SqlIdValue("-" + u) == Some(-(DigitsValue(u) as int))
  {
    UnsignedOfDigits(u);
    PlainStart(u);
    PlainStart("-" + u);
    assert ("-" + u)[1..] == u;
  }

  /** Text that starts with a digit or a sign has no white space to skip. */
  lemma PlainStart(t: string)
    requires t != [] && (IsDigit(t[0]) || t[0] == '-')
    ensures SkipSpaces(t) == t
  {
  }

  /** `z` zero characters. */
  function Zeros(z: nat): (r: string)
    ensures |r| == z && forall i :: 0 <= i < z ==> r[i] == '0'
  {
    seq(z, _ => '0')
  }

  lemma {:induction false} ZerosValue(z: nat)
    ensures AllDigits(Zeros(z)) && DigitsValue(Zeros(z)) == 0
    decreases z
  {
    if z > 0 {
      ZerosValue(z - 1);
      assert Zeros(z)[..z - 1] == Zeros(z - 1);
    }
  }

  /** Leading zeros do not change the value of a digit string. */
  lemma {:induction false} DigitsValueAfterZeros(z: nat, s: string)
    requires AllDigits(s)
    ensures AllDigits(Zeros(z) + s) && DigitsValue(Zeros(z) + s) == DigitsValue(s)
    decreases |s|
  {
    var p := Zeros(z) + s;
    if s == [] {
      ZerosValue(z);
      assert p == Zeros(z);
    } else {
      DigitsValueAfterZeros(z, s[..|s| - 1]);
      assert p[..|p| - 1] == Zeros(z) + s[..|s| - 1];
    }
  }

  /** Zero-padded decimal text names the same id: `?id=05` names row 5. */
  lemma SqlIdValueLeadingZeros(z: nat, n: nat)
    ensures SqlIdValue(Zeros(z) + NatToString(n)) == Some(n)
  {
    NatToStringDigits(n);
    NatToStringValue(n);
    DigitsValueAfterZeros(z, NatToString(n));
    SignedDigits(Zeros(z) + NatToString(n));
  }

  /** The row `SELECT * FROM documents WHERE id = ?` fetches first. */
  function RowWithId(table: seq<Row>, id: string): (r: Option<Row>)
    ensures r.Some? ==> r.value in table && IdNames(id, r.value)
    ensures r.None? ==> forall row :: row in table ==> !IdNames(id, row)
  {
    if table == [] then None
    else if IdNames(id, table[0]) then Some(table[0])
    else RowWithId(table[1..], id)
  }

  /**
   * The table after `UPDATE ... WHERE id = ?`; a missing id binds `NULL` and
   * matches no row. A body that does not decode reads every key as `null`.
   */
  function UpdateWhere(table: seq<Row>, id: Option<string>, payload: Payload, now: string): seq<Row>
  {
    if id.None? then table
    else Map(table, (row: Row) =>
      if !IdNames(id.value, row) then row
      else if payload.Decoded? then UpdateRow(row, payload.data, now)
      else ClearedRow(row, now))
  }

  /** The table after `DELETE ... WHERE id = ?`. */
  function DeleteWhere(table: seq<Row>, id: Option<string>): seq<Row>
  {
    if id.None? then table else Filter(table, (row: Row) => !IdNames(id.value, row))
  }

  /**
   * The reply to a request and the table afterwards. `newId` is the id the
   * engine assigns to an inserted row, `now` the server's current time as
   * `Y-m-d H:i:s`, `fold` the collation's case folding.
   */
  function Handle(req: Request, table: seq<Row>, db: DbOutcome, fold: Fold, newId: int, now: string): Outcome
  {
    match Route(req.httpMethod, req.query)
    case Preflight => Outcome(Response(200, Empty), table)
    case Search(c) => Outcome(Response(200, RowList(SearchDocuments(table, c, fold, db != Done))), table)
    case GetOne(id) =>
      if db == Throws then Outcome(InternalError, table)
      else Outcome(Response(200, OneRow(if db == Done then RowWithId(table, id) else None)), table)
    case GetAll =>
      if db == Throws then Outcome(InternalError, table)
      else Outcome(Response(200, RowList(if db == Done then GetAllDocuments(table) else [])), table)
    case Add =>
      if req.body.Malformed? then
        Outcome(Response(500, ErrorBody("Internal server error", Some("JSON decode error: " + req.body.reason))), table)
      else if db == Throws then Outcome(InternalError, table)
      else if db == Refused then Outcome(Response(200, SuccessMessage(false, "Thêm văn bản thất bại")), table)
      else Outcome(Response(200, SuccessMessage(true, "Thêm văn bản thành công")), AddDocument(table, req.body.data, newId, now))
    case Update(id) =>
      if db == Throws then Outcome(InternalError, table)
      else if db == Refused then Outcome(Response(200, SuccessFlag(false)), table)
      else Outcome(Response(200, SuccessFlag(true)), UpdateWhere(table, id, req.body, now))
    case Delete(id) =>
      if db != Done then Outcome(Response(200, SuccessFlag(false)), table)
      else Outcome(Response(200, SuccessFlag(true)), DeleteWhere(table, id))
    case NotAllowed => Outcome(Response(405, ErrorBody("Method not allowed", None)), table)
  }

  /** A preflight request replies with nothing and never reaches the database. */
  lemma PreflightTouchesNothing(req: Request, table: seq<Row>, db: DbOutcome, fold: Fold, newId: int, now: string)
    requires req.httpMethod == "OPTIONS"
    ensures Handle(req, table, db, fold, newId, now) == Outcome(Response(200, Empty), table)
  {
  }

  /** Only POST, PUT and DELETE can change the table. */
  lemma ReadsKeepTable(req: Request, table: seq<Row>, db: DbOutcome, fold: Fold, newId: int, now: string)
    requires req.httpMethod != "POST" && req.httpMethod != "PUT" && req.httpMethod != "DELETE"
    ensures Handle(req, table, db, fold, newId, now).table == table
  {
  }

  /** Any other httpMethod is refused with 405 and an `error` body. */
  lemma OtherMethodsRefused(req: Request, table: seq<Row>, db: DbOutcome, fold: Fold, newId: int, now: string)
    requires req.httpMethod !in {"OPTIONS", "GET", "POST", "PUT", "DELETE"}
    ensures Handle(req, table, db, fold, newId, now) == Outcome(Response(405, ErrorBody("Method not allowed", None)), table)
  {
  }

  /** A POST whose body does not decode is a 500 carrying the decoder's message, and inserts nothing. */
  lemma MalformedPostFails(req: Request, table: seq<Row>, db: DbOutcome, fold: Fold, newId: int, now: string)
    requires req.httpMethod == "POST" && req.body.Malformed?
    ensures var o := Handle(req, table, db, fold, newId, now);
      o.response.status == 500 && o.table == table &&
      o.response.body == ErrorBody("Internal server error", Some("JSON decode error: " + req.body.reason))
  {
  }

  /** A successful POST appends exactly one row, holding the posted document under the new id. */
  lemma PostAppendsOne(req: Request, table: seq<Row>, fold: Fold, newId: int, now: string)
    requires req.httpMethod == "POST" && req.body.Decoded?
    ensures var o := Handle(req, table, Done, fold, newId, now);
      o.response == Response(200, SuccessMessage(true, "Thêm văn bản thành công")) &&
      |o.table| == |table| + 1 && o.table[..|table|] == table &&
      o.table[|table|] == InsertRow(req.body.data, newId, now)
  {
    assert (table + [InsertRow(req.body.data, newId, now)])[..|table|] == table;
  }

  /**
   * A DELETE replies success whether or not a row had the id: deleting an
   * unknown id reports `true` and leaves the table as it was.
   */
  lemma DeleteUnknownId(req: Request, table: seq<Row>, fold: Fold, newId: int, now: string)
    requires req.httpMethod == "DELETE" && "id" in req.query
    requires forall row :: row in table ==> !IdNames(req.query["id"], row)
    ensures Handle(req, table, Done, fold, newId, now) == Outcome(Response(200, SuccessFlag(true)), table)
  {
    FilterAll(table, (row: Row) => !IdNames(req.query["id"], row));
  }

  /** A DELETE removes exactly the rows with the id and keeps the rest. */
  lemma DeleteRemovesId(req: Request, table: seq<Row>, fold: Fold, newId: int, now: string)
    requires req.httpMethod == "DELETE" && "id" in req.query
    ensures var t := Handle(req, table, Done, fold, newId, now).table;
      forall row :: row in t <==> row in table && !IdNames(req.query["id"], row)
  {
    FilterMembers(table, (row: Row) => !IdNames(req.query["id"], row));
  }

  /**
   * A DELETE by decimal text, with or without leading zeros, removes the
   * rows with that id as `deleteDocument` does.
   */
  lemma DeletePaddedId(req: Request, table: seq<Row>, fold: Fold, newId: int, now: string, z: nat, n: nat)
    requires req.httpMethod == "DELETE" && "id" in req.query && req.query["id"] == Zeros(z) + NatToString(n)
    ensures Handle(req, table, Done, fold, newId, now).table == DeleteDocument(table, n)
  {
    SqlIdValueLeadingZeros(z, n);
    FilterExt(table, (row: Row) => !IdNames(req.query["id"], row), (row: Row) => row.id != n);
  }

  /** A PUT keeps every id, their order and every creation time. */
  lemma PutKeepsIdentity(req: Request, table: seq<Row>, db: DbOutcome, fold: Fold, newId: int, now: string)
    requires req.httpMethod == "PUT"
    ensures var t := Handle(req, table, db, fold, newId, now).table;
      |t| == |table| &&
      forall i :: 0 <= i < |t| ==> t[i].id == table[i].id && t[i].created_at == table[i].created_at
  {
  }
}
