/**
 * database/db_config.php: the `documents` table behind the API. The table is
 * a sequence of rows; the engine's work (statement execution, collation,
 * auto-increment) is reduced to what the queries mean.
 *
 * `searchDocuments` starts from `WHERE 1=1` and appends one clause, with its
 * bound parameters, per criterion that is truthy in PHP. The SQL text is
 * kept as a list of tokens in which every `?` placeholder is a `Hole`, so
 * the number of placeholders can be compared with the number of parameters.
 */
module DbConfig {
  import opened Common
  import opened Documents
  import opened Sorting

  /** A row of `documents`; SQL `NULL` is `None`. */
  datatype Row = Row(
    id: int,
    direction: Option<string>,        // the `type` column
    number: Option<string>,
    date: Option<string>,
    summary: Option<string>,
    document_type: Option<string>,
    priority: Option<string>,
    status: Option<string>,
    sender_department: Option<string>,
    receiver_department: Option<string>,
    main_responsible: Option<string>,
    processing_deadline: Option<string>,
    signer: Option<string>,
    tags: Option<string>,
    notes: Option<string>,
    attachment_name: Option<string>,
    attachment_path: Option<string>,
    attachment_size: Option<int>,
    created_at: Option<string>,
    updated_at: Option<string>)

  /** PHP truthiness of an optional string: present, not empty and not "0". */
  predicate PhpTruthy(o: Option<string>)
  {
    Truthy(o) && o.value != "0"
  }

  // ---------------------------------------------------------------- ordering

  /** `ORDER BY created_at DESC`: later timestamps first, `NULL` last. */
  predicate CreatedNotBefore(a: Row, b: Row)
  {
    b.created_at.None? || (a.created_at.Some? && StrLe(b.created_at.value, a.created_at.value))
  }

  lemma CreatedNotBeforeTotalPreorder()
    ensures TotalPreorder(CreatedNotBefore)
  {
    forall a: Row, b: Row ensures CreatedNotBefore(a, b) || CreatedNotBefore(b, a) {
      if a.created_at.Some? && b.created_at.Some? {
        StrLtTotal(a.created_at.value, b.created_at.value);
      }
    }
    forall a: Row, b: Row, c: Row | CreatedNotBefore(a, b) && CreatedNotBefore(b, c)
      ensures CreatedNotBefore(a, c)
    {
      if c.created_at.Some? {
        var x, y, z := a.created_at.value, b.created_at.value, c.created_at.value;
        if x != y && y != z && z != x {
          StrLtTransitive(z, y, x);
        }
      }
    }
  }

  /** The rows newest first. */
  function NewestFirst(rows: seq<Row>): (r: seq<Row>)
    ensures Sorted(r, CreatedNotBefore)
    ensures multiset(r) == multiset(rows)
  {
    CreatedNotBeforeTotalPreorder();
    SortCorrect(rows, CreatedNotBefore);
    Sort(rows, CreatedNotBefore)
  }

  /** `getAllDocuments`: every row, newest first. */
  function GetAllDocuments(table: seq<Row>): seq<Row>
  {
    NewestFirst(table)
  }

  // ---------------------------------------------------------------- the search query

  datatype Criteria = Criteria(
    searchTerm: Option<string>,
    direction: Option<string>,
    status: Option<string>,
    dateFrom: Option<string>,
    dateTo: Option<string>,
    organization: Option<string>)

  /** One appended condition, with the criterion value it binds. */
  datatype Clause =
    | Keyword(term: string)
    | DirectionIs(direction: string)
    | StatusIs(status: string)
    | DateFrom(from: string)
    | DateTo(to: string)
    | Organization(name: string)

  /** `acc` followed by the clause of `criterion` when it is truthy in PHP. */
  function WhenGiven(acc: seq<Clause>, criterion: Option<string>, clause: string -> Clause): (r: seq<Clause>)
    ensures PhpTruthy(criterion) ==> r == acc + [clause(criterion.value)]
    ensures !PhpTruthy(criterion) ==> r == acc
  {
    if PhpTruthy(criterion) then acc + [clause(criterion.value)] else acc
  }

  /** The clauses the criteria give, in the order the code tests them. */
  function Clauses(c: Criteria): seq<Clause>
  {
    var a := WhenGiven([], c.searchTerm, t => Keyword(t));
    var b := WhenGiven(a, c.direction, t => DirectionIs(t));
    var d := WhenGiven(b, c.status, t => StatusIs(t));
    var e := WhenGiven(d, c.dateFrom, t => DateFrom(t));
    var f := WhenGiven(e, c.dateTo, t => DateTo(t));
    WhenGiven(f, c.organization, t => Organization(t))
  }

  /** A piece of SQL text, or a `?` placeholder. */
  datatype Token = Text(text: string) | Hole

  function Holes(tokens: seq<Token>): nat
  {
    if tokens == [] then 0 else Holes(tokens[..|tokens| - 1]) + (if tokens[|tokens| - 1].Hole? then 1 else 0)
  }

  lemma {:induction false} HolesAppend(a: seq<Token>, b: seq<Token>)
    ensures Holes(a + b) == Holes(a) + Holes(b)
    decreases |b|
  {
    if b != [] {
      HolesAppend(a, b[..|b| - 1]);
      assert (a + b)[..|a + b| - 1] == a + b[..|b| - 1];
    } else {
      assert a + b == a;
    }
  }

  /** `'%' . t . '%'`. */
  function LikeParam(t: string): string
  {
    "%" + t + "%"
  }

  /** Each text followed by a `?` placeholder. */
  function Placeholders(texts: seq<string>): seq<Token>
  {
    if texts == [] then [] else Placeholders(texts[..|texts| - 1]) + [Text(texts[|texts| - 1]), Hole]
  }

  function ClauseSql(cl: Clause): seq<Token>
  {
    match cl
    case Keyword(_) =>
      Placeholders([" AND (number LIKE ", " OR summary LIKE ", " OR sender_department LIKE ",
                    " OR receiver_department LIKE ", " OR notes LIKE "]) + [Text(")")]
    case DirectionIs(_) => Placeholders([" AND type = "])
    case StatusIs(_) => Placeholders([" AND status = "])
    case DateFrom(_) => Placeholders([" AND date >= "])
    case DateTo(_) => Placeholders([" AND date <= "])
    case Organization(_) => Placeholders([" AND (sender_department LIKE ", " OR receiver_department LIKE "]) + [Text(")")]
  }

  function ClauseParams(cl: Clause): seq<string>
  {
    match cl
    case Keyword(t) => [LikeParam(t), LikeParam(t), LikeParam(t), LikeParam(t), LikeParam(t)]
    case DirectionIs(t) => [t]
    case StatusIs(s) => [s]
    case DateFrom(d) => [d]
    case DateTo(d) => [d]
    case Organization(o) => [LikeParam(o), LikeParam(o)]
  }

  lemma {:induction false} PlaceholdersHoles(texts: seq<string>)
    ensures Holes(Placeholders(texts)) == |texts|
  {
    if texts != [] {
      var init := Placeholders(texts[..|texts| - 1]);
      var pair := [Text(texts[|texts| - 1]), Hole];
      PlaceholdersHoles(texts[..|texts| - 1]);
      HolesAppend(init, pair);
      HolesPair(texts[|texts| - 1]);
    }
  }

  lemma HolesPair(x: string)
    ensures Holes([Text(x), Hole]) == 1
  {
    var s := [Text(x), Hole];
    assert s[..1] == [Text(x)];
    assert [Text(x)][..0] == [];
    assert Holes([Text(x)]) == 0;
  }

  /** Every clause binds as many parameters as it has placeholders. */
  lemma ClauseHoles(cl: Clause)
    ensures Holes(ClauseSql(cl)) == |ClauseParams(cl)|
  {
    var close := [Text(")")];
    assert close[..0] == [];
    match cl
    case Keyword(_) =>
      var texts := [" AND (number LIKE ", " OR summary LIKE ", " OR sender_department LIKE ",
                    " OR receiver_department LIKE ", " OR notes LIKE "];
      PlaceholdersHoles(texts);
      HolesAppend(Placeholders(texts), close);
    case Organization(_) =>
      var texts := [" AND (sender_department LIKE ", " OR receiver_department LIKE "];
      PlaceholdersHoles(texts);
      HolesAppend(Placeholders(texts), close);
    case DirectionIs(_) =>
      PlaceholdersHoles([" AND type = "]);
    case StatusIs(_) =>
      PlaceholdersHoles([" AND status = "]);
    case DateFrom(_) =>
      PlaceholdersHoles([" AND date >= "]);
    case DateTo(_) =>
      PlaceholdersHoles([" AND date <= "]);
  }

  const SelectAll: seq<Token> := [Text("SELECT * FROM documents WHERE 1=1")]
  const OrderByNewest: seq<Token> := [Text(" ORDER BY created_at DESC")]

  /** The condition text of a list of clauses, in order. */
  function ClausesSql(cls: seq<Clause>): seq<Token>
  {
    if cls == [] then [] else ClausesSql(cls[..|cls| - 1]) + ClauseSql(cls[|cls| - 1])
  }

  /** The parameters of a list of clauses, in order. */
  function ClausesParams(cls: seq<Clause>): seq<string>
  {
    if cls == [] then [] else ClausesParams(cls[..|cls| - 1]) + ClauseParams(cls[|cls| - 1])
  }

  /** The query for a list of clauses. */
  function QuerySql(cls: seq<Clause>): seq<Token>
  {
    SelectAll + ClausesSql(cls) + OrderByNewest
  }

  /** Placeholders and parameters match for every list of clauses. */
  lemma {:induction false} QueryHoles(cls: seq<Clause>)
    ensures Holes(ClausesSql(cls)) == |ClausesParams(cls)|
    ensures Holes(QuerySql(cls)) == |ClausesParams(cls)|
  {
    if cls != [] {
      QueryHoles(cls[..|cls| - 1]);
      HolesAppend(ClausesSql(cls[..|cls| - 1]), ClauseSql(cls[|cls| - 1]));
      ClauseHoles(cls[|cls| - 1]);
    }
    HolesAppend(SelectAll, ClausesSql(cls));
    HolesAppend(SelectAll + ClausesSql(cls), OrderByNewest);
    assert SelectAll[..0] == [] && OrderByNewest[..0] == [];
  }

  lemma ClausesSnoc(cls: seq<Clause>, cl: Clause)
    ensures ClausesSql(cls + [cl]) == ClausesSql(cls) + ClauseSql(cl)
    ensures ClausesParams(cls + [cl]) == ClausesParams(cls) + ClauseParams(cl)
  {
    assert (cls + [cl])[..|cls|] == cls;
  }

  /** One step of the query building: `$sql .= clause` and the clause's values added to `$params`. */
  method AppendClause(sql: seq<Token>, params: seq<string>, ghost added: seq<Clause>, cl: Clause)
    returns (sql': seq<Token>, params': seq<string>)
    requires sql == SelectAll + ClausesSql(added) && params == ClausesParams(added)
    ensures sql' == SelectAll + ClausesSql(added + [cl]) && params' == ClausesParams(added + [cl])
  {
    var clauseSql, clauseParams := ClauseSql(cl), ClauseParams(cl);
    sql' := sql + clauseSql;
    params' := params + clauseParams;
    ClausesSnoc(added, cl);
    TokensAssoc(SelectAll, ClausesSql(added), clauseSql);
  }

  lemma TokensAssoc(a: seq<Token>, b: seq<Token>, c: seq<Token>)
    ensures (a + b) + c == a + (b + c)
  {
  }

  /**
   * `searchDocuments`' query building: the text grows by one clause per
   * active criterion, the parameters by that clause's values, so the
   * placeholders in the text always match the parameters bound so far.
   */
  method BuildSearch(c: Criteria) returns (sql: seq<Token>, params: seq<string>)
    ensures sql == QuerySql(Clauses(c))
    ensures params == ClausesParams(Clauses(c))
    ensures Holes(sql) == |params|
  {
    ghost var added: seq<Clause> := [];
    sql := SelectAll;
    params := [];
    if PhpTruthy(c.searchTerm) {
      sql, params := AppendClause(sql, params, added, Keyword(c.searchTerm.value));
    }
    added := WhenGiven(added, c.searchTerm, t => Keyword(t));
    if PhpTruthy(c.direction) {
      sql, params := AppendClause(sql, params, added, DirectionIs(c.direction.value));
    }
    added := WhenGiven(added, c.direction, t => DirectionIs(t));
    if PhpTruthy(c.status) {
      sql, params := AppendClause(sql, params, added, StatusIs(c.status.value));
    }
    added := WhenGiven(added, c.status, t => StatusIs(t));
    if PhpTruthy(c.dateFrom) {
      sql, params := AppendClause(sql, params, added, DateFrom(c.dateFrom.value));
    }
    added := WhenGiven(added, c.dateFrom, t => DateFrom(t));
    if PhpTruthy(c.dateTo) {
      sql, params := AppendClause(sql, params, added, DateTo(c.dateTo.value));
    }
    added := WhenGiven(added, c.dateTo, t => DateTo(t));
    if PhpTruthy(c.organization) {
      sql, params := AppendClause(sql, params, added, Organization(c.organization.value));
    }
    added := WhenGiven(added, c.organization, t => Organization(t));
    sql := sql + OrderByNewest;
    QueryHoles(added);
  }

  /** 1 when the criterion is truthy in PHP, else 0. */
  function Given(criterion: Option<string>): nat
  {
    if PhpTruthy(criterion) then 1 else 0
  }

  lemma WhenGivenParams(acc: seq<Clause>, criterion: Option<string>, clause: string -> Clause, n: nat)
    requires forall t :: |ClauseParams(clause(t))| == n
    ensures |WhenGiven(acc, criterion, clause)| == |acc| + Given(criterion)
    ensures |ClausesParams(WhenGiven(acc, criterion, clause))| == |ClausesParams(acc)| + n * Given(criterion)
  {
    if PhpTruthy(criterion) {
      var cl := clause(criterion.value);
      ClausesSnoc(acc, cl);
      assert |ClauseParams(cl)| == n && Given(criterion) == 1;
    } else {
      assert Given(criterion) == 0;
    }
  }

  /**
   * A criterion that is absent, empty or "0" adds nothing; the keyword binds
   * five parameters, the organisation two and every other criterion one.
   */
  lemma ParamCount(c: Criteria)
    ensures |Clauses(c)| ==
      Given(c.searchTerm) + Given(c.direction) + Given(c.status) + Given(c.dateFrom) + Given(c.dateTo) + Given(c.organization)
    ensures |ClausesParams(Clauses(c))| ==
      5 * Given(c.searchTerm) + Given(c.direction) + Given(c.status) + Given(c.dateFrom) + Given(c.dateTo) + 2 * Given(c.organization)
  {
    var a := WhenGiven([], c.searchTerm, t => Keyword(t));
    var b := WhenGiven(a, c.direction, t => DirectionIs(t));
    var d := WhenGiven(b, c.status, t => StatusIs(t));
    var e := WhenGiven(d, c.dateFrom, t => DateFrom(t));
    var f := WhenGiven(e, c.dateTo, t => DateTo(t));
    WhenGivenParams([], c.searchTerm, t => Keyword(t), 5);
    WhenGivenParams(a, c.direction, t => DirectionIs(t), 1);
    WhenGivenParams(b, c.status, t => StatusIs(t), 1);
    WhenGivenParams(d, c.dateFrom, t => DateFrom(t), 1);
    WhenGivenParams(e, c.dateTo, t => DateTo(t), 1);
    WhenGivenParams(f, c.organization, t => Organization(t), 2);
  }

  /** A keyword binds the same `%term%` five times, ahead of every other parameter. */
  lemma KeywordParams(c: Criteria)
    requires PhpTruthy(c.searchTerm)
    ensures var p := ClausesParams(Clauses(c));
      |p| >= 5 && forall i :: 0 <= i < 5 ==> p[i] == LikeParam(c.searchTerm.value)
  {
    var v := c.searchTerm.value;
    KeywordFirst(c);
    var p := ClausesParams(Clauses(c));
    var q := [LikeParam(v), LikeParam(v), LikeParam(v), LikeParam(v), LikeParam(v)];
    forall i | 0 <= i < 5 ensures p[i] == LikeParam(v) {
      assert p[i] == p[..5][i] == q[i];
    }
  }

  /** The keyword clause comes first, so its parameters open the list. */
  lemma KeywordFirst(c: Criteria)
    requires PhpTruthy(c.searchTerm)
    ensures var p := ClausesParams(Clauses(c));
      |p| >= 5 && p[..5] == ClauseParams(Keyword(c.searchTerm.value))
  {
    var v := c.searchTerm.value;
    var a := WhenGiven([], c.searchTerm, t => Keyword(t));
    var b := WhenGiven(a, c.direction, t => DirectionIs(t));
    var d := WhenGiven(b, c.status, t => StatusIs(t));
    var e := WhenGiven(d, c.dateFrom, t => DateFrom(t));
    var f := WhenGiven(e, c.dateTo, t => DateTo(t));
    var q := ClauseParams(Keyword(v));
    assert a == [Keyword(v)];
    KeywordOpens(v);
    WhenGivenParamsPrefix(a, c.direction, t => DirectionIs(t), q);
    WhenGivenParamsPrefix(b, c.status, t => StatusIs(t), q);
    WhenGivenParamsPrefix(d, c.dateFrom, t => DateFrom(t), q);
    WhenGivenParamsPrefix(e, c.dateTo, t => DateTo(t), q);
    WhenGivenParamsPrefix(f, c.organization, t => Organization(t), q);
  }

  /** The keyword clause alone binds its five parameters. */
  lemma KeywordOpens(v: string)
    ensures ClausesParams([Keyword(v)]) == ClauseParams(Keyword(v))
    ensures |ClauseParams(Keyword(v))| == 5
  {
    assert [Keyword(v)][..0] == [];
  }

  /** Adding a clause keeps the parameters bound so far as a prefix. */
  lemma WhenGivenParamsPrefix(acc: seq<Clause>, criterion: Option<string>, clause: string -> Clause, q: seq<string>)
    requires |q| <= |ClausesParams(acc)| && ClausesParams(acc)[..|q|] == q
    ensures |q| <= |ClausesParams(WhenGiven(acc, criterion, clause))|
    ensures ClausesParams(WhenGiven(acc, criterion, clause))[..|q|] == q
  {
    if PhpTruthy(criterion) {
      ClausesSnoc(acc, clause(criterion.value));
      assert (ClausesParams(acc) + ClauseParams(clause(criterion.value)))[..|q|] == ClausesParams(acc)[..|q|];
    }
  }

  // ---------------------------------------------------------------- what the query selects

  /** `col LIKE '%t%'` under a collation's folding; `NULL` never matches. */
  predicate Like(col: Option<string>, t: string, fold: Fold)
  {
    col.Some? && Contains(Folded(col.value, fold), Folded(t, fold))
  }

  /** `col = v` under the same folding; `NULL` never matches. */
  predicate Equal(col: Option<string>, v: string, fold: Fold)
  {
    col.Some? && Folded(col.value, fold) == Folded(v, fold)
  }

  /** Whether a row satisfies a clause, with `date` compared as ISO text. */
  predicate ClauseHolds(row: Row, cl: Clause, fold: Fold)
  {
    match cl
    case Keyword(t) =>
      Like(row.number, t, fold) || Like(row.summary, t, fold) || Like(row.sender_department, t, fold) ||
      Like(row.receiver_department, t, fold) || Like(row.notes, t, fold)
    case DirectionIs(t) => Equal(row.direction, t, fold)
    case StatusIs(s) => Equal(row.status, s, fold)
    case DateFrom(d) => row.date.Some? && StrLe(d, row.date.value)
    case DateTo(d) => row.date.Some? && StrLe(row.date.value, d)
    case Organization(o) => Like(row.sender_department, o, fold) || Like(row.receiver_department, o, fold)
  }

  /** `WHERE 1=1 AND ...`: every clause holds. */
  predicate Selects(row: Row, cls: seq<Clause>, fold: Fold)
  {
    forall i :: 0 <= i < |cls| ==> ClauseHolds(row, cls[i], fold)
  }

  /**
   * `searchDocuments`: the rows the query selects, newest first; a failing
   * statement (`PDOException`) gives the empty list.
   */
  function SearchDocuments(table: seq<Row>, c: Criteria, fold: Fold, fails: bool): seq<Row>
  {
    if fails then [] else NewestFirst(Filter(table, (row: Row) => Selects(row, Clauses(c), fold)))
  }

  /**
   * The result holds each row of the table meeting every active criterion,
   * as many times as the table does, and nothing else; it is ordered newest
   * first.
   */
  lemma SearchIsConjunction(table: seq<Row>, c: Criteria, fold: Fold)
    ensures var r := SearchDocuments(table, c, fold, false);
      Sorted(r, CreatedNotBefore) &&
      multiset(r) == multiset(Filter(table, (row: Row) => Selects(row, Clauses(c), fold))) &&
      (forall row :: row in r <==> row in table && forall cl :: cl in Clauses(c) ==> ClauseHolds(row, cl, fold))
  {
    var f := Filter(table, (row: Row) => Selects(row, Clauses(c), fold));
    FilterMembers(table, (row: Row) => Selects(row, Clauses(c), fold));
    var r := NewestFirst(f);
    forall row ensures row in r <==> row in f {
      assert row in r <==> row in multiset(r);
      assert row in f <==> row in multiset(f);
    }
    forall row ensures Selects(row, Clauses(c), fold) <==> forall cl :: cl in Clauses(c) ==> ClauseHolds(row, cl, fold) {
      if Selects(row, Clauses(c), fold) {
        forall cl | cl in Clauses(c) ensures ClauseHolds(row, cl, fold) {
          var i :| 0 <= i < |Clauses(c)| && Clauses(c)[i] == cl;
        }
      }
    }
  }

  /** With no truthy criterion the search is `getAllDocuments`. */
  lemma SearchWithoutCriteria(table: seq<Row>, c: Criteria, fold: Fold)
    requires !PhpTruthy(c.searchTerm) && !PhpTruthy(c.direction) && !PhpTruthy(c.status)
    requires !PhpTruthy(c.dateFrom) && !PhpTruthy(c.dateTo) && !PhpTruthy(c.organization)
    ensures SearchDocuments(table, c, fold, false) == GetAllDocuments(table)
    ensures QuerySql(Clauses(c)) == SelectAll + OrderByNewest && ClausesParams(Clauses(c)) == []
  {
    assert Clauses(c) == [];
    FilterAll(table, (row: Row) => Selects(row, Clauses(c), fold));
  }

  /** Both date bounds are inclusive, and a row without a date fails either. */
  lemma DateBoundsInclusive(row: Row, d: string, fold: Fold)
    ensures row.date == Some(d) ==> ClauseHolds(row, DateFrom(d), fold) && ClauseHolds(row, DateTo(d), fold)
    ensures row.date.None? ==> !ClauseHolds(row, DateFrom(d), fold) && !ClauseHolds(row, DateTo(d), fold)
    ensures row.date.Some? ==> (ClauseHolds(row, DateFrom(d), fold) && ClauseHolds(row, DateTo(d), fold) <==> row.date == Some(d))
  {
    if row.date.Some? && StrLe(d, row.date.value) && StrLe(row.date.value, d) && row.date.value != d {
      StrLtAsymmetric(d, row.date.value);
    }
  }

  // ---------------------------------------------------------------- writes

  /** The `tags` column: an array joined with ",", text as it is, absent as `NULL`. */
  function TagsColumn(t: Tags): (r: Option<string>)
    ensures t.NoTags? <==> r.None?
  {
    match t
    case NoTags => None
    case TagList(items) => Some(Join(items, ","))
    case TagText(text) => Some(text)
  }

  /** Tags written as an array read back, split on ',' and trimmed, as the same array. */
  lemma TagsColumnRoundTrip(items: seq<string>)
    requires forall t :: t in items ==> t != "" && IsTrimmed(t) && ',' !in t
    ensures TagsColumn(TagList(items)).Some? && ParseTags(TagsColumn(TagList(items)).value) == items
  {
    ParseTagsJoin(items);
  }

  /**
   * The row `addDocument` inserts for a posted document: camelCase keys go
   * to their snake_case columns, missing keys become `NULL`, and a missing
   * `createdAt`/`updatedAt` becomes `now`. The new id comes from the engine.
   */
  function InsertRow(data: Doc, id: int, now: string): (r: Row)
    ensures r.id == id
    ensures r.created_at == Some(if data.createdAt.Some? then data.createdAt.value else now)
    ensures r.updated_at == Some(if data.updatedAt.Some? then data.updatedAt.value else now)
  {
    Row(id, Some(data.direction), Some(data.number), Some(data.date), Some(data.summary),
        data.documentType, data.priority, data.status, data.senderDepartment, data.receiverDepartment,
        data.mainResponsible, data.processingDeadline, data.signer, TagsColumn(data.tags), data.notes,
        data.attachment_name, data.attachment_path, data.attachment_size,
        Some(if data.createdAt.Some? then data.createdAt.value else now),
        Some(if data.updatedAt.Some? then data.updatedAt.value else now))
  }

  /**
   * The row after `updateDocument`: every column from the posted document as
   * on insert, except that `id` and `created_at` keep their stored values.
   */
  function UpdateRow(stored: Row, data: Doc, now: string): (r: Row)
    ensures r.id == stored.id && r.created_at == stored.created_at
    ensures r.updated_at == Some(if data.updatedAt.Some? then data.updatedAt.value else now)
  {
    InsertRow(data, stored.id, now).(created_at := stored.created_at)
  }

  /** The row after `updateDocument` with a `null` body: every written column `NULL`, `updated_at` now. */
  function ClearedRow(stored: Row, now: string): (r: Row)
    ensures r.id == stored.id && r.created_at == stored.created_at && r.updated_at == Some(now)
  {
    Row(stored.id, None, None, None, None, None, None, None, None, None, None, None, None, None, None,
        None, None, None, stored.created_at, Some(now))
  }

  /** Update and insert agree on every column but the creation time. */
  lemma UpdateIsInsertButCreated(stored: Row, data: Doc, now: string)
    ensures UpdateRow(stored, data, now).(created_at := None) == InsertRow(data, stored.id, now).(created_at := None)
  {
  }

  /** `addDocument`: the table gains the new row at the end. */
  function AddDocument(table: seq<Row>, data: Doc, id: int, now: string): (r: seq<Row>)
    ensures r == table + [InsertRow(data, id, now)]
  {
    table + [InsertRow(data, id, now)]
  }

  /** `updateDocument`: every row with the id is rewritten; the statement succeeds whether or not one exists. */
  function UpdateDocument(table: seq<Row>, id: int, data: Doc, now: string): (r: seq<Row>)
    ensures |r| == |table|
  {
    Map(table, (row: Row) => if row.id == id then UpdateRow(row, data, now) else row)
  }

  /** An update keeps the ids, their order and every creation time, and leaves other rows as they were. */
  lemma UpdateKeepsIdentity(table: seq<Row>, id: int, data: Doc, now: string)
    ensures var r := UpdateDocument(table, id, data, now);
      forall i :: 0 <= i < |table| ==>
        r[i].id == table[i].id && r[i].created_at == table[i].created_at &&
        (table[i].id != id ==> r[i] == table[i]) &&
        (table[i].id == id ==> r[i] == UpdateRow(table[i], data, now))
  {
  }

  /** `deleteDocument`: the rows with the id are removed; the statement succeeds even when none exists. */
  function DeleteDocument(table: seq<Row>, id: int): seq<Row>
  {
    Filter(table, (row: Row) => row.id != id)
  }

  /** Deleting keeps exactly the rows with another id, and an unknown id leaves the table unchanged. */
  lemma DeleteSpec(table: seq<Row>, id: int)
    ensures forall row :: row in DeleteDocument(table, id) <==> row in table && row.id != id
    ensures (forall row :: row in table ==> row.id != id) ==> DeleteDocument(table, id) == table
  {
    FilterMembers(table, (row: Row) => row.id != id);
    if forall row :: row in table ==> row.id != id {
      FilterAll(table, (row: Row) => row.id != id);
    }
  }

  /**
   * A row as the API returns it to the front end (`fetchAll` then
   * `json_encode`): the snake_case keys only, `NULL` as an absent key.
   */
  function AsJson(row: Row): (d: Doc)
    ensures d.id == row.id && d.processing_deadline == row.processing_deadline
    ensures d.processingDeadline.None? && d.documentType.None? && d.createdAt.None?
  {
    BlankDoc(row.id, OrDefault(row.direction, ""), OrDefault(row.number, ""), OrDefault(row.date, ""), OrDefault(row.summary, ""))
      .(document_type := row.document_type, priority := row.priority, status := row.status,
        sender_department := row.sender_department, receiver_department := row.receiver_department,
        processing_deadline := row.processing_deadline, signer := row.signer,
        tags := if row.tags.Some? then TagText(row.tags.value) else NoTags, notes := row.notes,
        attachment_name := row.attachment_name, attachment_path := row.attachment_path,
        attachment_size := row.attachment_size, created_at := row.created_at)
  }
}
