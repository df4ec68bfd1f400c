/**
 * js/search-service.js: the client side of searching. Both searches build a
 * `URLSearchParams` by successive `append` calls and send it to
 * api/documents.php; the rows that come back are listed in a table.
 *
 * The query is the list of appended key/value pairs; what the server reads
 * from it is `QueryMap`, PHP's `$_GET`. The request itself is a parameter:
 * the reply the server gave (`Ok`) or a failure (`!response.ok`, a network
 * error or bad JSON). Percent-encoding of the query string, the loading
 * indicator and the toasts are left out.
 */
module SearchService {
  import opened Common
  import DbConfig
  import DocumentsApi

  datatype QueryParam = QueryParam(key: string, value: string)

  /** What `fetch` and `response.json()` gave. */
  datatype Reply = Ok(results: seq<DbConfig.Row>) | Failed

  /** `$_GET`: each key with the value appended last under it. */
  function QueryMap(q: seq<QueryParam>): map<string, string>
  {
    if q == [] then map[] else QueryMap(q[..|q| - 1])[q[|q| - 1].key := q[|q| - 1].value]
  }

  /** A pair appended when the value is there. */
  function Opt(key: string, v: Option<string>): (r: seq<QueryParam>)
    ensures |r| <= 1
  {
    if v.Some? then [QueryParam(key, v.value)] else []
  }

  /** The map after an optional pair: the key is set when the value is there. */
  function Put(m: map<string, string>, key: string, v: Option<string>): map<string, string>
  {
    if v.Some? then m[key := v.value] else m
  }

  lemma PutParam(m: map<string, string>, key: string, v: Option<string>, k: string)
    ensures DocumentsApi.Param(Put(m, key, v), k) == if k == key && v.Some? then v else DocumentsApi.Param(m, k)
  {
  }

  lemma QueryMapOpt(q: seq<QueryParam>, key: string, v: Option<string>)
    ensures QueryMap(q + Opt(key, v)) == Put(QueryMap(q), key, v)
  {
    if v.Some? {
      assert (q + Opt(key, v))[..|q|] == q;
    } else {
      assert q + Opt(key, v) == q;
    }
  }

  /** The query keys are distinct; the only two of the same length differ in their second letter. */
  lemma KeysDiffer()
    ensures "search" != "type" && "search" != "status" && "search" != "date_from" && "search" != "date_to"
    ensures "search" != "organization" && "search" != "id" && "search" != "document_type"
    ensures "type" != "status" && "type" != "date_from" && "type" != "date_to" && "type" != "organization"
    ensures "type" != "id" && "type" != "document_type"
    ensures "status" != "date_from" && "status" != "date_to" && "status" != "organization" && "status" != "id"
    ensures "status" != "document_type"
    ensures "date_from" != "date_to" && "date_from" != "organization" && "date_from" != "id"
    ensures "date_to" != "organization" && "date_to" != "id" && "organization" != "id"
    ensures "document_type" != "date_from" && "document_type" != "date_to" && "document_type" != "organization"
    ensures "document_type" != "id"
  {
    assert "search"[1] != "status"[1];
  }

  /** The position of a key in the order search, type, status, date_from, date_to, organization. */
  function Rank(key: string): nat
  {
    if key == "search" then 0 else if key == "type" then 1 else if key == "status" then 2
    else if key == "date_from" then 3 else if key == "date_to" then 4 else if key == "organization" then 5
    else 6
  }

  /** The keys of `q` come in strictly increasing rank, all below `r`. */
  predicate RankedBelow(q: seq<QueryParam>, r: nat)
  {
    (forall i, j :: 0 <= i < j < |q| ==> Rank(q[i].key) < Rank(q[j].key)) &&
    forall i :: 0 <= i < |q| ==> Rank(q[i].key) < r
  }

  lemma RankedOpt(q: seq<QueryParam>, key: string, v: Option<string>)
    requires RankedBelow(q, Rank(key))
    ensures RankedBelow(q + Opt(key, v), Rank(key) + 1)
  {
  }

  // ---------------------------------------------------------------- advanced search

  /** `x && x !== ''`: a truthy value is sent as it is. */
  function NonEmpty(o: Option<string>): (r: Option<string>)
    ensures r.Some? <==> Truthy(o)
    ensures r.Some? ==> r == o && r.value != ""
  {
    if Truthy(o) then o else None
  }

  /** `x && x.trim()`: the trimmed value, unless it is blank. */
  function TrimmedText(o: Option<string>): (r: Option<string>)
    ensures r.Some? <==> o.Some? && Trim(o.value) != ""
    ensures r.Some? ==> r.value == Trim(o.value) && r.value != "" && IsTrimmed(r.value)
  {
    if Truthy(o) && Trim(o.value) != "" then Some(Trim(o.value)) else None
  }

  /** Six optional pairs, appended in the order given. */
  function Sent6(k1: string, v1: Option<string>, k2: string, v2: Option<string>, k3: string, v3: Option<string>,
                 k4: string, v4: Option<string>, k5: string, v5: Option<string>, k6: string, v6: Option<string>): seq<QueryParam>
  {
    Opt(k1, v1) + Opt(k2, v2) + Opt(k3, v3) + Opt(k4, v4) + Opt(k5, v5) + Opt(k6, v6)
  }

  /** The map the server builds from six optional pairs. */
  lemma Sent6Map(k1: string, v1: Option<string>, k2: string, v2: Option<string>, k3: string, v3: Option<string>,
                 k4: string, v4: Option<string>, k5: string, v5: Option<string>, k6: string, v6: Option<string>)
    ensures QueryMap(Sent6(k1, v1, k2, v2, k3, v3, k4, v4, k5, v5, k6, v6)) ==
      Put(Put(Put(Put(Put(Put(map[], k1, v1), k2, v2), k3, v3), k4, v4), k5, v5), k6, v6)
  {
    var q1 := Opt(k1, v1);
    var q2 := q1 + Opt(k2, v2);
    var q3 := q2 + Opt(k3, v3);
    var q4 := q3 + Opt(k4, v4);
    var q5 := q4 + Opt(k5, v5);
    assert [] + q1 == q1;
    QueryMapOpt([], k1, v1);
    QueryMapOpt(q1, k2, v2);
    QueryMapOpt(q2, k3, v3);
    QueryMapOpt(q3, k4, v4);
    QueryMapOpt(q4, k5, v5);
    QueryMapOpt(q5, k6, v6);
  }

  /**
   * With distinct keys, what the server reads under a key is the value sent
   * under it, and nothing for a key not among them.
   */
  lemma Sent6Reads(k1: string, v1: Option<string>, k2: string, v2: Option<string>, k3: string, v3: Option<string>,
                   k4: string, v4: Option<string>, k5: string, v5: Option<string>, k6: string, v6: Option<string>, k: string)
    requires k1 != k2 && k1 != k3 && k1 != k4 && k1 != k5 && k1 != k6
    requires k2 != k3 && k2 != k4 && k2 != k5 && k2 != k6
    requires k3 != k4 && k3 != k5 && k3 != k6
    requires k4 != k5 && k4 != k6 && k5 != k6
    ensures DocumentsApi.Param(QueryMap(Sent6(k1, v1, k2, v2, k3, v3, k4, v4, k5, v5, k6, v6)), k) ==
      if k == k1 then v1 else if k == k2 then v2 else if k == k3 then v3
      else if k == k4 then v4 else if k == k5 then v5 else if k == k6 then v6 else None
  {
    Sent6Map(k1, v1, k2, v2, k3, v3, k4, v4, k5, v5, k6, v6);
    var m0: map<string, string> := map[];
    var m1 := Put(m0, k1, v1);
    var m2 := Put(m1, k2, v2);
    var m3 := Put(m2, k3, v3);
    var m4 := Put(m3, k4, v4);
    var m5 := Put(m4, k5, v5);
    PutParam(m0, k1, v1, k);
    PutParam(m1, k2, v2, k);
    PutParam(m2, k3, v3, k);
    PutParam(m3, k4, v4, k);
    PutParam(m4, k5, v5, k);
    PutParam(m5, k6, v6, k);
  }

  /** Keys given in increasing rank go out in increasing rank, so each at most once. */
  lemma Sent6Ranked(k1: string, v1: Option<string>, k2: string, v2: Option<string>, k3: string, v3: Option<string>,
                    k4: string, v4: Option<string>, k5: string, v5: Option<string>, k6: string, v6: Option<string>)
    requires Rank(k1) < Rank(k2) < Rank(k3) < Rank(k4) < Rank(k5) < Rank(k6)
    ensures RankedBelow(Sent6(k1, v1, k2, v2, k3, v3, k4, v4, k5, v5, k6, v6), Rank(k6) + 1)
  {
    var q1 := Opt(k1, v1);
    var q2 := q1 + Opt(k2, v2);
    var q3 := q2 + Opt(k3, v3);
    var q4 := q3 + Opt(k4, v4);
    var q5 := q4 + Opt(k5, v5);
    assert [] + q1 == q1;
    RankedOpt([], k1, v1);
    RankedOpt(q1, k2, v2);
    RankedOpt(q2, k3, v3);
    RankedOpt(q3, k4, v4);
    RankedOpt(q4, k5, v5);
    RankedOpt(q5, k6, v6);
  }

  /** The pairs `performAdvancedSearch` appends, in the order it appends them. */
  function AdvancedQuery(searchTerm: Option<string>, searchType: Option<string>, dateFrom: Option<string>,
                         dateTo: Option<string>, organization: Option<string>, status: Option<string>): seq<QueryParam>
  {
    Sent6("search", TrimmedText(searchTerm), "type", NonEmpty(searchType), "status", NonEmpty(status),
          "date_from", NonEmpty(dateFrom), "date_to", NonEmpty(dateTo), "organization", TrimmedText(organization))
  }

  /** `if (v) params.append(key, v)`: the pair goes out only when the value is there. */
  method AppendIfSet(params: seq<QueryParam>, key: string, v: Option<string>) returns (q: seq<QueryParam>)
    ensures q == params + Opt(key, v)
    ensures v.None? ==> q == params
    ensures v.Some? ==> q == params + [QueryParam(key, v.value)]
  {
    q := params;
    if v.Some? {
      q := q + [QueryParam(key, v.value)];
    }
  }

  /**
   * The query `performAdvancedSearch` builds: the search term and the
   * organization trimmed and only when not blank (`x && x.trim()`), every
   * other field only when not empty.
   */
  method AdvancedParams(searchTerm: Option<string>, searchType: Option<string>, dateFrom: Option<string>,
                        dateTo: Option<string>, organization: Option<string>, status: Option<string>)
    returns (params: seq<QueryParam>)
    ensures params == AdvancedQuery(searchTerm, searchType, dateFrom, dateTo, organization, status)
  {
    params := AppendIfSet([], "search", TrimmedText(searchTerm));
    assert params == Opt("search", TrimmedText(searchTerm));
    params := AppendIfSet(params, "type", NonEmpty(searchType));
    params := AppendIfSet(params, "status", NonEmpty(status));
    params := AppendIfSet(params, "date_from", NonEmpty(dateFrom));
    params := AppendIfSet(params, "date_to", NonEmpty(dateTo));
    params := AppendIfSet(params, "organization", TrimmedText(organization));
  }

  /** `performAdvancedSearch`: the query it sends and the rows it returns, `[]` on any failure. */
  method PerformAdvancedSearch(searchTerm: Option<string>, searchType: Option<string>, dateFrom: Option<string>,
                               dateTo: Option<string>, organization: Option<string>, status: Option<string>,
                               reply: Reply) returns (params: seq<QueryParam>, results: seq<DbConfig.Row>)
    ensures params == AdvancedQuery(searchTerm, searchType, dateFrom, dateTo, organization, status)
    ensures results == if reply.Ok? then reply.results else []
  {
    params := AdvancedParams(searchTerm, searchType, dateFrom, dateTo, organization, status);
    if reply.Failed? {
      return params, [];
    }
    results := reply.results;
  }

  /**
   * The server reads back exactly the values sent: the trimmed search and
   * organization unless blank, and each other value unless empty; the keys go
   * out in the fixed order search, type, status, date_from, date_to,
   * organization, each at most once.
   */
  lemma AdvancedQuerySent(searchTerm: Option<string>, searchType: Option<string>, dateFrom: Option<string>,
                          dateTo: Option<string>, organization: Option<string>, status: Option<string>)
    ensures var q := AdvancedQuery(searchTerm, searchType, dateFrom, dateTo, organization, status);
      var m := QueryMap(q);
      DocumentsApi.Param(m, "search") == TrimmedText(searchTerm) &&
      DocumentsApi.Param(m, "type") == NonEmpty(searchType) &&
      DocumentsApi.Param(m, "status") == NonEmpty(status) &&
      DocumentsApi.Param(m, "date_from") == NonEmpty(dateFrom) &&
      DocumentsApi.Param(m, "date_to") == NonEmpty(dateTo) &&
      DocumentsApi.Param(m, "organization") == TrimmedText(organization) &&
      "id" !in m && RankedBelow(q, 6)
  {
    var v1, v2, v3 := TrimmedText(searchTerm), NonEmpty(searchType), NonEmpty(status);
    var v4, v5, v6 := NonEmpty(dateFrom), NonEmpty(dateTo), TrimmedText(organization);
    KeysDiffer();
    Sent6Reads("search", v1, "type", v2, "status", v3, "date_from", v4, "date_to", v5, "organization", v6, "search");
    Sent6Reads("search", v1, "type", v2, "status", v3, "date_from", v4, "date_to", v5, "organization", v6, "type");
    Sent6Reads("search", v1, "type", v2, "status", v3, "date_from", v4, "date_to", v5, "organization", v6, "status");
    Sent6Reads("search", v1, "type", v2, "status", v3, "date_from", v4, "date_to", v5, "organization", v6, "date_from");
    Sent6Reads("search", v1, "type", v2, "status", v3, "date_from", v4, "date_to", v5, "organization", v6, "date_to");
    Sent6Reads("search", v1, "type", v2, "status", v3, "date_from", v4, "date_to", v5, "organization", v6, "organization");
    Sent6Reads("search", v1, "type", v2, "status", v3, "date_from", v4, "date_to", v5, "organization", v6, "id");
    Sent6Ranked("search", v1, "type", v2, "status", v3, "date_from", v4, "date_to", v5, "organization", v6);
  }

  /**
   * The request the server then runs: with nothing to send it lists every
   * document; otherwise it searches with exactly the values sent, and never
   * takes the `id` branch.
   */
  lemma AdvancedSearchRoute(searchTerm: Option<string>, searchType: Option<string>, dateFrom: Option<string>,
                            dateTo: Option<string>, organization: Option<string>, status: Option<string>)
    ensures var m := QueryMap(AdvancedQuery(searchTerm, searchType, dateFrom, dateTo, organization, status));
      var crit := DbConfig.Criteria(TrimmedText(searchTerm), NonEmpty(searchType), NonEmpty(status),
                                    NonEmpty(dateFrom), NonEmpty(dateTo), TrimmedText(organization));
      DocumentsApi.Route("GET", m) ==
        if crit.searchTerm.None? && crit.direction.None? && crit.status.None? &&
           crit.dateFrom.None? && crit.dateTo.None? && crit.organization.None?
        then DocumentsApi.GetAll else DocumentsApi.Search(crit)
  {
    AdvancedQuerySent(searchTerm, searchType, dateFrom, dateTo, organization, status);
  }

  // ---------------------------------------------------------------- basic search

  /** Four optional pairs, appended in the order given. */
  function Sent4(k1: string, v1: Option<string>, k2: string, v2: Option<string>,
                 k3: string, v3: Option<string>, k4: string, v4: Option<string>): seq<QueryParam>
  {
    Opt(k1, v1) + Opt(k2, v2) + Opt(k3, v3) + Opt(k4, v4)
  }

  lemma Sent4Map(k1: string, v1: Option<string>, k2: string, v2: Option<string>,
                 k3: string, v3: Option<string>, k4: string, v4: Option<string>)
    ensures QueryMap(Sent4(k1, v1, k2, v2, k3, v3, k4, v4)) == Put(Put(Put(Put(map[], k1, v1), k2, v2), k3, v3), k4, v4)
  {
    var q1 := Opt(k1, v1);
    var q2 := q1 + Opt(k2, v2);
    var q3 := q2 + Opt(k3, v3);
    assert [] + q1 == q1;
    QueryMapOpt([], k1, v1);
    QueryMapOpt(q1, k2, v2);
    QueryMapOpt(q2, k3, v3);
    QueryMapOpt(q3, k4, v4);
  }

  /** With distinct keys the server reads each value under its key, and nothing under any other key. */
  lemma Sent4Reads(k1: string, v1: Option<string>, k2: string, v2: Option<string>,
                   k3: string, v3: Option<string>, k4: string, v4: Option<string>, k: string)
    requires k1 != k2 && k1 != k3 && k1 != k4 && k2 != k3 && k2 != k4 && k3 != k4
    ensures DocumentsApi.Param(QueryMap(Sent4(k1, v1, k2, v2, k3, v3, k4, v4)), k) ==
      if k == k1 then v1 else if k == k2 then v2 else if k == k3 then v3 else if k == k4 then v4 else None
  {
    Sent4Map(k1, v1, k2, v2, k3, v3, k4, v4);
    var m0: map<string, string> := map[];
    var m1 := Put(m0, k1, v1);
    var m2 := Put(m1, k2, v2);
    var m3 := Put(m2, k3, v3);
    PutParam(m0, k1, v1, k);
    PutParam(m1, k2, v2, k);
    PutParam(m2, k3, v3, k);
    PutParam(m3, k4, v4, k);
  }

  /** The status sent by `filterDocuments`: only under a status filter, and only when given. */
  function StatusSent(filterType: Option<string>, filterValue: Option<string>): Option<string>
  {
    if filterType == Some("status") then NonEmpty(filterValue) else None
  }

  /** The document type sent: only under a document-type filter, and only when given. */
  function DocumentTypeSent(filterType: Option<string>, filterValue: Option<string>): Option<string>
  {
    if filterType == Some("documentType") then NonEmpty(filterValue) else None
  }

  /** The pairs `filterDocuments` appends: the status or the document type, as `filterType` says. */
  function FilterQuery(docType: Option<string>, searchTerm: Option<string>, filterType: Option<string>,
                       filterValue: Option<string>): seq<QueryParam>
  {
    Sent4("search", NonEmpty(searchTerm), "type", NonEmpty(docType),
          "status", StatusSent(filterType, filterValue), "document_type", DocumentTypeSent(filterType, filterValue))
  }

  /**
   * The query reaches the server as the search term, the type and, under a
   * status filter, the status; the server runs a search with these, or lists
   * every document when none is sent.
   */
  lemma FilterQueryRoute(docType: Option<string>, searchTerm: Option<string>, filterType: Option<string>,
                         filterValue: Option<string>)
    ensures var m := QueryMap(FilterQuery(docType, searchTerm, filterType, filterValue));
      var crit := DbConfig.Criteria(NonEmpty(searchTerm), NonEmpty(docType), StatusSent(filterType, filterValue),
                                    None, None, None);
      DocumentsApi.Param(m, "document_type") == DocumentTypeSent(filterType, filterValue) &&
      DocumentsApi.Route("GET", m) ==
        if crit.searchTerm.None? && crit.direction.None? && crit.status.None? then DocumentsApi.GetAll
        else DocumentsApi.Search(crit)
  {
    var v1, v2 := NonEmpty(searchTerm), NonEmpty(docType);
    var v3, v4 := StatusSent(filterType, filterValue), DocumentTypeSent(filterType, filterValue);
    KeysDiffer();
    Sent4Reads("search", v1, "type", v2, "status", v3, "document_type", v4, "search");
    Sent4Reads("search", v1, "type", v2, "status", v3, "document_type", v4, "type");
    Sent4Reads("search", v1, "type", v2, "status", v3, "document_type", v4, "status");
    Sent4Reads("search", v1, "type", v2, "status", v3, "document_type", v4, "document_type");
    Sent4Reads("search", v1, "type", v2, "status", v3, "document_type", v4, "date_from");
    Sent4Reads("search", v1, "type", v2, "status", v3, "document_type", v4, "date_to");
    Sent4Reads("search", v1, "type", v2, "status", v3, "document_type", v4, "organization");
    Sent4Reads("search", v1, "type", v2, "status", v3, "document_type", v4, "id");
  }

  /**
   * `document_type` is sent but the server never reads it: a document-type
   * filter runs exactly the request that no filter runs.
   */
  lemma DocumentTypeFilterIgnored(docType: Option<string>, searchTerm: Option<string>, filterValue: Option<string>)
    ensures DocumentsApi.Route("GET", QueryMap(FilterQuery(docType, searchTerm, Some("documentType"), filterValue))) ==
      DocumentsApi.Route("GET", QueryMap(FilterQuery(docType, searchTerm, None, filterValue)))
  {
    FilterQueryRoute(docType, searchTerm, Some("documentType"), filterValue);
    FilterQueryRoute(docType, searchTerm, None, filterValue);
    assert Some("documentType") != Some("status") by {
      assert "documentType"[0] != "status"[0];
    }
  }

  /** The rows of the result table: a "not found" row, or a document's row. */
  datatype TableRow = NotFoundRow | DocumentRow(row: DbConfig.Row)

  function RowOf(row: DbConfig.Row): TableRow
  {
    DocumentRow(row)
  }

  /** `doc.type === type`: no row matches an undefined type. */
  function OfType(docType: Option<string>): DbConfig.Row -> bool
  {
    (row: DbConfig.Row) => docType.Some? && row.direction == docType
  }

  /** What `displayResults` leaves in the table body, when the page has one. */
  datatype Display = Untouched | Shown(rows: seq<TableRow>)

  /** The rows listed for a non-empty result. */
  function ShownRows(results: seq<DbConfig.Row>, docType: Option<string>): seq<TableRow>
  {
    Map(Filter(results, OfType(docType)), RowOf)
  }

  /** `displayResults`: one "not found" row for no results, otherwise a row per result of the type. */
  method DisplayResults(results: seq<DbConfig.Row>, docType: Option<string>, hasBody: bool) returns (d: Display)
    ensures !hasBody ==> d == Untouched
    ensures hasBody && results == [] ==> d == Shown([NotFoundRow])
    ensures hasBody && results != [] ==> d == Shown(ShownRows(results, docType))
  {
    if !hasBody {
      return Untouched;
    }
    if |results| == 0 {
      return Shown([NotFoundRow]);
    }
    var rows: seq<TableRow> := [];
    var i := 0;
    while i < |results|
      invariant 0 <= i <= |results|
      invariant rows == ShownRows(results[..i], docType)
    {
      FilterAppend(results[..i], [results[i]], OfType(docType));
      assert results[..i + 1] == results[..i] + [results[i]];
      if docType.Some? && results[i].direction == docType {
        rows := rows + [DocumentRow(results[i])];
      }
      i := i + 1;
    }
    assert results[..i] == results;
    return Shown(rows);
  }

  /**
   * A listed row is a result of the requested type and every such result is
   * listed, in order; the "not found" row never sits among them, so results
   * that are all of the other type leave the table empty.
   */
  lemma ShownRowsExact(results: seq<DbConfig.Row>, docType: Option<string>)
    ensures var rows := ShownRows(results, docType);
      NotFoundRow !in rows &&
      (forall row :: DocumentRow(row) in rows <==> row in results && docType.Some? && row.direction == docType) &&
      |rows| == Count(results, OfType(docType))
  {
    var kept := Filter(results, OfType(docType));
    FilterMembers(results, OfType(docType));
    var rows := ShownRows(results, docType);
    forall row ensures DocumentRow(row) in rows <==> row in kept {
      if DocumentRow(row) in rows {
        var i :| 0 <= i < |rows| && rows[i] == DocumentRow(row);
        assert kept[i] == row;
      }
      if row in kept {
        var i :| 0 <= i < |kept| && kept[i] == row;
        assert rows[i] == DocumentRow(row);
      }
    }
  }

  /** `filterDocuments`: the query, the rows it returns (`[]` on failure), and the table it shows. */
  method FilterDocuments(docType: Option<string>, searchTerm: Option<string>, filterType: Option<string>,
                         filterValue: Option<string>, reply: Reply, hasBody: bool)
    returns (params: seq<QueryParam>, results: seq<DbConfig.Row>, shown: Display)
    ensures params == FilterQuery(docType, searchTerm, filterType, filterValue)
    ensures results == if reply.Ok? then reply.results else []
    ensures shown == if reply.Failed? || !hasBody then Untouched
      else if reply.results == [] then Shown([NotFoundRow]) else Shown(ShownRows(reply.results, docType))
  {
    params := AppendIfSet([], "search", NonEmpty(searchTerm));
    assert params == Opt("search", NonEmpty(searchTerm));
    params := AppendIfSet(params, "type", NonEmpty(docType));
    params := AppendIfSet(params, "status", StatusSent(filterType, filterValue));
    params := AppendIfSet(params, "document_type", DocumentTypeSent(filterType, filterValue));
    if reply.Failed? {
      return params, [], Untouched;
    }
    results := reply.results;
    shown := DisplayResults(results, docType, hasBody);
  }

  // ---------------------------------------------------------------- advanced results

  datatype SearchView = NoView | NoMatchNotice | ResultTable(rows: seq<TableRow>)

  /** `displaySearchResults`: a notice for no results, otherwise a table with a row per result. */
  method DisplaySearchResults(results: seq<DbConfig.Row>, hasContainer: bool) returns (v: SearchView)
    ensures !hasContainer ==> v == NoView
    ensures hasContainer && results == [] ==> v == NoMatchNotice
    ensures hasContainer && results != [] ==>
      v.ResultTable? && |v.rows| == |results| && forall i :: 0 <= i < |results| ==> v.rows[i] == DocumentRow(results[i])
  {
    if !hasContainer {
      return NoView;
    }
    if |results| == 0 {
      return NoMatchNotice;
    }
    var rows: seq<TableRow> := [];
    var i := 0;
    while i < |results|
      invariant 0 <= i <= |results|
      invariant |rows| == i && forall j :: 0 <= j < i ==> rows[j] == DocumentRow(results[j])
    {
      rows := rows + [DocumentRow(results[i])];
      i := i + 1;
    }
    return ResultTable(rows);
  }
}
