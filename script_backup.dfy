/**
 * script-backup.js: the single-file version of the front end that keeps the
 * register in `localStorage`. Its `DocumentManager` holds the documents, the
 * document being edited, the direction of the open form and the list of
 * deadline notifications. It counts the dashboard figures, builds the
 * notifications, saves, edits and deletes documents, filters and searches
 * the list, computes a report for a period and exports it as CSV.
 *
 * `localStorage`, the DOM, `confirm`, timers and the clock are left out or
 * are parameters: `now` is `new Date()` in epoch milliseconds, `parse` is
 * `new Date(text)` and `fold` is `toLowerCase`.
 */
module ScriptBackup {
  import opened Common
  import opened Documents
  import opened Deadlines
  import opened Sorting
  import Tally
  import Reports
  import DM = DocumentManager

  // ---------------------------------------------------------------- deadline buckets

  /** Whole days until the processing deadline; `None` when it is missing, empty or not a date (NaN). */
  function DeadlineDays(doc: Doc, now: int, parse: DateParser): (r: Option<int>)
    ensures r.Some? ==> Truthy(doc.processingDeadline) && parse(doc.processingDeadline.value).Moment?
  {
    if !Truthy(doc.processingDeadline) then None
    else
      var deadline := parse(doc.processingDeadline.value);
      if deadline.Moment? then Some(DaysUntil(deadline.ms, now)) else None
  }

  predicate Overdue(doc: Doc, now: int, parse: DateParser)
  {
    var days := DeadlineDays(doc, now, parse);
    days.Some? && days.value < 0 && !IsCompleted(doc)
  }

  predicate NearDeadline(doc: Doc, now: int, parse: DateParser)
  {
    var days := DeadlineDays(doc, now, parse);
    days.Some? && 0 <= days.value <= 3 && !IsCompleted(doc)
  }

  /**
   * A document is overdue when its deadline lies a full day or more in the
   * past, and near its deadline when the deadline is less than a day past or
   * at most three days ahead; never both, and never when completed.
   */
  lemma BucketWindows(doc: Doc, now: int, parse: DateParser)
    ensures Overdue(doc, now, parse) <==>
      Truthy(doc.processingDeadline) && parse(doc.processingDeadline.value).Moment? && !IsCompleted(doc) &&
      now - parse(doc.processingDeadline.value).ms >= MsPerDay
    ensures NearDeadline(doc, now, parse) <==>
      Truthy(doc.processingDeadline) && parse(doc.processingDeadline.value).Moment? && !IsCompleted(doc) &&
      -MsPerDay < parse(doc.processingDeadline.value).ms - now <= 3 * MsPerDay
    ensures !(Overdue(doc, now, parse) && NearDeadline(doc, now, parse))
  {
    if Truthy(doc.processingDeadline) && parse(doc.processingDeadline.value).Moment? {
      var ms := parse(doc.processingDeadline.value).ms;
      DaysNegative(ms, now);
      DaysAtMost(ms, now, 3);
    }
  }

  // ---------------------------------------------------------------- statistics

  datatype Stats = Stats(incoming: nat, outgoing: nat, pending: nat, overdue: nat, nearDeadline: nat)

  /** The dashboard figures, each a count over the list. */
  function StatisticsOf(docs: seq<Doc>, now: int, parse: DateParser): Stats
  {
    Stats(
      Count(docs, (d: Doc) => d.direction == "incoming"),
      Count(docs, (d: Doc) => d.direction == "outgoing"),
      Count(docs, (d: Doc) => d.status == Some("pending") || d.status == Some("processing")),
      Count(docs, (d: Doc) => Overdue(d, now, parse)),
      Count(docs, (d: Doc) => NearDeadline(d, now, parse)))
  }

  /** No document is counted both ways: each count pair adds up to at most the list length. */
  lemma StatisticsBounds(docs: seq<Doc>, now: int, parse: DateParser)
    ensures var s := StatisticsOf(docs, now, parse);
      s.incoming + s.outgoing <= |docs| && s.overdue + s.nearDeadline <= |docs|
  {
    CountDisjoint(docs, (d: Doc) => d.direction == "incoming", (d: Doc) => d.direction == "outgoing");
    forall d: Doc ensures !(Overdue(d, now, parse) && NearDeadline(d, now, parse)) {
      BucketWindows(d, now, parse);
    }
    CountDisjoint(docs, (d: Doc) => Overdue(d, now, parse), (d: Doc) => NearDeadline(d, now, parse));
  }

  /** The figures do not depend on the order of the list. */
  lemma StatisticsOfPermutation(docs: seq<Doc>, other: seq<Doc>, now: int, parse: DateParser)
    requires multiset(docs) == multiset(other)
    ensures StatisticsOf(docs, now, parse) == StatisticsOf(other, now, parse)
  {
    CountPerm(docs, other, (d: Doc) => d.direction == "incoming");
    CountPerm(docs, other, (d: Doc) => d.direction == "outgoing");
    CountPerm(docs, other, (d: Doc) => d.status == Some("pending") || d.status == Some("processing"));
    CountPerm(docs, other, (d: Doc) => Overdue(d, now, parse));
    CountPerm(docs, other, (d: Doc) => NearDeadline(d, now, parse));
  }

  // ---------------------------------------------------------------- notifications

  /** An entry of `this.notifications`: 'overdue' or 'upcoming', the document and the text shown. */
  datatype Notice = Notice(kind: string, document: Doc, message: string)

  /** The notification a document raises, if any. */
  function NoticeOf(doc: Doc, now: int, parse: DateParser): (r: Option<Notice>)
    ensures r.Some? ==> r.value.document == doc
    ensures r.Some? && r.value.kind == "overdue" <==> Overdue(doc, now, parse)
    ensures r.Some? && r.value.kind == "upcoming" <==> NearDeadline(doc, now, parse)
    ensures r.Some? <==> Overdue(doc, now, parse) || NearDeadline(doc, now, parse)
  {
    if Truthy(doc.processingDeadline) && !IsCompleted(doc) then
      var deadline := parse(doc.processingDeadline.value);
      if deadline.Invalid? then None
      else
        var days := DaysUntil(deadline.ms, now);
        if days < 0 then
          Some(Notice("overdue", doc, "Văn bản " + doc.number + " đã quá hạn " + NatToString(-days) + " ngày"))
        else if days <= 3 then
          Some(Notice("upcoming", doc, "Văn bản " + doc.number + " sẽ đến hạn trong " + NatToString(days) + " ngày"))
        else None
    else None
  }

  /** The notifications of a list, in list order. */
  function NoticesOf(docs: seq<Doc>, now: int, parse: DateParser): seq<Notice>
  {
    if docs == [] then []
    else
      var init := NoticesOf(docs[..|docs| - 1], now, parse);
      var n := NoticeOf(docs[|docs| - 1], now, parse);
      if n.Some? then init + [n.value] else init
  }

  /**
   * The bell lists one notification per overdue or near document, each of
   * the list, so its length is the dashboard's overdue plus near-deadline.
   */
  lemma {:induction false} NoticesMatchStatistics(docs: seq<Doc>, now: int, parse: DateParser)
    ensures |NoticesOf(docs, now, parse)| == StatisticsOf(docs, now, parse).overdue + StatisticsOf(docs, now, parse).nearDeadline
    ensures forall n :: n in NoticesOf(docs, now, parse) ==> n.document in docs
  {
    if docs != [] {
      var init := docs[..|docs| - 1];
      var last := docs[|docs| - 1];
      NoticesMatchStatistics(init, now, parse);
      assert docs == init + [last];
      CountSnoc(init, last, (d: Doc) => Overdue(d, now, parse));
      CountSnoc(init, last, (d: Doc) => NearDeadline(d, now, parse));
      BucketWindows(last, now, parse);
    }
  }

  // ---------------------------------------------------------------- the form and saving

  /** The file chosen in the form. */
  datatype ChosenFile = ChosenFile(name: string, size: int, mime: string, lastModified: int)

  /**
   * The clock readings `saveDocument` may make, each a reading of its own:
   * `Date.now()` for a new id, then `new Date().toISOString()` for the
   * creation time of a new document and again for the update time.
   */
  datatype SaveClock = SaveClock(nowMs: int, createdIso: string, updatedIso: string)

  /**
   * The object `saveDocument` builds. `editing` is `currentEditingDoc` and
   * `direction` is `currentDocumentType`.
   */
  function BackupDocData(form: DM.FormData, editing: Option<Doc>, direction: string, chosen: Option<ChosenFile>,
                         clock: SaveClock): Doc
  {
    var base := BlankDoc(if editing.Some? then editing.value.id else clock.nowMs, direction, form.number, form.date, form.summary)
      .(documentType := Some(form.documentType), priority := Some(form.priority),
        tags := TagList(ParseTags(form.tags)), notes := Some(form.notes),
        status := if editing.Some? then editing.value.status
                  else Some(if direction == "incoming" then "pending" else "draft"),
        createdAt := if editing.Some? then editing.value.createdAt else Some(clock.createdIso),
        updatedAt := Some(clock.updatedIso));
    var typed :=
      if direction == "incoming" then
        base.(senderDepartment := Some(form.senderDepartment), processingDeadline := Some(form.processingDeadline))
      else
        base.(receiverDepartment := Some(form.receiverDepartment), signer := Some(form.signer));
    if chosen.Some? then
      typed.(attachment := Some(LegacyAttachment(Some(chosen.value.name), None, None, Some(chosen.value.size))))
    else typed
  }

  /**
   * An edit keeps the id, the status and the creation time of the edited
   * document; a new document gets a fresh id, the status 'pending' (incoming)
   * or 'draft' (outgoing) and is created now. Either way it is updated now
   * and carries the fields of its direction only.
   */
  lemma BackupDocDataSpec(form: DM.FormData, editing: Option<Doc>, direction: string, chosen: Option<ChosenFile>,
                          clock: SaveClock)
    ensures var r := BackupDocData(form, editing, direction, chosen, clock);
      r.direction == direction && r.updatedAt == Some(clock.updatedIso) &&
      (editing.Some? ==> r.id == editing.value.id && r.status == editing.value.status && r.createdAt == editing.value.createdAt) &&
      (editing.None? ==> r.id == clock.nowMs && r.createdAt == Some(clock.createdIso) &&
                         r.status == Some(if direction == "incoming" then "pending" else "draft")) &&
      (direction == "incoming" ==> r.processingDeadline == Some(form.processingDeadline) && r.receiverDepartment.None? && r.signer.None?) &&
      (direction != "incoming" ==> r.processingDeadline.None? && r.senderDepartment.None? && r.receiverDepartment == Some(form.receiverDepartment)) &&
      (r.attachment.Some? <==> chosen.Some?)
  {
  }

  // ---------------------------------------------------------------- filtering

  /**
   * `filterDocuments` (the same computation as `DocumentManager.FilterDocuments`):
   * every row shown has the direction of the table, meets each active
   * criterion (the keyword on number, summary, sender or receiver, the exact
   * status, the exact `documentType`), and every such document is shown.
   */
  lemma FilterDocumentsSpec(docs: seq<Doc>, direction: string, searchTerm: string, filterType: string,
                            filterValue: string, fold: Fold)
    ensures var r := DM.FilterDocuments(docs, direction, searchTerm, filterType, filterValue, fold);
      (forall d :: d in r ==> d in docs && d.direction == direction) &&
      (forall d :: d in r && searchTerm != "" ==> DM.KeywordMatch(d, searchTerm, fold)) &&
      (forall d :: d in r && filterType == "status" && filterValue != "" ==> d.status == Some(filterValue)) &&
      (forall d :: d in r && filterType == "type" && filterValue != "" ==> d.documentType == Some(filterValue)) &&
      (forall d :: d in docs && DM.FilterMatch(d, direction, searchTerm, filterType, filterValue, fold) ==> d in r)
  {
    DM.FilterDocumentsIsAnd(docs, direction, searchTerm, filterType, filterValue, fold);
    FilterMembers(docs, (d: Doc) => DM.FilterMatch(d, direction, searchTerm, filterType, filterValue, fold));
  }

  /** The fields of the advanced search form. `direction` is the `type` field. */
  datatype SearchData = SearchData(text: string, direction: string, dateFrom: string, dateTo: string,
                                   department: string, status: string)

  /** The advanced search's keyword test: `filterDocuments`' fields and also the notes. */
  predicate TextMatch(doc: Doc, text: string, fold: Fold)
  {
    DM.KeywordMatch(doc, text, fold) ||
    (Truthy(doc.notes) && Contains(Folded(doc.notes.value, fold), Folded(text, fold)))
  }

  predicate DepartmentMatch(doc: Doc, department: string, fold: Fold)
  {
    var t := Folded(department, fold);
    (Truthy(doc.senderDepartment) && Contains(Folded(doc.senderDepartment.value, fold), t)) ||
    (Truthy(doc.receiverDepartment) && Contains(Folded(doc.receiverDepartment.value, fold), t))
  }

  /** `performAdvancedSearch`: the list narrowed by each criterion that is filled in, in form order. */
  function PerformAdvancedSearch(docs: seq<Doc>, q: SearchData, fold: Fold): seq<Doc>
  {
    var byText := Narrow(docs, q.text != "", (d: Doc) => TextMatch(d, q.text, fold));
    var byType := Narrow(byText, q.direction != "", (d: Doc) => d.direction == q.direction);
    var byFrom := Narrow(byType, q.dateFrom != "", (d: Doc) => StrLe(q.dateFrom, d.date));
    var byTo := Narrow(byFrom, q.dateTo != "", (d: Doc) => StrLe(d.date, q.dateTo));
    var byDepartment := Narrow(byTo, q.department != "", (d: Doc) => DepartmentMatch(d, q.department, fold));
    Narrow(byDepartment, q.status != "", (d: Doc) => d.status == Some(q.status))
  }

  /** The conjunction of the criteria that are filled in. */
  predicate SearchMatch(doc: Doc, q: SearchData, fold: Fold)
  {
    (q.text != "" ==> TextMatch(doc, q.text, fold)) &&
    (q.direction != "" ==> doc.direction == q.direction) &&
    (q.dateFrom != "" ==> StrLe(q.dateFrom, doc.date)) &&
    (q.dateTo != "" ==> StrLe(doc.date, q.dateTo)) &&
    (q.department != "" ==> DepartmentMatch(doc, q.department, fold)) &&
    (q.status != "" ==> doc.status == Some(q.status))
  }

  /** The search shows, in list order, exactly the documents meeting every criterion filled in. */
  lemma AdvancedSearchIsAnd(docs: seq<Doc>, q: SearchData, fold: Fold)
    ensures PerformAdvancedSearch(docs, q, fold) == Filter(docs, (d: Doc) => SearchMatch(d, q, fold))
  {
    // the criteria applied after each stage
    var p0 := (d: Doc) => true;
    var p1 := (d: Doc) => q.text != "" ==> TextMatch(d, q.text, fold);
    var p2 := (d: Doc) => p1(d) && (q.direction != "" ==> d.direction == q.direction);
    var p3 := (d: Doc) => p2(d) && (q.dateFrom != "" ==> StrLe(q.dateFrom, d.date));
    var p4 := (d: Doc) => p3(d) && (q.dateTo != "" ==> StrLe(d.date, q.dateTo));
    var p5 := (d: Doc) => p4(d) && (q.department != "" ==> DepartmentMatch(d, q.department, fold));
    var p6 := (d: Doc) => SearchMatch(d, q, fold);
    FilterAll(docs, p0);
    NarrowFilter(docs, p0, q.text != "", (d: Doc) => TextMatch(d, q.text, fold), p1);
    NarrowFilter(docs, p1, q.direction != "", (d: Doc) => d.direction == q.direction, p2);
    NarrowFilter(docs, p2, q.dateFrom != "", (d: Doc) => StrLe(q.dateFrom, d.date), p3);
    NarrowFilter(docs, p3, q.dateTo != "", (d: Doc) => StrLe(d.date, q.dateTo), p4);
    NarrowFilter(docs, p4, q.department != "", (d: Doc) => DepartmentMatch(d, q.department, fold), p5);
    NarrowFilter(docs, p5, q.status != "", (d: Doc) => d.status == Some(q.status), p6);
  }

  /** A document dated on both bounds is kept: the date bounds are inclusive. */
  lemma DateBoundsInclusive(docs: seq<Doc>, doc: Doc, fold: Fold)
    requires doc in docs
    ensures doc in PerformAdvancedSearch(docs, SearchData("", "", doc.date, doc.date, "", ""), fold)
  {
    var q := SearchData("", "", doc.date, doc.date, "", "");
    AdvancedSearchIsAnd(docs, q, fold);
    FilterMembers(docs, (d: Doc) => SearchMatch(d, q, fold));
  }

  /**
   * A document whose keyword occurs only in its notes is found by the
   * advanced search and missed by the table filter.
   */
  lemma NotesOnlyInAdvancedSearch(docs: seq<Doc>, doc: Doc, text: string, fold: Fold)
    requires doc in docs && text != ""
    requires !DM.KeywordMatch(doc, text, fold)
    requires Truthy(doc.notes) && Contains(Folded(doc.notes.value, fold), Folded(text, fold))
    ensures doc in PerformAdvancedSearch(docs, SearchData(text, "", "", "", "", ""), fold)
    ensures doc !in DM.FilterDocuments(docs, doc.direction, text, "", "", fold)
  {
    var q := SearchData(text, "", "", "", "", "");
    AdvancedSearchIsAnd(docs, q, fold);
    FilterMembers(docs, (d: Doc) => SearchMatch(d, q, fold));
    FilterDocumentsSpec(docs, doc.direction, text, "", "", fold);
  }

  // ---------------------------------------------------------------- reports

  /** `Number(s)` for the parts of a period: "" is 0, decimal digits their value, anything else NaN (`None`). */
  function JsNumber(s: string): (r: Option<int>)
    ensures r.Some? ==> r.value >= 0
    ensures s == "" ==> r == Some(0)
  {
    if AllDigits(s) then Some(DigitsValue(s)) else None
  }

  /** `Math.ceil(n / 3)`. */
  function CeilDiv3(n: int): (q: int)
    ensures 3 * q - 3 < n <= 3 * q
  {
    -((-n) / 3)
  }

  /** The months 1..12 fall in quarters 1..4, three months each. */
  lemma QuarterOfMonth(m: int)
    requires 1 <= m <= 12
    ensures 1 <= CeilDiv3(m) <= 4
    ensures CeilDiv3(m) == 1 <==> m <= 3
    ensures CeilDiv3(m) == 4 <==> 10 <= m
  {
  }

  /**
   * The period test of `calculateReportData` for one document, where `year`
   * and `month` are the parts of the period around its first '-' (`month`
   * is `undefined` when there is none). An unparsable date has NaN fields
   * and fails every comparison; an unknown report type keeps everything.
   */
  predicate InPeriod(doc: Doc, reportType: string, year: string, month: Option<string>, parse: DateParser)
  {
    var m := parse(doc.date);
    if reportType == "monthly" then
      m.Moment? && JsNumber(year) == Some(m.year) && month.Some? && JsNumber(month.value) == Some(m.month)
    else if reportType == "quarterly" then
      m.Moment? && JsNumber(year) == Some(m.year) && month.Some? && JsNumber(month.value).Some? &&
      CeilDiv3(JsNumber(month.value).value) == CeilDiv3(m.month)
    else if reportType == "yearly" then
      m.Moment? && JsNumber(year) == Some(m.year)
    else true
  }

  function PeriodDocuments(docs: seq<Doc>, reportType: string, period: string, parse: DateParser): (r: seq<Doc>)
    ensures multiset(r) <= multiset(docs)
  {
    if period == "" then docs
    else
      var parts := Split(period, '-');
      var month := if |parts| > 1 then Some(parts[1]) else None;
      FilterMultiset(docs, (d: Doc) => InPeriod(d, reportType, parts[0], month, parse));
      Filter(docs, (d: Doc) => InPeriod(d, reportType, parts[0], month, parse))
  }

  /** `calculateReportData`: the documents of the period and their counts. */
  function CalculateReportData(docs: seq<Doc>, reportType: string, period: string, parse: DateParser): (r: Reports.ReportData)
    ensures r.totalDocuments == |r.documents|
    ensures multiset(r.documents) <= multiset(docs)
    ensures period == "" ==> r.documents == docs
  {
    var filtered := PeriodDocuments(docs, reportType, period, parse);
    Reports.ReportData(
      |filtered|,
      Count(filtered, (d: Doc) => d.direction == "incoming"),
      Count(filtered, (d: Doc) => d.direction == "outgoing"),
      Tally.TallyOf(Map(filtered, (d: Doc) => Tally.KeyText(d.documentType))),
      Tally.TallyOf(Map(filtered, (d: Doc) => Tally.KeyText(d.status))),
      filtered)
  }

  /**
   * The counts by type and by status each add up to the number of documents,
   * count every key as often as it occurs, and hold each key once; incoming
   * and outgoing together are at most the total.
   */
  lemma ReportTotals(docs: seq<Doc>, reportType: string, period: string, parse: DateParser)
    ensures var r := CalculateReportData(docs, reportType, period, parse);
      Tally.Total(r.byType) == r.totalDocuments && Tally.Total(r.byStatus) == r.totalDocuments &&
      Tally.WellFormed(r.byType) && Tally.WellFormed(r.byStatus) &&
      (forall k :: Tally.CountOf(r.byType, k) == multiset(Map(r.documents, (d: Doc) => Tally.KeyText(d.documentType)))[k]) &&
      (forall k :: Tally.CountOf(r.byStatus, k) == multiset(Map(r.documents, (d: Doc) => Tally.KeyText(d.status)))[k]) &&
      r.incoming + r.outgoing <= r.totalDocuments
  {
    var r := CalculateReportData(docs, reportType, period, parse);
    Tally.TallyOfCounts(Map(r.documents, (d: Doc) => Tally.KeyText(d.documentType)));
    Tally.TallyOfCounts(Map(r.documents, (d: Doc) => Tally.KeyText(d.status)));
    CountDisjoint(r.documents, (d: Doc) => d.direction == "incoming", (d: Doc) => d.direction == "outgoing");
  }

  /** A report type other than monthly, quarterly or yearly keeps every document, whatever the period. */
  lemma OtherReportTypeKeepsAll(docs: seq<Doc>, reportType: string, period: string, parse: DateParser)
    requires reportType != "monthly" && reportType != "quarterly" && reportType != "yearly"
    ensures CalculateReportData(docs, reportType, period, parse).documents == docs
  {
    if period != "" {
      var parts := Split(period, '-');
      var month := if |parts| > 1 then Some(parts[1]) else None;
      FilterAll(docs, (d: Doc) => InPeriod(d, reportType, parts[0], month, parse));
    }
  }

  /**
   * The quarterly report keeps a dated document of the period's year exactly
   * when its month lies in the three months of the period month's quarter.
   */
  lemma QuarterlyWindow(doc: Doc, year: string, month: string, parse: DateParser)
    requires AllDigits(month)
    ensures var q := CeilDiv3(DigitsValue(month));
      var m := parse(doc.date);
      InPeriod(doc, "quarterly", year, Some(month), parse) <==>
        m.Moment? && JsNumber(year) == Some(m.year) && 3 * q - 2 <= m.month <= 3 * q
  {
  }

  // ---------------------------------------------------------------- CSV export

  const CsvHeader := "Số hiệu,Ngày,Trích yếu,Loại,Trạng thái,Cơ quan,Ghi chú\n"

  const TypeTexts: map<string, string> := map[
    "official" := "Công văn", "directive" := "Chỉ thị", "decision" := "Quyết định",
    "notification" := "Thông báo", "report" := "Báo cáo", "plan" := "Kế hoạch",
    "proposal" := "Đề xuất/Đề nghị", "guideline" := "Hướng dẫn", "circular" := "Thông tư",
    "certificate" := "Giấy chứng nhận", "contract" := "Hợp đồng", "agreement" := "Thỏa thuận",
    "minutes" := "Biên bản", "instruction" := "Chỉ đạo", "summary" := "Tờ trình",
    "memo" := "Bản ghi nhớ", "invitation" := "Thư mời", "other" := "Khác"]

  const StatusTexts: map<string, string> := map[
    "pending" := "Chờ xử lý", "processing" := "Đang xử lý", "completed" := "Hoàn thành",
    "overdue" := "Quá hạn", "draft" := "Dự thảo", "signed" := "Đã ký", "sent" := "Đã gửi"]

  /**
   * `table[key] || key` as a cell of `join`: the label of a known key, an
   * unknown key as it is, and `undefined` as the empty cell.
   */
  function LabelCell(table: map<string, string>, key: Option<string>): (r: string)
    ensures key.Some? && key.value !in table ==> r == key.value
    ensures key.None? ==> r == ""
  {
    if key.None? then "" else if key.value in table && table[key.value] != "" then table[key.value] else key.value
  }

  /** A field between quotes with every inner quote doubled. */
  function Quoted(s: string): (r: string)
    ensures |r| >= 2 && r[0] == '"' && r[|r| - 1] == '"'
  {
    "\"" + DoubleQuotes(s) + "\""
  }

  /** A quoted field reads back as the original text, and its inner quotes come in pairs. */
  lemma QuotedReadsBack(s: string)
    ensures var q := Quoted(s);
      UndoubleQuotes(q[1..|q| - 1]) == s && QuotesPaired(q[1..|q| - 1])
  {
    var q := Quoted(s);
    assert q[1..|q| - 1] == DoubleQuotes(s);
    UndoubleDouble(s);
    DoubleQuotesPaired(s);
  }

  /** The seven cells of a document's row. */
  function CsvFields(doc: Doc): (r: seq<string>)
    ensures |r| == 7
  {
    [doc.number, doc.date, Quoted(doc.summary), LabelCell(TypeTexts, doc.documentType),
     LabelCell(StatusTexts, doc.status), OrDefault(Or(doc.senderDepartment, doc.receiverDepartment), ""),
     Quoted(OrDefault(doc.notes, ""))]
  }

  function CsvRow(doc: Doc): string
  {
    Join(CsvFields(doc), ",")
  }

  /** The rows of a list of documents, one line each. */
  function CsvLines(docs: seq<Doc>): string
  {
    if docs == [] then "" else CsvLines(docs[..|docs| - 1]) + CsvRow(docs[|docs| - 1]) + "\n"
  }

  /** Appending the next row to a text that ends with the rows so far. */
  lemma CsvLinesSnoc(header: string, text: string, rows: seq<Doc>, i: nat)
    requires i < |rows| && text == header + CsvLines(rows[..i])
    ensures text + CsvRow(rows[i]) + "\n" == header + CsvLines(rows[..i + 1])
  {
    CsvLinesStep(rows, i);
    TextAssoc(header, CsvLines(rows[..i]), CsvRow(rows[i]));
  }

  lemma CsvLinesStep(rows: seq<Doc>, i: nat)
    requires i < |rows|
    ensures CsvLines(rows[..i + 1]) == CsvLines(rows[..i]) + CsvRow(rows[i]) + "\n"
  {
    assert rows[..i + 1][..i] == rows[..i];
  }

  lemma TextAssoc(header: string, lines: string, row: string)
    ensures (header + lines) + row + "\n" == header + (lines + row + "\n")
  {
  }

  /** The cells after the number hold no comma when the fields behind them hold none. */
  lemma LaterCellsCommaFree(doc: Doc)
    requires ',' !in doc.date && ',' !in doc.summary
    requires ',' !in LabelCell(TypeTexts, doc.documentType) && ',' !in LabelCell(StatusTexts, doc.status)
    requires doc.senderDepartment.Some? ==> ',' !in doc.senderDepartment.value
    requires doc.receiverDepartment.Some? ==> ',' !in doc.receiverDepartment.value
    requires doc.notes.Some? ==> ',' !in doc.notes.value
    ensures forall p :: p in CsvFields(doc)[1..] ==> ',' !in p
  {
    DoubleQuotesKeeps(doc.summary, ',');
    DoubleQuotesKeeps(OrDefault(doc.notes, ""), ',');
    var f := CsvFields(doc);
    assert ',' !in f[2] by {
      assert f[2] == "\"" + DoubleQuotes(doc.summary) + "\"";
    }
    assert ',' !in f[6] by {
      assert f[6] == "\"" + DoubleQuotes(OrDefault(doc.notes, "")) + "\"";
    }
  }

  /**
   * When no field holds a comma, splitting a row at the commas gives its
   * seven cells back.
   */
  lemma CsvRowSplits(doc: Doc)
    requires ',' !in doc.number && ',' !in doc.date && ',' !in doc.summary
    requires ',' !in LabelCell(TypeTexts, doc.documentType) && ',' !in LabelCell(StatusTexts, doc.status)
    requires doc.senderDepartment.Some? ==> ',' !in doc.senderDepartment.value
    requires doc.receiverDepartment.Some? ==> ',' !in doc.receiverDepartment.value
    requires doc.notes.Some? ==> ',' !in doc.notes.value
    ensures Split(CsvRow(doc), ',') == CsvFields(doc)
  {
    var f := CsvFields(doc);
    LaterCellsCommaFree(doc);
    assert f == [f[0]] + f[1..];
    SplitJoin(f, ',');
  }

  /**
   * The number is not quoted: a comma in it, with no comma elsewhere, makes
   * the row split into eight cells instead of seven.
   */
  lemma CommaInNumberAddsColumn(doc: Doc, a: string, b: string)
    requires doc.number == a + "," + b && ',' !in a && ',' !in b
    requires ',' !in doc.date && ',' !in doc.summary
    requires ',' !in LabelCell(TypeTexts, doc.documentType) && ',' !in LabelCell(StatusTexts, doc.status)
    requires doc.senderDepartment.Some? ==> ',' !in doc.senderDepartment.value
    requires doc.receiverDepartment.Some? ==> ',' !in doc.receiverDepartment.value
    requires doc.notes.Some? ==> ',' !in doc.notes.value
    ensures |Split(CsvRow(doc), ',')| == 8
  {
    var f := CsvFields(doc);
    var rest := f[1..];
    var g := [a] + ([b] + rest);
    LaterCellsCommaFree(doc);
    assert f == [doc.number] + rest;
    JoinCons(doc.number, rest, ",");
    JoinCons(b, rest, ",");
    JoinCons(a, [b] + rest, ",");
    assert CsvRow(doc) == Join(g, ",");
    assert forall p :: p in g ==> ',' !in p;
    SplitJoin(g, ',');
  }

  // ---------------------------------------------------------------- the manager

  /** `new Date(createdAt)` as a sort key: newest first, an unparsable or missing time last. */
  function CreatedRank(doc: Doc, parse: DateParser): Rank
  {
    var m := ParseOpt(doc.createdAt, parse);
    if m.Moment? then Finite(-m.ms) else Unranked
  }

  class DocumentManager {
    var documents: seq<Doc>
    var currentEditingDoc: Option<Doc>
    var currentDocumentType: string
    var notifications: seq<Notice>
    /** The number the bell badge shows, and whether the badge is displayed. */
    var badgeText: nat
    var badgeShown: bool

    /**
     * Loads the stored list (none is the empty list) and runs `init`:
     * the dashboard, which sorts the list newest first, and the notifications.
     */
    constructor (stored: Option<seq<Doc>>, now: int, parse: DateParser)
      ensures documents == SortByRank(if stored.Some? then stored.value else [], (d: Doc) => CreatedRank(d, parse))
      ensures currentEditingDoc == None && currentDocumentType == "incoming"
      ensures notifications == NoticesOf(documents, now, parse)
      ensures badgeText == |notifications| && badgeShown == (|notifications| > 0)
    {
      documents := if stored.Some? then stored.value else [];
      currentEditingDoc := None;
      currentDocumentType := "incoming";
      notifications := [];
      badgeText := 0;
      badgeShown := false;
      new;
      UpdateDashboard(now, parse);
      CheckNotifications(now, parse);
    }

    /** `calculateStatistics`: three filtered counts and one pass over the deadlines. */
    method CalculateStatistics(now: int, parse: DateParser) returns (stats: Stats)
      ensures stats == StatisticsOf(documents, now, parse)
    {
      var overdue := 0;
      var nearDeadline := 0;
      var i := 0;
      while i < |documents|
        invariant 0 <= i <= |documents|
        invariant overdue == Count(documents[..i], (d: Doc) => Overdue(d, now, parse))
        invariant nearDeadline == Count(documents[..i], (d: Doc) => NearDeadline(d, now, parse))
      {
        var doc := documents[i];
        if Truthy(doc.processingDeadline) {
          var deadline := parse(doc.processingDeadline.value);
          // an unparsable deadline gives NaN days, which fails both tests
          if deadline.Moment? {
            var days := DaysUntil(deadline.ms, now);
            if days < 0 && !IsCompleted(doc) {
              overdue := overdue + 1;
            } else if days <= 3 && days >= 0 && !IsCompleted(doc) {
              nearDeadline := nearDeadline + 1;
            }
          }
        }
        assert documents[..i + 1] == documents[..i] + [doc];
        CountSnoc(documents[..i], doc, (d: Doc) => Overdue(d, now, parse));
        CountSnoc(documents[..i], doc, (d: Doc) => NearDeadline(d, now, parse));
        i := i + 1;
      }
      assert documents[..i] == documents;
      stats := Stats(
        Count(documents, (d: Doc) => d.direction == "incoming"),
        Count(documents, (d: Doc) => d.direction == "outgoing"),
        Count(documents, (d: Doc) => d.status == Some("pending") || d.status == Some("processing")),
        overdue, nearDeadline);
    }

    /**
     * `updateDashboard`: the badge shows overdue plus near-deadline, and
     * `updateRecentDocuments` sorts the list itself, newest first, before
     * taking five of it.
     */
    method UpdateDashboard(now: int, parse: DateParser)
      modifies this
      ensures badgeText == StatisticsOf(old(documents), now, parse).overdue + StatisticsOf(old(documents), now, parse).nearDeadline
      ensures documents == SortByRank(old(documents), (d: Doc) => CreatedRank(d, parse))
      ensures currentEditingDoc == old(currentEditingDoc) && currentDocumentType == old(currentDocumentType)
      ensures notifications == old(notifications) && badgeShown == old(badgeShown)
    {
      var stats := CalculateStatistics(now, parse);
      badgeText := stats.overdue + stats.nearDeadline;
      documents := SortByRank(documents, (d: Doc) => CreatedRank(d, parse));
    }

    /** `checkNotifications`: one pass over the list, then the badge. */
    method CheckNotifications(now: int, parse: DateParser)
      modifies this
      ensures notifications == NoticesOf(documents, now, parse)
      ensures badgeText == |notifications| && badgeShown == (|notifications| > 0)
      ensures documents == old(documents)
      ensures currentEditingDoc == old(currentEditingDoc) && currentDocumentType == old(currentDocumentType)
    {
      var found: seq<Notice> := [];
      var i := 0;
      while i < |documents|
        invariant 0 <= i <= |documents|
        invariant found == NoticesOf(documents[..i], now, parse)
      {
        var doc := documents[i];
        if Truthy(doc.processingDeadline) && !IsCompleted(doc) {
          var deadline := parse(doc.processingDeadline.value);
          if deadline.Moment? {
            var days := DaysUntil(deadline.ms, now);
            if days < 0 {
              found := found + [Notice("overdue", doc, "Văn bản " + doc.number + " đã quá hạn " + NatToString(-days) + " ngày")];
            } else if days <= 3 {
              found := found + [Notice("upcoming", doc, "Văn bản " + doc.number + " sẽ đến hạn trong " + NatToString(days) + " ngày")];
            }
          }
        }
        assert documents[..i + 1][..i] == documents[..i];
        i := i + 1;
      }
      assert documents[..i] == documents;
      badgeText := |found|;
      badgeShown := |found| > 0;
      notifications := found;
    }

    /** `openDocumentModal`: records the direction and clears the editing state. */
    method OpenDocumentModal(direction: string)
      modifies this
      ensures currentDocumentType == direction && currentEditingDoc == None
      ensures documents == old(documents) && notifications == old(notifications)
      ensures badgeText == old(badgeText) && badgeShown == old(badgeShown)
    {
      currentDocumentType := direction;
      currentEditingDoc := None;
    }

    /**
     * `editDocument` as written: it records the document and then opens the
     * form, which clears the record again. Only the direction survives.
     */
    method EditDocument(docId: int)
      modifies this
      ensures documents == old(documents) && notifications == old(notifications)
      ensures badgeText == old(badgeText) && badgeShown == old(badgeShown)
      ensures FindById(documents, docId).None? ==>
        currentEditingDoc == old(currentEditingDoc) && currentDocumentType == old(currentDocumentType)
      ensures FindById(documents, docId).Some? ==>
        currentEditingDoc == None && currentDocumentType == FindById(documents, docId).value.direction
    {
      var doc := FindById(documents, docId);
      if doc.None? {
        return;
      }
      currentEditingDoc := doc;
      currentDocumentType := doc.value.direction;
      OpenDocumentModal(doc.value.direction);
    }

    /** `editDocument` with the form opened before the edited document is recorded. */
    method EditDocumentCorrected(docId: int)
      modifies this
      ensures documents == old(documents) && notifications == old(notifications)
      ensures badgeText == old(badgeText) && badgeShown == old(badgeShown)
      ensures FindById(documents, docId).None? ==>
        currentEditingDoc == old(currentEditingDoc) && currentDocumentType == old(currentDocumentType)
      ensures FindById(documents, docId).Some? ==>
        currentEditingDoc == FindById(documents, docId) &&
        currentDocumentType == FindById(documents, docId).value.direction
    {
      var doc := FindById(documents, docId);
      if doc.None? {
        return;
      }
      OpenDocumentModal(doc.value.direction);
      currentEditingDoc := doc;
    }

    /**
     * `saveDocument`: while editing, the document at the edited id's index is
     * replaced (nothing when the id is gone); otherwise the new document is
     * appended. The refresh it schedules is `UpdateDashboard` and
     * `CheckNotifications`, run later.
     */
    method SaveDocument(form: DM.FormData, chosen: Option<ChosenFile>, clock: SaveClock)
      modifies this
      ensures documents == DM.SaveLocally(old(documents), currentEditingDoc,
        BackupDocData(form, currentEditingDoc, currentDocumentType, chosen, clock))
      ensures currentEditingDoc == old(currentEditingDoc) && currentDocumentType == old(currentDocumentType)
      ensures notifications == old(notifications) && badgeText == old(badgeText) && badgeShown == old(badgeShown)
    {
      var docData := BackupDocData(form, currentEditingDoc, currentDocumentType, chosen, clock);
      if currentEditingDoc.Some? {
        var index := FindIndex(documents, currentEditingDoc.value.id);
        // `documents[-1] = docData` sets a property, not an element
        if index != -1 {
          documents := documents[index := docData];
        }
      } else {
        documents := documents + [docData];
      }
    }

    /**
     * `deleteDocument`: an unknown id or a refused confirmation changes
     * nothing; otherwise every document with the id is removed and the
     * dashboard (which re-sorts the list) and the notifications are refreshed.
     */
    method DeleteDocument(docId: int, confirmed: bool, now: int, parse: DateParser)
      modifies this
      ensures currentEditingDoc == old(currentEditingDoc) && currentDocumentType == old(currentDocumentType)
      ensures FindById(old(documents), docId).None? || !confirmed ==>
        documents == old(documents) && notifications == old(notifications) &&
        badgeText == old(badgeText) && badgeShown == old(badgeShown)
      ensures FindById(old(documents), docId).Some? && confirmed ==>
        documents == SortByRank(Filter(old(documents), (d: Doc) => d.id != docId), (d: Doc) => CreatedRank(d, parse)) &&
        notifications == NoticesOf(documents, now, parse) &&
        badgeText == |notifications| && badgeShown == (|notifications| > 0)
    {
      var doc := FindById(documents, docId);
      if doc.None? {
        return;
      }
      if !confirmed {
        return;
      }
      documents := Filter(documents, (d: Doc) => d.id != docId);
      UpdateDashboard(now, parse);
      CheckNotifications(now, parse);
    }

    /** `exportReport`: the CSV text of the report's documents with a byte order mark in front. */
    method ExportReport(reportType: string, reportPeriod: string, parse: DateParser) returns (content: string)
      ensures content == "\U{FEFF}" + (CsvHeader + CsvLines(CalculateReportData(documents, reportType, reportPeriod, parse).documents))
    {
      var reportData := CalculateReportData(documents, reportType, reportPeriod, parse);
      var csvContent := CsvContent(reportData.documents);
      content := "\U{FEFF}" + csvContent;
    }
  }

  /** The loop of `exportReport`: the header, then one line per document. */
  method CsvContent(rows: seq<Doc>) returns (csvContent: string)
    ensures csvContent == CsvHeader + CsvLines(rows)
  {
    csvContent := CsvHeader;
    var i := 0;
    while i < |rows|
      invariant 0 <= i <= |rows|
      invariant csvContent == CsvHeader + CsvLines(rows[..i])
    {
      var row := Join(CsvFields(rows[i]), ",");
      CsvLinesSnoc(CsvHeader, csvContent, rows, i);
      csvContent := csvContent + row + "\n";
      i := i + 1;
    }
    assert rows[..i] == rows;
  }

  /**
   * Refreshing the dashboard and then the notifications, as every refresh
   * does, leaves the badge with the bell's count, which is also the
   * dashboard's overdue plus near-deadline: the two writers of the badge agree.
   */
  method RefreshAgrees(m: DocumentManager, now: int, parse: DateParser)
    modifies m
    ensures var s := StatisticsOf(old(m.documents), now, parse);
      m.badgeText == s.overdue + s.nearDeadline && m.badgeText == |m.notifications|
  {
    m.UpdateDashboard(now, parse);
    m.CheckNotifications(now, parse);
    StatisticsOfPermutation(old(m.documents), m.documents, now, parse);
    NoticesMatchStatistics(m.documents, now, parse);
  }

  /**
   * Deleting keeps exactly the documents without the id, each as often as
   * before, newest first.
   */
  lemma DeleteKeepsOthers(docs: seq<Doc>, docId: int, parse: DateParser)
    ensures var r := SortByRank(Filter(docs, (d: Doc) => d.id != docId), (d: Doc) => CreatedRank(d, parse));
      (forall d :: d in r <==> d in docs && d.id != docId) &&
      multiset(r) <= multiset(docs) &&
      (forall i, j :: 0 <= i < j < |r| ==> RankLe(CreatedRank(r[i], parse), CreatedRank(r[j], parse)))
  {
    var f := Filter(docs, (d: Doc) => d.id != docId);
    var r := SortByRank(f, (d: Doc) => CreatedRank(d, parse));
    FilterMembers(docs, (d: Doc) => d.id != docId);
    FilterMultiset(docs, (d: Doc) => d.id != docId);
    forall d ensures d in r <==> d in f {
      assert d in r <==> d in multiset(r);
      assert d in f <==> d in multiset(f);
    }
  }

  /**
   * Editing then saving as written: the form is saved as a new document,
   * so the list grows by one and the edited document stays as it was.
   */
  method EditThenSave(m: DocumentManager, docId: int, form: DM.FormData, clock: SaveClock)
    modifies m
    requires FindById(m.documents, docId).Some?
    ensures |m.documents| == |old(m.documents)| + 1
    ensures m.documents[..|old(m.documents)|] == old(m.documents)
    ensures FindById(old(m.documents), docId).value in m.documents
    ensures m.documents[|old(m.documents)|].id == clock.nowMs
  {
    var doc := FindById(m.documents, docId).value;
    m.EditDocument(docId);
    m.SaveDocument(form, None, clock);
    assert m.documents[..|old(m.documents)|] == old(m.documents);
    assert doc in old(m.documents);
  }

  /**
   * Editing then saving with the corrected edit: the document is replaced
   * in place, so the length and the ids stay, and the saved version keeps
   * the edited id, status and creation time.
   */
  method EditThenSaveCorrected(m: DocumentManager, docId: int, form: DM.FormData, clock: SaveClock)
    modifies m
    requires FindById(m.documents, docId).Some?
    ensures |m.documents| == |old(m.documents)|
    ensures forall i :: 0 <= i < |m.documents| ==> m.documents[i].id == old(m.documents)[i].id
    ensures var doc := FindById(old(m.documents), docId).value;
      BackupDocData(form, Some(doc), doc.direction, None, clock) in m.documents
  {
    var doc := FindById(m.documents, docId).value;
    m.EditDocumentCorrected(docId);
    var data := BackupDocData(form, Some(doc), doc.direction, None, clock);
    assert doc.id == docId;
    assert doc.id in (set d | d in m.documents :: d.id);
    DM.EditKeepsIds(m.documents, doc, data);
    m.SaveDocument(form, None, clock);
  }
}
