/**
 * js/reports.js: the report of the statistics page. `calculateReportData`
 * keeps the documents whose `date` lies in the chosen range and counts them
 * by direction, by document type and by status; the report type the page
 * passes in plays no part. `updateReportData` replaces the list the reports
 * are computed from.
 *
 * Date parsing (`new Date`) is the `parse` parameter; an unparsable date is
 * NaN and fails every comparison. Rendering the report as HTML, and the
 * percentages in it, are left out.
 */
module Reports {
  import opened Common
  import opened Documents
  import Tally

  /** The object `calculateReportData` returns; `byType`/`byStatus` are JavaScript counting objects. */
  datatype ReportData = ReportData(totalDocuments: nat, incoming: nat, outgoing: nat,
                                   byType: seq<Tally.Entry>, byStatus: seq<Tally.Entry>, documents: seq<Doc>)

  /** `doc.date && new Date(doc.date) >= from`. */
  predicate OnOrAfter(doc: Doc, from: Moment, parse: DateParser)
  {
    doc.date != "" && parse(doc.date).Moment? && from.Moment? && parse(doc.date).ms >= from.ms
  }

  /** `doc.date && new Date(doc.date) <= to`. */
  predicate OnOrBefore(doc: Doc, to: Moment, parse: DateParser)
  {
    doc.date != "" && parse(doc.date).Moment? && to.Moment? && parse(doc.date).ms <= to.ms
  }

  /** A document is in the range when it passes each bound that is given (a non-empty text). */
  predicate InRange(doc: Doc, dateFrom: string, dateTo: string, parse: DateParser)
  {
    (dateFrom != "" ==> OnOrAfter(doc, parse(dateFrom), parse)) &&
    (dateTo != "" ==> OnOrBefore(doc, parse(dateTo), parse))
  }

  /** The bucket of `byType`: `doc.documentType || 'other'`. */
  function TypeKey(doc: Doc): string
  {
    OrDefault(doc.documentType, "other")
  }

  /** The bucket of `byStatus`: `acc[doc.status]`, where a missing status is the key "undefined". */
  function StatusKey(doc: Doc): string
  {
    Tally.KeyText(doc.status)
  }

  /** `calculateReportData(type, dateFrom, dateTo)` over the documents `documents`. */
  function ReportOf(documents: seq<Doc>, reportType: string, dateFrom: string, dateTo: string,
                    parse: DateParser): (r: ReportData)
    ensures r.totalDocuments == |r.documents| <= |documents|
    ensures dateFrom == "" && dateTo == "" ==> r.documents == documents
  {
    var from := parse(dateFrom);
    var to := parse(dateTo);
    var afterFrom := Narrow(documents, dateFrom != "", (d: Doc) => OnOrAfter(d, from, parse));
    var filtered := Narrow(afterFrom, dateTo != "", (d: Doc) => OnOrBefore(d, to, parse));
    ReportData(
      |filtered|,
      Count(filtered, (d: Doc) => d.direction == "incoming"),
      Count(filtered, (d: Doc) => d.direction == "outgoing"),
      Tally.TallyOf(Map(filtered, TypeKey)),
      Tally.TallyOf(Map(filtered, StatusKey)),
      filtered)
  }

  /** The report's documents are the documents in the range, in their order. */
  lemma ReportRange(documents: seq<Doc>, reportType: string, dateFrom: string, dateTo: string, parse: DateParser)
    ensures ReportOf(documents, reportType, dateFrom, dateTo, parse).documents ==
      Filter(documents, (d: Doc) => InRange(d, dateFrom, dateTo, parse))
  {
    var from := parse(dateFrom);
    var to := parse(dateTo);
    var p0 := (d: Doc) => true;
    var p1 := (d: Doc) => dateFrom != "" ==> OnOrAfter(d, from, parse);
    FilterAll(documents, p0);
    NarrowFilter(documents, p0, dateFrom != "", (d: Doc) => OnOrAfter(d, from, parse), p1);
    NarrowFilter(documents, p1, dateTo != "", (d: Doc) => OnOrBefore(d, to, parse),
                 (d: Doc) => InRange(d, dateFrom, dateTo, parse));
  }

  /**
   * A document is reported exactly when it is in the range, and no more often
   * than it is listed; with a bound given, a document without a date, or with
   * one that does not parse, is never kept.
   */
  lemma ReportMembers(documents: seq<Doc>, reportType: string, dateFrom: string, dateTo: string, parse: DateParser)
    ensures var r := ReportOf(documents, reportType, dateFrom, dateTo, parse);
      (forall d :: d in r.documents <==> d in documents && InRange(d, dateFrom, dateTo, parse)) &&
      multiset(r.documents) <= multiset(documents)
    ensures dateFrom != "" || dateTo != "" ==>
      forall d :: d in ReportOf(documents, reportType, dateFrom, dateTo, parse).documents ==>
        d.date != "" && parse(d.date).Moment?
  {
    ReportRange(documents, reportType, dateFrom, dateTo, parse);
    FilterMembers(documents, (d: Doc) => InRange(d, dateFrom, dateTo, parse));
    FilterMultiset(documents, (d: Doc) => InRange(d, dateFrom, dateTo, parse));
  }

  /** A bound that does not parse is NaN: every comparison with it fails and the report is empty. */
  lemma UnparsableBoundKeepsNothing(documents: seq<Doc>, reportType: string, dateFrom: string, dateTo: string,
                                    parse: DateParser)
    requires (dateFrom != "" && parse(dateFrom).Invalid?) || (dateTo != "" && parse(dateTo).Invalid?)
    ensures ReportOf(documents, reportType, dateFrom, dateTo, parse).documents == []
    ensures ReportOf(documents, reportType, dateFrom, dateTo, parse).totalDocuments == 0
  {
    var r := ReportOf(documents, reportType, dateFrom, dateTo, parse);
    ReportMembers(documents, reportType, dateFrom, dateTo, parse);
    NothingInRange(dateFrom, dateTo, parse);
    assert forall d :: d !in r.documents;
  }

  lemma NothingInRange(dateFrom: string, dateTo: string, parse: DateParser)
    requires (dateFrom != "" && parse(dateFrom).Invalid?) || (dateTo != "" && parse(dateTo).Invalid?)
    ensures forall d :: !InRange(d, dateFrom, dateTo, parse)
  {
  }

  /**
   * The counts by type and by status each hold every key once and add up to
   * the number of documents; a key counts exactly the documents in its
   * bucket, so documents without a type count under 'other'. Incoming and
   * outgoing together are at most the total.
   */
  lemma ReportCounts(documents: seq<Doc>, reportType: string, dateFrom: string, dateTo: string, parse: DateParser)
    ensures var r := ReportOf(documents, reportType, dateFrom, dateTo, parse);
      Tally.WellFormed(r.byType) && Tally.Total(r.byType) == r.totalDocuments &&
      Tally.WellFormed(r.byStatus) && Tally.Total(r.byStatus) == r.totalDocuments &&
      (forall k :: Tally.CountOf(r.byType, k) == Count(r.documents, (d: Doc) => TypeKey(d) == k)) &&
      (forall k :: Tally.CountOf(r.byStatus, k) == Count(r.documents, (d: Doc) => StatusKey(d) == k)) &&
      r.incoming + r.outgoing <= r.totalDocuments
  {
    var r := ReportOf(documents, reportType, dateFrom, dateTo, parse);
    Tally.TallyOfCounts(Map(r.documents, TypeKey));
    Tally.TallyOfCounts(Map(r.documents, StatusKey));
    forall k ensures Tally.CountOf(r.byType, k) == Count(r.documents, (d: Doc) => TypeKey(d) == k) {
      CountMapped(r.documents, TypeKey, k, (d: Doc) => TypeKey(d) == k);
    }
    forall k ensures Tally.CountOf(r.byStatus, k) == Count(r.documents, (d: Doc) => StatusKey(d) == k) {
      CountMapped(r.documents, StatusKey, k, (d: Doc) => StatusKey(d) == k);
    }
    CountDisjoint(r.documents, (d: Doc) => d.direction == "incoming", (d: Doc) => d.direction == "outgoing");
  }

  /** The 'other' bucket holds the documents whose type is missing, empty or 'other' itself. */
  lemma OtherBucket(doc: Doc)
    ensures TypeKey(doc) == "other" <==> !Truthy(doc.documentType) || doc.documentType == Some("other")
  {
  }

  /** The report type is passed in but never read. */
  lemma ReportTypeIgnored(documents: seq<Doc>, t1: string, t2: string, dateFrom: string, dateTo: string,
                          parse: DateParser)
    ensures ReportOf(documents, t1, dateFrom, dateTo, parse) == ReportOf(documents, t2, dateFrom, dateTo, parse)
  {
  }

  /** `ReportManager`: the page's document list and the reports computed from it. */
  class ReportManager {
    var documents: seq<Doc>

    constructor(documents: seq<Doc>)
      ensures this.documents == documents
    {
      this.documents := documents;
    }

    /** Works on a copy of the list: the list itself is left as it was. */
    method CalculateReportData(reportType: string, dateFrom: string, dateTo: string, parse: DateParser)
      returns (r: ReportData)
      ensures r == ReportOf(documents, reportType, dateFrom, dateTo, parse)
    {
      var filteredDocs := documents;
      r := ReportOf(filteredDocs, reportType, dateFrom, dateTo, parse);
    }

    /** `updateReportData(documents)`: later reports are computed from the new list. */
    method UpdateReportData(documents: seq<Doc>)
      modifies this
      ensures this.documents == documents
    {
      this.documents := documents;
    }
  }
}
