/**
 * js/formatters.js: dates rendered as `DD/MM/YYYY` and `DD/MM/YYYY HH:MM`,
 * and the Vietnamese labels and icons of statuses, priorities and document
 * types. A lookup `table[key] || fallback` yields the fallback for every key
 * the table does not list; a missing value is looked up as the key
 * "undefined", which no table lists.
 *
 * `new Date` is the `parse` parameter; `Invalid` is the date whose
 * `getTime()` is NaN. `formatFileSize` works in floating point and is left
 * out.
 */
module Formatters {
  import opened Common
  import opened Documents
  import Tally

  // ---------------------------------------------------------------- dates

  /** `DD/MM/YYYY`: day and month padded to two digits, the year as `String` renders it. */
  function DatePart(m: Moment): string
    requires m.Moment?
  {
    Pad2(IntToString(m.day)) + "/" + Pad2(IntToString(m.month)) + "/" + IntToString(m.year)
  }

  /** `HH:MM`, both padded to two digits. */
  function ClockPart(m: Moment): string
    requires m.Moment?
  {
    Pad2(IntToString(m.hour)) + ":" + Pad2(IntToString(m.minute))
  }

  /** `formatDate`: 'N/A' for a missing or empty value, the value itself when it does not parse. */
  function FormatDate(dateString: Option<string>, parse: DateParser): (r: string)
    ensures !Truthy(dateString) ==> r == "N/A"
    ensures Truthy(dateString) && parse(dateString.value).Invalid? ==> r == dateString.value
    ensures Truthy(dateString) && parse(dateString.value).Moment? ==> r == DatePart(parse(dateString.value))
  {
    if !Truthy(dateString) then "N/A"
    else
      var date := parse(dateString.value);
      if date.Invalid? then dateString.value
      else DatePart(date)
  }

  /** `formatDateTime`: the same guards; a parsed value is its date, a space and its time of day. */
  function FormatDateTime(dateTimeString: Option<string>, parse: DateParser): (r: string)
    ensures !Truthy(dateTimeString) ==> r == "N/A"
    ensures Truthy(dateTimeString) && parse(dateTimeString.value).Invalid? ==> r == dateTimeString.value
    ensures Truthy(dateTimeString) && parse(dateTimeString.value).Moment? ==>
      r == FormatDate(dateTimeString, parse) + " " + ClockPart(parse(dateTimeString.value))
  {
    if !Truthy(dateTimeString) then "N/A"
    else
      var date := parse(dateTimeString.value);
      if date.Invalid? then dateTimeString.value
      else
        Pad2(IntToString(date.day)) + "/" + Pad2(IntToString(date.month)) + "/" + IntToString(date.year) +
        " " + Pad2(IntToString(date.hour)) + ":" + Pad2(IntToString(date.minute))
  }

  /** A two-digit field reads back as its value. */
  lemma TwoDigits(n: int)
    requires 0 <= n < 100
    ensures var t := Pad2(IntToString(n)); |t| == 2 && AllDigits(t) && DigitsValue(t) == n
  {
    Pad2Value(n);
  }

  /**
   * A calendar date renders as `DD/MM/YYYY`: two digits of day, '/', two
   * digits of month, '/', then the digits of the year, each reading back
   * as the value it came from.
   */
  lemma DatePartReadsBack(m: Moment)
    requires m.Moment? && 1 <= m.day <= 31 && 1 <= m.month <= 12 && m.year >= 0
    ensures var r := DatePart(m);
      |r| == 6 + |IntToString(m.year)| && r[2] == '/' && r[5] == '/' &&
      AllDigits(r[..2]) && DigitsValue(r[..2]) == m.day &&
      AllDigits(r[3..5]) && DigitsValue(r[3..5]) == m.month &&
      AllDigits(r[6..]) && DigitsValue(r[6..]) == m.year
  {
    var r := DatePart(m);
    var dd := Pad2(IntToString(m.day));
    var mm := Pad2(IntToString(m.month));
    var yy := IntToString(m.year);
    TwoDigits(m.day);
    TwoDigits(m.month);
    NatToStringValue(m.year);
    assert r == dd + "/" + mm + "/" + yy;
    assert r[..2] == dd && r[3..5] == mm && r[6..] == yy;
  }

  /** A time of day renders as `HH:MM`, each field reading back as its value. */
  lemma ClockPartReadsBack(m: Moment)
    requires m.Moment? && 0 <= m.hour < 24 && 0 <= m.minute < 60
    ensures var c := ClockPart(m);
      |c| == 5 && c[2] == ':' &&
      AllDigits(c[..2]) && DigitsValue(c[..2]) == m.hour &&
      AllDigits(c[3..]) && DigitsValue(c[3..]) == m.minute
  {
    var hh := Pad2(IntToString(m.hour));
    var mi := Pad2(IntToString(m.minute));
    TwoDigits(m.hour);
    TwoDigits(m.minute);
    assert ClockPart(m)[..2] == hh && ClockPart(m)[3..] == mi;
  }

  // ---------------------------------------------------------------- lookup tables

  const Unknown := "Không xác định"

  const IconClasses: map<string, string> := map[
    "report" := "fas fa-file-alt",
    "letter" := "fas fa-file-invoice",
    "decision" := "fas fa-gavel",
    "announcement" := "fas fa-bullhorn",
    "invitation" := "fas fa-envelope",
    "default" := "fas fa-file"
  ]

  const StatusTexts: map<string, string> := map[
    "draft" := "Dự thảo",
    "processing" := "Đang xử lý",
    "completed" := "Hoàn thành",
    "overdue" := "Quá hạn",
    "sent" := "Đã gửi đi"
  ]

  const PriorityTexts: map<string, string> := map[
    "normal" := "Bình thường",
    "high" := "Cao",
    "medium" := "Trung bình",
    "low" := "Thấp",
    "urgent" := "Khẩn",
    "very-urgent" := "Hỏa tốc"
  ]

  const DocumentTypeTexts: map<string, string> := map[
    "report" := "Báo cáo",
    "letter" := "Công văn",
    "decision" := "Quyết định",
    "announcement" := "Thông báo",
    "invitation" := "Giấy mời",
    "official" := "Công văn",
    "directive" := "Chỉ thị",
    "notification" := "Thông báo",
    "plan" := "Kế hoạch",
    "proposal" := "Đề xuất/Đề nghị",
    "guideline" := "Hướng dẫn",
    "circular" := "Thông tư",
    "certificate" := "Giấy chứng nhận",
    "contract" := "Hợp đồng",
    "agreement" := "Thỏa thuận",
    "minutes" := "Biên bản",
    "instruction" := "Chỉ đạo",
    "summary" := "Tờ trình",
    "memo" := "Bản ghi nhớ",
    "other" := "Khác"
  ]

  /** `table[key] || fallback`, for a table whose labels are all non-empty. */
  function Lookup(table: map<string, string>, key: Option<string>, fallback: string): (r: string)
    ensures Tally.KeyText(key) !in table ==> r == fallback
    ensures Tally.KeyText(key) in table && table[Tally.KeyText(key)] != "" ==> r == table[Tally.KeyText(key)]
  {
    var k := Tally.KeyText(key);
    if k in table && table[k] != "" then table[k] else fallback
  }

  function DocumentTypeIcon(docType: Option<string>): string
  {
    Lookup(IconClasses, docType, IconClasses["default"])
  }

  function StatusText(status: Option<string>): string
  {
    Lookup(StatusTexts, status, Unknown)
  }

  function PriorityText(priority: Option<string>): string
  {
    Lookup(PriorityTexts, priority, Unknown)
  }

  function DocumentTypeText(docType: Option<string>): string
  {
    Lookup(DocumentTypeTexts, docType, "Khác")
  }

  /** A missing value is looked up as "undefined", which no table lists, so it gets the fallback. */
  lemma MissingKeyFallsBack()
    ensures DocumentTypeIcon(None) == "fas fa-file"
    ensures StatusText(None) == Unknown && PriorityText(None) == Unknown
    ensures DocumentTypeText(None) == "Khác"
  {
    assert "undefined" !in IconClasses && "undefined" !in StatusTexts;
    assert "undefined" !in PriorityTexts && "undefined" !in DocumentTypeTexts;
  }

  /**
   * 'pending', the status new documents get, is not in the status table and
   * reads as unknown; 'draft' has its label.
   */
  lemma PendingStatusUnknown()
    ensures StatusText(Some("pending")) == Unknown
    ensures StatusText(Some("draft")) == "Dự thảo"
  {
    assert "pending" !in StatusTexts;
  }

  /** Type labels are not one-to-one: 'letter' and 'official' share one, and an unknown type reads as 'other'. */
  lemma TypeTextsShared(unknown: string)
    requires unknown !in DocumentTypeTexts
    ensures DocumentTypeText(Some("letter")) == DocumentTypeText(Some("official")) == "Công văn"
    ensures DocumentTypeText(Some("announcement")) == DocumentTypeText(Some("notification")) == "Thông báo"
    ensures DocumentTypeText(Some(unknown)) == DocumentTypeText(Some("other")) == "Khác"
  {
  }

  /** Every type without an icon of its own, 'default' among them, gets the generic file icon. */
  lemma IconFallback(docType: string)
    requires docType !in {"report", "letter", "decision", "announcement", "invitation"}
    ensures DocumentTypeIcon(Some(docType)) == "fas fa-file"
  {
    assert docType !in IconClasses || docType == "default";
  }
}
