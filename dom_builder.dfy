/**
 * The decisions the markup builders make before they write any HTML: whether
 * a document has a file and which fields name it, how urgent a task looks,
 * who is shown as responsible, and what a document preview lists. The HTML
 * itself is not modelled; each builder's result is the data it shows.
 */
module DomBuilder {
  import opened Common
  import opened Documents
  import Formatters
  import DocumentManager

  // ---------------------------------------------------------------- attachments

  /** The file a row or a preview links to. */
  datatype FileLink = FileLink(fileName: string, filePath: string, fileSize: Option<int>)

  /** The database columns name a file: `attachment_name && attachment_path`. */
  predicate HasDbAttachment(doc: Doc)
  {
    Truthy(doc.attachment_name) && Truthy(doc.attachment_path)
  }

  /** `doc.attachment && doc.attachment.name`. */
  predicate HasLegacyName(doc: Doc)
  {
    doc.attachment.Some? && Truthy(doc.attachment.value.name)
  }

  /** The test of the table row: the database columns, or a legacy name with a `filePath`, or with a `path`. */
  predicate RowHasAttachment(doc: Doc)
  {
    HasDbAttachment(doc)
    || (HasLegacyName(doc) && Truthy(doc.attachment.value.filePath))
    || (HasLegacyName(doc) && Truthy(doc.attachment.value.path))
  }

  /** The test of the preview: the database columns, or a legacy name with `filePath || path`. */
  predicate PreviewHasAttachment(doc: Doc)
  {
    HasDbAttachment(doc)
    || (HasLegacyName(doc) && (Truthy(doc.attachment.value.filePath) || Truthy(doc.attachment.value.path)))
  }

  /**
   * The file a document links to: the database columns when both are set,
   * otherwise the legacy object, whose `filePath` wins over its `path`.
   * Under the attachment test the legacy branch always has its name, so the
   * branch that leaves the fields undefined is never taken.
   */
  function ResolveAttachment(doc: Doc): (r: Option<FileLink>)
    ensures r.Some? <==> RowHasAttachment(doc)
    ensures r.Some? <==> PreviewHasAttachment(doc)
    ensures r.Some? ==> r.value.fileName != "" && r.value.filePath != ""
    ensures HasDbAttachment(doc) ==>
      r == Some(FileLink(doc.attachment_name.value, doc.attachment_path.value, doc.attachment_size))
    ensures r.Some? && !HasDbAttachment(doc) ==>
      var a := doc.attachment.value;
      r.value.fileName == a.name.value && r.value.fileSize == a.size &&
      r.value.filePath == (if Truthy(a.filePath) then a.filePath.value else a.path.value)
  {
    if !RowHasAttachment(doc) then None
    else if HasDbAttachment(doc) then
      Some(FileLink(doc.attachment_name.value, doc.attachment_path.value, doc.attachment_size))
    else
      var a := doc.attachment.value;
      Some(FileLink(a.name.value, Or(a.filePath, a.path).value, a.size))
  }

  /**
   * A legacy path is only a fallback: a document that also has the database
   * columns links to them, whatever its legacy object says.
   */
  lemma DbColumnsWin(doc: Doc, legacy: LegacyAttachment)
    requires HasDbAttachment(doc)
    ensures ResolveAttachment(doc.(attachment := Some(legacy))) == ResolveAttachment(doc)
    ensures ResolveAttachment(doc.(attachment := None)) == ResolveAttachment(doc)
  {
    var d1 := doc.(attachment := Some(legacy));
    assert HasDbAttachment(d1);
    var d2 := doc.(attachment := None);
    assert HasDbAttachment(d2);
  }

  // ---------------------------------------------------------------- tasks

  /** The class of a task's deadline; `None` is the NaN day count, which fails both comparisons. */
  function UrgencyClass(days: Option<int>): (c: string)
  {
    if days.Some? && days.value < 0 then "overdue"
    else if days.Some? && days.value <= 1 then "urgent"
    else "normal"
  }

  /** The deadline text: overdue by `|d|` days, today, or `d` days left (`NaN` for an unparsable date). */
  function UrgencyText(days: Option<int>): (t: string)
  {
    if days.Some? && days.value < 0 then "Quá hạn " + NatToString(-days.value) + " ngày"
    else if days == Some(0) then "Hôm nay"
    else "Còn " + (if days.Some? then IntToString(days.value) else "NaN") + " ngày"
  }

  /**
   * The three classes split the day counts: overdue exactly below zero,
   * urgent exactly on 0 and 1, normal above one and for NaN.
   */
  lemma UrgencyClasses(days: Option<int>)
    ensures UrgencyClass(days) == "overdue" <==> days.Some? && days.value < 0
    ensures UrgencyClass(days) == "urgent" <==> days.Some? && 0 <= days.value <= 1
    ensures UrgencyClass(days) == "normal" <==> days.None? || days.value > 1
  {
    assert "overdue"[0] != "urgent"[0] && "overdue"[0] != "normal"[0] && "urgent"[0] != "normal"[0];
  }

  /**
   * The text agrees with the class: it reads "overdue" exactly for the
   * overdue class, and "today" only for a task in the urgent class.
   */
  lemma UrgencyTextMatchesClass(days: Option<int>)
    ensures UrgencyText(days)[0] == 'Q' <==> UrgencyClass(days) == "overdue"
    ensures UrgencyText(days) == "Hôm nay" <==> days == Some(0)
    ensures UrgencyText(days) == "Hôm nay" ==> UrgencyClass(days) == "urgent"
  {
    var t := UrgencyText(days);
    if days.Some? && days.value < 0 {
      assert t[0] == 'Q';
      assert t != "Hôm nay" by { assert "Hôm nay"[0] == 'H'; }
    } else if days != Some(0) {
      assert t[0] == 'C';
      assert t != "Hôm nay" by { assert "Hôm nay"[0] == 'H'; }
    }
  }

  /** Different day counts give different texts: the text tells the day count. */
  lemma UrgencyTextInjective(a: int, b: int)
    ensures UrgencyText(Some(a)) == UrgencyText(Some(b)) ==> a == b
  {
    var ta, tb := UrgencyText(Some(a)), UrgencyText(Some(b));
    if ta == tb {
      UrgencyTextMatchesClass(Some(a));
      UrgencyTextMatchesClass(Some(b));
      if a < 0 {
        var sa, sb := NatToString(-a), NatToString(-b);
        assert ta == "Quá hạn " + sa + " ngày";
        assert tb == "Quá hạn " + sb + " ngày";
        assert |sa| == |sb|;
        assert sa == ta[8..|ta| - 5] && sb == tb[8..|tb| - 5];
        NatToStringInjective(-a, -b);
      } else if a != 0 {
        assert b != 0;
        var sa, sb := IntToString(a), IntToString(b);
        assert ta == "Còn " + sa + " ngày";
        assert tb == "Còn " + sb + " ngày";
        assert |sa| == |sb|;
        assert sa == ta[4..|ta| - 5] && sb == tb[4..|tb| - 5];
        IntToStringInjective(a, b);
      }
    }
  }

  /** The responsible party of a task: the lead, else the sending department, else "unknown". */
  function Responsible(task: DocumentManager.Task): (r: string)
    ensures r != ""
    ensures r == OrDefault(Or(task.doc.mainResponsible, task.doc.senderDepartment), "Không rõ")
  {
    var responsible := "Không rõ";
    if Truthy(task.doc.mainResponsible) then task.doc.mainResponsible.value
    else if Truthy(task.doc.senderDepartment) then task.doc.senderDepartment.value
    else responsible
  }

  /** The department on a dashboard card: sender, else receiver, else "N/A". */
  function CardDepartment(doc: Doc): (r: string)
    ensures r != ""
    ensures Truthy(doc.senderDepartment) ==> r == doc.senderDepartment.value
    ensures !Truthy(doc.senderDepartment) && Truthy(doc.receiverDepartment) ==> r == doc.receiverDepartment.value
    ensures !Truthy(doc.senderDepartment) && !Truthy(doc.receiverDepartment) ==> r == "N/A"
  {
    OrDefault(Or(doc.senderDepartment, doc.receiverDepartment), "N/A")
  }

  /** The department column of a table row: the sender for incoming documents, the receiver otherwise. */
  function RowDepartment(doc: Doc): (r: string)
    ensures IsIncoming(doc) ==> r == OrDefault(doc.sender_department, "")
    ensures !IsIncoming(doc) ==> r == OrDefault(doc.receiver_department, "")
  {
    if doc.direction == "incoming" then OrDefault(doc.sender_department, "")
    else OrDefault(doc.receiver_department, "")
  }

  // ---------------------------------------------------------------- preview

  /**
   * The tags a preview lists: none when the field is absent or empty; an
   * array as it is; a text split at each comma, every part trimmed and empty
   * parts kept.
   */
  function ShownTags(tags: Tags): (r: Option<seq<string>>)
    ensures r.Some? ==> |r.value| > 0
  {
    match tags
    case NoTags => None
    case TagList(items) => if |items| > 0 then Some(items) else None
    case TagText(text) => if |text| > 0 then Some(Map(Split(text, ','), Trim)) else None
  }

  /** Every tag listed from a text is trimmed. */
  lemma ShownTagsTrimmed(text: string)
    requires text != ""
    ensures ShownTags(TagText(text)).Some?
    ensures forall t :: t in ShownTags(TagText(text)).value ==> IsTrimmed(t)
  {
    var parts := Split(text, ',');
    forall t | t in Map(parts, Trim) ensures IsTrimmed(t) {
      var i :| 0 <= i < |parts| && Map(parts, Trim)[i] == t;
      assert t == Trim(parts[i]);
    }
  }

  /** Joining a non-empty list whose first part is non-empty gives a non-empty text. */
  lemma JoinNonEmpty(tags: seq<string>, sep: string)
    requires tags != [] && tags[0] != ""
    ensures Join(tags, sep) != ""
  {
    if |tags| > 1 {
      JoinCons(tags[0], tags[1..], sep);
      assert [tags[0]] + tags[1..] == tags;
    }
  }

  /** Trimming trimmed parts leaves them as they are. */
  lemma TrimAllTrimmed(tags: seq<string>)
    requires forall t :: t in tags ==> IsTrimmed(t)
    ensures Map(tags, Trim) == tags
  {
    forall i | 0 <= i < |tags| ensures Trim(tags[i]) == tags[i] {
      assert tags[i] in tags;
      TrimTrimmed(tags[i]);
    }
  }

  /**
   * The comma text the database stores previews as the array it was made
   * from, when no tag is empty, untrimmed or holds a comma.
   */
  lemma ShownTagsJoin(tags: seq<string>)
    requires tags != []
    requires forall t :: t in tags ==> t != "" && IsTrimmed(t) && ',' !in t
    ensures ShownTags(TagText(Join(tags, ","))) == ShownTags(TagList(tags)) == Some(tags)
  {
    var text := Join(tags, ",");
    SplitJoin(tags, ',');
    assert Split(text, ',') == tags;
    assert tags[0] in tags;
    JoinNonEmpty(tags, ",");
    TrimAllTrimmed(tags);
  }

  /** What a document preview shows, or the alert for a missing document. */
  datatype Preview =
    | NotFoundAlert
    | Preview(
        typeText: string,
        priorityText: string,
        statusText: string,
        parties: seq<string>,
        deadline: Option<string>,
        tags: Option<seq<string>>,
        notes: Option<string>,
        file: Option<FileLink>)

  /**
   * The parties of the right column: sender and lead for incoming documents,
   * receiver and signer for the others, each with its "not given" text.
   */
  function Parties(doc: Doc): (r: seq<string>)
    ensures |r| == 2 && r[0] != "" && r[1] != ""
  {
    if doc.direction == "incoming" then
      [OrDefault(doc.senderDepartment, "Không có thông tin"), OrDefault(doc.mainResponsible, "Chưa phân công")]
    else
      [OrDefault(doc.receiverDepartment, "Không có thông tin"), OrDefault(doc.signer, "Chưa ký")]
  }

  /**
   * The processing deadline cell, shown for incoming documents only: the
   * formatted deadline, or "Không có" when there is none.
   */
  function DeadlineCell(doc: Doc, parse: DateParser): Option<string>
  {
    if doc.direction != "incoming" then None
    else if Truthy(doc.processingDeadline) then Some(Formatters.FormatDate(doc.processingDeadline, parse))
    else Some("Không có")
  }

  /** `createDocumentPreview`. */
  function PreviewOf(doc: Option<Doc>, parse: DateParser): (p: Preview)
    ensures doc.None? <==> p == NotFoundAlert
  {
    if doc.None? then NotFoundAlert
    else
      var d := doc.value;
      Preview(
        Formatters.DocumentTypeText(Some(OrDefault(d.documentType, "other"))),
        Formatters.PriorityText(Some(OrDefault(d.priority, "normal"))),
        Formatters.StatusText(Some(OrDefault(d.status, "pending"))),
        Parties(d),
        DeadlineCell(d, parse),
        ShownTags(d.tags),
        if Truthy(d.notes) then d.notes else None,
        ResolveAttachment(d))
  }

  /**
   * A preview lists the file exactly when the row shows the paperclip, and
   * links the same file; a document without type, priority or status reads
   * as "other", "normal" and the unknown status ('pending' has no label).
   */
  lemma PreviewDefaults(d: Doc, parse: DateParser)
    ensures var p := PreviewOf(Some(d), parse);
      p.Preview? &&
      (p.file.Some? <==> RowHasAttachment(d)) && p.file == ResolveAttachment(d) &&
      (!Truthy(d.documentType) ==> p.typeText == "Khác") &&
      (!Truthy(d.priority) ==> p.priorityText == "Bình thường") &&
      (!Truthy(d.status) ==> p.statusText == Formatters.Unknown)
  {
    Formatters.PendingStatusUnknown();
    assert "other" in Formatters.DocumentTypeTexts;
    assert "normal" in Formatters.PriorityTexts;
  }

  /**
   * Only an incoming preview has a deadline cell. It reads "Không có" without
   * a deadline, shows an unparsable deadline as written, and otherwise shows
   * the deadline's day, month and year.
   */
  lemma PreviewDeadline(d: Doc, parse: DateParser)
    ensures var p := PreviewOf(Some(d), parse);
      (p.deadline.Some? <==> d.direction == "incoming") &&
      (d.direction == "incoming" && !Truthy(d.processingDeadline) ==> p.deadline == Some("Không có")) &&
      (d.direction == "incoming" && Truthy(d.processingDeadline) && parse(d.processingDeadline.value).Invalid? ==>
         p.deadline == d.processingDeadline) &&
      (d.direction == "incoming" && Truthy(d.processingDeadline) && parse(d.processingDeadline.value).Moment? ==>
         p.deadline == Some(Formatters.DatePart(parse(d.processingDeadline.value))))
  {
  }
}
