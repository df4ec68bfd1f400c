/**
 * js/document-manager.js: the dashboard statistics, the pending-task and
 * recent-document lists, the submit handler that saves a document and
 * updates the local list, the editing state and the table filter.
 *
 * The statistics use the same deadline tests as the notification bell with
 * an extra restriction to incoming documents; the pending-task list reads
 * the camelCase `processingDeadline` key that only locally created documents
 * carry (see `PendingTasks` and `PendingTasksCorrected`).
 */
module DocumentManager {
  import opened Common
  import opened Documents
  import opened Deadlines
  import opened Sorting
  import N = Notifications

  // ---------------------------------------------------------------- statistics

  /** `calculateStatistics`' overdue test: the bell's test restricted to incoming documents. */
  predicate IsOverdueIncoming(doc: Doc, now: int, parse: DateParser)
  {
    IsIncoming(doc) && N.IsOverdue(doc, now, parse)
  }

  /** `calculateStatistics`' near-deadline test: the bell's test restricted to incoming documents. */
  predicate IsNearIncoming(doc: Doc, now: int, parse: DateParser)
  {
    IsIncoming(doc) && N.IsNearDeadline(doc, now, parse)
  }

  datatype Stats = Stats(incoming: nat, outgoing: nat, draft: nat, overdue: nat, nearDeadline: nat)

  function CalculateStatistics(docs: seq<Doc>, now: int, parse: DateParser): Stats
  {
    Stats(
      Count(docs, (d: Doc) => d.direction == "incoming"),
      Count(docs, (d: Doc) => d.direction == "outgoing"),
      Count(docs, (d: Doc) => d.status == Some("draft")),
      Count(docs, (d: Doc) => IsOverdueIncoming(d, now, parse)),
      Count(docs, (d: Doc) => IsNearIncoming(d, now, parse)))
  }

  /**
   * Incoming and outgoing counts never exceed the list; the overdue and
   * near-deadline counts are among the incoming documents and never exceed
   * what the bell counts for the same list and time.
   */
  lemma StatisticsBounds(docs: seq<Doc>, now: int, parse: DateParser)
    ensures var s := CalculateStatistics(docs, now, parse);
      s.incoming + s.outgoing <= |docs| &&
      s.overdue <= s.incoming && s.nearDeadline <= s.incoming &&
      s.overdue <= |N.OverdueDocs(docs, now, parse)| &&
      s.nearDeadline <= |N.NearDeadlineDocs(docs, now, parse)|
  {
    CountDisjoint(docs, (d: Doc) => d.direction == "incoming", (d: Doc) => d.direction == "outgoing");
    CountMono(docs, (d: Doc) => IsOverdueIncoming(d, now, parse), (d: Doc) => d.direction == "incoming");
    CountMono(docs, (d: Doc) => IsNearIncoming(d, now, parse), (d: Doc) => d.direction == "incoming");
    CountMono(docs, (d: Doc) => IsOverdueIncoming(d, now, parse), (d: Doc) => N.IsOverdue(d, now, parse));
    CountMono(docs, (d: Doc) => IsNearIncoming(d, now, parse), (d: Doc) => N.IsNearDeadline(d, now, parse));
  }

  /**
   * The two dashboard tests overlap: an incoming document counts as both
   * overdue and near its deadline exactly when its deadline passed less than
   * a day ago.
   */
  lemma StatisticsOverlap(doc: Doc, now: int, parse: DateParser)
    ensures IsOverdueIncoming(doc, now, parse) && IsNearIncoming(doc, now, parse) <==>
      var m := N.PendingDeadline(doc, parse);
      IsIncoming(doc) && m.Moment? && 0 < now - m.ms < MsPerDay
  {
    N.OverdueAndNear(doc, now, parse);
  }

  /** The notification badge of the dashboard: `total > 0 ? total : '0'`. */
  function DashboardBadgeText(s: Stats): string
  {
    var total := s.overdue + s.nearDeadline;
    if total > 0 then NatToString(total) else "0"
  }

  /** The badge text is always the decimal numeral of overdue + near-deadline, zero included. */
  lemma DashboardBadgeValue(s: Stats)
    ensures AllDigits(DashboardBadgeText(s))
    ensures DashboardBadgeText(s) == NatToString(s.overdue + s.nearDeadline)
    ensures DigitsValue(DashboardBadgeText(s)) == s.overdue + s.nearDeadline
  {
    NatToStringValue(s.overdue + s.nearDeadline);
  }

  // ---------------------------------------------------------------- pending tasks

  /** `{ ...doc, daysUntilDeadline }`: `None` is the NaN day count of an unparsable date. */
  datatype Task = Task(doc: Doc, daysUntilDeadline: Option<int>)

  function TaskOf(doc: Doc, deadline: string, now: int, parse: DateParser): Task
  {
    var m := parse(deadline);
    Task(doc, if m.Moment? then Some(DaysUntil(m.ms, now)) else None)
  }

  /** Ascending by day count; a NaN count goes last. */
  function TaskRank(t: Task): Rank
  {
    if t.daysUntilDeadline.Some? then Finite(t.daysUntilDeadline.value) else Unranked
  }

  /** Whether a document has a deadline under `deadlineOf` and is not completed. */
  predicate HasPendingDeadline(doc: Doc, deadlineOf: Doc -> Option<string>)
  {
    Truthy(deadlineOf(doc)) && !IsCompleted(doc)
  }

  /** The candidate tasks: one per document with a pending deadline, in list order. */
  function PendingCandidates(docs: seq<Doc>, deadlineOf: Doc -> Option<string>, now: int, parse: DateParser): seq<Task>
  {
    var pending := Filter(docs, (d: Doc) => HasPendingDeadline(d, deadlineOf));
    Map(pending, (d: Doc) => if Truthy(deadlineOf(d)) then TaskOf(d, deadlineOf(d).value, now, parse) else Task(d, None))
  }

  /** `updatePendingTasks` with the deadline key as a parameter: sort by days, keep five. */
  function PendingTasksBy(docs: seq<Doc>, deadlineOf: Doc -> Option<string>, now: int, parse: DateParser): seq<Task>
  {
    Take(SortByRank(PendingCandidates(docs, deadlineOf, now, parse), TaskRank), 5)
  }

  /** The list as written: it reads the camelCase `processingDeadline` key. */
  function PendingTasks(docs: seq<Doc>, now: int, parse: DateParser): seq<Task>
  {
    PendingTasksBy(docs, (d: Doc) => d.processingDeadline, now, parse)
  }

  /**
   * The list as evidently intended: the `processing_deadline` column the
   * statistics read, falling back to the form's camelCase key.
   */
  function PendingTasksCorrected(docs: seq<Doc>, now: int, parse: DateParser): seq<Task>
  {
    PendingTasksBy(docs, (d: Doc) => Or(d.processing_deadline, d.processingDeadline), now, parse)
  }

  /**
   * At most five tasks, in ascending day order, each for a document of the
   * list with a pending deadline and its own day count, and no candidate left
   * out is due earlier than a task kept; there are five unless fewer
   * documents are pending.
   */
  lemma PendingTasksSpec(docs: seq<Doc>, deadlineOf: Doc -> Option<string>, now: int, parse: DateParser)
    ensures var r := PendingTasksBy(docs, deadlineOf, now, parse);
      var pending := Count(docs, (d: Doc) => HasPendingDeadline(d, deadlineOf));
      |r| == (if pending < 5 then pending else 5) &&
      (forall i, j :: 0 <= i < j < |r| ==> RankLe(TaskRank(r[i]), TaskRank(r[j]))) &&
      (forall t :: t in r ==>
        t.doc in docs && HasPendingDeadline(t.doc, deadlineOf) &&
        t == TaskOf(t.doc, deadlineOf(t.doc).value, now, parse))
    ensures var c := PendingCandidates(docs, deadlineOf, now, parse);
      var r := PendingTasksBy(docs, deadlineOf, now, parse);
      forall x, y :: x in r && y in multiset(c) - multiset(r) ==> RankLe(TaskRank(x), TaskRank(y))
  {
    var c := PendingCandidates(docs, deadlineOf, now, parse);
    var pending := Filter(docs, (d: Doc) => HasPendingDeadline(d, deadlineOf));
    FilterMembers(docs, (d: Doc) => HasPendingDeadline(d, deadlineOf));
    var sorted := SortByRank(c, TaskRank);
    var r := Take(sorted, 5);
    SmallestFirst(c, TaskRank, 5);
    forall t | t in r
      ensures t.doc in docs && HasPendingDeadline(t.doc, deadlineOf)
      ensures t == TaskOf(t.doc, deadlineOf(t.doc).value, now, parse)
    {
      assert t in multiset(r);
      assert t in multiset(c);
      var k :| 0 <= k < |c| && c[k] == t;
      assert pending[k] in pending;
    }
  }

  /**
   * Documents loaded from the API carry only the `processing_deadline`
   * column, so the list as written is always empty for them.
   */
  lemma PendingTasksMissApiRows(docs: seq<Doc>, now: int, parse: DateParser)
    requires forall d :: d in docs ==> d.processingDeadline.None?
    ensures PendingTasks(docs, now, parse) == []
  {
    FilterMembers(docs, (d: Doc) => HasPendingDeadline(d, (d: Doc) => d.processingDeadline));
  }

  /** The worked counterexample: one pending API row with a deadline, and no task listed for it. */
  lemma PendingTasksCounterexample(now: int, parse: DateParser)
    ensures var row := BlankDoc(1, "incoming", "CV001", "2025-07-01", "test")
      .(processing_deadline := Some("2025-07-03"), status := Some("processing"));
      PendingTasks([row], now, parse) == [] && |PendingTasksCorrected([row], now, parse)| == 1
  {
    var row := BlankDoc(1, "incoming", "CV001", "2025-07-01", "test")
      .(processing_deadline := Some("2025-07-03"), status := Some("processing"));
    PendingTasksMissApiRows([row], now, parse);
    PendingTasksSpec([row], (d: Doc) => Or(d.processing_deadline, d.processingDeadline), now, parse);
    assert Filter([row], (d: Doc) => HasPendingDeadline(d, (d: Doc) => Or(d.processing_deadline, d.processingDeadline))) == [row];
  }

  /**
   * The corrected list misses no pending document: it is empty only when no
   * document of the list has a pending deadline under either key.
   */
  lemma PendingTasksCorrectedNonEmpty(docs: seq<Doc>, now: int, parse: DateParser)
    ensures PendingTasksCorrected(docs, now, parse) == [] <==>
      forall d :: d in docs ==> !HasPendingDeadline(d, (d: Doc) => Or(d.processing_deadline, d.processingDeadline))
  {
    var deadlineOf := (d: Doc) => Or(d.processing_deadline, d.processingDeadline);
    PendingTasksSpec(docs, deadlineOf, now, parse);
    FilterMembers(docs, (d: Doc) => HasPendingDeadline(d, deadlineOf));
    var pending := Filter(docs, (d: Doc) => HasPendingDeadline(d, deadlineOf));
    if pending != [] {
      assert pending[0] in docs;
    }
  }

  // ---------------------------------------------------------------- recent documents

  /** Newest first by `createdAt || date`; an unparsable date goes last. */
  function RecencyRank(doc: Doc, parse: DateParser): Rank
  {
    var m := parse(OrDefault(doc.createdAt, doc.date));
    if m.Moment? then Finite(-m.ms) else Unranked
  }

  /** `[...documents].sort(newest first).slice(0, 5)`. */
  function RecentDocuments(docs: seq<Doc>, parse: DateParser): seq<Doc>
  {
    Take(SortByRank(docs, (d: Doc) => RecencyRank(d, parse)), 5)
  }

  /**
   * Five documents of the list (fewer if the list is shorter), newest first,
   * and no document left out is newer than one shown.
   */
  lemma RecentDocumentsSpec(docs: seq<Doc>, parse: DateParser)
    ensures var r := RecentDocuments(docs, parse);
      |r| == (if |docs| < 5 then |docs| else 5) &&
      multiset(r) <= multiset(docs) &&
      (forall i, j :: 0 <= i < j < |r| ==> RankLe(RecencyRank(r[i], parse), RecencyRank(r[j], parse))) &&
      (forall x, y :: x in r && y in multiset(docs) - multiset(r) ==>
        RankLe(RecencyRank(x, parse), RecencyRank(y, parse)))
  {
    SmallestFirst(docs, (d: Doc) => RecencyRank(d, parse), 5);
  }

  // ---------------------------------------------------------------- submit

  /** The values of the document form, as the inputs hold them. */
  datatype FormData = FormData(
    number: string,
    date: string,
    summary: string,
    documentType: string,
    priority: string,
    tags: string,
    notes: string,
    status: string,
    senderDepartment: string,
    mainResponsible: string,
    processingDeadline: string,
    receiverDepartment: string,
    signer: string)

  /** What the upload endpoint returned for the chosen file. */
  datatype UploadData = UploadData(name: string, path: string, size: int)

  /** The file input: empty, or a chosen file whose upload succeeded (`Some`) or threw (`None`). */
  datatype FileInput = NoFile | Chosen(result: Option<UploadData>)

  /**
   * The object `handleDocumentSubmit` sends and stores. `uploaded` is the
   * upload result, `None` when no file was chosen; `nowMs`/`nowIso` are
   * `Date.now()` and `new Date().toISOString()`.
   */
  function BuildDocData(form: FormData, editing: Option<Doc>, currentType: string, uploaded: Option<UploadData>,
                        nowMs: int, nowIso: string): Doc
  {
    var base := BlankDoc(if editing.Some? then editing.value.id else nowMs, currentType, form.number, form.date, form.summary)
      .(documentType := Some(form.documentType), priority := Some(form.priority),
        tags := TagList(ParseTags(form.tags)), notes := Some(form.notes), status := Some(form.status),
        createdAt := if editing.Some? then editing.value.createdAt else None,
        updatedAt := if editing.Some? then Some(nowIso) else None);
    var typed :=
      if currentType == "incoming" then
        base.(senderDepartment := Some(form.senderDepartment), mainResponsible := Some(form.mainResponsible),
              processingDeadline := Some(form.processingDeadline))
      else
        base.(receiverDepartment := Some(form.receiverDepartment), signer := Some(form.signer));
    if uploaded.Some? then
      typed.(attachment_name := Some(uploaded.value.name), attachment_path := Some(uploaded.value.path),
             attachment_size := Some(uploaded.value.size))
    else if editing.Some? && Truthy(editing.value.attachment_name) then
      typed.(attachment_name := editing.value.attachment_name, attachment_path := editing.value.attachment_path,
             attachment_size := editing.value.attachment_size)
    else typed
  }

  /**
   * The saved document keeps the edited id and creation time, takes the
   * fields of its direction from the form, drops the timestamps when new, and
   * carries the uploaded file, else the edited document's attachment.
   */
  lemma BuildDocDataSpec(form: FormData, editing: Option<Doc>, currentType: string, uploaded: Option<UploadData>,
                         nowMs: int, nowIso: string)
    ensures var r := BuildDocData(form, editing, currentType, uploaded, nowMs, nowIso);
      (r.id == (if editing.Some? then editing.value.id else nowMs)) &&
      (r.direction == currentType) &&
      (r.tags == TagList(ParseTags(form.tags))) &&
      (editing.None? ==> r.createdAt.None? && r.updatedAt.None?) &&
      (editing.Some? ==> r.createdAt == editing.value.createdAt && r.updatedAt == Some(nowIso)) &&
      (currentType == "incoming" ==> r.processingDeadline == Some(form.processingDeadline) && r.receiverDepartment.None? && r.signer.None?) &&
      (currentType != "incoming" ==> r.processingDeadline.None? && r.receiverDepartment == Some(form.receiverDepartment) && r.signer == Some(form.signer)) &&
      (uploaded.Some? ==> r.attachment_name == Some(uploaded.value.name) && r.attachment_path == Some(uploaded.value.path) && r.attachment_size == Some(uploaded.value.size)) &&
      (uploaded.None? && editing.Some? && Truthy(editing.value.attachment_name) ==> r.attachment_name == editing.value.attachment_name && r.attachment_path == editing.value.attachment_path && r.attachment_size == editing.value.attachment_size) &&
      (uploaded.None? && !(editing.Some? && Truthy(editing.value.attachment_name)) ==> r.attachment_name.None? && r.attachment_path.None? && r.attachment_size.None?)
  {
  }

  predicate DistinctIds(docs: seq<Doc>)
  {
    forall i, j :: 0 <= i < j < |docs| ==> docs[i].id != docs[j].id
  }

  /**
   * The local update after a successful save: an edit replaces the document
   * at the index of the edited id (nothing when it is gone), a new document
   * is appended.
   */
  function SaveLocally(docs: seq<Doc>, editing: Option<Doc>, data: Doc): (r: seq<Doc>)
    ensures editing.None? ==> r == docs + [data]
    ensures editing.Some? ==> |r| == |docs|
    ensures editing.Some? ==> forall i :: 0 <= i < |docs| ==>
      r[i] == (if docs[i].id == editing.value.id && FindIndex(docs, editing.value.id) == i then data else docs[i])
  {
    if editing.Some? then
      var i := FindIndex(docs, editing.value.id);
      if i != -1 then docs[i := data] else docs
    else docs + [data]
  }

  /**
   * Saving keeps the ids distinct when the saved document keeps the edited
   * id, or, when new, has an id not yet in the list.
   */
  lemma SaveLocallyDistinct(docs: seq<Doc>, editing: Option<Doc>, data: Doc)
    requires DistinctIds(docs)
    requires editing.Some? ==> data.id == editing.value.id
    requires editing.None? ==> forall d :: d in docs ==> d.id != data.id
    ensures DistinctIds(SaveLocally(docs, editing, data))
    ensures forall d :: d in SaveLocally(docs, editing, data) ==> d == data || d in docs
  {
    var r := SaveLocally(docs, editing, data);
    if editing.None? {
      forall i, j | 0 <= i < j < |r| ensures r[i].id != r[j].id {
        if j == |docs| {
          assert r[i] == docs[i];
          assert docs[i] in docs;
        }
      }
    } else {
      forall i, j | 0 <= i < j < |r| ensures r[i].id != r[j].id {
        var k := FindIndex(docs, editing.value.id);
        if i == k {
          assert r[j] == docs[j];
        } else if j == k {
          assert r[i] == docs[i];
        }
      }
    }
    forall d | d in r ensures d == data || d in docs {
      var i :| 0 <= i < |r| && r[i] == d;
      if i < |docs| && r[i] != data {
        assert r[i] == docs[i];
      }
    }
  }

  /** Editing a document of the list saves it in place: the same length and the same ids in the same order. */
  lemma EditKeepsIds(docs: seq<Doc>, editing: Doc, data: Doc)
    requires data.id == editing.id
    ensures |SaveLocally(docs, Some(editing), data)| == |docs|
    ensures forall i :: 0 <= i < |docs| ==> SaveLocally(docs, Some(editing), data)[i].id == docs[i].id
    ensures editing.id in (set d | d in docs :: d.id) ==> data in SaveLocally(docs, Some(editing), data)
  {
    var i := FindIndex(docs, editing.id);
    if editing.id in (set d | d in docs :: d.id) {
      var d :| d in docs && d.id == editing.id;
      var j :| 0 <= j < |docs| && docs[j] == d;
      assert i >= 0;
      assert SaveLocally(docs, Some(editing), data)[i] == data;
    }
  }

  // ---------------------------------------------------------------- filter

  /** The keyword test of `filterDocuments`: number, summary, sender or receiver, after folding. */
  predicate KeywordMatch(doc: Doc, term: string, fold: Fold)
  {
    var t := Folded(term, fold);
    Contains(Folded(doc.number, fold), t) ||
    Contains(Folded(doc.summary, fold), t) ||
    (Truthy(doc.senderDepartment) && Contains(Folded(doc.senderDepartment.value, fold), t)) ||
    (Truthy(doc.receiverDepartment) && Contains(Folded(doc.receiverDepartment.value, fold), t))
  }

  /** `filterDocuments`: the list narrowed step by step, as the table shows it. */
  function FilterDocuments(docs: seq<Doc>, direction: string, searchTerm: string, filterType: string,
                           filterValue: string, fold: Fold): seq<Doc>
  {
    var byDirection := Filter(docs, (d: Doc) => d.direction == direction);
    var bySearch := if searchTerm != "" then Filter(byDirection, (d: Doc) => KeywordMatch(d, searchTerm, fold)) else byDirection;
    var byStatus := if filterType == "status" && filterValue != "" then Filter(bySearch, (d: Doc) => d.status == Some(filterValue)) else bySearch;
    if filterType == "type" && filterValue != "" then Filter(byStatus, (d: Doc) => d.documentType == Some(filterValue)) else byStatus
  }

  /** The conjunction of the active criteria. */
  predicate FilterMatch(doc: Doc, direction: string, searchTerm: string, filterType: string, filterValue: string, fold: Fold)
  {
    doc.direction == direction &&
    (searchTerm != "" ==> KeywordMatch(doc, searchTerm, fold)) &&
    (filterType == "status" && filterValue != "" ==> doc.status == Some(filterValue)) &&
    (filterType == "type" && filterValue != "" ==> doc.documentType == Some(filterValue))
  }

  /** The table shows, in list order, exactly the documents meeting every active criterion. */
  lemma FilterDocumentsIsAnd(docs: seq<Doc>, direction: string, searchTerm: string, filterType: string,
                             filterValue: string, fold: Fold)
    ensures FilterDocuments(docs, direction, searchTerm, filterType, filterValue, fold) ==
      Filter(docs, (d: Doc) => FilterMatch(d, direction, searchTerm, filterType, filterValue, fold))
  {
    var p1 := (d: Doc) => d.direction == direction;
    var p2 := (d: Doc) => d.direction == direction && (searchTerm != "" ==> KeywordMatch(d, searchTerm, fold));
    var p3 := (d: Doc) => p2(d) && (filterType == "status" && filterValue != "" ==> d.status == Some(filterValue));
    var p4 := (d: Doc) => FilterMatch(d, direction, searchTerm, filterType, filterValue, fold);
    var a := Filter(docs, (d: Doc) => d.direction == direction);
    var b := if searchTerm != "" then Filter(a, (d: Doc) => KeywordMatch(d, searchTerm, fold)) else a;
    var c := if filterType == "status" && filterValue != "" then Filter(b, (d: Doc) => d.status == Some(filterValue)) else b;
    var e := if filterType == "type" && filterValue != "" then Filter(c, (d: Doc) => d.documentType == Some(filterValue)) else c;
    FilterExt(docs, (d: Doc) => d.direction == direction, p1);
    if searchTerm != "" {
      FilterTwice(docs, (d: Doc) => d.direction == direction, (d: Doc) => KeywordMatch(d, searchTerm, fold), p2);
    } else {
      FilterExt(docs, p1, p2);
    }
    assert b == Filter(docs, p2);
    if filterType == "status" && filterValue != "" {
      FilterTwice(docs, p2, (d: Doc) => d.status == Some(filterValue), p3);
    } else {
      FilterExt(docs, p2, p3);
    }
    assert c == Filter(docs, p3);
    if filterType == "type" && filterValue != "" {
      FilterTwice(docs, p3, (d: Doc) => d.documentType == Some(filterValue), p4);
    } else {
      FilterExt(docs, p3, p4);
    }
    assert e == Filter(docs, p4);
  }

  // ---------------------------------------------------------------- the manager

  class DocumentManager {
    var documents: seq<Doc>
    var currentEditingDoc: Option<Doc>
    /** The `currentDocumentType` field; its initial `null` is the empty string. */
    var currentDocumentType: string

    constructor ()
      ensures documents == [] && currentEditingDoc == None && currentDocumentType == ""
    {
      documents := [];
      currentEditingDoc := None;
      currentDocumentType := "";
    }

    /**
     * Opens the form for a direction. Without the modal elements it does
     * nothing; otherwise it records the direction. The editing state is left
     * as it is.
     */
    method OpenDocumentModal(direction: string, elementsPresent: bool)
      modifies this
      ensures documents == old(documents) && currentEditingDoc == old(currentEditingDoc)
      ensures currentDocumentType == (if elementsPresent then direction else old(currentDocumentType))
    {
      if !elementsPresent {
        return;
      }
      currentDocumentType := direction;
    }

    /**
     * Starts editing the document with id `docId`: an unknown id changes
     * nothing; a known one becomes the edited document and fixes the
     * direction, and the editing state survives opening the form.
     */
    method EditDocument(docId: int, elementsPresent: bool)
      modifies this
      ensures documents == old(documents)
      ensures FindById(documents, docId).None? ==>
        currentEditingDoc == old(currentEditingDoc) && currentDocumentType == old(currentDocumentType)
      ensures FindById(documents, docId).Some? ==>
        currentEditingDoc == FindById(documents, docId) &&
        currentDocumentType == FindById(documents, docId).value.direction
    {
      var doc := FindById(documents, docId);
      if doc.None? {
        return;
      }
      currentEditingDoc := doc;
      currentDocumentType := doc.value.direction;
      OpenDocumentModal(doc.value.direction, elementsPresent);
    }

    /**
     * Submits the form. A failed upload or a failed save changes nothing
     * (the editing state included); otherwise the document built from the
     * form is saved locally and the editing state is cleared.
     */
    method HandleDocumentSubmit(form: FormData, file: FileInput, saveSucceeds: bool, nowMs: int, nowIso: string)
      modifies this
      ensures currentDocumentType == old(currentDocumentType)
      ensures file == Chosen(None) || !saveSucceeds ==>
        documents == old(documents) && currentEditingDoc == old(currentEditingDoc)
      ensures file != Chosen(None) && saveSucceeds ==>
        var uploaded := if file.Chosen? then file.result else None;
        documents == SaveLocally(old(documents), old(currentEditingDoc),
          BuildDocData(form, old(currentEditingDoc), currentDocumentType, uploaded, nowMs, nowIso)) &&
        currentEditingDoc == None
    {
      if file == Chosen(None) {
        return;
      }
      var uploaded := if file.Chosen? then file.result else None;
      var docData := BuildDocData(form, currentEditingDoc, currentDocumentType, uploaded, nowMs, nowIso);
      if !saveSucceeds {
        return;
      }
      if currentEditingDoc.Some? {
        var index := FindIndex(documents, currentEditingDoc.value.id);
        if index != -1 {
          documents := documents[index := docData];
        }
      } else {
        documents := documents + [docData];
      }
      currentEditingDoc := None;
    }
  }

  /**
   * Editing then submitting replaces the edited document in place: the list
   * keeps its length and ids, and holds the new version.
   */
  method EditThenSubmit(m: DocumentManager, docId: int, form: FormData, nowMs: int, nowIso: string)
    modifies m
    requires FindById(m.documents, docId).Some?
    ensures |m.documents| == |old(m.documents)|
    ensures forall i :: 0 <= i < |m.documents| ==> m.documents[i].id == old(m.documents)[i].id
    ensures m.currentEditingDoc.None?
  {
    m.EditDocument(docId, true);
    var editing := m.currentEditingDoc.value;
    var data := BuildDocData(form, Some(editing), m.currentDocumentType, None, nowMs, nowIso);
    EditKeepsIds(m.documents, editing, data);
    m.HandleDocumentSubmit(form, NoFile, true, nowMs, nowIso);
  }
}
