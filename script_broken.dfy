/**
 * The single-file manager with a dashboard (`script-broken.js`). As
 * written, the `try` block of `bindEvents` is never closed by a `catch` or
 * `finally`, so the file is rejected by the JavaScript parser and none of it
 * runs; the model is of its methods as they read. Its figures come from the
 * stored status alone: "overdue" is the count of documents whose status
 * says so, whatever their deadline, and the bell badge shows that count.
 * Deletion and the seed documents are those of the reduced manager.
 */
module ScriptBroken {
  import opened Common
  import opened Documents
  import Deadlines
  import ScriptBackup
  import ScriptFixed

  datatype Stats = Stats(incoming: nat, outgoing: nat, pending: nat, overdue: nat)

  predicate IsOutgoing(d: Doc)
  {
    d.direction == "outgoing"
  }

  /** `['pending', 'processing'].includes(doc.status)`. */
  predicate StoredPending(d: Doc)
  {
    d.status == Some("pending") || d.status == Some("processing")
  }

  predicate MarkedOverdue(d: Doc)
  {
    d.status == Some("overdue")
  }

  /** `calculateStatistics`: four counts over the stored fields, with no deadline arithmetic. */
  function StoredStatistics(docs: seq<Doc>): (s: Stats)
    ensures s.incoming + s.outgoing <= |docs|
    ensures s.pending + s.overdue <= |docs|
  {
    CountDisjoint(docs, IsIncoming, IsOutgoing);
    CountDisjoint(docs, StoredPending, MarkedOverdue);
    Stats(Count(docs, IsIncoming), Count(docs, IsOutgoing), Count(docs, StoredPending), Count(docs, MarkedOverdue))
  }

  /** A count over two documents. */
  lemma CountPair(a: Doc, b: Doc, p: Doc -> bool)
    ensures Count([a, b], p) == (if p(a) then 1 else 0) + (if p(b) then 1 else 0)
  {
    assert [a, b][1..] == [b] && [b][1..] == [];
    assert Filter([b], p) == (if p(b) then [b] else []) + Filter([], p);
    assert Filter([a, b], p) == (if p(a) then [a] else []) + Filter([b], p);
  }

  /**
   * The stored status and the deadline disagree both ways: a pending
   * document two days past its deadline is overdue by the deadline count
   * of the full manager and not here, and a document marked overdue with no
   * deadline is overdue here and not there.
   */
  lemma StoredOverdueIgnoresDeadline()
    ensures var parse := (s: string) => Moment(0, 2025, 7, 1, 0, 0);
      var now := 2 * Deadlines.MsPerDay;
      var late := BlankDoc(1, "incoming", "CV001", "2025-07-01", "s").(
        status := Some("pending"), processingDeadline := Some("2025-07-01"));
      var marked := BlankDoc(2, "incoming", "CV002", "2025-07-01", "s").(status := Some("overdue"));
      StoredStatistics([late]).overdue == 0 && ScriptBackup.StatisticsOf([late], now, parse).overdue == 1 &&
      StoredStatistics([marked]).overdue == 1 && ScriptBackup.StatisticsOf([marked], now, parse).overdue == 0
  {
    var parse := (s: string) => Moment(0, 2025, 7, 1, 0, 0);
    var now := 2 * Deadlines.MsPerDay;
    var late := BlankDoc(1, "incoming", "CV001", "2025-07-01", "s").(
      status := Some("pending"), processingDeadline := Some("2025-07-01"));
    var marked := BlankDoc(2, "incoming", "CV002", "2025-07-01", "s").(status := Some("overdue"));
    Deadlines.DaysNegative(0, now);
    assert ScriptBackup.Overdue(late, now, parse);
    assert !ScriptBackup.Overdue(marked, now, parse);
    assert [late][1..] == [] && [marked][1..] == [];
  }

  class DocumentManager {
    var documents: seq<Doc>
    var currentEditingDoc: Option<Doc>
    var currentDocumentType: string
    /** The four dashboard counters and the bell badge, as last written. */
    var dashboard: Stats
    var badge: nat

    /**
     * Loads the stored list and runs `init`: the dashboard, the lists and
     * the badge (when the page has one); the charts are a stub.
     */
    constructor (stored: Option<seq<Doc>>, hasBadge: bool)
      ensures documents == (if stored.Some? then stored.value else [])
      ensures currentEditingDoc == None && currentDocumentType == "incoming"
      ensures dashboard == StoredStatistics(documents)
      ensures hasBadge ==> badge == dashboard.overdue
    {
      documents := if stored.Some? then stored.value else [];
      currentEditingDoc := None;
      currentDocumentType := "incoming";
      dashboard := Stats(0, 0, 0, 0);
      badge := 0;
      new;
      UpdateDashboard();
      CheckNotifications(hasBadge);
    }

    /** `updateDashboard`: writes the four counters. */
    method UpdateDashboard()
      modifies this
      ensures dashboard == StoredStatistics(documents)
      ensures documents == old(documents) && badge == old(badge)
      ensures currentEditingDoc == old(currentEditingDoc) && currentDocumentType == old(currentDocumentType)
    {
      dashboard := StoredStatistics(documents);
    }

    /** `checkNotifications`: the badge, when present, shows the documents whose status is 'overdue'. */
    method CheckNotifications(hasBadge: bool)
      modifies this
      ensures hasBadge ==> badge == Count(documents, MarkedOverdue)
      ensures !hasBadge ==> badge == old(badge)
      ensures documents == old(documents) && dashboard == old(dashboard)
      ensures currentEditingDoc == old(currentEditingDoc) && currentDocumentType == old(currentDocumentType)
    {
      if hasBadge {
        var overdueCount := |Filter(documents, MarkedOverdue)|;
        badge := overdueCount;
      }
    }

    /** `openDocumentModal`: records the direction and clears the edited document. */
    method OpenDocumentModal(direction: string)
      modifies this
      ensures currentDocumentType == direction && currentEditingDoc == None
      ensures documents == old(documents) && dashboard == old(dashboard) && badge == old(badge)
    {
      currentDocumentType := direction;
      currentEditingDoc := None;
    }

    /**
     * `editDocument`: an unknown id changes nothing; otherwise the document
     * is recorded and the form opened, which clears the record again.
     */
    method EditDocument(docId: int)
      modifies this
      ensures documents == old(documents) && dashboard == old(dashboard) && badge == old(badge)
      ensures FindById(documents, docId).None? ==>
        currentEditingDoc == old(currentEditingDoc) && currentDocumentType == old(currentDocumentType)
      ensures FindById(documents, docId).Some? ==>
        currentEditingDoc == None && currentDocumentType == FindById(documents, docId).value.direction
    {
      var doc := FindById(documents, docId);
      if doc.None? {
        return;
      }
      currentEditingDoc := doc;
      currentDocumentType := doc.value.direction;
      OpenDocumentModal(doc.value.direction);
    }

    /**
     * `deleteDocument`: an unknown id or a refused confirmation changes
     * nothing; otherwise the id's documents go and the counters and the
     * badge are written again, so they agree.
     */
    method DeleteDocument(docId: int, confirmed: bool, hasBadge: bool)
      modifies this
      ensures currentEditingDoc == old(currentEditingDoc) && currentDocumentType == old(currentDocumentType)
      ensures FindById(old(documents), docId).None? || !confirmed ==>
        documents == old(documents) && dashboard == old(dashboard) && badge == old(badge)
      ensures FindById(old(documents), docId).Some? && confirmed ==>
        documents == ScriptFixed.Without(old(documents), docId) &&
        dashboard == StoredStatistics(documents) && (hasBadge ==> badge == dashboard.overdue)
    {
      var doc := FindById(documents, docId);
      if doc.None? {
        return;
      }
      if !confirmed {
        return;
      }
      documents := ScriptFixed.Without(documents, docId);
      UpdateDashboard();
      CheckNotifications(hasBadge);
    }

    /** `addSampleData`: nothing when documents exist; otherwise the two seed documents, with no refresh. */
    method AddSampleData(clock: ScriptFixed.SeedClock)
      modifies this
      ensures currentEditingDoc == old(currentEditingDoc) && currentDocumentType == old(currentDocumentType)
      ensures dashboard == old(dashboard) && badge == old(badge)
      ensures |old(documents)| > 0 ==> documents == old(documents)
      ensures |old(documents)| == 0 ==> documents == ScriptFixed.SampleDocuments(clock)
    {
      if |documents| > 0 {
        return;
      }
      documents := ScriptFixed.SampleDocuments(clock);
    }
  }

  /**
   * The page start on an empty store: the seed documents are added after
   * `init` has drawn the dashboard, which still shows the counts of the
   * empty list.
   */
  method StartEmpty(clock: ScriptFixed.SeedClock) returns (m: DocumentManager)
    ensures fresh(m)
    ensures m.documents == ScriptFixed.SampleDocuments(clock)
    ensures m.dashboard == Stats(0, 0, 0, 0)
    ensures StoredStatistics(m.documents) == Stats(1, 1, 1, 0) != m.dashboard
  {
    m := new DocumentManager(None, true);
    if |m.documents| == 0 {
      m.AddSampleData(clock);
    }
    SampleStatistics(clock);
  }

  /** The seed documents count as one incoming, one outgoing, one pending and none overdue. */
  lemma SampleStatistics(clock: ScriptFixed.SeedClock)
    ensures StoredStatistics(ScriptFixed.SampleDocuments(clock)) == Stats(1, 1, 1, 0)
  {
    var docs := ScriptFixed.SampleDocuments(clock);
    assert docs == [docs[0], docs[1]];
    assert "draft"[0] != "pending"[0] && "draft"[0] != "processing"[0] && "draft"[0] != "overdue"[0];
    assert "pending"[0] != "overdue"[0] && "incoming"[0] != "outgoing"[0];
    CountPair(docs[0], docs[1], IsIncoming);
    CountPair(docs[0], docs[1], IsOutgoing);
    CountPair(docs[0], docs[1], StoredPending);
    CountPair(docs[0], docs[1], MarkedOverdue);
  }
}
