/**
 * The reduced single-file manager (`script-fixed.js`): documents kept in
 * browser storage, a form whose state is the edited document and the
 * direction, deletion by id, and two seed documents for an empty store. Its
 * dashboard, lists and notifications are empty stubs, so no operation here
 * refreshes anything.
 */
module ScriptFixed {
  import opened Common
  import opened Documents
  import DM = DocumentManager

  /**
   * The clock readings `addSampleData` makes, in the order it makes them:
   * `Date.now()` and two `new Date().toISOString()` texts for the first
   * document, then the same three for the second. Each is a reading of its
   * own; a clock that does not run backwards gives `firstMs <= secondMs`.
   */
  datatype SeedClock = SeedClock(firstMs: int, firstCreated: string, firstUpdated: string,
                                 secondMs: int, secondCreated: string, secondUpdated: string)

  /**
   * The two documents `addSampleData` seeds: one incoming and pending, one
   * outgoing draft, each stamped with its own readings; their ids differ
   * whenever the clock has not run backwards between the two `Date.now()` calls.
   */
  function SampleDocuments(clock: SeedClock): (r: seq<Doc>)
    ensures |r| == 2
    ensures IsIncoming(r[0]) && r[0].status == Some("pending")
    ensures r[1].direction == "outgoing" && r[1].status == Some("draft")
    ensures r[0].id == clock.firstMs && r[1].id == clock.secondMs + 1
    ensures clock.firstMs <= clock.secondMs ==> r[0].id < r[1].id
    ensures r[0].createdAt == Some(clock.firstCreated) && r[0].updatedAt == Some(clock.firstUpdated)
    ensures r[1].createdAt == Some(clock.secondCreated) && r[1].updatedAt == Some(clock.secondUpdated)
  {
    var incoming := Doc(clock.firstMs, "incoming", "CV001/2025", "2025-07-01",
      "Công văn về việc triển khai hệ thống quản lý văn bản",
      Some("official"), None, Some("normal"), Some("pending"),
      Some("Phòng Hành chính"), None, None, None, None, None,
      Some("2025-07-15"), None, NoTags, None,
      None, None, None, None, Some(clock.firstCreated), Some(clock.firstUpdated), None);
    var outgoing := Doc(clock.secondMs + 1, "outgoing", "CV002/2025", "2025-07-02",
      "Thông báo về lịch họp định kỳ tháng 7",
      Some("notification"), None, Some("normal"), Some("draft"),
      None, Some("Tất cả phòng ban"), None, None, None, Some("Giám đốc"),
      None, None, NoTags, None,
      None, None, None, None, Some(clock.secondCreated), Some(clock.secondUpdated), None);
    [incoming, outgoing]
  }

  /** `documents.filter(d => d.id !== docId)`. */
  function Without(docs: seq<Doc>, docId: int): seq<Doc>
  {
    Filter(docs, (d: Doc) => d.id != docId)
  }

  /**
   * Deleting keeps exactly the documents with another id, each at most as
   * often as before; it shortens the list when the id is there and leaves it
   * as it is when not.
   */
  lemma DeleteRemovesExactly(docs: seq<Doc>, docId: int)
    ensures forall d :: d in Without(docs, docId) <==> d in docs && d.id != docId
    ensures multiset(Without(docs, docId)) <= multiset(docs)
    ensures FindById(docs, docId).None? ==> Without(docs, docId) == docs
    ensures FindById(docs, docId).Some? ==> |Without(docs, docId)| < |docs|
  {
    FilterMembers(docs, (d: Doc) => d.id != docId);
    FilterMultiset(docs, (d: Doc) => d.id != docId);
    var found := FindById(docs, docId);
    if found.None? {
      FilterAll(docs, (d: Doc) => d.id != docId);
    } else {
      FilterDrops(docs, (d: Doc) => d.id != docId, found.value);
    }
  }

  class DocumentManager {
    var documents: seq<Doc>
    var currentEditingDoc: Option<Doc>
    var currentDocumentType: string

    /** Loads the stored list (none is the empty list); `init` calls only stubs and event wiring. */
    constructor (stored: Option<seq<Doc>>)
      ensures documents == (if stored.Some? then stored.value else [])
      ensures currentEditingDoc == None && currentDocumentType == "incoming"
    {
      documents := if stored.Some? then stored.value else [];
      currentEditingDoc := None;
      currentDocumentType := "incoming";
    }

    /** `openDocumentModal`: records the direction and clears the edited document. */
    method OpenDocumentModal(direction: string)
      modifies this
      ensures currentDocumentType == direction && currentEditingDoc == None
      ensures documents == old(documents)
    {
      currentDocumentType := direction;
      currentEditingDoc := None;
    }

    /** `previewDocument`: a missing document changes nothing; otherwise it becomes the current one. */
    method PreviewDocument(doc: Option<Doc>)
      modifies this
      ensures documents == old(documents) && currentDocumentType == old(currentDocumentType)
      ensures currentEditingDoc == if doc.Some? then doc else old(currentEditingDoc)
    {
      if doc.None? {
        return;
      }
      currentEditingDoc := doc;
    }

    /**
     * `editDocument`: an unknown id changes nothing; otherwise the document
     * is recorded and the form opened, which clears the record again, so
     * only the direction survives.
     */
    method EditDocument(docId: int)
      modifies this
      ensures documents == old(documents)
      ensures FindById(documents, docId).None? ==>
        currentEditingDoc == old(currentEditingDoc) && currentDocumentType == old(currentDocumentType)
      ensures FindById(documents, docId).Some? ==>
        currentEditingDoc == None && currentDocumentType == FindById(documents, docId).value.direction
    {
      var doc := FindById(documents, docId);
      if doc.None? {
        return;
      }
      currentEditingDoc := doc;
      currentDocumentType := doc.value.direction;
      OpenDocumentModal(doc.value.direction);
    }

    /**
     * `editCurrentDocument`: edits the current document by its id; with no
     * current document reading its id throws, and nothing changes.
     */
    method EditCurrentDocument() returns (thrown: bool)
      modifies this
      ensures thrown <==> old(currentEditingDoc).None?
      ensures documents == old(documents)
      ensures thrown ==> currentEditingDoc == old(currentEditingDoc) && currentDocumentType == old(currentDocumentType)
      ensures !thrown && FindById(documents, old(currentEditingDoc).value.id).Some? ==>
        currentEditingDoc == None &&
        currentDocumentType == FindById(documents, old(currentEditingDoc).value.id).value.direction
      ensures !thrown && FindById(documents, old(currentEditingDoc).value.id).None? ==>
        currentEditingDoc == old(currentEditingDoc) && currentDocumentType == old(currentDocumentType)
    {
      if currentEditingDoc.None? {
        return true;
      }
      EditDocument(currentEditingDoc.value.id);
      return false;
    }

    /**
     * `deleteCurrentDocument`: deletes the current document by its id; with
     * no current document reading its id throws, and nothing changes. The
     * current document stays recorded even when it is deleted.
     */
    method DeleteCurrentDocument(confirmed: bool) returns (thrown: bool)
      modifies this
      ensures thrown <==> old(currentEditingDoc).None?
      ensures currentEditingDoc == old(currentEditingDoc) && currentDocumentType == old(currentDocumentType)
      ensures thrown ==> documents == old(documents)
      ensures !thrown ==> documents == (if FindById(old(documents), old(currentEditingDoc).value.id).Some? && confirmed
                                        then Without(old(documents), old(currentEditingDoc).value.id)
                                        else old(documents))
    {
      if currentEditingDoc.None? {
        return true;
      }
      DeleteDocument(currentEditingDoc.value.id, confirmed);
      return false;
    }

    /** `deleteDocument`: an unknown id or a refused confirmation changes nothing; otherwise the id's documents go. */
    method DeleteDocument(docId: int, confirmed: bool)
      modifies this
      ensures currentEditingDoc == old(currentEditingDoc) && currentDocumentType == old(currentDocumentType)
      ensures FindById(old(documents), docId).None? || !confirmed ==> documents == old(documents)
      ensures FindById(old(documents), docId).Some? && confirmed ==> documents == Without(old(documents), docId)
    {
      var doc := FindById(documents, docId);
      if doc.None? {
        return;
      }
      if !confirmed {
        return;
      }
      documents := Without(documents, docId);
    }

    /** `addSampleData`: nothing when documents exist; otherwise the list is the two seed documents. */
    method AddSampleData(clock: SeedClock)
      modifies this
      ensures currentEditingDoc == old(currentEditingDoc) && currentDocumentType == old(currentDocumentType)
      ensures |old(documents)| > 0 ==> documents == old(documents)
      ensures |old(documents)| == 0 ==> documents == SampleDocuments(clock)
    {
      if |documents| > 0 {
        return;
      }
      documents := SampleDocuments(clock);
    }
  }

  /**
   * The page start: the manager is created from storage and, when the list
   * is empty, seeded; so the list is the stored one when there is one,
   * otherwise the two seed documents.
   */
  method Start(stored: Option<seq<Doc>>, clock: SeedClock) returns (m: DocumentManager)
    ensures fresh(m)
    ensures stored.Some? && stored.value != [] ==> m.documents == stored.value
    ensures stored.None? || stored.value == [] ==> m.documents == SampleDocuments(clock)
    ensures m.currentEditingDoc == None && m.currentDocumentType == "incoming"
  {
    m := new DocumentManager(stored);
    if |m.documents| == 0 {
      m.AddSampleData(clock);
    }
  }

  /**
   * Previewing a document and editing it from the preview opens the form
   * for the document's direction with no edited document, so a second
   * "edit current" throws.
   */
  method PreviewThenEdit(m: DocumentManager, doc: Doc) returns (first: bool, second: bool)
    modifies m
    requires doc in m.documents
    ensures m.documents == old(m.documents)
    ensures !first && second
    ensures m.currentEditingDoc == None
    ensures m.currentDocumentType == FindById(m.documents, doc.id).value.direction
  {
    m.PreviewDocument(Some(doc));
    first := m.EditCurrentDocument();
    second := m.EditCurrentDocument();
  }
}
