/**
 * The document record as the front end sees it: a JavaScript object that may
 * carry the camelCase keys the forms write (`processingDeadline`,
 * `documentType`, `senderDepartment`, a legacy `attachment` object) and the
 * snake_case columns the API returns (`processing_deadline`, `document_type`,
 * `attachment_name`, ...). Each key the modelled code reads is a field here;
 * a key that is absent (or JSON `null`) is `None`.
 */
module Documents {
  import opened Common

  /**
   * What `new Date(s)` yields: `Invalid` is the NaN date; otherwise the epoch
   * milliseconds and the local calendar fields (month 1..12, as
   * `getMonth() + 1` gives it).
   */
  datatype Moment = Invalid | Moment(ms: int, year: int, month: int, day: int, hour: int, minute: int)

  /** Date parsing of the host, kept as a parameter. */
  type DateParser = string -> Moment

  /** `new Date(o)` for an optional string: a missing value is the NaN date. */
  function ParseOpt(o: Option<string>, parse: DateParser): Moment
  {
    if o.Some? then parse(o.value) else Invalid
  }

  /** The attachment object older client code stores on a document. */
  datatype LegacyAttachment = LegacyAttachment(
    name: Option<string>,
    filePath: Option<string>,
    path: Option<string>,
    size: Option<int>)

  /** `tags`: absent, an array, or the comma-joined text the database stores. */
  datatype Tags = NoTags | TagList(items: seq<string>) | TagText(text: string)

  datatype Doc = Doc(
    id: int,
    direction: string,              // the `type` key: 'incoming' or 'outgoing'
    number: string,
    date: string,
    summary: string,
    documentType: Option<string>,
    document_type: Option<string>,
    priority: Option<string>,
    status: Option<string>,
    senderDepartment: Option<string>,
    receiverDepartment: Option<string>,
    sender_department: Option<string>,
    receiver_department: Option<string>,
    mainResponsible: Option<string>,
    signer: Option<string>,
    processingDeadline: Option<string>,
    processing_deadline: Option<string>,
    tags: Tags,
    notes: Option<string>,
    attachment_name: Option<string>,
    attachment_path: Option<string>,
    attachment_size: Option<int>,
    attachment: Option<LegacyAttachment>,
    createdAt: Option<string>,
    updatedAt: Option<string>,
    created_at: Option<string>)

  predicate IsIncoming(d: Doc)
  {
    d.direction == "incoming"
  }

  predicate IsCompleted(d: Doc)
  {
    d.status == Some("completed")
  }

  /** The document with every optional key absent. */
  function BlankDoc(id: int, direction: string, number: string, date: string, summary: string): (d: Doc)
    ensures d.id == id && d.direction == direction && d.number == number
    ensures d.date == date && d.summary == summary
  {
    Doc(id, direction, number, date, summary,
        None, None, None, None, None, None, None, None, None, None, None, None,
        NoTags, None, None, None, None, None, None, None, None)
  }

  /** The first document whose id is `id` (`documents.find(d => d.id === id)`). */
  function FindById(docs: seq<Doc>, id: int): (r: Option<Doc>)
    ensures r.Some? ==> r.value in docs && r.value.id == id
    ensures r.None? ==> forall d :: d in docs ==> d.id != id
  {
    if docs == [] then None
    else if docs[0].id == id then Some(docs[0])
    else FindById(docs[1..], id)
  }

  /** The index of the first document whose id is `id`, or -1 (`findIndex`). */
  function FindIndex(docs: seq<Doc>, id: int): (i: int)
    ensures -1 <= i < |docs|
    ensures i >= 0 ==> docs[i].id == id && forall j :: 0 <= j < i ==> docs[j].id != id
    ensures i == -1 ==> forall j :: 0 <= j < |docs| ==> docs[j].id != id
  {
    if docs == [] then -1
    else if docs[0].id == id then 0
    else
      var k := FindIndex(docs[1..], id);
      if k == -1 then -1 else k + 1
  }

  lemma FindByIdIndex(docs: seq<Doc>, id: int)
    ensures FindById(docs, id).Some? <==> FindIndex(docs, id) >= 0
    ensures FindIndex(docs, id) >= 0 ==> FindById(docs, id) == Some(docs[FindIndex(docs, id)])
  {
    if docs != [] && docs[0].id != id {
      FindByIdIndex(docs[1..], id);
    }
  }

  /**
   * The tag field of the form: `split(',')`, each part trimmed, empty parts
   * dropped.
   */
  function ParseTags(text: string): (r: seq<string>)
    ensures forall t :: t in r ==> t != ""
  {
    var parts := Map(Split(text, ','), Trim);
    FilterMembers(parts, (t: string) => t != "");
    Filter(parts, (t: string) => t != "")
  }

  /**
   * Joining non-empty trimmed tags without commas by ',' and parsing the text
   * again gives the same tags back.
   */
  lemma ParseTagsJoin(tags: seq<string>)
    requires forall t :: t in tags ==> t != "" && IsTrimmed(t) && ',' !in t
    ensures ParseTags(Join(tags, ",")) == tags
  {
    if tags == [] {
      assert Split("", ',') == [""];
      assert Map([""], Trim) == [""];
    } else {
      SplitJoin(tags, ',');
      assert Split(Join(tags, ","), ',') == tags;
      forall i | 0 <= i < |tags| ensures Trim(tags[i]) == tags[i] {
        TrimTrimmed(tags[i]);
      }
      assert Map(tags, Trim) == tags;
      FilterAll(tags, (t: string) => t != "");
    }
  }
}
