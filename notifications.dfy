/**
 * js/notifications.js: the notification manager keeps the document list, the
 * list of documents to warn about and the badge on the bell icon. A document
 * with a `processing_deadline` that is not completed is overdue when its
 * deadline is before `now`, and near its deadline when the rounded-up day
 * count is between 0 and 3. The two tests overlap: a deadline that passed
 * less than a day ago satisfies both, so that document is listed twice.
 */
module Notifications {
  import opened Common
  import opened Documents
  import opened Deadlines

  /** The date of a pending deadline: present, not completed, parsed; `Invalid` otherwise. */
  function PendingDeadline(doc: Doc, parse: DateParser): Moment
  {
    if !Truthy(doc.processing_deadline) || IsCompleted(doc) then Invalid
    else parse(doc.processing_deadline.value)
  }

  predicate IsOverdue(doc: Doc, now: int, parse: DateParser)
  {
    var m := PendingDeadline(doc, parse);
    m.Moment? && m.ms < now
  }

  predicate IsNearDeadline(doc: Doc, now: int, parse: DateParser)
  {
    var m := PendingDeadline(doc, parse);
    m.Moment? && 0 <= DaysUntil(m.ms, now) <= 3
  }

  function OverdueDocs(docs: seq<Doc>, now: int, parse: DateParser): seq<Doc>
  {
    Filter(docs, d => IsOverdue(d, now, parse))
  }

  function NearDeadlineDocs(docs: seq<Doc>, now: int, parse: DateParser): seq<Doc>
  {
    Filter(docs, d => IsNearDeadline(d, now, parse))
  }

  /**
   * A document is both overdue and near its deadline exactly when its pending
   * deadline lies less than one day before `now`.
   */
  lemma OverdueAndNear(doc: Doc, now: int, parse: DateParser)
    ensures IsOverdue(doc, now, parse) && IsNearDeadline(doc, now, parse) <==>
      var m := PendingDeadline(doc, parse);
      m.Moment? && 0 < now - m.ms < MsPerDay
  {
    var m := PendingDeadline(doc, parse);
    if m.Moment? {
      DaysNegative(m.ms, now);
      DaysAtMost(m.ms, now, 3);
    }
  }

  /** Every document warned about is one of the list, has a deadline and is not completed. */
  lemma NotifiedArePending(docs: seq<Doc>, now: int, parse: DateParser)
    ensures forall d :: d in OverdueDocs(docs, now, parse) + NearDeadlineDocs(docs, now, parse) ==>
      d in docs && Truthy(d.processing_deadline) && !IsCompleted(d)
  {
    FilterMembers(docs, d => IsOverdue(d, now, parse));
    FilterMembers(docs, d => IsNearDeadline(d, now, parse));
  }

  /** A document is near its deadline exactly when the deadline lies in (now - 1 day, now + 3 days]. */
  lemma NearDeadlineWindow(doc: Doc, now: int, parse: DateParser)
    ensures IsNearDeadline(doc, now, parse) <==>
      var m := PendingDeadline(doc, parse);
      m.Moment? && -MsPerDay < m.ms - now <= 3 * MsPerDay
  {
    var m := PendingDeadline(doc, parse);
    if m.Moment? {
      DaysNegative(m.ms, now);
      DaysAtMost(m.ms, now, 3);
    }
  }

  /**
   * The incoming document of the worked example: deadline 2025-07-03, status
   * 'processing'. On 2025-07-02 it is near its deadline and not overdue; on
   * 2025-07-05 it is overdue and no longer near.
   */
  lemma WorkedExample(parse: DateParser)
    requires parse("2025-07-03").Moment? && parse("2025-07-03").ms == 1751500800000
    ensures
      var doc := BlankDoc(1, "incoming", "CV001", "2025-07-01", "test")
        .(processing_deadline := Some("2025-07-03"), status := Some("processing"));
      var july2 := 1751414400000;
      var july5 := 1751673600000;
      IsNearDeadline(doc, july2, parse) && !IsOverdue(doc, july2, parse) &&
      IsOverdue(doc, july5, parse) && !IsNearDeadline(doc, july5, parse)
  {
    var doc := BlankDoc(1, "incoming", "CV001", "2025-07-01", "test")
      .(processing_deadline := Some("2025-07-03"), status := Some("processing"));
    NearDeadlineWindow(doc, 1751414400000, parse);
    NearDeadlineWindow(doc, 1751673600000, parse);
  }

  /** The text `showNotifications` prints for a day count. */
  function UrgencyText(days: int): string
  {
    if days < 0 then "Quá hạn " + NatToString(-days) + " ngày"
    else if days == 0 then "Hôm nay là hạn cuối"
    else "Còn " + NatToString(days) + " ngày"
  }

  /** The urgency text determines the day count: distinct counts never share a text. */
  lemma UrgencyTextInjective(a: int, b: int)
    requires UrgencyText(a) == UrgencyText(b)
    ensures a == b
  {
    var s := UrgencyText(a);
    NatToStringDigits(if a < 0 then -a else a);
    NatToStringDigits(if b < 0 then -b else b);
    if a < 0 {
      assert s[0] == 'Q';
      assert b < 0;
      assert NatToString(-a) == s[8..|s| - 5] == NatToString(-b);
      NatToStringInjective(-a, -b);
    } else if a == 0 {
      assert s[0] == 'H';
      assert b == 0;
    } else {
      assert s[0] == 'C';
      assert b > 0;
      assert NatToString(a) == s[4..|s| - 5] == NatToString(b);
      NatToStringInjective(a, b);
    }
  }

  /** What the bell badge shows: not yet touched, hidden, or a count. */
  datatype BadgeView = Unrendered | Hidden | Showing(count: nat)

  class NotificationManager {
    var documents: seq<Doc>
    var notifications: seq<Doc>
    var badge: BadgeView

    /** `documents || []`: a missing list becomes the empty list. */
    constructor (documents: Option<seq<Doc>>)
      ensures this.documents == (if documents.Some? then documents.value else [])
      ensures notifications == [] && badge == Unrendered
    {
      this.documents := if documents.Some? then documents.value else [];
      notifications := [];
      badge := Unrendered;
    }

    /**
     * Recomputes the warnings: overdue documents first, then those near their
     * deadline. The badge, when the page has one, shows their total or is
     * hidden when there are none.
     */
    method CheckNotifications(now: int, parse: DateParser, badgePresent: bool)
      modifies this
      ensures documents == old(documents)
      ensures notifications == OverdueDocs(documents, now, parse) + NearDeadlineDocs(documents, now, parse)
      ensures badgePresent ==> badge == (if |notifications| > 0 then Showing(|notifications|) else Hidden)
      ensures !badgePresent ==> badge == old(badge)
    {
      var overdueDocs := OverdueDocs(documents, now, parse);
      var nearDeadlineDocs := NearDeadlineDocs(documents, now, parse);
      var total := |overdueDocs| + |nearDeadlineDocs|;
      if badgePresent {
        if total > 0 {
          badge := Showing(total);
        } else {
          badge := Hidden;
        }
      }
      notifications := overdueDocs + nearDeadlineDocs;
    }

    /** Replaces the list (`documents || []`) and recomputes the warnings. */
    method UpdateDocuments(documents: Option<seq<Doc>>, now: int, parse: DateParser, badgePresent: bool)
      modifies this
      ensures this.documents == (if documents.Some? then documents.value else [])
      ensures notifications == OverdueDocs(this.documents, now, parse) + NearDeadlineDocs(this.documents, now, parse)
      ensures badgePresent ==> badge == (if |notifications| > 0 then Showing(|notifications|) else Hidden)
      ensures !badgePresent ==> badge == old(badge)
    {
      this.documents := if documents.Some? then documents.value else [];
      CheckNotifications(now, parse, badgePresent);
    }

    /** The number of documents near their deadline, without changing anything. */
    method CalculateNearDeadlineDocs(now: int, parse: DateParser) returns (n: nat)
      ensures n == Count(documents, d => IsNearDeadline(d, now, parse))
      ensures n <= |documents|
    {
      n := |NearDeadlineDocs(documents, now, parse)|;
    }
  }
}
