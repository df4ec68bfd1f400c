/**
 * js/charts.js: the data behind the two dashboard charts. The doughnut chart
 * counts documents per type; the trend chart counts incoming and outgoing
 * documents per `YYYY-MM` month, in ascending order of the month key.
 *
 * The counting loops are methods proved equal to the functions `TallyOf`,
 * `FirstSeen` and `MonthlyOf`; the lemmas say what those functions count.
 * Drawing (Chart.js, the HTML fallback) is left out: whether the page has
 * the canvas element and whether Chart.js is loaded are parameters.
 */
module Charts {
  import opened Common
  import opened Documents
  import opened Sorting
  import Tally
  import Formatters

  // ---------------------------------------------------------------- type chart

  /** `doc.document_type || doc.documentType || 'other'`. */
  function TypeKey(doc: Doc): (r: string)
    ensures Truthy(doc.document_type) ==> r == doc.document_type.value
    ensures !Truthy(doc.document_type) && Truthy(doc.documentType) ==> r == doc.documentType.value
    ensures !Truthy(doc.document_type) && !Truthy(doc.documentType) ==> r == "other"
  {
    OrDefault(Or(doc.document_type, doc.documentType), "other")
  }

  /** The `types` object built by the counting loop of `initializeTypeChart`. */
  method CountTypes(documents: seq<Doc>) returns (types: seq<Tally.Entry>)
    ensures types == Tally.TallyOf(Map(documents, TypeKey))
  {
    types := [];
    var i := 0;
    while i < |documents|
      invariant 0 <= i <= |documents|
      invariant types == Tally.TallyOf(Map(documents[..i], TypeKey))
    {
      var keys := Map(documents[..i + 1], TypeKey);
      assert documents[..i + 1][..i] == documents[..i];
      assert keys[..i] == Map(documents[..i], TypeKey);
      types := Tally.Bump(types, TypeKey(documents[i]));
      i := i + 1;
    }
    assert documents[..i] == documents;
  }

  /** A chart label: the display text of the type key. */
  function TypeLabel(e: Tally.Entry): string
  {
    Formatters.DocumentTypeText(Some(e.key))
  }

  function EntryCount(e: Tally.Entry): nat
  {
    e.count
  }

  datatype TypeChart = TypeChart(labels: seq<string>, data: seq<nat>)

  /** `labels` and `data` of the doughnut chart, in the order the type keys were first met. */
  function TypeChartOf(documents: seq<Doc>): TypeChart
  {
    var types := Tally.TallyOf(Map(documents, TypeKey));
    TypeChart(Map(types, TypeLabel), Map(types, EntryCount))
  }

  /**
   * Every document is counted once, under its type key: the keys are
   * distinct, each count is the number of documents with that key, the
   * counts add up to the number of documents, and the labels line up with
   * the counts.
   */
  lemma TypeChartCounts(documents: seq<Doc>)
    ensures var types := Tally.TallyOf(Map(documents, TypeKey));
      var chart := TypeChartOf(documents);
      Tally.WellFormed(types) && Tally.Total(types) == |documents| &&
      |chart.labels| == |chart.data| == |types| &&
      (forall i :: 0 <= i < |types| ==> chart.data[i] == types[i].count && chart.data[i] > 0) &&
      forall k :: Tally.CountOf(types, k) == Count(documents, (d: Doc) => TypeKey(d) == k)
  {
    var types := Tally.TallyOf(Map(documents, TypeKey));
    Tally.TallyOfCounts(Map(documents, TypeKey));
    forall k ensures Tally.CountOf(types, k) == Count(documents, (d: Doc) => TypeKey(d) == k) {
      CountMapped(documents, TypeKey, k, (d: Doc) => TypeKey(d) == k);
    }
  }

  // ---------------------------------------------------------------- trend chart

  /**
   * `${year}-${month padded to 2}` of `new Date(doc.date || doc.created_at)`;
   * an invalid date gives "NaN-NaN".
   */
  function MonthKey(doc: Doc, parse: DateParser): (r: string)
  {
    var date := ParseOpt(Or(Some(doc.date), doc.created_at), parse);
    if date.Invalid? then "NaN-NaN"
    else IntToString(date.year) + "-" + Pad2(IntToString(date.month))
  }

  function MonthKeys(documents: seq<Doc>, parse: DateParser): (r: seq<string>)
    ensures |r| == |documents|
  {
    Map(documents, (d: Doc) => MonthKey(d, parse))
  }

  /** The month key of a valid date: the year, '-', and two digits reading back as the month. */
  lemma MonthKeyShape(doc: Doc, parse: DateParser)
    requires var m := ParseOpt(Or(Some(doc.date), doc.created_at), parse); m.Moment? && 1 <= m.month <= 12
    ensures var m := ParseOpt(Or(Some(doc.date), doc.created_at), parse);
      var k := MonthKey(doc, parse); var y := IntToString(m.year);
      |k| == |y| + 3 && k[..|y|] == y && k[|y|] == '-' &&
      AllDigits(k[|y| + 1..]) && DigitsValue(k[|y| + 1..]) == m.month
  {
    var m := ParseOpt(Or(Some(doc.date), doc.created_at), parse);
    var y := IntToString(m.year);
    var mm := Pad2(IntToString(m.month));
    Formatters.TwoDigits(m.month);
    var k := MonthKey(doc, parse);
    assert k == y + "-" + mm;
    assert k[|y| + 1..] == mm;
  }

  /** Two-digit fields compare as text the way their values compare. */
  lemma TwoDigitsOrder(a: string, b: string)
    requires |a| == 2 && |b| == 2 && AllDigits(a) && AllDigits(b)
    ensures StrLt(a, b) <==> DigitsValue(a) < DigitsValue(b)
  {
    var a0, a1 := a[0] as int - '0' as int, a[1] as int - '0' as int;
    var b0, b1 := b[0] as int - '0' as int, b[1] as int - '0' as int;
    assert a[..1][..0] == [] && a[..1][0] == a[0];
    assert DigitsValue(a[..1]) == a0;
    assert b[..1][..0] == [] && b[..1][0] == b[0];
    assert DigitsValue(b[..1]) == b0;
    assert DigitsValue(a) == a0 * 10 + a1 && DigitsValue(b) == b0 * 10 + b1;
    assert 0 <= a1 < 10 && 0 <= b1 < 10;
    assert a[1..][1..] == [] && b[1..][1..] == [];
    if a[0] == b[0] {
      assert StrLt(a, b) == StrLt(a[1..], b[1..]);
      assert a[1..][0] == a[1] && b[1..][0] == b[1];
      if a[1] == b[1] {
        assert StrLt(a[1..], b[1..]) == StrLt(a[1..][1..], b[1..][1..]);
      }
    }
  }

  /**
   * Within one year the zero-padded month keys sort in calendar order, so
   * the ascending text sort of the chart lists the months chronologically.
   */
  lemma MonthKeysInYearOrder(d1: Doc, d2: Doc, parse: DateParser)
    requires var m := ParseOpt(Or(Some(d1.date), d1.created_at), parse); m.Moment? && 1 <= m.month <= 12
    requires var m := ParseOpt(Or(Some(d2.date), d2.created_at), parse); m.Moment? && 1 <= m.month <= 12
    requires ParseOpt(Or(Some(d1.date), d1.created_at), parse).year == ParseOpt(Or(Some(d2.date), d2.created_at), parse).year
    ensures StrLt(MonthKey(d1, parse), MonthKey(d2, parse)) <==>
      ParseOpt(Or(Some(d1.date), d1.created_at), parse).month < ParseOpt(Or(Some(d2.date), d2.created_at), parse).month
  {
    var m1 := ParseOpt(Or(Some(d1.date), d1.created_at), parse);
    var m2 := ParseOpt(Or(Some(d2.date), d2.created_at), parse);
    var prefix := IntToString(m1.year) + "-";
    var mm1 := Pad2(IntToString(m1.month));
    var mm2 := Pad2(IntToString(m2.month));
    Formatters.TwoDigits(m1.month);
    Formatters.TwoDigits(m2.month);
    assert MonthKey(d1, parse) == prefix + mm1;
    assert MonthKey(d2, parse) == prefix + mm2;
    StrLtAfterPrefix(prefix, mm1, mm2);
    TwoDigitsOrder(mm1, mm2);
  }

  /** The counters of one month. */
  datatype Bucket = Bucket(incoming: nat, outgoing: nat)

  /** One more document in a month: `type === 'incoming'` counts as incoming, anything else as outgoing. */
  function Tick(b: Bucket, doc: Doc): (r: Bucket)
    ensures r.incoming + r.outgoing == b.incoming + b.outgoing + 1
  {
    if doc.direction == "incoming" then b.(incoming := b.incoming + 1) else b.(outgoing := b.outgoing + 1)
  }

  /** The distinct keys of `keys`, in the order they first occur (the order of `Object.keys`). */
  function FirstSeen(keys: seq<string>): (r: seq<string>)
  {
    if keys == [] then []
    else
      var seen := FirstSeen(keys[..|keys| - 1]);
      var k := keys[|keys| - 1];
      if k in seen then seen else seen + [k]
  }

  /** The `monthlyData` object: a bucket per month key met. */
  function MonthlyOf(documents: seq<Doc>, parse: DateParser): map<string, Bucket>
  {
    if documents == [] then map[]
    else
      var m := MonthlyOf(documents[..|documents| - 1], parse);
      var doc := documents[|documents| - 1];
      var k := MonthKey(doc, parse);
      m[k := Tick(if k in m then m[k] else Bucket(0, 0), doc)]
  }

  /** The loop of `initializeTrendChart`: the month keys in insertion order and the buckets. */
  method MonthlyData(documents: seq<Doc>, parse: DateParser) returns (months: seq<string>, monthlyData: map<string, Bucket>)
    ensures months == FirstSeen(MonthKeys(documents, parse))
    ensures monthlyData == MonthlyOf(documents, parse)
  {
    months := [];
    monthlyData := map[];
    var i := 0;
    while i < |documents|
      invariant 0 <= i <= |documents|
      invariant months == FirstSeen(MonthKeys(documents[..i], parse))
      invariant monthlyData == MonthlyOf(documents[..i], parse)
    {
      var doc := documents[i];
      var monthKey := MonthKey(doc, parse);
      MonthlyLoopStep(documents, i, parse, months, monthlyData);
      months, monthlyData := TickMonth(months, monthlyData, monthKey, doc);
      i := i + 1;
    }
    assert documents[..i] == documents;
  }

  /**
   * The loop body: a month met for the first time gets an empty bucket and
   * joins the month list, and then the document's bucket is ticked.
   */
  method TickMonth(months: seq<string>, monthlyData: map<string, Bucket>, monthKey: string, doc: Doc)
    returns (months': seq<string>, monthlyData': map<string, Bucket>)
    ensures monthlyData' == monthlyData[monthKey := Tick(if monthKey in monthlyData then monthlyData[monthKey] else Bucket(0, 0), doc)]
    ensures months' == if monthKey in monthlyData then months else months + [monthKey]
  {
    months', monthlyData' := months, monthlyData;
    if monthKey !in monthlyData' {
      monthlyData' := monthlyData'[monthKey := Bucket(0, 0)];
      months' := months' + [monthKey];
    }
    monthlyData' := monthlyData'[monthKey := Tick(monthlyData'[monthKey], doc)];
  }

  /** The loop's step: the next prefix's buckets and months, from the current ones. */
  lemma MonthlyLoopStep(documents: seq<Doc>, i: nat, parse: DateParser, months: seq<string>, data: map<string, Bucket>)
    requires i < |documents|
    requires months == FirstSeen(MonthKeys(documents[..i], parse))
    requires data == MonthlyOf(documents[..i], parse)
    ensures var k := MonthKey(documents[i], parse);
      (k in data <==> k in months) &&
      MonthlyOf(documents[..i + 1], parse) == data[k := Tick(if k in data then data[k] else Bucket(0, 0), documents[i])] &&
      FirstSeen(MonthKeys(documents[..i + 1], parse)) == (if k in months then months else months + [k])
  {
    assert documents[..i + 1][..i] == documents[..i];
    MonthlyStep(documents[..i + 1], parse);
  }

  /** The keys first seen are distinct, and they are exactly the keys that occur. */
  lemma {:induction false} FirstSeenKeys(keys: seq<string>)
    ensures Distinct(FirstSeen(keys))
    ensures forall k :: k in FirstSeen(keys) <==> k in keys
  {
    if keys != [] {
      var init := keys[..|keys| - 1];
      FirstSeenKeys(init);
      assert keys == init + [keys[|keys| - 1]];
    }
  }

  function IncomingIn(documents: seq<Doc>, month: string, parse: DateParser): nat
  {
    Count(documents, (d: Doc) => MonthKey(d, parse) == month && d.direction == "incoming")
  }

  function OutgoingIn(documents: seq<Doc>, month: string, parse: DateParser): nat
  {
    Count(documents, (d: Doc) => MonthKey(d, parse) == month && d.direction != "incoming")
  }

  /**
   * A month has a bucket exactly when some document falls in it, and its
   * bucket holds the number of incoming and of other documents of that
   * month; a month without a bucket has no documents.
   */
  lemma {:induction false} MonthlyCounts(documents: seq<Doc>, parse: DateParser)
    ensures forall k :: k in MonthlyOf(documents, parse) <==> k in MonthKeys(documents, parse)
    ensures forall k :: k in MonthlyOf(documents, parse) ==>
      MonthlyOf(documents, parse)[k] == Bucket(IncomingIn(documents, k, parse), OutgoingIn(documents, k, parse))
    ensures forall k :: k !in MonthlyOf(documents, parse) ==>
      IncomingIn(documents, k, parse) == 0 && OutgoingIn(documents, k, parse) == 0
  {
    if documents != [] {
      var init := documents[..|documents| - 1];
      var doc := documents[|documents| - 1];
      MonthlyCounts(init, parse);
      assert documents == init + [doc];
      assert MonthKeys(documents, parse) == MonthKeys(init, parse) + [MonthKey(doc, parse)];
      forall k ensures IncomingIn(documents, k, parse) == IncomingIn(init, k, parse) +
                         (if MonthKey(doc, parse) == k && doc.direction == "incoming" then 1 else 0)
                    && OutgoingIn(documents, k, parse) == OutgoingIn(init, k, parse) +
                         (if MonthKey(doc, parse) == k && doc.direction != "incoming" then 1 else 0) {
        CountSnoc(init, doc, (d: Doc) => MonthKey(d, parse) == k && d.direction == "incoming");
        CountSnoc(init, doc, (d: Doc) => MonthKey(d, parse) == k && d.direction != "incoming");
      }
    }
  }

  /** The total of a month's bucket, 0 for a month without one. */
  function BucketTotal(monthly: map<string, Bucket>, k: string): int
  {
    if k in monthly then monthly[k].incoming + monthly[k].outgoing else 0
  }

  function Totals(monthly: map<string, Bucket>): string -> int
  {
    (k: string) => BucketTotal(monthly, k)
  }

  /** Summed over the months, the buckets hold every document exactly once. */
  lemma {:induction false} MonthlySum(documents: seq<Doc>, parse: DateParser)
    ensures SumOf(FirstSeen(MonthKeys(documents, parse)), Totals(MonthlyOf(documents, parse))) == |documents|
  {
    if documents != [] {
      var init := documents[..|documents| - 1];
      var doc := documents[|documents| - 1];
      MonthlySum(init, parse);
      MonthlyStep(documents, parse);
      var k := MonthKey(doc, parse);
      var before := MonthlyOf(init, parse);
      SumBump(FirstSeen(MonthKeys(init, parse)), before, k, Tick(if k in before then before[k] else Bucket(0, 0), doc));
    }
  }

  /** One more document: its month's bucket is ticked, and its month is added if new. */
  lemma MonthlyStep(documents: seq<Doc>, parse: DateParser)
    requires documents != []
    ensures var init := documents[..|documents| - 1];
      var doc := documents[|documents| - 1];
      var k := MonthKey(doc, parse);
      var before := MonthlyOf(init, parse);
      var seen := FirstSeen(MonthKeys(init, parse));
      MonthlyOf(documents, parse) == before[k := Tick(if k in before then before[k] else Bucket(0, 0), doc)] &&
      FirstSeen(MonthKeys(documents, parse)) == (if k in seen then seen else seen + [k]) &&
      Distinct(seen) && (k in before <==> k in seen)
  {
    var init := documents[..|documents| - 1];
    var doc := documents[|documents| - 1];
    var keys := MonthKeys(init, parse);
    var k := MonthKey(doc, parse);
    assert MonthKeys(documents, parse) == keys + [k];
    assert (keys + [k])[..|keys|] == keys;
    MonthlyCounts(init, parse);
    FirstSeenKeys(keys);
  }

  /** Adding one to a month's bucket adds one to the sum over the months, counting a new month once. */
  lemma SumBump(seen: seq<string>, before: map<string, Bucket>, k: string, b: Bucket)
    requires Distinct(seen)
    requires k in before <==> k in seen
    requires b.incoming + b.outgoing == BucketTotal(before, k) + 1
    ensures SumOf(if k in seen then seen else seen + [k], Totals(before[k := b])) == SumOf(seen, Totals(before)) + 1
  {
    var f := Totals(before);
    var g := Totals(before[k := b]);
    assert forall x :: x != k ==> f(x) == g(x);
    if k in seen {
      SumOfChangeOne(seen, f, g, k);
    } else {
      SumOfAppend(seen, [k], g);
      SumOfAgree(seen, f, g);
    }
  }

  /** `sortedMonths.map(month => monthlyData[month].incoming)`. */
  function IncomingSeries(months: seq<string>, monthly: map<string, Bucket>): (r: seq<nat>)
    ensures |r| == |months|
  {
    Map(months, (k: string) => if k in monthly then monthly[k].incoming else 0)
  }

  function OutgoingSeries(months: seq<string>, monthly: map<string, Bucket>): (r: seq<nat>)
    ensures |r| == |months|
  {
    Map(months, (k: string) => if k in monthly then monthly[k].outgoing else 0)
  }

  datatype TrendChart = TrendChart(months: seq<string>, incoming: seq<nat>, outgoing: seq<nat>)

  /** The labels and the two series of the line chart. */
  function TrendChartOf(documents: seq<Doc>, parse: DateParser): TrendChart
  {
    var monthly := MonthlyOf(documents, parse);
    var sortedMonths := SortStrings(FirstSeen(MonthKeys(documents, parse)));
    TrendChart(sortedMonths, IncomingSeries(sortedMonths, monthly), OutgoingSeries(sortedMonths, monthly))
  }

  /**
   * The months are strictly ascending and are exactly the months of the
   * documents; both series have one value per month, index-aligned with
   * the months, counting that month's incoming and other documents.
   */
  lemma TrendChartAligned(documents: seq<Doc>, parse: DateParser)
    ensures var c := TrendChartOf(documents, parse);
      (forall i, j :: 0 <= i < j < |c.months| ==> StrLt(c.months[i], c.months[j])) &&
      (forall k :: k in c.months <==> k in MonthKeys(documents, parse)) &&
      |c.incoming| == |c.months| && |c.outgoing| == |c.months| &&
      forall i :: 0 <= i < |c.months| ==>
        c.incoming[i] == IncomingIn(documents, c.months[i], parse) &&
        c.outgoing[i] == OutgoingIn(documents, c.months[i], parse)
  {
    var keys := MonthKeys(documents, parse);
    var monthly := MonthlyOf(documents, parse);
    var months := SortStrings(FirstSeen(keys));
    FirstSeenKeys(keys);
    SortStringsStrict(FirstSeen(keys));
    MonthlyCounts(documents, parse);
    assert forall k :: k in months <==> k in keys;
    SeriesCount(documents, parse, months, monthly);
  }

  lemma SeriesCount(documents: seq<Doc>, parse: DateParser, months: seq<string>, monthly: map<string, Bucket>)
    requires forall k :: k in monthly ==> monthly[k] == Bucket(IncomingIn(documents, k, parse), OutgoingIn(documents, k, parse))
    requires forall k :: k !in monthly ==> IncomingIn(documents, k, parse) == 0 && OutgoingIn(documents, k, parse) == 0
    ensures forall i :: 0 <= i < |months| ==>
      IncomingSeries(months, monthly)[i] == IncomingIn(documents, months[i], parse) &&
      OutgoingSeries(months, monthly)[i] == OutgoingIn(documents, months[i], parse)
  {
  }

  /** The number of documents of a month, incoming or not. */
  function DocumentsIn(documents: seq<Doc>, parse: DateParser): string -> int
  {
    (k: string) => IncomingIn(documents, k, parse) + OutgoingIn(documents, k, parse)
  }

  /** Summed over the chart's months, the two series count every document once. */
  lemma TrendChartTotal(documents: seq<Doc>, parse: DateParser)
    ensures SumOf(TrendChartOf(documents, parse).months, DocumentsIn(documents, parse)) == |documents|
  {
    var monthly := MonthlyOf(documents, parse);
    var seen := FirstSeen(MonthKeys(documents, parse));
    var months := SortStrings(seen);
    MonthlySum(documents, parse);
    SumOfPerm(seen, months, Totals(monthly));
    FirstSeenKeys(MonthKeys(documents, parse));
    SortStringsStrict(seen);
    MonthlyCounts(documents, parse);
    forall k | k in months ensures Totals(monthly)(k) == DocumentsIn(documents, parse)(k) {
      assert k in monthly;
    }
    SumOfAgree(months, Totals(monthly), DocumentsIn(documents, parse));
  }

  // ---------------------------------------------------------------- the manager

  /** What the page offers: the two canvas elements and a loaded Chart.js. */
  datatype Page = Page(typeElement: bool, trendElement: bool, chartLibrary: bool)

  class ChartManager {
    var documents: seq<Doc>
    var typeChart: Option<TypeChart>
    var trendChart: Option<TrendChart>

    /** `documents || []`, and no chart yet. */
    constructor(documents: Option<seq<Doc>>)
      ensures this.documents == (if documents.Some? then documents.value else [])
      ensures typeChart.None? && trendChart.None?
    {
      this.documents := if documents.Some? then documents.value else [];
      typeChart := None;
      trendChart := None;
    }

    /** Draws the doughnut chart when the page has its element and Chart.js. */
    method InitializeTypeChart(page: Page)
      modifies this
      ensures documents == old(documents) && trendChart == old(trendChart)
      ensures typeChart == if page.typeElement && page.chartLibrary then Some(TypeChartOf(documents)) else old(typeChart)
    {
      if !page.typeElement {
        return;
      }
      var types := CountTypes(documents);
      var labels := Map(types, TypeLabel);
      var data := Map(types, EntryCount);
      if page.chartLibrary {
        typeChart := Some(TypeChart(labels, data));
      }
    }

    /** Draws the line chart when the page has its element and Chart.js. */
    method InitializeTrendChart(page: Page, parse: DateParser)
      modifies this
      ensures documents == old(documents) && typeChart == old(typeChart)
      ensures trendChart == if page.trendElement && page.chartLibrary then Some(TrendChartOf(documents, parse)) else old(trendChart)
    {
      if !page.trendElement {
        return;
      }
      var months, monthlyData := MonthlyData(documents, parse);
      var sortedMonths := SortStrings(months);
      var incomingData := IncomingSeries(sortedMonths, monthlyData);
      var outgoingData := OutgoingSeries(sortedMonths, monthlyData);
      if page.chartLibrary {
        trendChart := Some(TrendChart(sortedMonths, incomingData, outgoingData));
      }
    }

    /** Charts are built only when there are documents. */
    method SetupCharts(page: Page, parse: DateParser)
      modifies this
      ensures documents == old(documents)
      ensures typeChart == if |documents| > 0 && page.typeElement && page.chartLibrary
        then Some(TypeChartOf(documents)) else old(typeChart)
      ensures trendChart == if |documents| > 0 && page.trendElement && page.chartLibrary
        then Some(TrendChartOf(documents, parse)) else old(trendChart)
    {
      if |documents| > 0 {
        InitializeTypeChart(page);
        InitializeTrendChart(page, parse);
      }
    }

    /** New documents: both charts are dropped and built again from them alone. */
    method UpdateCharts(documents: seq<Doc>, page: Page, parse: DateParser)
      modifies this
      ensures this.documents == documents
      ensures typeChart == if |documents| > 0 && page.typeElement && page.chartLibrary
        then Some(TypeChartOf(documents)) else None
      ensures trendChart == if |documents| > 0 && page.trendElement && page.chartLibrary
        then Some(TrendChartOf(documents, parse)) else None
    {
      this.documents := documents;
      typeChart := None;
      trendChart := None;
      SetupCharts(page, parse);
    }
  }
}
