/** The off-screen analytics report page (src/components/reports/AnalyticsReportTemplate.tsx):
    headline metrics looked up by exact label and shown in a fixed order, the
    recommendations listed in order, on one A4-wide page. */
module AnalyticsReportTemplate {
  import opened Common
  import opened Reports

  const Brand: string := "EcoFlow"
  const Footer: string := "EcoFlow Energy Solutions | Confidential Report | Page 1 of 1"

  /** No two metrics share a label. */
  predicate DistinctNames(metrics: seq<ReportMetric>)
  {
    forall i, j :: 0 <= i < j < |metrics| ==> metrics[i].name != metrics[j].name
  }

  /** `metrics.findIndex(m => m.label === wanted)`, with `|metrics|` for "not found". */
  function FirstWithName(metrics: seq<ReportMetric>, wanted: string): (k: nat)
    ensures k <= |metrics|
    ensures forall j :: 0 <= j < k ==> metrics[j].name != wanted
    ensures k < |metrics| ==> metrics[k].name == wanted
  {
    if metrics == [] then 0
    else if metrics[0].name == wanted then 0
    else 1 + FirstWithName(metrics[1..], wanted)
  }

  /** `metrics.find(m => m.label === wanted)`: the first metric whose label is exactly
      `wanted`, or `undefined` when there is none. */
  function FindMetric(metrics: seq<ReportMetric>, wanted: string): (r: Option<ReportMetric>)
    ensures r.None? <==> forall i :: 0 <= i < |metrics| ==> metrics[i].name != wanted
    ensures r.Some? ==> r.value in metrics && r.value.name == wanted
    ensures r.Some? ==> r.value == metrics[FirstWithName(metrics, wanted)]
  {
    var k := FirstWithName(metrics, wanted);
    if k < |metrics| then Some(metrics[k]) else None
  }

  /** When labels are distinct, the lookup finds any metric by its own label. */
  lemma FindMetricByName(metrics: seq<ReportMetric>, i: nat)
    requires DistinctNames(metrics) && i < |metrics|
    ensures FindMetric(metrics, metrics[i].name) == Some(metrics[i])
  {
    var k := FirstWithName(metrics, metrics[i].name);
    assert k <= i;
    assert k == i;
  }

  /** One `ReportMetric` card: its fixed heading and the found value and unit,
      `undefined` when the lookup found nothing. */
  datatype MetricCard = MetricCard(heading: string, value: Option<MetricValue>, unit: Option<string>)

  /** The card for one canonical label (lines 29-31, 63-65). */
  function CardFor(metrics: seq<ReportMetric>, wanted: string): (c: MetricCard)
    ensures c.heading == wanted
    ensures c.value.None? <==> forall i :: 0 <= i < |metrics| ==> metrics[i].name != wanted
    ensures c.value.None? <==> c.unit.None?
    ensures c.value.Some? ==> exists i :: 0 <= i < |metrics| && metrics[i].name == wanted &&
                                         metrics[i].value == c.value.value && metrics[i].unit == c.unit.value
    ensures c.value.Some? ==> var k := FirstWithName(metrics, wanted);
              k < |metrics| && c.value.value == metrics[k].value && c.unit.value == metrics[k].unit
  {
    match FindMetric(metrics, wanted)
    case None => MetricCard(wanted, None, None)
    case Some(m) => MetricCard(wanted, Some(m.value), Some(m.unit))
  }

  /** The metrics grid: Consumption, Cost, CO2, in that order whatever the order of
      `metrics`. */
  function HeadlineCards(metrics: seq<ReportMetric>): (cards: seq<MetricCard>)
    ensures |cards| == |HeadlineLabels|
    ensures forall i :: 0 <= i < |cards| ==> cards[i] == CardFor(metrics, HeadlineLabels[i])
  {
    [CardFor(metrics, ConsumptionLabel), CardFor(metrics, CostLabel), CardFor(metrics, EmissionsLabel)]
  }

  /** Reordering metrics with distinct labels does not change what the grid shows. */
  lemma CardsIgnoreMetricOrder(a: seq<ReportMetric>, b: seq<ReportMetric>)
    requires DistinctNames(a)
    requires multiset(a) == multiset(b)
    ensures HeadlineCards(a) == HeadlineCards(b)
  {
    forall wanted | wanted in HeadlineLabels
      ensures FindMetric(a, wanted) == FindMetric(b, wanted)
    {
      FindSameInPermutation(a, b, wanted);
    }
  }

  lemma FindSameInPermutation(a: seq<ReportMetric>, b: seq<ReportMetric>, wanted: string)
    requires DistinctNames(a)
    requires multiset(a) == multiset(b)
    ensures FindMetric(a, wanted) == FindMetric(b, wanted)
  {
    var fa, fb := FindMetric(a, wanted), FindMetric(b, wanted);
    if fa.Some? {
      assert fa.value in multiset(b);
    }
    if fb.Some? {
      assert fb.value in multiset(b);
      var i :| 0 <= i < |a| && a[i] == fb.value;
      FindMetricByName(a, i);
    }
  }

  /** What the template lays out. */
  datatype Document = Document(
    widthMm: real,
    minHeightMm: real,
    brand: string,
    title: string,
    generatedAt: string,
    cards: seq<MetricCard>,
    recommendations: seq<Entry<string>>,
    footer: string)

  /** The recommendations given, or none when the field is absent (`?.map`). */
  function RecommendationTexts(report: ReportData): seq<string>
  {
    match report.recommendations
    case None => []
    case Some(rs) => rs
  }

  /** The rendered report: one A4-wide page footed "Page 1 of 1", the fixed card
      grid, and each recommendation once, in input order. */
  function Render(report: ReportData): (doc: Document)
    ensures doc.widthMm == PageWidthMm && doc.minHeightMm == PageHeightMm
    ensures doc.footer == Footer
    ensures doc.title == report.title && doc.generatedAt == report.generatedAt
    ensures doc.cards == HeadlineCards(report.metrics)
    ensures Texts(doc.recommendations) == RecommendationTexts(report)
    ensures report.recommendations.None? ==> doc.recommendations == []
    ensures forall i :: 0 <= i < |doc.recommendations| ==> doc.recommendations[i].key == i
  {
    Document(PageWidthMm, PageHeightMm, Brand, report.title, report.generatedAt,
             HeadlineCards(report.metrics), Listing(RecommendationTexts(report)), Footer)
  }
}
