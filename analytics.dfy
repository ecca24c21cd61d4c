/** The Analytics page (src/pages/Analytics.tsx): the period summary and the
    headline report metrics computed from the energy series, the PDF size and
    file-name arithmetic, and the export state machine behind the Export / Save menu
    (`isExporting`, `isExportMenuOpen`, `handleExport`). */
module Analytics {
  import opened Common
  import opened Reports
  import Template = AnalyticsReportTemplate

  // ---------------------------------------------------------------------------
  // The energy series and its sums
  // ---------------------------------------------------------------------------

  /** One observation of the series the page charts and sums. */
  datatype EnergyPoint = EnergyPoint(consumption: real, cost: real, co2Emissions: real)

  /** The three readings the page can select (`selectedMetric`). */
  datatype Field = Consumption | Cost | Co2Emissions

  function Reading(p: EnergyPoint, f: Field): real
  {
    match f
    case Consumption => p.consumption
    case Cost => p.cost
    case Co2Emissions => p.co2Emissions
  }

  /** `data.map(d => d.<f>)`. */
  function Column(data: seq<EnergyPoint>, f: Field): (r: seq<real>)
    ensures |r| == |data|
    ensures forall i :: 0 <= i < |data| ==> r[i] == Reading(data[i], f)
  {
    seq(|data|, i requires 0 <= i < |data| => Reading(data[i], f))
  }

  /** `xs.reduce((sum, x) => sum + x, 0)`: a left fold from zero, exact. */
  function Total(xs: seq<real>): real
  {
    if xs == [] then 0.0 else Total(xs[..|xs| - 1]) + xs[|xs| - 1]
  }

  /** `data.reduce((sum, d) => sum + d.<f>, 0)`. */
  function SumOf(data: seq<EnergyPoint>, f: Field): real
  {
    Total(Column(data, f))
  }

  /** Summing a concatenation sums the parts. */
  lemma {:induction false} TotalAppend(a: seq<real>, b: seq<real>)
    ensures Total(a + b) == Total(a) + Total(b)
  {
    if b == [] {
      assert a + b == a;
    } else {
      assert (a + b)[..|a + b| - 1] == a + b[..|b| - 1];
      TotalAppend(a, b[..|b| - 1]);
    }
  }

  /** The sum of the series over a split point is the sum of the two periods. */
  lemma SumOfSplit(data: seq<EnergyPoint>, k: nat, f: Field)
    requires k <= |data|
    ensures SumOf(data, f) == SumOf(data[..k], f) + SumOf(data[k..], f)
  {
    assert Column(data, f) == Column(data[..k], f) + Column(data[k..], f);
    TotalAppend(Column(data[..k], f), Column(data[k..], f));
  }

  /** A sum of readings none of which exceeds `bound` is at most `n * bound`. */
  lemma {:induction false} TotalAtMost(xs: seq<real>, bound: real)
    requires forall i :: 0 <= i < |xs| ==> xs[i] <= bound
    ensures Total(xs) <= |xs| as real * bound
  {
    if xs != [] {
      TotalAtMost(xs[..|xs| - 1], bound);
    }
  }

  /** `Math.max(...xs)`; `None` for the empty series, where JavaScript gives `-Infinity`. */
  function Peak(xs: seq<real>): (r: Option<real>)
    ensures r.None? <==> xs == []
    ensures r.Some? ==> r.value in xs
    ensures r.Some? ==> forall i :: 0 <= i < |xs| ==> xs[i] <= r.value
  {
    if xs == [] then None
    else
      var last := xs[|xs| - 1];
      match Peak(xs[..|xs| - 1])
      case None => Some(last)
      case Some(m) => Some(if last > m then last else m)
  }

  /** `sum / xs.length`; `None` for the empty series, where JavaScript gives `NaN` (0 / 0). */
  function Average(xs: seq<real>): (r: Option<real>)
    ensures r.None? <==> xs == []
    ensures r.Some? ==> r.value * |xs| as real == Total(xs)
  {
    if xs == [] then None else Some(Total(xs) / |xs| as real)
  }

  /** The average of a non-empty series never exceeds its peak. */
  lemma AverageAtMostPeak(xs: seq<real>)
    requires xs != []
    ensures Average(xs).value <= Peak(xs).value
  {
    var p := Peak(xs).value;
    TotalAtMost(xs, p);
    var n := |xs| as real;
    assert Average(xs).value * n <= p * n;
  }

  /** The "Period Summary" panel. */
  datatype PeriodSummary = PeriodSummary(
    totalConsumption: real,
    averagePerHour: Option<real>,
    peakUsage: Option<real>,
    totalCost: real)

  /** Total, hourly average and peak consumption and total cost of the series;
      the average and the peak are undefined exactly when the series is empty. */
  function Summarize(data: seq<EnergyPoint>): (s: PeriodSummary)
    ensures s.totalConsumption == Total(Column(data, Consumption))
    ensures s.totalCost == Total(Column(data, Cost))
    ensures s.averagePerHour.None? <==> data == []
    ensures s.peakUsage.None? <==> data == []
    ensures s.averagePerHour.Some? ==> s.averagePerHour.value * |data| as real == s.totalConsumption
    ensures s.peakUsage.Some? ==> forall i :: 0 <= i < |data| ==> data[i].consumption <= s.peakUsage.value
    ensures s.peakUsage.Some? ==> exists i :: 0 <= i < |data| && data[i].consumption == s.peakUsage.value
    ensures data != [] ==> s.averagePerHour.value <= s.peakUsage.value
  {
    var consumption := Column(data, Consumption);
    SummaryFacts(data);
    PeakOfColumn(data);
    PeriodSummary(Total(consumption), Average(consumption), Peak(consumption), SumOf(data, Cost))
  }

  /** The facts `Summarize` promises, about the average and peak of the
      consumption column. */
  lemma SummaryFacts(data: seq<EnergyPoint>)
    ensures var avg, peak := Average(Column(data, Consumption)), Peak(Column(data, Consumption));
      && (avg.None? <==> data == [])
      && (peak.None? <==> data == [])
      && (avg.Some? ==> avg.value * |data| as real == Total(Column(data, Consumption)))
      && (data != [] ==> avg.value <= peak.value)
  {
    var consumption := Column(data, Consumption);
    if data != [] {
      AverageAtMostPeak(consumption);
    }
  }

  /** The peak of the consumption column, read back in terms of the series. */
  lemma PeakOfColumn(data: seq<EnergyPoint>)
    ensures var p := Peak(Column(data, Consumption));
      p.Some? ==> forall i :: 0 <= i < |data| ==> data[i].consumption <= p.value
    ensures var p := Peak(Column(data, Consumption));
      p.Some? ==> exists i :: 0 <= i < |data| && data[i].consumption == p.value
  {
    var consumption := Column(data, Consumption);
    var p := Peak(consumption);
    if p.Some? {
      forall i | 0 <= i < |data|
        ensures data[i].consumption <= p.value
      {
        assert consumption[i] == data[i].consumption;
      }
      var k :| 0 <= k < |consumption| && consumption[k] == p.value;
      assert data[k].consumption == p.value;
    }
  }

  // ---------------------------------------------------------------------------
  // The report record
  // ---------------------------------------------------------------------------

  const ReportTitle: string := "Advanced Analytics Report"

  const FixedRecommendations: seq<string> := [
    "Optimize energy usage during peak hours (2-6 PM) to reduce costs by 15%.",
    "Consider installing smart thermostats to improve efficiency by 12%.",
    "Implement demand response programs to earn $200+ monthly credits."
  ]

  /** The three headline metrics, built from the series sums in the fixed order
      Consumption, Cost, CO2; trends (5.2, -3.1, -8.7) are attached only when the
      record is built for an export. */
  function HeadlineMetrics(data: seq<EnergyPoint>, withTrends: bool): (ms: seq<ReportMetric>)
    ensures |ms| == 3
    ensures forall i :: 0 <= i < 3 ==> ms[i].name == HeadlineLabels[i]
    ensures ms[0].value == Fixed(SumOf(data, Consumption), 1, false) && ms[0].unit == "kWh"
    ensures ms[1].value == Fixed(SumOf(data, Cost), 2, true) && ms[1].unit == ""
    ensures ms[2].value == Fixed(SumOf(data, Co2Emissions), 1, false) && ms[2].unit == "kg"
    ensures forall i :: 0 <= i < 3 ==> (ms[i].trend.Some? <==> withTrends)
  {
    [ ReportMetric(ConsumptionLabel, Fixed(SumOf(data, Consumption), 1, false), "kWh",
                   if withTrends then Some(5.2) else None),
      ReportMetric(CostLabel, Fixed(SumOf(data, Cost), 2, true), "",
                   if withTrends then Some(-3.1) else None),
      ReportMetric(EmissionsLabel, Fixed(SumOf(data, Co2Emissions), 1, false), "kg",
                   if withTrends then Some(-8.7) else None) ]
  }

  /** The record `handleExport` builds (lines 48-61), `generatedAt` read from the clock then. */
  function ExportReport(data: seq<EnergyPoint>, clock: string): (r: ReportData)
    ensures r.title == ReportTitle && r.generatedAt == clock
    ensures r.metrics == HeadlineMetrics(data, true)
    ensures forall i :: 0 <= i < |r.metrics| ==> r.metrics[i].name == HeadlineLabels[i] && r.metrics[i].trend.Some?
    ensures r.recommendations == Some(FixedRecommendations)
  {
    ReportData(ReportTitle, clock, HeadlineMetrics(data, true), Some(FixedRecommendations))
  }

  /** The record handed to the off-screen template at render time (lines 91-104). */
  function TemplateReport(data: seq<EnergyPoint>, clock: string): (r: ReportData)
    ensures r.title == ReportTitle && r.generatedAt == clock
    ensures r.metrics == HeadlineMetrics(data, false)
    ensures forall i :: 0 <= i < |r.metrics| ==> r.metrics[i].name == HeadlineLabels[i] && r.metrics[i].trend.None?
    ensures r.recommendations == Some(FixedRecommendations)
  {
    ReportData(ReportTitle, clock, HeadlineMetrics(data, false), Some(FixedRecommendations))
  }

  /** The exported record and the rendered one agree on everything but the trends
      and the clock reading: same title, labels, values, units and recommendations. */
  lemma ExportAndTemplateAgree(data: seq<EnergyPoint>, c1: string, c2: string)
    ensures ExportReport(data, c1).title == TemplateReport(data, c2).title
    ensures ExportReport(data, c1).recommendations == TemplateReport(data, c2).recommendations
    ensures |ExportReport(data, c1).metrics| == |TemplateReport(data, c2).metrics| == 3
    ensures forall i :: 0 <= i < 3 ==>
      var e, t := ExportReport(data, c1).metrics[i], TemplateReport(data, c2).metrics[i];
      e.name == t.name && e.value == t.value && e.unit == t.unit
  {
  }

  /** The headline labels are pairwise distinct, so a lookup by label is unambiguous. */
  lemma HeadlineLabelsDistinct()
    ensures forall i, j :: 0 <= i < j < |HeadlineLabels| ==> HeadlineLabels[i] != HeadlineLabels[j]
  {
    assert ConsumptionLabel[0] != CostLabel[6];
    assert |ConsumptionLabel| != |EmissionsLabel|;
    assert CostLabel[0] != EmissionsLabel[0];
  }

  /** The metrics the page builds are exactly what the template's card grid finds:
      each card shows the sum of its column with the page's unit, whatever the
      clock and whether or not trends are attached. */
  lemma CardsShowBuiltSums(data: seq<EnergyPoint>, withTrends: bool)
    ensures Template.HeadlineCards(HeadlineMetrics(data, withTrends)) == [
      Template.MetricCard(ConsumptionLabel, Some(Fixed(SumOf(data, Consumption), 1, false)), Some("kWh")),
      Template.MetricCard(CostLabel, Some(Fixed(SumOf(data, Cost), 2, true)), Some("")),
      Template.MetricCard(EmissionsLabel, Some(Fixed(SumOf(data, Co2Emissions), 1, false)), Some("kg"))]
  {
    var ms := HeadlineMetrics(data, withTrends);
    HeadlineLabelsDistinct();
    assert Template.DistinctNames(ms);
    Template.FindMetricByName(ms, 0);
    Template.FindMetricByName(ms, 1);
    Template.FindMetricByName(ms, 2);
  }

  // ---------------------------------------------------------------------------
  // The PDF: page geometry and file name
  // ---------------------------------------------------------------------------

  /** Canvas dimensions in device pixels: always positive. */
  type Pixels = n: int | n > 0 witness 1

  /** Where `pdf.addImage` puts the raster: `(x, y, width, height)` in millimetres. */
  datatype Placement = Placement(x: real, y: real, width: real, height: real)

  /** The raster spans the full page width from the top-left corner, its height
      scaled so that the aspect ratio of the canvas is kept (lines 70-72). */
  function ImagePlacement(canvasWidth: Pixels, canvasHeight: Pixels): (p: Placement)
    ensures p.x == 0.0 && p.y == 0.0 && p.width == PageWidthMm
    ensures p.height * canvasWidth as real == canvasHeight as real * p.width
    ensures p.height > 0.0
  {
    Placement(0.0, 0.0, PageWidthMm, (canvasHeight as real * PageWidthMm) / canvasWidth as real)
  }

  /** The template is laid out one A4 page wide and at least one page tall.  A
      canvas captured from it at any uniform pixel density is placed exactly as
      tall as the layout, so the image covers the whole PDF page. */
  lemma CapturedTemplateCoversPage(canvasWidth: Pixels, canvasHeight: Pixels, pxPerMm: real, layoutHeightMm: real)
    requires pxPerMm > 0.0
    requires canvasWidth as real == PageWidthMm * pxPerMm
    requires canvasHeight as real == layoutHeightMm * pxPerMm
    requires layoutHeightMm >= PageHeightMm
    ensures ImagePlacement(canvasWidth, canvasHeight).height == layoutHeightMm
    ensures ImagePlacement(canvasWidth, canvasHeight).height >= PageHeightMm
  {
    var p := ImagePlacement(canvasWidth, canvasHeight);
    assert p.height * (PageWidthMm * pxPerMm) == (layoutHeightMm * pxPerMm) * PageWidthMm;
    assert (p.height - layoutHeightMm) * (PageWidthMm * pxPerMm) == 0.0;
  }

  /** `iso.split('T')[0]`: the text before the first `'T'`, or all of it when
      there is none. */
  function DatePart(iso: string): (d: string)
    ensures d <= iso
    ensures 'T' !in d
    ensures |d| < |iso| ==> iso[|d|] == 'T'
  {
    if iso == [] || iso[0] == 'T' then [] else [iso[0]] + DatePart(iso[1..])
  }

  const FileNamePrefix: string := "EcoFlow_Analytics_Report_"
  const FileNameSuffix: string := ".pdf"

  /** The name `pdf.save` is given: from the wall clock when the PDF is saved. */
  function PdfFileName(saveClock: string): (name: string)
    ensures name == FileNamePrefix + DatePart(saveClock) + FileNameSuffix
    ensures |name| == |FileNamePrefix| + |DatePart(saveClock)| + |FileNameSuffix|
  {
    FileNamePrefix + DatePart(saveClock) + FileNameSuffix
  }

  /** For a `toISOString()` timestamp `<date>T<time>` the file name carries the
      date, e.g. `EcoFlow_Analytics_Report_2024-01-15.pdf` for a save on 15 January
      2024. */
  lemma PdfFileNameOfTimestamp(date: string, time: string)
    requires 'T' !in date
    ensures PdfFileName(date + "T" + time) == "EcoFlow_Analytics_Report_" + date + ".pdf"
  {
    var iso := date + "T" + time;
    assert iso[..|date|] == date;
    var d := DatePart(iso);
    assert forall i :: 0 <= i < |date| ==> iso[i] == date[i];
    assert iso[|date|] == 'T';
    assert d == date;
  }

  // ---------------------------------------------------------------------------
  // handleExport
  // ---------------------------------------------------------------------------

  datatype ExportFormat = Pdf | Excel | Csv | Save

  /** What `html2canvas` produced: a canvas, or a rejection. */
  datatype Capture = Captured(width: Pixels, height: Pixels) | CaptureFailed

  /** The three reporting-service calls, each with the record it is given. */
  datatype ServiceCall =
    | ExportToExcel(report: ReportData)
    | ExportToCsv(report: ReportData)
    | SaveReport(report: ReportData)

  /** What one run of the export leaves behind outside the page state. */
  datatype Effect =
    | NoArtifact
    | PdfSaved(fileName: string, image: Placement)
    | ServiceCalled(call: ServiceCall)

  /** The effect, and whether an error was caught and logged (lines 83-84). */
  datatype RunResult = RunResult(effect: Effect, errorLogged: bool)

  /** Everything a run reads from outside the page state: the series, the clock
      when the record is built and when the PDF is saved, whether the template
      element is mounted (`reportTemplateRef.current`), what the capture produced,
      and how the service call resolved. */
  datatype Environment = Environment(
    data: seq<EnergyPoint>,
    buildClock: string,
    templateMounted: bool,
    capture: Capture,
    saveClock: string,
    service: Outcome)

  /** The `switch` of lines 77-81: one call per non-PDF format. */
  function ServiceCallFor(format: ExportFormat, report: ReportData): (c: ServiceCall)
    requires format != Pdf
    ensures c.report == report
    ensures c.ExportToExcel? <==> format == Excel
    ensures c.ExportToCsv? <==> format == Csv
    ensures c.SaveReport? <==> format == Save
  {
    match format
    case Excel => ExportToExcel(report)
    case Csv => ExportToCsv(report)
    case Save => SaveReport(report)
  }

  /** The body of `handleExport` after the pause (lines 47-84), as a function of
      the format and the environment. */
  function RunExport(format: ExportFormat, env: Environment): (r: RunResult)
    // A PDF is saved only when the template is mounted and the capture succeeds.
    ensures r.effect.PdfSaved? <==> format == Pdf && env.templateMounted && env.capture.Captured?
    // A missing template element is no error: nothing happens.
    ensures format == Pdf && !env.templateMounted ==> r == RunResult(NoArtifact, false)
    // Every other format dispatches exactly one service call, with the export record.
    ensures r.effect.ServiceCalled? <==> format != Pdf
    ensures format != Pdf ==> r.effect.call == ServiceCallFor(format, ExportReport(env.data, env.buildClock))
    // Errors are caught and logged: a failed capture or a failed service call.
    ensures r.errorLogged <==>
      (format == Pdf && env.templateMounted && env.capture.CaptureFailed?) ||
      (format != Pdf && env.service == Failed)
    // The file name comes from the save-time clock, not from the record.
    ensures r.effect.PdfSaved? ==>
      r.effect.fileName == PdfFileName(env.saveClock) &&
      r.effect.image == ImagePlacement(env.capture.width, env.capture.height)
  {
    if format == Pdf then
      if !env.templateMounted then RunResult(NoArtifact, false)
      else
        match env.capture
        case CaptureFailed => RunResult(NoArtifact, true)
        case Captured(w, h) => RunResult(PdfSaved(PdfFileName(env.saveClock), ImagePlacement(w, h)), false)
    else
      RunResult(ServiceCalled(ServiceCallFor(format, ExportReport(env.data, env.buildClock))), env.service == Failed)
  }

  /** The file name of a saved PDF depends on the save-time clock only: two runs
      that differ in the clock reading at build time save under the same name. */
  lemma PdfNameIgnoresBuildClock(env: Environment, otherBuildClock: string)
    requires env.templateMounted && env.capture.Captured?
    ensures RunExport(Pdf, env) == RunExport(Pdf, env.(buildClock := otherBuildClock))
    ensures RunExport(Pdf, env).effect.fileName == PdfFileName(env.saveClock)
  {
  }

  // ---------------------------------------------------------------------------
  // The export menu
  // ---------------------------------------------------------------------------

  /** The menu entries, top to bottom (lines 132-147). */
  const MenuOrder: seq<ExportFormat> := [Save, Pdf, Excel, Csv]

  function IdleLabel(entry: ExportFormat): string
  {
    match entry
    case Save => "Save Report"
    case Pdf => "Export as PDF"
    case Excel => "Export as Excel"
    case Csv => "Export as CSV"
  }

  function BusyLabel(entry: ExportFormat): string
  {
    if entry == Save then "Saving..." else "Exporting..."
  }

  /** How one entry is shown: spinner or icon, its text, and whether it is disabled. */
  datatype EntryView = EntryView(spinner: bool, text: string, disabled: bool)

  /** Every entry is disabled while any export is running (`!!isExporting`); only the
      entry of the running format shows the spinner and its busy text. */
  function MenuEntry(entry: ExportFormat, isExporting: Option<ExportFormat>): (v: EntryView)
    ensures v.disabled <==> isExporting.Some?
    ensures v.spinner <==> isExporting == Some(entry)
    ensures v.text == BusyLabel(entry) <==> isExporting == Some(entry)
    ensures v.text == IdleLabel(entry) <==> isExporting != Some(entry)
    ensures v.spinner ==> v.disabled
  {
    var mine := isExporting == Some(entry);
    EntryView(mine, if mine then BusyLabel(entry) else IdleLabel(entry), isExporting.Some?)
  }

  /** The open menu, entry by entry in `MenuOrder`; nothing while it is closed. */
  function Menu(isExporting: Option<ExportFormat>, isExportMenuOpen: bool): (entries: seq<EntryView>)
    ensures !isExportMenuOpen ==> entries == []
    ensures isExportMenuOpen ==> |entries| == |MenuOrder|
    ensures isExportMenuOpen ==>
              forall i :: 0 <= i < |entries| ==> entries[i] == MenuEntry(MenuOrder[i], isExporting)
  {
    if isExportMenuOpen then
      seq(|MenuOrder|, i requires 0 <= i < |MenuOrder| => MenuEntry(MenuOrder[i], isExporting))
    else []
  }

  /** Every format has exactly one entry, so in the open menu at most one entry
      spins, and while an export runs exactly one does and all are disabled. */
  lemma MenuShowsOneSpinner(isExporting: Option<ExportFormat>)
    ensures var m := Menu(isExporting, true);
      forall i, j :: 0 <= i < j < |m| ==> !(m[i].spinner && m[j].spinner)
    ensures var m := Menu(isExporting, true);
      isExporting.Some? ==> (exists i :: 0 <= i < |m| && m[i].spinner) &&
                            forall i :: 0 <= i < |m| ==> m[i].disabled
  {
    var m := Menu(isExporting, true);
    if isExporting.Some? {
      var k := match isExporting.value case Save => 0 case Pdf => 1 case Excel => 2 case Csv => 3;
      assert m[k].spinner;
    }
  }

  /** The page's own state: `isExporting` (`format | null`) and `isExportMenuOpen`. */
  class AnalyticsPage {
    var isExporting: Option<ExportFormat>
    var isExportMenuOpen: bool

    /** Initial state (lines 20-21): idle, menu closed. */
    constructor ()
      ensures isExporting == None && !isExportMenuOpen
    {
      isExporting := None;
      isExportMenuOpen := false;
    }

    /** The Export / Save button (line 124) toggles the menu; it is never disabled. */
    method ToggleExportMenu()
      modifies this`isExportMenuOpen
      ensures isExportMenuOpen == !old(isExportMenuOpen)
    {
      isExportMenuOpen := !isExportMenuOpen;
    }

    /** The part of `handleExport` before its first `await` (lines 40-42): record
        the format and close the menu.  There is no check that another export is
        already running. */
    method BeginExport(format: ExportFormat)
      modifies this
      ensures isExporting == Some(format) && !isExportMenuOpen
    {
      isExporting := Some(format);
      isExportMenuOpen := false;
    }

    /** The rest of `handleExport` (lines 47-87): run the export, catch any error,
        and in `finally` go back to idle.  The menu flag is not touched. */
    method FinishExport(format: ExportFormat, env: Environment) returns (r: RunResult)
      modifies this`isExporting
      ensures r == RunExport(format, env)
      ensures isExporting == None
    {
      r := RunExport(format, env);
      isExporting := None;
    }

    /** One whole `handleExport` run with no other handler in between: while the
        work runs the page shows the format as busy with the menu closed; afterwards
        it is idle again, whether the run succeeded or an error was caught. */
    method HandleExport(format: ExportFormat, env: Environment)
      returns (r: RunResult, busyDuringRun: Option<ExportFormat>, menuOpenDuringRun: bool)
      modifies this
      ensures busyDuringRun == Some(format) && !menuOpenDuringRun
      ensures r == RunExport(format, env)
      ensures isExporting == None && !isExportMenuOpen
    {
      BeginExport(format);
      busyDuringRun, menuOpenDuringRun := isExporting, isExportMenuOpen;
      r := FinishExport(format, env);
    }

    /** Clicking a menu entry: the entries exist only while the menu is open and
        are disabled while any export is running, so only then does the click
        start an export. */
    method ClickMenuEntry(format: ExportFormat) returns (started: bool)
      modifies this
      ensures started <==> old(isExportMenuOpen) && !MenuEntry(format, old(isExporting)).disabled
      ensures old(isExporting).Some? ==> !started
      ensures started ==> isExporting == Some(format) && !isExportMenuOpen
      ensures !started ==> isExporting == old(isExporting) && isExportMenuOpen == old(isExportMenuOpen)
    {
      started := isExportMenuOpen && !MenuEntry(format, isExporting).disabled;
      if started {
        BeginExport(format);
      }
    }
  }

  /** `handleExport` itself rejects nothing: a second trigger while a PDF export is
      running takes over `isExporting`, and when the first run finishes the page
      reads idle although the second run is still going. */
  method SecondTriggerIsNotRejected(first: Environment, second: Environment)
    returns (afterSecondTrigger: Option<ExportFormat>, afterFirstFinish: Option<ExportFormat>,
             r1: RunResult, r2: RunResult)
    ensures afterSecondTrigger == Some(Csv)
    ensures afterFirstFinish == None
    ensures r1 == RunExport(Pdf, first) && r2 == RunExport(Csv, second)
  {
    var page := new AnalyticsPage();
    page.BeginExport(Pdf);
    page.BeginExport(Csv);
    afterSecondTrigger := page.isExporting;
    r1 := page.FinishExport(Pdf, first);
    afterFirstFinish := page.isExporting;
    r2 := page.FinishExport(Csv, second);
  }
}
