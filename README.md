# EcoFlow energy dashboard: rules and state machines

This project is a Dafny model of the logic inside the EcoFlow energy-optimisation
dashboard, a React application. The rest of the application is presentation.

- **Analytics page.** The period summary (total, hourly average, peak, total cost).
  The three headline report metrics built from sums over the energy series. The PDF
  image geometry and file name. The export state machine behind the "Export / Save"
  menu: `isExporting` and `isExportMenuOpen`, driven by `handleExport`.
- **Analytics report template.** Headline metrics are looked up by exact label.
  Cards appear in a fixed order. Recommendations are listed in order on one
  A4-wide page.
- **ESG page.** The report-type selector and its heading. Two independent busy
  flags for "Generate Report" and "Share Report".
- **ESG report template.** Each pillar score is the unweighted mean of three
  sub-scores. The score ring has a dash offset. Certifications and improvement
  areas are listed in order.
- **Marketplace.** The catalogue and the category filter. Three comparator sorts,
  modelled as the stable sort that ECMA-262 (10th edition, section 22.1.3.27)
  requires. Currency abbreviation. The product card's add-to-cart rules. The
  append-only cart.
- **Navigation.** The route table with its catch-all redirect to `/`. The
  sidebar's exact-path highlighting and its collapsed mode. The bottom bar's split
  into four bar links and a five-link "More" panel, with the panel's open/closed
  state.

## How the model is built

One Dafny module per source file:

| source file | module | Dafny file |
|---|---|---|
| `src/pages/Analytics.tsx` | `Analytics` | `analytics.dfy` |
| `src/components/reports/AnalyticsReportTemplate.tsx` | `AnalyticsReportTemplate` | `analytics_report_template.dfy` |
| `src/pages/Sustainability.tsx` | `Sustainability` | `sustainability.dfy` |
| `src/components/reports/SustainabilityReportTemplate.tsx` | `SustainabilityReportTemplate` | `sustainability_report_template.dfy` |
| `src/pages/Marketplace.tsx` | `Marketplace` | `marketplace.dfy` |
| `src/App.tsx` | `AppRoutes` | `app_routes.dfy` |
| `src/components/Sidebar.tsx` | `Sidebar` | `sidebar.dfy` |
| `src/components/BottomNavbar.tsx` | `BottomNavbar` | `bottom_navbar.dfy` |

Shared pieces:

- `Common` holds the optional value, the outcome of an outside call, the keyed
  listing that `xs.map((x, index) => ...)` renders, and the navigation link.
- `Reports` holds the report records from the reporting service. That service's
  source is not part of this model.
- `StableSort` is the generic stable sort.

React state that the handlers update becomes a class:

- `Analytics.AnalyticsPage`
- `Sustainability.SustainabilityPage`
- `Marketplace.MarketplacePage`
- `BottomNavbar.BottomNavbarState`

Each `async` handler is split at its first `await`:

- `Begin*` is the synchronous prefix that sets the busy flag.
- `Finish*` is the rest, including `catch` and `finally`.

This makes the busy state between the two halves visible, and it makes the
interleaving of two triggers expressible.

Calls into code outside the model are abstract outcomes:

- `reportingService`, `html2canvas` and `jsPDF` become `Succeeded` or `Failed`, or
  a captured canvas size.
- Clock readings are string parameters.
- Whether the template element is mounted is a boolean.

Arithmetic is exact: `real` for amounts, and integer tenths for ratings.

Behaviour of the code worth knowing:

- `handleExport` has no single-flight guard and raises no concurrency error. A
  second trigger simply takes over `isExporting`
  (`Analytics.SecondTriggerIsNotRejected`). Only the disabled menu buttons keep
  this from happening.
- A PDF export with no template element mounted does nothing and logs nothing. It
  does not raise a render or encoding error.
- The PDF file name takes its date from a second clock reading at save time, not
  from the record's `generatedAt`.
- The record handed to the reporting service is the one built in `handleExport`.
  No CSV quoting or row layout is visible in the code.

## Model

| member | source | states |
|---|---|---|
| Common.ListingRoundTrip | src/components/reports/SustainabilityReportTemplate.tsx:97-99 | a keyed `map` listing shows every element exactly once, in input order, under pairwise-distinct keys |
| Analytics.Peak | src/pages/Analytics.tsx:220 | the peak is an element of the series and no element exceeds it; it is undefined exactly for the empty series |
| Analytics.Average | src/pages/Analytics.tsx:219 | average times length equals the series total; undefined exactly for the empty series (JavaScript's 0/0) |
| Analytics.AverageAtMostPeak | src/pages/Analytics.tsx:219-220 | on a non-empty series the hourly average never exceeds the peak |
| Analytics.TotalAppend | src/pages/Analytics.tsx:218 | the `reduce` sum of a concatenation is the sum of the sums |
| Analytics.SumOfSplit | src/pages/Analytics.tsx:52-54 | a column total over the series is the sum of the totals of any two consecutive periods it splits into |
| Analytics.TotalAtMost | src/pages/Analytics.tsx:218-220 | a total of n readings each at most b is at most n·b |
| Analytics.Summarize | src/pages/Analytics.tsx:218-221 | the Period Summary: consumption and cost totals, average·n = total, the peak is a reading that bounds every reading, average ≤ peak, average and peak undefined iff no data |
| Analytics.PeakOfColumn | src/pages/Analytics.tsx:220 | the peak of the consumption column is some point's consumption and no point's consumption exceeds it |
| Analytics.HeadlineMetrics | src/pages/Analytics.tsx:51-55 | three metrics in the fixed order Consumption, Cost, CO₂ with the canonical labels, the column sums as values (1, 2, 1 decimals, `$` on cost), units kWh, none, kg; trends present exactly for the export record |
| Analytics.ExportReport | src/pages/Analytics.tsx:48-61 | the exported record: the report title, `generatedAt` from the build-time clock, the three headline metrics in order with trends, and the fixed recommendations |
| Analytics.TemplateReport | src/pages/Analytics.tsx:91-104 | the record rendered off-screen: same title and recommendations, the clock at render time, the three headline metrics in order without trends |
| Analytics.ExportAndTemplateAgree | src/pages/Analytics.tsx:91-104 | the record rendered by the template and the exported record agree on title, labels, values, units and recommendations, whatever the clock |
| Analytics.HeadlineLabelsDistinct | src/pages/Analytics.tsx:52-54 | the three canonical labels are pairwise distinct |
| Analytics.CardsShowBuiltSums | src/pages/Analytics.tsx:109-112 | the template's card grid, fed the page's metrics, shows each column sum with its unit under its own heading |
| Analytics.ImagePlacement | src/pages/Analytics.tsx:70-72 | the raster is placed at (0,0), spans the A4 width and keeps the canvas's aspect ratio with a positive height |
| Analytics.CapturedTemplateCoversPage | src/pages/Analytics.tsx:67-72 | a capture of the A4-wide template at any uniform density is placed exactly as tall as the layout, hence at least one page tall |
| Analytics.DatePart | src/pages/Analytics.tsx:73 | `split('T')[0]` is a prefix of the timestamp containing no `T`, ended by the first `T` when there is one |
| Analytics.PdfFileName | src/pages/Analytics.tsx:73 | the file name is the product prefix, the save-time date part and `.pdf` |
| Analytics.PdfFileNameOfTimestamp | src/pages/Analytics.tsx:73 | for an ISO timestamp `<date>T<time>` the file name is `EcoFlow_Analytics_Report_<date>.pdf` |
| Analytics.ServiceCallFor | src/pages/Analytics.tsx:77-81 | each non-PDF format maps to exactly its own service call, carrying the record |
| Analytics.RunExport | src/pages/Analytics.tsx:47-84 | a PDF is saved iff the template is mounted and captured; a missing template yields nothing and no error; each other format makes exactly one service call; an error is logged iff the capture or the service call failed; the name comes from the save-time clock |
| Analytics.PdfNameIgnoresBuildClock | src/pages/Analytics.tsx:73 | the saved PDF and its name do not depend on the clock reading taken when the record is built |
| Analytics.MenuEntry | src/pages/Analytics.tsx:132-147 | every entry is disabled iff some export is running; only the running format's entry shows the spinner and its busy text, the others their idle text |
| Analytics.Menu | src/pages/Analytics.tsx:130-148 | while open, the four entries Save, PDF, Excel, CSV in that order, each shown as `MenuEntry` describes; nothing while closed |
| Analytics.MenuShowsOneSpinner | src/pages/Analytics.tsx:132-147 | at most one entry spins; while an export runs exactly one spins and all are disabled |
| Analytics.AnalyticsPage.constructor | src/pages/Analytics.tsx:20-21 | the page starts idle with the menu closed |
| Analytics.AnalyticsPage.ToggleExportMenu | src/pages/Analytics.tsx:124 | the Export / Save button flips the menu |
| Analytics.AnalyticsPage.BeginExport | src/pages/Analytics.tsx:40-42 | before any work the requested format is recorded as running and the menu is closed; nothing is rejected |
| Analytics.AnalyticsPage.FinishExport | src/pages/Analytics.tsx:47-87 | the run's effect is `RunExport`'s and afterwards the page is idle, on success and on a caught failure alike |
| Analytics.AnalyticsPage.HandleExport | src/pages/Analytics.tsx:40-87 | during the run the format shows as busy with the menu closed; afterwards the page is idle with the menu closed |
| Analytics.AnalyticsPage.ClickMenuEntry | src/pages/Analytics.tsx:130-147 | a click starts an export iff the menu is open and no export is running; otherwise nothing changes |
| Analytics.SecondTriggerIsNotRejected | src/pages/Analytics.tsx:40-42 | a second trigger during a PDF export overwrites `isExporting`, and the first run's `finally` then shows idle while the second still runs |
| AnalyticsReportTemplate.FirstWithName | src/components/reports/AnalyticsReportTemplate.tsx:29-31 | the index of the first metric with exactly the wanted label, or the length when none has it |
| AnalyticsReportTemplate.FindMetric | src/components/reports/AnalyticsReportTemplate.tsx:29-31 | the lookup is undefined iff no metric carries the label; otherwise it is the first metric with exactly that label |
| AnalyticsReportTemplate.FindMetricByName | src/components/reports/AnalyticsReportTemplate.tsx:29-31 | with distinct labels, looking up any metric's label finds that metric |
| AnalyticsReportTemplate.CardFor | src/components/reports/AnalyticsReportTemplate.tsx:29-31 | a card keeps its fixed heading and shows the value and unit of the first metric with that label, both undefined iff none has it |
| AnalyticsReportTemplate.HeadlineCards | src/components/reports/AnalyticsReportTemplate.tsx:63-65 | the grid is Consumption, Cost, CO₂ in that order |
| AnalyticsReportTemplate.CardsIgnoreMetricOrder | src/components/reports/AnalyticsReportTemplate.tsx:29-31 | reordering metrics with distinct labels does not change the grid |
| AnalyticsReportTemplate.Render | src/components/reports/AnalyticsReportTemplate.tsx:36-96 | one page 210 mm wide and at least 297 mm tall, footed "Page 1 of 1", title and timestamp from the record, the fixed grid, and each recommendation once in order (none when absent) |
| SustainabilityReportTemplate.Mean3 | src/components/reports/SustainabilityReportTemplate.tsx:37-39 | the mean times three is the sum, and it lies between the smallest and the largest sub-score |
| SustainabilityReportTemplate.EnvironmentalScore | src/components/reports/SustainabilityReportTemplate.tsx:37 | `eScore` is the unweighted mean of carbon reduction, renewable usage and waste reduction, between their least and greatest |
| SustainabilityReportTemplate.SocialScore | src/components/reports/SustainabilityReportTemplate.tsx:38 | `sScore` is the unweighted mean of community impact, health benefits and education programs, between their least and greatest |
| SustainabilityReportTemplate.GovernanceScore | src/components/reports/SustainabilityReportTemplate.tsx:39 | `gScore` is the unweighted mean of transparency, compliance rating and ethics, between their least and greatest |
| SustainabilityReportTemplate.PillarScoresArePercentages | src/components/reports/SustainabilityReportTemplate.tsx:37-39 | sub-scores in [0,100] give pillar scores in [0,100] |
| SustainabilityReportTemplate.DashOffset | src/components/reports/SustainabilityReportTemplate.tsx:23-24 | the drawn arc is score percent of the circle: offset 0 at 100, the full circumference at 0, within [0, C] for percentages |
| SustainabilityReportTemplate.DashOffsetDecreasing | src/components/reports/SustainabilityReportTemplate.tsx:24 | a higher score never leaves more of the ring undrawn |
| SustainabilityReportTemplate.EnvironmentalCard | src/components/reports/SustainabilityReportTemplate.tsx:76-79 | the Environmental card's ring shows `eScore` over three percent rows: carbon reduction, renewable usage, waste reduction |
| SustainabilityReportTemplate.SocialCard | src/components/reports/SustainabilityReportTemplate.tsx:81-84 | the Social card's ring shows `sScore` over two percent rows and the job count without unit |
| SustainabilityReportTemplate.GovernanceCard | src/components/reports/SustainabilityReportTemplate.tsx:86-89 | the Governance card's ring shows `gScore` over three percent rows: transparency, compliance rating, ethics |
| SustainabilityReportTemplate.ShownRowsAveraged | src/components/reports/SustainabilityReportTemplate.tsx:78-89 | the environmental and governance rings are the mean of the three rows shown beneath them |
| SustainabilityReportTemplate.SocialRingDiffersFromRows | src/components/reports/SustainabilityReportTemplate.tsx:83-84 | the social ring ignores the shown `jobsCreated` row and depends on the unshown `educationPrograms` |
| SustainabilityReportTemplate.Render | src/components/reports/SustainabilityReportTemplate.tsx:43-117 | one A4-wide page headed by the record's company, period, overall score, ranking and timestamp; exactly the Environmental, Social and Governance cards in that order; every certification and improvement area once, in order |
| Sustainability.FindType | src/pages/Sustainability.tsx:281 | `find` yields the first entry with the id, undefined iff there is none |
| Sustainability.ReportHeading | src/pages/Sustainability.tsx:281 | the heading is the caption of the selected type's entry followed by " Report"; every selection has an entry |
| Sustainability.ReportHeadingInjective | src/pages/Sustainability.tsx:11-16 | different selections show different headings |
| Sustainability.GenerateButton | src/pages/Sustainability.tsx:293-295 | disabled iff generating; text "Generating..." or "Generate Report" by the flag |
| Sustainability.ShareButton | src/pages/Sustainability.tsx:297-299 | disabled iff sharing; text "Creating Card..." or "Share Report" by the flag |
| Sustainability.SustainabilityPage.constructor | src/pages/Sustainability.tsx:7-9 | the page starts on the ESG overview with both flags clear |
| Sustainability.SustainabilityPage.SelectReport | src/pages/Sustainability.tsx:262 | a type button selects its type and touches nothing else |
| Sustainability.SustainabilityPage.BeginGenerate | src/pages/Sustainability.tsx:18-19 | `isGenerating` is set before the service is called; `isSharing` is untouched |
| Sustainability.SustainabilityPage.FinishGenerate | src/pages/Sustainability.tsx:25-29 | `isGenerating` is clear afterwards whether the call resolved or was rejected, and an error is logged iff it was rejected |
| Sustainability.SustainabilityPage.BeginShare | src/pages/Sustainability.tsx:32-33 | `isSharing` is set before the service is called; `isGenerating` is untouched |
| Sustainability.SustainabilityPage.FinishShare | src/pages/Sustainability.tsx:38-42 | `isSharing` is clear afterwards on both exits, with an error logged iff the call was rejected |
| Sustainability.SustainabilityPage.GenerateReport | src/pages/Sustainability.tsx:18-30 | busy during the service call, idle afterwards on every exit |
| Sustainability.SustainabilityPage.ShareReport | src/pages/Sustainability.tsx:32-43 | busy during the service call, idle afterwards on every exit |
| Sustainability.SustainabilityPage.ClickGenerate | src/pages/Sustainability.tsx:293 | a click starts generating iff the button was enabled |
| Sustainability.SustainabilityPage.ClickShare | src/pages/Sustainability.tsx:297 | a click starts sharing iff the button was enabled |
| Sustainability.GenerateAndShareOverlap | src/pages/Sustainability.tsx:18-43 | both flags can be set at once, and generating finishing leaves sharing busy |
| StableSort.Insert | src/pages/Marketplace.tsx:278-285 | inserting into a sorted sequence keeps it sorted and adds exactly the one element |
| StableSort.Sort | src/pages/Marketplace.tsx:278-285 | the result is sorted by the key and is a permutation of the input |
| StableSort.InsertKeepsGroups | src/pages/Marketplace.tsx:278-285 | insertion places the element at the head of its key group and leaves every group's order intact |
| StableSort.SortIsStable | src/pages/Marketplace.tsx:278-285 | elements with equal keys keep their input order |
| StableSort.SameGroupsSortedEqual | src/pages/Marketplace.tsx:278-285 | two key-sorted sequences with the same key groups in the same orders are equal |
| StableSort.SortedStableIsUnique | src/pages/Marketplace.tsx:278-285 | any sorted, order-keeping arrangement of the input is `Sort`'s result, so sorting is fully determined by the stability requirement |
| Marketplace.CatalogueIdsDistinct | src/pages/Marketplace.tsx:29-138 | the six catalogue ids are pairwise distinct |
| Marketplace.FilterCategory | src/pages/Marketplace.tsx:275-277 | "all" keeps every item; any other value keeps exactly the items of that category, each as often as before |
| Marketplace.FilterCategoryAppend | src/pages/Marketplace.tsx:275-277 | filtering keeps input order: the filter of a concatenation is the concatenation of the filters |
| Marketplace.FilterCategorySingle | src/pages/Marketplace.tsx:275-277 | a single item is kept exactly when it is of the selected category or the selection is "all" |
| Marketplace.CategoryFiltersCoverCategories | src/pages/Marketplace.tsx:140-146 | five buttons: "all" first, then one per category in a fixed order, with pairwise-distinct ids |
| Marketplace.CategoryIdsDistinct | src/pages/Marketplace.tsx:140-146 | the four category ids differ from each other and from "all" |
| Marketplace.CompareIsKeyDifference | src/pages/Marketplace.tsx:279-283 | each comparator is a key difference (price up, rating down, savings down), hence consistent |
| Marketplace.FilteredItems | src/pages/Marketplace.tsx:274-286 | a permutation of the filtered items that the comparator never finds out of order: ascending price, or descending rating or savings |
| Marketplace.FilteredItemsStable | src/pages/Marketplace.tsx:278-285 | items the comparator ties keep their catalogue order |
| Marketplace.FilteredItemsDetermined | src/pages/Marketplace.tsx:278-285 | any comparator-ordered, tie-stable arrangement of the filtered items is the one shown |
| Marketplace.RoundHalfAway | src/pages/Marketplace.tsx:149-151 | `toFixed` on an exact value lands within half a unit, a tie going away from zero |
| Marketplace.FormatCurrencyAsWritten | src/pages/Marketplace.tsx:148-152 | the code's tiers: M iff ≥ 1,000,000, K iff in [1,000, 1,000,000), no suffix below; the number is the nearest in the tier's unit |
| Marketplace.AsWrittenOverflowsTier | src/pages/Marketplace.tsx:149-151 | values in [999,950, 1,000,000) show "1000.0K" and values in [999.5, 1000) show "1000" |
| Marketplace.DigitsRoundTrip | src/pages/Marketplace.tsx:149-151 | the decimal numeral `toFixed` writes reads back as the number written |
| Marketplace.CurrencyText | src/pages/Marketplace.tsx:148-152 | every formatted amount starts with `$` and ends with its tier's suffix |
| Marketplace.AsWrittenOverflowText | src/pages/Marketplace.tsx:149-151 | the code's text in the two bands is exactly "$1000.0K" and "$1000" |
| Marketplace.FormatCurrency | src/pages/Marketplace.tsx:148-152 | the tier chosen on the rounded value: still the nearest in its unit, K numbers in 1.0..999.9, unit numbers below 1000, M numbers at least 1.0 |
| Marketplace.FormatCurrencyAgreesOffBoundary | src/pages/Marketplace.tsx:148-152 | outside the two boundary bands the corrected formatter gives exactly the code's result |
| Marketplace.AsWrittenWithinTierIff | src/pages/Marketplace.tsx:148-152 | the code's number stays inside its tier iff the value is outside the two boundary bands |
| Marketplace.ProductCard | src/pages/Marketplace.tsx:175-257 | enabled iff in stock and not in the cart; "Added" over "Add to Cart" over "Out of Stock"; savings and CO₂ panels iff positive; at most the first two features, in order; trending badge and out-of-stock overlay by their flags; price and savings formatted by the code's `formatCurrency` |
| Marketplace.EnabledIffAddText | src/pages/Marketplace.tsx:176-177 | the button is enabled exactly when it reads "Add to Cart", and an item in the cart always reads "Added" |
| Marketplace.MarketplacePage.constructor | src/pages/Marketplace.tsx:270-272 | the page starts on all categories, sorted by rating, with an empty cart |
| Marketplace.MarketplacePage.CartItemSet | src/pages/Marketplace.tsx:292 | an id is in the set iff it occurs in the cart |
| Marketplace.MarketplacePage.ShownItems | src/pages/Marketplace.tsx:274-367 | the grid shows exactly the catalogue items of the selected category, each once, in the selected sort order, items the comparator ties in catalogue order |
| Marketplace.MarketplacePage.CardOf | src/pages/Marketplace.tsx:365 | a card's button is enabled iff the item is in stock and its id is not in the cart |
| Marketplace.MarketplacePage.SelectCategory | src/pages/Marketplace.tsx:321 | a category button sets the filter |
| Marketplace.MarketplacePage.SelectSort | src/pages/Marketplace.tsx:333 | the selector sets the sort order |
| Marketplace.MarketplacePage.AddToCart | src/pages/Marketplace.tsx:288-290 | the id is appended at the end and earlier entries are unchanged |
| Marketplace.MarketplacePage.ClickAdd | src/pages/Marketplace.tsx:252-253 | a click adds the id iff the button was enabled, so a cart without repeats stays without repeats |
| AppRoutes.Lookup | src/App.tsx:24-32 | the page of the first route with exactly the path, undefined iff no route has it |
| AppRoutes.Match | src/App.tsx:24-36 | a declared path renders a page declared for it; any other path redirects to `/` |
| AppRoutes.RoutePathsDistinct | src/App.tsx:24-32 | the nine paths are pairwise distinct |
| AppRoutes.EachRouteRendersItsPage | src/App.tsx:24-32 | each declared path renders its own page |
| AppRoutes.HomeIsDeclared | src/App.tsx:24-36 | the redirect target `/` is itself declared and renders the dashboard |
| AppRoutes.Navigate | src/App.tsx:36 | every location reaches a page after at most one redirect; unknown paths reach the dashboard |
| Sidebar.ItemView | src/components/Sidebar.tsx:65-93 | a link is highlighted iff the location equals its path; its text shows inline iff expanded and as a tooltip iff collapsed |
| Sidebar.Render | src/components/Sidebar.tsx:44-117 | brand text iff expanded, one link per item in order, toggle labelled "Expand sidebar" when collapsed and "Collapse sidebar" otherwise |
| Sidebar.PathsAreRoutes | src/components/Sidebar.tsx:26-36 | the sidebar's paths are the route table's, in order, and each renders a page |
| Sidebar.OneActiveLink | src/components/Sidebar.tsx:67 | at most one link is highlighted, and on a declared route one is |
| Sidebar.ToggleLabelsDiffer | src/components/Sidebar.tsx:106 | on every page the toggle reads "Expand sidebar" when collapsed and "Collapse sidebar" when expanded, and the two differ |
| BottomNavbar.ItemRoute | src/components/BottomNavbar.tsx:9-19 | each bar item's path is a route table path |
| BottomNavbar.PathsAreRoutes | src/components/BottomNavbar.tsx:9-19 | every bar path is a declared route, and the nine paths are distinct |
| BottomNavbar.SplitPartitions | src/components/BottomNavbar.tsx:22-23 | four bar items and five panel items, together all nine in order, with no path in both |
| BottomNavbar.AnyLeadsTo | src/components/BottomNavbar.tsx:30 | `some` holds iff some item's path equals the location |
| BottomNavbar.IsMoreMenuActive | src/components/BottomNavbar.tsx:30 | holds iff the location is the path of a panel item |
| BottomNavbar.MoreActiveIffNotOnBar | src/components/BottomNavbar.tsx:22-30 | on any of the nine pages, "More" is active iff no bar link leads there |
| BottomNavbar.BarLinks | src/components/BottomNavbar.tsx:76-91 | the bar's four links, each highlighted iff the location equals its path, captioned by the item id |
| BottomNavbar.PanelLinks | src/components/BottomNavbar.tsx:52-69 | the panel's five links, each highlighted iff the location equals its path, captioned by the label |
| BottomNavbar.MoreActiveIffPanelLinkActive | src/components/BottomNavbar.tsx:30-53 | "More" is active iff some panel link is highlighted |
| BottomNavbar.BottomNavbarState.constructor | src/components/BottomNavbar.tsx:27 | the panel starts closed |
| BottomNavbar.BottomNavbarState.OverlayShown | src/components/BottomNavbar.tsx:39-44 | the overlay exists iff the panel is open |
| BottomNavbar.BottomNavbarState.MoreButtonHighlighted | src/components/BottomNavbar.tsx:98 | the More button is highlighted iff a panel page is shown or the panel is open |
| BottomNavbar.BottomNavbarState.ToggleMore | src/components/BottomNavbar.tsx:96 | the More button flips the panel |
| BottomNavbar.BottomNavbarState.ClickOverlay | src/components/BottomNavbar.tsx:39-43 | clicking the overlay closes the panel |
| BottomNavbar.BottomNavbarState.ClickPanelLink | src/components/BottomNavbar.tsx:52-58 | a panel link leads to its declared path and closes the panel |
| BottomNavbar.BottomNavbarState.ClickBarLink | src/components/BottomNavbar.tsx:76-82 | a bar link leads to its declared path; it has no click handler, so the panel stays as it was |

## Findings

| source | as written | input that shows it | evidently intended | confidence | as-written member | corrected member |
|---|---|---|---|---|---|---|
| src/pages/Marketplace.tsx:148-152 | `formatCurrency` picks the K/M tier on the unrounded value, then rounds with `toFixed` | 999999 shows "$1000.0K"; 999.6 shows "$1000" | choose the tier after rounding, so these show "$1.0M" and "$1.0K" | not executed | Marketplace.FormatCurrencyAsWritten, Marketplace.AsWrittenOverflowsTier | Marketplace.FormatCurrency |

The card model (`Marketplace.ProductCard`) formats as the code does, with
`FormatCurrencyAsWritten`; `Marketplace.AsWrittenOverflowText` gives the texts the
two bands produce. The catalogue's own prices and savings all lie outside the two
bands, so there the two formatters agree
(`Marketplace.FormatCurrencyAgreesOffBoundary`).

## Left out

- Rasterisation and PDF assembly. `html2canvas` and `jsPDF` are foreign libraries.
  A capture is abstract: a canvas size, or a failure.
- Analytics.RunExport: a single capture-failure outcome stands for a throw from any step of the PDF path (`html2canvas`, `toDataURL`, `new jsPDF`, `addImage`, `save`); the code logs them all alike, and the model does not say which step failed.
- Analytics.ImagePlacement: takes positive canvas dimensions. A zero-width capture, where line 71 would divide by zero and give `NaN` or `Infinity`, is not modelled.
- Analytics.ImagePlacement: uses the nominal ISO 216 width of 210 mm. jsPDF's A4
  width of 595.28 pt is 210.0016 mm, and floating-point division is not modelled.
- `reportingService`: its source is not part of this model. Each of its five calls
  (`exportToExcel`, `exportToCSV`, `saveReport`, `generateESGReport`,
  `createESGSummaryCard`) is an abstract outcome. No CSV quoting or spreadsheet
  layout is visible in the code, so none is modelled.
- Mock data (`generateEnergyData`, `mockPredictions`, `mockESGMetrics`): its source
  is not part of this model. The series is a parameter. The `esgData` literals in
  the ESG page's handlers are empty placeholders and are not modelled.
- Number and date text: `toFixed`, `toLocaleString` and `toLocaleDateString`.
  Values are exact reals with a decimals count. Marketplace.RoundHalfAway models
  `toFixed`'s rounding on exact values only. `toFixed`'s "-0" for small negative
  values is not modelled.
- Analytics.Total: JavaScript sums with binary floating point, and the model sums
  exactly.
- Analytics.Peak and Analytics.Average: the empty series gives `None` rather than
  JavaScript's `-Infinity` and `NaN`.
- The 100 ms pause before an export's work (`setTimeout`) is not modelled. The
  interleavings it allows are modelled through the `Begin*`/`Finish*` split.
- The document `mousedown` listener that closes the export menu on an outside click
  is left out. It only sets `isExportMenuOpen` to false.
- Star icons (`Math.round` on a float rating), `getCategoryStyles`, icons, CSS
  classes and SVG are presentation.
- The hard-coded pillar displays on the ESG page are presentation.
- SustainabilityReportTemplate.DashOffset: takes the circumference 2·π·54 as a
  parameter, because π is irrational.
- AppRoutes.Match: matches paths by exact equality. React Router's
  case-insensitive matching and trailing-slash tolerance are not modelled.
- `src/layouts/MainLayout.tsx` (it owns the sidebar's collapsed flag and negates it
  on toggle), `src/components/ThemeToggle.tsx` (it depends on a theme context that
  is not part of this model) and `tailwind.config.js` (static configuration) are
  not modelled.
- The charts, the time-frame, chart-type and metric selectors, and the AI
  predictions panel on the Analytics page are presentation of data that is not part
  of this model.
