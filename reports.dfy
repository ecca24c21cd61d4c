/** The record types that the pages hand to the report templates and to the
    reporting service (`ReportData`, `ReportMetric`, `ESGReportData`).  The service
    itself is not part of this model; only the shapes its callers build are. */
module Reports {
  import opened Common

  /** A metric value as the page builds it: the exact amount, the number of
      decimals `toFixed` is asked for, and whether a `$` is put in front. */
  datatype MetricValue = Fixed(amount: real, decimals: nat, dollarSign: bool)

  /** `{ label, value, unit, trend? }`; the label (here `name`, since `label` is a Dafny keyword) is the lookup key. */
  datatype ReportMetric = ReportMetric(name: string, value: MetricValue, unit: string, trend: Option<real>)

  /** `{ title, generatedAt, metrics, recommendations? }`; `generatedAt` is an ISO-8601
      timestamp string read from the clock when the record is built. */
  datatype ReportData = ReportData(
    title: string,
    generatedAt: string,
    metrics: seq<ReportMetric>,
    recommendations: Option<seq<string>>)

  /** Width and height of an ISO 216 A4 page in millimetres (portrait): the width of
      both report templates and of the exported PDF page. */
  const PageWidthMm: real := 210.0
  const PageHeightMm: real := 297.0

  /** The canonical headline labels shared by the Analytics page and its template. */
  const ConsumptionLabel: string := "Total Consumption"
  const CostLabel: string := "Total Cost"
  const EmissionsLabel: string := "CO₂ Emissions"

  /** The order in which the headline metrics are built and shown. */
  const HeadlineLabels: seq<string> := [ConsumptionLabel, CostLabel, EmissionsLabel]

  datatype Environmental = Environmental(carbonReduction: real, renewableUsage: real, wasteReduction: real)
  datatype Social = Social(communityImpact: real, healthBenefits: real, jobsCreated: int, educationPrograms: real)
  datatype Governance = Governance(transparencyScore: real, complianceRating: real, ethicsScore: real)

  /** The ESG record rendered by the sustainability report template. */
  datatype ESGReportData = ESGReportData(
    companyName: string,
    reportPeriod: string,
    overallScore: real,
    industryRanking: int,
    environmental: Environmental,
    social: Social,
    governance: Governance,
    certifications: seq<string>,
    improvementAreas: seq<string>,
    generatedAt: string)
}
