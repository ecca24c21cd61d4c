/** The off-screen ESG report page (src/components/reports/SustainabilityReportTemplate.tsx):
    the three pillar scores as unweighted means of three sub-scores each, the
    score rings, and the certification and improvement-area listings. */
module SustainabilityReportTemplate {
  import opened Common
  import opened Reports

  function Min3(a: real, b: real, c: real): real
  {
    if a <= b && a <= c then a else if b <= c then b else c
  }

  function Max3(a: real, b: real, c: real): real
  {
    if a >= b && a >= c then a else if b >= c then b else c
  }

  /** `(a + b + c) / 3`: it lies between the smallest and the largest of the three. */
  function Mean3(a: real, b: real, c: real): (m: real)
    ensures m * 3.0 == a + b + c
    ensures Min3(a, b, c) <= m <= Max3(a, b, c)
  {
    (a + b + c) / 3.0
  }

  /** `eScore` (line 37). */
  function EnvironmentalScore(e: Environmental): (score: real)
    ensures score * 3.0 == e.carbonReduction + e.renewableUsage + e.wasteReduction
    ensures Min3(e.carbonReduction, e.renewableUsage, e.wasteReduction) <= score
    ensures score <= Max3(e.carbonReduction, e.renewableUsage, e.wasteReduction)
  {
    Mean3(e.carbonReduction, e.renewableUsage, e.wasteReduction)
  }

  /** `sScore` (line 38): averages `educationPrograms`, not `jobsCreated`. */
  function SocialScore(s: Social): (score: real)
    ensures score * 3.0 == s.communityImpact + s.healthBenefits + s.educationPrograms
    ensures Min3(s.communityImpact, s.healthBenefits, s.educationPrograms) <= score
    ensures score <= Max3(s.communityImpact, s.healthBenefits, s.educationPrograms)
  {
    Mean3(s.communityImpact, s.healthBenefits, s.educationPrograms)
  }

  /** `gScore` (line 39). */
  function GovernanceScore(g: Governance): (score: real)
    ensures score * 3.0 == g.transparencyScore + g.complianceRating + g.ethicsScore
    ensures Min3(g.transparencyScore, g.complianceRating, g.ethicsScore) <= score
    ensures score <= Max3(g.transparencyScore, g.complianceRating, g.ethicsScore)
  {
    Mean3(g.transparencyScore, g.complianceRating, g.ethicsScore)
  }

  predicate Percent(x: real)
  {
    0.0 <= x <= 100.0
  }

  /** Sub-scores that are percentages give pillar scores that are percentages. */
  lemma PillarScoresArePercentages(r: ESGReportData)
    requires Percent(r.environmental.carbonReduction) && Percent(r.environmental.renewableUsage)
    requires Percent(r.environmental.wasteReduction)
    requires Percent(r.social.communityImpact) && Percent(r.social.healthBenefits)
    requires Percent(r.social.educationPrograms)
    requires Percent(r.governance.transparencyScore) && Percent(r.governance.complianceRating)
    requires Percent(r.governance.ethicsScore)
    ensures Percent(EnvironmentalScore(r.environmental))
    ensures Percent(SocialScore(r.social))
    ensures Percent(GovernanceScore(r.governance))
  {
  }

  /** The ring's dash offset `C * (1 - score / 100)` for a circle of circumference
      `C` (2 * pi * 54 in the source): the drawn arc is `score` percent of the circle,
      so the offset is 0 at 100 and the whole circle at 0. */
  function DashOffset(circumference: real, score: real): (offset: real)
    ensures circumference - offset == circumference * score / 100.0
    ensures score == 100.0 ==> offset == 0.0
    ensures score == 0.0 ==> offset == circumference
    ensures circumference >= 0.0 && Percent(score) ==> 0.0 <= offset <= circumference
  {
    if circumference >= 0.0 && Percent(score) then
      ProductOfNonNegatives(circumference, 1.0 - score / 100.0);
      ProductOfNonNegatives(circumference, score / 100.0);
      circumference * (1.0 - score / 100.0)
    else
      circumference * (1.0 - score / 100.0)
  }

  lemma ProductOfNonNegatives(x: real, y: real)
    requires x >= 0.0 && y >= 0.0
    ensures x * y >= 0.0
  {
  }

  /** A higher score never leaves more of the ring undrawn. */
  lemma DashOffsetDecreasing(circumference: real, s1: real, s2: real)
    requires circumference >= 0.0 && s1 <= s2
    ensures DashOffset(circumference, s2) <= DashOffset(circumference, s1)
  {
    ProductOfNonNegatives(circumference, s2 - s1);
    assert DashOffset(circumference, s1) - DashOffset(circumference, s2) == circumference * (s2 - s1) / 100.0;
  }

  /** One `MetricItem` row. */
  datatype MetricItem = MetricItem(caption: string, value: real, unit: string)

  /** One pillar card: its heading, the ring's score and its three rows. */
  datatype PillarCard = PillarCard(heading: string, score: real, items: seq<MetricItem>)

  /** Lines 76-79: the ring shows `eScore` over rows for the three sub-scores, in
      percent. */
  function EnvironmentalCard(e: Environmental): (c: PillarCard)
    ensures c.heading == "Environmental" && c.score == EnvironmentalScore(e)
    ensures |c.items| == 3 && forall i :: 0 <= i < 3 ==> c.items[i].unit == "%"
    ensures c.items[0].value == e.carbonReduction && c.items[1].value == e.renewableUsage
    ensures c.items[2].value == e.wasteReduction
  {
    PillarCard("Environmental", EnvironmentalScore(e),
      [MetricItem("Carbon Reduction", e.carbonReduction, "%"),
       MetricItem("Renewable Usage", e.renewableUsage, "%"),
       MetricItem("Waste Reduction", e.wasteReduction, "%")])
  }

  /** Lines 81-84: the ring shows `sScore`; the third row is the job count, with no
      unit. */
  function SocialCard(s: Social): (c: PillarCard)
    ensures c.heading == "Social" && c.score == SocialScore(s)
    ensures |c.items| == 3 && c.items[0].unit == "%" && c.items[1].unit == "%" && c.items[2].unit == ""
    ensures c.items[0].value == s.communityImpact && c.items[1].value == s.healthBenefits
    ensures c.items[2].value == s.jobsCreated as real
  {
    PillarCard("Social", SocialScore(s),
      [MetricItem("Community Impact", s.communityImpact, "%"),
       MetricItem("Health Benefits", s.healthBenefits, "%"),
       MetricItem("Jobs Created", s.jobsCreated as real, "")])
  }

  /** Lines 86-89: the ring shows `gScore` over rows for the three sub-scores, in
      percent. */
  function GovernanceCard(g: Governance): (c: PillarCard)
    ensures c.heading == "Governance" && c.score == GovernanceScore(g)
    ensures |c.items| == 3 && forall i :: 0 <= i < 3 ==> c.items[i].unit == "%"
    ensures c.items[0].value == g.transparencyScore && c.items[1].value == g.complianceRating
    ensures c.items[2].value == g.ethicsScore
  {
    PillarCard("Governance", GovernanceScore(g),
      [MetricItem("Transparency", g.transparencyScore, "%"),
       MetricItem("Compliance Rating", g.complianceRating, "%"),
       MetricItem("Ethics Score", g.ethicsScore, "%")])
  }

  /** The environmental and governance rings average exactly the three rows shown
      beneath them. */
  lemma ShownRowsAveraged(e: Environmental, g: Governance)
    ensures var c := EnvironmentalCard(e);
      c.score == Mean3(c.items[0].value, c.items[1].value, c.items[2].value)
    ensures var c := GovernanceCard(g);
      c.score == Mean3(c.items[0].value, c.items[1].value, c.items[2].value)
  {
  }

  /** The social card does not: its ring averages `educationPrograms`, which no row
      shows, while its third row shows `jobsCreated`, which the ring ignores. */
  lemma SocialRingDiffersFromRows(s: Social, jobs: int, education: real)
    ensures SocialCard(s.(jobsCreated := jobs)).score == SocialCard(s).score
    ensures SocialCard(s.(educationPrograms := education)).items == SocialCard(s).items
    ensures education != s.educationPrograms ==>
      SocialCard(s.(educationPrograms := education)).score != SocialCard(s).score
  {
  }

  /** What the template lays out. */
  datatype Document = Document(
    widthMm: real,
    minHeightMm: real,
    companyName: string,
    reportPeriod: string,
    overallScore: real,
    industryRanking: int,
    pillars: seq<PillarCard>,
    certifications: seq<Entry<string>>,
    improvementAreas: seq<Entry<string>>,
    generatedAt: string)

  /** The rendered report: one A4-wide page, the three pillar cards in the order
      Environmental, Social, Governance, and each certification and improvement
      area listed once, in input order. */
  function Render(r: ESGReportData): (doc: Document)
    ensures doc.widthMm == PageWidthMm && doc.minHeightMm == PageHeightMm
    ensures doc.companyName == r.companyName && doc.reportPeriod == r.reportPeriod
    ensures doc.overallScore == r.overallScore && doc.industryRanking == r.industryRanking
    ensures doc.generatedAt == r.generatedAt
    ensures doc.pillars == [EnvironmentalCard(r.environmental), SocialCard(r.social), GovernanceCard(r.governance)]
    ensures doc.pillars[0].score == EnvironmentalScore(r.environmental)
    ensures doc.pillars[1].score == SocialScore(r.social)
    ensures doc.pillars[2].score == GovernanceScore(r.governance)
    ensures Texts(doc.certifications) == r.certifications
    ensures Texts(doc.improvementAreas) == r.improvementAreas
    ensures forall i :: 0 <= i < |doc.certifications| ==> doc.certifications[i].key == i
    ensures forall i :: 0 <= i < |doc.improvementAreas| ==> doc.improvementAreas[i].key == i
  {
    Document(PageWidthMm, PageHeightMm, r.companyName, r.reportPeriod, r.overallScore,
             r.industryRanking,
             [EnvironmentalCard(r.environmental), SocialCard(r.social), GovernanceCard(r.governance)],
             Listing(r.certifications), Listing(r.improvementAreas), r.generatedAt)
  }
}
