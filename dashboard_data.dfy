/**
 * The dashboard's constant data: the final and per-dimension scores, the pie
 * chart's slices and the metric table, and the facts that tie them together.
 */
module DashboardData {
  import opened Wrappers
  import opened DecimalText
  import opened ScoreColor
  import opened ChartLabel
  import opened Metrics

  /** The `scores` record of the dashboard state; every field is a literal. */
  datatype Scores = Scores(totalScore: int, financial: int, business: int, social: int, digital: int)

  /** One pie slice: its name and its share in percent (colours are display only). */
  datatype PieSlice = PieSlice(name: string, value: int)

  const MsmeScores: Scores := Scores(725, 70, 75, 78, 72)

  const PieData: seq<PieSlice> := [
    PieSlice("Financial Score", 35),
    PieSlice("Business Health", 25),
    PieSlice("Social Impact", 25),
    PieSlice("Digital Presence", 15)
  ]

  /** The rows of the metric table. */
  const FinancialHealth: ScoreEntry := ScoreEntry("Financial Health", 72, 15, "Financial")
  const RevenueGrowth: ScoreEntry := ScoreEntry("Revenue Growth", 68, 10, "Financial")
  const WorkingCapital: ScoreEntry := ScoreEntry("Working Capital", 70, 10, "Financial")
  const MarketPresence: ScoreEntry := ScoreEntry("Market Presence", 75, 15, "Business")
  const CustomerBase: ScoreEntry := ScoreEntry("Customer Base", 77, 10, "Business")
  const EmploymentGeneration: ScoreEntry := ScoreEntry("Employment Generation", 82, 8, "Social")
  const SkillDevelopment: ScoreEntry := ScoreEntry("Skill Development", 78, 7, "Social")
  const CommunityInitiatives: ScoreEntry := ScoreEntry("Community Initiatives", 74, 5, "Social")
  const DigitalInclusion: ScoreEntry := ScoreEntry("Digital Inclusion", 76, 5, "Social")
  const OnlineReputation: ScoreEntry := ScoreEntry("Online Reputation", 73, 5, "Digital")
  const DigitalAdoption: ScoreEntry := ScoreEntry("Digital Adoption", 71, 5, "Digital")
  const Cybersecurity: ScoreEntry := ScoreEntry("Cybersecurity", 69, 5, "Digital")

  const DetailedScores: seq<ScoreEntry> := [
    FinancialHealth, RevenueGrowth, WorkingCapital,
    MarketPresence, CustomerBase, EmploymentGeneration,
    SkillDevelopment, CommunityInitiatives, DigitalInclusion,
    OnlineReputation, DigitalAdoption, Cybersecurity
  ]

  /** The four entry types, in the order of the pie slices. */
  const DimensionTypes: seq<string> := ["Financial", "Business", "Social", "Digital"]

  /** The bar chart's Y axis domain. */
  const YDomainLow: int := 0
  const YDomainHigh: int := 100

  /** Sum of the slices' values. */
  function PieTotal(slices: seq<PieSlice>): int
  {
    if slices == [] then 0 else slices[0].value + PieTotal(slices[1..])
  }

  /** The final score shown in the header is coloured blue. */
  lemma TotalScoreIsBlue()
    ensures ScoreBand(MsmeScores.totalScore) == Blue
    ensures GetScoreColor(MsmeScores.totalScore) == "text-blue-500"
  {
  }

  /** Every bar of the component chart fits the Y axis. */
  lemma ScoresWithinYDomain()
    ensures ScoresWithin(DetailedScores, YDomainLow, YDomainHigh)
  {
  }

  /** Every entry's type is one of the four dimension names. */
  lemma TypesAreDimensions()
    ensures TypesAmong(DetailedScores, DimensionTypes)
    ensures TypesAmong(DetailedScores, FinancialBusinessTypes + SocialDigitalTypes)
  {
    assert FinancialBusinessTypes + SocialDigitalTypes == DimensionTypes;
  }

  /** The first five entries are the financial and business ones, the rest social and digital. */
  lemma TableSections()
    ensures TypesAmong(DetailedScores[..5], FinancialBusinessTypes)
    ensures TypesAmong(DetailedScores[5..], SocialDigitalTypes)
    ensures forall i :: 0 <= i < 5 ==> DetailedScores[..5][i].kind !in SocialDigitalTypes
    ensures forall i :: 0 <= i < 7 ==> DetailedScores[5..][i].kind !in FinancialBusinessTypes
  {
  }

  /**
   * The two displayed lists split the table: the first five entries are
   * "Financial & Business Metrics" and the other seven "Social & Digital Impact",
   * each in table order.
   */
  lemma DisplayedLists()
    ensures FinancialAndBusiness(DetailedScores) == DetailedScores[..5]
    ensures SocialAndDigital(DetailedScores) == DetailedScores[5..]
    ensures |FinancialAndBusiness(DetailedScores)| + |SocialAndDigital(DetailedScores)| == |DetailedScores|
  {
    var a, b := DetailedScores[..5], DetailedScores[5..];
    assert DetailedScores == a + b;
    TableSections();
    FilterAppend(FinancialBusinessTypes, a, b);
    FilterAppend(SocialDigitalTypes, a, b);
    FilterAllOrNone(FinancialBusinessTypes, a);
    FilterAllOrNone(FinancialBusinessTypes, b);
    FilterAllOrNone(SocialDigitalTypes, a);
    FilterAllOrNone(SocialDigitalTypes, b);
  }

  /** The weight texts the two lists show, as the table writes them. */
  lemma WeightTextsShown()
    ensures WeightText(FinancialHealth) == "15%" && WeightText(RevenueGrowth) == "10%"
    ensures WeightText(EmploymentGeneration) == "8%" && WeightText(SkillDevelopment) == "7%"
    ensures WeightText(Cybersecurity) == "5%"
  {
    assert NatToString(15) == "15" && NatToString(10) == "10";
  }

  /** Weight totals of the four sections of the table, one per type, position by position. */
  lemma RangeWeights()
    ensures WeightRange(DetailedScores, 0, 3) == 35
    ensures WeightRange(DetailedScores, 3, 5) == 25
    ensures WeightRange(DetailedScores, 5, 9) == 25
    ensures WeightRange(DetailedScores, 9, 12) == 15
  {
  }

  /** Weight totals of the four sections of the table, one per type. */
  lemma SectionWeights()
    ensures WeightSum(DetailedScores[0..3]) == 35
    ensures WeightSum(DetailedScores[3..5]) == 25
    ensures WeightSum(DetailedScores[5..9]) == 25
    ensures WeightSum(DetailedScores[9..12]) == 15
  {
    var t := DetailedScores;
    RangeWeights();
    SectionWeightSum(t, 0, 3);
    SectionWeightSum(t, 3, 5);
    SectionWeightSum(t, 5, 9);
    SectionWeightSum(t, 9, 12);
  }

  /** Weight total of the entries of one type. */
  function TypeWeight(kind: string, xs: seq<ScoreEntry>): nat
  {
    WeightSum(FilterByType([kind], xs))
  }

  /** The financial and the business rows each form one section of the table. */
  lemma FinancialBusinessRows()
    ensures FilterByType(["Financial"], DetailedScores) == DetailedScores[0..3]
    ensures FilterByType(["Business"], DetailedScores) == DetailedScores[3..5]
  {
    FilterSection("Financial", DetailedScores, 0, 3);
    FilterSection("Business", DetailedScores, 3, 5);
  }

  /** The social and the digital rows each form one section of the table. */
  lemma SocialDigitalRows()
    ensures FilterByType(["Social"], DetailedScores) == DetailedScores[5..9]
    ensures FilterByType(["Digital"], DetailedScores) == DetailedScores[9..12]
  {
    FilterSection("Social", DetailedScores, 5, 9);
    FilterSection("Digital", DetailedScores, 9, 12);
  }

  /** Each pie slice's value is the weight total of its type in the table. */
  lemma TypeWeightsMatchPie()
    ensures TypeWeight("Financial", DetailedScores) == 35 == PieData[0].value
    ensures TypeWeight("Business", DetailedScores) == 25 == PieData[1].value
    ensures TypeWeight("Social", DetailedScores) == 25 == PieData[2].value
    ensures TypeWeight("Digital", DetailedScores) == 15 == PieData[3].value
  {
    SectionWeights();
    FinancialBusinessRows();
    SocialDigitalRows();
  }

  /** The weights shown in the two lists add up to the values of the two groups of pie slices. */
  lemma DisplayedWeights()
    ensures WeightSum(FinancialAndBusiness(DetailedScores)) == PieData[0].value + PieData[1].value
    ensures WeightSum(SocialAndDigital(DetailedScores)) == PieData[2].value + PieData[3].value
  {
    var t := DetailedScores;
    DisplayedLists();
    RangeWeights();
    SectionWeightSum(t, 0, 5);
    WeightRangeSplit(t, 0, 3, 5);
    SectionWeightSum(t, 5, 12);
    WeightRangeSplit(t, 5, 9, 12);
    SectionBounds(t, 5);
  }

  /** The table's weights add up to 100 percent. */
  lemma WeightsSumTo100()
    ensures WeightSum(DetailedScores) == 100
  {
    TypesAreDimensions();
    DisplayedListsCover(DetailedScores);
    DisplayedWeights();
  }

  /** The label the pie chart draws for its first slice. */
  lemma FinancialSliceLabel()
    ensures RenderCustomLabel(PieData[0].name, PieData[0].value) == "Financial Score (35%)"
  {
    assert NatToString(35) == "35" by {
      assert NatToString(3) == "3";
    }
    assert "Financial Score" + " (" + "35" + "%)" == "Financial Score (35%)";
  }

  /** The pie slices add up to 100 percent. */
  lemma PieSumsTo100()
    ensures PieTotal(PieData) == 100
  {
  }
}
