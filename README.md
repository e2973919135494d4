# MSME digital dashboard — verified model of its display logic

The MSME digital dashboard is a single React component. It shows an MSME's final
score (`totalScore`) as a coloured headline number, a pie chart of the weights of
the four dimensions Financial, Business, Social and Digital, a bar chart of
twelve component scores, and two lists of those components. The score record
also holds four dimension values (`financial`, `business`, `social`,
`digital`); they are literals the component never reads.

This project models the component's logic apart from the rendering:

- `ScoreColor`: the headline colour classifier `getScoreColor`. It has four
  bands with inclusive lower thresholds at 750, 650 and 500.
- `ChartLabel`: the pie slice label template `name (value%)`.
- `Metrics`: the metric table entry and the two `.filter` calls. The calls split
  the table into "Financial & Business Metrics" and "Social & Digital Impact".
  The module also has the weight text each list item shows.
- `DashboardData`: the constant data. This covers the score record, the pie
  slices and the twelve-row metric table, with the facts that tie them
  together:
  - 725 is coloured blue.
  - Every score fits the bar chart's 0–100 axis.
  - Each pie slice's value is the weight total of its type.
  - The weights and the slices each sum to 100.
- `DecimalText`: how a template literal writes whole numbers, and how a weight
  such as `15%` is written. Each direction is given together with its inverse,
  so a rendered label or weight text provably reads back as the number it was
  made from.
- `Wrappers`: the `Option` type.

The headline score is a literal (`totalScore: 725`). The component computes no
aggregate from the table. A weighted mean of the table's scores would be 73.72
on a 0–100 scale, and 737.2 if scaled to 1000. The model therefore follows the
code: it treats 725 as given data and defines no aggregation.

## Model

| member | source | states |
|---|---|---|
| ScoreColor.ScoreBand | src/components/MSMEDigitalDashboard.js:44-49 | the band is Green exactly when score >= 750, Blue exactly when 650 <= score < 750, Yellow exactly when 500 <= score < 650, Red exactly when score < 500 |
| ScoreColor.GetScoreColor | src/components/MSMEDigitalDashboard.js:44-49 | the class is "text-green-500" / "text-blue-500" / "text-yellow-500" / "text-red-500" exactly on those four score ranges (both directions) |
| ScoreColor.RankCountsThresholds | src/components/MSMEDigitalDashboard.js:45-48 | the band's rank equals the number of thresholds 500, 650, 750 the score reaches, an independent reference for the if-chain |
| ScoreColor.Boundaries | src/components/MSMEDigitalDashboard.js:45-47 | each threshold is inclusive: 750 is green and 749 blue, 650 blue and 649 yellow, 500 yellow and 499 red |
| ScoreColor.Monotone | src/components/MSMEDigitalDashboard.js:44-49 | a higher score never gets a lower band |
| ScoreColor.ClassNameInjective | src/components/MSMEDigitalDashboard.js:45-48 | the four class names are pairwise distinct, so the colour identifies the band |
| ChartLabel.RenderCustomLabel | src/components/MSMEDigitalDashboard.js:51-54 | the label is the name, then " (", then the value's decimal text, then "%)"; its length is that of the parts, and the text between the brackets reads back as the value |
| DecimalText.NatToString | src/components/MSMEDigitalDashboard.js:53 | the decimal text of a whole number is non-empty, all digits, without a leading zero, and starts with '0' only for 0 |
| DecimalText.IntToString | src/components/MSMEDigitalDashboard.js:53 | the text of an integer starts with '-' exactly for negatives, and the rest is canonical decimal text |
| DecimalText.ParseNatToString | src/components/MSMEDigitalDashboard.js:53 | reading back the decimal text of n gives n |
| DecimalText.NatToStringParse | src/components/MSMEDigitalDashboard.js:53 | every canonical digit string is the decimal text of the number it reads as |
| DecimalText.NatToStringInjective | src/components/MSMEDigitalDashboard.js:53 | two numbers have the same decimal text exactly when they are equal |
| DecimalText.IntToStringRoundTrip | src/components/MSMEDigitalDashboard.js:53 | reading back the text of any integer, negative ones included, gives that integer |
| DecimalText.ParsePercent | src/components/MSMEDigitalDashboard.js:30-41 | a weight text is accepted exactly when it is one or more digits followed by '%' |
| DecimalText.PercentRoundTrip | src/components/MSMEDigitalDashboard.js:30-41 | reading back the weight text of n percent gives n |
| DecimalText.PercentTextCanonical | src/components/MSMEDigitalDashboard.js:30-41 | every accepted canonical weight text is the text of the percent it reads as |
| DecimalText.FormatPercent | src/components/MSMEDigitalDashboard.js:30-41 | a weight is written as its decimal text without leading zeros followed by '%'; `DecimalText.PercentRoundTrip` reads it back |
| Metrics.WeightText | src/components/MSMEDigitalDashboard.js:172 | the weight text an item shows reads back as the entry's weight percent and has no leading zeros |
| Metrics.WeightTextUnique | src/components/MSMEDigitalDashboard.js:195 | any weight text without leading zeros that reads as an entry's weight is the text its item shows |
| Metrics.FilterByType | src/components/MSMEDigitalDashboard.js:163 | the filter keeps at most the table's length; `Metrics.FilterMembers` states it keeps exactly the entries whose type is among the names and `Metrics.FilterIsSubsequence` that it keeps table order |
| Metrics.FinancialAndBusiness | src/components/MSMEDigitalDashboard.js:162-163 | an entry is in the first list exactly when it is in the table and its type is Financial or Business |
| Metrics.SocialAndDigital | src/components/MSMEDigitalDashboard.js:185-186 | an entry is in the second list exactly when it is in the table and its type is Social or Digital |
| Metrics.FilterMembers | src/components/MSMEDigitalDashboard.js:163 | a type filter keeps exactly the table's entries whose type is among the names |
| Metrics.FilterIsSubsequence | src/components/MSMEDigitalDashboard.js:163 | a type filter keeps the table order of the entries it keeps |
| Metrics.FiltersDisjoint | src/components/MSMEDigitalDashboard.js:163 | filters on disjoint type lists share no entry |
| Metrics.FiltersPartition | src/components/MSMEDigitalDashboard.js:162-163 | when every type is in one of two disjoint lists, the two filtered lists together are a permutation of the table (multisets) and their lengths add up |
| Metrics.WeightSumPartition | src/components/MSMEDigitalDashboard.js:162-163 | under the same condition the table's weight total is the sum of the two filtered lists' totals |
| Metrics.DisplayedListsOrdered | src/components/MSMEDigitalDashboard.js:162-163 | both displayed lists are in table order |
| Metrics.DisplayedListsDisjoint | src/components/MSMEDigitalDashboard.js:185-186 | no entry is shown in both lists |
| Metrics.DisplayedListsCover | src/components/MSMEDigitalDashboard.js:185-186 | when every type is one of the four dimensions, the two lists show each table entry exactly once and split the weight total |
| Metrics.FilterAppend | src/components/MSMEDigitalDashboard.js:163 | filtering a concatenation is concatenating the filtered parts |
| Metrics.FilterAllOrNone | src/components/MSMEDigitalDashboard.js:163 | a filter keeps everything when every type matches and nothing when none does |
| Metrics.FilterSection | src/components/MSMEDigitalDashboard.js:163 | when one type's entries form a contiguous section, filtering on that type gives exactly that section |
| Metrics.SectionWeightSum | src/components/MSMEDigitalDashboard.js:29-42 | the weight total of a section equals the position-by-position sum over it |
| Metrics.WeightRangeSplit | src/components/MSMEDigitalDashboard.js:29-42 | a range's weight total is the sum of its two parts' totals |
| DashboardData.TotalScoreIsBlue | src/components/MSMEDigitalDashboard.js:14 | the headline score 725 is in the Blue band and gets "text-blue-500" |
| DashboardData.ScoresWithinYDomain | src/components/MSMEDigitalDashboard.js:29-42 | every component score lies in the bar chart's Y domain [0, 100] |
| DashboardData.TypesAreDimensions | src/components/MSMEDigitalDashboard.js:29-42 | every entry's type is one of Financial, Business, Social, Digital |
| DashboardData.TableSections | src/components/MSMEDigitalDashboard.js:29-42 | the first five rows are Financial or Business and the last seven Social or Digital |
| DashboardData.DisplayedLists | src/components/MSMEDigitalDashboard.js:162-163 | the first list shows exactly rows 1–5 and the second exactly rows 6–12, in table order |
| DashboardData.WeightTextsShown | src/components/MSMEDigitalDashboard.js:30-41 | the modelled weights render as the table's texts "15%", "10%", "8%", "7%", "5%" |
| DashboardData.RangeWeights | src/components/MSMEDigitalDashboard.js:29-42 | the weights of the Financial, Business, Social and Digital rows add to 35, 25, 25, 15 |
| DashboardData.SectionWeights | src/components/MSMEDigitalDashboard.js:29-42 | the same four totals, over the table's sections |
| DashboardData.FinancialBusinessRows | src/components/MSMEDigitalDashboard.js:29-34 | filtering on Financial gives rows 1–3 and on Business rows 4–5 |
| DashboardData.SocialDigitalRows | src/components/MSMEDigitalDashboard.js:35-41 | filtering on Social gives rows 6–9 and on Digital rows 10–12 |
| DashboardData.TypeWeightsMatchPie | src/components/MSMEDigitalDashboard.js:22-27 | each pie slice's value equals the weight total of its type in the table |
| DashboardData.DisplayedWeights | src/components/MSMEDigitalDashboard.js:162-163 | the weights shown in the two lists add up to 60 and 40, the values of the pie's two groups of slices (Financial with Business, Social with Digital) |
| DashboardData.WeightsSumTo100 | src/components/MSMEDigitalDashboard.js:29-42 | the table's weights add up to 100 percent |
| DashboardData.FinancialSliceLabel | src/components/MSMEDigitalDashboard.js:51-54 | the first pie slice is labelled "Financial Score (35%)" |
| DashboardData.PieSumsTo100 | src/components/MSMEDigitalDashboard.js:22-27 | the pie slice values add up to 100 |

## Left out

- ScoreColor.ScoreBand: scores are modelled as integers, while `getScoreColor` compares any JavaScript number. Because the thresholds are integers, a fractional score falls in the same band as its floor; NaN and undefined fail every comparison and fall through to red, which the model does not represent.
- Rendering: the JSX layout, the recharts `PieChart`, `BarChart` and `Legend` components, and the tailwind classes other than the four score colours. The model covers the data these are given, not the pixels.
- `CustomTooltip`: it only formats recharts' hover payload for display. Its input comes from the chart library.
- `useState`: the state is never updated, so the model treats the record as a constant.
- The `businessInfo` strings and the slice colours (hex strings): they are display-only constants. No property of the model depends on them.
- `tailwind.config.js` is not part of this model. It configures styling only.
- Aggregation of the table into `totalScore`: the component has none. The headline score is a literal, and the table's weighted mean (737.2 when scaled to 1000) does not equal it.
- Metrics.ScoreEntry: the weight is an integer percent, not the source's text field. `Metrics.WeightText` gives the displayed text, and `DecimalText.PercentRoundTrip` shows the two agree. Every weight in the table is a whole percent.
- ChartLabel.RenderCustomLabel: covers whole-number values only. JavaScript would also print fractions and exponents, but every pie value is a whole number.
