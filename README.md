# Quantum marketing dashboard: the generated series and the display rules

The dashboard (`src/app/page.tsx`) is mostly markup. Its logic has two parts:

- the mock performance series behind the "Quantum Performance Trends" chart (`mockPerformanceData`);
- three sign and status rules written inline in the markup: the change line of a KPI tile, and the status badge and trend cell of a campaign row.

This project models both parts as pure Dafny functions and proves the properties the dashboard relies on.

- `decimal.dfy` (module `Decimal`): how a template literal prints a non-negative integer, which the chart labels use.
- `performance.dfy` (module `Performance`): the time ranges, the chart point, and the series generator.
  - `Math.sin` is the parameter `sin`.
  - `Math.random` is the parameter `random`, where `random(k)` is the k-th draw made while the series is built.
  - The draws are indexed in the order the source makes them. Points are built in index order. Each point draws for `conversions`, and then, in the forecast tail only, for `predicted`.
- `indicators.dfy` (module `Indicators`): the KPI change rule, the campaign status badge and the campaign trend rule.
  - Numbers are reals.
  - How the runtime prints a number is the parameter `show`.

The forecast tail is decided by `i > days * 0.7` on doubles. The model compares `i` with the exact double that this product evaluates to (`ScaledCount`). That double lies within half a unit in the last place of the exact product (`ScaledCountIsRoundedProduct`). So the first forecast index is 9, 5, 22 and 63 for 24H, 7D, 30D and 90D. An integer rule `10*i > 7*days` would pick 64 for 90D, because `90 * 0.7` is just below 63 (`IntegerThreshold`).

The design description of this system differs from the code in some places. The model follows the code:

- It describes one shared sign classifier. The code has two rules that disagree at zero. A KPI change of 0 is emerald with an upright arrow; a campaign trend of 0 is a gray "—". Both are modelled as written.
- It describes segmentation totals and shares, a recommendation ranker and a view-model assembler. None of these exist as computation in the code: the total "11.6K" is a literal, and recommendations are shown in array order.
- It says the forecast covers the final 30% of the points. The tail is in fact 3 of 12, 2 of 7, 8 of 30 and 27 of 90 points, which is at most 30% (`ForecastStart`).

## Model

| member | source | states |
|---|---|---|
| Decimal.NatToString | src/app/page.tsx:46 | the text of an index in a label is non-empty, all digits, one digit exactly for values below 10, and starts with '0' only for 0 |
| Decimal.NatToStringRoundTrip | src/app/page.tsx:46 | reading the digits of the text of n gives back n |
| Decimal.NatToStringInjective | src/app/page.tsx:46 | two numbers have the same text exactly when they are equal |
| Performance.ScaledCountIsRoundedProduct | src/app/page.tsx:48 | the modelled value of `days * 0.7` is a double of its binade within half an ulp of the exact product of the point count and the double 0.7 |
| Performance.ForecastStart | src/app/page.tsx:48 | the first tail index (9, 5, 22, 63) is the least i with `i > days * 0.7`; the tail is non-empty, excludes index 0 and holds at most 30% of the points |
| Performance.IntegerThreshold | src/app/page.tsx:48 | the integer rule `10*i > 7*days` selects the same tail as the double comparison for 24H, 7D and 30D; for 90D the two differ exactly at index 63 |
| Performance.LabelsDistinct | src/app/page.tsx:46 | labels within one range are equal exactly when their indices are |
| Performance.IntradayLabels | src/app/page.tsx:46 | the twelve 24H labels are 0:00, 2:00, ..., 22:00 |
| Performance.DrawsInEvaluationOrder | src/app/page.tsx:43-49 | random draws are consumed in evaluation order, each once; the last point's predicted value uses the last of the DrawCount draws |
| Performance.MockPerformanceData | src/app/page.tsx:41-51 | the series has the range's point count (12, 7, 30, 90); point i has label `Label(range, i)`; its predicted value is present exactly when `i > days * 0.7` |
| Performance.PointBounds | src/app/page.tsx:44-48 | with sine in [-1, 1] and draws in [0, 1), a point's conversions are in [4000, 6499] and its predicted value, when present, in [4400, 7199] |
| Performance.ValueBounds | src/app/page.tsx:44-48 | the same bounds for every point of a generated series, so every figure is non-negative |
| Performance.ForecastIsSuffix | src/app/page.tsx:48 | the first point never has a predicted value; once a point has one, every later point does; point j has one exactly when j is at least ForecastStart |
| Performance.SamePoint | src/app/page.tsx:44-48 | a point depends only on the sine at i/5 and on the draws it uses |
| Performance.Reproducible | src/app/page.tsx:43-49 | two sources that agree on the sines at i/5 and on the first DrawCount draws produce the same series, so a seeded source reproduces it |
| Performance.IntradayForecast | src/app/page.tsx:48 | with all draws 0, the 24H series has predicted values at indices 9 to 11 only |
| Indicators.Abs | src/app/page.tsx:98 | `Math.abs` is non-negative and equals x or -x |
| Indicators.KpiChange | src/app/page.tsx:96-98 | emerald exactly when change >= 0, red exactly when change < 0; the arrow is rotated exactly when change < 0; the shown magnitude is the non-negative absolute change |
| Indicators.KpiChangeSymmetric | src/app/page.tsx:96-98 | opposite non-zero changes show the same magnitude and text, with opposite colours and arrows |
| Indicators.NegativeKpiScenario | src/app/page.tsx:69 | the Avg. CPC change of -2.1 is red with a rotated arrow and magnitude 2.1 |
| Indicators.StatusBadge | src/app/page.tsx:260-264 | the cyan badge classes exactly for the status "Active", the gray classes for every other status |
| Indicators.CampaignTrend | src/app/page.tsx:271-272 | emerald and a leading ▲ exactly when trend > 0; red and a leading ▼ exactly when trend < 0; gray and the text "—" exactly when trend = 0; a non-zero trend shows glyph, space, the absolute value and "%" |
| Indicators.CampaignTrendExclusive | src/app/page.tsx:271 | every trend gets exactly one of the three colour classes |
| Indicators.CampaignTrendSymmetric | src/app/page.tsx:272 | t and -t, for t non-zero, show opposite glyphs and colours and the same magnitude text |
| Indicators.ZeroDisagreement | src/app/page.tsx:271-272 | at zero, the campaign rule gives a gray "—" while the KPI rule (lines 96-97) gives emerald with an upright arrow |
| Indicators.NonZeroAgreement | src/app/page.tsx:96 | for a non-zero value the KPI colour and the campaign trend colour are the same class |

## Left out

- Markup and widgets: layout, recharts charts, lucide icons, `QuantumCard`, `Sidebar`, `Header` and the footer. They only present values.
- React state: the selected range (`useState`, `useMemo`) and the range buttons. The range is a plain parameter.
- Floating-point arithmetic on the figures. `5000 + sin*1000`, the factor 1.1 and the random scaling are exact real arithmetic, and `Math.floor` is the real floor. Only the tail comparison is modelled on the doubles the source computes. Double rounding could move a figure by a tiny amount, and at most by one after flooring.
- The values of `Math.sin` and `Math.random`. They are parameters, bounded only where a lemma needs it.
- Number formatting: `toLocaleString`, `toFixed` and how a number prints in a template literal. That printing is the parameter `show`. The exception is integer label indices, which `Decimal.NatToString` prints.
- Indicators.KpiChange: only the conditional class tokens are modelled (the colour class and the arrow's rotation class). The fixed classes around them are not.
- Indicators.StatusBadge: only the conditional class tokens are modelled. The badge text is the status itself, unchanged.
- Static data: the KPI, segmentation, recommendation and campaign arrays are configuration. The one KPI value used is the -2.1 in `Indicators.NegativeKpiScenario`.
- Segmentation totals and shares, recommendation ranking and view-model assembly. The code has no such computation.
