# nexusfolio portfolio analyzer — a Dafny model

nexusfolio is a Next.js page. The user builds a basket of stock tickers with
percentage weights, either from a CSV file or one ticker at a time. The page
charts the basket as one weighted "Aggregate Portfolio" series, next to any
number of comparison tickers. The repository holds two revisions of the page
component:

- `app/api/stock/route.ts` is the newer revision. Despite its path it is a
  client page component. It adds manual ticker entry, removal from the
  basket and a year-to-date timeframe. It also rebases every comparison line
  so that it starts at the aggregate's first value.
- `app/page.tsx` is the older revision. Its comparison lines are the raw
  closes.

The model has these parts:

- **the aggregate series**, which both revisions build with the same nested
  loop. The outer loop walks all of the first entry's bars and skips those
  before the cutoff. The inner loop adds, for every entry with a bar on
  exactly that timestamp, weight/100 times that bar's open, high, low and
  close. A date is emitted only if the matched weight is positive, and the
  sums are not divided by it.
- **the comparison series**: rebased lines in route.ts, raw closes in
  page.tsx.
- **the list edits**: CSV import with equal weights, manual addition (100 for
  the first ticker, 0 after that), reweighting, removal with JavaScript
  `splice` index semantics, and adding and removing comparison tickers.

Two parts of the project's own description differ from the code, and the
model follows the code:

- The description speaks of a union calendar with carried-forward prices and
  of rebasing to 100. In the code the dates come from the first entry's
  series, a holding without a bar on a date is skipped for that date, and
  the aggregate is a plain weighted sum.
- The description says the weights are normalised. The code never divides
  by the total weight.

Files, each holding one module:

- `seqs.dfy`: `Option`, and `FilterMap`, the order-preserving map-and-drop
  that underlies every `filter` and every conditional `push` loop. It comes
  with a full characterisation through the kept positions.
- `text.dfy`: JavaScript `trim` (ECMAScript white space and line
  terminators) and `toUpperCase`.
- `market.dfy`: bars, basket entries, chart points and series, and the
  time window `filter(d => d.x >= cutoff)`.
- `aggregation.dfy`: the aggregate loop, as a method proved equal to a
  specification function, and the properties of that function.
- `basket.dfy`: the basket and comparison-list edits, as functions from the
  old list to the new one.
- `rebasing.dfy`: the rebased comparison line of route.ts.
- `route.dfy`: the component of route.ts as a class.
- `page.dfy`: the component of page.tsx as a class.

The React state of a component becomes the fields `portfolio` and
`compareTickers` of a class `PortfolioAnalyzer`. Each handler is a method
that reassigns them. `stockData` and the cutoff timestamp are parameters of
`ChartSeries`.

## Model

| member | source | states |
|---|---|---|
| Seqs.FilterMapIndices | app/api/stock/route.ts:163 | a filter's output is the image of the kept positions, in increasing order, and every position the predicate accepts is kept |
| Seqs.FilterMapMember | app/api/stock/route.ts:163 | a value is in the filtered output iff some input element maps to it |
| Text.LeadingSpaces | app/api/stock/route.ts:43 | counts the leading white space: that many characters are white space, and the next one is not |
| Text.TrailingSpaces | app/api/stock/route.ts:43 | counts the trailing white space, in the same way from the back |
| Text.Trim | app/api/stock/route.ts:43 | `trim` is the slice after the leading white space. Everything it cuts is white space, and a non-empty result starts and ends with a non-space |
| Text.TrimUpperCommute | app/api/stock/route.ts:43 | upper-casing then trimming (manual entry) gives the same ticker as trimming then upper-casing (CSV import, line 28) |
| Text.TrimIdempotent | app/api/stock/route.ts:28 | trimming a trimmed ticker changes nothing |
| Text.UpperIdempotent | app/api/stock/route.ts:28 | upper-casing an upper-cased ticker changes nothing |
| Market.Window | app/api/stock/route.ts:163 | the timeframe filter keeps at most the bars it is given, and each bar it keeps is one of them and not before the cutoff |
| Market.WindowKeepsOrder | app/api/stock/route.ts:163 | the window holds exactly the bars at or after the cutoff, in their original order |
| Market.WindowAppend | app/api/stock/route.ts:163 | the window of a concatenation is the concatenation of the windows |
| Market.WindowAllAfter | app/api/stock/route.ts:163 | bars that are all at or after the cutoff are kept whole |
| Market.WindowAllBefore | app/api/stock/route.ts:163 | bars that are all before the cutoff are all dropped |
| Market.BarsBefore | app/api/stock/route.ts:163 | the number of leading bars before the cutoff; the next bar is not before it |
| Market.WindowOfSortedIsSuffix | app/api/stock/route.ts:163 | on a time-sorted series the window is the suffix from the first bar at or after the cutoff |
| Aggregation.FindBar | app/api/stock/route.ts:129 | `find(d => d.x === x)`: a bar found has timestamp x, and None means that no bar has it |
| Aggregation.FindBarFirst | app/api/stock/route.ts:129 | `find` returns the first bar with the timestamp |
| Aggregation.Aggregate | app/api/stock/route.ts:117-148 | at most one point per base bar, and no points when the base ticker has no data |
| Aggregation.BuildAggregate | app/api/stock/route.ts:122-148 | the nested loop computes exactly the aggregate specification |
| Aggregation.DateSums | app/api/stock/route.ts:125-138 | the inner loop over the basket computes exactly the matched sums of open, high, low, close and weight on one date |
| Aggregation.PointFor | app/api/stock/route.ts:123-147 | one outer iteration gives exactly the point the specification assigns to that base bar |
| Aggregation.AggregatePointFrom | app/api/stock/route.ts:122-147 | the k-th point comes from the base bar at the k-th kept position: same timestamp, not before the cutoff, and the undivided weighted sums of open, high, low and close on that date |
| Aggregation.AggregateFromBase | app/api/stock/route.ts:122-147 | points come from the base bars in their order, one per kept position, each as the lemma above says |
| Aggregation.AggregateComplete | app/api/stock/route.ts:122-147 | no base bar is dropped without cause: one at or after the cutoff with positive matched weight gives a point |
| Aggregation.AggregatePointsAreSums | app/api/stock/route.ts:140-146 | every point's date has positive matched weight, and the point is the matched sums on that date |
| Aggregation.AggregateSorted | app/api/stock/route.ts:122-148 | every point is at or after the cutoff, and a time-sorted base series gives a strictly increasing aggregate |
| Aggregation.ContributionWeight | app/api/stock/route.ts:128-138 | an entry adds positive weight on a date iff its weight is positive and it has a bar on that date |
| Aggregation.WeightPositiveIffActiveHolding | app/api/stock/route.ts:126-140 | with non-negative weights a date's total weight is non-negative, and positive iff some entry with positive weight has a bar on that date |
| Aggregation.SingleHoldingPoint | app/api/stock/route.ts:123-147 | in a one-ticker basket of positive weight w over a strictly time-sorted series, each bar not before the cutoff gives itself scaled by w/100, and each bar before it gives nothing |
| Aggregation.SingleHolding | app/api/stock/route.ts:122-148 | a one-ticker basket of positive weight w over a strictly time-sorted series is that ticker's window, bar for bar, with every price times w/100 |
| Aggregation.SingleHoldingMap | app/api/stock/route.ts:122-148 | a per-bar rule "in window, then scale by v" gives the window scaled by v |
| Basket.TotalWeightAppend | app/api/stock/route.ts:52 | appending an entry adds its weight to the total |
| Basket.TotalWeightConcat | app/api/stock/route.ts:87 | the total weight of a concatenation is the sum of the two totals |
| Basket.CsvTickers | app/api/stock/route.ts:27-29 | every imported ticker is non-empty, not the header word, trimmed and upper-case |
| Basket.CanonicalForms | app/api/stock/route.ts:28-29 | a ticker taken from a cell is non-empty, not the header, and already in canonical form |
| Basket.CsvTickersFromRows | app/api/stock/route.ts:27-29 | the k-th ticker is the canonical form of the k-th kept row. Rows keep their file order, and every row whose first cell canonicalises to something other than blank or TICKER is kept |
| Basket.EqualWeighted | app/api/stock/route.ts:31-32 | the tickers are kept in order, and each weight times the count is 100 |
| Basket.TotalOfEqualWeights | app/api/stock/route.ts:31-32 | n equal weights v add up to n·v |
| Basket.EqualWeightsSumTo100 | app/api/stock/route.ts:31-32 | an import that gave at least one ticker has weights that add up to 100 |
| Basket.AddManual | app/api/stock/route.ts:41-54 | the old basket is a prefix of the new one. An entry is appended iff the input is non-empty and its canonical ticker is new. That entry carries weight 100 on an empty basket and 0 otherwise, and the ticker is then present |
| Basket.AddManualKeepsNoDup | app/api/stock/route.ts:45-48 | manual addition never makes a ticker appear twice |
| Basket.AddManualTotalWeight | app/api/stock/route.ts:51-52 | the total weight is unchanged, except that the first ticker of an empty basket brings it to 100 |
| Basket.BlankInputAddsEmptyTicker | app/api/stock/route.ts:42-52 | input made only of white space passes the emptiness guard and adds the empty ticker at 100 to an empty basket |
| Basket.AllSpaceLeading | app/api/stock/route.ts:43 | a string made only of white space trims to the empty string |
| Basket.WithWeight | app/api/stock/route.ts:79-83 | only the weight at the index changes; the tickers and the other entries stay as they were |
| Basket.TotalWeightAround | app/api/stock/route.ts:79-89 | the total splits into the part before a position, the entry there, and the part after |
| Basket.WithWeightTotal | app/api/stock/route.ts:79-83 | reweighting moves the total by exactly new weight minus old weight |
| Basket.WithWeightKeepsNoDup | app/api/stock/route.ts:79-83 | reweighting never makes a ticker appear twice |
| Basket.SpliceStart | app/api/stock/route.ts:87 | the `splice` start position: the index itself when it is in [0, length]; counted from the end when negative; the length for an index past the end and 0 for one before the start. It names an entry exactly when the list is non-empty and the index is below the length |
| Basket.RemoveAt | app/api/stock/route.ts:85-89 | exactly one entry goes iff the basket is non-empty and the index is below its length, and otherwise (an empty basket, or an index at or past the end) nothing changes; a negative index counts from the end, and one below minus the length removes the first entry |
| Basket.RemoveAtKeepsOrder | app/api/stock/route.ts:85-89 | at a valid index exactly that entry goes, and the others keep their order |
| Basket.RemoveAtTotal | app/api/stock/route.ts:85-89 | removal lowers the total by the removed entry's weight |
| Basket.RemoveAtKeepsNoDup | app/api/stock/route.ts:85-89 | removal never makes a ticker appear twice |
| Basket.AddCompareTrimmed | app/api/stock/route.ts:91-98 | appends the trimmed upper-case input iff the input is non-empty and its untrimmed upper-case form is not listed; otherwise the list is unchanged |
| Basket.AddCompareTrimmedNoDup | app/api/stock/route.ts:91-98 | for input without surrounding white space, a duplicate-free list stays duplicate-free |
| Basket.AddCompareTrimmedCanDuplicate | app/api/stock/route.ts:92-94 | " spy" passes the guard beside "SPY", and "SPY" is listed twice |
| Basket.AddCompareUpper | app/page.tsx:68-75 | appends the upper-case input iff it is non-empty and not yet listed, so a duplicate-free list stays duplicate-free |
| Basket.Without | app/api/stock/route.ts:100-102 | the removed ticker no longer occurs, and the list does not grow |
| Basket.WithoutCounts | app/api/stock/route.ts:100-102 | every occurrence of the ticker goes, and every other ticker stays exactly as often as it was |
| Basket.WithoutKeepsOrder | app/api/stock/route.ts:100-102 | the remaining tickers keep their order, and every position holding another ticker survives |
| Basket.WithoutKeepsNoDup | app/page.tsx:77-79 | removal keeps a duplicate-free comparison list duplicate-free |
| Rebasing.Ratio | app/api/stock/route.ts:167 | the ratio times the first close is the start value, whenever the first close is non-zero |
| Rebasing.Normalized | app/api/stock/route.ts:162-179 | a line iff the ticker has in-window bars and the start value is positive. It is named "T (Normalized)" and has one point per window bar |
| Rebasing.NormalizedPoints | app/api/stock/route.ts:166-172 | each point has the timestamp of the matching window bar and its close × start / first close |
| Rebasing.NormalizedStartsAtAggregate | app/api/stock/route.ts:156-172 | a rebased line starts exactly at the aggregate start value |
| Rebasing.NormalizedKeepsRatios | app/api/stock/route.ts:166-172 | rebasing keeps shape: each point stands to the first as its close stands to the first close |
| RouteAnalyzer.RouteSeriesShape | app/api/stock/route.ts:105-182 | an empty basket gives no series. Otherwise the aggregate comes first, then at most one line per comparison ticker, at increasing kept positions of the comparison list |
| RouteAnalyzer.RebasedLineAt | app/api/stock/route.ts:161-179 | the k-th pushed line is the rebased line of the comparison ticker at the k-th kept position |
| RouteAnalyzer.RouteSeriesLine | app/api/stock/route.ts:150-181 | the series after the aggregate at position k + 1 is the rebased line of the ticker at the k-th kept position |
| RouteAnalyzer.RouteSeriesComplete | app/api/stock/route.ts:161-166 | a comparison ticker with in-window data gets a line whenever the start value is positive |
| RouteAnalyzer.RebasedLineStartsAt | app/api/stock/route.ts:161-179 | every pushed line is non-empty and starts at the start value, which is then positive |
| RouteAnalyzer.RouteLinesStartTogether | app/api/stock/route.ts:156-180 | every comparison line drawn is non-empty and starts at the aggregate's first close |
| RouteAnalyzer.RebasedLine | app/api/stock/route.ts:162-179 | one `forEach` callback computes exactly the rebased line of its ticker, or None when it is skipped |
| RouteAnalyzer.RebasedLines | app/api/stock/route.ts:161-179 | the `forEach` loop pushes exactly the rebased lines, in list order |
| RouteAnalyzer.PortfolioAnalyzer.constructor | app/api/stock/route.ts:11-13 | both lists start empty |
| RouteAnalyzer.PortfolioAnalyzer.HandleFileUpload | app/api/stock/route.ts:26-34 | the basket becomes the equal-weighted imported tickers; the comparison list is untouched |
| RouteAnalyzer.PortfolioAnalyzer.AddManualTicker | app/api/stock/route.ts:41-54 | the basket becomes `AddManual` of the old basket; the comparison list is untouched |
| RouteAnalyzer.PortfolioAnalyzer.UpdateWeight | app/api/stock/route.ts:79-83 | the basket becomes `WithWeight` of the old basket; the comparison list is untouched |
| RouteAnalyzer.PortfolioAnalyzer.RemovePortfolioTicker | app/api/stock/route.ts:85-89 | the basket becomes `RemoveAt` of the old basket; the comparison list is untouched |
| RouteAnalyzer.PortfolioAnalyzer.AddCompareTicker | app/api/stock/route.ts:91-98 | the comparison list becomes `AddCompareTrimmed` of the old list; the basket is untouched |
| RouteAnalyzer.PortfolioAnalyzer.RemoveCompareTicker | app/api/stock/route.ts:100-102 | the comparison list becomes `Without` of the old list; the basket is untouched |
| RouteAnalyzer.PortfolioAnalyzer.ChartSeries | app/api/stock/route.ts:105-183 | the loops compute exactly `RouteSeries`, whose shape and alignment are the two lemmas above |
| PageAnalyzer.PortfolioAnalyzer.constructor | app/page.tsx:11-13 | both lists start empty, and the duplicate-free comparison-list invariant holds |
| PageAnalyzer.PortfolioAnalyzer.HandleFileUpload | app/page.tsx:25-33 | the basket becomes the equal-weighted imported tickers; the comparison list and its invariant are kept |
| PageAnalyzer.PortfolioAnalyzer.UpdateWeight | app/page.tsx:62-66 | the basket becomes `WithWeight` of the old basket; the comparison list is untouched |
| PageAnalyzer.PortfolioAnalyzer.AddCompareTicker | app/page.tsx:68-75 | the comparison list becomes `AddCompareUpper` of the old list and stays duplicate-free |
| PageAnalyzer.PortfolioAnalyzer.RemoveCompareTicker | app/page.tsx:77-79 | the comparison list becomes `Without` of the old list and stays duplicate-free |
| PageAnalyzer.PortfolioAnalyzer.ChartSeries | app/page.tsx:82-142 | no series for an empty basket. Otherwise the aggregate, then exactly one line per comparison ticker in list order, named by the ticker and holding its unscaled in-window closes; a ticker without data gives an empty line |

## Left out

- Fetching (`fetchDataForTickers`, the `/api/stock` request, the loading flag and error alerts) is I/O. The model takes the already-fetched `stockData` map as a parameter of `ChartSeries`.
- CSV parsing by Papa Parse is a library call. `HandleFileUpload` takes the first cell of each parsed row, or None where a row has none, and the missing-file early return is not modelled.
- The cutoff timestamp is computed from the clock (`new Date()`, day arithmetic, 1 January for YTD). It is a parameter instead.
- Numbers are modelled as exact reals. The rounding by `toFixed(2)`/`parseFloat` is left out, and so is IEEE arithmetic.
- RouteAnalyzer.PortfolioAnalyzer.ChartSeries, RouteAnalyzer.RebasedLines and RouteAnalyzer.RebasedLine: require, when the aggregate starts above zero, that each comparison ticker's first in-window close is non-zero. In that case the source divides by that close and would draw Infinity/NaN points, which exact reals cannot express. When the start value is not positive the source skips every line without dividing, and the model accepts any data.
- Rebasing.Ratio: takes the ratio as 0 where the first close is 0, so that the specification functions are total. The lemmas about rebased values require a non-zero first close.
- `chartType` only decides whether the aggregate points are drawn as four values or as their close. The point keeps all four sums, and the start value is the close in both modes.
- RouteAnalyzer.PortfolioAnalyzer.UpdateWeight and PageAnalyzer.PortfolioAnalyzer.UpdateWeight: require an index inside the basket. The source fails with a TypeError otherwise. Also, the source mutates the entry object that the old array shares; the model builds a new entry, which is all the next render can tell apart.
- `toUpperCase` is modelled for the ASCII letters only; other characters are left unchanged.
- The text-box state (`newCompareTicker`, `newPortfolioTicker`) and its clearing become input parameters. React's asynchronous batching of `setState` is not modelled; each handler sees the state left by the previous one.
- The JSX, the chart options, the timeframe and chart-type buttons and `app/layout.tsx` are presentation only.
- The aggregate's scale invariance (doubling every weight doubles every point) is not stated as a lemma. Only the one-holding case appears, as `Aggregation.SingleHolding` for any positive weight over a strictly time-sorted series. With weight 0 the aggregate is empty, and with repeated timestamps `find` returns the first bar each time, so neither case is a scaled window.
