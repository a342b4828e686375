/** The newer revision of the page component (app/api/stock/route.ts): the
    basket with manual addition, reweighting and removal, the comparison
    list, and the chart series with rebased comparison lines. */
module RouteAnalyzer {
  import opened Seqs
  import opened Market
  import opened Aggregation
  import opened Basket
  import opened Rebasing

  predicate AllRebasable(data: StockData, ts: seq<string>, cutoff: int) {
    forall i :: 0 <= i < |ts| ==> Rebasable(BarsOf(data, ts[i]), cutoff)
  }

  /** The value of `chartSeries`. */
  function RouteSeries(portfolio: seq<Entry>, compare: seq<string>, data: StockData, cutoff: int): seq<Series>
  {
    if portfolio == [] then []
    else
      var agg := Aggregate(portfolio, data, cutoff);
      [AggregateSeries(agg)] + FilterMap(compare, NormalizeFor(data, cutoff, StartValue(agg)))
  }

  /** Series list structure: none for an empty basket; otherwise the
      aggregate first, then at most one line per comparison ticker, in list
      order, each the rebased line of the ticker at its kept position. */
  lemma RouteSeriesShape(portfolio: seq<Entry>, compare: seq<string>, data: StockData, cutoff: int)
    ensures portfolio == [] ==> RouteSeries(portfolio, compare, data, cutoff) == []
    ensures portfolio != [] ==>
      var series, agg := RouteSeries(portfolio, compare, data, cutoff), Aggregate(portfolio, data, cutoff);
      var idx := KeptIndices(compare, NormalizeFor(data, cutoff, StartValue(agg)));
      1 <= |series| <= 1 + |compare|
      && series[0] == AggregateSeries(agg)
      && |idx| == |series| - 1
      && (forall k, l :: 0 <= k < l < |idx| ==> idx[k] < idx[l])
      && (forall k :: 0 <= k < |idx| ==> idx[k] < |compare|)
  {
    if portfolio != [] {
      var agg := Aggregate(portfolio, data, cutoff);
      var f := NormalizeFor(data, cutoff, StartValue(agg));
      var lines := FilterMap(compare, f);
      var series := RouteSeries(portfolio, compare, data, cutoff);
      assert series == [AggregateSeries(agg)] + lines;
      FilterMapIndices(compare, f);
      var idx := KeptIndices(compare, f);
    }
  }

  /** The k-th rebased line, for any start value, is the rebased line of
      the comparison ticker at the k-th kept position. */
  lemma RebasedLineAt(compare: seq<string>, data: StockData, cutoff: int, start: real, k: nat)
    requires k < |KeptIndices(compare, NormalizeFor(data, cutoff, start))|
    ensures var f := NormalizeFor(data, cutoff, start);
      var idx, lines := KeptIndices(compare, f), FilterMap(compare, f);
      idx[k] < |compare| && k < |lines|
      && Normalized(compare[idx[k]], BarsOf(data, compare[idx[k]]), cutoff, start) == Some(lines[k])
  {
    var f := NormalizeFor(data, cutoff, start);
    FilterMapIndices(compare, f);
    var t := compare[KeptIndices(compare, f)[k]];
    assert f(t) == Normalized(t, BarsOf(data, t), cutoff, start);
  }

  /** The line after the aggregate at position k + 1 is the rebased line of
      the comparison ticker at the k-th kept position. */
  lemma RouteSeriesLine(portfolio: seq<Entry>, compare: seq<string>, data: StockData, cutoff: int, k: nat)
    requires portfolio != []
    requires k < |KeptIndices(compare, NormalizeFor(data, cutoff, StartValue(Aggregate(portfolio, data, cutoff))))|
    ensures var series, start := RouteSeries(portfolio, compare, data, cutoff), StartValue(Aggregate(portfolio, data, cutoff));
      var idx := KeptIndices(compare, NormalizeFor(data, cutoff, start));
      idx[k] < |compare| && k + 1 < |series|
      && Normalized(compare[idx[k]], BarsOf(data, compare[idx[k]]), cutoff, start) == Some(series[k + 1])
  {
    var agg := Aggregate(portfolio, data, cutoff);
    var start := StartValue(agg);
    var lines := FilterMap(compare, NormalizeFor(data, cutoff, start));
    var series := RouteSeries(portfolio, compare, data, cutoff);
    assert series == [AggregateSeries(agg)] + lines;
    RebasedLineAt(compare, data, cutoff, start, k);
    assert series[k + 1] == lines[k];
  }

  /** No ticker is skipped without cause: a comparison ticker with data in
      the window gets a line whenever the aggregate starts above zero. */
  lemma RouteSeriesComplete(portfolio: seq<Entry>, compare: seq<string>, data: StockData, cutoff: int, i: nat)
    requires portfolio != []
    requires i < |compare| && Window(BarsOf(data, compare[i]), cutoff) != []
    requires StartValue(Aggregate(portfolio, data, cutoff)) > 0.0
    ensures i in KeptIndices(compare, NormalizeFor(data, cutoff, StartValue(Aggregate(portfolio, data, cutoff))))
  {
    var f := NormalizeFor(data, cutoff, StartValue(Aggregate(portfolio, data, cutoff)));
    FilterMapIndices(compare, f);
    var t := compare[i];
    assert f(t) == Normalized(t, BarsOf(data, t), cutoff, StartValue(Aggregate(portfolio, data, cutoff)));
  }

  /** Every rebased line is non-empty and starts at the start value, which
      is then positive. */
  lemma RebasedLineStartsAt(compare: seq<string>, data: StockData, cutoff: int, start: real, k: nat)
    requires start > 0.0 ==> AllRebasable(data, compare, cutoff)
    requires k < |FilterMap(compare, NormalizeFor(data, cutoff, start))|
    ensures var line := FilterMap(compare, NormalizeFor(data, cutoff, start))[k];
      start > 0.0 && line.LineSeries? && line.line != [] && line.line[0].y == start
  {
    var f := NormalizeFor(data, cutoff, start);
    FilterMapIndices(compare, f);
    RebasedLineAt(compare, data, cutoff, start, k);
    var t := compare[KeptIndices(compare, f)[k]];
    assert Rebasable(BarsOf(data, t), cutoff);
    NormalizedStartsAtAggregate(t, BarsOf(data, t), cutoff, start);
  }

  /** Every comparison line that is drawn starts at the aggregate's first
      close. */
  lemma RouteLinesStartTogether(portfolio: seq<Entry>, compare: seq<string>, data: StockData, cutoff: int, j: nat)
    requires portfolio != []
    requires StartValue(Aggregate(portfolio, data, cutoff)) > 0.0 ==> AllRebasable(data, compare, cutoff)
    requires 1 <= j < |RouteSeries(portfolio, compare, data, cutoff)|
    ensures var series, agg := RouteSeries(portfolio, compare, data, cutoff), Aggregate(portfolio, data, cutoff);
      series[j].LineSeries? && series[j].line != [] && agg != [] && series[j].line[0].y == agg[0].close
  {
    var agg := Aggregate(portfolio, data, cutoff);
    var start := StartValue(agg);
    var lines := FilterMap(compare, NormalizeFor(data, cutoff, start));
    var series := RouteSeries(portfolio, compare, data, cutoff);
    assert series == [AggregateSeries(agg)] + lines;
    assert series[j] == lines[j - 1];
    RebasedLineStartsAt(compare, data, cutoff, start, j - 1);
  }

  /** The `compareTickers.forEach` callback (lines 162-179): the rebased
      line of one comparison ticker, or None when it is skipped. */
  method RebasedLine(ticker: string, stockData: StockData, cutoffTime: int, portfolioStartValue: real)
    returns (line: Option<Series>)
    requires portfolioStartValue > 0.0 ==> Rebasable(BarsOf(stockData, ticker), cutoffTime)
    ensures line == NormalizeFor(stockData, cutoffTime, portfolioStartValue)(ticker)
  {
    var cData := BarsOf(stockData, ticker);
    var timeFiltered := Window(cData, cutoffTime);
    if |timeFiltered| > 0 && portfolioStartValue > 0.0 {
      var compStartValue := timeFiltered[0].close;
      var ratio := portfolioStartValue / compStartValue;
      var normalizedData := Multiplied(timeFiltered, ratio);
      return Some(LineSeries(ticker + " (Normalized)", normalizedData));
    }
    return None;
  }

  /** `compareTickers.forEach(...)`: the line pushed for each comparison
      ticker that is not skipped, in list order. */
  method RebasedLines(compareTickers: seq<string>, stockData: StockData, cutoffTime: int, portfolioStartValue: real)
    returns (lines: seq<Series>)
    requires portfolioStartValue > 0.0 ==> AllRebasable(stockData, compareTickers, cutoffTime)
    ensures lines == FilterMap(compareTickers, NormalizeFor(stockData, cutoffTime, portfolioStartValue))
  {
    ghost var f := NormalizeFor(stockData, cutoffTime, portfolioStartValue);
    lines := [];
    var i := 0;
    while i < |compareTickers|
      invariant 0 <= i <= |compareTickers|
      invariant lines == FilterMap(compareTickers[..i], f)
    {
      var ticker := compareTickers[i];
      var line := RebasedLine(ticker, stockData, cutoffTime, portfolioStartValue);
      FilterMapPush(compareTickers, i, f, lines, line);
      if line.Some? {
        lines := lines + [line.value];
      }
      i := i + 1;
    }
    assert compareTickers[..|compareTickers|] == compareTickers;
  }

  class PortfolioAnalyzer {
    var portfolio: seq<Entry>
    var compareTickers: seq<string>

    constructor ()
      ensures portfolio == [] && compareTickers == []
    {
      portfolio := [];
      compareTickers := [];
    }

    /** `handleFileUpload` once the file is parsed: `cells` holds the first
        cell of every row (None where a row has none). */
    method HandleFileUpload(cells: seq<Option<string>>)
      modifies this
      ensures portfolio == EqualWeighted(CsvTickers(cells))
      ensures compareTickers == old(compareTickers)
    {
      var tickers := CsvTickers(cells);
      portfolio := EqualWeighted(tickers);
    }

    method AddManualTicker(newPortfolioTicker: string)
      modifies this
      ensures portfolio == AddManual(old(portfolio), newPortfolioTicker)
      ensures compareTickers == old(compareTickers)
    {
      portfolio := AddManual(portfolio, newPortfolioTicker);
    }

    method UpdateWeight(index: int, newWeight: real)
      requires 0 <= index < |portfolio|
      modifies this
      ensures portfolio == WithWeight(old(portfolio), index, newWeight)
      ensures compareTickers == old(compareTickers)
    {
      var newPort := portfolio;
      newPort := newPort[index := Entry(newPort[index].ticker, newWeight)];
      portfolio := newPort;
    }

    method RemovePortfolioTicker(index: int)
      modifies this
      ensures portfolio == RemoveAt(old(portfolio), index)
      ensures compareTickers == old(compareTickers)
    {
      var newPort := portfolio;
      var start := SpliceStart(|newPort|, index);
      if start < |newPort| {
        newPort := newPort[..start] + newPort[start + 1..];
      }
      portfolio := newPort;
    }

    method AddCompareTicker(newCompareTicker: string)
      modifies this
      ensures compareTickers == AddCompareTrimmed(old(compareTickers), newCompareTicker)
      ensures portfolio == old(portfolio)
    {
      compareTickers := AddCompareTrimmed(compareTickers, newCompareTicker);
    }

    method RemoveCompareTicker(ticker: string)
      modifies this
      ensures compareTickers == Without(old(compareTickers), ticker)
      ensures portfolio == old(portfolio)
    {
      compareTickers := Without(compareTickers, ticker);
    }

    /** `chartSeries`: the aggregate, then one rebased line per comparison
        ticker that has data in the window, while the aggregate starts
        above zero. */
    method ChartSeries(stockData: StockData, cutoffTime: int) returns (series: seq<Series>)
      requires portfolio != [] && StartValue(Aggregate(portfolio, stockData, cutoffTime)) > 0.0 ==>
        AllRebasable(stockData, compareTickers, cutoffTime)
      ensures series == RouteSeries(portfolio, compareTickers, stockData, cutoffTime)
    {
      if |portfolio| == 0 {
        return [];
      }
      var aggregateData := BuildAggregate(portfolio, stockData, cutoffTime);
      var portfolioStartValue := if |aggregateData| > 0 then aggregateData[0].close else 0.0;
      var lines := RebasedLines(compareTickers, stockData, cutoffTime, portfolioStartValue);
      series := [AggregateSeries(aggregateData)] + lines;
    }
  }
}
