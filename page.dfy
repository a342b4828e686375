/** The older revision of the page component (app/page.tsx): CSV import,
    reweighting, the comparison list, and the chart series with the raw
    closes of every comparison ticker. */
module PageAnalyzer {
  import opened Seqs
  import opened Market
  import opened Aggregation
  import opened Basket

  /** The line drawn for one comparison ticker: its in-window closes as they
      are, possibly none. */
  function RawSeries(ticker: string, data: StockData, cutoff: int): Series {
    LineSeries(ticker, Closes(Window(BarsOf(data, ticker), cutoff)))
  }

  /** The value of `chartSeries`. */
  function PageSeries(portfolio: seq<Entry>, compare: seq<string>, data: StockData, cutoff: int): seq<Series> {
    if portfolio == [] then []
    else [AggregateSeries(Aggregate(portfolio, data, cutoff))]
         + seq(|compare|, k requires 0 <= k < |compare| => RawSeries(compare[k], data, cutoff))
  }

  class PortfolioAnalyzer {
    var portfolio: seq<Entry>
    var compareTickers: seq<string>

    /** The comparison list never holds a ticker twice. */
    ghost predicate Valid()
      reads this
    {
      NoDup(compareTickers)
    }

    constructor ()
      ensures Valid()
      ensures portfolio == [] && compareTickers == []
    {
      portfolio := [];
      compareTickers := [];
    }

    /** `handleFileUpload` once the file is parsed: `cells` holds the first
        cell of every row (None where a row has none). */
    method HandleFileUpload(cells: seq<Option<string>>)
      requires Valid()
      modifies this
      ensures Valid()
      ensures portfolio == EqualWeighted(CsvTickers(cells))
      ensures compareTickers == old(compareTickers)
    {
      var tickers := CsvTickers(cells);
      portfolio := EqualWeighted(tickers);
    }

    method UpdateWeight(index: int, newWeight: real)
      requires Valid()
      requires 0 <= index < |portfolio|
      modifies this
      ensures Valid()
      ensures portfolio == WithWeight(old(portfolio), index, newWeight)
      ensures compareTickers == old(compareTickers)
    {
      var newPort := portfolio;
      newPort := newPort[index := Entry(newPort[index].ticker, newWeight)];
      portfolio := newPort;
    }

    method AddCompareTicker(newCompareTicker: string)
      requires Valid()
      modifies this
      ensures Valid()
      ensures compareTickers == AddCompareUpper(old(compareTickers), newCompareTicker)
      ensures portfolio == old(portfolio)
    {
      compareTickers := AddCompareUpper(compareTickers, newCompareTicker);
    }

    method RemoveCompareTicker(ticker: string)
      requires Valid()
      modifies this
      ensures Valid()
      ensures compareTickers == Without(old(compareTickers), ticker)
      ensures portfolio == old(portfolio)
    {
      WithoutKeepsNoDup(compareTickers, ticker);
      compareTickers := Without(compareTickers, ticker);
    }

    /** `chartSeries`: no series for an empty basket; otherwise the
        aggregate, then exactly one line per comparison ticker, in list
        order, holding that ticker's in-window closes unscaled; a ticker
        without data gives an empty line. */
    method ChartSeries(stockData: StockData, cutoffTime: int) returns (series: seq<Series>)
      ensures series == PageSeries(portfolio, compareTickers, stockData, cutoffTime)
      ensures portfolio == [] ==> series == []
      ensures portfolio != [] ==>
        |series| == 1 + |compareTickers|
        && series[0] == AggregateSeries(Aggregate(portfolio, stockData, cutoffTime))
        && forall k :: 0 <= k < |compareTickers| ==>
             series[k + 1].LineSeries? && series[k + 1].name == compareTickers[k]
             && series[k + 1].line == Closes(Window(BarsOf(stockData, compareTickers[k]), cutoffTime))
             && (compareTickers[k] !in stockData ==> series[k + 1].line == [])
    {
      if |portfolio| == 0 {
        return [];
      }
      var aggregateData := BuildAggregate(portfolio, stockData, cutoffTime);
      series := [AggregateSeries(aggregateData)];
      var i := 0;
      while i < |compareTickers|
        invariant 0 <= i <= |compareTickers|
        invariant |series| == 1 + i && series[0] == AggregateSeries(aggregateData)
        invariant forall k :: 0 <= k < i ==> series[k + 1] == RawSeries(compareTickers[k], stockData, cutoffTime)
      {
        var ticker := compareTickers[i];
        var cData := BarsOf(stockData, ticker);
        var filteredData := Closes(Window(cData, cutoffTime));
        series := series + [LineSeries(ticker, filteredData)];
        i := i + 1;
      }
    }
  }
}
