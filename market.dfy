/** The values the page computes with: price bars as the stock endpoint
    returns them, basket entries, chart points and chart series. */
module Market {
  import opened Seqs

  /** One bar `{ x, y: [open, high, low, close] }`; `x` is a timestamp in
      milliseconds. */
  datatype Bar = Bar(x: int, open: real, high: real, low: real, close: real)

  /** One basket entry `{ ticker, weight }`; the weight is in percentage
      points. */
  datatype Entry = Entry(ticker: string, weight: real)

  /** A point of the aggregate series. Line mode draws `close`, candlestick
      mode all four values. */
  datatype AggPoint = AggPoint(x: int, open: real, high: real, low: real, close: real)

  /** A point of a comparison line. */
  datatype LinePoint = LinePoint(x: int, y: real)

  datatype Series =
    | AggregateSeries(points: seq<AggPoint>)
    | LineSeries(name: string, line: seq<LinePoint>)

  type StockData = map<string, seq<Bar>>

  /** `stockData[ticker] || []`. */
  function BarsOf(data: StockData, ticker: string): (bars: seq<Bar>)
    ensures ticker !in data ==> bars == []
    ensures ticker in data ==> bars == data[ticker]
  {
    if ticker in data then data[ticker] else []
  }

  function InWindow(cutoff: int): Bar -> Option<Bar> {
    (b: Bar) => if b.x >= cutoff then Some(b) else None
  }

  /** `bars.filter(d => d.x >= cutoff)`. */
  function Window(bars: seq<Bar>, cutoff: int): (w: seq<Bar>)
    ensures |w| <= |bars|
    ensures forall k :: 0 <= k < |w| ==> w[k] in bars && w[k].x >= cutoff
  {
    FilterMapIndices(bars, InWindow(cutoff));
    FilterMap(bars, InWindow(cutoff))
  }

  /** The window keeps exactly the bars at or after the cutoff, in their
      order: the k-th kept bar is bars[KeptIndices[k]], the kept positions
      increase, and every bar with x >= cutoff is among them. */
  lemma WindowKeepsOrder(bars: seq<Bar>, cutoff: int)
    ensures var w, idx := Window(bars, cutoff), KeptIndices(bars, InWindow(cutoff));
      |idx| == |w|
      && (forall k :: 0 <= k < |idx| ==> idx[k] < |bars| && w[k] == bars[idx[k]])
      && (forall k, l :: 0 <= k < l < |idx| ==> idx[k] < idx[l])
      && (forall i :: 0 <= i < |bars| && bars[i].x >= cutoff ==> i in idx)
  {
    FilterMapIndices(bars, InWindow(cutoff));
  }

  predicate StrictlyIncreasing(bars: seq<Bar>) {
    forall i, j :: 0 <= i < j < |bars| ==> bars[i].x < bars[j].x
  }

  /** The window of a concatenation is the concatenation of the windows. */
  lemma {:induction false} WindowAppend(u: seq<Bar>, v: seq<Bar>, cutoff: int)
    ensures Window(u + v, cutoff) == Window(u, cutoff) + Window(v, cutoff)
    decreases |v|
  {
    if v != [] {
      var v0 := v[..|v| - 1];
      assert (u + v)[..|u + v| - 1] == u + v0;
      WindowAppend(u, v0, cutoff);
    } else {
      assert u + v == u;
    }
  }

  lemma {:induction false} WindowAllAfter(bars: seq<Bar>, cutoff: int)
    requires forall i :: 0 <= i < |bars| ==> bars[i].x >= cutoff
    ensures Window(bars, cutoff) == bars
    decreases |bars|
  {
    if bars != [] {
      WindowAllAfter(bars[..|bars| - 1], cutoff);
    }
  }

  lemma {:induction false} WindowAllBefore(bars: seq<Bar>, cutoff: int)
    requires forall i :: 0 <= i < |bars| ==> bars[i].x < cutoff
    ensures Window(bars, cutoff) == []
    decreases |bars|
  {
    if bars != [] {
      WindowAllBefore(bars[..|bars| - 1], cutoff);
    }
  }

  /** Number of bars before the first one at or after the cutoff. */
  function BarsBefore(bars: seq<Bar>, cutoff: int): (n: nat)
    ensures n <= |bars|
    ensures forall i :: 0 <= i < n ==> bars[i].x < cutoff
    ensures n < |bars| ==> bars[n].x >= cutoff
  {
    if bars != [] && bars[0].x < cutoff then 1 + BarsBefore(bars[1..], cutoff) else 0
  }

  /** On a series sorted by time, every bar from the first one at or after
      the cutoff on is at or after it too. */
  lemma SortedAfterFirst(bars: seq<Bar>, cutoff: int, a: nat)
    requires StrictlyIncreasing(bars) && a <= |bars|
    requires a < |bars| ==> bars[a].x >= cutoff
    ensures forall i :: 0 <= i < |bars[a..]| ==> bars[a..][i].x >= cutoff
  {
    forall i | 0 <= i < |bars[a..]| ensures bars[a..][i].x >= cutoff {
      if i > 0 { assert bars[a].x < bars[a + i].x; }
    }
  }

  /** On a series sorted by time the window is a suffix: everything from the
      first bar at or after the cutoff. */
  lemma WindowOfSortedIsSuffix(bars: seq<Bar>, cutoff: int)
    requires StrictlyIncreasing(bars)
    ensures Window(bars, cutoff) == bars[BarsBefore(bars, cutoff)..]
  {
    var a := BarsBefore(bars, cutoff);
    var u, v := bars[..a], bars[a..];
    assert bars == u + v;
    WindowAppend(u, v, cutoff);
    WindowAllBefore(u, cutoff);
    SortedAfterFirst(bars, cutoff, a);
    WindowAllAfter(v, cutoff);
  }

  /** `d => ({ x: d.x, y: d.y[3] })` over a window: its closes. */
  function Closes(w: seq<Bar>): (line: seq<LinePoint>)
    ensures |line| == |w|
    ensures forall k :: 0 <= k < |w| ==> line[k] == LinePoint(w[k].x, w[k].close)
  {
    seq(|w|, k requires 0 <= k < |w| => LinePoint(w[k].x, w[k].close))
  }
}
