/** The comparison lines of route.ts: each comparison ticker's closes in the
    window, multiplied so that the line starts where the aggregate starts. */
module Rebasing {
  import opened Seqs
  import opened Market

  /** The aggregate's start value, `portfolioStartValue`: the first point's
      close, or 0 when the aggregate is empty. */
  function StartValue(agg: seq<AggPoint>): (v: real)
    ensures agg == [] ==> v == 0.0
    ensures agg != [] ==> v == agg[0].close
  {
    if |agg| > 0 then agg[0].close else 0.0
  }

  /** The first in-window close can be divided by. */
  predicate Rebasable(bars: seq<Bar>, cutoff: int) {
    Window(bars, cutoff) != [] ==> Window(bars, cutoff)[0].close != 0.0
  }

  /** `timeFiltered.map(d => ({ x: d.x, y: d.y[3] * ratio }))`. */
  function Multiplied(w: seq<Bar>, ratio: real): (line: seq<LinePoint>)
    ensures |line| == |w|
    ensures forall k :: 0 <= k < |w| ==> line[k] == LinePoint(w[k].x, w[k].close * ratio)
  {
    seq(|w|, k requires 0 <= k < |w| => LinePoint(w[k].x, w[k].close * ratio))
  }

  /** `portfolioStartValue / compStartValue`. Where the source would divide
      by zero (a first close of 0) the ratio is taken as 0 here; the methods
      that compute chart series exclude that case by their preconditions. */
  function Ratio(start: real, first: real): (ratio: real)
    ensures first != 0.0 ==> ratio * first == start
  {
    if first != 0.0 then start / first else 0.0
  }

  /** The series pushed for one comparison ticker, or None when it is
      skipped: it is emitted exactly when the ticker has a bar at or after
      the cutoff and the aggregate starts above zero, and then has one point
      per in-window bar. */
  function Normalized(ticker: string, bars: seq<Bar>, cutoff: int, start: real): (r: Option<Series>)
    ensures r.Some? <==> Window(bars, cutoff) != [] && start > 0.0
    ensures r.Some? ==> r.value.LineSeries? && r.value.name == ticker + " (Normalized)"
    ensures r.Some? ==> |r.value.line| == |Window(bars, cutoff)|
  {
    var timeFiltered := Window(bars, cutoff);
    if |timeFiltered| > 0 && start > 0.0 then
      Some(LineSeries(ticker + " (Normalized)", Multiplied(timeFiltered, Ratio(start, timeFiltered[0].close))))
    else None
  }

  /** Each point of an emitted line sits on the date of the corresponding
      in-window bar, at that bar's close times start / first close. */
  lemma NormalizedPoints(ticker: string, bars: seq<Bar>, cutoff: int, start: real, k: nat)
    requires Rebasable(bars, cutoff)
    requires Normalized(ticker, bars, cutoff, start).Some?
    requires k < |Window(bars, cutoff)|
    ensures var line, w := Normalized(ticker, bars, cutoff, start).value.line, Window(bars, cutoff);
      line[k].x == w[k].x && line[k].y == w[k].close * (start / w[0].close)
  {
    var w := Window(bars, cutoff);
    assert Normalized(ticker, bars, cutoff, start).value.line == Multiplied(w, start / w[0].close);
  }

  /** The purpose of rebasing: an emitted line starts at the aggregate's
      start value. */
  lemma NormalizedStartsAtAggregate(ticker: string, bars: seq<Bar>, cutoff: int, start: real)
    requires Rebasable(bars, cutoff)
    requires Normalized(ticker, bars, cutoff, start).Some?
    ensures Normalized(ticker, bars, cutoff, start).value.line[0].y == start
  {
    var w := Window(bars, cutoff);
    var c := w[0].close;
    assert Normalized(ticker, bars, cutoff, start).value.line == Multiplied(w, Ratio(start, c));
    assert (start / c) * c == start;
  }

  /** Rebasing keeps the shape of the ticker's line: every point stands to
      the first as the corresponding close stands to the first close. */
  lemma NormalizedKeepsRatios(ticker: string, bars: seq<Bar>, cutoff: int, start: real, k: nat)
    requires Rebasable(bars, cutoff)
    requires Normalized(ticker, bars, cutoff, start).Some?
    requires k < |Window(bars, cutoff)|
    ensures var line, w := Normalized(ticker, bars, cutoff, start).value.line, Window(bars, cutoff);
      line[k].y * w[0].close == w[k].close * line[0].y
  {
    var w := Window(bars, cutoff);
    var c := w[0].close;
    var ratio := start / c;
    NormalizedStartsAtAggregate(ticker, bars, cutoff, start);
    assert Normalized(ticker, bars, cutoff, start).value.line == Multiplied(w, ratio);
    assert (w[k].close * ratio) * c == w[k].close * (ratio * c);
    assert ratio * c == start;
  }

  function NormalizeFor(data: StockData, cutoff: int, start: real): string -> Option<Series> {
    t => Normalized(t, BarsOf(data, t), cutoff, start)
  }
}
