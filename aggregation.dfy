/** The aggregate portfolio series of `chartSeries`. Both revisions of the
    page build it with the same loop: walk the first entry's bars, skip the
    ones before the cutoff, and for every remaining date add up
    weight/100 times the open, high, low and close of each entry's bar with
    exactly that timestamp. */
module Aggregation {
  import opened Seqs
  import opened Market

  /** `bars.find(d => d.x === x)`: the first bar with timestamp `x`. */
  function FindBar(bars: seq<Bar>, x: int): (r: Option<Bar>)
    ensures r.Some? ==> r.value in bars && r.value.x == x
    ensures r.None? <==> forall i :: 0 <= i < |bars| ==> bars[i].x != x
  {
    if bars == [] then None
    else if bars[0].x == x then Some(bars[0])
    else FindBar(bars[1..], x)
  }

  /** The bar found is the first one carrying the timestamp. */
  lemma {:induction false} FindBarFirst(bars: seq<Bar>, x: int, i: nat)
    requires i < |bars| && bars[i].x == x
    requires forall j :: 0 <= j < i ==> bars[j].x != x
    ensures FindBar(bars, x) == Some(bars[i])
    decreases i
  {
    if i > 0 {
      FindBarFirst(bars[1..], x, i - 1);
    }
  }

  /** The running sums `aggOpen`, `aggHigh`, `aggLow`, `aggClose` and
      `totalWeight`. */
  datatype Acc = Acc(open: real, high: real, low: real, close: real, weight: real)

  const Zero := Acc(0.0, 0.0, 0.0, 0.0, 0.0)

  function Plus(a: Acc, b: Acc): Acc {
    Acc(a.open + b.open, a.high + b.high, a.low + b.low, a.close + b.close, a.weight + b.weight)
  }

  /** One entry's share on date `x`: nothing if its ticker has no bar at `x`,
      otherwise w times its bar with w = weight / 100. */
  function Contribution(e: Entry, data: StockData, x: int): Acc {
    match FindBar(BarsOf(data, e.ticker), x)
    case None => Zero
    case Some(b) => Share(b, e.weight / 100.0)
  }

  /** What one matched bar adds at fraction w. */
  function Share(b: Bar, w: real): Acc {
    Acc(b.open * w, b.high * w, b.low * w, b.close * w, w)
  }

  /** The sums after `portfolio.forEach` has visited the entries of `es`. */
  function AccOf(es: seq<Entry>, data: StockData, x: int): Acc
    decreases |es|
  {
    if es == [] then Zero
    else Plus(AccOf(es[..|es| - 1], data, x), Contribution(es[|es| - 1], data, x))
  }

  /** One step of `portfolio.forEach`. */
  lemma AccOfStep(es: seq<Entry>, j: nat, data: StockData, x: int)
    requires j < |es|
    ensures AccOf(es[..j + 1], data, x) == Plus(AccOf(es[..j], data, x), Contribution(es[j], data, x))
  {
    assert es[..j + 1][..j] == es[..j];
  }

  /** What the loop makes of one base bar: a point if it is not before the
      cutoff and the matched weight is positive, nothing otherwise. */
  function PointAt(b: Bar, portfolio: seq<Entry>, data: StockData, cutoff: int): Option<AggPoint> {
    if b.x < cutoff then None
    else if AccOf(portfolio, data, b.x).weight > 0.0 then Some(SumsAt(portfolio, data, b.x))
    else None
  }

  /** The point pushed for date `x`: the four matched sums, undivided. */
  function SumsAt(portfolio: seq<Entry>, data: StockData, x: int): AggPoint {
    var a := AccOf(portfolio, data, x);
    AggPoint(x, a.open, a.high, a.low, a.close)
  }

  function PointOf(portfolio: seq<Entry>, data: StockData, cutoff: int): Bar -> Option<AggPoint> {
    b => PointAt(b, portfolio, data, cutoff)
  }

  /** The base series: the bars of the first entry's ticker. */
  function BaseBars(portfolio: seq<Entry>, data: StockData): seq<Bar>
    requires portfolio != []
  {
    BarsOf(data, portfolio[0].ticker)
  }

  /** `aggregateData`. A base ticker without data gives no points. */
  function Aggregate(portfolio: seq<Entry>, data: StockData, cutoff: int): (points: seq<AggPoint>)
    requires portfolio != []
    ensures |points| <= |BaseBars(portfolio, data)|
    ensures portfolio[0].ticker !in data ==> points == []
  {
    FilterMap(BaseBars(portfolio, data), PointOf(portfolio, data, cutoff))
  }

  /** The `portfolio.forEach` of lines 128-138 (route.ts) / 99-109
      (page.tsx): the running sums for date `x`. */
  method DateSums(portfolio: seq<Entry>, data: StockData, x: int) returns (sums: Acc)
    ensures sums == AccOf(portfolio, data, x)
  {
    var aggOpen, aggHigh, aggLow, aggClose := 0.0, 0.0, 0.0, 0.0;
    var totalWeight := 0.0;
    var j := 0;
    while j < |portfolio|
      invariant 0 <= j <= |portfolio|
      invariant Acc(aggOpen, aggHigh, aggLow, aggClose, totalWeight) == AccOf(portfolio[..j], data, x)
    {
      AccOfStep(portfolio, j, data, x);
      var sData := FindBar(BarsOf(data, portfolio[j].ticker), x);
      if sData.Some? {
        var w := portfolio[j].weight / 100.0;
        // c holds sData.y[0] * w, ..., sData.y[3] * w and w
        var c := Share(sData.value, w);
        aggOpen := aggOpen + c.open;
        aggHigh := aggHigh + c.high;
        aggLow := aggLow + c.low;
        aggClose := aggClose + c.close;
        totalWeight := totalWeight + c.weight;
      }
      j := j + 1;
    }
    assert portfolio[..|portfolio|] == portfolio;
    sums := Acc(aggOpen, aggHigh, aggLow, aggClose, totalWeight);
  }

  /** One pass of the outer loop body: the point pushed for base bar `b`,
      if any. */
  method PointFor(b: Bar, portfolio: seq<Entry>, data: StockData, cutoff: int) returns (point: Option<AggPoint>)
    ensures point == PointAt(b, portfolio, data, cutoff)
  {
    if b.x < cutoff {
      return None;
    }
    var sums := DateSums(portfolio, data, b.x);
    if sums.weight > 0.0 {
      return Some(AggPoint(b.x, sums.open, sums.high, sums.low, sums.close));
    }
    return None;
  }

  /** The loop of lines 122-148 (route.ts) / 93-119 (page.tsx). */
  method BuildAggregate(portfolio: seq<Entry>, data: StockData, cutoff: int) returns (points: seq<AggPoint>)
    requires portfolio != []
    ensures points == Aggregate(portfolio, data, cutoff)
  {
    var baseData := BarsOf(data, portfolio[0].ticker);
    ghost var f := PointOf(portfolio, data, cutoff);
    points := [];
    var i := 0;
    while i < |baseData|
      invariant 0 <= i <= |baseData|
      invariant points == FilterMap(baseData[..i], f)
    {
      var point := PointFor(baseData[i], portfolio, data, cutoff);
      assert f(baseData[i]) == point;
      if point.Some? {
        points := points + [point.value];
      }
      FilterMapStep(baseData, i, f);
      i := i + 1;
    }
    assert baseData[..|baseData|] == baseData;
  }

  /** What one base bar gives: a point exactly when it is not before the
      cutoff and its matched weight is positive, and then the matched sums
      on that bar's timestamp. */
  lemma PointAtCases(b: Bar, portfolio: seq<Entry>, data: StockData, cutoff: int)
    ensures PointAt(b, portfolio, data, cutoff).Some? <==>
      b.x >= cutoff && AccOf(portfolio, data, b.x).weight > 0.0
    ensures PointAt(b, portfolio, data, cutoff).Some? ==>
      PointAt(b, portfolio, data, cutoff).value == SumsAt(portfolio, data, b.x)
      && SumsAt(portfolio, data, b.x).x == b.x
  {
  }

  /** The k-th point comes from the base bar at the k-th kept position:
      same date, not before the cutoff, and the matched sums on that date. */
  lemma AggregatePointFrom(portfolio: seq<Entry>, data: StockData, cutoff: int, k: nat)
    requires portfolio != []
    requires k < |KeptIndices(BaseBars(portfolio, data), PointOf(portfolio, data, cutoff))|
    ensures var base, pts, idx := BaseBars(portfolio, data), Aggregate(portfolio, data, cutoff),
                                  KeptIndices(BaseBars(portfolio, data), PointOf(portfolio, data, cutoff));
      k < |pts| && idx[k] < |base| && pts[k].x == base[idx[k]].x && base[idx[k]].x >= cutoff
      && pts[k] == SumsAt(portfolio, data, base[idx[k]].x)
  {
    var base, f := BaseBars(portfolio, data), PointOf(portfolio, data, cutoff);
    FilterMapIndices(base, f);
    var b := base[KeptIndices(base, f)[k]];
    assert f(b) == PointAt(b, portfolio, data, cutoff);
    PointAtCases(b, portfolio, data, cutoff);
  }

  /** Which dates appear: the k-th point comes from the base bar at the k-th
      kept position, and kept positions increase. */
  lemma AggregateFromBase(portfolio: seq<Entry>, data: StockData, cutoff: int)
    requires portfolio != []
    ensures var base, pts, idx := BaseBars(portfolio, data), Aggregate(portfolio, data, cutoff),
                                  KeptIndices(BaseBars(portfolio, data), PointOf(portfolio, data, cutoff));
      |idx| == |pts|
      && (forall k, l :: 0 <= k < l < |idx| ==> idx[k] < idx[l])
      && (forall k :: 0 <= k < |idx| ==>
            idx[k] < |base| && pts[k].x == base[idx[k]].x && base[idx[k]].x >= cutoff
            && pts[k] == SumsAt(portfolio, data, base[idx[k]].x))
  {
    var base, f := BaseBars(portfolio, data), PointOf(portfolio, data, cutoff);
    FilterMapIndices(base, f);
    forall k | 0 <= k < |KeptIndices(base, f)| {
      AggregatePointFrom(portfolio, data, cutoff, k);
    }
  }

  /** Nothing is dropped: every base bar at or after the cutoff whose
      matched weight is positive gives a point. */
  lemma AggregateComplete(portfolio: seq<Entry>, data: StockData, cutoff: int, i: nat)
    requires portfolio != []
    requires i < |BaseBars(portfolio, data)|
    requires BaseBars(portfolio, data)[i].x >= cutoff
    requires AccOf(portfolio, data, BaseBars(portfolio, data)[i].x).weight > 0.0
    ensures i in KeptIndices(BaseBars(portfolio, data), PointOf(portfolio, data, cutoff))
  {
    var base, f := BaseBars(portfolio, data), PointOf(portfolio, data, cutoff);
    FilterMapIndices(base, f);
    PointAtCases(base[i], portfolio, data, cutoff);
    assert f(base[i]) == PointAt(base[i], portfolio, data, cutoff);
  }

  /** What the points hold: the matched weight on each point's date is
      positive, and the point is the undivided weighted sums of open, high,
      low and close on that date. */
  lemma AggregatePointsAreSums(portfolio: seq<Entry>, data: StockData, cutoff: int)
    requires portfolio != []
    ensures var pts := Aggregate(portfolio, data, cutoff);
      forall k :: 0 <= k < |pts| ==>
        AccOf(portfolio, data, pts[k].x).weight > 0.0 && pts[k] == SumsAt(portfolio, data, pts[k].x)
  {
    var base, f := BaseBars(portfolio, data), PointOf(portfolio, data, cutoff);
    var pts, idx := Aggregate(portfolio, data, cutoff), KeptIndices(base, f);
    FilterMapIndices(base, f);
    forall k | 0 <= k < |pts|
      ensures AccOf(portfolio, data, pts[k].x).weight > 0.0 && pts[k] == SumsAt(portfolio, data, pts[k].x)
    {
      var b := base[idx[k]];
      assert f(b) == PointAt(b, portfolio, data, cutoff) == Some(pts[k]);
      PointAtCases(b, portfolio, data, cutoff);
    }
  }

  /** A base series sorted by time gives an aggregate sorted by time. */
  lemma AggregateSorted(portfolio: seq<Entry>, data: StockData, cutoff: int)
    requires portfolio != [] && StrictlyIncreasing(BaseBars(portfolio, data))
    ensures var pts := Aggregate(portfolio, data, cutoff);
      (forall k :: 0 <= k < |pts| ==> cutoff <= pts[k].x)
      && forall k, l :: 0 <= k < l < |pts| ==> pts[k].x < pts[l].x
  {
    AggregateFromBase(portfolio, data, cutoff);
  }

  /** An entry that counts on date `x`: positive weight and a bar at `x`. */
  predicate Active(e: Entry, data: StockData, x: int) {
    e.weight > 0.0 && FindBar(BarsOf(data, e.ticker), x).Some?
  }

  lemma ContributionWeight(e: Entry, data: StockData, x: int)
    requires e.weight >= 0.0
    ensures Contribution(e, data, x).weight >= 0.0
    ensures Contribution(e, data, x).weight > 0.0 <==> Active(e, data, x)
  {
  }

  /** Some entry of `es` counts on date `x`. */
  predicate AnyActive(es: seq<Entry>, data: StockData, x: int) {
    exists i :: 0 <= i < |es| && Active(es[i], data, x)
  }

  /** Some entry of `es` is active exactly when some entry before the last
      one is, or the last one is. */
  lemma ActiveSplit(es: seq<Entry>, data: StockData, x: int)
    requires es != []
    ensures AnyActive(es, data, x) <==> AnyActive(es[..|es| - 1], data, x) || Active(es[|es| - 1], data, x)
  {
    var n := |es| - 1;
    var init := es[..n];
    if i :| 0 <= i < |es| && Active(es[i], data, x) {
      if i < n { assert Active(init[i], data, x); }
    }
    if i :| 0 <= i < n && Active(init[i], data, x) {
      assert Active(es[i], data, x);
    }
  }

  /** The sign bookkeeping of one step: a sum of two non-negative weights is
      non-negative, and positive exactly when one of them is. */
  lemma WeightStep(w0: real, w1: real, a: bool, b: bool)
    requires w0 >= 0.0 && w1 >= 0.0 && (w0 > 0.0 <==> a) && (w1 > 0.0 <==> b)
    ensures w0 + w1 >= 0.0 && (w0 + w1 > 0.0 <==> a || b)
  {
  }

  /** Emission iff an active holding: with non-negative weights a date's
      matched weight is positive exactly when some entry with a positive
      weight has a bar on that date. */
  lemma {:induction false} WeightPositiveIffActiveHolding(es: seq<Entry>, data: StockData, x: int)
    requires forall i :: 0 <= i < |es| ==> es[i].weight >= 0.0
    ensures AccOf(es, data, x).weight >= 0.0
    ensures AccOf(es, data, x).weight > 0.0 <==> AnyActive(es, data, x)
    decreases |es|
  {
    if es != [] {
      var n := |es| - 1;
      var init := es[..n];
      assert forall i :: 0 <= i < n ==> init[i] == es[i];
      WeightPositiveIffActiveHolding(init, data, x);
      ContributionWeight(es[n], data, x);
      ActiveSplit(es, data, x);
      WeightStep(AccOf(init, data, x).weight, Contribution(es[n], data, x).weight,
                 AnyActive(init, data, x), Active(es[n], data, x));
    }
  }

  /** In a one-ticker basket on a base series sorted by time, the i-th bar
      gives, when not before the cutoff, that bar scaled by w/100. */
  lemma SingleHoldingPoint(t: string, w: real, data: StockData, cutoff: int, i: nat)
    requires w > 0.0 && StrictlyIncreasing(BarsOf(data, t)) && i < |BarsOf(data, t)|
    ensures var bi := BarsOf(data, t)[i];
      PointOf([Entry(t, w)], data, cutoff)(bi) ==
        (if bi.x >= cutoff then Some(WeightedPoint(bi, w / 100.0)) else None)
  {
    var p := [Entry(t, w)];
    var bars := BarsOf(data, t);
    var v := w / 100.0;
    var bi := bars[i];
    FindBarFirst(bars, bi.x, i);
    assert p[..0] == [];
    var a := Share(bi, v);
    assert AccOf(p, data, bi.x) == Plus(Zero, a);
    assert AccOf(p, data, bi.x) == a;
    assert PointOf(p, data, cutoff)(bi) == PointAt(bi, p, data, cutoff);
    assert SumsAt(p, data, bi.x) == WeightedPoint(bi, v);
  }

  /** A one-ticker basket with weight w on a base series sorted by time:
      the aggregate is that ticker's window, bar for bar, scaled by w/100.
      At w = 100 it is the ticker itself; at any other positive weight the
      total weight is not divided out. */
  lemma SingleHolding(t: string, w: real, data: StockData, cutoff: int)
    requires w > 0.0 && StrictlyIncreasing(BarsOf(data, t))
    ensures var pts, win := Aggregate([Entry(t, w)], data, cutoff), Window(BarsOf(data, t), cutoff);
      |pts| == |win|
      && forall k :: 0 <= k < |win| ==> pts[k] == WeightedPoint(win[k], w / 100.0)
  {
    var p := [Entry(t, w)];
    var bars := BarsOf(data, t);
    assert BaseBars(p, data) == bars;
    forall i | 0 <= i < |bars|
      ensures PointOf(p, data, cutoff)(bars[i]) ==
        (if bars[i].x >= cutoff then Some(WeightedPoint(bars[i], w / 100.0)) else None)
    {
      SingleHoldingPoint(t, w, data, cutoff, i);
    }
    SingleHoldingMap(bars, PointOf(p, data, cutoff), w / 100.0, cutoff);
  }

  /** A bar with every price multiplied by v. */
  function WeightedPoint(b: Bar, v: real): AggPoint {
    AggPoint(b.x, b.open * v, b.high * v, b.low * v, b.close * v)
  }

  lemma {:induction false} SingleHoldingMap(bars: seq<Bar>, f: Bar -> Option<AggPoint>, v: real, cutoff: int)
    requires forall i :: 0 <= i < |bars| ==>
      f(bars[i]) == (if bars[i].x >= cutoff then Some(WeightedPoint(bars[i], v)) else None)
    ensures var pts, win := FilterMap(bars, f), Window(bars, cutoff);
      |pts| == |win| && forall k :: 0 <= k < |win| ==> pts[k] == WeightedPoint(win[k], v)
    decreases |bars|
  {
    if bars != [] {
      var init := bars[..|bars| - 1];
      assert forall i :: 0 <= i < |init| ==> init[i] == bars[i];
      SingleHoldingMap(init, f, v, cutoff);
    }
  }
}
