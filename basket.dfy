/** The basket and comparison-list edits of the page, as functions from the
    old list to the new one. */
module Basket {
  import opened Seqs
  import opened Text
  import opened Market

  function Tickers(p: seq<Entry>): (ts: seq<string>)
    ensures |ts| == |p| && forall i :: 0 <= i < |p| ==> ts[i] == p[i].ticker
  {
    seq(|p|, i requires 0 <= i < |p| => p[i].ticker)
  }

  predicate NoDup(ts: seq<string>) {
    forall i, j :: 0 <= i < j < |ts| ==> ts[i] != ts[j]
  }

  /** The sum of the weights, in percentage points. */
  function TotalWeight(p: seq<Entry>): real
    decreases |p|
  {
    if p == [] then 0.0 else TotalWeight(p[..|p| - 1]) + p[|p| - 1].weight
  }

  lemma TotalWeightAppend(p: seq<Entry>, e: Entry)
    ensures TotalWeight(p + [e]) == TotalWeight(p) + e.weight
  {
    assert (p + [e])[..|p|] == p;
  }

  lemma {:induction false} TotalWeightConcat(p: seq<Entry>, q: seq<Entry>)
    ensures TotalWeight(p + q) == TotalWeight(p) + TotalWeight(q)
    decreases |q|
  {
    if q == [] {
      assert p + q == p;
    } else {
      var q0 := q[..|q| - 1];
      assert p + q == (p + q0) + [q[|q| - 1]];
      TotalWeightAppend(p + q0, q[|q| - 1]);
      TotalWeightConcat(p, q0);
    }
  }

  // ---- CSV import ----

  /** `row[0]?.trim().toUpperCase()` followed by the filter
      `t && t !== 'TICKER'`: a missing cell or one that is blank or the
      header word is dropped. */
  function CsvTicker(cell: Option<string>): Option<string> {
    match cell
    case None => None
    case Some(s) =>
      var t := Upper(Trim(s));
      if t == "" || t == "TICKER" then None else Some(t)
  }

  /** The tickers of an uploaded file, from the first cell of each row. Every
      ticker is non-empty, not the header, and already trimmed and
      upper-cased; duplicates are kept. */
  function CsvTickers(cells: seq<Option<string>>): (ts: seq<string>)
    ensures |ts| <= |cells|
    ensures forall k :: 0 <= k < |ts| ==>
              ts[k] != "" && ts[k] != "TICKER" && Trim(ts[k]) == ts[k] && Upper(ts[k]) == ts[k]
  {
    FilterMapIndices(cells, CsvTicker);
    var ts := FilterMap(cells, CsvTicker);
    var idx := KeptIndices(cells, CsvTicker);
    assert forall k :: 0 <= k < |ts| ==> CsvTicker(cells[idx[k]]) == Some(ts[k]);
    CanonicalForms(cells, ts, idx);
    ts
  }

  lemma CanonicalForms(cells: seq<Option<string>>, ts: seq<string>, idx: seq<nat>)
    requires |idx| == |ts|
    requires forall k :: 0 <= k < |ts| ==> idx[k] < |cells| && CsvTicker(cells[idx[k]]) == Some(ts[k])
    ensures forall k :: 0 <= k < |ts| ==>
              ts[k] != "" && ts[k] != "TICKER" && Trim(ts[k]) == ts[k] && Upper(ts[k]) == ts[k]
  {
    forall k | 0 <= k < |ts|
      ensures ts[k] != "" && ts[k] != "TICKER" && Trim(ts[k]) == ts[k] && Upper(ts[k]) == ts[k]
    {
      var s := cells[idx[k]].value;
      assert ts[k] == Upper(Trim(s));
      TrimUpperCommute(Trim(s));
      TrimIdempotent(s);
      UpperIdempotent(Trim(s));
    }
  }

  /** Which rows give tickers: the k-th ticker is the canonical form of the
      k-th kept row, rows are kept in file order, and every row whose first
      cell is present and canonicalises to something other than blank or the
      header word is kept. */
  lemma CsvTickersFromRows(cells: seq<Option<string>>)
    ensures var ts, idx := CsvTickers(cells), KeptIndices(cells, CsvTicker);
      |idx| == |ts|
      && (forall k, l :: 0 <= k < l < |idx| ==> idx[k] < idx[l])
      && (forall k :: 0 <= k < |idx| ==>
            idx[k] < |cells| && cells[idx[k]].Some? && ts[k] == Upper(Trim(cells[idx[k]].value)))
      && (forall i :: (0 <= i < |cells| && cells[i].Some?
                       && Upper(Trim(cells[i].value)) != "" && Upper(Trim(cells[i].value)) != "TICKER")
                      ==> i in idx)
  {
    FilterMapIndices(cells, CsvTicker);
  }

  /** `tickers.map(t => ({ ticker: t, weight: 100 / tickers.length }))`. */
  function EqualWeighted(ts: seq<string>): (p: seq<Entry>)
    ensures Tickers(p) == ts
    ensures forall i :: 0 <= i < |p| ==> p[i].weight * (|ts| as real) == 100.0
  {
    seq(|ts|, i requires 0 <= i < |ts| => Entry(ts[i], 100.0 / (|ts| as real)))
  }

  lemma {:induction false} TotalOfEqualWeights(p: seq<Entry>, v: real)
    requires forall i :: 0 <= i < |p| ==> p[i].weight == v
    ensures TotalWeight(p) == (|p| as real) * v
    decreases |p|
  {
    if p != [] {
      var init := p[..|p| - 1];
      assert forall i :: 0 <= i < |init| ==> init[i] == p[i];
      TotalOfEqualWeights(init, v);
    }
  }

  /** Equal weighting of n > 0 tickers adds up to 100; so do the weights
      of an imported file that gave at least one ticker. */
  lemma EqualWeightsSumTo100(ts: seq<string>)
    requires ts != []
    ensures TotalWeight(EqualWeighted(ts)) == 100.0
  {
    var n := |ts| as real;
    var p := EqualWeighted(ts);
    assert forall i :: 0 <= i < |p| ==> p[i].weight == 100.0 / n;
    TotalOfEqualWeights(p, 100.0 / n);
    assert n * (100.0 / n) == 100.0;
  }

  // ---- manual addition (route.ts) ----

  /** `portfolio.some(p => p.ticker === ticker)`. */
  predicate HasTicker(p: seq<Entry>, t: string) {
    t in Tickers(p)
  }

  /** `addManualTicker`: nothing for empty input or for a ticker already in
      the basket; otherwise the canonical ticker is appended, at 100 for the
      first entry and 0 after that. What was there is kept as it was. */
  function AddManual(p: seq<Entry>, input: string): (r: seq<Entry>)
    ensures |p| <= |r| <= |p| + 1 && r[..|p|] == p
    ensures input != "" ==> HasTicker(r, Trim(Upper(input)))
    ensures |r| == |p| + 1 <==> input != "" && !HasTicker(p, Trim(Upper(input)))
    ensures |r| == |p| + 1 ==> r[|p|] == Entry(Trim(Upper(input)), if p == [] then 100.0 else 0.0)
  {
    if input == "" then p
    else
      var ticker := Trim(Upper(input));
      if HasTicker(p, ticker) then p
      else
        var r := p + [Entry(ticker, if |p| == 0 then 100.0 else 0.0)];
        assert Tickers(r)[|p|] == ticker;
        r
  }

  /** A basket free of duplicate tickers stays free of them. */
  lemma AddManualKeepsNoDup(p: seq<Entry>, input: string)
    requires NoDup(Tickers(p))
    ensures NoDup(Tickers(AddManual(p, input)))
  {
    var r := AddManual(p, input);
    if |r| == |p| + 1 {
      assert Tickers(r) == Tickers(p) + [r[|p|].ticker];
    } else {
      assert r == p;
    }
  }

  /** Adding keeps the total weight, except that the first ticker of an
      empty basket takes the whole 100. */
  lemma AddManualTotalWeight(p: seq<Entry>, input: string)
    ensures TotalWeight(AddManual(p, input)) ==
      if p == [] && AddManual(p, input) != [] then 100.0 else TotalWeight(p)
  {
    var r := AddManual(p, input);
    if |r| == |p| + 1 {
      assert r == p + [r[|p|]];
      TotalWeightAppend(p, r[|p|]);
    } else {
      assert r == p;
    }
  }

  /** Input that is only whitespace is not empty, so it passes the guard and
      its trimmed form, the empty ticker, is added. */
  lemma BlankInputAddsEmptyTicker(input: string)
    requires input != [] && forall i :: 0 <= i < |input| ==> IsSpace(input[i])
    ensures AddManual([], input) == [Entry("", 100.0)]
  {
    LeadingSpacesUpper(input);
    assert forall i :: 0 <= i < |input| ==> IsSpace(Upper(input)[i]) by {
      forall i | 0 <= i < |input| ensures IsSpace(Upper(input)[i]) {
        UpperKeepsSpace(input[i]);
      }
    }
    AllSpaceLeading(Upper(input));
  }

  lemma {:induction false} AllSpaceLeading(s: string)
    requires forall i :: 0 <= i < |s| ==> IsSpace(s[i])
    ensures LeadingSpaces(s) == |s| && Trim(s) == ""
    decreases |s|
  {
    if s != [] {
      AllSpaceLeading(s[1..]);
    }
  }

  // ---- reweighting and removal ----

  /** `newPort[index].weight = newWeight` on a copy of the basket. */
  function WithWeight(p: seq<Entry>, index: nat, w: real): (r: seq<Entry>)
    requires index < |p|
    ensures |r| == |p| && Tickers(r) == Tickers(p)
    ensures r[index].weight == w
    ensures forall i :: 0 <= i < |p| && i != index ==> r[i] == p[i]
  {
    p[index := Entry(p[index].ticker, w)]
  }

  /** The total splits around any position. */
  lemma TotalWeightAround(p: seq<Entry>, i: nat)
    requires i < |p|
    ensures TotalWeight(p) == TotalWeight(p[..i]) + p[i].weight + TotalWeight(p[i + 1..])
  {
    assert p == (p[..i] + [p[i]]) + p[i + 1..];
    TotalWeightConcat(p[..i] + [p[i]], p[i + 1..]);
    TotalWeightAppend(p[..i], p[i]);
  }

  /** Reweighting moves the total by exactly the change in that weight. */
  lemma WithWeightTotal(p: seq<Entry>, index: nat, w: real)
    requires index < |p|
    ensures TotalWeight(WithWeight(p, index, w)) == TotalWeight(p) - p[index].weight + w
  {
    var r := WithWeight(p, index, w);
    assert r[..index] == p[..index];
    assert r[index + 1..] == p[index + 1..];
    TotalWeightAround(p, index);
    TotalWeightAround(r, index);
  }

  lemma WithWeightKeepsNoDup(p: seq<Entry>, index: nat, w: real)
    requires index < |p| && NoDup(Tickers(p))
    ensures NoDup(Tickers(WithWeight(p, index, w)))
  {
  }

  /** The start position `Array.prototype.splice` uses for `index`: counted
      from the end when negative, clamped to [0, length]. */
  function SpliceStart(len: nat, index: int): (s: nat)
    ensures s <= len
    ensures s < len <==> len > 0 && index < len
    ensures 0 <= index <= len ==> s == index
    ensures index < 0 && len + index >= 0 ==> s == len + index
    ensures index > len ==> s == len
    ensures len + index < 0 ==> s == 0
  {
    if index < 0 then (if len + index < 0 then 0 else len + index)
    else if index > len then len
    else index
  }

  /** `newPort.splice(index, 1)` on a copy of the basket. */
  function RemoveAt(p: seq<Entry>, index: int): (r: seq<Entry>)
    ensures |r| == |p| - 1 <==> |p| > 0 && index < |p|
    ensures !(|p| > 0 && index < |p|) ==> r == p
    ensures 0 <= index < |p| ==> r == p[..index] + p[index + 1..]
    ensures -|p| <= index < 0 ==> r == p[..|p| + index] + p[|p| + index + 1..]
    ensures index < -|p| && p != [] ==> r == p[1..]
  {
    var s := SpliceStart(|p|, index);
    if s < |p| then p[..s] + p[s + 1..] else p
  }

  /** Removal at a valid position takes out exactly that entry and keeps the
      others in their order. */
  lemma RemoveAtKeepsOrder(p: seq<Entry>, index: int)
    requires 0 <= index < |p|
    ensures |RemoveAt(p, index)| == |p| - 1
    ensures forall k :: 0 <= k < |p| - 1 ==>
              RemoveAt(p, index)[k] == p[if k < index then k else k + 1]
  {
    var r, a, b := RemoveAt(p, index), p[..index], p[index + 1..];
    assert SpliceStart(|p|, index) == index;
    assert r == a + b;
    forall k | 0 <= k < |p| - 1
      ensures r[k] == p[if k < index then k else k + 1]
    {
      if k < index {
        assert r[k] == a[k];
      } else {
        assert r[k] == b[k - index];
      }
    }
  }

  /** Removal lowers the total weight by the removed entry's weight. */
  lemma RemoveAtTotal(p: seq<Entry>, index: int)
    ensures var s := SpliceStart(|p|, index);
      TotalWeight(RemoveAt(p, index)) == TotalWeight(p) - (if s < |p| then p[s].weight else 0.0)
  {
    var s, r := SpliceStart(|p|, index), RemoveAt(p, index);
    if s < |p| {
      assert r == p[..s] + p[s + 1..];
    } else {
      assert r == p;
    }
    TotalWeightWithout(p, s, r);
  }

  /** Cutting out position i, if there is one, lowers the total by that
      entry's weight. */
  lemma TotalWeightWithout(p: seq<Entry>, i: nat, r: seq<Entry>)
    requires i <= |p| && r == if i < |p| then p[..i] + p[i + 1..] else p
    ensures TotalWeight(r) == TotalWeight(p) - (if i < |p| then p[i].weight else 0.0)
  {
    if i < |p| {
      TotalWeightAround(p, i);
      TotalWeightConcat(p[..i], p[i + 1..]);
    }
  }

  lemma RemoveAtKeepsNoDup(p: seq<Entry>, index: int)
    requires NoDup(Tickers(p))
    ensures NoDup(Tickers(RemoveAt(p, index)))
  {
    var s := SpliceStart(|p|, index);
    var r := RemoveAt(p, index);
    if s < |p| {
      RemoveAtKeepsOrder(p, s);
      assert r == RemoveAt(p, s);
      forall i, j | 0 <= i < j < |r| ensures Tickers(r)[i] != Tickers(r)[j] {
        var i', j' := if i < s then i else i + 1, if j < s then j else j + 1;
        assert r[i] == p[i'] && r[j] == p[j'] && i' < j';
        assert Tickers(p)[i'] != Tickers(p)[j'];
      }
    } else {
      assert r == p;
    }
  }

  // ---- comparison tickers ----

  /** route.ts `addCompareTicker`: the guard checks the upper-cased input,
      the list receives the upper-cased and trimmed input. */
  function AddCompareTrimmed(ts: seq<string>, input: string): (r: seq<string>)
    ensures r == ts || r == ts + [Trim(Upper(input))]
    ensures |r| == |ts| + 1 <==> input != "" && Upper(input) !in ts
  {
    if input != "" && Upper(input) !in ts then ts + [Trim(Upper(input))] else ts
  }

  /** With input that has no surrounding whitespace the checked and the
      stored form agree, and a duplicate-free list stays duplicate-free. */
  lemma AddCompareTrimmedNoDup(ts: seq<string>, input: string)
    requires NoDup(ts) && Trim(input) == input
    ensures NoDup(AddCompareTrimmed(ts, input))
  {
    TrimUpperCommute(input);
  }

  /** With surrounding whitespace the guard misses a ticker already listed:
      " spy" is added beside "SPY". */
  lemma AddCompareTrimmedCanDuplicate()
    ensures AddCompareTrimmed(["SPY"], " spy") == ["SPY", "SPY"]
  {
    var u := Upper(" spy");
    assert u == " SPY" by {
      assert |u| == 4 && u[0] == ' ' && u[1] == 'S' && u[2] == 'P' && u[3] == 'Y';
    }
    assert u !in ["SPY"];
    assert LeadingSpaces(u) == 1 by {
      assert u[1..] == "SPY";
      assert LeadingSpaces(u[1..]) == 0;
    }
    var t := u[1..];
    assert TrailingSpaces(t) == 0;
    assert Trim(u) == "SPY";
  }

  /** page.tsx `addCompareTicker`: the checked and the stored form are both
      the upper-cased input, so the list never gains a duplicate. */
  function AddCompareUpper(ts: seq<string>, input: string): (r: seq<string>)
    ensures r == ts || r == ts + [Upper(input)]
    ensures input != "" ==> Upper(input) in r
    ensures |r| == |ts| + 1 <==> input != "" && Upper(input) !in ts
    ensures NoDup(ts) ==> NoDup(r)
  {
    if input != "" && Upper(input) !in ts then ts + [Upper(input)] else ts
  }

  function KeepOther(t: string): string -> Option<string> {
    u => if u == t then None else Some(u)
  }

  /** `compareTickers.filter(t => t !== ticker)`. */
  function Without(ts: seq<string>, t: string): (r: seq<string>)
    ensures t !in r
    ensures |r| <= |ts|
  {
    FilterMapIndices(ts, KeepOther(t));
    var r := FilterMap(ts, KeepOther(t));
    assert forall k :: 0 <= k < |r| ==> KeepOther(t)(ts[KeptIndices(ts, KeepOther(t))[k]]) == Some(r[k]);
    r
  }

  /** Removal deletes every occurrence of the ticker and keeps every other
      ticker as often as it was there. */
  lemma {:induction false} WithoutCounts(ts: seq<string>, t: string)
    ensures multiset(Without(ts, t)) == multiset(ts)[t := 0]
    decreases |ts|
  {
    if ts != [] {
      var init := ts[..|ts| - 1];
      var last := ts[|ts| - 1];
      assert ts == init + [last];
      WithoutCounts(init, t);
      assert Without(ts, t) == Without(init, t) + (if last == t then [] else [last]);
    }
  }

  /** ... and keeps the others in their order: the k-th remaining ticker is
      the one at the k-th kept position, kept positions increase, and every
      position holding another ticker is kept. */
  lemma WithoutKeepsOrder(ts: seq<string>, t: string)
    ensures var r, idx := Without(ts, t), KeptIndices(ts, KeepOther(t));
      |idx| == |r|
      && (forall k, l :: 0 <= k < l < |idx| ==> idx[k] < idx[l])
      && (forall k :: 0 <= k < |idx| ==> idx[k] < |ts| && r[k] == ts[idx[k]])
      && (forall i :: 0 <= i < |ts| && ts[i] != t ==> i in idx)
  {
    FilterMapIndices(ts, KeepOther(t));
  }

  /** Removal keeps a duplicate-free list duplicate-free. */
  lemma WithoutKeepsNoDup(ts: seq<string>, t: string)
    requires NoDup(ts)
    ensures NoDup(Without(ts, t))
  {
    WithoutKeepsOrder(ts, t);
    var r, idx := Without(ts, t), KeptIndices(ts, KeepOther(t));
    forall k, l | 0 <= k < l < |r| ensures r[k] != r[l] {
      assert r[k] == ts[idx[k]] && r[l] == ts[idx[l]] && idx[k] < idx[l];
    }
  }
}
