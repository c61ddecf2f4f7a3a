/** Price-elasticity estimate from a product's sales history (calculateElasticity). */
module Elasticity {
  import opened Catalog
  import opened Numeric
  import opened Wrappers

  /** Returned whenever the history gives no usable price movement. */
  const DefaultElasticity: real := -1.5

  /** Only the most recent records (by date) take part in the estimate. */
  const WindowSize: nat := 10

  // ---------------------------------------------------------------------------
  // Ordering the history by date. Array.prototype.sort is stable, so records
  // with equal dates keep their input order; an insertion sort that places a
  // record after every record of an equal or earlier date has the same result.

  predicate SortedByDate(s: seq<SalesRecord>)
  {
    forall i, j :: 0 <= i < j < |s| ==> s[i].date <= s[j].date
  }

  /** The records of `s` dated `d`, in their order in `s`. */
  function OnDate(s: seq<SalesRecord>, d: int): (r: seq<SalesRecord>)
    ensures |r| <= |s|
  {
    if s == [] then []
    else (if s[0].date == d then [s[0]] else []) + OnDate(s[1..], d)
  }

  function InsertByDate(t: seq<SalesRecord>, x: SalesRecord): (r: seq<SalesRecord>)
    requires SortedByDate(t)
    ensures SortedByDate(r)
    ensures |r| == |t| + 1
    ensures r[0] == x || (t != [] && r[0] == t[0])
  {
    if t == [] then [x]
    else if t[0].date > x.date then [x] + t
    else
      var rest := InsertByDate(t[1..], x);
      assert t == [t[0]] + t[1..];
      assert rest[0].date >= t[0].date;
      [t[0]] + rest
  }

  /** `[...salesHistory].sort((a, b) => a.date - b.date)` */
  function SortByDate(s: seq<SalesRecord>): (r: seq<SalesRecord>)
    ensures SortedByDate(r)
    ensures |r| == |s|
  {
    if s == [] then []
    else
      InsertByDate(SortByDate(s[..|s| - 1]), s[|s| - 1])
  }

  lemma {:induction false} InsertPermutes(t: seq<SalesRecord>, x: SalesRecord)
    requires SortedByDate(t)
    ensures multiset(InsertByDate(t, x)) == multiset(t) + multiset{x}
  {
    if t != [] && t[0].date <= x.date {
      InsertPermutes(t[1..], x);
      assert t == [t[0]] + t[1..];
    }
  }

  /** The sort is a permutation of its input. */
  lemma {:induction false} SortPermutes(s: seq<SalesRecord>)
    ensures multiset(SortByDate(s)) == multiset(s)
  {
    if s != [] {
      SortPermutes(s[..|s| - 1]);
      InsertPermutes(SortByDate(s[..|s| - 1]), s[|s| - 1]);
      assert s == s[..|s| - 1] + [s[|s| - 1]];
    }
  }

  lemma {:induction false} OnDateAppend(a: seq<SalesRecord>, b: seq<SalesRecord>, d: int)
    ensures OnDate(a + b, d) == OnDate(a, d) + OnDate(b, d)
  {
    if a != [] {
      var head := if a[0].date == d then [a[0]] else [];
      assert (a + b)[0] == a[0];
      assert (a + b)[1..] == a[1..] + b;
      OnDateAppend(a[1..], b, d);
      calc {
        OnDate(a + b, d);
        head + OnDate(a[1..] + b, d);
        head + (OnDate(a[1..], d) + OnDate(b, d));
        (head + OnDate(a[1..], d)) + OnDate(b, d);
      }
    } else {
      assert a + b == b;
    }
  }

  lemma {:induction false} OnDateLater(t: seq<SalesRecord>, d: int)
    requires forall i :: 0 <= i < |t| ==> t[i].date > d
    ensures OnDate(t, d) == []
  {
    if t != [] {
      OnDateLater(t[1..], d);
    }
  }

  /** Inserting in front of records that are all later than x. */
  lemma InsertInFrontOnDate(t: seq<SalesRecord>, x: SalesRecord, d: int)
    requires t != [] && SortedByDate(t) && t[0].date > x.date
    ensures OnDate([x] + t, d) == OnDate(t, d) + (if x.date == d then [x] else [])
  {
    OnDateAppend([x], t, d);
    assert OnDate([x], d) == (if x.date == d then [x] else []) + OnDate([x][1..], d);
    if x.date == d {
      forall i | 0 <= i < |t|
        ensures t[i].date > d
      {
        assert t[0].date <= t[i].date;
      }
      OnDateLater(t, d);
    }
  }

  lemma SortedTail(t: seq<SalesRecord>)
    requires t != [] && SortedByDate(t)
    ensures SortedByDate(t[1..])
  {
  }

  /** Inserting behind the first record, given the result for the rest of the records. */
  lemma InsertBehindOnDate(t: seq<SalesRecord>, x: SalesRecord, d: int, tail: seq<SalesRecord>)
    requires t != [] && SortedByDate(t) && t[0].date <= x.date
    requires SortedByDate(t[1..])
    requires OnDate(InsertByDate(t[1..], x), d) == OnDate(t[1..], d) + tail
    ensures OnDate(InsertByDate(t, x), d) == OnDate(t, d) + tail
  {
    var rest := InsertByDate(t[1..], x);
    OnDateAppend([t[0]], rest, d);
    OnDateAppend([t[0]], t[1..], d);
    assert [t[0]] + t[1..] == t;
    var head := OnDate([t[0]], d);
    calc {
      OnDate(InsertByDate(t, x), d);
      head + OnDate(rest, d);
      head + (OnDate(t[1..], d) + tail);
      (head + OnDate(t[1..], d)) + tail;
      OnDate(t, d) + tail;
    }
  }

  lemma {:induction false} InsertOnDate(t: seq<SalesRecord>, x: SalesRecord, d: int)
    requires SortedByDate(t)
    ensures OnDate(InsertByDate(t, x), d) == OnDate(t, d) + (if x.date == d then [x] else [])
  {
    var tail := if x.date == d then [x] else [];
    if t == [] {
      assert OnDate([x], d) == tail + OnDate([x][1..], d);
    } else if t[0].date > x.date {
      InsertInFrontOnDate(t, x, d);
    } else {
      SortedTail(t);
      InsertOnDate(t[1..], x, d);
      InsertBehindOnDate(t, x, d, tail);
    }
  }

  /** The sort is stable: for every date, the records of that date keep their input order. */
  lemma {:induction false} SortIsStable(s: seq<SalesRecord>, d: int)
    ensures OnDate(SortByDate(s), d) == OnDate(s, d)
  {
    if s != [] {
      var init, last := s[..|s| - 1], s[|s| - 1];
      SortIsStable(init, d);
      InsertOnDate(SortByDate(init), last, d);
      assert s == init + [last];
      OnDateAppend(init, [last], d);
    }
  }

  // ---------------------------------------------------------------------------
  // The estimate proper.

  /** `sorted.slice(-n)`: the last n elements, or all of them when there are fewer. */
  function LastN<T>(s: seq<T>, n: nat): (r: seq<T>)
    ensures |r| == if |s| <= n then |s| else n
    ensures forall i :: 0 <= i < |r| ==> r[i] == s[|s| - |r| + i]
  {
    if |s| <= n then s else s[|s| - n..]
  }

  /** The window the estimate is taken over: the ten latest records by date. */
  function RecentWindow(h: seq<SalesRecord>): seq<SalesRecord>
  {
    LastN(SortByDate(h), WindowSize)
  }

  /** The elasticity of one consecutive pair, when the pair counts. A pair counts when the
      relative price change exceeds 1% in magnitude and quantity change over price change
      is a finite negative number. With a zero previous price the price change is infinite
      or NaN, and with zero previous units the quantity change is; either way the ratio is
      then NaN, an infinity or a signed zero, none of which is finite and negative, so
      such a pair never counts. */
  function PairElasticity(prev: SalesRecord, cur: SalesRecord): (r: Option<real>)
    ensures r.Some? ==> r.value < 0.0
  {
    if prev.price == 0.0 || prev.unitsSold == 0.0 then None
    else
      var priceChange := (cur.price - prev.price) / prev.price;
      var quantityChange := (cur.unitsSold - prev.unitsSold) / prev.unitsSold;
      if Abs(priceChange) > 0.01 && quantityChange / priceChange < 0.0
      then Some(quantityChange / priceChange)
      else None
  }

  /** The pair's elasticity as a sequence of zero or one element. */
  function PairRatios(prev: SalesRecord, cur: SalesRecord): (r: seq<real>)
    ensures forall i :: 0 <= i < |r| ==> r[i] < 0.0
  {
    match PairElasticity(prev, cur)
    case Some(e) => [e]
    case None => []
  }

  /** The elasticities of the pairs that count, over consecutive pairs of `w` in order. */
  function AcceptedRatios(w: seq<SalesRecord>): (rs: seq<real>)
    ensures |w| >= 1 ==> |rs| <= |w| - 1
    ensures forall i :: 0 <= i < |rs| ==> rs[i] < 0.0
  {
    if |w| < 2 then [] else AcceptedRatios(w[..|w| - 1]) + PairRatios(w[|w| - 2], w[|w| - 1])
  }

  function Sum(xs: seq<real>): real
  {
    if xs == [] then 0.0 else Sum(xs[..|xs| - 1]) + xs[|xs| - 1]
  }

  function Mean(xs: seq<real>): real
    requires xs != []
  {
    Sum(xs) / |xs| as real
  }

  lemma SumSnoc(xs: seq<real>, x: real)
    ensures Sum(xs + [x]) == Sum(xs) + x
  {
    assert (xs + [x])[..|xs|] == xs;
  }

  /** calculateElasticity: the mean of the accepted pair elasticities over the ten latest
      records, or the default when there are fewer than two records or no pair counts. */
  function EstimateElasticity(h: seq<SalesRecord>): (e: real)
    ensures e < 0.0
  {
    if |h| < 2 then DefaultElasticity
    else
      var recent := RecentWindow(h);
      if |recent| < 2 then DefaultElasticity
      else
        var rs := AcceptedRatios(recent);
        if |rs| > 0 then MeanOfNegatives(rs); Mean(rs) else DefaultElasticity
  }

  /** One more pair of the window adds its elasticity, if it counts, at the end. */
  lemma AcceptedRatiosStep(w: seq<SalesRecord>, i: nat)
    requires 1 <= i < |w|
    ensures PairElasticity(w[i - 1], w[i]).None? ==> AcceptedRatios(w[..i + 1]) == AcceptedRatios(w[..i])
    ensures PairElasticity(w[i - 1], w[i]).Some? ==>
      AcceptedRatios(w[..i + 1]) == AcceptedRatios(w[..i]) + [PairElasticity(w[i - 1], w[i]).value]
  {
    assert w[..i + 1][..i] == w[..i];
    assert AcceptedRatios(w[..i]) + [] == AcceptedRatios(w[..i]);
  }

  /** The loop of calculateElasticity over the window: the running total and count of the
      pair elasticities that count. */
  method AccumulateRatios(recent: seq<SalesRecord>) returns (total: real, count: int)
    requires |recent| >= 2
    ensures total == Sum(AcceptedRatios(recent))
    ensures count == |AcceptedRatios(recent)|
  {
    total, count := 0.0, 0;
    for i := 1 to |recent|
      invariant total == Sum(AcceptedRatios(recent[..i]))
      invariant count == |AcceptedRatios(recent[..i])|
    {
      AcceptedRatiosStep(recent, i);
      var ratio := PairElasticity(recent[i - 1], recent[i]);
      if ratio.Some? {
        SumSnoc(AcceptedRatios(recent[..i]), ratio.value);
        total := total + ratio.value;
        count := count + 1;
      }
    }
    assert recent[..|recent|] == recent;
  }

  /** calculateElasticity as the source runs it, with the per-pair test of the loop body as
      PairElasticity. The two averages the source computes before the loop are never used
      and are not modelled. */
  method CalculateElasticity(h: seq<SalesRecord>) returns (e: real)
    ensures e == EstimateElasticity(h)
  {
    if |h| < 2 {
      return DefaultElasticity;
    }
    var sorted := SortByDate(h);
    var recent := LastN(sorted, WindowSize);
    if |recent| < 2 {
      return DefaultElasticity;
    }
    var total, count := AccumulateRatios(recent);
    e := if count > 0 then total / count as real else DefaultElasticity;
  }

  // ---------------------------------------------------------------------------
  // Properties of the estimate.

  lemma {:induction false} SumOfNegatives(xs: seq<real>)
    requires xs != []
    requires forall i :: 0 <= i < |xs| ==> xs[i] < 0.0
    ensures Sum(xs) < 0.0
  {
    var init := xs[..|xs| - 1];
    if init != [] {
      SumOfNegatives(init);
    }
  }

  lemma MeanOfNegatives(xs: seq<real>)
    requires xs != []
    requires forall i :: 0 <= i < |xs| ==> xs[i] < 0.0
    ensures Mean(xs) < 0.0
  {
    SumOfNegatives(xs);
    var n := |xs| as real;
    assert n > 0.0;
  }

  /** Fewer than two records: the default. */
  lemma ShortHistoryDefault(h: seq<SalesRecord>)
    requires |h| < 2
    ensures EstimateElasticity(h) == DefaultElasticity
  {
  }

  /** A window none of whose consecutive pairs counts accepts no ratio. */
  lemma {:induction false} NoPairCounts(w: seq<SalesRecord>)
    requires forall i :: 1 <= i < |w| ==> PairElasticity(w[i - 1], w[i]).None?
    ensures AcceptedRatios(w) == []
  {
    if |w| >= 2 {
      NoPairCounts(w[..|w| - 1]);
    }
  }

  /** When no consecutive pair of the ten-record window counts, the estimate is the
      default. */
  lemma NoPairDefault(h: seq<SalesRecord>)
    requires forall i :: 1 <= i < |RecentWindow(h)| ==>
      PairElasticity(RecentWindow(h)[i - 1], RecentWindow(h)[i]).None?
    ensures EstimateElasticity(h) == DefaultElasticity
  {
    NoPairCounts(RecentWindow(h));
  }

  /** A step inside the 1% dead band: the relative price change is at most 1% in
      magnitude, or the previous price or units are zero (the ratio is then not finite). */
  predicate SmallStep(prev: SalesRecord, cur: SalesRecord)
  {
    prev.price == 0.0 || prev.unitsSold == 0.0 || Abs((cur.price - prev.price) / prev.price) <= 0.01
  }

  /** A window whose every price step lies in the dead band gives the default, whatever the
      quantities. */
  lemma SmallStepsDefault(h: seq<SalesRecord>)
    requires forall i :: 1 <= i < |RecentWindow(h)| ==>
      SmallStep(RecentWindow(h)[i - 1], RecentWindow(h)[i])
    ensures EstimateElasticity(h) == DefaultElasticity
  {
    var w := RecentWindow(h);
    forall i | 1 <= i < |w|
      ensures PairElasticity(w[i - 1], w[i]).None?
    {
      assert SmallStep(w[i - 1], w[i]);
    }
    NoPairDefault(h);
  }

  /** Sorting keeps every record, so a price shared by all records is shared by all
      sorted records. */
  lemma SortKeepsPrice(h: seq<SalesRecord>, p: real)
    requires forall i :: 0 <= i < |h| ==> h[i].price == p
    ensures forall i :: 0 <= i < |SortByDate(h)| ==> SortByDate(h)[i].price == p
  {
    var sorted := SortByDate(h);
    SortPermutes(h);
    forall i | 0 <= i < |sorted|
      ensures sorted[i].price == p
    {
      assert sorted[i] in multiset(h);
    }
  }

  /** A history whose price never moves (every price step is 0%, within the 1% dead band)
      gives the default, whatever the quantities. */
  lemma FlatHistoryDefault(h: seq<SalesRecord>, p: real)
    requires forall i :: 0 <= i < |h| ==> h[i].price == p
    ensures EstimateElasticity(h) == DefaultElasticity
  {
    SortKeepsPrice(h, p);
    var w := RecentWindow(h);
    forall i | 1 <= i < |w|
      ensures SmallStep(w[i - 1], w[i])
    {
      assert w[i - 1].price == p && w[i].price == p;
    }
    SmallStepsDefault(h);
  }
}
