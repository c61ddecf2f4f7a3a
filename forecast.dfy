/** Demand signals and the revenue and margin forecasts of the pricing engine
    (getAverageUnitsSold, calculateRevenueChange, calculateMarginChange, and the
    inventory-ratio and recent-demand metrics of optimizePrice). */
module Forecast {
  import opened Catalog
  import opened Numeric
  import Elasticity

  /** Assumed average when a product has no sales history. */
  const DefaultAverageUnits: real := 10.0

  /** Recent demand is taken over the last this-many entries, and divided by this many. */
  const RecentEntries: nat := 7

  // ---------------------------------------------------------------------------
  // Demand signals.

  /** The total units sold over a history. */
  function SumUnits(h: seq<SalesRecord>): real
  {
    if h == [] then 0.0 else SumUnits(h[..|h| - 1]) + h[|h| - 1].unitsSold
  }

  /** Within the schema no record sells a negative number of units, so neither does a
      history in total. */
  lemma {:induction false} SumUnitsNonNegative(h: seq<SalesRecord>)
    ensures HistoryInSchema(h) ==> SumUnits(h) >= 0.0
  {
    if h != [] {
      var init := h[..|h| - 1];
      SumUnitsNonNegative(init);
      if HistoryInSchema(h) {
        assert RecordInSchema(h[|h| - 1]);
        assert HistoryInSchema(init) by {
          forall i | 0 <= i < |init| ensures RecordInSchema(init[i]) {
            assert init[i] == h[i];
          }
        }
      }
    }
  }

  /** getAverageUnitsSold: the mean units sold per history entry, or 10 with no history. */
  function AverageUnitsSold(h: seq<SalesRecord>): (r: real)
    ensures h == [] ==> r == DefaultAverageUnits
    ensures HistoryInSchema(h) ==> r >= 0.0
  {
    if |h| == 0 then DefaultAverageUnits else SumUnitsNonNegative(h); SumUnits(h) / |h| as real
  }

  /** `inventory / Math.max(avgUnitsSold * 30, 1)`: the denominator is at least 1, so the
      ratio is defined for every average and never exceeds the inventory. */
  function InventoryRatio(inventory: int, avgUnits: real): (r: real)
    ensures inventory >= 0 ==> 0.0 <= r <= inventory as real
    ensures inventory < 0 ==> inventory as real <= r < 0.0
  {
    inventory as real / Max(avgUnits * 30.0, 1.0)
  }

  /** The sum of the units of the last seven entries in insertion order (not by date),
      divided by seven whatever the number of entries; the average with no history. */
  function RecentDemand(h: seq<SalesRecord>, avgUnits: real): (r: real)
    ensures h == [] ==> r == avgUnits
    ensures h != [] && HistoryInSchema(h) ==> r >= 0.0
  {
    if |h| > 0 then
      var recent := Elasticity.LastN(h, RecentEntries);
      assert HistoryInSchema(h) ==> HistoryInSchema(recent);
      SumUnitsNonNegative(recent);
      SumUnits(recent) / RecentEntries as real
    else avgUnits
  }

  lemma {:induction false} SumUnitsConstant(h: seq<SalesRecord>, u: real)
    requires forall i :: 0 <= i < |h| ==> h[i].unitsSold == u
    ensures SumUnits(h) == |h| as real * u
  {
    if h != [] {
      SumUnitsConstant(h[..|h| - 1], u);
    }
  }

  lemma {:induction false} SumUnitsAppend(a: seq<SalesRecord>, b: seq<SalesRecord>)
    ensures SumUnits(a + b) == SumUnits(a) + SumUnits(b)
  {
    if b != [] {
      assert (a + b)[..|a + b| - 1] == a + b[..|b| - 1];
      SumUnitsAppend(a, b[..|b| - 1]);
    } else {
      assert a + b == a;
    }
  }

  /** The average of a history that always sold u units is u. */
  lemma AverageOfConstantHistory(h: seq<SalesRecord>, u: real)
    requires |h| > 0
    requires forall i :: 0 <= i < |h| ==> h[i].unitsSold == u
    ensures AverageUnitsSold(h) == u
  {
    SumUnitsConstant(h, u);
    Quotient(SumUnits(h), |h| as real, u);
  }

  /** Dividing by seven rather than by the number of entries: a history of fewer than seven
      entries that always sold u units has recent demand u * n / 7, below u, which is its
      average (AverageOfConstantHistory). */
  lemma ShortHistoryRecentDemand(h: seq<SalesRecord>, u: real, avgUnits: real)
    requires 0 < |h| < RecentEntries
    requires forall i :: 0 <= i < |h| ==> h[i].unitsSold == u
    ensures RecentDemand(h, avgUnits) == |h| as real * u / 7.0
    ensures u > 0.0 ==> RecentDemand(h, avgUnits) < u
  {
    RecentDemandOfShortHistory(h, avgUnits);
    SumUnitsConstant(h, u);
    ShortSumBelowAverage(SumUnits(h), |h| as real, u);
  }

  /** A total of n times u, shared among n, is u. */
  lemma Quotient(total: real, n: real, u: real)
    requires n > 0.0 && total == n * u
    ensures total / n == u
  {
  }

  /** A total of n times u, spread over seven, is n * u / 7, and that is below u for a
      positive u and n < 7. */
  lemma ShortSumBelowAverage(total: real, n: real, u: real)
    requires total == n * u && n < 7.0
    ensures total / 7.0 == n * u / 7.0
    ensures u > 0.0 ==> total / 7.0 < u
  {
    if u > 0.0 {
      ScaleMonotone(u, n, 7.0);
    }
  }

  /** With fewer than seven entries the whole history is summed and divided by seven. */
  lemma RecentDemandOfShortHistory(h: seq<SalesRecord>, avgUnits: real)
    requires 0 < |h| < RecentEntries
    ensures RecentDemand(h, avgUnits) == SumUnits(h) / 7.0
  {
    assert Elasticity.LastN(h, RecentEntries) == h;
  }

  // ---------------------------------------------------------------------------
  // Forecasts. Every input is a finite real here, so the source's guard that returns 0
  // for a non-finite input never fires and is not modelled.

  /** `Math.max(0, avgUnitsSold * (1 + elasticity * priceChange))`: the forecast quantity. */
  function NewQuantity(currentPrice: real, newPrice: real, elasticity: real, avgUnits: real): (q: real)
    requires currentPrice > 0.0
    ensures q >= 0.0
  {
    Max(0.0, avgUnits * (1.0 + elasticity * ((newPrice - currentPrice) / currentPrice)))
  }

  /** calculateRevenueChange: the forecast revenue change in percent. Since the forecast
      quantity is clamped at 0, revenue can fall by at most 100%. */
  function RevenueChange(currentPrice: real, newPrice: real, elasticity: real, avgUnits: real): (r: real)
    requires currentPrice > 0.0
    ensures newPrice >= 0.0 && avgUnits >= 0.0 ==> r >= -100.0
  {
    var currentRevenue := currentPrice * avgUnits;
    var newRevenue := newPrice * NewQuantity(currentPrice, newPrice, elasticity, avgUnits);
    if currentRevenue == 0.0 then (if newRevenue > 0.0 then 100.0 else 0.0)
    else
      assert newPrice >= 0.0 && avgUnits >= 0.0 ==>
        currentRevenue > 0.0 && newRevenue >= 0.0 && (newRevenue - currentRevenue) / currentRevenue >= -1.0;
      (newRevenue - currentRevenue) / currentRevenue * 100.0
  }

  /** calculateMarginChange: the forecast change of total margin in percent. When the
      product sells above cost, margin can fall by at most 100% as long as the new price
      does not go below cost. */
  function MarginChange(cost: real, currentPrice: real, newPrice: real, elasticity: real, avgUnits: real): (r: real)
    requires currentPrice > 0.0
    ensures currentPrice > cost && newPrice >= cost && avgUnits >= 0.0 ==> r >= -100.0
  {
    var currentMargin := (currentPrice - cost) * avgUnits;
    var newMargin := (newPrice - cost) * NewQuantity(currentPrice, newPrice, elasticity, avgUnits);
    if currentMargin == 0.0 then (if newMargin > 0.0 then 100.0 else 0.0)
    else
      assert currentPrice > cost && newPrice >= cost && avgUnits >= 0.0 ==>
        currentMargin > 0.0 && newMargin >= 0.0 && (newMargin - currentMargin) / currentMargin >= -1.0;
      (newMargin - currentMargin) / currentMargin * 100.0
  }

  /** Keeping the price forecasts no change in revenue. */
  lemma RevenueUnchangedAtSamePrice(price: real, elasticity: real, avgUnits: real)
    requires price > 0.0 && avgUnits >= 0.0
    ensures RevenueChange(price, price, elasticity, avgUnits) == 0.0
  {
    assert NewQuantity(price, price, elasticity, avgUnits) == avgUnits;
  }

  /** With no sales there is no current revenue and, for a positive price, no new revenue:
      the forecast is 0 (the 100% branch needs a zero current price). */
  lemma RevenueWithoutSales(currentPrice: real, newPrice: real, elasticity: real)
    requires currentPrice > 0.0
    ensures RevenueChange(currentPrice, newPrice, elasticity, 0.0) == 0.0
  {
    assert NewQuantity(currentPrice, newPrice, elasticity, 0.0) == 0.0;
  }

  /** Keeping the price forecasts no change in margin. */
  lemma MarginUnchangedAtSamePrice(cost: real, price: real, elasticity: real, avgUnits: real)
    requires price > 0.0 && avgUnits >= 0.0
    ensures MarginChange(cost, price, price, elasticity, avgUnits) == 0.0
  {
    assert NewQuantity(price, price, elasticity, avgUnits) == avgUnits;
  }

  /** With no current margin (price equal to cost, or no sales) the forecast is 100 when the
      new margin is positive, that is when the new price exceeds cost and some quantity is
      forecast, and 0 otherwise. */
  lemma MarginFromZero(cost: real, currentPrice: real, newPrice: real, elasticity: real, avgUnits: real)
    requires currentPrice > 0.0
    requires currentPrice == cost || avgUnits == 0.0
    ensures var m := MarginChange(cost, currentPrice, newPrice, elasticity, avgUnits);
      m == (if newPrice > cost && NewQuantity(currentPrice, newPrice, elasticity, avgUnits) > 0.0 then 100.0 else 0.0)
  {
    var q := NewQuantity(currentPrice, newPrice, elasticity, avgUnits);
    assert (currentPrice - cost) * avgUnits == 0.0;
    assert (newPrice - cost) * q > 0.0 <==> newPrice > cost && q > 0.0;
  }
}
