/** The synthetic competitor signal (getCompetitorPrice, getCompetitorHint). Each call of
    getCompetitorPrice draws Math.random() twice; here the two draws are parameters, a
    magnitude draw and a sign draw, each in [0, 1) when they come from Math.random. */
module Competitor {
  import opened Numeric

  /** The competitor price never goes below one cent. */
  const PriceFloor: real := 0.01

  /** Math.random() yields a value in [0, 1). */
  predicate IsDraw(r: real)
  {
    0.0 <= r < 1.0
  }

  /** The signed relative variation: a magnitude of 5% plus up to 15%, positive exactly when
      the sign draw exceeds one half. */
  function Variation(magnitudeDraw: real, signDraw: real): real
  {
    (magnitudeDraw * 0.15 + 0.05) * (if signDraw > 0.5 then 1.0 else -1.0)
  }

  /** getCompetitorPrice: the current price moved by the variation, floored at one cent. */
  function CompetitorPrice(currentPrice: real, magnitudeDraw: real, signDraw: real): (r: real)
    ensures r >= PriceFloor
    ensures r == PriceFloor || r == currentPrice * (1.0 + Variation(magnitudeDraw, signDraw))
  {
    Max(PriceFloor, currentPrice * (1.0 + Variation(magnitudeDraw, signDraw)))
  }

  /** Whether the one-cent floor decides the competitor price. */
  predicate FloorBinds(currentPrice: real, magnitudeDraw: real, signDraw: real)
  {
    currentPrice * (1.0 + Variation(magnitudeDraw, signDraw)) < PriceFloor
  }

  /** For a draw from Math.random the variation is between 5% and 20% in magnitude, and it
      is an increase exactly when the sign draw exceeds one half. */
  lemma VariationBounds(magnitudeDraw: real, signDraw: real)
    requires IsDraw(magnitudeDraw)
    ensures 0.05 <= Abs(Variation(magnitudeDraw, signDraw)) < 0.20
    ensures Variation(magnitudeDraw, signDraw) > 0.0 <==> signDraw > 0.5
  {
  }

  /** "current_price ± 5-20%": unless the floor binds, the competitor price lies in
      (80%, 95%] or [105%, 120%) of a positive current price. */
  lemma CompetitorPriceBand(currentPrice: real, magnitudeDraw: real, signDraw: real)
    requires currentPrice > 0.0 && IsDraw(magnitudeDraw)
    requires !FloorBinds(currentPrice, magnitudeDraw, signDraw)
    ensures var c := CompetitorPrice(currentPrice, magnitudeDraw, signDraw);
      (0.80 * currentPrice < c <= 0.95 * currentPrice) ||
      (1.05 * currentPrice <= c < 1.20 * currentPrice)
  {
    var v := Variation(magnitudeDraw, signDraw);
    VariationBounds(magnitudeDraw, signDraw);
    var c := CompetitorPrice(currentPrice, magnitudeDraw, signDraw);
    assert c == currentPrice * (1.0 + v);
    ScaledBand(currentPrice, v, c);
  }

  /** A price moved by a variation of 5% up to 20% lands in the band around it. */
  lemma ScaledBand(p: real, v: real, c: real)
    requires p > 0.0 && 0.05 <= Abs(v) < 0.20
    requires c == p * (1.0 + v)
    ensures (0.80 * p < c <= 0.95 * p) || (1.05 * p <= c < 1.20 * p)
  {
    assert c == p + p * v;
    if v > 0.0 {
      assert 0.05 <= v < 0.20;
      ScaleMonotone(p, 0.05, v);
      ScaleMonotone(p, v, 0.20);
    } else {
      assert -0.20 < v <= -0.05;
      ScaleMonotone(p, -0.20, v);
      ScaleMonotone(p, v, -0.05);
    }
  }

  /** The classification getCompetitorHint reports; a percentage is a magnitude. */
  datatype Hint = Similar | Higher(percent: real) | Lower(percent: real)

  /** The percent difference of a competitor price from the current price. */
  function PercentDiff(currentPrice: real, competitorPrice: real): real
    requires currentPrice > 0.0
  {
    (competitorPrice - currentPrice) / currentPrice * 100.0
  }

  /** getCompetitorHint: draws its own competitor price and classifies the difference.
      Its suggested-price argument takes no part in the result. */
  function CompetitorHint(currentPrice: real, suggestedPrice: real, magnitudeDraw: real, signDraw: real): (h: Hint)
    requires currentPrice > 0.0
    ensures var diff := PercentDiff(currentPrice, CompetitorPrice(currentPrice, magnitudeDraw, signDraw));
      && (h.Similar? <==> Abs(diff) < 2.0)
      && (h.Higher? <==> diff >= 2.0)
      && (h.Lower? <==> diff <= -2.0)
      && (h.Higher? ==> h.percent == diff)
      && (h.Lower? ==> h.percent == -diff)
  {
    var diff := PercentDiff(currentPrice, CompetitorPrice(currentPrice, magnitudeDraw, signDraw));
    if Abs(diff) < 2.0 then Similar
    else if diff > 0.0 then Higher(diff)
    else Lower(Abs(diff))
  }

  /** The suggested price passed to the hint does not matter. */
  lemma HintIgnoresSuggestedPrice(currentPrice: real, s1: real, s2: real, magnitudeDraw: real, signDraw: real)
    requires currentPrice > 0.0
    ensures CompetitorHint(currentPrice, s1, magnitudeDraw, signDraw) == CompetitorHint(currentPrice, s2, magnitudeDraw, signDraw)
  {
  }

  /** Unless the floor binds, the competitor differs by at least 5%, so "similar" is reached
      only through the one-cent floor. */
  lemma SimilarOnlyAtFloor(currentPrice: real, suggestedPrice: real, magnitudeDraw: real, signDraw: real)
    requires currentPrice > 0.0 && IsDraw(magnitudeDraw)
    requires !FloorBinds(currentPrice, magnitudeDraw, signDraw)
    ensures Abs(PercentDiff(currentPrice, CompetitorPrice(currentPrice, magnitudeDraw, signDraw))) >= 5.0
    ensures !CompetitorHint(currentPrice, suggestedPrice, magnitudeDraw, signDraw).Similar?
  {
    var v := Variation(magnitudeDraw, signDraw);
    VariationBounds(magnitudeDraw, signDraw);
    var c := CompetitorPrice(currentPrice, magnitudeDraw, signDraw);
    assert c - currentPrice == currentPrice * v;
    assert (c - currentPrice) / currentPrice == v;
    assert PercentDiff(currentPrice, c) == v * 100.0;
  }
}
