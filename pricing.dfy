/** The pricing engine's decision (optimizePrice): the five-rule ladder, the competitor
    adjustment, the margin floor, rounding to cents and the forecasts for the chosen price.
    The Math.random draws are parameters (`Draws`), and reasons are tagged values rather
    than formatted text. */
module Pricing {
  import opened Wrappers
  import opened Numeric
  import opened Catalog
  import Elasticity
  import Forecast
  import Competitor

  /** The four random draws an optimization may consume: two for the competitor price it
      compares against, and two for the independent competitor price the hint draws. */
  datatype Draws = Draws(priceMagnitude: real, priceSign: real, hintMagnitude: real, hintSign: real)

  /** The metrics the ladder looks at. */
  datatype Signals = Signals(elasticity: real, avgUnits: real, inventoryRatio: real, recentDemand: real)

  /** Which rule of the ladder fired; the fifth reports the direction its reason states. */
  datatype Rule =
    | LowStockHighDemand
    | HighStockLowDemand
    | CriticalStock
    | Overstock
    | RevenueSearch(increase: bool)

  datatype Decision = Decision(rule: Rule, factor: real)

  /** What the competitor step appends to the reason. */
  datatype Note =
    | CompetitorHigher(percent: real)
    | CompetitorLower(percent: real)
    | Hinted(hint: Competitor.Hint)

  datatype Adjusted = Adjusted(factor: real, note: Note)

  /** The reason of a suggestion: the rule's sentence followed by the competitor note. */
  datatype Reason = Reason(rule: Rule, note: Note)

  datatype Optimization = Optimization(suggestedPrice: real, revenueChange: real, marginChange: real, reason: Reason)

  /** The factors the fixed rules 1-4 choose, in ladder order. */
  const RuleFactors: seq<real> := [0.10, -0.15, 0.20, -0.10]

  /** The factors rule 5 tries, in the order it tries them. */
  const Candidates: seq<real> := [-0.05, -0.02, 0.0, 0.02, 0.05]

  /** The minimum margin over cost of a suggested price. */
  const MinMargin: real := 0.05

  /** The competitor difference beyond which the factor is bumped. */
  const CompetitorThreshold: real := 0.15

  // ---------------------------------------------------------------------------
  // Signals.

  /** The metrics optimizePrice computes first: the elasticity is negative; with no
      history the average and the recent demand are both the default 10; for a product
      within the schema none of average, recent demand and inventory ratio is negative. */
  function SignalsOf(p: Product): (s: Signals)
    ensures s.elasticity < 0.0
    ensures p.salesHistory == [] ==> s.avgUnits == Forecast.DefaultAverageUnits && s.recentDemand == s.avgUnits
    ensures InSchema(p) ==> s.avgUnits >= 0.0 && s.recentDemand >= 0.0 && s.inventoryRatio >= 0.0
  {
    var avg := Forecast.AverageUnitsSold(p.salesHistory);
    Signals(
      Elasticity.EstimateElasticity(p.salesHistory),
      avg,
      Forecast.InventoryRatio(p.inventory, avg),
      Forecast.RecentDemand(p.salesHistory, avg))
  }

  // ---------------------------------------------------------------------------
  // Rule 5: the revenue search over the candidate factors.

  /** The forecast revenue change rule 5 compares for candidate i. */
  function CandidateRevenue(currentPrice: real, elasticity: real, avgUnits: real, i: nat): real
    requires currentPrice > 0.0 && i < |Candidates|
  {
    Forecast.RevenueChange(currentPrice, currentPrice * (1.0 + Candidates[i]), elasticity, avgUnits)
  }

  /** The forecast revenue change of each candidate factor, in candidate order. */
  function CandidateRevenues(currentPrice: real, elasticity: real, avgUnits: real): (revs: seq<real>)
    requires currentPrice > 0.0
    ensures |revs| == |Candidates|
    ensures forall i :: 0 <= i < |revs| ==> revs[i] == CandidateRevenue(currentPrice, elasticity, avgUnits, i)
  {
    seq(|Candidates|, i requires 0 <= i < |Candidates| => CandidateRevenue(currentPrice, elasticity, avgUnits, i))
  }

  /** The index a scan of the first n values settles on when only a strictly greater value
      replaces the incumbent: a maximum, and strictly above everything before it. */
  function BestIndex(revs: seq<real>, n: nat): (b: nat)
    requires 0 < n <= |revs|
    ensures b < n
    ensures forall j :: 0 <= j < n ==> revs[j] <= revs[b]
    ensures forall j :: 0 <= j < b ==> revs[j] < revs[b]
  {
    if n == 1 then 0
    else
      var b := BestIndex(revs, n - 1);
      if revs[n - 1] > revs[b] then n - 1 else b
  }

  /** The first maximum is unique: any index that is a maximum and strictly above every
      earlier value is the one the scan finds. */
  lemma FirstMaximumUnique(revs: seq<real>, n: nat, b: nat)
    requires 0 < n <= |revs| && b < n
    requires forall j :: 0 <= j < n ==> revs[j] <= revs[b]
    requires forall j :: 0 <= j < b ==> revs[j] < revs[b]
    ensures b == BestIndex(revs, n)
  {
  }

  /** The factor rule 5 picks. */
  function RevenueSearchFactor(currentPrice: real, elasticity: real, avgUnits: real): (f: real)
    requires currentPrice > 0.0
    ensures f in Candidates
  {
    Candidates[BestIndex(CandidateRevenues(currentPrice, elasticity, avgUnits), |Candidates|)]
  }

  /** Rule 5 picks the first candidate whose forecast revenue change is at least every
      other candidate's. */
  lemma RevenueSearchFirstBest(currentPrice: real, elasticity: real, avgUnits: real)
    requires currentPrice > 0.0
    ensures exists i | 0 <= i < |Candidates| ::
      && RevenueSearchFactor(currentPrice, elasticity, avgUnits) == Candidates[i]
      && (forall j | 0 <= j < |Candidates| ::
            CandidateRevenue(currentPrice, elasticity, avgUnits, j) <= CandidateRevenue(currentPrice, elasticity, avgUnits, i))
      && (forall j | 0 <= j < i ::
            CandidateRevenue(currentPrice, elasticity, avgUnits, j) < CandidateRevenue(currentPrice, elasticity, avgUnits, i))
  {
    var revs := CandidateRevenues(currentPrice, elasticity, avgUnits);
    var b := BestIndex(revs, |Candidates|);
    assert RevenueSearchFactor(currentPrice, elasticity, avgUnits) == Candidates[b];
  }

  /** Rule 5's loop: `bestRevenue` starts at minus infinity (None here), so the first
      candidate always takes it, and later candidates only on a strictly greater forecast. */
  method BestAdjustment(currentPrice: real, elasticity: real, avgUnits: real) returns (adj: real)
    requires currentPrice > 0.0
    ensures adj == RevenueSearchFactor(currentPrice, elasticity, avgUnits)
  {
    ghost var revs := CandidateRevenues(currentPrice, elasticity, avgUnits);
    var bestRevenue: Option<real> := None;
    adj := 0.0;
    for i := 0 to |Candidates|
      invariant i == 0 ==> bestRevenue.None?
      invariant i > 0 ==> bestRevenue == Some(revs[BestIndex(revs, i)]) && adj == Candidates[BestIndex(revs, i)]
    {
      var testPrice := currentPrice * (1.0 + Candidates[i]);
      var revenueChange := Forecast.RevenueChange(currentPrice, testPrice, elasticity, avgUnits);
      assert revenueChange == revs[i];
      if bestRevenue.None? || revenueChange > bestRevenue.value {
        bestRevenue := Some(revenueChange);
        adj := Candidates[i];
      }
    }
  }

  // ---------------------------------------------------------------------------
  // The ladder.

  /** The first rule whose condition holds, in the order 1 to 5. Rules 1 and 2 exclude each
      other (a ratio below 7 is not above 30), so each rule's condition reduces to the
      simpler form stated here. */
  function Ladder(s: Signals, currentPrice: real): (d: Decision)
    requires currentPrice > 0.0
    ensures d.rule == LowStockHighDemand <==> s.inventoryRatio < 7.0 && s.recentDemand > s.avgUnits * 1.2
    ensures d.rule == HighStockLowDemand <==> s.inventoryRatio > 30.0 && s.recentDemand < s.avgUnits * 0.8
    ensures d.rule == CriticalStock <==> s.inventoryRatio < 3.0 && !(s.recentDemand > s.avgUnits * 1.2)
    ensures d.rule == Overstock <==> s.inventoryRatio > 60.0 && !(s.recentDemand < s.avgUnits * 0.8)
    ensures d.rule.RevenueSearch? <==>
      3.0 <= s.inventoryRatio <= 60.0 &&
      !(s.inventoryRatio < 7.0 && s.recentDemand > s.avgUnits * 1.2) &&
      !(s.inventoryRatio > 30.0 && s.recentDemand < s.avgUnits * 0.8)
    ensures d.rule == LowStockHighDemand ==> d.factor == 0.10
    ensures d.rule == HighStockLowDemand ==> d.factor == -0.15
    ensures d.rule == CriticalStock ==> d.factor == 0.20
    ensures d.rule == Overstock ==> d.factor == -0.10
    ensures d.rule.RevenueSearch? <==> d.factor in Candidates
    ensures d.rule.RevenueSearch? ==> (d.rule.increase <==> d.factor > 0.0)
  {
    if s.inventoryRatio < 7.0 && s.recentDemand > s.avgUnits * 1.2 then
      Decision(LowStockHighDemand, 0.10)
    else if s.inventoryRatio > 30.0 && s.recentDemand < s.avgUnits * 0.8 then
      Decision(HighStockLowDemand, -0.15)
    else if s.inventoryRatio < 3.0 then
      Decision(CriticalStock, 0.20)
    else if s.inventoryRatio > 60.0 then
      Decision(Overstock, -0.10)
    else
      var f := RevenueSearchFactor(currentPrice, s.elasticity, s.avgUnits);
      Decision(RevenueSearch(f > 0.0), f)
  }

  /** Priority, not specificity: when the conditions of rules 1 and 3 both hold, rule 1's
      factor and reason win. */
  lemma RuleOneBeforeRuleThree(s: Signals, currentPrice: real)
    requires currentPrice > 0.0
    requires s.inventoryRatio < 3.0 && s.recentDemand > s.avgUnits * 1.2
    ensures Ladder(s, currentPrice) == Decision(LowStockHighDemand, 0.10)
  {
  }

  /** Exactly one factor is chosen, from the fixed rules' set or from the candidates. */
  lemma LadderFactorChoices(s: Signals, currentPrice: real)
    requires currentPrice > 0.0
    ensures var f := Ladder(s, currentPrice).factor;
      (f in RuleFactors) != (f in Candidates)
  {
  }

  /** A zero factor from rule 5 is reported as a "decrease". */
  lemma ZeroFactorReadsAsDecrease(s: Signals, currentPrice: real)
    requires currentPrice > 0.0
    requires Ladder(s, currentPrice).rule.RevenueSearch? && Ladder(s, currentPrice).factor == 0.0
    ensures Ladder(s, currentPrice).rule == RevenueSearch(false)
  {
  }

  // ---------------------------------------------------------------------------
  // The competitor step.

  /** Bumps the factor up when the competitor is more than 15% higher and the factor is
      below 0.1, down when it is more than 15% lower and the factor is above -0.1, and
      otherwise keeps the factor and appends the hint. */
  function CompetitorStep(factor: real, diff: real, hint: Competitor.Hint): (r: Adjusted)
    ensures r.note.CompetitorHigher? <==> diff > CompetitorThreshold && factor < 0.1
    ensures r.note.CompetitorLower? <==> !(diff > CompetitorThreshold && factor < 0.1) && diff < -CompetitorThreshold && factor > -0.1
    ensures r.note.CompetitorHigher? ==> r.factor == Min(factor + 0.05, 0.15) && r.note.percent == diff * 100.0
    ensures r.note.CompetitorLower? ==> r.factor == Max(factor - 0.05, -0.15) && r.note.percent == Abs(diff * 100.0)
    ensures r.note.Hinted? ==> r.factor == factor && r.note.hint == hint
  {
    if Abs(diff) > CompetitorThreshold then
      if diff > CompetitorThreshold && factor < 0.1 then
        Adjusted(Min(factor + 0.05, 0.15), CompetitorHigher(diff * 100.0))
      else if diff < -CompetitorThreshold && factor > -0.1 then
        Adjusted(Max(factor - 0.05, -0.15), CompetitorLower(Abs(diff * 100.0)))
      else
        Adjusted(factor, Hinted(hint))
    else
      Adjusted(factor, Hinted(hint))
  }

  /** For any factor the ladder chooses, the competitor step moves it by exactly +0.05, -0.05
      or not at all (the caps at 0.15 and -0.15 never bind), and the result stays within
      [-0.15, 0.20]. Rule 3's +0.20 and rule 1's +0.10 can still be lowered. */
  lemma CompetitorStepMoves(factor: real, diff: real, hint: Competitor.Hint)
    requires factor in RuleFactors || factor in Candidates
    ensures var r := CompetitorStep(factor, diff, hint);
      && (r.note.CompetitorHigher? ==> r.factor == factor + 0.05)
      && (r.note.CompetitorLower? ==> r.factor == factor - 0.05)
      && (r.note.Hinted? ==> r.factor == factor)
      && -0.15 <= r.factor <= 0.20
  {
    assert -0.15 <= factor <= 0.20;
  }

  // ---------------------------------------------------------------------------
  // The whole optimization.

  /** The relative difference of the compared competitor price from the current price. */
  function CompetitorDiff(currentPrice: real, d: Draws): real
    requires currentPrice > 0.0
  {
    (Competitor.CompetitorPrice(currentPrice, d.priceMagnitude, d.priceSign) - currentPrice) / currentPrice
  }

  /** The ladder's decision followed by the competitor step. The hint is asked with the
      current price as its suggested price, since the suggestion is still the current price
      when the hint is computed. */
  function Adjust(currentPrice: real, s: Signals, d: Draws): Adjusted
    requires currentPrice > 0.0
  {
    CompetitorStep(
      Ladder(s, currentPrice).factor,
      CompetitorDiff(currentPrice, d),
      Competitor.CompetitorHint(currentPrice, currentPrice, d.hintMagnitude, d.hintSign))
  }

  /** The factor applied to the current price: the ladder's, moved by at most 0.05 by the
      competitor step, and within [-0.15, 0.20]. */
  function FinalFactor(currentPrice: real, s: Signals, d: Draws): (f: real)
    requires currentPrice > 0.0
    ensures -0.15 <= f <= 0.20
    ensures var l := Ladder(s, currentPrice).factor;
      f == l + 0.05 || f == l - 0.05 || f == l
  {
    LadderFactorChoices(s, currentPrice);
    CompetitorStepMoves(Ladder(s, currentPrice).factor, CompetitorDiff(currentPrice, d),
      Competitor.CompetitorHint(currentPrice, currentPrice, d.hintMagnitude, d.hintSign));
    Adjust(currentPrice, s, d).factor
  }

  /** The scaled price raised to the margin floor, then rounded to cents. */
  function SuggestedPrice(currentPrice: real, cost: real, factor: real): (r: real)
    ensures IsCents(r)
    ensures r >= Round2(cost * (1.0 + MinMargin))
    ensures r >= Round2(currentPrice * (1.0 + factor))
  {
    var raw := Max(currentPrice * (1.0 + factor), cost * (1.0 + MinMargin));
    Round2Cents(raw);
    Round2Monotone(cost * (1.0 + MinMargin), raw);
    Round2Monotone(currentPrice * (1.0 + factor), raw);
    Round2(raw)
  }

  /** What optimizePrice promises of its result for a product at the given price and cost
      with the given metrics and draws: the suggested price is the final factor's price
      raised to the margin floor and rounded to cents; the two forecasts are taken at that
      final price and rounded to cents; the reason names the ladder's rule and the
      competitor step's note. */
  predicate Describes(o: Optimization, currentPrice: real, cost: real, s: Signals, d: Draws)
    requires currentPrice > 0.0
  {
    && o.suggestedPrice == SuggestedPrice(currentPrice, cost, FinalFactor(currentPrice, s, d))
    && o.suggestedPrice >= Round2(cost * (1.0 + MinMargin))
    && IsCents(o.suggestedPrice) && IsCents(o.revenueChange) && IsCents(o.marginChange)
    && o.revenueChange == Round2(Forecast.RevenueChange(currentPrice, o.suggestedPrice, s.elasticity, s.avgUnits))
    && o.marginChange == Round2(Forecast.MarginChange(cost, currentPrice, o.suggestedPrice, s.elasticity, s.avgUnits))
    && o.reason == Reason(Ladder(s, currentPrice).rule, Adjust(currentPrice, s, d).note)
  }

  /** optimizePrice for a product with the given signals. */
  function Optimize(currentPrice: real, cost: real, s: Signals, d: Draws): (o: Optimization)
    requires currentPrice > 0.0
    ensures Describes(o, currentPrice, cost, s, d)
  {
    var price := SuggestedPrice(currentPrice, cost, FinalFactor(currentPrice, s, d));
    var revenue := Forecast.RevenueChange(currentPrice, price, s.elasticity, s.avgUnits);
    var margin := Forecast.MarginChange(cost, currentPrice, price, s.elasticity, s.avgUnits);
    Round2Cents(revenue);
    Round2Cents(margin);
    Optimization(price, Round2(revenue), Round2(margin), Reason(Ladder(s, currentPrice).rule, Adjust(currentPrice, s, d).note))
  }

  /** optimizePrice of a product: the result its metrics and draws describe. */
  function OptimizeProduct(p: Product, d: Draws): (o: Optimization)
    requires p.currentPrice > 0.0
    ensures Describes(o, p.currentPrice, p.cost, SignalsOf(p), d)
  {
    Optimize(p.currentPrice, p.cost, SignalsOf(p), d)
  }

  /** The revenue forecast of an optimization never reports a loss of more than 100%: the
      suggested price is not negative and the forecast quantity is clamped at zero. */
  lemma OptimizeRevenueFloor(currentPrice: real, cost: real, s: Signals, d: Draws)
    requires currentPrice > 0.0 && s.avgUnits >= 0.0
    ensures Optimize(currentPrice, cost, s, d).revenueChange >= -100.0
  {
    var o := Optimize(currentPrice, cost, s, d);
    RevenueFloorAt(currentPrice, cost, FinalFactor(currentPrice, s, d), o.suggestedPrice, s.elasticity, s.avgUnits);
  }

  /** The rounded revenue forecast of a suggested price is at or above -100% whenever the
      adjustment factor does not take the price below zero. */
  lemma RevenueFloorAt(currentPrice: real, cost: real, factor: real, price: real, elasticity: real, avgUnits: real)
    requires currentPrice > 0.0 && factor >= -1.0 && avgUnits >= 0.0
    requires price == SuggestedPrice(currentPrice, cost, factor)
    ensures Round2(Forecast.RevenueChange(currentPrice, price, elasticity, avgUnits)) >= -100.0
  {
    ScaleMonotone(currentPrice, 0.0, 1.0 + factor);
    Round2NonNegative(currentPrice * (1.0 + factor));
    Round2Monotone(-100.0, Forecast.RevenueChange(currentPrice, price, elasticity, avgUnits));
    assert Round2(-100.0) == -100.0 by {
      assert (-100.0 * 100.0 + 0.5).Floor == -10000;
    }
  }

  /** The ladder as the source runs it, with rule 5's loop. */
  method Decide(s: Signals, currentPrice: real) returns (rule: Rule, factor: real)
    requires currentPrice > 0.0
    ensures Decision(rule, factor) == Ladder(s, currentPrice)
  {
    if s.inventoryRatio < 7.0 && s.recentDemand > s.avgUnits * 1.2 {
      rule, factor := LowStockHighDemand, 0.10;
    } else if s.inventoryRatio > 30.0 && s.recentDemand < s.avgUnits * 0.8 {
      rule, factor := HighStockLowDemand, -0.15;
    } else if s.inventoryRatio < 3.0 {
      rule, factor := CriticalStock, 0.20;
    } else if s.inventoryRatio > 60.0 {
      rule, factor := Overstock, -0.10;
    } else {
      factor := BestAdjustment(currentPrice, s.elasticity, s.avgUnits);
      rule := RevenueSearch(factor > 0.0);
    }
  }

  /** The competitor step as the source runs it, reassigning the factor and extending the
      reason; the hint's draws are consumed only when no bump applies. */
  method ApplyCompetitor(currentPrice: real, factor: real, d: Draws) returns (adjusted: real, note: Note)
    requires currentPrice > 0.0
    ensures Adjusted(adjusted, note) == CompetitorStep(factor, CompetitorDiff(currentPrice, d),
      Competitor.CompetitorHint(currentPrice, currentPrice, d.hintMagnitude, d.hintSign))
  {
    var competitorPrice := Competitor.CompetitorPrice(currentPrice, d.priceMagnitude, d.priceSign);
    var competitorDiff := (competitorPrice - currentPrice) / currentPrice;
    adjusted := factor;
    if Abs(competitorDiff) > CompetitorThreshold {
      if competitorDiff > CompetitorThreshold && factor < 0.1 {
        adjusted := Min(factor + 0.05, 0.15);
        note := CompetitorHigher(competitorDiff * 100.0);
      } else if competitorDiff < -CompetitorThreshold && factor > -0.1 {
        adjusted := Max(factor - 0.05, -0.15);
        note := CompetitorLower(Abs(competitorDiff * 100.0));
      } else {
        note := Hinted(Competitor.CompetitorHint(currentPrice, currentPrice, d.hintMagnitude, d.hintSign));
      }
    } else {
      note := Hinted(Competitor.CompetitorHint(currentPrice, currentPrice, d.hintMagnitude, d.hintSign));
    }
  }

  /** The metrics optimizePrice computes first: elasticity (by its loop), average units,
      inventory ratio and recent demand. */
  method ComputeSignals(p: Product) returns (signals: Signals)
    ensures signals == SignalsOf(p)
  {
    var elasticity := Elasticity.CalculateElasticity(p.salesHistory);
    var avgUnits := Forecast.AverageUnitsSold(p.salesHistory);
    var inventoryRatio := Forecast.InventoryRatio(p.inventory, avgUnits);
    var recentDemand := Forecast.RecentDemand(p.salesHistory, avgUnits);
    signals := Signals(elasticity, avgUnits, inventoryRatio, recentDemand);
  }

  /** The rest of optimizePrice once the metrics are known: the ladder, the competitor
      step, the floor, rounding and the forecasts. */
  method Suggest(currentPrice: real, cost: real, signals: Signals, d: Draws) returns (o: Optimization)
    requires currentPrice > 0.0
    ensures o == Optimize(currentPrice, cost, signals, d)
  {
    var rule, factor := Decide(signals, currentPrice);
    var note;
    factor, note := ApplyCompetitor(currentPrice, factor, d);
    assert factor == FinalFactor(currentPrice, signals, d);

    var suggestedPrice := currentPrice * (1.0 + factor);
    suggestedPrice := Max(suggestedPrice, cost * (1.0 + MinMargin));
    suggestedPrice := Round2(suggestedPrice);
    assert suggestedPrice == SuggestedPrice(currentPrice, cost, factor);

    var revenue := Forecast.RevenueChange(currentPrice, suggestedPrice, signals.elasticity, signals.avgUnits);
    var margin := Forecast.MarginChange(cost, currentPrice, suggestedPrice, signals.elasticity, signals.avgUnits);
    o := Optimization(suggestedPrice, Round2(revenue), Round2(margin), Reason(rule, note));
  }

  /** optimizePrice, in the order the source computes it. */
  method OptimizePrice(p: Product, d: Draws) returns (o: Optimization)
    requires p.currentPrice > 0.0
    ensures o == OptimizeProduct(p, d)
  {
    var signals := ComputeSignals(p);
    o := Suggest(p.currentPrice, p.cost, signals, d);
  }

  // ---------------------------------------------------------------------------
  // Properties of the whole optimization.

  /** The competitor step raises the factor only when the competitor is more than 15%
      higher and the ladder's factor is below 0.1, and lowers it only when the competitor is
      more than 15% lower and the ladder's factor is above -0.1. */
  lemma CompetitorBumpConditions(currentPrice: real, s: Signals, d: Draws)
    requires currentPrice > 0.0
    ensures var l := Ladder(s, currentPrice).factor;
      var diff := CompetitorDiff(currentPrice, d);
      && (FinalFactor(currentPrice, s, d) > l <==> diff > CompetitorThreshold && l < 0.1)
      && (FinalFactor(currentPrice, s, d) < l <==> diff < -CompetitorThreshold && l > -0.1)
  {
    var l := Ladder(s, currentPrice).factor;
    LadderFactorChoices(s, currentPrice);
    CompetitorStepMoves(l, CompetitorDiff(currentPrice, d),
      Competitor.CompetitorHint(currentPrice, currentPrice, d.hintMagnitude, d.hintSign));
  }

  /** Unless the margin floor decides, a factor within [-0.15, 0.20] gives a suggested
      price between the current price lowered by 15% and raised by 20%, each rounded to
      cents. */
  lemma SuggestedPriceBand(currentPrice: real, cost: real, factor: real)
    requires currentPrice > 0.0 && -0.15 <= factor <= 0.20
    requires cost * (1.0 + MinMargin) <= currentPrice * (1.0 + factor)
    ensures Round2(currentPrice * 0.85) <= SuggestedPrice(currentPrice, cost, factor) <= Round2(currentPrice * 1.20)
  {
    FloorIdle(currentPrice, cost, factor);
    BandScale(currentPrice, factor);
  }

  /** When the margin floor does not bind, the suggested price is the adjusted price
      rounded to cents. */
  lemma FloorIdle(currentPrice: real, cost: real, factor: real)
    requires cost * (1.0 + MinMargin) <= currentPrice * (1.0 + factor)
    ensures SuggestedPrice(currentPrice, cost, factor) == Round2(currentPrice * (1.0 + factor))
  {
  }

  /** The current price scaled by 1 + factor, for a factor between -0.15 and 0.20 and
      rounded to cents, lies between the price scaled by 0.85 and by 1.20, each rounded. */
  lemma BandScale(k: real, factor: real)
    requires k > 0.0 && -0.15 <= factor <= 0.20
    ensures Round2(k * 0.85) <= Round2(k * (1.0 + factor)) <= Round2(k * 1.20)
  {
    var x := k * (1.0 + factor);
    FactorWithinBand(k, factor);
    assert k * 0.85 <= x <= k * 1.20;
    RoundedBetween(k * 0.85, x, k * 1.20);
  }

  /** Before rounding: a factor between -0.15 and 0.20 scales a positive price to between
      85% and 120% of it. */
  lemma FactorWithinBand(k: real, factor: real)
    requires k > 0.0 && -0.15 <= factor <= 0.20
    ensures k * 0.85 <= k * (1.0 + factor) <= k * 1.20
  {
    ScaleMonotone(k, -0.15, factor);
    ScaleMonotone(k, factor, 0.20);
  }

  // ---------------------------------------------------------------------------
  // Worked examples.

  /** Cost 10, price 20, one unit in stock, no history: the ratio 1/300 is below 3 and
      demand is not high, so rule 3 picks +0.20 for 24.00. A competitor more than 15% lower
      still pulls the factor down to 0.15, for 23.00; nothing else changes the price. */
  lemma CriticalStockExample(d: Draws)
    ensures var p := Product("Desk lamp", "LAMP-1", "Lighting", 10.0, 20.0, 1, []);
      var o := OptimizeProduct(p, d);
      && o.reason.rule == CriticalStock
      && (CompetitorDiff(20.0, d) < -CompetitorThreshold ==> o.suggestedPrice == 23.00)
      && (!(CompetitorDiff(20.0, d) < -CompetitorThreshold) ==> o.suggestedPrice == 24.00)
  {
    var p := Product("Desk lamp", "LAMP-1", "Lighting", 10.0, 20.0, 1, []);
    var s := SignalsOf(p);
    assert s.avgUnits == 10.0 && s.recentDemand == 10.0;
    assert s.inventoryRatio == 1.0 / 300.0;
    assert Ladder(s, 20.0) == Decision(CriticalStock, 0.20);
    var f := FinalFactor(20.0, s, d);
    if CompetitorDiff(20.0, d) < -CompetitorThreshold {
      assert f == 0.15;
      assert Round((20.0 * 1.15) * 100.0) == 2300;
    } else {
      assert f == 0.20;
      assert Round((20.0 * 1.20) * 100.0) == 2400;
    }
  }

  /** The history of a product that sold 8 units once and then nothing for seven periods. */
  function SlowHistory(): (h: seq<SalesRecord>)
    ensures |h| == 8
  {
    [SalesRecord(1, 8.0, 10.0)] + seq(7, i => SalesRecord(i + 2, 0.0, 10.0))
  }

  /** That history averages one unit a period and has no recent demand. */
  lemma SlowHistoryDemand()
    ensures Forecast.AverageUnitsSold(SlowHistory()) == 1.0
    ensures Forecast.RecentDemand(SlowHistory(), 1.0) == 0.0
  {
    var h := SlowHistory();
    assert h == [h[0]] + h[1..];
    Forecast.SumUnitsAppend([h[0]], h[1..]);
    Forecast.SumUnitsConstant(h[1..], 0.0);
    Forecast.SumUnitsConstant(Elasticity.LastN(h, 7), 0.0);
    assert Forecast.SumUnits([h[0]]) == 8.0;
  }

  /** Cost 10, price 10, 1000 in stock and a history averaging one unit a period (such as
      the one above) whose recent demand is below 0.8: the ratio 1000/30 is above 30, so
      rule 2 picks -0.15 for 8.50, and the margin floor lifts it to 10.50 whatever the
      competitor draws. */
  lemma OverstockFloorExample(h: seq<SalesRecord>, d: Draws)
    requires Forecast.AverageUnitsSold(h) == 1.0 && Forecast.RecentDemand(h, 1.0) < 0.8
    ensures var p := Product("Desk lamp", "LAMP-1", "Lighting", 10.0, 10.0, 1000, h);
      var o := OptimizeProduct(p, d);
      o.reason.rule == HighStockLowDemand && o.suggestedPrice == 10.50
  {
    var p := Product("Desk lamp", "LAMP-1", "Lighting", 10.0, 10.0, 1000, h);
    var s := SignalsOf(p);
    assert s.inventoryRatio == 1000.0 / 30.0;
    assert Ladder(s, 10.0) == Decision(HighStockLowDemand, -0.15);
    var f := FinalFactor(10.0, s, d);
    assert f == -0.15 || f == -0.10;
    assert Round((10.0 * 1.05) * 100.0) == 1050;
  }
}
