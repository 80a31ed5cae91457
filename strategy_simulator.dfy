/** The strategy simulation engine: one closed-form evaluation that maps a
    financial baseline, four decision levers and a churn rate to projected
    revenue, cost, profit, their deltas, an ROI and a risk score.
    All amounts are exact reals; the source's final two-decimal rounding of
    the reported figures is not modelled. */
module StrategySimulator {
  import opened Builtins

  /** Default annual cost of one new employee, in USD. */
  const DefaultAvgEmployeeCost: real := 60000.0

  /** Default customer churn rate (a fraction between 0 and 1). */
  const DefaultChurnRate: real := 0.15

  /** Current annual revenue and cost, in USD. */
  datatype Baseline = Baseline(revenue: real, cost: real)

  /** The four decision levers: percentage change of marketing spend,
      percentage change of price, number of new hires, and the additional
      retention investment in USD. */
  datatype Decision = Decision(marketingPct: real, pricePct: real, hires: int, retention: real)

  /** Every lever at its default, that is, no change at all. */
  const NoChange: Decision := Decision(0.0, 0.0, 0, 0.0)

  /** Everything the simulator reports, before rounding. */
  datatype Projection = Projection(
    baseRevenue: real,
    baseCost: real,
    baseProfit: real,
    projectedRevenue: real,
    projectedCost: real,
    projectedProfit: real,
    revenueDelta: real,
    costDelta: real,
    profitDelta: real,
    roiPercent: real,
    riskScore: real)

  /** Revenue after the decisions: marketing lifts revenue by half its
      percentage, price changes it one for one, and every retention dollar
      recovers three dollars scaled by the churn rate. */
  function ProjectedRevenue(b: Baseline, d: Decision, churnRate: real): real
  {
    var marketingRevenueLift := b.revenue * (d.marketingPct / 100.0) * 0.5;
    var pricingRevenueImpact := b.revenue * (d.pricePct / 100.0);
    var retentionRevenueLift := d.retention * 3.0 * churnRate;
    b.revenue + marketingRevenueLift + pricingRevenueImpact + retentionRevenueLift
  }

  /** Cost after the decisions: marketing cost grows with its percentage,
      each hire costs avgEmployeeCost, and retention is spent in full. */
  function ProjectedCost(b: Baseline, d: Decision, avgEmployeeCost: real): real
  {
    var marketingCostIncrease := b.cost * (d.marketingPct / 100.0);
    var hiringCost := d.hires as real * avgEmployeeCost;
    b.cost + marketingCostIncrease + hiringCost + d.retention
  }

  /** Return on the incremental investment, in percent; a strategy that does
      not increase spending is reported with an ROI of exactly 0. */
  function Roi(profitDelta: real, incrementalInvestment: real): (r: real)
    ensures incrementalInvestment <= 0.0 ==> r == 0.0
    ensures incrementalInvestment > 0.0 ==> r * incrementalInvestment == profitDelta * 100.0
    ensures incrementalInvestment > 0.0 ==> (r > 0.0 <==> profitDelta > 0.0)
  {
    if incrementalInvestment > 0.0 then profitDelta / incrementalInvestment * 100.0 else 0.0
  }

  /** The simulator's risk formula before the clamp; unlike the optimizer's
      it has a retention term. */
  function RawRisk(d: Decision): real
  {
    Abs(d.marketingPct) * 0.4
    + Abs(d.pricePct) * 1.2
    + d.hires as real * 0.3
    + (d.retention / 10000.0) * 0.5
  }

  /** The risk score: the raw risk clamped at 100. */
  function RiskScore(d: Decision): (r: real)
    ensures r <= 100.0
    ensures r <= RawRisk(d)
    ensures r == 100.0 || r == RawRisk(d)
    ensures d.hires >= 0 && d.retention >= 0.0 ==> r >= 0.0
  {
    Min(100.0, RawRisk(d))
  }

  /** simulate_strategy: the full projection for one set of decisions. */
  function Simulate(b: Baseline, d: Decision, avgEmployeeCost: real, churnRate: real): (p: Projection)
    ensures p.baseRevenue == b.revenue && p.baseCost == b.cost
    ensures p.baseProfit == b.revenue - b.cost
    ensures p.projectedProfit == p.projectedRevenue - p.projectedCost
    ensures p.profitDelta == p.revenueDelta - p.costDelta
    ensures p.costDelta == p.projectedCost - b.cost
    ensures p.revenueDelta == p.projectedRevenue - b.revenue
    ensures p.costDelta <= 0.0 ==> p.roiPercent == 0.0
    ensures p.costDelta > 0.0 ==> p.roiPercent * p.costDelta == p.profitDelta * 100.0
    ensures p.riskScore <= 100.0
    ensures d.hires >= 0 && d.retention >= 0.0 ==> 0.0 <= p.riskScore
  {
    var projectedRevenue := ProjectedRevenue(b, d, churnRate);
    var projectedCost := ProjectedCost(b, d, avgEmployeeCost);
    var baseProfit := b.revenue - b.cost;
    var projectedProfit := projectedRevenue - projectedCost;
    var incrementalInvestment := projectedCost - b.cost;
    Projection(
      b.revenue,
      b.cost,
      baseProfit,
      projectedRevenue,
      projectedCost,
      projectedProfit,
      projectedRevenue - b.revenue,
      projectedCost - b.cost,
      projectedProfit - baseProfit,
      Roi(projectedProfit - baseProfit, incrementalInvestment),
      RiskScore(d))
  }

  // ---------------------------------------------------------------------
  // Properties of the projection

  /** With every lever at zero the projection is the baseline itself. */
  lemma NoChangeIsIdentity(b: Baseline, avgEmployeeCost: real, churnRate: real)
    ensures var p := Simulate(b, NoChange, avgEmployeeCost, churnRate);
      && p.projectedRevenue == b.revenue
      && p.projectedCost == b.cost
      && p.projectedProfit == p.baseProfit
      && p.revenueDelta == 0.0 && p.costDelta == 0.0 && p.profitDelta == 0.0
      && p.roiPercent == 0.0 && p.riskScore == 0.0
  {
  }

  /** Revenue depends neither on the hire count nor on the cost per hire. */
  lemma RevenueIgnoresHiring(b: Baseline, d: Decision, hires: int, avg1: real, avg2: real, churnRate: real)
    ensures Simulate(b, d, avg1, churnRate).projectedRevenue
         == Simulate(b, d.(hires := hires), avg2, churnRate).projectedRevenue
  {
    var d' := d.(hires := hires);
    assert ProjectedRevenue(b, d, churnRate) == ProjectedRevenue(b, d', churnRate);
  }

  /** Cost depends neither on the price change nor on the churn rate. */
  lemma CostIgnoresPriceAndChurn(b: Baseline, d: Decision, pricePct: real, avgEmployeeCost: real, churn1: real, churn2: real)
    ensures Simulate(b, d, avgEmployeeCost, churn1).projectedCost
         == Simulate(b, d.(pricePct := pricePct), avgEmployeeCost, churn2).projectedCost
  {
    var d' := d.(pricePct := pricePct);
    assert ProjectedCost(b, d, avgEmployeeCost) == ProjectedCost(b, d', avgEmployeeCost);
  }

  /** Each extra retention dollar adds 3 x churnRate of revenue and one dollar of cost. */
  lemma RetentionMarginalEffect(b: Baseline, d: Decision, extra: real, avgEmployeeCost: real, churnRate: real)
    ensures var d' := d.(retention := d.retention + extra);
      && ProjectedRevenue(b, d', churnRate) - ProjectedRevenue(b, d, churnRate) == 3.0 * churnRate * extra
      && ProjectedCost(b, d', avgEmployeeCost) - ProjectedCost(b, d, avgEmployeeCost) == extra
  {
    var d' := d.(retention := d.retention + extra);
    assert d'.retention * 3.0 * churnRate == d.retention * 3.0 * churnRate + extra * 3.0 * churnRate;
  }

  /** Each new hire adds exactly avgEmployeeCost to the cost and leaves revenue unchanged. */
  lemma HiringMarginalCost(b: Baseline, d: Decision, avgEmployeeCost: real, churnRate: real)
    ensures var d' := d.(hires := d.hires + 1);
      && ProjectedCost(b, d', avgEmployeeCost) - ProjectedCost(b, d, avgEmployeeCost) == avgEmployeeCost
      && ProjectedRevenue(b, d', churnRate) == ProjectedRevenue(b, d, churnRate)
  {
  }

  /** The risk score never decreases when any lever grows in magnitude. */
  lemma RiskMonotone(d1: Decision, d2: Decision)
    requires Abs(d1.marketingPct) <= Abs(d2.marketingPct)
    requires Abs(d1.pricePct) <= Abs(d2.pricePct)
    requires d1.hires <= d2.hires
    requires d1.retention <= d2.retention
    ensures RiskScore(d1) <= RiskScore(d2)
  {
  }

  /** Once the raw risk reaches 100, the score sits exactly at 100. */
  lemma RiskSaturates(d: Decision)
    requires RawRisk(d) >= 100.0
    ensures RiskScore(d) == 100.0
  {
  }

  /** A worked scenario: 10M revenue, 7M cost, +10% marketing, +5% price,
      5 hires, 100k retention, churn 0.15. */
  lemma WorkedScenario()
    ensures var p := Simulate(Baseline(10000000.0, 7000000.0), Decision(10.0, 5.0, 5, 100000.0),
                              DefaultAvgEmployeeCost, DefaultChurnRate);
      && p.projectedRevenue == 11045000.0
      && p.projectedCost == 8100000.0
      && p.profitDelta == -55000.0
      && p.roiPercent == -5.0
      && p.riskScore == 16.5
  {
  }
}
