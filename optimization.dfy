/** The profit optimization engine: an objective (negative profit), a risk
    ceiling and a budget ceiling inside fixed box bounds, handed to a
    constrained nonlinear solver, followed by the post-processing that
    picks the solver's point or the start point and recomputes the
    financials there. The solver itself (SciPy's SLSQP) is an oracle: a
    function parameter `minimize` from the problem to its result. */
module ProfitOptimizer {
  import opened Wrappers
  import opened Builtins
  import S = StrategySimulator

  /** Annual cost of one new hire, fixed inside the optimizer. */
  const AvgEmployeeCost: real := 60000.0

  /** Default risk ceiling when the caller gives none. */
  const DefaultRiskThreshold: real := 50.0

  /** A decision vector as the solver sees it: the hire count is continuous. */
  datatype Point = Point(marketingPct: real, pricePct: real, hires: real)

  /** A closed interval, one box bound per coordinate. */
  datatype Interval = Interval(lo: real, hi: real)

  /** The fixed start point of the search, also the fallback. */
  const X0: Point := Point(5.0, 2.0, 2.0)

  /** Box bounds for marketing %, price % and hires, in that order. */
  const Bounds: seq<Interval> := [Interval(0.0, 50.0), Interval(-10.0, 15.0), Interval(0.0, 50.0)]

  /** Solver settings: function tolerance and iteration cap. */
  const Ftol: real := 0.000001
  const MaxIter: nat := 500

  predicate InInterval(v: real, i: Interval)
  {
    i.lo <= v <= i.hi
  }

  predicate InBounds(x: Point)
  {
    InInterval(x.marketingPct, Bounds[0])
    && InInterval(x.pricePct, Bounds[1])
    && InInterval(x.hires, Bounds[2])
  }

  /** Everything the solver is given: the parameters the objective and the
      two constraints close over, the start point, the bounds and the options. */
  datatype Problem = Problem(
    baseRevenue: real,
    baseCost: real,
    budgetLimit: real,
    riskThreshold: real,
    x0: Point,
    bounds: seq<Interval>,
    ftol: real,
    maxIter: nat)

  /** What the solver returns: its success flag, its point and, if present, its message. */
  datatype SolverResult = SolverResult(success: bool, x: Point, message: Option<string>)

  /** What optimize_profit reports (before the two-decimal roundings). */
  datatype OptimizationResult = OptimizationResult(
    optimizedMarketingPct: real,
    optimizedPricePct: real,
    optimizedHiringCount: int,
    projectedRevenue: real,
    projectedCost: real,
    projectedProfit: real,
    riskScore: real,
    optimizerSuccess: bool,
    optimizerMessage: string)

  // ---------------------------------------------------------------------
  // Objective and constraints

  function Revenue(baseRevenue: real, x: Point): real
  {
    baseRevenue + baseRevenue * (x.marketingPct / 100.0) * 0.5 + baseRevenue * (x.pricePct / 100.0)
  }

  function Cost(baseCost: real, x: Point): real
  {
    baseCost + baseCost * (x.marketingPct / 100.0) + x.hires * AvgEmployeeCost
  }

  /** _profit_objective: the quantity minimized, which is minus the profit at x.
      Each marketing point moves the profit by 0.5% of revenue less 1% of
      cost, each price point by 1% of revenue, and each hire by -60000. */
  function ProfitObjective(baseRevenue: real, baseCost: real, x: Point): (r: real)
    ensures -r == (baseRevenue - baseCost)
                  + x.marketingPct * (baseRevenue * 0.005 - baseCost * 0.01)
                  + x.pricePct * baseRevenue * 0.01
                  - x.hires * 60000.0
  {
    -(Revenue(baseRevenue, x) - Cost(baseCost, x))
  }

  /** The optimizer's risk formula: no retention term, no clamp. */
  function OptimizerRisk(x: Point): real
  {
    Abs(x.marketingPct) * 0.4 + Abs(x.pricePct) * 1.2 + x.hires * 0.3
  }

  /** _risk_constraint: non-negative exactly when the risk is within the threshold. */
  function RiskConstraint(riskThreshold: real, x: Point): (r: real)
    ensures r >= 0.0 <==> OptimizerRisk(x) <= riskThreshold
    ensures r + OptimizerRisk(x) == riskThreshold
  {
    riskThreshold - OptimizerRisk(x)
  }

  /** Extra spend over the baseline cost that marketing and hiring cause. */
  function AdditionalSpend(baseCost: real, x: Point): real
  {
    baseCost * (x.marketingPct / 100.0) + x.hires * AvgEmployeeCost
  }

  /** _budget_constraint: non-negative exactly when the extra spend fits the budget. */
  function BudgetConstraint(baseCost: real, budgetLimit: real, x: Point): (r: real)
    ensures r >= 0.0 <==> AdditionalSpend(baseCost, x) <= budgetLimit
    ensures r + AdditionalSpend(baseCost, x) == budgetLimit
  {
    budgetLimit - AdditionalSpend(baseCost, x)
  }

  /** Both inequality constraints hold at x. */
  predicate Feasible(p: Problem, x: Point)
  {
    RiskConstraint(p.riskThreshold, x) >= 0.0 && BudgetConstraint(p.baseCost, p.budgetLimit, x) >= 0.0
  }

  /** The problem optimize_profit hands to the solver: it closes over the
      caller's figures, and its start point lies inside its own bounds and
      is feasible exactly when the limits admit a risk of 5 and an extra
      spend of 5% of cost plus two hires. */
  function ProblemFor(baseRevenue: real, baseCost: real, budgetLimit: real, riskThreshold: real): (p: Problem)
    ensures p.baseRevenue == baseRevenue && p.baseCost == baseCost
    ensures p.budgetLimit == budgetLimit && p.riskThreshold == riskThreshold
    ensures |p.bounds| == 3
    ensures InInterval(p.x0.marketingPct, p.bounds[0])
    ensures InInterval(p.x0.pricePct, p.bounds[1])
    ensures InInterval(p.x0.hires, p.bounds[2])
    ensures Feasible(p, p.x0) <==> 5.0 <= riskThreshold && baseCost * 0.05 + 120000.0 <= budgetLimit
  {
    Problem(baseRevenue, baseCost, budgetLimit, riskThreshold, X0, Bounds, Ftol, MaxIter)
  }

  // ---------------------------------------------------------------------
  // Post-processing

  /** The point the financials are recomputed at: the solver's on success,
      the start point otherwise. */
  function ChosenPoint(s: SolverResult): (x: Point)
    ensures s.success ==> x == s.x
    ensures !s.success ==> x == X0
    ensures !s.success ==> InBounds(x) && x.hires == 2.0 && OptimizerRisk(x) == 5.0
    ensures !s.success ==> forall base: real :: AdditionalSpend(base, x) == base * 0.05 + 120000.0
  {
    if !s.success then X0 else s.x
  }

  /** optimize_profit, with the solver as the oracle `minimize`. */
  function OptimizeProfit(baseRevenue: real, baseCost: real, budgetLimit: real, riskThreshold: real,
                          minimize: Problem -> SolverResult): (r: OptimizationResult)
    ensures var s := minimize(ProblemFor(baseRevenue, baseCost, budgetLimit, riskThreshold));
      var x := ChosenPoint(s);
      && r.optimizerSuccess == s.success
      && r.optimizerMessage == (if s.message.Some? then s.message.value else "")
      && r.optimizedMarketingPct == x.marketingPct
      && r.optimizedPricePct == x.pricePct
      && r.optimizedHiringCount == RoundHalfEven(x.hires)
      && r.projectedProfit == -ProfitObjective(baseRevenue, baseCost, x)
      && r.projectedProfit == r.projectedRevenue - r.projectedCost
      && r.projectedCost - baseCost == AdditionalSpend(baseCost, x)
      && r.riskScore <= 100.0
      && (r.riskScore == 100.0 || r.riskScore == OptimizerRisk(x))
      && r.riskScore <= OptimizerRisk(x)
  {
    var s := minimize(ProblemFor(baseRevenue, baseCost, budgetLimit, riskThreshold));
    var x := ChosenPoint(s);
    var optRevenue := Revenue(baseRevenue, x);
    var optCost := Cost(baseCost, x);
    var optProfit := optRevenue - optCost;
    var optRisk := Min(100.0, OptimizerRisk(x));
    OptimizationResult(
      x.marketingPct,
      x.pricePct,
      RoundHalfEven(x.hires),
      optRevenue,
      optCost,
      optProfit,
      optRisk,
      s.success,
      if s.message.Some? then s.message.value else "")
  }

  // ---------------------------------------------------------------------
  // Properties

  /** The start point lies inside the box bounds. */
  lemma X0InBounds()
    ensures InBounds(X0)
  {
  }

  /** The start point is feasible exactly when the threshold admits its risk
      of 5 and the budget admits its extra spend of 5% of cost plus two hires. */
  lemma X0FeasibleIff(p: Problem)
    ensures Feasible(p, X0) <==> 5.0 <= p.riskThreshold && p.baseCost * 0.05 + 120000.0 <= p.budgetLimit
  {
  }

  /** When the solver fails, whatever point it returned, the report is
      the start point's: marketing 5%, price 2%, two hires, risk 5. */
  lemma FallbackOnFailure(baseRevenue: real, baseCost: real, budgetLimit: real, riskThreshold: real,
                          minimize: Problem -> SolverResult)
    requires !minimize(ProblemFor(baseRevenue, baseCost, budgetLimit, riskThreshold)).success
    ensures var r := OptimizeProfit(baseRevenue, baseCost, budgetLimit, riskThreshold, minimize);
      && !r.optimizerSuccess
      && r.optimizedMarketingPct == 5.0 && r.optimizedPricePct == 2.0 && r.optimizedHiringCount == 2
      && r.projectedProfit == -ProfitObjective(baseRevenue, baseCost, X0)
      && r.projectedCost == baseCost * 1.05 + 120000.0
      && r.riskScore == 5.0
  {
    var r := OptimizeProfit(baseRevenue, baseCost, budgetLimit, riskThreshold, minimize);
    assert RoundHalfEven(2.0) == 2;
    assert OptimizerRisk(X0) == 5.0;
  }

  /** If the solver, on success, returns a point satisfying both constraints,
      the reported risk stays within the threshold and the reported
      extra cost stays within the budget. */
  lemma SuccessRespectsConstraints(baseRevenue: real, baseCost: real, budgetLimit: real, riskThreshold: real,
                                   minimize: Problem -> SolverResult)
    requires var p := ProblemFor(baseRevenue, baseCost, budgetLimit, riskThreshold);
      minimize(p).success && Feasible(p, minimize(p).x)
    ensures var r := OptimizeProfit(baseRevenue, baseCost, budgetLimit, riskThreshold, minimize);
      && r.optimizerSuccess
      && r.riskScore <= riskThreshold
      && r.projectedCost - baseCost <= budgetLimit
  {
  }

  /** Under the default risk ceiling, only the budget decides whether the
      start point is feasible. */
  lemma X0WithinDefaultThreshold(baseRevenue: real, baseCost: real, budgetLimit: real)
    ensures Feasible(ProblemFor(baseRevenue, baseCost, budgetLimit, DefaultRiskThreshold), X0)
        <==> baseCost * 0.05 + 120000.0 <= budgetLimit
  {
    X0FeasibleIff(ProblemFor(baseRevenue, baseCost, budgetLimit, DefaultRiskThreshold));
  }

  /** With a zero budget and a positive baseline cost, the only feasible
      points inside the bounds spend nothing on marketing and hire nobody. */
  lemma ZeroBudgetForcesNoSpend(p: Problem, x: Point)
    requires p.budgetLimit == 0.0 && p.baseCost > 0.0
    requires InBounds(x) && Feasible(p, x)
    ensures x.marketingPct == 0.0 && x.hires == 0.0
  {
    assert p.baseCost * (x.marketingPct / 100.0) >= 0.0;
  }

  /** The reported hire count is rounded, but the reported cost and profit
      use the solver's fractional hire count: with 2.5 hires the report
      says 2 hires (ties go to even) yet charges for 2.5. */
  lemma CostUsesUnroundedHires(baseRevenue: real, baseCost: real, budgetLimit: real, riskThreshold: real,
                               minimize: Problem -> SolverResult)
    requires var s := minimize(ProblemFor(baseRevenue, baseCost, budgetLimit, riskThreshold));
      s.success && s.x == Point(0.0, 0.0, 2.5)
    ensures var r := OptimizeProfit(baseRevenue, baseCost, budgetLimit, riskThreshold, minimize);
      && r.optimizedHiringCount == 2
      && r.projectedCost == baseCost + 150000.0
      && r.projectedCost != baseCost + r.optimizedHiringCount as real * AvgEmployeeCost
  {
    assert RoundHalfEven(2.5) == 2;
  }

  /** At an integer hire count and no retention spend, the negated objective
      is the simulator's projected profit at the optimizer's cost per hire,
      whatever the churn rate. */
  lemma ObjectiveAgreesWithSimulator(baseRevenue: real, baseCost: real, m: real, pr: real, h: int, churnRate: real)
    ensures -ProfitObjective(baseRevenue, baseCost, Point(m, pr, h as real))
         == S.Simulate(S.Baseline(baseRevenue, baseCost), S.Decision(m, pr, h, 0.0), AvgEmployeeCost, churnRate).projectedProfit
  {
  }

  /** The extra spend the budget constraint limits is the simulator's cost
      delta for the same decisions without retention. */
  lemma AdditionalSpendIsCostDelta(baseRevenue: real, baseCost: real, m: real, pr: real, h: int, churnRate: real)
    ensures AdditionalSpend(baseCost, Point(m, pr, h as real))
         == S.Simulate(S.Baseline(baseRevenue, baseCost), S.Decision(m, pr, h, 0.0), AvgEmployeeCost, churnRate).costDelta
  {
  }

  /** The two risk formulas differ exactly by the simulator's retention term:
      any positive retention spend makes the simulator's raw risk larger. */
  lemma RiskFormulasDiffer(m: real, pr: real, h: int, retention: real)
    ensures S.RawRisk(S.Decision(m, pr, h, retention)) - OptimizerRisk(Point(m, pr, h as real))
         == (retention / 10000.0) * 0.5
    ensures retention > 0.0 ==> OptimizerRisk(Point(m, pr, h as real)) < S.RawRisk(S.Decision(m, pr, h, retention))
  {
  }
}
