# NeuroCore AI decision engine: a verified Dafny model

NeuroCore AI is an analytics dashboard. Its business rules sit in four
small pieces of code, and this project models those four pieces in Dafny
and proves properties about them:

- **Strategy simulator** (`strategy_simulator.dfy`, module `StrategySimulator`).
  It is one closed-form evaluation. It takes a baseline (revenue, cost), four
  decision levers (marketing %, price %, hires, retention spend), a cost per
  hire and a churn rate. From these it computes projected revenue, cost and
  profit, their deltas, an ROI guarded against a zero or negative investment,
  and a risk score clamped at 100.
- **Profit optimizer** (`optimization.dfy`, module `ProfitOptimizer`).
  It has an objective (minus the profit), a risk constraint and a budget
  constraint. These are handed, with fixed box bounds and a fixed start point
  x0 = (5, 2, 2), to SciPy's SLSQP solver. The model treats the solver as an
  oracle: the function parameter `minimize`. After the solve comes
  post-processing. It falls back to x0 when the solver fails, recomputes the
  financials at the chosen point, clamps the risk and rounds the hire count.
- **Executive insight rules** (`insights.dfy`, module `ExecutiveInsights`).
  Two threshold classifiers (risk level, churn level) feed a rule engine. The
  engine writes one sentence per section and conditionally appends action
  items. Each sentence is kept as a template value (`Insight`) holding the
  numbers it shows. The printing of those numbers is a parameter `fmt`.
- **MAPE metric** (`revenue_forecast.dfy`, module `RevenueForecast`).
  This is the masked mean absolute percentage error of a forecast.

Shared pieces: `builtins.dfy` holds Python's `abs`, `min` and `round` modelled
on reals. `wrappers.dfy` holds `Option`, used for Python's optional arguments.

All floating-point quantities are modelled as exact `real`s.

Points of the code worth knowing about:

- The optimizer's reported cost and profit use the solver's unrounded hire
  count (utils/optimization.py:100); only the reported count is rounded
  (line 107). `ProfitOptimizer.CostUsesUnroundedHires` exhibits the gap.
- The source documents the risk score as 0–100
  (utils/strategy_simulator.py:69, utils/optimization.py:29), but the code only
  applies `min(100, ...)`. The lower bound 0 is proved only when hires and
  retention spend are non-negative.
- The simulator's and the optimizer's risk formulas really differ: only the
  simulator has a retention term. They are kept as two functions (`RawRisk`,
  `OptimizerRisk`). `ProfitOptimizer.RiskFormulasDiffer` states the difference.

## Model

| member | source | states |
|---|---|---|
| StrategySimulator.Roi | utils/strategy_simulator.py:61-67 | ROI is exactly 0 when the incremental investment is ≤ 0; otherwise ROI × investment = profit delta × 100, so ROI is positive iff the profit delta is positive |
| StrategySimulator.RiskScore | utils/strategy_simulator.py:71-77 | risk ≤ 100 and ≤ the raw formula, equal to one of them, and ≥ 0 when hires and retention are non-negative |
| StrategySimulator.Simulate | utils/strategy_simulator.py:37-91 | base fields echo the baseline; profit = revenue − cost; profit delta = revenue delta − cost delta; cost delta = incremental investment; the ROI guard; the risk bounds |
| StrategySimulator.NoChangeIsIdentity | utils/strategy_simulator.py:37-88 | with all four levers at 0, projected revenue and cost equal the baseline, and every delta, the ROI and the risk are 0 |
| StrategySimulator.RevenueIgnoresHiring | utils/strategy_simulator.py:37-50 | projected revenue does not depend on the hire count or the cost per hire |
| StrategySimulator.CostIgnoresPriceAndChurn | utils/strategy_simulator.py:53-56 | projected cost does not depend on the price change or the churn rate |
| StrategySimulator.RetentionMarginalEffect | utils/strategy_simulator.py:43-56 | each extra retention dollar adds 3 × churn rate of revenue and exactly one dollar of cost |
| StrategySimulator.HiringMarginalCost | utils/strategy_simulator.py:53-56 | one more hire adds exactly the cost per hire to cost and leaves revenue unchanged |
| StrategySimulator.RiskMonotone | utils/strategy_simulator.py:71-77 | risk never decreases as abs(marketing %), abs(price %), hires or retention grow |
| StrategySimulator.RiskSaturates | utils/strategy_simulator.py:71-77 | once the raw risk reaches 100 the score is exactly 100 |
| StrategySimulator.WorkedScenario | utils/strategy_simulator.py:37-77 | 10M/7M baseline, +10% marketing, +5% price, 5 hires, 100k retention, churn 0.15: revenue 11,045,000, cost 8,100,000, profit delta −55,000, ROI −5, risk 16.5 |
| Builtins.RoundHalfEven | utils/optimization.py:107 | the integer is within 1/2 of its input, and a tie goes to the even integer |
| Builtins.RoundWhole | utils/optimization.py:107 | rounding a whole number returns it unchanged |
| ProfitOptimizer.ProfitObjective | utils/optimization.py:35-50 | minus the objective is the base profit plus, per lever, 0.5% of revenue less 1% of cost per marketing point, 1% of revenue per price point, and −60,000 per hire |
| ProfitOptimizer.RiskConstraint | utils/optimization.py:52-60 | the constraint is ≥ 0 iff 0.4·abs(m) + 1.2·abs(p) + 0.3·h ≤ threshold (no retention term) |
| ProfitOptimizer.BudgetConstraint | utils/optimization.py:62-67 | the constraint is ≥ 0 iff base_cost·m/100 + h·60000 ≤ budget |
| ProfitOptimizer.ProblemFor | utils/optimization.py:69-85 | the solver gets the caller's four parameters and three box bounds; its start point lies inside them and is feasible iff threshold ≥ 5 and budget ≥ 5% of base cost + 120,000 |
| ProfitOptimizer.ChosenPoint | utils/optimization.py:87-91 | on success the solver's point; on failure x0 whatever the solver returned, a point inside the bounds with two hires, risk 5 and extra spend 5% of cost + 120,000 |
| ProfitOptimizer.OptimizeProfit | utils/optimization.py:87-114 | success flag and message mirror the solver; profit = −objective at the chosen point; cost − base = extra spend at the unrounded point; hire count = round(hires); risk ≤ 100 and is the clamped optimizer risk |
| ProfitOptimizer.X0InBounds | utils/optimization.py:70-72 | x0 lies inside [(0,50), (−10,15), (0,50)] |
| ProfitOptimizer.X0WithinDefaultThreshold | utils/optimization.py:15 | under the default threshold of 50, x0 is feasible iff budget ≥ 5% of base cost + 120,000 |
| ProfitOptimizer.X0FeasibleIff | utils/optimization.py:52-72 | x0 is feasible iff threshold ≥ 5 and budget ≥ 5% of base cost + 120,000 |
| ProfitOptimizer.FallbackOnFailure | utils/optimization.py:87-102 | on solver failure the report is x0's: 5%, 2%, 2 hires, its profit and cost, risk 5, success false |
| ProfitOptimizer.SuccessRespectsConstraints | utils/optimization.py:73-112 | if on success the solver's point is feasible, the reported risk is ≤ the threshold and the extra cost is ≤ the budget |
| ProfitOptimizer.ZeroBudgetForcesNoSpend | utils/optimization.py:62-72 | with budget 0 and a positive base cost, every feasible in-bounds point has 0 marketing increase and 0 hires |
| ProfitOptimizer.CostUsesUnroundedHires | utils/optimization.py:100-107 | a solver point with 2.5 hires is reported as 2 hires but charged 150,000, not 2 × 60,000 |
| ProfitOptimizer.ObjectiveAgreesWithSimulator | utils/optimization.py:35-50 | at integer hires and no retention, −objective equals the simulator's projected profit |
| ProfitOptimizer.AdditionalSpendIsCostDelta | utils/optimization.py:62-67 | the budgeted extra spend equals the simulator's cost delta without retention |
| ProfitOptimizer.RiskFormulasDiffer | utils/optimization.py:52-60 | simulator raw risk − optimizer risk = retention/10000 × 0.5, so it is strictly larger when retention > 0 |
| ExecutiveInsights.ClassifyRisk | utils/insights.py:159-166 | "Low" iff score < 20, "Moderate" iff 20 ≤ score < 40, "High" iff 40 ≤ score < 65, "Critical" iff score ≥ 65 |
| ExecutiveInsights.ClassifyChurn | utils/insights.py:169-174 | "healthy" iff rate < 0.05, "elevated" iff 0.05 ≤ rate < 0.15, "critical" iff rate ≥ 0.15 |
| ExecutiveInsights.ClassifyRiskMonotone | utils/insights.py:159-166 | a higher score never gets a lower risk level |
| ExecutiveInsights.ClassifyChurnMonotone | utils/insights.py:169-174 | a higher churn rate never gets a lower churn level |
| ExecutiveInsights.RiskCommentary | utils/insights.py:177-184 | the commentary is "" exactly when the level is not a key of the table |
| ExecutiveInsights.RiskLevelsAreClassifierLevels | utils/insights.py:159-184 | the table's keys are exactly Low, Moderate, High, Critical, so every level the classifier returns has a commentary |
| ExecutiveInsights.ExpectedSections | utils/insights.py:36-139 | four fixed sections (revenue, churn, anomaly, risk), then one more for each optional input given |
| ExecutiveInsights.FitIsUnique | utils/insights.py:36-139 | for any inputs at most one sentence template fits each section |
| ExecutiveInsights.RevenueTrendActions | utils/insights.py:37-53 | trend "up" triggers no revenue action; any other string, known or not, triggers exactly one |
| ExecutiveInsights.NothingTriggeredIff | utils/insights.py:37-108 | no action item is due iff trend = "up", churn < 0.05, anomalies ≤ 3 and risk < 40 |
| ExecutiveInsights.ActionsFromSections | utils/insights.py:37-108 | the sections' items concatenate to exactly the due items, in rank order, at most 4; the list is empty iff nothing is due; Risk Committee is in it iff the level is High or Critical |
| ExecutiveInsights.InsightsFromSections | utils/insights.py:36-139 | the fixed and optional sentences, each fitting its section, form the expected section sequence |
| ExecutiveInsights.JoinLength | utils/insights.py:141 | joining n > 0 sentences adds exactly n − 1 spaces |
| ExecutiveInsights.TextsPointwise | utils/insights.py:141 | the i-th joined text is the i-th sentence, written with fmt |
| ExecutiveInsights.RevenueCommentary | utils/insights.py:36-53 | the revenue sentence fits the trend; the action items are exactly the due revenue items |
| ExecutiveInsights.ChurnCommentary | utils/insights.py:55-75 | the churn sentence fits the rate; the action items are exactly the due churn items |
| ExecutiveInsights.AnomalyCommentary | utils/insights.py:77-98 | the anomaly sentence fits the count; the action items are exactly the due anomaly items |
| ExecutiveInsights.RiskCommentarySection | utils/insights.py:100-108 | the risk sentence carries the score and its level; Risk Committee is added iff the level is High or Critical |
| ExecutiveInsights.ForecastCommentary | utils/insights.py:110-126 | one fitting sentence iff a MAPE is given, and no action item |
| ExecutiveInsights.ProfitCommentary | utils/insights.py:128-139 | one fitting sentence iff a profit delta is given, and no action item |
| ExecutiveInsights.GenerateExecutiveInsights | utils/insights.py:9-154 | 4 + [MAPE given] + [delta given] sentences, one per expected section, each fitting; an action item is present iff due (so the optional inputs add none), in rank order, at most 4; empty iff up/healthy/≤3/risk < 40; levels equal the classifiers; summary = sentences joined by spaces, so its length is their total length plus one space between each two |
| RevenueForecast.Masked | models/revenue_forecast.py:22 | no more pairs than the input, and none with a zero actual |
| RevenueForecast.MaskedKeepsNonzero | models/revenue_forecast.py:22 | every position with a nonzero actual has its (actual, predicted) pair kept |
| RevenueForecast.MaskedConcat | models/revenue_forecast.py:22 | the mask of a concatenation is the concatenation of the masks, so order is kept |
| RevenueForecast.MaskedSingle | models/revenue_forecast.py:22 | one position is kept exactly when its actual is nonzero |
| RevenueForecast.AbsPercentErrors | models/revenue_forecast.py:23 | one non-negative error per kept pair |
| RevenueForecast.AbsPercentErrorsPointwise | models/revenue_forecast.py:23 | the error at each position is abs((actual − predicted) / actual) of the pair there |
| RevenueForecast.ComputeMape | models/revenue_forecast.py:11-23 | MAPE ≥ 0, and MAPE = 0 iff the prediction is exact at every position with a nonzero actual |
| RevenueForecast.MaskedNonempty | models/revenue_forecast.py:22-23 | a nonzero actual value leaves at least one kept pair |
| RevenueForecast.ErrorsZeroIff | models/revenue_forecast.py:22-23 | every kept error is 0 iff the prediction is exact at every kept position |
| RevenueForecast.MaskIgnoresZeroActuals | models/revenue_forecast.py:22 | predictions that agree wherever actual ≠ 0 give the same kept pairs |
| RevenueForecast.MapeIgnoresZeroActuals | models/revenue_forecast.py:22-23 | predictions at positions where actual = 0 never change the MAPE |
| RevenueForecast.UniformRelativeError | models/revenue_forecast.py:23 | a forecast off by the same relative amount c everywhere has MAPE 100·abs(c) |

## Left out

- Floating point: every amount is an exact real. IEEE rounding, overflow and NaN are not modelled.
- StrategySimulator.Simulate: the results are unrounded. The source rounds each one as it returns it (`round(x, 2)`, risk `round(x, 1)`). Python rounds the binary float, so this depends on the float representation.
- ProfitOptimizer.OptimizeProfit: the same goes for the two-decimal roundings of the marketing %, price %, revenue, cost and profit, and the one-decimal rounding of the risk. Only the hire count's `int(round(...))` is modelled (`Builtins.RoundHalfEven`).
- ProfitOptimizer.OptimizeProfit: SciPy's SLSQP is an oracle parameter. Its internals, tolerance, iteration cap and message text are not modelled. Nothing about optimality is proved, and no optimality property is stated. Feasibility of the solver's point is assumed only where a lemma says so (`SuccessRespectsConstraints`).
- ProfitOptimizer.OptimizeProfit: `hasattr(result, "message")` is modelled as an optional message in the solver result.
- ExecutiveInsights.GenerateExecutiveInsights: number formatting inside sentences (`:.1%`, `:.0f`, `:.2f`, `:,.0f`, `str` of an int) is abstracted into the parameter `fmt`. The model establishes which template is chosen and with which numbers, not the exact characters of the numbers.
- ExecutiveInsights.GenerateExecutiveInsights: `key_metrics.churn_rate_pct` is given as churn × 100, without `round(..., 2)`.
- ExecutiveInsights.GenerateExecutiveInsights: action items are kept as the datatype `ActionItem`. Their exact strings are `ActionItem.Text`. The sentence list is returned alongside the report, because the summary is joined from it.
- RevenueForecast.ComputeMape has two requires. (1) The two series have the same length. The one caller (models/revenue_forecast.py:70) passes plain arrays, which are not aligned by index; with unequal lengths, indexing `predicted` with the mask raises an IndexError, and that raise is the case this requires excludes. (2) Some actual value is nonzero: otherwise numpy averages an empty array and returns NaN.
- The Prophet forecasting in models/revenue_forecast.py (`run_revenue_forecast`) is external library fitting. It is not part of this model.
- The Streamlit pages, theme and Plotly charts (app.py, pages/, utils/theme.py, utils/visualization.py) are UI glue. They are not part of this model.
- The random data generator (data/generate_data.py) is not part of this model. Nor are the scikit-learn churn and anomaly wrappers (models/churn_prediction.py, models/anomaly_detection.py).
