/** The rule-based executive insight generator: two threshold classifiers
    (risk level, churn level) and a rule engine that appends one commentary
    sentence per section and, conditionally, action items.
    Sentences are kept as templates (the datatype Insight) carrying the
    numbers they mention; how a number is printed is a parameter `fmt`. */
module ExecutiveInsights {
  import opened Wrappers

  // ---------------------------------------------------------------------
  // Classifiers

  /** _classify_risk: four bands of the risk score. */
  function ClassifyRisk(score: real): (level: string)
    ensures level == "Low" <==> score < 20.0
    ensures level == "Moderate" <==> 20.0 <= score < 40.0
    ensures level == "High" <==> 40.0 <= score < 65.0
    ensures level == "Critical" <==> 65.0 <= score
  {
    if score < 20.0 then "Low"
    else if score < 40.0 then "Moderate"
    else if score < 65.0 then "High"
    else "Critical"
  }

  /** _classify_churn: three bands of the churn rate. */
  function ClassifyChurn(rate: real): (level: string)
    ensures level == "healthy" <==> rate < 0.05
    ensures level == "elevated" <==> 0.05 <= rate < 0.15
    ensures level == "critical" <==> 0.15 <= rate
  {
    if rate < 0.05 then "healthy"
    else if rate < 0.15 then "elevated"
    else "critical"
  }

  /** Position of a risk level in the order Low < Moderate < High < Critical. */
  function RiskRank(level: string): nat
  {
    if level == "Low" then 0
    else if level == "Moderate" then 1
    else if level == "High" then 2
    else 3
  }

  /** Position of a churn level in the order healthy < elevated < critical. */
  function ChurnRank(level: string): nat
  {
    if level == "healthy" then 0
    else if level == "elevated" then 1
    else 2
  }

  /** A higher score never gets a lower risk level. */
  lemma ClassifyRiskMonotone(s1: real, s2: real)
    requires s1 <= s2
    ensures RiskRank(ClassifyRisk(s1)) <= RiskRank(ClassifyRisk(s2))
  {
  }

  /** A higher churn rate never gets a lower churn level. */
  lemma ClassifyChurnMonotone(r1: real, r2: real)
    requires r1 <= r2
    ensures ChurnRank(ClassifyChurn(r1)) <= ChurnRank(ClassifyChurn(r2))
  {
  }

  /** _risk_commentary's table: one sentence per risk level. */
  const RiskComments: map<string, string> := map[
    "Low" := "The business is operating in a stable risk environment.",
    "Moderate" := "Moderate risk warrants proactive monitoring and contingency planning.",
    "High" := "Elevated risk requires immediate strategic attention and mitigation measures.",
    "Critical" := "Critical risk levels demand urgent executive intervention."]

  /** The risk levels _risk_commentary knows. */
  const RiskLevels: set<string> := RiskComments.Keys

  /** _risk_commentary: the sentence for a known level, "" for any other string. */
  function RiskCommentary(level: string): (c: string)
    ensures c == "" <==> level !in RiskLevels
  {
    if level in RiskComments then RiskComments[level] else ""
  }

  /** The table knows exactly the four levels the classifier produces. */
  lemma RiskLevelsAreClassifierLevels()
    ensures RiskLevels == {"Low", "Moderate", "High", "Critical"}
    ensures forall score: real :: ClassifyRisk(score) in RiskLevels
  {
  }

  // ---------------------------------------------------------------------
  // Sentences and action items

  /** How a number is written inside a sentence: one-decimal percentage,
      no decimals, two decimals, grouped thousands without decimals, plain integer. */
  datatype NumberFormat = Percent1 | Fixed0 | Fixed2 | Grouped0 | Whole

  /** The sections of the summary, in the order they are written. */
  datatype Section = RevenueSection | ChurnSection | AnomalySection | RiskSection | ForecastSection | ProfitSection

  /** One commentary sentence: the template chosen and the numbers it shows. */
  datatype Insight =
    | RevenuePositive
    | RevenueDownward
    | RevenueStable
    | ChurnCritical(rate: real)
    | ChurnElevated(rate: real)
    | ChurnControlled(rate: real)
    | AnomaliesMany(count: int)
    | AnomaliesModerate(count: int)
    | CostsNormal
    | RiskOverview(score: real, level: string)
    | ForecastAccurate(mape: real)
    | ForecastAcceptable(mape: real)
    | ForecastUncertain(mape: real)
    | ProfitGain(delta: real)
    | ProfitShortfall(delta: real)
  {
    function Section(): Section
    {
      match this
      case RevenuePositive | RevenueDownward | RevenueStable => RevenueSection
      case ChurnCritical(_) | ChurnElevated(_) | ChurnControlled(_) => ChurnSection
      case AnomaliesMany(_) | AnomaliesModerate(_) | CostsNormal => AnomalySection
      case RiskOverview(_, _) => RiskSection
      case ForecastAccurate(_) | ForecastAcceptable(_) | ForecastUncertain(_) => ForecastSection
      case ProfitGain(_) | ProfitShortfall(_) => ProfitSection
    }

    /** The sentence itself, with its numbers written by fmt. */
    function Text(fmt: (real, NumberFormat) -> string): string
    {
      match this
      case RevenuePositive =>
        "Revenue trajectory is positive, reflecting healthy market demand "
        + "and effective go-to-market execution."
      case RevenueDownward =>
        "Revenue is exhibiting a downward trend. Immediate investigation into "
        + "pricing strategy, sales pipeline health, and competitive positioning is warranted."
      case RevenueStable =>
        "Revenue performance remains stable. Consider growth initiatives to "
        + "capitalize on market opportunities and drive above-benchmark returns."
      case ChurnCritical(rate) =>
        "Customer churn rate stands at " + fmt(rate, Percent1) + ", which is critically high. "
        + "This poses a material risk to recurring revenue and customer lifetime value."
      case ChurnElevated(rate) =>
        "Churn rate of " + fmt(rate, Percent1) + " is above industry benchmarks. "
        + "Retention investment should be prioritized in the next budget cycle."
      case ChurnControlled(rate) =>
        "Customer churn is well-controlled at " + fmt(rate, Percent1) + ", demonstrating "
        + "strong customer satisfaction and loyalty program effectiveness."
      case AnomaliesMany(count) =>
        fmt(count as real, Whole) + " cost anomalies detected in operational expenditure. "
        + "This level of irregularity may indicate process inefficiencies, "
        + "procurement issues, or potential financial risk."
      case AnomaliesModerate(count) =>
        fmt(count as real, Whole) + " moderate cost anomalies identified. "
        + "Targeted review of flagged cost centres is recommended."
      case CostsNormal =>
        "Cost structure is operating within normal parameters. "
        + "Expenditure discipline is commendable."
      case RiskOverview(score, level) =>
        "Overall business risk score is " + fmt(score, Fixed0) + "/100 (" + level + "). "
        + RiskCommentary(level)
      case ForecastAccurate(mape) =>
        "Revenue forecast model achieves high accuracy with MAPE of " + fmt(mape, Fixed2) + "%. "
        + "Leadership can rely on forecast outputs with confidence."
      case ForecastAcceptable(mape) =>
        "Revenue forecast MAPE of " + fmt(mape, Fixed2) + "% is acceptable. "
        + "Periodic model recalibration is advisable."
      case ForecastUncertain(mape) =>
        "Forecast MAPE of " + fmt(mape, Fixed2) + "% indicates high uncertainty. "
        + "Model retraining with more recent data is strongly recommended."
      case ProfitGain(delta) =>
        "Strategic initiatives are projected to deliver $" + fmt(delta, Grouped0) + " "
        + "in incremental profit — a positive signal for shareholder value creation."
      case ProfitShortfall(delta) =>
        "Current strategic plan projects a profit shortfall of "
        + "$" + fmt(if delta < 0.0 then -delta else delta, Grouped0)
        + ". Recalibration of investment allocation is advised."
    }
  }

  /** The action items the engine can recommend, in the order it considers them. */
  datatype ActionItem =
    | RevenueRecoveryReview
    | NewRevenueStreams
    | EmergencyChurnProgram
    | RetentionProgram
    | CostGovernance
    | AnomalyReview
    | RiskCommittee
  {
    function Rank(): nat
    {
      match this
      case RevenueRecoveryReview => 0
      case NewRevenueStreams => 1
      case EmergencyChurnProgram => 2
      case RetentionProgram => 3
      case CostGovernance => 4
      case AnomalyReview => 5
      case RiskCommittee => 6
    }

    function Text(): string
    {
      match this
      case RevenueRecoveryReview => "Conduct urgent revenue recovery review with Sales & Marketing leadership."
      case NewRevenueStreams => "Identify and evaluate new revenue stream opportunities."
      case EmergencyChurnProgram =>
        "Initiate emergency churn reduction program: targeted retention campaigns, "
        + "proactive customer success outreach, and product feedback loops."
      case RetentionProgram => "Launch structured customer retention program with measurable KPIs."
      case CostGovernance =>
        "Engage Finance and Operations teams to investigate cost anomalies "
        + "and implement cost governance controls."
      case AnomalyReview => "Schedule cost anomaly review with Finance team."
      case RiskCommittee => "Convene Risk Committee to review and mitigate elevated business risk exposure."
    }
  }

  /** The inputs of the engine. */
  datatype Kpis = Kpis(
    revenueTrend: string,
    churnRate: real,
    anomalyCount: int,
    riskScore: real,
    forecastMape: Option<real>,
    projectedProfitDelta: Option<real>)

  /** The key_metrics part of the report (churn as an unrounded percentage). */
  datatype KeyMetrics = KeyMetrics(riskScore: real, churnRatePct: real, anomalyCount: int, revenueTrend: string)

  /** What generate_executive_insights returns. */
  datatype Report = Report(
    executiveSummary: string,
    actionItems: seq<ActionItem>,
    riskLevel: string,
    churnLevel: string,
    keyMetrics: KeyMetrics)

  // ---------------------------------------------------------------------
  // Reference definitions of what the engine should produce

  /** The sentence ins is the right one for its section given the inputs,
      stated on the raw thresholds. */
  predicate Fits(ins: Insight, k: Kpis)
  {
    match ins
    case RevenuePositive => k.revenueTrend == "up"
    case RevenueDownward => k.revenueTrend == "down"
    case RevenueStable => k.revenueTrend != "up" && k.revenueTrend != "down"
    case ChurnCritical(r) => r == k.churnRate && 0.15 <= r
    case ChurnElevated(r) => r == k.churnRate && 0.05 <= r < 0.15
    case ChurnControlled(r) => r == k.churnRate && r < 0.05
    case AnomaliesMany(n) => n == k.anomalyCount && n > 10
    case AnomaliesModerate(n) => n == k.anomalyCount && 3 < n <= 10
    case CostsNormal => k.anomalyCount <= 3
    case RiskOverview(s, level) => s == k.riskScore && level == ClassifyRisk(s)
    case ForecastAccurate(m) => k.forecastMape == Some(m) && m < 5.0
    case ForecastAcceptable(m) => k.forecastMape == Some(m) && 5.0 <= m < 10.0
    case ForecastUncertain(m) => k.forecastMape == Some(m) && 10.0 <= m
    case ProfitGain(d) => k.projectedProfitDelta == Some(d) && d > 0.0
    case ProfitShortfall(d) => k.projectedProfitDelta == Some(d) && d <= 0.0
  }

  /** The sections written for the inputs: the four fixed ones, then one
      for each optional input that is given. */
  function ExpectedSections(k: Kpis): (ss: seq<Section>)
    ensures |ss| == 4 + (if k.forecastMape.Some? then 1 else 0) + (if k.projectedProfitDelta.Some? then 1 else 0)
    ensures ss[..4] == [RevenueSection, ChurnSection, AnomalySection, RiskSection]
  {
    [RevenueSection, ChurnSection, AnomalySection, RiskSection]
    + (if k.forecastMape.Some? then [ForecastSection] else [])
    + (if k.projectedProfitDelta.Some? then [ProfitSection] else [])
  }

  /** When each action item is due, stated on the raw inputs. The optional
      forecast and profit inputs play no part. */
  predicate Triggered(a: ActionItem, k: Kpis)
  {
    match a
    case RevenueRecoveryReview => k.revenueTrend == "down"
    case NewRevenueStreams => k.revenueTrend != "up" && k.revenueTrend != "down"
    case EmergencyChurnProgram => 0.15 <= k.churnRate
    case RetentionProgram => 0.05 <= k.churnRate < 0.15
    case CostGovernance => k.anomalyCount > 10
    case AnomalyReview => 3 < k.anomalyCount <= 10
    case RiskCommittee => 40.0 <= k.riskScore
  }

  /** For each section at most one sentence fits the inputs. */
  lemma FitIsUnique(a: Insight, b: Insight, k: Kpis)
    requires Fits(a, k) && Fits(b, k) && a.Section() == b.Section()
    ensures a == b
  {
  }

  /** The revenue trend "up" triggers nothing; any other string, known or
      not, triggers exactly one revenue action item. */
  lemma RevenueTrendActions(k: Kpis)
    ensures k.revenueTrend == "up" ==> !Triggered(RevenueRecoveryReview, k) && !Triggered(NewRevenueStreams, k)
    ensures k.revenueTrend != "up" ==> (Triggered(RevenueRecoveryReview, k) <==> !Triggered(NewRevenueStreams, k))
  {
  }

  /** p holds at most one action item, all of rank lo..hi, and of those
      exactly the ones triggered by k. */
  predicate CoversBand(p: seq<ActionItem>, lo: nat, hi: nat, k: Kpis)
  {
    && |p| <= 1
    && (forall a :: a in p ==> lo <= a.Rank() <= hi)
    && (forall a: ActionItem :: lo <= a.Rank() <= hi ==> (a in p <==> Triggered(a, k)))
  }

  /** No action item is triggered exactly when the trend is "up", churn is
      healthy, there are at most three anomalies and risk is below 40. */
  lemma NothingTriggeredIff(k: Kpis)
    ensures (forall a: ActionItem :: !Triggered(a, k)) <==>
      k.revenueTrend == "up" && k.churnRate < 0.05 && k.anomalyCount <= 3 && k.riskScore < 40.0
  {
    if forall a: ActionItem :: !Triggered(a, k) {
      assert !Triggered(RevenueRecoveryReview, k) && !Triggered(NewRevenueStreams, k);
      assert !Triggered(EmergencyChurnProgram, k) && !Triggered(RetentionProgram, k);
      assert !Triggered(CostGovernance, k) && !Triggered(AnomalyReview, k);
      assert !Triggered(RiskCommittee, k);
    }
  }

  /** Four sections' action items, one band of ranks each, concatenate to a
      list that holds exactly the triggered items, in rank order. */
  lemma ActionsFromSections(k: Kpis, rev: seq<ActionItem>, churn: seq<ActionItem>,
                            anomaly: seq<ActionItem>, risk: seq<ActionItem>)
    requires CoversBand(rev, 0, 1, k) && CoversBand(churn, 2, 3, k)
    requires CoversBand(anomaly, 4, 5, k) && CoversBand(risk, 6, 6, k)
    ensures var s := rev + churn + anomaly + risk;
      && (forall a: ActionItem :: a in s <==> Triggered(a, k))
      && (forall i, j :: 0 <= i < j < |s| ==> s[i].Rank() < s[j].Rank())
      && |s| <= 4
      && (s == [] <==> k.revenueTrend == "up" && k.churnRate < 0.05 && k.anomalyCount <= 3 && k.riskScore < 40.0)
      && (RiskCommittee in s <==> ClassifyRisk(k.riskScore) in {"High", "Critical"})
  {
    var s := rev + churn + anomaly + risk;
    NothingTriggeredIff(k);
    forall a: ActionItem
      ensures a in s <==> Triggered(a, k)
    {
      assert a in s <==> a in rev || a in churn || a in anomaly || a in risk;
    }
    forall i, j | 0 <= i < j < |s|
      ensures s[i].Rank() < s[j].Rank()
    {
      var x, y := s[i], s[j];
      assert x in rev || x in churn || x in anomaly || x in risk;
      assert y in rev || y in churn || y in anomaly || y in risk;
    }
    if s != [] {
      assert s[0] in s;
    }
  }

  /** The four fixed sentences and the optional ones, each fitting its
      section, make up the expected sections in order. */
  lemma InsightsFromSections(k: Kpis, rev: Insight, churn: Insight, anomaly: Insight, risk: Insight,
                             forecast: seq<Insight>, profit: seq<Insight>)
    requires Fits(rev, k) && rev.Section() == RevenueSection
    requires Fits(churn, k) && churn.Section() == ChurnSection
    requires Fits(anomaly, k) && anomaly.Section() == AnomalySection
    requires Fits(risk, k) && risk.Section() == RiskSection
    requires |forecast| == (if k.forecastMape.Some? then 1 else 0)
    requires forall i :: 0 <= i < |forecast| ==> Fits(forecast[i], k) && forecast[i].Section() == ForecastSection
    requires |profit| == (if k.projectedProfitDelta.Some? then 1 else 0)
    requires forall i :: 0 <= i < |profit| ==> Fits(profit[i], k) && profit[i].Section() == ProfitSection
    ensures var s := [rev, churn, anomaly, risk] + forecast + profit;
      && |s| == |ExpectedSections(k)|
      && (forall i :: 0 <= i < |s| ==> s[i].Section() == ExpectedSections(k)[i])
      && (forall i :: 0 <= i < |s| ==> Fits(s[i], k))
  {
    var s := [rev, churn, anomaly, risk] + forecast + profit;
    var es := ExpectedSections(k);
    forall i | 0 <= i < |s|
      ensures s[i].Section() == es[i] && Fits(s[i], k)
    {
      if i >= 4 + |forecast| {
        assert s[i] == profit[i - 4 - |forecast|];
      } else if i >= 4 {
        assert s[i] == forecast[i - 4];
      }
    }
  }

  // ---------------------------------------------------------------------
  // Joining

  /** " ".join(parts) */
  function JoinWithSpaces(parts: seq<string>): string
  {
    if |parts| == 0 then ""
    else if |parts| == 1 then parts[0]
    else parts[0] + " " + JoinWithSpaces(parts[1..])
  }

  function TotalLength(parts: seq<string>): nat
  {
    if |parts| == 0 then 0 else |parts[0]| + TotalLength(parts[1..])
  }

  /** Joining n > 0 parts adds exactly n - 1 separating spaces. */
  lemma {:induction false} JoinLength(parts: seq<string>)
    requires |parts| > 0
    ensures |JoinWithSpaces(parts)| == TotalLength(parts) + |parts| - 1
  {
    if |parts| > 1 {
      JoinLength(parts[1..]);
    }
  }

  /** The executive summary: the sentences, each written with fmt, joined
      by single spaces. */
  function Summary(insights: seq<Insight>, fmt: (real, NumberFormat) -> string): (s: string)
    requires |insights| > 0
    ensures s == JoinWithSpaces(Texts(insights, fmt))
    ensures |s| == TotalLength(Texts(insights, fmt)) + |insights| - 1
  {
    JoinLength(Texts(insights, fmt));
    JoinWithSpaces(Texts(insights, fmt))
  }

  /** The sentences in order, each written with fmt. */
  function Texts(insights: seq<Insight>, fmt: (real, NumberFormat) -> string): (ts: seq<string>)
    ensures |ts| == |insights|
  {
    if |insights| == 0 then [] else [insights[0].Text(fmt)] + Texts(insights[1..], fmt)
  }

  /** The i-th text is the i-th sentence written with fmt. */
  lemma {:induction false} TextsPointwise(insights: seq<Insight>, fmt: (real, NumberFormat) -> string)
    ensures forall i :: 0 <= i < |insights| ==> Texts(insights, fmt)[i] == insights[i].Text(fmt)
  {
    if |insights| > 0 {
      var rest := insights[1..];
      TextsPointwise(rest, fmt);
      var ts := Texts(insights, fmt);
      assert ts == [insights[0].Text(fmt)] + Texts(rest, fmt);
      forall i | 0 <= i < |insights| ensures ts[i] == insights[i].Text(fmt) {
        if i > 0 {
          assert ts[i] == Texts(rest, fmt)[i - 1];
          assert insights[i] == rest[i - 1];
        }
      }
    }
  }

  // ---------------------------------------------------------------------
  // The engine: one method per section, each choosing its sentence and
  // its action items, and the method that appends them in order

  /** Revenue commentary: "up" adds no action item, "down" and every other
      string add one. */
  method RevenueCommentary(k: Kpis) returns (sentence: Insight, items: seq<ActionItem>)
    ensures sentence.Section() == RevenueSection && Fits(sentence, k)
    ensures CoversBand(items, 0, 1, k)
  {
    if k.revenueTrend == "up" {
      sentence, items := RevenuePositive, [];
    } else if k.revenueTrend == "down" {
      sentence, items := RevenueDownward, [RevenueRecoveryReview];
    } else {
      sentence, items := RevenueStable, [NewRevenueStreams];
    }
  }

  /** Churn commentary, chosen by the churn level. */
  method ChurnCommentary(k: Kpis, churnLevel: string) returns (sentence: Insight, items: seq<ActionItem>)
    requires churnLevel == ClassifyChurn(k.churnRate)
    ensures sentence.Section() == ChurnSection && Fits(sentence, k)
    ensures CoversBand(items, 2, 3, k)
  {
    if churnLevel == "critical" {
      sentence, items := ChurnCritical(k.churnRate), [EmergencyChurnProgram];
    } else if churnLevel == "elevated" {
      sentence, items := ChurnElevated(k.churnRate), [RetentionProgram];
    } else {
      sentence, items := ChurnControlled(k.churnRate), [];
    }
  }

  /** Anomaly commentary: more than ten, more than three, or normal. */
  method AnomalyCommentary(k: Kpis) returns (sentence: Insight, items: seq<ActionItem>)
    ensures sentence.Section() == AnomalySection && Fits(sentence, k)
    ensures CoversBand(items, 4, 5, k)
  {
    if k.anomalyCount > 10 {
      sentence, items := AnomaliesMany(k.anomalyCount), [CostGovernance];
    } else if k.anomalyCount > 3 {
      sentence, items := AnomaliesModerate(k.anomalyCount), [AnomalyReview];
    } else {
      sentence, items := CostsNormal, [];
    }
  }

  /** Risk commentary: always one sentence; the Risk Committee item for a
      High or Critical level. */
  method RiskCommentarySection(k: Kpis, riskLevel: string) returns (sentence: Insight, items: seq<ActionItem>)
    requires riskLevel == ClassifyRisk(k.riskScore)
    ensures sentence.Section() == RiskSection && Fits(sentence, k)
    ensures CoversBand(items, 6, 6, k)
    ensures items == [RiskCommittee] <==> riskLevel in {"High", "Critical"}
  {
    sentence := RiskOverview(k.riskScore, riskLevel);
    if riskLevel == "High" || riskLevel == "Critical" {
      items := [RiskCommittee];
    } else {
      items := [];
    }
  }

  /** Forecast accuracy: a sentence only when a MAPE is given, never an action item. */
  method ForecastCommentary(k: Kpis) returns (sentences: seq<Insight>)
    ensures |sentences| == (if k.forecastMape.Some? then 1 else 0)
    ensures forall i :: 0 <= i < |sentences| ==> sentences[i].Section() == ForecastSection && Fits(sentences[i], k)
  {
    sentences := [];
    if k.forecastMape.Some? {
      var mape := k.forecastMape.value;
      if mape < 5.0 {
        sentences := sentences + [ForecastAccurate(mape)];
      } else if mape < 10.0 {
        sentences := sentences + [ForecastAcceptable(mape)];
      } else {
        sentences := sentences + [ForecastUncertain(mape)];
      }
    }
  }

  /** Profit delta: a sentence only when a delta is given, never an action item. */
  method ProfitCommentary(k: Kpis) returns (sentences: seq<Insight>)
    ensures |sentences| == (if k.projectedProfitDelta.Some? then 1 else 0)
    ensures forall i :: 0 <= i < |sentences| ==> sentences[i].Section() == ProfitSection && Fits(sentences[i], k)
  {
    sentences := [];
    if k.projectedProfitDelta.Some? {
      var delta := k.projectedProfitDelta.value;
      if delta > 0.0 {
        sentences := sentences + [ProfitGain(delta)];
      } else {
        sentences := sentences + [ProfitShortfall(delta)];
      }
    }
  }

  /** generate_executive_insights. Also returns the list of sentences the
      summary is joined from. */
  method GenerateExecutiveInsights(
    revenueTrend: string,
    churnRate: real,
    anomalyCount: int,
    riskScore: real,
    forecastMape: Option<real>,
    projectedProfitDelta: Option<real>,
    fmt: (real, NumberFormat) -> string)
    returns (report: Report, insights: seq<Insight>)
    ensures var k := Kpis(revenueTrend, churnRate, anomalyCount, riskScore, forecastMape, projectedProfitDelta);
      && |insights| == |ExpectedSections(k)|
      && (forall i :: 0 <= i < |insights| ==> insights[i].Section() == ExpectedSections(k)[i])
      && (forall i :: 0 <= i < |insights| ==> Fits(insights[i], k))
      && (forall a: ActionItem :: a in report.actionItems <==> Triggered(a, k))
    ensures forall i, j :: 0 <= i < j < |report.actionItems| ==>
      report.actionItems[i].Rank() < report.actionItems[j].Rank()
    ensures |report.actionItems| <= 4
    ensures report.actionItems == [] <==>
      revenueTrend == "up" && churnRate < 0.05 && anomalyCount <= 3 && riskScore < 40.0
    ensures RiskCommittee in report.actionItems <==> report.riskLevel in {"High", "Critical"}
    ensures report.riskLevel == ClassifyRisk(riskScore)
    ensures report.churnLevel == ClassifyChurn(churnRate)
    ensures report.executiveSummary == JoinWithSpaces(Texts(insights, fmt))
    ensures |report.executiveSummary| == TotalLength(Texts(insights, fmt)) + |insights| - 1
    ensures report.keyMetrics == KeyMetrics(riskScore, churnRate * 100.0, anomalyCount, revenueTrend)
  {
    var k := Kpis(revenueTrend, churnRate, anomalyCount, riskScore, forecastMape, projectedProfitDelta);
    var riskLevel := ClassifyRisk(riskScore);
    var churnLevel := ClassifyChurn(churnRate);

    var revenue, revenueItems := RevenueCommentary(k);
    var churn, churnItems := ChurnCommentary(k, churnLevel);
    var anomaly, anomalyItems := AnomalyCommentary(k);
    var risk, riskItems := RiskCommentarySection(k, riskLevel);
    var forecast := ForecastCommentary(k);
    var profit := ProfitCommentary(k);

    insights := [revenue, churn, anomaly, risk] + forecast + profit;
    InsightsFromSections(k, revenue, churn, anomaly, risk, forecast, profit);
    var actionItems := revenueItems + churnItems + anomalyItems + riskItems;
    ActionsFromSections(k, revenueItems, churnItems, anomalyItems, riskItems);

    var executiveSummary := Summary(insights, fmt);
    report := Report(
      executiveSummary,
      actionItems,
      riskLevel,
      churnLevel,
      KeyMetrics(riskScore, churnRate * 100.0, anomalyCount, revenueTrend));
  }
}
