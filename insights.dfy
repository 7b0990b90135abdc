/**
  The deterministic layer of the insights service: the sufficiency gate, the
  context gathered from the other analyses, the prompt handed to the text
  generator, and the rule-based insights written when the generator fails.
  The generator itself is a parameter: it maps a prompt to its reply, or to
  None when the call raises.
 */
module Insights {
  import opened Numeric
  import opened Texts
  import opened Options
  import opened Ledger
  import opened Config
  import opened DataFetcher
  import Forecast
  import Anomaly
  import Budget
  import Goal

  /** What calling another service produced: the dictionary it returned, or the exception it raised. */
  datatype Outcome<T> = Returned(value: T) | Raised

  // ---------------------------------------------------------------- the context

  /**
    The `context` dictionary. Every reader looks the flags and counts up with
    `context.get(key, False)` or `context.get(key, 0)`, so a key the code
    never set and one set to False or 0 are one value here.
   */
  datatype Context = Context(
    hasData: bool,
    financialSummary: Option<Summary>,
    forecast: Option<Forecast.Statistics>,
    forecastAvailable: bool,
    anomalies: Option<Anomaly.AnomalyStatistics>,
    anomaliesCount: nat,
    budgetRecommendations: Option<Budget.BudgetReport>,
    budgetAvailable: bool,
    goalsAnalysis: Option<Goal.GoalsReport>,
    goalsCount: nat)
  {
    /** Every flag or positive count comes with the payload the prompt and the fallback read. */
    predicate Valid()
    {
      && (hasData <==> financialSummary.Some?)
      && (forecastAvailable <==> forecast.Some?)
      && (anomalies.Some? ==> anomaliesCount == anomalies.value.anomaliesDetected)
      && (anomaliesCount > 0 ==> anomalies.Some?)
      && (budgetAvailable <==> budgetRecommendations.Some?)
      && (budgetRecommendations.Some? ==> budgetRecommendations.value.Recommended?)
      && (goalsAnalysis.Some? ==> (goalsAnalysis.value.GoalsAnalyzed? || goalsAnalysis.value.NoActiveGoals?))
      && (goalsAnalysis.Some? ==> goalsCount == TotalGoals(goalsAnalysis.value))
      && (goalsCount > 0 ==> goalsAnalysis.Some? && goalsAnalysis.value.GoalsAnalyzed?)
    }
  }

  /** `{"has_data": False}`. */
  const EmptyContext: Context := Context(false, None, None, false, None, 0, None, false, None, 0)

  /** `total_goals` of a successful goals analysis; the no-goals answer reports 0. */
  function TotalGoals(g: Goal.GoalsReport): nat
  {
    if g.NoActiveGoals? then 0 else g.totalGoals
  }

  /** The summary dictionary, present whenever the fetch returned: even the empty-sample summary has five keys and is truthy. */
  function SummaryPart(recent: Outcome<Rows>): (r: Option<Summary>)
    ensures r.Some? <==> recent.Returned?
  {
    if recent.Returned? then Some(FinancialSummary(recent.value, 30)) else None
  }

  function ForecastPart(o: Outcome<Forecast.ForecastResult>): (r: Option<Forecast.Statistics>)
    ensures r.Some? <==> o.Returned? && o.value.Forecasted?
  {
    if o.Returned? && o.value.Forecasted? then Some(o.value.statistics) else None
  }

  function AnomaliesPart(o: Outcome<Anomaly.AnomalyResult>): (r: Option<Anomaly.AnomalyStatistics>)
    ensures r.Some? <==> o.Returned? && o.value.Detected?
  {
    if o.Returned? && o.value.Detected? then Some(o.value.statistics) else None
  }

  function BudgetPart(o: Outcome<Budget.BudgetReport>): (r: Option<Budget.BudgetReport>)
    ensures r.Some? <==> o.Returned? && o.value.Success()
  {
    if o.Returned? && o.value.Success() then Some(o.value) else None
  }

  /** The goals analysis succeeds unless its own gate failed. */
  function GoalsPart(o: Outcome<Goal.GoalsReport>): (r: Option<Goal.GoalsReport>)
    ensures r.Some? <==> o.Returned? && !o.value.GoalsGateFailed?
  {
    if o.Returned? && !o.value.GoalsGateFailed? then Some(o.value) else None
  }

  /**
    `_gather_financial_context` over the outcomes of its five calls: the
    30-day summary fetch, the 30-day forecast, the 90-day anomaly detection,
    the balanced budget recommendation and the goals analysis.
   */
  function ContextOf(recent: Outcome<Rows>, forecast: Outcome<Forecast.ForecastResult>,
                     anomalies: Outcome<Anomaly.AnomalyResult>, budgets: Outcome<Budget.BudgetReport>,
                     goals: Outcome<Goal.GoalsReport>): (r: Context)
    ensures r.Valid()
  {
    var s, f, a, b, g := SummaryPart(recent), ForecastPart(forecast), AnomaliesPart(anomalies),
                         BudgetPart(budgets), GoalsPart(goals);
    Context(s.Some?, s, f, f.Some?, a, if a.Some? then a.value.anomaliesDetected else 0,
            b, b.Some?, g, if g.Some? then TotalGoals(g.value) else 0)
  }

  /** The context dictionary, filled one analysis at a time. */
  method GatherFinancialContext(recent: Outcome<Rows>, forecast: Outcome<Forecast.ForecastResult>,
                                anomalies: Outcome<Anomaly.AnomalyResult>, budgets: Outcome<Budget.BudgetReport>,
                                goals: Outcome<Goal.GoalsReport>) returns (ctx: Context)
    ensures ctx == ContextOf(recent, forecast, anomalies, budgets, goals)
    ensures ctx.Valid()
    ensures ctx.hasData <==> recent.Returned?
    ensures ctx.forecastAvailable <==> forecast.Returned? && forecast.value.Forecasted?
    ensures ctx.anomaliesCount == if anomalies.Returned? && anomalies.value.Detected?
                                  then anomalies.value.statistics.anomaliesDetected else 0
    ensures ctx.budgetAvailable <==> budgets.Returned? && budgets.value.Recommended?
    ensures ctx.goalsCount == if goals.Returned? && goals.value.GoalsAnalyzed? then goals.value.totalGoals else 0
  {
    ctx := EmptyContext;
    if recent.Returned? {
      var summary := FinancialSummary(recent.value, 30);
      ctx := ctx.(financialSummary := Some(summary), hasData := true);
    }
    match forecast {
      case Returned(f) =>
        if f.Forecasted? {
          ctx := ctx.(forecast := Some(f.statistics), forecastAvailable := true);
        }
      case Raised =>
        ctx := ctx.(forecastAvailable := false);
    }
    match anomalies {
      case Returned(a) =>
        if a.Detected? {
          ctx := ctx.(anomalies := Some(a.statistics), anomaliesCount := a.statistics.anomaliesDetected);
        }
      case Raised =>
        ctx := ctx.(anomaliesCount := 0);
    }
    match budgets {
      case Returned(b) =>
        if b.Success() {
          ctx := ctx.(budgetRecommendations := Some(b), budgetAvailable := true);
        }
      case Raised =>
        ctx := ctx.(budgetAvailable := false);
    }
    match goals {
      case Returned(g) =>
        if !g.GoalsGateFailed? {
          ctx := ctx.(goalsAnalysis := Some(g), goalsCount := TotalGoals(g));
        }
      case Raised =>
        ctx := ctx.(goalsCount := 0);
    }
  }

  // ---------------------------------------------------------------- the prompt

  /** `overall_assessment` as the goals analysis writes it. */
  function AssessmentLabel(a: Goal.Assessment): string
  {
    match a
    case Overcommitted => "overcommitted"
    case OnTrack => "on_track"
    case NeedsAdjustment => "needs_adjustment"
    case TooAmbitious => "challenging"
  }

  function Money(x: real): Piece { Fixed(Real(x), 2) }

  /**
    A group of parts `_build_insights_prompt` appends together: the opening,
    one data section, or the closing requests. `BlockParts` gives the exact
    strings.
   */
  datatype Block =
    | Opening
    | SummaryBlock(income: real, expenses: real, net: real, avgDaily: real)
    | ForecastBlock(predictedDaily: real, trend: Float)
    | AnomaliesBlock(count: nat, total: real)
    | BudgetBlock(total: real, categories: nat)
    | GoalsBlock(goals: nat, monthly: real, assessment: string)
    | Requests

  function BlockParts(b: Block): seq<Text>
  {
    match b
    case Opening =>
      [Say("You are a professional financial advisor analyzing a user's financial data. "),
       Say("Provide personalized, actionable insights based on the following information:\n\n")]
    case SummaryBlock(income, expenses, net, avgDaily) =>
      [Say("**Last 30 Days Summary:**\n"),
       [Lit("- Total Income: $"), Money(income), Lit("\n")],
       [Lit("- Total Expenses: $"), Money(expenses), Lit("\n")],
       [Lit("- Net Balance: $"), Money(net), Lit("\n")],
       [Lit("- Average Daily Spending: $"), Money(avgDaily), Lit("\n\n")]]
    case ForecastBlock(predictedDaily, trend) =>
      [Say("**Spending Forecast (Next 30 Days):**\n"),
       [Lit("- Predicted Average Daily: $"), Money(predictedDaily), Lit("\n")],
       [Lit("- Trend: "), Signed(trend, 1), Lit("%\n\n")]]
    case AnomaliesBlock(count, total) =>
      [Say("**Anomalies Detected:**\n"),
       [Lit("- Unusual transactions: "), Int(count), Lit("\n")],
       [Lit("- Total anomalous spending: $"), Money(total), Lit("\n\n")]]
    case BudgetBlock(total, categories) =>
      [Say("**Budget Analysis:**\n"),
       [Lit("- Recommended Total Budget: $"), Money(total), Lit("\n")],
       [Lit("- Number of categories: "), Int(categories), Lit("\n\n")]]
    case GoalsBlock(goals, monthly, assessment) =>
      [Say("**Financial Goals:**\n"),
       [Lit("- Active goals: "), Int(goals), Lit("\n")],
       [Lit("- Total monthly commitment: $"), Money(monthly), Lit("\n")],
       [Lit("- Assessment: "), Lit(assessment), Lit("\n\n")]]
    case Requests =>
      [Say("\n**Please provide:**\n"),
       Say("1. Overall Financial Health Assessment (1-2 sentences)\n"),
       Say("2. Top 3 Insights (key observations about their finances)\n"),
       Say("3. Top 3 Recommendations (specific, actionable advice)\n"),
       Say("4. One Caution (potential risk or area to watch)\n\n"),
       Say("Keep the tone professional yet friendly, and be specific with numbers where relevant.")]
  }

  /** Every part of the blocks, in order. */
  function AllParts(blocks: seq<Block>): seq<Text>
  {
    if |blocks| == 0 then [] else AllParts(blocks[..|blocks| - 1]) + BlockParts(blocks[|blocks| - 1])
  }

  /** `"".join(prompt_parts)`. */
  function PromptText(blocks: seq<Block>): Text
  {
    Concat(AllParts(blocks))
  }

  function SummaryBlocks(ctx: Context): seq<Block>
  {
    if ctx.financialSummary.Some? then
      var s := ctx.financialSummary.value;
      [SummaryBlock(s.totalIncome, s.totalExpenses, s.netBalance, s.avgDailySpending)]
    else []
  }

  function ForecastBlocks(ctx: Context): seq<Block>
    requires ctx.Valid()
  {
    if ctx.forecastAvailable then
      [ForecastBlock(ctx.forecast.value.forecastAvgDaily, ctx.forecast.value.trendPercentage)]
    else []
  }

  function AnomaliesBlocks(ctx: Context): seq<Block>
    requires ctx.Valid()
  {
    if ctx.anomaliesCount > 0 then
      [AnomaliesBlock(ctx.anomalies.value.anomaliesDetected, ctx.anomalies.value.totalAnomalousSpending)]
    else []
  }

  function BudgetBlocks(ctx: Context): seq<Block>
    requires ctx.Valid()
  {
    if ctx.budgetAvailable then
      var b := ctx.budgetRecommendations.value;
      [BudgetBlock(b.totalRecommendedBudget, |b.recommendations|)]
    else []
  }

  function GoalsBlocks(ctx: Context): seq<Block>
    requires ctx.Valid()
  {
    if ctx.goalsCount > 0 then
      var g := ctx.goalsAnalysis.value;
      [GoalsBlock(g.totalGoals, g.totalMonthlyCommitment, AssessmentLabel(g.overall))]
    else []
  }

  /** The prompt's blocks: the opening, each data section under its own flag, then the requests. */
  function PromptBlocks(ctx: Context): seq<Block>
    requires ctx.Valid()
  {
    [Opening] + SummaryBlocks(ctx) + ForecastBlocks(ctx) + AnomaliesBlocks(ctx) + BudgetBlocks(ctx) + GoalsBlocks(ctx)
    + [Requests]
  }

  /** `_build_insights_prompt`: the sections appended one by one, then joined with "". */
  method BuildInsightsPrompt(ctx: Context) returns (blocks: seq<Block>, prompt: Text)
    requires ctx.Valid()
    ensures blocks == PromptBlocks(ctx) && prompt == PromptText(blocks)
  {
    blocks := [Opening];
    if ctx.financialSummary.Some? {
      var s := ctx.financialSummary.value;
      blocks := blocks + [SummaryBlock(s.totalIncome, s.totalExpenses, s.netBalance, s.avgDailySpending)];
    }
    if ctx.forecastAvailable {
      var f := ctx.forecast.value;
      blocks := blocks + [ForecastBlock(f.forecastAvgDaily, f.trendPercentage)];
    }
    assert blocks == [Opening] + SummaryBlocks(ctx) + ForecastBlocks(ctx);
    if ctx.anomaliesCount > 0 {
      var a := ctx.anomalies.value;
      blocks := blocks + [AnomaliesBlock(a.anomaliesDetected, a.totalAnomalousSpending)];
    }
    if ctx.budgetAvailable {
      var b := ctx.budgetRecommendations.value;
      blocks := blocks + [BudgetBlock(b.totalRecommendedBudget, |b.recommendations|)];
    }
    assert blocks == [Opening] + SummaryBlocks(ctx) + ForecastBlocks(ctx) + AnomaliesBlocks(ctx) + BudgetBlocks(ctx);
    if ctx.goalsCount > 0 {
      var g := ctx.goalsAnalysis.value;
      blocks := blocks + [GoalsBlock(g.totalGoals, g.totalMonthlyCommitment, AssessmentLabel(g.overall))];
    }
    assert blocks == [Opening] + SummaryBlocks(ctx) + ForecastBlocks(ctx) + AnomaliesBlocks(ctx) + BudgetBlocks(ctx)
                     + GoalsBlocks(ctx);
    blocks := blocks + [Requests];
    prompt := PromptText(blocks);
  }

  // ---------------------------------------------------------------- the rule-based insights

  datatype Section = Health | TopInsights | TopRecommendations | OneCaution

  /**
    One line of the rule-based insights, holding the numbers it quotes;
    `Render` gives its exact wording.
   */
  datatype Line =
    | Header(section: Section)
    | PositiveBalance(net: real, rate: real)
    | Shortfall(amount: real)
    | TrendUp(trend: real, historical: real, predicted: real)
    | TrendDown(drop: real, historical: real, predicted: real)
    | TrendStable(change: Float)
    | AnomaliesFound(count: nat, total: real)
    | NoAnomalies
    | GoalsOnTrack(goals: nat, monthly: real)
    | GoalsOverCapacity(goals: nat, monthly: real)
    | GoalsNeedAdjustment(goals: nat)
    | NoGoals
    | BudgetAdvice(total: real)
    | NoBudget
    | ReduceSpending(perDay: real, perMonth: real)
    | KeepTracking
    | StartTracking
    | EmergencyFund
    | Automate
    | OvercommittedCaution
    | DeficitCaution(deficit: real)
    | GenericCaution

  function HeaderText(s: Section): Text
  {
    match s
    case Health => Say("**Overall Financial Health Assessment:**")
    case TopInsights => Say("\n**Top 3 Insights:**")
    case TopRecommendations => Say("\n**Top 3 Recommendations:**")
    case OneCaution => Say("\n**One Caution:**")
  }

  function Render(line: Line): Text
  {
    match line
    case Header(s) => HeaderText(s)
    case PositiveBalance(net, rate) =>
      [Lit("You have a positive net balance of $"), Money(net),
       Lit(" over the last 30 days, with a savings rate of "), Fixed(Real(rate), 1), Lit("%.")]
    case Shortfall(amount) =>
      [Lit("Your expenses exceeded income by $"), Money(amount),
       Lit(" in the last 30 days. Consider reviewing your spending patterns.")]
    case TrendUp(trend, historical, predicted) =>
      [Lit("1. Your spending is trending upward by "), Fixed(Real(trend), 1),
       Lit("%. Daily spending is projected to increase from $"), Money(historical),
       Lit(" to $"), Money(predicted), Lit(".")]
    case TrendDown(drop, historical, predicted) =>
      [Lit("1. Great news! Your spending is trending downward by "), Fixed(Real(drop), 1),
       Lit("%. You're reducing daily spending from $"), Money(historical),
       Lit(" to $"), Money(predicted), Lit(".")]
    case TrendStable(change) =>
      [Lit("1. Your spending patterns are stable with minimal change ("), Signed(change, 1), Lit("%).")]
    case AnomaliesFound(count, total) =>
      [Lit("2. Detected "), Int(count), Lit(" unusual transactions totaling $"), Money(total),
       Lit(". Review these for unexpected charges or one-time expenses.")]
    case NoAnomalies =>
      Say("2. No unusual spending patterns detected. Your transactions appear consistent with your typical behavior.")
    case GoalsOnTrack(goals, monthly) =>
      [Lit("3. Your "), Int(goals), Lit(" financial goal(s) are on track with $"), Money(monthly),
       Lit("/month in commitments.")]
    case GoalsOverCapacity(goals, monthly) =>
      [Lit("3. Your "), Int(goals), Lit(" goals require $"), Money(monthly),
       Lit("/month, which may exceed your savings capacity. Consider adjusting timelines or contributions.")]
    case GoalsNeedAdjustment(goals) =>
      [Lit("3. You have "), Int(goals),
       Lit(" active financial goal(s) that may need adjustment to improve achievability.")]
    case NoGoals =>
      Say("3. Consider setting financial goals to track progress toward savings targets, vacations, or major purchases.")
    case BudgetAdvice(total) =>
      [Lit("1. Based on your spending patterns, a monthly budget of $"), Money(total),
       Lit(" is recommended. Review category-specific budgets to optimize spending.")]
    case NoBudget =>
      Say("1. Start tracking expenses by category to receive personalized budget recommendations.")
    case ReduceSpending(perDay, perMonth) =>
      [Lit("2. Reducing daily spending by 15% ($"), Money(perDay), Lit("/day) could save $"),
       Money(perMonth), Lit("/month.")]
    case KeepTracking =>
      Say("2. Continue tracking transactions to identify spending reduction opportunities.")
    case StartTracking =>
      Say("2. Track your daily expenses consistently to identify areas where you can reduce spending.")
    case EmergencyFund =>
      Say("3. Set up an emergency fund goal of 3-6 months of expenses as a financial safety net.")
    case Automate =>
      Say("3. Automate your savings by setting up automatic transfers on payday to stay consistent with your goals.")
    case OvercommittedCaution =>
      Say("You're committed to more in monthly savings than your typical capacity. This may lead to missed goals or financial stress. Consider prioritizing your most important goals.")
    case DeficitCaution(deficit) =>
      [Lit("Your spending exceeded income by $"), Money(deficit),
       Lit(" last month. If this continues, it could impact your financial stability. Focus on reducing discretionary expenses.")]
    case GenericCaution =>
      Say("Continue monitoring your spending patterns to catch any emerging issues early. Consistency is key to financial health.")
  }

  function Rendered(lines: seq<Line>): (r: seq<Text>)
    ensures |r| == |lines| && forall i :: 0 <= i < |lines| ==> r[i] == Render(lines[i])
  {
    seq(|lines|, i requires 0 <= i < |lines| => Render(lines[i]))
  }

  /** `"\n".join(insights)`. */
  function InsightsText(lines: seq<Line>): Text
  {
    Join(Rendered(lines), "\n")
  }

  /** `net / income * 100` when income is positive, else 0. */
  function SavingsRate(net: real, income: real): real
  {
    if income > 0.0 then net / income * 100.0 else 0.0
  }

  function Abs(x: real): real { if x < 0.0 then -x else x }

  /** Nothing without a summary; a positive net reports the savings rate, any other net the shortfall. */
  function HealthLines(ctx: Context): seq<Line>
  {
    if ctx.financialSummary.None? then []
    else
      var s := ctx.financialSummary.value;
      if s.netBalance > 0.0 then [PositiveBalance(s.netBalance, SavingsRate(s.netBalance, s.totalIncome))]
      else [Shortfall(Abs(s.netBalance))]
  }

  /** `x > k` and `x < k` on a float that may be NaN. */
  predicate Above(x: Float, k: real) { x.Real? && x.value > k }
  predicate Below(x: Float, k: real) { x.Real? && x.value < k }

  /** Above 10 percent is upward, below -10 percent downward, anything else (NaN included) stable. */
  function TrendLine(f: Forecast.Statistics): Line
  {
    if Above(f.trendPercentage, 10.0) then TrendUp(f.trendPercentage.value, f.historicalAvgDaily, f.forecastAvgDaily)
    else if Below(f.trendPercentage, -10.0) then TrendDown(Abs(f.trendPercentage.value), f.historicalAvgDaily, f.forecastAvgDaily)
    else TrendStable(f.trendPercentage)
  }

  /** The first insight, only with a forecast. */
  function TrendLines(ctx: Context): seq<Line>
    requires ctx.Valid()
  {
    if ctx.forecastAvailable then [TrendLine(ctx.forecast.value)] else []
  }

  function AnomalyInsight(ctx: Context): Line
    requires ctx.Valid()
  {
    if ctx.anomaliesCount > 0 then
      AnomaliesFound(ctx.anomalies.value.anomaliesDetected, ctx.anomalies.value.totalAnomalousSpending)
    else NoAnomalies
  }

  function GoalsLine(g: Goal.GoalsReport): Line
    requires g.GoalsAnalyzed?
  {
    match g.overall
    case OnTrack => GoalsOnTrack(g.totalGoals, g.totalMonthlyCommitment)
    case Overcommitted => GoalsOverCapacity(g.totalGoals, g.totalMonthlyCommitment)
    case _ => GoalsNeedAdjustment(g.totalGoals)
  }

  function GoalInsight(ctx: Context): Line
    requires ctx.Valid()
  {
    if ctx.goalsCount > 0 then GoalsLine(ctx.goalsAnalysis.value) else NoGoals
  }

  function BudgetLine(ctx: Context): Line
    requires ctx.Valid()
  {
    if ctx.budgetAvailable then BudgetAdvice(ctx.budgetRecommendations.value.totalRecommendedBudget) else NoBudget
  }

  /** A 15% cut of the average daily spending, quoted per day and over 30 days. */
  function ReductionLine(ctx: Context): Line
  {
    if ctx.financialSummary.None? then StartTracking
    else
      var avgDaily := ctx.financialSummary.value.avgDailySpending;
      if avgDaily > 0.0 then ReduceSpending(avgDaily * 0.15, avgDaily * 0.15 * 30.0) else KeepTracking
  }

  function SavingsLine(ctx: Context): Line
  {
    if ctx.goalsCount == 0 then EmergencyFund else Automate
  }

  /** With goals, a line only when overcommitted; without, the deficit caution on a negative net, else the generic one. */
  function CautionLines(ctx: Context): seq<Line>
    requires ctx.Valid()
  {
    if ctx.goalsCount > 0 then
      (if ctx.goalsAnalysis.value.overall == Goal.Overcommitted then [OvercommittedCaution] else [])
    else if ctx.financialSummary.Some? && ctx.financialSummary.value.netBalance < 0.0 then
      [DeficitCaution(Abs(ctx.financialSummary.value.netBalance))]
    else [GenericCaution]
  }

  /** The lines of `_generate_basic_insights`: four headers, each followed by its section. */
  function BasicLines(ctx: Context): seq<Line>
    requires ctx.Valid()
  {
    [Header(Health)] + HealthLines(ctx)
    + [Header(TopInsights)] + TrendLines(ctx) + [AnomalyInsight(ctx)] + [GoalInsight(ctx)]
    + [Header(TopRecommendations)] + [BudgetLine(ctx)] + [ReductionLine(ctx)] + [SavingsLine(ctx)]
    + [Header(OneCaution)] + CautionLines(ctx)
  }

  /** The summary rule of `_generate_basic_insights`. */
  method AppendHealth(ctx: Context, lines: seq<Line>) returns (out: seq<Line>)
    ensures out == lines + HealthLines(ctx)
  {
    out := lines;
    if ctx.financialSummary.Some? {
      var summary := ctx.financialSummary.value;
      var net, income := summary.netBalance, summary.totalIncome;
      if net > 0.0 {
        var rate := if income > 0.0 then net / income * 100.0 else 0.0;
        out := out + [PositiveBalance(net, rate)];
      } else {
        out := out + [Shortfall(Abs(net))];
      }
    }
  }

  /** The trend, anomaly and goal rules. */
  method AppendInsights(ctx: Context, lines: seq<Line>) returns (out: seq<Line>)
    requires ctx.Valid()
    ensures out == lines + TrendLines(ctx) + [AnomalyInsight(ctx)] + [GoalInsight(ctx)]
  {
    out := lines;
    if ctx.forecastAvailable {
      var f := ctx.forecast.value;
      var trend := f.trendPercentage;
      if Above(trend, 10.0) {
        out := out + [TrendUp(trend.value, f.historicalAvgDaily, f.forecastAvgDaily)];
      } else if Below(trend, -10.0) {
        out := out + [TrendDown(Abs(trend.value), f.historicalAvgDaily, f.forecastAvgDaily)];
      } else {
        out := out + [TrendStable(trend)];
      }
    }
    assert out == lines + TrendLines(ctx);
    if ctx.anomaliesCount > 0 {
      var a := ctx.anomalies.value;
      out := out + [AnomaliesFound(a.anomaliesDetected, a.totalAnomalousSpending)];
    } else {
      out := out + [NoAnomalies];
    }
    if ctx.goalsCount > 0 {
      var g := ctx.goalsAnalysis.value;
      if g.overall == Goal.OnTrack {
        out := out + [GoalsOnTrack(g.totalGoals, g.totalMonthlyCommitment)];
      } else if g.overall == Goal.Overcommitted {
        out := out + [GoalsOverCapacity(g.totalGoals, g.totalMonthlyCommitment)];
      } else {
        out := out + [GoalsNeedAdjustment(g.totalGoals)];
      }
    } else {
      out := out + [NoGoals];
    }
  }

  /** The budget, spending-reduction and savings rules. */
  method AppendRecommendations(ctx: Context, lines: seq<Line>) returns (out: seq<Line>)
    requires ctx.Valid()
    ensures out == lines + [BudgetLine(ctx)] + [ReductionLine(ctx)] + [SavingsLine(ctx)]
  {
    out := lines;
    if ctx.budgetAvailable {
      out := out + [BudgetAdvice(ctx.budgetRecommendations.value.totalRecommendedBudget)];
    } else {
      out := out + [NoBudget];
    }
    if ctx.financialSummary.Some? {
      var avgDaily := ctx.financialSummary.value.avgDailySpending;
      if avgDaily > 0.0 {
        var potential := avgDaily * 0.15 * 30.0;
        out := out + [ReduceSpending(avgDaily * 0.15, potential)];
      } else {
        out := out + [KeepTracking];
      }
    } else {
      out := out + [StartTracking];
    }
    if ctx.goalsCount == 0 {
      out := out + [EmergencyFund];
    } else {
      out := out + [Automate];
    }
  }

  /** The caution rule. */
  method AppendCaution(ctx: Context, lines: seq<Line>) returns (out: seq<Line>)
    requires ctx.Valid()
    ensures out == lines + CautionLines(ctx)
  {
    out := lines;
    if ctx.goalsCount > 0 {
      if ctx.goalsAnalysis.value.overall == Goal.Overcommitted {
        out := out + [OvercommittedCaution];
      }
    } else if ctx.financialSummary.Some? && ctx.financialSummary.value.netBalance < 0.0 {
      out := out + [DeficitCaution(Abs(ctx.financialSummary.value.netBalance))];
    } else {
      out := out + [GenericCaution];
    }
  }

  /** `_generate_basic_insights`: each header followed by its section's lines, joined with newlines. */
  method GenerateBasicInsights(ctx: Context) returns (lines: seq<Line>, insights: Text)
    requires ctx.Valid()
    ensures lines == BasicLines(ctx) && insights == InsightsText(lines)
  {
    lines := AppendHealth(ctx, [Header(Health)]);
    lines := AppendInsights(ctx, lines + [Header(TopInsights)]);
    lines := AppendRecommendations(ctx, lines + [Header(TopRecommendations)]);
    lines := AppendCaution(ctx, lines + [Header(OneCaution)]);
    insights := InsightsText(lines);
  }

  // ---------------------------------------------------------------- generate_comprehensive_insights

  /** The `context_used` dictionary, the same on the generated and the fallback path. */
  datatype ContextUsed = ContextUsed(spendingForecast: bool, anomaliesDetected: nat, budgetsAnalyzed: bool, goalsAnalyzed: nat)

  function UsedOf(ctx: Context): ContextUsed
  {
    ContextUsed(ctx.forecastAvailable, ctx.anomaliesCount, ctx.budgetAvailable, ctx.goalsCount)
  }

  /** The dictionary `generate_comprehensive_insights` returns; only `Generated` has success true. */
  datatype InsightsResult =
    | InsightsGateFailed(error: Text, dataInfo: Verdict)
    | NoFinancialData
    | Generated(insights: Text, aiUnavailable: bool, contextUsed: ContextUsed)

  const NoFinancialDataError: Text := Say("Insufficient financial data for insights")

  function InsightsGate(l: Rows): Verdict
  {
    CheckDataSufficiency(l, InsightsMinDays, MinTransactions, 10)
  }

  /**
    `generate_comprehensive_insights`: the gate over the whole history, the
    context, then the generator's reply to the prompt, or the rule-based
    insights when the generator raises.
   */
  method GenerateComprehensiveInsights(l: Rows, recent: Outcome<Rows>, forecast: Outcome<Forecast.ForecastResult>,
                                       anomalies: Outcome<Anomaly.AnomalyResult>, budgets: Outcome<Budget.BudgetReport>,
                                       goals: Outcome<Goal.GoalsReport>, generator: Text -> Option<string>)
    returns (r: InsightsResult)
    ensures var v := InsightsGate(l);
      && (r.InsightsGateFailed? <==> !v.sufficient)
      && (r.InsightsGateFailed? ==> r.error == Say("Insufficient data for insights: ") + v.reason && r.dataInfo == v)
      && (r.NoFinancialData? <==> v.sufficient && recent.Raised?)
    ensures r.Generated? ==>
      var ctx := ContextOf(recent, forecast, anomalies, budgets, goals);
      var reply := generator(PromptText(PromptBlocks(ctx)));
      && r.contextUsed == UsedOf(ctx)
      && (r.aiUnavailable <==> reply.None?)
      && r.insights == (if reply.Some? then Say(reply.value) else InsightsText(BasicLines(ctx)))
  {
    var v := InsightsGate(l);
    if !v.sufficient {
      return InsightsGateFailed(Say("Insufficient data for insights: ") + v.reason, v);
    }
    var ctx := GatherFinancialContext(recent, forecast, anomalies, budgets, goals);
    if !ctx.hasData {
      return NoFinancialData;
    }
    var blocks, prompt := BuildInsightsPrompt(ctx);
    var reply := generator(prompt);
    if reply.Some? {
      r := Generated(Say(reply.value), false, UsedOf(ctx));
    } else {
      var lines, text := GenerateBasicInsights(ctx);
      r := Generated(text, true, UsedOf(ctx));
    }
  }

  // ---------------------------------------------------------------- lemmas

  /** Each field of the context depends on its own call's outcome only: a failing analysis disturbs no other. */
  lemma OutcomesIndependent(recent: Outcome<Rows>, forecast: Outcome<Forecast.ForecastResult>,
                            anomalies: Outcome<Anomaly.AnomalyResult>, budgets: Outcome<Budget.BudgetReport>,
                            goals: Outcome<Goal.GoalsReport>,
                            recent': Outcome<Rows>, forecast': Outcome<Forecast.ForecastResult>,
                            anomalies': Outcome<Anomaly.AnomalyResult>, budgets': Outcome<Budget.BudgetReport>,
                            goals': Outcome<Goal.GoalsReport>)
    ensures var c, c' := ContextOf(recent, forecast, anomalies, budgets, goals),
                         ContextOf(recent', forecast', anomalies', budgets', goals');
      && (recent == recent' ==> c.hasData == c'.hasData && c.financialSummary == c'.financialSummary)
      && (forecast == forecast' ==> c.forecast == c'.forecast && c.forecastAvailable == c'.forecastAvailable)
      && (anomalies == anomalies' ==> c.anomalies == c'.anomalies && c.anomaliesCount == c'.anomaliesCount)
      && (budgets == budgets' ==> c.budgetRecommendations == c'.budgetRecommendations && c.budgetAvailable == c'.budgetAvailable)
      && (goals == goals' ==> c.goalsAnalysis == c'.goalsAnalysis && c.goalsCount == c'.goalsCount)
  {
    var c, c' := ContextOf(recent, forecast, anomalies, budgets, goals),
                 ContextOf(recent', forecast', anomalies', budgets', goals');
    assert c.financialSummary == SummaryPart(recent) && c'.financialSummary == SummaryPart(recent');
    assert c.forecast == ForecastPart(forecast) && c'.forecast == ForecastPart(forecast');
    assert c.anomalies == AnomaliesPart(anomalies) && c'.anomalies == AnomaliesPart(anomalies');
    assert c.budgetRecommendations == BudgetPart(budgets) && c'.budgetRecommendations == BudgetPart(budgets');
    assert c.goalsAnalysis == GoalsPart(goals) && c'.goalsAnalysis == GoalsPart(goals');
  }

  /**
    An empty 30-day window still yields a summary, so the context has data,
    and the fallback then reports a shortfall of 0 and no spending to cut.
   */
  lemma EmptyWindowHasData(forecast: Outcome<Forecast.ForecastResult>, anomalies: Outcome<Anomaly.AnomalyResult>,
                           budgets: Outcome<Budget.BudgetReport>, goals: Outcome<Goal.GoalsReport>)
    ensures var ctx := ContextOf(Returned([]), forecast, anomalies, budgets, goals);
      && ctx.hasData
      && HealthLines(ctx) == [Shortfall(0.0)]
      && ReductionLine(ctx) == KeepTracking
      && (ctx.goalsCount == 0 ==> CautionLines(ctx) == [GenericCaution])
  {
  }

  /**
    When the summary's fetch returns the history the gate has just passed, as
    it does with the fetcher's default of reading every transaction, the
    summary counts at least the gate's transactions, carries the spending by
    category, and the health line is present.
   */
  lemma GatedHistorySummary(l: Rows, forecast: Outcome<Forecast.ForecastResult>, anomalies: Outcome<Anomaly.AnomalyResult>,
                            budgets: Outcome<Budget.BudgetReport>, goals: Outcome<Goal.GoalsReport>)
    requires InsightsGate(l).sufficient
    ensures var ctx := ContextOf(Returned(l), forecast, anomalies, budgets, goals);
      && ctx.hasData
      && ctx.financialSummary.value.transactionCount >= MinTransactions
      && ctx.financialSummary.value.spendingByCategory.Some?
      && |HealthLines(ctx)| == 1
  {
  }

  lemma RowsTotalNonNegative(rows: Rows, k: Kind)
    requires forall i :: 0 <= i < |rows| ==> rows[i].amount >= 0.0
    ensures Total(OfKind(rows, k)) >= 0.0
  {
    var e := OfKind(rows, k);
    OfKindMembers(rows, k);
    forall i | 0 <= i < |e| ensures Amounts(e)[i] >= 0.0 {
      assert e[i] in e;
    }
    SumNonNegative(Amounts(e));
  }

  /**
    Over rows with non-negative amounts the health line is always present; a
    positive balance quotes a savings rate in (0, 100], any other balance the
    excess of expenses over income.
   */
  lemma HealthLineFromRows(rows: Rows, forecast: Outcome<Forecast.ForecastResult>, anomalies: Outcome<Anomaly.AnomalyResult>,
                           budgets: Outcome<Budget.BudgetReport>, goals: Outcome<Goal.GoalsReport>)
    requires forall i :: 0 <= i < |rows| ==> rows[i].amount >= 0.0
    ensures var h := HealthLines(ContextOf(Returned(rows), forecast, anomalies, budgets, goals));
      && |h| == 1
      && (h[0].PositiveBalance? ==> 0.0 < h[0].rate <= 100.0)
      && (h[0].Shortfall? ==> h[0].amount == Total(Expenses(rows)) - Total(Incomes(rows)))
  {
    var s := FinancialSummary(rows, 30);
    RowsTotalNonNegative(rows, Expense);
    if s.netBalance > 0.0 {
      SavingsRateRange(s.netBalance, s.totalIncome);
    }
  }

  /** A positive balance no larger than the income is a savings rate in (0, 100]. */
  lemma SavingsRateRange(net: real, income: real)
    requires 0.0 < net <= income
    ensures 0.0 < SavingsRate(net, income) <= 100.0
  {
    DivBetween(0.0, net, 1.0, income);
    DivStrict(0.0, net, income);
    MulMono(net / income, 1.0, 100.0);
  }

  /** The quoted saving is 15% of the daily average per day and thirty times that per month. */
  lemma ReductionQuote(ctx: Context)
    ensures ReductionLine(ctx).ReduceSpending? <==>
      ctx.financialSummary.Some? && ctx.financialSummary.value.avgDailySpending > 0.0
    ensures ReductionLine(ctx).ReduceSpending? ==>
      var line, avgDaily := ReductionLine(ctx), ctx.financialSummary.value.avgDailySpending;
      && line.perDay == 0.15 * avgDaily
      && line.perMonth == 30.0 * line.perDay
      && 0.0 < line.perDay < line.perMonth
  {
  }

  /** The trend line is upward exactly above 10%, downward exactly below -10%, stable otherwise, NaN included. */
  lemma TrendRules(f: Forecast.Statistics)
    ensures TrendLine(f).TrendUp? <==> f.trendPercentage.Real? && f.trendPercentage.value > 10.0
    ensures TrendLine(f).TrendDown? <==> f.trendPercentage.Real? && f.trendPercentage.value < -10.0
    ensures TrendLine(f).TrendDown? ==> TrendLine(f).drop > 10.0
    ensures f.trendPercentage.NaN? ==> TrendLine(f) == TrendStable(NaN)
    ensures !TrendLine(f).TrendStable? ==>
      TrendLine(f).historical == f.historicalAvgDaily && TrendLine(f).predicted == f.forecastAvgDaily
  {
  }

  /**
    The caution section: with goals, one line exactly when overcommitted, the
    same condition that makes the third insight the over-capacity one;
    without goals, always one line, the deficit caution exactly on a
    negative balance.
   */
  lemma CautionRules(ctx: Context)
    requires ctx.Valid()
    ensures ctx.goalsCount > 0 ==>
      && (|CautionLines(ctx)| == 1 <==> ctx.goalsAnalysis.value.overall == Goal.Overcommitted)
      && (|CautionLines(ctx)| == 1 <==> GoalInsight(ctx).GoalsOverCapacity?)
      && |CautionLines(ctx)| <= 1
    ensures ctx.goalsCount == 0 ==>
      && |CautionLines(ctx)| == 1
      && (CautionLines(ctx)[0].DeficitCaution? <==>
            ctx.financialSummary.Some? && ctx.financialSummary.value.netBalance < 0.0)
      && (CautionLines(ctx)[0].DeficitCaution? ==> CautionLines(ctx)[0].deficit > 0.0)
  {
  }

  /** The emergency-fund advice and the invitation to set goals appear together. */
  lemma GoalAdviceAgrees(ctx: Context)
    requires ctx.Valid()
    ensures SavingsLine(ctx) == EmergencyFund <==> GoalInsight(ctx) == NoGoals
  {
  }

  /**
    The rule-based insights hold the four headers in the order health,
    insights, recommendations, caution, at these positions and nowhere else.
   */
  lemma {:induction false} HeadersInOrder(ctx: Context)
    requires ctx.Valid()
    ensures var l, i := BasicLines(ctx), 1 + |HealthLines(ctx)|;
      var j := i + |TrendLines(ctx)| + 3;
      var k := j + 4;
      && 9 <= |l| <= 12 && k < |l|
      && l[0] == Header(Health) && l[i] == Header(TopInsights)
      && l[j] == Header(TopRecommendations) && l[k] == Header(OneCaution)
      && forall n :: 0 <= n < |l| && l[n].Header? ==> (n == 0 || n == i || n == j || n == k)
  {
    SectionsHeaderFree(ctx);
    SectionHeaders(HealthLines(ctx), TrendLines(ctx), AnomalyInsight(ctx), GoalInsight(ctx),
                   BudgetLine(ctx), ReductionLine(ctx), SavingsLine(ctx), CautionLines(ctx));
  }

  predicate HeaderFree(s: seq<Line>)
  {
    forall n :: 0 <= n < |s| ==> !s[n].Header?
  }

  /** No section of the rule-based insights holds a header, and the optional ones hold at most one line. */
  lemma SectionsHeaderFree(ctx: Context)
    requires ctx.Valid()
    ensures HeaderFree(HealthLines(ctx)) && HeaderFree(TrendLines(ctx)) && HeaderFree(CautionLines(ctx))
    ensures |HealthLines(ctx)| <= 1 && |TrendLines(ctx)| <= 1 && |CautionLines(ctx)| <= 1
    ensures !AnomalyInsight(ctx).Header? && !GoalInsight(ctx).Header?
    ensures !BudgetLine(ctx).Header? && !ReductionLine(ctx).Header? && !SavingsLine(ctx).Header?
  {
  }

  /** Header-free sections under the four headers: the headers sit exactly at the section boundaries. */
  lemma SectionHeaders(h: seq<Line>, t: seq<Line>, a: Line, g: Line, b: Line, r: Line, s: Line, c: seq<Line>)
    requires HeaderFree(h) && HeaderFree(t) && HeaderFree(c)
    requires !a.Header? && !g.Header? && !b.Header? && !r.Header? && !s.Header?
    ensures var l := [Header(Health)] + h + [Header(TopInsights)] + t + [a] + [g]
                     + [Header(TopRecommendations)] + [b] + [r] + [s] + [Header(OneCaution)] + c;
      var i := 1 + |h|;
      var j := i + |t| + 3;
      var k := j + 4;
      && |l| == k + 1 + |c|
      && l[0] == Header(Health) && l[i] == Header(TopInsights)
      && l[j] == Header(TopRecommendations) && l[k] == Header(OneCaution)
      && forall n :: 0 <= n < |l| && l[n].Header? ==> (n == 0 || n == i || n == j || n == k)
  {
    var l := [Header(Health)] + h + [Header(TopInsights)] + t + [a] + [g]
             + [Header(TopRecommendations)] + [b] + [r] + [s] + [Header(OneCaution)] + c;
    var i := 1 + |h|;
    var j := i + |t| + 3;
    var k := j + 4;
    forall n | 0 <= n < |l| && n != 0 && n != i && n != j && n != k ensures !l[n].Header? {
      if n < i { assert l[n] == h[n - 1]; }
      else if n < i + 1 + |t| { assert l[n] == t[n - i - 1]; }
      else if k < n { assert l[n] == c[n - k - 1]; }
    }
  }

  /** The prompt opens with the greeting, closes with the requests, and holds each data section exactly under its flag. */
  lemma PromptSections(ctx: Context)
    requires ctx.Valid()
    ensures var b := PromptBlocks(ctx);
      && b[0] == Opening && b[|b| - 1] == Requests
      && ((exists x :: x in b && x.SummaryBlock?) <==> ctx.financialSummary.Some?)
      && ((exists x :: x in b && x.ForecastBlock?) <==> ctx.forecastAvailable)
      && ((exists x :: x in b && x.AnomaliesBlock?) <==> ctx.anomaliesCount > 0)
      && ((exists x :: x in b && x.BudgetBlock?) <==> ctx.budgetAvailable)
      && ((exists x :: x in b && x.GoalsBlock?) <==> ctx.goalsCount > 0)
  {
    PromptLayout(SummaryBlocks(ctx), ForecastBlocks(ctx), AnomaliesBlocks(ctx), BudgetBlocks(ctx), GoalsBlocks(ctx));
  }

  /** The prompt layout holds a block of a kind exactly when that kind's section is not empty. */
  lemma PromptLayout(s: seq<Block>, f: seq<Block>, a: seq<Block>, bu: seq<Block>, g: seq<Block>)
    requires forall x :: x in s ==> x.SummaryBlock?
    requires forall x :: x in f ==> x.ForecastBlock?
    requires forall x :: x in a ==> x.AnomaliesBlock?
    requires forall x :: x in bu ==> x.BudgetBlock?
    requires forall x :: x in g ==> x.GoalsBlock?
    ensures var b := [Opening] + s + f + a + bu + g + [Requests];
      && b[0] == Opening && b[|b| - 1] == Requests
      && ((exists x :: x in b && x.SummaryBlock?) <==> s != [])
      && ((exists x :: x in b && x.ForecastBlock?) <==> f != [])
      && ((exists x :: x in b && x.AnomaliesBlock?) <==> a != [])
      && ((exists x :: x in b && x.BudgetBlock?) <==> bu != [])
      && ((exists x :: x in b && x.GoalsBlock?) <==> g != [])
  {
    SummaryPresent(s, f, a, bu, g);
    ForecastPresent(s, f, a, bu, g);
    AnomaliesPresent(s, f, a, bu, g);
    BudgetPresent(s, f, a, bu, g);
    GoalsPresent(s, f, a, bu, g);
  }

  lemma SummaryPresent(s: seq<Block>, f: seq<Block>, a: seq<Block>, bu: seq<Block>, g: seq<Block>)
    requires forall x :: x in s ==> x.SummaryBlock?
    requires forall x :: x in f ==> x.ForecastBlock?
    requires forall x :: x in a ==> x.AnomaliesBlock?
    requires forall x :: x in bu ==> x.BudgetBlock?
    requires forall x :: x in g ==> x.GoalsBlock?
    ensures (exists x :: x in [Opening] + s + f + a + bu + g + [Requests] && x.SummaryBlock?) <==> s != []
  {
    if s != [] { assert s[0] in [Opening] + s + f + a + bu + g + [Requests]; }
  }

  lemma ForecastPresent(s: seq<Block>, f: seq<Block>, a: seq<Block>, bu: seq<Block>, g: seq<Block>)
    requires forall x :: x in s ==> x.SummaryBlock?
    requires forall x :: x in f ==> x.ForecastBlock?
    requires forall x :: x in a ==> x.AnomaliesBlock?
    requires forall x :: x in bu ==> x.BudgetBlock?
    requires forall x :: x in g ==> x.GoalsBlock?
    ensures (exists x :: x in [Opening] + s + f + a + bu + g + [Requests] && x.ForecastBlock?) <==> f != []
  {
    if f != [] { assert f[0] in [Opening] + s + f + a + bu + g + [Requests]; }
  }

  lemma AnomaliesPresent(s: seq<Block>, f: seq<Block>, a: seq<Block>, bu: seq<Block>, g: seq<Block>)
    requires forall x :: x in s ==> x.SummaryBlock?
    requires forall x :: x in f ==> x.ForecastBlock?
    requires forall x :: x in a ==> x.AnomaliesBlock?
    requires forall x :: x in bu ==> x.BudgetBlock?
    requires forall x :: x in g ==> x.GoalsBlock?
    ensures (exists x :: x in [Opening] + s + f + a + bu + g + [Requests] && x.AnomaliesBlock?) <==> a != []
  {
    if a != [] { assert a[0] in [Opening] + s + f + a + bu + g + [Requests]; }
  }

  lemma BudgetPresent(s: seq<Block>, f: seq<Block>, a: seq<Block>, bu: seq<Block>, g: seq<Block>)
    requires forall x :: x in s ==> x.SummaryBlock?
    requires forall x :: x in f ==> x.ForecastBlock?
    requires forall x :: x in a ==> x.AnomaliesBlock?
    requires forall x :: x in bu ==> x.BudgetBlock?
    requires forall x :: x in g ==> x.GoalsBlock?
    ensures (exists x :: x in [Opening] + s + f + a + bu + g + [Requests] && x.BudgetBlock?) <==> bu != []
  {
    if bu != [] { assert bu[0] in [Opening] + s + f + a + bu + g + [Requests]; }
  }

  lemma GoalsPresent(s: seq<Block>, f: seq<Block>, a: seq<Block>, bu: seq<Block>, g: seq<Block>)
    requires forall x :: x in s ==> x.SummaryBlock?
    requires forall x :: x in f ==> x.ForecastBlock?
    requires forall x :: x in a ==> x.AnomaliesBlock?
    requires forall x :: x in bu ==> x.BudgetBlock?
    requires forall x :: x in g ==> x.GoalsBlock?
    ensures (exists x :: x in [Opening] + s + f + a + bu + g + [Requests] && x.GoalsBlock?) <==> g != []
  {
    if g != [] { assert g[0] in [Opening] + s + f + a + bu + g + [Requests]; }
  }

  lemma {:induction false} ConcatAppend(a: seq<Text>, b: seq<Text>)
    ensures Concat(a + b) == Concat(a) + Concat(b)
    decreases |b|
  {
    if |b| == 0 {
      assert a + b == a;
    } else {
      var b' := b[..|b| - 1];
      assert a + b == (a + b') + [b[|b| - 1]];
      ConcatAppend(a, b');
    }
  }

  /** The prompt text ends with the requests' text. */
  lemma PromptEndsWithRequests(ctx: Context)
    requires ctx.Valid()
    ensures var b := PromptBlocks(ctx);
      PromptText(b) == PromptText(b[..|b| - 1]) + Concat(BlockParts(Requests))
  {
    var b := PromptBlocks(ctx);
    ConcatAppend(AllParts(b[..|b| - 1]), BlockParts(Requests));
  }
}
