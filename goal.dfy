/**
  Goal achievement: the month-by-month savings statistics, the months a goal
  still needs, the multiplicative probability pipeline clamped to [5, 95],
  the status bands, the rule-based recommendations and the assessment of all
  of a user's goals together.
 */
module Goal {
  import opened Numeric
  import opened Texts
  import opened Options
  import opened Ledger
  import opened Config
  import opened Sorting
  import opened DataFetcher

  // ---------------------------------------------------------------- savings rate

  /** One entry of `monthly_stats`. */
  datatype MonthStat = MonthStat(month: int, income: real, expenses: real, savings: real, savingsRate: real)

  /** The months of the history in order of first appearance (`df['month'].unique()`). */
  function Months(l: Rows): seq<int>
  {
    Distinct(Keys(l, MonthKey))
  }

  /** The income, expenses and savings of one calendar month. */
  function StatOfMonth(l: Rows, m: int): MonthStat
  {
    var rows := WithKey(l, MonthKey, m);
    var income, expenses := Total(Incomes(rows)), Total(Expenses(rows));
    MonthStat(m, income, expenses, income - expenses, SavingsRate(income, income - expenses))
  }

  /** Savings as a percentage of income; 0 without income. */
  function SavingsRate(income: real, savings: real): real
  {
    if income > 0.0 then savings / income * 100.0 else 0.0
  }

  /** One entry per listed month, in the order given. */
  function StatsOfMonths(l: Rows, months: seq<int>): (r: seq<MonthStat>)
    ensures |r| == |months| && forall i :: 0 <= i < |r| ==> r[i] == StatOfMonth(l, months[i])
  {
    seq(|months|, i requires 0 <= i < |months| => StatOfMonth(l, months[i]))
  }

  function MonthStats(l: Rows): (r: seq<MonthStat>)
    ensures |r| == |Months(l)| && forall i :: 0 <= i < |r| ==> r[i] == StatOfMonth(l, Months(l)[i])
  {
    StatsOfMonths(l, Months(l))
  }

  function IncomeOf(m: MonthStat): real { m.income }
  function ExpensesOf(m: MonthStat): real { m.expenses }
  function SavingsOf(m: MonthStat): real { m.savings }

  /** The loop over `df['month'].unique()` that appends one entry per month. */
  method CollectMonthlyStats(l: Rows, months: seq<int>) returns (stats: seq<MonthStat>)
    ensures stats == StatsOfMonths(l, months)
  {
    stats := [];
    for i := 0 to |months|
      invariant |stats| == i && forall j :: 0 <= j < i ==> stats[j] == StatOfMonth(l, months[j])
    {
      stats := stats + [StatOfMonth(l, months[i])];
    }
  }

  /** The dictionary `calculate_savings_rate` returns; `monthsAnalyzed` is absent for an empty history. */
  datatype SavingsStats = SavingsStats(
    avgMonthlyIncome: real,
    avgMonthlyExpenses: real,
    avgMonthlySavings: real,
    savingsRatePercentage: real,
    consistencyScore: real,
    monthsAnalyzed: Option<nat>)

  const NoSavingsStats: SavingsStats := SavingsStats(0.0, 0.0, 0.0, 0.0, 0.0, None)

  /**
    How steady the monthly savings are: 100 minus the coefficient of
    variation in percent, floored at 0; 0 when the average saving is not
    positive. A single month counts as perfectly steady (see Findings).
   */
  function ConsistencyScore(num: Numerics, savings: seq<real>): real
    requires |savings| > 0
  {
    var avg := Mean(savings);
    var sd := if |savings| >= 2 then Std(num, savings) else 0.0;
    Max2(100.0 - Min2(if avg > 0.0 then sd / avg * 100.0 else 100.0, 100.0), 0.0)
  }

  /** The score as the code computes it: pandas' `std()` of one month is NaN, and so is the score. */
  function ConsistencyAsWritten(num: Numerics, savings: seq<real>): Float
    requires |savings| > 0
  {
    var avg := Mean(savings);
    if avg <= 0.0 then Real(0.0)
    else match StdOrNaN(num, savings)
      case NaN => NaN
      case Real(sd) => Real(Max2(100.0 - Min2(sd / avg * 100.0, 100.0), 0.0))
  }

  /** `calculate_savings_rate` over the fetched history (the whole history: `use_all_data` defaults to true). */
  function SavingsStatsOf(num: Numerics, l: Rows): SavingsStats
  {
    if |l| == 0 then NoSavingsStats
    else
      var stats := MonthStats(l);
      MonthsNonEmpty(l);
      var income, expenses, savings := Values(stats, IncomeOf), Values(stats, ExpensesOf), Values(stats, SavingsOf);
      var avgIncome, avgExpenses, avgSavings := Mean(income), Mean(expenses), Mean(savings);
      SavingsStats(RoundTo(avgIncome, 2), RoundTo(avgExpenses, 2), RoundTo(avgSavings, 2),
        RoundTo(SavingsRate(avgIncome, avgSavings), 2),
        RoundTo(ConsistencyScore(num, savings), 2), Some(|stats|))
  }

  method CalculateSavingsRate(num: Numerics, l: Rows) returns (r: SavingsStats)
    ensures r == SavingsStatsOf(num, l)
  {
    if |l| == 0 {
      return NoSavingsStats;
    }
    var stats := CollectMonthlyStats(l, Months(l));
    MonthsNonEmpty(l);
    var income, expenses, savings := Values(stats, IncomeOf), Values(stats, ExpensesOf), Values(stats, SavingsOf);
    var avgIncome, avgExpenses, avgSavings := Mean(income), Mean(expenses), Mean(savings);
    var rate := if avgIncome > 0.0 then avgSavings / avgIncome * 100.0 else 0.0;
    assert rate == SavingsRate(avgIncome, avgSavings);
    var consistency := ConsistencyScore(num, savings);
    r := SavingsStats(RoundTo(avgIncome, 2), RoundTo(avgExpenses, 2), RoundTo(avgSavings, 2),
      RoundTo(rate, 2), RoundTo(consistency, 2), Some(|stats|));
  }

  // ---------------------------------------------------------------- one goal

  /** `months_required`: a real number of months, or `float('inf')`. */
  datatype MonthsRequired = Finite(months: real) | Infinite

  /** A goal deadline: none given, a string `strptime` rejects, or a parsed year and month. */
  datatype Deadline = NoDeadline | BadDeadline | Deadline(year: int, month: int)

  /** Months needed at the planned contribution, capped at 9999; infinite without a contribution. */
  function RequiredMonths(remaining: real, contribution: real): (r: MonthsRequired)
    ensures r.Infinite? <==> contribution <= 0.0
    ensures r.Finite? ==> r.months <= 9999.0
    ensures r.Finite? && remaining > 0.0 ==> r.months > 0.0
    ensures r.Finite? && r.months < 9999.0 ==> r.months * contribution == remaining
  {
    if contribution <= 0.0 then Infinite
    else
      var m := remaining / contribution;
      if m > 9999.0 then Finite(9999.0) else Finite(m)
  }

  /** `months_required > x`, infinity exceeding everything. */
  predicate Exceeds(mr: MonthsRequired, x: real)
  {
    mr.Infinite? || mr.months > x
  }

  /** Whole months from now to the deadline, by year and month only. */
  function MonthsToDeadline(dl: Deadline, now: Date): int
    requires dl.Deadline?
  {
    (dl.year - now.year) * 12 + (dl.month - now.month)
  }

  /** Contribution relative to the historical average saving, at most 2; 0.5 without a positive history. */
  function ContributionRatio(contribution: real, avgSavings: real): (r: real)
    ensures r <= 2.0
    ensures avgSavings > 0.0 && contribution >= 0.0 ==> r >= 0.0
  {
    if avgSavings <= 0.0 then 0.5 else Min2(contribution / avgSavings, 2.0)
  }

  function BaseProbability(contribution: real, avgSavings: real): real
  {
    50.0 + ContributionRatio(contribution, avgSavings) * 25.0
  }

  function ConsistencyFactor(consistency: real): real
  {
    0.7 + 0.3 * (consistency / 100.0)
  }

  /** The deadline adjustment; no adjustment without a valid deadline. */
  function DeadlineFactor(mr: MonthsRequired, deadline: Deadline, now: Date): (r: real)
    ensures 0.0 <= r <= 1.1
  {
    if !deadline.Deadline? then 1.0
    else
      var mtd := MonthsToDeadline(deadline, now) as real;
      if mtd <= 0.0 then 0.1
      else if Exceeds(mr, mtd) then (if mr.Infinite? then 0.0 else DeadlineShare(mtd, mr.months))
      else 1.1
  }

  /** The fraction of the required months that fit before the deadline. */
  function DeadlineShare(mtd: real, months: real): (r: real)
    requires 0.0 < mtd < months
    ensures 0.0 < r < 1.0
  {
    DivStrict(0.0, mtd, months);
    DivStrict(mtd, months, months);
    MulDivCancel(1.0, months);
    mtd / months
  }

  /** The penalty for goals longer than five or three years. */
  function HorizonFactor(mr: MonthsRequired): (r: real)
    ensures 0.7 <= r <= 1.0
  {
    if Exceeds(mr, 60.0) then 0.7 else if Exceeds(mr, 36.0) then 0.85 else 1.0
  }

  /** `max(5, min(95, probability))`. */
  function ClampProbability(p: real): real
  {
    Max2(5.0, Min2(95.0, p))
  }

  /** The clamp keeps probabilities in [5, 95] and leaves those already there alone. */
  lemma ClampFacts(p: real)
    ensures 5.0 <= ClampProbability(p) <= 95.0
    ensures 5.0 <= p <= 95.0 ==> ClampProbability(p) == p
    ensures p < 5.0 ==> ClampProbability(p) == 5.0
    ensures p > 95.0 ==> ClampProbability(p) == 95.0
  {
  }

  /** The probability as the product of its four factors, clamped. */
  function AchievementProbability(contribution: real, avgSavings: real, consistency: real,
                                  mr: MonthsRequired, deadline: Deadline, now: Date): real
  {
    ClampProbability(BaseProbability(contribution, avgSavings) * ConsistencyFactor(consistency)
      * DeadlineFactor(mr, deadline, now) * HorizonFactor(mr))
  }

  /** `_calculate_achievement_probability`, reassigning the probability step by step. */
  method CalculateAchievementProbability(contribution: real, avgSavings: real, consistency: real,
                                         mr: MonthsRequired, deadline: Deadline, now: Date)
    returns (probability: real)
    ensures probability == AchievementProbability(contribution, avgSavings, consistency, mr, deadline, now)
    ensures 5.0 <= probability <= 95.0
  {
    var ratio := ContributionRatio(contribution, avgSavings);
    var base := 50.0 + ratio * 25.0;
    var consistencyFactor := consistency / 100.0;
    probability := base * (0.7 + 0.3 * consistencyFactor);
    ghost var p0 := probability;
    probability := AdjustForDeadline(probability, mr, deadline, now);
    ghost var p1 := probability;
    probability := AdjustForHorizon(probability, mr);
    ghost var p2 := probability;
    ProductChain(BaseProbability(contribution, avgSavings), ConsistencyFactor(consistency),
      DeadlineFactor(mr, deadline, now), HorizonFactor(mr), p0, p1, p2);
    AchievementProbabilityIs(contribution, avgSavings, consistency, mr, deadline, now, p2);
    ClampFacts(p2);
    probability := Max2(5.0, Min2(95.0, probability));
  }

  /** The timeline adjustment of `_calculate_achievement_probability`. */
  method AdjustForDeadline(p: real, mr: MonthsRequired, deadline: Deadline, now: Date) returns (probability: real)
    ensures probability == p * DeadlineFactor(mr, deadline, now)
  {
    probability := p;
    if deadline.Deadline? {
      var mtd := MonthsToDeadline(deadline, now) as real;
      if mtd <= 0.0 {
        probability := probability * 0.1;
      } else if Exceeds(mr, mtd) {
        if mr.Infinite? {
          probability := probability * 0.0;  // 1 / (inf / mtd) == 0.0
        } else {
          var overage := mr.months / mtd;
          InvertRatio(mr.months, mtd);
          probability := probability * (1.0 / overage);
        }
      } else {
        probability := probability * 1.1;
      }
    }
  }

  /** The penalty for long goals in `_calculate_achievement_probability`. */
  method AdjustForHorizon(p: real, mr: MonthsRequired) returns (probability: real)
    ensures probability == p * HorizonFactor(mr)
  {
    probability := p;
    if Exceeds(mr, 60.0) {
      probability := probability * 0.7;
    } else if Exceeds(mr, 36.0) {
      probability := probability * 0.85;
    }
  }

  lemma AchievementProbabilityIs(contribution: real, avgSavings: real, consistency: real,
                                 mr: MonthsRequired, deadline: Deadline, now: Date, p: real)
    requires p == BaseProbability(contribution, avgSavings) * ConsistencyFactor(consistency)
           * DeadlineFactor(mr, deadline, now) * HorizonFactor(mr)
    ensures ClampProbability(p) == AchievementProbability(contribution, avgSavings, consistency, mr, deadline, now)
  {
  }

  /** `_calculate_achievement_probability` always returns a value in [5, 95]. */
  lemma AchievementProbabilityRange(contribution: real, avgSavings: real, consistency: real,
                                    mr: MonthsRequired, deadline: Deadline, now: Date)
    ensures 5.0 <= AchievementProbability(contribution, avgSavings, consistency, mr, deadline, now) <= 95.0
  {
    ClampFacts(BaseProbability(contribution, avgSavings) * ConsistencyFactor(consistency)
      * DeadlineFactor(mr, deadline, now) * HorizonFactor(mr));
  }

  lemma ProductChain(a: real, b: real, c: real, d: real, p0: real, p1: real, p2: real)
    requires p0 == a * b && p1 == p0 * c && p2 == p1 * d
    ensures p2 == a * b * c * d
  {
  }

  /** The probability the code computes when the consistency score may be NaN (Python's `min(95, nan)` is 95). */
  function ProbabilityAsWritten(contribution: real, avgSavings: real, consistency: Float,
                                mr: MonthsRequired, deadline: Deadline, now: Date): real
  {
    match consistency
    case NaN => 95.0
    case Real(c) => AchievementProbability(contribution, avgSavings, c, mr, deadline, now)
  }

  datatype Status = HighlyLikely | Possible | Challenging | Unlikely

  function StatusOf(p: real): Status
  {
    if p >= 80.0 then HighlyLikely else if p >= 50.0 then Possible else if p >= 30.0 then Challenging else Unlikely
  }

  /** 0 for the best band, 3 for the worst. */
  function StatusRank(s: Status): nat
  {
    match s case HighlyLikely => 0 case Possible => 1 case Challenging => 2 case Unlikely => 3
  }

  // ---------------------------------------------------------------- recommendations

  function IncreaseTo(x: real): Text
  {
    [Lit("Consider increasing monthly contribution to $"), Repr(Real(RoundTo(x, 2))), Lit(" based on your average savings capacity")]
  }

  const Aggressive: Text := Say("Current contribution may be too aggressive - ensure it doesn't impact essential expenses")

  function MeetDeadline(x: real): Text
  {
    [Lit("To meet deadline, increase contribution to $"), Repr(Real(RoundTo(x, 2))), Lit("/month")]
  }

  const Milestones: Text := Say("Consider setting intermediate milestones to track progress on this long-term goal")

  function UnusedCapacity(x: real): Text
  {
    [Lit("You have $"), Repr(Real(RoundTo(x, 2))), Lit("/month in unused savings capacity")]
  }

  /** The deadline clause applies when the deadline is valid, too near, and not this very month (a division by zero the code swallows). */
  predicate NeedsDeadlineClause(mr: MonthsRequired, deadline: Deadline, now: Date)
  {
    deadline.Deadline? && Exceeds(mr, MonthsToDeadline(deadline, now) as real) && MonthsToDeadline(deadline, now) != 0
  }

  /** The recommendations in the order the code appends them. */
  function GoalRecommendations(contribution: real, avgSavings: real, remaining: real,
                               mr: MonthsRequired, deadline: Deadline, now: Date): seq<Text>
  {
    (if contribution < avgSavings * 0.5 then [IncreaseTo(avgSavings * 0.7)] else [])
    + (if contribution > avgSavings * 1.5 then [Aggressive] else [])
    + DeadlinePart(remaining, mr, deadline, now)
    + (if Exceeds(mr, 24.0) then [Milestones] else [])
    + (if avgSavings > 0.0 && contribution < avgSavings then [UnusedCapacity(avgSavings - contribution)] else [])
  }

  /** `_generate_recommendations`, appending to a list. */
  method GenerateRecommendations(contribution: real, avgSavings: real, remaining: real,
                                 mr: MonthsRequired, deadline: Deadline, now: Date)
    returns (recommendations: seq<Text>)
    ensures recommendations == GoalRecommendations(contribution, avgSavings, remaining, mr, deadline, now)
  {
    recommendations := [];
    if contribution < avgSavings * 0.5 {
      recommendations := recommendations + [IncreaseTo(avgSavings * 0.7)];
    }
    ghost var r1 := recommendations;
    if contribution > avgSavings * 1.5 {
      recommendations := recommendations + [Aggressive];
    }
    ghost var r2 := recommendations;
    if deadline.Deadline? {
      var mtd := MonthsToDeadline(deadline, now);
      if Exceeds(mr, mtd as real) && mtd != 0 {
        recommendations := recommendations + [MeetDeadline(remaining / (mtd as real))];
      }
    }
    ghost var r3 := recommendations;
    assert r3 == r2 + DeadlinePart(remaining, mr, deadline, now);
    if Exceeds(mr, 24.0) {
      recommendations := recommendations + [Milestones];
    }
    ghost var r4 := recommendations;
    if avgSavings > 0.0 && contribution < avgSavings {
      recommendations := recommendations + [UnusedCapacity(avgSavings - contribution)];
    }
    RecommendationSteps(contribution, avgSavings, remaining, mr, deadline, now, r1, r2, r3, r4, recommendations);
  }

  function DeadlinePart(remaining: real, mr: MonthsRequired, deadline: Deadline, now: Date): seq<Text>
  {
    if NeedsDeadlineClause(mr, deadline, now) then [MeetDeadline(remaining / (MonthsToDeadline(deadline, now) as real))] else []
  }

  lemma RecommendationSteps(contribution: real, avgSavings: real, remaining: real, mr: MonthsRequired, deadline: Deadline, now: Date,
                            r1: seq<Text>, r2: seq<Text>, r3: seq<Text>, r4: seq<Text>, r5: seq<Text>)
    requires r1 == (if contribution < avgSavings * 0.5 then [IncreaseTo(avgSavings * 0.7)] else [])
    requires r2 == r1 + (if contribution > avgSavings * 1.5 then [Aggressive] else [])
    requires r3 == r2 + DeadlinePart(remaining, mr, deadline, now)
    requires r4 == r3 + (if Exceeds(mr, 24.0) then [Milestones] else [])
    requires r5 == r4 + (if avgSavings > 0.0 && contribution < avgSavings then [UnusedCapacity(avgSavings - contribution)] else [])
    ensures r5 == GoalRecommendations(contribution, avgSavings, remaining, mr, deadline, now)
  {
  }

  // ---------------------------------------------------------------- prediction

  /** The dictionary `predict_goal_achievement` returns. */
  datatype Prediction =
    | Achieved
    | Predicted(
        probability: real,
        status: Status,
        monthsRequired: Option<real>,
        completionMonthsAhead: Option<int>,
        isRealistic: bool,
        progressPercentage: real,
        savingsStatistics: SavingsStats,
        recommendations: seq<Text>)
    | PredictionFailed(error: Text)

  /** `prediction.get("achievement_probability", 0)`. */
  function ProbabilityOf(p: Prediction): real
  {
    match p
    case Achieved => 100.0
    case Predicted(prob, _, _, _, _, _, _, _) => prob
    case PredictionFailed(_) => 0.0
  }

  /** The months until the estimated completion date: only for a finite, uncapped estimate. */
  function CompletionMonths(remaining: real, contribution: real): (r: Option<int>)
    ensures r.Some? ==> contribution > 0.0
  {
    if contribution > 0.0 && remaining / contribution <= 9999.0 then Some((remaining / contribution).Floor) else None
  }

  /**
    `predict_goal_achievement` with the savings statistics already computed
    and today's month given. A zero target with a positive remainder makes
    the progress percentage divide by zero, which the code reports as an error.
   */
  function PredictGoalAchievement(stats: SavingsStats, target: real, current: real, contribution: real,
                                  deadline: Deadline, now: Date): (r: Prediction)
    ensures target - current <= 0.0 <==> r.Achieved?
    ensures target - current > 0.0 && target == 0.0 <==> r.PredictionFailed?
    ensures r.Predicted? ==> 5.0 <= r.probability <= 95.0
    ensures r.Predicted? ==> (r.monthsRequired.None? <==> contribution <= 0.0)
    ensures r.Predicted? && r.monthsRequired.Some? ==> 0.0 <= r.monthsRequired.value <= 9999.0
    ensures r.Predicted? ==> (r.isRealistic <==> contribution <= stats.avgMonthlySavings * 1.2)
    ensures r.Predicted? && contribution <= 0.0 ==> r.completionMonthsAhead.None?
  {
    var remaining := target - current;
    if remaining <= 0.0 then Achieved
    else if target == 0.0 then PredictionFailed(Say("float division by zero"))
    else
      var mr := RequiredMonths(remaining, contribution);
      var avg := stats.avgMonthlySavings;
      var p := AchievementProbability(contribution, avg, stats.consistencyScore, mr, deadline, now);
      AchievementProbabilityRange(contribution, avg, stats.consistencyScore, mr, deadline, now);
      RoundWithin(p, 5, 95, 2);
      RoundedMonthsRange(remaining, contribution);
      Predicted(RoundTo(p, 2), StatusOf(p), if mr.Finite? then Some(RoundTo(mr.months, 1)) else None,
        CompletionMonths(remaining, contribution), contribution <= avg * 1.2,
        RoundTo(current / target * 100.0, 2), stats,
        GoalRecommendations(contribution, avg, remaining, mr, deadline, now))
  }

  // ---------------------------------------------------------------- all goals

  /** A stored goal (`targetAmount`, `currentAmount`, `deadline`, `title`). */
  datatype SavingsGoal = SavingsGoal(title: string, target: real, current: real, deadline: Deadline)

  /** The monthly amount a goal implies: what is left spread over the months to its deadline. */
  function ImpliedMonthly(g: SavingsGoal, now: Date): (r: real)
    ensures r >= 0.0
    ensures r > 0.0 <==> g.deadline.Deadline? && MonthsToDeadline(g.deadline, now) > 0 && g.target - g.current > 0.0
  {
    if g.deadline.Deadline? && MonthsToDeadline(g.deadline, now) > 0 && g.target - g.current > 0.0
    then (g.target - g.current) / (MonthsToDeadline(g.deadline, now) as real)
    else 0.0
  }

  function ImpliedMonthlies(goals: seq<SavingsGoal>, now: Date): (r: seq<real>)
    ensures |r| == |goals| && forall i :: 0 <= i < |goals| ==> r[i] == ImpliedMonthly(goals[i], now)
  {
    seq(|goals|, i requires 0 <= i < |goals| => ImpliedMonthly(goals[i], now))
  }

  /** One entry of `analyzed_goals`. */
  datatype AnalyzedGoal = AnalyzedGoal(goal: SavingsGoal, monthlyContribution: real, prediction: Prediction)

  function AnalyzeGoal(stats: SavingsStats, g: SavingsGoal, now: Date): AnalyzedGoal
  {
    var monthly := ImpliedMonthly(g, now);
    AnalyzedGoal(g, monthly, PredictGoalAchievement(stats, g.target, g.current, monthly, g.deadline, now))
  }

  function GoalProbabilities(analyzed: seq<AnalyzedGoal>): (r: seq<real>)
    ensures |r| == |analyzed| && forall i :: 0 <= i < |analyzed| ==> r[i] == ProbabilityOf(analyzed[i].prediction)
  {
    seq(|analyzed|, i requires 0 <= i < |analyzed| => ProbabilityOf(analyzed[i].prediction))
  }

  datatype Assessment = Overcommitted | OnTrack | NeedsAdjustment | TooAmbitious

  /** The overall assessment: commitments above the average saving first, then the mean probability bands. */
  function AssessmentOf(totalMonthly: real, avgSavings: real, avgProbability: real): Assessment
  {
    if totalMonthly > avgSavings then Overcommitted
    else if avgProbability >= 70.0 then OnTrack
    else if avgProbability >= 40.0 then NeedsAdjustment
    else TooAmbitious
  }

  function AssessmentMessage(a: Assessment): Text
  {
    match a
    case Overcommitted => Say("Total goal contributions exceed average savings capacity")
    case OnTrack => Say("Goals are achievable with current trajectory")
    case NeedsAdjustment => Say("Some goals may need timeline or contribution adjustments")
    case TooAmbitious => Say("Current goals may be too ambitious - consider revising")
  }

  /** The dictionary `analyze_all_goals` returns. */
  datatype GoalsReport =
    | NoActiveGoals
    | GoalsGateFailed(error: Text, totalGoals: nat, dataInfo: Verdict)
    | GoalsAnalyzed(
        totalGoals: nat,
        goals: seq<AnalyzedGoal>,
        totalMonthlyCommitment: real,
        avgMonthlySavings: real,
        commitmentRatio: real,
        overall: Assessment,
        message: Text)

  function GoalsGate(l: Rows): Verdict
  {
    CheckDataSufficiency(l, GoalsMinMonths * 30, MinTransactions, 10)
  }

  function AnalyzedGoals(stats: SavingsStats, goals: seq<SavingsGoal>, now: Date): (r: seq<AnalyzedGoal>)
    ensures |r| == |goals| && forall i :: 0 <= i < |goals| ==> r[i] == AnalyzeGoal(stats, goals[i], now)
  {
    seq(|goals|, i requires 0 <= i < |goals| => AnalyzeGoal(stats, goals[i], now))
  }

  /** The monthly contribution a goal implies, computed inside the code's `try` block. */
  method ContributionFor(g: SavingsGoal, now: Date) returns (monthly: real)
    ensures monthly == ImpliedMonthly(g, now)
  {
    monthly := 0.0;
    if g.deadline.Deadline? {
      var mtd := MonthsToDeadline(g.deadline, now);
      if mtd > 0 {
        var remaining := g.target - g.current;
        monthly := if remaining > 0.0 then remaining / (mtd as real) else 0.0;
      }
    }
  }

  /** The loop of `analyze_all_goals`: one prediction per goal, accumulating the implied monthlies. */
  method AnalyzeEach(stats: SavingsStats, goals: seq<SavingsGoal>, now: Date) returns (analyzed: seq<AnalyzedGoal>, total: real)
    ensures analyzed == AnalyzedGoals(stats, goals, now)
    ensures total == Sum(ImpliedMonthlies(goals, now))
  {
    analyzed := [];
    total := 0.0;
    for i := 0 to |goals|
      invariant |analyzed| == i && forall j :: 0 <= j < i ==> analyzed[j] == AnalyzeGoal(stats, goals[j], now)
      invariant total == Sum(ImpliedMonthlies(goals[..i], now))
    {
      var g := goals[i];
      var monthly := ContributionFor(g, now);
      var prediction := PredictGoalAchievement(stats, g.target, g.current, monthly, g.deadline, now);
      analyzed := analyzed + [AnalyzedGoal(g, monthly, prediction)];
      ImpliedMonthliesSnoc(goals, i, now);
      SumAppend(ImpliedMonthlies(goals[..i], now), monthly);
      total := total + monthly;
    }
    assert goals[..|goals|] == goals;
  }

  /** `analyze_all_goals`: no goals, the gate, then the per-goal analyses and the overall assessment. */
  method AnalyzeAllGoals(num: Numerics, l: Rows, goals: seq<SavingsGoal>, now: Date) returns (r: GoalsReport)
    ensures |goals| == 0 <==> r.NoActiveGoals?
    ensures |goals| > 0 && !GoalsGate(l).sufficient ==>
      r == GoalsGateFailed([Lit("Insufficient transaction data for goals analysis: ")] + GoalsGate(l).reason, |goals|, GoalsGate(l))
    ensures |goals| > 0 && GoalsGate(l).sufficient ==> r.GoalsAnalyzed?
    ensures r.GoalsAnalyzed? ==>
      var stats := SavingsStatsOf(num, l);
      var total := Sum(ImpliedMonthlies(goals, now));
      && r.totalGoals == |goals|
      && r.goals == AnalyzedGoals(stats, goals, now)
      && r.totalMonthlyCommitment == RoundTo(total, 2)
      && r.avgMonthlySavings == stats.avgMonthlySavings
      && r.commitmentRatio == (if stats.avgMonthlySavings > 0.0 then RoundTo(total / stats.avgMonthlySavings, 2) else 0.0)
      && r.overall == AssessmentOf(total, stats.avgMonthlySavings, Mean(GoalProbabilities(r.goals)))
      && r.message == AssessmentMessage(r.overall)
  {
    if |goals| == 0 {
      return NoActiveGoals;
    }
    var verdict := GoalsGate(l);
    if !verdict.sufficient {
      return GoalsGateFailed([Lit("Insufficient transaction data for goals analysis: ")] + verdict.reason, |goals|, verdict);
    }
    var stats := CalculateSavingsRate(num, l);
    var analyzed, total := AnalyzeEach(stats, goals, now);
    var avgProbability := Mean(GoalProbabilities(analyzed));
    var overall := AssessmentOf(total, stats.avgMonthlySavings, avgProbability);
    r := GoalsAnalyzed(|goals|, analyzed, RoundTo(total, 2), stats.avgMonthlySavings,
      if stats.avgMonthlySavings > 0.0 then RoundTo(total / stats.avgMonthlySavings, 2) else 0.0,
      overall, AssessmentMessage(overall));
  }

  // ---------------------------------------------------------------- lemmas

  lemma MonthsNonEmpty(l: Rows)
    ensures |l| > 0 ==> |Months(l)| > 0
  {
    if |l| > 0 {
      assert Keys(l, MonthKey)[0] in Months(l);
    }
  }

  lemma RoundedMonthsRange(remaining: real, contribution: real)
    requires remaining > 0.0
    ensures var mr := RequiredMonths(remaining, contribution); mr.Finite? ==> 0.0 <= RoundTo(mr.months, 1) <= 9999.0
  {
    var mr := RequiredMonths(remaining, contribution);
    if mr.Finite? {
      RoundWithin(mr.months, 0, 9999, 1);
    }
  }

  lemma ImpliedMonthliesSnoc(goals: seq<SavingsGoal>, i: nat, now: Date)
    requires i < |goals|
    ensures ImpliedMonthlies(goals[..i + 1], now) == ImpliedMonthlies(goals[..i], now) + [ImpliedMonthly(goals[i], now)]
  {
    assert goals[..i + 1] == goals[..i] + [goals[i]];
  }

  /** Filtering by month and by kind commute. */
  lemma {:induction false} KindOfMonth(l: Rows, m: int, k: Kind)
    ensures OfKind(WithKey(l, MonthKey, m), k) == WithKey(OfKind(l, k), MonthKey, m)
  {
    if |l| > 0 {
      var l', t := l[..|l| - 1], l[|l| - 1];
      KindOfMonth(l', m, k);
      assert l == l' + [t];
      WithKeyAppend(l', MonthKey, t, m);
      OfKindAppend(l', t, k);
      if MonthKey(t) == m {
        OfKindAppend(WithKey(l', MonthKey, m), t, k);
      }
      if t.kind == k {
        WithKeyAppend(OfKind(l', k), MonthKey, t, m);
      }
    }
  }

  /** The monthly totals of one kind, over all months, add up to that kind's total. */
  lemma MonthlyKindTotal(l: Rows, k: Kind)
    ensures Sum(GroupSums(OfKind(l, k), MonthKey, Months(l))) == Total(OfKind(l, k))
  {
    var rows := OfKind(l, k);
    OfKindMembers(l, k);
    forall i | 0 <= i < |rows| ensures MonthKey(rows[i]) in Months(l) {
      assert rows[i] in l;
      var j :| 0 <= j < |l| && l[j] == rows[i];
      assert Keys(l, MonthKey)[j] == MonthKey(rows[i]);
    }
    GroupSumsPartition(rows, MonthKey, Months(l));
  }

  /** The monthly incomes and expenses partition the history's income and expenses. */
  lemma MonthlyTotals(l: Rows)
    ensures Sum(Values(MonthStats(l), IncomeOf)) == Total(Incomes(l))
    ensures Sum(Values(MonthStats(l), ExpensesOf)) == Total(Expenses(l))
  {
    var ms := Months(l);
    forall i | 0 <= i < |ms|
      ensures Values(MonthStats(l), IncomeOf)[i] == GroupSums(Incomes(l), MonthKey, ms)[i]
      ensures Values(MonthStats(l), ExpensesOf)[i] == GroupSums(Expenses(l), MonthKey, ms)[i]
    {
      KindOfMonth(l, ms[i], Income);
      KindOfMonth(l, ms[i], Expense);
    }
    assert Values(MonthStats(l), IncomeOf) == GroupSums(Incomes(l), MonthKey, ms);
    assert Values(MonthStats(l), ExpensesOf) == GroupSums(Expenses(l), MonthKey, ms);
    MonthlyKindTotal(l, Income);
    MonthlyKindTotal(l, Expense);
  }

  lemma {:induction false} SavingsSum(stats: seq<MonthStat>)
    requires forall i :: 0 <= i < |stats| ==> stats[i].savings == stats[i].income - stats[i].expenses
    ensures Sum(Values(stats, SavingsOf)) == Sum(Values(stats, IncomeOf)) - Sum(Values(stats, ExpensesOf))
  {
    if |stats| > 0 {
      var s', x := stats[..|stats| - 1], stats[|stats| - 1];
      assert stats == s' + [x];
      SavingsSum(s');
      ValuesAppend(s', x, SavingsOf);
      ValuesAppend(s', x, IncomeOf);
      ValuesAppend(s', x, ExpensesOf);
      SumAppend(Values(s', SavingsOf), x.savings);
      SumAppend(Values(s', IncomeOf), x.income);
      SumAppend(Values(s', ExpensesOf), x.expenses);
    }
  }

  /**
    Before rounding, the average monthly saving is the history's income
    minus its expenses, spread over the months that have any row.
   */
  lemma AverageSavings(l: Rows)
    requires |l| > 0
    ensures |Months(l)| > 0
    ensures Mean(Values(MonthStats(l), SavingsOf)) == (Total(Incomes(l)) - Total(Expenses(l))) / (|Months(l)| as real)
  {
    MonthsNonEmpty(l);
    MonthlyTotals(l);
    SavingsSum(MonthStats(l));
    var savings := Values(MonthStats(l), SavingsOf);
    assert Sum(savings) == Total(Incomes(l)) - Total(Expenses(l));
    assert |savings| == |Months(l)|;
  }

  lemma EmptyHistorySavings(num: Numerics, l: Rows)
    requires |l| == 0
    ensures SavingsStatsOf(num, l) == SavingsStats(0.0, 0.0, 0.0, 0.0, 0.0, None)
  {
  }

  /** The consistency score lies in [0, 100], and is 0 without a positive average saving. */
  lemma ConsistencyRange(num: Numerics, savings: seq<real>)
    requires Lawful(num) && |savings| > 0
    ensures 0.0 <= ConsistencyScore(num, savings) <= 100.0
    ensures Mean(savings) <= 0.0 ==> ConsistencyScore(num, savings) == 0.0
  {
    var avg := Mean(savings);
    if |savings| >= 2 {
      StdFacts(num, savings);
    }
    if avg > 0.0 {
      var sd := if |savings| >= 2 then Std(num, savings) else 0.0;
      assert sd >= 0.0;
      assert sd / avg >= 0.0;
    }
  }

  /** Saving the same positive amount every month is perfectly consistent. */
  lemma SteadySavingsConsistent(num: Numerics, savings: seq<real>, c: real)
    requires Lawful(num) && |savings| > 0 && c > 0.0 && Constant(savings, c)
    ensures ConsistencyScore(num, savings) == 100.0
  {
    MeanConstant(savings, c);
    if |savings| >= 2 {
      StdFacts(num, savings);
    }
  }

  /** The reported consistency score is in [0, 100] too. */
  lemma SavingsStatsRange(num: Numerics, l: Rows)
    requires Lawful(num)
    ensures 0.0 <= SavingsStatsOf(num, l).consistencyScore <= 100.0
    ensures |l| > 0 ==> SavingsStatsOf(num, l).monthsAnalyzed == Some(|Months(l)|)
  {
    if |l| > 0 {
      MonthsNonEmpty(l);
      var savings := Values(MonthStats(l), SavingsOf);
      ConsistencyRange(num, savings);
      RoundWithin(ConsistencyScore(num, savings), 0, 100, 2);
    }
  }

  /** A goal already reached is "achieved", whatever the contribution or deadline. */
  lemma ReachedGoal(stats: SavingsStats, target: real, current: real, c1: real, c2: real, d1: Deadline, d2: Deadline, now: Date)
    requires current >= target
    ensures PredictGoalAchievement(stats, target, current, c1, d1, now) == Achieved
    ensures ProbabilityOf(PredictGoalAchievement(stats, target, current, c2, d2, now)) == 100.0
  {
  }

  /** Without a contribution and with a deadline still ahead, the probability is the floor of 5. */
  lemma NoContributionFloor(contribution: real, avgSavings: real, consistency: real, deadline: Deadline, now: Date)
    requires contribution <= 0.0 && deadline.Deadline? && MonthsToDeadline(deadline, now) > 0
    ensures AchievementProbability(contribution, avgSavings, consistency, RequiredMonths(1.0, contribution), deadline, now) == 5.0
  {
  }

  /** A past deadline scales the probability down to a tenth before clamping. */
  lemma PastDeadlineTenth(contribution: real, avgSavings: real, consistency: real, mr: MonthsRequired, deadline: Deadline, now: Date)
    requires deadline.Deadline? && MonthsToDeadline(deadline, now) <= 0
    ensures DeadlineFactor(mr, deadline, now) == 0.1
  {
  }

  /** Without a deadline and a goal within three years the probability is the base times the consistency factor. */
  lemma ShortGoalNoDeadline(contribution: real, avgSavings: real, consistency: real, mr: MonthsRequired, deadline: Deadline, now: Date)
    requires !deadline.Deadline? && !Exceeds(mr, 36.0)
    ensures AchievementProbability(contribution, avgSavings, consistency, mr, deadline, now)
         == ClampProbability(BaseProbability(contribution, avgSavings) * ConsistencyFactor(consistency))
  {
  }

  /** A higher probability never lands in a worse status band. */
  lemma StatusMonotone(p: real, q: real)
    requires p <= q
    ensures StatusRank(StatusOf(q)) <= StatusRank(StatusOf(p))
  {
  }

  /** The bands: at least 80, at least 50, at least 30, below 30. */
  lemma StatusBands(p: real)
    ensures StatusOf(p) == HighlyLikely <==> p >= 80.0
    ensures StatusOf(p) == Possible <==> 50.0 <= p < 80.0
    ensures StatusOf(p) == Challenging <==> 30.0 <= p < 50.0
    ensures StatusOf(p) == Unlikely <==> p < 30.0
  {
  }

  /** Each recommendation is present exactly when its rule fires. */
  lemma RecommendationRules(contribution: real, avgSavings: real, remaining: real, mr: MonthsRequired, deadline: Deadline, now: Date)
    ensures var recs := GoalRecommendations(contribution, avgSavings, remaining, mr, deadline, now);
      && (IncreaseTo(avgSavings * 0.7) in recs <==> contribution < avgSavings * 0.5)
      && (Aggressive in recs <==> contribution > avgSavings * 1.5)
      && (Milestones in recs <==> Exceeds(mr, 24.0))
      && (UnusedCapacity(avgSavings - contribution) in recs <==> avgSavings > 0.0 && contribution < avgSavings)
      && (NeedsDeadlineClause(mr, deadline, now) ==>
            MeetDeadline(remaining / (MonthsToDeadline(deadline, now) as real)) in recs)
      && ((exists x :: MeetDeadline(x) in recs) <==> NeedsDeadlineClause(mr, deadline, now))
      && |recs| <= 5
  {
  }

  /** A deadline in the current month adds no deadline recommendation: the division by zero is swallowed. */
  lemma DeadlineThisMonth(contribution: real, avgSavings: real, remaining: real, mr: MonthsRequired, deadline: Deadline, now: Date)
    requires deadline.Deadline? && MonthsToDeadline(deadline, now) == 0
    ensures forall x :: MeetDeadline(x) !in GoalRecommendations(contribution, avgSavings, remaining, mr, deadline, now)
  {
  }

  /** With a non-negative average saving, "increase" and "too aggressive" never appear together. */
  lemma IncreaseOrAggressive(contribution: real, avgSavings: real, remaining: real, mr: MonthsRequired, deadline: Deadline, now: Date)
    requires avgSavings >= 0.0
    ensures !(IncreaseTo(avgSavings * 0.7) in GoalRecommendations(contribution, avgSavings, remaining, mr, deadline, now)
              && Aggressive in GoalRecommendations(contribution, avgSavings, remaining, mr, deadline, now))
  {
    RecommendationRules(contribution, avgSavings, remaining, mr, deadline, now);
  }

  lemma GoalProbabilityRange(stats: SavingsStats, g: SavingsGoal, now: Date)
    ensures 0.0 <= ProbabilityOf(AnalyzeGoal(stats, g, now).prediction) <= 100.0
  {
    var p := AnalyzeGoal(stats, g, now).prediction;
    assert p.Predicted? ==> 5.0 <= p.probability <= 95.0;
  }

  /** Every per-goal probability, and so their mean, lies in [0, 100]. */
  lemma ProbabilitiesRange(stats: SavingsStats, goals: seq<SavingsGoal>, now: Date)
    requires |goals| > 0
    ensures 0.0 <= Mean(GoalProbabilities(AnalyzedGoals(stats, goals, now))) <= 100.0
  {
    var analyzed := AnalyzedGoals(stats, goals, now);
    var ps := GoalProbabilities(analyzed);
    forall i | 0 <= i < |ps| ensures 0.0 <= ps[i] <= 100.0 {
      GoalProbabilityRange(stats, goals[i], now);
    }
    MeanBounds(ps, 0.0, 100.0);
  }

  /** Goals never imply a negative commitment, so a negative average saving always means overcommitted. */
  lemma NegativeSavingsOvercommitted(goals: seq<SavingsGoal>, avgSavings: real, avgProbability: real, now: Date)
    requires avgSavings < 0.0
    ensures AssessmentOf(Sum(ImpliedMonthlies(goals, now)), avgSavings, avgProbability) == Overcommitted
  {
    SumNonNegative(ImpliedMonthlies(goals, now));
  }

  /** Without any implied commitment and a non-negative saving, only the probability bands decide. */
  lemma NoCommitmentBands(goals: seq<SavingsGoal>, avgSavings: real, avgProbability: real, now: Date)
    requires avgSavings >= 0.0 && forall i :: 0 <= i < |goals| ==> !goals[i].deadline.Deadline?
    ensures var a := AssessmentOf(Sum(ImpliedMonthlies(goals, now)), avgSavings, avgProbability);
      && a != Overcommitted
      && (a == OnTrack <==> avgProbability >= 70.0)
      && (a == NeedsAdjustment <==> 40.0 <= avgProbability < 70.0)
  {
    SumConstant(ImpliedMonthlies(goals, now), 0.0);
  }

  /**
    A single month of positive saving makes the code's consistency score NaN,
    and Python's `min(95, nan)` then reports the ceiling of 95 even for a goal
    with no contribution and a deadline ahead; the corrected score of 100
    gives that goal the floor of 5.
   */
  lemma OneMonthHistoryFinding(num: Numerics, s: real, avgSavings: real, deadline: Deadline, now: Date)
    requires Lawful(num) && s > 0.0 && deadline.Deadline? && MonthsToDeadline(deadline, now) > 0
    ensures ConsistencyAsWritten(num, [s]) == NaN
    ensures ProbabilityAsWritten(0.0, avgSavings, ConsistencyAsWritten(num, [s]), Infinite, deadline, now) == 95.0
    ensures ConsistencyScore(num, [s]) == 100.0
    ensures AchievementProbability(0.0, avgSavings, ConsistencyScore(num, [s]), Infinite, deadline, now) == 5.0
  {
    assert Sum([s]) == s by {
      assert [s][..0] == [];
    }
    assert Mean([s]) == s;
  }
}
