/**
  Budget recommendations: per-category spending statistics, the
  half-over-half trend, the approach-by-trend multiplier table with a
  safety buffer, priority and variability labels and the comparison with the
  user's current budgets.
 */
module Budget {
  import opened Numeric
  import opened Texts
  import opened Options
  import opened Ledger
  import opened Config
  import opened DataFetcher
  import opened Sorting

  datatype Trend = Increasing | Decreasing | Stable

  function TrendName(t: Trend): string
  {
    match t
    case Increasing => "increasing"
    case Decreasing => "decreasing"
    case Stable => "stable"
  }

  /** One entry of the `category_stats` dictionary. */
  datatype CategoryStats = CategoryStats(
    category: string,
    total: real,
    mean: real,
    median: real,
    std: Float,
    min: real,
    max: real,
    count: nat,
    monthlyAvg: real,
    monthlyStd: real,
    trend: Trend)

  /** `_calculate_trend`: compares the average of the second half of the months with the first half. */
  function CalculateTrend(monthly: seq<real>): Trend
  {
    if |monthly| < 2 then Stable
    else TrendOfHalves(Mean(monthly[..|monthly| / 2]), Mean(monthly[|monthly| / 2..]))
  }

  /** The trend from the mean of the first half and the mean of the second half: a change beyond 15% either way. */
  function TrendOfHalves(first: real, second: real): Trend
  {
    if first == 0.0 then (if second > 0.0 then Increasing else Stable)
    else
      var change := (second - first) / first * 100.0;
      if change > 15.0 then Increasing
      else if change < -15.0 then Decreasing
      else Stable
  }

  /** Spending per calendar month, months in ascending order (`groupby('month')['amount'].sum()`). */
  function MonthlySpending(rows: Rows): seq<real>
  {
    GroupSums(rows, MonthKey, SortedKeys(rows, MonthKey))
  }

  /** The statistics of one category's expense rows. */
  function StatsOf(num: Numerics, category: string, rows: Rows): (r: CategoryStats)
    requires |rows| > 0
    ensures r.category == category && r.count == |rows|
  {
    var amounts := Amounts(rows);
    var monthly := MonthlySpending(rows);
    CategoryStats(
      category,
      Total(rows),
      Mean(amounts),
      num.quantile(amounts, 0.5),
      StdOrNaN(num, amounts),
      SeqMin(amounts),
      SeqMax(amounts),
      |rows|,
      if |monthly| > 0 then Mean(monthly) else 0.0,
      if |monthly| > 1 then Std(num, monthly) else 0.0,
      CalculateTrend(monthly))
  }

  /** pandas' `std()` of a single amount is NaN; two or more amounts give a number. */
  lemma StdNaNIffSingleRow(num: Numerics, category: string, rows: Rows)
    requires |rows| > 0
    ensures StatsOf(num, category, rows).std.NaN? <==> |rows| == 1
  {
    assert StatsOf(num, category, rows).std == StdOrNaN(num, Amounts(rows));
  }

  function CategoryRows(l: Rows, c: string): Rows
  {
    WithKey(Expenses(l), CategoryKey, c)
  }

  /** Every one of cats is an expense category of l. */
  predicate CategoriesOf(l: Rows, cats: seq<string>)
  {
    forall c :: c in cats ==> c in Categories(Expenses(l))
  }

  /** The statistics of the given expense categories, in the given order. */
  function PatternsOf(num: Numerics, l: Rows, cats: seq<string>): (r: seq<CategoryStats>)
    requires CategoriesOf(l, cats)
    ensures |r| == |cats|
  {
    if |cats| == 0 then []
    else
      var c := cats[|cats| - 1];
      CategoryHasRows(l, c);
      PatternsOf(num, l, cats[..|cats| - 1]) + [StatsOf(num, c, CategoryRows(l, c))]
  }

  lemma {:induction false} PatternsOfAt(num: Numerics, l: Rows, cats: seq<string>, i: nat)
    requires CategoriesOf(l, cats)
    requires i < |cats|
    ensures |CategoryRows(l, cats[i])| > 0
    ensures PatternsOf(num, l, cats)[i] == StatsOf(num, cats[i], CategoryRows(l, cats[i]))
  {
    CategoryHasRows(l, cats[i]);
    if i < |cats| - 1 {
      PatternsOfAt(num, l, cats[..|cats| - 1], i);
    }
  }

  lemma PatternsOfSnoc(num: Numerics, l: Rows, cats: seq<string>, i: nat)
    requires CategoriesOf(l, cats)
    requires i < |cats|
    ensures |CategoryRows(l, cats[i])| > 0
    ensures PatternsOf(num, l, cats[..i + 1]) == PatternsOf(num, l, cats[..i]) + [StatsOf(num, cats[i], CategoryRows(l, cats[i]))]
  {
    CategoryHasRows(l, cats[i]);
    assert cats[..i + 1][..i] == cats[..i];
  }

  /** `analyze_spending_patterns`: one entry per expense category, in order of first appearance. */
  method AnalyzeSpendingPatterns(num: Numerics, l: Rows) returns (patterns: seq<CategoryStats>)
    ensures patterns == PatternsOf(num, l, Categories(Expenses(l)))
  {
    var cats := Categories(Expenses(l));
    patterns := [];
    for i := 0 to |cats|
      invariant patterns == PatternsOf(num, l, cats[..i])
    {
      PatternsOfSnoc(num, l, cats, i);
      patterns := patterns + [StatsOf(num, cats[i], CategoryRows(l, cats[i]))];
    }
    assert cats[..|cats|] == cats;
  }

  lemma CategoryHasRows(l: Rows, c: string)
    requires c in Categories(Expenses(l))
    ensures |CategoryRows(l, c)| > 0
  {
    var e := Expenses(l);
    var k :| 0 <= k < |e| && Keys(e, CategoryKey)[k] == c;
    WithKeyMembers(e, CategoryKey, c);
    assert e[k] in CategoryRows(l, c);
  }

  /** A category spending the same amount every month is stable. */
  lemma TrendOfConstant(monthly: seq<real>, c: real)
    requires Constant(monthly, c)
    ensures CalculateTrend(monthly) == Stable
  {
    if |monthly| >= 2 {
      var h := |monthly| / 2;
      MeanConstant(monthly[..h], c);
      MeanConstant(monthly[h..], c);
    }
  }

  lemma ScaleSlices(s: seq<real>, k: real, h: nat)
    requires h <= |s|
    ensures Scale(s, k)[..h] == Scale(s[..h], k) && Scale(s, k)[h..] == Scale(s[h..], k)
  {
    forall i | 0 <= i < h ensures Scale(s, k)[..h][i] == Scale(s[..h], k)[i] {
    }
    forall i | 0 <= i < |s| - h ensures Scale(s, k)[h..][i] == Scale(s[h..], k)[i] {
      assert Scale(s, k)[h..][i] == Scale(s, k)[h + i];
    }
    assert Scale(s, k)[..h] == Scale(s[..h], k);
    assert Scale(s, k)[h..] == Scale(s[h..], k);
  }

  lemma HalvesScaleInvariant(f: real, g: real, k: real)
    requires k > 0.0
    ensures TrendOfHalves(f * k, g * k) == TrendOfHalves(f, g)
  {
    if f != 0.0 {
      RelativeChangeScale(f, g, k);
      assert f * k != 0.0;
    } else {
      assert g * k > 0.0 <==> g > 0.0;
    }
  }

  /** The trend is a relative measure: scaling every month by the same positive factor does not change it. */
  lemma TrendScaleInvariant(monthly: seq<real>, k: real)
    requires k > 0.0
    ensures CalculateTrend(Scale(monthly, k)) == CalculateTrend(monthly)
  {
    if |monthly| >= 2 {
      var h := |monthly| / 2;
      ScaleSlices(monthly, k, h);
      MeanScale(monthly[..h], k);
      MeanScale(monthly[h..], k);
      var m, f, g := Scale(monthly, k), Mean(monthly[..h]), Mean(monthly[h..]);
      assert CalculateTrend(monthly) == TrendOfHalves(f, g);
      assert |m| / 2 == h;
      assert m[..h] == Scale(monthly[..h], k) && m[h..] == Scale(monthly[h..], k);
      assert Mean(m[..h]) == f * k && Mean(m[h..]) == g * k;
      assert CalculateTrend(m) == TrendOfHalves(f * k, g * k);
      HalvesScaleInvariant(f, g, k);
    }
  }

  /** Every month of a category's expenses lands in exactly one bucket, so the buckets add up to the category total. */
  lemma MonthlySpendingTotal(rows: Rows)
    ensures Sum(MonthlySpending(rows)) == Total(rows)
  {
    var ks := SortedKeys(rows, MonthKey);
    SortedKeysFacts(rows, MonthKey);
    forall i | 0 <= i < |rows| ensures MonthKey(rows[i]) in ks {
      assert Keys(rows, MonthKey)[i] == MonthKey(rows[i]);
    }
    GroupSumsPartition(rows, MonthKey, ks);
  }

  /** The mean of non-empty values lies between their minimum and maximum. */
  lemma MeanBetweenMinMax(s: seq<real>)
    requires |s| > 0
    ensures SeqMin(s) <= Mean(s) <= SeqMax(s)
  {
    MinMaxBounds(s);
    MeanBounds(s, SeqMin(s), SeqMax(s));
  }

  /**
    The statistics agree with each other: the count and the total are the
    rows', min <= median <= max, the mean is total / count and lies between
    min and max, and the monthly std is never negative and is 0 for a
    single month, whose average is then the category total.
   */
  lemma StatsFacts(num: Numerics, category: string, rows: Rows)
    requires Lawful(num) && |rows| > 0
    ensures var s := StatsOf(num, category, rows);
      && s.total == Total(rows)
      && s.mean == s.total / (s.count as real)
      && s.min <= s.median <= s.max
      && s.min <= s.mean <= s.max
      && s.monthlyStd >= 0.0
      && (|MonthlySpending(rows)| == 1 ==> s.monthlyStd == 0.0 && s.monthlyAvg == s.total)
  {
    var amounts := Amounts(rows);
    var monthly := MonthlySpending(rows);
    MeanBetweenMinMax(amounts);
    if |monthly| > 1 {
      StdFacts(num, monthly);
    }
    if |monthly| == 1 {
      MonthlySpendingTotal(rows);
      assert monthly[..0] == [];
    }
  }

  // ---------------------------------------------------------------- labels

  datatype Priority = High | Medium | Low

  /** `_calculate_priority`. */
  function CalculatePriority(s: CategoryStats): Priority
  {
    var variability := if s.monthlyAvg > 0.0 then s.monthlyStd / s.monthlyAvg else 0.0;
    if s.monthlyAvg > 500.0 || variability > 0.5 then High
    else if s.monthlyAvg > 200.0 || variability > 0.3 then Medium
    else Low
  }

  /** The `variability` label of a recommendation is "high". */
  predicate HighVariability(s: CategoryStats)
  {
    s.monthlyStd > s.monthlyAvg * 0.3
  }

  /** `multipliers.get(approach, multipliers["balanced"])[trend]`. */
  function Multiplier(approach: string, trend: Trend): (r: real)
    ensures 0.9 <= r <= 1.35
  {
    if approach == "conservative" then
      match trend case Stable => 1.0 case Increasing => 1.15 case Decreasing => 0.90
    else if approach == "flexible" then
      match trend case Stable => 1.20 case Increasing => 1.35 case Decreasing => 1.10
    else
      match trend case Stable => 1.10 case Increasing => 1.25 case Decreasing => 1.0
  }

  /** The monthly average times the multiplier, plus half the monthly std when it is positive, to the cent. */
  function RecommendedAmount(s: CategoryStats, approach: string): real
  {
    var raw := s.monthlyAvg * Multiplier(approach, s.trend);
    RoundTo(if s.monthlyStd > 0.0 then raw + s.monthlyStd * 0.5 else raw, 2)
  }

  /** The clauses of `_generate_justification`, before joining and capitalising. */
  function JustificationParts(s: CategoryStats, recommended: real, approach: string, trend: Trend): seq<Text>
  {
    var base := s.monthlyAvg;
    var increase := if base > 0.0 then (recommended - base) / base * 100.0 else 0.0;
    [Say("Spending in this category is " + TrendName(trend))]
    + (if HighVariability(s) then [Say("includes buffer for high variability")] else [])
    + (if approach == "conservative" then [Say("conservative approach applied")]
       else if approach == "flexible" then [Say("flexible approach for comfort")] else [])
    + (if increase > 5.0 then [[Int(RoundInt(increase)), Lit("% above current average")]]
       else if increase < -5.0 then [[Int(RoundInt(-increase)), Lit("% below current average")]] else [])
  }

  /** `_generate_justification`. */
  function GenerateJustification(s: CategoryStats, recommended: real, approach: string, trend: Trend): Text
  {
    Capitalize(Join(JustificationParts(s, recommended, approach, trend), "; "))
  }

  datatype Recommendation = Recommendation(
    category: string,
    recommendedAmount: real,
    currentMonthlyAvg: real,
    trend: Trend,
    transactionCount: nat,
    highVariability: bool,
    justification: Text,
    priority: Priority)

  function Recommend(s: CategoryStats, approach: string): Recommendation
  {
    var amount := RecommendedAmount(s, approach);
    Recommendation(s.category, amount, RoundTo(s.monthlyAvg, 2), s.trend, s.count,
      HighVariability(s), GenerateJustification(s, amount, approach, s.trend), CalculatePriority(s))
  }

  function AmountOf(r: Recommendation): real { r.recommendedAmount }

  function RecommendedAmounts(recs: seq<Recommendation>): (r: seq<real>)
    ensures |r| == |recs| && forall i :: 0 <= i < |recs| ==> r[i] == recs[i].recommendedAmount
  {
    Values(recs, AmountOf)
  }

  /** One recommendation per category, in the order of the patterns. */
  function RecommendEach(patterns: seq<CategoryStats>, approach: string): (r: seq<Recommendation>)
    ensures |r| == |patterns|
  {
    if |patterns| == 0 then []
    else RecommendEach(patterns[..|patterns| - 1], approach) + [Recommend(patterns[|patterns| - 1], approach)]
  }

  lemma {:induction false} RecommendEachAt(patterns: seq<CategoryStats>, approach: string, i: nat)
    requires i < |patterns|
    ensures RecommendEach(patterns, approach)[i] == Recommend(patterns[i], approach)
  {
    if i < |patterns| - 1 {
      RecommendEachAt(patterns[..|patterns| - 1], approach, i);
    }
  }

  /** The loop of `recommend_budgets`: one recommendation per category and the running total of the amounts. */
  method RecommendAll(patterns: seq<CategoryStats>, approach: string) returns (recs: seq<Recommendation>, total: real)
    ensures recs == RecommendEach(patterns, approach)
    ensures total == Sum(RecommendedAmounts(recs))
  {
    recs := [];
    total := 0.0;
    var i := 0;
    while i < |patterns|
      invariant 0 <= i <= |patterns|
      invariant recs == RecommendEach(patterns[..i], approach)
      invariant total == Sum(RecommendedAmounts(recs))
    {
      var rec := Recommend(patterns[i], approach);
      ValuesAppend(recs, rec, AmountOf);
      SumAppend(RecommendedAmounts(recs), rec.recommendedAmount);
      total := total + rec.recommendedAmount;
      assert patterns[..i + 1][..i] == patterns[..i];
      recs := recs + [rec];
      i := i + 1;
    }
    assert patterns[..i] == patterns;
  }

  /**
    Priority: no spending is low priority; more than 500 a month is high;
    a category whose monthly std exceeds half its average is high, and one
    labelled highly variable is never low.
   */
  lemma PriorityFacts(s: CategoryStats)
    ensures s.monthlyAvg <= 0.0 ==> CalculatePriority(s) == Low
    ensures s.monthlyAvg > 500.0 ==> CalculatePriority(s) == High
    ensures s.monthlyAvg > 0.0 && s.monthlyStd > s.monthlyAvg * 0.5 ==> CalculatePriority(s) == High
    ensures s.monthlyAvg > 0.0 && HighVariability(s) ==> CalculatePriority(s) != Low
  {
    if s.monthlyAvg > 0.0 {
      RatioAbove(s.monthlyStd, s.monthlyAvg, 0.5);
      RatioAbove(s.monthlyStd, s.monthlyAvg, 0.3);
    }
  }

  lemma RatioAbove(x: real, y: real, c: real)
    requires y > 0.0
    ensures x > y * c ==> x / y > c
  {
    if x > y * c {
      DivStrict(y * c, x, y);
      assert y * c / y == c;
    }
  }

  /**
    The multiplier table: within an approach, decreasing <= stable <=
    increasing; for a trend, conservative < balanced < flexible; an unknown
    approach falls back to the balanced row.
   */
  lemma MultiplierTable(approach: string, t: Trend)
    ensures Multiplier(approach, Decreasing) <= Multiplier(approach, Stable) <= Multiplier(approach, Increasing)
    ensures Multiplier("conservative", t) < Multiplier("balanced", t) < Multiplier("flexible", t)
    ensures approach != "conservative" && approach != "flexible" ==> Multiplier(approach, t) == Multiplier("balanced", t)
  {
  }

  /**
    For non-negative statistics the recommendation is at least 90% of the
    monthly average and at most 135% of it plus half the monthly std, up to
    the cent rounding; with no variability there is no buffer.
   */
  lemma RecommendedAmountBounds(s: CategoryStats, approach: string)
    requires s.monthlyAvg >= 0.0 && s.monthlyStd >= 0.0
    ensures s.monthlyAvg * 0.9 - 0.005 < RecommendedAmount(s, approach)
    ensures RecommendedAmount(s, approach) <= s.monthlyAvg * 1.35 + s.monthlyStd * 0.5 + 0.005
    ensures s.monthlyStd == 0.0 ==> RecommendedAmount(s, approach) == RoundTo(s.monthlyAvg * Multiplier(approach, s.trend), 2)
  {
    var m := Multiplier(approach, s.trend);
    MulMono(0.9, m, s.monthlyAvg);
    MulMono(m, 1.35, s.monthlyAvg);
    var raw := s.monthlyAvg * m;
    RoundCentsError(if s.monthlyStd > 0.0 then raw + s.monthlyStd * 0.5 else raw);
  }

  /**
    The justification opens with the trend, mentions the buffer exactly for
    highly variable categories and the approach exactly when it is
    conservative or flexible, and has at most four clauses.
   */
  lemma JustificationFacts(s: CategoryStats, recommended: real, approach: string, trend: Trend)
    ensures var parts := JustificationParts(s, recommended, approach, trend);
      && 1 <= |parts| <= 4
      && parts[0] == Say("Spending in this category is " + TrendName(trend))
      && (Say("includes buffer for high variability") in parts <==> HighVariability(s))
      && (Say("conservative approach applied") in parts <==> approach == "conservative")
      && (Say("flexible approach for comfort") in parts <==> approach == "flexible")
  {
    var parts := JustificationParts(s, recommended, approach, trend);
    var buffer, cons, flex := "includes buffer for high variability", "conservative approach applied", "flexible approach for comfort";
    assert buffer[0] == 'i' && cons[0] == 'c' && flex[0] == 'f';
    var trendLine := "Spending in this category is " + TrendName(trend);
    assert trendLine[0] == 'S';
    forall p | p in parts && p == Say(buffer) ensures HighVariability(s) {
    }
  }

  // ---------------------------------------------------------------- comparison with current budgets

  /** A stored budget; absent dictionary keys are None. */
  datatype CurrentBudget = CurrentBudget(name: Option<string>, category: Option<string>, amount: Option<real>)

  /** `'category' in budget and budget['category']`. */
  predicate Categorised(b: CurrentBudget)
  {
    b.category.Some? && b.category.value != ""
  }

  function BudgetName(b: CurrentBudget): string { GetOr(b.name, "Unknown") }

  /** `current_map`: amounts of categorised budgets keyed by budget name, a later budget overwriting an earlier one. */
  function CurrentMap(budgets: seq<CurrentBudget>): map<string, real>
  {
    if |budgets| == 0 then map[]
    else
      var b := budgets[|budgets| - 1];
      var m := CurrentMap(budgets[..|budgets| - 1]);
      if Categorised(b) then m[BudgetName(b) := GetOr(b.amount, 0.0)] else m
  }

  /** The names of the categorised budgets, in order, repeats included. */
  function CategorisedNames(budgets: seq<CurrentBudget>): seq<string>
  {
    if |budgets| == 0 then []
    else
      var b := budgets[|budgets| - 1];
      CategorisedNames(budgets[..|budgets| - 1]) + if Categorised(b) then [BudgetName(b)] else []
  }

  lemma {:induction false} CurrentMapKeys(budgets: seq<CurrentBudget>)
    ensures forall n :: n in CurrentMap(budgets) <==> n in CategorisedNames(budgets)
  {
    if |budgets| > 0 {
      CurrentMapKeys(budgets[..|budgets| - 1]);
    }
  }

  /** `sum(current_map.values())`, over the keys in insertion order. */
  function CurrentTotal(budgets: seq<CurrentBudget>): real
  {
    var m := CurrentMap(budgets);
    var names := Distinct(CategorisedNames(budgets));
    CurrentMapKeys(budgets);
    Sum(seq(|names|, i requires 0 <= i < |names| => m[names[i]]))
  }

  datatype Change = Change(category: string, current: real, recommended: real, difference: real, changePercentage: real)

  datatype Comparison = Comparison(
    totalCurrentBudget: real,
    totalRecommendedBudget: real,
    overallDifference: real,
    changes: seq<Change>)

  function ChangeFor(category: string, current: real, recommended: real): (c: Change)
    ensures current <= 0.0 ==> c.changePercentage == 0.0
  {
    var difference := recommended - current;
    Change(category, current, recommended, RoundTo(difference, 2),
      RoundTo(if current > 0.0 then difference / current * 100.0 else 0.0, 2))
  }

  function Changes(recs: seq<Recommendation>, current: map<string, real>): seq<Change>
  {
    if |recs| == 0 then []
    else
      var rec := recs[|recs| - 1];
      Changes(recs[..|recs| - 1], current)
      + if rec.category in current then [ChangeFor(rec.category, current[rec.category], rec.recommendedAmount)] else []
  }

  /** `_compare_with_current`. */
  function CompareWithCurrent(recs: seq<Recommendation>, budgets: seq<CurrentBudget>): Comparison
  {
    var totalCurrent := CurrentTotal(budgets);
    var totalRecommended := Sum(RecommendedAmounts(recs));
    Comparison(RoundTo(totalCurrent, 2), RoundTo(totalRecommended, 2),
      RoundTo(totalRecommended - totalCurrent, 2), Changes(recs, CurrentMap(budgets)))
  }

  /** `recommended >= current` exactly gives a non-negative difference and, for a positive current budget, a non-negative percentage. */
  lemma ChangeSign(category: string, current: real, recommended: real)
    ensures recommended >= current ==> ChangeFor(category, current, recommended).difference >= 0.0
    ensures recommended <= current ==> ChangeFor(category, current, recommended).difference <= 0.0
    ensures current > 0.0 && recommended >= current ==> ChangeFor(category, current, recommended).changePercentage >= 0.0
  {
    RoundZero(2);
    var d := recommended - current;
    if d >= 0.0 {
      RoundMonotone(0.0, d, 2);
      if current > 0.0 {
        assert d / current * 100.0 >= 0.0;
        RoundMonotone(0.0, d / current * 100.0, 2);
      }
    }
    if d <= 0.0 {
      RoundMonotone(d, 0.0, 2);
    }
  }

  /** c is the change of one of the recommendations whose category names a current budget. */
  predicate ChangeFrom(c: Change, recs: seq<Recommendation>, current: map<string, real>)
  {
    exists j :: 0 <= j < |recs| && recs[j].category in current
      && c == ChangeFor(recs[j].category, current[recs[j].category], recs[j].recommendedAmount)
  }

  /**
    The changes cover exactly the recommendations whose category names a
    current budget, in the order of the recommendations, each against that
    budget's amount.
   */
  lemma {:induction false} ChangesFacts(recs: seq<Recommendation>, current: map<string, real>)
    ensures |Changes(recs, current)| <= |recs|
    ensures forall i :: 0 <= i < |Changes(recs, current)| ==> ChangeFrom(Changes(recs, current)[i], recs, current)
    ensures forall j :: 0 <= j < |recs| && recs[j].category in current ==>
      ChangeFor(recs[j].category, current[recs[j].category], recs[j].recommendedAmount) in Changes(recs, current)
  {
    if |recs| > 0 {
      var recs' := recs[..|recs| - 1];
      ChangesFacts(recs', current);
      var cs' := Changes(recs', current);
      var cs := Changes(recs, current);
      forall i | 0 <= i < |cs'| ensures ChangeFrom(cs'[i], recs, current) {
        assert ChangeFrom(cs'[i], recs', current);
        var j :| 0 <= j < |recs'| && recs'[j].category in current
          && cs'[i] == ChangeFor(recs'[j].category, current[recs'[j].category], recs'[j].recommendedAmount);
        assert recs[j] == recs'[j];
      }
      forall j | 0 <= j < |recs| && recs[j].category in current
        ensures ChangeFor(recs[j].category, current[recs[j].category], recs[j].recommendedAmount) in cs
      {
        if j < |recs'| {
          assert recs[j] == recs'[j];
        }
      }
    }
  }

  lemma CurrentMapSkips(budgets: seq<CurrentBudget>, b: CurrentBudget)
    requires !Categorised(b)
    ensures CurrentMap(budgets + [b]) == CurrentMap(budgets)
    ensures CategorisedNames(budgets + [b]) == CategorisedNames(budgets)
  {
    assert (budgets + [b])[..|budgets|] == budgets;
  }

  /** A stored budget without a category is ignored by the comparison. */
  lemma CompareIgnoresUncategorised(recs: seq<Recommendation>, budgets: seq<CurrentBudget>, b: CurrentBudget)
    requires !Categorised(b)
    ensures CompareWithCurrent(recs, budgets + [b]) == CompareWithCurrent(recs, budgets)
  {
    CurrentMapSkips(budgets, b);
  }

  /** With no stored budgets every total is the recommended one and there are no changes. */
  lemma CompareWithNoBudgets(recs: seq<Recommendation>)
    ensures var c := CompareWithCurrent(recs, []);
      && c.totalCurrentBudget == 0.0
      && c.overallDifference == c.totalRecommendedBudget
      && c.changes == []
  {
    RoundZero(2);
    var m: map<string, real> := map[];
    ChangesEmpty(recs, m);
  }

  lemma {:induction false} ChangesEmpty(recs: seq<Recommendation>, m: map<string, real>)
    requires m == map[]
    ensures Changes(recs, m) == []
  {
    if |recs| > 0 {
      ChangesEmpty(recs[..|recs| - 1], m);
    }
  }

  // ---------------------------------------------------------------- recommend_budgets

  datatype BudgetReport =
    | GateFailed(error: Text, dataInfo: Verdict)
    | NoPatterns
    | Recommended(approach: string, recommendations: seq<Recommendation>, totalRecommendedBudget: real,
                  comparison: Comparison, analysisPeriodMonths: int)
  {
    predicate Success() { Recommended? }
  }

  /**
    `recommend_budgets(user, approach)`. The gate passes BUDGET_MIN_DAYS as
    the minimum number of transactions, as the source does.
   */
  method RecommendBudgets(num: Numerics, l: Rows, approach: string, budgets: seq<CurrentBudget>) returns (r: BudgetReport)
    ensures var v := CheckDataSufficiency(l, BudgetMinDays, BudgetMinDays, MinExpenses);
      && (r.GateFailed? <==> !v.sufficient)
      && (r.GateFailed? ==> r.dataInfo == v && r.error == Say("Insufficient data for budget recommendations: ") + v.reason)
    ensures !r.NoPatterns?
    ensures r.Recommended? ==>
      && r.approach == approach
      && |r.recommendations| == |Categories(Expenses(l))|
      && multiset(r.recommendations) == multiset(RecommendEach(PatternsOf(num, l, Categories(Expenses(l))), approach))
      && Descending(r.recommendations, AmountOf)
      && r.totalRecommendedBudget == Sum(RecommendedAmounts(r.recommendations))
      && r.comparison == CompareWithCurrent(r.recommendations, budgets)
  {
    var v := CheckDataSufficiency(l, BudgetMinDays, BudgetMinDays, MinExpenses);
    if !v.sufficient {
      return GateFailed(Say("Insufficient data for budget recommendations: ") + v.reason, v);
    }
    var patterns := AnalyzeSpendingPatterns(num, l);
    ExpensesHaveCategory(l);
    var recs, total := RecommendAll(patterns, approach);
    var sorted := SortDescending(recs, AmountOf);
    SortDescendingFacts(recs, AmountOf);
    AmountsOnGrid(patterns, approach);
    GridSum(RecommendedAmounts(recs), 2);
    RoundFixesGrid(total, 2);
    SumValuesPermutation(recs, sorted, AmountOf);
    r := Recommended(approach, sorted, RoundTo(total, 2), CompareWithCurrent(sorted, budgets), 6);
  }

  /** A sample that passes the gate has at least one expense, hence at least one category. */
  lemma ExpensesHaveCategory(l: Rows)
    requires CheckDataSufficiency(l, BudgetMinDays, BudgetMinDays, MinExpenses).sufficient
    ensures |Categories(Expenses(l))| > 0
  {
    var e := Expenses(l);
    assert Keys(e, CategoryKey)[0] in Categories(e);
  }

  /** Every recommended amount is a whole number of cents. */
  lemma AmountOnGrid(s: CategoryStats, approach: string)
    ensures OnGrid(RecommendedAmount(s, approach), 2)
  {
    var raw := s.monthlyAvg * Multiplier(approach, s.trend);
    RoundOnGrid(if s.monthlyStd > 0.0 then raw + s.monthlyStd * 0.5 else raw, 2);
  }

  lemma AmountsOnGrid(patterns: seq<CategoryStats>, approach: string)
    ensures var recs := RecommendEach(patterns, approach);
      forall i :: 0 <= i < |recs| ==> OnGrid(RecommendedAmounts(recs)[i], 2)
  {
    var recs := RecommendEach(patterns, approach);
    forall i | 0 <= i < |recs| ensures OnGrid(RecommendedAmounts(recs)[i], 2) {
      RecommendEachAt(patterns, approach, i);
      AmountOnGrid(patterns[i], approach);
    }
  }
}
