# Financial tracking ML service: the deterministic rule layer

This project models, in Dafny, the rule layer of the machine-learning service of the Financial_tracking_app
repository. That layer sits around the statistical libraries:

- **the data-sufficiency gate** every analysis runs before it trusts a prediction;
- **the aggregations** of the data fetcher: income, expenses, net balance, daily average, spending by category;
- **the spending forecast wiring**: the daily series with missing days filled with 0, the average-and-trend
  fallback used when the time-series model fails, the response rows clamped at 0, the statistics, and the
  per-category forecast with its shortcut for categories active on fewer than seven days;
- **the anomaly rules**: the rolling-window features, the severity from the z-score, the reason clauses, the
  ranking by anomaly score, the statistics, and the per-category interquartile-range outliers;
- **the budget rules**: per-category statistics and half-over-half trend, the approach/trend multiplier table,
  the safety buffer, priorities, justifications, the comparison with current budgets, and the proportional
  allocation of a fixed total with its normalisation;
- **the goal model**: monthly savings statistics and the consistency score, months required, the achievement
  probability with its deadline and horizon factors and its 5–95 clamp, status bands, recommendations, and the
  overall assessment of all goals;
- **the insights aggregation**: the gate, the context gathered from the four analyses (each failing
  independently), the prompt handed to the text generator, the rule-based insights written when the generator
  fails, and the `context_used` record.

Each Python service is a Dafny module:

- `DataFetcher` (`data_fetcher.dfy`);
- `Forecast`, `Anomaly`, `Goal` and `Insights`;
- `Budget` and `BudgetAllocation` (`budget.dfy` and `budget_allocation.dfy`, for `optimize_budget_allocation`).

Shared definitions have their own modules:

- `Ledger`: transactions, grouping by day, month and category, totals;
- `Numeric`: sums, means, variance, rounding;
- `Sorting`: the stable descending sort;
- `Texts`: messages as pieces of text and numbers;
- `Config`: the thresholds of `ml_config.py`;
- `Options`.

Operations that loop in the source are methods with loop invariants, each proved equal to a recursive
specification function. The properties the services promise are proved as lemmas about those functions.

How the model maps the program:

- A transaction is `Ledger.Transaction(at, amount, kind, category, description)`. `at` is epoch seconds;
  calendar days, months and weekdays are derived from it with the civil-from-days algorithm. pandas counts
  weekdays with Monday as 0.
- A DataFrame of transactions is a `seq<Transaction>` in date order.
- Every fetch uses the fetcher's default `use_all_data=True`, so every analysis sees the whole history. The
  `days` and `months` arguments only scale averages or appear in the output.
  - `get_financial_summary(user, 30)` sums the whole history and divides expenses by 30.
  - `analyze_spending_patterns` sees the rows the budget gate has just passed. So
    `Budget.RecommendBudgets` never takes the "no patterns" branch.
- Results that may be NaN in pandas use `Numeric.Float = Real(value) | NaN`:
  - the standard deviation of one value;
  - the mean of an empty forecast;
  - the trend percentage that follows from it.
- Python's `x > k` on a NaN is false. The model writes that out.
- Messages are `Texts.Text`, a sequence of literal pieces and number pieces: `Int`, `Fixed(x, digits)`,
  `Signed(x, digits)`, `Repr`.
- The library calls are parameters:
  - the square root and quantile are `Numeric.Numerics`, constrained by the ghost predicate `Lawful`;
  - the time-series fit is `Forecast.Fit`;
  - the isolation forest is `Anomaly.Forest`, a flag and score per row;
  - the text generator is `Text -> Option<string>`, where None means the call raised;
  - today's date is `Goal.Date`.
- In `Insights`, each analysis the context gathers is an `Insights.Outcome`: the dictionary the service
  returned, or `Raised`.

Where the code's names or comments suggest otherwise, the model follows what the code computes:

- The weekend rule of the anomaly reasons (commented `# Weekend` at ml-service/services/anomaly_service.py:189) tests weekday 6 or 0.
  pandas counts Monday as 0, so the rule covers Sunday and Monday, not Saturday and Sunday
  (`Anomaly.MondayIsWeekend`).
- The context's `has_data` reads as "the user has data", but it is set as soon as the summary fetch returns, even for an empty window.
  The empty-window dictionary still has five keys, so it is truthy (`Insights.EmptyWindowHasData`).

## Model

| member | source | states |
|---|---|---|
| DataFetcher.CheckDataSufficiency | ml-service/database/data_fetcher.py:14-66 | An empty sample gives the fixed "No transaction data found" verdict with zero counts and no dates. Otherwise: the span is at least one day; the totals are the row and expense counts; sufficient exactly when all three thresholds are met; sufficient exactly when the reason is "Data is sufficient"; oldest date ≤ newest date. |
| DataFetcher.Judge | ml-service/database/data_fetcher.py:43-63 | Sufficient iff days, transactions and expenses all reach their minimums; sufficient iff the reason is the "sufficient" message; the measured values are reported unchanged. |
| DataFetcher.Span | ml-service/database/data_fetcher.py:39 | The inclusive day span of a non-empty sample is at least 1. |
| DataFetcher.ExpenseCount | ml-service/database/data_fetcher.py:41 | The expense count never exceeds the row count. |
| DataFetcher.JoinedReasonsDiffer | ml-service/database/data_fetcher.py:50-60 | A non-empty list of failure clauses, joined with "; ", is never the "Data is sufficient" message. |
| DataFetcher.ReasonsExact | ml-service/database/data_fetcher.py:50-56 | Each failure clause appears iff its check fails and carries the measured and required values. The number of clauses is the number of failed checks. The days clause comes first and the expenses clause last. |
| DataFetcher.LoweringOneMeasure | ml-service/database/data_fetcher.py:44-56 | At the thresholds the verdict is sufficient. One below on a single measure makes it insufficient, with exactly that measure's clause as the reason. |
| DataFetcher.SufficiencyMonotone | ml-service/database/data_fetcher.py:39-48 | Appending rows never makes a sufficient sample insufficient. |
| DataFetcher.SpendingByCategory | ml-service/database/data_fetcher.py:218-243 | The keys are exactly the categories of the expense rows. |
| DataFetcher.SpendingByCategoryTotal | ml-service/database/data_fetcher.py:237-241 | The per-category totals add up to the total expenses. |
| DataFetcher.SpendingIgnoresNonExpenses | ml-service/database/data_fetcher.py:237-241 | Adding an income (or other non-expense) row leaves the spending by category unchanged. |
| DataFetcher.FinancialSummary | ml-service/database/data_fetcher.py:249-286 | The net balance is income minus expenses, which are the totals of the income and expense rows. The count is the row count. The daily average is expenses / days when days > 0, else 0. The category breakdown is absent exactly for an empty sample. |
| Ledger.DayOfWeek | ml-service/services/anomaly_service.py:35 | The weekday lies in 0..6, and day 0 of the epoch (a Thursday) is 3, so Monday is 0. |
| Ledger.OfKindMembers | ml-service/database/data_fetcher.py:41 | The expense (income) filter keeps exactly the rows of that type. |
| Sorting.SortDescendingFacts | ml-service/services/budget_service.py:204-205 | The sort by amount with reverse=True yields a non-increasing arrangement that is a permutation of its input. |
| Texts.CapitalizeFixes | ml-service/services/budget_service.py:261 | `capitalize()` leaves unchanged a message that already starts with a capital and has no other capitals. |
| Forecast.PrepareData | ml-service/services/forecast_service.py:19-68 | No series iff there are no expense rows. Otherwise the series runs over the consecutive days (`DayRange`) from the first to the last expense day, and each day holds that day's expense total. |
| Forecast.SeriesTotal | ml-service/services/forecast_service.py:45-61 | The daily series adds up to the total expenses. |
| Forecast.SeriesZeroFill | ml-service/services/forecast_service.py:52-61 | Every expense day lies inside the series, and a day inside it with no expense holds 0. |
| Forecast.Tail | ml-service/services/forecast_service.py:141 | `tail(k)`: a suffix of the frame, in order: the last min(k, n) rows for k ≥ 0, and all but the first −k rows (or none) for a negative k, as pandas does. |
| Forecast.FallbackFrame | ml-service/services/forecast_service.py:160-175 | The fallback frame has exactly `forecast_days` rows. |
| Forecast.SimpleForecast | ml-service/services/forecast_service.py:148-175 | The loop builds exactly the fallback frame: each day's prediction is average × (1 + trend × i/30), clamped at 0, with a band one standard deviation wide. |
| Forecast.FallbackTrendSign | ml-service/services/forecast_service.py:153-158 | Over more than seven days with a positive average, the fallback trend is non-negative iff the last week's mean is at least the overall mean. |
| Forecast.RampDirection | ml-service/services/forecast_service.py:165-167 | The fallback predictions rise day over day for a non-negative trend and fall for a non-positive one. |
| Forecast.FallbackPointsOrdered | ml-service/services/forecast_service.py:163-185 | The fallback days follow the last observed day. Every response row satisfies 0 ≤ lower ≤ predicted ≤ upper. |
| Forecast.FlatHistory | ml-service/services/forecast_service.py:148-175 | A constant history c of at least two days forecasts c with a zero-width band on every day. The trend percentage is 0 when c > 0. |
| Forecast.Clamp2Monotone | ml-service/services/forecast_service.py:182-184 | `max(0, round(x, 2))` is non-negative and monotone. |
| Forecast.BuildResponse | ml-service/services/forecast_service.py:177-185 | The loop builds exactly the response rows (`Points`, one per frame row): each keeps its date, and all three amounts are non-negative. |
| Forecast.StatisticsOf | ml-service/services/forecast_service.py:187-201 | The forecast average and total are non-negative. The data points and period are reported. The historical average is the rounded mean of the series. |
| Forecast.TrendFollowsForecast | ml-service/services/forecast_service.py:188-197 | With a positive historical mean and a non-empty forecast, the trend is a number whose sign follows forecast mean versus historical mean. |
| Forecast.FittedLength | ml-service/services/forecast_service.py:135-141 | A fitted frame at least `forecast_days` long yields exactly `forecast_days` response rows. |
| Forecast.TrainAndPredict | ml-service/services/forecast_service.py:70-216 | The fixed error iff there are no expenses. A span under 30 days gives the span error with the data info. Otherwise the response and statistics of the fitted tail, or of the fallback frame when the fit fails, which then has `forecast_days` rows. `forecast_days` is any integer: with a failed fit and `forecast_days` ≤ 0 the fallback builds no rows and the call fails with the `'yhat'` KeyError text; a fitted frame is cut by `Tail`. Every response amount is non-negative. |
| Forecast.CategoryEntry | ml-service/services/forecast_service.py:256-299 | The entry fails exactly when the category is active on at least seven days and its fit fails. Fewer than seven days takes the mean-times-days shortcut, predicting round(mean × `forecast_days`, 2) for any integer `forecast_days`, negative ones included. The historical total is the rounded category total. A fitted prediction is non-negative. |
| Forecast.FewExpensesShortcut | ml-service/services/forecast_service.py:256-263 | A category with fewer than seven rows takes the shortcut, predicting round(mean amount × `forecast_days`, 2). |
| Forecast.ShortcutTotal | ml-service/services/forecast_service.py:261 | The shortcut's predicted total is round(mean amount × days, 2). |
| Forecast.FittedDailyMean | ml-service/services/forecast_service.py:296 | The mean of the daily category series is the category total over its active days. |
| Forecast.GetCategoryForecast | ml-service/services/forecast_service.py:218-309 | The loop over categories equals `CategoryForecastOf`, for any integer `forecast_days`: it stops at the first failing fit. |
| Forecast.CollectStopsAtFailure | ml-service/services/forecast_service.py:275-309 | Once a category's fit has failed, later categories do not change the failed result. |
| Forecast.CollectKeys | ml-service/services/forecast_service.py:243-305 | A successful result has an entry for exactly the listed categories and reports `forecast_days`. |
| Forecast.CollectValues | ml-service/services/forecast_service.py:243-305 | Each entry of a successful result is that category's own entry. |
| Forecast.CollectFailure | ml-service/services/forecast_service.py:275-309 | A failure carries the error of a category with at least seven active days whose fit failed. |
| Forecast.ShortCategoriesNeverFail | ml-service/services/forecast_service.py:256-263 | When every category is active on fewer than seven days, the per-category forecast succeeds. |
| Forecast.CategoryForecastFacts | ml-service/services/forecast_service.py:218-309 | Failure means no rows, or a failed fit of a category active on at least seven days. Success has exactly the expense categories as keys, each with its own entry. |
| Anomaly.Window | ml-service/services/anomaly_service.py:42 | The rolling window of row i ends at row i and holds min(i+1, 7) values. |
| Anomaly.RollingMeanBounds | ml-service/services/anomaly_service.py:42 | Every rolling mean lies between the smallest and largest amount. |
| Anomaly.PrepareFeatures | ml-service/services/anomaly_service.py:19-57 | The loops build exactly the feature rows `FeaturesOf` (one per transaction, computed from that row and its rolling window), for both the more-than-seven and the small-sample case. |
| Anomaly.ConstantAmountsRatioOne | ml-service/services/anomaly_service.py:41-44 | With more than seven equal non-zero amounts, every rolling mean is that amount, the ratio is 1, and the deviation clause cannot fire. |
| Anomaly.SmallSampleNoDeviation | ml-service/services/anomaly_service.py:45-48 | With at most seven rows, every row's rolling mean is the overall mean and its ratio is 1. |
| Anomaly.GenerateAnomalyReason | ml-service/services/anomaly_service.py:174-197 | The method appends the clauses in the source's order and returns exactly the joined reason. |
| Anomaly.ReasonRules | ml-service/services/anomaly_service.py:177-197 | The "x times" clause appears iff amount > 3×mean or > 2×mean. The deviation clause appears iff the ratio > 3. The weekend clause appears iff it is weekday 6 or 0 with an above-mean amount. At most three clauses; the generic reason iff none fires. |
| Anomaly.MondayIsWeekend | ml-service/services/anomaly_service.py:190-192 | Weekday 0 (Monday) with an above-mean amount gets the weekend clause. Weekday 5 (Saturday) does not. |
| Anomaly.SeverityMonotone | ml-service/services/anomaly_service.py:144 | A larger z-score never gives a lower severity. |
| Anomaly.AtMostMeanIsLow | ml-service/services/anomaly_service.py:136-144 | An amount at or below the mean, or a zero standard deviation, is low severity. |
| Anomaly.HighSeverityMeaning | ml-service/services/anomaly_service.py:136-144 | With a positive std: high iff amount > mean + 3·std; not low iff amount > mean + 2·std. |
| Anomaly.Flagged | ml-service/services/anomaly_service.py:121-125 | The flagged candidates are no more than the rows. |
| Anomaly.FlaggedMembers | ml-service/services/anomaly_service.py:121-125 | A candidate is flagged iff the forest marks its row anomalous, with that row's features and score. |
| Anomaly.RankedAscending | ml-service/services/anomaly_service.py:125-128 | The ranking is a permutation of the flagged candidates in ascending score, most anomalous first. |
| Anomaly.BuildAnomalyList | ml-service/services/anomaly_service.py:131-146 | The loop builds exactly the response rows `AnomaliesOf`, one per ranked candidate. |
| Anomaly.AnomalyScoresAscending | ml-service/services/anomaly_service.py:128-143 | The rounded scores of the response are still ascending. |
| Anomaly.PercentageRange | ml-service/services/anomaly_service.py:152 | The anomaly percentage lies in [0, 100]. |
| Anomaly.StatisticsFacts | ml-service/services/anomaly_service.py:148-157 | Detected ≤ total = expense count, and the percentage is in [0, 100]. The anomalous spending is the rounded sum of the flagged amounts. Both averages are 0 when nothing is flagged. |
| Anomaly.DetectAnomalies | ml-service/services/anomaly_service.py:59-172 | Fails iff the gate (30 days, 30 transactions, 20 expenses) fails, with the prefixed reason and the verdict. Fails with the scaler's error iff the gate passes and some `amount_vs_mean` is infinite. Otherwise the response is built from the ranked candidates over at least 20 expenses, with the mean of the rolling-mean column (`RollingMeans`) and the amounts' std; it has one row per anomaly and ascending scores. |
| Anomaly.NonNegativeAmountsFinite | ml-service/services/anomaly_service.py:41-44 | With non-negative amounts no `amount_vs_mean` is infinite, since each window holds its own row's amount; the scaler's error then cannot occur. |
| Anomaly.Outside | ml-service/services/anomaly_service.py:239-242 | Only values outside the fences are kept, and no more of them than the sample holds. |
| Anomaly.OutsideExact | ml-service/services/anomaly_service.py:239-242 | Every value strictly outside the fences is kept, as often as it occurs in the sample, and no other value is. |
| Anomaly.QuartilesInsideFences | ml-service/services/anomaly_service.py:235-242 | A value between Q1 and Q3 is never an outlier. |
| Anomaly.OutsideNone | ml-service/services/anomaly_service.py:239-242 | When every value lies within the fences there are no outliers. |
| Anomaly.ConstantCategoryNoOutliers | ml-service/services/anomaly_service.py:230-251 | A category of two or more equal amounts has no outliers and a zero standard deviation. |
| Anomaly.CategoryAnomaliesFacts | ml-service/services/anomaly_service.py:224-251 | There is an entry exactly for the categories with at least five expenses. Each entry is that category's own analysis and counts no more outliers than rows. |
| Anomaly.GetCategoryAnomalies | ml-service/services/anomaly_service.py:199-261 | The loop over the expense categories computes exactly the category-anomaly result specified by `CategoryAnomalies`. |
| Budget.StatsOf | ml-service/services/budget_service.py:45-63 | The category's statistics carry its name and row count. |
| Budget.StdNaNIffSingleRow | ml-service/services/budget_service.py:56 | The amount standard deviation is NaN exactly for a category with a single row. |
| Budget.PatternsOf | ml-service/services/budget_service.py:42-65 | One statistics entry per category. |
| Budget.AnalyzeSpendingPatterns | ml-service/services/budget_service.py:17-69 | The loop computes exactly the per-category statistics over the expense categories. |
| Budget.CategoryHasRows | ml-service/services/budget_service.py:45-46 | Every listed category has rows. |
| Budget.TrendOfConstant | ml-service/services/budget_service.py:71-100 | Constant monthly spending is a stable trend. |
| Budget.TrendScaleInvariant | ml-service/services/budget_service.py:71-100 | Scaling every month by a positive factor leaves the trend unchanged. |
| Budget.MonthlySpendingTotal | ml-service/services/budget_service.py:49-50 | The monthly totals add up to the category total. |
| Budget.MeanBetweenMinMax | ml-service/services/budget_service.py:54-58 | The mean lies between the minimum and the maximum. |
| Budget.StatsFacts | ml-service/services/budget_service.py:52-63 | mean = total / count, and min ≤ median ≤ max. The mean is within [min, max]. The monthly std ≥ 0. One month gives std 0 and a monthly average equal to the total. |
| Budget.Multiplier | ml-service/services/budget_service.py:146-165 | Every multiplier lies in [0.9, 1.35]. |
| Budget.MultiplierTable | ml-service/services/budget_service.py:146-165 | Ordered decreasing ≤ stable ≤ increasing. Conservative < balanced < flexible. An unknown approach is balanced. |
| Budget.RecommendedAmountBounds | ml-service/services/budget_service.py:171-185 | The amount lies between 0.9·avg and 1.35·avg + std/2, up to half a cent. With zero std it is round(avg × multiplier, 2). |
| Budget.AmountOnGrid | ml-service/services/budget_service.py:185 | The recommended amount is a whole number of cents. |
| Budget.AmountsOnGrid | ml-service/services/budget_service.py:185-195 | Every recommendation's amount is a whole number of cents. |
| Budget.RecommendEach | ml-service/services/budget_service.py:170-202 | One recommendation per category. |
| Budget.RecommendAll | ml-service/services/budget_service.py:167-202 | The loop yields exactly those recommendations and their running total. |
| Budget.PriorityFacts | ml-service/services/budget_service.py:263-275 | A non-positive average is low priority. Above 500, or std/avg > 0.5, is high. High variability (std > 0.3·avg) is never low. |
| Budget.JustificationFacts | ml-service/services/budget_service.py:229-261 | One to four clauses. The trend clause comes first. The buffer clause appears iff variability is high. The approach clause appears iff the approach is conservative or flexible. |
| Budget.CurrentMapKeys | ml-service/services/budget_service.py:282-287 | The current-budget map has exactly the names of the budgets that have a category. |
| Budget.CurrentMapSkips | ml-service/services/budget_service.py:283-287 | A budget without a category changes neither the map nor its names. |
| Budget.ChangeFor | ml-service/services/budget_service.py:297-308 | A non-positive current budget reports a 0% change. |
| Budget.ChangeSign | ml-service/services/budget_service.py:297-308 | The difference has the sign of recommended minus current. The percentage is non-negative when raising a positive budget. |
| Budget.ChangesFacts | ml-service/services/budget_service.py:292-308 | No more changes than recommendations. Every change comes from a recommendation whose category has a current budget, and every such recommendation has its change. |
| Budget.ChangesEmpty | ml-service/services/budget_service.py:292-297 | With no current budgets there are no changes. |
| Budget.CompareIgnoresUncategorised | ml-service/services/budget_service.py:277-315 | A budget without a category does not change the comparison. |
| Budget.CompareWithNoBudgets | ml-service/services/budget_service.py:277-315 | With no budgets: the current total is 0, the overall difference is the recommended total, and there are no changes. |
| Budget.RecommendBudgets | ml-service/services/budget_service.py:102-227 | Fails iff the gate fails, with the prefixed reason and the verdict; the "no patterns" failure cannot occur. On success: the approach is echoed; one recommendation per expense category, sorted by amount descending; together they are a permutation of the per-category recommendations `RecommendEach` of the analysed patterns; the total is their sum; the comparison is against the current budgets. |
| Budget.ExpensesHaveCategory | ml-service/services/budget_service.py:116-144 | A sample that passes the budget gate has at least one expense category. |
| BudgetAllocation.PriorityFactor | ml-service/services/budget_service.py:360-365 | The priority adjustment lies in [0.9, 1.1]. |
| BudgetAllocation.InitialAllocations | ml-service/services/budget_service.py:349-372 | One allocation per category. |
| BudgetAllocation.AllocateEach | ml-service/services/budget_service.py:353-372 | The loop computes exactly the initial allocations. |
| BudgetAllocation.RescaleOne | ml-service/services/budget_service.py:378-381 | Rescaling keeps the category, percentage and priority, and leaves a whole number of cents. |
| BudgetAllocation.Normalized | ml-service/services/budget_service.py:374-381 | Normalisation keeps the number of allocations, rescaling each by the same factor (`Rescaled`). |
| BudgetAllocation.RescaleInPlace | ml-service/services/budget_service.py:376-381 | The in-place loop over the list yields exactly the rescaled allocations. |
| BudgetAllocation.RescaledValues | ml-service/services/budget_service.py:374-381 | The rescaled amounts are the rounded scaled amounts. |
| BudgetAllocation.NormalizedTotal | ml-service/services/budget_service.py:374-381 | With a positive initial total, the normalised amounts add up to the target within half a cent per category. |
| BudgetAllocation.NoSpendingNoAllocation | ml-service/services/budget_service.py:349-381 | With no positive spending, every category is allocated 0 at 0%. |
| BudgetAllocation.AllocationNonNegative | ml-service/services/budget_service.py:349-381 | A non-negative budget over non-negative averages allocates non-negative amounts. |
| BudgetAllocation.ProportionMonotone | ml-service/services/budget_service.py:357 | Spending more never gives a smaller proportion. |
| BudgetAllocation.AllocationMonotone | ml-service/services/budget_service.py:355-365 | With equal priority, the category spending more gets at least as much. |
| BudgetAllocation.ShareMonotone | ml-service/services/budget_service.py:357-370 | The category spending more gets at least as large a percentage of the total. |
| BudgetAllocation.OptimizeBudgetAllocation | ml-service/services/budget_service.py:326-399 | Fails with "Insufficient spending data" iff there are no expense categories. On success: one allocation per category; sorted descending; a permutation of the normalised allocations with the same total, which is within half a cent per category of the target when the initial total is positive. |
| Goal.MonthStats | ml-service/services/goal_service.py:43-60 | One statistics entry per month, each that month's income, expenses, savings and rate. |
| Goal.CollectMonthlyStats | ml-service/services/goal_service.py:46-60 | The loop over the months of `df['month'].unique()` appends exactly one entry per listed month, that month's statistics, in order. |
| Goal.MonthlyKindTotal | ml-service/services/goal_service.py:47-51 | The monthly income (expense) totals add up to the total income (expenses). |
| Goal.MonthlyTotals | ml-service/services/goal_service.py:47-60 | The month entries' incomes and expenses add up to the totals. |
| Goal.SavingsSum | ml-service/services/goal_service.py:52 | The summed savings are summed income minus summed expenses. |
| Goal.AverageSavings | ml-service/services/goal_service.py:64-67 | The average monthly saving is (income − expenses) / number of months. |
| Goal.CalculateSavingsRate | ml-service/services/goal_service.py:18-91 | The method computes `SavingsStatsOf`: the monthly averages of income, expenses and savings, the savings rate, the month count, and the corrected consistency score (a single month counts as steady, see Findings). |
| Goal.EmptyHistorySavings | ml-service/services/goal_service.py:34-41 | An empty history gives all-zero statistics. |
| Goal.ConsistencyRange | ml-service/services/goal_service.py:70-72 | The consistency lies in [0, 100]. It is 0 when the average saving is not positive. |
| Goal.SteadySavingsConsistent | ml-service/services/goal_service.py:70-72 | Equal positive monthly savings score 100. |
| Goal.SavingsStatsRange | ml-service/services/goal_service.py:72-80 | The reported (corrected) consistency is in [0, 100], and the months analysed are reported. |
| Goal.RequiredMonths | ml-service/services/goal_service.py:131-143 | Infinite iff contribution ≤ 0. Otherwise capped at 9999, positive for a positive remainder, and months × contribution = remainder below the cap. |
| Goal.CompletionMonths | ml-service/services/goal_service.py:132-143 | A completion date exists only for a positive contribution. |
| Goal.ContributionRatio | ml-service/services/goal_service.py:207-211 | The ratio is at most 2, and non-negative for a non-negative contribution against positive savings. |
| Goal.DeadlineFactor | ml-service/services/goal_service.py:220-238 | The deadline factor lies in [0, 1.1]. |
| Goal.DeadlineShare | ml-service/services/goal_service.py:229-232 | Missing the deadline scales the probability strictly between 0 and 1. |
| Goal.HorizonFactor | ml-service/services/goal_service.py:240-244 | The horizon factor lies in [0.7, 1]. |
| Goal.ClampFacts | ml-service/services/goal_service.py:246-247 | The clamp lands in [5, 95], is the identity inside, and maps any value outside to the nearer bound. |
| Goal.AdjustForDeadline | ml-service/services/goal_service.py:220-238 | The deadline step multiplies by the deadline factor. |
| Goal.AdjustForHorizon | ml-service/services/goal_service.py:240-244 | The horizon step multiplies by the horizon factor. |
| Goal.CalculateAchievementProbability | ml-service/services/goal_service.py:197-247 | The stepwise method computes exactly the probability function, always in [5, 95]. |
| Goal.AchievementProbabilityRange | ml-service/services/goal_service.py:246-247 | The probability always lies in [5, 95]. |
| Goal.NoContributionFloor | ml-service/services/goal_service.py:198-247 | With no contribution and a future deadline, the probability is the floor, 5. |
| Goal.PastDeadlineTenth | ml-service/services/goal_service.py:227-228 | A deadline this month or earlier multiplies by 0.1. |
| Goal.ShortGoalNoDeadline | ml-service/services/goal_service.py:207-218 | Without a deadline and within three years, the probability is the clamped base × consistency factor. |
| Goal.StatusBands | ml-service/services/goal_service.py:166-174 | The four status bands: ≥ 80, [50, 80), [30, 50), < 30. |
| Goal.StatusMonotone | ml-service/services/goal_service.py:166-174 | A higher probability never gets a worse status. |
| Goal.GenerateRecommendations | ml-service/services/goal_service.py:249-300 | The method appends exactly the specified recommendations. |
| Goal.RecommendationRules | ml-service/services/goal_service.py:257-300 | The increase, too-aggressive, milestone and unused-capacity recommendations each appear exactly when their rule fires. The deadline one appears exactly when a deadline is set, would be missed, and is not in the current month, and then names the remaining amount over the months left. At most five. |
| Goal.DeadlineThisMonth | ml-service/services/goal_service.py:280-286 | A deadline this month adds no deadline recommendation: the division by zero is swallowed. |
| Goal.IncreaseOrAggressive | ml-service/services/goal_service.py:260-271 | With non-negative savings, "increase" and "too aggressive" never appear together. |
| Goal.RoundedMonthsRange | ml-service/services/goal_service.py:180 | The reported months lie in [0, 9999]. |
| Goal.PredictGoalAchievement | ml-service/services/goal_service.py:93-195 | Achieved iff nothing remains. An error iff the target is 0 with a positive remainder. Otherwise: probability in [5, 95]; months unknown iff no contribution, else within [0, 9999]; realistic iff contribution ≤ 1.2 × average saving. |
| Goal.ReachedGoal | ml-service/services/goal_service.py:119-129 | A reached goal is achieved with probability 100, whatever the contribution and deadline. |
| Goal.ImpliedMonthly | ml-service/services/goal_service.py:356-374 | The implied contribution is non-negative. It is positive iff a future deadline with a positive remainder exists. |
| Goal.ContributionFor | ml-service/services/goal_service.py:356-374 | The method computes exactly the implied contribution. |
| Goal.AnalyzeEach | ml-service/services/goal_service.py:349-395 | The loop yields exactly the analysed goals (`AnalyzedGoals`, one per goal) and the sum of their implied contributions (`ImpliedMonthlies`). |
| Goal.ProbabilitiesRange | ml-service/services/goal_service.py:398-399 | The mean of the goals' probabilities (`GoalProbabilities`) lies in [0, 100]. |
| Goal.NegativeSavingsOvercommitted | ml-service/services/goal_service.py:401-403 | With negative average savings, any goals are overcommitted. |
| Goal.NoCommitmentBands | ml-service/services/goal_service.py:397-412 | Without deadlines and with non-negative savings there is no commitment, so the goals are never overcommitted. The bands are then on track ≥ 70 and needs adjustment [40, 70). |
| Goal.AnalyzeAllGoals | ml-service/services/goal_service.py:302-433 | "No active goals" iff there are no goals. A failed gate gives the prefixed reason and the goal count. Otherwise: each goal analysed against the savings statistics with the corrected consistency; the commitment is the rounded sum of the implied contributions, the ratio is it over the average saving, the assessment follows `AssessmentOf` and the message matches it. |
| Goal.OneMonthHistoryFinding | ml-service/services/goal_service.py:71-79 | As written: one month of history makes the consistency NaN, and a goal with no contribution then gets the maximum probability 95. Corrected: the consistency is 100 and the probability the floor, 5. |
| Insights.SummaryPart | ml-service/services/insights_service.py:220-224 | The summary is present iff its fetch returned. |
| Insights.ForecastPart | ml-service/services/insights_service.py:226-233 | The forecast statistics are present iff the forecast returned success. |
| Insights.AnomaliesPart | ml-service/services/insights_service.py:235-242 | The anomaly statistics are present iff detection returned success. |
| Insights.BudgetPart | ml-service/services/insights_service.py:244-251 | The budget report is present iff recommendation returned success. |
| Insights.GoalsPart | ml-service/services/insights_service.py:253-260 | The goals analysis is present iff it returned success, including "no active goals". |
| Insights.ContextOf | ml-service/services/insights_service.py:215-262 | The gathered context is coherent: every flag and positive count comes with its payload. |
| Insights.GatherFinancialContext | ml-service/services/insights_service.py:215-266 | The step-by-step method yields exactly that context, and it is coherent. has_data iff the summary fetch returned. Each flag or count is set only by a successful analysis, else False/0. |
| Insights.OutcomesIndependent | ml-service/services/insights_service.py:226-260 | Each context field depends only on its own analysis, so one failing analysis never disturbs another. |
| Insights.EmptyWindowHasData | ml-service/services/insights_service.py:221-224 | An empty summary window still counts as data. The fallback then reports a $0.00 shortfall and no spending to cut, and without goals the generic caution. |
| Insights.GatedHistorySummary | ml-service/services/insights_service.py:44-71 | When the summary reads the gated history, it counts at least 30 transactions, has the category breakdown, and the health line is present. |
| Insights.HealthLineFromRows | ml-service/services/insights_service.py:391-402 | Over non-negative amounts there is exactly one health line. A positive balance quotes a rate in (0, 100]; any other balance the excess of expenses over income. |
| Insights.SavingsRateRange | ml-service/services/insights_service.py:398-399 | A positive net no larger than income is a rate in (0, 100]. |
| Insights.TrendRules | ml-service/services/insights_service.py:407-418 | Upward iff the trend > 10. Downward iff < −10, quoting a drop > 10. NaN is stable. Both averages are quoted. |
| Insights.ReductionQuote | ml-service/services/insights_service.py:455-465 | The reduction advice appears iff a summary with a positive daily average exists. It quotes 15% of the average per day (positive) and 30 times that per month. |
| Insights.CautionRules | ml-service/services/insights_service.py:473-484 | With goals: one caution iff overcommitted, exactly when the goals insight is the over-capacity one. Without goals: always one caution, the deficit one iff the net balance is negative, quoting a positive deficit. |
| Insights.GoalAdviceAgrees | ml-service/services/insights_service.py:429-471 | The emergency-fund advice appears iff the "set goals" insight does. |
| Insights.AppendHealth | ml-service/services/insights_service.py:391-402 | The method appends exactly the health lines. |
| Insights.AppendInsights | ml-service/services/insights_service.py:406-443 | The method appends exactly the trend, anomaly and goal insights. |
| Insights.AppendRecommendations | ml-service/services/insights_service.py:447-471 | The method appends exactly the budget, reduction and savings advice. |
| Insights.AppendCaution | ml-service/services/insights_service.py:475-484 | The method appends exactly the caution lines. |
| Insights.GenerateBasicInsights | ml-service/services/insights_service.py:384-486 | The method yields exactly the specified lines, joined with newlines. |
| Insights.HeadersInOrder | ml-service/services/insights_service.py:384-486 | The four headers appear in order health, insights, recommendations, caution, at fixed positions and nowhere else, among 9 to 12 lines. |
| Insights.BuildInsightsPrompt | ml-service/services/insights_service.py:268-321 | The method yields exactly the specified blocks and their concatenated text. |
| Insights.PromptSections | ml-service/services/insights_service.py:268-321 | The prompt opens with the advisor preamble and ends with the requests. Each data section is present iff its flag is set or its count is positive. |
| Insights.PromptEndsWithRequests | ml-service/services/insights_service.py:313-321 | The prompt text is the text of the earlier blocks followed by the requests' text. |
| Insights.GenerateComprehensiveInsights | ml-service/services/insights_service.py:33-118 | Fails iff the gate (30 days, 30 transactions, 10 expenses) fails, with the prefixed reason and the verdict. "No financial data" iff the gate passed and the summary fetch raised. Otherwise: the generator's reply to the prompt, or the rule-based insights with `ai_unavailable` iff the generator raised; `context_used` from the context. |

## Left out

- Database access (`get_user_transactions`, `get_user_budgets`, `get_user_goals`, `get_user_accounts`, the connection module): the fetched rows, budgets and goals are parameters.
- Within a fetch, the category lookup and the "No description" default: they happen inside the database query.
- The statistical libraries:
  - Prophet's fit and prediction are a `Fit` parameter;
  - IsolationForest and StandardScaler are a per-row `Forest` parameter;
  - the square root and pandas' interpolated quantile are `Numerics` parameters.
  - The feature columns handed to the forest (hour, month, day of month) are computed but serve only the forest.
- The text generator: it is a parameter. The API-key check and model selection of the constructor are left out, as are `generate_specific_insight`, `generate_quick_insight` and the `_get_*_context` helpers. They only format text for the generator.
- Floating point arithmetic:
  - Amounts are exact reals.
  - Python's `round` (half to even, on binary floats) is modelled as half-up rounding on exact reals (`Numeric.RoundTo`).
  - Number formatting (`:.2f`, `:+.1f`) is kept abstract as `Fixed`/`Signed` text pieces.
- Exceptions thrown by pandas or the database inside a service: the catch-all handlers return `{"success": False, "error": str(e)}`. The model keeps only the exceptions with a modelled cause:
  - a failed fit;
  - the division by zero of a deadline this month;
  - a failed call seen from the insights context (`Outcome.Raised`).
- `Insights.GatherFinancialContext`: the outer `except` that returns `{"has_data": False}` is not modelled. Every inner call has its own handler, and the summary fetch catches its own errors.
- Dates are day numbers and month keys. `strftime`, `datetime.now()` (a `Goal.Date` parameter) and `relativedelta` are left out; they only format dates for the response.
- Order of tied anomaly scores: the model ranks with a stable sort, so tied rows keep their date order. pandas' `sort_values` defaults to quicksort, which does not promise that; only the ascending order and the permutation carry over.
- The `contamination` and `random_state` arguments of the forest: they only configure the forest parameter.
- The retry of a Prophet category fit with stderr redirected: a fit that fails after the retry is a failed fit.
- `main.py` (the HTTP routes) and `test_models.py` (a manual test script): they only call the services.
- Anomaly.DetectAnomalies: `period_days` and the means are reported as given. The response's date, category and description are copied from the row without further claims.
- Goal.CalculateSavingsRate: for a history within one calendar month the source's consistency score is NaN (pandas' std of one value); the model reports the corrected 100 instead, as recorded under Findings (`Goal.ConsistencyAsWritten`).
- Goal.SavingsStatsRange: the [0, 100] range is proved for the corrected consistency; the source's one-month NaN lies outside every range.
- Goal.AnalyzeAllGoals: the goals are analysed with the corrected consistency, so for a one-month history the model's probabilities are not the source's NaN-driven 95 (`Goal.ProbabilityAsWritten`).

## Findings

| source | as written | input that shows it | evidently intended | confidence | as-written member | corrected member |
|---|---|---|---|---|---|---|
| ml-service/services/goal_service.py:71-79 | pandas' `std()` of a single month's savings is NaN, so the consistency score is NaN. That NaN flows into `_calculate_achievement_probability`, where `max(5, min(95, nan))` is 95. | a history within one calendar month with positive savings, and a goal whose implied contribution is 0 (deadline in the future, nothing contributed) | a single month is perfectly steady: consistency 100, as `analyze_spending_patterns` treats a single month's std as 0. The no-contribution goal then gets probability 5 | not executed | Goal.ConsistencyAsWritten, Goal.ProbabilityAsWritten | Goal.ConsistencyScore, Goal.AchievementProbability |
