/** The data requirements every analysis is gated on (ml-service/config/ml_config.py). */
module Config {
  const MinDaysOfData: int := 30
  const MinTransactions: int := 30
  const MinExpenses: int := 20
  const MinCategoryTransactions: int := 5
  const ForecastMinDays: int := 30
  const AnomalyMinTransactions: int := 30
  const BudgetMinDays: int := 30
  const InsightsMinDays: int := 30
  const GoalsMinMonths: int := 1
  const SavingsAnalysisMonths: int := 6
  const ForecastPeriodDays: int := 30
}
