/**
  `optimize_budget_allocation`: a fixed total budget shared out in
  proportion to each category's monthly spending, adjusted by priority,
  normalised towards the target total and sorted by amount.
 */
module BudgetAllocation {
  import opened Numeric
  import opened Texts
  import opened Ledger
  import opened Sorting
  import opened Budget

  datatype Allocation = Allocation(category: string, allocatedAmount: real, percentageOfTotal: real, priority: Priority)

  datatype OptimizeReport =
    | OptimizeFailed(error: Text)
    | Optimized(totalBudget: real, allocation: seq<Allocation>, categoriesCovered: nat)

  function MonthlyAvgOf(s: CategoryStats): real { s.monthlyAvg }

  function AllocatedOf(a: Allocation): real { a.allocatedAmount }

  /** `sum(p["monthly_avg"] for p in patterns.values())`. */
  function TotalSpending(patterns: seq<CategoryStats>): real
  {
    Sum(Values(patterns, MonthlyAvgOf))
  }

  /** The priority adjustment: +10% for high priority, -10% for low. */
  function PriorityFactor(p: Priority): (r: real)
    ensures 0.9 <= r <= 1.1
  {
    match p case High => 1.1 case Low => 0.9 case Medium => 1.0
  }

  /** A category's share of the monthly spending; none when there is no positive spending. */
  function Proportion(s: CategoryStats, totalSpending: real): real
  {
    if totalSpending > 0.0 then s.monthlyAvg / totalSpending else 0.0
  }

  /** The budget times a share, adjusted by a priority, to the cent. */
  function PriorityShare(share: real, totalBudget: real, p: Priority): real
  {
    ScaledCents(totalBudget * share, PriorityFactor(p))
  }

  /** The budget times the category's share, adjusted by its priority, to the cent. */
  function AllocatedAmount(s: CategoryStats, totalBudget: real, totalSpending: real): real
  {
    PriorityShare(Proportion(s, totalSpending), totalBudget, CalculatePriority(s))
  }

  /** The category's share as a percentage, to the cent. */
  function SharePercent(s: CategoryStats, totalSpending: real): real
  {
    RoundTo(Proportion(s, totalSpending) * 100.0, 2)
  }

  /** The allocation of one category before normalisation. */
  function InitialAllocation(s: CategoryStats, totalBudget: real, totalSpending: real): Allocation
  {
    Allocation(s.category, AllocatedAmount(s, totalBudget, totalSpending), SharePercent(s, totalSpending), CalculatePriority(s))
  }

  function InitialAllocations(patterns: seq<CategoryStats>, totalBudget: real): (r: seq<Allocation>)
    ensures |r| == |patterns|
  {
    var t := TotalSpending(patterns);
    seq(|patterns|, i requires 0 <= i < |patterns| => InitialAllocation(patterns[i], totalBudget, t))
  }

  /** The allocated amount multiplied by factor, to the cent; the other fields are kept. */
  function RescaleOne(a: Allocation, factor: real): (r: Allocation)
    ensures r.category == a.category && r.percentageOfTotal == a.percentageOfTotal && r.priority == a.priority
    ensures OnGrid(r.allocatedAmount, 2)
  {
    RoundOnGrid(a.allocatedAmount * factor, 2);
    a.(allocatedAmount := ScaledCents(a.allocatedAmount, factor))
  }

  function Rescaled(allocs: seq<Allocation>, factor: real): (r: seq<Allocation>)
    ensures |r| == |allocs| && forall i :: 0 <= i < |allocs| ==> r[i] == RescaleOne(allocs[i], factor)
  {
    seq(|allocs|, i requires 0 <= i < |allocs| => RescaleOne(allocs[i], factor))
  }

  /** The normalisation step: a positive sum is rescaled towards the target total, otherwise nothing changes. */
  function Normalized(allocs: seq<Allocation>, totalBudget: real): (r: seq<Allocation>)
    ensures |r| == |allocs|
  {
    var current := Sum(Values(allocs, AllocatedOf));
    if current > 0.0 then Rescaled(allocs, totalBudget / current) else allocs
  }

  /**
    The in-place loop `for allocation in allocations: allocation["allocated_amount"] = ...`:
    each record's amount is rescaled, the other fields and the order are kept.
   */
  method RescaleInPlace(allocs: seq<Allocation>, factor: real) returns (out: seq<Allocation>)
    ensures out == Rescaled(allocs, factor)
  {
    out := allocs;
    var i := 0;
    while i < |out|
      invariant 0 <= i <= |out| && |out| == |allocs|
      invariant forall j :: 0 <= j < i ==> out[j] == Rescaled(allocs, factor)[j]
      invariant forall j :: i <= j < |out| ==> out[j] == allocs[j]
    {
      out := out[i := RescaleOne(out[i], factor)];
      i := i + 1;
    }
    assert out == Rescaled(allocs, factor);
  }

  /** The allocation loop: one record per category, in the order of the patterns. */
  method AllocateEach(patterns: seq<CategoryStats>, totalBudget: real) returns (allocs: seq<Allocation>)
    ensures allocs == InitialAllocations(patterns, totalBudget)
  {
    var totalSpending := TotalSpending(patterns);
    allocs := [];
    var i := 0;
    while i < |patterns|
      invariant 0 <= i <= |patterns| && |allocs| == i
      invariant forall j :: 0 <= j < i ==> allocs[j] == InitialAllocations(patterns, totalBudget)[j]
    {
      allocs := allocs + [InitialAllocation(patterns[i], totalBudget, totalSpending)];
      i := i + 1;
    }
    assert allocs == InitialAllocations(patterns, totalBudget);
  }

  /**
    `optimize_budget_allocation(user, total_budget)`: proportional shares
    of the monthly spending, adjusted by priority, normalised towards the
    target total and sorted by amount, highest first.
   */
  method OptimizeBudgetAllocation(num: Numerics, l: Rows, totalBudget: real) returns (r: OptimizeReport)
    ensures r.OptimizeFailed? <==> |Categories(Expenses(l))| == 0
    ensures r.OptimizeFailed? ==> r.error == Say("Insufficient spending data")
    ensures r.Optimized? ==>
      var patterns := PatternsOf(num, l, Categories(Expenses(l)));
      var normalized := Normalized(InitialAllocations(patterns, totalBudget), totalBudget);
      && r.totalBudget == totalBudget
      && r.categoriesCovered == |r.allocation| == |patterns|
      && Descending(r.allocation, AllocatedOf)
      && multiset(r.allocation) == multiset(normalized)
      && Sum(Values(r.allocation, AllocatedOf)) == Sum(Values(normalized, AllocatedOf))
      && (Sum(Values(InitialAllocations(patterns, totalBudget), AllocatedOf)) > 0.0 ==>
            -0.005 * (|patterns| as real) <= Sum(Values(r.allocation, AllocatedOf)) - totalBudget <= 0.005 * (|patterns| as real))
  {
    var patterns := AnalyzeSpendingPatterns(num, l);
    if |patterns| == 0 {
      return OptimizeFailed(Say("Insufficient spending data"));
    }
    var allocs := AllocateEach(patterns, totalBudget);
    if Sum(Values(allocs, AllocatedOf)) > 0.0 {
      NormalizedTotal(allocs, totalBudget);
    }
    var currentTotal := Sum(Values(allocs, AllocatedOf));
    if currentTotal > 0.0 {
      allocs := RescaleInPlace(allocs, totalBudget / currentTotal);
    }
    var sorted := SortDescending(allocs, AllocatedOf);
    SortDescendingFacts(allocs, AllocatedOf);
    SumValuesPermutation(sorted, allocs, AllocatedOf);
    r := Optimized(totalBudget, sorted, |sorted|);
  }

  lemma RescaledValues(allocs: seq<Allocation>, factor: real)
    ensures Values(Rescaled(allocs, factor), AllocatedOf) == RoundedScale(Values(allocs, AllocatedOf), factor)
  {
  }

  /**
    Normalisation hits the target total up to half a cent per category
    whenever the initial amounts have a positive sum.
   */
  lemma NormalizedTotal(allocs: seq<Allocation>, totalBudget: real)
    requires Sum(Values(allocs, AllocatedOf)) > 0.0
    ensures var n := |allocs| as real;
      -0.005 * n <= Sum(Values(Normalized(allocs, totalBudget), AllocatedOf)) - totalBudget <= 0.005 * n
  {
    var v := Values(allocs, AllocatedOf);
    var c := Sum(v);
    RescaledValues(allocs, totalBudget / c);
    RoundedScaleSumError(v, totalBudget / c);
    DivMulCancel(totalBudget, c);
  }

  /** With no positive spending every category gets nothing, and normalisation has nothing to scale. */
  lemma NoSpendingNoAllocation(patterns: seq<CategoryStats>, totalBudget: real)
    requires TotalSpending(patterns) <= 0.0
    ensures var out := Normalized(InitialAllocations(patterns, totalBudget), totalBudget);
      forall i :: 0 <= i < |out| ==> out[i].allocatedAmount == 0.0 && out[i].percentageOfTotal == 0.0
  {
    var allocs := InitialAllocations(patterns, totalBudget);
    RoundZero(2);
    forall i | 0 <= i < |allocs| ensures allocs[i].allocatedAmount == 0.0 && allocs[i].percentageOfTotal == 0.0 {
      assert Proportion(patterns[i], TotalSpending(patterns)) == 0.0;
    }
    SumConstant(Values(allocs, AllocatedOf), 0.0);
  }

  predicate AllNonNegative(allocs: seq<Allocation>)
  {
    forall i :: 0 <= i < |allocs| ==> allocs[i].allocatedAmount >= 0.0
  }

  lemma InitialNonNegative(patterns: seq<CategoryStats>, totalBudget: real)
    requires totalBudget >= 0.0
    requires forall i :: 0 <= i < |patterns| ==> patterns[i].monthlyAvg >= 0.0
    ensures AllNonNegative(InitialAllocations(patterns, totalBudget))
  {
    var allocs := InitialAllocations(patterns, totalBudget);
    var t := TotalSpending(patterns);
    forall i | 0 <= i < |allocs| ensures allocs[i].allocatedAmount >= 0.0 {
      var p := Proportion(patterns[i], t);
      if t > 0.0 {
        DivMono(0.0, patterns[i].monthlyAvg, t);
      }
      MulNonNegative(totalBudget, p);
      ScaledCentsNonNegative(totalBudget * p, PriorityFactor(CalculatePriority(patterns[i])));
    }
  }

  lemma NormalizedNonNegative(allocs: seq<Allocation>, totalBudget: real)
    requires totalBudget >= 0.0 && AllNonNegative(allocs)
    ensures AllNonNegative(Normalized(allocs, totalBudget))
  {
    var c := Sum(Values(allocs, AllocatedOf));
    if c > 0.0 {
      var out := Rescaled(allocs, totalBudget / c);
      DivMono(0.0, totalBudget, c);
      forall i | 0 <= i < |out| ensures out[i].allocatedAmount >= 0.0 {
        ScaledCentsNonNegative(allocs[i].allocatedAmount, totalBudget / c);
      }
    }
  }

  /** A non-negative budget over non-negative spending allocates non-negative amounts. */
  lemma AllocationNonNegative(patterns: seq<CategoryStats>, totalBudget: real)
    requires totalBudget >= 0.0
    requires forall i :: 0 <= i < |patterns| ==> patterns[i].monthlyAvg >= 0.0
    ensures var out := Normalized(InitialAllocations(patterns, totalBudget), totalBudget);
      forall i :: 0 <= i < |out| ==> out[i].allocatedAmount >= 0.0
  {
    InitialNonNegative(patterns, totalBudget);
    NormalizedNonNegative(InitialAllocations(patterns, totalBudget), totalBudget);
  }

  lemma ProportionMonotone(s: CategoryStats, t: CategoryStats, totalSpending: real)
    requires s.monthlyAvg <= t.monthlyAvg
    ensures Proportion(s, totalSpending) <= Proportion(t, totalSpending)
  {
    if totalSpending > 0.0 {
      DivMono(s.monthlyAvg, t.monthlyAvg, totalSpending);
    }
  }

  /** Of two categories with the same priority, the one spending more gets at least as large an initial allocation. */
  lemma AllocationMonotone(s: CategoryStats, t: CategoryStats, totalBudget: real, totalSpending: real)
    requires totalBudget >= 0.0 && s.monthlyAvg <= t.monthlyAvg && CalculatePriority(s) == CalculatePriority(t)
    ensures AllocatedAmount(s, totalBudget, totalSpending) <= AllocatedAmount(t, totalBudget, totalSpending)
  {
    ProportionMonotone(s, t, totalSpending);
    PriorityShareMonotone(Proportion(s, totalSpending), Proportion(t, totalSpending), totalBudget, CalculatePriority(s));
  }

  /** The one spending more also gets at least as large a percentage of the total. */
  lemma ShareMonotone(s: CategoryStats, t: CategoryStats, totalSpending: real)
    requires s.monthlyAvg <= t.monthlyAvg
    ensures SharePercent(s, totalSpending) <= SharePercent(t, totalSpending)
  {
    ProportionMonotone(s, t, totalSpending);
    var ps, pt := Proportion(s, totalSpending), Proportion(t, totalSpending);
    MulMono(ps, pt, 100.0);
    RoundMonotone(ps * 100.0, pt * 100.0, 2);
  }

  lemma PriorityShareMonotone(p: real, q: real, totalBudget: real, pr: Priority)
    requires p <= q && totalBudget >= 0.0
    ensures PriorityShare(p, totalBudget, pr) <= PriorityShare(q, totalBudget, pr)
  {
    MulMono(p, q, totalBudget);
    assert p * totalBudget == totalBudget * p && q * totalBudget == totalBudget * q;
    ScaledCentsMonotone(totalBudget * p, totalBudget * q, PriorityFactor(pr));
  }
}
