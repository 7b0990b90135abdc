/**
  The sufficiency gate every analysis runs first, and the income/expense
  aggregations of the data fetcher, over the fetched rows.
 */
module DataFetcher {
  import opened Numeric
  import opened Texts
  import opened Options
  import opened Ledger

  /** The dictionary `check_data_sufficiency` returns; dates are day numbers. */
  datatype Verdict = Verdict(
    sufficient: bool,
    reason: Text,
    daysOfData: int,
    totalTransactions: nat,
    expenseTransactions: nat,
    oldest: Option<int>,
    newest: Option<int>)

  const NoData: Text := Say("No transaction data found")
  const Enough: Text := Say("Data is sufficient")

  function ShortSpan(days: int, need: int): Text
  {
    [Lit("Data spans only "), Int(days), Lit(" days (need "), Int(need), Lit("+)")]
  }

  function FewTransactions(count: int, need: int): Text
  {
    [Lit("Only "), Int(count), Lit(" transactions (need "), Int(need), Lit("+)")]
  }

  function FewExpenses(count: int, need: int): Text
  {
    [Lit("Only "), Int(count), Lit(" expense transactions (need "), Int(need), Lit("+)")]
  }

  /** Days from the oldest to the newest timestamp, counting both ends (`timedelta.days + 1`). */
  function Span(l: Rows): (r: int)
    requires |l| > 0
    ensures r >= 1
  {
    (MaxKey(l, AtKey) - MinKey(l, AtKey)) / SecondsPerDay + 1
  }

  /** The clauses for the failing checks, in the order days, transactions, expenses. */
  function Reasons(days: int, total: int, expenses: int, minDays: int, minTransactions: int, minExpenses: int): seq<Text>
  {
    (if days < minDays then [ShortSpan(days, minDays)] else [])
    + (if total < minTransactions then [FewTransactions(total, minTransactions)] else [])
    + (if expenses < minExpenses then [FewExpenses(expenses, minExpenses)] else [])
  }

  /** The verdict on three measured values. */
  function Judge(days: int, total: nat, expenses: nat, minDays: int, minTransactions: int, minExpenses: int,
                 oldest: int, newest: int): (r: Verdict)
    ensures r.sufficient <==> days >= minDays && total >= minTransactions && expenses >= minExpenses
    ensures r.sufficient <==> r.reason == Enough
    ensures r.daysOfData == days && r.totalTransactions == total && r.expenseTransactions == expenses
  {
    var rs := Reasons(days, total, expenses, minDays, minTransactions, minExpenses);
    JoinedReasonsDiffer(days, total, expenses, minDays, minTransactions, minExpenses);
    Verdict(
      days >= minDays && total >= minTransactions && expenses >= minExpenses,
      if rs == [] then Enough else Join(rs, "; "),
      days, total, expenses, Some(oldest), Some(newest))
  }

  lemma JoinedReasonsDiffer(d: int, t: int, e: int, md: int, mt: int, me: int)
    ensures var rs := Reasons(d, t, e, md, mt, me); rs != [] ==> Join(rs, "; ") != Enough
  {
    var rs := Reasons(d, t, e, md, mt, me);
    if rs != [] {
      JoinFirst(rs, "; ");
      assert rs[0][0] == Lit("Data spans only ") || rs[0][0] == Lit("Only ");
    }
  }

  /** `DataFetcher.check_data_sufficiency(df, min_days, min_transactions, min_expenses)`. */
  function CheckDataSufficiency(l: Rows, minDays: int, minTransactions: int, minExpenses: int): (r: Verdict)
    ensures |l| == 0 ==> r == Verdict(false, NoData, 0, 0, 0, None, None)
    ensures |l| > 0 ==> r.daysOfData >= 1 && r.totalTransactions == |l| && r.expenseTransactions <= r.totalTransactions
    ensures |l| > 0 ==> r.expenseTransactions == |Expenses(l)|
    ensures |l| > 0 ==> (r.sufficient <==> r.daysOfData >= minDays && r.totalTransactions >= minTransactions && r.expenseTransactions >= minExpenses)
    ensures r.sufficient <==> r.reason == Enough
    ensures |l| > 0 ==> r.oldest.Some? && r.newest.Some? && r.oldest.value <= r.newest.value
  {
    if |l| == 0 then Verdict(false, NoData, 0, 0, 0, None, None)
    else
      var lo, hi := MinKey(l, AtKey), MaxKey(l, AtKey);
      assert lo / SecondsPerDay <= hi / SecondsPerDay;
      Judge(Span(l), |l|, |Expenses(l)|, minDays, minTransactions, minExpenses, lo / SecondsPerDay, hi / SecondsPerDay)
  }

  /** Income rows and other kinds contribute nothing to the expense count. */
  function ExpenseCount(l: Rows): (r: nat)
    ensures r <= |l|
  {
    |Expenses(l)|
  }

  // ---------------------------------------------------------------- aggregations

  /** `get_spending_by_category`: expense totals per category present among the expenses. */
  function SpendingByCategory(l: Rows): (r: map<string, real>)
    ensures forall c :: c in r <==> c in Categories(Expenses(l))
  {
    map c | c in Categories(Expenses(l)) :: Total(WithKey(Expenses(l), CategoryKey, c))
  }

  /** The dictionary `get_financial_summary` returns; `spendingByCategory` is absent for an empty sample. */
  datatype Summary = Summary(
    totalIncome: real,
    totalExpenses: real,
    netBalance: real,
    transactionCount: nat,
    avgDailySpending: real,
    spendingByCategory: Option<map<string, real>>)

  /** `get_financial_summary(user, days)`: the whole history is summed, the daily average divides by `days`. */
  function FinancialSummary(l: Rows, days: int): (r: Summary)
    ensures r.netBalance == r.totalIncome - r.totalExpenses
    ensures r.transactionCount == |l|
    ensures r.totalIncome == Total(Incomes(l)) && r.totalExpenses == Total(Expenses(l))
    ensures days <= 0 ==> r.avgDailySpending == 0.0
    ensures days > 0 ==> r.avgDailySpending == r.totalExpenses / (days as real)
    ensures |l| == 0 <==> r.spendingByCategory.None?
  {
    if |l| == 0 then Summary(0.0, 0.0, 0.0, 0, 0.0, None)
    else
      var income, expenses := Total(Incomes(l)), Total(Expenses(l));
      Summary(income, expenses, income - expenses, |l|,
              if days > 0 then expenses / (days as real) else 0.0,
              Some(SpendingByCategory(l)))
  }

  // ---------------------------------------------------------------- lemmas

  /**
    The reason names exactly the failing checks: each clause is present iff
    its check fails, it carries the measured and the required value, and the
    clauses come in the order days, transactions, expenses.
   */
  lemma ReasonsExact(d: int, t: int, e: int, md: int, mt: int, me: int)
    ensures var rs := Reasons(d, t, e, md, mt, me);
      && (ShortSpan(d, md) in rs <==> d < md)
      && (FewTransactions(t, mt) in rs <==> t < mt)
      && (FewExpenses(e, me) in rs <==> e < me)
      && |rs| == (if d < md then 1 else 0) + (if t < mt then 1 else 0) + (if e < me then 1 else 0)
      && (d < md ==> rs[0] == ShortSpan(d, md))
      && (e < me ==> rs[|rs| - 1] == FewExpenses(e, me))
  {
    assert " transactions (need " != " expense transactions (need " by {
      assert |" transactions (need "| != |" expense transactions (need "|;
    }
  }

  /**
    Starting exactly at the three thresholds, lowering one measure by one
    makes the verdict insufficient with that one clause as the reason.
   */
  lemma LoweringOneMeasure(md: nat, mt: nat, me: nat, o: int, n: int)
    requires md >= 1 && mt >= 1 && me >= 1
    ensures Judge(md, mt, me, md, mt, me, o, n).sufficient
    ensures var r := Judge(md - 1, mt, me, md, mt, me, o, n); !r.sufficient && r.reason == ShortSpan(md - 1, md)
    ensures var r := Judge(md, mt - 1, me, md, mt, me, o, n); !r.sufficient && r.reason == FewTransactions(mt - 1, mt)
    ensures var r := Judge(md, mt, me - 1, md, mt, me, o, n); !r.sufficient && r.reason == FewExpenses(me - 1, me)
  {
  }

  lemma {:induction false} MinMaxGrow(l: Rows, extra: Rows, key: Transaction -> int)
    requires |l| > 0
    ensures MinKey(l + extra, key) <= MinKey(l, key) && MaxKey(l, key) <= MaxKey(l + extra, key)
  {
    var i :| 0 <= i < |l| && MinKey(l, key) == key(l[i]);
    var j :| 0 <= j < |l| && MaxKey(l, key) == key(l[j]);
    assert (l + extra)[i] == l[i] && (l + extra)[j] == l[j];
  }

  /** More history never makes a sufficient sample insufficient. */
  lemma SufficiencyMonotone(l: Rows, extra: Rows, md: int, mt: int, me: int)
    requires CheckDataSufficiency(l, md, mt, me).sufficient
    ensures CheckDataSufficiency(l + extra, md, mt, me).sufficient
  {
    MinMaxGrow(l, extra, AtKey);
    var a := MaxKey(l, AtKey) - MinKey(l, AtKey);
    var b := MaxKey(l + extra, AtKey) - MinKey(l + extra, AtKey);
    assert a <= b;
    assert a / SecondsPerDay <= b / SecondsPerDay;
    OfKindConcat(l, extra, Expense);
  }

  /** The category totals add up to the total expenses. */
  lemma SpendingByCategoryTotal(l: Rows)
    ensures var cats := Categories(Expenses(l));
      Sum(seq(|cats|, i requires 0 <= i < |cats| => SpendingByCategory(l)[cats[i]])) == Total(Expenses(l))
  {
    var e := Expenses(l);
    var cats := Categories(e);
    var m := SpendingByCategory(l);
    var s := seq(|cats|, i requires 0 <= i < |cats| => m[cats[i]]);
    forall i | 0 <= i < |cats| ensures s[i] == GroupSums(e, CategoryKey, cats)[i] {
    }
    assert s == GroupSums(e, CategoryKey, cats);
    forall i | 0 <= i < |e| ensures CategoryKey(e[i]) in cats {
      assert Keys(e, CategoryKey)[i] == CategoryKey(e[i]);
    }
    GroupSumsPartition(e, CategoryKey, cats);
  }

  /** Income rows and rows of other kinds do not change the spending by category. */
  lemma SpendingIgnoresNonExpenses(l: Rows, t: Transaction)
    requires t.kind != Expense
    ensures SpendingByCategory(l + [t]) == SpendingByCategory(l)
  {
    OfKindAppend(l, t, Expense);
  }
}
