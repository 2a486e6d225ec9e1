/** The shared core of analyze_finance.py and role_3.py: basic totals,
    per-category statistics with percentage shares, and per-month income and
    expenses. The two files differ only in their dict keys, in parsing the
    amount with `float(...)` (analyze_finance.py) and in the date layout;
    the modules AnalyzeFinance and Role3 attach those differences. */
module Aggregator {
  import opened Wrappers
  import opened Sequences
  import opened Sums
  import opened Grouping
  import opened Transactions
  import opened Dates

  datatype BasicStats = BasicStats(totalIncome: real, totalExpense: real, balance: real, transactionCount: nat)

  /** `calculate_basic_stats`: income is the sum of the positive amounts,
      expense the sum of the negative ones (kept negative), the balance
      their sum, which is the net sum of all amounts, and the count is the
      number of records, zero amounts included. */
  function CalculateBasicStats(ts: seq<Txn>): (r: BasicStats)
    ensures r.totalIncome == Income(Amounts(ts)) && r.totalExpense == Expense(Amounts(ts))
    ensures r.totalIncome >= 0.0 >= r.totalExpense
    ensures r.balance == r.totalIncome + r.totalExpense == Sum(Amounts(ts))
    ensures r.transactionCount == |ts|
    ensures ts == [] ==> r == BasicStats(0.0, 0.0, 0.0, 0)
  {
    var income := Income(Amounts(ts));
    var expense := Expense(Amounts(ts));
    Signs(Amounts(ts));
    SumSplits(Amounts(ts));
    BasicStats(income, expense, income + expense, |ts|)
  }

  datatype CategoryStats = CategoryStats(sum: real, count: nat, expensePercent: real, incomePercent: real)

  function Abs(x: real): real { if x < 0.0 then -x else x }

  /** The statistics of one category from its net sum and count: a net
      negative category gets its share of the total expense, any other
      category its share of the total income, each guarded against a zero
      total. */
  function CategoryShares(sum: real, count: nat, totalIncome: real, totalExpense: real): CategoryStats
  {
    if sum < 0.0 then
      CategoryStats(sum, count, if totalExpense != 0.0 then Abs(sum) / Abs(totalExpense) * 100.0 else 0.0, 0.0)
    else
      CategoryStats(sum, count, 0.0, if totalIncome != 0.0 then sum / totalIncome * 100.0 else 0.0)
  }

  /** The amounts of the records in category `c`, in order. */
  function CategoryAmounts(ts: seq<Txn>, c: string): seq<real>
    requires Categorized(ts)
  {
    AmountsOf(CategoryPairs(ts), c)
  }

  /** `calculate_by_category`: one entry per category present, in order of
      first occurrence; each holds the net sum and the number of its records
      and the percentage rules of the source, with both percentages between
      0 and 100. */
  function CalculateByCategory(ts: seq<Txn>): (r: seq<(string, CategoryStats)>)
    requires Categorized(ts)
    ensures Keys(r) == Dedup(Keys(CategoryPairs(ts)))
    ensures forall i :: 0 <= i < |r| ==>
      r[i].1.sum == Sum(CategoryAmounts(ts, r[i].0)) && r[i].1.count == |CategoryAmounts(ts, r[i].0)| >= 1
    ensures forall i :: 0 <= i < |r| && r[i].1.sum < 0.0 ==>
      r[i].1.incomePercent == 0.0 &&
      r[i].1.expensePercent == (if CalculateBasicStats(ts).totalExpense == 0.0 then 0.0
                                else Abs(r[i].1.sum) / Abs(CalculateBasicStats(ts).totalExpense) * 100.0)
    ensures forall i :: 0 <= i < |r| && r[i].1.sum >= 0.0 ==>
      r[i].1.expensePercent == 0.0 &&
      r[i].1.incomePercent == (if CalculateBasicStats(ts).totalIncome == 0.0 then 0.0
                               else r[i].1.sum / CalculateBasicStats(ts).totalIncome * 100.0)
    ensures forall i :: 0 <= i < |r| ==>
      0.0 <= r[i].1.expensePercent <= 100.0 && 0.0 <= r[i].1.incomePercent <= 100.0
  {
    var pairs := CategoryPairs(ts);
    var g := Group(pairs);
    var r := StatsTable(g, Income(Amounts(ts)), Expense(Amounts(ts)));
    assert Values(pairs) == Amounts(ts);
    forall i | 0 <= i < |r|
      ensures 0.0 <= r[i].1.expensePercent <= 100.0 && 0.0 <= r[i].1.incomePercent <= 100.0
    {
      SharesInRange(pairs, g[i].0);
    }
    r
  }

  /** The statistics of every group against the given totals. */
  function StatsTable(g: seq<(string, seq<real>)>, totalIncome: real, totalExpense: real): (r: seq<(string, CategoryStats)>)
    ensures Keys(r) == Keys(g)
    ensures forall i :: 0 <= i < |r| ==> r[i].1 == CategoryShares(Sum(g[i].1), |g[i].1|, totalIncome, totalExpense)
  {
    seq(|g|, i requires 0 <= i < |g| => (g[i].0, CategoryShares(Sum(g[i].1), |g[i].1|, totalIncome, totalExpense)))
  }

  /** A category's share of a total it is part of lies between 0 and 100. */
  lemma SharesInRange(pairs: seq<(string, real)>, c: string)
    ensures var s := CategoryShares(Sum(AmountsOf(pairs, c)), |AmountsOf(pairs, c)|,
                                    Income(Values(pairs)), Expense(Values(pairs)));
      0.0 <= s.expensePercent <= 100.0 && 0.0 <= s.incomePercent <= 100.0
  {
    var own := AmountsOf(pairs, c);
    var rest := AmountsOutside(pairs, c);
    AmountsPartition(IncomePart, pairs, c);
    AmountsPartition(ExpensePart, pairs, c);
    Signs(own);
    Signs(rest);
    SumSplits(own);
    var sum := Sum(own);
    var ti := Income(Values(pairs));
    var te := Expense(Values(pairs));
    if sum < 0.0 {
      assert 0.0 < -sum <= -te;
      RatioAtMostOne(-sum, -te);
    } else if ti != 0.0 {
      assert 0.0 <= sum <= ti;
      RatioAtMostOne(sum, ti);
    }
  }

  lemma RatioAtMostOne(a: real, b: real)
    requires 0.0 <= a <= b && b > 0.0
    ensures 0.0 <= a / b * 100.0 <= 100.0
  {
    assert a / b <= 1.0 by {
      assert a / b * b == a;
    }
  }

  /** Net sum of all category entries. */
  function CategorySumTotal(r: seq<(string, CategoryStats)>): real
    decreases |r|
  {
    if r == [] then 0.0 else CategorySumTotal(r[..|r| - 1]) + r[|r| - 1].1.sum
  }

  /** Record count of all category entries. */
  function CategoryCountTotal(r: seq<(string, CategoryStats)>): nat
    decreases |r|
  {
    if r == [] then 0 else CategoryCountTotal(r[..|r| - 1]) + r[|r| - 1].1.count
  }

  lemma {:induction false} CategoryTotalsOfGroups(g: seq<(string, seq<real>)>, r: seq<(string, CategoryStats)>)
    requires |r| == |g|
    requires forall i :: 0 <= i < |r| ==> r[i].1.sum == Sum(g[i].1) && r[i].1.count == |g[i].1|
    ensures CategorySumTotal(r) == GroupTotal(Whole, g)
    ensures CategoryCountTotal(r) == GroupSize(g)
    decreases |r|
  {
    if r != [] {
      CategoryTotalsOfGroups(g[..|g| - 1], r[..|r| - 1]);
    }
  }

  /** The categories partition the records: their net sums add up to the
      balance and their counts to the number of records. */
  lemma CategoryTotalsReconcile(ts: seq<Txn>)
    requires Categorized(ts)
    ensures CategorySumTotal(CalculateByCategory(ts)) == CalculateBasicStats(ts).balance
    ensures CategoryCountTotal(CalculateByCategory(ts)) == |ts|
  {
    var pairs := CategoryPairs(ts);
    var g := Group(pairs);
    var r := StatsTable(g, Income(Amounts(ts)), Expense(Amounts(ts)));
    assert CalculateByCategory(ts) == r;
    CategoryTotalsOfGroups(g, r);
    GroupsPartition(Whole, pairs);
    assert Values(pairs) == Amounts(ts);
  }

  /** The zero-total guard of the expense branch never fires: a category
      with a negative net sum holds a negative amount, so the total expense
      is negative too. */
  lemma ExpenseGuardUnreachable(ts: seq<Txn>, c: string)
    requires Categorized(ts)
    requires Sum(CategoryAmounts(ts, c)) < 0.0
    ensures CalculateBasicStats(ts).totalExpense < 0.0
  {
    var pairs := CategoryPairs(ts);
    AmountsPartition(IncomePart, pairs, c);
    AmountsPartition(ExpensePart, pairs, c);
    Signs(AmountsOf(pairs, c));
    Signs(AmountsOutside(pairs, c));
    SumSplits(AmountsOf(pairs, c));
    assert Values(pairs) == Amounts(ts);
  }

  /** A record with a zero amount adds one to the count and nothing to the
      totals. */
  lemma ZeroAmountOnlyCounts(ts: seq<Txn>, t: Txn)
    requires t.amount == 0.0
    ensures var before := CalculateBasicStats(ts);
      CalculateBasicStats(ts + [t]) == before.(transactionCount := before.transactionCount + 1)
  {
    assert Amounts(ts + [t])[..|ts|] == Amounts(ts);
  }

  /** The totals of two batches together are the sums of their totals. */
  lemma BasicStatsAdditive(a: seq<Txn>, b: seq<Txn>)
    ensures var sa, sb, s := CalculateBasicStats(a), CalculateBasicStats(b), CalculateBasicStats(a + b);
      s.totalIncome == sa.totalIncome + sb.totalIncome &&
      s.totalExpense == sa.totalExpense + sb.totalExpense &&
      s.balance == sa.balance + sb.balance &&
      s.transactionCount == sa.transactionCount + sb.transactionCount
  {
    assert Amounts(a + b) == Amounts(a) + Amounts(b);
    SumOfAppend(IncomePart, Amounts(a), Amounts(b));
    SumOfAppend(ExpensePart, Amounts(a), Amounts(b));
  }

  datatype MonthStats = MonthStats(income: real, expenses: real)

  /** Every date of the batch parses in the given layout. */
  predicate DatesParse(ts: seq<Txn>, fmt: DateFormat) {
    forall i :: 0 <= i < |ts| ==> ParseDate(fmt, ts[i].date).Some?
  }

  /** (month key, amount) of every record, in order. */
  function MonthPairs(ts: seq<Txn>, fmt: DateFormat): (ps: seq<(string, real)>)
    requires DatesParse(ts, fmt)
    ensures |ps| == |ts|
    ensures forall i :: 0 <= i < |ts| ==> ps[i] == (MonthKey(ParseDate(fmt, ts[i].date).value), ts[i].amount)
  {
    seq(|ts|, i requires 0 <= i < |ts| && DatesParse(ts, fmt) => (MonthKey(ParseDate(fmt, ts[i].date).value), ts[i].amount))
  }

  /** The amounts of the records dated in month `key`, in order. */
  function MonthAmounts(ts: seq<Txn>, fmt: DateFormat, key: string): seq<real>
    requires DatesParse(ts, fmt)
  {
    AmountsOf(MonthPairs(ts, fmt), key)
  }

  function MonthTable(g: seq<(string, seq<real>)>): (r: seq<(string, MonthStats)>)
    ensures Keys(r) == Keys(g)
    ensures forall i :: 0 <= i < |r| ==> r[i].1 == MonthStats(Income(g[i].1), Outflow(g[i].1))
  {
    seq(|g|, i requires 0 <= i < |g| => (g[i].0, MonthStats(Income(g[i].1), Outflow(g[i].1))))
  }

  /** `analyze_by_time`: None when some date does not parse (the ValueError
      that aborts the call); otherwise one entry per month present, in order
      of first occurrence, holding the sum of the month's positive amounts
      and the sum of `abs(x)` over its amounts `x <= 0`. */
  function AnalyzeByTime(ts: seq<Txn>, fmt: DateFormat): (r: Option<seq<(string, MonthStats)>>)
    ensures r.Some? <==> DatesParse(ts, fmt)
    ensures r.Some? ==> Keys(r.value) == Dedup(Keys(MonthPairs(ts, fmt)))
    ensures r.Some? ==> forall i :: 0 <= i < |r.value| ==>
      r.value[i].1.income == Income(MonthAmounts(ts, fmt, r.value[i].0)) &&
      r.value[i].1.expenses == Outflow(MonthAmounts(ts, fmt, r.value[i].0))
    ensures r.Some? ==> forall i :: 0 <= i < |r.value| ==>
      r.value[i].1.income >= 0.0 && r.value[i].1.expenses >= 0.0
  {
    if !DatesParse(ts, fmt) then None
    else
      var g := Group(MonthPairs(ts, fmt));
      var r := MonthTable(g);
      forall i | 0 <= i < |r| ensures r[i].1.income >= 0.0 && r[i].1.expenses >= 0.0 {
        Signs(g[i].1);
      }
      Some(r)
  }

  /** Income of all month entries. */
  function MonthIncomeTotal(r: seq<(string, MonthStats)>): real
    decreases |r|
  {
    if r == [] then 0.0 else MonthIncomeTotal(r[..|r| - 1]) + r[|r| - 1].1.income
  }

  /** Expenses of all month entries. */
  function MonthExpenseTotal(r: seq<(string, MonthStats)>): real
    decreases |r|
  {
    if r == [] then 0.0 else MonthExpenseTotal(r[..|r| - 1]) + r[|r| - 1].1.expenses
  }

  lemma {:induction false} MonthTotalsOfGroups(g: seq<(string, seq<real>)>, r: seq<(string, MonthStats)>)
    requires |r| == |g|
    requires forall i :: 0 <= i < |r| ==> r[i].1 == MonthStats(Income(g[i].1), Outflow(g[i].1))
    ensures MonthIncomeTotal(r) == GroupTotal(IncomePart, g)
    ensures MonthExpenseTotal(r) == GroupTotal(OutflowPart, g)
    decreases |r|
  {
    if r != [] {
      MonthTotalsOfGroups(g[..|g| - 1], r[..|r| - 1]);
    }
  }

  /** The months partition the records: their incomes add up to the total
      income, and incomes minus expenses over all months to the balance. */
  lemma MonthTotalsReconcile(ts: seq<Txn>, fmt: DateFormat)
    requires DatesParse(ts, fmt)
    ensures MonthIncomeTotal(AnalyzeByTime(ts, fmt).value) == CalculateBasicStats(ts).totalIncome
    ensures MonthIncomeTotal(AnalyzeByTime(ts, fmt).value) - MonthExpenseTotal(AnalyzeByTime(ts, fmt).value)
         == CalculateBasicStats(ts).balance
  {
    var pairs := MonthPairs(ts, fmt);
    var g := Group(pairs);
    MonthTotalsOfGroups(g, MonthTable(g));
    GroupsPartition(IncomePart, pairs);
    GroupsPartition(OutflowPart, pairs);
    assert Values(pairs) == Amounts(ts);
    SumSplits(Amounts(ts));
  }

  /** A month whose amounts are all zero still gets an entry, with income
      and expenses both 0. */
  lemma ZeroMonth(ts: seq<Txn>, fmt: DateFormat, key: string)
    requires DatesParse(ts, fmt)
    requires key in Keys(MonthPairs(ts, fmt))
    requires forall j :: 0 <= j < |MonthAmounts(ts, fmt, key)| ==> MonthAmounts(ts, fmt, key)[j] == 0.0
    ensures key in Keys(AnalyzeByTime(ts, fmt).value)
    ensures forall i :: 0 <= i < |AnalyzeByTime(ts, fmt).value| && AnalyzeByTime(ts, fmt).value[i].0 == key ==>
      AnalyzeByTime(ts, fmt).value[i].1 == MonthStats(0.0, 0.0)
  {
    ZeroParts(MonthAmounts(ts, fmt, key));
  }
}
