/** budget_planning.py: averages of past spending per category with
    recommendations to cut the large ones, a budget that shares an income out
    in proportion to those averages plus a fixed savings line, and a
    comparison of that budget with actual spending. A record without a
    category counts as 'other' throughout. Unlike the aggregator this file
    has no guard against a zero total: where it would divide by zero, the
    model requires the total to be non-zero. */
module BudgetPlanning {
  import opened Wrappers
  import opened Sequences
  import opened Sums
  import opened Grouping
  import opened Transactions

  /** A category whose share of all spending reached the threshold, with
      that share in percent. The source formats the pair as a sentence. */
  type Recommendation = (string, real)

  datatype Analysis = Analysis(averageSpending: seq<(string, real)>, recommendations: seq<Recommendation>)

  /** Shares from this percentage up earn a recommendation. */
  const RecommendThreshold := 30.0

  /** The budget line that `create_budget_template` always sets. */
  const SavingsKey := "savings"

  /** The part of the income the budget puts into savings. */
  const SavingsRate := 0.1

  /** The amounts recorded under category `c` (or 'other'), in order. */
  function Spent(ts: seq<Txn>, c: string): seq<real> {
    AmountsOf(CategoryOrDefaultPairs(ts), c)
  }

  /** What category `c` adds to all spending, in percent of it. */
  function Share(ts: seq<Txn>, c: string): real
    requires Sum(Amounts(ts)) != 0.0
  {
    Percent(Sum(Spent(ts, c)), Sum(Amounts(ts)))
  }

  /** `part / total * 100`. */
  function Percent(part: real, total: real): real
    requires total != 0.0
  {
    part / total * 100.0
  }

  function Mean(xs: seq<real>): real
    requires |xs| >= 1
  {
    Sum(xs) / (|xs| as real)
  }

  /** `{cat: sum(val) / len(val) ...}` over the groups of a non-empty-valued
      dict of lists. */
  function Averages(g: seq<(string, seq<real>)>): (avg: seq<(string, real)>)
    requires forall i :: 0 <= i < |g| ==> |g[i].1| >= 1
    ensures Keys(avg) == Keys(g)
    ensures forall i :: 0 <= i < |avg| ==> avg[i].1 == Mean(g[i].1)
  {
    seq(|g|, i requires 0 <= i < |g| && |g[i].1| >= 1 => (g[i].0, Mean(g[i].1)))
  }

  /** Each group with the share its sum is of `total`, in percent. */
  function Shares(g: seq<(string, seq<real>)>, total: real): (scores: seq<(string, real)>)
    requires g == [] || total != 0.0
    ensures Keys(scores) == Keys(g)
    ensures forall j :: 0 <= j < |g| ==> scores[j].1 == Percent(Sum(g[j].1), total)
  {
    seq(|g|, j requires 0 <= j < |g| && total != 0.0 => (g[j].0, Percent(Sum(g[j].1), total)))
  }

  /** The recommendation loop over the categories and their shares, in
      order: a share of at least 30 percent is recommended. */
  function Recommend(scores: seq<(string, real)>): (rs: seq<Recommendation>)
    ensures IsSubsequence(rs, scores)
    ensures forall k :: 0 <= k < |rs| ==> rs[k].1 >= RecommendThreshold
    ensures forall j :: 0 <= j < |scores| && scores[j].1 >= RecommendThreshold ==> scores[j] in rs
    decreases |scores|
  {
    if scores == [] then []
    else
      var rest := Recommend(scores[1..]);
      assert forall j :: 1 <= j < |scores| ==> scores[j] == scores[1..][j - 1];
      if scores[0].1 >= RecommendThreshold then
        var rs := [scores[0]] + rest;
        assert rs[1..] == rest;
        rs
      else
        rest
  }

  /** `analyze_historical_spending`: the averages follow the categories in
      order of first occurrence, each the mean of that category's amounts;
      a category is recommended exactly when its share of the signed total
      of all amounts is at least 30 percent, and the recommendations keep
      the order of the averages. The source divides by that total whenever
      there is a record, so the total must then be non-zero. */
  function AnalyzeHistoricalSpending(ts: seq<Txn>): (a: Analysis)
    requires ts == [] || Sum(Amounts(ts)) != 0.0
    ensures ts == [] ==> a == Analysis([], [])
    ensures Keys(a.averageSpending) == Dedup(Keys(CategoryOrDefaultPairs(ts)))
    ensures forall i :: 0 <= i < |a.averageSpending| ==>
      |Spent(ts, a.averageSpending[i].0)| >= 1 &&
      a.averageSpending[i].1 == Mean(Spent(ts, a.averageSpending[i].0))
    ensures IsSubsequence(Keys(a.recommendations), Keys(a.averageSpending))
    ensures |a.recommendations| <= |a.averageSpending|
    ensures ts != [] ==> forall k :: 0 <= k < |a.recommendations| ==>
      a.recommendations[k].1 == Share(ts, a.recommendations[k].0) &&
      a.recommendations[k].1 >= RecommendThreshold
    ensures ts != [] ==> forall i :: 0 <= i < |a.averageSpending| ==>
      (a.averageSpending[i].0 in Keys(a.recommendations) <==>
       Share(ts, a.averageSpending[i].0) >= RecommendThreshold)
  {
    Analysis(AverageSpending(ts), Recommendations(ts))
  }

  /** `average_spending`: the mean amount of every category, in order of
      first occurrence. */
  function AverageSpending(ts: seq<Txn>): (avg: seq<(string, real)>)
    ensures ts == [] ==> avg == []
    ensures Keys(avg) == Dedup(Keys(CategoryOrDefaultPairs(ts)))
    ensures forall i :: 0 <= i < |avg| ==>
      |Spent(ts, avg[i].0)| >= 1 && avg[i].1 == Mean(Spent(ts, avg[i].0))
  {
    var g := SpendingGroups(ts);
    assert ts == [] ==> g == [];
    Averages(g)
  }

  /** `recommendations`: the categories whose share of all spending is at
      least 30 percent, with that share, in category order. */
  function Recommendations(ts: seq<Txn>): (rs: seq<Recommendation>)
    requires ts == [] || Sum(Amounts(ts)) != 0.0
    ensures ts == [] ==> rs == []
    ensures IsSubsequence(Keys(rs), Dedup(Keys(CategoryOrDefaultPairs(ts))))
    ensures |rs| <= |Dedup(Keys(CategoryOrDefaultPairs(ts)))|
    ensures ts != [] ==> forall k :: 0 <= k < |rs| ==>
      rs[k].1 == Share(ts, rs[k].0) && rs[k].1 >= RecommendThreshold
    ensures ts != [] ==> forall c :: c in Keys(CategoryOrDefaultPairs(ts)) ==>
      (c in Keys(rs) <==> Share(ts, c) >= RecommendThreshold)
  {
    var g := SpendingGroups(ts);
    var totalSpending := GroupTotal(Whole, g);
    TotalSpendingIsSum(ts);
    var rs := Recommend(Shares(g, totalSpending));
    if ts == [] then
      assert g == [];
      rs
    else
      RecommendationsMeaning(ts, Shares(g, totalSpending), rs);
      rs
  }

  /** What the recommendation loop yields on the spending groups. */
  lemma RecommendationsMeaning(ts: seq<Txn>, scores: seq<(string, real)>, rs: seq<Recommendation>)
    requires Sum(Amounts(ts)) != 0.0
    requires scores == Shares(SpendingGroups(ts), Sum(Amounts(ts)))
    requires rs == Recommend(scores)
    ensures IsSubsequence(Keys(rs), Dedup(Keys(CategoryOrDefaultPairs(ts))))
    ensures |rs| <= |Dedup(Keys(CategoryOrDefaultPairs(ts)))|
    ensures forall k :: 0 <= k < |rs| ==> rs[k].1 == Share(ts, rs[k].0) && rs[k].1 >= RecommendThreshold
    ensures forall c :: c in Keys(CategoryOrDefaultPairs(ts)) ==>
      (c in Keys(rs) <==> Share(ts, c) >= RecommendThreshold)
  {
    SubsequenceKeys(rs, scores);
    SubsequenceLength(rs, scores);
    RecommendedIff(scores, rs);
    ScoresAreShares(ts, scores);
    RecommendedCategories(ts, scores, rs);
  }

  lemma RecommendedCategories(ts: seq<Txn>, scores: seq<(string, real)>, rs: seq<Recommendation>)
    requires Sum(Amounts(ts)) != 0.0
    requires Keys(scores) == Dedup(Keys(CategoryOrDefaultPairs(ts)))
    requires forall p :: p in scores ==> p.1 == Share(ts, p.0)
    requires forall j :: 0 <= j < |scores| ==>
      (scores[j].0 in Keys(rs) <==> scores[j].1 >= RecommendThreshold)
    ensures forall c :: c in Keys(CategoryOrDefaultPairs(ts)) ==>
      (c in Keys(rs) <==> Share(ts, c) >= RecommendThreshold)
  {
    forall c | c in Keys(CategoryOrDefaultPairs(ts))
      ensures c in Keys(rs) <==> Share(ts, c) >= RecommendThreshold
    {
      assert c in Keys(scores);
      var j :| 0 <= j < |scores| && Keys(scores)[j] == c;
      assert scores[j] in scores;
    }
  }

  /** `category`: the amounts of every category (or 'other'), in order of
      first occurrence. */
  function SpendingGroups(ts: seq<Txn>): (g: seq<(string, seq<real>)>)
    ensures Keys(g) == Dedup(Keys(CategoryOrDefaultPairs(ts)))
    ensures forall i :: 0 <= i < |g| ==> g[i].1 == Spent(ts, g[i].0) && |g[i].1| >= 1
  {
    Group(CategoryOrDefaultPairs(ts))
  }

  /** `total_spending`, the sum of the sums of the groups, is the signed
      sum of all amounts. */
  lemma TotalSpendingIsSum(ts: seq<Txn>)
    ensures GroupTotal(Whole, SpendingGroups(ts)) == Sum(Amounts(ts))
  {
    GroupsPartition(Whole, CategoryOrDefaultPairs(ts));
    assert Values(CategoryOrDefaultPairs(ts)) == Amounts(ts);
  }

  /** Each score of the spending groups is that category's share. */
  lemma ScoresAreShares(ts: seq<Txn>, scores: seq<(string, real)>)
    requires Sum(Amounts(ts)) != 0.0
    requires scores == Shares(SpendingGroups(ts), Sum(Amounts(ts)))
    ensures forall p :: p in scores ==> p.1 == Share(ts, p.0)
  {
    var g := SpendingGroups(ts);
    forall p | p in scores ensures p.1 == Share(ts, p.0) {
      var j :| 0 <= j < |scores| && scores[j] == p;
      assert Keys(scores)[j] == g[j].0;
    }
  }

  /** With distinct categories, a category is recommended exactly when its
      share reaches the threshold, and every recommendation is one of the
      scored pairs. */
  lemma RecommendedIff(scores: seq<(string, real)>, rs: seq<Recommendation>)
    requires NoDups(Keys(scores))
    requires IsSubsequence(rs, scores)
    requires forall k :: 0 <= k < |rs| ==> rs[k].1 >= RecommendThreshold
    requires forall j :: 0 <= j < |scores| && scores[j].1 >= RecommendThreshold ==> scores[j] in rs
    ensures forall j :: 0 <= j < |scores| ==>
      (scores[j].0 in Keys(rs) <==> scores[j].1 >= RecommendThreshold)
    ensures forall k :: 0 <= k < |rs| ==> rs[k] in scores
  {
    SubsequenceMembers(rs, scores);
    forall j | 0 <= j < |scores| && scores[j].0 in Keys(rs)
      ensures scores[j].1 >= RecommendThreshold
    {
      RecommendedKey(scores, rs, j);
    }
    forall j | 0 <= j < |scores| && scores[j].1 >= RecommendThreshold
      ensures scores[j].0 in Keys(rs)
    {
      var k :| 0 <= k < |rs| && rs[k] == scores[j];
      assert Keys(rs)[k] == scores[j].0;
    }
  }

  /** A recommended category, having a single score, is recommended with
      that score. */
  lemma RecommendedKey(scores: seq<(string, real)>, rs: seq<Recommendation>, j: nat)
    requires NoDups(Keys(scores))
    requires forall k :: 0 <= k < |rs| ==> rs[k].1 >= RecommendThreshold && rs[k] in scores
    requires j < |scores| && scores[j].0 in Keys(rs)
    ensures scores[j] in rs
  {
    var k :| 0 <= k < |rs| && Keys(rs)[k] == scores[j].0;
    var j' :| 0 <= j' < |scores| && scores[j'] == rs[k];
    assert Keys(scores)[j] == Keys(scores)[j'];
  }

  /** `create_budget_template`: every category gets the part of `income`
      that its average is of the sum of the averages, and then the
      'savings' line is set to a tenth of the income, replacing in place a
      category of that name or else appended at the end. The source divides
      by the sum of the averages whenever there is one, so it must then be
      non-zero. */
  function CreateBudgetTemplate(avg: seq<(string, real)>, income: real): (budget: seq<(string, real)>)
    requires NoDups(Keys(avg))
    requires avg == [] || Sum(Values(avg)) != 0.0
    ensures NoDups(Keys(budget))
    ensures SavingsKey in Keys(avg) ==> Keys(budget) == Keys(avg)
    ensures SavingsKey !in Keys(avg) ==> Keys(budget) == Keys(avg) + [SavingsKey]
    ensures forall i :: 0 <= i < |avg| && avg[i].0 != SavingsKey ==>
      budget[i].1 == income * (avg[i].1 / Sum(Values(avg)))
    ensures forall i :: 0 <= i < |budget| && budget[i].0 == SavingsKey ==> budget[i].1 == income * SavingsRate
    ensures avg == [] ==> budget == [(SavingsKey, income * SavingsRate)]
  {
    var averageTotal := Sum(Values(avg));
    var shares := seq(|avg|, i requires 0 <= i < |avg| && averageTotal != 0.0 =>
                               (avg[i].0, income * (avg[i].1 / averageTotal)));
    assert Keys(shares) == Keys(avg);
    Put(shares, SavingsKey, income * SavingsRate)
  }

  /** Without a category named 'savings' the category lines share out the
      whole income, and the budget as a whole plans 110 percent of it. */
  lemma AllocationsAddUpToIncome(avg: seq<(string, real)>, income: real)
    requires NoDups(Keys(avg))
    requires avg != [] && Sum(Values(avg)) != 0.0
    requires SavingsKey !in Keys(avg)
    ensures var budget := CreateBudgetTemplate(avg, income);
      Sum(Values(budget[..|avg|])) == income &&
      Sum(Values(budget)) == income + income * SavingsRate
  {
    var budget := CreateBudgetTemplate(avg, income);
    var total := Sum(Values(avg));
    var lines := Values(budget[..|avg|]);
    assert Sum(lines) == income by {
      CategoryLinesScale(avg, income, budget);
      SumScales(Values(avg), lines, income / total);
      Cancel(income, total);
    }
    SavingsLineLast(avg, income, budget);
    SumOfAppend(Whole, lines, [income * SavingsRate]);
  }

  /** Without a category named 'savings', the savings line comes last. */
  lemma SavingsLineLast(avg: seq<(string, real)>, income: real, budget: seq<(string, real)>)
    requires NoDups(Keys(avg))
    requires avg != [] && Sum(Values(avg)) != 0.0
    requires SavingsKey !in Keys(avg)
    requires budget == CreateBudgetTemplate(avg, income)
    ensures Values(budget) == Values(budget[..|avg|]) + [income * SavingsRate]
  {
    assert |budget| == |avg| + 1 by {
      assert |Keys(budget)| == |Keys(avg) + [SavingsKey]|;
    }
    assert budget[|avg|].0 == SavingsKey by {
      assert Keys(budget)[|avg|] == SavingsKey;
    }
    assert budget == budget[..|avg|] + [budget[|avg|]];
  }

  /** Each category line is the income scaled by the line's average over
      the sum of the averages. */
  lemma CategoryLinesScale(avg: seq<(string, real)>, income: real, budget: seq<(string, real)>)
    requires NoDups(Keys(avg))
    requires avg != [] && Sum(Values(avg)) != 0.0
    requires SavingsKey !in Keys(avg)
    requires budget == CreateBudgetTemplate(avg, income)
    ensures |budget| > |avg|
    ensures forall i :: 0 <= i < |avg| ==>
      Values(budget[..|avg|])[i] == (income / Sum(Values(avg))) * Values(avg)[i]
  {
    var total := Sum(Values(avg));
    assert |Keys(budget)| == |Keys(avg) + [SavingsKey]|;
    forall i | 0 <= i < |avg|
      ensures Values(budget[..|avg|])[i] == (income / total) * Values(avg)[i]
    {
      assert avg[i].0 != SavingsKey by {
        assert Keys(avg)[i] == avg[i].0;
      }
      Rescale(income, avg[i].1, total);
    }
  }

  lemma Rescale(income: real, v: real, total: real)
    requires total != 0.0
    ensures income * (v / total) == (income / total) * v
  {
  }

  lemma Cancel(income: real, total: real)
    requires total != 0.0
    ensures (income / total) * total == income
  {
  }

  /** When every amount is spending (none is negative), at most three
      categories can each hold 30 percent of the total, so there are at
      most three recommendations. */
  lemma AtMostThreeRecommendations(ts: seq<Txn>)
    requires Sum(Amounts(ts)) != 0.0
    requires forall i :: 0 <= i < |ts| ==> ts[i].amount >= 0.0
    ensures |Recommendations(ts)| <= 3
  {
    var scores := Shares(SpendingGroups(ts), Sum(Amounts(ts)));
    RecommendationsOfScores(ts);
    SpendingScores(ts, scores);
    TotalSpendingIsSum(ts);
    SharesAddUpToHundred(SpendingGroups(ts), Sum(Amounts(ts)));
    AtMostThreeOf(Recommend(scores), scores);
  }

  lemma RecommendationsOfScores(ts: seq<Txn>)
    requires Sum(Amounts(ts)) != 0.0
    ensures Recommendations(ts) == Recommend(Shares(SpendingGroups(ts), Sum(Amounts(ts))))
  {
    TotalSpendingIsSum(ts);
  }

  /** Without negative amounts the total is positive and no category's
      share is negative. */
  lemma SpendingScores(ts: seq<Txn>, scores: seq<(string, real)>)
    requires Sum(Amounts(ts)) != 0.0
    requires forall i :: 0 <= i < |ts| ==> ts[i].amount >= 0.0
    requires scores == Shares(SpendingGroups(ts), Sum(Amounts(ts)))
    ensures Sum(Amounts(ts)) > 0.0
    ensures forall j :: 0 <= j < |scores| ==> scores[j].1 >= 0.0
  {
    var pairs := CategoryOrDefaultPairs(ts);
    var g := SpendingGroups(ts);
    var total := Sum(Amounts(ts));
    assert total > 0.0 by {
      assert Values(pairs) == Amounts(ts);
      NonNegativeAmounts(pairs, Amounts(ts));
    }
    forall j | 0 <= j < |scores| ensures scores[j].1 >= 0.0 {
      NonNegativeGroup(pairs, g[j].0);
      PercentNonNegative(Sum(g[j].1), total);
    }
  }

  /** The groups' shares of their own grand total add up to 100 percent. */
  lemma SharesAddUpToHundred(g: seq<(string, seq<real>)>, total: real)
    requires total != 0.0 && GroupTotal(Whole, g) == total
    ensures Sum(Values(Shares(g, total))) == 100.0
  {
    ScoresTotal(g, total);
    Cancel(100.0, total);
  }

  /** Entries of at least 30 taken from non-negative values that add up to
      100 are at most three. */
  lemma AtMostThreeOf(rs: seq<Recommendation>, scores: seq<(string, real)>)
    requires IsSubsequence(rs, scores)
    requires forall k :: 0 <= k < |rs| ==> rs[k].1 >= RecommendThreshold
    requires forall j :: 0 <= j < |scores| ==> scores[j].1 >= 0.0
    requires Sum(Values(scores)) == 100.0
    ensures |rs| <= 3
  {
    SubsequenceValuesAtMost(rs, scores);
    ThresholdTotal(rs);
  }

  lemma NonNegativeAmounts(pairs: seq<(string, real)>, xs: seq<real>)
    requires xs == Values(pairs)
    requires forall i :: 0 <= i < |pairs| ==> pairs[i].1 >= 0.0
    ensures Sum(xs) >= 0.0
  {
    SumOfNonNegative(IncomePart, xs);
    assert forall i :: 0 <= i < |xs| ==> IncomePart(xs[i]) == xs[i];
    SumOfSamePart(xs);
  }

  /** On amounts that are never negative, the sum is the sum of the
      positive ones. */
  lemma {:induction false} SumOfSamePart(xs: seq<real>)
    requires forall i :: 0 <= i < |xs| ==> IncomePart(xs[i]) == xs[i]
    ensures Sum(xs) == Income(xs)
    decreases |xs|
  {
    if xs != [] {
      SumOfSamePart(xs[..|xs| - 1]);
    }
  }

  lemma {:induction false} NonNegativeGroup(pairs: seq<(string, real)>, k: string)
    requires forall i :: 0 <= i < |pairs| ==> pairs[i].1 >= 0.0
    ensures Sum(AmountsOf(pairs, k)) >= 0.0
    decreases |pairs|
  {
    if pairs != [] {
      var last := pairs[|pairs| - 1];
      NonNegativeGroup(pairs[..|pairs| - 1], k);
      SumOfAppend(Whole, AmountsOf(pairs[..|pairs| - 1], k), if last.0 == k then [last.1] else []);
      assert Sum([last.1]) == last.1 by {
        assert [last.1][..0] == [];
      }
    }
  }

  lemma PercentNonNegative(part: real, total: real)
    requires part >= 0.0 && total > 0.0
    ensures Percent(part, total) >= 0.0
  {
  }

  /** Dropping entries whose values are never negative can only lower the
      sum of the values. */
  lemma {:induction false} SubsequenceValuesAtMost(a: seq<(string, real)>, b: seq<(string, real)>)
    requires IsSubsequence(a, b)
    requires forall j :: 0 <= j < |b| ==> b[j].1 >= 0.0
    ensures Sum(Values(a)) <= Sum(Values(b))
    decreases |b|
  {
    if a == [] {
      SumOfNonNegative(IncomePart, Values(b));
      SumOfSamePart(Values(b));
    } else {
      assert Values(b) == [b[0].1] + Values(b[1..]);
      SumFront(b[0].1, Values(b[1..]));
      if a[0] == b[0] && IsSubsequence(a[1..], b[1..]) {
        SubsequenceValuesAtMost(a[1..], b[1..]);
        assert Values(a) == [a[0].1] + Values(a[1..]);
        SumFront(a[0].1, Values(a[1..]));
      } else {
        SubsequenceValuesAtMost(a, b[1..]);
      }
    }
  }

  lemma SumFront(x: real, xs: seq<real>)
    ensures Sum([x] + xs) == x + Sum(xs)
  {
    SumOfAppend(Whole, [x], xs);
    assert [x][..0] == [];
  }

  /** The shares of all groups add up to the grand total's share. */
  lemma ScoresTotal(g: seq<(string, seq<real>)>, total: real)
    requires total != 0.0
    ensures Sum(Values(Shares(g, total))) == (100.0 / total) * GroupTotal(Whole, g)
  {
    var sums := GroupSums(g);
    var shares := Values(Shares(g, total));
    SharesScale(g, total, sums, shares);
    GroupSumsTotal(g);
  }

  /** The sum of every group, in order. */
  function GroupSums(g: seq<(string, seq<real>)>): (sums: seq<real>)
    ensures |sums| == |g|
    ensures forall j :: 0 <= j < |g| ==> sums[j] == Sum(g[j].1)
  {
    seq(|g|, j requires 0 <= j < |g| => Sum(g[j].1))
  }

  lemma SharesScale(g: seq<(string, seq<real>)>, total: real, sums: seq<real>, shares: seq<real>)
    requires total != 0.0
    requires sums == GroupSums(g) && shares == Values(Shares(g, total))
    ensures Sum(shares) == (100.0 / total) * Sum(sums)
  {
    forall j | 0 <= j < |sums| ensures shares[j] == (100.0 / total) * sums[j] {
      Rescale(100.0, sums[j], total);
    }
    SumScales(sums, shares, 100.0 / total);
  }

  lemma {:induction false} GroupSumsTotal(g: seq<(string, seq<real>)>)
    ensures Sum(GroupSums(g)) == GroupTotal(Whole, g)
    decreases |g|
  {
    if g != [] {
      assert GroupSums(g)[..|g| - 1] == GroupSums(g[..|g| - 1]);
      GroupSumsTotal(g[..|g| - 1]);
    }
  }

  /** Values that each reach the threshold add up to at least the threshold
      times their number. */
  lemma {:induction false} ThresholdTotal(rs: seq<Recommendation>)
    requires forall k :: 0 <= k < |rs| ==> rs[k].1 >= RecommendThreshold
    ensures Sum(Values(rs)) >= RecommendThreshold * (|rs| as real)
    decreases |rs|
  {
    if rs != [] {
      assert Values(rs)[..|rs| - 1] == Values(rs[..|rs| - 1]);
      ThresholdTotal(rs[..|rs| - 1]);
    }
  }

  datatype Status = InBudget | NotInBudget

  datatype Comparison = Comparison(actual: real, planned: real, diff: real, status: Status)

  /** The status label the source prints for each status. */
  function StatusLabel(s: Status): string {
    match s
    case InBudget => "in budget"
    case NotInBudget => "not in budget"
  }

  /** `actual_by_category`: the net amount of every category present, in
      order of first occurrence. */
  function ActualByCategory(ts: seq<Txn>): (totals: seq<(string, real)>)
    ensures Keys(totals) == Dedup(Keys(CategoryOrDefaultPairs(ts)))
    ensures forall i :: 0 <= i < |totals| ==> totals[i].1 == Sum(Spent(ts, totals[i].0))
  {
    var g := Group(CategoryOrDefaultPairs(ts));
    var totals := seq(|g|, i requires 0 <= i < |g| => (g[i].0, Sum(g[i].1)));
    assert Keys(totals) == Keys(g);
    totals
  }

  /** `actual_by_category.get(cat, 0)`: the net amount spent in `cat`,
      which is 0 when no record has that category. */
  function ActualOf(ts: seq<Txn>, c: string): (x: real)
    ensures x == Sum(Spent(ts, c))
    ensures c !in Keys(CategoryOrDefaultPairs(ts)) ==> x == 0.0
  {
    var totals := ActualByCategory(ts);
    if c !in Keys(CategoryOrDefaultPairs(ts)) then
      AbsentKeyHasNoAmounts(CategoryOrDefaultPairs(ts), c);
      Lookup(totals, c).GetOr(0.0)
    else
      assert c in Keys(totals);
      assert Lookup(totals, c) == Some(totals[IndexOf(totals, c)].1);
      Lookup(totals, c).GetOr(0.0)
  }

  /** `compare_budget_vs_actual`: one entry per budget line, in budget
      order, pairing the planned amount with the net amount actually spent
      in that category; the line is in budget exactly when the difference
      planned minus actual is not negative. Categories spent in but not
      budgeted do not appear. */
  function CompareBudgetVsActual(budget: seq<(string, real)>, ts: seq<Txn>): (cmp: seq<(string, Comparison)>)
    ensures Keys(cmp) == Keys(budget)
    ensures forall i :: 0 <= i < |cmp| ==>
      cmp[i].1.planned == budget[i].1 &&
      cmp[i].1.actual == Sum(Spent(ts, budget[i].0)) &&
      cmp[i].1.diff == cmp[i].1.planned - cmp[i].1.actual &&
      (cmp[i].1.status == InBudget <==> cmp[i].1.planned >= cmp[i].1.actual)
    ensures forall i :: 0 <= i < |cmp| ==>
      StatusLabel(cmp[i].1.status) == (if cmp[i].1.diff >= 0.0 then "in budget" else "not in budget")
  {
    var cmp := seq(|budget|, i requires 0 <= i < |budget| =>
      var actual := ActualOf(ts, budget[i].0);
      var diff := budget[i].1 - actual;
      (budget[i].0, Comparison(actual, budget[i].1, diff, if diff >= 0.0 then InBudget else NotInBudget)));
    assert Keys(cmp) == Keys(budget);
    cmp
  }

  /** Net amount actually spent over all lines of a comparison. */
  function ActualTotal(cmp: seq<(string, Comparison)>): real
    decreases |cmp|
  {
    if cmp == [] then 0.0 else ActualTotal(cmp[..|cmp| - 1]) + cmp[|cmp| - 1].1.actual
  }

  /** When the budget has a line for every category spent in, the
      comparison accounts for all spending: its actual amounts add up to
      the net sum of all amounts. */
  lemma ComparisonCoversSpending(budget: seq<(string, real)>, ts: seq<Txn>)
    requires NoDups(Keys(budget))
    requires forall i :: 0 <= i < |ts| ==> CategoryOrDefault(ts[i]) in Keys(budget)
    ensures ActualTotal(CompareBudgetVsActual(budget, ts)) == Sum(Amounts(ts))
  {
    var pairs := CategoryOrDefaultPairs(ts);
    ActualTotalIsKeyed(CompareBudgetVsActual(budget, ts), ts);
    KeyedTotalCovers(Whole, Keys(budget), pairs);
    assert Values(pairs) == Amounts(ts);
  }

  lemma {:induction false} ActualTotalIsKeyed(cmp: seq<(string, Comparison)>, ts: seq<Txn>)
    requires forall i :: 0 <= i < |cmp| ==> cmp[i].1.actual == Sum(Spent(ts, cmp[i].0))
    ensures ActualTotal(cmp) == KeyedTotal(Whole, Keys(cmp), CategoryOrDefaultPairs(ts))
    decreases |cmp|
  {
    if cmp != [] {
      assert Keys(cmp)[..|cmp| - 1] == Keys(cmp[..|cmp| - 1]);
      ActualTotalIsKeyed(cmp[..|cmp| - 1], ts);
    }
  }
}

/** Worked examples of the budget planner. */
module BudgetExamples {
  import opened Wrappers
  import opened Sums
  import opened Grouping
  import opened Transactions
  import opened BudgetPlanning

  /** Averages of 100 and 200 share an income of 3000 out as 1000 and 2000,
      and savings get 300. */
  lemma TemplateExample()
    ensures var avg := [("Food", 100.0), ("Rent", 200.0)];
      Sum(Values(avg)) == 300.0 &&
      CreateBudgetTemplate(avg, 3000.0) == [("Food", 1000.0), ("Rent", 2000.0), (SavingsKey, 300.0)]
  {
    var avg := [("Food", 100.0), ("Rent", 200.0)];
    assert Keys(avg) == ["Food", "Rent"];
    assert Values(avg) == [100.0, 200.0];
    assert [100.0, 200.0][..1] == [100.0];
    assert [100.0][..0] == [];
    var budget := CreateBudgetTemplate(avg, 3000.0);
    assert SavingsKey !in Keys(avg);
    assert Keys(budget) == ["Food", "Rent", SavingsKey];
  }

  /** A category literally named 'savings' keeps its place but loses its
      proportional line to the fixed tenth of the income. */
  lemma SavingsCategoryOverwritten()
    ensures var avg := [(SavingsKey, 50.0), ("Food", 50.0)];
      Sum(Values(avg)) == 100.0 &&
      CreateBudgetTemplate(avg, 1000.0) == [(SavingsKey, 100.0), ("Food", 500.0)]
  {
    var avg := [(SavingsKey, 50.0), ("Food", 50.0)];
    assert Keys(avg) == [SavingsKey, "Food"];
    assert Values(avg) == [50.0, 50.0];
    assert [50.0, 50.0][..1] == [50.0];
    assert [50.0][..0] == [];
    var budget := CreateBudgetTemplate(avg, 1000.0);
    assert Keys(budget) == [SavingsKey, "Food"];
    assert "Food" != SavingsKey;
  }

  /** Overspending one category and leaving savings untouched: the first
      line is over budget, the savings line is in budget with nothing
      spent, and the uncategorised record (counted as 'other') is not
      reported because 'other' has no budget line. */
  lemma ComparisonExample()
    ensures var ts := [Txn("2024-01-15", 1200.0, Some("Food"), ""), Txn("2024-01-16", 50.0, None, "")];
      CompareBudgetVsActual([("Food", 1000.0), (SavingsKey, 300.0)], ts)
        == [("Food", Comparison(1200.0, 1000.0, -200.0, NotInBudget)),
            (SavingsKey, Comparison(0.0, 300.0, 300.0, InBudget))]
  {
    var ts := [Txn("2024-01-15", 1200.0, Some("Food"), ""), Txn("2024-01-16", 50.0, None, "")];
    var pairs := CategoryOrDefaultPairs(ts);
    assert pairs == [("Food", 1200.0), (DefaultCategory, 50.0)];
    assert pairs[..1] == [("Food", 1200.0)];
    assert pairs[..1][..0] == [];
    assert "Food" != DefaultCategory;
    assert SavingsKey != DefaultCategory && SavingsKey != "Food";
    assert AmountsOf(pairs[..1], "Food") == [1200.0];
    assert AmountsOf(pairs, "Food") == [1200.0];
    assert AmountsOf(pairs[..1], SavingsKey) == [];
    assert AmountsOf(pairs, SavingsKey) == [];
    assert [1200.0][..0] == [];
    var cmp := CompareBudgetVsActual([("Food", 1000.0), (SavingsKey, 300.0)], ts);
    assert Keys(cmp) == ["Food", SavingsKey];
  }
}
