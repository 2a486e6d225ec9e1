# Personal finance core: classifier, aggregator, budget planner

A Dafny model of the computational core of a small personal-finance toolkit.

- **Classifier** (classify_transactions.py). It holds a fixed, ordered table of 15 categories with their keywords. It labels a bank-statement description with the first category that has a keyword occurring in the lower-cased description, or "Другое" when none does. It labels a whole list of records the same way.
- **Aggregator** (analyze_finance.py and role_3.py). It computes:
  - basic totals: income, expense, balance and record count;
  - per-category net sums and counts, with each category's share of total income or total expense in percent;
  - per-month income and expenses.

  The two files hold the same code. They differ only in dict key names, in `float(...)` on amounts (analyze_finance.py), and in the date layout: 'DD.MM.YYYY' in analyze_finance.py, 'YYYY-MM-DD' in role_3.py. Module `Aggregator` models the shared code. Modules `AnalyzeFinance` and `Role3` add each file's date layout and month key. The rows below that cite analyze_finance.py also model the identical functions at role_3.py lines 6-44.
- **Budget planner** (budget_planning.py). It does three things:
  - averages past spending per category and recommends cutting any category that holds at least 30 percent of all spending;
  - shares an income out in proportion to those averages, plus a fixed savings line of a tenth of the income;
  - compares such a budget with actual spending.

Records are the datatype `Transactions.Txn`:
- the date is text;
- the amount is an exact `real`;
- the category is optional;
- the description is text.

Python dicts keep insertion order, and that order decides results here: which category wins, and the order of averages and recommendations. So every dict is an association list `seq<(K, V)>`. Its keys are distinct, in order of first insertion (`Sequences.Dedup`). Grouping a list of (key, amount) pairs (`Grouping.Group`) is the `setdefault(...).append(...)` / `d[k] += x` loop. All sums are one generic fold, `Sums.SumOf`, with a "part" function per filter: all, positive, negative, or magnitude of the non-positive. This lets a single partition lemma serve every total.

Error behaviour follows the code:
- an unparsable date makes `analyze_by_time` return `None`, standing for the ValueError;
- a record without a category is a precondition of the aggregator, standing for the KeyError;
- the budget planner divides by a total without a guard, so a non-zero total is a precondition where the code would raise ZeroDivisionError.

Points where the code's behaviour is easy to misread; the model follows the code:
- **"No match" label.** The docstring of `categorize_transaction` (classify_transactions.py:89) says the fallback is "Other". The code returns "Другое" (classify_transactions.py:95), and so does `Classifier.FirstMatch`.
- **"Покупка в Пятерочке".** This is labelled "Другое", not Супермаркеты (classify_transactions.py:91-95). The inflected form "пятерочке" does not contain the keyword "пятерочка", and no other keyword occurs. `ClassifierProps.PurchaseInPyaterochkaIsOther` proves this.
- **Over-budget label.** A line whose difference is negative is labelled 'not in budget' (budget_planning.py:39).
- **Zero totals in the budget planner.** The code divides by `total_spending` and `average_total` without a guard (budget_planning.py:11, 22). A zero total raises ZeroDivisionError, which is modelled as preconditions.

The keyword "вкусВилл" (classify_transactions.py:13) has an upper-case letter. It can therefore never occur in a lower-cased description (`ClassifierProps.MixedCaseKeywordNeverMatches`).

## Model

| member | source | states |
|---|---|---|
| Classifier.CreateCategories | classify_transactions.py:9-78 | the category table has 15 entries (its names and keyword lists are fixed by the body, not by the contract; see Left out) |
| Text.Contains | classify_transactions.py:93 | `key_word in lower_descr` holds exactly when the keyword occurs as a contiguous substring at some position |
| Text.LowerIdempotent | classify_transactions.py:91 | lower-casing twice gives the same text as lower-casing once |
| Text.LowerHasNoUpper | classify_transactions.py:91 | a lower-cased text holds no character that the model's lower-casing changes: no Latin A-Z and no Cyrillic U+0400 to U+042F. Other capitals, such as À or Ѣ, are outside these ranges and are kept |
| Classifier.HasKeyword | classify_transactions.py:93 | `any(...)` over a keyword list is true exactly when some keyword of the list occurs in the text |
| Classifier.FirstMatch | classify_transactions.py:92-95 | the result is the first category in table order with an occurring keyword, "Другое" when there is none, and always a table key or "Другое" |
| Classifier.CategorizeTransaction | classify_transactions.py:80-95 | the same, for the lower-cased description |
| ClassifierProps.MatchCases | classify_transactions.py:92-95 | every text either matches no category or has a first matching category, so the two cases of the result cover all inputs |
| ClassifierProps.CaseInsensitive | classify_transactions.py:91 | classifying a description and its lower-cased form give the same category |
| ClassifierProps.MetroIsSupermarket | classify_transactions.py:92-94 | "метро" is a keyword of both Супермаркеты and Общественный транспорт, and any description containing it is labelled Супермаркеты, the earlier entry |
| ClassifierProps.MixedCaseKeywordNeverMatches | classify_transactions.py:13 | the Супермаркеты keyword "вкусВилл" never occurs in any lower-cased description |
| ClassifierProps.PurchaseInPyaterochkaIsOther | classify_transactions.py:91-95 | "Покупка в Пятерочке" is labelled "Другое", because "пятерочке" does not contain "пятерочка" and no other keyword occurs |
| ClassifierProps.PurchaseTextMatchesNoEntry | classify_transactions.py:92-95 | no keyword of any of the 15 entries occurs in "покупка в пятерочке" |
| Classifier.CategorizeAll | classify_transactions.py:110-116 | the output has the input's length and order; each record gets the category of its own description, all other fields unchanged, and every record is then categorised |
| Classifier.CategorizeAllTransactions | classify_transactions.py:107-116 | the same with the fixed category table |
| Sums.Signs | analyze_finance.py:6-9 | the sum of the positive amounts is at least 0, the sum of the negative ones at most 0, and the sum of the magnitudes of the non-positive ones at least 0 |
| Sums.SumSplits | analyze_finance.py:10 | the net sum equals positive part plus negative part, and equals positive part minus the magnitudes of the non-positive part |
| Aggregator.CalculateBasicStats | analyze_finance.py:5-18 | income is the sum of the positive amounts and at least 0; expense is the sum of the negative amounts and at most 0; the balance is their sum and equals the net sum; the count is the number of records; empty input gives all zeros |
| Aggregator.ZeroAmountOnlyCounts | analyze_finance.py:6-11 | a record with amount 0 raises the count by one and leaves income, expense and balance unchanged |
| Aggregator.BasicStatsAdditive | analyze_finance.py:6-11 | the totals and the count of two batches together are the sums of each batch's totals and counts |
| Grouping.Group | analyze_finance.py:30-35 | grouping keeps each key once, in order of first occurrence; every key's group is exactly that key's amounts in input order, never empty |
| Grouping.GroupsPartition | analyze_finance.py:30-35 | the groups partition the input: for any part function, the group totals add up to the input total, and the group sizes add up to the input length |
| Aggregator.CalculateByCategory | analyze_finance.py:21-48 | one entry per category present, in first-occurrence order, with that category's net sum and record count (at least 1). A negative sum gets expense percent \|sum\| / \|total expense\| × 100 (0 if that total is 0) and income percent 0. Otherwise income percent is sum / total income × 100 (0 if that total is 0) and expense percent is 0. Both percentages lie in [0, 100] |
| Aggregator.SharesInRange | analyze_finance.py:37-46 | a category's percentage of a total it is part of lies between 0 and 100, so no branch exceeds 100 percent |
| Aggregator.ExpenseGuardUnreachable | analyze_finance.py:38-40 | a category with a negative net sum forces a negative total expense, so the zero-total guard of that branch never applies |
| Aggregator.CategoryTotalsReconcile | analyze_finance.py:30-35 | the category sums add up to the balance, and the category counts add up to the number of records |
| Aggregator.AnalyzeByTime | analyze_finance.py:51-64 | the result is None exactly when some date does not parse. Otherwise there is one entry per month present, in order of first occurrence. Income is the sum of the month's positive amounts; expenses is the sum of \|x\| over its amounts x ≤ 0; both are at least 0 |
| Aggregator.MonthTotalsReconcile | analyze_finance.py:59-62 | the months' incomes add up to total income, and incomes minus expenses over all months add up to the balance |
| Aggregator.ZeroMonth | analyze_finance.py:52-62 | a month whose amounts are all 0 still appears, with income 0 and expenses 0 |
| Dates.ParseDate | analyze_finance.py:55 | a parsed date is a real calendar date with a four-digit year, and the parsed text is ten characters long |
| Dates.ParseFormat | analyze_finance.py:55-56 | every valid date is read back unchanged from its own zero-padded text, in either layout |
| Dates.FormatParse | role_3.py:51-52 | every text the parser accepts is exactly the zero-padded text of the date it yields |
| Dates.MonthKey | analyze_finance.py:56 | `strftime('%Y-%m')` is seven characters with a dash at position 4 |
| Dates.DayMonthYearKey | analyze_finance.py:55-56 | the month key of a parsed 'DD.MM.YYYY' text is its year digits, a dash, and its month digits |
| Dates.YearMonthDayKey | role_3.py:51-52 | the month key of a parsed 'YYYY-MM-DD' text is its first seven characters |
| AnalyzeFinance.AnalyzeByTime | analyze_finance.py:51-64 | fails exactly when some date is not a valid 'DD.MM.YYYY' date. Otherwise the month keys are `date[6..10] + "-" + date[3..5]` of the records, deduplicated in order, with each month's income and expenses taken over the records bearing that key |
| Role3.AnalyzeByTime | role_3.py:47-58 | fails exactly when some date is not a valid 'YYYY-MM-DD' date. Otherwise the month keys are the first seven characters of the dates, deduplicated in order, with each month's income and expenses taken over the records bearing that key |
| BudgetPlanning.SpendingGroups | budget_planning.py:2-6 | one group per category (a record without one counts as 'other'), in order of first occurrence, holding exactly that category's amounts, never empty |
| BudgetPlanning.TotalSpendingIsSum | budget_planning.py:8 | `total_spending`, the sum of the groups' sums, equals the signed sum of all amounts |
| BudgetPlanning.AverageSpending | budget_planning.py:7 | one average per category present, in first-occurrence order, each the mean of that category's amounts; empty input gives no averages |
| BudgetPlanning.Recommend | budget_planning.py:10-13 | the recommendations are the scored categories whose share is at least 30 percent, each with its share, in their original order |
| BudgetPlanning.RecommendedIff | budget_planning.py:10-12 | with distinct categories, a category is recommended exactly when its share is at least 30 percent, and only with its own share |
| BudgetPlanning.Recommendations | budget_planning.py:8-13 | a category present is recommended exactly when sum(category) / total × 100 ≥ 30, with that percentage. Recommendations keep category order, are no more than the categories, and are empty for empty input |
| BudgetPlanning.AnalyzeHistoricalSpending | budget_planning.py:1-16 | the averages and recommendations above together; the signed total must be non-zero when there is a record |
| BudgetPlanning.SharesAddUpToHundred | budget_planning.py:8-11 | the categories' percentages of the total add up to 100 |
| BudgetPlanning.AtMostThreeRecommendations | budget_planning.py:8-13 | when no amount is negative there are at most three recommendations, since each holds at least 30 of the 100 percent |
| Grouping.Put | budget_planning.py:23 | `d[k] = v` keeps an existing key in place and otherwise appends it; other entries are unchanged, the key maps to the new value, and keys stay distinct |
| BudgetPlanning.CreateBudgetTemplate | budget_planning.py:19-24 | every category not named 'savings' gets income × average / sum of averages, in the averages' order. 'savings' is set to income × 0.1, overwriting a category of that name in place or else appended. Empty averages give exactly the savings line |
| BudgetPlanning.AllocationsAddUpToIncome | budget_planning.py:21-23 | without a 'savings' category, the category lines add up to exactly the income, and the whole budget to 1.1 times the income |
| BudgetExamples.TemplateExample | budget_planning.py:19-24 | averages Food 100 and Rent 200 with income 3000 give Food 1000, Rent 2000 and savings 300 |
| BudgetExamples.SavingsCategoryOverwritten | budget_planning.py:22-23 | a category named 'savings' keeps its position but its line becomes income × 0.1 |
| BudgetPlanning.ActualByCategory | budget_planning.py:28-31 | one total per category spent in, in first-occurrence order, each the net sum of that category's amounts |
| BudgetPlanning.ActualOf | budget_planning.py:34 | `actual_by_category.get(cat, 0)`, computed as a `Lookup` in `ActualByCategory`, is the net sum of the category's amounts, and 0 when no record has the category |
| BudgetPlanning.CompareBudgetVsActual | budget_planning.py:27-41 | one entry per budget line, in budget order. Each entry holds the planned amount, the net amount spent in that category, and their difference. The status is "in budget" exactly when planned ≥ actual, and its label (`StatusLabel`) is 'in budget' when diff ≥ 0 and 'not in budget' otherwise. Categories with spending but no budget line do not appear |
| Grouping.KeyedTotalCovers | budget_planning.py:28-31 | for distinct keys that include every key of the pairs, the per-key totals add up to the total of all pairs |
| BudgetPlanning.ComparisonCoversSpending | budget_planning.py:28-36 | when the budget has a line for every category spent in, the comparison's actual amounts add up to the net sum of all amounts |
| BudgetExamples.ComparisonExample | budget_planning.py:27-41 | with Food planned at 1000 and savings at 300, spending 1200 on Food and 50 uncategorised gives Food: actual 1200, diff −200, "not in budget"; savings: actual 0, diff 300, "in budget"; and no 'other' line |

## Left out

- Classifier.CreateCategories: its contract states only the table's size. The categories and keywords are the constants the body lists, and the lemmas about the table read them.
- Amount parsing with `float(...)` (analyze_finance.py:6-9, 25-32, 57). Amounts are already numbers in the model.
- IEEE floating-point rounding. Amounts and percentages are exact reals, so `income * 0.1` is exactly a tenth, and allocations add up to the income exactly. With floats they would only approximately.
- Python's integer `0` as the result of an empty `sum(...)` or a `defaultdict` default is the real 0.0 here.
- Dates.ParseDate: rejects some texts that `datetime.strptime` accepts. The parser accepts exactly the zero-padded ten-character layout of ASCII digits, with a year from 1 to 9999 and a valid Gregorian day. Any other text gives None, standing for the ValueError. Like Python, it rejects leading or trailing text. Unlike Python, it rejects:
  - a one-digit or space-padded day or month, such as " 5.01.2024" or "5.1.2024";
  - non-ASCII decimal digits, which the `\d` of Python's pattern matches.
- `strftime('%Y')` for years below 1000. Some C libraries print these without padding; the model always prints four digits.
- Text.Lower: implements only part of Python's `str.lower`. It lower-cases A-Z and the Cyrillic capitals U+0400 to U+042F and leaves every other character as it is. Python maps some other characters onto keyword letters, so the model can classify differently:
  - KELVIN SIGN U+212A becomes 'k' in Python, so "\u212AINOPUB" is Онлайн кинотеатры in Python and "Другое" here;
  - U+0130 becomes "i" followed by U+0307 in Python, so "IVİ" contains "ivi" there but not here.
- The text of a recommendation, an f-string with `:.1f`. A recommendation is the pair (category, percentage).
- In-place mutation of the input records by `categorize_all_transactions`. The model returns updated copies; the returned list is the same either way.
- A missing 'Категория'/'category' field in the aggregator raises KeyError. It is the precondition `Categorized` instead.
- A missing 'amount', 'date' or 'Описание' field: every record has all fields.
- `print_financial_report` and the demo script (budget_planning.py:44-75). They are console output and module-level calls.
