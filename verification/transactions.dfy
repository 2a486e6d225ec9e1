/** The transaction record shared by all components.

    The source passes dicts; their keys differ between files:
    analyze_finance.py and classify_transactions.py use 'Дата', 'Сумма',
    'Категория', 'Описание'; role_3.py and budget_planning.py use 'date',
    'amount', 'category'. A field the source reads with `t[key]` is a field
    of the record. The category is optional because the classifier adds it
    and the budget planner reads it with `t.get('category', 'other')`. */
module Transactions {
  import opened Wrappers

  datatype Txn = Txn(date: string, amount: real, category: Option<string>, description: string)

  /** The amounts, in order. */
  function Amounts(ts: seq<Txn>): (xs: seq<real>)
    ensures |xs| == |ts|
    ensures forall i :: 0 <= i < |ts| ==> xs[i] == ts[i].amount
  {
    seq(|ts|, i requires 0 <= i < |ts| => ts[i].amount)
  }

  /** Every record carries a category, so `t['category']` does not raise
      KeyError. */
  predicate Categorized(ts: seq<Txn>) {
    forall i :: 0 <= i < |ts| ==> ts[i].category.Some?
  }

  /** (category, amount) of every record, in order. */
  function CategoryPairs(ts: seq<Txn>): (ps: seq<(string, real)>)
    requires Categorized(ts)
    ensures |ps| == |ts|
    ensures forall i :: 0 <= i < |ts| ==> ps[i] == (ts[i].category.value, ts[i].amount)
  {
    seq(|ts|, i requires 0 <= i < |ts| && Categorized(ts) => (ts[i].category.value, ts[i].amount))
  }

  /** The category label used when a record has none. */
  const DefaultCategory: string := "other"

  /** `t.get('category', 'other')`. */
  function CategoryOrDefault(t: Txn): string {
    t.category.GetOr(DefaultCategory)
  }

  /** (category or 'other', amount) of every record, in order. */
  function CategoryOrDefaultPairs(ts: seq<Txn>): (ps: seq<(string, real)>)
    ensures |ps| == |ts|
    ensures forall i :: 0 <= i < |ts| ==> ps[i] == (CategoryOrDefault(ts[i]), ts[i].amount)
  {
    seq(|ts|, i requires 0 <= i < |ts| => (CategoryOrDefault(ts[i]), ts[i].amount))
  }
}
