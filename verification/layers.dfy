/** analyze_finance.py: the aggregator on records whose dates are written
    'DD.MM.YYYY'. Its totals and category statistics are those of module
    Aggregator; what is its own is the month key, taken from the date text. */
module AnalyzeFinance {
  import opened Wrappers
  import opened Sequences
  import opened Sums
  import opened Grouping
  import opened Transactions
  import opened Dates
  import A = Aggregator

  /** Every date is long enough to carry a 'DD.MM.YYYY' month. */
  predicate DatesSized(ts: seq<Txn>) {
    forall i :: 0 <= i < |ts| ==> |ts[i].date| >= 10
  }

  /** 'YYYY-MM' spelled out of a 'DD.MM.YYYY' text. */
  function MonthText(date: string): (key: string)
    requires |date| >= 10
    ensures |key| == 7 && key[4] == '-'
  {
    date[6..10] + "-" + date[3..5]
  }

  /** (month text, amount) of every record, in order. */
  function TextPairs(ts: seq<Txn>): (ps: seq<(string, real)>)
    requires DatesSized(ts)
    ensures |ps| == |ts|
    ensures forall i :: 0 <= i < |ts| ==> ps[i] == (MonthText(ts[i].date), ts[i].amount)
  {
    seq(|ts|, i requires 0 <= i < |ts| && DatesSized(ts) => (MonthText(ts[i].date), ts[i].amount))
  }

  /** `analyze_by_time` of analyze_finance.py: fails exactly when a date is
      not a real 'DD.MM.YYYY' date; otherwise the months are the year and
      month digits of the dates, in order of first occurrence, and each
      month holds its positive amounts summed as income and its other
      amounts summed, as magnitudes, as expenses. */
  function AnalyzeByTime(ts: seq<Txn>): (r: Option<seq<(string, A.MonthStats)>>)
    ensures r.Some? <==> A.DatesParse(ts, DayMonthYear)
    ensures r.Some? ==> DatesSized(ts) && Keys(r.value) == Dedup(Keys(TextPairs(ts)))
    ensures r.Some? ==> forall i :: 0 <= i < |r.value| ==>
      r.value[i].1.income == Income(AmountsOf(TextPairs(ts), r.value[i].0)) &&
      r.value[i].1.expenses == Outflow(AmountsOf(TextPairs(ts), r.value[i].0))
  {
    var r := A.AnalyzeByTime(ts, DayMonthYear);
    if r.Some? then
      forall i | 0 <= i < |ts| ensures MonthKey(ParseDate(DayMonthYear, ts[i].date).value) == MonthText(ts[i].date) {
        DayMonthYearKey(ts[i].date);
      }
      assert A.MonthPairs(ts, DayMonthYear) == TextPairs(ts);
      r
    else
      r
  }
}

/** role_3.py: the aggregator on records whose dates are written
    'YYYY-MM-DD'; the month key is the first seven characters of the date. */
module Role3 {
  import opened Wrappers
  import opened Sequences
  import opened Sums
  import opened Grouping
  import opened Transactions
  import opened Dates
  import A = Aggregator

  /** Every date is long enough to carry a 'YYYY-MM' prefix. */
  predicate DatesSized(ts: seq<Txn>) {
    forall i :: 0 <= i < |ts| ==> |ts[i].date| >= 7
  }

  /** (date prefix, amount) of every record, in order. */
  function PrefixPairs(ts: seq<Txn>): (ps: seq<(string, real)>)
    requires DatesSized(ts)
    ensures |ps| == |ts|
    ensures forall i :: 0 <= i < |ts| ==> ps[i] == (ts[i].date[..7], ts[i].amount)
  {
    seq(|ts|, i requires 0 <= i < |ts| && DatesSized(ts) => (ts[i].date[..7], ts[i].amount))
  }

  /** `analyze_by_time` of role_3.py: fails exactly when a date is not a
      real 'YYYY-MM-DD' date; otherwise the months are the first seven
      characters of the dates, in order of first occurrence, with income
      and expenses summed as in analyze_finance.py. */
  function AnalyzeByTime(ts: seq<Txn>): (r: Option<seq<(string, A.MonthStats)>>)
    ensures r.Some? <==> A.DatesParse(ts, YearMonthDay)
    ensures r.Some? ==> DatesSized(ts) && Keys(r.value) == Dedup(Keys(PrefixPairs(ts)))
    ensures r.Some? ==> forall i :: 0 <= i < |r.value| ==>
      r.value[i].1.income == Income(AmountsOf(PrefixPairs(ts), r.value[i].0)) &&
      r.value[i].1.expenses == Outflow(AmountsOf(PrefixPairs(ts), r.value[i].0))
  {
    var r := A.AnalyzeByTime(ts, YearMonthDay);
    if r.Some? then
      forall i | 0 <= i < |ts| ensures MonthKey(ParseDate(YearMonthDay, ts[i].date).value) == ts[i].date[..7] {
        YearMonthDayKey(ts[i].date);
      }
      assert A.MonthPairs(ts, YearMonthDay) == PrefixPairs(ts);
      r
    else
      r
  }
}
