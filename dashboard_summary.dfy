/**
 * The four summary cards: total spending, number of transactions, this
 * month's spending and the top category over all transactions. "Now" is a
 * parameter.
 */
module DashboardSummary {
  import opened Model
  import opened Aggregates

  /** The `summaryData` object (the month name is left to the view). */
  datatype Summary = Summary(
    totalExpenses: real,
    transactionCount: nat,
    currentMonthExpenses: real,
    currentYear: int,
    topCategory: string,
    topCategoryAmount: real)

  /** The `summaryData` memo. */
  method ComputeSummary(txs: seq<Transaction>, month: MonthIndex, year: int) returns (r: Summary)
    ensures r.totalExpenses == Sum(txs) && r.transactionCount == |txs|
    ensures r.currentMonthExpenses == Sum(InPeriod(txs, month, year)) && r.currentYear == year
    ensures exists top :: IsTop(txs, top, r.topCategoryAmount) && r.topCategory == TopName(top)
  {
    var total := Sum(txs);
    var current := Sum(InPeriod(txs, month, year));
    var top, amount := TopCategoryOf(txs);
    r := Summary(total, |txs|, current, year, TopName(top), amount);
  }

  /** An empty list has total 0, no top category, so the name "None" and amount 0. */
  lemma EmptySummary(top: Option<string>, amount: real)
    requires IsTop([], top, amount)
    ensures top == None && amount == 0.0 && TopName(top) == "None" && Sum([]) == 0.0
  {
    assert FirstAppearance([]) == [];
  }

  /** A winning category missing from the registry keeps its amount but is shown as "None". */
  lemma UnknownWinnerShowsNone(txs: seq<Transaction>, top: Option<string>, amount: real)
    requires IsTop(txs, top, amount) && top.Some? && !IsCategoryId(top.value)
    ensures TopName(top) == "None" && amount > 0.0 && amount == Sum(WithKey(txs, top.value, Resolved))
  {
  }

  /** With non-negative amounts, this month's spending and the top amount never exceed the total. */
  lemma SummaryBounds(txs: seq<Transaction>, month: MonthIndex, year: int, top: Option<string>, amount: real)
    requires IsTop(txs, top, amount)
    requires forall t :: t in txs ==> t.amount >= 0.0
    ensures 0.0 <= Sum(InPeriod(txs, month, year)) <= Sum(txs)
    ensures 0.0 <= amount <= Sum(txs)
  {
    PeriodSumAtMostTotal(txs, month, year);
    SumNonNegative(InPeriod(txs, month, year));
    TopAtMostSum(txs, top, amount);
  }
}
