/**
 * The month-over-month insights card: this month's and last month's
 * totals, the change between them, and this month's top category with its
 * share of the month. "Now" is a parameter.
 */
module SpendingInsights {
  import opened Model
  import opened Aggregates

  datatype MonthYear = MonthYear(month: MonthIndex, year: int)

  /** The month before `now`; January steps back to December of the previous year. */
  function PreviousMonth(now: MonthYear): (prev: MonthYear)
    ensures prev.year * 12 + prev.month == now.year * 12 + now.month - 1
  {
    if now.month == 0 then MonthYear(11, now.year - 1) else MonthYear(now.month - 1, now.year)
  }

  /** The previous month is the only month that sits exactly one month before `now`. */
  lemma PreviousMonthUnique(now: MonthYear, m: MonthYear)
    ensures m == PreviousMonth(now) <==> m.year * 12 + m.month == now.year * 12 + now.month - 1
  {
    var p := PreviousMonth(now);
    if m.year * 12 + m.month == now.year * 12 + now.month - 1 {
      assert m.year * 12 + m.month == p.year * 12 + p.month;
      assert m.year == (m.year * 12 + m.month) / 12;
      assert p.year == (p.year * 12 + p.month) / 12;
    }
  }

  /** `previous === 0 ? 100 : ((current - previous) / previous) * 100`. */
  function PercentChange(current: real, previous: real): (p: real)
    ensures previous == 0.0 ==> p == 100.0
    ensures previous != 0.0 ==> p * previous == (current - previous) * 100.0
  {
    if previous == 0.0 then 100.0 else (current - previous) / previous * 100.0
  }

  /** Against a positive previous total, the change is positive exactly when spending grew. */
  lemma PercentChangeSign(current: real, previous: real)
    requires previous > 0.0
    ensures PercentChange(current, previous) > 0.0 <==> current > previous
  {
    var p := PercentChange(current, previous);
    assert p * previous == (current - previous) * 100.0;
    if p > 0.0 {
      assert p * previous > 0.0;
    } else {
      assert p * previous <= 0.0;
    }
  }

  /** `total === 0 ? 0 : (top / total) * 100`. */
  function Share(top: real, total: real): (s: real)
    ensures total == 0.0 ==> s == 0.0
    ensures total != 0.0 ==> s * total == top * 100.0
  {
    if total == 0.0 then 0.0 else top / total * 100.0
  }

  /** The insights object the card renders (month names are left to the view). */
  datatype Insights = Insights(
    currentMonth: MonthIndex,
    previousMonth: MonthIndex,
    currentTotal: real,
    previousTotal: real,
    percentChange: real,
    isIncrease: bool,
    topCategory: string,
    topCategoryAmount: real,
    topCategoryPercentage: real)

  /** The `insights` memo. */
  method ComputeInsights(txs: seq<Transaction>, now: MonthYear) returns (r: Insights)
    ensures r.currentMonth == now.month && r.previousMonth == PreviousMonth(now).month
    ensures r.currentTotal == Sum(InPeriod(txs, now.month, now.year))
    ensures r.previousTotal == Sum(InPeriod(txs, PreviousMonth(now).month, PreviousMonth(now).year))
    ensures r.percentChange == PercentChange(r.currentTotal, r.previousTotal)
    ensures r.isIncrease <==> r.percentChange > 0.0
    ensures exists top :: IsTop(InPeriod(txs, now.month, now.year), top, r.topCategoryAmount)
                       && r.topCategory == TopName(top)
    ensures r.topCategoryPercentage == Share(r.topCategoryAmount, r.currentTotal)
  {
    var prev := PreviousMonth(now);
    var current := InPeriod(txs, now.month, now.year);
    var previous := InPeriod(txs, prev.month, prev.year);
    var currentTotal, previousTotal := Sum(current), Sum(previous);
    var top, topAmount := TopCategoryOf(current);
    var change := PercentChange(currentTotal, previousTotal);
    r := Insights(now.month, prev.month, currentTotal, previousTotal, change, change > 0.0,
                  TopName(top), topAmount, Share(topAmount, currentTotal));
  }

  /** With non-negative amounts the top category's share lies between 0 and 100 percent. */
  lemma ShareBounded(current: seq<Transaction>, top: Option<string>, amount: real)
    requires IsTop(current, top, amount)
    requires forall t :: t in current ==> t.amount >= 0.0
    ensures 0.0 <= Share(amount, Sum(current)) <= 100.0
  {
    TopAtMostSum(current, top, amount);
    ShareOfPart(amount, Sum(current));
  }

  /** A part between 0 and the whole is between 0 and 100 percent of it. */
  lemma ShareOfPart(part: real, whole: real)
    requires 0.0 <= part <= whole
    ensures 0.0 <= Share(part, whole) <= 100.0
  {
    if whole != 0.0 {
      var s := Share(part, whole);
      assert s * whole == part * 100.0;
    }
  }

  /** With no previous spending the card always reports an increase, even when this month is empty too. */
  lemma NoPreviousSpendingIsIncrease(current: real)
    ensures PercentChange(current, 0.0) == 100.0 && PercentChange(current, 0.0) > 0.0
  {
  }
}
