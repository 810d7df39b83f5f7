/**
 * The budget-versus-actual bar chart: for the selected month, one bar pair
 * per registry category that has a budget or some spending, in registry
 * order. Spending is grouped with the `|| "other"` fallback, so here (unlike
 * in `CategorySpending`) an uncategorised transaction counts as "other".
 */
module BudgetComparison {
  import opened Model
  import opened Aggregates

  datatype ComparisonRow = ComparisonRow(name: string, budget: real, actual: real, difference: real)

  /** The `{ name, budget, actual, difference }` object for one category. */
  function RowFor(c: Category, actual: real, budgets: seq<Budget>): ComparisonRow {
    var budget := BudgetFor(budgets, c.id);
    ComparisonRow(c.name, budget, actual, budget - actual)
  }

  /** `item.budget > 0 || item.actual > 0`. */
  predicate Shown(r: ComparisonRow) {
    r.budget > 0.0 || r.actual > 0.0
  }

  function Keep(r: ComparisonRow): seq<ComparisonRow> {
    if Shown(r) then [r] else []
  }

  /** The row a category gets from the month's transactions (its resolved total). */
  function RowOf(c: Category, period: seq<Transaction>, budgets: seq<Budget>): ComparisonRow {
    RowFor(c, Sum(WithKey(period, c.id, Resolved)), budgets)
  }

  /** What the chart is meant to show: the kept rows of the categories, in their order. */
  function Comparison(cats: seq<Category>, period: seq<Transaction>, budgets: seq<Budget>): (rows: seq<ComparisonRow>)
    ensures |rows| <= |cats|
  {
    if cats == [] then [] else Keep(RowOf(cats[0], period, budgets)) + Comparison(cats[1..], period, budgets)
  }

  /** The component's `CATEGORIES.map(...).filter(...)` over the grouped dictionary. */
  function RowsFrom(cats: seq<Category>, totals: map<string, real>, budgets: seq<Budget>): seq<ComparisonRow> {
    if cats == [] then []
    else Keep(RowFor(cats[0], TotalOf(totals, cats[0].id), budgets)) + RowsFrom(cats[1..], totals, budgets)
  }

  /** Reading the dictionary gives the reference rows whenever it holds every category's total. */
  lemma {:induction false} RowsFromAgree(cats: seq<Category>, totals: map<string, real>, period: seq<Transaction>,
                                         budgets: seq<Budget>)
    requires forall k :: TotalOf(totals, k) == Sum(WithKey(period, k, Resolved))
    ensures RowsFrom(cats, totals, budgets) == Comparison(cats, period, budgets)
  {
    if cats != [] {
      RowsFromAgree(cats[1..], totals, period, budgets);
      assert TotalOf(totals, cats[0].id) == Sum(WithKey(period, cats[0].id, Resolved));
    }
  }

  /** The `chartData` memo for `month` of `year`. */
  method ChartData(txs: seq<Transaction>, budgets: seq<Budget>, month: int, year: int) returns (rows: seq<ComparisonRow>)
    ensures rows == Comparison(CATEGORIES, InPeriod(txs, month, year), budgets)
  {
    var period := InPeriod(txs, month, year);
    var totals, order := GroupByCategory(period);
    forall k ensures TotalOf(totals, k) == Sum(WithKey(period, k, Resolved)) {
      TotalOfGrouped(period, totals, order, k);
    }
    RowsFromAgree(CATEGORIES, totals, period, budgets);
    rows := RowsFrom(CATEGORIES, totals, budgets);
  }

  /**
   * A row is shown exactly when it is some category's row and that category
   * has a positive budget or positive spending.
   */
  lemma {:induction false} ComparisonMembers(cats: seq<Category>, period: seq<Transaction>, budgets: seq<Budget>)
    ensures forall r :: r in Comparison(cats, period, budgets) <==>
      Shown(r) && exists c :: c in cats && r == RowOf(c, period, budgets)
  {
    if cats != [] {
      ComparisonMembers(cats[1..], period, budgets);
      assert cats == [cats[0]] + cats[1..];
      assert forall c :: c in cats <==> c == cats[0] || c in cats[1..];
    }
  }

  /** The chart keeps the categories' order: it distributes over concatenation. */
  lemma {:induction false} ComparisonConcat(a: seq<Category>, b: seq<Category>, period: seq<Transaction>, budgets: seq<Budget>)
    ensures Comparison(a + b, period, budgets) == Comparison(a, period, budgets) + Comparison(b, period, budgets)
  {
    if a == [] {
      assert a + b == b;
    } else {
      assert (a + b)[0] == a[0];
      assert (a + b)[1..] == a[1..] + b;
      ComparisonConcat(a[1..], b, period, budgets);
    }
  }

  /** When every category has a positive budget, every category gets a bar pair. */
  lemma {:induction false} AllBudgetedShown(cats: seq<Category>, period: seq<Transaction>, budgets: seq<Budget>)
    requires forall i :: 0 <= i < |cats| ==> BudgetFor(budgets, cats[i].id) > 0.0
    ensures |Comparison(cats, period, budgets)| == |cats|
  {
    if cats != [] {
      assert BudgetFor(budgets, cats[0].id) > 0.0;
      AllBudgetedShown(cats[1..], period, budgets);
    }
  }

  /** Under the default budgets the chart shows all ten categories, whatever was spent. */
  lemma DefaultBudgetsShowAll(period: seq<Transaction>)
    ensures |Comparison(CATEGORIES, period, DefaultBudgets())| == 10
  {
    forall i | 0 <= i < |CATEGORIES| ensures BudgetFor(DefaultBudgets(), CATEGORIES[i].id) > 0.0 {
      DefaultBudgetFor(i);
    }
    AllBudgetedShown(CATEGORIES, period, DefaultBudgets());
  }

  /** A transaction whose resolved category is none of the listed ids changes no row. */
  lemma {:induction false} UnlistedCategoryIgnored(cats: seq<Category>, period: seq<Transaction>, t: Transaction,
                                                   budgets: seq<Budget>)
    requires forall i :: 0 <= i < |cats| ==> cats[i].id != Resolve(t.category)
    ensures Comparison(cats, period + [t], budgets) == Comparison(cats, period, budgets)
  {
    if cats != [] {
      WithKeySnoc(period, t, cats[0].id, Resolved);
      UnlistedCategoryIgnored(cats[1..], period, t, budgets);
    }
  }

  /** So a transaction whose category is not a registry id (and not missing) leaves the chart unchanged. */
  lemma UnknownCategoryIgnored(period: seq<Transaction>, t: Transaction, budgets: seq<Budget>)
    requires t.category != "" && !IsCategoryId(t.category)
    ensures Comparison(CATEGORIES, period + [t], budgets) == Comparison(CATEGORIES, period, budgets)
  {
    UnlistedCategoryIgnored(CATEGORIES, period, t, budgets);
  }

  /** An uncategorised transaction raises the "other" row's actual spending by its amount. */
  lemma MissingCategoryCountsAsOther(period: seq<Transaction>, t: Transaction, budgets: seq<Budget>)
    requires t.category == ""
    ensures RowOf(CATEGORIES[9], period + [t], budgets).actual == RowOf(CATEGORIES[9], period, budgets).actual + t.amount
  {
    WithKeySnoc(period, t, CATEGORIES[9].id, Resolved);
  }
}
