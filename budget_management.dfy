/**
 * The budget editor card. Outside edit mode it shows each category's
 * budget, spending, remaining amount and progress bar; the toggle button
 * enters edit mode with one text field per budget, and pressing it again
 * saves the edited values through the store, one request at a time, and
 * leaves edit mode.
 *
 * `budgetValues` is a JavaScript object keyed by category id; it is
 * modelled as an association list in property order (a new key is
 * appended, an assignment to an existing key replaces its value in place).
 */
module BudgetManagement {
  import opened Model
  import opened Aggregates
  import opened Patches
  import opened RemoteProvider

  type Values = seq<(string, string)>

  /** `values[k]`: the value of the first (and, with distinct keys, only) entry for `k`. */
  function Lookup(values: Values, k: string): Option<string> {
    if values == [] then None
    else if values[0].0 == k then Some(values[0].1)
    else Lookup(values[1..], k)
  }

  function Keys(values: Values): (ks: seq<string>)
    ensures |ks| == |values|
    ensures forall i :: 0 <= i < |ks| ==> ks[i] == values[i].0
  {
    if values == [] then [] else [values[0].0] + Keys(values[1..])
  }

  /** `{ ...values, [k]: v }`: replace the entry for `k` where it stands, or append one. */
  function Put(values: Values, k: string, v: string): Values {
    if values == [] then [(k, v)]
    else if values[0].0 == k then [(k, v)] + values[1..]
    else [values[0]] + Put(values[1..], k, v)
  }

  /** After a `Put`, `k` holds the new value and every other key its old one. */
  lemma {:induction false} PutLookup(values: Values, k: string, v: string, j: string)
    ensures Lookup(Put(values, k, v), j) == if j == k then Some(v) else Lookup(values, j)
  {
    if values != [] && values[0].0 != k {
      PutLookup(values[1..], k, v, j);
    }
  }

  /** A `Put` keeps the property order, appending `k` only when it is new. */
  lemma {:induction false} PutKeys(values: Values, k: string, v: string)
    ensures Keys(Put(values, k, v)) == if k in Keys(values) then Keys(values) else Keys(values) + [k]
  {
    if values != [] && values[0].0 != k {
      PutKeys(values[1..], k, v);
      assert Keys(values) == [values[0].0] + Keys(values[1..]);
    }
  }

  lemma PutDistinct(values: Values, k: string, v: string)
    requires Distinct(Keys(values))
    ensures Distinct(Keys(Put(values, k, v)))
  {
    PutKeys(values, k, v);
  }

  /** The object the `budgets.forEach` loop builds: each budget's amount, as text, under its category. */
  function InitialValues(budgets: seq<Budget>, show: real -> string): Values {
    if budgets == [] then []
    else
      var last := budgets[|budgets| - 1];
      Put(InitialValues(budgets[..|budgets| - 1], show), last.categoryId, show(last.amount))
  }

  /** The last budget for `k`: later assignments to the same key overwrite earlier ones. */
  function LastBudget(budgets: seq<Budget>, k: string): (r: Option<Budget>)
    ensures r.Some? ==> r.value in budgets && r.value.categoryId == k
    ensures r.None? <==> forall i :: 0 <= i < |budgets| ==> budgets[i].categoryId != k
  {
    if budgets == [] then None
    else if budgets[|budgets| - 1].categoryId == k then Some(budgets[|budgets| - 1])
    else LastBudget(budgets[..|budgets| - 1], k)
  }

  /** Entering edit mode shows the last budget of each category, and nothing for a category without one. */
  lemma {:induction false} InitialValuesLookup(budgets: seq<Budget>, show: real -> string, k: string)
    ensures Lookup(InitialValues(budgets, show), k) ==
      if LastBudget(budgets, k).Some? then Some(show(LastBudget(budgets, k).value.amount)) else None
    ensures Distinct(Keys(InitialValues(budgets, show)))
  {
    if budgets != [] {
      var prefix, last := budgets[..|budgets| - 1], budgets[|budgets| - 1];
      InitialValuesLookup(prefix, show, k);
      PutLookup(InitialValues(prefix, show), last.categoryId, show(last.amount), k);
      PutDistinct(InitialValues(prefix, show), last.categoryId, show(last.amount));
    }
  }

  /** `amount && !isNaN(amount)`; `parse` returns `None` for text that is not a number. */
  predicate Numeric(v: string, parse: string -> Option<real>) {
    v != "" && parse(v).Some?
  }

  /**
   * `Object.entries(values).filter(([id, amount]) => amount && !isNaN(amount))`
   * with each amount parsed, in property order.
   */
  function Updates(values: Values, parse: string -> Option<real>): seq<(string, real)> {
    if values == [] then []
    else
      var v := values[0].1;
      (if Numeric(v, parse) then [(values[0].0, parse(v).value)] else []) + Updates(values[1..], parse)
  }

  /** The update entry `i` yields, when its text is numeric. */
  predicate FromEntry(values: Values, parse: string -> Option<real>, i: int, u: (string, real)) {
    0 <= i < |values| && Numeric(values[i].1, parse) && u == (values[i].0, parse(values[i].1).value)
  }

  /** The updates are exactly the parsed numeric entries. */
  lemma {:induction false} UpdatesMembers(values: Values, parse: string -> Option<real>)
    ensures forall u :: u in Updates(values, parse) <==> exists i :: FromEntry(values, parse, i, u)
  {
    if values != [] {
      var rest := values[1..];
      var head := if Numeric(values[0].1, parse) then [(values[0].0, parse(values[0].1).value)] else [];
      assert Updates(values, parse) == head + Updates(rest, parse);
      assert forall u :: u in head <==> FromEntry(values, parse, 0, u);
      UpdatesMembers(rest, parse);
      forall u: (string, real)
        ensures (exists i :: FromEntry(values, parse, i, u)) <==> FromEntry(values, parse, 0, u) || exists i :: FromEntry(rest, parse, i, u)
      {
        if exists i :: FromEntry(values, parse, i, u) {
          var i :| FromEntry(values, parse, i, u);
          if i > 0 {
            assert rest[i - 1] == values[i];
            assert FromEntry(rest, parse, i - 1, u);
          }
        }
        if exists i :: FromEntry(rest, parse, i, u) {
          var i :| FromEntry(rest, parse, i, u);
          assert values[i + 1] == rest[i];
          assert FromEntry(values, parse, i + 1, u);
        }
      }
    }
  }

  /** Distinct property names give updates for distinct categories. */
  lemma {:induction false} UpdatesDistinct(values: Values, parse: string -> Option<real>)
    requires Distinct(Keys(values))
    ensures forall i, j :: 0 <= i < j < |Updates(values, parse)| ==> Updates(values, parse)[i].0 != Updates(values, parse)[j].0
  {
    if values != [] {
      var rest := values[1..];
      assert Keys(rest) == Keys(values)[1..];
      UpdatesDistinct(rest, parse);
      UpdatesMembers(rest, parse);
      var us, tail := Updates(values, parse), Updates(rest, parse);
      var v := values[0].1;
      if Numeric(v, parse) {
        assert us == [(values[0].0, parse(v).value)] + tail;
        forall j | 0 < j < |us| ensures us[0].0 != us[j].0 {
          assert us[j] == tail[j - 1] && tail[j - 1] in tail;
          var i :| FromEntry(rest, parse, i, us[j]);
          assert Keys(values)[i + 1] == rest[i].0 && Keys(values)[0] == values[0].0;
        }
      } else {
        assert us == tail;
      }
    }
  }

  /**
   * The budgets after the first `n` updates were sent one after another;
   * `ok(j)` is the server's answer to the `j`-th request, and a refused
   * request changes nothing.
   */
  function Applied(budgets: seq<Budget>, updates: seq<(string, real)>, ok: nat -> bool, n: nat): seq<Budget>
    requires n <= |updates|
  {
    if n == 0 then budgets
    else
      var before := Applied(budgets, updates, ok, n - 1);
      if ok(n - 1) then SetBudgetAmount(before, updates[n - 1].0, updates[n - 1].1) else before
  }

  /** Whether the server refused one of the first `n` requests. */
  function AnyRefused(ok: nat -> bool, n: nat): bool {
    n > 0 && (!ok(n - 1) || AnyRefused(ok, n - 1))
  }

  /** The store reports an error after a save exactly when some request was refused. */
  lemma {:induction false} AnyRefusedMeans(ok: nat -> bool, n: nat)
    ensures AnyRefused(ok, n) <==> exists j :: 0 <= j < n && !ok(j)
  {
    if n > 0 {
      AnyRefusedMeans(ok, n - 1);
    }
  }

  lemma {:induction false} AppliedKeepsCategories(budgets: seq<Budget>, updates: seq<(string, real)>, ok: nat -> bool, n: nat)
    requires n <= |updates|
    ensures CategoryIdsOf(Applied(budgets, updates, ok, n)) == CategoryIdsOf(budgets)
  {
    if n > 0 {
      var before := Applied(budgets, updates, ok, n - 1);
      AppliedKeepsCategories(budgets, updates, ok, n - 1);
      if ok(n - 1) {
        SetBudgetKeepsCategories(before, updates[n - 1].0, updates[n - 1].1);
        assert Applied(budgets, updates, ok, n) == SetBudgetAmount(before, updates[n - 1].0, updates[n - 1].1);
      } else {
        assert Applied(budgets, updates, ok, n) == before;
      }
    }
  }

  /** A category that updates `m` to `n - 1` do not name keeps the budget it had after the first `m`. */
  lemma {:induction false} AppliedLeavesOthers(budgets: seq<Budget>, updates: seq<(string, real)>, ok: nat -> bool,
                                               n: nat, m: nat, k: string)
    requires m <= n <= |updates|
    requires forall j :: m <= j < n ==> updates[j].0 != k
    ensures BudgetFor(Applied(budgets, updates, ok, n), k) == BudgetFor(Applied(budgets, updates, ok, m), k)
  {
    if n > m {
      AppliedLeavesOthers(budgets, updates, ok, n - 1, m, k);
      AppliedStepOther(budgets, updates, ok, n - 1, k);
    }
  }

  lemma AppliedStepOther(budgets: seq<Budget>, updates: seq<(string, real)>, ok: nat -> bool, j: nat, k: string)
    requires j < |updates| && updates[j].0 != k
    ensures BudgetFor(Applied(budgets, updates, ok, j + 1), k) == BudgetFor(Applied(budgets, updates, ok, j), k)
  {
    var before := Applied(budgets, updates, ok, j);
    if ok(j) {
      assert Applied(budgets, updates, ok, j + 1) == SetBudgetAmount(before, updates[j].0, updates[j].1);
      SetBudgetLeavesOthers(before, updates[j].0, updates[j].1, k);
    } else {
      assert Applied(budgets, updates, ok, j + 1) == before;
    }
  }

  /** An accepted update for a category that has a budget leaves that budget at the submitted amount. */
  lemma {:induction false} AppliedSets(budgets: seq<Budget>, updates: seq<(string, real)>, ok: nat -> bool, n: nat, j: nat)
    requires j < n <= |updates| && ok(j)
    requires forall i :: 0 <= i < n && i != j ==> updates[i].0 != updates[j].0
    requires updates[j].0 in CategoryIdsOf(budgets)
    ensures BudgetFor(Applied(budgets, updates, ok, n), updates[j].0) == updates[j].1
  {
    if n - 1 == j {
      AppliedKeepsCategories(budgets, updates, ok, j);
      AppliedLast(budgets, updates, ok, j);
    } else {
      AppliedSets(budgets, updates, ok, n - 1, j);
      AppliedLeavesOthers(budgets, updates, ok, n, n - 1, updates[j].0);
    }
  }

  /** The `j`-th update, when accepted, sets its category's budget. */
  lemma AppliedLast(budgets: seq<Budget>, updates: seq<(string, real)>, ok: nat -> bool, j: nat)
    requires j < |updates| && ok(j)
    requires updates[j].0 in CategoryIdsOf(Applied(budgets, updates, ok, j))
    ensures BudgetFor(Applied(budgets, updates, ok, j + 1), updates[j].0) == updates[j].1
  {
    var before := Applied(budgets, updates, ok, j);
    var k := updates[j].0;
    assert Applied(budgets, updates, ok, j + 1) == SetBudgetAmount(before, k, updates[j].1);
    var ids := CategoryIdsOf(before);
    var i :| 0 <= i < |ids| && ids[i] == k;
    assert before[i].categoryId == k;
    SetBudgetLookup(before, k, updates[j].1);
  }

  /** `Math.min(percentage, 100)`. */
  function Progress(percentage: real): (v: real)
    ensures v <= 100.0 && (v == percentage || v == 100.0)
    ensures percentage <= 100.0 ==> v == percentage
  {
    if percentage < 100.0 then percentage else 100.0
  }

  /** `percentage > 100`: the bar turns red and the over-budget notice appears. */
  predicate OverBudget(row: SpendingRow) {
    row.percentage > 100.0
  }

  /** What one budget row displays. `input` is the text field's value in edit mode, `None` otherwise. */
  datatype RowView = RowView(
    categoryId: string,
    name: string,
    color: string,
    input: Option<string>,
    budget: real,
    spending: real,
    remaining: real,
    progress: real,
    overBy: Option<real>)

  /** `budgetValues[id] || ""`. */
  function InputValue(values: Values, k: string): string {
    if Lookup(values, k).Some? then Lookup(values, k).value else ""
  }

  function ViewOf(row: SpendingRow, editing: bool, values: Values): RowView {
    RowView(row.category.id, row.category.name, row.category.color,
            if editing then Some(InputValue(values, row.category.id)) else None,
            row.budget, row.spending, row.remaining, Progress(row.percentage),
            if OverBudget(row) then Some(row.spending - row.budget) else None)
  }

  /** `categorySpending.map(...)`: one displayed row per spending row, in the same order. */
  function Display(rows: seq<SpendingRow>, editing: bool, values: Values): (view: seq<RowView>)
    ensures |view| == |rows|
    ensures forall i :: 0 <= i < |view| ==> view[i] == ViewOf(rows[i], editing, values)
  {
    if rows == [] then [] else [ViewOf(rows[0], editing, values)] + Display(rows[1..], editing, values)
  }

  /** Percentages over 100 mean spending above a positive budget; a budget of 0 never shows as over. */
  lemma PercentageOver(spending: real, budget: real)
    ensures Percentage(spending, budget) > 100.0 <==> budget > 0.0 && spending > budget
  {
    var p := Percentage(spending, budget);
    if budget > 0.0 {
      assert p * budget == spending * 100.0;
      if p > 100.0 {
        assert p * budget > 100.0 * budget;
      } else {
        assert p * budget <= 100.0 * budget;
      }
    }
  }

  /**
   * In a spending row the notice appears exactly when spending exceeds a
   * positive budget, and it names the (positive) excess.
   */
  lemma OverBudgetRow(txs: seq<Transaction>, budgets: seq<Budget>, month: int, year: int, i: nat, editing: bool, values: Values)
    requires i < |CATEGORIES|
    ensures var row := CategorySpending(txs, budgets, month, year)[i];
      && (OverBudget(row) <==> row.budget > 0.0 && row.spending > row.budget)
      && (ViewOf(row, editing, values).overBy.Some? ==> ViewOf(row, editing, values).overBy.value > 0.0)
  {
    var row := CategorySpending(txs, budgets, month, year)[i];
    PercentageOver(row.spending, row.budget);
  }

  class BudgetEditor {
    var isEditing: bool
    var isSubmitting: bool
    var budgetValues: Values
    const store: TransactionsProvider

    /** The property names in `budgetValues` are distinct, as an object's are. */
    predicate Valid()
      reads this
    {
      Distinct(Keys(budgetValues))
    }

    constructor (store: TransactionsProvider)
      ensures this.store == store && !isEditing && !isSubmitting && budgetValues == [] && Valid()
    {
      this.store := store;
      isEditing, isSubmitting, budgetValues := false, false, [];
    }

    /** `handleBudgetChange(categoryId, value)`. */
    method BudgetChange(categoryId: string, value: string)
      requires Valid()
      modifies this
      ensures budgetValues == Put(old(budgetValues), categoryId, value) && Valid()
      ensures isEditing == old(isEditing) && isSubmitting == old(isSubmitting)
    {
      PutDistinct(budgetValues, categoryId, value);
      budgetValues := Put(budgetValues, categoryId, value);
    }

    /**
     * `handleEditToggle`: saves when in edit mode, enters edit mode
     * otherwise. `ok(j)` is the server's answer to the `j`-th request.
     */
    method EditToggle(show: real -> string, parse: string -> Option<real>, ok: nat -> bool)
      requires Valid()
      modifies this, store
      ensures Valid() && store.transactions == old(store.transactions)
      ensures store.editingTransaction == old(store.editingTransaction) && store.isLoading == old(store.isLoading)
      ensures !old(isEditing) ==>
        && isEditing && isSubmitting == old(isSubmitting)
        && budgetValues == InitialValues(store.budgets, show)
        && store.budgets == old(store.budgets) && store.error == old(store.error)
      ensures old(isEditing) ==>
        && !isEditing && !isSubmitting && budgetValues == old(budgetValues)
        && var updates := Updates(old(budgetValues), parse);
           && store.budgets == Applied(old(store.budgets), updates, ok, |updates|)
           && store.error == if AnyRefused(ok, |updates|) then Some(BUDGET_FAILED) else old(store.error)
    {
      if isEditing {
        SaveBudgets(parse, ok);
      } else {
        StartEditing(show);
      }
    }

    /**
     * The saving branch: the numeric entries go to the store one request at
     * a time, in property order, and edit mode is left. The store's
     * `updateBudget` reports a refused request by its return value and never
     * throws, so the `catch` branch is never taken and edit mode is left
     * whatever the answers were.
     */
    method SaveBudgets(parse: string -> Option<real>, ok: nat -> bool)
      requires Valid()
      modifies this, store
      ensures !isEditing && !isSubmitting && budgetValues == old(budgetValues)
      ensures var updates := Updates(old(budgetValues), parse);
        && store.budgets == Applied(old(store.budgets), updates, ok, |updates|)
        && store.error == if AnyRefused(ok, |updates|) then Some(BUDGET_FAILED) else old(store.error)
      ensures store.transactions == old(store.transactions) && store.editingTransaction == old(store.editingTransaction)
      ensures store.isLoading == old(store.isLoading)
    {
      isSubmitting := true;
      var updates := Updates(budgetValues, parse);
      var i := 0;
      while i < |updates|
        invariant 0 <= i <= |updates| && budgetValues == old(budgetValues)
        invariant store.budgets == Applied(old(store.budgets), updates, ok, i)
        invariant store.error == if AnyRefused(ok, i) then Some(BUDGET_FAILED) else old(store.error)
        invariant store.transactions == old(store.transactions) && store.editingTransaction == old(store.editingTransaction)
        invariant store.isLoading == old(store.isLoading)
      {
        var _ := store.UpdateBudget(updates[i].0, updates[i].1, ok(i));
        i := i + 1;
      }
      isEditing, isSubmitting := false, false;
    }

    /** The entering branch: the `budgets.forEach` loop copies every budget into `budgetValues`. */
    method StartEditing(show: real -> string)
      modifies this
      ensures isEditing && isSubmitting == old(isSubmitting)
      ensures budgetValues == InitialValues(store.budgets, show) && Valid()
    {
      var budgets := store.budgets;
      var initialValues: Values := [];
      var i := 0;
      while i < |budgets|
        invariant 0 <= i <= |budgets|
        invariant initialValues == InitialValues(budgets[..i], show)
      {
        assert budgets[..i + 1][..i] == budgets[..i];
        initialValues := Put(initialValues, budgets[i].categoryId, show(budgets[i].amount));
        i := i + 1;
      }
      assert budgets[..i] == budgets;
      InitialValuesLookup(budgets, show, "");
      budgetValues, isEditing := initialValues, true;
    }

    /** The rows the card renders for `month` of `year`. */
    function View(month: int, year: int): (view: seq<RowView>)
      reads this, store
      ensures |view| == |CATEGORIES|
      ensures forall i :: 0 <= i < |view| ==> view[i].categoryId == CATEGORIES[i].id
      ensures forall i :: 0 <= i < |view| ==> (view[i].input.Some? <==> isEditing)
    {
      Display(store.GetCategorySpending(month, year), isEditing, budgetValues)
    }
  }

  /**
   * A save in which every request is accepted leaves each submitted
   * category that had a budget at its submitted amount, and every category
   * with no submitted value at its old budget.
   */
  lemma SaveEffect(budgets: seq<Budget>, values: Values, parse: string -> Option<real>, ok: nat -> bool, k: string)
    requires Distinct(Keys(values))
    ensures var updates := Updates(values, parse);
      (forall j :: 0 <= j < |updates| ==> updates[j].0 != k) ==>
        BudgetFor(Applied(budgets, updates, ok, |updates|), k) == BudgetFor(budgets, k)
    ensures var updates := Updates(values, parse);
      forall j :: 0 <= j < |updates| && ok(j) && updates[j].0 == k && k in CategoryIdsOf(budgets) ==>
        BudgetFor(Applied(budgets, updates, ok, |updates|), k) == updates[j].1
  {
    var updates := Updates(values, parse);
    if forall j :: 0 <= j < |updates| ==> updates[j].0 != k {
      AppliedLeavesOthers(budgets, updates, ok, |updates|, 0, k);
    }
    UpdatesDistinct(values, parse);
    forall j | 0 <= j < |updates| && ok(j) && updates[j].0 == k && k in CategoryIdsOf(budgets)
      ensures BudgetFor(Applied(budgets, updates, ok, |updates|), k) == updates[j].1
    {
      AppliedSets(budgets, updates, ok, |updates|, j);
    }
  }
}
