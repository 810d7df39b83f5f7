/**
 * The local-only store (`TransactionsProvider` in the TypeScript hook):
 * seeded with five sample transactions and the default budgets, every
 * operation applied directly to the in-memory lists, matching records on
 * their `id` field.
 */
module LocalProvider {
  import opened Model
  import opened Aggregates
  import opened Patches

  /** `initialTransactions`; every seed date is read as April 2023 (month index 3). */
  function Seed(): seq<Transaction> {
    [ Transaction("1", "Groceries", 85.75, Date(2023, 3, 15), "groceries"),
      Transaction("2", "Monthly Rent", 1200.0, Date(2023, 3, 1), "housing"),
      Transaction("3", "Internet Bill", 65.99, Date(2023, 3, 5), "utilities"),
      Transaction("4", "Coffee Shop", 4.5, Date(2023, 3, 16), "dining"),
      Transaction("5", "Gas", 45.25, Date(2023, 3, 10), "transportation") ]
  }

  class TransactionsProvider {
    var transactions: seq<Transaction>
    var budgets: seq<Budget>
    var editingTransaction: Option<Transaction>

    /** The seed transactions, the default budgets, nothing being edited. */
    constructor ()
      ensures transactions == Seed() && budgets == DefaultBudgets() && editingTransaction.None?
    {
      transactions := Seed();
      budgets := DefaultBudgets();
      editingTransaction := None;
    }

    /** `addTransaction`: the record goes first exactly as given; no id is assigned. */
    method AddTransaction(t: Transaction)
      modifies this
      ensures transactions == Prepend(t, old(transactions))
      ensures budgets == old(budgets) && editingTransaction == old(editingTransaction)
    {
      transactions := Prepend(t, transactions);
    }

    /** `updateTransaction(id, updatedFields)`: fields merged into records whose `id` matches. */
    method UpdateTransaction(id: string, fields: Patch)
      modifies this
      ensures transactions == UpdateWhere(old(transactions), id, fields)
      ensures budgets == old(budgets) && editingTransaction == old(editingTransaction)
    {
      transactions := UpdateWhere(transactions, id, fields);
    }

    /** `deleteTransaction(id)`. */
    method DeleteTransaction(id: string)
      modifies this
      ensures transactions == DeleteWhere(old(transactions), id)
      ensures budgets == old(budgets) && editingTransaction == old(editingTransaction)
    {
      transactions := DeleteWhere(transactions, id);
    }

    /** `updateBudget(categoryId, amount)`. */
    method UpdateBudget(categoryId: string, amount: real)
      modifies this
      ensures budgets == SetBudgetAmount(old(budgets), categoryId, amount)
      ensures transactions == old(transactions) && editingTransaction == old(editingTransaction)
    {
      budgets := SetBudgetAmount(budgets, categoryId, amount);
    }

    /** `setEditingTransaction`. */
    method SetEditingTransaction(t: Option<Transaction>)
      modifies this
      ensures editingTransaction == t
      ensures transactions == old(transactions) && budgets == old(budgets)
    {
      editingTransaction := t;
    }

    /** `getCategorySpending(month, year)` over the store's current lists. */
    function GetCategorySpending(month: int, year: int): (rows: seq<SpendingRow>)
      reads this
      ensures |rows| == |CATEGORIES|
      ensures forall i :: 0 <= i < |rows| ==>
        rows[i].spending == Sum(WithKey(InPeriod(transactions, month, year), CATEGORIES[i].id, Raw))
      ensures forall i :: 0 <= i < |rows| ==> rows[i].budget == BudgetFor(budgets, CATEGORIES[i].id)
    {
      CategorySpending(transactions, budgets, month, year)
    }
  }

  /** The seed ids are distinct, so every id-based operation touches at most one seed record. */
  lemma SeedIdsDistinct()
    ensures Distinct(Ids(Seed()))
  {
    var ids := Ids(Seed());
    assert ids == ["1", "2", "3", "4", "5"];
  }

  /** The seed's categories, in order, and every seed record lies in April 2023. */
  lemma SeedCategories()
    ensures forall j :: 0 <= j < 5 ==> InMonth(Seed()[j], 3, 2023)
    ensures Seed()[0].category == "groceries" && Seed()[1].category == "housing"
    ensures Seed()[2].category == "utilities" && Seed()[3].category == "dining"
    ensures Seed()[4].category == "transportation"
  {
  }

  /** April 2023 on the seed data: the groceries row, the seed's one groceries record against the default 400. */
  lemma SeedGroceries()
    ensures CategorySpending(Seed(), DefaultBudgets(), 3, 2023)[0]
         == SpendingRow(CATEGORIES[0], 85.75, 400.0, 314.25, 21.4375)
  {
    SeedCategories();
    DefaultBudgetFor(0);
    CategorySpendingSingleRow(Seed(), DefaultBudgets(), 3, 2023, 0, 0, 400.0);
  }

  /** April 2023 on the seed data: the housing row, the rent against the default 1500. */
  lemma SeedHousing()
    ensures CategorySpending(Seed(), DefaultBudgets(), 3, 2023)[1]
         == SpendingRow(CATEGORIES[1], 1200.0, 1500.0, 300.0, 80.0)
  {
    SeedCategories();
    DefaultBudgetFor(1);
    CategorySpendingSingleRow(Seed(), DefaultBudgets(), 3, 2023, 1, 1, 1500.0);
  }

  /** A record added to the seed is removed again, and only it, by deleting its id. */
  lemma SeedAddThenDelete(t: Transaction)
    requires t.id !in {"1", "2", "3", "4", "5"}
    ensures DeleteWhere(Prepend(t, Seed()), t.id) == Seed()
  {
    AddThenDelete(t, Seed());
  }
}
