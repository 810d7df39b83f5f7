/**
 * The server-backed store (`TransactionsProvider` in the JavaScript hook).
 * Each operation sends a request and, when the server accepts it, patches
 * the local lists the way the server would have; when the request fails
 * the lists stay as they were and `error` carries a fixed message. The
 * server's answer is a parameter: `None` (or `false`) is a failed request.
 */
module RemoteProvider {
  import opened Model
  import opened Aggregates
  import opened Patches

  const LOAD_TRANSACTIONS_FAILED := "Failed to load transactions. Please try again later."
  const LOAD_BUDGETS_FAILED := "Failed to load budgets. Please try again later."
  const ADD_FAILED := "Failed to add transaction. Please try again."
  const UPDATE_FAILED := "Failed to update transaction. Please try again."
  const DELETE_FAILED := "Failed to delete transaction. Please try again."
  const BUDGET_FAILED := "Failed to update budget. Please try again."

  /** The budgets a successful budget fetch installs: the defaults when the server has none. */
  function LoadedBudgets(data: seq<Budget>): (r: seq<Budget>)
    ensures data == [] ==> r == DefaultBudgets()
    ensures data != [] ==> r == data
  {
    if |data| == 0 then DefaultBudgets() else data
  }

  /** After a first, empty budget fetch, every registry category has its default amount. */
  lemma FirstLoadBudgets(id: string)
    requires IsCategoryId(id)
    ensures BudgetFor(LoadedBudgets([]), id) == DefaultAmount(id)
  {
    var i :| 0 <= i < |CATEGORIES| && CATEGORIES[i].id == id;
    DefaultBudgetFor(i);
  }

  class TransactionsProvider {
    var transactions: seq<Transaction>
    var budgets: seq<Budget>
    var editingTransaction: Option<Transaction>
    var isLoading: bool
    var error: Option<string>

    /** The initial state: empty lists, nothing being edited, loading, no error. */
    constructor ()
      ensures transactions == [] && budgets == [] && editingTransaction == None
      ensures isLoading && error == None
    {
      transactions, budgets, editingTransaction := [], [], None;
      isLoading, error := true, None;
    }

    /**
     * `fetchTransactions` (also exposed as `refreshData`): on success the
     * server's list replaces the local one and the error clears; on failure
     * only the error changes. Loading ends either way.
     */
    method FetchTransactions(reply: Option<seq<Transaction>>)
      modifies this
      ensures !isLoading
      ensures reply.Some? ==> transactions == reply.value && error == None
      ensures reply.None? ==> transactions == old(transactions) && error == Some(LOAD_TRANSACTIONS_FAILED)
      ensures budgets == old(budgets) && editingTransaction == old(editingTransaction)
    {
      isLoading := true;
      if reply.Some? {
        transactions := reply.value;
        error := None;
      } else {
        error := Some(LOAD_TRANSACTIONS_FAILED);
      }
      isLoading := false;
    }

    /** `fetchBudgets`: an empty server list installs the defaults. */
    method FetchBudgets(reply: Option<seq<Budget>>)
      modifies this
      ensures reply.Some? ==> budgets == LoadedBudgets(reply.value) && error == None
      ensures reply.None? ==> budgets == old(budgets) && error == Some(LOAD_BUDGETS_FAILED)
      ensures transactions == old(transactions) && editingTransaction == old(editingTransaction)
      ensures isLoading == old(isLoading)
    {
      if reply.Some? {
        budgets := LoadedBudgets(reply.value);
        error := None;
      } else {
        error := Some(LOAD_BUDGETS_FAILED);
      }
    }

    /** `addTransaction`: the record the server created goes first. */
    method AddTransaction(created: Option<Transaction>) returns (ok: bool)
      modifies this
      ensures ok <==> created.Some?
      ensures ok ==> transactions == Prepend(created.value, old(transactions)) && error == old(error)
      ensures !ok ==> transactions == old(transactions) && error == Some(ADD_FAILED)
      ensures budgets == old(budgets) && editingTransaction == old(editingTransaction)
      ensures isLoading == old(isLoading)
    {
      if created.Some? {
        transactions := Prepend(created.value, transactions);
        return true;
      }
      error := Some(ADD_FAILED);
      return false;
    }

    /** `updateTransaction(id, updatedFields)`. */
    method UpdateTransaction(id: string, fields: Patch, serverOk: bool) returns (ok: bool)
      modifies this
      ensures ok == serverOk
      ensures ok ==> transactions == UpdateWhere(old(transactions), id, fields) && error == old(error)
      ensures !ok ==> transactions == old(transactions) && error == Some(UPDATE_FAILED)
      ensures budgets == old(budgets) && editingTransaction == old(editingTransaction)
      ensures isLoading == old(isLoading)
    {
      if serverOk {
        transactions := UpdateWhere(transactions, id, fields);
        return true;
      }
      error := Some(UPDATE_FAILED);
      return false;
    }

    /** `deleteTransaction(id)`. */
    method DeleteTransaction(id: string, serverOk: bool) returns (ok: bool)
      modifies this
      ensures ok == serverOk
      ensures ok ==> transactions == DeleteWhere(old(transactions), id) && error == old(error)
      ensures !ok ==> transactions == old(transactions) && error == Some(DELETE_FAILED)
      ensures budgets == old(budgets) && editingTransaction == old(editingTransaction)
      ensures isLoading == old(isLoading)
    {
      if serverOk {
        transactions := DeleteWhere(transactions, id);
        return true;
      }
      error := Some(DELETE_FAILED);
      return false;
    }

    /** `updateBudget(categoryId, amount)`: only matching entries change, none is inserted. */
    method UpdateBudget(categoryId: string, amount: real, serverOk: bool) returns (ok: bool)
      modifies this
      ensures ok == serverOk
      ensures ok ==> budgets == SetBudgetAmount(old(budgets), categoryId, amount) && error == old(error)
      ensures !ok ==> budgets == old(budgets) && error == Some(BUDGET_FAILED)
      ensures transactions == old(transactions) && editingTransaction == old(editingTransaction)
      ensures isLoading == old(isLoading)
    {
      if serverOk {
        budgets := SetBudgetAmount(budgets, categoryId, amount);
        return true;
      }
      error := Some(BUDGET_FAILED);
      return false;
    }

    /** `setEditingTransaction`. */
    method SetEditingTransaction(t: Option<Transaction>)
      modifies this
      ensures editingTransaction == t
      ensures transactions == old(transactions) && budgets == old(budgets)
      ensures isLoading == old(isLoading) && error == old(error)
    {
      editingTransaction := t;
    }

    /** `getCategorySpending(month, year)` over the store's current lists. */
    function GetCategorySpending(month: int, year: int): (rows: seq<SpendingRow>)
      reads this
      ensures |rows| == |CATEGORIES|
      ensures forall i :: 0 <= i < |rows| ==>
        rows[i].spending == Sum(WithKey(InPeriod(transactions, month, year), CATEGORIES[i].id, Raw))
      ensures forall i :: 0 <= i < |rows| ==> rows[i].budget == BudgetFor(budgets, CATEGORIES[i].id)
    {
      CategorySpending(transactions, budgets, month, year)
    }
  }
}
