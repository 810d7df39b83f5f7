/**
 * The transaction table: which of its four faces it shows (error, loading,
 * empty, rows), how a row names and colours its category, and the state of
 * the delete confirmation dialog. The table reads the remote store.
 */
module TransactionList {
  import opened Model
  import opened Patches
  import opened RemoteProvider

  const FALLBACK_NAME := "Other"
  const FALLBACK_COLOR := "#607D8B"

  /** `getCategoryName`: the registry name of the id, else "Other". */
  function CategoryName(categoryId: string): (name: string)
    ensures !IsCategoryId(categoryId) ==> name == FALLBACK_NAME
  {
    var c := FindCategory(categoryId);
    if c.Some? && c.value.name != "" then c.value.name else FALLBACK_NAME
  }

  /** `getCategoryColor`: the registry colour of the id, else the fallback grey. */
  function CategoryColor(categoryId: string): (color: string)
    ensures !IsCategoryId(categoryId) ==> color == FALLBACK_COLOR
  {
    var c := FindCategory(categoryId);
    if c.Some? && c.value.color != "" then c.value.color else FALLBACK_COLOR
  }

  /** The entry `find` returns for a registry id is the registry entry with that id. */
  lemma FindRegistered(i: int)
    requires 0 <= i < |CATEGORIES|
    ensures FindCategory(CATEGORIES[i].id) == Some(CATEGORIES[i])
  {
    RegistryIdsDistinct();
    var c := FindCategory(CATEGORIES[i].id);
    assert c.Some? by {
      assert IsCategoryId(CATEGORIES[i].id);
    }
    var j :| 0 <= j < |CATEGORIES| && CATEGORIES[j] == c.value;
    assert i == j;
  }

  /** A registry id shows its own name and colour. */
  lemma KnownCategoryShown(i: int)
    requires 0 <= i < |CATEGORIES|
    ensures CategoryName(CATEGORIES[i].id) == CATEGORIES[i].name
    ensures CategoryColor(CATEGORIES[i].id) == CATEGORIES[i].color
  {
    FindRegistered(i);
    EntryLengths(i);
  }

  /** Anything else is shown as the "other" category would be. */
  lemma UnknownShownAsOther(categoryId: string)
    requires !IsCategoryId(categoryId)
    ensures CategoryName(categoryId) == CATEGORIES[9].name
    ensures CategoryColor(categoryId) == CATEGORIES[9].color
  {
  }

  /** `open={transactionToDelete === transaction._id}`. */
  predicate DialogOpen(pending: Option<string>, rowId: string) {
    pending == Some(rowId)
  }

  /** No two transactions share an id. */
  predicate UniqueIds(txs: seq<Transaction>) {
    forall i, j :: 0 <= i < |txs| && 0 <= j < |txs| && txs[i].id == txs[j].id ==> i == j
  }

  /** The uniqueness of the id list, said of the transactions. */
  lemma DistinctIdsUnique(txs: seq<Transaction>)
    requires Distinct(Ids(txs))
    ensures UniqueIds(txs)
  {
    var ids := Ids(txs);
    forall i, j | 0 <= i < |txs| && 0 <= j < |txs| && txs[i].id == txs[j].id ensures i == j {
      DistinctAt(ids, i, j);
    }
  }

  lemma DistinctAt(s: seq<string>, i: int, j: int)
    requires Distinct(s) && 0 <= i < |s| && 0 <= j < |s| && s[i] == s[j]
    ensures i == j
  {
  }

  /** With distinct ids, no two rows have their dialogs open at once. */
  lemma AtMostOneDialog(txs: seq<Transaction>, pending: Option<string>, i: int, j: int)
    requires UniqueIds(txs)
    requires 0 <= i < |txs| && 0 <= j < |txs|
    requires DialogOpen(pending, txs[i].id) && DialogOpen(pending, txs[j].id)
    ensures i == j
  {
    assert txs[i].id == txs[j].id;
  }

  /** One table row as the user sees it. */
  datatype ListRow = ListRow(
    id: string,
    description: string,
    categoryName: string,
    color: string,
    amount: real,
    date: Date,
    dialogOpen: bool)

  /** What the card body shows. */
  datatype ListView = ErrorView(message: string) | LoadingView | EmptyView | TableView(rows: seq<ListRow>)

  function RowOf(t: Transaction, pending: Option<string>): ListRow {
    ListRow(t.id, t.description, CategoryName(t.category), CategoryColor(t.category), t.amount, t.date,
            DialogOpen(pending, t.id))
  }

  /** The table's rows, one per transaction in the store's order. */
  function Rows(txs: seq<Transaction>, pending: Option<string>): seq<ListRow> {
    seq(|txs|, i requires 0 <= i < |txs| => RowOf(txs[i], pending))
  }

  /** The component's choice: an error first, then loading, then the empty message, then the table. */
  function ViewOf(error: Option<string>, isLoading: bool, txs: seq<Transaction>, pending: Option<string>): (v: ListView)
    ensures v.ErrorView? <==> error.Some?
    ensures v.ErrorView? ==> v.message == error.value
    ensures v.LoadingView? <==> error.None? && isLoading
    ensures v.EmptyView? <==> error.None? && !isLoading && txs == []
    ensures v.TableView? ==> |v.rows| == |txs| && |txs| > 0
    ensures v.TableView? ==> forall i :: 0 <= i < |txs| ==> v.rows[i].id == txs[i].id && v.rows[i].amount == txs[i].amount
  {
    if error.Some? then ErrorView(error.value)
    else if isLoading then LoadingView
    else if txs == [] then EmptyView
    else TableView(Rows(txs, pending))
  }

  /** A failed load hides the table even while loading and even with transactions in hand. */
  lemma ErrorWins(message: string, isLoading: bool, txs: seq<Transaction>, pending: Option<string>)
    ensures ViewOf(Some(message), isLoading, txs, pending) == ErrorView(message)
  {
  }

  /** With distinct ids the shown table has at most one open dialog. */
  lemma TableOneDialog(error: Option<string>, isLoading: bool, txs: seq<Transaction>, pending: Option<string>, i: int, j: int)
    requires UniqueIds(txs)
    requires ViewOf(error, isLoading, txs, pending).TableView?
    requires var rows := ViewOf(error, isLoading, txs, pending).rows;
      0 <= i < |rows| && 0 <= j < |rows| && rows[i].dialogOpen && rows[j].dialogOpen
    ensures i == j
  {
    AtMostOneDialog(txs, pending, i, j);
  }

  class TransactionListState {
    var transactionToDelete: Option<string>
    var isRefreshing: bool
    const store: TransactionsProvider

    constructor (store: TransactionsProvider)
      ensures this.store == store && transactionToDelete == None && !isRefreshing
    {
      this.store := store;
      transactionToDelete, isRefreshing := None, false;
    }

    /** The card body for the store's current state. */
    function View(): ListView
      reads this, store
    {
      ViewOf(store.error, store.isLoading, store.transactions, transactionToDelete)
    }

    /** The trash button: this row's dialog opens. */
    method RequestDelete(id: string)
      modifies this
      ensures transactionToDelete == Some(id) && isRefreshing == old(isRefreshing)
    {
      transactionToDelete := Some(id);
    }

    /** The dialog's `onOpenChange`: closing it forgets the pending id; opening changes nothing. */
    method DialogOpenChange(open: bool)
      modifies this
      ensures transactionToDelete == if open then old(transactionToDelete) else None
      ensures isRefreshing == old(isRefreshing)
    {
      if !open {
        transactionToDelete := None;
      }
    }

    /** `handleDelete`: the store deletes (or reports failure) and the dialog closes either way. */
    method HandleDelete(id: string, serverOk: bool) returns (ok: bool)
      modifies this, store
      ensures ok == serverOk && transactionToDelete == None && isRefreshing == old(isRefreshing)
      ensures ok ==> store.transactions == DeleteWhere(old(store.transactions), id) && store.error == old(store.error)
      ensures !ok ==> store.transactions == old(store.transactions) && store.error == Some(DELETE_FAILED)
      ensures store.budgets == old(store.budgets) && store.editingTransaction == old(store.editingTransaction)
      ensures store.isLoading == old(store.isLoading)
    {
      ok := store.DeleteTransaction(id, serverOk);
      transactionToDelete := None;
    }

    /** `handleEdit`: the row becomes the form's transaction. */
    method HandleEdit(t: Transaction)
      modifies store
      ensures store.editingTransaction == Some(t)
      ensures store.transactions == old(store.transactions) && store.budgets == old(store.budgets)
      ensures store.error == old(store.error) && store.isLoading == old(store.isLoading)
    {
      store.SetEditingTransaction(Some(t));
    }

    /** `handleRefresh`: the store reloads its transactions (`reply` is the server's answer) and the spinner stops. */
    method HandleRefresh(reply: Option<seq<Transaction>>)
      modifies this, store
      ensures !isRefreshing && transactionToDelete == old(transactionToDelete)
      ensures !store.isLoading
      ensures reply.Some? ==> store.transactions == reply.value && store.error == None
      ensures reply.None? ==> store.transactions == old(store.transactions) && store.error == Some(LOAD_TRANSACTIONS_FAILED)
      ensures store.budgets == old(store.budgets) && store.editingTransaction == old(store.editingTransaction)
    {
      isRefreshing := true;
      store.FetchTransactions(reply);
      isRefreshing := false;
    }
  }

  /** After a successful refresh the table shows the reply, or the empty message when it is empty. */
  lemma RefreshedView(reply: seq<Transaction>, pending: Option<string>)
    ensures reply == [] ==> ViewOf(None, false, reply, pending) == EmptyView
    ensures reply != [] ==> ViewOf(None, false, reply, pending) == TableView(Rows(reply, pending))
  {
  }
}
