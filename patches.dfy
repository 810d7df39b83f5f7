/**
 * The local list updates both state stores apply once an operation is
 * accepted: prepend on add, merge-by-id on update, filter-by-id on delete
 * and map-by-category on a budget change. Each is a pure function of the
 * previous list; the stores in `RemoteProvider` and `LocalProvider` assign
 * their results.
 */
module Patches {
  import opened Model
  import opened Aggregates

  /**
   * The fields an edit may carry. An absent field (`None`) is a key the
   * object does not have, so spreading it over a record keeps the record's
   * own value.
   */
  datatype Patch = Patch(
    description: Option<string>,
    amount: Option<real>,
    date: Option<Date>,
    category: Option<string>)

  function Pick<T>(given: Option<T>, current: T): T {
    if given.Some? then given.value else current
  }

  /**
   * `{ ...transaction, ...updatedFields }`. The remote store's extra
   * `date: updatedFields.date ? new Date(updatedFields.date) : transaction.date`
   * gives the same record: a given date replaces the old one, none keeps it.
   */
  function Merge(t: Transaction, p: Patch): (r: Transaction)
    ensures r.id == t.id
    ensures p.description.None? ==> r.description == t.description
    ensures p.description.Some? ==> r.description == p.description.value
    ensures p.amount.None? ==> r.amount == t.amount
    ensures p.amount.Some? ==> r.amount == p.amount.value
    ensures p.date.None? ==> r.date == t.date
    ensures p.date.Some? ==> r.date == p.date.value
    ensures p.category.None? ==> r.category == t.category
    ensures p.category.Some? ==> r.category == p.category.value
  {
    Transaction(t.id, Pick(p.description, t.description), Pick(p.amount, t.amount),
                Pick(p.date, t.date), Pick(p.category, t.category))
  }

  /** `[transaction, ...prev]`: the new record first, the previous list after it. */
  function Prepend(t: Transaction, txs: seq<Transaction>): (r: seq<Transaction>)
    ensures |r| == |txs| + 1 && r[0] == t && r[1..] == txs
  {
    [t] + txs
  }

  /** `prev.map((t) => t.id === id ? merge(t) : t)`. */
  function UpdateWhere(txs: seq<Transaction>, id: string, p: Patch): (r: seq<Transaction>)
    ensures |r| == |txs|
    ensures forall i :: 0 <= i < |r| ==> r[i] == if txs[i].id == id then Merge(txs[i], p) else txs[i]
  {
    if txs == [] then []
    else [if txs[0].id == id then Merge(txs[0], p) else txs[0]] + UpdateWhere(txs[1..], id, p)
  }

  /** `prev.filter((t) => t.id !== id)`. */
  function DeleteWhere(txs: seq<Transaction>, id: string): (r: seq<Transaction>)
    ensures |r| <= |txs|
  {
    if txs == [] then []
    else (if txs[0].id == id then [] else [txs[0]]) + DeleteWhere(txs[1..], id)
  }

  /** `prev.map((b) => b.categoryId === categoryId ? { ...b, amount } : b)`. */
  function SetBudgetAmount(budgets: seq<Budget>, categoryId: string, amount: real): (r: seq<Budget>)
    ensures |r| == |budgets|
    ensures forall i :: 0 <= i < |r| ==>
      r[i] == if budgets[i].categoryId == categoryId then Budget(categoryId, amount) else budgets[i]
  {
    if budgets == [] then []
    else [if budgets[0].categoryId == categoryId then Budget(categoryId, amount) else budgets[0]]
         + SetBudgetAmount(budgets[1..], categoryId, amount)
  }

  function Ids(txs: seq<Transaction>): (ids: seq<string>)
    ensures |ids| == |txs|
    ensures forall i :: 0 <= i < |ids| ==> ids[i] == txs[i].id
  {
    if txs == [] then [] else [txs[0].id] + Ids(txs[1..])
  }

  function CategoryIdsOf(budgets: seq<Budget>): (ids: seq<string>)
    ensures |ids| == |budgets|
    ensures forall i :: 0 <= i < |ids| ==> ids[i] == budgets[i].categoryId
  {
    if budgets == [] then [] else [budgets[0].categoryId] + CategoryIdsOf(budgets[1..])
  }

  // ---------------------------------------------------------------------
  // Update

  /** An update never changes which ids the list holds, nor where. */
  lemma UpdateKeepsIds(txs: seq<Transaction>, id: string, p: Patch)
    ensures Ids(UpdateWhere(txs, id, p)) == Ids(txs)
  {
  }

  /** Records with another id are exactly as before. */
  lemma UpdateLeavesOthers(txs: seq<Transaction>, id: string, p: Patch, i: nat)
    requires i < |txs| && txs[i].id != id
    ensures UpdateWhere(txs, id, p)[i] == txs[i]
  {
  }

  /** Applying the same edit twice is the same as applying it once. */
  lemma UpdateIdempotent(txs: seq<Transaction>, id: string, p: Patch)
    ensures UpdateWhere(UpdateWhere(txs, id, p), id, p) == UpdateWhere(txs, id, p)
  {
    var once := UpdateWhere(txs, id, p);
    var twice := UpdateWhere(once, id, p);
    forall i | 0 <= i < |txs| ensures twice[i] == once[i] {
      if txs[i].id == id {
        assert once[i] == Merge(txs[i], p);
        assert twice[i] == Merge(once[i], p);
      }
    }
  }

  /** An edit with no fields leaves the list as it was. */
  lemma EmptyPatchIsIdentity(txs: seq<Transaction>, id: string)
    ensures UpdateWhere(txs, id, Patch(None, None, None, None)) == txs
  {
    var r := UpdateWhere(txs, id, Patch(None, None, None, None));
    forall i | 0 <= i < |txs| ensures r[i] == txs[i] {
    }
  }

  // ---------------------------------------------------------------------
  // Delete

  /** A delete keeps exactly the records with another id. */
  lemma {:induction false} DeleteMembers(txs: seq<Transaction>, id: string)
    ensures forall t :: t in DeleteWhere(txs, id) <==> t in txs && t.id != id
  {
    if txs != [] {
      DeleteMembers(txs[1..], id);
      assert txs == [txs[0]] + txs[1..];
    }
  }

  /** Each kept record occurs as often as before; deleted ones not at all. */
  lemma {:induction false} DeleteCount(txs: seq<Transaction>, id: string, t: Transaction)
    ensures multiset(DeleteWhere(txs, id))[t] == if t.id == id then 0 else multiset(txs)[t]
  {
    if txs != [] {
      DeleteCount(txs[1..], id, t);
      assert txs == [txs[0]] + txs[1..];
    }
  }

  /** Deleting distributes over concatenation, so the kept records stay in their order. */
  lemma {:induction false} DeleteConcat(a: seq<Transaction>, b: seq<Transaction>, id: string)
    ensures DeleteWhere(a + b, id) == DeleteWhere(a, id) + DeleteWhere(b, id)
  {
    if a == [] {
      assert a + b == b;
    } else {
      assert (a + b)[0] == a[0];
      assert (a + b)[1..] == a[1..] + b;
      DeleteConcat(a[1..], b, id);
    }
  }

  /** A list with no record of that id is left as it is. */
  lemma {:induction false} DeleteAbsent(txs: seq<Transaction>, id: string)
    requires forall i :: 0 <= i < |txs| ==> txs[i].id != id
    ensures DeleteWhere(txs, id) == txs
  {
    if txs != [] {
      DeleteAbsent(txs[1..], id);
    }
  }

  /** Deleting twice is the same as deleting once. */
  lemma DeleteIdempotent(txs: seq<Transaction>, id: string)
    ensures DeleteWhere(DeleteWhere(txs, id), id) == DeleteWhere(txs, id)
  {
    var once := DeleteWhere(txs, id);
    DeleteMembers(txs, id);
    forall i | 0 <= i < |once| ensures once[i].id != id {
      assert once[i] in once;
    }
    DeleteAbsent(once, id);
  }

  /** Deleting a record just prepended under a fresh id gives back the previous list. */
  lemma AddThenDelete(t: Transaction, txs: seq<Transaction>)
    requires forall i :: 0 <= i < |txs| ==> txs[i].id != t.id
    ensures DeleteWhere(Prepend(t, txs), t.id) == txs
  {
    assert DeleteWhere(Prepend(t, txs), t.id) == DeleteWhere(txs, t.id);
    DeleteAbsent(txs, t.id);
  }

  // ---------------------------------------------------------------------
  // Budget amount

  /** A budget change never adds or removes entries and keeps their categories. */
  lemma SetBudgetKeepsCategories(budgets: seq<Budget>, categoryId: string, amount: real)
    ensures CategoryIdsOf(SetBudgetAmount(budgets, categoryId, amount)) == CategoryIdsOf(budgets)
  {
  }

  /** Once a category has an entry, its looked-up budget is the new amount. */
  lemma SetBudgetLookup(budgets: seq<Budget>, categoryId: string, amount: real)
    requires exists i :: 0 <= i < |budgets| && budgets[i].categoryId == categoryId
    ensures BudgetFor(SetBudgetAmount(budgets, categoryId, amount), categoryId) == amount
  {
    var r := SetBudgetAmount(budgets, categoryId, amount);
    assert exists i :: 0 <= i < |r| && r[i].categoryId == categoryId;
  }

  /** A category without an entry still has none, so its looked-up budget stays 0. */
  lemma SetBudgetNeverInserts(budgets: seq<Budget>, categoryId: string, amount: real)
    requires forall i :: 0 <= i < |budgets| ==> budgets[i].categoryId != categoryId
    ensures SetBudgetAmount(budgets, categoryId, amount) == budgets
    ensures BudgetFor(budgets, categoryId) == 0.0
  {
    BudgetForAbsent(budgets, categoryId);
  }

  /** Other categories' looked-up budgets are unchanged. */
  lemma SetBudgetLeavesOthers(budgets: seq<Budget>, categoryId: string, amount: real, other: string)
    requires other != categoryId
    ensures BudgetFor(SetBudgetAmount(budgets, categoryId, amount), other) == BudgetFor(budgets, other)
  {
    var r := SetBudgetAmount(budgets, categoryId, amount);
    var i := FirstBudgetIndex(budgets, other);
    var j := FirstBudgetIndex(r, other);
    if i < |budgets| {
      assert r[i] == budgets[i];
    }
    if j < |r| {
      assert r[j] == budgets[j];
    }
  }
}
