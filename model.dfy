/**
 * The shared data model of the finance tracker: transactions, budgets and
 * the fixed category registry that every view and both state stores use.
 */
module Model {

  datatype Option<T> = None | Some(value: T)

  /** A calendar month as `Date.getMonth()` yields it: 0 is January. */
  type MonthIndex = m: int | 0 <= m < 12

  /**
   * A calendar date already split into its local components. The
   * conversion from a timestamp to these components is not modelled.
   */
  datatype Date = Date(year: int, month: MonthIndex, day: int)

  /** Chronological order on dates (year, then month, then day). */
  predicate NotAfter(a: Date, b: Date) {
    a.year < b.year
    || (a.year == b.year && a.month < b.month)
    || (a.year == b.year && a.month == b.month && a.day <= b.day)
  }

  /**
   * A transaction as the client holds it. `id` is the store's identifier
   * (`_id` in the remote store, `id` in the local one). A missing, null or
   * empty category is the empty string: all three are falsy and none of
   * them equals a registry id.
   */
  datatype Transaction = Transaction(
    id: string,
    description: string,
    amount: real,
    date: Date,
    category: string)

  /** A per-category budget as the client holds it. */
  datatype Budget = Budget(categoryId: string, amount: real)

  datatype Category = Category(id: string, name: string, color: string)

  /** The fixed registry, in display order. */
  const CATEGORIES: seq<Category> := [
    Category("groceries", "Groceries", "#4CAF50"),
    Category("housing", "Housing", "#2196F3"),
    Category("transportation", "Transportation", "#FF9800"),
    Category("utilities", "Utilities", "#9C27B0"),
    Category("entertainment", "Entertainment", "#F44336"),
    Category("healthcare", "Healthcare", "#00BCD4"),
    Category("dining", "Dining Out", "#795548"),
    Category("shopping", "Shopping", "#E91E63"),
    Category("education", "Education", "#3F51B5"),
    Category("other", "Other", "#607D8B")
  ]

  /** The registry's ids, in registry order. */
  function CategoryIds(): (ids: seq<string>)
    ensures |ids| == |CATEGORIES|
    ensures forall i :: 0 <= i < |ids| ==> ids[i] == CATEGORIES[i].id
  {
    IdsOf(CATEGORIES)
  }

  function IdsOf(cats: seq<Category>): (ids: seq<string>)
    ensures |ids| == |cats|
    ensures forall i :: 0 <= i < |ids| ==> ids[i] == cats[i].id
  {
    if cats == [] then [] else [cats[0].id] + IdsOf(cats[1..])
  }

  predicate IsCategoryId(id: string) {
    exists i :: 0 <= i < |CATEGORIES| && CATEGORIES[i].id == id
  }

  predicate Distinct<T(==)>(s: seq<T>) {
    forall i, j :: 0 <= i < j < |s| ==> s[i] != s[j]
  }

  function Elems<T>(s: seq<T>): set<T> {
    set x | x in s
  }

  /** The registry has ten entries, distinct ids, and "other" is one of them. */
  lemma RegistryShape()
    ensures |CATEGORIES| == 10
    ensures Distinct(CategoryIds())
    ensures IsCategoryId("other") && CATEGORIES[9].id == "other"
    ensures forall i :: 0 <= i < |CATEGORIES| ==> CATEGORIES[i].id != "" && CATEGORIES[i].name != ""
  {
    CategoryIdsDistinct();
    assert CATEGORIES[9].id == "other";
    RegistryNonEmpty();
  }

  /** No id occurs twice in the registry. */
  lemma CategoryIdsDistinct()
    ensures Distinct(CategoryIds())
  {
    RegistryIdsDistinct();
    DistinctIdsOf(CATEGORIES);
  }

  /** Entries with pairwise different ids give a list of distinct ids. */
  lemma DistinctIdsOf(cats: seq<Category>)
    requires forall i, j :: 0 <= i < j < |cats| ==> cats[i].id != cats[j].id
    ensures Distinct(IdsOf(cats))
  {
    var ids := IdsOf(cats);
    forall i, j | 0 <= i < j < |ids| ensures ids[i] != ids[j] {
      assert ids[i] == cats[i].id && ids[j] == cats[j].id;
    }
  }

  lemma RegistryNonEmpty()
    ensures forall i :: 0 <= i < |CATEGORIES| ==> CATEGORIES[i].id != "" && CATEGORIES[i].name != ""
  {
    forall i | 0 <= i < |CATEGORIES| ensures CATEGORIES[i].id != "" && CATEGORIES[i].name != "" {
      EntryLengths(i);
    }
  }

  /** Each registry entry's id and name are non-empty and its colour is a seven-character hex code. */
  lemma EntryLengths(i: int)
    requires 0 <= i < |CATEGORIES|
    ensures |CATEGORIES[i].id| > 0 && |CATEGORIES[i].name| > 0 && |CATEGORIES[i].color| == 7
  {
  }

  lemma RegistryIdsDistinct()
    ensures forall i, j :: 0 <= i < j < |CATEGORIES| ==> CATEGORIES[i].id != CATEGORIES[j].id
  {
  }

  /** Registry names are distinct too, so a row's name identifies its category. */
  lemma RegistryNamesDistinct()
    ensures forall i, j :: 0 <= i < j < |CATEGORIES| ==> CATEGORIES[i].name != CATEGORIES[j].name
  {
  }

  /** `CATEGORIES.find((c) => c.id === id)`: the first entry with that id. */
  function FindCategory(id: string): (r: Option<Category>)
    ensures r.Some? ==> r.value.id == id && r.value in CATEGORIES
    ensures r.None? <==> !IsCategoryId(id)
  {
    FindIn(CATEGORIES, id)
  }

  function FindIn(cats: seq<Category>, id: string): (r: Option<Category>)
    ensures r.Some? ==> r.value.id == id && r.value in cats
    ensures r.None? <==> forall i :: 0 <= i < |cats| ==> cats[i].id != id
  {
    if cats == [] then None
    else if cats[0].id == id then Some(cats[0])
    else FindIn(cats[1..], id)
  }

  /** The budget amount a fresh installation gives a category. */
  function DefaultAmount(id: string): real {
    if id == "housing" then 1500.0
    else if id == "groceries" then 400.0
    else if id == "transportation" then 200.0
    else if id == "utilities" then 150.0
    else 100.0
  }

  /** `defaultBudgets` (and the local store's `initialBudgets`): one per category, registry order. */
  function DefaultBudgets(): seq<Budget> {
    seq(|CATEGORIES|, i requires 0 <= i < |CATEGORIES| =>
      Budget(CATEGORIES[i].id, DefaultAmount(CATEGORIES[i].id)))
  }

  /** The default budgets, written out: exactly one entry per category, in registry order. */
  lemma DefaultBudgetsValues()
    ensures DefaultBudgets() == [
      Budget("groceries", 400.0), Budget("housing", 1500.0), Budget("transportation", 200.0),
      Budget("utilities", 150.0), Budget("entertainment", 100.0), Budget("healthcare", 100.0),
      Budget("dining", 100.0), Budget("shopping", 100.0), Budget("education", 100.0),
      Budget("other", 100.0)]
  {
  }
}
