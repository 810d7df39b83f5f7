/**
 * The aggregation layer: sums, filters and lookups over a list of
 * transactions and a list of budgets. Every view and both state stores
 * build on these definitions. Where the copies in the source differ, the
 * difference is a parameter: `Grouping.Raw` matches the category field
 * exactly (as `getCategorySpending` does), `Grouping.Resolved` first sends
 * a falsy category to "other" (as the charts, summary and insights do).
 */
module Aggregates {
  import opened Model

  // ---------------------------------------------------------------------
  // Sums

  /** `reduce((sum, t) => sum + t.amount, 0)`. */
  function Sum(txs: seq<Transaction>): real {
    if txs == [] then 0.0 else txs[0].amount + Sum(txs[1..])
  }

  lemma {:induction false} SumConcat(a: seq<Transaction>, b: seq<Transaction>)
    ensures Sum(a + b) == Sum(a) + Sum(b)
  {
    if a == [] {
      assert a + b == b;
    } else {
      assert (a + b)[1..] == a[1..] + b;
      SumConcat(a[1..], b);
    }
  }

  lemma {:induction false} SumNonNegative(txs: seq<Transaction>)
    requires forall t :: t in txs ==> t.amount >= 0.0
    ensures Sum(txs) >= 0.0
  {
    if txs != [] {
      assert txs[0] in txs;
      SumNonNegative(txs[1..]);
    }
  }

  /** Taking one transaction out of a list lowers the sum by its amount. */
  lemma SumRemove(b: seq<Transaction>, i: nat)
    requires i < |b|
    ensures Sum(b) == b[i].amount + Sum(b[..i] + b[i + 1..])
  {
    var left, right := b[..i], b[i + 1..];
    assert b == (left + [b[i]]) + right;
    SumConcat(left + [b[i]], right);
    SumConcat(left, [b[i]]);
    assert Sum([b[i]]) == b[i].amount + Sum([]);
    SumConcat(left, right);
  }

  lemma RemoveAt(b: seq<Transaction>, i: nat)
    requires i < |b|
    ensures multiset(b[..i] + b[i + 1..]) == multiset(b) - multiset{b[i]}
  {
    assert b == b[..i] + [b[i]] + b[i + 1..];
  }

  /** A sum does not depend on the order of the transactions. */
  lemma {:induction false} SumPermutation(a: seq<Transaction>, b: seq<Transaction>)
    requires multiset(a) == multiset(b)
    ensures Sum(a) == Sum(b)
  {
    if a == [] {
      assert |b| == |multiset(b)| == 0;
    } else {
      var x, tail := a[0], a[1..];
      assert a == [x] + tail;
      assert multiset(tail) == multiset(a) - multiset{x};
      assert x in multiset(b);
      assert x in b;
      var i :| 0 <= i < |b| && b[i] == x;
      var rest := b[..i] + b[i + 1..];
      SumRemove(b, i);
      RemoveAt(b, i);
      assert multiset(tail) == multiset(rest);
      SumPermutation(tail, rest);
    }
  }

  // ---------------------------------------------------------------------
  // Period filter

  /** A list that lies wholly in the period is its own period filter. */
  lemma {:induction false} InPeriodAll(txs: seq<Transaction>, month: int, year: int)
    requires forall i :: 0 <= i < |txs| ==> InMonth(txs[i], month, year)
    ensures InPeriod(txs, month, year) == txs
  {
    if txs != [] {
      InPeriodAll(txs[1..], month, year);
    }
  }

  /** `date.getMonth() === month && date.getFullYear() === year`. */
  predicate InMonth(t: Transaction, month: int, year: int) {
    t.date.month == month && t.date.year == year
  }

  /** The transactions of one month of one year, in their given order. */
  function InPeriod(txs: seq<Transaction>, month: int, year: int): (r: seq<Transaction>)
    ensures |r| <= |txs|
    ensures forall t :: t in r <==> t in txs && InMonth(t, month, year)
  {
    if txs == [] then []
    else (if InMonth(txs[0], month, year) then [txs[0]] else []) + InPeriod(txs[1..], month, year)
  }

  lemma {:induction false} InPeriodConcat(a: seq<Transaction>, b: seq<Transaction>, month: int, year: int)
    ensures InPeriod(a + b, month, year) == InPeriod(a, month, year) + InPeriod(b, month, year)
  {
    if a == [] {
      assert a + b == b;
    } else {
      assert (a + b)[1..] == a[1..] + b;
      InPeriodConcat(a[1..], b, month, year);
    }
  }

  lemma InPeriodSnoc(txs: seq<Transaction>, t: Transaction, month: int, year: int)
    ensures InPeriod(txs + [t], month, year) == InPeriod(txs, month, year) + if InMonth(t, month, year) then [t] else []
  {
    InPeriodConcat(txs, [t], month, year);
    assert InPeriod([t], month, year) == (if InMonth(t, month, year) then [t] else []) + InPeriod([], month, year);
  }

  lemma {:induction false} InPeriodCount(a: seq<Transaction>, t: Transaction, month: int, year: int)
    ensures multiset(InPeriod(a, month, year))[t] == if InMonth(t, month, year) then multiset(a)[t] else 0
  {
    if a != [] {
      InPeriodCount(a[1..], t, month, year);
      assert a == [a[0]] + a[1..];
    }
  }

  /** Filtering a permutation gives a permutation of the filtered list. */
  lemma InPeriodPermutation(a: seq<Transaction>, b: seq<Transaction>, month: int, year: int)
    requires multiset(a) == multiset(b)
    ensures multiset(InPeriod(a, month, year)) == multiset(InPeriod(b, month, year))
  {
    forall t
      ensures multiset(InPeriod(a, month, year))[t] == multiset(InPeriod(b, month, year))[t]
    {
      InPeriodCount(a, t, month, year);
      InPeriodCount(b, t, month, year);
    }
  }

  /** A period total does not depend on the order of the transactions. */
  lemma PeriodSumPermutation(a: seq<Transaction>, b: seq<Transaction>, month: int, year: int)
    requires multiset(a) == multiset(b)
    ensures Sum(InPeriod(a, month, year)) == Sum(InPeriod(b, month, year))
  {
    InPeriodPermutation(a, b, month, year);
    SumPermutation(InPeriod(a, month, year), InPeriod(b, month, year));
  }

  /** With non-negative amounts a period total never exceeds the grand total. */
  lemma {:induction false} PeriodSumAtMostTotal(txs: seq<Transaction>, month: int, year: int)
    requires forall t :: t in txs ==> t.amount >= 0.0
    ensures Sum(InPeriod(txs, month, year)) <= Sum(txs)
  {
    if txs != [] {
      assert txs[0] in txs;
      PeriodSumAtMostTotal(txs[1..], month, year);
      SumConcat(if InMonth(txs[0], month, year) then [txs[0]] else [], InPeriod(txs[1..], month, year));
    }
  }

  // ---------------------------------------------------------------------
  // Category filters

  datatype Grouping = Raw | Resolved

  /** `t.category || "other"`. */
  function Resolve(category: string): string {
    if category == "" then "other" else category
  }

  function KeyOf(t: Transaction, g: Grouping): string {
    match g
    case Raw => t.category
    case Resolved => Resolve(t.category)
  }

  /** The transactions whose key (under grouping `g`) is `k`, in order. */
  function WithKey(txs: seq<Transaction>, k: string, g: Grouping): (r: seq<Transaction>)
    ensures |r| <= |txs|
  {
    if txs == [] then []
    else (if KeyOf(txs[0], g) == k then [txs[0]] else []) + WithKey(txs[1..], k, g)
  }

  /** The transactions whose key (under grouping `g`) lies in `ks`, in order. */
  function WithKeyIn(txs: seq<Transaction>, ks: set<string>, g: Grouping): (r: seq<Transaction>)
    ensures |r| <= |txs|
  {
    if txs == [] then []
    else (if KeyOf(txs[0], g) in ks then [txs[0]] else []) + WithKeyIn(txs[1..], ks, g)
  }

  /** `WithKey` keeps exactly the transactions with that key. */
  lemma {:induction false} WithKeyMembers(txs: seq<Transaction>, k: string, g: Grouping)
    ensures forall t :: t in WithKey(txs, k, g) <==> t in txs && KeyOf(t, g) == k
  {
    if txs != [] {
      WithKeyMembers(txs[1..], k, g);
      assert txs == [txs[0]] + txs[1..];
    }
  }

  lemma {:induction false} WithKeyConcat(a: seq<Transaction>, b: seq<Transaction>, k: string, g: Grouping)
    ensures WithKey(a + b, k, g) == WithKey(a, k, g) + WithKey(b, k, g)
  {
    if a == [] {
      assert a + b == b;
    } else {
      var head := if KeyOf(a[0], g) == k then [a[0]] else [];
      assert (a + b)[0] == a[0];
      assert (a + b)[1..] == a[1..] + b;
      assert WithKey(a + b, k, g) == head + WithKey(a[1..] + b, k, g);
      WithKeyConcat(a[1..], b, k, g);
      assert WithKey(a, k, g) == head + WithKey(a[1..], k, g);
      AppendAssociative(head, WithKey(a[1..], k, g), WithKey(b, k, g));
    }
  }

  lemma AppendAssociative<T>(x: seq<T>, y: seq<T>, z: seq<T>)
    ensures x + (y + z) == (x + y) + z
  {
  }

  /** When exactly one transaction has the key, the key's total is that transaction's amount. */
  lemma SumWithKeyUnique(txs: seq<Transaction>, i: nat, k: string, g: Grouping)
    requires i < |txs| && KeyOf(txs[i], g) == k
    requires forall j :: 0 <= j < |txs| && j != i ==> KeyOf(txs[j], g) != k
    ensures Sum(WithKey(txs, k, g)) == txs[i].amount
  {
    var left, right := txs[..i], txs[i + 1..];
    assert txs == left + ([txs[i]] + right);
    forall t | t in left ensures KeyOf(t, g) != k {
      var j :| 0 <= j < |left| && left[j] == t;
      assert txs[j] == t;
    }
    forall t | t in right ensures KeyOf(t, g) != k {
      var j :| 0 <= j < |right| && right[j] == t;
      assert txs[i + 1 + j] == t;
    }
    WithKeyAbsent(left, k, g);
    WithKeyAbsent(right, k, g);
    WithKeyConcat(left, [txs[i]] + right, k, g);
    WithKeyConcat([txs[i]], right, k, g);
    assert WithKey([txs[i]], k, g) == [txs[i]] + WithKey([], k, g);
    assert WithKey(txs, k, g) == [txs[i]];
  }

  /** The total of a key outside the list is 0. */
  lemma {:induction false} WithKeyAbsent(txs: seq<Transaction>, k: string, g: Grouping)
    requires forall t :: t in txs ==> KeyOf(t, g) != k
    ensures WithKey(txs, k, g) == []
  {
    if txs != [] {
      assert txs[0] in txs;
      WithKeyAbsent(txs[1..], k, g);
    }
  }

  /** Splitting one key off a key set splits the total accordingly. */
  lemma {:induction false} SumWithKeyInSplit(txs: seq<Transaction>, k: string, ks: set<string>, g: Grouping)
    requires k !in ks
    ensures Sum(WithKeyIn(txs, {k} + ks, g)) == Sum(WithKey(txs, k, g)) + Sum(WithKeyIn(txs, ks, g))
  {
    if txs != [] {
      var t := txs[0];
      SumWithKeyInSplit(txs[1..], k, ks, g);
      SumConcat(if KeyOf(t, g) in {k} + ks then [t] else [], WithKeyIn(txs[1..], {k} + ks, g));
      SumConcat(if KeyOf(t, g) == k then [t] else [], WithKey(txs[1..], k, g));
      SumConcat(if KeyOf(t, g) in ks then [t] else [], WithKeyIn(txs[1..], ks, g));
    }
  }

  lemma {:induction false} WithKeyInAll(txs: seq<Transaction>, ks: set<string>, g: Grouping)
    requires forall t :: t in txs ==> KeyOf(t, g) in ks
    ensures WithKeyIn(txs, ks, g) == txs
  {
    if txs != [] {
      assert txs[0] in txs;
      WithKeyInAll(txs[1..], ks, g);
      assert txs == [txs[0]] + txs[1..];
    }
  }

  /** The sum, over a list of keys, of each key's total. */
  function KeySum(ks: seq<string>, txs: seq<Transaction>, g: Grouping): real {
    if ks == [] then 0.0 else Sum(WithKey(txs, ks[0], g)) + KeySum(ks[1..], txs, g)
  }

  /** Per-key totals over distinct keys add up to the total of the transactions with those keys. */
  lemma {:induction false} KeySumIsSum(ks: seq<string>, txs: seq<Transaction>, g: Grouping)
    requires Distinct(ks)
    ensures KeySum(ks, txs, g) == Sum(WithKeyIn(txs, Elems(ks), g))
  {
    if ks == [] {
      assert Elems(ks) == {};
      WithKeyInEmpty(txs, g);
    } else {
      assert Elems(ks) == {ks[0]} + Elems(ks[1..]);
      assert ks[0] !in Elems(ks[1..]);
      KeySumIsSum(ks[1..], txs, g);
      SumWithKeyInSplit(txs, ks[0], Elems(ks[1..]), g);
    }
  }

  lemma {:induction false} WithKeyInEmpty(txs: seq<Transaction>, g: Grouping)
    ensures WithKeyIn(txs, {}, g) == []
  {
    if txs != [] {
      WithKeyInEmpty(txs[1..], g);
    }
  }

  /** Per-key totals over distinct keys that cover every transaction add up to the grand total. */
  lemma KeySumCovers(ks: seq<string>, txs: seq<Transaction>, g: Grouping)
    requires Distinct(ks)
    requires forall t :: t in txs ==> KeyOf(t, g) in ks
    ensures KeySum(ks, txs, g) == Sum(txs)
  {
    KeySumIsSum(ks, txs, g);
    WithKeyInAll(txs, Elems(ks), g);
  }

  // ---------------------------------------------------------------------
  // The per-category dictionary built with `forEach`

  /** Appending a key the way a JS object records a new property. */
  function AddKey(order: seq<string>, k: string): seq<string> {
    if k in order then order else order + [k]
  }

  /** The resolved categories of `txs`, each once, in order of first appearance. */
  function FirstAppearance(txs: seq<Transaction>): seq<string> {
    if txs == [] then []
    else AddKey(FirstAppearance(txs[..|txs| - 1]), Resolve(txs[|txs| - 1].category))
  }

  /** No category appears twice in the order. */
  lemma {:induction false} FirstAppearanceDistinct(txs: seq<Transaction>)
    ensures Distinct(FirstAppearance(txs))
  {
    if txs != [] {
      FirstAppearanceDistinct(txs[..|txs| - 1]);
    }
  }

  /** A key appears in the order exactly when some transaction resolves to it. */
  lemma {:induction false} FirstAppearanceMembers(txs: seq<Transaction>)
    ensures forall k :: k in FirstAppearance(txs) <==> exists t :: t in txs && Resolve(t.category) == k
  {
    if txs != [] {
      var prefix, last := txs[..|txs| - 1], txs[|txs| - 1];
      FirstAppearanceMembers(prefix);
      assert txs == prefix + [last];
      assert forall t :: t in txs <==> t in prefix || t == last;
    }
  }

  lemma {:induction false} WithKeySnoc(txs: seq<Transaction>, t: Transaction, k: string, g: Grouping)
    ensures Sum(WithKey(txs + [t], k, g)) == Sum(WithKey(txs, k, g)) + (if KeyOf(t, g) == k then t.amount else 0.0)
  {
    WithKeyConcat(txs, [t], k, g);
    SumConcat(WithKey(txs, k, g), WithKey([t], k, g));
    assert WithKey([t], k, g) == (if KeyOf(t, g) == k then [t] else []) + WithKey([], k, g);
  }

  /**
   * The `categoryTotals[t.category || "other"] += t.amount` loop: `totals`
   * holds each resolved category's total and `order` the order in which the
   * object acquired its keys (the order `Object.entries` reports them in).
   */
  method GroupByCategory(txs: seq<Transaction>) returns (totals: map<string, real>, order: seq<string>)
    ensures order == FirstAppearance(txs)
    ensures forall k :: k in totals <==> k in order
    ensures forall k :: k in totals ==> totals[k] == Sum(WithKey(txs, k, Resolved))
  {
    totals, order := map[], [];
    ghost var done: seq<Transaction> := [];
    var i := 0;
    while i < |txs|
      invariant 0 <= i <= |txs| && done == txs[..i]
      invariant Tallied(done, totals, order)
    {
      var t := txs[i];
      var category := Resolve(t.category);
      // `if (!totals[category]) totals[category] = 0`, then `+= t.amount`
      var base := if category in totals && totals[category] != 0.0 then totals[category] else 0.0;
      GroupStep(txs, i, done, order, totals, category, base);
      totals, order, done, i := totals[category := base + t.amount], AddKey(order, category), done + [t], i + 1;
    }
    assert done == txs;
  }

  /** `totals` and `order` are the dictionary and key order the loop has built from `done`. */
  ghost predicate Tallied(done: seq<Transaction>, totals: map<string, real>, order: seq<string>) {
    && order == FirstAppearance(done)
    && (forall k :: k in totals <==> k in order)
    && (forall k :: k in totals ==> totals[k] == Sum(WithKey(done, k, Resolved)))
  }

  /** One iteration of the grouping loop keeps the loop's invariant. */
  lemma GroupStep(txs: seq<Transaction>, i: nat, done: seq<Transaction>, order: seq<string>, before: map<string, real>,
                  c: string, base: real)
    requires i < |txs| && done == txs[..i]
    requires c == Resolve(txs[i].category) && Tallied(done, before, order)
    requires base == if c in before && before[c] != 0.0 then before[c] else 0.0
    ensures done + [txs[i]] == txs[..i + 1]
    ensures Tallied(done + [txs[i]], before[c := base + txs[i].amount], AddKey(order, c))
  {
    var t := txs[i];
    var after := before[c := base + t.amount];
    assert (done + [t])[..|done|] == done;
    if c !in before {
      AbsentCategoryTotal(done, c);
    }
    forall k | k in after
      ensures after[k] == Sum(WithKey(done + [t], k, Resolved))
    {
      WithKeySnoc(done, t, k, Resolved);
    }
  }

  /** A category that received no transaction has total 0 (`categoryTotals[id] || 0`). */
  lemma AbsentCategoryTotal(txs: seq<Transaction>, k: string)
    requires k !in FirstAppearance(txs)
    ensures Sum(WithKey(txs, k, Resolved)) == 0.0
  {
    FirstAppearanceMembers(txs);
    WithKeyAbsent(txs, k, Resolved);
  }

  /** `categoryTotals[id] || 0`: a key the dictionary never acquired reads as 0. */
  function TotalOf(totals: map<string, real>, k: string): real {
    if k in totals then totals[k] else 0.0
  }

  /** Reading the grouped dictionary with a 0 default gives every category's resolved total. */
  lemma TotalOfGrouped(txs: seq<Transaction>, totals: map<string, real>, order: seq<string>, k: string)
    requires order == FirstAppearance(txs) && forall j :: j in totals <==> j in order
    requires forall j :: j in totals ==> totals[j] == Sum(WithKey(txs, j, Resolved))
    ensures TotalOf(totals, k) == Sum(WithKey(txs, k, Resolved))
  {
    if k !in totals {
      AbsentCategoryTotal(txs, k);
    }
  }

  /** The resolved per-category totals add up to the total of all the transactions. */
  lemma CategoryTotalsAddUp(txs: seq<Transaction>)
    ensures KeySum(FirstAppearance(txs), txs, Resolved) == Sum(txs)
  {
    FirstAppearanceMembers(txs);
    FirstAppearanceDistinct(txs);
    KeySumCovers(FirstAppearance(txs), txs, Resolved);
  }

  // ---------------------------------------------------------------------
  // Top category

  /**
   * The scan over `Object.entries(totals)` with `amount > topAmount`, from
   * `topCategory = null, topAmount = 0`: the first key to reach the maximum
   * wins, and with no positive total there is no winner.
   */
  method TopCategory(order: seq<string>, totals: map<string, real>) returns (top: Option<string>, amount: real)
    requires forall k :: k in order ==> k in totals
    ensures top.None? <==> forall i :: 0 <= i < |order| ==> totals[order[i]] <= 0.0
    ensures top.None? ==> amount == 0.0
    ensures top.Some? ==> top.value in order && amount == totals[top.value] && amount > 0.0
    ensures forall i :: 0 <= i < |order| ==> totals[order[i]] <= amount
    ensures top.Some? ==> exists p :: 0 <= p < |order| && order[p] == top.value
                                   && forall j :: 0 <= j < p ==> totals[order[j]] < amount
  {
    top, amount := None, 0.0;
    ghost var pos := 0;
    for i := 0 to |order|
      invariant top.None? ==> amount == 0.0 && forall j :: 0 <= j < i ==> totals[order[j]] <= 0.0
      invariant top.Some? ==> 0 <= pos < i && order[pos] == top.value && amount == totals[top.value] && amount > 0.0
      invariant top.Some? ==> forall j :: 0 <= j < pos ==> totals[order[j]] < amount
      invariant forall j :: 0 <= j < i ==> totals[order[j]] <= amount
    {
      if totals[order[i]] > amount {
        amount := totals[order[i]];
        top := Some(order[i]);
        pos := i;
      }
    }
  }

  /** `CATEGORIES.find((c) => c.id === topCategory)?.name || "None"`. */
  function TopName(top: Option<string>): (name: string)
    ensures top.Some? && IsCategoryId(top.value) ==> FindCategory(top.value).Some? && name == FindCategory(top.value).value.name
    ensures top.None? || !IsCategoryId(top.value) ==> name == "None"
  {
    match top
    case None => "None"
    case Some(id) =>
      match FindCategory(id)
      case None => "None"
      case Some(c) =>
        RegistryNonEmpty();
        if c.name == "" then "None" else c.name
  }

  /**
   * `top` and `amount` are what the top-category scan yields on the
   * resolved per-category totals of `txs`: no winner when no total is
   * positive, otherwise the first category, in first-appearance order,
   * whose total is the largest.
   */
  ghost predicate IsTop(txs: seq<Transaction>, top: Option<string>, amount: real) {
    var order := FirstAppearance(txs);
    && (top.None? <==> forall i :: 0 <= i < |order| ==> Sum(WithKey(txs, order[i], Resolved)) <= 0.0)
    && (top.None? ==> amount == 0.0)
    && (top.Some? ==> top.value in order && amount == Sum(WithKey(txs, top.value, Resolved)) && amount > 0.0)
    && (forall i :: 0 <= i < |order| ==> Sum(WithKey(txs, order[i], Resolved)) <= amount)
    && (top.Some? ==> exists p :: 0 <= p < |order| && order[p] == top.value
                                && forall j :: 0 <= j < p ==> Sum(WithKey(txs, order[j], Resolved)) < amount)
  }

  /** The per-category dictionary followed by the top-category scan, as the summary and insights run them. */
  method TopCategoryOf(txs: seq<Transaction>) returns (top: Option<string>, amount: real)
    ensures IsTop(txs, top, amount)
  {
    var totals, order := GroupByCategory(txs);
    top, amount := TopCategory(order, totals);
    forall i | 0 <= i < |order| ensures totals[order[i]] == Sum(WithKey(txs, order[i], Resolved)) {
      assert order[i] in totals;
    }
  }

  /** The scan's outcome is determined by the transactions: there is only one top category. */
  lemma IsTopUnique(txs: seq<Transaction>, top1: Option<string>, amount1: real, top2: Option<string>, amount2: real)
    requires IsTop(txs, top1, amount1) && IsTop(txs, top2, amount2)
    ensures top1 == top2 && amount1 == amount2
  {
    var order := FirstAppearance(txs);
    if top1.Some? && top2.Some? {
      var p1 :| 0 <= p1 < |order| && order[p1] == top1.value
              && forall j :: 0 <= j < p1 ==> Sum(WithKey(txs, order[j], Resolved)) < amount1;
      var p2 :| 0 <= p2 < |order| && order[p2] == top2.value
              && forall j :: 0 <= j < p2 ==> Sum(WithKey(txs, order[j], Resolved)) < amount2;
      assert amount1 <= amount2 && amount2 <= amount1;
    }
  }

  /** With non-negative amounts, one category's total never exceeds the grand total. */
  lemma {:induction false} WithKeySumAtMost(txs: seq<Transaction>, k: string, g: Grouping)
    requires forall t :: t in txs ==> t.amount >= 0.0
    ensures 0.0 <= Sum(WithKey(txs, k, g)) <= Sum(txs)
  {
    if txs != [] {
      assert txs[0] in txs;
      assert forall t :: t in txs[1..] ==> t in txs;
      WithKeySumAtMost(txs[1..], k, g);
      SumConcat(if KeyOf(txs[0], g) == k then [txs[0]] else [], WithKey(txs[1..], k, g));
    }
  }

  /** With non-negative amounts, the top amount lies between 0 and the grand total. */
  lemma TopAtMostSum(txs: seq<Transaction>, top: Option<string>, amount: real)
    requires IsTop(txs, top, amount)
    requires forall t :: t in txs ==> t.amount >= 0.0
    ensures 0.0 <= amount <= Sum(txs)
  {
    SumNonNegative(txs);
    if top.Some? {
      WithKeySumAtMost(txs, top.value, Resolved);
    }
  }

  // ---------------------------------------------------------------------
  // Budget lookup

  /** The index of the first budget for `id`, or `|budgets|` when there is none. */
  function FirstBudgetIndex(budgets: seq<Budget>, id: string): (i: nat)
    ensures i <= |budgets|
    ensures i < |budgets| ==> budgets[i].categoryId == id
    ensures forall j :: 0 <= j < i ==> budgets[j].categoryId != id
  {
    if budgets == [] then 0
    else if budgets[0].categoryId == id then 0
    else 1 + FirstBudgetIndex(budgets[1..], id)
  }

  /** `budgets.find((b) => b.categoryId === id)?.amount || 0`. */
  function BudgetFor(budgets: seq<Budget>, id: string): real {
    var i := FirstBudgetIndex(budgets, id);
    if i < |budgets| then budgets[i].amount else 0.0
  }

  /** A category without a budget entry has budget 0. */
  lemma BudgetForAbsent(budgets: seq<Budget>, id: string)
    requires forall i :: 0 <= i < |budgets| ==> budgets[i].categoryId != id
    ensures BudgetFor(budgets, id) == 0.0
  {
  }

  /** With at most one budget per category, the lookup returns that budget's amount. */
  lemma BudgetForUnique(budgets: seq<Budget>, i: nat)
    requires i < |budgets|
    requires forall j :: 0 <= j < |budgets| && j != i ==> budgets[j].categoryId != budgets[i].categoryId
    ensures BudgetFor(budgets, budgets[i].categoryId) == budgets[i].amount
  {
    var k := FirstBudgetIndex(budgets, budgets[i].categoryId);
    assert k == i;
  }

  /** Under the default budgets each registry category's budget is its default amount. */
  lemma DefaultBudgetFor(i: nat)
    requires i < |CATEGORIES|
    ensures BudgetFor(DefaultBudgets(), CATEGORIES[i].id) == DefaultAmount(CATEGORIES[i].id)
  {
    var bs := DefaultBudgets();
    RegistryIdsDistinct();
    forall j | 0 <= j < |bs| && j != i ensures bs[j].categoryId != bs[i].categoryId {
      assert bs[j].categoryId == CATEGORIES[j].id && bs[i].categoryId == CATEGORIES[i].id;
    }
    BudgetForUnique(bs, i);
  }

  // ---------------------------------------------------------------------
  // getCategorySpending

  /** One row of `getCategorySpending`: the category's fields spread, plus the figures. */
  datatype SpendingRow = SpendingRow(
    category: Category,
    spending: real,
    budget: real,
    remaining: real,
    percentage: real)

  /** `budget > 0 ? (spending / budget) * 100 : 0`. */
  function Percentage(spending: real, budget: real): (p: real)
    ensures budget <= 0.0 ==> p == 0.0
    ensures budget > 0.0 ==> p * budget == spending * 100.0
  {
    if budget > 0.0 then spending / budget * 100.0 else 0.0
  }

  function SpendingRowFor(c: Category, period: seq<Transaction>, budgets: seq<Budget>): SpendingRow {
    var spending := Sum(WithKey(period, c.id, Raw));
    var budget := BudgetFor(budgets, c.id);
    SpendingRow(c, spending, budget, budget - spending, Percentage(spending, budget))
  }

  function SpendingRows(cats: seq<Category>, period: seq<Transaction>, budgets: seq<Budget>): (rows: seq<SpendingRow>)
    ensures |rows| == |cats|
    ensures forall i :: 0 <= i < |rows| ==> rows[i] == SpendingRowFor(cats[i], period, budgets)
  {
    if cats == [] then [] else [SpendingRowFor(cats[0], period, budgets)] + SpendingRows(cats[1..], period, budgets)
  }

  /**
   * `getCategorySpending(month, year)`: one row per registry category, in
   * registry order; a transaction counts toward a row only when its month
   * and year match and its category equals the row's id exactly.
   */
  function CategorySpending(txs: seq<Transaction>, budgets: seq<Budget>, month: int, year: int): (rows: seq<SpendingRow>)
    ensures |rows| == |CATEGORIES|
    ensures forall i :: 0 <= i < |rows| ==> rows[i].category == CATEGORIES[i]
    ensures forall i :: 0 <= i < |rows| ==>
      rows[i].spending == Sum(WithKey(InPeriod(txs, month, year), CATEGORIES[i].id, Raw))
    ensures forall i :: 0 <= i < |rows| ==> rows[i].remaining == rows[i].budget - rows[i].spending
    ensures forall i :: 0 <= i < |rows| ==> rows[i].budget == BudgetFor(budgets, CATEGORIES[i].id)
    ensures forall i :: 0 <= i < |rows| ==>
      rows[i].percentage == if rows[i].budget > 0.0 then rows[i].spending / rows[i].budget * 100.0 else 0.0
  {
    SpendingRows(CATEGORIES, InPeriod(txs, month, year), budgets)
  }

  /** A row whose category occurs on exactly one transaction of the period shows that transaction's amount. */
  lemma CategorySpendingSingle(txs: seq<Transaction>, budgets: seq<Budget>, month: int, year: int, c: nat, k: nat)
    requires c < |CATEGORIES| && k < |txs|
    requires forall j :: 0 <= j < |txs| ==> InMonth(txs[j], month, year)
    requires txs[k].category == CATEGORIES[c].id
    requires forall j :: 0 <= j < |txs| && j != k ==> txs[j].category != CATEGORIES[c].id
    ensures CategorySpending(txs, budgets, month, year)[c].spending == txs[k].amount
  {
    InPeriodAll(txs, month, year);
    SumWithKeyUnique(txs, k, CATEGORIES[c].id, Raw);
  }

  /** The whole row for such a category, given its budget. */
  lemma CategorySpendingSingleRow(txs: seq<Transaction>, budgets: seq<Budget>, month: int, year: int, c: nat, k: nat, budget: real)
    requires c < |CATEGORIES| && k < |txs|
    requires forall j :: 0 <= j < |txs| ==> InMonth(txs[j], month, year)
    requires txs[k].category == CATEGORIES[c].id
    requires forall j :: 0 <= j < |txs| && j != k ==> txs[j].category != CATEGORIES[c].id
    requires BudgetFor(budgets, CATEGORIES[c].id) == budget
    ensures CategorySpending(txs, budgets, month, year)[c]
         == SpendingRow(CATEGORIES[c], txs[k].amount, budget, budget - txs[k].amount, Percentage(txs[k].amount, budget))
  {
    CategorySpendingSingle(txs, budgets, month, year, c, k);
  }

  /**
   * Appending one transaction raises exactly the row whose id equals its
   * category, by its amount, and only when its month and year match.
   */
  lemma CategorySpendingSnoc(txs: seq<Transaction>, t: Transaction, budgets: seq<Budget>, month: int, year: int, i: nat)
    requires i < |CATEGORIES|
    ensures CategorySpending(txs + [t], budgets, month, year)[i].spending
         == CategorySpending(txs, budgets, month, year)[i].spending
            + (if InMonth(t, month, year) && t.category == CATEGORIES[i].id then t.amount else 0.0)
  {
    PeriodSpendingSnoc(txs, t, month, year, CATEGORIES[i].id);
  }

  /** The same for the period total of any one category id. */
  lemma PeriodSpendingSnoc(txs: seq<Transaction>, t: Transaction, month: int, year: int, id: string)
    ensures Sum(WithKey(InPeriod(txs + [t], month, year), id, Raw))
         == Sum(WithKey(InPeriod(txs, month, year), id, Raw)) + (if InMonth(t, month, year) && t.category == id then t.amount else 0.0)
  {
    var before := InPeriod(txs, month, year);
    InPeriodSnoc(txs, t, month, year);
    if InMonth(t, month, year) {
      WithKeySnoc(before, t, id, Raw);
    } else {
      assert before + [] == before;
    }
  }

  /** A transaction whose category is missing or not in the registry counts in no row. */
  lemma UnknownCategoryCountsNowhere(txs: seq<Transaction>, t: Transaction, budgets: seq<Budget>, month: int, year: int)
    requires !IsCategoryId(t.category)
    ensures CategorySpending(txs + [t], budgets, month, year) == CategorySpending(txs, budgets, month, year)
  {
    var a := CategorySpending(txs + [t], budgets, month, year);
    var b := CategorySpending(txs, budgets, month, year);
    forall i | 0 <= i < |CATEGORIES| ensures a[i] == b[i] {
      CategorySpendingSnoc(txs, t, budgets, month, year, i);
    }
  }

  function SpendingTotal(rows: seq<SpendingRow>): real {
    if rows == [] then 0.0 else rows[0].spending + SpendingTotal(rows[1..])
  }

  lemma {:induction false} SpendingRowsTotal(cats: seq<Category>, period: seq<Transaction>, budgets: seq<Budget>)
    ensures SpendingTotal(SpendingRows(cats, period, budgets)) == KeySum(IdsOf(cats), period, Raw)
  {
    if cats != [] {
      SpendingRowsTotal(cats[1..], period, budgets);
      assert SpendingRows(cats, period, budgets)[1..] == SpendingRows(cats[1..], period, budgets);
      assert IdsOf(cats)[1..] == IdsOf(cats[1..]);
    }
  }

  /** The row spendings add up to the month's total over transactions whose category is a registry id. */
  lemma CategorySpendingAddsUp(txs: seq<Transaction>, budgets: seq<Budget>, month: int, year: int)
    ensures SpendingTotal(CategorySpending(txs, budgets, month, year))
         == Sum(WithKeyIn(InPeriod(txs, month, year), Elems(CategoryIds()), Raw))
  {
    RegistryShape();
    SpendingRowsTotal(CATEGORIES, InPeriod(txs, month, year), budgets);
    KeySumIsSum(CategoryIds(), InPeriod(txs, month, year), Raw);
  }

  // ---------------------------------------------------------------------
  // availableYears

  predicate StrictlyDescending(s: seq<int>) {
    forall i, j :: 0 <= i < j < |s| ==> s[i] > s[j]
  }

  function InsertDescending(x: int, s: seq<int>): (r: seq<int>)
    requires StrictlyDescending(s)
    ensures StrictlyDescending(r)
    ensures forall y :: y in r <==> y in s || y == x
  {
    if s == [] then [x]
    else if x == s[0] then s
    else if x > s[0] then [x] + s
    else
      var rest := InsertDescending(x, s[1..]);
      forall y | y in rest ensures y < s[0] {
        DescendingTail(s, y);
      }
      ConsDescending(s[0], rest);
      [s[0]] + rest
  }

  lemma ConsDescending(h: int, rest: seq<int>)
    requires StrictlyDescending(rest)
    requires forall y :: y in rest ==> y < h
    ensures StrictlyDescending([h] + rest)
  {
    var r := [h] + rest;
    forall i, j | 0 <= i < j < |r| ensures r[i] > r[j] {
      assert r[j] == rest[j - 1] && rest[j - 1] in rest;
      if i > 0 {
        assert r[i] == rest[i - 1];
      }
    }
  }

  /** In a strictly descending list, the tail holds exactly the elements below the head. */
  lemma DescendingTail(s: seq<int>, y: int)
    requires StrictlyDescending(s) && s != []
    ensures y in s[1..] <==> y in s && y < s[0]
  {
    if y in s[1..] {
      var k :| 0 <= k < |s[1..]| && s[1..][k] == y;
      assert s[k + 1] == y;
    }
    if y in s && y < s[0] {
      var k :| 0 <= k < |s| && s[k] == y;
      assert s[1..][k - 1] == y;
    }
  }

  /** `[...new Set(years)].sort((a, b) => b - a)`. */
  function DistinctYears(txs: seq<Transaction>): (years: seq<int>)
    ensures StrictlyDescending(years)
    ensures forall y :: y in years <==> exists t :: t in txs && t.date.year == y
  {
    if txs == [] then []
    else
      var rest := DistinctYears(txs[1..]);
      assert forall t :: t in txs <==> t == txs[0] || t in txs[1..];
      InsertDescending(txs[0].date.year, rest)
  }

  /**
   * `availableYears`: the distinct transaction years, newest first; with no
   * transactions, just the current year.
   */
  function AvailableYears(txs: seq<Transaction>, currentYear: int): (years: seq<int>)
    ensures years != [] && StrictlyDescending(years)
    ensures txs == [] ==> years == [currentYear]
    ensures txs != [] ==> forall y :: y in years <==> exists t :: t in txs && t.date.year == y
  {
    if txs == [] then [currentYear]
    else
      assert txs[0] in txs;
      DistinctYears(txs)
  }

  lemma HeadIn(s: seq<int>)
    ensures s != [] ==> s[0] in s
  {
  }

  /** A strictly descending list is fixed by its elements, so the year list depends only on which years occur. */
  lemma {:induction false} DescendingUnique(a: seq<int>, b: seq<int>)
    requires StrictlyDescending(a) && StrictlyDescending(b)
    requires forall y :: y in a <==> y in b
    ensures a == b
  {
    if a == [] || b == [] {
      HeadIn(a);
      HeadIn(b);
    } else {
      assert a[0] in b && b[0] in a;
      assert a[0] == b[0];
      forall y ensures y in a[1..] <==> y in b[1..] {
        DescendingTail(a, y);
        DescendingTail(b, y);
      }
      DescendingUnique(a[1..], b[1..]);
      assert a == [a[0]] + a[1..] && b == [b[0]] + b[1..];
    }
  }

  /** Reordering the transactions leaves the year list unchanged. */
  lemma AvailableYearsPermutation(a: seq<Transaction>, b: seq<Transaction>, currentYear: int)
    requires multiset(a) == multiset(b)
    ensures AvailableYears(a, currentYear) == AvailableYears(b, currentYear)
  {
    forall t ensures t in a <==> t in b {
      assert t in a <==> t in multiset(a);
      assert t in b <==> t in multiset(b);
    }
    if a == [] {
      assert |b| == |multiset(b)| == 0;
    } else {
      assert b != [] by { assert a[0] in b; }
      DescendingUnique(AvailableYears(a, currentYear), AvailableYears(b, currentYear));
    }
  }
}
