/**
 * The expenses-by-category pie chart: for the selected month, one slice per
 * registry category whose resolved total is positive, in registry order,
 * with the category's name and colour.
 */
module CategoryPie {
  import opened Model
  import opened Aggregates

  datatype Slice = Slice(name: string, value: real, color: string)

  /** The slice a category gets from the month's transactions. */
  function SliceOf(c: Category, period: seq<Transaction>): Slice {
    Slice(c.name, Sum(WithKey(period, c.id, Resolved)), c.color)
  }

  /** What the chart is meant to show: the positive slices of the categories, in their order. */
  function Slices(cats: seq<Category>, period: seq<Transaction>): (slices: seq<Slice>)
    ensures |slices| <= |cats|
  {
    if cats == [] then []
    else (if SliceOf(cats[0], period).value > 0.0 then [SliceOf(cats[0], period)] else []) + Slices(cats[1..], period)
  }

  /** The component's `CATEGORIES.filter((c) => totals[c.id] > 0).map(...)` over the grouped dictionary. */
  function SlicesFrom(cats: seq<Category>, totals: map<string, real>): seq<Slice> {
    if cats == [] then []
    else (if TotalOf(totals, cats[0].id) > 0.0 then [Slice(cats[0].name, TotalOf(totals, cats[0].id), cats[0].color)] else [])
         + SlicesFrom(cats[1..], totals)
  }

  /** Reading the dictionary gives the reference slices whenever it holds every category's total. */
  lemma {:induction false} SlicesFromAgree(cats: seq<Category>, totals: map<string, real>, period: seq<Transaction>)
    requires forall k :: TotalOf(totals, k) == Sum(WithKey(period, k, Resolved))
    ensures SlicesFrom(cats, totals) == Slices(cats, period)
  {
    if cats != [] {
      SlicesFromAgree(cats[1..], totals, period);
      assert TotalOf(totals, cats[0].id) == Sum(WithKey(period, cats[0].id, Resolved));
    }
  }

  /** The `chartData` memo for `month` of `year`. */
  method PieData(txs: seq<Transaction>, month: int, year: int) returns (slices: seq<Slice>)
    ensures slices == Slices(CATEGORIES, InPeriod(txs, month, year))
  {
    var period := InPeriod(txs, month, year);
    var totals, order := GroupByCategory(period);
    forall k ensures TotalOf(totals, k) == Sum(WithKey(period, k, Resolved)) {
      TotalOfGrouped(period, totals, order, k);
    }
    SlicesFromAgree(CATEGORIES, totals, period);
    slices := SlicesFrom(CATEGORIES, totals);
  }

  /** A slice is shown exactly when it is some category's slice and its value is positive. */
  lemma {:induction false} SlicesMembers(cats: seq<Category>, period: seq<Transaction>)
    ensures forall s :: s in Slices(cats, period) <==>
      s.value > 0.0 && exists c :: c in cats && s == SliceOf(c, period)
  {
    if cats != [] {
      SlicesMembers(cats[1..], period);
      assert cats == [cats[0]] + cats[1..];
      assert forall c :: c in cats <==> c == cats[0] || c in cats[1..];
    }
  }

  /** A month without transactions draws no slice (the chart shows its empty state). */
  lemma {:induction false} NoTransactionsNoSlices(cats: seq<Category>)
    ensures Slices(cats, []) == []
  {
    if cats != [] {
      NoTransactionsNoSlices(cats[1..]);
    }
  }

  /** The chart keeps the categories' order: it distributes over concatenation. */
  lemma {:induction false} SlicesConcat(a: seq<Category>, b: seq<Category>, period: seq<Transaction>)
    ensures Slices(a + b, period) == Slices(a, period) + Slices(b, period)
  {
    if a == [] {
      assert a + b == b;
    } else {
      assert (a + b)[0] == a[0];
      assert (a + b)[1..] == a[1..] + b;
      SlicesConcat(a[1..], b, period);
    }
  }

  function SliceTotal(slices: seq<Slice>): real {
    if slices == [] then 0.0 else slices[0].value + SliceTotal(slices[1..])
  }

  /** With non-negative amounts the dropped categories total 0, so the slices add up to the per-category totals. */
  lemma {:induction false} SlicesTotal(cats: seq<Category>, period: seq<Transaction>)
    requires forall t :: t in period ==> t.amount >= 0.0
    ensures SliceTotal(Slices(cats, period)) == KeySum(IdsOf(cats), period, Resolved)
  {
    if cats != [] {
      WithKeySumAtMost(period, cats[0].id, Resolved);
      SlicesTotal(cats[1..], period);
      assert IdsOf(cats)[1..] == IdsOf(cats[1..]);
      var head := if SliceOf(cats[0], period).value > 0.0 then [SliceOf(cats[0], period)] else [];
      SliceTotalConcat(head, Slices(cats[1..], period));
    }
  }

  lemma {:induction false} SliceTotalConcat(a: seq<Slice>, b: seq<Slice>)
    ensures SliceTotal(a + b) == SliceTotal(a) + SliceTotal(b)
  {
    if a == [] {
      assert a + b == b;
    } else {
      assert (a + b)[1..] == a[1..] + b;
      SliceTotalConcat(a[1..], b);
    }
  }

  /** For any list of distinct categories, the slices add up to the period's spending on those categories. */
  lemma SlicesCoverKeys(cats: seq<Category>, period: seq<Transaction>)
    requires Distinct(IdsOf(cats))
    requires forall t :: t in period ==> t.amount >= 0.0
    ensures SliceTotal(Slices(cats, period)) == Sum(WithKeyIn(period, Elems(IdsOf(cats)), Resolved))
  {
    SlicesTotal(cats, period);
    KeySumIsSum(IdsOf(cats), period, Resolved);
  }

  /** When every transaction resolves to one of the categories, the slices cover the whole period. */
  lemma SlicesCoverAll(cats: seq<Category>, period: seq<Transaction>)
    requires Distinct(IdsOf(cats))
    requires forall t :: t in period ==>
      t.amount >= 0.0 && exists i :: 0 <= i < |cats| && cats[i].id == Resolve(t.category)
    ensures SliceTotal(Slices(cats, period)) == Sum(period)
  {
    SlicesTotal(cats, period);
    var ids := IdsOf(cats);
    forall t | t in period ensures KeyOf(t, Resolved) in ids {
      var i :| 0 <= i < |cats| && cats[i].id == Resolve(t.category);
      assert ids[i] == cats[i].id;
    }
    KeySumCovers(ids, period, Resolved);
  }

  /** With non-negative amounts the pie's slices add up to the month's spending on registry categories. */
  lemma PieTotal(period: seq<Transaction>)
    requires forall t :: t in period ==> t.amount >= 0.0
    ensures SliceTotal(Slices(CATEGORIES, period)) == Sum(WithKeyIn(period, Elems(CategoryIds()), Resolved))
  {
    CategoryIdsDistinct();
    SlicesCoverKeys(CATEGORIES, period);
  }

  /** When every transaction resolves to a registry category, the pie covers the whole month. */
  lemma PieCoversMonth(period: seq<Transaction>)
    requires forall t :: t in period ==> t.amount >= 0.0 && IsCategoryId(Resolve(t.category))
    ensures SliceTotal(Slices(CATEGORIES, period)) == Sum(period)
  {
    CategoryIdsDistinct();
    SlicesCoverAll(CATEGORIES, period);
  }
}
