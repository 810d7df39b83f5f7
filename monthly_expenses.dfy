/**
 * The monthly expenses bar chart: twelve buckets, January to December, each
 * holding the selected year's spending in that month. The buckets live in a
 * twelve-element array that the transaction loop increments in place.
 */
module MonthlyExpenses {
  import opened Model
  import opened Aggregates

  const MONTH_NAMES: seq<string> := ["Jan", "Feb", "Mar", "Apr", "May", "Jun", "Jul", "Aug", "Sep", "Oct", "Nov", "Dec"]

  datatype Bucket = Bucket(name: string, amount: real, monthIndex: MonthIndex)

  /** What the chart is meant to show: bucket `m` holds month `m`'s total in `year`. */
  function Series(txs: seq<Transaction>, year: int): seq<Bucket> {
    seq(12, m requires 0 <= m < 12 => Bucket(MONTH_NAMES[m], Sum(InPeriod(txs, m, year)), m))
  }

  /** The transactions of one year, in their given order. */
  function InYear(txs: seq<Transaction>, year: int): (r: seq<Transaction>)
    ensures forall t :: t in r <==> t in txs && t.date.year == year
  {
    if txs == [] then []
    else (if txs[0].date.year == year then [txs[0]] else []) + InYear(txs[1..], year)
  }

  // ---------------------------------------------------------------------
  // The final sort by month index

  predicate SortedByIndex(s: seq<Bucket>) {
    forall i, j :: 0 <= i < j < |s| ==> s[i].monthIndex <= s[j].monthIndex
  }

  function InsertByIndex(b: Bucket, s: seq<Bucket>): seq<Bucket> {
    if s == [] || b.monthIndex <= s[0].monthIndex then [b] + s
    else [s[0]] + InsertByIndex(b, s[1..])
  }

  /**
   * `sort((a, b) => a.monthIndex - b.monthIndex)`, as a stable insertion
   * sort: buckets with equal indices keep their relative order.
   */
  function SortByIndex(s: seq<Bucket>): seq<Bucket> {
    if s == [] then [] else InsertByIndex(s[0], SortByIndex(s[1..]))
  }

  lemma {:induction false} InsertByIndexCount(b: Bucket, s: seq<Bucket>)
    ensures multiset(InsertByIndex(b, s)) == multiset{b} + multiset(s)
  {
    if s != [] && b.monthIndex > s[0].monthIndex {
      InsertByIndexCount(b, s[1..]);
      assert s == [s[0]] + s[1..];
    }
  }

  /** The inserted list starts with the new bucket or with the old first one. */
  lemma InsertByIndexHead(b: Bucket, s: seq<Bucket>)
    ensures InsertByIndex(b, s) != []
    ensures InsertByIndex(b, s)[0] == b || (s != [] && InsertByIndex(b, s)[0] == s[0])
  {
  }

  lemma ConsSortedByIndex(h: Bucket, rest: seq<Bucket>)
    requires SortedByIndex(rest)
    requires rest != [] ==> h.monthIndex <= rest[0].monthIndex
    ensures SortedByIndex([h] + rest)
  {
    var r := [h] + rest;
    forall i, j | 0 <= i < j < |r| ensures r[i].monthIndex <= r[j].monthIndex {
      assert r[j] == rest[j - 1];
      if i > 0 {
        assert r[i] == rest[i - 1];
      } else {
        assert rest[0].monthIndex <= rest[j - 1].monthIndex;
      }
    }
  }

  lemma {:induction false} InsertByIndexSorted(b: Bucket, s: seq<Bucket>)
    requires SortedByIndex(s)
    ensures SortedByIndex(InsertByIndex(b, s))
  {
    if s == [] || b.monthIndex <= s[0].monthIndex {
      ConsSortedByIndex(b, s);
    } else {
      var rest := InsertByIndex(b, s[1..]);
      InsertByIndexSorted(b, s[1..]);
      InsertByIndexHead(b, s[1..]);
      if rest[0] != b {
        assert rest[0] == s[1];
      }
      ConsSortedByIndex(s[0], rest);
    }
  }

  /** The sort yields a sorted permutation of its input. */
  lemma {:induction false} SortByIndexFacts(s: seq<Bucket>)
    ensures SortedByIndex(SortByIndex(s))
    ensures multiset(SortByIndex(s)) == multiset(s)
  {
    if s != [] {
      SortByIndexFacts(s[1..]);
      InsertByIndexSorted(s[0], SortByIndex(s[1..]));
      InsertByIndexCount(s[0], SortByIndex(s[1..]));
      assert s == [s[0]] + s[1..];
    }
  }

  /** Sorting an array that is already in month order leaves it unchanged. */
  lemma {:induction false} SortedIsFixed(s: seq<Bucket>)
    requires SortedByIndex(s)
    ensures SortByIndex(s) == s
  {
    if s != [] {
      SortedIsFixed(s[1..]);
      assert s == [s[0]] + s[1..];
    }
  }

  // ---------------------------------------------------------------------
  // The `forEach` loop

  /** One more transaction raises exactly its own month's bucket, and only when its year matches. */
  lemma SeriesSnoc(done: seq<Transaction>, t: Transaction, year: int, before: seq<Bucket>, after: seq<Bucket>)
    requires before == Series(done, year)
    requires after == if t.date.year == year
      then before[t.date.month := before[t.date.month].(amount := before[t.date.month].amount + t.amount)]
      else before
    ensures after == Series(done + [t], year)
  {
    var next := Series(done + [t], year);
    forall m | 0 <= m < 12 ensures after[m] == next[m] {
      InPeriodSnoc(done, t, m, year);
      SumConcat(InPeriod(done, m, year), if InMonth(t, m, year) then [t] else []);
      assert Sum([t]) == t.amount + Sum([]);
      assert Sum([]) == 0.0;
    }
  }

  /** The `chartData` memo for `year`. */
  method MonthlySeries(txs: seq<Transaction>, year: int) returns (buckets: seq<Bucket>)
    ensures buckets == Series(txs, year)
  {
    var monthlyData := new Bucket[12](m requires 0 <= m < 12 => Bucket(MONTH_NAMES[m], 0.0, m));
    assert monthlyData[..] == Series([], year);
    ghost var done: seq<Transaction> := [];
    var i := 0;
    while i < |txs|
      invariant 0 <= i <= |txs| && done == txs[..i]
      invariant monthlyData[..] == Series(done, year)
    {
      var t := txs[i];
      ghost var before := monthlyData[..];
      if t.date.year == year {
        var month := t.date.month;
        monthlyData[month] := monthlyData[month].(amount := monthlyData[month].amount + t.amount);
      }
      SeriesSnoc(done, t, year, before, monthlyData[..]);
      assert txs[..i + 1] == done + [t];
      done, i := done + [t], i + 1;
    }
    assert done == txs;
    SeriesInOrder(txs, year);
    SortedIsFixed(monthlyData[..]);
    buckets := SortByIndex(monthlyData[..]);
  }

  // ---------------------------------------------------------------------
  // Properties of the series

  /** Twelve buckets, indexed 0 to 11 in order and named after their months, so already sorted. */
  lemma SeriesInOrder(txs: seq<Transaction>, year: int)
    ensures |Series(txs, year)| == 12 && SortedByIndex(Series(txs, year))
    ensures forall m :: 0 <= m < 12 ==> Series(txs, year)[m].monthIndex == m && Series(txs, year)[m].name == MONTH_NAMES[m]
  {
  }

  /** With no transactions every bucket is 0. */
  lemma EmptySeries(year: int)
    ensures forall m :: 0 <= m < 12 ==> Series([], year)[m].amount == 0.0
  {
  }

  /** A transaction from another year changes no bucket. */
  lemma OtherYearIgnored(txs: seq<Transaction>, t: Transaction, year: int)
    requires t.date.year != year
    ensures Series(txs + [t], year) == Series(txs, year)
  {
    SeriesSnoc(txs, t, year, Series(txs, year), Series(txs, year));
  }

  /** The series does not depend on the order of the transactions. */
  lemma SeriesPermutation(a: seq<Transaction>, b: seq<Transaction>, year: int)
    requires multiset(a) == multiset(b)
    ensures Series(a, year) == Series(b, year)
  {
    forall m | 0 <= m < 12 ensures Series(a, year)[m] == Series(b, year)[m] {
      PeriodSumPermutation(a, b, m, year);
    }
  }

  /** The total of the first `n` buckets, added from the back. */
  function BucketTotal(bs: seq<Bucket>): real {
    if bs == [] then 0.0 else BucketTotal(bs[..|bs| - 1]) + bs[|bs| - 1].amount
  }

  /** The year's total split over its first `n` months. */
  function MonthsTotal(txs: seq<Transaction>, year: int, n: nat): real
    requires n <= 12
  {
    if n == 0 then 0.0 else MonthsTotal(txs, year, n - 1) + Sum(InPeriod(txs, n - 1, year))
  }

  lemma {:induction false} MonthsTotalCons(t: Transaction, rest: seq<Transaction>, year: int, n: nat)
    requires n <= 12
    ensures MonthsTotal([t] + rest, year, n)
         == MonthsTotal(rest, year, n) + (if t.date.year == year && t.date.month < n then t.amount else 0.0)
  {
    if n > 0 {
      MonthsTotalCons(t, rest, year, n - 1);
      assert ([t] + rest)[1..] == rest;
      var head := if InMonth(t, n - 1, year) then [t] else [];
      assert InPeriod([t] + rest, n - 1, year) == head + InPeriod(rest, n - 1, year);
      SumConcat(head, InPeriod(rest, n - 1, year));
      assert Sum([t]) == t.amount + Sum([]);
    }
  }

  /** Month totals over all twelve months add up to the year's total. */
  lemma {:induction false} MonthsCoverYear(txs: seq<Transaction>, year: int)
    ensures MonthsTotal(txs, year, 12) == Sum(InYear(txs, year))
  {
    if txs == [] {
      MonthsTotalEmpty(year, 12);
    } else {
      var t, rest := txs[0], txs[1..];
      var head := if t.date.year == year then [t] else [];
      assert txs == [t] + rest;
      assert InYear(txs, year) == head + InYear(rest, year);
      MonthsTotalCons(t, rest, year, 12);
      MonthsCoverYear(rest, year);
      SumConcat(head, InYear(rest, year));
      assert Sum(head) == if t.date.year == year then t.amount else 0.0 by {
        assert Sum([t]) == t.amount + Sum([]);
      }
    }
  }

  lemma {:induction false} MonthsTotalEmpty(year: int, n: nat)
    requires n <= 12
    ensures MonthsTotal([], year, n) == 0.0
  {
    if n > 0 {
      MonthsTotalEmpty(year, n - 1);
    }
  }

  lemma {:induction false} BucketPrefixTotal(txs: seq<Transaction>, year: int, n: nat)
    requires n <= 12
    ensures BucketTotal(Series(txs, year)[..n]) == MonthsTotal(txs, year, n)
  {
    if n > 0 {
      var s := Series(txs, year);
      assert s[..n][..n - 1] == s[..n - 1];
      BucketPrefixTotal(txs, year, n - 1);
    }
  }

  /** The twelve buckets add up to the selected year's total. */
  lemma SeriesTotal(txs: seq<Transaction>, year: int)
    ensures BucketTotal(Series(txs, year)) == Sum(InYear(txs, year))
  {
    BucketPrefixTotal(txs, year, 12);
    assert Series(txs, year)[..12] == Series(txs, year);
    MonthsCoverYear(txs, year);
  }
}
