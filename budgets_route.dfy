/**
 * The `/api/budgets` route over the budgets collection: `GET` lists every
 * record, `POST` validates its body and then updates the record of that
 * category or inserts a new one. The database is a sequence of records in
 * insertion order; whether the connection and the write succeed, the
 * current time and the id the database assigns are parameters.
 */
module BudgetsRoute {
  import opened Model

  const MISSING_FIELDS := "Missing required fields"
  const FETCH_FAILED := "Failed to fetch budgets"
  const SAVE_FAILED := "Failed to create/update budget"

  /** A stored budget document. Times are instants on one clock. */
  datatype BudgetRecord = BudgetRecord(id: string, categoryId: string, amount: real, createdAt: int, updatedAt: int)

  datatype Body = One(record: BudgetRecord) | All(records: seq<BudgetRecord>) | Failure(message: string)

  datatype Response = Response(status: int, body: Body)

  /** `!data.categoryId || !data.amount`: a field that is absent, empty or zero. */
  predicate Missing(categoryId: Option<string>, amount: Option<real>) {
    categoryId.None? || categoryId.value == "" || amount.None? || amount.value == 0.0
  }

  /** The position `findOne({ categoryId })` and `updateOne` pick: the first match, or the length when there is none. */
  function FirstWith(records: seq<BudgetRecord>, categoryId: string): (i: nat)
    ensures i <= |records|
    ensures forall j :: 0 <= j < i ==> records[j].categoryId != categoryId
    ensures i < |records| ==> records[i].categoryId == categoryId
  {
    if records == [] || records[0].categoryId == categoryId then 0
    else 1 + FirstWith(records[1..], categoryId)
  }

  /** The collection after a valid `POST`: the found record gets the new amount and time, or a new record is appended. */
  function Upserted(records: seq<BudgetRecord>, categoryId: string, amount: real, now: int, newId: string): seq<BudgetRecord> {
    var i := FirstWith(records, categoryId);
    if i < |records| then records[i := records[i].(amount := amount, updatedAt := now)]
    else records + [BudgetRecord(newId, categoryId, amount, now, now)]
  }

  /** No two records share a category. */
  predicate UniqueCategories(records: seq<BudgetRecord>) {
    forall i, j :: 0 <= i < j < |records| ==> records[i].categoryId != records[j].categoryId
  }

  /** The records of one category, in order. */
  function WithCategory(records: seq<BudgetRecord>, categoryId: string): seq<BudgetRecord> {
    if records == [] then []
    else (if records[0].categoryId == categoryId then [records[0]] else []) + WithCategory(records[1..], categoryId)
  }

  /** The records of every other category, in order. */
  function Others(records: seq<BudgetRecord>, categoryId: string): seq<BudgetRecord> {
    if records == [] then []
    else (if records[0].categoryId != categoryId then [records[0]] else []) + Others(records[1..], categoryId)
  }

  lemma WithCategoryConcat(a: seq<BudgetRecord>, b: seq<BudgetRecord>, categoryId: string)
    ensures WithCategory(a + b, categoryId) == WithCategory(a, categoryId) + WithCategory(b, categoryId)
    ensures Others(a + b, categoryId) == Others(a, categoryId) + Others(b, categoryId)
  {
    OwnConcat(a, b, categoryId);
    OthersConcat(a, b, categoryId);
  }

  lemma {:induction false} OwnConcat(a: seq<BudgetRecord>, b: seq<BudgetRecord>, categoryId: string)
    ensures WithCategory(a + b, categoryId) == WithCategory(a, categoryId) + WithCategory(b, categoryId)
  {
    if a == [] {
      assert a + b == b;
    } else {
      assert (a + b)[0] == a[0];
      assert (a + b)[1..] == a[1..] + b;
      OwnConcat(a[1..], b, categoryId);
    }
  }

  lemma {:induction false} OthersConcat(a: seq<BudgetRecord>, b: seq<BudgetRecord>, categoryId: string)
    ensures Others(a + b, categoryId) == Others(a, categoryId) + Others(b, categoryId)
  {
    if a == [] {
      assert a + b == b;
    } else {
      assert (a + b)[0] == a[0];
      assert (a + b)[1..] == a[1..] + b;
      OthersConcat(a[1..], b, categoryId);
    }
  }

  lemma {:induction false} NoneBefore(records: seq<BudgetRecord>, categoryId: string)
    requires forall j :: 0 <= j < |records| ==> records[j].categoryId != categoryId
    ensures WithCategory(records, categoryId) == [] && Others(records, categoryId) == records
  {
    if records != [] {
      NoneBefore(records[1..], categoryId);
      assert records == [records[0]] + records[1..];
    }
  }

  /** Replacing the first record of the category by another of the same category. */
  lemma SplitAt(records: seq<BudgetRecord>, categoryId: string, i: nat, r: BudgetRecord)
    requires i < |records| && r.categoryId == categoryId
    requires forall j :: 0 <= j < i ==> records[j].categoryId != categoryId
    ensures WithCategory(records[i := r], categoryId) == [r] + WithCategory(records[i + 1..], categoryId)
    ensures Others(records[i := r], categoryId) == records[..i] + Others(records[i + 1..], categoryId)
  {
    var before, after := records[..i], records[i + 1..];
    assert records[i := r] == before + ([r] + after);
    NoneBefore(before, categoryId);
    WithCategoryConcat(before, [r] + after, categoryId);
    WithCategoryConcat([r], after, categoryId);
  }

  /** The collection split around the first record of the category. */
  lemma Split(records: seq<BudgetRecord>, categoryId: string, r: BudgetRecord)
    requires FirstWith(records, categoryId) < |records|
    requires r.categoryId == categoryId
    ensures var i := FirstWith(records, categoryId);
      && WithCategory(records[i := r], categoryId) == [r] + WithCategory(records[i + 1..], categoryId)
      && WithCategory(records, categoryId) == [records[i]] + WithCategory(records[i + 1..], categoryId)
      && Others(records[i := r], categoryId) == Others(records, categoryId)
  {
    var i := FirstWith(records, categoryId);
    SplitAt(records, categoryId, i, r);
    SplitAt(records, categoryId, i, records[i]);
    assert records[i := records[i]] == records;
  }

  /** Posting leaves the records of every other category as they were, in order. */
  lemma UpsertLeavesOthers(records: seq<BudgetRecord>, categoryId: string, amount: real, now: int, newId: string)
    ensures Others(Upserted(records, categoryId, amount, now, newId), categoryId) == Others(records, categoryId)
  {
    var i := FirstWith(records, categoryId);
    if i < |records| {
      Split(records, categoryId, records[i].(amount := amount, updatedAt := now));
    } else {
      WithCategoryConcat(records, [BudgetRecord(newId, categoryId, amount, now, now)], categoryId);
    }
  }

  /**
   * Posting to a category without a record inserts exactly one record with
   * the posted fields; posting to one with a record changes only that
   * record's amount and update time, and the result holds the new amount.
   */
  lemma UpsertOwnCategory(records: seq<BudgetRecord>, categoryId: string, amount: real, now: int, newId: string)
    ensures var after := Upserted(records, categoryId, amount, now, newId);
      && (WithCategory(records, categoryId) == [] ==>
            WithCategory(after, categoryId) == [BudgetRecord(newId, categoryId, amount, now, now)])
      && (WithCategory(records, categoryId) != [] ==>
            var old0 := WithCategory(records, categoryId)[0];
            WithCategory(after, categoryId)
              == [old0.(amount := amount, updatedAt := now)] + WithCategory(records, categoryId)[1..])
  {
    var i := FirstWith(records, categoryId);
    if i < |records| {
      Split(records, categoryId, records[i].(amount := amount, updatedAt := now));
    } else {
      NoneBefore(records, categoryId);
      WithCategoryConcat(records, [BudgetRecord(newId, categoryId, amount, now, now)], categoryId);
    }
  }

  lemma {:induction false} UniqueWithCategory(records: seq<BudgetRecord>, categoryId: string)
    requires UniqueCategories(records)
    ensures |WithCategory(records, categoryId)| <= 1
  {
    if records != [] {
      UniqueWithCategory(records[1..], categoryId);
      if records[0].categoryId == categoryId {
        NoneBefore(records[1..], categoryId);
      }
    }
  }

  /** A valid `POST` never creates a second record for a category. */
  lemma UpsertKeepsUnique(records: seq<BudgetRecord>, categoryId: string, amount: real, now: int, newId: string)
    requires UniqueCategories(records)
    ensures UniqueCategories(Upserted(records, categoryId, amount, now, newId))
  {
    var after := Upserted(records, categoryId, amount, now, newId);
    var i := FirstWith(records, categoryId);
    forall a, b | 0 <= a < b < |after| ensures after[a].categoryId != after[b].categoryId {
      if b == |records| {
        assert after[a] == records[a];
      } else {
        assert after[a].categoryId == records[a].categoryId;
        assert after[b].categoryId == records[b].categoryId;
      }
    }
  }

  /** Posting one category twice leaves one record for it, holding the later amount. */
  lemma PostTwice(records: seq<BudgetRecord>, categoryId: string, first: real, second: real,
                  now1: int, now2: int, id1: string, id2: string)
    requires UniqueCategories(records)
    ensures var after := Upserted(Upserted(records, categoryId, first, now1, id1), categoryId, second, now2, id2);
      && UniqueCategories(after)
      && |WithCategory(after, categoryId)| == 1
      && WithCategory(after, categoryId)[0].amount == second
      && Others(after, categoryId) == Others(records, categoryId)
  {
    var mid := Upserted(records, categoryId, first, now1, id1);
    UpsertOwnCategory(records, categoryId, first, now1, id1);
    UpsertKeepsUnique(records, categoryId, first, now1, id1);
    UniqueWithCategory(mid, categoryId);
    UpsertOwnCategory(mid, categoryId, second, now2, id2);
    UpsertKeepsUnique(mid, categoryId, second, now2, id2);
    UpsertLeavesOthers(records, categoryId, first, now1, id1);
    UpsertLeavesOthers(mid, categoryId, second, now2, id2);
  }

  /** The budgets collection. */
  class BudgetCollection {
    var records: seq<BudgetRecord>

    constructor (records: seq<BudgetRecord>)
      ensures this.records == records
    {
      this.records := records;
    }

    /** `GET`: every record, or 500 when the database cannot be reached. */
    method Get(connected: bool) returns (resp: Response)
      ensures connected ==> resp == Response(200, All(records))
      ensures !connected ==> resp == Response(500, Failure(FETCH_FAILED))
    {
      if !connected {
        return Response(500, Failure(FETCH_FAILED));
      }
      resp := Response(200, All(records));
    }

    /**
     * `POST`. `connected` says whether the database is reached, `writeOk`
     * whether the lookup and the write succeed; a failed write changes
     * nothing. An update answers 200 with the updated record, an insert 201
     * with the new one.
     */
    method Post(connected: bool, categoryId: Option<string>, amount: Option<real>, writeOk: bool, now: int, newId: string)
      returns (resp: Response)
      modifies this
      ensures !connected ==> resp == Response(500, Failure(SAVE_FAILED)) && records == old(records)
      ensures connected && Missing(categoryId, amount) ==> resp == Response(400, Failure(MISSING_FIELDS)) && records == old(records)
      ensures connected && !Missing(categoryId, amount) && !writeOk ==>
        resp == Response(500, Failure(SAVE_FAILED)) && records == old(records)
      ensures connected && !Missing(categoryId, amount) && writeOk ==>
        var i := FirstWith(old(records), categoryId.value);
        && records == Upserted(old(records), categoryId.value, amount.value, now, newId)
        && resp.status == (if i < |old(records)| then 200 else 201)
        && resp.body == One(records[i])
    {
      if !connected {
        return Response(500, Failure(SAVE_FAILED));
      }
      if Missing(categoryId, amount) {
        return Response(400, Failure(MISSING_FIELDS));
      }
      if !writeOk {
        return Response(500, Failure(SAVE_FAILED));
      }
      var i := FirstWith(records, categoryId.value);
      var existing := i < |records|;
      records := Upserted(records, categoryId.value, amount.value, now, newId);
      resp := Response(if existing then 200 else 201, One(records[i]));
    }
  }

  /** The record a successful `POST` answers with holds the posted category and amount and the request's time. */
  lemma PostAnswer(records: seq<BudgetRecord>, categoryId: string, amount: real, now: int, newId: string)
    ensures var i := FirstWith(records, categoryId);
      var after := Upserted(records, categoryId, amount, now, newId);
      && i < |after|
      && after[i].categoryId == categoryId && after[i].amount == amount && after[i].updatedAt == now
      && (i < |records| ==> after[i].id == records[i].id && after[i].createdAt == records[i].createdAt)
      && (i == |records| ==> after[i] == BudgetRecord(newId, categoryId, amount, now, now))
  {
  }
}
