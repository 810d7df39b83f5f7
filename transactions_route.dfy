/**
 * The `/api/transactions` route over the transactions collection: `GET`
 * lists every document newest first, `POST` validates its body and inserts
 * one document. Whether the connection and the write succeed, the current
 * time, the id the database assigns and the conversion of the posted date
 * text into a date are parameters.
 */
module TransactionsRoute {
  import opened Model

  const MISSING_FIELDS := "Missing required fields"
  const FETCH_FAILED := "Failed to fetch transactions"
  const CREATE_FAILED := "Failed to create transaction"

  /** A stored transaction document: the record and its two timestamps. */
  datatype Document = Document(record: Transaction, createdAt: int, updatedAt: int)

  datatype Body = Created(document: Document) | Listing(documents: seq<Document>) | Failure(message: string)

  datatype Response = Response(status: int, body: Body)

  /** A posted body; an absent field is `None`. The date arrives as text. */
  datatype Request = Request(description: Option<string>, amount: Option<real>, date: Option<string>, category: Option<string>)

  /** `!data.description || !data.amount || !data.date`: a field that is absent, empty or zero. */
  predicate Missing(req: Request) {
    || req.description.None? || req.description.value == ""
    || req.amount.None? || req.amount.value == 0.0
    || req.date.None? || req.date.value == ""
  }

  /** The document `POST` stores: every posted field, the date converted, both timestamps `now`. */
  function NewDocument(req: Request, toDate: string -> Date, now: int, newId: string): (d: Document)
    requires !Missing(req)
    ensures d.record.id == newId && d.createdAt == now && d.updatedAt == now
    ensures Some(d.record.description) == req.description && d.record.description != ""
    ensures Some(d.record.amount) == req.amount && d.record.amount != 0.0
    ensures d.record.date == toDate(req.date.value)
    ensures req.category.Some? ==> d.record.category == req.category.value
    ensures req.category.None? ==> d.record.category == ""
  {
    var category := if req.category.Some? then req.category.value else "";
    Document(Transaction(newId, req.description.value, req.amount.value, toDate(req.date.value), category), now, now)
  }

  // ---------------------------------------------------------------------
  // `sort({ date: -1 })`

  /** Newest first: no document is followed by a later one. */
  predicate NewestFirst(s: seq<Document>) {
    forall i, j :: 0 <= i < j < |s| ==> NotAfter(s[j].record.date, s[i].record.date)
  }

  function InsertByDate(d: Document, s: seq<Document>): seq<Document> {
    if s == [] || NotAfter(s[0].record.date, d.record.date) then [d] + s
    else [s[0]] + InsertByDate(d, s[1..])
  }

  /**
   * The sorted listing. The database leaves the order of documents with the
   * same date open; here an insertion sort keeps their stored order.
   */
  function SortByDate(s: seq<Document>): seq<Document> {
    if s == [] then [] else InsertByDate(s[0], SortByDate(s[1..]))
  }

  lemma NotAfterTotal(a: Date, b: Date)
    ensures NotAfter(a, b) || NotAfter(b, a)
  {
  }

  lemma NotAfterTransitive(a: Date, b: Date, c: Date)
    requires NotAfter(a, b) && NotAfter(b, c)
    ensures NotAfter(a, c)
  {
  }

  lemma {:induction false} InsertByDateCount(d: Document, s: seq<Document>)
    ensures multiset(InsertByDate(d, s)) == multiset{d} + multiset(s)
  {
    if s != [] && !NotAfter(s[0].record.date, d.record.date) {
      InsertByDateCount(d, s[1..]);
      assert s == [s[0]] + s[1..];
    }
  }

  lemma InsertByDateHead(d: Document, s: seq<Document>)
    ensures InsertByDate(d, s) != []
    ensures InsertByDate(d, s)[0] == d || (s != [] && InsertByDate(d, s)[0] == s[0])
  {
  }

  lemma ConsNewestFirst(h: Document, rest: seq<Document>)
    requires NewestFirst(rest)
    requires rest != [] ==> NotAfter(rest[0].record.date, h.record.date)
    ensures NewestFirst([h] + rest)
  {
    var r := [h] + rest;
    forall i, j | 0 <= i < j < |r| ensures NotAfter(r[j].record.date, r[i].record.date) {
      assert r[j] == rest[j - 1];
      if i > 0 {
        assert r[i] == rest[i - 1];
      } else if j > 1 {
        NotAfterTransitive(rest[j - 1].record.date, rest[0].record.date, h.record.date);
      }
    }
  }

  lemma {:induction false} InsertByDateSorted(d: Document, s: seq<Document>)
    requires NewestFirst(s)
    ensures NewestFirst(InsertByDate(d, s))
  {
    if s == [] || NotAfter(s[0].record.date, d.record.date) {
      ConsNewestFirst(d, s);
    } else {
      var rest := InsertByDate(d, s[1..]);
      InsertByDateSorted(d, s[1..]);
      InsertByDateHead(d, s[1..]);
      NotAfterTotal(s[0].record.date, d.record.date);
      if rest[0] != d {
        assert rest[0] == s[1];
      }
      ConsNewestFirst(s[0], rest);
    }
  }

  /** The listing is newest first and holds exactly the stored documents. */
  lemma {:induction false} SortByDateFacts(s: seq<Document>)
    ensures NewestFirst(SortByDate(s))
    ensures multiset(SortByDate(s)) == multiset(s)
  {
    if s != [] {
      SortByDateFacts(s[1..]);
      InsertByDateSorted(s[0], SortByDate(s[1..]));
      InsertByDateCount(s[0], SortByDate(s[1..]));
      assert s == [s[0]] + s[1..];
    }
  }

  /** The transactions collection, in insertion order. */
  class TransactionCollection {
    var documents: seq<Document>

    constructor (documents: seq<Document>)
      ensures this.documents == documents
    {
      this.documents := documents;
    }

    /** `GET`: every stored document, newest first, or 500 when the database cannot be reached. */
    method Get(connected: bool) returns (resp: Response)
      ensures !connected ==> resp == Response(500, Failure(FETCH_FAILED))
      ensures connected ==>
        && resp.status == 200 && resp.body.Listing?
        && NewestFirst(resp.body.documents) && multiset(resp.body.documents) == multiset(documents)
    {
      if !connected {
        return Response(500, Failure(FETCH_FAILED));
      }
      SortByDateFacts(documents);
      resp := Response(200, Listing(SortByDate(documents)));
    }

    /**
     * `POST`. `connected` says whether the database is reached, `writeOk`
     * whether the insert succeeds; a failed insert stores nothing. A stored
     * document is answered with status 201.
     */
    method Post(connected: bool, req: Request, toDate: string -> Date, writeOk: bool, now: int, newId: string)
      returns (resp: Response)
      modifies this
      ensures !connected ==> resp == Response(500, Failure(CREATE_FAILED)) && documents == old(documents)
      ensures connected && Missing(req) ==> resp == Response(400, Failure(MISSING_FIELDS)) && documents == old(documents)
      ensures connected && !Missing(req) && !writeOk ==>
        resp == Response(500, Failure(CREATE_FAILED)) && documents == old(documents)
      ensures connected && !Missing(req) && writeOk ==>
        && documents == old(documents) + [NewDocument(req, toDate, now, newId)]
        && resp == Response(201, Created(NewDocument(req, toDate, now, newId)))
    {
      if !connected {
        return Response(500, Failure(CREATE_FAILED));
      }
      if Missing(req) {
        return Response(400, Failure(MISSING_FIELDS));
      }
      if !writeOk {
        return Response(500, Failure(CREATE_FAILED));
      }
      var d := NewDocument(req, toDate, now, newId);
      documents := documents + [d];
      resp := Response(201, Created(d));
    }
  }

  /** A document stored by `POST` is in the next listing; nothing else was added. */
  lemma PostedIsListed(stored: seq<Document>, d: Document)
    ensures d in SortByDate(stored + [d])
    ensures multiset(SortByDate(stored + [d])) == multiset(SortByDate(stored)) + multiset{d}
  {
    SortByDateFacts(stored + [d]);
    SortByDateFacts(stored);
    assert d in multiset(stored + [d]);
  }

  /** A listing that is already newest first comes back unchanged. */
  lemma {:induction false} SortedIsFixed(s: seq<Document>)
    requires NewestFirst(s)
    ensures SortByDate(s) == s
  {
    if s != [] {
      SortedIsFixed(s[1..]);
      assert s == [s[0]] + s[1..];
    }
  }
}
