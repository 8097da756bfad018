/**
 * The request-tracking handlers: GET lists a page of requests (optionally
 * filtered by status, newest first), PUT creates a pending request, PATCH
 * changes one request's status. The collection is a map from document id
 * to record held by a `RequestStore`.
 */
module RequestRoute {
  import opened RequestModel

  /** Number of requests per page of the listing. */
  const PageSize: nat := 10

  /**
   * A field of a JSON body: missing, a string, or any other JSON value
   * (null, a number, a boolean, an array or an object).
   */
  datatype JsonValue = Absent | JString(s: string) | JOther

  /**
   * The `page` query parameter once parsed: absent or empty, an integer,
   * or text that does not parse as a number.
   */
  datatype PageParam = NoPage | PageNumber(n: int) | NotANumber

  /** What a handler answers, before it is rendered as an HTTP response. */
  datatype Outcome<T> = InvalidInput | Created(value: T) | Success(value: T) | NotFound | UnknownError

  /** A stored request together with its identifier. */
  datatype Document = Document(id: string, record: Record)

  datatype Pagination = Pagination(currentPage: int, totalPages: nat, totalRequests: nat)

  /** The body of a successful GET. */
  datatype ListBody = ListBody(data: seq<Document>, pagination: Pagination)

  /** The `status` query parameter checked: rejected, or the filter to apply. */
  datatype StatusQuery = BadStatus | Query(filter: Option<Status>)

  function Min(a: int, b: int): int { if a <= b then a else b }

  // ---------------------------------------------------------------------
  // GET: query parameters

  /** The page GET serves, or `None` when the parameter is rejected. */
  function RequestedPage(p: PageParam): (r: Option<int>)
    ensures r.None? <==> p.NotANumber? || (p.PageNumber? && p.n < 1)
    ensures r.Some? ==> 1 <= r.value
    ensures p.NoPage? ==> r == Some(1)
    ensures p.PageNumber? && 1 <= p.n ==> r == Some(p.n)
  {
    match p
    case NoPage => Some(1)
    case NotANumber => None
    case PageNumber(n) => if n < 1 then None else Some(n)
  }

  /**
   * The `status` query parameter: absent or empty means no filter, one of
   * the enum's strings filters on that status, anything else is rejected.
   */
  function ParseStatusQuery(param: Option<string>): (q: StatusQuery)
    ensures q.BadStatus? <==> param.Some? && param.value != "" && param.value !in StatusEnum
    ensures q == Query(None) <==> param.None? || param == Some("")
    ensures q.Query? && q.filter.Some? ==> param == Some(StatusName(q.filter.value))
  {
    if param.None? || param.value == "" then Query(None)
    else
      match ParseStatus(param.value)
      case None => BadStatus
      case Some(s) => Query(Some(s))
  }

  // ---------------------------------------------------------------------
  // GET: the listing

  predicate Matches(r: Record, filter: Option<Status>) {
    filter.None? || r.status == filter.value
  }

  /** The documents whose id is in `ids` and whose record matches `filter`. */
  ghost function MatchingAmong(records: map<string, Record>, ids: set<string>, filter: Option<Status>): set<Document>
  {
    set id | id in ids && id in records && Matches(records[id], filter) :: Document(id, records[id])
  }

  /** The documents of the collection that a GET with `filter` selects. */
  ghost function MatchingDocs(records: map<string, Record>, filter: Option<Status>): (m: set<Document>)
    ensures forall d :: d in m <==> d.id in records && records[d.id] == d.record && Matches(d.record, filter)
  {
    MatchingAmong(records, records.Keys, filter)
  }

  /** Ordered by creation time, newest first. */
  predicate NewestFirst(q: seq<Document>) {
    forall i, j :: 0 <= i < j < |q| ==> q[i].record.createdDate >= q[j].record.createdDate
  }

  /**
   * `q` lists the documents of `m`, each once, newest first. Documents
   * created at the same instant may come in any order.
   */
  ghost predicate IsListing(q: seq<Document>, m: set<Document>) {
    NewestFirst(q) && multiset(q) == multiset(m)
  }

  /** Inserts `d` into a newest-first sequence, keeping it newest first. */
  function InsertByDate(q: seq<Document>, d: Document): (r: seq<Document>)
    requires NewestFirst(q)
    ensures NewestFirst(r)
    ensures multiset(r) == multiset(q) + multiset{d}
    ensures |r| == |q| + 1
  {
    if q == [] || d.record.createdDate >= q[0].record.createdDate then
      PrependKeepsNewestFirst(d, q);
      [d] + q
    else
      var rest := InsertByDate(q[1..], d);
      assert q == [q[0]] + q[1..];
      NoNewerThanHead(q, d, rest);
      PrependKeepsNewestFirst(q[0], rest);
      [q[0]] + rest
  }

  /** Putting in front a document no older than any of `s` keeps `s` newest first. */
  lemma PrependKeepsNewestFirst(x: Document, s: seq<Document>)
    requires NewestFirst(s)
    requires s == [] || x.record.createdDate >= s[0].record.createdDate
    ensures NewestFirst([x] + s)
  {
    var r := [x] + s;
    forall i, j | 0 <= i < j < |r|
      ensures r[i].record.createdDate >= r[j].record.createdDate
    {
      assert r[j] == s[j - 1];
      if i == 0 {
        assert s[0].record.createdDate >= s[j - 1].record.createdDate;
      } else {
        assert r[i] == s[i - 1];
      }
    }
  }

  /**
   * The head of a newest-first `q` is no older than any document of `rest`,
   * which holds the tail of `q` and an older document `d`.
   */
  lemma NoNewerThanHead(q: seq<Document>, d: Document, rest: seq<Document>)
    requires NewestFirst(q) && q != []
    requires d.record.createdDate < q[0].record.createdDate
    requires multiset(rest) == multiset(q[1..]) + multiset{d}
    ensures rest == [] || q[0].record.createdDate >= rest[0].record.createdDate
  {
    if rest != [] {
      var e := rest[0];
      assert e in multiset(rest);
      if e != d {
        assert e in multiset(q[1..]);
        var j :| 0 <= j < |q[1..]| && q[1..][j] == e;
        assert q[j + 1] == e;
      }
    }
  }

  /** The page of `q` that starts at offset `skip`: at most `PageSize` documents. */
  function Window(q: seq<Document>, skip: nat): (w: seq<Document>)
    ensures |w| == if skip >= |q| then 0 else Min(PageSize, |q| - skip)
    ensures forall i :: 0 <= i < |w| ==> w[i] == q[skip + i]
  {
    if skip >= |q| then [] else q[skip .. Min(skip + PageSize, |q|)]
  }

  /**
   * Page `page` (counted from 1) of `q`: skip the `(page - 1) * PageSize`
   * documents of the earlier pages, then take at most `PageSize`.
   */
  function Page(q: seq<Document>, page: int): (w: seq<Document>)
    requires 1 <= page
  {
    Window(q, (page - 1) * PageSize)
  }

  /** The number of pages `n` documents fill: the ceiling of `n / PageSize`. */
  function TotalPages(n: nat): (pages: nat)
    ensures n <= pages * PageSize
    ensures pages == 0 || (pages - 1) * PageSize < n
  {
    (n + PageSize - 1) / PageSize
  }

  // ---------------------------------------------------------------------
  // PUT and PATCH: body fields

  /**
   * PUT's check of `requestorName`: a non-empty string whose length is
   * within the schema's bounds.
   */
  predicate AcceptedRequestorName(v: JsonValue) {
    && v.JString?
    && v.s != ""
    && RequestorNameMinLength <= |v.s| <= RequestorNameMaxLength
  }

  /** PUT's check of `itemRequested`. */
  predicate AcceptedItemRequested(v: JsonValue) {
    && v.JString?
    && v.s != ""
    && ItemRequestedMinLength <= |v.s| <= ItemRequestedMaxLength
  }

  /** PATCH's check of `id`: a non-empty string. */
  predicate AcceptedId(v: JsonValue) {
    v.JString? && v.s != ""
  }

  /** PATCH's check of `status`: one of the enum's strings. */
  function RequestedStatus(v: JsonValue): (r: Option<Status>)
    ensures r.Some? <==> v.JString? && v.s in StatusEnum
    ensures r.Some? ==> v == JString(StatusName(r.value))
  {
    if v.JString? && v.s != "" then ParseStatus(v.s) else None
  }

  /** The record PUT saves: status forced to pending, created and edited `now`. */
  function NewRequest(name: string, item: string, now: Timestamp): (r: Record)
    ensures r == Record(name, item, now, Some(now), Pending)
  {
    WithDefaults(Draft(name, item, Some(now), Some(now), Some(Pending)), now)
  }

  /** The record PATCH leaves: only `status` and `lastEditedDate` change. */
  function EditStatus(rec: Record, status: Status, now: Timestamp): (r: Record)
    ensures r.status == status && r.lastEditedDate == Some(now)
    ensures r.requestorName == rec.requestorName && r.itemRequested == rec.itemRequested
    ensures r.createdDate == rec.createdDate
    ensures ValidRecord(r) <==> ValidRecord(rec)
  {
    rec.(status := status, lastEditedDate := Some(now))
  }

  // ---------------------------------------------------------------------
  // The collection and its three handlers

  class RequestStore {
    /** The collection: each document's record under its id. */
    var records: map<string, Record>

    /** Every stored record satisfies the schema. */
    ghost predicate Valid()
      reads this
    {
      forall id :: id in records ==> ValidRecord(records[id])
    }

    constructor ()
      ensures records == map[] && Valid()
    {
      records := map[];
    }

    /**
     * GET: checks `page` and then `status`, selects the matching records,
     * orders them newest first and returns the requested page with the
     * pagination figures. `listing` is the full ordered selection the page
     * was cut from. The collection is only read.
     */
    method Get(statusParam: Option<string>, page: PageParam) returns (r: Outcome<ListBody>, ghost listing: seq<Document>)
      ensures r.InvalidInput? || r.Success?
      ensures r.InvalidInput? <==> RequestedPage(page).None? || ParseStatusQuery(statusParam).BadStatus?
      ensures r.Success? ==>
        var p := RequestedPage(page).value;
        var m := MatchingDocs(records, ParseStatusQuery(statusParam).filter);
        && IsListing(listing, m)
        && r.value.data == Page(listing, p)
        && r.value.pagination == Pagination(p, TotalPages(|m|), |m|)
    {
      listing := [];
      var p := RequestedPage(page);
      if p.None? {
        return InvalidInput, listing;
      }

      var query: Option<Status> := None;
      if statusParam.Some? && statusParam.value != "" {
        var s := ParseStatus(statusParam.value);
        if s.None? {
          return InvalidInput, listing;
        }
        query := s;
      }
      assert ParseStatusQuery(statusParam) == Query(query);

      // find(query).sort({createdDate: -1})
      var pending := records.Keys;
      var found: seq<Document> := [];
      while pending != {}
        invariant pending <= records.Keys
        invariant NewestFirst(found)
        invariant multiset(found) == multiset(MatchingAmong(records, records.Keys - pending, query))
        decreases pending
      {
        var id :| id in pending;
        MatchingAmongAdd(records, records.Keys - pending, id, query);
        if Matches(records[id], query) {
          found := InsertByDate(found, Document(id, records[id]));
        }
        pending := pending - {id};
        assert records.Keys - pending == (records.Keys - (pending + {id})) + {id};
      }
      assert records.Keys - pending == records.Keys;
      ghost var m := MatchingDocs(records, query);
      assert |found| == |m| by {
        assert |multiset(found)| == |multiset(m)|;
      }

      // skip((page - 1) * PageSize).limit(PageSize), countDocuments(query)
      var skip := (p.value - 1) * PageSize;
      var totalRequests := |found|;
      r := Success(ListBody(Window(found, skip), Pagination(p.value, TotalPages(totalRequests), totalRequests)));
      listing := found;
    }

    /**
     * PUT: checks `requestorName`, then `itemRequested`, and saves a new
     * pending record under the id `newId` the driver generated for it.
     * Saving under an id already taken fails and changes nothing.
     */
    method Put(requestorName: JsonValue, itemRequested: JsonValue, now: Timestamp, newId: string)
      returns (r: Outcome<Document>)
      modifies this
      ensures !AcceptedRequestorName(requestorName) ==> r == InvalidInput
      ensures AcceptedRequestorName(requestorName) && !AcceptedItemRequested(itemRequested) ==> r == InvalidInput
      ensures AcceptedRequestorName(requestorName) && AcceptedItemRequested(itemRequested) ==>
        if newId in old(records) then r == UnknownError
        else r == Created(Document(newId, NewRequest(requestorName.s, itemRequested.s, now)))
      ensures r.Created? ==> records == old(records)[newId := r.value.record] && newId !in old(records)
      ensures !r.Created? ==> records == old(records)
      ensures r.Created? ==> ValidRecord(r.value.record)
      ensures old(Valid()) ==> Valid()
    {
      if !AcceptedRequestorName(requestorName) {
        return InvalidInput;
      }
      if !AcceptedItemRequested(itemRequested) {
        return InvalidInput;
      }
      var rec := NewRequest(requestorName.s, itemRequested.s, now);
      // save() refuses a second document with the same _id
      if newId in records {
        return UnknownError;
      }
      records := records[newId := rec];
      r := Created(Document(newId, rec));
    }

    /**
     * PATCH: checks `id`, then `status`, and sets the status and last-edit
     * time of the record with that id, returning it; `NotFound` when no
     * record has that id.
     */
    method Patch(id: JsonValue, status: JsonValue, now: Timestamp) returns (r: Outcome<Document>)
      modifies this
      ensures !AcceptedId(id) ==> r == InvalidInput
      ensures AcceptedId(id) && RequestedStatus(status).None? ==> r == InvalidInput
      ensures AcceptedId(id) && RequestedStatus(status).Some? ==>
        if id.s !in old(records) then r == NotFound
        else r == Success(Document(id.s, EditStatus(old(records)[id.s], RequestedStatus(status).value, now)))
      ensures r.Success? ==> records == old(records)[id.s := r.value.record]
      ensures !r.Success? ==> records == old(records)
      ensures old(Valid()) ==> Valid()
    {
      if !AcceptedId(id) {
        return InvalidInput;
      }
      var s := RequestedStatus(status);
      if s.None? {
        return InvalidInput;
      }
      if id.s !in records {
        return NotFound;
      }
      var rec := EditStatus(records[id.s], s.value, now);
      records := records[id.s := rec];
      r := Success(Document(id.s, rec));
    }
  }

  // ---------------------------------------------------------------------
  // Lemmas

  /** Adding one id to those already scanned adds its document if it matches. */
  lemma MatchingAmongAdd(records: map<string, Record>, ids: set<string>, id: string, filter: Option<Status>)
    requires id in records && id !in ids
    ensures var d := Document(id, records[id]);
      && d !in MatchingAmong(records, ids, filter)
      && multiset(MatchingAmong(records, ids + {id}, filter))
         == multiset(MatchingAmong(records, ids, filter)) + (if Matches(records[id], filter) then multiset{d} else multiset{})
  {
    var d := Document(id, records[id]);
    var before := MatchingAmong(records, ids, filter);
    var after := MatchingAmong(records, ids + {id}, filter);
    assert after == before + (if Matches(records[id], filter) then {d} else {});
  }

  /**
   * A page of a listing holds at most `PageSize` documents, all selected
   * and newest first; it is non-empty exactly when the page number is at
   * most the page count, so no documents means no pages and no data.
   */
  lemma PageOfListing(q: seq<Document>, m: set<Document>, page: int)
    requires IsListing(q, m) && 1 <= page
    ensures var w := Page(q, page);
      && |w| <= PageSize
      && NewestFirst(w)
      && (forall d :: d in w ==> d in m)
      && (w != [] <==> page <= TotalPages(|m|))
      && (|m| == 0 ==> TotalPages(|m|) == 0 && w == [])
  {
    var skip := (page - 1) * PageSize;
    var w := Window(q, skip);
    assert |q| == |m| by {
      assert |multiset(q)| == |multiset(m)|;
    }
    forall d | d in w
      ensures d in m
    {
      var i :| 0 <= i < |w| && w[i] == d;
      assert q[skip + i] == d;
      assert d in multiset(q);
    }
  }

  /** The concatenation of pages `page` to `last` of `q`. */
  function PagesFrom(q: seq<Document>, page: nat, last: nat): seq<Document>
    requires 1 <= page
    decreases last + 1 - page
  {
    if page > last then [] else Page(q, page) + PagesFrom(q, page + 1, last)
  }

  lemma {:induction false} PagesFromSuffix(q: seq<Document>, page: nat)
    requires 1 <= page <= TotalPages(|q|) + 1
    ensures PagesFrom(q, page, TotalPages(|q|)) == q[Min((page - 1) * PageSize, |q|)..]
    decreases TotalPages(|q|) + 1 - page
  {
    var last := TotalPages(|q|);
    if page <= last {
      var skip := (page - 1) * PageSize;
      assert skip < |q|;
      PagesFromSuffix(q, page + 1);
      assert Window(q, skip) == q[skip .. Min(skip + PageSize, |q|)];
      assert q[skip..] == q[skip .. Min(skip + PageSize, |q|)] + q[Min(skip + PageSize, |q|)..];
    }
  }

  /**
   * Cutting pages 1 to `TotalPages` from one listing and reading them one
   * after the other yields that listing: every selected request is on
   * exactly one of the pages of one listing. Separate GETs may each use a
   * different listing when creation times tie (see `TiedListingsDiffer`).
   */
  lemma PagesCoverListing(q: seq<Document>)
    ensures PagesFrom(q, 1, TotalPages(|q|)) == q
  {
    PagesFromSuffix(q, 1);
  }

  /** Each selected document is on some page, counted by the pagination, of a given listing. */
  lemma SelectedIsOnSomePage(q: seq<Document>, m: set<Document>, d: Document)
    requires IsListing(q, m) && d in m
    ensures exists page :: 1 <= page <= TotalPages(|m|) && d in Page(q, page)
  {
    assert d in multiset(q);
    var i :| 0 <= i < |q| && q[i] == d;
    var page := i / PageSize + 1;
    var skip := (page - 1) * PageSize;
    assert |q| == |m| by {
      assert |multiset(q)| == |multiset(m)|;
    }
    assert skip <= i < skip + PageSize;
    assert Window(q, skip)[i - skip] == d;
    assert d in Page(q, page);
  }

  /**
   * PUT's checks accept a pair of strings exactly when the record it would
   * save satisfies the schema, so the save never fails validation.
   */
  lemma RouteChecksMatchSchema(name: string, item: string, now: Timestamp)
    ensures AcceptedRequestorName(JString(name)) && AcceptedItemRequested(JString(item))
        <==> ValidRecord(NewRequest(name, item, now))
  {
  }

  /**
   * A request PUT has just created is selected by a GET without a filter
   * and by a GET filtering on pending, so it is on one of the pages of any
   * one listing of their selection.
   */
  lemma CreatedRequestIsListed(before: map<string, Record>, d: Document, q: seq<Document>, filter: Option<Status>)
    requires d.record.status == Pending
    requires filter == None || filter == Some(Pending)
    requires IsListing(q, MatchingDocs(before[d.id := d.record], filter))
    ensures exists page :: 1 <= page <= TotalPages(|q|) && d in Page(q, page)
  {
    var m := MatchingDocs(before[d.id := d.record], filter);
    assert d in m;
    SelectedIsOnSomePage(q, m, d);
    assert |q| == |m| by {
      assert |multiset(q)| == |multiset(m)|;
    }
  }

  /** No two documents of `m` were created at the same instant. */
  ghost predicate DistinctDates(m: set<Document>) {
    forall d, e :: d in m && e in m && d != e ==> d.record.createdDate != e.record.createdDate
  }

  /**
   * When no two selected documents share a creation time, the selection
   * has exactly one listing, so every GET pages through the same order.
   */
  lemma ListingUnique(q1: seq<Document>, q2: seq<Document>, m: set<Document>)
    requires IsListing(q1, m) && IsListing(q2, m) && DistinctDates(m)
    ensures q1 == q2
  {
    assert DistinctDatesIn(q1) by {
      forall i, j | 0 <= i < |q1| && 0 <= j < |q1| && q1[i] != q1[j]
        ensures q1[i].record.createdDate != q1[j].record.createdDate
      {
        assert q1[i] in multiset(q1) && q1[j] in multiset(q1);
      }
    }
    NewestFirstUnique(q1, q2);
  }

  /** No two distinct elements of `q` were created at the same instant. */
  ghost predicate DistinctDatesIn(q: seq<Document>) {
    forall i, j :: 0 <= i < |q| && 0 <= j < |q| && q[i] != q[j] ==> q[i].record.createdDate != q[j].record.createdDate
  }

  lemma {:induction false} NewestFirstUnique(q1: seq<Document>, q2: seq<Document>)
    requires NewestFirst(q1) && NewestFirst(q2) && multiset(q1) == multiset(q2)
    requires DistinctDatesIn(q1)
    ensures q1 == q2
    decreases |q1|
  {
    if q1 != [] {
      SameHead(q1, q2);
      SameTail(q1, q2);
      assert DistinctDatesIn(q1[1..]) by {
        forall i, j | 0 <= i < |q1[1..]| && 0 <= j < |q1[1..]| && q1[1..][i] != q1[1..][j]
          ensures q1[1..][i].record.createdDate != q1[1..][j].record.createdDate
        {
          assert q1[1..][i] == q1[i + 1] && q1[1..][j] == q1[j + 1];
        }
      }
      NewestFirstUnique(q1[1..], q2[1..]);
      assert q1 == [q1[0]] + q1[1..] && q2 == [q2[0]] + q2[1..];
    }
  }

  /** Two newest-first arrangements of the same documents with distinct dates start alike. */
  lemma SameHead(q1: seq<Document>, q2: seq<Document>)
    requires NewestFirst(q1) && NewestFirst(q2) && multiset(q1) == multiset(q2)
    requires DistinctDatesIn(q1) && q1 != []
    ensures q2 != [] && q1[0] == q2[0]
  {
    assert q1[0] in multiset(q2);
    var i :| 0 <= i < |q2| && q2[i] == q1[0];
    assert q2[0] in multiset(q1);
    var j :| 0 <= j < |q1| && q1[j] == q2[0];
    assert q2[0].record.createdDate >= q1[0].record.createdDate by {
      assert i == 0 || q2[0].record.createdDate >= q2[i].record.createdDate;
    }
    assert q1[0].record.createdDate >= q1[j].record.createdDate by {
      assert j == 0 || q1[0].record.createdDate >= q1[j].record.createdDate;
    }
  }

  /** Removing one equal head from equal multisets leaves equal multisets. */
  lemma SameTail(q1: seq<Document>, q2: seq<Document>)
    requires q1 != [] && q2 != [] && q1[0] == q2[0] && multiset(q1) == multiset(q2)
    ensures multiset(q1[1..]) == multiset(q2[1..])
  {
    assert q1 == [q1[0]] + q1[1..] && q2 == [q2[0]] + q2[1..];
    assert multiset(q1) == multiset{q1[0]} + multiset(q1[1..]);
    assert multiset(q2) == multiset{q1[0]} + multiset(q2[1..]);
    forall x
      ensures multiset(q1[1..])[x] == multiset(q2[1..])[x]
    {
      assert multiset(q1)[x] == multiset{q1[0]}[x] + multiset(q1[1..])[x];
      assert multiset(q2)[x] == multiset{q1[0]}[x] + multiset(q2[1..])[x];
    }
  }

  /**
   * Two documents created at the same instant can be listed in either
   * order, and each order is a listing a GET may serve: paging through
   * separate GETs can show such a document twice or not at all.
   */
  lemma TiedListingsDiffer(a: Document, b: Document)
    requires a != b && a.record.createdDate == b.record.createdDate
    ensures IsListing([a, b], {a, b}) && IsListing([b, a], {a, b})
    ensures Page([a, b], 1) != Page([b, a], 1)
  {
    assert multiset{a, b} == multiset{b, a};
    assert Page([a, b], 1)[0] == a;
  }
}
