/**
 * The list script: its own copy of `get_cosmos_headers`, the pagination
 * loop of `get_cosmos_documents`, and the selection `main` prints.
 *
 * The server is a finite sequence of transport replies: the i-th GET the
 * loop issues receives `replies[i]`.
 */
module ListDocuments {
  import opened Outcomes
  import opened Json
  import opened Errors
  import opened Http
  import opened CosmosHeaders
  import Authorization
  import CosmosUrl
  import FormEncoding

  /**
   * `get_cosmos_headers` as this script writes it: the routing header, when
   * asked for, is the key between bare brackets.
   */
  function GetHeaders(authorization: string, partitionKey: string, version: string, createDocument: bool, date: string): (h: Headers)
    ensures h.Keys == {AuthorizationHeader, VersionHeader, DateHeader, ContinuationHeader}
      + (if createDocument then {PartitionKeyHeader} else {})
    ensures h - {PartitionKeyHeader} == BaseHeaders(authorization, version, date)
    ensures createDocument ==> h[PartitionKeyHeader] == Some("[" + partitionKey + "]")
  {
    var headers := BaseHeaders(authorization, version, date);
    if createDocument then headers[PartitionKeyHeader := Some("[" + partitionKey + "]")] else headers
  }

  /** Two builds that differ only in the clock reading differ only in `x-ms-date`. */
  lemma HeadersDifferOnlyInDate(authorization: string, partitionKey: string, version: string, createDocument: bool, date1: string, date2: string)
    ensures GetHeaders(authorization, partitionKey, version, createDocument, date2)
         == GetHeaders(authorization, partitionKey, version, createDocument, date1)[DateHeader := Some(date2)]
  {
  }

  /** `response.headers.get("x-ms-continuation")`. */
  function Continuation(response: Response): (r: Option<string>)
    ensures r.Some? <==> ContinuationHeader in response.headers
    ensures r.Some? ==> r.value == response.headers[ContinuationHeader]
  {
    if ContinuationHeader in response.headers then Some(response.headers[ContinuationHeader]) else None
  }

  /** `response.json()["Documents"]`, when it is a list. */
  function PageDocuments(body: Json): (r: Result<seq<Json>, Error>)
    ensures r.Success? <==> body.Object? && "Documents" in body.fields && body.fields["Documents"].Array?
    ensures r.Success? ==> r.value == body.fields["Documents"].items
    ensures r.Failure? ==> r.error == MalformedPage
  {
    match Member(body, "Documents")
    case Some(Array(items)) => Success(items)
    case _ => Failure(MalformedPage)
  }

  /** What one pass of the loop makes of a reply. */
  datatype Page = Failed(error: Error) | Last(documents: seq<Json>) | More(documents: seq<Json>, token: string)

  function ReadPage(received: Result<Response, Error>): Page
  {
    match received
    case Failure(e) => Failed(e)
    case Success(response) =>
      match PageDocuments(response.body)
      case Failure(e) => Failed(e)
      case Success(documents) =>
        match Continuation(response)
        case None => Last(documents)
        case Some(token) => More(documents, token)
  }

  function PageOf(reply: Transport): Page
  {
    ReadPage(Receive(reply))
  }

  /**
   * The replies end the loop: some reply does not carry a further page.
   * Against a server that answers every request with a continuation the
   * loop never returns.
   */
  predicate Settles(replies: seq<Transport>)
    decreases |replies|
  {
    |replies| > 0 && (!PageOf(replies[0]).More? || Settles(replies[1..]))
  }

  /** The position of the reply that ends the loop. */
  function StopIndex(replies: seq<Transport>): (k: nat)
    requires Settles(replies)
    ensures k < |replies| && !PageOf(replies[k]).More?
    ensures forall j :: 0 <= j < k ==> PageOf(replies[j]).More?
    decreases |replies|
  {
    if !PageOf(replies[0]).More? then 0
    else
      var k := StopIndex(replies[1..]);
      assert forall j :: 1 <= j <= k ==> replies[1..][j - 1] == replies[j];
      k + 1
  }

  /** What the listing did: its outcome, the GETs it issued, and the header dict it leaves behind. */
  datatype Listing = Listing(result: Result<seq<Json>, Error>, sent: seq<Request>, headers: Headers)

  /** A page's documents and request, followed by the rest of the listing. */
  function Prepend(documents: seq<Json>, request: Request, rest: Listing): Listing
  {
    Listing(
      if rest.result.Success? then Success(documents + rest.result.value) else rest.result,
      [request] + rest.sent,
      rest.headers)
  }

  /**
   * `get_cosmos_documents` on the document-feed URL `url`, starting from
   * `headers`: one GET per pass, the page's documents appended, the
   * response's continuation copied into the request headers, until a
   * response carries none.  Any failure discards the documents gathered.
   */
  function Paginate(url: string, headers: Headers, replies: seq<Transport>): (l: Listing)
    requires Settles(replies)
    ensures 1 <= |l.sent| <= |replies|
    ensures forall i :: 0 <= i < |l.sent| ==> l.sent[i].verb == Get && l.sent[i].url == url && l.sent[i].data == None
    ensures l.sent[0].headers == headers
    ensures l.result.Success? ==> l.headers == headers[ContinuationHeader := None]
    decreases |replies|
  {
    DispatchGet();
    var call := Invoke(url, "GET", Some(headers), Null, replies[0]);
    var request := call.sent.value;
    match ReadPage(call.result)
    case Failed(e) => Listing(Failure(e), [request], headers)
    case Last(documents) => Listing(Success(documents), [request], headers[ContinuationHeader := None])
    case More(documents, token) =>
      var next := headers[ContinuationHeader := Some(token)];
      var rest := Paginate(url, next, replies[1..]);
      Prepend(documents, request, rest)
  }

  /** One pass of the loop, read off the first reply. */
  lemma PaginateUnfold(url: string, headers: Headers, replies: seq<Transport>)
    requires Settles(replies)
    ensures var first, page := Request(Get, url, headers, None), PageOf(replies[0]);
      && (page.Failed? ==> Paginate(url, headers, replies) == Listing(Failure(page.error), [first], headers))
      && (page.Last? ==>
            Paginate(url, headers, replies) == Listing(Success(page.documents), [first], headers[ContinuationHeader := None]))
      && (page.More? ==>
            && Settles(replies[1..])
            && Paginate(url, headers, replies) ==
               Prepend(page.documents, first, Paginate(url, headers[ContinuationHeader := Some(page.token)], replies[1..])))
  {
    DispatchGet();
    assert Invoke(url, "GET", Some(headers), Null, replies[0]).result == Receive(replies[0]);
  }

  /** The documents of the first pages of a run of replies that all carry pages. */
  function Gathered(replies: seq<Transport>): seq<Json>
    requires forall j :: 0 <= j < |replies| ==> !PageOf(replies[j]).Failed?
  {
    if replies == [] then [] else PageOf(replies[0]).documents + Gathered(replies[1..])
  }

  /**
   * With k the position of the first reply that does not carry a further
   * page: the loop issues exactly k + 1 GETs; request i + 1 carries the
   * token of reply i; it returns the documents of replies 0..k in order
   * when reply k is a last page, and otherwise fails with reply k's error.
   */
  lemma {:induction false} PaginateStops(url: string, headers: Headers, replies: seq<Transport>)
    requires Settles(replies)
    ensures var k, l := StopIndex(replies), Paginate(url, headers, replies);
      && |l.sent| == k + 1
      && (forall i :: 0 < i <= k ==> l.sent[i].headers == headers[ContinuationHeader := Some(PageOf(replies[i - 1]).token)])
      && (l.result.Success? <==> PageOf(replies[k]).Last?)
      && (PageOf(replies[k]).Failed? ==> l.result == Failure(PageOf(replies[k]).error))
      && (l.result.Success? ==> l.result.value == Gathered(replies[..k + 1]))
    decreases |replies|
  {
    var k, l := StopIndex(replies), Paginate(url, headers, replies);
    DispatchGet();
    assert Invoke(url, "GET", Some(headers), Null, replies[0]).result == Receive(replies[0]);
    if k == 0 {
      if PageOf(replies[0]).Last? {
        assert replies[..1] == [replies[0]];
        assert Gathered(replies[..1]) == PageOf(replies[0]).documents + Gathered([]);
      }
    } else {
      var page := PageOf(replies[0]);
      var next := headers[ContinuationHeader := Some(page.token)];
      var tail := replies[1..];
      var rest := Paginate(url, next, tail);
      PaginateStops(url, next, tail);
      assert StopIndex(tail) == k - 1;
      assert l == Prepend(page.documents, Request(Get, url, headers, None), rest);
      forall i | 0 < i <= k
        ensures l.sent[i].headers == headers[ContinuationHeader := Some(PageOf(replies[i - 1]).token)]
      {
        if i > 1 {
          assert tail[i - 2] == replies[i - 1];
          assert next[ContinuationHeader := Some(PageOf(replies[i - 1]).token)]
            == headers[ContinuationHeader := Some(PageOf(replies[i - 1]).token)];
        }
      }
      assert tail[k - 1] == replies[k];
      if l.result.Success? {
        assert replies[..k + 1][1..] == tail[..k];
        assert replies[..k + 1][0] == replies[0];
      }
    }
  }

  /** The reply the transport makes when it delivers each response in turn. */
  function Deliver(pages: seq<Response>): (replies: seq<Transport>)
    ensures |replies| == |pages|
    ensures forall i :: 0 <= i < |pages| ==> replies[i] == Delivered(pages[i])
  {
    seq(|pages|, i requires 0 <= i < |pages| => Delivered(pages[i]))
  }

  /** A response the loop accepts: a passing status and a `Documents` list. */
  predicate Accepted(page: Response) {
    !ErrorStatus(page.status) && PageDocuments(page.body).Success?
  }

  function AllDocuments(pages: seq<Response>): seq<Json>
    requires forall i :: 0 <= i < |pages| ==> Accepted(pages[i])
  {
    if pages == [] then []
    else
      assert Accepted(pages[0]);
      PageDocuments(pages[0].body).value + AllDocuments(pages[1..])
  }

  /** The conditions on pages p0..pk: all accepted, all but the last carry a continuation token. */
  predicate ChainedPages(pages: seq<Response>) {
    && |pages| > 0
    && (forall i :: 0 <= i < |pages| ==> Accepted(pages[i]))
    && (forall i :: 0 <= i < |pages| - 1 ==> Continuation(pages[i]).Some?)
    && Continuation(pages[|pages| - 1]).None?
  }

  lemma ChainedPagesTail(pages: seq<Response>)
    requires ChainedPages(pages) && |pages| > 1
    ensures ChainedPages(pages[1..])
  {
    assert forall i :: 0 <= i < |pages| - 1 ==> pages[1..][i] == pages[i + 1];
  }

  /**
   * Pages p0..pk where p0..p(k-1) carry a continuation token and pk does
   * not: the loop issues exactly k + 1 GETs, returns p0's documents, then
   * p1's, ..., then pk's, and leaves the continuation slot `None`.  Replies
   * after pk are never requested.
   */
  lemma {:induction false} PaginatePages(url: string, headers: Headers, pages: seq<Response>, later: seq<Transport>)
    requires ChainedPages(pages)
    ensures Settles(Deliver(pages) + later)
    ensures var l := Paginate(url, headers, Deliver(pages) + later);
      && l.result == Success(AllDocuments(pages))
      && |l.sent| == |pages|
      && l.headers == headers[ContinuationHeader := None]
    decreases |pages|
  {
    var replies := Deliver(pages) + later;
    assert replies[0] == Delivered(pages[0]);
    assert Accepted(pages[0]);
    var documents := PageDocuments(pages[0].body).value;
    if |pages| == 1 {
      assert PageOf(replies[0]) == Last(documents);
      PaginateUnfold(url, headers, replies);
      assert pages[1..] == [];
      assert AllDocuments(pages) == documents;
    } else {
      var token := Continuation(pages[0]).value;
      assert PageOf(replies[0]) == More(documents, token);
      assert replies[1..] == Deliver(pages[1..]) + later;
      ChainedPagesTail(pages);
      PaginatePages(url, headers[ContinuationHeader := Some(token)], pages[1..], later);
      PaginateUnfold(url, headers, replies);
      assert AllDocuments(pages) == documents + AllDocuments(pages[1..]);
    }
  }

  /**
   * Over the same pages, every request goes to the feed URL as a GET
   * without a body; the first carries the headers the loop was given, and
   * request i + 1 carries them with p_i's continuation token.
   */
  lemma {:induction false} PaginatePagesRequests(url: string, headers: Headers, pages: seq<Response>, later: seq<Transport>)
    requires ChainedPages(pages)
    ensures Settles(Deliver(pages) + later)
    ensures var l := Paginate(url, headers, Deliver(pages) + later);
      && |l.sent| == |pages|
      && l.sent[0] == Request(Get, url, headers, None)
      && (forall i :: 0 < i < |pages| ==>
            l.sent[i] == Request(Get, url, headers[ContinuationHeader := Continuation(pages[i - 1])], None))
    decreases |pages|
  {
    PaginatePages(url, headers, pages, later);
    var replies := Deliver(pages) + later;
    assert replies[0] == Delivered(pages[0]);
    assert Accepted(pages[0]);
    var documents := PageDocuments(pages[0].body).value;
    if |pages| > 1 {
      var token := Continuation(pages[0]).value;
      var next := headers[ContinuationHeader := Some(token)];
      assert PageOf(replies[0]) == More(documents, token);
      assert replies[1..] == Deliver(pages[1..]) + later;
      PaginateUnfold(url, headers, replies);
      var l, rest := Paginate(url, headers, replies), Paginate(url, next, replies[1..]);
      assert l.sent[1..] == rest.sent;
      ChainedPagesTail(pages);
      PaginatePagesRequests(url, next, pages[1..], later);
      ShiftedRequests(url, headers, token, pages, l.sent, rest.sent);
    }
  }

  /**
   * The requests after the first, read against the pages they follow:
   * request i + 1 of the rest is request i + 2 of the whole run.
   */
  lemma ShiftedRequests(url: string, headers: Headers, token: string, pages: seq<Response>, sent: seq<Request>, rest: seq<Request>)
    requires |pages| > 1 && Continuation(pages[0]) == Some(token)
    requires |sent| == |pages| && sent[1..] == rest
    requires var next := headers[ContinuationHeader := Some(token)];
      && rest[0] == Request(Get, url, next, None)
      && forall i :: 0 < i < |pages| - 1 ==>
           rest[i] == Request(Get, url, next[ContinuationHeader := Continuation(pages[1..][i - 1])], None)
    ensures forall i :: 0 < i < |pages| ==>
      sent[i] == Request(Get, url, headers[ContinuationHeader := Continuation(pages[i - 1])], None)
  {
    var next := headers[ContinuationHeader := Some(token)];
    forall i | 0 < i < |pages|
      ensures sent[i] == Request(Get, url, headers[ContinuationHeader := Continuation(pages[i - 1])], None)
    {
      assert sent[i] == rest[i - 1];
      if i > 1 {
        assert pages[1..][i - 2] == pages[i - 1];
        assert next[ContinuationHeader := Continuation(pages[i - 1])]
          == headers[ContinuationHeader := Continuation(pages[i - 1])];
      }
    }
  }

  /** The listing accumulated so far, followed by the listing still to come. */
  function Glue(gathered: seq<Json>, sent: seq<Request>, rest: Listing): Listing
  {
    Listing(
      if rest.result.Success? then Success(gathered + rest.result.value) else rest.result,
      sent + rest.sent,
      rest.headers)
  }

  lemma GluePrepend(gathered: seq<Json>, sent: seq<Request>, documents: seq<Json>, request: Request, rest: Listing)
    ensures Glue(gathered, sent, Prepend(documents, request, rest)) == Glue(gathered + documents, sent + [request], rest)
  {
    if rest.result.Success? {
      assert gathered + (documents + rest.result.value) == (gathered + documents) + rest.result.value;
    }
    assert sent + ([request] + rest.sent) == (sent + [request]) + rest.sent;
  }

  /**
   * `get_cosmos_documents` as the source writes it: a `while` loop that
   * mutates the header dict in place.  It computes exactly `Paginate` on
   * the collection's feed URL.
   */
  method GetDocuments(headers: Headers, account: string, database: string, collection: string, replies: seq<Transport>)
    returns (result: Result<seq<Json>, Error>, sent: seq<Request>, finalHeaders: Headers)
    requires Settles(replies)
    ensures Listing(result, sent, finalHeaders) == Paginate(CosmosUrl.DocsUrl(account, database, collection), headers, replies)
  {
    var url := CosmosUrl.DocsUrl(account, database, collection);
    var allDocuments: seq<Json> := [];
    var current := headers;
    sent := [];
    var i := 0;
    var exe := true;
    assert replies[0..] == replies;
    ghost var whole := Paginate(url, headers, replies);
    assert whole.result.Success? ==> [] + whole.result.value == whole.result.value;
    assert [] + whole.sent == whole.sent;
    while exe
      invariant 0 <= i <= |replies|
      invariant exe ==> (i < |replies| && Settles(replies[i..])
        && Paginate(url, headers, replies) == Glue(allDocuments, sent, Paginate(url, current, replies[i..])))
      invariant !exe ==> Paginate(url, headers, replies) == Listing(Success(allDocuments), sent, current)
      decreases |replies| - i + (if exe then 1 else 0)
    {
      DispatchGet();
      var call := Invoke(url, "GET", Some(current), Null, replies[i]);
      var request := call.sent.value;
      if call.result.Failure? {
        return Failure(call.result.error), sent + [request], current;
      }
      var response := call.result.value;
      var page := PageDocuments(response.body);
      if page.Failure? {
        return Failure(page.error), sent + [request], current;
      }
      var token := Continuation(response);
      if token.Some? {
        assert replies[i..][1..] == replies[i + 1..];
        GluePrepend(allDocuments, sent, page.value, request, Paginate(url, current[ContinuationHeader := token], replies[i + 1..]));
      }
      allDocuments := allDocuments + page.value;
      sent := sent + [request];
      current := current[ContinuationHeader := token];
      if token.None? {
        exe := false;
      }
      i := i + 1;
    }
    result := Success(allDocuments);
    finalHeaders := current;
  }

  /** A Python slice bound, resolved against a length as CPython does for step 1. */
  function SliceBound(i: int, length: nat): (r: nat)
    ensures r <= length
    ensures 0 <= i <= length ==> r == i
    ensures i < 0 && i + length >= 0 ==> r == i + length
    ensures i + length < 0 ==> r == 0
    ensures i > length ==> r == length
  {
    if i < 0 then (if i + length < 0 then 0 else i + length)
    else if i > length then length
    else i
  }

  /** `s[start:stop]` in Python. */
  function PySlice<T>(s: seq<T>, start: int, stop: int): (r: seq<T>)
    ensures var lo, hi := SliceBound(start, |s|), SliceBound(stop, |s|);
      |r| == (if lo < hi then hi - lo else 0)
      && forall k :: 0 <= k < |r| ==> r[k] == s[lo + k]
  {
    var lo, hi := SliceBound(start, |s|), SliceBound(stop, |s|);
    if lo < hi then s[lo..hi] else []
  }

  /**
   * `all_documents[-RECORDS_NUMBER:-1]`, what `main` prints.  The stop
   * bound -1 excludes the last document fetched, whatever the count.
   */
  function Selection(documents: seq<Json>, recordsNumber: int): (r: seq<Json>)
    ensures documents == [] ==> r == []
    ensures 1 <= recordsNumber <= |documents| ==>
      r == documents[|documents| - recordsNumber .. |documents| - 1]
    ensures documents != [] && (recordsNumber == 0 || recordsNumber > |documents|) ==>
      r == documents[..|documents| - 1]
    ensures recordsNumber < 0 ==>
      r == (if -recordsNumber < |documents| - 1 then documents[-recordsNumber .. |documents| - 1] else [])
  {
    PySlice(documents, -recordsNumber, -1)
  }

  /**
   * The selection is always the run of documents that ends just before the
   * last one: the last document fetched is never printed.
   */
  lemma SelectionOmitsLast(documents: seq<Json>, recordsNumber: int)
    requires documents != []
    ensures var r := Selection(documents, recordsNumber);
      |r| < |documents| && r == documents[|documents| - 1 - |r| .. |documents| - 1]
  {
  }

  /** The last `count` documents, the evidently intended `all_documents[-RECORDS_NUMBER:]` for a positive count. */
  function LastRecords(documents: seq<Json>, count: nat): (r: seq<Json>)
    ensures |r| == if count <= |documents| then count else |documents|
    ensures r == documents[|documents| - |r|..]
  {
    if count <= |documents| then documents[|documents| - count..] else documents
  }

  /**
   * For every count from 1 to the number of documents, the printed
   * selection is the intended last `count` documents with the final one
   * cut off.
   */
  lemma SelectionIsLastRecordsButOne(documents: seq<Json>, recordsNumber: int)
    requires 1 <= recordsNumber <= |documents|
    ensures Selection(documents, recordsNumber) + [documents[|documents| - 1]] == LastRecords(documents, recordsNumber)
    ensures |Selection(documents, recordsNumber)| == recordsNumber - 1
  {
    var n := |documents|;
    assert documents[n - recordsNumber .. n - 1] + [documents[n - 1]] == documents[n - recordsNumber ..];
  }

  /** Three documents, `RECORDS_NUMBER` 3: two are printed, and `RECORDS_NUMBER` 0 prints all but the last. */
  lemma SelectionCounterexample()
    ensures Selection([Str("a"), Str("b"), Str("c")], 3) == [Str("a"), Str("b")]
    ensures LastRecords([Str("a"), Str("b"), Str("c")], 3) == [Str("a"), Str("b"), Str("c")]
    ensures Selection([Str("a"), Str("b"), Str("c")], 0) == [Str("a"), Str("b")]
  {
  }

  /**
   * Every request of a listing carries the headers the loop was given,
   * except for the continuation slot.
   */
  lemma PaginateKeepsHeaders(url: string, headers: Headers, replies: seq<Transport>)
    requires Settles(replies)
    ensures var l := Paginate(url, headers, replies);
      forall i, name :: 0 <= i < |l.sent| && name != ContinuationHeader ==>
        (name in l.sent[i].headers <==> name in headers) &&
        (name in headers ==> l.sent[i].headers[name] == headers[name])
  {
    PaginateStops(url, headers, replies);
  }

  /** What `main` does: its outcome and the requests it issued. */
  datatype Run = Run(result: Result<seq<Json>, Error>, sent: seq<Request>)

  /** The headers `main` starts the listing with, once the token is in hand. */
  function MainHeaders(account: string, tokenFor: string -> Option<string>, date: string): Headers
    requires tokenFor(Authorization.Scope(account)).Some?
  {
    var authorization := Authorization.GetAuthorization(account, Authorization.DefaultTokenVersion, tokenFor).value;
    GetHeaders(authorization, "", DefaultApiVersion, false, date)
  }

  /** The authorization, version and routing headers every listing request carries. */
  predicate ListRequestHeaders(h: Headers, token: string) {
    && AuthorizationHeader in h
    && h[AuthorizationHeader].Some?
    && FormEncoding.UnquotePlus(h[AuthorizationHeader].value) == Some("type=aad&ver=1.0&sig=" + token)
    && VersionHeader in h
    && h[VersionHeader] == Some(DefaultApiVersion)
    && PartitionKeyHeader !in h
  }

  lemma MainHeadersCarry(account: string, tokenFor: string -> Option<string>, date: string)
    requires tokenFor(Authorization.Scope(account)).Some?
    ensures ListRequestHeaders(MainHeaders(account, tokenFor, date), tokenFor(Authorization.Scope(account)).value)
  {
    var token := tokenFor(Authorization.Scope(account)).value;
    assert "type=aad&ver=" + "1.0" + "&sig=" + token == "type=aad&ver=1.0&sig=" + token;
  }

  /** The listing's requests all keep the headers' authorization, version and routing. */
  lemma PaginateCarries(url: string, headers: Headers, replies: seq<Transport>, token: string)
    requires Settles(replies)
    requires ListRequestHeaders(headers, token)
    ensures forall i :: 0 <= i < |Paginate(url, headers, replies).sent| ==>
      ListRequestHeaders(Paginate(url, headers, replies).sent[i].headers, token)
  {
    var l := Paginate(url, headers, replies);
    PaginateKeepsHeaders(url, headers, replies);
    forall i | 0 <= i < |l.sent|
      ensures ListRequestHeaders(l.sent[i].headers, token)
    {
      var h := l.sent[i].headers;
      assert AuthorizationHeader in h && h[AuthorizationHeader] == headers[AuthorizationHeader];
      assert VersionHeader in h && h[VersionHeader] == headers[VersionHeader];
      assert PartitionKeyHeader !in h;
    }
  }

  /**
   * `main` of the list script: authorization with token version "1.0",
   * list headers without routing, the pagination loop on the configured
   * collection, then the selection.  `tokenFor` is the identity provider,
   * `date` the formatted clock reading, `recordsNumber` the parsed
   * RECORDS_NUMBER.
   */
  function ListMain(account: string, database: string, collection: string, tokenFor: string -> Option<string>,
                    date: string, replies: seq<Transport>, recordsNumber: int): (r: Run)
    requires tokenFor(Authorization.Scope(account)).Some? ==> Settles(replies)
    ensures tokenFor(Authorization.Scope(account)).None? ==> r == Run(Failure(AuthenticationError), [])
    ensures tokenFor(Authorization.Scope(account)).Some? ==> 1 <= |r.sent| <= |replies|
    ensures forall i :: 0 <= i < |r.sent| ==>
      && r.sent[i].verb == Get
      && r.sent[i].url == CosmosUrl.DocsUrl(account, database, collection)
      && ListRequestHeaders(r.sent[i].headers, tokenFor(Authorization.Scope(account)).value)
    ensures r.result.Success? ==>
      var l := Paginate(CosmosUrl.DocsUrl(account, database, collection), MainHeaders(account, tokenFor, date), replies);
      l.result.Success? && r.result.value == Selection(l.result.value, recordsNumber)
    ensures tokenFor(Authorization.Scope(account)).Some? ==>
      var l := Paginate(CosmosUrl.DocsUrl(account, database, collection), MainHeaders(account, tokenFor, date), replies);
      && r.sent == l.sent
      && (l.result.Success? ==> r.result == Success(Selection(l.result.value, recordsNumber)))
      && (l.result.Failure? ==> r.result == l.result)
  {
    match Authorization.GetAuthorization(account, Authorization.DefaultTokenVersion, tokenFor)
    case Failure(e) => Run(Failure(e), [])
    case Success(authorization) =>
      var headers := MainHeaders(account, tokenFor, date);
      var url := CosmosUrl.DocsUrl(account, database, collection);
      var listing := Paginate(url, headers, replies);
      MainHeadersCarry(account, tokenFor, date);
      PaginateCarries(url, headers, replies, tokenFor(Authorization.Scope(account)).value);
      match listing.result
      case Failure(e) => Run(Failure(e), listing.sent)
      case Success(documents) => Run(Success(Selection(documents, recordsNumber)), listing.sent)
  }
}
