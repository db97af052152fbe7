/**
 * The create script: its own copy of `get_cosmos_headers` (with a quoted
 * routing value), `create_cosmos_document`, and the wiring in `main` that
 * takes the partition key from the body it posts.
 */
module CreateDocument {
  import opened Outcomes
  import opened Json
  import opened Errors
  import opened Http
  import opened CosmosHeaders
  import Authorization
  import CosmosUrl
  import FormEncoding
  import ListDocuments
  import CaseMapping

  /** The routing value: the key as the only string of a JSON array. */
  function QuotedRouting(partitionKey: string): (r: string)
    ensures |r| == |partitionKey| + 4
    ensures r[..2] == "[\"" && r[|r| - 2..] == "\"]"
    ensures r[2..|r| - 2] == partitionKey
  {
    "[\"" + partitionKey + "\"]"
  }

  /**
   * `get_cosmos_headers` as this script writes it: the routing header, when
   * asked for, is the key in double quotes between brackets.
   */
  function GetHeaders(authorization: string, partitionKey: string, version: string, createDocument: bool, date: string): (h: Headers)
    ensures h.Keys == {AuthorizationHeader, VersionHeader, DateHeader, ContinuationHeader}
      + (if createDocument then {PartitionKeyHeader} else {})
    ensures h - {PartitionKeyHeader} == BaseHeaders(authorization, version, date)
    ensures createDocument ==> h[PartitionKeyHeader] == Some(QuotedRouting(partitionKey))
  {
    var headers := BaseHeaders(authorization, version, date);
    if createDocument then headers[PartitionKeyHeader := Some(QuotedRouting(partitionKey))] else headers
  }

  /**
   * The list script's routing value equals this script's value for key `q`
   * only if the list script was handed `q` already wrapped in double quotes:
   * for the same key the two copies never agree.
   */
  lemma RoutingDiscrepancy(authorization: string, version: string, date: string, partitionKey: string, q: string)
    ensures ListDocuments.GetHeaders(authorization, partitionKey, version, true, date)[PartitionKeyHeader]
         == GetHeaders(authorization, q, version, true, date)[PartitionKeyHeader]
       <==> partitionKey == "\"" + q + "\""
  {
    var unquoted, quoted := "[" + partitionKey + "]", "[\"" + q + "\"]";
    if unquoted == quoted {
      assert partitionKey == unquoted[1..|unquoted| - 1];
      assert quoted[1..|quoted| - 1] == "\"" + q + "\"";
    }
    if partitionKey == "\"" + q + "\"" {
      assert unquoted == quoted;
    }
  }

  /** The key "p1": the list copy writes `[p1]`, this copy `["p1"]`. */
  lemma RoutingExample()
    ensures ListDocuments.GetHeaders("a", "p1", DefaultApiVersion, true, "d")[PartitionKeyHeader] == Some("[p1]")
    ensures GetHeaders("a", "p1", DefaultApiVersion, true, "d")[PartitionKeyHeader] == Some("[\"p1\"]")
  {
    assert "[" + "p1" + "]" == "[p1]";
    assert "[\"" + "p1" + "\"]" == "[\"p1\"]";
  }

  /** Two builds that differ only in the clock reading differ only in `x-ms-date`. */
  lemma HeadersDifferOnlyInDate(authorization: string, partitionKey: string, version: string, createDocument: bool, date1: string, date2: string)
    ensures GetHeaders(authorization, partitionKey, version, createDocument, date2)
         == GetHeaders(authorization, partitionKey, version, createDocument, date1)[DateHeader := Some(date2)]
  {
  }

  /** What creating did: the parsed created document, and the request issued, if any. */
  datatype Creation = Creation(result: Result<Json, Error>, sent: Option<Request>)

  /**
   * `create_cosmos_document`: exactly one POST of `body` to the collection's
   * feed URL, returning `response.json()`.
   */
  function Create(headers: Headers, account: string, database: string, collection: string, body: Json, reply: Transport): (c: Creation)
    ensures c.sent == Some(Request(Post, CosmosUrl.DocsUrl(account, database, collection), headers,
                                   if body.Null? then None else Some(body)))
    ensures c.result.Success? <==> reply.Delivered? && !ErrorStatus(reply.response.status)
    ensures c.result.Success? ==> c.result.value == reply.response.body
    ensures reply.Delivered? && ErrorStatus(reply.response.status) ==>
      c.result == Failure(HttpStatusError(reply.response.status, reply.response.body))
    ensures reply.Raised? ==> c.result == Failure(Classify(reply.failure))
  {
    assert CaseMapping.Upper("POST") == "POST";
    var call := Invoke(CosmosUrl.DocsUrl(account, database, collection), "POST", Some(headers), body, reply);
    match call.result
    case Failure(e) => Creation(Failure(e), call.sent)
    case Success(response) => Creation(Success(response.body), call.sent)
  }

  /** `create_body["partitionKey"]`; anything but an object with that member raises. */
  function PartitionKeyOf(body: Json): (r: Result<Json, Error>)
    ensures r.Success? <==> body.Object? && "partitionKey" in body.fields
    ensures r.Success? ==> r.value == body.fields["partitionKey"]
    ensures r.Failure? ==> r.error == MissingPartitionKey
  {
    match Member(body, "partitionKey")
    case None => Failure(MissingPartitionKey)
    case Some(value) => Success(value)
  }

  /** The text the f-string makes of the key; only strings are modelled. */
  function RoutingKey(value: Json): (r: Result<string, Error>)
    ensures r.Success? <==> value.Str?
    ensures r.Success? ==> r.value == value.s
    ensures r.Failure? ==> r.error == NonStringPartitionKey(value)
  {
    match value
    case Str(s) => Success(s)
    case _ => Failure(NonStringPartitionKey(value))
  }

  /** The request `main` posts once everything before it succeeded. */
  predicate CreateRequest(request: Request, url: string, body: Json, key: string, token: string) {
    && request.verb == Post
    && request.url == url
    && request.data == Some(body)
    && request.headers.Keys == {AuthorizationHeader, VersionHeader, DateHeader, ContinuationHeader, PartitionKeyHeader}
    && request.headers[PartitionKeyHeader] == Some(QuotedRouting(key))
    && request.headers[AuthorizationHeader].Some?
    && FormEncoding.UnquotePlus(request.headers[AuthorizationHeader].value) == Some("type=aad&ver=1.0&sig=" + token)
    && request.headers[VersionHeader] == Some(DefaultApiVersion)
    && request.headers[ContinuationHeader] == None
  }

  /**
   * `main` of the create script: the key is read from the body (line 163,
   * before any token is requested), the token is fetched, creation headers
   * are built with that key, and the same body is posted unchanged.
   */
  function CreateMain(body: Json, account: string, database: string, collection: string,
                      tokenFor: string -> Option<string>, date: string, reply: Transport): (c: Creation)
    ensures PartitionKeyOf(body).Failure? ==> c == Creation(Failure(MissingPartitionKey), None)
    ensures PartitionKeyOf(body).Success? && tokenFor(Authorization.Scope(account)).None? ==>
      c == Creation(Failure(AuthenticationError), None)
    ensures c.sent.Some? <==>
      body.Object? && "partitionKey" in body.fields && body.fields["partitionKey"].Str?
      && tokenFor(Authorization.Scope(account)).Some?
    ensures c.sent.Some? ==>
      c.sent.value.headers == GetHeaders(Authorization.GetAuthorization(account, Authorization.DefaultTokenVersion, tokenFor).value,
                                         body.fields["partitionKey"].s, DefaultApiVersion, true, date)
    ensures c.sent.Some? ==>
      CreateRequest(c.sent.value, CosmosUrl.DocsUrl(account, database, collection), body,
                    body.fields["partitionKey"].s, tokenFor(Authorization.Scope(account)).value)
    ensures PartitionKeyOf(body).Success? && tokenFor(Authorization.Scope(account)).Some? && !body.fields["partitionKey"].Str? ==>
      c == Creation(Failure(NonStringPartitionKey(body.fields["partitionKey"])), None)
    ensures c.result.Success? ==>
      c.sent.Some? && reply.Delivered? && !ErrorStatus(reply.response.status) && c.result.value == reply.response.body
    ensures c.sent.Some? ==>
      && (c.result.Success? <==> reply.Delivered? && !ErrorStatus(reply.response.status))
      && (reply.Delivered? && ErrorStatus(reply.response.status) ==>
            c.result == Failure(HttpStatusError(reply.response.status, reply.response.body)))
      && (reply.Raised? ==> c.result == Failure(Classify(reply.failure)))
  {
    match PartitionKeyOf(body)
    case Failure(e) => Creation(Failure(e), None)
    case Success(value) =>
      match Authorization.GetAuthorization(account, Authorization.DefaultTokenVersion, tokenFor)
      case Failure(e) => Creation(Failure(e), None)
      case Success(authorization) =>
        match RoutingKey(value)
        case Failure(e) => Creation(Failure(e), None)
        case Success(key) =>
          var headers := GetHeaders(authorization, key, DefaultApiVersion, true, date);
          var token := tokenFor(Authorization.Scope(account)).value;
          assert "type=aad&ver=" + "1.0" + "&sig=" + token == "type=aad&ver=1.0&sig=" + token;
          Create(headers, account, database, collection, body, reply)
  }

  /**
   * The body {"partitionKey": "p1", "field": "x"}: the routing header is
   * `["p1"]` and the whole object is posted.
   */
  lemma CreateExample(account: string, database: string, collection: string,
                      tokenFor: string -> Option<string>, date: string, reply: Transport)
    requires tokenFor(Authorization.Scope(account)).Some?
    ensures var body := Object(map["partitionKey" := Str("p1"), "field" := Str("x")]);
      var c := CreateMain(body, account, database, collection, tokenFor, date, reply);
      c.sent.Some? && c.sent.value.data == Some(body)
      && c.sent.value.headers[PartitionKeyHeader] == Some("[\"p1\"]")
  {
    var body := Object(map["partitionKey" := Str("p1"), "field" := Str("x")]);
    assert body.fields["partitionKey"] == Str("p1");
    assert "[\"" + "p1" + "\"]" == "[\"p1\"]";
    var c := CreateMain(body, account, database, collection, tokenFor, date, reply);
    assert c.sent.Some?;
    assert CreateRequest(c.sent.value, CosmosUrl.DocsUrl(account, database, collection), body,
                         "p1", tokenFor(Authorization.Scope(account)).value);
  }
}
