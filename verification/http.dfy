/**
 * The errors an operation of the client can end with.  The four request
 * errors are named after the `except` clause of `invoke_web_request` that
 * handles them; every error propagates to the caller unchanged.
 */
module Errors {
  import opened Json

  /** How the `requests` library can fail before a response arrives. */
  datatype TransportFailure =
    | ConnectFailure   // requests.exceptions.ConnectionError
    | ConnectTimeout   // requests.exceptions.ConnectTimeout: both a ConnectionError and a Timeout
    | ReadTimeout      // requests.exceptions.ReadTimeout
    | OtherFailure     // any other requests.exceptions.RequestException

  datatype Error =
    | AuthenticationError                    // no token: `signature` is unbound when the header is composed
    | UnsupportedMethod(name: string)      // neither GET nor POST
    | HttpStatusError(status: int, body: Json)
    | ConnectionError(cause: TransportFailure)
    | TimeoutError(cause: TransportFailure)
    | UnknownRequestError(cause: TransportFailure)
    | MalformedPage                          // a page body without a `Documents` array
    | MissingPartitionKey                    // a create body without a `partitionKey` member
    | NonStringPartitionKey(value: Json)     // a `partitionKey` member that is not a string
}

/**
 * `invoke_web_request`: one synchronous GET or POST through `requests`,
 * with `raise_for_status` and the four-clause exception classification.
 * The network is not modelled: the call is given the transport's reply.
 */
module Http {
  import opened Outcomes
  import opened Json
  import opened Errors
  import CaseMapping

  /** A request header dict; a `None` value is Python's `None`. */
  type Headers = map<string, Option<string>>

  datatype Verb = Get | Post

  /**
   * A request as handed to `requests`; `data` is the value whose
   * `json.dumps` text is the request body.
   */
  datatype Request = Request(verb: Verb, url: string, headers: Headers, data: Option<Json>)

  /**
   * A received response.  Header names are the lower-cased keys of the
   * case-insensitive dict `requests` keeps; `body` is `response.json()`.
   */
  datatype Response = Response(status: int, headers: map<string, string>, body: Json)

  /** What the transport did with a request. */
  datatype Transport = Delivered(response: Response) | Raised(failure: TransportFailure)

  /** What one call of the invoker did: the request it issued, if any, and its outcome. */
  datatype Call = Call(sent: Option<Request>, result: Result<Response, Error>)

  /** `match method.upper()`. */
  function Dispatch(verbName: string): (r: Option<Verb>)
    ensures r == Some(Get) <==> CaseMapping.Upper(verbName) == "GET"
    ensures r == Some(Post) <==> CaseMapping.Upper(verbName) == "POST"
    ensures r.Some? ==> 1 <= |verbName| <= 4
  {
    var m := CaseMapping.Upper(verbName);
    if m == "GET" then Some(Get)
    else if m == "POST" then Some(Post)
    else None
  }

  /** The statuses `raise_for_status` rejects: client errors 4xx and server errors 5xx. */
  predicate ErrorStatus(status: int) {
    400 <= status < 600
  }

  /** The `except` clause that handles a transport exception; the first matching one wins. */
  function Classify(f: TransportFailure): (e: Error)
    ensures e.ConnectionError? <==> f.ConnectFailure? || f.ConnectTimeout?
    ensures e.TimeoutError? <==> f.ReadTimeout?
    ensures e.UnknownRequestError? <==> f.OtherFailure?
    ensures (e.ConnectionError? || e.TimeoutError? || e.UnknownRequestError?) && e.cause == f
  {
    match f
    case ConnectFailure => ConnectionError(f)
    case ConnectTimeout => ConnectionError(f)
    case ReadTimeout => TimeoutError(f)
    case OtherFailure => UnknownRequestError(f)
  }

  /** The error `raise_for_status` raises, if any, after the transport replied. */
  function Receive(reply: Transport): (r: Result<Response, Error>)
    ensures r.Success? <==> reply.Delivered? && !ErrorStatus(reply.response.status)
    ensures r.Success? ==> r.value == reply.response
    ensures reply.Delivered? && ErrorStatus(reply.response.status) ==>
      r == Failure(HttpStatusError(reply.response.status, reply.response.body))
    ensures reply.Raised? ==> r == Failure(Classify(reply.failure))
  {
    match reply
    case Raised(f) => Failure(Classify(f))
    case Delivered(resp) =>
      if ErrorStatus(resp.status) then Failure(HttpStatusError(resp.status, resp.body))
      else Success(resp)
  }

  /**
   * `invoke_web_request(url, method, headers, body)` when the transport
   * replies `reply` to whatever request is issued.  A `Null` body is
   * Python's `None` (the default, and what `json.loads` makes of `null`).
   */
  function Invoke(url: string, verbName: string, headers: Option<Headers>, body: Json, reply: Transport): (c: Call)
    ensures Dispatch(verbName).None? ==> c == Call(None, Failure(UnsupportedMethod(verbName)))
    ensures Dispatch(verbName) == Some(Get) ==>
      c.sent == Some(Request(Get, url, headers.GetOr(map[]), None))
    ensures Dispatch(verbName) == Some(Post) ==>
      c.sent == Some(Request(Post, url, headers.GetOr(map[]), if body == Null then None else Some(body)))
    ensures c.sent.Some? ==> c.result == Receive(reply)
    ensures c.result.Success? ==>
      c.sent.Some? && reply == Delivered(c.result.value) && !ErrorStatus(c.result.value.status)
  {
    var sentHeaders := headers.GetOr(map[]);
    match Dispatch(verbName)
    case None => Call(None, Failure(UnsupportedMethod(verbName)))
    case Some(Get) => Call(Some(Request(Get, url, sentHeaders, None)), Receive(reply))
    case Some(Post) =>
      var data := if body.Null? then None else Some(body);
      Call(Some(Request(Post, url, sentHeaders, data)), Receive(reply))
  }

  /**
   * The invoker returns a response exactly when the method is supported,
   * the transport delivered, and the status passed `raise_for_status`.
   */
  lemma InvokeSucceedsIff(url: string, verbName: string, headers: Option<Headers>, body: Json, reply: Transport)
    ensures Invoke(url, verbName, headers, body, reply).result.Success? <==>
      Dispatch(verbName).Some? && reply.Delivered? && !ErrorStatus(reply.response.status)
  {
  }

  /** The literal method `"GET"` is dispatched as a GET. */
  lemma DispatchGet()
    ensures Dispatch("GET") == Some(Get)
  {
    assert CaseMapping.Upper("GET") == "GET";
  }

  /** On ASCII text, the method matches GET exactly when it spells `get` in any letter case. */
  lemma DispatchGetIgnoresCase(verbName: string)
    requires CaseMapping.IsAscii(verbName)
    ensures Dispatch(verbName) == Some(Get) <==>
      |verbName| == 3 && forall i :: 0 <= i < 3 ==> CaseMapping.SameLetterIgnoringCase(verbName[i], "GET"[i])
  {
    CaseMapping.UpperMatchesIgnoringCase(verbName, "GET");
  }

  /** On ASCII text, the method matches POST exactly when it spells `post` in any letter case. */
  lemma DispatchPostIgnoresCase(verbName: string)
    requires CaseMapping.IsAscii(verbName)
    ensures Dispatch(verbName) == Some(Post) <==>
      |verbName| == 4 && forall i :: 0 <= i < 4 ==> CaseMapping.SameLetterIgnoringCase(verbName[i], "POST"[i])
  {
    CaseMapping.UpperMatchesIgnoringCase(verbName, "POST");
    CaseMapping.UpperMatchesIgnoringCase(verbName, "GET");
  }

  /** `str.upper()` maps the long s to `S`, so the method `poſt` is dispatched as a POST. */
  lemma LongSIsPost()
    ensures Dispatch("poſt") == Some(Post)
  {
    assert CaseMapping.Upper("poſt") == "POST";
  }
}
