# Cosmos DB REST client: request building and paging

This project is a Dafny model of the request machinery that two small Python scripts share. The scripts talk to the Azure Cosmos DB data-plane REST API. One script lists every document of a collection. The other creates one document.

Both scripts carry their own copy of the same four steps:

- **Authorization encoder.** `get_cosmos_aad_authorization` composes `type=aad&ver=<version>&sig=<token>` from an Entra ID token and form-URL-encodes it with `urllib.parse.quote_plus`.
- **Header builder.** `get_cosmos_headers` builds the header dict: `Authorization`, `x-ms-version`, `x-ms-date`, and an unset `x-ms-continuation` slot. It adds `x-ms-documentdb-partitionkey` when `create_document` is true.
- **Invoker.** `invoke_web_request` dispatches on `method.upper()` to a GET or a POST. It applies `raise_for_status` and classifies `requests` exceptions in four `except` clauses.
- **Document operations.** The list script drives a continuation-token pagination loop (`get_cosmos_documents`) and prints a slice of the result. The create script posts the body it was given (`create_cosmos_document`) and takes the routing key from that body.

Modules:

| file | module | what it holds |
|---|---|---|
| outcomes.dfy | `Outcomes` | `Option` and `Result` |
| json.dfy | `Json` | parsed JSON values and member lookup |
| case_mapping.dfy | `CaseMapping` | Python's `str.upper()`, as far as it can affect a match against `GET` or `POST` |
| utf8.dfy | `Utf8` | UTF-8 encoding of every Unicode scalar value and its strict decoder |
| form_encoding.dfy | `FormEncoding` | `quote_plus` and its inverse |
| http.dfy | `Errors`, `Http` | the error taxonomy, requests and responses, and `invoke_web_request` |
| cosmos.dfy | `Authorization`, `CosmosUrl`, `CosmosHeaders` | the parts both scripts write identically |
| list_documents.dfy | `ListDocuments` | the list script's header builder, pagination, slice and `main` |
| create_document.dfy | `CreateDocument` | the create script's header builder, create call and `main` |

Apart from their docstrings, the authorization function and the invoker are statement-for-statement identical in the two scripts, and the URL f-string is character-for-character identical. Each is modelled once, and the rows below cite the list script. In cosmos_db_create_document/create_cosmos_document.py the same code sits at lines 18-42 (authorization) and 76-129 (invoker). The URL is on line 153.

The two `get_cosmos_headers` copies differ in one line, so each script has its own `GetHeaders`, as written.

Outside collaborators become parameters:

- The identity provider is a function `tokenFor` from a scope to an optional token.
- The network is the transport's reply: a `Transport` value, or for the list loop the sequence of replies to successive GETs.
- The clock reading `x-ms-date` is an opaque string.
- `RECORDS_NUMBER` is an integer parameter.

On these points the model follows the code:

- `raise_for_status` rejects only statuses 400 to 599. A 1xx or 3xx response that reaches it is returned, not raised.
- A failed token request does not stop at the `except`. The exception is printed and swallowed, and the next line reads the unbound `signature`. The call still aborts, so the model's `AuthenticationError` is the error of that abort.
- `ConnectTimeout` is both a `ConnectionError` and a `Timeout` in `requests`. The `ConnectionError` clause comes first, so that clause handles it.
- The list script's routing header is `[key]`, not a JSON array literal. In that script the header is never requested, since `main` leaves `create_document` false.

## Model

| member | source | states |
|---|---|---|
| Authorization.Scope | cosmos_db_list_documents/list_cosmos_documents.py:37 | the token scope is `https://`, the account name, then `.documents.azure.com/.default` |
| Authorization.Composed | cosmos_db_list_documents/list_cosmos_documents.py:34-42 | the unencoded value is `type=aad&ver=`, the version, `&sig=`, then the token, with nothing else |
| Utf8.DecodeEncode | cosmos_db_list_documents/list_cosmos_documents.py:43 | the UTF-8 bytes `quote_plus` encodes a str to decode back to exactly that str, for every string |
| FormEncoding.QuotePlus | cosmos_db_list_documents/list_cosmos_documents.py:43 | every character of the encoded value is an unreserved character, `+` or `%`, so no raw `&`, `=` or space survives |
| FormEncoding.UnquoteQuotePlus | cosmos_db_list_documents/list_cosmos_documents.py:43 | percent-decoding (`+` as space, `%XX` as a byte, then UTF-8) inverts the encoding for every string |
| FormEncoding.QuotePlusUnreserved | cosmos_db_list_documents/list_cosmos_documents.py:43 | a string of letters, digits and `_.-~` is its own encoding |
| FormEncoding.QuotePlusConcat | cosmos_db_list_documents/list_cosmos_documents.py:43 | encoding a concatenation encodes the parts one after the other |
| Authorization.GetAuthorization | cosmos_db_list_documents/list_cosmos_documents.py:17-44 | the call succeeds exactly when the provider issues a token for the account's scope, and fails with an authentication error otherwise; a successful value decodes to exactly `type=aad&ver=<version>&sig=<token>` and holds no raw `&`, `=` or space |
| Authorization.EncodedSignatureVerbatim | cosmos_db_list_documents/list_cosmos_documents.py:34-43 | for a version and token made of unreserved characters the header value is `type%3Daad%26ver%3D<version>%26sig%3D<token>` |
| CosmosHeaders.BaseHeaders | cosmos_db_list_documents/list_cosmos_documents.py:66-71 | exactly the four keys, `Authorization` verbatim, the version and date as given, and the continuation slot `None` |
| ListDocuments.GetHeaders | cosmos_db_list_documents/list_cosmos_documents.py:47-75 | the four base keys plus `x-ms-documentdb-partitionkey` exactly when `create_document` holds, with value `[` key `]`; nothing else changes |
| ListDocuments.HeadersDifferOnlyInDate | cosmos_db_list_documents/list_cosmos_documents.py:66-73 | two builds with equal inputs and different clock readings agree on every header except `x-ms-date` |
| CreateDocument.GetHeaders | cosmos_db_create_document/create_cosmos_document.py:45-73 | the four base keys plus `x-ms-documentdb-partitionkey` exactly when `create_document` holds, with value `["` key `"]`; nothing else changes |
| CreateDocument.QuotedRouting | cosmos_db_create_document/create_cosmos_document.py:71 | the routing value is `["`, the key, then `"]`: four characters longer than the key, which sits between them unchanged |
| CreateDocument.HeadersDifferOnlyInDate | cosmos_db_create_document/create_cosmos_document.py:64-71 | two builds with equal inputs and different clock readings agree on every header except `x-ms-date` |
| CreateDocument.RoutingDiscrepancy | cosmos_db_list_documents/list_cosmos_documents.py:73 | the list copy's routing value equals the create copy's value for key q only when it was given q already wrapped in double quotes, so for the same key the copies never agree |
| CreateDocument.RoutingExample | cosmos_db_create_document/create_cosmos_document.py:71 | for key `p1` the list copy writes `[p1]` and the create copy writes `["p1"]` |
| CaseMapping.UpperChar | cosmos_db_list_documents/list_cosmos_documents.py:104 | one character upper-cases to one to three characters, ASCII characters to their ASCII upper case, and never to a lower-case ASCII letter |
| CaseMapping.Upper | cosmos_db_list_documents/list_cosmos_documents.py:104 | `str.upper()` is at least as long as its input and at most three times as long, and holds no lower-case ASCII letter |
| Http.Dispatch | cosmos_db_list_documents/list_cosmos_documents.py:104-115 | a method is a GET exactly when its upper-case form is `GET`, and a POST exactly when it is `POST`; a dispatched method has one to four characters |
| CaseMapping.UpperMatchesIgnoringCase | cosmos_db_list_documents/list_cosmos_documents.py:104 | on ASCII text, `s.upper()` equals an upper-case word exactly when `s` spells that word in any mix of letter cases |
| Http.DispatchGetIgnoresCase | cosmos_db_list_documents/list_cosmos_documents.py:104-107 | an ASCII method is dispatched as GET exactly when it spells `get` in any letter case |
| Http.DispatchPostIgnoresCase | cosmos_db_list_documents/list_cosmos_documents.py:104-111 | an ASCII method is dispatched as POST exactly when it spells `post` in any letter case |
| Http.LongSIsPost | cosmos_db_list_documents/list_cosmos_documents.py:104-108 | because `str.upper()` maps the long s to `S`, the method `poſt` is dispatched as a POST |
| Http.DispatchGet | cosmos_db_list_documents/list_cosmos_documents.py:105 | the literal method `GET` the scripts pass is dispatched as a GET |
| Http.Classify | cosmos_db_list_documents/list_cosmos_documents.py:120-131 | connection failures and connect timeouts are handled as connection errors, read timeouts as timeouts, anything else as an unknown request error, and the original failure is kept |
| Http.Receive | cosmos_db_list_documents/list_cosmos_documents.py:117-118 | a response is returned exactly when it was delivered with a status outside 400-599, and unchanged; a 4xx/5xx status becomes an HTTP status error carrying the status and body |
| Http.Invoke | cosmos_db_list_documents/list_cosmos_documents.py:78-131 | an unsupported method fails with no request issued; GET sends no body; POST sends the body only when it is not `None`; missing headers become `{}`; any returned response passed the status check |
| Http.InvokeSucceedsIff | cosmos_db_list_documents/list_cosmos_documents.py:100-131 | the invoker returns a response exactly when the method is GET or POST, the transport delivered, and the status is outside 400-599 |
| CosmosUrl.DocsUrl | cosmos_db_list_documents/list_cosmos_documents.py:149 | the feed URL starts with `https://` and the account, then `.documents.azure.com:443/dbs/`, and ends with `/docs`; it is 49 characters longer than the three names together. The create script builds it at cosmos_db_create_document/create_cosmos_document.py:153 |
| CosmosUrl.ParseDocsUrlRoundTrip | cosmos_db_list_documents/list_cosmos_documents.py:149 | for names without `/`, the feed URL names exactly the account, database and collection it was built from |
| CosmosUrl.DocsUrlInjective | cosmos_db_list_documents/list_cosmos_documents.py:149 | two different collections whose names have no `/` never share a feed URL |
| ListDocuments.PageDocuments | cosmos_db_list_documents/list_cosmos_documents.py:157 | a page's documents are its body's `Documents` list, exactly when the body is an object whose `Documents` member is a list; any other body fails as a malformed page |
| ListDocuments.Continuation | cosmos_db_list_documents/list_cosmos_documents.py:158 | the continuation token is present exactly when the response has an `x-ms-continuation` header, and is that header's value |
| ListDocuments.StopIndex | cosmos_db_list_documents/list_cosmos_documents.py:152-162 | the reply that ends the loop is the first one that is not a page with a continuation token |
| ListDocuments.Paginate | cosmos_db_list_documents/list_cosmos_documents.py:149-163 | between one GET and as many GETs as there are replies, all to the feed URL without a body; the first carries the given headers; on success the continuation slot ends `None` |
| ListDocuments.PaginateStops | cosmos_db_list_documents/list_cosmos_documents.py:152-163 | with k the first reply without a further page: exactly k+1 GETs; request i+1 carries reply i's token; success exactly when reply k is a final page, with the documents of replies 0..k in order; otherwise reply k's error and no documents |
| ListDocuments.PaginatePages | cosmos_db_list_documents/list_cosmos_documents.py:149-163 | over pages p0..pk where only pk lacks a token, the result is p0's documents then p1's ... then pk's, from exactly k+1 GETs, with the continuation slot left `None`; later replies are never requested |
| ListDocuments.PaginatePagesRequests | cosmos_db_list_documents/list_cosmos_documents.py:156-160 | over the same pages, request 0 is a GET with the given headers, and request i+1 is a GET to the same URL with the headers updated to p_i's token |
| ListDocuments.PaginateKeepsHeaders | cosmos_db_list_documents/list_cosmos_documents.py:160 | every request of a listing carries the given headers unchanged except for the continuation slot |
| ListDocuments.GetDocuments | cosmos_db_list_documents/list_cosmos_documents.py:134-163 | the source's `while` loop, which mutates the header dict in place, computes exactly the outcome, the requests and the final headers of the recursive model |
| ListDocuments.SliceBound | cosmos_db_list_documents/list_cosmos_documents.py:178 | a slice bound resolves as in CPython: a negative bound counts from the end and clamps at 0; a bound past the end clamps to the length |
| ListDocuments.PySlice | cosmos_db_list_documents/list_cosmos_documents.py:178 | `s[start:stop]` is the contiguous run of `s` from the resolved start up to the resolved stop, and empty when the start is not before the stop |
| ListDocuments.Selection | cosmos_db_list_documents/list_cosmos_documents.py:178 | `all_documents[-N:-1]` is the N-1 documents before the last when 1 <= N <= length; all but the last when N is 0 or exceeds the length; empty for no documents |
| ListDocuments.SelectionOmitsLast | cosmos_db_list_documents/list_cosmos_documents.py:178 | for every N the printed selection is the run ending just before the last document, so the last document fetched is never printed |
| ListDocuments.LastRecords | cosmos_db_list_documents/list_cosmos_documents.py:178 | the intended selection: the last min(N, length) documents, as a suffix |
| ListDocuments.SelectionIsLastRecordsButOne | cosmos_db_list_documents/list_cosmos_documents.py:178 | for 1 <= N <= length the printed selection followed by the last document is the intended last N documents |
| ListDocuments.SelectionCounterexample | cosmos_db_list_documents/list_cosmos_documents.py:178 | with three documents, N = 3 prints two of them, and N = 0 prints all but the last |
| ListDocuments.ListMain | cosmos_db_list_documents/list_cosmos_documents.py:166-179 | no token means no request; otherwise every GET goes to the feed URL with the encoded `type=aad&ver=1.0&sig=<token>`, version `2018-12-31` and no routing header; the requests are exactly those of the listing; a successful listing yields its selection, and a failed listing's error is the error `main` ends with |
| CreateDocument.Create | cosmos_db_create_document/create_cosmos_document.py:132-157 | exactly one POST of the body to the feed URL with the given headers; the result is the response body when the status passed, and the classified error otherwise |
| CreateDocument.PartitionKeyOf | cosmos_db_create_document/create_cosmos_document.py:163 | the key member is read from an object body that has it; any other body fails with a missing-key error |
| CreateDocument.RoutingKey | cosmos_db_create_document/create_cosmos_document.py:167-169 | a string key is used as is in the routing header; any other key fails with a non-string key error that carries it |
| CreateDocument.CreateMain | cosmos_db_create_document/create_cosmos_document.py:160-176 | a body without `partitionKey` fails before a token is requested; a missing token fails with no request; otherwise the one POST carries the body unchanged and exactly the header dict this script's `get_cosmos_headers` builds from the encoded authorization, that body's key, version `2018-12-31` and the given clock reading, so the routing header is `["` key `"]` of that same body and `Authorization` decodes to `type=aad&ver=1.0&sig=<token>`; a non-string key fails before the POST; after the POST, success comes exactly from a delivered status outside 400-599 and returns the response body, a 4xx/5xx status fails with that status and body, and a transport failure fails with its classified error |
| CreateDocument.CreateExample | cosmos_db_create_document/create_cosmos_document.py:163-175 | the body `{"partitionKey": "p1", "field": "x"}` is posted whole with routing header `["p1"]` |

## Findings

| source | as written | input that shows it | evidently intended | confidence | as-written member | corrected member |
|---|---|---|---|---|---|---|
| cosmos_db_list_documents/list_cosmos_documents.py:178 | `all_documents[-RECORDS_NUMBER:-1]` | three documents with RECORDS_NUMBER 3 print two | for a positive RECORDS_NUMBER, the last RECORDS_NUMBER documents, as `all_documents[-RECORDS_NUMBER:]` gives | high that the last document is dropped, not executed | ListDocuments.SelectionCounterexample | ListDocuments.LastRecords |
| cosmos_db_list_documents/list_cosmos_documents.py:73 | `f"[{partition_key}]"` | key `p1` gives `[p1]`, which is not a JSON array | `["p1"]`, as the create copy writes it | medium: the list script never asks for this header, not executed | CreateDocument.RoutingDiscrepancy | CreateDocument.GetHeaders |

In the first row, `ListDocuments.Selection` models the slice as written. `ListDocuments.SelectionIsLastRecordsButOne` proves that it is the intended selection with the final document cut off. `ListDocuments.ListMain` keeps the slice as written, because that is what the script prints.

In the second row, `ListDocuments.GetHeaders` keeps the list script's bracket form. The create path uses `CreateDocument.GetHeaders`, the quoted form.

## Left out

- Token acquisition (`DefaultAzureCredential`, `get_token`) is an outside identity provider. It is the parameter `tokenFor`, and `None` stands for any exception it raises.
- The network (`requests.get`, `requests.post`) is not modelled. A call receives a given `Transport` reply. The list loop receives the replies to its successive GETs in order, so a reply cannot depend on the request's token.
- Inside `requests`, header values of `None` are dropped before sending, redirects are followed, and response header names are matched case-insensitively. The model passes the header dict on as built. It reads response headers by their lower-cased name.
- `datetime.utcnow()` and its `strftime` formatting depend on the clock. `x-ms-date` is an opaque string input.
- Reading the environment and `int(float(...))` on `RECORDS_NUMBER` use floats. N is an integer parameter.
- The base64 and JSON decoding of `CREATE_BODY`, and the text `json.dumps` produces, are library calls. Bodies are parsed `Json` values, and a request's `data` is the value whose JSON text is sent.
- `response.json()` parse failures are not modelled. A response carries its parsed body.
- All `print` logging is left out. That includes the message that names the `except` clause. The clause itself is modelled by `Http.Classify`.
- `raise e` on a string raises `TypeError`. It is modelled as the error `UnsupportedMethod`.
- CaseMapping.UpperChar: only ASCII letters and the non-ASCII characters whose upper-case form is pure ASCII are mapped. Every other character is kept as is. Python would map some of those to other non-ASCII text, and neither form can equal `GET` or `POST`.
- ListDocuments.PageDocuments: a `Documents` member that is a string or an object would be extended element by element in Python. The model treats it, like a missing member or a non-object body, as `MalformedPage`.
- CreateDocument.RoutingKey: a `partitionKey` that is not a string is formatted with Python's `str()` by the f-string. The model fails it with `NonStringPartitionKey` instead of reproducing `str()` for numbers, booleans, `null`, lists and objects.
- ListDocuments.Paginate: a server that answers every request with a continuation token makes the loop run forever. The model requires that some reply ends the loop (`Settles`).
- ListDocuments.GetDocuments: the source mutates the caller's header dict. The model returns the final headers instead of aliasing the caller's dict.
