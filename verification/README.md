# cardmarket_api in Dafny

A model of the request core of `cardmarket_api`, a Python client for the
Cardmarket (MKM) REST API v2.0. It covers four things:

- **`get_content`** (`cardmarket_api/call.py`). It builds the request URL
  from the endpoint and its parameters. The query string is made of the
  parameters sorted by key, each value passed through `quote_plus(str(value))`.
  It then checks the credentials and picks the HTTP verb, or returns the
  `False` sentinel. It reads the response by status:
  - 200 takes the payload under `data_type`;
  - 206 does the same, and follows a full page of 1000 items with a call
    for the next page, with "start" advanced by 1000;
  - 307 retries with `start=0&maxResults=1000` added to the parameters;
  - any other status gives an empty list.

  Both follow-ups need parameters. With no parameters (`parameters=None`,
  which the wrapper passes for every session method but the product
  search), a 307 or a full 206 page raises TypeError. The product search
  has parameters but no "start", so a full 206 page raises KeyError
  (`Session.NoParametersCannotPage`, `Session.ProductsByNameFullPage`).

  It returns the data with the `X-Request-Limit-Count` and `Expires`
  headers, each defaulting to 0.
- **The `api_request` wrapper.** It fills in the defaults of a method's
  descriptor, calls `get_content`, and stores the two rate-limit values on
  the session.
- **`CardMarketSession`** (`cardmarket_api/session.py`). This covers its
  credentials, its two rate-limit fields, the nine descriptor builders and
  `construct_xml`.
- **`dict_to_xml`** (`cardmarket_api/utils.py`). It turns nested dicts into
  child elements.

How the model is built:

- **The server is a parameter.** It is the sequence of responses it will
  give, one consumed per request. Each call records the requests it sent:
  verb, endpoint and parameters. The URL and the OAuth realm of a request
  are functions of those three and of the base URL (`Executor.RequestUrl`,
  `Executor.SignedRealm`).
- **`get_content` appears twice.** `Executor.Execute` is a recursive
  function. `Executor.GetContent` is a recursive method that follows the
  source's branches in order, with the nested calls corrected (see
  "## Findings"), and it is proved equal to `Execute`. The caller's
  parameters dict is not changed in place: each nested call gets the
  updated dict as a new value.
- **`dict_to_xml` is a recursive method** (`XmlEncoder.DictToXml`). It is
  proved against the function `XmlEncoder.Encode`.
- **The session is a class** whose rate-limit fields are updated in place.

Modules:

| file | module |
|---|---|
| `wrappers.dfy` | `Wrappers`: Option and Result |
| `strings.dfy` | `Strings`: code-point order of `str`, `str(int)`, split and join |
| `atoms.dfy` | `Atoms`: scalar parameter values and `str()` |
| `dicts.dfy` | `Dicts`: insertion-ordered `dict` with `get` and item assignment |
| `percent.dfy` | `PercentEncoding`: UTF-8 and `quote_plus`, with a decoder |
| `query.dfy` | `Query`: the sorted query string and the URL |
| `executor.dfy` | `Executor`: `get_content` |
| `pagination.dfy` | `Pagination`: what a whole call does across pages and retries |
| `xml.dfy` | `XmlEncoder`: `dict_to_xml` |
| `session.dfy` | `Session`: descriptors, the wrapper and `CardMarketSession` |

## Model

| member | source | states |
|---|---|---|
| Executor.Dispatch | cardmarket_api/call.py:29-39 | A request is issued exactly for GET, for DELETE, and for POST or PUT with a non-empty body; the verb issued is the one named |
| Executor.Lookup | cardmarket_api/call.py:44-48 | The payload is the value under `data_type` when present, and None when the key is absent or `data_type` is None |
| Executor.HeaderField | cardmarket_api/call.py:61-62 | A rate-limit field is always set: the header's text when the response carries the header under its lower-case name, 0 exactly when it does not |
| Executor.NextStart | cardmarket_api/call.py:51 | Advancing "start" raises TypeError without parameters, KeyError without "start", and succeeds exactly when "start" holds a number |
| Executor.NextStartAdvances | cardmarket_api/call.py:51 | The next page's "start" is 1000 more; every other parameter keeps its value and its position, and keys stay distinct |
| Executor.PaginateOverrides | cardmarket_api/call.py:56-57 | The 307 retry has start 0 and maxResults 1000; other keys are unchanged, the original keys keep their order, and keys stay distinct |
| Executor.GetContent | cardmarket_api/call.py:10-64 | The procedure, with the nested calls corrected, computes exactly the run `Execute` specifies: outcome, requests sent, responses left |
| Executor.RealmPrefixesUrl | cardmarket_api/call.py:16-27 | The realm a request is signed for is its URL up to the `?`; the `?` and a query string follow exactly when the parameters are truthy |
| Pagination.RejectedCallSendsNothing | cardmarket_api/call.py:18-39 | A missing credential raises KeyError and an unusable method returns False; neither sends a request or reads a response |
| Pagination.SendsFirstRequest | cardmarket_api/call.py:16-36 | An accepted call first sends its own verb, endpoint and parameters |
| Pagination.RequestsConsumeResponses | cardmarket_api/call.py:29-58 | Each request reads exactly one response, in order, and the unread responses are a suffix; only running out of responses leaves a request unanswered |
| Pagination.Status200 | cardmarket_api/call.py:44-45 | A 200 ends the call after one request with the payload under `data_type` (None when no data type is given) and that response's headers |
| Pagination.UnmappedStatusEmpty | cardmarket_api/call.py:43 | Any status other than 200, 206 or 307 returns an empty list after one request |
| Pagination.HeadersFromFirstResponse | cardmarket_api/call.py:61-64 | Whatever a call returns carries the rate-limit headers of its first response, however many pages followed |
| Pagination.MissingStartRaises | cardmarket_api/call.py:47-51 | A full 206 page for parameters without "start" raises KeyError after the first request |
| Pagination.LastPageStep | cardmarket_api/call.py:44-50 | A 200, or a 206 page that is not full, ends the call with that page's list |
| Pagination.FullPageStep | cardmarket_api/call.py:47-52 | A full 206 page either fails as advancing "start" fails, or is followed by the next page's call, its items placed ahead of that call's |
| Pagination.PagesConcatenate | cardmarket_api/call.py:47-52 | After k full pages and a last page, the call returns all items of all pages in order. It sends k+1 requests whose "start" goes up by 1000 each time and reads exactly k+1 responses |
| Pagination.CollectedLength | cardmarket_api/call.py:50-52 | Paging collects 1000 items per full page plus the last page's items |
| Pagination.PageRequestsShift | cardmarket_api/call.py:51 | Requesting one page and then the rest from the advanced "start" sends the same requests as asking for one more page |
| Pagination.RetryStep | cardmarket_api/call.py:54-58 | A 307 raises TypeError when there are no parameters, and otherwise hands over to the paginated retry |
| Pagination.RetryOn307 | cardmarket_api/call.py:54-58 | A 307 sends the retry with the paginated parameters next; the call returns the retry's list under the 307 response's headers and fails as the retry fails |
| Pagination.KeywordCall | cardmarket_api/call.py:52 | Binding the nested call's keyword arguments succeeds only if "parameters" and "credentials" are given, and any "start" key is a TypeError |
| Pagination.AsWrittenFollowUpRaises | cardmarket_api/call.py:52-58 | As written, every call that needs a next page or a retry raises TypeError after its first request |
| Pagination.TwoPagesCounterexample | cardmarket_api/call.py:47-52 | With pages of 1000 items and 1 item, the corrected call returns 1001 items while the code as written raises |
| Query.SortByKeyPermutes | cardmarket_api/call.py:27 | Sorting the parameters reorders them without losing or adding any |
| Query.SortByKeyAscending | cardmarket_api/call.py:27 | Sorted parameters have strictly ascending keys |
| Query.QueryStringRoundTrip | cardmarket_api/call.py:25-27 | Splitting the query string on `&` and `=` and unquoting gives back one pair per parameter, each key verbatim and each value as the UTF-8 bytes of `str(value)`. Keys come in ascending order and the pairs are a reordering of the parameters |
| Query.QueryMarkIffParams | cardmarket_api/call.py:16-27 | The URL holds a `?` exactly when the parameters are truthy, and it always starts with the realm `base/output.json/endpoint` |
| PercentEncoding.QuotePlusSafe | cardmarket_api/call.py:27 | A quoted value never contains `&`, `=`, `?` or a space |
| PercentEncoding.UnquoteQuotePlus | cardmarket_api/call.py:27 | Unquoting a quoted value gives back its UTF-8 bytes |
| PercentEncoding.QuotePlusKeepsUnreserved | cardmarket_api/call.py:27 | Text made of unreserved ASCII characters is left as it is |
| Strings.NatToStringRoundTrip | cardmarket_api/session.py:24 | The decimal form of a number reads back as that number |
| Strings.IntToStringInjective | cardmarket_api/session.py:24 | Different integers have different decimal forms |
| Strings.SplitJoin | cardmarket_api/call.py:26 | Joining parts that do not contain the separator and splitting again gives back the parts |
| Dicts.PutKeys | cardmarket_api/call.py:57 | Assigning to an existing key keeps the key order; a new key goes at the end |
| Dicts.PutPut | cardmarket_api/call.py:51 | Assigning a key twice is the same as assigning the last value once |
| XmlEncoder.EntryNodesShape | cardmarket_api/utils.py:10-21 | A key gives one element named by the key, or one per item for a list. A scalar's text is `str(value)`; None and containers leave the text unset. A dict's element holds the dict's encoding |
| XmlEncoder.EncodeConcat | cardmarket_api/utils.py:10 | Elements follow the dict's iteration order: two dicts laid end to end encode to the two encodings one after the other |
| XmlEncoder.EncodeLength | cardmarket_api/utils.py:10-19 | Exactly one child per scalar, None or dict value, and one per list item |
| XmlEncoder.EncodeEmpty | cardmarket_api/utils.py:8-23 | No element is created exactly when every value is an empty list |
| XmlEncoder.DictToXml | cardmarket_api/utils.py:4-23 | The tree gains the dict's encoding after its existing children, and nothing else changes. The result is the last element created, or None when none was |
| XmlEncoder.EncodeAllConcat | cardmarket_api/session.py:95-96 | Encoding a list of dicts one after another equals encoding their entries merged in order; an empty list adds nothing |
| Session.EveryOperationIsGet | cardmarket_api/session.py:21-89 | No session method sets a method or a body, so the wrapper's default GET applies and a request is always issued |
| Session.SessionCallSendsGet | cardmarket_api/call.py:67-76 | A session call never ends in the sentinel, and its first request is a GET for the method's endpoint and parameters |
| Session.IdEndpointRoundTrip | cardmarket_api/session.py:21-83 | An id-based endpoint is its fixed prefix followed by the id's digits, which read back as the id; the data type is the one that prefix goes with |
| Session.IdEndpointInjective | cardmarket_api/session.py:21-83 | Two calls of the same id-based kind share an endpoint exactly when their integer ids are equal |
| Session.ProductsByNameQuery | cardmarket_api/session.py:35-43 | The product search query is `exact`, `idGame=1`, `idLanguage` and `search`, in that order, with each value quoted |
| Session.ProductsByNameSorted | cardmarket_api/session.py:42 | The product search's parameters sort to `exact`, `idGame`, `idLanguage`, `search` |
| Session.DefaultsQuoteVerbatim | cardmarket_api/session.py:36-42 | With only a card name, the product search sends `exact` False and `idLanguage` 1 beside `search` and `idGame` 1, to `/products/find`; both defaults appear in the query verbatim as `False` and `1` |
| Session.NoParametersCannotPage | cardmarket_api/call.py:47-58 | Every session method but the product search has no parameters, so a 307 or a full 206 page raises TypeError after the first request |
| Session.ProductsByNameFullPage | cardmarket_api/call.py:47-51 | The product search has no "start", so a full 206 page raises KeyError after the first request |
| Session.NoDataTypeYieldsNull | cardmarket_api/session.py:65-69 | The methods without a data type get None as data from a 200 response |
| Session.SessionHoldsFirstHeaders | cardmarket_api/call.py:78-79 | After a successful call the session holds the rate-limit headers of the first response, each defaulting to 0 |
| Session.CardMarketSession.constructor | cardmarket_api/session.py:12-19 | A new session holds the four tokens under their names, a request count of 0 and no expiry |
| Session.CardMarketSession.Call | cardmarket_api/call.py:67-82 | Runs `get_content` on the method's descriptor. On success it stores both rate-limit values and returns only the data. A `False` result fails when indexed, and an exception passes through; in both cases the fields are unchanged |
| Session.CardMarketSession.ConstructXml | cardmarket_api/session.py:91-96 | The root is a `request` element holding each dict's encoding, in list order |

## Left out

- HTTP transport, JSON decoding, logging and the OAuth1 signature. The responses are a parameter. The base URL from `config` is a parameter of `RequestUrl` and `SignedRealm`. `config.py` is not part of this model.
- `get_all_products` (session.py:52-56): base64 and gzip decoding of the file. Only its descriptor (`AllProductsFile`) is modelled.
- `construct_xml`'s serialisation with `etree.tostring` (session.py:97). The model stops at the element tree. lxml's checks are left out: a key that is not a valid XML tag name, and a text value holding NUL or other control characters (utils.py:21), make lxml raise ValueError, and the model has no such error.
- Executor.Extend / Executor.Enclose: `content += x` where `x` is not a list raises TypeError. Python would instead extend a list by a dict's keys or a string's characters. A payload other than a list or None is opaque here (`Data.Other`).
- Executor.NextStart: `parameters["start"] += 1000` changes the caller's dict in place. The model computes a new dict, so that aliasing is not observed. A float "start" is not modelled (values are str, int or bool).
- Python's handling of a response whose JSON is not an object, and of floating-point values, are not modelled.
- XmlEncoder.DictToXml: requires that every list item, at any depth, is a dict. The source raises AttributeError part-way through otherwise, leaving a partly built tree. The source attaches each element before filling it. The model builds each element and then attaches it, on values, which gives the same tree without modelling lxml's shared nodes.
- Query.QueryStringRoundTrip: requires keys free of `&` and `=`, and at least one parameter. Otherwise the string cannot be split back.
- Session.CardMarketSession.Call: models the rate-limit fields as `Field` (unset, 0, or the header's text), not as Python values of mixed type.
- Pagination.HeadersFromFirstResponse: after a paginated or retried call, the returned and stored rate-limit values are those of the first response, because call.py:61-62 read the outermost `r`. They are not the last page's. The model follows the code.
- Executor.HeaderField: response headers are keyed by their lower-case names, standing for the case-insensitive header dict of `requests`. Mixed-case keys in a `Response` are not looked up.
- Concurrency, and the scripts under `if __name__ == "__main__"`.

## Findings

| source | as written | input that shows it | evidently intended | confidence | as-written member | corrected member |
|---|---|---|---|---|---|---|
| cardmarket_api/call.py:52 | The next-page call passes the page's parameters as `**parameters` keyword arguments and passes no credentials. "start" is not a parameter of `get_content`, and `parameters` and `credentials` are missing, so the call raises TypeError. The same happens for the 307 retry at line 58 | Two 206 pages for `/articles/1` with `start=0`: 1000 items, then 1 | The follow-up call gets `parameters=` the updated dict and the same credentials, and the call returns all 1001 items | not executed | Pagination.AsWrittenFollowUpRaises | Pagination.PagesConcatenate |
