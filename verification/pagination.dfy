/**
 * What `get_content` (cardmarket_api/call.py) promises across the requests
 * one call makes: rejected calls send nothing, each request reads one
 * response, full 206 pages are followed page by page and concatenated, a 307
 * is retried once with pagination parameters, and the returned rate-limit
 * fields come from the first response.
 */
module Pagination {
  import opened Wrappers
  import opened Atoms
  import opened Dicts
  import opened Query
  import opened Executor

  /** The request `get_content` sends for call `c`, before any follow-up. */
  function FirstRequest(c: Call, verb: Verb): (r: Sent) {
    Sent(verb, c.endpoint, c.params)
  }

  /** A call missing a credential raises KeyError, and an unusable method returns False; neither sends anything. */
  lemma RejectedCallSendsNothing(c: Call, server: seq<Response>)
    requires !HasCredentials(c.credentials) || Dispatch(c.httpMethod, c.data).None?
    ensures Execute(c, server).sent == [] && Execute(c, server).rest == server
    ensures !HasCredentials(c.credentials) ==> Execute(c, server).outcome == Raised(KeyError)
    ensures HasCredentials(c.credentials) ==> Execute(c, server).outcome == Sentinel
  {
  }

  /** A call with its credentials and a usable method sends its own request first. */
  lemma {:induction false} SendsFirstRequest(c: Call, server: seq<Response>)
    requires HasCredentials(c.credentials) && Dispatch(c.httpMethod, c.data).Some?
    ensures Execute(c, server).sent != []
    ensures Execute(c, server).sent[0] == FirstRequest(c, Dispatch(c.httpMethod, c.data).value)
  {
    match Once(c, server)
    case Done(run) =>
    case Follow(frame, s, next, rest) =>
      assert Execute(c, server).sent == [s] + Execute(next, rest).sent;
  }

  /**
   * Every request reads exactly one response, in order; only when the
   * responses run out does the last request go unanswered.
   */
  lemma {:induction false} RequestsConsumeResponses(c: Call, server: seq<Response>)
    ensures var run := Execute(c, server);
      && |run.sent| <= |server| + 1
      && |run.rest| <= |server|
      && run.rest == server[|server| - |run.rest|..]
      && (if run.outcome == Raised(NoResponse) then |run.sent| == |server| + 1 && run.rest == []
          else |run.sent| + |run.rest| == |server|)
    decreases |server|
  {
    match Once(c, server)
    case Done(run) =>
    case Follow(frame, s, next, rest) =>
      var inner := Execute(next, rest);
      RequestsConsumeResponses(next, rest);
      assert Execute(c, server) == Resume(frame, [s], inner);
      assert rest[|rest| - |inner.rest|..] == server[|server| - |inner.rest|..];
  }

  /** A 200 response ends the call with the payload under `data_type` and that response's rate-limit headers. */
  lemma Status200(c: Call, server: seq<Response>)
    requires HasCredentials(c.credentials) && Dispatch(c.httpMethod, c.data).Some?
    requires server != [] && server[0].status == 200
    ensures Execute(c, server)
         == Run(Returned(Report(server[0].headers, Lookup(server[0].body, c.dataType))),
                [FirstRequest(c, Dispatch(c.httpMethod, c.data).value)], server[1..])
    ensures c.dataType.None? ==> Execute(c, server).outcome.envelope.data == Null
  {
  }

  /** Any status other than 200, 206 and 307 returns an empty list and makes no further request. */
  lemma UnmappedStatusEmpty(c: Call, server: seq<Response>)
    requires HasCredentials(c.credentials) && Dispatch(c.httpMethod, c.data).Some?
    requires server != [] && server[0].status !in {200, 206, 307}
    ensures Execute(c, server)
         == Run(Returned(Report(server[0].headers, List([]))),
                [FirstRequest(c, Dispatch(c.httpMethod, c.data).value)], server[1..])
  {
  }

  /** Whatever a call returns carries the rate-limit headers of the first response, however many pages followed. */
  lemma HeadersFromFirstResponse(c: Call, server: seq<Response>)
    requires Execute(c, server).outcome.Returned?
    ensures server != []
    ensures Execute(c, server).outcome.envelope.requestCount == HeaderField(server[0].headers, RequestCountHeader)
    ensures Execute(c, server).outcome.envelope.expires == HeaderField(server[0].headers, ExpiresHeader)
  {
    match Once(c, server)
    case Done(run) =>
    case Follow(frame, s, next, rest) =>
      assert Execute(c, server) == Resume(frame, [s], Execute(next, rest));
  }

  /**
   * One full 206 page: the call fails if "start" cannot be advanced, and
   * otherwise hands over to a nested call for the next page.
   */
  lemma FullPageStep(c: Call, server: seq<Response>)
    requires HasCredentials(c.credentials) && Dispatch(c.httpMethod, c.data).Some?
    requires server != [] && server[0].status == 206 && FullPage(Lookup(server[0].body, c.dataType))
    ensures Execute(c, server)
         == match NextStart(c.params)
            case Err(e) => Run(Raised(e), [FirstRequest(c, Dispatch(c.httpMethod, c.data).value)], server[1..])
            case Ok(q) =>
              Resume(Nested(Lookup(server[0].body, c.dataType).items, server[0].headers),
                     [FirstRequest(c, Dispatch(c.httpMethod, c.data).value)],
                     Execute(c.(params := Some(q)), server[1..]))
  {
  }

  /** A 307: the call fails without parameters, and otherwise hands over to the paginated retry. */
  lemma RetryStep(c: Call, server: seq<Response>)
    requires HasCredentials(c.credentials) && Dispatch(c.httpMethod, c.data).Some?
    requires server != [] && server[0].status == 307
    ensures Execute(c, server)
         == if c.params.None? then Run(Raised(TypeError), [FirstRequest(c, Dispatch(c.httpMethod, c.data).value)], server[1..])
            else Resume(Nested([], server[0].headers), [FirstRequest(c, Dispatch(c.httpMethod, c.data).value)],
                        Execute(c.(params := Some(Paginate(c.params.value))), server[1..]))
  {
  }

  /** A full 206 page for parameters without "start" raises KeyError after the first request. */
  lemma MissingStartRaises(c: Call, server: seq<Response>)
    requires HasCredentials(c.credentials) && Dispatch(c.httpMethod, c.data).Some?
    requires server != [] && server[0].status == 206 && FullPage(Lookup(server[0].body, c.dataType))
    requires c.params.Some? && "start" !in Keys(c.params.value)
    ensures Execute(c, server)
         == Run(Raised(KeyError), [FirstRequest(c, Dispatch(c.httpMethod, c.data).value)], server[1..])
  {
    GetFindsKeys(c.params.value, "start");
    FullPageStep(c, server);
  }

  /** The last page: the call returns its list. */
  lemma LastPageStep(c: Call, server: seq<Response>)
    requires HasCredentials(c.credentials) && Dispatch(c.httpMethod, c.data).Some?
    requires server != [] && LastPage(server[0], c.dataType)
    ensures Execute(c, server)
         == Run(Returned(Report(server[0].headers, Lookup(server[0].body, c.dataType))),
                [FirstRequest(c, Dispatch(c.httpMethod, c.data).value)], server[1..])
  {
  }

  /** The payload of a response as a list of items; anything else contributes nothing. */
  function ItemsOf(d: Data): (r: seq<Item>) {
    if d.List? then d.items else []
  }

  /** The items of a run of pages, concatenated in the order they arrived. */
  function Collected(pages: seq<Response>, dataType: Option<string>): (r: seq<Item>) {
    if pages == [] then [] else ItemsOf(Lookup(pages[0].body, dataType)) + Collected(pages[1..], dataType)
  }

  /** The parameters of the page that starts at `m`. */
  function StartAt(p: Params, m: int): (r: Params) {
    Put(p, "start", Int(m))
  }

  /** The request for the page that starts at `m`. */
  function PageRequest(endpoint: string, verb: Verb, p: Params, m: int): (r: Sent) {
    Sent(verb, endpoint, Some(StartAt(p, m)))
  }

  /** The requests for `count` consecutive pages, the first starting at `m`. */
  function PageRequests(endpoint: string, verb: Verb, p: Params, m: int, count: nat): (r: seq<Sent>)
    ensures |r| == count
    ensures forall i :: 0 <= i < count ==> r[i] == PageRequest(endpoint, verb, p, m + PageSize * i)
  {
    seq(count, i requires 0 <= i < count => PageRequest(endpoint, verb, p, m + PageSize * i))
  }

  /** The first k responses are 206 with exactly 1000 items. */
  predicate FullPages(server: seq<Response>, k: nat, dataType: Option<string>)
    requires k <= |server|
  {
    forall i :: 0 <= i < k ==> server[i].status == 206 && FullPage(Lookup(server[i].body, dataType))
  }

  /** A response that ends the paging with a list: a 200, or a 206 with fewer or more than 1000 items. */
  predicate LastPage(r: Response, dataType: Option<string>) {
    Lookup(r.body, dataType).List?
    && (r.status == 200 || (r.status == 206 && !FullPage(Lookup(r.body, dataType))))
  }

  /** Advancing "start" and then asking for pages gives the same requests as asking for one more page first. */
  lemma PageRequestsShift(endpoint: string, verb: Verb, p: Params, n: int, k: nat)
    ensures [PageRequest(endpoint, verb, p, n)]
            + PageRequests(endpoint, verb, Put(p, "start", Int(n + PageSize)), n + PageSize, k)
         == PageRequests(endpoint, verb, p, n, k + 1)
  {
    var p' := Put(p, "start", Int(n + PageSize));
    var later := PageRequests(endpoint, verb, p', n + PageSize, k);
    forall i | 0 <= i < k
      ensures later[i] == PageRequest(endpoint, verb, p, n + PageSize * (i + 1))
    {
      var m := n + PageSize + PageSize * i;
      assert m == n + PageSize * (i + 1);
      PutPut(p, "start", Int(n + PageSize), Int(m));
      assert StartAt(p', m) == StartAt(p, m);
      assert later[i] == PageRequest(endpoint, verb, p', m);
      assert PageRequest(endpoint, verb, p', m) == PageRequest(endpoint, verb, p, m);
    }
  }

  /**
   * Paging: after k full 206 pages and a last page, the call returns every
   * item of every page in order, under the first response's headers; it sent
   * k + 1 requests whose "start" advanced by 1000 each time from its
   * original value, the other parameters unchanged, and it read exactly
   * k + 1 responses.
   */
  lemma {:induction false} PagesConcatenate(c: Call, server: seq<Response>, k: nat, n: int)
    requires HasCredentials(c.credentials) && Dispatch(c.httpMethod, c.data).Some?
    requires c.params.Some? && Get(c.params.value, "start") == Some(Int(n))
    requires k < |server| && FullPages(server, k, c.dataType) && LastPage(server[k], c.dataType)
    ensures Execute(c, server)
         == Run(Returned(Report(server[0].headers, List(Collected(server[..k + 1], c.dataType)))),
                PageRequests(c.endpoint, Dispatch(c.httpMethod, c.data).value, c.params.value, n, k + 1),
                server[k + 1..])
    decreases k
  {
    var p, verb := c.params.value, Dispatch(c.httpMethod, c.data).value;
    var s := FirstRequest(c, verb);
    assert s == PageRequest(c.endpoint, verb, p, n) by {
      PutSame(p, "start", Int(n));
    }
    var items := Lookup(server[0].body, c.dataType).items;
    assert Collected(server[..k + 1], c.dataType) == items + Collected(server[1..k + 1], c.dataType) by {
      assert server[..k + 1][1..] == server[1..k + 1];
    }
    if k == 0 {
      LastPageStep(c, server);
      assert Collected(server[..1], c.dataType) == items;
      assert [s] == PageRequests(c.endpoint, verb, p, n, 1);
    } else {
      var p' := Put(p, "start", Int(n + PageSize));
      var c' := c.(params := Some(p'));
      var inner := Execute(c', server[1..]);
      assert inner == Run(Returned(Report(server[1].headers, List(Collected(server[1..k + 1], c.dataType)))),
                          PageRequests(c.endpoint, verb, p', n + PageSize, k), server[k + 1..]) by {
        assert server[1..][..k] == server[1..k + 1];
        assert server[1..][k..] == server[k + 1..];
        PagesConcatenate(c', server[1..], k - 1, n + PageSize);
      }
      assert Execute(c, server) == Resume(Nested(items, server[0].headers), [s], inner) by {
        assert NextStart(c.params) == Ok(p');
        FullPageStep(c, server);
      }
      assert Resume(Nested(items, server[0].headers), [s], inner)
          == Run(Returned(Report(server[0].headers, List(items + Collected(server[1..k + 1], c.dataType)))),
                 [s] + PageRequests(c.endpoint, verb, p', n + PageSize, k), server[k + 1..]);
      PageRequestsShift(c.endpoint, verb, p, n, k);
    }
  }

  /** The number of items paging collects: 1000 for each full page, then the last page's. */
  lemma {:induction false} CollectedLength(server: seq<Response>, k: nat, dataType: Option<string>)
    requires k < |server| && FullPages(server, k, dataType) && LastPage(server[k], dataType)
    ensures |Collected(server[..k + 1], dataType)| == PageSize * k + |Lookup(server[k].body, dataType).items|
    decreases k
  {
    assert server[..k + 1][1..] == server[1..][..k];
    if k > 0 {
      CollectedLength(server[1..], k - 1, dataType);
    }
  }

  /**
   * A 307 is retried once with "start" 0 and "maxResults" 1000 added to the
   * parameters; the call returns what the retry returns, under the 307
   * response's headers, and fails as the retry fails.
   */
  lemma RetryOn307(c: Call, server: seq<Response>)
    requires HasCredentials(c.credentials) && Dispatch(c.httpMethod, c.data).Some?
    requires server != [] && server[0].status == 307 && c.params.Some?
    ensures var retry := Execute(c.(params := Some(Paginate(c.params.value))), server[1..]);
      var run := Execute(c, server);
      && run.sent == [FirstRequest(c, Dispatch(c.httpMethod, c.data).value)] + retry.sent
      && |retry.sent| >= 1 && retry.sent[0].params == Some(Paginate(c.params.value))
      && run.rest == retry.rest
      && (retry.outcome.Returned? && retry.outcome.envelope.data.List? ==>
            run.outcome == Returned(Report(server[0].headers, retry.outcome.envelope.data)))
      && (retry.outcome.Raised? ==> run.outcome == retry.outcome)
  {
    var c' := c.(params := Some(Paginate(c.params.value)));
    RetryStep(c, server);
    SendsFirstRequest(c', server[1..]);
    var retry := Execute(c', server[1..]);
    if retry.outcome.Returned? && retry.outcome.envelope.data.List? {
      assert [] + retry.outcome.envelope.data.items == retry.outcome.envelope.data.items;
    }
  }

  /**
   * Python's binding of the keyword arguments of the nested calls at
   * call.py:52 and call.py:58, `get_content(endpoint, method=..,
   * data_type=.., data=.., **kwargs)`: every key must name a parameter not
   * already given, and `parameters` and `credentials` must both be among them.
   */
  function KeywordCall(kwargs: Params): (r: Result<(), Failure>)
    ensures r.Ok? ==> "parameters" in Keys(kwargs) && "credentials" in Keys(kwargs)
    ensures "start" in Keys(kwargs) ==> r == Err(TypeError)
  {
    if forall k | k in Keys(kwargs) :: k == "parameters" || k == "credentials" then
      if "parameters" in Keys(kwargs) && "credentials" in Keys(kwargs) then Ok(()) else Err(TypeError)
    else Err(TypeError)
  }

  /**
   * `get_content` as written: a follow-up call passes the page's parameters
   * as keyword arguments and no credentials.
   */
  function ExecuteAsWritten(c: Call, server: seq<Response>): (r: Run)
    decreases |server|
  {
    match Once(c, server)
    case Done(run) => run
    case Follow(frame, s, next, rest) =>
      match KeywordCall(next.params.value)
      case Err(e) => Run(Enclose(frame, Raised(e)), [s], rest)
      case Ok(_) => Resume(frame, [s], ExecuteAsWritten(next, rest))
  }

  /**
   * As written, every call that should follow a full 206 page or a 307
   * raises TypeError after its first request, since the follow-up's
   * parameters always hold "start", which is not a parameter of
   * `get_content`.
   */
  lemma AsWrittenFollowUpRaises(c: Call, server: seq<Response>)
    requires Once(c, server).Follow?
    ensures ExecuteAsWritten(c, server)
         == Run(Raised(TypeError), [Once(c, server).sent], server[1..])
  {
    var next := Once(c, server).next;
    GetFindsKeys(next.params.value, "start");
  }

  /** Two pages, 1000 items then one: the corrected call returns all 1001; as written it raises. */
  lemma TwoPagesCounterexample()
    ensures var creds := map["mkm_app_token" := "a", "mkm_app_secret" := "b",
                             "mkm_access_token" := "c", "mkm_token_secret" := "d"];
      var c := Call("/articles/1", Some([("start", Int(0))]), creds, "GET", Some("article"), None);
      var page := Response(206, map["article" := List(seq(1000, i => "x"))], map[]);
      var last := Response(206, map["article" := List(["y"])], map[]);
      && ExecuteAsWritten(c, [page, last]).outcome == Raised(TypeError)
      && Execute(c, [page, last]).outcome.Returned?
      && |Execute(c, [page, last]).outcome.envelope.data.items| == 1001
  {
    var creds := map["mkm_app_token" := "a", "mkm_app_secret" := "b",
                      "mkm_access_token" := "c", "mkm_token_secret" := "d"];
    var c := Call("/articles/1", Some([("start", Int(0))]), creds, "GET", Some("article"), None);
    var page := Response(206, map["article" := List(seq(1000, i => "x"))], map[]);
    var last := Response(206, map["article" := List(["y"])], map[]);
    var server := [page, last];
    assert FullPages(server, 1, c.dataType);
    PagesConcatenate(c, server, 1, 0);
    CollectedLength(server, 1, c.dataType);
    assert Once(c, server).Follow?;
    AsWrittenFollowUpRaises(c, server);
  }
}
