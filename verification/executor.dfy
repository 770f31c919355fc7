/**
 * `get_content` (cardmarket_api/call.py): one signed request, the reading
 * of its status code and headers, and the follow-up requests it makes for
 * partial (206) and too-large (307) results.
 *
 * HTTP is replaced by a server given as the finite sequence of responses it
 * will send, one per request, so that every chain of follow-up requests ends.
 */
module Executor {
  import opened Wrappers
  import opened Strings
  import opened Atoms
  import opened Dicts
  import opened Query

  /** The largest page the marketplace sends. */
  const PageSize := 1000

  const RequestCountHeader := "X-Request-Limit-Count"
  const ExpiresHeader := "Expires"

  datatype Verb = GET | POST | PUT | DELETE

  /** One element of a JSON payload, kept opaque. */
  type Item = string

  /** The value found under the expected key of a JSON body. */
  datatype Data = Null | List(items: seq<Item>) | Other(item: Item)

  /**
   * An HTTP response: its status, its parsed JSON object and its headers,
   * keyed by lower-case name as `requests` stores them.
   */
  datatype Response = Response(status: int, body: map<string, Data>, headers: map<string, string>)

  /** A rate-limit value: None, the integer 0 used as a default, or a header's text. */
  datatype Field = Unset | Zero | Header(text: string)

  /** The dictionary `get_content` returns. */
  datatype Envelope = Envelope(data: Data, requestCount: Field, expires: Field)

  /** The exceptions the modelled paths can raise; NoResponse stands for a failed connection. */
  datatype Failure = TypeError | KeyError | NoResponse

  /** What a call to `get_content` ends with: `False`, a returned envelope, or an exception. */
  datatype Outcome = Sentinel | Returned(envelope: Envelope) | Raised(error: Failure)

  /** The arguments of `get_content`. */
  datatype Call = Call(endpoint: string, params: Option<Params>, credentials: map<string, string>,
                       httpMethod: string, dataType: Option<string>, data: Option<string>)

  /**
   * A request put on the wire: its verb, its endpoint and its parameters,
   * which determine its URL and the realm it is signed for.
   */
  datatype Sent = Sent(verb: Verb, endpoint: string, params: Option<Params>)

  /** The URL a request is sent to (call.py:16, 25-27). */
  function RequestUrl(base: string, s: Sent): (r: string) {
    Url(base, s.endpoint, s.params)
  }

  /** The OAuth realm a request is signed for: its URL without the query string (call.py:16-22). */
  function SignedRealm(base: string, s: Sent): (r: string) {
    Realm(base, s.endpoint)
  }

  /**
   * The realm a request is signed for is its URL up to the `?`, and the URL
   * has a query string exactly when the request has truthy parameters.
   */
  lemma RealmPrefixesUrl(base: string, s: Sent)
    requires '?' !in base && '?' !in s.endpoint
    ensures |SignedRealm(base, s)| <= |RequestUrl(base, s)|
    ensures RequestUrl(base, s)[..|SignedRealm(base, s)|] == SignedRealm(base, s)
    ensures '?' !in SignedRealm(base, s)
    ensures ('?' in RequestUrl(base, s)) <==> Truthy(s.params)
    ensures Truthy(s.params) ==> RequestUrl(base, s)[|SignedRealm(base, s)|] == '?'
  {
    QueryMarkIffParams(base, s.endpoint, s.params);
    assert '?' !in "/output.json";
  }

  /** A whole call: its outcome, the requests it sent in order, and the responses left unread. */
  datatype Run = Run(outcome: Outcome, sent: seq<Sent>, rest: seq<Response>)

  /** The four tokens the signature is built from (call.py:18-21); a missing one raises KeyError. */
  predicate HasCredentials(credentials: map<string, string>) {
    "mkm_app_token" in credentials && "mkm_app_secret" in credentials
    && "mkm_access_token" in credentials && "mkm_token_secret" in credentials
  }

  /** Python's truth value of the request body: None and the empty body are false. */
  predicate TruthyData(data: Option<string>) {
    data.Some? && data.value != []
  }

  function VerbName(v: Verb): (r: string) {
    match v
    case GET => "GET"
    case POST => "POST"
    case PUT => "PUT"
    case DELETE => "DELETE"
  }

  /** Which request is issued, if any (call.py:29-39). */
  function Dispatch(httpMethod: string, data: Option<string>): (v: Option<Verb>)
    ensures v.Some? <==> httpMethod == "GET" || httpMethod == "DELETE"
                         || ((httpMethod == "POST" || httpMethod == "PUT") && TruthyData(data))
    ensures v.Some? ==> VerbName(v.value) == httpMethod
  {
    if httpMethod == "GET" then Some(GET)
    else if httpMethod == "POST" && TruthyData(data) then Some(POST)
    else if httpMethod == "PUT" && TruthyData(data) then Some(PUT)
    else if httpMethod == "DELETE" then Some(DELETE)
    else None
  }

  /**
   * `body.get(data_type, None)`. A JSON object's keys are strings, so looking
   * up the key None never finds anything.
   */
  function Lookup(body: map<string, Data>, dataType: Option<string>): (d: Data)
    ensures dataType.None? ==> d == Null
    ensures dataType.Some? && dataType.value !in body ==> d == Null
    ensures dataType.Some? && dataType.value in body ==> d == body[dataType.value]
  {
    match dataType
    case None => Null
    case Some(k) => if k in body then body[k] else Null
  }

  /**
   * `headers.get(name, 0)`. Response headers are keyed by their lower-case
   * names, so the lookup ignores the case of `name`.
   */
  function HeaderField(headers: map<string, string>, name: string): (f: Field)
    ensures f != Unset
    ensures f == Zero <==> Lower(name) !in headers
    ensures Lower(name) in headers ==> f == Header(headers[Lower(name)])
  {
    if Lower(name) in headers then Header(headers[Lower(name)]) else Zero
  }

  /** The envelope a call returns: its data and the rate-limit headers of its own response (call.py:61-64). */
  function Report(headers: map<string, string>, data: Data): (r: Envelope) {
    Envelope(data, HeaderField(headers, RequestCountHeader), HeaderField(headers, ExpiresHeader))
  }

  /** `content and len(content) == 1000` for the data of a 206 response. */
  predicate FullPage(d: Data) {
    d.List? && |d.items| == PageSize
  }

  /** Python's `+` on the value stored under "start" (a bool counts as 0 or 1, a str cannot be added to). */
  function AsInt(a: Atom): (r: Option<int>) {
    match a
    case Int(i) => Some(i)
    case Bool(b) => Some(if b then 1 else 0)
    case Str(_) => None
  }

  /** `parameters["start"] += 1000` (call.py:51). */
  function NextStart(p: Option<Params>): (r: Result<Params, Failure>)
    ensures p.None? ==> r == Err(TypeError)
    ensures p.Some? && Get(p.value, "start").None? ==> r == Err(KeyError)
    ensures r.Ok? <==> p.Some? && Get(p.value, "start").Some? && AsInt(Get(p.value, "start").value).Some?
  {
    match p
    case None => Err(TypeError)
    case Some(q) =>
      match Get(q, "start")
      case None => Err(KeyError)
      case Some(v) =>
        match AsInt(v)
        case None => Err(TypeError)
        case Some(n) => Ok(Put(q, "start", Int(n + PageSize)))
  }

  /** The follow-up's "start" is 1000 past the previous one; every other parameter is kept, in its place. */
  lemma NextStartAdvances(p: Params, n: int)
    requires Get(p, "start").Some? && AsInt(Get(p, "start").value) == Some(n)
    ensures NextStart(Some(p)).Ok?
    ensures var q := NextStart(Some(p)).value;
      && Get(q, "start") == Some(Int(n + PageSize))
      && (forall k :: k != "start" ==> Get(q, k) == Get(p, k))
      && Keys(q) == Keys(p)
      && (DistinctKeys(p) ==> DistinctKeys(q))
  {
    var q := Put(p, "start", Int(n + PageSize));
    assert NextStart(Some(p)) == Ok(q);
    GetFindsKeys(p, "start");
    PutKeys(p, "start", Int(n + PageSize));
    if DistinctKeys(p) {
      PutKeepsDistinct(p, "start", Int(n + PageSize));
    }
  }

  /**
   * `{**parameters, "start": 0, "maxResults": 1000}` (call.py:56-57).
   */
  function Paginate(p: Params): (r: Params) {
    Put(Put(p, "start", Int(0)), "maxResults", Int(PageSize))
  }

  /**
   * The retry's parameters: "start" is 0 and "maxResults" is 1000, every
   * other key keeps its value, and the original keys keep their order, the
   * pagination keys being added at the end when missing.
   */
  lemma PaginateOverrides(p: Params)
    ensures Get(Paginate(p), "start") == Some(Int(0))
    ensures Get(Paginate(p), "maxResults") == Some(Int(PageSize))
    ensures forall k :: k != "start" && k != "maxResults" ==> Get(Paginate(p), k) == Get(p, k)
    ensures |Paginate(p)| >= |p| && Keys(Paginate(p))[..|p|] == Keys(p)
    ensures DistinctKeys(p) ==> DistinctKeys(Paginate(p))
  {
    var p1 := Put(p, "start", Int(0));
    var p2 := Put(p1, "maxResults", Int(PageSize));
    assert |p2| >= |p| && Keys(p2)[..|p|] == Keys(p) by {
      PutKeys(p, "start", Int(0));
      PutKeys(p1, "maxResults", Int(PageSize));
      assert Keys(p1)[..|p|] == Keys(p);
      assert Keys(p2)[..|p1|] == Keys(p1);
    }
    if DistinctKeys(p) {
      PutKeepsDistinct(p, "start", Int(0));
      PutKeepsDistinct(p1, "maxResults", Int(PageSize));
    }
  }

  /**
   * The calls a request is nested in: none, or enclosing calls that have
   * collected `content` ahead of it and whose outermost response carried
   * `headers`.
   */
  datatype Frame = Top | Nested(content: seq<Item>, headers: map<string, string>)

  /** `content += get_content(...)["data"]` in the enclosing calls, then their `return`. */
  function Enclose(f: Frame, o: Outcome): (r: Outcome) {
    match f
    case Top => o
    case Nested(content, headers) =>
      match o
      case Returned(env) =>
        if env.data.List? then Returned(Report(headers, List(content + env.data.items)))
        else Raised(TypeError)
      case Sentinel => Raised(TypeError)
      case Raised(e) => Raised(e)
  }

  function Resume(f: Frame, sent: seq<Sent>, inner: Run): (r: Run) {
    Run(Enclose(f, inner.outcome), sent + inner.sent, inner.rest)
  }

  /** What one level of `get_content` does: finish, or send its request and hand over to a nested call. */
  datatype Level = Done(run: Run) | Follow(frame: Frame, sent: Sent, next: Call, rest: seq<Response>)

  function Once(c: Call, server: seq<Response>): (st: Level)
    ensures st.Follow? ==> server != [] && st.rest == server[1..] && st.frame.Nested?
    ensures st.Follow? ==> st.next == c.(params := st.next.params)
    ensures st.Follow? ==> st.frame.headers == server[0].headers
    ensures st.Follow? ==> st.next.params.Some? && Get(st.next.params.value, "start").Some?
  {
    if !HasCredentials(c.credentials) then Done(Run(Raised(KeyError), [], server))
    else match Dispatch(c.httpMethod, c.data)
      case None => Done(Run(Sentinel, [], server))
      case Some(verb) =>
        var s := Sent(verb, c.endpoint, c.params);
        if server == [] then Done(Run(Raised(NoResponse), [s], []))
        else
          var r, rest := server[0], server[1..];
          var data := Lookup(r.body, c.dataType);
          if r.status == 200 then Done(Run(Returned(Report(r.headers, data)), [s], rest))
          else if r.status == 206 then
            if !FullPage(data) then Done(Run(Returned(Report(r.headers, data)), [s], rest))
            else match NextStart(c.params)
              case Err(e) => Done(Run(Raised(e), [s], rest))
              case Ok(p) => Follow(Nested(data.items, r.headers), s, c.(params := Some(p)), rest)
          else if r.status == 307 then
            if c.params.None? then Done(Run(Raised(TypeError), [s], rest))
            else Follow(Nested([], r.headers), s, c.(params := Some(Paginate(c.params.value))), rest)
          else Done(Run(Returned(Report(r.headers, List([]))), [s], rest))
  }

  /** `get_content` with its nested calls made as intended: same endpoint, credentials, method, data_type and data. */
  function Execute(c: Call, server: seq<Response>): (r: Run)
    decreases |server|
  {
    match Once(c, server)
    case Done(run) => run
    case Follow(frame, s, next, rest) => Resume(frame, [s], Execute(next, rest))
  }

  /** `content += inner["data"]`: a list payload extends the content, anything else raises. */
  function Extend(content: seq<Item>, inner: Outcome): (r: Result<seq<Item>, Failure>) {
    match inner
    case Returned(env) => if env.data.List? then Ok(content + env.data.items) else Err(TypeError)
    case Sentinel => Err(TypeError)
    case Raised(e) => Err(e)
  }

  /**
   * `get_content` as a recursive procedure, statement by statement: the
   * request is dispatched, the response's status is read, the
   * nested call for the next page or the paginated retry extends the
   * content, and the envelope carries this response's rate-limit headers.
   */
  method GetContent(c: Call, server: seq<Response>) returns (run: Run)
    ensures run == Execute(c, server)
    decreases |server|
  {
    if !HasCredentials(c.credentials) {
      return Run(Raised(KeyError), [], server);
    }
    var verb := Dispatch(c.httpMethod, c.data);
    if verb.None? {
      return Run(Sentinel, [], server);
    }
    var s := Sent(verb.value, c.endpoint, c.params);
    if server == [] {
      return Run(Raised(NoResponse), [s], []);
    }
    var r, rest := server[0], server[1..];
    var sent := [s];
    var content := List([]);
    if r.status == 200 {
      content := Lookup(r.body, c.dataType);
    } else if r.status == 206 {
      content := Lookup(r.body, c.dataType);
      if FullPage(content) {
        var next := NextStart(c.params);
        if next.Err? {
          return Run(Raised(next.error), sent, rest);
        }
        var inner := GetContent(c.(params := Some(next.value)), rest);
        var extended := Extend(content.items, inner.outcome);
        if extended.Err? {
          return Run(Raised(extended.error), sent + inner.sent, inner.rest);
        }
        content, sent, rest := List(extended.value), sent + inner.sent, inner.rest;
      }
    } else if r.status == 307 {
      if c.params.None? {
        return Run(Raised(TypeError), sent, rest);
      }
      var inner := GetContent(c.(params := Some(Paginate(c.params.value))), rest);
      var extended := Extend([], inner.outcome);
      if extended.Err? {
        return Run(Raised(extended.error), sent + inner.sent, inner.rest);
      }
      content, sent, rest := List(extended.value), sent + inner.sent, inner.rest;
    }
    return Run(Returned(Report(r.headers, content)), sent, rest);
  }
}
