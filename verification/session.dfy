/**
 * `CardMarketSession` (cardmarket_api/session.py): the API calls a session
 * offers, each a builder of a request descriptor that the `api_request`
 * wrapper (cardmarket_api/call.py) hands to `get_content`, and the two
 * rate-limit fields the wrapper overwrites after every call.
 */
module Session {
  import opened Wrappers
  import opened Strings
  import opened Atoms
  import opened Dicts
  import opened PercentEncoding
  import opened Query
  import opened Executor
  import opened Pagination
  import opened XmlEncoder

  /** The dictionary a decorated method returns; a key it leaves out is None. */
  datatype Descriptor = Descriptor(endpoint: string, dataType: Option<string>, parameters: Option<Params>,
                                   httpMethod: Option<string>, data: Option<string>)

  /** The decorated methods of a session, with their arguments. */
  datatype Operation =
    | MetaproductInfo(metaproductId: Atom)
    | ProductInfo(productId: Atom)
    | ProductsByName(cardName: Atom, exact: Atom, idLanguage: Atom)
    | ArticlesForSale(articleProductId: Atom)
    | AllProductsFile
    | AllExpansions
    | Wantlists
    | CardsFromWantlist(wantlistId: Atom)
    | ShoppingCart

  /** A descriptor with only an endpoint and, possibly, a data type. */
  function Fetch(endpoint: string, dataType: Option<string>): (r: Descriptor) {
    Descriptor(endpoint, dataType, None, None, None)
  }

  /** `get_products_by_name(card_name, exact=False, id_language=1)`: the default arguments. */
  function ProductsByNameDefaults(cardName: Atom): (r: Operation) {
    ProductsByName(cardName, Bool(false), Int(1))
  }

  /** The descriptor each decorated method returns (session.py:21-50, 58-89). */
  function Describe(op: Operation): (r: Descriptor) {
    match op
    case MetaproductInfo(id) => Fetch("/metaproduct/" + Render(id), Some("metaproduct"))
    case ProductInfo(id) => Fetch("/products/" + Render(id), Some("product"))
    case ProductsByName(cardName, exact, idLanguage) =>
      Descriptor("/products/find", Some("product"),
                 Some([("search", cardName), ("exact", exact), ("idGame", Int(1)), ("idLanguage", idLanguage)]),
                 None, None)
    case ArticlesForSale(id) => Fetch("/articles/" + Render(id), Some("article"))
    case AllProductsFile => Fetch("/productlist", Some("productsfile"))
    case AllExpansions => Fetch("/games/1/expansions", None)
    case Wantlists => Fetch("/wantslist", Some("wantslist"))
    case CardsFromWantlist(id) => Fetch("/wantslist/" + Render(id), Some("want"))
    case ShoppingCart => Fetch("/shoppingcart", None)
  }

  /** The call the wrapper makes: a missing method is "GET", anything else missing is None (call.py:71-76). */
  function ToCall(desc: Descriptor, credentials: map<string, string>): (r: Call) {
    Call(desc.endpoint, desc.parameters, credentials, desc.httpMethod.GetOr("GET"), desc.dataType, desc.data)
  }

  /** The operations whose endpoint is a fixed prefix followed by an id. */
  predicate ById(op: Operation) {
    op.MetaproductInfo? || op.ProductInfo? || op.ArticlesForSale? || op.CardsFromWantlist?
  }

  function IdOf(op: Operation): (r: Atom)
    requires ById(op)
  {
    match op
    case MetaproductInfo(id) => id
    case ProductInfo(id) => id
    case ArticlesForSale(id) => id
    case CardsFromWantlist(id) => id
  }

  function Prefix(op: Operation): (r: string)
    requires ById(op)
  {
    match op
    case MetaproductInfo(_) => "/metaproduct/"
    case ProductInfo(_) => "/products/"
    case ArticlesForSale(_) => "/articles/"
    case CardsFromWantlist(_) => "/wantslist/"
  }

  /**
   * Every call a session offers is a GET without a body: the wrapper's
   * defaults apply, and the request is always issued, never the False
   * sentinel.
   */
  lemma EveryOperationIsGet(op: Operation, credentials: map<string, string>)
    ensures Describe(op).httpMethod.None? && Describe(op).data.None?
    ensures ToCall(Describe(op), credentials).httpMethod == "GET"
    ensures Dispatch(ToCall(Describe(op), credentials).httpMethod, ToCall(Describe(op), credentials).data) == Some(GET)
  {
  }

  /**
   * With its credentials, a session's call sends a GET for the operation's
   * endpoint and parameters first, and never ends with the sentinel.
   */
  lemma SessionCallSendsGet(op: Operation, credentials: map<string, string>, server: seq<Response>)
    requires HasCredentials(credentials)
    ensures var run := Execute(ToCall(Describe(op), credentials), server);
      && run.outcome != Sentinel
      && run.sent != []
      && run.sent[0] == Sent(GET, Describe(op).endpoint, Describe(op).parameters)
  {
    var c := ToCall(Describe(op), credentials);
    EveryOperationIsGet(op, credentials);
    SendsFirstRequest(c, server);
    match Once(c, server)
    case Done(run) =>
    case Follow(frame, s, next, rest) =>
      assert Execute(c, server) == Resume(frame, [s], Execute(next, rest));
  }

  /**
   * An id-based endpoint is its prefix followed by the id's decimal form, so
   * a non-negative id can be read back from it, and the data type is the
   * one that prefix goes with.
   */
  lemma {:induction false} IdEndpointRoundTrip(op: Operation, n: nat)
    requires ById(op) && IdOf(op) == Int(n)
    ensures |Describe(op).endpoint| > |Prefix(op)|
    ensures Describe(op).endpoint[..|Prefix(op)|] == Prefix(op)
    ensures DigitsValue(Describe(op).endpoint[|Prefix(op)|..]) == n
    ensures Describe(op).dataType == Some(match op
      case MetaproductInfo(_) => "metaproduct"
      case ProductInfo(_) => "product"
      case ArticlesForSale(_) => "article"
      case CardsFromWantlist(_) => "want")
  {
    var e := Describe(op).endpoint;
    assert e == Prefix(op) + NatToString(n);
    assert e[|Prefix(op)|..] == NatToString(n);
    NatToStringRoundTrip(n);
  }

  /** Two calls of the same id-based kind share an endpoint only when their integer ids are equal. */
  lemma IdEndpointInjective(op: Operation, op': Operation, a: int, b: int)
    requires ById(op) && ById(op') && Prefix(op) == Prefix(op')
    requires IdOf(op) == Int(a) && IdOf(op') == Int(b)
    ensures Describe(op).endpoint == Describe(op').endpoint <==> a == b
  {
    var p := Prefix(op);
    assert Describe(op).endpoint == p + IntToString(a);
    assert Describe(op').endpoint == p + IntToString(b);
    if Describe(op).endpoint == Describe(op').endpoint {
      assert IntToString(a) == (p + IntToString(a))[|p|..];
      assert IntToString(b) == (p + IntToString(b))[|p|..];
      IntToStringInjective(a, b);
    }
  }

  /**
   * The products-by-name query: `exact`, `idGame` (always 1), `idLanguage`
   * and `search`, in that ascending key order, the name encoded with
   * `quote_plus`.
   */
  lemma ProductsByNameQuery(cardName: Atom, exact: Atom, idLanguage: Atom)
    ensures Describe(ProductsByName(cardName, exact, idLanguage)).parameters.Some?
    ensures QueryString(Describe(ProductsByName(cardName, exact, idLanguage)).parameters.value)
         == Join('&', ["exact=" + QuotePlus(Render(exact)), "idGame=1",
                       "idLanguage=" + QuotePlus(Render(idLanguage)), "search=" + QuotePlus(Render(cardName))])
  {
    var sorted := [("exact", exact), ("idGame", Int(1)), ("idLanguage", idLanguage), ("search", cardName)];
    ProductsByNameSorted(cardName, exact, idLanguage);
    var parts := ["exact=" + QuotePlus(Render(exact)), "idGame=1",
                  "idLanguage=" + QuotePlus(Render(idLanguage)), "search=" + QuotePlus(Render(cardName))];
    assert Pairs(sorted) == parts by {
      assert "exact" + "=" == "exact=" && "idGame" + "=" == "idGame=";
      assert "idLanguage" + "=" == "idLanguage=" && "search" + "=" == "search=";
      assert Pair(sorted[1]) == "idGame=1" by {
        assert Render(Int(1)) == "1";
        QuotePlusKeepsUnreserved("1");
      }
      assert Pair(sorted[0]) == parts[0] && Pair(sorted[2]) == parts[2] && Pair(sorted[3]) == parts[3];
    }
  }

  /** The product search's parameters sorted by key. */
  lemma ProductsByNameSorted(cardName: Atom, exact: Atom, idLanguage: Atom)
    ensures SortByKey([("search", cardName), ("exact", exact), ("idGame", Int(1)), ("idLanguage", idLanguage)])
         == [("exact", exact), ("idGame", Int(1)), ("idLanguage", idLanguage), ("search", cardName)]
  {
    var p := [("search", cardName), ("exact", exact), ("idGame", Int(1)), ("idLanguage", idLanguage)];
    var sorted := [("exact", exact), ("idGame", Int(1)), ("idLanguage", idLanguage), ("search", cardName)];
    assert Less("exact", "idGame") && Less("idGame", "idLanguage");
    assert !Less("search", "exact") && !Less("search", "idGame") && !Less("search", "idLanguage");
    assert SortByKey(p[3..]) == [("idLanguage", idLanguage)];
    assert SortByKey(p[2..]) == [("idGame", Int(1)), ("idLanguage", idLanguage)];
    assert SortByKey(p[1..]) == sorted[..3];
    var e := ("search", cardName);
    assert Insert(e, sorted[3..3]) == [e];
    assert Insert(e, sorted[2..3]) == sorted[2..];
    assert Insert(e, sorted[1..3]) == sorted[1..];
    assert Insert(e, sorted[..3]) == sorted;
  }

  /**
   * `get_products_by_name(card_name)` with its default arguments asks for
   * the card in English (`idLanguage` 1), not as an exact match, and those
   * defaults appear in the query verbatim as `exact=False` and `idLanguage=1`.
   */
  lemma DefaultsQuoteVerbatim(cardName: Atom)
    ensures Describe(ProductsByNameDefaults(cardName)).parameters
         == Some([("search", cardName), ("exact", Bool(false)), ("idGame", Int(1)), ("idLanguage", Int(1))])
    ensures Describe(ProductsByNameDefaults(cardName)).endpoint == "/products/find"
    ensures QuotePlus(Render(Bool(false))) == "False"
    ensures QuotePlus(Render(Int(1))) == "1"
  {
    assert Render(Int(1)) == "1";
    forall i | 0 <= i < 5 ensures "False"[i] as int < 0x80 && Unreserved("False"[i] as int) {
    }
    QuotePlusKeepsUnreserved("False");
    QuotePlusKeepsUnreserved("1");
  }

  /**
   * The calls that set no data type look up the key None in the response,
   * so a 200 response always yields None as data.
   */
  lemma NoDataTypeYieldsNull(op: Operation, credentials: map<string, string>, server: seq<Response>)
    requires op.AllExpansions? || op.ShoppingCart?
    requires HasCredentials(credentials) && server != [] && server[0].status == 200
    ensures Execute(ToCall(Describe(op), credentials), server).outcome.Returned?
    ensures Execute(ToCall(Describe(op), credentials), server).outcome.envelope.data == Data.Null
  {
    EveryOperationIsGet(op, credentials);
    Status200(ToCall(Describe(op), credentials), server);
  }

  /**
   * Every call but the product search passes no parameters, so even with the
   * nested calls corrected it cannot follow a 307 or a full 206 page: building
   * the retry's `{**None, ...}` or indexing None with "start" raises
   * TypeError after the first request.
   */
  lemma NoParametersCannotPage(op: Operation, credentials: map<string, string>, server: seq<Response>)
    requires !op.ProductsByName?
    requires HasCredentials(credentials) && server != []
    requires server[0].status == 307
          || (server[0].status == 206 && FullPage(Lookup(server[0].body, Describe(op).dataType)))
    ensures Describe(op).parameters.None?
    ensures Execute(ToCall(Describe(op), credentials), server)
         == Run(Raised(TypeError), [Sent(GET, Describe(op).endpoint, None)], server[1..])
  {
    var c := ToCall(Describe(op), credentials);
    EveryOperationIsGet(op, credentials);
    if server[0].status == 307 {
      RetryStep(c, server);
    } else {
      FullPageStep(c, server);
    }
  }

  /**
   * The product search has parameters but no "start", so a full 206 page
   * raises KeyError at `parameters["start"]` after the first request, while
   * a 307 is retried with the paginated parameters.
   */
  lemma ProductsByNameFullPage(op: Operation, credentials: map<string, string>, server: seq<Response>)
    requires op.ProductsByName?
    requires HasCredentials(credentials) && server != [] && server[0].status == 206
    requires FullPage(Lookup(server[0].body, Some("product")))
    ensures Execute(ToCall(Describe(op), credentials), server)
         == Run(Raised(KeyError), [Sent(GET, "/products/find", Describe(op).parameters)], server[1..])
  {
    assert Keys(Describe(op).parameters.value) == ["search", "exact", "idGame", "idLanguage"];
    EveryOperationIsGet(op, credentials);
    MissingStartRaises(ToCall(Describe(op), credentials), server);
  }

  /** A session: its credentials and the rate-limit values of its last completed call. */
  class CardMarketSession {
    const credentials: map<string, string>
    var requestCount: Field
    var expires: Field

    /** A new session: the four tokens under their names, no call made yet (count 0, no expiry). */
    constructor (appToken: string, appSecret: string, accessToken: string, tokenSecret: string)
      ensures credentials == map["mkm_app_token" := appToken, "mkm_app_secret" := appSecret,
                                 "mkm_access_token" := accessToken, "mkm_token_secret" := tokenSecret]
      ensures HasCredentials(credentials)
      ensures requestCount == Zero && expires == Unset
    {
      credentials := map["mkm_app_token" := appToken, "mkm_app_secret" := appSecret,
                         "mkm_access_token" := accessToken, "mkm_token_secret" := tokenSecret];
      requestCount := Zero;
      expires := Unset;
    }

    /**
     * A decorated method called on this session: the descriptor goes to
     * `get_content`; on success the two rate-limit fields take the values
     * it returned and only the data is given back; the sentinel fails when
     * it is indexed, and an exception passes through; in both cases the
     * fields keep their values.
     */
    method Call(op: Operation, server: seq<Response>) returns (result: Result<Data, Failure>, run: Run)
      modifies this
      ensures run == Execute(ToCall(Describe(op), credentials), server)
      ensures match run.outcome
        case Returned(env) =>
          result == Ok(env.data) && requestCount == env.requestCount && expires == env.expires
        case Sentinel =>
          result == Err(TypeError) && requestCount == old(requestCount) && expires == old(expires)
        case Raised(e) =>
          result == Err(e) && requestCount == old(requestCount) && expires == old(expires)
    {
      run := GetContent(ToCall(Describe(op), credentials), server);
      match run.outcome {
        case Returned(env) =>
          requestCount := env.requestCount;
          expires := env.expires;
          result := Ok(env.data);
        case Sentinel =>
          result := Err(TypeError);
        case Raised(e) =>
          result := Err(e);
      }
    }

    /**
     * `construct_xml(dict_list)` up to serialisation: a root named
     * "request" to which each dict's encoding is appended in turn.
     */
    static method ConstructXml(ds: seq<seq<(string, Value)>>) returns (root: Node)
      requires forall i :: 0 <= i < |ds| ==> Encodable(Map(ds[i]))
      ensures root == Node("request", None, EncodeAll(ds))
    {
      root := Node("request", None, []);
      for i := 0 to |ds|
        invariant root == Node("request", None, EncodeAll(ds[..i]))
      {
        var grown, _ := DictToXml(root, ds[i]);
        root := grown;
        assert ds[..i + 1][..i] == ds[..i];
      }
      assert ds[..|ds|] == ds;
    }
  }

  /** After a successful call the session holds the first response's rate-limit headers, defaulting to 0. */
  lemma SessionHoldsFirstHeaders(op: Operation, credentials: map<string, string>, server: seq<Response>)
    requires Execute(ToCall(Describe(op), credentials), server).outcome.Returned?
    ensures server != []
    ensures var env := Execute(ToCall(Describe(op), credentials), server).outcome.envelope;
      && env.requestCount == HeaderField(server[0].headers, RequestCountHeader)
      && env.expires == HeaderField(server[0].headers, ExpiresHeader)
      && env.requestCount != Unset && env.expires != Unset
  {
    HeadersFromFirstResponse(ToCall(Describe(op), credentials), server);
  }
}
