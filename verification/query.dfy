/**
 * The request URL of `get_content`: the API base, the JSON output segment,
 * the endpoint and, when there are parameters, a query string whose pairs
 * are ordered by key and whose values are `quote_plus(str(value))`.
 */
module Query {
  import opened Wrappers
  import opened Strings
  import opened Atoms
  import opened Dicts
  import opened PercentEncoding

  type Params = Dict<Atom>

  /** Python's truth value of the `parameters` argument: None and `{}` are false. */
  predicate Truthy(p: Option<Params>) {
    p.Some? && p.value != []
  }

  predicate StrictlyAscending(ks: seq<string>) {
    forall i, j :: 0 <= i < j < |ks| ==> Less(ks[i], ks[j])
  }

  /** Inserts one entry into a key-ascending list of entries. */
  function Insert(e: (string, Atom), sorted: Params): (r: Params)
    decreases |sorted|
  {
    if sorted == [] || Less(e.0, sorted[0].0) then [e] + sorted
    else [sorted[0]] + Insert(e, sorted[1..])
  }

  /** Inserting adds exactly the one entry. */
  lemma {:induction false} InsertPermutes(e: (string, Atom), sorted: Params)
    ensures multiset(Insert(e, sorted)) == multiset(sorted) + multiset{e}
    decreases |sorted|
  {
    if sorted != [] && !Less(e.0, sorted[0].0) {
      InsertPermutes(e, sorted[1..]);
      assert sorted == [sorted[0]] + sorted[1..];
    }
  }

  /** Every key of p is above k. */
  predicate Above(k: string, p: Params) {
    forall i :: 0 <= i < |p| ==> Less(k, p[i].0)
  }

  lemma AboveByMultiset(k: string, p: Params, q: Params)
    requires Above(k, p) && multiset(q) <= multiset(p)
    ensures Above(k, q)
  {
    forall i | 0 <= i < |q| ensures Less(k, q[i].0) {
      assert q[i] in multiset(p);
      var j :| 0 <= j < |p| && p[j] == q[i];
    }
  }

  lemma {:induction false} InsertAscending(e: (string, Atom), sorted: Params)
    requires forall i :: 0 <= i < |sorted| ==> e.0 != sorted[i].0
    requires StrictlyAscending(Keys(sorted))
    ensures StrictlyAscending(Keys(Insert(e, sorted)))
    decreases |sorted|
  {
    if sorted == [] {
    } else if Less(e.0, sorted[0].0) {
      forall i | 0 < i < |sorted| ensures Less(e.0, sorted[i].0) {
        LessTransitive(e.0, sorted[0].0, sorted[i].0);
      }
    } else {
      LessTotal(e.0, sorted[0].0);
      var tail := sorted[1..];
      InsertAscending(e, tail);
      var rest := Insert(e, tail);
      InsertPermutes(e, tail);
      var k := sorted[0].0;
      assert Above(k, tail + [e]);
      assert multiset(rest) == multiset(tail + [e]);
      AboveByMultiset(k, tail + [e], rest);
      var r := Insert(e, sorted);
      assert r == [sorted[0]] + rest;
      forall i, j | 0 <= i < j < |r| ensures Less(Keys(r)[i], Keys(r)[j]) {
        if i > 0 {
          assert Keys(r)[i] == Keys(rest)[i - 1] && Keys(r)[j] == Keys(rest)[j - 1];
        }
      }
    }
  }

  /** `sorted(parameters.items())`: entries ordered by key (keys are distinct, so values are never compared). */
  function SortByKey(p: Params): (r: Params)
    decreases |p|
  {
    if p == [] then [] else Insert(p[0], SortByKey(p[1..]))
  }

  /** Sorting keeps every entry, and only those. */
  lemma {:induction false} SortByKeyPermutes(p: Params)
    ensures multiset(SortByKey(p)) == multiset(p)
    decreases |p|
  {
    if p != [] {
      SortByKeyPermutes(p[1..]);
      InsertPermutes(p[0], SortByKey(p[1..]));
      assert p == [p[0]] + p[1..];
    }
  }

  /** The sorted entries are in strictly ascending key order. */
  lemma {:induction false} SortByKeyAscending(p: Params)
    requires DistinctKeys(p)
    ensures StrictlyAscending(Keys(SortByKey(p)))
    decreases |p|
  {
    if p != [] {
      var rest := SortByKey(p[1..]);
      SortByKeyAscending(p[1..]);
      SortByKeyPermutes(p[1..]);
      forall i | 0 <= i < |rest| ensures p[0].0 != rest[i].0 {
        assert rest[i] in multiset(p[1..]);
        var j :| 0 <= j < |p[1..]| && p[1..][j] == rest[i];
        assert p[j + 1] == rest[i];
      }
      InsertAscending(p[0], rest);
    }
  }

  /** One `key=value` pair: the key verbatim, the value through `quote_plus(str(value))`. */
  function Pair(e: (string, Atom)): (r: string) {
    e.0 + "=" + QuotePlus(Render(e.1))
  }

  function Pairs(p: Params): (r: seq<string>)
    ensures |r| == |p|
    ensures forall i :: 0 <= i < |p| ==> r[i] == Pair(p[i])
  {
    seq(|p|, i requires 0 <= i < |p| => Pair(p[i]))
  }

  /** The query string of call.py:26-27. */
  function QueryString(p: Params): (r: string) {
    Join('&', Pairs(SortByKey(p)))
  }

  /** The realm the request is signed for: the URL before the query string. */
  function Realm(base: string, endpoint: string): (r: string) {
    base + "/output.json" + endpoint
  }

  /** The URL `get_content` requests. */
  function Url(base: string, endpoint: string, p: Option<Params>): (r: string) {
    if Truthy(p) then Realm(base, endpoint) + "?" + QueryString(p.value)
    else Realm(base, endpoint)
  }

  /** A query string read back: split on `&`, each piece cut at its first `=`, each value decoded. */
  function ParseQuery(q: string): (r: Option<seq<(string, seq<byte>)>>) {
    ParsePairs(Split(q, '&'))
  }

  function ParsePairs(pieces: seq<string>): (r: Option<seq<(string, seq<byte>)>>)
    decreases |pieces|
  {
    if pieces == [] then Some([])
    else match (Cut(pieces[0], '='), ParsePairs(pieces[1..]))
      case (Parts(k, v), Some(rest)) =>
        (match UnquotePlus(v)
         case Some(bytes) => Some([(k, bytes)] + rest)
         case None => None)
      case _ => None
  }

  predicate PlainKeys(p: Params) {
    forall i :: 0 <= i < |p| ==> '&' !in p[i].0 && '=' !in p[i].0
  }

  function Expected(p: Params): (r: seq<(string, seq<byte>)>)
    ensures |r| == |p|
    ensures forall i :: 0 <= i < |p| ==> r[i] == (p[i].0, Utf8Encode(Render(p[i].1)))
  {
    seq(|p|, i requires 0 <= i < |p| => (p[i].0, Utf8Encode(Render(p[i].1))))
  }

  lemma {:induction false} ParsePairsOf(p: Params)
    requires PlainKeys(p)
    ensures ParsePairs(Pairs(p)) == Some(Expected(p))
    decreases |p|
  {
    if p != [] {
      var v := QuotePlus(Render(p[0].1));
      CutFirst(p[0].0, v, '=');
      UnquoteQuotePlus(Render(p[0].1));
      assert Pairs(p)[1..] == Pairs(p[1..]);
      ParsePairsOf(p[1..]);
      assert Expected(p) == [Expected(p)[0]] + Expected(p[1..]);
    }
  }

  /**
   * Reading the query string back yields exactly one pair per parameter,
   * in ascending key order, each key verbatim and each value decoding to
   * the UTF-8 bytes of `str(value)`, provided keys hold no `&` or `=`;
   * the pairs are the parameters themselves, reordered.
   */
  lemma QueryStringRoundTrip(p: Params)
    requires DistinctKeys(p) && p != [] && PlainKeys(p)
    ensures ParseQuery(QueryString(p)) == Some(Expected(SortByKey(p)))
    ensures |Expected(SortByKey(p))| == |p| && multiset(SortByKey(p)) == multiset(p)
    ensures StrictlyAscending(Keys(SortByKey(p)))
  {
    var s := SortByKey(p);
    SortByKeyAscending(p);
    SortByKeyPermutes(p);
    assert |s| == |p| by { assert |multiset(s)| == |multiset(p)|; }
    forall i | 0 <= i < |s| ensures '&' !in s[i].0 && '=' !in s[i].0 {
      assert s[i] in multiset(p);
    }
    forall i | 0 <= i < |s| ensures '&' !in Pairs(s)[i] {
      QuotePlusSafe(Render(s[i].1));
    }
    SplitJoin('&', Pairs(s));
    ParsePairsOf(s);
  }

  /** A `?` appears in the URL exactly when parameters are given and non-empty. */
  lemma QueryMarkIffParams(base: string, endpoint: string, p: Option<Params>)
    requires '?' !in base && '?' !in endpoint
    ensures ('?' in Url(base, endpoint, p)) <==> Truthy(p)
    ensures Url(base, endpoint, p)[..|Realm(base, endpoint)|] == Realm(base, endpoint)
  {
    var r := Realm(base, endpoint);
    assert '?' !in "/output.json";
    assert '?' !in r;
    if Truthy(p) {
      assert Url(base, endpoint, p)[|r|] == '?';
    }
  }
}
