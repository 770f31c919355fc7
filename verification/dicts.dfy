/**
 * Python's `dict` with string keys: an insertion-ordered sequence of entries
 * whose keys are distinct.
 */
module Dicts {
  import opened Wrappers

  type Dict<V> = seq<(string, V)>

  function Keys<V>(d: Dict<V>): (ks: seq<string>)
    ensures |ks| == |d|
    ensures forall i :: 0 <= i < |d| ==> ks[i] == d[i].0
  {
    seq(|d|, i requires 0 <= i < |d| => d[i].0)
  }

  predicate DistinctKeys<V>(d: Dict<V>) {
    forall i, j :: 0 <= i < j < |d| ==> d[i].0 != d[j].0
  }

  /** `d.get(k)`. */
  function Get<V>(d: Dict<V>, k: string): (r: Option<V>)
    decreases |d|
  {
    if d == [] then None
    else if d[0].0 == k then Some(d[0].1)
    else Get(d[1..], k)
  }

  /** A key is found exactly when it is one of the keys. */
  lemma {:induction false} GetFindsKeys<V>(d: Dict<V>, k: string)
    ensures Get(d, k).Some? <==> k in Keys(d)
    decreases |d|
  {
    if d != [] {
      assert Keys(d) == [d[0].0] + Keys(d[1..]);
      GetFindsKeys(d[1..], k);
    }
  }

  /**
   * `d[k] = v`: afterwards k maps to v and every other key maps to what it
   * mapped to before.
   */
  function Put<V>(d: Dict<V>, k: string, v: V): (r: Dict<V>)
    ensures forall k' :: Get(r, k') == if k' == k then Some(v) else Get(d, k')
    decreases |d|
  {
    if d == [] then [(k, v)]
    else if d[0].0 == k then [(k, v)] + d[1..]
    else
      var rest := Put(d[1..], k, v);
      assert ([d[0]] + rest)[1..] == rest;
      [d[0]] + rest
  }

  /** An existing key keeps its position and a new key is added at the end. */
  lemma {:induction false} PutKeys<V>(d: Dict<V>, k: string, v: V)
    ensures Keys(Put(d, k, v)) == if k in Keys(d) then Keys(d) else Keys(d) + [k]
    decreases |d|
  {
    if d != [] {
      assert Keys(d) == [d[0].0] + Keys(d[1..]);
      if d[0].0 == k {
        assert Put(d, k, v) == [(k, v)] + d[1..];
        assert Keys([(k, v)] + d[1..]) == [k] + Keys(d[1..]);
      } else {
        var rest := Put(d[1..], k, v);
        assert Put(d, k, v) == [d[0]] + rest;
        PutKeys(d[1..], k, v);
        assert Keys([d[0]] + rest) == [d[0].0] + Keys(rest);
        assert (k in Keys(d)) == (k in Keys(d[1..]));
        assert [d[0].0] + (Keys(d[1..]) + [k]) == Keys(d) + [k];
      }
    }
  }

  /** Assigning to a dict keeps its keys distinct. */
  lemma PutKeepsDistinct<V>(d: Dict<V>, k: string, v: V)
    requires DistinctKeys(d)
    ensures DistinctKeys(Put(d, k, v))
  {
    var r := Put(d, k, v);
    PutKeys(d, k, v);
    forall i, j | 0 <= i < j < |r| ensures r[i].0 != r[j].0 {
      assert r[i].0 == Keys(r)[i] && r[j].0 == Keys(r)[j];
      if j < |d| {
        assert Keys(r)[i] == Keys(d)[i] && Keys(r)[j] == Keys(d)[j];
      } else {
        assert Keys(r)[i] == Keys(d)[i];
      }
    }
  }

  /** Assigning a key twice leaves what assigning it once with the last value leaves. */
  lemma {:induction false} PutPut<V>(d: Dict<V>, k: string, v: V, w: V)
    ensures Put(Put(d, k, v), k, w) == Put(d, k, w)
    decreases |d|
  {
    if d != [] && d[0].0 != k {
      var rest := Put(d[1..], k, v);
      assert Put(d, k, v) == [d[0]] + rest;
      PutPut(d[1..], k, v, w);
    }
  }

  /** Assigning a key the value it already has changes nothing. */
  lemma {:induction false} PutSame<V>(d: Dict<V>, k: string, v: V)
    requires Get(d, k) == Some(v)
    ensures Put(d, k, v) == d
    decreases |d|
  {
    if d[0].0 == k {
      assert [(k, v)] + d[1..] == d;
    } else {
      PutSame(d[1..], k, v);
      assert [d[0]] + d[1..] == d;
    }
  }
}
