/**
 * `dict_to_xml` (cardmarket_api/utils.py) and the element tree it builds:
 * every key of a dict becomes a child element named by the key, a list
 * value one element per item, a nested dict an element holding the nested
 * encoding, and any other value an element whose text is `str(value)`
 * (none for None).
 */
module XmlEncoder {
  import opened Wrappers
  import opened Atoms

  /** A JSON-like value: None, a scalar, a list, or a dict in insertion order. */
  datatype Value = Null | Scalar(a: Atom) | List(items: seq<Value>) | Map(entries: seq<(string, Value)>)

  /** An element: its tag, its text (None when unset) and its children in document order. */
  datatype Node = Node(tag: string, text: Option<string>, children: seq<Node>)

  /** The number of children one key appends: one per item for a list, one otherwise. */
  function Arity(v: Value): (r: nat) {
    if v.List? then |v.items| else 1
  }

  /** The elements one key appends to its parent. */
  function EntryNodes(key: string, v: Value): (r: seq<Node>)
    decreases v, 2
  {
    match v
    case Null => [Node(key, None, [])]
    case Scalar(a) => [Node(key, Some(Render(a)), [])]
    case Map(entries) => [Node(key, None, EntriesNodes(v, |entries|))]
    case List(items) => ItemNodes(key, v, |items|)
  }

  /** The elements for the first n items of list l, each named `key`. */
  function ItemNodes(key: string, l: Value, n: nat): (r: seq<Node>)
    requires l.List? && n <= |l.items|
    decreases l, 1, n
  {
    if n == 0 then [] else ItemNodes(key, l, n - 1) + [Node(key, None, Children(l.items[n - 1]))]
  }

  /** The children of the element a list item becomes: the encoding of the item's entries. */
  function Children(v: Value): (r: seq<Node>)
    decreases v, 3
  {
    if v.Map? then EntriesNodes(v, |v.entries|) else []
  }

  /** The elements for the first n entries of dict m. */
  function EntriesNodes(m: Value, n: nat): (r: seq<Node>)
    requires m.Map? && n <= |m.entries|
    decreases m, 0, n
  {
    if n == 0 then [] else EntriesNodes(m, n - 1) + EntryNodes(m.entries[n - 1].0, m.entries[n - 1].1)
  }

  /** The children `dict_to_xml(tree, d)` appends to `tree`. */
  function Encode(d: seq<(string, Value)>): (r: seq<Node>) {
    EntriesNodes(Map(d), |d|)
  }

  /** Every list met, at any depth, holds only dicts (each item is recursed into with `.items()`). */
  predicate Encodable(v: Value)
    decreases v
  {
    match v
    case Null => true
    case Scalar(_) => true
    case List(items) => forall i :: 0 <= i < |items| ==> items[i].Map? && Encodable(items[i])
    case Map(entries) => forall i :: 0 <= i < |entries| ==> Encodable(entries[i].1)
  }

  /**
   * What one key appends: one element for a scalar, None or a dict, one per
   * item for a list, all named by the key; a scalar's text is `str(value)`,
   * None and containers leave the text unset; a dict's element holds the
   * dict's encoding, and each list item's element holds that item's.
   */
  lemma {:induction false} EntryNodesShape(key: string, v: Value)
    ensures |EntryNodes(key, v)| == Arity(v)
    ensures forall i :: 0 <= i < Arity(v) ==> EntryNodes(key, v)[i].tag == key
    ensures v.Scalar? ==> EntryNodes(key, v)[0].text == Some(Render(v.a)) && EntryNodes(key, v)[0].children == []
    ensures v.Null? ==> EntryNodes(key, v)[0].text == None && EntryNodes(key, v)[0].children == []
    ensures v.Map? ==> EntryNodes(key, v)[0].text == None && EntryNodes(key, v)[0].children == Encode(v.entries)
    ensures v.List? ==> forall i :: 0 <= i < |v.items| ==>
              EntryNodes(key, v)[i].text == None && EntryNodes(key, v)[i].children == Children(v.items[i])
  {
    if v.List? {
      ItemNodesShape(key, v, |v.items|);
    }
  }

  lemma {:induction false} ItemNodesShape(key: string, l: Value, n: nat)
    requires l.List? && n <= |l.items|
    ensures |ItemNodes(key, l, n)| == n
    ensures forall i :: 0 <= i < n ==> ItemNodes(key, l, n)[i] == Node(key, None, Children(l.items[i]))
    decreases n
  {
    if n > 0 {
      ItemNodesShape(key, l, n - 1);
    }
  }

  /** The encoding of a prefix of a dict depends only on that prefix. */
  lemma {:induction false} EntriesNodesPrefix(m: Value, m': Value, n: nat)
    requires m.Map? && m'.Map? && n <= |m.entries| && n <= |m'.entries|
    requires m.entries[..n] == m'.entries[..n]
    ensures EntriesNodes(m, n) == EntriesNodes(m', n)
    decreases n
  {
    if n > 0 {
      assert m.entries[n - 1] == m.entries[..n][n - 1] == m'.entries[n - 1];
      assert m.entries[..n - 1] == m.entries[..n][..n - 1];
      assert m'.entries[..n - 1] == m'.entries[..n][..n - 1];
      EntriesNodesPrefix(m, m', n - 1);
    }
  }

  /** Adding a key at the end of a dict appends that key's elements after the others. */
  lemma EncodeSnoc(d: seq<(string, Value)>, key: string, v: Value)
    ensures Encode(d + [(key, v)]) == Encode(d) + EntryNodes(key, v)
  {
    var d' := d + [(key, v)];
    assert d'[..|d|] == d[..|d|];
    EntriesNodesPrefix(Map(d'), Map(d), |d|);
  }

  /**
   * Children come in the dict's iteration order: the encoding of two dicts
   * laid end to end is the first's encoding followed by the second's.
   */
  lemma {:induction false} EncodeConcat(d1: seq<(string, Value)>, d2: seq<(string, Value)>)
    ensures Encode(d1 + d2) == Encode(d1) + Encode(d2)
    decreases |d2|
  {
    if d2 == [] {
      assert d1 + d2 == d1;
    } else {
      var init, last := d2[..|d2| - 1], d2[|d2| - 1];
      assert d2 == init + [last];
      assert d1 + d2 == (d1 + init) + [last];
      EncodeConcat(d1, init);
      EncodeSnoc(d1 + init, last.0, last.1);
      EncodeSnoc(init, last.0, last.1);
    }
  }

  /** The number of children a dict's keys append. */
  function TotalArity(d: seq<(string, Value)>): (r: nat) {
    if d == [] then 0 else TotalArity(d[..|d| - 1]) + Arity(d[|d| - 1].1)
  }

  /** `dict_to_xml` appends exactly one child per scalar, None or dict value and one per list item. */
  lemma {:induction false} EncodeLength(d: seq<(string, Value)>)
    ensures |Encode(d)| == TotalArity(d)
    decreases |d|
  {
    if d != [] {
      var init, last := d[..|d| - 1], d[|d| - 1];
      assert d == init + [last];
      EncodeSnoc(init, last.0, last.1);
      EncodeLength(init);
      EntryNodesShape(last.0, last.1);
    }
  }

  /** Nothing is created exactly when every value is an empty list (an empty dict included). */
  lemma {:induction false} EncodeEmpty(d: seq<(string, Value)>)
    ensures Encode(d) == [] <==> forall i :: 0 <= i < |d| ==> d[i].1 == List([])
    decreases |d|
  {
    if d != [] {
      var init, last := d[..|d| - 1], d[|d| - 1];
      assert d == init + [last];
      EncodeSnoc(init, last.0, last.1);
      EncodeEmpty(init);
      EntryNodesShape(last.0, last.1);
      if last.1.List? && |last.1.items| == 0 {
        assert last.1 == List([]);
      }
      if forall i :: 0 <= i < |init| ==> init[i].1 == List([]) {
        if last.1 == List([]) {
          forall i | 0 <= i < |d| ensures d[i].1 == List([]) {
            if i < |init| { assert d[i] == init[i]; }
          }
        }
      } else {
        var i :| 0 <= i < |init| && init[i].1 != List([]);
        assert d[i] == init[i];
      }
    }
  }

  /**
   * `dict_to_xml(tree, d)`: appends the encoding of d after tree's existing
   * children and returns the position of the last element it created at
   * this level, or None when it created none. The source attaches each
   * element before filling it; here the element is filled and then
   * attached, which gives the same tree.
   */
  method DictToXml(tree: Node, d: seq<(string, Value)>) returns (result: Node, element: Option<nat>)
    requires Encodable(Map(d))
    ensures result == tree.(children := tree.children + Encode(d))
    ensures element == if Encode(d) == [] then None else Some(|result.children| - 1)
    decreases Map(d)
  {
    result, element := tree, None;
    for i := 0 to |d|
      invariant result == tree.(children := tree.children + EntriesNodes(Map(d), i))
      invariant element == if EntriesNodes(Map(d), i) == [] then None else Some(|result.children| - 1)
    {
      var key, value := d[i].0, d[i].1;
      ghost var before := result.children;
      match value {
        case List(items) =>
          for j := 0 to |items|
            invariant result.tag == tree.tag && result.text == tree.text
            invariant result.children == before + ItemNodes(key, value, j)
            invariant element == if EntriesNodes(Map(d), i) + ItemNodes(key, value, j) == [] then None
                                 else Some(|result.children| - 1)
          {
            assert items[j] == Map(items[j].entries);
            var child, _ := DictToXml(Node(key, None, []), items[j].entries);
            assert child == Node(key, None, Children(items[j]));
            result := result.(children := result.children + [child]);
            element := Some(|result.children| - 1);
          }
        case Map(entries) =>
          var child, _ := DictToXml(Node(key, None, []), entries);
          assert child.children == [] + Encode(entries) == Encode(entries);
          assert [child] == EntryNodes(key, value);
          result := result.(children := result.children + [child]);
          element := Some(|result.children| - 1);
        case Scalar(a) =>
          var child := Node(key, Some(Render(a)), []);
          result := result.(children := result.children + [child]);
          element := Some(|result.children| - 1);
        case Null =>
          var child := Node(key, None, []);
          result := result.(children := result.children + [child]);
          element := Some(|result.children| - 1);
      }
      assert result.children == before + EntryNodes(key, value);
      assert EntriesNodes(Map(d), i + 1) == EntriesNodes(Map(d), i) + EntryNodes(key, value);
    }
    assert d == Map(d).entries;
  }

  /** The children `construct_xml` gives the root: each dict's encoding, in list order. */
  function EncodeAll(ds: seq<seq<(string, Value)>>): (r: seq<Node>) {
    if ds == [] then [] else EncodeAll(ds[..|ds| - 1]) + Encode(ds[|ds| - 1])
  }

  /** The root's children are the encoding of all the dicts merged in order; no dicts give a childless root. */
  lemma {:induction false} EncodeAllConcat(ds: seq<seq<(string, Value)>>)
    ensures EncodeAll(ds) == Encode(Flatten(ds))
    ensures ds == [] ==> EncodeAll(ds) == []
    decreases |ds|
  {
    if ds != [] {
      var init := ds[..|ds| - 1];
      EncodeAllConcat(init);
      assert Flatten(ds) == Flatten(init) + ds[|ds| - 1];
      EncodeConcat(Flatten(init), ds[|ds| - 1]);
    }
  }

  /** The entries of several dicts one after the other. */
  function Flatten(ds: seq<seq<(string, Value)>>): (r: seq<(string, Value)>) {
    if ds == [] then [] else Flatten(ds[..|ds| - 1]) + ds[|ds| - 1]
  }
}
