/**
 * The parameter store a request keeps beside its URL, modelled abstractly:
 * a string-keyed map kept as its items in increasing key order (for keys
 * in the Basic Multilingual Plane, the order a Qt map iterates in), with
 * the operations the request uses: load a query, add (insert or overwrite), remove, look up a value,
 * flatten to a map, and serialise back to a query.
 */
module ServerParameters {
  import opened Url
  import KeyOrder

  /** The store's items: each key once, in increasing key order. */
  type Items = seq<QueryItem>

  /** The keys of a list of items, as a set. */
  function Keys(p: seq<QueryItem>): set<string>
  {
    if p == [] then {} else {p[0].0} + Keys(p[1..])
  }

  /** Every key of `p` comes after `key`. */
  predicate Above(key: string, p: seq<QueryItem>)
  {
    forall k :: k in Keys(p) ==> KeyOrder.Less(key, k)
  }

  /** Strictly increasing keys; in particular no key occurs twice. */
  predicate Sorted(p: Items)
  {
    p == [] || (Above(p[0].0, p[1..]) && Sorted(p[1..]))
  }

  /**
   * Flattens a list of items into a map; when a key occurs more than once
   * the last occurrence wins. On a sorted store this is its content.
   */
  function ToMap(p: seq<QueryItem>): (r: map<string, string>)
    ensures r.Keys == Keys(p)
  {
    if p == [] then map[] else map[p[0].0 := p[0].1] + ToMap(p[1..])
  }

  /** In a sorted store the first key is not repeated later. */
  lemma HeadNotInTail(p: Items)
    requires p != [] && Sorted(p)
    ensures p[0].0 !in Keys(p[1..])
  {
    KeyOrder.LessIrreflexive(p[0].0);
  }

  /** The value stored under `key`, or the empty string when there is none. */
  function Value(p: Items, key: string): (r: string)
    requires Sorted(p)
    ensures key in ToMap(p) ==> r == ToMap(p)[key]
    ensures key !in ToMap(p) ==> r == ""
  {
    if p == [] then ""
    else
      HeadNotInTail(p);
      if p[0].0 == key then p[0].1 else Value(p[1..], key)
  }

  /** Putting an item in front of a sorted store whose keys all come after it. */
  lemma ConsBefore(x: QueryItem, p: Items)
    requires Sorted(p) && Above(x.0, p)
    ensures Sorted([x] + p)
    ensures ToMap([x] + p) == ToMap(p)[x.0 := x.1]
  {
    KeyOrder.LessIrreflexive(x.0);
    assert ([x] + p)[1..] == p;
  }

  /** Putting a store's first item back in front of the rest once `key` is added to it. */
  lemma ConsAfter(p: Items, key: string, value: string, rest: Items)
    requires p != [] && Sorted(p) && KeyOrder.Less(p[0].0, key)
    requires Sorted(rest) && ToMap(rest) == ToMap(p[1..])[key := value]
    ensures Sorted([p[0]] + rest)
    ensures ToMap([p[0]] + rest) == ToMap(p)[key := value]
  {
    var q := [p[0]] + rest;
    assert q[0] == p[0] && q[1..] == rest;
    assert Keys(rest) == Keys(p[1..]) + {key};
    assert Above(p[0].0, rest);
    MergeUpdate(map[p[0].0 := p[0].1], ToMap(p[1..]), key, value);
  }

  /** Updating the right operand of a map union updates the union. */
  lemma MergeUpdate(m: map<string, string>, t: map<string, string>, k: string, v: string)
    ensures m + t[k := v] == (m + t)[k := v]
  {
  }

  /** Inserts `key` with `value`, overwriting the value it had. */
  function Add(p: Items, key: string, value: string): (r: Items)
    requires Sorted(p)
    ensures Sorted(r)
    ensures ToMap(r) == ToMap(p)[key := value]
  {
    if p == [] then [(key, value)]
    else if p[0].0 == key then
      HeadNotInTail(p);
      ConsBefore((key, value), p[1..]);
      [(key, value)] + p[1..]
    else if KeyOrder.Less(key, p[0].0) then
      assert Above(key, p) by {
        forall k | k in Keys(p[1..]) ensures KeyOrder.Less(key, k) {
          KeyOrder.LessTransitive(key, p[0].0, k);
        }
      }
      ConsBefore((key, value), p);
      [(key, value)] + p
    else
      KeyOrder.LessTotal(key, p[0].0);
      var rest := Add(p[1..], key, value);
      ConsAfter(p, key, value, rest);
      [p[0]] + rest
  }

  /** Deletes `key`; a store without it is left as it is. */
  function Remove(p: Items, key: string): (r: Items)
    requires Sorted(p)
    ensures Sorted(r)
    ensures ToMap(r) == ToMap(p) - {key}
  {
    if p == [] then []
    else if p[0].0 == key then
      HeadNotInTail(p);
      Remove(p[1..], key)
    else
      [p[0]] + Remove(p[1..], key)
  }

  /**
   * A sorted store is determined by its content: two sorted stores that
   * flatten to the same map are the same list of items.
   */
  lemma {:induction false} SortedUnique(p: Items, q: Items)
    requires Sorted(p) && Sorted(q)
    requires ToMap(p) == ToMap(q)
    ensures p == q
  {
    if p != [] && q != [] {
      var a, b := p[0].0, q[0].0;
      assert a in Keys(q) && b in Keys(p);
      if a != b {
        KeyOrder.LessTotal(a, b);
        assert a in Keys(q[1..]) && b in Keys(p[1..]);
        KeyOrder.LessAsymmetric(a, b);
        assert false;
      }
      HeadNotInTail(p);
      HeadNotInTail(q);
      assert p[0] == (a, ToMap(p)[a]) && q[0] == (a, ToMap(q)[a]);
      assert ToMap(p[1..]) == ToMap(p) - {a};
      assert ToMap(q[1..]) == ToMap(q) - {a};
      SortedUnique(p[1..], q[1..]);
      assert p == [p[0]] + p[1..] && q == [q[0]] + q[1..];
    }
  }

  /** Removing a key twice leaves the store as removing it once does. */
  lemma {:induction false} RemoveIdempotent(p: Items, key: string)
    requires Sorted(p)
    ensures Remove(Remove(p, key), key) == Remove(p, key)
  {
    SortedUnique(Remove(Remove(p, key), key), Remove(p, key));
  }

  /** One item taken from the right operand of a map union into the left one. */
  lemma MergeStep(m: map<string, string>, k: string, v: string, t: map<string, string>)
    ensures m[k := v] + t == m + (map[k := v] + t)
  {
  }

  /** Adds the items of a query, in order, to a store. */
  function LoadInto(acc: Items, q: Query): (r: Items)
    requires Sorted(acc)
    ensures Sorted(r)
    ensures ToMap(r) == ToMap(acc) + ToMap(q)
    decreases |q|
  {
    if q == [] then acc
    else
      var (k, v) := q[0];
      var r := LoadInto(Add(acc, k, v), q[1..]);
      MergeStep(ToMap(acc), k, v, ToMap(q[1..]));
      r
  }

  /**
   * The store built from a query: every key of the query, with the value
   * of its last occurrence.
   */
  function Load(q: Query): (r: Items)
    ensures Sorted(r)
    ensures ToMap(r) == ToMap(q)
  {
    LoadInto([], q)
  }

  /**
   * The query that the store serialises to: its items in key order.
   * Loading it gives back the same store.
   */
  function UrlQuery(p: Items): (r: Query)
    requires Sorted(p)
    ensures Load(r) == p
  {
    SortedUnique(Load(p), p);
    p
  }

  /**
   * Read back through the query it serialises to, a sorted store has an
   * item exactly for its keys, and the item carries the stored value.
   */
  lemma {:induction false} UrlQueryItems(p: Items, key: string)
    requires Sorted(p)
    ensures HasQueryItem(UrlQuery(p), key) <==> key in ToMap(p)
    ensures key in ToMap(p) ==> QueryItemValue(UrlQuery(p), key) == ToMap(p)[key]
  {
    if p != [] {
      UrlQueryItems(p[1..], key);
      HeadNotInTail(p);
      if HasQueryItem(p, key) && p[0].0 != key {
        var i :| 0 <= i < |p| && p[i].0 == key;
        assert p[1..][i - 1].0 == key;
      }
      if HasQueryItem(p[1..], key) {
        var i :| 0 <= i < |p[1..]| && p[1..][i].0 == key;
        assert p[i + 1].0 == key;
      }
    }
  }
}
