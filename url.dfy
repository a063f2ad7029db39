/**
 * A stand-in for the URL value a request carries: everything before the
 * query as one opaque string, and the query as the list of its items,
 * already decoded, in the order they appear.
 */
module Url {

  /** One decoded query item: a key and its value. */
  type QueryItem = (string, string)

  /** A decoded query string; a key may occur more than once. */
  type Query = seq<QueryItem>

  datatype Url = Url(location: string, query: Query)

  /** The URL with its query replaced and everything else kept. */
  function SetQuery(u: Url, q: Query): (r: Url)
    ensures r.location == u.location && r.query == q
  {
    u.(query := q)
  }

  /** True when some item of the query has the key `name`. */
  predicate HasQueryItem(q: Query, name: string)
  {
    exists i :: 0 <= i < |q| && q[i].0 == name
  }

  /** The value of the first item whose key is `name`. */
  function QueryItemValue(q: Query, name: string): (r: string)
    requires HasQueryItem(q, name)
    ensures exists i :: 0 <= i < |q| && q[i] == (name, r) && forall j :: 0 <= j < i ==> q[j].0 != name
  {
    if q[0].0 == name then
      assert q[0] == (name, q[0].1);
      q[0].1
    else
      assert HasQueryItem(q[1..], name) by {
        var i :| 0 <= i < |q| && q[i].0 == name;
        assert q[1..][i - 1].0 == name;
      }
      var r := QueryItemValue(q[1..], name);
      var i :| 0 <= i < |q[1..]| && q[1..][i] == (name, r) && forall j :: 0 <= j < i ==> q[1..][j].0 != name;
      assert q[i + 1] == (name, r);
      assert forall j :: 0 <= j < i + 1 ==> q[j].0 != name by {
        forall j | 0 <= j < i + 1 ensures q[j].0 != name {
          if j > 0 { assert q[j] == q[1..][j - 1]; }
        }
      }
      r
  }
}
